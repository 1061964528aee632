/**
 * Sessions and router as asynchronous parties over FIFO queues: what the generation tag is for.
 *
 * The router stays up. A session may stop and be started again; it then reads its subscriptions and
 * its generation back from the tables, which mirror the index, and gets a new inbox.
 */
module Generations {
  import opened Basics
  import opened Paths
  import opened Matching
  import opened TopicData

  datatype RouterMessage =
    | Subscribe(session: SessionId, topic: Str, qos: Byte)
    | Unsubscribe(session: SessionId, topics: set<Str>)
    | ForwardPublish(message: Publish)

  /** `via` is the filter whose entry the delivery came from. */
  datatype Delivery = Delivery(session: SessionId, message: Publish, via: Path)

  datatype SessionState = SessionState(internalId: int, generation: int, subscriptions: set<Str>, inbox: seq<Delivery>)

  /** What happened, in order; `Accepted` is a delivery that passed the generation check. */
  datatype Event =
    | Subscribed(session: Str, filter: Path)
    | Cleaned(session: Str)
    | Accepted(session: Str, filter: Path)

  datatype World = World(index: Data, queue: seq<RouterMessage>, sessions: map<Str, SessionState>, log: seq<Event>)

  function IdOf(w: World, n: Str): SessionId
    requires n in w.sessions
  {
    SessionId(n, w.sessions[n].internalId, w.sessions[n].generation)
  }

  // ----- entries of the index, one session and one filter at a time -----

  /** The generation under which session `n` is filed at `p`. */
  function TagAt(d: Data, p: Path, n: Str): Option<int> {
    if p in d && n in d[p].clients then Some(d[p].clients[n].session.generation) else None
  }

  function UnsubscribeAll(d: Data, s: SessionId, topics: set<Path>): Data {
    map p | p in d :: if p in topics then UnsubscribedNode(d[p], s) else d[p]
  }

  function UnsubscribedNode(n: NodeData, s: SessionId): NodeData {
    if s.session in n.clients
    then var m := WithoutEntry(n, s.session); if Used(m) then m else BLANK
    else n
  }

  function PathsOf(topics: set<Str>): set<Path> {
    set x | x in topics :: Split(x)
  }

  // ----- steps -----

  ghost predicate SessionSubscribes(w: World, v: World, n: Str, topic: Str, qos: Byte) {
    n in w.sessions &&
    v == w.(queue := w.queue + [Subscribe(IdOf(w, n), topic, qos)],
            sessions := w.sessions[n := w.sessions[n].(subscriptions := w.sessions[n].subscriptions + {topic})],
            log := w.log + [Subscribed(n, Split(topic))])
  }

  ghost predicate SessionUnsubscribes(w: World, v: World, n: Str, topics: set<Str>) {
    n in w.sessions &&
    v == w.(queue := w.queue + [Unsubscribe(IdOf(w, n), topics)],
            sessions := w.sessions[n := w.sessions[n].(subscriptions := w.sessions[n].subscriptions - topics)])
  }

  /** A clean session: all subscriptions are cancelled under the old generation, then the next one begins. */
  ghost predicate SessionCleans(w: World, v: World, n: Str) {
    n in w.sessions &&
    v == w.(queue := w.queue + [Unsubscribe(IdOf(w, n), w.sessions[n].subscriptions)],
            sessions := w.sessions[n := w.sessions[n].(subscriptions := {}, generation := w.sessions[n].generation + 1)],
            log := w.log + [Cleaned(n)])
  }

  /** A clean session whose last write failed: the session stops, its durable generation is the old one. */
  ghost predicate SessionCleanCut(w: World, v: World, n: Str) {
    n in w.sessions &&
    v == w.(queue := w.queue + [Unsubscribe(IdOf(w, n), w.sessions[n].subscriptions)],
            sessions := w.sessions[n := w.sessions[n].(subscriptions := {}, inbox := [])])
  }

  /** A session is started from the tables. It never stops while it waits for a subscribe answer. */
  ghost predicate SessionRestarts(w: World, v: World, n: Str, loaded: set<Str>) {
    n in w.sessions && (forall m :: m in w.queue && m.Subscribe? ==> m.session.session != n) &&
    (forall x :: x in loaded <==> TagAt(w.index, Split(x), n).Some?) &&
    v == w.(sessions := w.sessions[n := w.sessions[n].(subscriptions := loaded, inbox := [])])
  }

  ghost predicate SessionOpens(w: World, v: World, n: Str, internalId: int) {
    n !in w.sessions && v == w.(sessions := w.sessions[n := SessionState(internalId, 0, {}, [])])
  }

  ghost predicate SessionPublishes(w: World, v: World, m: Publish) {
    v == w.(queue := w.queue + [ForwardPublish(m)])
  }

  /** The session loop takes a delivery: it counts only under the session's own generation. */
  ghost predicate SessionReceives(w: World, v: World, n: Str) {
    n in w.sessions && w.sessions[n].inbox != [] &&
    var d, rest := w.sessions[n].inbox[0], w.sessions[n].inbox[1..];
    v == w.(sessions := w.sessions[n := w.sessions[n].(inbox := rest)],
            log := if d.session.generation == w.sessions[n].generation then w.log + [Accepted(n, d.via)] else w.log)
  }

  /** `x` is `m` at the lower of its own QoS and the one granted, and the same in all else. */
  ghost predicate Lowered(x: Publish, m: Publish, qos: Byte) {
    x.qos <= m.qos && x.qos <= qos && (x.qos == m.qos || x.qos == qos) && x == m.(qos := x.qos)
  }

  /** That fixes the copy. */
  lemma LoweredIs(x: Publish, m: Publish, qos: Byte)
    ensures Lowered(x, m, qos) <==>
              && x.topic == m.topic && x.message == m.message && x.identifier == m.identifier
              && x.retain == m.retain && x.dup == m.dup && x.qos == if m.qos <= qos then m.qos else qos
  {}

  /** A delivery of `m` to session `n` through one of its entries whose filter matches. */
  ghost predicate Routed(d: Data, n: Str, m: Publish, x: Delivery) {
    && x.via in d && n in d[x.via].clients && Matches(x.via, Split(m.topic))
    && x.session == d[x.via].clients[n].session && Lowered(x.message, m, d[x.via].clients[n].qos)
  }

  /** Deliveries of one publish: only through matching entries, only to the session they are filed for. */
  ghost predicate Delivers(d: Data, m: Publish, before: map<Str, SessionState>, after: map<Str, SessionState>) {
    after.Keys == before.Keys &&
    forall n :: n in before ==> DeliversTo(d, n, m, before[n], after[n])
  }

  ghost predicate DeliversTo(d: Data, n: Str, m: Publish, before: SessionState, after: SessionState) {
    exists xs :: after == before.(inbox := before.inbox + xs) && RoutedAll(d, n, m, xs)
  }

  ghost predicate RoutedAll(d: Data, n: Str, m: Publish, xs: seq<Delivery>) {
    forall i :: 0 <= i < |xs| ==> Routed(d, n, m, xs[i])
  }

  ghost predicate RouterHandles(w: World, v: World) {
    w.queue != [] && v.queue == w.queue[1..] && v.log == w.log &&
    match w.queue[0]
    case Subscribe(s, topic, qos) =>
      v.sessions == w.sessions &&
      exists id, answer :: GrantedQos(w.index, Split(topic), s, qos, answer) &&
                           v.index == SubscribeData(w.index, Split(topic), id, s, qos, answer)
    case Unsubscribe(s, topics) =>
      v.sessions == w.sessions && v.index == UnsubscribeAll(w.index, s, PathsOf(topics))
    case ForwardPublish(m) =>
      && (v.index == w.index || exists id :: v.index == RetainData(w.index, Split(m.topic), id, m))
      && Delivers(v.index, m, w.sessions, v.sessions)
  }

  ghost predicate Step(w: World, v: World) {
    || (exists n, topic, qos :: SessionSubscribes(w, v, n, topic, qos))
    || (exists n, topics :: SessionUnsubscribes(w, v, n, topics))
    || (exists n :: SessionCleans(w, v, n))
    || (exists n :: SessionCleanCut(w, v, n))
    || (exists n, loaded :: SessionRestarts(w, v, n, loaded))
    || (exists n, id :: SessionOpens(w, v, n, id))
    || (exists m :: SessionPublishes(w, v, m))
    || (exists n :: SessionReceives(w, v, n))
    || RouterHandles(w, v)
  }

  // ----- what one session does, whatever the others are at -----

  function FilterOf(topic: Str): Path {
    Split(topic)
  }

  function After(w: World, n: Str, ms: seq<RouterMessage>, es: seq<Event>, b: SessionState): World {
    w.(queue := w.queue + ms, sessions := w.sessions[n := b], log := w.log + es)
  }

  /** Going from `a` to `b` while sending `ms` is a step of the protocol, logged as `es`. */
  ghost predicate Acts(n: Str, a: SessionState, ms: seq<RouterMessage>, es: seq<Event>, b: SessionState) {
    forall w: World :: n in w.sessions && w.sessions[n] == a ==> Step(w, After(w, n, ms, es, b))
  }

  lemma SubscribeActs(n: Str, a: SessionState, topic: Str, qos: Byte)
    ensures Acts(n, a, [Subscribe(SessionId(n, a.internalId, a.generation), topic, qos)],
                 [Subscribed(n, FilterOf(topic))], a.(subscriptions := a.subscriptions + {topic}))
  {
    var ms, es := [Subscribe(SessionId(n, a.internalId, a.generation), topic, qos)], [Subscribed(n, FilterOf(topic))];
    var b := a.(subscriptions := a.subscriptions + {topic});
    forall w: World | n in w.sessions && w.sessions[n] == a ensures Step(w, After(w, n, ms, es, b)) {
      assert SessionSubscribes(w, After(w, n, ms, es, b), n, topic, qos);
    }
  }

  lemma UnsubscribeActs(n: Str, a: SessionState, topics: set<Str>)
    ensures Acts(n, a, [Unsubscribe(SessionId(n, a.internalId, a.generation), topics)], [],
                 a.(subscriptions := a.subscriptions - topics))
  {
    var ms, b := [Unsubscribe(SessionId(n, a.internalId, a.generation), topics)], a.(subscriptions := a.subscriptions - topics);
    forall w: World | n in w.sessions && w.sessions[n] == a ensures Step(w, After(w, n, ms, [], b)) {
      assert w.log + [] == w.log;
      assert SessionUnsubscribes(w, After(w, n, ms, [], b), n, topics);
    }
  }

  lemma CleanActs(n: Str, a: SessionState)
    ensures Acts(n, a, [Unsubscribe(SessionId(n, a.internalId, a.generation), a.subscriptions)], [Cleaned(n)],
                 a.(subscriptions := {}, generation := a.generation + 1))
  {
    var ms, es := [Unsubscribe(SessionId(n, a.internalId, a.generation), a.subscriptions)], [Cleaned(n)];
    var b := a.(subscriptions := {}, generation := a.generation + 1);
    forall w: World | n in w.sessions && w.sessions[n] == a ensures Step(w, After(w, n, ms, es, b)) {
      assert SessionCleans(w, After(w, n, ms, es, b), n);
    }
  }

  /** Taking the first delivery of the inbox. */
  lemma ReceiveActs(n: Str, a: SessionState, d: Delivery, rest: seq<Delivery>)
    ensures Acts(n, a.(inbox := [d] + rest), [], if d.session.generation == a.generation then [Accepted(n, d.via)] else [],
                 a.(inbox := rest))
  {
    var es := if d.session.generation == a.generation then [Accepted(n, d.via)] else [];
    forall w: World | n in w.sessions && w.sessions[n] == a.(inbox := [d] + rest)
      ensures Step(w, After(w, n, [], es, a.(inbox := rest)))
    {
      assert ([d] + rest)[1..] == rest && w.queue + [] == w.queue && w.log + [] == w.log;
      assert SessionReceives(w, After(w, n, [], es, a.(inbox := rest)), n);
    }
  }

  ghost predicate Init(w: World) {
    w == World(map[[] := BLANK], [], map[], [])
  }

  ghost predicate Run(ws: seq<World>) {
    ws != [] && Init(ws[0]) && forall i :: 0 <= i < |ws| - 1 ==> Step(ws[i], ws[i + 1])
  }

  // ----- the invariant -----

  /** The messages of `q` that concern session `n` at `p`, applied to its tag `e`: no subscribe finds a tag
      other than its own, and what is left in the end is filed under `generation` and wanted. */
  ghost predicate Settles(e: Option<int>, q: seq<RouterMessage>, n: Str, p: Path, generation: int, wanted: bool)
    decreases |q|
  {
    if q == [] then e.Some? ==> e.value == generation && wanted
    else if Concerns(q[0], n, p) then
      match q[0]
      case Subscribe(s, _, _) =>
        (e.Some? ==> e.value == s.generation) && Settles(Some(s.generation), q[1..], n, p, generation, wanted)
      case _ => Settles(None, q[1..], n, p, generation, wanted)
    else Settles(e, q[1..], n, p, generation, wanted)
  }

  predicate Concerns(m: RouterMessage, n: Str, p: Path) {
    match m
    case Subscribe(s, topic, _) => s.session == n && Split(topic) == p
    case Unsubscribe(s, topics) => s.session == n && p in PathsOf(topics)
    case ForwardPublish(_) => false
  }

  function GenerationOf(w: World, n: Str): int {
    if n in w.sessions then w.sessions[n].generation else 0
  }

  predicate Wants(w: World, n: Str, p: Path) {
    n in w.sessions && p in PathsOf(w.sessions[n].subscriptions)
  }

  ghost predicate SettledFor(w: World, n: Str, p: Path) {
    Settles(TagAt(w.index, p, n), w.queue, n, p, GenerationOf(w, n), Wants(w, n, p))
  }

  /** A message at the end of the queue, as the sender's state moves from `g`, `wanted` to `g'`, `wanted'`. */
  ghost predicate Keeps(m: RouterMessage, n: Str, p: Path, g: int, wanted: bool, g': int, wanted': bool) {
    if Concerns(m, n, p) then m.Subscribe? ==> m.session.generation == g == g' && wanted'
    else wanted ==> g' == g && wanted'
  }

  lemma {:induction false} SettlesAppend(e: Option<int>, q: seq<RouterMessage>, m: RouterMessage, n: Str, p: Path,
                                         g: int, wanted: bool, g': int, wanted': bool)
    requires Settles(e, q, n, p, g, wanted) && Keeps(m, n, p, g, wanted, g', wanted')
    ensures Settles(e, q + [m], n, p, g', wanted')
    decreases |q|
  {
    hide PathsOf;
    assert (q + [m])[0] == if q == [] then m else q[0];
    if q == [] {
      assert (q + [m])[1..] == [];
    } else {
      assert (q + [m])[1..] == q[1..] + [m];
      if Concerns(q[0], n, p) {
        SettlesAppend(if q[0].Subscribe? then Some(q[0].session.generation) else None, q[1..], m, n, p, g, wanted, g', wanted');
      } else {
        SettlesAppend(e, q[1..], m, n, p, g, wanted, g', wanted');
      }
    }
  }

  /** With no subscribe on its way, what is filed now is all that can be left. */
  lemma {:induction false} SettlesLoaded(e: Option<int>, q: seq<RouterMessage>, n: Str, p: Path, g: int, wanted: bool)
    requires Settles(e, q, n, p, g, wanted) && forall m :: m in q && m.Subscribe? ==> m.session.session != n
    ensures Settles(e, q, n, p, g, e.Some?)
    ensures Settles(None, q, n, p, g, false) && Settles(None, q, n, p, g, true)
    decreases |q|
  {
    hide PathsOf;
    if q != [] {
      assert q[0] in q;
      if Concerns(q[0], n, p) {
        SettlesLoaded(None, q[1..], n, p, g, wanted);
      } else {
        SettlesLoaded(e, q[1..], n, p, g, wanted);
      }
    }
  }

  // ----- what the router's steps do to a tag -----

  lemma SubscribeTag(d: Data, t: Path, id: int, s: SessionId, qos: Byte, answer: Byte, p: Path, n: Str)
    ensures var e := SubscribeData(d, t, id, s, qos, answer);
            && (p != t || n != s.session ==> TagAt(e, p, n) == TagAt(d, p, n))
            && (TagAt(d, t, s.session).None? || TagAt(d, t, s.session) == Some(s.generation) ==>
                  TagAt(e, t, s.session) == Some(s.generation))
            && (TagAt(e, p, n) == TagAt(d, p, n) || (p == t && n == s.session && TagAt(e, p, n) == Some(s.generation)))
  {}

  lemma UnsubscribeTag(d: Data, s: SessionId, topics: set<Path>, p: Path, n: Str)
    ensures TagAt(UnsubscribeAll(d, s, topics), p, n) ==
              if p in topics && n == s.session then None else TagAt(d, p, n)
  {}

  lemma RetainTag(d: Data, t: Path, id: int, m: Publish, p: Path, n: Str)
    ensures TagAt(RetainData(d, t, id, m), p, n) == TagAt(d, p, n)
  {}

  lemma DeliveryKeeps(w: World, v: World, n: Str, p: Path)
    requires RouterHandles(w, v)
    ensures v.sessions.Keys == w.sessions.Keys
    ensures GenerationOf(v, n) == GenerationOf(w, n) && Wants(v, n, p) == Wants(w, n, p)
  {}

  lemma RouterSettles(w: World, v: World, n: Str, p: Path)
    requires SettledFor(w, n, p) && RouterHandles(w, v)
    ensures SettledFor(v, n, p)
  {
    hide SubscribeData, RetainData, UnsubscribeAll, PathsOf, TagAt, Delivers, GrantedQos, Wants, GenerationOf;
    DeliveryKeeps(w, v, n, p);
    match w.queue[0] {
      case Subscribe(s, topic, qos) =>
        var id, answer :| GrantedQos(w.index, Split(topic), s, qos, answer) &&
                          v.index == SubscribeData(w.index, Split(topic), id, s, qos, answer);
        SubscribeTag(w.index, Split(topic), id, s, qos, answer, p, n);
      case Unsubscribe(s, topics) =>
        UnsubscribeTag(w.index, s, PathsOf(topics), p, n);
      case ForwardPublish(m) =>
        if v.index != w.index {
          var id :| v.index == RetainData(w.index, Split(m.topic), id, m);
          RetainTag(w.index, Split(m.topic), id, m, p, n);
        }
    }
  }

  // ----- what the sessions' steps do -----

  lemma SubscribeSettles(w: World, v: World, s: Str, topic: Str, qos: Byte, n: Str, p: Path)
    requires SettledFor(w, n, p) && SessionSubscribes(w, v, s, topic, qos)
    ensures SettledFor(v, n, p)
  {
    hide TagAt, Settles;
    assert Wants(v, n, p) <==> Wants(w, n, p) || (n == s && p == Split(topic));
    SettlesAppend(TagAt(w.index, p, n), w.queue, Subscribe(IdOf(w, s), topic, qos), n, p,
                  GenerationOf(w, n), Wants(w, n, p), GenerationOf(v, n), Wants(v, n, p));
  }

  lemma UnsubscribeSettles(w: World, v: World, s: Str, topics: set<Str>, n: Str, p: Path)
    requires SettledFor(w, n, p) && SessionUnsubscribes(w, v, s, topics)
    ensures SettledFor(v, n, p)
  {
    hide TagAt, Settles;
    var m := Unsubscribe(IdOf(w, s), topics);
    assert !Concerns(m, n, p) && Wants(w, n, p) ==> Wants(v, n, p);
    SettlesAppend(TagAt(w.index, p, n), w.queue, m, n, p, GenerationOf(w, n), Wants(w, n, p), GenerationOf(v, n), Wants(v, n, p));
  }

  lemma CleanSettles(w: World, v: World, s: Str, n: Str, p: Path)
    requires SettledFor(w, n, p) && (SessionCleans(w, v, s) || SessionCleanCut(w, v, s))
    ensures SettledFor(v, n, p)
  {
    hide TagAt, Settles;
    var m := Unsubscribe(IdOf(w, s), w.sessions[s].subscriptions);
    assert n == s && Wants(w, n, p) ==> Concerns(m, n, p);
    SettlesAppend(TagAt(w.index, p, n), w.queue, m, n, p, GenerationOf(w, n), Wants(w, n, p), GenerationOf(v, n), Wants(v, n, p));
  }

  lemma RestartSettles(w: World, v: World, s: Str, loaded: set<Str>, n: Str, x: Str)
    requires SettledFor(w, n, Split(x)) && SessionRestarts(w, v, s, loaded)
    ensures SettledFor(v, n, Split(x))
  {
    hide TagAt, Settles;
    var p := Split(x);
    if n == s {
      assert Wants(v, n, p) <==> x in loaded by { WantedPath(loaded, x); }
      SettlesLoaded(TagAt(w.index, p, n), w.queue, n, p, GenerationOf(w, n), Wants(w, n, p));
    }
  }

  lemma WantedPath(topics: set<Str>, x: Str)
    ensures Split(x) in PathsOf(topics) <==> x in topics
  {
    forall y | y in topics && Split(y) == Split(x) ensures y == x {
      SplitInjective(x, y);
    }
  }

  lemma OpenSettles(w: World, v: World, s: Str, id: int, n: Str, p: Path)
    requires SettledFor(w, n, p) && Spoken(w) && SessionOpens(w, v, s, id)
    ensures SettledFor(v, n, p)
  {}

  lemma StepSettles(w: World, v: World, n: Str, x: Str)
    requires SettledFor(w, n, Split(x)) && Spoken(w) && Step(w, v)
    ensures SettledFor(v, n, Split(x))
  {
    hide Settles, SettledFor, Spoken, RouterHandles, SessionSubscribes, SessionUnsubscribes, SessionCleans,
         SessionCleanCut, SessionRestarts, SessionOpens;
    var p := Split(x);
    if s, topic, qos :| SessionSubscribes(w, v, s, topic, qos) {
      SubscribeSettles(w, v, s, topic, qos, n, p);
    } else if s, topics :| SessionUnsubscribes(w, v, s, topics) {
      UnsubscribeSettles(w, v, s, topics, n, p);
    } else if s :| SessionCleans(w, v, s) {
      CleanSettles(w, v, s, n, p);
    } else if s :| SessionCleanCut(w, v, s) {
      CleanSettles(w, v, s, n, p);
    } else if s, loaded :| SessionRestarts(w, v, s, loaded) {
      RestartSettles(w, v, s, loaded, n, x);
    } else if s, id :| SessionOpens(w, v, s, id) {
      OpenSettles(w, v, s, id, n, p);
    } else if RouterHandles(w, v) {
      RouterSettles(w, v, n, p);
    } else {
      OtherSettles(w, v, n, p);
    }
  }

  lemma OtherSettles(w: World, v: World, n: Str, p: Path)
    requires SettledFor(w, n, p)
    requires (exists m :: SessionPublishes(w, v, m)) || (exists s :: SessionReceives(w, v, s))
    ensures SettledFor(v, n, p)
  {
    hide Settles, TagAt, PathsOf;
    if m :| SessionPublishes(w, v, m) {
      SettlesAppend(TagAt(w.index, p, n), w.queue, ForwardPublish(m), n, p, GenerationOf(w, n), Wants(w, n, p),
                    GenerationOf(v, n), Wants(v, n, p));
    }
  }

  /** Nobody speaks for a session that was never opened. */
  ghost predicate Spoken(w: World) {
    forall m :: m in w.queue && !m.ForwardPublish? ==> m.session.session in w.sessions
  }

  lemma StepSpoken(w: World, v: World)
    requires Spoken(w) && Step(w, v)
    ensures Spoken(v)
  {
    hide SubscribeData, RetainData, UnsubscribeAll, PathsOf, TagAt, GrantedQos;
    if RouterHandles(w, v) {
      DeliveryKeeps(w, v, [], []);
    }
  }

  /** At every moment of every run: once the router has worked off its queue, each entry of a session lies
      among its subscriptions and carries its generation, and no subscribe meets an entry of another one. */
  lemma {:induction false} AlwaysSettled(ws: seq<World>, n: Str, x: Str)
    requires Run(ws)
    ensures SettledFor(ws[|ws| - 1], n, Split(x)) && Spoken(ws[|ws| - 1])
    decreases |ws|
  {
    hide Step, SettledFor, Spoken;
    if |ws| == 1 {
      assert SettledFor(ws[0], n, Split(x)) && Spoken(ws[0]) by { InitSettled(ws[0], n, Split(x)); }
    } else {
      var w, v := ws[|ws| - 2], ws[|ws| - 1];
      AlwaysSettled(ws[..|ws| - 1], n, x);
      StepSettles(w, v, n, x);
      StepSpoken(w, v);
    }
  }

  lemma InitSettled(w: World, n: Str, p: Path)
    requires Init(w)
    ensures SettledFor(w, n, p) && Spoken(w)
  {}

  /** A subscribe the router turns to meets no entry from before a clean session: it is never mistaken for the
      repetition of a subscription that is forgotten. */
  lemma SubscribeMeetsOwn(ws: seq<World>, s: SessionId, topic: Str, qos: Byte)
    requires Run(ws)
    requires var q := ws[|ws| - 1].queue; q != [] && q[0] == Subscribe(s, topic, qos)
    ensures var e := TagAt(ws[|ws| - 1].index, Split(topic), s.session); e.Some? ==> e.value == s.generation
  {
    hide Step, Spoken, TagAt, Wants, GenerationOf;
    AlwaysSettled(ws, s.session, topic);
    assert Concerns(ws[|ws| - 1].queue[0], s.session, Split(topic));
  }

  /** When the queue is empty, what is filed is what the session wants, under its generation. */
  lemma QuietIndex(ws: seq<World>, n: Str, x: Str)
    requires Run(ws) && ws[|ws| - 1].queue == []
    ensures var w := ws[|ws| - 1];
            TagAt(w.index, Split(x), n).Some? ==>
              n in w.sessions && x in w.sessions[n].subscriptions && TagAt(w.index, Split(x), n) == Some(w.sessions[n].generation)
  {
    hide Step, Spoken;
    AlwaysSettled(ws, n, x);
    if n in ws[|ws| - 1].sessions {
      WantedPath(ws[|ws| - 1].sessions[n].subscriptions, x);
    }
  }
}
