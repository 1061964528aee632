/** Where an accepted delivery comes from: a subscription made since the last clean session. */
module Deliveries {
  import opened Basics
  import opened Paths
  import opened Matching
  import opened TopicData
  import opened Generations

  /** The clean sessions of `n` so far. */
  function Cleans(log: seq<Event>, n: Str): nat {
    if log == [] then 0
    else Cleans(log[..|log| - 1], n) + if log[|log| - 1] == Cleaned(n) then 1 else 0
  }

  /** Session `n` subscribed to `p` while its generation was `g`. */
  ghost predicate Made(log: seq<Event>, n: Str, p: Path, g: int) {
    exists i :: MadeAt(log, n, p, g, i)
  }

  ghost predicate MadeAt(log: seq<Event>, n: Str, p: Path, g: int, i: int) {
    0 <= i < |log| && log[i] == Subscribed(n, p) && Cleans(log[..i], n) == g
  }

  /** The delivery accepted at `k` goes back to the subscribe at `i`, with no clean session between. */
  ghost predicate Behind(log: seq<Event>, i: int, k: int) {
    0 <= i < k < |log| && log[k].Accepted? && log[i] == Subscribed(log[k].session, log[k].filter) &&
    forall j :: i < j < k ==> log[j] != Cleaned(log[k].session)
  }

  ghost predicate Honest(log: seq<Event>) {
    forall k :: 0 <= k < |log| && log[k].Accepted? ==> exists i :: Behind(log, i, k)
  }

  /** Every tag under way was the generation of its session when that session subscribed. */
  ghost predicate Traced(w: World) {
    && (forall n :: GenerationOf(w, n) == Cleans(w.log, n))
    && (forall p, n :: TagAt(w.index, p, n).Some? ==> Made(w.log, n, p, TagAt(w.index, p, n).value))
    && (forall i :: 0 <= i < |w.queue| ==> TracedMessage(w.log, w.queue[i]))
    && (forall n :: n in w.sessions ==> TracedInbox(w.log, n, w.sessions[n].inbox))
  }

  ghost predicate TracedMessage(log: seq<Event>, m: RouterMessage) {
    m.Subscribe? ==> Made(log, m.session.session, Split(m.topic), m.session.generation)
  }

  ghost predicate TracedInbox(log: seq<Event>, n: Str, inbox: seq<Delivery>) {
    forall i :: 0 <= i < |inbox| ==> Made(log, n, inbox[i].via, inbox[i].session.generation)
  }

  // ----- growing logs -----

  lemma MadeGrows(log: seq<Event>, e: Event, n: Str, p: Path, g: int)
    requires Made(log, n, p, g)
    ensures Made(log + [e], n, p, g)
  {
    var i :| MadeAt(log, n, p, g, i);
    assert (log + [e])[..i] == log[..i];
    assert MadeAt(log + [e], n, p, g, i);
  }

  lemma MadeNow(log: seq<Event>, n: Str, p: Path)
    ensures Made(log + [Subscribed(n, p)], n, p, Cleans(log, n))
  {
    var l := log + [Subscribed(n, p)];
    assert l[..|log|] == log;
    assert MadeAt(l, n, p, Cleans(log, n), |log|);
  }

  lemma CleansGrow(log: seq<Event>, e: Event, n: Str)
    ensures Cleans(log + [e], n) == Cleans(log, n) + if e == Cleaned(n) then 1 else 0
  {}

  lemma {:induction false} CleansMonotone(log: seq<Event>, n: Str, i: nat)
    requires i <= |log|
    ensures Cleans(log[..i], n) <= Cleans(log, n)
    ensures Cleans(log[..i], n) == Cleans(log, n) ==> forall j :: i <= j < |log| ==> log[j] != Cleaned(n)
    decreases |log|
  {
    if i == |log| {
      assert log[..i] == log;
    } else {
      var init := log[..|log| - 1];
      CleansMonotone(init, n, i);
      assert init[..i] == log[..i];
      assert forall j :: i <= j < |init| ==> log[j] == init[j];
    }
  }

  lemma HonestAccept(log: seq<Event>, n: Str, p: Path)
    requires Honest(log) && Made(log, n, p, Cleans(log, n))
    ensures Honest(log + [Accepted(n, p)])
  {
    var l := log + [Accepted(n, p)];
    var i :| MadeAt(log, n, p, Cleans(log, n), i);
    CleansMonotone(log, n, i);
    assert Behind(l, i, |log|);
    HonestGrows(log, Accepted(n, p));
  }

  lemma HonestGrows(log: seq<Event>, e: Event)
    requires Honest(log)
    ensures forall k :: 0 <= k < |log| && log[k].Accepted? ==> exists i :: Behind(log + [e], i, k)
  {
    forall k | 0 <= k < |log| && log[k].Accepted? ensures exists i :: Behind(log + [e], i, k) {
      var i :| Behind(log, i, k);
      assert Behind(log + [e], i, k);
    }
  }

  lemma TracedGrows(w: World, e: Event)
    requires Traced(w)
    ensures forall p, n :: TagAt(w.index, p, n).Some? ==> Made(w.log + [e], n, p, TagAt(w.index, p, n).value)
    ensures forall i :: 0 <= i < |w.queue| ==> TracedMessage(w.log + [e], w.queue[i])
    ensures forall n :: n in w.sessions ==> TracedInbox(w.log + [e], n, w.sessions[n].inbox)
  {
    hide Made, TagAt, GenerationOf, Split;
    forall p, n | TagAt(w.index, p, n).Some? ensures Made(w.log + [e], n, p, TagAt(w.index, p, n).value) {
      MadeGrows(w.log, e, n, p, TagAt(w.index, p, n).value);
    }
    forall i | 0 <= i < |w.queue| ensures TracedMessage(w.log + [e], w.queue[i]) {
      var m := w.queue[i];
      if m.Subscribe? {
        assert TracedMessage(w.log, m);
        MadeGrows(w.log, e, m.session.session, Split(m.topic), m.session.generation);
      }
    }
    forall n | n in w.sessions ensures TracedInbox(w.log + [e], n, w.sessions[n].inbox) {
      var inbox := w.sessions[n].inbox;
      assert TracedInbox(w.log, n, inbox);
      forall i | 0 <= i < |inbox| ensures Made(w.log + [e], n, inbox[i].via, inbox[i].session.generation) {
        MadeGrows(w.log, e, n, inbox[i].via, inbox[i].session.generation);
      }
    }
  }

  // ----- the steps -----

  lemma SubscribeTraced(w: World, v: World, s: Str, topic: Str, qos: Byte)
    requires Traced(w) && SessionSubscribes(w, v, s, topic, qos)
    ensures Traced(v)
  {
    hide Made, TagAt, Split, Cleans, TracedInbox;
    var e := Subscribed(s, Split(topic));
    TracedGrows(w, e);
    MadeNow(w.log, s, Split(topic));
    forall n ensures GenerationOf(v, n) == Cleans(v.log, n) {
      assert GenerationOf(w, n) == Cleans(w.log, n);
      CleansGrow(w.log, e, n);
    }
    assert GenerationOf(w, s) == Cleans(w.log, s);
    assert TracedMessage(v.log, Subscribe(IdOf(w, s), topic, qos));
    forall i | 0 <= i < |v.queue| ensures TracedMessage(v.log, v.queue[i]) {}
  }

  lemma CleanTraced(w: World, v: World, s: Str)
    requires Traced(w) && SessionCleans(w, v, s)
    ensures Traced(v)
  {
    hide Made, TagAt, Split, Cleans, TracedInbox;
    TracedGrows(w, Cleaned(s));
    forall n ensures GenerationOf(v, n) == Cleans(v.log, n) {
      assert GenerationOf(w, n) == Cleans(w.log, n);
      CleansGrow(w.log, Cleaned(s), n);
    }
    forall i | 0 <= i < |v.queue| ensures TracedMessage(v.log, v.queue[i]) {}
  }

  lemma ReceiveTraced(w: World, v: World, s: Str)
    requires Traced(w) && Honest(w.log) && SessionReceives(w, v, s)
    ensures Traced(v) && Honest(v.log)
  {
    hide Made, TagAt, Split, Cleans;
    var d := w.sessions[s].inbox[0];
    assert TracedInbox(w.log, s, w.sessions[s].inbox);
    assert GenerationOf(w, s) == Cleans(w.log, s);
    if d.session.generation == w.sessions[s].generation {
      TracedGrows(w, Accepted(s, d.via));
      HonestAccept(w.log, s, d.via);
      forall n ensures GenerationOf(v, n) == Cleans(v.log, n) {
        assert GenerationOf(w, n) == Cleans(w.log, n);
        CleansGrow(w.log, Accepted(s, d.via), n);
      }
    } else {
      forall n ensures GenerationOf(v, n) == Cleans(v.log, n) {
        assert GenerationOf(w, n) == Cleans(w.log, n);
      }
    }
  }

  /** Steps that leave the log alone and only drop messages, deliveries and tags, or send no subscribe. */
  lemma QuietTraced(w: World, v: World)
    requires Traced(w) && v.log == w.log && v.index == w.index
    requires forall n :: GenerationOf(v, n) == GenerationOf(w, n)
    requires v.queue == w.queue || (|v.queue| == |w.queue| + 1 && v.queue[..|w.queue|] == w.queue && !v.queue[|w.queue|].Subscribe?)
    requires forall n :: n in v.sessions ==> v.sessions[n].inbox == [] || (n in w.sessions && v.sessions[n].inbox == w.sessions[n].inbox)
    ensures Traced(v)
  {}

  lemma RouterTraced(w: World, v: World)
    requires Traced(w) && RouterHandles(w, v)
    ensures Traced(v)
  {
    hide Made, TagAt, Cleans, SubscribeData, RetainData, UnsubscribeAll, GrantedQos, GenerationOf;
    forall n ensures GenerationOf(v, n) == Cleans(v.log, n) {
      DeliveryKeeps(w, v, n, []);
      assert GenerationOf(w, n) == Cleans(w.log, n);
    }
    forall p, n | TagAt(v.index, p, n).Some? ensures Made(v.log, n, p, TagAt(v.index, p, n).value) {
      RouterTag(w, v, p, n);
    }
    forall i | 0 <= i < |v.queue| ensures TracedMessage(v.log, v.queue[i]) {
      assert v.queue[i] == w.queue[i + 1];
    }
    forall n | n in v.sessions ensures TracedInbox(v.log, n, v.sessions[n].inbox) {
      RouterInbox(w, v, n);
    }
  }

  lemma RouterTag(w: World, v: World, p: Path, n: Str)
    requires Traced(w) && RouterHandles(w, v) && TagAt(v.index, p, n).Some?
    ensures Made(v.log, n, p, TagAt(v.index, p, n).value)
  {
    hide Made, TagAt, Cleans, SubscribeData, RetainData, UnsubscribeAll, GrantedQos, GenerationOf, Delivers, PathsOf,
         Split;
    assert TracedMessage(w.log, w.queue[0]);
    match w.queue[0] {
      case Subscribe(s, topic, qos) =>
        var id, answer :| GrantedQos(w.index, Split(topic), s, qos, answer) &&
                          v.index == SubscribeData(w.index, Split(topic), id, s, qos, answer);
        SubscribeTag(w.index, Split(topic), id, s, qos, answer, p, n);
      case Unsubscribe(s, topics) =>
        UnsubscribeTag(w.index, s, PathsOf(topics), p, n);
      case ForwardPublish(m) =>
        if v.index != w.index {
          var id :| v.index == RetainData(w.index, Split(m.topic), id, m);
          RetainTag(w.index, Split(m.topic), id, m, p, n);
        }
    }
  }

  lemma RouterInbox(w: World, v: World, n: Str)
    requires Traced(w) && RouterHandles(w, v) && n in v.sessions
    ensures TracedInbox(v.log, n, v.sessions[n].inbox)
  {
    hide Made, Cleans, SubscribeData, RetainData, UnsubscribeAll, GrantedQos, GenerationOf, PathsOf, Split;
    DeliveryKeeps(w, v, n, []);
    assert TracedInbox(w.log, n, w.sessions[n].inbox);
    if w.queue[0].ForwardPublish? {
      var m := w.queue[0].message;
      assert DeliversTo(v.index, n, m, w.sessions[n], v.sessions[n]);
      var xs: seq<Delivery> :| v.sessions[n] == w.sessions[n].(inbox := w.sessions[n].inbox + xs) && RoutedAll(v.index, n, m, xs);
      forall i | 0 <= i < |xs| ensures Made(v.log, n, xs[i].via, xs[i].session.generation) {
        assert Routed(v.index, n, m, xs[i]);
        RouterTag(w, v, xs[i].via, n);
      }
    }
  }

  lemma StepTraced(w: World, v: World)
    requires Traced(w) && Honest(w.log) && Step(w, v)
    ensures Traced(v) && Honest(v.log)
  {
    hide Traced, RouterHandles, TagAt;
    if s, topic, qos :| SessionSubscribes(w, v, s, topic, qos) {
      SubscribeTraced(w, v, s, topic, qos);
      HonestGrows(w.log, Subscribed(s, Split(topic)));
    } else if s :| SessionCleans(w, v, s) {
      CleanTraced(w, v, s);
      HonestGrows(w.log, Cleaned(s));
    } else if s :| SessionReceives(w, v, s) {
      ReceiveTraced(w, v, s);
    } else if RouterHandles(w, v) {
      RouterTraced(w, v);
      RouterLog(w, v);
    } else {
      assert forall n :: GenerationOf(v, n) == GenerationOf(w, n);
      QuietTraced(w, v);
    }
  }

  lemma RouterLog(w: World, v: World)
    requires RouterHandles(w, v)
    ensures v.log == w.log
  {}

  /** In every run, a delivery a session accepts stems from a subscribe of that session to the filter it came
      through, and between the two there is no clean session. */
  lemma {:induction false} AcceptedSinceClean(ws: seq<World>)
    requires Run(ws)
    ensures Traced(ws[|ws| - 1]) && Honest(ws[|ws| - 1].log)
    decreases |ws|
  {
    hide Step, Traced, Honest;
    if |ws| == 1 {
      InitTraced(ws[0]);
    } else {
      AcceptedSinceClean(ws[..|ws| - 1]);
      StepTraced(ws[|ws| - 2], ws[|ws| - 1]);
    }
  }

  lemma InitTraced(w: World)
    requires Init(w)
    ensures Traced(w) && Honest(w.log)
  {}
}
