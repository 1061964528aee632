/** What a restart makes of the index: the same subscriptions and retained messages, read back from the tables. */
module Reload {
  import opened Basics
  import opened Paths
  import opened Matching
  import opened Tables
  import opened BrokerTables
  import opened TopicData

  /** A session id as the tables have it now. */
  function Current(s: SessionId, t: Tables): SessionId {
    if s.internalId in t.sessions then s.(generation := t.sessions[s.internalId].generation) else s
  }

  function RefreshedClients(c: Clients, t: Tables): Clients {
    map n | n in c :: TopicEntry(Current(c[n].session, t), c[n].qos)
  }

  /** Generations are those of the session rows; of a retained message only topic, QoS and payload come back. */
  function Refreshed(n: NodeData, t: Tables): NodeData {
    NodeData(n.id, RefreshedClients(n.clients, t), if n.message.Some? then Some(FromRow(RowOf(n.message.value))) else None)
  }

  /** `e` holds what `d` holds in nodes with a topic row; all other nodes are blank. */
  ghost predicate Reloaded(d: Data, t: Tables, e: Data) {
    && (forall p :: HasRow(d, p) ==> p in e && e[p] == Refreshed(d[p], t))
    && (forall p :: p in e && !HasRow(d, p) ==> e[p] == BLANK)
  }

  lemma RefreshedUsed(n: NodeData, t: Tables)
    ensures Used(Refreshed(n, t)) <==> Used(n)
  {}

  /** A reloaded index is in order with respect to the tables. */
  lemma ReloadSound(d: Data, t: Tables, x: set<Path>, e: Data)
    requires Sound(d, t, x) && Reloaded(d, t, e)
    ensures Sound(e, t, x)
  {
    hide Split, Refreshed, Owned, RowBacked, EntryBacked, MessageBacked;
    forall p | p in e && p !in x ensures e[p].id.Some? <==> Used(e[p]) {
      if HasRow(d, p) {
        RefreshedUsed(d[p], t);
        RefreshedId(d[p], t);
      }
    }
    forall p | HasRow(d, p) ensures p in e && e[p].id == d[p].id {
      RefreshedId(d[p], t);
    }
    assert IdsAgree(e, t);
    forall r | r in t.subscriptions ensures RowBacked(e, t, r) {
      ReloadRow(d, t, e, r);
    }
    forall q, n | q in e && n in e[q].clients ensures EntryBacked(e, t, q, n) {
      ReloadEntry(d, t, e, q, n);
    }
    forall q | q in e ensures MessageBacked(e[q], q, t) {
      ReloadMessage(d, t, e, q);
    }
  }

  lemma RefreshedId(n: NodeData, t: Tables)
    ensures Refreshed(n, t).id == n.id
  {}

  lemma ReloadRow(d: Data, t: Tables, e: Data, r: int)
    requires Agree(d, t) && Reloaded(d, t, e) && r in t.subscriptions
    ensures RowBacked(e, t, r)
  {}

  lemma ReloadEntry(d: Data, t: Tables, e: Data, q: Path, n: Str)
    requires Agree(d, t) && Reloaded(d, t, e) && q in e && n in e[q].clients
    ensures EntryBacked(e, t, q, n)
  {}

  lemma ReloadMessage(d: Data, t: Tables, e: Data, q: Path)
    requires Agree(d, t) && Reloaded(d, t, e) && q in e
    ensures MessageBacked(e[q], q, t)
  {}

  /** The clients of every node are those of before under the generations of their session rows. */
  lemma ReloadClients(d: Data, t: Tables, e: Data, p: Path)
    requires Agree(d, t) && Reloaded(d, t, e)
    ensures ClientsAt(ClientMap(e), p) == RefreshedClients(ClientsAt(ClientMap(d), p), t)
  {
    if p in d && d[p].clients != map[] {
      var n :| n in d[p].clients;
      assert EntryBacked(d, t, p, n);
    }
  }

  /** Filter by filter the same sessions are filed, under the generations of their rows and with the QoS they had. */
  lemma ReloadEntries(d: Data, t: Tables, e: Data, p: Path)
    requires Agree(d, t) && Reloaded(d, t, e)
    ensures var c, c' := ClientsAt(ClientMap(d), p), ClientsAt(ClientMap(e), p);
            && c'.Keys == c.Keys
            && forall n :: n in c ==>
                 var x, y := c[n].session, c'[n].session;
                 && c'[n].qos == c[n].qos && y.session == x.session && y.internalId == x.internalId
                 && x.internalId in t.sessions && y.generation == t.sessions[x.internalId].generation
  {
    ReloadClients(d, t, e, p);
    forall n | p in d && n in d[p].clients ensures d[p].clients[n].session.internalId in t.sessions {
      assert EntryBacked(d, t, p, n);
    }
  }

  /** The same topics keep a message, with its topic, payload and QoS. */
  lemma ReloadRetained(d: Data, t: Tables, e: Data, p: Path)
    requires Agree(d, t) && Reloaded(d, t, e)
    ensures p in e && e[p].message.Some? <==> p in d && d[p].message.Some?
    ensures p in d && d[p].message.Some? ==>
              var x, y := d[p].message.value, e[p].message.value;
              y.topic == x.topic && y.message == x.message && y.qos == x.qos
  {
    assert p in d ==> MessageBacked(d[p], p, t);
  }

  /** A session reaches a topic through the same filters, under its present generation. */
  lemma StillReaches(d: Data, t: Tables, e: Data, topic: Path, f: Path, sid: SessionId)
    requires Agree(d, t) && Reloaded(d, t, e) && Reaches(ClientMap(d), topic, sid, f)
    ensures Reaches(ClientMap(e), topic, Current(sid, t), f)
  {
    hide Matches;
    ReloadClients(d, t, e, f);
  }

  lemma ReachedBefore(d: Data, t: Tables, e: Data, topic: Path, f: Path, sid: SessionId) returns (was: SessionId)
    requires Agree(d, t) && Reloaded(d, t, e) && Reaches(ClientMap(e), topic, sid, f)
    ensures Reaches(ClientMap(d), topic, was, f) && Current(was, t) == sid
  {
    hide Matches;
    ReloadClients(d, t, e, f);
    AgreeKeyed(d, t);
    was := ClientsAt(ClientMap(d), f)[sid.session].session;
  }

  /** Every topic is answered by the same sessions as before the restart, each under its present generation and
      with the QoS of the most specific of its filters. */
  lemma ReloadSessions(d: Data, t: Tables, x: set<Path>, e: Data, topic: Path)
    requires Sound(d, t, x) && Reloaded(d, t, e)
    requires PrefixClosed(d.Keys) && PrefixClosed(e.Keys) && Plain(topic) && topic != []
    ensures var c, c' := ClientMap(d), ClientMap(e);
            && AllKeyed(c) && AllKeyed(c') && Within(c, Hits(c.Keys, topic)) && Within(c', Hits(c'.Keys, topic))
            && IsAnswer(c', topic, Collect(c', Hits(c'.Keys, topic)))
            && Collect(c', Hits(c'.Keys, topic)).Keys == set s | s in Collect(c, Hits(c.Keys, topic)) :: Current(s, t)
  {
    hide Agree, Owned, Hits, Collect, Within, AllKeyed, PrefixClosed, Plain, Reloaded, Reaches, Decides, HitsBefore,
         Matches;
    var c, c' := ClientMap(d), ClientMap(e);
    assert Agree(d, t) && Agree(e, t) by { ReloadSound(d, t, x, e); }
    AgreeKeyed(d, t);
    AgreeKeyed(e, t);
    ClientMapKeys(d);
    ClientMapKeys(e);
    hide ClientMap, Sound;
    LookupCorrect(c, topic);
    LookupCorrect(c', topic);
    var a, b := Collect(c, Hits(c.Keys, topic)), Collect(c', Hits(c'.Keys, topic));
    hide IsAnswer, Current;
    forall sid ensures sid in b <==> exists s :: s in a && Current(s, t) == sid {
      StillAnswered(d, t, e, topic, a, b, sid);
    }
  }

  lemma StillAnswered(d: Data, t: Tables, e: Data, topic: Path, a: map<SessionId, Byte>, b: map<SessionId, Byte>, sid: SessionId)
    requires Agree(d, t) && Reloaded(d, t, e) && IsAnswer(ClientMap(d), topic, a) && IsAnswer(ClientMap(e), topic, b)
    ensures sid in b <==> exists s :: s in a && Current(s, t) == sid
  {
    var c, c' := ClientMap(d), ClientMap(e);
    hide Agree, Reloaded, Reaches, IsAnswer, ClientMap, Current;
    InAnswer(c', topic, b, sid);
    if sid in b {
      var f :| Reaches(c', topic, sid, f);
      var was := ReachedBefore(d, t, e, topic, f, sid);
      InAnswer(c, topic, a, was);
    }
    forall s | s in a && Current(s, t) == sid ensures sid in b {
      InAnswer(c, topic, a, s);
      var f :| Reaches(c, topic, s, f);
      StillReaches(d, t, e, topic, f, s);
    }
  }

  lemma InAnswer(c: map<Path, Clients>, topic: Path, r: map<SessionId, Byte>, sid: SessionId)
    requires IsAnswer(c, topic, r)
    ensures sid in r <==> exists f :: Reaches(c, topic, sid, f)
  {}

  /** Every entry carries the generation of its session row. */
  ghost predicate AllCurrent(d: Data, t: Tables) {
    forall p, n :: p in d && n in d[p].clients ==> d[p].clients[n].session == Current(d[p].clients[n].session, t)
  }

  /** The answer is the very same when all entries were of the current generation. */
  lemma ReloadLookup(d: Data, t: Tables, x: set<Path>, e: Data, topic: Path)
    requires Sound(d, t, x) && AllCurrent(d, t) && Reloaded(d, t, e)
    requires PrefixClosed(d.Keys) && PrefixClosed(e.Keys) && Plain(topic) && topic != []
    ensures var c, c' := ClientMap(d), ClientMap(e);
            && AllKeyed(c) && AllKeyed(c') && Within(c, Hits(c.Keys, topic)) && Within(c', Hits(c'.Keys, topic))
            && Collect(c, Hits(c.Keys, topic)) == Collect(c', Hits(c'.Keys, topic))
  {
    hide Agree, Owned, Hits, Collect, Within, IsAnswer, AllKeyed, PrefixClosed, Plain, Reloaded;
    var c, c' := ClientMap(d), ClientMap(e);
    assert Agree(d, t) && Agree(e, t) by { ReloadSound(d, t, x, e); }
    AgreeKeyed(d, t);
    AgreeKeyed(e, t);
    assert c.Keys == d.Keys && c'.Keys == e.Keys;
    LookupCorrect(c, topic);
    LookupCorrect(c', topic);
    forall p ensures ClientsAt(c, p) == ClientsAt(c', p) {
      ReloadClients(d, t, e, p);
      assert p in d ==> RefreshedClients(d[p].clients, t) == d[p].clients;
    }
    AnswerUnique(c, c', topic, Collect(c, Hits(c.Keys, topic)), Collect(c', Hits(c'.Keys, topic)));
  }

  /** Rows of distinct topics may come in any order. */
  lemma InsertsCommute(d: Data, p: Path, a: NodeData, q: Path, b: NodeData)
    requires p != q
    ensures Inserted(Inserted(d, p, a), q, b) == Inserted(Inserted(d, q, b), p, a)
  {
    hide Prefixes;
    PrefixSelf(p);
    PrefixSelf(q);
  }

  lemma PrefixSelf(p: Path)
    ensures p in Prefixes(p, |p|)
  {
    assert p[..|p|] == p;
  }

  /** What `insert_topic` makes of the index: the node takes the new contents and keeps its children. */
  function Inserted(d: Data, p: Path, n: NodeData): Data {
    Extend(d, p, |p|)[p := n]
  }

  // ----- progress of the reload -----

  /** The nodes of the topic rows in `done` are in place, all others are blank. */
  ghost predicate Loaded(d: Data, t: Tables, e: Data, done: set<int>) {
    && (forall p :: p in d && d[p].id.Some? && d[p].id.value in done ==> p in e && e[p] == Refreshed(d[p], t))
    && (forall p :: p in e && !(p in d && d[p].id.Some? && d[p].id.value in done) ==> e[p] == BLANK)
  }

  lemma LoadStep(d: Data, t: Tables, e: Data, done: set<int>, i: int, p: Path)
    requires Agree(d, t) && Loaded(d, t, e, done) && i in t.topics && i !in done && p == Split(t.topics[i].topic)
    ensures p in d && d[p].id == Some(i)
    ensures Loaded(d, t, Inserted(e, p, Refreshed(d[p], t)), done + {i})
    ensures p in e ==> e[p] == BLANK
  {}

  lemma LoadEnd(d: Data, t: Tables, e: Data, rows: seq<int>)
    requires Agree(d, t) && IsListing(rows, t.topics.Keys) && Loaded(d, t, e, Set(rows))
    ensures Reloaded(d, t, e)
  {
    assert Set(rows) == t.topics.Keys;
  }

  lemma PairCount(p: Path, c: set<Str>)
    ensures |set n | n in c :: (p, n)| == |c|
  {
    var img := set n | n in c :: (p, n);
    if c == {} {
      assert img == {};
    } else {
      var x :| x in c;
      PairCount(p, c - {x});
      assert img == (set n | n in c - {x} :: (p, n)) + {(p, x)};
    }
  }

  lemma InsertCounts(e: Data, p: Path, n: NodeData)
    requires p in e ==> e[p] == BLANK
    ensures |Entries(Inserted(e, p, n))| == |Entries(e)| + |n.clients|
    ensures |Holding(Inserted(e, p, n))| == |Holding(e)| + if n.message.Some? then 1 else 0
  {
    var x := Extend(e, p, |p|);
    hide Entries, Holding;
    PrefixSelf(p);
    ExtendCounts(e, p);
    PutEntries(x, p, n);
    PutHolding(x, p, n);
  }

  lemma PutEntries(x: Data, p: Path, n: NodeData)
    requires p in x && x[p] == BLANK
    ensures |Entries(x[p := n])| == |Entries(x)| + |n.clients|
  {
    var img := set k | k in n.clients.Keys :: (p, k);
    PairCount(p, n.clients.Keys);
    assert Entries(x) !! img;
    var y := x[p := n];
    forall q, k ensures (q, k) in Entries(y) <==> (q, k) in Entries(x) + img {
      assert (q, k) in Entries(y) <==> q in y && k in y[q].clients;
      assert (q, k) in Entries(x) <==> q in x && k in x[q].clients;
    }
    assert Entries(y) == Entries(x) + img;
  }

  lemma PutHolding(x: Data, p: Path, n: NodeData)
    requires p in x && x[p] == BLANK
    ensures |Holding(x[p := n])| == |Holding(x)| + if n.message.Some? then 1 else 0
  {
    assert Holding(x[p := n]) == if n.message.Some? then Holding(x) + {p} else Holding(x);
  }

  lemma ExtendCounts(e: Data, p: Path)
    ensures SameCounts(e, Extend(e, p, |p|))
  {}

  // ----- the clients of one topic -----

  /** The entry a subscription row stands for. */
  function EntryOf(t: Tables, r: int): TopicEntry
    requires r in t.subscriptions && t.subscriptions[r].session in t.sessions
  {
    var row := t.subscriptions[r];
    TopicEntry(SessionId(t.sessions[row.session].name, row.session, t.sessions[row.session].generation), row.qos)
  }

  /** The rows read so far and the clients they made. */
  ghost predicate ClientsOf(t: Tables, rows: seq<int>, c: Clients)
    requires forall i :: 0 <= i < |rows| ==> rows[i] in t.subscriptions && t.subscriptions[rows[i]].session in t.sessions
  {
    && |c| == |rows|
    && (forall i :: 0 <= i < |rows| ==>
          var e := EntryOf(t, rows[i]); e.session.session in c && c[e.session.session] == e)
    && (forall n :: n in c ==> exists i :: 0 <= i < |rows| && EntryOf(t, rows[i]).session.session == n)
  }

  /** All rows of a topic make the clients of its node. */
  lemma RowsMakeClients(d: Data, t: Tables, p: Path, rows: seq<int>, c: Clients)
    requires Agree(d, t) && p in d && d[p].id.Some?
    requires IsListing(rows, JoinedRows(t, d[p].id.value))
    requires forall i :: 0 <= i < |rows| ==> rows[i] in JoinedRows(t, d[p].id.value)
    requires ClientsOf(t, rows, c)
    ensures c == RefreshedClients(d[p].clients, t)
  {
    var w := RefreshedClients(d[p].clients, t);
    hide Agree, Split, EntryOf, IsListing, JoinedRows;
    forall n | n in c ensures n in w && c[n] == w[n] {
      var i :| 0 <= i < |rows| && EntryOf(t, rows[i]).session.session == n;
      RowMakesClient(d, t, p, rows[i]);
    }
    forall n | n in w ensures n in c {
      var r := RowOfClient(d, t, p, n);
      assert r in rows by { Lists(rows, JoinedRows(t, d[p].id.value), r); }
      var i :| 0 <= i < |rows| && rows[i] == r;
      assert EntryOf(t, rows[i]).session.session == n;
    }
  }

  lemma Lists(rows: seq<int>, s: set<int>, r: int)
    requires IsListing(rows, s) && r in s
    ensures r in rows
  {}

  lemma RowMakesClient(d: Data, t: Tables, p: Path, r: int)
    requires Agree(d, t) && p in d && d[p].id.Some? && r in JoinedRows(t, d[p].id.value)
    ensures var e, w := EntryOf(t, r), RefreshedClients(d[p].clients, t);
            e.session.session in w && w[e.session.session] == e
  {
    assert RowBacked(d, t, r);
  }

  lemma RowOfClient(d: Data, t: Tables, p: Path, n: Str) returns (r: int)
    requires Agree(d, t) && p in d && d[p].id.Some? && n in d[p].clients
    ensures r in JoinedRows(t, d[p].id.value) && EntryOf(t, r).session.session == n
  {
    assert EntryBacked(d, t, p, n);
    var x := d[p].clients[n];
    r :| RowIs(t, r, x.session.internalId, d[p].id.value, x.qos);
  }

  lemma NoClients(t: Tables)
    ensures ClientsOf(t, [], map[])
  {}

  lemma RowNamesDiffer(d: Data, t: Tables, topic: int, r: int, s: int)
    requires Agree(d, t) && r in JoinedRows(t, topic) && s in JoinedRows(t, topic) && r != s
    ensures EntryOf(t, r).session.session != EntryOf(t, s).session.session
  {}

  lemma MessageOf(d: Data, t: Tables, p: Path)
    requires Agree(d, t) && HasRow(d, p)
    ensures d[p].id.value in t.topics
    ensures t.topics[d[p].id.value].retained.Some? <==> d[p].message.Some?
    ensures d[p].message.None? ==> Refreshed(d[p], t).message == None
    ensures d[p].message.Some? ==>
              var k := t.topics[d[p].id.value].retained.value;
              k in t.messages && Refreshed(d[p], t).message == Some(FromRow(t.messages[k]))
  {}

  function Set(rows: seq<int>): set<int> {
    set i | 0 <= i < |rows| :: rows[i]
  }

  lemma LoadNone(d: Data, t: Tables)
    requires Agree(d, t)
    ensures Loaded(d, t, map[[] := BLANK], Set([]))
    ensures Entries(map[[] := BLANK]) == {} && Holding(map[[] := BLANK]) == {}
  {}

  lemma NextRow(t: Tables, rows: seq<int>, k: nat)
    requires IsListing(rows, t.topics.Keys) && k < |rows|
    ensures rows[k] in t.topics && rows[k] !in Set(rows[..k])
    ensures Set(rows[..k + 1]) == Set(rows[..k]) + {rows[k]}
  {}

  lemma {:induction false} Listed(rows: seq<int>, s: set<int>)
    requires IsListing(rows, s)
    ensures forall i :: 0 <= i < |rows| ==> rows[i] in s
  {}

  lemma NextClient(d: Data, t: Tables, topic: int, rows: seq<int>, k: nat, c: Clients)
    requires Agree(d, t) && IsListing(rows, JoinedRows(t, topic)) && k < |rows|
    requires forall i :: 0 <= i < |rows| ==> rows[i] in JoinedRows(t, topic)
    requires ClientsOf(t, rows[..k], c)
    ensures var e := EntryOf(t, rows[k]); ClientsOf(t, rows[..k + 1], c[e.session.session := e])
  {
    hide Agree, EntryOf, ClientsOf;
    forall i | 0 <= i < k ensures EntryOf(t, rows[i]).session.session != EntryOf(t, rows[k]).session.session {
      RowNamesDiffer(d, t, topic, rows[i], rows[k]);
    }
    AddClient(t, rows, k, c);
  }

  lemma AddClient(t: Tables, rows: seq<int>, k: nat, c: Clients)
    requires k < |rows|
    requires forall i :: 0 <= i < |rows| ==> rows[i] in t.subscriptions && t.subscriptions[rows[i]].session in t.sessions
    requires forall i :: 0 <= i < k ==> EntryOf(t, rows[i]).session.session != EntryOf(t, rows[k]).session.session
    requires ClientsOf(t, rows[..k], c)
    ensures var e := EntryOf(t, rows[k]); ClientsOf(t, rows[..k + 1], c[e.session.session := e])
  {
    hide EntryOf;
    var e, next := EntryOf(t, rows[k]), rows[..k + 1];
    var c' := c[e.session.session := e];
    assert forall i :: 0 <= i < k ==> next[i] == rows[..k][i];
    assert e.session.session !in c;
    forall n | n in c' ensures exists i :: 0 <= i < k + 1 && EntryOf(t, next[i]).session.session == n {
      if n == e.session.session {
        assert EntryOf(t, next[k]).session.session == n;
      } else {
        var i :| 0 <= i < k && EntryOf(t, rows[..k][i]).session.session == n;
        assert EntryOf(t, next[i]).session.session == n;
      }
    }
  }
}
