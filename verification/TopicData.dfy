/** The index seen as a flat map from topic paths to what is filed there, and how it mirrors the tables. */
module TopicData {
  import opened Basics
  import opened Paths
  import opened Matching
  import opened Tables
  import opened BrokerTables

  datatype NodeData = NodeData(id: Option<int>, clients: Clients, message: Option<Publish>)

  type Data = map<Path, NodeData>

  const BLANK := NodeData(None, map[], None)

  function ClientMap(d: Data): map<Path, Clients> {
    map p | p in d :: d[p].clients
  }

  function Prefixes(t: Path, k: nat): set<Path>
    requires k <= |t|
  {
    set i | 0 <= i <= k :: t[..i]
  }

  /** `d` with blank nodes for the first `k` prefixes of `t` that it lacks. */
  function Extend(d: Data, t: Path, k: nat): Data
    requires k <= |t|
  {
    map p | p in d.Keys + Prefixes(t, k) :: if p in d then d[p] else BLANK
  }

  /** A node has a topic row exactly while it holds a client or a retained message. */
  predicate Used(n: NodeData) {
    n.clients != map[] || n.message.Some?
  }

  /** `get_topic` finds a node that already has a topic row. */
  predicate HasRow(d: Data, p: Path) {
    p in d && d[p].id.Some?
  }

  /** `e` names the nodes for which this is not yet asked. */
  ghost predicate IdExact(d: Data, e: set<Path>) {
    forall p :: p in d && p !in e ==> (d[p].id.Some? <==> Used(d[p]))
  }

  /** The nodes whose row says nothing about their use. */
  ghost function Unused(d: Data): (e: set<Path>)
    ensures IdExact(d, e)
    ensures IdExact(d, {}) ==> e == {}
  {
    set p | p in d && (d[p].id.Some? != Used(d[p]))
  }

  // ----- agreement with the tables -----

  ghost predicate IdsAgree(d: Data, t: Tables) {
    && (forall p :: p in d && d[p].id.Some? ==>
          d[p].id.value in t.topics && Split(t.topics[d[p].id.value].topic) == p)
    && (forall i :: i in t.topics ==> Split(t.topics[i].topic) in d && d[Split(t.topics[i].topic)].id == Some(i))
  }

  ghost predicate RowIs(t: Tables, r: int, session: int, topic: int, qos: Byte) {
    r in t.subscriptions && t.subscriptions[r] == SubscriptionRow(session, topic, qos)
  }

  /** A subscription row is an entry of the index. */
  ghost predicate RowBacked(d: Data, t: Tables, r: int)
    requires r in t.subscriptions
  {
    var row := t.subscriptions[r];
    row.topic in t.topics && row.session in t.sessions &&
    var p, n := Split(t.topics[row.topic].topic), t.sessions[row.session].name;
    p in d && n in d[p].clients && d[p].clients[n].session.internalId == row.session && d[p].clients[n].qos == row.qos
  }

  /** An entry of the index is a subscription row. */
  ghost predicate EntryBacked(d: Data, t: Tables, p: Path, n: Str)
    requires p in d && n in d[p].clients
  {
    var e := d[p].clients[n];
    && d[p].id.Some? && e.session.session == n && e.qos <= 2 && Known(t, e.session)
    && exists r :: RowIs(t, r, e.session.internalId, d[p].id.value, e.qos)
  }

  predicate SameKey(a: SubscriptionRow, b: SubscriptionRow) {
    a.session == b.session && a.topic == b.topic
  }

  ghost predicate RowsAgree(d: Data, t: Tables) {
    && (forall r :: r in t.subscriptions ==> RowBacked(d, t, r))
    && (forall r, s :: r in t.subscriptions && s in t.subscriptions && SameKey(t.subscriptions[r], t.subscriptions[s]) ==>
          r == s)
    && (forall p, n :: p in d && n in d[p].clients ==> EntryBacked(d, t, p, n))
  }

  /** The message kept in a node is the one its topic row refers to. */
  ghost predicate MessageBacked(n: NodeData, p: Path, t: Tables) {
    match n.message
    case None => n.id.Some? ==> n.id.value in t.topics && t.topics[n.id.value].retained.None?
    case Some(m) =>
      && n.id.Some? && n.id.value in t.topics && t.topics[n.id.value].retained.Some?
      && Split(m.topic) == p && m.message != []
      && var k := t.topics[n.id.value].retained.value; k in t.messages && t.messages[k] == RowOf(m)
  }

  ghost predicate Agree(d: Data, t: Tables) {
    && NamesUnique(t) && IdsAgree(d, t) && RowsAgree(d, t)
    && forall p :: p in d ==> MessageBacked(d[p], p, t)
  }

  lemma ClientMapKeys(d: Data)
    ensures ClientMap(d).Keys == d.Keys
  {}

  lemma AgreeKeyed(d: Data, t: Tables)
    requires Agree(d, t)
    ensures AllKeyed(ClientMap(d))
  {}

  // ----- what each step does to the agreement -----

  lemma ExtendAgree(d: Data, t: Tables, p: Path, k: nat)
    requires Agree(d, t) && k <= |p|
    ensures Agree(Extend(d, p, k), t)
  {
    hide Split;
    var e := Extend(d, p, k);
    forall r | r in t.subscriptions ensures RowBacked(e, t, r) {
      assert RowBacked(d, t, r);
    }
    forall q, n | q in e && n in e[q].clients ensures EntryBacked(e, t, q, n) {
      assert EntryBacked(d, t, q, n);
    }
  }

  lemma NewTopicEntry(d: Data, t: Tables, p: Path, id: int, topic: Str, q: Path, n: Str)
    requires p in d && d[p].id.None? && id !in t.topics && q in d && n in d[q].clients && EntryBacked(d, t, q, n)
    ensures EntryBacked(d[p := d[p].(id := Some(id))], WithTopic(t, id, topic), q, n)
  {
    var u, entry := WithTopic(t, id, topic), d[q].clients[n];
    var r :| RowIs(t, r, entry.session.internalId, d[q].id.value, entry.qos);
    assert RowIs(u, r, entry.session.internalId, d[q].id.value, entry.qos);
  }

  lemma NewTopicRow(d: Data, t: Tables, p: Path, id: int, topic: Str, r: int)
    requires p in d && d[p].id.None? && id !in t.topics && r in t.subscriptions && RowBacked(d, t, r)
    ensures RowBacked(d[p := d[p].(id := Some(id))], WithTopic(t, id, topic), r)
  {}

  lemma NewTopicMessage(d: Data, t: Tables, p: Path, id: int, topic: Str, q: Path)
    requires p in d && d[p].id.None? && id !in t.topics && q in d && MessageBacked(d[q], q, t)
    ensures MessageBacked(d[p := d[p].(id := Some(id))][q], q, WithTopic(t, id, topic))
  {}

  lemma NewTopicAgree(d: Data, t: Tables, p: Path, id: int, topic: Str)
    requires Agree(d, t) && p in d && d[p].id.None? && id !in t.topics && Split(topic) == p
    ensures Agree(d[p := d[p].(id := Some(id))], WithTopic(t, id, topic))
  {
    hide Split, EntryBacked, RowBacked, MessageBacked;
    var e, u := d[p := d[p].(id := Some(id))], WithTopic(t, id, topic);
    forall r | r in u.subscriptions ensures RowBacked(e, u, r) {
      NewTopicRow(d, t, p, id, topic, r);
    }
    forall q, n | q in e && n in e[q].clients ensures EntryBacked(e, u, q, n) {
      NewTopicEntry(d, t, p, id, topic, q, n);
    }
    forall q | q in e ensures MessageBacked(e[q], q, u) {
      NewTopicMessage(d, t, p, id, topic, q);
    }
  }

  lemma DeleteTopicAgree(d: Data, t: Tables, p: Path)
    requires Agree(d, t) && p in d && d[p].id.Some? && !Used(d[p])
    ensures Agree(d[p := BLANK], WithoutTopic(t, d[p].id.value))
  {
    hide Split;
    var i := d[p].id.value;
    var e, u := d[p := BLANK], WithoutTopic(t, i);
    forall q | q in d && q != p ensures d[q].id != Some(i) {}
    forall r | r in u.subscriptions ensures RowBacked(e, u, r) {
      assert RowBacked(d, t, r);
    }
    forall q, n | q in e && n in e[q].clients ensures EntryBacked(e, u, q, n) {
      assert EntryBacked(d, t, q, n);
      var entry := d[q].clients[n];
      var r :| RowIs(t, r, entry.session.internalId, d[q].id.value, entry.qos);
      assert RowIs(u, r, entry.session.internalId, d[q].id.value, entry.qos);
    }
    forall q | q in e ensures MessageBacked(e[q], q, u) {
      assert MessageBacked(d[q], q, t);
    }
  }

  function WithEntry(n: NodeData, s: SessionId, qos: Byte): NodeData {
    n.(clients := n.clients[s.session := TopicEntry(s, qos)])
  }

  function WithoutEntry(n: NodeData, name: Str): NodeData {
    n.(clients := n.clients - {name})
  }

  lemma EntryOfRow(d: Data, t: Tables, p: Path, s: SessionId, r: int)
    requires Agree(d, t) && p in d && d[p].id.Some? && Known(t, s)
    requires r in t.subscriptions && IsFor(t.subscriptions[r], s.internalId, d[p].id.value)
    ensures s.session in d[p].clients
  {}

  lemma SubscribeEntry(d: Data, t: Tables, p: Path, s: SessionId, qos: Byte, row: int, q: Path, n: Str)
    requires Agree(d, t) && p in d && d[p].id.Some? && Known(t, s) && qos <= 2 && row !in t.subscriptions
    requires q in d && (n in d[q].clients || (q == p && n == s.session))
    ensures EntryBacked(d[p := WithEntry(d[p], s, qos)], WithSubscription(t, row, s.internalId, d[p].id.value, qos), q, n)
  {
    var u := WithSubscription(t, row, s.internalId, d[p].id.value, qos);
    if q == p && n == s.session {
      assert RowIs(u, row, s.internalId, d[p].id.value, qos);
    } else {
      assert EntryBacked(d, t, q, n);
      var entry := d[q].clients[n];
      var r :| RowIs(t, r, entry.session.internalId, d[q].id.value, entry.qos);
      assert RowIs(u, r, entry.session.internalId, d[q].id.value, entry.qos);
    }
  }

  lemma SubscribeRow(d: Data, t: Tables, p: Path, s: SessionId, qos: Byte, row: int, r: int)
    requires Agree(d, t) && p in d && d[p].id.Some? && Known(t, s) && row !in t.subscriptions && s.session !in d[p].clients
    requires r in t.subscriptions || r == row
    ensures RowBacked(d[p := WithEntry(d[p], s, qos)], WithSubscription(t, row, s.internalId, d[p].id.value, qos), r)
  {}

  lemma SubscribeAgree(d: Data, t: Tables, p: Path, s: SessionId, qos: Byte, row: int)
    requires Agree(d, t) && p in d && d[p].id.Some? && Known(t, s) && qos <= 2
    requires s.session !in d[p].clients && row !in t.subscriptions
    ensures Agree(d[p := WithEntry(d[p], s, qos)], WithSubscription(t, row, s.internalId, d[p].id.value, qos))
  {
    hide Split, IdsAgree, MessageBacked, RowBacked, EntryBacked;
    var i := d[p].id.value;
    var e, u := d[p := WithEntry(d[p], s, qos)], WithSubscription(t, row, s.internalId, i, qos);
    TopicsStay(d, t, e, u);
    forall r | r in t.subscriptions ensures !IsFor(t.subscriptions[r], s.internalId, i) {
      if IsFor(t.subscriptions[r], s.internalId, i) {
        EntryOfRow(d, t, p, s, r);
        assert false;
      }
    }
    assert RowsAgree(e, u) by {
      forall r | r in u.subscriptions ensures RowBacked(e, u, r) {
        SubscribeRow(d, t, p, s, qos, row, r);
      }
      forall q, n | q in e && n in e[q].clients ensures EntryBacked(e, u, q, n) {
        SubscribeEntry(d, t, p, s, qos, row, q, n);
      }
    }
  }

  /** Only the clients of nodes and the subscription rows change. */
  lemma TopicsStay(d: Data, t: Tables, e: Data, u: Tables)
    requires Agree(d, t) && u == t.(subscriptions := u.subscriptions)
    requires e.Keys == d.Keys && forall p :: p in d ==> e[p].id == d[p].id && e[p].message == d[p].message
    ensures IdsAgree(e, u) && NamesUnique(u) && forall p :: p in e ==> MessageBacked(e[p], p, u)
  {
    hide Split, RowsAgree;
    forall i | i in u.topics ensures Split(u.topics[i].topic) in e && e[Split(u.topics[i].topic)].id == Some(i) {
      assert Split(t.topics[i].topic) in d.Keys;
    }
    forall p | p in e ensures MessageBacked(e[p], p, u) {
      assert MessageBacked(d[p], p, t);
    }
  }

  lemma OwnRow(d: Data, t: Tables, p: Path, s: SessionId) returns (r: int)
    requires Agree(d, t) && p in d && d[p].id.Some? && Known(t, s)
    requires s.session in d[p].clients
    ensures r in t.subscriptions && IsFor(t.subscriptions[r], s.internalId, d[p].id.value)
  {
    assert EntryBacked(d, t, p, s.session);
    var e := d[p].clients[s.session];
    r :| RowIs(t, r, e.session.internalId, d[p].id.value, e.qos);
  }

  lemma ResubscribeEntry(d: Data, t: Tables, p: Path, s: SessionId, qos: Byte, q: Path, n: Str)
    requires Agree(d, t) && p in d && d[p].id.Some? && Known(t, s) && qos <= 2
    requires s.session in d[p].clients && q in d && n in d[q].clients
    ensures EntryBacked(d[p := WithEntry(d[p], s, qos)], WithSubscriptionQos(t, s.internalId, d[p].id.value, qos), q, n)
  {
    var u := WithSubscriptionQos(t, s.internalId, d[p].id.value, qos);
    if q == p && n == s.session {
      var mine := OwnRow(d, t, p, s);
      assert RowIs(u, mine, s.internalId, d[p].id.value, qos);
    } else {
      assert EntryBacked(d, t, q, n);
      var entry := d[q].clients[n];
      var r :| RowIs(t, r, entry.session.internalId, d[q].id.value, entry.qos);
      assert !IsFor(t.subscriptions[r], s.internalId, d[p].id.value);
      assert RowIs(u, r, entry.session.internalId, d[q].id.value, entry.qos);
    }
  }

  lemma ResubscribeRow(d: Data, t: Tables, p: Path, s: SessionId, qos: Byte, r: int)
    requires Agree(d, t) && p in d && d[p].id.Some? && Known(t, s) && s.session in d[p].clients
    requires r in t.subscriptions
    ensures RowBacked(d[p := WithEntry(d[p], s, qos)], WithSubscriptionQos(t, s.internalId, d[p].id.value, qos), r)
  {}

  lemma ResubscribeAgree(d: Data, t: Tables, p: Path, s: SessionId, qos: Byte)
    requires Agree(d, t) && p in d && d[p].id.Some? && Known(t, s) && qos <= 2
    requires s.session in d[p].clients
    ensures Agree(d[p := WithEntry(d[p], s, qos)], WithSubscriptionQos(t, s.internalId, d[p].id.value, qos))
  {
    hide Split, IdsAgree, MessageBacked, RowBacked, EntryBacked;
    var i := d[p].id.value;
    var e, u := d[p := WithEntry(d[p], s, qos)], WithSubscriptionQos(t, s.internalId, i, qos);
    TopicsStay(d, t, e, u);
    assert RowsAgree(e, u) by {
      forall r | r in u.subscriptions ensures RowBacked(e, u, r) {
        ResubscribeRow(d, t, p, s, qos, r);
      }
      forall q, n | q in e && n in e[q].clients ensures EntryBacked(e, u, q, n) {
        ResubscribeEntry(d, t, p, s, qos, q, n);
      }
      forall r, r' | r in u.subscriptions && r' in u.subscriptions && SameKey(u.subscriptions[r], u.subscriptions[r'])
        ensures r == r'
      {
        assert SameKey(t.subscriptions[r], t.subscriptions[r']);
      }
    }
  }

  lemma UnsubscribeAgree(d: Data, t: Tables, p: Path, s: SessionId)
    requires Agree(d, t) && p in d && d[p].id.Some? && Known(t, s)
    requires s.session in d[p].clients
    ensures Agree(d[p := WithoutEntry(d[p], s.session)], WithoutSubscription(t, s.internalId, d[p].id.value))
  {
    hide Split, IdsAgree, MessageBacked, RowBacked, EntryBacked;
    var i := d[p].id.value;
    var e, u := d[p := WithoutEntry(d[p], s.session)], WithoutSubscription(t, s.internalId, i);
    TopicsStay(d, t, e, u);
    assert RowsAgree(e, u) by {
      forall r | r in u.subscriptions ensures RowBacked(e, u, r) {
        UnsubscribeRow(d, t, p, s, r);
      }
      forall q, n | q in e && n in e[q].clients ensures EntryBacked(e, u, q, n) {
        UnsubscribeEntry(d, t, p, s, q, n);
      }
    }
  }

  lemma UnsubscribeRow(d: Data, t: Tables, p: Path, s: SessionId, r: int)
    requires Agree(d, t) && p in d && d[p].id.Some? && Known(t, s) && s.session in d[p].clients
    requires r in t.subscriptions && !IsFor(t.subscriptions[r], s.internalId, d[p].id.value)
    ensures RowBacked(d[p := WithoutEntry(d[p], s.session)], WithoutSubscription(t, s.internalId, d[p].id.value), r)
  {
    assert RowBacked(d, t, r);
  }

  lemma UnsubscribeEntry(d: Data, t: Tables, p: Path, s: SessionId, q: Path, n: Str)
    requires Agree(d, t) && p in d && d[p].id.Some? && Known(t, s) && q in d && n in d[q].clients
    requires q != p || n != s.session
    ensures EntryBacked(d[p := WithoutEntry(d[p], s.session)], WithoutSubscription(t, s.internalId, d[p].id.value), q, n)
  {
    var u := WithoutSubscription(t, s.internalId, d[p].id.value);
    assert EntryBacked(d, t, q, n);
    var entry := d[q].clients[n];
    var r :| RowIs(t, r, entry.session.internalId, d[q].id.value, entry.qos);
    assert !IsFor(t.subscriptions[r], s.internalId, d[p].id.value);
    assert RowIs(u, r, entry.session.internalId, d[q].id.value, entry.qos);
  }

  function WithMessage(n: NodeData, m: Option<Publish>): NodeData {
    n.(message := m)
  }

  ghost predicate SameEntries(d: Data, e: Data) {
    e.Keys == d.Keys && forall p :: p in d ==> e[p].id == d[p].id && e[p].clients == d[p].clients
  }

  /** Neither side of a subscription is touched. */
  lemma RowsStay(d: Data, t: Tables, e: Data, u: Tables)
    requires IdsAgree(d, t) && RowsAgree(d, t) && SameEntries(d, e)
    requires u.subscriptions == t.subscriptions && u.sessions == t.sessions && u.topics.Keys == t.topics.Keys
    requires forall i :: i in t.topics ==> u.topics[i].topic == t.topics[i].topic
    ensures IdsAgree(e, u) && RowsAgree(e, u)
  {
    hide Split;
    forall i | i in u.topics ensures Split(u.topics[i].topic) in e && e[Split(u.topics[i].topic)].id == Some(i) {
      assert Split(t.topics[i].topic) in d.Keys;
    }
    forall r | r in u.subscriptions ensures RowBacked(e, u, r) {
      assert RowBacked(d, t, r);
    }
    forall q, n | q in e && n in e[q].clients ensures EntryBacked(e, u, q, n) {
      assert EntryBacked(d, t, q, n);
      var entry := d[q].clients[n];
      var r :| RowIs(t, r, entry.session.internalId, d[q].id.value, entry.qos);
      assert RowIs(u, r, entry.session.internalId, d[q].id.value, entry.qos);
    }
  }

  lemma ClearRetainedAgree(d: Data, t: Tables, p: Path)
    requires Agree(d, t) && Owned(t) && p in d && d[p].id.Some?
    ensures d[p].id.value in t.topics
    ensures Agree(d[p := WithMessage(d[p], None)], WithoutRetained(t, d[p].id.value))
  {
    hide Split;
    var i := d[p].id.value;
    var e, u := d[p := WithMessage(d[p], None)], WithoutRetained(t, i);
    RowsStay(d, t, e, u);
    forall q | q in e ensures MessageBacked(e[q], q, u) {
      ClearedMessage(d, t, p, q);
    }
    hide RowsAgree, IdsAgree, MessageBacked;
  }

  lemma ClearedMessage(d: Data, t: Tables, p: Path, q: Path)
    requires Agree(d, t) && Owned(t) && p in d && d[p].id.Some? && q in d && d[p].id.value in t.topics
    ensures MessageBacked(d[p := WithMessage(d[p], None)][q], q, WithoutRetained(t, d[p].id.value))
  {
    assert MessageBacked(d[q], q, t);
    if q != p && d[q].message.Some? {
      var i, j, k := d[p].id.value, d[q].id.value, t.topics[d[q].id.value].retained.value;
      assert i != j;
      assert RetainedRef(t, j, k) && !RetainedRef(t, i, k);
    }
  }

  lemma StoreRetainedAgree(d: Data, t: Tables, p: Path, m: Publish, k: int)
    requires Agree(d, t) && p in d && d[p].id.Some? && d[p].message.None?
    requires k !in t.messages && Split(m.topic) == p && m.message != []
    ensures d[p].id.value in t.topics && t.topics[d[p].id.value].retained.None?
    ensures Agree(d[p := WithMessage(d[p], Some(m))], WithRetained(t, k, d[p].id.value, RowOf(m)))
  {
    hide Split;
    var i := d[p].id.value;
    var e, u := d[p := WithMessage(d[p], Some(m))], WithRetained(t, k, i, RowOf(m));
    assert MessageBacked(d[p], p, t);
    RowsStay(d, t, e, u);
    forall q | q in e ensures MessageBacked(e[q], q, u) {
      StoredMessage(d, t, p, m, k, q);
    }
    hide RowsAgree, IdsAgree, MessageBacked;
  }

  lemma StoredMessage(d: Data, t: Tables, p: Path, m: Publish, k: int, q: Path)
    requires Agree(d, t) && p in d && d[p].id.Some? && d[p].message.None? && q in d && d[p].id.value in t.topics
    requires k !in t.messages && Split(m.topic) == p && m.message != []
    ensures MessageBacked(d[p := WithMessage(d[p], Some(m))][q], q, WithRetained(t, k, d[p].id.value, RowOf(m)))
  {
    hide Split;
    assert MessageBacked(d[q], q, t);
  }

  /** What any session does to the tables leaves the router's index in agreement with them. */
  lemma AgreeUnderSession(d: Data, t: Tables, u: Tables, s: int)
    requires Agree(d, t) && SessionFrame(t, u, s) && NamesUnique(u)
    ensures Agree(d, u)
  {
    hide Split;
    forall r | r in u.subscriptions ensures RowBacked(d, u, r) {
      assert RowBacked(d, t, r);
    }
    forall q, n | q in d && n in d[q].clients ensures EntryBacked(d, u, q, n) {
      assert EntryBacked(d, t, q, n);
      var entry := d[q].clients[n];
      var r :| RowIs(t, r, entry.session.internalId, d[q].id.value, entry.qos);
      assert RowIs(u, r, entry.session.internalId, d[q].id.value, entry.qos);
    }
    forall q | q in d ensures MessageBacked(d[q], q, u) {
      assert MessageBacked(d[q], q, t);
      if d[q].message.Some? {
        assert RetainedRef(t, d[q].id.value, t.topics[d[q].id.value].retained.value);
      }
    }
  }

  // ----- growing the index -----

  lemma NotAPrefix(t: Path, i: nat)
    requires i < |t|
    ensures t[..i + 1] !in Prefixes(t, i)
  {
    forall j | 0 <= j <= i ensures t[..j] != t[..i + 1] {
      assert |t[..j]| < |t[..i + 1]|;
    }
  }

  lemma ExtendNone(d: Data, t: Path)
    requires [] in d
    ensures Extend(d, t, 0) == d
  {
    assert Prefixes(t, 0) == {t[..0]} && t[..0] == [];
  }

  lemma ExtendStep(d: Data, t: Path, i: nat)
    requires i < |t|
    ensures t[..i + 1] in Extend(d, t, i) <==> t[..i + 1] in d
    ensures t[..i + 1] in d ==> Extend(d, t, i + 1) == Extend(d, t, i)
    ensures t[..i + 1] in d ==> Extend(d, t, i)[t[..i + 1]] == d[t[..i + 1]]
    ensures t[..i + 1] !in d ==> Extend(d, t, i + 1) == Extend(d, t, i)[t[..i + 1] := BLANK]
  {
    NotAPrefix(t, i);
    assert Prefixes(t, i + 1) == Prefixes(t, i) + {t[..i + 1]};
  }

  /** What `get_topic` makes of the index when `t` had no topic row. */
  function Touched(d: Data, t: Path, id: int): Data {
    Extend(d, t, |t|)[t := (if t in d then d[t] else BLANK).(id := Some(id))]
  }

  lemma OpenStep(d: Data, t: Path, i: nat, id: int)
    requires PrefixClosed(d.Keys) && i < |t|
    ensures var e := Extend(d, t, |t| - 1);
            && (i + 1 < |t| ==> t[..i + 1] in e)
            && (i + 1 == |t| ==> (t in e <==> t in d))
            && (t in d ==> e == d && Touched(d, t, id) == e[t := d[t].(id := Some(id))])
            && (t !in d ==> Touched(d, t, id) == e[t := NodeData(Some(id), map[], None)])
  {
    assert t[..|t| - 1 + 1] == t;
    ExtendStep(d, t, |t| - 1);
    if t in d {
      forall k | 0 <= k <= |t| ensures t[..k] in d {
        PrefixesIn(d.Keys, t, k);
      }
    }
  }

  /** All subscriptions in the index. */
  function Entries(d: Data): set<(Path, Str)> {
    set p, n | p in d && n in d[p].clients :: (p, n)
  }

  /** All nodes with a retained message. */
  function Holding(d: Data): set<Path> {
    set p | p in d && d[p].message.Some?
  }

  // ----- whole steps -----

  /** The index is in order with respect to the tables. The nodes `e` may have a row without use: those in the
      middle of a change, and those a failed call has left behind. */
  ghost predicate Sound(d: Data, t: Tables, e: set<Path>) {
    Agree(d, t) && IdExact(d, e) && Owned(t)
  }

  /** Tables that a router can start from: they mirror some index, and every reference finds its row. */
  ghost predicate Loadable(t: Tables) {
    Owned(t) && exists d: Data :: Agree(d, t)
  }

  lemma SoundLoadable(d: Data, t: Tables, e: set<Path>)
    requires Sound(d, t, e)
    ensures Loadable(t)
  {}

  /** A message row that nothing refers to is in nobody's way. */
  lemma OrphanLoadable(d: Data, t: Tables, e: set<Path>, u: Tables)
    requires Sound(d, t, e)
    requires u == t.(messages := u.messages) && forall m :: m in t.messages ==> m in u.messages && u.messages[m] == t.messages[m]
    ensures Loadable(u)
  {
    hide Split, IdExact;
    OrphanFrame(t, u);
    forall p, n | p in d && n in d[p].clients ensures EntryBacked(d, u, p, n) {
      assert EntryBacked(d, t, p, n);
      var e := d[p].clients[n];
      var r :| RowIs(t, r, e.session.internalId, d[p].id.value, e.qos);
      assert RowIs(u, r, e.session.internalId, d[p].id.value, e.qos);
    }
    forall r | r in u.subscriptions ensures RowBacked(d, u, r) {
      assert RowBacked(d, t, r);
    }
    forall p | p in d ensures MessageBacked(d[p], p, u) {
      assert MessageBacked(d[p], p, t);
    }
    assert Agree(d, u);
  }

  /** Every subscription and every retained message counted. */
  ghost predicate SameCounts(d: Data, e: Data) {
    Entries(d) == Entries(e) && Holding(d) == Holding(e)
  }

  lemma SoundTouch(d: Data, t: Tables, x: set<Path>, p: Path, topic: Str, id: int, u: Tables)
    requires Sound(d, t, x) && p == Split(topic) && PrefixClosed(d.Keys)
    requires if p in d && d[p].id.Some? then id == d[p].id.value && u == t
             else id !in t.topics && u == WithTopic(t, id, topic)
    ensures Sound(Touched(d, p, id), u, x + {p}) && RouterFrame(t, u) && Tidy(t, u) && SameCounts(d, Touched(d, p, id))
  {
    hide Agree, Owned, Tidy, RouterFrame, SameCounts;
    TouchCounts(d, p, id);
    if p in d && d[p].id.Some? {
      TouchPresent(d, p);
      FrameRefl(t);
    } else {
      ExtendAgree(d, t, p, |p|);
      assert p[..|p|] == p;
      var e := Extend(d, p, |p|);
      NewTopicAgree(e, t, p, id, topic);
      assert Touched(d, p, id) == e[p := e[p].(id := Some(id))];
      TopicConserved(t, id, topic);
    }
  }

  lemma TouchCounts(d: Data, p: Path, id: int)
    ensures SameCounts(d, Touched(d, p, id))
  {}

  lemma TouchPresent(d: Data, p: Path)
    requires PrefixClosed(d.Keys) && p in d && d[p].id.Some?
    ensures Touched(d, p, d[p].id.value) == d
  {
    forall k | 0 <= k <= |p| ensures p[..k] in d {
      PrefixesIn(d.Keys, p, k);
    }
  }

  lemma SoundKeep(d: Data, t: Tables, x: set<Path>, p: Path)
    requires Sound(d, t, x + {p}) && p in d && d[p].id.Some? && Used(d[p])
    ensures Sound(d, t, x)
  {}

  lemma SoundSubscribe(d: Data, t: Tables, x: set<Path>, p: Path, s: SessionId, qos: Byte, row: int)
    requires Sound(d, t, x + {p}) && p in d && d[p].id.Some? && Known(t, s) && qos <= 2
    requires s.session !in d[p].clients && row !in t.subscriptions
    ensures var e, u := d[p := WithEntry(d[p], s, qos)], WithSubscription(t, row, s.internalId, d[p].id.value, qos);
            Sound(e, u, x) && RouterFrame(t, u) && Tidy(t, u) && |Entries(e)| == |Entries(d)| + 1 && Holding(e) == Holding(d)
  {
    var e, u := d[p := WithEntry(d[p], s, qos)], WithSubscription(t, row, s.internalId, d[p].id.value, qos);
    SubscribeAgree(d, t, p, s, qos, row);
    SubscriptionsApart(t, u);
    hide Agree, Owned, Tidy, RouterFrame;
    EntryCounts(d, p, s, qos);
    assert s.session in e[p].clients;
  }

  lemma SoundResubscribe(d: Data, t: Tables, x: set<Path>, p: Path, s: SessionId, qos: Byte)
    requires Sound(d, t, x + {p}) && p in d && d[p].id.Some? && Known(t, s) && qos <= 2
    requires s.session in d[p].clients
    ensures var e, u := d[p := WithEntry(d[p], s, qos)], WithSubscriptionQos(t, s.internalId, d[p].id.value, qos);
            Sound(e, u, x) && RouterFrame(t, u) && Tidy(t, u) && SameCounts(d, e)
  {
    var e, u := d[p := WithEntry(d[p], s, qos)], WithSubscriptionQos(t, s.internalId, d[p].id.value, qos);
    ResubscribeAgree(d, t, p, s, qos);
    SubscriptionsApart(t, u);
    hide Agree, Owned, Tidy, RouterFrame;
    EntryCounts(d, p, s, qos);
    assert s.session in e[p].clients;
    assert Entries(e) == Entries(d);
  }

  lemma EntryCounts(d: Data, p: Path, s: SessionId, qos: Byte)
    requires p in d
    ensures Entries(d[p := WithEntry(d[p], s, qos)]) == Entries(d) + {(p, s.session)}
    ensures Holding(d[p := WithEntry(d[p], s, qos)]) == Holding(d)
  {}

  lemma SoundUnsubscribe(d: Data, t: Tables, x: set<Path>, p: Path, s: SessionId)
    requires Sound(d, t, x) && p in d && Known(t, s) && s.session in d[p].clients
    ensures d[p].id.Some?
    ensures var e, u := d[p := WithoutEntry(d[p], s.session)], WithoutSubscription(t, s.internalId, d[p].id.value);
            Sound(e, u, x + {p}) && RouterFrame(t, u) && Tidy(t, u) && |Entries(e)| == |Entries(d)| - 1 && Holding(e) == Holding(d)
  {
    hide Owned, Tidy, RouterFrame, Agree;
    EntryHasRow(d, t, p, s.session);
    UnsubscribeAgree(d, t, p, s);
    SubscriptionsApart(t, WithoutSubscription(t, s.internalId, d[p].id.value));
    RemovalCounts(d, p, s.session);
  }

  lemma EntryHasRow(d: Data, t: Tables, p: Path, n: Str)
    requires Agree(d, t) && p in d && n in d[p].clients
    ensures HasRow(d, p)
  {}

  lemma RemovalCounts(d: Data, p: Path, n: Str)
    requires p in d && n in d[p].clients
    ensures |Entries(d[p := WithoutEntry(d[p], n)])| == |Entries(d)| - 1
    ensures Holding(d[p := WithoutEntry(d[p], n)]) == Holding(d)
  {
    assert Entries(d[p := WithoutEntry(d[p], n)]) == Entries(d) - {(p, n)};
  }

  lemma SubscriptionsApart(t: Tables, u: Tables)
    requires u == t.(subscriptions := u.subscriptions)
    ensures Tidy(t, u) && RouterFrame(t, u)
  {
    SameReferences(t, u);
  }

  lemma SoundDelete(d: Data, t: Tables, x: set<Path>, p: Path)
    requires Sound(d, t, x + {p}) && p in d && d[p].id.Some? && !Used(d[p])
    ensures var e, u := d[p := BLANK], WithoutTopic(t, d[p].id.value);
            Sound(e, u, x) && RouterFrame(t, u) && Tidy(t, u) && SameCounts(d, e)
  {
    assert MessageBacked(d[p], p, t);
    DeleteTopicAgree(d, t, p);
    DeleteTopicConserved(t, d[p].id.value);
    hide Agree, Owned, Tidy, RouterFrame;
    var e := d[p := BLANK];
    assert Entries(e) == Entries(d);
    assert Holding(e) == Holding(d);
  }

  lemma SoundClear(d: Data, t: Tables, x: set<Path>, p: Path)
    requires Sound(d, t, x + {p}) && p in d && d[p].id.Some?
    ensures d[p].id.value in t.topics
    ensures var e, u := d[p := WithMessage(d[p], None)], WithoutRetained(t, d[p].id.value);
            Sound(e, u, x + {p}) && RouterFrame(t, u) && Tidy(t, u) && Entries(e) == Entries(d) && Holding(e) == Holding(d) - {p}
  {
    ClearRetainedAgree(d, t, p);
    DeleteRetainConserved(t, d[p].id.value);
    hide Agree, Owned, Tidy, RouterFrame;
    var e := d[p := WithMessage(d[p], None)];
    assert Entries(e) == Entries(d);
  }

  lemma SoundStore(d: Data, t: Tables, x: set<Path>, p: Path, m: Publish, k: int)
    requires Sound(d, t, x + {p}) && p in d && d[p].id.Some? && d[p].message.None?
    requires k !in t.messages && Split(m.topic) == p && m.message != []
    ensures var e, u := d[p := WithMessage(d[p], Some(m))], WithRetained(t, k, d[p].id.value, RowOf(m));
            Sound(e, u, x) && RouterFrame(t, u) && Tidy(t, u) && Entries(e) == Entries(d) && Holding(e) == Holding(d) + {p}
  {
    StoreRetainedAgree(d, t, p, m, k);
    RetainConserved(t, k, d[p].id.value, RowOf(m));
    hide Agree, Owned, Tidy, RouterFrame;
    var e := d[p := WithMessage(d[p], Some(m))];
    assert Entries(e) == Entries(d);
  }

  // ----- what the operations make of the index -----

  /** What the index means, whatever its blank nodes and row ids. */
  function Content(d: Data): Data {
    map p | p in d && Used(d[p]) :: d[p].(id := None)
  }

  /** A subscription is left as it is when it asks for the same QoS, or when the new one was refused. */
  predicate Keeps(c: Clients, s: SessionId, qos: Byte, answer: Byte) {
    s.session in c && (c[s.session].qos == qos || answer != qos)
  }

  function SubscribeData(d: Data, t: Path, id: int, s: SessionId, qos: Byte, answer: Byte): Data {
    var e := Touched(d, t, id);
    if Keeps(e[t].clients, s, qos, answer) then e else e[t := WithEntry(e[t], s, qos)]
  }

  /** The answer is the QoS asked for, or the one already held. */
  predicate GrantedQos(d: Data, t: Path, s: SessionId, qos: Byte, answer: Byte) {
    answer == qos || (t in d && s.session in d[t].clients && answer == d[t].clients[s.session].qos)
  }

  function UnsubscribeData(d: Data, t: Path, s: SessionId): Data {
    if t in d && s.session in d[t].clients
    then var n := WithoutEntry(d[t], s.session); d[t := if Used(n) then n else BLANK]
    else d
  }

  lemma UnsubscribeCases(d: Data, t: Path, s: SessionId)
    ensures t !in d ==> UnsubscribeData(d, t, s) == d
    ensures t in d && s.session !in d[t].clients ==>
              UnsubscribeData(d, t, s) == d && d[t := WithoutEntry(d[t], s.session)] == d
    ensures t in d && s.session in d[t].clients ==>
              var e := d[t := WithoutEntry(d[t], s.session)];
              && UnsubscribeData(d, t, s) == (if Used(e[t]) then e else e[t := BLANK])
              && Content(e) == Content(UnsubscribeData(d, t, s))
  {
    if t in d && s.session !in d[t].clients {
      assert d[t].clients - {s.session} == d[t].clients;
    }
  }

  function RetainData(d: Data, t: Path, id: int, m: Publish): Data {
    var e := Touched(d, t, id);
    if m.message != [] then e[t := WithMessage(e[t], Some(m))]
    else if e[t].clients != map[] then e[t := WithMessage(e[t], None)]
    else e[t := BLANK]
  }

  lemma ContentExtend(d: Data, t: Path)
    requires t != []
    ensures Content(Extend(d, t, |t| - 1)) == Content(d)
  {}

  lemma ContentTouched(d: Data, t: Path, id: int)
    ensures Content(Touched(d, t, id)) == Content(d)
  {}

  lemma SubscribeCases(d: Data, t: Path, id: int, s: SessionId, qos: Byte, answer: Byte)
    ensures var e := Touched(d, t, id);
            t in e && SubscribeData(d, t, id, s, qos, answer) == (
              if s.session in e[t].clients && (e[t].clients[s.session].qos == qos || answer != qos) then e
              else e[t := WithEntry(e[t], s, qos)])
    ensures var e := Touched(d, t, id); WithEntry(e[t], s, qos).id == e[t].id
  {}

  lemma TouchedClients(d: Data, t: Path, id: int)
    ensures t in Touched(d, t, id)
    ensures Touched(d, t, id)[t].clients == if t in d then d[t].clients else map[]
  {}

  lemma SoundQos(d: Data, t: Tables, e: set<Path>, p: Path, n: Str)
    requires Sound(d, t, e) && p in d && n in d[p].clients
    ensures d[p].clients[n].qos <= 2
  {}

  lemma HoldingCounts(d: Data, t: Path)
    requires t in d
    ensures |Holding(d) - {t}| == |Holding(d)| - if d[t].message.Some? then 1 else 0
    ensures |Holding(d) - {t} + {t}| == |Holding(d)| + if d[t].message.Some? then 0 else 1
  {}

  lemma RetainCases(d: Data, t: Path, id: int, m: Publish)
    ensures var e := Touched(d, t, id);
            && t in e
            && (m.message != [] ==> RetainData(d, t, id, m) == e[t := WithMessage(e[t], Some(m))])
            && (m.message == [] ==>
                  var c := e[t := WithMessage(e[t], None)];
                  && RetainData(d, t, id, m) == (if Used(c[t]) then c else c[t := BLANK])
                  && Content(c) == Content(RetainData(d, t, 0, m)))
  {
    hide Prefixes;
  }
}
