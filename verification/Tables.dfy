/** The durable tables, shared by the router and all sessions. */
module Tables {
  import opened Basics

  datatype SessionRow = SessionRow(name: Str, generation: int, nextMid: U16)
  datatype MessageRow = MessageRow(qos: Byte, topic: Str, payload: seq<Byte>)
  datatype TopicRow = TopicRow(topic: Str, retained: Option<int>)
  datatype SubscriptionRow = SubscriptionRow(session: int, topic: int, qos: Byte)
  datatype QosInRow = QosInRow(session: int, mid: U16)
  datatype OutKind = OutPublish | OutPubRec
  /** `received` is the time at which the row was made. */
  datatype QosOutRow = QosOutRow(
    session: int, message: Option<int>, kind: OutKind, mid: U16, dup: bool, received: int)

  /** Each table maps row ids to rows. */
  datatype Tables = Tables(
    sessions: map<int, SessionRow>,
    messages: map<int, MessageRow>,
    topics: map<int, TopicRow>,
    subscriptions: map<int, SubscriptionRow>,
    qosin: map<int, QosInRow>,
    qosout: map<int, QosOutRow>)

  class Database {
    var t: Tables

    constructor ()
      ensures t == Tables(map[], map[], map[], map[], map[], map[])
    {
      t := Tables(map[], map[], map[], map[], map[], map[]);
    }
  }

  /** The columns of `messages`; dup, retain and packet identifier are not stored. */
  function RowOf(m: Publish): MessageRow {
    MessageRow(m.qos, m.topic, m.message)
  }

  function FromRow(r: MessageRow): Publish {
    Publish(0, r.topic, r.payload, false, false, r.qos)
  }

  // ----- references into `messages` -----

  ghost predicate RetainedRef(t: Tables, i: int, m: int) {
    i in t.topics && t.topics[i].retained == Some(m)
  }

  ghost predicate OutRef(t: Tables, r: int, m: int) {
    r in t.qosout && t.qosout[r].message == Some(m)
  }

  ghost predicate Referenced(t: Tables, m: int) {
    (exists i :: RetainedRef(t, i, m)) || (exists r :: OutRef(t, r, m))
  }

  /** Every reference finds its message row, and no two references find the same. */
  ghost predicate Owned(t: Tables) {
    && (forall m :: Referenced(t, m) ==> m in t.messages)
    && (forall i, j, m :: RetainedRef(t, i, m) && RetainedRef(t, j, m) ==> i == j)
    && (forall r, s, m :: OutRef(t, r, m) && OutRef(t, s, m) ==> r == s)
    && (forall i, r, m :: RetainedRef(t, i, m) ==> !OutRef(t, r, m))
  }

  /** Every message row has exactly one owner, and every reference finds its row. */
  ghost predicate Conserved(t: Tables) {
    Owned(t) && forall m :: m in t.messages ==> Referenced(t, m)
  }

  /** Ownership is kept, and no message row is left without owner. */
  ghost predicate Tidy(t: Tables, u: Tables) {
    (Owned(t) ==> Owned(u)) && (Conserved(t) ==> Conserved(u))
  }

  ghost predicate NamesUnique(t: Tables) {
    forall i, j :: i in t.sessions && j in t.sessions && t.sessions[i].name == t.sessions[j].name ==> i == j
  }

  /** The session row a `SessionId` speaks of. */
  ghost predicate Known(t: Tables, sid: SessionId) {
    sid.internalId in t.sessions && t.sessions[sid.internalId].name == sid.session
  }

  // ----- who may touch what -----

  /** The router leaves sessions and queues alone, with the messages the queues refer to. */
  ghost predicate RouterFrame(t: Tables, u: Tables) {
    && (Owned(t) ==> Owned(u))
    && u.sessions == t.sessions && u.qosin == t.qosin && u.qosout == t.qosout
    && forall r, m :: OutRef(t, r, m) && m in t.messages ==> m in u.messages && u.messages[m] == t.messages[m]
  }

  ghost predicate Framed(t: Tables, u: Tables) {
    RouterFrame(t, u) && Tidy(t, u)
  }

  /** Session `s` leaves topics, subscriptions, retained messages and all other sessions alone. */
  ghost predicate SessionFrame(t: Tables, u: Tables, s: int) {
    && Tidy(t, u)
    && u.topics == t.topics && u.subscriptions == t.subscriptions
    && (forall i, m :: RetainedRef(t, i, m) && m in t.messages ==> m in u.messages && u.messages[m] == t.messages[m])
    && t.sessions.Keys <= u.sessions.Keys <= t.sessions.Keys + {s}
    && (forall i :: i in t.sessions ==> u.sessions[i].name == t.sessions[i].name)
    && (forall i :: i in t.sessions && i != s ==> u.sessions[i] == t.sessions[i])
    && (forall r :: r in t.qosin && t.qosin[r].session != s ==> r in u.qosin && u.qosin[r] == t.qosin[r])
    && (forall r :: r in u.qosin && u.qosin[r].session != s ==> r in t.qosin && t.qosin[r] == u.qosin[r])
    && (forall r :: r in t.qosout && t.qosout[r].session != s ==> r in u.qosout && u.qosout[r] == t.qosout[r])
    && (forall r :: r in u.qosout && u.qosout[r].session != s ==> r in t.qosout && t.qosout[r] == u.qosout[r])
    && (forall r, m :: OutRef(t, r, m) && t.qosout[r].session != s && m in t.messages ==>
          m in u.messages && u.messages[m] == t.messages[m])
  }

  lemma FrameRefl(t: Tables)
    ensures Framed(t, t)
  {}

  lemma FrameKnown(t: Tables, u: Tables, s: SessionId)
    requires Known(t, s) && RouterFrame(t, u)
    ensures Known(u, s)
  {}

  lemma FrameTrans(t: Tables, u: Tables, v: Tables)
    requires RouterFrame(t, u) && RouterFrame(u, v)
    ensures RouterFrame(t, v) && (Tidy(t, u) && Tidy(u, v) ==> Tidy(t, v))
  {
    forall r, m | OutRef(t, r, m) && m in t.messages ensures m in v.messages && v.messages[m] == t.messages[m] {
      assert OutRef(u, r, m);
    }
  }

  lemma OrphanFrame(t: Tables, u: Tables)
    requires u == t.(messages := u.messages) && forall m :: m in t.messages ==> m in u.messages && u.messages[m] == t.messages[m]
    ensures RouterFrame(t, u)
  {
    assert forall i, m :: RetainedRef(u, i, m) <==> RetainedRef(t, i, m);
    assert forall r, m :: OutRef(u, r, m) <==> OutRef(t, r, m);
  }
}
