/** A session's calls into the tables: each takes effect or fails. */
module SessionTables {
  import opened Basics
  import opened Messages
  import opened Tables
  import BrokerTables

  // ----- effects -----

  function WithSession(t: Tables, id: int, name: Str): Tables {
    t.(sessions := t.sessions[id := SessionRow(name, 0, 1)])
  }

  /** `next_mid` goes back to 1 with every new generation. */
  function WithGeneration(t: Tables, id: int, generation: int): Tables
    requires id in t.sessions
  {
    t.(sessions := t.sessions[id := t.sessions[id].(generation := generation, nextMid := 1)])
  }

  function WithNextMid(t: Tables, id: int, mid: U16): Tables
    requires id in t.sessions
  {
    t.(sessions := t.sessions[id := t.sessions[id].(nextMid := mid)])
  }

  function WithIncoming(t: Tables, row: int, session: int, mid: U16): Tables {
    t.(qosin := t.qosin[row := QosInRow(session, mid)])
  }

  function WithoutIncoming(t: Tables, session: int, mid: U16): Tables {
    t.(qosin := map r | r in t.qosin && t.qosin[r] != QosInRow(session, mid) :: t.qosin[r])
  }

  function WithoutAllIncoming(t: Tables, session: int): Tables {
    t.(qosin := map r | r in t.qosin && t.qosin[r].session != session :: t.qosin[r])
  }

  predicate IsOut(row: QosOutRow, session: int, mid: U16) {
    row.session == session && row.mid == mid
  }

  /** What the tables give to a new queue row: ids and the time. */
  datatype NewRow = NewRow(row: int, messageId: int, now: int)

  /** A PUBLISH takes a message row and a queue row, a PUBREC a queue row only. */
  function WithOut(t: Tables, n: NewRow, session: int, mid: U16, m: MQTTMessage): Tables {
    match m
    case Publish(p) =>
      t.(messages := t.messages[n.messageId := RowOf(p)],
         qosout := t.qosout[n.row := QosOutRow(session, Some(n.messageId), OutPublish, mid, false, n.now)])
    case _ =>
      t.(qosout := t.qosout[n.row := QosOutRow(session, None, OutPubRec, mid, false, n.now)])
  }

  /** All rows of the identifier go, but only the message of the row that was read first. */
  function WithoutOut(t: Tables, session: int, mid: U16, first: int): Tables
    requires first in t.qosout
  {
    t.(qosout := map r | r in t.qosout && !IsOut(t.qosout[r], session, mid) :: t.qosout[r],
       messages := if t.qosout[first].message.Some? then t.messages - {t.qosout[first].message.value} else t.messages)
  }

  function WithDup(t: Tables, session: int, mid: U16): Tables {
    t.(qosout := map r | r in t.qosout ::
      if IsOut(t.qosout[r], session, mid) then t.qosout[r].(dup := true) else t.qosout[r])
  }

  function WithoutAllOut(t: Tables, session: int): Tables {
    t.(qosout := map r | r in t.qosout && t.qosout[r].session != session :: t.qosout[r],
       messages := map k | k in t.messages && !(exists r | r in t.qosout :: t.qosout[r].session == session && t.qosout[r].message == Some(k))
                   :: t.messages[k])
  }

  // ----- what a session reads back -----

  ghost predicate Incoming(t: Tables, session: int, mid: U16) {
    exists r :: InRow(t, r, session, mid)
  }

  ghost predicate InRow(t: Tables, r: int, session: int, mid: U16) {
    r in t.qosin && t.qosin[r] == QosInRow(session, mid)
  }

  /** The entry a queue row stands for; the retain flag is not stored. */
  function Loaded(t: Tables, r: int): Option<MQTTMessage>
    requires r in t.qosout
  {
    var row := t.qosout[r];
    match row.kind
    case OutPubRec => Some(PubRec(row.mid))
    case OutPublish =>
      if row.message.Some? && row.message.value in t.messages
      then Some(MQTTMessage.Publish(FromRow(t.messages[row.message.value]).(identifier := row.mid, dup := row.dup)))
      else None
  }

  function OutRows(t: Tables, session: int): set<int> {
    set r | r in t.qosout && t.qosout[r].session == session
  }

  datatype SessionInfo = SessionInfo(internalId: int, generation: int, clean: bool, nextMid: U16)

  predicate IsRow(t: Tables, name: Str, i: SessionInfo) {
    i.internalId in t.sessions && t.sessions[i.internalId] == SessionRow(name, i.generation, i.nextMid)
  }

  ghost predicate NoRow(t: Tables, name: Str) {
    forall i :: i in t.sessions ==> t.sessions[i].name != name
  }

  // ----- calls -----

  class PersistSessionSQL {
    const db: Database

    constructor (db: Database)
      ensures this.db == db
    {
      this.db := db;
    }

    /** Finds the session row by name, or makes one. */
    method PersistSession(name: Str) returns (r: Result<SessionInfo, ()>)
      modifies db
      ensures r.Err? ==> db.t == old(db.t)
      ensures r.Ok? && !r.value.clean ==> db.t == old(db.t) && IsRow(db.t, name, r.value)
      ensures r.Ok? && r.value.clean ==> NoRow(old(db.t), name) && r.value.internalId !in old(db.t).sessions
      ensures r.Ok? && r.value.clean ==> db.t == WithSession(old(db.t), r.value.internalId, name) && IsRow(db.t, name, r.value)
    {
      var fails: bool := *;
      if fails {
        return Err(());
      }
      var found := set i | i in db.t.sessions && db.t.sessions[i].name == name;
      if found != {} {
        var id := Pick(found);
        var row := db.t.sessions[id];
        r := Ok(SessionInfo(id, row.generation, false, row.nextMid));
      } else {
        assert forall i :: i in db.t.sessions && db.t.sessions[i].name == name ==> i in found;
        var id: int := *;
        if id in db.t.sessions {
          return Err(());
        }
        db.t := WithSession(db.t, id, name);
        r := Ok(SessionInfo(id, 0, true, 1));
      }
    }

    /** The topics a session is subscribed to (an inner join). */
    method LoadPersistentSubscriptions(session: int) returns (r: Result<set<Str>, ()>)
      ensures r.Ok? ==> r.value == SubscribedTopics(db.t, session)
    {
      var fails: bool := *;
      r := if fails then Err(()) else Ok(SubscribedTopics(db.t, session));
    }

    method PersistUpdateGeneration(session: int, generation: int) returns (r: Result<(), ()>)
      modifies db
      ensures r.Ok? ==> session in old(db.t).sessions && db.t == WithGeneration(old(db.t), session, generation)
      ensures r.Err? ==> db.t == old(db.t)
    {
      var fails: bool := *;
      if fails || session !in db.t.sessions {
        return Err(());
      }
      db.t := WithGeneration(db.t, session, generation);
      r := Ok(());
    }

    method PersistUpdateMid(session: int, mid: U16) returns (r: Result<(), ()>)
      modifies db
      ensures r.Ok? ==> session in old(db.t).sessions && db.t == WithNextMid(old(db.t), session, mid)
      ensures r.Err? ==> db.t == old(db.t)
    {
      var fails: bool := *;
      if fails || session !in db.t.sessions {
        return Err(());
      }
      db.t := WithNextMid(db.t, session, mid);
      r := Ok(());
    }

    method PersistIncomingStore(session: int, mid: U16) returns (r: Result<int, ()>)
      modifies db
      ensures r.Ok? ==> r.value !in old(db.t).qosin && db.t == WithIncoming(old(db.t), r.value, session, mid)
      ensures r.Err? ==> db.t == old(db.t)
    {
      var row: int := *;
      if row in db.t.qosin {
        return Err(());
      }
      db.t := WithIncoming(db.t, row, session, mid);
      r := Ok(row);
    }

    method PersistIncomingDelete(session: int, mid: U16) returns (r: Result<(), ()>)
      modifies db
      ensures r.Ok? ==> db.t == WithoutIncoming(old(db.t), session, mid)
      ensures r.Err? ==> db.t == old(db.t)
    {
      var fails: bool := *;
      if fails {
        return Err(());
      }
      db.t := WithoutIncoming(db.t, session, mid);
      r := Ok(());
    }

    method PersistIncomingClear(session: int) returns (r: Result<(), ()>)
      modifies db
      ensures r.Ok? ==> db.t == WithoutAllIncoming(old(db.t), session)
      ensures r.Err? ==> db.t == old(db.t)
    {
      var fails: bool := *;
      if fails {
        return Err(());
      }
      db.t := WithoutAllIncoming(db.t, session);
      r := Ok(());
    }

    method PersistIncomingLoad(session: int) returns (r: Result<set<U16>, ()>)
      ensures r.Ok? ==> forall mid :: mid in r.value <==> Incoming(db.t, session, mid)
    {
      var fails: bool := *;
      if fails {
        return Err(());
      }
      var mids := set row | row in db.t.qosin && db.t.qosin[row].session == session :: db.t.qosin[row].mid;
      forall mid ensures mid in mids <==> Incoming(db.t, session, mid) {
        if mid in mids {
          var row :| row in db.t.qosin && db.t.qosin[row].session == session && db.t.qosin[row].mid == mid;
          assert InRow(db.t, row, session, mid);
        }
      }
      r := Ok(mids);
    }

    /** One transaction; the ids are whatever the tables give out, the time whatever the clock says. */
    method PersistOutStore(session: int, mid: U16, m: MQTTMessage) returns (r: Result<NewRow, ()>)
      requires m.Publish? || m.PubRec?
      modifies db
      ensures r.Ok? ==> r.value.row !in old(db.t).qosout && r.value.messageId !in old(db.t).messages &&
                        db.t == WithOut(old(db.t), r.value, session, mid, m)
      ensures r.Err? ==> db.t == old(db.t)
    {
      var row: int := *;
      var messageId: int := *;
      var now: int := *;
      if row in db.t.qosout || messageId in db.t.messages {
        return Err(());
      }
      var n := NewRow(row, messageId, now);
      db.t := WithOut(db.t, n, session, mid, m);
      r := Ok(n);
    }

    /** Fails when there is no row for the identifier. */
    method PersistOutDelete(session: int, mid: U16) returns (r: Result<int, ()>)
      modifies db
      ensures r.Ok? ==> r.value in old(db.t).qosout && IsOut(old(db.t).qosout[r.value], session, mid) &&
                        db.t == WithoutOut(old(db.t), session, mid, r.value)
      ensures r.Err? ==> db.t == old(db.t)
    {
      var first: int := *;
      if first !in db.t.qosout || !IsOut(db.t.qosout[first], session, mid) {
        return Err(());
      }
      db.t := WithoutOut(db.t, session, mid, first);
      r := Ok(first);
    }

    /** The row id is read back as 16 bits: beyond that the update is made and an error reported. */
    method PersistOutDup(session: int, mid: U16) returns (r: Result<(), ()>)
      modifies db
      ensures r.Ok? ==> db.t == WithDup(old(db.t), session, mid)
      ensures r.Err? ==> db.t == old(db.t) || db.t == WithDup(old(db.t), session, mid)
    {
      var row: int := *;
      if row !in db.t.qosout || !IsOut(db.t.qosout[row], session, mid) {
        return Err(());
      }
      db.t := WithDup(db.t, session, mid);
      r := if 0 <= row < 0x1_0000 then Ok(()) else Err(());
    }

    method PersistOutClear(session: int) returns (r: Result<(), ()>)
      modifies db
      ensures r.Ok? ==> db.t == WithoutAllOut(old(db.t), session)
      ensures r.Err? ==> db.t == old(db.t)
    {
      var fails: bool := *;
      if fails {
        return Err(());
      }
      db.t := WithoutAllOut(db.t, session);
      r := Ok(());
    }

    /** The rows of the session by rising time stamp; rows of the same time come in any order. */
    method PersistOutLoad(session: int) returns (r: Result<seq<MQTTMessage>, ()>)
      ensures r.Ok? ==> exists rows :: Reads(db.t, session, rows, r.value)
    {
      var fails: bool := *;
      if fails {
        return Err(());
      }
      var ids := ByTime(db.t, OutRows(db.t, session));
      assert forall i :: 0 <= i < |ids| ==> ids[i] in OutRows(db.t, session) by { Members(ids, OutRows(db.t, session)); }
      var out: seq<MQTTMessage> := [];
      var i := 0;
      while i < |ids|
        invariant 0 <= i <= |ids| && |out| == i
        invariant forall k :: 0 <= k < i ==> Loaded(db.t, ids[k]) == Some(out[k])
      {
        var m := Loaded(db.t, ids[i]);
        if m.None? {
          return Err(());
        }
        out := out + [m.value];
        i := i + 1;
      }
      assert Reads(db.t, session, ids, out);
      r := Ok(out);
    }
  }

  ghost predicate Rising(t: Tables, rows: seq<int>)
    requires forall i :: 0 <= i < |rows| ==> rows[i] in t.qosout
  {
    forall i, j :: 0 <= i < j < |rows| ==> t.qosout[rows[i]].received <= t.qosout[rows[j]].received
  }

  /** `entries` are what the queue rows of the session hold, row by row, by time. */
  ghost predicate Reads(t: Tables, session: int, rows: seq<int>, entries: seq<MQTTMessage>) {
    && BrokerTables.IsListing(rows, OutRows(t, session)) && |entries| == |rows|
    && (forall i :: 0 <= i < |rows| ==> rows[i] in t.qosout && Loaded(t, rows[i]) == Some(entries[i]))
    && Rising(t, rows)
  }

  /** The rows of a set, the earliest first. */
  method ByTime(t: Tables, s: set<int>) returns (rows: seq<int>)
    requires s <= t.qosout.Keys
    ensures BrokerTables.IsListing(rows, s)
    ensures (forall i :: 0 <= i < |rows| ==> rows[i] in t.qosout) && Rising(t, rows)
  {
    rows := [];
    var rest := s;
    while rest != {}
      invariant rest <= s && BrokerTables.IsListing(rows, s - rest)
      invariant (forall i :: 0 <= i < |rows| ==> rows[i] in t.qosout) && Rising(t, rows)
      invariant forall i, x :: 0 <= i < |rows| && x in rest ==> t.qosout[rows[i]].received <= t.qosout[x].received
      decreases rest
    {
      var x := Earliest(t, rest);
      var more := rows + [x];
      assert forall y :: y in more <==> y in rows || y == x;
      rows := more;
      rest := rest - {x};
    }
  }

  method Earliest(t: Tables, s: set<int>) returns (x: int)
    requires s != {} && s <= t.qosout.Keys
    ensures x in s && forall y :: y in s ==> t.qosout[x].received <= t.qosout[y].received
  {
    x := Pick(s);
    var rest := s - {x};
    while rest != {}
      invariant x in s && rest <= s
      invariant forall y :: y in s && y !in rest ==> t.qosout[x].received <= t.qosout[y].received
      decreases rest
    {
      var y := Pick(rest);
      if t.qosout[y].received < t.qosout[x].received {
        x := y;
      }
      rest := rest - {y};
    }
  }

  lemma Members(ids: seq<int>, s: set<int>)
    requires BrokerTables.IsListing(ids, s)
    ensures forall i :: 0 <= i < |ids| ==> ids[i] in s
  {}

  function SubscribedTopics(t: Tables, session: int): set<Str> {
    set r | r in t.subscriptions && t.subscriptions[r].session == session && t.subscriptions[r].topic in t.topics
      :: t.topics[t.subscriptions[r].topic].topic
  }
}
