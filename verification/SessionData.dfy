/** How a session's memory mirrors its rows. */
module SessionData {
  import opened Basics
  import opened Messages
  import opened Tables
  import opened SessionTables
  import opened Outgoing
  import opened History
  import BrokerTables

  /** Queue row `r` stores entry `x` of session `s`, but for the retain flag. */
  ghost predicate Stores(t: Tables, s: int, r: int, x: MQTTMessage) {
    && r in t.qosout && t.qosout[r].session == s && t.qosout[r].mid == Mid(x)
    && match x
       case Publish(p) =>
         t.qosout[r].kind == OutPublish && t.qosout[r].dup == p.dup && t.qosout[r].message.Some? &&
         var k := t.qosout[r].message.value; k in t.messages && t.messages[k] == RowOf(p)
       case _ => t.qosout[r].kind == OutPubRec && t.qosout[r].message.None?
  }

  ghost predicate Stored(t: Tables, s: int, x: MQTTMessage) {
    exists r :: Stores(t, s, r, x)
  }

  ghost predicate Backed(t: Tables, s: int, r: int, q: Queue) {
    exists i :: 0 <= i < |q| && Stores(t, s, r, q[i])
  }

  /** At most one row for an identifier. */
  ghost predicate OneRowEach(t: Tables, s: int) {
    forall r, r' :: r in t.qosout && r' in t.qosout && IsOut(t.qosout[r'], s, t.qosout[r].mid) && t.qosout[r].session == s ==> r == r'
  }

  /** The queue and its rows agree, up to the order of the rows. */
  ghost predicate QueueAgree(q: Queue, t: Tables, s: int) {
    && WellFormed(q) && OneRowEach(t, s)
    && (forall i :: 0 <= i < |q| ==> Stored(t, s, q[i]))
    && (forall r :: r in t.qosout && t.qosout[r].session == s ==> Backed(t, s, r, q))
  }

  ghost predicate IncomingAgree(mids: set<U16>, t: Tables, s: int) {
    forall mid :: mid in mids <==> Incoming(t, s, mid)
  }

  /** Rows a session can be started from. */
  ghost predicate Loadable(t: Tables, s: int) {
    OneRowEach(t, s) && forall r :: r in t.qosout && t.qosout[r].session == s ==> GoodRow(t, r)
  }

  ghost predicate GoodRow(t: Tables, r: int)
    requires r in t.qosout
  {
    Loaded(t, r).Some? && IsEntry(Loaded(t, r).value) && (t.qosout[r].kind == OutPubRec ==> t.qosout[r].message.None?)
  }

  // ----- storing -----

  lemma NewRowStores(t: Tables, s: int, n: NewRow, x: MQTTMessage)
    requires IsEntry(x) && (x.Publish? ==> !x.publish.dup) && n.row !in t.qosout && n.messageId !in t.messages
    ensures var u := WithOut(t, n, s, Mid(x), x);
            && Stores(u, s, n.row, x) && u.qosout.Keys == t.qosout.Keys + {n.row}
            && forall r :: r in t.qosout ==> u.qosout[r] == t.qosout[r]
  {}

  lemma OldRowStores(t: Tables, s: int, n: NewRow, x: MQTTMessage, r: int, y: MQTTMessage)
    requires n.row !in t.qosout && n.messageId !in t.messages && Stores(t, s, r, y)
    ensures Stores(WithOut(t, n, s, Mid(x), x), s, r, y)
  {}

  lemma StoresMid(t: Tables, s: int, r: int, x: MQTTMessage)
    requires Stores(t, s, r, x)
    ensures r in t.qosout && t.qosout[r].session == s && t.qosout[r].mid == Mid(x)
  {}

  lemma StoreAgree(q: Queue, t: Tables, s: int, n: NewRow, x: MQTTMessage)
    requires QueueAgree(q, t, s) && IsEntry(x) && Mid(x) !in Ids(q) && (x.Publish? ==> !x.publish.dup)
    requires n.row !in t.qosout && n.messageId !in t.messages
    ensures QueueAgree(q + [x], WithOut(t, n, s, Mid(x), x), s)
  {
    hide Stores, WithOut;
    var u, w := WithOut(t, n, s, Mid(x), x), q + [x];
    AppendIds(q, x);
    NewRowStores(t, s, n, x);
    StoresMid(u, s, n.row, x);
    forall r | r in t.qosout && t.qosout[r].session == s ensures t.qosout[r].mid != Mid(x) {
      RowOfMid(q, t, s, r);
    }
    hide WellFormed, Ids;
    forall i | 0 <= i < |w| ensures Stored(u, s, w[i]) {
      if i < |q| {
        var r :| Stores(t, s, r, q[i]);
        OldRowStores(t, s, n, x, r, q[i]);
      } else {
        assert Stores(u, s, n.row, w[i]);
      }
    }
    forall r | r in u.qosout && u.qosout[r].session == s ensures Backed(u, s, r, w) {
      if r == n.row {
        assert Stores(u, s, r, w[|q|]);
      } else {
        assert Backed(t, s, r, q);
        var i :| 0 <= i < |q| && Stores(t, s, r, q[i]);
        OldRowStores(t, s, n, x, r, q[i]);
        assert Stores(u, s, r, w[i]);
      }
    }
  }

  lemma StoreConserved(t: Tables, s: int, n: NewRow, x: MQTTMessage)
    requires n.row !in t.qosout && n.messageId !in t.messages
    ensures Tidy(t, WithOut(t, n, s, Mid(x), x)) && SessionFrame(t, WithOut(t, n, s, Mid(x), x), s)
  {
    var u := WithOut(t, n, s, Mid(x), x);
    forall i, m ensures RetainedRef(u, i, m) <==> RetainedRef(t, i, m) {}
    forall r, m ensures OutRef(u, r, m) <==> OutRef(t, r, m) || (x.Publish? && r == n.row && m == n.messageId) {}
    if x.Publish? {
      assert OutRef(u, n.row, n.messageId);
    }
    if Owned(t) {
      assert !Referenced(t, n.messageId);
      StoredOwned(t, u, n.row, n.messageId, x);
    }
  }

  lemma StoredOwned(t: Tables, u: Tables, row: int, k: int, x: MQTTMessage)
    requires Owned(t) && !Referenced(t, k)
    requires forall i, m :: RetainedRef(u, i, m) <==> RetainedRef(t, i, m)
    requires forall r, m :: OutRef(u, r, m) <==> OutRef(t, r, m) || (x.Publish? && r == row && m == k)
    requires forall m :: m in u.messages <==> m in t.messages || (x.Publish? && m == k)
    ensures Tidy(t, u)
  {
    hide RetainedRef, OutRef;
    forall m ensures Referenced(u, m) <==> Referenced(t, m) || (x.Publish? && m == k) {
      assert x.Publish? ==> OutRef(u, row, k);
    }
  }

  // ----- deleting -----

  lemma RowOfMid(q: Queue, t: Tables, s: int, r: int)
    requires QueueAgree(q, t, s) && r in t.qosout && t.qosout[r].session == s
    ensures t.qosout[r].mid in Ids(q)
  {}

  lemma DeletedRows(t: Tables, s: int, mid: U16, first: int)
    requires first in t.qosout
    ensures var u := WithoutOut(t, s, mid, first);
            forall r :: r in u.qosout <==> r in t.qosout && !IsOut(t.qosout[r], s, mid)
    ensures var u := WithoutOut(t, s, mid, first);
            forall r :: r in u.qosout ==> u.qosout[r] == t.qosout[r]
  {}

  lemma DeleteAgree(q: Queue, t: Tables, s: int, mid: U16, first: int)
    requires QueueAgree(q, t, s) && Owned(t) && first in t.qosout && IsOut(t.qosout[first], s, mid)
    ensures QueueAgree(Without(q, mid), WithoutOut(t, s, mid, first), s)
  {
    hide Owned, Stores, WithoutOut, Without;
    var u, w := WithoutOut(t, s, mid, first), Without(q, mid);
    WithoutIds(q, mid);
    DeletedRows(t, s, mid, first);
    forall i | 0 <= i < |w| ensures Stored(u, s, w[i]) {
      assert Mid(w[i]) in Ids(w);
      var j := FromWithout(q, mid, i);
      assert Stored(t, s, q[j]);
      var r :| Stores(t, s, r, q[j]);
      StaysStored(t, s, mid, first, r, q[j]);
    }
    hide WellFormed, Ids;
    forall r | r in u.qosout && u.qosout[r].session == s ensures Backed(u, s, r, w) {
      assert Backed(t, s, r, q);
      var i :| 0 <= i < |q| && Stores(t, s, r, q[i]);
      StoresMid(t, s, r, q[i]);
      StaysStored(t, s, mid, first, r, q[i]);
      WithoutKeeps(q, mid, i);
      var j :| 0 <= j < |w| && w[j] == q[i];
      assert Stores(u, s, r, w[j]);
    }
  }

  lemma FromWithout(q: Queue, mid: U16, i: nat) returns (j: nat)
    requires i < |Without(q, mid)|
    ensures j < |q| && q[j] == Without(q, mid)[i]
  {
    j := if i < Position(q, mid) then i else i + 1;
    if Position(q, mid) == |q| {
      j := i;
    }
  }

  lemma StaysStored(t: Tables, s: int, mid: U16, first: int, r: int, x: MQTTMessage)
    requires Owned(t) && first in t.qosout && IsOut(t.qosout[first], s, mid) && Stores(t, s, r, x) && Mid(x) != mid
    ensures Stores(WithoutOut(t, s, mid, first), s, r, x)
  {
    assert r != first;
    if x.Publish? && t.qosout[first].message.Some? {
      assert OutRef(t, r, t.qosout[r].message.value) && OutRef(t, first, t.qosout[first].message.value);
    }
  }

  lemma DeleteConserved(t: Tables, s: int, mid: U16, first: int)
    requires Owned(t) && OneRowEach(t, s) && first in t.qosout && IsOut(t.qosout[first], s, mid)
    ensures Tidy(t, WithoutOut(t, s, mid, first)) && SessionFrame(t, WithoutOut(t, s, mid, first), s)
  {
    var u := WithoutOut(t, s, mid, first);
    forall r | r in t.qosout && r != first ensures !IsOut(t.qosout[r], s, mid) {}
    forall i, m ensures RetainedRef(u, i, m) <==> RetainedRef(t, i, m) {}
    forall r, m ensures OutRef(u, r, m) <==> OutRef(t, r, m) && r != first {}
    assert forall m :: t.qosout[first].message == Some(m) <==> OutRef(t, first, m);
    DeletedOwned(t, u, first);
  }

  lemma DeletedOwned(t: Tables, u: Tables, first: int)
    requires Owned(t)
    requires forall i, m :: RetainedRef(u, i, m) <==> RetainedRef(t, i, m)
    requires forall r, m :: OutRef(u, r, m) <==> OutRef(t, r, m) && r != first
    requires forall m :: m in u.messages <==> m in t.messages && !OutRef(t, first, m)
    ensures Tidy(t, u)
  {
    hide RetainedRef, OutRef;
    forall m ensures Referenced(u, m) <==> Referenced(t, m) && !OutRef(t, first, m) {}
  }

  // ----- dup -----

  lemma DupStores(t: Tables, s: int, mid: U16, r: int, x: MQTTMessage)
    requires Stores(t, s, r, x)
    ensures Stores(WithDup(t, s, mid), s, r, if Mid(x) == mid then SetDup(x) else x)
  {}

  lemma DupRows(t: Tables, s: int, mid: U16)
    ensures var u := WithDup(t, s, mid);
            && u.qosout.Keys == t.qosout.Keys
            && forall r :: r in t.qosout ==> u.qosout[r].session == t.qosout[r].session && u.qosout[r].mid == t.qosout[r].mid
  {}

  lemma DupAgree(q: Queue, t: Tables, s: int, mid: U16)
    requires QueueAgree(q, t, s)
    requires Waits(q, mid)
    ensures QueueAgree(Apply(q, Marked(mid)), WithDup(t, s, mid), s)
  {
    hide Stores, WithDup, SetDup, Ids;
    var u, p := WithDup(t, s, mid), Position(q, mid);
    var w := q[p := SetDup(q[p])];
    DupIds(q, p);
    DupRows(t, s, mid);
    forall i | 0 <= i < |q| ensures w[i] == if Mid(q[i]) == mid then SetDup(q[i]) else q[i] {
      if i != p {
        OtherMid(q, mid, i);
      }
    }
    hide WellFormed;
    forall i | 0 <= i < |w| ensures Stored(u, s, w[i]) {
      var r :| Stores(t, s, r, q[i]);
      DupStores(t, s, mid, r, q[i]);
    }
    forall r | r in u.qosout && u.qosout[r].session == s ensures Backed(u, s, r, w) {
      assert Backed(t, s, r, q);
      var i :| 0 <= i < |q| && Stores(t, s, r, q[i]);
      DupStores(t, s, mid, r, q[i]);
      assert Stores(u, s, r, w[i]);
    }
  }

  lemma DupConserved(t: Tables, s: int, mid: U16)
    ensures Tidy(t, WithDup(t, s, mid)) && SessionFrame(t, WithDup(t, s, mid), s)
  {
    BrokerTables.SameReferences(t, WithDup(t, s, mid));
  }

  // ----- clearing -----

  lemma ClearAgree(t: Tables, s: int)
    ensures QueueAgree([], WithoutAllOut(t, s), s)
  {}

  /** The messages that go are those of the session's queue rows. */
  lemma ClearedMessage(t: Tables, s: int, m: int)
    ensures m in WithoutAllOut(t, s).messages <==>
            m in t.messages && forall r :: OutRef(t, r, m) ==> t.qosout[r].session != s
  {
    if forall r :: OutRef(t, r, m) ==> t.qosout[r].session != s {
    } else {
      var r :| OutRef(t, r, m) && t.qosout[r].session == s;
      assert r in t.qosout && t.qosout[r].message == Some(m);
    }
  }

  lemma ClearConserved(t: Tables, s: int)
    requires Owned(t)
    ensures Tidy(t, WithoutAllOut(t, s)) && SessionFrame(t, WithoutAllOut(t, s), s)
  {
    var u := WithoutAllOut(t, s);
    assert forall i, m :: RetainedRef(u, i, m) <==> RetainedRef(t, i, m);
    assert forall r, m :: OutRef(u, r, m) <==> OutRef(t, r, m) && t.qosout[r].session != s;
    forall m ensures m in u.messages <==> m in t.messages && forall r :: OutRef(t, r, m) ==> t.qosout[r].session != s {
      ClearedMessage(t, s, m);
    }
    ClearedOwned(t, u, s);
  }

  lemma ClearedOwned(t: Tables, u: Tables, s: int)
    requires Owned(t)
    requires forall i, m :: RetainedRef(u, i, m) <==> RetainedRef(t, i, m)
    requires forall r, m :: OutRef(u, r, m) <==> OutRef(t, r, m) && t.qosout[r].session != s
    requires forall m :: m in u.messages <==> m in t.messages && forall r :: OutRef(t, r, m) ==> t.qosout[r].session != s
    ensures Tidy(t, u)
  {
    hide RetainedRef;
    forall m | Referenced(u, m) ensures m in u.messages {
      if r :| OutRef(u, r, m) {
      } else {
        assert exists i :: RetainedRef(t, i, m);
      }
    }
    if Conserved(t) {
      forall m | m in u.messages ensures Referenced(u, m) {
        assert Referenced(t, m);
      }
    }
  }

  // ----- loading -----

  lemma RowStores(t: Tables, s: int, r: int, x: MQTTMessage)
    requires r in t.qosout && t.qosout[r].session == s && GoodRow(t, r) && Loaded(t, r) == Some(x)
    ensures IsEntry(x) && Stores(t, s, r, x) && Mid(x) == t.qosout[r].mid
  {}

  lemma LoadAgree(t: Tables, s: int, rows: seq<int>, q: Queue)
    requires Loadable(t, s) && Reads(t, s, rows, q)
    ensures QueueAgree(q, t, s)
  {
    Members(rows, OutRows(t, s));
    hide Stores, Loaded, GoodRow;
    forall i | 0 <= i < |q| ensures IsEntry(q[i]) && Stores(t, s, rows[i], q[i]) && Mid(q[i]) == t.qosout[rows[i]].mid {
      RowStores(t, s, rows[i], q[i]);
    }
    assert WellFormed(q) by {
      forall i, j | 0 <= i < j < |q| ensures Mid(q[i]) != Mid(q[j]) {
        assert rows[i] != rows[j] && rows[i] in OutRows(t, s) && rows[j] in OutRows(t, s);
      }
    }
    hide WellFormed, OneRowEach;
    forall r | r in t.qosout && t.qosout[r].session == s ensures Backed(t, s, r, q) {
      assert r in OutRows(t, s);
      assert r in rows;
      var i :| 0 <= i < |rows| && rows[i] == r;
      assert Stores(t, s, r, q[i]);
    }
  }

  /** The same PUBREC, or a PUBLISH that differs in the retain flag at most. */
  ghost predicate SameButRetain(x: MQTTMessage, y: MQTTMessage) {
    if x.Publish? then y.Publish? && y.publish.(retain := x.publish.retain) == x.publish else y == x
  }

  lemma SameStored(t: Tables, s: int, x: MQTTMessage, y: MQTTMessage)
    requires Stored(t, s, x) && Stored(t, s, y) && OneRowEach(t, s) && IsEntry(x) && IsEntry(y) && Mid(x) == Mid(y)
    ensures Reread(x) == Reread(y) && SameButRetain(x, y)
  {
    var r, r' :| Stores(t, s, r, x) && Stores(t, s, r', y);
    assert IsOut(t.qosout[r'], s, t.qosout[r].mid);
  }

  lemma SharedIds(q: Queue, w: Queue, t: Tables, s: int, mid: U16)
    requires QueueAgree(q, t, s) && QueueAgree(w, t, s) && mid in Ids(q)
    ensures mid in Ids(w)
  {
    var i :| 0 <= i < |q| && Mid(q[i]) == mid;
    assert Stored(t, s, q[i]);
    var r :| Stores(t, s, r, q[i]);
    assert Backed(t, s, r, w);
    var j :| 0 <= j < |w| && Stores(t, s, r, w[j]);
    assert Mid(w[j]) == mid;
  }

  /** Two queues in agreement with the same rows hold the same entries, up to order and retain flags. */
  lemma SameRowsSameQueue(q: Queue, w: Queue, t: Tables, s: int)
    requires QueueAgree(q, t, s) && QueueAgree(w, t, s)
    ensures Ids(q) == Ids(w)
    ensures forall i, j :: 0 <= i < |q| && 0 <= j < |w| && Mid(q[i]) == Mid(w[j]) ==>
              Reread(q[i]) == Reread(w[j]) && SameButRetain(q[i], w[j])
  {
    hide Stored, OneRowEach, Backed, Reread, SameButRetain, Ids;
    forall mid ensures mid in Ids(q) <==> mid in Ids(w) {
      if mid in Ids(q) {
        SharedIds(q, w, t, s, mid);
      }
      if mid in Ids(w) {
        SharedIds(w, q, t, s, mid);
      }
    }
    forall i, j | 0 <= i < |q| && 0 <= j < |w| && Mid(q[i]) == Mid(w[j])
      ensures Reread(q[i]) == Reread(w[j]) && SameButRetain(q[i], w[j])
    {
      SameStored(t, s, q[i], w[j]);
    }
  }

  // ----- the history in the tables -----

  /** The queue rows and the counter of a session are what its history says. */
  ghost predicate Recorded(t: Tables, s: int, h: seq<Change>) {
    && Lawful(h) && s in t.sessions && t.sessions[s].nextMid == Counter(h)
    && (forall r :: r in t.qosout && t.qosout[r].session == s ==> Loaded(t, r).Some? && Loaded(t, r) == View(h, t.qosout[r].mid))
    && (forall mid :: View(h, mid).Some? ==> HasOut(t, s, mid))
  }

  ghost predicate HasOut(t: Tables, s: int, mid: U16) {
    exists r :: r in t.qosout && IsOut(t.qosout[r], s, mid)
  }

  lemma StoresLoaded(t: Tables, s: int, r: int, x: MQTTMessage)
    requires Stores(t, s, r, x) && IsEntry(x)
    ensures Loaded(t, r) == Some(Reread(x))
  {}

  /** Memory that follows the history and agrees with the rows has it on record. */
  lemma AgreeRecorded(q: Queue, t: Tables, s: int, h: seq<Change>)
    requires QueueAgree(q, t, s) && s in t.sessions && Follows(q, t.sessions[s].nextMid, h)
    ensures Recorded(t, s, h)
  {
    hide Stores, View, Lawful, Loaded;
    forall r | r in t.qosout && t.qosout[r].session == s ensures Loaded(t, r).Some? && Loaded(t, r) == View(h, t.qosout[r].mid) {
      assert Backed(t, s, r, q);
      var i :| 0 <= i < |q| && Stores(t, s, r, q[i]);
      StoresMid(t, s, r, q[i]);
      StoresLoaded(t, s, r, q[i]);
      PositionIs(q, Mid(q[i]), i);
      assert Look(q, Mid(q[i])) == View(h, Mid(q[i]));
    }
    forall mid | View(h, mid).Some? ensures HasOut(t, s, mid) {
      assert Look(q, mid) == View(h, mid);
      var i := Position(q, mid);
      var r :| Stores(t, s, r, q[i]);
      StoresMid(t, s, r, q[i]);
    }
  }

  /** What is read back follows the history on record. */
  lemma LoadFollows(t: Tables, s: int, rows: seq<int>, q: Queue, h: seq<Change>)
    requires Loadable(t, s) && Reads(t, s, rows, q) && Recorded(t, s, h)
    ensures Follows(q, t.sessions[s].nextMid, h)
  {
    Members(rows, OutRows(t, s));
    hide Lawful, View, Loaded;
    forall i | 0 <= i < |q| ensures View(h, Mid(q[i])) == Some(Reread(q[i])) {
      ReadBack(t, s, rows[i], q[i]);
    }
    forall mid ensures Look(q, mid) == View(h, mid) {
      if Position(q, mid) == |q| && View(h, mid).Some? {
        assert HasOut(t, s, mid);
        var r :| r in t.qosout && IsOut(t.qosout[r], s, mid);
        assert r in OutRows(t, s);
        var i :| 0 <= i < |rows| && rows[i] == r;
        ReadBack(t, s, rows[i], q[i]);
        assert false;
      }
    }
  }

  lemma ReadBack(t: Tables, s: int, r: int, x: MQTTMessage)
    requires r in t.qosout && t.qosout[r].session == s && Loaded(t, r) == Some(x)
    ensures Reread(x) == x && Mid(x) == t.qosout[r].mid
  {}

  /** A PUBLISH that went out without its mark being stored is sent without dup by whoever starts next. */
  lemma UnmarkedSentAgain(t: Tables, s: int, m: Memory, i: nat, rows: seq<int>, q: Queue) returns (j: nat)
    requires InStep(t, s, m) && i < |m.queue| && m.queue[i].Publish? && !m.queue[i].publish.dup
    requires Reads(t, s, rows, q)
    ensures j < |q| && Replay(q)[j] == Reread(m.queue[i]) && !Replay(q)[j].publish.dup
  {
    hide Stores, Loaded, Sane;
    assert Stored(t, s, m.queue[i]);
    var r :| Stores(t, s, r, m.queue[i]);
    StoresMid(t, s, r, m.queue[i]);
    StoresLoaded(t, s, r, m.queue[i]);
    assert r in OutRows(t, s);
    assert r in rows;
    j :| 0 <= j < |rows| && rows[j] == r;
  }

  // ----- others are not touched -----

  /** A session keeps its agreement whatever another session does to the tables. */
  lemma AgreeUnderOther(q: Queue, mids: set<U16>, t: Tables, u: Tables, s: int, other: int)
    requires QueueAgree(q, t, s) && IncomingAgree(mids, t, s) && SessionFrame(t, u, other) && s != other
    ensures QueueAgree(q, u, s) && IncomingAgree(mids, u, s)
  {
    forall r, x | Stores(t, s, r, x) ensures Stores(u, s, r, x) {
      if x.Publish? {
        assert OutRef(t, r, t.qosout[r].message.value);
      }
    }
    SameStores(q, t, u, s);
    forall mid ensures Incoming(t, s, mid) <==> Incoming(u, s, mid) {
      assert forall r :: InRow(t, r, s, mid) <==> InRow(u, r, s, mid);
    }
  }

  /** A session keeps its agreement whatever the router does to the tables. */
  lemma AgreeUnderRouter(q: Queue, mids: set<U16>, t: Tables, u: Tables, s: int)
    requires QueueAgree(q, t, s) && IncomingAgree(mids, t, s) && RouterFrame(t, u)
    ensures QueueAgree(q, u, s) && IncomingAgree(mids, u, s)
  {
    forall r, x | Stores(t, s, r, x) ensures Stores(u, s, r, x) {
      if x.Publish? {
        assert OutRef(t, r, t.qosout[r].message.value);
      }
    }
    SameStores(q, t, u, s);
    forall mid ensures Incoming(t, s, mid) <==> Incoming(u, s, mid) {
      assert forall r :: InRow(t, r, s, mid) <==> InRow(u, r, s, mid);
    }
  }

  lemma SameStores(q: Queue, t: Tables, u: Tables, s: int)
    requires QueueAgree(q, t, s)
    requires forall r, x :: Stores(t, s, r, x) ==> Stores(u, s, r, x)
    requires forall r :: r in u.qosout && u.qosout[r].session == s ==> r in t.qosout && t.qosout[r] == u.qosout[r]
    ensures QueueAgree(q, u, s)
  {}

  // ----- a session in step with its tables -----

  /** The tables as a whole: names are unique, queue rows belong to sessions, references to messages have no other. */
  ghost predicate Sane(t: Tables) {
    && NamesUnique(t) && Owned(t)
    && (forall r :: r in t.qosout ==> t.qosout[r].session in t.sessions)
    && (forall r :: r in t.qosin ==> t.qosin[r].session in t.sessions)
  }

  /** What a session holds in memory and must find again after a restart. */
  datatype Memory = Memory(name: Str, generation: int, nextMid: U16, incoming: set<U16>, queue: Queue)

  ghost predicate InStep(t: Tables, s: int, m: Memory) {
    && Sane(t) && s in t.sessions && t.sessions[s] == SessionRow(m.name, m.generation, m.nextMid)
    && IncomingAgree(m.incoming, t, s) && QueueAgree(m.queue, t, s)
  }

  /** Tables a session of this name can be started from. */
  ghost predicate Startable(t: Tables, s: int, name: Str) {
    Sane(t) && s in t.sessions && t.sessions[s].name == name && Loadable(t, s)
  }

  lemma InStepStartable(t: Tables, s: int, m: Memory)
    requires InStep(t, s, m)
    ensures Startable(t, s, m.name) && IncomingAgree(m.incoming, t, s)
  {}

  lemma InStepRecorded(t: Tables, s: int, m: Memory, h: seq<Change>)
    requires InStep(t, s, m) && Follows(m.queue, m.nextMid, h)
    ensures Recorded(t, s, h)
  {
    hide QueueAgree, Sane, Follows;
    AgreeRecorded(m.queue, t, s, h);
  }

  /** A packet leaves rows and counter alone. */
  lemma RecordedPacket(t: Tables, s: int, h: seq<Change>, c: Change)
    requires Recorded(t, s, h) && Possible(h, c) && Packet(c) != []
    ensures Recorded(t, s, h + [c])
  {
    hide View, Lawful, Counter, Loaded, Possible;
    LawfulStep(h, c);
    CounterStep(h, c);
    forall mid ensures View(h + [c], mid) == View(h, mid) {
      ViewStep(h, c, mid);
    }
  }

  lemma InStepWellFormed(t: Tables, s: int, m: Memory)
    requires InStep(t, s, m)
    ensures WellFormed(m.queue)
  {}

  lemma SessionFrameRefl(t: Tables, s: int)
    ensures SessionFrame(t, t, s)
  {}

  lemma SessionFrameTrans(t: Tables, u: Tables, v: Tables, s: int)
    requires SessionFrame(t, u, s) && SessionFrame(u, v, s)
    ensures SessionFrame(t, v, s)
  {
    forall i, m | RetainedRef(t, i, m) && m in t.messages ensures m in v.messages && v.messages[m] == t.messages[m] {
      assert RetainedRef(u, i, m);
    }
    forall r, m | OutRef(t, r, m) && t.qosout[r].session != s && m in t.messages
      ensures m in v.messages && v.messages[m] == t.messages[m]
    {
      assert OutRef(u, r, m);
    }
  }

  lemma StoreInStep(t: Tables, s: int, m: Memory, n: NewRow, x: MQTTMessage)
    requires InStep(t, s, m) && IsEntry(x) && Mid(x) !in Ids(m.queue) && (x.Publish? ==> !x.publish.dup)
    requires n.row !in t.qosout && n.messageId !in t.messages
    ensures var u := WithOut(t, n, s, Mid(x), x); InStep(u, s, m.(queue := m.queue + [x])) && SessionFrame(t, u, s)
  {
    hide QueueAgree, Owned, SessionFrame;
    StoreAgree(m.queue, t, s, n, x);
    StoreConserved(t, s, n, x);
    SameIncoming(m.incoming, t, WithOut(t, n, s, Mid(x), x), s);
  }

  lemma DeleteInStep(t: Tables, s: int, m: Memory, mid: U16, first: int)
    requires InStep(t, s, m) && first in t.qosout && IsOut(t.qosout[first], s, mid)
    ensures var u := WithoutOut(t, s, mid, first);
            InStep(u, s, m.(queue := Without(m.queue, mid))) && SessionFrame(t, u, s)
  {
    hide Owned, SessionFrame, WellFormed, Stored, Backed;
    DeleteAgree(m.queue, t, s, mid, first);
    DeleteConserved(t, s, mid, first);
    SameIncoming(m.incoming, t, WithoutOut(t, s, mid, first), s);
  }

  lemma DupInStep(t: Tables, s: int, m: Memory, mid: U16)
    requires InStep(t, s, m) && Waits(m.queue, mid)
    ensures var u := WithDup(t, s, mid);
            InStep(u, s, m.(queue := Apply(m.queue, Marked(mid)))) && SessionFrame(t, u, s)
  {
    hide Owned, SessionFrame, QueueAgree;
    DupAgree(m.queue, t, s, mid);
    DupConserved(t, s, mid);
    SameIncoming(m.incoming, t, WithDup(t, s, mid), s);
  }

  lemma ClearInStep(t: Tables, s: int, m: Memory)
    requires InStep(t, s, m)
    ensures InStep(WithoutAllOut(t, s), s, m.(queue := [])) && SessionFrame(t, WithoutAllOut(t, s), s)
  {
    hide Owned, SessionFrame, QueueAgree;
    ClearAgree(t, s);
    ClearConserved(t, s);
    SameIncoming(m.incoming, t, WithoutAllOut(t, s), s);
  }

  lemma SameIncoming(mids: set<U16>, t: Tables, u: Tables, s: int)
    requires IncomingAgree(mids, t, s) && u.qosin == t.qosin
    ensures IncomingAgree(mids, u, s)
  {
    forall mid ensures Incoming(t, s, mid) <==> Incoming(u, s, mid) {
      assert forall r :: InRow(t, r, s, mid) <==> InRow(u, r, s, mid);
    }
  }

  /** Changes to `sessions` and `qosin` leave queue and messages alone. */
  lemma AsideInStep(q: Queue, t: Tables, u: Tables, s: int)
    requires QueueAgree(q, t, s)
    requires u == t.(sessions := u.sessions, qosin := u.qosin)
    ensures QueueAgree(q, u, s) && Tidy(t, u)
  {
    BrokerTables.SameReferences(t, u);
    assert forall r, x :: Stores(t, s, r, x) <==> Stores(u, s, r, x);
    SameStores(q, t, u, s);
  }

  /** Nothing but the session's own row and its incoming identifiers is touched. */
  lemma AsideFrame(t: Tables, u: Tables, s: int)
    requires u == t.(sessions := u.sessions, qosin := u.qosin) && Tidy(t, u)
    requires t.sessions.Keys <= u.sessions.Keys <= t.sessions.Keys + {s} && (s in t.sessions ==> u.sessions[s].name == t.sessions[s].name)
    requires forall i :: i in t.sessions && i != s ==> u.sessions[i] == t.sessions[i]
    requires forall r :: r in t.qosin && t.qosin[r].session != s ==> r in u.qosin && u.qosin[r] == t.qosin[r]
    requires forall r :: r in u.qosin && u.qosin[r].session != s ==> r in t.qosin && t.qosin[r] == u.qosin[r]
    ensures SessionFrame(t, u, s)
  {
    hide Tidy;
    assert forall r, m :: OutRef(u, r, m) <==> OutRef(t, r, m);
  }

  lemma ReceiveInStep(t: Tables, s: int, m: Memory, row: int, mid: U16)
    requires InStep(t, s, m) && row !in t.qosin
    ensures var u := WithIncoming(t, row, s, mid);
            InStep(u, s, m.(incoming := m.incoming + {mid})) && SessionFrame(t, u, s)
  {
    var u := WithIncoming(t, row, s, mid);
    AsideInStep(m.queue, t, u, s);
    AsideFrame(t, u, s);
    hide Owned, Conserved, QueueAgree, SessionFrame;
    forall x ensures Incoming(u, s, x) <==> Incoming(t, s, x) || x == mid {
      assert forall r :: InRow(u, r, s, x) <==> InRow(t, r, s, x) || (r == row && x == mid);
      assert x == mid ==> InRow(u, row, s, x);
    }
  }

  lemma ReleaseInStep(t: Tables, s: int, m: Memory, mid: U16)
    requires InStep(t, s, m)
    ensures var u := WithoutIncoming(t, s, mid);
            InStep(u, s, m.(incoming := m.incoming - {mid})) && SessionFrame(t, u, s)
  {
    var u := WithoutIncoming(t, s, mid);
    AsideInStep(m.queue, t, u, s);
    AsideFrame(t, u, s);
    hide Owned, Conserved, QueueAgree, SessionFrame;
    forall x ensures Incoming(u, s, x) <==> Incoming(t, s, x) && x != mid {
      assert forall r :: InRow(u, r, s, x) <==> InRow(t, r, s, x) && x != mid;
    }
  }

  lemma ResetInStep(t: Tables, s: int, m: Memory)
    requires InStep(t, s, m)
    ensures var u := WithoutAllIncoming(t, s); InStep(u, s, m.(incoming := {})) && SessionFrame(t, u, s)
  {
    var u := WithoutAllIncoming(t, s);
    AsideInStep(m.queue, t, u, s);
    AsideFrame(t, u, s);
    hide Owned, Conserved, QueueAgree, SessionFrame;
    forall x ensures !Incoming(u, s, x) {
      assert forall r :: !InRow(u, r, s, x);
    }
  }

  lemma NextMidInStep(t: Tables, s: int, m: Memory, mid: U16)
    requires InStep(t, s, m)
    ensures InStep(WithNextMid(t, s, mid), s, m.(nextMid := mid)) && SessionFrame(t, WithNextMid(t, s, mid), s)
  {
    AsideInStep(m.queue, t, WithNextMid(t, s, mid), s);
    AsideFrame(t, WithNextMid(t, s, mid), s);
    hide Owned, Conserved, QueueAgree, SessionFrame, IncomingAgree;
    SameIncoming(m.incoming, t, WithNextMid(t, s, mid), s);
  }

  lemma GenerationInStep(t: Tables, s: int, m: Memory, generation: int)
    requires InStep(t, s, m)
    ensures var u := WithGeneration(t, s, generation);
            InStep(u, s, m.(generation := generation, nextMid := 1)) && SessionFrame(t, u, s)
  {
    AsideInStep(m.queue, t, WithGeneration(t, s, generation), s);
    AsideFrame(t, WithGeneration(t, s, generation), s);
    hide Owned, Conserved, QueueAgree, SessionFrame, IncomingAgree;
    SameIncoming(m.incoming, t, WithGeneration(t, s, generation), s);
  }

  lemma NewInStep(t: Tables, s: int, name: Str)
    requires Sane(t) && s !in t.sessions && NoRow(t, name)
    ensures var u := WithSession(t, s, name);
            InStep(u, s, Memory(name, 0, 1, {}, [])) && SessionFrame(t, u, s)
  {
    hide Owned, Conserved, SessionFrame, QueueAgree;
    var u := WithSession(t, s, name);
    NothingAgrees(t, s);
    AsideInStep([], t, u, s);
    AsideFrame(t, u, s);
    forall x ensures !Incoming(u, s, x) {
      assert forall r :: !InRow(u, r, s, x);
    }
  }

  lemma NothingAgrees(t: Tables, s: int)
    requires Sane(t) && s !in t.sessions
    ensures QueueAgree([], t, s)
  {
    assert forall r :: r in t.qosout ==> t.qosout[r].session != s;
  }

  /** Stopping a session in step and starting it again gives the same memory, up to order and retain flags. */
  lemma RestartRestores(t: Tables, s: int, m: Memory, s': int, m': Memory)
    requires InStep(t, s, m) && InStep(t, s', m') && m.name == m'.name
    ensures s == s' && m.generation == m'.generation && m.nextMid == m'.nextMid && m.incoming == m'.incoming
    ensures Ids(m.queue) == Ids(m'.queue)
    ensures forall i, j :: 0 <= i < |m.queue| && 0 <= j < |m'.queue| && Mid(m.queue[i]) == Mid(m'.queue[j]) ==>
              Reread(m.queue[i]) == Reread(m'.queue[j]) && SameButRetain(m.queue[i], m'.queue[j])
  {
    hide QueueAgree, Ids, Reread, SameButRetain, Incoming;
    assert s == s';
    SameRowsSameQueue(m.queue, m'.queue, t, s);
    assert forall mid :: mid in m.incoming <==> mid in m'.incoming;
  }

  /** Sessions and router share the tables without disturbing one another. */
  lemma InStepUnderOther(t: Tables, u: Tables, s: int, m: Memory, other: int)
    requires InStep(t, s, m) && SessionFrame(t, u, other) && Sane(u) && s != other
    ensures InStep(u, s, m)
  {
    hide Owned;
    AgreeUnderOther(m.queue, m.incoming, t, u, s, other);
  }

  lemma InStepUnderRouter(t: Tables, u: Tables, s: int, m: Memory)
    requires InStep(t, s, m) && RouterFrame(t, u)
    ensures InStep(u, s, m)
  {
    hide Owned;
    AgreeUnderRouter(m.queue, m.incoming, t, u, s);
  }

  // ----- what is on record of a session is not touched by others -----

  /** The rows of session `s` are the same, and hold the same entries. */
  ghost predicate SameFor(t: Tables, u: Tables, s: int) {
    && s in t.sessions && s in u.sessions && u.sessions[s] == t.sessions[s]
    && (forall r :: r in t.qosout && t.qosout[r].session == s ==> SameRow(t, u, r))
    && (forall r :: r in u.qosout && u.qosout[r].session == s ==> r in t.qosout && t.qosout[r] == u.qosout[r])
    && (forall mid :: Incoming(t, s, mid) <==> Incoming(u, s, mid))
  }

  ghost predicate SameRow(t: Tables, u: Tables, r: int)
    requires r in t.qosout
  {
    r in u.qosout && u.qosout[r] == t.qosout[r] && (Loaded(t, r).Some? ==> Loaded(u, r) == Loaded(t, r))
  }

  lemma OtherSame(t: Tables, u: Tables, s: int, other: int)
    requires SessionFrame(t, u, other) && s != other && s in t.sessions
    ensures SameFor(t, u, s)
  {
    forall r | r in t.qosout && t.qosout[r].session == s ensures SameRow(t, u, r) {
      assert t.qosout[r].message.Some? ==> OutRef(t, r, t.qosout[r].message.value);
    }
    forall mid ensures Incoming(t, s, mid) <==> Incoming(u, s, mid) {
      assert forall r :: InRow(t, r, s, mid) <==> InRow(u, r, s, mid);
    }
  }

  lemma RouterSame(t: Tables, u: Tables, s: int)
    requires RouterFrame(t, u) && s in t.sessions
    ensures SameFor(t, u, s)
  {
    forall r | r in t.qosout && t.qosout[r].session == s ensures SameRow(t, u, r) {
      assert t.qosout[r].message.Some? ==> OutRef(t, r, t.qosout[r].message.value);
    }
    forall mid ensures Incoming(t, s, mid) <==> Incoming(u, s, mid) {
      assert forall r :: InRow(t, r, s, mid) <==> InRow(u, r, s, mid);
    }
  }

  lemma SaneUnderRouter(t: Tables, u: Tables)
    requires Sane(t) && RouterFrame(t, u)
    ensures Sane(u)
  {}

  /** What is on record of a session stays on record, and it can still be started. */
  lemma RecordSame(t: Tables, u: Tables, s: int, name: Str, h: seq<Change>, mids: set<U16>)
    requires SameFor(t, u, s) && Sane(u) && Startable(t, s, name) && Recorded(t, s, h) && IncomingAgree(mids, t, s)
    ensures Startable(u, s, name) && Recorded(u, s, h) && IncomingAgree(mids, u, s)
  {
    hide Sane, View, Lawful, Loaded, Counter;
    forall r | r in u.qosout && u.qosout[r].session == s ensures GoodRow(u, r) && Loaded(u, r) == View(h, u.qosout[r].mid) {
      assert SameRow(t, u, r);
    }
    forall mid | View(h, mid).Some? ensures HasOut(u, s, mid) {
      assert HasOut(t, s, mid);
      var r :| r in t.qosout && IsOut(t.qosout[r], s, mid);
      assert SameRow(t, u, r);
    }
  }

  // ----- the order over a restart -----

  ghost function RowFor(t: Tables, s: int, x: MQTTMessage): (r: int)
    requires Stored(t, s, x)
    ensures Stores(t, s, r, x)
  {
    var r :| Stores(t, s, r, x);
    r
  }

  ghost predicate RowOut(t: Tables, s: int, r: int, mid: U16) {
    r in t.qosout && IsOut(t.qosout[r], s, mid)
  }

  /** The rows of the queue were made one after the other, each at a later time. */
  ghost predicate Timed(q: Queue, t: Tables, s: int) {
    forall i, j, a, b :: 0 <= i < j < |q| && RowOut(t, s, a, Mid(q[i])) && RowOut(t, s, b, Mid(q[j])) ==>
      t.qosout[a].received < t.qosout[b].received
  }

  /** Rows of strictly rising time. */
  ghost predicate Strict(t: Tables, a: seq<int>) {
    && (forall i :: 0 <= i < |a| ==> a[i] in t.qosout)
    && (forall i, j :: 0 <= i < j < |a| ==> t.qosout[a[i]].received < t.qosout[a[j]].received)
  }

  ghost predicate SameMembers<T>(a: seq<T>, b: seq<T>) {
    (forall i :: 0 <= i < |a| ==> a[i] in b) && (forall i :: 0 <= i < |b| ==> b[i] in a)
  }

  ghost predicate AllDistinct<T(!new)>(a: seq<T>) {
    forall i, j :: 0 <= i < j < |a| ==> a[i] != a[j]
  }

  lemma Where<T>(a: seq<T>, b: seq<T>, i: nat) returns (j: nat)
    requires i < |a| && SameMembers(a, b)
    ensures j < |b| && b[j] == a[i]
  {
    assert a[i] in b;
    j :| 0 <= j < |b| && b[j] == a[i];
  }

  lemma SameSwap<T>(a: seq<T>, b: seq<T>)
    requires SameMembers(a, b)
    ensures SameMembers(b, a)
  {}

  lemma HasMember<T>(a: seq<T>, b: seq<T>)
    requires SameMembers(a, b) && a != []
    ensures b != []
  {
    assert a[0] in b;
  }

  lemma TailMembers<T(!new)>(a: seq<T>, b: seq<T>)
    requires SameMembers(a, b) && AllDistinct(a) && AllDistinct(b) && a != [] && b != [] && a[0] == b[0]
    ensures SameMembers(a[1..], b[1..]) && AllDistinct(a[1..]) && AllDistinct(b[1..])
  {
    SameSwap(a, b);
    forall k | 0 <= k < |a| - 1 ensures a[1..][k] in b[1..] {
      var l := Where(a, b, k + 1);
      assert b[1..][l - 1] == a[1..][k];
    }
    forall k | 0 <= k < |b| - 1 ensures b[1..][k] in a[1..] {
      var l := Where(b, a, k + 1);
      assert a[1..][l - 1] == b[1..][k];
    }
  }

  /** Two listings by strictly rising time are the same. */
  lemma {:induction false} SameStrict(t: Tables, a: seq<int>, b: seq<int>)
    requires Strict(t, a) && Strict(t, b) && SameMembers(a, b)
    ensures a == b
    decreases a
  {
    if a != [] {
      HasMember(a, b);
    }
    SameSwap(a, b);
    if b != [] {
      HasMember(b, a);
      var j := Where(a, b, 0);
      var i := Where(b, a, 0);
      hide SameMembers;
      assert i == 0 && j == 0;
      StrictTail(t, a);
      StrictTail(t, b);
      TailMembers(a, b);
      hide Strict;
      SameStrict(t, a[1..], b[1..]);
      assert a == [a[0]] + a[1..] && b == [b[0]] + b[1..];
    }
  }

  lemma StrictTail(t: Tables, a: seq<int>)
    requires Strict(t, a) && a != []
    ensures Strict(t, a[1..]) && AllDistinct(a)
  {}

  lemma RisingStrict(t: Tables, a: seq<int>, b: seq<int>)
    requires Strict(t, a) && AllDistinct(b) && SameMembers(a, b)
    requires (forall i :: 0 <= i < |b| ==> b[i] in t.qosout) && Rising(t, b)
    ensures Strict(t, b)
  {
    SameSwap(a, b);
    forall i, j | 0 <= i < j < |b| ensures t.qosout[b[i]].received < t.qosout[b[j]].received {
      var k := Where(b, a, i);
      var l := Where(b, a, j);
      assert k != l;
    }
  }

  /** Where no two entries were stored at the same time, nor the clock set back, a restart restores the queue in its order. */
  lemma OrderRestored(q: Queue, t: Tables, s: int, rows: seq<int>, w: Queue)
    requires QueueAgree(q, t, s) && Timed(q, t, s) && Reads(t, s, rows, w)
    ensures |w| == |q| && forall i :: 0 <= i < |q| ==> w[i] == Reread(q[i]) && SameButRetain(q[i], w[i])
  {
    var mine := seq(|q|, i requires 0 <= i < |q| => RowFor(t, s, q[i]));
    OwnRows(q, t, s, mine);
    hide Stores, Loaded, QueueAgree;
    assert SameMembers(mine, rows) by { RowsRead(q, t, s, mine, rows, w); }
    hide BrokerTables.IsListing, Timed, SameMembers;
    assert mine == rows by {
      Members(rows, OutRows(t, s));
      Distinct(rows, OutRows(t, s));
      RisingStrict(t, mine, rows);
      SameStrict(t, mine, rows);
    }
    forall i | 0 <= i < |q| ensures w[i] == Reread(q[i]) && SameButRetain(q[i], w[i]) {
      AgreeEntry(q, t, s, i);
      StoresLoaded(t, s, mine[i], q[i]);
    }
  }

  lemma Distinct(rows: seq<int>, s: set<int>)
    requires BrokerTables.IsListing(rows, s)
    ensures AllDistinct(rows)
  {}

  lemma OwnRows(q: Queue, t: Tables, s: int, mine: seq<int>)
    requires QueueAgree(q, t, s) && Timed(q, t, s)
    requires |mine| == |q| && forall i :: 0 <= i < |q| ==> Stores(t, s, mine[i], q[i])
    ensures forall i :: 0 <= i < |q| ==> RowOut(t, s, mine[i], Mid(q[i]))
    ensures forall i, j :: 0 <= i < j < |q| ==> t.qosout[mine[i]].received < t.qosout[mine[j]].received
  {
    hide QueueAgree, Timed;
    forall i | 0 <= i < |q| ensures RowOut(t, s, mine[i], Mid(q[i])) {
      StoresMid(t, s, mine[i], q[i]);
    }
    forall i, j | 0 <= i < j < |q| ensures t.qosout[mine[i]].received < t.qosout[mine[j]].received {
      Later(q, t, s, i, j, mine[i], mine[j]);
    }
  }

  lemma Later(q: Queue, t: Tables, s: int, i: nat, j: nat, a: int, b: int)
    requires Timed(q, t, s) && i < j < |q| && RowOut(t, s, a, Mid(q[i])) && RowOut(t, s, b, Mid(q[j]))
    ensures t.qosout[a].received < t.qosout[b].received
  {}

  lemma RowsRead(q: Queue, t: Tables, s: int, mine: seq<int>, rows: seq<int>, w: Queue)
    requires QueueAgree(q, t, s) && Reads(t, s, rows, w)
    requires |mine| == |q| && forall i :: 0 <= i < |q| ==> RowOut(t, s, mine[i], Mid(q[i]))
    ensures SameMembers(mine, rows)
  {
    Members(rows, OutRows(t, s));
    forall i | 0 <= i < |mine| ensures mine[i] in rows {
      assert mine[i] in OutRows(t, s);
    }
    forall i | 0 <= i < |rows| ensures rows[i] in mine {
      assert Backed(t, s, rows[i], q);
      var k :| 0 <= k < |q| && Stores(t, s, rows[i], q[k]);
      StoresMid(t, s, rows[i], q[k]);
      assert RowOut(t, s, mine[k], Mid(q[k]));
      assert mine[k] == rows[i];
    }
  }

  lemma AgreeEntry(q: Queue, t: Tables, s: int, i: nat)
    requires QueueAgree(q, t, s) && i < |q|
    ensures IsEntry(q[i])
  {}

  /** Two neighbours stored at the same time may come back in either order. */
  lemma TieReorders(t: Tables, s: int, rows: seq<int>, w: Queue, i: nat)
    requires Reads(t, s, rows, w) && i + 1 < |rows| && t.qosout[rows[i]].received == t.qosout[rows[i + 1]].received
    ensures Reads(t, s, rows[i := rows[i + 1]][i + 1 := rows[i]], w[i := w[i + 1]][i + 1 := w[i]])
  {
    hide Loaded;
    var a, b := rows, rows[i := rows[i + 1]][i + 1 := rows[i]];
    assert b[i] == a[i + 1] && b[i + 1] == a[i];
    forall x ensures x in b <==> x in a {
      if x in a {
        var k :| 0 <= k < |a| && a[k] == x;
        assert b[if k == i then i + 1 else if k == i + 1 then i else k] == x;
      }
    }
  }

  /** A clock that moves on keeps the times of the queue rising. */
  lemma StoreTimed(q: Queue, t: Tables, s: int, n: NewRow, x: MQTTMessage)
    requires QueueAgree(q, t, s) && Timed(q, t, s) && IsEntry(x) && Mid(x) !in Ids(q) && (x.Publish? ==> !x.publish.dup)
    requires n.row !in t.qosout && n.messageId !in t.messages
    requires forall r :: r in t.qosout && t.qosout[r].session == s ==> t.qosout[r].received < n.now
    ensures Timed(q + [x], WithOut(t, n, s, Mid(x), x), s)
  {
    var u, w := WithOut(t, n, s, Mid(x), x), q + [x];
    hide WithOut, QueueAgree, Timed;
    forall i, j, a, b | 0 <= i < j < |w| && RowOut(u, s, a, Mid(w[i])) && RowOut(u, s, b, Mid(w[j]))
      ensures u.qosout[a].received < u.qosout[b].received
    {
      OldRow(q, t, s, n, x, i, a);
      if j < |q| {
        OldRow(q, t, s, n, x, j, b);
        Later(q, t, s, i, j, a, b);
      } else {
        LastRow(q, t, s, n, x, b);
      }
    }
    AllLater(w, u, s);
  }

  lemma OldRow(q: Queue, t: Tables, s: int, n: NewRow, x: MQTTMessage, i: nat, a: int)
    requires QueueAgree(q, t, s) && IsEntry(x) && Mid(x) !in Ids(q) && i < |q|
    requires RowOut(WithOut(t, n, s, Mid(x), x), s, a, Mid((q + [x])[i]))
    ensures (q + [x])[i] == q[i] && RowOut(t, s, a, Mid(q[i])) && WithOut(t, n, s, Mid(x), x).qosout[a] == t.qosout[a]
  {
    assert Mid(q[i]) in Ids(q);
  }

  lemma LastRow(q: Queue, t: Tables, s: int, n: NewRow, x: MQTTMessage, b: int)
    requires QueueAgree(q, t, s) && IsEntry(x) && Mid(x) !in Ids(q)
    requires RowOut(WithOut(t, n, s, Mid(x), x), s, b, Mid(x))
    ensures WithOut(t, n, s, Mid(x), x).qosout[b].received == n.now
  {
    if b != n.row {
      RowOfMid(q, t, s, b);
    }
  }

  lemma AllLater(q: Queue, t: Tables, s: int)
    requires forall i, j, a, b :: 0 <= i < j < |q| && RowOut(t, s, a, Mid(q[i])) && RowOut(t, s, b, Mid(q[j])) ==>
               t.qosout[a].received < t.qosout[b].received
    ensures Timed(q, t, s)
  {}
}
