/** The router's calls into the tables: each takes effect or fails. */
module BrokerTables {
  import opened Basics
  import opened Tables

  // ----- effects -----

  function WithTopic(t: Tables, id: int, topic: Str): Tables {
    t.(topics := t.topics[id := TopicRow(topic, None)])
  }

  function WithoutTopic(t: Tables, id: int): Tables {
    t.(topics := t.topics - {id})
  }

  function WithSubscription(t: Tables, rowId: int, session: int, topic: int, qos: Byte): Tables {
    t.(subscriptions := t.subscriptions[rowId := SubscriptionRow(session, topic, qos)])
  }

  predicate IsFor(row: SubscriptionRow, session: int, topic: int) {
    row.session == session && row.topic == topic
  }

  function WithSubscriptionQos(t: Tables, session: int, topic: int, qos: Byte): Tables {
    t.(subscriptions := map r | r in t.subscriptions ::
      if IsFor(t.subscriptions[r], session, topic) then t.subscriptions[r].(qos := qos) else t.subscriptions[r])
  }

  function WithoutSubscription(t: Tables, session: int, topic: int): Tables {
    t.(subscriptions := map r | r in t.subscriptions && !IsFor(t.subscriptions[r], session, topic) ::
      t.subscriptions[r])
  }

  /** The message row first, then the reference to it, if the topic row is there. */
  function WithRetained(t: Tables, id: int, topicId: int, row: MessageRow): Tables {
    t.(messages := t.messages[id := row],
       topics := if topicId in t.topics
                 then t.topics[topicId := t.topics[topicId].(retained := Some(id))] else t.topics)
  }

  function WithoutRetained(t: Tables, topicId: int): Tables
    requires topicId in t.topics
  {
    t.(topics := t.topics[topicId := t.topics[topicId].(retained := None)],
       messages := if t.topics[topicId].retained.Some?
                   then t.messages - {t.topics[topicId].retained.value} else t.messages)
  }

  // ----- message rows stay owned -----

  /** References that are the same on both sides have the same owners. */
  lemma SameReferences(t: Tables, u: Tables)
    requires forall i, m :: RetainedRef(t, i, m) <==> RetainedRef(u, i, m)
    requires forall r, m :: OutRef(t, r, m) <==> OutRef(u, r, m)
    requires u.messages == t.messages
    ensures Tidy(t, u)
  {
    forall m ensures Referenced(t, m) <==> Referenced(u, m) {}
  }

  lemma TopicConserved(t: Tables, id: int, topic: Str)
    requires id !in t.topics
    ensures Tidy(t, WithTopic(t, id, topic)) && RouterFrame(t, WithTopic(t, id, topic))
  {
    SameReferences(t, WithTopic(t, id, topic));
  }

  lemma DeleteTopicConserved(t: Tables, id: int)
    requires id in t.topics ==> t.topics[id].retained.None?
    ensures Tidy(t, WithoutTopic(t, id)) && RouterFrame(t, WithoutTopic(t, id))
  {
    SameReferences(t, WithoutTopic(t, id));
  }

  lemma RetainConserved(t: Tables, id: int, topicId: int, row: MessageRow)
    requires id !in t.messages && topicId in t.topics && t.topics[topicId].retained.None?
    ensures Tidy(t, WithRetained(t, id, topicId, row)) && RouterFrame(t, WithRetained(t, id, topicId, row))
  {
    var u := WithRetained(t, id, topicId, row);
    forall i, m ensures RetainedRef(u, i, m) <==> RetainedRef(t, i, m) || (i == topicId && m == id) {}
    forall r, m ensures OutRef(t, r, m) <==> OutRef(u, r, m) {}
    assert RetainedRef(u, topicId, id);
    hide RetainedRef, OutRef;
    if Owned(t) {
      assert !Referenced(t, id);
      forall m ensures Referenced(u, m) <==> m == id || Referenced(t, m) {}
    }
  }

  /** Storing under a missing topic row, or over a retained id, would strand a message row. */
  lemma RetainNeedsClearedTopic(t: Tables, id: int, topicId: int, row: MessageRow)
    requires Conserved(t) && id !in t.messages
    ensures Conserved(WithRetained(t, id, topicId, row)) <==>
              topicId in t.topics && t.topics[topicId].retained.None?
  {
    var u := WithRetained(t, id, topicId, row);
    if topicId in t.topics && t.topics[topicId].retained.None? {
      RetainConserved(t, id, topicId, row);
    } else {
      var stranded := if topicId in t.topics then t.topics[topicId].retained.value else id;
      assert topicId in t.topics ==> RetainedRef(t, topicId, stranded);
      assert stranded in u.messages && (Referenced(t, stranded) <==> topicId in t.topics);
      forall i ensures !RetainedRef(u, i, stranded) {
        assert i != topicId ==> (RetainedRef(u, i, stranded) <==> RetainedRef(t, i, stranded));
      }
      forall r ensures !OutRef(u, r, stranded) {
        assert OutRef(u, r, stranded) <==> OutRef(t, r, stranded);
      }
      assert !Referenced(u, stranded);
    }
  }

  lemma DeleteRetainConserved(t: Tables, topicId: int)
    requires Owned(t) && topicId in t.topics
    ensures Tidy(t, WithoutRetained(t, topicId)) && RouterFrame(t, WithoutRetained(t, topicId))
  {
    var u, gone := WithoutRetained(t, topicId), t.topics[topicId].retained;
    forall i, m ensures RetainedRef(u, i, m) <==> RetainedRef(t, i, m) && i != topicId {}
    forall r, m ensures OutRef(t, r, m) <==> OutRef(u, r, m) {}
    assert forall m :: gone == Some(m) ==> RetainedRef(t, topicId, m);
    hide RetainedRef, OutRef;
    forall m ensures Referenced(u, m) <==> Referenced(t, m) && gone != Some(m) {
      if gone != Some(m) {
        assert forall i :: RetainedRef(t, i, m) ==> i != topicId || gone == Some(m) by { RetainedIs(t, topicId, m); }
      }
    }
  }

  lemma RetainedIs(t: Tables, topicId: int, m: int)
    ensures RetainedRef(t, topicId, m) <==> topicId in t.topics && t.topics[topicId].retained == Some(m)
  {}

  // ----- calls -----

  class PersistTopicSQL {
    const db: Database

    constructor (db: Database)
      ensures this.db == db
    {
      this.db := db;
    }

    method PersistTopic(topic: Str) returns (r: Result<int, BrokerError>)
      modifies db
      ensures r.Ok? ==> r.value !in old(db.t).topics && db.t == WithTopic(old(db.t), r.value, topic)
      ensures r.Err? ==> db.t == old(db.t)
    {
      var id: int := *;
      if id in db.t.topics {
        return Err(PersistError);
      }
      db.t := WithTopic(db.t, id, topic);
      r := Ok(id);
    }

    method PersistDeleteTopic(topicId: int) returns (r: Result<int, BrokerError>)
      modifies db
      ensures r.Ok? ==> db.t == WithoutTopic(old(db.t), topicId)
      ensures r.Err? ==> db.t == old(db.t)
    {
      var fails: bool := *;
      if fails {
        return Err(PersistError);
      }
      db.t := WithoutTopic(db.t, topicId);
      r := Ok(topicId);
    }

    method PersistSubscribe(session: int, topicId: int, qos: Byte) returns (r: Result<bool, BrokerError>)
      modifies db
      ensures r.Ok? ==> exists row :: row !in old(db.t).subscriptions &&
                                      db.t == WithSubscription(old(db.t), row, session, topicId, qos)
      ensures r.Err? ==> db.t == old(db.t)
    {
      var row: int := *;
      if row in db.t.subscriptions {
        return Err(PersistError);
      }
      db.t := WithSubscription(db.t, row, session, topicId, qos);
      r := Ok(true);
    }

    method PersistUpdateSubscribe(session: int, topicId: int, qos: Byte) returns (r: Result<bool, BrokerError>)
      modifies db
      ensures r.Ok? ==> db.t == WithSubscriptionQos(old(db.t), session, topicId, qos)
      ensures r.Err? ==> db.t == old(db.t)
    {
      var fails: bool := *;
      if fails {
        return Err(PersistError);
      }
      db.t := WithSubscriptionQos(db.t, session, topicId, qos);
      r := Ok(true);
    }

    method PersistUnsubscribe(session: int, topicId: int) returns (r: Result<bool, BrokerError>)
      modifies db
      ensures r.Ok? ==> db.t == WithoutSubscription(old(db.t), session, topicId)
      ensures r.Err? ==> db.t == old(db.t)
    {
      var fails: bool := *;
      if fails {
        return Err(PersistError);
      }
      db.t := WithoutSubscription(db.t, session, topicId);
      r := Ok(true);
    }

    /** Two statements without a transaction: when the second fails, the message row stays. */
    method PersistRetain(topicId: int, m: Publish) returns (r: Result<int, BrokerError>)
      modifies db
      ensures r.Ok? ==> r.value !in old(db.t).messages &&
                        db.t == WithRetained(old(db.t), r.value, topicId, RowOf(m))
      ensures r.Err? ==> db.t == old(db.t) ||
                         exists id :: id !in old(db.t).messages &&
                                      db.t == old(db.t).(messages := old(db.t).messages[id := RowOf(m)])
    {
      var id: int := *;
      if id in db.t.messages {
        return Err(PersistError);
      }
      var fails: bool := *;
      if fails {
        db.t := db.t.(messages := db.t.messages[id := RowOf(m)]);
        return Err(PersistError);
      }
      db.t := WithRetained(db.t, id, topicId, RowOf(m));
      r := Ok(id);
    }

    /** Fails when the topic row is missing. */
    method PersistDeleteRetain(topicId: int) returns (r: Result<(), BrokerError>)
      modifies db
      ensures r.Ok? ==> topicId in old(db.t).topics && db.t == WithoutRetained(old(db.t), topicId)
      ensures r.Err? ==> db.t == old(db.t)
    {
      var fails: bool := *;
      if fails || topicId !in db.t.topics {
        return Err(PersistError);
      }
      db.t := WithoutRetained(db.t, topicId);
      r := Ok(());
    }

    /** All topic rows, in an order the tables do not fix. */
    method LoadPersistentTopics() returns (r: Result<seq<int>, BrokerError>)
      ensures r.Ok? ==> IsListing(r.value, db.t.topics.Keys)
    {
      var fails: bool := *;
      if fails {
        return Err(PersistError);
      }
      var rows := List(db.t.topics.Keys);
      r := Ok(rows);
    }

    method LoadPersistentMessage(messageId: int) returns (r: Result<Publish, BrokerError>)
      ensures r.Ok? ==> messageId in db.t.messages && r.value == FromRow(db.t.messages[messageId])
    {
      var fails: bool := *;
      if fails || messageId !in db.t.messages {
        return Err(PersistError);
      }
      r := Ok(FromRow(db.t.messages[messageId]));
    }

    /** The subscription rows of one topic that have a session row (an inner join), each once. */
    method LoadPersistentSubscriptions(topicId: int) returns (r: Result<seq<int>, BrokerError>)
      ensures r.Ok? ==> IsListing(r.value, JoinedRows(db.t, topicId))
    {
      var fails: bool := *;
      if fails {
        return Err(PersistError);
      }
      var rows := List(JoinedRows(db.t, topicId));
      r := Ok(rows);
    }
  }

  function JoinedRows(t: Tables, topicId: int): set<int> {
    set r | r in t.subscriptions && t.subscriptions[r].topic == topicId && t.subscriptions[r].session in t.sessions
  }

  /** `rows` lists the ids of `s`, each once, in some order. */
  ghost predicate IsListing<T(!new)>(rows: seq<T>, s: set<T>) {
    && (forall i, j :: 0 <= i < j < |rows| ==> rows[i] != rows[j])
    && (forall x :: x in rows <==> x in s)
  }

  method List<T(==,!new)>(s: set<T>) returns (rows: seq<T>)
    ensures IsListing(rows, s)
  {
    rows := [];
    var rest := s;
    while rest != {}
      invariant rest <= s
      invariant IsListing(rows, s - rest)
      decreases rest
    {
      var x :| x in rest;
      var more := rows + [x];
      assert forall y :: y in more <==> y in rows || y == x;
      rows := more;
      rest := rest - {x};
    }
  }
}
