/** The session worker: queues, identifiers and dup flags in memory, mirrored into the tables step by step. */
module Session {
  import opened Basics
  import opened Messages
  import opened Tables
  import opened SessionTables
  import opened SessionData
  import opened Outgoing
  import opened History
  import opened Incoming
  import opened Story
  import G = Generations

  /** Why a session gives up on its tables; only the first two can happen. */
  datatype Reason = Database | DuplicateMid | NotFoundToSetDup | NotStoredToSetDup | UnknownQueued | UnknownOutgoing

  datatype SessionError = Client | Router | Persist(reason: Reason)

  /** The event loop goes on after success and after a lost client. */
  predicate Survives<T>(r: Result<T, SessionError>) {
    r.Ok? || r.error == Client
  }

  predicate Expected<T>(r: Result<T, SessionError>) {
    r.Err? && r.error.Persist? ==> r.error.reason == Database || r.error.reason == DuplicateMid
  }

  class MQTTSession {
    const persist: PersistSessionSQL
    const id: Str
    var subscriptions: set<Str>
    var client: bool  // a client is connected
    var clean: bool
    var generation: int
    var internalId: int
    var nextMessageId: U16
    var qosOutgoing: set<U16>
    var qosOutgoingMessages: Queue
    var qosIncoming: set<U16>

    /** Everything handed to clients and to the router since the session was started. */
    var sent: seq<MQTTMessage>
    var routed: seq<G.RouterMessage>

    /** What the router answered to subscribes, in order. */
    var answers: seq<SubscribeAnswer>

    /** The queue the session was started with, what happened to it since, and what happened before. */
    ghost var start: Queue
    ghost var changes: seq<Change>
    ghost const past: seq<Change>

    /** What was passed on over all its starts, and what of it before this one. */
    ghost var receipts: seq<Receipt>
    ghost const earlier: seq<Receipt>

    /** `past` and `earlier` are what happened to this session before it was started. */
    constructor (persist: PersistSessionSQL, id: Str, ghost past: seq<Change>, ghost earlier: seq<Receipt>)
      ensures this.persist == persist && this.id == id && this.past == past && this.earlier == earlier
      ensures Blank()
    {
      this.persist, this.id, this.past, this.earlier := persist, id, past, earlier;
      subscriptions, client, clean, generation, internalId := {}, false, true, 0, 0;
      nextMessageId, qosOutgoing, qosOutgoingMessages, qosIncoming := 1, {}, [], {};
      sent, routed, answers, start, changes, receipts := [], [], [], [], [], earlier;
    }

    ghost predicate Blank()
      reads this
    {
      && !client && sent == [] && routed == [] && changes == [] && subscriptions == {} && receipts == earlier
      && qosOutgoing == {} && qosOutgoingMessages == [] && qosIncoming == {}
    }

    // ----- invariants -----

    ghost function Mem(): Memory
      reads this
    {
      Memory(id, generation, nextMessageId, qosIncoming, qosOutgoingMessages)
    }

    /** Everything that happened to the outgoing messages, over all starts. */
    ghost function AllChanges(): seq<Change>
      reads this`changes
    {
      past + changes
    }

    /** The queue is what the changes make of the one at the start. */
    ghost predicate QueueTraced()
      reads this`start, this`changes, this`qosOutgoingMessages
    {
      WellFormed(start) && AllAllowed(start, changes) && qosOutgoingMessages == Fold(start, changes)
    }

    /** What went to clients and to the router is what the histories say. */
    ghost predicate Wired()
      reads this`sent, this`changes, this`receipts, this`routed
    {
      sent == Packets(changes) && Forwards(receipts) == Forwards(earlier) + ForwardsIn(routed)
    }

    /** All but the agreement on what is received and not released. */
    ghost predicate Steady()
      reads this, persist.db
    {
      && InStep(persist.db.t, internalId, Mem())
      && Follows(qosOutgoingMessages, nextMessageId, AllChanges())
      && qosOutgoing == Ids(qosOutgoingMessages) && QueueTraced()
      && Orderly(receipts) && Wired()
    }

    ghost predicate Valid()
      reads this, persist.db
    {
      Steady() && qosIncoming == Open(receipts)
    }

    /** Holds even when the session gives up: it can be started again from its tables, and they carry both histories. */
    ghost predicate Durable()
      reads this, persist.db
    {
      && Startable(persist.db.t, internalId, id) && Recorded(persist.db.t, internalId, AllChanges())
      && Orderly(receipts) && IncomingAgree(Open(receipts), persist.db.t, internalId) && Wired()
    }

    /** Logs and histories only grow; the tables of others are not touched. */
    twostate predicate Moved()
      reads this, persist.db
    {
      && SessionFrame(old(persist.db.t), persist.db.t, internalId)
      && internalId == old(internalId) && start == old(start)
      && old(sent) <= sent && old(routed) <= routed && old(changes) <= changes && old(receipts) <= receipts
    }

    /** The session as it shows. */
    ghost function Story(): Trace
      reads this
    {
      Trace(Identity(), subscriptions, client, changes, receipts, routed)
    }

    /** `pre` happened, then `out` went to the client if it is still there. */
    twostate predicate Replied(pre: seq<Change>, out: seq<Change>)
      reads this
    {
      Sends(old(client), old(changes), pre, out, client, changes)
    }

    /** A clean session that succeeded leaves nothing behind, and a new generation. */
    twostate predicate Cleaned()
      reads this
    {
      && qosIncoming == {} && subscriptions == {} && clean
      && generation == old(generation) + 1 && nextMessageId == 1 && receipts == old(receipts) + [Reset]
      && routed == old(routed) + [G.Unsubscribe(old(Identity()), old(subscriptions))]
    }

    lemma ValidDurable()
      requires Valid()
      ensures Durable()
    {
      hide Follows, Recorded;
      InStepRecorded(persist.db.t, internalId, Mem(), AllChanges());
    }

    lemma ValidInOrder()
      requires Valid()
      ensures InOrder(persist.db.t, internalId, Party(id, Some(Mem()), AllChanges(), receipts))
    {
      hide InStep, Startable, Recorded, Follows, Orderly, IncomingAgree;
      ValidDurable();
    }

    lemma DurableInOrder()
      requires Durable()
      ensures InOrder(persist.db.t, internalId, Party(id, None, AllChanges(), receipts))
    {}

    lemma OnWire()
      requires Valid()
      ensures sent == Packets(changes)
    {}

    lemma Traced()
      requires Valid()
      ensures qosOutgoingMessages == Fold(start, changes)
    {}

    /** What one change makes of queue, history and packets. */
    lemma Step(c: Change)
      requires Steady() && Allowed(qosOutgoingMessages, c) && Timely(AllChanges(), c)
      ensures WellFormed(qosOutgoingMessages)
      ensures var q := Apply(qosOutgoingMessages, c);
              && WellFormed(q) && Ids(q) == IdsAfter(qosOutgoingMessages, c)
              && Fold(start, changes + [c]) == q && AllAllowed(start, changes + [c])
              && Follows(q, CounterAfter(nextMessageId, c), past + (changes + [c]))
      ensures Packets(changes + [c]) == Packets(changes) + Packet(c)
      ensures Packet(c) == [] ==> Packets(changes + [c]) == Packets(changes)
    {
      hide InStep, Orderly, Recorded, Follows, AllAllowed, Fold, Ids, WellFormed, Timely, Allowed, Packets, Wired;
      InStepWellFormed(persist.db.t, internalId, Mem());
      ApplyWellFormed(qosOutgoingMessages, c);
      FoldStep(start, changes, c);
      Follow(c);
      PacketsStep(changes, c);
    }

    lemma Follow(c: Change)
      requires Steady() && Allowed(qosOutgoingMessages, c) && Timely(AllChanges(), c)
      ensures Follows(Apply(qosOutgoingMessages, c), CounterAfter(nextMessageId, c), past + (changes + [c]))
      ensures Packet(c) == [] ==> Packets(changes + [c]) == Packets(changes)
    {
      hide InStep, Orderly, Follows, Timely, Allowed, WellFormed, AllAllowed, Fold, Packets, Wired;
      InStepWellFormed(persist.db.t, internalId, Mem());
      FollowStep(qosOutgoingMessages, nextMessageId, AllChanges(), c);
      PacketsStep(changes, c);
      assert AllChanges() + [c] == past + (changes + [c]);
    }

    /** What one receipt makes of the others. */
    lemma Receive(r: Receipt)
      requires Orderly(receipts) && Regular(receipts, r)
      ensures Orderly(receipts + [r]) && Open(receipts + [r]) == OpenAfter(Open(receipts), r)
      ensures Forwards(receipts + [r]) == Forwards(receipts) + Forward(r)
      ensures Forward(r) == [] ==> Forwards(receipts + [r]) == Forwards(receipts)
    {
      OrderlyStep(receipts, r);
      OpenStep(receipts, r);
      ForwardsStep(receipts, r);
    }

    /** A packet leaves queue and counter alone. */
    lemma Quiet(q: Queue, c: Change)
      requires Packet(c) != []
      ensures Apply(q, c) == q && IdsAfter(q, c) == Ids(q) && forall n :: CounterAfter(n, c) == n
    {}

    /** An entry of the queue may go to the client as it is. */
    lemma MayHand(p: Publish)
      requires Steady() && Allowed(qosOutgoingMessages, Handed(p))
      ensures Possible(AllChanges(), Handed(p))
    {
      hide InStep, Orderly, Lawful, QueueTraced, Wired, Allowed;
      AllowedPossible(qosOutgoingMessages, AllChanges(), Handed(p));
    }

    function Identity(): SessionId
      reads this
    {
      SessionId(id, internalId, generation)
    }

    /** The session as the asynchronous protocol sees it. */
    ghost function Seat(inbox: seq<G.Delivery>): G.SessionState
      reads this
    {
      G.SessionState(internalId, generation, subscriptions, inbox)
    }

    // ----- channels -----

    /** `c` is what the packet means for the outgoing messages. */
    method SendClientMessage(m: MQTTMessage, ghost c: Change) returns (r: Result<(), SessionError>)
      requires Durable() && Packet(c) == [m] && Possible(AllChanges(), c)
      requires Valid() ==> Allowed(qosOutgoingMessages, c)
      modifies this`client, this`sent, this`changes
      ensures Durable() && (old(Valid()) ==> Valid())
      ensures r.Ok? ==> old(client) && client && sent == old(sent) + [m] && changes == old(changes) + [c]
      ensures r.Err? ==> r.error == Client && !client && sent == old(sent) && changes == old(changes)
    {
      hide InStep, Startable, IncomingAgree, Orderly, Recorded, Follows, Fold, WellFormed, AllAllowed, Ids, Open, Packets,
           Forwards, ForwardsIn, Possible, Allowed;
      if Valid() {
        assert Timely(AllChanges(), c);
        Step(c);
        Quiet(qosOutgoingMessages, c);
      }
      if client {
        var fails: bool := *;
        if fails {
          client := false;
          r := Err(Client);
        } else {
          PacketsStep(changes, c);
          RecordedPacket(persist.db.t, internalId, AllChanges(), c);
          assert AllChanges() + [c] == past + (changes + [c]);
          sent := sent + [m];
          changes := changes + [c];
          r := Ok(());
        }
      } else {
        r := Err(Client);
      }
    }

    method SendMessageRouter(m: G.RouterMessage) returns (r: Result<(), SessionError>)
      modifies this`routed
      ensures r.Ok? ==> routed == old(routed) + [m] && ForwardsIn(routed) == ForwardsIn(old(routed)) + ForwardIn(m)
      ensures r.Ok? && !m.ForwardPublish? ==> ForwardsIn(routed) == ForwardsIn(old(routed))
      ensures r.Err? ==> r.error == Router && routed == old(routed)
    {
      var fails: bool := *;
      if fails {
        return Err(Router);
      }
      ForwardsInStep(routed, m);
      routed := routed + [m];
      r := Ok(());
    }

    // ----- the outgoing queue -----

    method QosOutgoingNextMid() returns (r: Result<U16, SessionError>)
      requires Valid()
      modifies this`nextMessageId, this`changes, persist.db
      ensures Moved() && Durable()
      ensures r.Err? ==> r.error == Persist(Database) && changes == old(changes)
      ensures r.Ok? ==> Valid() && r.value == old(nextMessageId) && nextMessageId == Next(old(nextMessageId))
      ensures r.Ok? ==> changes == old(changes) + [Drawn(r.value)]
    {
      hide InStep, Startable, SessionFrame, IncomingAgree, Orderly, Recorded, Follows, Fold, WellFormed, AllAllowed,
           Ids, Packets, Forwards, ForwardsIn;
      ValidDurable();
      SessionFrameRefl(persist.db.t, internalId);
      var mid := nextMessageId;
      assert Timely(AllChanges(), Drawn(mid)) by { CounterIs(); }
      Step(Drawn(mid));
      NextMidInStep(persist.db.t, internalId, Mem(), Next(mid));
      nextMessageId := Next(mid);
      var stored := persist.PersistUpdateMid(internalId, nextMessageId);
      if stored.Err? {
        return Err(Persist(Database));
      }
      changes := changes + [Drawn(mid)];
      ValidDurable();
      r := Ok(mid);
    }

    lemma CounterIs()
      requires Valid()
      ensures nextMessageId == Counter(AllChanges())
    {}

    /** An entry joins tables and queue. */
    method StoreEntry(entry: MQTTMessage, ghost t0: Tables) returns (r: Result<(), SessionError>)
      requires InStep(persist.db.t, internalId, Mem()) && SessionFrame(t0, persist.db.t, internalId)
      requires IsEntry(entry) && Mid(entry) !in Ids(qosOutgoingMessages) && (entry.Publish? ==> !entry.publish.dup)
      modifies this`qosOutgoingMessages, persist.db
      ensures r.Err? ==> r.error == Persist(Database)
      ensures r.Err? ==> persist.db.t == old(persist.db.t) && qosOutgoingMessages == old(qosOutgoingMessages)
      ensures r.Ok? ==> InStep(persist.db.t, internalId, Mem()) && SessionFrame(t0, persist.db.t, internalId)
      ensures r.Ok? ==> qosOutgoingMessages == old(qosOutgoingMessages) + [entry]
    {
      hide InStep, SessionFrame, Ids;
      ghost var t1 := persist.db.t;
      var rows := persist.PersistOutStore(internalId, Mid(entry), entry);
      if rows.Err? {
        return Err(Persist(Database));
      }
      StoreInStep(t1, internalId, Mem(), rows.value, entry);
      SessionFrameTrans(t0, t1, persist.db.t, internalId);
      qosOutgoingMessages := qosOutgoingMessages + [entry];
      r := Ok(());
    }

    /** An entry leaves tables and queue. */
    method DeleteEntry(mid: U16, pos: nat) returns (r: Result<(), SessionError>)
      requires InStep(persist.db.t, internalId, Mem())
      requires pos == Position(qosOutgoingMessages, mid) < |qosOutgoingMessages|
      modifies this`qosOutgoingMessages, persist.db
      ensures SessionFrame(old(persist.db.t), persist.db.t, internalId)
      ensures r.Err? ==> r.error == Persist(Database)
      ensures r.Err? ==> persist.db.t == old(persist.db.t) && qosOutgoingMessages == old(qosOutgoingMessages)
      ensures r.Ok? ==> InStep(persist.db.t, internalId, Mem())
      ensures r.Ok? ==> qosOutgoingMessages == Without(old(qosOutgoingMessages), mid)
    {
      hide InStep, SessionFrame;
      ghost var t0, m0 := persist.db.t, Mem();
      SessionFrameRefl(t0, internalId);
      var first := persist.PersistOutDelete(internalId, mid);
      if first.Err? {
        return Err(Persist(Database));
      }
      DeleteInStep(t0, internalId, m0, mid, first.value);
      qosOutgoingMessages := qosOutgoingMessages[..pos] + qosOutgoingMessages[pos + 1..];
      r := Ok(());
    }

    /** A PUBLISH for the client takes the next identifier; while that one is in flight, the message is refused. */
    method InsertPublish(m: Publish) returns (r: Result<U16, SessionError>)
      requires Valid() && 1 <= m.qos <= 2
      modifies this`nextMessageId, this`qosOutgoing, this`qosOutgoingMessages, this`changes, persist.db
      ensures Moved() && Durable()
      ensures r.Err? ==> r.error.Persist? && Expected(r)
      ensures r == Err(Persist(DuplicateMid)) ==> old(nextMessageId) in old(qosOutgoing)
      ensures old(nextMessageId) in old(qosOutgoing) ==> r.Err?
      ensures r.Err? ==> changes == old(changes) || changes == old(changes) + [Drawn(old(nextMessageId))]
      ensures r.Ok? ==> Valid() && r.value == old(nextMessageId) && nextMessageId == Next(old(nextMessageId))
      ensures r.Ok? ==> changes == old(changes) + [Drawn(r.value), Issued(r.value, m)]
      ensures r.Ok? ==>
                qosOutgoingMessages == old(qosOutgoingMessages) + [MQTTMessage.Publish(m.(identifier := r.value, dup := false))]
    {
      hide InStep, Startable, SessionFrame, IncomingAgree, Orderly, Recorded, Follows, Fold, WellFormed, AllAllowed,
           Ids, Packets, Forwards, ForwardsIn, Steady, Durable;
      ghost var t0 := persist.db.t;
      var mid :- QosOutgoingNextMid();
      ghost var t1 := persist.db.t;
      if mid in qosOutgoing {
        return Err(Persist(DuplicateMid));
      }
      r := IssuePublish(mid, m);
      SessionFrameTrans(t0, t1, persist.db.t, internalId);
    }

    method IssuePublish(mid: U16, m: Publish) returns (r: Result<U16, SessionError>)
      requires Valid() && 1 <= m.qos <= 2 && mid !in qosOutgoing && Timely(AllChanges(), Issued(mid, m))
      modifies this`qosOutgoing, this`qosOutgoingMessages, this`changes, persist.db
      ensures Moved() && Durable()
      ensures r.Err? ==> r.error == Persist(Database) && changes == old(changes)
      ensures r.Ok? ==> Valid() && r.value == mid && changes == old(changes) + [Issued(mid, m)]
      ensures r.Ok? ==> qosOutgoingMessages == old(qosOutgoingMessages) + [MQTTMessage.Publish(m.(identifier := mid, dup := false))]
    {
      hide InStep, Startable, SessionFrame, IncomingAgree, Orderly, Recorded, Follows, Fold, WellFormed, AllAllowed,
           Ids, Packets, Forwards, ForwardsIn;
      ghost var t0 := persist.db.t;
      ValidDurable();
      SessionFrameRefl(t0, internalId);
      Step(Issued(mid, m));
      var _ :- StoreEntry(MQTTMessage.Publish(m.(identifier := mid, dup := false)), t0);
      qosOutgoing := qosOutgoing + {mid};
      changes := changes + [Issued(mid, m)];
      ValidDurable();
      r := Ok(mid);
    }

    /** A PUBREC takes the place of the PUBLISH it answers, at the end of the queue. */
    method InsertPubRec(mid: U16) returns (r: Result<U16, SessionError>)
      requires Valid()
      modifies this`qosOutgoing, this`qosOutgoingMessages, this`changes, persist.db
      ensures Moved() && Durable()
      ensures r.Err? ==> r.error == Persist(Database)
      ensures r.Err? ==> changes == old(changes) || changes == old(changes) + [Lost(mid)]
      ensures r.Ok? ==> Valid() && r.value == mid && changes == old(changes) + [Received(mid)]
    {
      hide InStep, Startable, SessionFrame, IncomingAgree, Orderly, Recorded, Follows, Fold, AllAllowed, Ids, Without,
           Packets, Forwards, ForwardsIn;
      SessionFrameRefl(persist.db.t, internalId);
      Step(Received(mid));
      var pos := QosOutgoingMessagePosition(mid);
      if pos.Some? {
        if qosOutgoingMessages[pos.value].Publish? {
          r := ReplaceByPubRec(mid, pos.value);
        } else {
          assert mid in Ids(qosOutgoingMessages) by { InIds(qosOutgoingMessages, mid); }
          changes := changes + [Received(mid)];
          ValidDurable();
          r := Ok(mid);
        }
      } else {
        r := AppendPubRec(mid);
      }
    }

    /** When the PUBREC cannot be stored, its PUBLISH is gone already. */
    method ReplaceByPubRec(mid: U16, pos: nat) returns (r: Result<U16, SessionError>)
      requires Valid() && pos == Position(qosOutgoingMessages, mid) < |qosOutgoingMessages|
      requires qosOutgoingMessages[pos].Publish?
      modifies this`qosOutgoing, this`qosOutgoingMessages, this`changes, persist.db
      ensures Moved() && Durable()
      ensures r.Err? ==> r.error == Persist(Database)
      ensures r.Err? ==> changes == old(changes) || changes == old(changes) + [Lost(mid)]
      ensures r.Ok? ==> Valid() && r.value == mid && changes == old(changes) + [Received(mid)]
    {
      hide InStep, Startable, SessionFrame, IncomingAgree, Orderly, Recorded, Follows, Fold, WellFormed, AllAllowed,
           Ids, Packets, Forwards, ForwardsIn, Without;
      ghost var t0, q := persist.db.t, qosOutgoingMessages;
      ValidDurable();
      SessionFrameRefl(t0, internalId);
      Step(Received(mid));
      Follow(Lost(mid));
      InIds(q, mid);
      WithoutIds(q, mid);
      var _ :- DeleteEntry(mid, pos);
      InStepStartable(persist.db.t, internalId, Mem());
      InStepRecorded(persist.db.t, internalId, Mem(), past + (changes + [Lost(mid)]));
      var stored := StoreEntry(PubRec(mid), t0);
      if stored.Err? {
        changes := changes + [Lost(mid)];
        return Err(stored.error);
      }
      changes := changes + [Received(mid)];
      ValidDurable();
      r := Ok(mid);
    }

    method AppendPubRec(mid: U16) returns (r: Result<U16, SessionError>)
      requires Valid() && Position(qosOutgoingMessages, mid) == |qosOutgoingMessages|
      modifies this`qosOutgoing, this`qosOutgoingMessages, this`changes, persist.db
      ensures Moved() && Durable()
      ensures r.Err? ==> r.error == Persist(Database) && changes == old(changes)
      ensures r.Ok? ==> Valid() && r.value == mid && changes == old(changes) + [Received(mid)]
    {
      hide InStep, Startable, SessionFrame, IncomingAgree, Orderly, Recorded, Follows, Fold, WellFormed, AllAllowed,
           Ids, Packets, Forwards, ForwardsIn;
      ghost var t0 := persist.db.t;
      ValidDurable();
      SessionFrameRefl(t0, internalId);
      Step(Received(mid));
      InIds(qosOutgoingMessages, mid);
      var _ :- StoreEntry(PubRec(mid), t0);
      qosOutgoing := qosOutgoing + {mid};
      changes := changes + [Received(mid)];
      ValidDurable();
      r := Ok(mid);
    }

    method QosOutgoingInsert(m: MQTTMessage) returns (r: Result<U16, SessionError>)
      requires Valid() && (m.Publish? ==> 1 <= m.publish.qos <= 2)
      modifies this`nextMessageId, this`qosOutgoing, this`qosOutgoingMessages, this`changes, persist.db
      ensures Moved() && Durable()
      ensures r.Err? ==> r.error.Persist? && (IsEntry(m) ==> Expected(r))
      ensures r == Err(Persist(DuplicateMid)) ==> m.Publish? && old(nextMessageId) in old(qosOutgoing)
      ensures m.Publish? && old(nextMessageId) in old(qosOutgoing) ==> r.Err?
      ensures r.Err? ==> changes == old(changes) ||
                         (m.Publish? && changes == old(changes) + [Drawn(old(nextMessageId))]) ||
                         (m.PubRec? && changes == old(changes) + [Lost(m.mid)])
      ensures r.Ok? ==> Valid() && IsEntry(m)
      ensures r.Ok? && m.Publish? ==>
                r.value == old(nextMessageId) && changes == old(changes) + [Drawn(r.value), Issued(r.value, m.publish)]
      ensures r.Ok? && m.Publish? ==>
                qosOutgoingMessages == old(qosOutgoingMessages) + [MQTTMessage.Publish(m.publish.(identifier := r.value, dup := false))]
      ensures !m.Publish? ==> nextMessageId == old(nextMessageId)
      ensures r.Ok? && m.PubRec? ==> r.value == m.mid && changes == old(changes) + [Received(m.mid)]
    {
      hide InStep, Startable, SessionFrame, IncomingAgree, Orderly, Recorded, Follows, Fold, WellFormed, AllAllowed,
           Ids, Packets, Forwards, ForwardsIn;
      ValidDurable();
      SessionFrameRefl(persist.db.t, internalId);
      match m {
        case Publish(p) => r := InsertPublish(p);
        case PubRec(mid) => r := InsertPubRec(mid);
        case _ => r := Err(Persist(UnknownOutgoing));
      }
    }

    /** Puts on record that an entry went to the client. The update may have been made even when it reports an error. */
    method QosOutgoingSetDup(mid: U16) returns (r: Result<U16, SessionError>)
      requires Valid() && Waits(qosOutgoingMessages, mid)
      requires var dup := qosOutgoingMessages[Position(qosOutgoingMessages, mid)].publish.dup;
               !dup ==> Timely(AllChanges(), Marked(mid))
      modifies this`qosOutgoingMessages, this`changes, persist.db
      ensures Moved() && Durable()
      ensures r.Err? ==> r.error == Persist(Database)
      ensures r.Err? ==> changes == old(changes) || changes == old(changes) + [Marked(mid)]
      ensures r.Ok? ==> Valid() && r.value == mid
      ensures r.Ok? ==> var dup := old(qosOutgoingMessages)[Position(old(qosOutgoingMessages), mid)].publish.dup;
                changes == old(changes) + if dup then [] else [Marked(mid)]
      ensures r.Ok? ==> qosOutgoingMessages == Apply(old(qosOutgoingMessages), Marked(mid))
    {
      hide InStep, Startable, SessionFrame, IncomingAgree, Orderly, Recorded, Follows, Fold, WellFormed, AllAllowed,
           Ids, Packets, Forwards, ForwardsIn, Timely;
      ghost var t0, m0 := persist.db.t, Mem();
      ValidDurable();
      SessionFrameRefl(t0, internalId);
      var pos := QosOutgoingMessagePosition(mid);
      if pos.None? {
        return Err(Persist(NotStoredToSetDup));
      }
      var elem := qosOutgoingMessages[pos.value];
      if !elem.Publish? {
        return Err(Persist(NotFoundToSetDup));
      }
      if !elem.publish.dup {
        Step(Marked(mid));
        DupInStep(t0, internalId, m0, mid);
        var stored := persist.PersistOutDup(internalId, mid);
        if stored.Err? {
          if persist.db.t != t0 {
            changes := changes + [Marked(mid)];
            InStepStartable(persist.db.t, internalId, m0.(queue := Apply(m0.queue, Marked(mid))));
            InStepRecorded(persist.db.t, internalId, m0.(queue := Apply(m0.queue, Marked(mid))), AllChanges());
          }
          return Err(Persist(Database));
        }
        qosOutgoingMessages := qosOutgoingMessages[pos.value := MQTTMessage.Publish(elem.publish.(dup := true))];
        changes := changes + [Marked(mid)];
        ValidDurable();
      } else {
        assert qosOutgoingMessages == Apply(qosOutgoingMessages, Marked(mid));
      }
      r := Ok(mid);
    }

    method QosOutgoingRemove(mid: U16) returns (r: Result<U16, SessionError>)
      requires Valid()
      modifies this`qosOutgoing, this`qosOutgoingMessages, this`changes, persist.db
      ensures Moved() && Durable()
      ensures r.Err? ==> r.error == Persist(Database) && changes == old(changes)
      ensures r.Ok? ==> Valid() && r.value == mid && changes == old(changes) + [Acknowledged(mid)]
    {
      hide InStep, Startable, SessionFrame, IncomingAgree, Orderly, Recorded, Follows, Fold, WellFormed, AllAllowed,
           Ids, Packets, Forwards, ForwardsIn;
      ValidDurable();
      SessionFrameRefl(persist.db.t, internalId);
      Step(Acknowledged(mid));
      InIds(qosOutgoingMessages, mid);
      var pos := QosOutgoingMessagePosition(mid);
      if pos.Some? {
        var _ :- DeleteEntry(mid, pos.value);
        qosOutgoing := qosOutgoing - {mid};
      }
      changes := changes + [Acknowledged(mid)];
      ValidDurable();
      r := Ok(mid);
    }

    // ----- incoming QoS 2 -----

    /** Puts on record what was just passed on. */
    method QosIncomingStore(mid: U16) returns (r: Result<U16, SessionError>)
      requires Steady() && receipts != [] && Passes(receipts[|receipts| - 1], mid)
      requires mid !in qosIncoming && Open(receipts) == qosIncoming + {mid}
      modifies this`qosIncoming, this`receipts, persist.db
      ensures Moved() && Durable()
      ensures r.Err? ==> r.error == Persist(Database) && receipts == old(receipts) + [Missed(mid)]
      ensures r.Ok? ==> Valid() && receipts == old(receipts) && qosIncoming == old(qosIncoming) + {mid}
    {
      hide InStep, Startable, SessionFrame, IncomingAgree, Orderly, Recorded, Follows, Fold, WellFormed, AllAllowed,
           Ids, Open, Packets, Forwards, ForwardsIn;
      ghost var t0, m0 := persist.db.t, Mem();
      SessionFrameRefl(t0, internalId);
      InStepStartable(t0, internalId, m0);
      InStepRecorded(t0, internalId, m0, AllChanges());
      Receive(Missed(mid));
      var row := persist.PersistIncomingStore(internalId, mid);
      if row.Err? {
        receipts := receipts + [Missed(mid)];
        return Err(Persist(Database));
      }
      ReceiveInStep(t0, internalId, m0, row.value, mid);
      qosIncoming := qosIncoming + {mid};
      ValidDurable();
      r := Ok(mid);
    }

    method QosIncomingRemove(mid: U16) returns (r: Result<U16, SessionError>)
      requires Valid()
      modifies this`qosIncoming, this`receipts, persist.db
      ensures Moved() && Durable()
      ensures r.Err? ==> r.error == Persist(Database) && receipts == old(receipts)
      ensures r.Ok? ==> Valid() && receipts == old(receipts) + [Released(mid)] && qosIncoming == old(qosIncoming) - {mid}
    {
      hide InStep, Startable, SessionFrame, IncomingAgree, Orderly, Recorded, Follows, Fold, WellFormed, AllAllowed,
           Ids, Open, Packets, Forwards, ForwardsIn;
      ghost var t0, m0 := persist.db.t, Mem();
      ValidDurable();
      SessionFrameRefl(t0, internalId);
      Receive(Released(mid));
      var gone := persist.PersistIncomingDelete(internalId, mid);
      if gone.Err? {
        return Err(Persist(Database));
      }
      ReleaseInStep(t0, internalId, m0, mid);
      qosIncoming := qosIncoming - {mid};
      receipts := receipts + [Released(mid)];
      ValidDurable();
      r := Ok(mid);
    }

    /** Where an entry stands, looked up only when its identifier is in flight. */
    method QosOutgoingMessagePosition(mid: U16) returns (pos: Option<nat>)
      requires qosOutgoing == Ids(qosOutgoingMessages)
      ensures pos == if Position(qosOutgoingMessages, mid) < |qosOutgoingMessages|
                     then Some(Position(qosOutgoingMessages, mid)) else None
    {
      InIds(qosOutgoingMessages, mid);
      if mid in qosOutgoing {
        var i: nat := 0;
        while i < |qosOutgoingMessages| && Mid(qosOutgoingMessages[i]) != mid
          invariant 0 <= i <= |qosOutgoingMessages|
          invariant forall j :: 0 <= j < i ==> Mid(qosOutgoingMessages[j]) != mid
        {
          i := i + 1;
        }
        pos := if i < |qosOutgoingMessages| then Some(i) else None;
      } else {
        pos := None;
      }
    }

    // ----- replay -----

    /** Sends one queued entry again. */
    method Resend(pos: nat) returns (r: Result<(), SessionError>)
      requires Valid() && pos < |qosOutgoingMessages|
      modifies this`client, this`sent, this`qosOutgoingMessages, this`changes, persist.db
      ensures Moved() && Durable() && Expected(r)
      ensures Survives(r) ==> Valid()
      ensures r.Ok? ==> client && sent == old(sent) + [Resent(old(qosOutgoingMessages)[pos])]
      ensures r.Ok? ==> changes == old(changes) + Handing(old(qosOutgoingMessages)[pos])
      ensures r.Ok? ==> qosOutgoingMessages == old(qosOutgoingMessages)[pos := SetDup(old(qosOutgoingMessages)[pos])]
      ensures r == Err(Client) ==>
                !client && sent == old(sent) && changes == old(changes) && qosOutgoingMessages == old(qosOutgoingMessages)
      ensures !old(client) ==> r == Err(Client)
      ensures !Survives(r) ==> HalfHanded(old(sent), old(changes), old(qosOutgoingMessages)[pos])
    {
      hide Goes, SentTo, Handings, DeliveryStep, PublishStep, SubscribeStep;
      hide InStep, Startable, SessionFrame, IncomingAgree, Orderly, Recorded, Follows, Fold, AllAllowed, Ids, Apply,
           Allowed, Packets, Forwards, ForwardsIn, Possible;
      ghost var q := qosOutgoingMessages;
      ValidDurable();
      SessionFrameRefl(persist.db.t, internalId);
      InStepWellFormed(persist.db.t, internalId, Mem());
      var message := qosOutgoingMessages[pos];
      match message {
        case Publish(m) =>
          MarkAtPosition(q, pos);
          MayHand(m);
          var _ :- SendClientMessage(MQTTMessage.Publish(m), Handed(m));
          if 1 <= m.qos <= 2 && !m.dup {
            assert AllChanges()[|AllChanges()| - 1] == Handed(m);
            var _ :- QosOutgoingSetDup(m.identifier);
          } else {
            assert SetDup(q[pos]) == q[pos];
          }
        case PubRec(mid) =>
          Plain(PubRel(mid));
          var _ :- SendClientMessage(PubRel(mid), Other(PubRel(mid)));
        case _ =>
          return Err(Persist(UnknownQueued));
      }
      r := Ok(());
    }

    /** The PUBLISH is out, and its mark failed; it may have been made all the same. */
    ghost predicate HalfHanded(sent0: seq<MQTTMessage>, changes0: seq<Change>, entry: MQTTMessage)
      reads this
    {
      && entry.Publish? && !entry.publish.dup && client && sent == sent0 + [entry]
      && (changes == changes0 + [Handed(entry.publish)] || changes == changes0 + Handing(entry))
    }

    /** A control packet means nothing to the queue. */
    lemma Plain(m: MQTTMessage)
      requires !m.Publish? || !OfEntry(m.publish)
      ensures Possible(AllChanges(), Other(m)) && Allowed(qosOutgoingMessages, Other(m)) && Packet(Other(m)) == [m]
    {}

    /** One packet per entry, in queue order, up to the first that fails. */
    method SendQueuedMessages() returns (r: Result<(), SessionError>)
      requires Durable() && (Valid() || qosOutgoingMessages == [])
      modifies this`client, this`sent, this`qosOutgoingMessages, this`changes, persist.db
      ensures old(qosOutgoingMessages) == [] ==>
                r.Ok? && client == old(client) && changes == old(changes) && persist.db.t == old(persist.db.t)
      ensures Durable() && (old(Valid()) ==> Moved() && (Survives(r) ==> Valid()))
      ensures Expected(r)
      ensures Survives(r) ==> exists k :: ReplayedTo(old(sent), old(changes), old(qosOutgoingMessages), k) &&
                                (r.Ok? <==> k == |old(qosOutgoingMessages)|)
      ensures !Survives(r) ==> exists k :: StoppedAt(old(sent), old(changes), old(qosOutgoingMessages), k)
      ensures old(sent) <= sent && ReplayedAs(sent[|old(sent)|..], old(qosOutgoingMessages))
      ensures r.Ok? ==> |sent| == |old(sent)| + |old(qosOutgoingMessages)|
      ensures !old(client) && old(qosOutgoingMessages) != [] ==>
                r == Err(Client) && ReplayedTo(old(sent), old(changes), old(qosOutgoingMessages), 0)
      ensures r.Ok? ==> client == old(client)
      ensures r == Err(Client) ==> !client
    {
      hide InStep, Startable, SessionFrame, IncomingAgree, Orderly, Recorded, Follows, Fold, AllAllowed, Ids, DupFirst,
           Replay, Handings, WellFormed, Handing, Packets, Forwards, ForwardsIn, HalfHanded, Resent, ReplayedAs;
      ghost var q, t0 := qosOutgoingMessages, persist.db.t;
      SessionFrameRefl(t0, internalId);
      ReplayEnds(q);
      ReplayIs(q, |q|);
      var pos := 0;
      while pos < |qosOutgoingMessages|
        invariant 0 <= pos <= |q| && (old(Valid()) || q == []) && Durable()
        invariant q == [] ==> changes == old(changes) && persist.db.t == t0
        invariant old(Valid()) ==> Valid() && Moved()
        invariant qosOutgoingMessages == DupFirst(q, pos) && |qosOutgoingMessages| == |q|
        invariant ReplayedTo(old(sent), old(changes), q, pos)
        invariant client == old(client) && (!client ==> pos == 0)
      {
        ReplayStep(q, pos);
        ReplayIs(q, pos);
        ReplayIs(q, pos + 1);
        ghost var t1, sent1, changes1 := persist.db.t, sent, changes;
        var sending := Resend(pos);
        SessionFrameTrans(t0, t1, persist.db.t, internalId);
        if sending.Err? {
          assert sending.error == Client ==> ReplayedTo(old(sent), old(changes), q, pos);
          assert sending.error != Client ==> StoppedAt(old(sent), old(changes), q, pos) by {
            if sending.error != Client {
              StopsAt(sent1, changes1, q, pos);
            }
          }
          return sending;
        }
        pos := pos + 1;
      }
      assert ReplayedTo(old(sent), old(changes), q, pos);
      r := Ok(());
    }

    ghost predicate ReplayedTo(sent0: seq<MQTTMessage>, changes0: seq<Change>, q: Queue, k: int)
      reads this
    {
      && 0 <= k <= |q| && sent == sent0 + Replay(q)[..k] && changes == changes0 + Handings(q[..k])
      && qosOutgoingMessages == DupFirst(q, k)
    }

    /** Entry `k` is out, and its mark failed. */
    ghost predicate StoppedAt(sent0: seq<MQTTMessage>, changes0: seq<Change>, q: Queue, k: int)
      reads this
    {
      && 0 <= k < |q| && q[k].Publish? && !q[k].publish.dup && client && sent == sent0 + Replay(q)[..k + 1]
      && (changes == changes0 + Handings(q[..k]) + [Handed(q[k].publish)] || changes == changes0 + Handings(q[..k + 1]))
    }

    lemma StopsAt(sent1: seq<MQTTMessage>, changes1: seq<Change>, q: Queue, k: nat)
      requires k < |q| && HalfHanded(sent1, changes1, q[k])
      ensures forall sent0, changes0 :: sent1 == sent0 + Replay(q)[..k] && changes1 == changes0 + Handings(q[..k]) ==>
                StoppedAt(sent0, changes0, q, k)
    {
      ReplayStep(q, k);
      hide Replay, Handings;
    }

    // ----- events from the router -----

    /** A delivery: queued under a fresh identifier if its QoS asks for it, then sent if a client is there. */
    method InternalPublishMessage(delivery: Publish) returns (r: Result<(), SessionError>)
      requires Valid()
      modifies this`client, this`sent, this`nextMessageId, this`qosOutgoing, this`qosOutgoingMessages, this`changes,
               persist.db
      ensures Moved() && Durable() && Expected(r)
      ensures Survives(r) ==> Valid()
      ensures r.Ok? ==>
                sent == old(sent) + if old(client) then [MQTTMessage.Publish(Delivered(delivery, old(nextMessageId)))] else []
      ensures r == Err(Client) ==> old(client) && !client && sent == old(sent)
      ensures r.Ok? && old(client) ==> HandedAs(old(sent), sent, delivery, old(nextMessageId))
      ensures Survives(r) ==>
                KeptAs(old(qosOutgoingMessages), qosOutgoingMessages, delivery, old(nextMessageId), r.Ok? && old(client))
      ensures Survives(r) ==> DeliveryStep(old(Story()), delivery, old(nextMessageId), Story())
      ensures !Survives(r) ==> exists k :: BrokenOff(delivery, old(nextMessageId), k)
    {
      hide Goes, SentTo, Handings, Wired, QueueTraced;
      hide InStep, Startable, SessionFrame, IncomingAgree, Orderly, Recorded, Follows, Fold, WellFormed, AllAllowed, Ids, Open,
           Packets, Forwards, ForwardsIn, Steady, Allowed, Apply, KeptAs, HandedAs, Delivered, Queued, Queueing,
           Position;
      ghost var t0, next := persist.db.t, nextMessageId;
      HandedIs(sent, delivery, next);
      var queued := Enqueue(delivery.(dup := false));
      if queued.Err? {
        ghost var k := if changes == old(changes) then 0 else 1;
        DeliveryBreaks(old(Story()), delivery, next, k, Story());
        assert BrokenOff(delivery, next, k);
        return Err(queued.error);
      }
      ghost var t1, changes1, q1 := persist.db.t, changes, qosOutgoingMessages;
      r := HandOut(queued.value);
      SessionFrameTrans(t0, t1, persist.db.t, internalId);
      if Survives(r) {
        KeptIs(old(qosOutgoingMessages), q1, qosOutgoingMessages, delivery, next, queued.value, r.Ok? && old(client));
      } else {
        ghost var k := if changes == changes1 + [Handed(queued.value)] then 3 else 4;
        DeliveryBreaks(old(Story()), delivery, next, k, Story());
        assert BrokenOff(delivery, next, k);
      }
    }

    /** The first half of a delivery: queued under a fresh identifier if its QoS asks for it. */
    method Enqueue(message: Publish) returns (r: Result<Publish, SessionError>)
      requires Valid() && !message.dup
      modifies this`nextMessageId, this`qosOutgoing, this`qosOutgoingMessages, this`changes, persist.db
      ensures Moved() && Durable() && Expected(r)
      ensures r.Ok? ==> Valid() && r.value == Delivered(message, old(nextMessageId))
      ensures r.Ok? ==> changes == old(changes) + Queueing(message, old(nextMessageId))
      ensures r.Ok? && Queued(message) ==> Allowed(qosOutgoingMessages, Handed(r.value)) && Last(r.value.identifier)
      ensures r.Ok? ==>
                qosOutgoingMessages == old(qosOutgoingMessages) + if Queued(message) then [MQTTMessage.Publish(r.value)] else []
      ensures r.Err? ==> r.error.Persist? && Queued(message)
      ensures r.Err? ==> changes == old(changes) || changes == old(changes) + [Drawn(old(nextMessageId))]
    {
      hide InStep, Startable, SessionFrame, IncomingAgree, Orderly, Recorded, Follows, Fold, WellFormed, AllAllowed, Ids, Open,
           Packets, Forwards, ForwardsIn, Steady, Allowed;
      SessionFrameRefl(persist.db.t, internalId);
      if Queued(message) {
        var mid :- QosOutgoingInsert(MQTTMessage.Publish(message));
        r := Ok(message.(identifier := mid));
        JustIssued(r.value);
      } else {
        ValidDurable();
        r := Ok(message);
      }
    }

    lemma KeptIs(q: Queue, q1: Queue, q2: Queue, delivery: Publish, mid: U16, message: Publish, handed: bool)
      requires message == Delivered(delivery, mid) && q1 == q + if Queued(message) then [MQTTMessage.Publish(message)] else []
      requires Queued(message) ==> Position(q1, message.identifier) + 1 == |q1|
      requires q2 == if handed && Queued(message) then Apply(q1, Marked(message.identifier)) else q1
      ensures KeptAs(q, q2, delivery, mid, handed)
    {
      hide Position;
      if Queued(message) {
        assert q1[|q|] == MQTTMessage.Publish(message) && q1[..|q|] == q;
      }
    }

    /** A delivery stops after `k` of its steps: before it is queued, or after it went out, when its mark failed. */
    twostate predicate BrokenOff(delivery: Publish, mid: U16, k: int)
      reads this
    {
      && DeliveryFails(old(Story()), delivery, mid, k, Story())
      && sent == old(sent) + if k >= 3 then [MQTTMessage.Publish(Delivered(delivery, mid))] else []
    }

    /** The second half of a delivery: sent if a client is there, and marked if it is queued. */
    method HandOut(message: Publish) returns (r: Result<(), SessionError>)
      requires Valid() && !message.dup && (Queued(message) ==> Allowed(qosOutgoingMessages, Handed(message)))
      modifies this`client, this`sent, this`qosOutgoingMessages, this`changes, persist.db
      ensures Moved() && Durable() && Expected(r)
      ensures Survives(r) ==> Valid() && Replied([], HandOuts(message))
      ensures Survives(r) ==> qosOutgoingMessages == if r.Ok? && old(client) && Queued(message)
                then Apply(old(qosOutgoingMessages), Marked(message.identifier)) else old(qosOutgoingMessages)
      ensures r.Ok? ==> sent == old(sent) + if old(client) then [MQTTMessage.Publish(message)] else []
      ensures r == Err(Client) ==> old(client) && !client && sent == old(sent)
      ensures !Survives(r) ==> old(client) && Queued(message) && HalfHanded(old(sent), old(changes), MQTTMessage.Publish(message))
    {
      hide InStep, Startable, SessionFrame, IncomingAgree, Orderly, Recorded, Follows, Fold, WellFormed, AllAllowed, Ids, Open,
           Packets, Forwards, ForwardsIn, Apply, Possible, Allowed;
      ValidDurable();
      SessionFrameRefl(persist.db.t, internalId);
      if client {
        ghost var c := if Queued(message) then Handed(message) else Other(MQTTMessage.Publish(message));
        if Queued(message) {
          MayHand(message);
          AllowedWaits(qosOutgoingMessages, message);
        } else {
          Plain(MQTTMessage.Publish(message));
        }
        var _ :- SendClientMessage(MQTTMessage.Publish(message), c);
        if Queued(message) {
          assert AllChanges()[|AllChanges()| - 1] == Handed(message);
          var _ :- QosOutgoingSetDup(message.identifier);
        }
      }
      r := Ok(());
    }

    lemma AllowedWaits(q: Queue, p: Publish)
      requires Allowed(q, Handed(p))
      ensures Waits(q, p.identifier) && q[Position(q, p.identifier)].publish == p
    {}

    /** The identifier is that of the last entry. */
    ghost predicate Last(mid: U16)
      reads this
    {
      Position(qosOutgoingMessages, mid) + 1 == |qosOutgoingMessages|
    }

    /** What was issued last stands at the end of the queue and may be handed out. */
    lemma JustIssued(m: Publish)
      requires Valid() && changes != [] && changes[|changes| - 1].Issued?
      requires MQTTMessage.Publish(m) == Entry(changes[|changes| - 1].mid, changes[|changes| - 1].publish)
      ensures Allowed(qosOutgoingMessages, Handed(m)) && Last(m.identifier)
    {
      hide InStep, Orderly, IncomingAgree, Follows, Wired;
      var q := qosOutgoingMessages;
      InStepWellFormed(persist.db.t, internalId, Mem());
      assert q[|q| - 1] == MQTTMessage.Publish(m);
      PositionIs(q, m.identifier, |q| - 1);
    }

    // ----- events from the client -----

    method PubackMessage(mid: U16) returns (r: Result<(), SessionError>)
      requires Valid()
      modifies this`qosOutgoing, this`qosOutgoingMessages, this`changes, persist.db
      ensures Moved() && Durable() && Expected(r)
      ensures Survives(r) ==> r.Ok? && Valid() && changes == old(changes) + [Acknowledged(mid)]
      ensures !Survives(r) ==> changes == old(changes)
    {
      var _ :- QosOutgoingRemove(mid);
      r := Ok(());
    }

    method PubcompMessage(mid: U16) returns (r: Result<(), SessionError>)
      requires Valid()
      modifies this`qosOutgoing, this`qosOutgoingMessages, this`changes, persist.db
      ensures Moved() && Durable() && Expected(r)
      ensures Survives(r) ==> r.Ok? && Valid() && changes == old(changes) + [Acknowledged(mid)]
      ensures !Survives(r) ==> changes == old(changes)
    {
      var _ :- QosOutgoingRemove(mid);
      r := Ok(());
    }

    method PubrecMessage(mid: U16) returns (r: Result<(), SessionError>)
      requires Valid()
      modifies this`client, this`sent, this`nextMessageId, this`qosOutgoing, this`qosOutgoingMessages, this`changes,
               persist.db
      ensures Moved() && Durable() && Expected(r) && nextMessageId == old(nextMessageId)
      ensures Survives(r) ==> Valid() && Replied([Received(mid)], [Other(PubRel(mid))])
      ensures !Survives(r) ==> client == old(client) && (changes == old(changes) || changes == old(changes) + [Lost(mid)])
      ensures r.Ok? ==> sent == old(sent) + [PubRel(mid)]
      ensures r.Err? ==> sent == old(sent)
    {
      hide Valid, Durable, SessionFrame, Possible, Allowed;
      var x :- QosOutgoingInsert(PubRec(mid));
      Plain(PubRel(x));
      r := SendClientMessage(PubRel(x), Other(PubRel(x)));
    }

    method PubrelMessage(mid: U16) returns (r: Result<(), SessionError>)
      requires Valid()
      modifies this`client, this`sent, this`changes, this`qosIncoming, this`receipts, persist.db
      ensures Moved() && Durable() && Expected(r)
      ensures Survives(r) ==> Valid() && receipts == old(receipts) + [Released(mid)] && Replied([], [Other(PubComp(mid))])
      ensures !Survives(r) ==> client == old(client) && changes == old(changes) && receipts == old(receipts)
      ensures r.Ok? ==> sent == old(sent) + [PubComp(mid)]
      ensures r.Err? ==> sent == old(sent)
    {
      hide Valid, Durable, SessionFrame, Possible, Allowed;
      var _ :- QosIncomingRemove(mid);
      Plain(PubComp(mid));
      r := SendClientMessage(PubComp(mid), Other(PubComp(mid)));
    }

    /**
     * A publish of the client. A QoS 2 identifier that is on record is only answered again; otherwise the
     * message goes to the router, and its QoS 2 identifier is stored. When that store fails, the session gives
     * up with the message passed on and not on record.
     */
    method PublishMessage(m: Publish) returns (r: Result<(), SessionError>)
      requires Valid()
      modifies this`client, this`sent, this`changes, this`routed, this`qosIncoming, this`receipts, persist.db
      ensures Moved() && Durable() && Expected(r)
      ensures Survives(r) ==> Valid() && PublishStep(old(Story()), m, Story())
      ensures !Survives(r) ==> ClientFails(old(Story()), MQTTMessage.Publish(m), Story()) && sent == old(sent)
      ensures r.Err? && r.error.Persist? ==> receipts != old(receipts)
      ensures r.Ok? && m.qos != 1 && m.qos != 2 ==> sent == old(sent)
      ensures r.Ok? && m.qos == 1 ==> sent == old(sent) + if client then [PubAck(m.identifier)] else []
      ensures r.Ok? && m.qos == 2 ==> sent == old(sent) + if client then [PubRec(m.identifier)] else []
    {
      hide InStep, Startable, SessionFrame, IncomingAgree, Orderly, Recorded, Follows, Fold, WellFormed, AllAllowed, Ids,
           Open, Packets, Forwards, ForwardsIn, Possible, Allowed, QueueTraced, Wired;
      ValidDurable();
      SessionFrameRefl(persist.db.t, internalId);
      var mid := m.identifier;
      if m.qos == 2 && mid in qosIncoming {
        Plain(PubRec(mid));
        r := SendClientMessage(PubRec(mid), Other(PubRec(mid)));
        return;
      }
      var _ :- PassOn(m.(dup := false));
      hide Valid, Durable;
      Acknowledge(m);
      r := Ok(());
    }

    /** The message goes to the router, and then, if it is QoS 2, its identifier on record. */
    method PassOn(m: Publish) returns (r: Result<(), SessionError>)
      requires Valid() && (m.qos == 2 ==> m.identifier !in qosIncoming)
      modifies this`routed, this`qosIncoming, this`receipts, persist.db
      ensures Moved() && Durable() && Expected(r)
      ensures r.Ok? ==> Valid() && routed == old(routed) + [G.ForwardPublish(m)] && receipts == old(receipts) + [Relay(m)]
      ensures r == Err(Router) ==> routed == old(routed) && receipts == old(receipts)
      ensures r.Err? && r.error != Router ==>
                && r.error == Persist(Database) && m.qos == 2 && routed == old(routed) + [G.ForwardPublish(m)]
                && receipts == old(receipts) + [Passed(m), Missed(m.identifier)]
    {
      hide InStep, Startable, SessionFrame, IncomingAgree, Orderly, Recorded, Follows, Fold, WellFormed, AllAllowed, Ids,
           Open, Packets, Forwards, ForwardsIn, QueueTraced;
      ValidDurable();
      SessionFrameRefl(persist.db.t, internalId);
      var _ :- SendMessageRouter(G.ForwardPublish(m));
      Receive(Relay(m));
      receipts := receipts + [Relay(m)];
      if m.qos == 2 {
        var _ :- QosIncomingStore(m.identifier);
      } else {
        ValidDurable();
      }
      r := Ok(());
    }

    /** The acknowledgement, which may be lost with the client. */
    method Acknowledge(m: Publish)
      requires Valid()
      modifies this`client, this`sent, this`changes
      ensures Valid() && Durable() && Replied([], Acks(m))
      ensures m.qos != 1 && m.qos != 2 ==> sent == old(sent)
      ensures m.qos == 1 ==> sent == old(sent) + if client then [PubAck(m.identifier)] else []
      ensures m.qos == 2 ==> sent == old(sent) + if client then [PubRec(m.identifier)] else []
    {
      hide Valid, Durable, Possible, Allowed;
      ValidDurable();
      if m.qos == 1 {
        Plain(PubAck(m.identifier));
        var _ := SendClientMessage(PubAck(m.identifier), Other(PubAck(m.identifier)));
      } else if m.qos == 2 {
        Plain(PubRec(m.identifier));
        var _ := SendClientMessage(PubRec(m.identifier), Other(PubRec(m.identifier)));
      }
    }

    // ----- subscriptions -----

    /** One filter: noted, sent to the router, and its answer awaited. */
    method Subscribe(topic: Str, qos: Byte) returns (r: Result<SubscribeAnswer, SessionError>)
      modifies this`subscriptions, this`routed, this`answers
      ensures subscriptions == old(subscriptions) + {topic}
      ensures r.Ok? ==> routed == old(routed) + [G.Subscribe(Identity(), topic, qos)]
      ensures r.Ok? ==> answers == old(answers) + [r.value]
      ensures r.Ok? ==> forall inbox ::
                G.Acts(id, old(Seat(inbox)), routed[|old(routed)|..], [G.Subscribed(id, G.FilterOf(topic))], Seat(inbox))
      ensures r.Err? ==> r.error == Router && answers == old(answers) + [NO_ANSWER]
      ensures r.Err? ==> routed == old(routed) || routed == old(routed) + [G.Subscribe(Identity(), topic, qos)]
      ensures ForwardsIn(routed) == ForwardsIn(old(routed))
    {
      hide ForwardsIn;
      subscriptions := subscriptions + {topic};
      answers := answers + [NO_ANSWER];
      var _ :- SendMessageRouter(G.Subscribe(Identity(), topic, qos));
      var dropped: bool := *;
      if dropped {
        return Err(Router);
      }
      var answer: SubscribeAnswer := *;
      answers := answers[|answers| - 1 := answer];
      forall inbox ensures
        G.Acts(id, old(Seat(inbox)), routed[|old(routed)|..], [G.Subscribed(id, G.FilterOf(topic))], Seat(inbox))
      {
        G.SubscribeActs(id, old(Seat(inbox)), topic, qos);
      }
      r := Ok(answer);
    }

    /** One message to the router and one return code for each filter of a SUBSCRIBE, then the retained messages. */
    method SubscribeMessage(mid: U16, filters: seq<(Str, Byte)>) returns (r: Result<(), SessionError>)
      requires Valid()
      modifies this`client, this`sent, this`changes, this`subscriptions, this`routed, this`answers
      ensures Moved() && Valid() && (r.Err? ==> !r.error.Persist?)
      ensures old(answers) <= answers && |answers| == |old(answers)| + |filters|
      ensures Survives(r) ==> SubscribeStep(old(Story()), mid, filters, answers[|old(answers)|..], Story())
      ensures !Survives(r) ==>
                exists through :: SubscribeFails(old(Story()), mid, filters, answers[|old(answers)|..], through, Story())
      ensures qosOutgoingMessages == old(qosOutgoingMessages)
      ensures forall t :: t in subscriptions <==> t in old(subscriptions) || exists i :: 0 <= i < |filters| && filters[i].0 == t
      ensures Survives(r) ==> AskedFor(old(routed), routed, SessionId(id, internalId, generation), filters)
      ensures Answers(sent[|old(sent)|..], mid, filters, answers[|old(answers)|..], client)
    {
      hide CodesOf, RetainedOf, SubscribesOf, SubscribesThrough, SessionFrame, Answers, AskedFor, QueueTraced, Sends;
      hide InStep, IncomingAgree, Orderly, Follows, Fold, WellFormed, AllAllowed, Ids, Open, Packets, Forwards, ForwardsIn;
      SessionFrameRefl(persist.db.t, internalId);
      var routerError, codes, retained, got, through := AskRouter(filters);
      assert answers[|old(answers)|..] == got && subscriptions == old(subscriptions) + Filters(filters);
      AskedIs(old(routed), Identity(), filters);
      hide Valid;
      var clientError := SendAnswer(SubAck(mid, codes), retained);
      AnswersIs(sent[|old(sent)|..], mid, filters, got, client);
      r := if routerError then Err(Router) else if clientError then Err(Client) else Ok(());
      assert SubscribeFails(old(Story()), mid, filters, answers[|old(answers)|..], through, Story());
    }

    /** The SUBACK, and behind it the retained messages as they are kept, without an identifier of their own. */
    method SendAnswer(suback: MQTTMessage, retained: seq<Publish>) returns (clientError: bool)
      requires Valid() && !suback.Publish?
      modifies this`client, this`sent, this`changes
      ensures Valid() && old(changes) <= changes && old(sent) <= sent
      ensures |sent| > |old(sent)| ==> sent[|old(sent)|] == suback
      ensures |sent| <= |old(sent)| + 1 + |retained| && (client ==> |sent| == |old(sent)| + 1 + |retained|)
      ensures forall k :: |old(sent)| < k < |sent| ==> sent[k] == MQTTMessage.Publish(retained[k - |old(sent)| - 1])
      ensures Goes(old(client), old(changes), [Other(suback)] + Keeps(retained), client, changes)
    {
      hide Valid, Durable, Possible, Allowed;
      ghost var full := [Other(suback)] + Keeps(retained);
      ValidDurable();
      Plain(suback);
      var acked := SendClientMessage(suback, Other(suback));
      if acked.Err? {
        assert SentTo(old(changes), full, 0, changes);
        return false;
      }
      clientError := SendRetained(retained);
      ghost var k := |sent| - |old(sent)| - 1;
      assert full[..k + 1] == [Other(suback)] + Keeps(retained)[..k];
      assert full[..|full|] == full;
      assert changes == old(changes) + full[..k + 1];
      if clientError {
        assert SentTo(old(changes), full, k + 1, changes);
      }
    }

    method SendRetained(retained: seq<Publish>) returns (lost: bool)
      requires Valid() && client
      modifies this`client, this`sent, this`changes
      ensures Valid() && old(sent) <= sent && (lost <==> !client)
      ensures |sent| <= |old(sent)| + |retained| && (lost <==> |sent| < |old(sent)| + |retained|)
      ensures forall k :: |old(sent)| <= k < |sent| ==> sent[k] == MQTTMessage.Publish(retained[k - |old(sent)|])
      ensures changes == old(changes) + Keeps(retained)[..|sent| - |old(sent)|]
    {
      hide Valid, Durable, Possible, Allowed;
      ghost var full := Keeps(retained);
      ValidDurable();
      var i := 0;
      while i < |retained|
        invariant 0 <= i <= |retained| && Valid() && Durable() && client && old(sent) <= sent
        invariant changes == old(changes) + full[..i] && |sent| == |old(sent)| + i
        invariant forall k :: |old(sent)| <= k < |sent| ==> sent[k] == MQTTMessage.Publish(retained[k - |old(sent)|])
      {
        MayRetain(retained[i]);
        var sending := SendClientMessage(MQTTMessage.Publish(retained[i]), Retained(retained[i]));
        if sending.Err? {
          return true;
        }
        assert full[..i + 1] == full[..i] + [full[i]];
        i := i + 1;
      }
      lost := false;
    }

    lemma MayRetain(p: Publish)
      ensures Possible(AllChanges(), Retained(p)) && Allowed(qosOutgoingMessages, Retained(p))
      ensures Packet(Retained(p)) == [MQTTMessage.Publish(p)]
    {}

    /** All filters in turn; after a failure the rest are still asked for. */
    method AskRouter(filters: seq<(Str, Byte)>)
      returns (routerError: bool, codes: seq<Byte>, retained: seq<Publish>,
               ghost got: seq<SubscribeAnswer>, ghost through: seq<bool>)
      modifies this`subscriptions, this`routed, this`answers
      ensures subscriptions == old(subscriptions) + set i | 0 <= i < |filters| :: filters[i].0
      ensures |through| == |filters| && routed == old(routed) + SubscribesThrough(Identity(), filters, through)
      ensures !routerError ==> routed == old(routed) + SubscribesOf(Identity(), filters)
      ensures ForwardsIn(routed) == ForwardsIn(old(routed))
      ensures answers == old(answers) + got && |got| == |filters|
      ensures codes == CodesOf(filters, got) && retained == RetainedOf(got)
    {
      hide CodesOf, RetainedOf, SubscribesOf, SubscribesThrough, ForwardsIn, G.Acts;
      NothingAsked(Identity());
      routerError, codes, retained, got, through := false, [], [], [], [];
      var i := 0;
      while i < |filters|
        invariant 0 <= i <= |filters| && |got| == |through| == i && answers == old(answers) + got
        invariant subscriptions == old(subscriptions) + set k | 0 <= k < i :: filters[k].0
        invariant ForwardsIn(routed) == ForwardsIn(old(routed))
        invariant routed == old(routed) + SubscribesThrough(Identity(), filters[..i], through)
        invariant !routerError ==> routed == old(routed) + SubscribesOf(Identity(), filters[..i])
        invariant codes == CodesOf(filters[..i], got) && retained == RetainedOf(got)
      {
        var code: Byte := 0x80;
        ghost var before := routed;
        var answer := Subscribe(filters[i].0, filters[i].1);
        AnswerStep(Identity(), filters, i, got, answers[|answers| - 1]);
        ThroughStep(Identity(), filters, i, through, routed != before);
        if answer.Err? {
          routerError := true;
        } else if answer.value.ret != 0x80 {
          retained := retained + answer.value.retained;
          code := filters[i].1;
        }
        codes := codes + [code];
        got, through := got + [answers[|answers| - 1]], through + [routed != before];
        i := i + 1;
      }
      assert filters[..i] == filters;
    }

    method Unsubscribe(topics: set<Str>) returns (r: Result<(), SessionError>)
      modifies this`subscriptions, this`routed
      ensures subscriptions == old(subscriptions) - topics
      ensures r.Ok? ==> routed == old(routed) + [G.Unsubscribe(Identity(), topics)]
      ensures r.Err? ==> r.error == Router && routed == old(routed)
      ensures r.Ok? ==> forall inbox :: G.Acts(id, old(Seat(inbox)), routed[|old(routed)|..], [], Seat(inbox))
      ensures ForwardsIn(routed) == ForwardsIn(old(routed))
    {
      hide ForwardsIn;
      subscriptions := subscriptions - topics;
      r := SendMessageRouter(G.Unsubscribe(Identity(), topics));
      if r.Ok? {
        forall inbox ensures G.Acts(id, old(Seat(inbox)), routed[|old(routed)|..], [], Seat(inbox)) {
          G.UnsubscribeActs(id, old(Seat(inbox)), topics);
        }
      }
    }

    method UnsubscribeMessage(mid: U16, topics: seq<Str>) returns (r: Result<(), SessionError>)
      requires Valid()
      modifies this`client, this`sent, this`changes, this`subscriptions, this`routed
      ensures Moved() && Valid() && (r.Err? ==> !r.error.Persist?)
      ensures subscriptions == old(subscriptions) - Named(topics)
      ensures forall t :: t in subscriptions <==> t in old(subscriptions) && t !in topics
      ensures Survives(r) ==>
                && |routed| == |old(routed)| + 1 && routed[..|old(routed)|] == old(routed) && routed[|old(routed)|].Unsubscribe?
                && var m := routed[|old(routed)|];
                   m.session == SessionId(id, internalId, generation) && forall t :: t in m.topics <==> t in topics
      ensures Survives(r) ==> routed == old(routed) + [G.Unsubscribe(Identity(), Named(topics))]
      ensures Survives(r) ==> Replied([], [Other(UnsubAck(mid))])
      ensures !Survives(r) ==> client == old(client) && changes == old(changes) && routed == old(routed)
      ensures r.Ok? ==> sent == old(sent) + [UnsubAck(mid)]
    {
      hide InStep, SessionFrame, IncomingAgree, Orderly, Follows, Fold, WellFormed, AllAllowed, Ids, Open, Packets,
           Forwards, ForwardsIn, G.Acts;
      SessionFrameRefl(persist.db.t, internalId);
      var _ :- Unsubscribe(Named(topics));
      ValidDurable();
      hide Valid, Durable, Possible, Allowed;
      Plain(UnsubAck(mid));
      r := SendClientMessage(UnsubAck(mid), Other(UnsubAck(mid)));
    }

    // ----- clean session -----

    /** Forgets everything, cancels all subscriptions under the old generation and begins the next one. When it
        fails with messages still queued, memory and tables are in step. */
    method CleanSession() returns (r: Result<(), SessionError>)
      requires Valid()
      modifies this`qosIncoming, this`receipts, this`qosOutgoing, this`qosOutgoingMessages, this`changes,
               this`subscriptions, this`routed, this`clean, this`generation, this`nextMessageId, persist.db
      ensures Moved() && Durable() && Expected(r)
      ensures r.Err? ==> r.error != Client && (changes == old(changes) ==> Valid())
      ensures receipts == old(receipts) || receipts == old(receipts) + [Reset]
      ensures r.Err? && changes == old(changes) ==>
                && qosOutgoingMessages == old(qosOutgoingMessages) && generation == old(generation) && clean == old(clean)
                && routed == old(routed) && nextMessageId == old(nextMessageId) && subscriptions == old(subscriptions)
      ensures r.Err? && changes != old(changes) ==>
                && changes == old(changes) + [Forgotten] && qosOutgoingMessages == []
                && (routed == old(routed) || routed == old(routed) + [G.Unsubscribe(old(Identity()), old(subscriptions))])
      ensures r.Ok? ==> Valid() && qosOutgoingMessages == [] && Cleaned() && changes == old(changes) + [Forgotten, Renewed]
      ensures r.Ok? ==> forall inbox ::
                G.Acts(id, old(Seat(inbox)), routed[|old(routed)|..], [G.Cleaned(id)], Seat(inbox))
    {
      hide InStep, Startable, SessionFrame, IncomingAgree, Orderly, Recorded, Follows, Fold, WellFormed, AllAllowed, Ids, Open,
           Packets, Forwards, ForwardsIn, G.Acts;
      ghost var t0 := persist.db.t;
      ValidDurable();
      SessionFrameRefl(t0, internalId);
      var _ :- ClearIncoming();
      ghost var t1 := persist.db.t;
      var cleared := ClearOutgoing();
      SessionFrameTrans(t0, t1, persist.db.t, internalId);
      if cleared.Err? {
        return cleared;
      }
      hide Valid, Durable;
      r := NextGeneration(t0);
      if r.Ok? {
        forall inbox ensures G.Acts(id, old(Seat(inbox)), routed[|old(routed)|..], [G.Cleaned(id)], Seat(inbox)) {
          G.CleanActs(id, old(Seat(inbox)));
        }
      }
    }

    method ClearIncoming() returns (r: Result<(), SessionError>)
      requires Valid()
      modifies this`qosIncoming, this`receipts, persist.db
      ensures Valid() && Durable() && SessionFrame(old(persist.db.t), persist.db.t, internalId)
      ensures r.Err? ==> r.error == Persist(Database) && receipts == old(receipts)
      ensures r.Ok? ==> qosIncoming == {} && receipts == old(receipts) + [Reset]
    {
      hide InStep, Startable, SessionFrame, IncomingAgree, Orderly, Recorded, Follows, Fold, WellFormed, AllAllowed, Ids, Open,
           Packets, Forwards, ForwardsIn;
      ghost var t0, m0 := persist.db.t, Mem();
      ValidDurable();
      SessionFrameRefl(t0, internalId);
      Receive(Reset);
      var step := persist.PersistIncomingClear(internalId);
      if step.Err? {
        return Err(Persist(Database));
      }
      ResetInStep(t0, internalId, m0);
      qosIncoming := {};
      receipts := receipts + [Reset];
      ValidDurable();
      r := Ok(());
    }

    method ClearOutgoing() returns (r: Result<(), SessionError>)
      requires Valid()
      modifies this`qosOutgoing, this`qosOutgoingMessages, this`changes, persist.db
      ensures Valid() && Durable() && SessionFrame(old(persist.db.t), persist.db.t, internalId)
      ensures r.Err? ==> r.error == Persist(Database)
      ensures r.Err? ==> changes == old(changes) && qosOutgoingMessages == old(qosOutgoingMessages)
      ensures r.Ok? ==> qosOutgoingMessages == [] && changes == old(changes) + [Forgotten]
    {
      hide InStep, Startable, SessionFrame, IncomingAgree, Orderly, Recorded, Follows, Fold, WellFormed, AllAllowed, Ids, Open,
           Packets, Forwards, ForwardsIn;
      ghost var t0, m0 := persist.db.t, Mem();
      ValidDurable();
      SessionFrameRefl(t0, internalId);
      Step(Forgotten);
      var step := persist.PersistOutClear(internalId);
      if step.Err? {
        return Err(Persist(Database));
      }
      ClearInStep(t0, internalId, m0);
      qosOutgoing := {};
      qosOutgoingMessages := [];
      changes := changes + [Forgotten];
      ValidDurable();
      r := Ok(());
    }

    /** The second half of a clean session, with nothing queued any more. */
    method NextGeneration(ghost t0: Tables) returns (r: Result<(), SessionError>)
      requires Valid() && qosOutgoingMessages == [] && SessionFrame(t0, persist.db.t, internalId)
      modifies this`subscriptions, this`routed, this`clean, this`generation, this`nextMessageId, this`changes,
               persist.db
      ensures SessionFrame(t0, persist.db.t, internalId) && Durable() && Expected(r)
      ensures r.Err? ==> r.error != Client && changes == old(changes)
      ensures routed == old(routed) || routed == old(routed) + [G.Unsubscribe(old(Identity()), old(subscriptions))]
      ensures r.Ok? ==> Valid() && clean && generation == old(generation) + 1 && nextMessageId == 1
      ensures r.Ok? ==> changes == old(changes) + [Renewed]
      ensures r.Ok? ==> subscriptions == {} && routed == old(routed) + [G.Unsubscribe(old(Identity()), old(subscriptions))]
    {
      hide InStep, Startable, SessionFrame, IncomingAgree, Orderly, Recorded, Follows, Fold, WellFormed, AllAllowed, Ids, Open,
           Packets, Forwards, ForwardsIn;
      var _ :- UnsubscribeAll();
      r := BeginGeneration(t0);
    }

    method BeginGeneration(ghost t0: Tables) returns (r: Result<(), SessionError>)
      requires Valid() && qosOutgoingMessages == [] && SessionFrame(t0, persist.db.t, internalId)
      modifies this`clean, this`generation, this`nextMessageId, this`changes, persist.db
      ensures SessionFrame(t0, persist.db.t, internalId) && Durable() && Expected(r)
      ensures r.Err? ==> r.error != Client && changes == old(changes)
      ensures r.Ok? ==> Valid() && clean && generation == old(generation) + 1 && nextMessageId == 1
      ensures r.Ok? ==> changes == old(changes) + [Renewed]
    {
      hide InStep, Startable, SessionFrame, IncomingAgree, Orderly, Recorded, Follows, Fold, WellFormed, AllAllowed, Ids, Open,
           Packets, Forwards, ForwardsIn;
      ghost var t, m := persist.db.t, Mem();
      ValidDurable();
      Step(Renewed);
      clean := true;
      generation := generation + 1;
      nextMessageId := 1;
      var stored := persist.PersistUpdateGeneration(internalId, generation);
      if stored.Err? {
        return Err(Persist(Database));
      }
      GenerationInStep(t, internalId, m, generation);
      SessionFrameTrans(t0, t, persist.db.t, internalId);
      changes := changes + [Renewed];
      ValidDurable();
      r := Ok(());
    }

    method UnsubscribeAll() returns (r: Result<(), SessionError>)
      requires Valid()
      modifies this`subscriptions, this`routed
      ensures Valid() && Durable()
      ensures r.Ok? ==> subscriptions == {} && routed == old(routed) + [G.Unsubscribe(Identity(), old(subscriptions))]
      ensures r.Err? ==> r.error == Router && routed == old(routed)
      ensures ForwardsIn(routed) == ForwardsIn(old(routed))
    {
      hide InStep, Startable, IncomingAgree, Orderly, Recorded, Follows, QueueTraced, Packets, Forwards, ForwardsIn, G.Acts;
      ValidDurable();
      var _ :- Unsubscribe(subscriptions);
      subscriptions := {};
      r := Ok(());
    }

    // ----- a client connects -----

    /** The CONNACK and all that is queued. A clean session that failed is only survived with its queue intact. */
    method NewClientConnected(cleanSession: bool) returns (r: Result<(), SessionError>)
      requires Valid()
      modifies this, persist.db
      ensures Moved() && Durable() && Expected(r)
      ensures Survives(r) ==> Valid() && !clean && EventStep(start, old(Story()), NewClient(cleanSession), Story())
      ensures Survives(r) ==>
                Connected(start, old(Story()), old(clean), cleanSession, r.Ok?, Story(), qosOutgoingMessages)
      ensures r.Ok? ==> client && old(sent) <= sent
      ensures r.Ok? ==>
                Welcomed(sent[|old(sent)|..], if cleanSession then [] else old(qosOutgoingMessages), !cleanSession && !old(clean))
      ensures !Survives(r) ==> FailStep(start, old(Story()), NewClient(cleanSession), Story())
      ensures r == Err(Client) ==> !client
    {
      hide InStep, Startable, SessionFrame, IncomingAgree, Orderly, Recorded, Follows, Fold, WellFormed, AllAllowed, Ids, Open,
           Packets, Forwards, ForwardsIn, Steady, Wired, Sends, Goes, SentTo;
      hide G.Acts, Replay, Handings, DupFirst, Valid, Durable, QueueTraced, Prepared, Greeted, Connected, EventStep, FailStep,
           Welcomed;
      ghost var t0, q := persist.db.t, qosOutgoingMessages;
      ValidDurable();
      OnWire();
      Traced();
      SessionFrameRefl(t0, internalId);
      var cleaned, parted, forgot := Prepare(cleanSession);
      ghost var t1, a, nowClean := persist.db.t, Story(), clean;
      var code := if cleaned.Ok? then Accepted else ServerUnavailable;
      var answered, replayed := Greet(code);
      SessionFrameTrans(t0, t1, persist.db.t, internalId);
      r := if replayed.Err? then replayed else if cleaned.Ok? then answered else cleaned;
      if Survives(r) {
        ConnectedIs(start, old(Story()), old(clean), cleanSession, cleaned.Ok?, parted, answered.Ok?, replayed.Ok?, code,
                    nowClean, a, Story(), qosOutgoingMessages);
        OnWire();
        if r.Ok? {
          WelcomedIs(start, old(Story()), old(clean), cleanSession, Story(), qosOutgoingMessages);
        }
      } else {
        ConnectBreaks(start, old(Story()), cleanSession, cleaned.Ok?, parted, forgot, !nowClean, a, Story());
      }
    }

    /** The client before is told to go, and everything is forgotten if that is asked for. */
    method Prepare(cleanSession: bool) returns (cleaned: Result<(), SessionError>, ghost parted: bool, ghost forgot: bool)
      requires Valid()
      modifies this`client, this`sent, this`qosIncoming, this`receipts, this`qosOutgoing, this`qosOutgoingMessages, this`changes,
               this`subscriptions, this`routed, this`clean, this`generation, this`nextMessageId, persist.db
      ensures Moved() && Durable() && Expected(cleaned) && cleaned != Err(Client) && (Valid() || forgot)
      ensures Prepared(old(Story()), cleanSession, cleaned.Ok?, parted, forgot, Story())
      ensures cleaned.Err? ==> cleanSession
      ensures forgot ==> cleaned.Err?
      ensures cleanSession && cleaned.Ok? ==> clean
      ensures !(cleanSession && cleaned.Ok?) && !forgot ==> clean == old(clean)
      ensures qosOutgoingMessages == if (cleanSession && cleaned.Ok?) || forgot then [] else old(qosOutgoingMessages)
    {
      hide InStep, Startable, SessionFrame, IncomingAgree, Orderly, Recorded, Follows, Fold, AllAllowed, Open, Packets,
           Forwards, ForwardsIn, Valid, Durable, G.Acts;
      ValidDurable();
      SessionFrameRefl(persist.db.t, internalId);
      parted := DropClient();
      cleaned, forgot := Ok(()), false;
      ghost var dropped := changes;
      if cleanSession {
        cleaned := CleanSession();
        forgot := cleaned.Err? && changes != dropped;
      }
    }

    method Greet(code: ReturnCode) returns (answered: Result<(), SessionError>, replayed: Result<(), SessionError>)
      requires Durable() && (Valid() || qosOutgoingMessages == [])
      modifies this`client, this`clean, this`sent, this`qosOutgoingMessages, this`changes, persist.db
      ensures !clean && Durable() && Moved() && (old(Valid()) && Survives(replayed) ==> Valid())
      ensures old(qosOutgoingMessages) == [] ==> replayed.Ok?
      ensures Expected(replayed) && (answered.Err? ==> answered.error == Client)
      ensures Survives(replayed) ==> (client <==> answered.Ok? && replayed.Ok?)
      ensures old(changes) <= changes <= old(changes) + [Other(ConnAck(code, !old(clean)))] + Handings(old(qosOutgoingMessages))
      ensures Survives(replayed) ==> exists k ::
                Greeted(old(changes), changes, old(qosOutgoingMessages), qosOutgoingMessages,
                        answered.Ok?, code, old(clean), k) && (replayed.Ok? <==> k == |old(qosOutgoingMessages)|)
    {
      hide InStep, Startable, SessionFrame, IncomingAgree, Orderly, Recorded, Follows, Fold, WellFormed, AllAllowed, Ids, Open,
           Packets, Forwards, ForwardsIn;
      hide Replay, Handings, DupFirst, Valid, Durable, Possible, Allowed, StoppedAt;
      SessionFrameRefl(persist.db.t, internalId);
      ghost var q := qosOutgoingMessages;
      ReplayEnds([]);
      ReplayEnds(q);
      var present := !clean;
      Renew();
      Plain(ConnAck(code, present));
      answered := SendClientMessage(ConnAck(code, present), Other(ConnAck(code, present)));
      ghost var sent1, changes1 := sent, changes;
      replayed := SendQueuedMessages();
      if Survives(replayed) {
        ghost var k :| ReplayedTo(sent1, changes1, q, k) && (replayed.Ok? <==> k == |q|) && (answered.Err? ==> k == 0);
        HandingsPrefix(q, k);
        assert Greeted(old(changes), changes, q, qosOutgoingMessages, answered.Ok?, code, old(clean), k);
      } else {
        ghost var k :| StoppedAt(sent1, changes1, q, k);
        StoppedPrefix(sent1, changes1, q, k);
      }
    }

    /** A new client is there, for a session that is there already from now on. */
    method Renew()
      modifies this`client, this`clean
      ensures client && !clean && (old(Valid()) ==> Valid()) && (old(Durable()) ==> Durable())
    {
      hide InStep, Startable, SessionFrame, IncomingAgree, Orderly, Recorded, Follows, Fold, WellFormed, AllAllowed, Ids, Open,
           Packets, Forwards, ForwardsIn;
      clean := false;
      client := true;
    }

    lemma StoppedPrefix(sent0: seq<MQTTMessage>, changes0: seq<Change>, q: Queue, k: int)
      requires StoppedAt(sent0, changes0, q, k)
      ensures changes0 <= changes <= changes0 + Handings(q)
    {
      hide Handings, Replay;
      HandingStops(changes0, q, k);
    }

    /** The client that was connected, if any, is told to go. */
    method DropClient() returns (ghost parted: bool)
      requires Durable()
      modifies this`client, this`sent, this`changes
      ensures !client && (parted ==> old(client)) && sent == old(sent) + if parted then [Disconnect] else []
      ensures changes == old(changes) + Parting(parted)
      ensures Durable() && (old(Valid()) ==> Valid())
    {
      hide InStep, Startable, SessionFrame, IncomingAgree, Orderly, Recorded, Follows, Fold, WellFormed, AllAllowed, Ids, Open,
           Packets, Forwards, ForwardsIn, Possible, Allowed;
      parted := false;
      if client {
        Plain(Disconnect);
        var sending := SendClientMessage(Disconnect, Other(Disconnect));
        parted := sending.Ok?;
      }
      client := false;
    }

    // ----- start and event loop -----

    /** Reads the session back from its rows, or makes a row for it. */
    method InitPersistSession() returns (r: Result<(), SessionError>)
      requires Resumable(persist.db.t, id, receipts, past)
      requires Blank()
      modifies this, persist.db
      ensures !client && sent == [] && routed == [] && changes == [] && receipts == old(receipts)
      ensures r.Err? ==> !Survives(r) && persist.db.t == old(persist.db.t)
      ensures r.Ok? ==> Valid() && SessionFrame(old(persist.db.t), persist.db.t, internalId)
      ensures r.Ok? ==> start == qosOutgoingMessages && (clean <==> NoRow(old(persist.db.t), id))
      ensures r.Ok? ==> subscriptions == if clean then {} else SubscribedTopics(persist.db.t, internalId)
    {
      hide InStep, Startable, SessionFrame, IncomingAgree, Orderly, Recorded, Follows, Sane, Loadable, Open,
           WellFormed, QueueAgree, Packets, Forwards, ForwardsIn;
      hide Resumable, NoRow, SubscribedTopics, AllAllowed, Fold, Ids;
      ghost var t0 := persist.db.t;
      ResumableCases(t0, id, receipts, past);
      var info := persist.PersistSession(id);
      if info.Err? {
        return Err(Persist(Database));
      }
      internalId, generation, clean, nextMessageId :=
        info.value.internalId, info.value.generation, info.value.clean, info.value.nextMid;
      start := [];
      assert Wired() by { NothingRouted(); }
      SessionFrameRefl(t0, internalId);
      if clean {
        NewInStep(t0, internalId, id);
        NothingQueued();
        assert AllChanges() == past;
        r := Ok(());
      } else {
        ResumableRow(t0, id, receipts, past, internalId);
        r := LoadQueue();
      }
    }

    method LoadQueue() returns (r: Result<(), SessionError>)
      requires Sane(persist.db.t) && Loadable(persist.db.t, internalId)
      requires IncomingAgree(Open(receipts), persist.db.t, internalId) && Orderly(receipts)
      requires Recorded(persist.db.t, internalId, past)
      requires internalId in persist.db.t.sessions
      requires persist.db.t.sessions[internalId] == SessionRow(id, generation, nextMessageId)
      requires changes == [] && qosOutgoing == {} && subscriptions == {} && Wired()
      modifies this`subscriptions, this`qosIncoming, this`qosOutgoing, this`qosOutgoingMessages, this`start
      ensures r.Err? ==> !Survives(r)
      ensures r.Ok? ==> Valid() && start == qosOutgoingMessages && subscriptions == SubscribedTopics(persist.db.t, internalId)
    {
      hide Ids;
      hide Startable, SessionFrame, Orderly, Recorded, Follows, Sane, Loadable, Open, QueueAgree, SubscribedTopics, Packets,
           Forwards, ForwardsIn;
      var topics := persist.LoadPersistentSubscriptions(internalId);
      if topics.Err? {
        return Err(Persist(Database));
      }
      subscriptions := topics.value;
      var mids := persist.PersistIncomingLoad(internalId);
      if mids.Err? {
        return Err(Persist(Database));
      }
      qosIncoming := mids.value;
      assert forall x :: x in qosIncoming <==> x in Open(receipts);
      var entries := persist.PersistOutLoad(internalId);
      if entries.Err? {
        return Err(Persist(Database));
      }
      ghost var rows :| Reads(persist.db.t, internalId, rows, entries.value);
      LoadAgree(persist.db.t, internalId, rows, entries.value);
      LoadFollows(persist.db.t, internalId, rows, entries.value, past);
      assert AllChanges() == past;
      AgreeWellFormed(entries.value, persist.db.t, internalId);
      NoteQueued(entries.value);
      start := qosOutgoingMessages;
      r := Ok(());
    }

    /** The queue in memory, with the identifiers in flight. */
    method NoteQueued(entries: Queue)
      requires qosOutgoing == {}
      modifies this`qosOutgoing, this`qosOutgoingMessages
      ensures qosOutgoingMessages == entries && qosOutgoing == Ids(entries)
    {
      var i := 0;
      while i < |entries|
        invariant 0 <= i <= |entries| && qosOutgoing == Ids(entries[..i])
      {
        IdsStep(entries, i);
        qosOutgoing := qosOutgoing + {Mid(entries[i])};
        i := i + 1;
      }
      assert entries[..i] == entries;
      qosOutgoingMessages := entries;
    }

    lemma NothingRouted()
      ensures Packets([]) == [] && Forwards(receipts) == Forwards(receipts) + ForwardsIn([])
    {}

    /** One event of the loop: what it did if it is survived, how far it came if not. */
    method HandleEvent(e: SessionEvent) returns (r: Result<(), SessionError>)
      requires Valid()
      modifies this, persist.db
      ensures Moved() && Durable() && Expected(r)
      ensures Survives(r) ==> Valid() && EventStep(start, old(Story()), e, Story())
      ensures !Survives(r) ==> FailStep(start, old(Story()), e, Story())
      ensures e.Internal? && e.session.generation != old(generation) ==>
                r.Ok? && sent == old(sent) && persist.db.t == old(persist.db.t)
      ensures e.Internal? ==> DeliveredTo(id, old(Seat([])), Seat([]), e.session, e.delivery)
      ensures e.NewClient? && Survives(r) ==>
                Connected(start, old(Story()), old(clean), e.cleanSession, r.Ok?, Story(), qosOutgoingMessages)
    {
      hide InStep, Startable, SessionFrame, IncomingAgree, Fold, AllAllowed, Ids, WellFormed, Orderly, Recorded, Follows, Open,
           Packets, Forwards, ForwardsIn, QueueTraced, Wired, DeliveryStep, DeliveryFails, ConnectStep, ConnectFails,
           ClientStep, ClientFails;
      match e {
        case Internal(session, message) =>
          r := InternalMessage(session, message);
        case FromClient(message) =>
          r := ClientMessage(message);
        case NewClient(cleanSession) =>
          r := NewClientConnected(cleanSession);
      }
    }

    /** A delivery is taken under the own generation, and dropped otherwise. */
    method InternalMessage(session: SessionId, message: MQTTMessage) returns (r: Result<(), SessionError>)
      requires Valid()
      modifies this`client, this`sent, this`nextMessageId, this`qosOutgoing, this`qosOutgoingMessages, this`changes,
               persist.db
      ensures Moved() && Durable() && Expected(r)
      ensures Survives(r) ==> Valid() && EventStep(start, old(Story()), Internal(session, message), Story())
      ensures !Survives(r) ==> FailStep(start, old(Story()), Internal(session, message), Story())
      ensures session.generation != old(generation) ==>
                r.Ok? && sent == old(sent) && persist.db.t == old(persist.db.t)
      ensures DeliveredTo(id, old(Seat([])), Seat([]), session, message)
    {
      hide InStep, Startable, SessionFrame, IncomingAgree, Fold, AllAllowed, Ids, WellFormed, Orderly, Recorded, Follows, Open,
           Packets, Forwards, ForwardsIn, QueueTraced, Wired, DeliveryStep, DeliveryFails, DeliveredTo;
      ValidDurable();
      SessionFrameRefl(persist.db.t, internalId);
      if session.generation == generation && message.Publish? {
        ghost var mid := nextMessageId;
        r := InternalPublishMessage(message.publish);
        if Survives(r) {
          assert DeliveryStep(old(Story()), message.publish, mid, Story());
        } else {
          ghost var k :| BrokenOff(message.publish, mid, k);
          assert DeliveryFails(old(Story()), message.publish, mid, k, Story());
        }
      } else {
        r := Ok(());
      }
      DeliveredIs(id, old(Seat([])), session, message);
    }

    method ClientMessage(message: MQTTMessage) returns (r: Result<(), SessionError>)
      requires Valid()
      modifies this, persist.db
      ensures Moved() && Durable() && Expected(r)
      ensures Survives(r) ==> Valid() && ClientStep(old(Story()), message, Story())
      ensures !Survives(r) ==> ClientFails(old(Story()), message, Story())
    {
      hide Answers, RetainedOf, Named, Filters;
      hide Goes, SentTo, Keeps, CodesOf, Handings, Wired, QueueTraced;
      hide InStep, Startable, SessionFrame, IncomingAgree, Fold, AllAllowed, Ids, WellFormed, Orderly, Recorded, Follows, Open,
           Packets, Forwards, ForwardsIn, Sends, PublishStep, SubscribeStep, SubscribeFails, Steady;
      ValidDurable();
      SessionFrameRefl(persist.db.t, internalId);
      hide Valid, Durable;
      match message {
        case Publish(m) => r := PublishMessage(m);
        case PubAck(mid) => r := PubackMessage(mid);
        case PubRel(mid) => r := PubrelMessage(mid);
        case PubRec(mid) => r := PubrecMessage(mid);
        case PubComp(mid) => r := PubcompMessage(mid);
        case Subscribe(mid, filters) =>
          r := SubscribeMessage(mid, filters);
          ValidDurable();
        case Unsubscribe(mid, topics) =>
          r := UnsubscribeMessage(mid, topics);
          ValidDurable();
        case _ => r := Ok(());
      }
    }

    /**
     * The event loop from start to end. `life` is what it did: event after event as long as it goes on, then the event
     * it gave up over, then the DISCONNECT. However it ends, what went to clients and to the router is what the
     * histories say, and the tables carry the histories, so the session can be started again.
     */
    method RunLoop(events: seq<SessionEvent>) returns (started: bool, running: bool, ghost life: Life)
      requires Resumable(persist.db.t, id, receipts, past)
      requires Blank()
      modifies this, persist.db
      ensures running ==> Valid() && Unbroken(changes, 0)
      ensures running <==> started && |life.story| == |events| + 1
      ensures started ==> Durable() && SessionFrame(old(persist.db.t), persist.db.t, internalId)
      ensures !started ==> persist.db.t == old(persist.db.t) && sent == [] && routed == [] && receipts == earlier
      ensures earlier <= receipts
      ensures started ==> life.start == start && life.end == Story() && Lived(life, events) && Begins(life, earlier)
    {
      hide InStep, Startable, SessionFrame, IncomingAgree, Fold, AllAllowed, Ids, WellFormed, Orderly, Recorded, Follows, Open,
           Packets, Forwards, ForwardsIn, Sane, Resumable, EventStep, FailStep, Connected, DeliveredTo, Unbroken, Chained, Steady;
      ghost var t0 := persist.db.t;
      var init := InitPersistSession();
      started, running := init.Ok?, init.Ok?;
      ghost var story := [Story()];
      if running {
        ValidDurable();
      }
      NothingChained(start, Story());
      var i := 0;
      while running && i < |events|
        invariant 0 <= i <= |events| && earlier <= receipts && |story| >= 1
        invariant running ==> started && Valid() && Unbroken(changes, 0) && |story| == i + 1 && story[i] == Story()
        invariant started ==> Durable() && SessionFrame(t0, persist.db.t, internalId)
        invariant !started ==> !client && persist.db.t == t0 && sent == [] && routed == [] && receipts == earlier
        invariant started ==> 1 <= |story| <= i + 1 && Chained(start, story, events[..|story| - 1])
        invariant started ==> Begins(Life(start, story, Story()), earlier)
        invariant started && !running ==>
                    |story| <= i && FailStep(start, story[|story| - 1], events[|story| - 1], Story())
      {
        ghost var t1, a := persist.db.t, Story();
        var r := HandleEvent(events[i]);
        SessionFrameTrans(t0, t1, persist.db.t, internalId);
        running := Survives(r);
        if running {
          StepUnbroken(start, a, events[i], Story());
          ChainedStep(start, story, events, i, Story());
          story := story + [Story()];
        }
        i := i + 1;
      }
      if !running && client {
        Plain(Disconnect);
        var _ := SendClientMessage(Disconnect, Other(Disconnect));
      }
      life := Life(start, story, Story());
    }
  }

  /**
   * One start after the other on the same tables, each with its own events, whatever goes wrong in it. `packets` and
   * `routed` are all that went to clients and to the router. They are what the histories say, the histories are those
   * of the lives that were led, and the next start can always be made.
   */
  method Lives(persist: PersistSessionSQL, id: Str, runs: seq<seq<SessionEvent>>,
               ghost past0: seq<Change>, ghost receipts0: seq<Receipt>)
    returns (packets: seq<MQTTMessage>, routed: seq<G.RouterMessage>, ghost past: seq<Change>, ghost receipts: seq<Receipt>,
             ghost lives: seq<Option<Life>>)
    requires Resumable(persist.db.t, id, receipts0, past0)
    modifies persist.db
    ensures Resumable(persist.db.t, id, receipts, past) && Lawful(past) && Orderly(receipts)
    ensures past0 <= past && receipts0 <= receipts
    ensures Packets(past) == Packets(past0) + packets
    ensures Forwards(receipts) == Forwards(receipts0) + ForwardsIn(routed)
    ensures |lives| == |runs| && past == PastAfter(past0, lives) && receipts == ReceiptsAfter(receipts0, lives)
    ensures forall i :: 0 <= i < |runs| ==> LivedAt(receipts0, lives, runs, i)
    ensures receipts0 == [] ==> forall mid: U16 ::
              Times(ForwardsIn(routed), mid) <= Closings(receipts, mid) + if mid in Open(receipts) then 1 else 0
  {
    hide Times, Closings, Open;
    hide Resumable, Orderly, Lawful, Packets, Forwards, ForwardsIn, Lived, Begins, PastAfter, ReceiptsAfter, LivedAt;
    packets, routed, past, receipts, lives := [], [], past0, receipts0, [];
    NothingYet(past, receipts);
    var i := 0;
    while i < |runs|
      invariant 0 <= i <= |runs| && past0 <= past && receipts0 <= receipts
      invariant Resumable(persist.db.t, id, receipts, past)
      invariant Packets(past) == Packets(past0) + packets
      invariant Forwards(receipts) == Forwards(receipts0) + ForwardsIn(routed)
      invariant |lives| == i && past == PastAfter(past0, lives) && receipts == ReceiptsAfter(receipts0, lives)
      invariant forall k :: 0 <= k < i ==> LivedAt(receipts0, lives, runs, k)
    {
      ghost var life, changes;
      var sent, passed;
      sent, passed, changes, receipts, life := Live(persist, id, runs[i], past, receipts);
      LifeAdded(past0, receipts0, lives, runs, life);
      PacketsAppend(past, changes);
      ForwardsInAppend(routed, passed);
      past, lives := past + changes, lives + [life];
      packets, routed := packets + sent, routed + passed;
      i := i + 1;
    }
    ResumableLawful(persist.db.t, id, receipts, past);
    if receipts0 == [] {
      RoutedBound(receipts, routed);
    }
  }

  /** One start, which may fail before it has read the tables. */
  method Live(persist: PersistSessionSQL, id: Str, events: seq<SessionEvent>,
              ghost past: seq<Change>, ghost receipts0: seq<Receipt>)
    returns (packets: seq<MQTTMessage>, routed: seq<G.RouterMessage>, ghost changes: seq<Change>, ghost receipts: seq<Receipt>,
             ghost life: Option<Life>)
    requires Resumable(persist.db.t, id, receipts0, past)
    modifies persist.db
    ensures Resumable(persist.db.t, id, receipts, past + changes) && receipts0 <= receipts
    ensures packets == Packets(changes) && Forwards(receipts) == Forwards(receipts0) + ForwardsIn(routed)
    ensures life.Some? ==> Lived(life.value, events) && Begins(life.value, receipts0)
    ensures changes == (if life.Some? then life.value.end.changes else [])
    ensures receipts == if life.Some? then life.value.end.receipts else receipts0
  {
    hide Resumable, Startable, Recorded, IncomingAgree, Orderly, Packets, Forwards, ForwardsIn, Lived, Begins;
    var session := new MQTTSession(persist, id, past, receipts0);
    var started, _, alive := session.RunLoop(events);
    packets, routed := session.sent, session.routed;
    if started {
      DurableResumable(persist.db.t, session.internalId, id, session.receipts, session.AllChanges());
      changes, receipts, life := session.changes, session.receipts, Some(alive);
    } else {
      changes, receipts, life := [], receipts0, None;
      NothingYet(past, receipts0);
      assert past + changes == past;
    }
  }

  /** A delivery counts under the own generation only; taking it from the inbox is a step of the protocol. */
  ghost predicate DeliveredTo(name: Str, a: G.SessionState, b: G.SessionState, session: SessionId, delivery: MQTTMessage) {
    delivery.Publish? ==>
      forall via, rest ::
        G.Acts(name, a.(inbox := [G.Delivery(session, delivery.publish, via)] + rest), [],
               if session.generation == a.generation then [G.Accepted(name, via)] else [], b.(inbox := rest))
  }

  lemma DeliveredIs(name: Str, a: G.SessionState, session: SessionId, delivery: MQTTMessage)
    ensures DeliveredTo(name, a, a, session, delivery)
  {
    hide G.Acts;
    if delivery.Publish? {
      forall via, rest ensures
        G.Acts(name, a.(inbox := [G.Delivery(session, delivery.publish, via)] + rest), [],
               if session.generation == a.generation then [G.Accepted(name, via)] else [], a.(inbox := rest))
      {
        G.ReceiveActs(name, a, G.Delivery(session, delivery.publish, via), rest);
      }
    }
  }

  /** What a session keeps, running or not: its memory while it runs, and the histories of all its starts. */
  datatype Party = Party(name: Str, memory: Option<Memory>, past: seq<Change>, receipts: seq<Receipt>)

  /** The tables carry both histories, and memory, if there is one, is in step with them. */
  ghost predicate InOrder(t: Tables, s: int, p: Party) {
    && Startable(t, s, p.name) && Recorded(t, s, p.past)
    && Orderly(p.receipts) && IncomingAgree(Open(p.receipts), t, s)
    && (p.memory.Some? ==>
          var m := p.memory.value;
          InStep(t, s, m) && m.name == p.name && m.incoming == Open(p.receipts) && Follows(m.queue, m.nextMid, p.past))
  }

  /** After a pass whose store failed, the tables know nothing of it, so every memory started from them takes the
      same publish for a new one and passes it on again. */
  lemma MissedPassRepeats(t: Tables, s: int, m: Memory, receipts: seq<Receipt>, p: Publish)
    requires InStep(t, s, m) && m.incoming == Open(receipts) && Orderly(receipts) && ExactlyOnce(receipts)
    requires p.qos == 2 && p.identifier !in m.incoming
    ensures var g := receipts + [Passed(p), Missed(p.identifier)];
            && Orderly(g) && IncomingAgree(Open(g), t, s)
            && (forall m' :: InStep(t, s, m') ==> p.identifier !in m'.incoming)
            && Orderly(g + [Passed(p)]) && !ExactlyOnce(g + [Passed(p)])
  {
    hide Sane, QueueAgree, Orderly, ExactlyOnce, Open;
    MissRepeats(receipts, p);
    var a := receipts + [Passed(p)];
    assert receipts + [Passed(p), Missed(p.identifier)] == a + [Missed(p.identifier)];
    OpenStep(receipts, Passed(p));
    OpenStep(a, Missed(p.identifier));
  }

  /** Tables from which a session of this name, with these histories, can be started. */
  ghost predicate Resumable(t: Tables, name: Str, receipts: seq<Receipt>, past: seq<Change>) {
    && Sane(t) && Orderly(receipts) && (NoRow(t, name) ==> Open(receipts) == {} && Follows([], 1, past))
    && forall i :: i in t.sessions && t.sessions[i].name == name ==>
         Loadable(t, i) && IncomingAgree(Open(receipts), t, i) && Recorded(t, i, past)
  }

  lemma ResumableCases(t: Tables, name: Str, receipts: seq<Receipt>, past: seq<Change>)
    requires Resumable(t, name, receipts, past)
    ensures Sane(t) && Orderly(receipts) && (NoRow(t, name) ==> Open(receipts) == {} && Follows([], 1, past))
    ensures forall i :: i in t.sessions && t.sessions[i].name == name ==> !NoRow(t, name)
  {}

  lemma ResumableRow(t: Tables, name: Str, receipts: seq<Receipt>, past: seq<Change>, i: int)
    requires Resumable(t, name, receipts, past) && i in t.sessions && t.sessions[i].name == name
    ensures Loadable(t, i) && IncomingAgree(Open(receipts), t, i) && Recorded(t, i, past)
  {}

  lemma NothingQueued()
    ensures Ids([]) == {} && WellFormed([]) && AllAllowed([], []) && Fold([], []) == []
  {}

  /** A name that was never used. */
  lemma FreshResumable(t: Tables, name: Str)
    requires Sane(t) && NoRow(t, name)
    ensures Resumable(t, name, [], [])
  {
    FollowsNothing();
  }

  lemma ResumableLawful(t: Tables, name: Str, receipts: seq<Receipt>, past: seq<Change>)
    requires Resumable(t, name, receipts, past)
    ensures Lawful(past) && Orderly(receipts)
  {}

  lemma AgreeWellFormed(q: Queue, t: Tables, s: int)
    requires QueueAgree(q, t, s)
    ensures WellFormed(q)
  {}

  lemma IdsStep(q: Queue, i: nat)
    requires i < |q|
    ensures Ids(q[..i + 1]) == Ids(q[..i]) + {Mid(q[i])}
  {}

  /** A session that gave up can be started again with the same histories. */
  lemma DurableResumable(t: Tables, s: int, name: Str, receipts: seq<Receipt>, past: seq<Change>)
    requires Startable(t, s, name) && Recorded(t, s, past) && Orderly(receipts) && IncomingAgree(Open(receipts), t, s)
    ensures Resumable(t, name, receipts, past)
  {}
}
