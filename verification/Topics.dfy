/** The topic index of the router: a mutable tree of nodes, one per level, mirrored into the tables. */
module Topics {
  import opened Basics
  import opened Paths
  import opened Matching
  import opened Tables
  import opened BrokerTables
  import opened TopicData
  import opened Reload

  class Topic {
    var topics: map<Str, Topic>
    var internalId: Option<int>
    var clients: Clients
    var message: Option<Publish>

    constructor (internalId: Option<int>)
      ensures topics == map[] && Here() == NodeData(internalId, map[], None)
    {
      topics, clients, message := map[], map[], None;
      this.internalId := internalId;
    }

    ghost function Here(): NodeData
      reads this
    {
      NodeData(internalId, clients, message)
    }

    method SetSubscribed(session: SessionId, qos: Byte) returns (isNew: bool)
      modifies this`clients
      ensures Here() == WithEntry(old(Here()), session, qos)
      ensures isNew <==> session.session !in old(clients)
    {
      isNew := session.session !in clients;
      clients := clients[session.session := TopicEntry(session, qos)];
    }

    method SetUnsubscribed(client: Str) returns (removed: bool)
      modifies this`clients
      ensures Here() == WithoutEntry(old(Here()), client)
      ensures removed <==> client in old(clients)
    {
      removed := client in clients;
      clients := clients - {client};
    }
  }

  class Subscriptions {
    const persist: PersistTopicSQL
    const root: Topic
    var gaugeSubscriptions: int
    var gaugeRetained: int
    /** Every node of the tree under the path that leads to it. */
    ghost var nodes: map<Path, Topic>
    /** Nodes that calls of an earlier life left with a row they do not use. */
    ghost var spare: set<Path>

    constructor (persist: PersistTopicSQL)
      ensures this.persist == persist && fresh(nodes.Values)
      ensures Shape() && Data() == map[[] := BLANK] && spare == {}
    {
      this.persist := persist;
      gaugeSubscriptions, gaugeRetained := 0, 0;
      var r := new Topic(None);
      root := r;
      nodes := map[[] := r];
      spare := {};
    }

    // ----- the tree and its flat form -----

    ghost function Edges(): map<Path, map<Str, Topic>>
      reads this`nodes, nodes.Values
    {
      map p | p in nodes :: nodes[p].topics
    }

    ghost predicate Shape()
      reads this`nodes, nodes.Values
    {
      IsTree(nodes, Edges(), root)
    }

    ghost function Data(): Data
      reads this`nodes, nodes.Values
    {
      map p | p in nodes :: nodes[p].Here()
    }

    ghost predicate Valid()
      reads this, nodes.Values, persist.db
    {
      && Shape()
      && Sound(Data(), persist.db.t, spare)
      && Counted(Data())
    }

    /** The gauges count all subscriptions and all retained messages. */
    ghost predicate Counted(d: Data)
      reads this`gaugeSubscriptions, this`gaugeRetained
    {
      gaugeSubscriptions == |Entries(d)| && gaugeRetained == |Holding(d)|
    }

    lemma InUse()
      requires Valid()
      ensures Shape() && Loadable(persist.db.t) && AllKeyed(ClientMap(Data()))
    {
      hide Shape, Split;
      SoundLoadable(Data(), persist.db.t, spare);
      AgreeKeyed(Data(), persist.db.t);
    }

    lemma DataPrefixClosed()
      requires Shape()
      ensures PrefixClosed(Data().Keys)
    {
      forall p | p in nodes && p != [] ensures Parent(p) in nodes {
        assert Linked(nodes, Edges(), p);
      }
    }

    lemma Distinct(p: Path)
      requires Shape() && p in nodes
      ensures forall q :: q in nodes && q != p ==> nodes[q] != nodes[p]
    {}

    lemma Outline()
      requires Shape()
      ensures [] in nodes && nodes[[]] == root
      ensures Data().Keys == nodes.Keys
      ensures forall p :: p in nodes ==> Data()[p] == nodes[p].Here()
      ensures PrefixClosed(Data().Keys)
    {
      DataPrefixClosed();
    }

    lemma Filed(p: Path)
      ensures p in nodes <==> p in Data()
    {}

    lemma ChildIs(p: Path, l: Str)
      requires Shape() && p in nodes
      ensures l in nodes[p].topics <==> p + [l] in nodes
      ensures l in nodes[p].topics ==> nodes[p].topics[l] == nodes[p + [l]]
    {
      if p + [l] in nodes {
        assert Linked(nodes, Edges(), p + [l]);
        assert Parent(p + [l]) == p;
      }
    }

    /** A vacant entry of `tm.topics` takes `node`. */
    method Insert(tm: Topic, ghost p: Path, level: Str, node: Topic)
      requires Shape() && p in nodes && nodes[p] == tm && p + [level] !in nodes
      requires node !in nodes.Values && node.topics == map[]
      modifies this`nodes, tm`topics
      ensures Shape() && nodes == old(nodes)[p + [level] := node]
      ensures Data() == old(Data())[p + [level] := node.Here()]
    {
      hide IsTree;
      Distinct(p);
      ghost var q := p + [level];
      tm.topics := tm.topics[level := node];
      nodes := nodes[q := node];
      InsertTree(old(nodes), old(Edges()), Edges(), root, p, level, node);
    }

    /** One step down, through a new node where there is none. */
    method Descend(tm: Topic, ghost p: Path, level: Str, id: Option<int>) returns (e: Topic)
      requires Shape() && p in nodes && nodes[p] == tm
      modifies this`nodes, tm`topics
      ensures Shape() && Grown(old(nodes), nodes)
      ensures p + [level] in nodes && nodes[p + [level]] == e
      ensures p + [level] in old(nodes) ==> nodes == old(nodes) && Data() == old(Data())
      ensures p + [level] !in old(nodes) ==> Data() == old(Data())[p + [level] := NodeData(id, map[], None)]
    {
      hide Shape, Data, Edges;
      ChildIs(p, level);
      if level in tm.topics {
        e := tm.topics[level];
      } else {
        e := new Topic(id);
        Insert(tm, p, level, e);
      }
    }

    /** The step from level `i` to the next below, as far as `t` goes. */
    method StepInto(tm: Topic, t: Path, i: nat, ghost d: Data) returns (e: Topic)
      requires Shape() && i < |t| && t[..i] in nodes && nodes[t[..i]] == tm && Data() == Extend(d, t, i)
      modifies this`nodes, tm`topics
      ensures Shape() && Grown(old(nodes), nodes)
      ensures t[..i + 1] in nodes && nodes[t[..i + 1]] == e && Data()[t[..i + 1]] == e.Here()
      ensures Data() == Extend(d, t, i + 1)
      ensures t[..i + 1] in d ==> Data() == Extend(d, t, i) && e.internalId == d[t[..i + 1]].id
    {
      hide Shape, Edges, Extend;
      PathStep(t, i);
      ExtendStep(d, t, i);
      e := Descend(tm, t[..i], t[i], None);
    }

    /** First pass of `get_topic`: makes the ancestors of `t` and finds out whether `t` needs a topic row. */
    method MakeAncestors(t: Path) returns (newTopic: bool)
      requires Shape() && t != []
      modifies this`nodes, nodes.Values
      ensures Shape() && Grown(old(nodes), nodes)
      ensures Data() == Extend(old(Data()), t, |t| - 1)
      ensures newTopic <==> t !in old(nodes) || old(Data()[t].id).None?
    {
      hide Shape, Data, PrefixClosed, Edges, Extend;
      ghost var d := Data();
      Outline();
      newTopic := false;
      var tm, i := root, 0;
      ExtendNone(d, t);
      while i < |t|
        invariant 0 <= i <= |t|
        invariant Shape() && Grown(old(nodes), nodes)
        invariant t[..i] in nodes && nodes[t[..i]] == tm
        invariant Data() == Extend(d, t, if i < |t| then i else |t| - 1)
        invariant i < |t| ==> !newTopic
        invariant i == |t| ==> t in d && (newTopic <==> d[t].id.None?)
      {
        var isLast := i + 1 == |t|;
        PathStep(t, i);
        ExtendStep(d, t, i);
        ChildIs(t[..i], t[i]);
        Filed(t[..i + 1]);
        if isLast && t[i] !in tm.topics {
          newTopic := true;
          break;
        }
        tm := StepInto(tm, t, i, d);
        if isLast && tm.internalId.None? {
          newTopic := true;
        }
        i := i + 1;
      }
    }

    /** Second pass of `get_topic`: opens `t`, giving it the row `id` if it is new. */
    method OpenNode(t: Path, id: int, newTopic: bool, ghost d: Data) returns (tm: Topic)
      requires Shape() && t != [] && PrefixClosed(d.Keys)
      requires Data() == Extend(d, t, |t| - 1)
      requires newTopic <==> t !in d || d[t].id.None?
      modifies this`nodes, nodes.Values
      ensures Shape() && Grown(old(nodes), nodes)
      ensures t in nodes && nodes[t] == tm
      ensures Data() == if newTopic then Touched(d, t, id) else d
    {
      hide PrefixClosed, Touched, Extend, Shape, Data, Edges;
      Outline();
      tm := root;
      var i := 0;
      while i < |t|
        invariant 0 <= i <= |t|
        invariant Shape() && Grown(old(nodes), nodes)
        invariant t[..i] in nodes && nodes[t[..i]] == tm
        invariant i < |t| ==> Data() == Extend(d, t, |t| - 1)
        invariant i == |t| ==> Data() == if newTopic then Touched(d, t, id) else d
      {
        var isLast := i + 1 == |t|;
        assert t[..i] + [t[i]] == t[..i + 1] && (isLast ==> t[..i + 1] == t);
        Outline();
        OpenStep(d, t, i, id);
        if isLast {
          tm := OpenLast(tm, t[..i], t[i], id, newTopic);
        } else {
          tm := Descend(tm, t[..i], t[i], Some(id));
        }
        i := i + 1;
      }
      assert t[..i] == t;
    }

    method OpenLast(tm: Topic, ghost p: Path, level: Str, id: int, newTopic: bool) returns (e: Topic)
      requires Shape() && p in nodes && nodes[p] == tm
      requires p + [level] !in nodes ==> newTopic
      modifies this`nodes, nodes.Values
      ensures Shape() && Grown(old(nodes), nodes)
      ensures p + [level] in nodes && nodes[p + [level]] == e
      ensures !newTopic ==> Data() == old(Data())
      ensures newTopic ==> Data() == old(Data())[p + [level] :=
                             if p + [level] in old(nodes) then old(Data()[p + [level]]).(id := Some(id))
                             else NodeData(Some(id), map[], None)]
    {
      hide Shape, Edges;
      e := Descend(tm, p, level, Some(id));
      if newTopic {
        SetId(e, p + [level], Some(id));
      }
    }

    method SetId(e: Topic, ghost p: Path, id: Option<int>)
      requires Shape() && p in nodes && nodes[p] == e
      modifies e`internalId
      ensures Shape()
      ensures Data() == old(Data())[p := old(Data()[p]).(id := id)]
    {
      hide IsTree;
      Distinct(p);
      e.internalId := id;
      assert Edges() == old(Edges());
    }

    /** The first half of `get_topic`, up to the topic row. */
    method EnsureRow(topic: Str, t: Path) returns (r: Result<Option<int>, BrokerError>)
      requires Shape() && t == Split(topic)
      modifies this`nodes, nodes.Values, persist.db
      ensures Shape() && Grown(old(nodes), nodes)
      ensures Data() == Extend(old(Data()), t, |t| - 1)
      ensures r.Err? || r.value.None? ==> persist.db.t == old(persist.db.t)
      ensures r.Err? ==> t !in old(nodes) || old(Data()[t].id).None?
      ensures r.Ok? ==> (r.value.Some? <==> t !in old(nodes) || old(Data()[t].id).None?)
      ensures r.Ok? && r.value.Some? ==> r.value.value !in old(persist.db.t).topics
      ensures r.Ok? && r.value.Some? ==> persist.db.t == WithTopic(old(persist.db.t), r.value.value, topic)
    {
      hide Shape, Extend;
      var newTopic := MakeAncestors(t);
      if newTopic {
        var id := persist.PersistTopic(topic);
        r := if id.Err? then Err(id.error) else Ok(Some(id.value));
      } else {
        r := Ok(None);
      }
    }

    /** The node of `topic`, made if missing, with a topic row of its own. No other node's id, clients
        or message changes. */
    method GetTopic(topic: Str) returns (r: Result<Topic, BrokerError>)
      requires Shape()
      modifies this`nodes, nodes.Values, persist.db
      ensures Shape() && Grown(old(nodes), nodes)
      ensures r.Err? ==> persist.db.t == old(persist.db.t)
      ensures r.Err? ==> Data() == Extend(old(Data()), Split(topic), |Split(topic)| - 1)
      ensures r.Ok? ==> Split(topic) in nodes && nodes[Split(topic)] == r.value && r.value.internalId.Some?
      ensures r.Ok? ==> Data() == Touched(old(Data()), Split(topic), r.value.internalId.value)
      ensures HasRow(old(Data()), Split(topic)) ==>
                r.Ok? && Data() == old(Data()) && persist.db.t == old(persist.db.t)
      ensures r.Ok? && !HasRow(old(Data()), Split(topic)) ==> r.value.internalId.value !in old(persist.db.t).topics
      ensures r.Ok? && !HasRow(old(Data()), Split(topic)) ==>
                persist.db.t == WithTopic(old(persist.db.t), r.value.internalId.value, topic)
    {
      hide PrefixClosed, Extend, Shape;
      var t := Split(topic);
      ghost var d := Data();
      DataPrefixClosed();
      var row := EnsureRow(topic, t);
      if row.Err? {
        return Err(row.error);
      }
      if HasRow(d, t) {
        TouchPresent(d, t);
      }
      var tm := OpenNode(t, row.value.GetOr(0), row.value.Some?, d);
      assert Data()[t] == tm.Here();
      r := Ok(tm);
    }

    // ----- changes to one node -----

    method EnterClient(tm: Topic, ghost p: Path, session: SessionId, qos: Byte) returns (isNew: bool)
      requires Shape() && p in nodes && nodes[p] == tm
      modifies tm`clients
      ensures Shape() && Data() == old(Data())[p := WithEntry(old(Data()[p]), session, qos)]
      ensures isNew <==> session.session !in old(tm.clients)
    {
      hide IsTree;
      Distinct(p);
      isNew := tm.SetSubscribed(session, qos);
      assert Edges() == old(Edges());
    }

    method RemoveClient(tm: Topic, ghost p: Path, client: Str) returns (removed: bool)
      requires Shape() && p in nodes && nodes[p] == tm
      modifies tm`clients
      ensures Shape() && Data() == old(Data())[p := WithoutEntry(old(Data()[p]), client)]
      ensures removed <==> client in old(tm.clients)
    {
      hide IsTree;
      Distinct(p);
      removed := tm.SetUnsubscribed(client);
      assert Edges() == old(Edges());
    }

    method SetMessage(tm: Topic, ghost p: Path, m: Option<Publish>)
      requires Shape() && p in nodes && nodes[p] == tm
      modifies tm`message
      ensures Shape() && Data() == old(Data())[p := WithMessage(old(Data()[p]), m)]
    {
      hide IsTree;
      Distinct(p);
      tm.message := m;
      assert Edges() == old(Edges());
    }

    // ----- the operations of the router -----

    /** `get_topic` on a topic that has its row: finds the node and changes nothing. */
    method Reopen(topic: Str) returns (tm: Topic)
      requires Shape() && HasRow(Data(), Split(topic))
      modifies this`nodes, nodes.Values, persist.db
      ensures Shape() && Grown(old(nodes), nodes) && Data() == old(Data()) && persist.db.t == old(persist.db.t)
      ensures Split(topic) in nodes && nodes[Split(topic)] == tm && tm.Here() == Data()[Split(topic)]
    {
      hide Shape, Touched, Extend, Split;
      var r := GetTopic(topic);
      tm := r.value;
    }

    /** `subscribe` where the session has an entry already. */
    method Resubscribe(session: SessionId, topic: Str, qos: Byte, topicId: int, subscribedQos: Byte)
      returns (answer: Byte)
      requires Shape() && Sound(Data(), persist.db.t, spare + {Split(topic)}) && Counted(Data())
      requires Known(persist.db.t, session) && qos <= 2
      requires HasRow(Data(), Split(topic)) && Data()[Split(topic)].id.value == topicId
      requires var c := Data()[Split(topic)].clients; session.session in c && c[session.session].qos == subscribedQos
      modifies this`nodes, nodes.Values, persist.db
      ensures Shape() && Grown(old(nodes), nodes) && Framed(old(persist.db.t), persist.db.t)
      ensures Sound(Data(), persist.db.t, spare) && Counted(Data())
      ensures answer == qos || answer == subscribedQos
      ensures Data() == if answer == qos && qos != subscribedQos
                        then old(Data())[Split(topic) := WithEntry(old(Data()[Split(topic)]), session, qos)]
                        else old(Data())
      ensures answer != qos ==> persist.db.t == old(persist.db.t)
    {
      hide Agree, Owned, Tidy, Loadable, RouterFrame, Shape, Data, Edges, Sound, Split, IdExact, Entries,
           Holding, WithEntry, WithSubscription, Known;
      ghost var t, d, db := Split(topic), Data(), persist.db.t;
      assert Sound(d, db, spare) && Framed(db, db) by {
        SoundKeep(d, db, spare, t);
        FrameRefl(db);
      }
      if subscribedQos != qos {
        var update := persist.PersistUpdateSubscribe(session.internalId, topicId, qos);
        if update.Ok? {
          var tm := Reopen(topic);
          var _ := EnterClient(tm, t, session, qos);
          SoundResubscribe(d, db, spare, t, session, qos);
          answer := qos;
        } else {
          answer := subscribedQos;
        }
      } else {
        answer := qos;
      }
    }

    /** `subscribe` where the session has no entry yet. The 0x80 answer is never given. */
    method SubscribeNew(session: SessionId, topic: Str, qos: Byte, topicId: int) returns (r: Result<Byte, BrokerError>)
      requires Shape() && Sound(Data(), persist.db.t, spare + {Split(topic)}) && Counted(Data())
      requires Known(persist.db.t, session) && qos <= 2
      requires HasRow(Data(), Split(topic)) && Data()[Split(topic)].id.value == topicId
      requires session.session !in Data()[Split(topic)].clients
      modifies this`nodes, this`gaugeSubscriptions, this`gaugeRetained, nodes.Values, persist.db
      ensures Shape() && Grown(old(nodes), nodes) && Framed(old(persist.db.t), persist.db.t)
      ensures r.Err? ==> Data() == old(Data()) && persist.db.t == old(persist.db.t)
      ensures r.Ok? ==> Sound(Data(), persist.db.t, spare) && Counted(Data()) && r.value == qos
      ensures r.Ok? ==> Data() == old(Data())[Split(topic) := WithEntry(old(Data()[Split(topic)]), session, qos)]
    {
      hide Agree, Owned, Tidy, Loadable, RouterFrame, Shape, Data, Edges, Sound, Split, IdExact, Entries,
           Holding, WithEntry, WithSubscription, Known;
      ghost var t, d, db := Split(topic), Data(), persist.db.t;
      FrameRefl(db);
      var stored := persist.PersistSubscribe(session.internalId, topicId, qos);
      if stored.Err? {
        return Err(stored.error);
      }
      ghost var row :| row !in db.subscriptions &&
                       persist.db.t == WithSubscription(db, row, session.internalId, topicId, qos);
      SoundSubscribe(d, db, spare, t, session, qos, row);
      var tm := Reopen(topic);
      var isNew := EnterClient(tm, t, session, qos);
      var refused: Byte := 0x80;
      if isNew {
        gaugeSubscriptions := gaugeSubscriptions + 1;
      }
      r := Ok(if isNew then qos else refused);
    }

    /** `get_topic` on an index in order: the node has its row, and only that node may be unused. */
    method ObtainTopic(topic: Str) returns (r: Result<Topic, BrokerError>)
      requires Valid()
      modifies this`nodes, nodes.Values, persist.db
      ensures Shape() && Grown(old(nodes), nodes) && Framed(old(persist.db.t), persist.db.t)
      ensures Loadable(persist.db.t)
      ensures r.Err? ==> Content(Data()) == Content(old(Data()))
      ensures r.Ok? ==> Sound(Data(), persist.db.t, spare + {Split(topic)}) && Counted(Data())
      ensures r.Ok? ==> Split(topic) in nodes && nodes[Split(topic)] == r.value && HasRow(Data(), Split(topic))
      ensures r.Ok? ==> r.value.Here() == Data()[Split(topic)]
      ensures r.Ok? ==> Data() == Touched(old(Data()), Split(topic), Data()[Split(topic)].id.value)
      ensures r.Ok? ==> Content(Data()) == Content(old(Data()))
    {
      hide Agree, Owned, Tidy, Loadable, RouterFrame, Shape, Sound, Split, IdExact, Content, Entries, Holding, Extend,
           Touched;
      var t := Split(topic);
      ghost var d, db := Data(), persist.db.t;
      DataPrefixClosed();
      FrameRefl(db);
      SoundLoadable(d, db, spare);
      ContentExtend(d, t);
      r := GetTopic(topic);
      if r.Ok? {
        ghost var id := r.value.internalId.value;
        assert Data()[t] == r.value.Here();
        SoundTouch(d, db, spare, t, topic, id, persist.db.t);
        ContentTouched(d, t, id);
        SoundLoadable(Data(), persist.db.t, spare + {t});
      }
    }

    method Subscribe(session: SessionId, topic: Str, qos: Byte) returns (r: Result<Byte, BrokerError>)
      requires Valid() && Known(persist.db.t, session) && qos <= 2
      modifies this`nodes, this`gaugeSubscriptions, this`gaugeRetained, nodes.Values, persist.db
      ensures Shape() && Grown(old(nodes), nodes) && Framed(old(persist.db.t), persist.db.t)
      ensures Loadable(persist.db.t)
      ensures r.Err? ==> Content(Data()) == Content(old(Data()))
      ensures r.Ok? ==> Valid() && HasRow(Data(), Split(topic)) && r.value <= 2
      ensures r.Ok? ==> Data() == SubscribeData(old(Data()), Split(topic),
                                    Data()[Split(topic)].id.value, session, qos, r.value)
      ensures r.Ok? ==> GrantedQos(old(Data()), Split(topic), session, qos, r.value)
    {
      hide Agree, Owned, Tidy, Loadable, RouterFrame, Shape, Data, Edges, Sound, Split, IdExact, Content, Entries,
           Holding,
           Touched, WithEntry, SubscribeData, Keeps;
      var t := Split(topic);
      ghost var d, db := Data(), persist.db.t;
      var node := ObtainTopic(topic);
      if node.Err? {
        return Err(node.error);
      }
      var tm := node.value;
      var topicId := tm.internalId.value;
      ghost var e, mid := Data(), persist.db.t;
      TouchedClients(d, t, topicId);
      FrameKnown(db, mid, session);
      if session.session in tm.clients {
        var answer := Resubscribe(session, topic, qos, topicId, tm.clients[session.session].qos);
        SoundQos(e, mid, spare + {t}, t, session.session);
        SubscribeCases(d, t, topicId, session, qos, answer);
        r := Ok(answer);
      } else {
        r := SubscribeNew(session, topic, qos, topicId);
        SubscribeCases(d, t, topicId, session, qos, qos);
      }
      FrameTrans(db, mid, persist.db.t);
      if r.Ok? {
        SoundLoadable(Data(), persist.db.t, spare);
      }
    }

    /** Follows the levels of `t` down from the root. */
    method Find(t: Path) returns (tm: Option<Topic>)
      requires Shape()
      ensures tm.Some? <==> t in nodes
      ensures tm.Some? ==> nodes[t] == tm.value && Data()[t] == tm.value.Here()
    {
      hide IsTree, PrefixClosed;
      Outline();
      tm := Some(root);
      var i := 0;
      while i < |t|
        invariant 0 <= i <= |t|
        invariant tm.Some? <==> t[..i] in nodes
        invariant tm.Some? ==> nodes[t[..i]] == tm.value
      {
        assert t[..i] + [t[i]] == t[..i + 1] && t[..i + 1][..i] == t[..i];
        if t[..i + 1] in nodes {
          PrefixesIn(nodes.Keys, t[..i + 1], i);
        }
        if tm.Some? {
          ChildIs(t[..i], t[i]);
          tm := if t[i] in tm.value.topics then Some(tm.value.topics[t[i]]) else None;
        }
        i := i + 1;
      }
      assert t[..i] == t;
    }

    method Unsubscribe(session: SessionId, topic: Str) returns (r: Result<(), BrokerError>)
      requires Valid() && Known(persist.db.t, session)
      modifies this`nodes, this`gaugeSubscriptions, this`gaugeRetained, nodes.Values, persist.db
      ensures Shape() && Grown(old(nodes), nodes) && Framed(old(persist.db.t), persist.db.t)
      ensures Loadable(persist.db.t)
      ensures r.Err? ==> Content(Data()) == Content(UnsubscribeData(old(Data()), Split(topic), session))
      ensures r.Ok? ==> Valid() && Data() == UnsubscribeData(old(Data()), Split(topic), session)
    {
      hide Agree, Owned, Tidy, Loadable, RouterFrame, Shape, Sound, Split, IdExact, Entries, Holding, Known,
           WithoutSubscription, Content, UnsubscribeData, Used, Data, Edges, PrefixClosed;
      var t := Split(topic);
      ghost var d, db := Data(), persist.db.t;
      FrameRefl(db);
      Outline();
      SoundLoadable(d, db, spare);
      UnsubscribeCases(d, t, session);
      var found := Find(t);
      r := Ok(());
      if found.Some? {
        var entry := found.value;
        if session.session in entry.clients {
          SoundUnsubscribe(d, db, spare, t, session);
        }
        var removed := RemoveClient(entry, t, session.session);
        if removed {
          gaugeSubscriptions := gaugeSubscriptions - 1;
          var topicId := entry.internalId.value;
          var toDelete := ToDelete(entry, t);
          r := DropSubscription(session, topic, t, topicId, toDelete);
        }
      }
    }

    method ToDelete(entry: Topic, ghost t: Path) returns (toDelete: bool)
      requires Shape() && t in nodes && nodes[t] == entry
      ensures toDelete <==> !Used(Data()[t])
    {
      toDelete := entry.message.None? && |entry.clients| == 0;
    }

    /** The durable half of `unsubscribe`. */
    method DropSubscription(session: SessionId, topic: Str, ghost t: Path, topicId: int, toDelete: bool)
      returns (r: Result<(), BrokerError>)
      requires Shape() && t == Split(topic) && HasRow(Data(), t) && Data()[t].id.value == topicId
      requires toDelete <==> !Used(Data()[t])
      requires Counted(Data()) && Loadable(persist.db.t)
      requires var u := WithoutSubscription(persist.db.t, session.internalId, topicId);
               Sound(Data(), u, spare + {t}) && Framed(persist.db.t, u)
      modifies this`nodes, nodes.Values, persist.db
      ensures Shape() && Grown(old(nodes), nodes) && Framed(old(persist.db.t), persist.db.t)
      ensures Loadable(persist.db.t)
      ensures Data() == if r.Ok? && toDelete then old(Data())[t := BLANK] else old(Data())
      ensures r.Ok? ==> Sound(Data(), persist.db.t, spare) && Counted(Data())
    {
      hide Agree, Owned, Tidy, Loadable, RouterFrame, Shape, Sound, Split, IdExact, Entries, Holding;
      ghost var d, db := Data(), persist.db.t;
      FrameRefl(db);
      var gone := persist.PersistUnsubscribe(session.internalId, topicId);
      if gone.Err? {
        return Err(gone.error);
      }
      ghost var mid := persist.db.t;
      if toDelete {
        r := DropTopic(topic, t, topicId);
        FrameTrans(db, mid, persist.db.t);
      } else {
        SoundKeep(d, mid, spare, t);
        SoundLoadable(d, mid, spare);
        r := Ok(());
      }
    }

    /** A node that holds nothing any more gives up its topic row; its place in the tree stays. */
    method DropTopic(topic: Str, ghost t: Path, topicId: int) returns (r: Result<(), BrokerError>)
      requires Shape() && t == Split(topic) && HasRow(Data(), t) && Data()[t].id.value == topicId
      requires !Used(Data()[t]) && Sound(Data(), persist.db.t, spare + {t})
      modifies this`nodes, nodes.Values, persist.db
      ensures Shape() && Grown(old(nodes), nodes) && Framed(old(persist.db.t), persist.db.t)
      ensures Loadable(persist.db.t)
      ensures r.Err? ==> Data() == old(Data())
      ensures r.Ok? ==> Data() == old(Data())[t := BLANK] && Sound(Data(), persist.db.t, spare)
      ensures SameCounts(old(Data()), Data())
    {
      hide Agree, Owned, Tidy, Loadable, RouterFrame, Shape, Sound, Split, IdExact, Entries, Holding;
      ghost var d, db := Data(), persist.db.t;
      FrameRefl(db);
      SoundLoadable(d, db, spare + {t});
      SoundDelete(d, db, spare, t);
      var deleted := persist.PersistDeleteTopic(topicId);
      if deleted.Err? {
        return Err(deleted.error);
      }
      var tm := Reopen(topic);
      SetId(tm, t, None);
      SoundLoadable(Data(), persist.db.t, spare);
      r := Ok(());
    }

    method Retain(m: Publish) returns (r: Result<(), BrokerError>)
      requires Valid()
      modifies this`nodes, this`gaugeSubscriptions, this`gaugeRetained, nodes.Values, persist.db
      ensures Shape() && Grown(old(nodes), nodes) && RouterFrame(old(persist.db.t), persist.db.t)
      ensures r.Ok? ==> Tidy(old(persist.db.t), persist.db.t)
      ensures Loadable(persist.db.t)
      ensures r.Err? ==> Content(Data()) == Content(old(Data())) ||
                         (m.message == [] && Content(Data()) == Content(RetainData(old(Data()), Split(m.topic), 0, m)))
      ensures r.Ok? ==> Valid() && exists id :: Data() == RetainData(old(Data()), Split(m.topic), id, m)
    {
      hide Agree, Owned, Tidy, Loadable, RouterFrame, Shape, Data, Edges, Sound, Split, IdExact, Entries, Holding,
           Content,
           RetainData, Touched, WithTopic, Used, WithMessage, Split;
      var t := Split(m.topic);
      ghost var d, db := Data(), persist.db.t;
      var node := ObtainTopic(m.topic);
      if node.Err? {
        return Err(node.error);
      }
      var tm := node.value;
      var topicId := tm.internalId.value;
      var isRetained := tm.message.Some?;
      ghost var e, mid := Data(), persist.db.t;
      RetainCases(d, t, topicId, m);
      r := DeleteRetained(t, topicId);
      FrameTrans(db, mid, persist.db.t);
      if r.Ok? {
        ghost var cut := persist.db.t;
        if m.message != [] {
          r := StoreRetained(m, t, topicId, isRetained, e);
        } else {
          r := ClearRetained(m.topic, t, topicId, isRetained, e);
        }
        FrameTrans(db, cut, persist.db.t);
      }
    }

    /** `persist_delete_retain`: from here on the tables are ahead of the node. */
    method DeleteRetained(ghost t: Path, topicId: int) returns (r: Result<(), BrokerError>)
      requires Shape() && HasRow(Data(), t) && Data()[t].id.value == topicId
      requires Sound(Data(), persist.db.t, spare + {t}) && Counted(Data())
      modifies persist.db
      ensures Shape() && Data() == old(Data()) && Framed(old(persist.db.t), persist.db.t)
      ensures Loadable(persist.db.t)
      ensures r.Ok? ==> var c := Data()[t := WithMessage(Data()[t], None)];
                Sound(c, persist.db.t, spare + {t}) && Entries(c) == Entries(Data()) && Holding(c) == Holding(Data()) - {t}
    {
      hide Agree, Owned, Tidy, Loadable, RouterFrame, Shape, Sound, IdExact, Entries, Holding;
      FrameRefl(persist.db.t);
      SoundLoadable(Data(), persist.db.t, spare + {t});
      SoundClear(Data(), persist.db.t, spare, t);
      r := persist.PersistDeleteRetain(topicId);
      if r.Ok? {
        SoundLoadable(Data()[t := WithMessage(Data()[t], None)], persist.db.t, spare + {t});
      }
    }

    method StoreRetained(m: Publish, ghost t: Path, topicId: int, isRetained: bool, ghost e: Data)
      returns (r: Result<(), BrokerError>)
      requires t == Split(m.topic) && m.message != []
      requires Shape() && Data() == e && HasRow(e, t) && e[t].id.value == topicId && (isRetained <==> e[t].message.Some?)
      requires Counted(e)
      requires var c := e[t := WithMessage(e[t], None)];
               Sound(c, persist.db.t, spare + {t}) && Entries(c) == Entries(e) && Holding(c) == Holding(e) - {t}
      modifies this`nodes, this`gaugeRetained, nodes.Values, persist.db
      ensures Shape() && Grown(old(nodes), nodes) && RouterFrame(old(persist.db.t), persist.db.t)
      ensures r.Ok? ==> Tidy(old(persist.db.t), persist.db.t)
      ensures Loadable(persist.db.t)
      ensures r.Err? ==> Data() == e
      ensures r.Ok? ==> Data() == e[t := WithMessage(e[t], Some(m))] && Sound(Data(), persist.db.t, spare) && Counted(Data())
    {
      hide Agree, Owned, Tidy, Loadable, RouterFrame, Shape, Sound, IdExact, Entries, Holding, Split, WithMessage;
      HoldingCounts(e, t);
      r := KeepMessage(m, t, topicId, e);
      if r.Ok? && !isRetained {
        gaugeRetained := gaugeRetained + 1;
      }
    }

    method KeepMessage(m: Publish, ghost t: Path, topicId: int, ghost e: Data) returns (r: Result<(), BrokerError>)
      requires t == Split(m.topic) && m.message != []
      requires Shape() && Data() == e && HasRow(e, t) && e[t].id.value == topicId
      requires Sound(e[t := WithMessage(e[t], None)], persist.db.t, spare + {t})
      modifies this`nodes, nodes.Values, persist.db
      ensures Shape() && Grown(old(nodes), nodes) && RouterFrame(old(persist.db.t), persist.db.t)
      ensures r.Ok? ==> Tidy(old(persist.db.t), persist.db.t)
      ensures Loadable(persist.db.t)
      ensures r.Err? ==> Data() == e
      ensures r.Ok? ==> Data() == e[t := WithMessage(e[t], Some(m))] && Sound(Data(), persist.db.t, spare)
      ensures r.Ok? ==> var c := e[t := WithMessage(e[t], None)];
                        Entries(Data()) == Entries(c) && Holding(Data()) == Holding(c) + {t}
    {
      hide Agree, Owned, Tidy, Loadable, RouterFrame, Shape, Sound, IdExact, Entries, Holding, Split, WithRetained;
      ghost var c, db := e[t := WithMessage(e[t], None)], persist.db.t;
      FrameRefl(db);
      var stored := persist.PersistRetain(topicId, m);
      if stored.Err? {
        OrphanFrame(db, persist.db.t);
        OrphanLoadable(c, db, spare + {t}, persist.db.t);
        return Err(stored.error);
      }
      SoundStore(c, db, spare, t, m, stored.value);
      var tm := Reopen(m.topic);
      SetMessage(tm, t, Some(m));
      assert c[t := WithMessage(c[t], Some(m))] == Data();
      SoundLoadable(Data(), persist.db.t, spare);
      r := Ok(());
    }

    method ClearRetained(topic: Str, ghost t: Path, topicId: int, isRetained: bool, ghost e: Data)
      returns (r: Result<(), BrokerError>)
      requires t == Split(topic)
      requires Shape() && Data() == e && HasRow(e, t) && e[t].id.value == topicId && (isRetained <==> e[t].message.Some?)
      requires Counted(e)
      requires var c := e[t := WithMessage(e[t], None)];
               Sound(c, persist.db.t, spare + {t}) && Entries(c) == Entries(e) && Holding(c) == Holding(e) - {t}
      modifies this`nodes, this`gaugeRetained, nodes.Values, persist.db
      ensures Shape() && Grown(old(nodes), nodes) && Framed(old(persist.db.t), persist.db.t)
      ensures Loadable(persist.db.t)
      ensures var c := e[t := WithMessage(e[t], None)];
              Data() == if r.Ok? && !Used(c[t]) then c[t := BLANK] else c
      ensures r.Ok? ==> Sound(Data(), persist.db.t, spare) && Counted(Data())
    {
      hide Agree, Owned, Tidy, Loadable, RouterFrame, Shape, Sound, IdExact, Entries, Holding, Split, WithMessage, Used;
      HoldingCounts(e, t);
      r := ForgetMessage(topic, t, topicId, e);
      if r.Ok? && isRetained {
        gaugeRetained := gaugeRetained - 1;
      }
    }

    method ForgetMessage(topic: Str, ghost t: Path, topicId: int, ghost e: Data) returns (r: Result<(), BrokerError>)
      requires t == Split(topic)
      requires Shape() && Data() == e && HasRow(e, t) && e[t].id.value == topicId
      requires Sound(e[t := WithMessage(e[t], None)], persist.db.t, spare + {t})
      modifies this`nodes, nodes.Values, persist.db
      ensures Shape() && Grown(old(nodes), nodes) && Framed(old(persist.db.t), persist.db.t)
      ensures Loadable(persist.db.t)
      ensures var c := e[t := WithMessage(e[t], None)];
              && Data() == (if r.Ok? && !Used(c[t]) then c[t := BLANK] else c)
              && (r.Ok? ==> Sound(Data(), persist.db.t, spare) && SameCounts(c, Data()))
    {
      hide Agree, Owned, Tidy, Loadable, RouterFrame, Shape, Sound, IdExact, Entries, Holding, Split;
      ghost var c := e[t := WithMessage(e[t], None)];
      FrameRefl(persist.db.t);
      var tm := Reopen(topic);
      SetMessage(tm, t, None);
      if tm.message.None? && |tm.clients| == 0 {
        r := DropTopic(topic, t, topicId);
      } else {
        SoundKeep(c, persist.db.t, spare, t);
        SoundLoadable(c, persist.db.t, spare);
        r := Ok(());
      }
    }

    method GetRetainedMessages(topic: Str) returns (messages: seq<Publish>)
      requires Shape()
      ensures messages == var t := Split(topic);
                if t in Data() && Data()[t].message.Some? then [Data()[t].message.value] else []
    {
      hide IsTree, Split;
      var tm := Find(Split(topic));
      messages := [];
      if tm.Some? && tm.value.message.Some? {
        messages := [tm.value.message.value];
      }
    }

    // ----- lookup -----

    /** The sessions to deliver `topic` to, found by walking the tree one level at a time. */
    method GetSubscribed(topic: Str) returns (clients: map<SessionId, Byte>)
      requires Shape() && AllKeyed(ClientMap(Data()))
      ensures Within(ClientMap(Data()), Hits(Data().Keys, Split(topic)))
      ensures clients == Collect(ClientMap(Data()), Hits(Data().Keys, Split(topic)))
      ensures Plain(Split(topic)) ==> IsAnswer(ClientMap(Data()), Split(topic), clients)
    {
      hide IsTree, Shape, Data, ClientMap, Split, AllKeyed, IsAnswer, PrefixClosed, Plain;
      hide Collect, Within, Hits, HitsBefore, Frontier, HashHits, Expand;
      var t := Split(topic);
      ghost var f, c := Data().Keys, ClientMap(Data());
      Outline();
      WalkEnds(c, f, t);
      clients := map[];
      var matches := [root];
      ghost var ps := [[]];
      var d := 0;
      while d < |t|
        invariant 0 <= d <= |t| && ps == Frontier(f, t, d)
        invariant At(matches, ps)
        invariant Within(c, HitsBefore(f, t, d)) && clients == Collect(c, HitsBefore(f, t, d))
      {
        WalkStep(f, t, d);
        matches, clients, ps := Advance(matches, clients, t[d], ps, HitsBefore(f, t, d));
        d := d + 1;
        if |matches| == 0 {
          NoFrontier(f, t, d);
          break;
        }
      }
      clients := ReadAll(matches, clients, ps, HitsBefore(f, t, |t|));
      if Plain(t) {
        ClientMapKeys(Data());
        LookupCorrect(c, t);
      }
    }

    /** `matches[i]` is the node at path `ps[i]`. */
    ghost predicate At(matches: seq<Topic>, ps: seq<Path>)
      reads this`nodes
    {
      |matches| == |ps| && forall i :: 0 <= i < |ps| ==> ps[i] in nodes && nodes[ps[i]] == matches[i]
    }

    /** One level of the walk: reads the "#" children and collects the "+" and literal ones. */
    method Advance(matches: seq<Topic>, clients: map<SessionId, Byte>, level: Str, ghost ps: seq<Path>, ghost seen: seq<Path>)
      returns (next: seq<Topic>, r: map<SessionId, Byte>, ghost nps: seq<Path>)
      requires Shape() && AllKeyed(ClientMap(Data())) && At(matches, ps)
      requires Within(ClientMap(Data()), seen) && clients == Collect(ClientMap(Data()), seen)
      ensures nps == Expand(Data().Keys, ps, level) && At(next, nps)
      ensures Within(ClientMap(Data()), seen + HashHits(Data().Keys, ps))
      ensures r == Collect(ClientMap(Data()), seen + HashHits(Data().Keys, ps))
    {
      hide IsTree, Shape, Data, ClientMap, Collect, Within, AllKeyed, HashHits, Expand, Answers, Keyed;
      ghost var f, c := Data().Keys, ClientMap(Data());
      Outline();
      next, r, nps := [], clients, [];
      assert seen + [] == seen;
      var k := 0;
      ReadNone(f, level);
      while k < |matches|
        invariant 0 <= k <= |matches|
        invariant nps == Expand(f, ps[..k], level) && At(next, nps)
        invariant Within(c, seen + HashHits(f, ps[..k])) && r == Collect(c, seen + HashHits(f, ps[..k]))
      {
        var tm := matches[k];
        ReadStep(f, ps, k, level);
        ChildIs(ps[k], HASH);
        ChildIs(ps[k], PLUS);
        ChildIs(ps[k], level);
        ghost var before := seen + HashHits(f, ps[..k]);
        if HASH in tm.topics {
          var entry := tm.topics[HASH];
          NodeClients(ps[k] + [HASH]);
          CollectStep(c, before, ps[k] + [HASH]);
          assert before + [ps[k] + [HASH]] == seen + HashHits(f, ps[..k + 1]);
          r := Read(entry, r);
        } else {
          assert HashHits(f, ps[..k + 1]) == HashHits(f, ps[..k]);
        }
        ghost var was := nps;
        if PLUS in tm.topics {
          next, nps := next + [tm.topics[PLUS]], nps + [ps[k] + [PLUS]];
        }
        if level in tm.topics {
          next, nps := next + [tm.topics[level]], nps + [ps[k] + [level]];
        }
        assert nps == was + Children(f, ps[k], level);
        k := k + 1;
      }
      assert ps[..k] == ps;
    }

    lemma NodeClients(p: Path)
      requires p in nodes && AllKeyed(ClientMap(Data()))
      ensures p in ClientMap(Data()) && ClientMap(Data())[p] == nodes[p].clients && Keyed(nodes[p].clients)
    {}

    method ReadAll(matches: seq<Topic>, clients: map<SessionId, Byte>, ghost ps: seq<Path>, ghost seen: seq<Path>)
      returns (r: map<SessionId, Byte>)
      requires Shape() && AllKeyed(ClientMap(Data())) && At(matches, ps)
      requires Within(ClientMap(Data()), seen) && clients == Collect(ClientMap(Data()), seen)
      ensures Within(ClientMap(Data()), seen + ps) && r == Collect(ClientMap(Data()), seen + ps)
    {
      hide IsTree, Shape, Data, ClientMap, Collect, Within, AllKeyed, Answers, Keyed;
      ghost var c := ClientMap(Data());
      r := clients;
      assert seen + [] == seen;
      var k := 0;
      while k < |matches|
        invariant 0 <= k <= |matches|
        invariant Within(c, seen + ps[..k]) && r == Collect(c, seen + ps[..k])
      {
        assert seen + ps[..k + 1] == seen + ps[..k] + [ps[k]];
        NodeClients(ps[k]);
        CollectStep(c, seen + ps[..k], ps[k]);
        r := Read(matches[k], r);
        k := k + 1;
      }
      assert ps[..k] == ps;
    }

    // ----- reload -----

    /** The nodes for all levels of `t` but the last; the last of them. */
    method WalkIn(t: Path) returns (tm: Topic)
      requires Shape() && t != []
      modifies this`nodes, nodes.Values
      ensures Shape() && Grown(old(nodes), nodes)
      ensures Parent(t) in nodes && nodes[Parent(t)] == tm
      ensures Data() == Extend(old(Data()), t, |t| - 1)
      ensures forall o: Topic :: old(allocated(o)) && o !in old(nodes).Values ==> o !in nodes.Values && unchanged(o)
    {
      hide Shape, Data, PrefixClosed, Edges, Extend;
      ghost var d := Data();
      Outline();
      var i := 0;
      tm := root;
      ExtendNone(d, t);
      while i < |t| - 1
        invariant 0 <= i < |t|
        invariant Shape() && Grown(old(nodes), nodes)
        invariant t[..i] in nodes && nodes[t[..i]] == tm
        invariant Data() == Extend(d, t, i)
      {
        tm := StepInto(tm, t, i, d);
        i := i + 1;
      }
    }

    /** Files `item` under `topic`; a node that is there already keeps its children. */
    method InsertTopic(topic: Str, item: Topic)
      requires Shape() && item !in nodes.Values && item.topics == map[]
      modifies this`nodes, nodes.Values
      ensures Shape() && Data() == Inserted(old(Data()), Split(topic), old(item.Here()))
      ensures forall p :: p in nodes ==> fresh(nodes[p]) || nodes[p] in old(nodes).Values || nodes[p] == item
    {
      hide Shape, Data, PrefixClosed, Edges, Extend, Split;
      var t := Split(topic);
      ghost var d := Data();
      var tm := WalkIn(t);
      var level := t[|t| - 1];
      ParentLeaf(t);
      assert t[..|t|] == t;
      ExtendStep(d, t, |t| - 1);
      Outline();
      ChildIs(Parent(t), level);
      if level !in tm.topics {
        Insert(tm, Parent(t), level, item);
      } else {
        Refill(tm.topics[level], t, item);
      }
    }

    /** Copies the contents of `item` into `e`, not its children. */
    method Refill(e: Topic, ghost p: Path, item: Topic)
      requires Shape() && p in nodes && nodes[p] == e && item !in nodes.Values
      modifies e`internalId, e`clients, e`message
      ensures Shape() && Data() == old(Data())[p := item.Here()]
    {
      hide IsTree;
      Distinct(p);
      e.internalId := item.internalId;
      e.clients := item.clients;
      e.message := item.message;
      assert Edges() == old(Edges());
    }

    /** One node, with the clients and the message its rows give it. */
    method LoadTopic(i: int, ghost d: Data, ghost p: Path) returns (r: Result<Topic, BrokerError>)
      requires Agree(d, persist.db.t) && HasRow(d, p) && d[p].id.value == i
      ensures r.Ok? ==> fresh(r.value) && r.value.topics == map[] && r.value.Here() == Refreshed(d[p], persist.db.t)
    {
      hide Agree, Split;
      var t := persist.db.t;
      MessageOf(d, t, p);
      var node := new Topic(Some(i));
      if t.topics[i].retained.Some? {
        var m := persist.LoadPersistentMessage(t.topics[i].retained.value);
        if m.Err? {
          return Err(m.error);
        }
        node.message := Some(m.value);
      }
      var rows := persist.LoadPersistentSubscriptions(i);
      if rows.Err? {
        return Err(rows.error);
      }
      FillClients(node, rows.value, i, d, p);
      r := Ok(node);
    }

    method FillClients(node: Topic, rows: seq<int>, i: int, ghost d: Data, ghost p: Path)
      requires Agree(d, persist.db.t) && HasRow(d, p) && d[p].id.value == i
      requires IsListing(rows, JoinedRows(persist.db.t, i)) && node.clients == map[]
      modifies node`clients
      ensures node.clients == RefreshedClients(d[p].clients, persist.db.t)
    {
      hide Agree, IsListing, ClientsOf;
      var t := persist.db.t;
      Listed(rows, JoinedRows(t, i));
      NoClients(t);
      var k := 0;
      while k < |rows|
        invariant 0 <= k <= |rows|
        invariant ClientsOf(t, rows[..k], node.clients)
      {
        var e := EntryOf(t, rows[k]);
        NextClient(d, t, i, rows, k, node.clients);
        var _ := node.SetSubscribed(e.session, e.qos);
        k := k + 1;
      }
      assert rows[..k] == rows;
      RowsMakeClients(d, t, p, rows, node.clients);
    }

    /** One topic row; how many subscriptions and retained messages it brought. */
    method LoadRow(i: int, ghost d: Data, ghost done: set<int>) returns (r: Result<(nat, nat), BrokerError>)
      requires Shape() && Agree(d, persist.db.t) && Loaded(d, persist.db.t, Data(), done)
      requires i in persist.db.t.topics && i !in done
      modifies this`nodes, nodes.Values
      ensures r.Ok? ==> Shape() && Loaded(d, persist.db.t, Data(), done + {i})
      ensures r.Ok? ==> |Entries(Data())| == |Entries(old(Data()))| + r.value.0
      ensures r.Ok? ==> |Holding(Data())| == |Holding(old(Data()))| + r.value.1
      ensures forall p :: p in nodes ==> fresh(nodes[p]) || nodes[p] in old(nodes).Values
    {
      hide Shape, Data, Agree, Split, Loaded, Entries, Holding, Refreshed, Inserted;
      var t := persist.db.t;
      ghost var p := Split(t.topics[i].topic);
      LoadStep(d, t, Data(), done, i, p);
      var node := LoadTopic(i, d, p);
      if node.Err? {
        return Err(node.error);
      }
      InsertCounts(Data(), p, node.value.Here());
      var retained := if node.value.message.Some? then 1 else 0;
      r := Ok((|node.value.clients|, retained));
      InsertTopic(t.topics[i].topic, node.value);
    }

    /** Rebuilds the index from tables that agree with some index `d`, rows in any order. */
    method LoadPersistentState(ghost d: Data) returns (r: Result<(), BrokerError>)
      requires Shape() && Data() == map[[] := BLANK] && Agree(d, persist.db.t) && Owned(persist.db.t)
      modifies this, nodes.Values
      ensures r.Ok? ==> Valid() && Reloaded(d, persist.db.t, Data())
      ensures r.Ok? && IdExact(d, {}) ==> spare == {}
    {
      hide Shape, Data, Agree, Owned, Split, Loaded, Entries, Holding, Refreshed, Inserted, IsListing, IdExact,
           Reloaded, Set;
      var t := persist.db.t;
      var rows := persist.LoadPersistentTopics();
      if rows.Err? {
        return Err(rows.error);
      }
      var retainedCount, subscriptionCount, k := 0, 0, 0;
      LoadNone(d, t);
      while k < |rows.value|
        invariant 0 <= k <= |rows.value|
        invariant Shape() && Loaded(d, t, Data(), Set(rows.value[..k]))
        invariant forall p :: p in nodes ==> fresh(nodes[p]) || nodes[p] in old(nodes).Values
        invariant subscriptionCount == |Entries(Data())| && retainedCount == |Holding(Data())|
        invariant persist.db.t == t
      {
        var i := rows.value[k];
        NextRow(t, rows.value, k);
        var counts := LoadRow(i, d, Set(rows.value[..k]));
        if counts.Err? {
          return Err(counts.error);
        }
        subscriptionCount, retainedCount := subscriptionCount + counts.value.0, retainedCount + counts.value.1;
        k := k + 1;
      }
      assert rows.value[..k] == rows.value;
      LoadEnd(d, t, Data(), rows.value);
      spare := Unused(d);
      ReloadSound(d, t, spare, Data());
      gaugeSubscriptions := subscriptionCount;
      gaugeRetained := retainedCount;
      r := Ok(());
    }
  }

  /** Enters the clients of one node into the answer, in an order the map does not fix. */
  method Read(entry: Topic, clients: map<SessionId, Byte>) returns (r: map<SessionId, Byte>)
    requires Keyed(entry.clients)
    ensures r == clients + Answers(entry.clients)
  {
    hide Entered;
    var c := entry.clients;
    r := clients;
    var rest := c.Keys;
    EnterNone(c, clients);
    while rest != {}
      invariant rest <= c.Keys && Entered(c, clients, r, rest)
      decreases rest
    {
      var n := Pick(rest);
      EnterOne(c, clients, r, rest, n);
      r := r[c[n].session := c[n].qos];
      rest := rest - {n};
    }
    EnterAll(c, clients, r);
  }

  // ----- trees of nodes -----

  ghost predicate Linked(nodes: map<Path, Topic>, edges: map<Path, map<Str, Topic>>, p: Path) {
    p in nodes && p != [] && Parent(p) in edges && Leaf(p) in edges[Parent(p)] && edges[Parent(p)][Leaf(p)] == nodes[p]
  }

  /** Each node but the root hangs under its parent, every edge leads to a node, no two nodes share an object. */
  ghost predicate IsTree(nodes: map<Path, Topic>, edges: map<Path, map<Str, Topic>>, root: Topic) {
    && [] in nodes && nodes[[]] == root && edges.Keys == nodes.Keys
    && (forall p {:trigger Linked(nodes, edges, p)} :: p in nodes && p != [] ==> Linked(nodes, edges, p))
    && (forall p, l :: p in edges && l in edges[p] ==> p + [l] in nodes)
    && (forall p, q :: p in nodes && q in nodes && nodes[p] == nodes[q] ==> p == q)
  }

  lemma InsertTree(nodes: map<Path, Topic>, edges: map<Path, map<Str, Topic>>, e: map<Path, map<Str, Topic>>,
                   root: Topic, p: Path, level: Str, node: Topic)
    requires IsTree(nodes, edges, root) && p in nodes && p + [level] !in nodes && node !in nodes.Values
    requires p in edges && e.Keys == edges.Keys + {p + [level]}
    requires e[p] == edges[p][level := node] && e[p + [level]] == map[]
    requires forall r :: r in edges && r != p ==> e[r] == edges[r]
    ensures IsTree(nodes[p + [level] := node], e, root)
  {
    var q := p + [level];
    var n := nodes[q := node];
    assert Parent(q) == p && Leaf(q) == level && p != q;
    forall r | r in n && r != [] ensures Linked(n, e, r) {
      if r != q {
        assert Linked(nodes, edges, r);
        ParentLeaf(r);
      }
    }
    forall r, l | r in e && l in e[r] ensures r + [l] in n {
      if r != p || l != level {
        assert r in edges && l in edges[r];
      }
    }
  }

  /** The old nodes are still there; the others are new objects. */
  twostate predicate Grown(a: map<Path, Topic>, new b: map<Path, Topic>) {
    (forall p :: p in a ==> p in b && b[p] == a[p]) && forall p :: p in b && p !in a ==> fresh(b[p])
  }
}
