/** What the index holds after any sequence of operations, told from the operations alone. */
module IndexRuns {
  import opened Basics
  import opened Paths
  import opened Matching
  import opened TopicData

  /** An operation that succeeded, with the QoS it answered and the row id it found or made. */
  datatype Op =
    | Subscribed(session: SessionId, topic: Str, qos: Byte, answer: Byte, id: int)
    | Unsubscribed(session: SessionId, topic: Str)
    | Retained(m: Publish, id: int)

  function After(d: Data, op: Op): Data {
    match op
    case Subscribed(s, topic, qos, answer, id) => SubscribeData(d, Split(topic), id, s, qos, answer)
    case Unsubscribed(s, topic) => UnsubscribeData(d, Split(topic), s)
    case Retained(m, id) => RetainData(d, Split(m.topic), id, m)
  }

  function Run(ops: seq<Op>): Data {
    if ops == [] then map[[] := BLANK] else After(Run(ops[..|ops| - 1]), ops[|ops| - 1])
  }

  /** The answers are those the operations give. */
  predicate Answered(ops: seq<Op>) {
    forall i :: 0 <= i < |ops| && ops[i].Subscribed? ==>
      GrantedQos(Run(ops[..i]), Split(ops[i].topic), ops[i].session, ops[i].qos, ops[i].answer)
  }

  function MessageAt(d: Data, t: Path): Option<Publish> {
    if t in d then d[t].message else None
  }

  function QosAt(d: Data, t: Path, n: Str): Option<Byte> {
    if t in d && n in d[t].clients then Some(d[t].clients[n].qos) else None
  }

  predicate Retains(op: Op, t: Path) {
    op.Retained? && Split(op.m.topic) == t
  }

  predicate Concerns(op: Op, t: Path, n: Str) {
    !op.Retained? && Split(op.topic) == t && op.session.session == n
  }

  /** The last retained publish to `t` is `m`, and it is not empty. */
  ghost predicate LastRetained(ops: seq<Op>, t: Path, m: Publish, i: int) {
    && 0 <= i < |ops| && Retains(ops[i], t) && ops[i].m == m && m.message != []
    && forall j :: i < j < |ops| ==> !Retains(ops[j], t)
  }

  /** The last word of session `n` on the filter `t` is a subscription answered `q`. */
  ghost predicate LastSubscribed(ops: seq<Op>, t: Path, n: Str, q: Byte, i: int) {
    && 0 <= i < |ops| && Concerns(ops[i], t, n) && ops[i].Subscribed? && ops[i].answer == q
    && forall j :: i < j < |ops| ==> !Concerns(ops[j], t, n)
  }

  lemma MessageStep(d: Data, op: Op, t: Path)
    ensures MessageAt(After(d, op), t) ==
            if Retains(op, t) then (if op.m.message != [] then Some(op.m) else None) else MessageAt(d, t)
  {}

  lemma LastRetainedStep(ops: seq<Op>, before: seq<Op>, t: Path, m: Publish)
    requires ops != [] && before == ops[..|ops| - 1]
    ensures var op := ops[|ops| - 1];
            (exists i :: LastRetained(ops, t, m, i)) <==>
            if Retains(op, t) then op.m == m && m.message != [] else exists i :: LastRetained(before, t, m, i)
  {
    var k := |ops| - 1;
    if Retains(ops[k], t) {
      assert ops[k].m == m && m.message != [] ==> LastRetained(ops, t, m, k);
      assert forall i :: LastRetained(ops, t, m, i) ==> i == k;
    } else {
      hide Retains;
      if i :| LastRetained(ops, t, m, i) {
        assert LastRetained(before, t, m, i);
      }
      if i :| LastRetained(before, t, m, i) {
        assert LastRetained(ops, t, m, i);
      }
    }
  }

  /** A topic's retained message is the last one published to it, unless that was empty. */
  lemma {:induction false} MessageAfter(ops: seq<Op>, t: Path, m: Publish)
    ensures MessageAt(Run(ops), t) == Some(m) <==> exists i :: LastRetained(ops, t, m, i)
  {
    if ops != [] {
      hide After, MessageAt, Retains, LastRetained;
      var k := |ops| - 1;
      MessageAfter(ops[..k], t, m);
      MessageStep(Run(ops[..k]), ops[k], t);
      LastRetainedStep(ops, ops[..k], t, m);
    }
  }

  lemma QosStep(d: Data, op: Op, t: Path, n: Str)
    requires op.Subscribed? ==> GrantedQos(d, Split(op.topic), op.session, op.qos, op.answer)
    ensures QosAt(After(d, op), t, n) ==
            if Concerns(op, t, n) then (if op.Subscribed? then Some(op.answer) else None) else QosAt(d, t, n)
  {}

  lemma LastSubscribedStep(ops: seq<Op>, before: seq<Op>, t: Path, n: Str, q: Byte)
    requires ops != [] && before == ops[..|ops| - 1]
    ensures var op := ops[|ops| - 1];
            (exists i :: LastSubscribed(ops, t, n, q, i)) <==>
            if Concerns(op, t, n) then op.Subscribed? && op.answer == q
            else exists i :: LastSubscribed(before, t, n, q, i)
  {
    var k := |ops| - 1;
    if Concerns(ops[k], t, n) {
      assert ops[k].Subscribed? && ops[k].answer == q ==> LastSubscribed(ops, t, n, q, k);
      assert forall i :: LastSubscribed(ops, t, n, q, i) ==> i == k;
    } else {
      hide Concerns;
      if i :| LastSubscribed(ops, t, n, q, i) {
        assert LastSubscribed(before, t, n, q, i);
      }
      if i :| LastSubscribed(before, t, n, q, i) {
        assert LastSubscribed(ops, t, n, q, i);
      }
    }
  }

  lemma AnsweredBefore(ops: seq<Op>)
    requires ops != [] && Answered(ops)
    ensures Answered(ops[..|ops| - 1])
    ensures var op := ops[|ops| - 1];
            op.Subscribed? ==> GrantedQos(Run(ops[..|ops| - 1]), Split(op.topic), op.session, op.qos, op.answer)
  {
    hide GrantedQos, Run, Split;
    var k := |ops| - 1;
    forall i | 0 <= i < k && ops[i].Subscribed?
      ensures GrantedQos(Run(ops[..k][..i]), Split(ops[i].topic), ops[i].session, ops[i].qos, ops[i].answer)
    {
      assert ops[..k][..i] == ops[..i];
    }
  }

  /** A subscription is held, with the QoS answered, from when it is made until it is taken back. */
  lemma {:induction false} SubscriptionAfter(ops: seq<Op>, t: Path, n: Str, q: Byte)
    requires Answered(ops)
    ensures QosAt(Run(ops), t, n) == Some(q) <==> exists i :: LastSubscribed(ops, t, n, q, i)
  {
    if ops != [] {
      hide After, QosAt, Concerns, GrantedQos, LastSubscribed, Answered;
      var k := |ops| - 1;
      AnsweredBefore(ops);
      SubscriptionAfter(ops[..k], t, n, q);
      QosStep(Run(ops[..k]), ops[k], t, n);
      LastSubscribedStep(ops, ops[..k], t, n, q);
    }
  }
}
