/** Which filters of the index a topic reaches, in which order, and what that order means. */
module Matching {
  import opened Basics
  import opened Paths

  datatype TopicEntry = TopicEntry(session: SessionId, qos: Byte)

  type Clients = map<Str, TopicEntry>

  /** Entries are filed under the name of the session they carry. */
  ghost predicate Keyed(c: Clients) {
    forall n :: n in c ==> c[n].session.session == n
  }

  ghost predicate Holds(c: Clients, sid: SessionId) {
    sid.session in c && c[sid.session].session == sid
  }

  // ----- the matching rule -----

  /** The broker's matching rule: "+" stands for one level, a final "#" for one or more. */
  predicate Matches(f: Path, t: Path) {
    if f == [HASH] then t != []
    else if f == [] || t == [] then f == [] && t == []
    else (f[0] == PLUS || f[0] == t[0]) && Matches(f[1..], t[1..])
  }

  /** Level by level, no trailing "#". */
  predicate Fits(p: Path, t: Path) {
    |p| == |t| && forall i :: 0 <= i < |p| ==> p[i] == PLUS || p[i] == t[i]
  }

  predicate EndsInHash(f: Path) {
    f != [] && Leaf(f) == HASH
  }

  lemma {:induction false} MatchesAsFits(f: Path, t: Path)
    requires Plain(t)
    ensures Matches(f, t) <==>
              if EndsInHash(f) then |f| <= |t| && Fits(Parent(f), t[..|f| - 1]) else Fits(f, t)
  {
    if f != [] && t != [] && f != [HASH] {
      var f', t' := f[1..], t[1..];
      MatchesAsFits(f', t');
      assert forall i :: 0 < i < |t| ==> t[i] == t'[i - 1];
      if |f| == 1 {
        assert f' == [];
      } else if EndsInHash(f) {
        assert Leaf(f') == Leaf(f);
        if |f| <= |t| {
          var q, q' := Parent(f), Parent(f');
          assert q == [f[0]] + q';
          assert t[..|f| - 1] == [t[0]] + t'[..|f'| - 1];
          assert forall i :: 0 < i < |q| ==> q[i] == q'[i - 1] && t[..|f| - 1][i] == t'[..|f'| - 1][i - 1];
        }
      } else {
        assert Leaf(f') == Leaf(f);
        assert forall i :: 0 < i < |f| ==> f[i] == f'[i - 1];
        assert Fits(f, t) ==> forall i :: 0 <= i < |f'| ==> f'[i] == f[i + 1] && t'[i] == t[i + 1];
      }
    }
  }

  /** The rule of section 4.7.1.2 of MQTT 3.1.1, where "#" also stands for the parent level. */
  predicate StandardMatches(f: Path, t: Path) {
    if f == [HASH] then true
    else if f == [] || t == [] then f == [] && t == []
    else (f[0] == PLUS || f[0] == t[0]) && StandardMatches(f[1..], t[1..])
  }

  /** The broker misses exactly the parent level of a "#" filter, and nothing else. */
  lemma {:induction false} StandardGap(f: Path, t: Path)
    requires Plain(t)
    ensures StandardMatches(f, t) <==> Matches(f, t) || (EndsInHash(f) && Fits(Parent(f), t))
  {
    if f != [] && t != [] && f != [HASH] {
      var f', t' := f[1..], t[1..];
      StandardGap(f', t');
      if EndsInHash(f) && |f| > 1 {
        assert Parent(f) == [f[0]] + Parent(f') && t == [t[0]] + t';
        FitsCons(f[0], Parent(f'), t[0], t');
      }
    }
  }

  lemma FitsCons(a: Str, p: Path, b: Str, t: Path)
    ensures Fits([a] + p, [b] + t) <==> (a == PLUS || a == b) && Fits(p, t)
  {
    var p', t' := [a] + p, [b] + t;
    if Fits(p', t') {
      assert p'[0] == PLUS || p'[0] == t'[0];
      forall i | 0 <= i < |p| ensures p[i] == PLUS || p[i] == t[i] {
        assert p'[i + 1] == p[i] && t'[i + 1] == t[i];
      }
    }
  }

  /** A subscription to "a/#" does not get what is published to "a". */
  lemma ParentLevelMissed(a: Str)
    requires Plain([a])
    ensures StandardMatches([a, HASH], [a]) && !Matches([a, HASH], [a])
  {}

  // ----- the order in which the index is visited -----

  /** Stage at which a matching filter is read: its number of levels before "#", or all levels. */
  function Stage(f: Path): nat {
    if EndsInHash(f) then |f| - 1 else |f|
  }

  /** At the first level where two filters differ, the left one has the "+". */
  ghost predicate LexBelow(f: Path, g: Path) {
    exists i :: 0 <= i < |f| && i < |g| && f[..i] == g[..i] && f[i] == PLUS && g[i] != PLUS
  }

  /** `f` is less specific than `g`: an earlier stage, or "+" against a literal from the left. */
  ghost predicate Precedes(f: Path, g: Path) {
    Stage(f) < Stage(g) || (Stage(f) == Stage(g) && LexBelow(f, g))
  }

  /** From the left, a level by name is more specific than "+", and any further level than "#". */
  lemma SpecificBy(p: Path, a: Str, q: Path, r: Path)
    requires a != PLUS && a != HASH && HASH !in q && HASH !in r && |q| == |r|
    ensures Precedes(p + [PLUS] + q, p + [a] + r)
    ensures Precedes(p + [HASH], p + [a] + q) && Precedes(p + [HASH], p + [PLUS] + q)
    ensures Precedes(p + [PLUS] + q + [HASH], p + [a] + r + [HASH])
  {
    NoHashEnd(p, PLUS, q);
    NoHashEnd(p, a, q);
    NoHashEnd(p, a, r);
    hide EndsInHash;
    PlusBelow(p, a, q, r);
    PlusBelow(p, a, q + [HASH], r + [HASH]);
    assert p + [PLUS] + q + [HASH] == p + [PLUS] + (q + [HASH]) && p + [a] + r + [HASH] == p + [a] + (r + [HASH]);
  }

  lemma NoHashEnd(p: Path, a: Str, q: Path)
    requires a != HASH && HASH !in q
    ensures !EndsInHash(p + [a] + q) && EndsInHash(p + [HASH]) && EndsInHash(p + [a] + q + [HASH])
  {
    assert q != [] ==> Leaf(p + [a] + q) == q[|q| - 1];
  }

  lemma PlusBelow(p: Path, a: Str, q: Path, r: Path)
    requires a != PLUS
    ensures LexBelow(p + [PLUS] + q, p + [a] + r)
  {
    var f, g := p + [PLUS] + q, p + [a] + r;
    assert f[..|p|] == g[..|p|] && f[|p|] == PLUS && g[|p|] == a;
  }

  lemma PrecedesAsymmetric(f: Path, g: Path)
    requires Precedes(f, g)
    ensures !Precedes(g, f)
  {}

  ghost predicate LexSorted(ps: seq<Path>) {
    forall i, j :: 0 <= i < j < |ps| ==> LexBelow(ps[i], ps[j])
  }

  ghost predicate Sorted(ps: seq<Path>) {
    forall i, j :: 0 <= i < j < |ps| ==> Precedes(ps[i], ps[j])
  }

  function Children(f: set<Path>, p: Path, level: Str): seq<Path> {
    (if p + [PLUS] in f then [p + [PLUS]] else []) + (if p + [level] in f then [p + [level]] else [])
  }

  /** The next generation of visited nodes: for each node its "+" child, then its literal child. */
  function Expand(f: set<Path>, ps: seq<Path>, level: Str): seq<Path> {
    if ps == [] then [] else Expand(f, ps[..|ps| - 1], level) + Children(f, ps[|ps| - 1], level)
  }

  function HashHits(f: set<Path>, ps: seq<Path>): seq<Path> {
    if ps == [] then []
    else
      HashHits(f, ps[..|ps| - 1]) +
      (if ps[|ps| - 1] + [HASH] in f then [ps[|ps| - 1] + [HASH]] else [])
  }

  function Frontier(f: set<Path>, t: Path, d: nat): seq<Path>
    requires d <= |t|
  {
    if d == 0 then [[]] else Expand(f, Frontier(f, t, d - 1), t[d - 1])
  }

  /** The "#" nodes read while walking the first `d` levels. */
  function HitsBefore(f: set<Path>, t: Path, d: nat): seq<Path>
    requires d <= |t|
  {
    if d == 0 then [] else HitsBefore(f, t, d - 1) + HashHits(f, Frontier(f, t, d - 1))
  }

  /** Every node whose clients are read for topic `t`, in reading order. */
  function Hits(f: set<Path>, t: Path): seq<Path> {
    HitsBefore(f, t, |t|) + Frontier(f, t, |t|)
  }

  // ----- the frontier is exactly the fitting part of the index -----

  ghost predicate IsFrontier(f: set<Path>, t: Path, ps: seq<Path>) {
    && (forall p :: p in ps <==> p in f && Fits(p, t))
    && LexSorted(ps)
  }

  lemma LexExtend(p: Path, q: Path, a: Str, b: Str)
    requires LexBelow(p, q)
    ensures LexBelow(p + [a], q + [b])
  {
    var i :| 0 <= i < |p| && i < |q| && p[..i] == q[..i] && p[i] == PLUS && q[i] != PLUS;
    assert (p + [a])[..i] == p[..i] && (q + [b])[..i] == q[..i];
  }

  lemma LexPlusLiteral(p: Path, level: Str)
    requires level != PLUS
    ensures LexBelow(p + [PLUS], p + [level])
  {
    var a, b := p + [PLUS], p + [level];
    assert a[..|p|] == b[..|p|] && a[|p|] == PLUS && b[|p|] == level;
  }

  lemma {:induction false} ExpandMembers(f: set<Path>, ps: seq<Path>, level: Str, q: Path)
    ensures q in Expand(f, ps, level) <==>
              q in f && q != [] && Parent(q) in ps && (Leaf(q) == PLUS || Leaf(q) == level)
  {
    if ps != [] {
      var init, last := ps[..|ps| - 1], ps[|ps| - 1];
      ExpandMembers(f, init, level, q);
      assert ps == init + [last];
      assert q != [] ==> q == Parent(q) + [Leaf(q)];
      assert q in Children(f, last, level) <==>
             q in f && q != [] && Parent(q) == last && (Leaf(q) == PLUS || Leaf(q) == level);
    }
  }

  lemma {:induction false} ExpandSorted(f: set<Path>, ps: seq<Path>, level: Str)
    requires LexSorted(ps) && level != PLUS
    ensures LexSorted(Expand(f, ps, level))
  {
    if ps != [] {
      var init, last := ps[..|ps| - 1], ps[|ps| - 1];
      ExpandSorted(f, init, level);
      var a, b := Expand(f, init, level), Children(f, last, level);
      forall x, y | x in a && y in b ensures LexBelow(x, y) {
        ExpandMembers(f, init, level, x);
        ParentLeaf(x);
        var i :| 0 <= i < |init| && init[i] == Parent(x);
        assert LexBelow(ps[i], ps[|ps| - 1]);
        LexExtend(Parent(x), last, Leaf(x), PLUS);
        LexExtend(Parent(x), last, Leaf(x), level);
      }
      LexPlusLiteral(last, level);
      var r := a + b;
      forall i, j | 0 <= i < j < |r| ensures LexBelow(r[i], r[j]) {
        if i < |a| && j >= |a| {
          assert r[i] in a && r[j] in b;
        }
      }
    }
  }

  lemma FitsStep(q: Path, t: Path)
    requires t != []
    ensures Fits(q, t) <==> q != [] && Fits(Parent(q), Parent(t)) && (Leaf(q) == PLUS || Leaf(q) == Leaf(t))
  {}

  lemma FrontierMembers(f: set<Path>, prev: seq<Path>, u: Path, p: Path)
    requires PrefixClosed(f) && u != [] && forall q :: q in prev <==> q in f && Fits(q, Parent(u))
    ensures p in Expand(f, prev, Leaf(u)) <==> p in f && Fits(p, u)
  {
    hide Fits, Expand;
    ExpandMembers(f, prev, Leaf(u), p);
    FitsStep(p, u);
  }

  lemma {:induction false} FrontierExact(f: set<Path>, t: Path, d: nat)
    requires PrefixClosed(f) && Plain(t) && d <= |t|
    ensures IsFrontier(f, t[..d], Frontier(f, t, d))
  {
    hide LexBelow, PrefixClosed;
    if d == 0 {
      RootFrontier(f, t);
    } else {
      FrontierExact(f, t, d - 1);
      var prev, u := Frontier(f, t, d - 1), t[..d];
      assert Parent(u) == t[..d - 1] && Leaf(u) == t[d - 1];
      assert Frontier(f, t, d) == Expand(f, prev, Leaf(u));
      hide Fits, Expand, Frontier, Parent, Leaf, Plain;
      ExpandSorted(f, prev, Leaf(u));
      forall p ensures p in Frontier(f, t, d) <==> p in f && Fits(p, u) {
        FrontierMembers(f, prev, u, p);
      }
    }
  }

  lemma RootFrontier(f: set<Path>, t: Path)
    requires PrefixClosed(f)
    ensures IsFrontier(f, t[..0], Frontier(f, t, 0))
  {
    assert t[..0] == [];
  }

  lemma {:induction false} HashHitsMembers(f: set<Path>, ps: seq<Path>, q: Path)
    ensures q in HashHits(f, ps) <==> q in f && EndsInHash(q) && Parent(q) in ps
  {
    if ps != [] {
      var init, last := ps[..|ps| - 1], ps[|ps| - 1];
      HashHitsMembers(f, init, q);
      assert ps == init + [last];
      assert q != [] ==> q == Parent(q) + [Leaf(q)];
    }
  }

  lemma {:induction false} HashHitsSorted(f: set<Path>, ps: seq<Path>)
    requires LexSorted(ps)
    ensures LexSorted(HashHits(f, ps))
  {
    if ps != [] {
      var init, last := ps[..|ps| - 1], ps[|ps| - 1];
      HashHitsSorted(f, init);
      forall x | x in HashHits(f, init) ensures LexBelow(x, last + [HASH]) {
        HashHitsMembers(f, init, x);
        ParentLeaf(x);
        var i :| 0 <= i < |init| && init[i] == Parent(x);
        assert LexBelow(ps[i], ps[|ps| - 1]);
        LexExtend(Parent(x), last, HASH, HASH);
      }
    }
  }

  /** The "#" nodes read before level `d` are the matching "#" filters of at most `d` levels, in order. */
  lemma {:induction false} HitsBeforeMembers(f: set<Path>, t: Path, d: nat, q: Path)
    requires PrefixClosed(f) && Plain(t) && d <= |t|
    ensures q in HitsBefore(f, t, d) <==>
              q in f && EndsInHash(q) && |q| <= d && Fits(Parent(q), t[..|q| - 1])
  {
    hide Plain, HashHits, Fits, Frontier;
    if d > 0 {
      HitsBeforeMembers(f, t, d - 1, q);
      HashHitsMembers(f, Frontier(f, t, d - 1), q);
      if EndsInHash(q) {
        FrontierMember(f, t, d - 1, Parent(q));
        if |q| == d {
          assert t[..|q| - 1] == t[..d - 1];
        }
      }
    }
  }

  lemma FrontierMember(f: set<Path>, t: Path, d: nat, p: Path)
    requires PrefixClosed(f) && Plain(t) && d <= |t|
    ensures p in Frontier(f, t, d) <==> p in f && |p| == d && Fits(p, t[..d])
  {
    FrontierExact(f, t, d);
  }

  lemma HashHitsStage(f: set<Path>, t: Path, d: nat)
    requires PrefixClosed(f) && Plain(t) && d <= |t|
    ensures forall y :: y in HashHits(f, Frontier(f, t, d)) ==> Stage(y) == d
    ensures LexSorted(HashHits(f, Frontier(f, t, d)))
  {
    var ps := Frontier(f, t, d);
    FrontierExact(f, t, d);
    HashHitsSorted(f, ps);
    forall y | y in HashHits(f, ps) ensures Stage(y) == d {
      HashHitsMembers(f, ps, y);
    }
  }

  lemma {:induction false} HitsBeforeSorted(f: set<Path>, t: Path, d: nat)
    requires PrefixClosed(f) && Plain(t) && d <= |t|
    ensures Sorted(HitsBefore(f, t, d))
  {
    hide Fits, PrefixClosed, Plain, HashHits, Frontier, LexSorted, LexBelow;
    if d > 0 {
      HitsBeforeSorted(f, t, d - 1);
      var a, b := HitsBefore(f, t, d - 1), HashHits(f, Frontier(f, t, d - 1));
      forall x | x in a ensures Stage(x) < d - 1 {
        HitsBeforeMembers(f, t, d - 1, x);
      }
      HashHitsStage(f, t, d - 1);
      StageConcat(a, b, d - 1);
    }
  }

  /** Nodes of stage `k`, read after nodes of earlier stages. */
  lemma StageConcat(a: seq<Path>, b: seq<Path>, k: int)
    requires Sorted(a) && forall x :: x in a ==> Stage(x) < k
    requires LexSorted(b) && forall y :: y in b ==> Stage(y) == k
    ensures Sorted(a + b)
  {}

  /** For a wildcard-free topic the nodes read are the matching filters, from least to most specific. */
  lemma HitsExact(f: set<Path>, t: Path)
    requires PrefixClosed(f) && Plain(t) && t != []
    ensures forall q :: q in Hits(f, t) <==> q in f && Matches(q, t)
    ensures Sorted(Hits(f, t))
  {
    FrontierExact(f, t, |t|);
    assert t[..|t|] == t;
    var a, b := HitsBefore(f, t, |t|), Frontier(f, t, |t|);
    forall q ensures q in Hits(f, t) <==> q in f && Matches(q, t)
      ensures q in a ==> Stage(q) < |t|
      ensures q in b ==> Stage(q) == |t|
    {
      HitsBeforeMembers(f, t, |t|, q);
      MatchesAsFits(q, t);
      if Fits(q, t) {
        NoHashFit(q, t);
      }
    }
    HitsBeforeSorted(f, t, |t|);
    StageConcat(a, b, |t|);
  }

  lemma NoHashFit(q: Path, t: Path)
    requires Plain(t) && t != [] && Fits(q, t)
    ensures !EndsInHash(q)
  {}

  // ----- the answer of a lookup -----

  /** The answers one node contributes. */
  function Answers(c: Clients): map<SessionId, Byte>
    requires Keyed(c)
  {
    map n | n in c :: c[n].session := c[n].qos
  }

  ghost predicate AllKeyed(d: map<Path, Clients>) {
    forall p :: p in d ==> Keyed(d[p])
  }

  ghost predicate Within(d: map<Path, Clients>, ps: seq<Path>) {
    forall i :: 0 <= i < |ps| ==> ps[i] in d
  }

  /** Nodes read one after the other; a later node overwrites the answers of an earlier one. */
  function Collect(d: map<Path, Clients>, ps: seq<Path>): map<SessionId, Byte>
    requires AllKeyed(d) && Within(d, ps)
  {
    if ps == [] then map[] else Collect(d, ps[..|ps| - 1]) + Answers(d[ps[|ps| - 1]])
  }

  lemma AnswersMeaning(c: Clients, sid: SessionId)
    requires Keyed(c)
    ensures sid in Answers(c) <==> Holds(c, sid)
    ensures Holds(c, sid) ==> Answers(c)[sid] == c[sid.session].qos
  {}

  /** The last position of `ps` whose node holds `sid`, or -1. */
  ghost function LastHolder(d: map<Path, Clients>, ps: seq<Path>, sid: SessionId): (i: int)
    requires Within(d, ps)
    ensures -1 <= i < |ps| && (i >= 0 ==> Holds(d[ps[i]], sid))
    ensures forall j :: i < j < |ps| ==> !Holds(d[ps[j]], sid)
  {
    if ps == [] then -1
    else if Holds(d[ps[|ps| - 1]], sid) then |ps| - 1
    else LastHolder(d, ps[..|ps| - 1], sid)
  }

  lemma {:induction false} CollectMeaning(d: map<Path, Clients>, ps: seq<Path>, sid: SessionId)
    requires AllKeyed(d) && Within(d, ps)
    ensures sid in Collect(d, ps) <==> LastHolder(d, ps, sid) >= 0
    ensures sid in Collect(d, ps) ==>
              Collect(d, ps)[sid] == d[ps[LastHolder(d, ps, sid)]][sid.session].qos
  {
    if ps != [] {
      var init, last := ps[..|ps| - 1], ps[|ps| - 1];
      CollectMeaning(d, init, sid);
      AnswersMeaning(d[last], sid);
    }
  }

  /** What a lookup must answer: the sessions of the matching filters, each with the QoS it asked
      for in the most specific of them. */
  ghost predicate IsAnswer(d: map<Path, Clients>, t: Path, r: map<SessionId, Byte>) {
    && (forall sid :: sid in r <==> exists f :: Reaches(d, t, sid, f))
    && (forall sid :: sid in r ==> exists f :: Decides(d, t, sid, f) && r[sid] == ClientsAt(d, f)[sid.session].qos)
  }

  /** Session `sid` subscribed to filter `f`, and `f` matches `t`. */
  ghost predicate Reaches(d: map<Path, Clients>, t: Path, sid: SessionId, f: Path) {
    Matches(f, t) && Holds(ClientsAt(d, f), sid)
  }

  ghost predicate Decides(d: map<Path, Clients>, t: Path, sid: SessionId, f: Path) {
    && Reaches(d, t, sid, f)
    && forall g :: Reaches(d, t, sid, g) && g != f ==> Precedes(g, f)
  }

  function ClientsAt(d: map<Path, Clients>, p: Path): Clients {
    if p in d then d[p] else map[]
  }

  /** Walking the index answers what the flat map of subscriptions says. */
  lemma LookupCorrect(d: map<Path, Clients>, t: Path)
    requires AllKeyed(d) && PrefixClosed(d.Keys) && Plain(t) && t != []
    ensures Within(d, Hits(d.Keys, t))
    ensures IsAnswer(d, t, Collect(d, Hits(d.Keys, t)))
  {
    HitsExact(d.Keys, t);
    var ps := Hits(d.Keys, t);
    forall i | 0 <= i < |ps| ensures ps[i] in d {
      assert ps[i] in ps;
    }
    var r := Collect(d, ps);
    forall sid ensures sid in r <==> exists f :: Reaches(d, t, sid, f)
      ensures sid in r ==> exists f :: Decides(d, t, sid, f) && r[sid] == ClientsAt(d, f)[sid.session].qos
    {
      LookupCorrectFor(d, t, sid);
    }
  }

  lemma LookupCorrectFor(d: map<Path, Clients>, t: Path, sid: SessionId)
    requires AllKeyed(d) && PrefixClosed(d.Keys) && Plain(t) && t != []
    requires Within(d, Hits(d.Keys, t))
    ensures var r := Collect(d, Hits(d.Keys, t));
            && (sid in r <==> exists f :: Reaches(d, t, sid, f))
            && (sid in r ==> exists f :: Decides(d, t, sid, f) && r[sid] == ClientsAt(d, f)[sid.session].qos)
  {
    hide Matches, Precedes, PrefixClosed, AllKeyed, Plain, Hits, Collect;
    HitsExact(d.Keys, t);
    var ps := Hits(d.Keys, t);
    CollectMeaning(d, ps, sid);
    var i := LastHolder(d, ps, sid);
    if i < 0 {
      forall f ensures Reaches(d, t, sid, f) ==> f in ps {}
    } else {
      var f := ps[i];
      assert f in ps;
      forall g | Reaches(d, t, sid, g) && g != f ensures Precedes(g, f) {
        assert g in ps;
        var j :| 0 <= j < |ps| && ps[j] == g;
        assert j < i;
      }
      assert Decides(d, t, sid, f);
    }
  }

  /** The QoS that section 3.3.5 of MQTT 3.1.1 asks for: the highest of all subscriptions that match. */
  ghost predicate Highest(d: map<Path, Clients>, t: Path, sid: SessionId, qos: Byte) {
    && (exists f :: Reaches(d, t, sid, f) && ClientsAt(d, f)[sid.session].qos == qos)
    && (forall f :: Reaches(d, t, sid, f) ==> ClientsAt(d, f)[sid.session].qos <= qos)
  }

  /** A less specific filter `g` of the session asks for more than its most specific one. */
  ghost predicate Outranks(d: map<Path, Clients>, t: Path, sid: SessionId, f: Path, g: Path) {
    Decides(d, t, sid, f) && Reaches(d, t, sid, g) && ClientsAt(d, f)[sid.session].qos < ClientsAt(d, g)[sid.session].qos
  }

  /** A lookup gives a session the highest QoS unless some matching filter asks for more than the most specific one. */
  lemma HighestIff(d: map<Path, Clients>, t: Path, sid: SessionId)
    requires AllKeyed(d) && PrefixClosed(d.Keys) && Plain(t) && t != []
    ensures Within(d, Hits(d.Keys, t))
    ensures var r := Collect(d, Hits(d.Keys, t));
            sid in r ==> (Highest(d, t, sid, r[sid]) <==> forall f, g :: !Outranks(d, t, sid, f, g))
  {
    hide Matches, Precedes, PrefixClosed, AllKeyed, Plain, Hits, Collect, Highest, Outranks;
    LookupCorrect(d, t);
    var r := Collect(d, Hits(d.Keys, t));
    if sid in r {
      var f :| Decides(d, t, sid, f) && r[sid] == ClientsAt(d, f)[sid.session].qos;
      HighestAt(d, t, sid, f);
    }
  }

  lemma HighestAt(d: map<Path, Clients>, t: Path, sid: SessionId, f: Path)
    requires Decides(d, t, sid, f)
    ensures Highest(d, t, sid, ClientsAt(d, f)[sid.session].qos) <==> forall h, g :: !Outranks(d, t, sid, h, g)
  {
    hide Matches, Precedes;
    forall g | Reaches(d, t, sid, g) ensures
      ClientsAt(d, g)[sid.session].qos <= ClientsAt(d, f)[sid.session].qos || Outranks(d, t, sid, f, g) {}
    forall h, g | Outranks(d, t, sid, h, g) ensures h == f {
      OneDecides(d, t, sid, f, h);
    }
  }

  function Overlap(s: SessionId, a: Str): map<Path, Clients> {
    map[[] := map[], [HASH] := map[s.session := TopicEntry(s, 2)], [a] := map[s.session := TopicEntry(s, 0)]]
  }

  /** With "#" at QoS 2 beside a literal filter at QoS 0, a session is served at QoS 0. */
  lemma OverlapNotHighest(s: SessionId, a: Str)
    requires Plain([a])
    ensures var d := Overlap(s, a);
            && AllKeyed(d) && PrefixClosed(d.Keys) && Within(d, Hits(d.Keys, [a]))
            && var r := Collect(d, Hits(d.Keys, [a])); s in r && r[s] == 0 && !Highest(d, [a], s, r[s])
  {
    var d := Overlap(s, a);
    OverlapIndex(s, a);
    OverlapReaches(s, a);
    hide Overlap, Hits, Collect, PrefixClosed, Matches, Decides, Reaches, AllKeyed, Plain, Highest;
    LookupCorrect(d, [a]);
    HighestIff(d, [a], s);
    var r := Collect(d, Hits(d.Keys, [a]));
    var f :| Decides(d, [a], s, f) && r[s] == ClientsAt(d, f)[s.session].qos;
    OneDecides(d, [a], s, f, [a]);
    assert Outranks(d, [a], s, [a], [HASH]);
  }

  lemma OverlapIndex(s: SessionId, a: Str)
    requires Plain([a])
    ensures var d := Overlap(s, a);
            && AllKeyed(d) && PrefixClosed(d.Keys)
            && ClientsAt(d, [HASH]) == map[s.session := TopicEntry(s, 2)]
            && ClientsAt(d, [a]) == map[s.session := TopicEntry(s, 0)]
            && forall p :: p != [HASH] && p != [a] ==> ClientsAt(d, p) == map[]
  {
    assert [a][0] == a && [HASH][0] == HASH;
    assert Overlap(s, a).Keys == {[], [HASH], [a]};
  }

  lemma OverlapReaches(s: SessionId, a: Str)
    requires Plain([a])
    ensures var d := Overlap(s, a); Reaches(d, [a], s, [HASH]) && Decides(d, [a], s, [a])
  {
    var d := Overlap(s, a);
    OverlapIndex(s, a);
    hide Overlap, PrefixClosed, AllKeyed;
    assert [a][0] == a && [HASH][0] == HASH;
    assert Matches([HASH], [a]) && Matches([a], [a]);
    assert Stage([HASH]) == 0 && Stage([a]) == 1;
    forall g | Reaches(d, [a], s, g) && g != [a] ensures g == [HASH] {}
  }

  ghost predicate SameSubscriptions(d: map<Path, Clients>, e: map<Path, Clients>) {
    forall p :: ClientsAt(d, p) == ClientsAt(e, p)
  }

  /** The answer is determined by the subscriptions alone, so nodes without clients do not count. */
  lemma AnswerUnique(d: map<Path, Clients>, e: map<Path, Clients>, t: Path,
                     r: map<SessionId, Byte>, s: map<SessionId, Byte>)
    requires IsAnswer(d, t, r) && IsAnswer(e, t, s)
    requires SameSubscriptions(d, e)
    ensures r == s
  {
    forall sid ensures sid in r <==> sid in s
      ensures sid in r ==> r[sid] == s[sid]
    {
      SameReach(d, e, t, sid);
      if sid in r {
        var f :| Decides(d, t, sid, f) && r[sid] == ClientsAt(d, f)[sid.session].qos;
        var g :| Decides(e, t, sid, g) && s[sid] == ClientsAt(e, g)[sid.session].qos;
        OneDecides(d, t, sid, f, g);
        assert ClientsAt(d, f) == ClientsAt(e, f);
      }
    }
  }

  lemma SameReach(d: map<Path, Clients>, e: map<Path, Clients>, t: Path, sid: SessionId)
    requires SameSubscriptions(d, e)
    ensures forall f :: Reaches(d, t, sid, f) <==> Reaches(e, t, sid, f)
    ensures forall f :: Decides(d, t, sid, f) <==> Decides(e, t, sid, f)
  {}

  /** At most one filter decides. */
  lemma OneDecides(d: map<Path, Clients>, t: Path, sid: SessionId, f: Path, g: Path)
    requires Decides(d, t, sid, f) && Decides(d, t, sid, g)
    ensures f == g
  {}

  // ----- steps of the walk -----

  /** `r` is `clients` with the entries of `c` put in, but for those still in `rest`. */
  ghost predicate Entered(c: Clients, clients: map<SessionId, Byte>, r: map<SessionId, Byte>, rest: set<Str>) {
    forall sid :: Takes(c, rest, sid, clients, r)
  }

  ghost predicate Takes(c: Clients, rest: set<Str>, sid: SessionId, clients: map<SessionId, Byte>, r: map<SessionId, Byte>) {
    if Holds(c, sid) && sid.session !in rest then sid in r && r[sid] == c[sid.session].qos
    else (sid in r <==> sid in clients) && (sid in r ==> r[sid] == clients[sid])
  }

  lemma EnterNone(c: Clients, clients: map<SessionId, Byte>)
    ensures Entered(c, clients, clients, c.Keys)
  {}

  lemma EnterOne(c: Clients, clients: map<SessionId, Byte>, r: map<SessionId, Byte>, rest: set<Str>, n: Str)
    requires Keyed(c) && Entered(c, clients, r, rest) && n in rest && rest <= c.Keys
    ensures Entered(c, clients, r[c[n].session := c[n].qos], rest - {n})
  {
    var less, more := rest - {n}, r[c[n].session := c[n].qos];
    forall sid ensures Takes(c, less, sid, clients, more) {
      assert Takes(c, rest, sid, clients, r);
    }
  }

  lemma EnterAll(c: Clients, clients: map<SessionId, Byte>, r: map<SessionId, Byte>)
    requires Keyed(c) && Entered(c, clients, r, {})
    ensures r == clients + Answers(c)
  {
    forall sid ensures sid in r <==> sid in clients + Answers(c)
      ensures sid in r ==> r[sid] == (clients + Answers(c))[sid]
    {
      assert Takes(c, {}, sid, clients, r);
      AnswersMeaning(c, sid);
    }
  }

  lemma ReadNone(f: set<Path>, level: Str)
    ensures Expand(f, [], level) == [] && HashHits(f, []) == []
  {}

  lemma ReadStep(f: set<Path>, ps: seq<Path>, k: nat, level: Str)
    requires k < |ps|
    ensures Expand(f, ps[..k + 1], level) == Expand(f, ps[..k], level) + Children(f, ps[k], level)
    ensures HashHits(f, ps[..k + 1]) ==
              HashHits(f, ps[..k]) + if ps[k] + [HASH] in f then [ps[k] + [HASH]] else []
  {
    assert ps[..k + 1][..k] == ps[..k];
  }

  lemma CollectStep(d: map<Path, Clients>, ps: seq<Path>, p: Path)
    requires AllKeyed(d) && Within(d, ps) && p in d
    ensures Within(d, ps + [p]) && Collect(d, ps + [p]) == Collect(d, ps) + Answers(d[p])
  {}

  lemma WalkStep(f: set<Path>, t: Path, d: nat)
    requires d < |t|
    ensures Frontier(f, t, d + 1) == Expand(f, Frontier(f, t, d), t[d])
    ensures HitsBefore(f, t, d + 1) == HitsBefore(f, t, d) + HashHits(f, Frontier(f, t, d))
  {}

  lemma WalkEnds(c: map<Path, Clients>, f: set<Path>, t: Path)
    ensures Frontier(f, t, 0) == [[]] && HitsBefore(f, t, 0) == []
    ensures Within(c, []) && (AllKeyed(c) ==> Collect(c, []) == map[])
    ensures Hits(f, t) == HitsBefore(f, t, |t|) + Frontier(f, t, |t|)
  {}

  /** Once the frontier is empty the rest of the walk finds nothing. */
  lemma {:induction false} NoFrontier(f: set<Path>, t: Path, d: nat)
    requires d <= |t| && Frontier(f, t, d) == []
    ensures Frontier(f, t, |t|) == [] && HitsBefore(f, t, |t|) == HitsBefore(f, t, d)
    decreases |t| - d
  {
    if d < |t| {
      NoFrontier(f, t, d + 1);
    }
  }
}
