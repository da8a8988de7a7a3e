/** Evidence gains of a retrieved list, and the bitmask dynamic program for the best possible list. */
module EvidenceDcg {
  import opened Support
  import opened Bitmask
  import opened RankingMetrics

  type Node = string
  type Groups = seq<set<Node>>

  // ---- Gains of a retrieved list ----

  function Matched(node: Node, groups: Groups): set<nat> {
    set i | 0 <= i < |groups| && node in groups[i]
  }

  /** The evidence groups that at least one of the nodes belongs to. */
  function Covered(nodes: seq<Node>, groups: Groups): set<nat> {
    set i | 0 <= i < |groups| && exists j :: 0 <= j < |nodes| && nodes[j] in groups[i]
  }

  /** How many groups the node at position j is the first to cover. */
  function FirstCovers(nodes: seq<Node>, groups: Groups, j: nat): nat
    requires j < |nodes|
  {
    |Covered(nodes[..j + 1], groups) - Covered(nodes[..j], groups)|
  }

  function Gains(nodes: seq<Node>, groups: Groups): seq<nat> {
    seq(|nodes|, j requires 0 <= j < |nodes| => FirstCovers(nodes, groups, j))
  }

  lemma CoveredExtends(nodes: seq<Node>, groups: Groups, j: nat)
    requires j < |nodes|
    ensures Covered(nodes[..j + 1], groups) == Covered(nodes[..j], groups) + Matched(nodes[j], groups)
  {
    assert nodes[..j + 1] == nodes[..j] + [nodes[j]];
    assert nodes[..j + 1][j] == nodes[j];
    forall i | i in Covered(nodes[..j], groups) ensures i in Covered(nodes[..j + 1], groups) {
      var x :| 0 <= x < j && nodes[..j][x] in groups[i];
      assert nodes[..j + 1][x] in groups[i];
    }
  }

  lemma NothingCovered(groups: Groups)
    ensures Covered([], groups) == {}
  {
  }

  lemma NovelIsFirstCovered(nodes: seq<Node>, groups: Groups, j: nat)
    requires j < |nodes|
    ensures var seen := Covered(nodes[..j], groups);
      var novel := Matched(nodes[j], groups) - seen;
      |novel| == FirstCovers(nodes, groups, j) && seen + novel == Covered(nodes[..j + 1], groups)
  {
    CoveredExtends(nodes, groups, j);
    assert Covered(nodes[..j + 1], groups) - Covered(nodes[..j], groups)
      == Matched(nodes[j], groups) - Covered(nodes[..j], groups);
  }

  function Recall(nodes: seq<Node>, groups: Groups): real {
    if groups == [] then 0.0 else |Covered(nodes, groups)| as real / |groups| as real
  }

  method EvidenceGains(nodes: seq<Node>, groups: Groups) returns (gains: seq<nat>, recall: real)
    ensures gains == Gains(nodes, groups)
    ensures recall == Recall(nodes, groups)
  {
    hide Matched, Covered, FirstCovers;
    var seen: set<nat> := {};
    NothingCovered(groups);
    gains := [];
    for j := 0 to |nodes|
      invariant seen == Covered(nodes[..j], groups)
      invariant |gains| == j && forall x :: 0 <= x < j ==> gains[x] == FirstCovers(nodes, groups, x)
    {
      var matched := Matched(nodes[j], groups);
      var novel := matched - seen;
      NovelIsFirstCovered(nodes, groups, j);
      gains := gains + [|novel|];
      seen := seen + novel;
    }
    assert nodes[..|nodes|] == nodes;
    recall := if groups == [] then 0.0 else |seen| as real / |groups| as real;
  }

  function Total(gains: seq<nat>): nat {
    if gains == [] then 0 else Total(gains[..|gains| - 1]) + gains[|gains| - 1]
  }

  lemma GainsOfFront(nodes: seq<Node>, groups: Groups)
    requires nodes != []
    ensures var n := |nodes| - 1; Gains(nodes, groups) == Gains(nodes[..n], groups) + [FirstCovers(nodes, groups, n)]
  {
    hide FirstCovers;
    var n := |nodes| - 1;
    forall j | 0 <= j < n ensures FirstCovers(nodes[..n], groups, j) == FirstCovers(nodes, groups, j) {
      SameFirstCovers(nodes, groups, n, j);
    }
    assert |Gains(nodes, groups)| == n + 1 && |Gains(nodes[..n], groups)| == n;
  }

  lemma SameFirstCovers(nodes: seq<Node>, groups: Groups, n: nat, j: nat)
    requires j < n <= |nodes|
    ensures FirstCovers(nodes[..n], groups, j) == FirstCovers(nodes, groups, j)
  {
    assert nodes[..n][..j] == nodes[..j] && nodes[..n][..j + 1] == nodes[..j + 1];
  }

  lemma CoverageGrowth(nodes: seq<Node>, groups: Groups, j: nat)
    requires j < |nodes|
    ensures |Covered(nodes[..j + 1], groups)| == |Covered(nodes[..j], groups)| + FirstCovers(nodes, groups, j)
  {
    CoveredExtends(nodes, groups, j);
    var before, after := Covered(nodes[..j], groups), Covered(nodes[..j + 1], groups);
    assert after == before + (after - before);
  }

  /** No group is counted twice and none that was covered is missed. */
  lemma {:induction false} GainsSumToCoverage(nodes: seq<Node>, groups: Groups)
    ensures Total(Gains(nodes, groups)) == |Covered(nodes, groups)| <= |groups|
  {
    if nodes == [] {
      NothingCovered(groups);
    } else {
      var n := |nodes| - 1;
      GainsSumToCoverage(nodes[..n], groups);
      GainsOfFront(nodes, groups);
      CoverageGrowth(nodes, groups, n);
      assert nodes[..n + 1] == nodes;
    }
    CardinalityMonotone(Covered(nodes, groups), Indexes(|groups|));
  }

  function Indexes(n: nat): (r: set<nat>)
    ensures |r| == n && forall i: nat :: i in r <==> i < n
  {
    if n == 0 then {} else Indexes(n - 1) + {n - 1}
  }

  lemma {:induction false} CardinalityMonotone<T>(a: set<T>, b: set<T>)
    requires a <= b
    ensures |a| <= |b|
    ensures |a| == |b| ==> a == b
    decreases |a|
  {
    if x :| x in a {
      CardinalityMonotone(a - {x}, b - {x});
      assert a == (a - {x}) + {x} && b == (b - {x}) + {x};
    } else {
      assert a == {};
    }
  }

  // ---- Masks ----

  /** The mask of a node over the first n groups, as a sum of powers of two. */
  function MaskBelow(node: Node, groups: Groups, n: nat): nat
    requires n <= |groups|
  {
    if n == 0 then 0
    else MaskBelow(node, groups, n - 1) + if node in groups[n - 1] then Pow2(n - 1) else 0
  }

  function MaskOf(node: Node, groups: Groups): nat {
    MaskBelow(node, groups, |groups|)
  }

  lemma {:induction false} MaskBits(node: Node, groups: Groups, n: nat, i: nat)
    requires n <= |groups|
    ensures MaskBelow(node, groups, n) < Pow2(n)
    ensures Bit(MaskBelow(node, groups, n), i) <==> i < n && node in groups[i]
  {
    if n == 0 {
      ZeroHasNoBits(i);
    } else {
      MaskBits(node, groups, n - 1, i);
      AddTopBit(MaskBelow(node, groups, n - 1), n - 1, i);
    }
  }

  lemma MaskPositions(node: Node, groups: Groups)
    ensures MaskOf(node, groups) < Pow2(|groups|)
    ensures Positions(MaskOf(node, groups), |groups|) == Matched(node, groups)
    ensures MaskOf(node, groups) == 0 ==> Matched(node, groups) == {}
  {
    MaskBits(node, groups, |groups|, 0);
    forall i | 0 <= i < |groups| ensures Bit(MaskOf(node, groups), i) <==> node in groups[i] {
      MaskBits(node, groups, |groups|, i);
    }
    forall i: nat ensures !Bit(0, i) { ZeroHasNoBits(i); }
  }

  function AllNodes(groups: Groups): set<Node> {
    set i, n | 0 <= i < |groups| && n in groups[i] :: n
  }

  function MaskSet(groups: Groups): set<nat> {
    set n | n in AllNodes(groups) && MaskOf(n, groups) != 0 :: MaskOf(n, groups)
  }

  // ---- Lists of masks and what they are worth ----

  /** The discounted gain of placing masks from `rank` on when `cover` is already covered. */
  function PathValue(cover: nat, ms: seq<nat>, d: Discount, rank: nat): real
    decreases |ms|
  {
    if ms == [] then 0.0
    else Weigh(NewBits(cover, ms[0]) as real, d(rank)) + PathValue(Or(cover, ms[0]), ms[1..], d, rank + 1)
  }

  function PathCover(cover: nat, ms: seq<nat>): nat
    decreases |ms|
  {
    if ms == [] then cover else PathCover(Or(cover, ms[0]), ms[1..])
  }

  /** n ranks, each holding a mask of some node or nothing useful. */
  predicate IsPath(ms: seq<nat>, masks: set<nat>, n: nat) {
    |ms| == n && forall i :: 0 <= i < n ==> ms[i] == 0 || ms[i] in masks
  }

  lemma {:induction false} PathAppend(cover: nat, ms: seq<nat>, m: nat, d: Discount, rank: nat)
    ensures PathCover(cover, ms + [m]) == Or(PathCover(cover, ms), m)
    ensures PathValue(cover, ms + [m], d, rank) ==
      PathValue(cover, ms, d, rank) + Weigh(NewBits(PathCover(cover, ms), m) as real, d(rank + |ms|))
    decreases |ms|
  {
    hide Weigh, NewBits;
    if ms == [] {
      assert ([] + [m])[1..] == [];
    } else {
      assert (ms + [m])[1..] == ms[1..] + [m];
      PathAppend(Or(cover, ms[0]), ms[1..], m, d, rank + 1);
    }
  }

  lemma WeighFacts(n: nat, early: real, late: real)
    requires early >= late >= 0.0
    ensures Weigh(n as real, early) >= Weigh(n as real, late) >= 0.0
    ensures Weigh(0.0, early) == 0.0
  {
    ProductMonotone(late, early, n as real);
    ProductMonotone(0.0, late, n as real);
  }

  lemma {:induction false} PathEarlier(cover: nat, ms: seq<nat>, d: Discount, rank: nat)
    requires IsDiscount(d) && rank >= 1
    ensures PathValue(cover, ms, d, rank) >= PathValue(cover, ms, d, rank + 1) >= 0.0
    decreases |ms|
  {
    hide Weigh, NewBits;
    if ms != [] {
      assert d(rank) > d(rank + 1) > 0.0;
      WeighFacts(NewBits(cover, ms[0]), d(rank), d(rank + 1));
      PathEarlier(Or(cover, ms[0]), ms[1..], d, rank + 1);
    }
  }

  function Strip(ms: seq<nat>): (r: seq<nat>)
    ensures |r| <= |ms| && forall i :: 0 <= i < |r| ==> r[i] != 0 && r[i] in ms
  {
    if ms == [] then [] else (if ms[0] == 0 then [] else [ms[0]]) + Strip(ms[1..])
  }

  /** Leaving out the ranks that hold nothing useful moves the rest forward and cannot lose value. */
  lemma {:induction false} StripGains(cover: nat, ms: seq<nat>, d: Discount, rank: nat)
    requires IsDiscount(d) && rank >= 1
    ensures PathValue(cover, Strip(ms), d, rank) >= PathValue(cover, ms, d, rank)
    decreases |ms|
  {
    hide Weigh, NewBits;
    if ms != [] {
      if ms[0] == 0 {
        ZeroAddsNothing(cover);
        WeighFacts(0, d(rank), d(rank));
        StripGains(cover, ms[1..], d, rank);
        PathEarlier(cover, ms[1..], d, rank);
        assert Strip(ms) == Strip(ms[1..]);
      } else {
        StripGains(Or(cover, ms[0]), ms[1..], d, rank + 1);
        assert Strip(ms)[1..] == Strip(ms[1..]);
      }
    }
  }

  function Zeros(n: nat): seq<nat> {
    Repeat<nat>(0, n)
  }

  /** Trailing ranks that hold nothing useful change nothing. */
  lemma {:induction false} PadPath(cover: nat, ms: seq<nat>, extra: nat, d: Discount, rank: nat)
    requires IsDiscount(d) && rank >= 1
    ensures PathValue(cover, ms + Zeros(extra), d, rank) == PathValue(cover, ms, d, rank)
    decreases |ms|, extra
  {
    hide Weigh, NewBits;
    if ms != [] {
      assert (ms + Zeros(extra))[1..] == ms[1..] + Zeros(extra);
      PadPath(Or(cover, ms[0]), ms[1..], extra, d, rank + 1);
    } else if extra > 0 {
      assert (ms + Zeros(extra))[1..] == ms + Zeros(extra - 1);
      ZeroAddsNothing(cover);
      WeighFacts(0, d(rank), d(rank));
      PadPath(cover, ms, extra - 1, d, rank + 1);
    } else {
      assert ms + Zeros(0) == ms;
    }
  }

  // ---- The simple form: try everything ----

  /** The gain of placing one mask at a rank. */
  function Step(cover: nat, m: nat, d: Discount, rank: nat): real {
    Weigh(NewBits(cover, m) as real, d(rank))
  }

  /** The best value of n more ranks, by trying every mask, or nothing, at each rank. */
  ghost function Best(cover: nat, masks: set<nat>, n: nat, d: Discount, rank: nat): real
    decreases n, 0
  {
    if n == 0 then 0.0 else BestAmong(masks, cover, masks, n - 1, d, rank)
  }

  /** The best choice for one rank among some of the masks and nothing, followed by n more ranks. */
  ghost function BestAmong(some: set<nat>, cover: nat, masks: set<nat>, n: nat, d: Discount, rank: nat): real
    decreases n, |some| + 1
  {
    if some == {} then Best(cover, masks, n, d, rank + 1)
    else
      var m :| m in some;
      var here := Step(cover, m, d, rank) + Best(Or(cover, m), masks, n, d, rank + 1);
      var others := BestAmong(some - {m}, cover, masks, n, d, rank);
      if here >= others then here else others
  }

  ghost predicate IsGreatestChoice(v: real, some: set<nat>, cover: nat, masks: set<nat>, n: nat, d: Discount,
      rank: nat) {
    && v >= Best(cover, masks, n, d, rank + 1)
    && (forall m :: m in some ==> v >= Step(cover, m, d, rank) + Best(Or(cover, m), masks, n, d, rank + 1))
    && (|| v == Best(cover, masks, n, d, rank + 1)
        || exists m :: m in some && v == Step(cover, m, d, rank) + Best(Or(cover, m), masks, n, d, rank + 1))
  }

  lemma {:induction false} BestAmongIsGreatest(some: set<nat>, cover: nat, masks: set<nat>, n: nat, d: Discount,
      rank: nat)
    ensures IsGreatestChoice(BestAmong(some, cover, masks, n, d, rank), some, cover, masks, n, d, rank)
    decreases |some|
  {
    hide Step, Best, Or;
    if some != {} {
      var m :| m in some && BestAmong(some, cover, masks, n, d, rank) ==
        var here := Step(cover, m, d, rank) + Best(Or(cover, m), masks, n, d, rank + 1);
        var others := BestAmong(some - {m}, cover, masks, n, d, rank);
        if here >= others then here else others;
      BestAmongIsGreatest(some - {m}, cover, masks, n, d, rank);
    }
  }

  lemma BestUnfolds(cover: nat, masks: set<nat>, n: nat, d: Discount, rank: nat)
    requires n > 0
    ensures Best(cover, masks, n, d, rank) == BestAmong(masks, cover, masks, n - 1, d, rank)
  {
    hide BestAmong;
  }

  lemma {:induction false} BestBounds(cover: nat, masks: set<nat>, ms: seq<nat>, d: Discount, rank: nat)
    requires IsDiscount(d) && rank >= 1 && IsPath(ms, masks, |ms|)
    ensures PathValue(cover, ms, d, rank) <= Best(cover, masks, |ms|, d, rank)
    decreases |ms|
  {
    hide Weigh, NewBits, Best;
    if ms == [] {
      assert Best(cover, masks, 0, d, rank) == 0.0 by { NoRanks(cover, masks, d, rank); }
    } else {
      assert IsPath(ms[1..], masks, |ms| - 1);
      BestBounds(Or(cover, ms[0]), masks, ms[1..], d, rank + 1);
      BestUnfolds(cover, masks, |ms|, d, rank);
      BestAmongIsGreatest(masks, cover, masks, |ms| - 1, d, rank);
      assert PathValue(cover, ms, d, rank) ==
        Step(cover, ms[0], d, rank) + PathValue(Or(cover, ms[0]), ms[1..], d, rank + 1);
      if ms[0] == 0 {
        StepOfNothing(cover, d, rank);
      }
    }
  }

  lemma NoRanks(cover: nat, masks: set<nat>, d: Discount, rank: nat)
    ensures Best(cover, masks, 0, d, rank) == 0.0
  {
  }

  lemma StepOfNothing(cover: nat, d: Discount, rank: nat)
    requires IsDiscount(d) && rank >= 1
    ensures Step(cover, 0, d, rank) == 0.0 && Or(cover, 0) == cover
  {
    ZeroAddsNothing(cover);
    WeighFacts(0, d(rank), d(rank));
  }

  lemma {:induction false} BestAttained(cover: nat, masks: set<nat>, n: nat, d: Discount, rank: nat)
    returns (ms: seq<nat>)
    requires IsDiscount(d) && rank >= 1
    ensures IsPath(ms, masks, n) && PathValue(cover, ms, d, rank) == Best(cover, masks, n, d, rank)
    decreases n
  {
    hide Weigh, NewBits, Best;
    if n == 0 {
      ms := [];
      NoRanks(cover, masks, d, rank);
    } else {
      BestUnfolds(cover, masks, n, d, rank);
      BestAmongIsGreatest(masks, cover, masks, n - 1, d, rank);
      var m := 0;
      StepOfNothing(cover, d, rank);
      if Best(cover, masks, n, d, rank) != Best(cover, masks, n - 1, d, rank + 1) {
        m :| m in masks && Best(cover, masks, n, d, rank) ==
          Step(cover, m, d, rank) + Best(Or(cover, m), masks, n - 1, d, rank + 1);
      }
      var rest := BestAttained(Or(cover, m), masks, n - 1, d, rank + 1);
      ms := [m] + rest;
      assert ms[1..] == rest;
    }
  }

  /** The best achievable discounted gain in k ranks. */
  ghost function IdealDcg(groups: Groups, k: int, d: Discount): real {
    Best(0, MaskSet(groups), if k > 0 then k else 0, d, 1)
  }

  // ---- The dynamic program ----

  ghost predicate Attained(c: nat, v: real, masks: set<nat>, n: nat, d: Discount) {
    exists ms :: IsPath(ms, masks, n) && PathCover(0, ms) == c && PathValue(0, ms, d, 1) == v
  }

  /** Every table entry is the value of some list of masks. */
  ghost predicate Sound(states: map<nat, real>, masks: set<nat>, n: nat, d: Discount) {
    forall c :: c in states ==> Attained(c, states[c], masks, n, d)
  }

  ghost predicate Dominated(ms: seq<nat>, states: map<nat, real>, d: Discount) {
    PathCover(0, ms) in states && PathValue(0, ms, d, 1) <= states[PathCover(0, ms)]
  }

  /** No list of masks beats the entry for what it covers. */
  ghost predicate Complete(states: map<nat, real>, masks: set<nat>, n: nat, d: Discount) {
    forall ms :: IsPath(ms, masks, n) ==> Dominated(ms, states, d)
  }

  ghost predicate Relaxed(next: map<nat, real>, c: nat, v: real, m: nat, weight: real) {
    Or(c, m) in next && v + Weigh(NewBits(c, m) as real, weight) <= next[Or(c, m)]
  }

  lemma AttainedExtends(c: nat, v: real, m: nat, masks: set<nat>, n: nat, d: Discount)
    requires Attained(c, v, masks, n, d) && (m == 0 || m in masks)
    ensures Attained(Or(c, m), v + Weigh(NewBits(c, m) as real, d(n + 1)), masks, n + 1, d)
  {
    hide Weigh, NewBits;
    var ms :| IsPath(ms, masks, n) && PathCover(0, ms) == c && PathValue(0, ms, d, 1) == v;
    PathAppend(0, ms, m, d, 1);
    assert IsPath(ms + [m], masks, n + 1);
  }

  lemma AttainedSkips(c: nat, v: real, masks: set<nat>, n: nat, d: Discount)
    requires IsDiscount(d) && Attained(c, v, masks, n, d)
    ensures Attained(c, v, masks, n + 1, d) && v >= 0.0
  {
    hide Weigh, NewBits;
    AttainedExtends(c, v, 0, masks, n, d);
    ZeroAddsNothing(c);
    assert d(n + 1) > 0.0;
    WeighFacts(0, d(n + 1), d(n + 1));
    var ms :| IsPath(ms, masks, n) && PathCover(0, ms) == c && PathValue(0, ms, d, 1) == v;
    PathEarlier(0, ms, d, 1);
  }

  lemma CompleteExtends(states: map<nat, real>, next: map<nat, real>, masks: set<nat>, n: nat, d: Discount)
    requires IsDiscount(d) && Complete(states, masks, n, d)
    requires forall c :: c in states ==> c in next && states[c] <= next[c]
    requires forall c, m :: c in states && m in masks ==> Relaxed(next, c, states[c], m, d(n + 1))
    ensures Complete(next, masks, n + 1, d)
  {
    hide Weigh, NewBits;
    forall ms | IsPath(ms, masks, n + 1) ensures Dominated(ms, next, d) {
      var front, m := ms[..n], ms[n];
      assert IsPath(front, masks, n);
      assert Dominated(front, states, d);
      var c := PathCover(0, front);
      assert ms == front + [m];
      PathAppend(0, front, m, d, 1);
      if m == 0 {
        ZeroAddsNothing(c);
        assert d(n + 1) > 0.0;
        WeighFacts(0, d(n + 1), d(n + 1));
      } else {
        assert Relaxed(next, c, states[c], m, d(n + 1));
      }
    }
  }

  method Masks(groups: Groups) returns (masks: set<nat>)
    ensures masks == MaskSet(groups)
  {
    masks := {};
    var todo := AllNodes(groups);
    while todo != {}
      invariant todo <= AllNodes(groups)
      invariant masks == set n | n in AllNodes(groups) - todo && MaskOf(n, groups) != 0 :: MaskOf(n, groups)
      decreases |todo|
    {
      var node :| node in todo;
      var mask := MaskOf(node, groups);
      todo := todo - {node};
      if mask != 0 {
        masks := masks + {mask};
      }
    }
  }

  /** Extends one state by every mask, at the rank after the first n. */
  method ExtendState(covered: nat, value: real, table: map<nat, real>, masks: set<nat>, n: nat, d: Discount)
    returns (next: map<nat, real>)
    requires IsDiscount(d)
    requires Attained(covered, value, masks, n, d) && Sound(table, masks, n + 1, d)
    ensures Sound(next, masks, n + 1, d)
    ensures forall c :: c in table ==> c in next && table[c] <= next[c]
    ensures forall m :: m in masks ==> Relaxed(next, covered, value, m, d(n + 1))
  {
    hide Weigh, NewBits;
    next := table;
    var left := masks;
    while left != {}
      invariant left <= masks
      invariant Sound(next, masks, n + 1, d)
      invariant forall c :: c in table ==> c in next && table[c] <= next[c]
      invariant forall m :: m in masks && m !in left ==> Relaxed(next, covered, value, m, d(n + 1))
      decreases |left|
    {
      var mask :| mask in left;
      var combined := Or(covered, mask);
      var candidate := value + Weigh(NewBits(covered, mask) as real, d(n + 1));
      CandidateNonNegative(covered, value, mask, masks, n, d);
      AttainedExtends(covered, value, mask, masks, n, d);
      var known := if combined in next then next[combined] else 0.0;
      next := next[combined := if known >= candidate then known else candidate];
      left := left - {mask};
    }
  }

  lemma CandidateNonNegative(c: nat, v: real, m: nat, masks: set<nat>, n: nat, d: Discount)
    requires IsDiscount(d) && Attained(c, v, masks, n, d)
    ensures v + Weigh(NewBits(c, m) as real, d(n + 1)) >= 0.0
  {
    AttainedSkips(c, v, masks, n, d);
    assert d(n + 1) > 0.0;
    WeighFacts(NewBits(c, m), d(n + 1), d(n + 1));
  }

  /** One rank of the table: every state is extended by every mask. */
  method NextStates(states: map<nat, real>, masks: set<nat>, n: nat, d: Discount) returns (next: map<nat, real>)
    requires IsDiscount(d)
    requires Sound(states, masks, n, d) && Complete(states, masks, n, d)
    ensures Sound(next, masks, n + 1, d) && Complete(next, masks, n + 1, d)
  {
    hide Weigh, NewBits, Or;
    next := states;
    forall c | c in states ensures Attained(c, states[c], masks, n + 1, d) {
      AttainedSkips(c, states[c], masks, n, d);
    }
    var todo := states.Keys;
    while todo != {}
      invariant todo <= states.Keys
      invariant Sound(next, masks, n + 1, d)
      invariant forall c :: c in states ==> c in next && states[c] <= next[c]
      invariant forall c, m :: c in states && c !in todo && m in masks ==> Relaxed(next, c, states[c], m, d(n + 1))
      decreases |todo|
    {
      var covered :| covered in todo;
      next := ExtendState(covered, states[covered], next, masks, n, d);
      todo := todo - {covered};
    }
    CompleteExtends(states, next, masks, n, d);
  }

  lemma InitialTable(masks: set<nat>, d: Discount)
    ensures Sound(map[0 := 0.0], masks, 0, d) && Complete(map[0 := 0.0], masks, 0, d)
  {
    assert IsPath([], masks, 0) && PathCover(0, []) == 0 && PathValue(0, [], d, 1) == 0.0;
    forall ms | IsPath(ms, masks, 0) ensures Dominated(ms, map[0 := 0.0], d) {
      assert ms == [];
    }
  }

  /** The dynamic program computes what trying everything computes, for every k and every overlap. */
  method IdealEvidenceDcg(groups: Groups, k: int, d: Discount) returns (best: real)
    requires IsDiscount(d)
    ensures best == IdealDcg(groups, k, d)
  {
    var masks := Masks(groups);
    var states: map<nat, real> := map[0 := 0.0];
    InitialTable(masks, d);
    var n := if k > 0 then k else 0;
    for rank := 1 to n + 1
      invariant Sound(states, masks, rank - 1, d) && Complete(states, masks, rank - 1, d)
    {
      states := NextStates(states, masks, rank - 1, d);
    }
    best := 0.0;
    var todo := states.Keys;
    while todo != {}
      invariant todo <= states.Keys && best >= 0.0
      invariant forall c :: c in states && c !in todo ==> states[c] <= best
      invariant best == 0.0 || exists c :: c in states && states[c] == best
      decreases |todo|
    {
      var c :| c in todo;
      if states[c] > best { best := states[c]; }
      todo := todo - {c};
    }
    TableMaximum(states, masks, n, d, best);
  }

  lemma TableMaximum(states: map<nat, real>, masks: set<nat>, n: nat, d: Discount, best: real)
    requires IsDiscount(d) && Sound(states, masks, n, d) && Complete(states, masks, n, d)
    requires forall c :: c in states ==> states[c] <= best
    requires best == 0.0 || exists c :: c in states && states[c] == best
    ensures best == Best(0, masks, n, d, 1)
  {
    hide Weigh, NewBits, Best;
    var top := BestAttained(0, masks, n, d, 1);
    assert Dominated(top, states, d);
    PathEarlier(0, top, d, 1);
    if c :| c in states && states[c] == best {
      assert Attained(c, best, masks, n, d);
      var ms :| IsPath(ms, masks, n) && PathCover(0, ms) == c && PathValue(0, ms, d, 1) == best;
      BestBounds(0, masks, ms, d, 1);
    }
  }

  // ---- What the optimum means for retrieved lists ----

  function RealGains(nodes: seq<Node>, groups: Groups): seq<real> {
    seq(|nodes|, j requires 0 <= j < |nodes| => FirstCovers(nodes, groups, j) as real)
  }

  /** The discounted gain of a retrieved list. */
  function ListDcg(nodes: seq<Node>, groups: Groups, d: Discount): real {
    DcgFrom(RealGains(nodes, groups), d, 1)
  }

  function NodeMasks(nodes: seq<Node>, groups: Groups): seq<nat> {
    seq(|nodes|, j requires 0 <= j < |nodes| => MaskOf(nodes[j], groups))
  }

  /** A list of nodes earns exactly what the list of their masks earns. */
  lemma {:induction false} ListIsPath(nodes: seq<Node>, groups: Groups, j: nat, cover: nat, d: Discount)
    requires j <= |nodes| && cover < Pow2(|groups|)
    requires Positions(cover, |groups|) == Covered(nodes[..j], groups)
    ensures DcgFrom(RealGains(nodes, groups)[j..], d, j + 1)
         == PathValue(cover, NodeMasks(nodes, groups)[j..], d, j + 1)
    decreases |nodes| - j
  {
    hide Weigh, NewBits, Positions, Covered, FirstCovers, MaskOf;
    if j < |nodes| {
      var m := MaskOf(nodes[j], groups);
      NodeStep(nodes, groups, j, cover);
      ListIsPath(nodes, groups, j + 1, Or(cover, m), d);
      assert RealGains(nodes, groups)[j..][1..] == RealGains(nodes, groups)[j + 1..];
      assert NodeMasks(nodes, groups)[j..][1..] == NodeMasks(nodes, groups)[j + 1..];
    }
  }

  lemma NodeStep(nodes: seq<Node>, groups: Groups, j: nat, cover: nat)
    requires j < |nodes| && cover < Pow2(|groups|)
    requires Positions(cover, |groups|) == Covered(nodes[..j], groups)
    ensures var m := MaskOf(nodes[j], groups);
      && Or(cover, m) < Pow2(|groups|)
      && Positions(Or(cover, m), |groups|) == Covered(nodes[..j + 1], groups)
      && NewBits(cover, m) == FirstCovers(nodes, groups, j)
  {
    hide NewBits;
    var m := MaskOf(nodes[j], groups);
    MaskPositions(nodes[j], groups);
    NewBitsIsDifference(cover, m, |groups|);
    OrBelow(cover, m, |groups|);
    NovelIsFirstCovered(nodes, groups, j);
  }

  lemma ListIsWholePath(nodes: seq<Node>, groups: Groups, d: Discount)
    ensures ListDcg(nodes, groups, d) == PathValue(0, NodeMasks(nodes, groups), d, 1)
  {
    forall i | 0 <= i < |groups| ensures !Bit(0, i) { ZeroHasNoBits(i); }
    assert Positions(0, |groups|) == Covered(nodes[..0], groups) == {};
    ListIsPath(nodes, groups, 0, 0, d);
    assert RealGains(nodes, groups)[0..] == RealGains(nodes, groups);
    assert NodeMasks(nodes, groups)[0..] == NodeMasks(nodes, groups);
  }

  lemma MaskIsKnown(node: Node, groups: Groups)
    ensures MaskOf(node, groups) == 0 || MaskOf(node, groups) in MaskSet(groups)
  {
    MaskPositions(node, groups);
    if node !in AllNodes(groups) {
      assert Matched(node, groups) == {};
      MaskZero(node, groups, |groups|);
    }
  }

  lemma {:induction false} MaskZero(node: Node, groups: Groups, n: nat)
    requires n <= |groups| && forall i :: 0 <= i < n ==> node !in groups[i]
    ensures MaskBelow(node, groups, n) == 0
  {
    if n > 0 { MaskZero(node, groups, n - 1); }
  }

  /** Upper bound: no list of at most k nodes, with repeats and irrelevant nodes, does better. */
  lemma NoListBeatsIdeal(nodes: seq<Node>, groups: Groups, k: int, d: Discount)
    requires IsDiscount(d) && |nodes| <= (if k > 0 then k else 0)
    ensures ListDcg(nodes, groups, d) <= IdealDcg(groups, k, d)
  {
    hide Weigh, NewBits, Best;
    var n := if k > 0 then k else 0;
    var ms := NodeMasks(nodes, groups);
    ListIsWholePath(nodes, groups, d);
    PadPath(0, ms, n - |nodes|, d, 1);
    var padded := ms + Zeros(n - |nodes|);
    forall i | 0 <= i < n ensures padded[i] == 0 || padded[i] in MaskSet(groups) {
      if i < |nodes| { MaskIsKnown(nodes[i], groups); }
    }
    BestBounds(0, MaskSet(groups), padded, d, 1);
  }

  /** Attainment: some list of at most k nodes, all of them evidence, earns the ideal. */
  lemma IdealIsAttained(groups: Groups, k: int, d: Discount) returns (nodes: seq<Node>)
    requires IsDiscount(d)
    ensures |nodes| <= (if k > 0 then k else 0) && (forall x :: x in nodes ==> x in AllNodes(groups))
    ensures ListDcg(nodes, groups, d) == IdealDcg(groups, k, d)
  {
    hide Weigh, NewBits, Best;
    var n := if k > 0 then k else 0;
    var path := BestAttained(0, MaskSet(groups), n, d, 1);
    StripGains(0, path, d, 1);
    nodes := NodesFor(Strip(path), groups);
    ListIsWholePath(nodes, groups, d);
    NoListBeatsIdeal(nodes, groups, k, d);
  }

  lemma {:induction false} NodesFor(ms: seq<nat>, groups: Groups) returns (nodes: seq<Node>)
    requires forall i :: 0 <= i < |ms| ==> ms[i] in MaskSet(groups)
    ensures NodeMasks(nodes, groups) == ms && |nodes| == |ms|
    ensures forall x :: x in nodes ==> x in AllNodes(groups)
  {
    if ms == [] {
      nodes := [];
    } else {
      var rest := NodesFor(ms[1..], groups);
      var node :| node in AllNodes(groups) && MaskOf(node, groups) == ms[0];
      nodes := [node] + rest;
      forall j | 0 <= j < |ms| ensures NodeMasks(nodes, groups)[j] == ms[j] {
        if j > 0 { assert NodeMasks(rest, groups)[j - 1] == ms[1..][j - 1]; }
      }
    }
  }

  /** The normalised gain. The clamp at 1 in the program is never reached. */
  ghost function EvidenceNdcg(nodes: seq<Node>, groups: Groups, k: int, d: Discount): real {
    var ideal := IdealDcg(groups, k, d);
    if ideal == 0.0 then 0.0 else ListDcg(PyTake(nodes, k), groups, d) / ideal
  }

  lemma EvidenceNdcgInUnit(nodes: seq<Node>, groups: Groups, k: int, d: Discount)
    requires IsDiscount(d)
    ensures 0.0 <= EvidenceNdcg(nodes, groups, k, d) <= 1.0
    ensures IdealDcg(groups, k, d) > 0.0 ==>
      (EvidenceNdcg(nodes, groups, k, d) == 1.0 <==>
        forall other: seq<Node> | |other| <= (if k > 0 then k else 0) ::
          ListDcg(other, groups, d) <= ListDcg(PyTake(nodes, k), groups, d))
  {
    hide Weigh, NewBits, Best;
    var kept := PyTake(nodes, k);
    var ideal := IdealDcg(groups, k, d);
    var optimum := IdealIsAttained(groups, k, d);
    DcgNonNegative(RealGains(optimum, groups), d, 1);
    DcgNonNegative(RealGains(kept, groups), d, 1);
    if ideal > 0.0 {
      assert k > 0;
      NoListBeatsIdeal(kept, groups, k, d);
      FractionInUnit(ListDcg(kept, groups, d), ideal);
      forall other: seq<Node> | |other| <= k ensures ListDcg(other, groups, d) <= ideal {
        NoListBeatsIdeal(other, groups, k, d);
      }
    }
  }

  method ComputeEvidenceNdcg(nodes: seq<Node>, groups: Groups, k: int, d: Discount) returns (r: real)
    requires IsDiscount(d)
    ensures r == EvidenceNdcg(nodes, groups, k, d)
  {
    var kept := PyTake(nodes, k);
    var gains, _ := EvidenceGains(kept, groups);
    var ideal := IdealEvidenceDcg(groups, k, d);
    EvidenceNdcgInUnit(nodes, groups, k, d);
    if ideal == 0.0 {
      return 0.0;
    }
    var asReals := seq(|gains|, j requires 0 <= j < |gains| => gains[j] as real);
    assert asReals == RealGains(kept, groups);
    var actual := Dcg(asReals, d);
    r := actual / ideal;
    if r > 1.0 { r := 1.0; }
  }
}
