/** Causal grouped-query attention: the whole-sequence form, and decoding in chunks with a cache. */
module Attention {
  import opened IntDiv
  import opened Vectors
  import opened Sums
  import opened Tensors
  import opened Softmax

  /** What `causal_gqa` is called with; `E` stands for `np.exp`, `rsqrt(D)` for `D ** -0.5`. */
  datatype Call = Call(q: Tensor4, k: Tensor4, v: Tensor4, scale: Option<real>) {
    function T(): nat { q.n1 }
    function S(): nat { k.n1 }
    function H(): nat { q.n2 }
    function D(): nat { q.n3 }
  }

  datatype Reply = Output(y: Tensor4) | Rejected | ZeroDivision

  predicate Accepts(c: Call) {
    && SameShape4(c.v, c.k) && c.q.n0 == c.k.n0 && c.q.n3 == c.k.n3
    && c.k.n2 > 0 && c.q.n2 % c.k.n2 == 0 && c.T() > 0 && c.S() >= c.T()
  }

  /** Query heads per key/value head. */
  function Group(c: Call): nat
    requires Accepts(c)
  {
    c.H() / c.k.n2
  }

  /** `scale` when given, else the reciprocal root of the head dimension. */
  function ScaleOf(c: Call, rsqrt: nat -> real): real {
    if c.scale.Some? then c.scale.value else rsqrt(c.D())
  }

  /** Query row t of the call may look at keys 0 ..= S - T + t. */
  predicate Allowed(c: Call, t: int, s: int) {
    s <= c.S() - c.T() + t
  }

  /** The key/value head of query head h. */
  function KvHead(c: Call, h: int): int
    requires Accepts(c)
  {
    if Group(c) == 0 then 0 else h / Group(c)
  }

  /** Row (b, h, t) of the masked scores. */
  function ScoreRow(c: Call, a: real, b: int, h: int, t: int): (r: seq<Score>)
    requires Accepts(c)
    ensures |r| == c.S()
  {
    seq(c.S(), s requires 0 <= s < c.S() =>
      if Allowed(c, t, s) then Fin(Dot(Fiber4(c.q, b, t, h), Fiber4(c.k, b, s, KvHead(c, h))) * a) else NegInf)
  }

  /** Coordinate d of the values row (b, h) sees, over all positions. */
  function ValueColumn(c: Call, b: int, h: int, d: int): (r: Vec)
    requires Accepts(c)
    ensures |r| == c.S()
  {
    seq(c.S(), s requires 0 <= s < c.S() => c.v.at(b, s, KvHead(c, h), d))
  }

  /** `einsum('bhts,bshd->bthd', p, vr)` at one entry. */
  function Attend(c: Call, E: real -> real, a: real, b: int, t: int, h: int, d: int): real
    requires Accepts(c)
  {
    Dot(Weights(E, ScoreRow(c, a, b, h, t)), ValueColumn(c, b, h, d))
  }

  /** `causal_gqa`. A missing scale on zero-dimensional heads divides by zero. */
  function CausalGqa(c: Call, E: real -> real, rsqrt: nat -> real): (r: Reply)
    ensures r.Rejected? <==>
        || c.v.n0 != c.k.n0 || c.v.n1 != c.k.n1 || c.v.n2 != c.k.n2 || c.v.n3 != c.k.n3
        || c.q.n0 != c.k.n0 || c.q.n3 != c.k.n3
        || c.k.n2 == 0 || c.q.n2 % c.k.n2 != 0 || c.q.n1 == 0 || c.k.n1 < c.q.n1
    ensures r.ZeroDivision? <==> !r.Rejected? && c.scale.None? && c.q.n3 == 0
    ensures r.Output? ==> r.y.n0 == c.q.n0 && r.y.n1 == c.q.n1 && r.y.n2 == c.q.n2 && r.y.n3 == c.q.n3
  {
    if !Accepts(c) then Rejected
    else if c.scale.None? && c.D() == 0 then ZeroDivision
    else
      var a := ScaleOf(c, rsqrt);
      Output(Tensor4(c.q.n0, c.T(), c.H(), c.D(), (b, t, h, d) => Attend(c, E, a, b, t, h, d)))
  }

  /** One query and one key of no dimensions: every check passes, and the missing scale divides by zero. */
  lemma NoDimensionsDivide(E: real -> real, rsqrt: nat -> real)
    ensures var x := Tensor4(1, 1, 1, 0, (b, t, h, i) => 0.0);
            Accepts(Call(x, x, x, None)) && CausalGqa(Call(x, x, x, None), E, rsqrt) == ZeroDivision
  {
  }

  // ---------------------------------------------------------------- the row a query really sees

  /** Scores of the positions query row t may look at. */
  ghost function SeenScores(c: Call, a: real, b: int, h: int, t: int): (r: seq<Score>)
    requires Accepts(c) && 0 <= t < c.T()
    ensures |r| == c.S() - c.T() + t + 1
  {
    var n := c.S() - c.T() + t + 1;
    seq(n, s requires 0 <= s < n => Fin(Dot(Fiber4(c.q, b, t, h), Fiber4(c.k, b, s, KvHead(c, h))) * a))
  }

  ghost function SeenValues(c: Call, b: int, h: int, t: int, d: int): (r: Vec)
    requires Accepts(c) && 0 <= t < c.T()
    ensures |r| == c.S() - c.T() + t + 1
  {
    ValueColumn(c, b, h, d)[..c.S() - c.T() + t + 1]
  }

  /** Every query row may look at something, so no row of weights is undefined. */
  lemma SeesSomething(c: Call, a: real, b: int, h: int, t: int)
    requires Accepts(c) && 0 <= t < c.T()
    ensures SomeFinite(ScoreRow(c, a, b, h, t)) && SomeFinite(SeenScores(c, a, b, h, t))
  {
    assert ScoreRow(c, a, b, h, t)[0].Fin?;
    assert SeenScores(c, a, b, h, t)[0].Fin?;
  }

  lemma ScoreRowSplits(c: Call, a: real, b: int, h: int, t: int)
    requires Accepts(c) && 0 <= t < c.T()
    ensures var seen := SeenScores(c, a, b, h, t);
            ScoreRow(c, a, b, h, t) == seen + seq(c.S() - |seen|, i => NegInf)
  {
    hide Dot;
    var seen := SeenScores(c, a, b, h, t);
    var row, split := ScoreRow(c, a, b, h, t), seen + seq(c.S() - |seen|, i => NegInf);
    forall s | 0 <= s < c.S()
      ensures row[s] == split[s]
    {
      if s >= |seen| { assert split[s] == NegInf && row[s] == NegInf; }
    }
  }

  /** The masked full-length computation equals attention over just the visible prefix. */
  lemma AttendPrefix(c: Call, E: real -> real, a: real, b: int, t: int, h: int, d: int)
    requires Accepts(c) && 0 <= t < c.T()
    ensures Attend(c, E, a, b, t, h, d) == Dot(Weights(E, SeenScores(c, a, b, h, t)), SeenValues(c, b, h, t, d))
  {
    hide Dot, Weights, ScoreRow, SeenScores;
    var seen, values := SeenScores(c, a, b, h, t), ValueColumn(c, b, h, d);
    var n, rest := |seen|, c.S() - |seen|;
    ScoreRowSplits(c, a, b, h, t);
    WeightsIgnoreMask(E, seen, rest);
    assert values == values[..n] + values[n..];
    DotAppend(Weights(E, seen), values[..n], Zeros(rest), values[n..]);
    DotZeros(rest, values[n..]);
  }

  // ---------------------------------------------------------------- causality and caching

  /** Two calls whose query rows t and t' agree and see equally many, equal keys and values. */
  ghost predicate SameView(c: Call, c': Call, b: int, h: int, t: int, t': int)
    requires Accepts(c) && Accepts(c') && 0 <= t < c.T() && 0 <= t' < c'.T()
  {
    var n := c.S() - c.T() + t + 1;
    && c'.S() - c'.T() + t' + 1 == n && KvHead(c, h) == KvHead(c', h)
    && Fiber4(c.q, b, t, h) == Fiber4(c'.q, b, t', h)
    && (forall s | 0 <= s < n :: Fiber4(c.k, b, s, KvHead(c, h)) == Fiber4(c'.k, b, s, KvHead(c, h)))
    && (forall s, d | 0 <= s < n :: c.v.at(b, s, KvHead(c, h), d) == c'.v.at(b, s, KvHead(c, h), d))
  }

  /** A row depends on nothing but its own query and the keys and values up to its position. */
  lemma RowDependsOnPrefix(c: Call, c': Call, E: real -> real, a: real, b: int, t: int, t': int, h: int, d: int)
    requires Accepts(c) && Accepts(c') && 0 <= t < c.T() && 0 <= t' < c'.T() && SameView(c, c', b, h, t, t')
    ensures Attend(c, E, a, b, t, h, d) == Attend(c', E, a, b, t', h, d)
  {
    hide Dot, Weights;
    AttendPrefix(c, E, a, b, t, h, d);
    AttendPrefix(c', E, a, b, t', h, d);
    var q := Fiber4(c.q, b, t, h);
    forall s | 0 <= s < c.S() - c.T() + t + 1
      ensures SeenScores(c, a, b, h, t)[s] == SeenScores(c', a, b, h, t')[s]
    {
      var key := Fiber4(c.k, b, s, KvHead(c, h));
      assert Fiber4(c'.k, b, s, KvHead(c', h)) == key;
      assert SeenScores(c, a, b, h, t)[s] == Fin(Dot(q, key) * a);
    }
    assert SeenScores(c, a, b, h, t) == SeenScores(c', a, b, h, t');
    assert SeenValues(c, b, h, t, d) == SeenValues(c', b, h, t', d);
  }

  /** The call that decodes query rows `lo .. hi` against the cache that ends at row `hi`. */
  function ChunkCall(c: Call, lo: nat, hi: nat): Call
    requires Accepts(c) && lo < hi <= c.T()
  {
    var cache := c.S() - c.T() + hi;
    Call(Tensor4(c.q.n0, hi - lo, c.H(), c.D(), (b, t, h, i) => c.q.at(b, t + lo, h, i)),
         Tensor4(c.k.n0, cache, c.k.n2, c.k.n3, c.k.at), Tensor4(c.v.n0, cache, c.v.n2, c.v.n3, c.v.at), c.scale)
  }

  /** Cached decoding: every row of a chunk call equals the same row of the whole call. */
  lemma ChunkRow(c: Call, E: real -> real, a: real, lo: nat, hi: nat, b: int, t: int, h: int, d: int)
    requires Accepts(c) && lo < hi <= c.T() && 0 <= t < hi - lo
    ensures Accepts(ChunkCall(c, lo, hi))
    ensures Attend(ChunkCall(c, lo, hi), E, a, b, t, h, d) == Attend(c, E, a, b, lo + t, h, d)
  {
    hide Attend;
    var c' := ChunkCall(c, lo, hi);
    assert Fiber4(c'.q, b, t, h) == Fiber4(c.q, b, lo + t, h);
    assert SameView(c', c, b, h, t, lo + t);
    RowDependsOnPrefix(c', c, E, a, b, t, lo + t, h, d);
  }

  /** Increasing cut points from 0 to T. */
  ghost predicate Cuts(c: Call, cuts: seq<nat>) {
    && |cuts| >= 2 && cuts[0] == 0 && cuts[|cuts| - 1] == c.T()
    && (forall j | 0 <= j < |cuts| - 1 :: cuts[j] < cuts[j + 1])
  }

  lemma {:induction false} CutsBelow(c: Call, cuts: seq<nat>, j: nat, m: nat)
    requires Cuts(c, cuts) && j <= m < |cuts|
    ensures cuts[j] <= cuts[m]
    decreases m - j
  {
    if j < m {
      CutsBelow(c, cuts, j, m - 1);
      assert cuts[m - 1] < cuts[m];
    }
  }

  /** For every partition of the queries into consecutive chunks, each chunk call succeeds exactly as
      the whole call does, and the outputs laid end to end are the output of the whole call. */
  lemma CachedEqualsWhole(c: Call, E: real -> real, rsqrt: nat -> real, cuts: seq<nat>, j: nat)
    requires CausalGqa(c, E, rsqrt).Output? && Cuts(c, cuts) && j < |cuts| - 1
    ensures cuts[j] < cuts[j + 1] <= c.T()
    ensures var part := CausalGqa(ChunkCall(c, cuts[j], cuts[j + 1]), E, rsqrt);
            && part.Output? && part.y.n1 == cuts[j + 1] - cuts[j]
            && (forall b, t, h, d | 0 <= t < part.y.n1 ::
                  part.y.at(b, t, h, d) == CausalGqa(c, E, rsqrt).y.at(b, cuts[j] + t, h, d))
  {
    hide Attend;
    CutsBelow(c, cuts, j + 1, |cuts| - 1);
    var lo, hi := cuts[j], cuts[j + 1];
    var c' := ChunkCall(c, lo, hi);
    var part := CausalGqa(c', E, rsqrt);
    forall b, t, h, d | 0 <= t < hi - lo
      ensures part.y.at(b, t, h, d) == CausalGqa(c, E, rsqrt).y.at(b, lo + t, h, d)
    {
      ChunkRow(c, E, ScaleOf(c, rsqrt), lo, hi, b, t, h, d);
    }
  }

  // ---------------------------------------------------------------- what the output means

  /** What the call returns: the values a row sees, averaged with the exponentials of its scores. */
  lemma OutputValue(c: Call, E: real -> real, rsqrt: nat -> real, b: int, t: int, h: int, d: int)
    requires CausalGqa(c, E, rsqrt).Output? && Exponential(E) && 0 <= t < c.T()
    ensures var (exps, values) := (Plain(E, SeenScores(c, ScaleOf(c, rsqrt), b, h, t)), SeenValues(c, b, h, t, d));
            && Total(exps) > 0.0
            && CausalGqa(c, E, rsqrt).y.at(b, t, h, d) * Total(exps) == Dot(exps, values)
  {
    hide Exponential, Dot, Weights, Total, Plain;
    var a := ScaleOf(c, rsqrt);
    var scores, values := SeenScores(c, a, b, h, t), SeenValues(c, b, h, t, d);
    var w, exps := Weights(E, scores), Plain(E, scores);
    SeesSomething(c, a, b, h, t);
    ShiftInvariance(E, scores);
    AttendPrefix(c, E, a, b, t, h, d);
    forall s | 0 <= s < |w|
      ensures exps[s] == Scale(Total(exps), w)[s]
    {
      Share(exps[s], Total(exps), w[s]);
    }
    assert exps == Scale(Total(exps), w);
    DotScale(Total(exps), w, values);
  }

  /** The whole function in its own terms: query head j * (H / Hkv) + i reads key/value head j, at the
      positions up to its own, with the given scale or else the reciprocal root of the head dimension. */
  lemma GroupedAttention(c: Call, E: real -> real, rsqrt: nat -> real, b: int, t: int, h: nat, j: nat, i: nat, d: int,
                         scale: real, scores: Vec, exps: Vec, values: Vec)
    requires CausalGqa(c, E, rsqrt).Output? && Exponential(E) && 0 <= t < c.q.n1
    requires j < c.k.n2 && i < c.q.n2 / c.k.n2 && h == j * (c.q.n2 / c.k.n2) + i
    requires scale == match c.scale { case Some(given) => given case None => rsqrt(c.q.n3) }
    requires |scores| == |exps| == |values| == c.k.n1 - c.q.n1 + t + 1
    requires forall s | 0 <= s < |scores| ::
        && scores[s] == Dot(Fiber4(c.q, b, t, h), Fiber4(c.k, b, s, j)) * scale
        && exps[s] == E(scores[s])
        && values[s] == c.v.at(b, s, j, d)
    ensures Total(exps) > 0.0
    ensures CausalGqa(c, E, rsqrt).y.at(b, t, h, d) * Total(exps) == Dot(exps, values)
  {
    hide Exponential, Dot, Total, Plain;
    Flatten(j, c.q.n2 / c.k.n2, i);
    assert KvHead(c, h) == j && ScaleOf(c, rsqrt) == scale;
    hide KvHead, ScaleOf;
    OutputValue(c, E, rsqrt, b, t, h, d);
    var seen := SeenScores(c, ScaleOf(c, rsqrt), b, h, t);
    forall s | 0 <= s < |exps|
      ensures exps[s] == Plain(E, seen)[s] && values[s] == SeenValues(c, b, h, t, d)[s]
    {
      SeenEntry(c, scale, b, h, t, d, j, s);
      PlainEntry(E, seen, s);
      assert seen[s] == Fin(scores[s]);
    }
    assert exps == Plain(E, seen) && values == SeenValues(c, b, h, t, d);
  }

  lemma SeenEntry(c: Call, a: real, b: int, h: int, t: int, d: int, j: int, s: nat)
    requires Accepts(c) && 0 <= t < c.T() && KvHead(c, h) == j && s < c.S() - c.T() + t + 1
    ensures SeenScores(c, a, b, h, t)[s] == Fin(Dot(Fiber4(c.q, b, t, h), Fiber4(c.k, b, s, j)) * a)
    ensures SeenValues(c, b, h, t, d)[s] == c.v.at(b, s, j, d)
  {
    hide Dot;
  }

  lemma PlainEntry(E: real -> real, scores: seq<Score>, s: nat)
    requires s < |scores| && scores[s].Fin?
    ensures Plain(E, scores)[s] == E(scores[s].r)
  {
  }

  lemma Share(x: real, total: real, w: real)
    requires total > 0.0 && w == x / total
    ensures x == total * w
  {
  }

  /** Each output coordinate is a weighted average of the visible values of the row's own key/value
      head, with weights proportional to the exponentials of the visible scores. */
  lemma OutputIsAverage(c: Call, E: real -> real, a: real, b: int, t: int, h: int, d: int, lo: real, hi: real)
    requires Accepts(c) && 0 <= t < c.T() && Exponential(E)
    requires forall s | 0 <= s <= c.S() - c.T() + t :: lo <= c.v.at(b, s, KvHead(c, h), d) <= hi
    ensures lo <= Attend(c, E, a, b, t, h, d) <= hi
    ensures var (scores, w) := (SeenScores(c, a, b, h, t), Weights(E, SeenScores(c, a, b, h, t)));
            && Total(w) == 1.0 && Total(Plain(E, scores)) > 0.0
            && (forall s | 0 <= s < |w| :: w[s] > 0.0 && w[s] == E(scores[s].r) / Total(Plain(E, scores)))
  {
    hide Exponential, Dot, Weights;
    var scores := SeenScores(c, a, b, h, t);
    var w := Weights(E, scores);
    SeesSomething(c, a, b, h, t);
    WeightsDistribution(E, scores);
    ShiftInvariance(E, scores);
    AttendPrefix(c, E, a, b, t, h, d);
    AverageBounds(w, SeenValues(c, b, h, t, d), lo, hi);
    forall s | 0 <= s < |w|
      ensures w[s] > 0.0 && w[s] == E(scores[s].r) / Total(Plain(E, scores))
    {
      assert scores[s].Fin? && Plain(E, scores)[s] == E(scores[s].r);
    }
  }
}
