/** Two structural differs over JSON trees: `json_diff`, and the coarser `diff`. */
module JsonDiff {
  import opened Tensors
  import opened Json

  // ---------------------------------------------------------------- sorted keys

  /** Lexicographic order by code point. */
  predicate Leq(a: string, b: string) {
    a == "" || (b != "" && (a[0] < b[0] || (a[0] == b[0] && Leq(a[1..], b[1..]))))
  }

  lemma {:induction false} LeqTotal(a: string, b: string)
    ensures Leq(a, b) || Leq(b, a)
    ensures Leq(a, b) && Leq(b, a) ==> a == b
  {
    if a != "" && b != "" && a[0] == b[0] {
      LeqTotal(a[1..], b[1..]);
      assert a == [a[0]] + a[1..] && b == [b[0]] + b[1..];
    }
  }

  lemma {:induction false} LeqTransitive(a: string, b: string, c: string)
    requires Leq(a, b) && Leq(b, c)
    ensures Leq(a, c)
  {
    if a != "" && a[0] == b[0] == c[0] {
      LeqTransitive(a[1..], b[1..], c[1..]);
    }
  }

  /** What the order means: a prefix comes first, otherwise the first difference decides. */
  lemma {:induction false} LeqMeans(a: string, b: string, n: nat)
    requires n <= |a| && n <= |b| && a[..n] == b[..n]
    ensures n == |a| ==> Leq(a, b)
    ensures n == |b| < |a| ==> !Leq(a, b)
    ensures n < |a| && n < |b| && a[n] != b[n] ==> (Leq(a, b) <==> a[n] < b[n])
    decreases n
  {
    if n > 0 {
      assert a[..n][0] == b[..n][0] && a[..n][1..] == a[1..][..n - 1] && b[..n][1..] == b[1..][..n - 1];
      LeqMeans(a[1..], b[1..], n - 1);
    }
  }

  predicate IsLeast(k: string, keys: set<string>) {
    k in keys && forall o | o in keys :: Leq(k, o)
  }

  lemma {:induction false} LeastExists(keys: set<string>) returns (k: string)
    requires keys != {}
    ensures IsLeast(k, keys)
    decreases |keys|
  {
    var first :| first in keys;
    var rest := keys - {first};
    LeqTotal(first, first);
    if rest == {} {
      assert keys == {first};
      return first;
    }
    var m := LeastExists(rest);
    LeqTotal(first, m);
    assert keys == rest + {first};
    k := if Leq(first, m) then first else m;
    forall o | o in rest
      ensures Leq(k, o)
    {
      LeqTransitive(k, m, o);
    }
  }

  lemma LeastIsUnique(keys: set<string>)
    requires keys != {}
    ensures exists k :: IsLeast(k, keys)
    ensures forall a, b | IsLeast(a, keys) && IsLeast(b, keys) :: a == b
  {
    var k := LeastExists(keys);
    forall a, b | IsLeast(a, keys) && IsLeast(b, keys)
      ensures a == b
    {
      LeqTotal(a, b);
    }
  }

  /** `sorted(keys)`. */
  function Sorted(keys: set<string>): (r: seq<string>)
    ensures forall k :: k in r <==> k in keys
    ensures forall i, j | 0 <= i < j < |r| :: Leq(r[i], r[j]) && r[i] != r[j]
    decreases |keys|
  {
    if keys == {} then []
    else
      LeastIsUnique(keys);
      var k :| k in keys && IsLeast(k, keys);
      [k] + Sorted(keys - {k})
  }

  function SharedKeys(x: Json, y: Json): seq<string>
    requires x.Obj? && y.Obj?
  {
    Sorted(x.fields.Keys + y.fields.Keys)
  }

  // ---------------------------------------------------------------- the differs

  function Decimal(n: nat): string {
    if n < 10 then ["0123456789"[n]] else Decimal(n / 10) + ["0123456789"[n % 10]]
  }

  /** `path or "/"`. */
  function Shown(path: string): string {
    if path == "" then "/" else path
  }

  /** `json_diff`. */
  function Fine(x: Json, y: Json, path: string): seq<string>
    decreases x, 1, 0
  {
    if x.Obj? && y.Obj? then FineFields(x, y, SharedKeys(x, y), path)
    else if x.Arr? && y.Arr? then
      if |x.items| != |y.items| then [Shown(path)] else FineItems(x, y, |x.items|, path)
    else if x == y then [] else [Shown(path)]
  }

  function FineFields(x: Json, y: Json, keys: seq<string>, path: string): seq<string>
    requires x.Obj? && y.Obj?
    decreases x, 0, |keys|
  {
    if keys == [] then []
    else
      var last := |keys| - 1;
      FineFields(x, y, keys[..last], path) + FineField(x, y, keys[last], path)
  }

  function FineField(x: Json, y: Json, k: string, path: string): seq<string>
    requires x.Obj? && y.Obj?
    decreases x, 0, 0
  {
    var child := path + "/" + k;
    if k in x.fields && k in y.fields then Fine(x.fields[k], y.fields[k], child) else [child]
  }

  /** Differences among the first `n` items. */
  function FineItems(x: Json, y: Json, n: nat, path: string): seq<string>
    requires x.Arr? && y.Arr? && n <= |x.items| == |y.items|
    decreases x, 0, n
  {
    if n == 0 then []
    else FineItems(x, y, n - 1, path) + Fine(x.items[n - 1], y.items[n - 1], path + "/" + Decimal(n - 1))
  }

  /** `diff`. */
  function Coarse(x: Json, y: Json, path: string): seq<string>
    decreases x, 1, 0
  {
    if x.Obj? && y.Obj? then CoarseFields(x, y, SharedKeys(x, y), path)
    else if x == y then [] else [path]
  }

  function CoarseFields(x: Json, y: Json, keys: seq<string>, path: string): seq<string>
    requires x.Obj? && y.Obj?
    decreases x, 0, |keys|
  {
    if keys == [] then []
    else
      var last := |keys| - 1;
      CoarseFields(x, y, keys[..last], path) + CoarseField(x, y, keys[last], path)
  }

  function CoarseField(x: Json, y: Json, k: string, path: string): seq<string>
    requires x.Obj? && y.Obj?
    decreases x, 0, 0
  {
    var child := path + "/" + k;
    if k in x.fields && k in y.fields then Coarse(x.fields[k], y.fields[k], child) else [child]
  }

  /** The number a digit string stands for. */
  ghost function Value(s: string): int {
    if s == "" then 0 else 10 * Value(s[..|s| - 1]) + (s[|s| - 1] as int - '0' as int)
  }

  /** Indices are shown in decimal digits, without leading zeros. */
  lemma {:induction false} DecimalMeans(n: nat)
    ensures Value(Decimal(n)) == n
    ensures forall i | 0 <= i < |Decimal(n)| :: '0' <= Decimal(n)[i] <= '9'
    ensures Decimal(n) != "" && (n > 0 ==> Decimal(n)[0] != '0')
  {
    DigitMeans(n % 10);
    if n < 10 {
      assert Decimal(n)[..0] == "";
    } else {
      DecimalMeans(n / 10);
      var d := Decimal(n);
      assert d[..|d| - 1] == Decimal(n / 10);
    }
  }

  lemma DigitMeans(d: nat)
    requires d < 10
    ensures '0' <= "0123456789"[d] <= '9' && "0123456789"[d] as int - '0' as int == d
  {
  }

  /** Roots that differ are reported as "/", anything below by its path. */
  lemma RootDiffers(x: Scalar, y: Scalar, path: string)
    requires x != y
    ensures Fine(Atom(x), Atom(y), "") == ["/"] && (path != "" ==> Fine(Atom(x), Atom(y), path) == [path])
    ensures Coarse(Atom(x), Atom(y), path) == [path]
  {
  }

  // ---------------------------------------------------------------- exactness

  lemma NothingConcatenated(a: seq<string>, b: seq<string>)
    ensures a + b == [] <==> a == [] && b == []
  {
  }

  lemma PrefixGrows(a: seq<Json>, b: seq<Json>, n: nat)
    requires n < |a| == |b|
    ensures a[..n + 1] == b[..n + 1] <==> a[..n] == b[..n] && a[n] == b[n]
  {
    assert a[..n + 1] == a[..n] + [a[n]] && b[..n + 1] == b[..n] + [b[n]];
    if a[..n + 1] == b[..n + 1] {
      assert a[..n + 1][..n] == a[..n] && b[..n + 1][..n] == b[..n];
      assert a[..n + 1][n] == a[n] && b[..n + 1][n] == b[n];
    }
  }

  lemma {:induction false} FineExact(x: Json, y: Json, path: string)
    ensures Fine(x, y, path) == [] <==> x == y
    decreases x, 1, 0
  {
    hide SharedKeys, FineFields, FineItems, FieldAgrees;
    if x.Obj? && y.Obj? {
      FineFieldsExact(x, y, SharedKeys(x, y), path);
      SameFields(x, y);
    } else if x.Arr? && y.Arr? && |x.items| == |y.items| {
      FineItemsExact(x, y, |x.items|, path);
      assert x.items[..|x.items|] == x.items && y.items[..|x.items|] == y.items;
    }
  }

  ghost predicate FieldAgrees(x: Json, y: Json, k: string)
    requires x.Obj? && y.Obj?
  {
    k in x.fields && k in y.fields && x.fields[k] == y.fields[k]
  }

  lemma SameFields(x: Json, y: Json)
    requires x.Obj? && y.Obj?
    ensures x == y <==> forall k | k in SharedKeys(x, y) :: FieldAgrees(x, y, k)
  {
    if forall k | k in SharedKeys(x, y) :: FieldAgrees(x, y, k) {
      assert forall k | k in x.fields.Keys + y.fields.Keys :: k in SharedKeys(x, y);
      assert x.fields == y.fields;
    }
  }

  lemma {:induction false} FineFieldsExact(x: Json, y: Json, keys: seq<string>, path: string)
    requires x.Obj? && y.Obj?
    ensures FineFields(x, y, keys, path) == [] <==> forall k | k in keys :: FieldAgrees(x, y, k)
    decreases x, 0, |keys|
  {
    if keys != [] {
      var last := |keys| - 1;
      var k := keys[last];
      FineFieldsExact(x, y, keys[..last], path);
      if k in x.fields && k in y.fields {
        FineExact(x.fields[k], y.fields[k], path + "/" + k);
      }
      assert FineField(x, y, k, path) == [] <==> FieldAgrees(x, y, k);
      NothingConcatenated(FineFields(x, y, keys[..last], path), FineField(x, y, k, path));
      forall o
        ensures o in keys <==> o in keys[..last] || o == k
      {
        assert keys == keys[..last] + [k];
      }
    }
  }

  lemma {:induction false} FineItemsExact(x: Json, y: Json, n: nat, path: string)
    requires x.Arr? && y.Arr? && n <= |x.items| == |y.items|
    ensures FineItems(x, y, n, path) == [] <==> x.items[..n] == y.items[..n]
    decreases x, 0, n
  {
    hide Fine, Decimal;
    if n > 0 {
      var child := path + "/" + Decimal(n - 1);
      FineItemsExact(x, y, n - 1, path);
      FineExact(x.items[n - 1], y.items[n - 1], child);
      NothingConcatenated(FineItems(x, y, n - 1, path), Fine(x.items[n - 1], y.items[n - 1], child));
      PrefixGrows(x.items, y.items, n - 1);
    }
  }

  lemma {:induction false} CoarseExact(x: Json, y: Json, path: string)
    ensures Coarse(x, y, path) == [] <==> x == y
    decreases x, 1, 0
  {
    if x.Obj? && y.Obj? {
      CoarseFieldsExact(x, y, SharedKeys(x, y), path);
      SameFields(x, y);
    }
  }

  lemma {:induction false} CoarseFieldsExact(x: Json, y: Json, keys: seq<string>, path: string)
    requires x.Obj? && y.Obj?
    ensures CoarseFields(x, y, keys, path) == [] <==> forall k | k in keys :: FieldAgrees(x, y, k)
    decreases x, 0, |keys|
  {
    if keys != [] {
      var last := |keys| - 1;
      var k := keys[last];
      CoarseFieldsExact(x, y, keys[..last], path);
      if k in x.fields && k in y.fields {
        CoarseExact(x.fields[k], y.fields[k], path + "/" + k);
      }
      assert CoarseField(x, y, k, path) == [] <==> FieldAgrees(x, y, k);
      NothingConcatenated(CoarseFields(x, y, keys[..last], path), CoarseField(x, y, k, path));
      forall o
        ensures o in keys <==> o in keys[..last] || o == k
      {
        assert keys == keys[..last] + [k];
      }
    }
  }

  // ---------------------------------------------------------------- symmetry

  /** Swapping the two trees reports the same paths in the same order. */
  lemma {:induction false} FineSymmetric(x: Json, y: Json, path: string)
    ensures Fine(x, y, path) == Fine(y, x, path)
    decreases x, 1, 0
  {
    if x.Obj? && y.Obj? {
      assert x.fields.Keys + y.fields.Keys == y.fields.Keys + x.fields.Keys;
      FineFieldsSymmetric(x, y, SharedKeys(x, y), path);
    } else if x.Arr? && y.Arr? && |x.items| == |y.items| {
      FineItemsSymmetric(x, y, |x.items|, path);
    }
  }

  lemma {:induction false} FineFieldsSymmetric(x: Json, y: Json, keys: seq<string>, path: string)
    requires x.Obj? && y.Obj?
    ensures FineFields(x, y, keys, path) == FineFields(y, x, keys, path)
    decreases x, 0, |keys|
  {
    if keys != [] {
      var k := keys[|keys| - 1];
      FineFieldsSymmetric(x, y, keys[..|keys| - 1], path);
      if k in x.fields && k in y.fields {
        FineSymmetric(x.fields[k], y.fields[k], path + "/" + k);
      }
    }
  }

  lemma {:induction false} FineItemsSymmetric(x: Json, y: Json, n: nat, path: string)
    requires x.Arr? && y.Arr? && n <= |x.items| == |y.items|
    ensures FineItems(x, y, n, path) == FineItems(y, x, n, path)
    decreases x, 0, n
  {
    if n > 0 {
      FineItemsSymmetric(x, y, n - 1, path);
      FineSymmetric(x.items[n - 1], y.items[n - 1], path + "/" + Decimal(n - 1));
    }
  }

  // ---------------------------------------------------------------- the fine differ refines the coarse one

  /** Path `q` is `p`, or continues `p` with at least a separator. */
  ghost predicate Below(p: string, q: string) {
    q == p || p + "/" <= q
  }

  ghost predicate AllExtend(paths: seq<string>, path: string) {
    forall i | 0 <= i < |paths| :: Below(path, paths[i])
  }

  /** `fine` is `coarse` with each path replaced by one or more paths below it, in order. */
  ghost predicate Refines(fine: seq<string>, coarse: seq<string>)
    decreases |coarse|
  {
    if coarse == [] then fine == []
    else exists n :: 0 < n <= |fine| && AllExtend(fine[..n], coarse[0]) && Refines(fine[n..], coarse[1..])
  }

  lemma {:induction false} RefinesAppend(f: seq<string>, c: seq<string>, f': seq<string>, c': seq<string>)
    requires Refines(f, c) && Refines(f', c')
    ensures Refines(f + f', c + c')
    decreases |c|
  {
    hide AllExtend;
    if c == [] {
      assert f + f' == f' && c + c' == c';
    } else {
      var n :| 0 < n <= |f| && AllExtend(f[..n], c[0]) && Refines(f[n..], c[1..]);
      RefinesAppend(f[n..], c[1..], f', c');
      assert (f + f')[..n] == f[..n] && (f + f')[n..] == f[n..] + f';
      assert (c + c')[1..] == c[1..] + c';
      assert AllExtend((f + f')[..n], (c + c')[0]);
    }
  }

  lemma RefinesOne(f: seq<string>, path: string)
    requires f != [] && AllExtend(f, path)
    ensures Refines(f, [path])
  {
    assert f[..|f|] == f && f[|f|..] == [];
    assert AllExtend(f[..|f|], path) && Refines(f[|f|..], [path][1..]);
  }

  lemma ExtendShorter(paths: seq<string>, path: string, name: string)
    requires AllExtend(paths, path + "/" + name)
    ensures AllExtend(paths, path)
  {
    forall i | 0 <= i < |paths|
      ensures Below(path, paths[i])
    {
      var child, up := path + "/" + name, path + "/";
      assert Below(child, paths[i]);
      assert paths[i] != child ==> paths[i][..|child| + 1][..|up|] == up;
      assert child[..|up|] == up;
    }
  }

  lemma {:induction false} FineExtends(x: Json, y: Json, path: string)
    ensures AllExtend(Fine(x, y, path), path)
    decreases x, 1, 0
  {
    if x.Obj? && y.Obj? {
      FineFieldsExtend(x, y, SharedKeys(x, y), path);
    } else if x.Arr? && y.Arr? && |x.items| == |y.items| {
      FineItemsExtend(x, y, |x.items|, path);
    }
  }

  lemma {:induction false} FineFieldsExtend(x: Json, y: Json, keys: seq<string>, path: string)
    requires x.Obj? && y.Obj?
    ensures AllExtend(FineFields(x, y, keys, path), path)
    decreases x, 0, |keys|
  {
    if keys != [] {
      var k := keys[|keys| - 1];
      FineFieldsExtend(x, y, keys[..|keys| - 1], path);
      if k in x.fields && k in y.fields {
        FineExtends(x.fields[k], y.fields[k], path + "/" + k);
      }
      ExtendShorter(FineField(x, y, k, path), path, k);
    }
  }

  lemma {:induction false} FineItemsExtend(x: Json, y: Json, n: nat, path: string)
    requires x.Arr? && y.Arr? && n <= |x.items| == |y.items|
    ensures AllExtend(FineItems(x, y, n, path), path)
    decreases x, 0, n
  {
    if n > 0 {
      var child := path + "/" + Decimal(n - 1);
      FineItemsExtend(x, y, n - 1, path);
      FineExtends(x.items[n - 1], y.items[n - 1], child);
      ExtendShorter(Fine(x.items[n - 1], y.items[n - 1], child), path, Decimal(n - 1));
    }
  }

  /** Every difference the coarse differ reports is reported by the fine one at that path or below it,
      and the fine one reports nothing else. */
  lemma {:induction false} FineRefinesCoarse(x: Json, y: Json, path: string)
    ensures Refines(Fine(x, y, path), Coarse(x, y, path))
    decreases x, 1, 0
  {
    if x.Obj? && y.Obj? {
      FieldsRefine(x, y, SharedKeys(x, y), path);
    } else {
      FineExact(x, y, path);
      FineExtends(x, y, path);
      if x != y {
        RefinesOne(Fine(x, y, path), path);
      }
    }
  }

  lemma {:induction false} FieldsRefine(x: Json, y: Json, keys: seq<string>, path: string)
    requires x.Obj? && y.Obj?
    ensures Refines(FineFields(x, y, keys, path), CoarseFields(x, y, keys, path))
    decreases x, 0, |keys|
  {
    if keys != [] {
      var last := |keys| - 1;
      var k := keys[last];
      FieldsRefine(x, y, keys[..last], path);
      if k in x.fields && k in y.fields {
        FineRefinesCoarse(x.fields[k], y.fields[k], path + "/" + k);
      } else {
        RefinesOne([path + "/" + k], path + "/" + k);
      }
      RefinesAppend(FineFields(x, y, keys[..last], path), CoarseFields(x, y, keys[..last], path),
                    FineField(x, y, k, path), CoarseField(x, y, k, path));
    }
  }

  /** Both differs are silent exactly on equal trees. */
  lemma DiffersAgree(x: Json, y: Json, path: string)
    ensures Fine(x, y, path) == [] <==> Coarse(x, y, path) == []
    ensures Fine(x, y, path) == [] <==> x == y
  {
    FineExact(x, y, path);
    CoarseExact(x, y, path);
  }

  // ---------------------------------------------------------------- what a reported path addresses

  datatype Step = Key(name: string) | Index(index: nat)

  /** The tree one step down, if there is one. */
  function Child(o: Option<Json>, a: Step): Option<Json> {
    match a
    case Key(k) => if o.Some? && o.value.Obj? && k in o.value.fields then Some(o.value.fields[k]) else None
    case Index(i) => if o.Some? && o.value.Arr? && i < |o.value.items| then Some(o.value.items[i]) else None
  }

  function At(o: Option<Json>, steps: seq<Step>): Option<Json>
    decreases |steps|
  {
    if steps == [] then o else At(Child(o, steps[0]), steps[1..])
  }

  function Name(a: Step): string {
    match a
    case Key(k) => k
    case Index(i) => Decimal(i)
  }

  function Render(steps: seq<Step>): string {
    if steps == [] then "" else "/" + Name(steps[0]) + Render(steps[1..])
  }

  /** Two places that differ, if at all, only further down: objects, arrays of one length, equal atoms. */
  predicate Matches(o: Option<Json>, p: Option<Json>) {
    o.Some? && p.Some?
    && match (o.value, p.value) {
      case (Obj(_), Obj(_)) => true
      case (Arr(a), Arr(b)) => |a| == |b|
      case (Atom(a), Atom(b)) => a == b
      case _ => false
    }
  }

  /** The trees part at `steps`: they match at every place above, and at `steps` they do not. */
  ghost predicate Part(o: Option<Json>, p: Option<Json>, steps: seq<Step>) {
    && (At(o, steps).Some? || At(p, steps).Some?)
    && !Matches(At(o, steps), At(p, steps))
    && forall n | 0 <= n < |steps| :: Matches(At(o, steps[..n]), At(p, steps[..n]))
  }

  lemma PartDown(o: Option<Json>, p: Option<Json>, steps: seq<Step>)
    requires steps != []
    ensures Part(o, p, steps) <==> Matches(o, p) && Part(Child(o, steps[0]), Child(p, steps[0]), steps[1..])
  {
    var (c, d, rest) := (Child(o, steps[0]), Child(p, steps[0]), steps[1..]);
    assert At(o, steps[..0]) == o && At(p, steps[..0]) == p;
    forall n | 0 <= n < |rest|
      ensures At(c, rest[..n]) == At(o, steps[..n + 1]) && At(d, rest[..n]) == At(p, steps[..n + 1])
    {
      assert steps[..n + 1][1..] == rest[..n];
    }
    if Matches(o, p) && Part(c, d, rest) {
      forall n | 0 <= n < |steps|
        ensures Matches(At(o, steps[..n]), At(p, steps[..n]))
      {
        if n > 0 { assert Matches(At(c, rest[..n - 1]), At(d, rest[..n - 1])); }
      }
    }
  }

  lemma {:induction false} AtNothing(steps: seq<Step>)
    ensures At(None, steps) == None
  {
    if steps != [] {
      AtNothing(steps[1..]);
    }
  }

  lemma {:induction false} FieldsMember(x: Json, y: Json, keys: seq<string>, path: string, q: string)
    requires x.Obj? && y.Obj?
    ensures q in FineFields(x, y, keys, path) <==> exists k :: k in keys && q in FineField(x, y, k, path)
    decreases |keys|
  {
    if keys != [] {
      hide FineFields, FineField;
      var (before, k) := (keys[..|keys| - 1], keys[|keys| - 1]);
      FieldsMember(x, y, before, path, q);
      FieldsLast(x, y, keys, path, q);
      forall o
        ensures o in keys <==> o in before || o == k
      {
        assert keys == before + [k];
      }
    }
  }

  lemma FieldsLast(x: Json, y: Json, keys: seq<string>, path: string, q: string)
    requires x.Obj? && y.Obj? && keys != []
    ensures q in FineFields(x, y, keys, path)
            <==> q in FineFields(x, y, keys[..|keys| - 1], path) || q in FineField(x, y, keys[|keys| - 1], path)
  {
  }

  ghost predicate InItem(x: Json, y: Json, path: string, q: string, i: int)
    requires x.Arr? && y.Arr? && |x.items| == |y.items|
  {
    0 <= i < |x.items| && q in Fine(x.items[i], y.items[i], path + "/" + Decimal(i))
  }

  lemma {:induction false} ItemsMember(x: Json, y: Json, n: nat, path: string, q: string)
    requires x.Arr? && y.Arr? && n <= |x.items| == |y.items|
    ensures q in FineItems(x, y, n, path) <==> exists i :: i < n && InItem(x, y, path, q, i)
  {
    if n == 0 {
      assert forall i | i < 0 :: !InItem(x, y, path, q, i);
    } else {
      hide FineItems, InItem;
      ItemsMember(x, y, n - 1, path, q);
      ItemsLast(x, y, n, path, q);
      if i :| i < n && InItem(x, y, path, q, i) {
        assert i < n - 1 || i == n - 1;
      }
    }
  }

  lemma ItemsLast(x: Json, y: Json, n: nat, path: string, q: string)
    requires x.Arr? && y.Arr? && 0 < n <= |x.items| == |y.items|
    ensures q in FineItems(x, y, n, path) <==> q in FineItems(x, y, n - 1, path) || InItem(x, y, path, q, n - 1)
  {
    hide Fine, Decimal;
  }

  /** What the report says about one step down. */
  lemma ReportDown(x: Json, y: Json, path: string, q: string, a: Step)
    requires Matches(Some(x), Some(y))
    ensures var (c, d, child) := (Child(Some(x), a), Child(Some(y), a), path + "/" + Name(a));
            && (c.Some? && d.Some? && q in Fine(c.value, d.value, child) ==> q in Fine(x, y, path))
            && (c.Some? != d.Some? && q == child ==> q in Fine(x, y, path))
  {
    if a.Key? && x.Obj? {
      hide FineFields, Decimal;
      assert a.name in x.fields || a.name in y.fields ==> a.name in SharedKeys(x, y);
      FieldsMember(x, y, SharedKeys(x, y), path, q);
    } else if a.Index? && x.Arr? {
      hide FineItems, Decimal;
      ItemsMember(x, y, |x.items|, path, q);
      assert a.index < |x.items| ==> InItem(x, y, path, q, a.index) == (q in Fine(x.items[a.index], y.items[a.index], path + "/" + Decimal(a.index)));
    }
  }

  /** A reported path is the tree's own, or it is reported one step down. */
  lemma ReportUp(x: Json, y: Json, path: string, q: string) returns (a: Step)
    requires Matches(Some(x), Some(y)) && q in Fine(x, y, path)
    ensures var (c, d, child) := (Child(Some(x), a), Child(Some(y), a), path + "/" + Name(a));
            if c.Some? && d.Some? then c.value < x && q in Fine(c.value, d.value, child)
            else c.Some? != d.Some? && q == child
  {
    if x.Obj? {
      hide FineFields, Decimal;
      FieldsMember(x, y, SharedKeys(x, y), path, q);
      var k :| k in SharedKeys(x, y) && q in FineField(x, y, k, path);
      a := Key(k);
    } else {
      hide FineItems, Decimal;
      ItemsMember(x, y, |x.items|, path, q);
      var i :| i < |x.items| && InItem(x, y, path, q, i);
      a := Index(i);
    }
  }

  lemma RenderDown(path: string, a: Step, rest: seq<Step>)
    ensures path + Render([a] + rest) == path + "/" + Name(a) + Render(rest)
  {
    assert ([a] + rest)[1..] == rest;
    hide Name;
    Regroup(path, "/", Name(a), Render(rest));
  }

  lemma Regroup(p: string, a: string, b: string, c: string)
    ensures p + (a + b + c) == p + a + b + c
  {
  }

  /** Every path `json_diff` reports leads to a place where the trees part. */
  lemma {:induction false} ReportedParts(x: Json, y: Json, path: string, q: string) returns (steps: seq<Step>)
    requires q in Fine(x, y, path)
    ensures Part(Some(x), Some(y), steps) && q == Shown(path + Render(steps))
    decreases x
  {
    if Matches(Some(x), Some(y)) {
      var a := ReportUp(x, y, path, q);
      var (c, d) := (Child(Some(x), a), Child(Some(y), a));
      hide Fine;
      var rest := [];
      if c.Some? && d.Some? {
        rest := ReportedParts(c.value, d.value, path + "/" + Name(a), q);
      }
      steps := [a] + rest;
      assert steps[1..] == rest;
      PartDown(Some(x), Some(y), steps);
      RenderDown(path, a, rest);
    } else {
      steps := [];
      assert path + Render(steps) == path;
    }
  }

  /** Every place where the trees part is reported. */
  lemma {:induction false} PartsReported(x: Json, y: Json, path: string, steps: seq<Step>)
    requires Part(Some(x), Some(y), steps)
    ensures Shown(path + Render(steps)) in Fine(x, y, path)
    decreases |steps|
  {
    if steps == [] {
      assert path + Render(steps) == path;
    } else {
      hide Fine, Matches, Child;
      var (a, rest) := (steps[0], steps[1..]);
      var (c, d, child) := (Child(Some(x), a), Child(Some(y), a), path + "/" + Name(a));
      PartDown(Some(x), Some(y), steps);
      RenderDown(path, a, rest);
      assert steps == [a] + rest;
      if c.Some? && d.Some? {
        PartsReported(c.value, d.value, child, rest);
      } else {
        AtNothing(rest);
        OneSided(c, d, rest);
        assert child + Render(rest) == child;
      }
      ReportDown(x, y, path, Shown(child + Render(rest)), a);
    }
  }

  /** Where only one tree goes on, the trees part at once. */
  lemma OneSided(c: Option<Json>, d: Option<Json>, rest: seq<Step>)
    requires (c.None? || d.None?) && Part(c, d, rest)
    ensures rest == [] && c.Some? != d.Some?
  {
    AtNothing(rest);
    if rest != [] {
      PartDown(c, d, rest);
    }
  }

  /** `json_diff` reports exactly the places where the trees part. */
  lemma ReportsExactly(x: Json, y: Json, path: string, q: string)
    ensures q in Fine(x, y, path) <==> exists steps :: Part(Some(x), Some(y), steps) && q == Shown(path + Render(steps))
  {
    if q in Fine(x, y, path) {
      var steps := ReportedParts(x, y, path, q);
    }
    if steps :| Part(Some(x), Some(y), steps) && q == Shown(path + Render(steps)) {
      PartsReported(x, y, path, steps);
    }
  }

  // ---------------------------------------------------------------- the programs

  lemma Extended(keys: seq<string>, n: nat)
    requires n < |keys|
    ensures keys[..n + 1][..n] == keys[..n] && keys[..n + 1] != [] && keys[..n + 1][|keys[..n + 1]| - 1] == keys[n]
  {
  }

  /** `json_diff`: one list per call, grown in key or index order. */
  method JsonDiff(expected: Json, observed: Json, path: string) returns (differences: seq<string>)
    ensures differences == Fine(expected, observed, path)
    decreases expected
  {
    if expected.Obj? && observed.Obj? {
      differences := [];
      var keys := SharedKeys(expected, observed);
      for n := 0 to |keys|
        invariant differences == FineFields(expected, observed, keys[..n], path)
      {
        Extended(keys, n);
        var child := path + "/" + keys[n];
        if keys[n] !in expected.fields || keys[n] !in observed.fields {
          differences := differences + [child];
        } else {
          var below := JsonDiff(expected.fields[keys[n]], observed.fields[keys[n]], child);
          differences := differences + below;
        }
      }
      assert keys[..|keys|] == keys;
      return;
    }
    if expected.Arr? && observed.Arr? {
      if |expected.items| != |observed.items| {
        return [Shown(path)];
      }
      differences := [];
      for n := 0 to |expected.items|
        invariant differences == FineItems(expected, observed, n, path)
      {
        var below := JsonDiff(expected.items[n], observed.items[n], path + "/" + Decimal(n));
        differences := differences + below;
      }
      return;
    }
    differences := if expected == observed then [] else [Shown(path)];
  }

  /** `diff`. */
  method Diff(x: Json, y: Json, p: string) returns (out: seq<string>)
    ensures out == Coarse(x, y, p)
    decreases x
  {
    if x.Obj? && y.Obj? {
      out := [];
      var keys := SharedKeys(x, y);
      for n := 0 to |keys|
        invariant out == CoarseFields(x, y, keys[..n], p)
      {
        Extended(keys, n);
        if keys[n] !in x.fields || keys[n] !in y.fields {
          out := out + [p + "/" + keys[n]];
        } else {
          var below := Diff(x.fields[keys[n]], y.fields[keys[n]], p + "/" + keys[n]);
          out := out + below;
        }
      }
      assert keys[..|keys|] == keys;
      return;
    }
    out := if x == y then [] else [p];
  }
}
