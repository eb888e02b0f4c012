/** Which memory cgroup a process is in, and how much memory its hierarchy leaves it. */
module Cgroup {
  import opened Tensors
  import opened Mountinfo
  import opened ProcLines

  // ---------------------------------------------------------------- paths

  predicate IsSlash(c: char) {
    c == '/'
  }

  /** Components of a path between slashes. */
  function Components(value: string): seq<string> {
    SplitAt(value, IsSlash)
  }

  function Keep(parts: seq<string>): (r: seq<string>)
    ensures forall p :: p in r <==> p in parts && p != "" && p != "."
  {
    if parts == [] then []
    else (if parts[0] == "" || parts[0] == "." then [] else [parts[0]]) + Keep(parts[1..])
  }

  /** `_path_parts`: pure-POSIX parts without the root; exactly two leading slashes are a root of their
      own that stays, and a parent component makes the path unusable. */
  function PathParts(value: string): (r: Option<seq<string>>)
    ensures r.None? <==> ".." in SplitAt(value, IsSlash)
    ensures r.Some? ==> forall p | p in r.value :: p != "" && p != "." && p != ".."
  {
    var doubled := |value| >= 2 && value[..2] == "//" && (|value| == 2 || value[2] != '/');
    var parts := (if doubled then ["//"] else []) + Keep(Components(value));
    if ".." in parts then None else Some(parts)
  }

  lemma {:induction false} KeepClean(parts: seq<string>)
    requires "" !in parts && "." !in parts
    ensures Keep(parts) == parts
  {
    if parts != [] {
      KeepClean(parts[1..]);
    }
  }

  /** The parts of an absolute path are the names it is made of. */
  lemma PartsOfPath(parts: seq<string>)
    requires forall p | p in parts :: p != "" && p != "." && p != ".." && '/' !in p
    ensures PathParts("/" + Join(parts, "/")) == Some(parts)
  {
    if parts == [] {
      RootHasNoParts();
      assert "/" + "" == "/";
    } else {
      forall i | 0 <= i < |parts|
        ensures Uncut(parts[i], IsSlash) && parts[i] != ""
      {
        assert parts[i] in parts;
      }
      var rest := Join(parts, "/");
      SplitJoin(parts, '/', IsSlash);
      SplitWord("", '/', rest, IsSlash);
      assert "" + ['/'] + rest == "/" + rest;
      StartsWithName(parts);
      KeepClean(parts);
      assert Keep([""] + parts) == Keep(parts) by { assert ([""] + parts)[1..] == parts; }
    }
  }

  lemma StartsWithName(parts: seq<string>)
    requires parts != [] && parts[0] != "" && '/' !in parts[0]
    ensures Join(parts, "/") != "" && Join(parts, "/")[0] != '/'
  {
    assert parts[0][0] in parts[0];
  }

  lemma KeepFirst(p: string, rest: seq<string>)
    ensures Keep([p] + rest) == (if p == "" || p == "." then [] else [p]) + Keep(rest)
  {
    assert ([p] + rest)[1..] == rest;
  }

  /** Two leading slashes are a part of their own. */
  lemma TwoSlashes()
    ensures PathParts("//a") == Some(["//", "a"])
  {
    SplitWord("a", '/', "", IsSlash);
    SplitWord("", '/', "a", IsSlash);
    SplitWord("", '/', "/a", IsSlash);
    assert "" + ['/'] + "a" == "/a" && "" + ['/'] + "/a" == "//a";
    hide SplitAt, Keep;
    assert SplitAt("//a", IsSlash) == [""] + ([""] + ["a"]);
    KeepFirst("", [""] + ["a"]);
    KeepFirst("", ["a"]);
    KeepClean(["a"]);
    assert Keep(Components("//a")) == ["a"];
    assert "//a"[..2] == "//" && "//a"[2] == 'a';
    assert ".."[0] == '.' && "//"[0] == '/' && |"a"| == 1 && |".."| == 2;
    assert ["//"] + ["a"] == ["//", "a"] && "//" != ".." && "a" != "..";
  }

  lemma OnlySlashes()
    ensures PathParts("//") == Some(["//"])
  {
    SplitWord("", '/', "", IsSlash);
    SplitWord("", '/', "/", IsSlash);
    assert "" + ['/'] + "" == "/" && "" + ['/'] + "/" == "//" && SplitAt("", IsSlash) == [""];
    hide SplitAt, Keep;
    KeepFirst("", [""] + [""]);
    KeepFirst("", [""]);
    KeepFirst("", []);
    assert [""] + [] == [""];
    assert Keep(Components("//")) == Keep([]);
    assert Keep([]) == [] by { KeepClean([]); }
    assert "//"[..2] == "//" && "//"[0] == '/' && ".."[0] == '.';
    assert ["//"] + [] == ["//"] && "//" != "..";
  }

  lemma SplitDots()
    ensures SplitAt("///a/./b", IsSlash) == [""] + ([""] + ([""] + (["a"] + (["."] + ["b"]))))
  {
    hide SplitAt;
    SplitWord("b", '/', "", IsSlash);
    SplitWord(".", '/', "b", IsSlash);
    SplitWord("a", '/', "./b", IsSlash);
    assert "." + ['/'] + "b" == "./b" && "a" + ['/'] + "./b" == "a/./b";
    SplitWord("", '/', "a/./b", IsSlash);
    assert "" + ['/'] + "a/./b" == "/a/./b";
    SplitWord("", '/', "/a/./b", IsSlash);
    assert "" + ['/'] + "/a/./b" == "//a/./b";
    SplitWord("", '/', "//a/./b", IsSlash);
    assert "" + ['/'] + "//a/./b" == "///a/./b";
  }

  /** Three are not, and neither empty nor dot components count. */
  lemma DroppedComponents()
    ensures PathParts("///a/./b") == Some(["a", "b"])
  {
    SplitDots();
    hide SplitAt, Keep;
    var tail := ["a"] + (["."] + ["b"]);
    KeepFirst("", [""] + ([""] + tail));
    KeepFirst("", [""] + tail);
    KeepFirst("", tail);
    KeepFirst("a", ["."] + ["b"]);
    KeepFirst(".", ["b"]);
    KeepClean(["b"]);
    assert Keep(Components("///a/./b")) == ["a"] + ["b"];
    assert ["a"] + ["b"] == ["a", "b"];
    assert "///a/./b"[2] == '/';
    assert |"a"| == |"b"| == 1 && |".."| == 2;
    assert "a" != ".." && "b" != ".." && [] + ["a", "b"] == ["a", "b"];
  }

  // ---------------------------------------------------------------- memberships and mounts

  datatype Mount = Mount(version: nat, rootParts: Option<seq<string>>, point: string)

  datatype Context = Context(version: nat, point: string, relative: seq<string>)

  /** 2 for the unified hierarchy, 1 for one that carries the memory controller, else none. */
  function LineVersion(l: Line): Option<nat> {
    if l.hierarchy == "0" && l.controllers == {} then Some(2)
    else if "memory" in l.controllers then Some(1)
    else None
  }

  function MountVersion(m: MountLine): Option<nat> {
    if m.filesystem == "cgroup2" then Some(2)
    else if m.filesystem == "cgroup" && "memory" in m.words then Some(1)
    else None
  }

  /** The mount of a line that has one; the model keeps unusable lines in place. */
  ghost function MountOf(m: MountLine): Option<Mount> {
    if MountVersion(m).Some?
    then Some(Mount(MountVersion(m).value, PathParts(Undo(m.root, ORDER)), Undo(m.point, ORDER)))
    else None
  }

  /** The part of the member path below the mount's root, in the source's branch order. */
  function Relative(path: string, member: seq<string>, root: seq<string>): Option<seq<string>> {
    if path == "/" then Some([])
    else if root <= member then Some(member[|root|..])
    else if root == [] then Some(member)
    else None
  }

  /** Root parts plus relative parts rebuild the member path; the one exception is the path "/", where
      they do so exactly when the mount's root is the hierarchy's root. */
  lemma RelativeRebuilds(path: string, root: seq<string>)
    requires PathParts(path).Some?
    requires Relative(path, PathParts(path).value, root).Some?
    ensures root + Relative(path, PathParts(path).value, root).value == PathParts(path).value
            <==> path != "/" || root == []
  {
    if path == "/" {
      RootHasNoParts();
    }
  }

  /** So a process at "/" under a mount of another root is looked up in the mount point itself. */
  lemma RootUnderOtherMount()
    ensures PathParts("/") == Some([]) && Relative("/", [], ["a"]) == Some([])
    ensures ["a"] + Relative("/", [], ["a"]).value != PathParts("/").value
  {
    RootHasNoParts();
  }

  lemma RootHasNoParts()
    ensures PathParts("/") == Some([])
  {
    assert "/"[1..] == "";
    assert Components("") == [""];
    assert Components("/") == ["", ""];
    assert ["", ""][1..] == [""] && [""][1..] == [];
    assert Keep(["", ""]) == [];
  }

  /** A membership is under a mount exactly when the mount's root is a prefix of it, or it is "/". */
  lemma RelativeExactly(path: string, member: seq<string>, root: seq<string>)
    ensures Relative(path, member, root).Some? <==> path == "/" || root <= member
  {
  }

  /** Line i and mount j of the same version match. */
  ghost predicate Matches(lines: seq<Line>, mounts: seq<MountLine>, version: nat, i: int, j: int) {
    && 0 <= i < |lines| && 0 <= j < |mounts|
    && LineVersion(lines[i]) == Some(version) && MountVersion(mounts[j]) == Some(version)
    && PathParts(lines[i].path).Some? && MountOf(mounts[j]).value.rootParts.Some?
    && Relative(lines[i].path, PathParts(lines[i].path).value, MountOf(mounts[j]).value.rootParts.value).Some?
  }

  /** What matching means: version 1 needs the memory controller on both sides, version 2 the unified
      hierarchy on both sides, and the member path must lie under the mount's root. */
  lemma MatchesMeans(lines: seq<Line>, mounts: seq<MountLine>, version: nat, i: int, j: int)
    requires 0 <= i < |lines| && 0 <= j < |mounts|
    ensures Matches(lines, mounts, version, i, j) <==>
        var (l, m) := (lines[i], mounts[j]);
        && ((version == 1 && "memory" in l.controllers && m.filesystem == "cgroup" && "memory" in m.words)
            || (version == 2 && l.hierarchy == "0" && l.controllers == {} && m.filesystem == "cgroup2"))
        && PathParts(l.path).Some? && PathParts(Undo(m.root, ORDER)).Some?
        && (l.path == "/" || PathParts(Undo(m.root, ORDER)).value <= PathParts(l.path).value)
  {
    hide PathParts, Undo;
  }

  ghost function ContextOf(lines: seq<Line>, mounts: seq<MountLine>, version: nat, i: int, j: int): Context
    requires Matches(lines, mounts, version, i, j)
  {
    Context(version, MountOf(mounts[j]).value.point,
            Relative(lines[i].path, PathParts(lines[i].path).value, MountOf(mounts[j]).value.rootParts.value).value)
  }

  /** Earlier in the search: lower version, then earlier line, then earlier mount. */
  predicate Before(v: nat, i: int, j: int, v': nat, i': int, j': int) {
    v < v' || (v == v' && (i < i' || (i == i' && j < j')))
  }

  /** No match precedes position (version, i, j) of the search. */
  ghost predicate NoneBefore(lines: seq<Line>, mounts: seq<MountLine>, version: nat, i: int, j: int) {
    forall v, i', j' | Before(v, i', j', version, i, j) && (v == 1 || v == 2) :: !Matches(lines, mounts, v, i', j')
  }

  method ParseMounts(lines: seq<MountLine>) returns (mounts: seq<Option<Mount>>)
    ensures |mounts| == |lines| && forall j | 0 <= j < |lines| :: mounts[j] == MountOf(lines[j])
  {
    mounts := [];
    for j := 0 to |lines|
      invariant |mounts| == j && forall k | 0 <= k < j :: mounts[k] == MountOf(lines[k])
    {
      var version := MountVersion(lines[j]);
      if version.Some? {
        var root := MountinfoPath(lines[j].root);
        var point := MountinfoPath(lines[j].point);
        mounts := mounts + [Some(Mount(version.value, PathParts(root), point))];
      } else {
        mounts := mounts + [None];
      }
    }
  }

  /** The answer is absent exactly when nothing matches; otherwise it is the first match, and a version 1
      match always wins. */
  ghost predicate Answers(lines: seq<Line>, mounts: seq<MountLine>, r: Option<Context>) {
    && (r.None? <==> forall v, i, j | v == 1 || v == 2 :: !Matches(lines, mounts, v, i, j))
    && (r.Some? ==> exists v, i, j ::
          && (v == 1 || v == 2) && Matches(lines, mounts, v, i, j) && r.value == ContextOf(lines, mounts, v, i, j)
          && NoneBefore(lines, mounts, v, i, j))
    && ((exists i, j :: Matches(lines, mounts, 1, i, j)) ==> r.Some? && r.value.version == 1)
  }

  /** `_resolve_cgroup_context`: the first match, with explicit v1 memory memberships before v2. */
  method Resolve(lines: seq<Line>, mountLines: seq<MountLine>) returns (r: Option<Context>)
    ensures Answers(lines, mountLines, r)
  {
    hide PathParts, Relative, Undo, MountVersion, LineVersion, Answers;
    var mounts := ParseMounts(mountLines);
    for version := 1 to 3
      invariant NoneBefore(lines, mountLines, version, 0, 0)
    {
      for i := 0 to |lines|
        invariant NoneBefore(lines, mountLines, version, i, 0)
      {
        var parts := PathParts(lines[i].path);
        if LineVersion(lines[i]) == Some(version) && parts.Some? {
          for j := 0 to |mounts|
            invariant NoneBefore(lines, mountLines, version, i, j)
          {
            if mounts[j].Some? && mounts[j].value.version == version && mounts[j].value.rootParts.Some? {
              var relative := Relative(lines[i].path, parts.value, mounts[j].value.rootParts.value);
              if relative.Some? {
                r := Some(Context(version, mounts[j].value.point, relative.value));
                Found(lines, mountLines, version, i, j, r);
                return;
              }
            }
          }
        }
      }
    }
    NothingFound(lines, mountLines);
    return None;
  }

  lemma NothingFound(lines: seq<Line>, mounts: seq<MountLine>)
    requires NoneBefore(lines, mounts, 3, 0, 0)
    ensures Answers(lines, mounts, None)
  {
    hide Matches;
    assert forall v: nat, i, j | v == 1 || v == 2 :: Before(v, i, j, 3, 0, 0);
  }

  lemma Found(lines: seq<Line>, mounts: seq<MountLine>, version: nat, i: int, j: int, r: Option<Context>)
    requires (version == 1 || version == 2) && Matches(lines, mounts, version, i, j) && NoneBefore(lines, mounts, version, i, j)
    requires r == Some(ContextOf(lines, mounts, version, i, j))
    ensures Answers(lines, mounts, r)
  {
    hide PathParts, Relative, MountOf, LineVersion, MountVersion;
    if version == 2 {
      assert forall i', j' :: Before(1, i', j', version, i, j);
    }
  }

  /** The lines of the cgroup file that have all three fields. */
  function ParsedLines(text: seq<string>): seq<Line> {
    if text == [] then []
    else
      var last := ParseLine(text[|text| - 1]);
      ParsedLines(text[..|text| - 1]) + (if last.Some? then [last.value] else [])
  }

  /** The lines of the mountinfo file that have a separator and enough fields. */
  function ParsedMounts(text: seq<string>): seq<MountLine> {
    if text == [] then []
    else
      var last := ParseMount(text[|text| - 1]);
      ParsedMounts(text[..|text| - 1]) + (if last.Some? then [last.value] else [])
  }

  /** The whole resolver, from the lines of the two files. */
  method ResolveText(cgroupText: seq<string>, mountinfoText: seq<string>) returns (r: Option<Context>)
    ensures Answers(ParsedLines(cgroupText), ParsedMounts(mountinfoText), r)
  {
    var lines, mounts := [], [];
    for n := 0 to |cgroupText|
      invariant lines == ParsedLines(cgroupText[..n])
    {
      var line := ParseLine(cgroupText[n]);
      assert cgroupText[..n + 1][..n] == cgroupText[..n];
      lines := lines + if line.Some? then [line.value] else [];
    }
    for n := 0 to |mountinfoText|
      invariant mounts == ParsedMounts(mountinfoText[..n])
    {
      var line := ParseMount(mountinfoText[n]);
      assert mountinfoText[..n + 1][..n] == mountinfoText[..n];
      mounts := mounts + if line.Some? then [line.value] else [];
    }
    assert cgroupText[..|cgroupText|] == cgroupText && mountinfoText[..|mountinfoText|] == mountinfoText;
    r := Resolve(lines, mounts);
  }

  /** A mount as the kernel writes it is resolved at its own root and mount point, for all paths whose
      blanks the kernel escapes. */
  lemma RenderedMount(front: seq<string>, root: string, point: string, back: seq<string>, right: seq<string>)
    requires |front| == 3 && |back| >= 1 && |right| >= 3 && root != "-" && point != "-"
    requires forall i | 0 <= i < |front| :: Solid(front[i]) && front[i] != "-"
    requires forall i | 0 <= i < |back| :: Solid(back[i]) && back[i] != "-"
    requires forall i | 0 <= i < |right| :: Solid(right[i])
    requires Escapable(root) && Escapable(point)
    ensures var m := ParseMount(RenderMount(front + [Escape(root, ESCAPED), Escape(point, ESCAPED)] + back, right));
            m.Some? && (MountOf(m.value).Some? ==> MountOf(m.value).value.rootParts == PathParts(root)
                                                   && MountOf(m.value).value.point == point)
  {
    hide ParseMount, RenderMount, Escape, PathParts, Solid, Undo, Escapable;
    PathsSurvive(front, root, point, back, right);
    RoundTrip(root, ORDER);
    RoundTrip(point, ORDER);
  }

  // ---------------------------------------------------------------- headroom

  /** A memory file of one level: absent, not a number, the word "max", or a number. */
  datatype Reading = Missing | Garbage | Max | Number(n: int)

  datatype Level = Level(limit: Reading, current: Reading)

  const V1_UNLIMITED_MIN: int := 0x1000_0000_0000_0000

  datatype Headroom =
    | Unlimited
    | Available(bytes: nat, limit: int, current: int, levels: nat)
    | Unknown(reason: string)

  /** `_parse_cgroup_limit`: no limit for "max", and for the huge values version 1 uses instead. */
  function LimitOf(limit: Reading, version: nat): Option<int> {
    match limit
    case Number(n) => if version == 1 && n >= V1_UNLIMITED_MIN then None else Some(n)
    case _ => None
  }

  /** What one level contributes: nothing, a finite pair, or a reason to give up. */
  datatype Verdict = Skip | Finite(limit: int, current: int) | GiveUp(reason: string)

  function Judge(l: Level, version: nat): (r: Verdict)
    ensures r.Finite? <==>
        l.limit.Number? && l.current.Number? && !(version == 1 && l.limit.n >= 1152921504606846976)
    ensures r.Finite? ==> r.limit == l.limit.n && r.current == l.current.n
    ensures r == Skip <==>
        || (l.limit == Missing && l.current == Missing)
        || l.limit == Max || (l.limit.Number? && version == 1 && l.limit.n >= 1152921504606846976)
    ensures r == GiveUp("cgroup_limit_unreadable") <==> l.limit == Missing && l.current != Missing
    ensures r == GiveUp("invalid_cgroup_limit") <==> l.limit == Garbage
    ensures r.GiveUp? && l.current == Missing ==>
        r.reason == if l.limit == Garbage then "invalid_cgroup_limit" else "cgroup_usage_unreadable"
    ensures r.GiveUp? && l.limit.Number? && l.current != Missing ==> r.reason == "invalid_cgroup_usage"
  {
    if l.limit == Missing && l.current == Missing then Skip
    else if l.limit == Missing then GiveUp("cgroup_limit_unreadable")
    else if l.limit == Garbage then GiveUp("invalid_cgroup_limit")
    else if LimitOf(l.limit, version) == None then Skip
    else if l.current == Missing then GiveUp("cgroup_usage_unreadable")
    else if !l.current.Number? then GiveUp("invalid_cgroup_usage")
    else Finite(LimitOf(l.limit, version).value, l.current.n)
  }

  /** `max(0, limit - current)`. */
  function Room(v: Verdict): (r: nat)
    requires v.Finite?
    ensures r >= v.limit - v.current && (r == v.limit - v.current || r == 0)
  {
    if v.limit > v.current then v.limit - v.current else 0
  }

  function CountFinite(levels: seq<Level>, version: nat): nat {
    if levels == [] then 0
    else CountFinite(levels[..|levels| - 1], version) + (if Judge(levels[|levels| - 1], version).Finite? then 1 else 0)
  }

  /** Level `k` is the first finite one whose room is `h.bytes`, and that room is the limit less the usage. */
  ghost predicate Attains(levels: seq<Level>, version: nat, h: Headroom, k: int)
    requires h.Available?
  {
    && 0 <= k < |levels| && Judge(levels[k], version) == Finite(h.limit, h.current)
    && h.bytes == Room(Judge(levels[k], version))
    && forall m | 0 <= m < k && Judge(levels[m], version).Finite? :: h.bytes < Room(Judge(levels[m], version))
  }

  /** Level `k` is the first faulty one. */
  ghost predicate FirstFault(levels: seq<Level>, version: nat, reason: string, k: int) {
    && 0 <= k < |levels| && Judge(levels[k], version) == GiveUp(reason)
    && forall m | 0 <= m < k :: !Judge(levels[m], version).GiveUp?
  }

  /** The result says what the levels say: the first faulty level decides; otherwise the smallest room
      over all finite levels, attained at the first level that has it. */
  ghost predicate Says(levels: seq<Level>, version: nat, h: Headroom) {
    match h
    case Unknown(reason) => exists k :: FirstFault(levels, version, reason, k)
    case Unlimited => forall k | 0 <= k < |levels| :: Judge(levels[k], version) == Skip
    case Available(bytes, limit, current, count) =>
      && (forall k | 0 <= k < |levels| :: !Judge(levels[k], version).GiveUp?)
      && (forall k | 0 <= k < |levels| && Judge(levels[k], version).Finite? :: bytes <= Room(Judge(levels[k], version)))
      && count == CountFinite(levels, version)
      && (exists k :: Attains(levels, version, h, k))
  }

  /** The result after one more level. */
  function Fold(h: Headroom, v: Verdict): Headroom
    requires !h.Unknown?
  {
    match v
    case Skip => h
    case GiveUp(reason) => Unknown(reason)
    case Finite(limit, current) =>
      if h.Unlimited? then Available(Room(v), limit, current, 1)
      else if Room(v) < h.bytes then Available(Room(v), limit, current, h.levels + 1)
      else h.(levels := h.levels + 1)
  }

  lemma {:induction false} NoneFinite(levels: seq<Level>, version: nat)
    requires forall k | 0 <= k < |levels| :: !Judge(levels[k], version).Finite?
    ensures CountFinite(levels, version) == 0
    decreases |levels|
  {
    if levels != [] {
      NoneFinite(levels[..|levels| - 1], version);
    }
  }

  lemma FoldSays(levels: seq<Level>, l: Level, version: nat, h: Headroom)
    requires !h.Unknown? && Says(levels, version, h)
    ensures Says(levels + [l], version, Fold(h, Judge(l, version)))
  {
    hide Judge, Room;
    var all, n := levels + [l], |levels|;
    var v := Judge(l, version);
    assert all[..|all| - 1] == levels && all[n] == l;
    assert forall m | 0 <= m < n :: all[m] == levels[m];
    match v
    case GiveUp(reason) => assert FirstFault(all, version, reason, n);
    case Finite(_, _) =>
      if h.Unlimited? {
        NoneFinite(levels, version);
      }
      FoldFinite(levels, l, version, h);
    case Skip =>
      if h.Available? {
        var k :| Attains(levels, version, h, k);
        assert Attains(all, version, h, k);
      }
  }

  /** One more finite level: either it is the new smallest room, or the old one stays. */
  lemma FoldFinite(levels: seq<Level>, l: Level, version: nat, h: Headroom)
    requires !h.Unknown? && Says(levels, version, h) && Judge(l, version).Finite?
    ensures var r := Fold(h, Judge(l, version)); r.Available? && exists k :: Attains(levels + [l], version, r, k)
  {
    hide Judge, Room;
    var (all, n, r) := (levels + [l], |levels|, Fold(h, Judge(l, version)));
    assert all[n] == l && forall m | 0 <= m < n :: all[m] == levels[m];
    if h.Available? && r.bytes == h.bytes && r.limit == h.limit && r.current == h.current {
      var k :| Attains(levels, version, h, k);
      assert Attains(all, version, r, k);
    } else {
      assert Attains(all, version, r, n);
    }
  }

  /** A level below a faulty one cannot change the answer. */
  lemma FaultDecides(levels: seq<Level>, more: seq<Level>, version: nat, h: Headroom)
    requires h.Unknown? && Says(levels, version, h)
    ensures Says(levels + more, version, h)
  {
    hide Judge;
    var k :| FirstFault(levels, version, h.reason, k);
    var all := levels + more;
    assert forall m | 0 <= m < |levels| :: all[m] == levels[m];
    assert FirstFault(all, version, h.reason, k);
  }

  predicate UsablePart(part: string)
    ensures UsablePart(part) <==> part !in {"", ".", ".."} && forall i | 0 <= i < |part| :: part[i] != '/'
  {
    part != "" && part != "." && part != ".." && '/' !in part
  }

  /** What the result says about the readings themselves: the room of a level whose limit and usage are
      numbers is what the usage leaves of the limit, or zero; in version 1 limits from 2^60 on are none. */
  ghost predicate Reports(levels: seq<Level>, version: nat, h: Headroom) {
    && (h.Available? ==>
          && h.bytes == (if h.limit > h.current then h.limit - h.current else 0)
          && (exists k :: 0 <= k < |levels| && levels[k] == Level(Number(h.limit), Number(h.current)))
          && (forall k | 0 <= k < |levels| && levels[k].limit.Number? && levels[k].current.Number?
                         && !(version == 1 && levels[k].limit.n >= 1152921504606846976) ::
                h.bytes == 0 || h.bytes <= levels[k].limit.n - levels[k].current.n))
    && (h.Unlimited? ==>
          forall k | 0 <= k < |levels| ::
            || (levels[k].limit == Missing && levels[k].current == Missing)
            || levels[k].limit == Max
            || (levels[k].limit.Number? && version == 1 && levels[k].limit.n >= 1152921504606846976))
    && (h.Unknown? ==>
          exists k :: 0 <= k < |levels| &&
            match h.reason
            case "cgroup_limit_unreadable" => levels[k].limit == Missing && levels[k].current != Missing
            case "invalid_cgroup_limit" => levels[k].limit == Garbage
            case "cgroup_usage_unreadable" => levels[k].limit.Number? && levels[k].current == Missing
            case "invalid_cgroup_usage" => levels[k].limit.Number? && levels[k].current in {Garbage, Max}
            case _ => false)
  }

  lemma SaysReports(levels: seq<Level>, version: nat, h: Headroom)
    requires Says(levels, version, h)
    ensures Reports(levels, version, h)
  {
    match h
    case Unknown(reason) =>
      var k :| FirstFault(levels, version, reason, k);
      assert levels[k].limit != Missing || levels[k].current != Missing;
    case Unlimited =>
      forall k | 0 <= k < |levels|
        ensures Judge(levels[k], version) == Skip
      {
      }
    case Available(_, _, _, _) =>
      var k :| Attains(levels, version, h, k);
      assert levels[k] == Level(Number(h.limit), Number(h.current));
      forall m | 0 <= m < |levels| && levels[m].limit.Number? && levels[m].current.Number?
                 && !(version == 1 && levels[m].limit.n >= 1152921504606846976)
        ensures h.bytes == 0 || h.bytes <= levels[m].limit.n - levels[m].current.n
      {
        assert h.bytes <= Room(Judge(levels[m], version));
      }
  }

  /** `_cgroup_memory_from_hierarchy`: `levels` are the readings at the mount point and below each part. */
  method MemoryFromHierarchy(version: nat, parts: seq<string>, levels: seq<Level>) returns (h: Headroom)
    requires |levels| == |parts| + 1
    ensures version != 1 && version != 2 ==> h == Unknown("unsupported_cgroup_version")
    ensures (version == 1 || version == 2) && (exists k :: 0 <= k < |parts| && (parts[k] in {"", ".", ".."} || '/' in parts[k])) ==>
        h == Unknown("invalid_cgroup_membership")
    ensures (version == 1 || version == 2) && (forall k | 0 <= k < |parts| :: parts[k] !in {"", ".", ".."} && '/' !in parts[k]) ==>
        Says(levels, version, h) && Reports(levels, version, h)
  {
    if version != 1 && version != 2 {
      return Unknown("unsupported_cgroup_version");
    }
    for k := 0 to |parts|
      invariant forall m | 0 <= m < k :: UsablePart(parts[m])
    {
      if !UsablePart(parts[k]) {
        return Unknown("invalid_cgroup_membership");
      }
    }
    h := Unlimited;
    for k := 0 to |levels|
      invariant !h.Unknown? && Says(levels[..k], version, h)
    {
      hide Says, Judge, Room;
      assert levels[..k + 1] == levels[..k] + [levels[k]];
      FoldSays(levels[..k], levels[k], version, h);
      h := Fold(h, Judge(levels[k], version));
      if h.Unknown? {
        FaultDecides(levels[..k + 1], levels[k + 1..], version, h);
        assert levels[..k + 1] + levels[k + 1..] == levels;
        SaysReports(levels, version, h);
        return;
      }
    }
    assert levels[..|levels|] == levels;
    SaysReports(levels, version, h);
  }

  /** Looking at further descendant levels never raises the reported headroom, and never loses a limit. */
  lemma MoreLevelsNeverRaise(levels: seq<Level>, more: seq<Level>, version: nat, h: Headroom, h': Headroom)
    requires Says(levels, version, h) && Says(levels + more, version, h')
    ensures h.Available? && h'.Available? ==> h'.bytes <= h.bytes
    ensures h.Available? ==> !h'.Unlimited?
    ensures h.Unknown? ==> h'.Unknown?
  {
    var all := levels + more;
    assert forall m | 0 <= m < |levels| :: all[m] == levels[m];
    hide Judge, Room;
    if h.Available? {
      var k :| Attains(levels, version, h, k);
      assert Judge(all[k], version).Finite?;
    } else if h.Unknown? {
      var k :| FirstFault(levels, version, h.reason, k);
      assert Judge(all[k], version).GiveUp?;
    }
  }
}
