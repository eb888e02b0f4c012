/** Lines of the proc files: splitting them into fields, and the rendering that splitting undoes. */
module ProcLines {
  import opened Tensors
  import opened Mountinfo

  /** Cut a string at every character that `cut` accepts; the pieces may be empty. */
  function SplitAt(s: string, cut: char -> bool): (r: seq<string>)
    ensures |r| > 0
  {
    if s == "" then [""]
    else
      var rest := SplitAt(s[1..], cut);
      if cut(s[0]) then [""] + rest else [[s[0]] + rest[0]] + rest[1..]
  }

  function NonEmpty(parts: seq<string>): seq<string> {
    if parts == [] then [] else (if parts[0] == "" then [] else [parts[0]]) + NonEmpty(parts[1..])
  }

  /** The characters `str.split()` cuts at. */
  predicate Blank(c: char) {
    || '\t' <= c <= '\r' || '\U{1C}' <= c <= ' ' || c == '\U{85}' || c == '\U{A0}' || c == '\U{1680}'
    || '\U{2000}' <= c <= '\U{200A}' || c == '\U{2028}' || c == '\U{2029}' || c == '\U{202F}' || c == '\U{205F}'
    || c == '\U{3000}'
  }

  /** `s.split()`. */
  function Words(s: string): seq<string> {
    NonEmpty(SplitAt(s, Blank))
  }

  /** A line is cut at the 29 blanks of Unicode and at nothing else. */
  lemma BlanksByName(c: char)
    ensures Words([c]) == [] <==>
        c in {'\t', '\n', '\U{0B}', '\U{0C}', '\r', '\U{1C}', '\U{1D}', '\U{1E}', '\U{1F}', ' ', '\U{85}', '\U{A0}',
              '\U{1680}', '\U{2000}', '\U{2001}', '\U{2002}', '\U{2003}', '\U{2004}', '\U{2005}', '\U{2006}', '\U{2007}',
              '\U{2008}', '\U{2009}', '\U{200A}', '\U{2028}', '\U{2029}', '\U{202F}', '\U{205F}', '\U{3000}'}
  {
    assert [c][1..] == "" && SplitAt("", Blank) == [""];
    assert [c] + "" == [c] && [""][1..] == [] && [""] + [""] == ["", ""];
    assert SplitAt([c], Blank) == if Blank(c) then ["", ""] else [[c]];
    assert ["", ""][1..] == [""] && [""][1..] == [] && [[c]][1..] == [];
  }

  predicate IsComma(c: char) {
    c == ','
  }

  /** `s.partition(sep)` at the first occurrence, if there is one. */
  function Partition(s: string, sep: string): Option<(string, string)>
    requires sep != ""
  {
    if |s| < |sep| then None
    else if s[..|sep|] == sep then Some(("", s[|sep|..]))
    else
      var rest := Partition(s[1..], sep);
      if rest.None? then None else Some(([s[0]] + rest.value.0, rest.value.1))
  }

  function Join(words: seq<string>, sep: string): string {
    if words == [] then "" else if |words| == 1 then words[0] else words[0] + sep + Join(words[1..], sep)
  }

  // ---------------------------------------------------------------- splitting undoes joining

  ghost predicate Uncut(w: string, cut: char -> bool) {
    forall i | 0 <= i < |w| :: !cut(w[i])
  }

  lemma {:induction false} SplitWord(w: string, c: char, rest: string, cut: char -> bool)
    requires Uncut(w, cut) && cut(c)
    ensures SplitAt(w, cut) == [w]
    ensures SplitAt(w + [c] + rest, cut) == [w] + SplitAt(rest, cut)
  {
    var all := w + [c] + rest;
    if w == "" {
      assert all[1..] == rest;
    } else {
      SplitWord(w[1..], c, rest, cut);
      assert all[1..] == w[1..] + [c] + rest;
      assert w == [w[0]] + w[1..];
    }
  }

  lemma {:induction false} SplitJoin(words: seq<string>, c: char, cut: char -> bool)
    requires words != [] && cut(c) && forall i | 0 <= i < |words| :: Uncut(words[i], cut)
    ensures SplitAt(Join(words, [c]), cut) == words
  {
    hide SplitAt, Uncut;
    if |words| == 1 {
      SplitWord(words[0], c, "", cut);
      assert words == [words[0]];
    } else {
      var rest := words[1..];
      SplitJoin(rest, c, cut);
      SplitWord(words[0], c, Join(rest, [c]), cut);
      assert Join(words, [c]) == words[0] + [c] + Join(rest, [c]);
      assert words == [words[0]] + rest;
    }
  }

  lemma {:induction false} PiecesUncut(s: string, cut: char -> bool)
    ensures forall i | 0 <= i < |SplitAt(s, cut)| :: Uncut(SplitAt(s, cut)[i], cut)
  {
    if s != "" {
      PiecesUncut(s[1..], cut);
    }
  }

  /** A field that survives `split()`: not empty and without blanks. */
  ghost predicate Solid(w: string) {
    w != "" && Uncut(w, Blank)
  }

  lemma {:induction false} NonEmptyKeeps(parts: seq<string>)
    ensures forall p :: p in NonEmpty(parts) <==> p in parts && p != ""
    ensures "" !in parts ==> NonEmpty(parts) == parts
  {
    if parts != [] {
      NonEmptyKeeps(parts[1..]);
    }
  }

  lemma WordsSolid(s: string)
    ensures forall w | w in Words(s) :: Solid(w)
  {
    NonEmptyKeeps(SplitAt(s, Blank));
    PiecesUncut(s, Blank);
  }

  /** Joining words with spaces and splitting them gives them back exactly when all of them are solid. */
  lemma WordsOfJoin(words: seq<string>)
    ensures Words(Join(words, " ")) == words <==> forall w | w in words :: Solid(w)
  {
    WordsSolid(Join(words, " "));
    if words == [] {
      assert SplitAt("", Blank) == [""] && [""][1..] == [];
    } else if forall w | w in words :: Solid(w) {
      forall i | 0 <= i < |words|
        ensures Uncut(words[i], Blank) && words[i] != ""
      {
        assert words[i] in words;
      }
      SplitJoin(words, ' ', Blank);
      NonEmptyKeeps(words);
    }
  }

  // ---------------------------------------------------------------- partition finds its own separator

  /** Where the separator does not start, the first occurrence is further on. */
  lemma PartitionStep(s: string, sep: string)
    requires sep != "" && s != "" && !(sep <= s)
    ensures Partition(s, sep)
            == var p := Partition(s[1..], sep); if p.None? then None else Some(([s[0]] + p.value.0, p.value.1))
  {
    assert |s| >= |sep| ==> s[..|sep|] != sep;
  }

  lemma {:induction false} PartitionSkips(w: string, rest: string, sep: string)
    requires sep != "" && sep[0] !in w
    ensures Partition(w + rest, sep)
            == var p := Partition(rest, sep); if p.None? then None else Some((w + p.value.0, p.value.1))
  {
    if w == "" {
      assert w + rest == rest;
      var p := Partition(rest, sep);
      assert p.Some? ==> "" + p.value.0 == p.value.0;
    } else {
      var all := w + rest;
      PartitionSkips(w[1..], rest, sep);
      PartitionStep(all, sep);
      assert all[1..] == w[1..] + rest;
      var p := Partition(rest, sep);
      assert p.Some? ==> [w[0]] + (w[1..] + p.value.0) == w + p.value.0;
    }
  }

  const DASH := " - "

  /** A joined word list starts with its first word. */
  lemma JoinStarts(words: seq<string>, tail: string)
    requires words != []
    ensures words[0] <= Join(words, " ") + tail
  {
    assert |words| > 1 ==> Join(words, " ") == words[0] + (" " + Join(words[1..], " "));
  }

  lemma DashStarts(s: string)
    ensures DASH <= s ==> |s| >= 3 && s[1] == '-' && s[2] == ' '
  {
    assert DASH <= s ==> s[..3] == DASH;
  }

  /** Fields that are not themselves a dash do not look like the separator. */
  lemma NoDashAhead(words: seq<string>, tail: string)
    requires words != [] && Solid(words[0]) && words[0] != "-"
    ensures !(DASH <= " " + (Join(words, " ") + tail))
  {
    JoinStarts(words, tail);
    var (w, x) := (words[0], Join(words, " ") + tail);
    var s := " " + x;
    assert x[..|w|] == w && s[1] == x[0] == w[0];
    assert Blank(' ');
    assert |w| == 1 ==> w == [w[0]];
    assert |w| > 1 ==> s[2] == x[1] == w[1] != ' ';
    DashStarts(s);
  }

  /** The separator is found behind the last of the left fields. */
  lemma {:induction false} PartitionDash(words: seq<string>, right: string)
    requires words != [] && forall i | 0 <= i < |words| :: Solid(words[i]) && words[i] != "-"
    ensures Partition(Join(words, " ") + (DASH + right), DASH) == Some((Join(words, " "), right))
  {
    hide Partition, Join;
    var tail := DASH + right;
    assert ' ' !in words[0] by { assert Blank(' '); }
    if |words| == 1 {
      PartitionSkips(words[0], tail, DASH);
      FoundAtOnce(right);
      assert Join(words, " ") == words[0] by { JoinOne(words); }
      assert words[0] + "" == words[0];
    } else {
      var rest := words[1..];
      var j := Join(rest, " ");
      PartitionDash(rest, right);
      NoDashAhead(rest, tail);
      var x := j + tail;
      PartitionStep(" " + x, DASH);
      assert (" " + x)[1..] == x && (" " + x)[0] == ' ';
      PartitionSkips(words[0], " " + x, DASH);
      assert Join(words, " ") == words[0] + " " + j by { JoinMore(words); }
      assert words[0] + (" " + x) == Join(words, " ") + tail;
      assert words[0] + ([' '] + j) == Join(words, " ");
    }
  }

  lemma JoinOne(words: seq<string>)
    requires |words| == 1
    ensures Join(words, " ") == words[0]
  {
  }

  lemma JoinMore(words: seq<string>)
    requires |words| > 1
    ensures Join(words, " ") == words[0] + " " + Join(words[1..], " ")
  {
  }

  lemma FoundAtOnce(right: string)
    ensures Partition(DASH + right, DASH) == Some(("", right))
  {
    assert (DASH + right)[..3] == DASH && (DASH + right)[3..] == right;
  }

  // ---------------------------------------------------------------- the two kinds of lines

  /** One line of the cgroup file: `hierarchy:controllers:path`. */
  datatype Line = Line(hierarchy: string, controllers: set<string>, path: string)

  function ParseLine(text: string): Option<Line> {
    var head := Partition(text, ":");
    if head.None? then None
    else
      var rest := Partition(head.value.1, ":");
      if rest.None? then None
      else Some(Line(head.value.0, (set c | c in SplitAt(rest.value.0, IsComma) && c != ""), rest.value.1))
  }

  function RenderLine(hierarchy: string, controllers: seq<string>, path: string): string {
    hierarchy + (":" + (Join(controllers, ",") + (":" + path)))
  }

  lemma {:induction false} JoinWithout(words: seq<string>, c: char)
    requires c != ',' && forall w | w in words :: c !in w
    ensures c !in Join(words, ",")
  {
    if |words| > 1 {
      JoinWithout(words[1..], c);
    }
  }

  lemma PartitionAt(a: string, b: string)
    requires ':' !in a
    ensures Partition(a + (":" + b), ":") == Some((a, b))
  {
    PartitionSkips(a, ":" + b, ":");
    assert (":" + b)[..1] == ":" && (":" + b)[1..] == b && a + "" == a;
  }

  /** What the kernel writes about a membership is what the parser reads; the path may contain anything. */
  lemma LineRoundTrip(hierarchy: string, controllers: seq<string>, path: string)
    requires ':' !in hierarchy && forall c | c in controllers :: c != "" && ':' !in c && ',' !in c
    ensures ParseLine(RenderLine(hierarchy, controllers, path)) == Some(Line(hierarchy, (set c | c in controllers), path))
  {
    hide Partition;
    var names := Join(controllers, ",");
    JoinWithout(controllers, ':');
    PartitionAt(hierarchy, names + (":" + path));
    PartitionAt(names, path);
    assert (set c | c in SplitAt(names, IsComma) && c != "") == (set c | c in controllers) by {
      NamesRoundTrip(controllers);
    }
  }

  lemma NamesRoundTrip(controllers: seq<string>)
    requires forall c | c in controllers :: c != "" && ',' !in c
    ensures (set c | c in SplitAt(Join(controllers, ","), IsComma) && c != "") == (set c | c in controllers)
  {
    if controllers == [] {
      assert SplitAt("", IsComma) == [""];
    } else {
      forall i | 0 <= i < |controllers|
        ensures Uncut(controllers[i], IsComma)
      {
        assert controllers[i] in controllers;
      }
      SplitJoin(controllers, ',', IsComma);
    }
  }

  /** One line of the mountinfo file: root, mount point, filesystem type, and the comma-separated words
      of its options, source and super options. */
  datatype MountLine = MountLine(root: string, point: string, filesystem: string, words: set<string>)

  function ParseMount(text: string): Option<MountLine> {
    var halves := Partition(text, DASH);
    if halves.None? then None
    else
      var (left, right) := (Words(halves.value.0), Words(halves.value.1));
      if |left| < 6 || |right| < 3 then None
      else Some(MountLine(left[3], left[4], right[0],
                          set c | c in SplitAt(Join([left[5], right[1], right[2]], ","), IsComma)))
  }

  /** The fields before and after the separating dash. */
  function RenderMount(left: seq<string>, right: seq<string>): string {
    Join(left, " ") + (DASH + Join(right, " "))
  }

  /** Rendered fields are read back field by field. */
  lemma MountRoundTrip(left: seq<string>, right: seq<string>)
    requires |left| >= 6 && |right| >= 3
    requires forall i | 0 <= i < |left| :: Solid(left[i]) && left[i] != "-"
    requires forall i | 0 <= i < |right| :: Solid(right[i])
    ensures ParseMount(RenderMount(left, right))
            == Some(MountLine(left[3], left[4], right[0],
                              set c | c in SplitAt(Join([left[5], right[1], right[2]], ","), IsComma)))
  {
    hide Partition, Words, Solid, Join;
    PartitionDash(left, Join(right, " "));
    WordsOfJoin(left);
    WordsOfJoin(right);
  }

  /** Fields read from a mount line are solid, whatever the line. */
  lemma FieldsSolid(text: string)
    ensures ParseMount(text).Some? ==> Solid(ParseMount(text).value.root) && Solid(ParseMount(text).value.point)
  {
    hide Words, Solid;
    var halves := Partition(text, DASH);
    if halves.Some? {
      WordsSolid(halves.value.0);
    }
  }

  // ---------------------------------------------------------------- why the kernel escapes

  /** A path whose only blanks are those the kernel escapes. */
  ghost predicate Escapable(path: string) {
    path != "" && forall i | 0 <= i < |path| :: Blank(path[i]) ==> path[i] in ESCAPED
  }

  lemma CodeSolid(c: char)
    requires c in ESCAPED
    ensures Solid(Code(c))
  {
  }

  /** The escaped path is one field exactly when the kernel escapes every blank in it. */
  lemma {:induction false} EscapedSolid(path: string)
    ensures Uncut(Escape(path, ESCAPED), Blank) <==> forall i | 0 <= i < |path| :: Blank(path[i]) ==> path[i] in ESCAPED
    ensures Escape(path, ESCAPED) == "" <==> path == ""
  {
    if path != "" {
      var (rest, head) := (Escape(path[1..], ESCAPED), if path[0] in ESCAPED then Code(path[0]) else [path[0]]);
      EscapedSolid(path[1..]);
      assert path == [path[0]] + path[1..];
      if path[0] in ESCAPED { CodeSolid(path[0]); }
      UncutAppend(head, rest, Blank);
    }
  }

  lemma UncutAppend(a: string, b: string, cut: char -> bool)
    ensures Uncut(a + b, cut) <==> Uncut(a, cut) && Uncut(b, cut)
  {
    if Uncut(a + b, cut) {
      forall i | 0 <= i < |a|
        ensures !cut(a[i])
      {
        assert (a + b)[i] == a[i];
      }
      forall i | 0 <= i < |b|
        ensures !cut(b[i])
      {
        assert (a + b)[|a| + i] == b[i];
      }
    }
  }

  /** A mount line with escaped paths gives both paths back exactly when they contain no blanks but the
      ones the kernel escapes. */
  lemma PathsSurvive(front: seq<string>, root: string, point: string, back: seq<string>, right: seq<string>)
    requires |front| == 3 && |back| >= 1 && |right| >= 3 && root != "-" && point != "-"
    requires forall i | 0 <= i < |front| :: Solid(front[i]) && front[i] != "-"
    requires forall i | 0 <= i < |back| :: Solid(back[i]) && back[i] != "-"
    requires forall i | 0 <= i < |right| :: Solid(right[i])
    ensures var m := ParseMount(RenderMount(front + [Escape(root, ESCAPED), Escape(point, ESCAPED)] + back, right));
            (m.Some? && m.value.root == Escape(root, ESCAPED) && m.value.point == Escape(point, ESCAPED))
            <==> Escapable(root) && Escapable(point)
  {
    hide ParseMount, RenderMount, Escape;
    var (r, p) := (Escape(root, ESCAPED), Escape(point, ESCAPED));
    var left := front + [r, p] + back;
    EscapedSolid(root);
    EscapedSolid(point);
    FieldsSolid(RenderMount(left, right));
    if Escapable(root) && Escapable(point) {
      NotDash(root);
      NotDash(point);
      MountRoundTrip(left, right);
    }
  }

  lemma NotDash(path: string)
    requires path != "-"
    ensures Escape(path, ESCAPED) != "-"
  {
    if path != "" {
      EscapedSolid(path[1..]);
      assert path == [path[0]] + path[1..];
      assert path[0] in ESCAPED || path[1..] != "" ==> |Escape(path, ESCAPED)| > 1;
    }
  }

  // ---------------------------------------------------------------- lines as they are

  /** Three membership lines and what they mean. */
  lemma SampleLines()
    ensures ParseLine("0::/a") == Some(Line("0", {}, "/a"))
    ensures ParseLine("4:cpu,memory:/b") == Some(Line("4", {"cpu", "memory"}, "/b"))
    ensures ParseLine("0:/a") == None
  {
    hide ParseLine;
    LineRoundTrip("0", [], "/a");
    assert RenderLine("0", [], "/a") == "0::/a";
    var none: seq<string> := [];
    assert (set c | c in none) == {};
    LineRoundTrip("4", ["cpu", "memory"], "/b");
    assert Join(["cpu", "memory"], ",") == "cpu,memory" by { assert ["cpu", "memory"][1..] == ["memory"]; }
    assert RenderLine("4", ["cpu", "memory"], "/b") == "4:cpu,memory:/b";
    assert (set c | c in ["cpu", "memory"]) == {"cpu", "memory"};
    OneColon();
  }

  lemma OneColon()
    ensures ParseLine("0:/a") == None
  {
    PartitionAt("0", "/a");
    assert "0" + (":" + "/a") == "0:/a";
    PartitionSkips("/a", "", ":");
    assert "/a" + "" == "/a";
  }
}
