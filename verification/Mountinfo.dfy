/** Octal escapes of mount paths: four whole-string replacements undo them. */
module Mountinfo {

  /** `value.replace(code, literal)`: leftmost matches, not overlapping. */
  function Replace(value: string, code: string, literal: string): string
    requires code != ""
    decreases |value|
  {
    if |value| < |code| then value
    else if value[..|code|] == code then literal + Replace(value[|code|..], code, literal)
    else [value[0]] + Replace(value[1..], code, literal)
  }

  /** The escape sequence of a character the kernel escapes. */
  function Code(c: char): (r: string)
    requires c in ESCAPED
    ensures |r| == 4 && r[0] == '\\' && forall i | 1 <= i < 4 :: r[i] != '\\'
  {
    match c
    case ' ' => "\\040"
    case '\t' => "\\011"
    case '\n' => "\\012"
    case _ => "\\134"
  }

  const ESCAPED: set<char> := {' ', '\t', '\n', '\\'}

  /** The order in which the source undoes the escapes; the backslash comes last. */
  const ORDER: seq<char> := [' ', '\t', '\n', '\\']

  /** Run the replacements for `order`, one after the other. */
  ghost function Undo(value: string, order: seq<char>): string
    requires forall i | 0 <= i < |order| :: order[i] in ESCAPED
  {
    if order == [] then value
    else
      var (before, c) := (order[..|order| - 1], order[|order| - 1]);
      Replace(Undo(value, before), Code(c), [c])
  }

  /** `_mountinfo_path`. */
  method MountinfoPath(text: string) returns (value: string)
    ensures value == Undo(text, ORDER)
    ensures forall s :: text == Escape(s, ESCAPED) ==> value == s
  {
    value := text;
    for n := 0 to 4
      invariant value == Undo(text, ORDER[..n])
    {
      value := Replace(value, Code(ORDER[n]), [ORDER[n]]);
      assert ORDER[..n + 1][..n] == ORDER[..n];
    }
    assert ORDER[..4] == ORDER;
    forall s | text == Escape(s, ESCAPED)
      ensures value == s
    {
      RoundTrip(s, ORDER);
    }
  }

  /** Escape the characters of `which`, leave the others. */
  ghost function Escape(s: string, which: set<char>): string
    requires which <= ESCAPED
  {
    if s == "" then "" else (if s[0] in which then Code(s[0]) else [s[0]]) + Escape(s[1..], which)
  }

  lemma CodesDiffer(c: char, d: char)
    requires c in ESCAPED && d in ESCAPED && c != d
    ensures Code(c) != Code(d)
  {
  }

  lemma ReplaceSkips(c: char, x: char, rest: string)
    requires c in ESCAPED && x != '\\'
    ensures Replace([x] + rest, Code(c), [c]) == [x] + Replace(rest, Code(c), [c])
  {
    var v := [x] + rest;
    assert v[1..] == rest;
    if |v| >= 4 {
      assert v[..4][0] == x;
    }
  }

  /** Another character's code passes through unchanged. */
  lemma ReplaceSkipsCode(c: char, d: char, rest: string)
    requires c in ESCAPED && d in ESCAPED && c != d
    ensures Replace(Code(d) + rest, Code(c), [c]) == Code(d) + Replace(rest, Code(c), [c])
  {
    var k := Code(d);
    var v := k + rest;
    CodesDiffer(c, d);
    assert v[..4] == k;
    assert v[1..] == [k[1]] + ([k[2]] + ([k[3]] + rest));
    ReplaceSkips(c, k[1], [k[2]] + ([k[3]] + rest));
    ReplaceSkips(c, k[2], [k[3]] + rest);
    ReplaceSkips(c, k[3], rest);
    var r := Replace(rest, Code(c), [c]);
    assert [k[0]] + ([k[1]] + ([k[2]] + ([k[3]] + r))) == k + r;
  }

  /** Undoing one escape while the backslash itself is still escaped restores exactly that character. */
  lemma {:induction false} UndoOne(s: string, which: set<char>, c: char)
    requires which <= ESCAPED && c in which && '\\' in which
    ensures Replace(Escape(s, which), Code(c), [c]) == Escape(s, which - {c})
    decreases |s|
  {
    if s != "" {
      var rest := Escape(s[1..], which);
      UndoOne(s[1..], which, c);
      if s[0] == c {
        assert (Code(c) + rest)[..4] == Code(c) && (Code(c) + rest)[4..] == rest;
      } else if s[0] in which {
        ReplaceSkipsCode(c, s[0], rest);
      } else {
        ReplaceSkips(c, s[0], rest);
      }
    }
  }

  lemma {:induction false} EscapeNothing(s: string)
    ensures Escape(s, {}) == s
    decreases |s|
  {
    if s != "" {
      EscapeNothing(s[1..]);
    }
  }

  /** The four codes, each once, in some order. */
  ghost predicate IsOrder(order: seq<char>) {
    && |order| == 4
    && (forall i | 0 <= i < 4 :: order[i] in ESCAPED)
    && (forall i, j | 0 <= i < j < 4 :: order[i] != order[j])
  }

  ghost function Chars(order: seq<char>): set<char> {
    set c | c in order
  }

  /** Until the backslash is undone, the replacements undo the escapes they are for and no others. */
  lemma {:induction false} UndoPrefix(s: string, order: seq<char>, n: nat)
    requires IsOrder(order) && n <= 4 && (n == 0 || '\\' !in order[..n - 1])
    ensures Undo(Escape(s, ESCAPED), order[..n]) == Escape(s, ESCAPED - Chars(order[..n]))
  {
    if n == 0 {
      assert order[..0] == [] && ESCAPED - Chars([]) == ESCAPED;
    } else {
      var before, c := order[..n - 1], order[n - 1];
      assert n >= 2 ==> '\\' !in order[..n - 2];
      UndoPrefix(s, order, n - 1);
      UndoOne(s, ESCAPED - Chars(before), c);
      assert order[..n][..n - 1] == before && order[..n] == before + [c];
      assert ESCAPED - Chars(before) - {c} == ESCAPED - Chars(order[..n]);
    }
  }

  /** For every string and every order that undoes the backslash last: escaping and then running the
      four replacements gives the string back. */
  lemma RoundTrip(s: string, order: seq<char>)
    requires IsOrder(order) && order[3] == '\\'
    ensures Undo(Escape(s, ESCAPED), order) == s
  {
    UndoPrefix(s, order, 4);
    assert order[..4] == order;
    AllChars(order);
    assert ESCAPED - Chars(order) == {};
    EscapeNothing(s);
  }

  lemma AllChars(order: seq<char>)
    requires IsOrder(order)
    ensures Chars(order) == ESCAPED
  {
    assert order == [order[0], order[1], order[2], order[3]];
    assert Chars(order) == {order[0], order[1], order[2], order[3]};
  }

  /** The four codes by their characters. */
  lemma CodesByName()
    ensures Undo("\\040", ORDER) == " " && Undo("\\011", ORDER) == "\t"
    ensures Undo("\\012", ORDER) == "\n" && Undo("\\134", ORDER) == "\\"
  {
    hide Undo;
    forall c | c in ESCAPED
      ensures Undo(Code(c), ORDER) == [c]
    {
      assert Escape([c], ESCAPED) == Code(c) by { assert [c][1..] == "" && Code(c) + "" == Code(c); }
      RoundTrip([c], ORDER);
    }
  }

  // ---------------------------------------------------------------- no other order works

  /** Text without a backslash is left alone. */
  lemma {:induction false} ReplacePlain(c: char, tail: string)
    requires c in ESCAPED && '\\' !in tail
    ensures Replace(tail, Code(c), [c]) == tail
  {
    if tail != "" {
      assert tail == [tail[0]] + tail[1..];
      ReplaceSkips(c, tail[0], tail[1..]);
      ReplacePlain(c, tail[1..]);
    }
  }

  lemma {:induction false} EscapePlain(tail: string)
    requires forall i | 0 <= i < |tail| :: tail[i] !in ESCAPED
    ensures Escape(tail, ESCAPED) == tail
  {
    if tail != "" {
      EscapePlain(tail[1..]);
    }
  }

  /** The code of `d` with its backslash escaped: what the escape makes of the literal code. */
  ghost function Twice(d: char): string
    requires d in ESCAPED
  {
    Code('\\') + Code(d)[1..]
  }

  lemma EscapeOfCode(d: char)
    requires d in ESCAPED
    ensures Escape(Code(d), ESCAPED) == Twice(d)
  {
    var tail := Code(d)[1..];
    forall i | 0 <= i < |tail|
      ensures tail[i] !in ESCAPED
    {
      assert tail[i] == Code(d)[i + 1];
    }
    EscapePlain(tail);
  }

  /** One replacement on the escaped code, and on the code. */
  lemma ReplaceTwice(c: char, d: char)
    requires c in ESCAPED && d in ESCAPED
    ensures Replace(Twice(d), Code(c), [c]) == if c == '\\' then Code(d) else Twice(d)
    ensures Replace(Code(d), Code(c), [c]) == if c == d then [d] else Code(d)
  {
    var k, tail := Code(d), Code(d)[1..];
    forall i | 0 <= i < |tail|
      ensures tail[i] != '\\'
    {
      assert tail[i] == k[i + 1];
    }
    ReplacePlain(c, tail);
    if c == '\\' {
      assert Twice(d)[..4] == Code(c) && Twice(d)[4..] == tail;
      assert ['\\'] + tail == k;
    } else {
      ReplaceSkipsCode(c, '\\', tail);
    }
    assert k + "" == k && k[..4] == k && k[4..] == "";
    if c != d {
      ReplaceSkipsCode(c, d, "");
    }
  }

  /** An order that undoes the backslash at position `n` and the character `d` after it, step by step. */
  lemma {:induction false} Stages(order: seq<char>, n: nat, m: nat, j: nat)
    requires IsOrder(order) && n < m < 4 && order[n] == '\\' && j <= m + 1
    ensures Undo(Twice(order[m]), order[..j])
            == if j <= n then Twice(order[m]) else if j <= m then Code(order[m]) else [order[m]]
  {
    if j > 0 {
      Stages(order, n, m, j - 1);
      assert order[..j][..j - 1] == order[..j - 1] && order[..j][j - 1] == order[j - 1];
      ReplaceTwice(order[j - 1], order[m]);
    }
  }

  /** The replacements give every string back if and only if the backslash is undone last. */
  lemma OnlyBackslashLast(order: seq<char>)
    requires IsOrder(order)
    ensures (forall s :: Undo(Escape(s, ESCAPED), order) == s) <==> order[3] == '\\'
  {
    if order[3] == '\\' {
      forall s
        ensures Undo(Escape(s, ESCAPED), order) == s
      {
        RoundTrip(s, order);
      }
    } else {
      AllChars(order);
      assert '\\' in Chars(order);
      var n :| 0 <= n < 4 && order[n] == '\\';
      var d := order[3];
      EscapeOfCode(d);
      Stages(order, n, 3, 4);
      assert order[..4] == order;
      assert Undo(Escape(Code(d), ESCAPED), order) == [d] != Code(d);
    }
  }
}
