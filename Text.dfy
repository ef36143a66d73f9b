/**
 * The handful of Python string operations the message generator relies on:
 * `"\n".join`, `split("\n")`, `strip()`, `strip(chars)`, `isdigit()`, and the
 * `<@id>` mention token.
 */
module Text {

  /** Python's `"\n".join(lines)`. */
  function JoinLines(lines: seq<string>): string
  {
    if |lines| == 0 then ""
    else if |lines| == 1 then lines[0]
    else lines[0] + "\n" + JoinLines(lines[1..])
  }

  /** Position of the first line break in `s`, or `|s|` when there is none. */
  function NewlineAt(s: string): (i: nat)
    ensures i <= |s|
    ensures forall j :: 0 <= j < i ==> s[j] != '\n'
    ensures i < |s| ==> s[i] == '\n'
  {
    if |s| == 0 || s[0] == '\n' then 0 else 1 + NewlineAt(s[1..])
  }

  /** Python's `s.split("\n")`: never empty, `""` splits into `[""]`. */
  function SplitLines(s: string): (lines: seq<string>)
    ensures |lines| >= 1
    decreases |s|
  {
    var i := NewlineAt(s);
    if i == |s| then [s] else [s[..i]] + SplitLines(s[i + 1..])
  }

  /** No element of `lines` contains a line break. */
  predicate SingleLines(lines: seq<string>)
  {
    forall k :: 0 <= k < |lines| ==> '\n' !in lines[k]
  }

  /** The first break of `a + "\n" + b` is the one after `a` when `a` has none. */
  lemma {:induction false} NewlineAtBreak(a: string, b: string)
    requires '\n' !in a
    ensures NewlineAt(a + "\n" + b) == |a|
  {
    if |a| > 0 {
      assert (a + "\n" + b)[1..] == a[1..] + "\n" + b;
      NewlineAtBreak(a[1..], b);
    }
  }

  /** Joining with a line break and splitting on it are inverse for lines without breaks. */
  lemma {:induction false} SplitJoin(lines: seq<string>)
    requires |lines| >= 1 && SingleLines(lines)
    ensures SplitLines(JoinLines(lines)) == lines
  {
    var a := lines[0];
    assert '\n' !in a;
    if |lines| == 1 {
      assert NewlineAt(a) == |a|;
    } else {
      var rest := JoinLines(lines[1..]);
      var s := a + "\n" + rest;
      assert JoinLines(lines) == s;
      NewlineAtBreak(a, rest);
      assert s[..|a|] == a && s[|a| + 1..] == rest;
      assert SplitLines(s) == [a] + SplitLines(rest);
      SingleLinesTail(lines);
      SplitJoin(lines[1..]);
      assert lines == [a] + lines[1..];
    }
  }

  /** Dropping the first line keeps every line free of breaks. */
  lemma SingleLinesTail(lines: seq<string>)
    requires lines != [] && SingleLines(lines)
    ensures SingleLines(lines[1..])
  {
    forall k | 0 <= k < |lines| - 1 ensures '\n' !in lines[1..][k] {
      assert lines[1..][k] == lines[k + 1];
    }
  }

  /** Joining two non-empty runs of lines puts one break between them. */
  lemma {:induction false} JoinLinesAppend(xs: seq<string>, ys: seq<string>)
    requires xs != [] && ys != []
    ensures JoinLines(xs + ys) == JoinLines(xs) + "\n" + JoinLines(ys)
  {
    if |xs| == 1 {
      assert (xs + ys)[1..] == ys;
    } else {
      assert (xs + ys)[1..] == xs[1..] + ys;
      JoinLinesAppend(xs[1..], ys);
    }
  }

  /** Joining one more line appends a break and that line. */
  lemma JoinLinesSnoc(lines: seq<string>, x: string)
    requires lines != []
    ensures JoinLines(lines + [x]) == JoinLines(lines) + "\n" + x
  {
    JoinLinesAppend(lines, [x]);
  }

  /** Ten lines joined. */
  lemma JoinTen(x0: string, x1: string, x2: string, x3: string, x4: string,
                x5: string, x6: string, x7: string, x8: string, x9: string)
    ensures JoinLines([x0, x1, x2, x3, x4, x5, x6, x7, x8, x9])
         == x0 + "\n" + x1 + "\n" + x2 + "\n" + x3 + "\n" + x4 + "\n"
          + x5 + "\n" + x6 + "\n" + x7 + "\n" + x8 + "\n" + x9
  {
    JoinLinesSnoc([x0], x1);
    assert [x0] + [x1] == [x0, x1];
    JoinLinesSnoc([x0, x1], x2);
    assert [x0, x1] + [x2] == [x0, x1, x2];
    JoinLinesSnoc([x0, x1, x2], x3);
    assert [x0, x1, x2] + [x3] == [x0, x1, x2, x3];
    JoinLinesSnoc([x0, x1, x2, x3], x4);
    assert [x0, x1, x2, x3] + [x4] == [x0, x1, x2, x3, x4];
    JoinLinesSnoc([x0, x1, x2, x3, x4], x5);
    assert [x0, x1, x2, x3, x4] + [x5] == [x0, x1, x2, x3, x4, x5];
    JoinLinesSnoc([x0, x1, x2, x3, x4, x5], x6);
    assert [x0, x1, x2, x3, x4, x5] + [x6] == [x0, x1, x2, x3, x4, x5, x6];
    JoinLinesSnoc([x0, x1, x2, x3, x4, x5, x6], x7);
    assert [x0, x1, x2, x3, x4, x5, x6] + [x7] == [x0, x1, x2, x3, x4, x5, x6, x7];
    JoinLinesSnoc([x0, x1, x2, x3, x4, x5, x6, x7], x8);
    assert [x0, x1, x2, x3, x4, x5, x6, x7] + [x8] == [x0, x1, x2, x3, x4, x5, x6, x7, x8];
    JoinLinesSnoc([x0, x1, x2, x3, x4, x5, x6, x7, x8], x9);
    assert [x0, x1, x2, x3, x4, x5, x6, x7, x8] + [x9] == [x0, x1, x2, x3, x4, x5, x6, x7, x8, x9];
  }

  /** `JoinLines(lines)` starts with the first line and a break when there are at least two lines. */
  lemma {:induction false} JoinLinesStartsWith(lines: seq<string>)
    requires |lines| >= 2
    ensures |lines[0]| + 1 <= |JoinLines(lines)|
    ensures JoinLines(lines)[..|lines[0]| + 1] == lines[0] + "\n"
  {
    assert JoinLines(lines) == lines[0] + "\n" + JoinLines(lines[1..]);
  }

  /** `JoinLines(lines)` ends with a break and the last line when there are at least two lines. */
  lemma {:induction false} JoinLinesEndsWith(lines: seq<string>)
    requires |lines| >= 2
    ensures var last := lines[|lines| - 1]; var m := JoinLines(lines);
      |last| + 1 <= |m| && m[|m| - |last| - 1..] == "\n" + last
  {
    var last := lines[|lines| - 1];
    var tail := JoinLines(lines[1..]);
    assert JoinLines(lines) == lines[0] + "\n" + tail;
    if |lines| == 2 {
      assert tail == last;
    } else {
      JoinLinesEndsWith(lines[1..]);
      assert tail[|tail| - |last| - 1..] == "\n" + last;
    }
  }

  /** The characters Python's `str.strip()` removes: those for which `str.isspace()` holds. */
  const Whitespace: set<char> := {
    '\t', '\n', '\U{0B}', '\U{0C}', '\r', '\U{1C}', '\U{1D}', '\U{1E}', '\U{1F}', ' ',
    '\U{85}', '\U{A0}', '\U{1680}',
    '\U{2000}', '\U{2001}', '\U{2002}', '\U{2003}', '\U{2004}', '\U{2005}', '\U{2006}',
    '\U{2007}', '\U{2008}', '\U{2009}', '\U{200A}',
    '\U{2028}', '\U{2029}', '\U{202F}', '\U{205F}', '\U{3000}'
  }

  /** Python's `s.lstrip(chars)`: drops the longest prefix made of characters of `cs`. */
  function LStrip(s: string, cs: set<char>): (r: string)
    ensures |r| <= |s| && r == s[|s| - |r|..]
    ensures forall j :: 0 <= j < |s| - |r| ==> s[j] in cs
    ensures r != [] ==> r[0] !in cs
  {
    if |s| > 0 && s[0] in cs then LStrip(s[1..], cs) else s
  }

  /** Python's `s.rstrip(chars)`: drops the longest suffix made of characters of `cs`. */
  function RStrip(s: string, cs: set<char>): (r: string)
    ensures |r| <= |s| && r == s[..|r|]
    ensures forall j :: |r| <= j < |s| ==> s[j] in cs
    ensures r != [] ==> r[|r| - 1] !in cs
  {
    if |s| > 0 && s[|s| - 1] in cs then RStrip(s[..|s| - 1], cs) else s
  }

  /** Python's `s.strip(chars)`. */
  function StripChars(s: string, cs: set<char>): string
  {
    RStrip(LStrip(s, cs), cs)
  }

  /** Python's `s.strip()`. */
  function Strip(s: string): string
  {
    StripChars(s, Whitespace)
  }

  /** Python's `s.isdigit()`, restricted to the ASCII digits. */
  predicate IsDigits(s: string)
  {
    |s| > 0 && forall i :: 0 <= i < |s| ==> '0' <= s[i] <= '9'
  }

  /** The Discord mention token `<@id>`. */
  function Mention(id: string): string
  {
    "<@" + id + ">"
  }

  /** The characters that `strip('<@>')` removes. */
  const MentionChars: set<char> := {'<', '@', '>'}

  /** Stripping `<@>` from the mention of a digit string gives the digit string back. */
  lemma MentionStripRoundTrip(id: string)
    requires IsDigits(id)
    ensures StripChars(Mention(id), MentionChars) == id
  {
    assert '0' <= id[0] <= '9' && '0' <= id[|id| - 1] <= '9';
    MentionLStrip(id);
    MentionRStrip(id);
  }

  /** `lstrip('<@>')` drops exactly the opening `<@` of a mention whose id starts otherwise. */
  lemma MentionLStrip(id: string)
    requires id != [] && id[0] !in MentionChars
    ensures LStrip(Mention(id), MentionChars) == id + ">"
  {
    var s := Mention(id);
    var t := s[1..];
    assert s[0] == '<' && t == "@" + id + ">";
    assert t[0] == '@' && t[1..] == id + ">";
    assert (id + ">")[0] == id[0];
  }

  /** `rstrip('<@>')` drops exactly the closing `>` after an id that ends otherwise. */
  lemma MentionRStrip(id: string)
    requires id != [] && id[|id| - 1] !in MentionChars
    ensures RStrip(id + ">", MentionChars) == id
  {
    var t := id + ">";
    assert t[|t| - 1] == '>' && t[..|t| - 1] == id;
  }
}
