/** The JavaScript string built-ins the core relies on: `indexOf`, `includes`,
    `split("\n")` and `trim`, over strings of Unicode scalar values. */
module Text {

  /** `p` occurs in `s` starting at index `i`. */
  predicate OccursAt(s: string, p: string, i: int) {
    0 <= i && i + |p| <= |s| && s[i..i + |p|] == p
  }

  /** JavaScript `s.includes(p)`. */
  predicate Contains(s: string, p: string) {
    exists i :: 0 <= i <= |s| - |p| && OccursAt(s, p, i)
  }

  /** Slicing a slice is slicing the original at shifted bounds. */
  lemma SliceOfSlice(s: string, a: int, b: int, i: int, j: int)
    requires 0 <= a <= b <= |s| && 0 <= i <= j <= b - a
    ensures s[a..b][i..j] == s[a + i..a + j]
  {
    forall k | 0 <= k < j - i ensures s[a..b][i..j][k] == s[a + i..a + j][k] {
      assert s[a..b][i..j][k] == s[a..b][i + k] == s[a + i + k];
    }
  }

  /** JavaScript `s.indexOf(p)`: the first index at which `p` occurs, or -1. */
  function IndexOf(s: string, p: string): (r: int)
    ensures r == -1 <==> !Contains(s, p)
    ensures r != -1 ==> OccursAt(s, p, r) && forall j :: 0 <= j < r ==> !OccursAt(s, p, j)
    decreases |s|
  {
    if |s| < |p| then
      -1
    else if s[..|p|] == p then
      assert OccursAt(s, p, 0);
      0
    else
      var k := IndexOf(s[1..], p);
      forall i | 1 <= i ensures OccursAt(s, p, i) <==> OccursAt(s[1..], p, i - 1) {
        if i + |p| <= |s| {
          SliceOfSlice(s, 1, |s|, i - 1, i - 1 + |p|);
        }
      }
      if k == -1 then
        -1
      else
        assert OccursAt(s, p, k + 1);
        k + 1
  }

  /** An occurrence inside a slice is an occurrence in the whole string. */
  lemma ContainsSlice(s: string, a: int, b: int, p: string)
    requires 0 <= a <= b <= |s|
    requires Contains(s[a..b], p)
    ensures Contains(s, p)
  {
    var i :| 0 <= i <= |s[a..b]| - |p| && OccursAt(s[a..b], p, i);
    SliceOfSlice(s, a, b, i, i + |p|);
    assert OccursAt(s, p, a + i);
  }

  /** A string lacking one of the characters of `p` cannot contain `p`. */
  lemma MissingChar(s: string, p: string, c: char)
    requires c in p && c !in s
    ensures !Contains(s, p)
  {
  }

  /** Two pieces that each lack `p` make a whole that lacks `p` when the
      character at the seam cannot be part of an occurrence. */
  lemma JoinLeft(a: string, b: string, p: string)
    requires !Contains(a, p) && !Contains(b, p)
    requires |a| > 0 && a[|a| - 1] !in p
    ensures !Contains(a + b, p)
  {
    if Contains(a + b, p) {
      var i :| 0 <= i <= |a + b| - |p| && OccursAt(a + b, p, i);
      if i + |p| <= |a| {
        assert (a + b)[i..i + |p|] == a[i..i + |p|];
        assert OccursAt(a, p, i);
      } else if |a| <= i {
        assert (a + b)[i..i + |p|] == b[i - |a|..i - |a| + |p|];
        assert 0 <= i - |a| <= |b| - |p| && OccursAt(b, p, i - |a|);
      } else {
        StraddleChar(a, b, p, i, |a| - 1);
      }
    }
  }

  lemma JoinRight(a: string, b: string, p: string)
    requires !Contains(a, p) && !Contains(b, p)
    requires |b| > 0 && b[0] !in p
    ensures !Contains(a + b, p)
  {
    if Contains(a + b, p) {
      var i :| 0 <= i <= |a + b| - |p| && OccursAt(a + b, p, i);
      if i + |p| <= |a| {
        assert (a + b)[i..i + |p|] == a[i..i + |p|];
        assert OccursAt(a, p, i);
      } else if |a| <= i {
        assert (a + b)[i..i + |p|] == b[i - |a|..i - |a| + |p|];
        assert 0 <= i - |a| <= |b| - |p| && OccursAt(b, p, i - |a|);
      } else {
        StraddleChar(a, b, p, i, |a|);
      }
    }
  }

  /** A character of `a + b` covered by an occurrence of `p` is a character of `p`. */
  lemma StraddleChar(a: string, b: string, p: string, i: int, k: int)
    requires OccursAt(a + b, p, i) && i <= k < i + |p|
    ensures (a + b)[k] in p
  {
    assert (a + b)[i..i + |p|][k - i] == (a + b)[k];
  }

  /** JavaScript `s.split("\n")`: the pieces between line feeds, never an empty list. */
  function Lines(s: string): (r: seq<string>)
    ensures |r| >= 1
  {
    if |s| == 0 then [""]
    else
      var rest := Lines(s[1..]);
      if s[0] == '\n' then [""] + rest
      else [[s[0]] + rest[0]] + rest[1..]
  }

  /** Splitting at a line feed splits the list of lines. */
  lemma {:induction false} LinesAppend(a: string, b: string)
    ensures Lines(a + "\n" + b) == Lines(a) + Lines(b)
  {
    if a == [] {
      assert a + "\n" + b == "\n" + b;
      assert ("\n" + b)[1..] == b;
    } else {
      assert (a + "\n" + b)[1..] == a[1..] + "\n" + b;
      LinesAppend(a[1..], b);
    }
  }

  /** A string without a line feed is a single line. */
  lemma {:induction false} LinesSingle(s: string)
    requires '\n' !in s
    ensures Lines(s) == [s]
  {
    if s != [] {
      LinesSingle(s[1..]);
      assert s == [s[0]] + s[1..];
    }
  }

  lemma {:induction false} FirstLineIsPrefix(s: string)
    ensures |Lines(s)[0]| <= |s| && Lines(s)[0] == s[..|Lines(s)[0]|]
  {
    if s != [] && s[0] != '\n' {
      FirstLineIsPrefix(s[1..]);
    }
  }

  /** Every line is a piece of the text, so what a line contains the text contains. */
  lemma {:induction false} LineInText(s: string, k: int, p: string)
    requires 0 <= k < |Lines(s)|
    requires Contains(Lines(s)[k], p)
    ensures Contains(s, p)
  {
    if s == [] {
      assert Lines(s)[k] == s;
    } else if s[0] == '\n' {
      if k == 0 {
        assert OccursAt(s, p, 0);
      } else {
        LineInText(s[1..], k - 1, p);
        assert s[1..|s|] == s[1..];
        ContainsSlice(s, 1, |s|, p);
      }
    } else {
      var rest := Lines(s[1..]);
      if k == 0 {
        FirstLineIsPrefix(s[1..]);
        assert Lines(s)[0] == s[..1 + |rest[0]|];
        ContainsSlice(s, 0, 1 + |rest[0]|, p);
      } else {
        assert Lines(s)[k] == rest[k];
        LineInText(s[1..], k, p);
        assert s[1..|s|] == s[1..];
        ContainsSlice(s, 1, |s|, p);
      }
    }
  }

  /** The characters JavaScript `trim` removes: WhiteSpace and LineTerminator of ECMA-262. */
  predicate IsSpace(c: char) {
    c == ' ' || c == '\t' || c == '\n' || c == '\r' || c == '\U{000B}' || c == '\U{000C}'
    || c == '\U{00A0}' || c == '\U{1680}' || ('\U{2000}' <= c <= '\U{200A}')
    || c == '\U{2028}' || c == '\U{2029}' || c == '\U{202F}' || c == '\U{205F}'
    || c == '\U{3000}' || c == '\U{FEFF}'
  }

  /** How many characters `trimStart` removes. */
  function LeadingSpace(s: string): (n: nat)
    ensures n <= |s|
    ensures forall i :: 0 <= i < n ==> IsSpace(s[i])
    ensures n < |s| ==> !IsSpace(s[n])
  {
    if |s| > 0 && IsSpace(s[0]) then 1 + LeadingSpace(s[1..]) else 0
  }

  /** How many characters `trimEnd` removes. */
  function TrailingSpace(s: string): (n: nat)
    ensures n <= |s|
    ensures forall i :: |s| - n <= i < |s| ==> IsSpace(s[i])
    ensures n < |s| ==> !IsSpace(s[|s| - n - 1])
  {
    if |s| > 0 && IsSpace(s[|s| - 1]) then 1 + TrailingSpace(s[..|s| - 1]) else 0
  }

  /** JavaScript `s.trim()`: the middle slice of `s` that neither starts nor ends with white space. */
  function Trim(s: string): (r: string)
    ensures r == [] || (!IsSpace(r[0]) && !IsSpace(r[|r| - 1]))
    ensures LeadingSpace(s) + |r| <= |s|
    ensures r == s[LeadingSpace(s)..LeadingSpace(s) + |r|]
    ensures forall i :: 0 <= i < LeadingSpace(s) ==> IsSpace(s[i])
    ensures forall i :: LeadingSpace(s) + |r| <= i < |s| ==> IsSpace(s[i])
  {
    var t := s[LeadingSpace(s)..];
    t[..|t| - TrailingSpace(t)]
  }

  /** `trim` takes nothing from a string of the shape "white space, then a word". */
  lemma {:induction false} TrimPadded(ws: string, x: string)
    requires forall i :: 0 <= i < |ws| ==> IsSpace(ws[i])
    requires |x| > 0 && !IsSpace(x[0]) && !IsSpace(x[|x| - 1])
    ensures Trim(ws + x) == x
  {
    LeadingPadded(ws, x);
  }

  lemma {:induction false} LeadingPadded(ws: string, x: string)
    requires forall i :: 0 <= i < |ws| ==> IsSpace(ws[i])
    requires |x| > 0 && !IsSpace(x[0])
    ensures LeadingSpace(ws + x) == |ws|
  {
    if ws != [] {
      assert (ws + x)[1..] == ws[1..] + x;
      LeadingPadded(ws[1..], x);
    }
  }

  /** What the trimmed text contains, the untrimmed text contains. */
  lemma TrimContains(s: string, p: string)
    ensures Contains(Trim(s), p) ==> Contains(s, p)
  {
    if Contains(Trim(s), p) {
      ContainsSlice(s, LeadingSpace(s), LeadingSpace(s) + |Trim(s)|, p);
    }
  }

  /** A text that lacks `p` has no line that contains it. */
  lemma LinesLack(s: string, p: string)
    ensures !Contains(s, p) ==> forall k :: 0 <= k < |Lines(s)| ==> !Contains(Lines(s)[k], p)
  {
    forall k | 0 <= k < |Lines(s)| && Contains(Lines(s)[k], p) ensures Contains(s, p) {
      LineInText(s, k, p);
    }
  }
}
