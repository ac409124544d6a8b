/**
  String helpers that the JavaScript code gets from its runtime: the `\s` class and
  `trim`, ASCII `toLowerCase`, `replace(/\s+/g, ' ')`, `join`, `split` and the
  decimal rendering of a non-negative integer in a template literal.
*/
module Text {

  /** ASCII whitespace: the characters of `\s` and of `trim` that this model keeps. */
  predicate IsSpace(c: char) {
    c == ' ' || c == '\t' || c == '\n' || c == '\r' || c == '\U{000B}' || c == '\U{000C}'
  }

  predicate AllSpace(s: string) {
    forall i :: 0 <= i < |s| ==> IsSpace(s[i])
  }

  /** `p` occurs in `s` at some offset. */
  predicate Contains(s: string, p: string) {
    exists i :: 0 <= i <= |s| - |p| && OccursAt(s, p, i)
  }

  predicate OccursAt(s: string, p: string, i: int) {
    0 <= i <= |s| - |p| && s[i..i + |p|] == p
  }

  function TrimStart(s: string): (r: string)
    ensures |r| <= |s|
    ensures r == [] || !IsSpace(r[0])
    ensures AllSpace(s[..|s| - |r|])
  {
    if s != [] && IsSpace(s[0]) then TrimStart(s[1..]) else s
  }

  function TrimEnd(s: string): (r: string)
    ensures |r| <= |s|
    ensures r == [] || !IsSpace(r[|r| - 1])
    ensures AllSpace(s[|r|..])
  {
    if s != [] && IsSpace(s[|s| - 1]) then TrimEnd(s[..|s| - 1]) else s
  }

  /** What `TrimStart` keeps is the end of its input. */
  lemma {:induction false} TrimStartIsSuffix(s: string)
    ensures TrimStart(s) == s[|s| - |TrimStart(s)|..]
    decreases |s|
  {
    if s != [] && IsSpace(s[0]) {
      TrimStartIsSuffix(s[1..]);
      assert s[1..][|s| - 1 - |TrimStart(s)|..] == s[|s| - |TrimStart(s)|..];
    }
  }

  /** What `TrimEnd` keeps is the start of its input. */
  lemma {:induction false} TrimEndIsPrefix(s: string)
    ensures TrimEnd(s) == s[..|TrimEnd(s)|]
    decreases |s|
  {
    if s != [] && IsSpace(s[|s| - 1]) {
      TrimEndIsPrefix(s[..|s| - 1]);
      assert s[..|s| - 1][..|TrimEnd(s)|] == s[..|TrimEnd(s)|];
    }
  }

  /** `String.prototype.trim`: drop the whitespace at both ends. */
  function Trim(s: string): (r: string)
    ensures |r| <= |s|
    ensures r == [] || (!IsSpace(r[0]) && !IsSpace(r[|r| - 1]))
    ensures r == [] <==> AllSpace(s)
  {
    var t := TrimStart(s);
    assert t == [] ==> AllSpace(s) by {
      if t == [] { assert s == s[..|s|]; }
    }
    assert t != [] ==> !AllSpace(s) by {
      if t != [] { TrimStartIsSuffix(s); assert t[0] == s[|s| - |t|]; }
    }
    TrimEndIsPrefix(t);
    TrimEnd(t)
  }

  /** Trimming keeps one contiguous stretch of the input and drops only whitespace before
      and after it. */
  lemma TrimIsInner(s: string)
    ensures var i := |s| - |TrimStart(s)|;
      && i + |Trim(s)| <= |s|
      && Trim(s) == s[i..i + |Trim(s)|]
      && AllSpace(s[..i]) && AllSpace(s[i + |Trim(s)|..])
  {
    var t := TrimStart(s);
    var i := |s| - |t|;
    var r := TrimEnd(t);
    assert Trim(s) == r;
    TrimStartIsSuffix(s);
    TrimEndIsPrefix(t);
    SliceOfSuffix(s, i, |r|);
    assert AllSpace(t[|r|..]);
  }

  /** Slicing the end of a sequence is slicing the sequence, shifted. */
  lemma SliceOfSuffix<T>(s: seq<T>, i: nat, n: nat)
    requires i + n <= |s|
    ensures s[i..][..n] == s[i..i + n] && s[i..][n..] == s[i + n..]
  {
  }

  /** A whitespace run in front of text that does not start with whitespace is all that
      `TrimStart` removes. */
  lemma {:induction false} TrimStartAfterRun(w: string, b: string)
    requires AllSpace(w) && (b == [] || !IsSpace(b[0]))
    ensures TrimStart(w + b) == b
    decreases |w|
  {
    if w == [] {
      assert w + b == b;
    } else {
      assert (w + b)[0] == w[0];
      assert (w + b)[1..] == w[1..] + b;
      TrimStartAfterRun(w[1..], b);
    }
  }

  /** `TrimStart` stops inside text that ends with a non-space, whatever follows it. */
  lemma {:induction false} TrimStartConcat(x: string, b: string)
    requires x != [] && !IsSpace(x[|x| - 1])
    ensures TrimStart(x + b) == TrimStart(x) + b
    decreases |x|
  {
    assert (x + b)[0] == x[0];
    if IsSpace(x[0]) {
      assert (x + b)[1..] == x[1..] + b;
      TrimStartConcat(x[1..], b);
    }
  }

  /** `TrimEnd` stops inside text that starts with a non-space, whatever precedes it. */
  lemma {:induction false} TrimEndConcat(a: string, y: string)
    requires y != [] && !IsSpace(y[0])
    ensures TrimEnd(a + y) == a + TrimEnd(y)
    decreases |y|
  {
    assert (a + y)[|a + y| - 1] == y[|y| - 1];
    if IsSpace(y[|y| - 1]) {
      assert (a + y)[..|a + y| - 1] == a + y[..|y| - 1];
      TrimEndConcat(a, y[..|y| - 1]);
    }
  }

  lemma {:induction false} NonSpaceTrimEnd(s: string)
    ensures NonSpace(TrimEnd(s)) == NonSpace(s)
    decreases |s|
  {
    if s != [] && IsSpace(s[|s| - 1]) {
      var init := s[..|s| - 1];
      NonSpaceTrimEnd(init);
      assert s == init + [s[|s| - 1]];
      NonSpaceConcat(init, [s[|s| - 1]]);
    }
  }

  /** Trimming removes nothing but whitespace. */
  lemma TrimKeepsText(s: string)
    ensures NonSpace(Trim(s)) == NonSpace(s)
  {
    NonSpaceTrimStart(s);
    NonSpaceTrimEnd(TrimStart(s));
  }

  /** Trimming a string that neither starts nor ends with whitespace changes nothing. */
  lemma TrimOfTrimmed(s: string)
    requires s == [] || (!IsSpace(s[0]) && !IsSpace(s[|s| - 1]))
    ensures Trim(s) == s
  {
  }

  function LowerChar(c: char): char {
    if 'A' <= c <= 'Z' then (c as int + 32) as char else c
  }

  /** ASCII `toLowerCase`: each letter A-Z becomes a-z, every other character is kept. */
  function ToLower(s: string): (r: string)
    ensures |r| == |s|
    ensures forall i :: 0 <= i < |s| ==> r[i] == LowerChar(s[i])
    ensures forall i :: 0 <= i < |s| ==> !('A' <= r[i] <= 'Z')
    ensures forall i :: 0 <= i < |s| ==> (IsSpace(r[i]) <==> IsSpace(s[i]))
  {
    if s == [] then [] else [LowerChar(s[0])] + ToLower(s[1..])
  }

  /** `s` with every whitespace character removed: what whitespace rewriting must preserve. */
  function NonSpace(s: string): string {
    if s == [] then [] else (if IsSpace(s[0]) then [] else [s[0]]) + NonSpace(s[1..])
  }

  /** Two spaces in a row start at `i`. */
  predicate SpacePair(s: string, i: int)
    requires 0 <= i < |s| - 1
  {
    s[i] == ' ' && s[i + 1] == ' '
  }

  /** `replace(/\s+/g, ' ')`: every maximal run of whitespace becomes a single space. */
  function Collapse(s: string): string
    decreases |s|
  {
    if s == [] then []
    else if IsSpace(s[0]) then [' '] + Collapse(TrimStart(s[1..]))
    else [s[0]] + Collapse(s[1..])
  }

  /** Collapsing leaves single spaces as the only whitespace, never two in a row; it keeps the
      input empty or not, and whitespace at either end or not. */
  lemma CollapseShape(s: string)
    ensures var r := Collapse(s);
      && (forall i :: 0 <= i < |r| && IsSpace(r[i]) ==> r[i] == ' ')
      && (forall i :: 0 <= i < |r| - 1 ==> !SpacePair(r, i))
      && (r == [] <==> s == [])
      && (s != [] ==> (IsSpace(r[0]) <==> IsSpace(s[0])))
      && (s != [] ==> (IsSpace(r[|r| - 1]) <==> IsSpace(s[|s| - 1])))
  {
    CollapseSpaces(s);
    CollapseEnds(s);
  }

  /** The whitespace collapsing leaves is single plain spaces. */
  lemma {:induction false} CollapseSpaces(s: string)
    ensures var r := Collapse(s);
      && (forall i :: 0 <= i < |r| && IsSpace(r[i]) ==> r[i] == ' ')
      && (forall i :: 0 <= i < |r| - 1 ==> !SpacePair(r, i))
      && (r != [] && s != [] ==> (r[0] == ' ' <==> IsSpace(s[0])))
    decreases |s|
  {
    if s != [] {
      var t := if IsSpace(s[0]) then TrimStart(s[1..]) else s[1..];
      CollapseSpaces(t);
      if IsSpace(s[0]) {
        assert t == [] || !IsSpace(t[0]);
        ConsNoSpacePair(' ', Collapse(t));
      } else {
        ConsNoSpacePair(s[0], Collapse(t));
      }
    }
  }

  /** Collapsing keeps the input empty or not, and whitespace at either end or not. */
  lemma {:induction false} CollapseEnds(s: string)
    ensures var r := Collapse(s);
      && (r == [] <==> s == [])
      && (s != [] ==> (IsSpace(r[0]) <==> IsSpace(s[0])))
      && (s != [] ==> (IsSpace(r[|r| - 1]) <==> IsSpace(s[|s| - 1])))
    decreases |s|
  {
    if s != [] && IsSpace(s[0]) {
      var t := TrimStart(s[1..]);
      TrimStartIsSuffix(s[1..]);
      assert t != [] ==> t[|t| - 1] == s[|s| - 1];
      assert t == [] ==> IsSpace(s[|s| - 1]) by {
        if t == [] && |s| > 1 { assert s[|s| - 1] == s[1..][|s| - 2]; }
      }
      CollapseEnds(t);
    } else if s != [] {
      CollapseEnds(s[1..]);
    }
  }

  /** A character in front of a string without two spaces in a row adds none, unless it is
      a space in front of a space. */
  lemma ConsNoSpacePair(c: char, r: string)
    requires forall i :: 0 <= i < |r| - 1 ==> !SpacePair(r, i)
    requires c == ' ' && r != [] ==> r[0] != ' '
    ensures forall i :: 0 <= i < |[c] + r| - 1 ==> !SpacePair([c] + r, i)
  {
    var x := [c] + r;
    forall i | 0 <= i < |x| - 1
      ensures !SpacePair(x, i)
    {
      if i > 0 {
        assert x[i] == r[i - 1] && x[i + 1] == r[i];
        assert !SpacePair(r, i - 1);
      }
    }
  }

  /** Dropping the first character adds no two spaces in a row. */
  lemma TailNoSpacePair(x: string)
    requires x != []
    requires forall i :: 0 <= i < |x| - 1 ==> !SpacePair(x, i)
    ensures forall i :: 0 <= i < |x[1..]| - 1 ==> !SpacePair(x[1..], i)
  {
    forall i | 0 <= i < |x[1..]| - 1
      ensures !SpacePair(x[1..], i)
    {
      assert !SpacePair(x, i + 1);
    }
  }

  lemma {:induction false} NonSpaceConcat(a: string, b: string)
    ensures NonSpace(a + b) == NonSpace(a) + NonSpace(b)
  {
    if a != [] {
      assert (a + b)[1..] == a[1..] + b;
      NonSpaceConcat(a[1..], b);
    } else {
      assert a + b == b;
    }
  }

  lemma {:induction false} NonSpaceTrimStart(s: string)
    ensures NonSpace(TrimStart(s)) == NonSpace(s)
  {
    if s != [] && IsSpace(s[0]) {
      NonSpaceTrimStart(s[1..]);
    }
  }

  /** Collapsing whitespace keeps every other character, in order. */
  lemma {:induction false} CollapseKeepsText(s: string)
    ensures NonSpace(Collapse(s)) == NonSpace(s)
    decreases |s|
  {
    if s == [] {
    } else if IsSpace(s[0]) {
      var t := TrimStart(s[1..]);
      CollapseKeepsText(t);
      NonSpaceTrimStart(s[1..]);
      NonSpaceConcat([' '], Collapse(t));
    } else {
      CollapseKeepsText(s[1..]);
      NonSpaceConcat([s[0]], Collapse(s[1..]));
    }
  }

  /** Collapsing works piece by piece across a boundary that follows a non-space. */
  lemma {:induction false} CollapseConcat(a: string, b: string)
    requires a == [] || !IsSpace(a[|a| - 1])
    ensures Collapse(a + b) == Collapse(a) + Collapse(b)
    decreases |a|
  {
    if a == [] {
      assert a + b == b;
    } else {
      var tail := a[1..];
      ConsSplit(a, b);
      CollapseCons(a[0], tail + b);
      CollapseCons(a[0], tail);
      if IsSpace(a[0]) {
        var t := NonSpaceEndTrimmed(tail);
        TrimStartConcat(tail, b);
        CollapseConcat(t, b);
        SeqAssoc([' '], Collapse(t), Collapse(b));
      } else {
        CollapseConcat(tail, b);
        SeqAssoc([a[0]], Collapse(tail), Collapse(b));
      }
    }
  }

  /** `Collapse` one character at a time. */
  lemma CollapseCons(c: char, x: string)
    ensures Collapse([c] + x) == if IsSpace(c) then [' '] + Collapse(TrimStart(x)) else [c] + Collapse(x)
  {
    assert ([c] + x)[0] == c && ([c] + x)[1..] == x;
  }

  lemma ConsSplit(a: string, b: string)
    requires a != []
    ensures a + b == [a[0]] + (a[1..] + b) && a == [a[0]] + a[1..]
  {
  }

  /** What `TrimStart` keeps of text ending in a non-space still ends in that character. */
  lemma NonSpaceEndTrimmed(s: string) returns (t: string)
    requires s != [] && !IsSpace(s[|s| - 1])
    ensures t == TrimStart(s) && t != [] && !IsSpace(t[|t| - 1])
  {
    t := TrimStart(s);
    TrimStartIsSuffix(s);
    assert t[|t| - 1] == s[|s| - 1];
  }

  /** Each maximal whitespace run becomes exactly one space: the run `w` between text ending
      in a non-space and text starting with a non-space turns into " ". */
  lemma CollapseRun(a: string, w: string, b: string)
    requires a == [] || !IsSpace(a[|a| - 1])
    requires w != [] && AllSpace(w)
    requires b == [] || !IsSpace(b[0])
    ensures Collapse(a + w + b) == Collapse(a) + " " + Collapse(b)
  {
    CollapseConcat(a, w + b);
    CollapseLeadingRun(w, b);
    SeqAssoc(a, w, b);
    SeqAssoc(Collapse(a), " ", Collapse(b));
  }

  lemma SeqAssoc(x: string, y: string, z: string)
    ensures x + y + z == x + (y + z)
  {
  }

  /** A whitespace run in front of text that does not start with whitespace collapses to one
      space. */
  lemma CollapseLeadingRun(w: string, b: string)
    requires w != [] && AllSpace(w)
    requires b == [] || !IsSpace(b[0])
    ensures Collapse(w + b) == " " + Collapse(b)
  {
    assert (w + b)[0] == w[0] && (w + b)[1..] == w[1..] + b;
    TrimStartAfterRun(w[1..], b);
  }

  /** Text without whitespace is left alone by collapsing. */
  lemma {:induction false} CollapseWithoutSpace(s: string)
    requires forall i :: 0 <= i < |s| ==> !IsSpace(s[i])
    ensures Collapse(s) == s
    decreases |s|
  {
    if s != [] {
      assert forall i :: 0 <= i < |s[1..]| ==> s[1..][i] == s[i + 1];
      CollapseWithoutSpace(s[1..]);
      assert s == [s[0]] + s[1..];
    }
  }

  /** `parts.join(sep)`. */
  function Join(parts: seq<string>, sep: string): string {
    if |parts| == 0 then ""
    else if |parts| == 1 then parts[0]
    else parts[0] + sep + Join(parts[1..], sep)
  }

  /** `s.split(c)` for a one-character separator: the pieces between occurrences of `c`. */
  function Split(s: string, c: char): (r: seq<string>)
    ensures |r| >= 1
    ensures forall i :: 0 <= i < |r| ==> c !in r[i]
    ensures (|r| == 1) == (c !in s)
  {
    if s == [] then [""]
    else
      var rest := Split(s[1..], c);
      if s[0] == c then [""] + rest
      else [[s[0]] + rest[0]] + rest[1..]
  }

  /** Joining the pieces of a split with the separator gives back the string. */
  lemma {:induction false} JoinSplit(s: string, c: char)
    ensures Join(Split(s, c), [c]) == s
  {
    if s != [] {
      var rest := Split(s[1..], c);
      JoinSplit(s[1..], c);
      if s[0] == c {
        JoinAfterEmpty(rest, [c]);
      } else {
        JoinExtendFirst(s[0], rest, [c]);
      }
      assert s == [s[0]] + s[1..];
    }
  }

  /** An empty first piece leaves the join starting with the separator. */
  lemma JoinAfterEmpty(rest: seq<string>, sep: string)
    requires |rest| >= 1
    ensures Join([""] + rest, sep) == sep + Join(rest, sep)
  {
    var r := [""] + rest;
    assert r[0] == "" && r[1..] == rest;
    assert "" + sep == sep;
  }

  /** A character put in front of the first piece comes first in the join. */
  lemma JoinExtendFirst(x: char, rest: seq<string>, sep: string)
    requires |rest| >= 1
    ensures Join([[x] + rest[0]] + rest[1..], sep) == [x] + Join(rest, sep)
  {
    var r := [[x] + rest[0]] + rest[1..];
    if |rest| > 1 {
      assert r[0] == [x] + rest[0] && r[1..] == rest[1..];
      assert Join(r, sep) == ([x] + rest[0]) + sep + Join(rest[1..], sep);
    }
  }

  lemma {:induction false} SplitAfterPiece(p: string, t: string, c: char)
    requires c !in p
    ensures Split(p + t, c) == [p + Split(t, c)[0]] + Split(t, c)[1..]
  {
    if p != [] {
      var q, r := p + t, Split(t, c);
      assert q[0] == p[0] && q[0] != c;
      assert q[1..] == p[1..] + t;
      SplitAfterPiece(p[1..], t, c);
      var rest := Split(q[1..], c);
      assert rest == [p[1..] + r[0]] + r[1..];
      assert Split(q, c) == [[q[0]] + rest[0]] + rest[1..];
      assert [p[0]] + (p[1..] + r[0]) == p + r[0];
    } else {
      var r := Split(t, c);
      assert p + t == t;
      assert p + r[0] == r[0];
      assert r == [r[0]] + r[1..];
    }
  }

  /** Splitting a join of pieces free of the separator gives back the pieces. */
  lemma {:induction false} SplitJoin(parts: seq<string>, c: char)
    requires |parts| >= 1
    requires forall i :: 0 <= i < |parts| ==> c !in parts[i]
    ensures Split(Join(parts, [c]), c) == parts
  {
    if |parts| == 1 {
      SplitAfterPiece(parts[0], "", c);
      assert parts[0] + "" == parts[0];
    } else {
      var tail := Join(parts[1..], [c]);
      SplitJoin(parts[1..], c);
      assert Join(parts, [c]) == parts[0] + ([c] + tail);
      SplitAfterPiece(parts[0], [c] + tail, c);
      assert ([c] + tail)[1..] == tail;
      assert Split([c] + tail, c) == [""] + parts[1..];
      assert parts[0] + "" == parts[0];
      assert [parts[0]] + parts[1..] == parts;
    }
  }

  predicate IsDigit(c: char) {
    '0' <= c <= '9'
  }

  function DigitChar(d: nat): (c: char)
    requires d < 10
    ensures IsDigit(c) && c as int - '0' as int == d
  {
    ('0' as int + d) as char
  }

  /** The decimal text of `n`, as a template literal renders a non-negative integer. */
  function NatToString(n: nat): (s: string)
    ensures |s| >= 1
    ensures forall i :: 0 <= i < |s| ==> IsDigit(s[i])
    ensures |s| > 1 ==> s[0] != '0'
    decreases n
  {
    if n < 10 then [DigitChar(n)] else NatToString(n / 10) + [DigitChar(n % 10)]
  }

  /** The value of a non-empty string of decimal digits. */
  function DigitsValue(s: string): nat
    requires |s| >= 1
    requires forall i :: 0 <= i < |s| ==> IsDigit(s[i])
  {
    assert IsDigit(s[|s| - 1]);
    var last: nat := s[|s| - 1] as int - '0' as int;
    if |s| == 1 then last else DigitsValue(s[..|s| - 1]) * 10 + last
  }

  /** Reading back the rendering of `n` gives `n`; so the rendering is injective. */
  lemma {:induction false} NatToStringRoundTrip(n: nat)
    ensures DigitsValue(NatToString(n)) == n
    decreases n
  {
    if n >= 10 {
      NatToStringRoundTrip(n / 10);
      var s := NatToString(n);
      assert s[..|s| - 1] == NatToString(n / 10);
    }
  }

  lemma NatToStringInjective(m: nat, n: nat)
    requires NatToString(m) == NatToString(n)
    ensures m == n
  {
    NatToStringRoundTrip(m);
    NatToStringRoundTrip(n);
  }
}
