/** The string operations of JavaScript the components rely on. */
module Text {

  /** What `trim` and the regular-expression class \s take for white space. */
  predicate IsSpace(c: char) {
    || '\t' <= c <= '\r' || c == ' ' || c == '\U{00A0}' || c == '\U{1680}'
    || '\U{2000}' <= c <= '\U{200A}' || c == '\U{2028}' || c == '\U{2029}'
    || c == '\U{202F}' || c == '\U{205F}' || c == '\U{3000}' || c == '\U{FEFF}'
  }

  function TrimEnd(s: string): (r: string)
    ensures |r| <= |s| && r == s[..|r|]
    ensures r != [] ==> !IsSpace(r[|r| - 1])
  {
    if s != [] && IsSpace(s[|s| - 1]) then TrimEnd(s[..|s| - 1]) else s
  }

  function TrimStart(s: string): (r: string)
    ensures |r| <= |s|
    ensures r != [] ==> !IsSpace(r[0])
  {
    if s != [] && IsSpace(s[0]) then TrimStart(s[1..]) else s
  }

  function Trim(s: string): string {
    TrimEnd(TrimStart(s))
  }

  predicate Blank(s: string) {
    forall i :: 0 <= i < |s| ==> IsSpace(s[i])
  }

  /** The white space of ECMAScript, by code point: the controls, the no-break ones, and category Zs. */
  lemma SpaceIff(c: char)
    ensures IsSpace(c)
            <==> c as int in {0x09, 0x0A, 0x0B, 0x0C, 0x0D, 0x20, 0xA0, 0xFEFF, 0x1680, 0x2000, 0x2001, 0x2002, 0x2003,
                              0x2004, 0x2005, 0x2006, 0x2007, 0x2008, 0x2009, 0x200A, 0x2028, 0x2029, 0x202F, 0x205F,
                              0x3000}
  {
  }

  /** What is cut off an end is blank, and what is left does not end in white space. */
  ghost predicate IsEndTrimmed(s: string, r: string) {
    r <= s && Blank(s[|r|..]) && (r != [] ==> !IsSpace(r[|r| - 1]))
  }

  lemma {:induction false} TrimEndIff(s: string, r: string)
    ensures r == TrimEnd(s) <==> IsEndTrimmed(s, r)
  {
    TrimEndTrims(s);
    hide IsSpace;
    var t := TrimEnd(s);
    assert r <= s && |r| < |t| ==> s[|r|..][|t| - 1 - |r|] == t[|t| - 1];
    assert r <= s && |t| < |r| ==> s[|t|..][|r| - 1 - |t|] == r[|r| - 1];
  }

  lemma {:induction false} TrimEndTrims(s: string)
    ensures IsEndTrimmed(s, TrimEnd(s))
  {
    hide IsSpace;
    if s != [] && IsSpace(s[|s| - 1]) {
      var n := |s| - 1;
      TrimEndTrims(s[..n]);
      var r := TrimEnd(s[..n]);
      assert s[|r|..] == s[..n][|r|..] + [s[n]];
      BlankGrows(s[..n][|r|..], s[n]);
    }
  }

  lemma {:induction false} TrimStartTrims(s: string)
    ensures var r := TrimStart(s);
            && Blank(s[..|s| - |r|]) && r == s[|s| - |r|..] && (r != [] ==> !IsSpace(r[0]))
  {
    hide IsSpace;
    if s != [] && IsSpace(s[0]) {
      TrimStartTrims(s[1..]);
      var r := TrimStart(s);
      assert s[..|s| - |r|] == [s[0]] + s[1..][..|s| - 1 - |r|];
    }
  }

  /** `trim` cuts blanks off both ends, and nothing else. */
  lemma TrimIs(s: string)
    ensures exists i, j ::
              && 0 <= i <= j <= |s| && Trim(s) == s[i..j] && Blank(s[..i]) && Blank(s[j..])
              && (i < j ==> !IsSpace(s[i]) && !IsSpace(s[j - 1]))
  {
    TrimStartTrims(s);
    var r := TrimStart(s);
    TrimEndTrims(r);
    hide IsSpace, Blank, TrimStart, TrimEnd;
    var t := TrimEnd(r);
    var i := |s| - |r|;
    assert r[..|t|] == s[i..i + |t|] && r[|t|..] == s[i + |t|..];
    assert t != [] ==> t[0] == r[0] == s[i] && t[|t| - 1] == s[i + |t| - 1];
  }

  predicate AllBlank(parts: seq<string>) {
    forall k :: 0 <= k < |parts| ==> Blank(parts[k])
  }

  /** Nothing but white space and separators. */
  predicate BlankBut(s: string, sep: char) {
    forall i :: 0 <= i < |s| ==> s[i] == sep || IsSpace(s[i])
  }

  lemma {:induction false} EndsTrimmedAwayIff(s: string)
    ensures TrimEnd(s) == "" <==> Blank(s)
    ensures TrimStart(s) == "" <==> Blank(s)
    decreases |s|
  {
    hide IsSpace;
    if s != [] {
      EndsTrimmedAwayIff(s[..|s| - 1]);
      EndsTrimmedAwayIff(s[1..]);
    }
  }

  lemma TrimmedAwayIff(s: string)
    ensures Trim(s) == "" <==> Blank(s)
  {
    EndsTrimmedAwayIff(s);
    EndsTrimmedAwayIff(TrimStart(s));
    if TrimStart(s) != [] {
      assert !IsSpace(TrimStart(s)[0]);
    }
  }

  /** `split` at a one-character separator. */
  function SplitAt(s: string, sep: char): (parts: seq<string>)
    ensures |parts| > 0
  {
    if s == [] then [[]]
    else
      var n := |s| - 1;
      var parts := SplitAt(s[..n], sep);
      if s[n] == sep then parts + [[]] else parts[..|parts| - 1] + [parts[|parts| - 1] + [s[n]]]
  }

  /** A stretch between two separators or ends, with none inside. */
  ghost predicate IsPart(s: string, sep: char, i: int, j: int) {
    && 0 <= i <= j <= |s| && sep !in s[i..j]
    && (i == 0 || s[i - 1] == sep) && (j == |s| || s[j] == sep)
  }

  lemma PartGrows(s: string, sep: char, i: int)
    requires s != [] && s[|s| - 1] != sep && IsPart(s[..|s| - 1], sep, i, |s| - 1)
    ensures IsPart(s, sep, i, |s|) && s[i..] == s[..|s| - 1][i..] + [s[|s| - 1]]
  {
    assert s[i..|s|] == s[..|s| - 1][i..|s| - 1] + [s[|s| - 1]];
  }

  lemma SplitMore(s: string, sep: char)
    requires s != []
    ensures var n := |s| - 1; var parts := SplitAt(s[..n], sep); var last := |parts| - 1;
            SplitAt(s, sep) == if s[n] == sep then parts + [[]] else parts[..last] + [parts[last] + [s[n]]]
  {
  }

  lemma {:induction false} LastPart(s: string, sep: char)
    ensures var parts := SplitAt(s, sep); var part := parts[|parts| - 1];
            |part| <= |s| && part == s[|s| - |part|..] && IsPart(s, sep, |s| - |part|, |s|)
  {
    if s != [] {
      hide SplitAt;
      var n := |s| - 1;
      LastPart(s[..n], sep);
      SplitMore(s, sep);
      var parts := SplitAt(s[..n], sep);
      if s[n] != sep {
        hide IsPart;
        PartGrows(s, sep, n - |parts[|parts| - 1]|);
      }
    }
  }

  /** Only one part reaches the end. */
  lemma {:induction false} LastPartIsOne(s: string, sep: char, i: int)
    requires IsPart(s, sep, i, |s|)
    ensures var parts := SplitAt(s, sep); s[i..] == parts[|parts| - 1]
  {
    LastPart(s, sep);
    var parts := SplitAt(s, sep);
    var k := |s| - |parts[|parts| - 1]|;
    hide SplitAt;
    SeparatorInside(s, sep, i, k);
    SeparatorInside(s, sep, k, i);
  }

  lemma SeparatorInside(s: string, sep: char, i: int, k: int)
    ensures 0 <= i < k <= |s| && s[k - 1] == sep ==> sep in s[i..|s|]
  {
    assert 0 <= i < k <= |s| ==> s[i..|s|][k - 1 - i] == s[k - 1];
  }

  /** `part` ends before the end of `s`. */
  ghost predicate EndsBefore(s: string, sep: char, part: string) {
    exists i, j :: IsPart(s, sep, i, j) && j < |s| && part == s[i..j]
  }

  lemma PartOfMore(s: string, sep: char, i: int, j: int)
    requires s != [] && j < |s|
    ensures IsPart(s, sep, i, j) <==> IsPart(s[..|s| - 1], sep, i, j) && (j == |s| - 1 ==> s[j] == sep)
    ensures 0 <= i <= j ==> s[i..j] == s[..|s| - 1][i..j]
  {
    assert 0 <= i <= j ==> s[i..j] == s[..|s| - 1][i..j];
  }

  lemma {:induction false} EndsBeforeMore(s: string, sep: char, part: string)
    requires s != [] && EndsBefore(s, sep, part)
    ensures var n := |s| - 1; var parts := SplitAt(s[..n], sep);
            EndsBefore(s[..n], sep, part) || (s[n] == sep && part == parts[|parts| - 1])
  {
    hide SplitAt;
    var n := |s| - 1;
    var i, j :| IsPart(s, sep, i, j) && j < |s| && part == s[i..j];
    PartOfMore(s, sep, i, j);
    if j == n {
      LastPartIsOne(s[..n], sep, i);
      assert s[..n][i..] == s[..n][i..n];
    }
  }

  lemma {:induction false} EndsBeforeLess(s: string, sep: char, part: string)
    requires s != []
    requires var n := |s| - 1; var parts := SplitAt(s[..n], sep);
             EndsBefore(s[..n], sep, part) || (s[n] == sep && part == parts[|parts| - 1])
    ensures EndsBefore(s, sep, part)
  {
    hide SplitAt;
    var n := |s| - 1;
    if EndsBefore(s[..n], sep, part) {
      var i, j :| IsPart(s[..n], sep, i, j) && j < n && part == s[..n][i..j];
      PartOfMore(s, sep, i, j);
    } else {
      LastPart(s[..n], sep);
      PartOfMore(s, sep, n - |part|, n);
      assert s[..n][n - |part|..] == s[..n][n - |part|..n];
    }
  }

  lemma {:induction false} InitParts(s: string, sep: char, part: string)
    ensures var parts := SplitAt(s, sep); part in parts[..|parts| - 1] <==> EndsBefore(s, sep, part)
  {
    if s != [] {
      var n := |s| - 1;
      InitParts(s[..n], sep, part);
      if EndsBefore(s, sep, part) {
        EndsBeforeMore(s, sep, part);
      }
      var init := SplitAt(s[..n], sep);
      if EndsBefore(s[..n], sep, part) || (s[n] == sep && part == init[|init| - 1]) {
        EndsBeforeLess(s, sep, part);
      }
      hide EndsBefore;
      var before, parts := SplitAt(s[..n], sep), SplitAt(s, sep);
      if s[n] == sep {
        assert parts[..|parts| - 1] == before;
        assert before == before[..|before| - 1] + [before[|before| - 1]];
      } else {
        assert parts[..|parts| - 1] == before[..|before| - 1];
      }
    }
  }

  /** The parts of a split are those stretches. */
  lemma {:induction false} SplitIff(s: string, sep: char, part: string)
    ensures part in SplitAt(s, sep) <==> exists i, j :: IsPart(s, sep, i, j) && part == s[i..j]
  {
    InitParts(s, sep, part);
    LastPart(s, sep);
    var parts := SplitAt(s, sep);
    var last := parts[|parts| - 1];
    hide SplitAt;
    assert parts == parts[..|parts| - 1] + [last];
    assert last == s[|s| - |last|..|s|];
    if i, j :| IsPart(s, sep, i, j) && part == s[i..j] && j == |s| {
      LastPartIsOne(s, sep, i);
    }
  }

  lemma {:induction false} SomePartNotBlankIff(s: string, sep: char)
    ensures AllBlank(SplitAt(s, sep)) <==> BlankBut(s, sep)
  {
    hide Blank, AllBlank, BlankBut, IsSpace;
    if s == [] {
      NothingIsBlank(sep);
    } else {
      var n := |s| - 1;
      SomePartNotBlankIff(s[..n], sep);
      BlankButGrows(s, sep);
      var parts := SplitAt(s[..n], sep);
      var init, last := parts[..|parts| - 1], parts[|parts| - 1];
      if s[n] == sep {
        NothingIsBlank(sep);
        AllBlankGrows(parts, []);
      } else {
        assert parts == init + [last];
        AllBlankGrows(init, last);
        AllBlankGrows(init, last + [s[n]]);
        BlankGrows(last, s[n]);
      }
    }
  }

  lemma NothingIsBlank(sep: char)
    ensures Blank([]) && AllBlank([[]]) && BlankBut([], sep)
  {
  }

  lemma BlankGrows(s: string, c: char)
    ensures Blank(s + [c]) <==> Blank(s) && IsSpace(c)
  {
    hide IsSpace;
    assert (s + [c])[|s|] == c && forall i :: 0 <= i < |s| ==> (s + [c])[i] == s[i];
  }

  lemma BlankButGrows(s: string, sep: char)
    requires s != []
    ensures var n := |s| - 1; BlankBut(s, sep) <==> BlankBut(s[..n], sep) && (s[n] == sep || IsSpace(s[n]))
  {
    hide IsSpace;
    assert forall i :: 0 <= i < |s| - 1 ==> s[..|s| - 1][i] == s[i];
  }

  lemma AllBlankGrows(parts: seq<string>, part: string)
    ensures AllBlank(parts + [part]) <==> AllBlank(parts) && Blank(part)
  {
    hide Blank;
    assert (parts + [part])[|parts|] == part && forall k :: 0 <= k < |parts| ==> (parts + [part])[k] == parts[k];
  }

  /** `slice(0, end)`: a negative end counts back from the length. */
  function Head(s: string, end: int): (r: string)
    ensures |r| <= |s| && (end >= 0 ==> |r| <= end)
  {
    var e := if end < 0 then |s| + end else end;
    if e <= 0 then [] else if e >= |s| then s else s[..e]
  }

  /** `slice(0, end)` keeps a prefix: `end` characters, or all but `-end` of them. */
  lemma HeadIsPrefix(s: string, end: int)
    ensures Head(s, end) <= s
    ensures end >= 0 ==> |Head(s, end)| == if end <= |s| then end else |s|
    ensures end < 0 ==> |Head(s, end)| == if -end <= |s| then |s| + end else 0
  {
  }

  /** Lower case, one character at a time: Latin A-Z and the Russian alphabet. */
  function LowerChar(c: char): char {
    if 'A' <= c <= 'Z' || '\U{0410}' <= c <= '\U{042F}' then (c as int + 32) as char
    else if '\U{0400}' <= c <= '\U{040F}' then (c as int + 80) as char
    else c
  }

  function Lower(s: string): (r: string)
    ensures |r| == |s|
    ensures forall i :: 0 <= i < |s| ==> r[i] == LowerChar(s[i])
  {
    seq(|s|, i requires 0 <= i < |s| => LowerChar(s[i]))
  }

  lemma LowerConcat(a: string, b: string)
    ensures Lower(a + b) == Lower(a) + Lower(b)
  {
  }

  const CAPITALS: string := "ABCDEFGHIJKLMNOPQRSTUVWXYZ"
  const SMALL: string := "abcdefghijklmnopqrstuvwxyz"

  /** Each Latin capital becomes its small letter. */
  lemma LatinIsLowered(k: nat)
    requires k < 26
    ensures LowerChar(CAPITALS[k]) == SMALL[k]
  {
    LettersInOrder(k);
    hide CAPITALS, SMALL;
  }

  lemma LettersInOrder(k: nat)
    requires k < 26
    ensures CAPITALS[k] == ('A' as int + k) as char && SMALL[k] == ('a' as int + k) as char
  {
  }

  /** The Russian alphabet by code point: 32 letters side by side, and the block of the letter yo before them. */
  lemma RussianIsLowered(c: char)
    ensures 0x410 <= c as int < 0x430 ==> LowerChar(c) as int == c as int + 0x20
    ensures 0x400 <= c as int < 0x410 ==> LowerChar(c) as int == c as int + 0x50
  {
  }

  lemma OthersStay(c: char)
    ensures c in CAPITALS || 0x400 <= c as int < 0x430 || LowerChar(c) == c
  {
    assert forall k :: 0 <= k < 26 ==> CAPITALS[k] as int == 'A' as int + k;
    assert 'A' <= c <= 'Z' ==> CAPITALS[c as int - 'A' as int] == c;
  }
}
