/** Trimming, splitting, joining and lower-casing of texts, as the JavaScript string methods do it. */
module Texts {

  predicate IsSpace(c: char) {
    c == ' ' || '\t' <= c <= '\r' || c == '\U{00A0}' || c == '\U{1680}' || '\U{2000}' <= c <= '\U{200A}'
    || c == '\U{2028}' || c == '\U{2029}' || c == '\U{202F}' || c == '\U{205F}' || c == '\U{3000}' || c == '\U{FEFF}'
  }

  function TrimLeft(s: string): string {
    if s != "" && IsSpace(s[0]) then TrimLeft(s[1..]) else s
  }

  function TrimRight(s: string): string {
    if s != "" && IsSpace(s[|s| - 1]) then TrimRight(s[..|s| - 1]) else s
  }

  function Trim(s: string): string {
    TrimRight(TrimLeft(s))
  }

  predicate Trimmed(s: string) {
    s != "" ==> !IsSpace(s[0]) && !IsSpace(s[|s| - 1])
  }

  /** `text.split(/\r?\n/)` */
  function SplitLines(s: string): (r: seq<string>)
    ensures r != []
    ensures forall l :: l in r ==> '\n' !in l
    decreases |s|
  {
    if s == "" then [""]
    else if s[0] == '\n' then [""] + SplitLines(s[1..])
    else if |s| > 1 && s[0] == '\r' && s[1] == '\n' then [""] + SplitLines(s[2..])
    else
      var rest := SplitLines(s[1..]);
      [[s[0]] + rest[0]] + rest[1..]
  }

  /** `lines.join("\n")` */
  function JoinLines(lines: seq<string>): string {
    if lines == [] then ""
    else if |lines| == 1 then lines[0]
    else lines[0] + "\n" + JoinLines(lines[1..])
  }

  /** No carriage return stands before a line feed. */
  predicate PlainBreaks(s: string) {
    forall i :: 0 <= i < |s| - 1 && s[i] == '\r' ==> s[i + 1] != '\n'
  }

  // ---------------------------------------------------------------- trimming

  lemma {:induction false} TrimLeftSuffix(s: string)
    ensures |TrimLeft(s)| <= |s| && TrimLeft(s) == s[|s| - |TrimLeft(s)|..]
    ensures TrimLeft(s) != "" ==> !IsSpace(TrimLeft(s)[0])
  {
    if s != "" && IsSpace(s[0]) {
      TrimLeftSuffix(s[1..]);
    }
  }

  lemma {:induction false} TrimRightPrefix(s: string)
    ensures TrimRight(s) <= s
    ensures TrimRight(s) != "" ==> !IsSpace(TrimRight(s)[|TrimRight(s)| - 1])
  {
    if s != "" && IsSpace(s[|s| - 1]) {
      TrimRightPrefix(s[..|s| - 1]);
    }
  }

  lemma TrimIsTrimmed(s: string)
    ensures Trimmed(Trim(s))
    ensures forall c :: c in Trim(s) ==> c in s
  {
    TrimLeftSuffix(s);
    TrimRightPrefix(TrimLeft(s));
  }

  /** White space around a trimmed text is what `trim` removes. */
  lemma {:induction false} TrimAround(a: string, t: string, b: string)
    requires Trimmed(t) && t != ""
    requires forall c :: c in a || c in b ==> IsSpace(c)
    ensures Trim(a + t + b) == t
    decreases |a| + |b|
  {
    var s := a + t + b;
    if a != "" {
      assert a[0] in a;
      assert s[0] == a[0] && s[1..] == a[1..] + t + b;
      TrimAround(a[1..], t, b);
    } else if b != "" {
      var last := b[|b| - 1];
      assert last in b && s == t + b && TrimLeft(s) == s && TrimLeft(t + b[..|b| - 1]) == t + b[..|b| - 1];
      assert s[|s| - 1] == last && s[..|s| - 1] == t + b[..|b| - 1];
      assert [] + t + b[..|b| - 1] == t + b[..|b| - 1];
      TrimAround(a, t, b[..|b| - 1]);
    } else {
      assert s == t;
    }
  }

  // ------------------------------------------------------ splitting, joining

  lemma SplitUnfolds(s: string)
    ensures SplitLines(s) ==
            if s == "" then [""]
            else if s[0] == '\n' then [""] + SplitLines(s[1..])
            else if |s| > 1 && s[0] == '\r' && s[1] == '\n' then [""] + SplitLines(s[2..])
            else [[s[0]] + SplitLines(s[1..])[0]] + SplitLines(s[1..])[1..]
  {
  }

  lemma {:induction false} SplitAtBreak(a: string, b: string)
    requires a == "" || a[|a| - 1] != '\r'
    ensures SplitLines(a + "\n" + b) == SplitLines(a) + SplitLines(b)
    decreases |a|
  {
    hide SplitLines;
    var s := a + "\n" + b;
    SplitUnfolds(s);
    SplitUnfolds(a);
    if a == "" {
      assert s[1..] == b;
    } else if a[0] == '\n' {
      assert s[1..] == a[1..] + "\n" + b;
      SplitAtBreak(a[1..], b);
    } else if |a| > 1 && a[0] == '\r' && a[1] == '\n' {
      assert s[2..] == a[2..] + "\n" + b;
      SplitAtBreak(a[2..], b);
    } else {
      assert s[1..] == a[1..] + "\n" + b;
      SplitAtBreak(a[1..], b);
    }
  }

  lemma {:induction false} SplitOneLine(a: string)
    requires '\n' !in a
    ensures SplitLines(a) == [a]
  {
    if a != "" {
      SplitOneLine(a[1..]);
      assert [a[0]] + a[1..] == a;
    }
  }

  lemma {:induction false} JoinSplit(s: string)
    requires PlainBreaks(s)
    ensures JoinLines(SplitLines(s)) == s
    decreases |s|
  {
    if s != "" {
      assert PlainBreaks(s[1..]);
      JoinSplit(s[1..]);
      var rest := SplitLines(s[1..]);
      if s[0] == '\n' {
        assert ([""] + rest)[1..] == rest;
        assert s == "\n" + s[1..];
      } else {
        assert ([[s[0]] + rest[0]] + rest[1..])[1..] == rest[1..];
        assert s == [s[0]] + s[1..];
      }
    }
  }

  lemma {:induction false} JoinAppend(a: seq<string>, b: seq<string>)
    requires a != [] && b != []
    ensures JoinLines(a + b) == JoinLines(a) + "\n" + JoinLines(b)
  {
    if |a| > 1 {
      assert (a + b)[1..] == a[1..] + b;
      JoinAppend(a[1..], b);
    } else {
      assert (a + b)[1..] == b;
    }
  }

  lemma {:induction false} SplitJoin(lines: seq<string>)
    requires lines != [] && forall l :: l in lines ==> '\n' !in l && '\r' !in l
    ensures SplitLines(JoinLines(lines)) == lines
  {
    assert lines[0] in lines;
    SplitOneLine(lines[0]);
    if |lines| > 1 {
      SplitJoin(lines[1..]);
      SplitAtBreak(lines[0], JoinLines(lines[1..]));
      assert [lines[0]] + lines[1..] == lines;
    }
  }

  predicate Blank(s: string) {
    forall i :: 0 <= i < |s| ==> IsSpace(s[i])
  }

  lemma {:induction false} BlankTrims(s: string)
    requires Blank(s)
    ensures TrimLeft(s) == "" && TrimRight(s) == "" && Trim(s) == ""
    decreases |s|
  {
    if s != "" {
      BlankTrims(s[1..]);
      BlankTrims(s[..|s| - 1]);
    }
  }

  /** The white space that trimming on the right removes. */
  lemma {:induction false} TrimRightTail(s: string)
    ensures TrimRight(s) <= s && Blank(s[|TrimRight(s)|..])
    ensures TrimRight(s) == "" <==> Blank(s)
    decreases |s|
  {
    TrimRightPrefix(s);
    if s != "" && IsSpace(s[|s| - 1]) {
      var t := s[..|s| - 1];
      TrimRightTail(t);
      assert s[|TrimRight(t)|..] == t[|TrimRight(t)|..] + [s[|s| - 1]];
      assert Blank(t) <==> Blank(s) by {
        assert s == t + [s[|s| - 1]];
      }
    } else if s != "" {
      assert !Blank(s);
    }
  }

  lemma {:induction false} TrimRightAppend(a: string, b: string)
    ensures TrimRight(a + b) == if Blank(b) then TrimRight(a) else a + TrimRight(b)
    decreases |b|
  {
    if b == "" {
      assert a + b == a;
    } else {
      var last, front := b[|b| - 1], b[..|b| - 1];
      assert (a + b)[|a + b| - 1] == last && (a + b)[..|a + b| - 1] == a + front;
      assert b == front + [last];
      if IsSpace(last) {
        TrimRightAppend(a, front);
        assert Blank(b) <==> Blank(front);
      } else {
        assert !Blank(b);
        assert TrimRight(a + b) == a + b && TrimRight(b) == b;
      }
    }
  }

  lemma {:induction false} TrimLeftAppend(a: string, b: string)
    requires Blank(a)
    ensures TrimLeft(a + b) == TrimLeft(b)
  {
    if a == "" {
      assert a + b == b;
    } else {
      assert (a + b)[1..] == a[1..] + b;
      TrimLeftAppend(a[1..], b);
    }
  }

  // ------------------------------------------------------- letters and names

  predicate IsLetter(c: char) {
    'a' <= c <= 'z' || 'A' <= c <= 'Z'
  }

  function LowerChar(c: char): char {
    if 'A' <= c <= 'Z' then c - 'A' + 'a' else c
  }

  /** ASCII lower-casing, which keeps every position. */
  function Lower(s: string): (r: string)
    ensures |r| == |s|
  {
    if s == "" then "" else [LowerChar(s[0])] + Lower(s[1..])
  }

  lemma {:induction false} LowerAt(s: string, i: nat)
    requires i < |s|
    ensures Lower(s)[i] == LowerChar(s[i])
  {
    if i > 0 {
      LowerAt(s[1..], i - 1);
    }
  }

  /** A text of 1 to 128 characters without NUL and line breaks. */
  predicate IsIdentifier(s: string) {
    0 < |s| <= 128 && forall i :: 0 <= i < |s| ==> s[i] != '\0' && s[i] != '\r' && s[i] != '\n'
  }

  /** Lower-case words and digits joined by single hyphens. */
  predicate IsKebab(s: string) {
    && s != "" && s[0] != '-' && s[|s| - 1] != '-'
    && (forall i :: 0 <= i < |s| ==> 'a' <= s[i] <= 'z' || '0' <= s[i] <= '9' || s[i] == '-')
    && forall i :: 0 <= i < |s| - 1 && s[i] == '-' ==> s[i + 1] != '-'
  }
}
