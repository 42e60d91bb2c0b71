/**
 The bug-body canonicaliser: a line-by-line scan that collects three sections and
 prints them back in a fixed form. The check after publication re-normalises the
 stored body and compares, so what matters is which bodies it leaves alone.
 */
module BugBody {
  import opened Wrappers
  import opened Texts

  datatype Section = Observed | Expected | Reproduction

  /** An open fence: its character and the length of the run that opened it. */
  datatype Fence = Fence(character: char, length: nat)

  datatype Three<T> = Three(observed: T, expected: T, reproduction: T) {
    function Get(s: Section): T {
      match s
      case Observed => observed
      case Expected => expected
      case Reproduction => reproduction
    }

    function Put(s: Section, value: T): Three<T> {
      match s
      case Observed => this.(observed := value)
      case Expected => this.(expected := value)
      case Reproduction => this.(reproduction := value)
    }
  }

  const PENDING: string := "_Pending — add before /pm:dev._"

  function Name(s: Section): string {
    match s
    case Observed => "Observed"
    case Expected => "Expected"
    case Reproduction => "Reproduction"
  }

  function Header(s: Section): string {
    "## " + Name(s)
  }

  // ------------------------------------------------------------- line forms

  function Leading(line: string): (k: nat)
    ensures k <= |line|
  {
    if line != "" && IsSpace(line[0]) then 1 + Leading(line[1..]) else 0
  }

  function RunLength(line: string, c: char): (k: nat)
    ensures k <= |line|
  {
    if line != "" && line[0] == c then 1 + RunLength(line[1..], c) else 0
  }

  /** The fence marker that a line starts with, after at most three white-space characters. */
  function Marker(line: string): Option<Fence> {
    var k := Leading(line);
    if k > 3 || k == |line| || (line[k] != '`' && line[k] != '~') || RunLength(line[k..], line[k]) < 3 then None
    else Some(Fence(line[k], RunLength(line[k..], line[k])))
  }

  /**
   The section that a heading line names. Second-level headings with another
   title and lines that are no headings are treated alike by the scan.
   */
  function HeadingOf(line: string): Option<Section> {
    if |line| < 3 || line[..2] != "##" || !IsSpace(line[2]) then None
    else
      var title := Trim(line[2..]);
      if title == Name(Observed) then Some(Observed)
      else if title == Name(Expected) then Some(Expected)
      else if title == Name(Reproduction) then Some(Reproduction)
      else None
  }

  /** A line closes an open fence with a run of the same character at least as long; outside it may open one. */
  function FenceAfter(fence: Option<Fence>, line: string): Option<Fence> {
    var marker := Marker(line);
    match fence
    case None => marker
    case Some(f) =>
      if marker.Some? && marker.value.character == f.character && marker.value.length >= f.length then None else fence
  }

  // ---------------------------------------------------------------- scanning

  datatype Scan = Scan(active: Option<Section>, fence: Option<Fence>, content: Three<seq<string>>)

  const EMPTY_SCAN: Scan := Scan(None, None, Three([], [], []))

  function Push(scan: Scan, line: string): Scan {
    match scan.active
    case None => scan
    case Some(s) => scan.(content := scan.content.Put(s, scan.content.Get(s) + [line]))
  }

  function ScanLine(scan: Scan, line: string): Scan {
    if scan.fence.None? && Marker(line).None? && HeadingOf(line).Some? then
      scan.(active := HeadingOf(line))
    else
      Push(scan, line).(fence := FenceAfter(scan.fence, line))
  }

  function ScanLines(scan: Scan, lines: seq<string>): Scan
    decreases |lines|
  {
    if lines == [] then scan else ScanLines(ScanLine(scan, lines[0]), lines[1..])
  }

  function OrPending(text: string): string {
    if text == "" then PENDING else text
  }

  /** The section texts of a body, empty ones replaced by the placeholder. */
  function SectionTexts(value: string): Three<string> {
    var content := ScanLines(EMPTY_SCAN, SplitLines(Trim(value))).content;
    Three(OrPending(Trim(JoinLines(content.observed))),
          OrPending(Trim(JoinLines(content.expected))),
          OrPending(Trim(JoinLines(content.reproduction))))
  }

  function PrintTexts(texts: Three<string>): string {
    Header(Observed) + "\n\n" + texts.observed + "\n\n"
    + Header(Expected) + "\n\n" + texts.expected + "\n\n"
    + Header(Reproduction) + "\n\n" + texts.reproduction + "\n"
  }

  function Normalized(value: string): string {
    PrintTexts(SectionTexts(value))
  }

  lemma ScanNext(scan: Scan, lines: seq<string>, i: nat)
    requires i < |lines|
    ensures ScanLines(scan, lines[i..]) == ScanLines(ScanLine(scan, lines[i]), lines[i + 1..])
  {
    assert lines[i..][1..] == lines[i + 1..];
  }

  lemma NothingToScan(scan: Scan, lines: seq<string>)
    requires lines == []
    ensures ScanLines(scan, lines) == scan
  {
  }

  /** The loop of the source, with its three mutable variables. */
  method NormalizeBugBody(value: string) returns (output: string)
    ensures output == Normalized(value)
  {
    hide SplitLines;
    hide Trim;
    hide JoinLines;
    hide Header;
    hide Marker;
    hide HeadingOf;
    hide ScanLines;
    var lines := SplitLines(Trim(value));
    var content: Three<seq<string>> := Three([], [], []);
    var active: Option<Section> := None;
    var fence: Option<Fence> := None;
    for i := 0 to |lines|
      invariant ScanLines(EMPTY_SCAN, lines) == ScanLines(Scan(active, fence, content), lines[i..])
    {
      var line := lines[i];
      ScanNext(Scan(active, fence, content), lines, i);
      var marker := Marker(line);
      var heading := HeadingOf(line);
      if fence.Some? {
        if active.Some? {
          content := content.Put(active.value, content.Get(active.value) + [line]);
        }
        if marker.Some? && marker.value.character == fence.value.character
           && marker.value.length >= fence.value.length {
          fence := None;
        }
        continue;
      }
      if marker.Some? {
        if active.Some? {
          content := content.Put(active.value, content.Get(active.value) + [line]);
        }
        fence := marker;
        continue;
      }
      if heading.Some? {
        active := heading;
      } else if active.Some? {
        content := content.Put(active.value, content.Get(active.value) + [line]);
      }
    }
    NothingToScan(Scan(active, fence, content), lines[|lines|..]);
    var observed := OrPending(Trim(JoinLines(content.observed)));
    var expected := OrPending(Trim(JoinLines(content.expected)));
    var reproduction := OrPending(Trim(JoinLines(content.reproduction)));
    output := JoinLines([
      Header(Observed) + "\n\n" + observed, "",
      Header(Expected) + "\n\n" + expected, "",
      Header(Reproduction) + "\n\n" + reproduction]) + "\n";
    JoinedOutput(Three(observed, expected, reproduction));
  }

  /** The output array, joined, is the printed form. */
  lemma JoinedOutput(texts: Three<string>)
    ensures JoinLines([
              Header(Observed) + "\n\n" + texts.observed, "",
              Header(Expected) + "\n\n" + texts.expected, "",
              Header(Reproduction) + "\n\n" + texts.reproduction]) + "\n" == PrintTexts(texts)
  {
    JoinFive(Header(Observed) + "\n\n" + texts.observed, Header(Expected) + "\n\n" + texts.expected,
             Header(Reproduction) + "\n\n" + texts.reproduction);
  }

  lemma JoinFive(a: string, b: string, c: string)
    ensures JoinLines([a, "", b, "", c]) == a + "\n\n" + b + "\n\n" + c
  {
    JoinAppend([a, ""], [b, "", c]);
    JoinAppend([b, ""], [c]);
    JoinAppend([a], [""]);
    JoinAppend([b], [""]);
    assert [a, ""] + [b, "", c] == [a, "", b, "", c];
    assert [b, ""] + [c] == [b, "", c];
    assert [a] + [""] == [a, ""] && [b] + [""] == [b, ""];
  }

  // --------------------------------------------------- texts that read back

  /** Scanned inside a section, the lines meet no recognised heading outside a fence. */
  predicate KeepsSection(fence: Option<Fence>, lines: seq<string>)
    decreases |lines|
  {
    lines == []
    || (!(fence.None? && Marker(lines[0]).None? && HeadingOf(lines[0]).Some?)
        && KeepsSection(FenceAfter(fence, lines[0]), lines[1..]))
  }

  function FenceAtEnd(fence: Option<Fence>, lines: seq<string>): Option<Fence>
    decreases |lines|
  {
    if lines == [] then fence else FenceAtEnd(FenceAfter(fence, lines[0]), lines[1..])
  }

  /** A section text that the scan gives back as it is. */
  predicate SelfContained(text: string) {
    text != "" && Trimmed(text) && PlainBreaks(text) && KeepsSection(None, SplitLines(text))
  }

  /** Self-contained texts, of which only the last may leave a fence open. */
  predicate Canonical(texts: Three<string>) {
    && SelfContained(texts.observed) && FenceAtEnd(None, SplitLines(texts.observed)) == None
    && SelfContained(texts.expected) && FenceAtEnd(None, SplitLines(texts.expected)) == None
    && SelfContained(texts.reproduction)
  }

  lemma {:induction false} ScanAppend(scan: Scan, a: seq<string>, b: seq<string>)
    ensures ScanLines(scan, a + b) == ScanLines(ScanLines(scan, a), b)
    decreases |a|
  {
    if a == [] {
      assert a + b == b;
    } else {
      assert (a + b)[1..] == a[1..] + b;
      ScanAppend(ScanLine(scan, a[0]), a[1..], b);
    }
  }

  /** Lines that keep their section are all collected into it. */
  lemma {:induction false} ScanKeeps(scan: Scan, s: Section, lines: seq<string>)
    requires scan.active == Some(s) && KeepsSection(scan.fence, lines)
    ensures ScanLines(scan, lines)
            == Scan(Some(s), FenceAtEnd(scan.fence, lines), scan.content.Put(s, scan.content.Get(s) + lines))
    decreases |lines|
  {
    if lines == [] {
      assert scan.content.Get(s) + lines == scan.content.Get(s);
    } else {
      ScanKeeps(ScanLine(scan, lines[0]), s, lines[1..]);
      assert scan.content.Get(s) + [lines[0]] + lines[1..] == scan.content.Get(s) + lines;
    }
  }

  function Initial(s: Section): char {
    match s
    case Observed => 'O'
    case Expected => 'E'
    case Reproduction => 'R'
  }

  lemma NamesAreWords(s: Section)
    ensures Name(s) != "" && Name(s)[0] == Initial(s)
    ensures forall c :: c in Name(s) ==> !IsSpace(c)
  {
  }

  lemma HeaderShape(s: Section)
    ensures var line := Header(s);
            && |line| > 2 && line[0] == line[1] == '#' && line[2] == ' '
            && line[..2] == "##" && line[2..] == " " + Name(s) + ""
            && forall c :: c in line ==> c == '#' || c == ' ' || c in Name(s)
  {
  }

  lemma TitleNames(line: string, s: Section)
    requires |line| > 2 && line[..2] == "##" && IsSpace(line[2]) && Trim(line[2..]) == Name(s)
    ensures HeadingOf(line) == Some(s)
  {
    NamesAreWords(Observed);
    NamesAreWords(Expected);
    NamesAreWords(Reproduction);
  }

  lemma HeaderIsHeading(s: Section)
    ensures Marker(Header(s)) == None && HeadingOf(Header(s)) == Some(s)
    ensures SplitLines(Header(s)) == [Header(s)]
    ensures '\n' !in Header(s) && '\r' !in Header(s)
  {
    HeaderShape(s);
    NamesAreWords(s);
    assert Leading(Header(s)) == 0;
    TrimAround(" ", Name(s), "");
    TitleNames(Header(s), s);
    SplitOneLine(Header(s));
  }

  lemma BlankLine()
    ensures Marker("") == None && HeadingOf("") == None && SplitLines("") == [""]
  {
  }

  lemma ScanHeader(scan: Scan, s: Section, lines: seq<string>)
    requires scan.fence == None
    ensures ScanLines(scan, [Header(s)] + lines) == ScanLines(scan.(active := Some(s)), lines)
  {
    HeaderIsHeading(s);
    hide Header;
    hide HeadingOf;
    hide Marker;
    assert ([Header(s)] + lines)[1..] == lines;
  }

  lemma BlankFirst(lines: seq<string>)
    ensures KeepsSection(None, [""] + lines) == KeepsSection(None, lines)
    ensures FenceAtEnd(None, [""] + lines) == FenceAtEnd(None, lines)
  {
    BlankLine();
    hide HeadingOf;
    hide Marker;
    assert ([""] + lines)[1..] == lines;
  }

  /** A header and a text that keeps its section between blank lines, scanned outside a fence. */
  lemma ScanBlock(scan: Scan, s: Section, text: string)
    requires scan.fence == None && scan.content.Get(s) == [] && KeepsSection(None, SplitLines(text))
    ensures ScanLines(scan, [Header(s), ""] + SplitLines(text))
            == Scan(Some(s), FenceAtEnd(None, SplitLines(text)), scan.content.Put(s, [""] + SplitLines(text)))
  {
    hide Header;
    hide SplitLines;
    hide KeepsSection;
    hide FenceAtEnd;
    hide ScanLines;
    var lines := SplitLines(text);
    assert [Header(s), ""] + lines == [Header(s)] + ([""] + lines);
    ScanHeader(scan, s, [""] + lines);
    BlankFirst(lines);
    ScanKeeps(scan.(active := Some(s)), s, [""] + lines);
    assert [] + ([""] + lines) == [""] + lines;
  }

  lemma TwoBreaks(a: string, b: string)
    requires a == "" || a[|a| - 1] != '\r'
    ensures SplitLines(a + "\n\n" + b) == SplitLines(a) + ([""] + SplitLines(b))
  {
    hide SplitLines;
    var tail := "" + "\n" + b;
    assert a + "\n\n" + b == a + "\n" + tail;
    SplitAtBreak(a, tail);
    SplitAtBreak("", b);
    SplitOneLine("");
  }

  /** The text ends with a character that is no white space. */
  predicate EndsDark(text: string) {
    text != "" && !IsSpace(text[|text| - 1])
  }

  /** The lines of a printed block. */
  lemma SplitBlock(s: Section, text: string, rest: string)
    requires EndsDark(text)
    ensures SplitLines(Header(s) + "\n\n" + text) == [Header(s), ""] + SplitLines(text)
    ensures SplitLines(Header(s) + "\n\n" + text + "\n\n" + rest)
            == [Header(s), ""] + SplitLines(text) + [""] + SplitLines(rest)
  {
    assert text[|text| - 1] != '\r';
    hide SplitLines;
    hide Header;
    hide IsSpace;
    hide HeadingOf;
    hide Marker;
    HeaderIsHeading(s);
    TwoBreaks(Header(s), text);
    HeaderAndLines(Header(s), SplitLines(text));
    var block := Header(s) + "\n\n" + text;
    assert block[|block| - 1] == text[|text| - 1];
    TwoBreaks(block, rest);
    Reassociated([Header(s), ""] + SplitLines(text), [""], SplitLines(rest));
  }

  lemma HeaderAndLines(header: string, lines: seq<string>)
    ensures [header] + ([""] + lines) == [header, ""] + lines
  {
  }

  lemma Reassociated(a: seq<string>, b: seq<string>, c: seq<string>)
    ensures a + (b + c) == a + b + c
  {
  }

  /** Collected lines around a self-contained text print back to the text. */
  lemma CollectedText(text: string, blank: seq<string>)
    requires SelfContained(text) && (blank == [] || blank == [""])
    ensures OrPending(Trim(JoinLines([""] + SplitLines(text) + blank))) == text
  {
    var lines := SplitLines(text);
    JoinSplit(text);
    JoinAppend([""], lines);
    if blank == [""] {
      JoinAppend([""] + lines, [""]);
      TrimAround("\n", text, "\n");
    } else {
      assert [""] + lines + blank == [""] + lines;
      TrimAround("\n", text, "");
      assert "\n" + text + "" == "\n" + text;
    }
    assert "" + "\n" + text == "\n" + text;
    assert "\n" + text + "\n" == "\n" + text + "\n" + "";
  }

  function WithoutLastBreak(texts: Three<string>): string {
    Header(Observed) + "\n\n" + texts.observed + "\n\n"
    + (Header(Expected) + "\n\n" + texts.expected + "\n\n"
       + (Header(Reproduction) + "\n\n" + texts.reproduction))
  }

  /** The lines of a printed body. */
  lemma PrintedLines(texts: Three<string>)
    requires forall s :: EndsDark(texts.Get(s))
    ensures SplitLines(Trim(PrintTexts(texts)))
            == [Header(Observed), ""] + SplitLines(texts.observed) + [""]
               + ([Header(Expected), ""] + SplitLines(texts.expected) + [""]
                  + ([Header(Reproduction), ""] + SplitLines(texts.reproduction)))
  {
    hide SplitLines;
    hide HeadingOf;
    hide Marker;
    hide Trim;
    hide IsSpace;
    var body := WithoutLastBreak(texts);
    assert EndsDark(texts.Get(Observed)) && EndsDark(texts.Get(Expected)) && EndsDark(texts.Get(Reproduction));
    PrintedIsTrimmed(texts);
    hide Header;
    var r := Header(Reproduction) + "\n\n" + texts.reproduction;
    var e := Header(Expected) + "\n\n" + texts.expected + "\n\n" + r;
    SplitBlock(Reproduction, texts.reproduction, "");
    SplitBlock(Expected, texts.expected, r);
    SplitBlock(Observed, texts.observed, e);
  }

  lemma PrintedIsTrimmed(texts: Three<string>)
    requires EndsDark(texts.reproduction)
    ensures Trim(PrintTexts(texts)) == WithoutLastBreak(texts)
  {
    hide Trim;
    HeaderShape(Observed);
    hide Header;
    var body := WithoutLastBreak(texts);
    var front := Header(Observed) + "\n\n" + texts.observed + "\n\n";
    var next := Header(Expected) + "\n\n" + texts.expected + "\n\n";
    Regrouped(front, next, Header(Reproduction) + "\n\n", texts.reproduction);
    assert body[0] == Header(Observed)[0];
    assert '#' == body[0] && !IsSpace('#');
    TrimAround("", body, "\n");
    assert "" + body + "\n" == body + "\n";
    PrintedFlat(texts);
  }

  lemma PrintedFlat(texts: Three<string>)
    ensures PrintTexts(texts) == WithoutLastBreak(texts) + "\n"
  {
    hide Header;
  }

  /** What ends the last part ends the whole. */
  lemma Regrouped(a: string, b: string, c: string, d: string)
    requires EndsDark(d)
    ensures EndsDark(a + (b + (c + d)))
  {
  }

  /** One block and the blank line after it. */
  lemma ScanBlockAndBlank(scan: Scan, s: Section, text: string)
    requires scan.fence == None && scan.content.Get(s) == []
    requires KeepsSection(None, SplitLines(text)) && FenceAtEnd(None, SplitLines(text)) == None
    ensures ScanLines(scan, [Header(s), ""] + SplitLines(text) + [""])
            == Scan(Some(s), None, scan.content.Put(s, [""] + SplitLines(text) + [""]))
  {
    ScanBlock(scan, s, text);
    BlankLine();
    ScanAppend(scan, [Header(s), ""] + SplitLines(text), [""]);
    var after := Scan(Some(s), None, scan.content.Put(s, [""] + SplitLines(text)));
    assert ScanLines(after, [""]) == ScanLine(after, "");
  }

  /** A printed body whose texts keep their section, and of which only the last may leave a fence open. */
  lemma ScanPrinted(texts: Three<string>)
    requires forall s :: EndsDark(texts.Get(s)) && KeepsSection(None, SplitLines(texts.Get(s)))
    requires FenceAtEnd(None, SplitLines(texts.observed)) == None
    requires FenceAtEnd(None, SplitLines(texts.expected)) == None
    ensures ScanLines(EMPTY_SCAN, SplitLines(Trim(PrintTexts(texts)))).content
            == Three([""] + SplitLines(texts.observed) + [""], [""] + SplitLines(texts.expected) + [""],
                     [""] + SplitLines(texts.reproduction))
  {
    PrintedLines(texts);
    assert KeepsSection(None, SplitLines(texts.Get(Observed))) && KeepsSection(None, SplitLines(texts.Get(Expected)))
           && KeepsSection(None, SplitLines(texts.Get(Reproduction)));
    hide Header;
    hide SplitLines;
    hide KeepsSection;
    hide FenceAtEnd;
    hide ScanLines;
    var lo, le, lr := SplitLines(texts.observed), SplitLines(texts.expected), SplitLines(texts.reproduction);
    var bo := [Header(Observed), ""] + lo + [""];
    var be := [Header(Expected), ""] + le + [""];
    var br := [Header(Reproduction), ""] + lr;
    ScanBlockAndBlank(EMPTY_SCAN, Observed, texts.observed);
    ScanAppend(EMPTY_SCAN, bo, be + br);
    var afterO := Scan(Some(Observed), None, Three([""] + lo + [""], [], []));
    ScanBlockAndBlank(afterO, Expected, texts.expected);
    ScanAppend(afterO, be, br);
    var afterE := Scan(Some(Expected), None, Three([""] + lo + [""], [""] + le + [""], []));
    ScanBlock(afterE, Reproduction, texts.reproduction);
  }

  /** Canonical texts survive being printed and parsed. */
  lemma ReadsBack(texts: Three<string>)
    requires Canonical(texts)
    ensures SectionTexts(PrintTexts(texts)) == texts
  {
    hide PrintTexts;
    hide SplitLines;
    hide KeepsSection;
    hide FenceAtEnd;
    hide ScanLines;
    hide OrPending;
    hide JoinLines;
    hide Trim;
    hide IsSpace;
    hide PlainBreaks;
    forall s
      ensures EndsDark(texts.Get(s)) && KeepsSection(None, SplitLines(texts.Get(s)))
    {
    }
    ScanPrinted(texts);
    CollectedText(texts.observed, [""]);
    CollectedText(texts.expected, [""]);
    CollectedText(texts.reproduction, []);
    assert [""] + SplitLines(texts.reproduction) + [] == [""] + SplitLines(texts.reproduction);
  }

  // ------------------------------------------------- counting characters

  datatype Kind = Dark | Underscore | Return

  predicate Counts(kind: Kind, c: char) {
    match kind
    case Dark => !IsSpace(c)
    case Underscore => c == '_'
    case Return => c == '\r'
  }

  function Count(kind: Kind, text: string): nat {
    if text == "" then 0 else (if Counts(kind, text[0]) then 1 else 0) + Count(kind, text[1..])
  }

  function CountAll(kind: Kind, lines: seq<string>): nat {
    if lines == [] then 0 else Count(kind, lines[0]) + CountAll(kind, lines[1..])
  }

  lemma {:induction false} CountAppend(kind: Kind, a: string, b: string)
    ensures Count(kind, a + b) == Count(kind, a) + Count(kind, b)
  {
    if a == "" {
      assert a + b == b;
    } else {
      assert (a + b)[1..] == a[1..] + b;
      CountAppend(kind, a[1..], b);
    }
  }

  lemma {:induction false} CountAllAppend(kind: Kind, a: seq<string>, b: seq<string>)
    ensures CountAll(kind, a + b) == CountAll(kind, a) + CountAll(kind, b)
  {
    if a == [] {
      assert a + b == b;
    } else {
      assert (a + b)[1..] == a[1..] + b;
      CountAllAppend(kind, a[1..], b);
    }
  }

  lemma {:induction false} CountJoin(kind: Kind, lines: seq<string>)
    ensures Count(kind, JoinLines(lines)) == CountAll(kind, lines)
  {
    if |lines| > 1 {
      CountJoin(kind, lines[1..]);
      CountAppend(kind, lines[0] + "\n", JoinLines(lines[1..]));
      CountAppend(kind, lines[0], "\n");
    }
  }

  /** Splitting loses line feeds and the carriage returns before them, and nothing else. */
  lemma {:induction false} CountSplit(kind: Kind, text: string)
    ensures CountAll(kind, SplitLines(text)) <= Count(kind, text)
    ensures kind != Return ==> CountAll(kind, SplitLines(text)) == Count(kind, text)
    ensures kind == Return && !PlainBreaks(text) ==> CountAll(kind, SplitLines(text)) < Count(kind, text)
    decreases |text|
  {
    SplitUnfolds(text);
    hide SplitLines;
    if text == "" {
    } else if text[0] == '\n' {
      CountSplit(kind, text[1..]);
      assert ([""] + SplitLines(text[1..]))[1..] == SplitLines(text[1..]);
      PlainTail(text);
    } else if |text| > 1 && text[0] == '\r' && text[1] == '\n' {
      CountSplit(kind, text[2..]);
      assert ([""] + SplitLines(text[2..]))[1..] == SplitLines(text[2..]);
      assert text[1..][1..] == text[2..];
    } else {
      CountSplit(kind, text[1..]);
      var rest := SplitLines(text[1..]);
      var first := [text[0]] + rest[0];
      assert first[1..] == rest[0];
      assert ([first] + rest[1..])[1..] == rest[1..];
      PlainTail(text);
    }
  }

  lemma PlainTail(text: string)
    requires text != "" && !(|text| > 1 && text[0] == '\r' && text[1] == '\n')
    ensures PlainBreaks(text) <==> PlainBreaks(text[1..])
  {
    if PlainBreaks(text[1..]) {
      forall i | 0 <= i < |text| - 1 && text[i] == '\r'
        ensures text[i + 1] != '\n'
      {
        if i > 0 {
          assert text[1..][i - 1] == '\r';
        }
      }
    }
  }

  /** Trimming loses white space only. */
  lemma {:induction false} CountTrim(kind: Kind, text: string)
    ensures Count(kind, Trim(text)) <= Count(kind, text)
    ensures kind != Return ==> Count(kind, Trim(text)) == Count(kind, text)
    decreases |text|
  {
    if text != "" && IsSpace(text[0]) {
      CountTrim(kind, text[1..]);
    } else if text != "" && IsSpace(text[|text| - 1]) {
      var front := text[..|text| - 1];
      assert text == front + [text[|text| - 1]];
      CountAppend(kind, front, [text[|text| - 1]]);
      assert front != "" && TrimLeft(front) == front;
      CountTrim(kind, front);
    }
  }

  // ------------------------------------------------- what the scan keeps

  /** The heading lines that switch sections. */
  function Recognised(fence: Option<Fence>, lines: seq<string>): seq<string>
    decreases |lines|
  {
    if lines == [] then []
    else if Switches(fence, lines[0]) then [lines[0]] + Recognised(None, lines[1..])
    else Recognised(FenceAfter(fence, lines[0]), lines[1..])
  }

  predicate Switches(fence: Option<Fence>, line: string) {
    fence.None? && Marker(line).None? && HeadingOf(line).Some?
  }

  function ContentCount(kind: Kind, content: Three<seq<string>>): nat {
    CountAll(kind, content.observed) + CountAll(kind, content.expected) + CountAll(kind, content.reproduction)
  }

  lemma PushCounts(kind: Kind, content: Three<seq<string>>, s: Section, line: string)
    ensures ContentCount(kind, content.Put(s, content.Get(s) + [line]))
            == ContentCount(kind, content) + Count(kind, line)
  {
    CountAllAppend(kind, content.Get(s), [line]);
  }

  /** Inside a section every line is kept in some section or switches. */
  lemma {:induction false} ScanConserves(kind: Kind, scan: Scan, lines: seq<string>)
    requires scan.active.Some?
    ensures ContentCount(kind, ScanLines(scan, lines).content) + CountAll(kind, Recognised(scan.fence, lines))
            == ContentCount(kind, scan.content) + CountAll(kind, lines)
    decreases |lines|
  {
    hide Marker;
    hide HeadingOf;
    hide FenceAfter;
    hide Count;
    hide ContentCount;
    if lines != [] {
      var next := ScanLine(scan, lines[0]);
      ScanConserves(kind, next, lines[1..]);
      if Switches(scan.fence, lines[0]) {
        var more := Recognised(None, lines[1..]);
        assert ([lines[0]] + more)[1..] == more;
      } else {
        PushCounts(kind, scan.content, scan.active.value, lines[0]);
      }
    }
  }

  /** A section that is not active gets lines only after a heading that names it. */
  lemma {:induction false} FilledSectionIsNamed(scan: Scan, lines: seq<string>, s: Section)
    requires scan.active.Some? && scan.active != Some(s)
    requires ScanLines(scan, lines).content.Get(s) != scan.content.Get(s)
    ensures exists h :: h in Recognised(scan.fence, lines) && HeadingOf(h) == Some(s)
    decreases |lines|
  {
    hide Marker;
    hide HeadingOf;
    hide FenceAfter;
    var next := ScanLine(scan, lines[0]);
    if HeadingOf(lines[0]) == Some(s) && Switches(scan.fence, lines[0]) {
      assert lines[0] in Recognised(scan.fence, lines);
    } else {
      assert next.content.Get(s) == scan.content.Get(s);
      FilledSectionIsNamed(next, lines[1..], s);
      var h :| h in Recognised(next.fence, lines[1..]) && HeadingOf(h) == Some(s);
      assert h in Recognised(scan.fence, lines);
    }
  }

  /** The lines up to the first heading that switches. */
  lemma {:induction false} FirstSwitch(fence: Option<Fence>, lines: seq<string>)
    returns (front: seq<string>, h: string, back: seq<string>)
    requires Recognised(fence, lines) != []
    ensures lines == front + [h] + back && KeepsSection(fence, front) && Switches(FenceAtEnd(fence, front), h)
    ensures Recognised(fence, lines) == [h] + Recognised(None, back)
    decreases |lines|
  {
    hide Marker;
    hide HeadingOf;
    hide FenceAfter;
    if Switches(fence, lines[0]) {
      front, h, back := [], lines[0], lines[1..];
    } else {
      var rest;
      rest, h, back := FirstSwitch(FenceAfter(fence, lines[0]), lines[1..]);
      front := [lines[0]] + rest;
      assert front[1..] == rest;
      assert [lines[0]] + (rest + [h] + back) == front + [h] + back;
    }
  }

  lemma {:induction false} NoSwitchKeeps(fence: Option<Fence>, lines: seq<string>)
    requires Recognised(fence, lines) == []
    ensures KeepsSection(fence, lines)
    decreases |lines|
  {
    if lines != [] {
      NoSwitchKeeps(FenceAfter(fence, lines[0]), lines[1..]);
    }
  }

  function Weight(s: Section): nat {
    match s
    case Observed => 10
    case Expected => 10
    case Reproduction => 14
  }

  lemma {:induction false} DarkWord(word: string)
    requires forall c :: c in word ==> !IsSpace(c) && c != '_'
    ensures Count(Dark, word) == |word| && Count(Underscore, word) == 0
  {
    if word != "" {
      assert word[0] in word;
      DarkWord(word[1..]);
    }
  }

  lemma NamesAreDark(s: Section)
    ensures |Name(s)| == Weight(s) - 2
    ensures forall c :: c in Name(s) ==> !IsSpace(c) && c != '_'
  {
  }

  /** What a heading weighs depends only on the section it names. */
  lemma HeadingWeighs(line: string, s: Section)
    requires HeadingOf(line) == Some(s)
    ensures Count(Dark, line) == Weight(s) && Count(Underscore, line) == 0
  {
    HashesFirst(line, s);
    hide HeadingOf;
    hide Trim;
    hide Name;
    hide IsSpace;
    NamesAreDark(s);
    DarkWord(Name(s));
    CountTrim(Dark, line[2..]);
    CountTrim(Underscore, line[2..]);
    CountAppend(Dark, "##", line[2..]);
    CountAppend(Underscore, "##", line[2..]);
    HashesCount();
  }

  lemma HashesFirst(line: string, s: Section)
    requires HeadingOf(line) == Some(s)
    ensures line == "##" + line[2..] && Trim(line[2..]) == Name(s)
  {
    hide Trim;
    hide IsSpace;
  }

  lemma HashesCount()
    ensures Count(Dark, "##") == 2 && Count(Underscore, "##") == 0
  {
    DarkWord("##");
  }

  lemma PendingCounts()
    ensures Count(Underscore, PENDING) > 0 && Count(Return, PENDING) == 0
    ensures EndsDark(PENDING) && Trimmed(PENDING)
  {
    PendingShape();
    hide PENDING;
    NoReturns(PENDING);
    assert !IsSpace('_');
  }

  lemma {:induction false} NoReturns(text: string)
    requires '\r' !in text
    ensures Count(Return, text) == 0
  {
    if text != "" {
      NoReturns(text[1..]);
    }
  }

  /** Read back from collected lines, a text keeps what they count, unless the placeholder stands for blank lines. */
  lemma TextCounts(lines: seq<string>, text: string)
    requires text == OrPending(Trim(JoinLines(lines)))
    ensures EndsDark(text) && Trimmed(text)
    ensures Count(Return, text) <= CountAll(Return, lines)
    ensures Count(Underscore, text) >= CountAll(Underscore, lines)
    ensures Count(Underscore, text) == CountAll(Underscore, lines) ==>
              text == Trim(JoinLines(lines)) && Count(Dark, text) == CountAll(Dark, lines)
  {
    PendingCounts();
    var joined := JoinLines(lines);
    TrimIsTrimmed(joined);
    hide Trim;
    hide JoinLines;
    hide IsSpace;
    CountJoin(Return, lines);
    CountJoin(Underscore, lines);
    CountJoin(Dark, lines);
    CountTrim(Return, joined);
    CountTrim(Underscore, joined);
    CountTrim(Dark, joined);
  }

  /** Two ways to cut the same lines at a line that is not blank, with as much before the cut, are the same. */
  lemma SameCut(a: seq<string>, h: string, y: seq<string>, b: seq<string>, g: string, x: seq<string>)
    requires a + [h] + y == b + [g] + x && CountAll(Dark, a) == CountAll(Dark, b)
    requires Count(Dark, h) > 0 && Count(Dark, g) > 0
    ensures a == b && h == g && y == x
  {
    var all := a + [h] + y;
    NotShorter(a, h, y, b, all);
    assert all == b + [g] + x;
    NotShorter(b, g, x, a, all);
    assert a == all[..|a|] && b == all[..|b|];
    assert h == all[|a|] && g == all[|b|];
    assert y == all[|a| + 1..] && x == all[|b| + 1..];
  }

  lemma NotShorter(a: seq<string>, h: string, y: seq<string>, b: seq<string>, all: seq<string>)
    requires all == a + [h] + y && b <= all && CountAll(Dark, a) == CountAll(Dark, b) && Count(Dark, h) > 0
    ensures |b| <= |a|
  {
    if |a| < |b| {
      LongerPrefix(a, h, y, b);
      PrefixCounts(a, h, b[|a| + 1..]);
    }
  }

  lemma PrefixCounts(a: seq<string>, h: string, more: seq<string>)
    ensures CountAll(Dark, a + ([h] + more)) >= CountAll(Dark, a) + Count(Dark, h)
  {
    hide Count;
    CountAllAppend(Dark, a, [h] + more);
    assert ([h] + more)[0] == h;
  }

  lemma LongerPrefix(a: seq<string>, h: string, y: seq<string>, b: seq<string>)
    requires b <= a + [h] + y && |a| < |b|
    ensures b == a + ([h] + b[|a| + 1..])
  {
    assert (a + [h] + y)[..|a|] == a && (a + [h] + y)[|a|] == h;
    assert b[..|a|] == a && b[|a|] == h;
  }

  // ------------------------------------------- what an open fence swallows

  /** What was collected stays at the front of its section. */
  lemma {:induction false} ScanOnlyAdds(scan: Scan, s: Section, lines: seq<string>)
    ensures scan.content.Get(s) <= ScanLines(scan, lines).content.Get(s)
    decreases |lines|
  {
    if lines != [] {
      var next := ScanLine(scan, lines[0]);
      assert scan.content.Get(s) <= next.content.Get(s);
      ScanOnlyAdds(next, s, lines[1..]);
    }
  }

  /** A text that leaves its fence open swallows the blank line and the header after it. */
  lemma SwallowHeader(scan: Scan, s: Section, text: string, next: Section)
    requires scan.fence == None && scan.content.Get(s) == []
    requires KeepsSection(None, SplitLines(text)) && FenceAtEnd(None, SplitLines(text)).Some?
    ensures ScanLines(scan, [Header(s), ""] + SplitLines(text) + [""] + [Header(next)]).content.Get(s)
            == [""] + SplitLines(text) + [""] + [Header(next)]
  {
    var block := [Header(s), ""] + SplitLines(text);
    ScanBlock(scan, s, text);
    HeaderIsHeading(next);
    BlankLine();
    hide Header;
    hide HeadingOf;
    hide Marker;
    hide SplitLines;
    ScanAppend(scan, block, [""]);
    ScanAppend(scan, block + [""], [Header(next)]);
    var after := ScanLines(scan, block);
    assert ScanLines(after, [""]) == ScanLine(after, "");
    assert ScanLines(ScanLine(after, ""), [Header(next)]) == ScanLine(ScanLine(after, ""), Header(next));
  }

  /** So the section reads back as a different text. */
  lemma OpenFenceSwallows(scan: Scan, s: Section, text: string, next: Section, lines: seq<string>)
    requires scan.fence == None && scan.content.Get(s) == []
    requires KeepsSection(None, SplitLines(text)) && FenceAtEnd(None, SplitLines(text)).Some?
    requires [Header(s), ""] + SplitLines(text) + [""] + [Header(next)] <= lines
    ensures OrPending(Trim(JoinLines(ScanLines(scan, lines).content.Get(s)))) != text
  {
    hide Header;
    hide IsSpace;
    hide SplitLines;
    hide Trim;
    hide JoinLines;
    hide OrPending;
    hide HeadingOf;
    hide Marker;
    hide ScanLine;
    hide KeepsSection;
    hide FenceAtEnd;
    var front := [Header(s), ""] + SplitLines(text) + [""] + [Header(next)];
    SwallowHeader(scan, s, text, next);
    assert lines == front + lines[|front|..];
    ScanAppend(scan, front, lines[|front|..]);
    ScanOnlyAdds(ScanLines(scan, front), s, lines[|front|..]);
    HeaderCounts(next);
    hide Count;
    GrownText(text, Header(next), ScanLines(scan, lines).content.Get(s));
  }

  lemma GrownText(text: string, header: string, content: seq<string>)
    requires [""] + SplitLines(text) + [""] + [header] <= content && Count(Dark, header) > 0
    ensures OrPending(Trim(JoinLines(content))) != text
  {
    hide SplitLines;
    hide Trim;
    hide JoinLines;
    hide OrPending;
    hide IsSpace;
    GrownCounts(Dark, text, header, content);
    GrownCounts(Underscore, text, header, content);
    hide Count;
    hide CountAll;
    if OrPending(Trim(JoinLines(content))) == text {
      TextCounts(content, text);
    }
  }

  lemma GrownCounts(kind: Kind, text: string, header: string, content: seq<string>)
    requires [""] + SplitLines(text) + [""] + [header] <= content && kind != Return
    ensures CountAll(kind, content) >= Count(kind, text) + Count(kind, header)
  {
    CountSplit(kind, text);
    hide SplitLines;
    var kept := [""] + SplitLines(text) + [""] + [header];
    assert content == kept + content[|kept|..];
    CountAllAppend(kind, kept, content[|kept|..]);
    CountAllAppend(kind, [""] + SplitLines(text) + [""], [header]);
    CountAllAppend(kind, [""] + SplitLines(text), [""]);
    CountAllAppend(kind, [""], SplitLines(text));
  }

  // ------------------------------------------- only canonical texts read back

  /** The lines of a printed body after its first heading. */
  function RestOf(texts: Three<string>): seq<string> {
    [""] + SplitLines(texts.observed) + [""]
    + ([Header(Expected), ""] + SplitLines(texts.expected) + [""]
       + ([Header(Reproduction), ""] + SplitLines(texts.reproduction)))
  }

  const IN_OBSERVED: Scan := Scan(Some(Observed), None, Three([], [], []))

  function Collected(texts: Three<string>): Three<seq<string>> {
    ScanLines(IN_OBSERVED, RestOf(texts)).content
  }

  ghost predicate ReadFrom(texts: Three<string>, content: Three<seq<string>>) {
    forall s :: texts.Get(s) == OrPending(Trim(JoinLines(content.Get(s))))
  }

  /** The first printed heading is always recognised. */
  lemma FirstHeading(texts: Three<string>)
    requires SectionTexts(PrintTexts(texts)) == texts
    ensures ReadFrom(texts, Collected(texts))
  {
    var printed := PrintTexts(texts);
    var content := ScanLines(EMPTY_SCAN, SplitLines(Trim(printed))).content;
    hide PrintTexts;
    hide JoinLines;
    hide Trim;
    hide SplitLines;
    hide Header;
    hide HeadingOf;
    hide Marker;
    hide IsSpace;
    forall s
      ensures EndsDark(texts.Get(s))
    {
      TextCounts(content.Get(s), texts.Get(s));
    }
    PrintedLines(texts);
    Regroup(Header(Observed), SplitLines(texts.observed),
            [Header(Expected), ""] + SplitLines(texts.expected) + [""]
            + ([Header(Reproduction), ""] + SplitLines(texts.reproduction)));
    HeaderIsHeading(Observed);
    hide OrPending;
    hide EndsDark;
    ScanAppend(EMPTY_SCAN, [Header(Observed)], RestOf(texts));
    assert ScanLines(EMPTY_SCAN, [Header(Observed)]) == ScanLine(EMPTY_SCAN, Header(Observed)) == IN_OBSERVED;
    assert content == Collected(texts);
  }

  lemma Regroup(h: string, lines: seq<string>, tail: seq<string>)
    ensures [h, ""] + lines + [""] + tail == [h] + ([""] + lines + [""] + tail)
  {
  }

  lemma BlockCounts(kind: Kind, header: string, lines: seq<string>)
    ensures CountAll(kind, [header, ""] + lines) == Count(kind, header) + CountAll(kind, lines)
  {
    CountAllAppend(kind, [header, ""], lines);
    assert [header, ""][1..] == [""];
  }

  lemma RestCounts(kind: Kind, texts: Three<string>)
    ensures CountAll(kind, RestOf(texts))
            == CountAll(kind, SplitLines(texts.observed)) + CountAll(kind, SplitLines(texts.expected))
               + CountAll(kind, SplitLines(texts.reproduction))
               + Count(kind, Header(Expected)) + Count(kind, Header(Reproduction))
  {
    hide SplitLines;
    hide Header;
    var lo, le, lr := SplitLines(texts.observed), SplitLines(texts.expected), SplitLines(texts.reproduction);
    var e, r := [Header(Expected), ""] + le, [Header(Reproduction), ""] + lr;
    BlockCounts(kind, Header(Reproduction), lr);
    BlockCounts(kind, Header(Expected), le);
    CountAllAppend(kind, e, [""]);
    CountAllAppend(kind, e + [""], r);
    CountAllAppend(kind, [""], lo);
    CountAllAppend(kind, [""] + lo, [""]);
    CountAllAppend(kind, [""] + lo + [""], e + [""] + r);
  }

  /** What the texts and the two later headings count, the sections keep or the switching headings take away. */
  lemma CollectedCounts(kind: Kind, texts: Three<string>)
    ensures ContentCount(kind, Collected(texts)) + CountAll(kind, Recognised(None, RestOf(texts)))
            == CountAll(kind, SplitLines(texts.observed)) + CountAll(kind, SplitLines(texts.expected))
               + CountAll(kind, SplitLines(texts.reproduction))
               + Count(kind, Header(Expected)) + Count(kind, Header(Reproduction))
  {
    assert ContentCount(kind, IN_OBSERVED.content) == 0;
    hide ContentCount;
    hide CountAll;
    hide Count;
    hide Recognised;
    hide ScanLines;
    hide RestOf;
    hide SplitLines;
    hide Header;
    RestCounts(kind, texts);
    ScanConserves(kind, IN_OBSERVED, RestOf(texts));
  }

  lemma {:induction false} SwitchesWeigh(fence: Option<Fence>, lines: seq<string>)
    ensures CountAll(Underscore, Recognised(fence, lines)) == 0
    ensures forall h :: h in Recognised(fence, lines) ==>
                          HeadingOf(h).Some? && Count(Dark, h) == Weight(HeadingOf(h).value)
    decreases |lines|
  {
    hide Marker;
    hide HeadingOf;
    hide FenceAfter;
    if lines != [] {
      SwitchesWeigh(None, lines[1..]);
      SwitchesWeigh(FenceAfter(fence, lines[0]), lines[1..]);
      if Switches(fence, lines[0]) {
        HeadingWeighs(lines[0], HeadingOf(lines[0]).value);
        assert ([lines[0]] + Recognised(None, lines[1..]))[1..] == Recognised(None, lines[1..]);
      }
    }
  }

  lemma HeaderCounts(s: Section)
    ensures Count(Dark, Header(s)) == Weight(s) && Count(Underscore, Header(s)) == 0 && Count(Return, Header(s)) == 0
  {
    HeaderIsHeading(s);
    HeadingWeighs(Header(s), s);
    NoReturns(Header(s));
  }

  /** Reading back, no section is blank: the placeholder's underscores would come from nowhere. */
  lemma NoPlaceholder(texts: Three<string>, s: Section)
    requires ReadFrom(texts, Collected(texts))
    ensures texts.Get(s) == Trim(JoinLines(Collected(texts).Get(s)))
    ensures CountAll(Dark, Collected(texts).Get(s)) == CountAll(Dark, SplitLines(texts.Get(s)))
    ensures EndsDark(texts.Get(s)) && Trimmed(texts.Get(s))
  {
    CollectedCounts(Underscore, texts);
    SwitchesWeigh(None, RestOf(texts));
    HeaderCounts(Expected);
    HeaderCounts(Reproduction);
    hide Collected;
    hide RestOf;
    hide SplitLines;
    hide Trim;
    hide JoinLines;
    hide OrPending;
    hide Count;
    hide CountAll;
    hide Header;
    hide HeadingOf;
    hide IsSpace;
    var content := Collected(texts);
    forall t
      ensures CountAll(Underscore, SplitLines(texts.Get(t))) >= CountAll(Underscore, content.Get(t))
    {
      TextCounts(content.Get(t), texts.Get(t));
      CountSplit(Underscore, texts.Get(t));
    }
    assert ContentCount(Underscore, content) == CountAll(Underscore, SplitLines(texts.Get(Observed)))
                                                + CountAll(Underscore, SplitLines(texts.Get(Expected)))
                                                + CountAll(Underscore, SplitLines(texts.Get(Reproduction)));
    assert ContentCount(Underscore, content) == CountAll(Underscore, content.Get(Observed))
                                                + CountAll(Underscore, content.Get(Expected))
                                                + CountAll(Underscore, content.Get(Reproduction));
    TextCounts(content.Get(s), texts.Get(s));
    CountSplit(Underscore, texts.Get(s));
    CountSplit(Dark, texts.Get(s));
  }

  /** Reading back, no carriage return is lost, so none stands before a line feed. */
  lemma NoLostReturn(texts: Three<string>, s: Section)
    requires ReadFrom(texts, Collected(texts))
    ensures PlainBreaks(texts.Get(s))
  {
    CollectedCounts(Return, texts);
    HeaderCounts(Expected);
    HeaderCounts(Reproduction);
    hide Collected;
    hide RestOf;
    hide SplitLines;
    hide Trim;
    hide JoinLines;
    hide OrPending;
    hide Count;
    hide CountAll;
    hide Header;
    hide HeadingOf;
    hide IsSpace;
    hide PlainBreaks;
    var content := Collected(texts);
    forall t
      ensures CountAll(Return, SplitLines(texts.Get(t))) <= CountAll(Return, content.Get(t))
    {
      TextCounts(content.Get(t), texts.Get(t));
      CountSplit(Return, texts.Get(t));
    }
    assert ContentCount(Return, content) <= CountAll(Return, SplitLines(texts.Get(Observed)))
                                            + CountAll(Return, SplitLines(texts.Get(Expected)))
                                            + CountAll(Return, SplitLines(texts.Get(Reproduction)));
    assert ContentCount(Return, content) == CountAll(Return, content.Get(Observed))
                                            + CountAll(Return, content.Get(Expected))
                                            + CountAll(Return, content.Get(Reproduction));
    TextCounts(content.Get(s), texts.Get(s));
    CountSplit(Return, texts.Get(s));
  }

  lemma {:induction false} MemberCounts(lines: seq<string>, h: string)
    requires h in lines
    ensures Count(Dark, h) <= CountAll(Dark, lines)
  {
    if lines[0] != h {
      MemberCounts(lines[1..], h);
    }
  }

  predicate OneEach(a: Option<Section>, b: Option<Section>) {
    || (a == Some(Expected) && b == Some(Reproduction))
    || (a == Some(Reproduction) && b == Some(Expected))
  }

  /** Headings for both later sections that weigh as much as one for each are one for each. */
  lemma TwoHeadings(lines: seq<string>, e: string, r: string)
    requires CountAll(Dark, lines) == 24 && e in lines && r in lines
    requires HeadingOf(e) == Some(Expected) && HeadingOf(r) == Some(Reproduction)
    requires forall h :: h in lines ==> HeadingOf(h).Some? && Count(Dark, h) == Weight(HeadingOf(h).value)
    ensures |lines| == 2 && OneEach(HeadingOf(lines[0]), HeadingOf(lines[1]))
  {
    AtMostTwo(lines);
    hide HeadingOf;
    hide Count;
    hide CountAll;
    hide Weight;
    BothIn(lines, e, r);
  }

  lemma BothIn(lines: seq<string>, e: string, r: string)
    requires |lines| <= 2 && e in lines && r in lines && e != r
    ensures |lines| == 2 && ((lines[0] == e && lines[1] == r) || (lines[0] == r && lines[1] == e))
  {
  }

  lemma AtMostTwo(lines: seq<string>)
    requires CountAll(Dark, lines) == 24
    requires forall h :: h in lines ==> HeadingOf(h).Some? && Count(Dark, h) == Weight(HeadingOf(h).value)
    ensures |lines| <= 2
  {
    HeadingsCount(lines);
    hide HeadingOf;
    hide Count;
    hide CountAll;
  }

  lemma {:induction false} HeadingsCount(lines: seq<string>)
    requires forall h :: h in lines ==> HeadingOf(h).Some? && Count(Dark, h) == Weight(HeadingOf(h).value)
    ensures CountAll(Dark, lines) >= 10 * |lines|
  {
    hide HeadingOf;
    hide Count;
    if lines != [] {
      assert lines[0] in lines;
      HeadingsCount(lines[1..]);
    }
  }

  /** Scanned to the first heading that switches, all lines stay in the section. */
  lemma ScanToSwitch(scan: Scan, s: Section, front: seq<string>, h: string, back: seq<string>)
    requires scan.active == Some(s) && KeepsSection(scan.fence, front) && Switches(FenceAtEnd(scan.fence, front), h)
    ensures ScanLines(scan, front + [h] + back)
            == ScanLines(Scan(HeadingOf(h), None, scan.content.Put(s, scan.content.Get(s) + front)), back)
  {
    hide Marker;
    hide HeadingOf;
    ScanKeeps(scan, s, front);
    ScanAppend(scan, front, [h] + back);
    assert front + [h] + back == front + ([h] + back);
    assert ([h] + back)[1..] == back;
  }

  lemma NeutralBlanks(lines: seq<string>)
    ensures KeepsSection(None, [""] + lines) <==> KeepsSection(None, lines)
    ensures FenceAtEnd(None, [""] + lines + [""]) == FenceAtEnd(None, lines)
    ensures KeepsSection(None, [""] + lines + [""]) ==> KeepsSection(None, lines)
  {
    BlankLine();
    hide Marker;
    hide HeadingOf;
    assert ([""] + lines)[1..] == lines;
    assert ([""] + lines + [""])[1..] == lines + [""];
    FenceAppend(None, lines, "");
    if KeepsSection(None, lines + [""]) {
      KeepsPrefix(None, lines, "");
    }
  }

  lemma {:induction false} FenceAppend(fence: Option<Fence>, lines: seq<string>, line: string)
    ensures FenceAtEnd(fence, lines + [line]) == FenceAfter(FenceAtEnd(fence, lines), line)
    decreases |lines|
  {
    if lines == [] {
      assert lines + [line] == [line];
    } else {
      assert (lines + [line])[1..] == lines[1..] + [line];
      FenceAppend(FenceAfter(fence, lines[0]), lines[1..], line);
    }
  }

  lemma BlanksCount(lines: seq<string>)
    ensures CountAll(Dark, [""] + lines + [""]) == CountAll(Dark, lines)
  {
    CountAllAppend(Dark, [""], lines);
    CountAllAppend(Dark, [""] + lines, [""]);
  }

  lemma SectionIsNamed(texts: Three<string>, s: Section)
    requires ReadFrom(texts, Collected(texts)) && s != Observed
    ensures exists h :: h in Recognised(None, RestOf(texts)) && HeadingOf(h) == Some(s)
  {
    NoPlaceholder(texts, s);
    assert Trim(JoinLines([])) == "";
    hide Trim;
    hide JoinLines;
    hide SplitLines;
    hide RestOf;
    hide Recognised;
    hide HeadingOf;
    FilledSectionIsNamed(IN_OBSERVED, RestOf(texts), s);
  }

  lemma SwitchesCount(texts: Three<string>)
    requires ReadFrom(texts, Collected(texts))
    ensures CountAll(Dark, Recognised(None, RestOf(texts))) == 24
  {
    CollectedCounts(Dark, texts);
    HeaderCounts(Expected);
    HeaderCounts(Reproduction);
    NoPlaceholder(texts, Observed);
    NoPlaceholder(texts, Expected);
    NoPlaceholder(texts, Reproduction);
    hide RestOf;
    hide Recognised;
    hide Collected;
    hide SplitLines;
    hide Header;
    hide Count;
    hide CountAll;
    hide ReadFrom;
    hide Trim;
    hide JoinLines;
    hide IsSpace;
  }

  /** Reading back, exactly two headings switch after the first: one for each later section. */
  lemma TwoSwitches(texts: Three<string>)
    requires ReadFrom(texts, Collected(texts))
    ensures var switches := Recognised(None, RestOf(texts));
            |switches| == 2 && OneEach(HeadingOf(switches[0]), HeadingOf(switches[1]))
  {
    SwitchesCount(texts);
    SwitchesWeigh(None, RestOf(texts));
    SectionIsNamed(texts, Expected);
    SectionIsNamed(texts, Reproduction);
    hide RestOf;
    hide Recognised;
    hide Trim;
    hide JoinLines;
    hide SplitLines;
    hide HeadingOf;
    hide Header;
    hide Count;
    hide CountAll;
    hide Collected;
    hide IsSpace;
    var switches := Recognised(None, RestOf(texts));
    var e :| e in switches && HeadingOf(e) == Some(Expected);
    var r :| r in switches && HeadingOf(r) == Some(Reproduction);
    TwoHeadings(switches, e, r);
  }

  /** Cut at two switching headings, the lines between them are what the sections collect. */
  lemma CutAtSwitches(lines: seq<string>)
    returns (front: seq<string>, h: string, mid: seq<string>, g: string, last: seq<string>)
    requires |Recognised(None, lines)| == 2
    ensures lines == front + [h] + (mid + [g] + last) && Recognised(None, lines) == [h, g]
    ensures KeepsSection(None, front) && FenceAtEnd(None, front) == None && HeadingOf(h).Some?
    ensures KeepsSection(None, mid) && FenceAtEnd(None, mid) == None && HeadingOf(g).Some?
    ensures KeepsSection(None, last)
    ensures var after: Three<seq<string>> := Three(front, [], []);
            HeadingOf(h).value != Observed && HeadingOf(g).value !in {Observed, HeadingOf(h).value} ==>
              ScanLines(IN_OBSERVED, lines).content == after.Put(HeadingOf(h).value, mid).Put(HeadingOf(g).value, last)
  {
    hide HeadingOf;
    hide Marker;
    hide ScanLines;
    hide FenceAfter;
    var back;
    front, h, back := FirstSwitch(None, lines);
    mid, g, last := FirstSwitch(None, back);
    NoSwitchKeeps(None, last);
    if HeadingOf(h).value != Observed && HeadingOf(g).value !in {Observed, HeadingOf(h).value} {
      ScanCut(front, h, HeadingOf(h).value, mid, g, HeadingOf(g).value, last);
    }
  }

  lemma ScanCut(front: seq<string>, h: string, s: Section, mid: seq<string>, g: string, t: Section, last: seq<string>)
    requires KeepsSection(None, front) && Switches(FenceAtEnd(None, front), h) && HeadingOf(h) == Some(s)
    requires KeepsSection(None, mid) && Switches(FenceAtEnd(None, mid), g) && HeadingOf(g) == Some(t)
    requires KeepsSection(None, last) && s != Observed && t !in {Observed, s}
    ensures var after: Three<seq<string>> := Three(front, [], []);
            ScanLines(IN_OBSERVED, front + [h] + (mid + [g] + last)).content == after.Put(s, mid).Put(t, last)
  {
    hide HeadingOf;
    hide Marker;
    hide ScanLines;
    hide Switches;
    hide FenceAtEnd;
    hide KeepsSection;
    ScanToSwitch(IN_OBSERVED, Observed, front, h, mid + [g] + last);
    assert [] + front == front && [] + mid == mid && [] + last == last;
    var second := Scan(Some(s), None, Three(front, [], []));
    ScanToSwitch(second, s, mid, g, last);
    ScanKeeps(Scan(Some(t), None, second.content.Put(s, mid)), t, last);
  }

  /** Each later heading stands right before the printed text of its section. */
  lemma SwitchesStandInPlace(texts: Three<string>)
    requires ReadFrom(texts, Collected(texts))
    ensures KeepsToItself([""] + SplitLines(texts.observed) + [""])
    ensures KeepsToItself([""] + SplitLines(texts.expected) + [""])
    ensures KeepsSection(None, [""] + SplitLines(texts.reproduction))
  {
    TwoSwitches(texts);
    var front, h, mid, g, last := CutAtSwitches(RestOf(texts));
    NoPlaceholder(texts, Observed);
    NoPlaceholder(texts, Expected);
    SwitchesWeigh(None, RestOf(texts));
    assert h in [h, g] && g in [h, g];
    var content := Collected(texts);
    assert content.observed == front && content.Get(HeadingOf(h).value) == mid;
    hide SplitLines;
    hide Header;
    hide HeadingOf;
    hide Marker;
    hide Count;
    hide CountAll;
    hide IsSpace;
    hide Collected;
    hide Recognised;
    hide Trim;
    hide JoinLines;
    hide KeepsSection;
    hide FenceAtEnd;
    InPlace(texts, front, h, mid, g, last);
  }

  /** The lines neither switch nor leave a fence open. */
  predicate KeepsToItself(lines: seq<string>) {
    KeepsSection(None, lines) && FenceAtEnd(None, lines) == None
  }

  /** With as much text before them as the printed headings, the two headings are the printed ones. */
  lemma InPlace(texts: Three<string>, front: seq<string>, h: string, mid: seq<string>, g: string, last: seq<string>)
    requires RestOf(texts) == front + [h] + (mid + [g] + last)
    requires Count(Dark, h) > 0 && Count(Dark, g) > 0
    requires CountAll(Dark, front) == CountAll(Dark, SplitLines(texts.observed))
    requires HeadingOf(h) == Some(Expected) ==> CountAll(Dark, mid) == CountAll(Dark, SplitLines(texts.expected))
    ensures front == [""] + SplitLines(texts.observed) + [""]
    ensures mid == [""] + SplitLines(texts.expected) + [""]
    ensures last == [""] + SplitLines(texts.reproduction)
  {
    HeaderCounts(Expected);
    HeaderCounts(Reproduction);
    HeaderIsHeading(Expected);
    var lo, le, lr := SplitLines(texts.observed), SplitLines(texts.expected), SplitLines(texts.reproduction);
    var e, r := Header(Expected), Header(Reproduction);
    BlanksCount(lo);
    BlanksCount(le);
    hide SplitLines;
    hide Header;
    hide HeadingOf;
    hide Marker;
    hide Count;
    hide CountAll;
    RegroupRest(lo, e, le, r, lr);
    SameCut(front, h, mid + [g] + last, [""] + lo + [""], e, [""] + le + [""] + [r] + ([""] + lr));
    SameCut(mid, g, last, [""] + le + [""], r, [""] + lr);
  }

  lemma RegroupRest(a: seq<string>, e: string, b: seq<string>, r: string, c: seq<string>)
    ensures [""] + a + [""] + ([e, ""] + b + [""] + ([r, ""] + c))
            == [""] + a + [""] + [e] + ([""] + b + [""] + [r] + ([""] + c))
  {
  }

  /** Printing and parsing is the identity on exactly the canonical texts. */
  lemma ReadsBackExactly(texts: Three<string>)
    ensures SectionTexts(PrintTexts(texts)) == texts <==> Canonical(texts)
  {
    if SectionTexts(PrintTexts(texts)) == texts {
      FirstHeading(texts);
      SwitchesStandInPlace(texts);
      forall s
        ensures EndsDark(texts.Get(s)) && Trimmed(texts.Get(s)) && PlainBreaks(texts.Get(s))
      {
        NoPlaceholder(texts, s);
        NoLostReturn(texts, s);
      }
      NeutralBlanks(SplitLines(texts.observed));
      NeutralBlanks(SplitLines(texts.expected));
      NeutralBlanks(SplitLines(texts.reproduction));
      assert SelfContained(texts.Get(Observed)) && SelfContained(texts.Get(Expected))
             && SelfContained(texts.Get(Reproduction));
    }
    if Canonical(texts) {
      ReadsBack(texts);
    }
  }

  /** Normalising again finds the same section texts exactly when they are canonical; then nothing changes. */
  lemma NormalizedIsFixed(value: string)
    ensures SectionTexts(Normalized(value)) == SectionTexts(value) <==> Canonical(SectionTexts(value))
    ensures Canonical(SectionTexts(value)) ==> Normalized(Normalized(value)) == Normalized(value)
  {
    hide PrintTexts;
    hide SectionTexts;
    ReadsBackExactly(SectionTexts(value));
  }

  // ------------------------------------------------------------- examples

  const TICKS: string := "```"
  const INDENTED: string := "    ```"

  lemma TicksFence()
    ensures Marker(TICKS) == Some(Fence('`', 3)) && HeadingOf(TICKS) == None && SplitLines(TICKS) == [TICKS]
    ensures FenceAfter(None, TICKS) == Some(Fence('`', 3)) && FenceAfter(Some(Fence('`', 3)), TICKS) == None
    ensures EndsDark(TICKS) && Trimmed(TICKS) && PlainBreaks(TICKS) && OneLine(TICKS)
  {
    assert RunLength(TICKS, '`') == 1 + RunLength(TICKS[1..], '`');
    assert RunLength(TICKS[1..], '`') == 1 + RunLength(TICKS[1..][1..], '`');
    assert TICKS[1..][1..] == "`" && RunLength("`", '`') == 1;
    assert TICKS[0..] == TICKS && Leading(TICKS) == 0;
    assert TICKS[..2][0] == '`' && "##"[0] == '#';
    SplitOneLine(TICKS);
  }

  /** Three backticks are a section text that no printed body gives back, except as the last one. */
  lemma OpenFenceExample()
    ensures SelfContained(TICKS) && FenceAtEnd(None, SplitLines(TICKS)) == Some(Fence('`', 3))
  {
    TicksFence();
    hide Marker;
    hide HeadingOf;
    var rest := [TICKS][1..];
    assert rest == [];
    assert KeepsSection(FenceAfter(None, TICKS), rest);
    assert FenceAtEnd(FenceAfter(None, TICKS), rest) == FenceAfter(None, TICKS);
  }

  // ------------------------------------------- bodies with canonical texts

  /** The first line that is not blank starts at the margin. */
  predicate StartsAtMargin(lines: seq<string>)
    decreases |lines|
  {
    lines == [] || (if Blank(lines[0]) then StartsAtMargin(lines[1..]) else !IsSpace(lines[0][0]))
  }

  predicate OneLine(line: string) {
    '\n' !in line && '\r' !in line
  }

  /** Every section has kept its lines, and no fence is open except in the active one. */
  ghost predicate WellScanned(scan: Scan) {
    forall s :: WellCollected(scan, s)
  }

  ghost predicate WellCollected(scan: Scan, s: Section) {
    && KeepsSection(None, scan.content.Get(s))
    && FenceAtEnd(None, scan.content.Get(s)) == (if scan.active == Some(s) then scan.fence else None)
    && forall l :: l in scan.content.Get(s) ==> OneLine(l)
  }

  lemma {:induction false} KeepsAppend(fence: Option<Fence>, lines: seq<string>, line: string)
    requires KeepsSection(fence, lines)
    ensures FenceAtEnd(fence, lines + [line]) == FenceAfter(FenceAtEnd(fence, lines), line)
    ensures KeepsSection(fence, lines + [line]) <==> KeepsSection(FenceAtEnd(fence, lines), [line])
    decreases |lines|
  {
    if lines == [] {
      assert lines + [line] == [line];
    } else {
      assert (lines + [line])[1..] == lines[1..] + [line];
      KeepsAppend(FenceAfter(fence, lines[0]), lines[1..], line);
    }
  }

  lemma {:induction false} ScanIsWell(scan: Scan, lines: seq<string>)
    requires WellScanned(scan) && forall l :: l in lines ==> OneLine(l)
    ensures WellScanned(ScanLines(scan, lines))
    decreases |lines|
  {
    if lines != [] {
      assert lines[0] in lines;
      var next := ScanLine(scan, lines[0]);
      forall s
        ensures WellCollected(next, s)
      {
        assert WellCollected(scan, s);
        if scan.active == Some(s) && next.content.Get(s) != scan.content.Get(s) {
          KeepsAppend(None, scan.content.Get(s), lines[0]);
        }
      }
      ScanIsWell(next, lines[1..]);
    }
  }

  lemma {:induction false} BlankLineIsNeutral(line: string)
    requires Blank(line)
    ensures Marker(line) == None && HeadingOf(line) == None
  {
    BlankLeading(line);
    if |line| > 2 {
      assert line[..2][0] == line[0] && "##"[0] == '#' && !IsSpace('#');
    }
  }

  lemma {:induction false} BlankLeading(line: string)
    requires Blank(line)
    ensures Leading(line) == |line|
  {
    if line != "" {
      BlankLeading(line[1..]);
    }
  }

  lemma {:induction false} LeadingAppend(a: string, w: string)
    requires !Blank(a)
    ensures Leading(a + w) == Leading(a) < |a| && !IsSpace(a[Leading(a)])
  {
    assert a != "";
    if IsSpace(a[0]) {
      assert (a + w)[1..] == a[1..] + w;
      assert !Blank(a[1..]) by {
        var i :| 0 <= i < |a| && !IsSpace(a[i]);
        assert a[1..][i - 1] == a[i];
      }
      LeadingAppend(a[1..], w);
    }
  }

  lemma {:induction false} RunAppend(a: string, w: string, c: char)
    requires Blank(w) && !IsSpace(c)
    ensures RunLength(a + w, c) == RunLength(a, c)
  {
    if a == "" {
      assert a + w == w;
    } else {
      assert (a + w)[1..] == a[1..] + w;
      RunAppend(a[1..], w, c);
    }
  }

  /** White space at the end of a line changes neither its marker nor the section it names. */
  lemma TrimmedLineReadsAlike(line: string)
    requires !Blank(line)
    ensures Marker(TrimRight(line)) == Marker(line)
    ensures HeadingOf(TrimRight(line)).Some? ==> HeadingOf(line).Some?
  {
    hide Trim;
    hide TrimRight;
    TrimRightTail(line);
    var a, w := TrimRight(line), line[|TrimRight(line)|..];
    assert line == a + w;
    assert !Blank(a) by {
      var i :| 0 <= i < |line| && !IsSpace(line[i]);
      assert i < |a| && a[i] == line[i];
    }
    LeadingAppend(a, w);
    var k := Leading(a);
    assert line[k..] == a[k..] + w;
    assert line[k] == a[k];
    RunAppend(a[k..], w, a[k]);
    if HeadingOf(a).Some? {
      HeadingIgnoresTail(a, w);
    }
  }

  lemma HeadingIgnoresTail(a: string, w: string)
    requires Blank(w) && HeadingOf(a).Some?
    ensures HeadingOf(a + w).Some?
  {
    hide Trim;
    hide IsSpace;
    var line := a + w;
    assert line[..2] == a[..2] && line[2] == a[2];
    assert line[2..] == a[2..] + w;
    TrimIgnoresTail(a[2..], w);
  }

  lemma TrimIgnoresTail(a: string, w: string)
    requires Blank(w) && Trim(a) != ""
    ensures Trim(a + w) == Trim(a)
  {
    TrimLeftSuffix(a);
    var t := TrimLeft(a);
    var lead := a[..|a| - |t|];
    assert a == lead + t;
    LeadIsBlank(a);
    assert a + w == lead + (t + w);
    TrimLeftAppend(lead, t + w);
    assert TrimLeft(t + w) == t + w;
    TrimRightAppend(t, w);
  }

  lemma {:induction false} LeadIsBlank(a: string)
    ensures |TrimLeft(a)| <= |a| && Blank(a[..|a| - |TrimLeft(a)|])
  {
    if a != "" && IsSpace(a[0]) {
      var rest := a[1..];
      LeadIsBlank(rest);
      assert TrimLeft(a) == TrimLeft(rest);
      hide TrimLeft;
      hide IsSpace;
      TakeOneMore(a, |rest| - |TrimLeft(rest)|);
    }
  }

  lemma TakeOneMore(a: string, n: nat)
    requires n < |a|
    ensures a[..n + 1] == [a[0]] + a[1..][..n]
  {
  }

  /** A blank last line is trimmed away with its break. */
  lemma BlankEndTrims(front: seq<string>, last: string)
    requires front != [] && Blank(last)
    ensures TrimRight(JoinLines(front + [last])) == TrimRight(JoinLines(front))
  {
    JoinAppend(front, [last]);
    assert Blank("\n" + last);
    hide IsSpace;
    hide TrimRight;
    assert JoinLines([last]) == last;
    assert JoinLines(front + [last]) == JoinLines(front) + ("\n" + last);
    TrimRightAppend(JoinLines(front), "\n" + last);
  }

  /** Trimmed on the right, lines outside any open fence keep their section and fences. */
  lemma {:induction false} TrimmedEnd(lines: seq<string>) returns (core: seq<string>)
    requires KeepsSection(None, lines) && FenceAtEnd(None, lines) == None
    requires (forall l :: l in lines ==> OneLine(l)) && exists i :: 0 <= i < |lines| && !Blank(lines[i])
    ensures core != [] && forall l :: l in core ==> OneLine(l)
    ensures JoinLines(core) == TrimRight(JoinLines(lines))
    ensures KeepsSection(None, core) && FenceAtEnd(None, core) == None
    decreases |lines|
  {
    hide IsSpace;
    hide Marker;
    hide HeadingOf;
    hide TrimRight;
    hide JoinLines;
    var front, last := lines[..|lines| - 1], lines[|lines| - 1];
    assert lines == front + [last];
    KeepsPrefix(None, front, last);
    KeepsAppend(None, front, last);
    if Blank(last) {
      BlankLineIsNeutral(last);
      var i :| 0 <= i < |lines| && !Blank(lines[i]);
      assert front[i] == lines[i];
      BlankEndTrims(front, last);
      core := TrimmedEnd(front);
    } else {
      core := TrimmedLast(front, last);
    }
  }

  lemma TrimmedLast(front: seq<string>, last: string) returns (core: seq<string>)
    requires KeepsSection(None, front) && KeepsSection(FenceAtEnd(None, front), [last])
    requires FenceAfter(FenceAtEnd(None, front), last) == None && !Blank(last) && OneLine(last)
    requires forall l :: l in front ==> OneLine(l)
    ensures core == front + [TrimRight(last)] && forall l :: l in core ==> OneLine(l)
    ensures JoinLines(core) == TrimRight(JoinLines(front + [last]))
    ensures KeepsSection(None, core) && FenceAtEnd(None, core) == None
  {
    core := front + [TrimRight(last)];
    TrimmedLineReadsAlike(last);
    TrimRightTail(last);
    hide Marker;
    hide HeadingOf;
    hide IsSpace;
    hide TrimRight;
    KeepsAppend(None, front, TrimRight(last));
    TrimmedJoin(front, last);
  }

  lemma TrimmedJoin(front: seq<string>, last: string)
    requires !Blank(last)
    ensures JoinLines(front + [TrimRight(last)]) == TrimRight(JoinLines(front + [last]))
  {
    hide IsSpace;
    hide TrimRight;
    if front != [] {
      JoinAppend(front, [last]);
      JoinAppend(front, [TrimRight(last)]);
      TrimRightAppend(JoinLines(front) + "\n", last);
    } else {
      assert front + [last] == [last] && front + [TrimRight(last)] == [TrimRight(last)];
    }
  }

  lemma {:induction false} KeepsPrefix(fence: Option<Fence>, lines: seq<string>, line: string)
    requires KeepsSection(fence, lines + [line])
    ensures KeepsSection(fence, lines)
    decreases |lines|
  {
    if lines != [] {
      assert (lines + [line])[1..] == lines[1..] + [line];
      KeepsPrefix(FenceAfter(fence, lines[0]), lines[1..], line);
    }
  }

  /** Collected lines that start at the margin trim to a self-contained text without an open fence. */
  lemma {:induction false} CollectedIsCanonical(lines: seq<string>)
    requires KeepsSection(None, lines) && FenceAtEnd(None, lines) == None && StartsAtMargin(lines)
    requires forall l :: l in lines ==> OneLine(l)
    ensures var text := Trim(JoinLines(lines));
            text != "" ==> SelfContained(text) && FenceAtEnd(None, SplitLines(text)) == None
    decreases |lines|
  {
    if lines == [] {
    } else if Blank(lines[0]) {
      BlankLineIsNeutral(lines[0]);
      CollectedIsCanonical(lines[1..]);
      if |lines| > 1 {
        assert JoinLines(lines) == lines[0] + "\n" + JoinLines(lines[1..]);
        TrimLeftAppend(lines[0] + "\n", JoinLines(lines[1..]));
      } else {
        BlankTrims(lines[0]);
      }
    } else {
      var core := TrimmedEnd(lines);
      var whole := JoinLines(lines);
      assert whole[0] == lines[0][0];
      assert !Blank(lines[0]);
      assert TrimLeft(whole) == whole;
      SplitJoin(core);
      TrimIsTrimmed(whole);
      JoinIsPlain(core);
    }
  }

  lemma {:induction false} JoinIsPlain(lines: seq<string>)
    requires forall l :: l in lines ==> OneLine(l)
    ensures '\r' !in JoinLines(lines)
  {
    if lines != [] {
      assert lines[0] in lines;
      JoinIsPlain(lines[1..]);
    }
  }

  lemma OrdinaryLine(line: string)
    requires line != "" && !IsSpace(line[0]) && line[0] !in {'`', '~', '#'}
    ensures Marker(line) == None && HeadingOf(line) == None
  {
    if |line| > 2 {
      assert line[..2][0] == line[0] && "##"[0] == '#';
    }
  }

  lemma PendingShape()
    ensures PENDING != "" && PENDING[0] == '_' && PENDING[|PENDING| - 1] == '_' && OneLine(PENDING)
  {
  }

  lemma PendingIsCanonical()
    ensures SelfContained(PENDING) && FenceAtEnd(None, SplitLines(PENDING)) == None
  {
    PendingShape();
    OrdinaryLine(PENDING);
    SplitOneLine(PENDING);
  }

  /**
   A body without carriage returns whose scan ends outside a fence and whose
   sections start at the margin is canonical after one normalisation: the check
   that compares the stored body with its normal form accepts it.
   */
  lemma CanonicalBodiesAreFixed(value: string)
    requires '\r' !in value
    requires var scan := ScanLines(EMPTY_SCAN, SplitLines(Trim(value)));
             scan.fence == None && forall s :: StartsAtMargin(scan.content.Get(s))
    ensures Canonical(SectionTexts(value))
    ensures Normalized(Normalized(value)) == Normalized(value)
  {
    TrimIsTrimmed(value);
    var lines := SplitLines(Trim(value));
    SplitHasNoReturns(Trim(value));
    var scan := ScanLines(EMPTY_SCAN, lines);
    assert WellScanned(EMPTY_SCAN);
    ScanIsWell(EMPTY_SCAN, lines);
    PendingIsCanonical();
    assert WellCollected(scan, Observed) && WellCollected(scan, Expected) && WellCollected(scan, Reproduction);
    CollectedIsCanonical(scan.content.observed);
    CollectedIsCanonical(scan.content.expected);
    CollectedIsCanonical(scan.content.reproduction);
    NormalizedIsFixed(value);
  }

  lemma {:induction false} SplitHasNoReturns(s: string)
    requires '\r' !in s
    ensures forall l :: l in SplitLines(s) ==> OneLine(l)
    decreases |s|
  {
    if s != "" {
      assert s[0] in s;
      SplitHasNoReturns(s[1..]);
      var rest := SplitLines(s[1..]);
      assert rest[0] in rest && forall l :: l in rest[1..] ==> l in rest;
    }
  }

  // ------------------------------------------- a fixed point by accident

  function FencedHeader(s: Section): string {
    TICKS + "\n\n" + Header(s) + "\n\n" + TICKS
  }

  lemma FencedHeaderIsClosed(s: Section)
    ensures SplitLines(FencedHeader(s)) == [TICKS, "", Header(s), "", TICKS]
    ensures SelfContained(FencedHeader(s)) && FenceAtEnd(None, SplitLines(FencedHeader(s))) == None
  {
    TicksFence();
    HeaderIsHeading(s);
    BlankLine();
    hide SplitLines;
    hide Marker;
    hide HeadingOf;
    hide Header;
    hide TICKS;
    hide IsSpace;
    hide KeepsSection;
    hide FenceAtEnd;
    var lines := [TICKS, "", Header(s), "", TICKS];
    assert forall l :: l in lines ==> OneLine(l);
    SplitJoin(lines);
    JoinFive(TICKS, Header(s), TICKS);
    JoinIsPlain(lines);
    FencedLines(lines);
    Ends(TICKS, "\n\n" + Header(s) + "\n\n", TICKS);
  }

  lemma Ends(a: string, b: string, c: string)
    requires EndsDark(a) && Trimmed(a) && EndsDark(c)
    ensures EndsDark(a + b + c) && Trimmed(a + b + c)
  {
  }

  lemma FencedLines(lines: seq<string>)
    requires |lines| == 5 && lines[0] == lines[4] == TICKS
    requires forall i :: 1 <= i <= 3 ==> Marker(lines[i]) == None
    ensures KeepsSection(None, lines) && FenceAtEnd(None, lines) == None
  {
    TicksFence();
    hide Marker;
    hide HeadingOf;
    hide TICKS;
    var open := Some(Fence('`', 3));
    assert lines == [lines[0]] + ([lines[1]] + ([lines[2]] + ([lines[3]] + ([lines[4]] + []))));
    InFence(open, lines[3], [lines[4]]);
    InFence(open, lines[2], [lines[3]] + [lines[4]]);
    InFence(open, lines[1], [lines[2]] + ([lines[3]] + [lines[4]]));
    assert lines[1..] == [lines[1]] + ([lines[2]] + ([lines[3]] + [lines[4]]));
  }

  lemma InFence(fence: Option<Fence>, line: string, rest: seq<string>)
    requires fence.Some? && Marker(line) == None
    ensures KeepsSection(fence, [line] + rest) == KeepsSection(fence, rest)
    ensures FenceAtEnd(fence, [line] + rest) == FenceAtEnd(fence, rest)
  {
    assert ([line] + rest)[1..] == rest;
  }

  lemma LeadingSpace(rest: string)
    ensures Leading(" " + rest) == 1 + Leading(rest)
  {
    assert (" " + rest)[1..] == rest;
  }

  lemma IndentedLeading()
    ensures Leading(INDENTED) > 3
  {
    assert INDENTED == " " + (" " + (" " + (" " + TICKS)));
    LeadingSpace(TICKS);
    LeadingSpace(" " + TICKS);
    LeadingSpace(" " + (" " + TICKS));
    LeadingSpace(" " + (" " + (" " + TICKS)));
    hide Leading;
  }

  lemma IndentedShape()
    ensures |INDENTED| > 2 && INDENTED[0] == ' ' && '\n' !in INDENTED && EndsDark(INDENTED)
    ensures INDENTED == "    " + TICKS
  {
  }

  lemma IndentedTicks()
    ensures Marker(INDENTED) == None && HeadingOf(INDENTED) == None && SplitLines(INDENTED) == [INDENTED]
    ensures EndsDark(INDENTED) && INDENTED == "    " + TICKS
  {
    IndentedLeading();
    IndentedShape();
    hide INDENTED;
    hide TICKS;
    hide Leading;
    hide IsSpace;
    assert INDENTED[..2][0] == ' ' && "##"[0] == '#';
    SplitOneLine(INDENTED);
  }

  lemma SamePrint(o: string, e: string, r: string, t: string)
    ensures o + "\n\n" + t + "\n\n" + e + "\n\n" + (t + "\n\n" + e + "\n\n" + t) + "\n\n"
            + r + "\n\n" + (t + "\n\n" + r + "\n\n" + t) + "\n"
            == o + "\n\n" + (t + "\n\n" + e + "\n\n" + t) + "\n\n" + e + "\n\n"
               + (t + "\n\n" + r + "\n\n" + t) + "\n\n" + r + "\n\n" + t + "\n"
  {
  }

  /**
   A body that no section text survives and that is a fixed point all the same:
   the observed text loses its indentation and opens a fence, and the headings
   inside the later fences take the places of the printed ones.
   */
  lemma AccidentalFixedPoint()
    ensures var value := PrintTexts(Three(INDENTED, FencedHeader(Expected), FencedHeader(Reproduction)));
            !Canonical(SectionTexts(value)) && Normalized(Normalized(value)) == Normalized(value)
  {
    var e, r := FencedHeader(Expected), FencedHeader(Reproduction);
    var first, second := Three(TICKS, e, r), Three(e, r, TICKS);
    FencedHeaderIsClosed(Expected);
    FencedHeaderIsClosed(Reproduction);
    OpenFenceExample();
    SamePrint(Header(Observed), Header(Expected), Header(Reproduction), TICKS);
    assert PrintTexts(first) == PrintTexts(second);
    IndentedReads();
    hide PrintTexts;
    hide FencedHeader;
    hide SelfContained;
    ReadsBack(second);
  }

  lemma IndentedReads()
    ensures var texts := Three(INDENTED, FencedHeader(Expected), FencedHeader(Reproduction));
            SectionTexts(PrintTexts(texts)) == texts.(observed := TICKS)
  {
    var texts := Three(INDENTED, FencedHeader(Expected), FencedHeader(Reproduction));
    FencedHeaderIsClosed(Expected);
    FencedHeaderIsClosed(Reproduction);
    IndentedTicks();
    IndentedKeeps();
    IndentedTrims();
    hide FencedHeader;
    hide SplitLines;
    hide PrintTexts;
    hide TICKS;
    hide INDENTED;
    hide IsSpace;
    hide KeepsSection;
    hide FenceAtEnd;
    hide JoinLines;
    hide Trim;
    hide PlainBreaks;
    hide OrPending;
    hide Marker;
    hide HeadingOf;
    forall s
      ensures EndsDark(texts.Get(s)) && KeepsSection(None, SplitLines(texts.Get(s)))
    {
    }
    ScanPrinted(texts);
    CollectedText(texts.expected, [""]);
    CollectedText(texts.reproduction, []);
    assert [""] + SplitLines(texts.reproduction) + [] == [""] + SplitLines(texts.reproduction);
  }

  lemma IndentedKeeps()
    ensures KeepsSection(None, SplitLines(INDENTED)) && FenceAtEnd(None, SplitLines(INDENTED)) == None
  {
    IndentedTicks();
    hide Marker;
    hide HeadingOf;
    hide INDENTED;
    assert [INDENTED][1..] == [];
  }

  lemma IndentedTrims()
    ensures OrPending(Trim(JoinLines([""] + [INDENTED] + [""]))) == TICKS
  {
    IndentedTicks();
    TicksFence();
    SpacesAreSpace();
    hide TICKS;
    hide INDENTED;
    hide IsSpace;
    hide Trim;
    JoinAppend([""] + [INDENTED], [""]);
    JoinAppend([""], [INDENTED]);
    assert JoinLines([""] + [INDENTED] + [""]) == "\n    " + TICKS + "\n";
    TrimAround("\n    ", TICKS, "\n");
  }

  lemma SpacesAreSpace()
    ensures forall c :: c in "\n    " || c in "\n" ==> IsSpace(c)
  {
  }
}
