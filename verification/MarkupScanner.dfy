/**
 The quote-aware markup scanner: start tags, end tags, closing tags of raw
 elements, and the two walks that drop comments and raw bodies. The grammar is
 the scanner's own. Lower-casing is ASCII, so it keeps every position.
 */
module MarkupScanner {
  import opened Wrappers
  import opened Texts

  predicate IsNameChar(c: char) {
    IsLetter(c) || '0' <= c <= '9' || c == ':' || c == '-'
  }

  predicate StartsAt(s: string, needle: string, i: nat) {
    i + |needle| <= |s| && forall k :: 0 <= k < |needle| ==> s[i + k] == needle[k]
  }

  /** `s.indexOf(needle, from)` */
  function IndexOf(s: string, needle: string, from: nat): (r: Option<nat>)
    ensures r.Some? ==> from <= r.value && r.value + |needle| <= |s|
    decreases |s| - from
  {
    if StartsAt(s, needle, from) then Some(from)
    else if from >= |s| then None
    else IndexOf(s, needle, from + 1)
  }

  lemma {:induction false} IndexIsFirst(s: string, needle: string, from: nat)
    ensures var r := IndexOf(s, needle, from);
            && (r.Some? ==> StartsAt(s, needle, r.value))
            && forall i: nat :: from <= i && StartsAt(s, needle, i) ==> r.Some? && r.value <= i
    decreases |s| - from
  {
    if !StartsAt(s, needle, from) && from < |s| {
      IndexIsFirst(s, needle, from + 1);
    }
  }

  // -------------------------------------------------------------- quote scan

  /** The quote that is open before position `k`, for a scan that starts at `from`. */
  function QuoteAt(html: string, from: nat, k: nat): Option<char>
    requires from <= k <= |html|
    decreases k
  {
    if k == from then None
    else
      var quote := QuoteAt(html, from, k - 1);
      var c := html[k - 1];
      if quote.Some? then (if c == quote.value then None else quote)
      else if c == '"' || c == '\'' then Some(c)
      else None
  }

  /** A `>` at `k`, outside quotes for a scan that starts at `from`. */
  predicate Closes(html: string, from: nat, k: nat) {
    from <= k < |html| && html[k] == '>' && QuoteAt(html, from, k) == None
  }

  function CloseFrom(html: string, from: nat, k: nat): (r: Option<nat>)
    requires from <= k <= |html|
    ensures r.Some? ==> k <= r.value < |html|
    decreases |html| - k
  {
    if k == |html| then None
    else if Closes(html, from, k) then Some(k)
    else CloseFrom(html, from, k + 1)
  }

  /** The close is the first `>` outside quotes; there is none exactly when no `>` stands outside quotes. */
  lemma {:induction false} CloseIsFirst(html: string, from: nat, k: nat)
    requires from <= k <= |html|
    ensures var r := CloseFrom(html, from, k);
            && (r.Some? ==> Closes(html, from, r.value))
            && forall j :: k <= j && Closes(html, from, j) ==> r.Some? && r.value <= j
    decreases |html| - k
  {
    if k < |html| && !Closes(html, from, k) {
      CloseIsFirst(html, from, k + 1);
    }
  }

  /** The loop both tag readers run from the end of the name. */
  method FindClose(html: string, cursor: nat) returns (r: Option<nat>)
    requires cursor <= |html|
    ensures r == CloseFrom(html, cursor, cursor)
  {
    var quote: Option<char> := None;
    for end := cursor to |html|
      invariant quote == QuoteAt(html, cursor, end)
      invariant CloseFrom(html, cursor, cursor) == CloseFrom(html, cursor, end)
    {
      var character := html[end];
      if quote.Some? {
        if character == quote.value {
          quote := None;
        }
      } else if character == '"' || character == '\'' {
        quote := Some(character);
      } else if character == '>' {
        return Some(end);
      }
    }
    return None;
  }

  function NameEnd(html: string, cursor: nat): (r: nat)
    requires cursor <= |html|
    ensures cursor <= r <= |html|
    decreases |html| - cursor
  {
    if cursor < |html| && IsNameChar(html[cursor]) then NameEnd(html, cursor + 1) else cursor
  }

  lemma {:induction false} NameIsMaximal(html: string, cursor: nat)
    requires cursor <= |html|
    ensures var r := NameEnd(html, cursor);
            && (forall i :: cursor <= i < r ==> IsNameChar(html[i]))
            && (r < |html| ==> !IsNameChar(html[r]))
    decreases |html| - cursor
  {
    if cursor < |html| && IsNameChar(html[cursor]) {
      NameIsMaximal(html, cursor + 1);
    }
  }

  // -------------------------------------------------------------- tag readers

  datatype Tag = Tag(name: string, attrs: string, source: string, start: nat, end: nat)

  datatype EndTag = EndTag(name: string, start: nat, end: nat)

  /** `attrs.replace(/\/\s*$/, "")` */
  function WithoutSlash(attrs: string): string {
    var t := TrimRight(attrs);
    if t != "" && t[|t| - 1] == '/' then t[..|t| - 1] else attrs
  }

  function StartTagAt(html: string, index: nat): (r: Option<Tag>)
    ensures r.Some? ==> index == r.value.start < r.value.end <= |html|
  {
    if index + 1 >= |html| || html[index] != '<' || !IsLetter(html[index + 1]) then None
    else
      var cursor := NameEnd(html, index + 1);
      if cursor == |html| || !(IsSpace(html[cursor]) || html[cursor] == '/' || html[cursor] == '>') then None
      else
        match CloseFrom(html, cursor, cursor)
        case None => None
        case Some(e) =>
          Some(Tag(Lower(html[index + 1..cursor]), WithoutSlash(html[cursor..e]), html[index..e + 1], index, e + 1))
  }

  function EndTagAt(html: string, index: nat): (r: Option<EndTag>)
    ensures r.Some? ==> index == r.value.start < r.value.end <= |html|
  {
    if !StartsAt(html, "</", index) || index + 2 >= |html| || !IsLetter(html[index + 2]) then None
    else
      var cursor := NameEnd(html, index + 2);
      if cursor == |html| || !(IsSpace(html[cursor]) || html[cursor] == '>') then None
      else
        match CloseFrom(html, cursor, cursor)
        case None => None
        case Some(e) => Some(EndTag(Lower(html[index + 2..cursor]), index, e + 1))
  }

  method ReadStartTagAt(html: string, index: nat) returns (tag: Option<Tag>)
    ensures tag == StartTagAt(html, index)
  {
    if index + 1 >= |html| || html[index] != '<' || !IsLetter(html[index + 1]) {
      return None;
    }
    var cursor := index + 1;
    while cursor < |html| && IsNameChar(html[cursor])
      invariant index + 1 <= cursor <= |html|
      invariant NameEnd(html, index + 1) == NameEnd(html, cursor)
    {
      cursor := cursor + 1;
    }
    var name := Lower(html[index + 1..cursor]);
    if name == "" || cursor == |html| || !(IsSpace(html[cursor]) || html[cursor] == '/' || html[cursor] == '>') {
      return None;
    }
    var end := FindClose(html, cursor);
    if end.None? {
      return None;
    }
    return Some(Tag(name, WithoutSlash(html[cursor..end.value]), html[index..end.value + 1], index, end.value + 1));
  }

  method ReadEndTagAt(html: string, index: nat) returns (tag: Option<EndTag>)
    ensures tag == EndTagAt(html, index)
  {
    if !StartsAt(html, "</", index) || index + 2 >= |html| || !IsLetter(html[index + 2]) {
      return None;
    }
    var cursor := index + 2;
    while cursor < |html| && IsNameChar(html[cursor])
      invariant index + 2 <= cursor <= |html|
      invariant NameEnd(html, index + 2) == NameEnd(html, cursor)
    {
      cursor := cursor + 1;
    }
    var name := Lower(html[index + 2..cursor]);
    if name == "" || cursor == |html| || !(IsSpace(html[cursor]) || html[cursor] == '>') {
      return None;
    }
    var end := FindClose(html, cursor);
    if end.None? {
      return None;
    }
    return Some(EndTag(name, index, end.value + 1));
  }

  // ----------------------------------------------------------- closing tags

  predicate EndsElement(html: string, name: string, i: nat) {
    EndTagAt(html, i).Some? && EndTagAt(html, i).value.name == name
  }

  /** The leftmost end tag of that name at or after `from`. */
  function ClosingTag(html: string, name: string, from: nat): (r: Option<EndTag>)
    ensures r.Some? ==> from <= r.value.start < r.value.end <= |html|
    decreases |html| - from
  {
    if EndsElement(html, name, from) then EndTagAt(html, from)
    else if from >= |html| then None
    else ClosingTag(html, name, from + 1)
  }

  lemma {:induction false} ClosingTagIsLeftmost(html: string, name: string, from: nat)
    ensures var r := ClosingTag(html, name, from);
            && (r.Some? ==> EndsElement(html, name, r.value.start) && EndTagAt(html, r.value.start) == r)
            && forall i: nat :: from <= i && EndsElement(html, name, i) ==> r.Some? && r.value.start <= i
    decreases |html| - from
  {
    if !EndsElement(html, name, from) && from < |html| {
      ClosingTagIsLeftmost(html, name, from + 1);
    }
  }

  predicate IsTagName(name: string) {
    name != "" && forall i :: 0 <= i < |name| ==> IsNameChar(name[i])
  }

  lemma NameIsTagName(html: string, from: nat)
    requires from < |html| && IsLetter(html[from])
    ensures from < NameEnd(html, from) && IsTagName(Lower(html[from..NameEnd(html, from)]))
  {
    NameIsMaximal(html, from);
    var name := html[from..NameEnd(html, from)];
    forall i | 0 <= i < |name|
      ensures IsNameChar(Lower(name)[i])
    {
      LowerAt(name, i);
    }
  }

  /** Every end tag of that name starts where the needle does. */
  lemma EndTagShowsNeedle(html: string, name: string, i: nat)
    requires EndsElement(html, name, i)
    ensures StartsAt(Lower(html), "</" + name, i)
  {
    var cursor := NameEnd(html, i + 2);
    var raw := html[i + 2..cursor];
    assert name == Lower(raw);
    assert html[i + 0] == "</"[0] && html[i + 1] == "</"[1];
    forall k | 0 <= k < |"</" + name|
      ensures Lower(html)[i + k] == ("</" + name)[k]
    {
      LowerAt(html, i + k);
      if k >= 2 {
        LowerAt(raw, k - 2);
        assert raw[k - 2] == html[i + k];
      }
    }
  }

  lemma EndTagStartsWithLess(html: string, i: nat)
    requires EndTagAt(html, i).Some?
    ensures html[i] == '<'
  {
    assert html[i + 0] == "</"[0];
  }

  /** No end tag starts inside an occurrence of the needle, so the jump by its length skips none. */
  lemma NothingInsideNeedle(html: string, name: string, start: nat)
    requires IsTagName(name) && StartsAt(Lower(html), "</" + name, start)
    ensures forall i :: start < i < start + |name| + 2 ==> !EndsElement(html, name, i)
  {
    var needle := "</" + name;
    forall i | start < i < start + |needle|
      ensures !EndsElement(html, name, i)
    {
      assert Lower(html)[start + (i - start)] == needle[i - start];
      LowerAt(html, i);
      assert needle[i - start] == if i - start == 1 then '/' else name[i - start - 2];
      assert html[i] != '<';
      if EndsElement(html, name, i) {
        EndTagStartsWithLess(html, i);
      }
    }
  }

  /** The search that jumps by the needle length still finds the leftmost end tag. */
  method FindClosingTag(html: string, name: string, fromIndex: nat) returns (tag: Option<EndTag>)
    requires IsTagName(name)
    ensures tag == ClosingTag(html, name, fromIndex)
  {
    hide ClosingTag;
    hide IndexOf;
    hide Lower;
    hide EndTagAt;
    hide IsTagName;
    hide StartsAt;
    var lower := Lower(html);
    var needle := "</" + name;
    var start := IndexOf(lower, needle, fromIndex);
    ghost var passed := fromIndex;
    while start.Some?
      invariant fromIndex <= passed && start == IndexOf(lower, needle, passed)
      invariant ClosingTag(html, name, fromIndex) == ClosingTag(html, name, passed)
      decreases |html| - passed
    {
      var found := ReadEndTagAt(html, start.value);
      SearchStep(html, name, passed, start.value);
      if found.Some? && found.value.name == name {
        return found;
      }
      passed := start.value + |needle|;
      start := IndexOf(lower, needle, start.value + |needle|);
    }
    NoNeedleNoClosing(html, name, passed);
    return None;
  }

  /** One turn of the search: the needle found at `start` opens the end tag sought, or can be jumped over. */
  lemma SearchStep(html: string, name: string, passed: nat, start: nat)
    requires IsTagName(name) && IndexOf(Lower(html), "</" + name, passed) == Some(start)
    ensures ClosingTag(html, name, passed)
            == if EndsElement(html, name, start) then EndTagAt(html, start)
               else ClosingTag(html, name, start + |"</" + name|)
  {
    hide Lower;
    hide EndTagAt;
    hide IndexOf;
    IndexIsFirst(Lower(html), "</" + name, passed);
    SkipWithoutNeedle(html, name, passed, start);
    if !EndsElement(html, name, start) {
      NothingInsideNeedle(html, name, start);
      SkipToPosition(html, name, start, start + |name| + 2);
    }
  }

  lemma NoNeedleNoClosing(html: string, name: string, passed: nat)
    requires IndexOf(Lower(html), "</" + name, passed) == None
    ensures ClosingTag(html, name, passed) == None
  {
    IndexIsFirst(Lower(html), "</" + name, passed);
    ClosingTagIsLeftmost(html, name, passed);
    if ClosingTag(html, name, passed).Some? {
      EndTagShowsNeedle(html, name, ClosingTag(html, name, passed).value.start);
    }
  }

  lemma {:induction false} SkipToPosition(html: string, name: string, from: nat, until: nat)
    requires from <= until && forall i :: from <= i < until ==> !EndsElement(html, name, i)
    ensures ClosingTag(html, name, from) == ClosingTag(html, name, until)
    decreases until - from
  {
    if from < until {
      if from >= |html| {
        assert ClosingTag(html, name, from).None? && ClosingTag(html, name, until).None?;
      } else {
        SkipToPosition(html, name, from + 1, until);
      }
    }
  }

  lemma SkipWithoutNeedle(html: string, name: string, from: nat, until: nat)
    requires from <= until && forall i :: from <= i < until ==> !StartsAt(Lower(html), "</" + name, i)
    ensures ClosingTag(html, name, from) == ClosingTag(html, name, until)
  {
    forall i | from <= i < until
      ensures !EndsElement(html, name, i)
    {
      if EndsElement(html, name, i) {
        EndTagShowsNeedle(html, name, i);
      }
    }
    SkipToPosition(html, name, from, until);
  }

  // ------------------------------------------------- the two dropping walks

  /** A run of the source: kept by `structuralMarkup`, or dropped as a comment, a raw body or an unclosed raw rest. */
  datatype Chunk =
    | Kept(text: string)
    | Comment(text: string)
    | Body(name: string, text: string)
    | Unclosed(text: string)

  predicate IsRawName(name: string) {
    name == "script" || name == "style" || name == "template" || name == "title"
  }

  /** Where a comment that opens at `index` ends. */
  function CommentEnd(html: string, index: nat): (r: nat)
    requires index < |html|
    ensures index < r <= |html|
  {
    var end := IndexOf(html, "-->", index + 4);
    if end.None? then |html| else end.value + 3
  }

  /** A raw element: its tags are kept, what lies between is dropped; without an end tag all the rest is. */
  function RawChunks(html: string, tag: Tag): (seq<Chunk>, nat)
    requires tag.end <= |html|
  {
    match ClosingTag(html, tag.name, tag.end)
    case None => ([Kept(tag.source), Unclosed(html[tag.end..])], |html|)
    case Some(close) =>
      ([Kept(tag.source), Body(tag.name, html[tag.end..close.start]), Kept(html[close.start..close.end])], close.end)
  }

  /** Where the walk goes from `index`, and the chunks it passes on the way. */
  function Advance(html: string, index: nat): (r: (seq<Chunk>, nat))
    requires index < |html|
    ensures index < r.1 <= |html|
  {
    if StartsAt(html, "<!--", index) then ([Comment(html[index..CommentEnd(html, index)])], CommentEnd(html, index))
    else
      match StartTagAt(html, index)
      case None => ([Kept([html[index]])], index + 1)
      case Some(tag) => if IsRawName(tag.name) then RawChunks(html, tag) else ([Kept(tag.source)], tag.end)
  }

  function Chunks(html: string, index: nat): seq<Chunk>
    requires index <= |html|
    decreases |html| - index
  {
    if index == |html| then [] else Advance(html, index).0 + Chunks(html, Advance(html, index).1)
  }

  function AllText(chunks: seq<Chunk>): string {
    if chunks == [] then "" else chunks[0].text + AllText(chunks[1..])
  }

  function KeptPart(chunk: Chunk): string {
    if chunk.Kept? then chunk.text else ""
  }

  function BodyPart(chunk: Chunk, name: string): seq<string> {
    if chunk.Body? && chunk.name == name then [chunk.text] else []
  }

  function KeptText(chunks: seq<Chunk>): string {
    if chunks == [] then ""
    else KeptPart(chunks[0]) + KeptText(chunks[1..])
  }

  function BodiesOf(chunks: seq<Chunk>, name: string): seq<string> {
    if chunks == [] then []
    else BodyPart(chunks[0], name) + BodiesOf(chunks[1..], name)
  }

  lemma {:induction false} AllTextAppend(a: seq<Chunk>, b: seq<Chunk>)
    ensures AllText(a + b) == AllText(a) + AllText(b)
  {
    if a == [] {
      assert a + b == b;
    } else {
      assert (a + b)[1..] == a[1..] + b;
      AllTextAppend(a[1..], b);
    }
  }

  lemma {:induction false} KeptTextAppend(a: seq<Chunk>, b: seq<Chunk>)
    ensures KeptText(a + b) == KeptText(a) + KeptText(b)
  {
    if a == [] {
      assert a + b == b;
    } else {
      assert (a + b)[1..] == a[1..] + b;
      KeptTextAppend(a[1..], b);
    }
  }

  lemma {:induction false} BodiesAppend(a: seq<Chunk>, b: seq<Chunk>, name: string)
    ensures BodiesOf(a + b, name) == BodiesOf(a, name) + BodiesOf(b, name)
  {
    if a == [] {
      assert a + b == b;
    } else {
      assert (a + b)[1..] == a[1..] + b;
      BodiesAppend(a[1..], b, name);
    }
  }

  lemma ChunkList(chunk: Chunk, rest: seq<Chunk>, name: string)
    ensures AllText([chunk] + rest) == chunk.text + AllText(rest)
    ensures KeptText([chunk] + rest) == KeptPart(chunk) + KeptText(rest)
    ensures BodiesOf([chunk] + rest, name) == BodyPart(chunk, name) + BodiesOf(rest, name)
  {
    assert ([chunk] + rest)[1..] == rest;
  }

  lemma OneChunk(a: Chunk, name: string)
    ensures AllText([a]) == a.text && KeptText([a]) == KeptPart(a) && BodiesOf([a], name) == BodyPart(a, name)
  {
    ChunkList(a, [], name);
    assert [a] + [] == [a];
  }

  lemma TwoChunks(a: Chunk, b: Chunk, name: string)
    ensures AllText([a, b]) == a.text + b.text
    ensures KeptText([a, b]) == KeptPart(a) + KeptPart(b)
    ensures BodiesOf([a, b], name) == BodyPart(a, name) + BodyPart(b, name)
  {
    OneChunk(b, name);
    ChunkList(a, [b], name);
    assert [a] + [b] == [a, b];
  }

  lemma ThreeChunks(a: Chunk, b: Chunk, c: Chunk, name: string)
    ensures AllText([a, b, c]) == a.text + (b.text + c.text)
    ensures KeptText([a, b, c]) == KeptPart(a) + (KeptPart(b) + KeptPart(c))
    ensures BodiesOf([a, b, c], name) == BodyPart(a, name) + (BodyPart(b, name) + BodyPart(c, name))
  {
    TwoChunks(b, c, name);
    ChunkList(a, [b, c], name);
    assert [a] + [b, c] == [a, b, c];
  }

  lemma Glue(s: string, i: nat, j: nat, k: nat)
    requires i <= j <= k <= |s|
    ensures s[i..j] + s[j..k] == s[i..k]
  {
  }

  lemma SourceOfTag(html: string, index: nat)
    requires StartTagAt(html, index).Some?
    ensures var tag := StartTagAt(html, index).value;
            tag.source == html[tag.start..tag.end] && tag.start == index && IsTagName(tag.name)
  {
    NameIsTagName(html, index + 1);
  }

  lemma RawCovers(html: string, tag: Tag)
    requires tag.start < tag.end <= |html| && tag.source == html[tag.start..tag.end]
    ensures AllText(RawChunks(html, tag).0) == html[tag.start..RawChunks(html, tag).1]
  {
    match ClosingTag(html, tag.name, tag.end)
    case None =>
      TwoChunks(Kept(tag.source), Unclosed(html[tag.end..]), "");
      Glue(html, tag.start, tag.end, |html|);
    case Some(close) =>
      ThreeChunks(Kept(tag.source), Body(tag.name, html[tag.end..close.start]), Kept(html[close.start..close.end]), "");
      Glue(html, tag.end, close.start, close.end);
      Glue(html, tag.start, tag.end, close.end);
  }

  lemma AdvanceCovers(html: string, index: nat)
    requires index < |html|
    ensures AllText(Advance(html, index).0) == html[index..Advance(html, index).1]
  {
    var chunks := Advance(html, index).0;
    OneChunk(chunks[0], "");
    if !StartsAt(html, "<!--", index) && StartTagAt(html, index).Some? {
      var tag := StartTagAt(html, index).value;
      SourceOfTag(html, index);
      if IsRawName(tag.name) {
        RawCovers(html, tag);
      }
    }
  }

  lemma CoverStep(html: string, index: nat, next: nat, head: seq<Chunk>, rest: seq<Chunk>)
    requires index <= next <= |html| && AllText(head) == html[index..next] && AllText(rest) == html[next..]
    ensures AllText(head + rest) == html[index..]
  {
    AllTextAppend(head, rest);
    hide AllText;
    GlueEnd(html, index, next);
  }

  lemma GlueEnd(html: string, index: nat, next: nat)
    requires index <= next <= |html|
    ensures html[index..next] + html[next..] == html[index..]
  {
  }

  /** The chunks, in order, are the source: nothing is lost, doubled or moved. */
  lemma {:induction false} ChunksCoverSource(html: string, index: nat)
    requires index <= |html|
    ensures AllText(Chunks(html, index)) == html[index..]
    decreases |html| - index
  {
    if index < |html| {
      var next := Advance(html, index).1;
      ChunksCoverSource(html, next);
      AdvanceCovers(html, index);
      CoverStep(html, index, next, Advance(html, index).0, Chunks(html, next));
    }
  }

  /** What one advance adds to the kept text, and to the bodies of a name. */
  lemma AdvanceAdds(html: string, index: nat, name: string)
    requires index < |html|
    ensures KeptText(Chunks(html, index)) ==
            KeptText(Advance(html, index).0) + KeptText(Chunks(html, Advance(html, index).1))
    ensures BodiesOf(Chunks(html, index), name)
            == BodiesOf(Advance(html, index).0, name) + BodiesOf(Chunks(html, Advance(html, index).1), name)
  {
    KeptTextAppend(Advance(html, index).0, Chunks(html, Advance(html, index).1));
    BodiesAppend(Advance(html, index).0, Chunks(html, Advance(html, index).1), name);
  }

  lemma RawAdds(html: string, tag: Tag, name: string)
    requires tag.end <= |html|
    ensures KeptText(RawChunks(html, tag).0) ==
            match ClosingTag(html, tag.name, tag.end)
            case None => tag.source
            case Some(close) => tag.source + html[close.start..close.end]
    ensures BodiesOf(RawChunks(html, tag).0, name) ==
            match ClosingTag(html, tag.name, tag.end)
            case None => []
            case Some(close) => if tag.name == name then [html[tag.end..close.start]] else []
  {
    hide ClosingTag;
    hide KeptText;
    hide BodiesOf;
    match ClosingTag(html, tag.name, tag.end)
    case None =>
      TwoChunks(Kept(tag.source), Unclosed(html[tag.end..]), name);
    case Some(close) =>
      ThreeChunks(Kept(tag.source),
                  Body(tag.name, html[tag.end..close.start]), Kept(html[close.start..close.end]), name);
  }

  /** One advance of the walk that keeps text; the next position and the text added. */
  method KeepStep(source: string, index: nat) returns (next: nat, text: string)
    requires index < |source|
    ensures next == Advance(source, index).1 && text == KeptText(Advance(source, index).0)
  {
    ghost var chunks := Advance(source, index).0;
    OneChunk(chunks[0], "");
    if StartsAt(source, "<!--", index) {
      return CommentEnd(source, index), "";
    }
    var tag := ReadStartTagAt(source, index);
    if tag.None? {
      return index + 1, [source[index]];
    }
    SourceOfTag(source, index);
    if !IsRawName(tag.value.name) {
      return tag.value.end, tag.value.source;
    }
    var close := FindClosingTag(source, tag.value.name, tag.value.end);
    RawAdds(source, tag.value, "");
    if close.None? {
      return |source|, tag.value.source;
    }
    return close.value.end, tag.value.source + source[close.value.start..close.value.end];
  }

  lemma KeptStep(source: string, index: nat, output: string, whole: string)
    requires index < |source| && output + KeptText(Chunks(source, index)) == whole
    ensures (output + KeptText(Advance(source, index).0)) + KeptText(Chunks(source, Advance(source, index).1)) == whole
  {
    hide KeptText;
    hide Advance;
    hide Chunks;
    AdvanceAdds(source, index, "");
    JoinThree(output, KeptText(Advance(source, index).0), KeptText(Chunks(source, Advance(source, index).1)));
  }

  lemma JoinThree(a: string, b: string, c: string)
    ensures a + (b + c) == (a + b) + c
  {
  }

  /** `structuralMarkup`: the source without comments, raw bodies and unclosed raw rests. */
  method StructuralMarkup(source: string) returns (output: string)
    ensures output == KeptText(Chunks(source, 0))
  {
    assert Chunks(source, |source|) == [] && KeptText([]) == "";
    hide Advance;
    hide KeptText;
    hide Chunks;
    output := "";
    var index := 0;
    while index < |source|
      invariant index <= |source|
      invariant output + KeptText(Chunks(source, index)) == KeptText(Chunks(source, 0))
    {
      KeptStep(source, index, output, KeptText(Chunks(source, 0)));
      var text;
      index, text := KeepStep(source, index);
      output := output + text;
    }
  }

  /** One advance of the walk that collects bodies. */
  method CollectStep(source: string, index: nat, targetName: string) returns (next: nat, found: seq<string>)
    requires index < |source|
    ensures next == Advance(source, index).1 && found == BodiesOf(Advance(source, index).0, targetName)
  {
    ghost var chunks := Advance(source, index).0;
    OneChunk(chunks[0], targetName);
    if StartsAt(source, "<!--", index) {
      return CommentEnd(source, index), [];
    }
    var tag := ReadStartTagAt(source, index);
    if tag.None? {
      return index + 1, [];
    }
    SourceOfTag(source, index);
    if !IsRawName(tag.value.name) {
      return tag.value.end, [];
    }
    var close := FindClosingTag(source, tag.value.name, tag.value.end);
    RawAdds(source, tag.value, targetName);
    if close.None? {
      return |source|, [];
    }
    return close.value.end,
           if tag.value.name == targetName then [source[tag.value.end..close.value.start]] else [];
  }

  lemma BodiesStep(source: string, index: nat, name: string, bodies: seq<string>, whole: seq<string>)
    requires index < |source| && bodies + BodiesOf(Chunks(source, index), name) == whole
    ensures (bodies + BodiesOf(Advance(source, index).0, name))
            + BodiesOf(Chunks(source, Advance(source, index).1), name) == whole
  {
    hide BodiesOf;
    hide Advance;
    hide Chunks;
    AdvanceAdds(source, index, name);
  }

  /** `rawElementBodies`: exactly the dropped bodies of the closed elements of that name. */
  method RawElementBodies(source: string, targetName: string) returns (bodies: seq<string>)
    ensures bodies == BodiesOf(Chunks(source, 0), targetName)
  {
    assert Chunks(source, |source|) == [] && BodiesOf([], targetName) == [];
    hide Advance;
    hide BodiesOf;
    hide Chunks;
    bodies := [];
    var index := 0;
    while index < |source|
      invariant index <= |source|
      invariant bodies + BodiesOf(Chunks(source, index), targetName) == BodiesOf(Chunks(source, 0), targetName)
    {
      BodiesStep(source, index, targetName, bodies, BodiesOf(Chunks(source, 0), targetName));
      var found;
      index, found := CollectStep(source, index, targetName);
      bodies := bodies + found;
    }
  }

  // -------------------------------------------------------------- start tags

  /** What the start-tag walk passes in one turn. */
  datatype Mark =
    | StartMark(tag: Tag)
    | EndMark(endTag: EndTag)
    | Plain(at: nat)
  {
    function From(): nat {
      match this
      case StartMark(tag) => tag.start
      case EndMark(endTag) => endTag.start
      case Plain(at) => at
    }

    function Until(): nat {
      match this
      case StartMark(tag) => tag.end
      case EndMark(endTag) => endTag.end
      case Plain(at) => at + 1
    }
  }

  function MarkAt(html: string, index: nat): (mark: Mark)
    requires index < |html|
    ensures index == mark.From() < mark.Until() <= |html|
  {
    match StartTagAt(html, index)
    case Some(tag) => StartMark(tag)
    case None =>
      match EndTagAt(html, index)
      case Some(endTag) => EndMark(endTag)
      case None => Plain(index)
  }

  function Marks(html: string, index: nat): seq<Mark>
    requires index <= |html|
    decreases |html| - index
  {
    if index == |html| then [] else [MarkAt(html, index)] + Marks(html, MarkAt(html, index).Until())
  }

  function TagPart(mark: Mark): seq<Tag> {
    if mark.StartMark? then [mark.tag] else []
  }

  /** The tags of the start marks, in order. */
  function TagsOf(marks: seq<Mark>): seq<Tag> {
    if marks == [] then [] else TagPart(marks[0]) + TagsOf(marks[1..])
  }

  lemma TagsUnfold(html: string, index: nat)
    requires index < |html|
    ensures TagsOf(Marks(html, index)) ==
            TagPart(MarkAt(html, index)) + TagsOf(Marks(html, MarkAt(html, index).Until()))
  {
    var rest := Marks(html, MarkAt(html, index).Until());
    assert ([MarkAt(html, index)] + rest)[1..] == rest;
  }

  lemma TagsStep(html: string, index: nat, tags: seq<Tag>, whole: seq<Tag>)
    requires index < |html| && tags + TagsOf(Marks(html, index)) == whole
    ensures (tags + TagPart(MarkAt(html, index))) + TagsOf(Marks(html, MarkAt(html, index).Until())) == whole
  {
    TagsUnfold(html, index);
  }

  method StartTags(html: string) returns (tags: seq<Tag>)
    ensures tags == TagsOf(Marks(html, 0))
  {
    tags := [];
    var index := 0;
    while index < |html|
      invariant index <= |html|
      invariant tags + TagsOf(Marks(html, index)) == TagsOf(Marks(html, 0))
    {
      TagsStep(html, index, tags, TagsOf(Marks(html, 0)));
      var tag := ReadStartTagAt(html, index);
      if tag.Some? {
        tags := tags + [tag.value];
        index := tag.value.end;
      } else {
        var endTag := ReadEndTagAt(html, index);
        assert tags + [] == tags;
        index := if endTag.Some? then endTag.value.end else index + 1;
      }
    }
  }

  /** A start tag is its slice of the source, and ends at the first `>` outside quotes after its name. */
  lemma StartTagIsItsSlice(html: string, index: nat)
    ensures StartTagAt(html, index).Some?
            <==> && index + 1 < |html| && html[index] == '<' && IsLetter(html[index + 1])
                 && var cursor := NameEnd(html, index + 1);
                 && cursor < |html| && (IsSpace(html[cursor]) || html[cursor] == '/' || html[cursor] == '>')
                 && exists e :: Closes(html, cursor, e)
    ensures StartTagAt(html, index).Some?
            ==> var tag := StartTagAt(html, index).value;
                var cursor := NameEnd(html, index + 1);
                && tag.start == index && tag.source == html[index..tag.end]
                && Closes(html, cursor, tag.end - 1)
                && forall j :: Closes(html, cursor, j) ==> tag.end - 1 <= j
  {
    if index + 1 < |html| {
      var cursor := NameEnd(html, index + 1);
      CloseIsFirst(html, cursor, cursor);
    }
  }

  lemma {:induction false} TagsAreReadable(html: string, index: nat)
    requires index <= |html|
    ensures forall mark :: mark in Marks(html, index) ==> index <= mark.From()
    ensures forall tag :: tag in TagsOf(Marks(html, index)) ==>
                    index <= tag.start && StartTagAt(html, tag.start) == Some(tag)
    decreases |html| - index
  {
    if index < |html| {
      TagsUnfold(html, index);
      TagsAreReadable(html, MarkAt(html, index).Until());
    }
  }

  predicate Before(tags: seq<Tag>, i: nat, j: nat)
    requires i < j < |tags|
  {
    tags[i].start < tags[i].end <= tags[j].start
  }

  /** The spans are disjoint and strictly increasing. */
  lemma {:induction false} TagsIncrease(html: string, index: nat)
    requires index <= |html|
    ensures var tags := TagsOf(Marks(html, index)); forall i, j :: 0 <= i < j < |tags| ==> Before(tags, i, j)
    decreases |html| - index
  {
    hide StartTagAt;
    hide EndTagAt;
    hide MarkAt;
    if index < |html| {
      var next := MarkAt(html, index).Until();
      var rest := TagsOf(Marks(html, next));
      var tags := TagsOf(Marks(html, index));
      TagsUnfold(html, index);
      TagsIncrease(html, next);
      TagsAreReadable(html, next);
      if MarkAt(html, index).StartMark? {
        forall i, j | 0 <= i < j < |tags|
          ensures Before(tags, i, j)
        {
          assert tags[j] == rest[j - 1];
          if i > 0 {
            assert Before(rest, i - 1, j - 1);
          } else {
            assert rest[j - 1] in rest;
          }
        }
      } else {
        assert tags == rest;
      }
    }
  }

  /** `p` lies behind the first character of something the walk passed in one turn. */
  ghost predicate Covered(html: string, index: nat, p: nat)
    requires index <= |html|
  {
    exists mark :: mark in Marks(html, index) && mark.From() < p < mark.Until()
  }

  /**
   A readable start tag is returned exactly when it does not begin inside a
   start tag or an accepted end tag that the walk has passed.
   */
  lemma {:induction false} ReturnedUnlessCovered(html: string, index: nat, p: nat)
    requires index <= p < |html| && StartTagAt(html, p).Some?
    ensures StartTagAt(html, p).value in TagsOf(Marks(html, index)) <==> !Covered(html, index, p)
    decreases |html| - index
  {
    var mark := MarkAt(html, index);
    var next := mark.Until();
    var tag := StartTagAt(html, p).value;
    TagsUnfold(html, index);
    TagsAreReadable(html, next);
    TagsAreReadable(html, index);
    if p == index {
      assert tag in TagPart(mark);
      assert tag in TagsOf(Marks(html, index));
    } else if p < next {
      assert mark in Marks(html, index);
      assert tag !in TagPart(mark);
    } else {
      ReturnedUnlessCovered(html, next, p);
      if Covered(html, next, p) {
        var inner :| inner in Marks(html, next) && inner.From() < p < inner.Until();
        assert inner in Marks(html, index);
      }
      assert tag !in TagPart(mark);
    }
  }

  predicate Adjacent(marks: seq<Mark>, i: nat)
    requires i + 1 < |marks|
  {
    marks[i].Until() == marks[i + 1].From()
  }

  /** The marks tile the source: no position is skipped or read twice. */
  lemma {:induction false} MarksTile(html: string, index: nat)
    requires index < |html|
    ensures var marks := Marks(html, index);
            && marks != [] && marks[0].From() == index && marks[|marks| - 1].Until() == |html|
            && forall i :: 0 <= i < |marks| - 1 ==> Adjacent(marks, i)
    decreases |html| - index
  {
    var next := MarkAt(html, index).Until();
    if next < |html| {
      MarksTile(html, next);
      var marks := Marks(html, index);
      var rest := Marks(html, next);
      forall i | 0 <= i < |marks| - 1
        ensures Adjacent(marks, i)
      {
        if i > 0 {
          assert Adjacent(rest, i - 1);
        }
      }
    }
  }
}
