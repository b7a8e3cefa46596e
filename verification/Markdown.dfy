/** Markdown to HTML (jobsmith/dag/report_html.py): a stack machine that takes back a `</li>` it has
    already written when a list turns out to be nested in that item. Inline content is an opaque
    fragment, already escaped and balanced, that never ends in `</li>`. */
module Markdown {

  // ---------- what a browser makes of the output ----------

  datatype Tag = Ul | Ol | Li | P | Heading(level: nat) | Pre | Code | Hr

  datatype Token = OpenTag(tag: Tag) | CloseTag(tag: Tag) | Text(content: string) | Void(tag: Tag)

  /** One entry of the output list: a string of the source. */
  datatype Chunk =
    | ListOpen(list: Tag)
    | ListClose(list: Tag)
    | Item(content: string, closed: bool)
    | ItemClose
    | Paragraph(lines: seq<string>)
    | HeadingBlock(level: nat, text: string)
    | CodeBlock(code: seq<string>)
    | Rule

  function Texts(lines: seq<string>): seq<Token> {
    if lines == [] then [] else Texts(lines[..|lines| - 1]) + [Text(lines[|lines| - 1])]
  }

  function Tokens(c: Chunk): seq<Token> {
    match c
    case ListOpen(t) => [OpenTag(t)]
    case ListClose(t) => [CloseTag(t)]
    case Item(content, closed) => [OpenTag(Li), Text(content)] + if closed then [CloseTag(Li)] else []
    case ItemClose => [CloseTag(Li)]
    case Paragraph(lines) => [OpenTag(P)] + Texts(lines) + [CloseTag(P)]
    case HeadingBlock(level, text) => [OpenTag(Heading(level)), Text(text), CloseTag(Heading(level))]
    case CodeBlock(code) => [OpenTag(Pre), OpenTag(Code)] + Texts(code) + [CloseTag(Code), CloseTag(Pre)]
    case Rule => [Void(Hr)]
  }

  /** A piece of text: the lists it is in, outermost first, the element it is directly in, and itself; or the start
      of an element, and the lists that is in. */
  datatype Entry = Entry(lists: seq<Tag>, within: Tag, content: string) | Start(lists: seq<Tag>, tag: Tag)

  /** Reading the tokens in order: the elements open so far and the starts and texts met, or broken. */
  datatype Reading = Broken | Reading(open: seq<Tag>, log: seq<Entry>)

  predicate IsList(t: Tag) {
    t == Ul || t == Ol
  }

  function Lists(open: seq<Tag>): seq<Tag> {
    if open == [] then []
    else Lists(open[..|open| - 1]) + if IsList(open[|open| - 1]) then [open[|open| - 1]] else []
  }

  /** An item opens only directly in a list, and a list only at the top or directly in an item. */
  predicate MayOpen(t: Tag, open: seq<Tag>) {
    match t
    case Li => open != [] && IsList(open[|open| - 1])
    case Ul => open == [] || open[|open| - 1] == Li
    case Ol => open == [] || open[|open| - 1] == Li
    case _ => true
  }

  /** The reading once an element starts. */
  function Opened(t: Tag, r: Reading): Reading
    requires r.Reading?
  {
    Reading(r.open + [t], r.log + [Start(Lists(r.open), t)])
  }

  function ReadToken(t: Token, r: Reading): Reading {
    if r.Broken? then Broken
    else
      match t
      case OpenTag(tag) => if MayOpen(tag, r.open) then Opened(tag, r) else Broken
      case CloseTag(tag) =>
        if r.open != [] && r.open[|r.open| - 1] == tag then r.(open := r.open[..|r.open| - 1]) else Broken
      case Text(content) =>
        if r.open == [] then Broken
        else r.(log := r.log + [Entry(Lists(r.open), r.open[|r.open| - 1], content)])
      case Void(tag) => r.(log := r.log + [Start(Lists(r.open), tag)])
  }

  function ReadTokens(ts: seq<Token>, r: Reading): Reading {
    if ts == [] then r else ReadToken(ts[|ts| - 1], ReadTokens(ts[..|ts| - 1], r))
  }

  function Read(out: seq<Chunk>, r: Reading): Reading {
    if out == [] then r else ReadTokens(Tokens(out[|out| - 1]), Read(out[..|out| - 1], r))
  }

  const NOTHING_READ := Reading([], [])

  lemma {:induction false} ReadTokensConcat(a: seq<Token>, b: seq<Token>, r: Reading)
    ensures ReadTokens(a + b, r) == ReadTokens(b, ReadTokens(a, r))
  {
    if b == [] {
      assert a + b == a;
    } else {
      assert (a + b)[..|a + b| - 1] == a + b[..|b| - 1];
      ReadTokensConcat(a, b[..|b| - 1], r);
    }
  }

  lemma {:induction false} ReadConcat(a: seq<Chunk>, b: seq<Chunk>, r: Reading)
    ensures Read(a + b, r) == Read(b, Read(a, r))
  {
    if b == [] {
      assert a + b == a;
    } else {
      assert (a + b)[..|a + b| - 1] == a + b[..|b| - 1];
      ReadConcat(a, b[..|b| - 1], r);
    }
  }

  function Entries(lists: seq<Tag>, within: Tag, lines: seq<string>): (es: seq<Entry>)
    ensures |es| == |lines|
  {
    seq(|lines|, i requires 0 <= i < |lines| => Entry(lists, within, lines[i]))
  }

  lemma EntriesNext(lists: seq<Tag>, within: Tag, lines: seq<string>, log: seq<Entry>)
    requires lines != []
    ensures (log + Entries(lists, within, lines[..|lines| - 1])) + [Entry(lists, within, lines[|lines| - 1])]
         == log + Entries(lists, within, lines)
  {
  }

  lemma {:induction false} ReadTexts(lines: seq<string>, r: Reading)
    requires r.Reading? && r.open != []
    ensures ReadTokens(Texts(lines), r)
         == r.(log := r.log + Entries(Lists(r.open), r.open[|r.open| - 1], lines))
  {
    if lines == [] {
      assert r.log + Entries(Lists(r.open), r.open[|r.open| - 1], lines) == r.log;
    } else {
      ReadTexts(lines[..|lines| - 1], r);
      assert Texts(lines)[..|Texts(lines)| - 1] == Texts(lines[..|lines| - 1]);
      EntriesNext(Lists(r.open), r.open[|r.open| - 1], lines, r.log);
    }
  }

  lemma ListsOfPush(open: seq<Tag>, t: Tag)
    ensures Lists(open + [t]) == if IsList(t) then Lists(open) + [t] else Lists(open)
  {
  }

  // ---------- blocks leave the open elements as they are ----------

  predicate Plain(c: Chunk) {
    c.Paragraph? || c.HeadingBlock? || c.CodeBlock? || c.Rule?
  }

  function CodeEntries(lists: seq<Tag>, code: seq<string>): seq<Entry> {
    [Start(lists, Pre), Start(lists, Code)] + Entries(lists, Code, code)
  }

  function PlainEntries(c: Chunk, lists: seq<Tag>): seq<Entry> {
    match c
    case Paragraph(lines) => [Start(lists, P)] + Entries(lists, P, lines)
    case HeadingBlock(level, text) => [Start(lists, Heading(level)), Entry(lists, Heading(level), text)]
    case CodeBlock(code) => CodeEntries(lists, code)
    case Rule => [Start(lists, Hr)]
    case _ => []
  }

  lemma ReadOne(t: Token, r: Reading)
    ensures ReadTokens([t], r) == ReadToken(t, r)
  {
  }

  lemma OpenThenClose(t: Tag, inner: seq<Token>, r: Reading, log: seq<Entry>)
    requires r.Reading? && MayOpen(t, r.open)
    requires ReadTokens(inner, Opened(t, r)) == Reading(r.open + [t], log)
    ensures ReadTokens([OpenTag(t)] + inner + [CloseTag(t)], r) == Reading(r.open, log)
  {
    ReadOne(OpenTag(t), r);
    ReadTokensConcat([OpenTag(t)], inner, r);
    ReadTokensConcat([OpenTag(t)] + inner, [CloseTag(t)], r);
    ReadOne(CloseTag(t), Reading(r.open + [t], log));
    assert (r.open + [t])[..|r.open|] == r.open;
  }

  /** Lines read directly inside an element that is not a list. */
  lemma ReadInside(t: Tag, lines: seq<string>, r: Reading)
    requires r.Reading? && !IsList(t)
    ensures ReadTokens(Texts(lines), Opened(t, r))
         == Reading(r.open + [t], r.log + ([Start(Lists(r.open), t)] + Entries(Lists(r.open), t, lines)))
  {
    ListsOfPush(r.open, t);
    ReadTexts(lines, Opened(t, r));
    Regroup(r.log, [Start(Lists(r.open), t)], Entries(Lists(r.open), t, lines));
  }

  lemma Regroup(a: seq<Entry>, b: seq<Entry>, c: seq<Entry>)
    ensures (a + b) + c == a + (b + c)
  {
  }

  lemma OneText(text: string, lists: seq<Tag>, t: Tag)
    ensures Texts([text]) == [Text(text)]
    ensures Entries(lists, t, [text]) == [Entry(lists, t, text)]
  {
  }

  function CodeTokens(code: seq<string>): seq<Token> {
    [OpenTag(Code)] + Texts(code) + [CloseTag(Code)]
  }

  lemma ReadCodeElement(code: seq<string>, r: Reading)
    requires r.Reading?
    ensures ReadTokens(CodeTokens(code), r)
         == Reading(r.open, r.log + ([Start(Lists(r.open), Code)] + Entries(Lists(r.open), Code, code)))
  {
    ReadInside(Code, code, r);
    OpenThenClose(Code, Texts(code), r, r.log + ([Start(Lists(r.open), Code)] + Entries(Lists(r.open), Code, code)));
  }

  lemma CodeLogIs(log: seq<Entry>, lists: seq<Tag>, code: seq<string>)
    ensures (log + [Start(lists, Pre)]) + ([Start(lists, Code)] + Entries(lists, Code, code))
         == log + CodeEntries(lists, code)
  {
  }

  lemma ReadCode(code: seq<string>, r: Reading)
    requires r.Reading?
    ensures ReadTokens(Tokens(CodeBlock(code)), r) == r.(log := r.log + CodeEntries(Lists(r.open), code))
  {
    var lists := Lists(r.open);
    ListsOfPush(r.open, Pre);
    ReadCodeElement(code, Opened(Pre, r));
    CodeLogIs(r.log, lists, code);
    OpenThenClose(Pre, CodeTokens(code), r, r.log + CodeEntries(lists, code));
    CodeTokensAre(code);
  }

  lemma CodeTokensAre(code: seq<string>)
    ensures Tokens(CodeBlock(code)) == [OpenTag(Pre)] + CodeTokens(code) + [CloseTag(Pre)]
  {
  }

  lemma ReadHeading(level: nat, text: string, r: Reading)
    requires r.Reading?
    ensures ReadTokens(Tokens(HeadingBlock(level, text)), r)
         == r.(log := r.log + [Start(Lists(r.open), Heading(level)), Entry(Lists(r.open), Heading(level), text)])
  {
    ReadOneInside(Heading(level), text, r);
    OpenThenClose(Heading(level), [Text(text)], r,
                  r.log + [Start(Lists(r.open), Heading(level)), Entry(Lists(r.open), Heading(level), text)]);
    HeadingTokensAre(level, text);
  }

  lemma ReadOneInside(t: Tag, text: string, r: Reading)
    requires r.Reading? && !IsList(t)
    ensures ReadTokens([Text(text)], Opened(t, r))
         == Reading(r.open + [t], r.log + [Start(Lists(r.open), t), Entry(Lists(r.open), t, text)])
  {
    OneText(text, Lists(r.open), t);
    ReadInside(t, [text], r);
  }

  lemma HeadingTokensAre(level: nat, text: string)
    ensures Tokens(HeadingBlock(level, text)) == [OpenTag(Heading(level))] + [Text(text)] + [CloseTag(Heading(level))]
  {
  }

  lemma ReadPlain(c: Chunk, r: Reading)
    requires Plain(c) && r.Reading?
    ensures ReadTokens(Tokens(c), r) == r.(log := r.log + PlainEntries(c, Lists(r.open)))
  {
    match c {
      case Paragraph(lines) =>
        ReadInside(P, lines, r);
        OpenThenClose(P, Texts(lines), r, r.log + PlainEntries(c, Lists(r.open)));
      case HeadingBlock(level, text) => ReadHeading(level, text, r);
      case CodeBlock(code) => ReadCode(code, r);
      case Rule =>
        ReadOne(Void(Hr), r);
    }
  }

  ghost predicate AllPlain(tail: seq<Chunk>) {
    forall k :: 0 <= k < |tail| ==> Plain(tail[k])
  }

  /** Blocks read the same inside an item as beside it: they are in the same lists. */
  lemma {:induction false} PlainTail(tail: seq<Chunk>, open: seq<Tag>, other: seq<Tag>, log: seq<Entry>)
    requires AllPlain(tail) && Lists(open) == Lists(other)
    ensures Read(tail, Reading(open, log)).Reading? && Read(tail, Reading(open, log)).open == open
    ensures Read(tail, Reading(other, log)) == Reading(other, Read(tail, Reading(open, log)).log)
  {
    if tail != [] {
      var init, last := tail[..|tail| - 1], tail[|tail| - 1];
      PlainTail(init, open, other, log);
      ReadPlain(last, Read(init, Reading(open, log)));
      ReadPlain(last, Read(init, Reading(other, log)));
    }
  }

  function OneItem(lists: seq<Tag>, content: string): seq<Entry> {
    [Start(lists, Li), Entry(lists, Li, content)]
  }

  lemma ReadItem(content: string, closed: bool, r: Reading)
    requires r.Reading? && MayOpen(Li, r.open)
    ensures ReadTokens(Tokens(Item(content, closed)), r)
         == Reading(if closed then r.open else r.open + [Li], r.log + OneItem(Lists(r.open), content))
  {
    ReadOneInside(Li, content, r);
    if closed {
      OpenThenClose(Li, [Text(content)], r, r.log + OneItem(Lists(r.open), content));
      assert Tokens(Item(content, closed)) == [OpenTag(Li)] + [Text(content)] + [CloseTag(Li)];
    } else {
      ReadOne(OpenTag(Li), r);
      ReadTokensConcat([OpenTag(Li)], [Text(content)], r);
      assert Tokens(Item(content, closed)) == [OpenTag(Li)] + [Text(content)];
    }
  }

  lemma ItemNeedsList(content: string, closed: bool, r: Reading)
    requires r.Broken? || !MayOpen(Li, r.open)
    ensures ReadTokens(Tokens(Item(content, closed)), r).Broken?
  {
    var rest := [Text(content)] + if closed then [CloseTag(Li)] else [];
    ReadOne(OpenTag(Li), r);
    ReadTokensConcat([OpenTag(Li)], rest, r);
    BrokenTokens(rest);
    assert Tokens(Item(content, closed)) == [OpenTag(Li)] + rest;
  }

  lemma {:induction false} BrokenStays(out: seq<Chunk>)
    ensures Read(out, Broken).Broken?
  {
    if out != [] {
      BrokenStays(out[..|out| - 1]);
      BrokenTokens(Tokens(out[|out| - 1]));
    }
  }

  lemma {:induction false} BrokenTokens(ts: seq<Token>)
    ensures ReadTokens(ts, Broken).Broken?
  {
    if ts != [] { BrokenTokens(ts[..|ts| - 1]); }
  }

  lemma ReadAround(head: seq<Chunk>, item: Chunk, tail: seq<Chunk>)
    ensures Read(head + [item] + tail, NOTHING_READ) == Read(tail, ReadTokens(Tokens(item), Read(head, NOTHING_READ)))
  {
    ReadConcat(head + [item], tail, NOTHING_READ);
    assert (head + [item])[..|head|] == head;
  }

  /** Taking back the `</li>` of the last item of the innermost list, however many blocks follow it, opens
      that item and changes nothing else a reader sees. */
  lemma TakingBackOpensTheItem(head: seq<Chunk>, content: string, tail: seq<Chunk>)
    requires AllPlain(tail) && Read(head + [Item(content, true)] + tail, NOTHING_READ).Reading?
    ensures var r := Read(head + [Item(content, true)] + tail, NOTHING_READ);
            Read(head + [Item(content, false)] + tail, NOTHING_READ) == r.(open := r.open + [Li])
  {
    ReadAround(head, Item(content, true), tail);
    ReadAround(head, Item(content, false), tail);
    var before := Read(head, NOTHING_READ);
    if before.Broken? || !MayOpen(Li, before.open) {
      ItemNeedsList(content, true, before);
      BrokenStays(tail);
    } else {
      ReadItem(content, true, before);
      ReadItem(content, false, before);
      ListsOfPush(before.open, Li);
      PlainTail(tail, before.open, before.open + [Li], before.log + OneItem(Lists(before.open), content));
    }
  }

  // ---------- the lines, and what they ask for ----------

  /** What a line is, by the source's patterns; `content` is its text rendered inline. */
  datatype Kind =
    | Fence
    | Blank
    | RuleLine
    | HeadingLine(hashes: nat, content: string)
    | ItemLine(list: Tag, content: string)
    | TextLine(content: string)

  datatype Line = Line(kind: Kind, raw: string)

  /** Items are bulleted or numbered. */
  ghost predicate Classified(lines: seq<Line>) {
    forall k :: 0 <= k < |lines| && lines[k].kind.ItemLine? ==> lines[k].kind.list == Ul || lines[k].kind.list == Ol
  }

  const SPACES_PER_LEVEL := 2

  /** The columns a line's own indentation comes to: a tab advances to the next level boundary. */
  function Columns(line: string, from: nat): nat
    decreases |line|
  {
    if line == [] then from
    else if line[0] == ' ' then Columns(line[1..], from + 1)
    else if line[0] == '\t' then Columns(line[1..], from + (SPACES_PER_LEVEL - from % SPACES_PER_LEVEL))
    else from
  }

  function Level(line: string): nat {
    Columns(line, 0) / SPACES_PER_LEVEL
  }

  method ListLevel(line: string) returns (level: nat)
    ensures level == Level(line)
  {
    var columns := 0;
    var k := 0;
    while k < |line|
      invariant k <= |line| && columns >= 0 && Columns(line, 0) == Columns(line[k..], columns)
    {
      if line[k] == ' ' {
        columns := columns + 1;
      } else if line[k] == '\t' {
        columns := columns + (SPACES_PER_LEVEL - columns % SPACES_PER_LEVEL);
      } else {
        break;
      }
      assert line[k..][1..] == line[k + 1..];
      k := k + 1;
    }
    level := columns / SPACES_PER_LEVEL;
  }

  /** Where an indentation starts on a boundary does not matter but for the columns before it. */
  lemma {:induction false} ColumnsShift(line: string, from: nat)
    ensures Columns(line, from + SPACES_PER_LEVEL) == Columns(line, from) + SPACES_PER_LEVEL
    decreases |line|
  {
    if line != [] && line[0] == ' ' {
      ColumnsShift(line[1..], from + 1);
    } else if line != [] && line[0] == '\t' {
      assert (from + SPACES_PER_LEVEL) % SPACES_PER_LEVEL == from % SPACES_PER_LEVEL;
      ColumnsShift(line[1..], from + (SPACES_PER_LEVEL - from % SPACES_PER_LEVEL));
    }
  }

  lemma ColumnsOfOne(rest: string, from: nat)
    ensures Columns(" " + rest, from) == Columns(rest, from + 1)
    ensures Columns("\t" + rest, from) == Columns(rest, from + (SPACES_PER_LEVEL - from % SPACES_PER_LEVEL))
  {
    assert (" " + rest)[1..] == rest && ("\t" + rest)[1..] == rest;
  }

  predicate Flat(line: string) {
    line == [] || (line[0] != ' ' && line[0] != '\t')
  }

  /** Text that is not indented is at level 0, and a lone space is no level. */
  lemma FlatIsLevelZero(line: string)
    requires Flat(line)
    ensures Level(line) == 0 && Level(" " + line) == 0
  {
    ColumnsOfOne(line, 0);
  }

  /** One level every two spaces, and a tab advances to the next level boundary: it is one level like two spaces, and
      after a lone space it is still one. */
  lemma EachIndentIsOneLevel(rest: string)
    ensures Level("  " + rest) == Level(rest) + 1
    ensures Level("\t" + rest) == Level(rest) + 1
    ensures Level(" \t" + rest) == Level(rest) + 1
  {
    assert "  " + rest == " " + (" " + rest) && " \t" + rest == " " + ("\t" + rest);
    ColumnsOfOne(" " + rest, 0);
    ColumnsOfOne("\t" + rest, 0);
    ColumnsOfOne(rest, 1);
    ColumnsOfOne(rest, 0);
    ColumnsShift(rest, 0);
  }

  function Spaces(n: nat): string {
    if n == 0 then "" else " " + Spaces(n - 1)
  }

  /** Spaces in between round down: three are one level. */
  lemma {:induction false} SpacesAreHalfAsManyLevels(n: nat, text: string)
    requires Flat(text)
    ensures Level(Spaces(n) + text) == n / 2
  {
    if n == 0 {
      assert Spaces(0) + text == text;
      FlatIsLevelZero(text);
    } else if n == 1 {
      assert Spaces(1) + text == " " + text;
      FlatIsLevelZero(text);
    } else {
      SpacesAreHalfAsManyLevels(n - 2, text);
      assert Spaces(n) + text == "  " + (Spaces(n - 2) + text);
      EachIndentIsOneLevel(Spaces(n - 2) + text);
    }
  }

  /** The lists open after an item: it goes in at its own level, or one below the innermost when it asks
      for more, and a bulleted and a numbered list are two. */
  function Nest(open: seq<Tag>, level: nat, list: Tag): seq<Tag> {
    (if level < |open| then open[..level] else open) + [list]
  }

  /** How many lines the fenced block holds: up to the closing fence, or to the end. */
  function CodeLength(lines: seq<Line>): (n: nat)
    ensures n <= |lines| && forall k :: 0 <= k < n ==> !lines[k].kind.Fence?
    ensures n < |lines| ==> lines[n].kind.Fence?
  {
    if lines == [] || lines[0].kind.Fence? then 0 else 1 + CodeLength(lines[1..])
  }

  function Raws(lines: seq<Line>): (raws: seq<string>)
    ensures |raws| == |lines|
  {
    seq(|lines|, i requires 0 <= i < |lines| => lines[i].raw)
  }

  function AfterCode(lines: seq<Line>): seq<Line> {
    if CodeLength(lines) < |lines| then lines[CodeLength(lines) + 1..] else []
  }

  function HeadingLevel(hashes: nat): nat {
    if hashes + 1 < 6 then hashes + 1 else 6
  }

  /** An item joins the list that is open at its level, when that is of its kind; otherwise it starts one. */
  function ItemEntries(open: seq<Tag>, level: nat, list: Tag, content: string): seq<Entry> {
    var nest := Nest(open, level, list);
    (if level < |open| && open[level] == list then [] else [Start(nest[..|nest| - 1], list)]) + OneItem(nest, content)
  }

  /** An item that asks for more than one level more goes one level in. */
  lemma ItemGoesIn(open: seq<Tag>, level: nat, actual: nat, list: Tag, content: string)
    requires actual == if level < |open| then level else |open|
    ensures Nest(open, level, list) == open[..actual] + [list]
    ensures ItemEntries(open, level, list, content)
         == (if actual < |open| && open[actual] == list then [] else [Start(open[..actual], list)])
            + OneItem(open[..actual] + [list], content)
  {
    assert (open[..actual] + [list])[..actual] == open[..actual];
  }

  /** A line of text joins the paragraph that is held, or starts one. */
  function TextEntries(open: seq<Tag>, held: bool, content: string): seq<Entry> {
    (if held then [] else [Start(open, P)]) + [Entry(open, P, content)]
  }

  /** Headings are demoted one level, under the report's own title, and there are six. */
  lemma HeadingsAreDemoted(hashes: nat)
    ensures hashes <= 5 ==> HeadingLevel(hashes) == hashes + 1
    ensures hashes > 5 ==> HeadingLevel(hashes) == HeadingLevel(5)
  {
  }

  /** The texts of a line outside code and what it starts, and the place it asks for when the lists `open` are. */
  function LineEntries(line: Line, open: seq<Tag>, held: bool): seq<Entry> {
    match line.kind
    case HeadingLine(hashes, content) =>
      [Start([], Heading(HeadingLevel(hashes))), Entry([], Heading(HeadingLevel(hashes)), content)]
    case ItemLine(list, content) => ItemEntries(open, Level(line.raw), list, content)
    case TextLine(content) => TextEntries(open, held, content)
    case RuleLine => [Start([], Hr)]
    case _ => []
  }

  /** The lists open after it: only an item or a paragraph leaves any. */
  function OpenAfter(line: Line, open: seq<Tag>): seq<Tag> {
    match line.kind
    case ItemLine(list, _) => Nest(open, Level(line.raw), list)
    case TextLine(_) => open
    case _ => []
  }

  /** Everything the document starts and says, in order, and the place it asks for; `held` says that a paragraph is
      going on. */
  function Expected(lines: seq<Line>, open: seq<Tag>, held: bool): seq<Entry>
    decreases |lines|
  {
    if lines == [] then []
    else if lines[0].kind.Fence? then
      CodeEntries([], Raws(lines[1..][..CodeLength(lines[1..])])) + Expected(AfterCode(lines[1..]), [], false)
    else
      LineEntries(lines[0], open, held)
      + Expected(lines[1..], OpenAfter(lines[0], open), lines[0].kind.TextLine?)
  }

  /** An item opens at most one list more than were open. */
  lemma OneLevelAtATime(open: seq<Tag>, level: nat, list: Tag)
    ensures |Nest(open, level, list)| <= |open| + 1
    ensures |Nest(open, level, list)| <= level + 1
    ensures level <= |open| ==> |Nest(open, level, list)| == level + 1
    ensures forall i :: 0 <= i < |Nest(open, level, list)| - 1 ==> Nest(open, level, list)[i] == open[i]
    ensures Nest(open, level, list)[|Nest(open, level, list)| - 1] == list
  {
  }

  // ---------- the writer's state ----------

  /** The elements a stack of lists stands for: each list, and its item where that is still open. */
  function Elements(stack: seq<Tag>, openItem: seq<bool>): seq<Tag>
    requires |stack| == |openItem|
  {
    if stack == [] then []
    else
      Elements(stack[..|stack| - 1], openItem[..|stack| - 1])
      + if openItem[|stack| - 1] then [stack[|stack| - 1], Li] else [stack[|stack| - 1]]
  }

  lemma ElementsPush(stack: seq<Tag>, openItem: seq<bool>, t: Tag)
    requires |stack| == |openItem|
    ensures Elements(stack + [t], openItem + [false]) == Elements(stack, openItem) + [t]
  {
  }

  lemma {:induction false} ListsOfElements(stack: seq<Tag>, openItem: seq<bool>)
    requires |stack| == |openItem| && forall i :: 0 <= i < |stack| ==> IsList(stack[i])
    ensures Lists(Elements(stack, openItem)) == stack
  {
    if stack != [] {
      var n := |stack| - 1;
      ListsOfElements(stack[..n], openItem[..n]);
      ListsOfLevel(Elements(stack[..n], openItem[..n]), stack[n]);
    }
  }

  lemma ListsOfLevel(below: seq<Tag>, t: Tag)
    requires IsList(t)
    ensures Lists(below + [t]) == Lists(below) + [t] && Lists(below + [t, Li]) == Lists(below) + [t]
  {
    ListsOfPush(below, t);
    ListsOfTwo(below, t);
  }

  lemma ListsOfTwo(below: seq<Tag>, t: Tag)
    ensures Lists(below + [t, Li]) == Lists(below + [t])
  {
    var two := below + [t, Li];
    assert two[..|two| - 1] == below + [t] && two[|two| - 1] == Li;
  }

  /** The source's local variables: the output, the lists open (outermost first), whether each one's item
      is still open and where that item was written; and the texts written, each with its place. */
  datatype Board = Board(out: seq<Chunk>, stack: seq<Tag>, openItem: seq<bool>, itemLine: seq<int>, log: seq<Entry>)

  /** What is written reads as the stack says; every list but the innermost is in an open item. */
  ghost predicate Consistent(b: Board) {
    && |b.stack| == |b.openItem| == |b.itemLine|
    && (forall i :: 0 <= i < |b.stack| ==> IsList(b.stack[i]))
    && (forall i :: 0 <= i < |b.stack| - 1 ==> b.openItem[i])
    && Read(b.out, NOTHING_READ) == Reading(Elements(b.stack, b.openItem), b.log)
  }

  /** The item of level `i` is where it is remembered; if it is closed, only blocks follow. */
  ghost predicate Placed(b: Board, i: nat)
    requires i < |b.itemLine| && i < |b.openItem|
  {
    && 0 <= b.itemLine[i] < |b.out|
    && b.out[b.itemLine[i]].Item? && b.out[b.itemLine[i]].closed == !b.openItem[i]
    && (!b.openItem[i] ==> AllPlain(b.out[b.itemLine[i] + 1..]))
  }

  ghost predicate PlacedBelow(b: Board, n: nat)
    requires n <= |b.itemLine| && n <= |b.openItem|
  {
    forall i :: 0 <= i < n ==> Placed(b, i)
  }

  ghost predicate Valid(b: Board) {
    Consistent(b) && PlacedBelow(b, |b.stack|)
  }

  function Emitted(b: Board, c: Chunk): Board {
    b.(out := b.out + [c], log := b.log + PlainEntries(c, b.stack))
  }

  lemma ReadAppended(out: seq<Chunk>, c: Chunk)
    ensures Read(out + [c], NOTHING_READ) == ReadTokens(Tokens(c), Read(out, NOTHING_READ))
  {
  }

  lemma EmitReads(b: Board, c: Chunk)
    requires Consistent(b) && Plain(c)
    ensures Consistent(Emitted(b, c))
  {
    ListsOfElements(b.stack, b.openItem);
    ReadAppended(b.out, c);
    ReadPlain(c, Read(b.out, NOTHING_READ));
  }

  lemma EmitPlaces(b: Board, c: Chunk, i: nat)
    requires i < |b.itemLine| && i < |b.openItem| && Placed(b, i) && Plain(c)
    ensures Placed(Emitted(b, c), i)
  {
  }

  lemma EmitKeeps(b: Board, c: Chunk)
    requires Valid(b) && Plain(c)
    ensures Valid(Emitted(b, c))
  {
    EmitReads(b, c);
    forall i | 0 <= i < |b.stack| ensures Placed(Emitted(b, c), i) {
      assert Placed(b, i);
      EmitPlaces(b, c, i);
    }
  }

  /** Items that are open stay placed whatever is written after them. */
  lemma AppendKeepsPlaced(b: Board, b': Board, n: nat)
    requires n <= |b.itemLine| && n <= |b.openItem| && n <= |b'.itemLine| && n <= |b'.openItem|
    requires PlacedBelow(b, n) && forall i :: 0 <= i < n ==> b.openItem[i] && b'.openItem[i] && b'.itemLine[i] == b.itemLine[i]
    requires b.out <= b'.out
    ensures PlacedBelow(b', n)
  {
    forall i | 0 <= i < n ensures Placed(b', i) { assert Placed(b, i); }
  }

  /** The innermost list's item, if open, is closed. */
  function ItemEnded(b: Board): Board
    requires |b.openItem| == |b.stack| && b.stack != []
  {
    if b.openItem[|b.stack| - 1] then b.(out := b.out + [ItemClose], openItem := b.openItem[|b.stack| - 1 := false]) else b
  }

  lemma CloseReads(out: seq<Chunk>, c: Chunk, open: seq<Tag>, t: Tag, log: seq<Entry>)
    requires Read(out, NOTHING_READ) == Reading(open + [t], log) && Tokens(c) == [CloseTag(t)]
    ensures Read(out + [c], NOTHING_READ) == Reading(open, log)
  {
    ReadAppended(out, c);
    ReadOne(CloseTag(t), Reading(open + [t], log));
    assert (open + [t])[..|open|] == open;
  }

  lemma EndItemReads(b: Board)
    requires Consistent(b) && b.stack != []
    ensures Consistent(ItemEnded(b))
  {
    var n := |b.stack| - 1;
    if b.openItem[n] {
      var b' := ItemEnded(b);
      assert b'.openItem[..n] == b.openItem[..n];
      assert b'.openItem[n := true] == b.openItem;
      ElementsSet(b.stack, b'.openItem);
      CloseReads(b.out, ItemClose, Elements(b.stack, b'.openItem), Li, b.log);
    }
  }

  lemma EndItemKeeps(b: Board)
    requires Consistent(b) && b.stack != [] && PlacedBelow(b, |b.stack| - 1)
    ensures var b' := ItemEnded(b);
            Consistent(b') && PlacedBelow(b', |b.stack| - 1) && !b'.openItem[|b.stack| - 1]
  {
    EndItemReads(b);
    if b.openItem[|b.stack| - 1] { AppendKeepsPlaced(b, ItemEnded(b), |b.stack| - 1); }
  }

  /** The innermost list, its item ended, is closed. */
  function ListEnded(b: Board): Board
    requires |b.openItem| == |b.stack| == |b.itemLine| && b.stack != []
  {
    var n := |b.stack| - 1;
    Board(b.out + [ListClose(b.stack[n])], b.stack[..n], b.openItem[..n], b.itemLine[..n], b.log)
  }

  lemma EndListReads(b: Board)
    requires Consistent(b) && b.stack != [] && !b.openItem[|b.stack| - 1]
    ensures Consistent(ListEnded(b))
  {
    var n := |b.stack| - 1;
    CloseReads(b.out, ListClose(b.stack[n]), Elements(b.stack[..n], b.openItem[..n]), b.stack[n], b.log);
  }

  lemma EndListKeeps(b: Board)
    requires Consistent(b) && b.stack != [] && PlacedBelow(b, |b.stack| - 1) && !b.openItem[|b.stack| - 1]
    ensures Valid(ListEnded(b))
  {
    EndListReads(b);
    AppendKeepsPlaced(b, ListEnded(b), |b.stack| - 1);
  }

  /** The innermost list's item has its end taken back. */
  function TakenBack(b: Board): Board
    requires |b.openItem| == |b.stack| == |b.itemLine| && b.stack != []
    requires 0 <= b.itemLine[|b.stack| - 1] < |b.out| && b.out[b.itemLine[|b.stack| - 1]].Item?
  {
    var n := |b.stack| - 1;
    var at := b.itemLine[n];
    b.(out := b.out[at := Item(b.out[at].content, false)], openItem := b.openItem[n := true])
  }

  lemma TakeBackKeeps(b: Board)
    requires Valid(b) && b.stack != []
    ensures Placed(b, |b.stack| - 1) && Valid(TakenBack(b))
  {
    var n := |b.stack| - 1;
    assert Placed(b, n);
    var at, b' := b.itemLine[n], TakenBack(b);
    if b.openItem[n] {
      assert b'.out == b.out && b'.openItem == b.openItem;
    } else {
      TakeBackReads(b);
      TakeBackPlaces(b);
    }
  }

  lemma TakeBackPlaces(b: Board)
    requires |b.openItem| == |b.stack| == |b.itemLine| && b.stack != [] && PlacedBelow(b, |b.stack|)
    requires Placed(b, |b.stack| - 1) && !b.openItem[|b.stack| - 1]
    requires forall i :: 0 <= i < |b.stack| - 1 ==> b.openItem[i]
    ensures PlacedBelow(TakenBack(b), |b.stack|)
  {
    forall i | 0 <= i < |b.stack| ensures Placed(TakenBack(b), i) {
      assert Placed(b, i);
    }
  }

  lemma SplitAt(out: seq<Chunk>, at: nat, c: Chunk)
    requires at < |out|
    ensures out == out[..at] + [out[at]] + out[at + 1..]
    ensures out[at := c] == out[..at] + [c] + out[at + 1..]
  {
  }

  lemma ElementsSet(stack: seq<Tag>, openItem: seq<bool>)
    requires |stack| == |openItem| && stack != [] && !openItem[|stack| - 1]
    ensures Elements(stack, openItem[|stack| - 1 := true]) == Elements(stack, openItem) + [Li]
  {
  }

  lemma TakeBackReads(b: Board)
    requires Consistent(b) && b.stack != [] && !b.openItem[|b.stack| - 1] && Placed(b, |b.stack| - 1)
    ensures Consistent(TakenBack(b))
  {
    ReadsOpen(b.out, b.itemLine[|b.stack| - 1]);
    ElementsSet(b.stack, b.openItem);
  }

  lemma ReadsOpen(out: seq<Chunk>, at: nat)
    requires at < |out| && out[at].Item? && out[at].closed && AllPlain(out[at + 1..])
    requires Read(out, NOTHING_READ).Reading?
    ensures var r := Read(out, NOTHING_READ);
            Read(out[at := Item(out[at].content, false)], NOTHING_READ) == Reading(r.open + [Li], r.log)
  {
    var content := out[at].content;
    SplitAt(out, at, Item(content, false));
    assert out[at] == Item(content, true);
    TakingBackOpensTheItem(out[..at], content, out[at + 1..]);
  }

  function Pushed(b: Board, list: Tag): Board {
    Board(b.out + [ListOpen(list)], b.stack + [list], b.openItem + [false], b.itemLine + [-1],
          b.log + [Start(b.stack, list)])
  }

  lemma ElementsTop(stack: seq<Tag>, openItem: seq<bool>)
    requires |stack| == |openItem|
    ensures stack == [] ==> Elements(stack, openItem) == []
    ensures stack != [] ==> var es := Elements(stack, openItem);
              es != [] && es[|es| - 1] == if openItem[|stack| - 1] then Li else stack[|stack| - 1]
  {
  }

  lemma PushReads(b: Board, list: Tag)
    requires Consistent(b) && IsList(list) && (b.stack != [] ==> b.openItem[|b.stack| - 1])
    ensures Consistent(Pushed(b, list))
  {
    PushReadsOut(b, list);
    PushShape(b, list);
  }

  lemma PushReadsOut(b: Board, list: Tag)
    requires Consistent(b) && IsList(list) && (b.stack != [] ==> b.openItem[|b.stack| - 1])
    ensures Read(b.out + [ListOpen(list)], NOTHING_READ)
         == Reading(Elements(b.stack + [list], b.openItem + [false]), b.log + [Start(b.stack, list)])
  {
    MayNest(b, list);
    ListsOfElements(b.stack, b.openItem);
    ReadListOpen(b.out, Elements(b.stack, b.openItem), b.log, list);
    ElementsPush(b.stack, b.openItem, list);
  }

  lemma PushShape(b: Board, list: Tag)
    requires |b.stack| == |b.openItem| && IsList(list)
    requires forall i :: 0 <= i < |b.stack| ==> IsList(b.stack[i]) && b.openItem[i]
    ensures var b' := Pushed(b, list);
            forall i :: 0 <= i < |b'.stack| ==> IsList(b'.stack[i]) && (i < |b'.stack| - 1 ==> b'.openItem[i])
  {
  }

  lemma MayNest(b: Board, list: Tag)
    requires |b.stack| == |b.openItem| && IsList(list) && (b.stack != [] ==> b.openItem[|b.stack| - 1])
    ensures MayOpen(list, Elements(b.stack, b.openItem))
  {
  }

  lemma ReadListOpen(out: seq<Chunk>, open: seq<Tag>, log: seq<Entry>, list: Tag)
    requires Read(out, NOTHING_READ) == Reading(open, log) && MayOpen(list, open)
    ensures Read(out + [ListOpen(list)], NOTHING_READ) == Reading(open + [list], log + [Start(Lists(open), list)])
  {
    ReadAppended(out, ListOpen(list));
    ReadOne(OpenTag(list), Reading(open, log));
  }

  lemma PushKeeps(b: Board, list: Tag)
    requires Valid(b) && IsList(list) && (b.stack != [] ==> b.openItem[|b.stack| - 1])
    ensures Consistent(Pushed(b, list)) && PlacedBelow(Pushed(b, list), |b.stack|)
  {
    PushReads(b, list);
    AppendKeepsPlaced(b, Pushed(b, list), |b.stack|);
  }

  function ItemWritten(b: Board, content: string): Board
    requires |b.itemLine| == |b.stack| && b.stack != []
  {
    b.(out := b.out + [Item(content, true)], itemLine := b.itemLine[|b.stack| - 1 := |b.out|],
       log := b.log + OneItem(b.stack, content))
  }

  lemma WriteItemReads(b: Board, content: string)
    requires Consistent(b) && b.stack != [] && !b.openItem[|b.stack| - 1]
    ensures Consistent(ItemWritten(b, content))
  {
    ListsOfElements(b.stack, b.openItem);
    ElementsTop(b.stack, b.openItem);
    ReadAppended(b.out, Item(content, true));
    ReadItem(content, true, Read(b.out, NOTHING_READ));
  }

  lemma WriteItemKeeps(b: Board, content: string)
    requires Consistent(b) && b.stack != [] && PlacedBelow(b, |b.stack| - 1) && !b.openItem[|b.stack| - 1]
    ensures Valid(ItemWritten(b, content))
  {
    var n, b' := |b.stack| - 1, ItemWritten(b, content);
    WriteItemReads(b, content);
    AppendKeepsPlaced(b, b', n);
    assert b'.out[b'.itemLine[n] + 1..] == [];
    assert Placed(b', n);
  }

  lemma PrefixTop(stack: seq<Tag>, before: seq<Tag>, level: nat, list: Tag)
    requires stack <= before && level <= |stack| <= level + 1 && (|stack| == level + 1 ==> stack[level] == list)
    ensures |stack| == level ==> stack == before[..level]
    ensures |stack| == level + 1 ==> stack == before[..level] + [list]
  {
  }

  lemma ValidIsOpenable(b: Board)
    requires Valid(b)
    ensures Consistent(b) && (b.stack != [] ==> PlacedBelow(b, |b.stack| - 1))
  {
  }

  // ---------- the writer ----------

  /** The lines held for the next paragraph, as it will be written. */
  function Held(lists: seq<Tag>, lines: seq<string>): seq<Entry> {
    if lines == [] then [] else [Start(lists, P)] + Entries(lists, P, lines)
  }

  lemma HeldNext(lists: seq<Tag>, lines: seq<string>, content: string, log: seq<Entry>)
    ensures log + Held(lists, lines + [content]) == (log + Held(lists, lines)) + TextEntries(lists, lines != [], content)
  {
    assert Entries(lists, P, lines + [content]) == Entries(lists, P, lines) + [Entry(lists, P, content)];
  }

  class Writer {
    var out: seq<Chunk>
    var paragraph: seq<string>
    var stack: seq<Tag>
    var openItem: seq<bool>
    var itemLine: seq<int>
    ghost var log: seq<Entry>

    ghost function Now(): Board
      reads this
    {
      Board(out, stack, openItem, itemLine, log)
    }

    constructor ()
      ensures Valid(Now()) && paragraph == [] && stack == [] && log == []
    {
      out, paragraph, stack, openItem, itemLine, log := [], [], [], [], [], [];
    }

    method Emit(c: Chunk)
      requires Valid(Now()) && Plain(c)
      modifies `out, `log
      ensures Valid(Now()) && Now() == Emitted(old(Now()), c)
    {
      EmitKeeps(Now(), c);
      out, log := out + [c], log + PlainEntries(c, stack);
    }

    method CloseParagraph()
      requires Valid(Now())
      modifies `out, `log, `paragraph
      ensures Valid(Now()) && paragraph == []
      ensures log == old(log) + Held(stack, old(paragraph))
    {
      if paragraph != [] {
        Emit(Paragraph(paragraph));
        paragraph := [];
      }
    }

    method EndItem()
      requires Consistent(Now()) && stack != [] && PlacedBelow(Now(), |stack| - 1)
      modifies `out, `openItem
      ensures Now() == ItemEnded(old(Now()))
      ensures Consistent(Now()) && PlacedBelow(Now(), |stack| - 1) && !openItem[|stack| - 1]
    {
      EndItemKeeps(Now());
      var n := |stack| - 1;
      if openItem[n] {
        out, openItem := out + [ItemClose], openItem[n := false];
      }
    }

    method EndList()
      requires Consistent(Now()) && stack != [] && PlacedBelow(Now(), |stack| - 1) && !openItem[|stack| - 1]
      modifies `out, `stack, `openItem, `itemLine
      ensures Now() == ListEnded(old(Now())) && Valid(Now())
    {
      EndListKeeps(Now());
      var n := |stack| - 1;
      out := out + [ListClose(stack[n])];
      stack, openItem, itemLine := stack[..n], openItem[..n], itemLine[..n];
    }

    method CloseDeepest()
      requires Valid(Now()) && stack != []
      modifies `out, `stack, `openItem, `itemLine
      ensures Valid(Now()) && stack == old(stack[..|stack| - 1])
    {
      ValidIsOpenable(Now());
      EndItem();
      EndList();
    }

    method CloseList()
      requires Valid(Now())
      modifies `out, `stack, `openItem, `itemLine
      ensures Valid(Now()) && stack == []
    {
      while stack != []
        invariant Valid(Now())
        decreases |stack|
      {
        CloseDeepest();
      }
    }

    /** A nested list belongs inside the item above it: that item's end is taken back first. */
    method OpenList(list: Tag)
      requires Valid(Now()) && IsList(list)
      modifies `out, `stack, `openItem, `itemLine, `log
      ensures stack == old(stack) + [list] && log == old(log) + [Start(old(stack), list)]
      ensures Consistent(Now()) && PlacedBelow(Now(), |stack| - 1) && !openItem[|stack| - 1]
    {
      if stack != [] {
        TakeBack();
      }
      PushKeeps(Now(), list);
      out, log := out + [ListOpen(list)], log + [Start(stack, list)];
      stack, openItem, itemLine := stack + [list], openItem + [false], itemLine + [-1];
    }

    method TakeBack()
      requires Valid(Now()) && stack != []
      modifies `out, `openItem
      ensures Valid(Now()) && openItem[|stack| - 1]
    {
      TakeBackKeeps(Now());
      var n := |stack| - 1;
      out := out[itemLine[n] := Item(out[itemLine[n]].content, false)];
      openItem := openItem[n := true];
    }

    /** Closes the lists an item at `level` is not in. */
    method CloseDownTo(level: nat, list: Tag)
      requires Valid(Now()) && level <= |stack|
      modifies `out, `stack, `openItem, `itemLine
      ensures Valid(Now()) && level <= |stack| <= level + 1 && stack <= old(stack)
      ensures |stack| == level + 1 <==> level < |old(stack)| && old(stack)[level] == list
      ensures |stack| == level + 1 ==> stack[level] == list
    {
      ghost var before := stack;
      while |stack| > level + 1
        invariant Valid(Now()) && level <= |stack| && stack <= before && (level < |before| ==> level < |stack|)
        decreases |stack|
      {
        CloseDeepest();
      }
      if |stack| == level + 1 && stack[|stack| - 1] != list {
        CloseDeepest();
      }
    }

    /** Makes the innermost list the one an item at `level` is in. */
    method ReachLevel(level: nat, list: Tag)
      requires Valid(Now()) && level <= |stack| && IsList(list)
      modifies `out, `stack, `openItem, `itemLine, `log
      ensures stack == old(stack)[..level] + [list]
      ensures log == old(log) + if level < |old(stack)| && old(stack)[level] == list then []
                                else [Start(old(stack)[..level], list)]
      ensures Consistent(Now()) && PlacedBelow(Now(), |stack| - 1)
    {
      ghost var before := stack;
      CloseDownTo(level, list);
      PrefixTop(stack, before, level, list);
      ValidIsOpenable(Now());
      if |stack| == level {
        OpenList(list);
      }
    }

    /** The item goes in at `level`, or one below the innermost list when it asks for more. */
    method AddItem(level0: nat, list: Tag, content: string)
      requires Valid(Now()) && IsList(list)
      modifies `out, `stack, `openItem, `itemLine, `log
      ensures Valid(Now()) && stack == Nest(old(stack), level0, list)
      ensures log == old(log) + ItemEntries(old(stack), level0, list, content)
    {
      var level := if level0 < |stack| then level0 else |stack|;
      ghost var before := log;
      ItemGoesIn(stack, level0, level, list, content);
      ghost var starts := if level < |stack| && stack[level] == list then [] else [Start(stack[..level], list)];
      ReachLevel(level, list);
      WriteItem(content);
      Regroup(before, starts, OneItem(stack, content));
    }

    method WriteItem(content: string)
      requires Consistent(Now()) && stack != [] && PlacedBelow(Now(), |stack| - 1)
      modifies `out, `openItem, `itemLine, `log
      ensures Valid(Now()) && log == old(log) + OneItem(stack, content) && stack == old(stack)
    {
      EndItem();
      WriteItemKeeps(Now(), content);
      itemLine := itemLine[|stack| - 1 := |out|];
      out, log := out + [Item(content, true)], log + OneItem(stack, content);
    }

    /** Everything taken in so far: what is written, and the lines held for the next paragraph. */
    ghost function TakenIn(): seq<Entry>
      reads this
    {
      log + Held(stack, paragraph)
    }

    method CloseBlocks()
      requires Valid(Now())
      modifies this
      ensures Valid(Now()) && stack == [] && paragraph == [] && log == old(TakenIn())
    {
      CloseParagraph();
      CloseList();
    }

    method AddCode(code: seq<string>)
      requires Valid(Now())
      modifies this
      ensures Valid(Now()) && stack == [] && paragraph == []
      ensures TakenIn() == old(TakenIn()) + CodeEntries([], code)
    {
      CloseBlocks();
      Emit(CodeBlock(code));
    }

    method AddHeading(hashes: nat, content: string)
      requires Valid(Now())
      modifies this
      ensures Valid(Now()) && stack == [] && paragraph == []
      ensures TakenIn() == old(TakenIn())
                           + [Start([], Heading(HeadingLevel(hashes))), Entry([], Heading(HeadingLevel(hashes)), content)]
    {
      CloseBlocks();
      Emit(HeadingBlock(HeadingLevel(hashes), content));
    }

    method AddText(content: string)
      requires Valid(Now())
      modifies `paragraph
      ensures Valid(Now()) && paragraph != []
      ensures TakenIn() == old(TakenIn()) + TextEntries(stack, old(paragraph) != [], content)
    {
      HeldNext(stack, paragraph, content, log);
      paragraph := paragraph + [content];
    }

    method AddListItem(level: nat, list: Tag, content: string)
      requires Valid(Now()) && IsList(list)
      modifies this
      ensures Valid(Now()) && stack == Nest(old(stack), level, list) && paragraph == []
      ensures TakenIn() == old(TakenIn()) + ItemEntries(old(stack), level, list, content)
    {
      CloseParagraph();
      AddItem(level, list, content);
    }

    /** One line outside code. */
    method AddLine(line: Line)
      requires Valid(Now()) && !line.kind.Fence? && (line.kind.ItemLine? ==> IsList(line.kind.list))
      modifies this
      ensures Valid(Now()) && stack == OpenAfter(line, old(stack)) && (paragraph != [] <==> line.kind.TextLine?)
      ensures TakenIn() == old(TakenIn()) + LineEntries(line, old(stack), old(paragraph) != [])
    {
      match line.kind {
        case Blank => CloseBlocks();
        case RuleLine =>
          CloseBlocks();
          Emit(Rule);
        case HeadingLine(hashes, content) => AddHeading(hashes, content);
        case ItemLine(list, content) =>
          var level := ListLevel(line.raw);
          AddListItem(level, list, content);
        case TextLine(content) => AddText(content);
      }
    }
  }

  lemma NextLine(lines: seq<Line>, i: nat, open: seq<Tag>, held: bool)
    requires i < |lines| && !lines[i].kind.Fence?
    ensures Expected(lines[i..], open, held)
         == LineEntries(lines[i], open, held)
            + Expected(lines[i + 1..], OpenAfter(lines[i], open), lines[i].kind.TextLine?)
  {
    assert lines[i..][1..] == lines[i + 1..];
  }

  /** The code of the block fenced at `i`, and the line after its closing fence. */
  function CodeAt(lines: seq<Line>, i: nat): seq<string>
    requires i < |lines|
  {
    Raws(lines[i + 1..][..CodeLength(lines[i + 1..])])
  }

  function AfterBlock(lines: seq<Line>, i: nat): (next: nat)
    requires i < |lines|
    ensures i < next <= |lines|
  {
    var end := i + 1 + CodeLength(lines[i + 1..]);
    if end < |lines| then end + 1 else end
  }

  lemma AfterCodeIs(lines: seq<Line>, i: nat)
    requires i < |lines|
    ensures AfterCode(lines[i + 1..]) == lines[AfterBlock(lines, i)..]
  {
    var rest := lines[i + 1..];
    if CodeLength(rest) < |rest| {
      assert rest[CodeLength(rest) + 1..] == lines[AfterBlock(lines, i)..];
    }
  }

  lemma NextCode(lines: seq<Line>, i: nat, open: seq<Tag>, held: bool)
    requires i < |lines| && lines[i].kind.Fence?
    ensures Expected(lines[i..], open, held)
         == CodeEntries([], CodeAt(lines, i)) + Expected(lines[AfterBlock(lines, i)..], [], false)
  {
    assert lines[i..][1..] == lines[i + 1..];
    AfterCodeIs(lines, i);
  }

  lemma NextRaw(lines: seq<Line>, from: nat, index: nat)
    requires from <= index < |lines|
    ensures Raws(lines[from..index + 1]) == Raws(lines[from..index]) + [lines[index].raw]
    ensures lines[index..][1..] == lines[index + 1..]
  {
  }

  /** The lines of the block fenced at `i`, up to its closing fence or the end. */
  method TakeCode(lines: seq<Line>, i: nat) returns (code: seq<string>, index: nat)
    requires i < |lines|
    ensures code == CodeAt(lines, i) && index == AfterBlock(lines, i)
  {
    code, index := [], i + 1;
    while index < |lines| && !lines[index].kind.Fence?
      invariant i < index <= |lines|
      invariant index + CodeLength(lines[index..]) == i + 1 + CodeLength(lines[i + 1..])
      invariant code == Raws(lines[i + 1..index])
    {
      NextRaw(lines, i + 1, index);
      code := code + [lines[index].raw];
      index := index + 1;
    }
    assert lines[i + 1..][..index - i - 1] == lines[i + 1..index];
    if index < |lines| {
      index := index + 1;
    }
  }

  /** Takes in the fenced block that starts at `index`. */
  method TakeFenced(w: Writer, lines: seq<Line>, index: nat) returns (next: nat)
    requires index < |lines| && lines[index].kind.Fence? && Valid(w.Now())
    modifies w
    ensures Valid(w.Now()) && index < next <= |lines|
    ensures w.TakenIn() + Expected(lines[next..], w.stack, w.paragraph != [])
         == old(w.TakenIn()) + Expected(lines[index..], old(w.stack), old(w.paragraph) != [])
  {
    ghost var before := w.TakenIn();
    NextCode(lines, index, w.stack, w.paragraph != []);
    var code;
    code, next := TakeCode(lines, index);
    w.AddCode(code);
    Regroup(before, CodeEntries([], code), Expected(lines[next..], [], false));
  }

  /** Takes in the line at `index`, outside code. */
  method TakeLine(w: Writer, lines: seq<Line>, index: nat)
    requires index < |lines| && !lines[index].kind.Fence? && Valid(w.Now())
    requires lines[index].kind.ItemLine? ==> IsList(lines[index].kind.list)
    modifies w
    ensures Valid(w.Now())
    ensures w.TakenIn() + Expected(lines[index + 1..], w.stack, w.paragraph != [])
         == old(w.TakenIn()) + Expected(lines[index..], old(w.stack), old(w.paragraph) != [])
  {
    ghost var before, open, held := w.TakenIn(), w.stack, w.paragraph != [];
    NextLine(lines, index, open, held);
    w.AddLine(lines[index]);
    Regroup(before, LineEntries(lines[index], open, held), Expected(lines[index + 1..], w.stack, w.paragraph != []));
  }

  /** What is taken in and what is still expected of the lines from `index` on are together what all expect. */
  ghost predicate OnTrack(taken: seq<Entry>, lines: seq<Line>, index: nat, open: seq<Tag>, held: bool)
    requires index <= |lines|
  {
    taken + Expected(lines[index..], open, held) == Expected(lines, [], false)
  }

  lemma OnTrackAtFirst(lines: seq<Line>)
    ensures OnTrack([], lines, 0, [], false)
  {
    assert lines[0..] == lines;
  }

  lemma OnTrackAtLast(taken: seq<Entry>, lines: seq<Line>, open: seq<Tag>, held: bool)
    requires OnTrack(taken, lines, |lines|, open, held)
    ensures taken == Expected(lines, [], false)
  {
    assert lines[|lines|..] == [];
  }

  method TakeLines(w: Writer, lines: seq<Line>)
    requires Classified(lines) && Valid(w.Now()) && w.TakenIn() == [] && w.stack == [] && w.paragraph == []
    modifies w
    ensures Valid(w.Now()) && w.TakenIn() == Expected(lines, [], false)
  {
    var index := 0;
    OnTrackAtFirst(lines);
    while index < |lines|
      invariant index <= |lines| && Valid(w.Now())
      invariant OnTrack(w.TakenIn(), lines, index, w.stack, w.paragraph != [])
    {
      if lines[index].kind.Fence? {
        index := TakeFenced(w, lines, index);
      } else {
        TakeLine(w, lines, index);
        index := index + 1;
      }
    }
    OnTrackAtLast(w.TakenIn(), lines, w.stack, w.paragraph != []);
  }

  /** For every document: the output is a balanced sequence of tags in which each nested list is directly
      inside an open item, and reading it gives every text of the document, once, in order, in the lists
      and the element it asked for, each list, item, paragraph, heading, code block and rule starting where the
      document starts one and nowhere else. */
  method MarkdownToHtml(lines: seq<Line>) returns (out: seq<Chunk>)
    requires Classified(lines)
    ensures Read(out, NOTHING_READ) == Reading([], Expected(lines, [], false))
  {
    var w := new Writer();
    TakeLines(w, lines);
    w.CloseBlocks();
    out := w.out;
  }

  // ---------- what a balanced reading means ----------

  function AllTokens(out: seq<Chunk>): seq<Token> {
    if out == [] then [] else AllTokens(out[..|out| - 1]) + Tokens(out[|out| - 1])
  }

  function CountOpen(ts: seq<Token>, tag: Tag): nat {
    if ts == [] then 0
    else CountOpen(ts[..|ts| - 1], tag) + if ts[|ts| - 1] == OpenTag(tag) then 1 else 0
  }

  function CountClose(ts: seq<Token>, tag: Tag): nat {
    if ts == [] then 0
    else CountClose(ts[..|ts| - 1], tag) + if ts[|ts| - 1] == CloseTag(tag) then 1 else 0
  }

  lemma {:induction false} ReadIsTokens(out: seq<Chunk>, r: Reading)
    ensures Read(out, r) == ReadTokens(AllTokens(out), r)
  {
    if out != [] {
      ReadIsTokens(out[..|out| - 1], r);
      ReadTokensConcat(AllTokens(out[..|out| - 1]), Tokens(out[|out| - 1]), r);
    }
  }

  lemma {:induction false} OpensLessCloses(ts: seq<Token>, tag: Tag)
    requires ReadTokens(ts, NOTHING_READ).Reading?
    ensures CountOpen(ts, tag) == CountClose(ts, tag) + multiset(ReadTokens(ts, NOTHING_READ).open)[tag]
  {
    if ts != [] {
      var init := ts[..|ts| - 1];
      OpensLessCloses(init, tag);
      StepCounts(ts[|ts| - 1], ReadTokens(init, NOTHING_READ), tag);
    }
  }

  lemma StepCounts(t: Token, r: Reading, tag: Tag)
    requires ReadToken(t, r).Reading?
    ensures r.Reading?
    ensures multiset(ReadToken(t, r).open)[tag] + (if t == CloseTag(tag) then 1 else 0)
         == multiset(r.open)[tag] + if t == OpenTag(tag) then 1 else 0
  {
    if t.CloseTag? {
      assert r.open == r.open[..|r.open| - 1] + [r.open[|r.open| - 1]];
    }
  }

  /** As many of each tag closed as opened: every `</li>` taken back is written again, once. */
  lemma EveryTagIsClosedOnce(out: seq<Chunk>, log: seq<Entry>, tag: Tag)
    requires Read(out, NOTHING_READ) == Reading([], log)
    ensures CountOpen(AllTokens(out), tag) == CountClose(AllTokens(out), tag)
  {
    ReadIsTokens(out, NOTHING_READ);
    OpensLessCloses(AllTokens(out), tag);
  }
}
