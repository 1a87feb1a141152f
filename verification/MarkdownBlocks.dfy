/**
 * The block parser of the design documents: lines are cut into blank lines, fenced code, headings,
 * tables, lists and paragraphs. Every result holds for any notion of white space and of a digit.
 */
module MarkdownBlocks {
  import opened Options
  import opened Text

  datatype Classes = Classes(space: char -> bool, digit: char -> bool)

  // ---------------------------------------------------------------- lines

  predicate IsBlank(t: Classes, line: string) {
    forall k :: 0 <= k < |line| ==> t.space(line[k])
  }

  predicate IsFence(line: string) {
    "```" <= line
  }

  predicate IsRow(line: string) {
    line != "" && line[0] == '|'
  }

  /** The length of the longest prefix of characters in the class. */
  function Leading(p: char -> bool, line: string): (n: nat)
    ensures n <= |line| && forall k :: 0 <= k < n ==> p(line[k])
    ensures n < |line| ==> !p(line[n])
  {
    if line != "" && p(line[0]) then 1 + Leading(p, line[1..]) else 0
  }

  function Hashes(line: string): nat {
    Leading(c => c == '#', line)
  }

  /** One to four "#", a space and some text. */
  predicate IsHeading(line: string) {
    var n := Hashes(line);
    1 <= n <= 4 && n + 1 < |line| && line[n] == ' '
  }

  predicate IsNumbered(t: Classes, line: string) {
    var n := Leading(t.digit, line);
    1 <= n && n + 1 < |line| && line[n] == '.' && line[n + 1] == ' '
  }

  predicate IsItem(t: Classes, line: string) {
    (2 <= |line| && (line[0] == '-' || line[0] == '*') && line[1] == ' ') || IsNumbered(t, line)
  }

  /** A line that ends a paragraph. */
  predicate Interrupts(t: Classes, line: string) {
    (line != "" && line[0] == '#') || IsRow(line) || IsFence(line) || IsItem(t, line)
  }

  predicate Continues(t: Classes, line: string) {
    !IsBlank(t, line) && !Interrupts(t, line)
  }

  datatype Kind = BlankLine | FenceLine | HeadingLine | RowLine | ItemLine | TextLine

  /** What a line starts when no block is open; the first test that holds decides. */
  function KindOf(t: Classes, line: string): Kind {
    if IsBlank(t, line) then BlankLine
    else if IsFence(line) then FenceLine
    else if IsHeading(line) then HeadingLine
    else if IsRow(line) then RowLine
    else if IsItem(t, line) then ItemLine
    else TextLine
  }

  // ---------------------------------------------------------------- pieces

  /** A blank line or a block, with the lines that it was read from. */
  datatype Piece =
    | Blank(line: string)
    | Code(open: string, body: seq<string>, close: Option<string>)
    | Heading(line: string)
    | Table(rows: seq<string>)
    | Items(items: seq<string>)
    | Paragraph(lines: seq<string>)

  function Source(p: Piece): (r: seq<string>) {
    match p
    case Blank(line) => [line]
    case Code(open, body, close) => [open] + body + (if close.Some? then [close.value] else [])
    case Heading(line) => [line]
    case Table(rows) => rows
    case Items(items) => items
    case Paragraph(lines) => lines
  }

  function PieceKind(p: Piece): Kind {
    match p
    case Blank(_) => BlankLine
    case Code(_, _, _) => FenceLine
    case Heading(_) => HeadingLine
    case Table(_) => RowLine
    case Items(_) => ItemLine
    case Paragraph(_) => TextLine
  }

  /** The first line starts such a piece, and every further line belongs to it. */
  predicate WellFormed(t: Classes, p: Piece) {
    && Source(p) != [] && KindOf(t, Source(p)[0]) == PieceKind(p)
    && match p
       case Blank(_) => true
       case Code(_, body, close) =>
         && (forall k :: 0 <= k < |body| ==> !IsFence(body[k]))
         && (close.Some? ==> IsFence(close.value))
       case Heading(_) => true
       case Table(rows) => forall k :: 1 <= k < |rows| ==> IsRow(rows[k])
       case Items(items) => forall k :: 1 <= k < |items| ==> IsItem(t, items[k])
       case Paragraph(lines) => forall k :: 1 <= k < |lines| ==> Continues(t, lines[k])
  }

  /** The piece could not go on at line `i`; code without a closing fence runs to the end. */
  predicate Ends(t: Classes, p: Piece, lines: seq<string>, i: nat) {
    match p
    case Blank(_) => true
    case Code(_, _, close) => close.None? ==> i >= |lines|
    case Heading(_) => true
    case Table(_) => i < |lines| ==> !IsRow(lines[i])
    case Items(_) => i < |lines| ==> !IsItem(t, lines[i])
    case Paragraph(_) => i < |lines| ==> !Continues(t, lines[i])
  }

  predicate Starts(t: Classes, p: Piece, lines: seq<string>, i: nat, j: nat) {
    && i + |Source(p)| == j <= |lines| && lines[i..j] == Source(p)
    && WellFormed(t, p) && Ends(t, p, lines, j)
  }

  /** The pieces cover the lines from `i` up to `j`. */
  predicate Covers(t: Classes, lines: seq<string>, i: nat, pieces: seq<Piece>, j: nat)
    decreases |pieces|
  {
    if pieces == [] then i == j <= |lines|
    else
      var k := i + |Source(pieces[0])|;
      Starts(t, pieces[0], lines, i, k) && Covers(t, lines, k, pieces[1..], j)
  }

  lemma {:induction false} CoversAppend(t: Classes, lines: seq<string>, i: nat, pieces: seq<Piece>, j: nat, p: Piece,
      k: nat)
    requires Covers(t, lines, i, pieces, j) && Starts(t, p, lines, j, k)
    ensures Covers(t, lines, i, pieces + [p], k)
    decreases |pieces|
  {
    hide Starts;
    if pieces == [] {
      assert pieces + [p] == [p] && [p][1..] == [];
      StartsAt(t, p, lines, j, k);
    } else {
      var m := i + |Source(pieces[0])|;
      CoversAppend(t, lines, m, pieces[1..], j, p, k);
      assert (pieces + [p])[1..] == pieces[1..] + [p];
    }
  }

  lemma StartsAt(t: Classes, p: Piece, lines: seq<string>, i: nat, j: nat)
    requires Starts(t, p, lines, i, j)
    ensures j == i + |Source(p)| && i < j <= |lines| && lines[i..j] == Source(p)
    ensures forall m :: i <= m < j ==> lines[m] == Source(p)[m - i]
  {
    forall m | i <= m < j ensures lines[m] == Source(p)[m - i] {
      assert lines[i..j][m - i] == lines[m];
    }
  }

  function Flatten(pieces: seq<Piece>): seq<string>
    decreases |pieces|
  {
    if pieces == [] then [] else Source(pieces[0]) + Flatten(pieces[1..])
  }

  /** Every line is consumed exactly once, in order. */
  lemma {:induction false} NothingLost(t: Classes, lines: seq<string>, i: nat, pieces: seq<Piece>, j: nat)
    requires Covers(t, lines, i, pieces, j)
    ensures i <= j <= |lines| && Flatten(pieces) == lines[i..j]
    decreases |pieces|
  {
    hide Starts;
    hide Source;
    if pieces != [] {
      var k := i + |Source(pieces[0])|;
      StartsAt(t, pieces[0], lines, i, k);
      NothingLost(t, lines, k, pieces[1..], j);
      assert lines[i..j] == lines[i..k] + lines[k..j];
    }
  }

  // ---------------------------------------------------------------- one reading only

  lemma SameRun(p: string -> bool, lines: seq<string>, i: nat, j: nat, k: nat)
    requires i < j <= |lines| && i < k <= |lines|
    requires forall m :: i < m < j ==> p(lines[m])
    requires forall m :: i < m < k ==> p(lines[m])
    requires j < |lines| ==> !p(lines[j])
    requires k < |lines| ==> !p(lines[k])
    ensures j == k
  {
  }

  lemma SameKind(t: Classes, lines: seq<string>, i: nat, p: Piece, j: nat, q: Piece, k: nat)
    requires Starts(t, p, lines, i, j) && Starts(t, q, lines, i, k)
    ensures PieceKind(p) == PieceKind(q)
  {
    StartsAt(t, p, lines, i, j);
    StartsAt(t, q, lines, i, k);
    hide KindOf;
    assert Source(p)[0] == lines[i] == Source(q)[0];
  }

  lemma SameLength(t: Classes, lines: seq<string>, i: nat, p: Piece, j: nat, q: Piece, k: nat)
    requires Starts(t, p, lines, i, j) && Starts(t, q, lines, i, k)
    ensures j == k && p.Code? == q.Code? && (p.Code? ==> |p.body| == |q.body|)
  {
    SameKind(t, lines, i, p, j, q, k);
    StartsAt(t, p, lines, i, j);
    StartsAt(t, q, lines, i, k);
    hide KindOf;
    hide IsItem;
    hide Continues;
    hide IsRow;
    hide IsFence;
    match p
    case Blank(_) =>
    case Heading(_) =>
    case Code(_, body, _) =>
      SameRun(l => !IsFence(l), lines, i, i + 1 + |body|, i + 1 + |q.body|);
    case Table(_) => SameRun(IsRow, lines, i, j, k);
    case Items(_) => SameRun(l => IsItem(t, l), lines, i, j, k);
    case Paragraph(_) => SameRun(l => Continues(t, l), lines, i, j, k);
  }

  lemma SamePiece(t: Classes, lines: seq<string>, i: nat, p: Piece, q: Piece, j: nat)
    requires Starts(t, p, lines, i, j) && Starts(t, q, lines, i, j)
    ensures p == q
  {
    SameKind(t, lines, i, p, j, q, j);
    SameLength(t, lines, i, p, j, q, j);
    hide WellFormed;
    if p.Code? {
      var n := |p.body|;
      assert p.body == Source(p)[1..1 + n] == Source(q)[1..1 + n] == q.body;
      assert p.close.Some? ==> p.close.value == Source(p)[n + 1];
      assert q.close.Some? ==> q.close.value == Source(q)[n + 1];
    } else if p.Blank? || p.Heading? {
      assert p.line == Source(p)[0] == Source(q)[0] == q.line;
    }
  }

  /** The lines determine their pieces: any two readings are the same. */
  lemma {:induction false} OneReading(t: Classes, lines: seq<string>, i: nat, ps: seq<Piece>, qs: seq<Piece>, j: nat)
    requires Covers(t, lines, i, ps, j) && Covers(t, lines, i, qs, j)
    ensures ps == qs
    decreases |ps|
  {
    hide Starts;
    hide Source;
    if ps != [] {
      StartsAt(t, ps[0], lines, i, i + |Source(ps[0])|);
      NothingLost(t, lines, i + |Source(ps[0])|, ps[1..], j);
    }
    if qs != [] {
      StartsAt(t, qs[0], lines, i, i + |Source(qs[0])|);
      NothingLost(t, lines, i + |Source(qs[0])|, qs[1..], j);
    }
    if ps != [] && qs != [] {
      var k := i + |Source(ps[0])|;
      SameLength(t, lines, i, ps[0], k, qs[0], i + |Source(qs[0])|);
      SamePiece(t, lines, i, ps[0], qs[0], k);
      OneReading(t, lines, k, ps[1..], qs[1..], j);
      assert ps == [ps[0]] + ps[1..] && qs == [qs[0]] + qs[1..];
    }
  }

  /** A document has one reading, and that reading uses up its lines. */
  lemma ReadingIsUnique(t: Classes, lines: seq<string>, ps: seq<Piece>, qs: seq<Piece>)
    ensures Covers(t, lines, 0, ps, |lines|) ==> Flatten(ps) == lines
    ensures Covers(t, lines, 0, ps, |lines|) && Covers(t, lines, 0, qs, |lines|) ==> ps == qs
  {
    hide Covers;
    if Covers(t, lines, 0, ps, |lines|) {
      NothingLost(t, lines, 0, ps, |lines|);
      if Covers(t, lines, 0, qs, |lines|) { OneReading(t, lines, 0, ps, qs, |lines|); }
    }
  }

  // ---------------------------------------------------------------- blocks, anchors and contents

  datatype Block =
    | CodeBlock(body: seq<string>)
    | HeadingBlock(level: nat, anchor: string, text: string)
    | TableBlock(rows: seq<string>)
    | ListBlock(numbered: bool, items: seq<string>)
    | ParagraphBlock(lines: seq<string>)

  datatype Link = Link(anchor: string, text: string)

  function Anchor(number: nat): string {
    "section-" + Decimal(number)
  }

  function HeadingOf(line: string, number: nat): Block
    requires IsHeading(line)
  {
    HeadingBlock(Hashes(line), Anchor(number), line[Hashes(line) + 1..])
  }

  /** The block of a piece; `number` counts the headings so far, this one included. */
  function BlockOf(t: Classes, p: Piece, number: nat): seq<Block>
    requires WellFormed(t, p)
  {
    match p
    case Blank(_) => []
    case Code(_, body, _) => [CodeBlock(body)]
    case Heading(line) => [HeadingOf(line, number)]
    case Table(rows) => [TableBlock(rows)]
    case Items(items) => [ListBlock(IsNumbered(t, items[0]), items)]
    case Paragraph(lines) => [ParagraphBlock(lines)]
  }

  function Headings(pieces: seq<Piece>): nat
    decreases |pieces|
  {
    if pieces == [] then 0
    else Headings(pieces[..|pieces| - 1]) + if pieces[|pieces| - 1].Heading? then 1 else 0
  }

  predicate AllWellFormed(t: Classes, pieces: seq<Piece>) {
    forall k :: 0 <= k < |pieces| ==> WellFormed(t, pieces[k])
  }

  /** The document: the blocks of the pieces, headings numbered from 1. */
  function Blocks(t: Classes, pieces: seq<Piece>): seq<Block>
    requires AllWellFormed(t, pieces)
    decreases |pieces|
  {
    if pieces == [] then []
    else
      var before, last := pieces[..|pieces| - 1], pieces[|pieces| - 1];
      Blocks(t, before) + BlockOf(t, last, Headings(pieces))
  }

  /** The level-2 headings of a document, in order. */
  function Contents(blocks: seq<Block>): seq<Link>
    decreases |blocks|
  {
    if blocks == [] then []
    else
      var last := blocks[|blocks| - 1];
      Contents(blocks[..|blocks| - 1])
      + if last.HeadingBlock? && last.level == 2 then [Link(last.anchor, last.text)] else []
  }

  lemma AnchorsDiffer(m: nat, n: nat)
    requires m != n
    ensures Anchor(m) != Anchor(n)
  {
    if Anchor(m) == Anchor(n) {
      assert Anchor(m)[|"section-"|..] == Decimal(m) && Anchor(n)[|"section-"|..] == Decimal(n);
      DecimalInjective(m, n);
    }
  }

  /** The k-th block was written when `number[k]` headings had been seen; headings count themselves. */
  ghost predicate NumberedBy(blocks: seq<Block>, number: seq<nat>, headings: nat) {
    && |number| == |blocks|
    && (forall k :: 0 <= k < |blocks| ==> number[k] <= headings)
    && (forall k :: 0 <= k < |blocks| && blocks[k].HeadingBlock? ==> blocks[k].anchor == Anchor(number[k]))
    && (forall j, k :: 0 <= j < k < |blocks| && blocks[k].HeadingBlock? ==> number[j] < number[k])
  }

  lemma NumberNext(blocks: seq<Block>, number: seq<nat>, headings: nat, block: Block)
    requires NumberedBy(blocks, number, headings)
    ensures !block.HeadingBlock? ==> NumberedBy(blocks + [block], number + [headings], headings)
    ensures block.HeadingBlock? && block.anchor == Anchor(headings + 1) ==>
      NumberedBy(blocks + [block], number + [headings + 1], headings + 1)
  {
  }

  lemma BlockAnchor(t: Classes, p: Piece, number: nat)
    requires WellFormed(t, p)
    ensures var bs := BlockOf(t, p, number);
      && (p.Blank? ==> bs == [])
      && (!p.Blank? ==> |bs| == 1 && bs == [bs[0]] && (bs[0].HeadingBlock? <==> p.Heading?))
      && (p.Heading? ==> bs[0].anchor == Anchor(number))
  {
    hide KindOf;
  }

  /** Headings carry the anchors of the numbers 1, 2, 3 and so on. */
  lemma {:induction false} AnchorsNumbered(t: Classes, pieces: seq<Piece>) returns (number: seq<nat>)
    requires AllWellFormed(t, pieces)
    ensures NumberedBy(Blocks(t, pieces), number, Headings(pieces))
    decreases |pieces|
  {
    hide WellFormed, BlockOf;
    if pieces == [] {
      number := [];
    } else {
      hide NumberedBy;
      var before, last := pieces[..|pieces| - 1], pieces[|pieces| - 1];
      number := AnchorsNumbered(t, before);
      BlockAnchor(t, last, Headings(pieces));
      if last.Blank? {
        assert Blocks(t, before) + [] == Blocks(t, before);
      } else {
        NumberNext(Blocks(t, before), number, Headings(before), BlockOf(t, last, Headings(pieces))[0]);
        number := number + [Headings(pieces)];
      }
    }
  }

  function Repeat(c: char, n: nat): (r: string)
    ensures |r| == n && forall k :: 0 <= k < n ==> r[k] == c
  {
    if n == 0 then "" else [c] + Repeat(c, n - 1)
  }

  /** The text that a block shows, as lines of a document. */
  function Shown(b: Block): seq<string> {
    match b
    case CodeBlock(body) => body
    case HeadingBlock(level, _, text) => [Repeat('#', level) + " " + text]
    case TableBlock(rows) => rows
    case ListBlock(_, items) => items
    case ParagraphBlock(lines) => lines
  }

  /** The lines of a piece that carry text: not a blank line, nor the fences of a code block. */
  function TextOf(p: Piece): seq<string> {
    if p.Blank? then [] else if p.Code? then WithoutFences(Source(p)) else Source(p)
  }

  function WithoutFences(lines: seq<string>): seq<string> {
    if lines == [] then [] else (if IsFence(lines[0]) then [] else [lines[0]]) + WithoutFences(lines[1..])
  }

  lemma {:induction false} NoFencesInside(lines: seq<string>, more: seq<string>)
    requires forall k :: 0 <= k < |lines| ==> !IsFence(lines[k])
    ensures WithoutFences(lines + more) == lines + WithoutFences(more)
    decreases |lines|
  {
    hide IsFence;
    if lines == [] {
      assert lines + more == more;
    } else {
      NoFencesInside(lines[1..], more);
      assert (lines + more)[1..] == lines[1..] + more;
    }
  }

  /** A heading is read back: its level is the number of "#" before the first space, its text the rest. */
  lemma HeadingsAreRead(level: nat, text: string, number: nat)
    requires 1 <= level <= 4 && text != ""
    ensures var line := Repeat('#', level) + " " + text;
      IsHeading(line) && HeadingOf(line, number) == HeadingBlock(level, Anchor(number), text)
  {
    var line := Repeat('#', level) + " " + text;
    assert line[level] == ' ' && forall k :: 0 <= k < level ==> line[k] == '#';
    LeadingIs(c => c == '#', line, level);
    assert line[level + 1..] == text;
  }

  lemma {:induction false} LeadingIs(p: char -> bool, line: string, n: nat)
    requires n <= |line| && (forall k :: 0 <= k < n ==> p(line[k])) && (n < |line| ==> !p(line[n]))
    ensures Leading(p, line) == n
  {
    if Leading(p, line) < n {} else if n < Leading(p, line) {}
  }

  predicate AllIn(p: char -> bool, s: string) {
    forall k :: 0 <= k < |s| ==> p(s[k])
  }

  /** What a line starts is decided by its first characters, a blank line coming first. */
  lemma LinesAreRead(t: Classes, text: string)
    ensures IsBlank(t, text) <==> forall c :: c in text ==> t.space(c)
    ensures !t.space('`') ==> KindOf(t, "```" + text) == FenceLine
    ensures !t.space('|') ==> KindOf(t, "|" + text) == RowLine
    ensures (exists c :: c in text && !t.space(c)) && |text| > 0 && text[0] !in "`#|-*" && !t.digit(text[0]) ==>
      KindOf(t, text) == TextLine && Continues(t, text)
    ensures text != "" && text[0] in "#|" ==> !Continues(t, text)
  {
    assert "```" <= "```" + text && ("```" + text)[0] == '`' && ("|" + text)[0] == '|';
    assert !IsFence("|" + text) && Hashes("|" + text) == 0;
  }

  /** A list item is read by its bullet, or by its number, a period and a space. */
  lemma ItemsAreRead(t: Classes, mark: string, text: string)
    requires !t.digit('.')
    requires mark == "-" || mark == "*" ||
      (|mark| >= 2 && mark[|mark| - 1] == '.' && AllIn(t.digit, mark[..|mark| - 1]))
    ensures IsItem(t, mark + " " + text)
    ensures |mark| >= 2 ==> IsNumbered(t, mark + " " + text)
  {
    var line := mark + " " + text;
    assert line[|mark|] == ' ' && line[..|mark|] == mark;
    if |mark| >= 2 {
      var n := |mark| - 1;
      assert line[..n] == mark[..n] && line[n] == '.';
      forall k | 0 <= k < n ensures t.digit(line[k]) { assert line[k] == mark[..n][k]; }
      LeadingIs(t.digit, line, n);
    }
  }

  /** Nothing else is an item; `n` is the length of its number. */
  lemma ItemsHaveMarks(t: Classes, line: string) returns (n: nat)
    requires IsItem(t, line)
    ensures n + 1 < |line| && line[n + 1] == ' '
    ensures if n == 0 then line[0] in "-*" else line[n] == '.' && AllIn(t.digit, line[..n])
  {
    n := if IsNumbered(t, line) then Leading(t.digit, line) else 0;
  }

  /** Nothing else is a heading. */
  lemma HeadingShows(line: string, number: nat)
    requires IsHeading(line)
    ensures var b := HeadingOf(line, number);
      && Shown(b) == [line] && 1 <= b.level <= 4 && b.text != "" && b.anchor == Anchor(number)
  {
    var n := Hashes(line);
    assert line[..n] == Repeat('#', n);
    assert line == line[..n] + [line[n]] + line[n + 1..];
  }

  /** The block of a piece shows its text. A list is numbered, or its first item has a bullet. */
  lemma BlockShows(t: Classes, p: Piece, number: nat)
    requires WellFormed(t, p)
    ensures var bs := BlockOf(t, p, number);
      && (p.Blank? <==> bs == []) && |bs| <= 1
      && (bs != [] ==> Shown(bs[0]) == TextOf(p))
      && (bs != [] ==> (bs[0].CodeBlock? <==> p.Code?) && (bs[0].TableBlock? <==> p.Table?))
      && (bs != [] ==> (bs[0].ListBlock? <==> p.Items?) && (bs[0].ParagraphBlock? <==> p.Paragraph?))
      && (bs != [] && bs[0].ListBlock? ==>
        if bs[0].numbered then t.digit(p.items[0][0]) else p.items[0][0] in "-*" && p.items[0][1] == ' ')
  {
    match p
    case Code(open, body, close) =>
      NoFencesInside(body, if close.Some? then [close.value] else []);
      assert Source(p)[0] == open && Source(p)[1..] == body + (if close.Some? then [close.value] else []);
      hide KindOf;
    case Heading(line) => HeadingShows(line, number);
    case _ =>
  }

  function ShownBy(blocks: seq<Block>): seq<string>
    decreases |blocks|
  {
    if blocks == [] then [] else ShownBy(blocks[..|blocks| - 1]) + Shown(blocks[|blocks| - 1])
  }

  function TextIn(pieces: seq<Piece>): seq<string>
    decreases |pieces|
  {
    if pieces == [] then [] else TextIn(pieces[..|pieces| - 1]) + TextOf(pieces[|pieces| - 1])
  }

  /** The document shows all its text, in order: every line but the blank ones and the fences. */
  lemma {:induction false} TextIsShown(t: Classes, pieces: seq<Piece>)
    requires AllWellFormed(t, pieces)
    ensures ShownBy(Blocks(t, pieces)) == TextIn(pieces)
    decreases |pieces|
  {
    hide WellFormed, BlockOf, TextOf, Shown;
    if pieces != [] {
      var before, last := pieces[..|pieces| - 1], pieces[|pieces| - 1];
      TextIsShown(t, before);
      BlockShows(t, last, Headings(pieces));
      var bs := BlockOf(t, last, Headings(pieces));
      if bs == [] {
        assert Blocks(t, pieces) == Blocks(t, before);
        BlankHasNoText(last);
      } else {
        assert bs == [bs[0]];
        assert Blocks(t, pieces)[..|Blocks(t, before)|] == Blocks(t, before);
      }
    }
  }

  lemma BlankHasNoText(p: Piece)
    requires p.Blank?
    ensures TextOf(p) == [] && TextIn([]) + TextOf(p) == TextIn([])
  {
  }

  /** No two headings share an anchor. */
  lemma AnchorsDistinct(t: Classes, pieces: seq<Piece>)
    requires AllWellFormed(t, pieces)
    ensures var blocks := Blocks(t, pieces);
      forall j, k :: 0 <= j < k < |blocks| && blocks[j].HeadingBlock? && blocks[k].HeadingBlock?
        ==> blocks[j].anchor != blocks[k].anchor
  {
    var number := AnchorsNumbered(t, pieces);
    var blocks := Blocks(t, pieces);
    forall j, k | 0 <= j < k < |blocks| && blocks[j].HeadingBlock? && blocks[k].HeadingBlock?
      ensures blocks[j].anchor != blocks[k].anchor
    {
      AnchorsDiffer(number[j], number[k]);
    }
  }

  predicate IsEntry(block: Block) {
    block.HeadingBlock? && block.level == 2
  }

  /** The links are the level-2 headings in order, each once: link `k` is the heading at `at[k]`. */
  ghost predicate ListsHeadings(blocks: seq<Block>, links: seq<Link>, at: seq<nat>) {
    && |at| == |links|
    && (forall k :: 0 <= k < |at| ==>
      at[k] < |blocks| && blocks[at[k]] == HeadingBlock(2, links[k].anchor, links[k].text))
    && (forall j, k :: 0 <= j < k < |at| ==> at[j] < at[k])
    && (forall i :: 0 <= i < |blocks| && IsEntry(blocks[i]) ==> i in at)
  }

  lemma ListOther(blocks: seq<Block>, links: seq<Link>, at: seq<nat>, last: Block)
    requires ListsHeadings(blocks, links, at) && !IsEntry(last)
    ensures ListsHeadings(blocks + [last], links, at)
  {
  }

  lemma ListEntry(blocks: seq<Block>, links: seq<Link>, at: seq<nat>, last: Block)
    requires ListsHeadings(blocks, links, at) && IsEntry(last)
    ensures ListsHeadings(blocks + [last], links + [Link(last.anchor, last.text)], at + [|blocks|])
  {
    var all, at' := blocks + [last], at + [|blocks|];
    forall i | 0 <= i < |all| && IsEntry(all[i]) ensures i in at' {
      if i < |blocks| {
        assert blocks[i] == all[i] && i in at;
      } else {
        assert at'[|at|] == i;
      }
    }
  }

  /** The contents are the level-2 headings in order, each once. */
  lemma {:induction false} ContentsAreHeadings(blocks: seq<Block>) returns (at: seq<nat>)
    ensures ListsHeadings(blocks, Contents(blocks), at)
    decreases |blocks|
  {
    hide ListsHeadings;
    if blocks == [] {
      at := [];
      NothingListed();
    } else {
      var before, last := blocks[..|blocks| - 1], blocks[|blocks| - 1];
      at := ContentsAreHeadings(before);
      assert blocks == before + [last];
      if IsEntry(last) {
        ListEntry(before, Contents(before), at, last);
        at := at + [|before|];
      } else {
        ListOther(before, Contents(before), at, last);
        assert Contents(before) + [] == Contents(before);
      }
    }
  }

  lemma NothingListed()
    ensures ListsHeadings([], [], [])
  {
  }

  // ---------------------------------------------------------------- the parser

  /** The state of the parser before line `i`: what was read, and what was written for it. */
  ghost predicate ReadSoFar(t: Classes, lines: seq<string>, i: nat, pieces: seq<Piece>, out: seq<Block>,
      toc: seq<Link>, number: nat)
  {
    && Covers(t, lines, 0, pieces, i) && AllWellFormed(t, pieces)
    && out == Blocks(t, pieces) && toc == Contents(out) && number == Headings(pieces)
  }

  lemma BlocksAppend(t: Classes, pieces: seq<Piece>, p: Piece)
    requires AllWellFormed(t, pieces) && WellFormed(t, p)
    ensures AllWellFormed(t, pieces + [p])
    ensures Headings(pieces + [p]) == Headings(pieces) + if p.Heading? then 1 else 0
    ensures Blocks(t, pieces + [p]) == Blocks(t, pieces) + BlockOf(t, p, Headings(pieces + [p]))
  {
    hide WellFormed;
    assert (pieces + [p])[..|pieces|] == pieces;
  }

  lemma {:induction false} ContentsAppend(a: seq<Block>, b: seq<Block>)
    ensures Contents(a + b) == Contents(a) + Contents(b)
    decreases |b|
  {
    if b == [] {
      assert a + b == a;
    } else {
      var front := b[..|b| - 1];
      assert (a + b)[..|a + b| - 1] == a + front;
      ContentsAppend(a, front);
    }
  }

  /** One piece further: its lines are read, its block and contents entry are appended. */
  lemma ReadOn(t: Classes, lines: seq<string>, i: nat, pieces: seq<Piece>, out: seq<Block>, toc: seq<Link>, number: nat,
      p: Piece, j: nat, added: seq<Block>, links: seq<Link>, number': nat)
    requires ReadSoFar(t, lines, i, pieces, out, toc, number) && Starts(t, p, lines, i, j)
    requires number' == (if p.Heading? then number + 1 else number)
    requires WellFormed(t, p) && added == BlockOf(t, p, number') && links == Contents(added)
    ensures ReadSoFar(t, lines, j, pieces + [p], out + added, toc + links, number')
  {
    hide WellFormed;
    hide Starts;
    hide Covers;
    hide AllWellFormed;
    hide Blocks;
    hide Contents;
    hide BlockOf;
    CoversAppend(t, lines, 0, pieces, i, p, j);
    BlocksAppend(t, pieces, p);
    ContentsAppend(out, added);
  }

  lemma NothingRead(t: Classes, lines: seq<string>)
    ensures ReadSoFar(t, lines, 0, [], [], [], 0)
  {
  }

  /** Reading a blank line, which writes nothing. */
  lemma ReadBlank(t: Classes, lines: seq<string>, i: nat, pieces: seq<Piece>, out: seq<Block>, toc: seq<Link>,
      number: nat)
    requires ReadSoFar(t, lines, i, pieces, out, toc, number) && i < |lines| && IsBlank(t, lines[i])
    ensures ReadSoFar(t, lines, i + 1, pieces + [Blank(lines[i])], out, toc, number)
  {
    hide ReadSoFar, IsBlank;
    assert Starts(t, Blank(lines[i]), lines, i, i + 1);
    assert out + [] == out && toc + [] == toc;
    ReadOn(t, lines, i, pieces, out, toc, number, Blank(lines[i]), i + 1, [], [], number);
  }

  lemma ReadHeading(t: Classes, lines: seq<string>, i: nat, pieces: seq<Piece>, out: seq<Block>, toc: seq<Link>,
      number: nat, block: Block, links: seq<Link>)
    requires ReadSoFar(t, lines, i, pieces, out, toc, number) && i < |lines| && KindOf(t, lines[i]) == HeadingLine
    requires block == HeadingOf(lines[i], number + 1)
    requires links == if block.level == 2 then [Link(block.anchor, block.text)] else []
    ensures ReadSoFar(t, lines, i + 1, pieces + [Heading(lines[i])], out + [block], toc + links, number + 1)
  {
    hide ReadSoFar;
    var p := Heading(lines[i]);
    assert Starts(t, p, lines, i, i + 1);
    assert [block][..0] == [];
    assert Contents([]) == [];
    assert Contents([block]) == links;
    ReadOn(t, lines, i, pieces, out, toc, number, p, i + 1, [block], links, number + 1);
  }

  /** Reading code, a table, a list or a paragraph: one block and no entry. */
  lemma ReadBlock(t: Classes, lines: seq<string>, i: nat, pieces: seq<Piece>, out: seq<Block>, toc: seq<Link>,
      number: nat, p: Piece, j: nat)
    requires ReadSoFar(t, lines, i, pieces, out, toc, number) && Starts(t, p, lines, i, j)
    requires !p.Blank? && !p.Heading?
    ensures WellFormed(t, p)
    ensures ReadSoFar(t, lines, j, pieces + [p], out + BlockOf(t, p, number), toc, number)
  {
    hide KindOf;
    var added := BlockOf(t, p, number);
    assert added[..0] == [];
    assert Contents([]) == [];
    assert Contents(added) == [];
    assert toc + [] == toc;
    ReadOn(t, lines, i, pieces, out, toc, number, p, j, added, [], number);
  }

  /** Code up to the closing fence, or to the end of the document. */
  lemma CodeStarts(t: Classes, lines: seq<string>, i: nat, k: nat)
    requires i < k <= |lines| && KindOf(t, lines[i]) == FenceLine
    requires forall m :: i < m < k ==> !IsFence(lines[m])
    requires k < |lines| ==> IsFence(lines[k])
    ensures var p := Code(lines[i], lines[i + 1..k], if k < |lines| then Some(lines[k]) else None);
      Starts(t, p, lines, i, if k < |lines| then k + 1 else k)
  {
    hide KindOf;
    hide IsFence;
    var j := if k < |lines| then k + 1 else k;
    assert lines[i..j] == [lines[i]] + lines[i + 1..k] + if k < |lines| then [lines[k]] else [];
  }

  /** A first line and the lines after it that its kind of block takes in. */
  predicate RunsTo(p: string -> bool, lines: seq<string>, i: nat, run: seq<string>, j: nat) {
    && i < j <= |lines| && run == lines[i..j]
    && (forall m :: i < m < j ==> p(lines[m]))
    && (j < |lines| ==> !p(lines[j]))
  }

  lemma RunStarts(t: Classes, lines: seq<string>, i: nat, run: seq<string>, j: nat)
    requires i < |lines|
    ensures KindOf(t, lines[i]) == RowLine && RunsTo(IsRow, lines, i, run, j) ==> Starts(t, Table(run), lines, i, j)
    ensures KindOf(t, lines[i]) == ItemLine && RunsTo(l => IsItem(t, l), lines, i, run, j) ==>
      Starts(t, Items(run), lines, i, j)
    ensures KindOf(t, lines[i]) == TextLine && RunsTo(l => Continues(t, l), lines, i, run, j) ==>
      Starts(t, Paragraph(run), lines, i, j)
  {
    hide KindOf;
    hide IsItem;
    hide Continues;
    hide IsRow;
  }

  lemma HeadingBounds(line: string)
    requires IsHeading(line)
    ensures Hashes(line) + 1 < |line|
  {
  }

  /** Takes in the lines after the first for as long as they fit. */
  method TakeRun(p: string -> bool, lines: seq<string>, start: nat) returns (run: seq<string>, i: nat)
    requires start < |lines|
    ensures RunsTo(p, lines, start, run, i)
  {
    run, i := [lines[start]], start + 1;
    while i < |lines| && p(lines[i])
      invariant start < i <= |lines| && run == lines[start..i]
      invariant forall m :: start < m < i ==> p(lines[m])
    {
      run := run + [lines[i]];
      i := i + 1;
    }
  }

  method TakeCode(lines: seq<string>, start: nat) returns (body: seq<string>, i: nat)
    requires start < |lines|
    ensures start < i <= |lines| && body == lines[start + 1..i]
    ensures forall m :: start < m < i ==> !IsFence(lines[m])
    ensures i < |lines| ==> IsFence(lines[i])
  {
    body, i := [], start + 1;
    while i < |lines| && !IsFence(lines[i])
      invariant start < i <= |lines| && body == lines[start + 1..i]
      invariant forall m :: start < m < i ==> !IsFence(lines[m])
    {
      body := body + [lines[i]];
      i := i + 1;
    }
  }

  /**
   * The parser: the pieces cover the document line by line, its blocks and contents are those of
   * the pieces. After an unterminated fence the index is one past the end.
   */
  method Markdown(t: Classes, lines: seq<string>) returns (out: seq<Block>, toc: seq<Link>, ghost pieces: seq<Piece>)
    ensures Covers(t, lines, 0, pieces, |lines|) && AllWellFormed(t, pieces)
    ensures out == Blocks(t, pieces)
    ensures toc == Contents(out)
  {
    hide Covers;
    hide AllWellFormed;
    hide Blocks;
    hide Contents;
    hide Headings;
    hide ReadSoFar;
    hide IsItem;
    hide IsNumbered;
    hide IsBlank;
    hide IsHeading;
    hide IsFence;
    hide IsRow;
    hide Continues;
    hide Starts;
    hide RunsTo;
    hide WellFormed;
    out, toc, pieces := [], [], [];
    var i, number := 0, 0;
    NothingRead(t, lines);
    while i < |lines|
      invariant ReadSoFar(t, lines, if i <= |lines| then i else |lines|, pieces, out, toc, number)
    {
      var line, start := lines[i], i;
      i := i + 1;
      if IsBlank(t, line) {
        ReadBlank(t, lines, start, pieces, out, toc, number);
        pieces := pieces + [Blank(line)];
      } else if IsFence(line) {
        var body;
        body, i := TakeCode(lines, start);
        CodeStarts(t, lines, start, i);
        ghost var p := Code(line, body, if i < |lines| then Some(lines[i]) else None);
        ReadBlock(t, lines, start, pieces, out, toc, number, p, if i < |lines| then i + 1 else i);
        pieces := pieces + [p];
        i := i + 1;
        out := out + [CodeBlock(body)];
      } else if IsHeading(line) {
        HeadingBounds(line);
        var level := Hashes(line);
        number := number + 1;
        var anchor, text := Anchor(number), line[level + 1..];
        var links := if level == 2 then [Link(anchor, text)] else [];
        ReadHeading(t, lines, start, pieces, out, toc, number - 1, HeadingBlock(level, anchor, text), links);
        pieces := pieces + [Heading(line)];
        out := out + [HeadingBlock(level, anchor, text)];
        toc := toc + links;
      } else {
        ghost var p;
        var block;
        p, block, i := TakeLines(t, lines, start);
        ReadBlock(t, lines, start, pieces, out, toc, number, p, i);
        pieces := pieces + [p];
        out := out + [block];
      }
    }
    ReadAll(t, lines, pieces, out, toc, number);
  }

  /** A table, a list or a paragraph. */
  method TakeLines(t: Classes, lines: seq<string>, start: nat) returns (ghost p: Piece, block: Block, i: nat)
    requires start < |lines| && KindOf(t, lines[start]) in {RowLine, ItemLine, TextLine}
    ensures start < i <= |lines| && Starts(t, p, lines, start, i) && WellFormed(t, p)
    ensures !p.Blank? && !p.Heading? && !p.Code?
    ensures forall number :: BlockOf(t, p, number) == [block]
  {
    var run;
    if IsRow(lines[start]) {
      run, i := TakeRun(IsRow, lines, start);
      p, block := Table(run), TableBlock(run);
    } else if IsItem(t, lines[start]) {
      run, i := TakeRun(l => IsItem(t, l), lines, start);
      p, block := Items(run), ListBlock(IsNumbered(t, lines[start]), run);
    } else {
      run, i := TakeRun(l => Continues(t, l), lines, start);
      p, block := Paragraph(run), ParagraphBlock(run);
    }
    RunStarts(t, lines, start, run, i);
    StartsAt(t, p, lines, start, i);
  }

  lemma ReadAll(t: Classes, lines: seq<string>, pieces: seq<Piece>, out: seq<Block>, toc: seq<Link>, number: nat)
    requires ReadSoFar(t, lines, |lines|, pieces, out, toc, number)
    ensures Covers(t, lines, 0, pieces, |lines|) && AllWellFormed(t, pieces)
    ensures out == Blocks(t, pieces) && toc == Contents(out)
  {
  }
}
