/** The line breaker of the social image: greedy wrapping at the largest of three font sizes. */
module Slogan {
  import opened Text

  const MAX_WIDTH: nat := 1000
  const SIZES: seq<nat> := [56, 52, 48]

  /** Font metrics: the advance of a text in font units, uninterpreted, and the units of one em. */
  datatype Metrics = Metrics(advance: string -> nat, unitsPerEm: nat)

  /** `advance * size / unitsPerEm` does not exceed the width of a line. */
  predicate Fits(m: Metrics, size: nat, text: string) {
    m.advance(text) * size <= MAX_WIDTH * m.unitsPerEm
  }

  datatype Result =
    | Layout(slogan: string, lines: seq<string>, fontSize: nat)
    | InvalidSlogan
    | UnsupportedCharacters
    | TooLong

  const MAX_LENGTH: nat := 100

  /** What the schema makes of the input: trimmed, not empty, not too long, without control characters. */
  predicate Valid(input: string) {
    var t := Trim(input);
    1 <= |t| <= MAX_LENGTH && forall k :: 0 <= k < |t| ==> t[k] > '\U{1f}'
  }

  /** A slogan after trimming and collapsing: words with single spaces between them. */
  predicate Normal(s: string) {
    "" !in Split(s, ' ')
  }

  // ---------------------------------------------------------------- breaks

  function Flatten(groups: seq<seq<string>>): seq<string> {
    if groups == [] then [] else groups[0] + Flatten(groups[1..])
  }

  ghost predicate Filled(groups: seq<seq<string>>) {
    forall k :: 0 <= k < |groups| ==> groups[k] != []
  }

  /** The words in order, cut into lines that fit. */
  ghost predicate IsBreak(m: Metrics, size: nat, groups: seq<seq<string>>, words: seq<string>) {
    && Flatten(groups) == words
    && Filled(groups)
    && forall k :: 0 <= k < |groups| ==> Fits(m, size, Join(groups[k], ' '))
  }

  /** No line could have taken the first word of the next one. */
  ghost predicate Tight(m: Metrics, size: nat, groups: seq<seq<string>>) {
    && Filled(groups)
    && (forall k {:trigger groups[k + 1]} :: 0 <= k && k + 1 < |groups| ==>
        !Fits(m, size, Join(groups[k] + [groups[k + 1][0]], ' ')))
  }

  /** Adding words on either side of a run does not make it narrower. */
  ghost predicate GrowsWithWords(m: Metrics) {
    forall a: seq<string>, b: seq<string>, c: seq<string> ::
      b != [] ==> m.advance(Join(b, ' ')) <= m.advance(Join(a + b + c, ' '))
  }

  lemma SubrunFits(m: Metrics, size: nat, a: seq<string>, b: seq<string>, c: seq<string>)
    requires GrowsWithWords(m) && b != [] && Fits(m, size, Join(a + b + c, ' '))
    ensures Fits(m, size, Join(b, ' '))
  {
    var x, y := m.advance(Join(b, ' ')), m.advance(Join(a + b + c, ' '));
    assert x <= y;
    assert x * size <= y * size by { Scales(x, y, size); }
  }

  lemma Scales(x: nat, y: nat, k: nat)
    requires x <= y
    ensures x * k <= y * k
  {
  }

  /** Greedy lines are the fewest: a tight break of `w` needs no more lines than any break of a text
      that ends in `w`. */
  lemma {:induction false} TightIsMinimal(m: Metrics, size: nat, g: seq<seq<string>>, h: seq<seq<string>>,
      d: seq<string>, w: seq<string>)
    requires GrowsWithWords(m)
    requires Flatten(g) == w && Tight(m, size, g)
    requires IsBreak(m, size, h, d + w)
    ensures |g| <= |h|
    decreases |g| + |h|
  {
    if g != [] {
      assert w[..|g[0]|] == g[0] && w[|g[0]|..] == Flatten(g[1..]);
      assert h != [] by { assert |d + w| > 0; }
      assert (d + w)[..|h[0]|] == h[0] && (d + w)[|h[0]|..] == Flatten(h[1..]);
      if |h[0]| <= |d| {
        assert (d + w)[|h[0]|..] == d[|h[0]|..] + w;
        TightIsMinimal(m, size, g, h[1..], d[|h[0]|..], w);
      } else {
        var taken := |h[0]| - |d|;
        FirstLineIsLongest(m, size, g, h[0], d, w, taken);
        assert (d + w)[|h[0]|..] == w[taken..] == w[taken..|g[0]|] + w[|g[0]|..];
        TightTail(m, size, g);
        TightIsMinimal(m, size, g[1..], h[1..], w[taken..|g[0]|], w[|g[0]|..]);
      }
    }
  }

  lemma TightAt(m: Metrics, size: nat, g: seq<seq<string>>, k: nat)
    requires Tight(m, size, g) && k + 1 < |g|
    ensures g[k + 1] != [] && !Fits(m, size, Join(g[k] + [g[k + 1][0]], ' '))
  {
  }

  lemma TightTail(m: Metrics, size: nat, g: seq<seq<string>>)
    requires g != [] && Tight(m, size, g)
    ensures Tight(m, size, g[1..])
  {
    forall k {:trigger g[1..][k + 1]} | 0 <= k && k + 1 < |g[1..]|
      ensures !Fits(m, size, Join(g[1..][k] + [g[1..][k + 1][0]], ' '))
    {
      TightAt(m, size, g, k + 1);
    }
  }

  lemma TwoLinesOn(g: seq<seq<string>>, w: seq<string>)
    requires |g| > 1 && Filled(g) && Flatten(g) == w
    ensures |g[0]| < |w| && w[..|g[0]| + 1] == g[0] + [g[1][0]]
  {
    assert Flatten(g[1..]) == g[1] + Flatten(g[1..][1..]);
    assert w == g[0] + (g[1] + Flatten(g[1..][1..]));
  }

  lemma FirstLineIsLongest(m: Metrics, size: nat, g: seq<seq<string>>, line: seq<string>, d: seq<string>,
      w: seq<string>, taken: nat)
    requires GrowsWithWords(m) && g != [] && Flatten(g) == w && Tight(m, size, g)
    requires taken <= |w| && line == d + w[..taken] && line != [] && Fits(m, size, Join(line, ' '))
    ensures taken <= |g[0]|
  {
    hide Fits, GrowsWithWords, Tight, Join, Flatten;
    if taken > |g[0]| {
      OneLineIsAll(g, w);
      TightAt(m, size, g, 0);
      TightIsFilled(m, size, g);
      TwoLinesOn(g, w);
      var n := |g[0]| + 1;
      assert line == d + w[..n] + w[n..taken];
      SubrunFits(m, size, d, w[..n], w[n..taken]);
    }
  }

  lemma TightIsFilled(m: Metrics, size: nat, g: seq<seq<string>>)
    requires Tight(m, size, g)
    ensures Filled(g)
  {
  }

  lemma OneLineIsAll(g: seq<seq<string>>, w: seq<string>)
    requires Flatten(g) == w && g != []
    ensures |g| == 1 ==> w == g[0]
  {
    if |g| == 1 { assert g[0] + [] == g[0]; }
  }

  // ---------------------------------------------------------------- the loop

  ghost function Lines(groups: seq<seq<string>>): seq<string>
    requires Filled(groups)
  {
    seq(|groups|, i requires 0 <= i < |groups| => Join(groups[i], ' '))
  }

  lemma {:induction false} LinesRejoin(groups: seq<seq<string>>)
    requires groups != [] && Filled(groups)
    ensures Flatten(groups) != [] && Join(Lines(groups), ' ') == Join(Flatten(groups), ' ')
    decreases |groups|
  {
    if |groups| == 1 {
      assert Flatten(groups) == groups[0] + [] == groups[0];
    } else {
      assert groups[1..][0] == groups[1];
      LinesRejoin(groups[1..]);
      assert Lines(groups)[1..] == Lines(groups[1..]);
      JoinConcat(groups[0], Flatten(groups[1..]), ' ');
    }
  }

  lemma {:induction false} FlattenSnoc(groups: seq<seq<string>>, g: seq<string>)
    ensures Flatten(groups + [g]) == Flatten(groups) + g
    decreases |groups|
  {
    if groups == [] {
      assert [] + [g] == [g] && g + [] == g;
    } else {
      FlattenSnoc(groups[1..], g);
      assert (groups + [g])[1..] == groups[1..] + [g];
      assert groups[0] + (Flatten(groups[1..]) + g) == (groups[0] + Flatten(groups[1..])) + g;
    }
  }

  lemma JoinSnoc(line: seq<string>, word: string)
    requires line != []
    ensures Join(line + [word], ' ') == Join(line, ' ') + " " + word
  {
    JoinConcat(line, [word], ' ');
  }

  /** One size: `fits` is false when a single word is too wide; otherwise the lines are a tight break. */
  method Wrap(m: Metrics, size: nat, words: seq<string>)
    returns (fits: bool, lines: seq<string>, ghost groups: seq<seq<string>>)
    requires words != [] && "" !in words
    ensures fits ==> IsBreak(m, size, groups, words) && Tight(m, size, groups) && lines == Lines(groups)
    ensures !fits ==> exists i :: 0 <= i < |words| && !Fits(m, size, words[i])
  {
    hide Fits, Tight;
    lines, groups, fits := [], [], true;
    var line := "";
    ghost var run: seq<string> := [];
    for i := 0 to |words|
      invariant fits
      invariant Flatten(groups) + run == words[..i]
      invariant (line == "" <==> run == []) && (i > 0 ==> run != [])
      invariant run != [] ==> line == Join(run, ' ') && Fits(m, size, line)
      invariant run == [] ==> groups == []
      invariant Filled(groups) && forall k :: 0 <= k < |groups| ==> Fits(m, size, Join(groups[k], ' '))
      invariant lines == Lines(groups)
      invariant run != [] ==> Tight(m, size, groups + [run])
    {
      var word := words[i];
      assert word != "";
      assert words[..i + 1] == words[..i] + [word];
      if !Fits(m, size, word) { fits := false; break; }
      if run != [] { JoinSnoc(run, word); }
      if line != "" && !Fits(m, size, line + " " + word) {
        FlattenSnoc(groups, run);
        assert Join([word], ' ') == word;
        TightSnoc(m, size, groups, run, word);
        lines, groups := lines + [line], groups + [run];
        line, run := word, [word];
      } else {
        if run != [] { TightGrows(m, size, groups, run, word); } else { TightAlone(m, size, word); }
        line := if line != "" then line + " " + word else word;
        run := run + [word];
        assert |run| == 1 ==> Join(run, ' ') == word;
      }
    }
    if fits {
      assert words[..|words|] == words;
      FlattenSnoc(groups, run);
      if line != "" { lines := lines + [line]; }
      groups := groups + [run];
    }
  }

  lemma TightAlone(m: Metrics, size: nat, word: string)
    ensures Tight(m, size, [] + [[] + [word]])
  {
  }

  lemma TightSnoc(m: Metrics, size: nat, groups: seq<seq<string>>, run: seq<string>, word: string)
    requires Tight(m, size, groups + [run]) && run != [] && !Fits(m, size, Join(run + [word], ' '))
    ensures Tight(m, size, groups + [run] + [[word]])
  {
    var a, b := groups + [run], groups + [run] + [[word]];
    forall k | 0 <= k < |b| ensures b[k] != [] { if k < |a| { assert a[k] != []; } }
    forall k {:trigger b[k + 1]} | 0 <= k && k + 1 < |b| ensures !Fits(m, size, Join(b[k] + [b[k + 1][0]], ' ')) {
      if k + 1 < |a| { assert b[k] == a[k] && b[k + 1] == a[k + 1]; }
    }
  }

  lemma TightGrows(m: Metrics, size: nat, groups: seq<seq<string>>, run: seq<string>, word: string)
    requires Tight(m, size, groups + [run]) && run != []
    ensures Tight(m, size, groups + [run + [word]])
  {
    var a, b := groups + [run], groups + [run + [word]];
    forall k | 0 <= k < |b| ensures b[k] != [] { assert a[k] != []; }
    forall k {:trigger b[k + 1]} | 0 <= k && k + 1 < |b| ensures !Fits(m, size, Join(b[k] + [b[k + 1][0]], ' ')) {
      assert b[k] == a[k] && b[k + 1][0] == a[k + 1][0];
    }
  }

  // ---------------------------------------------------------------- all sizes

  ghost predicate TwoLines(m: Metrics, size: nat, words: seq<string>) {
    exists groups :: |groups| <= 2 && IsBreak(m, size, groups, words)
  }

  /** A word that is too wide rules out every break. */
  lemma {:induction false} WideWord(m: Metrics, size: nat, groups: seq<seq<string>>, words: seq<string>, i: nat)
    requires GrowsWithWords(m) && i < |words| && !Fits(m, size, words[i])
    ensures !IsBreak(m, size, groups, words)
    decreases |groups|
  {
    if IsBreak(m, size, groups, words) {
      var g := groups[0];
      assert words[..|g|] == g && words[|g|..] == Flatten(groups[1..]);
      if i < |g| {
        assert g == g[..i] + [g[i]] + g[i + 1..];
        assert Join([g[i]], ' ') == words[i];
        SubrunFits(m, size, g[..i], [g[i]], g[i + 1..]);
      } else {
        WideWord(m, size, groups[1..], words[|g|..], i - |g|);
      }
    }
  }

  lemma SmallerFits(m: Metrics, small: nat, large: nat, groups: seq<seq<string>>, words: seq<string>)
    requires small <= large && IsBreak(m, large, groups, words)
    ensures IsBreak(m, small, groups, words)
  {
    forall k | 0 <= k < |groups| ensures Fits(m, small, Join(groups[k], ' ')) {
      var w := m.advance(Join(groups[k], ' '));
      assert small * w <= large * w by { Scales(small, large, w); }
    }
  }

  /** At one size the loop answers with at most two lines exactly when such a break exists. */
  lemma GreedyDecides(m: Metrics, size: nat, words: seq<string>, groups: seq<seq<string>>)
    requires GrowsWithWords(m) && IsBreak(m, size, groups, words) && Tight(m, size, groups)
    ensures |groups| <= 2 <==> TwoLines(m, size, words)
  {
    if h :| |h| <= 2 && IsBreak(m, size, h, words) {
      assert [] + words == words;
      TightIsMinimal(m, size, groups, h, [], words);
    }
  }

  /** The loop over the sizes for a normalised slogan. */
  method LargestSize(m: Metrics, slogan: string) returns (r: Result)
    requires Normal(slogan)
    ensures r.Layout? || r.TooLong?
    ensures r.Layout? ==>
      && r.slogan == slogan && r.fontSize in SIZES && 1 <= |r.lines| <= 2
      && Join(r.lines, ' ') == slogan
      && forall k :: 0 <= k < |r.lines| ==> Fits(m, r.fontSize, r.lines[k])
    ensures GrowsWithWords(m) ==> (r.TooLong? <==> !TwoLines(m, 48, Split(slogan, ' ')))
    ensures GrowsWithWords(m) && r.Layout? ==>
      forall size :: size in SIZES && size > r.fontSize ==> !TwoLines(m, size, Split(slogan, ' '))
  {
    hide Fits, GrowsWithWords, Tight, IsBreak, Flatten;
    var words := Split(slogan, ' ');
    JoinSplit(slogan, ' ');
    for n := 0 to |SIZES|
      invariant GrowsWithWords(m) ==> forall k :: 0 <= k < n ==> !TwoLines(m, SIZES[k], words)
    {
      var fits, lines, groups := Wrap(m, SIZES[n], words);
      if fits && |lines| <= 2 {
        Answer(m, SIZES[n], slogan, words, groups);
        return Layout(slogan, lines, SIZES[n]);
      }
      if GrowsWithWords(m) { NoAnswer(m, SIZES[n], words, fits, groups); }
    }
    assert SIZES[2] == 48;
    return TooLong;
  }

  lemma Answer(m: Metrics, size: nat, slogan: string, words: seq<string>, groups: seq<seq<string>>)
    requires words == Split(slogan, ' ') && Join(words, ' ') == slogan && size >= 48
    requires IsBreak(m, size, groups, words) && |groups| <= 2
    ensures 1 <= |groups| && Join(Lines(groups), ' ') == slogan
    ensures forall k :: 0 <= k < |groups| ==> Fits(m, size, Lines(groups)[k])
    ensures TwoLines(m, 48, words)
  {
    assert groups != [];
    LinesRejoin(groups);
    SmallerFits(m, 48, size, groups, words);
  }

  lemma NoAnswer(m: Metrics, size: nat, words: seq<string>, fits: bool, groups: seq<seq<string>>)
    requires GrowsWithWords(m)
    requires if fits then IsBreak(m, size, groups, words) && Tight(m, size, groups) && |groups| > 2
             else exists i :: 0 <= i < |words| && !Fits(m, size, words[i])
    ensures !TwoLines(m, size, words)
  {
    if fits {
      GreedyDecides(m, size, words, groups);
    } else {
      var i :| 0 <= i < |words| && !Fits(m, size, words[i]);
      forall h | |h| <= 2 ensures !IsBreak(m, size, h, words) { WideWord(m, size, h, words, i); }
    }
  }

  // ---------------------------------------------------------------- normalisation

  /** Every run of white space becomes one space. */
  function Collapse(s: string, isSpace: char -> bool): string {
    if s == [] then []
    else if !isSpace(s[0]) then [s[0]] + Collapse(s[1..], isSpace)
    else if |s| > 1 && isSpace(s[1]) then Collapse(s[1..], isSpace)
    else " " + Collapse(s[1..], isSpace)
  }

  /** No two spaces in a row, none at the end. */
  predicate Spaced(s: string) {
    && (s != [] ==> s[|s| - 1] != ' ')
    && forall i :: 0 <= i < |s| - 1 ==> s[i] != ' ' || s[i + 1] != ' '
  }

  lemma SpacedCons(c: char, rest: string)
    requires rest != [] && Spaced(rest) && (c != ' ' || rest[0] != ' ')
    ensures Spaced([c] + rest)
  {
    var s := [c] + rest;
    forall i | 0 <= i < |s| - 1 ensures s[i] != ' ' || s[i + 1] != ' ' {
      if i > 0 { assert s[i] == rest[i - 1] && s[i + 1] == rest[(i - 1) + 1]; }
    }
  }

  lemma {:induction false} CollapseSpaces(s: string, isSpace: char -> bool)
    requires isSpace(' ') && s != [] && !isSpace(s[|s| - 1])
    ensures var c := Collapse(s, isSpace);
            c != [] && Spaced(c) && (!isSpace(s[0]) ==> c[0] == s[0])
    decreases |s|
  {
    hide Spaced;
    if |s| > 1 {
      CollapseSpaces(s[1..], isSpace);
      var rest := Collapse(s[1..], isSpace);
      if !isSpace(s[0]) {
        SpacedCons(s[0], rest);
      } else if !isSpace(s[1]) {
        assert rest[0] == s[1] != ' ';
        SpacedCons(' ', rest);
      }
    } else {
      assert Collapse(s[1..], isSpace) == [];
      assert Collapse(s, isSpace) == s;
      SpacedOne(s);
    }
  }

  lemma SpacedOne(s: string)
    requires |s| == 1 && s[0] != ' '
    ensures Spaced(s)
  {
  }

  lemma {:induction false} SpacedWords(s: string)
    requires s != [] && Spaced(s)
    ensures "" !in Split(s, ' ')[1..] && (s[0] != ' ' ==> Split(s, ' ')[0] != "")
    decreases |s|
  {
    if |s| > 1 {
      assert Spaced(s[1..]) by {
        forall i | 0 <= i < |s[1..]| - 1 ensures s[1..][i] != ' ' || s[1..][i + 1] != ' ' {
          assert s[1..][i] == s[i + 1] && s[1..][i + 1] == s[(i + 1) + 1];
        }
      }
      SpacedWords(s[1..]);
      var rest := Split(s[1..], ' ');
      assert s[0] != ' ' || s[0 + 1] != ' ';
      assert rest == [rest[0]] + rest[1..];
    } else {
      assert s[1..] == [];
    }
  }

  /** What the schema lets through, trimmed and not empty, collapses to a normal slogan. */
  lemma CollapsedIsNormal(s: string, isSpace: char -> bool)
    requires isSpace(' ') && s != [] && !isSpace(s[0]) && !isSpace(s[|s| - 1])
    ensures Normal(Collapse(s, isSpace))
  {
    CollapseSpaces(s, isSpace);
    var c := Collapse(s, isSpace);
    SpacedWords(c);
    assert Split(c, ' ') == [Split(c, ' ')[0]] + Split(c, ' ')[1..];
  }

  /** The words of a text: its longest runs of characters that are no white space. */
  function Words(s: string): (r: seq<string>)
    ensures forall w :: w in r ==> w != "" && forall c :: c in w ==> !IsBlank(c)
    ensures s != [] && !IsBlank(s[0]) ==> r != []
  {
    if s == [] then []
    else if IsBlank(s[0]) then Words(s[1..])
    else
      var rest := Words(s[1..]);
      if |s| > 1 && !IsBlank(s[1]) then
        assert rest[0] in rest && forall w :: w in rest[1..] ==> w in rest;
        [[s[0]] + rest[0]] + rest[1..]
      else [[s[0]]] + rest
  }

  lemma {:induction false} TrimStartKeepsWords(s: string)
    ensures Words(TrimStart(s)) == Words(s)
    decreases |s|
  {
    hide IsBlank;
    if s != [] && IsBlank(s[0]) { TrimStartKeepsWords(s[1..]); }
  }

  lemma {:induction false} BlankEndHasNoWord(s: string, c: char)
    requires IsBlank(c)
    ensures Words(s + [c]) == Words(s)
    decreases |s|
  {
    hide IsBlank;
    if s != [] {
      BlankEndHasNoWord(s[1..], c);
      assert (s + [c])[1..] == s[1..] + [c];
    }
  }

  lemma {:induction false} TrimEndKeepsWords(s: string)
    ensures Words(TrimEnd(s)) == Words(s)
    decreases |s|
  {
    hide IsBlank;
    if s != [] && IsBlank(s[|s| - 1]) {
      TrimEndKeepsWords(s[..|s| - 1]);
      BlankEndHasNoWord(s[..|s| - 1], s[|s| - 1]);
      assert s == s[..|s| - 1] + [s[|s| - 1]];
    }
  }

  lemma WordsStep(s: string)
    requires |s| > 1
    ensures var rest := Words(s[1..]);
      && (IsBlank(s[0]) ==> Words(s) == rest)
      && (!IsBlank(s[0]) && !IsBlank(s[1]) ==> rest != [] && Words(s) == [[s[0]] + rest[0]] + rest[1..])
      && (!IsBlank(s[0]) && IsBlank(s[1]) ==> Words(s) == [[s[0]]] + rest)
  {
    hide IsBlank;
  }

  lemma CollapseStep(s: string)
    requires |s| > 1
    ensures var rest := Collapse(s[1..], IsBlank);
      && (!IsBlank(s[0]) ==> Collapse(s, IsBlank) == [s[0]] + rest)
      && (IsBlank(s[0]) && IsBlank(s[1]) ==> Collapse(s, IsBlank) == rest)
      && (IsBlank(s[0]) && !IsBlank(s[1]) ==> Collapse(s, IsBlank) == " " + rest)
  {
    hide IsBlank;
  }

  lemma OneWord(s: string)
    requires |s| == 1 && !IsBlank(s[0])
    ensures Words(s) == [s] && Collapse(s, IsBlank) == s && Join([s], ' ') == s
  {
    hide IsBlank;
    assert s[1..] == [] && Collapse(s[1..], IsBlank) == [];
    assert Words(s) == [[s[0]]] && s == [s[0]];
  }

  lemma JoinFirst(word: string, rest: seq<string>)
    requires rest != []
    ensures Join([word] + rest, ' ') == word + (" " + Join(rest, ' '))
  {
    assert ([word] + rest)[1..] == rest;
  }

  /** Up to a leading space, collapsed text is its words with single spaces between them. */
  lemma {:induction false} CollapsedIsItsWords(s: string)
    requires s != [] && !IsBlank(s[|s| - 1])
    ensures Words(s) != []
    ensures Collapse(s, IsBlank) == (if IsBlank(s[0]) then " " else "") + Join(Words(s), ' ')
    decreases |s|
  {
    hide IsBlank, Words, Collapse, Join;
    if |s| == 1 {
      OneWord(s);
    } else {
      CollapsedIsItsWords(s[1..]);
      WordsStep(s);
      CollapseStep(s);
      var rest := Words(s[1..]);
      if !IsBlank(s[0]) {
        if !IsBlank(s[1]) { JoinLonger(s[0], rest); } else { JoinFirst([s[0]], rest); }
      }
    }
  }

  lemma JoinLonger(c: char, words: seq<string>)
    requires words != []
    ensures Join([[c] + words[0]] + words[1..], ' ') == [c] + Join(words, ' ')
  {
    assert ([[c] + words[0]] + words[1..])[1..] == words[1..];
    if |words| > 1 {
      assert ([c] + words[0]) + [' '] + Join(words[1..], ' ') == [c] + (words[0] + [' '] + Join(words[1..], ' '));
    }
  }

  /** Normalisation keeps every word of the input, in order, and nothing else. */
  lemma NormalisedIsItsWords(input: string)
    requires Valid(input)
    ensures Words(input) != [] && Normalised(input) == Join(Words(input), ' ')
  {
    TrimStartKeepsWords(input);
    TrimEndKeepsWords(TrimStart(input));
    TrimIsTrimmed(input);
    CollapsedIsItsWords(Trim(input));
    hide Collapse, Words;
  }

  // ---------------------------------------------------------------- the whole layout

  /** Every character has a glyph and is not an emoji. */
  predicate AllSupported(supported: char -> bool, s: string) {
    forall k :: 0 <= k < |s| ==> supported(s[k])
  }

  function Normalised(input: string): string {
    Collapse(Trim(input), IsBlank)
  }

  /** The normalised slogan on at most two lines that fit, at the largest size where any such break
      exists; it is refused as too long only if there is none at the smallest size. Invalid input is
      refused first, then characters that are not supported. */
  method SloganLayout(m: Metrics, supported: char -> bool, input: string) returns (r: Result)
    ensures r.InvalidSlogan? <==> !Valid(input)
    ensures r.UnsupportedCharacters? <==> Valid(input) && !AllSupported(supported, Normalised(input))
    ensures r.Layout? ==>
      && r.fontSize in SIZES && 1 <= |r.lines| <= 2
      && r.slogan == Normalised(input) == Join(r.lines, ' ')
      && forall k :: 0 <= k < |r.lines| ==> Fits(m, r.fontSize, r.lines[k])
    ensures GrowsWithWords(m) && Valid(input) && AllSupported(supported, Normalised(input)) ==>
      (r.TooLong? <==> !TwoLines(m, 48, Split(Normalised(input), ' ')))
    ensures GrowsWithWords(m) && r.Layout? ==>
      forall size :: size in SIZES && size > r.fontSize ==> !TwoLines(m, size, Split(Normalised(input), ' '))
  {
    hide Fits, GrowsWithWords, TwoLines, Collapse, Trim;
    if !Valid(input) { return InvalidSlogan; }
    if !AllSupported(supported, Normalised(input)) { return UnsupportedCharacters; }
    TrimIsTrimmed(input);
    CollapsedIsNormal(Trim(input), IsBlank);
    r := LargestSize(m, Normalised(input));
  }
}
