/** Wrapping of help text to a number of columns (util/str.c, sc_str_wrap_lines). */
module LineWrap {
  import opened Optional
  import opened SequenceFacts

  predicate IsSeparator(c: char) { c == ' ' || c == '\n' }

  function Blank(n: nat): string { seq(n, _ => ' ') }

  /** What starts a new output line. */
  function NewLine(indent: nat): string { "\n" + Blank(indent) }

  /** The index of the first separator of `s` from `from` on, or the end. */
  function NextSeparator(s: string, from: nat): (index: nat)
    requires from <= |s|
    ensures from <= index <= |s|
    ensures forall i | from <= i < index :: !IsSeparator(s[i])
    ensures index < |s| ==> IsSeparator(s[index])
    decreases |s| - from
  {
    if from == |s| || IsSeparator(s[from]) then from else NextSeparator(s, from + 1)
  }

  // ---- what an output keeps of its input

  function Piece(c: char, breaks: bool, indent: nat): string
  {
    if c == '\n' || (c == ' ' && breaks) then NewLine(indent) else [c]
  }

  /** `s` where the spaces marked in `breaks` become new lines and newlines are followed by the
      indentation; nothing else changes. */
  function Rewrite(s: string, breaks: seq<bool>, indent: nat): string
    requires |breaks| == |s|
  {
    if s == [] then [] else
      var n := |s| - 1;
      Rewrite(s[..n], breaks[..n], indent) + Piece(s[n], breaks[n], indent)
  }

  /** An output starts with the indentation, followed by a new line before an over-long first word,
      then rewrites the input; a separator at the end of the input is kept as is. A space becomes a
      new line exactly when the word after it would not fit. */
  ghost predicate IsWrapping(input: string, output: string, columns: nat, indent: nat)
  {
    exists breaks, early ::
      && |breaks| == |input| && output == Wrapped(input, breaks, early, indent)
      && Greedy(input, breaks, early, |input| - 1, columns, indent)
      && early == (indent + NextSeparator(input, 0) > columns)
  }

  /** The current column before the character at `i`. */
  ghost function ColumnAt(input: string, breaks: seq<bool>, early: bool, i: nat, indent: nat): nat
    requires i <= |breaks| <= |input|
  {
    |Lines(Lead(early, indent) + Rewrite(input[..i], breaks[..i], indent)).open|
  }

  /** Before `limit`, the marked spaces are those followed by a word that does not fit. */
  ghost predicate Greedy(input: string, breaks: seq<bool>, early: bool, limit: int, columns: nat, indent: nat)
    requires |breaks| <= |input|
  {
    forall i | 0 <= i < |breaks| && i < limit && input[i] == ' ' ::
      breaks[i] == (ColumnAt(input, breaks, early, i, indent) + 1 + (NextSeparator(input, i + 1) - (i + 1)) > columns)
  }

  function Wrapped(input: string, breaks: seq<bool>, early: bool, indent: nat): string
    requires |breaks| == |input|
  {
    var lead := Lead(early, indent);
    if input != [] && IsSeparator(input[|input| - 1])
    then var n := |input| - 1; lead + Rewrite(input[..n], breaks[..n], indent) + [input[n]]
    else lead + Rewrite(input, breaks, indent)
  }

  function Lead(early: bool, indent: nat): string
  {
    if early then Blank(indent) + NewLine(indent) else Blank(indent)
  }

  /** A text cut at separators: the pieces closed by one, and the last, open one. */
  datatype Cut = Cut(closed: seq<string>, open: string)

  function AddToWords(w: Cut, c: char): Cut
  {
    if !IsSeparator(c) then Cut(w.closed, w.open + [c])
    else Cut(if w.open == [] then w.closed else w.closed + [w.open], [])
  }

  /** The words of a text: its maximal runs without separator. */
  function Words(s: string): Cut
  {
    if s == [] then Cut([], []) else AddToWords(Words(s[..|s| - 1]), s[|s| - 1])
  }

  function AddToLines(l: Cut, c: char): Cut
  {
    if c == '\n' then Cut(l.closed + [l.open], []) else Cut(l.closed, l.open + [c])
  }

  function Lines(s: string): Cut
  {
    if s == [] then Cut([], []) else AddToLines(Lines(s[..|s| - 1]), s[|s| - 1])
  }

  /** How many newlines come before each word, since the previous one, and after the last. */
  datatype Gaps = Gaps(before: seq<nat>, after: nat)

  function AddToGaps(g: Gaps, inWord: bool, c: char): Gaps
  {
    if c == '\n' then Gaps(g.before, g.after + 1)
    else if c == ' ' || inWord then g
    else Gaps(g.before + [g.after], 0)
  }

  function GapsOf(s: string): Gaps
  {
    if s == [] then Gaps([], 0)
    else AddToGaps(GapsOf(s[..|s| - 1]), Words(s[..|s| - 1]).open != [], s[|s| - 1])
  }

  /** Between any two words, `g` has at least the newlines of `h`. */
  predicate AtLeast(g: Gaps, h: Gaps)
  {
    |g.before| == |h.before| && g.after >= h.after && forall k | 0 <= k < |h.before| :: g.before[k] >= h.before[k]
  }

  /** A line fits, or it is the indentation followed by one word. */
  predicate LineOk(line: string, columns: nat, indent: nat)
  {
    || |line| <= columns
    || (Blank(indent) <= line && forall i | indent <= i < |line| :: !IsSeparator(line[i]))
  }

  predicate CutOk(l: Cut, columns: nat, indent: nat)
  {
    LineOk(l.open, columns, indent) && forall i | 0 <= i < |l.closed| :: LineOk(l.closed[i], columns, indent)
  }

  predicate LinesOk(s: string, columns: nat, indent: nat) { CutOk(Lines(s), columns, indent) }

  // ---- appended text

  lemma AppendChar(t: string, c: char)
    ensures Lines(t + [c]) == AddToLines(Lines(t), c)
    ensures Words(t + [c]) == AddToWords(Words(t), c)
    ensures GapsOf(t + [c]) == AddToGaps(GapsOf(t), Words(t).open != [], c)
  {
    assert (t + [c])[..|t|] == t;
  }

  lemma {:induction false} AppendWord(t: string, w: string)
    requires forall i | 0 <= i < |w| :: !IsSeparator(w[i])
    ensures Lines(t + w) == Cut(Lines(t).closed, Lines(t).open + w)
  {
    if w == [] {
      assert t + w == t;
    } else {
      var n := |w| - 1;
      AppendWord(t, w[..n]);
      AppendChar(t + w[..n], w[n]);
      SnocWord(t, w);
      SnocWord(Lines(t).open, w);
    }
  }

  lemma {:induction false} AppendBlank(t: string, n: nat)
    ensures Lines(t + Blank(n)) == Cut(Lines(t).closed, Lines(t).open + Blank(n))
  {
    if n == 0 {
      assert t + Blank(n) == t && Lines(t).open + Blank(n) == Lines(t).open;
    } else {
      AppendBlank(t, n - 1);
      AppendChar(t + Blank(n - 1), ' ');
      OneMoreBlank(t, n);
      OneMoreBlank(Lines(t).open, n);
    }
  }

  lemma OneMoreBlank(t: string, n: nat)
    requires n > 0
    ensures t + Blank(n) == (t + Blank(n - 1)) + [' ']
  {
    assert Blank(n) == Blank(n - 1) + [' '];
  }

  lemma {:induction false} AppendBlankWords(t: string, n: nat)
    ensures Words(t).open == [] ==> Words(t + Blank(n)) == Words(t)
    ensures GapsOf(t + Blank(n)) == GapsOf(t)
  {
    if n == 0 {
      assert t + Blank(n) == t;
    } else {
      AppendBlankWords(t, n - 1);
      AppendChar(t + Blank(n - 1), ' ');
      OneMoreBlank(t, n);
    }
  }

  /** A new line closes the current line, and the current word like any separator. */
  lemma AppendNewLine(t: string, indent: nat)
    ensures Lines(t + NewLine(indent)) == Cut(Lines(t).closed + [Lines(t).open], Blank(indent))
  {
    var u := t + ['\n'];
    AppendChar(t, '\n');
    AppendBlank(u, indent);
    SplitNewLine(t, indent);
    assert [] + Blank(indent) == Blank(indent);
  }

  lemma SplitNewLine(t: string, indent: nat)
    ensures t + NewLine(indent) == (t + ['\n']) + Blank(indent)
  {
  }

  lemma AppendNewLineWords(t: string, indent: nat)
    ensures Words(t + NewLine(indent)) == AddToWords(Words(t), '\n')
    ensures GapsOf(t + NewLine(indent)) == Gaps(GapsOf(t).before, GapsOf(t).after + 1)
  {
    var u := t + ['\n'];
    AppendChar(t, '\n');
    AppendBlankWords(u, indent);
    SplitNewLine(t, indent);
  }

  lemma RewriteChar(s: string, breaks: seq<bool>, c: char, x: bool, indent: nat)
    requires |breaks| == |s|
    ensures Rewrite(s + [c], breaks + [x], indent) == Rewrite(s, breaks, indent) + Piece(c, x, indent)
  {
    assert (s + [c])[..|s|] == s && (breaks + [x])[..|s|] == breaks;
  }

  function NoBreaks(n: nat): seq<bool> { seq(n, _ => false) }

  lemma OneMoreMark(breaks: seq<bool>, n: nat)
    ensures breaks + NoBreaks(n + 1) == (breaks + NoBreaks(n)) + [false]
  {
    assert NoBreaks(n + 1) == NoBreaks(n) + [false];
  }

  lemma {:induction false} RewriteWord(s: string, breaks: seq<bool>, w: string, indent: nat)
    requires |breaks| == |s| && forall i | 0 <= i < |w| :: !IsSeparator(w[i])
    ensures Rewrite(s + w, breaks + NoBreaks(|w|), indent) == Rewrite(s, breaks, indent) + w
  {
    var r := Rewrite(s, breaks, indent);
    if w == [] {
      assert s + w == s && breaks + NoBreaks(0) == breaks && r + w == r;
    } else {
      var n := |w| - 1;
      RewriteWord(s, breaks, w[..n], indent);
      RewriteChar(s + w[..n], breaks + NoBreaks(n), w[n], false, indent);
      SnocWord(s, w);
      SnocWord(r, w);
      OneMoreMark(breaks, n);
    }
  }

  lemma SnocWord(s: string, w: string)
    requires w != []
    ensures s + w == (s + w[..|w| - 1]) + [w[|w| - 1]]
  {
  }

  // ---- the algorithm: one separator, one word at a time

  /** What is written before a word, in place of the pending separator. */
  function Separation(pending: Option<char>, wrap: bool, indent: nat): string
  {
    if wrap || pending == Some('\n') then NewLine(indent)
    else match pending case None => [] case Some(c) => [c]
  }

  /** The output so far rewrites the input up to the pending separator. */
  ghost predicate TextInv(input: string, pos: nat, pending: Option<char>, breaks: seq<bool>, early: bool,
                          output: string, indent: nat)
  {
    && |breaks| <= pos <= |input|
    && output == Lead(early, indent) + Rewrite(input[..|breaks|], breaks, indent)
    && match pending
       case None => |breaks| == pos && (pos > 0 ==> !IsSeparator(input[pos - 1]) && pos == |input|)
                    && (pos == 0 ==> !early)
       case Some(c) => |breaks| == pos - 1 && input[pos - 1] == c && IsSeparator(c)
  }

  ghost predicate LineInv(output: string, col: nat, columns: nat, indent: nat)
  {
    && indent < columns && indent <= col == |Lines(output).open|
    && LinesOk(output, columns, indent)
  }

  lemma SeparatorStep(input: string, pos: nat, pending: Option<char>, breaks: seq<bool>, early: bool,
                      wrap: bool, indent: nat)
    requires pos <= |input| && (pending.None? ==> breaks == [] && pos == 0 && !early)
    requires pending.Some? ==> |breaks| == pos - 1 && input[pos - 1] == pending.value && IsSeparator(pending.value)
    ensures var marks := if pending.None? then breaks else breaks + [wrap];
            Lead(early, indent) + Rewrite(input[..|breaks|], breaks, indent) + Separation(pending, wrap, indent)
            == Lead(early || (pending.None? && wrap), indent) + Rewrite(input[..pos], marks, indent)
  {
    if pending.Some? {
      RewriteChar(input[..pos - 1], breaks, pending.value, wrap, indent);
      assert input[..pos - 1] + [pending.value] == input[..pos];
      Assoc(Lead(early, indent), Rewrite(input[..|breaks|], breaks, indent), Separation(pending, wrap, indent));
    } else {
      Nothing(Lead(early, indent));
      Nothing(Lead(true, indent));
    }
  }

  lemma TextStep(input: string, pos: nat, pending: Option<char>, breaks: seq<bool>, early: bool,
                 output: string, wrap: bool, end: nat, indent: nat)
      returns (marks: seq<bool>, early': bool)
    requires TextInv(input, pos, pending, breaks, early, output, indent)
    requires pos < |input| && pos <= end <= |input|
    requires forall i | pos <= i < end :: !IsSeparator(input[i])
    ensures |marks| == end && early' == (early || (pending.None? && wrap))
    ensures marks == (if pending.None? then breaks else breaks + [wrap]) + NoBreaks(end - pos)
    ensures output + Separation(pending, wrap, indent) + input[pos..end]
         == Lead(early', indent) + Rewrite(input[..end], marks, indent)
  {
    early' := early || (pending.None? && wrap);
    marks := if pending.None? then breaks else breaks + [wrap];
    SeparatorStep(input, pos, pending, breaks, early, wrap, indent);
    WordStep(input, pos, end, marks, Lead(early', indent), indent);
    marks := marks + NoBreaks(end - pos);
  }

  lemma TextNext(input: string, end: nat, breaks: seq<bool>, early: bool, output: string, indent: nat)
    requires end <= |input| && |breaks| == end
    requires if end < |input| then IsSeparator(input[end]) else end > 0 && !IsSeparator(input[end - 1])
    requires output == Lead(early, indent) + Rewrite(input[..end], breaks, indent)
    ensures TextInv(input, if end < |input| then end + 1 else end,
                    if end < |input| then Some(input[end]) else None, breaks, early, output, indent)
  {
  }

  lemma WordStep(input: string, pos: nat, end: nat, marks: seq<bool>, lead: string, indent: nat)
    requires pos <= end <= |input| && |marks| == pos
    requires forall i | pos <= i < end :: !IsSeparator(input[i])
    ensures (lead + Rewrite(input[..pos], marks, indent)) + input[pos..end]
         == lead + Rewrite(input[..end], marks + NoBreaks(end - pos), indent)
  {
    var (word, body) := (input[pos..end], Rewrite(input[..pos], marks, indent));
    RewriteWord(input[..pos], marks, word, indent);
    assert input[..pos] + word == input[..end];
    Assoc(lead, body, word);
  }

  lemma LineStep(output: string, pending: Option<char>, word: string, col: nat, columns: nat, indent: nat)
    requires LineInv(output, col, columns, indent)
    requires forall i | 0 <= i < |word| :: !IsSeparator(word[i])
    requires pending.Some? ==> IsSeparator(pending.value)
    ensures var newCol := col + |word| + if pending == Some(' ') then 1 else 0;
            var wrap := newCol > columns;
            LineInv(output + Separation(pending, wrap, indent) + word,
                    if wrap || pending == Some('\n') then indent + |word| else newCol, columns, indent)
  {
    var newCol := col + |word| + if pending == Some(' ') then 1 else 0;
    var wrap := newCol > columns;
    var mid := output + Separation(pending, wrap, indent);
    SeparationLines(output, pending, wrap, indent);
    AppendWord(mid, word);
    CutStep(Lines(output), Lines(mid), word, columns, indent, wrap || pending == Some('\n'));
  }

  lemma SeparationLines(output: string, pending: Option<char>, wrap: bool, indent: nat)
    requires pending.Some? ==> IsSeparator(pending.value)
    ensures Lines(output + Separation(pending, wrap, indent)) ==
            if wrap || pending == Some('\n') then Cut(Lines(output).closed + [Lines(output).open], Blank(indent))
            else if pending == Some(' ') then Cut(Lines(output).closed, Lines(output).open + " ")
            else Lines(output)
  {
    if wrap || pending == Some('\n') {
      AppendNewLine(output, indent);
    } else if pending == Some(' ') {
      AppendChar(output, ' ');
    } else {
      assert output + [] == output;
    }
  }

  /** A word appended to a fresh line, or to a line it does not overflow. */
  lemma CutStep(l: Cut, m: Cut, word: string, columns: nat, indent: nat, newLine: bool)
    requires CutOk(l, columns, indent) && forall i | 0 <= i < |word| :: !IsSeparator(word[i])
    requires if newLine then m == Cut(l.closed + [l.open], Blank(indent))
             else m.closed == l.closed && |m.open + word| <= columns
    ensures CutOk(Cut(m.closed, m.open + word), columns, indent)
  {
  }

  /** One more word keeps the marks of the spaces before, and marks its own if it did not fit. */
  lemma GreedyStep(input: string, pos: nat, pending: Option<char>, breaks: seq<bool>, early: bool, early': bool,
                   output: string, col: nat, wrap: bool, end: nat, columns: nat, indent: nat)
    requires TextInv(input, pos, pending, breaks, early, output, indent) && pos < |input|
    requires Greedy(input, breaks, early, |input|, columns, indent) && (pending.Some? ==> early' == early)
    requires end == NextSeparator(input, pos) && col == |Lines(output).open|
    requires wrap == (col + (end - pos) + (if pending == Some(' ') then 1 else 0) > columns)
    ensures var marks := (if pending.None? then breaks else breaks + [wrap]) + NoBreaks(end - pos);
            |marks| == end && Greedy(input, marks, early', |input|, columns, indent)
  {
    var marks := (if pending.None? then breaks else breaks + [wrap]) + NoBreaks(end - pos);
    forall i | 0 <= i < |marks| && input[i] == ' '
      ensures marks[i] == (ColumnAt(input, marks, early', i, indent) + 1 + (NextSeparator(input, i + 1) - (i + 1)) > columns)
    {
      assert i < pos;
      assert marks[..i] == breaks[..i];
      if i == |breaks| {
        assert breaks[..i] == breaks;
      } else {
        assert ColumnAt(input, marks, early, i, indent) == ColumnAt(input, breaks, early, i, indent);
      }
    }
  }

  method WriteSeparation(before: string, col: nat, pending: Option<char>, wrap: bool, indent: nat)
      returns (output: string, newCol: nat)
    requires pending.Some? ==> IsSeparator(pending.value)
    ensures output == before + Separation(pending, wrap, indent)
    ensures newCol == if wrap || pending == Some('\n') then indent
                      else if pending == Some(' ') then col + 1 else col
  {
    output, newCol := before, col;
    if wrap {
      output := output + NewLine(indent);
      newCol := indent;
    } else if pending.Some? {
      output := output + [pending.value];
      newCol := newCol + 1;
      if pending == Some('\n') {
        output := output + Blank(indent);
        newCol := indent;
      }
    }
  }

  /** What a turn of the loop keeps. */
  ghost predicate LoopInv(input: string, pos: nat, pending: Option<char>, breaks: seq<bool>, early: bool,
                          output: string, col: nat, columns: nat, indent: nat)
  {
    && TextInv(input, pos, pending, breaks, early, output, indent) && LineInv(output, col, columns, indent)
    && Greedy(input, breaks, early, |input|, columns, indent)
    && (pos == 0 ==> col == indent)
    && (pos > 0 || input == [] ==> early == (indent + NextSeparator(input, 0) > columns))
  }

  /** One turn of the loop: the separator before a token, then the token. */
  lemma TokenStep(input: string, pos: nat, pending: Option<char>, breaks: seq<bool>, early: bool,
                  before: string, col: nat, end: nat, wrap: bool, columns: nat, indent: nat)
      returns (marks: seq<bool>, early': bool)
    requires pos < |input| && LoopInv(input, pos, pending, breaks, early, before, col, columns, indent)
    requires end == NextSeparator(input, pos)
    requires wrap == (col + (end - pos) + (if pending == Some(' ') then 1 else 0) > columns)
    ensures LoopInv(input, if end < |input| then end + 1 else end,
                    if end < |input| then Some(input[end]) else None, marks, early',
                    before + Separation(pending, wrap, indent) + input[pos..end],
                    if wrap || pending == Some('\n') then indent + (end - pos)
                    else col + (end - pos) + (if pending == Some(' ') then 1 else 0), columns, indent)
  {
    LineStep(before, pending, input[pos..end], col, columns, indent);
    marks, early' := TextStep(input, pos, pending, breaks, early, before, wrap, end, indent);
    GreedyStep(input, pos, pending, breaks, early, early', before, col, wrap, end, columns, indent);
    TextNext(input, end, marks, early', before + Separation(pending, wrap, indent) + input[pos..end], indent);
  }

  method WrapToken(input: string, pos: nat, pending: Option<char>, before: string, col: nat,
                   ghost breaks: seq<bool>, ghost early: bool, columns: nat, indent: nat)
      returns (next: nat, sep: Option<char>, output: string, newCol: nat, ghost breaks': seq<bool>, ghost early': bool)
    requires pos < |input| && LoopInv(input, pos, pending, breaks, early, before, col, columns, indent)
    ensures pos < next <= |input| && LoopInv(input, next, sep, breaks', early', output, newCol, columns, indent)
  {
    var end := NextSeparator(input, pos);
    newCol := col + (end - pos);
    if pending == Some(' ') {
      // the pending space counts
      newCol := newCol + 1;
    }
    var wrap := newCol > columns;
    breaks', early' := TokenStep(input, pos, pending, breaks, early, before, col, end, wrap, columns, indent);
    output, newCol := WriteSeparation(before, col, pending, wrap, indent);
    output := output + input[pos..end];
    newCol := newCol + (end - pos);
    sep := if end < |input| then Some(input[end]) else None;
    next := if end < |input| then end + 1 else end;
  }

  lemma LoopStarts(input: string, columns: nat, indent: nat)
    requires indent < columns
    ensures LoopInv(input, 0, None, [], false, Blank(indent), indent, columns, indent)
  {
    AppendBlank([], indent);
    Nothing(Blank(indent));
    assert Lines([]) == Cut([], []);
  }

  method WrapLines(input: string, columns: nat, indent: nat) returns (output: string)
    requires indent < columns
    ensures IsWrapping(input, output, columns, indent)
    ensures input == [] || input[|input| - 1] != ' ' ==> LinesOk(output, columns, indent)
    ensures input != [] && input[|input| - 1] == ' ' ==>
              output != [] && LinesOk(output[..|output| - 1], columns, indent)
  {
    output := Blank(indent);
    var pending: Option<char> := None;
    var col: nat := indent;
    var pos := 0;
    ghost var breaks, early := [], false;
    LoopStarts(input, columns, indent);
    while pos < |input|
      invariant pos <= |input| && LoopInv(input, pos, pending, breaks, early, output, col, columns, indent)
    {
      pos, pending, output, col, breaks, early :=
        WrapToken(input, pos, pending, output, col, breaks, early, columns, indent);
    }
    FinalSeparator(input, pending, breaks, early, output, columns, col, indent);
    if pending.Some? {
      output := output + [pending.value];
    }
  }

  lemma WrappedPending(input: string, c: char, breaks: seq<bool>, early: bool, output: string, columns: nat, indent: nat)
    requires TextInv(input, |input|, Some(c), breaks, early, output, indent)
    requires Greedy(input, breaks, early, |input|, columns, indent)
    requires early == (indent + NextSeparator(input, 0) > columns)
    ensures IsWrapping(input, output + [c], columns, indent)
  {
    var marks := breaks + [false];
    assert marks[..|breaks|] == breaks;
    GreedyEnd(input, breaks, early, columns, indent);
    assert output + [c] == Wrapped(input, marks, early, indent);
  }

  lemma WrappedWhole(input: string, breaks: seq<bool>, early: bool, output: string, columns: nat, indent: nat)
    requires TextInv(input, |input|, None, breaks, early, output, indent)
    requires Greedy(input, breaks, early, |input|, columns, indent)
    requires early == (indent + NextSeparator(input, 0) > columns)
    ensures IsWrapping(input, output, columns, indent)
  {
    assert input[..|input|] == input;
    assert output == Wrapped(input, breaks, early, indent);
  }

  lemma FinalSeparator(input: string, pending: Option<char>, breaks: seq<bool>, early: bool, output: string,
                       columns: nat, col: nat, indent: nat)
    requires LoopInv(input, |input|, pending, breaks, early, output, col, columns, indent)
    ensures var final := match pending case None => output case Some(c) => output + [c];
            && IsWrapping(input, final, columns, indent)
            && (input == [] || input[|input| - 1] != ' ' ==> LinesOk(final, columns, indent))
            && (input != [] && input[|input| - 1] == ' ' ==> final != [] && final[..|final| - 1] == output)
  {
    match pending
    case None => WrappedWhole(input, breaks, early, output, columns, indent);
    case Some(c) =>
      WrappedPending(input, c, breaks, early, output, columns, indent);
      FinalLines(output, c, columns, indent);
  }

  lemma GreedyEnd(input: string, breaks: seq<bool>, early: bool, columns: nat, indent: nat)
    requires |breaks| + 1 == |input| && Greedy(input, breaks, early, |input|, columns, indent)
    ensures Greedy(input, breaks + [false], early, |input| - 1, columns, indent)
  {
    var marks := breaks + [false];
    forall i | 0 <= i < |breaks| && input[i] == ' '
      ensures marks[i] == (ColumnAt(input, marks, early, i, indent) + 1 + (NextSeparator(input, i + 1) - (i + 1)) > columns)
    {
      assert marks[..i] == breaks[..i];
      assert ColumnAt(input, marks, early, i, indent) == ColumnAt(input, breaks, early, i, indent);
    }
  }

  lemma FinalLines(output: string, c: char, columns: nat, indent: nat)
    requires LinesOk(output, columns, indent) && IsSeparator(c)
    ensures c == '\n' ==> LinesOk(output + [c], columns, indent)
    ensures (output + [c])[..|output|] == output
  {
    AppendChar(output, c);
  }

  // ---- what any wrapping keeps

  /** `t` has the words of `s`, and between any two of them at least its newlines. */
  predicate Keeps(t: string, s: string) { Words(t) == Words(s) && AtLeast(GapsOf(t), GapsOf(s)) }

  lemma CharKeeps(t: string, s: string, c: char)
    requires Keeps(t, s)
    ensures Keeps(t + [c], s + [c])
  {
    AppendChar(s, c);
    AppendChar(t, c);
    GapsKeep(GapsOf(t), GapsOf(s), Words(s).open != [], c);
  }

  lemma GapsKeep(g: Gaps, h: Gaps, inWord: bool, c: char)
    requires AtLeast(g, h)
    ensures AtLeast(AddToGaps(g, inWord, c), AddToGaps(h, inWord, c))
  {
  }

  lemma PieceKeeps(t: string, s: string, c: char, breaks: bool, indent: nat)
    requires Keeps(t, s)
    ensures Keeps(t + Piece(c, breaks, indent), s + [c])
  {
    if Piece(c, breaks, indent) == NewLine(indent) {
      AppendChar(s, c);
      AppendNewLineWords(t, indent);
    } else {
      CharKeeps(t, s, c);
    }
  }

  lemma {:induction false} RewriteKeeps(s: string, breaks: seq<bool>, indent: nat)
    requires |breaks| == |s|
    ensures Keeps(Rewrite(s, breaks, indent), s)
  {
    if s != [] {
      var n := |s| - 1;
      RewriteKeeps(s[..n], breaks[..n], indent);
      PieceKeeps(Rewrite(s[..n], breaks[..n], indent), s[..n], s[n], breaks[n], indent);
      assert s == s[..n] + [s[n]];
    }
  }

  lemma {:induction false} LeadKeeps(lead: string, t: string)
    requires Words(lead) == Cut([], []) && GapsOf(lead).before == []
    ensures Keeps(lead + t, t)
  {
    if t == [] {
      assert lead + t == lead;
    } else {
      var (u, c) := (t[..|t| - 1], t[|t| - 1]);
      LeadKeeps(lead, u);
      CharKeeps(lead + u, u, c);
      assert lead + t == (lead + u) + [c] && t == u + [c];
    }
  }

  lemma LeadIsBlank(early: bool, indent: nat)
    ensures Words(Lead(early, indent)) == Cut([], []) && GapsOf(Lead(early, indent)).before == []
  {
    AppendBlankWords([], indent);
    assert [] + Blank(indent) == Blank(indent);
    AppendNewLineWords(Blank(indent), indent);
  }

  lemma KeepsThrough(t: string, u: string, s: string)
    requires Keeps(t, u) && Keeps(u, s)
    ensures Keeps(t, s)
  {
  }

  lemma WrappedKeeps(s: string, breaks: seq<bool>, early: bool, indent: nat)
    requires |breaks| == |s|
    ensures Keeps(Lead(early, indent) + Rewrite(s, breaks, indent), s)
  {
    LeadIsBlank(early, indent);
    LeadKeeps(Lead(early, indent), Rewrite(s, breaks, indent));
    RewriteKeeps(s, breaks, indent);
    KeepsThrough(Lead(early, indent) + Rewrite(s, breaks, indent), Rewrite(s, breaks, indent), s);
  }

  /** The words of the input are kept in order, and every explicit newline stays between the same
      two words. */
  lemma WrappingKeepsText(input: string, output: string, columns: nat, indent: nat)
    requires IsWrapping(input, output, columns, indent)
    ensures Words(output) == Words(input) && AtLeast(GapsOf(output), GapsOf(input))
  {
    var breaks, early :|
      && |breaks| == |input| && output == Wrapped(input, breaks, early, indent)
      && Greedy(input, breaks, early, |input| - 1, columns, indent)
      && early == (indent + NextSeparator(input, 0) > columns);
    TextKept(input, breaks, early, indent);
  }

  lemma TextKept(input: string, breaks: seq<bool>, early: bool, indent: nat)
    requires |breaks| == |input|
    ensures Keeps(Wrapped(input, breaks, early, indent), input)
  {
    if input != [] && IsSeparator(input[|input| - 1]) {
      var n := |input| - 1;
      var (s, t) := (input[..n], Lead(early, indent) + Rewrite(input[..n], breaks[..n], indent));
      WrappedKeeps(s, breaks[..n], early, indent);
      CharKeeps(t, s, input[n]);
      assert input == s + [input[n]] && Wrapped(input, breaks, early, indent) == t + [input[n]];
    } else {
      WrappedKeeps(input, breaks, early, indent);
    }
  }

  // ---- the wrapping is determined

  lemma SameMark(input: string, breaks: seq<bool>, breaks': seq<bool>, early: bool, i: nat,
                 limit: int, columns: nat, indent: nat)
    requires |breaks| == |breaks'| == |input| && i < |input| && i < limit
    requires Greedy(input, breaks, early, limit, columns, indent)
    requires Greedy(input, breaks', early, limit, columns, indent)
    requires Rewrite(input[..i], breaks[..i], indent) == Rewrite(input[..i], breaks'[..i], indent)
    ensures Piece(input[i], breaks[i], indent) == Piece(input[i], breaks'[i], indent)
  {
    if input[i] == ' ' {
      assert ColumnAt(input, breaks, early, i, indent) == ColumnAt(input, breaks', early, i, indent);
      assert breaks[i] == breaks'[i];
    }
  }

  lemma PrefixMore(s: string, breaks: seq<bool>, n: nat, indent: nat)
    requires |breaks| == |s| && n < |s|
    ensures Rewrite(s[..n + 1], breaks[..n + 1], indent)
         == Rewrite(s[..n], breaks[..n], indent) + Piece(s[n], breaks[n], indent)
  {
    assert s[..n + 1][..n] == s[..n] && breaks[..n + 1][..n] == breaks[..n];
  }

  /** The marks of the spaces, and so the text, are determined from left to right. */
  lemma {:induction false} SameRewrite(input: string, breaks: seq<bool>, breaks': seq<bool>, early: bool, n: nat,
                                       limit: int, columns: nat, indent: nat)
    requires |breaks| == |breaks'| == |input| && n <= |input| && n <= limit
    requires Greedy(input, breaks, early, limit, columns, indent)
    requires Greedy(input, breaks', early, limit, columns, indent)
    ensures Rewrite(input[..n], breaks[..n], indent) == Rewrite(input[..n], breaks'[..n], indent)
  {
    if n > 0 {
      var m := n - 1;
      SameRewrite(input, breaks, breaks', early, m, limit, columns, indent);
      SameMark(input, breaks, breaks', early, m, limit, columns, indent);
      PrefixMore(input, breaks, m, indent);
      PrefixMore(input, breaks', m, indent);
    }
  }

  /** An input that ends inside a word has no mark at its end. */
  lemma LastMark(input: string, breaks: seq<bool>, early: bool, columns: nat, indent: nat)
    requires |breaks| == |input| && Greedy(input, breaks, early, |input| - 1, columns, indent)
    requires input != [] ==> input[|input| - 1] != ' '
    ensures Greedy(input, breaks, early, |input|, columns, indent)
  {
  }

  /** So there is exactly one wrapping of an input. */
  lemma WrappingUnique(input: string, output: string, other: string, columns: nat, indent: nat)
    requires IsWrapping(input, output, columns, indent) && IsWrapping(input, other, columns, indent)
    ensures output == other
  {
    var breaks, early :|
      && |breaks| == |input| && output == Wrapped(input, breaks, early, indent)
      && Greedy(input, breaks, early, |input| - 1, columns, indent)
      && early == (indent + NextSeparator(input, 0) > columns);
    var breaks', early' :|
      && |breaks'| == |input| && other == Wrapped(input, breaks', early', indent)
      && Greedy(input, breaks', early', |input| - 1, columns, indent)
      && early' == (indent + NextSeparator(input, 0) > columns);
    SameText(input, breaks, breaks', early, columns, indent);
  }

  lemma SameText(input: string, breaks: seq<bool>, breaks': seq<bool>, early: bool, columns: nat, indent: nat)
    requires |breaks| == |breaks'| == |input|
    requires Greedy(input, breaks, early, |input| - 1, columns, indent)
    requires Greedy(input, breaks', early, |input| - 1, columns, indent)
    ensures Wrapped(input, breaks, early, indent) == Wrapped(input, breaks', early, indent)
  {
    if input != [] && IsSeparator(input[|input| - 1]) {
      SameRewrite(input, breaks, breaks', early, |input| - 1, |input| - 1, columns, indent);
    } else {
      LastMark(input, breaks, early, columns, indent);
      LastMark(input, breaks', early, columns, indent);
      SameRewrite(input, breaks, breaks', early, |input|, |input|, columns, indent);
      assert input[..|input|] == input && breaks[..|input|] == breaks && breaks'[..|input|] == breaks';
    }
  }
}
