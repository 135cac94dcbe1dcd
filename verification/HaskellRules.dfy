/**
  What the layout lexer inserts, read off the source: where blocks open and at which column, and
  what the first lexeme of a line gets in front of it.
 */
module HaskellRules {
  import opened HaskellLayout
  import opened HaskellProofs
  import opened HaskellRuns

  // ---------------------------------------------------------------------------
  // One lexeme on the fields
  // ---------------------------------------------------------------------------

  /** Line ends and spaces, at which nothing is inserted. */
  predicate Gap(k: Kind) {
    k.Newline? || k.Ws?
  }

  /** Lexemes that a new line does not separate from the one before. */
  predicate Unbroken(k: Kind) {
    k.Where? || k.In? || k.Do? || k.Mdo? || k.Of? || k.Lcase? || k.Rec? || k.CCurly?
  }

  /** The lexeme opens a block on its keyword's line. */
  predicate Inline(h: State, t: Lexeme) {
    h.prevWasKeyWord && !t.kind.OCurly? && !h.prevWasEndl
  }

  /** It opens a block on a deeper line. */
  predicate Deeper(h: State, t: Lexeme) {
    h.prevWasKeyWord && !t.kind.OCurly? && h.prevWasEndl && h.indentCount > SavedIndent(h)
  }

  predicate Ignored(h: State, t: Lexeme) {
    (h.ignoreIndent || t.kind.OCurly?) && !LayoutKeyword(t.kind) && !t.kind.CCurly?
  }

  /** It starts a line that is not right of the innermost column. */
  predicate Breaks(h: State, t: Lexeme) {
    h.pendingDent && h.prevWasEndl && !Ignored(h, t) && !t.kind.OCurly? && !Unbroken(t.kind)
    && h.indentCount <= SavedIndent(h)
  }

  /** How many contexts the line leaves open. */
  function Left(h: State, t: Lexeme): (n: nat)
    ensures n <= |h.stack|
  {
    if Breaks(h, t) then Kept(h.stack, h.indentCount) else |h.stack|
  }

  /** The contexts once the lexeme's blocks are opened and closed. */
  function Contexts(h: State, t: Lexeme): seq<Context> {
    if Inline(h, t) then h.stack + [Context(h.lastKeyWord, t.column)]
    else if Deeper(h, t) then h.stack + [Context(h.lastKeyWord, h.indentCount)]
    else h.stack[..Left(h, t)]
  }

  /** What a line that is not right of the innermost column ends: all blocks but those of the contexts left. */
  function LineEnd(h: State, t: Lexeme): seq<Token>
    requires h.nestedLevel >= |h.stack|
  {
    if !Breaks(h, t) then []
    else
      Closers(h.nestedLevel - Left(h, t))
      + if SavedIndent(h.(stack := h.stack[..Left(h, t)])) == h.indentCount then [SEMI] else []
  }

  /** A lexeme that is no gap finds these conditions outside of a header. */
  ghost predicate Plainly(h: State, t: Lexeme) {
    && Inv(h) && h.queue == [] && !h.moduleStartIndent && !Gap(t.kind) && !t.kind.EndOfFile?
    && (t.kind.Tab? ==> !Inline(h, t))
  }

  /** The fields before keywords are looked at. */
  ghost function Arranged(h: State, t: Lexeme): State
    requires Plainly(h, t)
  {
    h.(inPragmas := h.inPragmas && !t.kind.ClosePragma?,
       nestedLevel := if Breaks(h, t) then Left(h, t) else if t.kind.OCurly? && h.prevWasKeyWord then h.nestedLevel - 1 else h.nestedLevel,
       prevWasKeyWord := false,
       ignoreIndent := Ignored(h, t),
       prevWasEndl := h.prevWasEndl && !t.kind.OCurly? && !Breaks(h, t) && !Deeper(h, t),
       pendingDent := h.pendingDent && !(Breaks(h, t) && h.indentCount == h.startIndent),
       stack := Contexts(h, t),
       queue := (if h.prevWasKeyWord && !t.kind.OCurly? then [VOCURLY] else []) + LineEnd(h, t))
  }

  /** The fields when the dedent test is reached. */
  lemma BeforeArranged(h: State, t: Lexeme)
    requires Plainly(h, t)
    ensures var d := BeforeDedent(h, t);
            var empty := h.prevWasKeyWord && !t.kind.OCurly? && !Inline(h, t) && !Deeper(h, t);
            d == h.(inPragmas := h.inPragmas && !t.kind.ClosePragma?,
                    nestedLevel := if t.kind.OCurly? && h.prevWasKeyWord then h.nestedLevel - 1 else h.nestedLevel,
                    prevWasKeyWord := Deeper(h, t),
                    ignoreIndent := Ignored(h, t),
                    prevWasEndl := h.prevWasEndl && !t.kind.OCurly?,
                    stack := if Inline(h, t) then h.stack + [Context(h.lastKeyWord, t.column)] else h.stack,
                    queue := if Inline(h, t) || empty then [VOCURLY] else [])
  {
    var b := ExplicitBrace(h, t);
    assert b == h.(inPragmas := h.inPragmas && !t.kind.ClosePragma?,
                   nestedLevel := if t.kind.OCurly? && h.prevWasKeyWord then h.nestedLevel - 1 else h.nestedLevel,
                   prevWasKeyWord := h.prevWasKeyWord && !t.kind.OCurly?,
                   ignoreIndent := h.ignoreIndent || t.kind.OCurly?, prevWasEndl := h.prevWasEndl && !t.kind.OCurly?);
    var i := OpenInline(b, t);
    assert i == b.(prevWasKeyWord := b.prevWasKeyWord && b.prevWasEndl,
                   stack := if Inline(h, t) then h.stack + [Context(h.lastKeyWord, t.column)] else h.stack,
                   queue := if Inline(h, t) then [VOCURLY] else []);
    var g := StopIgnoring(i, t);
    assert g == i.(ignoreIndent := Ignored(h, t));
  }

  lemma BreaksIsDedent(h: State, t: Lexeme)
    requires Plainly(h, t)
    ensures var d := BeforeDedent(h, t);
            && (DedentRuns(d, t) <==> Breaks(h, t))
            && (Breaks(h, t) ==> !d.prevWasKeyWord && d.stack == h.stack && d.nestedLevel == h.nestedLevel && d.indentCount == h.indentCount)
  {
    BeforeArranged(h, t);
    hide BeforeDedent, Inv;
  }

  lemma ArrangedIs(h: State, t: Lexeme)
    requires Plainly(h, t)
    requires var d := BeforeDedent(h, t); DedentRuns(d, t) ==> Closable(d, d.indentCount)
    ensures var d := BeforeDedent(h, t);
            OpenIndented(if DedentRuns(d, t) then Dedent(d) else d, t) == Arranged(h, t)
  {
    BeforeArranged(h, t);
    BreaksIsDedent(h, t);
    var d := BeforeDedent(h, t);
    hide BeforeDedent, DedentRuns, Closers, Closable, CloseBlocks;
    if Breaks(h, t) {
      CloseBlocksIs(d, d.indentCount);
      BrokenIs(h, t, d);
    } else {
      assert h.stack[..|h.stack|] == h.stack;
      assert d.prevWasKeyWord ==> h.pendingDent && !h.ignoreIndent;
    }
  }

  lemma DedentIs(d: State)
    requires d.nestedLevel >= |d.stack| && Closable(d, d.indentCount)
    ensures var n := Kept(d.stack, d.indentCount);
            var separator := if SavedIndent(d.(stack := d.stack[..n])) == d.indentCount then [SEMI] else [];
            Dedent(d) == d.(nestedLevel := n, stack := d.stack[..n], queue := d.queue + (Closers(d.nestedLevel - n) + separator),
                            prevWasEndl := false, pendingDent := d.pendingDent && d.indentCount != d.startIndent)
  {
    hide Closers, Closable, Kept;
    var n := Kept(d.stack, d.indentCount);
    CloseBlocksIs(d, d.indentCount);
    hide CloseBlocks;
    var closed := d.queue + Closers(d.nestedLevel - n);
    assert closed + [SEMI] == d.queue + (Closers(d.nestedLevel - n) + [SEMI]);
    assert closed == d.queue + (Closers(d.nestedLevel - n) + []);
  }

  lemma BrokenIs(h: State, t: Lexeme, d: State)
    requires Plainly(h, t) && Breaks(h, t) && d == BeforeDedent(h, t)
    requires Closable(d, d.indentCount)
    ensures OpenIndented(Dedent(d), t) == Arranged(h, t)
  {
    BeforeArranged(h, t);
    BreaksOnly(h, t);
    hide BeforeDedent, DedentRuns, Closers, Breaks, Inline, Deeper, Inv, Closable, Kept, Ignored, Dedent, OpenIndented, Left, SavedIndent;
    DedentIs(d);
    NotOpened(Dedent(d), t);
    SavedSame(h, d, Left(h, t));
    LineEndIs(h, t);
    hide LineEnd;
  }

  lemma SavedSame(h: State, d: State, n: nat)
    requires d.stack == h.stack && d.startIndent == h.startIndent && n <= |h.stack|
    ensures SavedIndent(d.(stack := d.stack[..n])) == SavedIndent(h.(stack := h.stack[..n]))
  {
  }

  lemma LineEndIs(h: State, t: Lexeme)
    requires h.nestedLevel >= |h.stack| && Breaks(h, t)
    ensures LineEnd(h, t) == Closers(h.nestedLevel - Left(h, t))
                             + if SavedIndent(h.(stack := h.stack[..Left(h, t)])) == h.indentCount then [SEMI] else []
  {
    hide Breaks, Closers, Left, SavedIndent;
  }

  lemma NotOpened(s: State, t: Lexeme)
    requires !s.prevWasKeyWord
    ensures OpenIndented(s, t) == s
  {
  }

  lemma BreaksOnly(h: State, t: Lexeme)
    requires Breaks(h, t)
    ensures !Inline(h, t) && !Deeper(h, t) && h.pendingDent && h.prevWasEndl && !t.kind.OCurly?
    ensures Left(h, t) == Kept(h.stack, h.indentCount)
  {
  }

  /** `where` ends a `do` block, and `in` all blocks down to the nearest `let`: how many contexts are left. */
  function Ended(stack: seq<Context>, k: Kind): (n: nat)
    ensures n <= |stack|
  {
    if k.In? then KeptByIn(stack)
    else if k.Where? && stack != [] && stack[|stack| - 1].keyword in {"do", "mdo"} then |stack| - 1
    else |stack|
  }

  /** The tokens handed out, from those put in front of the lexeme: a hidden lexeme goes ahead of them. */
  function Placed(front: seq<Token>, token: Token): seq<Token> {
    if token.hidden then [token] + front else front + [token]
  }

  /** The fields after the lexeme is handed over. */
  ghost function Handed(h: State, t: Lexeme, hidden: bool): State
    requires Plainly(h, t)
  {
    var m := Arranged(h, t);
    var left := Ended(m.stack, t.kind);
    m.(queue := [], stack := m.stack[..left],
       pendingDent := m.pendingDent || !hidden,
       prevWasKeyWord := LayoutKeyword(t.kind),
       prevWasEndl := m.prevWasEndl && !LayoutKeyword(t.kind),
       lastKeyWord := if LayoutKeyword(t.kind) then t.text else m.lastKeyWord,
       nestedLevel := if t.kind.In? then m.nestedLevel - (|m.stack| - left)
                      else if LayoutKeyword(t.kind) && left == |m.stack| then m.nestedLevel + 1 else m.nestedLevel)
  }

  lemma HandedOver(h: State, t: Lexeme, hidden: bool)
    requires Plainly(h, t) && !OpensModuleBody(h, t) && Proceed(h, t, hidden).Running?
    requires hidden ==> !LayoutKeyword(t.kind) && !t.kind.In?
    ensures var m := Arranged(h, t);
            Proceed(h, t, hidden)
            == Running(Handed(h, t, hidden),
                       Placed(m.queue + Closers(|m.stack| - Ended(m.stack, t.kind)), Token(t.kind, t.text, hidden)))
  {
    hide Keyword, Deliver, Proceed, Plainly, Arranged, OpensModuleBody, Closers, Ended;
    ProceedIs(h, t, hidden);
    PlainlyArranged(h, t);
    Delivered(Arranged(h, t), t, hidden);
  }

  lemma ProceedIs(h: State, t: Lexeme, hidden: bool)
    requires Plainly(h, t) && !OpensModuleBody(h, t) && Proceed(h, t, hidden).Running?
    ensures Proceed(h, t, hidden) == Deliver(Keyword(Arranged(h, t), t), t, hidden)
  {
    hide Keyword, Deliver, BeforeDedent, Dedent, Closable, DedentRuns, OpensModuleBody, OpenIndented, Arranged;
    SettledHere(h, t, hidden);
    ArrangedIs(h, t);
  }

  lemma SettledHere(h: State, t: Lexeme, hidden: bool)
    requires !OpensModuleBody(h, t) && Proceed(h, t, hidden).Running?
    ensures var d := BeforeDedent(h, t); DedentRuns(d, t) ==> Closable(d, d.indentCount)
  {
    hide BeforeDedent, DedentRuns, Closable, OpensModuleBody, HandOver, Deliver;
  }

  lemma PlainlyArranged(h: State, t: Lexeme)
    requires Plainly(h, t)
    ensures !Arranged(h, t).prevWasKeyWord && !t.kind.EndOfFile? && !t.kind.Newline?
  {
  }

  lemma Delivered(m: State, t: Lexeme, hidden: bool)
    requires !m.prevWasKeyWord && !t.kind.EndOfFile? && !t.kind.Newline? && (hidden ==> !LayoutKeyword(t.kind) && !t.kind.In?)
    ensures var left := Ended(m.stack, t.kind);
            Deliver(Keyword(m, t), t, hidden)
            == Running(m.(queue := [], stack := m.stack[..left],
                          pendingDent := m.pendingDent || !hidden,
                          prevWasKeyWord := LayoutKeyword(t.kind),
                          prevWasEndl := m.prevWasEndl && !LayoutKeyword(t.kind),
                          lastKeyWord := if LayoutKeyword(t.kind) then t.text else m.lastKeyWord,
                          nestedLevel := if t.kind.In? then m.nestedLevel - (|m.stack| - left)
                                         else if LayoutKeyword(t.kind) && left == |m.stack| then m.nestedLevel + 1 else m.nestedLevel),
                       Placed(m.queue + Closers(|m.stack| - left), Token(t.kind, t.text, hidden)))
  {
    KeywordEnds(m, t);
    hide Keyword, Closers, KeptByIn;
    NoClosers(m);
  }

  lemma NoClosers(m: State)
    ensures m.queue + Closers(0) == m.queue && m.stack[..|m.stack|] == m.stack
  {
  }

  lemma KeywordEnds(m: State, t: Lexeme)
    requires !m.prevWasKeyWord
    ensures var left := if t.kind.In? then |m.stack| else Ended(m.stack, t.kind);
            Keyword(m, t) == m.(prevWasKeyWord := LayoutKeyword(t.kind), prevWasEndl := t.kind.Newline? || (m.prevWasEndl && !LayoutKeyword(t.kind)),
                                lastKeyWord := if LayoutKeyword(t.kind) then t.text else m.lastKeyWord,
                                nestedLevel := if LayoutKeyword(t.kind) && left == |m.stack| then m.nestedLevel + 1 else m.nestedLevel,
                                stack := m.stack[..left], queue := m.queue + Closers(|m.stack| - left))
  {
    assert Closers(1) == Closers(0) + [SEMI, VCCURLY] && Closers(0) == [];
    assert m.queue + [] == m.queue && m.stack[..|m.stack|] == m.stack;
    assert [] + [SEMI, VCCURLY] == [SEMI, VCCURLY];
    hide Closers;
  }

  // ---------------------------------------------------------------------------
  // Reading the source
  // ---------------------------------------------------------------------------

  /** The blanks since the last line end, a tab counting eight. */
  function Width(source: seq<Lexeme>): nat {
    if source == [] then 0
    else
      var before, t := source[..|source| - 1], source[|source| - 1];
      if t.kind.Newline? then 0
      else Width(before) + if t.kind.Tab? then 8 * |t.text| else if t.kind.Ws? then |t.text| else 0
  }

  /** The first lexeme after `module ... where`: it opens the module's body, and is read as nothing else. */
  predicate OpensBody(before: seq<Lexeme>, t: Lexeme) {
    && StartColumn(before) == -1 && !Blank(t.kind) && !t.kind.OCurly?
    && (HeaderOpen(before) || t.kind.Module?) && LastKeyword(before) == "where"
  }

  /** Only line ends and spaces follow the last layout keyword. */
  predicate Waiting(source: seq<Lexeme>) {
    source != [] &&
    var before, t := source[..|source| - 1], source[|source| - 1];
    if Gap(t.kind) then Waiting(before) else Awaits(t.kind) && !OpensBody(before, t)
  }

  /** The lexemes that a block follows. */
  predicate Awaits(k: Kind) {
    k.Where? || k.Let? || k.Do? || k.Mdo? || k.Of? || k.Lcase? || k.Rec?
  }

  /** Inside explicit braces, until a layout keyword or a closing brace. */
  predicate Ignoring(source: seq<Lexeme>) {
    source != [] &&
    var before, t := source[..|source| - 1], source[|source| - 1];
    if t.kind.OCurly? then true
    else if OpensBody(before, t) then Ignoring(before)
    else Ignoring(before) && !LayoutKeyword(t.kind) && !t.kind.CCurly?
  }

  /**
    Since the last line end there are only spaces, and tabs that stay right of the innermost column.
    A tab that does not is read like any other lexeme, and so ends the start of the line.
   */
  ghost predicate LineStart(source: seq<Lexeme>)
    decreases |source|, 0
  {
    source != [] &&
    var before, t := source[..|source| - 1], source[|source| - 1];
    || (t.kind.Newline? && Steady(before))
    || (t.kind.Ws? && LineStart(before))
    || (t.kind.Tab? && LineStart(before) && StartColumn(before) != -1 && !Waiting(before)
        && (Ignoring(before)
            || (Layout(before).Running? && Width(source) > SavedIndent(Layout(before).state))))
  }

  /** Before any blanks stands a visible lexeme: indentation is being counted. */
  ghost predicate Steady(source: seq<Lexeme>)
    decreases |source|, 1
  {
    source == [] ||
    var before, t := source[..|source| - 1], source[|source| - 1];
    if Gap(t.kind) then Steady(before) else if t.kind.Tab? then LineStart(source) else !Marker(t.kind)
  }

  /** No `in` and no closing brace since the last line end. */
  ghost predicate Calm(source: seq<Lexeme>) {
    source == [] ||
    var before, t := source[..|source| - 1], source[|source| - 1];
    if t.kind.Newline? then Steady(before) else !t.kind.In? && !t.kind.CCurly? && Calm(before)
  }

  /** What the fields know of the source. */
  ghost predicate Told(s: State, source: seq<Lexeme>) {
    && StartKnown(s, source) && s.ignoreIndent == Ignoring(source)
    && (s.startIndent == -1 ==> s.pendingDent)
    && (!s.moduleStartIndent ==>
          && s.prevWasKeyWord == Waiting(source)
          && (Waiting(source) ==> s.lastKeyWord == LastKeyword(source) && (!LineStart(source) ==> !s.prevWasEndl)))
    && (LineStart(source) ==> s.prevWasEndl && Steady(source) && s.indentCount == Width(source))
    && (Waiting(source) ==> Steady(source)) && (Steady(source) ==> s.pendingDent)
    && (s.startIndent != -1 && Calm(source) && !LineStart(source) && s.prevWasEndl && !s.ignoreIndent
        ==> s.pendingDent && s.indentCount > SavedIndent(s))
  }

  /** How the readings change with one lexeme. */
  lemma Reads(source: seq<Lexeme>, t: Lexeme)
    ensures var all, gap := source + [t], Gap(t.kind);
            && Width(all) == (if t.kind.Newline? then 0
                              else Width(source) + if t.kind.Tab? then 8 * |t.text| else if t.kind.Ws? then |t.text| else 0)
            && (Waiting(all) <==> if gap then Waiting(source) else LayoutKeyword(t.kind) && !OpensBody(source, t))
            && (Ignoring(all) <==> if t.kind.OCurly? then true else if OpensBody(source, t) then Ignoring(source)
                                   else Ignoring(source) && !LayoutKeyword(t.kind) && !t.kind.CCurly?)
            && (LineStart(all) <==>
                  || (t.kind.Newline? && Steady(source)) || (t.kind.Ws? && LineStart(source))
                  || (t.kind.Tab? && LineStart(source) && StartColumn(source) != -1 && !Waiting(source)
                      && (Ignoring(source) || (Layout(source).Running? && Width(all) > SavedIndent(Layout(source).state)))))
            && (Steady(all) <==> if gap then Steady(source) else if t.kind.Tab? then LineStart(all) else !Marker(t.kind))
            && (Calm(all) <==> if t.kind.Newline? then Steady(source) else !t.kind.In? && !t.kind.CCurly? && Calm(source))
  {
    hide OpensBody, Layout;
    assert (source + [t])[..|source|] == source;
  }

  lemma GapStep(s: State, t: Lexeme)
    requires s.queue == [] && Gap(t.kind)
    ensures Step(s, t) == Running(Scan(s, t).(prevWasEndl := s.prevWasEndl || t.kind.Newline?),
                                  [Token(t.kind, t.text, t.kind.Ws? || s.pendingDent)])
  {
    var h := Scan(s, t);
    assert Header(h, t) == h && !OpensModuleBody(h, t);
    GapPasses(h, t);
    hide BeforeDedent, DedentRuns, OpenIndented, Header, OpensModuleBody, Closable;
    var e := h.(prevWasEndl := h.prevWasEndl || t.kind.Newline?);
    assert Keyword(h, t) == e;
    hide Keyword;
    assert HandOver(h, t) == e;
    assert Deliver(e, t, Hidden(s, t)) == Running(e, [Token(t.kind, t.text, Hidden(s, t))] + []);
  }

  lemma GapPasses(h: State, t: Lexeme)
    requires Gap(t.kind)
    ensures BeforeDedent(h, t) == h && !DedentRuns(h, t) && OpenIndented(h, t) == h
  {
    assert ExplicitBrace(h, t) == h && OpenInline(h, t) == h;
    assert StopIgnoring(h, t) == h && OpenEmpty(h, t) == h;
  }

  lemma GapTold(s: State, source: seq<Lexeme>, t: Lexeme)
    requires Told(s, source) && s.queue == [] && Gap(t.kind)
    ensures Told(Step(s, t).state, source + [t])
  {
    GapStep(s, t);
    Reads(source, t);
    StartStep(s, source, t);
    HeaderStarts(s, source, t);
    SourceFlags(source, t);
    hide Step, LineStart, Steady, Calm, Waiting, Ignoring, Width, StartColumn, HeaderOpen, LastKeyword, PragmaOpen;
  }

  /** The fields when `module` and start column are settled. */
  lemma HeaderTells(s: State, source: seq<Lexeme>, t: Lexeme)
    requires Told(s, source) && Inv(s) && s.queue == [] && !Gap(t.kind)
    ensures var h := Header(Scan(s, t), t);
            && (OpensModuleBody(h, t) <==> OpensBody(source, t))
            && h == s.(indentCount := h.indentCount, inPragmas := h.inPragmas, moduleStartIndent := h.moduleStartIndent,
                       wasModuleExport := h.wasModuleExport, startIndent := h.startIndent)
            && h.indentCount == s.indentCount + (if t.kind.Tab? && s.pendingDent then 8 * |t.text| else 0)
            && (s.startIndent != -1 ==> h.startIndent == s.startIndent) && (t.kind.Tab? ==> h.startIndent == s.startIndent)
            && (!h.moduleStartIndent ==> !s.moduleStartIndent)
            && Inv(h) && (t.kind.EndOfFile? || StartColumn(source + [t]) == if OpensModuleBody(h, t) then t.column else h.startIndent)
  {
    HeaderStarts(s, source, t);
    HeaderInv(s, t);
    hide LineStart, Steady, Calm, Waiting, Ignoring, Width, Inv;
    assert (source + [t])[..|source|] == source;
  }

  lemma BodyTold(s: State, source: seq<Lexeme>, t: Lexeme)
    requires Told(s, source) && Inv(s) && s.queue == [] && !Gap(t.kind) && !t.kind.EndOfFile? && OpensBody(source, t)
    ensures Step(s, t).Running? && Told(Step(s, t).state, source + [t])
  {
    HeaderTells(s, source, t);
    StartStep(s, source, t);
    Reads(source, t);
    hide LineStart, Steady, Calm, Waiting, Ignoring, Width, StartColumn, StartKnown, Inv, Header, Scan;
    BodyFields(Header(Scan(s, t), t), t, Hidden(s, t));
    hide Proceed;
  }

  lemma BodyFields(h: State, t: Lexeme, hidden: bool)
    requires OpensModuleBody(h, t)
    ensures Proceed(h, t, hidden).Running?
    ensures var s' := Proceed(h, t, hidden).state;
            && !s'.prevWasKeyWord && !s'.moduleStartIndent && !s'.prevWasEndl && s'.ignoreIndent == h.ignoreIndent
            && s'.pendingDent == h.pendingDent && s'.startIndent == t.column
  {
  }

  lemma PlainTold(s: State, source: seq<Lexeme>, t: Lexeme)
    requires Layout(source).Running? && s == Layout(source).state
    requires Told(s, source) && Inv(s) && s.queue == [] && !OpensBody(source, t) && Step(s, t).Running?
    requires Plainly(Header(Scan(s, t), t), t)
    ensures Told(Step(s, t).state, source + [t])
  {
    var h := Header(Scan(s, t), t);
    HeaderTells(s, source, t);
    StartStep(s, source, t);
    SourceFlags(source, t);
    Reads(source, t);
    HandedOver(h, t, Hidden(s, t));
    PlainFlags(s, source, t, h);
    hide LineStart, Steady, Calm, Waiting, Ignoring, Width, StartColumn, StartKnown, Inv, Header, Scan, Proceed, OpensModuleBody;
  }

  /** The flags after a lexeme that is no gap. */
  lemma PlainFlags(s: State, source: seq<Lexeme>, t: Lexeme, h: State)
    requires Layout(source).Running? && s == Layout(source).state
    requires Told(s, source) && !Gap(t.kind) && h == Header(Scan(s, t), t) && Plainly(h, t) && !OpensBody(source, t)
    requires h == s.(indentCount := h.indentCount, inPragmas := h.inPragmas, moduleStartIndent := h.moduleStartIndent,
                     wasModuleExport := h.wasModuleExport, startIndent := h.startIndent)
    requires h.indentCount == s.indentCount + (if t.kind.Tab? && s.pendingDent then 8 * |t.text| else 0)
    requires s.startIndent != -1 || t.kind.Tab? ==> h.startIndent == s.startIndent
    requires !s.moduleStartIndent && h.indentCount >= 0
    ensures var s', all := Handed(h, t, Hidden(s, t)), source + [t];
            && s'.ignoreIndent == Ignoring(all) && s'.prevWasKeyWord == Waiting(all)
            && (s'.startIndent == -1 ==> s'.pendingDent)
            && (Waiting(all) ==> s'.lastKeyWord == LastKeyword(all) && !s'.prevWasEndl)
            && (LineStart(all) ==> s'.prevWasEndl && Steady(all) && s'.indentCount == Width(all))
            && (Waiting(all) ==> Steady(all)) && (Steady(all) ==> s'.pendingDent)
            && (s'.startIndent != -1 && Calm(all) && !LineStart(all) && s'.prevWasEndl && !s'.ignoreIndent
                ==> s'.pendingDent && s'.indentCount > SavedIndent(s'))
  {
    Reads(source, t);
    SourceFlags(source, t);
    hide LineStart, Steady, Calm, Waiting, Ignoring, Width, StartColumn, StartKnown, Inv, Header, Scan, Layout;
  }

  /** A lexeme of a header. */
  lemma HeaderFlags(h: State, t: Lexeme, hidden: bool)
    requires Inv(h) && h.moduleStartIndent && h.pendingDent && !OpensModuleBody(h, t) && !Gap(t.kind) && !t.kind.EndOfFile?
    requires Proceed(h, t, hidden).Running?
    ensures var s' := Proceed(h, t, hidden).state;
            && s'.ignoreIndent == Ignored(h, t) && s'.pendingDent && s'.moduleStartIndent == !t.kind.OCurly?
            && (t.kind.OCurly? ==> !s'.prevWasKeyWord) && s'.startIndent == -1
  {
    var d := BeforeDedent(h, t);
    BeforeFlags(h, t);
    hide BeforeDedent, DedentRuns, Closable, OpensModuleBody, CloseBlocks;
    AfterFlags(d, t);
  }

  lemma BeforeFlags(h: State, t: Lexeme)
    ensures var d := BeforeDedent(h, t);
            && d.ignoreIndent == Ignored(h, t) && d.pendingDent == h.pendingDent && d.startIndent == h.startIndent
            && d.moduleStartIndent == (h.moduleStartIndent && !t.kind.OCurly?) && (t.kind.OCurly? ==> !d.prevWasKeyWord)
            && d.indentCount == h.indentCount
  {
    var b := ExplicitBrace(h, t);
    var i := OpenInline(b, t);
    assert i == b.(prevWasKeyWord := i.prevWasKeyWord, stack := i.stack, queue := i.queue);
    assert StopIgnoring(i, t) == i.(ignoreIndent := Ignored(h, t));
  }

  lemma AfterFlags(d: State, t: Lexeme)
    requires !Gap(t.kind) && (DedentRuns(d, t) ==> Closable(d, d.indentCount))
    ensures var e := HandOver(d, t);
            && e.ignoreIndent == d.ignoreIndent && e.startIndent == d.startIndent && e.moduleStartIndent == d.moduleStartIndent
            && e.pendingDent == (d.pendingDent && !(DedentRuns(d, t) && d.indentCount == d.startIndent))
            && (t.kind.OCurly? && !d.prevWasKeyWord ==> !e.prevWasKeyWord)
  {
    hide DedentRuns, Closable;
    var s1 := if DedentRuns(d, t) then Dedent(d) else d;
    var s2 := OpenIndented(s1, t);
    assert s2 == s1.(prevWasKeyWord := s2.prevWasKeyWord, stack := s2.stack, prevWasEndl := s2.prevWasEndl, queue := s2.queue);
  }

  /** A tab on the line of a layout keyword opens its block. */
  lemma TabFlags(h: State, t: Lexeme)
    requires Inv(h) && h.queue == [] && !h.moduleStartIndent && t.kind.Tab? && h.prevWasKeyWord && !h.prevWasEndl
    requires !OpensModuleBody(h, t) && Proceed(h, t, true).Running?
    ensures var s' := Proceed(h, t, true).state;
            && !s'.prevWasKeyWord && !s'.prevWasEndl && !s'.ignoreIndent && !s'.moduleStartIndent && s'.startIndent == h.startIndent
            && (h.startIndent == -1 ==> s'.pendingDent)
  {
    var empty := h.indentCount <= SavedIndent(h);
    var d := h.(queue := if empty then [VOCURLY] else [], prevWasKeyWord := !empty, prevWasEndl := empty);
    assert OpenInline(ExplicitBrace(h, t), t) == h && StopIgnoring(h, t) == h;
    assert BeforeDedent(h, t) == d;
    assert DedentRuns(d, t) == empty;
    hide BeforeDedent, DedentRuns, Closable, OpensModuleBody, CloseBlocks;
    var s1 := if empty then Dedent(d) else d;
    assert !OpenIndented(s1, t).prevWasKeyWord && !OpenIndented(s1, t).prevWasEndl;
  }

  lemma OtherTold(s: State, source: seq<Lexeme>, t: Lexeme)
    requires Told(s, source) && Inv(s) && s.queue == [] && !OpensBody(source, t) && Step(s, t).Running?
    requires !Gap(t.kind) && !t.kind.EndOfFile?
    requires var h := Header(Scan(s, t), t); h.moduleStartIndent || (t.kind.Tab? && h.prevWasKeyWord && !h.prevWasEndl)
    ensures Told(Step(s, t).state, source + [t])
  {
    var h := Header(Scan(s, t), t);
    HeaderTells(s, source, t);
    StartStep(s, source, t);
    Reads(source, t);
    hide LineStart, Steady, Calm, Waiting, Ignoring, Width, StartColumn, StartKnown, Header, Scan, Proceed, OpensModuleBody, Layout;
    if h.moduleStartIndent {
      HeaderFlags(h, t, Hidden(s, t));
    } else {
      TabFlags(h, t);
    }
  }

  /** In every orderly run the fields know the source. */
  lemma {:induction false} RunTold(source: seq<Lexeme>)
    requires NoEof(source) && OrderlyRun(source) && Layout(source).Running?
    ensures Told(Layout(source).state, source)
  {
    hide *;
    if source == [] {
      NothingTold(source);
    } else {
      var init, t := source[..|source| - 1], source[|source| - 1];
      assert init + [t] == source;
      OrderlyInit(init, t);
      LayoutInit(init, t);
      RunTold(init);
      RunKeeps(init);
      StepTold(init, t);
    }
  }

  lemma RunKeeps(source: seq<Lexeme>)
    requires NoEof(source) && OrderlyRun(source) && Layout(source).Running?
    ensures Inv(Layout(source).state) && Layout(source).state.queue == []
  {
    hide *;
    RunNeverBelow(source);
  }

  lemma OrderlyInit(init: seq<Lexeme>, t: Lexeme)
    requires NoEof(init + [t]) && OrderlyRun(init + [t])
    ensures NoEof(init) && OrderlyRun(init) && !t.kind.EndOfFile?
  {
    hide Orderly, Header, Scan, Layout;
    var source := init + [t];
    assert source[..|source| - 1] == init && source[|source| - 1] in source;
  }

  lemma NothingTold(source: seq<Lexeme>)
    requires source == []
    ensures Layout(source).Running? && Told(Layout(source).state, source)
  {
  }

  lemma LayoutInit(init: seq<Lexeme>, t: Lexeme)
    requires Layout(init + [t]).Running?
    ensures Layout(init).Running? && Step(Layout(init).state, t).Running? && Layout(init + [t]).state == Step(Layout(init).state, t).state
  {
    hide Step;
    assert (init + [t])[..|init|] == init;
  }

  lemma StepTold(source: seq<Lexeme>, t: Lexeme)
    requires Layout(source).Running? && !t.kind.EndOfFile?
    requires var s := Layout(source).state; Told(s, source) && Inv(s) && s.queue == [] && Step(s, t).Running?
    ensures Told(Step(Layout(source).state, t).state, source + [t])
  {
    var s := Layout(source).state;
    hide Step, Told, OpensBody, Header, Scan, Layout;
    if Gap(t.kind) {
      GapTold(s, source, t);
    } else if OpensBody(source, t) {
      BodyTold(s, source, t);
    } else {
      HeaderTells(s, source, t);
      var h := Header(Scan(s, t), t);
      if h.moduleStartIndent || (t.kind.Tab? && h.prevWasKeyWord && !h.prevWasEndl) {
        OtherTold(s, source, t);
      } else {
        PlainTold(s, source, t);
      }
    }
  }

  // ---------------------------------------------------------------------------
  // The module's own block
  // ---------------------------------------------------------------------------

  /** The body of a module was opened without an explicit brace. */
  predicate BodyOpened(source: seq<Lexeme>) {
    source != [] &&
    var before, t := source[..|source| - 1], source[|source| - 1];
    BodyOpened(before) || OpensBody(before, t)
  }

  ghost predicate BodyTracked(s: State, source: seq<Lexeme>) {
    if s.startIndent == -1 then s.wasModuleExport == s.moduleStartIndent && !BodyOpened(source)
    else !s.moduleStartIndent && s.wasModuleExport == BodyOpened(source)
  }

  lemma BodyStep(s: State, source: seq<Lexeme>, t: Lexeme)
    requires StartKnown(s, source) && BodyTracked(s, source) && !t.kind.EndOfFile? && Step(s, t).Running?
    ensures BodyTracked(Step(s, t).state, source + [t])
  {
    HeaderStarts(s, source, t);
    StartStep(s, source, t);
    assert (source + [t])[..|source|] == source;
    var h := Header(Scan(s, t), t);
    BodyReads(s, source, t);
    HeaderBody(s, t);
    hide Proceed, OpensModuleBody, Header, Scan, StartColumn, OpensBody;
    if OpensModuleBody(h, t) {
      BodyExport(h, t, Hidden(s, t));
    } else {
      ProceedCarries(h, t, Hidden(s, t));
      ProceedExport(h, t, Hidden(s, t));
    }
  }

  lemma BodyReads(s: State, source: seq<Lexeme>, t: Lexeme)
    requires StartKnown(s, source)
    ensures OpensModuleBody(Header(Scan(s, t), t), t) <==> OpensBody(source, t)
  {
  }

  lemma HeaderBody(s: State, t: Lexeme)
    ensures var h := Header(Scan(s, t), t);
            && (h.startIndent == -1 <==> s.startIndent == -1 && !FixesStart(Scan(s, t), t))
            && (h.startIndent != -1 ==> h.moduleStartIndent == s.moduleStartIndent && h.wasModuleExport == s.wasModuleExport)
            && (s.startIndent == -1 && h.startIndent != -1 ==> !s.moduleStartIndent)
            && ((h.moduleStartIndent == s.moduleStartIndent && h.wasModuleExport == s.wasModuleExport)
                || (h.moduleStartIndent && h.wasModuleExport))
  {
  }

  lemma BodyExport(h: State, t: Lexeme, hidden: bool)
    requires OpensModuleBody(h, t)
    ensures Proceed(h, t, hidden).Running?
    ensures var s' := Proceed(h, t, hidden).state;
            s'.startIndent == t.column && !s'.moduleStartIndent && s'.wasModuleExport == h.wasModuleExport && h.startIndent == -1 && h.moduleStartIndent
  {
  }

  lemma ProceedExport(h: State, t: Lexeme, hidden: bool)
    requires !t.kind.EndOfFile? && !OpensModuleBody(h, t) && Proceed(h, t, hidden).Running?
    ensures Proceed(h, t, hidden).state.wasModuleExport == (h.wasModuleExport && !(t.kind.OCurly? && h.moduleStartIndent))
  {
    hide BeforeDedent, DedentRuns, Closable, OpensModuleBody, HandOver, Deliver;
    var d := BeforeDedent(h, t);
    BeforeExport(h, t);
    AfterExport(d, t);
    DeliverExport(HandOver(d, t), t, hidden);
  }

  lemma DeliverExport(e: State, t: Lexeme, hidden: bool)
    requires !t.kind.EndOfFile? && Deliver(e, t, hidden).Running?
    ensures Deliver(e, t, hidden).state.wasModuleExport == e.wasModuleExport
  {
  }

  lemma AfterExport(d: State, t: Lexeme)
    requires DedentRuns(d, t) ==> Closable(d, d.indentCount)
    ensures HandOver(d, t).wasModuleExport == d.wasModuleExport
  {
    hide DedentRuns, Closable;
    var s1 := if DedentRuns(d, t) then Dedent(d) else d;
    var s2 := OpenIndented(s1, t);
    assert s2 == s1.(prevWasKeyWord := s2.prevWasKeyWord, stack := s2.stack, prevWasEndl := s2.prevWasEndl, queue := s2.queue);
  }

  lemma BeforeExport(h: State, t: Lexeme)
    ensures BeforeDedent(h, t).wasModuleExport == (h.wasModuleExport && !(t.kind.OCurly? && h.moduleStartIndent))
  {
    var b := ExplicitBrace(h, t);
    var i := OpenInline(b, t);
    assert i == b.(prevWasKeyWord := i.prevWasKeyWord, stack := i.stack, queue := i.queue);
  }

  /** In every run the fields say whether the module's body was opened. */
  lemma {:induction false} BodyOfRun(source: seq<Lexeme>)
    requires NoEof(source) && Layout(source).Running?
    ensures BodyTracked(Layout(source).state, source)
  {
    hide *;
    if source == [] {
      NothingTracked(source);
    } else {
      var init, t := source[..|source| - 1], source[|source| - 1];
      assert init + [t] == source;
      NoEofBoth(init, t);
      LayoutInit(init, t);
      BodyOfRun(init);
      StartColumnOfRun(init);
      BodyStep(Layout(init).state, init, t);
    }
  }

  lemma NothingTracked(source: seq<Lexeme>)
    requires source == []
    ensures Layout(source).Running? && BodyTracked(Layout(source).state, source)
  {
  }

  lemma NoEofBoth(init: seq<Lexeme>, t: Lexeme)
    requires NoEof(init + [t])
    ensures NoEof(init) && !t.kind.EndOfFile?
  {
    assert (init + [t])[|init|] in init + [t];
  }

  lemma BodyIsImplicit(source: seq<Lexeme>)
    requires NoEof(source) && Layout(source).Running?
    ensures Implicit(Layout(source).state) == if BodyOpened(source) then 1 else 0
  {
    hide Layout, BodyOpened;
    BodyOfRun(source);
  }

  // ---------------------------------------------------------------------------
  // What is inserted
  // ---------------------------------------------------------------------------

  /** The lexeme starts a line that is not right of column `c`, and that a separator may precede. */
  ghost predicate StartsLine(source: seq<Lexeme>, t: Lexeme, c: int) {
    && LineStart(source) && !t.kind.OCurly? && !Unbroken(t.kind) && (Ignoring(source) ==> t.kind.Let?)
    && Width(source + [t]) <= c
  }

  /** The contexts with the block opened, or with those closed that are right of the new line. */
  ghost function NewContexts(source: seq<Lexeme>, t: Lexeme, stack: seq<Context>, c: int): seq<Context> {
    if Waiting(source) && !t.kind.OCurly? && !LineStart(source) then stack + [Context(LastKeyword(source), t.column)]
    else if Waiting(source) && !t.kind.OCurly? && Width(source + [t]) > c then stack + [Context(LastKeyword(source), Width(source + [t]))]
    else if StartsLine(source, t, c) then stack[..Kept(stack, Width(source + [t]))]
    else stack
  }

  /** The ends of `n` blocks, if there are any. */
  function Ends(n: int): seq<Token> {
    if n <= 0 then [] else Ends(n - 1) + [Token(Semi, "SEMI", false), Token(VCCurly, "VCCURLY", false)]
  }

  /** The column of the innermost context, or the start column. */
  function Innermost(stack: seq<Context>, start: int): int {
    if stack == [] then start else stack[|stack| - 1].column
  }

  /**
    What stands in front of the lexeme: the start of the block that waits for it; then, if it starts
    a line that is not right of column `c`, the ends of all `blocks` but those of the contexts left,
    and a separator if it meets the column of one.
   */
  ghost function Front(source: seq<Lexeme>, t: Lexeme, stack: seq<Context>, c: int, blocks: int): seq<Token> {
    var left := NewContexts(source, t, stack, c);
    (if Waiting(source) && !t.kind.OCurly? then [Token(VOCurly, "VOCURLY", false)] else [])
    + if !StartsLine(source, t, c) then []
      else Ends(blocks - |left|) + if Innermost(left, StartColumn(source)) == Width(source + [t]) then [Token(Semi, "SEMI", false)] else []
  }

  /** What is inserted can be read off the source: at the start of a line, after a layout keyword, and inside a line. */
  ghost predicate Readable(source: seq<Lexeme>, t: Lexeme) {
    || LineStart(source)
    || (!t.kind.Tab? && (Waiting(source) || Unbroken(t.kind) || t.kind.OCurly?))
    || (!Waiting(source) && Calm(source) && !(Ignoring(source) && t.kind.Let?))
  }

  /** The blocks that a line can end, `before` being handed out: those open but the module's, and the one that waits. */
  function Blocks(source: seq<Lexeme>, before: seq<Token>): int {
    Depth(before) + (if Waiting(source) then 1 else 0) - (if BodyOpened(source) then 1 else 0)
  }

  /** From the contexts `stack` to `stack'`, with `tokens` handed out. */
  ghost predicate Yields(source: seq<Lexeme>, t: Lexeme, stack: seq<Context>, blocks: int, stack': seq<Context>, tokens: seq<Token>) {
    var c := Innermost(stack, StartColumn(source));
    var contexts := NewContexts(source, t, stack, c);
    var left := Ended(contexts, t.kind);
    && stack' == contexts[..left]
    && tokens == Placed(Front(source, t, stack, c, blocks) + Ends(|contexts| - left),
                        Token(t.kind, t.text, t.kind.Tab? || t.kind.VOCurly? || t.kind.VCCurly? || t.kind.Semi?))
  }

  /**
    Once the start column is set, what one more lexeme causes to be handed out, and which contexts
    are open after it, are functions of the source and of the contexts open before.
   */
  lemma Inserted(source: seq<Lexeme>, t: Lexeme)
    requires NoEof(source) && OrderlyRun(source) && Layout(source + [t]).Running? && StartColumn(source) != -1
    requires !Gap(t.kind) && !t.kind.EndOfFile? && Readable(source, t)
    ensures Layout(source).Running?
    ensures var s, before := Layout(source).state, Layout(source).tokens;
            var Running(s', all) := Layout(source + [t]);
            before <= all && Yields(source, t, s.stack, Blocks(source, before), s'.stack, all[|before|..])
  {
    LayoutInit(source, t);
    var s := Layout(source).state;
    SnocTokens(source, t);
    DepthIsBlocks(source);
    hide *;
    StepInserted(s, source, t);
  }

  lemma SnocTokens(source: seq<Lexeme>, t: Lexeme)
    requires Layout(source).Running? && Layout(source + [t]).Running?
    ensures Layout(source + [t]).tokens == Layout(source).tokens + Step(Layout(source).state, t).tokens
  {
    hide Step;
    LayoutSnoc(source, t);
  }

  lemma DepthIsBlocks(source: seq<Lexeme>)
    requires NoEof(source) && OrderlyRun(source) && Layout(source).Running? && StartColumn(source) != -1
    ensures var s := Layout(source).state;
            && Told(s, source) && Inv(s) && s.queue == []
            && s.nestedLevel == Blocks(source, Layout(source).tokens)
  {
    BodyIsImplicit(source);
    hide Told, Layout, Inv, Depth, Low, Opened, Implicit, StartColumn, Waiting, OrderlyRun, NoEof;
    RunTold(source);
    RunNeverBelow(source);
    BlocksOpen(Layout(source).state, source);
  }

  lemma BlocksOpen(s: State, source: seq<Lexeme>)
    requires Told(s, source) && Inv(s) && StartColumn(source) != -1
    ensures s.nestedLevel == Opened(s) + (if Waiting(source) then 1 else 0) - Implicit(s)
  {
    hide LineStart, Steady, Calm, Waiting, Ignoring, Width, StartColumn;
  }

  lemma StepInserted(s: State, source: seq<Lexeme>, t: Lexeme)
    requires Told(s, source) && Inv(s) && s.queue == [] && Step(s, t).Running? && StartColumn(source) != -1
    requires !Gap(t.kind) && !t.kind.EndOfFile? && Readable(source, t)
    ensures Yields(source, t, s.stack, s.nestedLevel, Step(s, t).state.stack, Step(s, t).tokens)
  {
    HeaderTells(s, source, t);
    var h := Header(Scan(s, t), t);
    NoBody(source, t);
    HiddenAlways(s, t);
    hide Header, Scan, Proceed, OpensModuleBody, OpensBody, Told, Inv, Plainly, Readable, StartColumn, Yields, Hidden;
    FieldsRead(s, source, t, h);
    HandedParts(h, t, t.kind.Tab? || Marker(t.kind));
    YieldsThat(source, t, h.stack, s.nestedLevel, Contexts(h, t), Arranged(h, t).queue, Step(s, t).state.stack, Step(s, t).tokens);
  }

  lemma HiddenAlways(s: State, t: Lexeme)
    requires !Gap(t.kind)
    ensures Hidden(s, t) == (t.kind.Tab? || Marker(t.kind))
  {
  }

  lemma HandedParts(h: State, t: Lexeme, hidden: bool)
    requires Plainly(h, t) && !OpensModuleBody(h, t) && Proceed(h, t, hidden).Running?
    requires hidden ==> !LayoutKeyword(t.kind) && !t.kind.In?
    ensures var left := Ended(Contexts(h, t), t.kind);
            && Proceed(h, t, hidden).state.stack == Contexts(h, t)[..left]
            && Proceed(h, t, hidden).tokens
               == Placed(Arranged(h, t).queue + Closers(|Contexts(h, t)| - left), Token(t.kind, t.text, hidden))
  {
    hide Proceed, OpensModuleBody, Contexts, Ended, Closers, Inv, LineEnd, Breaks, Deeper, Left;
    HandedOver(h, t, hidden);
  }

  lemma YieldsThat(source: seq<Lexeme>, t: Lexeme, stack: seq<Context>, blocks: int,
                   contexts: seq<Context>, front: seq<Token>, stack': seq<Context>, tokens: seq<Token>)
    requires var c := Innermost(stack, StartColumn(source));
             contexts == NewContexts(source, t, stack, c) && front == Front(source, t, stack, c, blocks)
    requires var left := Ended(contexts, t.kind);
             && stack' == contexts[..left]
             && tokens == Placed(front + Closers(|contexts| - left), Token(t.kind, t.text, t.kind.Tab? || Marker(t.kind)))
    ensures Yields(source, t, stack, blocks, stack', tokens)
  {
    hide NewContexts, Front, Ended, Closers, Ends, StartColumn, Placed, Marker, Innermost;
    EndsOf(|contexts| - Ended(contexts, t.kind));
    MarkerKinds(t.kind);
    var token := Token(t.kind, t.text, t.kind.Tab? || t.kind.VOCurly? || t.kind.VCCurly? || t.kind.Semi?);
    assert token == Token(t.kind, t.text, t.kind.Tab? || Marker(t.kind));
    var all := front + Ends(|contexts| - Ended(contexts, t.kind));
    assert tokens == Placed(all, token);
  }

  lemma MarkerKinds(k: Kind)
    ensures Marker(k) <==> k.VOCurly? || k.VCCurly? || k.Semi?
  {
  }

  lemma NoBody(source: seq<Lexeme>, t: Lexeme)
    requires StartColumn(source) != -1
    ensures !OpensBody(source, t)
  {
  }

  /** The conditions on the fields are those on the source. */
  lemma FieldsRead(s: State, source: seq<Lexeme>, t: Lexeme, h: State)
    requires Told(s, source) && Inv(s) && s.queue == [] && StartColumn(source) != -1
    requires !Gap(t.kind) && !t.kind.EndOfFile? && Readable(source, t)
    requires h == s.(indentCount := h.indentCount, inPragmas := h.inPragmas, moduleStartIndent := h.moduleStartIndent,
                     wasModuleExport := h.wasModuleExport, startIndent := s.startIndent)
    requires h.indentCount == s.indentCount + (if t.kind.Tab? && s.pendingDent then 8 * |t.text| else 0) && Inv(h)
    ensures Plainly(h, t)
    ensures var c := Innermost(s.stack, StartColumn(source));
            && Contexts(h, t) == NewContexts(source, t, s.stack, c)
            && Arranged(h, t).queue == Front(source, t, s.stack, c, s.nestedLevel)
  {
    ConditionsRead(s, source, t, h);
    var c := Innermost(s.stack, StartColumn(source));
    ContextsRead(source, t, h, c);
    LineRead(source, t, h, c);
    FrontRead(source, t, h, c);
  }

  lemma ContextsRead(source: seq<Lexeme>, t: Lexeme, h: State, c: int)
    requires Breaks(h, t) <==> StartsLine(source, t, c)
    requires Inline(h, t) <==> Waiting(source) && !t.kind.OCurly? && !LineStart(source)
    requires Deeper(h, t) <==> Waiting(source) && !t.kind.OCurly? && LineStart(source) && Width(source + [t]) > c
    requires Waiting(source) ==> h.lastKeyWord == LastKeyword(source)
    requires LineStart(source) ==> h.indentCount == Width(source + [t])
    ensures Contexts(h, t) == NewContexts(source, t, h.stack, c)
    ensures Breaks(h, t) ==> Contexts(h, t) == h.stack[..Left(h, t)]
  {
    hide Waiting, Width, LineStart, Kept;
    assert h.stack[..|h.stack|] == h.stack;
  }

  lemma FrontRead(source: seq<Lexeme>, t: Lexeme, h: State, c: int)
    requires Plainly(h, t) && h.prevWasKeyWord == Waiting(source)
    requires LineEnd(h, t) == if !StartsLine(source, t, c) then []
             else Ends(h.nestedLevel - |NewContexts(source, t, h.stack, c)|)
                  + if Innermost(NewContexts(source, t, h.stack, c), StartColumn(source)) == Width(source + [t]) then [SEMI] else []
    ensures Arranged(h, t).queue == Front(source, t, h.stack, c, h.nestedLevel)
  {
    hide Waiting, StartsLine, NewContexts, StartColumn, Width, LineEnd, Contexts, Breaks, Left, Deeper, Innermost, Ends;
  }

  lemma LineRead(source: seq<Lexeme>, t: Lexeme, h: State, c: int)
    requires Plainly(h, t) && (Breaks(h, t) <==> StartsLine(source, t, c)) && h.startIndent == StartColumn(source)
    requires LineStart(source) ==> h.indentCount == Width(source + [t])
    requires Contexts(h, t) == NewContexts(source, t, h.stack, c)
    requires Breaks(h, t) ==> Contexts(h, t) == h.stack[..Left(h, t)]
    ensures LineEnd(h, t) == if !StartsLine(source, t, c) then []
            else Ends(h.nestedLevel - |NewContexts(source, t, h.stack, c)|)
                 + if Innermost(NewContexts(source, t, h.stack, c), StartColumn(source)) == Width(source + [t]) then [SEMI] else []
  {
    hide Waiting, NewContexts, StartColumn, Width, Contexts, Breaks, Left, Kept, Ends, Closers, Plainly, LineStart, LineEnd, SavedIndent;
    if Breaks(h, t) {
      PlainLevel(h, t);
      LineEndIs(h, t);
      EndsOf(h.nestedLevel - Left(h, t));
      InnermostIs(h, Left(h, t));
    } else {
      PlainLevel(h, t);
      NoLineEnd(h, t);
    }
  }

  lemma InnermostIs(h: State, n: nat)
    requires n <= |h.stack|
    ensures SavedIndent(h.(stack := h.stack[..n])) == Innermost(h.stack[..n], h.startIndent)
  {
  }

  lemma PlainLevel(h: State, t: Lexeme)
    requires Plainly(h, t)
    ensures h.nestedLevel >= |h.stack|
  {
  }

  lemma NoLineEnd(h: State, t: Lexeme)
    requires h.nestedLevel >= |h.stack| && !Breaks(h, t)
    ensures LineEnd(h, t) == []
  {
  }

  lemma {:induction false} EndsOf(n: nat)
    ensures Ends(n) == Closers(n)
  {
    if n > 0 {
      EndsOf(n - 1);
    }
  }

  lemma ConditionsRead(s: State, source: seq<Lexeme>, t: Lexeme, h: State)
    requires Told(s, source) && Inv(s) && s.queue == [] && StartColumn(source) != -1
    requires !Gap(t.kind) && !t.kind.EndOfFile? && Readable(source, t)
    requires h == s.(indentCount := h.indentCount, inPragmas := h.inPragmas, moduleStartIndent := h.moduleStartIndent,
                     wasModuleExport := h.wasModuleExport, startIndent := s.startIndent)
    requires h.indentCount == s.indentCount + (if t.kind.Tab? && s.pendingDent then 8 * |t.text| else 0) && Inv(h)
    ensures Plainly(h, t) && s.startIndent == StartColumn(source) && s.prevWasKeyWord == Waiting(source)
    ensures var c := Innermost(s.stack, StartColumn(source));
            && SavedIndent(h) == c
            && (Breaks(h, t) <==> StartsLine(source, t, c))
            && (Inline(h, t) <==> Waiting(source) && !t.kind.OCurly? && !LineStart(source))
            && (Deeper(h, t) <==> Waiting(source) && !t.kind.OCurly? && LineStart(source) && Width(source + [t]) > c)
            && (Waiting(source) ==> s.lastKeyWord == LastKeyword(source))
            && (LineStart(source) ==> h.indentCount == Width(source + [t]))
  {
    Reads(source, t);
    hide LineStart, Steady, Calm, Waiting, Ignoring, Width, StartColumn;
  }

  /**
    An ordinary lexeme that starts a line, with no block waiting and no explicit braces: right of the
    innermost column nothing stands in front of it; at or left of it stand the ends of the blocks
    right of it, and a separator if it meets a column.
   */
  lemma NextLine(source: seq<Lexeme>, t: Lexeme)
    requires NoEof(source) && OrderlyRun(source) && Layout(source + [t]).Running? && StartColumn(source) != -1
    requires t.kind.Plain? && LineStart(source) && !Waiting(source) && !Ignoring(source)
    ensures Layout(source).Running?
    ensures var s, before, start := Layout(source).state, Layout(source).tokens, StartColumn(source);
            && before <= Layout(source + [t]).tokens
            && Layout(source + [t]).state.stack == LineContexts(s.stack, Width(source), start)
            && Layout(source + [t]).tokens[|before|..]
               == LineTokens(s.stack, Width(source), start, Blocks(source, before)) + [Token(t.kind, t.text, false)]
  {
    Inserted(source, t);
    Reads(source, t);
    hide *;
    Plain(source, t, Layout(source).state.stack, Blocks(source, Layout(source).tokens),
          Layout(source + [t]).state.stack, Layout(source + [t]).tokens[|Layout(source).tokens|..]);
  }

  /** The contexts on a line of width `w`. */
  function LineContexts(stack: seq<Context>, w: int, start: int): seq<Context> {
    if w > Innermost(stack, start) then stack else stack[..Kept(stack, w)]
  }

  /** What stands in front of a line of width `w`. */
  function LineTokens(stack: seq<Context>, w: int, start: int, blocks: int): seq<Token> {
    if w > Innermost(stack, start) then []
    else
      var left := stack[..Kept(stack, w)];
      Ends(blocks - |left|) + if Innermost(left, start) == w then [SEMI] else []
  }

  lemma Plain(source: seq<Lexeme>, t: Lexeme, stack: seq<Context>, blocks: int, stack': seq<Context>, tokens: seq<Token>)
    requires Yields(source, t, stack, blocks, stack', tokens)
    requires t.kind.Plain? && LineStart(source) && !Waiting(source) && !Ignoring(source) && Width(source + [t]) == Width(source)
    ensures stack' == LineContexts(stack, Width(source), StartColumn(source))
    ensures tokens == LineTokens(stack, Width(source), StartColumn(source), blocks) + [Token(t.kind, t.text, false)]
  {
    PlainFront(source, t, stack, blocks);
    hide LineStart, Waiting, Ignoring, StartColumn, Width, NewContexts, LineContexts, LineTokens, Front;
    NoneEnded(NewContexts(source, t, stack, Innermost(stack, StartColumn(source))), t.kind,
              Front(source, t, stack, Innermost(stack, StartColumn(source)), blocks));
  }

  lemma PlainFront(source: seq<Lexeme>, t: Lexeme, stack: seq<Context>, blocks: int)
    requires t.kind.Plain? && LineStart(source) && !Waiting(source) && !Ignoring(source) && Width(source + [t]) == Width(source)
    ensures var c := Innermost(stack, StartColumn(source));
            && NewContexts(source, t, stack, c) == LineContexts(stack, Width(source), StartColumn(source))
            && Front(source, t, stack, c, blocks) == LineTokens(stack, Width(source), StartColumn(source), blocks)
  {
    hide LineStart, Waiting, Ignoring, StartColumn, Width, Kept, Ends;
    var c := Innermost(stack, StartColumn(source));
    var tokens := LineTokens(stack, Width(source), StartColumn(source), blocks);
    assert StartsLine(source, t, c) <==> Width(source) <= c;
    assert [] + tokens == tokens;
  }

  lemma NoneEnded(contexts: seq<Context>, k: Kind, front: seq<Token>)
    requires k.Plain?
    ensures contexts[..Ended(contexts, k)] == contexts && front + Ends(|contexts| - Ended(contexts, k)) == front
  {
  }

  /** Line ends and spaces are handed out as they are. */
  lemma GapInserted(source: seq<Lexeme>, t: Lexeme)
    requires NoEof(source) && OrderlyRun(source) && Layout(source).Running? && Gap(t.kind)
    ensures Layout(source + [t]).Running? && Layout(source + [t]).state.stack == Layout(source).state.stack
    ensures exists hidden :: Layout(source + [t]).tokens == Layout(source).tokens + [Token(t.kind, t.text, hidden)]
    ensures t.kind.Ws? || Steady(source)
            ==> Layout(source + [t]).tokens == Layout(source).tokens + [Token(t.kind, t.text, true)]
  {
    RunTold(source);
    RunNeverBelow(source);
    hide Layout, Step, OrderlyRun, NoEof, Inv, Depth, Low, LineStart, Steady, Calm, StartKnown;
    GapStep(Layout(source).state, t);
    LayoutSnoc(source, t);
  }

  /** The end of file closes every block but those of contexts not right of the start column, and the module's own. */
  lemma EofInserted(source: seq<Lexeme>, eof: Lexeme)
    requires NoEof(source) && OrderlyRun(source) && Layout(source).Running? && eof.kind.EndOfFile?
    requires StartColumn(source) != -1 && !Waiting(source)
    ensures Layout(source + [eof]).Running? && Layout(source + [eof]).state.startIndent == -1
    ensures var before := Layout(source).tokens;
            Layout(source + [eof]).tokens
            == before + EofTokens(Layout(source).state.stack, StartColumn(source), Blocks(source, before), BodyOpened(source), eof)
  {
    DepthIsBlocks(source);
    var s := Layout(source).state;
    EofFields(s, source);
    hide Layout, OrderlyRun, NoEof, Depth, Inv, Told, Blocks, Waiting, StartColumn, EofTokens, BodyOpened, Step;
    EofSteps(s, eof);
    LayoutSnoc(source, eof);
  }

  /** The last tokens: `own` says that the module has a block of its own. */
  function EofTokens(stack: seq<Context>, start: int, blocks: int, own: bool, eof: Lexeme): seq<Token> {
    var left := stack[..Kept(stack, start)];
    Ends(blocks - |left|)
    + (if Innermost(left, start) == start then [SEMI] else [])
    + (if own then [VCCURLY] else [])
    + [Token(eof.kind, eof.text, false)]
  }

  lemma EofFields(s: State, source: seq<Lexeme>)
    requires NoEof(source) && Layout(source).Running? && s == Layout(source).state && Told(s, source) && StartColumn(source) != -1
    requires Inv(s)
    ensures s.startIndent == StartColumn(source) && !s.moduleStartIndent && s.wasModuleExport == BodyOpened(source)
    ensures s.prevWasKeyWord == Waiting(source)
  {
    BodyOfRun(source);
    hide Layout, LineStart, Steady, Calm, Waiting, Ignoring, Width, StartColumn, BodyOpened;
  }

  lemma EofSteps(s: State, t: Lexeme)
    requires Inv(s) && s.queue == [] && t.kind.EndOfFile? && s.startIndent != -1 && !s.prevWasKeyWord && !s.moduleStartIndent
    ensures Step(s, t).Running? && Step(s, t).state.startIndent == -1
    ensures Step(s, t).tokens == EofTokens(s.stack, s.startIndent, s.nestedLevel, s.wasModuleExport, t)
  {
    assert Header(Scan(s, t), t) == s && BeforeDedent(s, t) == s;
    assert !OpensModuleBody(s, t) && HandOver(s, t) == s;
    EofClosable(s);
    hide Header, Scan, BeforeDedent, HandOver, OpensModuleBody, Closable, ProcessEof, EofTokens;
    EofQueue(s, t);
  }

  lemma EofQueue(s: State, t: Lexeme)
    requires s.queue == [] && s.nestedLevel >= |s.stack| && Closable(s, s.startIndent)
    ensures ProcessEof(s).startIndent == -1
    ensures ProcessEof(s).queue + [Token(t.kind, t.text, false)]
            == EofTokens(s.stack, s.startIndent, s.nestedLevel, s.wasModuleExport, t)
  {
    hide Kept, Closers, Closable;
    CloseBlocksIs(s, s.startIndent);
    EndsOf(s.nestedLevel - Kept(s.stack, s.startIndent));
    hide CloseBlocks;
    var closed := Closers(s.nestedLevel - Kept(s.stack, s.startIndent));
    assert [] + closed == closed && closed + [] == closed && closed + [SEMI] + [] == closed + [SEMI];
  }

  lemma EofClosable(s: State)
    requires Inv(s)
    ensures Closable(s, s.startIndent)
  {
  }

  // ---------------------------------------------------------------------------
  // Where the contexts come from
  // ---------------------------------------------------------------------------

  /** Lexeme `i` opened the block of a layout keyword, and `c` is its context. */
  ghost predicate BlockAt(source: seq<Lexeme>, i: nat, c: Context) {
    && i < |source| && Waiting(source[..i]) && !Gap(source[i].kind) && !source[i].kind.OCurly?
    && c == Context(LastKeyword(source[..i]), if LineStart(source[..i]) then Width(source[..i + 1]) else source[i].column)
  }

  lemma PlainStack(s: State, source: seq<Lexeme>, t: Lexeme)
    requires Told(s, source) && Inv(s) && s.queue == [] && !OpensBody(source, t) && Step(s, t).Running?
    requires Plainly(Header(Scan(s, t), t), t)
    ensures || Step(s, t).state.stack <= s.stack
            || (&& Waiting(source) && !t.kind.OCurly?
                && Step(s, t).state.stack <= s.stack + [Context(LastKeyword(source), if LineStart(source) then Width(source + [t]) else t.column)])
  {
    assert !Gap(t.kind) && !t.kind.EndOfFile?;
    hide Header, Scan, Proceed, OpensModuleBody, Inv, LineStart, Waiting, Width, Ended, Arranged, OpensBody, Told, Contexts, Plainly;
    var h := Header(Scan(s, t), t);
    HeaderTells(s, source, t);
    StartsPlain(s, h, t);
    PushedRead(s, source, t, h);
    HandedParts(h, t, Hidden(s, t));
    PrefixOfEnded(Contexts(h, t), t.kind, s.stack);
  }

  lemma StartsPlain(s: State, h: State, t: Lexeme)
    requires Plainly(h, t) && (!h.moduleStartIndent ==> !s.moduleStartIndent)
    ensures !s.moduleStartIndent
  {
  }

  /** Popping keeps a prefix a prefix. */
  lemma PrefixOfEnded(contexts: seq<Context>, k: Kind, stack: seq<Context>)
    ensures var left := contexts[..Ended(contexts, k)];
            left <= contexts && (contexts <= stack ==> left <= stack)
  {
  }

  lemma PushedRead(s: State, source: seq<Lexeme>, t: Lexeme, h: State)
    requires Told(s, source) && Inv(s) && !s.moduleStartIndent
    requires h == s.(indentCount := h.indentCount, inPragmas := h.inPragmas, moduleStartIndent := h.moduleStartIndent,
                     wasModuleExport := h.wasModuleExport, startIndent := h.startIndent)
    requires h.indentCount == s.indentCount + (if t.kind.Tab? && s.pendingDent then 8 * |t.text| else 0)
    requires Plainly(h, t)
    ensures || Contexts(h, t) <= s.stack
            || (&& Waiting(source) && !t.kind.OCurly?
                && Contexts(h, t) == s.stack + [Context(LastKeyword(source), if LineStart(source) then Width(source + [t]) else t.column)])
  {
    Reads(source, t);
    assert h.stack[..|h.stack|] == h.stack;
    hide LineStart, Steady, Calm, Waiting, Ignoring, Width, StartKnown;
  }

  /** In a header, and at a tab on its keyword's line, no context is pushed. */
  lemma NothingPushed(h: State, t: Lexeme, hidden: bool)
    requires h.moduleStartIndent || (t.kind.Tab? && !h.prevWasEndl && h.prevWasKeyWord && h.pendingDent && !h.ignoreIndent)
    requires !OpensModuleBody(h, t) && !t.kind.EndOfFile? && Proceed(h, t, hidden).Running?
    ensures Proceed(h, t, hidden).state.stack <= h.stack
  {
    hide BeforeDedent, DedentRuns, Closable, OpensModuleBody, HandOver, Deliver;
    var d := BeforeDedent(h, t);
    BeforeNothing(h, t);
    AfterNothing(d, t);
    DeliverNothing(HandOver(d, t), t, hidden);
  }

  lemma DeliverNothing(e: State, t: Lexeme, hidden: bool)
    requires !t.kind.EndOfFile? && Deliver(e, t, hidden).Running?
    ensures Deliver(e, t, hidden).state.stack <= e.stack
  {
    hide Closers;
  }

  lemma BeforeNothing(h: State, t: Lexeme)
    requires h.moduleStartIndent || (t.kind.Tab? && !h.prevWasEndl && h.prevWasKeyWord && h.pendingDent && !h.ignoreIndent)
    ensures var d := BeforeDedent(h, t);
            d.stack == h.stack && (d.moduleStartIndent || !d.prevWasKeyWord || !d.prevWasEndl)
  {
    var b := ExplicitBrace(h, t);
    assert OpenInline(b, t) == b;
  }

  lemma AfterNothing(d: State, t: Lexeme)
    requires (DedentRuns(d, t) ==> Closable(d, d.indentCount)) && (d.moduleStartIndent || !d.prevWasKeyWord || !d.prevWasEndl)
    ensures HandOver(d, t).stack <= d.stack
  {
    hide DedentRuns, Closable;
    var s1 := if DedentRuns(d, t) then Dedent(d) else d;
    assert s1.stack <= d.stack && (s1.moduleStartIndent || !s1.prevWasKeyWord || !s1.prevWasEndl);
    assert OpenIndented(s1, t).stack == s1.stack;
  }

  lemma BodyStack(h: State, t: Lexeme, hidden: bool)
    requires OpensModuleBody(h, t)
    ensures Proceed(h, t, hidden).Running? && Proceed(h, t, hidden).state.stack == h.stack
  {
  }

  /** Every lexeme leaves the contexts below it as they are, and adds at most that of the block it opens. */
  lemma StackStep(s: State, source: seq<Lexeme>, t: Lexeme)
    requires Told(s, source) && Inv(s) && s.queue == [] && Step(s, t).Running? && !t.kind.EndOfFile?
    ensures || Step(s, t).state.stack <= s.stack
            || (&& Waiting(source) && !Gap(t.kind) && !t.kind.OCurly?
                && Step(s, t).state.stack <= s.stack + [Context(LastKeyword(source), if LineStart(source) then Width(source + [t]) else t.column)])
  {
    if Gap(t.kind) {
      GapStep(s, t);
    } else {
      HeaderTells(s, source, t);
      var h := Header(Scan(s, t), t);
      hide Header, Scan, Told, Inv, OpensBody, OpensModuleBody, Proceed, LineStart, Waiting, Width;
      if OpensModuleBody(h, t) {
        BodyStack(h, t, Hidden(s, t));
      } else if h.moduleStartIndent || (t.kind.Tab? && !h.prevWasEndl && h.prevWasKeyWord) {
        assert h.prevWasKeyWord ==> h.pendingDent && !h.ignoreIndent by { KeywordReady(h); }
        NothingPushed(h, t, Hidden(s, t));
      } else {
        PlainlyHere(h, t);
        PlainStack(s, source, t);
      }
    }
  }

  lemma KeywordReady(h: State)
    requires Inv(h)
    ensures h.prevWasKeyWord ==> h.pendingDent && !h.ignoreIndent
  {
  }

  lemma PlainlyHere(h: State, t: Lexeme)
    requires Inv(h) && h.queue == [] && !h.moduleStartIndent && !Gap(t.kind) && !t.kind.EndOfFile?
    requires !(t.kind.Tab? && !h.prevWasEndl && h.prevWasKeyWord)
    ensures Plainly(h, t)
  {
  }

  /**
    In every orderly run each open context belongs to a lexeme that opened the block of the layout
    keyword before it, and its column is the width of that lexeme's line if the lexeme starts one,
    and the lexeme's own column otherwise.
   */
  lemma {:induction false} ContextColumns(source: seq<Lexeme>)
    requires NoEof(source) && OrderlyRun(source) && Layout(source).Running?
    ensures Explained(source, Layout(source).state.stack)
  {
    hide *;
    if source == [] {
      NothingExplained(source);
    } else {
      var init, t := source[..|source| - 1], source[|source| - 1];
      assert init + [t] == source;
      OrderlyInit(init, t);
      LayoutInit(init, t);
      ContextColumns(init);
      ContextsSnoc(init, t);
    }
  }

  lemma NothingExplained(source: seq<Lexeme>)
    requires source == []
    ensures Layout(source).Running? && Explained(source, Layout(source).state.stack)
  {
  }

  ghost predicate Explained(source: seq<Lexeme>, stack: seq<Context>) {
    forall j :: 0 <= j < |stack| ==> Opens(source, stack[j])
  }

  ghost predicate Opens(source: seq<Lexeme>, c: Context) {
    exists i: nat :: BlockAt(source, i, c)
  }

  lemma ContextsSnoc(init: seq<Lexeme>, t: Lexeme)
    requires NoEof(init) && OrderlyRun(init) && Layout(init).Running? && Layout(init + [t]).Running? && !t.kind.EndOfFile?
    requires Explained(init, Layout(init).state.stack)
    ensures Explained(init + [t], Layout(init + [t]).state.stack)
  {
    LayoutInit(init, t);
    RunTold(init);
    RunKeeps(init);
    hide *;
    StackStep(Layout(init).state, init, t);
    ExplainedStep(init, t, Layout(init).state.stack, Layout(init + [t]).state.stack);
  }

  lemma ExplainedStep(init: seq<Lexeme>, t: Lexeme, stack: seq<Context>, stack': seq<Context>)
    requires Explained(init, stack)
    requires || stack' <= stack
             || (&& Waiting(init) && !Gap(t.kind) && !t.kind.OCurly?
                 && stack' <= stack + [Context(LastKeyword(init), if LineStart(init) then Width(init + [t]) else t.column)])
    ensures Explained(init + [t], stack')
  {
    hide BlockAt, Waiting, LineStart, Width, LastKeyword;
    forall j | 0 <= j < |stack'| ensures Opens(init + [t], stack'[j]) {
      if j < |stack| {
        assert stack'[j] == stack[j] && Opens(init, stack[j]);
        var i: nat :| BlockAt(init, i, stack[j]);
        BlockStays(init, t, i, stack[j]);
      } else {
        NewBlock(init, t, stack'[j]);
      }
    }
  }

  lemma BlockStays(init: seq<Lexeme>, t: Lexeme, i: nat, c: Context)
    requires BlockAt(init, i, c)
    ensures BlockAt(init + [t], i, c)
  {
    hide LineStart, Waiting, Width, LastKeyword;
    assert (init + [t])[..i] == init[..i] && (init + [t])[..i + 1] == init[..i + 1];
  }

  lemma NewBlock(init: seq<Lexeme>, t: Lexeme, c: Context)
    requires Waiting(init) && !Gap(t.kind) && !t.kind.OCurly?
    requires c == Context(LastKeyword(init), if LineStart(init) then Width(init + [t]) else t.column)
    ensures BlockAt(init + [t], |init|, c)
  {
    hide LineStart, Waiting, Width, LastKeyword;
    assert (init + [t])[..|init|] == init && (init + [t])[..|init| + 1] == init + [t];
  }
}
