/**
  What every run of the Haskell layout lexer keeps: virtual braces are never closed before they
  are opened, the nesting counter tracks them exactly, the source text survives, and the
  closing loops end exactly when a context or the start column catches them.
 */
module HaskellProofs {
  import opened HaskellLayout

  // ---------------------------------------------------------------------------
  // Depth of the virtual braces
  // ---------------------------------------------------------------------------

  function Delta(t: Token): int {
    if !Virtual(t) then 0 else if t.kind.VOCurly? then 1 else if t.kind.VCCurly? then -1 else 0
  }

  /** Virtual blocks opened minus virtual blocks closed. */
  function Depth(ts: seq<Token>): int {
    if ts == [] then 0 else Depth(ts[..|ts| - 1]) + Delta(ts[|ts| - 1])
  }

  /** The lowest depth any prefix reaches. */
  function Low(ts: seq<Token>): int {
    if ts == [] then 0 else Min(Low(ts[..|ts| - 1]), Depth(ts))
  }

  function Min(a: int, b: int): int {
    if a < b then a else b
  }

  /** `Low` bounds the depth of every prefix, and some prefix reaches it. */
  lemma {:induction false} LowIsLowest(ts: seq<Token>)
    ensures forall i :: 0 <= i <= |ts| ==> Low(ts) <= Depth(ts[..i])
    ensures exists i :: 0 <= i <= |ts| && Low(ts) == Depth(ts[..i])
  {
    assert ts[..|ts|] == ts;
    if ts != [] {
      var init := ts[..|ts| - 1];
      LowIsLowest(init);
      forall i | 0 <= i <= |ts| ensures Low(ts) <= Depth(ts[..i]) {
        if i < |ts| {
          assert init[..i] == ts[..i];
        }
      }
      var k :| 0 <= k <= |init| && Low(init) == Depth(init[..k]);
      assert init[..k] == ts[..k];
    } else {
      assert Low(ts) == Depth(ts[..0]);
    }
  }

  lemma {:induction false} Concat(a: seq<Token>, b: seq<Token>)
    ensures Depth(a + b) == Depth(a) + Depth(b)
    ensures Low(a + b) == Min(Low(a), Depth(a) + Low(b))
  {
    if b == [] {
      assert a + b == a;
      LowIsLowest(a);
      assert a[..|a|] == a;
    } else {
      assert (a + b)[..|a + b| - 1] == a + b[..|b| - 1];
      Concat(a, b[..|b| - 1]);
    }
  }

  lemma One(t: Token)
    ensures Depth([t]) == Delta(t) && Low([t]) == Min(0, Delta(t))
    ensures Depth([]) == Low([]) == 0
  {
    assert [t][..0] == [];
  }

  lemma {:induction false} ClosersDepth(n: nat)
    ensures Depth(Closers(n)) == Low(Closers(n)) == 0 - n
  {
    if n > 0 {
      ClosersDepth(n - 1);
      assert [SEMI, VCCURLY] == [SEMI] + [VCCURLY];
      One(SEMI);
      One(VCCURLY);
      Concat([SEMI], [VCCURLY]);
      Concat(Closers(n - 1), [SEMI, VCCURLY]);
    }
  }

  // ---------------------------------------------------------------------------
  // The invariant
  // ---------------------------------------------------------------------------

  /** A layout keyword has been read and its block not yet opened. */
  function Pending(s: State): nat {
    if s.prevWasKeyWord then 1 else 0
  }

  /** The module body was opened implicitly. */
  function Implicit(s: State): nat {
    if s.wasModuleExport && !s.moduleStartIndent then 1 else 0
  }

  /** How many virtual blocks are open, read off the fields. */
  function Opened(s: State): int {
    s.nestedLevel - Pending(s) + Implicit(s)
  }

  ghost predicate Inv(s: State) {
    && s.nestedLevel >= |s.stack| + Pending(s)
    && (s.prevWasKeyWord ==> s.pendingDent && !s.ignoreIndent)
    && (s.moduleStartIndent ==> s.wasModuleExport && s.startIndent == -1)
    && (s.wasModuleExport && !s.moduleStartIndent ==> s.startIndent >= 0)
    && s.startIndent >= -1
    && s.indentCount >= 0
  }

  /** With `d` blocks open when the lexeme is read, the queue accounts for the change. */
  ghost predicate Tracks(d: int, s: State) {
    Opened(s) == d + Depth(s.queue) && d + Low(s.queue) >= 0
  }

  ghost predicate Good(d: int, s: State) {
    Inv(s) && Tracks(d, s)
  }

  lemma Fresh(s: State)
    requires Inv(s) && s.queue == []
    ensures Good(Opened(s), s)
  {
  }

  lemma AppendOne(d: int, s: State, s': State, t: Token)
    requires Tracks(d, s) && s'.queue == s.queue + [t]
    requires Opened(s') == Opened(s) + Delta(t) && Opened(s') >= 0
    ensures Tracks(d, s')
  {
    One(t);
    Concat(s.queue, [t]);
  }

  lemma AppendClosers(d: int, s: State, s': State, n: nat)
    requires Tracks(d, s) && s'.queue == s.queue + Closers(n)
    requires Opened(s') == Opened(s) - n && Opened(s') >= 0
    ensures Tracks(d, s')
  {
    ClosersDepth(n);
    Concat(s.queue, Closers(n));
  }

  /** After the two closing loops and the separator, counter and stack agree. */
  lemma CloseBlocksKeeps(d: int, s: State, c: int)
    requires Good(d, s) && !s.prevWasKeyWord && Closable(s, c)
    ensures Good(d, CloseBlocks(s, c))
    ensures CloseBlocks(s, c).nestedLevel == |CloseBlocks(s, c).stack| == Kept(s.stack, c)
  {
    hide Depth, Low, Closers, Kept, SavedIndent;
    var kept := Kept(s.stack, c);
    var s1 := s.(nestedLevel := kept, stack := s.stack[..kept], queue := s.queue + Closers(s.nestedLevel - kept));
    var s2 := s1.(queue := s1.queue + [SEMI]);
    CloseBlocksIs(s, c);
    AppendClosers(d, s, s1, s.nestedLevel - kept);
    AppendOne(d, s1, s2, SEMI);
  }

  /** With a counter no smaller than the stack, the counter ends at the contexts kept. */
  lemma CloseBlocksIs(s: State, c: int)
    requires s.nestedLevel >= |s.stack| && Closable(s, c)
    ensures var kept := Kept(s.stack, c);
            var s1 := s.(nestedLevel := kept, stack := s.stack[..kept], queue := s.queue + Closers(s.nestedLevel - kept));
            CloseBlocks(s, c) == if SavedIndent(s1) == c then s1.(queue := s1.queue + [SEMI]) else s1
  {
    hide Closers, Kept, Depth, Low;
  }

  lemma ScanKeeps(d: int, s: State, t: Lexeme)
    requires Good(d, s)
    ensures Good(d, Scan(s, t))
  {
    hide Depth, Low;
  }

  lemma HeaderKeeps(d: int, s: State, t: Lexeme)
    requires Good(d, s)
    ensures Good(d, Header(s, t)) && Header(s, t).queue == s.queue && Opened(Header(s, t)) == Opened(s)
  {
    hide Depth, Low;
  }

  lemma ExplicitBraceKeeps(d: int, s: State, t: Lexeme)
    requires Good(d, s)
    ensures Good(d, ExplicitBrace(s, t)) && (t.kind.OCurly? ==> !ExplicitBrace(s, t).prevWasKeyWord)
  {
    hide Depth, Low;
  }

  lemma OpenInlineKeeps(d: int, s: State, t: Lexeme)
    requires Good(d, s)
    ensures Good(d, OpenInline(s, t))
  {
    hide Depth, Low;
    if OpenInline(s, t) != s {
      AppendOne(d, s, OpenInline(s, t), VOCURLY);
    }
  }

  lemma StopIgnoringKeeps(d: int, s: State, t: Lexeme)
    requires Good(d, s)
    ensures Good(d, StopIgnoring(s, t))
  {
    hide Depth, Low;
  }

  lemma OpenEmptyKeeps(d: int, s: State, t: Lexeme)
    requires Good(d, s)
    ensures Good(d, OpenEmpty(s, t))
  {
    hide Depth, Low;
    if OpenEmpty(s, t) != s {
      AppendOne(d, s, OpenEmpty(s, t), VOCURLY);
    }
  }

  lemma OpenIndentedKeeps(d: int, s: State, t: Lexeme)
    requires Good(d, s)
    ensures Good(d, OpenIndented(s, t))
  {
    hide Depth, Low;
    if OpenIndented(s, t) != s {
      AppendOne(d, s, OpenIndented(s, t), VOCURLY);
    }
  }

  lemma KeywordKeeps(d: int, s: State, t: Lexeme)
    requires Good(d, s)
    requires LayoutKeyword(t.kind) ==> !s.prevWasKeyWord && !s.ignoreIndent
    requires t.kind.OCurly? ==> !s.prevWasKeyWord
    ensures Tracks(d, Keyword(s, t)) && Inv(Keyword(s, t).(pendingDent := true))
    ensures !LayoutKeyword(t.kind) ==> Inv(Keyword(s, t))
  {
    hide Depth, Low;
    if WhereEndsDo(s, t) {
      assert Closers(1) == Closers(0) + [SEMI, VCCURLY];
      AppendClosers(d, s, Keyword(s, t), 1);
    }
  }

  // ---------------------------------------------------------------------------
  // What is pending when
  // ---------------------------------------------------------------------------

  /** At the dedent test a keyword still pending waits for a deeper line. */
  lemma PendingAtDedent(s: State, t: Lexeme)
    requires Inv(s)
    ensures var e := BeforeDedent(s, t);
            && (DedentRuns(e, t) ==> !e.prevWasKeyWord)
            && (t.kind.OCurly? ==> !e.prevWasKeyWord)
            && (LayoutKeyword(t.kind) ==> !e.ignoreIndent)
            && (e.prevWasKeyWord && !Blank(t.kind) && !t.kind.EndOfFile? && !e.moduleStartIndent
                ==> !OpenIndented(e, t).prevWasKeyWord)
            && (LayoutKeyword(t.kind) ==> (OpenIndented(e, t).prevWasKeyWord
                <==> s.prevWasKeyWord && s.moduleStartIndent && s.indentCount > SavedIndent(s)))
            && (e.moduleStartIndent ==> s.moduleStartIndent) && (e.prevWasKeyWord ==> s.prevWasKeyWord)
  {
  }

  // ---------------------------------------------------------------------------
  // One lexeme
  // ---------------------------------------------------------------------------

  /**
    What the layout algorithm needs of a module header: no block is open when its body starts, and
    no second layout keyword follows one that is still waiting.  `StepExactly`: it needs no less.
   */
  predicate Orderly(h: State, t: Lexeme) {
    if OpensModuleBody(h, t) then h.stack == [] && h.nestedLevel == Pending(h) - Delta(Token(t.kind, t.text, false))
    else LayoutKeyword(t.kind) ==> !(h.prevWasKeyWord && h.moduleStartIndent && h.indentCount > SavedIndent(h))
  }

  lemma BeforeDedentKeeps(d: int, s: State, t: Lexeme)
    requires Good(d, s)
    ensures Good(d, BeforeDedent(s, t))
  {
    ExplicitBraceKeeps(d, s, t);
    OpenInlineKeeps(d, ExplicitBrace(s, t), t);
    StopIgnoringKeeps(d, OpenInline(ExplicitBrace(s, t), t), t);
    OpenEmptyKeeps(d, StopIgnoring(OpenInline(ExplicitBrace(s, t), t), t), t);
  }

  lemma DedentKeeps(d: int, s: State)
    requires Good(d, s) && !s.prevWasKeyWord && Closable(s, s.indentCount)
    ensures Good(d, Dedent(s)) && !Dedent(s).prevWasKeyWord
  {
    CloseBlocksKeeps(d, s, s.indentCount);
  }

  lemma HandOverKeeps(d: int, h: State, t: Lexeme, e: State)
    requires Good(d, h) && (LayoutKeyword(t.kind) ==> !(h.prevWasKeyWord && h.moduleStartIndent && h.indentCount > SavedIndent(h)))
    requires e == BeforeDedent(h, t) && (DedentRuns(e, t) ==> Closable(e, e.indentCount))
    ensures Tracks(d, HandOver(e, t)) && Inv(HandOver(e, t).(pendingDent := true))
    ensures !LayoutKeyword(t.kind) ==> Inv(HandOver(e, t))
  {
    BeforeDedentKeeps(d, h, t);
    PendingAtDedent(h, t);
    if DedentRuns(e, t) {
      DedentKeeps(d, e);
      AfterDedentKeeps(d, Dedent(e), t);
    } else {
      AfterDedentKeeps(d, e, t);
    }
  }

  lemma AfterDedentKeeps(d: int, s: State, t: Lexeme)
    requires Good(d, s)
    requires LayoutKeyword(t.kind) ==> !OpenIndented(s, t).prevWasKeyWord && !s.ignoreIndent
    requires t.kind.OCurly? ==> !s.prevWasKeyWord
    ensures Tracks(d, AfterDedent(s, t)) && Inv(AfterDedent(s, t).(pendingDent := true))
    ensures !LayoutKeyword(t.kind) ==> Inv(AfterDedent(s, t))
  {
    OpenIndentedKeeps(d, s, t);
    KeywordKeeps(d, OpenIndented(s, t), t);
  }

  lemma InKeeps(d: int, s: State)
    requires Good(d, s)
    ensures Good(d, ProcessIn(s))
  {
    hide Depth, Low, Closers;
    AppendClosers(d, s, ProcessIn(s), |s.stack| - KeptByIn(s.stack));
  }

  /** A token that is not virtual changes no depth, wherever it stands. */
  lemma AroundToken(token: Token, q: seq<Token>)
    requires !Virtual(token)
    ensures Depth([token] + q) == Depth(q) == Depth(q + [token])
    ensures Low([token] + q) == Low(q) == Low(q + [token])
  {
    One(token);
    Concat([token], q);
    Concat(q, [token]);
    LowIsLowest(q);
    assert q[..0] == [] && q[..|q|] == q;
  }

  /** The start of an implicit module body. */
  lemma ModuleBodyKeeps(s: State, t: Lexeme)
    requires Inv(s) && s.queue == [] && OpensModuleBody(s, t)
    requires s.stack == [] && s.nestedLevel == Pending(s) - Delta(Token(t.kind, t.text, false))
    ensures var s' := ModuleBody(s, t).(queue := []);
            Inv(s') && Opened(s') == 1 == Opened(s) + Depth(ModuleBody(s, t).queue) && Low(ModuleBody(s, t).queue) == 0
  {
    ModuleBodyDepth(s, t);
  }

  lemma ModuleBodyDepth(s: State, t: Lexeme)
    requires s.queue == []
    ensures Depth(ModuleBody(s, t).queue) == 1 + Delta(Token(t.kind, t.text, false)) && Low(ModuleBody(s, t).queue) == 0
  {
    var token := Token(t.kind, t.text, false);
    assert ModuleBody(s, t).queue == [VOCURLY] + [token];
    One(VOCURLY);
    One(token);
    Concat([VOCURLY], [token]);
  }

  lemma DeliverKeeps(d: int, e: State, t: Lexeme, hidden: bool)
    requires !t.kind.EndOfFile? && (Marker(t.kind) ==> hidden) && (hidden ==> !LayoutKeyword(t.kind))
    requires Tracks(d, e) && Inv(e.(pendingDent := true)) && (!LayoutKeyword(t.kind) ==> Inv(e))
    ensures Deliver(e, t, hidden).Running?
    ensures var Running(s', tokens) := Deliver(e, t, hidden);
            Inv(s') && s'.queue == [] && Opened(s') == d + Depth(tokens) && d + Low(tokens) >= 0
  {
    hide Depth, Low;
    var token := Token(t.kind, t.text, hidden);
    if t.kind.In? && !hidden {
      InKeeps(d, e);
      AroundToken(token, ProcessIn(e).queue);
    } else {
      AroundToken(token, e.queue);
    }
  }

  lemma ProceedKeeps(h: State, t: Lexeme, hidden: bool)
    requires Inv(h) && h.queue == [] && !t.kind.EndOfFile? && Orderly(h, t) && Proceed(h, t, hidden).Running?
    requires (Marker(t.kind) ==> hidden) && (hidden ==> !LayoutKeyword(t.kind))
    ensures var Running(s', tokens) := Proceed(h, t, hidden);
            Inv(s') && s'.queue == [] && Opened(s') == Opened(h) + Depth(tokens) && Opened(h) + Low(tokens) >= 0
  {
    if OpensModuleBody(h, t) {
      ModuleBodyKeeps(h, t);
    } else {
      var e := BeforeDedent(h, t);
      HandOverKeeps(Opened(h), h, t, e);
      DeliverKeeps(Opened(h), HandOver(e, t), t, hidden);
    }
  }

  /** Every lexeme but the end of file keeps the invariant and moves the depth with the fields. */
  lemma StepKeeps(s: State, t: Lexeme)
    requires Inv(s) && s.queue == [] && !t.kind.EndOfFile? && Step(s, t).Running?
    requires Orderly(Header(Scan(s, t), t), t)
    ensures var Running(s', tokens) := Step(s, t);
            Inv(s') && s'.queue == [] && Opened(s') == Opened(s) + Depth(tokens) && Opened(s) + Low(tokens) >= 0
  {
    hide Depth, Low, Proceed, Inv, Opened;
    Fresh(s);
    ScanKeeps(Opened(s), s, t);
    HeaderKeeps(Opened(s), Scan(s, t), t);
    ProceedKeeps(Header(Scan(s, t), t), t, Hidden(s, t));
  }

  /** A second layout keyword while one waits: the counter gains a level that no brace opens. */
  lemma SecondKeyword(h: State, t: Lexeme)
    requires Inv(h) && h.queue == [] && LayoutKeyword(t.kind) && !OpensModuleBody(h, t) && !Orderly(h, t)
    ensures Proceed(h, t, false).Running?
    ensures Opened(Proceed(h, t, false).state) == Opened(h) + Depth(Proceed(h, t, false).tokens) + 1
  {
    hide Depth, Low;
    var d := BeforeDedent(h, t);
    WaitsAtDedent(h, t);
    var e := Keyword(d, t);
    assert HandOver(d, t) == e;
    AroundToken(Token(t.kind, t.text, false), e.queue);
    ClosersDepth(1);
    One(SEMI);
    assert Closers(1) == [] + [SEMI, VCCURLY] == [SEMI, VCCURLY];
  }

  lemma WaitsAtDedent(h: State, t: Lexeme)
    requires Inv(h) && LayoutKeyword(t.kind) && h.prevWasKeyWord && h.moduleStartIndent && h.indentCount > SavedIndent(h)
    ensures var d := BeforeDedent(h, t);
            && d == h.(inPragmas := d.inPragmas, wasModuleExport := d.wasModuleExport)
            && d.wasModuleExport == h.wasModuleExport && !DedentRuns(d, t) && OpenIndented(d, t) == d
  {
    assert OpenInline(ExplicitBrace(h, t), t) == ExplicitBrace(h, t);
  }

  lemma DisorderlyBody(h: State, t: Lexeme, hidden: bool)
    requires Inv(h) && h.queue == [] && OpensModuleBody(h, t) && !Orderly(h, t)
    ensures Proceed(h, t, hidden).Running?
    ensures var Running(s', tokens) := Proceed(h, t, hidden);
            Inv(s') ==> Opened(s') != Opened(h) + Depth(tokens)
  {
    hide Depth, Low;
    ModuleBodyDepth(h, t);
  }

  /** A lexeme keeps the invariant and moves the depth with the fields if and only if it finds the header orderly. */
  lemma StepExactly(s: State, t: Lexeme)
    requires Inv(s) && s.queue == [] && !t.kind.EndOfFile?
    ensures Orderly(Header(Scan(s, t), t), t)
            <==> match Step(s, t)
                 case Stuck => true
                 case Running(s', tokens) => Inv(s') && Opened(s') == Opened(s) + Depth(tokens)
  {
    hide Depth, Low, Proceed, Inv, Opened, OpensModuleBody;
    var h := Header(Scan(s, t), t);
    Fresh(s);
    ScanKeeps(Opened(s), s, t);
    HeaderKeeps(Opened(s), Scan(s, t), t);
    if Orderly(h, t) {
      if Step(s, t).Running? {
        StepKeeps(s, t);
      }
    } else if OpensModuleBody(h, t) {
      DisorderlyBody(h, t, Hidden(s, t));
    } else {
      SecondKeyword(h, t);
    }
  }

  // ---------------------------------------------------------------------------
  // End of file
  // ---------------------------------------------------------------------------

  /**
    Blocks left open by the end of file: contexts at or left of the start column stay open, and a
    keyword still pending or a header without body has a block closed that was never opened.
   */
  function Unclosed(e: State): int {
    Kept(e.stack, e.startIndent) - Pending(e) - (if e.moduleStartIndent then 1 else 0)
  }

  lemma EofCloses(d: int, e: State)
    requires Good(d, e)
    ensures Closable(e, e.startIndent)
    ensures d + Depth(ProcessEof(e).queue) == Unclosed(e)
    ensures d + Low(ProcessEof(e).queue) >= 0 <==> Unclosed(e) >= 0
  {
    hide Depth, Low, Closers;
    var kept := Kept(e.stack, e.startIndent);
    var n := e.nestedLevel - kept;
    var separator := if SavedIndent(e.(stack := e.stack[..kept])) == e.startIndent then [SEMI] else [];
    var last := if e.wasModuleExport then [VCCURLY] else [];
    assert ProcessEof(e).queue == e.queue + Closers(n) + separator + last;
    ClosingTail(e.queue, n, separator, last);
  }

  lemma ClosingTail(q: seq<Token>, n: nat, separator: seq<Token>, last: seq<Token>)
    requires separator == [] || separator == [SEMI]
    requires last == [] || last == [VCCURLY]
    ensures Depth(q + Closers(n) + separator + last) == Depth(q) - n - |last|
    ensures Low(q + Closers(n) + separator + last) == Min(Low(q), Depth(q) - n - |last|)
  {
    hide Depth, Low, Closers;
    ClosersDepth(n);
    One(SEMI);
    One(VCCURLY);
    Concat(q, Closers(n));
    Concat(q + Closers(n), separator);
    Concat(q + Closers(n) + separator, last);
    LowIsLowest(q);
    assert q[..|q|] == q;
  }

  /** The end of file always gets through, and leaves exactly `Unclosed` blocks open. */
  lemma EofStep(s: State, t: Lexeme)
    requires Inv(s) && s.queue == [] && t.kind.EndOfFile?
    requires !OpensModuleBody(Header(Scan(s, t), t), t)
    ensures Step(s, t).Running?
    ensures var e := BeforeDedent(Header(Scan(s, t), t), t);
            && Opened(s) + Depth(Step(s, t).tokens) == Unclosed(e)
            && (Opened(s) + Low(Step(s, t).tokens) >= 0 <==> Unclosed(e) >= 0)
  {
    hide Depth, Low, Proceed, Inv, Opened;
    Fresh(s);
    ScanKeeps(Opened(s), s, t);
    HeaderKeeps(Opened(s), Scan(s, t), t);
    EofProceed(Header(Scan(s, t), t), t);
  }

  lemma EofProceed(h: State, t: Lexeme)
    requires Inv(h) && h.queue == [] && t.kind.EndOfFile? && !OpensModuleBody(h, t)
    ensures Proceed(h, t, false).Running?
    ensures Opened(h) + Depth(Proceed(h, t, false).tokens) == Unclosed(BeforeDedent(h, t))
    ensures Opened(h) + Low(Proceed(h, t, false).tokens) >= 0 <==> Unclosed(BeforeDedent(h, t)) >= 0
  {
    hide Depth, Low;
    Fresh(h);
    var e := BeforeDedent(h, t);
    BeforeDedentKeeps(Opened(h), h, t);
    EofCloses(Opened(h), e);
    assert HandOver(e, t) == e;
    AroundToken(Token(t.kind, t.text, false), ProcessEof(e).queue);
  }

  // ---------------------------------------------------------------------------
  // Whole runs
  // ---------------------------------------------------------------------------

  ghost predicate NoEof(source: seq<Lexeme>) {
    forall t :: t in source ==> !t.kind.EndOfFile?
  }

  /** Every lexeme of the source finds the header orderly. */
  ghost predicate OrderlyRun(source: seq<Lexeme>) {
    source == [] ||
    (var n := |source| - 1;
     OrderlyRun(source[..n]) &&
     (Layout(source[..n]).Running? ==>
        Orderly(Header(Scan(Layout(source[..n]).state, source[n]), source[n]), source[n])))
  }

  /**
    Over every run: the nesting counter dominates the contexts, the fields give the number of open
    virtual blocks exactly, and no prefix of what was handed out closes a block that is not open.
   */
  lemma {:induction false} RunInvariant(source: seq<Lexeme>)
    requires NoEof(source) && OrderlyRun(source) && Layout(source).Running?
    ensures var Running(s, tokens) := Layout(source);
            && Inv(s) && s.queue == []
            && Depth(tokens) == Opened(s)
            && (forall i :: 0 <= i <= |tokens| ==> Depth(tokens[..i]) >= 0)
  {
    hide Step, Inv, Opened, Layout, OrderlyRun, NoEof;
    RunNeverBelow(source);
    LowIsLowest(Layout(source).tokens);
  }

  lemma InitGood()
    ensures Inv(INIT) && Opened(INIT) == 0
  {
  }

  lemma {:induction false} RunNeverBelow(source: seq<Lexeme>)
    requires NoEof(source) && OrderlyRun(source) && Layout(source).Running?
    ensures var Running(s, tokens) := Layout(source);
            Inv(s) && s.queue == [] && Depth(tokens) == Opened(s) && Low(tokens) >= 0
  {
    hide Step, Header, Scan, Orderly, Inv, Opened;
    InitGood();
    if source != [] {
      var n := |source| - 1;
      RunNeverBelow(source[..n]);
      var Running(s, tokens) := Layout(source[..n]);
      StepKeeps(s, source[n]);
      Concat(tokens, Step(s, source[n]).tokens);
    }
  }

  /** The fields tell the depth, and the counter dominates the contexts, after every part of the run. */
  ghost predicate Accounted(source: seq<Lexeme>) {
    Layout(source).Running? ==> Inv(Layout(source).state) && Depth(Layout(source).tokens) == Opened(Layout(source).state)
  }

  /** That holds throughout if and only if the run is orderly. */
  lemma {:induction false} OrderlyExactly(source: seq<Lexeme>)
    requires NoEof(source)
    ensures OrderlyRun(source) <==> forall n :: 0 <= n <= |source| ==> Accounted(source[..n])
  {
    hide Step, Header, Scan, Orderly, Inv, Opened, Depth, Low;
    assert source[..|source|] == source;
    if source == [] {
      InitGood();
      One(SEMI);
    } else {
      var n := |source| - 1;
      var init := source[..n];
      OrderlyExactly(init);
      assert forall k :: 0 <= k <= n ==> init[..k] == source[..k];
      assert source[..n + 1] == source;
      if OrderlyRun(init) && Layout(init).Running? {
        RunNeverBelow(init);
        StepExactly(Layout(init).state, source[n]);
        if Step(Layout(init).state, source[n]).Running? {
          Concat(Layout(init).tokens, Step(Layout(init).state, source[n]).tokens);
        }
      }
    }
  }

  /** A header that ends the file: its body is opened and never closed. */
  lemma BodylessFile(s: State, t: Lexeme)
    requires Inv(s) && s.queue == [] && OpensModuleBody(Header(Scan(s, t), t), t)
    ensures Step(s, t).Running?
    ensures Orderly(Header(Scan(s, t), t), t) ==> Opened(s) + Depth(Step(s, t).tokens) == 1
  {
    hide Depth, Low;
    One(VOCURLY);
    ScanKeeps(Opened(s), s, t);
    HeaderKeeps(Opened(s), Scan(s, t), t);
    var h := Header(Scan(s, t), t);
    if Orderly(h, t) {
      ModuleBodyKeeps(h, t);
    }
  }

  /** The whole file: its virtual braces balance exactly when nothing is left over or closed in vain. */
  lemma FileBalance(source: seq<Lexeme>, eof: Lexeme)
    requires NoEof(source) && OrderlyRun(source) && Layout(source).Running? && eof.kind.EndOfFile?
    ensures Layout(source + [eof]).Running?
    ensures var h := Header(Scan(Layout(source).state, eof), eof);
            var tokens := Layout(source + [eof]).tokens;
            if OpensModuleBody(h, eof) then Orderly(h, eof) ==> Depth(tokens) == 1
            else
              && Depth(tokens) == Unclosed(BeforeDedent(h, eof))
              && ((forall i :: 0 <= i <= |tokens| ==> Depth(tokens[..i]) >= 0) <==> Unclosed(BeforeDedent(h, eof)) >= 0)
  {
    hide Header, Scan, Orderly, Inv, Opened, Step, BeforeDedent, Unclosed, OpensModuleBody, Depth, Low;
    RunNeverBelow(source);
    var Running(s, tokens) := Layout(source);
    var h := Header(Scan(s, eof), eof);
    assert (source + [eof])[..|source|] == source;
    if OpensModuleBody(h, eof) {
      BodylessFile(s, eof);
      Concat(tokens, Step(s, eof).tokens);
    } else {
      EofStep(s, eof);
      Concat(tokens, Step(s, eof).tokens);
      LowIsLowest(tokens + Step(s, eof).tokens);
    }
  }

  /** A complete file: no keyword dangles, the header has its body, every context is right of the start column. */
  lemma CompleteFileBalances(source: seq<Lexeme>, eof: Lexeme)
    requires NoEof(source) && OrderlyRun(source) && Layout(source).Running? && eof.kind.EndOfFile?
    requires var s := Layout(source).state;
             && !s.prevWasKeyWord && !s.moduleStartIndent && s.startIndent >= 0
             && (forall i :: 0 <= i < |s.stack| ==> s.stack[i].column > s.startIndent)
    ensures Layout(source + [eof]).Running?
    ensures var tokens := Layout(source + [eof]).tokens;
            Depth(tokens) == 0 && (forall i :: 0 <= i <= |tokens| ==> Depth(tokens[..i]) >= 0)
  {
    hide Inv, Step, Proceed, Depth, Low, Layout, NoEof, OrderlyRun;
    FileBalance(source, eof);
  }
}
