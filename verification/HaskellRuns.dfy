/**
  Further properties of whole runs of the Haskell layout lexer: the source text survives, the
  closing loops end exactly when they should, and which module headers are orderly.
 */
module HaskellRuns {
  import opened HaskellLayout
  import opened HaskellProofs

  // ---------------------------------------------------------------------------
  // The source survives
  // ---------------------------------------------------------------------------

  /** Kinds and texts of the tokens that are not virtual. */
  function Bare(ts: seq<Token>): seq<(Kind, string)> {
    if ts == [] then []
    else
      var t := ts[|ts| - 1];
      Bare(ts[..|ts| - 1]) + (if Virtual(t) then [] else [(t.kind, t.text)])
  }

  function Spelled(source: seq<Lexeme>): (r: seq<(Kind, string)>)
    ensures |r| == |source|
  {
    seq(|source|, i requires 0 <= i < |source| => (source[i].kind, source[i].text))
  }

  ghost predicate AllVirtual(ts: seq<Token>) {
    forall t :: t in ts ==> Virtual(t)
  }

  lemma {:induction false} BareConcat(a: seq<Token>, b: seq<Token>)
    ensures Bare(a + b) == Bare(a) + Bare(b)
  {
    if b == [] {
      assert a + b == a;
    } else {
      assert (a + b)[..|a + b| - 1] == a + b[..|b| - 1];
      BareConcat(a, b[..|b| - 1]);
    }
  }

  lemma {:induction false} BareOfVirtual(ts: seq<Token>)
    requires AllVirtual(ts)
    ensures Bare(ts) == []
  {
    if ts != [] {
      BareOfVirtual(ts[..|ts| - 1]);
    }
  }

  lemma BareAround(token: Token, q: seq<Token>)
    requires AllVirtual(q) && !Virtual(token)
    ensures Bare([token] + q) == [(token.kind, token.text)] == Bare(q + [token])
  {
    BareOfVirtual(q);
    BareConcat([token], q);
    BareConcat(q, [token]);
    assert [token][..0] == [];
  }

  lemma {:induction false} ClosersVirtual(n: nat)
    ensures AllVirtual(Closers(n))
  {
    if n > 0 {
      ClosersVirtual(n - 1);
    }
  }

  lemma CloseBlocksVirtual(s: State, c: int)
    requires AllVirtual(s.queue) && Closable(s, c)
    ensures AllVirtual(CloseBlocks(s, c).queue)
  {
    ClosersVirtual(s.nestedLevel - Levelled(s) + |s.stack| - Kept(s.stack, c));
  }

  lemma BeforeDedentVirtual(s: State, t: Lexeme)
    requires AllVirtual(s.queue)
    ensures AllVirtual(BeforeDedent(s, t).queue)
  {
    var s1 := OpenInline(ExplicitBrace(s, t), t);
    assert AllVirtual(s1.queue);
    assert AllVirtual(OpenEmpty(StopIgnoring(s1, t), t).queue);
  }

  lemma AfterDedentVirtual(s: State, t: Lexeme)
    requires AllVirtual(s.queue)
    ensures AllVirtual(AfterDedent(s, t).queue)
  {
    assert AllVirtual(OpenIndented(s, t).queue);
  }

  lemma InVirtual(e: State)
    requires AllVirtual(e.queue)
    ensures AllVirtual(ProcessIn(e).queue)
  {
    hide Closers;
    ClosersVirtual(|e.stack| - KeptByIn(e.stack));
  }

  lemma EofVirtual(e: State)
    requires AllVirtual(e.queue) && Closable(e, e.startIndent)
    ensures AllVirtual(ProcessEof(e).queue)
  {
    hide CloseBlocks, Closable;
    CloseBlocksVirtual(e, e.startIndent);
  }

  lemma DeliverBare(e: State, t: Lexeme, hidden: bool)
    requires AllVirtual(e.queue) && (Marker(t.kind) ==> hidden) && Deliver(e, t, hidden).Running?
    ensures Bare(Deliver(e, t, hidden).tokens) == [(t.kind, t.text)] && Deliver(e, t, hidden).state.queue == []
  {
    hide Bare, ProcessIn, ProcessEof, Closable;
    var token := Token(t.kind, t.text, hidden);
    BareAround(token, e.queue);
    InVirtual(e);
    BareAround(token, ProcessIn(e).queue);
    if Closable(e, e.startIndent) {
      EofVirtual(e);
      BareAround(token, ProcessEof(e).queue);
    }
  }

  /** The token after a module header is re-created on the default channel; a marker word then looks virtual. */
  predicate Loses(s: State, t: Lexeme) {
    OpensModuleBody(Header(Scan(s, t), t), t) && Marker(t.kind)
  }

  lemma StepBare(s: State, t: Lexeme)
    requires s.queue == [] && Step(s, t).Running?
    ensures Step(s, t).state.queue == []
    ensures Bare(Step(s, t).tokens) == if Loses(s, t) then [] else [(t.kind, t.text)]
  {
    hide Kept, Closers, Bare;
    var h := Header(Scan(s, t), t);
    assert h.queue == [];
    ProceedBare(h, t, Hidden(s, t));
  }

  lemma ProceedBare(h: State, t: Lexeme, hidden: bool)
    requires h.queue == [] && (Marker(t.kind) ==> hidden) && Proceed(h, t, hidden).Running?
    ensures Proceed(h, t, hidden).state.queue == []
    ensures Bare(Proceed(h, t, hidden).tokens) == if OpensModuleBody(h, t) && Marker(t.kind) then [] else [(t.kind, t.text)]
  {
    hide Bare, BeforeDedent, AfterDedent, Deliver, Closable, DedentRuns, CloseBlocks;
    if OpensModuleBody(h, t) {
      var token := Token(t.kind, t.text, false);
      assert ModuleBody(h, t).queue == [VOCURLY, token];
      if Marker(t.kind) {
        BareOfVirtual([VOCURLY, token]);
      } else {
        BareAround(token, [VOCURLY]);
        assert [VOCURLY] + [token] == [VOCURLY, token];
      }
    } else {
      var d := BeforeDedent(h, t);
      BeforeDedentVirtual(h, t);
      if DedentRuns(d, t) {
        CloseBlocksVirtual(d, d.indentCount);
        AfterDedentVirtual(Dedent(d), t);
      } else {
        AfterDedentVirtual(d, t);
      }
      DeliverBare(HandOver(d, t), t, hidden);
    }
  }

  /** The end-of-file token comes last, and only from the end-of-file lexeme. */
  ghost predicate EofLast(tokens: seq<Token>, t: Lexeme) {
    && tokens != []
    && (forall i :: 0 <= i < |tokens| && tokens[i].kind.EndOfFile? ==> t.kind.EndOfFile? && i == |tokens| - 1)
    && (t.kind.EndOfFile? ==> tokens[|tokens| - 1].kind.EndOfFile?)
  }

  lemma EofAround(q: seq<Token>, token: Token, t: Lexeme)
    requires AllVirtual(q) && token.kind == t.kind
    ensures EofLast(q + [token], t) && (!t.kind.EndOfFile? ==> EofLast([token] + q, t))
  {
    forall i | 0 <= i < |q| ensures !q[i].kind.EndOfFile? {
      assert q[i] in q;
    }
  }

  lemma DeliverEofLast(e: State, t: Lexeme, hidden: bool)
    requires AllVirtual(e.queue) && (t.kind.EndOfFile? ==> !hidden) && Deliver(e, t, hidden).Running?
    ensures EofLast(Deliver(e, t, hidden).tokens, t)
  {
    hide ProcessIn, ProcessEof, Closable, EofLast;
    var token := Token(t.kind, t.text, hidden);
    EofAround(e.queue, token, t);
    InVirtual(e);
    EofAround(ProcessIn(e).queue, token, t);
    if Closable(e, e.startIndent) {
      EofVirtual(e);
      EofAround(ProcessEof(e).queue, token, t);
    }
  }

  lemma StepEofLast(s: State, t: Lexeme)
    requires s.queue == [] && Step(s, t).Running?
    ensures EofLast(Step(s, t).tokens, t)
  {
    hide BeforeDedent, AfterDedent, Deliver, Closable, DedentRuns, CloseBlocks;
    var h := Header(Scan(s, t), t);
    assert h.queue == [];
    if !OpensModuleBody(h, t) {
      var d := BeforeDedent(h, t);
      BeforeDedentVirtual(h, t);
      if DedentRuns(d, t) {
        CloseBlocksVirtual(d, d.indentCount);
        AfterDedentVirtual(Dedent(d), t);
      } else {
        AfterDedentVirtual(d, t);
      }
      DeliverEofLast(HandOver(d, t), t, Hidden(s, t));
    }
  }

  /** Some lexeme of the run is lost that way. */
  ghost predicate LosesOne(source: seq<Lexeme>) {
    source != [] &&
    (var n := |source| - 1;
     LosesOne(source[..n])
     || (Layout(source[..n]).Running? && Loses(Layout(source[..n]).state, source[n])))
  }

  lemma LosesSnoc(init: seq<Lexeme>, t: Lexeme)
    requires Layout(init + [t]).Running?
    ensures Layout(init).Running? && (LosesOne(init + [t]) <==> LosesOne(init) || Loses(Layout(init).state, t))
  {
    hide Step, Loses;
    assert (init + [t])[..|init|] == init;
  }

  lemma {:induction false} Survivors(source: seq<Lexeme>)
    requires Layout(source).Running?
    ensures Layout(source).state.queue == []
    ensures var bare := Bare(Layout(source).tokens);
            if LosesOne(source) then |bare| < |source| else bare == Spelled(source)
  {
    if source != [] {
      hide Bare, Layout, LosesOne, Loses, Spelled;
      var init, t := source[..|source| - 1], source[|source| - 1];
      assert init + [t] == source;
      LosesSnoc(init, t);
      Survivors(init);
      SurvivorsSnoc(init, t);
    }
  }

  lemma SurvivorsSnoc(init: seq<Lexeme>, t: Lexeme)
    requires Layout(init).Running? && Layout(init + [t]).Running? && Layout(init).state.queue == []
    ensures Layout(init + [t]).state.queue == []
    ensures Bare(Layout(init + [t]).tokens)
            == Bare(Layout(init).tokens) + if Loses(Layout(init).state, t) then [] else [(t.kind, t.text)]
    ensures Spelled(init + [t]) == Spelled(init) + [(t.kind, t.text)]
  {
    hide Step, Bare, Loses, Layout;
    LayoutSnoc(init, t);
    StepBare(Layout(init).state, t);
    BareConcat(Layout(init).tokens, Step(Layout(init).state, t).tokens);
  }

  // ---------------------------------------------------------------------------
  // When the closing loops end
  // ---------------------------------------------------------------------------

  /** The state after the first closing loop. */
  function Level(s: State): State {
    s.(nestedLevel := Levelled(s), queue := s.queue + Closers(s.nestedLevel - Levelled(s)))
  }

  /** One iteration of the second closing loop. */
  function LoopBody(s: State): State {
    var pops := s.stack != [] && s.nestedLevel > 0;
    s.(stack := if pops then s.stack[..|s.stack| - 1] else s.stack,
       nestedLevel := if pops then s.nestedLevel - 1 else s.nestedLevel,
       queue := s.queue + [SEMI, VCCURLY])
  }

  function Iterate(s: State, n: nat): State {
    if n == 0 then Level(s) else LoopBody(Iterate(s, n - 1))
  }

  /** The state with `m` contexts popped and `k` blocks closed beyond those of the first loop. */
  function Closed(s: State, m: nat, k: nat): State
    requires m <= |s.stack|
  {
    s.(stack := s.stack[..|s.stack| - m], nestedLevel := Levelled(s) - m,
       queue := s.queue + Closers(s.nestedLevel - Levelled(s) + k))
  }

  /** How many contexts `n` iterations pop: one each, as long as contexts and counter last. */
  function Popped(s: State, n: nat): nat {
    Min(n, Min(|s.stack|, if Levelled(s) < 0 then 0 else Levelled(s)))
  }

  lemma LoopPops(s: State, m: nat, k: nat)
    requires m < |s.stack| && m < Levelled(s)
    ensures LoopBody(Closed(s, m, k)) == Closed(s, m + 1, k + 1)
  {
    var excess: nat := s.nestedLevel - Levelled(s);
    hide Closers, Levelled;
    MoreClosers(s.queue, excess + k);
    assert s.stack[..|s.stack| - m][..|s.stack| - m - 1] == s.stack[..|s.stack| - (m + 1)];
  }

  lemma LoopCloses(s: State, m: nat, k: nat)
    requires m <= |s.stack| && !(m < |s.stack| && m < Levelled(s))
    ensures LoopBody(Closed(s, m, k)) == Closed(s, m, k + 1)
  {
    var excess: nat := s.nestedLevel - Levelled(s);
    hide Closers, Levelled;
    MoreClosers(s.queue, excess + k);
  }

  /** While contexts and counter last, each iteration closes a block and pops exactly one context; then it only closes. */
  lemma {:induction false} IterateShape(s: State, n: nat)
    ensures Iterate(s, n) == Closed(s, Popped(s, n), n)
  {
    if n == 0 {
      assert s.stack[..|s.stack|] == s.stack;
    } else {
      hide Closed, LoopBody;
      IterateShape(s, n - 1);
      var m := Popped(s, n - 1);
      if m < |s.stack| && m < Levelled(s) {
        LoopPops(s, m, n - 1);
      } else {
        LoopCloses(s, m, n - 1);
      }
    }
  }

  lemma MoreClosers(q: seq<Token>, n: nat)
    ensures q + Closers(n) + [SEMI, VCCURLY] == q + Closers(n + 1)
  {
  }

  /** Unless `Closable`, the loop's guard holds after every number of iterations: it never ends. */
  lemma ClosingLoopDiverges(s: State, c: int, n: nat)
    requires !Closable(s, c)
    ensures c < SavedIndent(Iterate(s, n))
  {
    hide Iterate;
    IterateShape(s, n);
  }

  /** If `Closable`, the guard holds until every context right of `c` is popped, and then fails. */
  lemma ClosingLoopEnds(s: State, c: int, n: nat)
    requires Closable(s, c)
    ensures n < |s.stack| - Kept(s.stack, c) ==> c < SavedIndent(Iterate(s, n))
    ensures n == |s.stack| - Kept(s.stack, c) ==> SavedIndent(Iterate(s, n)) <= c
    ensures n == |s.stack| - Kept(s.stack, c) ==>
              var s1 := Iterate(s, n);
              CloseBlocks(s, c) == if SavedIndent(s1) == c then s1.(queue := s1.queue + [SEMI]) else s1
  {
    hide Iterate, Closers;
    IterateShape(s, n);
    var kept := Kept(s.stack, c);
    if n == |s.stack| - kept {
      assert Popped(s, n) == n;
      ClosedIsResult(s, c);
    }
  }

  lemma ClosedIsResult(s: State, c: int)
    requires Closable(s, c)
    ensures var popped := |s.stack| - Kept(s.stack, c);
            var s1 := Closed(s, popped, popped);
            CloseBlocks(s, c) == if SavedIndent(s1) == c then s1.(queue := s1.queue + [SEMI]) else s1
  {
    hide Closers;
  }

  /** While the invariant holds `nextToken` fails to return in one case only: a line left of the start column and of every context. */
  lemma StuckExactly(s: State, t: Lexeme)
    requires Inv(s) && s.queue == []
    ensures var h := Header(Scan(s, t), t);
            var d := BeforeDedent(h, t);
            Step(s, t).Stuck? <==>
              !OpensModuleBody(h, t) && DedentRuns(d, t) && d.indentCount < d.startIndent
              && forall i :: 0 <= i < |d.stack| ==> d.stack[i].column > d.indentCount
  {
    hide Inv, Header, Proceed, BeforeDedent, OpensModuleBody, DedentRuns;
    Fresh(s);
    ScanKeeps(Opened(s), s, t);
    HeaderKeeps(Opened(s), Scan(s, t), t);
    ProceedStuck(Header(Scan(s, t), t), t, Hidden(s, t));
  }

  lemma ProceedStuck(h: State, t: Lexeme, hidden: bool)
    requires Inv(h) && h.queue == [] && (hidden ==> !t.kind.EndOfFile?)
    ensures var d := BeforeDedent(h, t);
            Proceed(h, t, hidden).Stuck? <==>
              !OpensModuleBody(h, t) && DedentRuns(d, t) && d.indentCount < d.startIndent
              && forall i :: 0 <= i < |d.stack| ==> d.stack[i].column > d.indentCount
  {
    hide BeforeDedent, Depth, Low, CloseBlocks, ProcessIn;
    var d := BeforeDedent(h, t);
    Fresh(h);
    BeforeDedentKeeps(Opened(h), h, t);
    if !OpensModuleBody(h, t) && (DedentRuns(d, t) ==> Closable(d, d.indentCount)) {
      if t.kind.EndOfFile? {
        EofCloses(Opened(h), d);
        assert HandOver(d, t) == d;
      }
      assert Deliver(HandOver(d, t), t, hidden).Running?;
    }
  }

  // ---------------------------------------------------------------------------
  // Which lexeme sets the start column
  // ---------------------------------------------------------------------------

  /** A pragma is open at the end of `source`. */
  predicate PragmaOpen(source: seq<Lexeme>) {
    source != [] &&
    var t := source[|source| - 1];
    (PragmaOpen(source[..|source| - 1]) || t.kind.OpenPragma?) && !t.kind.ClosePragma?
  }

  /** A `module` has been read, and no brace after it. */
  predicate HeaderOpen(source: seq<Lexeme>) {
    source != [] &&
    var t := source[|source| - 1];
    (HeaderOpen(source[..|source| - 1]) || t.kind.Module?) && !t.kind.OCurly?
  }

  function LastKeyword(source: seq<Lexeme>): string {
    if source == [] then ""
    else
      var t := source[|source| - 1];
      if LayoutKeyword(t.kind) then t.text else LastKeyword(source[..|source| - 1])
  }

  /** In a header the first lexeme after its `where` counts; outside of one, the first that belongs to no pragma. */
  predicate Eligible(before: seq<Lexeme>, t: Lexeme) {
    && !Blank(t.kind) && !t.kind.OCurly?
    && if HeaderOpen(before) || t.kind.Module? then LastKeyword(before) == "where"
       else !PragmaOpen(before) && !t.kind.OpenPragma?
  }

  /** The column of the first lexeme that counts, or -1. */
  function StartColumn(source: seq<Lexeme>): (c: int)
    ensures c >= -1
  {
    if source == [] then -1
    else
      var before, t := source[..|source| - 1], source[|source| - 1];
      if StartColumn(before) != -1 then StartColumn(before)
      else if Eligible(before, t) then t.column else -1
  }

  /** What the choice of the start column depends on, unchanged but for the lexeme's own effect. */
  ghost predicate Carried(s: State, s': State, t: Lexeme) {
    && s'.startIndent == s.startIndent
    && s'.inPragmas == (s.inPragmas && !t.kind.ClosePragma?)
    && s'.moduleStartIndent == (s.moduleStartIndent && !t.kind.OCurly?)
    && s'.lastKeyWord == if LayoutKeyword(t.kind) then t.text else s.lastKeyWord
  }

  lemma BeforeDedentCarries(h: State, t: Lexeme)
    ensures var d := BeforeDedent(h, t); d.lastKeyWord == h.lastKeyWord && Carried(h, d.(lastKeyWord := Keyword(h, t).lastKeyWord), t)
  {
    var s1 := ExplicitBrace(h, t);
    assert Carried(h, s1.(lastKeyWord := Keyword(h, t).lastKeyWord), t) && s1.lastKeyWord == h.lastKeyWord;
    var s2 := OpenInline(s1, t);
    assert s2 == s1.(prevWasKeyWord := s2.prevWasKeyWord, stack := s2.stack, queue := s2.queue);
    var s3 := StopIgnoring(s2, t);
    assert s3 == s2.(ignoreIndent := s3.ignoreIndent);
  }

  lemma HandOverCarries(d: State, t: Lexeme)
    requires DedentRuns(d, t) ==> Closable(d, d.indentCount)
    ensures var e := HandOver(d, t);
            && e.startIndent == d.startIndent && e.inPragmas == d.inPragmas && e.moduleStartIndent == d.moduleStartIndent
            && e.lastKeyWord == if LayoutKeyword(t.kind) then t.text else d.lastKeyWord
  {
    hide Closable, DedentRuns;
    var s1 := if DedentRuns(d, t) then Dedent(d) else d;
    var s2 := OpenIndented(s1, t);
    assert s2 == s1.(prevWasKeyWord := s2.prevWasKeyWord, stack := s2.stack, prevWasEndl := s2.prevWasEndl, queue := s2.queue);
  }

  lemma ProceedCarries(h: State, t: Lexeme, hidden: bool)
    requires !t.kind.EndOfFile? && !OpensModuleBody(h, t) && Proceed(h, t, hidden).Running?
    ensures Carried(h, Proceed(h, t, hidden).state, t)
  {
    hide BeforeDedent, HandOver, DedentRuns, Closable, OpensModuleBody;
    var d := BeforeDedent(h, t);
    BeforeDedentCarries(h, t);
    HandOverCarries(d, t);
  }

  /** The fields agree with the source as long as no start column is set. */
  ghost predicate StartKnown(s: State, source: seq<Lexeme>) {
    && s.startIndent == StartColumn(source)
    && (s.startIndent == -1 ==>
          s.inPragmas == PragmaOpen(source) && s.moduleStartIndent == HeaderOpen(source) && s.lastKeyWord == LastKeyword(source))
  }

  lemma HeaderStarts(s: State, source: seq<Lexeme>, t: Lexeme)
    requires StartKnown(s, source)
    ensures var h := Header(Scan(s, t), t);
            && h.lastKeyWord == s.lastKeyWord
            && if h.startIndent == -1 then
                 && s.startIndent == -1
                 && h.inPragmas == (PragmaOpen(source) || t.kind.OpenPragma?)
                 && (h.moduleStartIndent && !t.kind.OCurly? <==> HeaderOpen(source + [t]))
                 && StartColumn(source + [t]) == if OpensModuleBody(h, t) then t.column else -1
               else !OpensModuleBody(h, t) && StartColumn(source + [t]) == h.startIndent
  {
    assert (source + [t])[..|source|] == source;
  }

  lemma StartStep(s: State, source: seq<Lexeme>, t: Lexeme)
    requires StartKnown(s, source) && !t.kind.EndOfFile?
    ensures Header(Scan(s, t), t).startIndent in {-1, StartColumn(source + [t])}
    ensures Step(s, t).Running? ==> StartKnown(Step(s, t).state, source + [t])
  {
    var h := Header(Scan(s, t), t);
    HeaderStarts(s, source, t);
    SourceFlags(source, t);
    hide Proceed, OpensModuleBody, Header, HeaderOpen, PragmaOpen, LastKeyword, StartColumn;
    if OpensModuleBody(h, t) {
      BodyStarts(h, t, Hidden(s, t));
    } else if Step(s, t).Running? {
      ProceedCarries(h, t, Hidden(s, t));
    }
  }

  lemma SourceFlags(source: seq<Lexeme>, t: Lexeme)
    ensures PragmaOpen(source + [t]) <==> (PragmaOpen(source) || t.kind.OpenPragma?) && !t.kind.ClosePragma?
    ensures LastKeyword(source + [t]) == if LayoutKeyword(t.kind) then t.text else LastKeyword(source)
  {
    assert (source + [t])[..|source|] == source;
  }

  lemma BodyStarts(h: State, t: Lexeme, hidden: bool)
    requires OpensModuleBody(h, t)
    ensures Proceed(h, t, hidden).Running? && Proceed(h, t, hidden).state.startIndent == t.column
  {
  }

  /** The lexer's start column is that of the source, in every run. */
  lemma {:induction false} StartColumnOfRun(source: seq<Lexeme>)
    requires NoEof(source) && Layout(source).Running?
    ensures StartKnown(Layout(source).state, source)
  {
    hide Step, Header, Scan, StartKnown;
    if source == [] {
      StartUnknown();
    } else {
      var n := |source| - 1;
      StartColumnOfRun(source[..n]);
      StartStep(Layout(source[..n]).state, source[..n], source[n]);
      assert source[..n] + [source[n]] == source;
    }
  }

  lemma StartUnknown()
    ensures StartKnown(INIT, [])
  {
  }

  /** A header ends here: `module ... where`, with only blanks after it, and no lexeme has set the start column. */
  predicate AwaitsBody(source: seq<Lexeme>) {
    StartColumn(source) == -1 && HeaderOpen(source) && LastKeyword(source) == "where"
  }

  /** A word spelled like a virtual token follows a header. */
  predicate MarkerAfterHeader(source: seq<Lexeme>, i: nat) {
    i < |source| && Marker(source[i].kind) && AwaitsBody(source[..i])
  }

  lemma LosesOnSource(source: seq<Lexeme>, t: Lexeme)
    requires NoEof(source) && Layout(source).Running?
    ensures Loses(Layout(source).state, t) <==> Marker(t.kind) && AwaitsBody(source)
  {
    hide Layout, StartColumn, HeaderOpen, LastKeyword, PragmaOpen;
    StartColumnOfRun(source);
  }

  lemma {:induction false} LosesOneOnSource(source: seq<Lexeme>)
    requires source != [] ==> NoEof(source[..|source| - 1])
    requires Layout(source).Running?
    ensures LosesOne(source) <==> exists i :: MarkerAfterHeader(source, i)
  {
    if source == [] {
      NoMarkerYet(source);
    } else {
      hide Loses, LosesOne, Layout, AwaitsBody, MarkerAfterHeader, NoEof;
      var init, t := source[..|source| - 1], source[|source| - 1];
      assert init + [t] == source;
      LosesSnoc(init, t);
      NoEofInit(init);
      LosesOneOnSource(init);
      LosesOnSource(init, t);
      MarkersSnoc(init, t);
    }
  }

  lemma NoEofInit(source: seq<Lexeme>)
    requires NoEof(source)
    ensures source != [] ==> NoEof(source[..|source| - 1])
  {
  }

  lemma MarkersSnoc(init: seq<Lexeme>, t: Lexeme)
    ensures (exists i :: MarkerAfterHeader(init + [t], i))
            <==> (exists i :: MarkerAfterHeader(init, i)) || (Marker(t.kind) && AwaitsBody(init))
  {
    hide AwaitsBody, MarkerAfterHeader;
    forall i: nat
      ensures MarkerAfterHeader(init + [t], i) <==> MarkerAfterHeader(init, i) || (i == |init| && Marker(t.kind) && AwaitsBody(init))
    {
      MarkerSnoc(init, t, i);
    }
    assert Marker(t.kind) && AwaitsBody(init) ==> MarkerAfterHeader(init + [t], |init|);
  }

  lemma MarkerSnoc(init: seq<Lexeme>, t: Lexeme, i: nat)
    ensures MarkerAfterHeader(init + [t], i)
            <==> MarkerAfterHeader(init, i) || (i == |init| && Marker(t.kind) && AwaitsBody(init))
  {
    hide AwaitsBody;
    assert i <= |init| ==> (init + [t])[..i] == init[..i];
    assert init[..|init|] == init;
  }

  lemma NoMarkerYet(source: seq<Lexeme>)
    requires source == []
    ensures !exists i :: MarkerAfterHeader(source, i)
  {
  }

  /**
    Deleting the virtual tokens gives back the source, in order, by kind and text -- for every
    sequence of lexemes, unless a marker word follows a module header.  Where no lexeme but the last
    is the end of file, that can be seen on the source.
   */
  lemma SourceSurvives(source: seq<Lexeme>)
    requires Layout(source).Running?
    ensures Bare(Layout(source).tokens) == Spelled(source) <==> !LosesOne(source)
    ensures source == [] || NoEof(source[..|source| - 1])
            ==> (Bare(Layout(source).tokens) == Spelled(source) <==> !exists i :: MarkerAfterHeader(source, i))
  {
    hide Layout, Bare, Loses, LosesOne, MarkerAfterHeader, NoEof;
    Survivors(source);
    if source == [] || NoEof(source[..|source| - 1]) {
      LosesOneOnSource(source);
    }
  }

  /** After every header, a word spelled like a virtual token cannot be told from one. */
  lemma MarkerAfterHeaderIsLost(source: seq<Lexeme>, word: Lexeme)
    requires NoEof(source) && Layout(source).Running? && AwaitsBody(source) && Marker(word.kind)
    ensures Layout(source + [word]).Running?
    ensures Bare(Layout(source + [word]).tokens) != Spelled(source + [word])
  {
    hide Step, Bare, Loses, Layout, AwaitsBody;
    assert (source + [word])[..|source|] == source;
    LosesOnSource(source, word);
    LosesRuns(Layout(source).state, word);
    LayoutSnoc(source, word);
    SourceSurvives(source + [word]);
    assert MarkerAfterHeader(source + [word], |source|);
  }

  lemma LosesRuns(s: State, t: Lexeme)
    requires Loses(s, t)
    ensures Step(s, t).Running?
  {
    hide Header, Scan, BeforeDedent, HandOver, Deliver;
  }

  lemma SameStart(h: State, t: Lexeme)
    ensures BeforeDedent(h, t).startIndent == h.startIndent
  {
    BeforeDedentCarries(h, t);
  }

  lemma ColumnZeroStep(s: State, t: Lexeme)
    requires Inv(s) && s.queue == [] && Header(Scan(s, t), t).startIndent <= 0
    ensures Step(s, t).Running?
  {
    hide Step, OpensModuleBody, DedentRuns;
    StuckExactly(s, t);
    Fresh(s);
    ScanKeeps(Opened(s), s, t);
    HeaderKeeps(Opened(s), Scan(s, t), t);
    BeforeDedentKeeps(Opened(s), Header(Scan(s, t), t), t);
    SameStart(Header(Scan(s, t), t), t);
  }

  lemma StartKept(source: seq<Lexeme>, t: Lexeme)
    ensures StartColumn(source) in {-1, StartColumn(source + [t])}
  {
    assert (source + [t])[..|source|] == source;
  }

  lemma ColumnZeroSnoc(source: seq<Lexeme>, t: Lexeme)
    requires NoEof(source) && !t.kind.EndOfFile? && OrderlyRun(source) && Layout(source).Running?
    requires StartColumn(source + [t]) <= 0
    ensures Step(Layout(source).state, t).Running?
  {
    hide Step, Inv, Header, Scan, Orderly, StartColumn, StartKnown, Layout, OrderlyRun;
    RunNeverBelow(source);
    StartColumnOfRun(source);
    StartStep(Layout(source).state, source, t);
    ColumnZeroStep(Layout(source).state, t);
  }

  /** Where the lexeme that sets the start column stands in column 0, an orderly run never gets stuck. */
  lemma {:induction false} OrderlyColumnZeroRuns(source: seq<Lexeme>)
    requires NoEof(source) && OrderlyRun(source) && StartColumn(source) <= 0
    ensures Layout(source).Running?
  {
    if source != [] {
      hide Step, Orderly, Header, Scan, StartColumn;
      var n := |source| - 1;
      var init := source[..n];
      assert init + [source[n]] == source;
      StartKept(init, source[n]);
      OrderlyColumnZeroRuns(init);
      ColumnZeroSnoc(init, source[n]);
    }
  }

  // ---------------------------------------------------------------------------
  // Which headers are orderly
  // ---------------------------------------------------------------------------

  /** `where` at index `w` ends the module header: no layout keyword before it, no `module` after it. */
  ghost predicate HeaderEnds(source: seq<Lexeme>, w: int) {
    && 0 <= w < |source| && source[w].kind.Where? && source[w].text == "where"
    && (forall i :: 0 <= i < w ==> !LayoutKeyword(source[i].kind))
    && (forall i :: w < i < |source| ==> !source[i].kind.Module?)
    && (forall i :: w < i < |source| && Marker(source[i].kind)
          ==> exists j :: w < j < i && !Blank(source[j].kind))
  }

  /** Either no `module` at all, or a header whose only layout keyword is its closing `where`. */
  ghost predicate PlainHeader(source: seq<Lexeme>) {
    (forall i :: 0 <= i < |source| ==> !source[i].kind.Module?) || exists w :: HeaderEnds(source, w)
  }

  /** Before any layout keyword. */
  predicate Quiet(s: State) {
    s.queue == [] && s.stack == [] && s.nestedLevel == 0 && !s.prevWasKeyWord && s.lastKeyWord == ""
  }

  /** Between the header's `where` and its body. */
  predicate Armed(s: State) {
    && s.queue == [] && s.stack == [] && s.nestedLevel == 1 && s.prevWasKeyWord && s.lastKeyWord == "where"
    && s.moduleStartIndent && s.startIndent == -1 && s.indentCount >= 0
  }

  lemma QuietBefore(h: State, t: Lexeme)
    requires Quiet(h)
    ensures Quiet(BeforeDedent(h, t))
  {
    assert Quiet(ExplicitBrace(h, t));
    assert Quiet(StopIgnoring(OpenInline(ExplicitBrace(h, t), t), t));
  }

  /** Without contexts the dedent block adds at most a separator. */
  lemma QuietDedent(d: State)
    requires Quiet(d) && Closable(d, d.indentCount)
    ensures Quiet(Dedent(d).(queue := []))
  {
  }

  lemma QuietAfter(d: State, t: Lexeme)
    requires Quiet(d.(queue := [])) && !LayoutKeyword(t.kind)
    ensures Quiet(AfterDedent(d, t).(queue := []))
  {
    assert OpenIndented(d, t) == d;
  }

  lemma QuietDeliver(e: State, t: Lexeme, hidden: bool)
    requires Quiet(e.(queue := [])) && !t.kind.EndOfFile?
    ensures Deliver(e, t, hidden).Running? && Quiet(Deliver(e, t, hidden).state)
  {
    assert e.stack == [];
    assert ProcessIn(e).nestedLevel == e.nestedLevel && ProcessIn(e).stack == [];
  }

  lemma QuietProceed(h: State, t: Lexeme, hidden: bool)
    requires Quiet(h) && !LayoutKeyword(t.kind) && !t.kind.EndOfFile? && Proceed(h, t, hidden).Running?
    ensures Quiet(Proceed(h, t, hidden).state)
  {
    hide BeforeDedent, DedentRuns, Closable, Deliver, Dedent, AfterDedent;
    var d := BeforeDedent(h, t);
    QuietBefore(h, t);
    if DedentRuns(d, t) {
      QuietDedent(d);
      QuietAfter(Dedent(d), t);
    } else {
      QuietAfter(d, t);
    }
    QuietDeliver(HandOver(d, t), t, hidden);
  }

  /** The header's `where`. */
  lemma WhereProceed(h: State, t: Lexeme)
    requires Quiet(h) && t.kind.Where? && t.text == "where" && Proceed(h, t, false).Running?
    requires h.moduleStartIndent ==> h.startIndent == -1 && h.indentCount >= 0
    ensures var s' := Proceed(h, t, false).state; Armed(s') || !s'.moduleStartIndent
  {
    var d := BeforeDedent(h, t);
    assert d.stack == [] && d.nestedLevel == 0 && !d.prevWasKeyWord;
    assert d.moduleStartIndent == h.moduleStartIndent && d.startIndent == h.startIndent && d.indentCount == h.indentCount;
    assert !DedentRuns(d, t);
  }

  lemma ArmedBefore(h: State, t: Lexeme)
    requires Armed(h) && Blank(t.kind)
    ensures BeforeDedent(h, t) == h && !DedentRuns(h, t) && OpenIndented(h, t) == h
  {
    assert ExplicitBrace(h, t) == h;
    assert OpenInline(h, t) == h;
    assert StopIgnoring(h, t) == h;
  }

  lemma ArmedProceed(h: State, t: Lexeme, hidden: bool)
    requires Armed(h) && !t.kind.EndOfFile? && Proceed(h, t, hidden).Running?
    ensures var s' := Proceed(h, t, hidden).state; if Blank(t.kind) then Armed(s') else !s'.moduleStartIndent
  {
    hide BeforeDedent, OpenIndented, DedentRuns, Closable;
    if Blank(t.kind) {
      ArmedBefore(h, t);
    } else if t.kind.OCurly? {
      DisarmedBefore(h, t);
      DisarmedFrom(BeforeDedent(h, t), t, hidden);
    }
  }

  lemma DisarmedBefore(h: State, t: Lexeme)
    requires h.moduleStartIndent ==> t.kind.OCurly?
    ensures !BeforeDedent(h, t).moduleStartIndent
  {
    assert !ExplicitBrace(h, t).moduleStartIndent;
    assert !OpenInline(ExplicitBrace(h, t), t).moduleStartIndent;
  }

  lemma DisarmedAfter(d: State, t: Lexeme)
    requires !d.moduleStartIndent
    ensures !AfterDedent(d, t).moduleStartIndent
  {
    assert !OpenIndented(d, t).moduleStartIndent;
  }

  lemma DisarmedFrom(d: State, t: Lexeme, hidden: bool)
    requires !d.moduleStartIndent && (DedentRuns(d, t) ==> Closable(d, d.indentCount))
    requires Deliver(HandOver(d, t), t, hidden).Running?
    ensures !Deliver(HandOver(d, t), t, hidden).state.moduleStartIndent
  {
    hide AfterDedent, DedentRuns, Closable;
    DisarmedAfter(if DedentRuns(d, t) then Dedent(d) else d, t);
  }

  lemma DisarmedProceed(h: State, t: Lexeme, hidden: bool)
    requires !h.moduleStartIndent && Proceed(h, t, hidden).Running?
    ensures !Proceed(h, t, hidden).state.moduleStartIndent
  {
    hide BeforeDedent, DedentRuns, Closable, Deliver, HandOver;
    DisarmedBefore(h, t);
    DisarmedFrom(BeforeDedent(h, t), t, hidden);
  }

  /** Where the run stands after `n` lexemes, `w` being the index of the header's `where` or -1 if there is no header. */
  ghost predicate Phase(source: seq<Lexeme>, w: int, n: nat, s: State)
    requires n <= |source| && -1 <= w
  {
    if n <= w then Quiet(s)
    else !s.moduleStartIndent || (0 <= w && Armed(s) && forall i :: w < i < n ==> Blank(source[i].kind))
  }

  ghost predicate HeaderAt(source: seq<Lexeme>, w: int) {
    if w == -1 then forall i :: 0 <= i < |source| ==> !source[i].kind.Module? else HeaderEnds(source, w)
  }

  lemma HeaderPreserves(s: State, t: Lexeme)
    ensures var h := Header(Scan(s, t), t);
            && (Quiet(s) ==> Quiet(h))
            && (!t.kind.Module? ==> h.moduleStartIndent == s.moduleStartIndent)
            && (Armed(s) && !t.kind.Module? ==> Armed(h))
  {
  }

  /** One lexeme of a run with a plain header: it is orderly, and leads to the next phase. */
  lemma PlainStep(source: seq<Lexeme>, w: int, n: nat, s: State)
    requires NoEof(source) && -1 <= w && HeaderAt(source, w) && n < |source| && Phase(source, w, n, s) && Inv(s)
    ensures Orderly(Header(Scan(s, source[n]), source[n]), source[n])
    ensures Step(s, source[n]).Running? ==> Phase(source, w, n + 1, Step(s, source[n]).state)
  {
    hide Header, Scan, Proceed, Opened, Depth, Low;
    var t := source[n];
    var h := Header(Scan(s, t), t);
    HeaderPreserves(s, t);
    HeaderInv(s, t);
    if Step(s, t).Running? {
      if n < w {
        QuietProceed(h, t, Hidden(s, t));
      } else if n == w {
        WhereProceed(h, t);
      } else if !s.moduleStartIndent {
        DisarmedProceed(h, t, Hidden(s, t));
      } else {
        ArmedProceed(h, t, Hidden(s, t));
      }
    }
    assert w < n && s.moduleStartIndent ==> !Marker(t.kind);
  }

  lemma HeaderInv(s: State, t: Lexeme)
    requires Inv(s)
    ensures Inv(Header(Scan(s, t), t))
  {
    hide Header, Depth, Low;
    Fresh(s.(queue := []));
    ScanKeeps(Opened(s), s.(queue := []), t);
    HeaderInv1(Scan(s, t), t);
  }

  lemma HeaderInv1(s: State, t: Lexeme)
    requires Inv(s)
    ensures Inv(Header(s, t))
  {
  }

  lemma {:induction false} PlainRun(source: seq<Lexeme>, w: int, n: nat)
    requires NoEof(source) && -1 <= w && HeaderAt(source, w) && n <= |source|
    ensures OrderlyRun(source[..n])
    ensures Layout(source[..n]).Running? ==> Phase(source, w, n, Layout(source[..n]).state)
  {
    hide Step, Header, Scan, Orderly, Phase, HeaderAt, Opened, Depth, Low, Inv;
    if n == 0 {
      PhaseInit(source, w);
    } else {
      PlainRun(source, w, n - 1);
      assert source[..n][..n - 1] == source[..n - 1];
      if Layout(source[..n - 1]).Running? {
        RunNeverBelow(source[..n - 1]);
        PlainStep(source, w, n - 1, Layout(source[..n - 1]).state);
      }
    }
  }

  lemma PhaseInit(source: seq<Lexeme>, w: int)
    requires -1 <= w
    ensures Phase(source, w, 0, INIT)
  {
  }

  /** Every source without a `module`, or with a plain header, is orderly throughout. */
  lemma PlainHeaderIsOrderly(source: seq<Lexeme>)
    requires NoEof(source) && PlainHeader(source)
    ensures OrderlyRun(source)
  {
    hide HeaderEnds, OrderlyRun, NoEof;
    assert source[..|source|] == source;
    if forall i :: 0 <= i < |source| ==> !source[i].kind.Module? {
      PlainRun(source, -1, |source|);
    } else {
      var w :| HeaderEnds(source, w);
      assert 0 <= w by { HeaderIndex(source, w); }
      PlainRun(source, w, |source|);
    }
  }

  /** A complete file with a plain header: its virtual braces balance, and never close too much. */
  lemma PlainFileBalances(source: seq<Lexeme>, eof: Lexeme)
    requires NoEof(source) && PlainHeader(source) && Layout(source).Running? && eof.kind.EndOfFile?
    requires var s := Layout(source).state;
             && !s.prevWasKeyWord && !s.moduleStartIndent && s.startIndent >= 0
             && (forall i :: 0 <= i < |s.stack| ==> s.stack[i].column > s.startIndent)
    ensures Layout(source + [eof]).Running?
    ensures var tokens := Layout(source + [eof]).tokens;
            Depth(tokens) == 0 && (forall i :: 0 <= i <= |tokens| ==> Depth(tokens[..i]) >= 0)
  {
    hide Layout, Depth, NoEof, PlainHeader, OrderlyRun;
    PlainHeaderIsOrderly(source);
    CompleteFileBalances(source, eof);
  }

  /** With a plain header and the first lexeme of its body, or of the file, in column 0, the lexer gets through every source. */
  lemma ColumnZeroRuns(source: seq<Lexeme>)
    requires NoEof(source) && PlainHeader(source) && StartColumn(source) <= 0
    ensures Layout(source).Running?
  {
    hide *;
    PlainHeaderIsOrderly(source);
    OrderlyColumnZeroRuns(source);
  }

  lemma HeaderIndex(source: seq<Lexeme>, w: int)
    requires HeaderEnds(source, w)
    ensures 0 <= w
  {
  }

  // ---------------------------------------------------------------------------
  // Where the guarantees stop
  // ---------------------------------------------------------------------------

  /** Nothing is going on: the lexer waits for the next line's first lexeme. */
  predicate Idle(s: State) {
    s.queue == [] && !s.prevWasKeyWord && !s.prevWasEndl && s.pendingDent && !s.moduleStartIndent && s.lastKeyWord == ""
  }

  /** An idle lexer passes `module` and ordinary lexemes through. */
  lemma PassesThrough(s: State, t: Lexeme)
    requires Idle(s) && (t.kind.Plain? || t.kind.Module?)
    ensures Step(s, t) == Running(Header(s, t), [Token(t.kind, t.text, false)])
  {
    var h := Header(s, t);
    assert Scan(s, t) == s;
    assert Idle(h.(moduleStartIndent := false)) && !OpensModuleBody(h, t);
    PassesBody(h, t);
  }

  lemma PassesBody(h: State, t: Lexeme)
    requires Idle(h.(moduleStartIndent := false)) && (t.kind.Plain? || t.kind.Module?)
    ensures Proceed(h, t, false) == Running(h, [Token(t.kind, t.text, false)])
  {
    assert BeforeDedent(h, t) == h;
    assert HandOver(h, t) == h;
  }

  lemma NewlinePasses(s: State, t: Lexeme)
    requires Idle(s) && t.kind.Newline?
    ensures Step(s, t).Running? && Step(s, t).state == s.(indentCount := 0, prevWasEndl := true)
  {
    var h := s.(indentCount := 0);
    assert Header(Scan(s, t), t) == h;
    assert BeforeDedent(h, t) == h;
    assert HandOver(h, t) == h.(prevWasEndl := true);
  }

  lemma LayoutSnoc(source: seq<Lexeme>, t: Lexeme)
    requires Layout(source).Running?
    ensures var Running(s, tokens) := Layout(source);
            match Step(s, t)
            case Stuck => Layout(source + [t]).Stuck?
            case Running(s', more) => Layout(source + [t]) == Running(s', tokens + more)
  {
    hide Step;
    assert (source + [t])[..|source|] == source;
  }

  /** A file that is only a header keyword has a block closed that was never opened. */
  lemma HeaderWithoutBody(moduleWord: Lexeme, eof: Lexeme)
    requires moduleWord.kind.Module? && eof.kind.EndOfFile?
    ensures Layout([moduleWord, eof]).Running? && Depth(Layout([moduleWord, eof]).tokens) == -1
  {
    hide Step, Orderly, Depth, Low, OrderlyRun, Layout;
    var source := [moduleWord];
    LoneModule(moduleWord);
    LoneModuleIsOrderly(moduleWord);
    var s := Layout(source).state;
    assert Header(Scan(s, eof), eof) == s && BeforeDedent(s, eof) == s;
    FileBalance(source, eof);
    assert source + [eof] == [moduleWord, eof];
  }

  lemma LoneModule(t: Lexeme)
    requires t.kind.Module?
    ensures Layout([t]).Running? && Layout([t]).state == INIT.(moduleStartIndent := true, wasModuleExport := true)
  {
    hide Step;
    PassesThrough(INIT, t);
    LayoutSnoc([], t);
    assert [] + [t] == [t];
  }

  lemma LoneModuleIsOrderly(t: Lexeme)
    requires t.kind.Module?
    ensures OrderlyRun([t])
  {
    assert [t][..0] == [];
    assert Scan(INIT, t) == INIT;
  }

  /** A layout keyword that neither closes nor opens anything. */
  lemma KeywordWaits(s: State, t: Lexeme)
    requires s.queue == [] && s.stack == [] && s.pendingDent && !s.prevWasKeyWord && !s.ignoreIndent && !s.moduleStartIndent
    requires (t.kind.Do? || t.kind.Where?) && Header(s, t) == s
    ensures Step(s, t) == Running(s.(prevWasEndl := false, prevWasKeyWord := true, lastKeyWord := t.text,
                                     nestedLevel := s.nestedLevel + 1), [Token(t.kind, t.text, false)])
  {
    assert Scan(s, t) == s && !OpensModuleBody(s, t) && !DedentRuns(s, t);
    assert BeforeDedent(s, t) == s && OpenIndented(s, t) == s;
  }

  /** A keyword waits through blanks. */
  lemma BlankWaits(s: State, t: Lexeme)
    requires s.queue == [] && s.stack == [] && s.pendingDent && s.prevWasKeyWord && !s.ignoreIndent && !s.moduleStartIndent
    requires t.kind.Newline? || t.kind.Ws?
    ensures Step(s, t).Running? && Step(s, t).state == Scan(s, t).(prevWasEndl := s.prevWasEndl || t.kind.Newline?)
  {
    var h := Scan(s, t);
    assert Header(h, t) == h && !OpensModuleBody(h, t) && !DedentRuns(h, t);
    assert BeforeDedent(h, t) == h && OpenIndented(h, t) == h;
  }

  /** A block on the line of its keyword. */
  lemma BlockOpens(s: State, t: Lexeme)
    requires s.queue == [] && s.stack == [] && s.pendingDent && s.prevWasKeyWord && !s.ignoreIndent && !s.moduleStartIndent
    requires !s.prevWasEndl && (t.kind.Plain? || t.kind.ClosePragma?) && Header(s, t) == s
    ensures Step(s, t) == Running(s.(inPragmas := s.inPragmas && !t.kind.ClosePragma?, prevWasKeyWord := false,
                                     stack := [Context(s.lastKeyWord, t.column)]),
                                  [VOCURLY, Token(t.kind, t.text, false)])
  {
    assert Scan(s, t) == s && !OpensModuleBody(s, t);
    var d := s.(inPragmas := s.inPragmas && !t.kind.ClosePragma?, prevWasKeyWord := false,
                stack := [Context(s.lastKeyWord, t.column)], queue := [VOCURLY]);
    assert BeforeDedent(s, t) == d && !DedentRuns(d, t) && AfterDedent(d, t) == d;
  }

  lemma NoModuleIsOrderly(source: seq<Lexeme>)
    requires forall t :: t in source ==> !t.kind.EndOfFile? && !t.kind.Module?
    ensures NoEof(source) && OrderlyRun(source)
  {
    hide OrderlyRun;
    PlainHeaderIsOrderly(source);
  }

  lemma KeywordAndIndent(x: Lexeme, doWord: Lexeme, nl: Lexeme, ws: Lexeme)
    requires x.kind.Plain? && doWord.kind.Do? && nl.kind.Newline? && ws.kind.Ws?
    ensures Layout([x, doWord, nl, ws]).Running?
    ensures Layout([x, doWord, nl, ws]).state
            == INIT.(startIndent := x.column, prevWasKeyWord := true, lastKeyWord := doWord.text, nestedLevel := 1,
                     prevWasEndl := true, indentCount := |ws.text|)
  {
    hide Step;
    assert [] + [x] == [x] && [x] + [doWord] == [x, doWord] && [x, doWord] + [nl] == [x, doWord, nl];
    assert [x, doWord, nl] + [ws] == [x, doWord, nl, ws];
    PassesThrough(INIT, x);
    LayoutSnoc([], x);
    var s1 := INIT.(startIndent := x.column);
    KeywordWaits(s1, doWord);
    LayoutSnoc([x], doWord);
    var s2 := s1.(prevWasKeyWord := true, lastKeyWord := doWord.text, nestedLevel := 1);
    BlankWaits(s2, nl);
    LayoutSnoc([x, doWord], nl);
    BlankWaits(s2.(prevWasEndl := true), ws);
    LayoutSnoc([x, doWord, nl], ws);
  }

  /** A layout keyword followed only by indentation has a block closed that was never opened. */
  lemma KeywordThenIndent(x: Lexeme, doWord: Lexeme, nl: Lexeme, ws: Lexeme, eof: Lexeme)
    requires x.kind.Plain? && doWord.kind.Do? && nl.kind.Newline? && ws.kind.Ws? && eof.kind.EndOfFile?
    requires |ws.text| > x.column
    ensures Layout([x, doWord, nl, ws, eof]).Running? && Depth(Layout([x, doWord, nl, ws, eof]).tokens) == -1
  {
    hide Step, Depth, Low, OrderlyRun, NoEof, Layout;
    var source := [x, doWord, nl, ws];
    KeywordAndIndent(x, doWord, nl, ws);
    var s := Layout(source).state;
    assert Header(Scan(s, eof), eof) == s && BeforeDedent(s, eof) == s;
    NoModuleIsOrderly(source);
    FileBalance(source, eof);
    assert source + [eof] == [x, doWord, nl, ws, eof];
  }

  lemma InlineContext(x: Lexeme, nl: Lexeme, doWord: Lexeme, y: Lexeme)
    requires x.kind.Plain? && nl.kind.Newline? && doWord.kind.Do? && y.kind.Plain?
    ensures Layout([x, nl, doWord, y]).Running?
    ensures Layout([x, nl, doWord, y]).state
            == INIT.(startIndent := x.column, lastKeyWord := doWord.text, nestedLevel := 1, stack := [Context(doWord.text, y.column)])
  {
    hide Step;
    assert [] + [x] == [x] && [x] + [nl] == [x, nl] && [x, nl] + [doWord] == [x, nl, doWord];
    assert [x, nl, doWord] + [y] == [x, nl, doWord, y];
    PassesThrough(INIT, x);
    LayoutSnoc([], x);
    var s1 := INIT.(startIndent := x.column);
    NewlinePasses(s1, nl);
    LayoutSnoc([x], nl);
    KeywordWaits(s1.(prevWasEndl := true), doWord);
    LayoutSnoc([x, nl], doWord);
    BlockOpens(s1.(prevWasKeyWord := true, lastKeyWord := doWord.text, nestedLevel := 1), y);
    LayoutSnoc([x, nl, doWord], y);
  }

  /** A context at or left of the start column stays open at the end of file. */
  lemma ContextLeftOfStart(x: Lexeme, nl: Lexeme, doWord: Lexeme, y: Lexeme, eof: Lexeme)
    requires x.kind.Plain? && nl.kind.Newline? && doWord.kind.Do? && y.kind.Plain? && eof.kind.EndOfFile?
    requires y.column <= x.column
    ensures Layout([x, nl, doWord, y, eof]).Running? && Depth(Layout([x, nl, doWord, y, eof]).tokens) == 1
  {
    hide Step, Depth, Low, OrderlyRun, NoEof, Layout;
    var source := [x, nl, doWord, y];
    InlineContext(x, nl, doWord, y);
    var s := Layout(source).state;
    assert Header(Scan(s, eof), eof) == s && BeforeDedent(s, eof) == s && Kept(s.stack, x.column) == 1;
    NoModuleIsOrderly(source);
    FileBalance(source, eof);
    assert source + [eof] == [x, nl, doWord, y, eof];
  }

  /** A layout keyword in a pragma before `module`: the module body opens over a context, and counter and depth part. */
  lemma KeywordInPragma(open: Lexeme, whereWord: Lexeme, close: Lexeme, moduleWord: Lexeme)
    requires open.kind.OpenPragma? && whereWord.kind.Where? && whereWord.text == "where"
    requires close.kind.ClosePragma? && moduleWord.kind.Module?
    ensures Layout([open, whereWord, close, moduleWord]).Running?
    ensures var Running(s, tokens) := Layout([open, whereWord, close, moduleWord]);
            s.nestedLevel == 0 && |s.stack| == 1 && Opened(s) == 1 && Depth(tokens) == 2
    ensures !OrderlyRun([open, whereWord, close, moduleWord])
  {
    hide Step, Depth, Low, OrderlyRun, DedentRuns, Closable;
    var all := [open, whereWord, close, moduleWord];
    assert [] + [open] == [open] && [open] + [whereWord] == [open, whereWord];
    assert [open, whereWord] + [close] == [open, whereWord, close] && [open, whereWord, close] + [moduleWord] == all;
    PragmaOpens(open);
    LayoutSnoc([], open);
    var s1 := INIT.(inPragmas := true);
    KeywordWaits(s1, whereWord);
    LayoutSnoc([open], whereWord);
    var s2 := s1.(prevWasKeyWord := true, lastKeyWord := "where", nestedLevel := 1);
    BlockOpens(s2, close);
    LayoutSnoc([open, whereWord], close);
    var s3 := s2.(inPragmas := false, prevWasKeyWord := false, stack := [Context("where", close.column)]);
    ModuleOpens(s3, moduleWord);
    LayoutSnoc([open, whereWord, close], moduleWord);
    var token := Token(moduleWord.kind, moduleWord.text, false);
    TwoOpened(Token(open.kind, open.text, false), Token(whereWord.kind, whereWord.text, false),
              Token(close.kind, close.text, false), token);
    assert [] + [Token(open.kind, open.text, false)] == [Token(open.kind, open.text, false)];
    if OrderlyRun(all) {
      RunNeverBelow(all);
    }
  }

  lemma PragmaOpens(t: Lexeme)
    requires t.kind.OpenPragma?
    ensures Step(INIT, t) == Running(INIT.(inPragmas := true), [Token(t.kind, t.text, false)])
  {
    var h := INIT.(inPragmas := true);
    assert Header(Scan(INIT, t), t) == h && BeforeDedent(h, t) == h && HandOver(h, t) == h;
  }

  lemma ModuleOpens(s: State, t: Lexeme)
    requires s.queue == [] && s.startIndent == -1 && s.lastKeyWord == "where" && t.kind.Module?
    ensures Step(s, t).Running?
    ensures var Running(s', tokens) := Step(s, t);
            && s'.nestedLevel == 0 && s'.stack == s.stack && Opened(s') == 1
            && tokens == [VOCURLY, Token(t.kind, t.text, false)]
  {
    assert OpensModuleBody(Header(Scan(s, t), t), t);
  }

  lemma TwoOpened(a: Token, b: Token, c: Token, d: Token)
    requires !Virtual(a) && !Virtual(b) && !Virtual(c) && !Virtual(d)
    ensures Depth([a] + [b] + [VOCURLY, c] + [VOCURLY, d]) == 2
  {
    hide Depth, Low;
    One(a);
    One(b);
    One(VOCURLY);
    AroundToken(c, [VOCURLY]);
    AroundToken(d, [VOCURLY]);
    assert [VOCURLY] + [c] == [VOCURLY, c] && [VOCURLY] + [d] == [VOCURLY, d];
    Concat([a], [b]);
    Concat([a] + [b], [VOCURLY, c]);
    Concat([a] + [b] + [VOCURLY, c], [VOCURLY, d]);
  }

  /** A line left of the first one's column makes `nextToken` loop for ever. */
  lemma ShallowLineDiverges(x: Lexeme, nl: Lexeme, y: Lexeme)
    requires x.kind.Plain? && nl.kind.Newline? && y.kind.Plain? && 0 < x.column
    ensures Layout([x, nl, y]).Stuck?
  {
    hide Step;
    assert [] + [x] == [x] && [x] + [nl] == [x, nl] && [x, nl] + [y] == [x, nl, y];
    var s1 := INIT.(startIndent := x.column);
    PassesThrough(INIT, x);
    LayoutSnoc([], x);
    NewlinePasses(s1, nl);
    LayoutSnoc([x], nl);
    ShallowStep(s1.(prevWasEndl := true), y);
    LayoutSnoc([x, nl], y);
  }

  lemma ShallowStep(s: State, y: Lexeme)
    requires y.kind.Plain? && s.pendingDent && s.prevWasEndl && !s.prevWasKeyWord && !s.ignoreIndent
    requires s.stack == [] && 0 <= s.indentCount < s.startIndent
    ensures Step(s, y).Stuck?
  {
    assert Header(Scan(s, y), y) == s;
    assert BeforeDedent(s, y) == s;
  }
}
