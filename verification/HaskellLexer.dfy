/**
  The Haskell lexer as the source has it: an object whose fields `NextToken` updates, with the
  closing loops as loops.  Each method is proved against `HaskellLayout`.
 */
module HaskellLexer {
  import opened Wrappers
  import opened HaskellLayout
  import HaskellProofs
  import HaskellRuns

  class HaskellBaseLexer {
    const source: seq<Lexeme>  // what the generated lexer will match
    const eof: Lexeme          // and returns for ever after
    var pos: nat

    var pendingDent: bool
    var indentCount: int
    var tokenQueue: seq<Token>
    var indentStack: seq<Context>
    var lastKeyWord: string
    var prevWasEndl: bool
    var prevWasKeyWord: bool
    var ignoreIndent: bool
    var moduleStartIndent: bool
    var wasModuleExport: bool
    var inPragmas: bool
    var startIndent: int
    var nestedLevel: int

    constructor (source: seq<Lexeme>, eof: Lexeme)
      ensures this.source == source && this.eof == eof && pos == 0 && View() == INIT
    {
      this.source, this.eof, pos := source, eof, 0;
      pendingDent, indentCount, tokenQueue, indentStack, lastKeyWord := true, 0, [], [], "";
      prevWasEndl, prevWasKeyWord, ignoreIndent, moduleStartIndent := false, false, false, false;
      wasModuleExport, inPragmas, startIndent, nestedLevel := false, false, -1, 0;
    }

    function View(): State
      reads this
    {
      State(pendingDent, indentCount, tokenQueue, indentStack, lastKeyWord, prevWasEndl, prevWasKeyWord,
            ignoreIndent, moduleStartIndent, wasModuleExport, inPragmas, startIndent, nestedLevel)
    }

    /** The lexeme the generated lexer matches next. */
    function Upcoming(): Lexeme
      reads this
    {
      if pos < |source| then source[pos] else eof
    }

    method GetSavedIndent() returns (c: int)
      ensures c == SavedIndent(View())
    {
      c := if indentStack == [] then startIndent else indentStack[|indentStack| - 1].column;
    }

    /** `super.nextToken()`: matches a lexeme and runs its lexer action. */
    method Match() returns (t: Lexeme, hidden: bool)
      modifies this
      ensures t == old(Upcoming()) && hidden == Hidden(old(View()), t)
      ensures View() == Scan(old(View()), t)
      ensures pos == if old(pos) < |source| then old(pos) + 1 else old(pos)
    {
      t := Upcoming();
      if pos < |source| {
        pos := pos + 1;
      }
      hidden := Marker(t.kind);
      if t.kind.Newline? {
        hidden := pendingDent;
        indentCount := 0;
      } else if t.kind.Tab? {
        hidden := true;
        if pendingDent {
          indentCount := indentCount + 8 * |t.text|;
        }
      } else if t.kind.Ws? {
        hidden := true;
        if pendingDent {
          indentCount := indentCount + |t.text|;
        }
      }
    }

    /** The two closing loops; `ends` is false where the second one never ends. */
    method CloseBlocks(c: int) returns (ends: bool)
      modifies this`nestedLevel, this`indentStack, this`tokenQueue
      ensures ends == Closable(old(View()), c)
      ensures ends ==> View() == HaskellLayout.CloseBlocks(old(View()), c)
    {
      hide Closable, HaskellLayout.CloseBlocks, AfterLoops;
      ends := Closable(View(), c);
      if !ends {
        return;
      }
      ghost var s := View();
      RunLoops(c);
      ghost var s1 := View();
      var saved := GetSavedIndent();
      if saved == c {
        tokenQueue := tokenQueue + [SEMI];
        assert View() == s1.(queue := s1.queue + [SEMI]);
      }
      ClosedInTwo(s, c);
    }

    /** The fields after both loops. */
    static function AfterLoops(s: State, c: int): State
      requires Closable(s, c)
    {
      var kept := Kept(s.stack, c);
      s.(nestedLevel := Levelled(s) - (|s.stack| - kept), stack := s.stack[..kept],
         queue := s.queue + Closers(s.nestedLevel - Levelled(s)) + Closers(|s.stack| - kept))
    }

    method RunLoops(c: int)
      requires Closable(View(), c)
      modifies this`nestedLevel, this`indentStack, this`tokenQueue
      ensures View() == AfterLoops(old(View()), c)
    {
      hide Closable, Closers, Kept, Levelled;
      ghost var s := View();
      CloseExcess();
      ClosableLevelled(s, c, tokenQueue);
      PopDeeper(c);
    }

    static lemma ClosableLevelled(s: State, c: int, queue: seq<Token>)
      requires Closable(s, c)
      ensures Closable(s.(nestedLevel := Levelled(s), queue := queue), c)
      ensures Levelled(s.(nestedLevel := Levelled(s), queue := queue)) == Levelled(s)
    {
    }

    /** The closed form, loop by loop. */
    static lemma ClosedInTwo(s: State, c: int)
      requires Closable(s, c)
      ensures var s1 := AfterLoops(s, c);
              HaskellLayout.CloseBlocks(s, c)
              == if SavedIndent(s1) == c then s1.(queue := s1.queue + [SEMI]) else s1
    {
      hide Closers, Kept;
      var m, n := s.nestedLevel - Levelled(s), |s.stack| - Kept(s.stack, c);
      ClosersAdd(m, n);
      assert s.queue + Closers(m) + Closers(n) == s.queue + (Closers(m) + Closers(n));
    }

    static lemma {:induction false} ClosersAdd(m: nat, n: nat)
      ensures Closers(m) + Closers(n) == Closers(m + n)
    {
      if n == 0 {
        assert Closers(m) + [] == Closers(m);
      } else {
        ClosersAdd(m, n - 1);
        assert Closers(m) + (Closers(n - 1) + [SEMI, VCCURLY]) == Closers(m) + Closers(n - 1) + [SEMI, VCCURLY];
      }
    }

    /** First loop: closes blocks that have no context. */
    method CloseExcess()
      modifies this`nestedLevel, this`tokenQueue
      ensures var s, level := old(View()), Levelled(old(View()));
              View() == s.(nestedLevel := level, queue := s.queue + Closers(s.nestedLevel - level))
    {
      ghost var n, before, level := nestedLevel, tokenQueue, Levelled(View());
      while nestedLevel > |indentStack|
        invariant level <= nestedLevel <= n && level == (if nestedLevel > |indentStack| then |indentStack| else nestedLevel)
        invariant tokenQueue == before + Closers(n - nestedLevel)
      {
        nestedLevel := nestedLevel - 1;
        tokenQueue := tokenQueue + [SEMI, VCCURLY];
      }
    }

    /** Second loop: each iteration pops exactly one context, so the stack is its measure. */
    method PopDeeper(c: int)
      requires nestedLevel == Levelled(View()) && Closable(View(), c)
      modifies this`nestedLevel, this`indentStack, this`tokenQueue
      ensures indentStack == old(indentStack)[..Kept(old(indentStack), c)]
      ensures nestedLevel == old(nestedLevel) - (old(|indentStack|) - |indentStack|)
      ensures tokenQueue == old(tokenQueue) + Closers(old(|indentStack|) - |indentStack|)
    {
      ghost var stack, level, before, kept := indentStack, nestedLevel, tokenQueue, Kept(indentStack, c);
      ghost var n := |stack|;
      assert kept == n || n - kept <= nestedLevel;
      assert kept > 0 || startIndent <= c;
      hide Kept, Closers, Closable, Levelled;
      ClosersNone(before);
      assert stack[..n] == stack;
      var saved := GetSavedIndent();
      while c < saved
        invariant saved == if indentStack == [] then startIndent else indentStack[|indentStack| - 1].column
        invariant kept <= |indentStack| <= n && indentStack == stack[..|indentStack|]
        invariant nestedLevel == level - (n - |indentStack|) && tokenQueue == before + Closers(n - |indentStack|)
        decreases |indentStack|
      {
        assert |indentStack| > kept;
        ClosersMore(before, n - |indentStack|);
        if indentStack != [] && nestedLevel > 0 {
          indentStack := indentStack[..|indentStack| - 1];
          nestedLevel := nestedLevel - 1;
        }
        tokenQueue := tokenQueue + [SEMI, VCCURLY];
        saved := GetSavedIndent();
      }
    }

    static lemma ClosersNone(queue: seq<Token>)
      ensures queue + Closers(0) == queue
    {
    }

    static lemma ClosersMore(queue: seq<Token>, n: nat)
      ensures queue + Closers(n) + [SEMI, VCCURLY] == queue + Closers(n + 1)
    {
    }

    /** `in` closes contexts down to and including the nearest `let`. */
    method ProcessIN()
      modifies this`nestedLevel, this`indentStack, this`tokenQueue
      ensures View() == ProcessIn(old(View()))
    {
      ghost var stack, level, before, kept := indentStack, nestedLevel, tokenQueue, KeptByIn(indentStack);
      ghost var n := |stack|;
      hide KeptByIn, Closers;
      ClosersNone(before);
      assert stack[..n] == stack;
      while indentStack != [] && indentStack[|indentStack| - 1].keyword != "let"
        invariant |indentStack| <= n && indentStack == stack[..|indentStack|] && KeptByIn(indentStack) == kept
        invariant nestedLevel == level - (n - |indentStack|) && tokenQueue == before + Closers(n - |indentStack|)
      {
        KeptByInStep(indentStack);
        ClosersMore(before, n - |indentStack|);
        PopContext();
      }
      KeptByInStep(indentStack);
      ClosersMore(before, n - |indentStack|);
      if indentStack != [] && indentStack[|indentStack| - 1].keyword == "let" {
        PopContext();
      }
    }

    static lemma KeptByInStep(stack: seq<Context>)
      ensures KeptByIn(stack) == if stack == [] then 0
                                 else if stack[|stack| - 1].keyword == "let" then |stack| - 1
                                 else KeptByIn(stack[..|stack| - 1])
    {
    }

    method PopContext()
      requires indentStack != []
      modifies this`nestedLevel, this`indentStack, this`tokenQueue
      ensures tokenQueue == old(tokenQueue) + [SEMI, VCCURLY]
      ensures nestedLevel == old(nestedLevel) - 1 && indentStack == old(indentStack)[..old(|indentStack|) - 1]
    {
      tokenQueue := tokenQueue + [SEMI, VCCURLY];
      nestedLevel := nestedLevel - 1;
      indentStack := indentStack[..|indentStack| - 1];
    }

    method ProcessEOF() returns (ends: bool)
      modifies this
      ensures ends == Closable(old(View()), old(startIndent)) && pos == old(pos)
      ensures ends ==> View() == ProcessEof(old(View()))
    {
      hide Closable, HaskellLayout.CloseBlocks;
      ends := CloseBlocks(startIndent);
      if ends {
        if wasModuleExport {
          tokenQueue := tokenQueue + [VCCURLY];
        }
        indentCount := startIndent;
        startIndent := -1;
      }
    }

    /** Pragma opening, `module`, and the start column; `body` says that a module body starts here. */
    method ReadHeader(t: Lexeme) returns (body: bool)
      modifies this
      ensures View() == Header(old(View()), t) && body == OpensModuleBody(View(), t) && pos == old(pos)
    {
      body := false;
      if t.kind.OpenPragma? {
        inPragmas := true;
      }
      if startIndent == -1 && !t.kind.Newline? && !t.kind.Ws? && !t.kind.Tab? && !t.kind.OCurly? {
        if t.kind.Module? {
          moduleStartIndent := true;
          wasModuleExport := true;
        }
        if !t.kind.Module? && !moduleStartIndent && !inPragmas {
          startIndent := t.column;
        } else if lastKeyWord == "where" && moduleStartIndent {
          body := true;
        }
      }
    }

    method StartModuleBody(t: Lexeme)
      modifies this`lastKeyWord, this`prevWasKeyWord, this`nestedLevel, this`moduleStartIndent, this`prevWasEndl
      modifies this`startIndent, this`tokenQueue
      ensures View() == ModuleBody(old(View()), t)
    {
      lastKeyWord, prevWasKeyWord, nestedLevel, moduleStartIndent := "", false, 0, false;
      prevWasEndl, startIndent := false, t.column;
      tokenQueue := tokenQueue + [VOCURLY, Token(t.kind, t.text, false)];
    }

    /** Pragma closing, and an explicit brace. */
    method ReadBrace(t: Lexeme)
      modifies this`inPragmas, this`nestedLevel, this`prevWasKeyWord, this`moduleStartIndent, this`wasModuleExport
      modifies this`ignoreIndent, this`prevWasEndl
      ensures View() == ExplicitBrace(old(View()), t)
    {
      if t.kind.ClosePragma? {
        inPragmas := false;
      }
      if t.kind.OCurly? {
        if prevWasKeyWord {
          nestedLevel := nestedLevel - 1;
          prevWasKeyWord := false;
        }
        if moduleStartIndent {
          moduleStartIndent := false;
          wasModuleExport := false;
        }
        ignoreIndent := true;
        prevWasEndl := false;
      }
    }

    /** A block opened on its keyword's own line. */
    method OpenInlineBlock(t: Lexeme)
      modifies this
      ensures View() == OpenInline(old(View()), t) && pos == old(pos)
    {
      if prevWasKeyWord && !prevWasEndl && !moduleStartIndent && !Blank(t.kind) && !t.kind.OCurly? {
        prevWasKeyWord := false;
        indentStack := indentStack + [Context(lastKeyWord, t.column)];
        tokenQueue := tokenQueue + [VOCURLY];
      }
    }

    /** The end of an explicit block, and an empty block. */
    method OpenEmptyBlock(t: Lexeme)
      modifies this`ignoreIndent, this`tokenQueue, this`prevWasKeyWord, this`prevWasEndl
      ensures View() == OpenEmpty(StopIgnoring(old(View()), t), t)
    {
      if ignoreIndent && (LayoutKeyword(t.kind) || t.kind.CCurly?) {
        ignoreIndent := false;
      }
      var saved := GetSavedIndent();
      if pendingDent && prevWasKeyWord && !ignoreIndent && indentCount <= saved
         && !t.kind.Newline? && !t.kind.Ws? {
        tokenQueue := tokenQueue + [VOCURLY];
        prevWasKeyWord := false;
        prevWasEndl := true;
      }
    }

    method CloseDedented(t: Lexeme) returns (ends: bool)
      modifies this
      ensures ends == (DedentRuns(old(View()), t) ==> Closable(old(View()), old(indentCount))) && pos == old(pos)
      ensures ends ==> View() == if DedentRuns(old(View()), t) then Dedent(old(View())) else old(View())
    {
      ends := true;
      if DedentRuns(View(), t) {
        ends := CloseBlocks(indentCount);
        if ends {
          prevWasEndl := false;
          if indentCount == startIndent {
            pendingDent := false;
          }
        }
      }
    }

    /** A block opened on a deeper line. */
    method OpenIndentedBlock(t: Lexeme)
      modifies this
      ensures View() == OpenIndented(old(View()), t) && pos == old(pos)
    {
      var saved := GetSavedIndent();
      if pendingDent && prevWasKeyWord && !moduleStartIndent && !ignoreIndent && indentCount > saved
         && !t.kind.Newline? && !t.kind.Ws? && !t.kind.EndOfFile? {
        prevWasKeyWord := false;
        if prevWasEndl {
          indentStack := indentStack + [Context(lastKeyWord, indentCount)];
          prevWasEndl := false;
        }
        tokenQueue := tokenQueue + [VOCURLY];
      }
    }

    /** Line ends and layout keywords. */
    method ReadKeyword(t: Lexeme)
      modifies this`prevWasEndl, this`prevWasKeyWord, this`lastKeyWord, this`nestedLevel, this`indentStack, this`tokenQueue
      ensures View() == Keyword(old(View()), t)
    {
      if t.kind.Newline? {
        prevWasEndl := true;
      }
      if LayoutKeyword(t.kind) {
        AwaitBlock(t);
      }
      if t.kind.OCurly? {
        prevWasKeyWord := false;
      }
    }

    /** A layout keyword, whose block is opened by a later lexeme. */
    method AwaitBlock(t: Lexeme)
      requires LayoutKeyword(t.kind)
      modifies this`prevWasEndl, this`prevWasKeyWord, this`lastKeyWord, this`nestedLevel, this`indentStack, this`tokenQueue
      ensures View() == Keyword(old(View()), t)
    {
      nestedLevel := nestedLevel + 1;
      prevWasKeyWord := true;
      prevWasEndl := false;
      lastKeyWord := t.text;
      if t.kind.Where? {
        EndDoBlock();
      }
    }

    /** `where` ends a `do` block. */
    method EndDoBlock()
      modifies this`nestedLevel, this`indentStack, this`tokenQueue
      ensures var n := old(|indentStack|);
              if n > 0 && (old(indentStack)[n - 1].keyword == "do" || old(indentStack)[n - 1].keyword == "mdo") then
                && tokenQueue == old(tokenQueue) + [SEMI, VCCURLY]
                && indentStack == old(indentStack)[..n - 1] && nestedLevel == old(nestedLevel) - 1
              else unchanged(this)
    {
      if indentStack != [] && (indentStack[|indentStack| - 1].keyword == "do"
                               || indentStack[|indentStack| - 1].keyword == "mdo") {
        PopContext();
      }
    }

    /** From the dedent test to the hand-over. */
    method Proceed(t: Lexeme, hidden: bool) returns (r: Option<Token>)
      requires tokenQueue == [] && !OpensModuleBody(View(), t)
      modifies this
      ensures pos == old(pos) && Delivers(r, HaskellLayout.Proceed(old(View()), t, hidden))
    {
      hide OpensModuleBody, ModuleBody, ExplicitBrace, OpenInline, StopIgnoring, OpenEmpty, Closable,
           DedentRuns, Dedent, OpenIndented, Keyword, Deliver, Delivers;
      ReadBrace(t);
      OpenInlineBlock(t);
      OpenEmptyBlock(t);
      var ends := CloseDedented(t);
      if ends {
        OpenIndentedBlock(t);
        ReadKeyword(t);
        r := HandOver(t, hidden);
      } else {
        r := None;
        NeverReturns(r);
      }
    }

    /** The result and the fields are what `outcome` says: its first token returned, the others queued. */
    predicate Delivers(r: Option<Token>, outcome: Outcome)
      reads this
    {
      match outcome
      case Stuck => r == None
      case Running(s, tokens) => tokens != [] && r == Some(tokens[0]) && View() == s.(queue := tokens[1..])
    }

    lemma DeliversNow(token: Token)
      ensures Delivers(Some(token), Running(View().(queue := []), [token] + tokenQueue))
    {
      assert ([token] + tokenQueue)[1..] == tokenQueue;
    }

    lemma NeverReturns(r: Option<Token>)
      ensures Delivers(None, Stuck)
    {
    }

    method HandOver(t: Lexeme, hidden: bool) returns (r: Option<Token>)
      modifies this
      ensures pos == old(pos) && Delivers(r, Deliver(old(View()), t, hidden))
    {
      hide ProcessIn, ProcessEof, Closable, Delivers;
      DeliversNow(Token(t.kind, t.text, hidden));
      var token := Token(t.kind, t.text, hidden);
      if hidden || t.kind.Newline? {
        return Some(token);
      }
      if t.kind.In? {
        ProcessIN();
      }
      if t.kind.EndOfFile? {
        var ends := ProcessEOF();
        if !ends {
          NeverReturns(None);
          return None;
        }
      }
      r := QueueLast(token);
    }

    method QueueLast(token: Token) returns (r: Option<Token>)
      modifies this
      ensures pos == old(pos)
      ensures Delivers(r, Running(old(View()).(pendingDent := true, queue := []), old(tokenQueue) + [token]))
    {
      pendingDent := true;
      tokenQueue := tokenQueue + [token];
      r := Poll();
    }

    /**
      The next token.  With tokens queued, the oldest; otherwise the first of those that the next
      lexeme causes, the others being queued.  `None` stands for a call that never returns.
     */
    method NextToken() returns (r: Option<Token>)
      modifies this
      ensures old(tokenQueue) != [] ==>
                && r == Some(old(tokenQueue)[0]) && pos == old(pos)
                && View() == old(View()).(queue := old(tokenQueue)[1..])
      ensures old(tokenQueue) == [] ==>
                && pos == (if old(pos) < |source| then old(pos) + 1 else old(pos))
                && Delivers(r, Step(old(View()), old(Upcoming())))
    {
      hide Scan, Header, OpensModuleBody, BeforeDedent, Deliver, HaskellLayout.HandOver, DedentRuns, Closable;
      if tokenQueue != [] {
        r := Poll();
        return;
      }
      var t, hidden := Match();
      var body := ReadHeader(t);
      if body {
        StartModuleBody(t);
        r := Poll();
      } else {
        HeaderQueues(old(View()), t);
        r := Proceed(t, hidden);
      }
    }

    static lemma HeaderQueues(s: State, t: Lexeme)
      ensures Header(Scan(s, t), t).queue == s.queue
    {
    }

    method Poll() returns (r: Option<Token>)
      requires tokenQueue != []
      modifies this
      ensures r == Some(old(tokenQueue)[0]) && pos == old(pos)
      ensures View() == old(View()).(queue := old(tokenQueue)[1..])
    {
      r := Some(tokenQueue[0]);
      tokenQueue := tokenQueue[1..];
    }
  }

  /** What is handed out so far and still queued is what the first `n` lexemes cause. */
  ghost predicate Consumed(lx: HaskellBaseLexer, all: seq<Lexeme>, n: nat, out: seq<Token>)
    requires n <= |all|
    reads lx
  {
    && all == lx.source + [lx.eof] && lx.pos == (if n < |all| then n else n - 1)
    && Layout(all[..n]) == Running(lx.View().(queue := []), out + lx.tokenQueue)
  }

  /** Only the end-of-file lexeme's tokens end with an end-of-file token. */
  ghost predicate Awaited(all: seq<Lexeme>, n: nat, queue: seq<Token>) {
    && (forall i :: 0 <= i < |queue| && queue[i].kind.EndOfFile? ==> n == |all| && i == |queue| - 1)
    && (n == |all| ==> queue != [] && queue[|queue| - 1].kind.EndOfFile?)
  }

  /** A pull that takes a queued token. */
  method PullQueued(lx: HaskellBaseLexer, ghost all: seq<Lexeme>, ghost n: nat, ghost out: seq<Token>)
    returns (r: Token)
    requires n <= |all| && Consumed(lx, all, n, out) && Awaited(all, n, lx.tokenQueue) && lx.tokenQueue != []
    modifies lx
    ensures Consumed(lx, all, n, out + [r]) && |lx.tokenQueue| < old(|lx.tokenQueue|)
    ensures if r.kind.EndOfFile? then n == |all| && lx.tokenQueue == [] else Awaited(all, n, lx.tokenQueue)
  {
    hide Step, Layout;
    ghost var q := lx.tokenQueue;
    var o := lx.NextToken();
    r := o.value;
    assert out + q == out + [q[0]] + q[1..];
  }

  /** A pull that matches a lexeme. */
  method PullFresh(lx: HaskellBaseLexer, ghost all: seq<Lexeme>, ghost n: nat, ghost out: seq<Token>)
    returns (r: Option<Token>)
    requires lx.eof.kind.EndOfFile? && HaskellProofs.NoEof(lx.source) && lx.tokenQueue == []
    requires n < |all| && Consumed(lx, all, n, out)
    modifies lx
    ensures r.None? ==> Layout(all).Stuck?
    ensures r.Some? ==> Consumed(lx, all, n + 1, out + [r.value])
    ensures r.Some? ==> if r.value.kind.EndOfFile? then n + 1 == |all| && lx.tokenQueue == []
                        else Awaited(all, n + 1, lx.tokenQueue)
  {
    hide Step, Layout, HaskellProofs.NoEof, Awaited;
    ghost var s := lx.View();
    assert s == s.(queue := []) && out + [] == out;
    NextLexeme(lx.source, lx.eof, n, s, out);
    r := lx.NextToken();
  }

  /** What pulling on an empty queue does, on values. */
  lemma NextLexeme(source: seq<Lexeme>, eof: Lexeme, n: nat, s: State, out: seq<Token>)
    requires HaskellProofs.NoEof(source) && eof.kind.EndOfFile? && n <= |source| && s.queue == []
    requires Layout((source + [eof])[..n]) == Running(s, out)
    ensures var all := source + [eof];
            match Step(s, all[n])
            case Stuck => Layout(all).Stuck?
            case Running(s', tokens) =>
              && s'.queue == [] && tokens != []
              && Layout(all[..n + 1]) == Running(s', out + [tokens[0]] + tokens[1..])
              && (tokens[0].kind.EndOfFile? ==> n + 1 == |all| && tokens[1..] == [])
              && (!tokens[0].kind.EndOfFile? ==> Awaited(all, n + 1, tokens[1..]))
  {
    hide Step, HaskellProofs.NoEof, HaskellRuns.Bare;
    var all := source + [eof];
    assert all[..n + 1][..n] == all[..n];
    if Step(s, all[n]).Stuck? {
      StuckForEver(all, n + 1);
    } else {
      var tokens := Step(s, all[n]).tokens;
      HaskellRuns.StepBare(s, all[n]);
      HaskellRuns.StepEofLast(s, all[n]);
      EofPlace(source, eof, n);
      assert out + tokens == out + [tokens[0]] + tokens[1..];
    }
  }

  lemma EofPlace(source: seq<Lexeme>, eof: Lexeme, n: nat)
    requires HaskellProofs.NoEof(source) && eof.kind.EndOfFile? && n <= |source|
    ensures (source + [eof])[n].kind.EndOfFile? <==> n == |source|
  {
    assert n < |source| ==> (source + [eof])[n] in source;
  }

  lemma {:induction false} StuckForEver(all: seq<Lexeme>, n: nat)
    requires n <= |all| && Layout(all[..n]).Stuck?
    ensures Layout(all).Stuck?
    decreases |all| - n
  {
    hide Step;
    if n == |all| {
      assert all[..n] == all;
    } else {
      assert all[..n + 1][..n] == all[..n];
      StuckForEver(all, n + 1);
    }
  }

  /**
    A consumer that pulls tokens up to the end of file gets exactly what `Layout` says, `None` where
    the lexer never returns.
   */
  method Tokenize(source: seq<Lexeme>, eof: Lexeme) returns (tokens: Option<seq<Token>>)
    requires HaskellProofs.NoEof(source) && eof.kind.EndOfFile?
    ensures match Layout(source + [eof])
            case Stuck => tokens == None
            case Running(_, ts) => tokens == Some(ts)
  {
    hide Step, HaskellProofs.NoEof;
    var lx := new HaskellBaseLexer(source, eof);
    ghost var all := source + [eof];
    ghost var n := 0;
    var out := [];
    assert all[..0] == [];
    while true
      invariant fresh(lx) && lx.source == source && lx.eof == eof
      invariant n <= |all| && Consumed(lx, all, n, out) && Awaited(all, n, lx.tokenQueue)
      decreases |all| - n, |lx.tokenQueue|
    {
      var token;
      if lx.tokenQueue != [] {
        token := PullQueued(lx, all, n, out);
      } else {
        var r := PullFresh(lx, all, n, out);
        if r.None? {
          return None;
        }
        token, n := r.value, n + 1;
      }
      out := out + [token];
      if token.kind.EndOfFile? {
        assert all[..n] == all && out + [] == out;
        return Some(out);
      }
    }
  }
}
