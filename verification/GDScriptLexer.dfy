/**
  The GDScript lexer: every newline turns into NEWLINE, INDENT and DEDENT tokens on a queue, and
  the end of input closes all open levels.  `super.nextToken` is the loop of the ANTLR runtime:
  it matches rules until one of them is not skipped, and emits EOF when no input is left.
 */
module GDScriptLexer {
  import opened Wrappers
  import opened GDScriptIndents

  datatype Kind = Newline | Indent | Dedent | Eof | Plain

  datatype Token = Token(kind: Kind, hidden: bool)

  const NEWLINE := Token(Newline, false)
  const INDENT := Token(Indent, false)
  const DEDENT := Token(Dedent, false)
  const EOF := Token(Eof, false)

  /** What the generated lexer matches, with the two characters after a newline (-1 at the end). */
  datatype Event =
    | Match(hidden: bool)
    | OpenBrace
    | CloseBrace
    | NewLine(text: string, next: int, nextnext: int)
    | Skip

  datatype State = State(tokens: seq<Token>, indents: seq<nat>, openBraces: int, lastToken: Option<Token>)

  const INIT := State([], [], 0, None)

  /** The text without line ends. */
  function Spacing(text: string): string {
    if text == [] then []
    else
      var ch := text[|text| - 1];
      Spacing(text[..|text| - 1]) + if ch == '\r' || ch == '\n' || ch == '\U{000C}' then [] else [ch]
  }

  /** Inside brackets, or before a blank or comment line, a newline means nothing. */
  predicate Ignored(openBraces: int, e: Event)
    requires e.NewLine?
  {
    openBraces > 0 || (e.nextnext != -1 && e.next in {13, 10, 12, 35})
  }

  /** The width of the line that a newline starts. */
  function Indentation(e: Event): nat
    requires e.NewLine?
  {
    Width(Spacing(e.text), 0)
  }

  function Dedents(n: nat): (r: seq<Token>)
    ensures |r| == n && forall i :: 0 <= i < n ==> r[i] == DEDENT
  {
    seq(n, _ => DEDENT)
  }

  function Emit(s: State, ts: seq<Token>): State {
    s.(tokens := s.tokens + ts)
  }

  /** The tokens of a newline that counts, `c` being the width of the line it starts. */
  function LineTokens(s: State, c: nat): seq<Token> {
    (if s.lastToken.None? then [] else [NEWLINE])
    + (if c > Top(s.indents) then [INDENT] else Dedents(|s.indents| - |Outer(s.indents, c)|))
  }

  /** One matched rule: the new state, and whether the runtime goes on to the next one. */
  function React(s: State, e: Event): (State, bool) {
    match e
    case Match(hidden) => (Emit(s, [Token(Plain, hidden)]), false)
    case OpenBrace => (Emit(s, [Token(Plain, false)]).(openBraces := s.openBraces + 1), false)
    case CloseBrace => (Emit(s, [Token(Plain, false)]).(openBraces := s.openBraces - 1), false)
    case Skip => (s, true)
    case NewLine(_, _, _) =>
      if Ignored(s.openBraces, e) then (s, true)
      else
        var c := Indentation(e);
        (Emit(s, LineTokens(s, c)).(indents := Line(s.indents, c)), c == Top(s.indents))
  }

  /** `super.nextToken()`: the new state, and the rules not yet matched. */
  function Super(s: State, events: seq<Event>): (State, seq<Event>)
    decreases |events|
  {
    if events == [] then (Emit(s, [EOF]), [])
    else
      var (s', skipped) := React(s, events[0]);
      if skipped then Super(s', events[1..]) else (s', events[1..])
  }

  function WithoutEof(ts: seq<Token>): seq<Token> {
    if ts == [] then []
    else WithoutEof(ts[..|ts| - 1]) + if ts[|ts| - 1].kind.Eof? then [] else [ts[|ts| - 1]]
  }

  /** At the end of input, every open level is closed ahead of the EOF. */
  function Finish(s: State): State {
    if s.indents == [] then s
    else s.(tokens := WithoutEof(s.tokens) + [NEWLINE] + Dedents(|s.indents|) + [EOF], indents := [])
  }

  /** The token handed out, the new state, and the rules not yet matched. */
  function OneCall(s: State, events: seq<Event>): (r: (Token, State, seq<Event>)) {
    var (s1, rest) := Super(if events == [] then Finish(s) else s, events);
    if s1.tokens == [] then (EOF, s1, rest)
    else
      var last := s1.tokens[|s1.tokens| - 1];
      (s1.tokens[0],
       s1.(tokens := s1.tokens[1..], lastToken := if last.hidden then s1.lastToken else Some(last)),
       rest)
  }

  // ---------------------------------------------------------------------------
  // Depth
  // ---------------------------------------------------------------------------

  function Delta(t: Token): int {
    if t.kind.Indent? then 1 else if t.kind.Dedent? then -1 else 0
  }

  /** INDENTs minus DEDENTs. */
  function Depth(ts: seq<Token>): int {
    if ts == [] then 0 else Depth(ts[..|ts| - 1]) + Delta(ts[|ts| - 1])
  }

  lemma {:induction false} DepthConcat(a: seq<Token>, b: seq<Token>)
    ensures Depth(a + b) == Depth(a) + Depth(b)
  {
    if b == [] {
      assert a + b == a;
    } else {
      assert (a + b)[..|a + b| - 1] == a + b[..|b| - 1];
      DepthConcat(a, b[..|b| - 1]);
    }
  }

  lemma DepthOne(t: Token)
    ensures Depth([t]) == Delta(t) && Depth([]) == 0
  {
    assert [t][..0] == [];
  }

  /** No prefix has a DEDENT without its INDENT. */
  ghost predicate NonNegative(ts: seq<Token>) {
    ts == [] || (NonNegative(ts[..|ts| - 1]) && Depth(ts) >= 0)
  }

  lemma {:induction false} NonNegativePrefixes(ts: seq<Token>, i: nat)
    requires NonNegative(ts) && i <= |ts|
    ensures Depth(ts[..i]) >= 0
  {
    if i == |ts| {
      assert ts[..i] == ts;
    } else {
      assert ts[..|ts| - 1][..i] == ts[..i];
      NonNegativePrefixes(ts[..|ts| - 1], i);
    }
  }

  lemma AppendOne(ts: seq<Token>, t: Token)
    requires NonNegative(ts) && Depth(ts) + Delta(t) >= 0
    ensures NonNegative(ts + [t]) && Depth(ts + [t]) == Depth(ts) + Delta(t)
  {
    assert (ts + [t])[..|ts|] == ts;
  }

  lemma {:induction false} AppendDedents(ts: seq<Token>, n: nat)
    requires NonNegative(ts) && Depth(ts) >= n
    ensures NonNegative(ts + Dedents(n)) && Depth(ts + Dedents(n)) == Depth(ts) - n
  {
    if n == 0 {
      assert ts + Dedents(0) == ts;
    } else {
      AppendDedents(ts, n - 1);
      AppendOne(ts + Dedents(n - 1), DEDENT);
      assert ts + Dedents(n) == ts + Dedents(n - 1) + [DEDENT];
    }
  }

  lemma {:induction false} WithoutEofKeeps(out: seq<Token>, ts: seq<Token>)
    requires NonNegative(out + ts)
    ensures NonNegative(out + WithoutEof(ts)) && Depth(out + WithoutEof(ts)) == Depth(out + ts)
  {
    if ts == [] {
      assert WithoutEof(ts) == ts;
    } else {
      hide Depth, NonNegative;
      var init, last := ts[..|ts| - 1], ts[|ts| - 1];
      assert (out + ts)[..|out + ts| - 1] == out + init;
      NonNegativeInit(out + ts);
      WithoutEofKeeps(out, init);
      WithoutEofSnoc(ts);
      hide WithoutEof;
      if !last.kind.Eof? {
        AppendOne(out + WithoutEof(init), last);
        assert out + WithoutEof(ts) == out + WithoutEof(init) + [last];
      }
    }
  }

  lemma WithoutEofSnoc(ts: seq<Token>)
    requires ts != []
    ensures var init, last := ts[..|ts| - 1], ts[|ts| - 1];
            WithoutEof(ts) == if last.kind.Eof? then WithoutEof(init) else WithoutEof(init) + [last]
  {
  }

  lemma {:induction false} WithoutEofMembers(ts: seq<Token>)
    ensures forall t :: t in WithoutEof(ts) ==> !t.kind.Eof?
  {
    if ts != [] {
      WithoutEofMembers(ts[..|ts| - 1]);
      WithoutEofSnoc(ts);
    }
  }

  lemma NonNegativeInit(ts: seq<Token>)
    requires NonNegative(ts) && ts != []
    ensures NonNegative(ts[..|ts| - 1])
    ensures Depth(ts) == Depth(ts[..|ts| - 1]) + Delta(ts[|ts| - 1]) >= 0
  {
    assert ts[..|ts|] == ts;
    NonNegativePrefixes(ts, |ts|);
  }

  // ---------------------------------------------------------------------------
  // One call
  // ---------------------------------------------------------------------------

  /** `out` handed out so far: what was emitted balances against the open levels. */
  ghost predicate Balanced(out: seq<Token>, s: State) {
    NonNegative(out + s.tokens) && Depth(out + s.tokens) == |s.indents| && Increasing(s.indents)
  }

  /** `createDedent` has a last token to read whenever a level is open. */
  ghost predicate Safe(s: State) {
    s.indents != [] ==> s.lastToken.Some?
  }

  /** Emitted tokens other than line structure. */
  lemma EmitPlain(out: seq<Token>, s: State, t: Token)
    requires Balanced(out, s) && Delta(t) == 0
    ensures Balanced(out, Emit(s, [t]))
  {
    AppendOne(out + s.tokens, t);
    assert out + Emit(s, [t]).tokens == out + s.tokens + [t];
  }

  lemma NewLineKeeps(out: seq<Token>, s: State, c: nat)
    requires Balanced(out, s)
    ensures Balanced(out, Emit(s, LineTokens(s, c)).(indents := Line(s.indents, c)))
  {
    hide Depth, NonNegative, Outer;
    var ts := out + s.tokens;
    LineKeepsIncreasing(s.indents, c);
    if s.lastToken.Some? {
      AppendOne(ts, NEWLINE);
      ts := ts + [NEWLINE];
    }
    if c > Top(s.indents) {
      AppendOne(ts, INDENT);
      ts := ts + [INDENT];
    } else {
      AppendDedents(ts, |s.indents| - |Outer(s.indents, c)|);
      ts := ts + Dedents(|s.indents| - |Outer(s.indents, c)|);
    }
    assert out + (s.tokens + LineTokens(s, c)) == ts;
  }

  lemma ReactKeeps(out: seq<Token>, s: State, e: Event)
    requires Balanced(out, s) && Safe(s)
    ensures var (s', skipped) := React(s, e);
            && Balanced(out, s') && s'.lastToken == s.lastToken && s.tokens <= s'.tokens
            && (skipped ==> s'.indents == s.indents)
            && (!skipped ==> |s'.tokens| > |s.tokens|)
            && (!skipped && s.lastToken.None? && s'.indents != [] ==> s'.tokens[|s'.tokens| - 1] == INDENT)
  {
    hide Depth, NonNegative;
    if !e.Skip? && !e.NewLine? {
      EmitPlain(out, s, if e.Match? then Token(Plain, e.hidden) else Token(Plain, false));
    } else if e.NewLine? && !Ignored(s.openBraces, e) {
      NewLineKeeps(out, s, Indentation(e));
    }
  }

  /** What was emitted between two states. */
  ghost function Added(s: State, s': State): seq<Token>
    requires s.tokens <= s'.tokens
  {
    s'.tokens[|s.tokens|..]
  }

  /** What a rule emits: no EOF; a NEWLINE only after some token, and alone only if the runtime goes on. */
  lemma ReactAdds(s: State, e: Event)
    requires Safe(s) && Increasing(s.indents)
    ensures var (s', skipped) := React(s, e);
            && s.tokens <= s'.tokens
            && (forall t :: t in Added(s, s') ==> !t.kind.Eof?)
            && (NEWLINE in Added(s, s') && !skipped ==> |Added(s, s')| >= 2)
            && (NEWLINE !in Added(s, s') ==> |s'.indents| <= |s.indents| || |s'.indents| == 1)
  {
    hide Indentation;
    if e.NewLine? && !Ignored(s.openBraces, e) {
      var c := Indentation(e);
      LineAdds(s, c);
    }
  }

  lemma LineAdds(s: State, c: nat)
    requires Safe(s) && Increasing(s.indents)
    ensures forall t :: t in LineTokens(s, c) ==> !t.kind.Eof?
    ensures s.lastToken.Some? ==> NEWLINE in LineTokens(s, c)
    ensures s.lastToken.Some? && c != Top(s.indents) ==> |LineTokens(s, c)| >= 2
    ensures s.lastToken.None? ==> NEWLINE !in LineTokens(s, c)
  {
    if s.lastToken.Some? {
      assert LineTokens(s, c)[0] == NEWLINE;
    }
  }

  lemma {:induction false} SuperKeeps(out: seq<Token>, s: State, events: seq<Event>)
    requires Balanced(out, s) && Safe(s)
    ensures var (s', rest) := Super(s, events);
            && Balanced(out, s') && s'.lastToken == s.lastToken && s.tokens < s'.tokens
            && (s.lastToken.None? && s'.indents != [] ==> s'.tokens[|s'.tokens| - 1] == INDENT)
    decreases |events|
  {
    hide Balanced, React;
    if events == [] {
      EmitPlain(out, s, EOF);
    } else {
      ReactKeeps(out, s, events[0]);
      if React(s, events[0]).1 {
        SuperKeeps(out, React(s, events[0]).0, events[1..]);
      }
    }
  }

  /** What one call of the runtime adds to the queue. */
  ghost predicate Adds(s: State, s': State, rest: seq<Event>)
    requires s.tokens < s'.tokens
  {
    var added := Added(s, s');
    && (NEWLINE in added ==> |added| >= 2)
    && (NEWLINE !in added ==> |s'.indents| <= |s.indents| || |s'.indents| == 1)
    && (rest != [] ==> forall t :: t in added ==> !t.kind.Eof?)
    && (forall i :: 0 <= i < |added| - 1 ==> !added[i].kind.Eof?)
  }

  lemma {:induction false} SuperAdds(out: seq<Token>, s: State, events: seq<Event>)
    requires Balanced(out, s) && Safe(s)
    ensures s.tokens < Super(s, events).0.tokens && Adds(s, Super(s, events).0, Super(s, events).1)
    decreases |events|
  {
    hide Balanced, React, Increasing;
    SuperKeeps(out, s, events);
    if events != [] {
      var (s1, skipped) := React(s, events[0]);
      BalancedIncreasing(out, s);
      ReactKeeps(out, s, events[0]);
      ReactAdds(s, events[0]);
      if skipped {
        SuperAdds(out, s1, events[1..]);
        AddsTwice(s, s1, Super(s1, events[1..]).0, Super(s1, events[1..]).1);
      }
    }
  }

  lemma AddsTwice(s: State, s1: State, s2: State, rest: seq<Event>)
    requires s.tokens <= s1.tokens < s2.tokens && s1.indents == s.indents
    requires (forall t :: t in Added(s, s1) ==> !t.kind.Eof?) && Adds(s1, s2, rest)
    ensures Adds(s, s2, rest)
  {
    var a, b := Added(s, s1), Added(s1, s2);
    var all := Added(s, s2);
    assert all == a + b;
    forall i | 0 <= i < |all| - 1 ensures !all[i].kind.Eof? {
      assert i < |a| ==> all[i] == a[i] && a[i] in a;
      assert i >= |a| ==> all[i] == b[i - |a|];
    }
  }

  lemma BalancedIncreasing(out: seq<Token>, s: State)
    requires Balanced(out, s)
    ensures Increasing(s.indents)
  {
  }

  // ---------------------------------------------------------------------------
  // Every run
  // ---------------------------------------------------------------------------

  /** After some calls of `nextToken`: the tokens handed out, the state, and the rules not yet matched. */
  datatype Run = Run(out: seq<Token>, s: State, rest: seq<Event>)

  function Calls(events: seq<Event>, n: nat): Run {
    if n == 0 then Run([], INIT, events)
    else
      var r := Calls(events, n - 1);
      var (t, s, rest) := OneCall(r.s, r.rest);
      Run(r.out + [t], s, rest)
  }

  /** Once an EOF is queued, only EOFs follow it, and none is queued before the input ends. */
  ghost predicate EofLast(r: Run) {
    && (forall i, j :: 0 <= i < j < |r.s.tokens| && r.s.tokens[i].kind.Eof? ==> r.s.tokens[j].kind.Eof?)
    && (r.rest != [] ==> forall t :: t in r.s.tokens ==> !t.kind.Eof?)
  }

  /** After a line break that counted the queue is never empty again; without one there is at most one level. */
  ghost predicate Ahead(r: Run) {
    if NEWLINE in r.out + r.s.tokens then r.s.tokens != [] else |r.s.indents| <= 1
  }

  ghost predicate Inv(r: Run) {
    Balanced(r.out, r.s) && Safe(r.s) && EofLast(r) && Ahead(r)
  }

  lemma FinishKeeps(r: Run)
    requires Inv(r) && r.rest == []
    ensures Balanced(r.out, Finish(r.s)) && Finish(r.s).indents == [] && EofLast(r.(s := Finish(r.s)))
    ensures NEWLINE in r.out + Finish(r.s).tokens ==> Finish(r.s).tokens != []
  {
    hide Depth, NonNegative;
    if r.s.indents != [] {
      var kept := WithoutEof(r.s.tokens);
      WithoutEofKeeps(r.out, r.s.tokens);
      WithoutEofMembers(r.s.tokens);
      var ts := r.out + kept;
      AppendOne(ts, NEWLINE);
      AppendDedents(ts + [NEWLINE], |r.s.indents|);
      AppendOne(ts + [NEWLINE] + Dedents(|r.s.indents|), EOF);
      assert r.out + Finish(r.s).tokens == ts + [NEWLINE] + Dedents(|r.s.indents|) + [EOF];
      var all := Finish(r.s).tokens;
      forall i | 0 <= i < |all| - 1 ensures !all[i].kind.Eof? {
        assert i < |kept| ==> all[i] == kept[i] && kept[i] in kept;
      }
    }
  }

  /** The state a call works on after the end-of-input block. */
  function Entered(r: Run): State {
    if r.rest == [] then Finish(r.s) else r.s
  }

  lemma EnteredKeeps(r: Run)
    requires Inv(r)
    ensures Balanced(r.out, Entered(r)) && Safe(Entered(r)) && EofLast(r.(s := Entered(r)))
    ensures NEWLINE in r.out + Entered(r).tokens ==> Entered(r).tokens != []
    ensures NEWLINE !in r.out + Entered(r).tokens ==> |Entered(r).indents| <= 1
    ensures r.rest == [] ==> Entered(r).indents == []
  {
    hide Balanced;
    if r.rest == [] {
      FinishKeeps(r);
    }
  }

  /** Every call of `nextToken` keeps the invariant. */
  lemma NextTokenKeeps(r: Run)
    requires Inv(r)
    ensures var (t, s, rest) := OneCall(r.s, r.rest);
            Inv(Run(r.out + [t], s, rest))
  {
    hide Inv, Balanced, Adds, EofLast, Super, Finish, Safe;
    EnteredKeeps(r);
    var s0 := Entered(r);
    SuperKeeps(r.out, s0, r.rest);
    SuperAdds(r.out, s0, r.rest);
    var (s1, rest) := Super(s0, r.rest);
    SuperRest(s0, r.rest);
    PollKeeps(r, s0, s1, rest);
  }

  lemma {:induction false} SuperRest(s: State, events: seq<Event>)
    ensures |Super(s, events).1| <= |events|
    ensures events == [] ==> Super(s, events).0 == Emit(s, [EOF])
    decreases |events|
  {
    hide React;
    if events != [] && React(s, events[0]).1 {
      SuperRest(React(s, events[0]).0, events[1..]);
    }
  }

  lemma PollEofLast(r: Run, s0: State, s1: State, rest: seq<Event>, s2: State)
    requires s0.tokens < s1.tokens && Adds(s0, s1, rest) && EofLast(r.(s := s0)) && |rest| <= |r.rest|
    requires (r.rest == [] ==> s1.tokens == s0.tokens + [EOF]) && s2.tokens == s1.tokens[1..]
    ensures EofLast(Run(r.out + [s1.tokens[0]], s2, rest))
  {
    var added := Added(s0, s1);
    assert s1.tokens == s0.tokens + added;
    if r.rest != [] {
      forall i | 0 <= i < |s1.tokens| - 1 ensures !s1.tokens[i].kind.Eof? {
        assert i < |s0.tokens| ==> s1.tokens[i] == s0.tokens[i] && s0.tokens[i] in s0.tokens;
        assert i >= |s0.tokens| ==> s1.tokens[i] == added[i - |s0.tokens|];
      }
    }
  }

  lemma PollAhead(out: seq<Token>, s0: State, s1: State, rest: seq<Event>)
    requires s0.tokens < s1.tokens && Adds(s0, s1, rest)
    requires NEWLINE in out + s0.tokens ==> s0.tokens != []
    requires NEWLINE !in out + s0.tokens ==> |s0.indents| <= 1
    ensures if NEWLINE in out + s1.tokens then |s1.tokens| >= 2 else |s1.indents| <= 1
  {
    var added := Added(s0, s1);
    assert out + s1.tokens == out + s0.tokens + added;
    assert NEWLINE in out + s1.tokens <==> NEWLINE in out + s0.tokens || NEWLINE in added;
  }

  lemma PollKeeps(r: Run, s0: State, s1: State, rest: seq<Event>)
    requires Balanced(r.out, s1) && s0.tokens < s1.tokens && Adds(s0, s1, rest) && s1.lastToken == s0.lastToken
    requires s0.lastToken.None? && s1.indents != [] ==> s1.tokens[|s1.tokens| - 1] == INDENT
    requires EofLast(r.(s := s0)) && Safe(s0) && |rest| <= |r.rest|
    requires NEWLINE in r.out + s0.tokens ==> s0.tokens != []
    requires NEWLINE !in r.out + s0.tokens ==> |s0.indents| <= 1
    requires r.rest == [] ==> s1.tokens == s0.tokens + [EOF]
    ensures var last := s1.tokens[|s1.tokens| - 1];
            Inv(Run(r.out + [s1.tokens[0]],
                    s1.(tokens := s1.tokens[1..], lastToken := if last.hidden then s1.lastToken else Some(last)), rest))
  {
    hide Depth, NonNegative, Increasing, EofLast, Adds;
    var last := s1.tokens[|s1.tokens| - 1];
    var s2 := s1.(tokens := s1.tokens[1..], lastToken := if last.hidden then s1.lastToken else Some(last));
    var r2 := Run(r.out + [s1.tokens[0]], s2, rest);
    assert r2.out + s2.tokens == r.out + s1.tokens;
    PollEofLast(r, s0, s1, rest, s2);
    PollAhead(r.out, s0, s1, rest);
  }

  /** Over every run: INDENTs minus DEDENTs emitted is the number of open levels, no DEDENT comes before its INDENT, and a DEDENT always finds a last token. */
  lemma {:induction false} CallsKeep(events: seq<Event>, n: nat)
    ensures Inv(Calls(events, n))
  {
    hide Inv, OneCall;
    if n == 0 {
      InitInv(events);
    } else {
      CallsKeep(events, n - 1);
      NextTokenKeeps(Calls(events, n - 1));
    }
  }

  lemma InitInv(events: seq<Event>)
    ensures Inv(Run([], INIT, events))
  {
  }

  /** Over every run, spelled out. */
  lemma EveryRun(events: seq<Event>, n: nat)
    ensures var Run(out, s, _) := Calls(events, n);
            && Depth(out + s.tokens) == |s.indents|
            && (forall i :: 0 <= i <= |out + s.tokens| ==> Depth((out + s.tokens)[..i]) >= 0)
            && Increasing(s.indents)
            && (s.indents != [] ==> s.lastToken.Some?)
  {
    hide Depth, NonNegative, Calls, Increasing;
    CallsKeep(events, n);
    var Run(out, s, _) := Calls(events, n);
    forall i | 0 <= i <= |out + s.tokens| ensures Depth((out + s.tokens)[..i]) >= 0 {
      NonNegativePrefixes(out + s.tokens, i);
    }
  }

  /** Entered at the end of input, a call queues one DEDENT for each open level ahead of any EOF. */
  lemma EndOfInput(s: State)
    requires s.indents != []
    ensures var (t, s', rest) := OneCall(s, []);
            && [t] + s'.tokens == WithoutEof(s.tokens) + [NEWLINE] + Dedents(|s.indents|) + [EOF, EOF]
            && s'.indents == [] && rest == []
  {
    var s1 := Finish(s);
    assert Super(s1, []) == (Emit(s1, [EOF]), []);
    assert s1.tokens + [EOF] == WithoutEof(s.tokens) + [NEWLINE] + Dedents(|s.indents|) + [EOF, EOF];
  }

  /** Whatever follows an EOF in the queue is EOF too. */
  lemma AfterEof(r: Run)
    requires Inv(r)
    ensures var (t, s, rest) := OneCall(r.s, r.rest);
            t.kind.Eof? ==>
              && rest == []
              && (forall u :: u in s.tokens ==> u.kind.Eof?)
              && (r.rest != [] ==> r.s.tokens == [])
              && (r.rest == [] ==> s.indents == [])
  {
    hide Balanced, React, Finish;
    EnteredKeeps(r);
    var s0 := Entered(r);
    SuperAdds(r.out, s0, r.rest);
    SuperRest(s0, r.rest);
    var (s1, rest) := Super(s0, r.rest);
    assert s1.tokens == s0.tokens + Added(s0, s1);
    assert s0.tokens != [] ==> s1.tokens[0] in s0.tokens;
  }

  lemma {:induction false} EofsHaveNoDepth(ts: seq<Token>)
    requires forall t :: t in ts ==> t.kind.Eof?
    ensures Depth(ts) == 0 && NEWLINE !in ts
  {
    if ts != [] {
      EofsHaveNoDepth(ts[..|ts| - 1]);
    }
  }

  /** When the first EOF is handed out at most one level is left open, and none if a line break was emitted. */
  lemma FirstEofDepth(events: seq<Event>, n: nat)
    requires var r := Calls(events, n); OneCall(r.s, r.rest).0.kind.Eof?
    requires forall t :: t in Calls(events, n).out ==> !t.kind.Eof?
    ensures var r := Calls(events, n);
            && Depth(r.out) == |OneCall(r.s, r.rest).1.indents| <= 1
            && (NEWLINE in r.out ==> Depth(r.out) == 0)
  {
    hide Depth, NonNegative, Calls, OneCall, Safe, EofLast, Increasing;
    var r := Calls(events, n);
    var (t, s, rest) := OneCall(r.s, r.rest);
    CallsKeep(events, n);
    NextTokenKeeps(r);
    AfterEof(r);
    EofsHaveNoDepth(s.tokens);
    DepthOne(t);
    DepthConcat(r.out, [t]);
    DepthConcat(r.out + [t], s.tokens);
    if NEWLINE in r.out {
      assert NEWLINE in r.out + r.s.tokens;
    } else {
      assert NEWLINE !in r.out + [t] + s.tokens;
    }
  }

  /** The exception is real: an indented line, then something skipped, then nothing. */
  lemma IndentedLineLeftOpen(first: Event)
    requires first.NewLine? && !Ignored(0, first) && Indentation(first) > 0
    ensures Calls([first, Match(false), Skip], 3).out == [INDENT, Token(Plain, false), EOF]
    ensures Calls([first, Match(false), Skip], 3).s.indents != []
  {
    hide Indentation, Ignored, OneCall;
    var events := [first, Match(false), Skip];
    var c := Indentation(first);
    FirstIndent(first, events[1..]);
    var s1 := State([], [c], 0, Some(INDENT));
    PlainPasses(s1, [Skip]);
    SkipThenEof(s1.(lastToken := Some(Token(Plain, false))));
    assert events == [first] + events[1..] && events[1..] == [Match(false)] + [Skip];
    assert [] + [INDENT] == [INDENT] && [INDENT] + [Token(Plain, false)] == [INDENT, Token(Plain, false)];
    assert Calls(events, 0) == Run([], INIT, events);
    assert Calls(events, 1) == Run([INDENT], s1, events[1..]);
    assert Calls(events, 2).out == [INDENT, Token(Plain, false)];
  }

  lemma FirstIndent(first: Event, rest: seq<Event>)
    requires first.NewLine? && !Ignored(0, first) && Indentation(first) > 0
    ensures OneCall(INIT, [first] + rest) == (INDENT, State([], [Indentation(first)], 0, Some(INDENT)), rest)
  {
    hide Indentation, Ignored;
    var c := Indentation(first);
    assert [] + [INDENT] == [INDENT] && LineTokens(INIT, c) == [INDENT] && Line([], c) == [c];
    assert React(INIT, first) == (State([INDENT], [c], 0, None), false);
    assert ([first] + rest)[1..] == rest && [INDENT][1..] == [];
  }

  lemma PlainPasses(s: State, rest: seq<Event>)
    requires s.tokens == []
    ensures OneCall(s, [Match(false)] + rest) == (Token(Plain, false), s.(lastToken := Some(Token(Plain, false))), rest)
  {
    assert [] + [Token(Plain, false)] == [Token(Plain, false)] && [Token(Plain, false)][1..] == [];
    assert React(s, Match(false)) == (Emit(s, [Token(Plain, false)]), false);
    assert ([Match(false)] + rest)[1..] == rest;
  }

  lemma SkipThenEof(s: State)
    requires s.tokens == []
    ensures OneCall(s, [Skip]) == (EOF, s.(lastToken := Some(EOF)), [])
  {
    assert [Skip][1..] == [] && Super(s, []) == (Emit(s, [EOF]), []) && Super(s, [Skip]) == Super(s, []);
    assert [] + [EOF] == [EOF] && [EOF][1..] == [];
  }

  // ---------------------------------------------------------------------------
  // Which levels are open
  // ---------------------------------------------------------------------------

  /** Brackets opened and not closed. */
  function Braces(events: seq<Event>): int {
    if events == [] then 0
    else
      var e := events[|events| - 1];
      Braces(events[..|events| - 1]) + if e.OpenBrace? then 1 else if e.CloseBrace? then -1 else 0
  }

  /** After the rules `done`, `e` is a newline that counts: outside of brackets, and with no blank or comment line after it. */
  predicate Counts(done: seq<Event>, e: Event) {
    && e.NewLine? && Braces(done) <= 0
    && (e.nextnext == -1 || (e.next != 13 && e.next != 10 && e.next != 12 && e.next != 35))
  }

  /** The widths of the lines whose newline counts. */
  function Counted(events: seq<Event>): seq<nat> {
    if events == [] then []
    else
      var init, e := events[..|events| - 1], events[|events| - 1];
      Counted(init) + if Counts(init, e) then [Indentation(e)] else []
  }

  /** Open brackets and open levels are those of the rules matched, whatever was emitted for them. */
  ghost predicate Tracks(s: State, done: seq<Event>) {
    s.openBraces == Braces(done) && s.indents == Lines(Counted(done))
  }

  lemma ReactTracks(s: State, done: seq<Event>, e: Event)
    requires Tracks(s, done)
    ensures Tracks(React(s, e).0, done + [e])
  {
    hide React, Lines, Line, Counts, Indentation;
    ReactFields(s, e);
    CountedSnoc(done, e);
    CountsHere(s, done, e);
    if Counts(done, e) {
      LinesSnoc(Counted(done), Indentation(e));
    }
  }

  lemma ReactFields(s: State, e: Event)
    ensures var s' := React(s, e).0;
            && s'.openBraces == s.openBraces + (if e.OpenBrace? then 1 else if e.CloseBrace? then -1 else 0)
            && s'.indents == if e.NewLine? && !Ignored(s.openBraces, e) then Line(s.indents, Indentation(e)) else s.indents
  {
    hide Indentation, LineTokens, Line;
  }

  lemma CountedSnoc(done: seq<Event>, e: Event)
    ensures Counted(done + [e]) == if Counts(done, e) then Counted(done) + [Indentation(e)] else Counted(done)
    ensures Braces(done + [e]) == Braces(done) + if e.OpenBrace? then 1 else if e.CloseBrace? then -1 else 0
  {
    hide Indentation, Counts;
    assert (done + [e])[..|done|] == done;
    assert Counted(done) + [] == Counted(done);
  }

  lemma CountsHere(s: State, done: seq<Event>, e: Event)
    requires s.openBraces == Braces(done)
    ensures Counts(done, e) <==> e.NewLine? && !Ignored(s.openBraces, e)
  {
  }

  lemma LinesSnoc(widths: seq<nat>, c: nat)
    ensures Lines(widths + [c]) == Line(Lines(widths), c)
  {
    assert (widths + [c])[..|widths|] == widths;
  }

  /** Of all rules, `rest` is still to be matched. */
  ghost predicate Left(events: seq<Event>, rest: seq<Event>) {
    |rest| <= |events| && rest == events[|events| - |rest|..]
  }

  /** The rules matched before `rest`. */
  function Matched(events: seq<Event>, rest: seq<Event>): seq<Event> {
    if |rest| <= |events| then events[..|events| - |rest|] else []
  }

  lemma LeftAll(events: seq<Event>)
    ensures Left(events, events) && Matched(events, events) == [] && Matched(events, []) == events
  {
  }

  lemma LeftTail(events: seq<Event>, rest: seq<Event>)
    requires events != [] && Left(events[1..], rest)
    ensures Left(events, rest) && Matched(events, rest) == [events[0]] + Matched(events[1..], rest)
  {
  }

  lemma LeftTwice(events: seq<Event>, rest: seq<Event>, rest': seq<Event>)
    requires Left(events, rest) && Left(rest, rest')
    ensures Left(events, rest')
    ensures Matched(events, rest) + Matched(rest, rest') == Matched(events, rest') && Matched(events, rest) + rest == events
  {
  }

  lemma {:induction false} SuperTracks(s: State, done: seq<Event>, events: seq<Event>)
    requires Tracks(s, done)
    ensures var (s', rest) := Super(s, events);
            Left(events, rest) && Tracks(s', done + Matched(events, rest))
    decreases |events|
  {
    hide React, Tracks, Left, Matched;
    LeftAll(events);
    if events == [] {
      assert done + [] == done;
      EmitTracks(s, done);
    } else {
      var e, tail := events[0], events[1..];
      ReactTracks(s, done, e);
      LeftAll(tail);
      LeftTail(events, tail);
      if React(s, e).1 {
        SuperTracks(React(s, e).0, done + [e], tail);
        var rest := Super(React(s, e).0, tail).1;
        LeftTail(events, rest);
        assert done + [e] + Matched(tail, rest) == done + ([e] + Matched(tail, rest));
      } else {
        assert [e] + [] == [e];
      }
    }
  }

  lemma EmitTracks(s: State, done: seq<Event>)
    requires Tracks(s, done)
    ensures Tracks(Emit(s, [EOF]), done)
  {
  }

  /** One call tracks the rules it matches; at the end of input it closes everything. */
  lemma OneTracks(s: State, done: seq<Event>, events: seq<Event>)
    requires Tracks(s, done) || events == []
    ensures var (_, s', rest) := OneCall(s, events);
            && Left(events, rest)
            && if events == [] then s'.indents == [] else Tracks(s', done + Matched(events, rest))
  {
    hide Super, Counted, Braces, Lines;
    if events == [] {
      SuperRest(Finish(s), []);
    } else {
      SuperTracks(s, done, events);
    }
  }

  /** Until the end of input is reached, the stack is what the rules matched so far say; then it is emptied. */
  lemma {:induction false} CallsTrack(events: seq<Event>, n: nat)
    ensures var r := Calls(events, n);
            && Left(events, r.rest)
            && (Tracks(r.s, Matched(events, r.rest)) || (r.rest == [] && r.s.indents == []))
  {
    if n == 0 {
      LeftAll(events);
    } else {
      hide OneCall, Tracks, Left, Matched;
      CallsTrack(events, n - 1);
      var r := Calls(events, n - 1);
      OneTracks(r.s, Matched(events, r.rest), r.rest);
      LeftTwice(events, r.rest, OneCall(r.s, r.rest).2);
      LeftAll(events);
    }
  }

  /** With input left, the stack is exactly the open levels of the lines that counted, if their dedents are consistent. */
  lemma OpenLevels(events: seq<Event>, n: nat)
    requires Calls(events, n).rest != []
    ensures var r := Calls(events, n);
            var widths := Counted(Matched(events, r.rest));
            && Increasing(r.s.indents)
            && r.s.indents == Lines(widths)
            && (Consistent(widths) ==> forall v :: v in r.s.indents <==> Open(widths, v))
  {
    hide Calls, Counted, Lines, Consistent, Open, Increasing;
    CallsTrack(events, n);
    var widths := Counted(Matched(events, Calls(events, n).rest));
    LinesIncreasing(widths);
    if Consistent(widths) {
      StackIsOpenLevels(widths);
    }
  }


  // ---------------------------------------------------------------------------
  // When a level is left open
  // ---------------------------------------------------------------------------

  /** A rule whose token is on the default channel. */
  predicate Visible(e: Event) {
    (e.Match? && !e.hidden) || e.OpenBrace? || e.CloseBrace?
  }

  /** A newline that counts and starts an indented line. */
  predicate Indents(done: seq<Event>, e: Event) {
    Counts(done, e) && Indentation(e) > 0
  }

  /** No rule puts a token on the default channel. */
  ghost predicate NothingVisible(events: seq<Event>) {
    forall i :: 0 <= i < |events| ==> !Visible(events[i]) && !Indents(events[..i], events[i])
  }

  /** Rule `f` starts an indented line, nothing before it is on the default channel, and no later newline counts. */
  ghost predicate LoneIndent(events: seq<Event>, f: nat) {
    && f < |events| && Indents(events[..f], events[f])
    && NothingVisible(events[..f])
    && (forall i :: f < i < |events| ==> !Counts(events[..i], events[i]))
  }

  /** The last rule is skipped and emits nothing. */
  predicate EndsSilently(events: seq<Event>) {
    && events != []
    && var init, e := events[..|events| - 1], events[|events| - 1];
       e.Skip? || (e.NewLine? && !Counts(init, e))
  }

  /** `Silent`: nothing on the default channel yet; `Lone`: an indented line that no other has followed. */
  datatype Stage = Silent | Lone | Other

  function StageOf(events: seq<Event>): Stage {
    if events == [] then Silent
    else
      var init, e := events[..|events| - 1], events[|events| - 1];
      match StageOf(init)
      case Silent => if Indents(init, e) then Lone else if Visible(e) then Other else Silent
      case Lone => if Counts(init, e) then Other else Lone
      case Other => Other
  }

  lemma {:induction false} StageMeaning(events: seq<Event>)
    ensures StageOf(events).Silent? <==> NothingVisible(events)
    ensures StageOf(events).Lone? <==> exists f :: LoneIndent(events, f)
  {
    if events == [] {
      NothingLone(events);
    } else {
      hide LoneIndent, Counts, Visible, Indents, NothingVisible, StageOf;
      var init, e := events[..|events| - 1], events[|events| - 1];
      assert init + [e] == events;
      StageMeaning(init);
      StageSnoc(init, e);
      NothingVisibleSnoc(init, e);
      LoneSnoc(init, e);
    }
  }

  lemma StageSnoc(init: seq<Event>, e: Event)
    ensures StageOf(init + [e])
            == match StageOf(init)
               case Silent => if Indents(init, e) then Lone else if Visible(e) then Other else Silent
               case Lone => if Counts(init, e) then Other else Lone
               case Other => Other
  {
    hide Indents, Visible, Counts;
    assert (init + [e])[..|init|] == init;
  }

  lemma NothingVisibleSnoc(init: seq<Event>, e: Event)
    ensures NothingVisible(init + [e]) <==> NothingVisible(init) && !Visible(e) && !Indents(init, e)
  {
    hide Visible, Indents;
    var all := init + [e];
    assert all[|init|] == e && all[..|init|] == init;
    assert forall i :: 0 <= i < |init| ==> all[i] == init[i] && all[..i] == init[..i];
  }

  lemma LoneSnoc(init: seq<Event>, e: Event)
    ensures (exists f :: LoneIndent(init + [e], f))
            <==> ((exists f :: LoneIndent(init, f)) && !Counts(init, e)) || (Indents(init, e) && NothingVisible(init))
    ensures NothingVisible(init) ==> !exists f :: LoneIndent(init, f)
    ensures Indents(init, e) ==> Counts(init, e)
  {
    NothingLone(init);
    hide LoneIndent, Visible, NothingVisible;
    forall f: nat ensures LoneIndent(init + [e], f)
      <==> (LoneIndent(init, f) && !Counts(init, e)) || (f == |init| && Indents(init, e) && NothingVisible(init))
    {
      LoneAt(init, e, f);
    }
    assert Indents(init, e) && NothingVisible(init) ==> LoneIndent(init + [e], |init|);
  }

  lemma NothingLone(events: seq<Event>)
    ensures NothingVisible(events) ==> !exists f :: LoneIndent(events, f)
  {
  }

  lemma LoneAt(init: seq<Event>, e: Event, f: nat)
    ensures LoneIndent(init + [e], f)
            <==> (LoneIndent(init, f) && !Counts(init, e)) || (f == |init| && Indents(init, e) && NothingVisible(init))
  {
    hide Counts, Visible, Indents;
    var all := init + [e];
    assert all[..|init|] == init && forall i :: 0 <= i < |init| ==> init[i] == all[i] && init[..i] == all[..i];
    if f < |init| {
      assert all[..f] == init[..f];
    }
  }

  /** How the fields stand between two rules of one call, `out` being what earlier calls handed out. */
  ghost predicate Staged(out: seq<Token>, s: State, done: seq<Event>) {
    && Tracks(s, done)
    && match StageOf(done)
       case Silent => s.lastToken.None? && s.indents == [] && s.tokens == [] && NEWLINE !in out
       case Lone => s.lastToken.Some? && |s.indents| == 1 && s.tokens == [] && NEWLINE !in out
       case Other => s.lastToken.Some? && (NEWLINE in out + s.tokens || s.indents == [])
  }

  /** How they stand when `super.nextToken()` returns. */
  ghost predicate Returned(out: seq<Token>, s: State, done: seq<Event>) {
    && Tracks(s, done) && s.tokens != []
    && var last := s.tokens[|s.tokens| - 1];
       match StageOf(done)
       case Silent => |s.tokens| == 1 && s.lastToken.None? && s.indents == [] && NEWLINE !in out && (last.hidden || last == EOF)
       case Lone => |s.tokens| == 1 && |s.indents| == 1 && last != NEWLINE && NEWLINE !in out && (s.lastToken.Some? || !last.hidden)
       case Other => (NEWLINE in out + s.tokens || s.indents == []) && (s.lastToken.Some? || !last.hidden)
  }

  lemma ReactStage(out: seq<Token>, s: State, done: seq<Event>, e: Event)
    requires Staged(out, s, done)
    ensures var (s', skipped) := React(s, e);
            if skipped then Staged(out, s', done + [e]) else Returned(out, s', done + [e]) && !s'.tokens[|s'.tokens| - 1].kind.Eof?
    ensures EndsSilently(done + [e]) ==> React(s, e).1
    ensures React(s, e).1 && StageOf(done + [e]).Lone? ==> EndsSilently(done + [e])
  {
    hide Indentation, Tracks, Counted, Braces, LineTokens, Line;
    ReactTracks(s, done, e);
    assert (done + [e])[..|done|] == done;
    TracksBraces(s, done);
    if Counts(done, e) {
      CountStage(out, s, done, e);
    } else {
      assert e.NewLine? ==> React(s, e) == (s, true);
    }
  }

  lemma CountStage(out: seq<Token>, s: State, done: seq<Event>, e: Event)
    requires Staged(out, s, done) && Counts(done, e)
    ensures var (s', skipped) := React(s, e);
            if skipped then Staged(out, s', done + [e]) else Returned(out, s', done + [e]) && !s'.tokens[|s'.tokens| - 1].kind.Eof?
    ensures !React(s, e).1 || !StageOf(done + [e]).Lone?
  {
    hide Indentation, Tracks, Counted, Braces, LineTokens, Line;
    ReactTracks(s, done, e);
    assert (done + [e])[..|done|] == done;
    TracksBraces(s, done);
    var c := Indentation(e);
    if s.lastToken.None? {
      SilentCount(s, c);
      assert [] + [INDENT] == [INDENT];
    } else {
      LineLast(s, c);
    }
  }

  lemma TracksBraces(s: State, done: seq<Event>)
    requires Tracks(s, done)
    ensures s.openBraces == Braces(done)
  {
  }

  /** The tokens of a newline that counts after a token on the default channel. */
  lemma LineLast(s: State, c: nat)
    requires s.lastToken.Some?
    ensures LineTokens(s, c) != [] && LineTokens(s, c)[0] == NEWLINE
    ensures var last := LineTokens(s, c)[|LineTokens(s, c)| - 1]; !last.hidden && !last.kind.Eof?
  {
  }

  lemma SilentCount(s: State, c: nat)
    requires s.lastToken.None? && s.indents == []
    ensures LineTokens(s, c) == (if c > 0 then [INDENT] else []) && Line(s.indents, c) == if c > 0 then [c] else []
  {
  }

  /** The last token is EOF only if no rule is left; a call on a last rule that emits nothing ends with it. */
  ghost predicate EndsAtEof(ts: seq<Token>, done: seq<Event>, events: seq<Event>, rest: seq<Event>) {
    ts != [] ==>
      var last := ts[|ts| - 1];
      && (last.kind.Eof? ==> rest == [])
      && (last.kind.Eof? && events != [] && StageOf(done + events).Lone? ==> EndsSilently(done + events))
      && (rest == [] && events != [] && EndsSilently(done + events) ==> last.kind.Eof?)
  }

  lemma {:induction false} SuperStage(out: seq<Token>, s: State, done: seq<Event>, events: seq<Event>)
    requires Staged(out, s, done)
    ensures var (s', rest) := Super(s, events);
            && Left(events, rest) && Returned(out, s', done + Matched(events, rest))
            && EndsAtEof(s'.tokens, done, events, rest)
    decreases |events|
  {
    hide React, Staged, Returned, EndsSilently, StageOf, Left, Matched;
    LeftAll(events);
    if events == [] {
      assert done + [] == done;
      EofStage(out, s, done);
    } else {
      var e, tail := events[0], events[1..];
      ReactStage(out, s, done, e);
      LeftAll(tail);
      LeftTail(events, tail);
      assert done + events == done + [e] + tail && [e] + [] == [e];
      assert tail == [] ==> done + events == done + [e];
      if React(s, e).1 {
        SuperStage(out, React(s, e).0, done + [e], tail);
        var rest := Super(React(s, e).0, tail).1;
        LeftTail(events, rest);
        assert done + [e] + Matched(tail, rest) == done + ([e] + Matched(tail, rest));
      }
    }
  }

  lemma EofStage(out: seq<Token>, s: State, done: seq<Event>)
    requires Staged(out, s, done)
    ensures Returned(out, Emit(s, [EOF]), done) && Emit(s, [EOF]).tokens[|s.tokens|] == EOF
  {
    hide Counted, Braces;
  }

  /** Handing out the oldest token, with input left. */
  lemma PollStage(out: seq<Token>, s: State, done: seq<Event>)
    requires Returned(out, s, done) && s.tokens[|s.tokens| - 1] != EOF
    ensures var last := s.tokens[|s.tokens| - 1];
            Staged(out + [s.tokens[0]],
                   s.(tokens := s.tokens[1..], lastToken := if last.hidden then s.lastToken else Some(last)), done)
  {
    hide Counted, Braces, StageOf;
    assert out + [s.tokens[0]] + s.tokens[1..] == out + s.tokens;
  }

  /** The rules leave a level open: an indented first line, no line after it, and nothing at the end. */
  ghost predicate LeftOpen(events: seq<Event>) {
    (exists f :: LoneIndent(events, f)) && EndsSilently(events)
  }

  /** A call with input left: it stays in its stage, and meets the end of input itself exactly if a level is left open. */
  lemma OneStage(r: Run, done: seq<Event>)
    requires Staged(r.out, r.s, done) && r.rest != []
    ensures var (t, s, rest) := OneCall(r.s, r.rest);
            && Left(r.rest, rest)
            && (rest != [] ==> Staged(r.out + [t], s, done + Matched(r.rest, rest)))
            && (rest == [] && LeftOpen(done + r.rest) ==> t.kind.Eof? && |s.indents| == 1)
            && (t.kind.Eof? && s.indents != [] && !LeftOpen(done + r.rest) ==> NEWLINE in r.out + [t] + s.tokens)
  {
    hide Super, Staged, EndsSilently, Tracks, StageOf, LoneIndent;
    SuperStage(r.out, r.s, done, r.rest);
    var (s', rest) := Super(r.s, r.rest);
    var last := s'.tokens[|s'.tokens| - 1];
    StageMeaning(done + r.rest);
    LeftAll(r.rest);
    assert r.out + s'.tokens == r.out + [s'.tokens[0]] + s'.tokens[1..];
    if rest != [] {
      PollStage(r.out, s', done + Matched(r.rest, rest));
    }
  }

  /** As long as input is left, the run is where its stage says; if it leaves a level open, its EOF comes with the last rule. */
  lemma {:induction false} CallsStage(events: seq<Event>, n: nat)
    ensures var r := Calls(events, n);
            && Left(events, r.rest)
            && (r.rest != [] ==> Staged(r.out, r.s, Matched(events, r.rest)))
            && (r.rest == [] && LeftOpen(events) ==> exists t :: t in r.out && t.kind.Eof?)
  {
    hide OneCall, Staged, LeftOpen, Tracks;
    if n == 0 {
      InitStage(events);
    } else {
      CallsStage(events, n - 1);
      CallsTrack(events, n - 1);
      CallsTrack(events, n);
      var r := Calls(events, n - 1);
      var done := Matched(events, r.rest);
      OneTracks(r.s, done, r.rest);
      if r.rest != [] {
        OneStage(r, done);
        LeftTwice(events, r.rest, OneCall(r.s, r.rest).2);
      }
    }
  }

  lemma InitStage(events: seq<Event>)
    ensures Staged([], INIT, []) && Left(events, events) && Matched(events, events) == [] && (events == [] ==> !LeftOpen(events))
  {
  }

  /** Before the first EOF handed out, INDENTs and DEDENTs are equal if and only if the rules do not leave a level open. */
  lemma FirstEof(events: seq<Event>, n: nat)
    requires var r := Calls(events, n); OneCall(r.s, r.rest).0.kind.Eof?
    requires forall t :: t in Calls(events, n).out ==> !t.kind.Eof?
    ensures Depth(Calls(events, n).out) == if LeftOpen(events) then 1 else 0
  {
    hide Depth, Calls, OneCall, LeftOpen, Staged, Tracks, Inv;
    var r := Calls(events, n);
    var (t, s, _) := OneCall(r.s, r.rest);
    FirstEofDepth(events, n);
    CallsStage(events, n);
    CallsTrack(events, n);
    CallsKeep(events, n);
    AfterEof(r);
    if r.rest != [] {
      var done := Matched(events, r.rest);
      LeftTwice(events, r.rest, []);
      OneStage(r, done);
      EofsHaveNoDepth(s.tokens);
    }
  }

  // ---------------------------------------------------------------------------
  // The whole stream
  // ---------------------------------------------------------------------------

  /** What a newline after the rules `done` adds. */
  ghost function BreakTokens(done: seq<Event>, e: Event): seq<Token>
    requires e.NewLine?
  {
    var stack, c := Lines(Counted(done)), Indentation(e);
    if !Counts(done, e) then []
    else
      (if NothingVisible(done) then [] else [NEWLINE])
      + if c > Top(stack) then [INDENT] else Dedents(|stack| - |Outer(stack, c)|)
  }

  /** What the rule `e` emits after the rules `done`. */
  ghost function More(done: seq<Event>, e: Event): seq<Token> {
    match e
    case Match(hidden) => [Token(Plain, hidden)]
    case OpenBrace => [Token(Plain, false)]
    case CloseBrace => [Token(Plain, false)]
    case Skip => []
    case NewLine(_, _, _) => BreakTokens(done, e)
  }

  /** All that the rules emit, in order. */
  ghost function Emitted(events: seq<Event>): seq<Token> {
    if events == [] then [] else Emitted(events[..|events| - 1]) + More(events[..|events| - 1], events[|events| - 1])
  }

  /**
    A newline adds no token and leaves the levels as they are if and only if a bracket is open, or a
    character but one ahead exists and the next is a line end or `#`, or no token has come before and
    the line is as wide as the innermost level.
   */
  lemma SilentBreak(done: seq<Event>, e: Event)
    requires e.NewLine?
    ensures var stack := Lines(Counted(done));
            (BreakTokens(done, e) == [] && Lines(Counted(done + [e])) == stack)
            <==> || Braces(done) > 0
                 || (e.nextnext != -1 && (e.next == '\r' as int || e.next == '\n' as int || e.next == 0x0C || e.next == '#' as int))
                 || (NothingVisible(done) && Indentation(e) == Top(stack))
  {
    hide Indentation, NothingVisible, Braces;
    assert (done + [e])[..|done|] == done;
    var stack, c := Lines(Counted(done)), Indentation(e);
    if Counts(done, e) {
      LinesSnoc(Counted(done), c);
    } else {
      assert Counted(done) + [] == Counted(done);
    }
    if c == Top(stack) {
      assert Outer(stack, c) == stack;
    }
  }

  predicate EndsLine(ch: char) {
    ch == '\r' || ch == '\n' || ch == '\U{000C}'
  }

  /** The text of a newline: its line ends, then the spaces of the next line, whose width counts. */
  lemma SpacesOfNewline(ends: string, spaces: string)
    requires forall i :: 0 <= i < |ends| ==> EndsLine(ends[i])
    requires forall i :: 0 <= i < |spaces| ==> !EndsLine(spaces[i])
    ensures Spacing(ends + spaces) == spaces
    ensures forall next, nextnext :: Indentation(NewLine(ends + spaces, next, nextnext)) == |Expanded(spaces)|
  {
    SpacingSplits(ends, spaces);
    WidthIsExpandedLength(spaces);
  }

  lemma {:induction false} SpacingSplits(ends: string, spaces: string)
    requires forall i :: 0 <= i < |ends| ==> EndsLine(ends[i])
    requires forall i :: 0 <= i < |spaces| ==> !EndsLine(spaces[i])
    ensures Spacing(ends + spaces) == spaces
  {
    if spaces == [] {
      assert ends + spaces == ends;
      SpacingOfEnds(ends);
    } else {
      var init, ch := spaces[..|spaces| - 1], spaces[|spaces| - 1];
      SpacingSplits(ends, init);
      SpacingSnoc(ends + init, ch);
      assert ends + spaces == ends + init + [ch] && init + [ch] == spaces;
    }
  }

  lemma {:induction false} SpacingOfEnds(ends: string)
    requires forall i :: 0 <= i < |ends| ==> EndsLine(ends[i])
    ensures Spacing(ends) == []
  {
    if ends != [] {
      var init, ch := ends[..|ends| - 1], ends[|ends| - 1];
      SpacingOfEnds(init);
      SpacingSnoc(init, ch);
      assert init + [ch] == ends;
    }
  }

  lemma SpacingSnoc(text: string, ch: char)
    ensures Spacing(text + [ch]) == if EndsLine(ch) then Spacing(text) else Spacing(text) + [ch]
  {
    assert (text + [ch])[..|text|] == text;
  }

  lemma EmittedSnoc(done: seq<Event>, e: Event)
    ensures Emitted(done + [e]) == Emitted(done) + More(done, e)
  {
    hide More;
    assert (done + [e])[..|done|] == done;
  }

  /** A rule emits what the rules before it say. */
  lemma ReactEmits(out: seq<Token>, s: State, done: seq<Event>, e: Event)
    requires Staged(out, s, done) && out + s.tokens == Emitted(done)
    ensures out + React(s, e).0.tokens == Emitted(done + [e])
  {
    hide Emitted, React, Counted, Braces, StageOf, NothingVisible, LoneIndent;
    EmittedSnoc(done, e);
    StageMeaning(done);
    if e.NewLine? {
      BreakEmits(s, done, e);
      assert out + (s.tokens + BreakTokens(done, e)) == out + s.tokens + BreakTokens(done, e);
    } else {
      PlainEmits(s, e);
      assert out + s.tokens + [] == out + s.tokens;
    }
  }

  lemma BreakEmits(s: State, done: seq<Event>, e: Event)
    requires e.NewLine? && s.openBraces == Braces(done) && s.indents == Lines(Counted(done))
    requires s.lastToken.None? <==> NothingVisible(done)
    ensures React(s, e).0.tokens == s.tokens + BreakTokens(done, e)
  {
    hide Indentation, Braces, Counted, NothingVisible, Outer, Lines;
    assert s.tokens + [] == s.tokens;
  }

  lemma PlainEmits(s: State, e: Event)
    requires !e.NewLine?
    ensures React(s, e).0.tokens
            == s.tokens + if e.Skip? then [] else [Token(Plain, e.Match? && e.hidden)]
  {
    assert s.tokens + [] == s.tokens;
  }

  lemma {:induction false} SuperEmits(out: seq<Token>, s: State, done: seq<Event>, events: seq<Event>)
    requires Staged(out, s, done) && out + s.tokens == Emitted(done)
    ensures var (s', rest) := Super(s, events);
            && Left(events, rest) && s'.tokens != []
            && out + s'.tokens
               == Emitted(done + Matched(events, rest)) + if s'.tokens[|s'.tokens| - 1].kind.Eof? then [EOF] else []
    decreases |events|
  {
    hide React, Staged, Left, Matched, Emitted, Returned;
    LeftAll(events);
    if events == [] {
      assert done + [] == done;
      assert out + (s.tokens + [EOF]) == out + s.tokens + [EOF];
    } else {
      var e, tail := events[0], events[1..];
      ReactStage(out, s, done, e);
      ReactEmits(out, s, done, e);
      LeftAll(tail);
      LeftTail(events, tail);
      assert [e] + [] == [e];
      if React(s, e).1 {
        SuperEmits(out, React(s, e).0, done + [e], tail);
        var rest := Super(React(s, e).0, tail).1;
        LeftTail(events, rest);
        assert done + [e] + Matched(tail, rest) == done + ([e] + Matched(tail, rest));
      } else {
        ReturnedSome(out, React(s, e).0, done + [e]);
        assert Emitted(done + [e]) + [] == Emitted(done + [e]);
      }
    }
  }

  lemma ReturnedSome(out: seq<Token>, s: State, done: seq<Event>)
    requires Returned(out, s, done)
    ensures s.tokens != []
  {
  }

  /** The tokens that close the levels open at the end of the input. */
  ghost function Closing(events: seq<Event>): seq<Token> {
    var levels := Lines(Counted(events));
    if levels == [] then [] else [NEWLINE] + Dedents(|levels|)
  }

  /** What was handed out or is queued, EOFs left out, is what the rules emit, and at the end of the input what closes the levels. */
  ghost predicate Streamed(events: seq<Event>, r: Run) {
    var all := WithoutEof(r.out + r.s.tokens);
    if r.rest != [] then all == Emitted(Matched(events, r.rest))
    else
      || (r.s.indents == Lines(Counted(events)) && all == Emitted(events))
      || (r.s.indents == [] && all == Emitted(events) + Closing(events))
  }

  lemma {:induction false} EmittedNoEof(events: seq<Event>)
    ensures WithoutEof(Emitted(events)) == Emitted(events)
  {
    if events != [] {
      var init, e := events[..|events| - 1], events[|events| - 1];
      EmittedNoEof(init);
      MoreNoEof(init, e);
      hide More;
      WithoutEofConcat(Emitted(init), More(init, e));
      NoEofs(More(init, e));
    }
  }

  lemma MoreNoEof(done: seq<Event>, e: Event)
    ensures forall i :: 0 <= i < |More(done, e)| ==> !More(done, e)[i].kind.Eof?
  {
    hide Indentation, NothingVisible, Counted, Outer, Counts, Lines;
  }

  lemma {:induction false} NoEofs(ts: seq<Token>)
    requires forall i :: 0 <= i < |ts| ==> !ts[i].kind.Eof?
    ensures WithoutEof(ts) == ts
  {
    if ts != [] {
      NoEofs(ts[..|ts| - 1]);
    }
  }

  lemma OneEof(ts: seq<Token>)
    ensures WithoutEof(ts + [EOF]) == WithoutEof(ts)
  {
    assert (ts + [EOF])[..|ts|] == ts;
  }

  /** A call with input left. */
  lemma OneStreams(events: seq<Event>, r: Run)
    requires r.rest != [] && Left(events, r.rest) && Staged(r.out, r.s, Matched(events, r.rest))
    requires r.out + r.s.tokens == Emitted(Matched(events, r.rest))
    ensures var (t, s, rest) := OneCall(r.s, r.rest);
            && Left(events, rest) && Streamed(events, Run(r.out + [t], s, rest))
            && (rest != [] ==> r.out + [t] + s.tokens == Emitted(Matched(events, rest)))
  {
    hide Staged, Returned, Super, Tracks, StageOf, EndsSilently, Streamed, Emitted;
    var done := Matched(events, r.rest);
    var (s', rest) := Super(r.s, r.rest);
    SuperEmits(r.out, r.s, done, r.rest);
    SuperStage(r.out, r.s, done, r.rest);
    LeftTwice(events, r.rest, rest);
    ReturnedTracks(r.out, s', Matched(events, rest));
    var (t, s, _) := OneCall(r.s, r.rest);
    assert r.out + [t] + s.tokens == r.out + s'.tokens;
    assert Emitted(Matched(events, rest)) + [] == Emitted(Matched(events, rest));
    StreamedThen(events, Run(r.out + [t], s, rest));
  }

  lemma StreamedThen(events: seq<Event>, r: Run)
    requires r.out + r.s.tokens in {Emitted(Matched(events, r.rest)), Emitted(Matched(events, r.rest)) + [EOF]}
    requires r.s.indents == Lines(Counted(Matched(events, r.rest)))
    ensures Streamed(events, r)
  {
    var ts := Emitted(Matched(events, r.rest));
    EmittedNoEof(Matched(events, r.rest));
    OneEof(ts);
    LeftAll(events);
    hide Emitted, WithoutEof, Counted, Lines, Matched;
  }

  lemma ReturnedTracks(out: seq<Token>, s: State, done: seq<Event>)
    requires Returned(out, s, done)
    ensures s.indents == Lines(Counted(done))
  {
  }

  /** A call at the end of the input. */
  lemma EndStreams(events: seq<Event>, r: Run)
    requires r.rest == [] && Streamed(events, r)
    ensures var (t, s, rest) := OneCall(r.s, r.rest); rest == [] && Streamed(events, Run(r.out + [t], s, rest))
  {
    hide Streamed, WithoutEof, Finish, OneCall;
    EndCall(r);
    OneEof(r.out + Finish(r.s).tokens);
    var (t, s, rest) := OneCall(r.s, r.rest);
    FinishedStreams(events, r, Run(r.out + [t], s, rest));
  }

  lemma EndCall(r: Run)
    requires r.rest == []
    ensures var (t, s, rest) := OneCall(r.s, []);
            rest == [] && s.indents == Finish(r.s).indents && r.out + [t] + s.tokens == r.out + Finish(r.s).tokens + [EOF]
  {
    hide Finish;
    var s1 := Finish(r.s);
    assert Super(s1, []) == (Emit(s1, [EOF]), []);
  }

  lemma FinishedStreams(events: seq<Event>, r: Run, r': Run)
    requires r.rest == [] && Streamed(events, r) && r'.rest == [] && r'.s.indents == Finish(r.s).indents
    requires WithoutEof(r'.out + r'.s.tokens) == WithoutEof(r.out + Finish(r.s).tokens)
    ensures Streamed(events, r')
  {
    if r.s.indents != [] {
      FinishStreams(r.out, r.s);
    }
    hide WithoutEof, Emitted, Counted, Lines;
  }

  lemma FinishStreams(out: seq<Token>, s: State)
    requires s.indents != []
    ensures WithoutEof(out + Finish(s).tokens) == WithoutEof(out + s.tokens) + ([NEWLINE] + Dedents(|s.indents|))
  {
    hide WithoutEof, Finish, Dedents;
    var kept, closing := WithoutEof(s.tokens), [NEWLINE] + Dedents(|s.indents|);
    FinishIs(s);
    KeptTwice(s.tokens);
    ClosingNoEof(|s.indents|);
    JoinStreams(out, s.tokens, kept, closing);
    assert out + (kept + closing + [EOF]) == out + kept + closing + [EOF];
  }

  lemma FinishIs(s: State)
    requires s.indents != []
    ensures Finish(s).tokens == WithoutEof(s.tokens) + ([NEWLINE] + Dedents(|s.indents|)) + [EOF]
  {
    hide WithoutEof, Dedents;
  }

  lemma ClosingNoEof(n: nat)
    ensures WithoutEof([NEWLINE] + Dedents(n)) == [NEWLINE] + Dedents(n)
  {
    hide WithoutEof;
    NoEofs([NEWLINE] + Dedents(n));
  }

  lemma JoinStreams(out: seq<Token>, ts: seq<Token>, kept: seq<Token>, closing: seq<Token>)
    requires kept == WithoutEof(ts) == WithoutEof(kept) && WithoutEof(closing) == closing
    ensures WithoutEof(out + kept + closing + [EOF]) == WithoutEof(out + ts) + closing
  {
    hide WithoutEof;
    WithoutEofConcat(out, ts);
    WithoutEofConcat(out, kept);
    WithoutEofConcat(out + kept, closing);
    OneEof(out + kept + closing);
  }

  lemma KeptTwice(ts: seq<Token>)
    ensures WithoutEof(WithoutEof(ts)) == WithoutEof(ts)
  {
    WithoutEofMembers(ts);
    assert forall i :: 0 <= i < |WithoutEof(ts)| ==> WithoutEof(ts)[i] in WithoutEof(ts);
    NoEofs(WithoutEof(ts));
  }

  lemma {:induction false} CallsStream(events: seq<Event>, n: nat)
    ensures var r := Calls(events, n);
            && Left(events, r.rest) && Streamed(events, r)
            && (r.rest != [] ==> r.out + r.s.tokens == Emitted(Matched(events, r.rest)))
  {
    hide OneCall, Staged, Streamed, Emitted, Left, Matched;
    if n == 0 {
      InitStreams(events);
    } else {
      CallsStream(events, n - 1);
      CallsStage(events, n - 1);
      var r := Calls(events, n - 1);
      if r.rest != [] {
        OneStreams(events, r);
      } else {
        EndStreams(events, r);
        LeftAll(events);
        LeftNothing(events);
      }
    }
  }

  lemma LeftNothing(events: seq<Event>)
    ensures Left(events, [])
  {
  }

  lemma InitStreams(events: seq<Event>)
    ensures Left(events, events) && Streamed(events, Run([], INIT, events)) && Emitted(Matched(events, events)) == []
  {
  }

  /** Up to the first EOF: what the rules emit, and what closes the levels, unless the rules leave one open. */
  lemma FirstEofStream(events: seq<Event>, n: nat)
    requires var r := Calls(events, n); OneCall(r.s, r.rest).0.kind.Eof?
    requires forall t :: t in Calls(events, n).out ==> !t.kind.Eof?
    ensures Calls(events, n).out == Emitted(events) + if LeftOpen(events) then [] else Closing(events)
  {
    hide Calls, OneCall, Depth, LeftOpen, Staged, Tracks, Inv, Emitted, WithoutEof, Counted, Lines, Finish, Super;
    var r := Calls(events, n);
    var (t, s, rest) := OneCall(r.s, r.rest);
    FirstEof(events, n);
    FirstEofDepth(events, n);
    CallsStream(events, n + 1);
    CallsKeep(events, n);
    AfterEof(r);
    CallsNext(events, n);
    OnlyOut(r.out, t, s.tokens);
    assert Emitted(events) + [] == Emitted(events);
  }

  lemma CallsNext(events: seq<Event>, n: nat)
    ensures var r := Calls(events, n);
            var (t, s, rest) := OneCall(r.s, r.rest);
            Calls(events, n + 1) == Run(r.out + [t], s, rest)
  {
    hide OneCall;
  }

  lemma OnlyOut(out: seq<Token>, t: Token, rest: seq<Token>)
    requires (forall u :: u in out ==> !u.kind.Eof?) && t.kind.Eof? && forall u :: u in rest ==> u.kind.Eof?
    ensures WithoutEof(out + [t] + rest) == out
  {
    hide WithoutEof;
    NoEofs(out);
    AllEofs([t] + rest);
    WithoutEofConcat(out, [t] + rest);
    assert out + [t] + rest == out + ([t] + rest) && out + [] == out;
  }

  lemma {:induction false} AllEofs(ts: seq<Token>)
    requires forall i :: 0 <= i < |ts| ==> ts[i].kind.Eof?
    ensures WithoutEof(ts) == []
  {
    if ts != [] {
      AllEofs(ts[..|ts| - 1]);
    }
  }

  lemma InvParts(r: Run)
    requires Inv(r)
    ensures Safe(r.s) && Increasing(r.s.indents)
  {
  }

  lemma EveryRunOut(events: seq<Event>, n: nat)
    ensures var out := Calls(events, n).out; forall i :: 0 <= i <= |out| ==> Depth(out[..i]) >= 0
  {
    hide Depth, Calls;
    EveryRun(events, n);
    var Run(out, s, _) := Calls(events, n);
    assert forall i :: 0 <= i <= |out| ==> (out + s.tokens)[..i] == out[..i];
  }

  /** Each call takes input, or closes the open levels, or hands out one more of the tokens before the EOFs. */
  lemma OneDecreases(s: State, events: seq<Event>)
    ensures var (t, s', rest) := OneCall(s, events);
            || |rest| < |events|
            || (|rest| == |events| && |s'.indents| < |s.indents|)
            || (|rest| == |events| && s'.indents == s.indents && |WithoutEof(s'.tokens)| < |WithoutEof(s.tokens)|)
            || t.kind.Eof?
  {
    hide Super, React, WithoutEof;
    if events == [] {
      SuperRest(Finish(s), []);
      if s.indents == [] {
        WithoutEofPoll(s.tokens);
      }
    } else {
      SuperTakes(s, events);
    }
  }

  lemma SuperTakes(s: State, events: seq<Event>)
    requires events != []
    ensures |Super(s, events).1| < |events|
  {
    hide React;
    SuperRest(React(s, events[0]).0, events[1..]);
  }

  lemma {:induction false} WithoutEofConcat(a: seq<Token>, b: seq<Token>)
    ensures WithoutEof(a + b) == WithoutEof(a) + WithoutEof(b)
  {
    if b == [] {
      assert a + b == a;
    } else {
      assert (a + b)[..|a + b| - 1] == a + b[..|b| - 1];
      WithoutEofConcat(a, b[..|b| - 1]);
    }
  }

  lemma WithoutEofPoll(ts: seq<Token>)
    ensures var all := ts + [EOF];
            all[0].kind.Eof? || |WithoutEof(all[1..])| < |WithoutEof(ts)|
  {
    var all := ts + [EOF];
    WithoutEofConcat(ts, [EOF]);
    WithoutEofConcat([all[0]], all[1..]);
    assert [all[0]] + all[1..] == all && [all[0]][..0] == [] && [EOF][..0] == [];
  }

  // ---------------------------------------------------------------------------
  // The lexer as the source has it
  // ---------------------------------------------------------------------------

  class GDScriptLexerBase {
    const events: seq<Event>  // what the generated lexer will match
    var pos: nat
    var tokens: seq<Token>
    var indents: seq<nat>
    var openBraces: int
    var lastToken: Option<Token>

    constructor (events: seq<Event>)
      ensures this.events == events && pos == 0 && View() == INIT
    {
      this.events, pos := events, 0;
      tokens, indents, openBraces, lastToken := [], [], 0, None;
    }

    ghost function View(): State
      reads this
    {
      State(tokens, indents, openBraces, lastToken)
    }

    method EmitToken(t: Token)
      modifies this`tokens
      ensures tokens == old(tokens) + [t]
    {
      tokens := tokens + [t];
    }

    /** Reads the last token, which must exist. */
    method CreateDedent() returns (t: Token)
      requires lastToken.Some?
      ensures t == DEDENT
    {
      var last := lastToken.value;
      t := DEDENT;
    }

    method OnNewLine(text: string, next: int, nextnext: int) returns (skipped: bool)
      requires Safe(View())
      modifies this`tokens, this`indents
      ensures (View(), skipped) == React(old(View()), NewLine(text, next, nextnext))
    {
      hide Width, Spacing, LineTokens, Line;
      if openBraces > 0 || (nextnext != -1 && (next == 13 || next == 10 || next == 12 || next == 35)) {
        return true;
      }
      var indent := GetIndentationCount(Spacing(text));
      WidthIsExpandedLength(Spacing(text));
      skipped := StartLine(indent);
    }

    /** The tokens of a newline that counts. */
    method StartLine(indent: nat) returns (skipped: bool)
      requires Safe(View())
      modifies this`tokens, this`indents
      ensures tokens == old(tokens) + LineTokens(old(View()), indent)
      ensures indents == Line(old(indents), indent) && skipped == (indent == Top(old(indents)))
    {
      if lastToken.Some? {
        EmitToken(NEWLINE);
      }
      ghost var lead := if lastToken.None? then [] else [NEWLINE];
      assert tokens == old(tokens) + lead;
      var previous := if indents == [] then 0 else indents[|indents| - 1];
      skipped := false;
      if indent == previous {
        skipped := true;
        assert LineTokens(old(View()), indent) == lead;
      } else if indent > previous {
        indents := indents + [indent];
        EmitToken(INDENT);
        assert old(tokens) + lead + [INDENT] == old(tokens) + (lead + [INDENT]);
      } else {
        PopDeeper(indent);
        ghost var dedents := Dedents(old(|indents|) - |indents|);
        assert old(tokens) + lead + dedents == old(tokens) + (lead + dedents);
      }
    }

    method PopDeeper(indent: nat)
      requires indents != [] ==> lastToken.Some?
      modifies this`tokens, this`indents
      ensures indents == Outer(old(indents), indent)
      ensures tokens == old(tokens) + Dedents(old(|indents|) - |indents|)
    {
      hide Outer, Dedents;
      ghost var n, before, left := |indents|, tokens, Outer(indents, indent);
      DedentsSnoc(before, 0);
      while indents != [] && indents[|indents| - 1] > indent
        invariant |indents| <= n && Outer(indents, indent) == left && tokens == before + Dedents(n - |indents|)
        invariant indents != [] ==> lastToken.Some?
      {
        OuterPop(indents, indent);
        var t := CreateDedent();
        EmitToken(t);
        DedentsSnoc(before, n - |indents|);
        indents := indents[..|indents| - 1];
      }
      OuterPop(indents, indent);
    }

    static lemma DedentsSnoc(ts: seq<Token>, n: nat)
      ensures ts + Dedents(0) == ts && ts + Dedents(n) + [DEDENT] == ts + Dedents(n + 1)
    {
    }

    static lemma OuterPop(stack: seq<nat>, c: nat)
      ensures Outer(stack, c) == if stack != [] && stack[|stack| - 1] > c then Outer(stack[..|stack| - 1], c) else stack
    {
    }

    /** `super.nextToken()`. */
    method SuperNextToken()
      requires pos <= |events| && Safe(View()) && Increasing(indents)
      modifies this
      ensures pos <= |events| && (View(), events[pos..]) == Super(old(View()), old(events[pos..]))
    {
      hide React;
      while pos < |events|
        invariant pos <= |events| && Safe(View())
        invariant Super(View(), events[pos..]) == Super(old(View()), old(events[pos..]))
      {
        ghost var s := View();
        var e := events[pos];
        assert events[pos..][0] == e && events[pos..][1..] == events[pos + 1..];
        pos := pos + 1;
        var skipped := Handle(e);
        SkipsSafely(s, e);
        if !skipped {
          return;
        }
      }
      EmitToken(EOF);
    }

    static lemma SkipsSafely(s: State, e: Event)
      requires Safe(s)
      ensures React(s, e).1 ==> Safe(React(s, e).0)
    {
      hide Indentation;
    }

    method Handle(e: Event) returns (skipped: bool)
      requires Safe(View())
      modifies this`tokens, this`indents, this`openBraces
      ensures (View(), skipped) == React(old(View()), e)
    {
      skipped := false;
      match e {
        case Match(hidden) => EmitToken(Token(Plain, hidden));
        case OpenBrace =>
          openBraces := openBraces + 1;
          EmitToken(Token(Plain, false));
        case CloseBrace =>
          openBraces := openBraces - 1;
          EmitToken(Token(Plain, false));
        case NewLine(text, next, nextnext) => skipped := OnNewLine(text, next, nextnext);
        case Skip => skipped := true;
      }
    }

    /** The end-of-input block. */
    method CloseLevels()
      requires Safe(View()) && indents != []
      modifies this`tokens, this`indents
      ensures View() == Finish(old(View()))
    {
      DropEof();
      EmitToken(NEWLINE);
      ghost var n, before := |indents|, tokens;
      while indents != []
        invariant |indents| <= n && Safe(View()) && tokens == before + Dedents(n - |indents|)
      {
        var t := CreateDedent();
        EmitToken(t);
        indents := indents[..|indents| - 1];
      }
      EmitToken(EOF);
    }

    /** Removes EOF tokens from the queue, from its end to its start. */
    method DropEof()
      modifies this`tokens
      ensures tokens == WithoutEof(old(tokens))
    {
      hide WithoutEof;
      var i := |tokens|;
      WithoutEofAll(tokens);
      ghost var kept: seq<Token> := [];
      while i > 0
        invariant 0 <= i <= |old(tokens)| && tokens == old(tokens)[..i] + kept
        invariant WithoutEof(old(tokens)) == WithoutEof(old(tokens)[..i]) + kept
      {
        i := i - 1;
        WithoutEofStep(old(tokens), i, kept);
        assert tokens[i] == old(tokens)[i] && tokens[..i] == old(tokens)[..i] && tokens[i + 1..] == kept;
        if tokens[i].kind.Eof? {
          tokens := tokens[..i] + tokens[i + 1..];
        } else {
          kept := [tokens[i]] + kept;
        }
      }
    }

    static lemma WithoutEofAll(ts: seq<Token>)
      ensures WithoutEof([]) == [] && WithoutEof(ts) == WithoutEof(ts[..|ts|]) + [] && ts == ts[..|ts|] + []
    {
      assert ts[..|ts|] == ts;
    }

    static lemma WithoutEofStep(ts: seq<Token>, i: nat, kept: seq<Token>)
      requires i < |ts|
      ensures WithoutEof(ts[..i + 1]) + kept
              == WithoutEof(ts[..i]) + if ts[i].kind.Eof? then kept else [ts[i]] + kept
    {
      assert ts[..i + 1][..i] == ts[..i];
    }

    method NextToken() returns (t: Token)
      requires pos <= |events| && Safe(View()) && Increasing(indents)
      modifies this
      ensures pos <= |events|
      ensures (t, View(), events[pos..]) == OneCall(old(View()), old(events[pos..]))
    {
      hide Super, Finish, Increasing;
      if pos == |events| && indents != [] {
        CloseLevels();
        FinishSafe(old(View()));
      }
      FinishNothing(old(View()));
      SuperNextToken();
      if tokens == [] {
        return EOF;
      }
      var next := tokens[|tokens| - 1];
      if !next.hidden {
        lastToken := Some(next);
      }
      t := tokens[0];
      tokens := tokens[1..];
    }

    static lemma FinishSafe(s: State)
      ensures Finish(s).indents == [] && Increasing(Finish(s).indents)
    {
    }

    static lemma FinishNothing(s: State)
      ensures s.indents == [] ==> Finish(s) == s
    {
    }
  }

  /** Pulls tokens up to the first EOF: they end with it, and leave a level open exactly where the rules do. */
  method Tokenize(events: seq<Event>) returns (out: seq<Token>)
    ensures out == Calls(events, |out|).out
    ensures out != [] && out[|out| - 1].kind.Eof? && forall i :: 0 <= i < |out| - 1 ==> !out[i].kind.Eof?
    ensures out == Emitted(events) + (if LeftOpen(events) then [] else Closing(events)) + [out[|out| - 1]]
    ensures Depth(out) == if LeftOpen(events) then 1 else 0
    ensures forall i :: 0 <= i <= |out| ==> Depth(out[..i]) >= 0
  {
    hide OneCall, Depth, LeftOpen, Inv, Emitted, Closing;
    var lexer := new GDScriptLexerBase(events);
    out := [];
    assert events[0..] == events;
    while true
      invariant fresh(lexer) && lexer.events == events && lexer.pos <= |events|
      invariant Run(out, lexer.View(), events[lexer.pos..]) == Calls(events, |out|)
      invariant forall t :: t in out ==> !t.kind.Eof?
      decreases |events| - lexer.pos, |lexer.indents|, |WithoutEof(lexer.tokens)|
    {
      ghost var r := Calls(events, |out|);
      CallsKeep(events, |out|);
      InvParts(r);
      OneDecreases(r.s, r.rest);
      var t := lexer.NextToken();
      assert Calls(events, |out + [t]|) == Run(out + [t], lexer.View(), events[lexer.pos..]);
      if t.kind.Eof? {
        FirstEof(events, |out|);
        FirstEofStream(events, |out|);
        DepthConcat(out, [t]);
        DepthOne(t);
        out := out + [t];
        EveryRunOut(events, |out|);
        return;
      }
      out := out + [t];
    }
  }
}
