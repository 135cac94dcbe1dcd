/**
  How the lexer for ANTLR grammars tells `[` of a character set from `[` of an argument: it tracks
  on emitted tokens whether it is inside a lexer rule.  Over whole grammar files the tracking is
  right; where options blocks mislead it is stated exactly.
 */
module Antlr4Adaptor {

  /** Emitted tokens; `Id(upper)` is an identifier with the case of its first letter, `Bracket` a `[`. */
  datatype Token = Options | Tokens | Channels | RBrace | At | Semi | Action | Id(upper: bool) | Bracket | Other

  /** `_currentRuleType`. */
  datatype RuleType = Invalid | Prequel | OptionsBlock | InAction | TokenRef | RuleRef

  function Emit(s: RuleType, t: Token): RuleType {
    if (t.Options? || t.Tokens? || t.Channels?) && s.Invalid? then Prequel
    else if t.Options? && s.TokenRef? then OptionsBlock
    else if t.RBrace? && s.Prequel? then Invalid
    else if t.RBrace? && s.OptionsBlock? then TokenRef
    else if t.At? && s.Invalid? then InAction
    else if t.Semi? && s.OptionsBlock? then s
    else if t.Action? && s.InAction? then Invalid
    else if t.Id? then if s.Invalid? then RuleOf(t.upper) else s
    else if t.Semi? then Invalid
    else s
  }

  function RuleOf(upper: bool): RuleType {
    if upper then TokenRef else RuleRef
  }

  /** A `[` met in state `s` starts a character set. */
  predicate CharSet(s: RuleType, t: Token) {
    t.Bracket? && s.TokenRef?
  }

  /** The state after the tokens, and for each token whether it started a character set. */
  function Run(s: RuleType, ts: seq<Token>): (RuleType, seq<bool>) {
    if ts == [] then (s, [])
    else
      var (s', sets) := Run(s, ts[..|ts| - 1]);
      (Emit(s', ts[|ts| - 1]), sets + [CharSet(s', ts[|ts| - 1])])
  }

  lemma {:induction false} RunConcat(s: RuleType, a: seq<Token>, b: seq<Token>)
    ensures Run(s, a + b) == (Run(Run(s, a).0, b).0, Run(s, a).1 + Run(Run(s, a).0, b).1)
  {
    hide Emit, CharSet;
    if b == [] {
      assert a + b == a && Run(s, a).1 + [] == Run(s, a).1;
    } else {
      var init := b[..|b| - 1];
      assert (a + b)[..|a + b| - 1] == a + init;
      RunConcat(s, a, init);
      var (sa, xs) := Run(s, a);
      var (sb, ys) := Run(sa, init);
      var isSet := CharSet(sb, b[|b| - 1]);
      assert xs + ys + [isSet] == xs + (ys + [isSet]);
    }
  }

  lemma RunOne(s: RuleType, t: Token)
    ensures Run(s, [t]) == (Emit(s, t), [CharSet(s, t)])
  {
    hide Emit, CharSet;
    assert [t][..0] == [] && Run(s, []) == (s, []) && [] + [CharSet(s, t)] == [CharSet(s, t)];
  }

  /** Tokens between a first and a last one. */
  lemma Sandwich(s: RuleType, first: Token, middle: seq<Token>, last: Token)
    ensures var s1 := Emit(s, first);
            var (s2, sets) := Run(s1, middle);
            Run(s, [first] + middle + [last]) == (Emit(s2, last), [CharSet(s, first)] + sets + [CharSet(s2, last)])
  {
    hide Run, Emit, CharSet;
    RunOne(s, first);
    RunConcat(s, [first], middle);
    RunConcat(s, [first] + middle, [last]);
    RunOne(Run(Emit(s, first), middle).0, last);
  }

  // ---------------------------------------------------------------------------
  // Grammar files
  // ---------------------------------------------------------------------------

  /** A piece of a rule's body: a token, or an options block (`options {`, its contents, `}`). */
  datatype Piece = One(t: Token) | Block(contents: seq<Token>)

  datatype Construct =
    | Prequels(kind: Token, contents: seq<Token>)    // options, tokens or channels block
    | NamedAction(name: seq<Token>)                  // @ ... { }
    | Rule(upper: bool, body: seq<Piece>)            // also "T;" of "grammar T;", and of import and mode
    | Keyword                                        // lexer, grammar, fragment, import, mode, ...

  /** Names, `=`, commas and `;`: what stands in a prequel or options block. */
  predicate BlockToken(t: Token) {
    t.Id? || t.Semi? || t.Other?
  }

  ghost predicate BlockTokens(ts: seq<Token>) {
    forall i :: 0 <= i < |ts| ==> BlockToken(ts[i])
  }

  /** No identifier follows the last `;`: every option is terminated. */
  ghost predicate Terminated(ts: seq<Token>) {
    forall i :: 0 <= i < |ts| && ts[i].Id? ==> exists j :: i < j < |ts| && ts[j].Semi?
  }

  ghost predicate ProperPiece(upper: bool, p: Piece) {
    match p
    case One(t) => !t.Semi? && !t.Options?
    case Block(contents) => upper && BlockTokens(contents)
  }

  ghost predicate Proper(c: Construct) {
    match c
    case Prequels(kind, contents) =>
      && (kind.Options? || kind.Tokens? || kind.Channels?) && BlockTokens(contents)
      && (Semi !in contents || Terminated(contents))
    case NamedAction(name) => forall i :: 0 <= i < |name| ==> name[i].Id? || name[i].Other?
    case Keyword => true
    case Rule(upper, body) => forall i :: 0 <= i < |body| ==> ProperPiece(upper, body[i])
  }

  function FlatPiece(p: Piece): seq<Token> {
    match p
    case One(t) => [t]
    case Block(contents) => [Options] + contents + [RBrace]
  }

  function FlatBody(body: seq<Piece>): seq<Token> {
    if body == [] then [] else FlatBody(body[..|body| - 1]) + FlatPiece(body[|body| - 1])
  }

  function Flat(c: Construct): seq<Token> {
    match c
    case Prequels(kind, contents) => [kind] + contents + [RBrace]
    case NamedAction(name) => [At] + name + [Action]
    case Rule(upper, body) => [Id(upper)] + FlatBody(body) + [Semi]
    case Keyword => [Other]
  }

  function FlatFile(cs: seq<Construct>): seq<Token> {
    if cs == [] then [] else FlatFile(cs[..|cs| - 1]) + Flat(cs[|cs| - 1])
  }

  /** Which tokens of a rule's body should start a character set: each `[` of a lexer rule outside its options. */
  function BodySets(upper: bool, body: seq<Piece>): seq<bool> {
    if body == [] then []
    else
      BodySets(upper, body[..|body| - 1]) +
      match body[|body| - 1]
      case One(t) => [t.Bracket? && upper]
      case Block(contents) => [false] + None(|contents|) + [false]
  }

  function None(n: nat): seq<bool> {
    seq(n, _ => false)
  }

  function Sets(c: Construct): seq<bool> {
    match c
    case Prequels(_, contents) => [false] + None(|contents|) + [false]
    case NamedAction(name) => [false] + None(|name|) + [false]
    case Rule(upper, body) => [false] + BodySets(upper, body) + [false]
    case Keyword => [false]
  }

  function FileSets(cs: seq<Construct>): seq<bool> {
    if cs == [] then [] else FileSets(cs[..|cs| - 1]) + Sets(cs[|cs| - 1])
  }

  // ---------------------------------------------------------------------------
  // Blocks and actions
  // ---------------------------------------------------------------------------

  /** Inside an options block of a lexer rule, or the name of an action, nothing changes. */
  lemma {:induction false} StaysPut(s: RuleType, ts: seq<Token>)
    requires || (s.OptionsBlock? && BlockTokens(ts))
             || (s.InAction? && forall i :: 0 <= i < |ts| ==> ts[i].Id? || ts[i].Other?)
    ensures Run(s, ts) == (s, None(|ts|))
  {
    if ts != [] {
      StaysPut(s, ts[..|ts| - 1]);
      assert None(|ts| - 1) + [false] == None(|ts|);
    } else {
      assert None(0) == [];
    }
  }

  /** After the last `;`, the state a prequel block is left in. */
  function Leftover(ts: seq<Token>): RuleType {
    if ts == [] then Prequel
    else
      var s := Leftover(ts[..|ts| - 1]);
      var t := ts[|ts| - 1];
      if t.Semi? then Invalid else if t.Id? && s.Invalid? then RuleOf(t.upper) else s
  }

  lemma {:induction false} PrequelRuns(ts: seq<Token>)
    requires BlockTokens(ts)
    ensures Run(Prequel, ts) == (Leftover(ts), None(|ts|))
  {
    if ts == [] {
      assert None(0) == [];
    } else {
      PrequelRuns(ts[..|ts| - 1]);
      LeftoverKinds(ts[..|ts| - 1]);
      assert None(|ts| - 1) + [false] == None(|ts|);
    }
  }

  /** The block's first `;` ends the prequel state, so only terminated options lead back out of it. */
  lemma {:induction false} LeftoverExactly(ts: seq<Token>)
    ensures Leftover(ts).Prequel? <==> Semi !in ts
    ensures Semi in ts ==> (Leftover(ts).Invalid? <==> Terminated(ts))
  {
    if ts != [] {
      var init, t := ts[..|ts| - 1], ts[|ts| - 1];
      LeftoverExactly(init);
      assert ts == init + [t];
      if t.Semi? {
        assert ts[|ts| - 1].Semi?;
      } else if t.Id? {
        assert ts[|ts| - 1].Id?;
      } else {
        TerminatedInit(ts);
      }
    }
  }

  lemma TerminatedInit(ts: seq<Token>)
    requires ts != [] && !ts[|ts| - 1].Semi? && !ts[|ts| - 1].Id?
    ensures Terminated(ts) <==> Terminated(ts[..|ts| - 1])
  {
    var init := ts[..|ts| - 1];
    if Terminated(ts) {
      forall i | 0 <= i < |init| && init[i].Id? ensures exists j :: i < j < |init| && init[j].Semi? {
        assert ts[i].Id?;
        var j :| i < j < |ts| && ts[j].Semi?;
        assert init[j].Semi?;
      }
    }
    if Terminated(init) {
      forall i | 0 <= i < |ts| && ts[i].Id? ensures exists j :: i < j < |ts| && ts[j].Semi? {
        assert init[i].Id?;
        var j :| i < j < |init| && init[j].Semi?;
        assert ts[j].Semi?;
      }
    }
  }

  /** A prequel block leads back to the top level exactly when it has no `;` or all its options are terminated. */
  lemma PrequelExactly(kind: Token, contents: seq<Token>)
    requires (kind.Options? || kind.Tokens? || kind.Channels?) && BlockTokens(contents)
    ensures Run(Invalid, [kind] + contents + [RBrace]).0.Invalid? <==> Semi !in contents || Terminated(contents)
    ensures Run(Invalid, [kind] + contents + [RBrace]).1 == [false] + None(|contents|) + [false]
  {
    hide Run, None, Terminated;
    PrequelRuns(contents);
    Sandwich(Invalid, kind, contents, RBrace);
    LeftoverExactly(contents);
    LeftoverKinds(contents);
  }

  lemma {:induction false} LeftoverKinds(ts: seq<Token>)
    ensures !Leftover(ts).OptionsBlock? && !Leftover(ts).InAction?
  {
    if ts != [] {
      LeftoverKinds(ts[..|ts| - 1]);
    }
  }

  // ---------------------------------------------------------------------------
  // Rules and files
  // ---------------------------------------------------------------------------

  lemma PieceRuns(upper: bool, p: Piece)
    requires ProperPiece(upper, p)
    ensures Run(RuleOf(upper), FlatPiece(p))
            == (RuleOf(upper), match p case One(t) => [t.Bracket? && upper] case Block(ts) => [false] + None(|ts|) + [false])
  {
    match p {
      case One(t) => RunOne(RuleOf(upper), t);
      case Block(ts) =>
        StaysPut(OptionsBlock, ts);
        Sandwich(RuleOf(upper), Options, ts, RBrace);
    }
  }

  lemma {:induction false} BodyRuns(upper: bool, body: seq<Piece>)
    requires forall i :: 0 <= i < |body| ==> ProperPiece(upper, body[i])
    ensures Run(RuleOf(upper), FlatBody(body)) == (RuleOf(upper), BodySets(upper, body))
  {
    hide ProperPiece, FlatPiece;
    if body != [] {
      var init, p := body[..|body| - 1], body[|body| - 1];
      BodyRuns(upper, init);
      PieceRuns(upper, p);
      RunConcat(RuleOf(upper), FlatBody(init), FlatPiece(p));
    }
  }

  lemma NamedActionRuns(name: seq<Token>)
    requires Proper(NamedAction(name))
    ensures Run(Invalid, [At] + name + [Action]) == (Invalid, [false] + None(|name|) + [false])
  {
    hide Run, None;
    StaysPut(InAction, name);
    Sandwich(Invalid, At, name, Action);
  }

  lemma RuleRuns(upper: bool, body: seq<Piece>)
    requires Proper(Rule(upper, body))
    ensures Run(Invalid, [Id(upper)] + FlatBody(body) + [Semi]) == (Invalid, [false] + BodySets(upper, body) + [false])
  {
    hide Run, FlatBody, BodySets, ProperPiece;
    BodyRuns(upper, body);
    Sandwich(Invalid, Id(upper), FlatBody(body), Semi);
  }

  /** Every construct starts and ends at the top level, and starts character sets exactly where it should. */
  lemma ConstructRuns(c: Construct)
    requires Proper(c)
    ensures Run(Invalid, Flat(c)) == (Invalid, Sets(c))
  {
    match c {
      case Prequels(kind, contents) => PrequelExactly(kind, contents);
      case NamedAction(name) => NamedActionRuns(name);
      case Rule(upper, body) => RuleRuns(upper, body);
      case Keyword => RunOne(Invalid, Other);
    }
    hide Run, None, BodySets, FlatBody;
  }

  lemma {:induction false} FileRuns(cs: seq<Construct>)
    requires forall i :: 0 <= i < |cs| ==> Proper(cs[i])
    ensures Run(Invalid, FlatFile(cs)) == (Invalid, FileSets(cs))
  {
    hide Proper, Flat, Sets;
    if cs != [] {
      var init, c := cs[..|cs| - 1], cs[|cs| - 1];
      FileRuns(init);
      ConstructRuns(c);
      RunConcat(Invalid, FlatFile(init), Flat(c));
    }
  }

  // ---------------------------------------------------------------------------
  // Options in a parser rule
  // ---------------------------------------------------------------------------

  /** The last `;` is at `last`, and the first identifier after it, at `first`, has the given case. */
  ghost predicate ResumesAt(ts: seq<Token>, last: nat, first: nat, upper: bool) {
    && last < first < |ts| && ts[last].Semi? && ts[first] == Id(upper)
    && (forall j :: last < j < |ts| ==> !ts[j].Semi?)
    && (forall j :: last < j < first ==> !ts[j].Id?)
  }

  /** There is a `;`, and the first identifier after the last one is upper-case, or lower-case. */
  ghost predicate Resumes(ts: seq<Token>, upper: bool) {
    exists last: nat, first: nat :: ResumesAt(ts, last, first, upper)
  }

  lemma {:induction false} LastSemi(ts: seq<Token>)
    requires Semi in ts
    ensures exists last :: 0 <= last < |ts| && ts[last].Semi? && forall j :: last < j < |ts| ==> !ts[j].Semi?
  {
    var init := ts[..|ts| - 1];
    if !ts[|ts| - 1].Semi? {
      LastSemi(init);
      var last :| 0 <= last < |init| && init[last].Semi? && forall j :: last < j < |init| ==> !init[j].Semi?;
      assert ts[last].Semi? && forall j :: last < j < |init| ==> !ts[j].Semi?;
    }
  }

  /** An identifier after terminated options is the first after the last `;`. */
  lemma ResumesNow(init: seq<Token>, t: Token)
    requires t.Id? && Semi in init && Terminated(init)
    ensures Resumes(init + [t], t.upper)
  {
    LastSemi(init);
    var last :| 0 <= last < |init| && init[last].Semi? && forall j :: last < j < |init| ==> !init[j].Semi?;
    assert forall j :: last < j < |init| ==> !init[j].Id?;
    assert ResumesAt(init + [t], last, |init|, t.upper);
  }

  lemma TerminatedAt(ts: seq<Token>, last: nat)
    requires last < |ts| && ts[last].Semi? && forall j :: last < j < |ts| ==> !ts[j].Id?
    ensures Semi in ts && Terminated(ts)
  {
  }

  /** Otherwise a token that is no `;` changes nothing. */
  lemma ResumesSnoc(init: seq<Token>, t: Token, upper: bool)
    requires !t.Semi? && (t.Id? ==> !(Semi in init && Terminated(init)))
    ensures Resumes(init + [t], upper) <==> Resumes(init, upper)
  {
    var ts := init + [t];
    if Resumes(init, upper) {
      var last: nat, first: nat :| ResumesAt(init, last, first, upper);
      assert ResumesAt(ts, last, first, upper);
    }
    if Resumes(ts, upper) {
      var last: nat, first: nat :| ResumesAt(ts, last, first, upper);
      assert init[last].Semi? && forall j :: 0 <= j < |init| ==> init[j] == ts[j];
      if first == |init| {
        TerminatedAt(init, last);
      } else {
        assert ResumesAt(init, last, first, upper);
      }
    }
  }

  lemma {:induction false} LeftoverRule(ts: seq<Token>, upper: bool)
    ensures Leftover(ts) == RuleOf(upper) <==> Resumes(ts, upper)
  {
    if ts != [] {
      hide Resumes, Terminated;
      var init, t := ts[..|ts| - 1], ts[|ts| - 1];
      LeftoverRule(init, upper);
      LeftoverExactly(init);
      assert init + [t] == ts;
      if t.Semi? {
        NotResumed(ts, upper);
      } else if t.Id? && Leftover(init).Invalid? {
        ResumesNow(init, t);
        ResumesOnce(ts, upper, t.upper);
      } else {
        ResumesSnoc(init, t, upper);
      }
    }
  }

  lemma NotResumed(ts: seq<Token>, upper: bool)
    requires ts != [] && ts[|ts| - 1].Semi?
    ensures !Resumes(ts, upper)
  {
  }

  lemma ResumesOnce(ts: seq<Token>, u: bool, v: bool)
    requires Resumes(ts, v)
    ensures Resumes(ts, u) ==> u == v
  {
    if Resumes(ts, u) {
      var l1: nat, f1: nat :| ResumesAt(ts, l1, f1, u);
      var l2: nat, f2: nat :| ResumesAt(ts, l2, f2, v);
      assert l1 == l2 && f1 == f2;
    }
  }

  /** What may follow an options block in a parser rule, up to its `;`. */
  predicate BodyToken(t: Token) {
    t.Id? || t.Bracket? || t.Action? || t.RBrace? || t.Other?
  }

  lemma {:induction false} ParserOptionsRun(ts: seq<Token>)
    requires forall i :: 0 <= i < |ts| ==> BodyToken(ts[i]) || ts[i].Semi?
    ensures Run(RuleRef, ts).0 == if Leftover(ts).Prequel? then RuleRef else Leftover(ts)
  {
    if ts != [] {
      ParserOptionsRun(ts[..|ts| - 1]);
      LeftoverKinds(ts[..|ts| - 1]);
    }
  }

  /**
    An options block in a parser rule, and some of the rule's body after it.  The tracker stays in
    the rule if and only if the block has no `;` or the first identifier after its last `;` is
    lower-case; a `[` at this point starts a character set, which a parser rule does not have, if
    and only if that identifier is upper-case.
   */
  lemma ParserRuleOptions(contents: seq<Token>, more: seq<Token>)
    requires BlockTokens(contents) && forall i :: 0 <= i < |more| ==> BodyToken(more[i])
    ensures var ts := contents + [RBrace] + more;
            var (s, sets) := Run(RuleRef, [Options] + ts + [Bracket]);
            && (s.RuleRef? <==> Semi !in contents || Resumes(ts, false))
            && |sets| == |ts| + 2 && (sets[|ts| + 1] <==> Resumes(ts, true))
  {
    hide Run, Resumes, Terminated;
    var ts := contents + [RBrace] + more;
    Sandwich(RuleRef, Options, ts, Bracket);
    ParserOptionsRun(ts);
    RunLength(RuleRef, ts);
    LeftoverKinds(ts);
    LeftoverExactly(ts);
    LeftoverRule(ts, true);
    LeftoverRule(ts, false);
    assert forall t :: t in more ==> !t.Semi?;
  }

  lemma {:induction false} RunLength(s: RuleType, ts: seq<Token>)
    ensures |Run(s, ts).1| == |ts|
  {
    if ts != [] {
      RunLength(s, ts[..|ts| - 1]);
    }
  }

  /** For instance: after `options { k; }` in a parser rule, a lexer rule's name and `[` start a character set. */
  lemma ParserRuleMistaken()
    ensures var (_, sets) := Run(RuleRef, [Options, Id(false), Semi, RBrace, Id(true), Bracket]);
            |sets| == 6 && sets[5]
  {
    var contents, more := [Id(false), Semi], [Id(true)];
    var ts := contents + [RBrace] + more;
    ParserRuleOptions(contents, more);
    assert [Options] + ts + [Bracket] == [Options, Id(false), Semi, RBrace, Id(true), Bracket];
    assert ResumesAt(ts, 1, 3, true);
  }

  // ---------------------------------------------------------------------------
  // The adaptor as the source has it
  // ---------------------------------------------------------------------------

  datatype Mode = DefaultMode | Argument | LexerCharSet

  class LexerAdaptor {
    var currentRuleType: RuleType
    var mode: Mode
    var modeStack: seq<Mode>

    constructor ()
      ensures currentRuleType == Invalid && mode == DefaultMode && modeStack == []
    {
      currentRuleType, mode, modeStack := Invalid, DefaultMode, [];
    }

    /** `[`: the mode of a character set in a lexer rule, of an argument elsewhere. */
    method HandleBeginArgument()
      modifies this`mode, this`modeStack
      ensures mode == (if CharSet(currentRuleType, Bracket) then LexerCharSet else Argument)
      ensures modeStack == old(modeStack) + [old(mode)]
    {
      modeStack := modeStack + [mode];
      if currentRuleType.TokenRef? {
        mode := LexerCharSet;
      } else {
        mode := Argument;
      }
    }

    /** `]`: back to the mode before; false where the mode stack is empty. */
    method HandleEndArgument() returns (ok: bool, content: bool)
      modifies this`mode, this`modeStack
      ensures ok == (old(modeStack) != [])
      ensures ok ==> old(modeStack) == modeStack + [mode] && content == (modeStack != [])
    {
      ok, content := modeStack != [], false;
      if ok {
        mode := modeStack[|modeStack| - 1];
        modeStack := modeStack[..|modeStack| - 1];
        content := |modeStack| > 0;
      }
    }

    method EmitToken(t: Token)
      modifies this`currentRuleType
      ensures currentRuleType == Emit(old(currentRuleType), t)
    {
      if (t.Options? || t.Tokens? || t.Channels?) && currentRuleType.Invalid? {
        currentRuleType := Prequel;
      } else if t.Options? && currentRuleType.TokenRef? {
        currentRuleType := OptionsBlock;
      } else if t.RBrace? && currentRuleType.Prequel? {
        currentRuleType := Invalid;
      } else if t.RBrace? && currentRuleType.OptionsBlock? {
        currentRuleType := TokenRef;
      } else if t.At? && currentRuleType.Invalid? {
        currentRuleType := InAction;
      } else if t.Semi? && currentRuleType.OptionsBlock? {
      } else if t.Action? && currentRuleType.InAction? {
        currentRuleType := Invalid;
      } else if t.Id? {
        var ruleType := if t.upper then TokenRef else RuleRef;
        if currentRuleType.Invalid? {
          currentRuleType := ruleType;
        }
      } else if t.Semi? {
        currentRuleType := Invalid;
      }
    }
  }

  lemma RunNext(s: RuleType, ts: seq<Token>, n: nat)
    requires n < |ts|
    ensures var (s', sets) := Run(s, ts[..n]); Run(s, ts[..n + 1]) == (Emit(s', ts[n]), sets + [CharSet(s', ts[n])])
  {
    assert ts[..n + 1][..n] == ts[..n];
  }

  /** One token: whether the lexer enters a character set. */
  method Feed(lexer: LexerAdaptor, t: Token) returns (isSet: bool)
    modifies lexer
    ensures lexer.currentRuleType == Emit(old(lexer.currentRuleType), t) && isSet == CharSet(old(lexer.currentRuleType), t)
  {
    isSet := false;
    if t.Bracket? {
      lexer.HandleBeginArgument();
      isSet := lexer.mode.LexerCharSet?;
      var ok, content := lexer.HandleEndArgument();
    }
    lexer.EmitToken(t);
  }

  /** A whole file: for each token whether the lexer entered a character set. */
  method Scan(cs: seq<Construct>) returns (sets: seq<bool>)
    requires forall i :: 0 <= i < |cs| ==> Proper(cs[i])
    ensures sets == FileSets(cs)
  {
    hide Proper, Run, Emit, CharSet, FlatFile, FileSets;
    var lexer := new LexerAdaptor();
    var ts := FlatFile(cs);
    sets := [];
    RunNone(Invalid, ts);
    for i := 0 to |ts|
      invariant fresh(lexer) && Run(Invalid, ts[..i]) == (lexer.currentRuleType, sets)
    {
      RunNext(Invalid, ts, i);
      var isSet := Feed(lexer, ts[i]);
      sets := sets + [isSet];
    }
    assert ts[..|ts|] == ts;
    FileRuns(cs);
  }

  lemma RunNone(s: RuleType, ts: seq<Token>)
    ensures Run(s, ts[..0]) == (s, [])
  {
  }
}
