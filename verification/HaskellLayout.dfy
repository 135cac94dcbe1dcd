/**
  The Haskell layout lexer, as a state machine on values.

  `HaskellBaseLexer.nextToken` reads one lexeme from the generated lexer, may put virtual
  braces and semicolons on a queue, and hands out one token.  `Step` below says what one
  lexeme does to the lexer's fields and which tokens it causes to be handed out, in order;
  the closing loops appear in closed form.  `Layout` is a whole run.
 */
module HaskellLayout {

  datatype Kind =
    | Newline | Tab | Ws
    | Module | Where | Let | Do | Mdo | Of | Lcase | Rec | In
    | OpenPragma | ClosePragma | OCurly | CCurly
    | VOCurly | VCCurly | Semi
    | EndOfFile | Plain

  /** What the generated lexer matches: `column` is the position in the line. */
  datatype Lexeme = Lexeme(kind: Kind, text: string, column: nat)

  /** What `nextToken` hands out. */
  datatype Token = Token(kind: Kind, text: string, hidden: bool)

  /** An open layout context: the keyword that opened it, and its column. */
  datatype Context = Context(keyword: string, column: int)

  /** The lexer's fields.  The top of `stack` is its last element. */
  datatype State = State(
    pendingDent: bool,
    indentCount: int,
    queue: seq<Token>,
    stack: seq<Context>,
    lastKeyWord: string,
    prevWasEndl: bool,
    prevWasKeyWord: bool,
    ignoreIndent: bool,
    moduleStartIndent: bool,
    wasModuleExport: bool,
    inPragmas: bool,
    startIndent: int,
    nestedLevel: int)

  const INIT := State(true, 0, [], [], "", false, false, false, false, false, false, -1, 0)

  const VOCURLY := Token(VOCurly, "VOCURLY", false)
  const VCCURLY := Token(VCCurly, "VCCURLY", false)
  const SEMI := Token(Semi, "SEMI", false)

  predicate Blank(k: Kind) {
    k.Newline? || k.Ws? || k.Tab?
  }

  predicate LayoutKeyword(k: Kind) {
    k.Where? || k.Let? || k.Do? || k.Mdo? || k.Of? || k.Lcase? || k.Rec?
  }

  /** The three kinds used for virtual tokens; a source word of such a kind is hidden by the grammar. */
  predicate Marker(k: Kind) {
    k.VOCurly? || k.VCCurly? || k.Semi?
  }

  predicate Virtual(t: Token) {
    Marker(t.kind) && !t.hidden
  }

  /** The channel the generated lexer gives the lexeme: NEWLINE depends on the state it is matched in. */
  predicate Hidden(s: State, t: Lexeme) {
    t.kind.Tab? || t.kind.Ws? || Marker(t.kind) || (t.kind.Newline? && s.pendingDent)
  }

  /** The column that a new line's indentation is compared with. */
  function SavedIndent(s: State): int {
    if s.stack == [] then s.startIndent else s.stack[|s.stack| - 1].column
  }

  /** `n` virtual block ends. */
  function Closers(n: nat): seq<Token> {
    if n == 0 then [] else Closers(n - 1) + [SEMI, VCCURLY]
  }

  // ---------------------------------------------------------------------------
  // The closing loops
  // ---------------------------------------------------------------------------

  /** How many contexts are left once every top context to the right of column `c` is popped. */
  function Kept(stack: seq<Context>, c: int): (n: nat)
    ensures n <= |stack|
    ensures n > 0 ==> stack[n - 1].column <= c
    ensures forall i :: n <= i < |stack| ==> stack[i].column > c
  {
    if stack == [] then 0
    else if stack[|stack| - 1].column > c then Kept(stack[..|stack| - 1], c)
    else |stack|
  }

  /** `nestedLevel` after the first closing loop. */
  function Levelled(s: State): int {
    if s.nestedLevel > |s.stack| then |s.stack| else s.nestedLevel
  }

  /** The second closing loop ends: see `ClosingLoopDiverges` for the converse. */
  predicate Closable(s: State, c: int) {
    var kept := Kept(s.stack, c);
    (kept == |s.stack| || |s.stack| - kept <= Levelled(s)) && (kept > 0 || s.startIndent <= c)
  }

  /** Both closing loops and the separator after them. */
  function CloseBlocks(s: State, c: int): State
    requires Closable(s, c)
  {
    var kept := Kept(s.stack, c);
    var popped := |s.stack| - kept;
    var excess := s.nestedLevel - Levelled(s);
    var closed := s.queue + Closers(excess + popped);
    s.(nestedLevel := Levelled(s) - popped,
       stack := s.stack[..kept],
       queue := if SavedIndent(s.(stack := s.stack[..kept])) == c then closed + [SEMI] else closed)
  }

  /** How many contexts `in` leaves: it closes everything down to and including the nearest `let`. */
  function KeptByIn(stack: seq<Context>): (n: nat)
    ensures n <= |stack|
    ensures n < |stack| && stack[n].keyword != "let" ==> n == 0
    ensures forall i :: n < i < |stack| ==> stack[i].keyword != "let"
  {
    if stack == [] then 0
    else if stack[|stack| - 1].keyword == "let" then |stack| - 1
    else KeptByIn(stack[..|stack| - 1])
  }

  function ProcessIn(s: State): State {
    var kept := KeptByIn(s.stack);
    var popped := |s.stack| - kept;
    s.(nestedLevel := s.nestedLevel - popped, stack := s.stack[..kept], queue := s.queue + Closers(popped))
  }

  function ProcessEof(s: State): State
    requires Closable(s, s.startIndent)
  {
    var s1 := CloseBlocks(s, s.startIndent);
    s1.(indentCount := s.startIndent, startIndent := -1,
        queue := s1.queue + if s.wasModuleExport then [VCCURLY] else [])
  }

  // ---------------------------------------------------------------------------
  // The phases of nextToken
  // ---------------------------------------------------------------------------

  /** The lexer actions that run while the lexeme is matched. */
  function Scan(s: State, t: Lexeme): State {
    s.(indentCount := Indentation(s, t))
  }

  /** The current indentation: line ends reset it, tabs count eight columns, other space one. */
  function Indentation(s: State, t: Lexeme): int {
    if t.kind.Newline? then 0
    else if !s.pendingDent then s.indentCount
    else if t.kind.Tab? then s.indentCount + 8 * |t.text|
    else if t.kind.Ws? then s.indentCount + |t.text|
    else s.indentCount
  }

  predicate AtStart(s: State, t: Lexeme) {
    s.startIndent == -1 && !Blank(t.kind) && !t.kind.OCurly?
  }

  predicate FixesStart(s: State, t: Lexeme) {
    AtStart(s, t) && !t.kind.Module? && !s.moduleStartIndent && !s.inPragmas && !t.kind.OpenPragma?
  }

  /** Pragma opening, the `module` keyword and the start column. */
  function Header(s: State, t: Lexeme): State {
    var inHeader := AtStart(s, t) && t.kind.Module?;
    s.(inPragmas := s.inPragmas || t.kind.OpenPragma?,
       moduleStartIndent := s.moduleStartIndent || inHeader,
       wasModuleExport := s.wasModuleExport || inHeader,
       startIndent := if FixesStart(s, t) then t.column else s.startIndent)
  }

  /** `module ... where` is complete and its body starts without an explicit brace. */
  predicate OpensModuleBody(s: State, t: Lexeme) {
    AtStart(s, t) && s.lastKeyWord == "where" && s.moduleStartIndent
  }

  function ModuleBody(s: State, t: Lexeme): State {
    s.(lastKeyWord := "", prevWasKeyWord := false, nestedLevel := 0, moduleStartIndent := false,
       prevWasEndl := false, startIndent := t.column,
       queue := s.queue + [VOCURLY, Token(t.kind, t.text, false)])
  }

  /** Pragma closing and the explicit brace, which cancels a pending layout keyword. */
  function ExplicitBrace(s: State, t: Lexeme): State {
    var brace := t.kind.OCurly?;
    s.(inPragmas := s.inPragmas && !t.kind.ClosePragma?,
       nestedLevel := if brace && s.prevWasKeyWord then s.nestedLevel - 1 else s.nestedLevel,
       prevWasKeyWord := s.prevWasKeyWord && !brace,
       moduleStartIndent := s.moduleStartIndent && !brace,
       wasModuleExport := s.wasModuleExport && !(brace && s.moduleStartIndent),
       ignoreIndent := s.ignoreIndent || brace,
       prevWasEndl := s.prevWasEndl && !brace)
  }

  /** A block that starts on its keyword's own line. */
  function OpenInline(s: State, t: Lexeme): State {
    var opens := s.prevWasKeyWord && !s.prevWasEndl && !s.moduleStartIndent && !Blank(t.kind) && !t.kind.OCurly?;
    s.(prevWasKeyWord := s.prevWasKeyWord && !opens,
       stack := if opens then s.stack + [Context(s.lastKeyWord, t.column)] else s.stack,
       queue := if opens then s.queue + [VOCURLY] else s.queue)
  }

  function StopIgnoring(s: State, t: Lexeme): State {
    s.(ignoreIndent := s.ignoreIndent && !LayoutKeyword(t.kind) && !t.kind.CCurly?)
  }

  /** A keyword whose line is not followed by a deeper one opens an empty block. */
  function OpenEmpty(s: State, t: Lexeme): State {
    var opens := s.pendingDent && s.prevWasKeyWord && !s.ignoreIndent && s.indentCount <= SavedIndent(s)
                 && !t.kind.Newline? && !t.kind.Ws?;
    s.(queue := if opens then s.queue + [VOCURLY] else s.queue,
       prevWasKeyWord := s.prevWasKeyWord && !opens,
       prevWasEndl := s.prevWasEndl || opens)
  }

  predicate DedentRuns(s: State, t: Lexeme) {
    s.pendingDent && s.prevWasEndl && !s.ignoreIndent && s.indentCount <= SavedIndent(s)
    && !t.kind.Newline? && !t.kind.Ws? && !t.kind.Where? && !t.kind.In? && !t.kind.Do? && !t.kind.Mdo?
    && !t.kind.Of? && !t.kind.Lcase? && !t.kind.Rec? && !t.kind.CCurly? && !t.kind.EndOfFile?
  }

  function Dedent(s: State): State
    requires Closable(s, s.indentCount)
  {
    var s1 := CloseBlocks(s, s.indentCount);
    s1.(prevWasEndl := false, pendingDent := s.pendingDent && s.indentCount != s.startIndent)
  }

  /** A block that starts on a deeper line than the context around it. */
  function OpenIndented(s: State, t: Lexeme): State {
    var opens := s.pendingDent && s.prevWasKeyWord && !s.moduleStartIndent && !s.ignoreIndent
                 && s.indentCount > SavedIndent(s) && !t.kind.Newline? && !t.kind.Ws? && !t.kind.EndOfFile?;
    s.(prevWasKeyWord := s.prevWasKeyWord && !opens,
       stack := if opens && s.prevWasEndl then s.stack + [Context(s.lastKeyWord, s.indentCount)] else s.stack,
       prevWasEndl := s.prevWasEndl && !opens,
       queue := if opens then s.queue + [VOCURLY] else s.queue)
  }

  predicate WhereEndsDo(s: State, t: Lexeme) {
    t.kind.Where? && s.stack != []
    && (s.stack[|s.stack| - 1].keyword == "do" || s.stack[|s.stack| - 1].keyword == "mdo")
  }

  /** Line ends, layout keywords, and `where` closing a `do` block. */
  function Keyword(s: State, t: Lexeme): State {
    var keyword := LayoutKeyword(t.kind);
    var ends := WhereEndsDo(s, t);
    s.(prevWasEndl := t.kind.Newline? || (s.prevWasEndl && !keyword),
       prevWasKeyWord := keyword || (s.prevWasKeyWord && !t.kind.OCurly?),
       lastKeyWord := if keyword then t.text else s.lastKeyWord,
       nestedLevel := if keyword && !ends then s.nestedLevel + 1 else s.nestedLevel,
       stack := if ends then s.stack[..|s.stack| - 1] else s.stack,
       queue := if ends then s.queue + [SEMI, VCCURLY] else s.queue)
  }

  // ---------------------------------------------------------------------------
  // One lexeme, and a run
  // ---------------------------------------------------------------------------

  /** `Stuck`: a closing loop never ends, so `nextToken` does not return. */
  datatype Outcome = Stuck | Running(state: State, tokens: seq<Token>)

  /** The fields when the dedent test is reached. */
  function BeforeDedent(s: State, t: Lexeme): State {
    OpenEmpty(StopIgnoring(OpenInline(ExplicitBrace(s, t), t), t), t)
  }

  /** Everything between the dedent test and the hand-over. */
  function AfterDedent(s: State, t: Lexeme): State {
    Keyword(OpenIndented(s, t), t)
  }

  /** The fields when the lexeme is handed over, from those at the dedent test. */
  function HandOver(d: State, t: Lexeme): State
    requires DedentRuns(d, t) ==> Closable(d, d.indentCount)
  {
    AfterDedent(if DedentRuns(d, t) then Dedent(d) else d, t)
  }

  /** The hand-over: a hidden lexeme or a line end goes out ahead of the virtual tokens, any other behind them. */
  function Deliver(s: State, t: Lexeme, hidden: bool): Outcome {
    var token := Token(t.kind, t.text, hidden);
    if hidden || t.kind.Newline? then
      Running(s.(queue := []), [token] + s.queue)
    else if t.kind.EndOfFile? && !Closable(s, s.startIndent) then Stuck
    else
      var s1 := if t.kind.In? then ProcessIn(s) else if t.kind.EndOfFile? then ProcessEof(s) else s;
      Running(s1.(pendingDent := true, queue := []), s1.queue + [token])
  }

  /** The body of `nextToken` once header and start column are settled. */
  function Proceed(h: State, t: Lexeme, hidden: bool): Outcome {
    if OpensModuleBody(h, t) then
      Running(ModuleBody(h, t).(queue := []), ModuleBody(h, t).queue)
    else
      var d := BeforeDedent(h, t);
      if DedentRuns(d, t) && !Closable(d, d.indentCount) then Stuck
      else Deliver(HandOver(d, t), t, hidden)
  }

  /** What one lexeme does when the queue is empty: the new fields, and the tokens handed out. */
  function Step(s: State, t: Lexeme): Outcome {
    Proceed(Header(Scan(s, t), t), t, Hidden(s, t))
  }

  /** All tokens handed out for a sequence of lexemes, and the fields after them. */
  function Layout(source: seq<Lexeme>): Outcome {
    if source == [] then Running(INIT, [])
    else
      match Layout(source[..|source| - 1])
      case Stuck => Stuck
      case Running(s, tokens) =>
        match Step(s, source[|source| - 1])
        case Stuck => Stuck
        case Running(s', more) => Running(s', tokens + more)
  }
}
