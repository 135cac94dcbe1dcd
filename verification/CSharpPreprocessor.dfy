/**
  C# preprocessor directives: a stack of conditions, and conditions evaluated on strings.  For
  every well-nested sequence of directives the stack machine computes what a description of
  `#if` groups by branches says, and leaves the stack as it found it.
 */
module CSharpPreprocessor {
  import opened Wrappers

  // ---------------------------------------------------------------------------
  // Conditions
  // ---------------------------------------------------------------------------

  datatype Expr =
    | True | False | Sym(name: string) | Parens(e: Expr) | Bang(e: Expr)
    | Eq(a: Expr, b: Expr) | Ne(a: Expr, b: Expr) | And(a: Expr, b: Expr) | Or(a: Expr, b: Expr)

  function Text(b: bool): string {
    if b then "true" else "false"
  }

  /** The value attributes the parser actions compute: strings, compared as strings. */
  function Value(e: Expr, symbols: set<string>): string {
    match e
    case True => "true"
    case False => "false"
    case Sym(name) => if name in symbols then "true" else "false"
    case Parens(e1) => Value(e1, symbols)
    case Bang(e1) => if Value(e1, symbols) == "true" then "false" else "true"
    case Eq(a, b) => if Value(a, symbols) == Value(b, symbols) then "true" else "false"
    case Ne(a, b) => if Value(a, symbols) != Value(b, symbols) then "true" else "false"
    case And(a, b) => if Value(a, symbols) == "true" && Value(b, symbols) == "true" then "true" else "false"
    case Or(a, b) => if Value(a, symbols) == "true" || Value(b, symbols) == "true" then "true" else "false"
  }

  /** What the condition means. */
  function Meaning(e: Expr, symbols: set<string>): bool {
    match e
    case True => true
    case False => false
    case Sym(name) => name in symbols
    case Parens(e1) => Meaning(e1, symbols)
    case Bang(e1) => !Meaning(e1, symbols)
    case Eq(a, b) => Meaning(a, symbols) == Meaning(b, symbols)
    case Ne(a, b) => Meaning(a, symbols) != Meaning(b, symbols)
    case And(a, b) => Meaning(a, symbols) && Meaning(b, symbols)
    case Or(a, b) => Meaning(a, symbols) || Meaning(b, symbols)
  }

  lemma {:induction false} ValueIsMeaning(e: Expr, symbols: set<string>)
    ensures Value(e, symbols) == Text(Meaning(e, symbols))
  {
    assert "true"[0] != "false"[0];
    match e {
      case True =>
      case False =>
      case Sym(_) =>
      case Parens(e1) => ValueIsMeaning(e1, symbols);
      case Bang(e1) => ValueIsMeaning(e1, symbols);
      case Eq(a, b) => ValueIsMeaning(a, symbols); ValueIsMeaning(b, symbols);
      case Ne(a, b) => ValueIsMeaning(a, symbols); ValueIsMeaning(b, symbols);
      case And(a, b) => ValueIsMeaning(a, symbols); ValueIsMeaning(b, symbols);
      case Or(a, b) => ValueIsMeaning(a, symbols); ValueIsMeaning(b, symbols);
    }
  }

  // ---------------------------------------------------------------------------
  // The stack machine
  // ---------------------------------------------------------------------------

  /** `Other`: #line, #error, #warning, #region, #endregion, #pragma, #nullable. */
  datatype Directive =
    | Define(name: string) | Undef(name: string) | Other
    | If(cond: Expr) | Elif(cond: Expr) | Else | Endif

  /** The top of the stack is its last element. */
  datatype State = State(conditions: seq<bool>, symbols: set<string>)

  predicate AllTrue(conditions: seq<bool>) {
    forall i :: 0 <= i < |conditions| ==> conditions[i]
  }

  function Top(conditions: seq<bool>): bool
    requires conditions != []
  {
    conditions[|conditions| - 1]
  }

  function Popped(conditions: seq<bool>): seq<bool>
    requires conditions != []
  {
    conditions[..|conditions| - 1]
  }

  /** The new state and the directive's value; `None` where the source throws on an empty stack. */
  function Step(s: State, d: Directive): Option<(State, bool)> {
    match d
    case Define(name) => Some((s.(symbols := s.symbols + {name}), AllTrue(s.conditions)))
    case Undef(name) => Some((s.(symbols := s.symbols - {name}), AllTrue(s.conditions)))
    case Other => Some((s, AllTrue(s.conditions)))
    case If(cond) =>
      var v := Value(cond, s.symbols) == "true";
      Some((s.(conditions := s.conditions + [v]), v && AllTrue(s.conditions)))
    case Elif(cond) =>
      if s.conditions == [] then None
      else if Top(s.conditions) then Some((s, false))
      else
        var v := Value(cond, s.symbols) == "true";
        Some((s.(conditions := Popped(s.conditions) + [v]), v && AllTrue(Popped(s.conditions))))
    case Else =>
      if s.conditions == [] then None
      else if Top(s.conditions) then Some((s, false))
      else Some((s.(conditions := Popped(s.conditions) + [true]), AllTrue(Popped(s.conditions))))
    case Endif =>
      if |s.conditions| < 2 then None
      else Some((s.(conditions := Popped(s.conditions)), Top(Popped(s.conditions))))
  }

  function Run(s: State, ds: seq<Directive>): Option<(State, seq<bool>)>
    decreases |ds|
  {
    if ds == [] then Some((s, []))
    else
      match Step(s, ds[0])
      case None => None
      case Some((s1, v)) =>
        match Run(s1, ds[1..])
        case None => None
        case Some((s2, vs)) => Some((s2, [v] + vs))
  }

  // ---------------------------------------------------------------------------
  // Well-nested directives
  // ---------------------------------------------------------------------------

  datatype Items = Nil | Cons(first: Item, rest: Items)
  datatype Item = Simple(d: Directive) | Group(cond: Expr, body: Items, tail: Tail)
  datatype Tail = End | ElseBranch(body: Items) | ElifBranch(cond: Expr, body: Items, tail: Tail)

  /** Only #define, #undef and the value-less directives stand alone. */
  predicate Proper(items: Items) {
    match items
    case Nil => true
    case Cons(Simple(d), rest) => (d.Define? || d.Undef? || d.Other?) && Proper(rest)
    case Cons(Group(_, body, tail), rest) => Proper(body) && ProperTail(tail) && Proper(rest)
  }

  predicate ProperTail(tail: Tail) {
    match tail
    case End => true
    case ElseBranch(body) => Proper(body)
    case ElifBranch(_, body, tail1) => Proper(body) && ProperTail(tail1)
  }

  function Flat(items: Items): seq<Directive> {
    match items
    case Nil => []
    case Cons(Simple(d), rest) => [d] + Flat(rest)
    case Cons(Group(cond, body, tail), rest) => [If(cond)] + Flat(body) + FlatTail(tail) + Flat(rest)
  }

  function FlatTail(tail: Tail): seq<Directive> {
    match tail
    case End => [Endif]
    case ElseBranch(body) => [Else] + Flat(body) + [Endif]
    case ElifBranch(cond, body, tail1) => [Elif(cond)] + Flat(body) + FlatTail(tail1)
  }

  function Size(items: Items): nat {
    match items
    case Nil => 0
    case Cons(Simple(_), rest) => 1 + Size(rest)
    case Cons(Group(_, body, tail), rest) => 1 + Size(body) + TailSize(tail) + Size(rest)
  }

  function TailSize(tail: Tail): (n: nat)
    ensures n > 0
  {
    match tail
    case End => 1
    case ElseBranch(body) => 2 + Size(body)
    case ElifBranch(_, body, tail1) => 1 + Size(body) + TailSize(tail1)
  }

  /** Directive values and the symbols left, by branches: `outer` says that all conditions around are true, `top` the innermost. */
  datatype Effect = Effect(values: seq<bool>, symbols: set<string>)

  function Then(a: Effect, b: Effect): Effect {
    Effect(a.values + b.values, b.symbols)
  }

  function Defined(d: Directive, symbols: set<string>): set<string> {
    if d.Define? then symbols + {d.name} else if d.Undef? then symbols - {d.name} else symbols
  }

  function Meant(items: Items, top: bool, outer: bool, symbols: set<string>): Effect {
    match items
    case Nil => Effect([], symbols)
    case Cons(Simple(d), rest) =>
      Then(Effect([outer], Defined(d, symbols)), Meant(rest, top, outer, Defined(d, symbols)))
    case Cons(Group(cond, body, tail), rest) =>
      var taken := Meaning(cond, symbols);
      var inside := Meant(body, taken, outer && taken, symbols);
      var others := MeantTail(tail, taken, top, outer, inside.symbols);
      Then(Effect([taken && outer], symbols), Then(inside, Then(others, Meant(rest, top, outer, others.symbols))))
  }

  /** `taken`: some earlier condition of the group held. */
  function MeantTail(tail: Tail, taken: bool, top: bool, outer: bool, symbols: set<string>): Effect {
    match tail
    case End => Effect([top], symbols)
    case ElseBranch(body) =>
      var inside := Meant(body, true, outer, symbols);
      Then(Effect([!taken && outer], symbols), Then(inside, Effect([top], inside.symbols)))
    case ElifBranch(cond, body, tail1) =>
      var holds := Meaning(cond, symbols);
      var inside := Meant(body, taken || holds, outer && (taken || holds), symbols);
      Then(Effect([!taken && holds && outer], symbols),
           Then(inside, MeantTail(tail1, taken || holds, top, outer, inside.symbols)))
  }

  // ---------------------------------------------------------------------------
  // The machine computes the meaning
  // ---------------------------------------------------------------------------

  /** A run's result with the values before it put in front. */
  function Prefixed(values: seq<bool>, r: Option<(State, seq<bool>)>): Option<(State, seq<bool>)> {
    match r
    case None => None
    case Some((s, vs)) => Some((s, values + vs))
  }

  lemma RunStep(s: State, ds: seq<Directive>)
    requires ds != []
    ensures Run(s, ds) == match Step(s, ds[0])
                          case None => None
                          case Some((s1, v)) => Prefixed([v], Run(s1, ds[1..]))
  {
    hide Step;
  }

  lemma RunNone(s: State, b: seq<Directive>)
    ensures Run(s, []) == Some((s, [])) && Prefixed([], Run(s, b)) == Run(s, b)
  {
    if Run(s, b).Some? {
      assert [] + Run(s, b).value.1 == Run(s, b).value.1;
    }
  }

  lemma {:induction false} RunConcat(s: State, a: seq<Directive>, b: seq<Directive>)
    requires Run(s, a).Some?
    ensures Run(s, a + b) == Prefixed(Run(s, a).value.1, Run(Run(s, a).value.0, b))
    decreases |a|
  {
    hide Step, Run;
    RunNone(s, b);
    if a == [] {
      assert a + b == b;
    } else {
      assert (a + b)[0] == a[0] && (a + b)[1..] == a[1..] + b;
      RunStep(s, a);
      RunStep(s, a + b);
      var (s1, v) := Step(s, a[0]).value;
      RunConcat(s1, a[1..], b);
      var (s2, va) := Run(s1, a[1..]).value;
      if Run(s2, b).Some? {
        assert [v] + (va + Run(s2, b).value.1) == [v] + va + Run(s2, b).value.1;
      }
    }
  }

  /** The machine goes from `s` to `s'` with the given directive values. */
  ghost predicate Reaches(s: State, ds: seq<Directive>, s': State, values: seq<bool>) {
    Run(s, ds) == Some((s', values))
  }

  lemma ReachesOne(s: State, d: Directive)
    requires Step(s, d).Some?
    ensures Reaches(s, [d], Step(s, d).value.0, [Step(s, d).value.1])
  {
    hide Step;
    var (s1, v) := Step(s, d).value;
    assert [d][1..] == [] && Run(s1, []) == Some((s1, [])) && [v] + [] == [v];
  }

  lemma ReachesThen(s: State, a: seq<Directive>, s1: State, va: seq<bool>, b: seq<Directive>, s2: State, vb: seq<bool>)
    requires Reaches(s, a, s1, va) && Reaches(s1, b, s2, vb)
    ensures Reaches(s, a + b, s2, va + vb)
  {
    RunConcat(s, a, b);
  }

  /** The stack with one more condition: what the directives inside a branch see. */
  function Inside(s: State, taken: bool): State {
    s.(conditions := s.conditions + [taken])
  }

  lemma InsideFacts(s: State, taken: bool)
    ensures Top(Inside(s, taken).conditions) == taken && Popped(Inside(s, taken).conditions) == s.conditions
    ensures AllTrue(Inside(s, taken).conditions) == (AllTrue(s.conditions) && taken)
  {
    var c := Inside(s, taken).conditions;
    assert c[|s.conditions|] == taken && forall i :: 0 <= i < |s.conditions| ==> c[i] == s.conditions[i];
  }

  function MeantIn(s: State, items: Items): Effect
    requires s.conditions != []
  {
    Meant(items, Top(s.conditions), AllTrue(s.conditions), s.symbols)
  }

  function MeantTailIn(s: State, taken: bool, tail: Tail): Effect
    requires s.conditions != []
  {
    MeantTail(tail, taken, Top(s.conditions), AllTrue(s.conditions), s.symbols)
  }

  /**
    Every well-nested sequence of directives runs through, restores the stack, and gives each
    directive the value that the description by branches gives it.
   */
  lemma {:induction false} RunsAsMeant(s: State, items: Items)
    requires s.conditions != [] && Proper(items)
    ensures Reaches(s, Flat(items), s.(symbols := MeantIn(s, items).symbols), MeantIn(s, items).values)
    decreases Size(items), 0
  {
    hide Reaches, Run, AllTrue, Top, Popped, Value, Meaning;
    match items {
      case Nil => NilReaches(s);
      case Cons(Simple(d), rest) =>
        ReachesOne(s, d);
        var s1 := Step(s, d).value.0;
        RunsAsMeant(s1, rest);
        ReachesThen(s, [d], s1, [Step(s, d).value.1], Flat(rest),
                    s.(symbols := MeantIn(s1, rest).symbols), MeantIn(s1, rest).values);
      case Cons(Group(cond, body, tail), rest) =>
        var v := Meaning(cond, s.symbols);
        IfReaches(s, cond);
        BranchRuns(s, v, body, tail);
        var inside := Meant(body, v, AllTrue(s.conditions) && v, s.symbols);
        var others := MeantTailIn(s.(symbols := inside.symbols), v, tail);
        var s1 := s.(symbols := others.symbols);
        RunsAsMeant(s1, rest);
        GroupJoins(s, cond, body, tail, rest, inside, others, MeantIn(s1, rest));
    }
  }

  /** A group is its `#if`, its branches, and what follows. */
  lemma GroupJoins(s: State, cond: Expr, body: Items, tail: Tail, rest: Items, inside: Effect, others: Effect, after: Effect)
    requires var v := Meaning(cond, s.symbols);
             && Reaches(s, [If(cond)], Inside(s, v), [v && AllTrue(s.conditions)])
             && Reaches(Inside(s, v), Flat(body) + FlatTail(tail), s.(symbols := others.symbols), inside.values + others.values)
             && Reaches(s.(symbols := others.symbols), Flat(rest), s.(symbols := after.symbols), after.values)
    ensures var v := Meaning(cond, s.symbols);
            Reaches(s, [If(cond)] + Flat(body) + FlatTail(tail) + Flat(rest), s.(symbols := after.symbols),
                    [v && AllTrue(s.conditions)] + (inside.values + (others.values + after.values)))
  {
    hide Reaches, Meaning, AllTrue, Flat, FlatTail;
    var v := Meaning(cond, s.symbols);
    var first := [v && AllTrue(s.conditions)];
    var branches := Flat(body) + FlatTail(tail);
    var s1 := s.(symbols := others.symbols);
    ReachesThen(s, [If(cond)], Inside(s, v), first, branches, s1, inside.values + others.values);
    ReachesThen(s, [If(cond)] + branches, s1, first + (inside.values + others.values),
                Flat(rest), s.(symbols := after.symbols), after.values);
    assert [If(cond)] + branches + Flat(rest) == [If(cond)] + Flat(body) + FlatTail(tail) + Flat(rest);
    assert first + (inside.values + others.values) + after.values
        == first + (inside.values + (others.values + after.values));
  }

  lemma NilReaches(s: State)
    ensures Reaches(s, [], s, [])
  {
  }

  lemma IfReaches(s: State, cond: Expr)
    ensures var v := Meaning(cond, s.symbols);
            Reaches(s, [If(cond)], Inside(s, v), [v && AllTrue(s.conditions)])
  {
    ValueIsMeaning(cond, s.symbols);
    ReachesOne(s, If(cond));
    assert "false"[0] != "true"[0];
  }

  /** A branch entered with `taken`, and everything after it up to `#endif`. */
  lemma BranchRuns(s: State, taken: bool, body: Items, tail: Tail)
    requires s.conditions != [] && Proper(body) && ProperTail(tail)
    ensures var inside := Meant(body, taken, AllTrue(s.conditions) && taken, s.symbols);
            var others := MeantTailIn(s.(symbols := inside.symbols), taken, tail);
            Reaches(Inside(s, taken), Flat(body) + FlatTail(tail), s.(symbols := others.symbols), inside.values + others.values)
    decreases Size(body) + TailSize(tail), 1
  {
    hide Reaches, Run, AllTrue, Top, Popped, Meant, MeantTail;
    InsideFacts(s, taken);
    RunsAsMeant(Inside(s, taken), body);
    var inside := MeantIn(Inside(s, taken), body);
    var s1 := s.(symbols := inside.symbols);
    TailRuns(s1, taken, tail);
    var others := MeantTailIn(s1, taken, tail);
    ReachesThen(Inside(s, taken), Flat(body), Inside(s1, taken), inside.values,
                FlatTail(tail), s.(symbols := others.symbols), others.values);
  }

  lemma ElifReaches(s: State, taken: bool, cond: Expr)
    requires s.conditions != []
    ensures var v := Meaning(cond, s.symbols);
            Reaches(Inside(s, taken), [Elif(cond)], Inside(s, taken || v), [!taken && v && AllTrue(s.conditions)])
  {
    hide AllTrue;
    InsideFacts(s, taken);
    ValueIsMeaning(cond, s.symbols);
    ReachesOne(Inside(s, taken), Elif(cond));
    assert "false"[0] != "true"[0];
  }

  lemma ElseReaches(s: State, taken: bool)
    requires s.conditions != []
    ensures Reaches(Inside(s, taken), [Else], Inside(s, true), [!taken && AllTrue(s.conditions)])
  {
    hide AllTrue;
    InsideFacts(s, taken);
    ReachesOne(Inside(s, taken), Else);
  }

  lemma EndifReaches(s: State, taken: bool)
    requires s.conditions != []
    ensures Reaches(Inside(s, taken), [Endif], s, [Top(s.conditions)])
  {
    InsideFacts(s, taken);
    ReachesOne(Inside(s, taken), Endif);
  }

  /** The later branches of a group, up to its `#endif`. */
  lemma TailRuns(s: State, taken: bool, tail: Tail)
    requires s.conditions != [] && ProperTail(tail)
    ensures var e := MeantTailIn(s, taken, tail);
            Reaches(Inside(s, taken), FlatTail(tail), s.(symbols := e.symbols), e.values)
    decreases TailSize(tail), 0
  {
    hide Reaches, Run, AllTrue, Top, Popped, Meaning, Value, Step;
    var outer := AllTrue(s.conditions);
    match tail {
      case End => EndifReaches(s, taken);
      case ElseBranch(body) =>
        ElseReaches(s, taken);
        BranchRuns(s, true, body, End);
        var inside := Meant(body, true, outer && true, s.symbols);
        ReachesThen(Inside(s, taken), [Else], Inside(s, true), [!taken && outer],
                    Flat(body) + [Endif], s.(symbols := inside.symbols), inside.values + [Top(s.conditions)]);
        assert [Else] + (Flat(body) + [Endif]) == [Else] + Flat(body) + [Endif];
      case ElifBranch(cond, body, tail1) =>
        var v := Meaning(cond, s.symbols);
        ElifReaches(s, taken, cond);
        BranchRuns(s, taken || v, body, tail1);
        var inside := Meant(body, taken || v, outer && (taken || v), s.symbols);
        var others := MeantTailIn(s.(symbols := inside.symbols), taken || v, tail1);
        ReachesThen(Inside(s, taken), [Elif(cond)], Inside(s, taken || v), [!taken && v && outer],
                    Flat(body) + FlatTail(tail1), s.(symbols := others.symbols), inside.values + others.values);
        assert [Elif(cond)] + (Flat(body) + FlatTail(tail1)) == [Elif(cond)] + Flat(body) + FlatTail(tail1);
    }
  }

  // ---------------------------------------------------------------------------
  // Branches
  // ---------------------------------------------------------------------------

  // The branches of a group are those of its tail with the `#if` put in front as one more `#elif`.

  function Branches(tail: Tail): nat {
    match tail
    case End => 0
    case ElseBranch(_) => 1
    case ElifBranch(_, _, tail1) => 1 + Branches(tail1)
  }

  predicate HasElse(tail: Tail) {
    tail.ElseBranch? || (tail.ElifBranch? && HasElse(tail.tail))
  }

  /** Where the directive of branch `k` stands. */
  function Place(tail: Tail, k: nat): nat
    requires k < Branches(tail)
  {
    match tail
    case ElseBranch(_) => 0
    case ElifBranch(_, body, tail1) => if k == 0 then 0 else 1 + |Flat(body)| + Place(tail1, k - 1)
  }

  function Body(tail: Tail, k: nat): Items
    requires k < Branches(tail)
  {
    match tail
    case ElseBranch(body) => body
    case ElifBranch(_, body, tail1) => if k == 0 then body else Body(tail1, k - 1)
  }

  /** The symbols left by directives: definitions take effect in every branch, skipped or not. */
  function Symbols(items: Items, symbols: set<string>): set<string> {
    match items
    case Nil => symbols
    case Cons(Simple(d), rest) => Symbols(rest, Defined(d, symbols))
    case Cons(Group(_, body, tail), rest) => Symbols(rest, TailSymbols(tail, Symbols(body, symbols)))
  }

  function TailSymbols(tail: Tail, symbols: set<string>): set<string> {
    match tail
    case End => symbols
    case ElseBranch(body) => Symbols(body, symbols)
    case ElifBranch(_, body, tail1) => TailSymbols(tail1, Symbols(body, symbols))
  }

  /** Whether the condition of each branch holds where it is read; an `#else` counts as true. */
  function Holds(tail: Tail, symbols: set<string>): (r: seq<bool>)
    ensures |r| == Branches(tail)
  {
    match tail
    case End => []
    case ElseBranch(_) => [true]
    case ElifBranch(cond, body, tail1) => [Meaning(cond, symbols)] + Holds(tail1, Symbols(body, symbols))
  }

  ghost predicate SomeHolds(holds: seq<bool>, n: nat) {
    exists j :: 0 <= j < n && j < |holds| && holds[j]
  }

  lemma SomeHoldsStep(h: bool, holds: seq<bool>, n: nat)
    ensures SomeHolds([h] + holds, n + 1) <==> h || SomeHolds(holds, n)
    ensures !SomeHolds(holds, 0) && !SomeHolds([h] + holds, 0)
  {
    var all := [h] + holds;
    assert all[0] == h && forall j :: 0 <= j < |holds| ==> all[j + 1] == holds[j];
  }

  /** Each directive has its value, and the symbols do not depend on the conditions. */
  lemma {:induction false} MeantShape(items: Items, top: bool, outer: bool, symbols: set<string>)
    ensures |Meant(items, top, outer, symbols).values| == |Flat(items)|
    ensures Meant(items, top, outer, symbols).symbols == Symbols(items, symbols)
    decreases Size(items)
  {
    match items {
      case Nil =>
      case Cons(Simple(d), rest) =>
        MeantShape(rest, top, outer, Defined(d, symbols));
      case Cons(Group(cond, body, tail), rest) =>
        var taken := Meaning(cond, symbols);
        MeantShape(body, taken, outer && taken, symbols);
        TailShape(tail, taken, top, outer, Symbols(body, symbols));
        MeantShape(rest, top, outer, TailSymbols(tail, Symbols(body, symbols)));
    }
  }

  lemma {:induction false} TailShape(tail: Tail, taken: bool, top: bool, outer: bool, symbols: set<string>)
    ensures |MeantTail(tail, taken, top, outer, symbols).values| == |FlatTail(tail)|
    ensures MeantTail(tail, taken, top, outer, symbols).symbols == TailSymbols(tail, symbols)
    decreases TailSize(tail)
  {
    match tail {
      case End =>
      case ElseBranch(body) => MeantShape(body, true, outer, symbols);
      case ElifBranch(cond, body, tail1) =>
        var now := taken || Meaning(cond, symbols);
        MeantShape(body, now, outer && now, symbols);
        TailShape(tail1, now, top, outer, Symbols(body, symbols));
    }
  }

  /** Directive `i` stands in no group. */
  predicate Outermost(items: Items, i: nat) {
    match items
    case Nil => false
    case Cons(Simple(_), rest) => i == 0 || Outermost(rest, i - 1)
    case Cons(Group(_, body, tail), rest) =>
      var n := 1 + |Flat(body)| + |FlatTail(tail)|;
      i >= n && Outermost(rest, i - n)
  }

  lemma GroupUnfolds(cond: Expr, body: Items, tail: Tail, rest: Items, top: bool, outer: bool, symbols: set<string>)
    ensures var taken := Meaning(cond, symbols);
            var inside := Meant(body, taken, outer && taken, symbols);
            var others := MeantTail(tail, taken, top, outer, inside.symbols);
            Meant(Cons(Group(cond, body, tail), rest), top, outer, symbols).values
            == [taken && outer] + (inside.values + (others.values + Meant(rest, top, outer, others.symbols).values))
  {
    hide Meaning, MeantTail;
  }

  /** A group's values, then those after it. */
  lemma GroupParts(cond: Expr, body: Items, tail: Tail, rest: Items, top: bool, outer: bool, symbols: set<string>)
    ensures var values := Meant(Cons(Group(cond, body, tail), rest), top, outer, symbols).values;
            var n := 1 + |Flat(body)| + |FlatTail(tail)|;
            n <= |values| && values[n..] == Meant(rest, top, outer, TailSymbols(tail, Symbols(body, symbols))).values
  {
    hide Meaning, Flat, FlatTail, Symbols, TailSymbols, Meant, MeantTail;
    var taken := Meaning(cond, symbols);
    MeantShape(body, taken, outer && taken, symbols);
    TailShape(tail, taken, top, outer, Symbols(body, symbols));
    var inside := Meant(body, taken, outer && taken, symbols);
    var others := MeantTail(tail, taken, top, outer, inside.symbols);
    GroupUnfolds(cond, body, tail, rest, top, outer, symbols);
    LastPart([taken && outer], inside.values, others.values, Meant(rest, top, outer, others.symbols).values);
  }

  lemma LastPart(a: seq<bool>, b: seq<bool>, c: seq<bool>, d: seq<bool>)
    ensures (a + (b + (c + d)))[|a| + |b| + |c|..] == d
  {
  }

  lemma {:induction false} OutermostValue(items: Items, i: nat, top: bool, outer: bool, symbols: set<string>)
    requires Outermost(items, i)
    ensures i < |Meant(items, top, outer, symbols).values| && Meant(items, top, outer, symbols).values[i] == outer
    decreases Size(items)
  {
    match items {
      case Cons(Simple(d), rest) =>
        if i > 0 {
          OutermostValue(rest, i - 1, top, outer, Defined(d, symbols));
        }
      case Cons(Group(cond, body, tail), rest) =>
        hide Meant, Meaning;
        var n := 1 + |Flat(body)| + |FlatTail(tail)|;
        GroupParts(cond, body, tail, rest, top, outer, symbols);
        OutermostValue(rest, i - n, top, outer, TailSymbols(tail, Symbols(body, symbols)));
    }
  }

  /** The branch directive at `p` has the value `own`, and each directive directly in its body the value `inside`. */
  ghost predicate Gives(values: seq<bool>, p: nat, own: bool, body: Items, inside: bool) {
    && p < |values| && values[p] == own
    && forall i: nat :: Outermost(body, i) ==> p + 1 + i < |values| && values[p + 1 + i] == inside
  }

  lemma GivesLater(first: bool, before: seq<bool>, values: seq<bool>, p: nat, own: bool, body: Items, inside: bool)
    requires Gives(values, p, own, body, inside)
    ensures Gives([first] + (before + values), 1 + |before| + p, own, body, inside)
  {
    var all := [first] + (before + values);
    assert |all| == 1 + |before| + |values| && forall i :: 0 <= i < |values| ==> all[1 + |before| + i] == values[i];
  }

  lemma GivesFirst(own: bool, body: Items, top: bool, inside: bool, symbols: set<string>, others: seq<bool>)
    ensures Gives([own] + (Meant(body, top, inside, symbols).values + others), 0, own, body, inside)
  {
    hide Meant;
    forall i: nat | Outermost(body, i)
      ensures i < |Meant(body, top, inside, symbols).values| && Meant(body, top, inside, symbols).values[i] == inside
    {
      OutermostValue(body, i, top, inside, symbols);
    }
  }

  /** What branch `k` is given: its own value, and the value of the directives that stand directly in it. */
  ghost predicate Given(tail: Tail, k: nat, taken: bool, top: bool, outer: bool, symbols: set<string>)
    requires k < Branches(tail)
  {
    var holds := Holds(tail, symbols);
    Gives(MeantTail(tail, taken, top, outer, symbols).values, Place(tail, k),
          outer && !taken && holds[k] && !SomeHolds(holds, k),
          Body(tail, k), outer && (taken || SomeHolds(holds, k + 1)))
  }

  /** Branch `k` is true where its condition is the first to hold; the directives in it, also where an earlier one held. */
  lemma {:induction false} BranchMeans(tail: Tail, k: nat, taken: bool, top: bool, outer: bool, symbols: set<string>)
    requires k < Branches(tail)
    ensures Given(tail, k, taken, top, outer, symbols)
    decreases tail
  {
    hide SomeHolds, Gives, Meant, Meaning;
    match tail {
      case ElseBranch(body) =>
        SomeHoldsStep(true, [], 0);
        assert [true] + [] == [true];
        GivesFirst(!taken && outer, body, true, outer, symbols, [top]);
      case ElifBranch(cond, body, tail1) =>
        if k == 0 {
          FirstBranch(cond, body, tail1, taken, top, outer, symbols);
        } else {
          BranchMeans(tail1, k - 1, taken || Meaning(cond, symbols), top, outer, Symbols(body, symbols));
          LaterBranch(cond, body, tail1, k - 1, taken, top, outer, symbols);
        }
    }
  }

  lemma FirstBranch(cond: Expr, body: Items, tail: Tail, taken: bool, top: bool, outer: bool, symbols: set<string>)
    ensures Given(ElifBranch(cond, body, tail), 0, taken, top, outer, symbols)
  {
    hide SomeHolds, Gives, Meant, Meaning;
    var h := Meaning(cond, symbols);
    var now := taken || h;
    var symbols1 := Meant(body, now, outer && now, symbols).symbols;
    MeantShape(body, now, outer && now, symbols);
    SomeHoldsStep(h, Holds(tail, symbols1), 0);
    GivesFirst(!taken && h && outer, body, now, outer && now, symbols, MeantTail(tail, now, top, outer, symbols1).values);
  }

  /** A branch of the rest of a group, seen from the whole. */
  lemma LaterBranch(cond: Expr, body: Items, tail: Tail, k: nat, taken: bool, top: bool, outer: bool, symbols: set<string>)
    requires k < Branches(tail)
    requires Given(tail, k, taken || Meaning(cond, symbols), top, outer, Symbols(body, symbols))
    ensures Given(ElifBranch(cond, body, tail), k + 1, taken, top, outer, symbols)
  {
    hide SomeHolds, Gives, Meant, Meaning, MeantTail, Place, Body, Holds, Flat, Symbols;
    var h := Meaning(cond, symbols);
    var now := taken || h;
    var holds := Holds(tail, Symbols(body, symbols));
    RestOfGroup(cond, body, tail, k, taken, top, outer, symbols);
    SomeHoldsStep(h, holds, k);
    SomeHoldsStep(h, holds, k + 1);
    GivesLater(!taken && h && outer, Meant(body, now, outer && now, symbols).values,
               MeantTail(tail, now, top, outer, Symbols(body, symbols)).values, Place(tail, k),
               outer && !now && holds[k] && !SomeHolds(holds, k),
               Body(tail, k), outer && (now || SomeHolds(holds, k + 1)));
  }

  /** What a group is made of, one branch on. */
  lemma RestOfGroup(cond: Expr, body: Items, tail: Tail, k: nat, taken: bool, top: bool, outer: bool, symbols: set<string>)
    requires k < Branches(tail)
    ensures var all, now := ElifBranch(cond, body, tail), taken || Meaning(cond, symbols);
            var inside := Meant(body, now, outer && now, symbols).values;
            var others := MeantTail(tail, now, top, outer, Symbols(body, symbols)).values;
            && k + 1 < Branches(all)
            && MeantTail(all, taken, top, outer, symbols).values == [!taken && Meaning(cond, symbols) && outer] + (inside + others)
            && Place(all, k + 1) == 1 + |inside| + Place(tail, k) && Body(all, k + 1) == Body(tail, k)
            && Holds(all, symbols) == [Meaning(cond, symbols)] + Holds(tail, Symbols(body, symbols))
  {
    hide Meant, Meaning, Symbols, Flat;
    var now := taken || Meaning(cond, symbols);
    MeantShape(body, now, outer && now, symbols);
  }

  lemma GroupAsElif(cond: Expr, body: Items, tail: Tail, top: bool, outer: bool, symbols: set<string>)
    ensures Meant(Cons(Group(cond, body, tail), Nil), top, outer, symbols).values
            == MeantTail(ElifBranch(cond, body, tail), false, top, outer, symbols).values
  {
    var taken := Meaning(cond, symbols);
    var inside := Meant(body, taken, outer && taken, symbols);
    var others := MeantTail(tail, taken, top, outer, inside.symbols);
    assert others.values + [] == others.values;
  }

  /** The whole group: its `#if`, as an `#elif` with nothing before it, and the other branches. */
  function Whole(cond: Expr, body: Items, tail: Tail): (t: Tail)
    ensures Branches(t) > 0
  {
    ElifBranch(cond, body, tail)
  }

  function FlatGroup(cond: Expr, body: Items, tail: Tail): seq<Directive> {
    Flat(Cons(Group(cond, body, tail), Nil))
  }

  /** The values that the description by branches gives a group. */
  function GroupMeant(s: State, t: Tail): seq<bool>
    requires s.conditions != []
  {
    MeantTail(t, false, Top(s.conditions), AllTrue(s.conditions), s.symbols).values
  }

  lemma GroupReaches(s: State, cond: Expr, body: Items, tail: Tail)
    requires s.conditions != [] && Proper(body) && ProperTail(tail)
    ensures var r := Run(s, FlatGroup(cond, body, tail));
            && r.Some? && r.value.0.conditions == s.conditions && |r.value.1| == |FlatGroup(cond, body, tail)|
            && r.value.1 == GroupMeant(s, Whole(cond, body, tail))
  {
    hide Run, AllTrue, Top, Meant, MeantTail, Flat, Symbols;
    var items := Cons(Group(cond, body, tail), Nil);
    RunsAsMeant(s, items);
    MeantShape(items, Top(s.conditions), AllTrue(s.conditions), s.symbols);
    GroupAsElif(cond, body, tail, Top(s.conditions), AllTrue(s.conditions), s.symbols);
  }

  /** The values of branch `k` of a group entered in state `s`, and of the directives directly in it. */
  ghost predicate BranchGiven(s: State, t: Tail, values: seq<bool>, k: nat)
    requires k < Branches(t)
  {
    var outer, holds := AllTrue(s.conditions), Holds(t, s.symbols);
    Gives(values, Place(t, k), outer && holds[k] && !SomeHolds(holds, k), Body(t, k), outer && SomeHolds(holds, k + 1))
  }

  /**
    The machine runs through every group and restores the stack.  It gives each `#if`, `#elif` and
    `#else` the value true exactly if all conditions around it are true, its own condition holds and
    no earlier one of the group does.  A directive directly in a branch it gives true exactly if all
    conditions around the group are true and the branch's condition or an earlier one holds.
   */
  lemma GroupRuns(s: State, cond: Expr, body: Items, tail: Tail)
    requires s.conditions != [] && Proper(body) && ProperTail(tail)
    ensures var r, t := Run(s, FlatGroup(cond, body, tail)), Whole(cond, body, tail);
            && r.Some? && r.value.0.conditions == s.conditions && |r.value.1| == |FlatGroup(cond, body, tail)|
            && forall k: nat :: k < Branches(t) ==> BranchGiven(s, t, r.value.1, k)
  {
    hide Run, AllTrue, Top, Gives, Place, Body, SomeHolds, Holds, MeantTail, FlatGroup;
    var t := Whole(cond, body, tail);
    GroupReaches(s, cond, body, tail);
    forall k: nat | k < Branches(t) ensures BranchGiven(s, t, GroupMeant(s, t), k) {
      BranchMeans(t, k, false, Top(s.conditions), AllTrue(s.conditions), s.symbols);
    }
  }

  lemma {:induction false} ElseHolds(tail: Tail, symbols: set<string>)
    requires HasElse(tail)
    ensures var holds := Holds(tail, symbols); holds != [] && holds[|holds| - 1]
  {
    hide Meaning, Symbols;
    if tail.ElifBranch? {
      ElseHolds(tail.tail, Symbols(tail.body, symbols));
    }
  }

  /** The first branch whose condition holds. */
  lemma {:induction false} FirstHolding(holds: seq<bool>, n: nat)
    requires SomeHolds(holds, n)
    ensures exists k :: 0 <= k < n && k < |holds| && holds[k] && !SomeHolds(holds, k)
  {
    if n > 0 && SomeHolds(holds, n - 1) {
      FirstHolding(holds, n - 1);
    }
  }

  /** Branch `k` is given the value true. */
  ghost predicate TrueBranch(values: seq<bool>, t: Tail, k: nat) {
    k < Branches(t) && Place(t, k) < |values| && values[Place(t, k)]
  }

  lemma TrueIsFirst(s: State, t: Tail, values: seq<bool>, k: nat)
    requires k < Branches(t) && BranchGiven(s, t, values, k)
    ensures TrueBranch(values, t, k) <==> AllTrue(s.conditions) && Holds(t, s.symbols)[k] && !SomeHolds(Holds(t, s.symbols), k)
  {
  }

  /** The machine gives at most one branch of a group the value true; none inside a false condition, and exactly one otherwise if some condition holds or there is an `#else`. */
  lemma OneBranch(s: State, cond: Expr, body: Items, tail: Tail)
    requires s.conditions != [] && Proper(body) && ProperTail(tail)
    ensures Run(s, FlatGroup(cond, body, tail)).Some?
    ensures var values, t := Run(s, FlatGroup(cond, body, tail)).value.1, Whole(cond, body, tail);
            var some := SomeHolds(Holds(t, s.symbols), Branches(t));
            && (forall j: nat, k: nat :: TrueBranch(values, t, j) && TrueBranch(values, t, k) ==> j == k)
            && ((exists k: nat :: TrueBranch(values, t, k)) <==> AllTrue(s.conditions) && some)
            && (HasElse(t) ==> some)
  {
    hide Run, AllTrue, FlatGroup, Holds, Whole, BranchGiven, TrueBranch, SomeHolds;
    GroupRuns(s, cond, body, tail);
    var values, t := Run(s, FlatGroup(cond, body, tail)).value.1, Whole(cond, body, tail);
    forall k: nat | k < Branches(t)
      ensures TrueBranch(values, t, k) <==> AllTrue(s.conditions) && Holds(t, s.symbols)[k] && !SomeHolds(Holds(t, s.symbols), k)
    {
      TrueIsFirst(s, t, values, k);
    }
    OneIsTrue(values, t, Holds(t, s.symbols), AllTrue(s.conditions));
    if HasElse(t) {
      ElseHolds(t, s.symbols);
      LastHolds(Holds(t, s.symbols));
    }
  }

  /** If the true branches are those whose condition is the first to hold, there is at most one. */
  lemma OneIsTrue(values: seq<bool>, t: Tail, holds: seq<bool>, outer: bool)
    requires |holds| == Branches(t)
    requires forall k: nat :: k < Branches(t) ==> (TrueBranch(values, t, k) <==> outer && holds[k] && !SomeHolds(holds, k))
    ensures forall j: nat, k: nat :: TrueBranch(values, t, j) && TrueBranch(values, t, k) ==> j == k
    ensures (exists k: nat :: TrueBranch(values, t, k)) <==> outer && SomeHolds(holds, Branches(t))
  {
    forall j: nat, k: nat | TrueBranch(values, t, j) && TrueBranch(values, t, k) ensures j == k {
      assert j < Branches(t) && k < Branches(t);
      assert holds[j] && holds[k];
    }
    hide Place;
    if SomeHolds(holds, Branches(t)) {
      FirstHolding(holds, Branches(t));
      var k: nat :| k < Branches(t) && holds[k] && !SomeHolds(holds, k);
      assert TrueBranch(values, t, k) <==> outer;
    }
    if exists k: nat :: TrueBranch(values, t, k) {
      var k: nat :| TrueBranch(values, t, k);
      assert holds[k];
    }
  }

  lemma LastHolds(holds: seq<bool>)
    requires holds != [] && holds[|holds| - 1]
    ensures SomeHolds(holds, |holds|)
  {
  }

  /** A directive directly in a branch has the branch's own value, unless an earlier branch was taken under true conditions: then the branch is skipped, and its directives are not told. */
  lemma SkippedBranchSeen(s: State, cond: Expr, body: Items, tail: Tail, k: nat, i: nat)
    requires s.conditions != [] && Proper(body) && ProperTail(tail)
    requires k < Branches(Whole(cond, body, tail)) && Outermost(Body(Whole(cond, body, tail), k), i)
    ensures Run(s, FlatGroup(cond, body, tail)).Some?
    ensures var values, t := Run(s, FlatGroup(cond, body, tail)).value.1, Whole(cond, body, tail);
            && Place(t, k) + 1 + i < |values|
            && (values[Place(t, k) + 1 + i] == values[Place(t, k)]
                <==> !(AllTrue(s.conditions) && SomeHolds(Holds(t, s.symbols), k)))
  {
    hide Run, AllTrue, Place, Body, FlatGroup, Meaning, Symbols, Holds, Outermost;
    GroupRuns(s, cond, body, tail);
    var values, t := Run(s, FlatGroup(cond, body, tail)).value.1, Whole(cond, body, tail);
    var holds := Holds(t, s.symbols);
    assert BranchGiven(s, t, values, k);
    assert SomeHolds(holds, k + 1) <==> holds[k] || SomeHolds(holds, k);
  }

  /** The shortest such file: an `#else` after a taken `#if`. */
  lemma SkippedElseActive(s: State)
    requires s.conditions == [true]
    ensures Run(s, [If(True), Else, Other, Endif]) == Some((s, [true, false, true, true]))
  {
    hide Run, Reaches;
    var s1 := Inside(s, true);
    IfReaches(s, True);
    ElseReaches(s, true);
    ReachesOne(s1, Other);
    EndifReaches(s, true);
    ReachesThen(s, [If(True)], s1, [true], [Else], s1, [false]);
    ReachesThen(s, [If(True)] + [Else], s1, [true] + [false], [Other], s1, [true]);
    ReachesThen(s, [If(True)] + [Else] + [Other], s1, [true] + [false] + [true], [Endif], s, [true]);
    assert [true] + [false] + [true] + [true] == [true, false, true, true];
    assert [If(True)] + [Else] + [Other] + [Endif] == [If(True), Else, Other, Endif];
    ReachesIs(s, [If(True), Else, Other, Endif], s, [true, false, true, true]);
  }

  lemma ReachesIs(s: State, ds: seq<Directive>, s': State, values: seq<bool>)
    requires Reaches(s, ds, s', values)
    ensures Run(s, ds) == Some((s', values))
  {
  }

  // ---------------------------------------------------------------------------
  // The parser base as the source has it
  // ---------------------------------------------------------------------------

  class CSharpPreprocessorParserBase {
    var conditions: seq<bool>
    var symbols: set<string>

    constructor ()
      ensures View() == State([true], {"DEBUG"})
    {
      conditions, symbols := [true], {"DEBUG"};
    }

    function View(): State
      reads this
    {
      State(conditions, symbols)
    }

    method AllConditions() returns (all: bool)
      ensures all == AllTrue(conditions)
    {
      for i := |conditions| downto 0
        invariant forall k :: i <= k < |conditions| ==> conditions[k]
      {
        if !conditions[i] {
          return false;
        }
      }
      return true;
    }

    method OnDefine(name: string) returns (value: bool)
      modifies this
      ensures Some((View(), value)) == Step(old(View()), Define(name))
    {
      symbols := symbols + {name};
      value := AllConditions();
    }

    method OnUndef(name: string) returns (value: bool)
      modifies this
      ensures Some((View(), value)) == Step(old(View()), Undef(name))
    {
      symbols := symbols - {name};
      value := AllConditions();
    }

    method OnOther() returns (value: bool)
      ensures Some((View(), value)) == Step(View(), Other)
    {
      value := AllConditions();
    }

    method OnIf(cond: Expr) returns (value: bool)
      modifies this
      ensures Some((View(), value)) == Step(old(View()), If(cond))
    {
      var v := Value(cond, symbols) == "true";
      var all := AllConditions();
      value := v && all;
      conditions := conditions + [v];
    }

    /** `None` where the source throws. */
    method OnElif(cond: Expr) returns (r: Option<bool>)
      modifies this
      ensures match Step(old(View()), Elif(cond))
              case None => r == None
              case Some((s, value)) => r == Some(value) && View() == s
    {
      if conditions == [] {
        return None;
      }
      if conditions[|conditions| - 1] {
        return Some(false);
      }
      conditions := conditions[..|conditions| - 1];
      var v := Value(cond, symbols) == "true";
      var all := AllConditions();
      conditions := conditions + [v];
      r := Some(v && all);
    }

    method OnElse() returns (r: Option<bool>)
      modifies this
      ensures match Step(old(View()), Else)
              case None => r == None
              case Some((s, value)) => r == Some(value) && View() == s
    {
      if conditions == [] {
        return None;
      }
      if conditions[|conditions| - 1] {
        return Some(false);
      }
      conditions := conditions[..|conditions| - 1];
      var all := AllConditions();
      conditions := conditions + [true];
      r := Some(all);
    }

    method OnEndif() returns (r: Option<bool>)
      modifies this
      ensures match Step(old(View()), Endif)
              case None => r == None
              case Some((s, value)) => r == Some(value) && View() == s
    {
      if conditions == [] {
        return None;
      }
      conditions := conditions[..|conditions| - 1];
      if conditions == [] {
        return None;
      }
      r := Some(conditions[|conditions| - 1]);
    }
  }

  /** All directives of a file, one after the other: `None` where the source throws. */
  method Preprocess(ds: seq<Directive>) returns (values: Option<seq<bool>>)
    ensures match Run(State([true], {"DEBUG"}), ds)
            case None => values == None
            case Some((_, vs)) => values == Some(vs)
  {
    hide Step;
    var parser := new CSharpPreprocessorParserBase();
    ghost var s0 := parser.View();
    var vs: seq<bool> := [];
    for i := 0 to |ds|
      invariant fresh(parser) && Run(s0, ds[..i]) == Some((parser.View(), vs))
    {
      RunSnoc(s0, ds, i);
      var r := Dispatch(parser, ds[i]);
      if r.None? {
        return None;
      }
      vs := vs + [r.value];
    }
    assert ds[..|ds|] == ds;
    return Some(vs);
  }

  lemma RunSnoc(s: State, ds: seq<Directive>, i: nat)
    requires i < |ds| && Run(s, ds[..i]).Some?
    ensures var (s1, vs) := Run(s, ds[..i]).value;
            match Step(s1, ds[i])
            case None => Run(s, ds).None?
            case Some((s2, v)) => Run(s, ds[..i + 1]) == Some((s2, vs + [v]))
  {
    hide Step;
    var (s1, vs) := Run(s, ds[..i]).value;
    assert ds == ds[..i] + ds[i..] && ds[..i + 1] == ds[..i] + [ds[i]];
    RunConcat(s, ds[..i], ds[i..]);
    RunConcat(s, ds[..i], [ds[i]]);
    if Step(s1, ds[i]).Some? {
      ReachesOne(s1, ds[i]);
    }
  }

  method Dispatch(parser: CSharpPreprocessorParserBase, d: Directive) returns (r: Option<bool>)
    modifies parser
    ensures match Step(old(parser.View()), d)
            case None => r == None
            case Some((s, value)) => r == Some(value) && parser.View() == s
  {
    var v;
    match d {
      case Define(name) => v := parser.OnDefine(name); r := Some(v);
      case Undef(name) => v := parser.OnUndef(name); r := Some(v);
      case Other => v := parser.OnOther(); r := Some(v);
      case If(cond) => v := parser.OnIf(cond); r := Some(v);
      case Elif(cond) => r := parser.OnElif(cond);
      case Else => r := parser.OnElse();
      case Endif => r := parser.OnEndif();
    }
  }
}
