/**
  The state the C# lexer keeps for interpolated strings: nesting level, a stack of string kinds, a
  stack of brace counts, and the lexer's mode stack.  Characters are dispatched on the mode, as
  the grammar does; for every well-nested piece of code the state comes back unchanged, and the
  mode is popped at exactly those braces that close a hole.
 */
module CSharpInterpolation {
  import opened Wrappers

  datatype Mode = Default | StringText | Format

  /** What the lexer meets.  `Colon(true)` is one that starts a format specifier. */
  datatype Event = StringStart(verbatim: bool) | OpenBrace | CloseBrace | Quote | Colon(toFormat: bool) | Other

  /** Tops of stacks are last; `mode` is the current mode, not on the mode stack. */
  datatype State = State(level: int, verbatims: seq<bool>, curly: seq<int>, verbatim: bool, mode: Mode, modes: seq<Mode>)

  const INIT := State(0, [], [], false, Default, [])

  function PushMode(s: State, m: Mode): State {
    s.(modes := s.modes + [s.mode], mode := m)
  }

  function PopMode(s: State): Option<State> {
    if s.modes == [] then None
    else Some(s.(mode := s.modes[|s.modes| - 1], modes := s.modes[..|s.modes| - 1]))
  }

  function StartString(s: State, verbatim: bool): State {
    s.(level := s.level + 1, verbatims := s.verbatims + [verbatim], verbatim := verbatim)
  }

  function EndString(s: State): Option<State> {
    if s.verbatims == [] then None
    else
      var rest := s.verbatims[..|s.verbatims| - 1];
      Some(s.(level := s.level - 1, verbatims := rest, verbatim := rest != [] && rest[|rest| - 1]))
  }

  /** The innermost brace count, changed by `d`. */
  function Bump(s: State, d: int): Option<State> {
    if s.curly == [] then None else Some(s.(curly := s.curly[..|s.curly| - 1] + [s.curly[|s.curly| - 1] + d]))
  }

  function DropCount(s: State): Option<State> {
    if s.curly == [] then None else Some(s.(curly := s.curly[..|s.curly| - 1]))
  }

  /** The new state, and whether a closing brace ended a hole; `None` where the source throws on an empty stack. */
  function Step(s: State, e: Event): Option<(State, bool)> {
    match s.mode
    case Default =>
      (match e
       case StringStart(v) => Some((PushMode(StartString(s, v), StringText), false))
       case OpenBrace =>
         if s.level <= 0 then Some((s, false))
         else (match Bump(s, 1) case None => None case Some(s1) => Some((s1, false)))
       case CloseBrace =>
         if s.level <= 0 then Some((s, false))
         else
           (match Bump(s, -1)
            case None => None
            case Some(s1) =>
              if s1.curly[|s1.curly| - 1] != 0 then Some((s1, false))
              else
                match PopMode(s1.(curly := s1.curly[..|s1.curly| - 1]))
                case None => None
                case Some(s2) => Some((s2, true)))
       case Colon(toFormat) => Some((if s.level > 0 && toFormat then s.(mode := Format) else s, false))
       case _ => Some((s, false)))
    case StringText =>
      (match e
       case OpenBrace => Some((PushMode(s.(curly := s.curly + [1]), Default), false))
       case Quote =>
         (match EndString(s)
          case None => None
          case Some(s1) => match PopMode(s1) case None => None case Some(s2) => Some((s2, false)))
       case _ => Some((s, false)))
    case Format =>
      (match e
       case CloseBrace =>
         (match DropCount(s)
          case None => None
          case Some(s1) => match PopMode(s1) case None => None case Some(s2) => Some((s2, true)))
       case _ => Some((s, false)))
  }

  /** Level, string kinds and the flag always agree. */
  predicate Agrees(s: State) {
    s.level == |s.verbatims| && s.verbatim == (s.verbatims != [] && s.verbatims[|s.verbatims| - 1])
  }

  /** Any event, well-nested or not, keeps them in agreement. */
  lemma StepAgrees(s: State, e: Event)
    requires Agrees(s) && Step(s, e).Some?
    ensures Agrees(Step(s, e).value.0)
  {
  }

  function Run(s: State, es: seq<Event>): Option<(State, seq<bool>)>
    decreases |es|
  {
    if es == [] then Some((s, []))
    else
      match Step(s, es[0])
      case None => None
      case Some((s1, b)) =>
        match Run(s1, es[1..])
        case None => None
        case Some((s2, bs)) => Some((s2, [b] + bs))
  }

  /** Over every run that does not throw. */
  lemma {:induction false} RunAgrees(s: State, es: seq<Event>)
    requires Agrees(s) && Run(s, es).Some?
    ensures Agrees(Run(s, es).value.0)
    decreases |es|
  {
    hide Step, Agrees;
    if es != [] {
      StepAgrees(s, es[0]);
      RunAgrees(Step(s, es[0]).value.0, es[1..]);
    }
  }

  // ---------------------------------------------------------------------------
  // Well-nested code
  // ---------------------------------------------------------------------------

  /** `Plain`: a colon that starts no format specifier, or any other token. */
  datatype Code =
    | Nil
    | Plain(colon: bool, rest: Code)
    | Braces(inner: Code, rest: Code)
    | Text(verbatim: bool, parts: Parts, rest: Code)

  /** A hole may have a format specifier, of any number of tokens. */
  datatype Parts = NoMore | Chars(rest: Parts) | Hole(code: Code, format: Option<nat>, rest: Parts)

  function PlainEvent(colon: bool): Event {
    if colon then Colon(false) else Other
  }

  function Others(n: nat): seq<Event> {
    seq(n, _ => Other)
  }

  function Falses(n: nat): seq<bool> {
    seq(n, _ => false)
  }

  function FormatEvents(format: Option<nat>): seq<Event> {
    match format
    case None => []
    case Some(n) => [Colon(true)] + Others(n)
  }

  function Flat(c: Code): seq<Event> {
    match c
    case Nil => []
    case Plain(colon, rest) => [PlainEvent(colon)] + Flat(rest)
    case Braces(inner, rest) => [OpenBrace] + Flat(inner) + [CloseBrace] + Flat(rest)
    case Text(v, parts, rest) => [StringStart(v)] + FlatParts(parts) + [Quote] + Flat(rest)
  }

  function FlatParts(p: Parts): seq<Event> {
    match p
    case NoMore => []
    case Chars(rest) => [Other] + FlatParts(rest)
    case Hole(code, format, rest) =>
      [OpenBrace] + Flat(code) + FormatEvents(format) + [CloseBrace] + FlatParts(rest)
  }

  /** Which events end a hole. */
  function Ends(c: Code): seq<bool> {
    match c
    case Nil => []
    case Plain(_, rest) => [false] + Ends(rest)
    case Braces(inner, rest) => [false] + Ends(inner) + [false] + Ends(rest)
    case Text(_, parts, rest) => [false] + EndsParts(parts) + [false] + Ends(rest)
  }

  function EndsParts(p: Parts): seq<bool> {
    match p
    case NoMore => []
    case Chars(rest) => [false] + EndsParts(rest)
    case Hole(code, format, rest) =>
      [false] + Ends(code) + Falses(|FormatEvents(format)|) + [true] + EndsParts(rest)
  }

  ghost predicate Reaches(s: State, es: seq<Event>, s': State, ends: seq<bool>) {
    Run(s, es) == Some((s', ends))
  }

  lemma One(s: State, e: Event)
    requires Step(s, e).Some?
    ensures Reaches(s, [e], Step(s, e).value.0, [Step(s, e).value.1])
  {
    hide Step;
    var (s1, b) := Step(s, e).value;
    assert [e][1..] == [] && Run(s1, []) == Some((s1, [])) && [b] + [] == [b];
  }

  lemma {:induction false} Chain(s: State, a: seq<Event>, s1: State, va: seq<bool>, b: seq<Event>, s2: State, vb: seq<bool>)
    requires Reaches(s, a, s1, va) && Reaches(s1, b, s2, vb)
    ensures Reaches(s, a + b, s2, va + vb)
    decreases |a|
  {
    hide Step;
    if a == [] {
      assert a + b == b && va + vb == vb;
    } else {
      var (s', v) := Step(s, a[0]).value;
      var rest := Run(s', a[1..]).value.1;
      assert (a + b)[0] == a[0] && (a + b)[1..] == a[1..] + b;
      Chain(s', a[1..], s1, rest, b, s2, vb);
      assert va == [v] + rest && va + vb == [v] + (rest + vb);
    }
  }

  /** Outside of all strings, nothing but the start of one changes anything: braces are not counted, and colons start no format. */
  lemma {:induction false} OutsideStrings(s: State, es: seq<Event>)
    requires s.mode.Default? && s.level <= 0 && forall i :: 0 <= i < |es| ==> !es[i].StringStart?
    ensures Run(s, es) == Some((s, Falses(|es|)))
    decreases |es|
  {
    if es == [] {
      assert Falses(0) == [];
    } else {
      assert !es[0].StringStart?;
      assert forall i :: 0 <= i < |es| - 1 ==> es[1..][i] == es[i + 1];
      OutsideStrings(s, es[1..]);
      assert [false] + Falses(|es| - 1) == Falses(|es|);
    }
  }

  /** Code can be read: outside strings, or inside a hole whose brace count is positive. */
  predicate Reading(s: State) {
    s.mode.Default? && Agrees(s) && (s.level > 0 ==> s.curly != [] && s.curly[|s.curly| - 1] > 0)
  }

  /** The text of a string can be read. */
  predicate InText(s: State) {
    s.mode.StringText? && Agrees(s) && s.level > 0
  }

  /** Inside the braces, the count of an enclosing hole is one higher. */
  function Deeper(s: State): State {
    if s.level <= 0 || s.curly == [] then s
    else s.(curly := s.curly[..|s.curly| - 1] + [s.curly[|s.curly| - 1] + 1])
  }

  lemma BraceSteps(s: State)
    requires Reading(s)
    ensures Reading(Deeper(s)) && Step(s, OpenBrace) == Some((Deeper(s), false))
    ensures Step(Deeper(s), CloseBrace) == Some((s, false))
  {
    if s.level > 0 {
      var init, n := s.curly[..|s.curly| - 1], s.curly[|s.curly| - 1];
      assert s.curly == init + [n];
      assert Deeper(s).curly[..|s.curly| - 1] == init;
    }
  }

  /** The state inside a string's text, and inside a hole of it. */
  function Within(s: State, v: bool): State {
    PushMode(StartString(s, v), StringText)
  }

  function InHole(s: State): State {
    PushMode(s.(curly := s.curly + [1]), Default)
  }

  lemma StringSteps(s: State, v: bool)
    requires Reading(s)
    ensures Step(s, StringStart(v)) == Some((Within(s, v), false)) && InText(Within(s, v))
    ensures Step(Within(s, v), Quote) == Some((s, false))
  {
    assert Within(s, v).verbatims[..|s.verbatims|] == s.verbatims;
    assert Within(s, v).modes[..|s.modes|] == s.modes;
  }

  lemma HoleSteps(s: State)
    requires InText(s)
    ensures Step(s, OpenBrace) == Some((InHole(s), false)) && Reading(InHole(s))
    ensures Step(InHole(s), CloseBrace) == Some((s, true))
    ensures Step(InHole(s), Colon(true)) == Some((InHole(s).(mode := Format), false))
    ensures Step(InHole(s).(mode := Format), CloseBrace) == Some((s, true))
  {
    assert InHole(s).curly[..|s.curly|] == s.curly && InHole(s).modes[..|s.modes|] == s.modes;
    assert (s.curly + [0])[..|s.curly|] == s.curly;
  }

  /** Every well-nested piece of code leaves the state as it found it, and ends holes exactly at their closing braces. */
  lemma {:induction false} CodeRestores(s: State, c: Code)
    requires Reading(s)
    ensures Reaches(s, Flat(c), s, Ends(c))
    decreases c
  {
    hide Reaches, Step, Reading;
    match c {
      case Nil => NothingToDo(s);
      case Plain(colon, rest) =>
        OtherStep(s, colon);
        One(s, PlainEvent(colon));
        CodeRestores(s, rest);
        Chain(s, [PlainEvent(colon)], s, [false], Flat(rest), s, Ends(rest));
      case Braces(inner, rest) =>
        BraceSteps(s);
        One(s, OpenBrace);
        One(Deeper(s), CloseBrace);
        CodeRestores(Deeper(s), inner);
        CodeRestores(s, rest);
        Chain(s, [OpenBrace], Deeper(s), [false], Flat(inner), Deeper(s), Ends(inner));
        Chain(s, [OpenBrace] + Flat(inner), Deeper(s), [false] + Ends(inner), [CloseBrace], s, [false]);
        Chain(s, [OpenBrace] + Flat(inner) + [CloseBrace], s, [false] + Ends(inner) + [false], Flat(rest), s, Ends(rest));
      case Text(v, parts, rest) =>
        StringSteps(s, v);
        One(s, StringStart(v));
        One(Within(s, v), Quote);
        PartsRestore(Within(s, v), parts);
        CodeRestores(s, rest);
        Chain(s, [StringStart(v)], Within(s, v), [false], FlatParts(parts), Within(s, v), EndsParts(parts));
        Chain(s, [StringStart(v)] + FlatParts(parts), Within(s, v), [false] + EndsParts(parts), [Quote], s, [false]);
        Chain(s, [StringStart(v)] + FlatParts(parts) + [Quote], s, [false] + EndsParts(parts) + [false],
              Flat(rest), s, Ends(rest));
    }
  }

  lemma NothingToDo(s: State)
    ensures Reaches(s, [], s, [])
  {
  }

  lemma OtherStep(s: State, colon: bool)
    ensures Step(s, PlainEvent(colon)) == Some((s, false))
  {
  }

  lemma {:induction false} PartsRestore(s: State, p: Parts)
    requires InText(s)
    ensures Reaches(s, FlatParts(p), s, EndsParts(p))
    decreases p
  {
    hide Reaches, Step, Reading, InText, InHole;
    match p {
      case NoMore => NothingToDo(s);
      case Chars(rest) =>
        OtherStep(s, false);
        One(s, Other);
        PartsRestore(s, rest);
        Chain(s, [Other], s, [false], FlatParts(rest), s, EndsParts(rest));
      case Hole(code, format, rest) =>
        HoleSteps(s);
        One(s, OpenBrace);
        CodeRestores(InHole(s), code);
        PartsRestore(s, rest);
        HoleEnds(s, format);
        var h := InHole(s);
        var es := FormatEvents(format);
        var bs := Falses(|es|);
        Chain(s, [OpenBrace], h, [false], Flat(code), h, Ends(code));
        Chain(s, [OpenBrace] + Flat(code), h, [false] + Ends(code), es + [CloseBrace], s, bs + [true]);
        assert [OpenBrace] + Flat(code) + (es + [CloseBrace]) == [OpenBrace] + Flat(code) + es + [CloseBrace];
        assert [false] + Ends(code) + (bs + [true]) == [false] + Ends(code) + bs + [true];
        Chain(s, [OpenBrace] + Flat(code) + es + [CloseBrace], s, [false] + Ends(code) + bs + [true],
              FlatParts(rest), s, EndsParts(rest));
    }
  }

  lemma {:induction false} FormatStays(s: State, n: nat)
    requires s.mode.Format?
    ensures Reaches(s, Others(n), s, Falses(n))
  {
    if n == 0 {
      NothingToDo(s);
      assert Others(0) == [] && Falses(0) == [];
    } else {
      FormatStays(s, n - 1);
      One(s, Other);
      Chain(s, [Other], s, [false], Others(n - 1), s, Falses(n - 1));
      assert [Other] + Others(n - 1) == Others(n) && [false] + Falses(n - 1) == Falses(n);
    }
  }

  /** A hole ends with its brace, with or without a format specifier. */
  lemma HoleEnds(s: State, format: Option<nat>)
    requires InText(s)
    ensures Reaches(InHole(s), FormatEvents(format) + [CloseBrace], s, Falses(|FormatEvents(format)|) + [true])
  {
    hide Reaches, Step, InText, InHole;
    HoleSteps(s);
    var h := InHole(s);
    match format {
      case None =>
        One(h, CloseBrace);
        assert [] + [CloseBrace] == [CloseBrace] && Falses(0) + [true] == [true];
      case Some(n) =>
        var f := h.(mode := Format);
        One(h, Colon(true));
        FormatStays(f, n);
        One(f, CloseBrace);
        Chain(h, [Colon(true)], f, [false], Others(n), f, Falses(n));
        Chain(h, [Colon(true)] + Others(n), f, [false] + Falses(n), [CloseBrace], s, [true]);
        assert [false] + Falses(n) == Falses(n + 1);
    }
  }

  // ---------------------------------------------------------------------------
  // Which kind of string the lexer is in
  // ---------------------------------------------------------------------------

  /** What `IsRegularCharInside` and `IsVerbatiumDoubleQuoteInside` go by, and the kinds of the strings around. */
  datatype View = View(verbatim: bool, kinds: seq<bool>)

  /** Inside strings of the given kinds, outermost first. */
  function Around(kinds: seq<bool>): View {
    View(kinds != [] && kinds[|kinds| - 1], kinds)
  }

  function Repeat(v: View, n: nat): seq<View> {
    seq(n, _ => v)
  }

  /** For each event of the code, in which strings it stands. */
  function Views(c: Code, kinds: seq<bool>): seq<View> {
    match c
    case Nil => []
    case Plain(_, rest) => [Around(kinds)] + Views(rest, kinds)
    case Braces(inner, rest) => [Around(kinds)] + Views(inner, kinds) + [Around(kinds)] + Views(rest, kinds)
    case Text(v, parts, rest) =>
      [Around(kinds)] + PartViews(parts, kinds + [v]) + [Around(kinds + [v])] + Views(rest, kinds)
  }

  function PartViews(p: Parts, kinds: seq<bool>): seq<View> {
    match p
    case NoMore => []
    case Chars(rest) => [Around(kinds)] + PartViews(rest, kinds)
    case Hole(code, format, rest) =>
      [Around(kinds)] + Views(code, kinds) + Repeat(Around(kinds), |FormatEvents(format)|) + [Around(kinds)] + PartViews(rest, kinds)
  }

  /** What the lexer has when it meets each event. */
  function Seen(s: State, es: seq<Event>): seq<View>
    decreases |es|
  {
    if es == [] || Step(s, es[0]).None? then []
    else [View(s.verbatim, s.verbatims)] + Seen(Step(s, es[0]).value.0, es[1..])
  }

  lemma {:induction false} SeenChain(s: State, a: seq<Event>, s1: State, va: seq<bool>, b: seq<Event>)
    requires Reaches(s, a, s1, va)
    ensures Seen(s, a + b) == Seen(s, a) + Seen(s1, b)
    decreases |a|
  {
    hide Step;
    if a == [] {
      assert a + b == b && [] + Seen(s1, b) == Seen(s1, b);
    } else {
      var s2 := Step(s, a[0]).value.0;
      assert (a + b)[0] == a[0] && (a + b)[1..] == a[1..] + b;
      SeenChain(s2, a[1..], s1, Run(s2, a[1..]).value.1, b);
      var here := [View(s.verbatim, s.verbatims)];
      assert here + (Seen(s2, a[1..]) + Seen(s1, b)) == here + Seen(s2, a[1..]) + Seen(s1, b);
    }
  }

  lemma SeenOne(s: State, e: Event)
    requires Agrees(s) && Step(s, e).Some?
    ensures Seen(s, [e]) == [Around(s.verbatims)]
  {
    hide Step;
    var s1 := Step(s, e).value.0;
    assert [e][1..] == [] && Seen(s1, []) == [] && [Around(s.verbatims)] + [] == [Around(s.verbatims)];
  }

  lemma {:induction false} SeenFormat(s: State, n: nat)
    requires s.mode.Format? && Agrees(s)
    ensures Seen(s, Others(n)) == Repeat(Around(s.verbatims), n)
  {
    if n == 0 {
      assert Others(0) == [] && Repeat(Around(s.verbatims), 0) == [];
    } else {
      SeenFormat(s, n - 1);
      assert Others(n)[0] == Other && Others(n)[1..] == Others(n - 1) && Step(s, Other) == Some((s, false));
      assert [Around(s.verbatims)] + Repeat(Around(s.verbatims), n - 1) == Repeat(Around(s.verbatims), n);
    }
  }

  /** The kinds of the strings around are those the state holds. */
  lemma KindsInside(s: State, v: bool)
    requires Reading(s) || InText(s)
    ensures Agrees(s)
    ensures Agrees(Within(s, v)) && Within(s, v).verbatims == s.verbatims + [v]
    ensures Agrees(Deeper(s)) && Deeper(s).verbatims == s.verbatims
    ensures Agrees(InHole(s)) && InHole(s).verbatims == s.verbatims
  {
  }

  /** A first event, what stands between, a tail, and what follows. */
  lemma SeenAround(s: State, first: Event, m: State, middle: seq<Event>, vm: seq<bool>, tail: seq<Event>, s2: State, vt: seq<bool>, rest: seq<Event>)
    requires Agrees(s) && Step(s, first).Some? && Step(s, first).value.0 == m
    requires Reaches(m, middle, m, vm) && Reaches(m, tail, s2, vt)
    ensures Seen(s, [first] + middle + tail + rest)
            == [Around(s.verbatims)] + Seen(m, middle) + Seen(m, tail) + Seen(s2, rest)
  {
    hide Reaches, Step, Agrees, Around, Seen;
    One(s, first);
    SeenOne(s, first);
    SeenChain(m, tail, s2, vt, rest);
    SeenChain(m, middle, m, vm, tail + rest);
    SeenChain(s, [first], m, [Step(s, first).value.1], middle + (tail + rest));
    assert [first] + (middle + (tail + rest)) == [first] + middle + tail + rest;
    assert [Around(s.verbatims)] + (Seen(m, middle) + (Seen(m, tail) + Seen(s2, rest)))
        == [Around(s.verbatims)] + Seen(m, middle) + Seen(m, tail) + Seen(s2, rest);
  }

  /** While code is read, the lexer has for every event the kind of the innermost string around it, and the kinds of all of them in order. */
  lemma {:induction false} CodeSeen(s: State, c: Code)
    requires Reading(s)
    ensures Seen(s, Flat(c)) == Views(c, s.verbatims)
    decreases c
  {
    hide Reaches, Step, Reading, InText, Agrees, Around, Within, Deeper, InHole, Seen;
    KindsInside(s, true);
    match c {
      case Nil => SeenNothing(s);
      case Plain(colon, rest) =>
        OtherStep(s, colon);
        One(s, PlainEvent(colon));
        SeenOne(s, PlainEvent(colon));
        CodeSeen(s, rest);
        SeenChain(s, [PlainEvent(colon)], s, [false], Flat(rest));
      case Braces(inner, rest) =>
        var d := Deeper(s);
        BraceSteps(s);
        One(d, CloseBrace);
        SeenOne(d, CloseBrace);
        CodeRestores(d, inner);
        CodeSeen(d, inner);
        CodeSeen(s, rest);
        SeenAround(s, OpenBrace, d, Flat(inner), Ends(inner), [CloseBrace], s, [false], Flat(rest));
      case Text(v, parts, rest) =>
        KindsInside(s, v);
        var w := Within(s, v);
        StringSteps(s, v);
        One(w, Quote);
        SeenOne(w, Quote);
        PartsRestore(w, parts);
        PartsSeen(w, parts);
        CodeSeen(s, rest);
        SeenAround(s, StringStart(v), w, FlatParts(parts), EndsParts(parts), [Quote], s, [false], Flat(rest));
    }
  }

  lemma SeenNothing(s: State)
    ensures Seen(s, []) == []
  {
  }

  lemma {:induction false} PartsSeen(s: State, p: Parts)
    requires InText(s)
    ensures Seen(s, FlatParts(p)) == PartViews(p, s.verbatims)
    decreases p
  {
    hide Reaches, Step, Reading, InText, Agrees, Around, Within, Deeper, InHole, Seen;
    KindsInside(s, true);
    match p {
      case NoMore => SeenNothing(s);
      case Chars(rest) =>
        OtherStep(s, false);
        One(s, Other);
        SeenOne(s, Other);
        PartsSeen(s, rest);
        SeenChain(s, [Other], s, [false], FlatParts(rest));
      case Hole(code, format, rest) =>
        var h, tail := InHole(s), FormatEvents(format) + [CloseBrace];
        HoleSteps(s);
        CodeRestores(h, code);
        CodeSeen(h, code);
        HoleEnds(s, format);
        HoleSeen(s, format);
        PartsSeen(s, rest);
        SeenAround(s, OpenBrace, h, Flat(code), Ends(code), tail, s, Falses(|FormatEvents(format)|) + [true], FlatParts(rest));
        assert [OpenBrace] + Flat(code) + tail + FlatParts(rest) == FlatParts(p);
        var around, repeated := [Around(s.verbatims)], Repeat(Around(s.verbatims), |FormatEvents(format)|);
        assert around + Views(code, s.verbatims) + (repeated + around) + PartViews(rest, s.verbatims)
            == around + Views(code, s.verbatims) + repeated + around + PartViews(rest, s.verbatims);
    }
  }

  lemma HoleSeen(s: State, format: Option<nat>)
    requires InText(s)
    ensures Seen(InHole(s), FormatEvents(format) + [CloseBrace])
            == Repeat(Around(s.verbatims), |FormatEvents(format)|) + [Around(s.verbatims)]
  {
    var h := InHole(s);
    var f := h.(mode := Format);
    HoleSteps(s);
    KindsInside(s, true);
    hide Reaches, Step, InText, InHole, Around, Run, Seen;
    match format {
      case None =>
        SeenOne(h, CloseBrace);
        assert [] + [CloseBrace] == [CloseBrace] && Repeat(Around(s.verbatims), 0) + [Around(s.verbatims)] == [Around(s.verbatims)];
      case Some(n) =>
        One(h, Colon(true));
        FormatStays(f, n);
        SeenOne(h, Colon(true));
        SeenFormat(f, n);
        SeenOne(f, CloseBrace);
        SeenChain(f, Others(n), f, Falses(n), [CloseBrace]);
        SeenChain(h, [Colon(true)], f, [false], Others(n) + [CloseBrace]);
        assert [Colon(true)] + (Others(n) + [CloseBrace]) == [Colon(true)] + Others(n) + [CloseBrace];
        assert [Around(s.verbatims)] + (Repeat(Around(s.verbatims), n) + [Around(s.verbatims)])
            == Repeat(Around(s.verbatims), n + 1) + [Around(s.verbatims)];
    }
  }

  // ---------------------------------------------------------------------------
  // The lexer base as the source has it
  // ---------------------------------------------------------------------------

  class CSharpLexerBase {
    var interpolatedStringLevel: int
    var interpolatedVerbatiums: seq<bool>
    var curlyLevels: seq<int>
    var verbatium: bool
    var mode: Mode
    var modeStack: seq<Mode>

    constructor ()
      ensures View() == INIT
    {
      interpolatedStringLevel, interpolatedVerbatiums, curlyLevels := 0, [], [];
      verbatium, mode, modeStack := false, Default, [];
    }

    ghost function View(): State
      reads this
    {
      State(interpolatedStringLevel, interpolatedVerbatiums, curlyLevels, verbatium, mode, modeStack)
    }

    method OnInterpolatedStringStart(verbatim: bool)
      modifies this
      ensures View() == StartString(old(View()), verbatim)
    {
      interpolatedStringLevel := interpolatedStringLevel + 1;
      interpolatedVerbatiums := interpolatedVerbatiums + [verbatim];
      verbatium := verbatim;
    }

    /** `ok` is false where the source throws. */
    method OnOpenBrace() returns (ok: bool)
      requires mode.Default?
      modifies this
      ensures ok == Step(old(View()), OpenBrace).Some?
      ensures ok ==> View() == Step(old(View()), OpenBrace).value.0
    {
      ok := true;
      if interpolatedStringLevel > 0 {
        if curlyLevels == [] {
          return false;
        }
        var n := |curlyLevels| - 1;
        curlyLevels := curlyLevels[..n] + [curlyLevels[n] + 1];
      }
    }

    /** `popped` says that the brace ended a hole. */
    method OnCloseBrace() returns (ok: bool, popped: bool)
      requires mode.Default?
      modifies this
      ensures ok == Step(old(View()), CloseBrace).Some?
      ensures ok ==> (View(), popped) == Step(old(View()), CloseBrace).value
    {
      ok, popped := true, false;
      if interpolatedStringLevel > 0 {
        if curlyLevels == [] {
          return false, false;
        }
        var n := |curlyLevels| - 1;
        curlyLevels := curlyLevels[..n] + [curlyLevels[n] - 1];
        if curlyLevels[n] == 0 {
          curlyLevels := curlyLevels[..n];
          popped := true;
          ok := Pop();
        }
      }
    }

    method OpenBraceInside()
      modifies this
      ensures View() == old(View()).(curly := old(curlyLevels) + [1])
    {
      curlyLevels := curlyLevels + [1];
    }

    method OnDoubleQuoteInside() returns (ok: bool)
      modifies this
      ensures ok == EndString(old(View())).Some?
      ensures ok ==> View() == EndString(old(View())).value
    {
      if interpolatedVerbatiums == [] {
        return false;
      }
      interpolatedStringLevel := interpolatedStringLevel - 1;
      interpolatedVerbatiums := interpolatedVerbatiums[..|interpolatedVerbatiums| - 1];
      verbatium := if |interpolatedVerbatiums| > 0 then interpolatedVerbatiums[|interpolatedVerbatiums| - 1] else false;
      ok := true;
    }

    method OnCloseBraceInside() returns (ok: bool)
      modifies this
      ensures ok == DropCount(old(View())).Some?
      ensures ok ==> View() == DropCount(old(View())).value
    {
      ok := curlyLevels != [];
      if ok {
        curlyLevels := curlyLevels[..|curlyLevels| - 1];
      }
    }

    method Push(m: Mode)
      modifies this
      ensures View() == PushMode(old(View()), m)
    {
      modeStack := modeStack + [mode];
      mode := m;
    }

    method Pop() returns (ok: bool)
      modifies this
      ensures ok == PopMode(old(View())).Some?
      ensures ok ==> View() == PopMode(old(View())).value
    {
      ok := modeStack != [];
      if ok {
        mode := modeStack[|modeStack| - 1];
        modeStack := modeStack[..|modeStack| - 1];
      }
    }

    /** The grammar's dispatch: the mode decides which callback a character triggers. */
    method Handle(e: Event) returns (ok: bool, popped: bool)
      modifies this
      ensures ok == Step(old(View()), e).Some?
      ensures ok ==> (View(), popped) == Step(old(View()), e).value
    {
      ok, popped := true, false;
      if mode.Default? {
        if e.StringStart? {
          OnInterpolatedStringStart(e.verbatim);
          Push(StringText);
        } else if e.OpenBrace? {
          ok := OnOpenBrace();
        } else if e.CloseBrace? {
          ok, popped := OnCloseBrace();
        } else if e.Colon? && interpolatedStringLevel > 0 && e.toFormat {
          mode := Format;
        }
      } else if mode.StringText? {
        if e.OpenBrace? {
          OpenBraceInside();
          Push(Default);
        } else if e.Quote? {
          ok := OnDoubleQuoteInside();
          if ok {
            ok := Pop();
          }
        }
      } else if e.CloseBrace? {
        ok := OnCloseBraceInside();
        if ok {
          ok := Pop();
          popped := true;
        }
      }
    }
  }

  /** The first event of what is left, and the rest. */
  lemma NextEvent(s: State, es: seq<Event>, i: nat)
    requires i < |es| && Run(s, es[i..]).Some?
    ensures Step(s, es[i]).Some? && Run(Step(s, es[i]).value.0, es[i + 1..]).Some?
    ensures var (s1, popped) := Step(s, es[i]).value;
            && Run(s, es[i..]).value.1 == [popped] + Run(s1, es[i + 1..]).value.1
            && Seen(s, es[i..]) == [View(s.verbatim, s.verbatims)] + Seen(s1, es[i + 1..])
  {
    hide Step;
    assert es[i..][0] == es[i] && es[i..][1..] == es[i + 1..];
  }

  lemma StartRuns(c: Code)
    ensures Run(INIT, Flat(c)) == Some((INIT, Ends(c))) && Seen(INIT, Flat(c)) == Views(c, [])
  {
    CodeRestores(INIT, c);
    CodeSeen(INIT, c);
    hide Run, Step, Flat, Ends, Views;
  }

  lemma NothingLeft(s: State)
    ensures Run(s, []) == Some((s, [])) && Seen(s, []) == []
  {
  }

  /** A whole file: what the lexer answers to well-nested code, and which strings it takes each event to stand in. */
  method Lex(c: Code) returns (ends: seq<bool>, seen: seq<View>)
    ensures ends == Ends(c) && seen == Views(c, [])
  {
    hide Step, Run, Seen, Flat, Views, Ends;
    var lexer := new CSharpLexerBase();
    StartRuns(c);
    ends, seen := [], [];
    var es := Flat(c);
    assert es[0..] == es && ends + Ends(c) == Ends(c) && seen + Views(c, []) == Views(c, []);
    for i := 0 to |es|
      invariant fresh(lexer) && Run(lexer.View(), es[i..]).Some?
      invariant ends + Run(lexer.View(), es[i..]).value.1 == Ends(c)
      invariant seen + Seen(lexer.View(), es[i..]) == Views(c, [])
    {
      ghost var s := lexer.View();
      var here := View(lexer.verbatium, lexer.interpolatedVerbatiums);
      NextEvent(s, es, i);
      var ok, popped := lexer.Handle(es[i]);
      ghost var rest, later := Run(lexer.View(), es[i + 1..]).value.1, Seen(lexer.View(), es[i + 1..]);
      assert ends + ([popped] + rest) == ends + [popped] + rest && seen + ([here] + later) == seen + [here] + later;
      ends, seen := ends + [popped], seen + [here];
    }
    NothingLeft(lexer.View());
    assert es[|es|..] == [] && ends + [] == ends && seen + [] == seen;
  }
}
