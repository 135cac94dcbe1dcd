/**
  Indentation in GDScript: how a line's width is counted, and which levels are open after any
  sequence of lines.
 */
module GDScriptIndents {

  // ---------------------------------------------------------------------------
  // The width of leading space
  // ---------------------------------------------------------------------------

  function Advance(column: nat, ch: char): nat {
    if ch == '\t' then column + 8 - column % 8 else column + 1
  }

  /** The column reached from `column` by reading `spaces`. */
  function Width(spaces: string, column: nat): nat {
    if spaces == [] then column else Advance(Width(spaces[..|spaces| - 1], column), spaces[|spaces| - 1])
  }

  function Spaces(n: nat): (r: string)
    ensures |r| == n && forall i :: 0 <= i < n ==> r[i] == ' '
  {
    seq(n, _ => ' ')
  }

  /** The text with each tab replaced, from left to right, by one to eight spaces up to a multiple of eight. */
  function Expanded(spaces: string): string {
    if spaces == [] then []
    else
      var before := Expanded(spaces[..|spaces| - 1]);
      var ch := spaces[|spaces| - 1];
      before + if ch == '\t' then Spaces(8 - |before| % 8) else [ch]
  }

  lemma {:induction false} WidthIsExpandedLength(spaces: string)
    ensures Width(spaces, 0) == |Expanded(spaces)|
    ensures forall i :: 0 <= i < |Expanded(spaces)| ==> Expanded(spaces)[i] != '\t'
    ensures |spaces| <= Width(spaces, 0) <= 8 * |spaces|
  {
    if spaces != [] {
      WidthIsExpandedLength(spaces[..|spaces| - 1]);
    }
  }

  lemma {:induction false} WidthConcat(a: string, b: string, column: nat)
    ensures Width(a + b, column) == Width(b, Width(a, column))
  {
    if b == [] {
      assert a + b == a;
    } else {
      assert (a + b)[..|a + b| - 1] == a + b[..|b| - 1];
      WidthConcat(a, b[..|b| - 1], column);
    }
  }

  lemma {:induction false} WidthOfSpaces(n: nat, column: nat)
    ensures Width(Spaces(n), column) == column + n
  {
    if n > 0 {
      assert Spaces(n)[..n - 1] == Spaces(n - 1);
      WidthOfSpaces(n - 1, column);
    }
  }

  /** Writing any tab out as the spaces it stands for leaves the width unchanged. */
  lemma TabAsSpaces(a: string, b: string)
    ensures Width(a + "\t" + b, 0) == Width(a + Spaces(8 - Width(a, 0) % 8) + b, 0)
  {
    var n := 8 - Width(a, 0) % 8;
    WidthConcat(a + "\t", b, 0);
    WidthConcat(a, "\t", 0);
    WidthConcat(a + Spaces(n), b, 0);
    WidthConcat(a, Spaces(n), 0);
    WidthOfSpaces(n, Width(a, 0));
    assert "\t"[..0] == [];
  }

  method GetIndentationCount(spaces: string) returns (count: nat)
    ensures count == |Expanded(spaces)|
  {
    count := 0;
    for i := 0 to |spaces|
      invariant count == Width(spaces[..i], 0)
    {
      assert spaces[..i + 1][..i] == spaces[..i];
      if spaces[i] == '\t' {
        count := count + 8 - count % 8;
      } else {
        count := count + 1;
      }
    }
    assert spaces[..|spaces|] == spaces;
    WidthIsExpandedLength(spaces);
  }

  // ---------------------------------------------------------------------------
  // Open levels
  // ---------------------------------------------------------------------------

  /** The innermost open level; the outermost is 0 and not on the stack. */
  function Top(stack: seq<nat>): nat {
    if stack == [] then 0 else stack[|stack| - 1]
  }

  /** The stack without the levels deeper than `c`. */
  function Outer(stack: seq<nat>, c: nat): (r: seq<nat>)
    ensures r <= stack
    ensures r != [] ==> r[|r| - 1] <= c
    ensures forall i :: |r| <= i < |stack| ==> stack[i] > c
  {
    if stack != [] && stack[|stack| - 1] > c then Outer(stack[..|stack| - 1], c) else stack
  }

  /** What a line of width `c` does to the stack. */
  function Line(stack: seq<nat>, c: nat): seq<nat> {
    if c > Top(stack) then stack + [c] else Outer(stack, c)
  }

  function Lines(widths: seq<nat>): seq<nat> {
    if widths == [] then [] else Line(Lines(widths[..|widths| - 1]), widths[|widths| - 1])
  }

  ghost predicate Increasing(stack: seq<nat>) {
    && (forall i :: 0 <= i < |stack| ==> stack[i] > 0)
    && (forall i, j :: 0 <= i < j < |stack| ==> stack[i] < stack[j])
  }

  /** `v` is the width of a line that no later line is left of. */
  ghost predicate Open(widths: seq<nat>, v: nat) {
    v > 0 && exists j :: 0 <= j < |widths| && widths[j] == v && forall k :: j <= k < |widths| ==> widths[k] >= v
  }

  /** The line returns to a level that is open. */
  predicate Returns(stack: seq<nat>, c: nat) {
    c < Top(stack) && c > 0 ==> c in stack
  }

  ghost predicate Consistent(widths: seq<nat>) {
    forall i :: 0 <= i < |widths| ==> Returns(Lines(widths[..i]), widths[i])
  }

  lemma LineKeepsIncreasing(stack: seq<nat>, c: nat)
    requires Increasing(stack)
    ensures Increasing(Line(stack, c))
  {
  }

  lemma {:induction false} LinesIncreasing(widths: seq<nat>)
    ensures Increasing(Lines(widths))
  {
    if widths != [] {
      LinesIncreasing(widths[..|widths| - 1]);
      LineKeepsIncreasing(Lines(widths[..|widths| - 1]), widths[|widths| - 1]);
    }
  }

  /** A new line closes the levels right of it and, if it is indented at all, opens its own. */
  lemma OpenStep(widths: seq<nat>, c: nat, v: nat)
    ensures Open(widths + [c], v) <==> v > 0 && v <= c && (v == c || Open(widths, v))
  {
    var all := widths + [c];
    if Open(all, v) {
      var j :| 0 <= j < |all| && all[j] == v && forall k :: j <= k < |all| ==> all[k] >= v;
      assert all[|widths|] == c;
      if j < |widths| {
        assert widths[j] == v;
        forall k | j <= k < |widths| ensures widths[k] >= v {
          assert all[k] == widths[k];
        }
      }
    }
    if v > 0 && v <= c && Open(widths, v) {
      var j :| 0 <= j < |widths| && widths[j] == v && forall k :: j <= k < |widths| ==> widths[k] >= v;
      assert all[j] == v;
    }
    if v > 0 && v == c {
      assert all[|widths|] == v;
    }
  }

  lemma LineMembers(stack: seq<nat>, c: nat, v: nat)
    requires Increasing(stack)
    ensures v in Line(stack, c) <==> v <= c && (v in stack || (v == c && c > Top(stack)))
  {
    if v in stack {
      var i :| 0 <= i < |stack| && stack[i] == v;
    }
  }

  lemma NothingOpen(widths: seq<nat>)
    requires widths == []
    ensures forall v :: !Open(widths, v)
  {
  }

  lemma PositiveLevels(stack: seq<nat>, v: nat)
    requires Increasing(stack) && v in stack
    ensures 0 < v <= Top(stack)
  {
  }

  /**
    After lines whose dedents all return to an open level, the stack holds exactly the widths that
    no later line is left of, in increasing order; an inconsistent dedent breaks this at once.
   */
  lemma {:induction false} StackIsOpenLevels(widths: seq<nat>)
    requires Consistent(widths)
    ensures Increasing(Lines(widths))
    ensures forall v :: v in Lines(widths) <==> Open(widths, v)
  {
    hide Open, Outer, Increasing;
    LinesIncreasing(widths);
    if widths == [] {
      NothingOpen(widths);
    } else {
      var init, c := widths[..|widths| - 1], widths[|widths| - 1];
      forall i | 0 <= i < |init| ensures Returns(Lines(init[..i]), init[i]) {
        assert init[..i] == widths[..i];
      }
      StackIsOpenLevels(init);
      assert widths == init + [c];
      forall v ensures v in Lines(widths) <==> Open(widths, v) {
        OpenStep(init, c, v);
        LineMembers(Lines(init), c, v);
        if v in Lines(init) {
          PositiveLevels(Lines(init), v);
        }
      }
    }
  }

  lemma InconsistentDedentIsLost(widths: seq<nat>, c: nat)
    requires !Returns(Lines(widths), c)
    ensures Open(widths + [c], c) && c !in Lines(widths + [c])
  {
    LinesIncreasing(widths);
    OpenStep(widths, c, c);
    LineMembers(Lines(widths), c, c);
    assert (widths + [c])[..|widths|] == widths;
  }

  /** The stack holds exactly the open levels. */
  ghost predicate Matches(widths: seq<nat>) {
    forall v :: v in Lines(widths) <==> Open(widths, v)
  }

  /** The stack is right after every line exactly when every dedent returns to an open level. */
  lemma ConsistentExactly(widths: seq<nat>)
    ensures Consistent(widths) <==> forall i :: 0 <= i <= |widths| ==> Matches(widths[..i])
  {
    hide Lines, Open, Returns;
    if Consistent(widths) {
      forall i | 0 <= i <= |widths| ensures Matches(widths[..i]) {
        assert forall k :: 0 <= k < i ==> widths[..i][..k] == widths[..k];
        StackIsOpenLevels(widths[..i]);
      }
    }
    if forall i :: 0 <= i <= |widths| ==> Matches(widths[..i]) {
      forall i | 0 <= i < |widths| ensures Returns(Lines(widths[..i]), widths[i]) {
        assert widths[..i + 1] == widths[..i] + [widths[i]] && Matches(widths[..i + 1]);
        if !Returns(Lines(widths[..i]), widths[i]) {
          InconsistentDedentIsLost(widths[..i], widths[i]);
        }
      }
    }
  }
}
