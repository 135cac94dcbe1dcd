/**
  The Lua comment scanner.  It moves a cursor; that it stops exactly where the comment of the Lua
  manual ends is stated on the input alone, by `EndsAt`.
 */
module LuaComment {

  const NEWLINE := 10
  const EQUALS := 61
  const OPEN := 91   // [
  const CLOSE := 93  // ]

  /** At `p`: a bracket, `n` equals signs, and the same bracket again. */
  predicate LongBracket(input: seq<nat>, bracket: nat, p: nat, n: nat) {
    && p + n + 1 < |input| && input[p] == bracket && input[p + n + 1] == bracket
    && forall i :: p < i <= p + n ==> input[i] == EQUALS
  }

  /** The text from `from` on, up to the first closing long bracket of level `n`, ends at `e`. */
  ghost predicate LongEnd(input: seq<nat>, from: nat, n: nat, e: nat) {
    || (exists q: nat :: from <= q && LongBracket(input, CLOSE, q, n) && e == q + n + 2
                         && forall q': nat :: from <= q' < q ==> !LongBracket(input, CLOSE, q', n))
    || (e == |input| && forall q': nat :: from <= q' ==> !LongBracket(input, CLOSE, q', n))
  }

  /** The line from `p` on ends at `e`. */
  ghost predicate LineEnd(input: seq<nat>, p: nat, e: nat) {
    && p <= e <= |input| && (forall i :: p <= i < e ==> input[i] != NEWLINE)
    && (e < |input| ==> input[e] == NEWLINE)
  }

  /** A comment whose text starts at `p` ends at `e`. */
  ghost predicate EndsAt(input: seq<nat>, p: nat, e: nat) {
    || (exists n: nat :: LongBracket(input, OPEN, p, n) && LongEnd(input, p + n + 2, n, e))
    || ((forall n: nat :: !LongBracket(input, OPEN, p, n)) && LineEnd(input, p, e))
  }

  /** A position opens a long bracket of at most one level. */
  lemma LevelUnique(input: seq<nat>, bracket: nat, p: nat, m: nat, n: nat)
    requires bracket != EQUALS && LongBracket(input, bracket, p, m) && LongBracket(input, bracket, p, n)
    ensures m == n
  {
  }

  lemma LongEndUnique(input: seq<nat>, from: nat, n: nat, e1: nat, e2: nat)
    requires LongEnd(input, from, n, e1) && LongEnd(input, from, n, e2)
    ensures e1 == e2
  {
    if exists q: nat :: from <= q && LongBracket(input, CLOSE, q, n) {
      var q1: nat :| from <= q1 && LongBracket(input, CLOSE, q1, n) && e1 == q1 + n + 2
                     && forall q': nat :: from <= q' < q1 ==> !LongBracket(input, CLOSE, q', n);
      var q2: nat :| from <= q2 && LongBracket(input, CLOSE, q2, n) && e2 == q2 + n + 2
                     && forall q': nat :: from <= q' < q2 ==> !LongBracket(input, CLOSE, q', n);
      assert q1 == q2;
    }
  }

  lemma LineEndUnique(input: seq<nat>, p: nat, e1: nat, e2: nat)
    requires LineEnd(input, p, e1) && LineEnd(input, p, e2)
    ensures e1 == e2
  {
  }

  /** The comment's end is determined by the input. */
  lemma EndUnique(input: seq<nat>, p: nat, e1: nat, e2: nat)
    requires EndsAt(input, p, e1) && EndsAt(input, p, e2)
    ensures e1 == e2
  {
    hide LongBracket, LongEnd, LineEnd;
    if exists n: nat :: LongBracket(input, OPEN, p, n) {
      var n1: nat :| LongBracket(input, OPEN, p, n1) && LongEnd(input, p + n1 + 2, n1, e1);
      var n2: nat :| LongBracket(input, OPEN, p, n2) && LongEnd(input, p + n2 + 2, n2, e2);
      LevelUnique(input, OPEN, p, n1, n2);
      LongEndUnique(input, p + n1 + 2, n1, e1, e2);
    } else {
      LineEndUnique(input, p, e1, e2);
    }
  }

  class LuaLexerBase {
    const input: seq<nat>
    var index: nat

    constructor (input: seq<nat>)
      ensures this.input == input && index == 0
    {
      this.input, index := input, 0;
    }

    /** `LA(1)`: the next character, or -1. */
    function LA(): int
      reads this
    {
      if index < |input| then input[index] else -1
    }

    /** Moving past the end is an error of the caller. */
    method Consume()
      requires index < |input|
      modifies this
      ensures index == old(index) + 1
    {
      index := index + 1;
    }

    /**
      Skips a bracket and the equals signs after it.  With `k` of them the result is `k + 2` if the
      same bracket follows; otherwise 1 if `k` is 0, and else 0.
     */
    method SkipSep() returns (count: nat, ghost k: nat)
      requires index < |input|
      modifies this
      ensures index == old(index) + 1 + k <= |input|
      ensures forall i :: old(index) < i < index ==> input[i] == EQUALS
      ensures LA() != EQUALS
      ensures count == if LA() == old(LA()) then k + 2 else if k == 0 then 1 else 0
    {
      count := 0;
      var s := LA();
      Consume();
      while LA() == EQUALS
        invariant index == old(index) + 1 + count <= |input|
        invariant forall i :: old(index) < i < index ==> input[i] == EQUALS
        decreases |input| - index
      {
        Consume();
        count := count + 1;
      }
      k := count;
      if LA() == s {
        count := count + 2;
      } else if count == 0 {
        count := 1;
      } else {
        count := 0;
      }
    }

    /** The rest of a long comment; the cursor stands on its second opening bracket. */
    method ReadLongString(sep: nat)
      requires index < |input| && sep >= 2
      modifies this
      ensures LongEnd(input, old(index) + 1, sep - 2, index)
    {
      ghost var from, n := index + 1, sep - 2;
      var done := false;
      Consume();
      while !done
        invariant from <= index <= |input|
        invariant !done ==> forall q: nat :: from <= q < index ==> !LongBracket(input, CLOSE, q, n)
        invariant done ==> LongEnd(input, from, n, index)
        decreases !done, |input| - index
      {
        var c := LA();
        if c == -1 {
          done := true;
        } else if c == CLOSE {
          ghost var q := index;
          var count, k := SkipSep();
          if count == sep {
            assert LongBracket(input, CLOSE, q, n);
            Consume();
            done := true;
          } else {
            NotClosing(input, q, k, n);
          }
        } else {
          Consume();
        }
      }
    }

    /** The text of a comment, the cursor standing after its two dashes. */
    method HandleComment()
      requires index <= |input|
      modifies this
      ensures EndsAt(input, old(index), index)
    {
      ghost var p := index;
      if LA() == OPEN {
        var sep, k := SkipSep();
        if sep >= 2 {
          assert LongBracket(input, OPEN, p, k);
          ReadLongString(sep);
          return;
        }
        NotOpening(input, p, k);
      }
      while LA() != NEWLINE && LA() != -1
        invariant p <= index <= |input| && forall i :: p <= i < index ==> input[i] != NEWLINE
        decreases |input| - index
      {
        Consume();
      }
    }
  }

  /** A bracket and exactly `k` equals signs open no long bracket unless the bracket follows. */
  lemma NotOpening(input: seq<nat>, p: nat, k: nat)
    requires p + k + 1 <= |input| && input[p] == OPEN && (forall i :: p < i <= p + k ==> input[i] == EQUALS)
    requires p + k + 1 < |input| ==> input[p + k + 1] != EQUALS && input[p + k + 1] != OPEN
    ensures forall n: nat :: !LongBracket(input, OPEN, p, n)
  {
  }

  /** No closing bracket of level `n` starts at `q` or among the equals signs after it. */
  lemma NotClosing(input: seq<nat>, q: nat, k: nat, n: nat)
    requires q + k + 1 <= |input| && input[q] == CLOSE && (forall i :: q < i <= q + k ==> input[i] == EQUALS)
    requires q + k + 1 < |input| ==> input[q + k + 1] != EQUALS && (input[q + k + 1] == CLOSE ==> k != n)
    ensures forall q': nat :: q <= q' <= q + k ==> !LongBracket(input, CLOSE, q', n)
  {
  }

  /** Where the comment that starts at `p` ends, by running the scanner. */
  method CommentEnd(input: seq<nat>, p: nat) returns (e: nat)
    requires p <= |input|
    ensures EndsAt(input, p, e) && p <= e <= |input|
  {
    var lexer := new LuaLexerBase(input);
    lexer.index := p;
    lexer.HandleComment();
    e := lexer.index;
  }
}
