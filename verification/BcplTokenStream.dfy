/**
  Token look-ahead on two channels at once: the scans of `ChannelCommonTokenStream` agree with
  indexing the list of tokens on the given or the default channel.
 */
module BcplTokenStream {
  import opened Wrappers

  datatype Token = Token(isEof: bool, channel: int, text: string)

  const DEFAULT_CHANNEL := 0

  predicate Visible(t: Token, channel: int) {
    t.isEof || t.channel == channel || t.channel == DEFAULT_CHANNEL
  }

  /** EOF is there, and last. */
  ghost predicate Complete(ts: seq<Token>) {
    ts != [] && forall i :: 0 <= i < |ts| ==> (ts[i].isEof <==> i == |ts| - 1)
  }

  /** Positions of the visible tokens among the first `n`, in order. */
  function Indices(ts: seq<Token>, channel: int, n: nat): seq<nat>
    requires n <= |ts|
  {
    if n == 0 then []
    else Indices(ts, channel, n - 1) + if Visible(ts[n - 1], channel) then [n - 1] else []
  }

  /** The positions of all visible tokens: the filtered list. */
  function Filtered(ts: seq<Token>, channel: int): seq<nat> {
    Indices(ts, channel, |ts|)
  }

  /** How many visible tokens precede position `n`. */
  function Rank(ts: seq<Token>, channel: int, n: nat): nat
    requires n <= |ts|
  {
    |Indices(ts, channel, n)|
  }

  lemma {:induction false} IndicesPrefix(ts: seq<Token>, channel: int, m: nat, n: nat)
    requires m <= n <= |ts|
    ensures Indices(ts, channel, m) <= Indices(ts, channel, n)
    decreases n
  {
    if m < n {
      IndicesPrefix(ts, channel, m, n - 1);
    }
  }

  lemma {:induction false} IndicesMembers(ts: seq<Token>, channel: int, n: nat)
    requires n <= |ts|
    ensures forall i :: 0 <= i < |Indices(ts, channel, n)| ==>
              var j := Indices(ts, channel, n)[i]; j < n && Visible(ts[j], channel) && Rank(ts, channel, j) == i
  {
    if n > 0 {
      IndicesMembers(ts, channel, n - 1);
    }
  }

  /** A visible token stands in the filtered list at its rank. */
  lemma AtRank(ts: seq<Token>, channel: int, j: nat)
    requires j < |ts| && Visible(ts[j], channel)
    ensures Rank(ts, channel, j) < |Filtered(ts, channel)| && Filtered(ts, channel)[Rank(ts, channel, j)] == j
  {
    IndicesPrefix(ts, channel, j + 1, |ts|);
  }

  /** Skipping over hidden tokens does not change the rank. */
  lemma {:induction false} RankSkips(ts: seq<Token>, channel: int, i: nat, j: nat)
    requires i <= j <= |ts| && forall k :: i <= k < j ==> !Visible(ts[k], channel)
    ensures Rank(ts, channel, i) == Rank(ts, channel, j)
    decreases j
  {
    if i < j {
      RankSkips(ts, channel, i, j - 1);
    }
  }

  lemma RankBound(ts: seq<Token>, channel: int, n: nat)
    requires n <= |ts|
    ensures Rank(ts, channel, n) <= n && Rank(ts, channel, n) <= |Filtered(ts, channel)|
  {
    IndicesPrefix(ts, channel, n, |ts|);
    RankAtMost(ts, channel, n);
  }

  lemma {:induction false} RankAtMost(ts: seq<Token>, channel: int, n: nat)
    requires n <= |ts|
    ensures Rank(ts, channel, n) <= n
  {
    if n > 0 {
      RankAtMost(ts, channel, n - 1);
    }
  }

  /** EOF is the last visible token. */
  lemma EofLast(ts: seq<Token>, channel: int)
    requires Complete(ts)
    ensures |Filtered(ts, channel)| == Rank(ts, channel, |ts| - 1) + 1
  {
  }

  /** Where `LT(k)` looks from position `p`: `k - 1` visible tokens on, or at EOF. */
  function Ahead(ts: seq<Token>, channel: int, p: nat, k: nat): (j: nat)
    requires Complete(ts) && p < |ts| && k > 0
    ensures j < |ts| && Visible(ts[j], channel)
  {
    var list := Filtered(ts, channel);
    var r := Rank(ts, channel, p) + k - 1;
    EofLast(ts, channel);
    IndicesMembers(ts, channel, |ts|);
    if r < |list| then list[r] else list[|list| - 1]
  }

  /** Where `LB(k)` looks: `k` visible tokens back, if there are as many. */
  function Behind(ts: seq<Token>, channel: int, p: nat, k: nat): (j: Option<nat>)
    requires p < |ts|
    ensures j.Some? ==> j.value < |ts| && Visible(ts[j.value], channel)
  {
    var r := Rank(ts, channel, p);
    RankBound(ts, channel, p);
    IndicesMembers(ts, channel, |ts|);
    if 0 < k <= r then Some(Filtered(ts, channel)[r - k]) else None
  }

  /** Going forward `k` visible tokens and looking back `k` returns to the start. */
  lemma ThereAndBack(ts: seq<Token>, channel: int, p: nat, k: nat)
    requires Complete(ts) && p < |ts| && Visible(ts[p], channel) && k > 0
    requires Rank(ts, channel, p) + k < |Filtered(ts, channel)|
    ensures Behind(ts, channel, Ahead(ts, channel, p, k + 1), k) == Some(p)
  {
    AtRank(ts, channel, p);
    IndicesMembers(ts, channel, |ts|);
  }

  /** How many tokens from `i` up to and without `j` are on the channel, on the default channel 0, or EOF. */
  function Between(ts: seq<Token>, channel: int, i: nat, j: nat): nat
    requires i <= j <= |ts|
  {
    if i == j then 0
    else
      var t := ts[j - 1];
      Between(ts, channel, i, j - 1) + if t.isEof || t.channel == channel || t.channel == 0 then 1 else 0
  }

  lemma {:induction false} RankBetween(ts: seq<Token>, channel: int, i: nat, j: nat)
    requires i <= j <= |ts|
    ensures Rank(ts, channel, j) == Rank(ts, channel, i) + Between(ts, channel, i, j)
    decreases j
  {
    if i < j {
      RankBetween(ts, channel, i, j - 1);
    }
  }

  lemma {:induction false} RankGrows(ts: seq<Token>, channel: int, i: nat, j: nat)
    requires i <= j <= |ts|
    ensures Rank(ts, channel, i) <= Rank(ts, channel, j)
  {
    RankBetween(ts, channel, i, j);
  }

  /** `LT(k)` from a visible position skips exactly `k - 1` visible tokens, this one included, or ends at EOF for want of them; `LT(1)` is the current token. */
  lemma AheadCounts(ts: seq<Token>, channel: int, p: nat, k: nat)
    requires Complete(ts) && p < |ts| && Visible(ts[p], channel) && k > 0
    ensures var j := Ahead(ts, channel, p, k);
            && p <= j && (j == p <==> k == 1 || p == |ts| - 1)
            && (Between(ts, channel, p, j) == k - 1 || (j == |ts| - 1 && Between(ts, channel, p, j) < k - 1))
  {
    var j := Ahead(ts, channel, p, k);
    hide Filtered, Indices, Between;
    AheadRank(ts, channel, p, k);
    RankOrders(ts, channel, j, p);
    RankOrders(ts, channel, p, j);
    RankOrders(ts, channel, p, |ts| - 1);
    if p <= j {
      RankBetween(ts, channel, p, j);
    }
  }

  /** Visible tokens are ordered by their rank. */
  lemma RankOrders(ts: seq<Token>, channel: int, i: nat, j: nat)
    requires i < |ts| && j < |ts| && Visible(ts[i], channel)
    ensures i < j ==> Rank(ts, channel, i) < Rank(ts, channel, j)
  {
    if i < j {
      RankBetween(ts, channel, i, i + 1);
      RankGrows(ts, channel, i + 1, j);
    }
  }

  lemma AheadRank(ts: seq<Token>, channel: int, p: nat, k: nat)
    requires Complete(ts) && p < |ts| && Visible(ts[p], channel) && k > 0
    ensures var j, r, last := Ahead(ts, channel, p, k), Rank(ts, channel, p) + k - 1, Rank(ts, channel, |ts| - 1);
            && Rank(ts, channel, j) == (if r < last then r else last)
            && (r >= last ==> j == |ts| - 1)
  {
    EofLast(ts, channel);
    AtRank(ts, channel, |ts| - 1);
    IndicesMembers(ts, channel, |ts|);
  }

  /** `LB(k)` has exactly `k` visible tokens from it up to the current position, and there is none only if fewer precede. */
  lemma BehindCounts(ts: seq<Token>, channel: int, p: nat, k: nat)
    requires p < |ts| && k > 0
    ensures match Behind(ts, channel, p, k)
            case None => Between(ts, channel, 0, p) < k
            case Some(j) => j < p && Visible(ts[j], channel) && Between(ts, channel, j, p) == k
  {
    RankBetween(ts, channel, 0, p);
    match Behind(ts, channel, p, k)
    case None =>
    case Some(j) =>
      IndicesMembers(ts, channel, |ts|);
      RankBound(ts, channel, p);
      if j < p {
        RankBetween(ts, channel, j, p);
      } else {
        RankGrows(ts, channel, p, j);
      }
  }

  // ---------------------------------------------------------------------------
  // The stream as the source has it
  // ---------------------------------------------------------------------------

  class ChannelCommonTokenStream {
    const source: seq<Token>  // everything the token source will deliver
    var size: nat             // how much of it is buffered
    var p: nat

    ghost predicate Valid()
      reads this
    {
      Complete(source) && size <= |source| && p < |source|
    }

    constructor (source: seq<Token>)
      requires Complete(source)
      ensures Valid() && this.source == source && p == 0
    {
      this.source, size, p := source, 0, 0;
    }

    /** Buffers up to position `i`; false if the source ends before it. */
    method Sync(i: int) returns (ok: bool)
      requires Valid()
      modifies this`size
      ensures Valid() && ok == (i < |source|) && size >= old(size) && (ok ==> i < size) && (!ok ==> size == |source|)
    {
      if i < size {
        return true;
      }
      size := if i < |source| then i + 1 else |source|;
      ok := i < |source|;
    }

    /** The last visible token at or before `i`, or a negative number; past the end, EOF. */
    method PreviousTokenOnChannel(i: int, channel: int) returns (j: int)
      requires Valid()
      modifies this`size
      ensures Valid() && (i < 0 ==> j == i) && (i >= |source| ==> j == |source| - 1)
      ensures i < |source| ==> j <= i && (j >= 0 ==> Visible(source[j], channel))
      ensures forall k :: 0 <= k <= i && j < k < |source| ==> !Visible(source[k], channel)
    {
      var ok := Sync(i);
      if i >= size {
        return size - 1;
      }
      j := i;
      while j >= 0
        invariant j <= i && (i < 0 ==> j == i)
        invariant forall k :: 0 <= k <= i && j < k ==> !Visible(source[k], channel)
      {
        var token := source[j];
        if token.isEof || token.channel == channel || token.channel == DEFAULT_CHANNEL {
          return;
        }
        j := j - 1;
      }
    }

    /** The first visible token at or after `i`; past the end, EOF. */
    method NextTokenOnChannel(i: nat, channel: int) returns (j: nat)
      requires Valid()
      modifies this`size
      ensures Valid() && j < |source| && Visible(source[j], channel) && (i >= |source| ==> j == |source| - 1)
      ensures i < |source| ==> i <= j && forall k :: i <= k < j ==> !Visible(source[k], channel)
    {
      var ok := Sync(i);
      if i >= size {
        return size - 1;
      }
      j := i;
      while source[j].channel != channel && source[j].channel != DEFAULT_CHANNEL
        invariant Valid() && i <= j < |source| && forall k :: i <= k < j ==> !Visible(source[k], channel)
        decreases |source| - j
      {
        if source[j].isEof {
          return;
        }
        j := j + 1;
        ok := Sync(j);
      }
    }

    method LB(k: nat, channel: int) returns (r: Option<Token>)
      requires Valid()
      modifies this`size
      ensures Valid()
      ensures match Behind(source, channel, p, k) case None => r == None case Some(j) => r == Some(source[j])
    {
      RankBound(source, channel, p);
      if k == 0 || p - k < 0 {
        return None;
      }
      var i: int := p;
      var n := 1;
      ghost var rank := Rank(source, channel, p);
      while n <= k
        invariant 1 <= n <= k + 1 && Valid() && i <= p
        invariant i < 0 || Rank(source, channel, i) == rank - (n - 1)
        invariant n > 1 && i >= 0 ==> Visible(source[i], channel)
        invariant i < 0 ==> n - 1 > rank
      {
        ghost var was := i;
        i := PreviousTokenOnChannel(i - 1, channel);
        if was >= 0 {
          StepBack(source, channel, was, i);
        }
        n := n + 1;
      }
      if i < 0 {
        return None;
      }
      AtRank(source, channel, i);
      return Some(source[i]);
    }

    /** The `k`-th visible token from the current one on, or back for negative `k`. */
    method LT(k: int, channel: int) returns (r: Option<Token>)
      requires Valid() && Visible(source[p], channel)
      modifies this`size
      ensures Valid() && (k == 0 ==> r == None)
      ensures k > 0 ==> r == Some(source[Ahead(source, channel, p, k)])
      ensures k < 0 ==> match Behind(source, channel, p, -k) case None => r == None case Some(j) => r == Some(source[j])
    {
      if k == 0 {
        return None;
      }
      if k < 0 {
        r := LB(-k, channel);
        return;
      }
      var i: nat := p;
      var n := 1;
      ghost var rank, last := Rank(source, channel, p), |Filtered(source, channel)| - 1;
      AtRank(source, channel, p);
      EofLast(source, channel);
      while n < k
        invariant 1 <= n <= k && Valid() && i < |source| && Visible(source[i], channel)
        invariant Rank(source, channel, i) == if rank + n - 1 < last then rank + n - 1 else last
      {
        var more := Sync(i + 1);
        if more {
          ghost var was := i;
          i := NextTokenOnChannel(i + 1, channel);
          RankSkips(source, channel, was + 1, i);
          AtRank(source, channel, i);
        }
        n := n + 1;
      }
      AtRank(source, channel, i);
      return Some(source[i]);
    }
  }

  /** One step back lowers the rank by one, or falls off the front when there is nothing to find. */
  lemma StepBack(ts: seq<Token>, channel: int, i: nat, j: int)
    requires i < |ts| && j < i && (j >= 0 ==> Visible(ts[j], channel))
    requires forall k :: 0 <= k < i && j < k ==> !Visible(ts[k], channel)
    ensures if j < 0 then Rank(ts, channel, i) == 0 else Rank(ts, channel, i) == Rank(ts, channel, j) + 1
  {
    if j < 0 {
      RankSkips(ts, channel, 0, i);
    } else {
      RankSkips(ts, channel, j + 1, i);
    }
  }
}
