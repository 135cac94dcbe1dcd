/**
  The AVRCP command queue: while a response is pending, further vendor commands wait their turn.
  Over every interleaving of submissions, responses, timeouts, send failures, flushes and
  re-openings, commands reach the transport in order, at most once, and with their own label.
 */
module AvrcpQueue {
  import opened Wrappers

  /** A continuation request or abort is a vendor command that may not wait. */
  datatype Kind = Vendor | Continuation | PassThrough

  newtype uint16 = x: int | 0 <= x < 0x10000

  datatype Command = Command(kind: Kind, txLabel: byte, channel: byte)

  /** A queued packet: which submission it is, and its 16-bit `layer_specific` field. */
  datatype Queued = Queued(id: nat, layerSpecific: uint16)

  /** What `AVCT_MsgReq` is called with. */
  datatype Sent = Sent(id: nat, kind: Kind, txLabel: byte, channel: byte)

  /** The label rides in the upper byte while the command waits. */
  function Pack(txLabel: byte, channel: byte): uint16 {
    txLabel as uint16 * 256 + channel as uint16
  }

  function Unpack(layerSpecific: uint16): (byte, byte) {
    ((layerSpecific / 256) as byte, (layerSpecific % 256) as byte)
  }

  lemma PackRoundTrip(txLabel: byte, channel: byte)
    ensures Unpack(Pack(txLabel, channel)) == (txLabel, channel)
  {
    var n := Pack(txLabel, channel);
    assert n / 256 == txLabel as uint16 && n % 256 == channel as uint16;
  }

  /**
    The connection: the RSP_PENDING flag and the queue, which a flush frees; beside them all
    submissions and everything handed to the transport.  `fault`: a command was to be queued
    although the queue had been freed.
   */
  datatype Link = Link(pending: bool, queue: Option<seq<Queued>>, submitted: seq<Command>, sent: seq<Sent>, fault: bool)

  const OPENED := Link(false, Some([]), [], [], false)

  function Submit(s: Link, c: Command, ok: bool): Link {
    var id := |s.submitted|;
    var s1 := s.(submitted := s.submitted + [c]);
    if c.kind.Vendor? && s.pending then
      match s.queue
      case None => s1.(fault := true)
      case Some(q) => s1.(queue := Some(q + [Queued(id, Pack(c.txLabel, c.channel))]))
    else
      s1.(sent := s.sent + [Sent(id, c.kind, c.txLabel, c.channel)], pending := s.pending || ok)
  }

  function Unqueue(e: Queued): Sent {
    var (txLabel, channel) := Unpack(e.layerSpecific);
    Sent(e.id, Vendor, txLabel, channel)
  }

  /** How many queued commands are tried before the transport accepts one, that one included. */
  function Tried(q: seq<Queued>, accepts: Sent -> bool): (n: nat)
    ensures n <= |q|
    ensures forall i :: 0 <= i < n - 1 ==> !accepts(Unqueue(q[i]))
    ensures n < |q| ==> n > 0 && accepts(Unqueue(q[n - 1]))
  {
    if q == [] then 0 else if accepts(Unqueue(q[0])) then 1 else
    assert forall i :: 0 <= i < |q[1..]| ==> q[1..][i] == q[i + 1];
    Tried(q[1..], accepts) + 1
  }

  predicate Accepted(q: seq<Queued>, accepts: Sent -> bool)
  {
    var n := Tried(q, accepts);
    n > 0 && accepts(Unqueue(q[n - 1]))
  }

  function Unqueued(q: seq<Queued>, n: nat): (r: seq<Sent>)
    requires n <= |q|
    ensures |r| == n
  {
    seq(n, i requires 0 <= i < n => Unqueue(q[i]))
  }

  /** The next vendor command, after a response or a timeout; a freed queue counts as empty. */
  function SendNext(s: Link, accepts: Sent -> bool): Link
  {
    if s.queue.None? then s.(pending := false)
    else
      var q := s.queue.value;
      var n := Tried(q, accepts);
      s.(queue := Some(q[n..]), sent := s.sent + Unqueued(q, n), pending := s.pending && Accepted(q, accepts))
  }

  function Flush(s: Link): Link {
    s.(pending := false, queue := None)
  }

  function Reopen(s: Link): Link {
    s.(pending := false, queue := Some([]))
  }

  // ---------------------------------------------------------------------------
  // The invariant
  // ---------------------------------------------------------------------------

  function QueueIds(q: Option<seq<Queued>>): seq<nat> {
    if q.None? then [] else seq(|q.value|, i requires 0 <= i < |q.value| => q.value[i].id)
  }

  /** Ids of the vendor commands handed to the transport, in order. */
  function VendorIds(sent: seq<Sent>): seq<nat> {
    if sent == [] then []
    else
      var last := sent[|sent| - 1];
      VendorIds(sent[..|sent| - 1]) + (if last.kind.Vendor? then [last.id] else [])
  }

  ghost predicate Increasing(s: seq<nat>) {
    forall i, j :: 0 <= i < j < |s| ==> s[i] < s[j]
  }

  ghost predicate Below(s: seq<nat>, n: nat) {
    forall i :: 0 <= i < |s| ==> s[i] < n
  }

  /** What was handed over is what was submitted, and nothing twice. */
  ghost predicate Genuine(s: Link) {
    && (forall i :: 0 <= i < |s.sent| ==>
          && s.sent[i].id < |s.submitted|
          && s.submitted[s.sent[i].id] == Command(s.sent[i].kind, s.sent[i].txLabel, s.sent[i].channel))
    && (forall i, j :: 0 <= i < j < |s.sent| ==> s.sent[i].id != s.sent[j].id)
  }

  /** What waits is a submitted vendor command with its label packed in, and not yet handed over. */
  ghost predicate QueueGenuine(s: Link) {
    s.queue.Some? ==>
      var q := s.queue.value;
      && (forall i :: 0 <= i < |q| ==>
            && q[i].id < |s.submitted|
            && var c := s.submitted[q[i].id]; c.kind.Vendor? && q[i].layerSpecific == Pack(c.txLabel, c.channel))
      && (forall i, k :: 0 <= i < |q| && 0 <= k < |s.sent| ==> q[i].id != s.sent[k].id)
  }

  /** Vendor commands already handed over, then those waiting: in order of submission. */
  function Order(s: Link): seq<nat> {
    VendorIds(s.sent) + QueueIds(s.queue)
  }

  ghost predicate Inv(s: Link) {
    && (s.queue.Some? && s.queue.value != [] ==> s.pending)
    && Increasing(Order(s)) && Below(Order(s), |s.submitted|)
    && Genuine(s) && QueueGenuine(s)
  }

  lemma IncreasingSnoc(s: seq<nat>, n: nat)
    requires Increasing(s) && Below(s, n)
    ensures Increasing(s + [n]) && Below(s + [n], n + 1)
  {
  }

  lemma SubmitKeeps(s: Link, c: Command, ok: bool)
    requires Inv(s)
    ensures Inv(Submit(s, c, ok))
  {
    SubmitGenuine(s, c, ok);
    SubmitOrder(s, c, ok);
    hide Genuine, QueueGenuine, Order, Increasing, Below, Pack;
  }

  lemma SubmitGenuine(s: Link, c: Command, ok: bool)
    requires Genuine(s) && QueueGenuine(s)
    ensures Genuine(Submit(s, c, ok)) && QueueGenuine(Submit(s, c, ok))
  {
    hide Pack;
    if !(c.kind.Vendor? && s.pending) {
      SentGenuine(s, c, ok);
    }
  }

  lemma SentGenuine(s: Link, c: Command, ok: bool)
    requires Genuine(s) && QueueGenuine(s) && !(c.kind.Vendor? && s.pending)
    ensures Genuine(Submit(s, c, ok)) && QueueGenuine(Submit(s, c, ok))
  {
    hide Pack;
    var s' := Submit(s, c, ok);
    assert forall i :: 0 <= i < |s.sent| ==> s'.sent[i] == s.sent[i];
    assert forall i :: 0 <= i < |s.submitted| ==> s'.submitted[i] == s.submitted[i];
  }

  lemma QueueIdsSnoc(q: seq<Queued>, e: Queued)
    ensures QueueIds(Some(q + [e])) == QueueIds(Some(q)) + [e.id]
  {
  }

  lemma NothingQueued(q: Option<seq<Queued>>)
    requires q.None? || q.value == []
    ensures QueueIds(q) == []
  {
  }

  lemma VendorIdsSnoc(sent: seq<Sent>, x: Sent)
    ensures VendorIds(sent + [x]) == VendorIds(sent) + if x.kind.Vendor? then [x.id] else []
  {
    assert (sent + [x])[..|sent|] == sent;
  }

  lemma SubmitOrder(s: Link, c: Command, ok: bool)
    requires Inv(s)
    ensures var s' := Submit(s, c, ok); Increasing(Order(s')) && Below(Order(s'), |s'.submitted|)
  {
    hide Genuine, QueueGenuine, Pack, VendorIds, QueueIds, Increasing;
    var id, e := |s.submitted|, Queued(|s.submitted|, Pack(c.txLabel, c.channel));
    IncreasingSnoc(Order(s), id);
    if c.kind.Vendor? && s.pending {
      if s.queue.Some? {
        QueueIdsSnoc(s.queue.value, e);
        assert VendorIds(s.sent) + (QueueIds(s.queue) + [id]) == VendorIds(s.sent) + QueueIds(s.queue) + [id];
      }
    } else {
      VendorIdsSnoc(s.sent, Sent(id, c.kind, c.txLabel, c.channel));
      if c.kind.Vendor? {
        NothingQueued(s.queue);
        assert VendorIds(s.sent) + [id] + [] == VendorIds(s.sent) + [] + [id];
      } else {
        assert VendorIds(s.sent) + [] == VendorIds(s.sent);
      }
    }
  }

  lemma {:induction false} VendorIdsOfUnqueued(sent: seq<Sent>, q: seq<Queued>, n: nat)
    requires n <= |q|
    ensures VendorIds(sent + Unqueued(q, n)) == VendorIds(sent) + QueueIds(Some(q))[..n]
  {
    hide Unqueue, Unqueued, VendorIds, QueueIds;
    QueueIdsAt(q);
    if n == 0 {
      UnqueuedNone(sent, q);
    } else {
      VendorIdsOfUnqueued(sent, q, n - 1);
      UnqueuedSnoc(sent, q, n);
      var ids := QueueIds(Some(q));
      assert ids[..n] == ids[..n - 1] + [ids[n - 1]];
    }
  }

  lemma QueueIdsAt(q: seq<Queued>)
    ensures |QueueIds(Some(q))| == |q| && forall i :: 0 <= i < |q| ==> QueueIds(Some(q))[i] == q[i].id
  {
  }

  lemma UnqueuedNone(sent: seq<Sent>, q: seq<Queued>)
    ensures sent + Unqueued(q, 0) == sent
  {
  }

  lemma UnqueuedSnoc(sent: seq<Sent>, q: seq<Queued>, n: nat)
    requires 0 < n <= |q|
    ensures VendorIds(sent + Unqueued(q, n)) == VendorIds(sent + Unqueued(q, n - 1)) + [q[n - 1].id]
  {
    var all := sent + Unqueued(q, n);
    assert all[..|all| - 1] == sent + Unqueued(q, n - 1);
    assert all[|all| - 1] == Unqueue(q[n - 1]);
  }

  lemma DistinctIds(s: Link)
    requires Inv(s) && s.queue.Some?
    ensures forall i, j :: 0 <= i < j < |s.queue.value| ==> s.queue.value[i].id != s.queue.value[j].id
  {
    hide Genuine, QueueGenuine, VendorIds;
    var q, n := s.queue.value, |VendorIds(s.sent)|;
    forall i, j | 0 <= i < j < |q| ensures q[i].id != q[j].id {
      assert Order(s)[n + i] == q[i].id && Order(s)[n + j] == q[j].id;
    }
  }

  lemma UnqueueGenuine(s: Link, i: nat)
    requires QueueGenuine(s) && s.queue.Some? && i < |s.queue.value|
    ensures var e := s.queue.value[i];
            var sent := Unqueue(e);
            sent.id == e.id < |s.submitted| && s.submitted[e.id] == Command(sent.kind, sent.txLabel, sent.channel)
  {
    var c := s.submitted[s.queue.value[i].id];
    PackRoundTrip(c.txLabel, c.channel);
  }

  lemma UnqueuedGenuine(s: Link, n: nat)
    requires Inv(s) && s.queue.Some? && n <= |s.queue.value|
    ensures var q := s.queue.value;
            var s' := s.(queue := Some(q[n..]), sent := s.sent + Unqueued(q, n));
            Genuine(s') && QueueGenuine(s')
  {
    hide Unqueue, Order, Increasing, Below, Pack;
    DistinctIds(s);
    var q := s.queue.value;
    var s' := s.(queue := Some(q[n..]), sent := s.sent + Unqueued(q, n));
    assert forall i :: 0 <= i < |q[n..]| ==> q[n..][i] == q[n + i];
    forall i | |s.sent| <= i < |s'.sent|
      ensures s'.sent[i].id == q[i - |s.sent|].id < |s.submitted|
      ensures s.submitted[s'.sent[i].id] == Command(s'.sent[i].kind, s'.sent[i].txLabel, s'.sent[i].channel)
    {
      UnqueueGenuine(s, i - |s.sent|);
    }
  }

  lemma SendNextKeeps(s: Link, accepts: Sent -> bool)
    requires Inv(s)
    ensures Inv(SendNext(s, accepts))
  {
    if s.queue.Some? {
      var n := Tried(s.queue.value, accepts);
      UnqueuedGenuine(s, n);
      VendorIdsOfUnqueued(s.sent, s.queue.value, n);
      SendNextOrder(s, accepts);
      SendNextGenuine(s, accepts);
    }
    hide Genuine, QueueGenuine, Increasing, Below, VendorIds, QueueIds, Unqueued;
  }

  lemma SendNextGenuine(s: Link, accepts: Sent -> bool)
    requires s.queue.Some?
    requires var q := s.queue.value;
             var s' := s.(queue := Some(q[Tried(q, accepts)..]), sent := s.sent + Unqueued(q, Tried(q, accepts)));
             Genuine(s') && QueueGenuine(s')
    ensures Genuine(SendNext(s, accepts)) && QueueGenuine(SendNext(s, accepts))
  {
    hide Tried, Unqueued, Pack;
  }

  lemma SendNextOrder(s: Link, accepts: Sent -> bool)
    requires s.queue.Some?
    ensures Order(SendNext(s, accepts)) == Order(s)
  {
    hide VendorIds, QueueIds, Unqueued, Accepted;
    var q, n := s.queue.value, Tried(s.queue.value, accepts);
    VendorIdsOfUnqueued(s.sent, q, n);
    QueueIdsSplit(q, n);
    assert VendorIds(s.sent) + QueueIds(Some(q))[..n] + QueueIds(Some(q[n..]))
        == VendorIds(s.sent) + (QueueIds(Some(q))[..n] + QueueIds(Some(q[n..])));
  }

  lemma QueueIdsSplit(q: seq<Queued>, n: nat)
    requires n <= |q|
    ensures |QueueIds(Some(q))| == |q|
    ensures QueueIds(Some(q))[..n] + QueueIds(Some(q[n..])) == QueueIds(Some(q))
  {
  }

  lemma DiscardKeeps(s: Link)
    requires Inv(s)
    ensures Inv(Flush(s)) && Inv(Reopen(s))
  {
    var ids := VendorIds(s.sent);
    assert Order(s)[..|ids|] == ids && Order(Flush(s)) == ids && Order(Reopen(s)) == ids;
    forall i, j | 0 <= i < j < |ids| ensures ids[i] < ids[j] {
      assert Order(s)[i] == ids[i] && Order(s)[j] == ids[j];
    }
    forall i | 0 <= i < |ids| ensures ids[i] < |s.submitted| {
      assert Order(s)[i] == ids[i];
    }
  }

  // ---------------------------------------------------------------------------
  // Every run
  // ---------------------------------------------------------------------------

  /** `TimedOut` of another than a vendor command does not look at the queue. */
  datatype Event =
    | Submitted(command: Command, ok: bool)
    | Answered(accepts: Sent -> bool)
    | TimedOut(vendor: bool, accepts: Sent -> bool)
    | Flushed
    | Reopened

  ghost function Next(s: Link, e: Event): Link
    requires Inv(s)
    ensures Inv(Next(s, e))
  {
    match e
    case Submitted(c, ok) => SubmitKeeps(s, c, ok); Submit(s, c, ok)
    case Answered(accepts) => SendNextKeeps(s, accepts); SendNext(s, accepts)
    case TimedOut(vendor, accepts) => if vendor then SendNextKeeps(s, accepts); SendNext(s, accepts) else s
    case Flushed => DiscardKeeps(s); Flush(s)
    case Reopened => DiscardKeeps(s); Reopen(s)
  }

  ghost function Run(events: seq<Event>): (s: Link)
    ensures Inv(s)
  {
    if events == [] then assert Order(OPENED) == []; OPENED
    else Next(Run(events[..|events| - 1]), events[|events| - 1])
  }

  /** Over every run: commands wait only behind a pending response; vendor commands reach the transport in order of submission, each at most once and as submitted. */
  lemma RunsInOrder(events: seq<Event>)
    ensures var s := Run(events);
            && (s.queue.Some? && s.queue.value != [] ==> s.pending)
            && (forall i, j :: 0 <= i < j < |VendorIds(s.sent)| ==> VendorIds(s.sent)[i] < VendorIds(s.sent)[j])
            && (forall i, j :: 0 <= i < j < |s.sent| ==> s.sent[i].id != s.sent[j].id)
            && (forall i :: 0 <= i < |s.sent| ==>
                  && s.sent[i].id < |s.submitted|
                  && s.submitted[s.sent[i].id].txLabel == s.sent[i].txLabel)
  {
    var s := Run(events);
    DiscardKeeps(s);
    assert Order(Flush(s)) == VendorIds(s.sent);
  }

  /** A vendor command handed over directly overtakes none that waits: all waiting ones were submitted before it and already handed over. */
  lemma NoOvertaking(events: seq<Event>, c: Command, ok: bool)
    requires c.kind.Vendor?
    ensures var s := Run(events);
            |Submit(s, c, ok).sent| > |s.sent| ==> s.queue.None? || s.queue.value == []
  {
  }

  /** The queue was freed, and the connection has not been opened since. */
  ghost predicate Freed(events: seq<Event>) {
    exists i :: 0 <= i < |events| && events[i].Flushed? && forall j :: i < j < |events| ==> !events[j].Reopened?
  }

  /** Ends the wait for a response if no command is queued. */
  predicate EndsWait(e: Event) {
    e.Answered? || (e.TimedOut? && e.vendor) || e.Flushed? || e.Reopened?
  }

  /** A command was accepted, and nothing has ended the wait for its response. */
  ghost predicate Unanswered(events: seq<Event>) {
    exists i :: 0 <= i < |events| && events[i].Submitted? && events[i].ok && forall j :: i < j < |events| ==> !EndsWait(events[j])
  }

  /** Event `k` submits a vendor command that has to wait while there is no queue. */
  ghost predicate FaultAt(events: seq<Event>, k: nat) {
    && k < |events| && events[k].Submitted? && events[k].command.kind.Vendor?
    && Freed(events[..k]) && Unanswered(events[..k])
  }

  lemma FreedSnoc(init: seq<Event>, e: Event)
    ensures Freed(init + [e]) <==> e.Flushed? || (Freed(init) && !e.Reopened?)
  {
    var all := init + [e];
    assert all[|init|] == e && forall i :: 0 <= i < |init| ==> all[i] == init[i];
    if e.Flushed? {
      assert all[|init|].Flushed?;
    }
    if Freed(init) {
      var i :| 0 <= i < |init| && init[i].Flushed? && forall j :: i < j < |init| ==> !init[j].Reopened?;
      assert all[i].Flushed?;
    }
  }

  lemma UnansweredSnoc(init: seq<Event>, e: Event)
    ensures Unanswered(init + [e]) <==> (e.Submitted? && e.ok) || (Unanswered(init) && !EndsWait(e))
  {
    var all := init + [e];
    assert all[|init|] == e && forall i :: 0 <= i < |init| ==> all[i] == init[i];
    if e.Submitted? && e.ok {
      assert all[|init|].Submitted?;
    }
    if Unanswered(init) {
      var i :| 0 <= i < |init| && init[i].Submitted? && init[i].ok && forall j :: i < j < |init| ==> !EndsWait(init[j]);
      assert all[i].Submitted?;
    }
  }

  lemma FaultSnoc(init: seq<Event>, e: Event, k: nat)
    ensures FaultAt(init + [e], k)
            <==> FaultAt(init, k) || (k == |init| && e.Submitted? && e.command.kind.Vendor? && Freed(init) && Unanswered(init))
  {
    hide Freed, Unanswered;
    var all := init + [e];
    assert all[|init|] == e && all[..|init|] == init;
    assert k < |init| ==> all[k] == init[k] && all[..k] == init[..k];
  }

  lemma NextFreed(s: Link, e: Event)
    requires Inv(s)
    ensures Next(s, e).queue.None? <==> e.Flushed? || (s.queue.None? && !e.Reopened?)
    ensures Next(s, e).queue.None? ==> (Next(s, e).pending <==> (e.Submitted? && e.ok) || (s.pending && !EndsWait(e)))
    ensures Next(s, e).fault <==> s.fault || (e.Submitted? && e.command.kind.Vendor? && s.queue.None? && s.pending)
  {
    hide Inv, Tried, Unqueued, Accepted, Pack;
  }

  /** The queue is missing exactly between a flush and the next opening; then a response is pending exactly if a command is unanswered. */
  lemma {:induction false} FreedRun(events: seq<Event>)
    ensures Run(events).queue.None? <==> Freed(events)
    ensures Freed(events) ==> (Run(events).pending <==> Unanswered(events))
  {
    hide Inv, Freed, Unanswered, Next, Run;
    if events == [] {
      NothingFreed(events);
    } else {
      var init, e := events[..|events| - 1], events[|events| - 1];
      FreedRun(init);
      assert init + [e] == events;
      FreedRunSnoc(init, e);
    }
  }

  lemma FreedRunSnoc(init: seq<Event>, e: Event)
    requires Run(init).queue.None? <==> Freed(init)
    requires Freed(init) ==> (Run(init).pending <==> Unanswered(init))
    ensures Run(init + [e]).queue.None? <==> Freed(init + [e])
    ensures Freed(init + [e]) ==> (Run(init + [e]).pending <==> Unanswered(init + [e]))
  {
    hide Inv, Freed, Unanswered, Next, Run;
    NextFreed(Run(init), e);
    FreedSnoc(init, e);
    UnansweredSnoc(init, e);
    RunSnoc(init, e);
  }

  lemma NothingFreed(events: seq<Event>)
    requires events == []
    ensures !Freed(events) && Run(events).queue.Some?
  {
    hide Inv;
  }

  lemma RunSnoc(init: seq<Event>, e: Event)
    ensures Run(init + [e]) == Next(Run(init), e)
  {
    hide Inv, Next;
    assert (init + [e])[..|init|] == init;
  }

  /** A command is queued without a queue if and only if a vendor command has to wait after a flush and before a re-opening. */
  lemma {:induction false} FaultExactly(events: seq<Event>)
    ensures Run(events).fault <==> exists k :: FaultAt(events, k)
  {
    hide Inv, Freed, Unanswered, Next, FaultAt;
    if events == [] {
      NoFaultYet(events);
    } else {
      var init, e := events[..|events| - 1], events[|events| - 1];
      FaultExactly(init);
      FreedRun(init);
      NextFreed(Run(init), e);
      assert init + [e] == events;
      forall k: nat ensures FaultAt(events, k)
        <==> FaultAt(init, k) || (k == |init| && e.Submitted? && e.command.kind.Vendor? && Freed(init) && Unanswered(init))
      {
        FaultSnoc(init, e, k);
      }
      assert Run(events).fault ==> Run(init).fault || FaultAt(events, |init|);
    }
  }

  lemma NoFaultYet(events: seq<Event>)
    requires events == []
    ensures !exists k :: FaultAt(events, k)
  {
  }

  /** And it does happen: flush, submit, submit. */
  lemma FaultAfterFlush(c: Command)
    requires c.kind.Vendor?
    ensures Run([Flushed, Submitted(c, true), Submitted(c, true)]).fault
  {
    var events := [Flushed, Submitted(c, true), Submitted(c, true)];
    assert events[..2] == [Flushed, Submitted(c, true)] && events[..2][..1] == [Flushed] && [Flushed][..0] == [];
    assert Run([Flushed]) == Flush(OPENED);
    assert Run(events[..2]) == Submit(Flush(OPENED), c, true);
  }

  // ---------------------------------------------------------------------------
  // Which commands wait
  // ---------------------------------------------------------------------------

  /** What event `k` handed to the transport. */
  ghost function HandedOver(events: seq<Event>, k: nat): seq<Sent>
    requires k < |events|
  {
    var before, after := Run(events[..k]).sent, Run(events[..k + 1]).sent;
    if |before| <= |after| then after[|before|..] else []
  }

  /** The transport took the last packet that the event handed over. */
  predicate Takes(e: Event, packets: seq<Sent>) {
    packets != [] &&
    match e
    case Submitted(_, ok) => ok
    case Answered(accepts) => accepts(packets[|packets| - 1])
    case TimedOut(_, accepts) => accepts(packets[|packets| - 1])
    case _ => false
  }

  /** Event `k` had a command taken by the transport. */
  ghost predicate TakenAt(events: seq<Event>, k: nat)
    requires k < |events|
  {
    Takes(events[k], HandedOver(events, k))
  }

  /** A command was taken, and no response, timeout, flush or opening since has come without another one being taken. */
  ghost predicate Awaiting(events: seq<Event>) {
    exists i :: 0 <= i < |events| && TakenAt(events, i)
                && forall j :: i < j < |events| ==> EndsWait(events[j]) ==> TakenAt(events, j)
  }

  lemma TakenSame(init: seq<Event>, e: Event, k: nat)
    requires k < |init|
    ensures TakenAt(init + [e], k) == TakenAt(init, k)
  {
    hide Run, Takes;
    assert (init + [e])[..k] == init[..k] && (init + [e])[..k + 1] == init[..k + 1] && (init + [e])[k] == init[k];
  }

  lemma AwaitingSnoc(init: seq<Event>, e: Event)
    ensures var all := init + [e];
            Awaiting(all) <==> TakenAt(all, |init|) || (Awaiting(init) && !EndsWait(e))
  {
    hide TakenAt, EndsWait;
    var all := init + [e];
    assert all[|init|] == e && forall i :: 0 <= i < |init| ==> all[i] == init[i];
    forall k | 0 <= k < |init| ensures TakenAt(all, k) == TakenAt(init, k) {
      TakenSame(init, e, k);
    }
    if Awaiting(init) && !EndsWait(e) {
      var i :| 0 <= i < |init| && TakenAt(init, i) && forall j :: i < j < |init| ==> EndsWait(init[j]) ==> TakenAt(init, j);
      assert TakenAt(all, i);
    }
    if Awaiting(all) && !TakenAt(all, |init|) {
      var i :| 0 <= i < |all| && TakenAt(all, i) && forall j :: i < j < |all| ==> EndsWait(all[j]) ==> TakenAt(all, j);
      assert TakenAt(init, i);
    }
  }

  lemma LastTaken(init: seq<Event>, e: Event)
    ensures var s, s' := Run(init), Run(init + [e]);
            TakenAt(init + [e], |init|) <==> Takes(e, if |s.sent| <= |s'.sent| then s'.sent[|s.sent|..] else [])
  {
    hide Run, Takes;
    var all := init + [e];
    assert all[..|init|] == init && all[..|init| + 1] == all && all[|init|] == e;
  }

  /** One event: whether a response is pending after it. */
  lemma PendingStep(s: Link, e: Event)
    requires Inv(s)
    ensures var s' := Next(s, e);
            && s.sent <= s'.sent
            && (s'.pending <==> Takes(e, s'.sent[|s.sent|..]) || (s.pending && !EndsWait(e)))
  {
    hide Inv, Submit, SendNext, Takes;
    match e {
      case Submitted(c, ok) => SubmitPending(s, c, ok);
      case Answered(accepts) =>
        InvPending(s);
        SendNextPending(s, accepts);
      case TimedOut(vendor, accepts) =>
        if vendor {
          InvPending(s);
          SendNextPending(s, accepts);
          TakesAlike(accepts, SendNext(s, accepts).sent[|s.sent|..]);
        } else {
          NothingTaken(e, s);
        }
      case Flushed => NothingTaken(e, s);
      case Reopened => NothingTaken(e, s);
    }
  }

  lemma InvPending(s: Link)
    requires Inv(s)
    ensures s.queue.Some? && s.queue.value != [] ==> s.pending
  {
  }

  lemma NothingTaken(e: Event, s: Link)
    ensures s.sent[|s.sent|..] == [] && !Takes(e, [])
  {
  }

  lemma TakesAlike(accepts: Sent -> bool, packets: seq<Sent>)
    ensures Takes(TimedOut(true, accepts), packets) == Takes(Answered(accepts), packets)
  {
  }

  lemma SubmitPending(s: Link, c: Command, ok: bool)
    ensures var s' := Submit(s, c, ok);
            s.sent <= s'.sent && (s'.pending <==> Takes(Submitted(c, ok), s'.sent[|s.sent|..]) || s.pending)
  {
    hide Pack;
  }

  lemma SendNextPending(s: Link, accepts: Sent -> bool)
    requires s.queue.Some? && s.queue.value != [] ==> s.pending
    ensures var s' := SendNext(s, accepts);
            s.sent <= s'.sent && (s'.pending <==> Takes(Answered(accepts), s'.sent[|s.sent|..]))
  {
    hide Unqueue, Tried;
    if s.queue.Some? {
      var q := s.queue.value;
      var n := Tried(q, accepts);
      assert (s.sent + Unqueued(q, n))[|s.sent|..] == Unqueued(q, n);
    }
  }

  /** In every run a response is pending exactly if a command is awaiting one. */
  lemma {:induction false} PendingExactly(events: seq<Event>)
    ensures Run(events).pending <==> Awaiting(events)
  {
    hide Inv, Awaiting, Next, Run;
    if events == [] {
      NothingAwaited(events);
    } else {
      var init, e := events[..|events| - 1], events[|events| - 1];
      assert init + [e] == events;
      PendingExactly(init);
      PendingSnoc(init, e);
    }
  }

  lemma PendingSnoc(init: seq<Event>, e: Event)
    requires Run(init).pending <==> Awaiting(init)
    ensures Run(init + [e]).pending <==> Awaiting(init + [e])
  {
    hide Inv, Awaiting, Next, Run, TakenAt, Takes;
    PendingStep(Run(init), e);
    AwaitingSnoc(init, e);
    LastTaken(init, e);
    RunSnoc(init, e);
  }

  lemma NothingAwaited(events: seq<Event>)
    requires events == []
    ensures !Awaiting(events) && !Run(events).pending
  {
    hide Inv;
  }

  /** The commands submitted. */
  function Submissions(events: seq<Event>): seq<Command> {
    if events == [] then []
    else
      var e := events[|events| - 1];
      Submissions(events[..|events| - 1]) + if e.Submitted? then [e.command] else []
  }

  /**
    What a submission hands to the transport: a vendor command nothing while a response is awaited,
    and then it joins the end of the queue, if there is one; any other command, and a vendor command
    while none is awaited, exactly itself, at once.
   */
  lemma HeldBack(events: seq<Event>, c: Command, ok: bool)
    ensures var s, s' := Run(events), Run(events + [Submitted(c, ok)]);
            var id := |Submissions(events)|;
            if c.kind.Vendor? && Awaiting(events) then
              && s'.sent == s.sent
              && (s.queue.Some? ==> s'.queue == Some(s.queue.value + [Queued(id, c.txLabel as uint16 * 256 + c.channel as uint16)]))
              && (s.queue.None? ==> s'.queue == None)
            else s'.sent == s.sent + [Sent(id, c.kind, c.txLabel, c.channel)] && s'.queue == s.queue
  {
    hide Inv, Awaiting, Run;
    PendingExactly(events);
    RunSnoc(events, Submitted(c, ok));
    SubmissionsOfRun(events);
  }

  lemma {:induction false} SubmissionsOfRun(events: seq<Event>)
    ensures Run(events).submitted == Submissions(events)
  {
    hide Inv, Run, Next;
    if events == [] {
      NothingSubmitted(events);
    } else {
      var init, e := events[..|events| - 1], events[|events| - 1];
      assert init + [e] == events;
      SubmissionsOfRun(init);
      RunSnoc(init, e);
      NextSubmits(Run(init), e);
    }
  }

  lemma NothingSubmitted(events: seq<Event>)
    requires events == []
    ensures Run(events).submitted == []
  {
    hide Inv;
  }

  lemma NextSubmits(s: Link, e: Event)
    requires Inv(s)
    ensures Next(s, e).submitted == s.submitted + if e.Submitted? then [e.command] else []
  {
    hide Inv, Pack, Tried, Unqueued, Accepted;
    assert s.submitted + [] == s.submitted;
  }

  /** The vendor commands neither refused a queue nor discarded in one by a flush or an opening, in order of submission. */
  ghost function Alive(events: seq<Event>): seq<nat> {
    if events == [] then []
    else
      var init, e := events[..|events| - 1], events[|events| - 1];
      match e
      case Submitted(c, _) =>
        if c.kind.Vendor? && !(Awaiting(init) && Freed(init)) then Alive(init) + [|Submissions(init)|] else Alive(init)
      case Flushed => VendorIds(Run(init).sent)
      case Reopened => VendorIds(Run(init).sent)
      case _ => Alive(init)
  }

  /** In every run these are exactly the commands handed over and those waiting, in this order: none is lost, and none comes back. */
  lemma {:induction false} NoneLost(events: seq<Event>)
    ensures Order(Run(events)) == Alive(events)
  {
    hide Inv, Run, Next, Order, Awaiting, Freed;
    if events == [] {
      NothingAlive(events);
    } else {
      var init, e := events[..|events| - 1], events[|events| - 1];
      assert init + [e] == events;
      NoneLost(init);
      PendingExactly(init);
      FreedRun(init);
      SubmissionsOfRun(init);
      RunSnoc(init, e);
      NextOrder(Run(init), e);
    }
  }

  lemma NothingAlive(events: seq<Event>)
    requires events == []
    ensures Order(Run(events)) == []
  {
    hide Inv;
  }

  lemma NextOrder(s: Link, e: Event)
    requires Inv(s)
    ensures Order(Next(s, e))
            == match e
               case Submitted(c, _) => if c.kind.Vendor? && !(s.pending && s.queue.None?) then Order(s) + [|s.submitted|] else Order(s)
               case Flushed => VendorIds(s.sent)
               case Reopened => VendorIds(s.sent)
               case _ => Order(s)
  {
    match e {
      case Submitted(c, ok) => SubmitOrdered(s, c, ok);
      case Answered(accepts) => NextSendOrder(s, accepts);
      case TimedOut(vendor, accepts) =>
        if vendor {
          NextSendOrder(s, accepts);
        }
      case Flushed => assert VendorIds(s.sent) + [] == VendorIds(s.sent);
      case Reopened => assert VendorIds(s.sent) + [] == VendorIds(s.sent);
    }
    hide Inv, Submit, SendNext, VendorIds;
  }

  lemma NextSendOrder(s: Link, accepts: Sent -> bool)
    ensures Order(SendNext(s, accepts)) == Order(s)
  {
    if s.queue.Some? {
      SendNextOrder(s, accepts);
    }
  }

  lemma SubmitOrdered(s: Link, c: Command, ok: bool)
    requires s.queue.Some? && s.queue.value != [] ==> s.pending
    ensures Order(Submit(s, c, ok)) == if c.kind.Vendor? && !(s.pending && s.queue.None?) then Order(s) + [|s.submitted|] else Order(s)
  {
    hide Pack, VendorIds, QueueIds;
    var id, e := |s.submitted|, Queued(|s.submitted|, Pack(c.txLabel, c.channel));
    if c.kind.Vendor? && s.pending {
      if s.queue.Some? {
        QueueIdsSnoc(s.queue.value, e);
        assert VendorIds(s.sent) + (QueueIds(s.queue) + [id]) == VendorIds(s.sent) + QueueIds(s.queue) + [id];
      }
    } else {
      VendorIdsSnoc(s.sent, Sent(id, c.kind, c.txLabel, c.channel));
      if c.kind.Vendor? {
        NothingQueued(s.queue);
        assert VendorIds(s.sent) + [id] + [] == VendorIds(s.sent) + [] + [id];
      } else {
        assert VendorIds(s.sent) + [] == VendorIds(s.sent);
      }
    }
  }

  // ---------------------------------------------------------------------------
  // The connection as the source has it
  // ---------------------------------------------------------------------------

  class Connection {
    var pending: bool
    var cmdQ: Option<seq<Queued>>
    var submitted: seq<Command>
    var sent: seq<Sent>
    var fault: bool

    ghost function View(): Link
      reads this
    {
      Link(pending, cmdQ, submitted, sent, fault)
    }

    /** `AVRC_Open`. */
    constructor ()
      ensures View() == OPENED && Inv(View())
    {
      pending, cmdQ, submitted, sent, fault := false, Some([]), [], [], false;
      new;
      assert Order(OPENED) == [];
    }

    /** `AVRC_MsgReq` for a command; `ok` is the transport's answer. */
    method MsgReq(c: Command, ok: bool)
      requires Inv(View())
      modifies this
      ensures View() == Submit(old(View()), c, ok) && Inv(View())
    {
      hide Inv, Pack;
      SubmitKeeps(View(), c, ok);
      var id := |submitted|;
      submitted := submitted + [c];
      if c.kind.Vendor? && pending {
        var layerSpecific := Pack(c.txLabel, c.channel);
        match cmdQ {
          case None => fault := true;
          case Some(q) => cmdQ := Some(q + [Queued(id, layerSpecific)]);
        }
        return;
      }
      sent := sent + [Sent(id, c.kind, c.txLabel, c.channel)];
      if ok {
        pending := true;
      }
    }

    /** Dequeues until the transport takes one; an empty queue clears the flag. */
    method SendNextVendorCmd(accepts: Sent -> bool)
      requires Inv(View())
      modifies this
      ensures View() == Next(old(View()), Answered(accepts))
    {
      SendNextKeeps(View(), accepts);
      hide Inv, Unqueued, Unqueue;
      if cmdQ.None? {
        pending := false;
      } else {
        Dequeue(accepts);
      }
    }

    method Dequeue(accepts: Sent -> bool)
      requires cmdQ.Some?
      modifies this`pending, this`cmdQ, this`sent
      ensures View() == SendNext(old(View()), accepts)
    {
      hide Unqueued, Unqueue;
      ghost var q, before, n := cmdQ.value, sent, 0;
      UnqueuedNone(q);
      assert sent + [] == sent;
      while true
        invariant 0 <= n <= |q| && cmdQ == Some(q[n..])
        invariant sent == before + Unqueued(q, n) && pending == old(pending)
        invariant Tried(q, accepts) == n + Tried(q[n..], accepts)
        invariant n > 0 ==> !accepts(Unqueue(q[n - 1]))
        decreases |q| - n
      {
        if cmdQ.value == [] {
          pending := false;
          return;
        }
        var next := cmdQ.value[0];
        UnqueuedExtend(q, n);
        cmdQ := Some(cmdQ.value[1..]);
        var packet := Sent(next.id, Vendor, (next.layerSpecific / 256) as byte, (next.layerSpecific % 256) as byte);
        assert before + Unqueued(q, n) + [packet] == before + (Unqueued(q, n) + [packet]);
        sent := sent + [packet];
        n := n + 1;
        if accepts(packet) {
          return;
        }
      }
    }

    static lemma UnqueuedNone(q: seq<Queued>)
        ensures Unqueued(q, 0) == [] && q[0..] == q
    {
    }

    static lemma UnqueuedExtend(q: seq<Queued>, n: nat)
      requires n < |q|
      ensures q[n..][1..] == q[n + 1..] && q[n..][0] == q[n]
      ensures var packet := Sent(q[n].id, Vendor, (q[n].layerSpecific / 256) as byte, (q[n].layerSpecific % 256) as byte);
              Unqueue(q[n]) == packet && Unqueued(q, n + 1) == Unqueued(q, n) + [packet]
    {
    }

    /** `avrc_process_timeout`: only a vendor command's timeout looks at the queue. */
    method ProcessTimeout(vendor: bool, accepts: Sent -> bool)
      requires Inv(View())
      modifies this
      ensures View() == Next(old(View()), TimedOut(vendor, accepts))
    {
      if vendor {
        SendNextVendorCmd(accepts);
      }
    }

    /** `AVRC_Open` on a connection used before. */
    method Open()
      requires Inv(View())
      modifies this
      ensures View() == Reopen(old(View())) && Inv(View())
    {
      DiscardKeeps(View());
      pending, cmdQ := false, Some([]);
    }

    method FlushCmdQ()
      requires Inv(View())
      modifies this
      ensures View() == Flush(old(View())) && Inv(View())
    {
      DiscardKeeps(View());
      pending := false;
      cmdQ := None;
    }
  }

  /** The real object over any interleaving: what it hands to the transport, in order. */
  method Replay(events: seq<Event>) returns (sent: seq<Sent>, fault: bool)
    ensures sent == Run(events).sent
    ensures fault <==> exists k :: FaultAt(events, k)
    ensures forall i, j :: 0 <= i < j < |VendorIds(sent)| ==> VendorIds(sent)[i] < VendorIds(sent)[j]
    ensures forall i, j :: 0 <= i < j < |sent| ==> sent[i].id != sent[j].id
  {
    hide Inv, Submit, SendNext, Flush, VendorIds, FaultAt;
    var link := new Connection();
    for n := 0 to |events|
      invariant fresh(link) && link.View() == Run(events[..n]) && Inv(link.View())
    {
      assert events[..n + 1][..n] == events[..n];
      match events[n] {
        case Submitted(c, ok) => link.MsgReq(c, ok);
        case Answered(accepts) => link.SendNextVendorCmd(accepts);
        case TimedOut(vendor, accepts) => link.ProcessTimeout(vendor, accepts);
        case Flushed => link.FlushCmdQ();
        case Reopened => link.Open();
      }
    }
    assert events[..|events|] == events;
    FaultExactly(events);
    RunsInOrder(events);
    sent, fault := link.sent, link.fault;
  }
}
