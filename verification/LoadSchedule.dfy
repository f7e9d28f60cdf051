/** What the fixed-rate load worker keeps true: its grid of slots, its clients' sequences, and its tally. */
module LoadSchedule {
  import opened Prelude
  import opened Sums

  /** One worker's part of the workload: its clients, and the grid of send times in nanoseconds. */
  datatype Plan = Plan(clientCount: nat, interval: nat, start: int, measurementBegin: int, measurementEnd: int) {
    /** Clock values are 64-bit, and a rate of at most 10^9 requests a second leaves an interval. */
    predicate Valid() {
      && clientCount > 0 && interval > 0
      && 0 <= start <= INT64_MAX && 0 <= measurementBegin <= measurementEnd <= INT64_MAX
    }

    /** When a slot is due: one interval after the one before it. */
    function SlotTime(slot: nat): int {
      if slot == 0 then start else SlotTime(slot - 1) + interval
    }

    lemma {:induction false} SlotTimeIs(slot: nat)
      ensures SlotTime(slot) == start + slot * interval
    {
      if slot > 0 {
        SlotTimeIs(slot - 1);
        assert slot * interval == (slot - 1) * interval + interval;
      }
    }
  }

  /**
   A request that was sent: the slot it fills, its sequence number, and the readings of the clock by which the slot was
   found due, the request was stamped, and it was in the network client's hands.
   */
  datatype Send = Send(slot: nat, sequence: nat, observedAt: int, stampedAt: int, submittedAt: int)

  datatype Outstanding = Outstanding(scheduledAt: int, submittedAt: int, clientSend: uint64, recordMeasurement: bool)

  datatype LoadClient = LoadClient(clientId: uint32, nextSequence: uint64, outstanding: map<nat, Outstanding>)

  datatype Tally = Tally(
    accepted: nat, completed: nat, sendRejected: nat, timeout: nat, unexpectedDisconnect: nat, missedSchedule: nat,
    roundTrips: seq<int>, serverProcessing: seq<int>, schedulerLag: seq<int>)

  const EMPTY_TALLY := Tally(0, 0, 0, 0, 0, 0, [], [], [])

  // ---------- The schedule ----------

  /** Within the grid, never early, less than an interval old, and before the end of the measurement. */
  predicate OnTime(plan: Plan, slot: nat, observedAt: int) {
    var at := plan.SlotTime(slot);
    at <= observedAt < at + plan.interval && at < plan.measurementEnd
  }

  /** The request's readings follow each other. */
  predicate InOrder(send: Send) {
    send.observedAt <= send.stampedAt <= send.submittedAt
  }

  /** Whose turn it is after `turns` turns of a round of `count`, begun at `first`. */
  function AfterTurns(first: nat, count: nat, turns: nat): (turn: nat)
    ensures first < count ==> turn < count
  {
    if turns == 0 then first
    else
      var next := AfterTurns(first, count, turns - 1) + 1;
      if next == count then 0 else next
  }

  /** Slots go to the clients in turn. */
  function ClientOfSlot(plan: Plan, slot: nat): (client: nat)
    requires plan.Valid()
    ensures client < plan.clientCount
  {
    AfterTurns(0, plan.clientCount, slot)
  }

  /** The remainder the worker computes is the client whose turn it is. */
  lemma {:induction false} RemainderIsTurn(count: nat, slot: nat)
    requires count > 0
    ensures slot % count == AfterTurns(0, count, slot)
  {
    if slot == 0 {
      RemainderOf(0, 0, 0, count);
    } else {
      RemainderIsTurn(count, slot - 1);
      NextRemainder(slot - 1, slot, AfterTurns(0, count, slot - 1), count);
    }
  }

  lemma NextRemainder(a: nat, b: nat, r: nat, n: nat)
    requires n > 0 && b == a + 1 && r == a % n
    ensures b % n == if r + 1 == n then 0 else r + 1
  {
    var q := a / n;
    assert a == q * n + r;
    if r + 1 == n {
      Distribute(q, 1, n);
      RemainderOf(b, q + 1, 0, n);
    } else {
      RemainderOf(b, q, r + 1, n);
    }
  }

  lemma RemainderOf(a: nat, q: nat, r: nat, n: nat)
    requires r < n && a == q * n + r
    ensures a % n == r
  {
    var d := a / n - q;
    assert a == a / n * n + a % n;
    Distribute(q, d, n);
    assert d * n == r - a % n;
    if d >= 1 {
      Ascend(1, d, n);
    } else if d <= -1 {
      Ascend(d, -1, n);
    }
  }

  lemma Distribute(a: int, b: int, n: int)
    ensures (a + b) * n == a * n + b * n
  {
  }

  lemma Ascend(a: int, b: int, n: nat)
    requires a <= b
    ensures a * n <= b * n
  {
  }

  function ClientOf(plan: Plan, send: Send): nat
    requires plan.Valid()
  {
    ClientOfSlot(plan, send.slot)
  }

  /** How many of the requests went to a client. */
  function CountFor(plan: Plan, sends: seq<Send>, client: nat): nat
    requires plan.Valid()
  {
    if sends == [] then 0
    else CountFor(plan, sends[..|sends| - 1], client) + (if ClientOf(plan, sends[|sends| - 1]) == client then 1 else 0)
  }

  /** How many of the requests were scheduled inside the measurement. */
  function CountMeasured(plan: Plan, sends: seq<Send>): nat {
    if sends == [] then 0
    else
      CountMeasured(plan, sends[..|sends| - 1])
      + (if plan.SlotTime(sends[|sends| - 1].slot) >= plan.measurementBegin then 1 else 0)
  }

  /**
   The requests so far, oldest first: each on time, in a later slot than the one before, with its client's next
   number.
   */
  ghost predicate SendsSound(plan: Plan, sends: seq<Send>, nextSlot: nat)
    requires plan.Valid()
  {
    sends == [] || (
      var front, last := sends[..|sends| - 1], sends[|sends| - 1];
      && OnTime(plan, last.slot, last.observedAt) && InOrder(last) && last.slot < nextSlot
      && last.sequence == 1 + CountFor(plan, front, ClientOf(plan, last))
      && SendsSound(plan, front, last.slot))
  }

  lemma SendsSoundAppend(plan: Plan, sends: seq<Send>, nextSlot: nat, send: Send)
    requires plan.Valid() && SendsSound(plan, sends, nextSlot) && nextSlot <= send.slot
    requires OnTime(plan, send.slot, send.observedAt) && InOrder(send)
    requires send.sequence == 1 + CountFor(plan, sends, ClientOf(plan, send))
    ensures SendsSound(plan, sends + [send], send.slot + 1)
  {
    SendsSoundLater(plan, sends, nextSlot, send.slot);
    assert (sends + [send])[..|sends|] == sends;
  }

  lemma SendsSoundLater(plan: Plan, sends: seq<Send>, nextSlot: nat, later: nat)
    requires plan.Valid() && SendsSound(plan, sends, nextSlot) && nextSlot <= later
    ensures SendsSound(plan, sends, later)
  {
  }

  /**
   A late worker skips slots instead of bursting: every request fills a slot of its own, before the end of the
   measurement, never early and less than one interval old.
   */
  lemma {:induction false} SlotsFilledOnTime(plan: Plan, sends: seq<Send>, nextSlot: nat, i: nat)
    requires plan.Valid() && SendsSound(plan, sends, nextSlot) && i < |sends|
    ensures OnTime(plan, sends[i].slot, sends[i].observedAt) && InOrder(sends[i]) && sends[i].slot < nextSlot
    ensures forall j | i < j < |sends| :: sends[i].slot < sends[j].slot
  {
    if i < |sends| - 1 {
      var front := sends[..|sends| - 1];
      SlotsFilledOnTime(plan, front, sends[|sends| - 1].slot, i);
      assert forall j | i < j < |sends| - 1 :: front[j] == sends[j];
    }
  }

  /** Each client's requests are numbered 1, 2, 3 and so on, in the order they were sent. */
  lemma {:induction false} ClientsNumberTheirRequests(plan: Plan, sends: seq<Send>, nextSlot: nat, i: nat)
    requires plan.Valid() && SendsSound(plan, sends, nextSlot) && i < |sends|
    ensures sends[i].sequence == 1 + CountFor(plan, sends[..i], ClientOf(plan, sends[i]))
  {
    if i < |sends| - 1 {
      ClientsNumberTheirRequests(plan, sends[..|sends| - 1], sends[|sends| - 1].slot, i);
      assert sends[..|sends| - 1][..i] == sends[..i];
    }
  }

  /** Where among the first `n` requests the client's request with that number is. */
  function SentAt(plan: Plan, sends: seq<Send>, client: nat, sequence: nat, n: nat): (at: Option<nat>)
    requires plan.Valid() && n <= |sends|
    ensures at.Some? ==>
      at.value < n && ClientOf(plan, sends[at.value]) == client && sends[at.value].sequence == sequence
  {
    if n == 0 then None
    else if ClientOf(plan, sends[n - 1]) == client && sends[n - 1].sequence == sequence then Some(n - 1)
    else SentAt(plan, sends, client, sequence, n - 1)
  }

  lemma {:induction false} SentAtFront(plan: Plan, sends: seq<Send>, send: Send, client: nat, sequence: nat, n: nat)
    requires plan.Valid() && n <= |sends|
    ensures SentAt(plan, sends + [send], client, sequence, n) == SentAt(plan, sends, client, sequence, n)
  {
    if n > 0 {
      SentAtFront(plan, sends, send, client, sequence, n - 1);
    }
  }

  lemma SentAtAppend(plan: Plan, sends: seq<Send>, send: Send, client: nat, sequence: nat)
    requires plan.Valid()
    ensures SentAt(plan, sends + [send], client, sequence, |sends| + 1)
         == if ClientOf(plan, send) == client && send.sequence == sequence then Some(|sends|)
            else SentAt(plan, sends, client, sequence, |sends|)
  {
    SentAtFront(plan, sends, send, client, sequence, |sends|);
  }

  // ---------- The schedule as a function of the clock ----------

  /** A slot filled, and the clock reading it was filled at. */
  datatype Fill = Fill(slot: nat, observedAt: int)

  /** The next slot and the slots filled so far; the others before the next one were missed. */
  datatype Cursor = Cursor(nextSlot: nat, filled: seq<Fill>)

  /** The latest slot due, counting on from one that is. */
  function DueSlot(plan: Plan, slot: nat, observedAt: int): (due: nat)
    requires plan.Valid() && plan.SlotTime(slot) <= observedAt
    ensures slot <= due && plan.SlotTime(due) <= observedAt < plan.SlotTime(due + 1)
    decreases observedAt - plan.SlotTime(slot)
  {
    if observedAt < plan.SlotTime(slot + 1) then slot else DueSlot(plan, slot + 1, observedAt)
  }

  /**
   One look at the clock: before the next slot nothing happens; after it the latest slot due is filled if it lies before
   the end of the measurement, and the slots before it are missed.
   */
  function AfterLook(plan: Plan, c: Cursor, observedAt: int): Cursor
    requires plan.Valid()
    decreases observedAt - plan.SlotTime(c.nextSlot)
  {
    if observedAt < plan.SlotTime(c.nextSlot) then c
    else if plan.SlotTime(c.nextSlot + 1) <= observedAt then
      AfterLook(plan, Cursor(c.nextSlot + 1, c.filled), observedAt)
    else if plan.SlotTime(c.nextSlot) < plan.measurementEnd then
      Cursor(c.nextSlot + 1, c.filled + [Fill(c.nextSlot, observedAt)])
    else c
  }

  lemma {:induction false} LookDecides(plan: Plan, c: Cursor, observedAt: int)
    requires plan.Valid() && plan.SlotTime(c.nextSlot) <= observedAt
    ensures var slot := DueSlot(plan, c.nextSlot, observedAt);
      AfterLook(plan, c, observedAt)
      == if plan.SlotTime(slot) < plan.measurementEnd then Cursor(slot + 1, c.filled + [Fill(slot, observedAt)])
         else Cursor(slot, c.filled)
    decreases observedAt - plan.SlotTime(c.nextSlot)
  {
    if plan.SlotTime(c.nextSlot + 1) <= observedAt {
      LookDecides(plan, Cursor(c.nextSlot + 1, c.filled), observedAt);
    }
  }

  /** The slots the requests fill, in order, with the readings they were filled at. */
  function Fills(sends: seq<Send>): seq<Fill> {
    if sends == [] then []
    else Fills(sends[..|sends| - 1]) + [Fill(sends[|sends| - 1].slot, sends[|sends| - 1].observedAt)]
  }

  lemma CountsAppend(plan: Plan, sends: seq<Send>, send: Send, client: nat)
    requires plan.Valid()
    ensures CountFor(plan, sends + [send], client)
         == CountFor(plan, sends, client) + (if ClientOf(plan, send) == client then 1 else 0)
    ensures CountMeasured(plan, sends + [send])
         == CountMeasured(plan, sends) + (if plan.SlotTime(send.slot) >= plan.measurementBegin then 1 else 0)
  {
    assert (sends + [send])[..|sends|] == sends;
  }

  lemma {:induction false} CountAtMost(plan: Plan, sends: seq<Send>, client: nat)
    requires plan.Valid()
    ensures CountFor(plan, sends, client) <= |sends|
  {
    if sends != [] {
      CountAtMost(plan, sends[..|sends| - 1], client);
    }
  }

  /** Distinct slots: no more requests than slots passed. */
  lemma {:induction false} SendsFitSlots(plan: Plan, sends: seq<Send>, nextSlot: nat)
    requires plan.Valid() && SendsSound(plan, sends, nextSlot)
    ensures |sends| <= nextSlot
  {
    if sends != [] {
      SendsFitSlots(plan, sends[..|sends| - 1], sends[|sends| - 1].slot);
    }
  }

  /** Sequence numbers never wrap: a slot inside the measurement has a 64-bit number. */
  lemma SequenceFits(plan: Plan, sends: seq<Send>, slot: nat, client: nat)
    requires plan.Valid() && SendsSound(plan, sends, slot) && plan.SlotTime(slot) < plan.measurementEnd
    ensures CountFor(plan, sends, client) + 1 < UINT64_MAX
  {
    SendsFitSlots(plan, sends, slot);
    CountAtMost(plan, sends, client);
    SlotIsSmall(plan, slot);
  }

  lemma {:induction false} SlotTimeAtLeast(plan: Plan, slot: nat)
    requires plan.Valid()
    ensures plan.SlotTime(slot) >= plan.start + slot
  {
    if slot > 0 {
      SlotTimeAtLeast(plan, slot - 1);
    }
  }

  lemma SlotIsSmall(plan: Plan, slot: nat)
    requires plan.Valid() && plan.SlotTime(slot) < plan.measurementEnd
    ensures slot < INT64_MAX
  {
    SlotTimeAtLeast(plan, slot);
  }

  /** The worker's one division passes over exactly the slots that are a whole interval late. */
  lemma SkippingCatchesUp(plan: Plan, slot: nat, observedAt: int)
    requires plan.Valid() && plan.SlotTime(slot) <= observedAt
    ensures var missed := (observedAt - plan.SlotTime(slot)) / plan.interval;
      && missed >= 0 && slot + missed == DueSlot(plan, slot, observedAt)
      && plan.SlotTime(slot + missed) == plan.SlotTime(slot) + plan.interval * missed
  {
    var overdue := observedAt - plan.SlotTime(slot);
    var missed := overdue / plan.interval;
    assert overdue == plan.interval * missed + overdue % plan.interval;
    plan.SlotTimeIs(slot);
    plan.SlotTimeIs(slot + missed);
    Distribute(slot, missed, plan.interval);
    SlotIsUnique(plan, slot + missed, DueSlot(plan, slot, observedAt), observedAt);
  }

  lemma {:induction false} SlotTimesAscend(plan: Plan, a: nat, b: nat)
    requires plan.Valid() && a < b
    ensures plan.SlotTime(a) + plan.interval <= plan.SlotTime(b)
  {
    if a + 1 < b {
      SlotTimesAscend(plan, a, b - 1);
    }
  }

  lemma SlotOrder(plan: Plan, slot: nat, observedAt: int, other: nat)
    requires plan.Valid() && plan.SlotTime(slot) <= observedAt < plan.SlotTime(slot + 1)
    ensures plan.SlotTime(other) <= observedAt <==> other <= slot
  {
    if other < slot {
      SlotTimesAscend(plan, other, slot);
    } else if other > slot + 1 {
      SlotTimesAscend(plan, slot + 1, other);
    }
  }

  /** Only one slot begins at or before a reading with the next one after it. */
  lemma SlotIsUnique(plan: Plan, a: nat, b: nat, observedAt: int)
    requires plan.Valid()
    requires plan.SlotTime(a) <= observedAt < plan.SlotTime(a + 1)
    requires plan.SlotTime(b) <= observedAt < plan.SlotTime(b + 1)
    ensures a == b
  {
    SlotOrder(plan, a, observedAt, b);
    SlotOrder(plan, b, observedAt, a);
  }

  // ---------- Clients and tally ----------

  function Pending(c: LoadClient): int {
    |c.outstanding|
  }

  function Measuring(c: LoadClient): int {
    |MeasuringKeys(c.outstanding)|
  }

  function MeasuringKeys(m: map<nat, Outstanding>): set<nat> {
    set k | k in m && m[k].recordMeasurement
  }

  /** The steady clock as a 64-bit count of nanoseconds; 0 stands for a clock that could not be read. */
  function Timestamp(now: int): uint64 {
    if now <= 0 then 0 else Min(now, INT64_MAX)
  }

  /** The books hold the request as it was sent. */
  predicate IsBooked(plan: Plan, send: Send, request: Outstanding) {
    && request.scheduledAt == plan.SlotTime(send.slot)
    && request.submittedAt == send.submittedAt && request.clientSend == Timestamp(send.stampedAt)
  }

  /** It is the client's request with that number. */
  predicate IsBookedUnder(plan: Plan, sends: seq<Send>, client: nat, sequence: nat, request: Outstanding)
    requires plan.Valid()
  {
    var at := SentAt(plan, sends, client, sequence, |sends|);
    at.Some? && IsBooked(plan, sends[at.value], request)
  }

  /** A request still waiting is one the client sent, was stamped by now, and knows its phase. */
  predicate WaitingSound(plan: Plan, c: LoadClient, i: nat, sends: seq<Send>, stamp: uint64)
    requires plan.Valid()
  {
    forall k | k in c.outstanding ::
      && 1 <= k < c.nextSequence
      && IsBookedUnder(plan, sends, i, k, c.outstanding[k])
      && c.outstanding[k].scheduledAt <= c.outstanding[k].submittedAt
      && 0 < c.outstanding[k].clientSend <= stamp
      && (c.outstanding[k].recordMeasurement <==> c.outstanding[k].scheduledAt >= plan.measurementBegin)
  }

  /** Client `i` has sent exactly 1 .. nextSequence - 1, and waits only for some of those. */
  predicate ClientSound(plan: Plan, c: LoadClient, i: nat, sends: seq<Send>, stamp: uint64)
    requires plan.Valid()
  {
    c.nextSequence == 1 + CountFor(plan, sends, i) && WaitingSound(plan, c, i, sends, stamp)
  }

  /** The first `n` clients are sound. */
  ghost predicate ClientsSound(plan: Plan, clients: seq<LoadClient>, sends: seq<Send>, stamp: uint64, n: nat)
    requires plan.Valid() && n <= |clients|
  {
    n == 0 || (
      && ClientSound(plan, clients[n - 1], n - 1, sends, stamp)
      && ClientsSound(plan, clients, sends, stamp, n - 1))
  }

  lemma {:induction false} ClientAt(plan: Plan, clients: seq<LoadClient>, sends: seq<Send>, stamp: uint64, n: nat,
                                    i: nat)
    requires plan.Valid() && i < n <= |clients| && ClientsSound(plan, clients, sends, stamp, n)
    ensures ClientSound(plan, clients[i], i, sends, stamp)
  {
    if i < n - 1 {
      ClientAt(plan, clients, sends, stamp, n - 1, i);
    }
  }

  lemma {:induction false} ClientsFromEach(plan: Plan, clients: seq<LoadClient>, sends: seq<Send>, stamp: uint64,
                                           n: nat)
    requires plan.Valid() && n <= |clients|
    requires forall i | 0 <= i < n :: ClientSound(plan, clients[i], i, sends, stamp)
    ensures ClientsSound(plan, clients, sends, stamp, n)
  {
    if n > 0 {
      ClientsFromEach(plan, clients, sends, stamp, n - 1);
    }
  }

  /** Time passing keeps every client sound. */
  lemma ClientsLater(plan: Plan, clients: seq<LoadClient>, sends: seq<Send>, stamp: uint64, later: uint64)
    requires plan.Valid() && ClientsSound(plan, clients, sends, stamp, |clients|) && stamp <= later
    ensures ClientsSound(plan, clients, sends, later, |clients|)
  {
    forall i | 0 <= i < |clients|
      ensures ClientSound(plan, clients[i], i, sends, later)
    {
      ClientAt(plan, clients, sends, stamp, |clients|, i);
    }
    ClientsFromEach(plan, clients, sends, later, |clients|);
  }

  /** One client changing keeps all sound when the others still are. */
  lemma OneClientChanges(plan: Plan, clients: seq<LoadClient>, sends: seq<Send>, stamp: uint64, i: nat, c: LoadClient)
    requires plan.Valid() && i < |clients| && ClientSound(plan, c, i, sends, stamp)
    requires forall j: nat | j < |clients| && j != i :: ClientSound(plan, clients[j], j, sends, stamp)
    ensures ClientsSound(plan, clients[i := c], sends, stamp, |clients|)
  {
    ClientsFromEach(plan, clients[i := c], sends, stamp, |clients|);
  }

  predicate AllNonNegative(s: seq<int>) {
    NonNegativeTo(s, |s|)
  }

  /** The first `n` are not negative. */
  predicate NonNegativeTo(s: seq<int>, n: nat)
    requires n <= |s|
  {
    n == 0 || (s[n - 1] >= 0 && NonNegativeTo(s, n - 1))
  }

  lemma {:induction false} NonNegativeFront(s: seq<int>, x: int, n: nat)
    requires n <= |s| && NonNegativeTo(s, n)
    ensures NonNegativeTo(s + [x], n)
  {
    if n > 0 {
      NonNegativeFront(s, x, n - 1);
    }
  }

  lemma NonNegativeAppends(s: seq<int>, x: int)
    requires AllNonNegative(s) && x >= 0
    ensures AllNonNegative(s + [x])
  {
    NonNegativeFront(s, x, |s|);
  }

  /** Conservation: every accepted request is completed or waiting, and each measured one has its three samples. */
  ghost predicate TallySound(plan: Plan, clients: seq<LoadClient>, sends: seq<Send>, tally: Tally) {
    && tally.accepted == |sends| == tally.completed + Sum(clients, Pending)
    && CountMeasured(plan, sends) == |tally.schedulerLag| + Sum(clients, Measuring)
    && |tally.roundTrips| == |tally.serverProcessing| == |tally.schedulerLag|
    && AllNonNegative(tally.roundTrips) && AllNonNegative(tally.serverProcessing) && AllNonNegative(tally.schedulerLag)
    && tally.sendRejected == 0 && tally.timeout == 0 && tally.unexpectedDisconnect == 0
  }

  /** What holds at every head of the worker's loops. */
  ghost predicate Sound(plan: Plan, clients: seq<LoadClient>, sends: seq<Send>, tally: Tally, nextSlot: nat,
                        nextScheduledAt: int, stamp: uint64)
  {
    && plan.Valid() && |clients| == plan.clientCount
    && nextSlot == tally.accepted + tally.missedSchedule && nextScheduledAt == plan.SlotTime(nextSlot)
    && SendsSound(plan, sends, nextSlot) && ClientsSound(plan, clients, sends, stamp, |clients|)
    && TallySound(plan, clients, sends, tally)
  }

  /** What still holds after a failure: the grid was kept, and no request was lost or counted twice. */
  ghost predicate Accounted(plan: Plan, clients: seq<LoadClient>, sends: seq<Send>, tally: Tally, nextSlot: nat) {
    && plan.Valid() && SendsSound(plan, sends, nextSlot)
    && nextSlot == tally.accepted + tally.missedSchedule
    && tally.accepted == |sends| == tally.completed + Sum(clients, Pending)
  }

  lemma SoundIsAccounted(plan: Plan, clients: seq<LoadClient>, sends: seq<Send>, tally: Tally, nextSlot: nat,
                         nextScheduledAt: int, stamp: uint64, tally': Tally)
    requires Sound(plan, clients, sends, tally, nextSlot, nextScheduledAt, stamp)
    requires tally'.accepted == tally.accepted && tally'.completed == tally.completed
    requires tally'.missedSchedule == tally.missedSchedule
    ensures Accounted(plan, clients, sends, tally', nextSlot)
  {
  }

  // ---------- What each operation does ----------

  function AfterSend(c: LoadClient, request: Outstanding): LoadClient
    requires c.nextSequence < UINT64_MAX
  {
    c.(nextSequence := c.nextSequence + 1, outstanding := c.outstanding[c.nextSequence as nat := request])
  }

  /** The client once a request no longer waits. */
  function Without(c: LoadClient, k: nat): LoadClient {
    c.(outstanding := c.outstanding - {k})
  }

  lemma KeysAdd(m: map<nat, Outstanding>, k: nat, request: Outstanding)
    requires k !in m
    ensures m[k := request].Keys == m.Keys + {k} && |m[k := request]| == |m| + 1
    ensures MeasuringKeys(m[k := request]) == MeasuringKeys(m) + (if request.recordMeasurement then {k} else {})
  {
    assert m[k := request].Keys == m.Keys + {k};
  }

  lemma MeasuringAdds(c: LoadClient, request: Outstanding)
    requires c.nextSequence < UINT64_MAX && c.nextSequence !in c.outstanding
    ensures Pending(AfterSend(c, request)) == Pending(c) + 1
    ensures Measuring(AfterSend(c, request)) == Measuring(c) + (if request.recordMeasurement then 1 else 0)
  {
    KeysAdd(c.outstanding, c.nextSequence, request);
  }

  lemma MeasuringDrops(c: LoadClient, k: nat)
    requires k in c.outstanding
    ensures var c' := Without(c, k);
      && Pending(c') == Pending(c) - 1
      && Measuring(c') == Measuring(c) - (if c.outstanding[k].recordMeasurement then 1 else 0)
  {
    var m := c.outstanding;
    var m' := m - {k};
    assert m'.Keys == m.Keys - {k};
    assert MeasuringKeys(m') == MeasuringKeys(m) - (if m[k].recordMeasurement then {k} else {});
  }

  /** Passing over the slots a whole interval late keeps everything sound. */
  lemma SkipKeepsSound(plan: Plan, clients: seq<LoadClient>, sends: seq<Send>, tally: Tally, nextSlot: nat,
                       nextScheduledAt: int, stamp: uint64, observedAt: int)
    requires Sound(plan, clients, sends, tally, nextSlot, nextScheduledAt, stamp) && nextScheduledAt <= observedAt
    ensures var missed := (observedAt - nextScheduledAt) / plan.interval;
      var later := nextScheduledAt + plan.interval * missed;
      && missed >= 0 && nextSlot + missed == DueSlot(plan, nextSlot, observedAt)
      && later <= observedAt < later + plan.interval
      && Sound(plan, clients, sends, tally.(missedSchedule := tally.missedSchedule + missed), nextSlot + missed, later,
               stamp)
      && (missed == 0 ==> later == nextScheduledAt)
  {
    var missed := (observedAt - nextScheduledAt) / plan.interval;
    SkippingCatchesUp(plan, nextSlot, observedAt);
    SendsSoundLater(plan, sends, nextSlot, nextSlot + missed);
    assert plan.SlotTime(nextSlot + missed + 1) == plan.SlotTime(nextSlot + missed) + plan.interval;
  }

  /** Filling the next slot keeps everything sound; the sequence number is new, so nothing is overwritten. */
  lemma SendKeepsSound(plan: Plan, clients: seq<LoadClient>, sends: seq<Send>, tally: Tally, nextSlot: nat,
                       nextScheduledAt: int, stamp: uint64, send: Send, request: Outstanding)
    requires Sound(plan, clients, sends, tally, nextSlot, nextScheduledAt, stamp)
    requires send.slot == nextSlot && OnTime(plan, send.slot, send.observedAt) && InOrder(send)
    requires send.sequence == clients[ClientOfSlot(plan, nextSlot)].nextSequence
    requires IsBooked(plan, send, request) && 0 < request.clientSend <= stamp
    requires request.recordMeasurement <==> request.scheduledAt >= plan.measurementBegin
    ensures var i := ClientOfSlot(plan, nextSlot);
      && clients[i].nextSequence < UINT64_MAX && clients[i].nextSequence !in clients[i].outstanding
      && Sound(plan, clients[i := AfterSend(clients[i], request)], sends + [send],
               tally.(accepted := tally.accepted + 1), nextSlot + 1, nextScheduledAt + plan.interval, stamp)
  {
    var i := ClientOfSlot(plan, nextSlot);
    SequenceFits(plan, sends, nextSlot, i);
    ClientAt(plan, clients, sends, stamp, |clients|, i);
    SendsSoundAppend(plan, sends, nextSlot, send);
    SendKeepsClients(plan, clients, sends, send, stamp, request);
    SendKeepsTally(plan, clients, sends, tally, send, request);
    assert plan.SlotTime(nextSlot + 1) == plan.SlotTime(nextSlot) + plan.interval;
  }

  lemma SendKeepsTally(plan: Plan, clients: seq<LoadClient>, sends: seq<Send>, tally: Tally, send: Send,
                       request: Outstanding)
    requires plan.Valid() && |clients| == plan.clientCount && TallySound(plan, clients, sends, tally)
    requires var c := clients[ClientOf(plan, send)]; c.nextSequence < UINT64_MAX && c.nextSequence !in c.outstanding
    requires request.recordMeasurement <==> plan.SlotTime(send.slot) >= plan.measurementBegin
    ensures var i := ClientOf(plan, send);
      TallySound(plan, clients[i := AfterSend(clients[i], request)], sends + [send],
                 tally.(accepted := tally.accepted + 1))
  {
    var i := ClientOf(plan, send);
    MeasuringAdds(clients[i], request);
    SumUpdate(clients, i, AfterSend(clients[i], request), Pending);
    SumUpdate(clients, i, AfterSend(clients[i], request), Measuring);
    CountsAppend(plan, sends, send, i);
  }

  lemma OtherClientKeeps(plan: Plan, c: LoadClient, j: nat, sends: seq<Send>, send: Send, stamp: uint64)
    requires plan.Valid() && ClientSound(plan, c, j, sends, stamp) && ClientOf(plan, send) != j
    ensures ClientSound(plan, c, j, sends + [send], stamp)
  {
    CountsAppend(plan, sends, send, j);
    forall k | k in c.outstanding
      ensures IsBookedUnder(plan, sends + [send], j, k, c.outstanding[k])
    {
      SentAtAppend(plan, sends, send, j, k);
    }
  }

  lemma SenderKeeps(plan: Plan, c: LoadClient, i: nat, sends: seq<Send>, send: Send, stamp: uint64,
                    request: Outstanding)
    requires plan.Valid() && ClientSound(plan, c, i, sends, stamp) && ClientOf(plan, send) == i
    requires send.sequence == c.nextSequence < UINT64_MAX && 0 < request.clientSend <= stamp
    requires IsBooked(plan, send, request) && request.scheduledAt <= request.submittedAt
    requires request.recordMeasurement <==> request.scheduledAt >= plan.measurementBegin
    ensures ClientSound(plan, AfterSend(c, request), i, sends + [send], stamp)
  {
    CountsAppend(plan, sends, send, i);
    forall k | k in AfterSend(c, request).outstanding
      ensures IsBookedUnder(plan, sends + [send], i, k, AfterSend(c, request).outstanding[k])
    {
      SentAtAppend(plan, sends, send, i, k);
    }
  }

  lemma SendKeepsClients(plan: Plan, clients: seq<LoadClient>, sends: seq<Send>, send: Send, stamp: uint64,
                         request: Outstanding)
    requires plan.Valid() && |clients| == plan.clientCount && ClientsSound(plan, clients, sends, stamp, |clients|)
    requires send.sequence == clients[ClientOf(plan, send)].nextSequence < UINT64_MAX
    requires IsBooked(plan, send, request) && request.scheduledAt <= request.submittedAt
    requires 0 < request.clientSend <= stamp
    requires request.recordMeasurement <==> request.scheduledAt >= plan.measurementBegin
    ensures var i := ClientOf(plan, send);
      ClientsSound(plan, clients[i := AfterSend(clients[i], request)], sends + [send], stamp, |clients|)
  {
    var i := ClientOf(plan, send);
    forall j: nat | j < |clients| && j != i
      ensures ClientSound(plan, clients[j], j, sends + [send], stamp)
    {
      ClientAt(plan, clients, sends, stamp, |clients|, j);
      OtherClientKeeps(plan, clients[j], j, sends, send, stamp);
    }
    ClientAt(plan, clients, sends, stamp, |clients|, i);
    SenderKeeps(plan, clients[i], i, sends, send, stamp, request);
    OneClientChanges(plan, clients, sends + [send], stamp, i, AfterSend(clients[i], request));
  }

  /** The tally after a response. */
  function AfterResponse(tally: Tally, request: Outstanding, roundTrip: int, processing: int): Tally {
    var t := tally.(completed := tally.completed + 1);
    if !request.recordMeasurement then t
    else t.(roundTrips := t.roundTrips + [roundTrip], serverProcessing := t.serverProcessing + [processing],
            schedulerLag := t.schedulerLag + [request.submittedAt - request.scheduledAt])
  }

  // ---------- The samples ----------

  /**
   A measured request that was answered: which of those sent it is, the answer's own times, and when the worker saw it.
   */
  datatype Answer = Answer(at: nat, send: Send, serverReceived: uint64, serverPrepared: uint64, observedAt: int)

  /** The answer is to a measured request that was sent, was seen no earlier than that was stamped, and left these. */
  predicate IsSampled(plan: Plan, sends: seq<Send>, answer: Answer, roundTrip: int, processing: int, lag: int) {
    && answer.at < |sends| && answer.send == sends[answer.at]
    && plan.SlotTime(answer.send.slot) >= plan.measurementBegin
    && 0 < Timestamp(answer.send.stampedAt) <= Timestamp(answer.observedAt)
    && roundTrip == Timestamp(answer.observedAt) - Timestamp(answer.send.stampedAt)
    && processing == answer.serverPrepared - answer.serverReceived
    && lag == answer.send.submittedAt - plan.SlotTime(answer.send.slot)
  }

  /** The samples of each kind are those of the answers, in order. */
  predicate Recorded(plan: Plan, sends: seq<Send>, answers: seq<Answer>, tally: Tally) {
    && |answers| == |tally.roundTrips| == |tally.serverProcessing| == |tally.schedulerLag|
    && forall i {:trigger answers[i]} | 0 <= i < |answers| ::
         IsSampled(plan, sends, answers[i], tally.roundTrips[i], tally.serverProcessing[i], tally.schedulerLag[i])
  }

  /**
   With readings that fit 64 bits: the i-th round trip is the time from the stamp of the i-th measured request answered
   until its answer was seen, the i-th processing time the server's own between receiving and preparing, and the i-th
   lag the time from the request's slot until it was submitted.
   */
  lemma SamplesAreDifferences(plan: Plan, sends: seq<Send>, answers: seq<Answer>, tally: Tally, i: nat)
    requires Recorded(plan, sends, answers, tally) && i < |answers|
    requires answers[i].send.stampedAt <= INT64_MAX && answers[i].observedAt <= INT64_MAX
    ensures var a := answers[i];
      && a.at < |sends| && a.send == sends[a.at] && 0 < a.send.stampedAt <= a.observedAt
      && plan.SlotTime(a.send.slot) >= plan.measurementBegin
      && tally.roundTrips[i] == a.observedAt - a.send.stampedAt
      && tally.serverProcessing[i] == a.serverPrepared - a.serverReceived
      && tally.schedulerLag[i] == a.send.submittedAt - plan.SlotTime(a.send.slot)
  {
    assert IsSampled(plan, sends, answers[i], tally.roundTrips[i], tally.serverProcessing[i], tally.schedulerLag[i]);
  }

  lemma SendKeepsRecorded(plan: Plan, sends: seq<Send>, answers: seq<Answer>, tally: Tally, send: Send, tally': Tally)
    requires Recorded(plan, sends, answers, tally) && tally' == tally.(accepted := tally'.accepted)
    ensures Recorded(plan, sends + [send], answers, tally')
  {
  }

  /** The worker's record of a completed request: one answer more when it was measured. */
  function AfterAnswer(answers: seq<Answer>, request: Outstanding, answer: Answer): seq<Answer> {
    if request.recordMeasurement then answers + [answer] else answers
  }

  lemma ResponseKeepsRecorded(plan: Plan, sends: seq<Send>, answers: seq<Answer>, tally: Tally, request: Outstanding,
                              answer: Answer, roundTrip: int, processing: int)
    requires Recorded(plan, sends, answers, tally) && IsBooked(plan, answer.send, request)
    requires answer.at < |sends| && sends[answer.at] == answer.send
    requires 0 < request.clientSend <= Timestamp(answer.observedAt)
    requires request.recordMeasurement <==> request.scheduledAt >= plan.measurementBegin
    requires roundTrip == Timestamp(answer.observedAt) - request.clientSend
    requires processing == answer.serverPrepared - answer.serverReceived
    ensures Recorded(plan, sends, AfterAnswer(answers, request, answer),
                     AfterResponse(tally, request, roundTrip, processing))
  {
  }

  /** Completing a request keeps everything sound, its samples included. */
  lemma ResponseKeepsSound(plan: Plan, clients: seq<LoadClient>, sends: seq<Send>, tally: Tally, nextSlot: nat,
                           nextScheduledAt: int, stamp: uint64, i: nat, k: nat, roundTrip: int, processing: int)
    requires Sound(plan, clients, sends, tally, nextSlot, nextScheduledAt, stamp)
    requires i < |clients| && k in clients[i].outstanding && roundTrip >= 0 && processing >= 0
    ensures Sound(plan, clients[i := Without(clients[i], k)], sends,
                  AfterResponse(tally, clients[i].outstanding[k], roundTrip, processing), nextSlot, nextScheduledAt,
                  stamp)
    ensures Sum(clients[i := Without(clients[i], k)], Pending) == Sum(clients, Pending) - 1
  {
    forall j: nat | j < |clients|
      ensures ClientSound(plan, clients[j], j, sends, stamp)
    {
      ClientAt(plan, clients, sends, stamp, |clients|, j);
    }
    OneClientChanges(plan, clients, sends, stamp, i, Without(clients[i], k));
    ResponseKeepsTally(plan, clients, sends, tally, i, k, roundTrip, processing);
    MeasuringDrops(clients[i], k);
    SumUpdate(clients, i, Without(clients[i], k), Pending);
  }

  /** A worker's clients, its tally, and the measured requests answered. */
  datatype Books = Books(clients: seq<LoadClient>, tally: Tally, answers: seq<Answer>)

  /** The request that client `i` sent under that number is waiting. */
  predicate IsWaiting(plan: Plan, sends: seq<Send>, b: Books, i: nat, sequence: nat)
    requires plan.Valid()
  {
    i < |b.clients| && sequence in b.clients[i].outstanding && SentAt(plan, sends, i, sequence, |sends|).Some?
  }

  /** The books once client `i` has had an answer to its request with that number, if that is waiting. */
  function AfterCompletion(plan: Plan, sends: seq<Send>, b: Books, i: nat, sequence: nat, received: uint64,
                           prepared: uint64, observedAt: int): Books
    requires plan.Valid()
  {
    if !IsWaiting(plan, sends, b, i, sequence) then b
    else
      var request, at := b.clients[i].outstanding[sequence], SentAt(plan, sends, i, sequence, |sends|).value;
      Books(b.clients[i := Without(b.clients[i], sequence)],
            AfterResponse(b.tally, request, Timestamp(observedAt) - request.clientSend, prepared - received),
            AfterAnswer(b.answers, request, Answer(at, sends[at], received, prepared, observedAt)))
  }

  /** One more completed; a measured request leaves its three samples, any other none. */
  predicate Gains(t: Tally, t': Tally, measured: bool, roundTrip: int, processing: int, lag: int) {
    && t'.completed == t.completed + 1 && t'.accepted == t.accepted && t'.missedSchedule == t.missedSchedule
    && t'.sendRejected == t.sendRejected && t'.timeout == t.timeout && t'.unexpectedDisconnect == t.unexpectedDisconnect
    && t'.roundTrips == t.roundTrips + (if measured then [roundTrip] else [])
    && t'.serverProcessing == t.serverProcessing + (if measured then [processing] else [])
    && t'.schedulerLag == t.schedulerLag + (if measured then [lag] else [])
  }

  /** A measured request leaves its answer behind the others: whose it was, the answer's times, and when it was seen. */
  predicate Notes(plan: Plan, answers: seq<Answer>, answers': seq<Answer>, measured: bool, client: nat, sequence: nat,
                  received: uint64, prepared: uint64, observedAt: int)
    requires plan.Valid()
  {
    if !measured then answers' == answers
    else
      && |answers'| == |answers| + 1 && answers'[..|answers|] == answers
      && var a := answers'[|answers|];
         && ClientOf(plan, a.send) == client && a.send.sequence == sequence
         && a.serverReceived == received && a.serverPrepared == prepared && a.observedAt == observedAt
  }

  /** A waiting request is one that was sent, so its answer has all four times; completing it keeps everything. */
  lemma CompletionKeeps(plan: Plan, sends: seq<Send>, b: Books, b': Books, nextSlot: nat, nextScheduledAt: int, i: nat,
                        k: nat, received: uint64, prepared: uint64, observedAt: int)
    requires Sound(plan, b.clients, sends, b.tally, nextSlot, nextScheduledAt, Timestamp(observedAt))
    requires Recorded(plan, sends, b.answers, b.tally)
    requires i < |b.clients| && k in b.clients[i].outstanding && received <= prepared
    requires b' == AfterCompletion(plan, sends, b, i, k, received, prepared, observedAt)
    ensures IsWaiting(plan, sends, b, i, k)
    ensures Sound(plan, b'.clients, sends, b'.tally, nextSlot, nextScheduledAt, Timestamp(observedAt))
    ensures Recorded(plan, sends, b'.answers, b'.tally)
  {
    ClientAt(plan, b.clients, sends, Timestamp(observedAt), |b.clients|, i);
    CompletionIsSound(plan, sends, b, b', nextSlot, nextScheduledAt, i, k, received, prepared, observedAt);
    CompletionIsRecorded(plan, sends, b, b', i, k, received, prepared, observedAt);
  }

  lemma CompletionIsSound(plan: Plan, sends: seq<Send>, b: Books, b': Books, nextSlot: nat, nextScheduledAt: int,
                          i: nat, k: nat, received: uint64, prepared: uint64, observedAt: int)
    requires Sound(plan, b.clients, sends, b.tally, nextSlot, nextScheduledAt, Timestamp(observedAt))
    requires IsWaiting(plan, sends, b, i, k) && received <= prepared
    requires ClientSound(plan, b.clients[i], i, sends, Timestamp(observedAt))
    requires b' == AfterCompletion(plan, sends, b, i, k, received, prepared, observedAt)
    ensures Sound(plan, b'.clients, sends, b'.tally, nextSlot, nextScheduledAt, Timestamp(observedAt))
  {
    ResponseKeepsSound(plan, b.clients, sends, b.tally, nextSlot, nextScheduledAt, Timestamp(observedAt), i, k,
                       Timestamp(observedAt) - b.clients[i].outstanding[k].clientSend, prepared - received);
  }

  lemma CompletionIsRecorded(plan: Plan, sends: seq<Send>, b: Books, b': Books, i: nat, k: nat, received: uint64,
                             prepared: uint64, observedAt: int)
    requires plan.Valid() && Recorded(plan, sends, b.answers, b.tally) && IsWaiting(plan, sends, b, i, k)
    requires ClientSound(plan, b.clients[i], i, sends, Timestamp(observedAt))
    requires b' == AfterCompletion(plan, sends, b, i, k, received, prepared, observedAt)
    ensures Recorded(plan, sends, b'.answers, b'.tally)
  {
    var request, at := b.clients[i].outstanding[k], SentAt(plan, sends, i, k, |sends|).value;
    ResponseKeepsRecorded(plan, sends, b.answers, b.tally, request,
                          Answer(at, sends[at], received, prepared, observedAt),
                          Timestamp(observedAt) - request.clientSend, prepared - received);
  }

  /** What a completion leaves in the tally and among the answers, and how many requests are still waiting. */
  lemma CompletionGains(plan: Plan, sends: seq<Send>, b: Books, i: nat, k: nat, received: uint64, prepared: uint64,
                        observedAt: int)
    requires plan.Valid() && IsWaiting(plan, sends, b, i, k)
    ensures var request := b.clients[i].outstanding[k];
      Gains(b.tally, AfterCompletion(plan, sends, b, i, k, received, prepared, observedAt).tally,
            request.recordMeasurement, Timestamp(observedAt) - request.clientSend, prepared - received,
            request.submittedAt - request.scheduledAt)
    ensures Notes(plan, b.answers, AfterCompletion(plan, sends, b, i, k, received, prepared, observedAt).answers,
                  b.clients[i].outstanding[k].recordMeasurement, i, k, received, prepared, observedAt)
    ensures var clients := AfterCompletion(plan, sends, b, i, k, received, prepared, observedAt).clients;
      clients == b.clients[i := Without(b.clients[i], k)] && Sum(clients, Pending) == Sum(b.clients, Pending) - 1
  {
    MeasuringDrops(b.clients[i], k);
    SumUpdate(b.clients, i, Without(b.clients[i], k), Pending);
  }

  lemma ResponseKeepsTally(plan: Plan, clients: seq<LoadClient>, sends: seq<Send>, tally: Tally, i: nat, k: nat,
                           roundTrip: int, processing: int)
    requires TallySound(plan, clients, sends, tally)
    requires i < |clients| && k in clients[i].outstanding && roundTrip >= 0 && processing >= 0
    requires clients[i].outstanding[k].scheduledAt <= clients[i].outstanding[k].submittedAt
    ensures TallySound(plan, clients[i := Without(clients[i], k)], sends,
                       AfterResponse(tally, clients[i].outstanding[k], roundTrip, processing))
  {
    var request := clients[i].outstanding[k];
    MeasuringDrops(clients[i], k);
    SumUpdate(clients, i, Without(clients[i], k), Pending);
    SumUpdate(clients, i, Without(clients[i], k), Measuring);
    NonNegativeAppends(tally.roundTrips, roundTrip);
    NonNegativeAppends(tally.serverProcessing, processing);
    NonNegativeAppends(tally.schedulerLag, request.submittedAt - request.scheduledAt);
  }

  lemma SumsNonNegative(clients: seq<LoadClient>)
    ensures Sum(clients, Pending) >= 0 && Sum(clients, Measuring) >= 0
  {
    SumBoundsTerm(clients, 0, Pending);
    SumBoundsTerm(clients, 0, Measuring);
  }

  /** Everything sent was answered, and exactly the requests scheduled inside the measurement have their samples. */
  ghost predicate Settled(plan: Plan, sends: seq<Send>, tally: Tally) {
    && tally.completed == tally.accepted == |sends|
    && |tally.roundTrips| == |tally.serverProcessing| == |tally.schedulerLag| == CountMeasured(plan, sends)
    && AllNonNegative(tally.roundTrips) && AllNonNegative(tally.serverProcessing) && AllNonNegative(tally.schedulerLag)
    && tally.sendRejected == 0 && tally.timeout == 0 && tally.unexpectedDisconnect == 0
  }

  lemma AllMeasuredSampled(plan: Plan, clients: seq<LoadClient>, sends: seq<Send>, tally: Tally)
    requires TallySound(plan, clients, sends, tally) && tally.accepted == tally.completed
    ensures Settled(plan, sends, tally)
  {
    forall i | 0 <= i < |clients|
      ensures Measuring(clients[i]) == 0
    {
      SumBoundsTerm(clients, i, Pending);
    }
    SumWhenZero(clients, Measuring);
  }

  // ---------- Slots before the end ----------

  /** How many slots of the grid lie before the end of the measurement. */
  function SlotsInPlan(plan: Plan): nat
    requires plan.Valid()
  {
    if plan.measurementEnd <= plan.start then 0
    else (plan.measurementEnd - plan.start + plan.interval - 1) / plan.interval
  }

  /** Rounding up: the quotient counts the multiples below the span. */
  lemma RoundedUp(span: int, interval: int, slot: nat)
    requires span > 0 && interval > 0
    ensures slot < (span + interval - 1) / interval <==> slot * interval < span
  {
    var n := (span + interval - 1) / interval;
    assert span + interval - 1 == n * interval + (span + interval - 1) % interval;
    if slot < n {
      Ascend(slot + 1, n, interval);
      Distribute(slot, 1, interval);
    } else {
      Ascend(n, slot, interval);
    }
  }

  lemma SlotIsInPlanIff(plan: Plan, slot: nat)
    requires plan.Valid()
    ensures slot < SlotsInPlan(plan) <==> plan.SlotTime(slot) < plan.measurementEnd
  {
    if plan.start < plan.measurementEnd {
      plan.SlotTimeIs(slot);
      RoundedUp(plan.measurementEnd - plan.start, plan.interval, slot);
    } else {
      SlotTimeAtLeast(plan, slot);
    }
  }
}
