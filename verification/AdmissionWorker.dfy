/** The bounded admission worker (cmd/agentctl/admission_worker.go): concurrent dispatches that
    report over two buffered channels, consumed in batches with maintenance in between. */
module AdmissionWorker {
  import opened Outcomes
  import opened Scheduling

  /** Milliseconds. */
  type Time = int

  const SIBLING_DELAY: Time := 250

  datatype Outcome = NoCandidate | RetryWait | RetryScheduled | Other

  /** What a dispatch reports; `noEligible` is a queue decision for want of an eligible candidate. */
  datatype Cycle = Cycle(outcome: Outcome, noEligible: bool, wake: Option<Time>, retryEvidence: bool) {
    predicate Idle() {
      outcome.NoCandidate? || noEligible
    }

    predicate Retry() {
      outcome.RetryWait? || outcome.RetryScheduled?
    }
  }

  datatype End = InvalidConfiguration | Canceled | Once | DispatchFailed(error: nat) | ObserveFailed | EvidenceMissing

  // ---------------------------------------------------------------- cadence

  /** What the worker does and what it is told: a booked report, a failed dispatch, a report dropped while
      the worker leaves, and how long it sleeps while something is buffered or not. */
  datatype Event =
    | Batch(at: Time)
    | Reported(at: Time, cycle: Cycle)
    | Failed(error: nat)
    | Discarded(dropped: Option<nat>)
    | Maintained
    | WakeDue(at: Time)
    | Slept(at: Time, buffered: bool, delay: Time)

  /** `last` is the report booked since the worker last slept, `error` the first error any dispatch
      reported, `failed` whether the worker took one as its reason to leave. */
  datatype Shape = Shape(outstanding: nat, owed: bool, closing: bool, idleAt: Option<Time>, wake: Option<Time>,
    granted: Option<Time>, last: Option<Cycle>, error: Option<nat>, failed: bool)

  const START := Shape(0, false, false, None, None, None, None, None, false)

  function Earliest(a: Option<Time>, b: Option<Time>): Option<Time> {
    if a.None? then b
    else if b.None? || a.value <= b.value then a
    else b
  }

  predicate MayStart(s: Shape, at: Time, poll: Time) {
    s.idleAt.None? || at >= s.idleAt.value + poll || s.granted == Some(at)
  }

  function Least(a: Time, b: Time): Time {
    if a <= b then a else b
  }

  /** How long the worker rests after a report: not at all while there is more to do, no longer than to the
      next wake, than a quarter second while siblings run, and than the poll interval. */
  function RestFor(s: Shape, at: Time, buffered: bool, poll: Time): Time
    requires s.last.Some?
  {
    if s.granted == Some(at) || s.last.value.Retry() || buffered then 0
    else
      var longest := if s.outstanding > 0 then Least(poll, SIBLING_DELAY) else poll;
      if s.wake.Some? then Least(longest, s.wake.value - at) else longest
  }

  /** Before the next admission scan, with nothing buffered and no wake due, it sleeps up to the scan, in
      quarter seconds while siblings run. */
  predicate ScanAhead(s: Shape, at: Time, buffered: bool, poll: Time) {
    && !buffered && s.granted != Some(at) && !(s.wake.Some? && s.wake.value <= at)
    && s.idleAt.Some? && at < s.idleAt.value + poll
  }

  function ScanIn(s: Shape, at: Time, poll: Time): Time
    requires s.idleAt.Some?
  {
    var ahead := s.idleAt.value + poll - at;
    if s.outstanding > 0 then Least(ahead, SIBLING_DELAY) else ahead
  }

  predicate MaySleep(s: Shape, at: Time, buffered: bool, delay: Time, poll: Time) {
    && !s.closing && !(s.owed && s.outstanding == 0)
    && if s.last.Some? then
         && (s.last.value.Retry() ==> s.last.value.retryEvidence)
         && !(s.wake.Some? && s.wake.value <= at)
         && delay == RestFor(s, at, buffered, poll)
       else ScanAhead(s, at, buffered, poll) && delay == ScanIn(s, at, poll)
  }

  /** The cadence the worker must keep: a batch starts only when nothing is outstanding, no maintenance is
      owed and, after an idle outcome, not before the poll interval has passed unless a reported wake has
      just come due; after every report it sleeps, for exactly as long as it should. */
  function Step(s: Shape, e: Event, capacity: nat, poll: Time): Option<Shape> {
    match e
    case Batch(at) =>
      if s.outstanding == 0 && !s.owed && !s.closing && s.last.None? && MayStart(s, at, poll) then
        Some(s.(outstanding := capacity, granted := None))
      else None
    case Reported(at, cycle) =>
      if s.outstanding > 0 && !s.closing && s.last.None? then
        Some(s.(outstanding := s.outstanding - 1, owed := true, idleAt := if cycle.Idle() then Some(at) else None,
          wake := Earliest(s.wake, cycle.wake), granted := None, last := Some(cycle)))
      else None
    case Failed(error) =>
      if s.outstanding > 0 && !s.closing && s.last.None? then
        Some(s.(outstanding := s.outstanding - 1, closing := true, granted := None, failed := true,
          error := if s.error.Some? then s.error else Some(error)))
      else None
    case Discarded(error) =>
      if s.outstanding > 0 then
        Some(s.(outstanding := s.outstanding - 1, closing := true, granted := None,
          error := if s.error.Some? then s.error else error))
      else None
    case Maintained =>
      if s.outstanding == 0 && s.owed && s.error.None? then Some(s.(owed := false, granted := None)) else None
    case WakeDue(at) =>
      if s.wake.Some? && s.wake.value <= at && !s.closing then Some(s.(wake := None, granted := Some(at))) else None
    case Slept(at, buffered, delay) =>
      if MaySleep(s, at, buffered, delay, poll) then Some(s.(granted := None, last := None)) else None
  }

  function Follow(trace: seq<Event>, capacity: nat, poll: Time): Option<Shape> {
    if trace == [] then Some(START)
    else
      var before := Follow(trace[..|trace| - 1], capacity, poll);
      if before.None? then None else Step(before.value, trace[|trace| - 1], capacity, poll)
  }

  lemma FollowNext(trace: seq<Event>, e: Event, capacity: nat, poll: Time)
    requires Follow(trace, capacity, poll).Some?
    ensures Follow(trace + [e], capacity, poll) == Step(Follow(trace, capacity, poll).value, e, capacity, poll)
  {
    assert (trace + [e])[..|trace|] == trace;
  }

  lemma {:induction false} FollowPrefix(trace: seq<Event>, k: nat, capacity: nat, poll: Time)
    requires k <= |trace| && Follow(trace, capacity, poll).Some?
    ensures Follow(trace[..k], capacity, poll).Some?
  {
    if k < |trace| {
      FollowPrefix(trace[..|trace| - 1], k, capacity, poll);
      assert trace[..|trace| - 1][..k] == trace[..k];
    } else {
      assert trace[..k] == trace;
    }
  }

  function Batches(trace: seq<Event>): nat {
    if trace == [] then 0 else Batches(trace[..|trace| - 1]) + if trace[|trace| - 1].Batch? then 1 else 0
  }

  function Settlements(trace: seq<Event>): nat {
    if trace == [] then 0
    else
      var last := trace[|trace| - 1];
      Settlements(trace[..|trace| - 1]) + if last.Reported? || last.Failed? || last.Discarded? then 1 else 0
  }

  function Maintenances(trace: seq<Event>): nat {
    if trace == [] then 0 else Maintenances(trace[..|trace| - 1]) + if trace[|trace| - 1].Maintained? then 1 else 0
  }

  /** The same batches and maintenances, whatever else happened. */
  ghost predicate SameCounts(before: seq<Event>, after: seq<Event>) {
    Batches(after) == Batches(before) && Maintenances(after) == Maintenances(before)
  }

  lemma CountNext(trace: seq<Event>, e: Event)
    ensures Batches(trace + [e]) == Batches(trace) + if e.Batch? then 1 else 0
    ensures Maintenances(trace + [e]) == Maintenances(trace) + if e.Maintained? then 1 else 0
  {
    assert (trace + [e])[..|trace|] == trace;
  }

  /** Every dispatch of every batch is settled exactly once, and maintenance keeps pace with batches. */
  lemma {:induction false} Balanced(trace: seq<Event>, capacity: nat, poll: Time)
    requires capacity >= 1 && Follow(trace, capacity, poll).Some?
    ensures var s := Follow(trace, capacity, poll).value;
      && Batches(trace) * capacity == Settlements(trace) + s.outstanding
      && s.outstanding <= capacity
      && (!s.closing ==> Batches(trace) == Maintenances(trace) + if s.outstanding > 0 || s.owed then 1 else 0)
      && (!s.closing && s.outstanding == 0 ==> (s.owed <==> Batches(trace) > Maintenances(trace)))
      && (!s.closing && 0 < s.outstanding < capacity ==> s.owed)
      && (!s.closing && s.owed ==> s.outstanding < capacity)
  {
    if trace != [] {
      Balanced(trace[..|trace| - 1], capacity, poll);
    }
  }

  /** When a batch starts, every dispatch before it is settled and no maintenance is owed. */
  lemma SettledBeforeBatch(trace: seq<Event>, k: nat, capacity: nat, poll: Time)
    requires capacity >= 1 && Follow(trace, capacity, poll).Some? && k < |trace| && trace[k].Batch?
    ensures Settlements(trace[..k]) == Batches(trace[..k]) * capacity
    ensures Maintenances(trace[..k]) == Batches(trace[..k])
  {
    FollowPrefix(trace, k + 1, capacity, poll);
    FollowPrefix(trace, k, capacity, poll);
    assert trace[..k + 1][..k] == trace[..k];
    Balanced(trace[..k], capacity, poll);
  }

  /** Between two consecutive batches every dispatch of the first is settled and maintenance runs
      exactly once. */
  lemma BetweenBatches(trace: seq<Event>, i: nat, j: nat, capacity: nat, poll: Time)
    requires capacity >= 1 && Follow(trace, capacity, poll).Some?
    requires i < j < |trace| && trace[i].Batch? && trace[j].Batch?
    requires Batches(trace[..j]) == Batches(trace[..i]) + 1
    ensures Settlements(trace[..j]) == Settlements(trace[..i]) + capacity
    ensures Maintenances(trace[..j]) == Maintenances(trace[..i]) + 1
  {
    hide Follow, Batches, Settlements, Maintenances;
    SettledBeforeBatch(trace, i, capacity, poll);
    SettledBeforeBatch(trace, j, capacity, poll);
    var b := Batches(trace[..i]);
    assert (b + 1) * capacity == b * capacity + capacity;
  }

  /** The state an idle outcome leaves lasts until the next outcome. */
  lemma {:induction false} IdleLasts(trace: seq<Event>, i: nat, capacity: nat, poll: Time)
    requires Follow(trace, capacity, poll).Some? && i < |trace|
    requires trace[i].Reported? && trace[i].cycle.Idle()
    requires forall k :: i < k < |trace| ==> !trace[k].Reported?
    ensures Follow(trace, capacity, poll).value.idleAt == Some(trace[i].at)
  {
    if i < |trace| - 1 {
      IdleLasts(trace[..|trace| - 1], i, capacity, poll);
    }
  }

  /** Nothing to dispatch: no candidate at all, or none that is eligible. */
  predicate Fruitless(cycle: Cycle) {
    cycle.outcome == NoCandidate || cycle.noEligible
  }

  /** If a batch's last outcome was idle, the next batch starts no earlier than the poll interval
      after it, unless a wake that some outcome reported has come due at that very moment. */
  lemma IdleBatchWaits(trace: seq<Event>, i: nat, j: nat, capacity: nat, poll: Time)
    requires Follow(trace, capacity, poll).Some? && i < j < |trace|
    requires trace[i].Reported? && Fruitless(trace[i].cycle) && trace[j].Batch?
    requires forall k :: i < k < j ==> !trace[k].Reported?
    ensures trace[j].at >= trace[i].at + poll || trace[j - 1] == WakeDue(trace[j].at)
  {
    FollowPrefix(trace, j + 1, capacity, poll);
    FollowPrefix(trace, j, capacity, poll);
    assert trace[..j + 1][..j] == trace[..j];
    IdleLasts(trace[..j], i, capacity, poll);
  }

  /** A wake comes due only if an outcome reported one for no later than that, and only once. */
  lemma {:induction false} WakesAreReported(trace: seq<Event>, capacity: nat, poll: Time)
    requires Follow(trace, capacity, poll).Some?
    ensures var wake := Follow(trace, capacity, poll).value.wake;
      wake.Some? ==> exists i :: 0 <= i < |trace| && trace[i].Reported? && trace[i].cycle.wake == wake
                                 && forall k :: i < k < |trace| ==> !trace[k].WakeDue?
  {
    hide MayStart;
    if trace != [] {
      var front := trace[..|trace| - 1];
      WakesAreReported(front, capacity, poll);
      var wake := Follow(trace, capacity, poll).value.wake;
      if wake.Some? && wake == Follow(front, capacity, poll).value.wake {
        var i :| 0 <= i < |front| && front[i].Reported? && front[i].cycle.wake == wake
          && forall k :: i < k < |front| ==> !front[k].WakeDue?;
        assert trace[i].Reported?;
      } else if wake.Some? {
        assert trace[|trace| - 1].Reported?;
      }
    }
  }

  /** And it is the earliest one reported since a wake last came due. */
  lemma {:induction false} EarliestPending(trace: seq<Event>, i: nat, capacity: nat, poll: Time)
    requires Follow(trace, capacity, poll).Some? && i < |trace|
    requires trace[i].Reported? && trace[i].cycle.wake.Some?
    requires forall k :: i < k < |trace| ==> !trace[k].WakeDue?
    ensures var wake := Follow(trace, capacity, poll).value.wake;
      wake.Some? && wake.value <= trace[i].cycle.wake.value
  {
    hide MayStart, MaySleep;
    if i < |trace| - 1 {
      EarliestPending(trace[..|trace| - 1], i, capacity, poll);
    }
  }

  /** After a retry the next repository gets its turn at once. */
  lemma RetriesDoNotSleep(s: Shape, at: Time, buffered: bool, delay: Time, poll: Time)
    requires MaySleep(s, at, buffered, delay, poll) && s.last.Some?
    ensures s.last.value.outcome in {RetryWait, RetryScheduled} ==> delay == 0 && s.last.value.retryEvidence
    ensures buffered ==> delay == 0
  {
  }

  /** Every sleep ends by the poll interval, by the next wake or scan and, while siblings run, within a
      quarter second; it is as long as that allows, and none at all only if there is something to do. */
  lemma SleepsAsItMay(s: Shape, at: Time, buffered: bool, delay: Time, poll: Time)
    requires MaySleep(s, at, buffered, delay, poll) && poll > 0 && (s.idleAt.Some? ==> s.idleAt.value <= at)
    ensures 0 <= delay <= poll && (s.outstanding > 0 ==> delay <= SIBLING_DELAY)
    ensures !s.closing && !(s.owed && s.outstanding == 0)
    ensures s.wake.Some? ==> if s.last.None? then !buffered && at < s.wake.value else at + delay <= s.wake.value
    ensures s.last.None? ==> !buffered && s.granted != Some(at)
    ensures s.last.None? ==> at < at + delay <= s.idleAt.value + poll
    ensures delay == 0 ==>
      buffered || s.last.value.outcome in {RetryWait, RetryScheduled} || s.granted == Some(at)
    ensures delay == 0 || delay == poll || (s.outstanding > 0 && delay == SIBLING_DELAY) || s.wake == Some(at + delay)
            || (s.last.None? && at + delay == s.idleAt.value + poll)
  {
  }

  lemma {:induction false} UnsleptKeeps(trace: seq<Event>, i: nat, capacity: nat, poll: Time)
    requires Follow(trace, capacity, poll).Some? && i < |trace| && trace[i].Reported?
    requires forall k :: i < k < |trace| ==> !trace[k].Slept?
    ensures Follow(trace, capacity, poll).value.last.Some?
  {
    if i < |trace| - 1 {
      UnsleptKeeps(trace[..|trace| - 1], i, capacity, poll);
    }
  }

  /** Between one report and the next, or the next batch, the worker sleeps. */
  lemma SleepsInBetween(trace: seq<Event>, i: nat, j: nat, capacity: nat, poll: Time)
    requires Follow(trace, capacity, poll).Some? && i < j < |trace|
    requires trace[i].Reported? && (trace[j].Reported? || trace[j].Failed? || trace[j].Batch?)
    ensures exists k :: i < k < j && trace[k].Slept?
  {
    if forall k :: i < k < j ==> !trace[k].Slept? {
      FollowPrefix(trace, j + 1, capacity, poll);
      FollowPrefix(trace, j, capacity, poll);
      assert trace[..j + 1][..j] == trace[..j];
      UnsleptKeeps(trace[..j], i, capacity, poll);
      assert false;
    }
  }

  // ---------------------------------------------------------------- the worker

  class Worker {
    const capacity: nat
    const poll: Time
    var active: nat
    var running: nat
    var results: seq<Cycle>
    /** Each buffered error, by identity. */
    var errors: seq<nat>
    var clock: Time
    var cancelled: bool
    var nextWake: Option<Time>
    var nextAdmissionScan: Option<Time>
    var maintenancePending: bool
    ghost var trace: seq<Event>
    /** Publishing the worker's status has failed. */
    ghost var unobserved: bool

    /** Every active dispatch is running or has a buffered report, and never more than the capacity. */
    predicate Accounted()
      reads this
    {
      active == running + |results| + |errors| <= capacity
    }

    ghost predicate Valid()
      reads this
    {
      && 1 <= capacity && poll > 0
      && Accounted()
      && Follow(trace, capacity, poll).Some?
      && Follow(trace, capacity, poll).value.outstanding == active
      && Follow(trace, capacity, poll).value.wake == nextWake
      && Follow(trace, capacity, poll).value.owed == maintenancePending
    }

    ghost function Now(): Shape
      requires Valid()
      reads this
    {
      Follow(trace, capacity, poll).value
    }

    /** The worker has no reason to leave yet. */
    ghost predicate Open()
      requires Valid()
      reads this
    {
      !Now().closing && Now().error.None? && !Now().failed && !unobserved
    }

    /** The next admission scan is due a poll interval after an idle outcome, and at once otherwise. */
    ghost predicate ScanIsDue()
      requires Valid()
      reads this
    {
      nextAdmissionScan == if Now().idleAt.Some? then Some(Now().idleAt.value + poll) else None
    }

    /** Within a turn, before its report: maintenance is pending exactly while something is outstanding. */
    ghost predicate Turning()
      reads this
    {
      Valid() && Open() && ScanIsDue() && (maintenancePending <==> active > 0) && Now().last.None?
    }

    /** Between two turns. */
    ghost predicate Ready()
      reads this
    {
      Turning() && Now().granted.None?
    }

    /** Nothing outstanding: no dispatch runs and both channels are empty. */
    predicate Quiescent()
      reads this
    {
      active == running == 0 && results == [] && errors == []
    }

    /** newBoundedAdmissionWorker. */
    constructor (capacity: nat, poll: Time, clock: Time)
      requires 1 <= capacity && poll > 0
      ensures Ready() && Quiescent() && this.capacity == capacity && this.poll == poll
      ensures trace == [] && this.clock == clock && !cancelled && nextWake.None? && nextAdmissionScan.None?
    {
      this.capacity, this.poll := capacity, poll;
      active, running, results, errors := 0, 0, [], [];
      this.clock, cancelled, unobserved := clock, false, false;
      nextWake, nextAdmissionScan, maintenancePending := None, None, false;
      trace := [];
    }

    // ------------------------------------------------------------ the dispatches

    /** A dispatch ends and sends its report. The channel has room, so the send never blocks. */
    method Complete()
      requires Accounted() && running > 0
      modifies this`running, this`results, this`errors
      ensures old(|results|) < capacity && old(|errors|) < capacity
      ensures Accounted() && running == old(running) - 1
    {
      running := running - 1;
      if * {
        var c: Cycle := *;
        results := results + [c];
      } else {
        var e: nat := *;
        errors := errors + [e];
      }
    }

    /** What the dispatches and the caller do while this goroutine is between two of its steps. */
    method Interleave()
      requires Accounted()
      modifies this`running, this`results, this`errors, this`clock, this`cancelled
      ensures Accounted() && clock >= old(clock) && (old(cancelled) ==> cancelled)
      ensures running <= old(running)
    {
      var ends: nat := *;
      while ends > 0 && running > 0
        invariant Accounted() && running <= old(running) && clock == old(clock) && cancelled == old(cancelled)
      {
        Complete();
        ends := ends - 1;
      }
      var later: Time := *;
      if later > clock {
        clock := later;
      }
      if * {
        cancelled := true;
      }
    }

    /** Blocks until something is buffered. Something is outstanding, so a dispatch will end. */
    method Await()
      requires Accounted() && active > 0
      modifies this`running, this`results, this`errors
      ensures Accounted() && |results| + |errors| > 0
    {
      while |results| + |errors| == 0
        invariant Accounted()
        decreases running
      {
        Complete();
      }
    }

    /** What the worker does is recorded as it finds things: it books and fails on reports only while it is
        not cancelled, and what it says of the time and of its buffers is so. */
    ghost predicate Honest(e: Event)
      reads this
    {
      match e
      case Reported(at, _) => !cancelled && at == clock
      case Failed(_) => !cancelled
      case WakeDue(at) => at <= clock
      case Slept(at, buffered, _) => at <= clock && (buffered <==> |results| + |errors| > 0)
      case _ => true
    }

    ghost method Record(e: Event)
      requires Honest(e)
      requires Follow(trace, capacity, poll).Some? && Step(Follow(trace, capacity, poll).value, e, capacity, poll).Some?
      modifies this`trace
      ensures trace == old(trace) + [e] && Batches(trace) == Batches(old(trace)) + (if e.Batch? then 1 else 0)
      ensures Maintenances(trace) == Maintenances(old(trace)) + if e.Maintained? then 1 else 0
      ensures Follow(trace, capacity, poll) == Step(old(Follow(trace, capacity, poll).value), e, capacity, poll)
    {
      FollowNext(trace, e, capacity, poll);
      CountNext(trace, e);
      trace := trace + [e];
    }

    // ------------------------------------------------------------ the supervisor's steps

    /** Takes one report off a channel. */
    method Receive() returns (r: Reply<Cycle, nat>)
      requires Accounted() && |results| + |errors| > 0
      modifies this`results, this`errors, this`active
      ensures Accounted() && active == old(active) - 1 && running == old(running) && !r.Stopped?
      ensures r.Ok? ==>
        old(results) != [] && r.value == old(results)[0] && results == old(results)[1..] && errors == old(errors)
      ensures r.Err? ==>
        old(errors) != [] && r.error == old(errors)[0] && errors == old(errors)[1..] && results == old(results)
    {
      var takeError := *;
      if errors != [] && (takeError || results == []) {
        r := Err(errors[0]);
        errors := errors[1..];
      } else {
        r := Ok(results[0]);
        results := results[1..];
      }
      active := active - 1;
    }

    /** drainWithError: waits for every dispatch still active, and reports the first error. */
    method Drain() returns (firstError: Option<nat>)
      requires Valid()
      modifies this
      ensures Valid() && Quiescent()
      ensures (maintenancePending, nextWake, nextAdmissionScan)
        == old((maintenancePending, nextWake, nextAdmissionScan))
      ensures SameCounts(old(trace), trace) && unobserved == old(unobserved)
      ensures clock >= old(clock) && (old(cancelled) ==> cancelled)
      // Nothing but reports is dropped, and the first error among them is the one reported.
      ensures Dropped(old(Now()), Now(), firstError)
    {
      hide Batches, Maintenances;
      firstError := None;
      while active > 0
        invariant Valid()
        invariant (maintenancePending, nextWake, nextAdmissionScan)
          == old((maintenancePending, nextWake, nextAdmissionScan))
        invariant SameCounts(old(trace), trace) && unobserved == old(unobserved)
        invariant clock >= old(clock) && (old(cancelled) ==> cancelled)
        invariant Dropped(old(Now()), Now(), firstError)
      {
        Interleave();
        Await();
        var r := Receive();
        Record(Discarded(if r.Err? then Some(r.error) else None));
        if r.Err? && firstError.None? {
          firstError := Some(r.error);
        }
      }
    }

    /** Dropping reports changes nothing but what is outstanding and which error came first. */
    ghost predicate Dropped(s: Shape, t: Shape, firstError: Option<nat>) {
      && (t.outstanding < s.outstanding ==> t.closing)
      && t == s.(outstanding := t.outstanding, closing := t.closing, granted := t.granted,
           error := if s.error.Some? then s.error else firstError)
      && (t.outstanding == s.outstanding ==> t == s)
    }

    ghost predicate CanStart(now: Time)
      requires Valid()
      reads this
    {
      var s := Follow(trace, capacity, poll).value;
      active == 0 && !maintenancePending && !s.closing && s.last.None? && MayStart(s, now, poll)
    }

    /** What only the bookkeeping of reports and wakes changes. */
    twostate predicate SameCadence()
      reads this
    {
      && (maintenancePending, nextWake, nextAdmissionScan) == old((maintenancePending, nextWake, nextAdmissionScan))
      && clock >= old(clock) && (old(cancelled) ==> cancelled) && unobserved == old(unobserved)
    }

    /** fill: starts dispatches up to the capacity, unless a report is still buffered. */
    method Fill(now: Time)
      requires Valid() && (|results| + |errors| == 0 ==> CanStart(now))
      modifies this
      ensures Valid() && active > 0 && SameCadence()
      ensures old(|results| + |errors|) == 0 ==> active == capacity && trace == old(trace) + [Batch(now)]
      ensures old(|results| + |errors|) > 0 ==> trace == old(trace)
    {
      if |results| + |errors| > 0 {
        return;
      }
      Record(Batch(now));
      while active < capacity
        invariant Accounted() && trace == old(trace) + [Batch(now)] && SameCadence()
      {
        active, running := active + 1, running + 1;
        Interleave();
      }
    }

    /** fillReady. */
    method FillReady(now: Time, notBefore: Option<Time>)
      requires Valid()
      requires if notBefore.Some? && now < notBefore.value then active > 0
               else |results| + |errors| == 0 ==> CanStart(now)
      modifies this
      ensures Valid() && active > 0 && SameCadence()
      ensures trace == old(trace) || trace == old(trace) + [Batch(now)]
      ensures old(|results| + |errors|) == 0 && (notBefore.None? || now >= notBefore.value) ==>
        trace == old(trace) + [Batch(now)]
    {
      if notBefore.Some? && now < notBefore.value {
        return;
      }
      Fill(now);
    }

    /** next: the next report, unless the context is cancelled first. Something is outstanding, so it
        never waits for nothing. */
    method Next() returns (r: Reply<Cycle, nat>)
      requires Accounted() && active > 0
      modifies this`running, this`results, this`errors, this`clock, this`cancelled, this`active
      ensures Accounted() && SameCadence()
      ensures r.Stopped? ==> cancelled && active == old(active)
      ensures old(cancelled) ==> cancelled
      ensures !r.Stopped? ==> active == old(active) - 1
    {
      Interleave();
      var preferCancelled := *;
      if cancelled && preferCancelled {
        return Stopped;
      }
      Await();
      r := Receive();
      Interleave();
    }

    /** joinDispatches: afterwards no dispatch is left running. */
    method Join()
      requires Valid()
      modifies this
      ensures Valid() && Quiescent()
      ensures SameCounts(old(trace), trace) && unobserved == old(unobserved) && (old(cancelled) ==> cancelled)
      ensures Now().failed == old(Now()).failed && Now().last == old(Now()).last
    {
      var _ := Drain();
    }

    /** Publishing the worker's status, which may fail. */
    method Publish() returns (failed: bool)
      requires !unobserved
      modifies this`unobserved
      ensures unobserved == failed
    {
      failed := *;
      unobserved := failed;
    }

    /** Why the worker leaves, and that it really is why. */
    ghost predicate Explains(end: End)
      requires Valid()
      reads this
    {
      && (unobserved <==> end == ObserveFailed)
      && match end
         case Canceled => cancelled && !Now().failed
         case DispatchFailed(error) => Now().error == Some(error)
         case EvidenceMissing => !Now().failed && Flawed(Now())
         case ObserveFailed => !Now().failed
         case Once => Now().error.None? && !Now().failed
         case InvalidConfiguration => false
    }

    /** The report booked last asks for a retry of which no eligibility is on record. */
    predicate Flawed(s: Shape) {
      && s.last.Some? && s.last.value.outcome in {RetryWait, RetryScheduled} && !s.last.value.retryEvidence
    }

    /** Leaving because the context is cancelled. */
    method Stop() returns (end: End)
      requires Valid() && cancelled && !unobserved && !Now().failed
      modifies this
      ensures Valid() && Quiescent() && Explains(end) && (end == Canceled || end == ObserveFailed) && cancelled
      ensures SameCounts(old(trace), trace)
    {
      Join();
      var failed := Publish();
      return if failed then ObserveFailed else Canceled;
    }

    // ------------------------------------------------------------ the loop

    /** The wake check at the head of a turn. */
    method TakeDueWake(now: Time) returns (due: bool)
      requires Ready() && now <= clock
      modifies this`nextWake, this`trace
      ensures Turning() && due == (old(nextWake).Some? && old(nextWake).value <= now)
      ensures due ==> nextWake.None? && Now().granted == Some(now) && trace == old(trace) + [WakeDue(now)]
      ensures !due ==> Now().granted.None? && nextWake == old(nextWake) && trace == old(trace)
      ensures SameCounts(old(trace), trace)
    {
      due := nextWake.Some? && nextWake.value <= now;
      if due {
        Record(WakeDue(now));
        nextWake := None;
      }
    }

    /** One report, booked; or the reason to leave, with every dispatch joined. */
    method TakeReport(once: bool) returns (r: Reply<Cycle, End>)
      requires Valid() && Open() && active > 0 && Now().last.None?
      modifies this
      ensures Valid() && !r.Stopped? && SameCounts(old(trace), trace)
      ensures r.Err? ==> Quiescent() && Explains(r.error)
      // A failed dispatch, unless the context was cancelled first, is the reason and nothing else is.
      ensures r.Err? && !r.error.DispatchFailed? ==> r.error == Canceled || r.error == ObserveFailed
      ensures r.Err? && r.error.DispatchFailed? <==> Now().failed
      ensures r.Ok? ==> Open() && maintenancePending && Now().last == Some(r.value) && Now().granted.None?
      ensures r.Ok? ==> if once then nextAdmissionScan.None? else ScanIsDue()
    {
      hide Follow;
      hide Batches, Maintenances;
      var next := Next();
      if cancelled {
        if !next.Stopped? {
          Record(Discarded(if next.Err? then Some(next.error) else None));
        }
        var end := Stop();
        return Err(end);
      }
      if next.Err? {
        Record(Failed(next.error));
        var _ := Drain();
        return Err(DispatchFailed(next.error));
      }
      var cycle := next.value;
      Record(Reported(clock, cycle));
      maintenancePending := true;
      nextAdmissionScan := if !once && cycle.Idle() then Some(clock + poll) else None;
      nextWake := Earliest(nextWake, cycle.wake);
      return Ok(cycle);
    }

    /** Maintenance, once the batch is through. */
    method Rest()
      requires Valid() && Open() && ScanIsDue() && maintenancePending && Now().last.Some? && Now().granted.None?
      modifies this
      ensures Valid() && Open() && ScanIsDue() && (maintenancePending <==> active > 0)
      ensures Now().last == old(Now()).last && Now().granted.None?
      ensures if old(active) == 0 then trace == old(trace) + [Maintained] else trace == old(trace)
    {
      if active == 0 && |results| + |errors| == 0 {
        Record(Maintained);
        maintenancePending := false;
        Interleave();
      }
    }

    /** How long the worker sleeps after a report, forgetting a wake that has come due meanwhile: for as
        long as it may. */
    method Delay(cycle: Cycle) returns (delay: Time)
      requires Valid() && Open() && ScanIsDue() && (maintenancePending <==> active > 0)
      requires Now().last == Some(cycle) && Now().granted.None?
      modifies this`nextWake, this`trace
      ensures Valid() && Open() && ScanIsDue() && Now().last == Some(cycle)
      ensures SameCounts(old(trace), trace)
      ensures delay == RestFor(Now(), clock, |results| + |errors| > 0, poll)
      ensures !(nextWake.Some? && nextWake.value <= clock)
    {
      delay := poll;
      if cycle.Retry() || |results| + |errors| > 0 {
        delay := 0;
      } else if active > 0 && delay > SIBLING_DELAY {
        delay := SIBLING_DELAY;
      }
      if nextWake.Some? {
        var remaining := nextWake.value - clock;
        if remaining <= 0 {
          Record(WakeDue(clock));
          nextWake := None;
          delay := 0;
        } else if remaining < delay {
          delay := remaining;
        }
      }
    }

    /** wait: time passes; it fails when the context is cancelled. */
    method Wait(now: Time, delay: Time) returns (done: Option<End>)
      requires Valid() && Open() && ScanIsDue() && (maintenancePending <==> active > 0) && now <= clock
      requires MaySleep(Now(), now, |results| + |errors| > 0, delay, poll)
      modifies this
      ensures done != Some(Once) && SameCounts(old(trace), trace)
      ensures done.None? ==> Ready() && trace == old(trace) + [Slept(now, old(|results| + |errors|) > 0, delay)]
      ensures done.Some? ==> Valid() && Quiescent() && Explains(done.value) && cancelled
    {
      Record(Slept(now, |results| + |errors| > 0, delay));
      Interleave();
      if cancelled {
        var end := Stop();
        return Some(end);
      }
      return None;
    }

    /** One iteration of the loop. Some: why the worker returns, with no dispatch left running. */
    method Turn(once: bool) returns (done: Option<End>)
      requires Ready()
      modifies this
      // The first turn of a run that is to take only one finishes it.
      ensures once && old(trace) == [] ==> done.Some?
      ensures done == Some(Once) ==> once
      ensures done == Some(Once) && old(trace) == [] ==> Batches(trace) == 1 && Maintenances(trace) == 1
      ensures done.None? ==> Ready()
      ensures done.Some? ==> Valid() && Quiescent() && Explains(done.value)
    {
      var now := clock;
      var due := TakeDueWake(now);
      Interleave();
      if |results| + |errors| == 0 && !due && nextAdmissionScan.Some? && now < nextAdmissionScan.value {
        var delay := nextAdmissionScan.value - now;
        done := Wait(now, if active > 0 && delay > SIBLING_DELAY then SIBLING_DELAY else delay);
        return;
      }
      done := Dispatch(once, now, due);
    }

    /** The rest of an iteration that does not just wait for the next scan. */
    method Dispatch(once: bool, now: Time, due: bool) returns (done: Option<End>)
      requires Turning() && now <= clock
      requires due ==> Now().granted == Some(now)
      requires !due && nextAdmissionScan.Some? && now < nextAdmissionScan.value ==> active > 0
      modifies this
      ensures once ==> done.Some?
      ensures done == Some(Once) ==> once && Maintenances(trace) == Maintenances(old(trace)) + 1
      ensures done == Some(Once) && !old(maintenancePending) ==> Batches(trace) == Batches(old(trace)) + 1
      ensures done.None? ==> Ready()
      ensures done.Some? ==> Valid() && Quiescent() && Explains(done.value)
    {
      hide Batches, Maintenances;
      var failed := Publish();
      if failed {
        Join();
        return Some(ObserveFailed);
      }
      if !maintenancePending {
        FillReady(now, if due then None else nextAdmissionScan);
        CountNext(old(trace), Batch(now));
      }
      var cycle := TakeReport(once);
      if cycle.Err? {
        return Some(cycle.error);
      }
      done := Conclude(once, cycle.value);
    }

    method Conclude(once: bool, cycle: Cycle) returns (done: Option<End>)
      requires Valid() && Open() && maintenancePending && (!once ==> ScanIsDue())
      requires Now().last == Some(cycle) && Now().granted.None?
      modifies this
      ensures once ==> done.Some?
      ensures done == Some(Once) ==> once && Batches(trace) == Batches(old(trace))
      ensures done == Some(Once) ==> Maintenances(trace) == Maintenances(old(trace)) + 1
      ensures done.None? ==> Ready()
      ensures done.Some? ==> Valid() && Quiescent() && Explains(done.value)
    {
      hide Follow, Step, Batches, Maintenances;
      var failed := Publish();
      if failed {
        Join();
        return Some(ObserveFailed);
      }
      if once {
        done := FinishOnce();
        return;
      }
      Rest();
      if cycle.Retry() && !cycle.retryEvidence {
        Join();
        return Some(EvidenceMissing);
      }
      var delay := Delay(cycle);
      done := Wait(clock, delay);
    }

    method FinishOnce() returns (done: Option<End>)
      requires Valid() && maintenancePending && Open()
      modifies this
      ensures Valid() && Quiescent() && done.Some? && Explains(done.value)
      ensures done == Some(Once) ==> !maintenancePending && Batches(trace) == Batches(old(trace))
      ensures done == Some(Once) ==> Maintenances(trace) == Maintenances(old(trace)) + 1
      ensures done == Some(Once) || done.value.DispatchFailed?
    {
      var failed := Drain();
      if failed.Some? {
        return Some(DispatchFailed(failed.value));
      }
      Record(Maintained);
      maintenancePending := false;
      return Some(Once);
    }

    /** The whole run, up to any number of turns after which the caller cancels it. */
    method Run(once: bool, turns: nat) returns (end: End)
      requires Ready() && Quiescent() && trace == []
      modifies this
      ensures Valid() && Quiescent() && Explains(end)
      // A run that is to take one batch takes exactly one, with its maintenance.
      ensures end == Once ==> once && Batches(trace) == 1 && Maintenances(trace) == 1
    {
      var failed := Publish();
      if failed {
        return ObserveFailed;
      }
      for i := 0 to turns
        invariant Ready() && (once ==> trace == [])
      {
        Interleave();
        if cancelled {
          end := Stop();
          return;
        }
        var done := Turn(once);
        if done.Some? {
          return done.value;
        }
      }
      cancelled := true;
      end := Stop();
    }
  }

  /** runBoundedAdmissionWorkerAtObservedWithMaintenance: whatever the dispatches do and whenever it
      is cancelled, it keeps the cadence and returns its worker with no dispatch running. */
  method RunBoundedAdmissionWorker(once: bool, poll: Time, capacity: int, now: Time, turns: nat)
    returns (end: End, worker: Worker?)
    ensures worker != null <==> poll > 0 && 1 <= capacity <= MAX_HEAVY_CAPACITY + 1
    ensures worker == null ==> end == InvalidConfiguration
    ensures worker != null ==>
      && worker.capacity == capacity && worker.poll == poll && worker.Valid() && worker.Quiescent()
      && worker.Explains(end)
    ensures worker != null && end == Once ==> once && Batches(worker.trace) == 1 && Maintenances(worker.trace) == 1
  {
    if poll <= 0 || capacity < 1 || capacity > MAX_HEAVY_CAPACITY + 1 {
      return InvalidConfiguration, null;
    }
    worker := new Worker(capacity, poll, now);
    end := worker.Run(once, turns);
  }
}
