/** The delivery loop of one run: heavy-work permits, bounded immediate actions and waits
    (internal/application/driver.go). */
module ProductionDriver {
  import opened Outcomes

  /** A persisted run state, by identity. */
  type State = nat

  /** How a drive ends. */
  datatype End = InvalidInput | Canceled | Failed | Unauthorized | OwnerMissing | Unavailable | DurableStop
               | ExternalWait

  /** How an action came out: done, still waiting for something outside, retryable, or broken for good. */
  datatype Outcome = Done | Polls | Retries | Breaks

  /** What the drive does and what it is told. */
  datatype Event =
    | Rejected
    | Read(state: State)
    | Unread(cause: End)
    | Acquired
    | Denied
    | Unacquired
    | Released
    | ReleaseRefused
    | Evidence(kept: bool)
    | Acted(state: State, outcome: Outcome)
    | StopSeen(state: State)
    | NoStop
    | Announced(ok: bool)
    | Waited
    | WaitCut
    | Returned(end: End)

  /** Where in its loop the drive is. */
  datatype Phase =
    | Head
    | Asking(state: State)
    | Giving(state: State)
    | Checking(state: State)
    | Acting(state: State)
    | Noting(outcome: Outcome)
    | Broken
    | Stopping(state: State)
    | Denial
    | Resting
    | Rereading
    | Yielding
    | Leaving(end: End, tried: bool)
    | Over(end: End)

  datatype Shape = Shape(phase: Phase, held: bool, immediate: nat, sinceWait: nat)

  const START := Shape(Head, false, 0, 0)

  /** A scheduler may be wired, and its permits have a known owner; some states are heavy, some stop the
      drive; so many actions may follow each other; and the caller may not want to sit out waits. */
  datatype Rules = Rules(wired: bool, ownerKnown: bool, heavy: State -> bool, stops: State -> bool, limit: nat,
    impatient: bool)

  /** Before an action in a heavy state a permit is needed; in any other state it is given back. */
  function Decide(s: Shape, state: State, rules: Rules): Phase {
    if rules.heavy(state) && rules.wired then
      if !rules.ownerKnown then Leaving(OwnerMissing, false) else if s.held then Checking(state) else Asking(state)
    else if s.held then Giving(state)
    else Checking(state)
  }

  function Checked(s: Shape, state: State, rules: Rules): Phase {
    if rules.stops(state) then Stopping(state)
    else if s.immediate >= rules.limit then Resting
    else Acting(state)
  }

  function AfterAct(outcome: Outcome, rules: Rules): Phase {
    match outcome
    case Done => Noting(Done)
    case Polls => Noting(Polls)
    case Retries => if rules.impatient then Leaving(Unavailable, false) else Resting
    case Breaks => Broken
  }

  /** The one thing that may come next, or the few the outside may make of it. */
  function Move(s: Shape, e: Event, rules: Rules): Option<Phase> {
    match (s.phase, e)
    case (Head, Rejected) => Some(Leaving(InvalidInput, false))
    case (Head, Read(state)) => Some(Decide(s, state, rules))
    case (Head, Unread(cause)) =>
      if cause in {Canceled, Failed, Unauthorized} then Some(Leaving(cause, false)) else None
    case (Asking(state), Acquired) => Some(Checking(state))
    case (Asking(_), Denied) => Some(Denial)
    case (Asking(_), Unacquired) => Some(Leaving(Failed, false))
    case (Giving(state), Released) => Some(Checking(state))
    case (Giving(state), ReleaseRefused) => Some(Checking(state))
    case (Checking(state), Evidence(kept)) => Some(if kept then Checked(s, state, rules) else Leaving(Failed, false))
    case (Acting(state), Acted(at, outcome)) => if at == state then Some(AfterAct(outcome, rules)) else None
    case (Noting(outcome), Evidence(kept)) =>
      Some(if !kept then Leaving(Failed, false) else if outcome.Done? then Head
           else if rules.impatient then Rereading else Resting)
    case (Broken, StopSeen(state)) => if rules.stops(state) then Some(Stopping(state)) else None
    case (Broken, NoStop) => Some(Leaving(Failed, false))
    case (Stopping(_), Announced(ok)) => Some(Leaving(if ok then DurableStop else Failed, false))
    case (Denial, Waited) => Some(Head)
    case (Denial, WaitCut) => Some(Leaving(Canceled, false))
    case (Resting, Waited) => Some(Head)
    case (Resting, WaitCut) => Some(Leaving(Canceled, false))
    case (Rereading, Read(state)) =>
      Some(if s.held && !rules.heavy(state) then Yielding else Leaving(ExternalWait, false))
    case (Rereading, Unread(cause)) => if cause == Failed then Some(Leaving(Failed, false)) else None
    case (Yielding, Released) => Some(Leaving(ExternalWait, false))
    case (Yielding, ReleaseRefused) => Some(Leaving(ExternalWait, false))
    case (Leaving(end, tried), Released) => if s.held && !tried then Some(Leaving(end, true)) else None
    case (Leaving(end, tried), ReleaseRefused) => if s.held && !tried then Some(Leaving(end, true)) else None
    case (Leaving(end, tried), Returned(answer)) =>
      if answer == end && (!s.held || tried) then Some(Over(end)) else None
    case _ => None
  }

  function Step(s: Shape, e: Event, rules: Rules): Option<Shape> {
    match Move(s, e, rules)
    case None => None
    case Some(phase) =>
      Some(Shape(phase,
        if e.Acquired? then true else if e.Released? then false else s.held,
        if e.Acted? then s.immediate + 1 else if e.Waited? && s.phase.Resting? then 0 else s.immediate,
        if e.Acted? then s.sinceWait + 1 else if e.Waited? then 0 else s.sinceWait))
  }

  function Follow(trace: seq<Event>, rules: Rules): Option<Shape> {
    if trace == [] then Some(START)
    else
      var before := Follow(trace[..|trace| - 1], rules);
      if before.None? then None else Step(before.value, trace[|trace| - 1], rules)
  }

  lemma {:induction false} FollowPrefix(trace: seq<Event>, k: nat, rules: Rules)
    requires k <= |trace| && Follow(trace, rules).Some?
    ensures Follow(trace[..k], rules).Some?
  {
    if k < |trace| {
      FollowPrefix(trace[..|trace| - 1], k, rules);
      assert trace[..|trace| - 1][..k] == trace[..k];
    } else {
      assert trace[..k] == trace;
    }
  }

  lemma FollowTo(trace: seq<Event>, k: nat, rules: Rules)
    requires k < |trace| && Follow(trace, rules).Some?
    ensures Follow(trace[..k], rules).Some? && Follow(trace[..k + 1], rules).Some?
    ensures Follow(trace[..k + 1], rules) == Step(Follow(trace[..k], rules).value, trace[k], rules)
  {
    FollowPrefix(trace, k, rules);
    FollowPrefix(trace, k + 1, rules);
    assert trace[..k + 1][..k] == trace[..k];
  }

  function Acquisitions(trace: seq<Event>): nat {
    if trace == [] then 0 else Acquisitions(trace[..|trace| - 1]) + if trace[|trace| - 1].Acquired? then 1 else 0
  }

  function Releases(trace: seq<Event>): nat {
    if trace == [] then 0 else Releases(trace[..|trace| - 1]) + if trace[|trace| - 1].Released? then 1 else 0
  }

  function Actions(trace: seq<Event>): nat {
    if trace == [] then 0 else Actions(trace[..|trace| - 1]) + if trace[|trace| - 1].Acted? then 1 else 0
  }

  function Waits(trace: seq<Event>): nat {
    if trace == [] then 0 else Waits(trace[..|trace| - 1]) + if trace[|trace| - 1].Waited? then 1 else 0
  }

  function Reads(trace: seq<Event>): nat {
    if trace == [] then 0 else Reads(trace[..|trace| - 1]) + if trace[|trace| - 1].Read? then 1 else 0
  }

  // ---------------------------------------------------------------- what every drive keeps

  /** What holds wherever the drive is. */
  ghost predicate Sane(s: Shape, rules: Rules) {
    && s.sinceWait <= s.immediate <= rules.limit
    && (s.held ==> rules.wired && rules.ownerKnown)
    && (s.phase.Acting? ==> s.immediate < rules.limit && !rules.stops(s.phase.state))
    && (s.phase.Acting? || s.phase.Checking? ==> rules.wired && rules.heavy(s.phase.state) ==> s.held)
    && (s.phase.Asking? ==> !s.held && rules.wired && rules.ownerKnown && rules.heavy(s.phase.state))
    && (s.phase.Giving? ==> s.held && !rules.heavy(s.phase.state))
    && (s.phase.Yielding? ==> s.held)
    && (s.phase.Stopping? ==> rules.stops(s.phase.state))
    && (s.phase.Noting? ==> s.phase.outcome == Done || s.phase.outcome == Polls)
  }

  lemma {:induction false} AlwaysSane(trace: seq<Event>, rules: Rules)
    requires Follow(trace, rules).Some?
    ensures Sane(Follow(trace, rules).value, rules)
  {
    if trace != [] {
      AlwaysSane(trace[..|trace| - 1], rules);
    }
  }

  /** Acquisitions minus successful releases is always 0 or 1, and 1 exactly while a permit is held. */
  lemma {:induction false} PermitsBalance(trace: seq<Event>, rules: Rules)
    requires Follow(trace, rules).Some?
    ensures Acquisitions(trace) == Releases(trace) + if Follow(trace, rules).value.held then 1 else 0
  {
    if trace != [] {
      PermitsBalance(trace[..|trace| - 1], rules);
      AlwaysSane(trace[..|trace| - 1], rules);
    }
  }

  /** With a scheduler wired, an action in a heavy state runs between an acquisition and its release. */
  lemma HeavyActionsHold(trace: seq<Event>, k: nat, rules: Rules)
    requires Follow(trace, rules).Some? && k < |trace| && rules.wired
    requires trace[k].Acted? && rules.heavy(trace[k].state)
    ensures Acquisitions(trace[..k]) == Releases(trace[..k]) + 1
  {
    FollowTo(trace, k, rules);
    AlwaysSane(trace[..k], rules);
    PermitsBalance(trace[..k], rules);
  }

  /** Going on with a permit in a state that is not heavy comes of a refused release. */
  lemma KeptUnwillingly(trace: seq<Event>, rules: Rules)
    requires Follow(trace, rules).Some?
    requires var s := Follow(trace, rules).value; s.phase.Checking? && s.held && !rules.heavy(s.phase.state)
    ensures trace != [] && trace[|trace| - 1].ReleaseRefused?
  {
    AlwaysSane(trace[..|trace| - 1], rules);
  }

  lemma ActingIsChecked(trace: seq<Event>, rules: Rules)
    requires Follow(trace, rules).Some? && Follow(trace, rules).value.phase.Acting?
    ensures var front := trace[..|trace| - 1];
      && trace != [] && Follow(front, rules).Some?
      && Follow(front, rules).value.phase == Checking(Follow(trace, rules).value.phase.state)
      && Follow(front, rules).value.held == Follow(trace, rules).value.held
  {
  }

  lemma ActedWhereActing(s: Shape, e: Event, rules: Rules)
    requires Step(s, e, rules).Some? && e.Acted?
    ensures s.phase == Acting(e.state)
  {
  }

  /** In any other state it acts without one, or right after trying to give it back. */
  lemma LightActionsGiveBack(trace: seq<Event>, k: nat, rules: Rules)
    requires Follow(trace, rules).Some? && k < |trace| && trace[k].Acted? && !rules.heavy(trace[k].state)
    ensures Acquisitions(trace[..k]) == Releases(trace[..k]) || (k >= 2 && trace[k - 2].ReleaseRefused?)
  {
    hide Acquisitions, Releases, Follow, Step;
    FollowTo(trace, k, rules);
    PermitsBalance(trace[..k], rules);
    ActedWhereActing(Follow(trace[..k], rules).value, trace[k], rules);
    ActingIsChecked(trace[..k], rules);
    assert trace[..k][..k - 1] == trace[..k - 1];
    if Follow(trace[..k], rules).value.held {
      KeptUnwillingly(trace[..k - 1], rules);
    }
  }

  /** It never acts in a state that stops it. */
  lemma NeverActsWhereItStops(trace: seq<Event>, k: nat, rules: Rules)
    requires Follow(trace, rules).Some? && k < |trace| && trace[k].Acted?
    ensures !rules.stops(trace[k].state)
  {
    FollowTo(trace, k, rules);
    AlwaysSane(trace[..k], rules);
  }

  /** Without a wait in between there are at most `limit` actions. */
  lemma {:induction false} ActionsBetweenWaits(trace: seq<Event>, i: nat, rules: Rules)
    requires Follow(trace, rules).Some? && i <= |trace|
    requires forall k :: i <= k < |trace| ==> !trace[k].Waited?
    ensures Actions(trace[i..]) <= Follow(trace, rules).value.sinceWait <= rules.limit
  {
    AlwaysSane(trace, rules);
    if i == |trace| {
      assert trace[i..] == [];
    } else {
      var front := trace[..|trace| - 1];
      ActionsBetweenWaits(front, i, rules);
      assert trace[i..][..|trace[i..]| - 1] == front[i..];
    }
  }

  /** The loop never spins: it reads the run at most once for every action and every wait, and once more. */
  lemma {:induction false} NeverSpins(trace: seq<Event>, rules: Rules)
    requires Follow(trace, rules).Some?
    ensures var phase := Follow(trace, rules).value.phase;
      Reads(trace) + (if phase.Head? || phase.Noting? || phase.Rereading? then 1 else 0)
        <= 1 + Actions(trace) + Waits(trace)
  {
    if trace != [] {
      NeverSpins(trace[..|trace| - 1], rules);
    }
  }

  /** A run that returned either gave back every permit or ended on an attempt to. */
  lemma ReturnsTryToRelease(trace: seq<Event>, rules: Rules)
    requires Follow(trace, rules).Some? && trace != [] && trace[|trace| - 1].Returned?
    ensures var before := trace[..|trace| - 1];
      Acquisitions(before) == Releases(before) || (before != [] && before[|before| - 1].ReleaseRefused?)
  {
    var before := trace[..|trace| - 1];
    PermitsBalance(before, rules);
  }

  /** What gives a drive its end. */
  predicate Reason(e: Event, end: End, rules: Rules) {
    match end
    case InvalidInput => e.Rejected?
    case Canceled => e == Unread(Canceled) || e.WaitCut?
    case Failed => e == Unread(Failed) || e.Unacquired? || e == Evidence(false) || e.NoStop? || e == Announced(false)
    case Unauthorized => e == Unread(Unauthorized)
    case OwnerMissing => e.Read? && rules.wired && rules.heavy(e.state) && !rules.ownerKnown
    case Unavailable => e.Acted? && e.outcome.Retries? && rules.impatient
    case DurableStop => e == Announced(true)
    case ExternalWait => e.Read? && rules.impatient
  }

  lemma LeavesForAReason(s: Shape, e: Event, rules: Rules)
    requires Step(s, e, rules).Some? && (s.phase.Rereading? ==> rules.impatient)
    ensures var next := Step(s, e, rules).value.phase;
      && (next.Leaving? ==> if s.phase.Leaving? then next.end == s.phase.end && (e.Released? || e.ReleaseRefused?)
                            else if s.phase.Yielding? then
                              next.end == ExternalWait && (e.Released? || e.ReleaseRefused?)
                            else Reason(e, next.end, rules))
      && (next.Yielding? ==> Reason(e, ExternalWait, rules))
      && (next.Rereading? ==> rules.impatient)
  {
  }

  /** It ends for a reason, which is the last thing it did but for giving back its permit. */
  lemma {:induction false} EndsForAReason(trace: seq<Event>, rules: Rules)
    requires Follow(trace, rules).Some?
    ensures match Follow(trace, rules).value.phase
      case Leaving(end, _) => Explained(trace, end, rules)
      case Rereading => rules.impatient
      case Yielding => Explained(trace, ExternalWait, rules)
      case _ => true
  {
    if trace != [] {
      hide Step, Reason, Explained;
      var front, last := trace[..|trace| - 1], |trace| - 1;
      EndsForAReason(front, rules);
      LeavesForAReason(Follow(front, rules).value, trace[last], rules);
      var after := Follow(trace, rules).value.phase;
      if after.Leaving? || after.Yielding? {
        ExplainedNext(trace, if after.Leaving? then after.end else ExternalWait, rules);
      }
    }
  }

  lemma ExplainedNext(trace: seq<Event>, end: End, rules: Rules)
    requires trace != []
    ensures Reason(trace[|trace| - 1], end, rules) ==> Explained(trace, end, rules)
    ensures Explained(trace[..|trace| - 1], end, rules)
            && (trace[|trace| - 1].Released? || trace[|trace| - 1].ReleaseRefused?) ==>
      Explained(trace, end, rules)
  {
    hide Reason;
    var front, last := trace[..|trace| - 1], |trace| - 1;
    if Reason(trace[last], end, rules) {
      assert OnlyReleases(trace, last + 1);
    }
    if Explained(front, end, rules) && (trace[last].Released? || trace[last].ReleaseRefused?) {
      var k :| 0 <= k < |front| && Reason(front[k], end, rules) && OnlyReleases(front, k + 1);
      assert Reason(trace[k], end, rules) && OnlyReleases(trace, k + 1);
    }
  }

  /** The reason for the end is on record, with nothing but releases after it. */
  predicate Explained(trace: seq<Event>, end: End, rules: Rules) {
    exists k :: 0 <= k < |trace| && Reason(trace[k], end, rules) && OnlyReleases(trace, k + 1)
  }

  predicate OnlyReleases(trace: seq<Event>, from: nat) {
    forall i :: from <= i < |trace| ==> trace[i].Released? || trace[i].ReleaseRefused?
  }

  // ---------------------------------------------------------------- the loop

  datatype Turn = Continue | Leave(end: End)

  class Driver {
    const rules: Rules
    /** The permit variable of the loop. */
    var holding: bool
    var immediate: nat
    var actions: nat
    ghost var trace: seq<Event>

    ghost predicate Valid()
      reads this
    {
      && Follow(trace, rules).Some?
      && Now().held == holding && Now().immediate == immediate && actions == Actions(trace)
    }

    ghost function Now(): Shape
      requires Follow(trace, rules).Some?
      reads this
    {
      Follow(trace, rules).value
    }

    constructor (rules: Rules)
      ensures Valid() && trace == [] && this.rules == rules
    {
      this.rules := rules;
      holding, immediate, actions, trace := false, 0, 0, [];
    }

    ghost method Record(e: Event)
      requires Follow(trace, rules).Some? && Step(Now(), e, rules).Some?
      modifies this`trace
      ensures trace == old(trace) + [e] && Actions(trace) == Actions(old(trace)) + if e.Acted? then 1 else 0
      ensures Follow(trace, rules) == Step(old(Now()), e, rules)
    {
      assert (trace + [e])[..|trace|] == trace;
      trace := trace + [e];
    }

    /** The trace only grows. */
    twostate predicate Grows()
      reads this
    {
      old(trace) <= trace
    }

    /** The drive goes round again, or leaves for the end it gives. */
    ghost predicate Turned(turn: Turn)
      reads this
    {
      Valid() && turn != Leave(InvalidInput) && Now().phase == if turn.Continue? then Head else Leaving(turn.end, false)
    }

    /** releasePermit: forgets the permit only when the scheduler says it is released. */
    method ReleasePermit()
      requires Valid() && (holding ==> Step(Now(), Released, rules).Some? && Step(Now(), ReleaseRefused, rules).Some?)
      modifies this`holding, this`trace
      ensures Valid() && Grows()
      ensures !old(holding) ==> trace == old(trace)
      ensures old(holding) ==> trace == old(trace) + [if holding then ReleaseRefused else Released]
      ensures old(holding) ==>
        Follow(trace, rules) == Step(old(Now()), if holding then ReleaseRefused else Released, rules)
    {
      if !holding {
        return;
      }
      var released := *;
      if released {
        Record(Released);
        holding := false;
      } else {
        Record(ReleaseRefused);
      }
    }

    /** The polling boundary: after a wait the immediate actions start over. */
    method Pause() returns (turn: Turn)
      requires Valid() && Now().phase.Resting?
      modifies this`trace, this`immediate
      ensures Grows() && Turned(turn)
    {
      var interrupted := *;
      if interrupted {
        Record(WaitCut);
        return Leave(Canceled);
      }
      Record(Waited);
      immediate := 0;
      return Continue;
    }

    /** A wait for somebody else's permit. */
    method AwaitPermit() returns (turn: Turn)
      requires Valid() && Now().phase.Denial?
      modifies this`trace
      ensures Grows() && Turned(turn)
    {
      var interrupted := *;
      if interrupted {
        Record(WaitCut);
        return Leave(Canceled);
      }
      Record(Waited);
      return Continue;
    }

    /** AcquireHeavyPermit, after interrupted heavy work was reconciled if the scheduler asks for it.
        None: it failed. */
    method Acquire() returns (held: Option<bool>)
      requires Valid() && Now().phase.Asking?
      modifies this`holding, this`trace
      ensures Valid() && Grows()
      ensures Follow(trace, rules)
        == Step(old(Now()), if held.None? then Unacquired else if held.value then Acquired else Denied, rules)
    {
      var reconcile, reconciled, failed, granted := *, *, *, *;
      if (reconcile && !reconciled) || failed {
        Record(Unacquired);
        return None;
      }
      if granted {
        Record(Acquired);
        holding := true;
      } else {
        Record(Denied);
      }
      return Some(granted);
    }

    /** Before an action: hold a permit in a heavy state, give it back in any other. Some: the turn
        is over. */
    method SecurePermit(state: State) returns (over: Option<Turn>)
      requires Valid() && Now().phase == Decide(Now(), state, rules)
      modifies this`holding, this`trace
      ensures Grows()
      ensures over.None? ==> Valid() && Now().phase == Checking(state)
      ensures over.Some? ==> Turned(over.value)
    {
      if rules.heavy(state) && rules.wired {
        if !rules.ownerKnown {
          return Some(Leave(OwnerMissing));
        }
        if holding {
          return None;
        }
        var held := Acquire();
        if held.None? {
          return Some(Leave(Failed));
        }
        if !held.value {
          var turn := AwaitPermit();
          return Some(turn);
        }
      } else if holding {
        ReleasePermit();
      }
      return None;
    }

    /** reconcileCIWait before an action, which may fail. */
    method CheckEvidence(state: State) returns (kept: bool)
      requires Valid() && Now().phase == Checking(state)
      modifies this`trace
      ensures Valid() && Grows()
      ensures Now().phase == if kept then Checked(Now(), state, rules) else Leaving(Failed, false)
    {
      kept := *;
      Record(Evidence(kept));
    }

    /** reconcileCIWait after an action. */
    method NoteEvidence(outcome: Outcome) returns (kept: bool)
      requires Valid() && Now().phase == Noting(outcome)
      modifies this`trace
      ensures Valid() && Grows()
      ensures Now().phase == if !kept then Leaving(Failed, false) else if outcome.Done? then Head
                             else if rules.impatient then Rereading else Resting
    {
      kept := *;
      Record(Evidence(kept));
    }

    /** stop: in some states an operator is told first, which may fail. */
    method Stop() returns (turn: Turn)
      requires Valid() && Now().phase.Stopping?
      modifies this`trace
      ensures Grows() && Turned(turn)
    {
      var told := *;
      Record(Announced(told));
      return Leave(if told then DurableStop else Failed);
    }

    /** Runs one action. */
    method Perform(state: State) returns (outcome: Outcome)
      requires Valid() && Now().phase == Acting(state)
      modifies this`immediate, this`actions, this`trace
      ensures Valid() && trace == old(trace) + [Acted(state, outcome)]
      ensures Follow(trace, rules) == Step(old(Now()), Acted(state, outcome), rules)
    {
      outcome := *;
      Record(Acted(state, outcome));
      immediate := immediate + 1;
      actions := actions + 1;
    }

    /** Runs one action and waits or leaves as its outcome asks. */
    method Act(state: State) returns (turn: Turn)
      requires Valid() && Now().phase == Acting(state)
      modifies this
      ensures Grows() && Turned(turn)
      ensures |trace| > |old(trace)| && trace[|old(trace)|].Acted? && trace[|old(trace)|].state == state
    {
      var outcome := Perform(state);
      if outcome.Breaks? {
        turn := Break();
      } else if outcome.Retries? {
        if rules.impatient {
          return Leave(Unavailable);
        }
        turn := Pause();
      } else {
        turn := Conclude(outcome);
      }
    }

    /** After an action that did not fail: its wait evidence, then the next turn, a wait or the end. */
    method Conclude(outcome: Outcome) returns (turn: Turn)
      requires Valid() && Now().phase == Noting(outcome) && (outcome.Done? || outcome.Polls?)
      modifies this
      ensures Grows() && Turned(turn)
    {
      hide Follow, Step;
      var kept := NoteEvidence(outcome);
      if !kept {
        return Leave(Failed);
      }
      if outcome.Done? {
        return Continue;
      }
      if rules.impatient {
        turn := LeaveWaiting();
      } else {
        turn := Pause();
      }
    }

    /** durableStop: an action that failed for good may have stopped the run. */
    method Break() returns (turn: Turn)
      requires Valid() && Now().phase.Broken?
      modifies this`trace
      ensures Grows() && Turned(turn)
    {
      var readable, state: State := *, *;
      if readable && rules.stops(state) {
        Record(StopSeen(state));
        turn := Stop();
      } else {
        Record(NoStop);
        turn := Leave(Failed);
      }
    }

    method LeaveWaiting() returns (turn: Turn)
      requires Valid() && Now().phase.Rereading?
      modifies this`holding, this`trace
      ensures Grows() && Turned(turn)
    {
      var unreadable, waiting: State := *, *;
      if unreadable {
        Record(Unread(Failed));
        return Leave(Failed);
      }
      Record(Read(waiting));
      if !rules.heavy(waiting) {
        ReleasePermit();
      }
      return Leave(ExternalWait);
    }

    /** One turn of the loop: it acts, waits or leaves. */
    method TakeTurn() returns (turn: Turn)
      requires Valid() && Now().phase.Head?
      modifies this
      ensures Grows() && Turned(turn)
    {
      var cancelled, unreadable, refused := *, *, *;
      if cancelled || unreadable || refused {
        var cause := if cancelled then Canceled else if unreadable then Failed else Unauthorized;
        Record(Unread(cause));
        return Leave(cause);
      }
      var state: State := *;
      Record(Read(state));
      turn := Serve(state);
    }

    /** The turn of a run found in this state. */
    method Serve(state: State) returns (turn: Turn)
      requires Valid() && Now().phase == Decide(Now(), state, rules)
      modifies this
      ensures Grows() && Turned(turn)
    {
      hide Follow, Step;
      var over := SecurePermit(state);
      if over.Some? {
        return over.value;
      }
      var kept := CheckEvidence(state);
      if !kept {
        return Leave(Failed);
      }
      turn := Advance(state);
    }

    method Advance(state: State) returns (turn: Turn)
      requires Valid() && Now().phase == Checked(Now(), state, rules)
      modifies this
      ensures Grows() && Turned(turn)
    {
      if rules.stops(state) {
        turn := Stop();
      } else if immediate >= rules.limit {
        turn := Pause();
      } else {
        turn := Act(state);
      }
    }

    /** Drive, up to any number of turns after which its context is cancelled. */
    method Drive(complete: bool, lifetime: nat) returns (end: End)
      requires Valid() && trace == []
      modifies this
      ensures Follow(trace, rules).Some? && Now().phase == Over(end)
      ensures trace != [] && trace[|trace| - 1] == Returned(end) && actions == Actions(trace)
      ensures complete <==> end != InvalidInput
    {
      hide Follow, Step, Actions;
      if complete {
        end := Go(lifetime);
      } else {
        end := Reject();
      }
      Finish(end);
    }

    method Reject() returns (end: End)
      requires Valid() && trace == []
      modifies this`trace
      ensures Valid() && Now().phase == Leaving(end, false) && end == InvalidInput
    {
      Record(Rejected);
      return InvalidInput;
    }

    /** The deferred release. */
    method Finish(end: End)
      requires Valid() && Now().phase == Leaving(end, false)
      modifies this`holding, this`trace
      ensures Follow(trace, rules).Some? && Now().phase == Over(end)
      ensures trace != [] && trace[|trace| - 1] == Returned(end) && actions == Actions(trace)
    {
      ReleasePermit();
      Record(Returned(end));
    }

    method Go(lifetime: nat) returns (end: End)
      requires Valid() && trace == []
      modifies this
      ensures Valid() && Now().phase == Leaving(end, false) && end != InvalidInput
    {
      for i := 0 to lifetime
        invariant Valid() && Now().phase.Head?
      {
        var turn := TakeTurn();
        if turn.Leave? {
          return turn.end;
        }
      }
      Record(Unread(Canceled));
      return Canceled;
    }
  }
}
