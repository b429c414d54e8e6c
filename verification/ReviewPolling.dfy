/** Bounded polling of one pull request head, resumed from its persisted history
    (internal/application/delivery.go). */
module ReviewPolling {
  import opened Outcomes

  datatype Status = Pending | Pass | Actionable | Infrastructure | Timeout

  datatype Poll = Poll(attempt: nat, status: Status, observedAt: int)

  datatype Policy = Policy(maxAttempts: int, interval: int, deadline: int)

  datatype Error = InvalidPolicy | Unreadable | ObservationFailed | WrongHead | InvalidFinding | SaveFailed | WaitFailed

  predicate ValidPolicy(p: Policy) {
    p.maxAttempts >= 1 && p.interval >= 0 && p.deadline > 0
  }

  /** Polls are numbered from 1, stay within the policy, and only the last may be decisive. */
  ghost predicate HistoryOk(polls: seq<Poll>, p: Policy) {
    && |polls| <= p.maxAttempts
    && (forall i :: 0 <= i < |polls| ==> polls[i].attempt == i + 1)
    && (forall i :: 0 <= i < |polls| - 1 ==> polls[i].status.Pending?)
    && (forall i :: 0 <= i < |polls| ==> !polls[i].status.Timeout?)
  }

  predicate Decided(polls: seq<Poll>) {
    polls != [] && !polls[|polls| - 1].status.Pending?
  }

  function Verdict(polls: seq<Poll>): Status
    requires Decided(polls)
  {
    polls[|polls| - 1].status
  }

  /** The deadline, counted from the first poll on record, has passed. */
  predicate Expired(polls: seq<Poll>, p: Policy, now: int) {
    polls != [] && now - polls[0].observedAt >= p.deadline
  }

  /** The deadline stands from the first poll on: later polls do not move it, and once passed it stays so. */
  lemma DeadlineStands(before: seq<Poll>, after: seq<Poll>, p: Policy, now: int, later: int)
    requires before != [] && Continues(before, after) && now <= later
    ensures Expired(after, p, now) == Expired(before, p, now)
    ensures Expired(before, p, now) ==> Expired(after, p, later)
  {
    assert after[0] == before[0];
  }

  /** A later history of the same head keeps every poll, and a decision ends it. */
  ghost predicate Continues(before: seq<Poll>, after: seq<Poll>) {
    before <= after && (Decided(before) ==> after == before)
  }

  lemma ContinuesTransitive(a: seq<Poll>, b: seq<Poll>, c: seq<Poll>)
    requires Continues(a, b) && Continues(b, c)
    ensures Continues(a, c)
  {
  }

  class Reconciler {
    const policy: Policy
    /** A calm run: nothing fails or stops, and no deadline passes. */
    const calm: bool
    var polls: seq<Poll>
    /** How often the head was observed, persisted or not. */
    var observations: nat
    /** How many waits between two polls were begun. */
    ghost var waits: nat
    /** What went wrong last, outside of the policy; and whether the deadline cut a wait short. */
    ghost var mishap: Option<Error>
    ghost var expired: bool

    ghost predicate Valid()
      reads this
    {
      ValidPolicy(policy) ==> HistoryOk(polls, policy)
    }

    constructor (policy: Policy, calm: bool)
      ensures Valid() && polls == [] && observations == 0 && this.policy == policy && this.calm == calm
    {
      this.policy, this.calm, polls, observations := policy, calm, [], 0;
      waits, mishap, expired := 0, None, false;
    }

    /** The same head, as a later process finds it. */
    constructor Resumed(earlier: Reconciler, calm: bool)
      requires earlier.Valid()
      ensures Valid() && policy == earlier.policy && this.calm == calm && polls == earlier.polls
    {
      policy, this.calm, polls, observations := earlier.policy, calm, earlier.polls, earlier.observations;
      waits, mishap, expired := 0, None, false;
    }

    /** A step that may be stopped, or fail in its own way. */
    method Risk(e: Error) returns (r: Reply<(), Error>)
      modifies this`mishap
      ensures calm ==> r.Ok?
      ensures r.Err? ==> r.error == e && mishap == Some(e)
      ensures !r.Err? ==> mishap == old(mishap)
    {
      var stopped := Fails(calm);
      var failed := Fails(calm);
      if stopped {
        return Stopped;
      }
      if failed {
        mishap := Some(e);
        return Err(e);
      }
      return Ok(());
    }

    /** One observation of the head; its classification is never a timeout. */
    method Observe() returns (r: Reply<Poll, Error>)
      modifies this`observations, this`mishap
      ensures observations == old(observations) + 1
      ensures r.Ok? ==> !r.value.status.Timeout?
      ensures r.Err? ==> r.error in {ObservationFailed, WrongHead, InvalidFinding} && mishap == Some(r.error)
      ensures calm ==> r.Ok?
    {
      observations := observations + 1;
      var _ :- Risk(ObservationFailed);
      var _ :- Risk(WrongHead);
      var _ :- Risk(InvalidFinding);
      var status: Status, at: int := *, *;
      return Ok(Poll(0, if status.Timeout? then Pending else status, at));
    }

    /** SavePollObservation appends; it may be lost, or stopped right after. */
    method Save(poll: Poll) returns (r: Reply<(), Error>)
      modifies this`polls, this`mishap
      ensures r.Ok? ==> polls == old(polls) + [poll]
      ensures polls == old(polls) || polls == old(polls) + [poll]
      ensures r.Err? ==> r.error == SaveFailed && mishap == Some(SaveFailed) && polls == old(polls)
      ensures calm ==> r.Ok?
    {
      var _ :- Risk(SaveFailed);
      polls := polls + [poll];
      var stoppedAfter := Fails(calm);
      return if stoppedAfter then Stopped else Ok(());
    }

    /** The wait between two polls. Ok(true): the deadline cut it short. */
    method Wait() returns (r: Reply<bool, Error>)
      modifies this`waits, this`mishap, this`expired
      ensures waits == old(waits) + 1
      ensures r.Ok? ==> expired == (old(expired) || r.value)
      ensures !r.Ok? ==> expired == old(expired)
      ensures r.Err? ==> r.error == WaitFailed && mishap == Some(WaitFailed)
      ensures calm ==> r == Ok(false)
    {
      waits := waits + 1;
      var _ :- Risk(WaitFailed);
      var cut := Fails(calm);
      expired := expired || cut;
      return Ok(cut);
    }

    /** What an earlier call's history already settles: None when polling must go on. */
    method Resume(now: int) returns (done: Option<Status>)
      requires Valid() && ValidPolicy(policy)
      ensures Decided(polls) ==> done == Some(Verdict(polls))
      ensures !Decided(polls) ==>
        done == if |polls| == policy.maxAttempts || Expired(polls, policy, now) then Some(Timeout) else None
    {
      if polls != [] && !polls[|polls| - 1].status.Pending? {
        return Some(polls[|polls| - 1].status);
      }
      if |polls| >= policy.maxAttempts {
        return Some(Timeout);
      }
      if polls != [] && policy.deadline - (now - polls[0].observedAt) <= 0 {
        return Some(Timeout);
      }
      return None;
    }

    /** ReconcileReviews. */
    method ReconcileReviews(now: int) returns (r: Reply<Status, Error>)
      requires Valid()
      modifies this`polls, this`observations, this`waits, this`mishap, this`expired
      ensures Valid() && Continues(old(polls), polls)
      // A decision already on record is returned without observing again.
      ensures old(Decided(polls)) ==> observations == old(observations) && (r.Ok? ==> r.value == Verdict(polls))
      // A call answers with what it put on record, or with a timeout; never with pending.
      ensures r.Ok? ==> if r.value.Timeout? then !Decided(polls) else Decided(polls) && r.value == Verdict(polls)
      // A call that answers has put every observation it made on record.
      ensures r.Ok? && ValidPolicy(policy) ==> observations - old(observations) == |polls| - |old(polls)|
      ensures r == Err(InvalidPolicy) <==> !ValidPolicy(policy)
      // Any other error is what just went wrong, and a timeout has its reason.
      ensures r.Err? && r.error != InvalidPolicy ==> mishap == Some(r.error)
      ensures r == Ok(Timeout) ==> |polls| == policy.maxAttempts || Expired(old(polls), policy, now) || expired
      // A wait that the deadline cuts short is the last thing it does.
      ensures expired ==> r == Ok(Timeout)
      // It waits between two polls, and neither before the first nor after the last.
      ensures r.Ok? && observations > old(observations) ==>
        waits - old(waits) == observations - old(observations) - 1 || (r == Ok(Timeout) && expired)
      // In a calm run it answers; a timeout then means that every allowed poll is on record and pending,
      // or that the deadline of the first one had passed before the call.
      ensures calm && ValidPolicy(policy) ==> r.Ok?
      ensures calm && ValidPolicy(policy) ==>
        (r == Ok(Timeout) <==> !Decided(polls) && (|polls| == policy.maxAttempts || Expired(old(polls), policy, now)))
    {
      hide Expired;
      mishap, expired := None, false;
      if policy.maxAttempts < 1 || policy.interval < 0 || policy.deadline <= 0 {
        return Err(InvalidPolicy);
      }
      var _ :- Risk(Unreadable);
      var done := Resume(now);
      if done.Some? {
        return Ok(done.value);
      }
      var previous := |polls|;
      for attempt := previous + 1 to policy.maxAttempts + 1
        invariant Valid() && Continues(old(polls), polls) && !Decided(polls) && !expired
        invariant |polls| == attempt - 1
        invariant observations - old(observations) == |polls| - |old(polls)|
        invariant waits - old(waits) == observations - old(observations) || attempt == policy.maxAttempts + 1
        invariant attempt == policy.maxAttempts + 1 ==> waits - old(waits) == observations - old(observations) - 1
      {
        var poll :- Observe();
        var _ :- Save(poll.(attempt := attempt));
        if !poll.status.Pending? {
          return Ok(poll.status);
        }
        if attempt < policy.maxAttempts {
          var cut :- Wait();
          if cut {
            return Ok(Timeout);
          }
        }
      }
      return Ok(Timeout);
    }

    /** Any number of calls, each stopped anywhere: once one of them answers with a decision, every
        later one that answers gives the same. */
    method ReconcileRepeatedly(calls: nat) returns (answers: seq<Reply<Status, Error>>)
      requires Valid()
      modifies this`polls, this`observations, this`waits, this`mishap, this`expired
      ensures Valid() && Continues(old(polls), polls) && |answers| == calls
      ensures ValidPolicy(policy) ==> HistoryOk(polls, policy)
      ensures forall i, j :: 0 <= i < j < calls && answers[i].Ok? && !answers[i].value.Timeout? && answers[j].Ok? ==>
        answers[j] == answers[i]
    {
      answers := [];
      for i := 0 to calls
        invariant Valid() && Continues(old(polls), polls) && |answers| == i
        invariant forall a :: a in answers && a.Ok? && !a.value.Timeout? ==> Decided(polls) && a.value == Verdict(polls)
        invariant forall i, j :: 0 <= i < j < |answers| && answers[i].Ok? && !answers[i].value.Timeout?
                                 && answers[j].Ok? ==>
          answers[j] == answers[i]
      {
        ghost var before := polls;
        var now: int := *;
        var r := ReconcileReviews(now);
        ContinuesTransitive(old(polls), before, polls);
        answers := answers + [r];
      }
    }
  }

  /** Recovery: after any number of calls, each stopped anywhere, one calm call answers, with the decision
      on record if there is one by then and with a timeout otherwise. */
  method ReconcileAfter(earlier: Reconciler, calls: nat, now: int)
    returns (recovered: Reconciler, r: Reply<Status, Error>)
    requires earlier.Valid() && ValidPolicy(earlier.policy)
    modifies earlier
    ensures recovered.Valid() && recovered.policy == earlier.policy && Continues(earlier.polls, recovered.polls)
    ensures r == Ok(if Decided(recovered.polls) then Verdict(recovered.polls) else Timeout)
  {
    var _ := earlier.ReconcileRepeatedly(calls);
    recovered := new Reconciler.Resumed(earlier, true);
    r := recovered.ReconcileReviews(now);
  }
}
