/** Apply, reconcile, prune and the admission gates of the configuration authority
    (internal/application/configuration_service.go), over the durable store and the live file. */
module ConfigurationService {
  import opened Outcomes
  import opened ConfigurationStore

  const MAXIMUM_BYTES: nat := 0x40000
  const RAW_RETAIN_COUNT: nat := 10

  datatype Command = Command(
    requester: Actor, expectedId: nat, expected: Digest, expectedVersion: nat, payload: Payload, provenance: Provenance)

  datatype Error = InvalidInput | Hidden | Conflict | StillActive | UnresolvedApply | Internal | NeedsReconcile

  datatype Answer = Answer(generation: Generation, receipt: Receipt, noOp: bool)

  /** The private file beside the live one that an atomic exchange swaps in. */
  datatype Stage = Stage(operation: Operation, payload: Payload)

  function OperationOf(c: Command): Operation {
    Operation(c.expectedId, c.expected, c.requester, c.payload, c.provenance)
  }

  // ---------------------------------------------------------------- replay

  /** configurationReceiptReplay. */
  function ReceiptReplay(s: Store, op: Operation, receipt: Receipt): Option<Answer> {
    var found := FindOperation(s.generations, op);
    if found.Some? && Known(s, found.value) then Some(Answer(Row(s, found.value), receipt, false))
    else if receipt.Pending? || receipt.outcome != Committed || receipt.digest != op.candidate then None
    else if Known(s, receipt.version) && Row(s, receipt.version).digest == op.candidate then
      Some(Answer(Row(s, receipt.version), receipt, true))
    else None
  }

  function Replay(s: Store, op: Operation): Option<Answer> {
    if op in s.receipts then ReceiptReplay(s, op, s.receipts[op]) else None
  }

  predicate Authorized(s: Store, requester: Actor)
    requires Known(s, s.desired)
  {
    Desired(s).digest.operator == requester
  }

  /** The answer is the generation, or the no-op, that an operation stands for in `s`, with the receipt
      that goes with it: the generation as it was at some point, and the receipt of that point. */
  ghost predicate Names(s: Store, op: Operation, a: Answer) {
    && Known(s, a.generation.id)
    && SameRow(a.generation, Row(s, a.generation.id))
    && a.generation.digest == op.candidate
    && if a.noOp then
         && FindOperation(s.generations, op).None? && op in s.receipts
         && a.receipt == s.receipts[op] == Observed(Committed, a.generation.id, op.candidate)
       else
         && FindOperation(s.generations, op) == Some(a.generation.id)
         && a.generation.operation == Some(op) && a.receipt == ReceiptOf(a.generation)
  }

  /** The answer is the desired generation as it is now, with its settled receipt. */
  predicate AnswersDesired(s: Store, op: Operation, a: Answer)
    requires Known(s, s.desired)
  {
    && op in s.receipts
    && a == Answer(Desired(s), Observed(Committed, s.desired, op.candidate), op.candidate == op.expected)
    && s.receipts[op] == a.receipt
  }

  lemma ReplayNames(s: Store, op: Operation)
    requires StoreOk(s)
    ensures Replay(s, op).Some? ==> Names(s, op, Replay(s, op).value)
    ensures op in s.receipts ==> Replay(s, op).Some?
  {
    FindSound(s.generations, op);
    if op in s.receipts && FindOperation(s.generations, op).None? {
      assert NoOpReceiptOk(s, op);
      assert RowOk(s, s.receipts[op].version - 1);
    }
    if FindOperation(s.generations, op).Some? {
      var i := FindOperation(s.generations, op).value - 1;
      assert RowOk(s, i) && AppliedRowOk(s, i);
    }
  }

  /** A receipt without a generation never gets one. */
  lemma NoOpLater(s: Store, t: Store, op: Operation)
    requires Extends(s, t) && op in s.receipts && FindOperation(s.generations, op).None?
    ensures FindOperation(t.generations, op).None?
  {
    FindSound(s.generations, op);
    FindSound(t.generations, op);
    forall j | 0 <= j < |t.generations| ensures t.generations[j].operation != Some(op) {
      if j < |s.generations| {
        assert SameRow(s.generations[j], t.generations[j]);
      }
    }
  }

  lemma MadeLater(s: Store, t: Store, op: Operation, id: nat)
    requires StoreOk(t) && Extends(s, t) && FindOperation(s.generations, op) == Some(id)
    ensures FindOperation(t.generations, op) == Some(id)
  {
    hide StoreOk;
    FindSound(s.generations, op);
    assert SameRow(s.generations[id - 1], t.generations[id - 1]);
    FindUnique(t, op, id);
  }

  /** An answer stays the answer in every later state. */
  lemma NamesLater(s: Store, t: Store, op: Operation, a: Answer)
    requires StoreOk(s) && StoreOk(t) && Extends(s, t) && Names(s, op, a)
    ensures Names(t, op, a)
  {
    hide StoreOk, FindOperation;
    var i := a.generation.id - 1;
    assert SameRow(s.generations[i], t.generations[i]);
    if a.noOp {
      NoOpLater(s, t, op);
    } else {
      MadeLater(s, t, op, a.generation.id);
    }
  }

  /** However often one command is retried, whatever ran in between, every successful answer
      names the same generation, or the same no-op. */
  lemma RetriesAgree(s: Store, t: Store, op: Operation, a: Answer, b: Answer)
    requires StoreOk(s) && StoreOk(t) && Extends(s, t)
    requires Names(s, op, a) && Names(t, op, b)
    ensures a.generation.id == b.generation.id && a.noOp == b.noOp
  {
    NamesLater(s, t, op, a);
  }

  /** And at most one generation is ever made by it. */
  lemma OneGenerationPerOperation(s: Store, i: nat, j: nat)
    requires StoreOk(s) && i < |s.generations| && j < |s.generations|
    requires s.generations[i].operation.Some? && s.generations[i].operation == s.generations[j].operation
    ensures i == j
  {
    assert AppliedRowOk(s, i) && AppliedRowOk(s, j);
  }

  // ---------------------------------------------------------------- what holds of the files

  /** Without foreign edits: live is the desired configuration, or one unsettled apply exists and
      live is its parent or its target, with the other one staged or already cleaned up. */
  ghost predicate LiveOk(s: Store, live: Payload, stage: Option<Stage>)
    requires StoreOk(s)
  {
    match Incomplete(s.generations)
    case None => stage.None? && live == Desired(s).digest
    case Some(id) =>
      Known(s, id) && Row(s, id).operation.Some? &&
      var parent, target := Desired(s).digest, Row(s, id).digest;
      && (live == parent || live == target)
      && (stage.Some? ==>
        stage.value.operation == Row(s, id).operation.value
          && stage.value.payload == if live == parent then target else parent)
  }

  ghost predicate StageOk(s: Store, stage: Option<Stage>) {
    stage.Some? ==>
      var id := Incomplete(s.generations);
      id.Some? && Known(s, id.value) && Row(s, id.value).operation == Some(stage.value.operation)
  }

  /** What an interrupted exchange of `op` proves to be live: the live file, when nothing else can be
      behind it; the captured edit, which goes back, when the target is live over something else than
      the parent. */
  function Evidence(live: Payload, stage: Option<Stage>, op: Operation, parent: Payload, target: Payload)
    : Option<Payload>
  {
    var staged := stage.Some? && stage.value.operation == op;
    var proved := if staged && live == target && stage.value.payload != parent then stage.value.payload else live;
    if !live.readable || !proved.readable || (staged && live != target && stage.value.payload != target) then None
    else Some(proved)
  }

  /** How a calm reconciliation settles the apply it finds accepted. */
  function Verdict(live: Payload, stage: Option<Stage>, op: Operation, parent: Payload, target: Payload)
    : ApplyOutcome
  {
    match Evidence(live, stage, op, parent, target)
    case Some(found) => if found == target then Committed else if found == parent then Rejected else Unresolved
    case None => Unresolved
  }

  function VerdictOn(s: Store, id: nat, live: Payload, stage: Option<Stage>): ApplyOutcome
    requires Known(s, s.desired) && Known(s, id)
  {
    if Row(s, id).operation.None? then Unresolved
    else Verdict(live, stage, Row(s, id).operation.value, Desired(s).digest, Row(s, id).digest)
  }

  predicate SettledAs(s: Store, id: nat, outcome: ApplyOutcome) {
    Known(s, id) && IntentOutcome(Row(s, id).state) == Some(outcome)
  }

  predicate AnswersAs(r: Reply<Store, Error>, outcome: ApplyOutcome) {
    if outcome == Unresolved then r == Err(UnresolvedApply) else r.Ok?
  }

  /** The raw bytes of the desired generation and of every unsettled apply are kept. */
  ghost predicate RawsOk(s: Store, raws: set<Digest>) {
    forall g :: g in s.generations && LiveState(g.state) ==> g.digest in raws
  }

  /** The live file is the desired configuration, or exactly one apply is unsettled and live is its
      parent or its target. */
  ghost predicate Accounted(s: Store, live: Payload)
    requires Known(s, s.desired)
  {
    || ((forall i: nat :: i < |s.generations| ==> !Unsettled(s.generations[i])) && live == Desired(s).digest)
    || (exists i: nat :: i < |s.generations| && Unsettled(s.generations[i])
          && s.generations[i].parent == s.desired
          && (live == Desired(s).digest || live == s.generations[i].digest)
          && forall j: nat :: j < |s.generations| && Unsettled(s.generations[j]) ==> j == i)
  }

  lemma LiveIsAccounted(s: Store, live: Payload, stage: Option<Stage>)
    requires StoreOk(s) && LiveOk(s, live, stage)
    ensures Accounted(s, live)
  {
    IncompleteSound(s.generations);
    var id := Incomplete(s.generations);
    if id.Some? {
      assert Unsettled(s.generations[id.value - 1]) && RowOk(s, id.value - 1);
      forall j: nat | j < |s.generations| && Unsettled(s.generations[j]) ensures j == id.value - 1 {
        assert RowOk(s, j);
      }
    }
  }

  /** Whatever is desired, or may yet become desired, can be read back. */
  ghost predicate EvidenceKept(s: Store, raws: set<Digest>)
    requires Known(s, s.desired)
  {
    && Desired(s).digest in raws
    && forall i: nat :: i < |s.generations| && Unsettled(s.generations[i]) ==> s.generations[i].digest in raws
  }

  lemma RawsAreEvidence(s: Store, raws: set<Digest>)
    requires StoreOk(s) && RawsOk(s, raws)
    ensures EvidenceKept(s, raws)
  {
    DesiredKept(s, raws);
    forall i: nat | i < |s.generations| && Unsettled(s.generations[i]) ensures s.generations[i].digest in raws {
      assert s.generations[i] in s.generations;
    }
  }

  /** The authority right after a baseline was adopted. */
  function Adopted(baseline: Payload): Store {
    Store([Generation(1, 0, baseline, None, Normal, PendingRestart, true, false)], map[], 1, 0, 1, {}, false,
      baseline.database)
  }

  lemma AdoptedOk(baseline: Payload)
    requires baseline.readable
    ensures StoreOk(Adopted(baseline)) && Incomplete(Adopted(baseline).generations).None?
  {
    var s := Adopted(baseline);
    assert RowOk(s, 0) && AppliedRowOk(s, 0);
    IncompleteSound(s.generations);
  }

  class Controller {
    /** A calm run: nothing fails or stops, and nobody else acts. What an operation then achieves is
        stated beside what it keeps in any run. */
    const calm: bool
    var store: Store
    var live: Payload
    var stage: Option<Stage>
    var raws: set<Digest>
    /** Whether someone other than the controller has written the live file. */
    var edited: bool
    /** What that other writer last wrote. */
    var theirs: Payload
    /** How often this process began to reconcile. */
    ghost var reconciliations: nat

    ghost predicate Valid()
      reads this
    {
      && StoreOk(store)
      && StageOk(store, stage)
      && RawsOk(store, raws)
      && (!edited ==> LiveOk(store, live, stage))
    }

    /** The live file is accounted for, whoever may have written it before. */
    ghost predicate Intact()
      requires StoreOk(store)
      reads this
    {
      LiveOk(store, live, stage)
    }

    /** An adopted baseline. */
    constructor (baseline: Payload, calm: bool)
      requires baseline.readable
      ensures this.calm == calm && Valid() && !edited && live == baseline && store == Adopted(baseline)
    {
      this.calm := calm;
      store, live, stage, raws := Adopted(baseline), baseline, None, {baseline};
      edited, theirs, reconciliations := false, baseline, 0;
      new;
      AdoptedOk(baseline);
      assert store.generations[0] in store.generations;
    }

    /** The same authority and files, as a later process finds them. */
    constructor Resumed(earlier: Controller, calm: bool)
      requires earlier.Valid()
      ensures Valid() && this.calm == calm && edited == earlier.edited
      ensures store == earlier.store && live == earlier.live && stage == earlier.stage && raws == earlier.raws
    {
      this.calm := calm;
      store, live, stage, raws := earlier.store, earlier.live, earlier.stage, earlier.raws;
      edited, theirs, reconciliations := earlier.edited, earlier.theirs, 0;
    }

    // ------------------------------------------------------------ effects

    /** The process may be stopped here. */
    method Tick() returns (r: Reply<(), Error>)
      ensures (r.Ok? || r.Stopped?) && (calm ==> r.Ok?)
    {
      var stopped := Fails(calm);
      return if stopped then Stopped else Ok(());
    }

    /** Removes one raw snapshot; a failed removal may have happened all the same. */
    method RemoveRaw(d: Digest) returns (removed: bool)
      requires Valid() && !Protected(store, d)
      modifies this`raws
      ensures Valid() && raws <= old(raws) <= raws + {d}
      ensures removed ==> d !in raws
      ensures calm ==> removed
    {
      var failed := Fails(calm);
      removed := !failed;
      var gone: bool := *;
      if removed || gone {
        raws := raws - {d};
      }
    }

    method RetainRaw(d: Digest) returns (ok: bool)
      requires Valid()
      modifies this`raws
      ensures Valid() && old(raws) <= raws <= old(raws) + {d} && (ok ==> d in raws) && (calm ==> ok)
    {
      var failed := Fails(calm);
      ok := !failed;
      if ok {
        raws := raws + {d};
      }
    }

    /** removeUnreferencedRaws. */
    method RemoveUnreferencedRaws() returns (r: Reply<(), Error>)
      requires Valid()
      modifies this`raws
      ensures Valid() && raws <= old(raws)
      ensures (r.Ok? || r.Stopped?) && (calm ==> r.Ok?)
      ensures calm ==> AllReferenced(store, raws)
    {
      var pending := set d | d in raws && forall g | g in store.generations :: g.rawRetained ==> g.digest != d;
      while pending != {}
        invariant Valid() && raws <= old(raws)
        invariant forall d :: d in pending ==> forall g | g in store.generations :: g.rawRetained ==> g.digest != d
        invariant calm ==> forall d :: d in raws && d !in pending ==> Referenced(store, d)
        decreases |pending|
      {
        var d :| d in pending;
        var _ :- Tick();
        UnreferencedUnprotected(store, d);
        var _ := RemoveRaw(d);
        pending := pending - {d};
      }
      return Ok(());
    }

    /** completeRawPrune. */
    method CompleteRawPrune(d: Digest) returns (r: Reply<(), Error>)
      requires Valid() && d in store.claims
      modifies this`store, this`raws
      ensures Valid() && Settled(old(store), store) && raws <= old(raws)
      ensures store.claims == old(store).claims || store.claims == old(store).claims - {d}
      ensures (r.Ok? || r.Stopped?) && (calm ==> r.Ok?)
      ensures calm ==> raws == old(raws) - {d} && Some(store) == Complete(old(store), d, true)
    {
      hide StoreOk, RawsOk, StageOk, LiveOk, Settled, Complete;
      ClaimedUnprotected(store);
      SettledReflexive(store);
      var _ :- Tick();
      var removed := RemoveRaw(d);
      var _ :- Tick();
      var lost := Fails(calm);
      if !lost {
        CompleteSettles(store, d, removed);
        CompleteFiles(store, d, removed, live, stage, raws);
        store := Complete(store, d, removed).value;
      }
      return Ok(());
    }

    /** Claims a candidate unless something live uses it by now, and completes the claim. */
    method PruneCandidate(d: Digest) returns (r: Reply<(), Error>)
      requires Valid()
      modifies this`store, this`raws
      ensures Valid() && Settled(old(store), store) && raws <= old(raws)
      ensures (r.Ok? || r.Stopped?) && (calm ==> r.Ok?)
      ensures calm && !Protected(old(store), d) ==> Forgotten(store, d) && store.claims == old(store).claims - {d}
    {
      SettledReflexive(store);
      var _ :- Tick();
      if Claim(store, d).Some? {
        ClaimKeeps(store, d);
        store := Claim(store, d).value;
        ghost var claimed := store;
        var _ :- CompleteRawPrune(d);
        SettledTransitive(old(store), claimed, store);
        if calm {
          CompleteForgets(claimed, d);
        }
      }
      return Ok(());
    }

    /** Finishes the claims an earlier, interrupted prune left. */
    method FinishClaims() returns (r: Reply<(), Error>)
      requires Valid()
      modifies this`store, this`raws
      ensures Valid() && Settled(old(store), store) && raws <= old(raws)
      ensures (r.Ok? || r.Stopped?) && (calm ==> r.Ok?)
      ensures calm ==> store.claims == {}
    {
      hide StoreOk, RawsOk;
      SettledReflexive(store);
      var claims := store.claims;
      while claims != {}
        invariant calm ==> store.claims == claims
        invariant Valid() && Settled(old(store), store) && claims <= store.claims && raws <= old(raws)
        decreases |claims|
      {
        var d :| d in claims;
        ghost var before := store;
        var _ :- CompleteRawPrune(d);
        SettledTransitive(old(store), before, store);
        CompleteSettles(before, d, true);
        claims := claims - {d};
      }
      return Ok(());
    }

    /** pruneLocked: first the claims left behind, then what exceeds the retained history, then
        raw files no generation references. A calm one leaves nothing to prune. */
    method PruneLocked() returns (r: Reply<(), Error>)
      requires Valid()
      modifies this`store, this`raws
      ensures Valid() && Settled(old(store), store) && raws <= old(raws)
      ensures (r.Ok? || r.Stopped?) && (calm ==> r.Ok?)
      ensures calm ==>
        store.claims == {} && PruneCandidates(store, RAW_RETAIN_COUNT) == {} && AllReferenced(store, raws)
    {
      hide StoreOk, RawsOk, StageOk, LiveOk, Settled, PruneCandidates, Forgotten, Protected;
      var _ :- FinishClaims();
      ghost var finished := store;
      SettledReflexive(store);
      var candidates := PruneCandidates(store, RAW_RETAIN_COUNT);
      ghost var all := candidates;
      while candidates != {}
        invariant Valid() && Settled(old(store), store) && Settled(finished, store) && raws <= old(raws)
        invariant candidates <= all && (calm ==> store.claims == {})
        invariant calm ==> forall d :: d in all && d !in candidates ==> Forgotten(store, d)
        decreases |candidates|
      {
        var d :| d in candidates;
        candidates := candidates - {d};
        ghost var before := store;
        CandidateUnprotected(finished, before, d);
        var pruned := PruneCandidate(d);
        SettledTransitive(old(store), before, store);
        SettledTransitive(finished, before, store);
        var _ :- pruned;
        forall e | e in all && e !in candidates && e != d && calm ensures Forgotten(store, e) {
          ForgottenLater(before, store, e);
        }
      }
      if calm {
        NothingToPrune(finished, store);
      }
      r := RemoveUnreferencedRaws();
    }

    // ------------------------------------------------------------ the live file

    /** Someone else may write the live file at this point. */
    method ForeignEdit()
      modifies this`live, this`edited, this`theirs
      ensures edited == (old(edited) || live != old(live))
      ensures live != old(live) ==> theirs == live
      ensures calm ==> live == old(live) && theirs == old(theirs)
    {
      var other := Fails(calm);
      if other {
        var written: Payload := *;
        if written != live {
          live, edited, theirs := written, true, written;
        }
      }
    }

    /** Files.ReplaceLive: stage the target, exchange the two files atomically, then check that the
        file taken out is the expected parent. An edit that slipped in before the exchange is
        captured by it and put back. */
    method ReplaceLive(id: nat, op: Operation, expected: Payload, payload: Payload) returns (r: Reply<(), Error>)
      requires Valid() && Incomplete(store.generations) == Some(id) && Known(store, id)
               && Row(store, id).operation == Some(op)
      requires expected == Desired(store).digest && payload == Row(store, id).digest
      modifies this`live, this`stage, this`edited, this`theirs
      ensures Valid() && (old(edited) ==> edited)
      ensures calm && old(live) == expected && old(stage).None? ==> r.Ok?
      ensures r.Ok? ==> live == payload && stage.None? && edited == old(edited)
      // Over another live file, or beside a staged one, nothing is attempted; and a failure that is nobody
      // else's doing either has exchanged the files or leaves both as they were.
      ensures old(live) != expected || old(stage).Some? ==> r.Err? && live == old(live) && stage == old(stage)
      ensures r.Err? && !edited ==> live == payload || (live == old(live) && stage == old(stage))
      ensures edited && !old(edited) ==> live == theirs || (stage.Some? && stage.value.payload == theirs)
    {
      hide RawsOk, RowOk, AppliedRowOk;
      if live != expected || stage.Some? {
        return Err(Conflict);
      }
      var _ :- Tick();
      var unstaged := Fails(calm);
      if unstaged {
        return Err(Internal);
      }
      stage := Some(Stage(op, payload));
      var _ :- Tick();
      ForeignEdit();
      var refused := Fails(calm);
      if refused {
        stage := None;
        return Err(Internal);
      }
      live, stage := stage.value.payload, Some(Stage(op, live));
      var _ :- Tick();
      if stage.value.payload != expected {
        r := PutBack();
      } else {
        r := FinishExchange();
      }
    }

    /** The exchange took out something else than the expected parent: exchange again. */
    method PutBack() returns (r: Reply<(), Error>)
      requires Valid() && stage.Some? && edited
      modifies this`live, this`stage
      ensures Valid() && !r.Ok?
      ensures live == old(stage).value.payload || stage == old(stage)
    {
      if * {
        return Err(Conflict);
      }
      live, stage := stage.value.payload, Some(Stage(stage.value.operation, live));
      var _ :- Tick();
      if * {
        stage := None;
      }
      return Err(Conflict);
    }

    /** The captured parent is kept beside the live target until the directory is durable. */
    method FinishExchange() returns (r: Reply<(), Error>)
      requires Valid() && stage.Some?
      modifies this`stage
      ensures Valid() && (stage == old(stage) || stage.None?)
      ensures (r.Ok? ==> stage.None?) && (calm ==> r.Ok?)
    {
      var unverified := Fails(calm);
      if unverified {
        return Err(Internal);
      }
      var _ :- Tick();
      stage := None;
      var undurable := Fails(calm);
      if undurable {
        return Err(Internal);
      }
      return Ok(());
    }

    /** Files.ReconcileReplacement: proves what the live file is after an interrupted exchange, and
        cleans the staged file up. None: the evidence is unsafe or contradictory. */
    method ReconcileReplacement(id: nat, op: Operation, parent: Payload, target: Payload)
      returns (r: Reply<Option<Payload>, Error>)
      requires Valid() && Known(store, id) && Row(store, id).operation == Some(op)
      requires target == Row(store, id).digest && parent != target
      requires Unsettled(Row(store, id)) ==> parent == Desired(store).digest
      modifies this`live, this`stage
      ensures Valid()
      ensures old(Intact()) ==> live == old(live)
      ensures live != old(live) ==>
        old(live) == target && old(stage).Some? && old(stage).value.payload == live != parent
      ensures r.Ok? && r.value.Some? ==>
        r.value.value == live && !(stage.Some? && stage.value.operation == op)
      ensures !r.Err?
      ensures calm ==> r == Ok(Evidence(old(live), old(stage), op, parent, target))
    {
      hide StoreOk, RawsOk;
      if Unsettled(Row(store, id)) {
        UnsettledUnique(store, id);
        if Intact() {
          UnsettledFiles(store, live, stage, raws, id);
        }
      }
      IncompleteSound(store.generations);
      assert stage.Some? && stage.value.operation == op ==> Incomplete(store.generations) == Some(id) by {
        FindUnique(store, op, id);
        if stage.Some? && stage.value.operation == op {
          FindUnique(store, op, Incomplete(store.generations).value);
        }
      }
      var unreadable := Fails(calm);
      var readable := live.readable && !unreadable;
      if stage.None? || stage.value.operation != op {
        return Ok(if readable then Some(live) else None);
      }
      if !readable {
        return Ok(None);
      }
      var staged := stage.value.payload;
      if live == target && staged == parent {
        var unsafeEvidence := Fails(calm);
        if unsafeEvidence {
          return Ok(None);
        }
      } else if live == target {
        var _ :- Tick();
        live, stage := staged, Some(Stage(op, live));
        var unproven := Fails(calm);
        if unproven {
          return Ok(None);
        }
        if !live.readable {
          return Ok(None);
        }
      } else if staged != target {
        return Ok(None);
      }
      var _ :- Tick();
      var kept := Fails(calm);
      if kept {
        return Ok(None);
      }
      stage := None;
      var undurable := Fails(calm);
      if undurable {
        return Ok(None);
      }
      return Ok(Some(live));
    }

    /** What is live after an interrupted replacement, judged against both retained snapshots; None
        when either snapshot is missing or the evidence is not conclusive. */
    method LiveEvidence(id: nat, op: Operation, parent: Payload, target: Payload)
      returns (r: Reply<Option<Payload>, Error>)
      requires Valid() && Known(store, id) && Row(store, id).operation == Some(op)
      requires target == Row(store, id).digest && parent != target
      requires Unsettled(Row(store, id)) ==> parent == Desired(store).digest
      modifies this`live, this`stage
      ensures Valid() && !r.Err?
      ensures old(Intact()) ==> live == old(live)
      ensures calm && Unsettled(Row(store, id)) ==> r == Ok(Evidence(old(live), old(stage), op, parent, target))
      ensures r.Ok? && r.value.Some? ==> r.value.value == live && !(stage.Some? && stage.value.operation == op)
      ensures r.Ok? && r.value.Some? ==> target in raws && parent in raws
    {
      if Unsettled(Row(store, id)) {
        TargetKept(store, raws, id);
      }
      var unreadable := Fails(calm);
      if target !in raws || parent !in raws || unreadable {
        return Ok(None);
      }
      r := ReconcileReplacement(id, op, parent, target);
    }

    // ------------------------------------------------------------ settlement

    /** settleAmbiguous: the apply stays unsettled until someone recovers it by hand. */
    method SettleUnresolved(id: nat, parent: nat, op: Operation) returns (r: Reply<Store, Error>)
      requires Valid() && Known(store, id)
      modifies this`store
      ensures Valid() && Extends(old(store), store) && store.desired == old(store).desired
      ensures (r == Err(UnresolvedApply) || r.Stopped?) && (calm ==> r.Err?)
      ensures store == old(store) || Settle(old(store), id, parent, op, Unresolved) == Some(store)
      // Still accepted: it is suspended.
      ensures calm && Accepts(old(store), id, op) && Row(old(store), id).parent == parent ==>
        Known(store, id) && Row(store, id).state == Ambiguous
    {
      hide StoreOk, RawsOk, StageOk, LiveOk;
      var _ :- Tick();
      AcceptedSettles(store, id, parent, op, Unresolved);
      var settled := Settle(store, id, parent, op, Unresolved);
      var lost := Fails(calm);
      if settled.Some? && !lost {
        SettleKeeps(store, id, parent, op, Unresolved);
        SettleFiles(store, id, parent, op, Unresolved, live, stage, raws);
        store := settled.value;
      }
      return Err(UnresolvedApply);
    }

    /** The transaction that settles an apply as committed or failed. */
    method SettleAs(id: nat, parent: nat, op: Operation, outcome: ApplyOutcome) returns (r: Reply<Store, Error>)
      requires Valid() && Known(store, id) && outcome != Unresolved
      requires Row(store, id).state == Accepted && Row(store, id).operation == Some(op)
               && Row(store, id).parent == parent ==>
        stage.None? && (live == if outcome == Committed then Row(store, id).digest else Desired(store).digest)
      modifies this`store
      ensures Valid() && Extends(old(store), store)
      ensures calm && Accepts(old(store), id, op) && Row(old(store), id).parent == parent ==> r.Ok?
      ensures r.Ok? ==> r.value == store && Settle(old(store), id, parent, op, outcome) == Some(store)
      ensures r.Err? ==> r.error == Conflict
      ensures r.Ok? && Row(old(store), id).state == Accepted ==> SettledAs(store, id, outcome)
      ensures store != old(store) ==>
        && Row(old(store), id).state == Accepted && Incomplete(store.generations).None?
        && live == Desired(store).digest && store.desired == (if outcome == Committed then id else old(store).desired)
    {
      hide StoreOk, RawsOk;
      var _ :- Tick();
      AcceptedSettles(store, id, parent, op, outcome);
      var settled := Settle(store, id, parent, op, outcome);
      var lost := Fails(calm);
      if settled.None? || lost {
        return Err(Conflict);
      }
      SettleKeeps(store, id, parent, op, outcome);
      SettleFiles(store, id, parent, op, outcome, live, stage, raws);
      if Row(store, id).state == Accepted {
        SettleOutcome(store, id, parent, op, outcome);
      }
      store := settled.value;
      return Ok(store);
    }

    /** Reconcile from the moment it holds the replacement lock. `seen` is the authority it read
        before: the apply it found accepted may have been settled by someone else since. */
    method SettleSection(seen: Store) returns (r: Reply<Store, Error>)
      requires Valid() && StoreOk(seen) && Extends(seen, store)
      requires Incomplete(seen.generations).Some? && Known(seen, Incomplete(seen.generations).value)
      requires Row(seen, Incomplete(seen.generations).value).state == Accepted
      modifies this`store, this`live, this`stage, this`raws
      ensures Valid() && Extends(old(store), store)
      ensures r.Err? ==> r.error == Conflict || r.error == UnresolvedApply
      // In a calm run it settles what is still accepted, as the live and the staged file tell.
      ensures var id := Incomplete(seen.generations).value;
              calm && Known(old(store), id) && Row(old(store), id).state == Accepted ==>
                && SettledAs(store, id, VerdictOn(old(store), id, old(live), old(stage)))
                && AnswersAs(r, VerdictOn(old(store), id, old(live), old(stage)))
      ensures r.Ok? ==> Tells(r.value, store)
      // Whoever makes a generation desired has just seen it live.
      ensures store.desired != old(store).desired ==> live == Desired(store).digest
      // Still accepted: a success settles it, as committed exactly when its target is live.
      ensures var id := Incomplete(seen.generations).value;
              r.Ok? && Known(old(store), id) && Row(old(store), id).state == Accepted ==>
                && Incomplete(store.generations).None? && Known(store, id)
                && live == Desired(store).digest
                && (store.desired == id <==> live == Row(store, id).digest)
      ensures old(Intact()) ==> live == old(live)
    {
      hide StoreOk, RawsOk, StageOk, LiveOk;
      var id := Incomplete(seen.generations).value;
      SeenIntent(seen, store, id);
      var op := Row(seen, id).operation.value;
      var parent, target := Desired(seen).digest, Row(store, id).digest;
      var current :- LiveEvidence(id, op, parent, target);
      r := SettleObserved(id, seen.desired, op, parent, target, current);
    }

    /** Chooses the outcome from what the live file was proved to be. */
    method SettleObserved(id: nat, parentId: nat, op: Operation, parent: Payload, target: Payload,
      current: Option<Payload>)
      returns (r: Reply<Store, Error>)
      requires Valid() && Known(store, id) && Row(store, id).operation == Some(op) && Row(store, id).parent == parentId
      requires target == Row(store, id).digest && parent != target
      requires Unsettled(Row(store, id)) ==> parent == Desired(store).digest
      requires current.Some? ==> current.value == live && !(stage.Some? && stage.value.operation == op)
      modifies this`store, this`raws
      ensures Valid() && Extends(old(store), store)
      ensures r.Err? ==> r.error == Conflict || r.error == UnresolvedApply
      ensures var outcome := if current == Some(target) then Committed
                             else if current == Some(parent) then ApplyOutcome.Rejected else Unresolved;
              calm && Row(old(store), id).state == Accepted ==> SettledAs(store, id, outcome) && AnswersAs(r, outcome)
      ensures r.Ok? ==> Tells(r.value, store)
      ensures store.desired != old(store).desired ==> live == Desired(store).digest
      ensures r.Ok? && Row(old(store), id).state == Accepted ==>
                && Incomplete(store.generations).None? && Known(store, id)
                && live == Desired(store).digest
                && (store.desired == id <==> live == Row(store, id).digest)
    {
      hide StoreOk, RawsOk, StageOk, LiveOk;
      if current != Some(target) && current != Some(parent) {
        r := SettleUnresolved(id, parentId, op);
        return;
      }
      NoStage(store, stage, id, op);
      r := SettleAndPrune(id, parentId, op, if current == Some(target) then Committed else ApplyOutcome.Rejected);
    }

    /** A settlement, and the pruning that follows it. */
    method SettleAndPrune(id: nat, parentId: nat, op: Operation, outcome: ApplyOutcome) returns (r: Reply<Store, Error>)
      requires Valid() && Known(store, id) && outcome != Unresolved
      requires Row(store, id).operation == Some(op) && Row(store, id).parent == parentId
      requires Row(store, id).state == Accepted ==>
        stage.None? && live == (if outcome == Committed then Row(store, id).digest else Desired(store).digest)
      modifies this`store, this`raws
      ensures Valid() && Extends(old(store), store)
      ensures r.Err? ==> r.error == Conflict
      ensures calm && Row(old(store), id).state == Accepted ==> r.Ok?
      ensures r.Ok? && Row(old(store), id).state == Accepted ==> SettledAs(store, id, outcome)
      ensures r.Ok? ==> Tells(r.value, store)
      ensures store.desired != old(store).desired ==> live == Desired(store).digest
      ensures r.Ok? && Row(old(store), id).state == Accepted ==>
                && Incomplete(store.generations).None? && Known(store, id)
                && live == Desired(store).digest
                && store.desired == (if outcome == Committed then id else old(store).desired)
    {
      hide StoreOk, RawsOk, StageOk, LiveOk, Settle;
      r := SettleAs(id, parentId, op, outcome);
      if r.Ok? {
        ghost var settled := store;
        SettleMoves(old(store), id, parentId, op, outcome, settled);
        var pruned := PruneLocked();
        ExtendsTransitive(old(store), settled, store);
        SettledTells(settled, store);
        if pruned.Stopped? {
          return Stopped;
        }
      }
    }

    // ------------------------------------------------------------ runtime observation

    /** observeDriftTransition. */
    method RecordDrift(writable: bool) returns (ok: bool)
      requires Valid()
      modifies this`store
      ensures Valid() && Extends(old(store), store)
      ensures var drifted := !live.readable || live != Desired(old(store)).digest;
              var moved := if old(store).drifted == drifted then 0 else 1;
              ok ==> store == old(store).(drifted := drifted, version := old(store).version + moved)
      ensures !ok ==> store == old(store)
      ensures OnlyObserved(old(store), store) && (writable ==> ok)
    {
      var lost := *;
      if lost && !writable {
        return false;
      }
      var drifted := !live.readable || live != Desired(store).digest;
      ObserveDriftKeeps(store, store.desired, Desired(store).digest, drifted);
      store := ObserveDrift(store, store.desired, Desired(store).digest, drifted).value;
      return true;
    }

    /** The transaction that records the desired generation as effective. */
    method RecordEffective(writable: bool) returns (ok: bool)
      requires Valid() && Incomplete(store.generations).None?
      modifies this`store
      ensures Valid() && Extends(old(store), store) && store.desired == old(store).desired
      ensures Incomplete(store.generations) == Incomplete(old(store).generations)
      ensures OnlyObserved(old(store), store) && (writable ==> ok)
      ensures store
        == if ok && old(store).effective != old(store).desired then MadeEffective(old(store)) else old(store)
    {
      var lost := *;
      if lost && !writable {
        return false;
      }
      var observed := ObserveEffective(store, store.desired, Desired(store).digest);
      EffectiveMakes(store);
      if observed.Some? {
        ObserveEffectiveKeeps(store, store.desired, Desired(store).digest);
        EffectiveFiles(store, live, stage, raws);
        store := observed.value;
      }
      return true;
    }

    /** ReconcileRuntime: records a drift transition and, for a fresh worker that loaded the desired
        configuration while it is live, that it is effective. `writable`: its store writes succeed. */
    method ReconcileRuntime(runtime: Option<Runtime>, writable: bool) returns (r: Reply<Store, Error>)
      requires Valid()
      modifies this`store
      ensures Valid() && Extends(old(store), store) && store.desired == old(store).desired
      ensures Incomplete(store.generations) == Incomplete(old(store).generations)
      ensures OnlyObserved(old(store), store)
      ensures !r.Stopped? && (r.Err? ==> r == Err(Internal)) && (writable && runtime.Some? ==> r.Ok?)
      // It records exactly what there is to see, unless a write fails on the way.
      ensures r.Ok? || writable ==> store == AfterObserving(old(store), live, runtime)
      ensures !Moves(old(store), live, runtime) ==> store == old(store)
      ensures r.Err? ==> store == old(store).(drifted := store.drifted, version := store.version)
      ensures r.Ok? ==>
        runtime.Some? && StoreOk(r.value) && r.value == store.(drifted := r.value.drifted, version := r.value.version)
      ensures r.Ok? && Incomplete(store.generations).None? && Agrees(store, live, runtime) ==>
        r.value.version == store.version
    {
      hide StoreOk, RawsOk, StageOk, LiveOk, Incomplete;
      var authority := store;
      DesiredKept(store, raws);
      if Incomplete(store.generations).None? {
        var recorded := RecordDrift(writable);
        if !recorded {
          return Err(Internal);
        }
      }
      if runtime.None? {
        return Err(Internal);
      }
      if Incomplete(authority.generations).Some? || !runtime.value.liveness.Fresh?
         || runtime.value.loaded != Some(Desired(authority).digest) || runtime.value.observedAt.None? {
        return Ok(authority);
      }
      if !live.readable || Desired(authority).digest !in raws || live != Desired(authority).digest {
        return Ok(authority);
      }
      ghost var before := store;
      var recorded := RecordEffective(writable);
      ExtendsTransitive(old(store), before, store);
      if !recorded {
        return Err(Internal);
      }
      return Ok(store);
    }

    /** reconcileRuntimeBestEffort: what it cannot observe or record is ignored. It answers with the
        authority it ends with, or with the one known before when it ends with another generation. */
    method ReconcileRuntimeBestEffort(known: Store, observer: Observer, writable: bool) returns (authority: Store)
      requires Valid() && StoreOk(known) && Extends(known, store)
      modifies this`store
      ensures Valid() && OnlyObserved(old(store), store)
      ensures writable ==> store == Noticed(old(store), live, observer)
      ensures !Noticing(old(store), live, observer) ==> store == old(store)
      ensures StoreOk(authority) && Extends(known, authority) && authority.desired == known.desired
      ensures authority == known || Desired(authority) == Desired(store)
      ensures Desired(known) == Desired(old(store)) && known.desired == store.desired ==>
        Desired(authority) == Desired(store)
    {
      hide StoreOk, RawsOk, StageOk, LiveOk, Incomplete;
      ExtendsReflexive(store);
      ExtendsReflexive(known);
      if observer.Unwired? || Incomplete(store.generations).Some? {
        return known;
      }
      var r := ReconcileRuntime(observer.Report(), writable);
      ghost var before := old(store);
      ExtendsTransitive(known, before, store);
      if r.Ok? && r.value.desired == known.desired {
        SameHistory(known, store, r.value);
        return r.value;
      }
      return known;
    }

    /** CheckNewAdmission, the gate that reconciles while it checks. `writable`: its store writes succeed. */
    method CheckNewAdmission(runtime: Option<Runtime>, writable: bool) returns (d: Decision)
      requires Valid()
      modifies this`store
      ensures Valid() && Extends(old(store), store)
      // It admits only what is wholly settled and in agreement.
      ensures d.Admitted? ==> Converged(store, live, runtime)
      // With its writes it admits exactly that.
      ensures writable ==> (d.Admitted? <==> Converged(store, live, runtime))
      // An admission without an observation time carries no authority.
      ensures d.Admitted? ==> (d.authority.Some? <==> runtime.value.observedAt.Some?)
      // The authority it hands on is the desired generation at the store's version, for as long as the
      // worker's last heartbeat is fresh.
      ensures d.Admitted? && d.authority.Some? ==>
        d.authority.value == AdmissionAuthority(store.desired, Desired(store).digest, store.version,
          runtime.value.observedAt.value + HEARTBEAT_STALE_AFTER)
      // Whatever the read-only gate admits, it admits too, for the same generation and digest.
      // Only the authority version moves, by one, exactly when the check clears an earlier drift.
      ensures writable && AdmitsReadOnly(old(store), live, raws, runtime).Admitted? ==>
        var readOnly := AdmitsReadOnly(old(store), live, raws, runtime).authority.value;
        d == Admitted(Some(readOnly.(version := readOnly.version + if old(store).drifted then 1 else 0)))
    {
      hide StoreOk, RawsOk;
      ReadOnlyGateSound(store, live, raws, runtime);
      IncompleteSound(store.generations);
      var authority := ReconcileRuntime(runtime, writable);
      if !authority.Ok? {
        return Denied;
      }
      ReadyMeansConverged(store, live, runtime.value);
      assert Project(authority.value, live, runtime.value) == Project(store, live, runtime.value);
      if Project(authority.value, live, runtime.value) == Ready {
        d := Admitted(AuthorityFor(authority.value, runtime.value));
      } else {
        d := Denied;
      }
    }

    // ------------------------------------------------------------ apply

    /** removeUnreferencedRaw. */
    method RemoveUnreferencedRaw(d: Digest)
      requires Valid()
      modifies this`raws
      ensures Valid() && raws <= old(raws) <= raws + {d}
      ensures Referenced(store, d) ==> raws == old(raws)
      ensures calm && !Referenced(store, d) ==> d !in raws
    {
      if forall g | g in store.generations :: g.rawRetained ==> g.digest != d {
        UnreferencedUnprotected(store, d);
        var _ := RemoveRaw(d);
      }
    }

    /** Retains the target's raw bytes before any intent may name them. */
    method KeepTargetRaw(d: Digest) returns (r: Reply<(), Error>)
      requires Valid()
      modifies this`raws
      ensures Valid() && (r.Ok? ==> d in raws)
      ensures (r.Err? ==> r == Err(Internal)) && (calm ==> r.Ok?)
      ensures calm ==> AllReferenced(store, raws - {d})
    {
      var _ :- RemoveUnreferencedRaws();
      var _ :- Tick();
      var retained := RetainRaw(d);
      if !retained {
        return Err(Internal);
      }
      r := Tick();
    }

    /** From the accepted intent to its settlement: replace the live file, read it back, commit. */
    method Publish(id: nat, op: Operation) returns (r: Reply<Answer, Error>)
      requires Valid() && Incomplete(store.generations) == Some(id) && Known(store, id)
      requires Row(store, id).state == Accepted && Row(store, id).operation == Some(op)
      modifies this`store, this`live, this`stage, this`raws, this`edited, this`theirs
      ensures Valid() && Extends(old(store), store) && (old(edited) ==> edited)
      ensures calm && old(live) == Desired(old(store)).digest && old(stage).None? ==> r.Ok?
      ensures r.Ok? ==> Names(store, op, r.value) && AnswersDesired(store, op, r.value)
      ensures r.Ok? ==> store.desired == id && live == Desired(store).digest && Incomplete(store.generations).None?
      // Unless it asks for a reconciliation, a failure leaves the target live with nothing staged.
      ensures r.Err? && r.error != NeedsReconcile ==> r.error == Conflict && live == op.candidate && stage.None?
    {
      hide StoreOk, RawsOk, StageOk, LiveOk, Names;
      ExtendsReflexive(store);
      AcceptedIntent(store, id, op);
      var _ :- Tick();
      var replaced := ReplaceLive(id, op, Desired(store).digest, op.candidate);
      if replaced.Stopped? {
        return Stopped;
      }
      if replaced.Err? {
        return Err(NeedsReconcile);
      }
      r := VerifyAndCommit(id, op);
    }

    /** Reads the replaced live file back, and commits only what it asked for. */
    method VerifyAndCommit(id: nat, op: Operation) returns (r: Reply<Answer, Error>)
      requires Valid() && Known(store, id) && Row(store, id).digest == op.candidate && stage.None?
      requires Row(store, id).state == Accepted && Row(store, id).operation == Some(op)
               && Row(store, id).parent == store.desired
      modifies this`store, this`live, this`stage, this`raws, this`edited, this`theirs
      ensures Valid() && Extends(old(store), store) && (old(edited) ==> edited)
      ensures calm && old(live) == op.candidate ==> r.Ok?
      ensures r.Ok? ==> Names(store, op, r.value) && AnswersDesired(store, op, r.value)
      ensures r.Ok? ==> store.desired == id && live == Desired(store).digest && Incomplete(store.generations).None?
      ensures r.Err? && r.error != NeedsReconcile ==> r.error == Conflict && live == op.candidate && stage.None?
    {
      hide StoreOk, RawsOk, StageOk, LiveOk, Names;
      ForeignEdit();
      var unreadable := Fails(calm);
      if unreadable || live != op.candidate {
        return Err(NeedsReconcile);
      }
      var settled :- SettleAs(id, store.desired, op, Committed);
      SettleMoves(old(store), id, old(store).desired, op, Committed, store);
      r := AfterCommit(id, op);
      ExtendsTransitive(old(store), settled, store);
    }

    /** Observes the runtime as far as possible, prunes, and answers with the committed generation. */
    method AfterCommit(id: nat, op: Operation) returns (r: Reply<Answer, Error>)
      requires Valid() && Incomplete(store.generations).None? && store.desired == id
               && Desired(store).operation == Some(op)
      requires live == Desired(store).digest
      modifies this`store, this`raws
      ensures Valid() && Extends(old(store), store)
      ensures store.desired == id && live == Desired(store).digest && Incomplete(store.generations).None?
      ensures !r.Err? && (calm ==> r.Ok?)
      ensures r.Ok? ==> Names(store, op, r.value) && AnswersDesired(store, op, r.value)
    {
      hide StoreOk, RawsOk, StageOk, LiveOk;
      DesiredAnswers(store, op);
      var receipt := store.receipts[op];
      var observer: Observer := *;
      var lost := Fails(calm);
      ghost var committed := store;
      var settled := ReconcileRuntimeBestEffort(store, observer, !lost);
      ghost var observed := store;
      var answer := Answer(Desired(settled), receipt, false);
      DesiredStays(committed, observed);
      DesiredAnswers(observed, op);
      var pruned := PruneLocked();
      AnswerKept(committed, observed, store, op, answer);
      r := if pruned.Stopped? then Stopped else Ok(answer);
    }

    /** Apply from the moment it holds the replacement lock; `seen` is the authority it read before. */
    method ApplySection(c: Command) returns (r: Reply<Answer, Error>)
      requires Valid() && c.payload != c.expected && Current(c.payload)
      modifies this`store, this`live, this`stage, this`raws, this`edited, this`theirs
      ensures Valid() && Extends(old(store), store) && (old(edited) ==> edited)
      ensures r.Ok? ==> Names(store, OperationOf(c), r.value) && !r.value.noOp
      ensures calm && (OperationOf(c) in old(store).receipts
                || (Acceptable(old(store), c) && old(live) == Desired(old(store)).digest)) ==>
        r.Ok?
      ensures calm && OperationOf(c) !in old(store).receipts && !Acceptable(old(store), c) ==> r == Err(Conflict)
      ensures r == Err(NeedsReconcile) ==> FindOperation(store.generations, OperationOf(c)).Some?
      // Whatever else fails is refused and leaves no raw bytes behind, or leaves the target live.
      ensures r.Err? ==> r.error in {NeedsReconcile, Conflict, Internal}
      ensures r == Err(Conflict) && OperationOf(c) in store.receipts ==> live == c.payload && stage.None?
      ensures calm && r == Err(Conflict) && OperationOf(c) !in store.receipts ==> AllReferenced(store, raws)
      // A generation made by this very call is the desired one, and live.
      ensures r.Ok? && OperationOf(c) !in old(store).receipts ==>
        && AnswersDesired(store, OperationOf(c), r.value)
        && Desired(store).operation == Some(OperationOf(c))
        && Desired(store).parent == old(store).desired == c.expectedId
        && Desired(store).digest == c.payload == live
        && Incomplete(store.generations).None?
    {
      hide StoreOk, RawsOk, StageOk, LiveOk, FindOperation;
      var op := OperationOf(c);
      if op in store.receipts {
        ReceiptHasGeneration(store, op);
      } else if Acceptable(store, c) {
        QuietStage(store, stage);
      }
      var _ :- KeepTargetRaw(c.payload);
      var busy := Fails(calm);
      var accepted := Begin(store, op, c.expectedVersion, !busy);
      match accepted
      case Refused =>
        RemoveUnreferencedRaw(c.payload);
        r := Err(Conflict);
      case Replayed(g) =>
        ReplayNames(store, op);
        r := Ok(Answer(g, store.receipts[op], false));
      case Created(t, g) =>
        BeginKeeps(store, op, c.expectedVersion, !busy);
        BeginFiles(store, op, c.expectedVersion, !busy, live, stage, raws);
        store := t;
        r := Publish(g.id, op);
        ApplyMade(old(store), t, store, g.id, op);
    }

    /** recordNoOp. */
    method SettleNoOp(c: Command) returns (r: Reply<Answer, Error>)
      requires Valid() && c.payload == c.expected
      modifies this`store
      ensures Valid() && Extends(old(store), store)
      ensures calm && RecordNoOp(old(store), OperationOf(c)).Some? ==> r.Ok?
      ensures r.Err? ==> r == Err(Conflict) && store == old(store)
      ensures r.Ok? ==> store == old(store).(receipts := store.receipts)
      ensures r.Ok? ==> Names(store, OperationOf(c), r.value) && AnswersDesired(store, OperationOf(c), r.value)
    {
      var op := OperationOf(c);
      var _ :- Tick();
      var recorded := RecordNoOp(store, op);
      var lost := Fails(calm);
      if recorded.None? || lost {
        return Err(Conflict);
      }
      NoOpKeeps(store, op);
      NoOpNames(store, op);
      store := recorded.value;
      return Ok(Answer(Desired(store), store.receipts[op], true));
    }

    /** Whatever other processes do to the authority and whatever anyone does to the live file while
        this one holds no lock: any number of their critical sections, stopped anywhere. Callers
        rely on the contract only. */
    method Interfere()
      requires Valid()
      modifies this`store, this`live, this`stage, this`raws, this`edited, this`theirs
      ensures Valid() && Extends(old(store), store) && (old(edited) ==> edited)
      ensures calm ==>
        store == old(store) && live == old(live) && stage == old(stage) && raws == old(raws) && edited == old(edited)
    {
      var steps: nat := *;
      if calm {
        steps := 0;
      }
      while steps > 0
        invariant Valid() && Extends(old(store), store) && (old(edited) ==> edited)
        invariant calm ==>
          steps <= 0 && store == old(store) && live == old(live) && stage == old(stage) && raws == old(raws)
            && edited == old(edited)
      {
        ghost var before := store;
        OtherSection();
        ExtendsTransitive(old(store), before, store);
        steps := steps - 1;
      }
    }

    method OtherSection()
      requires Valid()
      modifies this`store, this`live, this`stage, this`raws, this`edited, this`theirs
      ensures Valid() && Extends(old(store), store) && (old(edited) ==> edited)
    {
      if
      case true => ForeignEdit();
      case true => var _ := PruneLocked();
      case true =>
        var runtime: Option<Runtime> := *;
        var lost := Fails(calm);
        var _ := ReconcileRuntime(runtime, !lost);
      case true =>
        var c: Command := *;
        if c.payload != c.expected && Current(c.payload) {
          var _ := ApplySection(c);
        } else if c.payload == c.expected {
          var _ := SettleNoOp(c);
        }
      case true =>
        var id := Incomplete(store.generations);
        IncompleteSound(store.generations);
        if id.Some? && Row(store, id.value).state == Accepted {
          var _ := SettleSection(store);
        }
    }

    /** Reconcile: settles the apply it finds accepted, from the exact live bytes. */
    method Reconcile() returns (r: Reply<Store, Error>)
      requires Valid()
      modifies this
      ensures reconciliations == old(reconciliations) + 1
      ensures r.Err? ==> r.error in {Conflict, UnresolvedApply, StillActive, Internal}
      ensures Valid() && Extends(old(store), store) && (old(edited) ==> edited)
      ensures r.Ok? ==> Tells(r.value, store)
      ensures calm && old(Intact()) && !Stuck(old(store)) ==>
        r.Ok? && Incomplete(store.generations).None? && Intact()
      // In a calm run a suspended apply is refused and left as it is, and an accepted one is settled as
      // the live and the staged file tell: suspended when they prove neither parent nor target.
      ensures calm && Stuck(old(store)) ==>
        && r == Err(UnresolvedApply)
        && store == old(store) && live == old(live) && stage == old(stage) && raws == old(raws)
      ensures var id := Incomplete(old(store).generations);
              calm && id.Some? && !Stuck(old(store)) ==>
                && Known(old(store), id.value)
                && SettledAs(store, id.value, VerdictOn(old(store), id.value, old(live), old(stage)))
                && AnswersAs(r, VerdictOn(old(store), id.value, old(live), old(stage)))
      ensures calm && Incomplete(old(store).generations).None? ==>
        r.Ok? && store == old(store) && live == old(live) && stage == old(stage) && raws == old(raws)
    {
      hide StoreOk, RawsOk, StageOk, LiveOk, VerdictOn, Tells;
      reconciliations := reconciliations + 1;
      var seen := store;
      IncompleteSound(seen.generations);
      DesiredKept(seen, raws);
      var unreadable := Fails(calm);
      if unreadable || Desired(seen).digest !in raws {
        return Err(Conflict);
      }
      var id := Incomplete(seen.generations);
      if id.None? {
        TellsItself(seen);
        return Ok(seen);
      }
      if Row(seen, id.value).state == Ambiguous {
        return Err(UnresolvedApply);
      }
      if Intact() {
        IntactIsConclusive(store, live, stage, raws, id.value);
      }
      r := ReconcileAccepted(id.value);
      if Incomplete(store.generations).None? && live == Desired(store).digest {
        DesiredIsIntact(store, live, stage);
      }
    }

    /** Takes the replacement lock, and settles the apply it has read as accepted. */
    method ReconcileAccepted(id: nat) returns (r: Reply<Store, Error>)
      requires Valid() && Incomplete(store.generations) == Some(id) && Known(store, id)
      requires Row(store, id).state == Accepted
      modifies this`store, this`live, this`stage, this`raws, this`edited, this`theirs
      ensures Valid() && Extends(old(store), store) && (old(edited) ==> edited)
      ensures r.Err? ==> r.error in {Conflict, UnresolvedApply, StillActive, Internal}
      ensures r.Ok? ==> Tells(r.value, store)
      ensures calm ==>
        && SettledAs(store, id, VerdictOn(old(store), id, old(live), old(stage)))
        && AnswersAs(r, VerdictOn(old(store), id, old(live), old(stage)))
        && (r.Ok? ==> Incomplete(store.generations).None? && live == Desired(store).digest)
    {
      hide StoreOk, RawsOk, StageOk, LiveOk, Tells, VerdictOn;
      var seen := store;
      var active := Fails(calm);
      var unlockable := Fails(calm);
      if active || unlockable {
        return Err(if active then StillActive else Internal);
      }
      Interfere();
      ghost var locked := store;
      r := SettleSection(seen);
      ExtendsTransitive(seen, locked, store);
    }

    /** Apply's reads before it takes the lock. Some: what it answers without applying anything. */
    method Prelude(c: Command, observer: Observer) returns (done: Option<Reply<Answer, Error>>)
      requires Valid()
      modifies this
      ensures Valid() && Extends(old(store), store) && (old(edited) ==> edited)
      ensures done.Some? && done.value.Ok? ==> Names(store, OperationOf(c), done.value.value)
      // An answer is settled, as it must be with nothing unsettled, or another process is still at it.
      ensures done.Some? && done.value.Ok? ==>
        || done.value.value.receipt.Observed? || Incomplete(store.generations).None?
        || (!calm && Replay(old(store), OperationOf(c)) == Some(done.value.value))
      ensures calm && OperationOf(c) in old(store).receipts && done.Some? && done.value.Ok? ==>
        Replayable(old(store), c)
      ensures calm && old(Intact()) && Replayable(old(store), c) ==>
        done.Some? && done.value.Ok? && done.value.value.receipt.Observed?
      // A new command passes exactly when it is complete and authorised; the runtime was then observed.
      ensures calm && IsNew(old(store), c) ==>
        && live == old(live) && (done.Some? ==> done.value == Err(Refusal(old(store), c)))
        && (done.None? <==> WellFormed(c) && Authorized(old(store), c.requester))
        && (done.None? ==> store == Noticed(old(store), live, observer))
      ensures done.None? ==> WellFormed(c) && IsNew(store, c)
    {
      hide StoreOk, RawsOk, StageOk, LiveOk;
      var op := OperationOf(c);
      if c.payload.size > MAXIMUM_BYTES || !ValidProvenance(c.provenance) {
        return Some(Err(InvalidInput));
      }
      var replay := Replay(store, op);
      ReplayNames(store, op);
      if replay.Some? && replay.value.receipt.Observed? {
        return Some(Ok(replay.value));
      }
      Interfere();
      ghost var read := store;
      if !Authorized(store, c.requester) {
        var settled := Replay(store, op);
        ReplayNames(store, op);
        return Some(if settled.Some? && settled.value.receipt.Observed? then Ok(settled.value) else Err(Hidden));
      }
      Interfere();
      ghost var authorized := store;
      ExtendsTransitive(old(store), read, authorized);
      if replay.Some? {
        NamesLater(old(store), authorized, op, replay.value);
        PendingIsNotStuck(old(store), op);
      }
      done := Resolve(c, observer, replay);
      ExtendsTransitive(old(store), authorized, store);
    }

    /** Apply's reconciliation and observation. `replay` is what it read of its own command before. */
    method Resolve(c: Command, observer: Observer, replay: Option<Answer>)
      returns (done: Option<Reply<Answer, Error>>)
      requires Valid() && ValidProvenance(c.provenance) && c.payload.size <= MAXIMUM_BYTES
      requires replay.Some? ==> Names(store, OperationOf(c), replay.value)
      modifies this
      ensures Valid() && Extends(old(store), store) && (old(edited) ==> edited)
      ensures done.Some? && done.value.Ok? ==> Names(store, OperationOf(c), done.value.value)
      ensures done.Some? && done.value.Ok? ==>
        || done.value.value.receipt.Observed? || Incomplete(store.generations).None?
        || (!calm && replay == Some(done.value.value))
      ensures calm && old(Intact()) && OperationOf(c) in old(store).receipts && !Stuck(old(store)) ==>
        done.Some? && done.value.Ok? && done.value.value.receipt.Observed?
      ensures calm && IsNew(old(store), c) ==>
        && live == old(live) && (done.Some? ==> done.value == Err(Refusal(old(store), c)))
        && (done.None? <==> WellFormed(c) && Authorized(old(store), c.requester))
        && (done.None? ==> store == Noticed(old(store), old(live), observer))
      ensures done.None? ==> WellFormed(c) && IsNew(store, c)
    {
      hide StoreOk, RawsOk, StageOk, LiveOk, Names;
      var authority := Reconcile();
      match authority
      case Stopped => return Some(Stopped);
      case Err(e) =>
        if replay.Some? && e == StillActive {
          NamesLater(old(store), store, OperationOf(c), replay.value);
          return Some(Ok(replay.value));
        }
        return Some(Err(e));
      case Ok(_) =>
        ghost var reconciled := store;
        done := Observe(c, observer);
        ExtendsTransitive(old(store), reconciled, store);
    }

    /** Apply's observation of the runtime, and the checks it then repeats. */
    method Observe(c: Command, observer: Observer) returns (done: Option<Reply<Answer, Error>>)
      requires Valid() && ValidProvenance(c.provenance) && c.payload.size <= MAXIMUM_BYTES
      modifies this
      ensures Valid() && Extends(old(store), store) && (old(edited) ==> edited)
      ensures done.Some? && done.value.Ok? ==> Names(store, OperationOf(c), done.value.value)
      ensures done.Some? && done.value.Ok? ==>
        done.value.value.receipt.Observed? || Incomplete(store.generations).None?
      ensures calm && OperationOf(c) in old(store).receipts && Incomplete(old(store).generations).None? ==>
        done.Some? && done.value.Ok? && done.value.value.receipt.Observed?
      ensures calm ==> live == old(live) && store == Noticed(old(store), live, observer)
      ensures calm && IsNew(old(store), c) ==>
        && (done.Some? ==> done.value == Err(Refusal(old(store), c)))
        && (done.None? <==> WellFormed(c) && Authorized(old(store), c.requester))
      ensures done.None? ==> WellFormed(c) && IsNew(store, c)
    {
      hide StoreOk, RawsOk, StageOk, LiveOk, Names;
      Interfere();
      ghost var before := store;
      var lost := Fails(calm);
      var _ := ReconcileRuntimeBestEffort(store, observer, !lost);
      if OperationOf(c) in before.receipts && Incomplete(store.generations).None? {
        NothingPending(store, OperationOf(c));
      }
      DesiredStays(before, store);
      done := Recheck(c);
      ExtendsTransitive(old(store), before, store);
    }

    /** The checks Apply repeats once reconciliation is through. */
    method Recheck(c: Command) returns (done: Option<Reply<Answer, Error>>)
      requires Valid() && ValidProvenance(c.provenance) && c.payload.size <= MAXIMUM_BYTES
      ensures done.Some? && done.value.Ok? ==> Names(store, OperationOf(c), done.value.value)
      ensures done.Some? && done.value.Ok? ==>
        done.value.value.receipt.Observed? || Incomplete(store.generations).None?
      ensures OperationOf(c) in store.receipts && store.receipts[OperationOf(c)].Observed? ==>
        done.Some? && done.value.Ok? && done.value.value.receipt.Observed?
      ensures OperationOf(c) !in store.receipts && done.Some? ==> !done.value.Ok?
      ensures IsNew(store, c) ==> (done.None? <==> WellFormed(c) && Authorized(store, c.requester))
      ensures IsNew(store, c) && done.Some? ==> done.value == Err(Refusal(store, c))
      ensures done.Some? && done.value.Err? ==>
        done.value.error == (if !Authorized(store, c.requester) then Hidden
                             else if Incomplete(store.generations).Some? then Conflict else InvalidInput)
      ensures done.None? ==> WellFormed(c) && IsNew(store, c)
    {
      var op := OperationOf(c);
      var replay := Replay(store, op);
      ReplayNames(store, op);
      if replay.Some? && replay.value.receipt.Observed? {
        return Some(Ok(replay.value));
      }
      if !Authorized(store, c.requester) {
        return Some(Err(Hidden));
      }
      if Incomplete(store.generations).Some? {
        return Some(Err(Conflict));
      }
      if !Current(c.payload) {
        return Some(Err(InvalidInput));
      }
      if op in store.receipts {
        return Some(Ok(replay.value));
      }
      return None;
    }

    /** Apply: whatever stops it, whoever interferes, a success names the one generation, or the one
        no-op, its command stands for. */
    method Apply(c: Command, observer: Observer) returns (r: Reply<Answer, Error>)
      requires Valid()
      modifies this
      ensures Valid() && Extends(old(store), store) && (old(edited) ==> edited)
      ensures r.Ok? ==> Names(store, OperationOf(c), r.value)
      // In a calm run a retry of what was ever accepted succeeds exactly for those who may ask for it.
      ensures calm && OperationOf(c) in old(store).receipts && r.Ok? ==> Replayable(old(store), c)
      ensures calm && old(Intact()) && Replayable(old(store), c) ==> r.Ok? && r.value.receipt.Observed?
      // A new command succeeds in a calm run exactly when the desired configuration is live and the
      // command meets every condition on the store that the observation of the runtime leaves; what it
      // asked for is then desired and live.
      ensures calm && IsNew(old(store), c) ==>
        (r.Ok? <==> old(live) == Desired(old(store)).digest && Proposable(Noticed(old(store), old(live), observer), c))
      ensures calm && IsNew(old(store), c) && r.Ok? ==>
        Desired(store).digest == c.payload == live && AnswersDesired(store, OperationOf(c), r.value)
      ensures calm && IsNew(old(store), c) && !r.Ok? ==> r == Err(Refusal(old(store), c))
      // One that meets them already is refused exactly when it expects a version that the observation moves.
      ensures calm && Proposable(old(store), c) && old(live) == Desired(old(store)).digest ==>
        (r.Ok? <==> c.expectedVersion == 0 || !Noticing(old(store), old(live), observer))
    {
      hide StoreOk, RawsOk, StageOk, LiveOk, Noticed, Noticing, Replayable, Names, Acceptable;
      NoticedIsProposable(store, live, observer, c);
      var done := Prelude(c, observer);
      if done.Some? {
        return done.value;
      }
      r := Propose(c);
    }

    /** The compare-and-swap checks against the authority read last, and the apply itself. */
    method Propose(c: Command) returns (r: Reply<Answer, Error>)
      requires Valid() && WellFormed(c)
      modifies this
      ensures Valid() && Extends(old(store), store) && (old(edited) ==> edited)
      ensures r.Ok? ==> Names(store, OperationOf(c), r.value)
      ensures calm && IsNew(old(store), c) && Authorized(old(store), c.requester) ==>
        && (r.Ok? <==> old(live) == Desired(old(store)).digest && Proposable(old(store), c))
        && (r.Ok? || r == Err(Conflict))
      ensures calm && IsNew(old(store), c) && r.Ok? ==>
        Desired(store).digest == c.payload == live && AnswersDesired(store, OperationOf(c), r.value)
    {
      hide StoreOk, RawsOk, StageOk, LiveOk;
      var seen := store;
      Interfere();
      if c.expectedId != seen.desired || c.expected != Desired(seen).digest
         || (c.expectedVersion > 0 && c.expectedVersion != seen.version) || c.payload.database != seen.database {
        return Err(Conflict);
      }
      if IsNew(store, c) && c.expected == Desired(store).digest {
        ProposableFiles(store, c, raws);
      }
      var unreadable := Fails(calm);
      if unreadable || !live.readable || c.expected !in raws || live != c.expected {
        return Err(Conflict);
      }
      ghost var before := store;
      if c.payload == c.expected {
        Interfere();
        ghost var between := store;
        r := SettleNoOp(c);
        ExtendsTransitive(before, between, store);
        ExtendsTransitive(old(store), before, store);
        return;
      }
      var incompatible := Fails(calm);
      if incompatible {
        return Err(Conflict);
      }
      r := Replace(c);
      ExtendsTransitive(old(store), before, store);
    }

    /** Apply's second half: take the lock, replace, and reconcile when the replacement did not prove out. */
    method Replace(c: Command) returns (r: Reply<Answer, Error>)
      requires Valid() && c.payload != c.expected && Current(c.payload)
      modifies this
      ensures Valid() && Extends(old(store), store) && (old(edited) ==> edited)
      ensures calm && Acceptable(old(store), c) && old(live) == Desired(old(store)).digest ==>
        && r.Ok? && Desired(store).digest == c.payload == live
        && AnswersDesired(store, OperationOf(c), r.value)
      ensures calm && IsNew(old(store), c) && !Acceptable(old(store), c) ==> r == Err(Conflict)
      ensures r.Ok? ==> Names(store, OperationOf(c), r.value)
      // It gives a generation of its command up only after it tried to reconcile, or with its target live.
      ensures r.Err? ==> r.error != NeedsReconcile
      ensures r == Err(Conflict) && OperationOf(c) in store.receipts && reconciliations == old(reconciliations) ==>
        live == c.payload && stage.None?
    {
      hide StoreOk, RawsOk, StageOk, LiveOk, Names, FindOperation;
      var locked := Fails(calm);
      if locked {
        r := AnswerWhileLocked(OperationOf(c));
        return;
      }
      Interfere();
      ghost var taken := store;
      r := ApplySection(c);
      ExtendsTransitive(old(store), taken, store);
      if r == Err(NeedsReconcile) {
        ghost var released := store;
        r := AfterFailure(OperationOf(c));
        ExtendsTransitive(old(store), released, store);
      }
    }

    /** Someone else holds the replacement lock. */
    method AnswerWhileLocked(op: Operation) returns (r: Reply<Answer, Error>)
      requires Valid()
      ensures r.Ok? ==> Names(store, op, r.value)
      ensures !r.Ok? ==> r == Err(StillActive) && op !in store.receipts
    {
      var replay := Replay(store, op);
      ReplayNames(store, op);
      return if replay.Some? then Ok(replay.value) else Err(StillActive);
    }

    /** The replacement failed or could not be verified: let reconciliation decide. */
    method AfterFailure(op: Operation) returns (r: Reply<Answer, Error>)
      requires Valid()
      modifies this
      ensures Valid() && Extends(old(store), store) && (old(edited) ==> edited)
      ensures r.Ok? ==> Names(store, op, r.value)
      // In a calm run it succeeds exactly when reconciliation made its generation the desired one.
      ensures calm && old(Intact()) && !Stuck(old(store)) ==>
        (r.Ok? <==> Desired(store).operation == Some(op)) && (r.Ok? ==> AnswersDesired(store, op, r.value))
      ensures reconciliations == old(reconciliations) + 1
      ensures r.Err? ==> r.error in {Conflict, UnresolvedApply, StillActive, Internal}
    {
      hide StoreOk, RawsOk, StageOk, LiveOk, Extends;
      Interfere();
      ghost var released := store;
      var reconciled := Reconcile();
      ExtendsTransitive(old(store), released, store);
      var settled :- reconciled;
      if Desired(settled).operation != Some(op) {
        return Err(Conflict);
      }
      ghost var before := store;
      Interfere();
      ghost var between := store;
      ExtendsTransitive(settled, before, between);
      var observer: Observer := *;
      var lost := Fails(calm);
      var authority := ReconcileRuntimeBestEffort(settled, observer, !lost);
      ExtendsTransitive(before, between, store);
      ExtendsTransitive(old(store), before, store);
      ExtendsTransitive(settled, between, store);
      DesiredAnswers(settled, op);
      r := Ok(Answer(Desired(authority), store.receipts[op], false));
      LaterAnswer(settled, authority, store, op);
    }

    /** Any sequence of applies and reconciliations, stopped and interfered with anywhere. */
    method Run(commands: seq<Option<Command>>)
      requires Valid()
      modifies this
      ensures Valid() && Extends(old(store), store) && (old(edited) ==> edited)
      ensures !edited ==> Accounted(store, live)
      ensures EvidenceKept(store, raws)
    {
      hide StoreOk, RawsOk, StageOk, LiveOk, Accounted, EvidenceKept, Extends;
      ExtendsReflexive(store);
      for i := 0 to |commands|
        invariant Valid() && Extends(old(store), store) && (old(edited) ==> edited)
      {
        ghost var before := store;
        Interfere();
        ghost var between := store;
        match commands[i] {
          case Some(c) =>
            var observer: Observer := *;
            var _ := Apply(c, observer);
          case None => var _ := Reconcile();
        }
        ExtendsTransitive(before, between, store);
        ExtendsTransitive(old(store), before, store);
      }
      if !edited {
        LiveIsAccounted(store, live, stage);
      }
      RawsAreEvidence(store, raws);
    }

    /** One command retried: across stops, lost replies and anything that happens in between, all
        successful answers agree. */
    method ApplyRepeatedly(c: Command, attempts: nat) returns (answers: seq<Reply<Answer, Error>>)
      requires Valid()
      modifies this
      ensures Valid() && Extends(old(store), store) && |answers| == attempts
      ensures forall a, b :: a in answers && b in answers && a.Ok? && b.Ok? ==>
        a.value.generation.id == b.value.generation.id && a.value.noOp == b.value.noOp
      ensures forall a :: a in answers && a.Ok? ==> Names(store, OperationOf(c), a.value)
    {
      answers := [];
      for i := 0 to attempts
        invariant Valid() && Extends(old(store), store) && |answers| == i
        invariant forall a :: a in answers && a.Ok? ==> Names(store, OperationOf(c), a.value)
      {
        ghost var before := store;
        Interfere();
        ghost var between := store;
        var observer: Observer := *;
        var r := Apply(c, observer);
        ExtendsTransitive(before, between, store);
        ExtendsTransitive(old(store), before, store);
        forall a | a in answers && a.Ok? ensures Names(store, OperationOf(c), a.value) {
          NamesLater(before, store, OperationOf(c), a.value);
        }
        answers := answers + [r];
      }
    }
  }

  /** Recovery: after any sequence of applies and reconciliations, stopped and interfered with anywhere,
      and with live accounted for again, one calm apply of a command that was ever accepted succeeds, and
      so does a new one exactly when it can be accepted after the runtime was observed. */
  method ApplyAfter(earlier: Controller, commands: seq<Option<Command>>, c: Command, observer: Observer)
    returns (recovered: Controller, r: Reply<Answer, Error>)
    requires earlier.Valid()
    modifies earlier
    ensures earlier.Valid() && recovered.Valid() && Extends(earlier.store, recovered.store)
    ensures !earlier.edited ==> earlier.Intact()
    ensures earlier.Intact() && OperationOf(c) in earlier.store.receipts ==> (r.Ok? <==> Replayable(earlier.store, c))
    ensures IsNew(earlier.store, c) ==>
      (r.Ok? <==>
        && earlier.live == Desired(earlier.store).digest
        && Proposable(Noticed(earlier.store, earlier.live, observer), c))
    ensures IsNew(earlier.store, c) && !r.Ok? ==> r == Err(Refusal(earlier.store, c))
    ensures r.Ok? ==> Names(recovered.store, OperationOf(c), r.value)
  {
    hide StoreOk, RawsOk, StageOk, LiveOk, Extends, Names, Replayable, Proposable;
    earlier.Run(commands);
    recovered := new Controller.Resumed(earlier, true);
    r := recovered.Apply(c, observer);
  }

  /** An apply was suspended on contradictory evidence. */
  predicate Stuck(s: Store) {
    var id := Incomplete(s.generations);
    id.Some? && Known(s, id.value) && Row(s, id.value).state == Ambiguous
  }

  /** A retry that some earlier attempt already got accepted. */
  predicate Replayable(s: Store, c: Command)
    requires Known(s, s.desired)
  {
    && ValidProvenance(c.provenance) && c.payload.size <= MAXIMUM_BYTES
    && OperationOf(c) in s.receipts
    && (s.receipts[OperationOf(c)].Observed? || Authorized(s, c.requester))
  }

  /** What a command must be by itself. */
  predicate WellFormed(c: Command) {
    ValidProvenance(c.provenance) && c.payload.size <= MAXIMUM_BYTES && Current(c.payload)
  }

  /** What a refused new command is answered. */
  function Refusal(s: Store, c: Command): Error
    requires Known(s, s.desired)
  {
    if c.payload.size > MAXIMUM_BYTES || !ValidProvenance(c.provenance) then InvalidInput
    else if !Authorized(s, c.requester) then Hidden
    else if !Current(c.payload) then InvalidInput
    else Conflict
  }

  /** A command nothing is known of, while nothing is unsettled. */
  predicate IsNew(s: Store, c: Command) {
    Incomplete(s.generations).None? && OperationOf(c) !in s.receipts
  }

  /** A new command that meets every condition the service and the store put on it. */
  predicate Proposable(s: Store, c: Command)
    requires Known(s, s.desired)
  {
    && WellFormed(c) && Authorized(s, c.requester) && IsNew(s, c)
    && (c.expectedVersion == 0 || c.expectedVersion == s.version)
    && s.desired == c.expectedId && Desired(s).digest == c.expected && c.payload.database == s.database
    && (c.payload != c.expected ==> Acceptable(s, c))
  }

  lemma DesiredRetained(s: Store)
    requires StoreOk(s)
    ensures Desired(s).rawRetained
  {
    assert RowOk(s, s.desired - 1);
  }

  /** What is only accepted is not suspended. */
  lemma PendingIsNotStuck(s: Store, op: Operation)
    requires StoreOk(s) && op in s.receipts && s.receipts[op].Pending?
    ensures !Stuck(s)
  {
    FindSound(s.generations, op);
    IncompleteSound(s.generations);
    var found := FindOperation(s.generations, op);
    if found.Some? {
      assert AppliedRowOk(s, found.value - 1);
      UnsettledUnique(s, found.value);
    }
  }

  lemma NothingPending(s: Store, op: Operation)
    requires StoreOk(s) && Incomplete(s.generations).None? && op in s.receipts
    ensures s.receipts[op].Observed?
  {
    FindSound(s.generations, op);
    IncompleteSound(s.generations);
    var found := FindOperation(s.generations, op);
    if found.Some? {
      assert AppliedRowOk(s, found.value - 1);
    } else {
      assert NoOpReceiptOk(s, op);
    }
  }

  /** Observing the runtime takes no condition of a command away but the version it expects. */
  lemma ProposableLater(s: Store, t: Store, c: Command)
    requires StoreOk(s) && StoreOk(t) && OnlyObserved(s, t) && Proposable(s, c)
    ensures Proposable(t, c) <==> c.expectedVersion == 0 || c.expectedVersion == t.version
  {
    assert SameRow(s.generations[s.desired - 1], t.generations[s.desired - 1]);
    if c.provenance.Rollback? && c.payload != c.expected {
      var source := c.provenance.source;
      assert SameRow(s.generations[source - 1], t.generations[source - 1]);
    }
  }

  /** A proposable command stays so, when the runtime is observed, unless it expects a version that the
      observation moves. */
  lemma NoticedIsProposable(s: Store, live: Payload, observer: Observer, c: Command)
    requires StoreOk(s)
    ensures var t := Noticed(s, live, observer);
      && StoreOk(t) && Desired(t).digest == Desired(s).digest
      && (IsNew(s, c) ==> IsNew(t, c)) && (Proposable(t, c) ==> Authorized(s, c.requester))
    ensures Proposable(s, c) ==>
      (Proposable(Noticed(s, live, observer), c) <==> c.expectedVersion == 0 || !Noticing(s, live, observer))
    ensures Proposable(Noticed(s, live, observer), c) && c.expectedVersion == 0 ==> Proposable(s, c)
  {
    hide StoreOk, SameRow;
    ObservingMoves(s, live, observer.Report());
    DesiredStays(s, AfterObserving(s, live, observer.Report()));
    if Proposable(s, c) {
      ProposableLater(s, Noticed(s, live, observer), c);
    }
  }

  /** Someone edits the live file of an adopted baseline, which is observed, and puts it back: a command
      that expects the version on record then meets every condition, and is refused all the same by a
      service that observes anything at all. */
  lemma ClearedDriftRefuses() returns (baseline: Payload, foreign: Payload, s: Store, c: Command)
    ensures baseline.readable && s == AfterObserving(Adopted(baseline), foreign, None)
    ensures StoreOk(s) && LiveOk(s, baseline, None) && Proposable(s, c) && c.expectedVersion == s.version
    ensures forall observer :: Proposable(Noticed(s, baseline, observer), c) <==> observer == Unwired
  {
    baseline, foreign := Payload(0, 1, true, CURRENT_SCHEMA, 7, 0), Payload(1, 1, true, CURRENT_SCHEMA, 7, 0);
    AdoptedOk(baseline);
    s := AfterObserving(Adopted(baseline), foreign, None);
    c := Command(7, 1, baseline, 2, foreign, Normal);
    ObservingMoves(Adopted(baseline), foreign, None);
    forall observer: Observer
      ensures Proposable(Noticed(s, baseline, observer), c) <==> observer == Unwired
    {
      NoticedIsProposable(s, baseline, observer, c);
    }
  }

  /** So is one for a freshly adopted baseline when a worker has come up in between, and only then. */
  lemma FreshWorkerRefuses() returns (baseline: Payload, c: Command)
    ensures var s := Adopted(baseline);
      && StoreOk(s) && LiveOk(s, baseline, None) && Proposable(s, c) && c.expectedVersion == s.version
      && forall observer ::
        Proposable(Noticed(s, baseline, observer), c) <==> !Agrees(s, baseline, observer.Report())
  {
    baseline := Payload(0, 1, true, CURRENT_SCHEMA, 7, 0);
    AdoptedOk(baseline);
    c := Command(7, 1, baseline, 1, baseline.(content := 1), Normal);
    forall observer: Observer
      ensures Proposable(Noticed(Adopted(baseline), baseline, observer), c)
        <==> !Agrees(Adopted(baseline), baseline, observer.Report())
    {
      NoticedIsProposable(Adopted(baseline), baseline, observer, c);
    }
  }

  /** What a proposable command finds on disk. */
  lemma ProposableFiles(s: Store, c: Command, raws: set<Digest>)
    requires StoreOk(s) && RawsOk(s, raws) && IsNew(s, c) && c.expected == Desired(s).digest
    ensures c.expected.readable && c.expected in raws
    ensures c.payload == c.expected && s.desired == c.expectedId ==> RecordNoOp(s, OperationOf(c)).Some?
  {
    DesiredKept(s, raws);
    assert RowOk(s, s.desired - 1);
  }

  /** The store would accept this command as a new apply. */
  predicate Acceptable(s: Store, c: Command)
    requires Known(s, s.desired)
  {
    Begin(s, OperationOf(c), c.expectedVersion, true).Created?
  }

  lemma NoOpNames(s: Store, op: Operation)
    requires StoreOk(s) && op.candidate == op.expected && RecordNoOp(s, op).Some?
    ensures var t := RecordNoOp(s, op).value;
      && op in t.receipts && Names(t, op, Answer(Desired(t), t.receipts[op], true))
      && (forall live, stage :: LiveOk(s, live, stage) && StoreOk(t) ==> LiveOk(t, live, stage))
  {
    FindSound(s.generations, op);
    forall i: nat | i < |s.generations| ensures s.generations[i].operation != Some(op) {
      assert AppliedRowOk(s, i);
    }
    assert RowOk(s, s.desired - 1);
  }

  lemma AnswerKept(s: Store, observed: Store, t: Store, op: Operation, a: Answer)
    requires StoreOk(observed) && StoreOk(t) && Extends(s, observed) && Settled(observed, t)
    requires Names(observed, op, a) && AnswersDesired(observed, op, a)
    ensures Extends(s, t) && Names(t, op, a) && AnswersDesired(t, op, a)
  {
    ExtendsTransitive(s, observed, t);
    NamesLater(observed, t, op, a);
    assert RowOk(observed, observed.desired - 1) && RowOk(t, t.desired - 1);
  }

  /** The desired generation of one moment, with the receipt of a later one. */
  lemma LaterAnswer(s: Store, authority: Store, t: Store, op: Operation)
    requires StoreOk(s) && StoreOk(authority) && StoreOk(t) && Extends(s, authority) && Extends(s, t)
    requires Desired(s).operation == Some(op) && s.desired == authority.desired
    requires authority == s || Desired(authority) == Desired(t)
    ensures op in t.receipts && Names(t, op, Answer(Desired(authority), t.receipts[op], false))
  {
    DesiredAnswers(s, op);
    NamesLater(s, t, op, Answer(Desired(s), s.receipts[op], false));
    assert RowOk(authority, authority.desired - 1) && RowOk(t, t.desired - 1) && RowOk(s, s.desired - 1);
    assert SameRow(Desired(s), Row(authority, s.desired));
    assert SameRow(Desired(s), Row(t, s.desired));
  }

  /** What only observing changes is the drift flag and the version. */
  lemma SameHistory(s: Store, t: Store, u: Store)
    requires Extends(s, t) && u == t.(drifted := u.drifted, version := u.version)
    ensures Extends(s, u)
  {
    forall i | 0 <= i < |s.generations| ensures SameRow(s.generations[i], u.generations[i]) {
      assert SameRow(s.generations[i], t.generations[i]);
    }
  }

  lemma AcceptedIntent(s: Store, id: nat, op: Operation)
    requires StoreOk(s) && Known(s, id) && Row(s, id).state == Accepted && Row(s, id).operation == Some(op)
    ensures Row(s, id).parent == s.desired == op.expectedId
    ensures Row(s, id).digest == op.candidate && Desired(s).digest == op.expected != op.candidate
  {
    assert RowOk(s, id - 1) && AppliedRowOk(s, id - 1);
  }

  /** An apply that is still accepted is settled the way it is asked to be. */
  lemma SettleOutcome(s: Store, id: nat, parent: nat, op: Operation, outcome: ApplyOutcome)
    requires StoreOk(s) && Settle(s, id, parent, op, outcome).Some? && Row(s, id).state == Accepted
    ensures SettledAs(Settle(s, id, parent, op, outcome).value, id, outcome)
  {
    assert RowOk(s, id - 1);
  }

  /** While live is accounted for, what it proves is the parent or the target. */
  lemma IntactIsConclusive(s: Store, live: Payload, stage: Option<Stage>, raws: set<Digest>, id: nat)
    requires StoreOk(s) && LiveOk(s, live, stage) && RawsOk(s, raws) && Known(s, id) && Row(s, id).state == Accepted
    ensures VerdictOn(s, id, live, stage) != Unresolved
  {
    UnsettledFiles(s, live, stage, raws, id);
    assert RowOk(s, id - 1) && AppliedRowOk(s, id - 1);
  }

  /** An accepted apply can always be settled. */
  lemma AcceptedSettles(s: Store, id: nat, parent: nat, op: Operation, outcome: ApplyOutcome)
    requires StoreOk(s)
    ensures Accepts(s, id, op) && Row(s, id).parent == parent ==> Settle(s, id, parent, op, outcome).Some?
  {
    if Accepts(s, id, op) {
      AcceptedFacts(s, id, op);
      AcceptedIntent(s, id, op);
    }
  }

  lemma DesiredAnswers(s: Store, op: Operation)
    requires StoreOk(s) && Desired(s).operation == Some(op)
    ensures op in s.receipts && Names(s, op, Answer(Desired(s), s.receipts[op], false))
    ensures AnswersDesired(s, op, Answer(Desired(s), s.receipts[op], false))
  {
    assert RowOk(s, s.desired - 1) && AppliedRowOk(s, s.desired - 1);
  }

  lemma ApplyMade(s: Store, begun: Store, t: Store, id: nat, op: Operation)
    requires StoreOk(begun) && StoreOk(t) && Extends(s, begun) && Extends(begun, t)
    requires Known(begun, id) && Row(begun, id).operation == Some(op)
    ensures Extends(s, t) && FindOperation(t.generations, op) == Some(id) && Known(t, id)
    ensures Row(t, id).operation == Some(op) && Row(t, id).parent == Row(begun, id).parent == op.expectedId
    ensures Row(t, id).digest == op.candidate
  {
    ExtendsTransitive(s, begun, t);
    assert SameRow(begun.generations[id - 1], t.generations[id - 1]);
    FindUnique(t, op, id);
    assert AppliedRowOk(begun, id - 1);
  }

  lemma BeginFiles(s: Store, op: Operation, expectedVersion: nat, laneFree: bool, live: Payload, stage: Option<Stage>,
    raws: set<Digest>)
    requires StoreOk(s) && StageOk(s, stage) && RawsOk(s, raws) && op.candidate in raws && op.candidate != op.expected
    requires Begin(s, op, expectedVersion, laneFree).Created? && StoreOk(Begin(s, op, expectedVersion, laneFree).store)
    ensures var a := Begin(s, op, expectedVersion, laneFree);
      && StageOk(a.store, stage) && RawsOk(a.store, raws)
      && (LiveOk(s, live, stage) ==> LiveOk(a.store, live, stage))
      && Incomplete(a.store.generations) == Some(a.generation.id) && Known(a.store, a.generation.id)
      && Row(a.store, a.generation.id) == a.generation && a.generation.state == Accepted
        && a.generation.operation == Some(op)
      && Desired(a.store) == Desired(s)
  {
    var a := Begin(s, op, expectedVersion, laneFree);
    UnsettledUnique(a.store, a.generation.id);
    forall g | g in a.store.generations && LiveState(g.state) ensures g.digest in raws {
      assert g in s.generations || g == a.generation;
    }
  }

  // ---------------------------------------------------------------- admission gates

  const HEARTBEAT_STALE_AFTER: nat := 45

  datatype Liveness = Fresh | Stale | Offline | Conflicting | Unknown
  datatype Runtime = Runtime(liveness: Liveness, loaded: Option<Digest>, observedAt: Option<nat>)

  datatype AdmissionAuthority = AdmissionAuthority(generation: nat, digest: Digest, version: nat, validThrough: nat)

  datatype Decision = Denied | Admitted(authority: Option<AdmissionAuthority>)

  function AuthorityFor(s: Store, runtime: Runtime): Option<AdmissionAuthority>
    requires Known(s, s.desired)
  {
    if runtime.observedAt.None? then None
    else Some(AdmissionAuthority(s.desired, Desired(s).digest, s.version,
      runtime.observedAt.value + HEARTBEAT_STALE_AFTER))
  }

  datatype Readiness = Ready | RestartRequired | Starting | NotFresh | Conflicted

  /** project: what the convergence projection says, for the branches a gate distinguishes. */
  function Project(s: Store, live: Payload, runtime: Runtime): Readiness
    requires Known(s, s.desired)
  {
    if Incomplete(s.generations).Some? then Conflicted
    else if !live.readable || live != Desired(s).digest then Conflicted
    else if !runtime.liveness.Fresh? then NotFresh
    else if runtime.loaded != Some(Desired(s).digest) then RestartRequired
    else if s.effective != s.desired || !Desired(s).effectiveAt then Starting
    else Ready
  }

  /** CheckNewAdmissionReadOnly. */
  function AdmitsReadOnly(s: Store, live: Payload, raws: set<Digest>, runtime: Option<Runtime>): Decision
    requires Known(s, s.desired)
  {
    if Incomplete(s.generations).Some? || Desired(s).state != Effective || s.effective != s.desired then Denied
    else if Desired(s).digest !in raws || runtime.None? then Denied
    else
      var r := runtime.value;
      if !r.liveness.Fresh? || r.loaded != Some(Desired(s).digest) || r.observedAt.None? then Denied
      else if !live.readable || live != Desired(s).digest then Denied
      else Admitted(AuthorityFor(s, r))
  }

  /** Nothing is unsettled, and the desired, the effective, the loaded and the live configuration
      are one. */
  ghost predicate Converged(s: Store, live: Payload, runtime: Option<Runtime>)
    requires Known(s, s.desired)
  {
    && (forall g :: g in s.generations ==> !Unsettled(g))
    && s.effective == s.desired && Desired(s).state == Effective && Desired(s).effectiveAt
    && runtime.Some? && runtime.value.liveness.Fresh?
    && runtime.value.loaded == Some(Desired(s).digest)
    && live == Desired(s).digest && live.readable
  }

  /** The worker is fresh and has loaded the desired configuration, which is live. */
  predicate Agrees(s: Store, live: Payload, runtime: Option<Runtime>)
    requires Known(s, s.desired)
  {
    && runtime.Some? && runtime.value.liveness.Fresh? && runtime.value.observedAt.Some?
    && runtime.value.loaded == Some(Desired(s).digest)
    && live == Desired(s).digest && live.readable
  }

  /** The live file is not the desired configuration. */
  predicate Strayed(s: Store, live: Payload)
    requires Known(s, s.desired)
  {
    !live.readable || live != Desired(s).digest
  }

  /** There is something to record: live strayed or came back since last recorded, or a fresh worker runs
      a desired configuration that is not yet effective. */
  predicate Moves(s: Store, live: Payload, runtime: Option<Runtime>)
    requires Known(s, s.desired)
  {
    && Incomplete(s.generations).None?
    && (s.drifted != Strayed(s, live) || (s.effective != s.desired && Agrees(s, live, runtime)))
  }

  function MadeEffective(s: Store): Store
    requires Known(s, s.desired)
  {
    s.(generations := s.generations[s.desired - 1 := Desired(s).(state := Effective, effectiveAt := true)],
       effective := s.desired, version := s.version + 1)
  }

  /** The store as an observation of the runtime leaves it. */
  function AfterObserving(s: Store, live: Payload, runtime: Option<Runtime>): Store
    requires Known(s, s.desired)
  {
    if Incomplete(s.generations).Some? then s
    else
      var drifted := Strayed(s, live);
      var t := s.(drifted := drifted, version := s.version + if s.drifted == drifted then 0 else 1);
      if t.effective != t.desired && Agrees(t, live, runtime) then MadeEffective(t) else t
  }

  /** What a service may learn about the worker: nothing is wired to observe it, the observation fails,
      or there is a report. */
  datatype Observer = Unwired | Silent | Reporting(runtime: Runtime) {
    function Report(): Option<Runtime> {
      if Reporting? then Some(runtime) else None
    }
  }

  /** The store as an apply's own observation leaves it. */
  function Noticed(s: Store, live: Payload, observer: Observer): Store
    requires Known(s, s.desired)
  {
    if observer.Unwired? then s else AfterObserving(s, live, observer.Report())
  }

  predicate Noticing(s: Store, live: Payload, observer: Observer)
    requires Known(s, s.desired)
  {
    !observer.Unwired? && Moves(s, live, observer.Report())
  }

  /** An observation moves the version exactly when there is something to record, and otherwise leaves
      the store as it is. */
  lemma ObservingMoves(s: Store, live: Payload, runtime: Option<Runtime>)
    requires StoreOk(s)
    ensures var t := AfterObserving(s, live, runtime);
      && StoreOk(t) && OnlyObserved(s, t)
      && (if Moves(s, live, runtime) then s.version < t.version <= s.version + 2 else t == s)
  {
    hide StoreOk, Extends;
    if Incomplete(s.generations).None? {
      var drifted := Strayed(s, live);
      ObserveDriftKeeps(s, s.desired, Desired(s).digest, drifted);
      var t := ObserveDrift(s, s.desired, Desired(s).digest, drifted).value;
      EffectiveMakes(t);
      ObserveEffectiveKeeps(t, t.desired, Desired(t).digest);
      if t.effective != t.desired {
        SameIncomplete(t.generations, MadeEffective(t).generations);
        ExtendsTransitive(s, t, MadeEffective(t));
      }
    } else {
      ExtendsReflexive(s);
    }
  }

  lemma EffectiveMakes(s: Store)
    requires StoreOk(s)
    ensures ObserveEffective(s, s.desired, Desired(s).digest) ==
      if Incomplete(s.generations).Some? then None
      else if s.effective == s.desired then Some(s) else Some(MadeEffective(s))
  {
    assert RowOk(s, s.desired - 1);
  }

  lemma DesiredStays(s: Store, t: Store)
    requires Known(s, s.desired) && OnlyObserved(s, t)
    ensures Known(t, t.desired) && Desired(t).digest == Desired(s).digest
  {
    assert SameRow(s.generations[s.desired - 1], t.generations[s.desired - 1]);
  }

  lemma DesiredKept(s: Store, raws: set<Digest>)
    requires StoreOk(s) && RawsOk(s, raws)
    ensures Desired(s).digest in raws
  {
    assert RowOk(s, s.desired - 1) && Desired(s) in s.generations;
  }

  lemma ReadyMeansConverged(s: Store, live: Payload, runtime: Runtime)
    requires StoreOk(s)
    ensures Project(s, live, runtime) == Ready <==> Converged(s, live, Some(runtime))
    ensures Project(s, live, runtime) == Conflicted <==>
      live != Desired(s).digest || exists g :: g in s.generations && Unsettled(g)
    ensures Project(s, live, runtime) != Conflicted ==>
      && (Project(s, live, runtime) == NotFresh <==> !runtime.liveness.Fresh?)
      && (Project(s, live, runtime) == RestartRequired <==>
            runtime.liveness.Fresh? && runtime.loaded != Some(Desired(s).digest))
      && (Project(s, live, runtime) == Starting <==>
            runtime.liveness.Fresh? && runtime.loaded == Some(Desired(s).digest) && Desired(s).state == PendingRestart)
  {
    IncompleteSound(s.generations);
    assert RowOk(s, s.desired - 1);
  }

  lemma ReadOnlyGateSound(s: Store, live: Payload, raws: set<Digest>, runtime: Option<Runtime>)
    requires StoreOk(s)
    ensures AdmitsReadOnly(s, live, raws, runtime).Admitted? <==>
      Converged(s, live, runtime) && Desired(s).digest in raws && runtime.value.observedAt.Some?
    ensures AdmitsReadOnly(s, live, raws, runtime).Admitted? ==>
      AdmitsReadOnly(s, live, raws, runtime) == Admitted(Some(AdmissionAuthority(
        s.desired, live, s.version, runtime.value.observedAt.value + 45)))
  {
    IncompleteSound(s.generations);
    assert RowOk(s, s.desired - 1);
  }

  lemma EffectiveFiles(s: Store, live: Payload, stage: Option<Stage>, raws: set<Digest>)
    requires StoreOk(s) && StageOk(s, stage) && RawsOk(s, raws)
    requires ObserveEffective(s, s.desired, Desired(s).digest).Some?
    ensures var t := ObserveEffective(s, s.desired, Desired(s).digest).value;
      && StageOk(t, stage) && RawsOk(t, raws) && Incomplete(t.generations) == Incomplete(s.generations)
      && Desired(t).digest == Desired(s).digest
  {
    var t := ObserveEffective(s, s.desired, Desired(s).digest).value;
    assert RowOk(s, s.desired - 1);
    SameIncomplete(s.generations, t.generations);
    forall g | g in t.generations && LiveState(g.state) ensures g.digest in raws {
      var i: nat :| i < |t.generations| && t.generations[i] == g;
      assert s.generations[i] in s.generations;
    }
  }

  /** With nothing unsettled the desired configuration is live and nothing is staged. */
  lemma SettledLive(s: Store, live: Payload, stage: Option<Stage>)
    requires StoreOk(s) && LiveOk(s, live, stage) && Incomplete(s.generations).None?
    ensures live == Desired(s).digest && stage.None?
  {
  }

  lemma QuietStage(s: Store, stage: Option<Stage>)
    requires StageOk(s, stage) && Incomplete(s.generations).None?
    ensures stage.None?
  {
  }

  /** With nothing unsettled, live is accounted for when it is the desired configuration. */
  lemma DesiredIsIntact(s: Store, live: Payload, stage: Option<Stage>)
    requires StoreOk(s) && StageOk(s, stage) && Incomplete(s.generations).None? && live == Desired(s).digest
    ensures LiveOk(s, live, stage)
  {
  }

  /** A receipt for a command that changes something has its generation. */
  lemma ReceiptHasGeneration(s: Store, op: Operation)
    requires StoreOk(s) && op in s.receipts && op.candidate != op.expected
    ensures FindOperation(s.generations, op).Some? && Known(s, FindOperation(s.generations, op).value)
  {
    FindSound(s.generations, op);
  }

  /** While one apply is unsettled both its parent and its target can be read back, and so can live. */
  lemma UnsettledFiles(s: Store, live: Payload, stage: Option<Stage>, raws: set<Digest>, id: nat)
    requires StoreOk(s) && LiveOk(s, live, stage) && RawsOk(s, raws) && Known(s, id) && Unsettled(Row(s, id))
    ensures live.readable && (live == Desired(s).digest || live == Row(s, id).digest)
    ensures Row(s, id).digest in raws && Desired(s).digest in raws
    ensures stage.Some? ==> Row(s, id).operation == Some(stage.value.operation)
    ensures stage.Some? ==>
      stage.value.payload == (if live == Desired(s).digest then Row(s, id).digest else Desired(s).digest)
  {
    UnsettledUnique(s, id);
    assert RowOk(s, id - 1) && RowOk(s, s.desired - 1);
    assert Row(s, id) in s.generations;
    DesiredKept(s, raws);
  }

  lemma TargetKept(s: Store, raws: set<Digest>, id: nat)
    requires StoreOk(s) && RawsOk(s, raws) && Known(s, id) && Unsettled(Row(s, id))
    ensures Row(s, id).digest in raws && Desired(s).digest in raws
    ensures Row(s, id).digest.readable && Desired(s).digest.readable
  {
    assert RowOk(s, id - 1) && RowOk(s, s.desired - 1);
    assert Row(s, id) in s.generations;
    DesiredKept(s, raws);
  }

  lemma NoStage(s: Store, stage: Option<Stage>, id: nat, op: Operation)
    requires StoreOk(s) && StageOk(s, stage) && Known(s, id) && Row(s, id).operation == Some(op)
    requires !(stage.Some? && stage.value.operation == op)
    ensures Row(s, id).state == Accepted ==> stage.None?
  {
    if Row(s, id).state == Accepted {
      UnsettledUnique(s, id);
    }
  }

  /** An apply seen accepted earlier is still the same apply, against the same parent. */
  lemma SeenIntent(seen: Store, s: Store, id: nat)
    requires StoreOk(seen) && StoreOk(s) && Extends(seen, s)
    requires Known(seen, id) && Row(seen, id).state == Accepted
    ensures Known(s, id) && Row(seen, id).operation.Some?
    ensures Row(s, id).operation == Row(seen, id).operation && Row(s, id).parent == seen.desired
    ensures Row(s, id).digest == Row(seen, id).digest != Desired(seen).digest
    ensures Unsettled(Row(s, id)) ==> s.desired == seen.desired && Desired(s).digest == Desired(seen).digest
  {
    assert RowOk(seen, id - 1) && AppliedRowOk(seen, id - 1);
    assert SameRow(seen.generations[id - 1], s.generations[id - 1]);
    assert SameRow(seen.generations[seen.desired - 1], s.generations[seen.desired - 1]);
    assert RowOk(s, id - 1);
  }

  /** A settlement of an accepted apply really is one. */
  lemma SettleMoves(s: Store, id: nat, parent: nat, op: Operation, outcome: ApplyOutcome, t: Store)
    requires StoreOk(s) && Settle(s, id, parent, op, outcome) == Some(t) && Known(s, id)
    ensures Row(s, id).state == Accepted ==> t != s
  {
    if Row(s, id).state == Accepted {
      assert AppliedRowOk(s, id - 1);
      assert s.receipts[op].Pending? && t.receipts[op].Observed?;
    }
  }

  /** What settling does to the file invariants. */
  lemma SettleFiles(s: Store, id: nat, parent: nat, op: Operation, outcome: ApplyOutcome, live: Payload,
    stage: Option<Stage>, raws: set<Digest>)
    requires StoreOk(s) && StageOk(s, stage) && RawsOk(s, raws)
    requires Settle(s, id, parent, op, outcome).Some? && StoreOk(Settle(s, id, parent, op, outcome).value)
    requires outcome != Unresolved && Row(s, id).state == Accepted ==> stage.None?
    ensures var t := Settle(s, id, parent, op, outcome).value;
      && StageOk(t, stage) && RawsOk(t, raws)
      && (t == s || Row(s, id).state == Accepted)
      && (outcome == Unresolved && LiveOk(s, live, stage) ==> LiveOk(t, live, stage))
      && (outcome != Unresolved && Row(s, id).state == Accepted ==>
            && Incomplete(t.generations).None?
            && t.desired == (if outcome == Committed then id else s.desired)
            && Desired(t).digest == (if outcome == Committed then Row(s, id).digest else Desired(s).digest))
      && (outcome != Committed ==> t.desired == s.desired)
  {
    hide AppliedRowOk, NoOpReceiptOk, FindOperation;
    var t := Settle(s, id, parent, op, outcome).value;
    if t != s {
      assert RowOk(s, id - 1) && AppliedRowOk(s, id - 1);
      UnsettledUnique(s, id);
      if outcome == Unresolved {
        UnsettledUnique(t, id);
      } else {
        IncompleteSound(t.generations);
        forall i: nat | i < |t.generations| && i != id - 1 ensures !Unsettled(t.generations[i]) {
          assert RowOk(s, i);
        }
      }
      forall g | g in t.generations && LiveState(g.state) ensures g.digest in raws {
        var i: nat :| i < |t.generations| && t.generations[i] == g;
        assert s.generations[i] in s.generations;
      }
    }
  }

  // ---------------------------------------------------------------- pruning

  /** Steps that only observe: drift, effectiveness, the version. */
  ghost predicate OnlyObserved(s: Store, t: Store) {
    && Extends(s, t)
    && t.desired == s.desired && t.receipts == s.receipts && t.claims == s.claims
    && |t.generations| == |s.generations| && Incomplete(t.generations) == Incomplete(s.generations)
  }

  /** Steps that only forget retained raw bytes. */
  ghost predicate Settled(s: Store, t: Store) {
    && Extends(s, t)
    && t.desired == s.desired && t.receipts == s.receipts && t.effective == s.effective && t.version == s.version
    && |t.generations| == |s.generations|
    && (forall i :: 0 <= i < |s.generations| ==>
      && t.generations[i] == s.generations[i].(rawRetained := t.generations[i].rawRetained)
      && (t.generations[i].rawRetained ==> s.generations[i].rawRetained))
    && Incomplete(t.generations) == Incomplete(s.generations)
  }

  /** An authority that was read under the lock still tells what is desired. */
  ghost predicate Tells(seen: Store, s: Store) {
    StoreOk(seen) && Extends(seen, s) && seen.desired == s.desired && Desired(seen) == Desired(s)
  }

  lemma TellsItself(s: Store)
    requires StoreOk(s)
    ensures Tells(s, s)
  {
  }

  lemma SettledTells(s: Store, t: Store)
    requires StoreOk(s) && StoreOk(t) && Settled(s, t)
    ensures Tells(s, t)
  {
    assert RowOk(s, s.desired - 1) && RowOk(t, t.desired - 1);
  }

  lemma SettledTransitive(s: Store, t: Store, u: Store)
    requires Settled(s, t) && Settled(t, u)
    ensures Settled(s, u)
  {
    ExtendsTransitive(s, t, u);
  }

  /** A raw snapshot some generation still keeps. */
  predicate Referenced(s: Store, d: Digest) {
    exists g | g in s.generations :: g.rawRetained && g.digest == d
  }

  predicate AllReferenced(s: Store, raws: set<Digest>) {
    forall d :: d in raws ==> Referenced(s, d)
  }

  /** No generation that is over and done with keeps the raw snapshot. */
  predicate Forgotten(s: Store, d: Digest) {
    forall g :: g in s.generations && g.digest == d ==> LiveState(g.state) || !g.rawRetained
  }

  lemma CompleteForgets(s: Store, d: Digest)
    requires StoreOk(s) && d in s.claims
    ensures Complete(s, d, true).Some?
    ensures var t := Complete(s, d, true).value; Forgotten(t, d) && t.claims == s.claims - {d}
  {
    ClaimedUnprotected(s);
    var t := Complete(s, d, true).value;
    forall g | g in t.generations && g.digest == d ensures LiveState(g.state) || !g.rawRetained {
      var i: nat :| i < |t.generations| && t.generations[i] == g;
      assert s.generations[i].digest == d;
    }
  }

  lemma ForgottenLater(s: Store, t: Store, d: Digest)
    requires Settled(s, t) && Forgotten(s, d)
    ensures Forgotten(t, d)
  {
    forall g | g in t.generations && g.digest == d ensures LiveState(g.state) || !g.rawRetained {
      var i: nat :| i < |t.generations| && t.generations[i] == g;
      assert s.generations[i] in s.generations;
    }
  }

  /** What is to be pruned is used by nothing live. */
  lemma CandidateUnprotected(s: Store, t: Store, d: Digest)
    requires StoreOk(s) && StoreOk(t) && Settled(s, t) && d in PruneCandidates(s, RAW_RETAIN_COUNT)
    ensures !Protected(t, d)
  {
    forall g | g in t.generations && LiveState(g.state) ensures g.digest != d {
      var i: nat :| i < |t.generations| && t.generations[i] == g;
      assert RowOk(s, i);
      if s.generations[i].digest == d {
        PruneKeepsHistory(s, RAW_RETAIN_COUNT, i);
      }
    }
  }

  /** Pruning every candidate leaves none. */
  lemma NothingToPrune(s: Store, t: Store)
    requires StoreOk(t) && Settled(s, t)
    requires forall d :: d in PruneCandidates(s, RAW_RETAIN_COUNT) ==> Forgotten(t, d)
    ensures PruneCandidates(t, RAW_RETAIN_COUNT) == {}
  {
    ScanLater(s, t, |s.generations|, 1, RAW_RETAIN_COUNT);
    forall d | d in PruneCandidates(t, RAW_RETAIN_COUNT) ensures false {
      assert d in PruneCandidates(s, RAW_RETAIN_COUNT);
      var i: nat :| i < |t.generations| && t.generations[i].digest == d && t.generations[i].rawRetained && !Fixed(t, i);
      LiveIsFixed(t, i);
      assert false;
    }
  }

  lemma LiveIsFixed(s: Store, i: nat)
    requires StoreOk(s) && i < |s.generations|
    ensures LiveState(s.generations[i].state) ==> Fixed(s, i)
    ensures s.generations[i] in s.generations
  {
    assert RowOk(s, i);
  }

  lemma {:induction false} ScanLater(s: Store, t: Store, upTo: nat, kept: nat, keep: nat)
    requires Settled(s, t) && upTo <= |s.generations|
    ensures PruneScan(t, upTo, kept, keep).1 == PruneScan(s, upTo, kept, keep).1
    ensures PruneScan(t, upTo, kept, keep).0 <= PruneScan(s, upTo, kept, keep).0
    ensures forall d :: d in PruneScan(t, upTo, kept, keep).0 ==>
      exists i: nat :: i < upTo && t.generations[i].digest == d && t.generations[i].rawRetained && !Fixed(t, i)
    decreases upTo
  {
    if upTo > 0 {
      var g := s.generations[upTo - 1];
      var fixed := Fixed(s, upTo - 1);
      ScanLater(s, t, upTo - 1, if fixed || kept >= keep then kept else kept + 1, keep);
      assert Fixed(t, upTo - 1) == fixed && t.generations[upTo - 1].digest == g.digest;
    }
  }

  lemma UnreferencedUnprotected(s: Store, d: Digest)
    requires StoreOk(s)
    requires forall g | g in s.generations :: g.rawRetained ==> g.digest != d
    ensures !Protected(s, d)
  {
    forall g | g in s.generations && LiveState(g.state) ensures g.digest != d {
      var i: nat :| i < |s.generations| && s.generations[i] == g;
      assert RowOk(s, i);
    }
  }

  lemma SettledReflexive(s: Store)
    ensures Settled(s, s)
  {
    ExtendsReflexive(s);
  }

  lemma CompleteSettles(s: Store, d: Digest, removed: bool)
    requires StoreOk(s)
    ensures Complete(s, d, removed).Some?
    ensures var t := Complete(s, d, removed).value; StoreOk(t) && Settled(s, t) && t.claims == s.claims - {d}
  {
    hide StoreOk, Extends;
    CompleteKeeps(s, d, removed);
  }

  /** Completing a prune claim disturbs none of the files. */
  lemma CompleteFiles(s: Store, d: Digest, removed: bool, live: Payload, stage: Option<Stage>, raws: set<Digest>)
    requires StoreOk(s) && StageOk(s, stage) && RawsOk(s, raws) && d in s.claims
    requires Complete(s, d, removed).Some? && StoreOk(Complete(s, d, removed).value)
    requires Settled(s, Complete(s, d, removed).value)
    ensures var t := Complete(s, d, removed).value;
      && StageOk(t, stage) && RawsOk(t, raws)
      && (LiveOk(s, live, stage) ==> LiveOk(t, live, stage))
  {
    hide StoreOk, Extends, Protected;
    var t := Complete(s, d, removed).value;
    IncompleteSound(s.generations);
    forall g | g in t.generations && LiveState(g.state) ensures g.digest in raws {
      var i: nat :| i < |t.generations| && t.generations[i] == g;
      assert s.generations[i] in s.generations;
    }
  }
}
