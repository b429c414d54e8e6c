/** The durable configuration authority: generations, operation receipts, prune claims and
    the transactions on them (internal/adapters/sqlite/configuration_authority.go). */
module ConfigurationStore {
  import opened Outcomes
  import opened Texts

  type Actor = nat

  /** A configuration file: its bytes, named by `content`, with what validation derives from them:
      whether it is well formed, the schema version it is written in, and its authority. */
  datatype Payload = Payload(content: nat, size: nat, readable: bool, schema: nat, operator: Actor, database: nat)

  const CURRENT_SCHEMA: nat := 5

  predicate Current(p: Payload) {
    p.readable && p.schema == CURRENT_SCHEMA
  }

  /** SHA-256 is taken to be injective, so a digest is the payload it was computed from. */
  type Digest = Payload

  /** What a schema migration preview shows; its digest is injective on these parts. */
  datatype MigrationPreview = MigrationPreview(
    expectedId: nat, expected: Digest, version: nat, sourceSchema: nat, targetSchema: nat, candidate: Digest,
      preserved: bool)

  datatype Provenance =
    | Normal
    | Rollback(source: nat, digest: Digest)
    | Onboarding(id: string, request: string)
    | SchemaMigration(requestId: string, preview: MigrationPreview)

  /** The deterministic identity of one apply command. The hash that names it is injective on
      these parts (module Framing proves its framing unambiguous). */
  datatype Operation = Operation(expectedId: nat, expected: Digest, requester: Actor, candidate: Digest,
    provenance: Provenance)

  datatype GenerationState = Accepted | PendingRestart | Effective | Superseded | Failed | Ambiguous

  datatype Generation = Generation(
    id: nat, parent: nat, digest: Digest, operation: Option<Operation>, provenance: Provenance,
    state: GenerationState, rawRetained: bool, effectiveAt: bool)

  datatype ApplyOutcome = Committed | Rejected | Unresolved

  datatype Receipt = Pending | Observed(outcome: ApplyOutcome, version: nat, digest: Digest)

  /** Generation n is row n - 1: rows are only ever appended. An apply intent is written with its
      generation and settled with it, so its status is read off the generation's state. */
  datatype Store = Store(
    generations: seq<Generation>, receipts: map<Operation, Receipt>, desired: nat, effective: nat,
    version: nat, claims: set<Digest>, drifted: bool, database: nat)

  // ---------------------------------------------------------------- reading

  predicate Known(s: Store, id: nat) {
    1 <= id <= |s.generations|
  }

  function Row(s: Store, id: nat): Generation
    requires Known(s, id)
  {
    s.generations[id - 1]
  }

  function Desired(s: Store): Generation
    requires Known(s, s.desired)
  {
    Row(s, s.desired)
  }

  predicate Unsettled(g: Generation) {
    g.state == Accepted || g.state == Ambiguous
  }

  /** The newest unsettled intent, as its generation id. */
  function Incomplete(rows: seq<Generation>): Option<nat> {
    if rows == [] then None
    else if Unsettled(rows[|rows| - 1]) then Some(|rows|)
    else Incomplete(rows[..|rows| - 1])
  }

  lemma {:induction false} IncompleteSound(rows: seq<Generation>)
    ensures var r := Incomplete(rows);
            && (r.Some? ==> 1 <= r.value <= |rows| && Unsettled(rows[r.value - 1]))
            && (r.None? <==> forall i :: 0 <= i < |rows| ==> !Unsettled(rows[i]))
  {
    if rows != [] && !Unsettled(rows[|rows| - 1]) {
      IncompleteSound(rows[..|rows| - 1]);
      assert forall i :: 0 <= i < |rows| - 1 ==> rows[i] == rows[..|rows| - 1][i];
    }
  }

  function FindOperation(rows: seq<Generation>, op: Operation): Option<nat> {
    if rows == [] then None
    else if rows[|rows| - 1].operation == Some(op) then Some(|rows|)
    else FindOperation(rows[..|rows| - 1], op)
  }

  lemma {:induction false} FindSound(rows: seq<Generation>, op: Operation)
    ensures var r := FindOperation(rows, op);
            && (r.Some? ==> 1 <= r.value <= |rows| && rows[r.value - 1].operation == Some(op))
            && (r.None? <==> forall i :: 0 <= i < |rows| ==> rows[i].operation != Some(op))
  {
    if rows != [] && rows[|rows| - 1].operation != Some(op) {
      FindSound(rows[..|rows| - 1], op);
      assert forall i :: 0 <= i < |rows| - 1 ==> rows[i] == rows[..|rows| - 1][i];
    }
  }

  predicate LiveState(state: GenerationState) {
    state != Superseded && state != Failed
  }

  /** Digests no prune may touch: the desired one and those of unsettled intents. The parent of
      an unsettled intent is the desired generation. */
  predicate Protected(s: Store, d: Digest) {
    exists g | g in s.generations :: LiveState(g.state) && g.digest == d
  }

  function Stored(p: Provenance): Provenance {
    if p.Onboarding? then Normal else p
  }

  predicate ValidProvenance(p: Provenance) {
    match p
    case Normal => true
    case Rollback(source, _) => source > 0
    case Onboarding(id, _) => "onboarding-" <= id
    case SchemaMigration(id, _) => ValidRequestId(id)
  }

  /** A rollback names a generation, an onboarding starts like one, and a migration names its request. */
  lemma ProvenanceMeans(p: Provenance)
    ensures ValidProvenance(p) <==>
      || p.Normal? || (p.Rollback? && p.source != 0)
      || (p.Onboarding? && exists rest :: p.id == "onboarding-" + rest)
      || (p.SchemaMigration?
          && 1 <= |Trim(p.requestId)| <= 128 && forall c :: c in Trim(p.requestId) ==> '!' <= c <= '~')
  {
    if p.Onboarding? && "onboarding-" <= p.id {
      assert p.id == "onboarding-" + p.id[|"onboarding-"|..];
    }
  }

  // ---------------------------------------------------------------- transactions

  datatype Acceptance = Refused | Replayed(generation: Generation) | Created(store: Store, generation: Generation)

  predicate RollbackSourceOk(s: Store, p: Provenance) {
    p.Rollback? ==>
      && Known(s, p.source)
      && Row(s, p.source).digest == p.digest
      && Row(s, p.source).state == Superseded
      && p.source != s.desired
  }

  /** BeginConfigurationApply: a compare-and-swap on the desired generation. `laneFree` stands for
      the onboarding, draft and active-run guards, which read tables outside this model. */
  function Begin(s: Store, op: Operation, expectedVersion: nat, laneFree: bool): Acceptance
    requires Known(s, s.desired)
  {
    if op in s.receipts then
      match FindOperation(s.generations, op)
      case Some(id) => if Known(s, id) then Replayed(Row(s, id)) else Refused
      case None => Refused
    else if Incomplete(s.generations).Some? then Refused
    else if s.desired != op.expectedId || Desired(s).digest != op.expected then Refused
    else if expectedVersion > 0 && s.version != expectedVersion then Refused
    else if s.database != op.candidate.database then Refused
    else if !RollbackSourceOk(s, op.provenance) || !laneFree || op.candidate in s.claims then Refused
    else
      var g := Generation(|s.generations| + 1, s.desired, op.candidate, Some(op), Stored(op.provenance), Accepted,
        true, false);
      Created(s.(generations := s.generations + [g], receipts := s.receipts[op := Pending]), g)
  }

  function IntentOutcome(state: GenerationState): Option<ApplyOutcome> {
    match state
    case Accepted => None
    case Failed => Some(Rejected)
    case Ambiguous => Some(Unresolved)
    case _ => Some(Committed)
  }

  /** What is on record about the operation a generation was made by: where its apply ended, and the
      generation and configuration that were desired after it. */
  function ReceiptOf(g: Generation): Receipt
    requires g.operation.Some?
  {
    match IntentOutcome(g.state)
    case None => Pending
    case Some(Committed) => Observed(Committed, g.id, g.digest)
    case Some(outcome) => Observed(outcome, g.parent, g.operation.value.expected)
  }

  /** The settlement that makes generation `id` the desired one. */
  function Commit(s: Store, id: nat, parent: nat, op: Operation): Store
    requires Known(s, id) && Known(s, parent)
  {
    var rows := s.generations[parent - 1 := Row(s, parent).(state := Superseded)];
    s.(generations := rows[id - 1 := Row(s, id).(state := PendingRestart)], desired := id,
       version := s.version + 1, drifted := false,
       receipts := s.receipts[op := Observed(Committed, id, Row(s, id).digest)])
  }

  /** The settlements that keep the parent desired. */
  function Withhold(s: Store, id: nat, op: Operation, outcome: ApplyOutcome): Store
    requires Known(s, id) && Known(s, s.desired)
  {
    s.(generations := s.generations[id - 1 := Row(s, id).(state := if outcome == Rejected then Failed else Ambiguous)],
       receipts := s.receipts[op := Observed(outcome, s.desired, Desired(s).digest)])
  }

  /** SettleConfigurationApply: settles an accepted intent once; settling it again the same way
      changes nothing, settling it another way is refused. */
  function Settle(s: Store, id: nat, parent: nat, op: Operation, outcome: ApplyOutcome): Option<Store>
    requires Known(s, s.desired)
  {
    if !Known(s, id) || Row(s, id).operation != Some(op) || op !in s.receipts || Row(s, id).parent != parent then None
    else if Row(s, id).state != Accepted then
      if IntentOutcome(Row(s, id).state) == Some(outcome) then Some(s) else None
    else if s.desired != parent || s.receipts[op] != Pending then None
    else if outcome == Committed then Some(Commit(s, id, parent, op))
    else Some(Withhold(s, id, op, outcome))
  }

  /** RecordConfigurationNoOp: a receipt without a generation. */
  function RecordNoOp(s: Store, op: Operation): Option<Store>
    requires Known(s, s.desired)
  {
    if op.candidate != op.expected || Incomplete(s.generations).Some? || s.desired != op.expectedId
      || Desired(s).digest != op.expected then None
    else if op in s.receipts then
      if s.receipts[op] == Observed(Committed, s.desired, Desired(s).digest) then Some(s) else None
    else Some(s.(receipts := s.receipts[op := Observed(Committed, s.desired, Desired(s).digest)]))
  }

  /** ObserveConfigurationEffective. */
  function ObserveEffective(s: Store, id: nat, d: Digest): Option<Store>
    requires Known(s, s.desired)
  {
    if Incomplete(s.generations).Some? || s.desired != id || Desired(s).digest != d then None
    else if s.effective == id && Desired(s).effectiveAt then Some(s)
    else if Desired(s).state != PendingRestart && Desired(s).state != Effective then None
    else if s.effective == id then None
    else Some(s.(generations := s.generations[id - 1 := Desired(s).(state := Effective, effectiveAt := true)],
                 effective := id, version := s.version + 1))
  }

  /** ObserveConfigurationDrift: only a transition is recorded. */
  function ObserveDrift(s: Store, id: nat, d: Digest, drifted: bool): Option<Store>
    requires Known(s, s.desired)
  {
    if s.desired != id || Desired(s).digest != d then None
    else if s.drifted == drifted then Some(s)
    else Some(s.(drifted := drifted, version := s.version + 1))
  }

  /** ClaimConfigurationRawPrune. */
  function Claim(s: Store, d: Digest): Option<Store> {
    if d in s.claims then Some(s)
    else if Protected(s, d) then None
    else Some(s.(claims := s.claims + {d}))
  }

  function DropRetained(rows: seq<Generation>, d: Digest): (r: seq<Generation>)
    ensures |r| == |rows|
    ensures forall i :: 0 <= i < |rows| ==>
      r[i] == if rows[i].digest == d && !LiveState(rows[i].state) then rows[i].(rawRetained := false) else rows[i]
  {
    if rows == [] then []
    else
      var g := rows[|rows| - 1];
      DropRetained(rows[..|rows| - 1], d)
        + [if g.digest == d && !LiveState(g.state) then g.(rawRetained := false) else g]
  }

  /** CompleteConfigurationRawPrune. */
  function Complete(s: Store, d: Digest, removed: bool): Option<Store> {
    if d !in s.claims then Some(s)
    else if removed && Protected(s, d) then None
    else
      var rows := if removed then DropRetained(s.generations, d) else s.generations;
      Some(s.(generations := rows, claims := s.claims - {d}))
  }

  /** ConfigurationRawPruneCandidates: the desired snapshot counts as one of the `keep` settled
      generations; unsettled ones are spared without counting. Rows are visited newest first. */
  function PruneScan(s: Store, upTo: nat, kept: nat, keep: nat): (set<Digest>, set<Digest>)
    requires upTo <= |s.generations|
  {
    if upTo == 0 then ({}, {})
    else
      var g := s.generations[upTo - 1];
      if upTo == s.desired then
        var (candidates, spared) := PruneScan(s, upTo - 1, kept, keep);
        (candidates, spared + {g.digest})
      else if g.state == Accepted || g.state == Ambiguous || g.state == PendingRestart then
        var (candidates, spared) := PruneScan(s, upTo - 1, kept, keep);
        (candidates, spared + {g.digest})
      else if kept < keep then
        var (candidates, spared) := PruneScan(s, upTo - 1, kept + 1, keep);
        (candidates, spared + {g.digest})
      else
        var (candidates, spared) := PruneScan(s, upTo - 1, kept, keep);
        (if g.rawRetained then candidates + {g.digest} else candidates, spared)
  }

  function PruneCandidates(s: Store, keep: nat): set<Digest> {
    var (candidates, spared) := PruneScan(s, |s.generations|, 1, keep);
    candidates - spared
  }

  /** Generations the scan spares without counting them: the desired one and those not yet settled. */
  predicate Fixed(s: Store, i: nat)
    requires i < |s.generations|
  {
    var state := s.generations[i].state;
    i + 1 == s.desired || state == Accepted || state == Ambiguous || state == PendingRestart
  }

  /** How many of the generations from `from` up to `upTo` count as retained history. */
  function History(s: Store, from: nat, upTo: nat): nat
    requires from <= upTo <= |s.generations|
  {
    if from == upTo then 0 else History(s, from, upTo - 1) + if Fixed(s, upTo - 1) then 0 else 1
  }

  lemma {:induction false} ScanSpares(s: Store, upTo: nat, kept: nat, keep: nat, i: nat)
    requires i < upTo <= |s.generations| && (Fixed(s, i) || kept + History(s, i, upTo) <= keep)
    ensures s.generations[i].digest in PruneScan(s, upTo, kept, keep).1
    decreases upTo
  {
    if i < upTo - 1 {
      var next := if Fixed(s, upTo - 1) || kept >= keep then kept else kept + 1;
      ScanSpares(s, upTo - 1, next, keep, i);
    } else {
      assert History(s, i, upTo) == History(s, i, i) + if Fixed(s, i) then 0 else 1;
    }
  }

  /** A prune never picks the digest of the desired or an unsettled generation, nor that of any of the
      newest `keep - 1` settled ones beside the desired. */
  lemma PruneKeepsHistory(s: Store, keep: nat, i: nat)
    requires i < |s.generations| && (Fixed(s, i) || 1 + History(s, i, |s.generations|) <= keep)
    ensures s.generations[i].digest !in PruneCandidates(s, keep)
  {
    ScanSpares(s, |s.generations|, 1, keep, i);
  }

  // ---------------------------------------------------------------- invariant

  ghost predicate RowOk(s: Store, i: nat)
    requires i < |s.generations|
  {
    var g := s.generations[i];
    && g.id == i + 1 && g.digest.readable
    && ((g.state == PendingRestart || g.state == Effective) <==> s.desired == i + 1)
    && (g.state == Effective <==> s.desired == i + 1 && s.effective == i + 1)
    && (s.effective == i + 1 ==> g.state == Effective || g.state == Superseded)
    && (g.state == Effective ==> g.effectiveAt)
    && (Unsettled(g) ==> g.parent == s.desired && g.operation.Some? && Incomplete(s.generations) == Some(i + 1))
    && (LiveState(g.state) ==> g.rawRetained && g.digest !in s.claims)
    && (g.operation.None? ==> i == 0)
  }

  /** A generation is exactly what its operation asked for, and the only one that operation made. */
  ghost predicate AppliedRowOk(s: Store, i: nat)
    requires i < |s.generations|
  {
    var g := s.generations[i];
    g.operation.Some? ==>
      var op := g.operation.value;
      && FindOperation(s.generations, op) == Some(i + 1)
      && g.digest == op.candidate
      && g.parent == op.expectedId
      && g.provenance == Stored(op.provenance)
      && 1 <= g.parent <= i
      && s.generations[g.parent - 1].digest == op.expected
      && op.candidate != op.expected
      && op in s.receipts
      && s.receipts[op] == ReceiptOf(g)
  }

  /** A receipt without a generation records that the desired configuration already was the candidate. */
  ghost predicate NoOpReceiptOk(s: Store, op: Operation)
    requires op in s.receipts
  {
    && s.receipts[op].Observed?
    && s.receipts[op].outcome == Committed
    && s.receipts[op].digest == op.candidate == op.expected
    && Known(s, s.receipts[op].version)
    && Row(s, s.receipts[op].version).digest == op.candidate
  }

  ghost predicate StoreOk(s: Store): (ok: bool)
    ensures ok ==> Known(s, s.desired)
  {
    && Known(s, s.desired)
    && s.effective <= |s.generations|
    && (forall i: nat :: i < |s.generations| ==> RowOk(s, i))
    && (forall i: nat :: i < |s.generations| ==> AppliedRowOk(s, i))
    && (forall op :: op in s.receipts && FindOperation(s.generations, op).None? ==> NoOpReceiptOk(s, op))
  }

  // ---------------------------------------------------------------- history

  ghost predicate Advances(a: GenerationState, b: GenerationState) {
    || a == b
    || a == Accepted
    || (a == PendingRestart && (b == Effective || b == Superseded))
    || (a == Effective && b == Superseded)
  }

  /** What never changes about a generation once it is recorded. */
  ghost predicate SameRow(g: Generation, h: Generation) {
    && g.id == h.id && g.parent == h.parent && g.digest == h.digest
    && g.operation == h.operation && g.provenance == h.provenance
    && Advances(g.state, h.state)
  }

  /** `t` is a later state of the same authority as `s`. */
  ghost predicate Extends(s: Store, t: Store) {
    && |s.generations| <= |t.generations|
    && s.database == t.database
    && (forall i :: 0 <= i < |s.generations| ==> SameRow(s.generations[i], t.generations[i]))
    && (forall i :: |s.generations| <= i < |t.generations| ==>
          t.generations[i].operation.Some? && t.generations[i].operation.value !in s.receipts)
    && (forall op :: op in s.receipts ==>
      op in t.receipts && (s.receipts[op].Observed? ==> t.receipts[op] == s.receipts[op]))
  }

  lemma ExtendsReflexive(s: Store)
    ensures Extends(s, s)
  {
  }

  lemma ExtendsTransitive(s: Store, t: Store, u: Store)
    requires Extends(s, t) && Extends(t, u)
    ensures Extends(s, u)
  {
    forall i | |s.generations| <= i < |u.generations|
      ensures u.generations[i].operation.Some? && u.generations[i].operation.value !in s.receipts
    {
      if i < |t.generations| {
        assert SameRow(t.generations[i], u.generations[i]);
      }
    }
    forall i | 0 <= i < |s.generations| ensures SameRow(s.generations[i], u.generations[i]) {
      assert SameRow(s.generations[i], t.generations[i]);
      assert SameRow(t.generations[i], u.generations[i]);
    }
  }

  lemma FindUnique(s: Store, op: Operation, id: nat)
    requires StoreOk(s) && Known(s, id) && Row(s, id).operation == Some(op)
    ensures FindOperation(s.generations, op) == Some(id)
  {
    assert AppliedRowOk(s, id - 1);
  }

  /** An operation without a receipt has made no generation. */
  lemma UnknownIsUnmade(s: Store, op: Operation)
    requires StoreOk(s) && op !in s.receipts
    ensures FindOperation(s.generations, op).None?
  {
    FindSound(s.generations, op);
    forall i: nat | i < |s.generations| ensures s.generations[i].operation != Some(op) {
      assert AppliedRowOk(s, i);
    }
  }

  lemma UnsettledUnique(s: Store, id: nat)
    requires StoreOk(s) && Known(s, id) && Unsettled(Row(s, id))
    ensures Incomplete(s.generations) == Some(id)
  {
    assert RowOk(s, id - 1);
  }

  /** The store right after an accepted apply. */
  ghost predicate Appended(s: Store, op: Operation, t: Store, g: Generation) {
    && t == s.(generations := s.generations + [g], receipts := s.receipts[op := Pending])
    && g == Generation(|s.generations| + 1, s.desired, op.candidate, Some(op), Stored(op.provenance), Accepted, true,
      false)
    && Known(s, s.desired) && s.desired == op.expectedId && Desired(s).digest == op.expected != op.candidate
    && op !in s.receipts && op.candidate !in s.claims && op.candidate.readable && Incomplete(s.generations).None?
  }

  lemma AppendedFinds(s: Store, op: Operation, t: Store, g: Generation, o: Operation)
    requires Appended(s, op, t, g)
    ensures FindOperation(t.generations, o) == if o == op then Some(g.id) else FindOperation(s.generations, o)
    ensures Incomplete(t.generations) == Some(g.id)
  {
    assert t.generations[..|s.generations|] == s.generations;
  }

  lemma AppendedRows(s: Store, op: Operation, t: Store, g: Generation)
    requires StoreOk(s) && Appended(s, op, t, g)
    ensures forall i: nat :: i < |t.generations| ==> RowOk(t, i)
  {
    hide AppliedRowOk, NoOpReceiptOk, Incomplete, FindOperation;
    AppendedFinds(s, op, t, g, op);
    IncompleteSound(s.generations);
    forall i: nat | i < |t.generations| ensures RowOk(t, i) {
      if i < |s.generations| {
        assert RowOk(s, i);
      }
    }
  }

  lemma AppendedApplied(s: Store, op: Operation, t: Store, g: Generation)
    requires StoreOk(s) && Appended(s, op, t, g)
    ensures forall i: nat :: i < |t.generations| ==> AppliedRowOk(t, i)
    ensures forall o :: o in t.receipts && FindOperation(t.generations, o).None? ==> NoOpReceiptOk(t, o)
  {
    hide RowOk, Incomplete, FindOperation;
    forall i: nat | i < |t.generations| ensures AppliedRowOk(t, i) {
      if i < |s.generations| {
        assert AppliedRowOk(s, i);
        if s.generations[i].operation.Some? {
          AppendedFinds(s, op, t, g, s.generations[i].operation.value);
        }
      } else {
        AppendedFinds(s, op, t, g, op);
      }
    }
    forall o | o in t.receipts && FindOperation(t.generations, o).None? ensures NoOpReceiptOk(t, o) {
      AppendedFinds(s, op, t, g, o);
      assert NoOpReceiptOk(s, o);
    }
  }

  /** Accepting an apply keeps the authority well formed and only adds to its history. */
  lemma BeginKeeps(s: Store, op: Operation, expectedVersion: nat, laneFree: bool)
    requires StoreOk(s) && op.candidate != op.expected && op.candidate.readable
    ensures var a := Begin(s, op, expectedVersion, laneFree);
            a.Created? ==> StoreOk(a.store) && Extends(s, a.store) && Unsettled(a.generation)
                           && a.generation.parent == s.desired == a.store.desired
  {
    hide RowOk, AppliedRowOk, NoOpReceiptOk, Incomplete, FindOperation;
    var a := Begin(s, op, expectedVersion, laneFree);
    if a.Created? {
      assert Appended(s, op, a.store, a.generation);
      AppendedRows(s, op, a.store, a.generation);
      AppendedApplied(s, op, a.store, a.generation);
    }
  }

  /** A new apply is accepted exactly when its operation is unknown, nothing is unsettled, the desired
      generation and version are the expected ones, and neither a prune nor a rollback rule forbids it. */
  lemma BeginComparesAndSwaps(s: Store, op: Operation, expectedVersion: nat, laneFree: bool)
    requires Known(s, s.desired)
    ensures Begin(s, op, expectedVersion, laneFree).Created? <==>
      && op !in s.receipts && laneFree
      && (forall g :: g in s.generations ==> !Unsettled(g))
      && s.desired == op.expectedId && Desired(s).digest == op.expected
      && (expectedVersion == 0 || expectedVersion == s.version)
      && s.database == op.candidate.database
      && (op.provenance.Rollback? ==>
            && 1 <= op.provenance.source <= |s.generations| && op.provenance.source != s.desired
            && var g := Row(s, op.provenance.source); g.digest == op.provenance.digest && g.state == Superseded)
      && op.candidate !in s.claims
  {
    IncompleteSound(s.generations);
  }

  /** The version counts what an observer of the authority can tell apart: which generation is desired, which
      is effective, and whether the live file strayed. */
  predicate VersionCounts(s: Store, t: Store) {
    t.version == s.version
      + if t.desired == s.desired && t.effective == s.effective && t.drifted == s.drifted then 0 else 1
  }

  /** Every transaction moves the version by one exactly when it changes one of these. */
  lemma EveryTransactionCounts(s: Store, op: Operation, expectedVersion: nat, laneFree: bool, id: nat, parent: nat,
    outcome: ApplyOutcome, d: Digest, drifted: bool, removed: bool)
    requires StoreOk(s)
    ensures var begun := Begin(s, op, expectedVersion, laneFree); begun.Created? ==> VersionCounts(s, begun.store)
    ensures var settled := Settle(s, id, parent, op, outcome); settled.Some? ==> VersionCounts(s, settled.value)
    ensures var noOp := RecordNoOp(s, op); noOp.Some? ==> VersionCounts(s, noOp.value)
    ensures var seen := ObserveEffective(s, id, d); seen.Some? ==> VersionCounts(s, seen.value)
    ensures var strayed := ObserveDrift(s, id, d, drifted); strayed.Some? ==> VersionCounts(s, strayed.value)
    ensures var claimed := Claim(s, d); claimed.Some? ==> VersionCounts(s, claimed.value)
    ensures var pruned := Complete(s, d, removed); pruned.Some? ==> VersionCounts(s, pruned.value)
  {
    hide RollbackSourceOk, FindOperation, AppliedRowOk, NoOpReceiptOk, Protected, Incomplete, DropRetained;
    if Known(s, id) {
      assert RowOk(s, id - 1);
    }
  }

  /** An observation goes through exactly for the desired generation, an effective one only with nothing
      unsettled. */
  lemma ObservedIff(s: Store, id: nat, d: Digest, drifted: bool)
    requires StoreOk(s)
    ensures ObserveEffective(s, id, d).Some? <==>
      id == s.desired && d == Desired(s).digest && forall g :: g in s.generations ==> !Unsettled(g)
    ensures ObserveDrift(s, id, d, drifted).Some? <==> id == s.desired && d == Desired(s).digest
    ensures ObserveDrift(s, id, d, drifted).Some? ==> ObserveDrift(s, id, d, drifted).value.drifted == drifted
  {
    hide AppliedRowOk, NoOpReceiptOk, FindOperation, Incomplete;
    IncompleteSound(s.generations);
    assert RowOk(s, s.desired - 1);
  }

  /** A settlement goes through exactly for the apply it names, unless that was settled another way. */
  lemma SettledIff(s: Store, id: nat, parent: nat, op: Operation, outcome: ApplyOutcome)
    requires StoreOk(s)
    ensures Settle(s, id, parent, op, outcome).Some? <==>
      && 1 <= id <= |s.generations| && Row(s, id).operation == Some(op) && Row(s, id).parent == parent
      && match Row(s, id).state
         case Accepted => true
         case Failed => outcome == Rejected
         case Ambiguous => outcome == Unresolved
         case _ => outcome == Committed
  {
    if Known(s, id) {
      assert RowOk(s, id - 1) && AppliedRowOk(s, id - 1);
    }
  }

  /** A no-op goes through exactly for what is desired already, unless its operation has another receipt. */
  lemma NoOpIff(s: Store, op: Operation)
    requires StoreOk(s)
    ensures RecordNoOp(s, op).Some? <==>
      && op.candidate == op.expected == Desired(s).digest && op.expectedId == s.desired
      && (forall g :: g in s.generations ==> !Unsettled(g))
      && (op in s.receipts ==> s.receipts[op] == Observed(Committed, s.desired, op.candidate))
    ensures RecordNoOp(s, op).Some? ==>
      RecordNoOp(s, op).value.receipts == s.receipts[op := Observed(Committed, s.desired, op.candidate)]
  {
    IncompleteSound(s.generations);
  }

  /** A digest is claimed exactly when no generation that is neither superseded nor failed has it. */
  lemma ClaimedIff(s: Store, d: Digest)
    requires StoreOk(s)
    ensures Claim(s, d).Some? <==>
      forall g :: g in s.generations && g.digest == d ==> g.state == Superseded || g.state == Failed
    ensures Claim(s, d).Some? ==> Claim(s, d).value.claims == s.claims + {d}
  {
    ClaimedUnprotected(s);
  }

  /** A settlement touches the settled generation, its receipt and, when it commits, the parent it supersedes
      and the drift it clears; nothing else. */
  lemma SettlementTouches(s: Store, id: nat, parent: nat, op: Operation, outcome: ApplyOutcome)
    requires StoreOk(s) && Settle(s, id, parent, op, outcome).Some? && Row(s, id).state == Accepted
    ensures var t := Settle(s, id, parent, op, outcome).value;
      && |t.generations| == |s.generations|
      && (forall i :: 1 <= i <= |s.generations| && i != id && i != parent ==> Row(t, i) == Row(s, i))
      && 1 <= parent < id
      && Row(t, parent) == (if outcome == Committed then Row(s, parent).(state := Superseded) else Row(s, parent))
      && Row(t, id) == Row(s, id).(state := Row(t, id).state)
      && t.receipts - {op} == s.receipts - {op}
      && t.desired == (if outcome == Committed then id else s.desired)
      && t.drifted == (outcome != Committed && s.drifted)
      && t.effective == s.effective && t.claims == s.claims && t.database == s.database
  {
    assert RowOk(s, id - 1) && AppliedRowOk(s, id - 1);
  }

  /** Settling again the same way changes nothing, and settling another way is refused. */
  lemma SettledForGood(s: Store, id: nat, parent: nat, op: Operation, outcome: ApplyOutcome, other: ApplyOutcome)
    requires StoreOk(s) && Settle(s, id, parent, op, outcome).Some?
    ensures var t := Settle(s, id, parent, op, outcome).value;
      && Known(t, t.desired)
      && Settle(t, id, parent, op, other) == if other == outcome then Some(t) else None
  {
    hide FindOperation;
    SettleKeeps(s, id, parent, op, outcome);
    if Row(s, id).state == Accepted {
      assert RowOk(s, id - 1);
    }
  }

  /** An observed generation is desired, effective and live in its own right, and is observed once. */
  lemma EffectiveOnce(s: Store, id: nat, d: Digest)
    requires StoreOk(s) && ObserveEffective(s, id, d).Some?
    ensures var t := ObserveEffective(s, id, d).value;
      && t.effective == t.desired == id && Known(t, id) && Row(t, id).digest == d && Row(t, id).state == Effective
      && t.version == s.version + (if t == s then 0 else 1)
      && ObserveEffective(t, id, d) == Some(t)
  {
    var t := ObserveEffective(s, id, d).value;
    ObserveEffectiveKeeps(s, id, d);
    assert RowOk(s, id - 1) && RowOk(t, id - 1);
    IncompleteSound(t.generations);
    IncompleteSound(s.generations);
  }

  ghost predicate Accepts(s: Store, id: nat, op: Operation) {
    && Known(s, id)
    && Row(s, id).state == Accepted
    && Row(s, id).operation == Some(op)
  }

  lemma AcceptedFacts(s: Store, id: nat, op: Operation)
    requires StoreOk(s) && Accepts(s, id, op)
    ensures op in s.receipts && s.receipts[op].Pending?
    ensures id != s.desired && (Desired(s).state == PendingRestart || Desired(s).state == Effective)
    ensures Row(s, id).digest == op.candidate && Desired(s).digest == op.expected
  {
    assert RowOk(s, id - 1) && RowOk(s, s.desired - 1) && AppliedRowOk(s, id - 1);
  }

  lemma CommitKeeps(s: Store, id: nat, op: Operation)
    requires StoreOk(s) && Accepts(s, id, op)
    ensures var t := Commit(s, id, s.desired, op); StoreOk(t) && Extends(s, t)
  {
    hide AppliedRowOk, NoOpReceiptOk, FindOperation, Incomplete;
    var t := Commit(s, id, s.desired, op);
    AcceptedFacts(s, id, op);
    CommitRows(s, id, op);
    SettledRows(s, t, id);
    assert RowOk(s, id - 1);
    SettledApplied(s, t, id, op);
  }

  lemma CommitRows(s: Store, id: nat, op: Operation)
    requires StoreOk(s) && Accepts(s, id, op)
    ensures var t := Commit(s, id, s.desired, op); forall i: nat :: i < |t.generations| ==> RowOk(t, i)
  {
    hide AppliedRowOk;
    var t := Commit(s, id, s.desired, op);
    AcceptedFacts(s, id, op);
    SettledRows(s, t, id);
    forall i: nat | i < |t.generations| ensures RowOk(t, i) {
      assert RowOk(s, i) && RowOk(s, id - 1);
    }
  }

  lemma WithholdKeeps(s: Store, id: nat, op: Operation, outcome: ApplyOutcome)
    requires StoreOk(s) && Accepts(s, id, op) && outcome != Committed
    ensures var t := Withhold(s, id, op, outcome); StoreOk(t) && Extends(s, t)
  {
    hide FindOperation, Incomplete;
    var t := Withhold(s, id, op, outcome);
    AcceptedFacts(s, id, op);
    assert RowOk(s, id - 1);
    assert AppliedRowOk(s, id - 1);
    SettledRows(s, t, id);
    forall i: nat | i < |t.generations| ensures RowOk(t, i) && SameRow(s.generations[i], t.generations[i]) {
      assert RowOk(s, i) && RowOk(s, id - 1);
    }
    SettledApplied(s, t, id, op);
  }

  /** Settlement changes states and one receipt, nothing an operation asked for. */
  lemma SettledApplied(s: Store, t: Store, id: nat, op: Operation)
    requires StoreOk(s) && Accepts(s, id, op) && op in s.receipts
    requires |t.generations| == |s.generations| && op in t.receipts
    requires t.receipts == s.receipts[op := t.receipts[op]]
    requires forall i :: 0 <= i < |s.generations| ==> SameRow(s.generations[i], t.generations[i])
    requires forall i :: 0 <= i < |s.generations| && i != id - 1 ==>
      IntentOutcome(t.generations[i].state) == IntentOutcome(s.generations[i].state)
    requires Row(t, id).operation == Some(op) && t.receipts[op] == ReceiptOf(Row(t, id))
    requires forall o :: FindOperation(t.generations, o) == FindOperation(s.generations, o)
    ensures forall i: nat :: i < |t.generations| ==> AppliedRowOk(t, i)
    ensures forall o :: o in t.receipts && FindOperation(t.generations, o).None? ==> NoOpReceiptOk(t, o)
  {
    hide RowOk, FindOperation, Incomplete, NoOpReceiptOk;
    forall i: nat | i < |t.generations| ensures AppliedRowOk(t, i) {
      SettledRow(s, t, id, op, i);
    }
    SettledNoOps(s, t, id, op);
  }

  lemma SettledRow(s: Store, t: Store, id: nat, op: Operation, i: nat)
    requires Accepts(s, id, op) && op in s.receipts && i < |s.generations|
    requires AppliedRowOk(s, i) && AppliedRowOk(s, id - 1)
    requires |t.generations| == |s.generations| && op in t.receipts
    requires t.receipts == s.receipts[op := t.receipts[op]]
    requires forall j :: 0 <= j < |s.generations| ==> SameRow(s.generations[j], t.generations[j])
    requires i != id - 1 ==> IntentOutcome(t.generations[i].state) == IntentOutcome(s.generations[i].state)
    requires Row(t, id).operation == Some(op) && t.receipts[op] == ReceiptOf(Row(t, id))
    requires forall o :: FindOperation(t.generations, o) == FindOperation(s.generations, o)
    ensures AppliedRowOk(t, i)
  {
    hide FindOperation;
    assert SameRow(s.generations[i], t.generations[i]);
    if s.generations[i].operation.Some? {
      var own := s.generations[i].operation.value;
      assert SameRow(s.generations[s.generations[i].parent - 1], t.generations[s.generations[i].parent - 1]);
      assert FindOperation(t.generations, own) == FindOperation(s.generations, own);
    }
  }

  lemma SettledNoOps(s: Store, t: Store, id: nat, op: Operation)
    requires StoreOk(s) && Accepts(s, id, op) && op in s.receipts
    requires |t.generations| == |s.generations|
    requires op in t.receipts && t.receipts == s.receipts[op := t.receipts[op]]
    requires forall j :: 0 <= j < |s.generations| ==> SameRow(s.generations[j], t.generations[j])
    requires forall o :: FindOperation(t.generations, o) == FindOperation(s.generations, o)
    ensures forall o :: o in t.receipts && FindOperation(t.generations, o).None? ==> NoOpReceiptOk(t, o)
  {
    hide RowOk, FindOperation, Incomplete;
    assert AppliedRowOk(s, id - 1);
    forall o | o in t.receipts && FindOperation(t.generations, o).None? ensures NoOpReceiptOk(t, o) {
      assert o in s.receipts && NoOpReceiptOk(s, o);
    }
  }

  /** Settling the one unsettled intent leaves no other, and every operation where it was. */
  lemma SettledRows(s: Store, t: Store, id: nat)
    requires StoreOk(s) && Known(s, id) && Unsettled(Row(s, id)) && |t.generations| == |s.generations|
    requires forall i :: 0 <= i < |s.generations| ==> t.generations[i].operation == s.generations[i].operation
    requires forall i :: 0 <= i < |s.generations| && i != id - 1 && Unsettled(t.generations[i]) ==>
      Unsettled(s.generations[i])
    ensures Incomplete(t.generations) == if Unsettled(Row(t, id)) then Some(id) else None
    ensures forall o :: FindOperation(t.generations, o) == FindOperation(s.generations, o)
  {
    SameOperations(s.generations, t.generations);
    IncompleteSound(t.generations);
    assert RowOk(s, id - 1);
    var r := Incomplete(t.generations);
    forall i: nat | i < |s.generations| && i != id - 1 ensures !Unsettled(t.generations[i]) {
      assert RowOk(s, i);
    }
  }

  /** Steps that leave every receipt alone, and every row but for its state and retention. */
  lemma QuietRows(s: Store, t: Store)
    requires StoreOk(s) && |t.generations| == |s.generations| && t.receipts == s.receipts
    requires forall i :: 0 <= i < |s.generations| ==> SameRow(s.generations[i], t.generations[i])
    requires forall i :: 0 <= i < |s.generations| ==> (Unsettled(t.generations[i]) <==> Unsettled(s.generations[i]))
    requires forall i :: 0 <= i < |s.generations| ==>
      IntentOutcome(t.generations[i].state) == IntentOutcome(s.generations[i].state)
    ensures forall i: nat :: i < |t.generations| ==> AppliedRowOk(t, i)
    ensures forall o :: o in t.receipts && FindOperation(t.generations, o).None? ==> NoOpReceiptOk(t, o)
    ensures Incomplete(t.generations) == Incomplete(s.generations)
  {
    hide RowOk, Incomplete, FindOperation;
    SameOperations(s.generations, t.generations);
    SameIncomplete(s.generations, t.generations);
    forall i: nat | i < |t.generations| ensures AppliedRowOk(t, i) {
      assert SameRow(s.generations[i], t.generations[i]);
      assert AppliedRowOk(s, i);
      if s.generations[i].operation.Some? {
        assert SameRow(s.generations[s.generations[i].parent - 1], t.generations[s.generations[i].parent - 1]);
      }
    }
    forall o | o in t.receipts && FindOperation(t.generations, o).None? ensures NoOpReceiptOk(t, o) {
      assert NoOpReceiptOk(s, o);
    }
  }

  lemma {:induction false} SameIncomplete(a: seq<Generation>, b: seq<Generation>)
    requires |a| == |b| && forall i :: 0 <= i < |a| ==> (Unsettled(a[i]) <==> Unsettled(b[i]))
    ensures Incomplete(a) == Incomplete(b)
  {
    if a != [] {
      SameIncomplete(a[..|a| - 1], b[..|b| - 1]);
    }
  }

  lemma SettleKeeps(s: Store, id: nat, parent: nat, op: Operation, outcome: ApplyOutcome)
    requires StoreOk(s)
    ensures var r := Settle(s, id, parent, op, outcome);
            r.Some? ==> StoreOk(r.value) && Extends(s, r.value) && r.value.claims == s.claims
  {
    var r := Settle(s, id, parent, op, outcome);
    if r.Some? && Row(s, id).state == Accepted {
      if outcome == Committed {
        CommitKeeps(s, id, op);
      } else {
        WithholdKeeps(s, id, op, outcome);
      }
    }
  }

  lemma SameOperations(a: seq<Generation>, b: seq<Generation>)
    requires |a| == |b| && forall i :: 0 <= i < |a| ==> a[i].operation == b[i].operation
    ensures forall op :: FindOperation(a, op) == FindOperation(b, op)
  {
    forall op ensures FindOperation(a, op) == FindOperation(b, op) {
      SameOperation(a, b, op);
    }
  }

  lemma {:induction false} SameOperation(a: seq<Generation>, b: seq<Generation>, op: Operation)
    requires |a| == |b| && forall i :: 0 <= i < |a| ==> a[i].operation == b[i].operation
    ensures FindOperation(a, op) == FindOperation(b, op)
  {
    if a != [] {
      SameOperation(a[..|a| - 1], b[..|b| - 1], op);
    }
  }

  lemma NoOpKeeps(s: Store, op: Operation)
    requires StoreOk(s)
    ensures var r := RecordNoOp(s, op);
            r.Some? ==> StoreOk(r.value) && Extends(s, r.value) && r.value == s.(receipts := r.value.receipts)
  {
    hide FindOperation, Incomplete;
    var r := RecordNoOp(s, op);
    if r.Some? {
      var t := r.value;
      forall i: nat | i < |t.generations| ensures RowOk(t, i) {
        assert RowOk(s, i);
      }
      forall i: nat | i < |t.generations| ensures AppliedRowOk(t, i) {
        assert AppliedRowOk(s, i);
      }
      forall o | o in t.receipts && FindOperation(t.generations, o).None? ensures NoOpReceiptOk(t, o) {
        if o in s.receipts {
          assert NoOpReceiptOk(s, o);
        }
      }
    }
  }

  lemma ObserveEffectiveKeeps(s: Store, id: nat, d: Digest)
    requires StoreOk(s)
    ensures var r := ObserveEffective(s, id, d);
            r.Some? ==>
              StoreOk(r.value) && Extends(s, r.value) && r.value.desired == s.desired && r.value.claims == s.claims
  {
    hide AppliedRowOk, NoOpReceiptOk, FindOperation, Incomplete;
    var r := ObserveEffective(s, id, d);
    if r.Some? && r.value != s {
      var t := r.value;
      assert RowOk(s, id - 1);
      QuietRows(s, t);
      forall i: nat | i < |t.generations| ensures RowOk(t, i) {
        assert RowOk(s, i);
      }
    }
  }

  lemma ObserveDriftKeeps(s: Store, id: nat, d: Digest, drifted: bool)
    requires StoreOk(s)
    ensures var r := ObserveDrift(s, id, d, drifted);
            r.Some? ==>
              && StoreOk(r.value) && Extends(s, r.value)
              && r.value == s.(drifted := r.value.drifted, version := r.value.version)
  {
    var r := ObserveDrift(s, id, d, drifted);
    if r.Some? {
      var t := r.value;
      QuietRows(s, t);
      forall i: nat | i < |t.generations| ensures RowOk(t, i) {
        assert RowOk(s, i);
      }
    }
  }

  /** A claim is only taken on a digest nothing live uses. */
  lemma ClaimKeeps(s: Store, d: Digest)
    requires StoreOk(s)
    ensures Claim(s, d).Some? ==>
      var t := Claim(s, d).value;
      StoreOk(t) && Extends(s, t) && t == s.(claims := t.claims) && d in t.claims && !Protected(t, d)
  {
    hide AppliedRowOk, NoOpReceiptOk, FindOperation, Incomplete;
    ClaimedUnprotected(s);
    if Claim(s, d).Some? {
      var t := Claim(s, d).value;
      QuietRows(s, t);
      forall i: nat | i < |t.generations| ensures RowOk(t, i) {
        assert RowOk(s, i);
        assert s.generations[i] in s.generations;
      }
    }
  }

  lemma ClaimedUnprotected(s: Store)
    requires StoreOk(s)
    ensures forall d :: d in s.claims ==> !Protected(s, d)
  {
    forall g | g in s.generations && LiveState(g.state) ensures g.digest !in s.claims {
      var i: nat :| i < |s.generations| && s.generations[i] == g;
      assert RowOk(s, i);
    }
  }

  lemma ForgottenRows(s: Store, d: Digest, t: Store)
    requires StoreOk(s) && !Protected(s, d)
    requires t == s.(generations := DropRetained(s.generations, d), claims := s.claims - {d})
    requires Incomplete(t.generations) == Incomplete(s.generations)
    ensures forall i: nat :: i < |t.generations| ==> RowOk(t, i)
  {
    hide AppliedRowOk, NoOpReceiptOk, Incomplete, FindOperation, DropRetained, Protected;
    forall i: nat | i < |t.generations| ensures RowOk(t, i) {
      assert RowOk(s, i);
    }
  }

  /** Completing a prune is never refused, and forgets only digests nothing live uses. */
  lemma CompleteKeeps(s: Store, d: Digest, removed: bool)
    requires StoreOk(s)
    ensures Complete(s, d, removed).Some?
    ensures var t := Complete(s, d, removed).value;
      && StoreOk(t) && Extends(s, t) && t.desired == s.desired && t.claims == s.claims - {d} && t.receipts == s.receipts
      && Incomplete(t.generations) == Incomplete(s.generations)
  {
    hide RowOk, AppliedRowOk, NoOpReceiptOk, FindOperation, Incomplete, DropRetained, Protected;
    ClaimedUnprotected(s);
    var t := Complete(s, d, removed).value;
    QuietRows(s, t);
    if d in s.claims && removed {
      ForgottenRows(s, d, t);
    } else {
      UnclaimedRows(s, t, d);
    }
  }

  lemma UnclaimedRows(s: Store, t: Store, d: Digest)
    requires StoreOk(s) && t == s.(claims := s.claims - {d})
    ensures forall i: nat :: i < |t.generations| ==> RowOk(t, i)
  {
    forall i: nat | i < |t.generations| ensures RowOk(t, i) {
      assert RowOk(s, i);
    }
  }
}
