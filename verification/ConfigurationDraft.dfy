/** Applying a configuration draft: binding it to the generation its settings materialise to
    (internal/application/configuration_draft.go, internal/adapters/sqlite/configuration_draft.go). */
module ConfigurationDraft {
  import opened Outcomes
  import opened ConfigurationStore
  import Service = ConfigurationService

  /** The editable settings of a draft, by identity; module SettingsEdits says what they hold. */
  type Settings = nat

  /** Rewrites a base file with a draft's settings; None when the result does not validate. */
  type Materializer = (Payload, Settings) -> Option<Payload>

  datatype Origin = Edited | RollbackOf(source: nat, digest: Digest)

  datatype DraftState = Open | Applying | Applied | Discarded | Suspended

  /** What a preview digest is computed from; the changes and impacts follow from these parts. */
  datatype Preview = Preview(
    revision: nat, baseId: nat, base: Digest, candidate: Digest, origin: Origin,
    desiredId: nat, desired: Digest, version: nat)

  datatype Result = Result(operation: Operation, id: nat)

  datatype Draft = Draft(
    baseId: nat, base: Digest, revision: nat, settings: Settings, origin: Origin, state: DraftState,
    preview: Option<Preview>, result: Option<Result>, noOp: bool)

  datatype DraftError = Blocked(cause: Service.Error) | ApplyFailed(cause: Service.Error) | NeedsReplay

  datatype Command = Command(requester: Actor, revision: nat, expectedId: nat, expected: Digest, preview: Preview)

  // ---------------------------------------------------------------- binding transactions

  datatype Binding =
    | Start
    | Reopen
    | Progress(result: Result)
    | Finish(result: Result, noOp: bool)
    | Suspend(result: Result)

  predicate BindsTo(d: Draft, revision: nat, preview: Preview, r: Result) {
    && d.state.Applying? && d.revision == revision && d.preview == Some(preview)
    && (d.result.Some? ==> d.result.value.operation == r.operation)
  }

  /** BindConfigurationDraftApply. */
  function Bind(d: Draft, revision: nat, preview: Preview, b: Binding): Option<Draft> {
    match b
    case Start =>
      if d.state.Open? && d.revision == revision && d.preview == Some(preview) then Some(d.(state := Applying))
      else if d.state.Applying? && d.revision == revision && d.preview == Some(preview) then Some(d)
      else None
    case Reopen =>
      if d.state.Applying? && d.revision == revision && d.preview == Some(preview) && d.result.None? then
        Some(d.(state := Open, preview := None))
      else if d.state.Open? && d.revision == revision && d.preview.None? && d.result.None? then Some(d)
      else None
    case Progress(r) =>
      if BindsTo(d, revision, preview, r) then Some(d.(result := Some(r))) else None
    case Finish(r, noOp) =>
      if BindsTo(d, revision, preview, r) then Some(d.(state := Applied, result := Some(r), noOp := noOp))
      else if d.state.Applied? && d.revision == revision && d.preview == Some(preview) && d.result == Some(r)
        && d.noOp == noOp then Some(d)
      else None
    case Suspend(r) =>
      if BindsTo(d, revision, preview, r) then Some(d.(state := Suspended, result := Some(r)))
      else if d.state.Suspended? && d.revision == revision && d.preview == Some(preview)
        && d.result == Some(r) then Some(d)
      else None
  }

  /** A binding goes through only at the revision it was made for, and for the preview that was applied, and
      never against another operation. */
  lemma BoundIff(d: Draft, revision: nat, preview: Preview, b: Binding)
    ensures Bind(d, revision, preview, b).Some? <==>
      && d.revision == revision
      && (d.preview == Some(preview) || (b.Reopen? && d.state.Open? && d.preview.None?))
      && match b
         case Start => d.state.Open? || d.state.Applying?
         case Reopen => d.result.None? && (d.state.Applying? || (d.state.Open? && d.preview.None?))
         case Progress(r) => d.state.Applying? && Unbound(d, r)
         case Finish(r, noOp) =>
           (d.state.Applying? && Unbound(d, r)) || (d.state.Applied? && d.result == Some(r) && d.noOp == noOp)
         case Suspend(r) => (d.state.Applying? && Unbound(d, r)) || (d.state.Suspended? && d.result == Some(r))
  {
  }

  /** The draft is bound to no other operation. */
  predicate Unbound(d: Draft, r: Result) {
    d.result == None || d.result.value.operation == r.operation
  }

  /** Once applied or suspended a draft stays as it is; a result never goes away, nor to another operation;
      and binding again changes nothing. */
  lemma BindingIsFinal(d: Draft, revision: nat, preview: Preview, b: Binding)
    requires Bind(d, revision, preview, b).Some?
    ensures var e := Bind(d, revision, preview, b).value;
      && Bind(e, revision, preview, b) == Some(e)
      && (d.state in {Applied, Suspended, Discarded} ==> e == d)
      && (d.result.Some? ==> e.result.Some? && e.result.value.operation == d.result.value.operation)
      && (e.result != d.result ==> b.Progress? || b.Finish? || b.Suspend?)
      && match b
         case Reopen => e.state == Open && e.preview.None?
         case Finish(r, noOp) => e.state == Applied && e.result == Some(r) && e.noOp == noOp
         case Suspend(r) => e.state == Suspended && e.result == Some(r)
         case Progress(r) => e.state == Applying && e.result == Some(r)
         case Start => e.state == Applying
  {
  }

  // ---------------------------------------------------------------- what a draft may name

  /** generationProvenanceMatchesDraft. */
  predicate ProvenanceMatches(g: Generation, origin: Origin) {
    match origin
    case RollbackOf(source, digest) => g.provenance == Rollback(source, digest)
    case Edited => !g.provenance.Rollback?
  }

  function ProvenanceOf(origin: Origin): Provenance {
    match origin
    case RollbackOf(source, digest) => Rollback(source, digest)
    case Edited => Normal
  }

  function OperationOf(d: Draft, requester: Actor, candidate: Digest): Operation {
    Operation(d.baseId, d.base, requester, candidate, ProvenanceOf(d.origin))
  }

  /** The generation carries exactly the draft's settings over its base and, unless nothing was
      applied, the draft's rollback provenance. */
  predicate Fits(s: Store, d: Draft, mat: Materializer, r: Result, noOp: bool) {
    && Known(s, r.id) && r.operation in s.receipts
    && mat(d.base, d.settings) == Some(Row(s, r.id).digest)
    && (noOp || (ProvenanceMatches(Row(s, r.id), d.origin) && Row(s, r.id).operation == Some(r.operation)))
  }

  /** What others may do to a draft: its base and origin stay, and so do its settings within a revision. */
  predicate SameDraft(d: Draft, e: Draft) {
    && e.baseId == d.baseId && e.base == d.base && e.origin == d.origin
    && e.revision >= d.revision && (e.revision == d.revision ==> e.settings == d.settings)
  }

  ghost predicate DraftOk(s: Store, d: Draft, mat: Materializer) {
    && (d.state.Applied? || d.state.Suspended? ==> d.result.Some?)
    && (d.state.Open? ==> d.result.None?)
    && (d.noOp ==> d.state.Applied?)
    && (d.result.Some? ==> Fits(s, d, mat, d.result.value, d.noOp))
    && (d.preview.Some? ==> d.preview.value.revision == d.revision)
  }

  predicate BindingOk(s: Store, d: Draft, mat: Materializer, b: Binding) {
    match b
    case Start => true
    case Reopen => true
    case Progress(r) => Fits(s, d, mat, r, false)
    case Finish(r, noOp) => Fits(s, d, mat, r, noOp)
    case Suspend(r) => Fits(s, d, mat, r, false)
  }

  /** Binding keeps the draft truthful. */
  lemma BindKeeps(s: Store, d: Draft, mat: Materializer, revision: nat, preview: Preview, b: Binding)
    requires DraftOk(s, d, mat) && BindingOk(s, d, mat, b)
    ensures Bind(d, revision, preview, b).Some? ==>
      var e := Bind(d, revision, preview, b).value;
      DraftOk(s, e, mat) && e.(state := d.state, preview := d.preview, result := d.result, noOp := d.noOp) == d
  {
  }

  /** Nothing the authority does later makes a bound draft untruthful. */
  lemma FitsLater(s: Store, t: Store, d: Draft, mat: Materializer, r: Result, noOp: bool)
    requires Extends(s, t) && Fits(s, d, mat, r, noOp)
    ensures Fits(t, d, mat, r, noOp)
  {
    assert SameRow(s.generations[r.id - 1], t.generations[r.id - 1]);
  }

  lemma DraftLater(s: Store, t: Store, d: Draft, mat: Materializer)
    requires Extends(s, t) && DraftOk(s, d, mat)
    ensures DraftOk(t, d, mat)
  {
    if d.result.Some? {
      FitsLater(s, t, d, mat, d.result.value, d.noOp);
    }
  }

  /** What a successful apply answers is something the draft may be bound to. */
  lemma AnswerFits(s: Store, d: Draft, mat: Materializer, requester: Actor, candidate: Digest, a: Service.Answer)
    requires StoreOk(s) && mat(d.base, d.settings) == Some(candidate)
    requires Service.Names(s, OperationOf(d, requester, candidate), a)
    ensures Fits(s, d, mat, Result(OperationOf(d, requester, candidate), a.generation.id), a.noOp)
  {
    var op := OperationOf(d, requester, candidate);
    FindSound(s.generations, op);
    assert AppliedRowOk(s, a.generation.id - 1);
  }

  // ---------------------------------------------------------------- the guards of an apply

  function PreviewOf(s: Store, d: Draft, candidate: Digest): Preview
    requires Known(s, s.desired)
  {
    Preview(d.revision, d.baseId, d.base, candidate, d.origin, s.desired, Desired(s).digest, s.version)
  }

  /** The draft's effect, or an identical one, has already been accepted or committed. */
  predicate EffectSeen(s: Store, d: Draft, candidate: Digest)
    requires Known(s, s.desired)
  {
    || (Desired(s).digest == candidate && (candidate == d.base || ProvenanceMatches(Desired(s), d.origin)))
    || (var id := Incomplete(s.generations);
        id.Some? && Known(s, id.value)
        && Row(s, id.value).parent == d.baseId && Known(s, d.baseId) && Row(s, d.baseId).digest == d.base
        && Row(s, id.value).digest == candidate && ProvenanceMatches(Row(s, id.value), d.origin))
  }

  /** What Apply checks before it binds and applies anything: the candidate it goes on with. */
  function Admits(s: Store, d: Draft, mat: Materializer, baseReadable: bool, c: Command): Option<Digest>
    requires Known(s, s.desired)
  {
    if !d.state.Open? && !d.state.Applying? then None
    else if d.revision != c.revision || d.baseId != c.expectedId || d.base != c.expected then None
    else if d.state.Open? && (s.desired != c.expectedId || Desired(s).digest != c.expected) then None
    else if !Known(s, d.baseId) || Row(s, d.baseId).digest != d.base || !baseReadable then None
    else
      match mat(d.base, d.settings)
      case None => None
      case Some(candidate) =>
        if d.state.Applying? && Desired(s).digest != d.base && Desired(s).digest != candidate then None
        else
          var accepted := d.state.Applying? && d.preview == Some(c.preview) && EffectSeen(s, d, candidate);
          if PreviewOf(s, d, candidate) != c.preview && !accepted then None else Some(candidate)
  }

  /** The apply goes on for a draft that is open on the desired generation, or applying over its base or its own
      candidate, with a preview that still holds, or was applied and has its effect on record. */
  lemma AdmitsIff(s: Store, d: Draft, mat: Materializer, baseReadable: bool, c: Command, candidate: Digest)
    requires StoreOk(s)
    ensures Admits(s, d, mat, baseReadable, c) == Some(candidate) <==>
      && mat(d.base, d.settings) == Some(candidate) && baseReadable
      && 1 <= d.baseId <= |s.generations| && Row(s, d.baseId).digest == d.base
      && c.revision == d.revision && c.expectedId == d.baseId && c.expected == d.base
      && ((d.state.Open? && s.desired == d.baseId) || (d.state.Applying? && Desired(s).digest in {d.base, candidate}))
      && (|| c.preview == Preview(d.revision, d.baseId, d.base, candidate, d.origin, s.desired, Desired(s).digest,
                                  s.version)
          || (d.state.Applying? && d.preview == Some(c.preview) && OnRecord(s, d, candidate)))
  {
    IncompleteSound(s.generations);
    forall g | g in s.generations && Unsettled(g)
      ensures Incomplete(s.generations).Some? && g == Row(s, Incomplete(s.generations).value)
    {
      var i :| 0 <= i < |s.generations| && s.generations[i] == g;
      assert RowOk(s, i);
    }
  }

  /** What the draft asked for is desired, or an apply of just that over its base is unsettled. */
  predicate OnRecord(s: Store, d: Draft, candidate: Digest)
    requires Known(s, s.desired)
  {
    || (Desired(s).digest == candidate && (candidate == d.base || ProvenanceMatches(Desired(s), d.origin)))
    || (exists g :: g in s.generations && Unsettled(g) && g.parent == d.baseId && g.digest == candidate
                    && ProvenanceMatches(g, d.origin))
  }

  /** What bindIncompleteApply finds to bind an unfinished draft to. */
  function Unfinished(s: Store, d: Draft, candidate: Digest): Option<Binding>
    requires Known(s, s.desired)
  {
    var id := Incomplete(s.generations);
    if id.Some? && Known(s, id.value) && Row(s, id.value).operation.Some? && Row(s, id.value).digest == candidate then
      if !ProvenanceMatches(Row(s, id.value), d.origin) then None
      else
        var r := Result(Row(s, id.value).operation.value, id.value);
        Some(if Row(s, id.value).state == Ambiguous then Suspend(r) else Progress(r))
    else if Desired(s).parent == d.baseId && Desired(s).digest == candidate && Desired(s).operation.Some?
      && ProvenanceMatches(Desired(s), d.origin) then
      Some(Progress(Result(Desired(s).operation.value, s.desired)))
    else None
  }

  lemma UnfinishedFits(s: Store, d: Draft, mat: Materializer, candidate: Digest)
    requires StoreOk(s) && mat(d.base, d.settings) == Some(candidate)
    ensures Unfinished(s, d, candidate).Some? ==> BindingOk(s, d, mat, Unfinished(s, d, candidate).value)
  {
    if Unfinished(s, d, candidate).Some? {
      var b := Unfinished(s, d, candidate).value;
      assert AppliedRowOk(s, b.result.id - 1);
    }
  }

  /** What a failed apply leaves of its draft: bound to what the store has of it, or open again. */
  function AfterFailure(s: Store, d: Draft, revision: nat, preview: Preview, candidate: Digest): Draft
    requires Known(s, s.desired)
  {
    var found := Unfinished(s, d, candidate);
    var bound := Bind(d, revision, preview, if found.Some? then found.value else Reopen);
    if bound.Some? then bound.value else d
  }

  predicate FailedWith(s: Store, e: Draft, op: Operation) {
    && (OwnStands(s, op) ==>
          var id := FindOperation(s.generations, op).value;
          e.result == Some(Result(op, id)) && e.state == if Row(s, id).state == Ambiguous then Suspended else Applying)
    && (e.state.Open? ==> !OwnStands(s, op) && e.result.None? && e.preview.None?)
    && (e.state.Applying? ==> e.result.Some?)
  }

  /** A generation of the draft's own that stands is always found. */
  lemma OwnIsFound(s: Store, d: Draft, requester: Actor, candidate: Digest)
    requires StoreOk(s) && OwnStands(s, OperationOf(d, requester, candidate))
    ensures var op := OperationOf(d, requester, candidate);
      var own := Result(op, FindOperation(s.generations, op).value);
      Unfinished(s, d, candidate) == Some(if Row(s, own.id).state == Ambiguous then Suspend(own) else Progress(own))
  {
    hide Incomplete, FindOperation;
    OwnIsSeen(s, d, requester, candidate);
    var op := OperationOf(d, requester, candidate);
    var id := FindOperation(s.generations, op).value;
    FindSound(s.generations, op);
    IncompleteSound(s.generations);
    assert RowOk(s, id - 1) && RowOk(s, s.desired - 1) && AppliedRowOk(s, id - 1);
    if Incomplete(s.generations).Some? && Incomplete(s.generations).value != id {
      var other := Incomplete(s.generations).value;
      assert RowOk(s, other - 1) && AppliedRowOk(s, other - 1);
    }
  }

  /** After a failure the draft is bound to its own generation if that stands, and suspended exactly when
      the generation is. Open again, it is free of any preview, and nothing of its own is unsettled or
      desired. It is never left applying without a generation. */
  lemma FailureIsTruthful(s: Store, d: Draft, mat: Materializer, revision: nat, preview: Preview, requester: Actor,
    candidate: Digest)
    requires StoreOk(s) && DraftOk(s, d, mat) && mat(d.base, d.settings) == Some(candidate)
    requires d.state.Applying? && d.revision == revision && d.preview == Some(preview)
    requires BoundAtMostTo(d, OperationOf(d, requester, candidate))
    ensures FailedWith(s, AfterFailure(s, d, revision, preview, candidate), OperationOf(d, requester, candidate))
  {
    if OwnStands(s, OperationOf(d, requester, candidate)) {
      OwnIsFound(s, d, requester, candidate);
    }
  }

  // ---------------------------------------------------------------- replay after a crash

  function CommandOf(d: Draft, requester: Actor, candidate: Digest): Service.Command {
    Service.Command(requester, d.baseId, d.base, 0, candidate, ProvenanceOf(d.origin))
  }

  /** An apply of this command would succeed in a calm run. */
  predicate Appliable(s: Store, c: Service.Command)
    requires Known(s, s.desired)
  {
    Service.Replayable(s, c) || Service.Proposable(s, c)
  }

  predicate BoundAtMostTo(d: Draft, op: Operation) {
    d.result.Some? ==> d.result.value.operation == op
  }

  /** Everything that an apply of the draft checks is in order, and its command was accepted before or
      would be now. */
  predicate Completable(s: Store, raws: set<Digest>, d: Draft, mat: Materializer, c: Command)
    requires Known(s, s.desired)
  {
    && Service.Authorized(s, c.requester) && d.base in raws && d.preview == Some(c.preview)
    && Admits(s, d, mat, true, c).Some?
    && var candidate := Admits(s, d, mat, true, c).value;
       && BoundAtMostTo(d, OperationOf(d, c.requester, candidate))
       && Appliable(s, CommandOf(d, c.requester, candidate))
  }

  /** A draft bound at `bound` and found still applying in the later state `s`, in between which no
      generation but its own was applied. */
  ghost predicate Interrupted(bound: Store, s: Store, d: Draft, mat: Materializer, c: Command) {
    && StoreOk(bound) && StoreOk(s) && Extends(bound, s)
    && Incomplete(bound.generations).None?
    && d.state.Applying? && d.revision == c.revision && d.baseId == c.expectedId == bound.desired
      && d.base == c.expected == Desired(bound).digest
    && mat(d.base, d.settings).Some?
    && d.preview == Some(c.preview) && c.preview == PreviewOf(bound, d, mat(d.base, d.settings).value)
    && OnlyOwn(bound, s, OperationOf(d, c.requester, mat(d.base, d.settings).value))
  }

  /** Since `bound` no generation was made but by this operation. */
  ghost predicate OnlyOwn(bound: Store, s: Store, op: Operation) {
    forall i :: |bound.generations| <= i < |s.generations| ==> s.generations[i].operation == Some(op)
  }

  /** Nothing is unsettled, or the draft's own operation is known: no other apply is in its way. */
  predicate Undisturbed(s: Store, d: Draft, mat: Materializer, requester: Actor) {
    || Incomplete(s.generations).None?
    || (mat(d.base, d.settings).Some? && OperationOf(d, requester, mat(d.base, d.settings).value) in s.receipts)
  }

  lemma InterruptedIsUndisturbed(bound: Store, s: Store, d: Draft, mat: Materializer, c: Command)
    requires Interrupted(bound, s, d, mat, c)
    ensures Undisturbed(s, d, mat, c.requester)
  {
    BaseStillDesired(bound, s, d, mat, c);
    if Incomplete(s.generations).Some? {
      IncompleteSound(s.generations);
      FindSound(s.generations, OperationOf(d, c.requester, mat(d.base, d.settings).value));
      assert AppliedRowOk(s, Incomplete(s.generations).value - 1);
    }
  }

  /** Its own generation, unless it was withdrawn. */
  predicate OwnStands(s: Store, op: Operation) {
    var id := FindOperation(s.generations, op);
    id.Some? && Known(s, id.value) && LiveState(Row(s, id.value).state)
  }

  /** Without its own generation in force, the desired one is still the base. */
  lemma BaseStillDesired(bound: Store, s: Store, d: Draft, mat: Materializer, c: Command)
    requires Interrupted(bound, s, d, mat, c)
    ensures var op := OperationOf(d, c.requester, mat(d.base, d.settings).value);
      && Known(s, d.baseId) && Row(s, d.baseId).digest == d.base
      && (s.desired == bound.desired || (OwnStands(s, op) && FindOperation(s.generations, op) == Some(s.desired)))
      && (Incomplete(s.generations).Some? ==> Incomplete(s.generations) == FindOperation(s.generations, op))
  {
    hide FindOperation, Incomplete;
    var op := OperationOf(d, c.requester, mat(d.base, d.settings).value);
    IncompleteSound(bound.generations);
    IncompleteSound(s.generations);
    assert SameRow(bound.generations[bound.desired - 1], s.generations[bound.desired - 1]);
    assert RowOk(s, s.desired - 1);
    if s.desired > |bound.generations| {
      FindUnique(s, op, s.desired);
    } else {
      assert SameRow(bound.generations[s.desired - 1], s.generations[s.desired - 1]);
      assert RowOk(bound, s.desired - 1);
    }
    if Incomplete(s.generations).Some? {
      var id := Incomplete(s.generations).value;
      FindUnique(s, op, id);
    }
  }

  /** A standing generation of the draft's own operation is either unsettled or desired. */
  lemma OwnIsSeen(s: Store, d: Draft, requester: Actor, candidate: Digest)
    requires StoreOk(s) && OwnStands(s, OperationOf(d, requester, candidate))
    ensures var found := FindOperation(s.generations, OperationOf(d, requester, candidate));
      && found.Some? && Known(s, found.value)
    ensures var id := FindOperation(s.generations, OperationOf(d, requester, candidate)).value;
      && Row(s, id).parent == d.baseId && Row(s, id).digest == candidate != d.base
        && ProvenanceMatches(Row(s, id), d.origin)
      && (s.desired == id || Incomplete(s.generations) == Some(id))
  {
    var op := OperationOf(d, requester, candidate);
    FindSound(s.generations, op);
    var id := FindOperation(s.generations, op).value;
    assert RowOk(s, id - 1) && AppliedRowOk(s, id - 1);
  }

  lemma IncompleteStands(s: Store, op: Operation)
    requires StoreOk(s) && Incomplete(s.generations).Some?
             && Incomplete(s.generations) == FindOperation(s.generations, op)
    ensures OwnStands(s, op)
  {
    IncompleteSound(s.generations);
  }

  lemma EffectSeenIsOwn(bound: Store, s: Store, d: Draft, mat: Materializer, c: Command)
    requires Interrupted(bound, s, d, mat, c)
    ensures var candidate := mat(d.base, d.settings).value;
            var own := OwnStands(s, OperationOf(d, c.requester, candidate));
      && (EffectSeen(s, d, candidate) <==> candidate == d.base || own)
      && (own || (s.desired == bound.desired && Desired(s).digest == d.base))
      && (Desired(s).digest == d.base || Desired(s).digest == candidate)
  {
    hide StoreOk, Extends, OwnStands, ProvenanceMatches;
    var candidate := mat(d.base, d.settings).value;
    var op := OperationOf(d, c.requester, candidate);
    BaseStillDesired(bound, s, d, mat, c);
    if OwnStands(s, op) {
      OwnIsSeen(s, d, c.requester, candidate);
    } else if Incomplete(s.generations).Some? {
      IncompleteStands(s, op);
    }
  }

  /** Repeating the same apply goes on, with the same candidate, exactly when its own generation
      stands, or it changes nothing, or the authority version is the one that was previewed. */
  lemma ReplayAdmitted(bound: Store, s: Store, d: Draft, mat: Materializer, c: Command)
    requires Interrupted(bound, s, d, mat, c)
    ensures var candidate := mat(d.base, d.settings).value;
            Admits(s, d, mat, true, c) ==
              if candidate == d.base || s.version == bound.version
                || OwnStands(s, OperationOf(d, c.requester, candidate))
              then Some(candidate) else None
  {
    hide StoreOk, Extends, EffectSeen, OwnStands;
    EffectSeenIsOwn(bound, s, d, mat, c);
    BaseStillDesired(bound, s, d, mat, c);
  }

  /** An interrupted draft whose command would be taken can be completed by repeating its apply exactly
      when its own generation stands, or it changes nothing, or the previewed version still holds. */
  lemma CompletableIff(bound: Store, s: Store, raws: set<Digest>, d: Draft, mat: Materializer, c: Command)
    requires Interrupted(bound, s, d, mat, c) && Service.Authorized(s, c.requester) && d.base in raws
    requires var candidate := mat(d.base, d.settings).value;
      && BoundAtMostTo(d, OperationOf(d, c.requester, candidate))
      && Appliable(s, CommandOf(d, c.requester, candidate))
    ensures var candidate := mat(d.base, d.settings).value;
      Completable(s, raws, d, mat, c) <==>
        candidate == d.base || s.version == bound.version || OwnStands(s, OperationOf(d, c.requester, candidate))
  {
    ReplayAdmitted(bound, s, d, mat, c);
  }

  /** Nothing was accepted before the stop: the command is as good as new if the settings are valid and
      the store would take them. */
  lemma UnbegunIsAppliable(bound: Store, s: Store, d: Draft, mat: Materializer, c: Command)
    requires Interrupted(bound, s, d, mat, c) && Service.Authorized(s, c.requester)
    requires var candidate := mat(d.base, d.settings).value;
      && OperationOf(d, c.requester, candidate) !in s.receipts
      && Current(candidate) && candidate.size <= Service.MAXIMUM_BYTES && candidate.database == s.database
      && ValidProvenance(ProvenanceOf(d.origin))
      && RollbackSourceOk(s, ProvenanceOf(d.origin)) && candidate !in s.claims
    ensures Appliable(s, CommandOf(d, c.requester, mat(d.base, d.settings).value))
  {
    var op := OperationOf(d, c.requester, mat(d.base, d.settings).value);
    BaseStillDesired(bound, s, d, mat, c);
    UnknownIsUnmade(s, op);
  }

  /** A draft whose own generation stands can be completed by repeating its apply. */
  lemma InterruptedIsCompletable(bound: Store, s: Store, raws: set<Digest>, d: Draft, mat: Materializer, c: Command)
    requires Interrupted(bound, s, d, mat, c) && Service.Authorized(s, c.requester) && d.base in raws
    requires var candidate := mat(d.base, d.settings).value; var op := OperationOf(d, c.requester, candidate);
      && OwnStands(s, op) && BoundAtMostTo(d, op)
      && ValidProvenance(ProvenanceOf(d.origin)) && candidate.size <= Service.MAXIMUM_BYTES
    ensures Completable(s, raws, d, mat, c)
  {
    var candidate := mat(d.base, d.settings).value;
    var op := OperationOf(d, c.requester, candidate);
    ReplayAdmitted(bound, s, d, mat, c);
    FindSound(s.generations, op);
    assert AppliedRowOk(s, FindOperation(s.generations, op).value - 1);
  }

  /** A worker that starts up between the binding and the replay is enough to have it refused: the
      version moved although no generation was applied. */
  lemma ReplayRefused() returns (bound: Store, s: Store, d: Draft, mat: Materializer, c: Command)
    ensures Interrupted(bound, s, d, mat, c) && |s.generations| == |bound.generations|
    ensures ObserveEffective(bound, bound.desired, Desired(bound).digest) == Some(s)
    ensures Admits(s, d, mat, true, c).None?
  {
    var base, target := Payload(0, 1, true, CURRENT_SCHEMA, 7, 0), Payload(1, 1, true, CURRENT_SCHEMA, 7, 0);
    var row := Generation(1, 0, base, None, Normal, PendingRestart, true, false);
    bound := Store([row], map[], 1, 0, 1, {}, false, 0);
    s := bound.(generations := [row.(state := Effective, effectiveAt := true)], effective := 1, version := 2);
    mat := (b: Payload, settings: Settings) => Some(target);
    var preview := Preview(1, 1, base, target, Edited, 1, base, 1);
    d := Draft(1, base, 1, 0, Edited, Applying, Some(preview), None, false);
    c := Command(7, 1, 1, base, preview);
    assert bound.generations[0 := s.generations[0]] == s.generations;
    assert RowOk(bound, 0) && AppliedRowOk(bound, 0);
    ObserveEffectiveKeeps(bound, 1, base);
  }

  /** Once an apply has answered, only a binding to some other operation keeps the draft open. */
  lemma AnswerBinds(d: Draft, revision: nat, preview: Preview, r: Result, noOp: bool)
    requires d.state.Applying? && d.revision == revision && d.preview == Some(preview)
    ensures Bind(d, revision, preview, Finish(r, noOp)).None? <==>
      d.result.Some? && d.result.value.operation != r.operation
    ensures Bind(d, revision, preview, Finish(r, noOp)).Some? ==>
      var e := Bind(d, revision, preview, Finish(r, noOp)).value;
      e.state.Applied? && e.result == Some(r) && e.noOp == noOp
        && Bind(e, revision, preview, Finish(r, noOp)) == Some(e) && Bind(e, revision, preview, Reopen).None?
  {
  }

  // ---------------------------------------------------------------- the service

  class DraftService {
    const controller: Service.Controller
    const materialize: Materializer
    var draft: Draft

    ghost predicate Valid()
      reads this, controller
    {
      controller.Valid() && DraftOk(controller.store, draft, materialize)
    }

    /** OpenConfigurationDraft: a new draft of the desired generation. */
    constructor (controller: Service.Controller, materialize: Materializer, settings: Settings, origin: Origin)
      requires controller.Valid()
      ensures this.controller == controller && this.materialize == materialize && Valid()
      ensures draft.state.Open? && draft.baseId == controller.store.desired
              && draft.base == Desired(controller.store).digest
    {
      this.controller, this.materialize := controller, materialize;
      draft := Draft(controller.store.desired, Desired(controller.store).digest, 1, settings, origin, Open, None, None,
        false);
    }

    /** The same draft, as a later process finds it. */
    constructor Resumed(earlier: DraftService, controller: Service.Controller)
      requires earlier.Valid() && controller.Valid() && controller.store == earlier.controller.store
      ensures Valid() && this.controller == controller && materialize == earlier.materialize && draft == earlier.draft
    {
      this.controller, materialize, draft := controller, earlier.materialize, earlier.draft;
    }

    /** One binding transaction. */
    method Store(revision: nat, preview: Preview, b: Binding) returns (ok: bool)
      requires Valid() && BindingOk(controller.store, draft, materialize, b)
      modifies this`draft
      ensures Valid()
      ensures ok == Bind(old(draft), revision, preview, b).Some?
      ensures draft == if ok then Bind(old(draft), revision, preview, b).value else old(draft)
      ensures SameDraft(old(draft), draft)
    {
      var bound := Bind(draft, revision, preview, b);
      if bound.Some? {
        BindKeeps(controller.store, draft, materialize, revision, preview, b);
        draft := bound.value;
      }
      return bound.Some?;
    }

    /** What other callers do to the authority and to this very draft: edits, previews, discarding
        and, in applies of their own, bindings carrying the same evidence as the ones here. */
    method Interfere()
      requires Valid()
      modifies this`draft, controller
      ensures controller.calm ==>
        && draft == old(draft) && controller.store == old(controller.store) && controller.live == old(controller.live)
        && controller.stage == old(controller.stage) && controller.raws == old(controller.raws)
      ensures Valid() && Extends(old(controller.store), controller.store) && SameDraft(old(draft), draft)
    {
      var steps: nat := *;
      if controller.calm {
        steps := 0;
      }
      while steps > 0
        invariant controller.calm ==>
          && steps <= 0 && draft == old(draft) && controller.store == old(controller.store)
          && controller.live == old(controller.live) && controller.stage == old(controller.stage)
          && controller.raws == old(controller.raws)
        invariant Valid() && Extends(old(controller.store), controller.store) && SameDraft(old(draft), draft)
      {
        hide StoreOk;
        ghost var before := controller.store;
        controller.Interfere();
        ExtendsTransitive(old(controller.store), before, controller.store);
        DraftLater(before, controller.store, draft, materialize);
        OtherCaller();
        steps := steps - 1;
      }
    }

    method OtherCaller()
      requires Valid()
      modifies this`draft
      ensures Valid() && SameDraft(old(draft), draft)
    {
      if
      case draft.state.Open? =>
        var settings: Settings := *;
        draft := draft.(settings := settings, revision := draft.revision + 1, preview := None);
      case draft.state.Open? =>
        var candidate := materialize(draft.base, draft.settings);
        if candidate.Some? {
          draft := draft.(preview := Some(PreviewOf(controller.store, draft, candidate.value)));
        }
      case draft.state.Open? => draft := draft.(state := Discarded);
      case true =>
        var revision, preview, b := *, *, *;
        if BindingOk(controller.store, draft, materialize, b) {
          var _ := Store(revision, preview, b);
        }
    }

    /** Apply: bind the draft, apply its candidate, and record the generation that came of it. */
    method Apply(c: Command) returns (r: Reply<Service.Answer, DraftError>)
      requires Valid()
      modifies this`draft, controller
      ensures Valid() && Extends(old(controller.store), controller.store) && SameDraft(old(draft), draft)
      ensures r.Ok? ==>
        draft.state.Applied? && draft.result.value.id == r.value.generation.id && draft.noOp == r.value.noOp
      // In a calm run it completes whatever an interrupted apply left behind, and while no other apply is
      // in its way it completes nothing else.
      ensures controller.calm && old(controller.Intact()) ==>
        old(Completable(controller.store, controller.raws, draft, materialize, c)) ==> r.Ok?
      ensures controller.calm && old(controller.Intact()) && !old(draft).state.Applied?
              && old(Undisturbed(controller.store, draft, materialize, c.requester)) ==>
        (r.Ok? <==> old(Completable(controller.store, controller.raws, draft, materialize, c)))
      // What was applied is answered to whoever repeats the command that applied it.
      ensures old(draft).state.Applied? ==>
        (r.Ok? <==>
          && old(Service.Authorized(controller.store, c.requester))
          && old(draft).revision == c.revision && old(draft).preview == Some(c.preview))
      // A failed one leaves the draft bound to what there is of its own generation, and suspended with it; or
      // else open again. It never leaves it applying without one.
      ensures r.Err? && r.error.ApplyFailed? && draft.revision == c.revision && draft.state.Applying?
              && draft.preview == Some(c.preview) ==>
        draft.result.Some?
      ensures controller.calm && r.Err? && r.error.ApplyFailed? && old(draft).preview == Some(c.preview)
              && BoundAtMostTo(old(draft), OperationOf(old(draft), c.requester, c.preview.candidate))
              && old(Admits(controller.store, draft, materialize, true, c)) == Some(c.preview.candidate) ==>
        FailedWith(controller.store, draft, OperationOf(old(draft), c.requester, c.preview.candidate))
      // What the guards refuse does not succeed, and changes nothing.
      ensures !old(draft).state.Applied? && old(Admits(controller.store, draft, materialize, true, c)).None? ==>
        r.Err? && draft == old(draft) && controller.store == old(controller.store)
      // With an answer in hand it fails only on a draft that moved on or is bound elsewhere.
      ensures r == Err(NeedsReplay) ==>
        || !draft.state.Applying? || draft.revision != c.revision || draft.preview != Some(c.preview)
        || draft.result.Some?
    {
      hide StoreOk, Service.Names, AfterFailure;
      if !Service.Authorized(controller.store, c.requester) {
        return Err(Blocked(Service.Hidden));
      }
      if draft.state.Applied? {
        r := AppliedReplay(c);
        return;
      }
      var unreadable := Fails(controller.calm);
      var readable := draft.base in controller.raws && !unreadable;
      var candidate := Admits(controller.store, draft, materialize, readable, c);
      if candidate.None? {
        return Err(Blocked(Service.Conflict));
      }
      ghost var seen := draft;
      r := ApplyCandidate(c, draft, candidate.value);
      if controller.calm && r.Err? && r.error.ApplyFailed? && seen.preview == Some(c.preview)
         && BoundAtMostTo(seen, OperationOf(seen, c.requester, candidate.value)) {
        ghost var bound := if seen.state.Open? then Bind(seen, seen.revision, c.preview, Start).value else seen;
        BindKeeps(controller.store, seen, materialize, seen.revision, c.preview, Start);
        FailureIsTruthful(controller.store, bound, materialize, c.revision, c.preview, c.requester, candidate.value);
      }
    }

    method ApplyCandidate(c: Command, seen: Draft, candidate: Digest) returns (r: Reply<Service.Answer, DraftError>)
      requires Valid() && seen == draft && (draft.state.Open? || draft.state.Applying?)
      requires seen.revision == c.revision && seen.baseId == c.expectedId && seen.base == c.expected
      requires materialize(seen.base, seen.settings) == Some(candidate)
      modifies this`draft, controller
      ensures Valid() && Extends(old(controller.store), controller.store)
      ensures r.Ok? ==>
        draft.state.Applied? && draft.result.value.id == r.value.generation.id && draft.noOp == r.value.noOp
      ensures SameDraft(old(draft), draft)
      ensures controller.calm && old(controller.Intact()) && seen.preview == Some(c.preview) ==>
        BoundAtMostTo(seen, OperationOf(seen, c.requester, candidate))
        && Appliable(old(controller.store), CommandOf(seen, c.requester, candidate)) ==>
          r.Ok?
      ensures r.Err? && r.error.ApplyFailed? && draft.revision == seen.revision && draft.state.Applying?
              && draft.preview == Some(c.preview) ==>
        draft.result.Some?
      ensures controller.calm && r.Err? && r.error.ApplyFailed? ==>
        var bound := Bind(seen, seen.revision, c.preview, Start);
        && (seen.state.Open? ==> bound.Some?)
        && draft == AfterFailure(controller.store, if seen.state.Open? then bound.value else seen, c.revision,
             c.preview, candidate)
      ensures controller.calm && r.Ok? ==>
        seen.preview == Some(c.preview) && BoundAtMostTo(seen, OperationOf(seen, c.requester, candidate))
      ensures controller.calm && r.Ok? && old(Undisturbed(controller.store, draft, materialize, c.requester)) ==>
        Appliable(old(controller.store), CommandOf(seen, c.requester, candidate))
      ensures r == Err(NeedsReplay) ==>
        || !draft.state.Applying? || draft.revision != c.revision || draft.preview != Some(c.preview)
        || draft.result.Some?
    {
      hide DraftOk, Appliable;
      hide StoreOk, Service.Names;
      Interfere();
      var started := true;
      if seen.state.Open? {
        started := Store(seen.revision, c.preview, Start);
      }
      if !started {
        return Err(Blocked(Service.Conflict));
      }
      ghost var bound := controller.store;
      var applied := Submit(CommandOf(seen, c.requester, candidate), seen, c.preview);
      ghost var submitted := controller.store;
      ExtendsTransitive(old(controller.store), bound, submitted);
      r := Conclude(c, seen, candidate, applied);
      ExtendsTransitive(old(controller.store), submitted, controller.store);
    }

    /** Nothing is applied for a draft that was open before it is bound. */
    method Submit(c: Service.Command, seen: Draft, ghost preview: Preview)
      returns (applied: Reply<Service.Answer, Service.Error>)
      requires Valid() && c.expectedVersion == 0
      requires seen.state.Open? ==>
        draft.state.Applying? && draft.preview == Some(preview) && draft.revision == seen.revision
      modifies controller
      ensures Valid() && Extends(old(controller.store), controller.store)
      ensures controller.calm && old(controller.Intact()) && Appliable(old(controller.store), c) ==> applied.Ok?
      ensures controller.calm && applied.Ok?
              && (Incomplete(old(controller.store).generations).None?
                || Service.OperationOf(c) in old(controller.store).receipts) ==>
        Appliable(old(controller.store), c)
      ensures applied.Ok? ==> Service.Names(controller.store, Service.OperationOf(c), applied.value)
    {
      var observer: Service.Observer := *;
      if controller.Intact() && Incomplete(controller.store.generations).None? {
        Service.SettledLive(controller.store, controller.live, controller.stage);
      }
      Service.NoticedIsProposable(controller.store, controller.live, observer, c);
      applied := controller.Apply(c, observer);
      DraftLater(old(controller.store), controller.store, draft, materialize);
    }

    /** Records how the apply came out. */
    method Conclude(c: Command, seen: Draft, candidate: Digest, applied: Reply<Service.Answer, Service.Error>)
      returns (r: Reply<Service.Answer, DraftError>)
      requires Valid()
      requires materialize(seen.base, seen.settings) == Some(candidate) && seen.revision == c.revision
      requires SameDraft(seen, draft)
      requires applied.Ok? ==> Service.Names(controller.store, OperationOf(seen, c.requester, candidate), applied.value)
      modifies this`draft, controller
      ensures Valid() && Extends(old(controller.store), controller.store) && SameDraft(old(draft), draft)
      ensures r.Ok? ==> applied.Ok?
      // A failure is passed on and put on record, whatever others did to the draft meanwhile.
      ensures applied.Err? && !r.Stopped? ==> r == Err(ApplyFailed(applied.error))
      ensures r.Err? && r.error.ApplyFailed? ==> applied.Err?
      ensures r.Err? && r.error.ApplyFailed? && draft.revision == seen.revision && draft.state.Applying?
              && draft.preview == Some(c.preview) ==>
        draft.result.Some?
      ensures controller.calm && applied.Err? && old(draft).revision == seen.revision ==>
        draft == AfterFailure(controller.store, old(draft), c.revision, c.preview, candidate)
      ensures controller.calm ==> controller.store == old(controller.store) && (r.Stopped? <==> applied.Stopped?)
      ensures controller.calm && r.Ok? && old(draft).state.Applying? ==>
        && old(draft).preview == Some(c.preview)
        && BoundAtMostTo(old(draft), OperationOf(seen, c.requester, candidate))
      ensures controller.calm && r.Ok? && !old(draft).state.Applying? ==> old(draft).state.Applied?
      ensures r.Ok? ==>
        draft.state.Applied? && draft.result.value.id == r.value.generation.id && draft.noOp == r.value.noOp
      ensures controller.calm && applied.Ok? && BoundAtMostTo(old(draft), OperationOf(seen, c.requester, candidate)) ==>
        old(draft).state.Applying? && old(draft).revision == c.revision && old(draft).preview == Some(c.preview) ==>
          r.Ok?
      ensures r == Err(NeedsReplay) ==>
        || !draft.state.Applying? || draft.revision != c.revision || draft.preview != Some(c.preview)
        || draft.result.Some?
    {
      hide StoreOk, Service.Names;
      var stopped := Fails(controller.calm);
      if applied.Stopped? || stopped {
        return Stopped;
      }
      if applied.Err? {
        r := Fail(c, seen, candidate, applied.error);
      } else {
        r := Finish(c, seen, candidate, applied.value);
      }
    }

    /** The apply failed: the draft is bound to what there is of it, or opened again. */
    method Fail(c: Command, seen: Draft, candidate: Digest, error: Service.Error)
      returns (r: Reply<Service.Answer, DraftError>)
      requires Valid() && materialize(seen.base, seen.settings) == Some(candidate) && seen.revision == c.revision
      requires SameDraft(seen, draft)
      modifies this`draft, controller
      ensures Valid() && Extends(old(controller.store), controller.store) && SameDraft(old(draft), draft)
      ensures r == Err(ApplyFailed(error))
      ensures draft.revision == seen.revision && draft.state.Applying? && draft.preview == Some(c.preview) ==>
        draft.result.Some?
      ensures controller.calm ==> controller.store == old(controller.store)
      ensures controller.calm && old(draft).revision == seen.revision ==>
        draft == AfterFailure(controller.store, old(draft), c.revision, c.preview, candidate)
    {
      hide StoreOk, DraftOk, Extends;
      Interfere();
      if draft.revision == seen.revision {
        RecordFailure(c, candidate);
      }
      return Err(ApplyFailed(error));
    }

    /** The apply succeeded: the draft is bound to its generation for good. */
    method Finish(c: Command, seen: Draft, candidate: Digest, a: Service.Answer)
      returns (r: Reply<Service.Answer, DraftError>)
      requires Valid() && materialize(seen.base, seen.settings) == Some(candidate) && seen.revision == c.revision
      requires SameDraft(seen, draft)
      requires Service.Names(controller.store, OperationOf(seen, c.requester, candidate), a)
      modifies this`draft, controller
      ensures Valid() && Extends(old(controller.store), controller.store) && SameDraft(old(draft), draft)
      ensures r == Ok(a) || r == Err(NeedsReplay)
      ensures r.Ok? ==> draft.state.Applied? && draft.result.value.id == a.generation.id && draft.noOp == a.noOp
      ensures controller.calm ==> controller.store == old(controller.store)
      ensures controller.calm && r.Ok? && old(draft).state.Applying? ==>
        && old(draft).preview == Some(c.preview)
        && BoundAtMostTo(old(draft), OperationOf(seen, c.requester, candidate))
      ensures controller.calm && r.Ok? && !old(draft).state.Applying? ==> old(draft).state.Applied?
      ensures controller.calm && BoundAtMostTo(old(draft), OperationOf(seen, c.requester, candidate)) ==>
        old(draft).state.Applying? && old(draft).revision == c.revision && old(draft).preview == Some(c.preview) ==>
          r.Ok?
      ensures r == Err(NeedsReplay) ==>
        || !draft.state.Applying? || draft.revision != c.revision || draft.preview != Some(c.preview)
        || draft.result.Some?
    {
      hide StoreOk, Service.Names, Extends;
      ghost var before := controller.store;
      Interfere();
      if draft.revision != seen.revision {
        return Err(NeedsReplay);
      }
      Service.NamesLater(before, controller.store, OperationOf(seen, c.requester, candidate), a);
      var result := Result(OperationOf(seen, c.requester, candidate), a.generation.id);
      AnswerFits(controller.store, draft, materialize, c.requester, candidate, a);
      var settled := Store(c.revision, c.preview, Binding.Finish(result, a.noOp));
      return if settled then Ok(a) else Err(NeedsReplay);
    }

    /** bindIncompleteApply, or back to open when nothing of the apply is left. */
    method RecordFailure(c: Command, candidate: Digest)
      requires Valid() && materialize(draft.base, draft.settings) == Some(candidate)
      modifies this`draft
      ensures Valid() && SameDraft(old(draft), draft)
      ensures draft == AfterFailure(controller.store, old(draft), c.revision, c.preview, candidate)
    {
      var unfinished := Unfinished(controller.store, draft, candidate);
      UnfinishedFits(controller.store, draft, materialize, candidate);
      var _ := Store(c.revision, c.preview, if unfinished.Some? then unfinished.value else Reopen);
    }

    /** appliedReplay. */
    method AppliedReplay(c: Command) returns (r: Reply<Service.Answer, DraftError>)
      requires Valid() && draft.state.Applied?
      ensures r.Ok? <==> draft.revision == c.revision && draft.preview == Some(c.preview)
      ensures r.Ok? ==> draft.result.value.id == r.value.generation.id && draft.noOp == r.value.noOp
      ensures r.Ok? ==> materialize(draft.base, draft.settings) == Some(r.value.generation.digest)
      ensures !r.Stopped? && r != Err(NeedsReplay)
    {
      if draft.revision != c.revision || draft.preview != Some(c.preview) {
        return Err(Blocked(Service.Conflict));
      }
      var op := draft.result.value.operation;
      if op !in controller.store.receipts {
        return Err(Blocked(Service.Conflict));
      }
      assert RowOk(controller.store, draft.result.value.id - 1);
      return Ok(Service.Answer(Row(controller.store, draft.result.value.id), controller.store.receipts[op],
        draft.noOp));
    }
  }

  /** Recovery: one apply of a draft, stopped and interfered with anywhere, and then a calm one of the
      same command. The second succeeds exactly when what the first left is completable, or is applied
      already. Left applying, with no generation made since but its own, it is an interrupted draft. */
  method ApplyAfter(earlier: DraftService, c: Command)
    returns (recovered: DraftService, r: Reply<Service.Answer, DraftError>)
    requires earlier.Valid()
    modifies earlier, earlier.controller
    ensures earlier.Valid() && recovered.Valid()
    ensures Extends(old(earlier.controller.store), earlier.controller.store)
    ensures Extends(earlier.controller.store, recovered.controller.store)
    ensures earlier.controller.Intact() && !earlier.draft.state.Applied?
            && Undisturbed(earlier.controller.store, earlier.draft, earlier.materialize, c.requester) ==>
      (r.Ok? <==> Completable(earlier.controller.store, earlier.controller.raws, earlier.draft, earlier.materialize, c))
    ensures earlier.draft.state.Applied? ==>
      (r.Ok? <==>
        && Service.Authorized(earlier.controller.store, c.requester)
        && earlier.draft.revision == c.revision && earlier.draft.preview == Some(c.preview))
    ensures old(earlier.draft.state.Open?) && Incomplete(old(earlier.controller.store).generations).None?
            && old(Admits(earlier.controller.store, earlier.draft, earlier.materialize, true, c)).Some?
            && earlier.draft.state.Applying? && earlier.draft.revision == c.revision
            && earlier.draft.preview == Some(c.preview)
            && OnlyOwn(old(earlier.controller.store), earlier.controller.store,
                 OperationOf(earlier.draft, c.requester, c.preview.candidate)) ==>
      Interrupted(old(earlier.controller.store), earlier.controller.store, earlier.draft, earlier.materialize, c)
  {
    hide StoreOk, Extends, DraftOk;
    var _ := earlier.Apply(c);
    var controller := new Service.Controller.Resumed(earlier.controller, true);
    recovered := new DraftService.Resumed(earlier, controller);
    r := recovered.Apply(c);
  }
}
