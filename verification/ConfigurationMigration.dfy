/** Inline schema migration: its own replay path beside the ordinary apply
    (internal/application/configuration_migration.go). */
module ConfigurationMigration {
  import opened Outcomes
  import opened ConfigurationStore
  import opened Texts
  import Service = ConfigurationService

  datatype Command = Command(requester: Actor, requestId: string, preview: MigrationPreview)

  datatype Materialization = Materialization(payload: Payload, sourceSchema: nat, preserved: bool)

  /** MaterializeLegacyMigration, which validates what it makes against the current schema. */
  type Document = Payload -> Option<Materialization>

  ghost predicate MakesCurrent(document: Document) {
    forall p :: document(p).Some? ==> Current(document(p).value.payload)
  }

  /** A complete command. The digests it carries stand for the parts they were computed from, so one
      preview holds them all. */
  predicate WellFormed(c: Command) {
    && ValidRequestId(c.requestId)
    && c.preview.expectedId >= 1 && c.preview.version >= 1
    && 2 <= c.preview.sourceSchema <= 4
    && c.preview.targetSchema == CURRENT_SCHEMA
  }

  /** It asks for one of the three older schemas to become the current one, of a named generation at a named
      version, under a request id that is printable once trimmed. */
  lemma CompleteIff(c: Command)
    ensures WellFormed(c) <==>
      && c.preview.sourceSchema in {2, 3, 4} && c.preview.targetSchema == 5
      && c.preview.expectedId != 0 && c.preview.version != 0
      && 1 <= |Trim(c.requestId)| <= 128 && forall x :: x in Trim(c.requestId) ==> '!' <= x <= '~'
  {
  }

  /** configurationMigrationReplayPreview: what a preview must say for the replay path to accept it. */
  predicate Preserves(c: Command) {
    c.preview.preserved
  }

  /** configurationMigrationApplyCommand. */
  function ApplyCommand(c: Command, payload: Payload): Service.Command {
    Service.Command(c.requester, c.preview.expectedId, c.preview.expected, c.preview.version, payload,
                    SchemaMigration(c.requestId, c.preview))
  }

  function OperationOf(c: Command): Operation {
    Service.OperationOf(ApplyCommand(c, c.preview.candidate))
  }

  /** What a migration answers: the one generation its command stands for, made from the previewed
      source, in the target schema, under this migration's provenance. */
  ghost predicate Migrated(s: Store, c: Command, a: Service.Answer) {
    && Service.Names(s, OperationOf(c), a)
    && !a.noOp
    && a.generation.parent == c.preview.expectedId
    && a.generation.digest == c.preview.candidate
    && a.generation.digest.schema == CURRENT_SCHEMA
    && a.generation.provenance == SchemaMigration(c.requestId, c.preview)
    && Known(s, c.preview.expectedId)
    && Row(s, c.preview.expectedId).digest == c.preview.expected
    && c.preview.expected.schema == c.preview.sourceSchema
  }

  lemma MigratedLater(s: Store, t: Store, c: Command, a: Service.Answer)
    requires StoreOk(s) && StoreOk(t) && Extends(s, t) && Migrated(s, c, a)
    ensures Migrated(t, c, a)
  {
    Service.NamesLater(s, t, OperationOf(c), a);
    assert SameRow(s.generations[c.preview.expectedId - 1], t.generations[c.preview.expectedId - 1]);
  }

  /** An answer to the apply of a migration is the migration's. */
  lemma ApplyMigrates(s: Store, c: Command, a: Service.Answer)
    requires StoreOk(s) && Service.Names(s, OperationOf(c), a)
    requires c.preview.expected.schema == c.preview.sourceSchema != CURRENT_SCHEMA
    requires c.preview.candidate.schema == CURRENT_SCHEMA
    ensures Migrated(s, c, a)
  {
    FindSound(s.generations, OperationOf(c));
    assert AppliedRowOk(s, a.generation.id - 1);
  }

  /** The same migration answered twice is the same generation. */
  lemma MigrationsAgree(s: Store, t: Store, c: Command, a: Service.Answer, b: Service.Answer)
    requires StoreOk(s) && StoreOk(t) && Extends(s, t) && Migrated(s, c, a) && Migrated(t, c, b)
    ensures a.generation.id == b.generation.id
  {
    Service.RetriesAgree(s, t, OperationOf(c), a, b);
  }

  /** Commands that differ in any previewed part, requester or request id make different generations. */
  lemma MigrationsDiffer(s: Store, c: Command, d: Command, a: Service.Answer, b: Service.Answer)
    requires StoreOk(s) && Migrated(s, c, a) && Migrated(s, d, b) && c != d
    ensures a.generation.id != b.generation.id
  {
    FindSound(s.generations, OperationOf(c));
    FindSound(s.generations, OperationOf(d));
  }

  /** Some earlier attempt of this migration was accepted, and its requester may still ask for it. */
  predicate Retriable(s: Store, c: Command)
    requires Known(s, s.desired)
  {
    && WellFormed(c) && Preserves(c)
    && c.preview.expected.schema == c.preview.sourceSchema && c.preview.candidate.schema == CURRENT_SCHEMA
    && Service.Replayable(s, ApplyCommand(c, c.preview.candidate))
  }

  lemma RetriableEvidence(s: Store, raws: set<Digest>, c: Command)
    requires StoreOk(s) && Service.RawsOk(s, raws) && Retriable(s, c)
    ensures var replay := Service.Replay(s, OperationOf(c));
      && replay.Some? && Evidence(s, c, replay.value.generation)
      && (replay.value.receipt.Pending? ==>
        replay.value.generation.rawRetained && replay.value.generation.digest in raws)
  {
    var op := OperationOf(c);
    Service.ReplayNames(s, op);
    FindSound(s.generations, op);
    var id := Service.Replay(s, op).value.generation.id;
    assert RowOk(s, id - 1) && AppliedRowOk(s, id - 1);
    assert s.generations[id - 1] in s.generations;
  }

  /** A new migration that meets every condition: the document makes the previewed candidate of the
      previewed source, the read-only gate admits, and the store would take the apply. */
  predicate Fresh(s: Store, live: Payload, raws: set<Digest>, document: Document, c: Command,
    runtime: Option<Service.Runtime>)
    requires Known(s, s.desired)
  {
    && WellFormed(c) && Preserves(c)
    && c.preview.expected.schema == c.preview.sourceSchema
    && document(c.preview.expected) == Some(Materialization(c.preview.candidate, c.preview.sourceSchema, true))
    && Service.AdmitsReadOnly(s, live, raws, runtime).Admitted?
    && Service.Proposable(s, ApplyCommand(c, c.preview.candidate))
  }

  /** What a refused new migration may be answered. */
  function Refusals(s: Store, c: Command): set<Service.Error>
    requires Known(s, s.desired)
  {
    if !WellFormed(c) then {Service.InvalidInput}
    else if !Preserves(c) then {Service.Conflict}
    else if !Service.Authorized(s, c.requester) then {Service.Hidden}
    else if c.preview.candidate.size > Service.MAXIMUM_BYTES then {Service.InvalidInput, Service.Conflict}
    else {Service.Conflict}
  }

  /** The replayed generation is this migration's, of the previewed source. */
  predicate Evidence(s: Store, c: Command, g: Generation) {
    && Known(s, c.preview.expectedId)
    && Row(s, c.preview.expectedId).digest == c.preview.expected
    && c.preview.expected.schema == c.preview.sourceSchema
    && g.parent == c.preview.expectedId
    && g.digest == c.preview.candidate && g.digest.schema == CURRENT_SCHEMA
    && g.provenance.SchemaMigration?
  }

  class MigrationService {
    const controller: Service.Controller
    const document: Document

    ghost predicate Valid()
      reads controller
    {
      controller.Valid() && MakesCurrent(document)
    }

    constructor (controller: Service.Controller, document: Document)
      requires controller.Valid() && MakesCurrent(document)
      ensures this.controller == controller && this.document == document && Valid()
    {
      this.controller, this.document := controller, document;
    }

    /** exactReplay. None: the command was never accepted. */
    method ExactReplay(c: Command) returns (done: Option<Reply<Service.Answer, Service.Error>>)
      requires Valid() && WellFormed(c)
      modifies controller
      ensures Valid() && Extends(old(controller.store), controller.store)
      ensures done.Some? && done.value.Ok? ==> Migrated(controller.store, c, done.value.value)
      ensures controller.calm && old(controller.Intact()) && Retriable(old(controller.store), c) ==>
        done.Some? && done.value.Ok? && done.value.value.receipt.Observed?
      ensures OperationOf(c) !in old(controller.store).receipts ==>
        if Preserves(c) then done.None? else done == Some(Err(Service.Conflict))
      ensures done.None? ==> OperationOf(c) !in controller.store.receipts && Preserves(c)
      ensures done.None? ==> controller.store == old(controller.store) && controller.live == old(controller.live)
      ensures done.None? ==> controller.raws == old(controller.raws)
    {
      hide StoreOk, Extends;
      ExtendsReflexive(controller.store);
      if !Preserves(c) {
        return Some(Err(Service.Conflict));
      }
      var op := OperationOf(c);
      if Retriable(controller.store, c) {
        RetriableEvidence(controller.store, controller.raws, c);
      }
      var replay := Service.Replay(controller.store, op);
      Service.ReplayNames(controller.store, op);
      if replay.None? {
        return None;
      }
      if !Evidence(controller.store, c, replay.value.generation) {
        return Some(Err(Service.Conflict));
      }
      ApplyMigrates(controller.store, c, replay.value);
      var r := Resume(c, replay.value);
      return Some(r);
    }

    /** A replay that is still only accepted is applied again, from the retained target bytes. */
    method Resume(c: Command, replay: Service.Answer) returns (r: Reply<Service.Answer, Service.Error>)
      requires Valid() && WellFormed(c) && Migrated(controller.store, c, replay)
      modifies controller
      ensures Valid() && Extends(old(controller.store), controller.store)
      ensures controller.calm && old(controller.Intact()) && Retriable(old(controller.store), c)
              && Some(replay) == Service.Replay(old(controller.store), OperationOf(c)) ==>
        r.Ok? && r.value.receipt.Observed?
      ensures r.Ok? ==> Migrated(controller.store, c, r.value)
      // Without the retained bytes it is refused, with nothing done.
      ensures replay.receipt.Pending?
              && (!replay.generation.rawRetained || replay.generation.digest !in old(controller.raws)) ==>
        r == Err(Service.Conflict) && controller.store == old(controller.store)
    {
      hide StoreOk, Extends, Migrated;
      ExtendsReflexive(controller.store);
      if !replay.receipt.Pending? {
        return Ok(replay);
      }
      if Retriable(controller.store, c) {
        RetriableEvidence(controller.store, controller.raws, c);
      }
      MigratedParts(controller.store, c, replay);
      if !replay.generation.rawRetained || replay.generation.digest !in controller.raws {
        return Err(Service.Conflict);
      }
      var observer: Service.Observer := *;
      var applied :- controller.Apply(ApplyCommand(c, replay.generation.digest), observer);
      MigratedLater(old(controller.store), controller.store, c, replay);
      ApplyMigrates(controller.store, c, applied);
      return Ok(applied);
    }

    /** Apply. The worker is observed by its own check and once more by the configuration apply. */
    method Apply(c: Command, observer: Service.Observer, again: Service.Observer)
      returns (r: Reply<Service.Answer, Service.Error>)
      requires Valid() && (observer.Unwired? <==> again.Unwired?)
      modifies controller
      ensures Valid() && Extends(old(controller.store), controller.store)
      // In a calm run a retry of an accepted migration completes it.
      ensures controller.calm && old(controller.Intact()) && Retriable(old(controller.store), c) ==>
        r.Ok? && r.value.receipt.Observed?
      // A new one succeeds exactly when it meets every condition and no drift is on record, which the
      // apply would clear and thereby leave the previewed version behind.
      ensures controller.calm && Service.IsNew(old(controller.store), ApplyCommand(c, c.preview.candidate)) ==>
        (r.Ok? <==>
          && Fresh(old(controller.store), old(controller.live), old(controller.raws), document, c, observer.Report())
          && !old(controller.store).drifted)
      ensures controller.calm && Service.IsNew(old(controller.store), ApplyCommand(c, c.preview.candidate)) ==>
        if r.Ok? then Service.AnswersDesired(controller.store, OperationOf(c), r.value)
        else r.Err? && r.error in Refusals(old(controller.store), c)
      ensures r.Ok? ==> Migrated(controller.store, c, r.value)
      ensures !WellFormed(c) ==> r == Err(Service.InvalidInput) && controller.store == old(controller.store)
    {
      hide StoreOk, Extends, Migrated;
      ExtendsReflexive(controller.store);
      if !WellFormed(c) {
        return Err(Service.InvalidInput);
      }
      var done := ExactReplay(c);
      if done.Some? {
        return done.value;
      }
      controller.Interfere();
      ghost var interfered := controller.store;
      var checked := Checked(c, observer.Report());
      if checked.Some? {
        return Err(checked.value);
      }
      Service.ReadOnlyGateSound(controller.store, controller.live, controller.raws, observer.Report());
      r := Submit(c, again);
      ExtendsTransitive(old(controller.store), interfered, controller.store);
    }

    /** The source, the candidate and, while the source is still desired, exact convergence. */
    method Checked(c: Command, runtime: Option<Service.Runtime>) returns (refused: Option<Service.Error>)
      requires Valid() && WellFormed(c)
      ensures refused.None? ==>
        && Known(controller.store, c.preview.expectedId)
        && Row(controller.store, c.preview.expectedId).digest == c.preview.expected
        && c.preview.expected.schema == c.preview.sourceSchema
        && Row(controller.store, c.preview.expectedId).rawRetained && c.preview.expected in controller.raws
        && document(c.preview.expected) == Some(Materialization(c.preview.candidate, c.preview.sourceSchema, true))
      // Of a source that is no longer desired nothing more is asked; the apply will refuse it.
      ensures controller.store.desired != c.preview.expectedId && refused.Some? ==>
        || !Service.Authorized(controller.store, c.requester) || !Known(controller.store, c.preview.expectedId)
        || (var source := Row(controller.store, c.preview.expectedId);
            source.digest != c.preview.expected || !source.rawRetained)
        || c.preview.expected.schema != c.preview.sourceSchema || c.preview.expected !in controller.raws
        || document(c.preview.expected) != Some(Materialization(c.preview.candidate, c.preview.sourceSchema, true))
      ensures controller.calm && Fresh(controller.store, controller.live, controller.raws, document, c, runtime) ==>
        refused.None?
      ensures refused.None? && controller.store.desired == c.preview.expectedId ==>
        && controller.store.version == c.preview.version
        && Service.Converged(controller.store, controller.live, runtime)
        && Service.AdmitsReadOnly(controller.store, controller.live, controller.raws, runtime).Admitted?
      ensures refused.None? ==> Service.Authorized(controller.store, c.requester)
      ensures refused.Some? ==>
        refused.value == if Service.Authorized(controller.store, c.requester) then Service.Conflict else Service.Hidden
    {
      var s := controller.store;
      Service.DesiredKept(s, controller.raws);
      Service.DesiredRetained(s);
      if !Service.Authorized(s, c.requester) {
        return Some(Service.Hidden);
      }
      if !Known(s, c.preview.expectedId) {
        return Some(Service.Conflict);
      }
      var source := Row(s, c.preview.expectedId);
      if source.digest != c.preview.expected || source.digest.schema != c.preview.sourceSchema
         || !source.rawRetained || source.digest !in controller.raws {
        return Some(Service.Conflict);
      }
      var made := document(source.digest);
      if made.None? || made.value.sourceSchema != c.preview.sourceSchema || made.value.payload != c.preview.candidate
        || !made.value.preserved {
        return Some(Service.Conflict);
      }
      if s.desired == c.preview.expectedId {
        var busy := Fails(controller.calm);
        Service.ReadOnlyGateSound(s, controller.live, controller.raws, runtime);
        var decision := Service.AdmitsReadOnly(s, controller.live, controller.raws, runtime);
        if busy || decision.Denied? || s.version != c.preview.version {
          return Some(Service.Conflict);
        }
      }
      return None;
    }

    method Submit(c: Command, observer: Service.Observer) returns (r: Reply<Service.Answer, Service.Error>)
      requires Valid() && WellFormed(c)
      requires c.preview.expected.schema == c.preview.sourceSchema
      requires document(c.preview.expected).Some?
      requires document(c.preview.expected).value.payload == c.preview.candidate
      modifies controller
      ensures Valid() && Extends(old(controller.store), controller.store)
      ensures var s, live := old(controller.store), old(controller.live);
              var command := ApplyCommand(c, c.preview.candidate);
              controller.calm && Service.IsNew(s, command) ==>
                && (r.Ok? <==>
                      live == Desired(s).digest && Service.Proposable(Service.Noticed(s, live, observer), command))
                && (if r.Ok? then Service.AnswersDesired(controller.store, OperationOf(c), r.value)
                    else Preserves(c) && Service.Authorized(s, c.requester) ==> r.Err? && r.error in Refusals(s, c))
      ensures r.Ok? ==> Migrated(controller.store, c, r.value)
    {
      hide StoreOk, Extends, Migrated;
      ExtendsReflexive(controller.store);
      assert Current(c.preview.candidate) && ValidProvenance(ApplyCommand(c, c.preview.candidate).provenance);
      var applied :- controller.Apply(ApplyCommand(c, c.preview.candidate), observer);
      ApplyMigrates(controller.store, c, applied);
      return Ok(applied);
    }

    /** One migration command repeated, across stops and lost replies, with anything in between. */
    method ApplyRepeatedly(c: Command, attempts: nat) returns (answers: seq<Reply<Service.Answer, Service.Error>>)
      requires Valid()
      modifies controller
      ensures Valid() && Extends(old(controller.store), controller.store) && |answers| == attempts
      ensures forall a :: a in answers && a.Ok? ==> Migrated(controller.store, c, a.value)
      ensures forall a, b :: a in answers && b in answers && a.Ok? && b.Ok? ==>
        a.value.generation.id == b.value.generation.id
    {
      hide StoreOk, Extends, Migrated, Service.Names;
      answers := [];
      ExtendsReflexive(controller.store);
      for i := 0 to attempts
        invariant Valid() && Extends(old(controller.store), controller.store) && |answers| == i
        invariant forall a :: a in answers && a.Ok? ==> Migrated(controller.store, c, a.value)
      {
        ghost var before := controller.store;
        controller.Interfere();
        ghost var between := controller.store;
        var observer: Service.Observer, again: Service.Observer := *, *;
        if observer.Unwired? || again.Unwired? {
          observer, again := Service.Unwired, Service.Unwired;
        }
        var r := Apply(c, observer, again);
        ExtendsTransitive(before, between, controller.store);
        ExtendsTransitive(old(controller.store), before, controller.store);
        forall a | a in answers && a.Ok? ensures Migrated(controller.store, c, a.value) {
          MigratedLater(before, controller.store, c, a.value);
        }
        answers := answers + [r];
      }
      forall a, b | a in answers && b in answers && a.Ok? && b.Ok?
        ensures a.value.generation.id == b.value.generation.id
      {
        ExtendsReflexive(controller.store);
        MigrationsAgree(controller.store, controller.store, c, a.value, b.value);
      }
    }
  }

  /** Someone edits the live file of an effective source, which is observed, and puts it back: a migration
      of it then meets every condition, and is refused for the drift on record. */
  lemma DriftedMigration(baseline: Payload, foreign: Payload) returns (
      document: Document, runtime: Service.Runtime, s: Store, c: Command)
    requires baseline.readable && baseline.schema == 4 && foreign.content != baseline.content
    ensures MakesCurrent(document)
    ensures var effective := Service.AfterObserving(Service.Adopted(baseline), baseline, Some(runtime));
      s == Service.AfterObserving(effective, foreign, None)
    ensures StoreOk(s) && Service.LiveOk(s, baseline, None) && s.drifted
    ensures Fresh(s, baseline, {baseline}, document, c, Some(runtime))
  {
    var target := baseline.(schema := CURRENT_SCHEMA, size := 1);
    document := p => if p == baseline then Some(Materialization(target, 4, true)) else None;
    runtime := Service.Runtime(Service.Fresh, Some(baseline), Some(0));
    Service.AdoptedOk(baseline);
    var effective := Service.AfterObserving(Service.Adopted(baseline), baseline, Some(runtime));
    Service.ObservingMoves(Service.Adopted(baseline), baseline, Some(runtime));
    Service.ObservingMoves(effective, foreign, None);
    s := Service.AfterObserving(effective, foreign, None);
    c := Command(baseline.operator, "m", MigrationPreview(1, baseline, 3, 4, CURRENT_SCHEMA, target, true));
    assert Trim("m") == "m";
  }

  lemma MigratedParts(s: Store, c: Command, a: Service.Answer)
    requires Migrated(s, c, a)
    ensures a.generation.digest == c.preview.candidate && c.preview.candidate.schema == CURRENT_SCHEMA
    ensures c.preview.expected.schema == c.preview.sourceSchema
  {
  }
}
