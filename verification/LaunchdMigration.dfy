/** Migrating a worker between its legacy and its neutral launchd identity and back
    (cmd/agentctl/launchd_migration.go). The process may be stopped between any two effects, the
    operations may be repeated in any order, and the host may reboot in between. */
module LaunchdMigration {
  import opened Outcomes

  datatype Content = NeutralWorker | LegacyWorker

  datatype File = File(inode: nat, content: Content)

  /** The four names a worker plist can have in the launchd directory. */
  datatype Entry = NeutralPlist | NeutralDisabled | LegacyPlist | LegacyBackup

  type Directory = map<Entry, File>

  datatype Service = Absent | Loaded | Running

  datatype Label = Neutral | Legacy

  /** What an operator, or the host, may do next. */
  datatype Event = MigrateRun | RollbackRun | Restart

  datatype Error = Failed | OppositeConflict | DualConfiguration | DualService
                 | LegacyUnavailable | RollbackUnavailable | WorkerBusy

  // ---------------------------------------------------------------- classification

  datatype Phase = BothConfigured | RolledBack | RollbackInterrupted | NeutralRunning | InterruptedMigration
                 | LegacyRunning | LegacyStopped | NeutralOnly | StaleArtifact | NeitherInstalled | OppositeSupervisor

  datatype Action = Attention | Inspect | Migrate | Rollback | Status | Install

  /** classifyLaunchdMigration. */
  function Classify(d: Directory, neutral: Service, legacy: Service, opposite: bool): (Phase, Action) {
    var legacyConfigured := LegacyPlist in d || !legacy.Absent?;
    var neutralConfigured := NeutralPlist in d || !neutral.Absent?;
    if opposite then (OppositeSupervisor, Attention)
    else if legacyConfigured && neutralConfigured then (BothConfigured, Attention)
    else if NeutralDisabled in d && legacyConfigured then
      if legacy.Running? then (RolledBack, Inspect) else (RollbackInterrupted, Action.Rollback)
    else if NeutralDisabled in d && LegacyBackup in d then (RollbackInterrupted, Action.Rollback)
    else if LegacyBackup in d && neutralConfigured then
      if neutral.Running? then (NeutralRunning, Inspect) else (InterruptedMigration, Action.Migrate)
    else if LegacyBackup in d then (InterruptedMigration, Action.Migrate)
    else if legacyConfigured then
      if legacy.Running? then (LegacyRunning, Action.Migrate) else (LegacyStopped, Action.Migrate)
    else if neutralConfigured then
      if neutral.Running? then (NeutralRunning, Inspect) else (NeutralOnly, Status)
    else if NeutralDisabled in d then (StaleArtifact, Attention)
    else (NeitherInstalled, Install)
  }

  /** What each phase says of the host, every state being in exactly one, and what it advises. */
  lemma PhasesMean(d: Directory, neutral: Service, legacy: Service, opposite: bool)
    ensures var (phase, action) := Classify(d, neutral, legacy, opposite);
      var installed, renamed := LegacyPlist in d || !legacy.Absent?, NeutralPlist in d || !neutral.Absent?;
      var backup, disabled := LegacyBackup in d, NeutralDisabled in d;
      && (phase.OppositeSupervisor? <==> opposite)
      && (phase.BothConfigured? <==> !opposite && installed && renamed)
      && (phase.RolledBack? <==> !opposite && disabled && installed && !renamed && legacy.Running?)
      && (phase.RollbackInterrupted? <==>
            !opposite && disabled && ((installed && !renamed && !legacy.Running?) || (backup && !installed)))
      && (phase.InterruptedMigration? <==>
            !opposite && backup && !disabled && !(installed && renamed) && !neutral.Running?)
      && (phase.NeutralRunning? <==> !opposite && !installed && neutral.Running? && !(disabled && backup))
      && (phase.LegacyRunning? <==> !opposite && installed && !renamed && !disabled && !backup && legacy.Running?)
      && (phase.LegacyStopped? <==> !opposite && installed && !renamed && !disabled && !backup && !legacy.Running?)
      && (phase.NeutralOnly? <==> !opposite && renamed && !installed && !backup && !neutral.Running?)
      && (phase.StaleArtifact? <==> !opposite && disabled && !installed && !renamed && !backup)
      && (phase.NeitherInstalled? <==> !opposite && !installed && !renamed && !disabled && !backup)
      && (action.Attention? <==> phase.OppositeSupervisor? || phase.BothConfigured? || phase.StaleArtifact?)
      && (action.Inspect? <==> phase.RolledBack? || phase.NeutralRunning?)
      && (action.Rollback? <==> phase.RollbackInterrupted?)
      && (action.Migrate? <==> phase.InterruptedMigration? || phase.LegacyRunning? || phase.LegacyStopped?)
      && (action.Status? <==> phase.NeutralOnly?)
      && (action.Install? <==> phase.NeitherInstalled?)
  {
  }

  // ---------------------------------------------------------------- what always holds

  /** The two identities are never both installed and never both loaded; what is loaded is installed;
      the original legacy file is under one of its two names, and a name left over from a move in
      progress is a second link to the same file. */
  ghost predicate Safe(d: Directory, neutral: Service, legacy: Service, original: File) {
    && (neutral.Absent? || legacy.Absent?)
    && !(NeutralPlist in d && LegacyPlist in d)
    && (!neutral.Absent? ==> NeutralPlist in d)
    && (!legacy.Absent? ==> LegacyPlist in d)
    && (LegacyPlist in d || LegacyBackup in d)
    && (LegacyPlist in d ==> d[LegacyPlist] == original)
    && (LegacyBackup in d ==> d[LegacyBackup] == original)
    && (NeutralPlist in d ==> d[NeutralPlist].content == NeutralWorker)
    && (NeutralDisabled in d ==> d[NeutralDisabled].content == NeutralWorker)
    && (NeutralPlist in d && NeutralDisabled in d ==> d[NeutralPlist] == d[NeutralDisabled])
    && original.content == LegacyWorker
  }

  /** A loaded neutral service has no disabled link left over. Only a reboot in the middle of a
      rollback's first move ends this. */
  ghost predicate Tidy(d: Directory, neutral: Service) {
    !neutral.Absent? ==> NeutralDisabled !in d
  }

  ghost predicate IsMigrated(d: Directory, neutral: Service, legacy: Service) {
    && neutral.Running? && legacy.Absent?
    && NeutralPlist in d && LegacyBackup in d && LegacyPlist !in d && NeutralDisabled !in d
  }

  ghost predicate IsRolledBack(d: Directory, neutral: Service, legacy: Service) {
    legacy.Running? && neutral.Absent? && LegacyPlist in d && NeutralPlist !in d
  }

  /** The worker plist of the neutral identity, installed or disabled, that `d` has already. */
  function NeutralFile(d: Directory): set<File> {
    (if NeutralPlist in d then {d[NeutralPlist]} else {}) + if NeutralDisabled in d then {d[NeutralDisabled]} else {}
  }

  predicate Available(d: Directory) {
    LegacyBackup in d || NeutralDisabled in d
  }

  /** Following the advice of `migration-status` is never refused: it says migrate only where migrate
      will go through, rollback only where there is something to roll back to, and is content only in
      a final state. It never has to call for attention. */
  lemma AdviceIsSound(d: Directory, neutral: Service, legacy: Service, original: File)
    requires Safe(d, neutral, legacy, original)
    ensures var (phase, action) := Classify(d, neutral, legacy, false);
      && (action.Migrate? ==> Tidy(d, neutral) && !neutral.Running?)
      && (action.Rollback? ==> Available(d))
      && (action.Inspect? ==> IsMigrated(d, neutral, legacy) || IsRolledBack(d, neutral, legacy))
      && !action.Attention? && !action.Status? && !action.Install?
      && (phase.NeutralRunning? <==> IsMigrated(d, neutral, legacy))
      && (phase.RolledBack? || phase.LegacyRunning? <== IsRolledBack(d, neutral, legacy) && LegacyBackup !in d)
  {
  }

  class Host {
    const original: File
    /** Something of the other supervisor kind is configured. */
    const opposite: bool
    /** A calm run: nothing fails or stops, and launchd leaves loaded services as they are. */
    const calm: bool
    var entries: Directory
    var neutral: Service
    var legacy: Service
    /** This process holds the worker lock. */
    var locked: bool
    var nextInode: nat

    ghost predicate Valid()
      reads this
    {
      && Safe(entries, neutral, legacy, original)
      && original.inode < nextInode && forall e :: e in entries ==> entries[e].inode < nextInode
    }

    /** Nothing of the host has changed. */
    twostate predicate Untouched()
      reads this
    {
      entries == old(entries) && neutral == old(neutral) && legacy == old(legacy)
    }

    /** A host on which only the legacy worker was ever installed. */
    constructor (original: File, legacy: Service, opposite: bool, calm: bool)
      requires original.content == LegacyWorker
      ensures Valid() && Tidy(entries, neutral) && !locked
      ensures entries == map[LegacyPlist := original] && this.original == original && this.opposite == opposite
              && this.calm == calm
    {
      this.original, this.opposite, this.calm := original, opposite, calm;
      entries := map[LegacyPlist := original];
      this.neutral, this.legacy := Absent, legacy;
      locked, nextInode := false, original.inode + 1;
    }

    /** The same host, as a later process finds it. */
    constructor Resumed(host: Host, calm: bool)
      requires host.Valid() && !host.locked
      ensures Valid() && !locked && this.calm == calm && opposite == host.opposite && original == host.original
      ensures entries == host.entries && neutral == host.neutral && legacy == host.legacy
    {
      original, opposite, this.calm := host.original, host.opposite, calm;
      entries, this.neutral, this.legacy := host.entries, host.neutral, host.legacy;
      locked, nextInode := false, host.nextInode;
    }

    // ------------------------------------------------------------ environment

    /** A loaded worker may start while nobody holds its lock, and may exit at any time. */
    method Drift(s: Service) returns (t: Service)
      ensures t.Absent? <==> s.Absent?
      ensures t.Running? && !s.Running? ==> !locked
      ensures calm ==> t == s
    {
      t := s;
      if !calm {
        if * {
          if s.Running? {
            t := Loaded;
          } else if s.Loaded? && !locked {
            t := Running;
          }
        }
      }
    }

    /** The process may be stopped here, which releases its lock; otherwise time passes. */
    method Tick() returns (r: Reply<(), Error>)
      requires Valid()
      modifies this`neutral, this`legacy, this`locked
      ensures Valid() && !r.Err? && (calm ==> r.Ok?)
      ensures r.Ok? ==> locked == old(locked)
      ensures r.Stopped? ==> !locked
      ensures Drifted(old(neutral), neutral, old(locked)) && Drifted(old(legacy), legacy, old(locked))
    {
      var stopped := Fails(calm);
      if stopped {
        locked := false;
        return Stopped;
      }
      var n := Drift(neutral);
      var l := Drift(legacy);
      neutral, legacy := n, l;
      return Ok(());
    }

    predicate Drifted(s: Service, t: Service, held: bool) {
      && (t.Absent? <==> s.Absent?)
      && (t.Running? && !s.Running? ==> !held)
      && (calm ==> t == s)
    }

    /** At boot launchd loads every installed plist, and runs it: all of them have RunAtLoad set. */
    method Reboot()
      requires Valid() && !locked
      modifies this`neutral, this`legacy
      ensures Valid()
      ensures neutral == if NeutralPlist in entries then Running else Absent
      ensures legacy == if LegacyPlist in entries then Running else Absent
      ensures Tidy(entries, neutral) <==> !(NeutralPlist in entries && NeutralDisabled in entries)
    {
      neutral := if NeutralPlist in entries then Running else Absent;
      legacy := if LegacyPlist in entries then Running else Absent;
    }

    // ------------------------------------------------------------ effects

    function State(which: Label): Service
      reads this
    {
      match which
      case Neutral => neutral
      case Legacy => legacy
    }

    /** Boots a service out and observes that it is gone. */
    method Bootout(which: Label) returns (r: Reply<(), Error>)
      requires Valid() && !locked
      modifies this`neutral, this`legacy, this`locked
      ensures Valid() && !locked && (r.Err? ==> r.error == Failed)
      ensures r.Ok? ==> State(which).Absent?
      ensures calm ==> r.Ok?
      ensures which.Neutral? ==>
        Drifted(old(legacy), legacy, false) && (!neutral.Absent? ==> Drifted(old(neutral), neutral, false))
      ensures which.Legacy? ==>
        Drifted(old(neutral), neutral, false) && (!legacy.Absent? ==> Drifted(old(legacy), legacy, false))
    {
      var _ :- Tick();
      var refused := Fails(calm);
      if refused {
        return Err(Failed);
      }
      match which {
        case Neutral => neutral := Absent;
        case Legacy => legacy := Absent;
      }
      var unverified := Fails(calm);
      return if unverified then Err(Failed) else Ok(());
    }

    /** Bootstraps or kickstarts a service and waits until it runs. */
    method Start(which: Label) returns (r: Reply<(), Error>)
      requires Valid() && !locked
      requires which.Neutral? ==> legacy.Absent? && NeutralPlist in entries
      requires which.Legacy? ==> neutral.Absent? && LegacyPlist in entries
      modifies this`neutral, this`legacy, this`locked
      ensures Valid() && !locked && (r.Err? ==> r.error == Failed)
      ensures r.Ok? ==> State(which).Running?
      ensures calm ==> r.Ok?
      ensures which.Neutral? ==> legacy.Absent?
      ensures which.Legacy? ==> neutral.Absent?
    {
      var _ :- Tick();
      var refused := Fails(calm);
      if refused {
        return Err(Failed);
      }
      var s: Service := *;
      if calm {
        s := Running;
      }
      match which {
        case Neutral => neutral := s;
        case Legacy => legacy := s;
      }
      return if s.Running? then Ok(()) else Err(Failed);
    }

    /** claimMigrationWorkerLock: a running worker holds the lock. */
    method ClaimWorkerLock() returns (r: Reply<(), Error>)
      requires Valid() && !locked
      modifies this`neutral, this`legacy, this`locked
      ensures Valid()
      ensures Drifted(old(neutral), neutral, false) && Drifted(old(legacy), legacy, false)
      ensures r.Ok? ==> locked && !neutral.Running? && !legacy.Running?
      ensures !r.Ok? ==> !locked
      ensures calm ==> if old(neutral.Running? || legacy.Running?) then r == Err(WorkerBusy) else r.Ok?
      ensures r.Err? ==> r.error == Failed || r.error == WorkerBusy
      ensures r == Err(WorkerBusy) ==> neutral.Running? || legacy.Running?
    {
      var _ :- Tick();
      if neutral.Running? || legacy.Running? {
        return Err(WorkerBusy);
      }
      var failed := Fails(calm);
      if failed {
        return Err(Failed);
      }
      locked := true;
      return Ok(());
    }

    method ReleaseWorkerLock() returns (r: Reply<(), Error>)
      requires Valid() && locked
      modifies this`neutral, this`legacy, this`locked
      ensures Valid() && !locked && (r.Err? ==> r.error == Failed)
      ensures calm ==> r.Ok?
      ensures Drifted(old(neutral), neutral, true) && Drifted(old(legacy), legacy, true)
    {
      var _ :- Tick();
      locked := false;
      var failed := Fails(calm);
      return if failed then Err(Failed) else Ok(());
    }

    /** A failure: the deferred release drops the lock. */
    method Abandon() returns (r: Reply<(), Error>)
      requires Valid()
      modifies this`locked
      ensures Valid() && !locked && r == Err(Failed)
    {
      locked := false;
      return Err(Failed);
    }

    /** The moves a migration or a rollback makes: between the two names of one plist, while the service
        it belongs to is not loaded and the other plist keeps out of the way. */
    predicate Movable(source: Entry, destination: Entry)
      reads this
    {
      && source in entries
      && (source == LegacyPlist ==> destination == LegacyBackup && neutral.Absent? && legacy.Absent?)
      && (source == LegacyBackup ==> destination == LegacyPlist && NeutralPlist !in entries)
      && (source == NeutralPlist ==> destination == NeutralDisabled && neutral.Absent?)
      && (source == NeutralDisabled ==> destination == NeutralPlist && LegacyPlist !in entries)
    }

    /** The destination becomes a second link to the source, unless it already is. */
    method Link(source: Entry, destination: Entry) returns (r: Reply<(), Error>)
      requires Valid() && locked && Movable(source, destination)
      modifies this`neutral, this`legacy, this`locked, this`entries
      ensures Valid() && (r.Err? ==> r.error == Failed) && (r.Ok? <==> locked)
      ensures entries == old(entries) || entries == old(entries)[destination := old(entries)[source]]
      ensures r.Ok? ==>
        Movable(source, destination) && destination in entries && entries[destination] == entries[source]
      ensures calm
              && (destination in old(entries) ==> old(entries)[destination].inode == old(entries)[source].inode) ==>
        r.Ok?
      ensures Drifted(old(neutral), neutral, true) && Drifted(old(legacy), legacy, true)
    {
      var _ :- Tick();
      var failed := Fails(calm);
      if failed || (destination in entries && entries[destination].inode != entries[source].inode) {
        r := Abandon();
        return;
      }
      if destination !in entries {
        entries := entries[destination := entries[source]];
      }
      r := Tick();
    }

    /** The source's own name goes. */
    method Unlink(source: Entry, destination: Entry) returns (r: Reply<(), Error>)
      requires Valid() && locked && Movable(source, destination) && destination in entries
               && entries[destination] == entries[source]
      modifies this`neutral, this`legacy, this`locked, this`entries
      ensures Valid() && (r.Err? ==> r.error == Failed) && (r.Ok? <==> locked)
      ensures entries == old(entries) || entries == old(entries) - {source}
      ensures r.Ok? ==> entries == old(entries) - {source}
      ensures calm ==> r.Ok?
      ensures Drifted(old(neutral), neutral, true) && Drifted(old(legacy), legacy, true)
    {
      var failed := Fails(calm);
      if failed {
        r := Abandon();
        return;
      }
      entries := entries - {source};
      var _ :- Tick();
      var unsynced := Fails(calm);
      if unsynced {
        r := Abandon();
        return;
      }
      return Ok(());
    }

    /** moveMigrationPlist, under the worker lock: a second link first, then the old name goes. An
        earlier move of the same file that got as far as the link is finished, not refused. */
    method Move(source: Entry, destination: Entry) returns (r: Reply<(), Error>)
      requires Valid() && locked && Movable(source, destination)
      modifies this`neutral, this`legacy, this`locked, this`entries
      ensures Valid() && (r.Err? ==> r.error == Failed)
      ensures r.Ok? ==> locked && entries == old(entries)[destination := old(entries)[source]] - {source}
      ensures !r.Ok? ==> !locked
      ensures forall e :: e != source && e != destination ==>
        (e in entries <==> e in old(entries)) && (e in entries ==> entries[e] == old(entries)[e])
      ensures source in entries || destination in entries
      ensures calm ==> r.Ok?
      ensures Drifted(old(neutral), neutral, true) && Drifted(old(legacy), legacy, true)
    {
      assert destination in entries ==> entries[destination] == entries[source];
      hide Safe;
      var _ :- Link(source, destination);
      r := Unlink(source, destination);
    }

    /** writeMigrationPlist, taken as one step. */
    method Write() returns (r: Reply<(), Error>)
      requires Valid() && locked && NeutralPlist !in entries && NeutralDisabled !in entries && LegacyPlist !in entries
      modifies this`neutral, this`legacy, this`locked, this`entries, this`nextInode
      ensures Valid() && (r.Err? ==> r.error == Failed)
      ensures r.Ok? ==> locked && NeutralPlist in entries && entries - {NeutralPlist} == old(entries)
      ensures r.Ok? ==> forall e :: e in old(entries) ==> entries[e].inode != entries[NeutralPlist].inode
      ensures !r.Ok? ==> !locked && entries == old(entries)
      ensures calm ==> r.Ok?
      ensures Drifted(old(neutral), neutral, true) && Drifted(old(legacy), legacy, true)
    {
      var _ :- Tick();
      var failed := Fails(calm);
      if failed {
        r := Abandon();
        return;
      }
      entries := entries[NeutralPlist := File(nextInode, NeutralWorker)];
      nextInode := nextInode + 1;
      return Ok(());
    }

    // ------------------------------------------------------------ migrate

    /** The file moves of a migration, all of them under the worker lock. */
    method InstallNeutral() returns (r: Reply<(), Error>)
      requires Valid() && locked && legacy.Absent?
      requires !neutral.Absent? ==> LegacyPlist !in entries
      modifies this`neutral, this`legacy, this`locked, this`entries, this`nextInode
      ensures Valid() && !locked && (r.Err? ==> r.error == Failed)
      ensures legacy.Absent? && (neutral.Absent? <==> old(neutral).Absent?)
      ensures old(Tidy(entries, neutral)) ==> Tidy(entries, neutral)
      ensures calm ==> r.Ok?
      ensures r.Ok? ==>
        NeutralPlist in entries && LegacyBackup in entries && LegacyPlist !in entries && NeutralDisabled !in entries
      ensures r.Ok? && NeutralFile(old(entries)) != {} ==> NeutralFile(entries) == NeutralFile(old(entries))
    {
      if LegacyPlist in entries {
        var _ :- Move(LegacyPlist, LegacyBackup);
      }
      r := RestoreNeutral();
    }

    method RestoreNeutral() returns (r: Reply<(), Error>)
      requires Valid() && locked && legacy.Absent? && LegacyPlist !in entries
      modifies this`neutral, this`legacy, this`locked, this`entries, this`nextInode
      ensures Valid() && !locked && (r.Err? ==> r.error == Failed)
      ensures legacy.Absent? && (neutral.Absent? <==> old(neutral).Absent?)
      ensures old(Tidy(entries, neutral)) ==> Tidy(entries, neutral)
      ensures LegacyBackup in entries && LegacyPlist !in entries
      ensures calm ==> r.Ok?
      ensures r.Ok? ==> NeutralPlist in entries && NeutralDisabled !in entries
      ensures r.Ok? && NeutralFile(old(entries)) != {} ==> NeutralFile(entries) == NeutralFile(old(entries))
    {
      if NeutralDisabled in entries {
        var unreadable := Fails(calm);
        if entries[NeutralDisabled].content != NeutralWorker || unreadable {
          r := Abandon();
          return;
        }
        var _ :- Move(NeutralDisabled, NeutralPlist);
      }
      if NeutralPlist !in entries {
        var _ :- Write();
      }
      var unreadable := Fails(calm);
      if entries[NeutralPlist].content != NeutralWorker || unreadable {
        r := Abandon();
        return;
      }
      r := ReleaseWorkerLock();
    }

    /** The checks of migrateLaunchdIdentity before its first effect. */
    function MigrateGuard(): Option<Error>
      reads this
    {
      if opposite then Some(OppositeConflict)
      else if Classify(entries, neutral, legacy, opposite).0.BothConfigured? then Some(DualConfiguration)
      else if LegacyPlist !in entries && LegacyBackup !in entries then Some(LegacyUnavailable)
      else if !neutral.Absent? && LegacyPlist in entries then Some(DualService)
      else None
    }

    /** migrateLaunchdIdentity. Unless it is stopped or an adapter fails, it ends migrated; the one
        exception is a worker that runs beside a disabled link a reboot left behind. */
    method MigrateIdentity() returns (r: Reply<(), Error>)
      requires Valid() && !locked
      modifies this`neutral, this`legacy, this`locked, this`entries, this`nextInode
      ensures Valid() && !locked
      ensures old(Tidy(entries, neutral)) ==> Tidy(entries, neutral)
      ensures r.Ok? ==> IsMigrated(entries, neutral, legacy)
      ensures r.Err? ==> r.error == Failed || (r.error == OppositeConflict && opposite) || r.error == WorkerBusy
      ensures r == Err(WorkerBusy) ==>
        neutral.Running? && (NeutralDisabled !in entries ==> IsMigrated(entries, neutral, legacy))
      ensures r == Err(WorkerBusy) && old(Tidy(entries, neutral)) ==> IsMigrated(entries, neutral, legacy)
      ensures calm && !opposite ==>
        if old(neutral.Running? && NeutralDisabled in entries) then r == Err(WorkerBusy) else r.Ok?
      // Beside the other supervisor, and when it is migrated already, it touches nothing.
      ensures opposite ==> r == Err(OppositeConflict) && Untouched()
      ensures old(IsMigrated(entries, neutral, legacy)) ==> Untouched() && (r.Ok? || r == Err(Failed) || opposite)
      // A neutral plist that was there before is put back, not written anew.
      ensures r.Ok? && NeutralFile(old(entries)) != {} ==> NeutralFile(entries) == NeutralFile(old(entries))
    {
      var refused := MigrateGuard();
      if refused.Some? {
        return Err(refused.value);
      }
      var unsafeAssets := Fails(calm);
      if unsafeAssets {
        return Err(Failed);
      }
      if Classify(entries, neutral, legacy, opposite).0.NeutralRunning? && LegacyBackup in entries
        && LegacyPlist !in entries {
        return Ok(());
      }
      r := MigrateEffects();
    }

    method MigrateEffects() returns (r: Reply<(), Error>)
      requires Valid() && !locked && (!neutral.Absent? ==> LegacyPlist !in entries)
      requires neutral.Running? ==> NeutralDisabled in entries
      modifies this`neutral, this`legacy, this`locked, this`entries, this`nextInode
      ensures Valid() && !locked
      ensures old(Tidy(entries, neutral)) ==> Tidy(entries, neutral)
      ensures r.Ok? ==> IsMigrated(entries, neutral, legacy)
      ensures r.Err? ==> r.error == Failed || r.error == WorkerBusy
      ensures r == Err(WorkerBusy) ==>
        neutral.Running? && entries == old(entries) && legacy.Absent? && !old(neutral).Absent?
      ensures calm ==> if old(neutral.Running?) then r == Err(WorkerBusy) else r.Ok?
      ensures r.Ok? && NeutralFile(old(entries)) != {} ==> NeutralFile(entries) == NeutralFile(old(entries))
    {
      if !legacy.Absent? {
        var _ :- Bootout(Legacy);
      }
      var _ :- ClaimWorkerLock();
      var _ :- InstallNeutral();
      r := Start(Neutral);
    }

    // ------------------------------------------------------------ rollback

    /** The file moves of a rollback, all of them under the worker lock. */
    method RestoreLegacy() returns (r: Reply<(), Error>)
      requires Valid() && locked && neutral.Absent?
      modifies this`neutral, this`legacy, this`locked, this`entries
      ensures Valid() && !locked && (r.Err? ==> r.error == Failed)
      ensures neutral.Absent? && (legacy.Absent? <==> old(legacy).Absent?)
      ensures calm ==> r.Ok?
      ensures r.Ok? ==> LegacyPlist in entries && NeutralPlist !in entries && LegacyBackup !in entries
      ensures r.Ok? ==> NeutralFile(entries) == NeutralFile(old(entries))
    {
      if NeutralPlist in entries {
        var _ :- Move(NeutralPlist, NeutralDisabled);
      }
      if LegacyBackup in entries {
        var _ :- Move(LegacyBackup, LegacyPlist);
      }
      var unreadable := Fails(calm);
      if entries[LegacyPlist].content != LegacyWorker || unreadable {
        r := Abandon();
        return;
      }
      r := ReleaseWorkerLock();
    }

    /** The checks of rollbackLaunchdMigration before its first effect. */
    function RollbackGuard(): Option<Error>
      reads this
    {
      if opposite then Some(OppositeConflict)
      else if Classify(entries, neutral, legacy, opposite).0.BothConfigured? then Some(DualConfiguration)
      else if !Available(entries) then Some(RollbackUnavailable)
      else if !legacy.Absent? && !neutral.Absent? then Some(DualService)
      else None
    }

    /** rollbackLaunchdMigration. From every reachable state with something to roll back to, reboots
        included, it ends rolled back unless it is stopped or an adapter fails. */
    method RollBack() returns (r: Reply<(), Error>)
      requires Valid() && !locked
      modifies this`neutral, this`legacy, this`locked, this`entries
      ensures Valid() && !locked
      ensures old(Tidy(entries, neutral)) ==> Tidy(entries, neutral)
      ensures r.Ok? || r == Err(WorkerBusy) ==> IsRolledBack(entries, neutral, legacy)
      ensures calm && !opposite ==>
        if LegacyBackup in old(entries) || NeutralDisabled in old(entries) then r.Ok? else r == Err(RollbackUnavailable)
      ensures r.Err? ==> r.error == Failed || (r.error == OppositeConflict && opposite) || r.error == WorkerBusy
                         || (r.error == RollbackUnavailable && !Available(old(entries)))
      ensures (r.Ok? || r == Err(WorkerBusy)) ==> !opposite && Available(old(entries))
      // Beside the other supervisor, with nothing to roll back to, and when it is rolled back already, it
      // touches nothing.
      ensures opposite ==> r == Err(OppositeConflict) && Untouched()
      ensures !Available(old(entries)) ==> !r.Ok? && Untouched()
      ensures old(IsRolledBack(entries, neutral, legacy)) ==>
        Untouched() && (r.Ok? || r == Err(Failed) || opposite || !Available(entries))
      // The neutral plist is kept, disabled, and the legacy one is back under its own name only.
      ensures r.Ok? ==> NeutralFile(entries) == NeutralFile(old(entries))
      ensures r.Ok? ==> old(IsRolledBack(entries, neutral, legacy)) || LegacyBackup !in entries
    {
      var refused := RollbackGuard();
      if refused.Some? {
        return Err(refused.value);
      }
      var unsafeAssets := Fails(calm);
      if unsafeAssets {
        return Err(Failed);
      }
      if legacy.Running? && neutral.Absent? && LegacyPlist in entries {
        return Ok(());
      }
      r := RollBackEffects();
    }

    method RollBackEffects() returns (r: Reply<(), Error>)
      requires Valid() && !locked && !legacy.Running?
      modifies this`neutral, this`legacy, this`locked, this`entries
      ensures Valid() && !locked
      ensures old(Tidy(entries, neutral)) ==> Tidy(entries, neutral)
      ensures r.Ok? || r == Err(WorkerBusy) ==> IsRolledBack(entries, neutral, legacy)
      ensures calm ==> r.Ok?
      ensures r.Err? ==> r.error == Failed || r.error == WorkerBusy
      ensures r.Ok? ==> NeutralFile(entries) == NeutralFile(old(entries)) && LegacyBackup !in entries
    {
      if !neutral.Absent? {
        var _ :- Bootout(Neutral);
      }
      var _ :- ClaimWorkerLock();
      var _ :- RestoreLegacy();
      r := Start(Legacy);
    }

    // ------------------------------------------------------------ runs

    /** Any sequence of migrations, rollbacks and reboots, each stopped anywhere: the host stays
        safe throughout, and tidy as long as it never rebooted. */
    method Run(events: seq<Event>)
      requires Valid() && !locked
      modifies this`neutral, this`legacy, this`locked, this`entries, this`nextInode
      ensures Valid() && !locked
      ensures old(Tidy(entries, neutral)) && Restart !in events ==> Tidy(entries, neutral)
    {
      for i := 0 to |events|
        invariant Valid() && !locked
        invariant old(Tidy(entries, neutral)) && Restart !in events[..i] ==> Tidy(entries, neutral)
      {
        assert events[..i + 1] == events[..i] + [events[i]];
        match events[i] {
          case MigrateRun => var _ := MigrateIdentity();
          case RollbackRun => var _ := RollBack();
          case Restart => Reboot();
        }
      }
    }
  }

  /** Recovery: after any sequence of migrations and rollbacks, each stopped anywhere, one calm
      migration ends migrated. After reboots it does so too, except in the untidy state. */
  method MigrateAfter(host: Host, events: seq<Event>) returns (recovered: Host, r: Reply<(), Error>)
    requires host.Valid() && !host.locked && !host.opposite
    modifies host
    ensures old(Tidy(host.entries, host.neutral)) && Restart !in events ==> r.Ok?
    ensures if host.neutral.Running? && NeutralDisabled in host.entries then r == Err(WorkerBusy) else r.Ok?
    ensures r.Ok? ==> IsMigrated(recovered.entries, recovered.neutral, recovered.legacy)
  {
    host.Run(events);
    recovered := new Host.Resumed(host, true);
    r := recovered.MigrateIdentity();
  }

  /** And one calm rollback ends rolled back, whatever was stopped and however often the host rebooted,
      unless there is nothing to roll back to. */
  method RollBackAfter(host: Host, events: seq<Event>) returns (recovered: Host, r: Reply<(), Error>)
    requires host.Valid() && !host.locked && !host.opposite
    modifies host
    ensures if LegacyBackup in host.entries || NeutralDisabled in host.entries then r.Ok?
            else r == Err(RollbackUnavailable)
    ensures r.Ok? ==> IsRolledBack(recovered.entries, recovered.neutral, recovered.legacy)
  {
    host.Run(events);
    recovered := new Host.Resumed(host, true);
    r := recovered.RollBack();
  }
}
