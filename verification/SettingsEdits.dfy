/** The editable settings of a draft: typed edits, the findings of validation and the semantic diff
    (internal/application/configuration_draft.go). */
module SettingsEdits {
  import opened Outcomes
  import opened Scheduling

  /** Nanoseconds. */
  type Duration = int

  const SECOND: Duration := 1_000_000_000
  const MINUTE: Duration := 60 * SECOND
  const HOUR: Duration := 60 * MINUTE

  datatype Settings = Settings(
    runTimeout: Duration, enabled: bool, pollInterval: Duration, deliveryPollInterval: Duration,
    leaseTtl: Duration, leaseRenewal: Duration, maxCandidates: int, maxPages: int, heavyCapacity: int)

  datatype Field = RunTimeout | Enabled | PollInterval | DeliveryPollInterval | LeaseTtl | LeaseRenewal
                 | MaxCandidates | MaxPages | HeavyCapacity | Unknown(name: string)

  datatype Edit = Edit(field: Field, boolean: Option<bool>, duration: Option<Duration>, integer: Option<int>)

  datatype EditError = UnknownField | NotOneValue | WrongType | OutOfBounds

  datatype Result = Accepted(settings: Settings) | Rejected(error: EditError)

  // ---------------------------------------------------------------- edits

  function Count(e: Edit): nat {
    (if e.boolean.Some? then 1 else 0) + (if e.duration.Some? then 1 else 0) + (if e.integer.Some? then 1 else 0)
  }

  predicate Between(value: Option<int>, low: int, high: int) {
    value.Some? && low <= value.value <= high
  }

  /** applyConfigurationEdit. */
  function ApplyEdit(s: Settings, e: Edit): Result {
    if e.field.Unknown? then Rejected(UnknownField)
    else if Count(e) != 1 then Rejected(NotOneValue)
    else
      match e.field
      case Enabled => if e.boolean.None? then Rejected(WrongType) else Accepted(s.(enabled := e.boolean.value))
      case RunTimeout => if !Between(e.duration, 1, 2 * HOUR) then Rejected(OutOfBounds)
        else Accepted(s.(runTimeout := e.duration.value))
      case PollInterval => if !Between(e.duration, MINUTE, HOUR) then Rejected(OutOfBounds)
        else Accepted(s.(pollInterval := e.duration.value))
      case DeliveryPollInterval =>
        if !Between(e.duration, 30 * SECOND, 5 * MINUTE) then Rejected(OutOfBounds)
          else Accepted(s.(deliveryPollInterval := e.duration.value))
      case LeaseTtl => if !Between(e.duration, 30 * SECOND, 10 * MINUTE) then Rejected(OutOfBounds)
        else Accepted(s.(leaseTtl := e.duration.value))
      case LeaseRenewal =>
        if !Between(e.duration, 5 * SECOND, 5 * MINUTE) then Rejected(OutOfBounds)
          else Accepted(s.(leaseRenewal := e.duration.value))
      case MaxCandidates => if !Between(e.integer, 1, 100) then Rejected(OutOfBounds)
        else Accepted(s.(maxCandidates := e.integer.value))
      case MaxPages => if !Between(e.integer, 1, 20) then Rejected(OutOfBounds)
        else Accepted(s.(maxPages := e.integer.value))
      case HeavyCapacity =>
        if !Between(e.integer, 1, MAX_HEAVY_CAPACITY) then Rejected(OutOfBounds)
          else Accepted(s.(heavyCapacity := e.integer.value))
  }

  /** The kind of value an edit of the field must carry. */
  predicate RightType(e: Edit) {
    match e.field
    case Enabled => e.boolean.Some?
    case MaxCandidates => e.integer.Some?
    case MaxPages => e.integer.Some?
    case HeavyCapacity => e.integer.Some?
    case Unknown(_) => false
    case _ => e.duration.Some?
  }

  /** Why an edit is rejected: a field nobody knows; not exactly one value; no flag where one is due; and for
      everything else, a value out of bounds or of another type. */
  lemma EditRejections(s: Settings, e: Edit)
    ensures var r := ApplyEdit(s, e);
      && (r == Rejected(UnknownField) <==> e.field.Unknown?)
      && (r == Rejected(NotOneValue) <==> !e.field.Unknown? && Count(e) != 1)
      && (r == Rejected(WrongType) <==> e.field.Enabled? && Count(e) == 1 && e.boolean.None?)
      && (r.Accepted? ==> RightType(e) && Count(e) == 1 && FieldInBounds(r.settings, e.field))
  {
  }

  function ApplyAll(s: Settings, edits: seq<Edit>): Result
    decreases |edits|
  {
    if edits == [] then Accepted(s)
    else
      var r := ApplyEdit(s, edits[0]);
      if r.Rejected? then r else ApplyAll(r.settings, edits[1..])
  }

  lemma {:induction false} ApplyAllJoin(s: Settings, a: seq<Edit>, b: seq<Edit>)
    ensures var r := ApplyAll(s, a); ApplyAll(s, a + b) == if r.Rejected? then r else ApplyAll(r.settings, b)
    decreases |a|
  {
    if a == [] {
      assert a + b == b;
    } else {
      assert (a + b)[0] == a[0] && (a + b)[1..] == a[1..] + b;
      var r := ApplyEdit(s, a[0]);
      if r.Accepted? {
        ApplyAllJoin(r.settings, a[1..], b);
      }
    }
  }

  // ---------------------------------------------------------------- findings

  datatype Reason = OutsideBounds | LeaseConflict

  datatype Finding = Finding(field: Field, reason: Reason)

  predicate FieldInBounds(s: Settings, f: Field) {
    match f
    case RunTimeout => 0 < s.runTimeout <= 2 * HOUR
    case Enabled => true
    case PollInterval => MINUTE <= s.pollInterval <= HOUR
    case DeliveryPollInterval => 30 * SECOND <= s.deliveryPollInterval <= 5 * MINUTE
    case LeaseTtl => 30 * SECOND <= s.leaseTtl <= 10 * MINUTE
    case LeaseRenewal => 5 * SECOND <= s.leaseRenewal <= 5 * MINUTE
    case MaxCandidates => 1 <= s.maxCandidates <= 100
    case MaxPages => 1 <= s.maxPages <= 20
    case HeavyCapacity => 1 <= s.heavyCapacity <= MAX_HEAVY_CAPACITY
    case Unknown(_) => true
  }

  ghost predicate InBounds(s: Settings) {
    forall f :: FieldInBounds(s, f)
  }

  /** The renewal interval leaves no room for a missed renewal. */
  predicate LeaseTooTight(s: Settings) {
    s.leaseTtl > 0 && s.leaseRenewal > s.leaseTtl / 2
  }

  lemma TooTightMeans(s: Settings)
    ensures LeaseTooTight(s) <==> 0 < s.leaseTtl < 2 * s.leaseRenewal
  {
  }

  const ADMISSION_CHECKS := [PollInterval, DeliveryPollInterval, LeaseTtl, LeaseRenewal, MaxCandidates, MaxPages,
    HeavyCapacity]

  /** Whether validation must report the finding. */
  predicate Reportable(s: Settings, f: Finding) {
    match f.reason
    case OutsideBounds => !FieldInBounds(s, f.field) && (f.field == RunTimeout || s.enabled)
    case LeaseConflict => f.field == LeaseRenewal && s.enabled && LeaseTooTight(s)
  }

  /** appendFinding: a finding is reported once. */
  method AppendFinding(findings: seq<Finding>, f: Finding) returns (r: seq<Finding>)
    ensures r == if f in findings then findings else findings + [f]
  {
    for i := 0 to |findings|
      invariant f !in findings[..i]
    {
      if findings[i] == f {
        return findings;
      }
    }
    return findings + [f];
  }

  ghost predicate Distinct(findings: seq<Finding>) {
    forall i, j :: 0 <= i < j < |findings| ==> findings[i] != findings[j]
  }

  /** configurationSettingsFindings: exactly what must be reported, each once. */
  method SettingsFindings(s: Settings) returns (findings: seq<Finding>)
    ensures forall f :: f in findings <==> Reportable(s, f)
    ensures Finding(LeaseRenewal, LeaseConflict) in findings <==> s.enabled && 0 < s.leaseTtl < 2 * s.leaseRenewal
    ensures Distinct(findings)
  {
    TooTightMeans(s);
    hide LeaseTooTight;
    findings := [];
    if s.runTimeout <= 0 || s.runTimeout > 2 * HOUR {
      findings := AppendFinding(findings, Finding(RunTimeout, OutsideBounds));
    }
    if !s.enabled {
      return;
    }
    for i := 0 to |ADMISSION_CHECKS|
      invariant Distinct(findings)
      invariant forall f :: f in findings <==>
        f.reason == OutsideBounds && !FieldInBounds(s, f.field)
          && (f.field == RunTimeout || f.field in ADMISSION_CHECKS[..i])
    {
      if !FieldInBounds(s, ADMISSION_CHECKS[i]) {
        findings := AppendFinding(findings, Finding(ADMISSION_CHECKS[i], OutsideBounds));
      }
    }
    assert forall f: Field :: f in ADMISSION_CHECKS || f == RunTimeout || FieldInBounds(s, f);
    if LeaseTooTight(s) {
      findings := AppendFinding(findings, Finding(LeaseRenewal, LeaseConflict));
    }
  }

  lemma EditKeepsBounds(s: Settings, e: Edit)
    requires InBounds(s)
    ensures ApplyEdit(s, e).Accepted? ==> InBounds(ApplyEdit(s, e).settings)
  {
    hide Reportable;
    var r := ApplyEdit(s, e);
    if r.Accepted? {
      forall f ensures FieldInBounds(r.settings, f) {
        assert FieldInBounds(s, f);
      }
    }
  }

  /** However settings within bounds are edited, the only thing validation can still report is a
      renewal interval of more than half the lease, and only while admission is enabled. */
  lemma {:induction false} EditsLeaveLeaseConflict(s: Settings, edits: seq<Edit>, f: Finding)
    requires InBounds(s)
    ensures var r := ApplyAll(s, edits);
      && (r.Accepted? ==> InBounds(r.settings))
      && (r.Accepted? ==>
            (Reportable(r.settings, f) <==>
              f == Finding(LeaseRenewal, LeaseConflict) && r.settings.enabled
                && r.settings.leaseRenewal > r.settings.leaseTtl / 2))
    decreases |edits|
  {
    if edits == [] {
      assert FieldInBounds(s, f.field) && FieldInBounds(s, LeaseTtl);
    } else {
      EditKeepsBounds(s, edits[0]);
      var r := ApplyEdit(s, edits[0]);
      if r.Accepted? {
        EditsLeaveLeaseConflict(r.settings, edits[1..], f);
      }
    }
  }

  // ---------------------------------------------------------------- the semantic diff

  datatype Value = Flag(on: bool) | Span(duration: Duration) | Number(integer: int)

  datatype FieldChange = FieldChange(field: Field, before: Value, after: Value)

  datatype Category = RunTimeoutChanged | AdmissionEnabled | AdmissionDisabled
                    | PollIntervalChanged | DeliveryIntervalChanged
                    | LeasePolicyChanged | ScanBoundsChanged | CapacityIncreased | CapacityDecreased

  datatype Change = Change(category: Category, fields: seq<FieldChange>)

  function Get(s: Settings, f: Field): Value
    requires !f.Unknown?
  {
    match f
    case RunTimeout => Span(s.runTimeout)
    case Enabled => Flag(s.enabled)
    case PollInterval => Span(s.pollInterval)
    case DeliveryPollInterval => Span(s.deliveryPollInterval)
    case LeaseTtl => Span(s.leaseTtl)
    case LeaseRenewal => Span(s.leaseRenewal)
    case MaxCandidates => Number(s.maxCandidates)
    case MaxPages => Number(s.maxPages)
    case HeavyCapacity => Number(s.heavyCapacity)
  }

  /** The change of one field, if it changed. */
  function Diff(before: Settings, after: Settings, f: Field): seq<FieldChange>
    requires !f.Unknown?
  {
    if Get(before, f) != Get(after, f) then [FieldChange(f, Get(before, f), Get(after, f))] else []
  }

  function Single(category: Category, fields: seq<FieldChange>): seq<Change> {
    if fields == [] then [] else [Change(category, fields)]
  }

  function CapacityCategory(before: Settings, after: Settings): Category {
    if after.heavyCapacity < before.heavyCapacity then CapacityDecreased else CapacityIncreased
  }

  /** configurationSemanticChanges. */
  function SemanticChanges(before: Settings, after: Settings): seq<Change> {
    Single(RunTimeoutChanged, Diff(before, after, RunTimeout))
    + (Single(if after.enabled then AdmissionEnabled else AdmissionDisabled, Diff(before, after, Enabled))
    + (Single(PollIntervalChanged, Diff(before, after, PollInterval))
    + (Single(DeliveryIntervalChanged, Diff(before, after, DeliveryPollInterval))
    + (Single(LeasePolicyChanged, Diff(before, after, LeaseTtl) + Diff(before, after, LeaseRenewal))
    + (Single(ScanBoundsChanged, Diff(before, after, MaxCandidates) + Diff(before, after, MaxPages))
    + Single(CapacityCategory(before, after), Diff(before, after, HeavyCapacity)))))))
  }

  function EditOf(c: FieldChange): Edit {
    Edit(c.field,
         if c.after.Flag? then Some(c.after.on) else None,
         if c.after.Span? then Some(c.after.duration) else None,
         if c.after.Number? then Some(c.after.integer) else None)
  }

  function EditsOf(fields: seq<FieldChange>): seq<Edit> {
    if fields == [] then [] else [EditOf(fields[0])] + EditsOf(fields[1..])
  }

  lemma {:induction false} EditsOfJoin(a: seq<FieldChange>, b: seq<FieldChange>)
    ensures EditsOf(a + b) == EditsOf(a) + EditsOf(b)
  {
    if a == [] {
      assert a + b == b;
    } else {
      assert (a + b)[0] == a[0] && (a + b)[1..] == a[1..] + b;
      EditsOfJoin(a[1..], b);
    }
  }

  /** The edits a report stands for, in its order. */
  function ReportedEdits(changes: seq<Change>): seq<Edit> {
    if changes == [] then [] else EditsOf(changes[0].fields) + ReportedEdits(changes[1..])
  }

  lemma ReportedSingle(category: Category, fields: seq<FieldChange>, rest: seq<Change>)
    ensures ReportedEdits(Single(category, fields) + rest) == EditsOf(fields) + ReportedEdits(rest)
  {
    if fields == [] {
      assert Single(category, fields) + rest == rest;
    } else {
      assert (Single(category, fields) + rest)[1..] == rest;
    }
  }

  const FIELDS := [RunTimeout, Enabled, PollInterval, DeliveryPollInterval, LeaseTtl, LeaseRenewal, MaxCandidates,
    MaxPages, HeavyCapacity]

  /** The edits of the first `k` fields that changed. */
  function DiffEdits(before: Settings, after: Settings, from: nat): seq<Edit>
    requires from <= |FIELDS|
    decreases |FIELDS| - from
  {
    if from == |FIELDS| then [] else EditsOf(Diff(before, after, FIELDS[from])) + DiffEdits(before, after, from + 1)
  }

  /** Grouping by category changes nothing about which edits are reported. */
  lemma ReportIsFieldwise(before: Settings, after: Settings)
    ensures ReportedEdits(SemanticChanges(before, after)) == DiffEdits(before, after, 0)
  {
    hide DiffEdits;
    hide Diff, EditsOf, Single, ReportedEdits, Get;
    var heavy := Single(CapacityCategory(before, after), Diff(before, after, HeavyCapacity));
    var bounds := Diff(before, after, MaxCandidates) + Diff(before, after, MaxPages);
    var lease := Diff(before, after, LeaseTtl) + Diff(before, after, LeaseRenewal);
    var c5 := Single(ScanBoundsChanged, bounds) + heavy;
    var c4 := Single(LeasePolicyChanged, lease) + c5;
    var c3 := Single(DeliveryIntervalChanged, Diff(before, after, DeliveryPollInterval)) + c4;
    var c2 := Single(PollIntervalChanged, Diff(before, after, PollInterval)) + c3;
    var c1 := Single(if after.enabled then AdmissionEnabled else AdmissionDisabled, Diff(before, after, Enabled)) + c2;
    ReportedSingle(RunTimeoutChanged, Diff(before, after, RunTimeout), c1);
    ReportedSingle(if after.enabled then AdmissionEnabled else AdmissionDisabled, Diff(before, after, Enabled), c2);
    ReportedSingle(PollIntervalChanged, Diff(before, after, PollInterval), c3);
    ReportedSingle(DeliveryIntervalChanged, Diff(before, after, DeliveryPollInterval), c4);
    ReportedSingle(LeasePolicyChanged, lease, c5);
    ReportedSingle(ScanBoundsChanged, bounds, heavy);
    ReportedLast(CapacityCategory(before, after), Diff(before, after, HeavyCapacity));
    EditsOfJoin(Diff(before, after, LeaseTtl), Diff(before, after, LeaseRenewal));
    EditsOfJoin(Diff(before, after, MaxCandidates), Diff(before, after, MaxPages));
    DiffEditsUnfold(before, after);
    assert (EditsOf(Diff(before, after, LeaseTtl)) + EditsOf(Diff(before, after, LeaseRenewal))) + ReportedEdits(c5)
        == EditsOf(Diff(before, after, LeaseTtl)) + (EditsOf(Diff(before, after, LeaseRenewal)) + ReportedEdits(c5));
    assert (EditsOf(Diff(before, after, MaxCandidates)) + EditsOf(Diff(before, after, MaxPages))) + ReportedEdits(heavy)
        == EditsOf(Diff(before, after, MaxCandidates))
          + (EditsOf(Diff(before, after, MaxPages)) + ReportedEdits(heavy));
  }

  lemma ReportedLast(category: Category, fields: seq<FieldChange>)
    ensures ReportedEdits(Single(category, fields)) == EditsOf(fields)
  {
    ReportedSingle(category, fields, []);
    assert Single(category, fields) + [] == Single(category, fields);
    assert EditsOf(fields) + [] == EditsOf(fields);
  }

  lemma DiffEditsUnfold(before: Settings, after: Settings)
    ensures DiffEdits(before, after, 0) ==
      EditsOf(Diff(before, after, RunTimeout))
      + (EditsOf(Diff(before, after, Enabled))
      + (EditsOf(Diff(before, after, PollInterval))
      + (EditsOf(Diff(before, after, DeliveryPollInterval))
      + (EditsOf(Diff(before, after, LeaseTtl))
      + (EditsOf(Diff(before, after, LeaseRenewal))
      + (EditsOf(Diff(before, after, MaxCandidates))
      + (EditsOf(Diff(before, after, MaxPages)) + EditsOf(Diff(before, after, HeavyCapacity)))))))))
  {
    hide Diff, EditsOf, Get;
    var d := (k: nat) requires k <= |FIELDS| => DiffEdits(before, after, k);
    assert d(9) == [];
    assert d(8) == EditsOf(Diff(before, after, HeavyCapacity));
    assert d(7) == EditsOf(Diff(before, after, MaxPages)) + d(8);
    assert d(6) == EditsOf(Diff(before, after, MaxCandidates)) + d(7);
    assert d(5) == EditsOf(Diff(before, after, LeaseRenewal)) + d(6);
    assert d(4) == EditsOf(Diff(before, after, LeaseTtl)) + d(5);
    assert d(3) == EditsOf(Diff(before, after, DeliveryPollInterval)) + d(4);
    assert d(2) == EditsOf(Diff(before, after, PollInterval)) + d(3);
    assert d(1) == EditsOf(Diff(before, after, Enabled)) + d(2);
  }

  /** `s` agrees with `after` on the first `k` fields and with `before` on the others. */
  ghost predicate Mixed(s: Settings, before: Settings, after: Settings, k: nat) {
    forall i :: 0 <= i < |FIELDS| ==> Get(s, FIELDS[i]) == Get(if i < k then after else before, FIELDS[i])
  }

  lemma SameFields(s: Settings, t: Settings)
    requires forall i :: 0 <= i < |FIELDS| ==> Get(s, FIELDS[i]) == Get(t, FIELDS[i])
    ensures s == t
  {
    assert Get(s, FIELDS[0]) == Get(t, FIELDS[0]) && Get(s, FIELDS[1]) == Get(t, FIELDS[1])
      && Get(s, FIELDS[2]) == Get(t, FIELDS[2]);
    assert Get(s, FIELDS[3]) == Get(t, FIELDS[3]) && Get(s, FIELDS[4]) == Get(t, FIELDS[4])
      && Get(s, FIELDS[5]) == Get(t, FIELDS[5]);
    assert Get(s, FIELDS[6]) == Get(t, FIELDS[6]) && Get(s, FIELDS[7]) == Get(t, FIELDS[7])
      && Get(s, FIELDS[8]) == Get(t, FIELDS[8]);
  }

  /** An edit to a field's new value is accepted exactly when that value is within bounds, and changes
      nothing else. */
  lemma EditSetsField(s: Settings, after: Settings, f: Field)
    requires !f.Unknown?
    ensures var r := ApplyEdit(s, EditOf(FieldChange(f, Get(s, f), Get(after, f))));
      && (r.Accepted? <==> FieldInBounds(after, f))
      && (r.Accepted? ==> Get(r.settings, f) == Get(after, f))
      && (r.Accepted? ==> forall g: Field :: !g.Unknown? && g != f ==> Get(r.settings, g) == Get(s, g))
  {
  }

  /** The edits of one field bring just that field up to date. */
  lemma OneField(s: Settings, before: Settings, after: Settings, f: Field)
    requires !f.Unknown? && Get(s, f) == Get(before, f)
    ensures var r := ApplyAll(s, EditsOf(Diff(before, after, f)));
      && (r.Accepted? <==> Get(before, f) == Get(after, f) || FieldInBounds(after, f))
      && (r.Accepted? ==> Get(r.settings, f) == Get(after, f))
      && (r.Accepted? ==> forall g: Field :: !g.Unknown? && g != f ==> Get(r.settings, g) == Get(s, g))
  {
    hide Get, FieldInBounds, ApplyEdit;
    EditSetsField(s, after, f);
    if Get(before, f) != Get(after, f) {
      var edit := EditOf(FieldChange(f, Get(before, f), Get(after, f)));
      assert EditsOf(Diff(before, after, f)) == [edit];
      assert [edit][1..] == [];
      var r := ApplyEdit(s, edit);
      assert ApplyAll(s, [edit]) == if r.Rejected? then r else ApplyAll(r.settings, []);
    }
  }

  predicate FieldFits(before: Settings, after: Settings, i: nat)
    requires i < |FIELDS|
  {
    Get(before, FIELDS[i]) == Get(after, FIELDS[i]) || FieldInBounds(after, FIELDS[i])
  }

  lemma {:induction false} FieldsFold(s: Settings, before: Settings, after: Settings, k: nat)
    requires k <= |FIELDS| && Mixed(s, before, after, k)
    ensures var r := ApplyAll(s, DiffEdits(before, after, k));
      && (r.Accepted? ==> r.settings == after)
      && (r.Accepted? <==> forall i: nat :: k <= i < |FIELDS| ==> FieldFits(before, after, i))
    decreases |FIELDS| - k
  {
    hide FieldInBounds, ApplyEdit, Get, Diff, EditsOf;
    if k == |FIELDS| {
      SameFields(s, after);
    } else {
      var f := FIELDS[k];
      var here := EditsOf(Diff(before, after, f));
      ApplyAllJoin(s, here, DiffEdits(before, after, k + 1));
      OneField(s, before, after, f);
      var r := ApplyAll(s, here);
      assert r.Accepted? <==> FieldFits(before, after, k);
      if r.Accepted? {
        forall i | 0 <= i < |FIELDS|
          ensures Get(r.settings, FIELDS[i]) == Get(if i < k + 1 then after else before, FIELDS[i])
        {
          assert i != k ==> FIELDS[i] != f;
        }
        FieldsFold(r.settings, before, after, k + 1);
      }
    }
  }

  /** Folding the reported changes into `before` gives `after`, exactly when everything that changed
      is within bounds. */
  lemma ReportRebuilds(before: Settings, after: Settings)
    ensures var r := ApplyAll(before, ReportedEdits(SemanticChanges(before, after)));
      && (r.Accepted? ==> r.settings == after)
      && (r.Accepted? <==> forall i: nat :: i < |FIELDS| ==> FieldFits(before, after, i))
      && (InBounds(after) ==> r == Accepted(after))
  {
    hide SemanticChanges, ReportedEdits, DiffEdits, ApplyAll;
    ReportIsFieldwise(before, after);
    FieldsFold(before, before, after, 0);
  }

  /** What a category says of a change of this field. */
  predicate Describes(category: Category, before: Settings, after: Settings, f: Field) {
    match category
    case RunTimeoutChanged => f == RunTimeout
    case AdmissionEnabled => f == Enabled && after.enabled
    case AdmissionDisabled => f == Enabled && !after.enabled
    case PollIntervalChanged => f == PollInterval
    case DeliveryIntervalChanged => f == DeliveryPollInterval
    case LeasePolicyChanged => f == LeaseTtl || f == LeaseRenewal
    case ScanBoundsChanged => f == MaxCandidates || f == MaxPages
    case CapacityIncreased => f == HeavyCapacity && before.heavyCapacity < after.heavyCapacity
    case CapacityDecreased => f == HeavyCapacity && after.heavyCapacity < before.heavyCapacity
  }

  /** A field with the value it had and the one it has now, under a category that says what happened. */
  predicate Tells(before: Settings, after: Settings, category: Category, x: FieldChange) {
    && !x.field.Unknown? && x.before == Get(before, x.field) != Get(after, x.field) == x.after
    && Describes(category, before, after, x.field)
  }

  predicate Truthful(before: Settings, after: Settings, c: Change) {
    c.fields != [] && forall x :: x in c.fields ==> Tells(before, after, c.category, x)
  }

  lemma DiffTells(before: Settings, after: Settings, category: Category, f: Field)
    requires !f.Unknown? && (Get(before, f) != Get(after, f) ==> Describes(category, before, after, f))
    ensures forall x :: x in Diff(before, after, f) ==> Tells(before, after, category, x)
  {
  }

  lemma SingleIsTruthful(before: Settings, after: Settings, category: Category, fields: seq<FieldChange>)
    requires forall x :: x in fields ==> Tells(before, after, category, x)
    ensures forall c :: c in Single(category, fields) ==> Truthful(before, after, c)
  {
  }

  /** Every reported change is one: it has fields, each with the value it had and the one it has now, under
      the category that says what happened to it. */
  lemma ReportIsTruthful(before: Settings, after: Settings)
    ensures forall c :: c in SemanticChanges(before, after) ==> Truthful(before, after, c)
  {
    hide Truthful, Single, Diff, Get, Tells;
    var admission := if after.enabled then AdmissionEnabled else AdmissionDisabled;
    CategoriesTell(before, after);
    SingleIsTruthful(before, after, RunTimeoutChanged, Diff(before, after, RunTimeout));
    SingleIsTruthful(before, after, admission, Diff(before, after, Enabled));
    SingleIsTruthful(before, after, PollIntervalChanged, Diff(before, after, PollInterval));
    SingleIsTruthful(before, after, DeliveryIntervalChanged, Diff(before, after, DeliveryPollInterval));
    SingleIsTruthful(before, after, LeasePolicyChanged,
      Diff(before, after, LeaseTtl) + Diff(before, after, LeaseRenewal));
    SingleIsTruthful(before, after, ScanBoundsChanged,
      Diff(before, after, MaxCandidates) + Diff(before, after, MaxPages));
    SingleIsTruthful(before, after, CapacityCategory(before, after), Diff(before, after, HeavyCapacity));
  }

  lemma CategoriesTell(before: Settings, after: Settings)
    ensures forall x :: x in Diff(before, after, RunTimeout) ==> Tells(before, after, RunTimeoutChanged, x)
    ensures forall x :: x in Diff(before, after, Enabled) ==>
      Tells(before, after, if after.enabled then AdmissionEnabled else AdmissionDisabled, x)
    ensures forall x :: x in Diff(before, after, PollInterval) ==> Tells(before, after, PollIntervalChanged, x)
    ensures forall x :: x in Diff(before, after, DeliveryPollInterval) ==>
      Tells(before, after, DeliveryIntervalChanged, x)
    ensures forall x :: x in Diff(before, after, LeaseTtl) + Diff(before, after, LeaseRenewal) ==>
      Tells(before, after, LeasePolicyChanged, x)
    ensures forall x :: x in Diff(before, after, MaxCandidates) + Diff(before, after, MaxPages) ==>
      Tells(before, after, ScanBoundsChanged, x)
    ensures forall x :: x in Diff(before, after, HeavyCapacity) ==>
      Tells(before, after, CapacityCategory(before, after), x)
  {
    hide Diff, Tells;
    DiffTells(before, after, RunTimeoutChanged, RunTimeout);
    DiffTells(before, after, if after.enabled then AdmissionEnabled else AdmissionDisabled, Enabled);
    DiffTells(before, after, PollIntervalChanged, PollInterval);
    DiffTells(before, after, DeliveryIntervalChanged, DeliveryPollInterval);
    DiffTells(before, after, LeasePolicyChanged, LeaseTtl);
    DiffTells(before, after, LeasePolicyChanged, LeaseRenewal);
    DiffTells(before, after, ScanBoundsChanged, MaxCandidates);
    DiffTells(before, after, ScanBoundsChanged, MaxPages);
    DiffTells(before, after, CapacityCategory(before, after), HeavyCapacity);
  }

  /** The report is empty exactly when nothing changed. */
  lemma ReportEmptyIffEqual(before: Settings, after: Settings)
    ensures SemanticChanges(before, after) == [] <==> before == after
  {
    if SemanticChanges(before, after) == [] {
      ReportRebuilds(before, after);
      assert ReportedEdits([]) == [];
    }
  }

  // ---------------------------------------------------------------- impacts

  datatype Impact = WorkerReload | AdmissionFenced | RunsContinue | CapacityDrains

  /** configurationPreviewImpacts. */
  method PreviewImpacts(changes: seq<Change>) returns (impacts: seq<Impact>)
    ensures changes == [] ==> impacts == []
    ensures changes != [] ==>
      impacts == [WorkerReload, AdmissionFenced, RunsContinue]
        + (if exists c :: c in changes && c.category == CapacityDecreased then [CapacityDrains] else [])
  {
    if changes == [] {
      return [];
    }
    impacts := [WorkerReload, AdmissionFenced, RunsContinue];
    for i := 0 to |changes|
      invariant forall c :: c in changes[..i] ==> c.category != CapacityDecreased
    {
      if changes[i].category == CapacityDecreased {
        return impacts + [CapacityDrains];
      }
    }
    assert changes[..|changes|] == changes;
  }
}
