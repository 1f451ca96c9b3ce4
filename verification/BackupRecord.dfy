/**
 The durable backup record of one VM and the decisions taken on it: replay and
 precondition checks, admission, publication of a result, and cleanup. Each decision is
 a function from the stored record to the record that is saved next, so that the methods
 of the agent and the step systems of whole runs share one definition.
 */
module BackupRecord {
  import opened Model

  const MAX_RETIRED: nat := 2

  /** What inspection of the stopped disk observed. */
  datatype Witness = Witness(rootBytes: nat, diskIdentity: Identity, dependencies: nat)

  /** A generation is named by restore requests and by no others. */
  predicate WellFormed(r: Request) { r.action == Restore <==> r.generation.Some? }

  /**
   `Ok(true)` answers the request from its receipt; that comes first, so repeating a finished
   request has no effect even if the revision has moved on.
   */
  function Check(s: BackupState, r: Request): Result<bool> {
    if !WellFormed(r) then Err(InvalidRequest)
    else if s.lastResult.Some? && s.lastResult.value.request.operationId == r.operationId then
      if s.lastResult.value.request == r then Ok(true) else Err(OperationReused)
    else if s.pending.Some? then
      if s.pending.value.request == r then Ok(false) else Err(OperationUnfinished)
    else if r.expectedRevision != s.revision then Err(StaleRevision)
    else Ok(false)
  }

  /** What the host reports about backups of one VM. */
  datatype Settings = Settings(enabled: bool, supported: bool, designed: bool)

  /** The reasons for which a worker may not claim the VM, other than a running worker. */
  function ClaimRefusal(vm: Vm, r: Request, settings: Settings, engineStopped: bool): Option<Error> {
    match Check(vm.backup, r)
    case Err(e) => Some(e)
    case Ok(true) => Some(CompletedOperation)
    case Ok(false) =>
      if r.action == Create && vm.backup.pending.None? && !settings.enabled then Some(AdmissionDisabled)
      else if r.action == Create && vm.backup.pending.None? && !settings.supported then Some(Unsupported)
      else if !settings.designed then Some(Unsupported)
      else if vm.state != Stopped || vm.pendingResources.Some? then Some(NotStopped)
      else if !engineStopped then Some(NotStopped)
      else None
  }

  function CleanupRefusal(vm: Vm, now: nat): Option<Error> {
    if vm.backup.pending.Some? then Some(OperationUnfinished)
    else if vm.backup.cleanupRetryAt > now then Some(BackingOff)
    else None
  }

  predicate AnyStaging(gs: seq<Generation>) {
    exists i :: 0 <= i < |gs| && gs[i].restoreStaging
  }

  /** Admission checks on the record alone, in the order in which they are made. */
  function AdmissionRefusal(vm: Vm, r: Request, w: Witness): Option<Error> {
    if vm.state != Stopped || vm.pendingResources.Some? then Some(VmChanged)
    else if MibCeil(w.rootBytes) > U32_MAX then Some(InvalidCapacity)
    else if vm.disk - ConfigDiskMib(vm.options, vm.engine) != MibCeil(w.rootBytes) then Some(CapacityDiffers)
    else match r.action
      case Create => if |vm.backup.retired| >= MAX_RETIRED then Some(BacklogFull) else None
      case Delete => None
      case Restore =>
        if AnyStaging(vm.backup.retired) then Some(StagingUnfinished)
        else if vm.backup.current.None? then Some(NoBackup)
        else if Some(vm.backup.current.value.id) != r.generation then Some(GenerationChanged)
        else if vm.backup.current.value.rootBytes != w.rootBytes
             || vm.backup.current.value.dependencies != w.dependencies then Some(SourceDiffers)
        else None
  }

  function NewPending(r: Request, w: Witness, backend: Backend, artifact: Token, now: nat): Pending {
    Pending(r,
            Generation(artifact, backend, w.rootBytes, now, None, w.dependencies, r.action == Restore),
            w.diskIdentity, None)
  }

  /**
   `backup_admit`: `free` is the unreserved disk of the host after a recount; `artifact` and
   `revision` are the fresh names drawn by the host. A record whose exact request is already
   pending is returned unchanged.
   */
  function Admission(vm: Vm, r: Request, w: Witness, backend: Backend, free: u32,
                     artifact: Token, revision: Token, now: nat): Result<Vm>
  {
    match Check(vm.backup, r)
    case Err(e) => Err(e)
    case Ok(true) => Err(CompletedOperation)
    case Ok(false) =>
      if vm.backup.pending.Some? then Ok(vm)
      else if AdmissionRefusal(vm, r, w).Some? then Err(AdmissionRefusal(vm, r, w).value)
      else if r.action != Delete && free < MibCeil(w.rootBytes) then Err(NoBudget)
      else if vm.backup.sequence == U64_MAX then Err(SequenceExhausted)
      else Ok(vm.(backup := vm.backup.(
                    pending := Some(NewPending(r, w, backend, artifact, now)),
                    revision := revision,
                    sequence := vm.backup.sequence + 1)))
  }

  function Retain(gs: seq<Generation>, removed: seq<Token>): (kept: seq<Generation>)
    ensures |kept| <= |gs|
    ensures forall g :: g in kept <==> g in gs && g.id !in removed
    decreases |gs|
  {
    if gs == [] then []
    else (if gs[0].id in removed then [] else [gs[0]]) + Retain(gs[1..], removed)
  }

  function AfterRestore(ssh: Option<SshInfo>): Option<SshInfo> {
    if ssh.None? then None else Some(SshInfo(false, false, true))
  }

  /** The cleanup bookkeeping is reset once nothing is retired. */
  function Settled(s: BackupState, r: Request, now: nat): BackupState {
    var s1 := s.(pending := None, lastResult := Some(Receipt(r, now, None)));
    if s.retired == [] then s1.(cleanupError := None, cleanupRetryAt := 0, cleanupFailures := 0) else s1
  }

  /** `backup_finish`: publish the result of the storage work of `r`. */
  function Finished(vm: Vm, r: Request, removed: seq<Token>, result: Result<Option<Generation>>, now: nat): Result<Vm> {
    var s := vm.backup;
    if s.pending.None? then Err(IntentDisappeared)
    else if s.pending.value.request != r then Err(OperationChanged)
    else match result
      case Ok(artifact) =>
        (match r.action
         case Create =>
           if artifact.None? then Err(NoArtifact)
           else
             var retired := if s.current.Some? then s.retired + [s.current.value] else s.retired;
             Ok(vm.(backup := Settled(s.(current := artifact, retired := retired), r, now)))
         case Restore =>
           var kept := Retain(s.retired, removed);
           var retired := if artifact.Some? then kept + [artifact.value] else kept;
           Ok(vm.(backup := Settled(s.(retired := retired), r, now), ssh := AfterRestore(vm.ssh)))
         case Delete =>
           Ok(vm.(backup := Settled(s.(current := None, retired := []), r, now))))
      case Err(e) =>
        if r.action == Create then
          Ok(vm.(backup := s.(retired := s.retired + [s.pending.value.artifact], pending := None,
                              lastResult := Some(Receipt(r, now, Some(e))))))
        else
          Ok(vm.(backup := s.(pending := Some(s.pending.value.(error := Some(e))))))
  }

  /** Seconds until cleanup is tried again after the `failures`-th failure in a row. */
  function Backoff(failures: nat): nat {
    match Min(failures, 6)
    case 0 => 15 case 1 => 30 case 2 => 60 case 3 => 120 case 4 => 240 case 5 => 480 case _ => 960
  }

  /** `backup_cleanup_finish`. */
  function CleanedUp(vm: Vm, removed: seq<Token>, error: Option<Error>, now: nat): Result<Vm> {
    var s := vm.backup;
    if s.current.Some? && s.current.value.id in removed then Err(CurrentInUse)
    else
      var failures := if error.Some? then SatAdd(s.cleanupFailures, 1) else 0;
      var retryAt := if error.Some? then Min(now + Backoff(failures), U64_MAX) else 0;
      Ok(vm.(backup := s.(retired := Retain(s.retired, removed), cleanupError := error,
                          cleanupFailures := failures, cleanupRetryAt := retryAt)))
  }

  // ---- what every reachable record satisfies ----

  /** Every generation for which the record is responsible. */
  function Tracked(s: BackupState): seq<Generation> {
    Committed(s) + (if s.pending.Some? then [s.pending.value.artifact] else [])
  }

  ghost predicate DistinctIds(gs: seq<Generation>) {
    forall i, j :: 0 <= i < j < |gs| ==> gs[i].id != gs[j].id
  }

  function Stagings(gs: seq<Generation>): nat
    decreases |gs|
  {
    if gs == [] then 0 else (if gs[0].restoreStaging then 1 else 0) + Stagings(gs[1..])
  }

  /** Every tracked generation reserves exactly the VM's root disk. */
  ghost predicate Sized(vm: Vm) {
    forall g :: g in Tracked(vm.backup) ==> GenerationMib(g) == RootMib(vm)
  }

  /** At most two ordinary retired generations and one restore staging. */
  ghost predicate RetirementBounded(s: BackupState) {
    && Stagings(s.retired) <= 1
    && |s.retired| <= MAX_RETIRED + Stagings(s.retired)
    && (s.pending.Some? && s.pending.value.request.action == Create ==> |s.retired| < MAX_RETIRED)
    && (s.pending.Some? && s.pending.value.request.action == Restore ==> Stagings(s.retired) == 0)
  }

  ghost predicate PendingConsistent(s: BackupState) {
    && (s.current.Some? ==> !s.current.value.restoreStaging)
    && (s.pending.Some? ==>
          var p := s.pending.value;
          && WellFormed(p.request)
          && s.sequence > 0
          && p.artifact.identity.None?
          && p.artifact.restoreStaging == (p.request.action == Restore)
          && (p.request.action == Restore ==>
                s.current.Some? && p.request.generation == Some(s.current.value.id)))
  }

  ghost predicate RecordInv(vm: Vm) {
    && vm.backup.forwarding.None? && vm.backup.forwardingReservedMib == 0
    && vm.backup.forwardingSettledSequence.None?
    && Sized(vm)
    && RetirementBounded(vm.backup)
    && PendingConsistent(vm.backup)
    && DistinctIds(Tracked(vm.backup))
    && (vm.pendingResources.Some? ==> vm.backup.pending.None?)
  }

  /** A storage result answers the pending operation with its own artifact. */
  ghost predicate Fulfils(p: Pending, result: Result<Option<Generation>>) {
    result.Ok? ==>
      && (p.request.action == Create ==> result.value.Some?)
      && (p.request.action == Delete ==> result.value.None?)
      && (result.value.Some? ==> result.value.value == p.artifact.(identity := result.value.value.identity))
  }

  /** Copies of the root disk for which space is reserved. */
  function Copies(s: BackupState): nat {
    |Committed(s)| + (if s.pending.Some? && s.pending.value.request.action != Delete then 1 else 0)
  }

  /** The reservation of a consistent record is a whole number of root disks. */
  lemma ReservationCountsCopies(vm: Vm)
    requires Sized(vm) && vm.backup.forwardingReservedMib == 0
    ensures TrueMib(vm.backup) == Times(Copies(vm.backup), RootMib(vm))
  {
    var s := vm.backup;
    var gs := Committed(s);
    forall i | 0 <= i < |gs| ensures GenerationMib(gs[i]) == RootMib(vm) {
      assert gs[i] in Tracked(s);
    }
    SumMibUniform(gs, RootMib(vm));
    if s.pending.Some? {
      assert Tracked(s)[|gs|] == s.pending.value.artifact;
      assert s.pending.value.artifact in Tracked(s);
    }
  }

  /** The tight bound: never more than four times the root disk. */
  lemma BackupsReserveAtMostFourRoots(vm: Vm)
    requires RecordInv(vm)
    ensures |vm.backup.retired| <= MAX_RETIRED + 1
    ensures Copies(vm.backup) <= 4
    ensures TrueMib(vm.backup) <= 4 * RootMib(vm)
    ensures ReservedMib(vm.backup) <= 4 * RootMib(vm)
  {
    ReservationCountsCopies(vm);
    ReservationIsCappedSum(vm);
    TimesFour(Copies(vm.backup), RootMib(vm));
  }

  lemma {:induction false} StagingsAppend(a: seq<Generation>, g: Generation)
    ensures Stagings(a + [g]) == Stagings(a) + (if g.restoreStaging then 1 else 0)
    decreases |a|
  {
    if a != [] {
      assert (a + [g])[1..] == a[1..] + [g];
      StagingsAppend(a[1..], g);
    } else {
      assert a + [g] == [g];
    }
  }

  lemma {:induction false} NoStagings(a: seq<Generation>)
    ensures AnyStaging(a) <==> Stagings(a) > 0
    decreases |a|
  {
    if a != [] {
      NoStagings(a[1..]);
      assert AnyStaging(a[1..]) ==> AnyStaging(a) by {
        if AnyStaging(a[1..]) {
          var i :| 0 <= i < |a| - 1 && a[1..][i].restoreStaging;
          assert a[i + 1].restoreStaging;
        }
      }
      if AnyStaging(a) && !a[0].restoreStaging {
        var i :| 0 <= i < |a| && a[i].restoreStaging;
        assert a[1..][i - 1].restoreStaging;
      }
    }
  }

  /** Dropping generations loses slots at least as fast as stagings, and keeps names distinct. */
  lemma {:induction false} RetainKeeps(gs: seq<Generation>, removed: seq<Token>)
    ensures Stagings(Retain(gs, removed)) <= Stagings(gs)
    ensures |Retain(gs, removed)| + Stagings(gs) <= |gs| + Stagings(Retain(gs, removed))
    ensures DistinctIds(gs) ==> DistinctIds(Retain(gs, removed))
    decreases |gs|
  {
    if gs != [] {
      var tail := Retain(gs[1..], removed);
      RetainKeeps(gs[1..], removed);
      var kept := Retain(gs, removed);
      if gs[0].id in removed {
        assert kept == tail;
      } else {
        assert kept == [gs[0]] + tail;
        assert kept[1..] == tail;
        if DistinctIds(gs) {
          forall i, j | 0 <= i < j < |kept| ensures kept[i].id != kept[j].id {
            if i == 0 {
              assert kept[j] == tail[j - 1];
              assert tail[j - 1] in gs[1..];
              var k :| 0 <= k < |gs| - 1 && gs[1..][k] == tail[j - 1];
              assert gs[k + 1] == kept[j];
            } else {
              assert kept[i] == tail[i - 1] && kept[j] == tail[j - 1];
            }
          }
        }
      }
    }
  }

  /** Distinctness only depends on which names occur how often. */
  lemma DistinctFromParts(gs: seq<Generation>, g: Generation)
    requires DistinctIds(gs)
    requires forall x :: x in gs ==> x.id != g.id
    ensures DistinctIds(gs + [g]) && DistinctIds([g] + gs)
  {
  }

  lemma DistinctPrefix(gs: seq<Generation>, hs: seq<Generation>)
    requires DistinctIds(gs + hs)
    ensures DistinctIds(gs) && DistinctIds(hs)
    ensures forall g, h :: g in gs && h in hs ==> g.id != h.id
  {
    var all := gs + hs;
    forall i, j | 0 <= i < j < |gs| ensures gs[i].id != gs[j].id {
      assert all[i] == gs[i] && all[j] == gs[j];
    }
    forall i, j | 0 <= i < j < |hs| ensures hs[i].id != hs[j].id {
      assert all[|gs| + i] == hs[i] && all[|gs| + j] == hs[j];
    }
    forall g, h | g in gs && h in hs ensures g.id != h.id {
      var i :| 0 <= i < |gs| && gs[i] == g;
      var j :| 0 <= j < |hs| && hs[j] == h;
      assert all[i] == g && all[|gs| + j] == h;
    }
  }

  /** The names of a consistent record, taken apart. */
  lemma TrackedParts(s: BackupState)
    requires DistinctIds(Tracked(s))
    ensures DistinctIds(s.retired)
    ensures s.current.Some? ==> forall g :: g in s.retired ==> g.id != s.current.value.id
    ensures s.pending.Some? ==> forall g :: g in Committed(s) ==> g.id != s.pending.value.artifact.id
    ensures s.pending.Some? ==> forall g :: g in s.retired ==> g.id != s.pending.value.artifact.id
    ensures s.pending.Some? && s.current.Some? ==> s.current.value.id != s.pending.value.artifact.id
  {
    var head := if s.current.Some? then [s.current.value] else [];
    var last := if s.pending.Some? then [s.pending.value.artifact] else [];
    DistinctPrefix(Committed(s), last);
    DistinctPrefix(head, s.retired);
    if s.current.Some? { assert s.current.value in head; assert Committed(s)[0] == s.current.value; }
    if s.pending.Some? { assert s.pending.value.artifact in last; }
    forall g | g in s.retired ensures g in Committed(s) {}
  }

  lemma DistinctTracked(s: BackupState)
    requires DistinctIds(s.retired)
    requires s.current.Some? ==> forall g :: g in s.retired ==> g.id != s.current.value.id
    requires s.pending.Some? ==> forall g :: g in Committed(s) ==> g.id != s.pending.value.artifact.id
    ensures DistinctIds(Tracked(s))
  {
  }

  /** Admission with a new name keeps the record consistent and adds at most one copy. */
  lemma AdmissionKeepsRecord(vm: Vm, r: Request, w: Witness, backend: Backend, free: u32,
                             artifact: Token, revision: Token, now: nat)
    requires RecordInv(vm)
    requires forall g :: g in Tracked(vm.backup) ==> g.id != artifact
    requires Admission(vm, r, w, backend, free, artifact, revision, now).Ok?
    ensures var vm1 := Admission(vm, r, w, backend, free, artifact, revision, now).value;
            && RecordInv(vm1)
            && TrueDisk(vm1) <= TrueDisk(vm) + free
  {
    var s := vm.backup;
    var vm1 := Admission(vm, r, w, backend, free, artifact, revision, now).value;
    if s.pending.None? {
      var p := vm1.backup.pending.value;
      NoStagings(s.retired);
      TrackedParts(s);
      assert Tracked(s) == Committed(s);
      assert Committed(vm1.backup) == Committed(s);
      DistinctTracked(vm1.backup);
      forall g | g in Tracked(vm1.backup) ensures GenerationMib(g) == RootMib(vm1) {
        if g != p.artifact { assert g in Tracked(s); }
      }
      ReservationCountsCopies(vm);
      ReservationCountsCopies(vm1);
    }
  }

  /** A consistent successor that needs no more copies of the root disk. */
  ghost predicate NoLarger(vm: Vm, vm1: Vm) {
    && RecordInv(vm1)
    && Copies(vm1.backup) <= Copies(vm.backup)
    && vm1.disk == vm.disk && vm1.options == vm.options && vm1.engine == vm.engine
    && vm1.pendingResources == vm.pendingResources
  }

  lemma NoLargerReservesNoMore(vm: Vm, vm1: Vm)
    requires RecordInv(vm) && NoLarger(vm, vm1)
    ensures TrueDisk(vm1) <= TrueDisk(vm)
  {
    ReservationCountsCopies(vm);
    ReservationCountsCopies(vm1);
    TimesMonotone(Copies(vm1.backup), Copies(vm.backup), RootMib(vm));
  }

  lemma PendingIsTracked(s: BackupState)
    ensures forall g :: g in Committed(s) ==> g in Tracked(s)
    ensures s.pending.Some? ==> s.pending.value.artifact in Tracked(s)
    ensures s.current.Some? ==> s.current.value in Committed(s)
    ensures forall g :: g in s.retired ==> g in Committed(s)
    ensures forall g :: g in Tracked(s) ==>
              || (s.current.Some? && g == s.current.value)
              || g in s.retired
              || (s.pending.Some? && g == s.pending.value.artifact)
  {
  }

  /** The same artifact, possibly with its identity filled in. */
  ghost predicate SameArtifact(g: Generation, a: Generation) {
    g.id == a.id && g.backend == a.backend && g.rootBytes == a.rootBytes
  }

  /** Where the generations of a published record come from. */
  lemma FinishOrigins(vm: Vm, r: Request, removed: seq<Token>, result: Result<Option<Generation>>, now: nat)
    requires vm.backup.pending.Some? && Fulfils(vm.backup.pending.value, result)
    requires Finished(vm, r, removed, result, now).Ok?
    ensures forall g :: g in Tracked(Finished(vm, r, removed, result, now).value.backup) ==>
              g in Tracked(vm.backup) || SameArtifact(g, vm.backup.pending.value.artifact)
  {
    hide Finished;
    PublicationSaves(vm, r, removed, result, now);
    PublicationRetires(vm, r, removed, result, now);
    PendingIsTracked(vm.backup);
    PendingIsTracked(Finished(vm, r, removed, result, now).value.backup);
  }

  ghost predicate StillNamed(g: Generation, s: BackupState) {
    exists h :: h in Tracked(s) && h.id == g.id
  }

  /** The only names that publication forgets. */
  lemma FinishForgets(vm: Vm, r: Request, removed: seq<Token>, result: Result<Option<Generation>>, now: nat,
                      g: Generation)
    requires vm.backup.pending.Some? && Fulfils(vm.backup.pending.value, result)
    requires Finished(vm, r, removed, result, now).Ok?
    requires g in Tracked(vm.backup)
    ensures || StillNamed(g, Finished(vm, r, removed, result, now).value.backup)
            || (result.Ok? && r.action == Restore && g.id in removed)
            || (result == Ok(None) && r.action == Restore && g == vm.backup.pending.value.artifact)
            || (result.Ok? && r.action == Delete)
  {
  }

  lemma SizedByOrigin(vm: Vm, vm1: Vm)
    requires Sized(vm) && vm.backup.pending.Some?
    requires vm1.disk == vm.disk && vm1.options == vm.options && vm1.engine == vm.engine
    requires forall g :: g in Tracked(vm1.backup) ==>
               g in Tracked(vm.backup) || SameArtifact(g, vm.backup.pending.value.artifact)
    ensures Sized(vm1)
  {
    PendingIsTracked(vm.backup);
  }

  lemma PublishKeepsRecord(vm: Vm, r: Request, artifact: Generation, now: nat)
    requires RecordInv(vm) && vm.backup.pending.Some? && r.action == Create
    requires Fulfils(vm.backup.pending.value, Ok(Some(artifact)))
    requires Finished(vm, r, [], Ok(Some(artifact)), now).Ok?
    ensures NoLarger(vm, Finished(vm, r, [], Ok(Some(artifact)), now).value)
  {
    var s := vm.backup;
    var vm1 := Finished(vm, r, [], Ok(Some(artifact)), now).value;
    FinishOrigins(vm, r, [], Ok(Some(artifact)), now);
    SizedByOrigin(vm, vm1);
    TrackedParts(s);
    if s.current.Some? {
      StagingsAppend(s.retired, s.current.value);
      DistinctFromParts(s.retired, s.current.value);
    }
    DistinctTracked(vm1.backup);
  }

  /** After a restore the kept generations and the staging still fit. */
  lemma RestoredRetired(retired: seq<Generation>, removed: seq<Token>, stage: Option<Generation>)
    requires DistinctIds(retired) && Stagings(retired) == 0
    requires stage.Some? ==> stage.value.restoreStaging && forall g :: g in retired ==> g.id != stage.value.id
    ensures var kept := Retain(retired, removed);
            var after := if stage.Some? then kept + [stage.value] else kept;
            && DistinctIds(after)
            && Stagings(after) == (if stage.Some? then 1 else 0)
            && |after| <= |retired| + Stagings(after)
  {
    RetainKeeps(retired, removed);
    if stage.Some? {
      StagingsAppend(Retain(retired, removed), stage.value);
      DistinctFromParts(Retain(retired, removed), stage.value);
    }
  }

  /** What a completed restore changes: the retired generations, and nothing is pending any more. */
  lemma RestoredShape(vm: Vm, r: Request, removed: seq<Token>, stage: Option<Generation>, now: nat)
    requires vm.backup.pending.Some? && r.action == Restore
    requires Finished(vm, r, removed, Ok(stage), now).Ok?
    ensures var s := vm.backup;
            var vm1 := Finished(vm, r, removed, Ok(stage), now).value;
            && vm1 == vm.(backup := vm1.backup, ssh := vm1.ssh)
            && vm1.backup.pending.None? && vm1.backup.current == s.current
            && vm1.backup.retired == (if stage.Some? then Retain(s.retired, removed) + [stage.value]
                                      else Retain(s.retired, removed))
            && vm1.backup.forwarding == s.forwarding && vm1.backup.forwardingReservedMib == s.forwardingReservedMib
            && vm1.backup.forwardingSettledSequence == s.forwardingSettledSequence
            && s.pending.value.request == r
  {
  }

  lemma RestoredKeepsRecord(vm: Vm, r: Request, removed: seq<Token>, stage: Option<Generation>, now: nat)
    requires RecordInv(vm) && vm.backup.pending.Some? && r.action == Restore
    requires Fulfils(vm.backup.pending.value, Ok(stage))
    requires Finished(vm, r, removed, Ok(stage), now).Ok?
    ensures NoLarger(vm, Finished(vm, r, removed, Ok(stage), now).value)
  {
    hide Finished;
    var s := vm.backup;
    var vm1 := Finished(vm, r, removed, Ok(stage), now).value;
    RestoredShape(vm, r, removed, stage, now);
    FinishOrigins(vm, r, removed, Ok(stage), now);
    SizedByOrigin(vm, vm1);
    TrackedParts(s);
    RestoredRetired(s.retired, removed, stage);
    DistinctTracked(vm1.backup);
  }

  lemma AbandonedKeepsRecord(vm: Vm, r: Request, error: Error, now: nat)
    requires RecordInv(vm) && vm.backup.pending.Some? && r.action == Create
    requires Finished(vm, r, [], Err(error), now).Ok?
    ensures NoLarger(vm, Finished(vm, r, [], Err(error), now).value)
  {
    var s := vm.backup;
    var vm1 := Finished(vm, r, [], Err(error), now).value;
    FinishOrigins(vm, r, [], Err(error), now);
    SizedByOrigin(vm, vm1);
    TrackedParts(s);
    assert s.current.Some? ==> s.current.value in Committed(s) by { PendingIsTracked(s); }
    StagingsAppend(s.retired, s.pending.value.artifact);
    DistinctFromParts(s.retired, s.pending.value.artifact);
    DistinctTracked(vm1.backup);
  }

  /** Publication keeps the record consistent and never raises its reservation. */
  lemma FinishKeepsRecord(vm: Vm, r: Request, removed: seq<Token>, result: Result<Option<Generation>>, now: nat)
    requires RecordInv(vm)
    requires vm.backup.pending.Some? && Fulfils(vm.backup.pending.value, result)
    requires Finished(vm, r, removed, result, now).Ok?
    ensures var vm1 := Finished(vm, r, removed, result, now).value;
            && RecordInv(vm1)
            && TrueDisk(vm1) <= TrueDisk(vm)
  {
    var s := vm.backup;
    var vm1 := Finished(vm, r, removed, result, now).value;
    if result.Ok? && r.action == Create {
      PublishKeepsRecord(vm, r, result.value.value, now);
    } else if result.Ok? && r.action == Restore {
      RestoredKeepsRecord(vm, r, removed, result.value, now);
    } else if result.Ok? {
      assert Tracked(vm1.backup) == [];
    } else if r.action == Create {
      AbandonedKeepsRecord(vm, r, result.error, now);
    } else {
      TrackedParts(s);
      PendingIsTracked(s);
      PendingIsTracked(vm1.backup);
      DistinctTracked(vm1.backup);
    }
    NoLargerReservesNoMore(vm, vm1);
  }

  lemma CleanupKeepsRecord(vm: Vm, removed: seq<Token>, error: Option<Error>, now: nat)
    requires RecordInv(vm)
    requires CleanedUp(vm, removed, error, now).Ok?
    ensures var vm1 := CleanedUp(vm, removed, error, now).value;
            && RecordInv(vm1)
            && TrueDisk(vm1) <= TrueDisk(vm)
  {
    var s := vm.backup;
    var vm1 := CleanedUp(vm, removed, error, now).value;
    TrackedParts(s);
    RetainKeeps(s.retired, removed);
    PendingIsTracked(s);
    PendingIsTracked(vm1.backup);
    DistinctTracked(vm1.backup);
    ReservationCountsCopies(vm);
    ReservationCountsCopies(vm1);
    TimesMonotone(Copies(vm1.backup), Copies(s), RootMib(vm));
  }

  /** Deletion of the VM forgets every artifact but not the receipt. */
  function Forgotten(vm: Vm): Vm {
    vm.(backup := vm.backup.(current := None, pending := None, retired := []))
  }

  // ---- replay ----

  /**
   A request for restore, and no other, names a generation. Exactly the last completed request
   is answered from its receipt; exactly the pending request goes on while one is pending, and
   otherwise exactly a request with the present revision and an unspent operation goes on.
   */
  lemma ReplayExactlyTheLastReceipt(s: BackupState, r: Request)
    ensures var formed := r.action == Restore <==> r.generation.Some?;
            var spent := s.lastResult.Some? && s.lastResult.value.request.operationId == r.operationId;
            && (Check(s, r) == Ok(true) <==> formed && s.lastResult.Some? && s.lastResult.value.request == r)
            && (Check(s, r) == Ok(false) <==>
                  && formed && !spent
                  && (s.pending.Some? ==> s.pending.value.request == r)
                  && (s.pending.None? ==> r.expectedRevision == s.revision))
            && (Check(s, r) == Err(InvalidRequest) <==> !formed)
            && (Check(s, r) == Err(OperationReused) <==> formed && spent && s.lastResult.value.request != r)
            && (Check(s, r) == Err(OperationUnfinished) <==>
                  formed && !spent && s.pending.Some? && s.pending.value.request != r)
            && (Check(s, r) == Err(StaleRevision) <==>
                  formed && !spent && s.pending.None? && r.expectedRevision != s.revision)
  {
  }

  /** A worker may claim the VM exactly for a request that goes on, on a stopped VM without a target. */
  lemma ClaimableExactly(vm: Vm, r: Request, settings: Settings, engineStopped: bool)
    ensures ClaimRefusal(vm, r, settings, engineStopped).None? <==>
              && Check(vm.backup, r) == Ok(false)
              && (r.action == Create && vm.backup.pending.None? ==> settings.enabled && settings.supported)
              && settings.designed
              && vm.state == Stopped && vm.pendingResources.None? && engineStopped
  {
  }

  /** What admission demands of a request that is not pending yet. */
  lemma AdmittedExactly(vm: Vm, r: Request, w: Witness, backend: Backend, free: u32,
                        artifact: Token, revision: Token, now: nat)
    requires Check(vm.backup, r) == Ok(false) && vm.backup.pending.None?
    ensures Admission(vm, r, w, backend, free, artifact, revision, now).Ok? <==>
              && vm.state == Stopped && vm.pendingResources.None?
              && MibCeil(w.rootBytes) <= U32_MAX
              && vm.disk == MibCeil(w.rootBytes) + ConfigDiskMib(vm.options, vm.engine)
              && vm.backup.sequence < U64_MAX
              && match r.action
                 case Create => |vm.backup.retired| < 2 && MibCeil(w.rootBytes) <= free
                 case Delete => true
                 case Restore =>
                   && (forall g :: g in vm.backup.retired ==> !g.restoreStaging)
                   && vm.backup.current.Some? && r.generation == Some(vm.backup.current.value.id)
                   && vm.backup.current.value.rootBytes == w.rootBytes
                   && vm.backup.current.value.dependencies == w.dependencies
                   && MibCeil(w.rootBytes) <= free
  {
    if AnyStaging(vm.backup.retired) {
      var i :| 0 <= i < |vm.backup.retired| && vm.backup.retired[i].restoreStaging;
      assert vm.backup.retired[i] in vm.backup.retired;
    }
  }

  /**
   What admission saves: the request with an artifact of the inspected size, under the drawn
   names and the next sequence number; everything else stays. A pending request changes nothing.
   */
  lemma AdmissionSaves(vm: Vm, r: Request, w: Witness, backend: Backend, free: u32,
                       artifact: Token, revision: Token, now: nat)
    requires Admission(vm, r, w, backend, free, artifact, revision, now).Ok?
    ensures var vm1 := Admission(vm, r, w, backend, free, artifact, revision, now).value;
            if vm.backup.pending.Some? then vm1 == vm
            else
              && vm1.backup.pending.Some?
              && vm1.backup.pending.value.request == r && vm1.backup.pending.value.error.None?
              && vm1.backup.pending.value.diskIdentity == w.diskIdentity
              && var g := vm1.backup.pending.value.artifact;
                 && g.id == artifact && g.backend == backend && g.rootBytes == w.rootBytes
                 && g.dependencies == w.dependencies && g.createdAt == now && g.identity.None?
                 && (g.restoreStaging <==> r.action == Restore)
                 && vm1.backup.revision == revision && vm1.backup.sequence == vm.backup.sequence + 1
                 && vm1 == vm.(backup := vm.backup.(pending := vm1.backup.pending, revision := vm1.backup.revision,
                                                    sequence := vm1.backup.sequence))
  {
  }

  /**
   What publication saves. A receipt is written for every success and for a failed creation, and
   carries the error exactly if the work failed; a failed restore or deletion stays pending with
   its error and leaves the last receipt alone.
   */
  lemma PublicationSaves(vm: Vm, r: Request, removed: seq<Token>, result: Result<Option<Generation>>, now: nat)
    requires Finished(vm, r, removed, result, now).Ok?
    ensures vm.backup.pending.Some? && vm.backup.pending.value.request == r
    ensures var s := vm.backup;
            var vm1 := Finished(vm, r, removed, result, now).value;
            var s1 := vm1.backup;
            && vm1 == vm.(backup := s1, ssh := vm1.ssh)
            && s1.revision == s.revision && s1.sequence == s.sequence
            && (s1.pending.None? <==> result.Ok? || r.action == Create)
            && (s1.pending.Some? ==>
                  && result.Err? && s1.pending.value.error == Some(result.error)
                  && s1 == s.(pending := s1.pending)
                  && s1.pending.value == s.pending.value.(error := s1.pending.value.error))
            && (s1.pending.None? ==>
                  && s1.lastResult.Some?
                  && s1.lastResult.value.request == r && s1.lastResult.value.completedAt == now
                  && (result.Ok? ==> s1.lastResult.value.error.None?)
                  && (result.Err? ==> s1.lastResult.value.error == Some(result.error)))
  {
  }

  /** Which generations a publication leaves, and that only a completed restore touches the SSH record. */
  lemma PublicationRetires(vm: Vm, r: Request, removed: seq<Token>, result: Result<Option<Generation>>, now: nat)
    requires Finished(vm, r, removed, result, now).Ok?
    ensures var s := vm.backup;
            var vm1 := Finished(vm, r, removed, result, now).value;
            var s1 := vm1.backup;
            match r.action
            case Create =>
              && vm1.ssh == vm.ssh
              && (result.Ok? ==>
                    && result.value.Some? && s1.current == result.value
                    && s1.retired == s.retired + (if s.current.Some? then [s.current.value] else []))
              && (result.Err? ==>
                    s1.current == s.current && s.pending.Some? && s1.retired == s.retired + [s.pending.value.artifact])
            case Restore =>
              && s1.current == s.current
              && (result.Err? ==> s1.retired == s.retired && vm1.ssh == vm.ssh)
              && (result.Ok? ==>
                    && (forall g :: g in s1.retired <==>
                          (g in s.retired && g.id !in removed) || result.value == Some(g))
                    && (vm.ssh.None? ==> vm1.ssh.None?)
                    && (vm.ssh.Some? ==>
                          && vm1.ssh.Some? && !vm1.ssh.value.initialized && !vm1.ssh.value.ready
                          && vm1.ssh.value.observing))
            case Delete =>
              && vm1.ssh == vm.ssh
              && (result.Ok? ==> s1.current.None? && s1.retired == [])
              && (result.Err? ==> s1.current == s.current && s1.retired == s.retired)
  {
  }

  /** Cleanup bookkeeping starts over exactly when a success leaves nothing retired. */
  lemma PublicationResetsCleanup(vm: Vm, r: Request, removed: seq<Token>, result: Result<Option<Generation>>, now: nat)
    requires Finished(vm, r, removed, result, now).Ok?
    ensures var s := vm.backup;
            var s1 := Finished(vm, r, removed, result, now).value.backup;
            if result.Ok? && s1.retired == [] then
              s1.cleanupError.None? && s1.cleanupRetryAt == 0 && s1.cleanupFailures == 0
            else
              && s1.cleanupError == s.cleanupError && s1.cleanupRetryAt == s.cleanupRetryAt
              && s1.cleanupFailures == s.cleanupFailures
  {
  }

  /** The pause before the next cleanup starts at 15 seconds and doubles with each failure, up to 960. */
  lemma PausesDouble(failures: nat)
    ensures Backoff(0) == 15
    ensures Backoff(failures + 1) == if failures < 6 then 2 * Backoff(failures) else 960
    ensures Backoff(failures) <= Backoff(failures + 1) <= 960
  {
  }

  /**
   What a cleanup pass saves: exactly the removed generations are forgotten; a failure is shown,
   counted and delays the next pass, a success clears all three. The current generation is never
   forgotten.
   */
  lemma CleanupSaves(vm: Vm, removed: seq<Token>, error: Option<Error>, now: nat)
    ensures CleanedUp(vm, removed, error, now).Err? <==>
              vm.backup.current.Some? && vm.backup.current.value.id in removed
    ensures CleanedUp(vm, removed, error, now).Ok? ==>
              var s := vm.backup;
              var vm1 := CleanedUp(vm, removed, error, now).value;
              var s1 := vm1.backup;
              && vm1 == vm.(backup := s.(retired := s1.retired, cleanupError := s1.cleanupError,
                                         cleanupFailures := s1.cleanupFailures, cleanupRetryAt := s1.cleanupRetryAt))
              && (forall g :: g in s1.retired <==> g in s.retired && g.id !in removed)
              && s1.cleanupError == error
              && (error.None? ==> s1.cleanupFailures == 0 && s1.cleanupRetryAt == 0)
              && (error.Some? ==>
                    && (s.cleanupFailures < U32_MAX ==> s1.cleanupFailures == s.cleanupFailures + 1)
                    && (now + 960 <= U64_MAX ==> s1.cleanupRetryAt == now + Backoff(s1.cleanupFailures)))
  {
  }

  /** Cleanup waits for the pending operation and for the pause to be over. */
  lemma CleanableExactly(vm: Vm, now: nat)
    ensures CleanupRefusal(vm, now).None? <==> vm.backup.pending.None? && vm.backup.cleanupRetryAt <= now
  {
  }

  /** Deletion of the VM drops the names of the artifacts and keeps the history. */
  lemma ForgettingKeepsHistory(vm: Vm)
    ensures var s1 := Forgotten(vm).backup;
            && s1.current.None? && s1.pending.None? && s1.retired == []
            && s1.lastResult == vm.backup.lastResult && s1.sequence == vm.backup.sequence
            && s1.revision == vm.backup.revision
            && Forgotten(vm) == vm.(backup := s1)
  {
  }

  /** Publication is refused exactly without the intent, for another request, or for a creation without artifact. */
  lemma PublishableExactly(vm: Vm, r: Request, removed: seq<Token>, result: Result<Option<Generation>>, now: nat)
    ensures Finished(vm, r, removed, result, now).Ok? <==>
              && vm.backup.pending.Some? && vm.backup.pending.value.request == r
              && (r.action == Create && result.Ok? ==> result.value.Some?)
  {
  }

  /**
   A published result is replayed, as the success or the failure that it was; a failed restore or
   deletion stays retryable.
   */
  lemma FinishedRequestIsReplayedOrRetried(vm: Vm, r: Request, removed: seq<Token>,
                                           result: Result<Option<Generation>>, now: nat)
    requires RecordInv(vm) && Finished(vm, r, removed, result, now).Ok?
    requires vm.backup.lastResult.Some? ==> vm.backup.lastResult.value.request.operationId != r.operationId
    ensures Check(Finished(vm, r, removed, result, now).value.backup, r)
            == Ok(result.Ok? || r.action == Create)
    ensures var last := Finished(vm, r, removed, result, now).value.backup.lastResult;
            match result
            case Ok(_) => last == Some(Receipt(r, now, None))
            case Err(e) => last == if r.action == Create then Some(Receipt(r, now, Some(e))) else vm.backup.lastResult
  {
  }
}
