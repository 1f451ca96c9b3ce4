/**
 Whole runs of the backup protocol of one VM: clients and reconciliation claim, inspect,
 admit, work, publish and release in any order; the agent may crash between any two
 durable steps, and a storage child may survive the crash with the worker lock; the VM is
 started, written to, stopped, resized, observed and finally destroyed in between.
 */
module BackupRun {
  import opened Model
  import opened BackupRecord
  import opened StorageModel

  /** The VM and the backend of its host, fixed for the run. */
  datatype Site = Site(vm: VmId, backend: Backend)

  /** The in-memory worker of the VM; anything but `Idle` is an entry in `backup_running`. */
  datatype Worker =
    | Idle
    | Claimed(request: Request)
    | Locked(request: Request, seen: Witness)
    | Working(vm: Vm)
    | Worked(request: Request, removed: seq<Token>, result: Result<Option<Generation>>)
    | CleanClaimed(vm: Vm)
    | CleanLocked(vm: Vm)
    | Cleaned(removed: seq<Token>, error: Option<Error>)
    | Done

  /** A storage child that outlived its agent and still holds the worker lock. */
  datatype Orphan = NoOrphan | Reader | Writer(vm: Vm) | Remover(gs: seq<Generation>)

  /** One durable admission, and what the active disk held at that moment. */
  datatype Admitted = Admitted(request: Request, artifact: Token, image: Image)

  datatype World = World(
    vm: Option<Vm>,
    store: Store,
    worker: Worker,
    orphan: Orphan,
    guest: bool,
    imageGone: bool,
    log: seq<Admitted>,
    made: map<Token, Image>,
    used: set<Token>)

  datatype Event =
    | Claim(request: Request, settings: Settings)
    | Inspect
    | GiveUp
    | Admit(free: u32, artifact: Token, revision: Token, now: nat)
    | Work(mid: Store, prepared: Result<seq<Token>>, removed: seq<Token>, result: Result<Option<Generation>>)
    | Finish(now: nat)
    | Release
    | Crash(survives: bool)
    | OrphanEnds(mid: Store, prepared: Result<seq<Token>>, removed: seq<Token>, result: Result<Option<Generation>>)
    | ClaimCleanup(now: nat)
    | LockCleanup
    | Clean(removed: seq<Token>, error: Option<Error>)
    | FinishCleanup(now: nat)
    | Lifecycle
    | Reconcile
    | GuestWrite
    | GuestStops
    | BootFilesChange
    | DestroyBegin
    | DestroyHalt
    | DestroyFault(fault: Fault)
    | DestroyPartly(survives: bool)
    | DestroyForget
    | DestroyImage
    | DestroyRow

  predicate HoldsLock(w: Worker) { w.Locked? || w.Working? || w.CleanLocked? }

  ghost function Ids(gs: seq<Generation>): set<Token> { set g | g in gs :: g.id }

  // ---- effects of the storage work of one worker ----

  /** Some of the artifacts of `gs` may be gone; nothing else changed and nothing appeared. */
  ghost predicate RemoveMany(s: Store, s1: Store, gs: seq<Generation>) {
    && s1.disk == s.disk && s1.dependencies == s.dependencies
    && Untouched(s, s1, Ids(gs))
    && (UniqueNames(s.snapshots) ==> UniqueNames(s1.snapshots))
    && forall b: Backend, id: Token :: At(b, s, id).None? ==> At(b, s1, id).None?
  }

  ghost predicate AllAbsent(b: Backend, s: Store, gs: seq<Generation>) {
    forall g :: g in gs ==> At(b, s, g.id).None?
  }

  /** What the storage work for the pending operation of `vm` may do, however it ends. */
  ghost predicate WorkEffect(c: Site, vm: Vm, s: Store, mid: Store, s1: Store, prepared: Result<seq<Token>>,
                             removed: seq<Token>, result: Result<Option<Generation>>)
    requires vm.backup.pending.Some?
  {
    var p := vm.backup.pending.value;
    match p.request.action
    case Create =>
      && mid == s && removed == []
      && (result.Ok? ==> result.value.Some?)
      && CreateEffect(c.vm, c.backend, s, s1, p, if result.Ok? then Ok(result.value.value) else Err(result.error))
    case Restore =>
      if vm.backup.current.None? then s1 == s && result.Err? && removed == []
      else
        var source := vm.backup.current.value;
        && PrepareEffect(c.vm, c.backend, s, mid, source, vm.backup.retired, prepared)
        && if prepared.Err? then s1 == mid && result.Err? && removed == []
           else
             && removed == (if result.Ok? then prepared.value else [])
             && var src := PieceImage(At(c.backend, mid, source.id));
                if src.None? then s1 == mid && result.Err?
                else RestoreEffect(c.vm, c.backend, mid, s1, p, source, src.value, result)
    case Delete =>
      && removed == []
      && RemoveMany(s, s1, Committed(vm.backup))
      && (result.Ok? ==> result.value.None? && AllAbsent(c.backend, s1, Committed(vm.backup)))
  }

  /** What one cleanup pass over the retired generations of `vm` may do. */
  ghost predicate CleanEffect(c: Site, vm: Vm, s: Store, s1: Store, removed: seq<Token>) {
    && RemoveMany(s, s1, vm.backup.retired)
    && forall id :: id in removed ==> id in Ids(vm.backup.retired) && At(c.backend, s1, id).None?
  }

  // ---- steps ----

  ghost predicate SameButBackupKept(vm: Vm, vm1: Vm) {
    && vm1.id == vm.id && vm1.backup == vm.backup
    && vm1.state != Deleting
  }

  /** The storage child that a crash can leave behind, by what the worker was doing. */
  function Survivor(w: Worker): Orphan {
    match w
    case Working(vm) => Writer(vm)
    case CleanLocked(vm) => if vm.backup.retired == [] then Reader else Remover(vm.backup.retired)
    case _ => Reader
  }

  /** Admission of a new request, or re-entry of the pending one. */
  ghost predicate AdmitStep(c: Site, w: World, free: u32, artifact: Token, revision: Token, now: nat, w1: World) {
    && w.vm.Some? && w.worker.Locked?
    && artifact !in w.used && revision !in w.used && artifact != revision
    && var r := w.worker.request;
       var a := Admission(w.vm.value, r, w.worker.seen, c.backend, free, artifact, revision, now);
       && a.Ok?
       && if w.vm.value.backup.pending.Some? then w1 == w.(worker := Working(a.value))
          else w1 == w.(vm := Some(a.value), worker := Working(a.value),
                        log := w.log + [Admitted(r, artifact, w.store.disk.image)],
                        made := w.made[artifact := w.store.disk.image],
                        used := w.used + {artifact, revision})
  }

  ghost predicate WorkStep(c: Site, w: World, mid: Store, prepared: Result<seq<Token>>, removed: seq<Token>,
                           result: Result<Option<Generation>>, w1: World)
  {
    && w.vm.Some? && w.worker.Working? && w.worker.vm.backup.pending.Some?
    && WorkEffect(c, w.worker.vm, w.store, mid, w1.store, prepared, removed, result)
    && w1 == w.(store := w1.store,
                worker := Worked(w.worker.vm.backup.pending.value.request, removed, result))
  }

  ghost predicate FinishStep(w: World, now: nat, w1: World) {
    && w.vm.Some? && w.worker.Worked?
    && var f := Finished(w.vm.value, w.worker.request, w.worker.removed, w.worker.result, now);
       && f.Ok?
       && w1 == w.(vm := Some(f.value), worker := Done)
  }

  /** A cleanup pass; without the lock it removes nothing. */
  ghost predicate CleanStep(c: Site, w: World, removed: seq<Token>, error: Option<Error>, w1: World) {
    if w.worker.CleanClaimed? then
      removed == [] && w1 == w.(worker := Cleaned([], error))
    else
      && w.worker.CleanLocked?
      && CleanEffect(c, w.worker.vm, w.store, w1.store, removed)
      && w1 == w.(store := w1.store, worker := Cleaned(removed, error))
  }

  ghost predicate FinishCleanupStep(w: World, now: nat, w1: World) {
    && w.vm.Some? && w.worker.Cleaned?
    && var f := CleanedUp(w.vm.value, w.worker.removed, w.worker.error, now);
       w1 == w.(vm := if f.Ok? then Some(f.value) else w.vm, worker := Done)
  }

  ghost predicate OrphanEffect(c: Site, w: World, mid: Store, prepared: Result<seq<Token>>, removed: seq<Token>,
                               result: Result<Option<Generation>>, s1: Store)
  {
    match w.orphan
    case Writer(vm) => vm.backup.pending.Some? && WorkEffect(c, vm, w.store, mid, s1, prepared, removed, result)
    case Remover(gs) => RemoveMany(w.store, s1, gs)
    case _ => s1 == w.store
  }

  /** A surviving storage child ends. */
  ghost predicate OrphanStep(c: Site, w: World, mid: Store, prepared: Result<seq<Token>>, removed: seq<Token>,
                             result: Result<Option<Generation>>, w1: World)
  {
    && !w.orphan.NoOrphan?
    && w1 == w.(store := w1.store, orphan := NoOrphan)
    && OrphanEffect(c, w, mid, prepared, removed, result, w1.store)
  }

  predicate ByWorker(e: Event) {
    e.Claim? || e.Inspect? || e.GiveUp? || e.Release? || e.Crash? || e.ClaimCleanup? || e.LockCleanup?
  }

  /** A worker comes and goes; nothing durable changes. */
  ghost predicate WorkerStep(w: World, e: Event, w1: World)
    requires ByWorker(e)
  {
    match e
    case Claim(r, settings) =>
      && w.vm.Some? && w.worker.Idle?
      && ClaimRefusal(w.vm.value, r, settings, !w.guest).None?
      && w1 == w.(worker := Claimed(r))
    case Inspect =>
      && w.vm.Some? && w.worker.Claimed? && w.orphan.NoOrphan?
      && w1 == w.(worker := Locked(w.worker.request, Observed(w.store)))
    case GiveUp =>
      && (w.worker.Claimed? || w.worker.Locked?)
      && w1 == w.(worker := Idle)
    case Release =>
      && w.worker.Done? && w1 == w.(worker := Idle)
    case Crash(survives) =>
      && w1 == w.(worker := Idle, orphan := w1.orphan)
      && w1.orphan ==
           if !survives || !HoldsLock(w.worker) then w.orphan
           else Survivor(w.worker)
    case ClaimCleanup(now) =>
      && w.vm.Some? && w.worker.Idle?
      && CleanupRefusal(w.vm.value, now).None?
      && w1 == w.(worker := CleanClaimed(w.vm.value))
    case LockCleanup =>
      && w.worker.CleanClaimed? && w.orphan.NoOrphan?
      && w1 == w.(worker := CleanLocked(w.worker.vm))
  }

  predicate ByOperation(e: Event) { e.Admit? || e.Work? || e.Finish? }

  /** Admission, storage work and publication. */
  ghost predicate OperationStep(c: Site, w: World, e: Event, w1: World)
    requires ByOperation(e)
  {
    match e
    case Admit(free, artifact, revision, now) => AdmitStep(c, w, free, artifact, revision, now, w1)
    case Work(mid, prepared, removed, result) => WorkStep(c, w, mid, prepared, removed, result, w1)
    case Finish(now) => FinishStep(w, now, w1)
  }

  predicate ByCleanup(e: Event) { e.OrphanEnds? || e.Clean? || e.FinishCleanup? }

  /** Cleanup, and the end of a storage child that outlived its agent. */
  ghost predicate CleanupStep(c: Site, w: World, e: Event, w1: World)
    requires ByCleanup(e)
  {
    match e
    case OrphanEnds(mid, prepared, removed, result) => OrphanStep(c, w, mid, prepared, removed, result, w1)
    case Clean(removed, error) => CleanStep(c, w, removed, error, w1)
    case FinishCleanup(now) => FinishCleanupStep(w, now, w1)
  }

  predicate ByDestruction(e: Event) {
    || e.DestroyBegin? || e.DestroyHalt? || e.DestroyFault? || e.DestroyPartly? || e.DestroyForget?
    || e.DestroyImage? || e.DestroyRow?
  }

  /** The record of a VM that is being deleted, while no worker holds it. */
  ghost predicate Doomed(w: World) {
    w.vm.Some? && w.worker.Idle? && w.vm.value.state == Deleting
  }

  /** Some artifacts are gone; the record still names all of them. */
  ghost predicate PartlyStep(w: World, survives: bool, w1: World) {
    && Doomed(w) && !w.guest && HasArtifacts(w.vm.value.backup) && w.orphan.NoOrphan?
    && RemoveMany(w.store, w1.store, Tracked(w.vm.value.backup))
    && w1 == w.(store := w1.store,
                orphan := if survives && Tracked(w.vm.value.backup) != [] then Remover(Tracked(w.vm.value.backup))
                          else NoOrphan)
  }

  /** `delete_backups` removed every artifact; the record is saved without them. */
  ghost predicate ForgetStep(c: Site, w: World, w1: World) {
    && Doomed(w) && !w.guest
    && (if HasArtifacts(w.vm.value.backup) then
          && w.orphan.NoOrphan?
          && RemoveMany(w.store, w1.store, Tracked(w.vm.value.backup))
          && AllAbsent(c.backend, w1.store, Tracked(w.vm.value.backup))
        else w1.store == w.store)
    && w1 == w.(store := w1.store, vm := Some(Forgotten(w.vm.value)))
  }

  /**
   Deletion: the intent is saved, the engine is stopped, the artifacts are removed and
   forgotten, and the image (if there is one) goes before the record.
   */
  ghost predicate DestructionStep(c: Site, w: World, e: Event, w1: World)
    requires ByDestruction(e)
  {
    match e
    case DestroyBegin =>
      && w.vm.Some? && w.worker.Idle?
      && w1 == w.(vm := Some(w.vm.value.(state := Deleting)))
    case DestroyHalt => Doomed(w) && w1 == w.(guest := false)
    case DestroyFault(fault) => Doomed(w) && w1 == w.(vm := Some(w.vm.value.(error := Some(fault))))
    case DestroyPartly(survives) => PartlyStep(w, survives, w1)
    case DestroyForget => ForgetStep(c, w, w1)
    case DestroyImage =>
      && Doomed(w) && !w.guest && w.vm.value == Forgotten(w.vm.value)
      && w1 == w.(imageGone := true)
    case DestroyRow =>
      && Doomed(w) && w.imageGone && w.vm.value == Forgotten(w.vm.value)
      && w1 == w.(vm := None)
  }

  /** Everything else: lifecycle operations, observations, the running guest, boot files. */
  ghost predicate OutsideStep(w: World, e: Event, w1: World)
    requires !ByWorker(e) && !ByOperation(e) && !ByCleanup(e) && !ByDestruction(e)
  {
    match e
    case Lifecycle =>
      && w.vm.Some? && w1.vm.Some?
      && w.worker.Idle? && !Busy(w.vm.value.backup) && w.vm.value.state != Deleting
      && SameButBackupKept(w.vm.value, w1.vm.value)
      && (HasArtifacts(w.vm.value.backup) ==> RootMib(w1.vm.value) == RootMib(w.vm.value))
      && w1 == w.(vm := w1.vm, guest := w1.guest, store := w.store.(disk := w1.store.disk))
    case Reconcile =>
      && w.vm.Some? && w1.vm.Some? && w.vm.value.state != Deleting
      && SameButBackupKept(w.vm.value, w1.vm.value)
      && RootMib(w1.vm.value) == RootMib(w.vm.value)
      && w1.vm.value.pendingResources == w.vm.value.pendingResources
      && w1 == w.(vm := w1.vm)
    case GuestWrite =>
      && w.guest
      && w1 == w.(store := w.store.(disk := w.store.disk.(image := w1.store.disk.image)))
    case GuestStops => w1 == w.(guest := false)
    case BootFilesChange =>
      && w1 == w.(store := w.store.(dependencies := w1.store.dependencies))
  }

  ghost predicate Step(c: Site, w: World, e: Event, w1: World) {
    if ByWorker(e) then WorkerStep(w, e, w1)
    else if ByOperation(e) then OperationStep(c, w, e, w1)
    else if ByCleanup(e) then CleanupStep(c, w, e, w1)
    else if ByDestruction(e) then DestructionStep(c, w, e, w1)
    else OutsideStep(w, e, w1)
  }

  /** A new VM: no backups, no artifacts, one revision in use. */
  ghost predicate Init(c: Site, w: World) {
    && w.vm.Some?
    && w.vm.value.id == c.vm
    && w.vm.value.backup == NoBackups(w.vm.value.backup.revision)
    && w.vm.value.state != Deleting
    && w.worker.Idle? && w.orphan.NoOrphan? && !w.imageGone
    && w.log == [] && w.made == map[]
    && w.vm.value.backup.revision in w.used
    && UniqueNames(w.store.snapshots)
    && forall b: Backend, id: Token :: At(b, w.store, id).None?
  }

  /** A run: worlds linked by events, starting with a new VM. */
  ghost predicate Run(c: Site, ws: seq<World>, es: seq<Event>) {
    && |ws| == |es| + 1
    && Init(c, ws[0])
    && forall i {:trigger Linked(c, ws, es, i)} :: 0 <= i < |es| ==> Linked(c, ws, es, i)
  }

  ghost predicate Linked(c: Site, ws: seq<World>, es: seq<Event>, i: int)
    requires 0 <= i < |es| < |ws|
  {
    Step(c, ws[i], es[i], ws[i + 1])
  }

  lemma RunExtends(c: Site, ws: seq<World>, es: seq<Event>, e: Event, w: World)
    requires Run(c, ws, es) && Step(c, ws[|ws| - 1], e, w)
    ensures Run(c, ws + [w], es + [e])
  {
    var ws1 := ws + [w];
    var es1 := es + [e];
    forall i | 0 <= i < |es1| ensures Linked(c, ws1, es1, i) {
      if i < |es| { assert Linked(c, ws, es, i); }
    }
  }

  // ---- the invariant ----

  ghost predicate DeletePending(vm: Vm) {
    vm.backup.pending.Some? && vm.backup.pending.value.request.action == Delete
  }

  /** Every artifact on storage belongs to one of the generations `gs`. */
  ghost predicate TrackedBy(c: Site, s: Store, gs: seq<Generation>) {
    && UniqueNames(s.snapshots)
    && (forall id: Token :: At(OtherBackend(c.backend), s, id).None?)
    && forall id: Token :: At(c.backend, s, id).Some? ==> id in Ids(gs)
  }

  function AllTracked(vm: Option<Vm>): seq<Generation> {
    if vm.Some? then Tracked(vm.value.backup) else []
  }

  /** Every artifact on storage is tracked. */
  ghost predicate Tracking(c: Site, store: Store, vm: Option<Vm>) { TrackedBy(c, store, AllTracked(vm)) }

  ghost predicate RecordOf(c: Site, vm: Vm, used: set<Token>) {
    && vm.id == c.vm
    && RecordInv(vm)
    && vm.backup.revision in used
    && (forall g :: g in Tracked(vm.backup) ==> g.backend == c.backend && g.id in used)
    && (vm.backup.current.Some? ==> vm.backup.current.value.identity.Some?)
  }

  ghost predicate Records(c: Site, vm: Option<Vm>, used: set<Token>) { vm.Some? ==> RecordOf(c, vm.value, used) }

  ghost predicate LastIs(log: seq<Admitted>, back: nat, r: Request) {
    |log| > back && log[|log| - 1 - back].request == r
  }

  /** Logged revisions and artifacts are in use, and no revision is logged twice. */
  ghost predicate Logged(log: seq<Admitted>, made: map<Token, Image>, used: set<Token>) {
    && (forall i :: 0 <= i < |log| ==> log[i].request.expectedRevision in used)
    && (forall i :: 0 <= i < |log| ==> log[i].artifact in made && made[log[i].artifact] == log[i].image)
    && (forall i, j :: 0 <= i < j < |log| ==> log[i].request.expectedRevision != log[j].request.expectedRevision)
    && (forall id :: id in made ==> id in used)
  }

  /** The log and the record tell the same story. */
  ghost predicate Told(vm: Vm, log: seq<Admitted>) {
    var s := vm.backup;
    && s.sequence == |log|
    && (forall i :: 0 <= i < |log| ==> log[i].request.expectedRevision != s.revision)
    && (s.pending.Some? ==>
          && LastIs(log, 0, s.pending.value.request)
          && log[|log| - 1].artifact == s.pending.value.artifact.id
          && (s.lastResult.Some? ==> LastIs(log, 1, s.lastResult.value.request))
          && (s.lastResult.None? ==> |log| == 1))
    && (s.pending.None? && vm.state != Deleting ==>
          && (s.lastResult.Some? ==> LastIs(log, 0, s.lastResult.value.request))
          && (s.lastResult.None? ==> log == []))
  }

  ghost predicate Admissions(vm: Option<Vm>, log: seq<Admitted>, made: map<Token, Image>, used: set<Token>) {
    && Logged(log, made, used)
    && (vm.Some? ==> Told(vm.value, log))
  }

  /** The current generation was created by a logged creation. */
  ghost predicate MadeByCreation(log: seq<Admitted>, id: Token) {
    exists i :: 0 <= i < |log| && log[i].artifact == id && log[i].request.action == Create
  }

  ghost predicate PublishedFaithfully(c: Site, store: Store, log: seq<Admitted>, made: map<Token, Image>, g: Generation) {
    && g.id in made
    && made[g.id].bytes == g.rootBytes
    && MadeByCreation(log, g.id)
    && Published(c.vm, At(c.backend, store, g.id), g, made[g.id])
  }

  ghost predicate PendingFaithful(c: Site, vm: Vm, p: Pending, store: Store, made: map<Token, Image>) {
    && p.artifact.id in made
    && made[p.artifact.id].bytes == p.artifact.rootBytes
    && var piece := At(c.backend, store, p.artifact.id);
       match p.request.action
       case Create =>
         && store.disk.image == made[p.artifact.id]
         && store.disk.identity == p.diskIdentity
         && StagedCreate(c.vm, c.backend, piece, p, store.disk.image)
       case Restore =>
         && vm.backup.current.Some?
         && vm.backup.current.value.id in made
         && vm.backup.current.value.rootBytes == p.artifact.rootBytes
         && vm.backup.current.value.dependencies == p.artifact.dependencies
         && StagedRestore(c.vm, c.backend, piece, store.disk, p, made[vm.backup.current.value.id])
         && (store.disk.image == made[p.artifact.id] || store.disk.image == made[vm.backup.current.value.id])
       case Delete => piece.None?
  }

  /** What storage holds for the record of a VM that is not being deleted. */
  ghost predicate Faithful(c: Site, vm: Vm, store: Store, guest: bool, log: seq<Admitted>, made: map<Token, Image>) {
    && (vm.backup.current.Some? && !DeletePending(vm) ==>
          PublishedFaithfully(c, store, log, made, vm.backup.current.value))
    && (vm.backup.pending.Some? ==> !guest && PendingFaithful(c, vm, vm.backup.pending.value, store, made))
  }

  ghost predicate Contents(c: Site, vm: Option<Vm>, store: Store, guest: bool, log: seq<Admitted>,
                           made: map<Token, Image>)
  {
    vm.Some? && vm.value.state != Deleting ==> Faithful(c, vm.value, store, guest, log, made)
  }

  ghost predicate ResultFaithful(c: Site, vm: Vm, p: Pending, store: Store, made: map<Token, Image>,
                                 removed: seq<Token>, result: Result<Option<Generation>>)
  {
    && Fulfils(p, result)
    && (result.Err? ==> removed == [])
    && (forall id :: id in removed ==> At(c.backend, store, id).None?)
    && (result.Ok? ==>
          match p.request.action
          case Create =>
            Published(c.vm, At(c.backend, store, p.artifact.id), result.value.value, store.disk.image)
          case Restore =>
            && vm.backup.current.Some? && vm.backup.current.value.id in made
            && store.disk.image == made[vm.backup.current.value.id]
            && (c.backend == Reflink ==> result.value.Some?)
          case Delete => AllAbsent(c.backend, store, Committed(vm.backup)))
  }

  /** What a worker may rely on between its steps. */
  ghost predicate Workers(c: Site, w: World) {
    match w.worker
    case Idle => true
    case Done => true
    case Claimed(r) => w.vm.Some? && w.vm.value.state != Deleting && !w.guest
    case Locked(r, seen) =>
      && w.vm.Some? && w.vm.value.state != Deleting && !w.guest
      && seen.diskIdentity == w.store.disk.identity && seen.rootBytes == w.store.disk.image.bytes
    case Working(v) =>
      && w.vm.Some? && w.vm.value.state != Deleting
      && v.backup == w.vm.value.backup && v.backup.pending.Some?
    case Worked(r, removed, result) =>
      && w.vm.Some? && w.vm.value.state != Deleting
      && w.vm.value.backup.pending.Some? && w.vm.value.backup.pending.value.request == r
      && ResultFaithful(c, w.vm.value, w.vm.value.backup.pending.value, w.store, w.made, removed, result)
    case CleanClaimed(v) => w.vm.Some? && v.backup == w.vm.value.backup && v.backup.pending.None?
    case CleanLocked(v) => w.vm.Some? && v.backup == w.vm.value.backup && v.backup.pending.None?
    case Cleaned(removed, error) =>
      && w.vm.Some? && w.vm.value.backup.pending.None?
      && forall id :: id in removed ==> id in Ids(w.vm.value.backup.retired) && At(c.backend, w.store, id).None?
  }

  /** What a surviving storage child may still touch. */
  ghost predicate Orphans(orphan: Orphan, worker: Worker, vm: Option<Vm>) {
    && (!orphan.NoOrphan? ==>
          !HoldsLock(worker) && !worker.Worked? && (worker.Cleaned? ==> worker.removed == []))
    && match orphan
       case Writer(v) => vm.Some? && v.backup == vm.value.backup && v.backup.pending.Some?
       case Remover(gs) =>
         && gs != [] && vm.Some?
         && ((gs == vm.value.backup.retired && vm.value.backup.pending.None?)
             || (vm.value.state == Deleting && gs == Tracked(vm.value.backup)))
       case _ => true
  }

  ghost predicate Inv(c: Site, w: World) {
    match w
    case World(vm, store, worker, orphan, guest, _, log, made, used) =>
      && Tracking(c, store, vm)
      && Records(c, vm, used)
      && Admissions(vm, log, made, used)
      && Contents(c, vm, store, guest, log, made)
      && Workers(c, w)
      && Orphans(orphan, worker, vm)
  }

  // ---- the invariant is kept by every step ----

  lemma InitHolds(c: Site, w: World)
    requires Init(c, w)
    ensures Inv(c, w)
  {
    assert Tracked(w.vm.value.backup) == [];
  }

  // ---- workers that come and go ----

  lemma WorkerStaysInformed(c: Site, w: World, e: Event, w1: World)
    requires Workers(c, w) && Orphans(w.orphan, w.worker, w.vm) && ByWorker(e) && WorkerStep(w, e, w1)
    ensures Workers(c, w1) && Orphans(w1.orphan, w1.worker, w1.vm)
  {
  }

  lemma WorkerStepKeeps(c: Site, w: World, e: Event, w1: World)
    requires Inv(c, w) && ByWorker(e) && WorkerStep(w, e, w1)
    ensures Inv(c, w1)
  {
    WorkerStaysInformed(c, w, e, w1);
  }

  // ---- events outside the backup workers ----

  lemma LifecycleRecord(c: Site, vm: Vm, vm1: Vm, used: set<Token>)
    requires RecordOf(c, vm, used)
    requires SameButBackupKept(vm, vm1)
    requires HasArtifacts(vm.backup) ==> RootMib(vm1) == RootMib(vm)
    requires vm1.pendingResources.Some? ==> vm.backup.pending.None?
    ensures RecordOf(c, vm1, used)
  {
  }

  lemma SameArtifacts(c: Site, s: Store, s1: Store, vm: Option<Vm>)
    requires Tracking(c, s, vm)
    requires s1.snapshots == s.snapshots && s1.directories == s.directories
    ensures Tracking(c, s1, vm)
    ensures forall b: Backend, id: Token :: At(b, s1, id) == At(b, s, id)
  {
    assert forall b: Backend, id: Token :: At(b, s1, id) == At(b, s, id);
  }

  lemma LifecycleKeeps(c: Site, w: World, e: Event, w1: World)
    requires Inv(c, w) && e.Lifecycle? && OutsideStep(w, e, w1)
    ensures Inv(c, w1)
  {
    LifecycleRecord(c, w.vm.value, w1.vm.value, w.used);
    SameArtifacts(c, w.store, w1.store, w.vm);
  }

  lemma ReconcileKeeps(c: Site, w: World, e: Event, w1: World)
    requires Inv(c, w) && e.Reconcile? && OutsideStep(w, e, w1)
    ensures Inv(c, w1)
  {
    LifecycleRecord(c, w.vm.value, w1.vm.value, w.used);
  }

  lemma GuestWriteKeeps(c: Site, w: World, e: Event, w1: World)
    requires Inv(c, w) && e.GuestWrite? && OutsideStep(w, e, w1)
    ensures Inv(c, w1)
  {
    SameArtifacts(c, w.store, w1.store, w.vm);
  }

  lemma BootFilesChangeKeeps(c: Site, w: World, e: Event, w1: World)
    requires Inv(c, w) && e.BootFilesChange? && OutsideStep(w, e, w1)
    ensures Inv(c, w1)
  {
    SameArtifacts(c, w.store, w1.store, w.vm);
  }

  lemma OutsideStepKeeps(c: Site, w: World, e: Event, w1: World)
    requires !ByWorker(e) && !ByOperation(e) && !ByCleanup(e) && !ByDestruction(e)
    requires Inv(c, w) && OutsideStep(w, e, w1)
    ensures Inv(c, w1)
  {
    match e
    case Lifecycle => LifecycleKeeps(c, w, e, w1);
    case Reconcile => ReconcileKeeps(c, w, e, w1);
    case GuestWrite => GuestWriteKeeps(c, w, e, w1);
    case GuestStops =>
    case BootFilesChange => BootFilesChangeKeeps(c, w, e, w1);
  }

  // ---- storage work ----

  /** Where the tracked names of a record come from. */
  lemma TrackedIds(vm: Vm)
    ensures Ids(Tracked(vm.backup)) ==
            Ids(Committed(vm.backup))
            + (if vm.backup.pending.Some? then {vm.backup.pending.value.artifact.id} else {})
    ensures Ids(Committed(vm.backup)) ==
            Ids(vm.backup.retired) + (if vm.backup.current.Some? then {vm.backup.current.value.id} else {})
    ensures RecordInv(vm) && vm.backup.pending.Some? ==> vm.backup.pending.value.artifact.id !in Ids(Committed(vm.backup))
    ensures RecordInv(vm) && vm.backup.current.Some? ==> vm.backup.current.value.id !in Ids(vm.backup.retired)
  {
    PendingIsTracked(vm.backup);
    if RecordInv(vm) { TrackedParts(vm.backup); }
  }

  /** Storage work for the pending operation of `vm` keeps storage tracked and faithful, whatever it returns. */
  ghost predicate WorkKept(c: Site, w: World, s1: Store, removed: seq<Token>, result: Result<Option<Generation>>)
    requires w.vm.Some? && w.vm.value.backup.pending.Some?
  {
    && Tracking(c, s1, w.vm)
    && Contents(c, w.vm, s1, w.guest, w.log, w.made)
    && (w.vm.value.state != Deleting ==>
          ResultFaithful(c, w.vm.value, w.vm.value.backup.pending.value, s1, w.made, removed, result))
  }

  ghost predicate Stored(c: Site, w: World) {
    && Tracking(c, w.store, w.vm) && Records(c, w.vm, w.used)
    && Contents(c, w.vm, w.store, w.guest, w.log, w.made)
  }

  lemma CreateEffectKeeps(c: Site, w: World, v: Vm, mid: Store, s1: Store, prepared: Result<seq<Token>>,
                          removed: seq<Token>, result: Result<Option<Generation>>)
    requires Stored(c, w) && w.vm.Some? && v.backup == w.vm.value.backup && v.backup.pending.Some?
    requires v.backup.pending.value.request.action == Create
    requires WorkEffect(c, v, w.store, mid, s1, prepared, removed, result)
    ensures WorkKept(c, w, s1, removed, result)
  {
    TrackedIds(w.vm.value);
  }

  /** Preparation of a rollback only loses retired artifacts. */
  lemma PreparationKeeps(c: Site, w: World, mid: Store, source: Generation, prepared: Result<seq<Token>>)
    requires Stored(c, w) && w.vm.Some?
    requires PrepareEffect(c.vm, c.backend, w.store, mid, source, w.vm.value.backup.retired, prepared)
    ensures Tracking(c, mid, w.vm) && Contents(c, w.vm, mid, w.guest, w.log, w.made)
    ensures prepared.Ok? ==> forall id :: id in prepared.value ==> At(c.backend, mid, id).None?
    ensures UniqueNames(mid.snapshots)
  {
    TrackedIds(w.vm.value);
    PrepareLosesOnlyRetired(c.vm, c.backend, w.store, mid, source, w.vm.value.backup.retired, prepared);
  }

  /** The restore itself touches nothing but the active disk and its own staging artifact. */
  lemma SwapKeeps(c: Site, w: World, s1: Store, src: Image, removed: seq<Token>, result: Result<Option<Generation>>)
    requires Stored(c, w) && w.vm.Some? && w.vm.value.backup.pending.Some? && w.vm.value.backup.current.Some?
    requires w.vm.value.backup.pending.value.request.action == Restore
    requires PieceImage(At(c.backend, w.store, w.vm.value.backup.current.value.id)) == Some(src)
    requires RestoreEffect(c.vm, c.backend, w.store, s1, w.vm.value.backup.pending.value,
                           w.vm.value.backup.current.value, src, result)
    requires forall id :: id in removed ==>
               At(c.backend, w.store, id).None? && id != w.vm.value.backup.pending.value.artifact.id
    requires result.Err? ==> removed == []
    ensures WorkKept(c, w, s1, removed, result)
  {
    TrackedIds(w.vm.value);
  }

  /** The names that preparation removes are retired, so none is the staging artifact. */
  lemma PreparedAreRetired(c: Site, w: World, mid: Store, source: Generation, names: seq<Token>)
    requires Stored(c, w) && w.vm.Some? && w.vm.value.backup.pending.Some?
    requires PrepareEffect(c.vm, c.backend, w.store, mid, source, w.vm.value.backup.retired, Ok(names))
    ensures forall id :: id in names ==> id != w.vm.value.backup.pending.value.artifact.id
  {
    TrackedIds(w.vm.value);
    if c.backend == Snapshot {
      var i := Position(w.store.snapshots, Ours(source.id));
      forall id | id in names ensures id in Ids(w.vm.value.backup.retired) {
        var k :| 0 <= k < |names| && names[k] == id;
        assert w.store.snapshots[i + 1 + k].name == Ours(id);
        assert Expendable(c.vm, w.store.snapshots[i + 1 + k], w.vm.value.backup.retired);
      }
    }
  }

  lemma RestoreEffectKeeps(c: Site, w: World, v: Vm, mid: Store, s1: Store, prepared: Result<seq<Token>>,
                           removed: seq<Token>, result: Result<Option<Generation>>)
    requires Stored(c, w) && w.vm.Some? && v.backup == w.vm.value.backup && v.backup.pending.Some?
    requires v.backup.pending.value.request.action == Restore
    requires WorkEffect(c, v, w.store, mid, s1, prepared, removed, result)
    ensures WorkKept(c, w, s1, removed, result)
  {
    if v.backup.current.Some? {
      var source := v.backup.current.value;
      PreparationKeeps(c, w, mid, source, prepared);
      var src := PieceImage(At(c.backend, mid, source.id));
      if prepared.Ok? && src.Some? {
        PreparedAreRetired(c, w, mid, source, prepared.value);
        SwapKeeps(c, w.(store := mid), s1, src.value, removed, result);
      }
    }
  }

  lemma DeleteEffectKeeps(c: Site, w: World, v: Vm, mid: Store, s1: Store, prepared: Result<seq<Token>>,
                          removed: seq<Token>, result: Result<Option<Generation>>)
    requires Stored(c, w) && w.vm.Some? && v.backup == w.vm.value.backup && v.backup.pending.Some?
    requires v.backup.pending.value.request.action == Delete
    requires WorkEffect(c, v, w.store, mid, s1, prepared, removed, result)
    ensures WorkKept(c, w, s1, removed, result)
  {
  }

  lemma WorkEffectKeeps(c: Site, w: World, v: Vm, mid: Store, s1: Store, prepared: Result<seq<Token>>,
                        removed: seq<Token>, result: Result<Option<Generation>>)
    requires Stored(c, w) && w.vm.Some? && v.backup == w.vm.value.backup && v.backup.pending.Some?
    requires WorkEffect(c, v, w.store, mid, s1, prepared, removed, result)
    ensures WorkKept(c, w, s1, removed, result)
  {
    match v.backup.pending.value.request.action
    case Create => CreateEffectKeeps(c, w, v, mid, s1, prepared, removed, result);
    case Restore => RestoreEffectKeeps(c, w, v, mid, s1, prepared, removed, result);
    case Delete => DeleteEffectKeeps(c, w, v, mid, s1, prepared, removed, result);
  }

  /** Complete or interrupted storage work keeps the invariant. */
  lemma WorkKeeps(c: Site, w: World, mid: Store, prepared: Result<seq<Token>>, removed: seq<Token>,
                  result: Result<Option<Generation>>, w1: World)
    requires Inv(c, w) && WorkStep(c, w, mid, prepared, removed, result, w1)
    ensures Inv(c, w1)
  {
    WorkEffectKeeps(c, w, w.worker.vm, mid, w1.store, prepared, removed, result);
  }

  // ---- admission ----

  ghost predicate Admits(c: Site, w: World, free: u32, artifact: Token, revision: Token, now: nat, w1: World) {
    AdmitStep(c, w, free, artifact, revision, now, w1) && w.vm.value.backup.pending.None?
  }

  lemma AdmissionRecord(c: Site, vm: Vm, used: set<Token>, r: Request, seen: Witness, free: u32,
                        artifact: Token, revision: Token, now: nat)
    requires RecordOf(c, vm, used) && vm.backup.pending.None?
    requires artifact !in used
    requires Admission(vm, r, seen, c.backend, free, artifact, revision, now).Ok?
    ensures var vm1 := Admission(vm, r, seen, c.backend, free, artifact, revision, now).value;
            && RecordOf(c, vm1, used + {artifact, revision})
            && Tracked(vm1.backup) == Tracked(vm.backup) + [vm1.backup.pending.value.artifact]
  {
    AdmissionKeepsRecord(vm, r, seen, c.backend, free, artifact, revision, now);
  }

  lemma TrackingGrows(c: Site, s: Store, gs: seq<Generation>, g: Generation)
    requires TrackedBy(c, s, gs)
    ensures TrackedBy(c, s, gs + [g])
  {
  }

  lemma AdmitRecords(c: Site, w: World, free: u32, artifact: Token, revision: Token, now: nat, w1: World)
    requires Admits(c, w, free, artifact, revision, now, w1)
    requires Tracking(c, w.store, w.vm) && Records(c, w.vm, w.used)
    ensures Tracking(c, w1.store, w1.vm) && Records(c, w1.vm, w1.used)
    ensures At(c.backend, w.store, artifact).None?
  {
    var vm := w.vm.value;
    AdmissionRecord(c, vm, w.used, w.worker.request, w.worker.seen, free, artifact, revision, now);
    TrackingGrows(c, w.store, Tracked(vm.backup), w1.vm.value.backup.pending.value.artifact);
  }

  lemma AdmitAdmissions(c: Site, w: World, free: u32, artifact: Token, revision: Token, now: nat, w1: World)
    requires Admits(c, w, free, artifact, revision, now, w1)
    requires Records(c, w.vm, w.used) && Admissions(w.vm, w.log, w.made, w.used)
    requires w.vm.value.state != Deleting
    ensures Admissions(w1.vm, w1.log, w1.made, w1.used)
  {
  }

  /** A logged creation stays logged, and what it made stays known. */
  lemma StillMade(log: seq<Admitted>, entry: Admitted, id: Token)
    requires MadeByCreation(log, id)
    ensures MadeByCreation(log + [entry], id)
  {
    var i :| 0 <= i < |log| && log[i].artifact == id && log[i].request.action == Create;
    assert (log + [entry])[i] == log[i];
  }

  lemma AdmitContents(c: Site, w: World, free: u32, artifact: Token, revision: Token, now: nat, w1: World)
    requires Admits(c, w, free, artifact, revision, now, w1)
    requires Records(c, w.vm, w.used) && Contents(c, w.vm, w.store, w.guest, w.log, w.made) && Workers(c, w)
    requires At(c.backend, w.store, artifact).None?
    ensures Contents(c, w1.vm, w1.store, w1.guest, w1.log, w1.made)
  {
    var vm := w.vm.value;
    if vm.backup.current.Some? {
      StillMade(w.log, w1.log[|w.log|], vm.backup.current.value.id);
      assert PublishedFaithfully(c, w1.store, w1.log, w1.made, vm.backup.current.value);
    }
  }

  /** Durable admission keeps the invariant. */
  lemma AdmitKeeps(c: Site, w: World, free: u32, artifact: Token, revision: Token, now: nat, w1: World)
    requires Inv(c, w) && AdmitStep(c, w, free, artifact, revision, now, w1)
    ensures Inv(c, w1)
  {
    if w.vm.value.backup.pending.None? {
      AdmitRecords(c, w, free, artifact, revision, now, w1);
      AdmitAdmissions(c, w, free, artifact, revision, now, w1);
      AdmitContents(c, w, free, artifact, revision, now, w1);
    }
  }

  // ---- publication ----

  lemma FinishRecord(c: Site, vm: Vm, used: set<Token>, r: Request, removed: seq<Token>,
                     result: Result<Option<Generation>>, now: nat)
    requires RecordOf(c, vm, used)
    requires vm.backup.pending.Some? && Fulfils(vm.backup.pending.value, result)
    requires result.Ok? && r.action == Create ==> result.value.Some? && result.value.value.identity.Some?
    requires Finished(vm, r, removed, result, now).Ok?
    ensures RecordOf(c, Finished(vm, r, removed, result, now).value, used)
  {
    FinishKeepsRecord(vm, r, removed, result, now);
    FinishOrigins(vm, r, removed, result, now);
    PendingIsTracked(vm.backup);
  }

  /** Names may be forgotten once their artifacts are gone. */
  lemma TrackingShrinks(c: Site, s: Store, gs: seq<Generation>, gs1: seq<Generation>)
    requires TrackedBy(c, s, gs)
    requires forall g :: g in gs ==> At(c.backend, s, g.id).None? || exists h :: h in gs1 && h.id == g.id
    ensures TrackedBy(c, s, gs1)
  {
  }

  lemma FinishTracking(c: Site, w: World, now: nat, w1: World)
    requires FinishStep(w, now, w1) && Tracking(c, w.store, w.vm) && Records(c, w.vm, w.used) && Workers(c, w)
    requires Contents(c, w.vm, w.store, w.guest, w.log, w.made)
    ensures Tracking(c, w1.store, w1.vm)
  {
    var vm := w.vm.value;
    forall g | g in Tracked(vm.backup)
      ensures At(c.backend, w.store, g.id).None? || exists h :: h in Tracked(w1.vm.value.backup) && h.id == g.id
    {
      FinishForgets(vm, w.worker.request, w.worker.removed, w.worker.result, now, g);
      PendingIsTracked(vm.backup);
    }
    TrackingShrinks(c, w.store, Tracked(vm.backup), Tracked(w1.vm.value.backup));
  }

  lemma FinishAdmissions(c: Site, w: World, now: nat, w1: World)
    requires FinishStep(w, now, w1) && Workers(c, w) && Admissions(w.vm, w.log, w.made, w.used)
    ensures Admissions(w1.vm, w1.log, w1.made, w1.used)
  {
    assert Told(w1.vm.value, w1.log);
  }

  lemma FinishContents(c: Site, w: World, now: nat, w1: World)
    requires FinishStep(w, now, w1) && Workers(c, w) && Admissions(w.vm, w.log, w.made, w.used)
    requires Contents(c, w.vm, w.store, w.guest, w.log, w.made)
    ensures Contents(c, w1.vm, w1.store, w1.guest, w1.log, w1.made)
  {
    var p := w.vm.value.backup.pending.value;
    if w.worker.result.Ok? && w.worker.request.action == Create {
      assert w1.log[|w1.log| - 1].artifact == p.artifact.id;
      assert MadeByCreation(w1.log, p.artifact.id);
    }
  }

  /** Publication keeps the invariant, whatever the result. */
  lemma FinishKeeps(c: Site, w: World, now: nat, w1: World)
    requires Inv(c, w) && FinishStep(w, now, w1)
    ensures Inv(c, w1)
  {
    FinishRecord(c, w.vm.value, w.used, w.worker.request, w.worker.removed, w.worker.result, now);
    FinishTracking(c, w, now, w1);
    FinishAdmissions(c, w, now, w1);
    FinishContents(c, w, now, w1);
  }

  // ---- orphans and cleanup ----

  /** Losing artifacts that are neither current nor pending leaves what must be kept. */
  lemma RemovalKeeps(c: Site, w: World, s1: Store, gs: seq<Generation>)
    requires Stored(c, w) && w.vm.Some? && RemoveMany(w.store, s1, gs)
    requires w.vm.value.state == Deleting || gs == w.vm.value.backup.retired
    ensures Tracking(c, s1, w.vm) && Contents(c, w.vm, s1, w.guest, w.log, w.made)
  {
    TrackedIds(w.vm.value);
  }

  /** Removals do not disturb workers that neither inspected nor finished. */
  lemma RemovalKeepsWorkers(c: Site, w: World, s1: Store, gs: seq<Generation>)
    requires Workers(c, w) && RemoveMany(w.store, s1, gs) && !w.worker.Worked? && !w.worker.Locked?
    ensures Workers(c, w.(store := s1))
  {
  }

  lemma WriterEndsKeeps(c: Site, w: World, v: Vm, mid: Store, prepared: Result<seq<Token>>, removed: seq<Token>,
                        result: Result<Option<Generation>>, w1: World)
    requires Inv(c, w) && w.orphan == Writer(v)
    requires OrphanStep(c, w, mid, prepared, removed, result, w1)
    ensures Inv(c, w1)
  {
    WorkEffectKeeps(c, w, v, mid, w1.store, prepared, removed, result);
  }

  lemma RemoverEndsKeeps(c: Site, w: World, gs: seq<Generation>, mid: Store, prepared: Result<seq<Token>>,
                         removed: seq<Token>, result: Result<Option<Generation>>, w1: World)
    requires Inv(c, w) && w.orphan == Remover(gs)
    requires OrphanStep(c, w, mid, prepared, removed, result, w1)
    ensures Inv(c, w1)
  {
    RemovalKeeps(c, w, w1.store, gs);
    RemovalKeepsWorkers(c, w, w1.store, gs);
  }

  /** A surviving storage child may end at any time. */
  lemma OrphanEndsKeeps(c: Site, w: World, mid: Store, prepared: Result<seq<Token>>, removed: seq<Token>,
                        result: Result<Option<Generation>>, w1: World)
    requires Inv(c, w) && OrphanStep(c, w, mid, prepared, removed, result, w1)
    ensures Inv(c, w1)
  {
    match w.orphan
    case Writer(v) => WriterEndsKeeps(c, w, v, mid, prepared, removed, result, w1);
    case Remover(gs) => RemoverEndsKeeps(c, w, gs, mid, prepared, removed, result, w1);
    case _ =>
  }

  lemma CleanKeeps(c: Site, w: World, removed: seq<Token>, error: Option<Error>, w1: World)
    requires Inv(c, w) && CleanStep(c, w, removed, error, w1)
    ensures Inv(c, w1)
  {
    if w.worker.CleanLocked? { RemovalKeeps(c, w, w1.store, w.vm.value.backup.retired); }
  }

  /** Nothing is dropped if nothing was removed. */
  lemma {:induction false} RetainNothing(gs: seq<Generation>)
    ensures Retain(gs, []) == gs
    decreases |gs|
  {
    if gs != [] { RetainNothing(gs[1..]); }
  }

  lemma CleanupRecord(c: Site, vm: Vm, used: set<Token>, removed: seq<Token>, error: Option<Error>, now: nat)
    requires RecordOf(c, vm, used) && vm.backup.pending.None?
    requires forall id :: id in removed ==> id in Ids(vm.backup.retired)
    ensures CleanedUp(vm, removed, error, now).Ok?
    ensures var vm1 := CleanedUp(vm, removed, error, now).value;
            && RecordOf(c, vm1, used)
            && forall g :: g in Tracked(vm.backup) ==> g.id in removed || g in Tracked(vm1.backup)
  {
    TrackedIds(vm);
    CleanupKeepsRecord(vm, removed, error, now);
    PendingIsTracked(vm.backup);
    PendingIsTracked(CleanedUp(vm, removed, error, now).value.backup);
  }

  lemma FinishCleanupKeeps(c: Site, w: World, now: nat, w1: World)
    requires Inv(c, w) && FinishCleanupStep(w, now, w1)
    ensures Inv(c, w1)
  {
    var vm := w.vm.value;
    CleanupRecord(c, vm, w.used, w.worker.removed, w.worker.error, now);
    TrackingShrinks(c, w.store, Tracked(vm.backup), Tracked(w1.vm.value.backup));
    RetainNothing(vm.backup.retired);
  }

  lemma OperationStepKeeps(c: Site, w: World, e: Event, w1: World)
    requires Inv(c, w) && ByOperation(e) && OperationStep(c, w, e, w1)
    ensures Inv(c, w1)
  {
    match e
    case Admit(free, artifact, revision, now) => AdmitKeeps(c, w, free, artifact, revision, now, w1);
    case Work(mid, prepared, removed, result) => WorkKeeps(c, w, mid, prepared, removed, result, w1);
    case Finish(now) => FinishKeeps(c, w, now, w1);
  }

  lemma CleanupStepKeeps(c: Site, w: World, e: Event, w1: World)
    requires Inv(c, w) && ByCleanup(e) && CleanupStep(c, w, e, w1)
    ensures Inv(c, w1)
  {
    match e
    case OrphanEnds(mid, prepared, removed, result) => OrphanEndsKeeps(c, w, mid, prepared, removed, result, w1);
    case Clean(removed, error) => CleanKeeps(c, w, removed, error, w1);
    case FinishCleanup(now) => FinishCleanupKeeps(c, w, now, w1);
  }

  // ---- destruction ----

  lemma PartlyKeeps(c: Site, w: World, survives: bool, w1: World)
    requires Inv(c, w) && PartlyStep(w, survives, w1)
    ensures Inv(c, w1)
  {
    RemovalKeeps(c, w, w1.store, Tracked(w.vm.value.backup));
  }

  lemma ForgetKeeps(c: Site, w: World, w1: World)
    requires Inv(c, w) && ForgetStep(c, w, w1)
    ensures Inv(c, w1)
  {
  }

  /** Deletion keeps the invariant at each of its steps. */
  lemma DestructionStepKeeps(c: Site, w: World, e: Event, w1: World)
    requires Inv(c, w) && ByDestruction(e) && DestructionStep(c, w, e, w1)
    ensures Inv(c, w1)
  {
    match e
    case DestroyPartly(survives) => PartlyKeeps(c, w, survives, w1);
    case DestroyForget => ForgetKeeps(c, w, w1);
    case DestroyRow => assert Tracked(w.vm.value.backup) == [];
    case _ =>
  }

  /** Every step of the protocol keeps the invariant. */
  lemma StepKeeps(c: Site, w: World, e: Event, w1: World)
    requires Inv(c, w) && Step(c, w, e, w1)
    ensures Inv(c, w1)
  {
    if ByWorker(e) {
      WorkerStepKeeps(c, w, e, w1);
    } else if ByOperation(e) {
      OperationStepKeeps(c, w, e, w1);
    } else if ByCleanup(e) {
      CleanupStepKeeps(c, w, e, w1);
    } else if ByDestruction(e) {
      DestructionStepKeeps(c, w, e, w1);
    } else {
      OutsideStepKeeps(c, w, e, w1);
    }
  }
}
