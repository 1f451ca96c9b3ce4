/**
 The agent's backup workers: claim, inspect, admit, work, publish and release, composed from
 the runtime and the storage context. Each part is shown to be the corresponding step of the
 VM's backup protocol, so what is proved of all runs of the protocol holds of these workers.
 */
module Handler {
  import opened Model
  import opened BackupRecord
  import opened StorageModel
  import opened Table
  import R = Runtime
  import C = StorageContext
  import W = StorageWork
  import H = HostRun
  import B = BackupRun
  import G = BackupGuarantees

  /** How one VM came to its present state. */
  datatype History = History(site: B.Site, worlds: seq<B.World>, events: seq<B.Event>)
  {
    ghost predicate Valid() { B.Run(site, worlds, events) }

    ghost function Now(): B.World
      requires |worlds| > 0
    {
      worlds[|worlds| - 1]
    }

    ghost function Then(e: B.Event, w: B.World): History { History(site, worlds + [w], events + [e]) }

    /** `later` continues this history. */
    ghost predicate Precedes(later: History) {
      later.site == site && worlds <= later.worlds && events <= later.events
    }
  }

  lemma Continues(h: History, e: B.Event, w: B.World)
    requires h.Valid() && B.Step(h.site, h.Now(), e, w)
    ensures h.Then(e, w).Valid() && h.Then(e, w).Now() == w && h.Precedes(h.Then(e, w))
  {
    B.RunExtends(h.site, h.worlds, h.events, e, w);
  }

  lemma NowIsConsistent(h: History)
    requires h.Valid()
    ensures B.Inv(h.site, h.Now())
  {
    G.RunInv(h.site, h.worlds, h.events, |h.worlds| - 1);
  }

  /** The runtime and the storage context are in the state that the history ends with. */
  ghost predicate Mirrors(rt: R.Runtime, ctx: C.Context, h: History)
    reads rt, ctx
  {
    && rt.Valid() && h.Valid()
    && ctx.vm == h.site.vm && ctx.backend == h.site.backend && rt.conf.backend == h.site.backend
    && Load(rt.table, h.site.vm) == h.Now().vm
    && ctx.store == h.Now().store
    && (h.Now().worker.Idle? <==> h.site.vm !in rt.running)
    && (h.Now().guest <==> h.site.vm in rt.live)
  }

  /** Answers from outside, and the names and times drawn for this attempt. */
  datatype Attempt = Attempt(
    settings: Settings,
    engineStopped: bool,
    lockFree: bool,
    jailReady: bool,
    artifact: Token,
    revision: Token,
    now: nat)

  /** The engine and the lock answer truthfully, and drawn names are new. */
  ghost predicate Truthful(a: Attempt, w: B.World) {
    && a.engineStopped == !w.guest
    && (a.lockFree ==> w.orphan.NoOrphan?)
    && a.artifact !in w.used && a.revision !in w.used && a.artifact != a.revision
  }

  // ---- the steps of a worker ----

  /** An operation is pending on a nonempty disk. */
  ghost predicate Resumable(vm: Option<Vm>, s: Store) {
    vm.Some? && vm.value.state != Deleting && vm.value.backup.pending.Some? && s.disk.image.bytes > 0
  }

  /**
   Nothing stands in the way of the pending operation. A creation or restore needs the boot
   files that were admitted and, on reflinked storage, a staging directory that is new, empty or
   ours; restoring a volume needs every newer snapshot to be one that may be sacrificed; a
   deletion needs every artifact to be verifiably ours.
   */
  ghost predicate Unobstructed(site: B.Site, vm: Vm, s: Store)
    requires vm.backup.pending.Some?
  {
    var artifact := vm.backup.pending.value.artifact;
    match vm.backup.pending.value.request.action
    case Create =>
      && s.dependencies == artifact.dependencies
      && (site.backend == Reflink ==> Preparable(site.vm, s, artifact.id))
    case Restore =>
      && s.dependencies == artifact.dependencies
      && (site.backend == Reflink ==> Preparable(site.vm, s, artifact.id))
      && (site.backend == Snapshot ==> Expendables(site, vm, s))
    case Delete => W.AllRemovable(site.vm, s, Committed(vm.backup))
  }

  /** Every snapshot newer than the recovery point may be sacrificed. */
  ghost predicate Expendables(site: B.Site, vm: Vm, s: Store) {
    vm.backup.current.Some? && Rewindable(site.vm, s.snapshots, vm.backup.current.value, vm.backup.retired)
  }

  /** What earlier attempts left behind lets the operation go on exactly if it is unobstructed. */
  ghost predicate Prepared(site: B.Site, vm: Vm, s: Store)
    requires vm.backup.pending.Some?
  {
    && W.Expected(site.vm, site.backend, vm, s)
    && (W.Ready(site.vm, site.backend, vm, s) <==> Unobstructed(site, vm, s))
  }

  lemma InterruptionsLeaveItPrepared(h: History)
    requires h.Valid() && Resumable(h.Now().vm, h.Now().store)
    ensures Prepared(h.site, h.Now().vm.value, h.Now().store)
  {
    match h.Now().vm.value.backup.pending.value.request.action
    case Create => G.InterruptedCreationConverges(h.site, h.worlds, h.events, |h.worlds| - 1);
    case Restore => G.InterruptedRestoreConverges(h.site, h.worlds, h.events, |h.worlds| - 1);
    case Delete =>
  }

  /** What the protocol guarantees about the admitted record and storage when work begins. */
  lemma FitForWork(h: History, vm: Vm)
    requires h.Valid() && h.Now().worker == B.Working(vm)
    ensures UniqueNames(h.Now().store.snapshots)
    ensures vm.backup.pending.Some? && PendingConsistent(vm.backup) && DistinctIds(Tracked(vm.backup))
    ensures forall g :: g in Tracked(vm.backup) ==> g.backend == h.site.backend
    ensures h.Now().vm.Some? && vm.backup == h.Now().vm.value.backup
    ensures Resumable(h.Now().vm, h.Now().store) ==> Prepared(h.site, vm, h.Now().store)
  {
    NowIsConsistent(h);
    assert Tracked(vm.backup) == Tracked(h.Now().vm.value.backup);
    SameBackupAlike(h.site, h.Now(), vm);
    if Resumable(h.Now().vm, h.Now().store) { InterruptionsLeaveItPrepared(h); }
  }

  /** The storage branch, under the guarantees of the protocol about the admitted record. */
  method PerformStored(ctx: C.Context, ghost h: History, vm: Vm, jailReady: bool)
    returns (removed: seq<Token>, result: Result<Option<Generation>>, ghost mid: Store, ghost prepared: Result<seq<Token>>)
    requires h.Valid() && h.Now().worker == B.Working(vm)
    requires ctx.store == h.Now().store && ctx.vm == h.site.vm && ctx.backend == h.site.backend
    modifies ctx`store
    ensures vm.backup.pending.Some? && h.Now().vm.Some? && vm.backup == h.Now().vm.value.backup
    ensures B.WorkEffect(h.site, vm, h.Now().store, mid, ctx.store, prepared, removed, result)
    ensures ctx.healthy && jailReady && Resumable(h.Now().vm, h.Now().store) ==>
              (result.Ok? <==> Unobstructed(h.site, vm, h.Now().store))
  {
    FitForWork(h, vm);
    removed, result, mid, prepared := W.PerformPending(ctx, vm, jailReady);
  }

  /** The claimed copy of the record has the same backups as the stored one. */
  lemma SameBackupAlike(site: B.Site, w: B.World, vm: Vm)
    requires w.vm.Some? && vm.backup == w.vm.value.backup && vm.backup.pending.Some?
    ensures W.Expected(site.vm, site.backend, vm, w.store) <==> W.Expected(site.vm, site.backend, w.vm.value, w.store)
    ensures W.Expected(site.vm, site.backend, vm, w.store) ==>
              (W.Ready(site.vm, site.backend, vm, w.store) <==> W.Ready(site.vm, site.backend, w.vm.value, w.store))
    ensures Unobstructed(site, vm, w.store) <==> Unobstructed(site, w.vm.value, w.store)
  {
  }

  /** The world after the storage work of the worker. */
  ghost function AfterWork(w: B.World, s: Store, removed: seq<Token>, result: Result<Option<Generation>>): B.World
    requires w.worker.Working? && w.worker.vm.backup.pending.Some?
  {
    w.(store := s, worker := B.Worked(w.worker.vm.backup.pending.value.request, removed, result))
  }

  lemma WorkIsAStep(site: B.Site, w: B.World, s: Store, mid: Store, prepared: Result<seq<Token>>,
                    removed: seq<Token>, result: Result<Option<Generation>>)
    requires w.vm.Some? && w.worker.Working? && w.worker.vm.backup.pending.Some?
    requires B.WorkEffect(site, w.worker.vm, w.store, mid, s, prepared, removed, result)
    ensures B.Step(site, w, B.Work(mid, prepared, removed, result), AfterWork(w, s, removed, result))
  {
  }

  /** Publication cannot be refused: the intent is still there, and the result answers it. */
  lemma PublicationIsAStep(site: B.Site, w: B.World, now: nat)
    requires B.Workers(site, w) && w.worker.Worked?
    ensures w.vm.Some? && w.vm.value.backup.pending.Some?
    ensures w.vm.value.backup.pending.value.request == w.worker.request
    ensures Fulfils(w.vm.value.backup.pending.value, w.worker.result)
    ensures var f := Finished(w.vm.value, w.worker.request, w.worker.removed, w.worker.result, now);
            && f.Ok?
            && B.Step(site, w, B.Finish(now), w.(vm := Some(f.value), worker := B.Done))
            && (w.worker.result.Ok? ==>
                  && f.value.backup.pending.None?
                  && f.value.backup.lastResult == Some(Receipt(w.worker.request, now, None)))
  {
  }

  /** The storage work of an admitted operation and its publication; success is reported exactly if the work succeeded. */
  method Perform(rt: R.Runtime, ctx: C.Context, ghost h: History, vm: Vm, a: Attempt)
    returns (r: Result<Vm>, ghost h1: History)
    requires Mirrors(rt, ctx, h) && h.Now().worker == B.Working(vm) && h.site.vm in rt.running
    modifies rt, ctx`store
    ensures Mirrors(rt, ctx, h1) && h.Precedes(h1) && h1.Now().worker.Done?
    ensures rt.running == old(rt.running)
    ensures vm.backup.pending.Some?
    ensures r.Ok? ==> Completed(rt, h.site.vm, r.value, vm.backup.pending.value.request, a.now)
    ensures |h1.events| == |h.events| + 2 && h1.events[|h.events|].Work? && h1.events[|h.events| + 1].Finish?
    ensures r.Ok? <==> h1.events[|h.events|].result.Ok?
    ensures ctx.healthy && a.jailReady && Resumable(h.Now().vm, h.Now().store) ==>
              (r.Ok? <==> Unobstructed(h.site, vm, h.Now().store))
  {
    ghost var w := h.Now();
    var removed, result, mid, prepared := PerformStored(ctx, h, vm, a.jailReady);
    WorkIsAStep(h.site, w, ctx.store, mid, prepared, removed, result);
    ghost var w1 := AfterWork(w, ctx.store, removed, result);
    Continues(h, B.Work(mid, prepared, removed, result), w1);
    h1 := h.Then(B.Work(mid, prepared, removed, result), w1);
    r, h1 := Publish(rt, ctx, h1, vm.backup.pending.value.request, removed, result, a.now);
  }

  /** The record shows the completed request as its last result. */
  ghost predicate Completed(rt: R.Runtime, id: VmId, vm: Vm, request: Request, now: nat)
    reads rt
  {
    && Load(rt.table, id) == Some(vm)
    && vm.backup.pending.None?
    && vm.backup.lastResult == Some(Receipt(request, now, None))
  }

  lemma CanPublish(h: History, now: nat)
    requires h.Valid() && h.Now().worker.Worked?
    ensures var w := h.Now();
            && w.vm.Some? && w.vm.value.backup.pending.Some?
            && w.vm.value.backup.pending.value.request == w.worker.request
            && Fulfils(w.vm.value.backup.pending.value, w.worker.result)
            && var f := Finished(w.vm.value, w.worker.request, w.worker.removed, w.worker.result, now);
               && f.Ok?
               && B.Step(h.site, w, B.Finish(now), w.(vm := Some(f.value), worker := B.Done))
               && (w.worker.result.Ok? ==>
                     && f.value.backup.pending.None?
                     && f.value.backup.lastResult == Some(Receipt(w.worker.request, now, None)))
  {
    NowIsConsistent(h);
    PublicationIsAStep(h.site, h.Now(), now);
  }

  method Publish(rt: R.Runtime, ctx: C.Context, ghost h: History, request: Request, removed: seq<Token>,
                 result: Result<Option<Generation>>, now: nat)
    returns (r: Result<Vm>, ghost h1: History)
    requires Mirrors(rt, ctx, h) && h.Now().worker == B.Worked(request, removed, result)
    requires h.site.vm in rt.running
    modifies rt
    ensures Mirrors(rt, ctx, h1) && h.Precedes(h1) && h1.Now().worker.Done?
    ensures h1.events == h.events + [B.Finish(now)]
    ensures rt.running == old(rt.running)
    ensures r.Ok? ==> Completed(rt, h.site.vm, r.value, request, now)
    ensures r.Ok? <==> result.Ok?
  {
    hide H.Run;
    CanPublish(h, now);
    ghost var f := Finished(h.Now().vm.value, request, removed, result, now).value;
    r := rt.BackupFinish(ctx.vm, request, removed, result, now);
    ghost var w1 := h.Now().(vm := Some(f), worker := B.Done);
    Continues(h, B.Finish(now), w1);
    h1 := h.Then(B.Finish(now), w1);
    if result.Err? { r := Err(result.error); }
  }

  lemma AdmissionIsAStep(site: B.Site, w: B.World, free: u32, a: Attempt)
    requires w.vm.Some? && w.worker.Locked?
    requires a.artifact !in w.used && a.revision !in w.used && a.artifact != a.revision
    requires Admission(w.vm.value, w.worker.request, w.worker.seen, site.backend, free, a.artifact, a.revision, a.now).Ok?
    ensures var vm1 := Admission(w.vm.value, w.worker.request, w.worker.seen, site.backend, free,
                                 a.artifact, a.revision, a.now).value;
            && B.Step(site, w, B.Admit(free, a.artifact, a.revision, a.now), Admitted(w, vm1, a))
            && vm1.backup.pending.Some? && vm1.backup.pending.value.request == w.worker.request
  {
  }

  /** The world after admission: a new entry in the log unless the request was pending before. */
  ghost function Admitted(w: B.World, vm1: Vm, a: Attempt): B.World
    requires w.vm.Some? && w.worker.Locked?
  {
    if w.vm.value.backup.pending.Some? then w.(worker := B.Working(vm1))
    else w.(vm := Some(vm1), worker := B.Working(vm1),
            log := w.log + [B.Admitted(w.worker.request, a.artifact, w.store.disk.image)],
            made := w.made[a.artifact := w.store.disk.image],
            used := w.used + {a.artifact, a.revision})
  }

  /** Names in use never include names that are still to be drawn. */
  lemma DrawnNamesAreUntracked(site: B.Site, w: B.World, artifact: Token)
    requires B.Records(site, w.vm, w.used) && w.vm.Some? && artifact !in w.used
    ensures forall g :: g in Tracked(w.vm.value.backup) ==> g.id != artifact
  {
  }

  /**
   On a nonempty disk, a new or exactly repeated request is admitted under `free` disk, nothing
   fails, and the worker lock is free.
   */
  ghost predicate Undisturbed(request: Request, a: Attempt, ctx: C.Context, site: B.Site, vm: Option<Vm>, s: Store,
                              free: u32)
  {
    && vm.Some? && vm.value.state != Deleting && s.disk.image.bytes > 0
    && Admission(vm.value, request, Observed(s), site.backend, free, a.artifact, a.revision, a.now).Ok?
    && (request.action == Create && vm.value.backup.pending.None? ==> ctx.headroom)
    && ctx.healthy && a.lockFree && a.jailReady
  }

  /**
   A new creation always goes through, and so does a new restore on reflinked storage. A new
   restore of a volume goes through if every newer snapshot may be sacrificed, a new deletion if
   every artifact is ours, and an interrupted operation if it is unobstructed.
   */
  ghost predicate GoesThrough(request: Request, site: B.Site, vm: Vm, s: Store) {
    if vm.backup.pending.Some? then Unobstructed(site, vm, s)
    else match request.action
      case Create => true
      case Restore => site.backend == Snapshot ==> Expendables(site, vm, s)
      case Delete => W.AllRemovable(site.vm, s, Committed(vm.backup))
  }

  lemma AdmittedGoesThrough(site: B.Site, w: B.World, request: Request, a: Attempt, ctx: C.Context, free: u32)
    requires B.Tracking(site, w.store, w.vm) && B.Records(site, w.vm, w.used)
    requires Undisturbed(request, a, ctx, site, w.vm, w.store, free) && a.artifact !in w.used
    ensures var vm1 := Admission(w.vm.value, request, Observed(w.store), site.backend, free,
                                 a.artifact, a.revision, a.now).value;
            && Resumable(Some(vm1), w.store)
            && (Unobstructed(site, vm1, w.store) <==> GoesThrough(request, site, w.vm.value, w.store))
  {
    ReplayExactlyTheLastReceipt(w.vm.value.backup, request);
    if w.vm.value.backup.pending.None? {
      DrawnNamesAreUntracked(site, w, a.artifact);
      assert At(site.backend, w.store, a.artifact).None? && At(OtherBackend(site.backend), w.store, a.artifact).None?;
    }
  }

  lemma CanDraw(h: History, artifact: Token)
    requires h.Valid() && (h.Now().worker.Claimed? || h.Now().worker.Locked?)
    ensures h.Now().vm.Some?
    ensures artifact !in h.Now().used ==> forall g :: g in Tracked(h.Now().vm.value.backup) ==> g.id != artifact
  {
    NowIsConsistent(h);
    if artifact !in h.Now().used { DrawnNamesAreUntracked(h.site, h.Now(), artifact); }
  }

  /** Inspection and durable admission, under the worker lock. */
  method AdmitLocked(rt: R.Runtime, ctx: C.Context, ghost h: History, request: Request, probe: bool, a: Attempt)
    returns (r: Result<Vm>, ghost h1: History)
    requires Mirrors(rt, ctx, h) && h.Now().worker == B.Claimed(request) && h.site.vm in rt.running
    requires Truthful(a, h.Now()) && a.lockFree
    modifies rt
    ensures Mirrors(rt, ctx, h1) && h.Precedes(h1) && rt.running == old(rt.running)
    ensures r.Err? ==> h1.Now().worker.Claimed? || h1.Now().worker.Locked?
    ensures r.Ok? ==>
              && h1.Now().worker == B.Working(r.value)
              && r.value.backup.pending.Some? && r.value.backup.pending.value.request == request
    ensures var free := old(H.Free(rt.conf, rt.Now()).DiskFree());
            Undisturbed(request, a, ctx, h.site, h.Now().vm, h.Now().store, free) && (probe ==> ctx.headroom) ==>
              && r.Ok? && Resumable(h1.Now().vm, h1.Now().store)
              && (Unobstructed(h.site, r.value, h1.Now().store)
                  <==> GoesThrough(request, h.site, h.Now().vm.value, h.Now().store))
  {
    hide H.Run, Unobstructed, GoesThrough, Admission;
    var seen;
    seen, h1 := InspectLocked(rt, ctx, h, request, probe);
    if seen.Err? { return Err(seen.error), h1; }
    NowGoesThrough(h1, request, a, ctx, H.Free(rt.conf, rt.Now()).DiskFree());
    r, h1 := AdmitSeen(rt, ctx, h1, request, seen.value, a);
  }

  /** Inspection under the lock, as a protocol step. */
  method InspectLocked(rt: R.Runtime, ctx: C.Context, ghost h: History, request: Request, probe: bool)
    returns (seen: Result<Witness>, ghost h1: History)
    requires Mirrors(rt, ctx, h) && h.Now().worker == B.Claimed(request) && h.Now().orphan.NoOrphan?
    ensures Mirrors(rt, ctx, h1) && h.Precedes(h1)
    ensures seen.Err? ==> h1 == h
    ensures seen.Ok? ==>
              && seen.value == Observed(h.Now().store)
              && h1.Now() == h.Now().(worker := B.Locked(request, seen.value))
    ensures ctx.healthy && h.Now().store.disk.image.bytes > 0 && (probe ==> ctx.headroom) ==> seen.Ok?
  {
    h1 := h;
    CanDraw(h, 0);
    seen := ctx.Inspect(probe);
    if seen.Ok? {
      ghost var w1 := h.Now().(worker := B.Locked(request, seen.value));
      Continues(h, B.Inspect, w1);
      h1 := h.Then(B.Inspect, w1);
    }
  }

  lemma NowGoesThrough(h: History, request: Request, a: Attempt, ctx: C.Context, free: u32)
    requires h.Valid() && a.artifact !in h.Now().used && h.Now().worker == B.Locked(request, Observed(h.Now().store))
    ensures var w := h.Now();
            Undisturbed(request, a, ctx, h.site, w.vm, w.store, free) ==>
              var vm1 := Admission(w.vm.value, request, Observed(w.store), h.site.backend, free,
                                   a.artifact, a.revision, a.now).value;
              && Resumable(Some(vm1), w.store)
              && (Unobstructed(h.site, vm1, w.store) <==> GoesThrough(request, h.site, w.vm.value, w.store))
  {
    if Undisturbed(request, a, ctx, h.site, h.Now().vm, h.Now().store, free) {
      NowIsConsistent(h);
      AdmittedGoesThrough(h.site, h.Now(), request, a, ctx, free);
    }
  }

  method AdmitSeen(rt: R.Runtime, ctx: C.Context, ghost h: History, request: Request, seen: Witness, a: Attempt)
    returns (r: Result<Vm>, ghost h1: History)
    requires Mirrors(rt, ctx, h) && h.Now().worker == B.Locked(request, seen) && h.site.vm in rt.running
    requires Truthful(a, h.Now())
    modifies rt
    ensures Mirrors(rt, ctx, h1) && h.Precedes(h1) && rt.running == old(rt.running)
    ensures h.Now().vm.Some?
    ensures r == Admission(h.Now().vm.value, request, seen, h.site.backend, old(H.Free(rt.conf, rt.Now()).DiskFree()),
                           a.artifact, a.revision, a.now)
    ensures r.Err? ==> h1 == h
    ensures r.Ok? ==>
              && h1.Now() == Admitted(h.Now(), r.value, a)
              && r.value.backup.pending.Some? && r.value.backup.pending.value.request == request
  {
    hide H.Run;
    h1 := h;
    ghost var w := h.Now();
    CanDraw(h, a.artifact);
    ghost var free := H.Free(rt.conf, rt.Now()).DiskFree();
    r := rt.BackupAdmit(ctx.vm, request, seen, a.artifact, a.revision, a.now);
    if r.Ok? {
      AdmissionIsAStep(h.site, w, free, a);
      Continues(h, B.Admit(free, a.artifact, a.revision, a.now), Admitted(w, r.value, a));
      h1 := h.Then(B.Admit(free, a.artifact, a.revision, a.now), Admitted(w, r.value, a));
    }
  }

  /** Everything between claim and release. */
  method Operate(rt: R.Runtime, ctx: C.Context, ghost h: History, request: Request, setup: Vm, a: Attempt)
    returns (r: Result<Vm>, ghost h1: History)
    requires Mirrors(rt, ctx, h) && h.Now().worker == B.Claimed(request) && h.site.vm in rt.running
    requires Truthful(a, h.Now()) && h.Now().vm == Some(setup)
    modifies rt, ctx`store
    ensures Mirrors(rt, ctx, h1) && h.Precedes(h1) && rt.running == old(rt.running)
    ensures h1.Now().worker.Claimed? || h1.Now().worker.Locked? || h1.Now().worker.Done?
    ensures r.Ok? ==> Completed(rt, h.site.vm, r.value, request, a.now)
    ensures Undisturbed(request, a, ctx, h.site, h.Now().vm, h.Now().store, old(H.Free(rt.conf, rt.Now()).DiskFree())) ==>
              (r.Ok? <==> GoesThrough(request, h.site, h.Now().vm.value, h.Now().store))
  {
    if !a.lockFree { return Err(WriterActive), h; }
    var probe := request.action == Create && setup.backup.pending.None?;
    var vm;
    vm, h1 := AdmitLocked(rt, ctx, h, request, probe, a);
    if vm.Err? { return Err(vm.error), h1; }
    r, h1 := Perform(rt, ctx, h1, vm.value, a);
  }

  lemma ReleaseIsAStep(site: B.Site, w: B.World)
    requires w.worker.Claimed? || w.worker.Locked? || w.worker.Done?
    ensures B.Step(site, w, if w.worker.Done? then B.Release else B.GiveUp, w.(worker := B.Idle))
  {
  }

  lemma ClaimIsAStep(site: B.Site, w: B.World, request: Request, settings: Settings)
    requires w.vm.Some? && w.worker.Idle?
    requires ClaimRefusal(w.vm.value, request, settings, !w.guest).None?
    ensures B.Step(site, w, B.Claim(request, settings), w.(worker := B.Claimed(request)))
  {
  }

  /** A worker slot is free, and the stopped VM may be claimed for the request. */
  ghost predicate Claimable(request: Request, a: Attempt, running: set<VmId>, h: History) {
    && |running| < 2 && h.site.vm !in running
    && |h.worlds| > 0 && h.Now().vm.Some?
    && ClaimRefusal(h.Now().vm.value, request, a.settings, a.engineStopped).None?
  }

  /** Why the request is refused before anything happens. */
  ghost function Refused(request: Request, a: Attempt, running: set<VmId>, h: History): Option<Error>
    requires |h.worlds| > 0
  {
    if h.Now().vm.None? then None
    else
      var refusal := ClaimRefusal(h.Now().vm.value, request, a.settings, a.engineStopped);
      if refusal.Some? then refusal
      else if |running| >= 2 || h.site.vm in running then Some(WorkerRunning)
      else None
  }

  /** The `k`-th event of the history is storage work for exactly this request. */
  ghost predicate WorkedOn(h: History, k: nat, request: Request) {
    && k < |h.events| < |h.worlds| && h.events[k].Work?
    && h.worlds[k].worker.Working? && h.worlds[k].worker.vm.backup.pending.Some?
    && h.worlds[k].worker.vm.backup.pending.value.request == request
  }

  /** The receipt that answers a repeated request tells how the work for it ended. */
  lemma ReplayTellsTheOutcome(h: History, request: Request)
    requires h.Valid() && h.Now().vm.Some? && Check(h.Now().vm.value.backup, request) == Ok(true)
    ensures h.Now().vm.value.backup.lastResult.Some?
    ensures var error := h.Now().vm.value.backup.lastResult.value.error;
            exists k: nat ::
              && WorkedOn(h, k, request)
              && (error.None? <==> h.events[k].result.Ok?)
              && (error.Some? ==> h.events[k].result == Err(error.value))
  {
    ReplayExactlyTheLastReceipt(h.Now().vm.value.backup, request);
    G.ReceiptsTellTheOutcome(h.site, h.worlds, h.events, |h.worlds| - 1);
    var rc := h.Now().vm.value.backup.lastResult.value;
    var k: nat, j: nat :| k < j < |h.worlds| - 1 && h.events[k].Work? && h.events[j] == B.Finish(rc.completedAt)
      && h.worlds[k].worker.Working? && h.worlds[k].worker.vm.backup.pending.Some?
      && h.worlds[k].worker.vm.backup.pending.value.request == rc.request
      && (rc.error.None? <==> h.events[k].result.Ok?)
      && (rc.error.Some? ==> h.events[k].result == Err(rc.error.value));
    assert WorkedOn(h, k, request);
  }

  /**
   `run_backup`, for one request and one attempt to claim. The last completed request is
   answered from its receipt, as the earlier work for it ended, and touches nothing; any other
   outcome is a sequence of protocol steps; the claim is given back on every exit. Undisturbed, a
   request completes exactly if nothing on storage stands in its way.
   */
  method RunBackup(rt: R.Runtime, ctx: C.Context, ghost h: History, request: Request, a: Attempt)
    returns (r: Result<Vm>, ghost h1: History)
    requires Mirrors(rt, ctx, h) && Truthful(a, h.Now())
    modifies rt, ctx`store
    ensures Mirrors(rt, ctx, h1) && h.Precedes(h1)
    ensures rt.running == old(rt.running)
    ensures Load(old(rt.table), h.site.vm).None? ==> r == Err(VmNotFound)
    ensures Load(old(rt.table), h.site.vm).Some?
            && Check(Load(old(rt.table), h.site.vm).value.backup, request) == Ok(true) ==>
              var vm := Load(old(rt.table), h.site.vm).value;
              var receipt := vm.backup.lastResult.value;
              && r == (if receipt.error.Some? then Err(receipt.error.value) else Ok(vm))
              && h1 == h && rt.table == old(rt.table) && ctx.store == old(ctx.store) && rt.events == old(rt.events)
              && exists k: nat ::
                   && WorkedOn(h, k, request)
                   && (r.Ok? <==> h.events[k].result.Ok?)
                   && (r.Err? ==> h.events[k].result == Err(r.error))
    ensures r.Ok? && h1 != h ==> Completed(rt, h.site.vm, r.value, request, a.now)
    ensures Undisturbed(request, a, ctx, h.site, h.Now().vm, h.Now().store, old(H.Free(rt.conf, rt.Now()).DiskFree()))
            && Claimable(request, a, old(rt.running), h) ==>
              (r.Ok? <==> GoesThrough(request, h.site, h.Now().vm.value, h.Now().store))
    ensures Refused(request, a, old(rt.running), h).Some? && Check(h.Now().vm.value.backup, request) != Ok(true) ==>
              && r == Err(Refused(request, a, old(rt.running), h).value)
              && h1 == h && rt.table == old(rt.table) && ctx.store == old(ctx.store) && rt.events == old(rt.events)
  {
    h1 := h;
    var row := Load(rt.table, ctx.vm);
    if row.None? { return Err(VmNotFound), h1; }
    var replay := Check(row.value.backup, request);
    if replay.Err? { return Err(replay.error), h1; }
    if replay.value {
      ReplayTellsTheOutcome(h, request);
      var receipt := row.value.backup.lastResult.value;
      return (if receipt.error.Some? then Err(receipt.error.value) else Ok(row.value)), h1;
    }
    r, h1 := ClaimAndOperate(rt, ctx, h, request, a);
  }

  method ClaimAndOperate(rt: R.Runtime, ctx: C.Context, ghost h: History, request: Request, a: Attempt)
    returns (r: Result<Vm>, ghost h1: History)
    requires Mirrors(rt, ctx, h) && Truthful(a, h.Now()) && Load(rt.table, h.site.vm).Some?
    modifies rt, ctx`store
    ensures Mirrors(rt, ctx, h1) && h.Precedes(h1)
    ensures rt.running == old(rt.running)
    ensures r.Ok? ==> Completed(rt, h.site.vm, r.value, request, a.now)
    ensures Undisturbed(request, a, ctx, h.site, h.Now().vm, h.Now().store, old(H.Free(rt.conf, rt.Now()).DiskFree()))
            && Claimable(request, a, old(rt.running), h) ==>
              (r.Ok? <==> GoesThrough(request, h.site, h.Now().vm.value, h.Now().store))
    ensures Refused(request, a, old(rt.running), h).Some? ==>
              && r == Err(Refused(request, a, old(rt.running), h).value)
              && h1 == h && rt.table == old(rt.table) && ctx.store == old(ctx.store) && rt.events == old(rt.events)
  {
    hide H.Run, Unobstructed, GoesThrough;
    var setup;
    setup, h1 := TryClaim(rt, ctx, h, request, a);
    if setup.Err? { return Err(setup.error), h1; }
    r, h1 := OperateAndRelease(rt, ctx, h1, request, setup.value, a);
  }

  /** `backup_claim` as a protocol step, or a refusal that changes nothing. */
  method TryClaim(rt: R.Runtime, ctx: C.Context, ghost h: History, request: Request, a: Attempt)
    returns (setup: Result<Vm>, ghost h1: History)
    requires Mirrors(rt, ctx, h) && Truthful(a, h.Now()) && Load(rt.table, h.site.vm).Some?
    modifies rt`running, rt`states, rt`events
    ensures Mirrors(rt, ctx, h1) && h.Precedes(h1)
    ensures h.Now().vm.Some?
    ensures var refusal := Refused(request, a, old(rt.running), h);
            if refusal.Some? then
              && setup == Err(refusal.value)
              && h1 == h && rt.running == old(rt.running) && rt.events == old(rt.events)
            else
              && setup == Ok(h.Now().vm.value)
              && h1.Now() == h.Now().(worker := B.Claimed(request))
              && h.site.vm !in old(rt.running) && rt.running == old(rt.running) + {h.site.vm}
  {
    hide H.Run;
    h1 := h;
    setup := rt.BackupClaim(ctx.vm, Some(request), a.settings, a.engineStopped, a.now);
    if setup.Ok? {
      ClaimIsAStep(h.site, h.Now(), request, a.settings);
      Continues(h, B.Claim(request, a.settings), h.Now().(worker := B.Claimed(request)));
      h1 := h.Then(B.Claim(request, a.settings), h.Now().(worker := B.Claimed(request)));
    }
  }

  method OperateAndRelease(rt: R.Runtime, ctx: C.Context, ghost h: History, request: Request, setup: Vm, a: Attempt)
    returns (r: Result<Vm>, ghost h1: History)
    requires Mirrors(rt, ctx, h) && h.Now().worker == B.Claimed(request) && h.site.vm in rt.running
    requires Truthful(a, h.Now()) && h.Now().vm == Some(setup)
    modifies rt, ctx`store
    ensures Mirrors(rt, ctx, h1) && h.Precedes(h1)
    ensures rt.running == old(rt.running) - {h.site.vm}
    ensures r.Ok? ==> Completed(rt, h.site.vm, r.value, request, a.now)
    ensures Undisturbed(request, a, ctx, h.site, h.Now().vm, h.Now().store, old(H.Free(rt.conf, rt.Now()).DiskFree())) ==>
              (r.Ok? <==> GoesThrough(request, h.site, h.Now().vm.value, h.Now().store))
  {
    hide H.Run, Unobstructed, GoesThrough;
    r, h1 := Operate(rt, ctx, h, request, setup, a);
    h1 := GiveBack(rt, ctx, h1);
  }

  /** Release ends the claim, whatever became of the operation. */
  method GiveBack(rt: R.Runtime, ctx: C.Context, ghost h: History) returns (ghost h1: History)
    requires Mirrors(rt, ctx, h) && h.site.vm in rt.running
    requires h.Now().worker.Claimed? || h.Now().worker.Locked? || h.Now().worker.Done?
    modifies rt`running, rt`states, rt`events
    ensures Mirrors(rt, ctx, h1) && h.Precedes(h1)
    ensures rt.running == old(rt.running) - {h.site.vm}
  {
    ghost var e := if h.Now().worker.Done? then B.Release else B.GiveUp;
    ReleaseIsAStep(h.site, h.Now());
    Continues(h, e, h.Now().(worker := B.Idle));
    h1 := h.Then(e, h.Now().(worker := B.Idle));
    rt.BackupRelease(ctx.vm);
  }

  // ---- cleanup ----

  lemma CleaningIsAStep(site: B.Site, w: B.World, s: Store, removed: seq<Token>, failure: Option<Error>)
    requires w.worker.CleanLocked? && B.CleanEffect(site, w.worker.vm, w.store, s, removed)
    ensures B.Step(site, w, B.Clean(removed, failure), w.(store := s, worker := B.Cleaned(removed, failure)))
  {
  }

  lemma ForgettingIsAStep(site: B.Site, w: B.World, now: nat)
    requires B.Workers(site, w) && B.Records(site, w.vm, w.used) && w.worker.Cleaned?
    ensures w.vm.Some?
    ensures var f := CleanedUp(w.vm.value, w.worker.removed, w.worker.error, now);
            f.Ok? && B.Step(site, w, B.FinishCleanup(now), w.(vm := Some(f.value), worker := B.Done))
  {
    B.CleanupRecord(site, w.vm.value, w.used, w.worker.removed, w.worker.error, now);
  }

  /** What the protocol guarantees about the claimed record when cleanup begins. */
  lemma FitForCleaning(h: History, setup: Vm)
    requires h.Valid() && h.Now().worker == B.CleanClaimed(setup)
    ensures UniqueNames(h.Now().store.snapshots) && DistinctIds(setup.backup.retired)
    ensures forall g :: g in setup.backup.retired ==> g.backend == h.site.backend
  {
    assert B.Tracking(h.site, h.Now().store, h.Now().vm) && B.Records(h.site, h.Now().vm, h.Now().used)
           && h.Now().vm.Some? && setup.backup == h.Now().vm.value.backup by {
      NowIsConsistent(h);
    }
    RetiredAreTracked(setup.backup);
  }

  lemma RetiredAreTracked(b: BackupState)
    ensures forall g :: g in b.retired ==> g in Tracked(b)
    ensures DistinctIds(Tracked(b)) ==> DistinctIds(b.retired)
  {
    var first := if b.current.Some? then 1 else 0;
    assert forall k :: 0 <= k < |b.retired| ==> Tracked(b)[first + k] == b.retired[k];
  }

  /** Under the lock: verify the recovery point, then remove what is retired. */
  method CleanLocked(rt: R.Runtime, ctx: C.Context, ghost h: History, setup: Vm, lockFree: bool)
    returns (removed: seq<Token>, failure: Option<Error>, ghost h1: History)
    requires Mirrors(rt, ctx, h) && h.Now().worker == B.CleanClaimed(setup)
    requires lockFree ==> h.Now().orphan.NoOrphan?
    modifies ctx`store
    ensures Mirrors(rt, ctx, h1) && h.Precedes(h1) && h1.Now().worker == B.Cleaned(removed, failure)
    ensures h1.Now().vm == h.Now().vm
    ensures forall id :: id in removed ==> At(ctx.backend, ctx.store, id).None?
    ensures failure.None? ==> forall g :: g in setup.backup.retired ==> g.id in removed
  {
    hide H.Run;
    ghost var w := h.Now();
    if !lockFree {
      ghost var w1 := w.(worker := B.Cleaned([], Some(WriterActive)));
      Continues(h, B.Clean([], Some(WriterActive)), w1);
      return [], Some(WriterActive), h.Then(B.Clean([], Some(WriterActive)), w1);
    }
    ghost var w1 := w.(worker := B.CleanLocked(setup));
    Continues(h, B.LockCleanup, w1);
    h1 := h.Then(B.LockCleanup, w1);
    FitForCleaning(h, setup);
    removed, failure := W.CleanRetired(ctx, setup.backup.current, setup.backup.retired);
    CleaningIsAStep(h.site, w1, ctx.store, removed, failure);
    ghost var w2 := w1.(store := ctx.store, worker := B.Cleaned(removed, failure));
    Continues(h1, B.Clean(removed, failure), w2);
    h1 := h1.Then(B.Clean(removed, failure), w2);
  }

  /** Recorded is what was removed, all of it is gone, and without a failure nothing is left retired. */
  ghost predicate CleanupRecorded(rt: R.Runtime, ctx: C.Context, id: VmId, before: Vm, removed: seq<Token>,
                                  failure: Option<Error>, now: nat)
    reads rt, ctx
  {
    && CleanedUp(before, removed, failure, now).Ok?
    && Load(rt.table, id) == Some(CleanedUp(before, removed, failure, now).value)
    && (forall artifact :: artifact in removed ==> At(ctx.backend, ctx.store, artifact).None?)
    && (failure.None? ==> forall g :: g in before.backup.retired ==> g.id in removed)
  }

  /** `cleanup_backup`: one pass over the retired generations, recorded and released on every exit. */
  method CleanupBackup(rt: R.Runtime, ctx: C.Context, ghost h: History, lockFree: bool, now: nat)
    returns (ghost h1: History, ghost removed: seq<Token>, ghost failure: Option<Error>)
    requires Mirrors(rt, ctx, h) && (lockFree ==> h.Now().orphan.NoOrphan?)
    modifies rt, ctx`store
    ensures Mirrors(rt, ctx, h1) && h.Precedes(h1)
    ensures rt.running == old(rt.running)
    ensures var row := Load(old(rt.table), h.site.vm);
            if row.Some? && CleanupRefusal(row.value, now).None?
               && |old(rt.running)| < 2 && h.site.vm !in old(rt.running) then
              CleanupRecorded(rt, ctx, h.site.vm, row.value, removed, failure, now)
            else h1 == h && rt.table == old(rt.table) && ctx.store == old(ctx.store)
  {
    hide H.Run;
    h1, removed, failure := h, [], None;
    var setup := rt.BackupClaim(ctx.vm, None, Settings(true, true, true), true, now);
    if setup.Err? { return; }
    ghost var w1 := h.Now().(worker := B.CleanClaimed(setup.value));
    Continues(h, B.ClaimCleanup(now), w1);
    h1, removed, failure := CleanClaimed(rt, ctx, h.Then(B.ClaimCleanup(now), w1), setup.value, lockFree, now);
  }

  lemma ClaimedRecordIsCurrent(h: History, setup: Vm)
    requires h.Valid() && h.Now().worker == B.CleanClaimed(setup)
    ensures h.Now().vm.Some? && h.Now().vm.value.backup == setup.backup
  {
    NowIsConsistent(h);
  }

  method CleanClaimed(rt: R.Runtime, ctx: C.Context, ghost h: History, setup: Vm, lockFree: bool, now: nat)
    returns (ghost h1: History, ghost recorded: seq<Token>, ghost problem: Option<Error>)
    requires Mirrors(rt, ctx, h) && h.Now().worker == B.CleanClaimed(setup) && h.site.vm in rt.running
    requires lockFree ==> h.Now().orphan.NoOrphan?
    modifies rt, ctx`store
    ensures Mirrors(rt, ctx, h1) && h.Precedes(h1)
    ensures rt.running == old(rt.running) - {h.site.vm}
    ensures h.Now().vm.Some?
    ensures CleanupRecorded(rt, ctx, h.site.vm, h.Now().vm.value, recorded, problem, now)
  {
    hide H.Run;
    var removed, failure;
    removed, failure, h1 := CleanLocked(rt, ctx, h, setup, lockFree);
    ClaimedRecordIsCurrent(h, setup);
    h1 := RecordCleanup(rt, ctx, h1, removed, failure, now);
    h1 := GiveBack(rt, ctx, h1);
    recorded, problem := removed, failure;
  }

  lemma CanRecord(h: History, now: nat)
    requires h.Valid() && h.Now().worker.Cleaned?
    ensures h.Now().vm.Some?
    ensures var w := h.Now();
            var f := CleanedUp(w.vm.value, w.worker.removed, w.worker.error, now);
            f.Ok? && B.Step(h.site, w, B.FinishCleanup(now), w.(vm := Some(f.value), worker := B.Done))
  {
    NowIsConsistent(h);
    ForgettingIsAStep(h.site, h.Now(), now);
  }

  method RecordCleanup(rt: R.Runtime, ctx: C.Context, ghost h: History, removed: seq<Token>, failure: Option<Error>,
                       now: nat)
    returns (ghost h1: History)
    requires Mirrors(rt, ctx, h) && h.Now().worker == B.Cleaned(removed, failure) && h.site.vm in rt.running
    modifies rt
    ensures Mirrors(rt, ctx, h1) && h.Precedes(h1) && h1.Now().worker.Done?
    ensures rt.running == old(rt.running)
    ensures h.Now().vm.Some?
    ensures var f := CleanedUp(h.Now().vm.value, removed, failure, now);
            f.Ok? && Load(rt.table, h.site.vm) == Some(f.value)
  {
    hide H.Run;
    CanRecord(h, now);
    ghost var f := CleanedUp(h.Now().vm.value, removed, failure, now).value;
    ghost var w1 := h.Now().(vm := Some(f), worker := B.Done);
    Continues(h, B.FinishCleanup(now), w1);
    h1 := h.Then(B.FinishCleanup(now), w1);
    var recorded := rt.BackupCleanupFinish(ctx.vm, removed, failure, now);
  }

  // ---- deletion of the VM ----

  /** The history goes on with steps of a deletion only. */
  ghost predicate Dismantles(h: History, h1: History) {
    && h.Precedes(h1)
    && forall k :: |h.events| <= k < |h1.events| ==> B.ByDestruction(h1.events[k])
  }

  lemma OneMore(h: History, mid: History, e: B.Event, w: B.World) returns (h1: History)
    requires Dismantles(h, mid) && mid.Valid() && B.ByDestruction(e) && B.DestructionStep(mid.site, mid.Now(), e, w)
    ensures h1 == mid.Then(e, w) && h1.Valid() && h1.Now() == w && Dismantles(h, h1)
  {
    Continues(mid, e, w);
    h1 := mid.Then(e, w);
  }

  /** The intent is saved, and the engine is halted or the failure recorded. */
  lemma HaltHistory(h: History, a: R.Removal) returns (h1: History)
    requires h.Valid() && h.Now().vm.Some? && h.Now().worker.Idle?
    ensures h1.Valid() && Dismantles(h, h1)
    ensures var doomed := h.Now().vm.value.(state := Deleting);
            h1.Now() == if a.stopped then h.Now().(vm := Some(doomed), guest := false)
                        else h.Now().(vm := Some(doomed.(error := Some(OtherFault))))
  {
    var w1 := h.Now().(vm := Some(h.Now().vm.value.(state := Deleting)));
    h1 := OneMore(h, h, B.DestroyBegin, w1);
    if a.stopped {
      h1 := OneMore(h, h1, B.DestroyHalt, w1.(guest := false));
    } else {
      h1 := OneMore(h, h1, B.DestroyFault(OtherFault), w1.(vm := Some(w1.vm.value.(error := Some(OtherFault)))));
    }
  }

  /** The backups are removed and forgotten, or some of them are gone and the record keeps all of them. */
  lemma ClearHistory(h: History, mid: History, vm: Vm, healthy: bool, a: R.Removal, cleared: bool, s1: Store)
    returns (h1: History)
    requires Dismantles(h, mid) && mid.Valid() && mid.Now().vm == Some(vm) && B.Doomed(mid.Now()) && !mid.Now().guest
    requires a.stopped && (a.lockFree ==> mid.Now().orphan.NoOrphan?)
    requires R.Clears(mid.site, vm, mid.Now().store, s1, healthy, a, cleared)
    ensures h1.Valid() && Dismantles(h, h1)
    ensures h1.Now() == mid.Now().(store := s1, vm := Some(if cleared then Forgotten(vm) else vm))
  {
    var w := mid.Now();
    if cleared {
      h1 := OneMore(h, mid, B.DestroyForget, w.(store := s1, vm := Some(Forgotten(vm))));
    } else if s1 == w.store {
      h1 := mid;
    } else {
      h1 := OneMore(h, mid, B.DestroyPartly(false), w.(store := s1));
    }
  }

  /** The image is removed (a container has none), and then the record, unless something fails. */
  lemma SweepHistory(h: History, mid: History, vm: Vm, a: R.Removal) returns (h1: History)
    requires Dismantles(h, mid) && mid.Valid() && mid.Now().vm == Some(vm) && B.Doomed(mid.Now()) && !mid.Now().guest
    requires vm == Forgotten(vm)
    ensures h1.Valid() && Dismantles(h, h1) && h1.Now().vm == R.Swept(vm, a)
    ensures h1.Now().store == mid.Now().store && h1.Now().worker.Idle? && !h1.Now().guest
    ensures a.imageGone || vm.engine == Docker ==>
              |mid.events| < |h1.events| && h1.events[|mid.events|].DestroyImage?
  {
    var w := mid.Now();
    h1 := mid;
    if a.imageGone || vm.engine == Docker {
      w := w.(imageGone := true);
      h1 := OneMore(h, h1, B.DestroyImage, w);
    }
    if !a.torn || !(a.imageGone || vm.engine == Docker) {
      h1 := OneMore(h, h1, B.DestroyFault(OtherFault), w.(vm := Some(vm.(error := Some(OtherFault)))));
    } else if a.seedGone {
      h1 := OneMore(h, h1, B.DestroyRow, w.(vm := None));
    }
  }

  /** Whether the disk image was removed, or there was none to remove. */
  ghost predicate ReachesImage(vm: Vm, a: R.Removal, cleared: bool) {
    a.stopped && cleared && (a.imageGone || vm.engine == Docker)
  }

  /** What a deletion leaves is what a sequence of protocol steps leaves. */
  lemma DeletionHistory(h: History, vm: Vm, healthy: bool, a: R.Removal, cleared: bool, s1: Store)
    returns (h1: History)
    requires h.Valid() && h.Now().vm == Some(vm) && h.Now().worker.Idle?
    requires a.lockFree ==> h.Now().orphan.NoOrphan?
    requires R.Clears(h.site, vm, h.Now().store, s1, healthy, a, cleared)
    ensures h1.Valid() && Dismantles(h, h1)
    ensures h1.Now().vm == R.Remains(vm, a, cleared) && h1.Now().store == s1 && h1.Now().worker.Idle?
    ensures h1.Now().guest <==> h.Now().guest && !a.stopped
    ensures ReachesImage(vm, a, cleared) ==> Fenced(h1)
  {
    h1 := HaltHistory(h, a);
    if a.stopped {
      var doomed := vm.(state := Deleting);
      h1 := ClearHistory(h, h1, doomed, healthy, a, cleared, s1);
      if cleared {
        var mid := h1;
        h1 := SweepHistory(h, mid, Forgotten(doomed), a);
        if a.imageGone || vm.engine == Docker { FencedFrom(h1, |mid.events|); }
      }
    }
  }

  /** The engine is off, nothing survives that writes to storage, and no artifact is left. */
  ghost predicate Fenced(h: History)
    requires |h.worlds| > 0
  {
    && !h.Now().guest && !h.Now().orphan.Writer? && !h.Now().orphan.Remover?
    && forall b: Backend, id: Token :: At(b, h.Now().store, id).None?
  }

  lemma FencedFrom(h: History, i: nat)
    requires h.Valid() && i < |h.events| && h.events[i].DestroyImage?
    ensures Fenced(h)
  {
    G.ImageRemovalIsFenced(h.site, h.worlds, h.events, i, |h.worlds| - 1);
  }

  /** Storage and record are fit for deletion: names are distinct, and the host's backend holds the artifacts. */
  lemma FitForDeletion(h: History)
    requires h.Valid()
    ensures UniqueNames(h.Now().store.snapshots)
    ensures h.Now().vm.Some? ==> forall g :: g in Tracked(h.Now().vm.value.backup) ==> g.backend == h.site.backend
  {
    NowIsConsistent(h);
  }

  /**
   `destroy_vm` of the runtime, seen by the protocol of the VM: whatever fails, all it does is a
   sequence of deletion steps; the worker lock is taken only when no storage child survives; and
   whenever the image is gone the engine is off, nothing is left that writes, and every artifact
   is gone. If nothing fails it succeeds exactly if every artifact is verifiably ours.
   */
  method DestroyVm(rt: R.Runtime, ctx: C.Context, ghost h: History, a: R.Removal)
    returns (r: Result<()>, ghost h1: History)
    requires Mirrors(rt, ctx, h) && (a.lockFree ==> h.Now().orphan.NoOrphan?)
    modifies rt, ctx`store
    ensures Mirrors(rt, ctx, h1) && Dismantles(h, h1)
    ensures rt.running == old(rt.running)
    ensures h.Now().vm.None? || h.site.vm in old(rt.running) ==> h1 == h && (r.Ok? <==> h.Now().vm.None?)
    ensures r.Ok? <==> h1.Now().vm.None?
    ensures (r.Ok? && h.Now().vm.Some?) || rt.disks != old(rt.disks) ==> Fenced(h1)
    ensures ctx.healthy && a == R.Removal(true, true, true, true, true)
            && h.Now().vm.Some? && h.site.vm !in old(rt.running) ==>
              (r.Ok? <==> W.AllRemovable(ctx.vm, old(ctx.store), Tracked(h.Now().vm.value.backup)))
  {
    hide H.Run;
    FitForDeletion(h);
    h1 := h;
    ghost var cleared;
    r, cleared := rt.DestroyVm(ctx.vm, ctx, a);
    if h.Now().vm.Some? && h.site.vm !in rt.running {
      h1 := DeletionHistory(h, h.Now().vm.value, ctx.healthy, a, cleared, ctx.store);
    }
  }
}
