/**
 The storage work of one worker: what an admitted operation, a cleanup pass or the deletion
 of a VM does to the artifacts, as loops and branches over the storage context.
 */
module StorageWork {
  import opened Model
  import opened BackupRecord
  import opened StorageModel
  import opened StorageContext
  import opened BackupRun

  lemma RemovedOne(s: Store, mid: Store, s1: Store, gs: seq<Generation>, g: Generation, r: Result<()>)
    requires UniqueNames(s.snapshots)
    requires RemoveMany(s, mid, gs) && RemoveEffect(mid, s1, g, r)
    ensures RemoveMany(s, s1, gs + [g])
    ensures r.Ok? ==> At(g.backend, s1, g.id).None?
  {
  }

  lemma RemovedNothing(s: Store)
    ensures RemoveMany(s, s, [])
  {
  }

  lemma RemovalIsMonotone(s: Store, s1: Store, some: seq<Generation>, all: seq<Generation>)
    requires RemoveMany(s, s1, some) && forall g :: g in some ==> g in all
    ensures RemoveMany(s, s1, all)
  {
  }

  /** Removing one artifact, successfully or not, decides nothing about others. */
  lemma StaysRemovable(id: VmId, s: Store, s1: Store, g: Generation, r: Result<()>, other: Generation)
    requires RemoveEffect(s, s1, g, r) && other.backend == g.backend && other.id != g.id
    ensures Removable(id, s1, other) <==> Removable(id, s, other)
  {
    assert At(other.backend, s1, other.id) == At(other.backend, s, other.id);
  }

  ghost predicate AllRemovable(id: VmId, s: Store, gs: seq<Generation>) {
    forall k :: 0 <= k < |gs| ==> Removable(id, s, gs[k])
  }

  /** From index `k` on, exactly what was removable is removable. */
  ghost predicate RestAlike(id: VmId, s: Store, s1: Store, gs: seq<Generation>, k: nat) {
    forall j :: k <= j < |gs| ==> (Removable(id, s1, gs[j]) <==> Removable(id, s, gs[j]))
  }

  lemma RestStaysAlike(id: VmId, s: Store, mid: Store, s1: Store, gs: seq<Generation>, k: nat, r: Result<()>)
    requires DistinctIds(gs) && k < |gs| && RestAlike(id, s, mid, gs, k)
    requires forall g :: g in gs ==> g.backend == gs[k].backend
    requires RemoveEffect(mid, s1, gs[k], r)
    ensures RestAlike(id, s, s1, gs, k + 1)
  {
    forall j | k + 1 <= j < |gs| ensures Removable(id, s1, gs[j]) <==> Removable(id, s, gs[j]) {
      assert gs[j] in gs;
      StaysRemovable(id, mid, s1, gs[k], r, gs[j]);
    }
  }

  /** Removal in order, stopping at the first failure: backup deletion and VM deletion. */
  method RemoveInOrder(ctx: Context, gs: seq<Generation>) returns (r: Result<()>)
    requires UniqueNames(ctx.store.snapshots) && DistinctIds(gs)
    requires forall g :: g in gs ==> g.backend == ctx.backend
    modifies ctx`store
    ensures RemoveMany(old(ctx.store), ctx.store, gs)
    ensures r.Ok? ==> AllAbsent(ctx.backend, ctx.store, gs)
    ensures ctx.healthy ==> (r.Ok? <==> AllRemovable(ctx.vm, old(ctx.store), gs))
  {
    RemovedNothing(ctx.store);
    for k := 0 to |gs|
      invariant RestAlike(ctx.vm, old(ctx.store), ctx.store, gs, k)
      invariant AllRemovable(ctx.vm, old(ctx.store), gs[..k])
      invariant RemoveMany(old(ctx.store), ctx.store, gs[..k])
      invariant AllAbsent(ctx.backend, ctx.store, gs[..k])
    {
      ghost var mid := ctx.store;
      assert gs[k] in gs;
      var one := ctx.Remove(gs[k]);
      RemovedOne(old(ctx.store), mid, ctx.store, gs[..k], gs[k], one);
      assert gs[..k + 1] == gs[..k] + [gs[k]];
      if one.Err? {
        RemovalIsMonotone(old(ctx.store), ctx.store, gs[..k + 1], gs);
        return Err(one.error);
      }
      RestStaysAlike(ctx.vm, old(ctx.store), mid, ctx.store, gs, k, one);
    }
    assert gs[..|gs|] == gs;
    r := Ok(());
  }

  /** The recovery point, if there is one, verifies. */
  predicate PointVerifies(id: VmId, s: Store, current: Option<Generation>) {
    current.Some? ==> Verification(id, At(current.value.backend, s, current.value.id), current.value).Ok?
  }

  lemma AllAndOneMore(id: VmId, s: Store, gs: seq<Generation>, g: Generation)
    ensures AllRemovable(id, s, gs + [g]) <==> AllRemovable(id, s, gs) && Removable(id, s, g)
  {
    assert forall k :: 0 <= k < |gs| ==> (gs + [g])[k] == gs[k];
    assert (gs + [g])[|gs|] == g;
  }

  /** The first `k` retired generations were attended to; what was removed is reported. */
  ghost predicate Swept(ctx: Context, s: Store, s1: Store, retired: seq<Generation>, k: nat,
                        removed: seq<Token>, failure: Option<Error>)
  {
    && k <= |retired|
    && RemoveMany(s, s1, retired[..k])
    && (forall id :: id in removed ==> id in Ids(retired) && At(ctx.backend, s1, id).None?)
    && (failure.None? ==> forall g :: g in retired[..k] ==> g.id in removed)
    && RestAlike(ctx.vm, s, s1, retired, k)
    && (ctx.healthy ==> (failure.None? <==> AllRemovable(ctx.vm, s, retired[..k])))
  }

  lemma OneMore<T>(s: seq<T>, k: nat)
    requires k < |s|
    ensures s[..k + 1] == s[..k] + [s[k]]
  {
  }

  lemma GoneStayGone(b: Backend, mid: Store, s1: Store, g: Generation, one: Result<()>, removed: seq<Token>)
    requires RemoveEffect(mid, s1, g, one) && g.backend == b
    requires forall id :: id in removed ==> At(b, mid, id).None?
    ensures forall id :: id in (if one.Ok? then removed + [g.id] else removed) ==> At(b, s1, id).None?
  {
    forall id | id in removed ensures At(b, s1, id).None? {
      if id != g.id { assert At(b, s1, id) == At(b, mid, id); }
    }
  }

  lemma SweptNext(ctx: Context, s: Store, mid: Store, s1: Store, retired: seq<Generation>, k: nat,
                  removed: seq<Token>, failure: Option<Error>, one: Result<()>)
    requires UniqueNames(s.snapshots) && DistinctIds(retired) && k < |retired|
    requires forall g :: g in retired ==> g.backend == ctx.backend
    requires Swept(ctx, s, mid, retired, k, removed, failure) && RemoveEffect(mid, s1, retired[k], one)
    requires ctx.healthy ==> (one.Ok? <==> Removable(ctx.vm, mid, retired[k]))
    ensures Swept(ctx, s, s1, retired, k + 1,
                  if one.Ok? then removed + [retired[k].id] else removed, if one.Ok? then failure else Some(one.error))
  {
    var g := retired[k];
    OneMore(retired, k);
    assert g in retired && g.id in Ids(retired);
    RemovedOne(s, mid, s1, retired[..k], g, one);
    RestStaysAlike(ctx.vm, s, mid, s1, retired, k, one);
    AllAndOneMore(ctx.vm, s, retired[..k], g);
    GoneStayGone(ctx.backend, mid, s1, g, one, removed);
    assert Removable(ctx.vm, mid, retired[k]) <==> Removable(ctx.vm, s, retired[k]);
  }

  /** The loop of a cleanup pass: it goes on past failures. */
  method SweepRetired(ctx: Context, retired: seq<Generation>) returns (removed: seq<Token>, failure: Option<Error>)
    requires UniqueNames(ctx.store.snapshots) && DistinctIds(retired)
    requires forall g :: g in retired ==> g.backend == ctx.backend
    modifies ctx`store
    ensures Swept(ctx, old(ctx.store), ctx.store, retired, |retired|, removed, failure)
  {
    removed, failure := [], None;
    for k := 0 to |retired|
      invariant Swept(ctx, old(ctx.store), ctx.store, retired, k, removed, failure)
    {
      ghost var mid := ctx.store;
      var one := ctx.Remove(retired[k]);
      SweptNext(ctx, old(ctx.store), mid, ctx.store, retired, k, removed, failure, one);
      if one.Ok? { removed := removed + [retired[k].id]; } else { failure := Some(one.error); }
    }
  }

  /**
   A cleanup pass removes nothing unless the recovery point verifies; after that it goes on
   past failures and reports what it removed.
   */
  method CleanRetired(ctx: Context, current: Option<Generation>, retired: seq<Generation>)
    returns (removed: seq<Token>, failure: Option<Error>)
    requires UniqueNames(ctx.store.snapshots) && DistinctIds(retired)
    requires forall g :: g in retired ==> g.backend == ctx.backend
    modifies ctx`store
    ensures RemoveMany(old(ctx.store), ctx.store, retired)
    ensures forall id :: id in removed ==> id in Ids(retired) && At(ctx.backend, ctx.store, id).None?
    ensures failure.None? ==> forall g :: g in retired ==> g.id in removed
    ensures !PointVerifies(ctx.vm, old(ctx.store), current) ==>
              removed == [] && failure.Some? && ctx.store == old(ctx.store)
    ensures ctx.store != old(ctx.store) && current.Some? ==>
              exists piece ::
                && At(current.value.backend, old(ctx.store), current.value.id) == Some(piece)
                && Authentic(ctx.vm, piece, current.value)
    ensures ctx.healthy ==>
              (failure.None? <==>
                 PointVerifies(ctx.vm, old(ctx.store), current) && AllRemovable(ctx.vm, old(ctx.store), retired))
  {
    if current.Some? {
      VerifiesExactlyTheAuthentic(ctx.vm, At(current.value.backend, ctx.store, current.value.id), current.value);
      var verified := ctx.Verify(current.value);
      if verified.Err? {
        RemovalIsMonotone(ctx.store, ctx.store, [], retired);
        return [], Some(verified.error);
      }
    }
    removed, failure := SweepRetired(ctx, retired);
    assert retired[..|retired|] == retired;
  }

  // ---- the pending operation ----

  /** What the protocol guarantees about storage when the pending operation is attempted again. */
  ghost predicate Expected(id: VmId, b: Backend, vm: Vm, s: Store)
    requires vm.backup.pending.Some?
  {
    var p := vm.backup.pending.value;
    match p.request.action
    case Create => StagedCreate(id, b, At(b, s, p.artifact.id), p, s.disk.image)
    case Restore =>
      && vm.backup.current.Some?
      && PieceImage(At(b, s, vm.backup.current.value.id)).Some?
      && RestoreFacts(id, b, s, p, vm.backup.current.value, PieceImage(At(b, s, vm.backup.current.value.id)).value)
    case Delete => true
  }

  /** Nothing on storage stands in the way of the pending operation. */
  ghost predicate Ready(id: VmId, b: Backend, vm: Vm, s: Store)
    requires vm.backup.pending.Some? && Expected(id, b, vm, s)
  {
    var p := vm.backup.pending.value;
    match p.request.action
    case Create => CreateReady(id, b, s, p)
    case Restore =>
      if b == Snapshot then RollbackReady(id, s, p, vm.backup.current.value, vm.backup.retired)
      else RestoreReady(id, Reflink, s, p, vm.backup.current.value)
    case Delete => AllRemovable(id, s, Committed(vm.backup))
  }

  /** After preparation the source is the newest snapshot; everything else about the restore is as before. */
  lemma RewindLeavesTheRest(id: VmId, vm: Vm, s: Store, mid: Store, names: seq<Token>)
    requires UniqueNames(s.snapshots) && vm.backup.pending.Some? && vm.backup.pending.value.request.action == Restore
    requires Expected(id, Snapshot, vm, s)
    requires PrepareEffect(id, Snapshot, s, mid, vm.backup.current.value, vm.backup.retired, Ok(names))
    ensures Expected(id, Snapshot, vm, mid)
    ensures Rewindable(id, s.snapshots, vm.backup.current.value, vm.backup.retired) ==>
              (RestoreReady(id, Snapshot, mid, vm.backup.pending.value, vm.backup.current.value)
               <==> RollbackReady(id, s, vm.backup.pending.value, vm.backup.current.value, vm.backup.retired))
  {
    var source := vm.backup.current.value;
    RollbackPreparationIsSafe(id, s, mid, source, vm.backup.retired, Ok(names), Ours(source.id));
    PrepareLosesOnlyRetired(id, Snapshot, s, mid, source, vm.backup.retired, Ok(names));
    assert At(Snapshot, mid, source.id) == At(Snapshot, s, source.id);
    assert At(Snapshot, s, vm.backup.pending.value.artifact.id).None?;
  }

  /** The restore branch: prepare the volume, then make the active disk equal to the source. */
  method PerformRestore(ctx: Context, vm: Vm, jailReady: bool)
    returns (removed: seq<Token>, result: Result<Option<Generation>>, ghost mid: Store, ghost prepared: Result<seq<Token>>)
    requires UniqueNames(ctx.store.snapshots)
    requires vm.backup.pending.Some? && PendingConsistent(vm.backup) && DistinctIds(Tracked(vm.backup))
    requires forall g :: g in Tracked(vm.backup) ==> g.backend == ctx.backend
    requires vm.backup.pending.value.request.action == Restore
    modifies ctx`store
    ensures WorkEffect(Site(ctx.vm, ctx.backend), vm, old(ctx.store), mid, ctx.store, prepared, removed, result)
    ensures ctx.healthy && jailReady && Expected(ctx.vm, ctx.backend, vm, old(ctx.store)) ==>
              (result.Ok? <==> Ready(ctx.vm, ctx.backend, vm, old(ctx.store)))
  {
    var p := vm.backup.pending.value;
    mid, prepared := ctx.store, Ok([]);
    if vm.backup.current.None? { return [], Err(NoBackup), mid, prepared; }
    var source := vm.backup.current.value;
    PendingIsTracked(vm.backup);
    TrackedParts(vm.backup);
    var newer := ctx.PrepareRestore(source, vm.backup.retired);
    mid, prepared := ctx.store, newer;
    if newer.Err? { return [], Err(newer.error), mid, prepared; }
    PrepareLosesOnlyRetired(ctx.vm, ctx.backend, old(ctx.store), mid, source, vm.backup.retired, newer);
    if ctx.backend == Snapshot && Expected(ctx.vm, Snapshot, vm, old(ctx.store)) {
      RewindLeavesTheRest(ctx.vm, vm, old(ctx.store), mid, newer.value);
    }
    if !jailReady { return [], Err(EngineFault), mid, prepared; }
    result := ctx.RestoreDisk(p, source);
    removed := if result.Ok? then newer.value else [];
  }

  lemma CommittedAreDistinct(b: BackupState)
    requires DistinctIds(Tracked(b))
    ensures DistinctIds(Committed(b))
  {
    assert forall k :: 0 <= k < |Committed(b)| ==> Committed(b)[k] == Tracked(b)[k];
  }

  /**
   The storage branch of `run_backup` for the pending operation of `vm`; `jailReady` says
   whether the engine could prepare its directory for the swapped disk. If nothing fails, the
   operation succeeds exactly if storage is ready for it.
   */
  method PerformPending(ctx: Context, vm: Vm, jailReady: bool)
    returns (removed: seq<Token>, result: Result<Option<Generation>>, ghost mid: Store, ghost prepared: Result<seq<Token>>)
    requires UniqueNames(ctx.store.snapshots)
    requires vm.backup.pending.Some? && PendingConsistent(vm.backup) && DistinctIds(Tracked(vm.backup))
    requires forall g :: g in Tracked(vm.backup) ==> g.backend == ctx.backend
    modifies ctx`store
    ensures WorkEffect(Site(ctx.vm, ctx.backend), vm, old(ctx.store), mid, ctx.store, prepared, removed, result)
    ensures ctx.healthy && (vm.backup.pending.value.request.action == Restore ==> jailReady)
            && Expected(ctx.vm, ctx.backend, vm, old(ctx.store)) ==>
              (result.Ok? <==> Ready(ctx.vm, ctx.backend, vm, old(ctx.store)))
  {
    var p := vm.backup.pending.value;
    mid, prepared, removed := ctx.store, Ok([]), [];
    PendingIsTracked(vm.backup);
    match p.request.action
    case Create =>
      var made := ctx.Create(p);
      result := if made.Ok? then Ok(Some(made.value)) else Err(made.error);
    case Restore =>
      removed, result, mid, prepared := PerformRestore(ctx, vm, jailReady);
    case Delete =>
      CommittedAreDistinct(vm.backup);
      var gone := RemoveInOrder(ctx, Committed(vm.backup));
      result := if gone.Ok? then Ok(None) else Err(gone.error);
  }
}
