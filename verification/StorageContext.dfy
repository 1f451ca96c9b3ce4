/**
 Creation, restore, verification and removal of disk artifacts, step by step, with a
 failure possible at every command and system call. A failed step may or may not have
 taken effect, and an attempt may end after any step; since every postcondition below
 holds on every exit, it also describes the storage left behind by a crash between two
 steps. `healthy` marks an attempt in which nothing fails.
 */
module StorageContext {
  import opened Model
  import opened BackupRecord
  import opened StorageModel

  /** An absent directory looks like an empty one. */
  function DirectoryAt(s: Store, id: Token): Directory {
    if id in s.directories then s.directories[id] else EMPTY_DIRECTORY
  }

  function WithDirectory(s: Store, id: Token, dir: Directory): Store {
    s.(directories := s.directories[id := dir])
  }

  function WithoutDirectory(s: Store, id: Token): Store {
    s.(directories := s.directories - {id})
  }

  /** Only the directory `id` differs. */
  ghost predicate OnlyDirectory(s: Store, s1: Store, id: Token) {
    && s1.disk == s.disk && s1.dependencies == s.dependencies && s1.snapshots == s.snapshots
    && forall i: Token :: i != id ==>
         && (i in s1.directories <==> i in s.directories)
         && (i in s.directories ==> s1.directories[i] == s.directories[i])
  }

  lemma OnlyDirectoryUntouched(s: Store, s1: Store, id: Token)
    requires OnlyDirectory(s, s1, id)
    ensures Untouched(s, s1, {id})
    ensures At(Snapshot, s1, id) == At(Snapshot, s, id)
  {
  }

  lemma AppendedSnapshot(s: Store, snap: Snap, id: Token)
    requires snap.name == Ours(id) && Lookup(s.snapshots, Ours(id)).None?
    ensures var s1 := s.(snapshots := s.snapshots + [snap]);
            && Untouched(s, s1, {id})
            && At(Snapshot, s1, id) == Some(SnapPiece(snap))
            && At(Reflink, s1, id) == At(Reflink, s, id)
            && (UniqueNames(s.snapshots) ==> UniqueNames(s1.snapshots))
  {
    forall name { LookupAppend(s.snapshots, snap, name); }
    assert Position(s.snapshots, Ours(id)) == |s.snapshots|;
  }

  lemma DestroyedSnapshot(s: Store, id: Token)
    requires UniqueNames(s.snapshots)
    ensures var s1 := s.(snapshots := Without(s.snapshots, Ours(id)));
            && Untouched(s, s1, {id})
            && At(Snapshot, s1, id).None?
            && At(Reflink, s1, id) == At(Reflink, s, id)
            && UniqueNames(s1.snapshots)
  {
    forall name { LookupWithout(s.snapshots, Ours(id), name); }
  }

  /** Identities of the files that exist now. */
  function LiveIdentities(s: Store): set<Identity> {
    {s.disk.identity} +
    set id | id in s.directories && s.directories[id].disk.Some? :: s.directories[id].disk.value.identity
  }

  lemma FreshIdentityExists(used: set<Identity>) returns (bound: Identity)
    ensures forall i :: i in used ==> i < bound
  {
    bound := 0;
    if used != {} {
      var i :| i in used;
      var smaller := FreshIdentityExists(used - {i});
      bound := Max(smaller, i + 1);
      assert used == (used - {i}) + {i};
    }
  }

  /** Destroying the snapshot right after the first `i + 1` shortens the tail by one. */
  lemma DestroyNext(all: seq<Snap>, i: nat, j: nat)
    requires UniqueNames(all) && i + 1 + j < |all|
    ensures var now := Rewound(all, i, j);
            && UniqueNames(now)
            && Lookup(now, all[i + 1 + j].name) == Some(all[i + 1 + j])
            && Without(now, all[i + 1 + j].name) == Rewound(all, i, j + 1)
  {
    var now := Rewound(all, i, j);
    RewoundElements(all, i, j);
    assert now[i + 1] == all[i + 1 + j];
    PositionAmongUnique(now, i + 1);
    assert now[..i + 1] == all[..i + 1];
    assert now[i + 2..] == all[i + 2 + j..];
  }

  /**
   What becomes of a command: it takes effect and says so, it does not take effect, it takes
   effect but the answer is lost, or it is cut short between writing and renaming.
   */
  datatype Fate = Applied | Refused | Unheard | Torn

  /** The directory with one abandoned temporary file more. */
  function Littered(dir: Directory): Directory { dir.(strays := dir.strays + 1) }

  class Context {
    const vm: VmId
    const backend: Backend
    const healthy: bool
    const headroom: bool
    var store: Store

    constructor (vm: VmId, backend: Backend, store: Store, healthy: bool, headroom: bool)
      ensures this.vm == vm && this.backend == backend && this.store == store
      ensures this.healthy == healthy && this.headroom == headroom
    {
      this.vm := vm;
      this.backend := backend;
      this.store := store;
      this.healthy := healthy;
      this.headroom := headroom;
    }

    /** One command or system call that is meant to lead to `next`. */
    method Apply(next: Store) returns (ok: bool)
      modifies this`store
      ensures store == old(store) || store == next
      ensures ok ==> store == next
      ensures healthy ==> ok
    {
      var fate: Fate := *;
      ok := Meet(next, fate);
    }

    /** The command meets its fate; in a healthy attempt there is only one. */
    method Meet(next: Store, fate: Fate) returns (ok: bool)
      modifies this`store
      ensures store == if healthy || fate == Applied || fate == Unheard then next else old(store)
      ensures ok <==> healthy || fate == Applied
    {
      if healthy || fate == Applied || fate == Unheard { store := next; }
      ok := healthy || fate == Applied;
    }

    /** A read that may fail. */
    method Readable() returns (ok: bool)
      ensures healthy ==> ok
    {
      ok := *;
      ok := ok || healthy;
    }

    /** Write-then-rename into directory `id`; a crash in between abandons the temporary file. */
    method AtomicWrite(id: Token, next: Directory) returns (ok: bool)
      requires id in store.directories
      modifies this`store
      ensures OnlyDirectory(old(store), store, id) && id in store.directories
      ensures store.directories[id] in {
                old(store).directories[id],
                Littered(old(store).directories[id]),
                next}
      ensures ok ==> store.directories[id] == next
      ensures healthy ==> ok
    {
      var fate: Fate := *;
      ok := WriteThenRename(id, next, fate);
    }

    method WriteThenRename(id: Token, next: Directory, fate: Fate) returns (ok: bool)
      requires id in store.directories
      modifies this`store
      ensures store == WithDirectory(old(store), id,
                         if healthy || fate == Applied || fate == Unheard then next
                         else if fate == Torn then Littered(old(store).directories[id])
                         else old(store).directories[id])
      ensures ok <==> healthy || fate == Applied
    {
      if fate == Torn && !healthy {
        store := WithDirectory(store, id, Littered(store.directories[id]));
        return false;
      }
      ok := Meet(WithDirectory(store, id, next), fate);
      assert old(store).directories == old(store).directories[id := old(store).directories[id]];
    }

    method FreshIdentity() returns (identity: Identity)
      ensures identity !in LiveIdentities(store)
    {
      ghost var bound := FreshIdentityExists(LiveIdentities(store));
      assert bound !in LiveIdentities(store);
      identity :| identity !in LiveIdentities(store);
    }

    method Inspect(probe: bool) returns (r: Result<Witness>)
      ensures r.Ok? ==> r.value == Observed(store) && r.value.rootBytes > 0
      ensures healthy ==> (r.Ok? <==> store.disk.image.bytes > 0 && (probe ==> headroom))
    {
      var ok := Readable();
      if !ok { return Err(StorageFault); }
      if probe && !headroom { return Err(StorageFault); }
      if store.disk.image.bytes == 0 { return Err(InvalidCapacity); }
      return Ok(Observed(store));
    }

    method Verify(g: Generation) returns (r: Result<Generation>)
      ensures r.Ok? ==> r == Verification(vm, At(g.backend, store, g.id), g)
      ensures healthy ==> r == Verification(vm, At(g.backend, store, g.id), g)
      ensures r.Ok? ==>
                && At(g.backend, store, g.id).Some? && Authentic(vm, At(g.backend, store, g.id).value, g)
                && r.value == g.(identity := IdentityOf(At(g.backend, store, g.id).value))
      ensures healthy ==>
                (r.Ok? <==> At(g.backend, store, g.id).Some? && Authentic(vm, At(g.backend, store, g.id).value, g))
    {
      VerifiesExactlyTheAuthentic(vm, At(g.backend, store, g.id), g);
      var ok := Readable();
      if !ok { return Err(StorageFault); }
      return Verification(vm, At(g.backend, store, g.id), g);
    }

    /**
     Create the private directory of `id`, or adopt it if it is empty or already ours. `made`
     and `written` are the fates of the two commands that this takes.
     */
    method PrepareDirectory(id: Token, made: Fate, written: Fate) returns (ok: bool)
      modifies this`store
      ensures OnlyDirectory(old(store), store, id)
      ensures id in old(store).directories ==> id in store.directories
      ensures var before := DirectoryAt(old(store), id);
              var after := DirectoryAt(store, id);
              && after.disk == before.disk && after.ready == before.ready
              && (after.owner == before.owner || (before.owner.None? && after.owner == Some(Owner(vm, id))))
      ensures ok ==> id in store.directories && store.directories[id].owner == Some(Owner(vm, id))
      ensures !Preparable(vm, old(store), id) ==> !ok && store == old(store)
      ensures healthy ==> (ok <==> Preparable(vm, old(store), id))
      ensures healthy ==>
                (ok <==>
                   || id !in old(store).directories
                   || old(store).directories[id] == Directory(None, None, None, 0)
                   || old(store).directories[id].owner == Some(Owner(vm, id)))
      ensures !healthy && id !in old(store).directories && made == Applied && written == Torn ==>
                !ok && store == TornAdoption(old(store), id)
    {
      if id !in store.directories {
        var created := Meet(WithDirectory(store, id, EMPTY_DIRECTORY), made);
        if !created { return false; }
      } else if !store.directories[id].IsEmpty() {
        return store.directories[id].owner == Some(Owner(vm, id));
      }
      ok := WriteThenRename(id, store.directories[id].(owner := Some(Owner(vm, id))), written);
    }

    /** Replace the file `disk` of a prepared directory by a reflink of `image`. */
    method CloneInto(id: Token, image: Image) returns (ok: bool, identity: Identity)
      requires id in store.directories
      modifies this`store
      ensures OnlyDirectory(old(store), store, id) && id in store.directories
      ensures store.directories[id].ready == old(store).directories[id].ready
      ensures store.directories[id].owner == old(store).directories[id].owner
      ensures ok ==> store.directories[id].disk == Some(DiskFile(image, identity)) && identity != store.disk.identity
      ensures healthy ==> ok
    {
      identity := 0;
      ok := Apply(WithDirectory(store, id, store.directories[id].(disk := None)));
      if !ok { return; }
      identity := FreshIdentity();
      ok := Apply(WithDirectory(store, id, store.directories[id].(disk := Some(DiskFile(Image([], 0), identity)))));
      if !ok { return; }
      ok := Apply(WithDirectory(store, id, store.directories[id].(disk := Some(DiskFile(image, identity)))));
    }

    method CreateSnapshot(p: Pending) returns (r: Result<Generation>)
      requires p.artifact.backend == Snapshot && p.artifact.identity.None?
      modifies this`store
      ensures CreateEffect(vm, Snapshot, old(store), store, p, r)
      ensures healthy && StagedCreate(vm, Snapshot, At(Snapshot, old(store), p.artifact.id), p, old(store).disk.image) ==>
                r.Ok?
    {
      var g := p.artifact;
      var listed := Readable();
      if !listed { return Err(StorageFault); }
      if Lookup(store.snapshots, Ours(g.id)).None? {
        var guid: Identity := *;
        var snap := Snap(Ours(g.id), guid, Some(Owner(vm, g.id)), store.disk.image);
        AppendedSnapshot(store, snap, g.id);
        var taken := Apply(store.(snapshots := store.snapshots + [snap]));
        if !taken { return Err(StorageFault); }
      }
      r := Verify(g);
    }

    method CreateReflink(p: Pending) returns (r: Result<Generation>)
      requires p.artifact.backend == Reflink && p.artifact.identity.None?
      modifies this`store
      ensures CreateEffect(vm, Reflink, old(store), store, p, r)
      ensures healthy && StagedCreate(vm, Reflink, At(Reflink, old(store), p.artifact.id), p, old(store).disk.image) ==>
                (r.Ok? <==> Preparable(vm, old(store), p.artifact.id))
    {
      var g := p.artifact;
      var made: Fate, adopted: Fate := *, *;
      var prepared := PrepareDirectory(g.id, made, adopted);
      OnlyDirectoryUntouched(old(store), store, g.id);
      if !prepared { return Err(StorageFault); }
      if store.directories[g.id].ready.Some? {
        r := Verify(g);
        return;
      }
      var cloned, identity := CloneInto(g.id, store.disk.image);
      OnlyDirectoryUntouched(old(store), store, g.id);
      if !cloned { return Err(StorageFault); }
      var result := g.(identity := Some(identity));
      var written := AtomicWrite(g.id, store.directories[g.id].(ready := Some(Manifest(vm, result))));
      OnlyDirectoryUntouched(old(store), store, g.id);
      if !written { return Err(StorageFault); }
      r := Verify(result);
    }

    /** Publish the stopped disk as the artifact that `p` names. */
    method Create(p: Pending) returns (r: Result<Generation>)
      requires p.artifact.backend == backend && p.artifact.identity.None?
      modifies this`store
      ensures CreateEffect(vm, backend, old(store), store, p, r)
      ensures healthy && StagedCreate(vm, backend, At(backend, old(store), p.artifact.id), p, old(store).disk.image) ==>
                (r.Ok? <==> CreateReady(vm, backend, old(store), p))
      ensures r.Ok? || store != old(store) ==> AsAdmitted(old(store), p)
    {
      var seen := Inspect(false);
      if seen.Err? { return Err(seen.error); }
      if !WitnessMatches(p, seen.value) { return Err(WitnessChanged); }
      match backend
      case Snapshot => r := CreateSnapshot(p);
      case Reflink => r := CreateReflink(p);
    }

    method Rollback(p: Pending, source: Generation, seen: Witness) returns (r: Result<Option<Generation>>)
      requires backend == Snapshot && At(Snapshot, store, source.id).Some?
      requires seen == Observed(store)
      modifies this`store
      ensures RestoreEffect(vm, Snapshot, old(store), store, p, source,
                            Lookup(old(store).snapshots, Ours(source.id)).value.image, r)
      ensures healthy && UniqueNames(old(store).snapshots) ==>
                (r.Ok? <==> WitnessMatches(p, Observed(old(store)))
                            && old(store).snapshots[|old(store).snapshots| - 1].name == Ours(source.id))
      ensures r.Ok? || store != old(store) ==> AsAdmitted(old(store), p)
    {
      if !WitnessMatches(p, seen) { return Err(WitnessChanged); }
      var at := Position(store.snapshots, Ours(source.id));
      // Rolling back past a newer snapshot is refused by the file system.
      if at + 1 < |store.snapshots| { return Err(StorageFault); }
      var ok := Apply(store.(disk := store.disk.(image := store.snapshots[at].image)));
      if !ok { return Err(StorageFault); }
      return Ok(None);
    }

    method SwapIn(p: Pending, source: Generation, seen: Witness) returns (r: Result<Option<Generation>>)
      requires backend == Reflink && source.id != p.artifact.id && p.artifact.identity.None?
      requires Verification(vm, At(Reflink, store, source.id), source).Ok?
      requires seen == Observed(store)
      requires seen.rootBytes == source.rootBytes && seen.dependencies == source.dependencies
      modifies this`store
      ensures RestoreEffect(vm, Reflink, old(store), store, p, source,
                            old(store).directories[source.id].disk.value.image, r)
      ensures healthy
              && RestoreFacts(vm, Reflink, old(store), p, source, old(store).directories[source.id].disk.value.image) ==>
                (r.Ok? <==> Preparable(vm, old(store), p.artifact.id))
      ensures store.disk != old(store).disk ==> AsAdmitted(old(store), p)
    {
      var id := p.artifact.id;
      ghost var src := store.directories[source.id].disk.value.image;
      var made: Fate, adopted: Fate := *, *;
      var prepared := PrepareDirectory(id, made, adopted);
      OnlyDirectoryUntouched(old(store), store, id);
      if !prepared { return Err(StorageFault); }
      var replacement := p.artifact;
      if store.directories[id].ready.Some? {
        var saved := store.directories[id].ready.value;
        if saved.vm != vm || saved.generation.id != replacement.id { return Err(OwnerChanged); }
        replacement := saved.generation;
        if Some(seen.diskIdentity) == replacement.identity {
          // An earlier attempt already swapped the file in; only its result was not recorded.
          return Ok(Some(replacement));
        }
      }
      if !WitnessMatches(p, seen) { return Err(WitnessChanged); }
      if replacement.identity.None? {
        var cloned, identity := CloneInto(id, store.directories[source.id].disk.value.image);
        OnlyDirectoryUntouched(old(store), store, id);
        if !cloned { return Err(StorageFault); }
        replacement := replacement.(identity := Some(identity));
        var written := AtomicWrite(id, store.directories[id].(ready := Some(Manifest(vm, replacement))));
        OnlyDirectoryUntouched(old(store), store, id);
        if !written { return Err(StorageFault); }
      }
      var stage := store.directories[id];
      if stage.disk.None? || Some(stage.disk.value.identity) != replacement.identity { return Err(ArtifactReplaced); }
      var renamed := Apply(store.(disk := stage.disk.value,
                                  directories := store.directories[id := stage.(disk := None)]));
      if !renamed { return Err(StorageFault); }
      return Ok(Some(replacement));
    }

    /**
     Make the active disk equal to the source. Under a restore that may already have been
     attempted any number of times, a healthy attempt succeeds exactly if `RestoreReady`.
     */
    method RestoreDisk(p: Pending, source: Generation) returns (r: Result<Option<Generation>>)
      requires source.backend == backend && p.artifact.backend == backend
      requires source.id != p.artifact.id && p.artifact.identity.None?
      modifies this`store
      ensures PieceImage(At(backend, old(store), source.id)).None? ==> r.Err? && store == old(store)
      ensures forall src :: PieceImage(At(backend, old(store), source.id)) == Some(src) ==>
                RestoreEffect(vm, backend, old(store), store, p, source, src, r)
      ensures healthy && UniqueNames(old(store).snapshots) ==>
                forall src :: PieceImage(At(backend, old(store), source.id)) == Some(src) ==>
                  RestoreFacts(vm, backend, old(store), p, source, src) ==>
                    (r.Ok? <==> RestoreReady(vm, backend, old(store), p, source))
      ensures r.Ok? || store != old(store) ==>
                && At(backend, old(store), source.id).Some?
                && Authentic(vm, At(backend, old(store), source.id).value, source)
                && old(store).disk.image.bytes == source.rootBytes && old(store).dependencies == source.dependencies
      ensures store.disk != old(store).disk ==> AsAdmitted(old(store), p)
    {
      var verified := Verify(source);
      if verified.Err? { return Err(verified.error); }
      var seen := Inspect(false);
      if seen.Err? { return Err(seen.error); }
      if seen.value.rootBytes != source.rootBytes || seen.value.dependencies != source.dependencies {
        return Err(SourceDiffers);
      }
      match backend
      case Snapshot => r := Rollback(p, source, seen.value);
      case Reflink => r := SwapIn(p, source, seen.value);
    }

    /** Destroy the snapshot of `g`, the next one behind the source. */
    method RemoveNewer(ghost all: seq<Snap>, i: nat, j: nat, g: Generation) returns (r: Result<()>)
      requires UniqueNames(all) && i + 1 + j < |all|
      requires g.backend == Snapshot && all[i + 1 + j].name == Ours(g.id)
      requires store.snapshots == Rewound(all, i, j)
      modifies this`store
      ensures store == old(store) || store == old(store).(snapshots := Rewound(all, i, j + 1))
      ensures r.Ok? ==> store == old(store).(snapshots := Rewound(all, i, j + 1))
      ensures r.Ok? || store != old(store) ==> Verification(vm, Some(SnapPiece(all[i + 1 + j])), g).Ok?
      ensures healthy ==> (r.Ok? <==> Verification(vm, Some(SnapPiece(all[i + 1 + j])), g).Ok?)
    {
      DestroyNext(all, i, j);
      assert At(Snapshot, store, g.id) == Some(SnapPiece(all[i + 1 + j]));
      r := Remove(g);
      if r.Ok? && store == old(store) { assert false; }
    }

    /** The snapshots named by `removed`, right behind index `i`, are destroyed, and nothing else. */
    ghost predicate Sacrificed(before: Store, i: nat, removed: seq<Token>, retired: seq<Generation>)
      reads this
    {
      && NamesOf(before.snapshots, i, removed)
      && RewoundBy(vm, before, store, i, |removed|, retired)
      && forall k :: i < k <= i + |removed| ==> Sacrificable(vm, before.snapshots[k], retired)
    }

    /** Destroy the next snapshot behind the source, if it is an exact retired generation of this VM. */
    method SacrificeNext(ghost before: Store, i: nat, removed: seq<Token>, next: Snap, retired: seq<Generation>)
      returns (r: Result<Token>)
      requires UniqueNames(before.snapshots) && Sacrificed(before, i, removed, retired)
      requires i + |removed| + 1 < |before.snapshots| && next == before.snapshots[i + |removed| + 1]
      requires forall g :: g in retired ==> g.backend == Snapshot
      modifies this`store
      ensures r.Ok? ==> Sacrificed(before, i, removed + [r.value], retired)
      ensures r.Err? ==> store == old(store) || RewoundBy(vm, before, store, i, |removed| + 1, retired)
      ensures healthy ==> (r.Ok? <==> Sacrificable(vm, next, retired))
    {
      var found := FindByName(retired, next.name);
      if found.None? { return Err(ForeignSnapshot); }
      var gone := RemoveNewer(before.snapshots, i, |removed|, found.value);
      if gone.Ok? || store != old(store) { SacrificableIsExpendable(vm, next, retired); }
      r := if gone.Ok? then Ok(found.value.id) else Err(gone.error);
    }

    /**
     Make the source the newest snapshot. Older snapshots are never touched, and a newer one
     is removed only if it is an exact retired generation of this VM.
     */
    method PrepareRestore(source: Generation, retired: seq<Generation>) returns (r: Result<seq<Token>>)
      requires UniqueNames(store.snapshots)
      requires forall g :: g in retired ==> g.backend == backend
      modifies this`store
      ensures PrepareEffect(vm, backend, old(store), store, source, retired, r)
      ensures healthy && backend == Snapshot ==>
                (r.Ok? <==> Rewindable(vm, old(store).snapshots, source, retired))
    {
      if backend == Reflink { return Ok([]); }
      var listed := Readable();
      if !listed { return Err(StorageFault); }
      var snapshots := store.snapshots;
      var index := Position(snapshots, Ours(source.id));
      if index == |snapshots| { return Err(ArtifactMissing); }
      var removed: seq<Token> := [];
      assert snapshots == Rewound(snapshots, index, 0);
      while index + |removed| + 1 < |snapshots|
        invariant Sacrificed(old(store), index, removed, retired)
        decreases |snapshots| - |removed|
      {
        var gone := SacrificeNext(old(store), index, removed, snapshots[index + |removed| + 1], retired);
        if gone.Err? { return Err(gone.error); }
        removed := removed + [gone.value];
      }
      return Ok(removed);
    }

    /** Remove one artifact of this VM; only its own files and snapshot are ever touched. */
    method Remove(g: Generation) returns (r: Result<()>)
      requires UniqueNames(store.snapshots)
      modifies this`store
      ensures RemoveEffect(old(store), store, g, r)
      ensures g.backend == Snapshot ==>
                store == old(store) || store == old(store).(snapshots := Without(old(store).snapshots, Ours(g.id)))
      ensures g.backend == Reflink ==> OnlyDirectory(old(store), store, g.id)
      ensures r.Ok? || (g.backend == Snapshot && store != old(store)) ==> Removable(vm, old(store), g)
      ensures healthy ==> (r.Ok? <==> Removable(vm, old(store), g))
    {
      match g.backend
      case Snapshot =>
        DestroyedSnapshot(store, g.id);
        var listed := Readable();
        if !listed { return Err(StorageFault); }
        if Lookup(store.snapshots, Ours(g.id)).Some? {
          var verified := Verify(g);
          if verified.Err? { return Err(verified.error); }
          var destroyed := Apply(store.(snapshots := Without(store.snapshots, Ours(g.id))));
          if !destroyed { return Err(StorageFault); }
        }
        return Ok(());
      case Reflink =>
        r := RemoveDirectory(g);
    }

    method RemoveDirectory(g: Generation) returns (r: Result<()>)
      requires g.backend == Reflink
      modifies this`store
      ensures OnlyDirectory(old(store), store, g.id)
      ensures RemoveEffect(old(store), store, g, r)
      ensures r.Ok? ==> Removable(vm, old(store), g)
      ensures healthy ==> (r.Ok? <==> Removable(vm, old(store), g))
    {
      hide Authentic, Verification;
      var id := g.id;
      if id !in store.directories { return Ok(()); }
      if store.directories[id].IsEmpty() {
        var gone := Apply(WithoutDirectory(store, id));
        OnlyDirectoryUntouched(old(store), store, id);
        if !gone { return Err(StorageFault); }
        return Ok(());
      }
      if store.directories[id].owner != Some(Owner(vm, id)) { return Err(OwnerChanged); }
      if store.directories[id].disk.Some? {
        if g.identity.Some? {
          var verified := Verify(g);
          if verified.Err? { return Err(verified.error); }
        }
        var unlinked := Apply(WithDirectory(store, id, store.directories[id].(disk := None)));
        OnlyDirectoryUntouched(old(store), store, id);
        if !unlinked { return Err(StorageFault); }
      }
      var cleared := Apply(WithDirectory(store, id, store.directories[id].(ready := None)));
      OnlyDirectoryUntouched(old(store), store, id);
      if !cleared { return Err(StorageFault); }
      if store.directories[id].strays != 0 { return Err(UnexpectedContents); }
      var disowned := Apply(WithDirectory(store, id, store.directories[id].(owner := None)));
      OnlyDirectoryUntouched(old(store), store, id);
      if !disowned { return Err(StorageFault); }
      var gone := Apply(WithoutDirectory(store, id));
      OnlyDirectoryUntouched(old(store), store, id);
      if !gone { return Err(StorageFault); }
      return Ok(());
    }
  }
}
