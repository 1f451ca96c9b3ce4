/**
 Durable storage of one VM as the backup code sees it: the active disk, the boot
 dependencies, the snapshots of its volume in creation order, and the private backup
 directories. File identities are device and inode numbers, unique among files that
 exist at the same time.
 */
module StorageModel {
  import opened Model
  import opened BackupRecord

  /** Contents and logical capacity of a disk. */
  datatype Image = Image(blocks: seq<int>, bytes: nat)

  datatype DiskFile = DiskFile(image: Image, identity: Identity)

  datatype Owner = Owner(vm: VmId, id: Token)

  datatype Manifest = Manifest(vm: VmId, generation: Generation)

  /** `strays` counts entries other than owner, disk and ready.json, such as abandoned temporary files. */
  datatype Directory = Directory(
    owner: Option<Owner>,
    disk: Option<DiskFile>,
    ready: Option<Manifest>,
    strays: nat)
  {
    predicate IsEmpty() { owner.None? && disk.None? && ready.None? && strays == 0 }
  }

  const EMPTY_DIRECTORY := Directory(None, None, None, 0)

  datatype SnapshotName = Ours(id: Token) | Foreign(number: nat)

  datatype Snap = Snap(name: SnapshotName, guid: Identity, owner: Option<Owner>, image: Image)

  datatype Store = Store(
    disk: DiskFile,
    dependencies: nat,
    snapshots: seq<Snap>,
    directories: map<Token, Directory>)

  // ---- snapshot lists ----

  /** Index of the first snapshot of that name, or the length of the list. */
  function Position(snaps: seq<Snap>, name: SnapshotName): (i: nat)
    ensures i <= |snaps|
    ensures i < |snaps| ==> snaps[i].name == name
    ensures forall k :: 0 <= k < i ==> snaps[k].name != name
    decreases |snaps|
  {
    if snaps == [] then 0
    else if snaps[0].name == name then 0
    else 1 + Position(snaps[1..], name)
  }

  function Lookup(snaps: seq<Snap>, name: SnapshotName): Option<Snap> {
    var i := Position(snaps, name);
    if i < |snaps| then Some(snaps[i]) else None
  }

  /** The list after the snapshot of that name is destroyed. */
  function Without(snaps: seq<Snap>, name: SnapshotName): seq<Snap> {
    var i := Position(snaps, name);
    if i < |snaps| then snaps[..i] + snaps[i + 1..] else snaps
  }

  ghost predicate UniqueNames(snaps: seq<Snap>) {
    forall i, j :: 0 <= i < j < |snaps| ==> snaps[i].name != snaps[j].name
  }

  lemma PositionIs(snaps: seq<Snap>, name: SnapshotName, i: nat)
    requires i < |snaps| ==> snaps[i].name == name
    requires i <= |snaps| && forall k :: 0 <= k < i ==> snaps[k].name != name
    ensures Position(snaps, name) == i
  {
  }

  lemma PositionAmongUnique(snaps: seq<Snap>, i: nat)
    requires UniqueNames(snaps) && i < |snaps|
    ensures Position(snaps, snaps[i].name) == i
  {
  }

  lemma LookupAppend(snaps: seq<Snap>, s: Snap, name: SnapshotName)
    ensures Lookup(snaps + [s], name) ==
            if Lookup(snaps, name).Some? then Lookup(snaps, name)
            else if s.name == name then Some(s) else None
  {
    var i := Position(snaps, name);
    if i < |snaps| || s.name == name {
      PositionIs(snaps + [s], name, i);
    } else {
      PositionIs(snaps + [s], name, i + 1);
    }
  }

  lemma LookupWithout(snaps: seq<Snap>, gone: SnapshotName, name: SnapshotName)
    requires UniqueNames(snaps)
    ensures UniqueNames(Without(snaps, gone))
    ensures Lookup(Without(snaps, gone), name) == if name == gone then None else Lookup(snaps, name)
  {
    var i := Position(snaps, gone);
    var j := Position(snaps, name);
    if i < |snaps| {
      var rest := Without(snaps, gone);
      assert forall k :: 0 <= k < i ==> rest[k] == snaps[k];
      assert forall k :: i <= k < |rest| ==> rest[k] == snaps[k + 1];
      if name == gone {
        assert forall k :: 0 <= k < |rest| ==> rest[k].name != snaps[i].name;
        PositionIs(rest, name, |rest|);
      } else if j < i {
        PositionIs(rest, name, j);
      } else {
        PositionIs(rest, name, j - 1);
      }
    }
  }

  // ---- artifacts ----

  /** An artifact on storage, whichever backend holds it. */
  datatype Piece = SnapPiece(snap: Snap) | DirPiece(dir: Directory)

  function At(b: Backend, s: Store, id: Token): Option<Piece> {
    match b
    case Snapshot =>
      var found := Lookup(s.snapshots, Ours(id));
      if found.Some? then Some(SnapPiece(found.value)) else None
    case Reflink =>
      if id in s.directories then Some(DirPiece(s.directories[id])) else None
  }

  function PieceImage(p: Option<Piece>): Option<Image> {
    match p
    case None => None
    case Some(SnapPiece(snap)) => Some(snap.image)
    case Some(DirPiece(dir)) => if dir.disk.Some? then Some(dir.disk.value.image) else None
  }

  /** Artifacts of other names are as before, in both kinds of storage. */
  ghost predicate Untouched(s: Store, s1: Store, ids: set<Token>) {
    forall b: Backend, id: Token :: id !in ids ==> At(b, s1, id) == At(b, s, id)
  }

  /** What `verify` finds in the absence of command failures. */
  function Verification(vm: VmId, piece: Option<Piece>, g: Generation): Result<Generation> {
    match piece
    case None => Err(ArtifactMissing)
    case Some(SnapPiece(snap)) =>
      if snap.owner != Some(Owner(vm, g.id)) then Err(OwnerChanged)
      else if g.identity.Some? && g.identity.value != snap.guid then Err(ArtifactReplaced)
      else Ok(g.(identity := Some(snap.guid)))
    case Some(DirPiece(dir)) =>
      if dir.owner.None? then Err(ArtifactMissing)
      else if dir.owner.value != Owner(vm, g.id) then Err(OwnerChanged)
      else if dir.ready.None? || dir.disk.None? then Err(ArtifactMissing)
      else
        var m := dir.ready.value;
        if m.vm != vm || m.generation.id != g.id || m.generation.rootBytes != g.rootBytes
           || m.generation.dependencies != g.dependencies
           || m.generation.identity != Some(dir.disk.value.identity) then Err(ArtifactReplaced)
        else if g.identity.Some? && g.identity != m.generation.identity then Err(ArtifactReplaced)
        else Ok(g.(identity := m.generation.identity))
  }

  /**
   The artifact is the one that the generation names. A snapshot carries the VM's mark for it, and
   the recorded GUID if one is recorded. A directory is owned for it, and disk and manifest agree
   with the generation and with each other, under the recorded file identity if there is one.
   */
  ghost predicate Authentic(vm: VmId, piece: Piece, g: Generation) {
    match piece
    case SnapPiece(snap) =>
      && snap.owner == Some(Owner(vm, g.id))
      && (g.identity.Some? ==> snap.guid == g.identity.value)
    case DirPiece(dir) =>
      && dir.owner == Some(Owner(vm, g.id)) && dir.disk.Some?
      && (g.identity.Some? ==> dir.disk.value.identity == g.identity.value)
      && exists m ::
           && dir.ready == Some(m) && m.vm == vm && m.generation.id == g.id
           && m.generation.rootBytes == g.rootBytes && m.generation.dependencies == g.dependencies
           && m.generation.identity == Some(dir.disk.value.identity)
  }

  /** The identity of an artifact: the GUID of a snapshot, or device and inode of a file. */
  ghost function IdentityOf(piece: Piece): Option<Identity> {
    match piece
    case SnapPiece(snap) => Some(snap.guid)
    case DirPiece(dir) => if dir.disk.Some? then Some(dir.disk.value.identity) else None
  }

  /** Verification accepts exactly the authentic artifact, and reports it under its identity. */
  lemma VerifiesExactlyTheAuthentic(vm: VmId, piece: Option<Piece>, g: Generation)
    ensures Verification(vm, piece, g).Ok? <==> piece.Some? && Authentic(vm, piece.value, g)
    ensures piece.Some? && Authentic(vm, piece.value, g) ==>
              Verification(vm, piece, g).value == g.(identity := IdentityOf(piece.value))
  {
    if piece.Some? && piece.value.DirPiece? && piece.value.dir.ready.Some? {
      assert piece.value.dir.ready == Some(piece.value.dir.ready.value);
    }
  }

  /** The generation is on storage, verifies under its recorded identity, and holds `image`. */
  ghost predicate Published(vm: VmId, piece: Option<Piece>, g: Generation, image: Image) {
    && g.identity.Some?
    && Verification(vm, piece, g) == Ok(g)
    && PieceImage(piece) == Some(image)
  }

  predicate WitnessMatches(p: Pending, w: Witness) {
    && w.diskIdentity == p.diskIdentity
    && w.rootBytes == p.artifact.rootBytes
    && w.dependencies == p.artifact.dependencies
  }

  function Observed(s: Store): Witness {
    Witness(s.disk.image.bytes, s.disk.identity, s.dependencies)
  }

  /** The directory is new, an interrupted mkdir, or already ours: `prepare_directory` succeeds. */
  predicate Preparable(vm: VmId, s: Store, id: Token) {
    id in s.directories ==>
      s.directories[id].IsEmpty() || s.directories[id].owner == Some(Owner(vm, id))
  }

  // ---- partially completed work ----

  /** Storage left by a crash between creating the temporary owner file and renaming it. */
  function TornAdoption(s: Store, id: Token): Store {
    s.(directories := s.directories[id := EMPTY_DIRECTORY.(strays := 1)])
  }

  /** A creation for `p` may have stopped anywhere; if it looks complete it holds `image`. */
  ghost predicate StagedCreate(vm: VmId, b: Backend, piece: Option<Piece>, p: Pending, image: Image) {
    match piece
    case None => true
    case Some(SnapPiece(snap)) =>
      b == Snapshot && snap.owner == Some(Owner(vm, p.artifact.id)) && snap.image == image
    case Some(DirPiece(dir)) =>
      && b == Reflink
      && (dir.owner.Some? ==> dir.owner == Some(Owner(vm, p.artifact.id)))
      && (dir.ready.Some? ==>
            && dir.owner.Some?
            && dir.disk.Some? && dir.disk.value.image == image
            && dir.ready.value == Manifest(vm, p.artifact.(identity := Some(dir.disk.value.identity))))
  }

  /**
   A restore for `p` may have stopped anywhere. Without a manifest nothing was renamed; with
   one, the staged file holds `src` and is either still staged or already the active disk.
   */
  ghost predicate StagedRestore(vm: VmId, b: Backend, piece: Option<Piece>, disk: DiskFile, p: Pending, src: Image) {
    match piece
    case None => disk.identity == p.diskIdentity
    case Some(SnapPiece(_)) => false
    case Some(DirPiece(dir)) =>
      && b == Reflink
      && (dir.owner.Some? ==> dir.owner == Some(Owner(vm, p.artifact.id)))
      && if dir.ready.None? then disk.identity == p.diskIdentity
         else
           var m := dir.ready.value;
           && dir.owner.Some?
           && m.vm == vm && m.generation.identity.Some?
           && m.generation == p.artifact.(identity := m.generation.identity)
           && if dir.disk.Some? then
                && disk.identity == p.diskIdentity
                && m.generation.identity == Some(dir.disk.value.identity)
                && dir.disk.value.identity != disk.identity
                && dir.disk.value.image == src
              else Some(disk.identity) == m.generation.identity && disk.image == src
  }

  // ---- effects of the storage operations, whatever fails inside them ----

  ghost predicate CreateEffect(vm: VmId, b: Backend, s: Store, s1: Store, p: Pending, r: Result<Generation>) {
    var id := p.artifact.id;
    && s1.disk == s.disk && s1.dependencies == s.dependencies
    && Untouched(s, s1, {id})
    && (UniqueNames(s.snapshots) ==> UniqueNames(s1.snapshots))
    && At(OtherBackend(b), s1, id) == At(OtherBackend(b), s, id)
    && (b == Reflink && !Preparable(vm, s, id) ==> s1 == s && r.Err?)
    && (StagedCreate(vm, b, At(b, s, id), p, s.disk.image) ==>
          && StagedCreate(vm, b, At(b, s1, id), p, s.disk.image)
          && (r.Ok? ==>
                && Published(vm, At(b, s1, id), r.value, s.disk.image)
                && r.value == p.artifact.(identity := r.value.identity)))
  }

  function OtherBackend(b: Backend): Backend { if b == Snapshot then Reflink else Snapshot }

  /** The active disk is wholly what it was or wholly the source, and the source is untouched. */
  ghost predicate RestoreEffect(vm: VmId, b: Backend, s: Store, s1: Store, p: Pending,
                                source: Generation, src: Image, r: Result<Option<Generation>>)
  {
    var id := p.artifact.id;
    && s1.dependencies == s.dependencies
    && Untouched(s, s1, {id})
    && At(OtherBackend(b), s1, id) == At(OtherBackend(b), s, id)
    && s1.snapshots == s.snapshots
    && (b == Reflink && !Preparable(vm, s, id) ==> s1 == s && r.Err?)
    && (StagedRestore(vm, b, At(b, s, id), s.disk, p, src) ==>
          && (s1.disk == s.disk || s1.disk.image == src)
          && StagedRestore(vm, b, At(b, s1, id), s1.disk, p, src)
          && (r.Ok? ==>
                && s1.disk.image == src
                && r.value == if b == Snapshot then None
                              else Some(p.artifact.(identity := Some(s1.disk.identity)))))
  }

  ghost predicate RemoveEffect(s: Store, s1: Store, g: Generation, r: Result<()>) {
    && s1.disk == s.disk && s1.dependencies == s.dependencies
    && Untouched(s, s1, {g.id})
    && (UniqueNames(s.snapshots) ==> UniqueNames(s1.snapshots))
    && At(OtherBackend(g.backend), s1, g.id) == At(OtherBackend(g.backend), s, g.id)
    && (At(g.backend, s, g.id).None? ==> At(g.backend, s1, g.id).None?)
    && (r.Ok? ==> At(g.backend, s1, g.id).None?)
  }

  /** The list after the first `n` snapshots behind index `i` are destroyed. */
  function Rewound(snaps: seq<Snap>, i: nat, n: nat): seq<Snap>
    requires i + n < |snaps|
  {
    snaps[..i + 1] + snaps[i + 1 + n..]
  }

  /** The `n` snapshots behind index `i` were ours and retired; nothing else is gone. */
  ghost predicate RewoundBy(vm: VmId, s: Store, s1: Store, i: nat, n: nat, retired: seq<Generation>) {
    && i + n < |s.snapshots|
    && s1 == s.(snapshots := Rewound(s.snapshots, i, n))
    && forall k :: i < k <= i + n ==> Expendable(vm, s.snapshots[k], retired)
  }

  ghost predicate NamesOf(snaps: seq<Snap>, i: nat, ids: seq<Token>) {
    && i + |ids| < |snaps|
    && forall k :: 0 <= k < |ids| ==> snaps[i + 1 + k].name == Ours(ids[k])
  }

  /** On success the source is the newest snapshot and the returned names are the removed ones. */
  ghost predicate PrepareEffect(vm: VmId, b: Backend, s: Store, s1: Store, source: Generation,
                                retired: seq<Generation>, r: Result<seq<Token>>)
  {
    var i := Position(s.snapshots, Ours(source.id));
    match b
    case Reflink => s1 == s && r == Ok([])
    case Snapshot =>
      if r.Ok? then
        && RewoundBy(vm, s, s1, i, |r.value|, retired)
        && i + |r.value| == |s.snapshots| - 1
        && NamesOf(s.snapshots, i, r.value)
      else s1 == s || exists n: nat :: RewoundBy(vm, s, s1, i, n, retired)
  }

  /** A snapshot that restore may sacrifice: already retired, and authentic. */
  ghost predicate Expendable(vm: VmId, snap: Snap, retired: seq<Generation>) {
    exists g :: g in retired && snap.name == Ours(g.id) && Authentic(vm, SnapPiece(snap), g)
  }

  lemma RewoundElements(all: seq<Snap>, i: nat, n: nat)
    requires UniqueNames(all) && i + n < |all|
    ensures var now := Rewound(all, i, n);
            && |now| == |all| - n
            && (forall k :: 0 <= k <= i ==> now[k] == all[k])
            && (forall k :: i < k < |now| ==> now[k] == all[k + n])
            && UniqueNames(now)
  {
    var now := Rewound(all, i, n);
    assert forall k :: 0 <= k < |now| ==> now[k] == all[if k < i + 1 then k else k + n];
  }

  lemma LookupRewound(all: seq<Snap>, i: nat, n: nat, name: SnapshotName)
    requires UniqueNames(all) && i + n < |all|
    ensures UniqueNames(Rewound(all, i, n))
    ensures Lookup(Rewound(all, i, n), name) ==
            if i < Position(all, name) <= i + n then None else Lookup(all, name)
  {
    var now := Rewound(all, i, n);
    RewoundElements(all, i, n);
    var at := Position(all, name);
    var at1 := if at <= i then at else if at <= i + n then |now| else at - n;
    forall k | 0 <= k < at1 ensures now[k].name != name {
      var j := if k <= i then k else k + n;
      assert now[k] == all[j] && j != at;
    }
    PositionIs(now, name, at1);
  }

  lemma RewoundLosesOnlyRetired(vm: VmId, s: Store, s1: Store, i: nat, n: nat, retired: seq<Generation>)
    requires UniqueNames(s.snapshots) && RewoundBy(vm, s, s1, i, n, retired)
    ensures UniqueNames(s1.snapshots)
    ensures forall b: Backend, id: Token :: At(b, s, id).None? ==> At(b, s1, id).None?
    ensures Untouched(s, s1, set g | g in retired :: g.id)
  {
    var gone := set g | g in retired :: g.id;
    forall id: Token
      ensures At(Snapshot, s, id).None? ==> At(Snapshot, s1, id).None?
      ensures id !in gone ==> At(Snapshot, s1, id) == At(Snapshot, s, id)
    {
      LookupRewound(s.snapshots, i, n, Ours(id));
      var at := Position(s.snapshots, Ours(id));
      assert i < at <= i + n ==> Expendable(vm, s.snapshots[at], retired);
    }
  }

  lemma NamedAreGone(s: Store, i: nat, ids: seq<Token>, id: Token)
    requires UniqueNames(s.snapshots) && NamesOf(s.snapshots, i, ids) && id in ids
    ensures Lookup(Rewound(s.snapshots, i, |ids|), Ours(id)).None?
  {
  }

  /** Preparation only ever loses artifacts that are retired. */
  lemma PrepareLosesOnlyRetired(vm: VmId, b: Backend, s: Store, s1: Store, source: Generation,
                                retired: seq<Generation>, r: Result<seq<Token>>)
    requires UniqueNames(s.snapshots)
    requires PrepareEffect(vm, b, s, s1, source, retired, r)
    ensures UniqueNames(s1.snapshots)
    ensures s1.disk == s.disk && s1.dependencies == s.dependencies && s1.directories == s.directories
    ensures forall b': Backend, id: Token :: At(b', s, id).None? ==> At(b', s1, id).None?
    ensures Untouched(s, s1, set g | g in retired :: g.id)
    ensures r.Ok? ==> forall id :: id in r.value ==> At(b, s1, id).None?
  {
    var i := Position(s.snapshots, Ours(source.id));
    if s1 != s {
      var n: nat :| RewoundBy(vm, s, s1, i, n, retired);
      RewoundLosesOnlyRetired(vm, s, s1, i, n, retired);
    }
    if b == Snapshot && r.Ok? {
      forall id | id in r.value ensures At(b, s1, id).None? {
        NamedAreGone(s, i, r.value, id);
      }
    }
  }

  lemma RewoundExactly(vm: VmId, s: Store, s1: Store, i: nat, n: nat, retired: seq<Generation>, name: SnapshotName)
    requires UniqueNames(s.snapshots) && RewoundBy(vm, s, s1, i, n, retired)
    ensures var at := Position(s.snapshots, name);
            if i < at <= i + n then
              Lookup(s1.snapshots, name).None? && at < |s.snapshots| && Expendable(vm, s.snapshots[at], retired)
            else Lookup(s1.snapshots, name) == Lookup(s.snapshots, name)
  {
    LookupRewound(s.snapshots, i, n, name);
  }

  /**
   However rollback preparation ends, a snapshot is gone only if it is newer than the source,
   retired and ours: the source, older and foreign snapshots survive. On success the source
   is the newest one.
   */
  lemma RollbackPreparationIsSafe(vm: VmId, s: Store, s1: Store, source: Generation,
                                  retired: seq<Generation>, r: Result<seq<Token>>, name: SnapshotName)
    requires UniqueNames(s.snapshots) && PrepareEffect(vm, Snapshot, s, s1, source, retired, r)
    ensures Lookup(s1.snapshots, name) == Lookup(s.snapshots, name)
            || (&& Lookup(s1.snapshots, name).None?
                && Position(s.snapshots, name) < |s.snapshots|
                && Position(s.snapshots, name) > Position(s.snapshots, Ours(source.id))
                && Expendable(vm, s.snapshots[Position(s.snapshots, name)], retired))
    ensures name.Foreign? || name == Ours(source.id) ==> Lookup(s1.snapshots, name) == Lookup(s.snapshots, name)
    ensures r.Ok? ==> s1.snapshots != [] && s1.snapshots[|s1.snapshots| - 1].name == Ours(source.id)
  {
    var i := Position(s.snapshots, Ours(source.id));
    if s1 != s {
      var n: nat :| RewoundBy(vm, s, s1, i, n, retired);
      RewoundExactly(vm, s, s1, i, n, retired, name);
    }
  }

  // ---- when the operations succeed if no command fails ----

  function FindByName(retired: seq<Generation>, name: SnapshotName): (found: Option<Generation>)
    ensures found.Some? ==> found.value in retired && Ours(found.value.id) == name
    ensures found.None? ==> forall g :: g in retired ==> Ours(g.id) != name
    decreases |retired|
  {
    if retired == [] then None
    else if Ours(retired[0].id) == name then Some(retired[0])
    else FindByName(retired[1..], name)
  }

  predicate Sacrificable(vm: VmId, snap: Snap, retired: seq<Generation>) {
    var g := FindByName(retired, snap.name);
    g.Some? && Verification(vm, Some(SnapPiece(snap)), g.value).Ok?
  }

  /** Every snapshot newer than the source can be sacrificed. */
  predicate Rewindable(vm: VmId, snaps: seq<Snap>, source: Generation, retired: seq<Generation>) {
    var i := Position(snaps, Ours(source.id));
    && i < |snaps|
    && forall k :: i < k < |snaps| ==> Sacrificable(vm, snaps[k], retired)
  }

  lemma SacrificableIsExpendable(vm: VmId, snap: Snap, retired: seq<Generation>)
    requires Sacrificable(vm, snap, retired)
    ensures Expendable(vm, snap, retired)
  {
    VerifiesExactlyTheAuthentic(vm, Some(SnapPiece(snap)), FindByName(retired, snap.name).value);
  }

  /** Without two retired generations of one name, exactly the expendable snapshots can be sacrificed. */
  lemma SacrificableExactly(vm: VmId, snap: Snap, retired: seq<Generation>)
    requires DistinctIds(retired)
    ensures Sacrificable(vm, snap, retired) <==> Expendable(vm, snap, retired)
  {
    var found := FindByName(retired, snap.name);
    if found.Some? { VerifiesExactlyTheAuthentic(vm, Some(SnapPiece(snap)), found.value); }
    if Expendable(vm, snap, retired) {
      var g :| g in retired && snap.name == Ours(g.id) && Authentic(vm, SnapPiece(snap), g);
      assert found == Some(g);
    }
  }

  predicate CreateReady(vm: VmId, b: Backend, s: Store, p: Pending) {
    var id := p.artifact.id;
    && s.disk.image.bytes > 0
    && WitnessMatches(p, Observed(s))
    && match b
       case Snapshot => At(b, s, id).None? ==> p.artifact.identity.None?
       case Reflink => Preparable(vm, s, id)
  }

  predicate RestoreReady(vm: VmId, b: Backend, s: Store, p: Pending, source: Generation) {
    var id := p.artifact.id;
    && Verification(vm, At(b, s, source.id), source).Ok?
    && s.disk.image.bytes > 0
    && s.disk.image.bytes == source.rootBytes && s.dependencies == source.dependencies
    && match b
       case Snapshot =>
         WitnessMatches(p, Observed(s)) && s.snapshots[|s.snapshots| - 1].name == Ours(source.id)
       case Reflink => Preparable(vm, s, id)
  }

  /** Restoring a volume succeeds if every newer snapshot can be sacrificed and nothing else changed. */
  predicate RollbackReady(vm: VmId, s: Store, p: Pending, source: Generation, retired: seq<Generation>) {
    && Rewindable(vm, s.snapshots, source, retired)
    && Verification(vm, At(Snapshot, s, source.id), source).Ok?
    && s.disk.image.bytes > 0
    && s.disk.image.bytes == source.rootBytes && s.dependencies == source.dependencies
    && WitnessMatches(p, Observed(s))
  }

  /** What admission and earlier attempts guarantee about a pending restore of `source`. */
  ghost predicate RestoreFacts(vm: VmId, b: Backend, s: Store, p: Pending, source: Generation, src: Image) {
    && StagedRestore(vm, b, At(b, s, p.artifact.id), s.disk, p, src)
    && source.rootBytes == p.artifact.rootBytes
    && source.dependencies == p.artifact.dependencies
  }

  predicate Removable(vm: VmId, s: Store, g: Generation) {
    match At(g.backend, s, g.id)
    case None => true
    case Some(SnapPiece(_)) => Verification(vm, At(g.backend, s, g.id), g).Ok?
    case Some(DirPiece(dir)) =>
      || dir.IsEmpty()
      || (&& dir.owner == Some(Owner(vm, g.id))
          && dir.strays == 0
          && (dir.disk.Some? && g.identity.Some? ==> Verification(vm, At(g.backend, s, g.id), g).Ok?))
  }

  /**
   An artifact can be removed exactly if it is not there, authentic, or a directory that is empty
   or owned for the generation and holds nothing unknown; a disk in it that has a recorded identity
   must be authentic.
   */
  lemma RemovableExactly(vm: VmId, s: Store, g: Generation)
    ensures Removable(vm, s, g) <==>
              match At(g.backend, s, g.id)
              case None => true
              case Some(SnapPiece(snap)) => Authentic(vm, SnapPiece(snap), g)
              case Some(DirPiece(dir)) =>
                || dir == Directory(None, None, None, 0)
                || (&& dir.owner == Some(Owner(vm, g.id)) && dir.strays == 0
                    && (dir.disk.None? || g.identity.None? || Authentic(vm, DirPiece(dir), g)))
  {
    VerifiesExactlyTheAuthentic(vm, At(g.backend, s, g.id), g);
  }

  /** The stopped disk is the one that was inspected for the pending operation, with its boot files. */
  ghost predicate AsAdmitted(s: Store, p: Pending) {
    && s.disk.identity == p.diskIdentity
    && s.disk.image.bytes == p.artifact.rootBytes
    && s.dependencies == p.artifact.dependencies
  }
}
