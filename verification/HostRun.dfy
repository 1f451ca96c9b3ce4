/**
 Whole runs of one agent: the durable table of VM records and the disks behind it, as they
 are after each durable write or storage command. A crash may happen between any two of
 them, so every state that a run passes through is one that recovery may start from.
 */
module HostRun {
  import opened Model
  import opened BackupRecord
  import opened Network
  import opened Table

  /** Fixed for the run: capacities, the range of published ports, the backup backend. */
  datatype Conf = Conf(totals: Resource, portLo: u16, portHi: u16, backend: Backend)

  /**
   The durable table, the workers in memory, the root capacity in MiB of every clone on storage,
   and the guests that were booted and have not ended: these run, or may still come up.
   */
  datatype Host = Host(table: seq<Vm>, running: set<VmId>, disks: map<VmId, nat>, live: set<VmId>)

  datatype Event =
    | Reserve(vm: Vm)
    | Seed(id: VmId, info: SshInfo)
    | Clone(id: VmId, mib: nat)
    | Extend(id: VmId, mib: nat)
    | Created(id: VmId, error: Option<Fault>)
    | Boot(id: VmId)
    | Exit(id: VmId)
    | StartBegin(id: VmId)
    | StartEnd(id: VmId, error: Option<Fault>)
    | Stopping(id: VmId, ok: bool)
    | ResizeBegin(id: VmId, target: Resources)
    | ResizeDisk(id: VmId, mib: nat)
    | ResizeFailed(id: VmId)
    | ResizeEnd(id: VmId)
    | Observe(id: VmId, state: VmState, error: Option<Fault>, ssh: Option<SshInfo>)
    | DestroyBegin(id: VmId)
    | DestroyFault(id: VmId, fault: Fault)
    | Forget(id: VmId)
    | RemoveImage(id: VmId)
    | DeleteRow(id: VmId)
    | Claim(id: VmId)
    | Release(id: VmId)
    | Admit(id: VmId, request: Request, seen: Witness, artifact: Token, revision: Token, now: nat)
    | Publish(id: VmId, request: Request, removed: seq<Token>, result: Result<Option<Generation>>, now: nat)
    | Clean(id: VmId, removed: seq<Token>, failure: Option<Error>, now: nat)
    | Crash

  function Overhead(vm: Vm): u32 { ConfigDiskMib(vm.options, vm.engine) }

  /** Root capacity for which space is reserved: the recorded one or a larger pending target. */
  function ReservedRoot(vm: Vm): u32 { SatSub(BaseDisk(vm), Overhead(vm)) }

  /** The clone exists and has at least the recorded capacity. */
  predicate Full(h: Host, vm: Vm) { vm.id in h.disks && h.disks[vm.id] >= RootMib(vm) }

  /** `backup_guard` refuses lifecycle changes of the VM. */
  predicate Guarded(running: set<VmId>, vm: Vm) { Busy(vm.backup) || vm.id in running }

  // ---- the records that lifecycle operations save ----

  function AfterStart(vm: Vm, error: Option<Fault>): Vm {
    vm.(state := if error.None? then VmState.Running else Failed, error := error)
  }

  function Unready(ssh: Option<SshInfo>): Option<SshInfo> {
    if ssh.None? then None else Some(ssh.value.(ready := false))
  }

  function AfterStop(vm: Vm, ok: bool): Vm {
    if ok then vm.(state := VmState.Stopped, ssh := Unready(vm.ssh), error := None)
    else vm.(error := Some(StopUnfinished))
  }

  function Intended(vm: Vm, t: Resources): Vm {
    vm.(pendingResources := Some(t), error := Some(ResizeRecorded))
  }

  function Resized(vm: Vm, t: Resources): Vm
    requires t.disk + Overhead(vm) <= U32_MAX
  {
    vm.(cpu := t.cpu, mem := t.mem, disk := t.disk + Overhead(vm),
        options := vm.options.(requestedDisk := t.disk), pendingResources := None, error := None)
  }

  /** What a confirmed stop, a failed one and the two ends of a start change in the record. */
  lemma PowerSaves(vm: Vm, fault: Fault)
    ensures var off := AfterStop(vm, true);
            && off == vm.(state := VmState.Stopped, error := None, ssh := off.ssh)
            && (vm.ssh.None? ==> off.ssh.None?)
            && (vm.ssh.Some? ==> off.ssh == Some(SshInfo(vm.ssh.value.initialized, false, vm.ssh.value.observing)))
    ensures AfterStop(vm, false) == vm.(error := Some(StopUnfinished))
    ensures AfterStart(vm, None) == vm.(state := VmState.Running, error := None)
    ensures AfterStart(vm, Some(fault)) == vm.(state := Failed, error := Some(fault))
  {
  }

  /** A recorded target changes nothing else until it is complete, and then nothing else but what it names. */
  lemma ResizeSaves(vm: Vm, t: Resources)
    requires t.disk + Overhead(vm) <= U32_MAX
    ensures Intended(vm, t) == vm.(pendingResources := Some(t), error := Some(ResizeRecorded))
    ensures var vm1 := Resized(vm, t);
            && vm1 == vm.(cpu := t.cpu, mem := t.mem, disk := vm1.disk, options := vm1.options,
                          pendingResources := None, error := None)
            && vm1.options == vm.options.(requestedDisk := t.disk)
            && RootMib(vm1) == t.disk
  {
  }

  /** A resource update that `resize_vm` would admit, given the free resources of the host. */
  predicate ResizeFits(vm: Vm, t: Resources, current: nat, resource: Resource) {
    && (HasArtifacts(vm.backup) ==> t.disk == RootMib(vm))
    && Resizable(vm.engine)
    && t.cpu > 0 && t.mem > 0 && t.disk > 0
    && vm.state == VmState.Stopped
    && (vm.pendingResources.Some? ==> vm.pendingResources == Some(t))
    && t.disk >= current && t.disk >= RootMib(vm) && t.disk >= vm.options.requestedDisk
    && t.disk + Overhead(vm) <= U32_MAX
    && resource.CanFit(t.cpu, MemoryReservation(vm.engine, t.mem), SatSub(t.disk + Overhead(vm), ReservedDisk(vm)))
  }

  // ---- steps ----

  function Free(c: Conf, h: Host): Resource { Accounted(c.totals, h.table) }

  ghost predicate Fresh(c: Conf, h: Host, vm: Vm) {
    && Load(h.table, vm.id).None?
    && vm.backup == NoBackups(vm.backup.revision)
    && vm.pendingResources.None? && vm.state == VmState.Creating
    && Overhead(vm) <= vm.disk
    && Free(c, h).CanFit(vm.cpu, MemoryReservation(vm.engine, vm.mem), vm.disk)
    && Free(c, h).vmCount < MAX_VMS
    && Addressed(c, h.table, vm.engine, vm.ip, vm.portMap)
  }

  /** The first unused address, and host ports that no other record has. */
  ghost predicate Addressed(c: Conf, rows: seq<Vm>, engine: Engine, ip: Ip, ports: map<u16, u16>) {
    && (if engine == Docker then ip == NoIp
        else exists index: nat :: index < ADDRESS_LIMIT && FirstUnused(UsedAddresses(rows), index) && ip == VmIp(index))
    && Injective(ports)
    && forall g :: g in ports ==> c.portLo <= ports[g] <= c.portHi && ports[g] !in UsedPorts(rows)
  }

  /** The row of `id` exists and may be changed by a lifecycle operation. */
  predicate Open(h: Host, id: VmId) {
    && Load(h.table, id).Some?
    && !Guarded(h.running, Load(h.table, id).value)
    && Load(h.table, id).value.state != Deleting
  }

  function Row(h: Host, id: VmId): Vm
    requires Load(h.table, id).Some?
  {
    Load(h.table, id).value
  }

  function With(h: Host, vm: Vm): Host { h.(table := Saved(h.table, vm)) }

  ghost predicate CreateStep(c: Conf, h: Host, e: Event, h1: Host)
    requires e.Reserve? || e.Seed? || e.Clone? || e.Extend? || e.Created?
  {
    match e
    case Reserve(vm) => Fresh(c, h, vm) && h1 == With(h, vm)
    case Seed(id, info) =>
      && Open(h, id) && Row(h, id).state == VmState.Creating
      && h1 == With(h, Row(h, id).(ssh := Some(info)))
    case Clone(id, mib) =>
      && Open(h, id) && Row(h, id).state == VmState.Creating && id !in h.disks && id !in h.live
      && Row(h, id).engine != Docker
      && (Resizable(Row(h, id).engine) ==> mib <= RootMib(Row(h, id)))
      && h1 == h.(disks := h.disks[id := mib])
    case Extend(id, mib) =>
      && Open(h, id) && Row(h, id).state == VmState.Creating && id in h.disks && id !in h.live
      && h.disks[id] <= mib <= RootMib(Row(h, id))
      && h1 == h.(disks := h.disks[id := mib])
    case Created(id, error) =>
      && Open(h, id) && Row(h, id).state == VmState.Creating
      && (error.None? && Resizable(Row(h, id).engine) ==> Full(h, Row(h, id)))
      && h1 == With(h, AfterStart(Row(h, id), error))
  }

  ghost predicate PowerStep(c: Conf, h: Host, e: Event, h1: Host)
    requires e.StartBegin? || e.StartEnd? || e.Stopping?
  {
    match e
    case StartBegin(id) =>
      && Open(h, id) && Row(h, id).pendingResources.None?
      && (|| Row(h, id).state == VmState.Paused
          || (&& Row(h, id).state == VmState.Stopped
              && Free(c, h).CanFit(Row(h, id).cpu, MemoryReservation(Row(h, id).engine, Row(h, id).mem), 0)))
      && h1 == With(h, Row(h, id).(state := VmState.Creating))
    case StartEnd(id, error) =>
      && Open(h, id) && Row(h, id).state == VmState.Creating
      && h1 == With(h, AfterStart(Row(h, id), error))
    case Stopping(id, ok) =>
      && Open(h, id) && Row(h, id).state != VmState.Creating && (ok ==> id !in h.live)
      && h1 == With(h, AfterStop(Row(h, id), ok))
  }

  /** A guest is booted while its record says so; it may end at any time, and it ends before a stop is confirmed. */
  ghost predicate GuestStep(h: Host, e: Event, h1: Host)
    requires e.Boot? || e.Exit?
  {
    match e
    case Boot(id) =>
      && Open(h, id) && Row(h, id).state == VmState.Creating && Row(h, id).pendingResources.None?
      && h1 == h.(live := h.live + {id})
    case Exit(id) => h1 == h.(live := h.live - {id})
  }

  ghost predicate ResizeStep(c: Conf, h: Host, e: Event, h1: Host)
    requires e.ResizeBegin? || e.ResizeDisk? || e.ResizeFailed? || e.ResizeEnd?
  {
    match e
    case ResizeBegin(id, t) =>
      && Open(h, id) && id in h.disks && id !in h.live
      && ResizeFits(Row(h, id), t, h.disks[id], Free(c, h))
      && h1 == With(h, Intended(Row(h, id), t))
    case ResizeDisk(id, mib) =>
      && Open(h, id) && id in h.disks && id !in h.live && Row(h, id).pendingResources.Some?
      && h.disks[id] <= mib <= Row(h, id).pendingResources.value.disk
      && h1 == h.(disks := h.disks[id := mib])
    case ResizeFailed(id) =>
      && Open(h, id) && Row(h, id).pendingResources.Some?
      && h1 == With(h, Row(h, id).(error := Some(ResizeRecorded)))
    case ResizeEnd(id) =>
      && Open(h, id) && id in h.disks && Row(h, id).pendingResources.Some?
      && var t := Row(h, id).pendingResources.value;
         && t.disk + Overhead(Row(h, id)) <= U32_MAX
         && h.disks[id] == t.disk
         && h1 == With(h, Resized(Row(h, id), t))
  }

  ghost predicate DestroyStep(c: Conf, h: Host, e: Event, h1: Host)
    requires e.DestroyBegin? || e.DestroyFault? || e.Forget? || e.RemoveImage? || e.DeleteRow?
  {
    && Load(h.table, e.id).Some? && e.id !in h.running
    && var vm := Row(h, e.id);
       match e
       case DestroyBegin(id) => h1 == With(h, vm.(state := Deleting))
       case DestroyFault(id, error) => vm.state == Deleting && h1 == With(h, vm.(error := Some(error)))
       case Forget(id) => vm.state == Deleting && id !in h.live && h1 == With(h, Forgotten(vm))
       case RemoveImage(id) =>
         && vm.state == Deleting && vm == Forgotten(vm) && id !in h.live
         && h1 == h.(disks := h.disks - {id})
       case DeleteRow(id) =>
         && vm.state == Deleting && vm == Forgotten(vm) && id !in h.disks && id !in h.live
         && h1 == h.(table := Deleted(h.table, id))
  }

  ghost predicate BackupStep(c: Conf, h: Host, e: Event, h1: Host)
    requires e.Claim? || e.Release? || e.Admit? || e.Publish? || e.Clean?
  {
    match e
    case Claim(id) =>
      && Load(h.table, id).Some? && id !in h.running && |h.running| < 2
      && h1 == h.(running := h.running + {id})
    case Release(id) => h1 == h.(running := h.running - {id})
    case Admit(id, r, seen, artifact, revision, now) =>
      && Load(h.table, id).Some? && id in h.running
      && var vm := Row(h, id);
         var a := Admission(vm, r, seen, c.backend, Free(c, h).DiskFree(), artifact, revision, now);
         && a.Ok? && (forall g :: g in Tracked(vm.backup) ==> g.id != artifact)
         && h1 == With(h, a.value)
    case Publish(id, r, removed, result, now) =>
      && Load(h.table, id).Some? && id in h.running
      && var vm := Row(h, id);
         && vm.backup.pending.Some? && Fulfils(vm.backup.pending.value, result)
         && Finished(vm, r, removed, result, now).Ok?
         && h1 == With(h, Finished(vm, r, removed, result, now).value)
    case Clean(id, removed, error, now) =>
      && Load(h.table, id).Some? && id in h.running
      && var vm := Row(h, id);
         && CleanedUp(vm, removed, error, now).Ok?
         && h1 == With(h, CleanedUp(vm, removed, error, now).value)
  }

  predicate ByCreation(e: Event) { e.Reserve? || e.Seed? || e.Clone? || e.Extend? || e.Created? }
  predicate ByGuest(e: Event) { e.Boot? || e.Exit? }
  predicate ByPower(e: Event) { e.StartBegin? || e.StartEnd? || e.Stopping? }
  predicate ByResize(e: Event) { e.ResizeBegin? || e.ResizeDisk? || e.ResizeFailed? || e.ResizeEnd? }
  predicate ByDestruction(e: Event) {
    e.DestroyBegin? || e.DestroyFault? || e.Forget? || e.RemoveImage? || e.DeleteRow?
  }
  predicate ByBackup(e: Event) { e.Claim? || e.Release? || e.Admit? || e.Publish? || e.Clean? }

  ghost predicate Step(c: Conf, h: Host, e: Event, h1: Host) {
    if ByCreation(e) then CreateStep(c, h, e, h1)
    else if ByGuest(e) then GuestStep(h, e, h1)
    else if ByPower(e) then PowerStep(c, h, e, h1)
    else if ByResize(e) then ResizeStep(c, h, e, h1)
    else if ByDestruction(e) then DestroyStep(c, h, e, h1)
    else if ByBackup(e) then BackupStep(c, h, e, h1)
    else match e
      case Observe(id, state, error, ssh) =>
        && Load(h.table, id).Some? && Row(h, id).state != Deleting && state != Deleting
        && h1 == With(h, Row(h, id).(state := state, error := error, ssh := ssh))
      case _ => e.Crash? && h1 == h.(running := {})
  }

  ghost function Successors(c: Conf, h: Host, e: Event): iset<Host> { iset h1 | Step(c, h, e, h1) }

  ghost predicate Init(h: Host) { h == Host([], {}, map[], {}) }

  ghost predicate Run(c: Conf, hs: seq<Host>, es: seq<Event>) {
    && |hs| == |es| + 1
    && Init(hs[0])
    && c.portLo <= c.portHi
    && forall i {:trigger Linked(c, hs, es, i)} :: 0 <= i < |es| ==> Linked(c, hs, es, i)
  }

  ghost predicate Linked(c: Conf, hs: seq<Host>, es: seq<Event>, i: int)
    requires 0 <= i < |es| < |hs|
  {
    Step(c, hs[i], es[i], hs[i + 1])
  }

  // ---- the invariant ----

  /** Recorded and physical capacity of one VM; a guest with an unfinished target is off. */
  ghost predicate Capacity(h: Host, vm: Vm) {
    && Overhead(vm) <= vm.disk
    && (vm.engine == Docker ==> vm.id !in h.disks)
    && (vm.pendingResources.Some? ==>
          && Resizable(vm.engine)
          && vm.id !in h.live
          && vm.pendingResources.value.disk >= RootMib(vm)
          && vm.pendingResources.value.disk + Overhead(vm) <= U32_MAX
          && (HasArtifacts(vm.backup) ==> vm.pendingResources.value.disk == RootMib(vm)))
    && (Resizable(vm.engine) && vm.id in h.disks ==> h.disks[vm.id] <= ReservedRoot(vm))
  }

  ghost predicate RowInv(h: Host, vm: Vm) {
    && RecordInv(vm)
    && Capacity(h, vm)
    && (if vm.engine == Docker then vm.ip == NoIp else vm.ip.Ip? && vm.ip != BRIDGE)
  }

  ghost predicate Rows(h: Host) { forall vm :: vm in h.table ==> RowInv(h, vm) }

  ghost predicate Budget(c: Conf, h: Host) { SumDisk(h.table) <= c.totals.diskTotal }

  ghost predicate AddressesUnique(rows: seq<Vm>) {
    forall i, j :: 0 <= i < j < |rows| && rows[i].engine != Docker && rows[j].engine != Docker ==>
      rows[i].ip != rows[j].ip
  }

  ghost predicate Names(h: Host) {
    && UniqueIds(h.table)
    && |h.table| <= MAX_VMS
    && |h.running| <= 2
    && (forall id :: id in h.running ==> Load(h.table, id).Some?)
    && (forall id :: id in h.disks ==> Load(h.table, id).Some?)
    && (forall id :: id in h.live ==> Load(h.table, id).Some?)
  }

  ghost predicate Inv(c: Conf, h: Host) {
    && Names(h)
    && Rows(h)
    && Budget(c, h)
    && AddressesUnique(h.table)
    && PortsUnique(h.table, c.portLo, c.portHi)
  }

  /** Within the budget nothing saturates: the recount is the true sum. */
  lemma RecountIsExact(c: Conf, h: Host)
    requires Inv(c, h)
    ensures Free(c, h).diskUsed == SumDisk(h.table)
    ensures Free(c, h).vmCount == |h.table|
    ensures Free(c, h).diskTotal == c.totals.diskTotal
    ensures SumDisk(h.table) + Free(c, h).DiskFree() == c.totals.diskTotal
  {
    RecountIsCappedSum(c.totals, h.table);
  }

  /** Nobody else can tell the two records apart. */
  predicate SamePublic(vm: Vm, vm1: Vm) {
    vm1.id == vm.id && vm1.ip == vm.ip && vm1.engine == vm.engine && vm1.portMap == vm.portMap
  }

  lemma ReplacedRow(rows: seq<Vm>, vm1: Vm)
    requires Load(rows, vm1.id).Some?
    ensures var i := IndexOf(rows, vm1.id);
            i < |rows| && Saved(rows, vm1) == rows[i := vm1] && rows[i] == Load(rows, vm1.id).value
  {
  }

  lemma SaveKeepsNames(h: Host, vm1: Vm)
    requires Names(h) && Load(h.table, vm1.id).Some?
    ensures Names(With(h, vm1))
  {
    SavedKeepsIds(h.table, vm1);
    forall id | id in h.disks || id in h.running || id in h.live ensures Load(With(h, vm1).table, id).Some? {
      LoadSaved(h.table, vm1, id);
    }
  }

  lemma SaveKeepsRows(h: Host, vm1: Vm)
    requires Rows(h) && Load(h.table, vm1.id).Some? && RowInv(h, vm1)
    ensures Rows(With(h, vm1))
  {
    ReplacedRow(h.table, vm1);
    forall row | row in With(h, vm1).table ensures RowInv(With(h, vm1), row) {
      if row != vm1 { assert row in h.table; }
      assert RowInv(h, row);
    }
  }

  lemma SaveKeepsPublic(c: Conf, rows: seq<Vm>, vm: Vm, vm1: Vm)
    requires Load(rows, vm.id) == Some(vm) && SamePublic(vm, vm1)
    requires AddressesUnique(rows) && PortsUnique(rows, c.portLo, c.portHi)
    ensures AddressesUnique(Saved(rows, vm1)) && PortsUnique(Saved(rows, vm1), c.portLo, c.portHi)
  {
  }

  /** Replacing one record by an equally public one that fits keeps the invariant. */
  lemma SaveKeeps(c: Conf, h: Host, vm: Vm, vm1: Vm)
    requires Inv(c, h) && Load(h.table, vm.id) == Some(vm) && SamePublic(vm, vm1)
    requires RowInv(h, vm1)
    requires TrueDisk(vm1) <= TrueDisk(vm) + Free(c, h).DiskFree()
    ensures Inv(c, With(h, vm1))
  {
    SaveKeepsNames(h, vm1);
    SaveKeepsRows(h, vm1);
    SaveKeepsPublic(c, h.table, vm, vm1);
    SumSaved(h.table, vm1);
    RecountIsExact(c, h);
  }

  // ---- every step keeps the invariant ----

  /** A change of flags alone: neither capacity nor backups are touched. */
  lemma FlagsKeep(c: Conf, h: Host, vm: Vm, vm1: Vm)
    requires Inv(c, h) && Load(h.table, vm.id) == Some(vm)
    requires vm1 == vm.(state := vm1.state, error := vm1.error, ssh := vm1.ssh)
    ensures Inv(c, With(h, vm1))
  {
    assert RowInv(h, vm);
    SaveKeeps(c, h, vm, vm1);
  }

  lemma FreshRow(c: Conf, h: Host, vm: Vm)
    requires Inv(c, h) && Fresh(c, h, vm)
    ensures RowInv(h, vm) && TrueDisk(vm) == vm.disk
  {
    assert Committed(vm.backup) == [] && Tracked(vm.backup) == [];
    if vm.engine != Docker {
      var index: nat :| index < ADDRESS_LIMIT && FirstUnused(UsedAddresses(h.table), index) && vm.ip == VmIp(index);
      BridgeIsHitOnlyByPeriod(index);
    }
  }

  lemma FreshAddress(h: Host, vm: Vm, c: Conf)
    requires Fresh(c, h, vm) && AddressesUnique(h.table)
    ensures AddressesUnique(h.table + [vm])
  {
  }

  lemma FreshPorts(h: Host, vm: Vm, c: Conf)
    requires Fresh(c, h, vm) && PortsUnique(h.table, c.portLo, c.portHi)
    ensures PortsUnique(h.table + [vm], c.portLo, c.portHi)
  {
  }

  lemma FreshRows(h: Host, vm: Vm)
    requires Rows(h) && RowInv(h, vm)
    ensures Rows(h.(table := h.table + [vm]))
  {
    var h1 := h.(table := h.table + [vm]);
    forall row | row in h1.table ensures RowInv(h1, row) {
      if row == vm { SameDisks(h, h1, vm); } else { SameDisks(h, h1, row); }
    }
  }

  lemma SameDisks(h: Host, h1: Host, row: Vm)
    requires RowInv(h, row) && h1.disks == h.disks && h1.live == h.live
    ensures RowInv(h1, row)
  {
  }

  lemma ReserveKeeps(c: Conf, h: Host, vm: Vm)
    requires Inv(c, h) && Fresh(c, h, vm)
    ensures Inv(c, With(h, vm))
  {
    var h1 := With(h, vm);
    assert h1.table == h.table + [vm];
    FreshRow(c, h, vm);
    FreshAddress(h, vm, c);
    FreshPorts(h, vm, c);
    SumSaved(h.table, vm);
    RecountIsExact(c, h);
    SavedKeepsIds(h.table, vm);
    forall id | id in h1.disks || id in h1.running || id in h1.live ensures Load(h1.table, id).Some? {
      LoadSaved(h.table, vm, id);
    }
    FreshRows(h, vm);
  }

  /** A storage command on the clone of `vm`; the table is untouched. */
  lemma DiskKeeps(c: Conf, h: Host, vm: Vm, h1: Host)
    requires Inv(c, h) && Load(h.table, vm.id) == Some(vm)
    requires h1 == h.(disks := h1.disks)
    requires forall id :: id != vm.id ==> (id in h1.disks <==> id in h.disks)
    requires forall id :: id != vm.id && id in h.disks ==> h1.disks[id] == h.disks[id]
    requires Capacity(h1, vm)
    ensures Inv(c, h1)
  {
    forall other | other in h1.table ensures RowInv(h1, other) {
      assert RowInv(h, other);
      if other.id == vm.id { OnlyOne(h.table, vm, other); }
    }
  }

  lemma OnlyOne(rows: seq<Vm>, vm: Vm, other: Vm)
    requires UniqueIds(rows) && Load(rows, vm.id) == Some(vm) && other in rows && other.id == vm.id
    ensures other == vm
  {
  }

  lemma CloneKeeps(c: Conf, h: Host, e: Event, h1: Host)
    requires Inv(c, h) && e.Clone? && CreateStep(c, h, e, h1)
    ensures Inv(c, h1)
  {
    assert RowInv(h, Row(h, e.id));
    DiskKeeps(c, h, Row(h, e.id), h1);
  }

  lemma ExtendKeeps(c: Conf, h: Host, e: Event, h1: Host)
    requires Inv(c, h) && e.Extend? && CreateStep(c, h, e, h1)
    ensures Inv(c, h1)
  {
    assert RowInv(h, Row(h, e.id));
    DiskKeeps(c, h, Row(h, e.id), h1);
  }

  lemma CreateKeeps(c: Conf, h: Host, e: Event, h1: Host)
    requires Inv(c, h) && ByCreation(e) && CreateStep(c, h, e, h1)
    ensures Inv(c, h1)
  {
    match e
    case Reserve(vm) => ReserveKeeps(c, h, vm);
    case Seed(id, info) => FlagsKeep(c, h, Row(h, id), Row(h, id).(ssh := Some(info)));
    case Clone(id, mib) => CloneKeeps(c, h, e, h1);
    case Extend(id, mib) => ExtendKeeps(c, h, e, h1);
    case Created(id, error) => FlagsKeep(c, h, Row(h, id), AfterStart(Row(h, id), error));
  }

  lemma PowerKeeps(c: Conf, h: Host, e: Event, h1: Host)
    requires Inv(c, h) && ByPower(e) && PowerStep(c, h, e, h1)
    ensures Inv(c, h1)
  {
    match e
    case StartBegin(id) => FlagsKeep(c, h, Row(h, id), Row(h, id).(state := VmState.Creating));
    case StartEnd(id, error) => FlagsKeep(c, h, Row(h, id), AfterStart(Row(h, id), error));
    case Stopping(id, ok) => FlagsKeep(c, h, Row(h, id), AfterStop(Row(h, id), ok));
  }

  /** A guest comes or goes; record and storage are untouched. */
  lemma GuestKeeps(c: Conf, h: Host, e: Event, h1: Host)
    requires Inv(c, h) && ByGuest(e) && GuestStep(h, e, h1)
    ensures Inv(c, h1)
  {
    forall row | row in h1.table ensures RowInv(h1, row) {
      assert RowInv(h, row);
      if e.Boot? && row.id == e.id { OnlyOne(h.table, Row(h, e.id), row); }
    }
  }

  /** A record without artifacts tracks nothing and reserves nothing for backups. */
  lemma NoArtifacts(vm: Vm)
    requires RecordInv(vm) && !HasArtifacts(vm.backup)
    ensures Tracked(vm.backup) == [] && TrueMib(vm.backup) == 0 && TrueDisk(vm) == BaseDisk(vm)
  {
  }

  lemma IntentKeepsRow(h: Host, vm: Vm, t: Resources, resource: Resource)
    requires RowInv(h, vm) && !Busy(vm.backup)
    requires vm.id in h.disks && vm.id !in h.live && ResizeFits(vm, t, h.disks[vm.id], resource)
    ensures RowInv(h, Intended(vm, t))
  {
  }

  /** Recording a target reserves at most what the capacity check left free. */
  lemma IntentFits(c: Conf, h: Host, vm: Vm, t: Resources, current: nat)
    requires Inv(c, h) && Load(h.table, vm.id) == Some(vm) && !Busy(vm.backup)
    requires ResizeFits(vm, t, current, Free(c, h))
    ensures TrueDisk(Intended(vm, t)) <= TrueDisk(vm) + Free(c, h).DiskFree()
  {
    hide Names, AddressesUnique, PortsUnique;
    assert RowInv(h, vm);
    ReservationIsCappedSum(vm);
    RowWithinSum(h.table, IndexOf(h.table, vm.id));
    if !HasArtifacts(vm.backup) {
      NoArtifacts(vm);
    }
  }

  lemma ResizedKeepsRow(h: Host, vm: Vm)
    requires RowInv(h, vm) && vm.pendingResources.Some? && !Busy(vm.backup)
    requires vm.id in h.disks && h.disks[vm.id] == vm.pendingResources.value.disk
    ensures var vm1 := Resized(vm, vm.pendingResources.value);
            && RowInv(h, vm1)
            && TrueDisk(vm1) <= TrueDisk(vm)
  {
  }

  lemma ResizeEndKeeps(c: Conf, h: Host, id: VmId, h1: Host)
    requires Inv(c, h) && ResizeStep(c, h, ResizeEnd(id), h1)
    ensures Inv(c, h1)
  {
    var vm := Row(h, id);
    assert RowInv(h, vm);
    ResizedKeepsRow(h, vm);
    SaveKeeps(c, h, vm, Resized(vm, vm.pendingResources.value));
  }

  lemma ResizeBeginKeeps(c: Conf, h: Host, id: VmId, t: Resources, h1: Host)
    requires Inv(c, h) && ResizeStep(c, h, ResizeBegin(id, t), h1)
    ensures Inv(c, h1)
  {
    var vm := Row(h, id);
    assert RowInv(h, vm);
    IntentKeepsRow(h, vm, t, Free(c, h));
    IntentFits(c, h, vm, t, h.disks[id]);
    SaveKeeps(c, h, vm, Intended(vm, t));
  }

  lemma CapacityWhileResizing(h: Host, vm: Vm, mib: nat)
    requires Capacity(h, vm) && vm.pendingResources.Some? && mib <= vm.pendingResources.value.disk
    ensures Capacity(h.(disks := h.disks[vm.id := mib]), vm)
  {
  }

  lemma ResizeDiskKeeps(c: Conf, h: Host, id: VmId, mib: nat, h1: Host)
    requires Inv(c, h) && Load(h.table, id).Some? && id in h.disks && Row(h, id).pendingResources.Some?
    requires mib <= Row(h, id).pendingResources.value.disk && h1 == h.(disks := h.disks[id := mib])
    ensures Inv(c, h1)
  {
    assert RowInv(h, Row(h, id));
    CapacityWhileResizing(h, Row(h, id), mib);
    DiskKeeps(c, h, Row(h, id), h1);
  }

  lemma ResizeKeeps(c: Conf, h: Host, e: Event, h1: Host)
    requires Inv(c, h) && ByResize(e) && ResizeStep(c, h, e, h1)
    ensures Inv(c, h1)
  {
    match e
    case ResizeBegin(id, t) => ResizeBeginKeeps(c, h, id, t, h1);
    case ResizeDisk(id, mib) => ResizeDiskKeeps(c, h, id, mib, h1);
    case ResizeFailed(id) => FlagsKeep(c, h, Row(h, id), Row(h, id).(error := Some(ResizeRecorded)));
    case ResizeEnd(id) => ResizeEndKeeps(c, h, id, h1);
  }

  lemma ForgottenReservesNoMore(h: Host, vm: Vm)
    requires RowInv(h, vm)
    ensures RowInv(h, Forgotten(vm)) && TrueDisk(Forgotten(vm)) <= TrueDisk(vm)
  {
  }

  lemma DeleteKeepsAddresses(rows: seq<Vm>, i: nat)
    requires i < |rows| && AddressesUnique(rows)
    ensures AddressesUnique(RemoveAt(rows, i))
  {
  }

  lemma DeleteKeepsPorts(rows: seq<Vm>, i: nat, lo: u16, hi: u16)
    requires i < |rows| && PortsUnique(rows, lo, hi)
    ensures PortsUnique(RemoveAt(rows, i), lo, hi)
  {
  }

  lemma DeleteKeeps(c: Conf, h: Host, id: VmId)
    requires Inv(c, h) && Load(h.table, id).Some? && id !in h.disks && id !in h.running && id !in h.live
    ensures Inv(c, h.(table := Deleted(h.table, id)))
  {
    var h1 := h.(table := Deleted(h.table, id));
    SumDeleted(h.table, id);
    DeletedKeepsIds(h.table, id);
    DeleteKeepsAddresses(h.table, IndexOf(h.table, id));
    DeleteKeepsPorts(h.table, IndexOf(h.table, id), c.portLo, c.portHi);
    forall other | other in h.disks || other in h.running || other in h.live ensures Load(h1.table, other).Some? {
      LoadDeleted(h.table, id, other);
    }
    forall row | row in h1.table ensures RowInv(h1, row) { assert RowInv(h, row); }
  }

  lemma DestroyKeeps(c: Conf, h: Host, e: Event, h1: Host)
    requires Inv(c, h) && ByDestruction(e) && DestroyStep(c, h, e, h1)
    ensures Inv(c, h1)
  {
    var vm := Row(h, e.id);
    assert RowInv(h, vm);
    match e
    case DestroyBegin(id) => FlagsKeep(c, h, vm, vm.(state := Deleting));
    case DestroyFault(id, fault) => FlagsKeep(c, h, vm, vm.(error := Some(fault)));
    case Forget(id) =>
      ForgottenReservesNoMore(h, vm);
      SaveKeeps(c, h, vm, Forgotten(vm));
    case RemoveImage(id) => DiskKeeps(c, h, vm, h1);
    case DeleteRow(id) => DeleteKeeps(c, h, id);
  }

  /** Backup records change without touching capacities or addresses. */
  lemma BackupRow(h: Host, vm: Vm, vm1: Vm)
    requires RowInv(h, vm) && RecordInv(vm1)
    requires vm1 == vm.(backup := vm1.backup, ssh := vm1.ssh)
    requires vm.pendingResources.Some? && HasArtifacts(vm1.backup) ==> HasArtifacts(vm.backup)
    ensures RowInv(h, vm1)
  {
  }

  lemma AdmitKeeps(c: Conf, h: Host, e: Event, h1: Host)
    requires Inv(c, h) && e.Admit? && BackupStep(c, h, e, h1)
    ensures Inv(c, h1)
  {
    var vm := Row(h, e.id);
    assert RowInv(h, vm);
    var free := Free(c, h).DiskFree();
    hide Admission;
    AdmissionSaves(vm, e.request, e.seen, c.backend, free, e.artifact, e.revision, e.now);
    AdmissionKeepsRecord(vm, e.request, e.seen, c.backend, free, e.artifact, e.revision, e.now);
    var vm1 := Admission(vm, e.request, e.seen, c.backend, free, e.artifact, e.revision, e.now).value;
    BackupRow(h, vm, vm1);
    SaveKeeps(c, h, vm, vm1);
  }

  lemma PublishKeeps(c: Conf, h: Host, e: Event, h1: Host)
    requires Inv(c, h) && e.Publish? && BackupStep(c, h, e, h1)
    ensures Inv(c, h1) && SumDisk(h1.table) <= SumDisk(h.table)
  {
    var vm := Row(h, e.id);
    assert RowInv(h, vm);
    FinishKeepsRecord(vm, e.request, e.removed, e.result, e.now);
    var vm1 := Finished(vm, e.request, e.removed, e.result, e.now).value;
    BackupRow(h, vm, vm1);
    SaveKeeps(c, h, vm, vm1);
    SumSaved(h.table, vm1);
  }

  lemma CleanKeeps(c: Conf, h: Host, e: Event, h1: Host)
    requires Inv(c, h) && e.Clean? && BackupStep(c, h, e, h1)
    ensures Inv(c, h1) && SumDisk(h1.table) <= SumDisk(h.table)
  {
    var vm := Row(h, e.id);
    assert RowInv(h, vm);
    CleanupKeepsRecord(vm, e.removed, e.failure, e.now);
    var vm1 := CleanedUp(vm, e.removed, e.failure, e.now).value;
    BackupRow(h, vm, vm1);
    SaveKeeps(c, h, vm, vm1);
    SumSaved(h.table, vm1);
  }

  lemma RunningKeeps(c: Conf, h: Host, h1: Host)
    requires Inv(c, h) && h1 == h.(running := h1.running) && |h1.running| <= 2
    requires forall id :: id in h1.running ==> Load(h.table, id).Some?
    ensures Inv(c, h1)
  {
  }

  lemma WorkersKeep(c: Conf, h: Host, e: Event, h1: Host)
    requires Inv(c, h) && (e.Claim? || e.Release?) && BackupStep(c, h, e, h1)
    ensures Inv(c, h1)
  {
    RunningKeeps(c, h, h1);
  }

  lemma BackupKeeps(c: Conf, h: Host, e: Event, h1: Host)
    requires Inv(c, h) && ByBackup(e) && BackupStep(c, h, e, h1)
    ensures Inv(c, h1)
  {
    hide BackupStep, Inv;
    match e
    case Claim(_) => WorkersKeep(c, h, e, h1);
    case Release(_) => WorkersKeep(c, h, e, h1);
    case Admit(_, _, _, _, _, _) => AdmitKeeps(c, h, e, h1);
    case Publish(_, _, _, _, _) => PublishKeeps(c, h, e, h1);
    case Clean(_, _, _, _) => CleanKeeps(c, h, e, h1);
  }

  /** Every durable step of the agent keeps the invariant. */
  lemma StepKeeps(c: Conf, h: Host, e: Event, h1: Host)
    requires Inv(c, h) && Step(c, h, e, h1)
    ensures Inv(c, h1)
  {
    if ByCreation(e) { CreateKeeps(c, h, e, h1); }
    else if ByGuest(e) { GuestKeeps(c, h, e, h1); }
    else if ByPower(e) { PowerKeeps(c, h, e, h1); }
    else if ByResize(e) { ResizeKeeps(c, h, e, h1); }
    else if ByDestruction(e) { DestroyKeeps(c, h, e, h1); }
    else if ByBackup(e) { BackupKeeps(c, h, e, h1); }
    else if e.Observe? {
      FlagsKeep(c, h, Row(h, e.id), Row(h, e.id).(state := e.state, error := e.error, ssh := e.ssh));
    } else {
      RunningKeeps(c, h, h1);
    }
  }

  lemma {:induction false} RunInv(c: Conf, hs: seq<Host>, es: seq<Event>, i: nat)
    requires Run(c, hs, es) && i < |hs|
    ensures Inv(c, hs[i])
  {
    if i > 0 {
      RunInv(c, hs, es, i - 1);
      assert Linked(c, hs, es, i - 1);
      StepKeeps(c, hs[i - 1], es[i - 1], hs[i]);
    }
  }
}
