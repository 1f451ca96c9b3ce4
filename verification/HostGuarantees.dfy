/**
 What one agent guarantees over every run: the disk budget, distinct addresses and ports,
 resource updates that only go forward, exclusion of lifecycle changes by backups, and the
 correspondence with the backup protocol of a single VM.
 */
module HostGuarantees {
  import opened Model
  import opened BackupRecord
  import opened Network
  import opened Table
  import opened HostRun
  import B = BackupRun
  import opened StorageModel

  // ---- which row a step touches ----

  function Subject(e: Event): Option<VmId> {
    match e
    case Crash => None
    case Reserve(vm) => Some(vm.id)
    case _ => Some(e.id)
  }

  /** Nothing but the VM `id` is changed. */
  ghost predicate TouchesOnly(h: Host, h1: Host, id: VmId) {
    forall other: VmId {:trigger Load(h1.table, other)} :: other != id ==>
      && Load(h1.table, other) == Load(h.table, other)
      && (other in h1.disks <==> other in h.disks)
      && (other in h.disks ==> h1.disks[other] == h.disks[other])
      && (other in h1.running <==> other in h.running)
      && (other in h1.live <==> other in h.live)
  }

  lemma WithTouchesOnly(h: Host, vm1: Vm)
    ensures TouchesOnly(h, With(h, vm1), vm1.id)
    ensures Load(With(h, vm1).table, vm1.id) == Some(vm1)
  {
    forall other: VmId
      ensures Load(With(h, vm1).table, other) == if other == vm1.id then Some(vm1) else Load(h.table, other)
    {
      LoadSaved(h.table, vm1, other);
    }
  }

  lemma CreationTouches(c: Conf, h: Host, e: Event, h1: Host)
    requires ByCreation(e) && CreateStep(c, h, e, h1)
    ensures TouchesOnly(h, h1, Subject(e).value)
    ensures e.Seed? ==> Load(h1.table, e.id) == Some(Row(h, e.id).(ssh := Some(e.info)))
    ensures e.Created? ==> Load(h1.table, e.id) == Some(AfterStart(Row(h, e.id), e.error))
  {
    match e
    case Reserve(vm) => WithTouchesOnly(h, vm);
    case Seed(id, info) => WithTouchesOnly(h, Row(h, id).(ssh := Some(info)));
    case Created(id, error) => WithTouchesOnly(h, AfterStart(Row(h, id), error));
    case _ =>
  }

  lemma GuestTouches(h: Host, e: Event, h1: Host)
    requires ByGuest(e) && GuestStep(h, e, h1)
    ensures TouchesOnly(h, h1, e.id) && h1 == h.(live := h1.live)
  {
  }

  lemma PowerTouches(c: Conf, h: Host, e: Event, h1: Host)
    requires ByPower(e) && PowerStep(c, h, e, h1)
    ensures TouchesOnly(h, h1, e.id)
    ensures Load(h1.table, e.id).Some? && Row(h1, e.id).state != Deleting
    ensures var vm := Row(h, e.id);
            var vm1 := Row(h1, e.id);
            vm1 == vm.(state := vm1.state, error := vm1.error, ssh := vm1.ssh)
  {
    match e
    case StartBegin(id) => WithTouchesOnly(h, Row(h, id).(state := VmState.Creating));
    case StartEnd(id, error) => WithTouchesOnly(h, AfterStart(Row(h, id), error));
    case Stopping(id, ok) => WithTouchesOnly(h, AfterStop(Row(h, id), ok));
  }

  lemma ResizeTouches(c: Conf, h: Host, e: Event, h1: Host)
    requires ByResize(e) && ResizeStep(c, h, e, h1)
    ensures TouchesOnly(h, h1, e.id)
    ensures e.ResizeBegin? ==> Load(h1.table, e.id) == Some(Intended(Row(h, e.id), e.target))
    ensures e.ResizeDisk? ==> h1.table == h.table
    ensures e.ResizeFailed? ==> Load(h1.table, e.id) == Some(Row(h, e.id).(error := Some(ResizeRecorded)))
    ensures e.ResizeEnd? ==>
              && Row(h, e.id).pendingResources.Some?
              && Row(h, e.id).pendingResources.value.disk + Overhead(Row(h, e.id)) <= U32_MAX
              && Load(h1.table, e.id) == Some(Resized(Row(h, e.id), Row(h, e.id).pendingResources.value))
  {
    var vm := Row(h, e.id);
    match e
    case ResizeBegin(id, t) => WithTouchesOnly(h, Intended(vm, t));
    case ResizeFailed(id) => WithTouchesOnly(h, vm.(error := Some(ResizeRecorded)));
    case ResizeEnd(id) => WithTouchesOnly(h, Resized(vm, vm.pendingResources.value));
    case _ =>
  }

  lemma DestructionTouches(c: Conf, h: Host, e: Event, h1: Host)
    requires UniqueIds(h.table) && ByDestruction(e) && DestroyStep(c, h, e, h1)
    ensures TouchesOnly(h, h1, e.id)
    ensures Load(h1.table, e.id).Some? ==>
              var vm := Row(h, e.id); var vm1 := Row(h1, e.id);
              vm1 == vm.(state := vm1.state, error := vm1.error, backup := vm1.backup)
  {
    var vm := Row(h, e.id);
    match e
    case DestroyBegin(id) => WithTouchesOnly(h, vm.(state := Deleting));
    case DestroyFault(id, fault) => WithTouchesOnly(h, vm.(error := Some(fault)));
    case Forget(id) => WithTouchesOnly(h, Forgotten(vm));
    case RemoveImage(id) =>
    case DeleteRow(id) =>
      forall other: VmId ensures Load(h1.table, other) == if other == id then None else Load(h.table, other) {
        LoadDeleted(h.table, id, other);
      }
  }

  predicate SameButBackup(vm: Vm, vm1: Vm) {
    vm1 == vm.(backup := vm1.backup, ssh := vm1.ssh)
  }

  lemma AdmitTouches(c: Conf, h: Host, e: Event, h1: Host)
    requires e.Admit? && BackupStep(c, h, e, h1)
    ensures TouchesOnly(h, h1, e.id)
    ensures Load(h1.table, e.id).Some? && SameButBackup(Row(h, e.id), Row(h1, e.id))
  {
    WithTouchesOnly(h, Admission(Row(h, e.id), e.request, e.seen, c.backend, Free(c, h).DiskFree(),
                                 e.artifact, e.revision, e.now).value);
  }

  lemma BackupTouches(c: Conf, h: Host, e: Event, h1: Host)
    requires ByBackup(e) && BackupStep(c, h, e, h1)
    ensures TouchesOnly(h, h1, e.id)
    ensures Load(h.table, e.id).Some? ==>
              && Load(h1.table, e.id).Some?
              && SameButBackup(Row(h, e.id), Row(h1, e.id))
  {
    match e
    case Admit(id, r, seen, artifact, revision, now) => AdmitTouches(c, h, e, h1);
    case Publish(id, r, removed, result, now) =>
      WithTouchesOnly(h, Finished(Row(h, id), r, removed, result, now).value);
    case Clean(id, removed, failure, now) =>
      WithTouchesOnly(h, CleanedUp(Row(h, id), removed, failure, now).value);
    case _ =>
  }

  /** A step changes the record and the disk of its subject only. */
  lemma OthersUntouched(c: Conf, h: Host, e: Event, h1: Host, id: VmId)
    requires UniqueIds(h.table) && Step(c, h, e, h1) && Subject(e) != Some(id)
    ensures Load(h1.table, id) == Load(h.table, id)
    ensures id in h1.disks <==> id in h.disks
    ensures id in h.disks ==> h1.disks[id] == h.disks[id]
    ensures !e.Crash? ==> (id in h1.running <==> id in h.running)
    ensures id in h1.live <==> id in h.live
  {
    if ByCreation(e) { CreationTouches(c, h, e, h1); }
    else if ByGuest(e) { GuestTouches(h, e, h1); }
    else if ByPower(e) { PowerTouches(c, h, e, h1); }
    else if ByResize(e) { ResizeTouches(c, h, e, h1); }
    else if ByDestruction(e) { DestructionTouches(c, h, e, h1); }
    else if ByBackup(e) { BackupTouches(c, h, e, h1); }
    else if e.Observe? {
      WithTouchesOnly(h, Row(h, e.id).(state := e.state, error := e.error, ssh := e.ssh));
    }
  }

  // ---- disk budget ----

  /** The reservations of all records together never exceed the host's disk, so no sum saturates. */
  lemma DiskBudgetHolds(c: Conf, hs: seq<Host>, es: seq<Event>, i: nat)
    requires Run(c, hs, es) && i < |hs|
    ensures SumDisk(hs[i].table) <= c.totals.diskTotal
    ensures Free(c, hs[i]).diskUsed == SumDisk(hs[i].table)
    ensures i < |es| && es[i].Publish? ==> SumDisk(hs[i + 1].table) <= SumDisk(hs[i].table)
  {
    RunInv(c, hs, es, i);
    RecountIsExact(c, hs[i]);
    if i < |es| && es[i].Publish? {
      assert Linked(c, hs, es, i);
      PublishKeeps(c, hs[i], es[i], hs[i + 1]);
    }
  }

  /** No VM reserves more than its disk and four further roots. */
  lemma ReservationPerVmIsBounded(c: Conf, hs: seq<Host>, es: seq<Event>, i: nat, vm: Vm)
    requires Run(c, hs, es) && i < |hs| && vm in hs[i].table
    ensures |vm.backup.retired| <= MAX_RETIRED + 1
    ensures forall g :: g in Tracked(vm.backup) ==> GenerationMib(g) == RootMib(vm)
    ensures ReservedMib(vm.backup) <= 4 * RootMib(vm)
    ensures ReservedDisk(vm) <= BaseDisk(vm) + 4 * RootMib(vm)
  {
    RunInv(c, hs, es, i);
    assert RowInv(hs[i], vm);
    BackupsReserveAtMostFourRoots(vm);
  }

  // ---- addresses and ports ----

  /** Different VMs with addresses have different ones, none of them the bridge's. */
  lemma AddressesAreDistinct(c: Conf, hs: seq<Host>, es: seq<Event>, i: nat, a: Vm, b: Vm)
    requires Run(c, hs, es) && i < |hs|
    requires a in hs[i].table && b in hs[i].table && a.id != b.id
    requires a.engine != Docker && b.engine != Docker
    ensures a.ip != b.ip && a.ip != BRIDGE && a.ip.Ip?
  {
    RunInv(c, hs, es, i);
    var rows := hs[i].table;
    assert RowInv(hs[i], a);
    var x :| 0 <= x < |rows| && rows[x] == a;
    var y :| 0 <= y < |rows| && rows[y] == b;
    assert AddressesUnique(rows);
  }

  /** Below the VM limit the address search always finds an address. */
  lemma AddressesNeverRunOut(c: Conf, hs: seq<Host>, es: seq<Event>, i: nat)
    requires Run(c, hs, es) && i < |hs| && Free(c, hs[i]).vmCount < MAX_VMS
    ensures exists k: nat :: k < ADDRESS_LIMIT && VmIp(k) !in UsedAddresses(hs[i].table)
  {
    RunInv(c, hs, es, i);
    RecountIsExact(c, hs[i]);
    FewAddressesAreUsed(hs[i].table);
    if forall k: nat :: k < ADDRESS_LIMIT ==> VmIp(k) in UsedAddresses(hs[i].table) {
      Pigeonhole(UsedAddresses(hs[i].table), ADDRESS_LIMIT);
    }
  }

  /** A published host port belongs to one guest port of one VM. */
  lemma HostPortsAreUnique(c: Conf, hs: seq<Host>, es: seq<Event>, i: nat, a: Vm, b: Vm, g: u16, k: u16)
    requires Run(c, hs, es) && i < |hs|
    requires a in hs[i].table && b in hs[i].table && g in a.portMap && k in b.portMap
    requires a.portMap[g] == b.portMap[k]
    ensures a.id == b.id && g == k
    ensures c.portLo <= a.portMap[g] <= c.portHi
  {
    RunInv(c, hs, es, i);
    var rows := hs[i].table;
    var x :| 0 <= x < |rows| && rows[x] == a;
    var y :| 0 <= y < |rows| && rows[y] == b;
    assert x == y;
  }

  // ---- forward-only resource updates ----

  predicate ShowsTarget(vm: Vm, t: Resources) {
    && vm.pendingResources.None? && vm.cpu == t.cpu && vm.mem == t.mem
    && vm.disk == t.disk + Overhead(vm) && vm.options.requestedDisk == t.disk && RootMib(vm) == t.disk
  }

  /** One step neither shrinks the recorded root nor drops a target without completing it. */
  ghost predicate Forward(e: Event, vm: Vm, vm1: Vm) {
    && RootMib(vm1) >= RootMib(vm)
    && (vm.pendingResources.Some? ==>
          || vm1.pendingResources == vm.pendingResources
          || (e == ResizeEnd(vm.id) && ShowsTarget(vm1, vm.pendingResources.value)))
    && (vm1.pendingResources.Some? && vm.pendingResources.None? ==> e.ResizeBegin?)
  }

  lemma CreationIsForward(c: Conf, h: Host, e: Event, h1: Host)
    requires ByCreation(e) && CreateStep(c, h, e, h1) && Load(h.table, Subject(e).value).Some?
    ensures Load(h1.table, Subject(e).value).Some?
    ensures Forward(e, Row(h, Subject(e).value), Row(h1, Subject(e).value))
  {
    CreationTouches(c, h, e, h1);
  }

  lemma CapacityOf(h: Host, id: VmId)
    requires Rows(h) && Load(h.table, id).Some?
    ensures Capacity(h, Row(h, id))
  {
    assert RowInv(h, Row(h, id));
  }

  lemma ObservationIsForward(c: Conf, h: Host, e: Event, h1: Host)
    requires Step(c, h, e, h1) && e.Observe?
    ensures Load(h.table, e.id).Some? && Load(h1.table, e.id).Some? && Forward(e, Row(h, e.id), Row(h1, e.id))
  {
    WithTouchesOnly(h, Row(h, e.id).(state := e.state, error := e.error, ssh := e.ssh));
  }

  lemma OwnStepIsForward(c: Conf, h: Host, e: Event, h1: Host)
    requires UniqueIds(h.table) && Rows(h) && Step(c, h, e, h1) && Subject(e).Some?
    requires Load(h.table, Subject(e).value).Some? && Load(h1.table, Subject(e).value).Some?
    ensures Forward(e, Row(h, Subject(e).value), Row(h1, Subject(e).value))
  {
    hide CreateStep, GuestStep, PowerStep, ResizeStep, BackupStep, DestroyStep, Rows, Capacity;
    if ByResize(e) {
      CapacityOf(h, e.id);
      ResizeIsForward(c, h, e, h1);
    } else if ByCreation(e) {
      CreationIsForward(c, h, e, h1);
    } else if ByGuest(e) {
      GuestTouches(h, e, h1);
    } else if ByPower(e) {
      PowerTouches(c, h, e, h1);
    } else if ByDestruction(e) {
      DestructionTouches(c, h, e, h1);
    } else if ByBackup(e) {
      BackupTouches(c, h, e, h1);
    } else {
      ObservationIsForward(c, h, e, h1);
    }
  }

  lemma StepIsForward(c: Conf, h: Host, e: Event, h1: Host, id: VmId)
    requires UniqueIds(h.table) && Rows(h) && Step(c, h, e, h1)
    requires Load(h.table, id).Some? && Load(h1.table, id).Some?
    ensures Forward(e, Row(h, id), Row(h1, id))
  {
    hide CreateStep, PowerStep, ResizeStep, BackupStep, DestroyStep, Rows;
    if Subject(e) != Some(id) {
      OthersUntouched(c, h, e, h1, id);
    } else {
      OwnStepIsForward(c, h, e, h1);
    }
  }

  lemma ResizeIsForward(c: Conf, h: Host, e: Event, h1: Host)
    requires ByResize(e) && ResizeStep(c, h, e, h1) && Capacity(h, Row(h, e.id))
    ensures Load(h1.table, e.id).Some? && Forward(e, Row(h, e.id), Row(h1, e.id))
    ensures HasArtifacts(Row(h, e.id).backup) ==> RootMib(Row(h1, e.id)) == RootMib(Row(h, e.id))
    ensures Row(h1, e.id).backup == Row(h, e.id).backup && Row(h1, e.id).id == e.id
    ensures Row(h1, e.id).state == Row(h, e.id).state
  {
    ResizeTouches(c, h, e, h1);
  }

  /** Every step of the run goes forward for the VM `id`. */
  ghost predicate GoesForward(hs: seq<Host>, es: seq<Event>, id: VmId) {
    && |hs| == |es| + 1
    && forall k :: 0 <= k < |es| && Load(hs[k].table, id).Some? && Load(hs[k + 1].table, id).Some? ==>
         Forward(es[k], Row(hs[k], id), Row(hs[k + 1], id))
  }

  lemma RunGoesForward(c: Conf, hs: seq<Host>, es: seq<Event>, id: VmId)
    requires Run(c, hs, es)
    ensures GoesForward(hs, es, id)
  {
    forall k | 0 <= k < |es| && Load(hs[k].table, id).Some? && Load(hs[k + 1].table, id).Some?
      ensures Forward(es[k], Row(hs[k], id), Row(hs[k + 1], id))
    {
      RunInv(c, hs, es, k);
      assert Linked(c, hs, es, k);
      StepIsForward(c, hs[k], es[k], hs[k + 1], id);
    }
  }

  ghost predicate Present(hs: seq<Host>, id: VmId, i: nat, j: nat) {
    i <= j < |hs| && forall k :: i <= k <= j ==> Load(hs[k].table, id).Some?
  }

  lemma {:induction false} RootsAscend(hs: seq<Host>, es: seq<Event>, id: VmId, i: nat, j: nat)
    requires GoesForward(hs, es, id) && Present(hs, id, i, j)
    ensures RootMib(Row(hs[i], id)) <= RootMib(Row(hs[j], id))
    decreases j
  {
    if i < j {
      RootsAscend(hs, es, id, i, j - 1);
      assert Forward(es[j - 1], Row(hs[j - 1], id), Row(hs[j - 1 + 1], id));
    }
  }

  /** The recorded root of a VM never shrinks as long as its record exists. */
  lemma RecordedRootNeverShrinks(c: Conf, hs: seq<Host>, es: seq<Event>, id: VmId, i: nat, j: nat)
    requires Run(c, hs, es) && Present(hs, id, i, j)
    ensures RootMib(Row(hs[i], id)) <= RootMib(Row(hs[j], id))
  {
    RunGoesForward(c, hs, es, id);
    RootsAscend(hs, es, id, i, j);
  }

  ghost predicate CompletedBetween(hs: seq<Host>, es: seq<Event>, id: VmId, i: nat, j: nat, t: Resources) {
    |hs| == |es| + 1 && j <= |es| &&
    exists k: nat :: i <= k < j && es[k] == ResizeEnd(id)
                     && Load(hs[k + 1].table, id).Some? && ShowsTarget(Row(hs[k + 1], id), t)
  }

  lemma {:induction false} TargetPersists(hs: seq<Host>, es: seq<Event>, id: VmId, i: nat, j: nat, t: Resources)
    requires GoesForward(hs, es, id) && Present(hs, id, i, j)
    requires forall k :: i <= k <= j ==> Row(hs[k], id).id == id
    requires Row(hs[i], id).pendingResources == Some(t)
    ensures Row(hs[j], id).pendingResources == Some(t) || CompletedBetween(hs, es, id, i, j, t)
    decreases j
  {
    if i < j {
      TargetPersists(hs, es, id, i, j - 1, t);
      assert Forward(es[j - 1], Row(hs[j - 1], id), Row(hs[j - 1 + 1], id));
      if CompletedBetween(hs, es, id, i, j - 1, t) {
        var k: nat :| i <= k < j - 1 && es[k] == ResizeEnd(id)
                      && Load(hs[k + 1].table, id).Some? && ShowsTarget(Row(hs[k + 1], id), t);
        assert i <= k < j;
      } else if Row(hs[j], id).pendingResources != Some(t) {
        assert es[j - 1] == ResizeEnd(id) && ShowsTarget(Row(hs[j - 1 + 1], id), t);
      }
    }
  }

  /** A recorded target disappears only by completing exactly that target. */
  lemma TargetIsClearedOnlyByCompletion(c: Conf, hs: seq<Host>, es: seq<Event>, id: VmId, i: nat, j: nat, t: Resources)
    requires Run(c, hs, es) && Present(hs, id, i, j)
    requires Row(hs[i], id).pendingResources == Some(t)
    ensures Row(hs[j], id).pendingResources == Some(t) || CompletedBetween(hs, es, id, i, j, t)
  {
    RunGoesForward(c, hs, es, id);
    TargetPersists(hs, es, id, i, j, t);
  }

  // ---- guests and resource updates ----

  /** The recorded resources of the VM, or the size of its clone, differ after the step. */
  ghost predicate Reshaped(h: Host, h1: Host, id: VmId) {
    || (id in h.disks && id in h1.disks && h1.disks[id] != h.disks[id])
    || (&& Load(h.table, id).Some? && Load(h1.table, id).Some?
        && (Row(h1, id).cpu, Row(h1, id).mem, Row(h1, id).disk) != (Row(h, id).cpu, Row(h, id).mem, Row(h, id).disk))
  }

  lemma ResourcesChangeOnlyByResize(c: Conf, h: Host, e: Event, h1: Host, id: VmId)
    requires UniqueIds(h.table) && Step(c, h, e, h1) && e != ResizeEnd(id)
    requires Load(h.table, id).Some? && Load(h1.table, id).Some?
    ensures RootMib(Row(h1, id)) == RootMib(Row(h, id))
    ensures Row(h1, id).cpu == Row(h, id).cpu && Row(h1, id).mem == Row(h, id).mem && Row(h1, id).disk == Row(h, id).disk
  {
    hide GuestStep, PowerStep, ResizeStep, BackupStep, DestroyStep;
    if Subject(e) != Some(id) { OthersUntouched(c, h, e, h1, id); }
    else if ByResize(e) { ResizeTouches(c, h, e, h1); }
    else if ByCreation(e) { CreationTouches(c, h, e, h1); }
    else if ByGuest(e) { GuestTouches(h, e, h1); }
    else if ByPower(e) { PowerTouches(c, h, e, h1); }
    else if ByDestruction(e) { DestructionTouches(c, h, e, h1); }
    else if ByBackup(e) { BackupTouches(c, h, e, h1); }
    else { WithTouchesOnly(h, Row(h, id).(state := e.state, error := e.error, ssh := e.ssh)); }
  }

  lemma OnlyUpdatesResizeClones(c: Conf, h: Host, e: Event, h1: Host, id: VmId)
    requires Step(c, h, e, h1) && id in h.disks && id in h1.disks && h1.disks[id] != h.disks[id]
    ensures (e.Extend? || e.ResizeDisk?) && e.id == id
  {
  }

  lemma OnlyUpdatesReshape(c: Conf, h: Host, e: Event, h1: Host, id: VmId)
    requires UniqueIds(h.table) && Step(c, h, e, h1) && Reshaped(h, h1, id)
    ensures (e.Extend? || ByResize(e)) && e.id == id
  {
    hide Step;
    if id in h.disks && id in h1.disks && h1.disks[id] != h.disks[id] {
      OnlyUpdatesResizeClones(c, h, e, h1, id);
    } else if e != ResizeEnd(id) {
      ResourcesChangeOnlyByResize(c, h, e, h1, id);
    }
  }

  lemma UpdatesNeedTheGuestOff(c: Conf, h: Host, e: Event, h1: Host)
    requires Inv(c, h) && Step(c, h, e, h1) && (e.Extend? || ByResize(e))
    ensures e.id !in h.live && h1.live == h.live
  {
    if ByResize(e) {
      assert ResizeStep(c, h, e, h1);
      assert RowInv(h, Row(h, e.id));
    } else {
      assert CreateStep(c, h, e, h1);
    }
  }

  /**
   Over every run, a guest with an unfinished target is off, a target is recorded only while the
   guest is off, and neither the recorded resources of a VM nor the size of its clone ever change
   under a live guest.
   */
  lemma LiveGuestsAreNotReshaped(c: Conf, hs: seq<Host>, es: seq<Event>, i: nat, id: VmId)
    requires Run(c, hs, es) && i < |es|
    ensures Load(hs[i].table, id).Some? && Row(hs[i], id).pendingResources.Some? ==> id !in hs[i].live
    ensures || Reshaped(hs[i], hs[i + 1], id)
            || (es[i].ResizeBegin? && es[i].id == id) || (es[i].ResizeDisk? && es[i].id == id) ==>
              id !in hs[i].live && id !in hs[i + 1].live
  {
    RunInv(c, hs, es, i);
    assert Linked(c, hs, es, i);
    if Load(hs[i].table, id).Some? { assert RowInv(hs[i], Row(hs[i], id)); }
    if Reshaped(hs[i], hs[i + 1], id) { OnlyUpdatesReshape(c, hs[i], es[i], hs[i + 1], id); }
    if es[i].Extend? || ByResize(es[i]) { UpdatesNeedTheGuestOff(c, hs[i], es[i], hs[i + 1]); }
  }

  /** From the moment a target is recorded until exactly it is completed, the guest is off. */
  lemma GuestStaysOffUntilCompletion(c: Conf, hs: seq<Host>, es: seq<Event>, id: VmId, i: nat, j: nat, t: Resources)
    requires Run(c, hs, es) && Present(hs, id, i, j)
    requires Row(hs[i], id).pendingResources == Some(t) && !CompletedBetween(hs, es, id, i, j, t)
    ensures forall k :: i <= k <= j ==> id !in hs[k].live
  {
    forall k | i <= k <= j ensures id !in hs[k].live {
      TargetIsClearedOnlyByCompletion(c, hs, es, id, i, k, t);
      RunInv(c, hs, es, k);
      assert RowInv(hs[k], Row(hs[k], id));
    }
  }

  /** The physical root never exceeds the reserved one. */
  lemma PhysicalRootIsReserved(c: Conf, hs: seq<Host>, es: seq<Event>, i: nat, vm: Vm)
    requires Run(c, hs, es) && i < |hs| && vm in hs[i].table && Resizable(vm.engine)
    ensures vm.id in hs[i].disks ==> hs[i].disks[vm.id] <= ReservedRoot(vm)
  {
    RunInv(c, hs, es, i);
    assert RowInv(hs[i], vm);
  }

  /** A clone that has reached the recorded capacity keeps it through every step. */
  ghost predicate StaysFull(h: Host, h1: Host, id: VmId) {
    Load(h.table, id).Some? && Full(h, Row(h, id)) && Load(h1.table, id).Some? && id in h1.disks ==>
      Full(h1, Row(h1, id))
  }

  /** No storage command of the agent shrinks a clone. */
  lemma ClonesNeverShrink(c: Conf, h: Host, e: Event, h1: Host, id: VmId)
    requires Step(c, h, e, h1) && id in h.disks && id in h1.disks
    ensures h1.disks[id] >= h.disks[id]
  {
  }

  lemma StepKeepsFull(c: Conf, h: Host, e: Event, h1: Host, id: VmId)
    requires UniqueIds(h.table) && Step(c, h, e, h1)
    ensures StaysFull(h, h1, id)
  {
    if Load(h.table, id).Some? && Load(h1.table, id).Some? && id in h.disks && id in h1.disks {
      ClonesNeverShrink(c, h, e, h1, id);
      if e == ResizeEnd(id) {
        ResizeTouches(c, h, e, h1);
      } else {
        ResourcesChangeOnlyByResize(c, h, e, h1, id);
      }
    }
  }

  ghost predicate NeverFallsBehind(hs: seq<Host>, id: VmId) {
    forall k {:trigger hs[k]} :: 0 <= k < |hs| - 1 ==> StaysFull(hs[k], hs[k + 1], id)
  }

  lemma RunNeverFallsBehind(c: Conf, hs: seq<Host>, es: seq<Event>, id: VmId)
    requires Run(c, hs, es)
    ensures NeverFallsBehind(hs, id)
  {
    forall k | 0 <= k < |hs| - 1 ensures StaysFull(hs[k], hs[k + 1], id) {
      RunInv(c, hs, es, k);
      assert Linked(c, hs, es, k);
      StepKeepsFull(c, hs[k], es[k], hs[k + 1], id);
    }
  }

  lemma {:induction false} FullPersists(hs: seq<Host>, id: VmId, i: nat, j: nat)
    requires NeverFallsBehind(hs, id) && Present(hs, id, i, j)
    requires forall k :: i < k <= j ==> id in hs[k].disks
    requires Full(hs[i], Row(hs[i], id)) && Row(hs[i], id).id == id
    ensures Full(hs[j], Row(hs[j], id))
    decreases j
  {
    if i < j {
      FullPersists(hs, id, i, j - 1);
      assert StaysFull(hs[j - 1], hs[j], id) by { assert hs[j] == hs[j - 1 + 1]; }
    }
  }

  /**
   Successful creation and completed resource updates leave the clone with the recorded
   capacity, and from then on it never falls behind while the record and the image exist.
   */
  lemma FullDiskStaysFull(c: Conf, hs: seq<Host>, es: seq<Event>, id: VmId, i: nat, j: nat)
    requires Run(c, hs, es) && Present(hs, id, i, j)
    requires forall k :: i < k <= j ==> id in hs[k].disks
    requires || Full(hs[i], Row(hs[i], id))
             || (i > 0 && Resizable(Row(hs[i], id).engine)
                 && (es[i - 1] == Created(id, None) || es[i - 1] == ResizeEnd(id)))
    ensures Full(hs[j], Row(hs[j], id))
  {
    if !Full(hs[i], Row(hs[i], id)) {
      assert Linked(c, hs, es, i - 1);
      CompletionFills(c, hs[i - 1], es[i - 1], hs[i], id);
    }
    RunNeverFallsBehind(c, hs, es, id);
    FullPersists(hs, id, i, j);
  }

  lemma CompletionFills(c: Conf, h: Host, e: Event, h1: Host, id: VmId)
    requires Step(c, h, e, h1) && Load(h1.table, id).Some? && Resizable(Row(h1, id).engine)
    ensures e == Created(id, None) || e == ResizeEnd(id) ==> Full(h1, Row(h1, id))
  {
    if e.Created? { CreationTouches(c, h, e, h1); }
    if e.ResizeEnd? { ResizeTouches(c, h, e, h1); }
  }

  /**
   The lower bound fails for the rest: if the clone is made but not grown, the failed VM can
   be stopped, and stays recorded with a larger root than it has.
   */
  lemma FailedCreationLeavesAShortDisk(c: Conf, vm: Vm, base: nat)
    requires c.portLo <= c.portHi
    requires Fresh(c, Host([], {}, map[], {}), vm) && Resizable(vm.engine) && base < RootMib(vm)
    ensures exists hs: seq<Host>, es: seq<Event> ::
              && Run(c, hs, es) && |hs| == 5
              && Load(hs[4].table, vm.id).Some? && Row(hs[4], vm.id).state == VmState.Stopped
              && vm.id in hs[4].disks && hs[4].disks[vm.id] < RootMib(Row(hs[4], vm.id))
  {
    var id := vm.id;
    var failed := AfterStart(vm, Some(OtherFault));
    var hs := ShortDiskStates(vm, base);
    var es := [Reserve(vm), Clone(id, base), Created(id, Some(OtherFault)), Stopping(id, true)];
    ShortDiskSteps(c, vm, base);
    forall i | 0 <= i < |es| ensures Linked(c, hs, es, i) {
      if i == 0 {} else if i == 1 {} else if i == 2 {} else {}
    }
    LoadSaved(hs[3].table, AfterStop(failed, true), id);
    assert Run(c, hs, es);
  }

  /** Reserved, cloned, failed, stopped. */
  ghost function ShortDiskStates(vm: Vm, base: nat): seq<Host> {
    var failed := AfterStart(vm, Some(OtherFault));
    var h0 := Host([], {}, map[], {});
    var h1 := With(h0, vm);
    var h2 := h1.(disks := map[vm.id := base]);
    var h3 := With(h2, failed);
    [h0, h1, h2, h3, With(h3, AfterStop(failed, true))]
  }

  lemma ShortDiskSteps(c: Conf, vm: Vm, base: nat)
    requires Fresh(c, Host([], {}, map[], {}), vm) && Resizable(vm.engine) && base < RootMib(vm)
    ensures var hs := ShortDiskStates(vm, base);
            && CreateStep(c, hs[0], Reserve(vm), hs[1])
            && CreateStep(c, hs[1], Clone(vm.id, base), hs[2])
            && CreateStep(c, hs[2], Created(vm.id, Some(OtherFault)), hs[3])
            && PowerStep(c, hs[3], Stopping(vm.id, true), hs[4])
  {
  }

  // ---- exclusion of writers ----

  /**
   From claim to release, and from admission until the operation settles, no creation, boot, power
   or resize step touches the VM, and deletion does not begin while a worker holds it.
   */
  lemma GuardedVmIsLeftAlone(c: Conf, hs: seq<Host>, es: seq<Event>, i: nat, id: VmId)
    requires Run(c, hs, es) && i < |es|
    requires Load(hs[i].table, id).Some? && Guarded(hs[i].running, Row(hs[i], id))
    ensures ByCreation(es[i]) || es[i].Boot? || ByPower(es[i]) || ByResize(es[i]) ==>
              && Subject(es[i]) != Some(id)
              && Load(hs[i + 1].table, id) == Load(hs[i].table, id)
    ensures ByDestruction(es[i]) && Subject(es[i]) == Some(id) ==> id !in hs[i].running
    ensures |hs[i].running| <= 2
  {
    RunInv(c, hs, es, i);
    assert Linked(c, hs, es, i);
    if Subject(es[i]) != Some(id) { OthersUntouched(c, hs[i], es[i], hs[i + 1], id); }
  }

  // ---- correspondence with the protocol of one VM ----

  /** The world of one VM as seen from the host. */
  ghost predicate Matches(h: Host, id: VmId, w: B.World) {
    && w.vm == Load(h.table, id)
    && (w.worker.Idle? <==> id !in h.running)
    && (w.guest <==> id in h.live)
  }

  lemma LifecycleIsPermitted(site: B.Site, w: B.World, vm1: Vm)
    requires w.vm.Some? && w.worker.Idle? && !Busy(w.vm.value.backup) && w.vm.value.state != Deleting
    requires B.SameButBackupKept(w.vm.value, vm1)
    requires HasArtifacts(w.vm.value.backup) ==> RootMib(vm1) == RootMib(w.vm.value)
    ensures forall guest: bool :: B.Step(site, w, B.Lifecycle, w.(vm := Some(vm1), guest := guest))
  {
  }

  lemma LifecycleFindsTheRecordOpen(c: Conf, h: Host, e: Event, h1: Host)
    requires Step(c, h, e, h1)
    requires ByCreation(e) || e.Boot? || ByPower(e) || ByResize(e)
    requires Subject(e).Some? && Load(h.table, Subject(e).value).Some?
    ensures Open(h, Subject(e).value) && h1.running == h.running && (!e.Boot? ==> h1.live == h.live)
    ensures !e.Reserve? && (e.Clone? || e.Extend? || e.Boot? ==> h1.table == h.table)
  {
    hide BackupStep, DestroyStep;
  }

  /** What a creation, boot, power or resize step leaves alone in its own record. */
  lemma LifecycleRespectsBackups(c: Conf, h: Host, e: Event, h1: Host)
    requires Rows(h) && Step(c, h, e, h1)
    requires ByCreation(e) || e.Boot? || ByPower(e) || ByResize(e)
    requires Subject(e).Some? && Load(h.table, Subject(e).value).Some?
    ensures var id := Subject(e).value;
            && Open(h, id) && Load(h1.table, id).Some?
            && B.SameButBackupKept(Row(h, id), Row(h1, id))
            && (HasArtifacts(Row(h, id).backup) ==> RootMib(Row(h1, id)) == RootMib(Row(h, id)))
            && h1.running == h.running && (!e.Boot? ==> h1.live == h.live)
  {
    hide CreateStep, GuestStep, PowerStep, ResizeStep, BackupStep, DestroyStep;
    LifecycleFindsTheRecordOpen(c, h, e, h1);
    if ByCreation(e) {
      CreationTouches(c, h, e, h1);
    } else if e.Boot? {
      GuestTouches(h, e, h1);
    } else if ByPower(e) {
      PowerTouches(c, h, e, h1);
    } else {
      assert RowInv(h, Row(h, e.id));
      ResizeIsForward(c, h, e, h1);
    }
  }

  /**
   Every lifecycle save and every boot of the host is a permitted lifecycle step of the VM's backup
   protocol: backups are untouched, and their roots keep the recorded size.
   */
  lemma LifecycleStepsRefineTheProtocol(c: Conf, h: Host, e: Event, h1: Host, id: VmId, site: B.Site, w: B.World)
    requires Rows(h) && Step(c, h, e, h1) && Matches(h, id, w)
    requires Load(h.table, id).Some? && Row(h, id).state != Deleting
    requires Subject(e) == Some(id) && (ByCreation(e) || e.Boot? || ByPower(e) || ByResize(e))
    ensures var w1 := w.(vm := Load(h1.table, id), guest := id in h1.live);
            B.Step(site, w, B.Lifecycle, w1) && Matches(h1, id, w1)
  {
    LifecycleRespectsBackups(c, h, e, h1);
    LifecycleIsPermitted(site, w, Row(h1, id));
  }

  /** A guest that ends is the protocol's guest that stops. */
  lemma ExitRefinesTheProtocol(c: Conf, h: Host, h1: Host, id: VmId, site: B.Site, w: B.World)
    requires Step(c, h, Exit(id), h1) && Matches(h, id, w)
    ensures var w1 := w.(guest := false);
            B.Step(site, w, B.GuestStops, w1) && Matches(h1, id, w1)
  {
    assert GuestStep(h, Exit(id), h1);
  }

  lemma ObservationIsPermitted(site: B.Site, w: B.World, vm1: Vm)
    requires w.vm.Some? && w.vm.value.state != Deleting
    requires vm1 == w.vm.value.(state := vm1.state, error := vm1.error, ssh := vm1.ssh) && vm1.state != Deleting
    ensures B.Step(site, w, B.Reconcile, w.(vm := Some(vm1)))
  {
  }

  lemma ObservationStepsRefineTheProtocol(c: Conf, h: Host, e: Event, h1: Host, id: VmId, site: B.Site, w: B.World)
    requires Step(c, h, e, h1) && Matches(h, id, w)
    requires e.Observe? && e.id == id
    ensures var w1 := w.(vm := Load(h1.table, id));
            B.Step(site, w, B.Reconcile, w1) && Matches(h1, id, w1)
  {
    var vm1 := Row(h, id).(state := e.state, error := e.error, ssh := e.ssh);
    WithTouchesOnly(h, vm1);
    ObservationIsPermitted(site, w, vm1);
  }

  /** The step of the protocol that a step of a deletion stands for. */
  function Counterpart(e: Event): B.Event
    requires ByDestruction(e)
  {
    match e
    case DestroyBegin(_) => B.DestroyBegin
    case DestroyFault(_, fault) => B.DestroyFault(fault)
    case Forget(_) => B.DestroyForget
    case RemoveImage(_) => B.DestroyImage
    case DeleteRow(_) => B.DestroyRow
  }

  /**
   What must be true of the storage when a step of a deletion is saved: backups are forgotten only
   once their artifacts are gone, and the record goes only after the image.
   */
  ghost predicate Warranted(site: B.Site, w: B.World, e: Event, s1: Store) {
    && (e.DeleteRow? ==> w.imageGone)
    && (e.Forget? && w.vm.Some? && HasArtifacts(w.vm.value.backup) ==>
          && w.orphan.NoOrphan?
          && B.RemoveMany(w.store, s1, Tracked(w.vm.value.backup))
          && B.AllAbsent(site.backend, s1, Tracked(w.vm.value.backup)))
    && (!e.Forget? || (w.vm.Some? && !HasArtifacts(w.vm.value.backup)) ==> s1 == w.store)
  }

  /** What is left of the record after a step of a deletion. */
  function Diminished(vm: Vm, e: Event): Option<Vm>
    requires ByDestruction(e)
  {
    match e
    case DestroyBegin(_) => Some(vm.(state := Deleting))
    case DestroyFault(_, fault) => Some(vm.(error := Some(fault)))
    case Forget(_) => Some(Forgotten(vm))
    case RemoveImage(_) => Some(vm)
    case DeleteRow(_) => None
  }

  lemma DeletionDiminishes(c: Conf, h: Host, e: Event, h1: Host)
    requires UniqueIds(h.table) && ByDestruction(e) && DestroyStep(c, h, e, h1)
    ensures Load(h.table, e.id).Some? && Row(h, e.id).id == e.id && e.id !in h.running && h1.running == h.running
    ensures !e.DestroyBegin? ==> Row(h, e.id).state == Deleting
    ensures e.RemoveImage? || e.DeleteRow? ==> Row(h, e.id) == Forgotten(Row(h, e.id))
    ensures e.Forget? || e.RemoveImage? ==> e.id !in h.live
    ensures h1.live == h.live
    ensures Load(h1.table, e.id) == Diminished(Row(h, e.id), e)
  {
    match e
    case DestroyBegin(_) => WithTouchesOnly(h, Row(h, e.id).(state := Deleting));
    case DestroyFault(_, fault) => WithTouchesOnly(h, Row(h, e.id).(error := Some(fault)));
    case Forget(_) => WithTouchesOnly(h, Forgotten(Row(h, e.id)));
    case RemoveImage(_) =>
    case DeleteRow(_) => LoadDeleted(h.table, e.id, e.id);
  }

  lemma DiminishingIsPermitted(site: B.Site, w: B.World, e: Event, s1: Store)
    requires ByDestruction(e) && w.vm.Some? && w.worker.Idle? && Warranted(site, w, e, s1)
    requires !e.DestroyBegin? ==> w.vm.value.state == Deleting
    requires e.RemoveImage? || e.DeleteRow? ==> w.vm.value == Forgotten(w.vm.value)
    requires e.Forget? || e.RemoveImage? ==> !w.guest
    ensures B.Step(site, w, Counterpart(e),
                   w.(vm := Diminished(w.vm.value, e), store := s1, imageGone := w.imageGone || e.RemoveImage?))
  {
  }

  /** Every step of a deletion is, where it is warranted, the corresponding step of the protocol. */
  lemma DeletionRefinesTheProtocol(c: Conf, h: Host, e: Event, h1: Host, id: VmId, site: B.Site, w: B.World, s1: Store)
    requires UniqueIds(h.table) && Step(c, h, e, h1) && Matches(h, id, w)
    requires ByDestruction(e) && e.id == id && Warranted(site, w, e, s1)
    ensures var w1 := w.(vm := Load(h1.table, id), store := s1, imageGone := w.imageGone || e.RemoveImage?);
            B.Step(site, w, Counterpart(e), w1) && Matches(h1, id, w1)
  {
    DeletionDiminishes(c, h, e, h1);
    DiminishingIsPermitted(site, w, e, s1);
  }
}
