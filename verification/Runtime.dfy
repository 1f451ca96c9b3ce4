/**
 The agent's runtime: lifecycle and backup operations on the durable table. Every save and
 storage command is one step of a run of the host, so whatever holds over all runs holds at
 each point where an operation may be cut short.
 */
module Runtime {
  import opened Model
  import opened BackupRecord
  import opened Network
  import opened Table
  import opened HostRun
  import opened StorageModel
  import S = Scheduler
  import W = StorageWork
  import B = BackupRun
  import C = StorageContext

  /** A request for a new VM; the bootstrap account is already resolved. */
  datatype CreateRequest = CreateRequest(
    vmId: VmId,
    envId: EnvId,
    image: nat,
    engine: Engine,
    cpu: u32,
    mem: u32,
    disk: u32,
    ports: seq<u16>,
    sshKeys: seq<nat>,
    ssh: Option<nat>,
    denyOutgoing: bool,
    isolatedNetwork: bool,
    filesDigest: Option<nat>)
  {
    function Options(): Options {
      Model.Options(ssh, PortSet(ports), KeySet(sshKeys), denyOutgoing, disk, isolatedNetwork, filesDigest)
    }

    /** The SSH port is published for every engine that boots its own system, or with SSH bootstrap. */
    function Published(): seq<u16> {
      if (engine == Qemu || engine == Bhyve || engine == Jail || ssh.Some?) && 22 !in ports then ports + [22] else ports
    }
  }

  /** Published are the requested ports and, for a system of its own or with a bootstrap account, SSH. */
  lemma PublishesExactly(q: CreateRequest, port: u16)
    ensures port in q.Published() <==>
              || port in q.ports
              || (port == 22 && (q.ssh.Some? || q.engine == Qemu || q.engine == Bhyve || q.engine == Jail))
  {
  }

  /** How the checks and commands outside the table turn out while a VM is created. */
  datatype Provisioning = Provisioning(
    valid: bool,
    offered: bool,
    imageExists: bool,
    bytes: nat,
    available: set<u16>,
    revision: Token,
    seeded: bool,
    networked: bool,
    cloned: bool,
    reached: nat,
    extended: bool,
    configured: bool,
    booted: bool)

  /**
   How the parts of a deletion turn out: the engine stops, the worker lock is free, the network
   is torn down, and image and seed are removed.
   */
  datatype Removal = Removal(stopped: bool, lockFree: bool, torn: bool, imageGone: bool, seedGone: bool)

  /** The record left after network, image and seed of a VM without backups were removed. */
  function Swept(vm: Vm, a: Removal): Option<Vm> {
    if !a.torn || (vm.engine != Docker && !a.imageGone) then Some(vm.(error := Some(OtherFault)))
    else if !a.seedGone then Some(vm)
    else None
  }

  /** The record left by a deletion; `cleared` says whether the backups could be removed. */
  function Remains(vm: Vm, a: Removal, cleared: bool): Option<Vm> {
    var doomed := vm.(state := Deleting);
    if !a.stopped then Some(doomed.(error := Some(OtherFault)))
    else if !cleared then Some(doomed)
    else Swept(Forgotten(doomed), a)
  }

  /**
   What a deletion does to the backups: artifacts of the record are removed after the engine was
   stopped and under the worker lock, or not at all, and `cleared` only if all of them are gone.
   */
  ghost predicate Clears(site: B.Site, vm: Vm, s: Store, s1: Store, healthy: bool, a: Removal, cleared: bool) {
    && B.RemoveMany(s, s1, Tracked(vm.backup))
    && (!a.stopped || !HasArtifacts(vm.backup) || !a.lockFree ==> s1 == s)
    && (cleared ==>
          && a.stopped && (HasArtifacts(vm.backup) ==> a.lockFree)
          && B.AllAbsent(site.backend, s1, Tracked(vm.backup)))
    && (a.stopped && !HasArtifacts(vm.backup) ==> cleared)
    && (a.stopped && healthy ==>
          (cleared <==> (HasArtifacts(vm.backup) ==> a.lockFree && W.AllRemovable(site.vm, s, Tracked(vm.backup)))))
  }

  /** The image goes only after the backups did; a container has none. */
  predicate LosesImage(vm: Vm, a: Removal, cleared: bool) {
    a.stopped && cleared && a.imageGone && vm.engine != Docker
  }

  /** What the engine and the network say about a VM while it is reconciled. */
  datatype Sighting = Sighting(engine: Result<VmState>, recovered: bool, reachable: bool, identified: bool)

  lemma {:induction false} AccountedFromTotals(a: Resource, b: Resource, rows: seq<Vm>)
    requires a.Emptied() == b.Emptied()
    ensures Accounted(a, rows) == Accounted(b, rows)
    ensures Accounted(a, rows).Emptied() == a.Emptied()
    decreases |rows|
  {
    if rows != [] { AccountedFromTotals(a, b, rows[..|rows| - 1]); }
  }

  lemma RunExtends(c: Conf, hs: seq<Host>, es: seq<Event>, e: Event, h: Host)
    requires Run(c, hs, es) && Step(c, hs[|hs| - 1], e, h)
    ensures Run(c, hs + [h], es + [e])
  {
    var hs1 := hs + [h];
    var es1 := es + [e];
    forall i | 0 <= i < |es1| ensures Linked(c, hs1, es1, i) {
      if i < |es| { assert Linked(c, hs, es, i); }
    }
  }

  /** Errors that reconciliation wrote itself and may therefore clear. */
  predicate RecoveryOwned(error: Option<Fault>) {
    error.None? || error.value in {QueryFailed, NetworkPending, NetworkFailed}
  }

  /**
   What a deletion leaves: nothing exactly if all of it succeeded, and otherwise the record in
   deletion. It still names its backups exactly until they are cleared, and shows an error exactly
   if the engine could not be stopped or, after the backups, network or image could not be removed.
   */
  lemma DeletionLeaves(vm: Vm, a: Removal, cleared: bool)
    ensures Remains(vm, a, cleared).None? <==>
              a.stopped && cleared && a.torn && (vm.engine != Docker ==> a.imageGone) && a.seedGone
    ensures Remains(vm, a, cleared).Some? ==>
              var vm1 := Remains(vm, a, cleared).value;
              && vm1.state == Deleting
              && vm1 == vm.(state := Deleting, error := vm1.error, backup := vm1.backup)
              && vm1.backup == (if a.stopped && cleared then vm.backup.(current := None, pending := None, retired := [])
                                else vm.backup)
              && vm1.error == if !a.stopped || (cleared && (!a.torn || (vm.engine != Docker && !a.imageGone)))
                              then Some(OtherFault) else vm.error
    ensures LosesImage(vm, a, cleared) <==> vm.engine != Docker && a.stopped && cleared && a.imageGone
  {
  }

  // ---- the durable steps of the operations ----

  lemma StopSteps(c: Conf, h: Host, id: VmId, ok: bool)
    requires Open(h, id) && Row(h, id).state != VmState.Creating && (ok ==> id !in h.live)
    ensures With(h, AfterStop(Row(h, id), ok)) in Successors(c, h, Stopping(id, ok))
  {
  }

  lemma StartStep(c: Conf, h: Host, id: VmId)
    requires Open(h, id) && Row(h, id).pendingResources.None?
    requires || Row(h, id).state == VmState.Paused
             || (&& Row(h, id).state == VmState.Stopped
                 && Free(c, h).CanFit(Row(h, id).cpu, MemoryReservation(Row(h, id).engine, Row(h, id).mem), 0))
    ensures With(h, Row(h, id).(state := VmState.Creating)) in Successors(c, h, StartBegin(id))
  {
  }

  lemma StartedStep(c: Conf, h: Host, id: VmId, error: Option<Fault>)
    requires Open(h, id) && Row(h, id).state == VmState.Creating
    ensures With(h, AfterStart(Row(h, id), error)) in Successors(c, h, StartEnd(id, error))
  {
  }

  lemma ResizeSteps(c: Conf, h: Host, id: VmId, t: Resources)
    requires Open(h, id) && id in h.disks && id !in h.live && ResizeFits(Row(h, id), t, h.disks[id], Free(c, h))
    ensures var vm := Row(h, id);
            var h1 := With(h, Intended(vm, t));
            && h1 in Successors(c, h, ResizeBegin(id, t))
            && (forall mib :: h.disks[id] <= mib <= t.disk ==>
                  h1.(disks := h1.disks[id := mib]) in Successors(c, h1, ResizeDisk(id, mib)))
  {
    LoadSaved(h.table, Intended(Row(h, id), t), id);
  }

  lemma ResizeOutcomes(c: Conf, h: Host, id: VmId, t: Resources)
    requires Open(h, id) && id in h.disks && Row(h, id).pendingResources == Some(t)
    requires t.disk + Overhead(Row(h, id)) <= U32_MAX
    ensures With(h, Row(h, id).(error := Some(ResizeRecorded))) in Successors(c, h, ResizeFailed(id))
    ensures h.disks[id] == t.disk ==> With(h, Resized(Row(h, id), t)) in Successors(c, h, ResizeEnd(id))
  {
  }

  lemma CompletesIntent(vm: Vm, t: Resources, size: nat, free: Resource)
    requires ResizeFits(vm, t, size, free)
    ensures Intended(vm, t).(error := Some(ResizeRecorded)) == Intended(vm, t)
    ensures Resized(Intended(vm, t), t) == Resized(vm, t)
  {
  }

  lemma ReserveStep(c: Conf, h: Host, vm: Vm)
    requires Fresh(c, h, vm)
    ensures With(h, vm) in Successors(c, h, Reserve(vm))
  {
  }

  /** A name without a record is used nowhere. */
  lemma UnknownNames(c: Conf, h: Host, id: VmId)
    requires Inv(c, h) && Load(h.table, id).None?
    ensures id !in h.disks && id !in h.running && id !in h.live
  {
  }

  lemma SeedStep(c: Conf, h: Host, id: VmId, info: SshInfo)
    requires Open(h, id) && Row(h, id).state == VmState.Creating
    ensures With(h, Row(h, id).(ssh := Some(info))) in Successors(c, h, Seed(id, info))
  {
  }

  lemma CloneStep(c: Conf, h: Host, id: VmId, base: nat)
    requires Open(h, id) && Row(h, id).state == VmState.Creating && id !in h.disks && Row(h, id).engine != Docker
    requires id !in h.live
    requires Resizable(Row(h, id).engine) ==> base <= RootMib(Row(h, id))
    ensures h.(disks := h.disks[id := base]) in Successors(c, h, Clone(id, base))
  {
  }

  lemma ExtendStep(c: Conf, h: Host, id: VmId, mib: nat)
    requires Open(h, id) && Row(h, id).state == VmState.Creating && id in h.disks && id !in h.live
    requires h.disks[id] <= mib <= RootMib(Row(h, id))
    ensures h.(disks := h.disks[id := mib]) in Successors(c, h, Extend(id, mib))
  {
  }

  lemma CreatedSteps(c: Conf, h: Host, id: VmId, error: Option<Fault>)
    requires Open(h, id) && Row(h, id).state == VmState.Creating
    requires error.None? && Resizable(Row(h, id).engine) ==> Full(h, Row(h, id))
    ensures With(h, AfterStart(Row(h, id), error)) in Successors(c, h, Created(id, error))
  {
  }

  lemma DestroySteps(c: Conf, h: Host, id: VmId)
    requires Load(h.table, id).Some? && id !in h.running
    ensures With(h, Row(h, id).(state := Deleting)) in Successors(c, h, DestroyBegin(id))
    ensures Row(h, id).state == Deleting ==>
              && (id !in h.live ==> With(h, Forgotten(Row(h, id))) in Successors(c, h, Forget(id)))
              && (forall fault: Fault ::
                    With(h, Row(h, id).(error := Some(fault))) in Successors(c, h, DestroyFault(id, fault)))
  {
  }

  lemma RemovalSteps(c: Conf, h: Host, id: VmId)
    requires Load(h.table, id).Some? && id !in h.running && id !in h.live
    requires Row(h, id).state == Deleting && Row(h, id) == Forgotten(Row(h, id))
    ensures h.(disks := h.disks - {id}) in Successors(c, h, RemoveImage(id))
    ensures id !in h.disks ==> h.(table := Deleted(h.table, id)) in Successors(c, h, DeleteRow(id))
  {
  }

  lemma ObserveSteps(c: Conf, h: Host, id: VmId, vm1: Vm)
    requires Load(h.table, id).Some? && Row(h, id).state != Deleting && vm1.state != Deleting
    requires vm1 == Row(h, id).(state := vm1.state, error := vm1.error, ssh := vm1.ssh)
    ensures With(h, vm1) in Successors(c, h, Observe(id, vm1.state, vm1.error, vm1.ssh))
  {
  }

  lemma BackupSteps(c: Conf, h: Host, id: VmId)
    requires Load(h.table, id).Some?
    ensures id !in h.running && |h.running| < 2 ==> h.(running := h.running + {id}) in Successors(c, h, Claim(id))
    ensures h.(running := h.running - {id}) in Successors(c, h, Release(id))
  {
  }

  lemma AdmitStep(c: Conf, h: Host, id: VmId, r: Request, seen: Witness, artifact: Token, revision: Token, now: nat)
    requires Load(h.table, id).Some? && id in h.running
    requires forall g :: g in Tracked(Row(h, id).backup) ==> g.id != artifact
    requires Admission(Row(h, id), r, seen, c.backend, Free(c, h).DiskFree(), artifact, revision, now).Ok?
    ensures With(h, Admission(Row(h, id), r, seen, c.backend, Free(c, h).DiskFree(), artifact, revision, now).value)
            in Successors(c, h, Admit(id, r, seen, artifact, revision, now))
  {
  }

  lemma PublishStep(c: Conf, h: Host, id: VmId, r: Request, removed: seq<Token>,
                    result: Result<Option<Generation>>, now: nat)
    requires Load(h.table, id).Some? && id in h.running
    requires Row(h, id).backup.pending.Some? && Fulfils(Row(h, id).backup.pending.value, result)
    requires Finished(Row(h, id), r, removed, result, now).Ok?
    ensures With(h, Finished(Row(h, id), r, removed, result, now).value)
            in Successors(c, h, Publish(id, r, removed, result, now))
  {
  }

  lemma CleanStep(c: Conf, h: Host, id: VmId, removed: seq<Token>, failure: Option<Error>, now: nat)
    requires Load(h.table, id).Some? && id in h.running
    requires CleanedUp(Row(h, id), removed, failure, now).Ok?
    ensures With(h, CleanedUp(Row(h, id), removed, failure, now).value)
            in Successors(c, h, Clean(id, removed, failure, now))
  {
  }

  predicate Live(state: VmState) { state == VmState.Running || state == VmState.Paused }

  /** The lifecycle state after an engine reports `actual`. */
  function SeenState(vm: Vm, actual: VmState): VmState {
    if vm.state == VmState.Creating && !Live(actual) then Failed
    else if vm.state != Failed || Live(actual) then actual
    else Failed
  }

  /** A live guest without an error awaits the recovery of its network. */
  function Recovering(vm: Vm): Vm {
    if vm.engine != Docker && Live(vm.state) && vm.error.None? then vm.(error := Some(NetworkPending)) else vm
  }

  /** The network has to be set up again for the VM. */
  predicate NeedsNetwork(vm: Vm, networkReady: bool, sight: Sighting) {
    sight.engine.Ok? && Live(sight.engine.value) && (!Live(vm.state) || vm.error.Some? || !networkReady)
  }

  function NetworkAfter(vm: Vm, networkReady: bool, sight: Sighting): bool {
    if NeedsNetwork(vm, networkReady, sight) && vm.engine != Docker then sight.recovered else networkReady
  }

  /** The error that a scan leaves on the record. */
  function SeenError(vm: Vm, networkReady: bool, sight: Sighting): Option<Fault> {
    if sight.engine.Err? then if RecoveryOwned(vm.error) then Some(QueryFailed) else vm.error
    else
      var actual := sight.engine.value;
      var error := if vm.error == Some(QueryFailed) then None else vm.error;
      if Live(actual) then
        if !NeedsNetwork(vm, networkReady, sight) then error
        else if vm.engine != Docker && !sight.recovered then Some(NetworkFailed)
        else if vm.state == Failed || RecoveryOwned(error) then None
        else error
      else if vm.state == VmState.Creating then Some(Interrupted)
      else if actual == VmState.Stopped && vm.pendingResources.None?
           && (error == Some(NetworkPending) || error == Some(NetworkFailed)) then None
      else error
  }

  /** The record that a scan saves. */
  function Looked(vm: Vm, networkReady: bool, sight: Sighting): Vm {
    var state := if sight.engine.Ok? then SeenState(vm, sight.engine.value) else vm.state;
    vm.(state := state, error := SeenError(vm, networkReady, sight),
        ssh := if vm.ssh.Some? then Some(SeenSsh(vm.ssh.value, state, sight)) else None)
  }

  /**
   The state that a scan records. A live guest is recorded as seen, whatever was recorded before;
   a record in creation without one has failed, and a failed record stays failed; any other record
   is brought to the engine's answer. Without an answer nothing is concluded.
   */
  lemma ScanSeesTheEngine(vm: Vm, networkReady: bool, sight: Sighting)
    ensures var vm1 := Looked(vm, networkReady, sight);
            && vm1 == vm.(state := vm1.state, error := vm1.error, ssh := vm1.ssh)
            && match sight.engine
               case Err(_) => vm1.state == vm.state
               case Ok(answer) =>
                 if answer == VmState.Running || answer == Paused then vm1.state == answer
                 else vm1.state == match vm.state
                                   case Creating => Failed
                                   case Failed => Failed
                                   case _ => answer
  {
  }

  /** The error that a scan records, case by case. */
  lemma ScanExplains(vm: Vm, networkReady: bool, sight: Sighting)
    ensures var error := Looked(vm, networkReady, sight).error;
            var own := vm.error in {None, Some(QueryFailed), Some(NetworkPending), Some(NetworkFailed)};
            match sight.engine
            case Err(_) => error == if own then Some(QueryFailed) else vm.error
            case Ok(answer) =>
              if answer == VmState.Running || answer == Paused then
                if vm.engine == Docker || sight.recovered
                   || (networkReady && vm.error.None? && (vm.state == VmState.Running || vm.state == Paused)) then
                  error == if own || vm.state == Failed then None else vm.error
                else error == Some(NetworkFailed)
              else
                match vm.state
                case Creating => error == Some(Interrupted)
                case _ =>
                  if vm.error == Some(QueryFailed) then error.None?
                  else if vm.error == Some(NetworkPending) || vm.error == Some(NetworkFailed) then
                    error == if answer == VmState.Stopped && vm.pendingResources.None? then None else vm.error
                  else error == vm.error
  {
  }

  /** Readiness needs a guest that runs, can be reached and has shown its identity, now or before. */
  lemma ScanProbesReadiness(vm: Vm, networkReady: bool, sight: Sighting)
    ensures var vm1 := Looked(vm, networkReady, sight);
            var reached := vm1.state == VmState.Running && sight.reachable;
            match vm.ssh
            case None => vm1.ssh.None?
            case Some(before) =>
              && vm1.ssh.Some?
              && var ssh := vm1.ssh.value;
                 && (ssh.initialized <==> before.initialized || (reached && sight.identified))
                 && (ssh.ready <==> reached && ssh.initialized)
                 && (ssh.observing <==> before.observing && (vm1.state == VmState.Running ==> !ssh.ready))
  {
  }

  /** What is known about the network changes exactly by setting it up again for a live guest. */
  lemma ScanSetsUpTheNetwork(vm: Vm, networkReady: bool, sight: Sighting)
    ensures var live := sight.engine == Ok(VmState.Running) || sight.engine == Ok(Paused);
            var quiet := networkReady && vm.error.None? && (vm.state == VmState.Running || vm.state == Paused);
            NetworkAfter(vm, networkReady, sight) ==
            if live && !quiet && vm.engine != Docker then sight.recovered else networkReady
  {
  }

  /** After a restart exactly a live guest with a network of its own and without error awaits recovery. */
  lemma RestartAwaitsTheNetwork(vm: Vm)
    ensures Recovering(vm) ==
            if vm.engine != Docker && vm.state in {VmState.Running, Paused} && vm.error == None then
              vm.(error := Some(NetworkPending))
            else vm
  {
  }

  /**
   Errors of other operations survive every scan, except that a live guest whose network
   cannot be recovered shows that, that a failed VM found alive starts over, and that an
   interrupted creation is marked. A live guest without network is never shown as healthy.
   */
  lemma UnresolvedErrorsSurvive(vm: Vm, networkReady: bool, sight: Sighting)
    ensures var vm1 := Looked(vm, networkReady, sight);
            && (!RecoveryOwned(vm.error) && vm1.error != vm.error ==>
                  sight.engine.Ok? &&
                  if Live(sight.engine.value) then
                    vm1.error == Some(NetworkFailed) || (vm.state == Failed && vm1.error == None)
                  else vm.state == VmState.Creating && vm1.error == Some(Interrupted))
            && (sight.engine.Ok? && Live(sight.engine.value) && vm.engine != Docker
                && !NetworkAfter(vm, networkReady, sight) ==>
                  vm1.error == Some(NetworkFailed))
            && (vm1.state == VmState.Creating ==> vm.state == VmState.Creating || sight.engine == Ok(VmState.Creating))
            && (vm1.ssh.Some? && vm1.ssh.value.ready ==>
                  vm1.state == VmState.Running && sight.reachable && vm1.ssh.value.initialized)
  {
  }

  /** What the readiness probe of a VM in state `state` leaves in its SSH record. */
  function SeenSsh(ssh: SshInfo, state: VmState, sight: Sighting): SshInfo {
    var reachable := state == VmState.Running && sight.reachable;
    var initialized := ssh.initialized || (reachable && sight.identified);
    var ready := reachable && initialized;
    SshInfo(initialized, ready, if ssh.observing && state == VmState.Running then !ready else ssh.observing)
  }

  class Runtime {
    const conf: Conf
    var table: seq<Vm>
    var running: set<VmId>
    var disks: map<VmId, nat>
    var resource: Resource
    var networkReady: bool
    ghost var live: set<VmId>
    ghost var states: seq<Host>
    ghost var events: seq<Event>

    ghost function Now(): Host
      reads this
    {
      Host(table, running, disks, live)
    }

    /** The trace has only grown: every state passed through is on it. */
    twostate predicate Continued()
      reads this
    {
      old(states) <= states
    }

    ghost predicate Valid()
      reads this
    {
      && Run(conf, states, events)
      && states[|states| - 1] == Now()
      && resource.Emptied() == conf.totals.Emptied()
    }

    /** An agent with an empty database. */
    constructor (conf: Conf)
      requires conf.portLo <= conf.portHi
      ensures Valid() && this.conf == conf && table == [] && live == {} && events == []
    {
      this.conf := conf;
      table, running, disks, live := [], {}, map[], {};
      resource := conf.totals.Emptied();
      networkReady := false;
      states, events := [Host([], {}, map[], {})], [];
    }

    /** Records that the present state was reached by the durable step `e`. */
    ghost method Note(e: Event)
      requires Run(conf, states, events) && resource.Emptied() == conf.totals.Emptied()
      requires Now() in Successors(conf, states[|states| - 1], e)
      modifies `states, `events
      ensures Valid() && states == old(states) + [Now()] && events == old(events) + [e]
      ensures Continued()
    {
      RunExtends(conf, states, events, e, Now());
      states := states + [Now()];
      events := events + [e];
    }

    ghost method Holds()
      requires Valid()
      ensures Inv(conf, Now())
    {
      RunInv(conf, states, events, |states| - 1);
    }

    /** `save_vm`, as the durable step `e`. */
    method Save(vm: Vm, ghost e: Event)
      requires Valid() && With(Now(), vm) in Successors(conf, Now(), e)
      modifies `table, `states, `events
      ensures Valid() && table == Saved(old(table), vm) && events == old(events) + [e]
      ensures Now() == With(old(Now()), vm) && Load(table, vm.id) == Some(vm)
      ensures OthersKept(vm.id)
      ensures Continued()
    {
      LoadSaved(table, vm, vm.id);
      forall other: VmId | other != vm.id ensures Load(Saved(table, vm), other) == Load(table, other) {
        LoadSaved(table, vm, other);
      }
      table := Saved(table, vm);
      Note(e);
    }

    method Recount()
      requires Valid()
      modifies `resource
      ensures Valid() && resource == Free(conf, Now())
    {
      AccountedFromTotals(resource, conf.totals, table);
      resource := ResourcesFor(resource, table);
    }

    /** No record but that of `id` has changed, and no other guest has come or gone. */
    twostate predicate OthersKept(id: VmId)
      reads this
    {
      && (forall other: VmId :: other != id ==> Load(table, other) == old(Load(table, other)))
      && live - {id} == old(live) - {id}
    }

    /** The operation left the records alone. */
    twostate predicate Untouched()
      reads this
    {
      && table == old(table) && running == old(running) && disks == old(disks) && live == old(live)
      && events == old(events)
    }

    // ---- guests ----

    /** If the engine is told to boot the guest, it may run from here on. */
    ghost method Boots(vm: Vm, told: bool)
      requires Valid() && Load(table, vm.id) == Some(vm) && Open(Now(), vm.id)
      requires vm.state == VmState.Creating && vm.pendingResources.None?
      modifies `live, `states, `events
      ensures Valid() && Open(Now(), vm.id)
      ensures live == if told then old(live) + {vm.id} else old(live)
      ensures events == old(events) + (if told then [Event.Boot(vm.id)] else [])
      ensures OthersKept(vm.id)
      ensures Continued()
    {
      hide Run;
      if told {
        live := live + {vm.id};
        Note(Event.Boot(vm.id));
      }
    }

    /** The guest ends, by itself or because the engine stopped it. */
    ghost method Exits(id: VmId)
      requires Valid()
      modifies `live, `states, `events
      ensures Valid() && live == old(live) - {id} && events == old(events) + [Exit(id)]
      ensures Continued()
    {
      hide Run;
      live := live - {id};
      Note(Exit(id));
    }

    // ---- power ----

    method StopVm(id: VmId, stopped: bool) returns (r: Result<()>)
      requires Valid()
      modifies this
      ensures Valid() && running == old(running) && disks == old(disks)
      ensures Load(old(table), id).None? ==> r == Err(VmNotFound) && Untouched()
      ensures Load(old(table), id).Some? ==>
                var vm := Load(old(table), id).value;
                if Guarded(running, vm) then r == Err(LifecycleConflict) && Untouched()
                else if vm.state == VmState.Stopped && vm.error != Some(StopUnfinished) then r == Ok(()) && Untouched()
                else if vm.state == VmState.Creating || vm.state == Deleting then r == Err(BadState) && Untouched()
                else
                  && events == old(events) + (if stopped then [Exit(id)] else []) + [Stopping(id, stopped)]
                  && table == Saved(old(table), AfterStop(vm, stopped))
                  && live == (if stopped then old(live) - {id} else old(live))
                  && (r.Ok? <==> stopped)
      ensures Continued()
    {
      var row := Load(table, id);
      if row.None? { return Err(VmNotFound); }
      var vm := row.value;
      if Guarded(running, vm) { return Err(LifecycleConflict); }
      if vm.state == VmState.Stopped && vm.error != Some(StopUnfinished) { return Ok(()); }
      if vm.state == VmState.Creating || vm.state == Deleting { return Err(BadState); }
      if stopped {
        Exits(id);
        vm := vm.(state := VmState.Stopped, ssh := Unready(vm.ssh), error := None);
      } else {
        vm := vm.(error := Some(StopUnfinished));
      }
      StopSteps(conf, Now(), id, stopped);
      Save(vm, Stopping(id, stopped));
      if !stopped { return Err(EngineFault); }
      Recount();
      r := Ok(());
    }

    /** What `start_vm` answers before it changes anything, if it stops there. */
    function StartAnswer(id: VmId, resource: Resource): Option<Result<()>>
      reads this
    {
      var row := Load(table, id);
      if row.None? then Some(Err(VmNotFound))
      else if Guarded(running, row.value) then Some(Err(LifecycleConflict))
      else if row.value.pendingResources.Some? then Some(Err(ResizeUnfinished))
      else if row.value.state == VmState.Running then Some(Ok(()))
      else if row.value.state != VmState.Stopped && row.value.state != VmState.Paused then Some(Err(BadState))
      else if row.value.state == VmState.Stopped
           && !resource.CanFit(row.value.cpu, MemoryReservation(row.value.engine, row.value.mem), 0) then
        Some(Err(NoCapacity))
      else None
    }

    /**
     A start is answered at once for a VM that runs already, and begins exactly for a stopped VM
     that fits or a paused one, without a target, backups in progress or a worker.
     */
    lemma StartsExactly(id: VmId, resource: Resource)
      ensures StartAnswer(id, resource) == Some(Ok(())) || StartAnswer(id, resource).None? ==>
                Load(table, id).Some?
      ensures Load(table, id).Some? ==>
                var vm := Load(table, id).value;
                var settled := && vm.backup.pending.None? && vm.backup.forwarding.None? && id !in running
                               && vm.pendingResources.None?;
                var need := Min(vm.mem + (match vm.engine case Firecracker => 128 case _ => 0), U32_MAX);
                && (StartAnswer(id, resource) == Some(Ok(())) <==> settled && vm.state == VmState.Running)
                && (StartAnswer(id, resource).None? <==>
                      && settled
                      && (vm.state == Paused
                          || (&& vm.state == VmState.Stopped
                              && vm.cpu <= resource.CpuFree() && need <= resource.MemFree())))
    {
    }

    /** `networked` and `booted` tell whether the network and the engine commands succeed. */
    method StartVm(id: VmId, networked: bool, booted: bool) returns (r: Result<()>)
      requires Valid()
      modifies this
      ensures Valid() && running == old(running) && disks == old(disks)
      ensures var answer := old(StartAnswer(id, Free(conf, Now())));
              if answer.Some? then r == answer.value && Untouched()
              else
                var vm := Load(old(table), id).value;
                var failed := if networked && booted then None else Some(OtherFault);
                && events == old(events) + [StartBegin(id)] + (if networked then [Event.Boot(id)] else [])
                             + [StartEnd(id, failed)]
                && Load(table, id) == Some(AfterStart(vm, failed))
                && live == (if networked then old(live) + {id} else old(live))
                && (r.Ok? <==> networked && booted)
      ensures OthersKept(id)
      ensures Continued()
    {
      var row := Load(table, id);
      if row.None? { return Err(VmNotFound); }
      var vm := row.value;
      if Guarded(running, vm) { return Err(LifecycleConflict); }
      if vm.pendingResources.Some? { return Err(ResizeUnfinished); }
      if vm.state == VmState.Running { return Ok(()); }
      if vm.state != VmState.Stopped && vm.state != VmState.Paused { return Err(BadState); }
      Recount();
      if vm.state == VmState.Stopped && !resource.CanFit(vm.cpu, MemoryReservation(vm.engine, vm.mem), 0) {
        return Err(NoCapacity);
      }
      r := Boot(vm, networked, booted);
      Recount();
    }

    method Boot(vm: Vm, networked: bool, booted: bool) returns (r: Result<()>)
      requires Valid() && Load(table, vm.id) == Some(vm) && StartAnswer(vm.id, Free(conf, Now())).None?
      modifies `table, `live, `states, `events, `networkReady
      ensures Valid() && (r.Ok? <==> networked && booted)
      ensures var failed := if networked && booted then None else Some(OtherFault);
              && events == old(events) + [StartBegin(vm.id)] + (if networked then [Event.Boot(vm.id)] else [])
                           + [StartEnd(vm.id, failed)]
              && Load(table, vm.id) == Some(AfterStart(vm, failed))
      ensures live == if networked then old(live) + {vm.id} else old(live)
      ensures OthersKept(vm.id)
      ensures Continued()
    {
      hide Run, Successors, Free;
      StartStep(conf, Now(), vm.id);
      var starting := vm.(state := VmState.Creating);
      Save(starting, StartBegin(vm.id));
      if vm.engine != Docker && networked { networkReady := true; }
      r := ConcludeStart(starting, networked, booted);
    }

    /** The engine is told to boot once the network is there, and its answer is saved. */
    method ConcludeStart(starting: Vm, networked: bool, booted: bool) returns (r: Result<()>)
      requires Valid() && Load(table, starting.id) == Some(starting) && Open(Now(), starting.id)
      requires starting.state == VmState.Creating && starting.pendingResources.None?
      modifies `table, `live, `states, `events
      ensures Valid() && (r.Ok? <==> networked && booted)
      ensures var failed := if networked && booted then None else Some(OtherFault);
              && events == old(events) + (if networked then [Event.Boot(starting.id)] else [])
                           + [StartEnd(starting.id, failed)]
              && Load(table, starting.id) == Some(AfterStart(starting, failed))
      ensures live == if networked then old(live) + {starting.id} else old(live)
      ensures OthersKept(starting.id)
      ensures Continued()
    {
      hide Run, Successors;
      Boots(starting, networked);
      ghost var failed := if networked && booted then None else Some(OtherFault);
      StartedStep(conf, Now(), starting.id, failed);
      if networked && booted {
        Save(starting.(state := VmState.Running, error := None), StartEnd(starting.id, failed));
        r := Ok(());
      } else {
        Save(starting.(state := Failed, error := Some(OtherFault)), StartEnd(starting.id, failed));
        r := Err(EngineFault);
      }
    }

    // ---- resource updates ----

    /** A storage command on the clone of `id`, as the durable step `e`. */
    method PutDisk(id: VmId, mib: nat, ghost e: Event)
      requires Valid() && Now().(disks := disks[id := mib]) in Successors(conf, Now(), e)
      modifies `disks, `states, `events
      ensures Valid() && disks == old(disks)[id := mib] && events == old(events) + [e]
      ensures Continued()
    {
      disks := disks[id := mib];
      Note(e);
    }

    /** What `resize_vm` refuses before it records anything. */
    function ResizeRefusal(id: VmId, t: Resources, offered: bool, engineStopped: bool, sized: bool,
                           resource: Resource): Option<Error>
      reads this
    {
      var row := Load(table, id);
      if row.None? then Some(VmNotFound)
      else
        var vm := row.value;
        if Guarded(running, vm) then Some(LifecycleConflict)
        else if HasArtifacts(vm.backup) && t.disk != RootMib(vm) then Some(ArtifactsPresent)
        else if !Resizable(vm.engine) || (vm.pendingResources.None? && !offered) then Some(Unsupported)
        else if t.cpu == 0 || t.mem == 0 || t.disk == 0 then Some(InvalidRequest)
        else if vm.state != VmState.Stopped || !engineStopped then Some(NotStopped)
        else if vm.pendingResources.Some? && vm.pendingResources != Some(t) then Some(ResizeUnfinished)
        else if !sized || id !in disks then Some(StorageFault)
        else if t.disk < disks[id] || t.disk < RootMib(vm) || t.disk < vm.options.requestedDisk then Some(ShrinkRefused)
        else if t.disk + Overhead(vm) > U32_MAX then Some(InvalidCapacity)
        else if !resource.CanFit(t.cpu, MemoryReservation(vm.engine, t.mem),
                                 SatSub(t.disk + Overhead(vm), ReservedDisk(vm))) then Some(NoCapacity)
        else None
    }

    /**
     An update is admitted exactly if the row and the engine both say that the guest is off, no
     backup or worker is in the way, the target is new or the recorded one, nothing shrinks or
     overflows, and the host has room for what the target adds.
     */
    lemma ResizesExactly(id: VmId, t: Resources, offered: bool, engineStopped: bool, sized: bool, resource: Resource)
      ensures ResizeRefusal(id, t, offered, engineStopped, sized, resource).None? <==>
                && Load(table, id).Some?
                && var vm := Load(table, id).value;
                   var disk := t.disk + ConfigDiskMib(vm.options, vm.engine);
                   && vm.backup.pending.None? && vm.backup.forwarding.None? && id !in running
                   && (vm.backup.current.Some? || vm.backup.retired != [] ==> t.disk == RootMib(vm))
                   && (vm.engine == Qemu || vm.engine == Firecracker)
                   && (match vm.pendingResources case None => offered case Some(u) => u == t)
                   && t.cpu > 0 && t.mem > 0 && t.disk > 0
                   && vm.state == VmState.Stopped && engineStopped
                   && sized && id in disks && disks[id] <= t.disk
                   && RootMib(vm) <= t.disk && vm.options.requestedDisk <= t.disk && disk <= U32_MAX
                   && t.cpu <= resource.CpuFree()
                   && Min(t.mem + (match vm.engine case Firecracker => 128 case _ => 0), U32_MAX) <= resource.MemFree()
                   && disk <= ReservedDisk(vm) + resource.DiskFree()
    {
    }

    /** The record already shows the target, and nothing is unfinished. */
    predicate Settled(vm: Vm, t: Resources) {
      && vm.pendingResources.None?
      && vm.cpu == t.cpu && vm.mem == t.mem && vm.options.requestedDisk == t.disk
      && vm.disk == t.disk + Overhead(vm)
    }

    /** The checks of `resize_vm`, in order. */
    method CheckResize(id: VmId, t: Resources, offered: bool, engineStopped: bool, sized: bool)
      returns (refusal: Option<Error>)
      requires Valid()
      modifies `resource
      ensures Valid() && refusal == old(ResizeRefusal(id, t, offered, engineStopped, sized, Free(conf, Now())))
      ensures refusal.None? ==> resource == Free(conf, Now())
    {
      var row := Load(table, id);
      if row.None? { return Some(VmNotFound); }
      var vm := row.value;
      if Guarded(running, vm) { return Some(LifecycleConflict); }
      if HasArtifacts(vm.backup) && t.disk != RootMib(vm) { return Some(ArtifactsPresent); }
      if !Resizable(vm.engine) { return Some(Unsupported); }
      if vm.pendingResources.None? && !offered { return Some(Unsupported); }
      if t.cpu == 0 || t.mem == 0 || t.disk == 0 { return Some(InvalidRequest); }
      if vm.state != VmState.Stopped || !engineStopped { return Some(NotStopped); }
      if vm.pendingResources.Some? && vm.pendingResources != Some(t) { return Some(ResizeUnfinished); }
      if !sized || id !in disks { return Some(StorageFault); }
      var current := disks[id];
      if t.disk < current || t.disk < RootMib(vm) || t.disk < vm.options.requestedDisk { return Some(ShrinkRefused); }
      if t.disk + Overhead(vm) > U32_MAX { return Some(InvalidCapacity); }
      Recount();
      if !resource.CanFit(t.cpu, MemoryReservation(vm.engine, t.mem),
                          SatSub(t.disk + Overhead(vm), ReservedDisk(vm))) {
        return Some(NoCapacity);
      }
      refusal := None;
    }

    /**
     `offered`, `engineStopped` and `sized` are the answers of the capability report, the engine
     and the size query; the engine tells the truth. The resize command leaves `reached` MiB and
     reports `extended`.
     */
    method ResizeVm(id: VmId, t: Resources, offered: bool, engineStopped: bool, sized: bool,
                    reached: nat, extended: bool) returns (r: Result<Vm>)
      requires Valid()
      requires engineStopped ==> id !in live
      requires id in disks && disks[id] <= t.disk ==>
                 disks[id] <= reached <= t.disk && (extended ==> reached == t.disk)
      modifies this
      ensures Valid() && running == old(running) && live == old(live)
      ensures !engineStopped ==> r.Err? && Untouched()
      ensures r.Ok? ==>
                && Load(table, id) == Some(r.value) && id in disks
                && r.value.cpu == t.cpu && r.value.mem == t.mem
                && r.value.options.requestedDisk == t.disk && RootMib(r.value) == t.disk
                && r.value.pendingResources.None?
      ensures var refusal := old(ResizeRefusal(id, t, offered, engineStopped, sized, Free(conf, Now())));
              refusal.Some? ==> r == Err(refusal.value) && Untouched()
      ensures old(ResizeRefusal(id, t, offered, engineStopped, sized, Free(conf, Now()))).None? ==>
                var vm := Load(old(table), id).value;
                if Settled(vm, t) then r == Ok(vm) && Untouched()
                else if (old(disks)[id] < t.disk || vm.pendingResources.Some?) && !extended then
                  && r == Err(StorageFault)
                  && Load(table, id) == Some(Intended(vm, t)) && disks == old(disks)[id := reached]
                else
                  && r == Ok(Resized(vm, t)) && Load(table, id) == Some(Resized(vm, t))
                  && id in disks && disks[id] == t.disk
      ensures OthersKept(id)
      ensures Continued()
    {
      var refusal := CheckResize(id, t, offered, engineStopped, sized);
      if refusal.Some? { return Err(refusal.value); }
      var vm := Load(table, id).value;
      if Settled(vm, t) { return Ok(vm); }
      r := Grow(vm, t, reached, extended);
      Recount();
    }

    /** Intent first, then the disk, then the new record. */
    method Grow(vm: Vm, t: Resources, reached: nat, extended: bool) returns (r: Result<Vm>)
      requires Valid() && Load(table, vm.id) == Some(vm) && Open(Now(), vm.id)
      requires vm.id in disks && vm.id !in live && ResizeFits(vm, t, disks[vm.id], Free(conf, Now()))
      requires disks[vm.id] <= reached <= t.disk && (extended ==> reached == t.disk)
      modifies `table, `disks, `states, `events
      ensures Valid()
      ensures if (old(disks[vm.id]) < t.disk || vm.pendingResources.Some?) && !extended then
                && r == Err(StorageFault)
                && Load(table, vm.id) == Some(Intended(vm, t)) && disks == old(disks)[vm.id := reached]
              else
                && r == Ok(Resized(vm, t)) && Load(table, vm.id) == Some(Resized(vm, t))
                && vm.id in disks && disks[vm.id] == t.disk
      ensures OthersKept(vm.id)
      ensures Continued()
    {
      hide Run, Successors, Intended, Resized, Open, ResizeFits;
      CompletesIntent(vm, t, disks[vm.id], Free(conf, Now()));
      var grow := t.disk > disks[vm.id] || vm.pendingResources.Some?;
      var next := Announce(vm, t, grow, reached);
      r := Conclude(next, t, grow && !extended);
    }

    method Announce(vm: Vm, t: Resources, grow: bool, reached: nat) returns (next: Vm)
      requires Valid() && Load(table, vm.id) == Some(vm) && Open(Now(), vm.id)
      requires vm.id in disks && vm.id !in live && ResizeFits(vm, t, disks[vm.id], Free(conf, Now()))
      requires disks[vm.id] <= reached <= t.disk
      modifies `table, `disks, `states, `events
      ensures Valid() && next == Intended(vm, t) && next.id == vm.id && Load(table, vm.id) == Some(next)
      ensures Open(Now(), vm.id) && next.pendingResources == Some(t) && t.disk + Overhead(next) <= U32_MAX
      ensures disks == if grow then old(disks)[vm.id := reached] else old(disks)
      ensures OthersKept(vm.id)
      ensures Continued()
    {
      ResizeSteps(conf, Now(), vm.id, t);
      next := vm.(pendingResources := Some(t), error := Some(ResizeRecorded));
      Save(next, ResizeBegin(vm.id, t));
      if grow { PutDisk(vm.id, reached, ResizeDisk(vm.id, reached)); }
    }

    method Conclude(vm: Vm, t: Resources, failed: bool) returns (r: Result<Vm>)
      requires Valid() && Load(table, vm.id) == Some(vm) && Open(Now(), vm.id)
      requires vm.pendingResources == Some(t) && t.disk + Overhead(vm) <= U32_MAX
      requires vm.id in disks && (!failed ==> disks[vm.id] == t.disk)
      modifies `table, `states, `events
      ensures Valid()
      ensures failed ==> r == Err(StorageFault) && Load(table, vm.id) == Some(vm.(error := Some(ResizeRecorded)))
      ensures !failed ==> r == Ok(Resized(vm, t)) && Load(table, vm.id) == Some(Resized(vm, t))
      ensures OthersKept(vm.id)
      ensures Continued()
    {
      ResizeOutcomes(conf, Now(), vm.id, t);
      if failed {
        Save(vm.(error := Some(ResizeRecorded)), ResizeFailed(vm.id));
        return Err(StorageFault);
      }
      var next := vm.(cpu := t.cpu, mem := t.mem, disk := t.disk + Overhead(vm),
                      options := vm.options.(requestedDisk := t.disk), pendingResources := None, error := None);
      Save(next, ResizeEnd(vm.id));
      r := Ok(next);
    }

    // ---- creation ----

    /** The stored record asks for the same VM as the request. */
    predicate SameRequest(vm: Vm, q: CreateRequest) {
      && vm.envId == q.envId && vm.image == q.image && vm.engine == q.engine
      && vm.cpu == q.cpu && vm.mem == q.mem && vm.options == q.Options()
    }

    /** The record under which a new VM is reserved. */
    function Reserved(q: CreateRequest, disk: u32, ip: Ip, ports: map<u16, u16>, revision: Token): Vm {
      Vm(NoBackups(revision), None, None, q.vmId, q.envId, 0, q.image, q.engine, q.cpu, q.mem, disk, ip, ports,
         q.Options(), None, VmState.Creating)
    }

    /** The answer for a VM that already exists: the record, if the request is a faithful retry. */
    function Retried(vm: Vm, q: CreateRequest): Result<Vm>
      reads this
    {
      if Guarded(running, vm) then Err(LifecycleConflict)
      else if !SameRequest(vm, q) then Err(DifferentParameters)
      else if vm.state == Failed || vm.state == Deleting then Err(BadState)
      else Ok(vm)
    }

    /** A stored VM answers exactly the request that would have made it, unless it failed or is going. */
    lemma RetriesExactly(vm: Vm, q: CreateRequest)
      ensures Retried(vm, q).Ok? <==>
                && vm.backup.pending.None? && vm.backup.forwarding.None? && vm.id !in running
                && vm.envId == q.envId && vm.image == q.image && vm.engine == q.engine
                && vm.cpu == q.cpu && vm.mem == q.mem
                && vm.options.requestedDisk == q.disk && vm.options.ssh == q.ssh
                && (forall p :: p in vm.options.ports <==> p in q.ports)
                && (forall k :: k in vm.options.sshKeys <==> k in q.sshKeys)
                && vm.options.denyOutgoing == q.denyOutgoing && vm.options.isolatedNetwork == q.isolatedNetwork
                && vm.options.guestConfigDigest == q.filesDigest
                && vm.state in {VmState.Running, VmState.Stopped, Paused, VmState.Creating}
      ensures Retried(vm, q).Ok? ==> Retried(vm, q).value == vm
    {
    }

    function SizeOf(q: CreateRequest, env: Provisioning): Result<u32> {
      S.AgentDisk(q.engine, q.disk, env.bytes, ConfigDiskMib(q.Options(), q.engine))
    }

    /** The stored VM is what was asked for: it runs, at the computed size, with its ports published. */
    ghost predicate Serves(vm: Vm, q: CreateRequest, env: Provisioning)
      reads this
    {
      && Load(table, q.vmId) == Some(vm)
      && vm.state == VmState.Running && SameRequest(vm, q)
      && SizeOf(q, env) == Ok(vm.disk)
      && vm.portMap.Keys == PortSet(q.Published())
      && (Resizable(q.engine) ==> Full(Now(), vm))
      && vm.id in live
    }

    /** Why no new VM is reserved, once the request itself is acceptable. */
    function PlacementRefusal(q: CreateRequest, env: Provisioning, resource: Resource): Option<Error>
      reads this
    {
      if q.engine != Docker && !env.imageExists then Some(ArtifactMissing)
      else if SizeOf(q, env).Err? then Some(SizeOf(q, env).error)
      else if !resource.CanFit(q.cpu, MemoryReservation(q.engine, q.mem), SizeOf(q, env).value) then Some(NoCapacity)
      else if resource.vmCount >= MAX_VMS then Some(VmLimit)
      else if |FreePorts(UsedPorts(table), env.available, conf.portLo, conf.portHi + 1)| < |PortSet(q.Published())| then
        Some(PortsExhausted)
      else None
    }

    /** A new VM is reserved exactly if its image exists and can be sized, and it fits with its ports. */
    lemma PlacesExactly(q: CreateRequest, env: Provisioning, resource: Resource)
      ensures PlacementRefusal(q, env, resource).None? <==>
                && (q.engine != Docker ==> env.imageExists)
                && SizeOf(q, env).Ok?
                && q.cpu <= resource.CpuFree()
                && Min(q.mem + (match q.engine case Firecracker => 128 case _ => 0), U32_MAX) <= resource.MemFree()
                && SizeOf(q, env).value <= resource.DiskFree()
                && resource.vmCount < 1000
                && |FreePorts(UsedPorts(table), env.available, conf.portLo, conf.portHi + 1)| >= |PortSet(q.Published())|
    {
    }

    /** Every command that the engine of the request needs succeeds. */
    predicate Builds(q: CreateRequest, env: Provisioning) {
      && (q.ssh.Some? ==> env.seeded)
      && (q.engine != Docker ==>
            && env.networked && env.cloned && env.configured
            && (Grows(q) ==> env.extended))
      && env.booted
    }

    /** The clone is grown after it is made. */
    predicate Grows(q: CreateRequest) { q.engine == Qemu || (q.engine == Firecracker && q.disk > 0) }

    /** The size of the clone that an attempt at creation leaves, if it gets that far. */
    function CloneLeft(q: CreateRequest, env: Provisioning): Option<nat> {
      if q.engine == Docker || (q.ssh.Some? && !env.seeded) || !env.networked || !env.cloned then None
      else Some(if Grows(q) then env.reached else MibCeil(env.bytes))
    }

    /** What creation takes and leaves, engine by engine. */
    lemma BuildsExactly(q: CreateRequest, env: Provisioning)
      ensures Builds(q, env) <==>
                && (q.ssh.Some? ==> env.seeded)
                && env.booted
                && match q.engine
                   case Docker => true
                   case Qemu => env.networked && env.cloned && env.extended && env.configured
                   case Firecracker =>
                     env.networked && env.cloned && env.configured && (q.disk == 0 || env.extended)
                   case _ => env.networked && env.cloned && env.configured
      ensures CloneLeft(q, env) ==
              if q.engine == Docker || (q.ssh.Some? && !env.seeded) || !(env.networked && env.cloned) then None
              else match q.engine
                   case Qemu => Some(env.reached)
                   case Firecracker => Some(if q.disk == 0 then MibCeil(env.bytes) else env.reached)
                   case _ => Some(MibCeil(env.bytes))
    {
    }

    function WithClone(disks: map<VmId, nat>, id: VmId, clone: Option<nat>): map<VmId, nat> {
      if clone.None? then disks else disks[id := clone.value]
    }

    predicate Acceptable(q: CreateRequest, env: Provisioning) {
      env.valid && q.cpu > 0 && q.mem > 0 && !(q.engine == Qemu && q.disk == 0)
    }

    /** A reserved VM of an engine with resizable disks is left with a clone that is too small. */
    predicate FallsShort(q: CreateRequest, env: Provisioning) {
      CloneLeft(q, env).Some? && Grows(q) && env.reached < Max(q.disk, MibCeil(env.bytes))
    }

    lemma ShortExactly(q: CreateRequest, env: Provisioning, disk: u32, vm: Vm)
      requires SizeOf(q, env) == Ok(disk) && Resizable(q.engine) && vm.disk == disk && SameRequest(vm, q)
      requires MibCeil(env.bytes) <= env.reached <= Max(q.disk, MibCeil(env.bytes))
      ensures CloneLeft(q, env).Some? && CloneLeft(q, env).value < RootMib(vm) <==> FallsShort(q, env)
    {
    }

    /**
     `create_vm`: an invalid request and one that the host does not offer are refused, a stored
     VM answers a faithful retry, and anything else is reserved before it is built. The clone
     falls short of the recorded capacity exactly if growing it was cut short.
     */
    method CreateVm(q: CreateRequest, env: Provisioning) returns (r: Result<Vm>)
      requires Valid()
      requires MibCeil(env.bytes) <= env.reached <= Max(q.disk, MibCeil(env.bytes))
      requires env.extended ==> env.reached == Max(q.disk, MibCeil(env.bytes))
      modifies this
      ensures Valid() && running == old(running)
      ensures r != Err(AddressesExhausted)
      ensures !Acceptable(q, env) ==> r == Err(InvalidRequest) && Untouched()
      ensures Acceptable(q, env) && Load(old(table), q.vmId).None? && !env.offered ==>
                r == Err(Unsupported) && Untouched()
      ensures Acceptable(q, env) && Load(old(table), q.vmId).Some? ==>
                r == old(Retried(Load(table, q.vmId).value, q)) && Untouched()
      ensures r.Ok? && Load(old(table), q.vmId).None? ==> Serves(r.value, q, env)
      ensures Acceptable(q, env) && env.offered && Load(old(table), q.vmId).None? ==>
                var refusal := old(PlacementRefusal(q, env, Free(conf, Now())));
                if refusal.Some? then r == Err(refusal.value) && Untouched()
                else
                  && (r.Ok? <==> Builds(q, env))
                  && Load(table, q.vmId).Some?
                  && (r.Err? ==> r.error == EngineFault && Load(table, q.vmId).value.state == Failed)
                  && disks == WithClone(old(disks), q.vmId, CloneLeft(q, env))
                  && (Resizable(q.engine) && q.vmId in disks ==>
                        (disks[q.vmId] < RootMib(Load(table, q.vmId).value) <==> FallsShort(q, env)))
      ensures OthersKept(q.vmId)
      ensures Continued()
    {
      if !env.valid || (q.engine == Qemu && q.disk == 0) || q.cpu == 0 || q.mem == 0 { return Err(InvalidRequest); }
      var row := Load(table, q.vmId);
      if row.Some? {
        if Guarded(running, row.value) { return Err(LifecycleConflict); }
        if !SameRequest(row.value, q) { return Err(DifferentParameters); }
        if row.value.state == Failed || row.value.state == Deleting { return Err(BadState); }
        return Ok(row.value);
      }
      if !env.offered { return Err(Unsupported); }
      r := NewVm(q, env);
    }

    method NewVm(q: CreateRequest, env: Provisioning) returns (r: Result<Vm>)
      requires Valid() && Load(table, q.vmId).None?
      requires MibCeil(env.bytes) <= env.reached <= Max(q.disk, MibCeil(env.bytes))
      requires env.extended ==> env.reached == Max(q.disk, MibCeil(env.bytes))
      modifies this
      ensures Valid() && running == old(running)
      ensures r != Err(AddressesExhausted)
      ensures r.Ok? ==> Serves(r.value, q, env)
      ensures var refusal := old(PlacementRefusal(q, env, Free(conf, Now())));
              if refusal.Some? then r == Err(refusal.value) && Untouched()
              else
                && (r.Ok? <==> Builds(q, env))
                && Load(table, q.vmId).Some?
                && (r.Err? ==> r.error == EngineFault && Load(table, q.vmId).value.state == Failed)
                && disks == WithClone(old(disks), q.vmId, CloneLeft(q, env))
                && (Resizable(q.engine) && q.vmId in disks ==>
                      (disks[q.vmId] < RootMib(Load(table, q.vmId).value) <==> FallsShort(q, env)))
      ensures OthersKept(q.vmId)
      ensures Continued()
    {
      hide Run, Successors;
      var vm := Place(q, env);
      if vm.Err? { return Err(vm.error); }
      if Resizable(q.engine) { ShortExactly(q, env, vm.value.disk, vm.value); }
      r := Provision(vm.value, q, env);
    }

    /** Capacity checks and reservation: a record is stored, or nothing happened. */
    method Place(q: CreateRequest, env: Provisioning) returns (r: Result<Vm>)
      requires Valid() && Load(table, q.vmId).None?
      modifies `table, `states, `events, `resource
      ensures Valid()
      ensures var refusal := old(PlacementRefusal(q, env, Free(conf, Now())));
              if refusal.Some? then r == Err(refusal.value) && table == old(table) && events == old(events) else r.Ok?
      ensures r.Ok? ==>
                && Load(table, q.vmId) == Some(r.value)
                && SizeOf(q, env) == Ok(r.value.disk)
                && r.value == Reserved(q, r.value.disk, r.value.ip, r.value.portMap, env.revision)
                && r.value.portMap.Keys == PortSet(q.Published())
                && q.vmId !in disks && q.vmId !in running && q.vmId !in live
      ensures OthersKept(q.vmId)
      ensures Continued()
    {
      hide Run, Successors;
      Recount();
      if q.engine != Docker && !env.imageExists { return Err(ArtifactMissing); }
      var disk := SizeOf(q, env);
      if disk.Err? { return Err(disk.error); }
      if !resource.CanFit(q.cpu, MemoryReservation(q.engine, q.mem), disk.value) { return Err(NoCapacity); }
      if resource.vmCount >= MAX_VMS { return Err(VmLimit); }
      r := Reserve(q, disk.value, env);
    }

    /** Below the VM limit only the host ports can run out. */
    method Address(q: CreateRequest, available: set<u16>) returns (ip: Ip, ports: Result<map<u16, u16>>)
      requires Valid() && Free(conf, Now()).vmCount < MAX_VMS
      ensures ports.Err? ==> ports.error == PortsExhausted
      ensures ports.Ok? <==>
                |FreePorts(UsedPorts(table), available, conf.portLo, conf.portHi + 1)| >= |PortSet(q.Published())|
      ensures ports.Ok? ==>
                Addressed(conf, table, q.engine, ip, ports.value) && ports.value.Keys == PortSet(q.Published())
    {
      Holds();
      RecountIsExact(conf, Now());
      ip := NoIp;
      if q.engine != Docker {
        var found := FindAddress(table);
        ip := found.value;
      }
      ports := AllocatePorts(table, q.Published(), conf.portLo, conf.portHi, available);
    }

    lemma ReservationIsFresh(q: CreateRequest, disk: u32, env: Provisioning, ip: Ip, ports: map<u16, u16>)
      requires Valid() && Load(table, q.vmId).None? && SizeOf(q, env) == Ok(disk)
      requires Free(conf, Now()).CanFit(q.cpu, MemoryReservation(q.engine, q.mem), disk)
      requires Free(conf, Now()).vmCount < MAX_VMS && Addressed(conf, table, q.engine, ip, ports)
      ensures var vm := Reserved(q, disk, ip, ports, env.revision);
              vm.id == q.vmId && With(Now(), vm) in Successors(conf, Now(), Event.Reserve(vm))
    {
      hide Run;
      ReserveStep(conf, Now(), Reserved(q, disk, ip, ports, env.revision));
    }

    /** Identity, address, ports and resources are reserved before the first external effect. */
    method Reserve(q: CreateRequest, disk: u32, env: Provisioning) returns (r: Result<Vm>)
      requires Valid() && Load(table, q.vmId).None? && resource == Free(conf, Now())
      requires SizeOf(q, env) == Ok(disk)
      requires resource.CanFit(q.cpu, MemoryReservation(q.engine, q.mem), disk) && resource.vmCount < MAX_VMS
      modifies `table, `states, `events, `resource
      ensures Valid()
      ensures r.Err? ==> r.error == PortsExhausted && table == old(table) && events == old(events)
      ensures r.Ok? ==>
                && Load(table, q.vmId) == Some(r.value)
                && r.value == Reserved(q, disk, r.value.ip, r.value.portMap, env.revision)
                && r.value.portMap.Keys == PortSet(q.Published())
                && q.vmId !in disks && q.vmId !in running && q.vmId !in live
      ensures r.Ok? <==>
                old(|FreePorts(UsedPorts(table), env.available, conf.portLo, conf.portHi + 1)|)
                >= |PortSet(q.Published())|
      ensures OthersKept(q.vmId)
      ensures Continued()
    {
      hide Run, Successors, Inv, FreePorts;
      Holds();
      UnknownNames(conf, Now(), q.vmId);
      var ip, ports := Address(q, env.available);
      if ports.Err? { return Err(ports.error); }
      var vm := Reserved(q, disk, ip, ports.value, env.revision);
      ReservationIsFresh(q, disk, env, ip, ports.value);
      Save(vm, Event.Reserve(vm));
      Recount();
      r := Ok(vm);
    }

    /** The external half of creation; a failure keeps the record, with what exists, for cleanup. */
    method Provision(vm: Vm, q: CreateRequest, env: Provisioning) returns (r: Result<Vm>)
      requires Valid() && Load(table, vm.id) == Some(vm) && Open(Now(), vm.id)
      requires vm.state == VmState.Creating && vm.id == q.vmId && vm.engine == q.engine && SameRequest(vm, q)
      requires SizeOf(q, env) == Ok(vm.disk) && vm.id !in disks && vm.id !in live
      requires vm.portMap.Keys == PortSet(q.Published()) && vm.pendingResources.None?
      requires MibCeil(env.bytes) <= env.reached <= Max(q.disk, MibCeil(env.bytes))
      requires env.extended ==> env.reached == Max(q.disk, MibCeil(env.bytes))
      modifies `table, `live, `states, `events, `disks, `networkReady
      ensures Valid() && Load(table, vm.id).Some?
      ensures r.Ok? ==> Serves(r.value, q, env)
      ensures r.Err? ==> r.error == EngineFault && Load(table, vm.id).value.state == Failed
      ensures r.Ok? <==> Builds(q, env)
      ensures disks == WithClone(old(disks), vm.id, CloneLeft(q, env))
      ensures RootMib(Load(table, vm.id).value) == RootMib(vm)
      ensures OthersKept(vm.id)
      ensures Continued()
    {
      hide Run, Successors, CloneLeft, WithClone, Builds, SizeOf, ConfigDiskMib;
      var seeded, built := SeedAndBuild(vm, q, env);
      r := ConcludeCreation(seeded, built, env.booted);
    }

    method SeedAndBuild(vm: Vm, q: CreateRequest, env: Provisioning) returns (seeded: Vm, built: bool)
      requires Valid() && Load(table, vm.id) == Some(vm) && Open(Now(), vm.id)
      requires vm.state == VmState.Creating && vm.engine == q.engine && SameRequest(vm, q)
      requires SizeOf(q, env) == Ok(vm.disk) && vm.id !in disks && vm.id !in live
      requires MibCeil(env.bytes) <= env.reached <= Max(q.disk, MibCeil(env.bytes))
      requires env.extended ==> env.reached == Max(q.disk, MibCeil(env.bytes))
      modifies `table, `states, `events, `disks, `networkReady
      ensures Valid() && Load(table, vm.id) == Some(seeded) && seeded == vm.(ssh := seeded.ssh)
      ensures built && Resizable(q.engine) ==> Full(Now(), seeded)
      ensures built && env.booted <==> Builds(q, env)
      ensures disks == WithClone(old(disks), vm.id, CloneLeft(q, env))
      ensures OthersKept(vm.id)
      ensures Continued()
    {
      hide Run, Successors;
      seeded := vm;
      if q.ssh.Some? && env.seeded { seeded := PlantSeed(vm); }
      built := !(q.ssh.Some? && !env.seeded);
      if built && q.engine != Docker { built := Build(seeded, q, env); }
    }

    /** The bootstrap seed is on disk; its host key is recorded. */
    method PlantSeed(vm: Vm) returns (seeded: Vm)
      requires Valid() && Load(table, vm.id) == Some(vm) && Open(Now(), vm.id) && vm.state == VmState.Creating
      modifies `table, `states, `events
      ensures Valid() && Load(table, vm.id) == Some(seeded) && Open(Now(), vm.id)
      ensures seeded == vm.(ssh := Some(SshInfo(false, false, false)))
      ensures OthersKept(vm.id)
      ensures Continued()
    {
      seeded := vm.(ssh := Some(SshInfo(false, false, false)));
      SeedStep(conf, Now(), vm.id, SshInfo(false, false, false));
      Save(seeded, Seed(vm.id, SshInfo(false, false, false)));
    }

    /** Everything before the engine went well or not; if it did, the engine is told to boot the guest. */
    method ConcludeCreation(vm: Vm, built: bool, booted: bool) returns (r: Result<Vm>)
      requires Valid() && Load(table, vm.id) == Some(vm) && Open(Now(), vm.id)
      requires vm.state == VmState.Creating && vm.pendingResources.None?
      requires built && Resizable(vm.engine) ==> Full(Now(), vm)
      modifies `table, `live, `states, `events
      ensures Valid() && (r.Ok? <==> built && booted)
      ensures r.Ok? ==> r.value == AfterStart(vm, None) && Load(table, vm.id) == Some(r.value)
      ensures r.Err? ==> r.error == EngineFault && Load(table, vm.id) == Some(AfterStart(vm, Some(OtherFault)))
      ensures built ==> vm.id in live
      ensures OthersKept(vm.id)
      ensures Continued()
    {
      hide Run, Successors;
      Boots(vm, built);
      var ok := built && booted;
      var failed := if ok then None else Some(OtherFault);
      CreatedSteps(conf, Now(), vm.id, failed);
      Save(vm.(state := if ok then VmState.Running else Failed, error := failed), Created(vm.id, failed));
      r := if ok then Ok(AfterStart(vm, None)) else Err(EngineFault);
    }

    /** Clone the base image and grow the clone to the recorded capacity. */
    method Build(vm: Vm, q: CreateRequest, env: Provisioning) returns (ok: bool)
      requires Valid() && Load(table, vm.id) == Some(vm) && Open(Now(), vm.id)
      requires vm.state == VmState.Creating && vm.engine == q.engine && q.engine != Docker && SameRequest(vm, q)
      requires SizeOf(q, env) == Ok(vm.disk) && vm.id !in disks && vm.id !in live
      requires MibCeil(env.bytes) <= env.reached <= Max(q.disk, MibCeil(env.bytes))
      requires env.extended ==> env.reached == Max(q.disk, MibCeil(env.bytes))
      modifies `states, `events, `disks, `networkReady
      ensures Valid() && (ok && Resizable(q.engine) ==> Full(Now(), vm))
      ensures ok <==> env.networked && env.cloned && env.configured && (Grows(q) ==> env.extended)
      ensures disks == if !env.networked || !env.cloned then old(disks)
                       else old(disks)[vm.id := if Grows(q) then env.reached else MibCeil(env.bytes)]
      ensures Continued()
    {
      hide Run, Successors;
      if !env.networked { return false; }
      networkReady := true;
      if !env.cloned { return false; }
      var base := MibCeil(env.bytes);
      CloneStep(conf, Now(), vm.id, base);
      PutDisk(vm.id, base, Clone(vm.id, base));
      if (q.engine == Firecracker && q.disk > 0) || q.engine == Qemu {
        GrowClone(vm, env.reached);
        if !env.extended { return false; }
      }
      ok := env.configured;
    }

    method GrowClone(vm: Vm, reached: nat)
      requires Valid() && Load(table, vm.id) == Some(vm) && Open(Now(), vm.id) && vm.state == VmState.Creating
      requires vm.id in disks && disks[vm.id] <= reached <= RootMib(vm) && vm.id !in live
      modifies `states, `events, `disks
      ensures Valid() && disks == old(disks)[vm.id := reached]
      ensures Continued()
    {
      ExtendStep(conf, Now(), vm.id, reached);
      PutDisk(vm.id, reached, Extend(vm.id, reached));
    }

    // ---- deletion ----

    /** Deletion removes the row; a missing row is already deleted. */
    method DropRow(id: VmId)
      requires Valid() && Now().(table := Deleted(table, id)) in Successors(conf, Now(), DeleteRow(id))
      modifies `table, `states, `events
      ensures Valid() && table == Deleted(old(table), id) && events == old(events) + [DeleteRow(id)]
      ensures Continued()
    {
      table := Deleted(table, id);
      Note(DeleteRow(id));
    }

    method DropImage(id: VmId)
      requires Valid() && Now().(disks := disks - {id}) in Successors(conf, Now(), RemoveImage(id))
      modifies `disks, `states, `events
      ensures Valid() && disks == old(disks) - {id} && events == old(events) + [RemoveImage(id)]
      ensures Continued()
    {
      disks := disks - {id};
      Note(RemoveImage(id));
    }

    /** Everything that a deletion of `id` does, for every combination of what fails. */
    twostate predicate Deletes(id: VmId, ctx: C.Context, a: Removal, new r: Result<()>, cleared: bool)
      reads this, ctx
    {
      var row := old(Load(table, id));
      if row.None? then r == Ok(()) && Untouched() && ctx.store == old(ctx.store)
      else if id in old(running) then r == Err(LifecycleConflict) && Untouched() && ctx.store == old(ctx.store)
      else
        && Load(table, id) == Remains(row.value, a, cleared)
        && (r.Ok? <==> Remains(row.value, a, cleared).None?)
        && disks == (if LosesImage(row.value, a, cleared) then old(disks) - {id} else old(disks))
        && live == (if a.stopped then old(live) - {id} else old(live))
        && Clears(B.Site(ctx.vm, ctx.backend), row.value, old(ctx.store), ctx.store, ctx.healthy, a, cleared)
    }

    /** `destroy_vm`; a missing row is already deleted. */
    method DestroyVm(id: VmId, ctx: C.Context, a: Removal) returns (r: Result<()>, ghost cleared: bool)
      requires Valid()
      requires UniqueNames(ctx.store.snapshots)
      requires Load(table, id).Some? ==>
                 forall g :: g in Tracked(Load(table, id).value.backup) ==> g.backend == ctx.backend
      modifies this, ctx`store
      ensures Valid() && running == old(running)
      ensures Deletes(id, ctx, a, r, cleared)
      ensures OthersKept(id)
      ensures Continued()
    {
      hide Run, Successors, Swept, Forgotten, B.RemoveMany, B.AllAbsent, W.AllRemovable;
      cleared := false;
      var row := Load(table, id);
      if row.None? { return Ok(()), false; }
      if id in running { return Err(LifecycleConflict), false; }
      var vm := row.value;
      TracksDistinct(id);
      W.RemovedNothing(ctx.store);
      W.RemovalIsMonotone(ctx.store, ctx.store, [], Tracked(vm.backup));
      DestroySteps(conf, Now(), id);
      var doomed := vm.(state := Deleting);
      Save(doomed, DestroyBegin(id));
      DestroySteps(conf, Now(), id);
      if !a.stopped {
        Save(doomed.(error := Some(OtherFault)), DestroyFault(id, OtherFault));
        return Err(EngineFault), false;
      }
      Exits(id);
      var gone := DeleteBackups(doomed, ctx, a.lockFree);
      if gone.Err? { return Err(gone.error), false; }
      cleared := true;
      r := Erase(doomed, a);
    }

    lemma TracksDistinct(id: VmId)
      requires Valid() && Load(table, id).Some?
      ensures DistinctIds(Tracked(Load(table, id).value.backup))
    {
      RunInv(conf, states, events, |states| - 1);
      assert RowInv(Now(), Load(table, id).value);
    }

    /** `delete_backups`: everything the record tracks, under the worker lock. */
    method DeleteBackups(vm: Vm, ctx: C.Context, lockFree: bool) returns (r: Result<()>)
      requires UniqueNames(ctx.store.snapshots) && DistinctIds(Tracked(vm.backup))
      requires forall g :: g in Tracked(vm.backup) ==> g.backend == ctx.backend
      modifies ctx`store
      ensures B.RemoveMany(old(ctx.store), ctx.store, Tracked(vm.backup))
      ensures !HasArtifacts(vm.backup) || !lockFree ==> ctx.store == old(ctx.store)
      ensures r.Ok? ==>
                && (HasArtifacts(vm.backup) ==> lockFree)
                && B.AllAbsent(ctx.backend, ctx.store, Tracked(vm.backup))
      ensures !HasArtifacts(vm.backup) ==> r.Ok?
      ensures ctx.healthy && HasArtifacts(vm.backup) ==>
                (r.Ok? <==> lockFree && W.AllRemovable(ctx.vm, old(ctx.store), Tracked(vm.backup)))
    {
      W.RemovedNothing(ctx.store);
      W.RemovalIsMonotone(ctx.store, ctx.store, [], Tracked(vm.backup));
      if !HasArtifacts(vm.backup) { return Ok(()); }
      if !lockFree { return Err(WriterActive); }
      r := W.RemoveInOrder(ctx, Tracked(vm.backup));
    }

    /** The record forgets its backups before anything else is removed. */
    method Erase(vm: Vm, a: Removal) returns (r: Result<()>)
      requires Valid() && Load(table, vm.id) == Some(vm) && vm.state == Deleting
      requires vm.id !in running && vm.id !in live
      modifies `table, `states, `events, `disks, `resource
      ensures Valid() && Load(table, vm.id) == Swept(Forgotten(vm), a)
      ensures r.Ok? <==> Swept(Forgotten(vm), a).None?
      ensures disks == if vm.engine != Docker && a.imageGone then old(disks) - {vm.id} else old(disks)
      ensures OthersKept(vm.id)
      ensures Continued()
    {
      var id := vm.id;
      DestroySteps(conf, Now(), id);
      var emptied := vm.(backup := vm.backup.(current := None, pending := None, retired := []));
      Save(emptied, Forget(id));
      r := Sweep(emptied, a);
    }

    /** Network, image and row of a VM whose backups are forgotten. */
    method Sweep(vm: Vm, a: Removal) returns (r: Result<()>)
      requires Valid() && Load(table, vm.id) == Some(vm) && vm.id !in running && vm.id !in live
      requires vm.state == Deleting && vm == Forgotten(vm)
      modifies `table, `states, `events, `disks, `resource
      ensures Valid() && Load(table, vm.id) == Swept(vm, a)
      ensures r.Ok? <==> Swept(vm, a).None?
      ensures disks == if vm.engine != Docker && a.imageGone then old(disks) - {vm.id} else old(disks)
      ensures OthersKept(vm.id)
      ensures Continued()
    {
      hide Run, Successors;
      RemovalSteps(conf, Now(), vm.id);
      if vm.engine != Docker && a.imageGone { DropImage(vm.id); }
      if !a.torn || (vm.engine != Docker && !a.imageGone) {
        DestroySteps(conf, Now(), vm.id);
        Save(vm.(error := Some(OtherFault)), DestroyFault(vm.id, OtherFault));
        return Err(EngineFault);
      }
      if !a.seedGone { return Err(StorageFault); }
      DropForgotten(vm);
      Recount();
      r := Ok(());
    }

    method DropForgotten(vm: Vm)
      requires Valid() && Load(table, vm.id) == Some(vm) && vm.id !in running && vm.id !in live
      requires vm.state == Deleting && vm == Forgotten(vm)
      requires vm.engine != Docker ==> vm.id !in disks
      modifies `table, `states, `events
      ensures Valid() && Load(table, vm.id).None?
      ensures OthersKept(vm.id)
      ensures Continued()
    {
      Holds();
      assert RowInv(Now(), vm);
      RemovalSteps(conf, Now(), vm.id);
      forall other: VmId
        ensures Load(Deleted(table, vm.id), other) == if other == vm.id then None else Load(table, other)
      {
        LoadDeleted(table, vm.id, other);
      }
      DropRow(vm.id);
    }

    // ---- observation ----

    /** The observed record, and what is known about the network afterwards. */
    method Look(row: Vm, sight: Sighting) returns (vm: Vm)
      modifies `networkReady
      ensures vm == Looked(row, old(networkReady), sight)
      ensures networkReady == NetworkAfter(row, old(networkReady), sight)
    {
      vm := row;
      var needsRecovery := vm.error.Some?;
      var wasRunning := Live(vm.state);
      var wasFailed := vm.state == Failed;
      if sight.engine.Ok? {
        var actual := sight.engine.value;
        if vm.error == Some(QueryFailed) { vm := vm.(error := None); }
        if vm.state == VmState.Creating && !Live(actual) {
          vm := vm.(state := Failed, error := Some(Interrupted));
        } else if vm.state != Failed || Live(actual) {
          vm := vm.(state := actual);
        }
        if actual == VmState.Stopped && vm.pendingResources.None?
           && (vm.error == Some(NetworkPending) || vm.error == Some(NetworkFailed)) {
          vm := vm.(error := None);
        }
        if Live(actual) && (!wasRunning || needsRecovery || !networkReady) {
          if vm.engine == Docker || sight.recovered {
            if vm.engine != Docker { networkReady := true; }
            if wasFailed || RecoveryOwned(vm.error) { vm := vm.(error := None); }
          } else {
            networkReady := false;
            vm := vm.(error := Some(NetworkFailed));
          }
        }
      } else if RecoveryOwned(vm.error) {
        vm := vm.(error := Some(QueryFailed));
      }
      if vm.ssh.Some? { vm := vm.(ssh := Some(SeenSsh(vm.ssh.value, vm.state, sight))); }
    }

    /** `reconcile_vm`: a missing row stays missing, and unfinished deletion is resumed. */
    method ReconcileVm(id: VmId, sight: Sighting, ctx: C.Context, a: Removal) returns (r: Result<()>, ghost cleared: bool)
      requires Valid()
      requires sight.engine.Ok? ==> sight.engine.value != Deleting
      requires UniqueNames(ctx.store.snapshots)
      requires Load(table, id).Some? ==>
                 forall g :: g in Tracked(Load(table, id).value.backup) ==> g.backend == ctx.backend
      modifies this, ctx`store
      ensures Valid() && running == old(running)
      ensures Load(old(table), id).None? || Load(old(table), id).value.state == Deleting ==>
                Deletes(id, ctx, a, r, cleared)
      ensures Load(old(table), id).Some? && Load(old(table), id).value.state != Deleting ==>
                && r == Ok(()) && ctx.store == old(ctx.store) && disks == old(disks) && live == old(live)
                && table == Saved(old(table), Looked(Load(old(table), id).value, old(networkReady), sight))
                && networkReady == NetworkAfter(Load(old(table), id).value, old(networkReady), sight)
      ensures OthersKept(id)
      ensures Continued()
    {
      cleared := false;
      var row := Load(table, id);
      if row.None? { return Ok(()), false; }
      if row.value.state == Deleting {
        r, cleared := DestroyVm(id, ctx, a);
        return;
      }
      var vm := Look(row.value, sight);
      ObserveSteps(conf, Now(), id, vm);
      Save(vm, Observe(id, vm.state, vm.error, vm.ssh));
      r := Ok(());
    }

    /** The process died and starts again: workers are gone, live guests await network recovery. */
    method Reopen()
      requires Valid()
      modifies this
      ensures Valid() && running == {} && disks == old(disks) && live == old(live)
      ensures |table| == |old(table)| && forall j :: 0 <= j < |table| ==> table[j] == Recovering(old(table)[j])
      ensures Continued()
    {
      running, networkReady := {}, false;
      Note(Event.Crash);
      var rows := table;
      for k := 0 to |rows|
        invariant Valid() && Continued() && running == {} && disks == old(disks) && live == old(live)
        invariant |table| == |rows|
        invariant forall j :: 0 <= j < |rows| ==> table[j] == if j < k then Recovering(rows[j]) else rows[j]
      {
        MarkPending(k);
      }
      Recount();
    }

    method MarkPending(k: nat)
      requires Valid() && k < |table|
      modifies `table, `states, `events
      ensures Valid() && table == old(table)[k := Recovering(old(table)[k])]
      ensures Continued()
    {
      var vm := table[k];
      Holds();
      LoadAt(table, k);
      IndexIs(table, vm.id, k);
      if vm.engine != Docker && Live(vm.state) && vm.error.None? {
        ObserveSteps(conf, Now(), vm.id, vm.(error := Some(NetworkPending)));
        Save(vm.(error := Some(NetworkPending)), Observe(vm.id, vm.state, Some(NetworkPending), vm.ssh));
      }
    }

    // ---- backups ----

    method SetRunning(next: set<VmId>, ghost e: Event)
      requires Valid() && Now().(running := next) in Successors(conf, Now(), e)
      modifies `running, `states, `events
      ensures Valid() && running == next && events == old(events) + [e]
      ensures Continued()
    {
      running := next;
      Note(e);
    }

    /** Why a worker may not claim the VM, apart from the workers that already run. */
    function Refusal(vm: Vm, request: Option<Request>, settings: Settings, engineStopped: bool, now: nat)
      : Option<Error>
    {
      if request.Some? then ClaimRefusal(vm, request.value, settings, engineStopped) else CleanupRefusal(vm, now)
    }

    /** `backup_claim`, for a request or for cleanup: at most two workers, at most one per VM. */
    method BackupClaim(id: VmId, request: Option<Request>, settings: Settings, engineStopped: bool, now: nat)
      returns (r: Result<Vm>)
      requires Valid()
      modifies `running, `states, `events
      ensures Valid()
      ensures var row := Load(table, id);
              && (row.None? ==> r == Err(VmNotFound))
              && (row.Some? ==>
                    var refusal := Refusal(row.value, request, settings, engineStopped, now);
                    if refusal.Some? then r == Err(refusal.value)
                    else if |old(running)| >= 2 || id in old(running) then r == Err(WorkerRunning)
                    else r == Ok(row.value))
      ensures r.Ok? ==> running == old(running) + {id} && id !in old(running) && events == old(events) + [Claim(id)]
      ensures r.Err? ==> running == old(running) && events == old(events) && states == old(states)
      ensures |running| <= 2
      ensures Continued()
    {
      Holds();
      var row := Load(table, id);
      if row.None? { return Err(VmNotFound); }
      var vm := row.value;
      if request.Some? {
        var replay := Check(vm.backup, request.value);
        if replay.Err? { return Err(replay.error); }
        if replay.value { return Err(CompletedOperation); }
        if request.value.action == Create && vm.backup.pending.None? {
          if !settings.enabled { return Err(AdmissionDisabled); }
          if !settings.supported { return Err(Unsupported); }
        }
        if !settings.designed { return Err(Unsupported); }
        if vm.state != VmState.Stopped || vm.pendingResources.Some? { return Err(NotStopped); }
        if !engineStopped { return Err(NotStopped); }
      } else if vm.backup.pending.Some? {
        return Err(OperationUnfinished);
      } else if vm.backup.cleanupRetryAt > now {
        return Err(BackingOff);
      }
      if |running| >= 2 || id in running { return Err(WorkerRunning); }
      BackupSteps(conf, Now(), id);
      SetRunning(running + {id}, Claim(id));
      r := Ok(vm);
    }

    method BackupRelease(id: VmId)
      requires Valid()
      modifies `running, `states, `events
      ensures Valid() && running == old(running) - {id}
      ensures Continued()
    {
      SetRunning(running - {id}, Release(id));
    }

    /** `backup_settled`: the sequence number at which no worker can still change the outcome. */
    method BackupSettled(id: VmId, request: Request) returns (sequence: Option<u64>)
      ensures sequence.Some? <==>
                && id !in running
                && (Load(table, id).Some? && Load(table, id).value.backup.pending.Some? ==>
                      Load(table, id).value.backup.pending.value.request != request)
      ensures sequence.Some? ==>
                sequence.value == if Load(table, id).None? then 0 else Load(table, id).value.backup.sequence
    {
      if id in running { return None; }
      var row := Load(table, id);
      if row.None? { return Some(0); }
      var pending := row.value.backup.pending;
      if pending.None? || pending.value.request != request { return Some(row.value.backup.sequence); }
      sequence := None;
    }

    /** `backup_admit`: durable intent before any storage write. */
    method BackupAdmit(id: VmId, request: Request, seen: Witness, artifact: Token, revision: Token, now: nat)
      returns (r: Result<Vm>)
      requires Valid() && id in running
      requires Load(table, id).Some? ==> forall g :: g in Tracked(Load(table, id).value.backup) ==> g.id != artifact
      modifies `table, `resource, `states, `events
      ensures Valid()
      ensures Load(old(table), id).None? ==> r == Err(VmNotFound)
      ensures Load(old(table), id).Some? ==>
                r == Admission(Load(old(table), id).value, request, seen, conf.backend,
                               Free(conf, old(Now())).DiskFree(), artifact, revision, now)
      ensures table == if r.Ok? && r != Ok(Load(old(table), id).value) then Saved(old(table), r.value) else old(table)
      ensures r.Ok? ==> Load(table, id) == Some(r.value)
      ensures Continued()
    {
      hide Run, Successors;
      var row := Load(table, id);
      if row.None? { return Err(VmNotFound); }
      var vm := row.value;
      var replay := Check(vm.backup, request);
      if replay.Err? { return Err(replay.error); }
      if replay.value { return Err(CompletedOperation); }
      if vm.backup.pending.Some? { return Ok(vm); }
      var refusal := AdmissionRefusal(vm, request, seen);
      if refusal.Some? { return Err(refusal.value); }
      Recount();
      if request.action != Delete && resource.DiskFree() < MibCeil(seen.rootBytes) { return Err(NoBudget); }
      if vm.backup.sequence == U64_MAX { return Err(SequenceExhausted); }
      AdmitStep(conf, Now(), id, request, seen, artifact, revision, now);
      vm := Intent(vm, request, seen, artifact, revision, now);
      Save(vm, Admit(id, request, seen, artifact, revision, now));
      Recount();
      r := Ok(vm);
    }

    /** The record that admission saves: the pending operation under a new revision and sequence number. */
    method Intent(row: Vm, request: Request, seen: Witness, artifact: Token, revision: Token, now: nat) returns (vm: Vm)
      requires row.backup.sequence < U64_MAX
      ensures vm == row.(backup := row.backup.(
                pending := Some(NewPending(request, seen, conf.backend, artifact, now)),
                revision := revision, sequence := row.backup.sequence + 1))
    {
      vm := row.(backup := row.backup.(pending := Some(NewPending(request, seen, conf.backend, artifact, now))));
      vm := vm.(backup := vm.backup.(revision := revision));
      vm := vm.(backup := vm.backup.(sequence := vm.backup.sequence + 1));
    }

    /** `backup_finish`: publish the result; the reservation of the host never grows. */
    method BackupFinish(id: VmId, request: Request, removed: seq<Token>, result: Result<Option<Generation>>, now: nat)
      returns (r: Result<Vm>)
      requires Valid() && id in running
      requires Load(table, id).Some? && Load(table, id).value.backup.pending.Some?
               && Load(table, id).value.backup.pending.value.request == request ==>
                 Fulfils(Load(table, id).value.backup.pending.value, result)
      modifies `table, `resource, `states, `events
      ensures Valid()
      ensures Load(old(table), id).None? ==> r == Err(VmNotFound)
      ensures Load(old(table), id).Some? ==>
                r == Finished(Load(old(table), id).value, request, removed, result, now)
      ensures r.Ok? ==> Load(table, id) == Some(r.value) && SumDisk(table) <= SumDisk(old(table))
      ensures r.Ok? ==>
                var s := Load(old(table), id).value.backup;
                var s1 := r.value.backup;
                match result
                case Ok(_) => s1.pending.None? && s1.lastResult == Some(Receipt(request, now, None))
                case Err(e) =>
                  if request.action == Create then
                    s1.pending.None? && s1.lastResult == Some(Receipt(request, now, Some(e)))
                  else
                    && s1.lastResult == s.lastResult
                    && s1.pending.Some? && s1.pending.value.request == request && s1.pending.value.error == Some(e)
      ensures table == if r.Ok? then Saved(old(table), r.value) else old(table)
      ensures Continued()
    {
      hide Run, Successors, Finished;
      var row := Load(table, id);
      if row.None? { return Err(VmNotFound); }
      r := Conclusion(row.value, request, removed, result, now);
      if r.Ok? {
        PublicationSaves(row.value, request, removed, result, now);
        PublishStep(conf, Now(), id, request, removed, result, now);
        PublishingReservesNoMore(id, request, removed, result, now);
        Save(r.value, Publish(id, request, removed, result, now));
        Recount();
      }
    }

    lemma PublishingReservesNoMore(id: VmId, request: Request, removed: seq<Token>, result: Result<Option<Generation>>,
                                   now: nat)
      requires Valid() && id in running && Load(table, id).Some?
      requires Row(Now(), id).backup.pending.Some? && Fulfils(Row(Now(), id).backup.pending.value, result)
      requires Finished(Row(Now(), id), request, removed, result, now).Ok?
      ensures SumDisk(Saved(table, Finished(Row(Now(), id), request, removed, result, now).value)) <= SumDisk(table)
    {
      RunInv(conf, states, events, |states| - 1);
      PublishStep(conf, Now(), id, request, removed, result, now);
      PublishKeeps(conf, Now(), Publish(id, request, removed, result, now),
                   With(Now(), Finished(Row(Now(), id), request, removed, result, now).value));
    }

    /** The record that publication saves. */
    method Conclusion(row: Vm, request: Request, removed: seq<Token>, result: Result<Option<Generation>>, now: nat)
      returns (r: Result<Vm>)
      ensures r == Finished(row, request, removed, result, now)
      ensures r.Ok? ==> row.backup.pending.Some? && row.backup.pending.value.request == request
      ensures r.Ok? ==> r.value.id == row.id
    {
      if row.backup.pending.None? { return Err(IntentDisappeared); }
      if row.backup.pending.value.request != request { return Err(OperationChanged); }
      var vm := row;
      if result.Err? {
        if request.action == Create {
          vm := vm.(backup := vm.backup.(retired := vm.backup.retired + [vm.backup.pending.value.artifact]));
          vm := vm.(backup := vm.backup.(pending := None));
          vm := vm.(backup := vm.backup.(lastResult := Some(Receipt(request, now, Some(result.error)))));
        } else {
          vm := vm.(backup := vm.backup.(pending := Some(vm.backup.pending.value.(error := Some(result.error)))));
        }
        return Ok(vm);
      }
      var artifact := result.value;
      match request.action {
        case Create =>
          if artifact.None? { return Err(NoArtifact); }
          var replaced := vm.backup.current;
          vm := vm.(backup := vm.backup.(current := artifact));
          if replaced.Some? {
            vm := vm.(backup := vm.backup.(retired := vm.backup.retired + [replaced.value]));
          }
        case Restore =>
          vm := vm.(backup := vm.backup.(retired := Retain(vm.backup.retired, removed)));
          if artifact.Some? {
            vm := vm.(backup := vm.backup.(retired := vm.backup.retired + [artifact.value]));
          }
          if vm.ssh.Some? { vm := vm.(ssh := Some(SshInfo(false, false, true))); }
        case Delete =>
          vm := vm.(backup := vm.backup.(current := None, retired := []));
      }
      vm := vm.(backup := vm.backup.(pending := None));
      if vm.backup.retired == [] {
        vm := vm.(backup := vm.backup.(cleanupError := None, cleanupRetryAt := 0, cleanupFailures := 0));
      }
      vm := vm.(backup := vm.backup.(lastResult := Some(Receipt(request, now, None))));
      r := Ok(vm);
    }

    /** `backup_cleanup_finish`: forget what was removed, and back off after a failure. */
    method BackupCleanupFinish(id: VmId, removed: seq<Token>, failure: Option<Error>, now: nat) returns (r: Result<()>)
      requires Valid() && id in running
      modifies `table, `resource, `states, `events
      ensures Valid()
      ensures Load(old(table), id).None? ==> r == Err(VmNotFound)
      ensures Load(old(table), id).Some? ==>
                var done := CleanedUp(Load(old(table), id).value, removed, failure, now);
                if done.Ok? then
                  r == Ok(()) && Load(table, id) == Some(done.value) && table == Saved(old(table), done.value)
                else r == Err(done.error)
      ensures r.Err? ==> table == old(table)
      ensures Continued()
    {
      var row := Load(table, id);
      if row.None? { return Err(VmNotFound); }
      var vm := row.value;
      if vm.backup.current.Some? && vm.backup.current.value.id in removed { return Err(CurrentInUse); }
      vm := vm.(backup := vm.backup.(retired := Retain(vm.backup.retired, removed)));
      vm := vm.(backup := vm.backup.(cleanupError := failure));
      if failure.Some? {
        vm := vm.(backup := vm.backup.(cleanupFailures := SatAdd(vm.backup.cleanupFailures, 1)));
        vm := vm.(backup := vm.backup.(cleanupRetryAt := Min(now + Backoff(vm.backup.cleanupFailures), U64_MAX)));
      } else {
        vm := vm.(backup := vm.backup.(cleanupFailures := 0, cleanupRetryAt := 0));
      }
      CleanStep(conf, Now(), id, removed, failure, now);
      Save(vm, Clean(id, removed, failure, now));
      Recount();
      r := Ok(());
    }
  }
}
