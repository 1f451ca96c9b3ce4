/**
 What may happen to the controller's rows, and what holds over every sequence of such events.
 Operations on one environment exclude each other; in between their steps, snapshots of agents,
 inspections and operations on other environments may change rows. An operation may write back
 rows that it read when it began, so these are part of the state.
 */
module Ledger {
  import opened Model
  import opened BackupRecord
  import opened Observation

  type Rows = map<VmId, Vm>

  /** What the operation that holds the lock of a VM's environment remembers of the VM. */
  datatype Hold =
    | Building(env: EnvId)
    | Changing(row: Vm)
    | Resizing(row: Vm, target: Resources)
  {
    function Env(): EnvId { if Building? then env else row.envId }
  }

  /** The stored rows, and what running operations remember. */
  datatype Books = Books(rows: Rows, held: map<VmId, Hold>)

  // ---- what may happen to a row ----

  datatype Event =
    | Observe(id: VmId, actual: Vm)
    | Absent(id: VmId)
    | Forward(id: VmId, request: Request, reserved: u32)
    | Settle(id: VmId, request: Request, sequence: u64)
    | Take(ids: set<VmId>)
    | Reserve(id: VmId)
    | Change(id: VmId, started: bool)
    | Release(ids: set<VmId>)
    | Intend(id: VmId, target: Resources)
    | Confirm(id: VmId, row: Vm)
    | Withdraw(id: VmId)
    | Insert(row: Vm)
    | Built(row: Vm)
    | Trouble(id: VmId)
    | Remove(id: VmId)

  /** Agents never store forwarded intent. */
  predicate Plain(s: BackupState) {
    s.forwarding.None? && s.forwardingReservedMib == 0 && s.forwardingSettledSequence.None?
  }

  function Missing(vm: Vm): Vm {
    vm.(state := Failed, error := if vm.error.Some? then vm.error else Some(AbsentFromSnapshot))
  }

  function Forwarded(vm: Vm, r: Request, reserved: u32): Vm {
    vm.(backup := vm.backup.(forwarding := Some(r), forwardingReservedMib := reserved))
  }

  function Settled(vm: Vm, sequence: u64): Vm {
    vm.(backup := vm.backup.(forwardingSettledSequence := Some(sequence)))
  }

  /** A stopped guest is reserved before its agent is asked to start it. */
  function Starting(vm: Vm): Vm {
    if vm.state == VmState.Stopped then vm.(state := VmState.Creating) else vm
  }

  /** The row after its agent confirmed a start or stop. */
  function Changed(vm: Vm, started: bool): Vm {
    vm.(state := if started then VmState.Running else VmState.Stopped, error := None)
  }

  function Targeted(vm: Vm, t: Resources): Vm { vm.(pendingResources := Some(t), error := Some(ResizeRecorded)) }

  /** The agent's answer is believed only if it shows exactly the requested update of this VM. */
  predicate Confirmation(vm: Vm, t: Resources, confirmed: Vm) {
    && confirmed.id == vm.id && confirmed.envId == vm.envId && confirmed.hostId == vm.hostId
    && confirmed.state == VmState.Stopped && confirmed.pendingResources.None?
    && confirmed.cpu == t.cpu && confirmed.mem == t.mem && confirmed.options.requestedDisk == t.disk
    && confirmed.disk == t.disk + ConfigDiskMib(vm.options, vm.engine)
  }

  predicate ByNews(e: Event) { e.Observe? || e.Absent? || e.Forward? || e.Settle? }

  /** Views and snapshots of agents are merged; backup requests leave intent before they are sent. */
  ghost predicate NewsStep(b: Books, e: Event, b1: Books)
    requires ByNews(e)
  {
    && e.id in b.rows
    && var row := b.rows[e.id];
       match e
       case Observe(id, actual) =>
         && Plain(actual.backup) && actual.id == id && actual.envId == row.envId
         && b1 == b.(rows := b.rows[id := Merge(row, actual)])
       case Absent(id) => b1 == b.(rows := b.rows[id := Missing(row)])
       case Forward(id, r, reserved) =>
         && id !in b.held
         && (if row.backup.forwarding.None? && row.backup.pending.None? then
               Plain(row.backup) && row.state == VmState.Stopped && row.pendingResources.None?
             else
               && (row.backup.forwarding.Some? ==> row.backup.forwarding == Some(r))
               && reserved == row.backup.forwardingReservedMib)
         && b1 == b.(rows := b.rows[id := Forwarded(row, r, reserved)])
       case Settle(id, r, sequence) =>
         && row.backup.forwarding == Some(r)
         && b1 == b.(rows := b.rows[id := Settled(row, sequence)])
  }

  /** The rows as a start or stop remembers them. */
  function Taken(rows: Rows, ids: set<VmId>): map<VmId, Hold>
    requires ids <= rows.Keys
  {
    map id | id in ids :: Changing(rows[id])
  }

  predicate ByChange(e: Event) { e.Take? || e.Reserve? || e.Change? || e.Release? }

  /** A start or stop reads the rows of its environment and later writes these back, changed. */
  ghost predicate ChangeStep(b: Books, e: Event, b1: Books)
    requires ByChange(e)
  {
    match e
    case Take(ids) =>
      && ids <= b.rows.Keys && ids !! b.held.Keys
      && (forall id :: id in ids ==> !Busy(b.rows[id].backup))
      && b1 == b.(held := b.held + Taken(b.rows, ids))
    case Reserve(id) =>
      && id in b.rows && id in b.held && b.held[id].Changing? && b.held[id].row.pendingResources.None?
      && b1 == b.(rows := b.rows[id := Starting(b.held[id].row)])
    case Change(id, started) =>
      && id in b.rows && id in b.held && b.held[id].Changing?
      && b1 == b.(rows := b.rows[id := Changed(b.held[id].row, started)])
    case Release(ids) => b1 == b.(held := b.held - ids)
  }

  lemma TakeIsAStep(b: Books, ids: set<VmId>)
    requires ids <= b.rows.Keys && ids !! b.held.Keys && forall id :: id in ids ==> !Busy(b.rows[id].backup)
    ensures Step(b, Take(ids), b.(held := b.held + Taken(b.rows, ids)))
  {
  }

  predicate ByResize(e: Event) { e.Intend? || e.Confirm? || e.Withdraw? }

  /** A resource update: the target is stored, then confirmed or withdrawn, or simply left. */
  ghost predicate ResizeStep(b: Books, e: Event, b1: Books)
    requires ByResize(e)
  {
    match e
    case Intend(id, t) =>
      && id in b.rows && id !in b.held && !Busy(b.rows[id].backup)
      && (b.rows[id].pendingResources.None? || b.rows[id].pendingResources == Some(t))
      && b1 == Books(b.rows[id := Targeted(b.rows[id], t)], b.held[id := Resizing(b.rows[id], t)])
    case Confirm(id, row) =>
      && id in b.rows && id in b.held && b.held[id].Resizing?
      && Confirmation(b.held[id].row, b.held[id].target, row) && Plain(row.backup)
      && b1 == b.(rows := b.rows[id := row])
    case Withdraw(id) =>
      && id in b.rows && id in b.held && b.held[id].Resizing? && b.held[id].row.pendingResources.None?
      && b1 == b.(rows := b.rows[id := b.held[id].row])
  }

  predicate ByTurnover(e: Event) { e.Insert? || e.Built? || e.Trouble? || e.Remove? }

  /** Rows come with a plan, are filled in by the agents, and go. */
  ghost predicate TurnoverStep(b: Books, e: Event, b1: Books)
    requires ByTurnover(e)
  {
    match e
    case Insert(row) =>
      && row.id !in b.rows && row.id !in b.held && Plain(row.backup) && row.pendingResources.None?
      && b1 == Books(b.rows[row.id := row], b.held[row.id := Building(row.envId)])
    case Built(row) =>
      && row.id in b.rows && row.id in b.held && b.held[row.id] == Building(row.envId) && Plain(row.backup)
      && b1 == b.(rows := b.rows[row.id := row])
    case Trouble(id) =>
      && id in b.rows && id in b.held && b.held[id].Building?
      && b1 == b.(rows := b.rows[id := b.rows[id].(error := Some(OtherFault))])
    case Remove(id) => id !in b.held && b1 == b.(rows := b.rows - {id})
  }

  ghost predicate Step(b: Books, e: Event, b1: Books) {
    if ByNews(e) then NewsStep(b, e, b1)
    else if ByChange(e) then ChangeStep(b, e, b1)
    else if ByResize(e) then ResizeStep(b, e, b1)
    else TurnoverStep(b, e, b1)
  }

  ghost predicate Linked(ts: seq<Books>, es: seq<Event>, k: int)
    requires 0 <= k < |es| < |ts|
  {
    Step(ts[k], es[k], ts[k + 1])
  }

  ghost predicate Trace(ts: seq<Books>, es: seq<Event>) {
    && |ts| == |es| + 1
    && ts[0] == Books(map[], map[])
    && forall k {:trigger Linked(ts, es, k)} :: 0 <= k < |es| ==> Linked(ts, es, k)
  }

  lemma TraceExtends(ts: seq<Books>, es: seq<Event>, e: Event, b: Books)
    requires Trace(ts, es) && Step(ts[|ts| - 1], e, b)
    ensures Trace(ts + [b], es + [e])
  {
    forall k | 0 <= k < |es + [e]| ensures Linked(ts + [b], es + [e], k) {
      if k < |es| { assert Linked(ts, es, k); }
    }
  }

  // ---- the invariant of all traces ----

  ghost predicate RowsOrderly(rows: Rows) {
    forall id :: id in rows ==>
      && rows[id].id == id
      && (rows[id].backup.forwarding.None? ==> Plain(rows[id].backup))
  }

  /** What an operation remembers is a row without intent, and no intent is stored meanwhile. */
  ghost predicate HoldOrderly(b: Books, id: VmId)
    requires id in b.held
  {
    && id in b.rows && b.rows[id].backup.forwarding.None? && b.rows[id].envId == b.held[id].Env()
    && (!b.held[id].Building? ==> b.held[id].row.id == id && Plain(b.held[id].row.backup))
  }

  ghost predicate Orderly(b: Books) {
    && RowsOrderly(b.rows)
    && forall id :: id in b.held ==> HoldOrderly(b, id)
  }

  lemma NewsKeepsOrder(b: Books, e: Event, b1: Books)
    requires Orderly(b) && ByNews(e) && NewsStep(b, e, b1)
    ensures Orderly(b1)
  {
  }

  lemma ChangeKeepsOrder(b: Books, e: Event, b1: Books)
    requires Orderly(b) && ByChange(e) && ChangeStep(b, e, b1)
    ensures Orderly(b1)
  {
  }

  lemma ResizeKeepsOrder(b: Books, e: Event, b1: Books)
    requires Orderly(b) && ByResize(e) && ResizeStep(b, e, b1)
    ensures Orderly(b1)
  {
  }

  lemma TurnoverKeepsOrder(b: Books, e: Event, b1: Books)
    requires Orderly(b) && ByTurnover(e) && TurnoverStep(b, e, b1)
    ensures Orderly(b1)
  {
  }

  lemma {:induction false} TraceIsOrderly(ts: seq<Books>, es: seq<Event>, i: nat)
    requires Trace(ts, es) && i < |ts|
    ensures Orderly(ts[i])
  {
    if i > 0 {
      TraceIsOrderly(ts, es, i - 1);
      assert Linked(ts, es, i - 1);
      StepKeepsOrder(ts[i - 1], es[i - 1], ts[i]);
    }
  }

  lemma StepKeepsOrder(b: Books, e: Event, b1: Books)
    requires Orderly(b) && Step(b, e, b1)
    ensures Orderly(b1)
  {
    if ByNews(e) {
      NewsKeepsOrder(b, e, b1);
    } else if ByChange(e) {
      ChangeKeepsOrder(b, e, b1);
    } else if ByResize(e) {
      ResizeKeepsOrder(b, e, b1);
    } else {
      TurnoverKeepsOrder(b, e, b1);
    }
  }

  // ---- forwarded intent over whole traces ----

  /** The controller's row of a host. */
  datatype Agent = Agent(
    storage: Storage,
    online: bool,
    capable: bool,
    offersBackup: bool,
    offersResize: bool,
    resource: Resource)

  /** An agent's answer to a backup inspection or request. */
  datatype View = View(vm: Vm, enabled: bool, supported: bool)

  /** The two legitimate ends of forwarded intent: a confirming observation, or the row goes away. */
  ghost predicate Ends(b: Books, e: Event, id: VmId, r: Request) {
    || (e.Observe? && e.id == id && id in b.rows && Confirms(b.rows[id].backup, r, e.actual.backup))
    || e == Remove(id)
  }

  ghost predicate Holds(b: Books, id: VmId, r: Request, reserved: u32) {
    && id in b.rows
    && b.rows[id].backup.forwarding == Some(r)
    && b.rows[id].backup.forwardingReservedMib == reserved
  }

  lemma StepKeepsIntent(b: Books, e: Event, b1: Books, id: VmId, r: Request, reserved: u32)
    requires Orderly(b) && Step(b, e, b1)
    requires Holds(b, id, r, reserved) && !Ends(b, e, id, r)
    ensures Holds(b1, id, r, reserved)
  {
    assert id !in b.held;
    if ByNews(e) {
      assert NewsStep(b, e, b1);
    } else if ByChange(e) {
      assert ChangeStep(b, e, b1);
    } else if ByResize(e) {
      assert ResizeStep(b, e, b1);
    }
  }

  /**
   Forwarded intent is never lost: until a confirming observation or the removal of the row it
   stays stored, keeps the VM busy, and keeps its reservation counted.
   */
  lemma {:induction false} ForwardedIntentIsNeverLost(ts: seq<Books>, es: seq<Event>, id: VmId, r: Request,
                                                       reserved: u32, i: nat, j: nat)
    requires Trace(ts, es) && i <= j < |ts|
    requires Holds(ts[i], id, r, reserved)
    requires forall k :: i <= k < j ==> !Ends(ts[k], es[k], id, r)
    ensures Holds(ts[j], id, r, reserved)
    ensures Busy(ts[j].rows[id].backup) && ReservedMib(ts[j].rows[id].backup) >= reserved
    decreases j
  {
    if i < j {
      ForwardedIntentIsNeverLost(ts, es, id, r, reserved, i, j - 1);
      TraceIsOrderly(ts, es, j - 1);
      assert Linked(ts, es, j - 1);
      assert !Ends(ts[j - 1], es[j - 1], id, r);
      StepKeepsIntent(ts[j - 1], es[j - 1], ts[j], id, r, reserved);
    }
    ReservationIsCappedSum(ts[j].rows[id]);
  }

  /** The answer to a backup request, if the retained row alone decides it. */
  function Decision(row: Vm, r: Request, view: View, capable: bool): Option<Result<Vm>> {
    var replay := Check(row.backup, r);
    if replay.Err? then Some(Err(replay.error))
    else if replay.value then
      var receipt := row.backup.lastResult.value;
      Some(if receipt.error.Some? then Err(receipt.error.value) else Ok(row))
    else if row.backup.forwarding.Some? && row.backup.forwarding != Some(r) then Some(Err(OperationUnfinished))
    else if row.state != VmState.Stopped || row.pendingResources.Some? then Some(Err(NotStopped))
    else if r.action == Create && row.backup.forwarding.None? && row.backup.pending.None? then
      if !view.enabled then Some(Err(AdmissionDisabled))
      else if !capable || !view.supported then Some(Err(Unsupported))
      else None
    else None
  }

  /** The last result of the row is the outcome of exactly this request. */
  ghost predicate Replays(row: Vm, r: Request) {
    && (r.action == Restore <==> r.generation.Some?)
    && exists last :: row.backup.lastResult == Some(last) && last.request == r
  }

  /** What the retained row must show for the request to be sent. */
  ghost predicate Sendable(row: Vm, r: Request, view: View, offers: bool) {
    && (r.action == Restore <==> r.generation.Some?)
    && (row.backup.lastResult.Some? ==> row.backup.lastResult.value.request.operationId != r.operationId)
    && (match row.backup.pending
        case Some(p) => p.request == r
        case None => r.expectedRevision == row.backup.revision)
    && (row.backup.forwarding.Some? ==> row.backup.forwarding == Some(r))
    && row.state == VmState.Stopped && row.pendingResources.None?
    && (r.action == Create && row.backup.forwarding.None? && row.backup.pending.None? ==>
          view.enabled && view.supported && offers)
  }

  /** A request is sent exactly if it is sendable; a success is answered exactly for a replay without error. */
  lemma DecidedExactly(row: Vm, r: Request, view: View, offers: bool)
    ensures Decision(row, r, view, offers).None? <==> Sendable(row, r, view, offers)
    ensures Replays(row, r) ==>
              Decision(row, r, view, offers) ==
                Some(match row.backup.lastResult.value.error case Some(e) => Err(e) case None => Ok(row))
    ensures forall vm ::
              Decision(row, r, view, offers) == Some(Ok(vm)) ==>
                vm == row && Replays(row, r) && row.backup.lastResult.value.error.None?
  {
    if Decision(row, r, view, offers).Some? && Decision(row, r, view, offers).value.Ok? {
      assert row.backup.lastResult == Some(row.backup.lastResult.value) && row.backup.lastResult.value.request == r;
    }
  }

  /** A request is sent only for a row that is stopped and free of targets and of other intent. */
  lemma SendsOnlyWhenIdle(known: Vm, r: Request, view: View, capable: bool)
    requires Decision(Merge(known, view.vm), r, view, capable).None?
    ensures var row := Merge(known, view.vm);
            && row.id == view.vm.id && row.envId == view.vm.envId
            && row.state == VmState.Stopped && row.pendingResources.None?
            && (row.backup.forwarding.Some? ==> row.backup.forwarding == Some(r))
  {
  }

  /** A view that does not confirm the outstanding request leaves it, and decides against any other. */
  lemma OutstandingIntentDecides(known: Vm, q: Request, view: View, r: Request)
    requires known.backup.forwarding == Some(r) && Plain(view.vm.backup)
    ensures !Confirms(known.backup, r, view.vm.backup) ==>
              && Merge(known, view.vm).backup.forwarding == Some(r)
              && (q != r ==> forall capable: bool :: Decision(Merge(known, view.vm), q, view, capable).Some?)
    ensures Confirms(known.backup, r, view.vm.backup) ==> Merge(known, view.vm).backup.forwarding.None?
  {
  }

  lemma ViewDecides(known: Vm, q: Request, view: View)
    requires Plain(view.vm.backup)
    ensures var kept := Merge(known, view.vm).backup.forwarding;
            match known.backup.forwarding
            case None => kept.None?
            case Some(r) =>
              && (Confirms(known.backup, r, view.vm.backup) ==> kept.None?)
              && (!Confirms(known.backup, r, view.vm.backup) ==>
                    && kept == Some(r)
                    && (q != r ==> forall capable: bool :: Decision(Merge(known, view.vm), q, view, capable).Some?))
  {
    if known.backup.forwarding.Some? { OutstandingIntentDecides(known, q, view, known.backup.forwarding.value); }
  }

  /** What the controller refuses before it records the target of a resource update. */
  function ResizeRefusal(vm: Vm, t: Resources, host: Agent, engineDesigned: bool): Option<Error> {
    var overhead := ConfigDiskMib(vm.options, vm.engine);
    if !host.online then Some(HostOffline)
    else if !engineDesigned || (vm.pendingResources.None? && !host.offersResize) then Some(Unsupported)
    else if Busy(vm.backup) || (HasArtifacts(vm.backup) && t.disk != RootMib(vm)) then Some(ArtifactsPresent)
    else if vm.state != VmState.Stopped || (vm.pendingResources.Some? && vm.pendingResources != Some(t)) then
      Some(ResizeUnfinished)
    else if t.disk + overhead > U32_MAX then Some(InvalidCapacity)
    else if t.disk < vm.options.requestedDisk || t.disk + overhead < vm.disk then Some(ShrinkRefused)
    else if !host.resource.CanFit(t.cpu, MemoryReservation(vm.engine, t.mem),
                                  SatSub(t.disk + overhead, ReservedDisk(vm))) then
      Some(NoCapacity)
    else None
  }

  /**
   A target is recorded exactly for a stopped VM of an online host that offers updates (a retry of
   the recorded target needs no offer), without backups that are pending, forwarded or of another
   size, if it neither overflows nor shrinks the disk and the host has room for what it adds.
   */
  lemma TargetableExactly(vm: Vm, t: Resources, host: Agent, engineDesigned: bool)
    ensures var overhead := ConfigDiskMib(vm.options, vm.engine);
            ResizeRefusal(vm, t, host, engineDesigned).None? <==>
              && host.online && engineDesigned
              && (match vm.pendingResources case None => host.offersResize case Some(u) => u == t)
              && vm.backup.forwarding.None? && vm.backup.pending.None?
              && (vm.backup.current.Some? || vm.backup.retired != [] ==> t.disk == RootMib(vm))
              && vm.state == VmState.Stopped
              && vm.options.requestedDisk <= t.disk && vm.disk <= t.disk + overhead <= U32_MAX
              && t.cpu <= host.resource.CpuFree()
              && Min(t.mem + (match vm.engine case Firecracker => 128 case _ => 0), U32_MAX) <= host.resource.MemFree()
              && t.disk + overhead <= ReservedDisk(vm) + host.resource.DiskFree()
  {
  }

  predicate AnyBusy(rows: Rows, members: seq<VmId>) {
    exists k :: 0 <= k < |members| && members[k] in rows && Busy(rows[members[k]].backup)
  }

  lemma NoneBusy(rows: Rows, members: seq<VmId>)
    requires !AnyBusy(rows, members)
    ensures forall id :: id in members && id in rows ==> !Busy(rows[id].backup)
  {
  }

  predicate AnyTarget(rows: Rows, members: seq<VmId>) {
    exists k :: 0 <= k < |members| && members[k] in rows && rows[members[k]].pendingResources.Some?
  }

  /**
   The row with intent `r` outstanding answers every other operation with a refusal: another
   backup request is never sent unless the inspection before it confirms `r`, no resource update
   is recorded, and no start or stop of its environment begins.
   */
  ghost predicate RefusesOthers(rows: Rows, id: VmId, r: Request)
    requires id in rows
  {
    && (forall q: Request, view: View, capable: bool ::
          q != r && Plain(view.vm.backup) && !Confirms(rows[id].backup, r, view.vm.backup) ==>
            Decision(Merge(rows[id], view.vm), q, view, capable).Some?)
    && (forall t: Resources, host: Agent, engineDesigned: bool ::
          ResizeRefusal(rows[id], t, host, engineDesigned).Some?)
    && (forall members: seq<VmId> :: id in members ==> AnyBusy(rows, members))
  }

  /** Events by which another operation would get hold of the row or rewrite it. */
  predicate Disturbs(e: Event, id: VmId, r: Request) {
    match e
    case Forward(other, q, _) => other == id && q != r
    case Take(ids) => id in ids
    case Reserve(other) => other == id
    case Change(other, _) => other == id
    case Intend(other, _) => other == id
    case Confirm(other, _) => other == id
    case Withdraw(other) => other == id
    case Insert(row) => row.id == id
    case Built(row) => row.id == id
    case Trouble(other) => other == id
    case _ => false
  }

  lemma IntentRefusesOthers(rows: Rows, id: VmId, r: Request)
    requires id in rows && rows[id].backup.forwarding == Some(r)
    ensures RefusesOthers(rows, id, r)
  {
    assert Busy(rows[id].backup);
    forall q: Request, view: View, capable: bool |
      q != r && Plain(view.vm.backup) && !Confirms(rows[id].backup, r, view.vm.backup)
      ensures Decision(Merge(rows[id], view.vm), q, view, capable).Some?
    {
      OutstandingIntentDecides(rows[id], q, view, r);
    }
  }

  lemma IntentIsUndisturbed(b: Books, e: Event, b1: Books, id: VmId, r: Request)
    requires Orderly(b) && Step(b, e, b1) && id in b.rows && b.rows[id].backup.forwarding == Some(r)
    ensures !Disturbs(e, id, r)
  {
    assert id !in b.held;
  }

  /**
   From the moment intent is stored until it ends, no other operation touches the row: no other
   request is forwarded, no start, stop or resource update reads or rewrites it, and every such
   operation that is tried meanwhile is refused.
   */
  lemma OutstandingIntentExcludes(ts: seq<Books>, es: seq<Event>, id: VmId, r: Request, reserved: u32, i: nat, j: nat)
    requires Trace(ts, es) && i <= j < |ts|
    requires Holds(ts[i], id, r, reserved)
    requires forall k :: i <= k < j ==> !Ends(ts[k], es[k], id, r)
    ensures forall k: nat :: i <= k < j ==> !Disturbs(es[k], id, r)
    ensures forall k: nat :: i <= k <= j ==> id in ts[k].rows && id !in ts[k].held && RefusesOthers(ts[k].rows, id, r)
  {
    forall k: nat | i <= k <= j
      ensures id in ts[k].rows && id !in ts[k].held && RefusesOthers(ts[k].rows, id, r)
    {
      ForwardedIntentIsNeverLost(ts, es, id, r, reserved, i, k);
      TraceIsOrderly(ts, es, k);
      IntentRefusesOthers(ts[k].rows, id, r);
    }
    forall k: nat | i <= k < j ensures !Disturbs(es[k], id, r) {
      ForwardedIntentIsNeverLost(ts, es, id, r, reserved, i, k);
      TraceIsOrderly(ts, es, k);
      assert Linked(ts, es, k);
      IntentIsUndisturbed(ts[k], es[k], ts[k + 1], id, r);
    }
  }

  // ---- targets of resource updates over whole traces ----

  /**
   The legitimate ends of a recorded target: an observation or the agent's reply shows exactly
   that the update is complete, an observation shows that the agent works on another target, the
   agent refused a new target before changing anything, or the row goes away.
   */
  ghost predicate Resolves(b: Books, e: Event, id: VmId, t: Resources) {
    || (&& e.Observe? && e.id == id && id in b.rows
        && (|| Shows(Merge(b.rows[id], e.actual), t)
            || (e.actual.pendingResources.Some? && e.actual.pendingResources != Some(t))))
    || (e.Confirm? && e.id == id)
    || e == Withdraw(id)
    || e == Remove(id)
  }

  /** The row shows the target, and so does every copy that may still be written back. */
  ghost predicate Recorded(b: Books, id: VmId, t: Resources) {
    && id in b.rows && b.rows[id].pendingResources == Some(t)
    && (id in b.held ==>
          match b.held[id]
          case Building(_) => false
          case Changing(row) => row.pendingResources == Some(t)
          case Resizing(_, target) => target == t)
  }

  lemma NewsKeepsTarget(b: Books, e: Event, b1: Books, id: VmId, t: Resources)
    requires ByNews(e) && NewsStep(b, e, b1) && Recorded(b, id, t) && !Resolves(b, e, id, t)
    ensures Recorded(b1, id, t)
  {
    if e.Observe? && e.id == id { ResizeIntentSurvives(b.rows[id], e.actual, t); }
  }

  lemma StepKeepsTarget(b: Books, e: Event, b1: Books, id: VmId, t: Resources)
    requires Step(b, e, b1) && Recorded(b, id, t) && !Resolves(b, e, id, t)
    ensures Recorded(b1, id, t)
  {
    if ByNews(e) {
      NewsKeepsTarget(b, e, b1, id, t);
    } else if ByChange(e) {
      assert ChangeStep(b, e, b1);
    } else if ByResize(e) {
      assert ResizeStep(b, e, b1);
    } else {
      assert TurnoverStep(b, e, b1);
    }
  }

  /** Storing a target records it, and so does anything else that shows one on an idle row. */
  lemma TargetsAreRecorded(b: Books, e: Event, b1: Books, id: VmId, t: Resources)
    requires Step(b, e, b1)
    requires e == Intend(id, t) || (id in b1.rows && id !in b1.held && b1.rows[id].pendingResources == Some(t))
    ensures Recorded(b1, id, t)
  {
    if e.Intend? { assert ResizeStep(b, e, b1); }
  }

  /**
   A recorded target is never lost: whatever happens from then on, the row shows it until it is
   resolved, and no start or stop that begins meanwhile can write it away.
   */
  lemma {:induction false} RecordedTargetIsNeverLost(ts: seq<Books>, es: seq<Event>, id: VmId, t: Resources,
                                                     i: nat, j: nat)
    requires Trace(ts, es) && i <= j < |ts| && Recorded(ts[i], id, t)
    requires forall k :: i <= k < j ==> !Resolves(ts[k], es[k], id, t)
    ensures Recorded(ts[j], id, t)
    decreases j
  {
    if i < j {
      RecordedTargetIsNeverLost(ts, es, id, t, i, j - 1);
      assert Linked(ts, es, j - 1);
      assert !Resolves(ts[j - 1], es[j - 1], id, t);
      StepKeepsTarget(ts[j - 1], es[j - 1], ts[j], id, t);
    }
  }

  /** A confirmed reply resolves only the target of its own operation, and shows exactly that. */
  lemma ConfirmationShowsTheTarget(b: Books, e: Event, b1: Books, id: VmId, t: Resources)
    requires Step(b, e, b1) && Recorded(b, id, t) && e.Confirm? && e.id == id
    ensures b1.rows[id] == e.row && e.row.pendingResources.None? && e.row.state == VmState.Stopped
    ensures id in b.held && b.held[id].Resizing?
            && e.row.id == b.held[id].row.id && e.row.envId == b.held[id].row.envId
            && e.row.hostId == b.held[id].row.hostId
    ensures e.row.cpu == t.cpu && e.row.mem == t.mem && e.row.options.requestedDisk == t.disk
    ensures id in b.held && b.held[id].Resizing?
            && e.row.disk == t.disk + ConfigDiskMib(b.held[id].row.options, b.held[id].row.engine)
  {
    assert ResizeStep(b, e, b1);
  }

  /** The step at which the running resource update on `id` recorded its target. */
  ghost predicate RecordedAt(ts: seq<Books>, es: seq<Event>, id: VmId, h: Hold, i: nat)
    requires |ts| == |es| + 1
  {
    && i < |es| && h.Resizing? && es[i] == Intend(id, h.target)
    && id in ts[i].rows && ts[i].rows[id] == h.row
  }

  lemma {:induction false} HoldOrigin(ts: seq<Books>, es: seq<Event>, id: VmId, k: nat)
    requires Trace(ts, es) && k < |ts| && id in ts[k].held && ts[k].held[id].Resizing?
    ensures exists i: nat :: i < k && RecordedAt(ts, es, id, ts[k].held[id], i)
    decreases k
  {
    assert Linked(ts, es, k - 1);
    if id in ts[k - 1].held && ts[k - 1].held[id] == ts[k].held[id] {
      HoldOrigin(ts, es, id, k - 1);
      var i: nat :| i < k - 1 && RecordedAt(ts, es, id, ts[k - 1].held[id], i);
      assert RecordedAt(ts, es, id, ts[k].held[id], i);
    } else {
      OnlyIntendTakes(ts[k - 1], es[k - 1], ts[k], id);
      assert RecordedAt(ts, es, id, ts[k].held[id], k - 1);
    }
  }

  lemma OnlyIntendTakes(b: Books, e: Event, b1: Books, id: VmId)
    requires Step(b, e, b1) && id in b1.held && b1.held[id].Resizing?
    requires !(id in b.held && b.held[id] == b1.held[id])
    ensures e == Intend(id, b1.held[id].target) && id in b.rows && b.rows[id] == b1.held[id].row
  {
    match e
    case Intend(_, _) => assert ResizeStep(b, e, b1);
    case _ =>
  }

  /**
   A withdrawal undoes only the intent of its own operation, and only a new one: it restores the
   row from before the target was recorded, which showed no target. A retry cannot cancel an
   earlier update whose outcome is unknown.
   */
  lemma WithdrawalUndoesItsOwnIntent(ts: seq<Books>, es: seq<Event>, k: nat, id: VmId)
    requires Trace(ts, es) && k < |es| && es[k] == Withdraw(id)
    ensures exists i: nat, t: Resources ::
              && i < k && es[i] == Intend(id, t)
              && id in ts[i].rows && ts[i].rows[id].pendingResources.None?
              && id in ts[k + 1].rows && ts[k + 1].rows[id] == ts[i].rows[id]
  {
    assert Linked(ts, es, k);
    HoldOrigin(ts, es, id, k);
    var i: nat :| i < k && RecordedAt(ts, es, id, ts[k].held[id], i);
    assert es[i] == Intend(id, ts[k].held[id].target);
  }

  /**
   A confirmed start or stop keeps the target exactly if the row showed it when the operation
   began. A target that an inspection brought in after that is written away.
   */
  lemma ChangeKeepsTargetsItRead(b: Books, e: Event, b1: Books, id: VmId)
    requires Step(b, e, b1) && e.Change? && e.id == id
    ensures id in b.rows && id in b.held && b.held[id].Changing?
    ensures b1.rows[id].pendingResources == b.rows[id].pendingResources
            <==> b.held[id].row.pendingResources == b.rows[id].pendingResources
  {
    assert ChangeStep(b, e, b1);
  }

  /** The history of a target that is learned from an agent while its VM is being stopped. */
  ghost function LearnedBooks(vm: Vm, actual: Vm): seq<Books> {
    var id := vm.id;
    var planned := Books(map[id := vm], map[id := Building(vm.envId)]);
    var idle := Books(map[id := vm], map[]);
    var taken := Books(map[id := vm], map[id := Changing(vm)]);
    var learned := Books(map[id := Merge(vm, actual)], map[id := Changing(vm)]);
    [Books(map[], map[]), planned, idle, taken, learned, Books(map[id := Changed(vm, false)], map[id := Changing(vm)])]
  }

  ghost function LearnedEvents(vm: Vm, actual: Vm): seq<Event> {
    [Insert(vm), Release({vm.id}), Take({vm.id}), Observe(vm.id, actual), Change(vm.id, false)]
  }

  /**
   The exemption is needed: a target that the controller first learns of from an agent, while a
   stop of the VM is under way, is gone when the stop is confirmed, although nothing showed it
   to be complete.
   */
  lemma LearnedTargetIsDropped(vm: Vm, actual: Vm, t: Resources)
    requires !Busy(vm.backup) && Plain(vm.backup) && vm.pendingResources.None?
    requires Plain(actual.backup) && actual.id == vm.id && actual.envId == vm.envId && actual.pendingResources == Some(t)
    ensures var ts := LearnedBooks(vm, actual);
            && Trace(ts, LearnedEvents(vm, actual))
            && vm.id in ts[4].rows && ts[4].rows[vm.id].pendingResources == Some(t)
            && !Resolves(ts[4], LearnedEvents(vm, actual)[4], vm.id, t)
            && vm.id in ts[5].rows && ts[5].rows[vm.id].pendingResources.None?
  {
    var ts := LearnedBooks(vm, actual);
    var es := LearnedEvents(vm, actual);
    LearnedSteps(vm, actual);
    forall k | 0 <= k < |es| ensures Linked(ts, es, k) {
      if k == 0 {} else if k == 1 {} else if k == 2 {} else if k == 3 {} else {}
    }
  }

  lemma LearnedSteps(vm: Vm, actual: Vm)
    requires !Busy(vm.backup) && Plain(vm.backup) && vm.pendingResources.None?
    requires Plain(actual.backup) && actual.id == vm.id && actual.envId == vm.envId
    ensures var ts := LearnedBooks(vm, actual);
            && TurnoverStep(ts[0], Insert(vm), ts[1])
            && ChangeStep(ts[1], Release({vm.id}), ts[2])
            && ChangeStep(ts[2], Take({vm.id}), ts[3])
            && NewsStep(ts[3], Observe(vm.id, actual), ts[4])
            && ChangeStep(ts[4], Change(vm.id, false), ts[5])
  {
  }
}
