/**
 The controller's operations: observations of agents, forwarded backup requests, starts, stops,
 resource updates, and rows that come and go. Every write to the rows is one event of the
 ledger, so whatever holds over all sequences of events holds between any two steps.
 */
module Controller {
  import opened Model
  import opened Observation
  import opened Table
  import opened Ledger

  // ---- the controller ----

  datatype EnvState = EnvCreating | EnvActive | EnvStopped | EnvDeleting | EnvFailed

  /** What the operation that holds the lock of an environment has been found to be. */
  datatype Purpose = Undecided | Lifecycle(vms: set<VmId>) | Backups

  /** What came back for a forwarded request: a view, or a failure that may report settlement. */
  datatype Reply = Replied(view: Vm) | Unanswered(error: Error, settled: Option<u64>)

  /** What came back for a resource update; `Rejected` means refused before any change. */
  datatype ResizeReply = Lost | Rejected | Resized(vm: Vm)

  /** One poll of an agent: totals and usage as reported, and its records. */
  datatype Snapshot = Snapshot(reported: Resource, actual: seq<Vm>)

  /** What preparing a request comes to: an answer, or a request that may now be sent. */
  datatype Prepared = Answered(result: Result<Vm>) | Send

  // ---- what one poll of an agent says ----

  ghost predicate NoRepeats(names: seq<VmId>) { forall i, j :: 0 <= i < j < |names| ==> names[i] != names[j] }

  /** The first `k` known rows are replaced, and nothing else. */
  ghost predicate Progress(before: Rows, now: Rows, known: seq<VmId>, seen: seq<Vm>, k: nat) {
    && k <= |known| == |seen|
    && now.Keys == before.Keys
    && (forall i :: 0 <= i < |known| ==>
          known[i] in before && now[known[i]] == if i < k then seen[i] else before[known[i]])
    && forall id :: id in now && id !in known ==> now[id] == before[id]
  }

  lemma AllSeen(before: Rows, now: Rows, known: seq<VmId>, host: HostId, actual: seq<Vm>, owned: Option<EnvId>,
                busy: set<EnvId>)
    requires forall id :: id in known ==> id in before
    requires Progress(before, now, known, SeenRows(before, known, host, actual, owned, busy), |known|)
    ensures now.Keys == before.Keys
    ensures forall id :: id in now ==>
              now[id] == if id in known then Seen(before[id], host, actual, owned, busy) else before[id]
    ensures forall id :: id in now && id in known ==> Polled(before[id], now[id], host, actual, owned, busy)
  {
    forall id | id in now && id in known
      ensures now[id] == Seen(before[id], host, actual, owned, busy)
      ensures Polled(before[id], now[id], host, actual, owned, busy)
    {
      SeenIsPolled(before[id], host, actual, owned, busy);
      var k :| 0 <= k < |known| && known[k] == id;
    }
  }

  lemma NoProgress(before: Rows, known: seq<VmId>, seen: seq<Vm>)
    requires |seen| == |known| && forall id :: id in known ==> id in before
    ensures Progress(before, before, known, seen, 0)
  {
    assert forall i :: 0 <= i < |known| ==> known[i] in known;
  }

  lemma ProgressStep(before: Rows, now: Rows, known: seq<VmId>, seen: seq<Vm>, k: nat)
    requires k < |known| && Progress(before, now, known, seen, k)
    requires NoRepeats(known)
    ensures now[known[k]] == before[known[k]]
    ensures Progress(before, now[known[k] := seen[k]], known, seen, k + 1)
  {
  }

  /** A start reserves a stopped guest; any other stays as it was read. */
  ghost function Reserved(row: Vm): Vm {
    row.(state := match row.state case Stopped => VmState.Creating case other => other)
  }

  /** The rows of the members as a start reserves them. */
  ghost function AllStarting(held: map<VmId, Hold>, members: seq<VmId>): (started: seq<Vm>)
    requires forall id :: id in members ==> id in held && held[id].Changing?
    ensures |started| == |members|
    ensures forall k :: 0 <= k < |members| ==> started[k] == Starting(held[members[k]].row)
  {
    seq(|members|, k requires 0 <= k < |members| => Starting(held[members[k]].row))
  }

  lemma AllStarted(before: Rows, now: Rows, held: map<VmId, Hold>, members: seq<VmId>)
    requires forall id :: id in members ==> id in held && held[id].Changing?
    requires Progress(before, now, members, AllStarting(held, members), |members|)
    ensures forall id :: id in now ==> now[id] == if id in members then Reserved(held[id].row) else before[id]
  {
    forall id | id in now && id in members ensures now[id] == Reserved(held[id].row) {
      var k :| 0 <= k < |members| && members[k] == id;
    }
  }

  /** The agent's record of a known VM, if the snapshot has it. */
  function Found(known: Vm, host: HostId, actual: seq<Vm>): Option<Vm>
    decreases |actual|
  {
    if actual == [] then None
    else if actual[0].id == known.id && actual[0].envId == known.envId && actual[0].hostId == host then Some(actual[0])
    else Found(known, host, actual[1..])
  }

  lemma {:induction false} FoundIsThere(known: Vm, host: HostId, actual: seq<Vm>)
    ensures var found := Found(known, host, actual);
            found.Some? ==>
              && found.value in actual
              && found.value.id == known.id && found.value.envId == known.envId && found.value.hostId == host
    decreases |actual|
  {
    if actual != [] { FoundIsThere(known, host, actual[1..]); }
  }

  /** Rows of environments with an operation in progress are left to that operation. */
  predicate Skipped(known: Vm, owned: Option<EnvId>, busy: set<EnvId>) {
    owned != Some(known.envId) && known.envId in busy
  }

  /** What a snapshot makes of a known row. */
  function Seen(known: Vm, host: HostId, actual: seq<Vm>, owned: Option<EnvId>, busy: set<EnvId>): Vm {
    if Skipped(known, owned, busy) then known
    else if Found(known, host, actual).Some? then Merge(known, Found(known, host, actual).value)
    else Missing(known)
  }

  /** The agent's record `actual[i]` is the first of the known VM in this environment and on this host. */
  ghost predicate FirstOf(known: Vm, host: HostId, actual: seq<Vm>, i: nat) {
    && i < |actual|
    && actual[i].id == known.id && actual[i].envId == known.envId && actual[i].hostId == host
    && forall j :: 0 <= j < i ==> actual[j].id != known.id || actual[j].envId != known.envId || actual[j].hostId != host
  }

  lemma {:induction false} FoundIsFirst(known: Vm, host: HostId, actual: seq<Vm>)
    ensures match Found(known, host, actual)
            case Some(vm) => exists i: nat :: FirstOf(known, host, actual, i) && actual[i] == vm
            case None => forall vm :: vm in actual ==> vm.id != known.id || vm.envId != known.envId || vm.hostId != host
    decreases |actual|
  {
    if actual != [] {
      var rest := actual[1..];
      FoundIsFirst(known, host, rest);
      if actual[0].id == known.id && actual[0].envId == known.envId && actual[0].hostId == host {
        assert FirstOf(known, host, actual, 0);
      } else if Found(known, host, rest).Some? {
        var i: nat :| FirstOf(known, host, rest, i) && rest[i] == Found(known, host, rest).value;
        assert FirstOf(known, host, actual, i + 1);
      }
    }
  }

  /**
   What one poll makes of a known row: nothing while another operation holds its environment, the
   merge with the agent's record of it if there is one, and otherwise a failed row with an error.
   */
  ghost predicate Polled(known: Vm, vm: Vm, host: HostId, actual: seq<Vm>, owned: Option<EnvId>, busy: set<EnvId>) {
    if known.envId in busy && owned != Some(known.envId) then vm == known
    else
      || (exists i: nat :: FirstOf(known, host, actual, i) && vm == Merge(known, actual[i]) && OfAgent(vm, actual[i]))
      || (&& (forall a :: a in actual ==> a.id != known.id || a.envId != known.envId || a.hostId != host)
          && vm == known.(state := VmState.Failed, error := vm.error)
          && vm.error == if known.error.Some? then known.error else Some(AbsentFromSnapshot))
  }

  lemma SeenIsPolled(known: Vm, host: HostId, actual: seq<Vm>, owned: Option<EnvId>, busy: set<EnvId>)
    ensures Polled(known, Seen(known, host, actual, owned, busy), host, actual, owned, busy)
  {
    FoundIsFirst(known, host, actual);
    if Found(known, host, actual).Some? {
      var i: nat :| FirstOf(known, host, actual, i) && actual[i] == Found(known, host, actual).value;
      MergeTakesTheAgentsRow(known, actual[i]);
    }
  }

  /** The known rows of the host after the snapshot, in the order of the query. */
  function SeenRows(rows: Rows, known: seq<VmId>, host: HostId, actual: seq<Vm>, owned: Option<EnvId>,
                    busy: set<EnvId>): (seen: seq<Vm>)
    requires forall id :: id in known ==> id in rows
    ensures |seen| == |known|
    ensures forall k :: 0 <= k < |known| ==> seen[k] == Seen(rows[known[k]], host, actual, owned, busy)
  {
    seq(|known|, k requires 0 <= k < |known| => Seen(rows[known[k]], host, actual, owned, busy))
  }

  /** Records that the agent has and the controller does not know. */
  function Untracked(known: seq<VmId>, actual: seq<Vm>): (rest: seq<Vm>)
    decreases |actual|
  {
    if actual == [] then []
    else
      var last := actual[|actual| - 1];
      Untracked(known, actual[..|actual| - 1]) + (if last.id in known then [] else [last])
  }

  /** Every record of the agent is untracked as often as it occurs, or known. */
  lemma {:induction false} UntrackedExactly(known: seq<VmId>, actual: seq<Vm>, vm: Vm)
    ensures multiset(Untracked(known, actual))[vm] == if vm.id in known then 0 else multiset(actual)[vm]
    decreases |actual|
  {
    if actual != [] {
      var rest, last := actual[..|actual| - 1], actual[|actual| - 1];
      UntrackedExactly(known, rest, vm);
      assert actual == rest + [last];
    }
  }

  lemma AccountNext(reported: Resource, rest: seq<Vm>, rows: seq<Vm>, k: nat)
    requires k < |rows|
    ensures Accounted(reported, rest + rows[..k + 1]) == Accounted(reported, rest + rows[..k]).Account(rows[k])
  {
    var longer := rest + rows[..k + 1];
    assert longer[..|longer| - 1] == rest + rows[..k];
  }

  lemma AccountEnds(reported: Resource, rest: seq<Vm>, rows: seq<Vm>)
    ensures Accounted(reported, rest + rows[..0]) == Accounted(reported, rest)
    ensures Accounted(reported, rest + rows[..|rows|]) == Accounted(reported, rest + rows)
  {
    assert rest + rows[..0] == rest;
    assert rows[..|rows|] == rows;
  }

  function Raise(total: Resource, reported: Resource): Resource {
    total.(cpuUsed := Max(total.cpuUsed, reported.cpuUsed), memUsed := Max(total.memUsed, reported.memUsed),
           diskUsed := Max(total.diskUsed, reported.diskUsed))
  }

  /** Usage of a host: the accounted records, or what the agent reports if that is more. */
  function Reported(reported: Resource, rows: seq<Vm>): Resource { Raise(Accounted(reported, rows), reported) }

  /**
   What a poll charges to the host: the true sums over the accounted records, or what the agent
   reports if that is more; within 32 bits, and under the reported totals.
   */
  lemma ReportedIsEnough(reported: Resource, rows: seq<Vm>)
    ensures var total := Reported(reported, rows);
            && total.cpuUsed == Max(Min(SumCpu(rows), U32_MAX), reported.cpuUsed)
            && total.memUsed == Max(Min(SumMem(rows), U32_MAX), reported.memUsed)
            && total.diskUsed == Max(Min(SumDisk(rows), U32_MAX), reported.diskUsed)
            && total.vmCount == Min(|rows|, U32_MAX)
            && total.cpuTotal == reported.cpuTotal && total.memTotal == reported.memTotal
            && total.diskTotal == reported.diskTotal
  {
    RecountIsCappedSum(reported, rows);
  }

  method AccountUntracked(reported: Resource, known: seq<VmId>, actual: seq<Vm>) returns (total: Resource)
    ensures total == Accounted(reported, Untracked(known, actual))
  {
    total := reported.Emptied();
    for k := 0 to |actual|
      invariant total == Accounted(reported, Untracked(known, actual[..k]))
    {
      assert actual[..k + 1][..k] == actual[..k];
      ghost var before := Untracked(known, actual[..k]);
      if actual[k].id !in known {
        assert (before + [actual[k]])[..|before|] == before;
        total := total.Account(actual[k]);
      } else {
        assert before + [] == before;
      }
    }
    assert actual[..|actual|] == actual;
  }

  /** The host's usage after the reservation of one of its rows went from `before` to `after`. */
  function Recharged(hosts: map<HostId, Agent>, host: HostId, before: u32, after: u32): map<HostId, Agent> {
    if host !in hosts then hosts
    else
      hosts[host := hosts[host].(resource := hosts[host].resource.(
        diskUsed := SatAdd(SatSub(hosts[host].resource.diskUsed, before), after)))]
  }

  /** Exactly this host's disk usage moves by the difference, between zero and the 32-bit maximum. */
  lemma RechargedByTheDifference(hosts: map<HostId, Agent>, host: HostId, before: u32, after: u32)
    ensures var now := Recharged(hosts, host, before, after);
            && now.Keys == hosts.Keys
            && (forall h :: h in hosts && h != host ==> now[h] == hosts[h])
            && (host in hosts ==>
                  && now[host] == hosts[host].(resource := hosts[host].resource.(diskUsed := now[host].resource.diskUsed))
                  && now[host].resource.diskUsed == Min(Max(hosts[host].resource.diskUsed - before, 0) + after, U32_MAX))
  {
  }

  /** The environment is ready, and a fresh request finds room for one more root disk on its host. */
  ghost predicate Accommodates(row: Vm, r: Request, hosts: map<HostId, Agent>, envs: map<EnvId, EnvState>) {
    && row.envId in envs && envs[row.envId] in {EnvActive, EnvStopped, EnvFailed}
    && (row.backup.forwarding.None? && row.backup.pending.None? ==>
          && row.hostId in hosts
          && var need := if r.action == Delete then 0 else RootMib(row);
             && need <= hosts[row.hostId].resource.DiskFree()
             && hosts[row.hostId].resource.diskUsed + need <= U32_MAX)
  }

  /** What is reserved with the stored intent: one more root disk for a fresh creation or restore. */
  ghost function Forwards(row: Vm, r: Request): Vm {
    row.(backup := row.backup.(
      forwarding := Some(r),
      forwardingReservedMib :=
        if row.backup.forwarding.Some? || row.backup.pending.Some? then row.backup.forwardingReservedMib
        else match r.action
             case Delete => 0
             case _ => RootMib(row)))
  }

  /** The view is of the expected VM. */
  predicate SameVm(expected: Vm, view: Vm) {
    view.id == expected.id && view.hostId == expected.hostId && view.envId == expected.envId
  }

  class Controller {
    var vms: Rows
    var hosts: map<HostId, Agent>
    var envs: map<EnvId, EnvState>
    var operations: map<EnvId, Purpose>
    var held: map<VmId, Hold>
    var revision: nat
    ghost var states: seq<Books>
    ghost var events: seq<Event>

    ghost function Now(): Books
      reads this
    {
      Books(vms, held)
    }

    /** What is remembered of a VM belongs to the operation that holds its environment. */
    ghost predicate Owned()
      reads this
    {
      forall id :: id in held ==>
        && held[id].Env() in operations
        && operations[held[id].Env()].Lifecycle?
        && id in operations[held[id].Env()].vms
    }

    /** The trace has only grown: every state passed through is on it. */
    twostate predicate Continued()
      reads this
    {
      old(states) <= states
    }

    ghost predicate Valid()
      reads this
    {
      && Trace(states, events)
      && states[|states| - 1] == Now()
      && Owned()
    }

    constructor ()
      ensures Valid() && vms == map[] && operations == map[] && held == map[]
    {
      vms, hosts, envs, operations, held, revision := map[], map[], map[], map[], map[], 0;
      states, events := [Books(map[], map[])], [];
    }

    ghost method Consistent()
      requires Trace(states, events) && states[|states| - 1] == Now()
      ensures Orderly(Now())
    {
      TraceIsOrderly(states, events, |states| - 1);
    }

    /** A row that an operation remembers lies in the environment that this operation holds. */
    lemma HeldByOwner(id: VmId)
      requires Orderly(Now()) && Owned() && id in held
      ensures id in vms && vms[id].envId == held[id].Env()
      ensures held[id].Env() in operations && operations[held[id].Env()].Lifecycle?
    {
      assert HoldOrderly(Now(), id);
    }

    /** Nothing is remembered of the rows of an environment that no lifecycle operation holds. */
    lemma NotRemembered(env: EnvId)
      requires Orderly(Now()) && Owned() && (env in operations ==> !operations[env].Lifecycle?)
      ensures forall id :: id in vms && vms[id].envId == env ==> id !in held
      ensures forall id :: id in held ==> id in vms
    {
      forall id | id in held ensures id in vms && vms[id].envId != env { HeldByOwner(id); }
    }

    /** Records that the present rows and memories were reached by the event `e`. */
    ghost method Note(e: Event)
      requires Trace(states, events) && Step(states[|states| - 1], e, Now())
      modifies `states, `events
      ensures Trace(states, events) && states[|states| - 1] == Now()
      ensures events == old(events) + [e]
      ensures Continued()
    {
      TraceExtends(states, events, e, Now());
      states := states + [Now()];
      events := events + [e];
    }

    /** One durable write to the rows. */
    method Put(rows: Rows, ghost e: Event)
      requires Valid() && Step(Now(), e, Books(rows, held))
      modifies `vms, `states, `events
      ensures Valid() && vms == rows && events == old(events) + [e]
      ensures Continued()
    {
      vms := rows;
      Note(e);
    }

    /** `begin_operation`: at most one operation per environment, and every one moves the revision. */
    method Begin(env: EnvId) returns (ok: bool)
      requires Valid()
      modifies `operations, `revision
      ensures Valid() && (ok <==> env !in old(operations))
      ensures operations == if ok then old(operations)[env := Undecided] else old(operations)
      ensures revision == if ok then old(revision) + 1 else old(revision)
    {
      if env in operations { return false; }
      operations := operations[env := Undecided];
      revision := revision + 1;
      ok := true;
    }

    /** The operation lets go of the environment, which moves the revision again. */
    method End(env: EnvId)
      requires Valid()
      modifies `operations, `held, `revision, `states, `events
      ensures Valid() && operations == old(operations) - {env} && revision == old(revision) + 1
      ensures held == map id | id in old(held) && old(held)[id].Env() != env :: old(held)[id]
      ensures (env in old(operations) ==> !old(operations)[env].Lifecycle?) ==>
                held == old(held) && states == old(states) && events == old(events)
      ensures Continued()
    {
      ghost var before := held;
      var ids := set id | id in held && held[id].Env() == env;
      held := held - ids;
      operations := operations - {env};
      revision := revision + 1;
      if ids == {} {
        assert held == before;
      } else {
        Note(Release(ids));
      }
    }

    // ---- observations ----

    /** `put_backup_observation`: the row and the host's charge for it change together. */
    method Charge(host: HostId, before: u32, after: u32)
      modifies `hosts
      ensures hosts == Recharged(old(hosts), host, before, after)
    {
      if host in hosts {
        var h := hosts[host];
        hosts := hosts[host := h.(resource := h.resource.(
          diskUsed := SatAdd(SatSub(h.resource.diskUsed, before), after)))];
      }
    }

    /** `retain`: merge an agent's view of one VM, together with the change of its reservation. */
    method Retain(expected: Vm, view: Vm) returns (r: Result<Vm>)
      requires Valid() && Plain(view.backup)
      requires expected.id in vms ==> vms[expected.id].envId == expected.envId
      modifies `vms, `hosts, `revision, `states, `events
      ensures Valid()
      ensures if !SameVm(expected, view) then
                r == Err(OutcomeUnknown) && vms == old(vms) && hosts == old(hosts)
              else if expected.id !in old(vms) then r == Err(VmNotFound) && vms == old(vms) && hosts == old(hosts)
              else
                && r == Ok(Merge(old(vms)[expected.id], view)) && OfAgent(r.value, view)
                && vms == old(vms)[expected.id := r.value]
                && hosts == Recharged(old(hosts), r.value.hostId,
                                      ReservedDisk(old(vms)[expected.id]), ReservedDisk(r.value))
                && events == old(events) + [Observe(expected.id, view)]
                && revision == old(revision) + 1
      ensures Continued()
    {
      if !SameVm(expected, view) { return Err(OutcomeUnknown); }
      if expected.id !in vms { return Err(VmNotFound); }
      var known := vms[expected.id];
      var merged := Merge(known, view);
      MergeTakesTheAgentsRow(known, view);
      Consistent();
      Put(vms[expected.id := merged], Observe(expected.id, view));
      Charge(merged.hostId, ReservedDisk(known), ReservedDisk(merged));
      revision := revision + 1;
      r := Ok(merged);
    }

    // ---- forwarding backup requests ----

    /** The agent of the VM can be asked, and no operation holds the environment. */
    predicate Reachable(vm: Vm, hosts: map<HostId, Agent>, operations: map<EnvId, Purpose>) {
      vm.hostId in hosts && hosts[vm.hostId].online && hosts[vm.hostId].capable && vm.envId !in operations
    }

    /** Neither forwarded nor pending: the request needs its own reservation. */
    predicate IsNew(vm: Vm) { vm.backup.forwarding.None? && vm.backup.pending.None? }

    function Reserve(vm: Vm, r: Request): u32 { if r.action == Delete then 0 else RootMib(vm) }

    /**
     The first half of `mutation`: inspect, decide, and store the intent with its reservation
     before anything is sent. After `Send` the environment stays locked until `Conclude`.
     */
    method Prepare(id: VmId, r: Request, view: Option<View>) returns (p: Prepared)
      requires Valid()
      requires view.Some? ==> Plain(view.value.vm.backup)
      modifies this
      ensures Valid()
      ensures p.Send? ==>
                && id in old(vms) && old(vms)[id].envId !in old(operations)
                && operations == old(operations)[old(vms)[id].envId := Backups]
                && id in vms && vms[id].backup.forwarding == Some(r)
                && view.Some? && old(vms)[id].hostId in old(hosts)
                && Decision(Merge(old(vms)[id], view.value.vm), r, view.value,
                            old(hosts)[old(vms)[id].hostId].offersBackup).None?
      ensures p.Answered? ==> operations == old(operations)
      ensures (p.Answered? && p.result.Ok?) || p.Send? ==>
                && id in old(vms) && Reachable(old(vms)[id], old(hosts), old(operations))
                && view.Some? && SameVm(old(vms)[id], view.value.vm)
      ensures id in old(vms) && Reachable(old(vms)[id], old(hosts), old(operations))
              && view.Some? && SameVm(old(vms)[id], view.value.vm) ==>
                var known := old(vms)[id];
                var row := Merge(known, view.value.vm);
                && (Replays(row, r) ==>
                      p == Answered(match row.backup.lastResult.value.error case Some(e) => Err(e) case None => Ok(row)))
                && (p.Answered? && p.result.Ok? ==> Replays(row, r) && p.result.value == row)
                && (p.Send? <==>
                      && Sendable(row, r, view.value, old(hosts)[known.hostId].offersBackup)
                      && Accommodates(row, r,
                           Recharged(old(hosts), known.hostId, ReservedDisk(known), ReservedDisk(row)), envs))
                && vms == old(vms)[id := if p.Send? then Forwards(row, r) else row]
      ensures id in old(vms) && Reachable(old(vms)[id], old(hosts), old(operations))
              && view.Some? && SameVm(old(vms)[id], view.value.vm) ==>
                var row := Merge(old(vms)[id], view.value.vm);
                var decision := Decision(row, r, view.value, old(hosts)[old(vms)[id].hostId].offersBackup);
                decision.Some? ==> p == Answered(decision.value)
      ensures vms.Keys == old(vms).Keys && forall other :: other in vms && other != id ==> vms[other] == old(vms)[other]
      ensures p.Answered? && id in old(vms) ==>
                vms[id].backup.forwarding == old(vms)[id].backup.forwarding || vms[id].backup.forwarding.None?
      ensures id in old(vms) && old(vms)[id].backup.forwarding.Some? && old(vms)[id].backup.forwarding != Some(r)
              && (view.Some? ==>
                    !Confirms(old(vms)[id].backup, old(vms)[id].backup.forwarding.value, view.value.vm.backup)) ==>
                p.Answered? && vms[id].backup.forwarding == old(vms)[id].backup.forwarding
      ensures Continued()
    {
      hide Decision, Merge, Confirms, Sendable, Replays, Accommodates, Recharged;
      if id !in vms { return Answered(Err(VmNotFound)); }
      Consistent();
      if view.Some? { ViewDecides(vms[id], r, view.value); }
      var vm := vms[id];
      if vm.hostId !in hosts { return Answered(Err(HostOffline)); }
      var host := hosts[vm.hostId];
      if !host.online { return Answered(Err(HostOffline)); }
      if !host.capable { return Answered(Err(Unsupported)); }
      var locked := Begin(vm.envId);
      if !locked { return Answered(Err(OperationInProgress)); }
      p := Answered(Err(OutcomeUnknown));
      if view.Some? { p := Consider(vm, r, view.value, host.offersBackup); }
      if p.Answered? { End(vm.envId); }
    }

    /** Under the lock: retain the inspection, decide on it, and store the intent. */
    method Consider(vm: Vm, r: Request, view: View, offers: bool) returns (p: Prepared)
      requires Valid() && Plain(view.vm.backup)
      requires vm.id in vms && vms[vm.id] == vm && vm.envId in operations && operations[vm.envId] == Undecided
      modifies `vms, `hosts, `operations, `revision, `states, `events
      ensures Valid() && vm.envId in operations
      ensures operations == old(operations)[vm.envId := operations[vm.envId]]
      ensures vm.id in vms
      ensures p.Send? ==>
                && operations[vm.envId] == Backups
                && SameVm(vm, view.vm) && Decision(Merge(vm, view.vm), r, view, offers).None?
      ensures p.Answered? ==>
                vms == if SameVm(vm, view.vm) then old(vms)[vm.id := Merge(vm, view.vm)] else old(vms)
      ensures SameVm(vm, view.vm) ==>
                var row := Merge(vm, view.vm);
                && (Replays(row, r) ==>
                      p == Answered(match row.backup.lastResult.value.error case Some(e) => Err(e) case None => Ok(row)))
                && (p.Answered? && p.result.Ok? ==> Replays(row, r) && p.result.value == row)
                && (p.Send? <==>
                      && Sendable(row, r, view, offers)
                      && Accommodates(row, r,
                           Recharged(old(hosts), vm.hostId, ReservedDisk(vm), ReservedDisk(row)), envs))
                && (p.Send? ==> vms == old(vms)[vm.id := Forwards(row, r)])
      ensures !SameVm(vm, view.vm) ==> p.Answered? && p.result.Err?
      ensures SameVm(vm, view.vm) && Decision(Merge(vm, view.vm), r, view, offers).Some? ==>
                p == Answered(Decision(Merge(vm, view.vm), r, view, offers).value)
      ensures Continued()
    {
      hide Decision, Merge, Trace, Sendable, Replays, Accommodates, Recharged, Forwards;
      var row := Retain(vm, view.vm);
      if row.Err? { return Answered(Err(row.error)); }
      DecidedExactly(row.value, r, view, offers);
      var decision := Decision(row.value, r, view, offers);
      if decision.Some? { return Answered(decision.value); }
      SendsOnlyWhenIdle(vm, r, view, offers);
      MergeTakesTheAgentsRow(vm, view.vm);
      operations := operations[vm.envId := Backups];
      var stored := StoreIntent(vm.id, r);
      p := if stored.Err? then Answered(Err(stored.error)) else Send;
    }

    /** Why the intent is not stored after all. */
    function IntentRefusal(vm: Vm, r: Request): Option<Error>
      reads this
    {
      if vm.envId !in envs then Some(VmNotFound)
      else if envs[vm.envId] == EnvCreating || envs[vm.envId] == EnvDeleting then Some(LifecycleConflict)
      else if !IsNew(vm) then None
      else if vm.hostId !in hosts then Some(HostOffline)
      else if hosts[vm.hostId].resource.DiskFree() < Reserve(vm, r) then Some(NoBudget)
      else if CheckedAdd(hosts[vm.hostId].resource.diskUsed, Reserve(vm, r)).None? then Some(NoBudget)
      else None
    }

    /** The intent and, for a fresh request, its reservation on row and host. */
    method StoreIntent(id: VmId, r: Request) returns (ok: Result<()>)
      requires Valid() && id in vms && vms[id].envId in operations && operations[vms[id].envId] == Backups
      requires vms[id].state == VmState.Stopped && vms[id].pendingResources.None?
      requires vms[id].backup.forwarding.Some? ==> vms[id].backup.forwarding == Some(r)
      modifies `vms, `hosts, `revision, `states, `events
      ensures Valid()
      ensures ok.Err? ==> vms == old(vms) && hosts == old(hosts) && events == old(events)
      ensures ok.Ok? <==> Accommodates(old(vms)[id], r, old(hosts), envs)
      ensures ok.Ok? ==> vms == old(vms)[id := Forwards(old(vms)[id], r)]
      ensures ok == old(if IntentRefusal(vms[id], r).Some? then Err(IntentRefusal(vms[id], r).value) else Ok(()))
      ensures ok.Ok? ==>
                var vm := old(vms)[id];
                var anew := IsNew(vm);
                var reserve := Reserve(vm, r);
                && (!anew ==> hosts == old(hosts))
                && (anew ==>
                      && vm.hostId in old(hosts) && old(hosts)[vm.hostId].resource.DiskFree() >= reserve
                      && old(hosts)[vm.hostId].resource.diskUsed + reserve <= U32_MAX
                      && hosts == old(hosts)[vm.hostId := old(hosts)[vm.hostId].(resource :=
                           old(hosts)[vm.hostId].resource.(diskUsed := old(hosts)[vm.hostId].resource.diskUsed + reserve))])
      ensures Continued()
    {
      var vm := vms[id];
      if vm.envId !in envs { return Err(VmNotFound); }
      if envs[vm.envId] == EnvCreating || envs[vm.envId] == EnvDeleting { return Err(LifecycleConflict); }
      var reserved := vm.backup.forwardingReservedMib;
      if vm.backup.forwarding.None? && vm.backup.pending.None? {
        var reserve := Reserve(vm, r);
        if vm.hostId !in hosts { return Err(HostOffline); }
        var host := hosts[vm.hostId];
        if host.resource.DiskFree() < reserve { return Err(NoBudget); }
        var used := CheckedAdd(host.resource.diskUsed, reserve);
        if used.None? { return Err(NoBudget); }
        reserved := reserve;
        hosts := hosts[vm.hostId := host.(resource := host.resource.(diskUsed := used.value))];
      }
      Consistent();
      Put(vms[id := Forwarded(vm, r, reserved)], Forward(id, r, reserved));
      revision := revision + 1;
      ok := Ok(());
    }

    /**
     The second half of `mutation`. A settled report is remembered but clears nothing; the
     inspection that follows a failure decides, as any other observation does.
     */
    method Conclude(expected: Vm, r: Request, reply: Reply, later: Option<Vm>) returns (result: Result<Vm>)
      requires Valid() && expected.envId in operations && operations[expected.envId] == Backups
      requires expected.id in vms ==> vms[expected.id].envId == expected.envId
      requires reply.Replied? ==> Plain(reply.view.backup)
      requires later.Some? ==> Plain(later.value.backup)
      modifies this
      ensures Valid() && operations == old(operations) - {expected.envId}
      ensures reply.Unanswered? ==> result == Err(reply.error)
      ensures vms.Keys == old(vms).Keys
      ensures reply.Unanswered? && expected.id in old(vms) ==>
                var stored := old(vms)[expected.id];
                var known := if reply.settled.Some? && stored.backup.forwarding == Some(r) then
                               stored.(backup := stored.backup.(forwardingSettledSequence := reply.settled))
                             else stored;
                vms[expected.id] == if later.Some? && SameVm(expected, later.value) then Merge(known, later.value)
                                    else known
      ensures reply.Replied? && SameVm(expected, reply.view) && expected.id in old(vms) ==>
                result == Ok(Merge(old(vms)[expected.id], reply.view)) && vms == old(vms)[expected.id := result.value]
      ensures forall other :: other in vms && other != expected.id ==> vms[other] == old(vms)[other]
      ensures expected.id in old(vms) && old(vms)[expected.id].backup.forwarding == Some(r) && expected.id in vms
              && vms[expected.id].backup.forwarding.None? ==>
                || (reply.Replied? && Confirms(old(vms)[expected.id].backup, r, reply.view.backup))
                || (reply.Unanswered? && later.Some? &&
                      var settled := old(vms)[expected.id].backup.(forwardingSettledSequence :=
                        if reply.settled.Some? then reply.settled
                        else old(vms)[expected.id].backup.forwardingSettledSequence);
                      Confirms(settled, r, later.value.backup))
      ensures Continued()
    {
      if reply.Replied? {
        result := Retain(expected, reply.view);
      } else {
        Reinspect(expected, r, reply.settled, later);
        result := Err(reply.error);
      }
      End(expected.envId);
    }

    /** The row after a settled report, which alone clears nothing. */
    function AfterReport(row: Vm, r: Request, settled: Option<u64>): Vm {
      if settled.Some? && row.backup.forwarding == Some(r) then Ledger.Settled(row, settled.value) else row
    }

    /** After a failure: remember the settled report, and merge what a fresh inspection shows. */
    method Reinspect(expected: Vm, r: Request, settled: Option<u64>, later: Option<Vm>)
      requires Valid() && (later.Some? ==> Plain(later.value.backup))
      requires expected.id in vms ==> vms[expected.id].envId == expected.envId
      modifies `vms, `hosts, `revision, `states, `events
      ensures Valid() && vms.Keys == old(vms).Keys
      ensures expected.id in old(vms) ==>
                var row := AfterReport(old(vms)[expected.id], r, settled);
                vms == old(vms)[expected.id := if later.Some? && SameVm(expected, later.value) then Merge(row, later.value)
                                               else row]
      ensures expected.id !in old(vms) ==> vms == old(vms)
      ensures Continued()
    {
      RecordSettled(expected.id, r, settled);
      if later.Some? { var ignored := Retain(expected, later.value); }
    }

    method RecordSettled(id: VmId, r: Request, settled: Option<u64>)
      requires Valid()
      modifies `vms, `revision, `states, `events
      ensures Valid()
      ensures vms == if id in old(vms) then old(vms)[id := AfterReport(old(vms)[id], r, settled)] else old(vms)
      ensures Continued()
    {
      if settled.Some? && id in vms && vms[id].backup.forwarding == Some(r) {
        Put(vms[id := vms[id].(backup := vms[id].backup.(forwardingSettledSequence := settled))],
            Settle(id, r, settled.value));
        revision := revision + 1;
      }
    }

    // ---- snapshots of whole hosts ----

    /** One row of the loop over the known records. */
    method See(id: VmId, host: HostId, actual: seq<Vm>, owned: Option<EnvId>)
      requires Valid() && id in vms
      requires forall vm :: vm in actual ==> Plain(vm.backup)
      modifies `vms, `states, `events
      ensures Valid() && vms == old(vms)[id := Seen(old(vms)[id], host, actual, owned, operations.Keys)]
      ensures Continued()
    {
      Consistent();
      var known := vms[id];
      if Skipped(known, owned, operations.Keys) { return; }
      var found := Found(known, host, actual);
      FoundIsThere(known, host, actual);
      if found.Some? {
        Put(vms[id := Merge(known, found.value)], Event.Observe(id, found.value));
      } else {
        Put(vms[id := Missing(known)], Absent(id));
      }
    }

    /** The loop over the known records of the host. */
    method SeeAll(host: HostId, known: seq<VmId>, snapshot: Snapshot, owned: Option<EnvId>) returns (total: Resource)
      requires Valid()
      requires NoRepeats(known)
      requires forall id :: id in known ==> id in vms
      requires forall vm :: vm in snapshot.actual ==> Plain(vm.backup)
      modifies `vms, `states, `events
      ensures Valid()
      ensures Progress(old(vms), vms, known,
                       SeenRows(old(vms), known, host, snapshot.actual, owned, operations.Keys), |known|)
      ensures total == Accounted(snapshot.reported, Untracked(known, snapshot.actual)
                                 + SeenRows(old(vms), known, host, snapshot.actual, owned, operations.Keys))
      ensures Continued()
    {
      total := AccountUntracked(snapshot.reported, known, snapshot.actual);
      ghost var rows := SeenRows(vms, known, host, snapshot.actual, owned, operations.Keys);
      total := SeeRows(host, known, snapshot, owned, total, Untracked(known, snapshot.actual), rows);
    }

    method SeeRows(host: HostId, known: seq<VmId>, snapshot: Snapshot, owned: Option<EnvId>, start: Resource,
                   ghost rest: seq<Vm>, ghost rows: seq<Vm>)
      returns (total: Resource)
      requires Valid()
      requires NoRepeats(known)
      requires forall vm :: vm in snapshot.actual ==> Plain(vm.backup)
      requires forall id :: id in known ==> id in vms
      requires rows == SeenRows(vms, known, host, snapshot.actual, owned, operations.Keys)
      requires start == Accounted(snapshot.reported, rest)
      modifies `vms, `states, `events
      ensures Valid() && Progress(old(vms), vms, known, rows, |known|)
      ensures total == Accounted(snapshot.reported, rest + rows)
      ensures Continued()
    {
      hide Progress, NoRepeats, Seen, Trace;
      NoProgress(vms, known, rows);
      total := start;
      ghost var before := vms;
      AccountEnds(snapshot.reported, rest, rows);
      for k := 0 to |known|
        invariant Valid() && Continued() && Progress(before, vms, known, rows, k)
        invariant total == Accounted(snapshot.reported, rest + rows[..k])
      {
        total := SeeNext(host, known, k, snapshot, owned, total, before, rest, rows);
      }
    }

    /** One record is merged or marked, and accounted. */
    method SeeNext(host: HostId, known: seq<VmId>, k: nat, snapshot: Snapshot, owned: Option<EnvId>, total: Resource,
                   ghost before: Rows, ghost rest: seq<Vm>, ghost rows: seq<Vm>)
      returns (next: Resource)
      requires Valid() && k < |known| == |rows|
      requires NoRepeats(known)
      requires forall vm :: vm in snapshot.actual ==> Plain(vm.backup)
      requires forall id :: id in known ==> id in before
      requires rows == SeenRows(before, known, host, snapshot.actual, owned, operations.Keys)
      requires Progress(before, vms, known, rows, k)
      requires total == Accounted(snapshot.reported, rest + rows[..k])
      modifies `vms, `states, `events
      ensures Valid() && Progress(before, vms, known, rows, k + 1)
      ensures next == Accounted(snapshot.reported, rest + rows[..k + 1])
      ensures Continued()
    {
      ProgressStep(before, vms, known, rows, k);
      See(known[k], host, snapshot.actual, owned);
      AccountNext(snapshot.reported, rest, rows, k);
      next := total.Account(vms[known[k]]);
    }

    /**
     `apply_snapshot`: a snapshot older than the last change is dropped. Otherwise every known
     row of an idle environment is merged with the agent's record or marked as missing, and the
     host is charged for all of them, at least what the agent reports.
     */
    method ApplySnapshot(host: HostId, known: seq<VmId>, snapshot: Option<Snapshot>, seen: Option<nat>,
                         owned: Option<EnvId>)
      requires Valid()
      requires NoRepeats(known)
      requires forall id :: id in known <==> id in vms && vms[id].hostId == host
      requires snapshot.Some? ==> forall vm :: vm in snapshot.value.actual ==> Plain(vm.backup)
      modifies this
      ensures Valid() && operations == old(operations) && revision == old(revision)
      ensures (seen.Some? && seen.value != revision) || host !in old(hosts) || snapshot.None? ==>
                vms == old(vms) && events == old(events)
      ensures (seen.None? || seen.value == revision) && host in old(hosts) && snapshot.Some? ==>
                && vms.Keys == old(vms).Keys
                && (forall id :: id in vms ==>
                      vms[id] == if id in known then Seen(old(vms)[id], host, snapshot.value.actual, owned, operations.Keys)
                                 else old(vms)[id])
                && (forall id :: id in vms && id in known ==>
                      Polled(old(vms)[id], vms[id], host, snapshot.value.actual, owned, operations.Keys))
                && host in hosts && hosts[host].online
                && hosts[host].resource == Reported(snapshot.value.reported,
                     Untracked(known, snapshot.value.actual)
                     + SeenRows(old(vms), known, host, snapshot.value.actual, owned, operations.Keys))
      ensures Continued()
    {
      if (seen.Some? && seen.value != revision) || host !in hosts { return; }
      if snapshot.None? {
        hosts := hosts[host := hosts[host].(online := false)];
        return;
      }
      var total := SeeAll(host, known, snapshot.value, owned);
      AllSeen(old(vms), vms, known, host, snapshot.value.actual, owned, operations.Keys);
      hosts := hosts[host := hosts[host].(online := true, resource := Raise(total, snapshot.value.reported))];
    }

    // ---- starts and stops ----

    /** The rows of an environment, as the query lists them. */
    ghost predicate Members(env: EnvId, members: seq<VmId>)
      reads this
    {
      && NoRepeats(members)
      && forall id :: id in members <==> id in vms && vms[id].envId == env
    }

    /** What `change_environment` refuses, in order. */
    function ChangeRefusal(env: EnvId, members: seq<VmId>, start: bool): Option<Error>
      reads this
    {
      if env in operations then Some(OperationInProgress)
      else if env !in envs then Some(VmNotFound)
      else if AnyBusy(vms, members) then Some(LifecycleConflict)
      else if envs[env] == EnvCreating || envs[env] == EnvDeleting then Some(OperationInProgress)
      else if start && AnyTarget(vms, members) then Some(ResizeUnfinished)
      else None
    }

    /** A start or stop begins exactly on an idle, ready environment without unresolved backups or, for a start, targets. */
    lemma ChangeableExactly(env: EnvId, members: seq<VmId>, start: bool)
      requires Members(env, members)
      ensures ChangeRefusal(env, members, start).None? <==>
                && env !in operations && env in envs && envs[env] in {EnvActive, EnvStopped, EnvFailed}
                && forall id :: id in vms && vms[id].envId == env ==>
                     && vms[id].backup.forwarding.None? && vms[id].backup.pending.None?
                     && (start ==> vms[id].pendingResources.None?)
    {
      forall k | 0 <= k < |members| ensures members[k] in vms && vms[members[k]].envId == env {
        assert members[k] in members;
      }
      assert AnyBusy(vms, members) <==> exists id :: id in members && Busy(vms[id].backup);
      assert AnyTarget(vms, members) <==> exists id :: id in members && vms[id].pendingResources.Some?;
    }

    /**
     The checks of `change_environment`: nothing starts or stops while a backup outcome is
     unresolved, and nothing starts while a resource update is. From here on the operation works
     with the rows as it read them.
     */
    method PrepareChange(env: EnvId, members: seq<VmId>, start: bool) returns (r: Result<()>)
      requires Valid() && Members(env, members)
      modifies `operations, `held, `revision, `states, `events
      ensures Valid()
      ensures var refusal := old(ChangeRefusal(env, members, start));
              if refusal.Some? then
                r == Err(refusal.value) && operations == old(operations) && held == old(held) && events == old(events)
              else
                && r == Ok(())
                && operations == old(operations)[env := Lifecycle(set id | id in members)]
                && held == old(held) + Taken(vms, set id | id in members)
      ensures Continued()
    {
      var locked := Begin(env);
      if !locked { return Err(OperationInProgress); }
      var refusal := Unready(env, members, start);
      if refusal.Some? {
        End(env);
        return Err(refusal.value);
      }
      TakeRows(env, members);
      r := Ok(());
    }

    method Unready(env: EnvId, members: seq<VmId>, start: bool) returns (refusal: Option<Error>)
      requires forall id :: id in members ==> id in vms
      ensures refusal == if env !in envs then Some(VmNotFound)
                         else if AnyBusy(vms, members) then Some(LifecycleConflict)
                         else if envs[env] == EnvCreating || envs[env] == EnvDeleting then Some(OperationInProgress)
                         else if start && AnyTarget(vms, members) then Some(ResizeUnfinished)
                         else None
    {
      if env !in envs { return Some(VmNotFound); }
      for k := 0 to |members|
        invariant forall i :: 0 <= i < k ==> !Busy(vms[members[i]].backup)
      {
        assert members[k] in members;
        if Busy(vms[members[k]].backup) { return Some(LifecycleConflict); }
      }
      if envs[env] == EnvCreating || envs[env] == EnvDeleting { return Some(OperationInProgress); }
      if start {
        for k := 0 to |members|
          invariant forall i :: 0 <= i < k ==> vms[members[i]].pendingResources.None?
        {
          assert members[k] in members;
          if vms[members[k]].pendingResources.Some? { return Some(ResizeUnfinished); }
        }
      }
      refusal := None;
    }

    /** The operation remembers the rows as they are now. */
    method TakeRows(env: EnvId, members: seq<VmId>)
      requires Valid() && Members(env, members) && env in operations && operations[env] == Undecided
      requires !AnyBusy(vms, members)
      modifies `operations, `held, `states, `events
      ensures Valid()
      ensures operations == old(operations)[env := Lifecycle(set id | id in members)]
      ensures held == old(held) + Taken(vms, set id | id in members)
      ensures Continued()
    {
      Consistent();
      NotRemembered(env);
      NoneBusy(vms, members);
      var ids := set id | id in members;
      TakeIsAStep(Now(), ids);
      operations := operations[env := Lifecycle(ids)];
      held := held + Taken(vms, ids);
      forall id | id in held
        ensures held[id].Env() in operations && operations[held[id].Env()].Lifecycle?
        ensures id in operations[held[id].Env()].vms
      {
        if id !in ids { assert id in old(held) && held[id] == old(held)[id]; }
      }
      Note(Take(ids));
    }

    /** A start reserves every stopped guest before any agent is asked. */
    method ReserveStarts(members: seq<VmId>)
      requires Valid()
      requires NoRepeats(members)
      requires forall id :: id in members ==>
                 id in held && held[id].Changing? && held[id].row.pendingResources.None?
      modifies `vms, `revision, `states, `events
      ensures Valid() && vms.Keys == old(vms).Keys && revision == old(revision) + 1
      ensures forall id :: id in vms ==>
                vms[id] == if id in members then Reserved(held[id].row) else old(vms)[id]
      ensures Continued()
    {
      hide Reserved, Trace, Starting;
      Consistent();
      ghost var started := AllStarting(held, members);
      forall k | 0 <= k < |members| ensures members[k] in vms {
        assert members[k] in members;
        assert HoldOrderly(Now(), members[k]);
      }
      for k := 0 to |members|
        invariant Valid() && Continued() && Progress(old(vms), vms, members, started, k)
        invariant revision == old(revision)
      {
        ReserveNext(members, k, old(vms), started);
      }
      AllStarted(old(vms), vms, held, members);
      revision := revision + 1;
    }

    method ReserveNext(members: seq<VmId>, k: nat, ghost before: Rows, ghost started: seq<Vm>)
      requires Valid() && k < |members| == |started|
      requires NoRepeats(members)
      requires forall id :: id in members ==>
                 id in held && held[id].Changing? && held[id].row.pendingResources.None?
      requires started == AllStarting(held, members) && Progress(before, vms, members, started, k)
      modifies `vms, `states, `events
      ensures Valid() && Progress(before, vms, members, started, k + 1)
      ensures Continued()
    {
      hide Trace;
      ProgressStep(before, vms, members, started, k);
      var id := members[k];
      assert id in members;
      Put(vms[id := Starting(held[id].row)], Event.Reserve(id));
    }

    /** An agent confirmed the change of one VM: the row read at the start is saved with it. */
    method ConfirmChange(id: VmId, start: bool)
      requires Valid() && id in held && held[id].Changing?
      modifies `vms, `states, `events
      ensures Valid() && id in old(vms)
      ensures vms == old(vms)[id := held[id].row.(state := if start then VmState.Running else VmState.Stopped,
                                                  error := None)]
      ensures Continued()
    {
      Consistent();
      assert HoldOrderly(Now(), id);
      var confirmed := held[id].row.(state := if start then VmState.Running else VmState.Stopped, error := None);
      Put(vms[id := confirmed], Change(id, start));
    }

    // ---- resource updates ----

    /** What `resize_virtual_machine` refuses before it refreshes the hosts. */
    function OpeningRefusal(id: VmId, t: Resources): Option<Error>
      reads this
    {
      if t.cpu == 0 || t.mem == 0 || t.disk == 0 then Some(InvalidRequest)
      else if id !in vms then Some(VmNotFound)
      else if vms[id].envId in operations then Some(OperationInProgress)
      else if vms[id].envId !in envs then Some(VmNotFound)
      else if envs[vms[id].envId] == EnvCreating || envs[vms[id].envId] == EnvDeleting then Some(OperationInProgress)
      else None
    }

    /** An update begins exactly with a positive target, for a known VM of an idle, ready environment. */
    lemma OpensExactly(id: VmId, t: Resources)
      ensures OpeningRefusal(id, t).None? <==>
                && t.cpu > 0 && t.mem > 0 && t.disk > 0
                && id in vms && vms[id].envId !in operations
                && vms[id].envId in envs && envs[vms[id].envId] in {EnvActive, EnvStopped, EnvFailed}
    {
    }

    /** The environment of the VM is locked; a refresh of the hosts follows. */
    method BeginResize(id: VmId, t: Resources) returns (r: Result<EnvId>)
      requires Valid()
      modifies `operations, `held, `revision, `states, `events
      ensures Valid() && held == old(held) && events == old(events)
      ensures var refusal := old(OpeningRefusal(id, t));
              if refusal.Some? then r == Err(refusal.value) && operations == old(operations)
              else r == Ok(vms[id].envId) && operations == old(operations)[vms[id].envId := Undecided]
      ensures Continued()
    {
      if t.cpu == 0 || t.mem == 0 || t.disk == 0 { return Err(InvalidRequest); }
      if id !in vms { return Err(VmNotFound); }
      var env := vms[id].envId;
      var locked := Begin(env);
      if !locked { return Err(OperationInProgress); }
      if env !in envs {
        End(env);
        return Err(VmNotFound);
      }
      if envs[env] == EnvCreating || envs[env] == EnvDeleting {
        End(env);
        return Err(OperationInProgress);
      }
      r := Ok(env);
    }

    /** What it refuses after the refresh, on the row and the host as they are now. */
    function TargetRefusal(id: VmId, t: Resources, engineDesigned: bool): Option<Error>
      reads this
    {
      if id !in vms || vms[id].hostId !in hosts then Some(VmNotFound)
      else ResizeRefusal(vms[id], t, hosts[vms[id].hostId], engineDesigned)
    }

    /** The target is stored before the agent is asked; the row from before is remembered. */
    method RecordTarget(env: EnvId, id: VmId, t: Resources, engineDesigned: bool) returns (r: Result<Vm>)
      requires Valid() && env in operations && operations[env] == Undecided
      requires id in vms ==> vms[id].envId == env
      modifies `vms, `operations, `held, `revision, `states, `events
      ensures Valid()
      ensures var refusal := old(TargetRefusal(id, t, engineDesigned));
              if refusal.Some? then
                && r == Err(refusal.value) && operations == old(operations) - {env}
                && vms == old(vms) && held == old(held) && events == old(events)
              else
                && r == Ok(old(vms)[id])
                && operations == old(operations)[env := Lifecycle({id})]
                && vms == old(vms)[id := old(vms)[id].(pendingResources := Some(t), error := Some(ResizeRecorded))]
                && held == old(held)[id := Resizing(old(vms)[id], t)]
                && events == old(events) + [Intend(id, t)]
      ensures Continued()
    {
      var refusal := TargetRefusal(id, t, engineDesigned);
      if refusal.Some? {
        End(env);
        return Err(refusal.value);
      }
      r := Ok(vms[id]);
      StoreTarget(env, id, t);
    }

    method StoreTarget(env: EnvId, id: VmId, t: Resources)
      requires Valid() && env in operations && operations[env] == Undecided
      requires id in vms && vms[id].envId == env && !Busy(vms[id].backup)
      requires vms[id].pendingResources.None? || vms[id].pendingResources == Some(t)
      modifies `vms, `operations, `held, `revision, `states, `events
      ensures Valid()
      ensures operations == old(operations)[env := Lifecycle({id})]
      ensures vms == old(vms)[id := old(vms)[id].(pendingResources := Some(t), error := Some(ResizeRecorded))]
      ensures held == old(held)[id := Resizing(old(vms)[id], t)]
      ensures events == old(events) + [Intend(id, t)]
      ensures Continued()
    {
      Consistent();
      NotRemembered(env);
      var vm := vms[id];
      operations := operations[env := Lifecycle({id})];
      held := held[id := Resizing(vm, t)];
      vms := vms[id := vm.(pendingResources := Some(t), error := Some(ResizeRecorded))];
      Note(Intend(id, t));
      revision := revision + 1;
    }

    /**
     The agent's answer. A target may be withdrawn only if it was new and the agent refused it
     before changing anything; it is replaced only by a reply that shows exactly the update.
     */
    method ConcludeResize(id: VmId, reply: ResizeReply) returns (r: Result<Vm>)
      requires Valid() && id in held && held[id].Resizing?
      requires reply.Resized? ==> Plain(reply.vm.backup)
      modifies `vms, `operations, `held, `revision, `states, `events
      ensures Valid() && operations == old(operations) - {old(held)[id].Env()} && id !in held
      ensures r.Ok? <==>
                && reply.Resized?
                && var vm, t := old(held)[id].row, old(held)[id].target;
                   && reply.vm.id == vm.id && reply.vm.envId == vm.envId && reply.vm.hostId == vm.hostId
                   && reply.vm.state == VmState.Stopped && reply.vm.pendingResources.None?
                   && reply.vm.cpu == t.cpu && reply.vm.mem == t.mem && reply.vm.options.requestedDisk == t.disk
                   && reply.vm.disk == t.disk + ConfigDiskMib(vm.options, vm.engine)
      ensures r.Ok? ==> r.value == reply.vm && vms == old(vms)[id := reply.vm]
      ensures r.Err? ==>
                vms == if reply == Rejected && old(held)[id].row.pendingResources.None? then
                         old(vms)[id := old(held)[id].row]
                       else old(vms)
      ensures Continued()
    {
      var env := held[id].Env();
      r := Answer(id, reply);
      End(env);
    }

    method Answer(id: VmId, reply: ResizeReply) returns (r: Result<Vm>)
      requires Valid() && id in held && held[id].Resizing?
      requires reply.Resized? ==> Plain(reply.vm.backup)
      modifies `vms, `states, `events
      ensures Valid()
      ensures r.Ok? <==> reply.Resized? && Confirmation(held[id].row, held[id].target, reply.vm)
      ensures r.Ok? ==> r.value == reply.vm && vms == old(vms)[id := reply.vm]
      ensures r.Err? ==>
                vms == if reply == Rejected && held[id].row.pendingResources.None? then old(vms)[id := held[id].row]
                       else old(vms)
      ensures Continued()
    {
      Consistent();
      assert HoldOrderly(Now(), id);
      match reply {
        case Lost => r := Err(OutcomeUnknown);
        case Rejected =>
          if held[id].row.pendingResources.None? { Put(vms[id := held[id].row], Withdraw(id)); }
          r := Err(LifecycleConflict);
        case Resized(confirmed) =>
          if Confirmation(held[id].row, held[id].target, confirmed) {
            Put(vms[id := confirmed], Confirm(id, confirmed));
            r := Ok(confirmed);
          } else {
            r := Err(OutcomeUnknown);
          }
      }
    }

    // ---- rows come and go ----

    /** The agent confirmed deletion, or the host was detached while no operation held its VMs. */
    method RemoveRow(id: VmId)
      requires Valid() && id !in held
      modifies `vms, `states, `events
      ensures Valid() && vms == old(vms) - {id}
      ensures Continued()
    {
      Put(vms - {id}, Event.Remove(id));
    }

    /** A planned VM is stored under a new name; the creation holds it until the agents have answered. */
    method InsertPlanned(vm: Vm)
      requires Valid() && vm.id !in vms && Plain(vm.backup) && vm.pendingResources.None?
      requires vm.envId in operations && !operations[vm.envId].Backups?
      modifies `vms, `operations, `held, `states, `events
      ensures Valid() && vms == old(vms)[vm.id := vm] && held == old(held)[vm.id := Building(vm.envId)]
      ensures Continued()
    {
      Consistent();
      forall id | id in held ensures id in vms { HeldByOwner(id); }
      var others := if operations[vm.envId].Lifecycle? then operations[vm.envId].vms else {};
      operations := operations[vm.envId := Lifecycle(others + {vm.id})];
      held := held[vm.id := Building(vm.envId)];
      vms := vms[vm.id := vm];
      Note(Insert(vm));
    }

    /** The agent's record replaces the planned one, or the failure is noted. */
    method ConfirmCreation(id: VmId, reply: Option<Vm>)
      requires Valid() && id in held && held[id].Building?
      requires reply.Some? ==> reply.value.id == id && reply.value.envId == held[id].env && Plain(reply.value.backup)
      modifies `vms, `states, `events
      ensures Valid() && id in old(vms)
      ensures vms == old(vms)[id := if reply.Some? then reply.value else old(vms)[id].(error := Some(OtherFault))]
      ensures Continued()
    {
      Consistent();
      assert HoldOrderly(Now(), id);
      if reply.Some? {
        Put(vms[id := reply.value], Built(reply.value));
      } else {
        Put(vms[id := vms[id].(error := Some(OtherFault))], Trouble(id));
      }
    }
  }
}
