/**
 How the controller folds agent snapshots into its own row of a VM. Snapshots may be stale,
 repeated or out of order; the order of the protocol is recovered from sequence numbers and
 receipts, and neither forwarded backup intent nor a recorded resize target is lost.
 */
module Observation {
  import opened Model
  import opened BackupRun
  import opened BackupGuarantees

  // ---- one merge ----

  /** The stored backup state is newer than the observed one. */
  predicate Newer(k: BackupState, a: BackupState) {
    || k.sequence > a.sequence
    || (&& k.sequence == a.sequence
        && k.lastResult.Some? && a.pending.Some?
        && a.pending.value.request == k.lastResult.value.request)
  }

  /** The observation accounts for the forwarded request: no older outcome is outstanding. */
  predicate Confirms(k: BackupState, r: Request, a: BackupState) {
    || (a.pending.Some? && a.pending.value.request == r)
    || (a.lastResult.Some? && a.lastResult.value.request == r)
    || (k.forwardingSettledSequence.Some? && a.sequence >= k.forwardingSettledSequence.value)
  }

  function Unforwarded(s: BackupState): BackupState {
    s.(forwarding := None, forwardingReservedMib := 0, forwardingSettledSequence := None)
  }

  function MergedBackup(k: BackupState, a: BackupState): BackupState {
    var taken := if Newer(k, a) then k else a;
    if k.forwarding.None? then taken
    else if Confirms(k, k.forwarding.value, a) then Unforwarded(taken)
    else taken.(forwarding := k.forwarding,
                forwardingReservedMib := k.forwardingReservedMib,
                forwardingSettledSequence := k.forwardingSettledSequence)
  }

  /** The row shows exactly the target of a resource update. */
  predicate Shows(vm: Vm, t: Resources) {
    && vm.cpu == t.cpu && vm.mem == t.mem
    && CheckedAdd(t.disk, ConfigDiskMib(vm.options, vm.engine)) == Some(vm.disk)
    && vm.options.requestedDisk == t.disk
  }

  /** `merge_vm_snapshot`. */
  function Merge(known: Vm, actual: Vm): Vm {
    var vm := actual.(
      backup := MergedBackup(known.backup, actual.backup),
      ssh := if Newer(known.backup, actual.backup) then known.ssh else actual.ssh);
    if known.pendingResources.None? || vm.pendingResources.Some?
       || Shows(vm, known.pendingResources.value) then vm
    else vm.(pendingResources := known.pendingResources,
             error := if vm.error.Some? then vm.error else Some(OutcomeUnknownFault))
  }

  /** The row has everything but backups, readiness, target and error from the agent. */
  ghost predicate OfAgent(vm: Vm, actual: Vm) {
    && vm.id == actual.id && vm.envId == actual.envId && vm.hostId == actual.hostId
    && vm.image == actual.image && vm.engine == actual.engine
    && vm.cpu == actual.cpu && vm.mem == actual.mem && vm.disk == actual.disk
    && vm.ip == actual.ip && vm.portMap == actual.portMap && vm.options == actual.options
    && vm.state == actual.state
  }

  /**
   A recorded target outlives the observation: the agent shows no target of its own, and not
   exactly the recorded CPU, memory, root capacity and disk.
   */
  ghost predicate TargetOutlives(known: Vm, actual: Vm) {
    && known.pendingResources.Some? && actual.pendingResources.None?
    && var t := known.pendingResources.value;
       var files := actual.options.guestConfigDigest.Some? || actual.options.ssh.Some?;
       var overhead := if actual.engine == Firecracker && files then 4 else 0;
       || actual.cpu != t.cpu || actual.mem != t.mem
       || actual.options.requestedDisk != t.disk || actual.disk != t.disk + overhead
  }

  /**
   What a merge takes from where. Identity, size, addresses and lifecycle state are the agent's.
   Readiness comes with the backup state that is kept. A recorded target is kept exactly while it
   outlives the observation, and then an agent's row without an error shows an unknown outcome.
   */
  lemma MergeTakesTheAgentsRow(known: Vm, actual: Vm)
    ensures var vm := Merge(known, actual);
            var k, a := known.backup, actual.backup;
            && OfAgent(vm, actual)
            && (k.sequence > a.sequence ==> vm.ssh == known.ssh)
            && (k.sequence < a.sequence ==> vm.ssh == actual.ssh)
            && (k.sequence == a.sequence ==>
                  vm.ssh == if a.pending.Some? && k.lastResult.Some?
                               && k.lastResult.value.request == a.pending.value.request
                            then known.ssh else actual.ssh)
            && (TargetOutlives(known, actual) ==>
                  && vm.pendingResources == known.pendingResources
                  && vm.error == if actual.error.None? then Some(OutcomeUnknownFault) else actual.error)
            && (!TargetOutlives(known, actual) ==>
                  vm.pendingResources == actual.pendingResources && vm.error == actual.error)
  {
  }

  /** The state agrees in everything that the agent keeps; forwarded intent is the controller's own. */
  ghost predicate SameHistory(s: BackupState, t: BackupState) {
    && s.revision == t.revision && s.sequence == t.sequence
    && s.current == t.current && s.pending == t.pending && s.retired == t.retired && s.lastResult == t.lastResult
    && s.cleanupError == t.cleanupError && s.cleanupRetryAt == t.cleanupRetryAt && s.cleanupFailures == t.cleanupFailures
  }

  /** The observation shows the request as pending or answered, or has reached the settled sequence. */
  ghost predicate Acknowledged(k: BackupState, r: Request, a: BackupState) {
    || (exists p :: a.pending == Some(p) && p.request == r)
    || (exists last :: a.lastResult == Some(last) && last.request == r)
    || (exists n :: k.forwardingSettledSequence == Some(n) && n <= a.sequence)
  }

  /**
   Which backup state a merge keeps: the stored one if it knows of more admissions, or of as many
   and of the answer to the one that the agent shows as pending; otherwise the agent's. No merge
   invents forwarded intent.
   */
  lemma MergeKeepsTheNewerBackups(known: Vm, actual: Vm)
    ensures var k, a, s := known.backup, actual.backup, Merge(known, actual).backup;
            && (k.sequence > a.sequence ==> SameHistory(s, k))
            && (k.sequence < a.sequence ==> SameHistory(s, a))
            && (k.sequence == a.sequence ==>
                  SameHistory(s, if a.pending.Some? && k.lastResult.Some?
                                    && k.lastResult.value.request == a.pending.value.request then k else a))
            && (k.forwarding.None? && a.forwarding.None? ==> s.forwarding.None?)
  {
  }

  /** A recorded resize target survives until the row shows exactly that target. */
  lemma ResizeIntentSurvives(known: Vm, actual: Vm, t: Resources)
    requires known.pendingResources == Some(t)
    ensures Merge(known, actual).pendingResources.Some? || Shows(Merge(known, actual), t)
    ensures actual.pendingResources.None? || actual.pendingResources == Some(t) ==>
              var vm := Merge(known, actual);
              && (vm.pendingResources == Some(t) || Shows(vm, t))
              && ReservedDisk(vm) >= Min(t.disk + ConfigDiskMib(vm.options, vm.engine), U32_MAX)
    ensures Merge(known, actual).pendingResources == Some(t) && actual.pendingResources.None? ==>
              Merge(known, actual).error.Some?
  {
  }

  /** Forwarded intent is dropped exactly by a confirming observation; until then it reserves. */
  lemma ForwardingClearedExactlyByConfirmation(known: Vm, actual: Vm, r: Request)
    requires known.backup.forwarding == Some(r) && actual.backup.forwarding.None?
    ensures var s := Merge(known, actual).backup;
            && (s.forwarding.None? <==> Acknowledged(known.backup, r, actual.backup))
            && (s.forwarding.Some? ==>
                  && s.forwarding == Some(r) && Busy(s)
                  && s.forwardingReservedMib == known.backup.forwardingReservedMib
                  && s.forwardingSettledSequence == known.backup.forwardingSettledSequence
                  && ReservedMib(s) >= known.backup.forwardingReservedMib)
            && (s.forwarding.None? ==> s.forwardingReservedMib == 0 && s.forwardingSettledSequence.None?)
  {
  }

  // ---- many merges ----

  /** Position in the protocol: admissions so far, and whether the last of them is settled. */
  function Rank(s: BackupState): nat {
    2 * s.sequence + (if s.pending.Some? then 0 else 1)
  }

  /** The state tells of the admissions in `log`, in their order. */
  ghost predicate Genuine(log: seq<Request>, s: BackupState) {
    && s.sequence <= |log|
    && (s.pending.Some? ==>
          && s.sequence > 0
          && s.pending.value.request == log[s.sequence - 1]
          && (s.lastResult.Some? ==> s.sequence > 1 && s.lastResult.value.request == log[s.sequence - 2]))
    && (s.pending.None? ==>
          if s.sequence == 0 then s.lastResult.None?
          else s.lastResult.Some? && s.lastResult.value.request == log[s.sequence - 1])
  }

  ghost predicate Distinct(log: seq<Request>) {
    forall i, j :: 0 <= i < j < |log| ==> log[i] != log[j]
  }

  /** Between two genuine states the newer one is kept; this needs at-most-once admission. */
  lemma NewerIsHigher(log: seq<Request>, k: BackupState, a: BackupState)
    requires Distinct(log) && Genuine(log, k) && Genuine(log, a)
    ensures Newer(k, a) <==> Rank(k) > Rank(a)
    ensures Genuine(log, MergedBackup(k, a))
    ensures Rank(MergedBackup(k, a)) == Max(Rank(k), Rank(a))
    ensures Unforwarded(MergedBackup(k, a)) == Unforwarded(if Rank(k) > Rank(a) then k else a)
  {
  }

  function Fold(known: Vm, snapshots: seq<Vm>): Vm
    decreases |snapshots|
  {
    if snapshots == [] then known
    else Merge(Fold(known, snapshots[..|snapshots| - 1]), snapshots[|snapshots| - 1])
  }

  function MaxRank(known: Vm, snapshots: seq<Vm>): nat
    decreases |snapshots|
  {
    if snapshots == [] then Rank(known.backup)
    else Max(MaxRank(known, snapshots[..|snapshots| - 1]), Rank(snapshots[|snapshots| - 1].backup))
  }

  ghost predicate AllGenuine(log: seq<Request>, vms: seq<Vm>) {
    forall i :: 0 <= i < |vms| ==> Genuine(log, vms[i].backup)
  }

  /** The maximum is a property of the set of observations, not of their order. */
  lemma {:induction false} MaxRankIsTheMaximum(known: Vm, snapshots: seq<Vm>)
    ensures forall vm :: vm == known || vm in snapshots ==> Rank(vm.backup) <= MaxRank(known, snapshots)
    ensures exists vm :: (vm == known || vm in snapshots) && Rank(vm.backup) == MaxRank(known, snapshots)
    decreases |snapshots|
  {
    if snapshots == [] {
      assert Rank(known.backup) == MaxRank(known, snapshots);
    } else {
      var rest := snapshots[..|snapshots| - 1];
      var last := snapshots[|snapshots| - 1];
      assert snapshots == rest + [last];
      MaxRankIsTheMaximum(known, rest);
      var vm :| (vm == known || vm in rest) && Rank(vm.backup) == MaxRank(known, rest);
      var top := if Rank(last.backup) > Rank(vm.backup) then last else vm;
      assert (top == known || top in snapshots) && Rank(top.backup) == MaxRank(known, snapshots);
    }
  }

  /** Folding leaves the backup state of an observation of maximal rank, up to forwarding. */
  lemma {:induction false} FoldKeepsTheMaximum(log: seq<Request>, known: Vm, snapshots: seq<Vm>)
    requires Distinct(log) && Genuine(log, known.backup) && AllGenuine(log, snapshots)
    ensures Genuine(log, Fold(known, snapshots).backup)
    ensures Rank(Fold(known, snapshots).backup) == MaxRank(known, snapshots)
    ensures exists vm :: (vm == known || vm in snapshots)
                         && Unforwarded(Fold(known, snapshots).backup) == Unforwarded(vm.backup)
    decreases |snapshots|
  {
    if snapshots != [] {
      var rest := snapshots[..|snapshots| - 1];
      var last := snapshots[|snapshots| - 1];
      assert snapshots == rest + [last];
      FoldKeepsTheMaximum(log, known, rest);
      NewerIsHigher(log, Fold(known, rest).backup, last.backup);
      var vm :| (vm == known || vm in rest) && Unforwarded(Fold(known, rest).backup) == Unforwarded(vm.backup);
      var kept := if Rank(Fold(known, rest).backup) > Rank(last.backup) then vm else last;
      assert Unforwarded(Fold(known, snapshots).backup) == Unforwarded(kept.backup);
    } else {
      assert Unforwarded(Fold(known, snapshots).backup) == Unforwarded(known.backup);
    }
  }

  lemma MaxRankIgnoresOrder(known: Vm, xs: seq<Vm>, ys: seq<Vm>)
    requires forall vm :: vm in xs ==> vm in ys
    ensures MaxRank(known, xs) <= MaxRank(known, ys)
  {
    MaxRankIsTheMaximum(known, xs);
    MaxRankIsTheMaximum(known, ys);
    var vm :| (vm == known || vm in xs) && Rank(vm.backup) == MaxRank(known, xs);
    assert vm == known || vm in ys;
  }

  /** The same admissions, of which the last is pending in both or answered in both. */
  ghost predicate SamePosition(a: BackupState, b: BackupState) {
    && a.sequence == b.sequence
    && a.pending.Some? == b.pending.Some?
    && (a.pending.Some? ==> a.pending.value.request == b.pending.value.request)
    && (a.pending.None? && a.lastResult.Some? ==>
          b.lastResult.Some? && b.lastResult.value.request == a.lastResult.value.request)
  }

  lemma RankIsPosition(log: seq<Request>, a: BackupState, b: BackupState)
    requires Genuine(log, a) && Genuine(log, b)
    ensures Rank(a) == Rank(b) <==> SamePosition(a, b)
  {
  }

  /** Any two sequences of the same observations lead to the same position in the protocol. */
  lemma FoldIgnoresOrder(log: seq<Request>, known: Vm, xs: seq<Vm>, ys: seq<Vm>)
    requires Distinct(log) && Genuine(log, known.backup) && AllGenuine(log, xs) && AllGenuine(log, ys)
    requires forall vm :: vm in xs <==> vm in ys
    ensures SamePosition(Fold(known, xs).backup, Fold(known, ys).backup)
  {
    FoldKeepsTheMaximum(log, known, xs);
    FoldKeepsTheMaximum(log, known, ys);
    MaxRankIgnoresOrder(known, xs, ys);
    MaxRankIgnoresOrder(known, ys, xs);
    RankIsPosition(log, Fold(known, xs).backup, Fold(known, ys).backup);
  }

  // ---- snapshots of a run of the agent ----

  ghost function Requests(log: seq<Admitted>): seq<Request> {
    seq(|log|, i requires 0 <= i < |log| => log[i].request)
  }

  /** The row was saved by the agent at some moment of the run, before deletion began. */
  ghost predicate SnapshotOf(ws: seq<World>, vm: Vm, i: nat) {
    i < |ws| && ws[i].vm == Some(vm) && vm.state != Deleting
  }

  /** A record that agrees with the log so far is genuine, however much the log grows. */
  lemma ToldIsGenuine(vm: Vm, log: seq<Admitted>, later: seq<Admitted>)
    requires Told(vm, log) && vm.state != Deleting && log <= later
    ensures Genuine(Requests(later), vm.backup)
  {
    assert forall k :: 0 <= k < |log| ==> later[k] == log[k];
  }

  lemma SnapshotsAreGenuine(c: Site, ws: seq<World>, es: seq<Event>, i: nat)
    requires Run(c, ws, es) && i < |ws| && ws[i].vm.Some? && ws[i].vm.value.state != Deleting
    ensures Genuine(Requests(ws[|ws| - 1].log), ws[i].vm.value.backup)
    ensures ws[i].vm.value.backup.forwarding.None?
  {
    assert Told(ws[i].vm.value, ws[i].log) && ws[i].vm.value.backup.forwarding.None? by { RunInv(c, ws, es, i); }
    LogGrows(c, ws, es, i, |ws| - 1);
    ToldIsGenuine(ws[i].vm.value, ws[i].log, ws[|ws| - 1].log);
  }

  lemma RequestsAreDistinct(c: Site, ws: seq<World>, es: seq<Event>)
    requires Run(c, ws, es)
    ensures Distinct(Requests(ws[|ws| - 1].log))
  {
    RunInv(c, ws, es, |ws| - 1);
  }

  /**
   End to end: snapshots taken at any moments `at` of any run of the agent, delivered in any
   order and any number of times, leave the controller at the latest of those moments.
   */
  lemma ObservationReachesTheLatestState(c: Site, ws: seq<World>, es: seq<Event>, known: Vm, snapshots: seq<Vm>)
    requires Run(c, ws, es)
    requires Rank(known.backup) == 1 && known.backup.lastResult.None? && known.backup.pending.None?
    requires forall vm :: vm in snapshots ==> exists i: nat :: SnapshotOf(ws, vm, i)
    ensures var s := Fold(known, snapshots).backup;
            && (forall vm :: vm in snapshots ==>
                  || vm.backup.sequence < s.sequence
                  || (vm.backup.sequence == s.sequence && (s.pending.Some? ==> vm.backup.pending.Some?)))
            && exists vm :: (vm == known || vm in snapshots) && Unforwarded(s) == Unforwarded(vm.backup)
  {
    var log := Requests(ws[|ws| - 1].log);
    RequestsAreDistinct(c, ws, es);
    forall k | 0 <= k < |snapshots| ensures Genuine(log, snapshots[k].backup) {
      assert snapshots[k] in snapshots;
      var i: nat :| SnapshotOf(ws, snapshots[k], i);
      SnapshotsAreGenuine(c, ws, es, i);
    }
    FoldKeepsTheMaximum(log, known, snapshots);
    MaxRankIsTheMaximum(known, snapshots);
  }

  /** A snapshot that shows a request as pending or answered proves its admission, which was the only one. */
  lemma ConfirmedRequestWasAdmittedOnce(c: Site, ws: seq<World>, es: seq<Event>, vm: Vm, i: nat, r: Request)
    requires Run(c, ws, es) && SnapshotOf(ws, vm, i)
    requires || (vm.backup.pending.Some? && vm.backup.pending.value.request == r)
             || (vm.backup.lastResult.Some? && vm.backup.lastResult.value.request == r)
    ensures exists j: nat ::
              && j < i && FreshAdmission(ws, es, j) && ws[j].worker.request == r
              && forall k: nat :: k != j && FreshAdmission(ws, es, k) ==> ws[k].worker.request != r
  {
    SnapshotsAreGenuine(c, ws, es, i);
    LogGrows(c, ws, es, i, |ws| - 1);
    SequenceIsLogLength(c, ws, es, i);
    var n := if vm.backup.lastResult.Some? && vm.backup.lastResult.value.request == r && vm.backup.pending.Some?
             then vm.backup.sequence - 2 else vm.backup.sequence - 1;
    assert ws[i].log[n].request == r by { assert ws[|ws| - 1].log[n] == ws[i].log[n]; }
    LogOrigin(c, ws, es, i, n);
    var j: nat :| j < i && FreshAdmission(ws, es, j) && Entry(ws, es, j) == ws[i].log[n] && |ws[j].log| == n;
    forall k: nat | k != j && FreshAdmission(ws, es, k) ensures ws[k].worker.request != r {
      if k < j { NoRequestIsAdmittedTwice(c, ws, es, k, j); } else { NoRequestIsAdmittedTwice(c, ws, es, j, k); }
    }
  }

  lemma SequenceIsLogLength(c: Site, ws: seq<World>, es: seq<Event>, i: nat)
    requires Run(c, ws, es) && i < |ws| && ws[i].vm.Some?
    ensures ws[i].vm.value.backup.sequence == |ws[i].log|
  {
    RunInv(c, ws, es, i);
  }
}
