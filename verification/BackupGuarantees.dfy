/**
 What the backup protocol guarantees over every run: faithful recovery points, completed
 restores, at-most-once admission, exclusion of writers, tracked artifacts, and recovery
 from crashes.
 */
module BackupGuarantees {
  import opened Model
  import opened BackupRecord
  import opened StorageModel
  import opened BackupRun

  lemma {:induction false} RunInv(c: Site, ws: seq<World>, es: seq<Event>, i: nat)
    requires Run(c, ws, es) && i < |ws|
    ensures Inv(c, ws[i])
  {
    if i == 0 {
      InitHolds(c, ws[0]);
    } else {
      RunInv(c, ws, es, i - 1);
      assert Linked(c, ws, es, i - 1);
      StepKeeps(c, ws[i - 1], es[i - 1], ws[i]);
    }
  }

  /** The `j`-th event is the durable admission of a request that was not pending before. */
  ghost predicate FreshAdmission(ws: seq<World>, es: seq<Event>, j: nat)
    requires |ws| == |es| + 1
  {
    && j < |es| && es[j].Admit?
    && ws[j].worker.Locked?
    && ws[j].vm.Some? && ws[j].vm.value.backup.pending.None?
  }

  /** The entry that a fresh admission adds to the log. */
  ghost function Entry(ws: seq<World>, es: seq<Event>, j: nat): Admitted
    requires |ws| == |es| + 1 && FreshAdmission(ws, es, j)
  {
    Admitted(ws[j].worker.request, es[j].artifact, ws[j].store.disk.image)
  }

  lemma LogStep(c: Site, ws: seq<World>, es: seq<Event>, j: nat)
    requires Run(c, ws, es) && j < |es|
    ensures ws[j + 1].log == if FreshAdmission(ws, es, j) then ws[j].log + [Entry(ws, es, j)] else ws[j].log
  {
    assert Linked(c, ws, es, j);
  }

  /** The log is exactly the record of the fresh admissions, in order. */
  ghost predicate LogFollows(ws: seq<World>, es: seq<Event>) {
    && |ws| == |es| + 1
    && ws[0].log == []
    && forall j: nat :: j < |es| ==>
         ws[j + 1].log == if FreshAdmission(ws, es, j) then ws[j].log + [Entry(ws, es, j)] else ws[j].log
  }

  lemma RunFollows(c: Site, ws: seq<World>, es: seq<Event>)
    requires Run(c, ws, es)
    ensures LogFollows(ws, es)
  {
    forall j: nat | j < |es|
      ensures ws[j + 1].log == if FreshAdmission(ws, es, j) then ws[j].log + [Entry(ws, es, j)] else ws[j].log
    {
      LogStep(c, ws, es, j);
    }
  }

  ghost predicate AddedAt(ws: seq<World>, es: seq<Event>, i: nat, k: nat, j: nat)
    requires |ws| == |es| + 1 && i < |ws| && k < |ws[i].log|
  {
    j < i && FreshAdmission(ws, es, j) && Entry(ws, es, j) == ws[i].log[k] && |ws[j].log| == k
  }

  lemma {:induction false} EntryOrigin(ws: seq<World>, es: seq<Event>, i: nat, k: nat)
    requires LogFollows(ws, es) && i < |ws| && k < |ws[i].log|
    ensures exists j: nat :: AddedAt(ws, es, i, k, j)
  {
    assert ws[i - 1 + 1].log ==
           if FreshAdmission(ws, es, i - 1) then ws[i - 1].log + [Entry(ws, es, i - 1)] else ws[i - 1].log;
    if k < |ws[i - 1].log| {
      EntryOrigin(ws, es, i - 1, k);
      var j: nat :| AddedAt(ws, es, i - 1, k, j);
      assert AddedAt(ws, es, i, k, j);
    } else {
      assert AddedAt(ws, es, i, k, i - 1);
    }
  }

  /** Every log entry was added by an earlier admission. */
  lemma LogOrigin(c: Site, ws: seq<World>, es: seq<Event>, i: nat, k: nat)
    requires Run(c, ws, es) && i < |ws| && k < |ws[i].log|
    ensures exists j: nat ::
              j < i && FreshAdmission(ws, es, j) && Entry(ws, es, j) == ws[i].log[k] && |ws[j].log| == k
  {
    RunFollows(c, ws, es);
    EntryOrigin(ws, es, i, k);
    var j: nat :| AddedAt(ws, es, i, k, j);
    assert FreshAdmission(ws, es, j) && Entry(ws, es, j) == ws[i].log[k];
  }

  lemma {:induction false} Ascending(ws: seq<World>, i: nat, j: nat)
    requires i <= j < |ws|
    requires forall k: nat :: i <= k < j ==> ws[k].log <= ws[k + 1].log
    ensures ws[i].log <= ws[j].log
    decreases j
  {
    if i < j {
      Ascending(ws, i, j - 1);
      assert ws[j - 1].log <= ws[j - 1 + 1].log;
    }
  }

  lemma LogGrows(c: Site, ws: seq<World>, es: seq<Event>, i: nat, j: nat)
    requires Run(c, ws, es) && i <= j < |ws|
    ensures ws[i].log <= ws[j].log
  {
    forall k: nat | i <= k < j ensures ws[k].log <= ws[k + 1].log {
      LogStep(c, ws, es, k);
    }
    Ascending(ws, i, j);
  }

  // ---- end-to-end recovery ----

  /** The published recovery point holds what the active disk held when its creation was admitted. */
  lemma RecoveryPointIsTheAdmittedDisk(c: Site, ws: seq<World>, es: seq<Event>, i: nat)
    requires Run(c, ws, es) && i < |ws|
    requires ws[i].vm.Some? && ws[i].vm.value.state != Deleting && !DeletePending(ws[i].vm.value)
    requires ws[i].vm.value.backup.current.Some?
    ensures var id := ws[i].vm.value.backup.current.value.id;
            exists j: nat ::
              && j < i && FreshAdmission(ws, es, j)
              && ws[j].worker.request.action == Create && es[j].artifact == id
              && PieceImage(At(c.backend, ws[i].store, id)) == Some(ws[j].store.disk.image)
  {
    RunInv(c, ws, es, i);
    var id := ws[i].vm.value.backup.current.value.id;
    assert MadeByCreation(ws[i].log, id);
    var k :| 0 <= k < |ws[i].log| && ws[i].log[k].artifact == id && ws[i].log[k].request.action == Create;
    LogOrigin(c, ws, es, i, k);
  }

  /** A completed restore leaves the active disk equal to the generation that the request names. */
  lemma CompletedRestoreYieldsTheNamedGeneration(c: Site, ws: seq<World>, es: seq<Event>, i: nat)
    requires Run(c, ws, es) && i < |es|
    requires es[i].Finish? && ws[i].worker.Worked?
    requires ws[i].worker.request.action == Restore && ws[i].worker.result.Ok?
    ensures exists j: nat ::
              && j < i && FreshAdmission(ws, es, j)
              && ws[j].worker.request.action == Create
              && ws[i].worker.request.generation == Some(es[j].artifact)
              && ws[i + 1].store.disk.image == ws[j].store.disk.image
  {
    RunInv(c, ws, es, i);
    assert Linked(c, ws, es, i);
    var current := ws[i].vm.value.backup.current.value;
    assert ws[i].store.disk.image == ws[i].made[current.id];
    assert ws[i].worker.request.generation == Some(current.id);
    RecoveryPointIsTheAdmittedDisk(c, ws, es, i);
    assert PublishedFaithfully(c, ws[i].store, ws[i].log, ws[i].made, current);
  }

  /** While an operation is pending the guest is off, and the disk is wholly one image or the other. */
  lemma ActiveDiskIsWholeWhilePending(c: Site, ws: seq<World>, es: seq<Event>, i: nat)
    requires Run(c, ws, es) && i < |ws|
    requires ws[i].vm.Some? && ws[i].vm.value.state != Deleting && ws[i].vm.value.backup.pending.Some?
    ensures !ws[i].guest
    ensures var p := ws[i].vm.value.backup.pending.value;
            exists j: nat ::
              && j < i && FreshAdmission(ws, es, j)
              && ws[j].worker.request == p.request
              && (p.request.action == Create ==> ws[i].store.disk.image == ws[j].store.disk.image)
              && (p.request.action == Restore ==>
                    && p.request.generation.Some?
                    && var source := At(c.backend, ws[i].store, p.request.generation.value);
                       || ws[i].store.disk.image == ws[j].store.disk.image
                       || PieceImage(source) == Some(ws[i].store.disk.image))
  {
    RunInv(c, ws, es, i);
    var vm := ws[i].vm.value;
    var p := vm.backup.pending.value;
    LogOrigin(c, ws, es, i, |ws[i].log| - 1);
    if p.request.action == Restore {
      assert PublishedFaithfully(c, ws[i].store, ws[i].log, ws[i].made, vm.backup.current.value);
    }
  }

  // ---- at-most-once admission ----

  /** No two admissions share a request or an expected revision. */
  lemma NoRequestIsAdmittedTwice(c: Site, ws: seq<World>, es: seq<Event>, j1: nat, j2: nat)
    requires Run(c, ws, es) && j1 < j2
    requires FreshAdmission(ws, es, j1) && FreshAdmission(ws, es, j2)
    ensures ws[j1].worker.request.expectedRevision != ws[j2].worker.request.expectedRevision
    ensures ws[j1].worker.request != ws[j2].worker.request
    ensures es[j1].artifact != es[j2].artifact
  {
    LogStep(c, ws, es, j1);
    LogStep(c, ws, es, j2);
    LogGrows(c, ws, es, j1 + 1, j2);
    RunInv(c, ws, es, j2 + 1);
    RunInv(c, ws, es, j2);
    assert Linked(c, ws, es, j2);
    var a := |ws[j1].log|;
    var b := |ws[j2].log|;
    assert ws[j2 + 1].log[b] == Entry(ws, es, j2);
    assert ws[j1 + 1].log[a] == Entry(ws, es, j1);
    assert ws[j2].log[a] == ws[j1 + 1].log[a];
    assert ws[j2 + 1].log[a] == ws[j2].log[a];
    assert ws[j2].log[a].artifact in ws[j2].used;
  }

  ghost function AdmissionsBefore(ws: seq<World>, es: seq<Event>, i: nat): nat
    requires |ws| == |es| + 1 && i < |ws|
  {
    if i == 0 then 0 else AdmissionsBefore(ws, es, i - 1) + (if FreshAdmission(ws, es, i - 1) then 1 else 0)
  }

  lemma {:induction false} LogCountsAdmissions(ws: seq<World>, es: seq<Event>, i: nat)
    requires LogFollows(ws, es) && i < |ws|
    ensures |ws[i].log| == AdmissionsBefore(ws, es, i)
  {
    if i > 0 {
      LogCountsAdmissions(ws, es, i - 1);
      assert ws[i - 1 + 1].log ==
           if FreshAdmission(ws, es, i - 1) then ws[i - 1].log + [Entry(ws, es, i - 1)] else ws[i - 1].log;
    }
  }

  /** The stored sequence number is the number of admissions. */
  lemma SequenceCountsAdmissions(c: Site, ws: seq<World>, es: seq<Event>, i: nat)
    requires Run(c, ws, es) && i < |ws| && ws[i].vm.Some?
    ensures ws[i].vm.value.backup.sequence == AdmissionsBefore(ws, es, i)
  {
    RunInv(c, ws, es, i);
    RunFollows(c, ws, es);
    LogCountsAdmissions(ws, es, i);
  }

  lemma LoggedRequestsAreSpent(c: Site, vm: Vm, log: seq<Admitted>, a: nat, settings: Settings, engineStopped: bool)
    requires RecordInv(vm) && Told(vm, log) && a < |log|
    requires forall i, j :: 0 <= i < j < |log| ==> log[i].request.expectedRevision != log[j].request.expectedRevision
    requires vm.backup.pending.Some? ==> vm.backup.pending.value.request != log[a].request
    ensures Check(vm.backup, log[a].request) != Ok(false)
    ensures ClaimRefusal(vm, log[a].request, settings, engineStopped).Some?
  {
  }

  /** A request that was admitted and is no longer pending can never be claimed again. */
  lemma AdmittedRequestsAreSpent(c: Site, ws: seq<World>, es: seq<Event>, j: nat, i: nat, settings: Settings)
    requires Run(c, ws, es) && FreshAdmission(ws, es, j) && j < i < |ws|
    requires ws[i].vm.Some?
    requires ws[i].vm.value.backup.pending.Some? ==>
               ws[i].vm.value.backup.pending.value.request != ws[j].worker.request
    ensures Check(ws[i].vm.value.backup, ws[j].worker.request) != Ok(false)
    ensures ClaimRefusal(ws[i].vm.value, ws[j].worker.request, settings, !ws[i].guest).Some?
  {
    LogStep(c, ws, es, j);
    LogGrows(c, ws, es, j + 1, i);
    var a := |ws[j].log|;
    assert ws[j + 1].log[a] == Entry(ws, es, j);
    assert ws[i].log[a] == ws[j + 1].log[a];
    assert Records(c, ws[i].vm, ws[i].used) && Admissions(ws[i].vm, ws[i].log, ws[i].made, ws[i].used) by {
      RunInv(c, ws, es, i);
    }
    LoggedRequestsAreSpent(c, ws[i].vm.value, ws[i].log, a, settings, !ws[i].guest);
  }

  /** If the log has grown by one since before an admission, that admission was the last. */
  lemma NoLaterAdmission(c: Site, ws: seq<World>, es: seq<Event>, j: nat, i: nat)
    requires Run(c, ws, es) && j < i < |ws|
    requires FreshAdmission(ws, es, j) && |ws[i].log| == |ws[j].log| + 1
    ensures forall k: nat :: j < k < i ==> !FreshAdmission(ws, es, k)
  {
    LogStep(c, ws, es, j);
    forall k: nat | j < k < i ensures !FreshAdmission(ws, es, k) {
      LogGrows(c, ws, es, j + 1, k);
      LogStep(c, ws, es, k);
      LogGrows(c, ws, es, k + 1, i);
    }
  }

  /** The admission that the last log entry stands for. */
  lemma LastAdmission(c: Site, ws: seq<World>, es: seq<Event>, i: nat) returns (j: nat)
    requires Run(c, ws, es) && i < |ws| && |ws[i].log| > 0
    ensures j < i && FreshAdmission(ws, es, j) && ws[j].worker.request == ws[i].log[|ws[i].log| - 1].request
    ensures forall k: nat :: j < k < i ==> !FreshAdmission(ws, es, k)
  {
    var n := |ws[i].log| - 1;
    RunFollows(c, ws, es);
    EntryOrigin(ws, es, i, n);
    j :| AddedAt(ws, es, i, n, j);
    NoLaterAdmission(c, ws, es, j, i);
  }

  /** Only the last completed request is replayed, and it is the last one admitted. */
  lemma ReplayIsTheLastAdmission(c: Site, ws: seq<World>, es: seq<Event>, i: nat, r: Request)
    requires Run(c, ws, es) && i < |ws|
    requires ws[i].vm.Some? && ws[i].vm.value.state != Deleting && ws[i].vm.value.backup.pending.None?
    requires Check(ws[i].vm.value.backup, r) == Ok(true)
    ensures exists j: nat ::
              && j < i && FreshAdmission(ws, es, j) && ws[j].worker.request == r
              && forall k: nat :: j < k < i ==> !FreshAdmission(ws, es, k)
  {
    assert |ws[i].log| > 0 && ws[i].log[|ws[i].log| - 1].request == r by { RunInv(c, ws, es, i); }
    var j := LastAdmission(c, ws, es, i);
  }

  // ---- receipts ----

  /** At `j` a worker published the outcome of its storage work, and that is what the receipt says. */
  ghost predicate ConcludedAt(ws: seq<World>, es: seq<Event>, j: nat, rc: Receipt)
    requires |ws| == |es| + 1
  {
    && j < |es| && es[j] == Finish(rc.completedAt)
    && ws[j].worker.Worked? && ws[j].worker.request == rc.request
    && match ws[j].worker.result
       case Ok(_) => rc.error.None?
       case Err(e) => rc.error == Some(e)
  }

  /** A receipt is written by publication alone, and says how the work ended. */
  lemma ReceiptStep(c: Site, w: World, e: Event, w1: World)
    requires Step(c, w, e, w1) && w1.vm.Some?
    requires !(w.vm.Some? && w1.vm.value.backup.lastResult == w.vm.value.backup.lastResult)
    ensures e.Finish? && w.worker.Worked? && w1.vm.value.backup.lastResult.Some?
    ensures var rc := w1.vm.value.backup.lastResult.value;
            && rc.request == w.worker.request && rc.completedAt == e.now
            && (w.worker.result.Ok? ==> rc.error.None?)
            && (w.worker.result.Err? ==> rc.error == Some(w.worker.result.error))
  {
    if e.Finish? {
      assert FinishStep(w, e.now, w1);
      PublicationSaves(w.vm.value, w.worker.request, w.worker.removed, w.worker.result, e.now);
    } else {
      OnlyPublicationWritesReceipts(c, w, e, w1);
    }
  }

  lemma OnlyPublicationWritesReceipts(c: Site, w: World, e: Event, w1: World)
    requires Step(c, w, e, w1) && !e.Finish? && w1.vm.Some?
    ensures w.vm.Some? && w1.vm.value.backup.lastResult == w.vm.value.backup.lastResult
  {
    hide WorkEffect, OrphanEffect, CleanEffect, RemoveMany, AllAbsent, Check, AdmissionRefusal, ClaimRefusal;
    if ByWorker(e) {
      assert WorkerStep(w, e, w1);
    } else if ByOperation(e) {
      assert OperationStep(c, w, e, w1);
    } else if ByCleanup(e) {
      assert CleanupStep(c, w, e, w1);
    } else if ByDestruction(e) {
      assert DestructionStep(c, w, e, w1);
    } else {
      assert OutsideStep(w, e, w1);
    }
  }

  /** Every receipt in a record was written by an earlier publication, and tells its outcome. */
  lemma {:induction false} ReceiptOrigin(c: Site, ws: seq<World>, es: seq<Event>, i: nat)
    requires Run(c, ws, es) && i < |ws| && ws[i].vm.Some? && ws[i].vm.value.backup.lastResult.Some?
    ensures exists j: nat :: j < i && ConcludedAt(ws, es, j, ws[i].vm.value.backup.lastResult.value)
    decreases i
  {
    var rc := ws[i].vm.value.backup.lastResult.value;
    assert Linked(c, ws, es, i - 1);
    if ws[i - 1].vm.Some? && ws[i - 1].vm.value.backup.lastResult == Some(rc) {
      ReceiptOrigin(c, ws, es, i - 1);
      var j: nat :| j < i - 1 && ConcludedAt(ws, es, j, rc);
    } else {
      ReceiptStep(c, ws[i - 1], es[i - 1], ws[i]);
      assert ConcludedAt(ws, es, i - 1, rc);
    }
  }

  /** The storage work whose outcome a worker holds. */
  ghost predicate WorkedAt(ws: seq<World>, es: seq<Event>, k: nat, worker: Worker)
    requires |ws| == |es| + 1
  {
    && k < |es| && worker.Worked? && es[k].Work?
    && ws[k].worker.Working? && ws[k].worker.vm.backup.pending.Some?
    && ws[k].worker.vm.backup.pending.value.request == worker.request
    && es[k].result == worker.result && es[k].removed == worker.removed
  }

  lemma OnlyWorkEndsInWorked(c: Site, w: World, e: Event, w1: World)
    requires Step(c, w, e, w1) && w1.worker.Worked? && w.worker != w1.worker
    ensures e.Work? && WorkStep(c, w, e.mid, e.prepared, e.removed, e.result, w1)
  {
    match e
    case Work(_, _, _, _) =>
    case _ =>
  }

  lemma {:induction false} WorkOrigin(c: Site, ws: seq<World>, es: seq<Event>, i: nat)
    requires Run(c, ws, es) && i < |ws| && ws[i].worker.Worked?
    ensures exists k: nat :: k < i && WorkedAt(ws, es, k, ws[i].worker)
    decreases i
  {
    assert Linked(c, ws, es, i - 1);
    if ws[i - 1].worker == ws[i].worker {
      WorkOrigin(c, ws, es, i - 1);
      var k: nat :| k < i - 1 && WorkedAt(ws, es, k, ws[i - 1].worker);
    } else {
      OnlyWorkEndsInWorked(c, ws[i - 1], es[i - 1], ws[i]);
      assert WorkedAt(ws, es, i - 1, ws[i].worker);
    }
  }

  /**
   A receipt tells the truth: over every run, the last result in a record is that of storage work
   for exactly that request, published at exactly that time. It is free of errors if that work
   succeeded, and otherwise carries the error in which the work ended.
   */
  lemma ReceiptsTellTheOutcome(c: Site, ws: seq<World>, es: seq<Event>, i: nat)
    requires Run(c, ws, es) && i < |ws| && ws[i].vm.Some? && ws[i].vm.value.backup.lastResult.Some?
    ensures var rc := ws[i].vm.value.backup.lastResult.value;
            exists k: nat, j: nat ::
              && k < j < i && es[k].Work? && es[j] == Finish(rc.completedAt)
              && ws[k].worker.Working? && ws[k].worker.vm.backup.pending.Some?
              && ws[k].worker.vm.backup.pending.value.request == rc.request
              && (rc.error.None? <==> es[k].result.Ok?)
              && (rc.error.Some? ==> es[k].result == Err(rc.error.value))
  {
    ReceiptOrigin(c, ws, es, i);
    var j: nat :| j < i && ConcludedAt(ws, es, j, ws[i].vm.value.backup.lastResult.value);
    WorkOrigin(c, ws, es, j);
    var k: nat :| k < j && WorkedAt(ws, es, k, ws[j].worker);
  }

  // ---- exclusion ----

  lemma StepsRespectWorkers(c: Site, w: World, e: Event, w1: World)
    requires Step(c, w, e, w1) && w.vm.Some?
    ensures !w.worker.Idle? ==> !e.Lifecycle? && !ByDestruction(e)
    ensures w.vm.value.backup.pending.Some? ==> !e.Lifecycle?
  {
  }

  /** Only a lifecycle operation starts the guest. */
  lemma GuestStaysOff(c: Site, w: World, e: Event, w1: World)
    requires Step(c, w, e, w1) && !w.guest && !e.Lifecycle?
    ensures !e.GuestWrite? && !w1.guest
  {
    if ByWorker(e) {
      assert WorkerStep(w, e, w1);
    } else if ByOperation(e) {
      assert OperationStep(c, w, e, w1);
    } else if ByCleanup(e) {
      assert CleanupStep(c, w, e, w1);
    } else if ByDestruction(e) {
      assert DestructionStep(c, w, e, w1);
    }
  }

  lemma GuestIsOff(c: Site, w: World)
    requires w.vm.Some? && Workers(c, w) && Contents(c, w.vm, w.store, w.guest, w.log, w.made)
    ensures w.worker.Claimed? || w.worker.Locked? || w.worker.Working? || w.worker.Worked? ==>
              w.vm.value.state != Deleting && !w.guest
    ensures w.vm.value.state != Deleting && w.vm.value.backup.pending.Some? ==> !w.guest
  {
  }

  /**
   While a worker holds the VM, no lifecycle change happens and no step of a deletion. While an
   operation is pending, no lifecycle change happens. And while an operation is pending or a
   worker prepares or performs one, the guest is off and writes nothing, until deletion begins.
   */
  lemma WritersAreExcluded(c: Site, ws: seq<World>, es: seq<Event>, i: nat)
    requires Run(c, ws, es) && i < |es| && ws[i].vm.Some?
    ensures !ws[i].worker.Idle? ==> !es[i].Lifecycle? && !ByDestruction(es[i])
    ensures ws[i].vm.value.backup.pending.Some? ==> !es[i].Lifecycle?
    ensures || (ws[i].vm.value.state != Deleting && ws[i].vm.value.backup.pending.Some?)
            || ws[i].worker.Claimed? || ws[i].worker.Locked? || ws[i].worker.Working? || ws[i].worker.Worked? ==>
              !ws[i].guest && !es[i].GuestWrite? && !ws[i + 1].guest
  {
    assert Linked(c, ws, es, i);
    StepsRespectWorkers(c, ws[i], es[i], ws[i + 1]);
    RunInv(c, ws, es, i);
    GuestIsOff(c, ws[i]);
    if !ws[i].guest && !es[i].Lifecycle? { GuestStaysOff(c, ws[i], es[i], ws[i + 1]); }
  }

  /**
   Destruction reaches the disk image only when the engine is off, no worker holds the VM, no
   surviving child can touch storage, and every artifact is gone; and from then on the guest,
   the storage and the record without backups stay that way.
   */
  lemma ImageRemovalIsFenced(c: Site, ws: seq<World>, es: seq<Event>, i: nat, j: nat)
    requires Run(c, ws, es) && i < |es| && es[i].DestroyImage? && i <= j < |ws|
    ensures !ws[j].guest
    ensures !ws[j].orphan.Writer? && !ws[j].orphan.Remover?
    ensures forall b: Backend, id: Token :: At(b, ws[j].store, id).None?
    ensures ws[j].store.disk == ws[i].store.disk
    ensures ws[i].worker.Idle?
  {
    assert Linked(c, ws, es, i);
    Fenced(c, ws, es, i, j);
    assert Tracking(c, ws[j].store, ws[j].vm) by { RunInv(c, ws, es, j); }
    forall b: Backend, id: Token ensures At(b, ws[j].store, id).None? {
      assert b == c.backend || b == OtherBackend(c.backend);
    }
  }

  /** The record is gone or has forgotten its backups, and nothing is left that writes. */
  ghost predicate Quenched(w: World) {
    && !w.guest && !w.orphan.Writer? && !w.orphan.Remover?
    && AllTracked(w.vm) == []
    && (w.vm.Some? ==> w.vm.value.state == Deleting && w.vm.value == Forgotten(w.vm.value))
  }

  lemma QuenchedWorkers(c: Site, w: World, e: Event, w1: World)
    requires Workers(c, w) && Quenched(w) && ByWorker(e) && WorkerStep(w, e, w1)
    ensures Quenched(w1) && w1.store.disk == w.store.disk
  {
  }

  lemma QuenchedCleanup(c: Site, w: World, e: Event, w1: World)
    requires Workers(c, w) && Quenched(w) && ByCleanup(e) && CleanupStep(c, w, e, w1)
    ensures Quenched(w1) && w1.store.disk == w.store.disk
  {
    if e.FinishCleanup? { RetainNothing([]); }
  }

  lemma QuenchedStepKeeps(c: Site, w: World, e: Event, w1: World)
    requires Workers(c, w) && Quenched(w) && Step(c, w, e, w1)
    ensures Quenched(w1) && w1.store.disk == w.store.disk
  {
    if ByWorker(e) {
      QuenchedWorkers(c, w, e, w1);
    } else if ByCleanup(e) {
      QuenchedCleanup(c, w, e, w1);
    }
  }

  lemma {:induction false} Fenced(c: Site, ws: seq<World>, es: seq<Event>, i: nat, j: nat)
    requires Run(c, ws, es) && i < |es| && es[i].DestroyImage? && i <= j < |ws|
    ensures Quenched(ws[j]) && ws[j].store.disk == ws[i].store.disk
    decreases j
  {
    if i == j {
      assert Linked(c, ws, es, i);
      RunInv(c, ws, es, i);
    } else {
      Fenced(c, ws, es, i, j - 1);
      assert Linked(c, ws, es, j - 1);
      RunInv(c, ws, es, j - 1);
      QuenchedStepKeeps(c, ws[j - 1], es[j - 1], ws[j]);
    }
  }

  // ---- artifacts ----

  /** Nothing on storage is untracked, tracked names are distinct, and the recovery point is there. */
  lemma ArtifactsAreTracked(c: Site, ws: seq<World>, es: seq<Event>, i: nat)
    requires Run(c, ws, es) && i < |ws|
    ensures forall b: Backend, id: Token :: At(b, ws[i].store, id).Some? ==>
              ws[i].vm.Some? && exists g :: g in Tracked(ws[i].vm.value.backup) && g.id == id && g.backend == b
    ensures ws[i].vm.Some? ==> DistinctIds(Tracked(ws[i].vm.value.backup))
    ensures ws[i].vm.Some? && ws[i].vm.value.backup.current.Some? && ws[i].vm.value.state != Deleting
            && !DeletePending(ws[i].vm.value) ==>
              var g := ws[i].vm.value.backup.current.value;
              && Verification(c.vm, At(c.backend, ws[i].store, g.id), g) == Ok(g)
              && At(c.backend, ws[i].store, g.id).Some?
              && Authentic(c.vm, At(c.backend, ws[i].store, g.id).value, g)
              && g.identity == IdentityOf(At(c.backend, ws[i].store, g.id).value)
  {
    RunInv(c, ws, es, i);
    forall b: Backend, id: Token | At(b, ws[i].store, id).Some?
      ensures ws[i].vm.Some? && exists g :: g in Tracked(ws[i].vm.value.backup) && g.id == id && g.backend == b
    {
      assert b == c.backend || b == OtherBackend(c.backend);
      assert id in Ids(AllTracked(ws[i].vm));
    }
    if ws[i].vm.Some? && ws[i].vm.value.backup.current.Some? && ws[i].vm.value.state != Deleting
       && !DeletePending(ws[i].vm.value) {
      var g := ws[i].vm.value.backup.current.value;
      assert PublishedFaithfully(c, ws[i].store, ws[i].log, ws[i].made, g);
      VerifiesExactlyTheAuthentic(c.vm, At(c.backend, ws[i].store, g.id), g);
    }
  }

  /** Storage after the artifact `id` is gone. */
  function Lost(b: Backend, s: Store, id: Token): Store {
    if b == Snapshot then s.(snapshots := Without(s.snapshots, Ours(id)))
    else s.(directories := s.directories - {id})
  }

  lemma LostIsRemoval(c: Site, s: Store, g: Generation, gs: seq<Generation>)
    requires UniqueNames(s.snapshots) && g in gs
    ensures RemoveMany(s, Lost(c.backend, s, g.id), gs)
    ensures At(c.backend, Lost(c.backend, s, g.id), g.id).None?
  {
    assert g.id in Ids(gs);
    forall name { LookupWithout(s.snapshots, Ours(g.id), name); }
  }

  /** Deletion of an idle VM can be interrupted with any part of its artifacts removed. */
  lemma InterruptedDestruction(c: Site, w: World, s1: Store)
    requires w.vm.Some? && w.worker.Idle? && w.orphan.NoOrphan? && HasArtifacts(w.vm.value.backup)
    requires RemoveMany(w.store, s1, Tracked(w.vm.value.backup))
    ensures var w1 := w.(vm := Some(w.vm.value.(state := Deleting)));
            var w2 := w1.(guest := false);
            && Step(c, w, DestroyBegin, w1) && Step(c, w1, DestroyHalt, w2)
            && Step(c, w2, DestroyPartly(false), w2.(store := s1))
  {
  }

  /**
   The exemption for a VM that is being deleted is needed: from any idle state with a recovery
   point, an interrupted deletion loses the artifact while no backup deletion is pending.
   */
  lemma InterruptedDestructionLosesTheRecoveryPoint(c: Site, w: World)
    requires Inv(c, w) && w.vm.Some? && w.vm.value.backup.current.Some? && w.vm.value.backup.pending.None?
    requires w.worker.Idle? && w.orphan.NoOrphan?
    ensures exists w1, w2, w3 ::
              && Step(c, w, DestroyBegin, w1) && Step(c, w1, DestroyHalt, w2) && Step(c, w2, DestroyPartly(false), w3)
              && w3.vm.Some? && w3.vm.value.backup.current == w.vm.value.backup.current
              && !DeletePending(w3.vm.value)
              && At(c.backend, w3.store, w.vm.value.backup.current.value.id).None?
  {
    var g := w.vm.value.backup.current.value;
    PendingIsTracked(w.vm.value.backup);
    LostIsRemoval(c, w.store, g, Tracked(w.vm.value.backup));
    InterruptedDestruction(c, w, Lost(c.backend, w.store, g.id));
  }

  // ---- recovery from crashes ----

  /**
   However often a pending restore was interrupted, the next undisturbed attempt succeeds
   exactly if the boot files are the retained ones and the staging directory can be adopted;
   for volumes, exactly if the boot files are the retained ones and every newer snapshot is a
   retired generation that may be sacrificed.
   */
  lemma InterruptedRestoreConverges(c: Site, ws: seq<World>, es: seq<Event>, i: nat)
    requires Run(c, ws, es) && i < |ws|
    requires ws[i].vm.Some? && ws[i].vm.value.state != Deleting && ws[i].vm.value.backup.pending.Some?
    requires ws[i].vm.value.backup.pending.value.request.action == Restore
    ensures ws[i].vm.value.backup.current.Some?
    ensures var s := ws[i].store;
            var p := ws[i].vm.value.backup.pending.value;
            var source := ws[i].vm.value.backup.current.value;
            var retired := ws[i].vm.value.backup.retired;
            && PieceImage(At(c.backend, s, source.id)).Some?
            && RestoreFacts(c.vm, c.backend, s, p, source, PieceImage(At(c.backend, s, source.id)).value)
            && (s.disk.image.bytes > 0 && c.backend == Reflink ==>
                 (RestoreReady(c.vm, Reflink, s, p, source) <==>
                    s.dependencies == p.artifact.dependencies && Preparable(c.vm, s, p.artifact.id)))
            && (s.disk.image.bytes > 0 && c.backend == Snapshot ==>
                 (RollbackReady(c.vm, s, p, source, retired) <==>
                    s.dependencies == p.artifact.dependencies && Rewindable(c.vm, s.snapshots, source, retired)))
  {
    RunInv(c, ws, es, i);
    var vm := ws[i].vm.value;
    assert PublishedFaithfully(c, ws[i].store, ws[i].log, ws[i].made, vm.backup.current.value);
    assert PendingFaithful(c, vm, vm.backup.pending.value, ws[i].store, ws[i].made);
  }

  /** The same for an interrupted creation. */
  lemma InterruptedCreationConverges(c: Site, ws: seq<World>, es: seq<Event>, i: nat)
    requires Run(c, ws, es) && i < |ws|
    requires ws[i].vm.Some? && ws[i].vm.value.state != Deleting && ws[i].vm.value.backup.pending.Some?
    requires ws[i].vm.value.backup.pending.value.request.action == Create
    ensures var s := ws[i].store;
            var p := ws[i].vm.value.backup.pending.value;
            && StagedCreate(c.vm, c.backend, At(c.backend, s, p.artifact.id), p, s.disk.image)
            && (s.disk.image.bytes > 0 ==>
                 (CreateReady(c.vm, c.backend, s, p) <==>
                    && s.dependencies == p.artifact.dependencies
                    && (c.backend == Reflink ==> Preparable(c.vm, s, p.artifact.id))))
  {
    RunInv(c, ws, es, i);
    assert PendingFaithful(c, ws[i].vm.value, ws[i].vm.value.backup.pending.value, ws[i].store, ws[i].made);
  }

  /**
   That crash is one of the permitted outcomes of a restore attempt, and from there no
   further attempt ever changes anything or succeeds, nor can the directory be removed.
   */
  lemma TornAdoptionNeverConverges(vm: VmId, s: Store, p: Pending, source: Generation, src: Image)
    requires p.artifact.id !in s.directories && p.artifact.backend == Reflink
    requires s.disk.identity == p.diskIdentity
    ensures var torn := TornAdoption(s, p.artifact.id);
            && RestoreEffect(vm, Reflink, s, torn, p, source, src, Err(StorageFault))
            && !Preparable(vm, torn, p.artifact.id)
            && !Removable(vm, torn, p.artifact)
            && forall s1, r :: RestoreEffect(vm, Reflink, torn, s1, p, source, src, r) ==> s1 == torn && r.Err?
  {
  }

  /** A stray file abandoned next to the manifest does not stop a restore, but it stops removal. */
  lemma StrayFilesBlockOnlyRemoval(vm: VmId, s: Store, g: Generation)
    requires g.backend == Reflink && g.id in s.directories
    requires s.directories[g.id].owner == Some(Owner(vm, g.id)) && s.directories[g.id].strays > 0
    ensures Preparable(vm, s, g.id) && !Removable(vm, s, g)
  {
  }
}
