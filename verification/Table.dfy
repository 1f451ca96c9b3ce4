/**
 The agent's table of VM records: rows are looked up, replaced, appended and deleted by
 name, and the host's resources are recounted from all of them.
 */
module Table {
  import opened Model

  ghost predicate UniqueIds(rows: seq<Vm>) {
    forall i, j :: 0 <= i < j < |rows| ==> rows[i].id != rows[j].id
  }

  /** Position of the first row of that name, or the length of the table. */
  function IndexOf(rows: seq<Vm>, id: VmId): (i: nat)
    ensures i <= |rows|
    ensures i < |rows| ==> rows[i].id == id
    ensures forall k :: 0 <= k < i ==> rows[k].id != id
    decreases |rows|
  {
    if rows == [] then 0 else if rows[0].id == id then 0 else 1 + IndexOf(rows[1..], id)
  }

  function Load(rows: seq<Vm>, id: VmId): (vm: Option<Vm>)
    ensures vm.Some? ==> vm.value in rows && vm.value.id == id
    ensures vm.None? ==> forall row :: row in rows ==> row.id != id
  {
    if IndexOf(rows, id) < |rows| then Some(rows[IndexOf(rows, id)]) else None
  }

  /** `save_vm`: insert or replace. */
  function Saved(rows: seq<Vm>, vm: Vm): seq<Vm> {
    var i := IndexOf(rows, vm.id);
    if i < |rows| then rows[i := vm] else rows + [vm]
  }

  function Deleted(rows: seq<Vm>, id: VmId): seq<Vm> {
    var i := IndexOf(rows, id);
    if i < |rows| then RemoveAt(rows, i) else rows
  }

  function RemoveAt<T>(s: seq<T>, i: nat): (r: seq<T>)
    requires i < |s|
    ensures |r| == |s| - 1
    ensures forall k :: 0 <= k < i ==> r[k] == s[k]
    ensures forall k :: i <= k < |r| ==> r[k] == s[k + 1]
  {
    s[..i] + s[i + 1..]
  }

  lemma IndexIs(rows: seq<Vm>, id: VmId, i: nat)
    requires i <= |rows|
    requires i < |rows| ==> rows[i].id == id
    requires forall k :: 0 <= k < i ==> rows[k].id != id
    ensures IndexOf(rows, id) == i
  {
  }

  /** Saving changes the row of that name and no other. */
  lemma LoadSaved(rows: seq<Vm>, vm: Vm, id: VmId)
    ensures Load(Saved(rows, vm), id) == if id == vm.id then Some(vm) else Load(rows, id)
  {
    var rows1 := Saved(rows, vm);
    var i := IndexOf(rows, vm.id);
    if id == vm.id {
      IndexIs(rows1, id, i);
    } else {
      var j := IndexOf(rows, id);
      if j < |rows| {
        IndexIs(rows1, id, j);
      } else {
        IndexIs(rows1, id, |rows1|);
      }
    }
  }

  lemma SavedKeepsIds(rows: seq<Vm>, vm: Vm)
    requires UniqueIds(rows)
    ensures UniqueIds(Saved(rows, vm))
    ensures |Saved(rows, vm)| == if Load(rows, vm.id).Some? then |rows| else |rows| + 1
  {
  }

  lemma DeletedKeepsIds(rows: seq<Vm>, gone: VmId)
    requires UniqueIds(rows)
    ensures UniqueIds(Deleted(rows, gone)) && |Deleted(rows, gone)| <= |rows|
    ensures forall row :: row in Deleted(rows, gone) ==> row in rows
  {
  }

  /** Deletion removes the row of that name and no other. */
  lemma LoadDeleted(rows: seq<Vm>, gone: VmId, id: VmId)
    requires UniqueIds(rows)
    ensures Load(Deleted(rows, gone), id) == if id == gone then None else Load(rows, id)
  {
    var rows1 := Deleted(rows, gone);
    var i := IndexOf(rows, gone);
    var j := IndexOf(rows, id);
    if i < |rows| {
      if id == gone || j == |rows| {
        IndexIs(rows1, id, |rows1|);
      } else {
        IndexIs(rows1, id, if j < i then j else j - 1);
      }
    }
  }

  lemma LoadAt(rows: seq<Vm>, i: nat)
    requires UniqueIds(rows) && i < |rows|
    ensures Load(rows, rows[i].id) == Some(rows[i])
  {
  }

  // ---- sums over the table ----

  lemma {:induction false} SumReplaced(rows: seq<Vm>, i: nat, vm: Vm)
    requires i < |rows|
    ensures SumDisk(rows[i := vm]) == SumDisk(rows) - TrueDisk(rows[i]) + TrueDisk(vm)
    decreases |rows|
  {
    var n := |rows| - 1;
    if i == n {
      assert rows[i := vm][..n] == rows[..n];
    } else {
      assert rows[i := vm][..n] == rows[..n][i := vm];
      SumReplaced(rows[..n], i, vm);
    }
  }

  lemma SumAppended(rows: seq<Vm>, vm: Vm)
    ensures SumDisk(rows + [vm]) == SumDisk(rows) + TrueDisk(vm)
  {
    assert (rows + [vm])[..|rows|] == rows;
  }

  lemma RemoveBeforeLast<T>(s: seq<T>, i: nat)
    requires i < |s| - 1
    ensures RemoveAt(s, i) == RemoveAt(s[..|s| - 1], i) + [s[|s| - 1]]
  {
  }

  lemma {:induction false} SumRemoved(rows: seq<Vm>, i: nat)
    requires i < |rows|
    ensures SumDisk(RemoveAt(rows, i)) == SumDisk(rows) - TrueDisk(rows[i])
    decreases |rows|
  {
    var n := |rows| - 1;
    if i == n {
      assert RemoveAt(rows, i) == rows[..n];
    } else {
      SumRemoved(rows[..n], i);
      RemoveBeforeLast(rows, i);
      SumAppended(RemoveAt(rows[..n], i), rows[n]);
    }
  }

  lemma SumSaved(rows: seq<Vm>, vm: Vm)
    ensures SumDisk(Saved(rows, vm)) ==
            SumDisk(rows) + TrueDisk(vm) - (if Load(rows, vm.id).Some? then TrueDisk(Load(rows, vm.id).value) else 0)
  {
    var i := IndexOf(rows, vm.id);
    if i < |rows| {
      SumReplaced(rows, i, vm);
    } else {
      SumAppended(rows, vm);
    }
  }

  lemma SumDeleted(rows: seq<Vm>, id: VmId)
    ensures SumDisk(Deleted(rows, id)) ==
            SumDisk(rows) - (if Load(rows, id).Some? then TrueDisk(Load(rows, id).value) else 0)
  {
    if IndexOf(rows, id) < |rows| { SumRemoved(rows, IndexOf(rows, id)); }
  }

  lemma {:induction false} RowWithinSum(rows: seq<Vm>, i: nat)
    requires i < |rows|
    ensures TrueDisk(rows[i]) <= SumDisk(rows)
    decreases |rows|
  {
    if i < |rows| - 1 { RowWithinSum(rows[..|rows| - 1], i); }
  }

  /** `Resource::account` folded over the table. */
  function Accounted(totals: Resource, rows: seq<Vm>): Resource
    decreases |rows|
  {
    if rows == [] then totals.Emptied()
    else Accounted(totals, rows[..|rows| - 1]).Account(rows[|rows| - 1])
  }

  /** `resources_for`. */
  method ResourcesFor(totals: Resource, rows: seq<Vm>) returns (resource: Resource)
    ensures resource == Accounted(totals, rows)
  {
    resource := totals.Emptied();
    for k := 0 to |rows|
      invariant resource == Accounted(totals, rows[..k])
    {
      assert rows[..k + 1][..k] == rows[..k];
      resource := resource.Account(rows[k]);
    }
    assert rows[..|rows|] == rows;
  }

  /**
   Up to saturation the recount reports the true sums: the disk and the slot of every record,
   and the CPU and memory of every VM that is not stopped.
   */
  lemma {:induction false} RecountIsCappedSum(totals: Resource, rows: seq<Vm>)
    ensures Accounted(totals, rows).diskUsed == Min(SumDisk(rows), U32_MAX)
    ensures Accounted(totals, rows).cpuUsed == Min(SumCpu(rows), U32_MAX)
    ensures Accounted(totals, rows).memUsed == Min(SumMem(rows), U32_MAX)
    ensures Accounted(totals, rows).vmCount == Min(|rows|, U32_MAX)
    ensures Accounted(totals, rows).diskTotal == totals.diskTotal
    ensures Accounted(totals, rows).cpuTotal == totals.cpuTotal && Accounted(totals, rows).memTotal == totals.memTotal
    decreases |rows|
  {
    if rows != [] {
      RecountIsCappedSum(totals, rows[..|rows| - 1]);
      ReservationIsCappedSum(rows[|rows| - 1]);
    }
  }
}
