/**
 Guest addresses and published host ports: the numbering scheme of the bridge network, the
 search for an unused address, and the allocation of host ports.
 */
module Network {
  import opened Model

  const ADDRESS_LIMIT: nat := 65000
  const BRIDGE: Ip := Ip(0, 1)

  /** Addresses before the numbering repeats: 256 blocks of 254. */
  const PERIOD: nat := 256 * 254

  /** `vm_ip`. */
  function VmIp(index: nat): Ip {
    var n := index + 1;
    Ip((n / 254) % 256, n % 254 + 1)
  }

  /** No address ends in 0 or 255, and every block number fits an octet. */
  lemma AddressesAreUsable(index: nat)
    ensures VmIp(index).Ip? && VmIp(index).hi <= 255 && 1 <= VmIp(index).lo <= 254
  {
  }

  /** Position of an address in the numbering. */
  lemma AddressDeterminesPosition(index: nat)
    ensures 254 * VmIp(index).hi + VmIp(index).lo - 1 == (index + 1) % PERIOD
  {
  }

  lemma Remainder(n: nat, q: nat, r: nat)
    requires n == PERIOD * q + r && r < PERIOD
    ensures n % PERIOD == r
  {
  }

  /** Two indices share an address exactly if they lie a whole period apart. */
  lemma AddressesRepeatOnlyByPeriod(i: nat, j: nat)
    ensures VmIp(i) == VmIp(j) <==> (i + 1) % PERIOD == (j + 1) % PERIOD
  {
    AddressDeterminesPosition(i);
    AddressDeterminesPosition(j);
    var a := VmIp(i);
    var b := VmIp(j);
    if 254 * a.hi + a.lo == 254 * b.hi + b.lo {
      assert a.hi == b.hi;
    }
  }

  /** The bridge address is first hit by index 65023, and never by a smaller one. */
  lemma BridgeIsHitOnlyByPeriod(index: nat)
    ensures VmIp(index) == BRIDGE <==> (index + 1) % PERIOD == 0
    ensures index < 65023 ==> VmIp(index) != BRIDGE
    ensures VmIp(65023) == BRIDGE
  {
    AddressDeterminesPosition(index);
    if index < 65023 { Remainder(index + 1, 0, index + 1); }
  }

  lemma AddressesBelowThePeriodAreDistinct(i: nat, j: nat)
    requires i < j < 65023
    ensures VmIp(i) != VmIp(j)
  {
  }

  function UsedAddresses(vms: seq<Vm>): set<Ip> { set vm | vm in vms :: vm.ip }

  lemma {:induction false} FewAddressesAreUsed(vms: seq<Vm>)
    ensures |UsedAddresses(vms)| <= |vms|
    decreases |vms|
  {
    if vms != [] {
      FewAddressesAreUsed(vms[1..]);
      assert vms == [vms[0]] + vms[1..];
      assert UsedAddresses(vms) == {vms[0].ip} + UsedAddresses(vms[1..]);
    }
  }

  /** If the first `n` addresses are all used, at least `n` addresses are used. */
  lemma {:induction false} Pigeonhole(used: set<Ip>, n: nat)
    requires n <= 65023
    requires forall k: nat :: k < n ==> VmIp(k) in used
    ensures |used| >= n
  {
    if n > 0 {
      var rest := used - {VmIp(n - 1)};
      forall k: nat | k < n - 1 ensures VmIp(k) in rest {
        AddressesBelowThePeriodAreDistinct(k, n - 1);
      }
      Pigeonhole(rest, n - 1);
    }
  }

  predicate FirstUnused(used: set<Ip>, index: nat) {
    VmIp(index) !in used && forall k: nat :: k < index ==> VmIp(k) in used
  }

  /** The address search of `create_vm`: below the VM limit it never runs out. */
  method FindAddress(vms: seq<Vm>) returns (r: Result<Ip>)
    ensures r.Ok? ==>
              exists index: nat ::
                index < ADDRESS_LIMIT && FirstUnused(UsedAddresses(vms), index) && r.value == VmIp(index)
    ensures r.Ok? ==> r.value != BRIDGE && r.value.Ip? && forall vm :: vm in vms ==> vm.ip != r.value
    ensures |vms| < ADDRESS_LIMIT ==> r.Ok?
    ensures r.Err? ==> r.error == AddressesExhausted
  {
    var used := UsedAddresses(vms);
    for index := 0 to ADDRESS_LIMIT
      invariant forall k: nat :: k < index ==> VmIp(k) in used
    {
      if VmIp(index) !in used {
        BridgeIsHitOnlyByPeriod(index);
        assert FirstUnused(used, index);
        return Ok(VmIp(index));
      }
    }
    FewAddressesAreUsed(vms);
    Pigeonhole(used, ADDRESS_LIMIT);
    r := Err(AddressesExhausted);
  }

  // ---- host ports ----

  function UsedPorts(vms: seq<Vm>): set<u16> { set vm, g | vm in vms && g in vm.portMap :: vm.portMap[g] }

  /** Usable host ports from `lo` up to, but not including, `end`. */
  function FreePorts(used: set<u16>, available: set<u16>, lo: u16, end: nat): set<u16> {
    set p | p in available && lo <= p < end && p !in used
  }

  predicate Injective(m: map<u16, u16>) {
    forall g, h :: g in m && h in m && g != h ==> m[g] != m[h]
  }

  lemma ElementsStep(ports: seq<u16>, k: nat)
    requires k < |ports|
    ensures PortSet(ports[..k + 1]) == PortSet(ports[..k]) + {ports[k]}
    ensures PortSet(ports[..k + 1]) <= PortSet(ports)
  {
  }

  lemma FreeGrows(used: set<u16>, available: set<u16>, lo: u16, end: u16)
    requires lo <= end
    ensures FreePorts(used, available, lo, end + 1) ==
            FreePorts(used, available, lo, end) + (if end in available && end !in used then {end} else {})
    ensures end !in FreePorts(used, available, lo, end)
  {
  }

  /**
   `allocate_ports`: succeeds exactly if the range holds enough usable ports for the distinct
   guest ports, and then maps each of them to a host port that nobody else has.
   */
  method AllocatePorts(vms: seq<Vm>, ports: seq<u16>, lo: u16, hi: u16, available: set<u16>)
    returns (r: Result<map<u16, u16>>)
    requires lo <= hi
    ensures r.Ok? <==> |FreePorts(UsedPorts(vms), available, lo, hi + 1)| >= |PortSet(ports)|
    ensures r.Ok? ==>
              && r.value.Keys == PortSet(ports)
              && Injective(r.value)
              && forall g :: g in r.value ==> r.value[g] in FreePorts(UsedPorts(vms), available, lo, hi + 1)
    ensures r.Err? ==> r.error == PortsExhausted
  {
    var used := UsedPorts(vms);
    var next: nat := lo;
    var result: map<u16, u16> := map[];
    for k := 0 to |ports|
      invariant lo <= next <= hi + 1
      invariant result.Keys == PortSet(ports[..k])
      invariant Assigned(result, FreePorts(used, available, lo, next))
    {
      var guest := ports[k];
      ElementsStep(ports, k);
      if guest !in result {
        var found;
        found, next, result := Assign(result, guest, used, available, lo, hi, next);
        if !found {
          Exhausted(result, FreePorts(used, available, lo, hi + 1), PortSet(ports), guest);
          return Err(PortsExhausted);
        }
      }
    }
    assert ports[..|ports|] == ports;
    Enough(result, FreePorts(used, available, lo, next), FreePorts(used, available, lo, hi + 1));
    r := Ok(result);
  }

  /** Every port of `free` is assigned, to one guest port. */
  ghost predicate Assigned(m: map<u16, u16>, free: set<u16>) {
    && Injective(m)
    && (forall g :: g in m ==> m[g] in free)
    && |m.Keys| == |free|
  }

  lemma AssignedGrows(m: map<u16, u16>, free: set<u16>, guest: u16, port: u16)
    requires Assigned(m, free) && port !in free && guest !in m
    ensures Assigned(m[guest := port], free + {port})
  {
  }

  /** The next usable port goes to `guest`, unless the range is used up. */
  method Assign(m: map<u16, u16>, guest: u16, used: set<u16>, available: set<u16>, lo: u16, hi: u16, from: nat)
    returns (found: bool, next: nat, m1: map<u16, u16>)
    requires lo <= from <= hi + 1 && guest !in m
    requires Assigned(m, FreePorts(used, available, lo, from))
    ensures from <= next <= hi + 1 && (found ==> next > 0)
    ensures m1 == if found then m[guest := next - 1] else m
    ensures Assigned(m1, FreePorts(used, available, lo, if found then next else hi + 1))
  {
    next := NextFree(used, available, lo, hi, from);
    if next > hi { return false, next, m; }
    GrownByOne(m, guest, used, available, lo, next);
    return true, next + 1, m[guest := next];
  }

  lemma GrownByOne(m: map<u16, u16>, guest: u16, used: set<u16>, available: set<u16>, lo: u16, port: u16)
    requires lo <= port && port in available && port !in used && guest !in m
    requires Assigned(m, FreePorts(used, available, lo, port))
    ensures Assigned(m[guest := port], FreePorts(used, available, lo, port + 1))
  {
    FreeGrows(used, available, lo, port);
    AssignedGrows(m, FreePorts(used, available, lo, port), guest, port);
  }

  /** If every free port is assigned and a guest port is left over, there are too few. */
  lemma Exhausted(m: map<u16, u16>, free: set<u16>, wanted: set<u16>, guest: u16)
    requires Assigned(m, free) && m.Keys <= wanted && guest in wanted && guest !in m
    ensures |free| < |wanted|
  {
    CardinalityGrows(m.Keys, wanted, guest);
  }

  lemma Enough(m: map<u16, u16>, free: set<u16>, all: set<u16>)
    requires Assigned(m, free) && free <= all
    ensures |all| >= |m.Keys| && forall g :: g in m ==> m[g] in all
  {
    CardinalityMonotone(free, all);
  }

  /** One step of the lazy filter over the port range. */
  method NextFree(used: set<u16>, available: set<u16>, lo: u16, hi: u16, from: nat) returns (next: nat)
    requires lo <= from <= hi + 1
    ensures from <= next <= hi + 1
    ensures FreePorts(used, available, lo, next) == FreePorts(used, available, lo, from)
    ensures next <= hi ==> next in available && next !in used
  {
    next := from;
    while next <= hi && (next in used || next !in available)
      invariant from <= next <= hi + 1
      invariant FreePorts(used, available, lo, next) == FreePorts(used, available, lo, from)
    {
      FreeGrows(used, available, lo, next);
      next := next + 1;
    }
  }

  lemma {:induction false} CardinalityMonotone(a: set<u16>, b: set<u16>)
    requires a <= b
    ensures |a| <= |b|
  {
    if a != {} {
      var x :| x in a;
      CardinalityMonotone(a - {x}, b - {x});
    }
  }

  lemma CardinalityGrows(a: set<u16>, b: set<u16>, x: u16)
    requires a <= b && x in b && x !in a
    ensures |a| < |b|
  {
    CardinalityMonotone(a, b - {x});
  }

  /** Every map is injective and within the range, and no two VMs share a host port. */
  ghost predicate PortsUnique(vms: seq<Vm>, lo: u16, hi: u16) {
    && (forall i :: 0 <= i < |vms| ==> Injective(vms[i].portMap))
    && (forall i, g :: 0 <= i < |vms| && g in vms[i].portMap ==> lo <= vms[i].portMap[g] <= hi)
    && (forall i, j, g, h :: 0 <= i < j < |vms| && g in vms[i].portMap && h in vms[j].portMap ==>
          vms[i].portMap[g] != vms[j].portMap[h])
  }
}
