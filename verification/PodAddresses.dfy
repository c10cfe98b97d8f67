/** The ledger that hands every app its pod's address (agent/guestagent/converge.go).
  *
  * A private app's address is a slot of the node's pool. The ledger is the previous routing
  * table: an app it names keeps its address, and an app it does not name takes the lowest slot
  * that nobody holds, in this pass or in the ledger.
  */
module PodAddresses {
  import opened Options

  type Address = string

  datatype Error = NoPool | PoolFull

  const LOOPBACK: Address := "127.0.0.1"

  // .1 is the network's gateway, so the slots run from .2 to .254.
  const FIRST_SLOT: nat := 2
  const SLOT_END: nat := 255

  datatype Container = Container(name: string, text: string)

  datatype Manifest = Manifest(
    name: string,
    hostNetwork: bool,
    podText: string,
    containers: seq<Container>)

  // One app of the routing table, as far as addressing reads it.
  datatype Entry = Entry(name: string, address: Address)

  // ---------------------------------------------------------------- addresses

  function Decimal(n: nat): (s: string)
    ensures |s| >= 1
    ensures |s| == 1 <==> n < 10
  {
    if n < 10 then ["0123456789"[n]] else Decimal(n / 10) + ["0123456789"[n % 10]]
  }

  function Slot(pool: string, host: nat): Address {
    pool + "." + Decimal(host)
  }

  // The number these digits are read as.
  function Value(digits: string): int {
    if digits == "" then 0 else 10 * Value(digits[..|digits| - 1]) + (digits[|digits| - 1] as int - '0' as int)
  }

  /** The address is the pool's, and its last part reads as this number, with no zero in front. */
  predicate IsHost(a: Address, pool: string, host: nat) {
    && |a| > |pool| + 1 && a[..|pool|] == pool && a[|pool|] == '.'
    && var last := a[|pool| + 1..];
    && (forall c | c in last :: '0' <= c <= '9')
    && Value(last) == host && (last[0] == '0' ==> host == 0)
  }

  lemma {:induction false} DecimalReads(n: nat)
    ensures Value(Decimal(n)) == n
    ensures forall c | c in Decimal(n) :: '0' <= c <= '9'
    ensures Decimal(n)[0] == '0' ==> n == 0
  {
    var d := Decimal(n);
    if n >= 10 {
      assert d[..|d| - 1] == Decimal(n / 10);
      DecimalReads(n / 10);
    } else {
      assert d[..0] == "";
    }
  }

  /** A slot is the pool's address of that number: .2 is the first, and none is .1, the gateway's. */
  lemma {:induction false} SlotReads(pool: string, host: nat)
    ensures IsHost(Slot(pool, host), pool, host)
    ensures Slot(pool, 2) == pool + ".2"
    ensures 2 <= host ==> Slot(pool, host) != pool + ".1"
  {
    DecimalReads(host);
    assert Slot(pool, host)[|pool| + 1..] == Decimal(host);
    if Slot(pool, host) == pool + ".1" { SlotInjective(pool, host, 1); }
  }

  predicate InPool(pool: string, a: Address) {
    pool + "." <= a
  }

  lemma {:induction false} DecimalInjective(a: nat, b: nat)
    requires Decimal(a) == Decimal(b)
    ensures a == b
  {
    assert Decimal(a)[|Decimal(a)| - 1] == "0123456789"[a % 10];
    assert Decimal(b)[|Decimal(b)| - 1] == "0123456789"[b % 10];
    if a >= 10 {
      assert Decimal(a)[..|Decimal(a)| - 1] == Decimal(a / 10);
      assert Decimal(b)[..|Decimal(b)| - 1] == Decimal(b / 10);
      DecimalInjective(a / 10, b / 10);
    }
  }

  lemma {:induction false} SlotInjective(pool: string, a: nat, b: nat)
    requires Slot(pool, a) == Slot(pool, b)
    ensures a == b
  {
    var k := |pool + "."|;
    assert Slot(pool, a)[k..] == Decimal(a) && Slot(pool, b)[k..] == Decimal(b);
    DecimalInjective(a, b);
  }

  // ---------------------------------------------------------------- the ledger

  // What a table remembers: the address of every app that has one; of two rows for one name,
  // the later.
  function Ledger(table: seq<Entry>): map<string, Address> {
    if table == [] then map[]
    else
      var last := table[|table| - 1];
      var before := Ledger(table[..|table| - 1]);
      if last.address == "" then before else before[last.name := last.address]
  }

  predicate Free(pool: string, taken: set<Address>, known: map<string, Address>, host: nat) {
    Slot(pool, host) !in taken && Slot(pool, host) !in known.Values
  }

  predicate Keeps(pool: string, taken: set<Address>, known: map<string, Address>, m: Manifest) {
    m.name in known && InPool(pool, known[m.name]) && known[m.name] !in taken
  }

  ghost predicate LowestFree(pool: string, taken: set<Address>, known: map<string, Address>, host: nat) {
    && 2 <= host <= 254
    && Free(pool, taken, known, host)
    && forall h :: 2 <= h < host ==> !Free(pool, taken, known, h)
  }

  /** What one request must answer, given what this pass has handed out so far. */
  ghost predicate Answers(pool: string, taken: set<Address>, known: map<string, Address>, m: Manifest,
                    r: Result<Address, Error>)
  {
    if m.hostNetwork then r == Ok("127.0.0.1")
    else if pool == "" then r == Err(NoPool)
    else if Keeps(pool, taken, known, m) then r == Ok(known[m.name])
    else match r
      case Ok(a) => exists h :: LowestFree(pool, taken, known, h) && a == Slot(pool, h)
      case Err(e) => e == PoolFull && forall h :: 2 <= h <= 254 ==> !Free(pool, taken, known, h)
  }

  lemma {:induction false} AnswersUnique(pool: string, taken: set<Address>, known: map<string, Address>, m: Manifest,
                      r: Result<Address, Error>, r': Result<Address, Error>)
    requires Answers(pool, taken, known, m, r) && Answers(pool, taken, known, m, r')
    ensures r == r'
  {
    if r.Ok? && r'.Ok? && !m.hostNetwork && !Keeps(pool, taken, known, m) {
      var h :| LowestFree(pool, taken, known, h) && r.value == Slot(pool, h);
      var h' :| LowestFree(pool, taken, known, h') && r'.value == Slot(pool, h');
      assert Free(pool, taken, known, h) && Free(pool, taken, known, h');
    }
  }

  class Allocator {
    const pool: string              // the first three octets; "" when the host drew none
    var taken: set<Address>         // handed out in this pass
    var known: map<string, Address> // the previous table, by app

    constructor (pool: string, table: seq<Entry>)
      ensures this.pool == pool
      ensures taken == {}
      ensures known == Ledger(table)
    {
      this.pool := pool;
      taken := {};
      known := map[];
      new;
      for i := 0 to |table|
        invariant taken == {}
        invariant known == Ledger(table[..i])
      {
        assert table[..i + 1][..i] == table[..i];
        if table[i].address != "" {
          known := known[table[i].name := table[i].address];
        }
      }
      assert table[..|table|] == table;
    }

    predicate InUse(addr: Address)
      reads this`known
    {
      addr in known.Values
    }

    method AddressFor(m: Manifest) returns (r: Result<Address, Error>)
      modifies this`taken
      ensures Answers(pool, old(taken), known, m, r)
      ensures taken == old(taken) + (if r.Ok? && !m.hostNetwork then {r.value} else {})
    {
      if m.hostNetwork {
        return Ok(LOOPBACK);
      }
      if pool == "" {
        return Err(NoPool);
      }
      if m.name in known && InPool(pool, known[m.name]) && known[m.name] !in taken {
        taken := taken + {known[m.name]};
        return Ok(known[m.name]);
      }
      for host := FIRST_SLOT to SLOT_END
        invariant taken == old(taken)
        invariant forall h :: FIRST_SLOT <= h < host ==> !Free(pool, taken, known, h)
      {
        var addr := Slot(pool, host);
        if addr !in taken && !InUse(addr) {
          assert LowestFree(pool, taken, known, host);
          taken := taken + {addr};
          return Ok(addr);
        }
      }
      return Err(PoolFull);
    }
  }

  // ---------------------------------------------------------------- one pass

  function PrivateAddresses(ms: seq<Manifest>, addrs: seq<Address>): set<Address>
    requires |addrs| <= |ms|
  {
    set i | 0 <= i < |addrs| && !ms[i].hostNetwork :: addrs[i]
  }

  /** One pass over the apps, in whatever order they come: every app answered against what the
    * apps before it were given. */
  ghost predicate Pass(pool: string, known: map<string, Address>, ms: seq<Manifest>, addrs: seq<Address>) {
    && |addrs| <= |ms|
    && forall i :: 0 <= i < |addrs| ==>
         Answers(pool, PrivateAddresses(ms, addrs[..i]), known, ms[i], Ok(addrs[i]))
  }

  ghost predicate PassFails(pool: string, known: map<string, Address>, ms: seq<Manifest>, addrs: seq<Address>, e: Error) {
    && Pass(pool, known, ms, addrs)
    && |addrs| < |ms|
    && Answers(pool, PrivateAddresses(ms, addrs), known, ms[|addrs|], Err(e))
  }

  lemma {:induction false} PrivateAddressesExtend(ms: seq<Manifest>, addrs: seq<Address>, a: Address)
    requires |addrs| < |ms|
    ensures PrivateAddresses(ms, addrs + [a])
         == PrivateAddresses(ms, addrs) + (if ms[|addrs|].hostNetwork then {} else {a})
  {
    var longer := addrs + [a];
    forall x | x in PrivateAddresses(ms, addrs)
      ensures x in PrivateAddresses(ms, longer)
    {
      var i :| 0 <= i < |addrs| && !ms[i].hostNetwork && addrs[i] == x;
      assert longer[i] == x;
    }
    assert longer[|addrs|] == a;
  }

  method AddressAll(alloc: Allocator, ms: seq<Manifest>) returns (addrs: seq<Address>, err: Option<Error>)
    requires alloc.taken == {}
    modifies alloc`taken
    ensures Pass(alloc.pool, alloc.known, ms, addrs)
    ensures err.None? ==> |addrs| == |ms|
    ensures err.Some? ==> PassFails(alloc.pool, alloc.known, ms, addrs, err.value)
  {
    addrs := [];
    assert PrivateAddresses(ms, []) == {};
    for i := 0 to |ms|
      invariant |addrs| == i
      invariant alloc.taken == PrivateAddresses(ms, addrs)
      invariant Pass(alloc.pool, alloc.known, ms, addrs)
    {
      var r := alloc.AddressFor(ms[i]);
      if r.Err? {
        return addrs, Some(r.error);
      }
      PrivateAddressesExtend(ms, addrs, r.value);
      var longer := addrs + [r.value];
      assert longer[..i] == addrs;
      assert forall j :: 0 <= j < i ==> longer[..j] == addrs[..j];
      addrs := longer;
    }
    err := None;
  }

  lemma {:induction false} PassUnique(pool: string, known: map<string, Address>, ms: seq<Manifest>, as1: seq<Address>, as2: seq<Address>)
    requires Pass(pool, known, ms, as1) && Pass(pool, known, ms, as2) && |as1| == |as2|
    ensures as1 == as2
  {
    for i := 0 to |as1|
      invariant as1[..i] == as2[..i]
    {
      AnswersUnique(pool, PrivateAddresses(ms, as1[..i]), known, ms[i], Ok(as1[i]), Ok(as2[i]));
      assert as1[..i + 1] == as1[..i] + [as1[i]];
      assert as2[..i + 1] == as2[..i] + [as2[i]];
    }
  }

  /** Whatever the ledger says, no two private apps of one pass share an address. */
  lemma {:induction false} PassIsDistinct(pool: string, known: map<string, Address>, ms: seq<Manifest>, addrs: seq<Address>, i: nat, j: nat)
    requires Pass(pool, known, ms, addrs)
    requires i < j < |addrs| && !ms[i].hostNetwork && !ms[j].hostNetwork
    ensures addrs[i] != addrs[j]
  {
    var taken := PrivateAddresses(ms, addrs[..j]);
    assert addrs[..j][i] in taken;
    assert Answers(pool, taken, known, ms[j], Ok(addrs[j]));
  }

  /** Every private app's address is in the pool. */
  lemma {:induction false} PassIsInPool(pool: string, known: map<string, Address>, ms: seq<Manifest>, addrs: seq<Address>, i: nat)
    requires Pass(pool, known, ms, addrs) && i < |addrs| && !ms[i].hostNetwork
    ensures InPool(pool, addrs[i])
  {
    assert Answers(pool, PrivateAddresses(ms, addrs[..i]), known, ms[i], Ok(addrs[i]));
  }

  // No two apps of the ledger share an in-pool address.
  predicate Injective(pool: string, known: map<string, Address>) {
    forall n, n' :: n in known && n' in known && n != n' && InPool(pool, known[n]) ==> known[n] != known[n']
  }

  predicate DistinctNames(ms: seq<Manifest>) {
    forall i, j :: 0 <= i < j < |ms| ==> ms[i].name != ms[j].name
  }

  /** A private app the ledger names keeps its address, wherever it comes in the order and
    * whatever new apps come before it. */
  lemma {:induction false} PassKeeps(pool: string, known: map<string, Address>, ms: seq<Manifest>, addrs: seq<Address>, i: nat)
    requires Pass(pool, known, ms, addrs) && DistinctNames(ms) && Injective(pool, known)
    requires i < |addrs| && !ms[i].hostNetwork
    requires ms[i].name in known && InPool(pool, known[ms[i].name])
    ensures addrs[i] == known[ms[i].name]
  {
    var taken := PrivateAddresses(ms, addrs[..i]);
    var mine := known[ms[i].name];
    forall k | 0 <= k < i && !ms[k].hostNetwork
      ensures addrs[k] != mine
    {
      // An earlier app either kept its own address or took a slot the ledger does not hold.
      assert Answers(pool, PrivateAddresses(ms, addrs[..k]), known, ms[k], Ok(addrs[k]));
    }
    assert Answers(pool, taken, known, ms[i], Ok(addrs[i]));
  }

  /** A private app the ledger does not name takes the lowest slot that no app of the ledger
    * holds and no earlier app of this pass was given. */
  lemma {:induction false} NewAppTakesLowestSlot(pool: string, known: map<string, Address>, ms: seq<Manifest>, addrs: seq<Address>, i: nat)
    requires Pass(pool, known, ms, addrs)
    requires i < |addrs| && !ms[i].hostNetwork && ms[i].name !in known
    ensures exists h :: LowestFree(pool, PrivateAddresses(ms, addrs[..i]), known, h) && IsHost(addrs[i], pool, h)
    ensures addrs[i] != pool + ".1"
  {
    assert Answers(pool, PrivateAddresses(ms, addrs[..i]), known, ms[i], Ok(addrs[i]));
    var h :| LowestFree(pool, PrivateAddresses(ms, addrs[..i]), known, h) && addrs[i] == Slot(pool, h);
    SlotReads(pool, h);
  }

  // ---------------------------------------------------------------- when the pool runs out

  function Slots(pool: string, n: nat): (s: set<Address>)
  {
    set h | FIRST_SLOT <= h < FIRST_SLOT + n :: Slot(pool, h)
  }

  lemma {:induction false} SlotCount(pool: string, n: nat)
    ensures |Slots(pool, n)| == n
  {
    if n > 0 {
      SlotCount(pool, n - 1);
      var last := Slot(pool, FIRST_SLOT + (n - 1));
      if last in Slots(pool, n - 1) {
        var h :| FIRST_SLOT <= h < FIRST_SLOT + (n - 1) && Slot(pool, h) == last;
        SlotInjective(pool, h, FIRST_SLOT + (n - 1));
      }
      assert Slots(pool, n) == Slots(pool, n - 1) + {last};
    } else {
      assert Slots(pool, 0) == {};
    }
  }

  lemma {:induction false} SubsetCount<T>(a: set<T>, b: set<T>)
    requires a <= b
    ensures |a| <= |b|
  {
    assert b == a + (b - a);
  }

  lemma {:induction false} ImageCount(known: map<string, Address>)
    ensures |known.Values| <= |known|
  {
    if known != map[] {
      var n :| n in known;
      var rest := known - {n};
      ImageCount(rest);
      assert known.Keys == rest.Keys + {n};
      assert known.Values <= rest.Values + {known[n]} by {
        forall v | v in known.Values ensures v in rest.Values + {known[n]} {
          var k :| k in known && known[k] == v;
          if k != n { assert k in rest && rest[k] == v; }
        }
      }
      SubsetCount(known.Values, rest.Values + {known[n]});
    }
  }

  lemma {:induction false} PrivateCount(ms: seq<Manifest>, addrs: seq<Address>)
    requires |addrs| <= |ms|
    ensures |PrivateAddresses(ms, addrs)| <= |addrs|
  {
    if addrs == [] {
      assert PrivateAddresses(ms, addrs) == {};
    } else {
      var n := |addrs| - 1;
      PrivateCount(ms, addrs[..n]);
      PrivateAddressesExtend(ms, addrs[..n], addrs[n]);
      assert addrs == addrs[..n] + [addrs[n]];
    }
  }

  /** The pool is refused as full only when the ledger and the apps before this one really hold
    * all 253 slots between them. */
  lemma {:induction false} FullMeansFull(pool: string, known: map<string, Address>, ms: seq<Manifest>, addrs: seq<Address>)
    requires PassFails(pool, known, ms, addrs, PoolFull)
    ensures |known| + |addrs| >= SLOT_END - FIRST_SLOT
  {
    var taken := PrivateAddresses(ms, addrs);
    var all := Slots(pool, SLOT_END - FIRST_SLOT);
    forall a | a in all ensures a in taken + known.Values {
      var h :| FIRST_SLOT <= h < SLOT_END && a == Slot(pool, h);
      assert !Free(pool, taken, known, h);
    }
    SlotCount(pool, SLOT_END - FIRST_SLOT);
    SubsetCount(all, taken + known.Values);
    ImageCount(known);
    PrivateCount(ms, addrs);
  }

  // ---------------------------------------------------------------- the table a pass writes

  function TableOf(ms: seq<Manifest>, addrs: seq<Address>): (t: seq<Entry>)
    requires |addrs| == |ms|
    ensures |t| == |ms|
    ensures forall i :: 0 <= i < |t| ==> t[i] == Entry(ms[i].name, addrs[i])
  {
    seq(|ms|, i requires 0 <= i < |ms| => Entry(ms[i].name, addrs[i]))
  }

  lemma {:induction false} LedgerRemembers(table: seq<Entry>, i: nat)
    requires i < |table| && table[i].address != ""
    requires forall j, k :: 0 <= j < k < |table| ==> table[j].name != table[k].name
    ensures table[i].name in Ledger(table) && Ledger(table)[table[i].name] == table[i].address
  {
    var n := |table| - 1;
    if i < n {
      LedgerRemembers(table[..n], i);
    }
  }

  lemma {:induction false} LedgerOnlyRemembers(table: seq<Entry>, name: string)
    requires name in Ledger(table)
    ensures exists i :: 0 <= i < |table| && table[i] == Entry(name, Ledger(table)[name])
  {
    var n := |table| - 1;
    if table[n].address != "" && table[n].name == name {
      assert table[n] == Entry(name, Ledger(table)[name]);
    } else {
      LedgerOnlyRemembers(table[..n], name);
    }
  }

  lemma {:induction false} AddressNotEmpty(pool: string, known: map<string, Address>, ms: seq<Manifest>, addrs: seq<Address>, i: nat)
    requires Pass(pool, known, ms, addrs) && i < |addrs|
    ensures addrs[i] != ""
  {
    assert Answers(pool, PrivateAddresses(ms, addrs[..i]), known, ms[i], Ok(addrs[i]));
  }

  /** The table a pass writes is again a ledger in which no in-pool address is held twice. */
  lemma {:induction false} TableIsInjective(pool: string, known: map<string, Address>, ms: seq<Manifest>, addrs: seq<Address>)
    requires Pass(pool, known, ms, addrs) && |addrs| == |ms| && DistinctNames(ms)
    requires !InPool(pool, LOOPBACK)
    ensures Injective(pool, Ledger(TableOf(ms, addrs)))
  {
    var table := TableOf(ms, addrs);
    var led := Ledger(table);
    forall n, n' | n in led && n' in led && n != n' && InPool(pool, led[n])
      ensures led[n] != led[n']
    {
      LedgerOnlyRemembers(table, n);
      LedgerOnlyRemembers(table, n');
      var i :| 0 <= i < |table| && table[i] == Entry(n, led[n]);
      var j :| 0 <= j < |table| && table[j] == Entry(n', led[n']);
      assert Answers(pool, PrivateAddresses(ms, addrs[..i]), known, ms[i], Ok(addrs[i]));
      assert Answers(pool, PrivateAddresses(ms, addrs[..j]), known, ms[j], Ok(addrs[j]));
      if !ms[j].hostNetwork {
        if i < j { PassIsDistinct(pool, known, ms, addrs, i, j); }
        else { PassIsDistinct(pool, known, ms, addrs, j, i); }
      }
    }
  }

  // ---------------------------------------------------------------- every pass since boot

  /** The tables of one boot: none at first, then after each converge either the table its pass
    * wrote or, when the pass failed, the table it found. */
  ghost predicate BootHistory(pool: string, volumes: seq<seq<Manifest>>, tables: seq<seq<Entry>>) {
    && |tables| == |volumes| + 1
    && tables[0] == []
    && forall k :: 0 <= k < |volumes| ==>
         && DistinctNames(volumes[k])
         && (tables[k + 1] == tables[k] || Wrote(pool, tables[k], volumes[k], tables[k + 1]))
  }

  ghost predicate Wrote(pool: string, before: seq<Entry>, ms: seq<Manifest>, after: seq<Entry>) {
    exists addrs :: WroteWith(pool, before, ms, after, addrs)
  }

  ghost predicate WroteWith(pool: string, before: seq<Entry>, ms: seq<Manifest>, after: seq<Entry>, addrs: seq<Address>) {
    && |addrs| == |ms|
    && Pass(pool, Ledger(before), ms, addrs)
    && after == TableOf(ms, addrs)
  }

  /** Since boot, no table ever holds one in-pool address twice. */
  lemma {:induction false} EveryTableIsInjective(pool: string, volumes: seq<seq<Manifest>>, tables: seq<seq<Entry>>, k: nat)
    requires BootHistory(pool, volumes, tables) && k < |tables|
    requires !InPool(pool, LOOPBACK)
    ensures Injective(pool, Ledger(tables[k]))
  {
    if k > 0 {
      EveryTableIsInjective(pool, volumes, tables, k - 1);
      if tables[k] != tables[k - 1] {
        var addrs :| WroteWith(pool, tables[k - 1], volumes[k - 1], tables[k], addrs);
        TableIsInjective(pool, Ledger(tables[k - 1]), volumes[k - 1], addrs);
      }
    }
  }

  ghost predicate PrivateIn(ms: seq<Manifest>, name: string) {
    exists i :: 0 <= i < |ms| && ms[i].name == name && !ms[i].hostNetwork
  }

  lemma {:induction false} StableStep(pool: string, before: seq<Entry>, ms: seq<Manifest>, after: seq<Entry>, name: string)
    requires Wrote(pool, before, ms, after) && DistinctNames(ms)
    requires Injective(pool, Ledger(before))
    requires PrivateIn(ms, name)
    ensures name in Ledger(after) && InPool(pool, Ledger(after)[name])
    ensures name in Ledger(before) && InPool(pool, Ledger(before)[name]) ==> Ledger(after)[name] == Ledger(before)[name]
  {
    var addrs :| WroteWith(pool, before, ms, after, addrs);
    var i :| 0 <= i < |ms| && ms[i].name == name && !ms[i].hostNetwork;
    AddressNotEmpty(pool, Ledger(before), ms, addrs, i);
    LedgerRemembers(after, i);
    PassIsInPool(pool, Ledger(before), ms, addrs, i);
    if name in Ledger(before) && InPool(pool, Ledger(before)[name]) {
      PassKeeps(pool, Ledger(before), ms, addrs, i);
    }
  }

  /** STABILITY: from the converge that first addressed it on, an app that every later converge
    * renders with a private network has one address, whatever else is installed, removed or
    * renamed around it, and whichever converges fail. */
  lemma {:induction false} PrivateAppKeepsItsAddress(
    pool: string, volumes: seq<seq<Manifest>>, tables: seq<seq<Entry>>, name: string, from: nat, to: nat)
    requires BootHistory(pool, volumes, tables)
    requires !InPool(pool, LOOPBACK)
    requires from <= to < |tables|
    requires name in Ledger(tables[from]) && InPool(pool, Ledger(tables[from])[name])
    requires forall k :: from <= k < to ==> PrivateIn(volumes[k], name)
    ensures name in Ledger(tables[to]) && Ledger(tables[to])[name] == Ledger(tables[from])[name]
  {
    if from < to {
      PrivateAppKeepsItsAddress(pool, volumes, tables, name, from, to - 1);
      EveryTableIsInjective(pool, volumes, tables, to - 1);
      if tables[to] != tables[to - 1] {
        StableStep(pool, tables[to - 1], volumes[to - 1], tables[to], name);
      }
    }
  }
}
