/** The node's storage bring-up, run at every boot from a spec the host wrote
  * (agent/guestagent/nodestorage.go): LUKS, then LVM, then DRBD metadata.
  *
  * Any command may fail and the run may stop between any two of them, and the next boot runs the
  * same program on whatever the disk then holds.
  */
module NodeStorage {
  import opened Options

  // ---------------------------------------------------------------- the spec

  datatype Mode = ModeAuto | ModeOff | ModeAdiantum

  datatype Tier = Tier(name: string, device: string, vg: string, lv: string, metaLv: string, mode: Mode)

  datatype Spec = Spec(
    tiers: seq<Tier>,
    replicated: bool,
    convertDisable: bool,
    maxPeers: int,
    diskless: bool,
    freshInit: bool)

  const TIER_DATA := "data"

  function DataTier(spec: Spec): (r: Option<Tier>)
    ensures r.Some? ==> r.value in spec.tiers && r.value.name == "data"
    ensures r.None? ==> forall t | t in spec.tiers :: t.name != "data"
  {
    FindData(spec.tiers)
  }

  function FindData(tiers: seq<Tier>): (r: Option<Tier>)
    ensures r.Some? ==> r.value in tiers && r.value.name == TIER_DATA
    ensures r.None? ==> forall t | t in tiers :: t.name != TIER_DATA
  {
    if tiers == [] then None
    else if tiers[0].name == TIER_DATA then Some(tiers[0])
    else FindData(tiers[1..])
  }

  /** The rules a spec is refused by before anything is touched (shared/nodestorage). */
  predicate Valid(spec: Spec) {
    && (if spec.diskless then spec.replicated && spec.tiers == [] && !spec.freshInit
        else
          && spec.tiers != []
          && spec.maxPeers >= 1
          && (forall i, j | 0 <= i < j < |spec.tiers| :: spec.tiers[i].name != spec.tiers[j].name)
          && (forall i | 0 <= i < |spec.tiers| :: spec.tiers[i].lv != spec.tiers[i].metaLv)
          && (!spec.replicated ==> DataTier(spec).Some?)
          && (spec.convertDisable ==> !spec.replicated))
  }

  // ---------------------------------------------------------------- the disk

  // What an LV holds: nothing anybody wrote, a filesystem, or DRBD's own metadata. The numbers
  // are identities: making one anew gives a number nobody can predict.
  datatype Content = Scratch | Household(fs: int) | Drbd(md: int)

  datatype Vg = Vg(name: string, uuid: int, lvs: map<string, Content>, extents: map<string, nat>)

  // What vgs says of a VG over a device: the extent size in bytes, and how many there are.
  datatype Room = Room(extent: nat, total: nat)

  datatype Signature = NoSignature | Foreign | PvOnly | PvOf(vg: Vg)

  // LUKS has the signature inside it, and a token that holds the passphrase.
  datatype Disk = Raw(sig: Signature) | Luks(token: bool, sig: Signature)

  datatype Link = Down | Dialling | Quiet // a peer may be connected only while dialling

  // Mappings and LVs are found by name, whatever device is under them: a mapping is called after
  // its tier's VG, and an LV's node after the VG and the LV.
  datatype Machine = Machine(
    disks: map<string, Disk>,
    crypt: map<string, string>, // the VG a mapping is called after -> the device it is open on
    active: set<string>,         // devices whose VG is activated
    link: Link,
    declared: seq<bool>,         // every UpToDate declaration: was a peer connected?
    topology: Option<bool>)

  function VolumeOn(m: Machine, d: string): Option<Vg> {
    if d in m.disks && m.disks[d].sig.PvOf? then Some(m.disks[d].sig.vg) else None
  }

  predicate Carries(m: Machine, d: string, vg: string) {
    VolumeOn(m, d).Some? && VolumeOn(m, d).value.name == vg
  }

  predicate Mapped(m: Machine, d: string) {
    exists n | n in m.crypt :: m.crypt[n] == d
  }

  predicate Accessible(m: Machine, d: string) {
    d in m.disks && (m.disks[d].Raw? || Mapped(m, d))
  }

  // The devices LVM sees a VG of this name on.
  function Visible(m: Machine, vg: string): set<string> {
    set d | d in m.disks && Accessible(m, d) && Carries(m, d, vg)
  }

  predicate ShowsOn(m: Machine, d: string, vg: string, lv: string) {
    d in m.active && Carries(m, d, vg) && lv in VolumeOn(m, d).value.lvs
  }

  // The LV's device node is there.
  predicate Shows(m: Machine, vg: string, lv: string) {
    exists d | d in m.active :: ShowsOn(m, d, vg, lv)
  }

  function Rewritten(k: Disk, lv: string, c: Content): Disk
    requires k.sig.PvOf?
  {
    k.(sig := PvOf(k.sig.vg.(lvs := k.sig.vg.lvs[lv := c])))
  }

  // Writing an LV by its name; the rest of its volume, and every other device, stays.
  function Put(m: Machine, vg: string, lv: string, c: Content): Machine {
    m.(disks := map d | d in m.disks :: if ShowsOn(m, d, vg, lv) then Rewritten(m.disks[d], lv, c) else m.disks[d])
  }

  function WithSig(m: Machine, d: string, sig: Signature): Machine
    requires d in m.disks
  {
    m.(disks := m.disks[d := m.disks[d].(sig := sig)])
  }

  // A device with this signature on it, its VG active if it has one.
  function Carved(m: Machine, d: string, sig: Signature): Machine
    requires d in m.disks
  {
    WithSig(m, d, sig).(active := m.active + (if sig.PvOf? then {d} else {}))
  }

  // A device with a mapping open on it, or a VG active on it, is in use. An active VG with no LV on it
  // holds its device here, where the kernel would not keep luksFormat from it; there is nothing on
  // such a device to lose.
  predicate InUse(m: Machine, d: string) {
    Mapped(m, d) || d in m.active
  }

  predicate CanLuksFormat(m: Machine, d: string) {
    d in m.disks && !InUse(m, d)
  }

  function LuksFormatted(m: Machine, d: string): Machine {
    m.(disks := m.disks[d := Luks(false, NoSignature)])
  }

  /** A mapping is on a LUKS device and a device has one mapping at most; a VG is active only where
    * it is readable, and two active ones are not of one name. */
  predicate Sane(m: Machine) {
    && (forall n | n in m.crypt :: m.crypt[n] in m.disks && m.disks[m.crypt[n]].Luks?)
    && (forall n, k | n in m.crypt && k in m.crypt && n != k :: m.crypt[n] != m.crypt[k])
    && (forall d | d in m.active :: Accessible(m, d) && VolumeOn(m, d).Some?)
    && (forall d, e | d in m.active && e in m.active && d != e :: VolumeOn(m, d).value.name != VolumeOn(m, e).value.name)
  }

  // How a device is formatted: in the clear, or with LUKS, its passphrase in a token or not yet.
  datatype Kind = Clear | Locked(token: bool)

  function KindOf(k: Disk): Kind {
    match k case Raw(_) => Clear case Luks(token, _) => Locked(token)
  }

  /** What a volume made for a tier is on: off is in the clear, adiantum is LUKS that opens itself, and
    * auto is LUKS on a CPU with the instructions and in the clear on any other. */
  predicate RightKind(kind: Kind, mode: Mode, aes: bool) {
    match mode
    case ModeOff => kind == Clear
    case ModeAdiantum => kind == Locked(true)
    case ModeAuto => kind == if aes then Locked(true) else Clear
  }

  // What the spec's mode comes to on this CPU: true for a tier formatted with LUKS.
  predicate Encrypts(mode: Mode, aes: bool) {
    mode == ModeAdiantum || (mode == ModeAuto && aes)
  }

  // ---------------------------------------------------------------- the search for a volume

  // A closed LUKS device is opened under the tier's name, unless that name is open already.
  function Unlocked(m: Machine, t: Tier): Machine {
    if t.device in m.disks && m.disks[t.device].Luks? && t.vg !in m.crypt
    then m.(crypt := m.crypt[t.vg := t.device]) else m
  }

  // vgchange -ay: the one VG of this name. failing has the names it fails for in this run, an
  // error the program does not look at.
  function Activated(m: Machine, vg: string, failing: set<string>): Machine {
    var seen := Visible(m, vg);
    if vg !in failing && forall d, e | d in seen && e in seen :: d == e
    then m.(active := m.active + seen) else m
  }

  // The machine after the search, when nothing in it failed.
  function Searched(m: Machine, t: Tier, failing: set<string>): Machine {
    Activated(Unlocked(m, t), t.vg, failing)
  }

  // A closed LUKS device needs its token to be opened, and no mapping under another name.
  predicate Opens(m: Machine, t: Tier) {
    t.device in m.disks && (m.disks[t.device].Luks? && t.vg !in m.crypt ==> m.disks[t.device].token && !Mapped(m, t.device))
  }

  /** A returning node: the search ends with both LVs there. */
  predicate Returns(m: Machine, t: Tier, failing: set<string>) {
    Opens(m, t) && Shows(Searched(m, t, failing), t.vg, t.lv) && Shows(Searched(m, t, failing), t.vg, t.metaLv)
  }

  /** A volume the search neither opens nor activates, under a tier that encrypts: not LUKS, and
    * not the one VG that vgchange brings up by the tier's name; or LUKS and closed, while the
    * mapping the tier would open it as is open on another device. */
  predicate Exposed(m: Machine, t: Tier, aes: bool, failing: set<string>) {
    var d := t.device;
    && VolumeOn(m, d).Some?
    && Encrypts(t.mode, aes)
    && !InUse(m, d)
    && (if m.disks[d].Raw? then t.vg in failing || Visible(m, t.vg) != {d} else t.vg in m.crypt)
  }

  /** A blank disk, or one the tier takes for blank: the search ends with no data LV, and the path can
    * end. */
  predicate Makes(m: Machine, t: Tier, aes: bool, failing: set<string>, room: map<string, Room>, maxPeers: nat) {
    && Opens(m, t)
    && !Shows(Searched(m, t, failing), t.vg, t.lv)
    && CanMake(Searched(m, t, failing), t, aes, room, maxPeers)
  }

  // pvcreate and vgcreate have nothing against this device: nothing is on it, it is of the kind that
  // was asked for, and LVM sees no VG of the name.
  predicate CanCarve(m: Machine, t: Tier, encrypted: bool) {
    var d := t.device;
    && d in m.disks && m.disks[d].sig == NoSignature
    && (if encrypted then m.disks[d].Luks? && t.vg in m.crypt && m.crypt[t.vg] == d else m.disks[d].Raw?)
    && Visible(m, t.vg) == {}
  }

  /** Whether the blank-disk path can end, on the machine the search leaves: on a tier that encrypts
    * with whatever is on the device, so long as it is not in use; on any other with nothing on it. */
  predicate CanMake(m: Machine, t: Tier, aes: bool, room: map<string, Room>, maxPeers: nat) {
    var d := t.device;
    && (if Encrypts(t.mode, aes) then CanLuksFormat(m, d) && t.vg !in m.crypt
        else d in m.disks && m.disks[d] == Raw(NoSignature))
    && (forall x | x in Visible(m, t.vg) :: x == d)
    && Fits(room, d, maxPeers) && t.lv != t.metaLv
  }

  lemma {:induction false} SearchIsSane(m: Machine, t: Tier, failing: set<string>)
    requires Sane(m) && Opens(m, t)
    ensures Sane(Unlocked(m, t)) && Sane(Searched(m, t, failing))
    ensures forall x :: InUse(m, x) ==> InUse(Searched(m, t, failing), x)
  {
    var u := Unlocked(m, t);
    assert forall n | n in m.crypt :: n in u.crypt && u.crypt[n] == m.crypt[n];
    assert forall x :: Mapped(m, x) ==> Mapped(u, x);
    ActivatedIsSane(u, t.vg, failing);
  }

  lemma {:induction false} ActivatedIsSane(m: Machine, vg: string, failing: set<string>)
    requires Sane(m)
    ensures Sane(Activated(m, vg, failing))
  {
    var a := Activated(m, vg, failing);
    assert forall d :: Accessible(a, d) <==> Accessible(m, d);
    assert forall x | x in a.active && Carries(m, x, vg) :: x in Visible(m, vg);
  }

  /** The search leaves a volume open to cryptsetup exactly when it is exposed. */
  lemma {:induction false} SearchSpares(m: Machine, t: Tier, aes: bool, failing: set<string>)
    requires Sane(m) && Opens(m, t) && VolumeOn(m, t.device).Some?
    ensures Exposed(m, t, aes, failing) <==>
              Encrypts(t.mode, aes) && CanLuksFormat(Searched(m, t, failing), t.device)
  {
    var d := t.device;
    var u, s := Unlocked(m, t), Searched(m, t, failing);
    assert Mapped(s, d) <==> Mapped(u, d);
    if m.disks[d].Raw? {
      assert u == m;
      assert d in Visible(m, t.vg) <==> Carries(m, d, t.vg);
      assert d in s.active <==> d in m.active || (t.vg !in failing && Visible(m, t.vg) == {d});
    } else {
      assert t.vg !in m.crypt ==> u.crypt[t.vg] == d;
      assert d in Visible(u, t.vg) ==> Mapped(u, d);
    }
  }

  // ---------------------------------------------------------------- what building the tiers does

  predicate AllScratch(vg: Vg) {
    forall lv | lv in vg.lvs :: vg.lvs[lv] == Scratch
  }

  predicate SameDisk(m: Machine, m': Machine, d: string) {
    d in m.disks && d in m'.disks && m.disks[d] == m'.disks[d]
  }

  // Only the disks, the mappings and the active VGs may differ, and what is in use stays in use.
  ghost predicate Onward(m: Machine, m': Machine) {
    && m' == m.(disks := m'.disks, crypt := m'.crypt, active := m'.active)
    && m.active <= m'.active
    && forall n | n in m.crypt :: n in m'.crypt && m'.crypt[n] == m.crypt[n]
  }

  /** The blank-disk path, wherever it stopped. */
  ghost predicate Claimed(m: Machine, m': Machine, t: Tier, encrypts: bool) {
    var d := t.device;
    && Onward(m, m')
    && (forall x | x != d :: (x in m.disks <==> x in m'.disks) && (x in m.disks ==> m.disks[x] == m'.disks[x]))
    && (forall n | n in m'.crypt && n !in m.crypt :: n == t.vg && m'.crypt[n] == d)
    && (VolumeOn(m, d).Some? && !(encrypts && CanLuksFormat(m, d)) ==> d in m'.disks && m'.disks[d] == m.disks[d])
    && (VolumeOn(m', d).Some? && !SameDisk(m, m', d) ==>
          AllScratch(VolumeOn(m', d).value) && VolumeOn(m', d).value.name == t.vg)
  }

  /** What bringing one tier up does, wherever it stopped: a volume that was not exposed is exactly
    * as it was, and a volume that was not there before holds nothing. */
  ghost predicate TierBuilt(m: Machine, m': Machine, t: Tier, aes: bool, failing: set<string>) {
    var d := t.device;
    && Onward(m, m')
    && (forall x | x != d :: (x in m.disks <==> x in m'.disks) && (x in m.disks ==> m.disks[x] == m'.disks[x]))
    && (forall n | n in m'.crypt && n !in m.crypt :: n == t.vg && m'.crypt[n] == d)
    && (VolumeOn(m, d).Some? && !Exposed(m, t, aes, failing) ==> d in m'.disks && m'.disks[d] == m.disks[d])
    && (VolumeOn(m', d).Some? && !SameDisk(m, m', d) ==>
          AllScratch(VolumeOn(m', d).value) && VolumeOn(m', d).value.name == t.vg && RightKind(KindOf(m'.disks[d]), t.mode, aes))
  }

  // A volume that was not there before is on the right kind of device.
  predicate MadeRight(m: Machine, m': Machine, t: Tier, aes: bool) {
    var d := t.device;
    VolumeOn(m', d).Some? && !SameDisk(m, m', d) ==> RightKind(KindOf(m'.disks[d]), t.mode, aes)
  }

  // What is carved on a device leaves it the kind it was, the kind that was asked for.
  predicate SameKind(m: Machine, m': Machine, d: string, encrypted: bool) {
    && (d in m'.disks <==> d in m.disks)
    && (d in m.disks ==> KindOf(m'.disks[d]) == KindOf(m.disks[d]))
    && (VolumeOn(m', d).Some? && !SameDisk(m, m', d) ==> (m'.disks[d].Luks? <==> encrypted))
  }

  // The volume that was on this device is gone.
  predicate Lost(m: Machine, m': Machine, d: string) {
    VolumeOn(m, d).Some? && (VolumeOn(m', d).None? || AllScratch(VolumeOn(m', d).value))
  }

  lemma {:induction false} SearchBuilds(m: Machine, m': Machine, t: Tier, aes: bool, failing: set<string>)
    requires m' == m || m' == Unlocked(m, t) || m' == Searched(m, t, failing)
    ensures TierBuilt(m, m', t, aes, failing) && m'.disks == m.disks
  {
  }

  lemma {:induction false} SearchThenClaim(m: Machine, m': Machine, t: Tier, aes: bool, failing: set<string>)
    requires Sane(m) && Opens(m, t) && Claimed(Searched(m, t, failing), m', t, Encrypts(t.mode, aes))
    requires MadeRight(Searched(m, t, failing), m', t, aes)
    ensures TierBuilt(m, m', t, aes, failing)
  {
    var s := Searched(m, t, failing);
    SearchBuilds(m, s, t, aes, failing);
    if VolumeOn(m, t.device).Some? { SearchSpares(m, t, aes, failing); }
  }

  // Another device has, or another tier may give one, a VG of this tier's name.
  predicate SharedName(m: Machine, spec: Spec, t: Tier) {
    || (exists x | x in m.disks :: x != t.device && Carries(m, x, t.vg))
    || (exists u | u in spec.tiers :: u.device != t.device && u.vg == t.vg)
  }

  /** What can be seen before the run of a volume one of its tiers may find exposed. */
  predicate AtRisk(m: Machine, spec: Spec, t: Tier, aes: bool, failing: set<string>) {
    var d := t.device;
    && VolumeOn(m, d).Some?
    && Encrypts(t.mode, aes)
    && !InUse(m, d)
    && (if m.disks[d].Raw? then t.vg in failing || !Carries(m, d, t.vg) || SharedName(m, spec, t)
        else t.vg in m.crypt || exists u | u in spec.tiers :: u.device != d && u.vg == t.vg)
  }

  ghost predicate AnyAtRisk(m: Machine, spec: Spec, d: string, aes: bool, failing: set<string>) {
    exists t | t in spec.tiers :: t.device == d && AtRisk(m, spec, t, aes, failing)
  }

  /** What keeps a volume from being at risk: tiers that do not encrypt; or names given to no other
    * device, and with no LUKS under it its own name and a vgchange that works for it. */
  lemma {:induction false} NotAtRisk(m: Machine, spec: Spec, d: string, aes: bool, failing: set<string>)
    requires VolumeOn(m, d).Some?
    requires forall t | t in spec.tiers && t.device == d && Encrypts(t.mode, aes) ::
      && (forall u | u in spec.tiers && u.vg == t.vg :: u.device == d)
      && (if m.disks[d].Luks? then t.vg in m.crypt ==> m.crypt[t.vg] == d
          else t.vg !in failing && Visible(m, t.vg) == {d} && forall x | x != d :: !Carries(m, x, t.vg))
    ensures !AnyAtRisk(m, spec, d, aes, failing)
  {
    forall t | t in spec.tiers && t.device == d ensures !AtRisk(m, spec, t, aes, failing) {
      assert m.disks[d].Luks? && t.vg in m.crypt && m.crypt[t.vg] == d ==> Mapped(m, d);
    }
  }

  // A mapping is one that was there, or one a tier opened under its own name.
  ghost predicate MappingsGrow(m: Machine, m': Machine, spec: Spec) {
    forall n | n in m'.crypt ::
      || (n in m.crypt && m.crypt[n] == m'.crypt[n])
      || exists u | u in spec.tiers :: u.vg == n && u.device == m'.crypt[n]
  }

  // A VG of this name on a device of this kind is what a tier of the device would make.
  predicate FromTier(spec: Spec, d: string, vg: Vg, kind: Kind, aes: bool) {
    exists u | u in spec.tiers :: u.device == d && u.vg == vg.name && RightKind(kind, u.mode, aes)
  }

  // What building the tiers has done to every device.
  ghost predicate Built(m0: Machine, m: Machine, spec: Spec, aes: bool, failing: set<string>) {
    && Onward(m0, m)
    && MappingsGrow(m0, m, spec)
    && (forall d | VolumeOn(m0, d).Some? && !AnyAtRisk(m0, spec, d, aes, failing) ::
          d in m.disks && m.disks[d] == m0.disks[d])
    && (forall d | VolumeOn(m, d).Some? && VolumeOn(m, d) != VolumeOn(m0, d) ::
          AllScratch(VolumeOn(m, d).value) && FromTier(spec, d, VolumeOn(m, d).value, KindOf(m.disks[d]), aes))
  }

  // There was no volume on this device, or one at risk.
  ghost predicate Unsafe(m0: Machine, spec: Spec, d: string, aes: bool, failing: set<string>) {
    VolumeOn(m0, d).None? || AnyAtRisk(m0, spec, d, aes, failing)
  }

  /** A volume some tier finds exposed could be seen to be at risk before the run. */
  lemma {:induction false} ExposedWasAtRisk(m0: Machine, m: Machine, spec: Spec, t: Tier, aes: bool, failing: set<string>)
    requires t in spec.tiers && Built(m0, m, spec, aes, failing) && Exposed(m, t, aes, failing)
    ensures Unsafe(m0, spec, t.device, aes, failing)
  {
    var d := t.device;
    if VolumeOn(m0, d).Some? && m.disks[d] == m0.disks[d] {
      NotInUseBefore(m0, m, d);
      if m.disks[d].Raw? {
        if Carries(m0, d, t.vg) && !SharedName(m0, spec, t) { RawSeenAlone(m0, m, spec, t, aes, failing); }
      } else {
        assert t.vg in m.crypt && m.crypt[t.vg] != d by { assert m.crypt[t.vg] == d ==> Mapped(m, d); }
      }
      assert AtRisk(m0, spec, t, aes, failing);
    }
  }

  lemma {:induction false} NotInUseBefore(m: Machine, m': Machine, d: string)
    requires Onward(m, m') && !InUse(m', d)
    ensures !InUse(m, d)
  {
    forall n | n in m.crypt ensures m.crypt[n] != d {
      assert n in m'.crypt && m'.crypt[n] == m.crypt[n];
    }
  }

  // A VG no other device or tier has the name of is the one LVM sees.
  lemma {:induction false} RawSeenAlone(m0: Machine, m: Machine, spec: Spec, t: Tier, aes: bool, failing: set<string>)
    requires t in spec.tiers && Built(m0, m, spec, aes, failing)
    requires Carries(m0, t.device, t.vg) && VolumeOn(m, t.device) == VolumeOn(m0, t.device) && m.disks[t.device].Raw?
    requires !SharedName(m0, spec, t)
    ensures Visible(m, t.vg) == {t.device}
  {
    forall x | x in Visible(m, t.vg) ensures x == t.device {
      if VolumeOn(m, x) == VolumeOn(m0, x) {
        assert x in m0.disks && Carries(m0, x, t.vg);
      } else {
        assert FromTier(spec, x, VolumeOn(m, x).value, KindOf(m.disks[x]), aes);
      }
    }
    assert t.device in Visible(m, t.vg);
  }

  lemma {:induction false} BuiltOneMore(m0: Machine, m1: Machine, m2: Machine, spec: Spec, t: Tier, aes: bool, failing: set<string>)
    requires Sane(m1) && t in spec.tiers
    requires Built(m0, m1, spec, aes, failing) && TierBuilt(m1, m2, t, aes, failing)
    ensures Built(m0, m2, spec, aes, failing)
    ensures forall d | d in m1.active :: d in m2.active && d in m2.disks && m2.disks[d] == m1.disks[d]
    ensures Exposed(m1, t, aes, failing) || VolumeOn(m1, t.device).None? ==> Unsafe(m0, spec, t.device, aes, failing)
  {
    var d := t.device;
    if Exposed(m1, t, aes, failing) { ExposedWasAtRisk(m0, m1, spec, t, aes, failing); }
    forall x | VolumeOn(m0, x).Some? && !AnyAtRisk(m0, spec, x, aes, failing)
      ensures x in m2.disks && m2.disks[x] == m0.disks[x]
    {
      assert x in m1.disks && m1.disks[x] == m0.disks[x];
    }
    MappingsGrowMore(m0, m1, m2, spec, t);
    forall x | VolumeOn(m2, x).Some? && VolumeOn(m2, x) != VolumeOn(m0, x)
      ensures AllScratch(VolumeOn(m2, x).value) && FromTier(spec, x, VolumeOn(m2, x).value, KindOf(m2.disks[x]), aes)
    {
      if SameDisk(m1, m2, x) { assert VolumeOn(m1, x) != VolumeOn(m0, x); }
    }
  }

  lemma {:induction false} MappingsGrowMore(m0: Machine, m1: Machine, m2: Machine, spec: Spec, t: Tier)
    requires t in spec.tiers && MappingsGrow(m0, m1, spec)
    requires forall n | n in m1.crypt :: n in m2.crypt && m2.crypt[n] == m1.crypt[n]
    requires forall n | n in m2.crypt && n !in m1.crypt :: n == t.vg && m2.crypt[n] == t.device
    ensures MappingsGrow(m0, m2, spec)
  {
  }

  // ---------------------------------------------------------------- the extent split

  function MetadataBytes(dataBytes: nat, maxPeers: nat): nat {
    var perPeer := (dataBytes + 32767) / 32768;
    ((perPeer + 4095) / 4096 * 4096) * maxPeers + 0x10_0000
  }

  /** The metadata LV in extents: what DRBD needs rounded up, and exactly one more. */
  function MetadataExtents(dataBytes: nat, extent: nat, maxPeers: nat): (n: nat)
    requires extent > 0
    ensures (n - 1) * extent >= MetadataBytes(dataBytes, maxPeers) > (n - 2) * extent
  {
    var need := MetadataBytes(dataBytes, maxPeers);
    RoundUp(need, extent);
    (need + extent - 1) / extent + 1
  }

  lemma {:induction false} RoundUp(need: nat, extent: nat)
    requires extent > 0 && need > 0
    ensures var k := (need + extent - 1) / extent; k * extent >= need > (k - 1) * extent
  {
    var x := need + extent - 1;
    var k := x / extent;
    assert x == k * extent + x % extent;
  }

  /** A bitmap bit per 4 KiB block and peer fits in the metadata, with the activity log and the
    * superblock, whatever the data device; and over that it is no more than a page a peer, rounded. */
  lemma {:induction false} MetadataHoldsBitmap(dataBytes: nat, maxPeers: nat)
    ensures MetadataBytes(dataBytes, maxPeers) * 32768 >= dataBytes * maxPeers + 0x10_0000 * 32768
    ensures MetadataBytes(dataBytes, maxPeers) * 32768 <= (dataBytes + 4097 * 32768) * maxPeers + 0x10_0000 * 32768
  {
    var perPeer := (dataBytes + 32767) / 32768;
    var pages := (perPeer + 4095) / 4096 * 4096;
    assert perPeer * 32768 >= dataBytes;
    assert pages >= perPeer;
    assert pages * 32768 >= dataBytes;
    MulMono(dataBytes, pages * 32768, maxPeers);
    MulMono(pages * 32768, dataBytes + 4097 * 32768, maxPeers);
    assert pages * 32768 * maxPeers == (pages * maxPeers) * 32768;
  }

  lemma {:induction false} MulMono(a: nat, b: nat, c: nat)
    requires a <= b
    ensures a * c <= b * c
  {
  }

  function Bytes(r: Room): nat {
    MulMono(0, r.total, r.extent);
    r.total * r.extent
  }

  // The metadata leaves the data LV something.
  predicate Fits(room: map<string, Room>, d: string, maxPeers: nat) {
    d in room && room[d].extent > 0 && MetadataExtents(Bytes(room[d]), room[d].extent, maxPeers) < room[d].total
  }

  /** The whole VG is split in two: the metadata LV has its extents, and the data LV every other. */
  predicate SplitRight(vg: Vg, t: Tier, room: map<string, Room>, maxPeers: nat) {
    && Fits(room, t.device, maxPeers)
    && vg.extents.Keys == {t.lv, t.metaLv} && t.lv != t.metaLv
    && vg.extents[t.metaLv] == MetadataExtents(Bytes(room[t.device]), room[t.device].extent, maxPeers)
    && vg.extents[t.lv] + vg.extents[t.metaLv] == room[t.device].total && vg.extents[t.lv] > 0
  }

  // ---------------------------------------------------------------- the loop over the tiers

  predicate DataPassed(spec: Spec, i: nat)
    requires i <= |spec.tiers|
  {
    exists j :: 0 <= j < i && spec.tiers[j].name == TIER_DATA
  }

  function DataVg(spec: Spec): string {
    if DataTier(spec).Some? then DataTier(spec).value.vg else ""
  }

  // No other tier's VG has the data tier's name.
  predicate OwnName(spec: Spec) {
    DataTier(spec).Some? && forall t | t in spec.tiers && t.vg == DataVg(spec) :: t.name == TIER_DATA
  }

  predicate NameTaken(m: Machine, vg: string) {
    exists d | d in m.disks :: Carries(m, d, vg)
  }

  // As long as nothing was made for it, the data tier's VG is one that was there.
  predicate FoundThere(m0: Machine, m: Machine, spec: Spec) {
    OwnName(spec) && NameTaken(m, DataVg(spec)) ==> NameTaken(m0, DataVg(spec))
  }

  // The data tier's LVs are this run's own.
  ghost predicate MadeHere(m0: Machine, m: Machine, spec: Spec, aes: bool, failing: set<string>) {
    && DataTier(spec).Some?
    && var t := DataTier(spec).value;
    && Unsafe(m0, spec, t.device, aes, failing)
    && ShowsOn(m, t.device, t.vg, t.lv) && ShowsOn(m, t.device, t.vg, t.metaLv)
    && VolumeOn(m, t.device).value.lvs == map[t.lv := Scratch, t.metaLv := Scratch]
    && RightKind(KindOf(m.disks[t.device]), t.mode, aes)
  }

  predicate TierShows(m: Machine, t: Tier) {
    Shows(m, t.vg, t.lv) && Shows(m, t.vg, t.metaLv)
  }

  predicate TiersShow(m: Machine, spec: Spec) {
    forall t | t in spec.tiers :: TierShows(m, t)
  }

  // Where the loop over the tiers stands after the first i of them.
  ghost predicate TiersDone(m0: Machine, m: Machine, spec: Spec, i: nat, made: bool, aes: bool, failing: set<string>)
    requires i <= |spec.tiers|
  {
    && Sane(m)
    && Built(m0, m, spec, aes, failing)
    && (forall j | 0 <= j < i :: TierShows(m, spec.tiers[j]))
    && (if made then DataPassed(spec, i) && MadeHere(m0, m, spec, aes, failing) else FoundThere(m0, m, spec))
  }

  lemma {:induction false} ActiveKeepsShowing(m1: Machine, m2: Machine, vg: string, lv: string)
    requires Sane(m1)
    requires forall d | d in m1.active :: d in m2.active && d in m2.disks && m2.disks[d] == m1.disks[d]
    ensures Shows(m1, vg, lv) ==> Shows(m2, vg, lv)
    ensures forall d | ShowsOn(m1, d, vg, lv) :: ShowsOn(m2, d, vg, lv) && VolumeOn(m2, d) == VolumeOn(m1, d)
  {
    if Shows(m1, vg, lv) {
      var d :| d in m1.active && ShowsOn(m1, d, vg, lv);
      assert ShowsOn(m2, d, vg, lv);
    }
  }

  lemma {:induction false} DataTierIsAt(spec: Spec, i: nat)
    requires Valid(spec) && i < |spec.tiers| && spec.tiers[i].name == TIER_DATA
    ensures DataTier(spec) == Some(spec.tiers[i])
  {
    var data := DataTier(spec);
    assert spec.tiers[i] in spec.tiers;
    assert data.Some? && data.value.name == TIER_DATA;
    var j :| 0 <= j < |spec.tiers| && spec.tiers[j] == data.value;
  }

  lemma {:induction false} OneTierDone(m0: Machine, m1: Machine, m2: Machine, spec: Spec, i: nat, made: bool, one: bool, aes: bool, failing: set<string>)
    requires Valid(spec) && i < |spec.tiers|
    requires TiersDone(m0, m1, spec, i, made, aes, failing)
    requires
      var t := spec.tiers[i];
      && Sane(m2) && TierBuilt(m1, m2, t, aes, failing) && Built(m0, m2, spec, aes, failing)
      && (forall d | d in m1.active :: d in m2.active && d in m2.disks && m2.disks[d] == m1.disks[d])
      && TierShows(m2, t)
      && (one ==>
            && ShowsOn(m2, t.device, t.vg, t.lv) && ShowsOn(m2, t.device, t.vg, t.metaLv)
            && VolumeOn(m2, t.device).value.lvs == map[t.lv := Scratch, t.metaLv := Scratch]
            && RightKind(KindOf(m2.disks[t.device]), t.mode, aes)
            && Unsafe(m0, spec, t.device, aes, failing))
      && (!one ==> m2.disks == m1.disks)
    ensures TiersDone(m0, m2, spec, i + 1, if spec.tiers[i].name == TIER_DATA then one else made, aes, failing)
  {
    var t := spec.tiers[i];
    forall j | 0 <= j < i ensures TierShows(m2, spec.tiers[j]) {
      ActiveKeepsShowing(m1, m2, spec.tiers[j].vg, spec.tiers[j].lv);
      ActiveKeepsShowing(m1, m2, spec.tiers[j].vg, spec.tiers[j].metaLv);
    }
    if t.name == TIER_DATA {
      DataTierIsAt(spec, i);
      assert DataPassed(spec, i + 1);
      if made { DataPassedOnce(spec, i); }
      if !one { assert FoundThere(m0, m1, spec); FoundStays(m0, m1, m2, spec); }
    } else if made {
      MadeStays(m0, m1, m2, spec, aes, failing);
      var j :| 0 <= j < i && spec.tiers[j].name == TIER_DATA;
      assert DataPassed(spec, i + 1);
    } else {
      OtherTierFound(m0, m1, m2, spec, t, aes, failing);
    }
  }

  // One tier more, finished or stopped.
  lemma {:induction false} OneTierBuilt(m0: Machine, m1: Machine, m2: Machine, spec: Spec, i: nat, made: bool, one: Outcome<bool>, aes: bool, failing: set<string>)
    requires Valid(spec) && i < |spec.tiers|
    requires TiersDone(m0, m1, spec, i, made, aes, failing)
    requires
      var t := spec.tiers[i];
      && Sane(m2) && TierBuilt(m1, m2, t, aes, failing)
      && (one.Done? ==> TierShows(m2, t))
      && (one == Done(true) ==>
            && ShowsOn(m2, t.device, t.vg, t.lv) && ShowsOn(m2, t.device, t.vg, t.metaLv)
            && VolumeOn(m2, t.device).value.lvs == map[t.lv := Scratch, t.metaLv := Scratch]
            && RightKind(KindOf(m2.disks[t.device]), t.mode, aes)
            && (VolumeOn(m1, t.device).None? || Exposed(m1, t, aes, failing)))
      && (one == Done(false) ==> m2.disks == m1.disks)
    ensures Built(m0, m2, spec, aes, failing)
    ensures one.Done? ==>
      TiersDone(m0, m2, spec, i + 1, if spec.tiers[i].name == TIER_DATA then one.value else made, aes, failing)
  {
    BuiltOneMore(m0, m1, m2, spec, spec.tiers[i], aes, failing);
    if one.Done? { OneTierDone(m0, m1, m2, spec, i, made, one.value, aes, failing); }
  }

  lemma {:induction false} DataPassedOnce(spec: Spec, i: nat)
    requires Valid(spec) && i < |spec.tiers| && spec.tiers[i].name == TIER_DATA
    ensures !DataPassed(spec, i)
  {
    forall j | 0 <= j < i ensures spec.tiers[j].name != TIER_DATA {
      assert spec.tiers[j].name != spec.tiers[i].name;
    }
  }

  lemma {:induction false} FoundStays(m0: Machine, m1: Machine, m2: Machine, spec: Spec)
    requires FoundThere(m0, m1, spec) && m2.disks == m1.disks
    ensures FoundThere(m0, m2, spec)
  {
    assert forall d :: VolumeOn(m2, d) == VolumeOn(m1, d);
    assert NameTaken(m2, DataVg(spec)) ==> NameTaken(m1, DataVg(spec)) by {
      if NameTaken(m2, DataVg(spec)) {
        var d :| d in m2.disks && Carries(m2, d, DataVg(spec));
        assert Carries(m1, d, DataVg(spec));
      }
    }
  }

  lemma {:induction false} OtherTierFound(m0: Machine, m1: Machine, m2: Machine, spec: Spec, t: Tier, aes: bool, failing: set<string>)
    requires FoundThere(m0, m1, spec) && TierBuilt(m1, m2, t, aes, failing)
    requires t in spec.tiers && t.name != TIER_DATA
    ensures FoundThere(m0, m2, spec)
  {
    if OwnName(spec) && NameTaken(m2, DataVg(spec)) {
      var d :| d in m2.disks && Carries(m2, d, DataVg(spec));
      assert t.vg != DataVg(spec);
      assert VolumeOn(m2, d) == VolumeOn(m1, d);
      assert d in m1.disks && Carries(m1, d, DataVg(spec));
    }
  }

  lemma {:induction false} MadeStays(m0: Machine, m1: Machine, m2: Machine, spec: Spec, aes: bool, failing: set<string>)
    requires Sane(m1) && MadeHere(m0, m1, spec, aes, failing)
    requires forall d | d in m1.active :: d in m2.active && d in m2.disks && m2.disks[d] == m1.disks[d]
    ensures MadeHere(m0, m2, spec, aes, failing)
  {
    var t := DataTier(spec).value;
    ActiveKeepsShowing(m1, m2, t.vg, t.lv);
    ActiveKeepsShowing(m1, m2, t.vg, t.metaLv);
  }

  lemma {:induction false} AllTiersDone(m0: Machine, m: Machine, spec: Spec, made: bool, aes: bool, failing: set<string>)
    requires TiersDone(m0, m, spec, |spec.tiers|, made, aes, failing)
    ensures TiersShow(m, spec)
    ensures !made && OwnName(spec) ==> NameTaken(m0, DataVg(spec))
  {
    if !made && OwnName(spec) {
      var t := DataTier(spec).value;
      var j :| 0 <= j < |spec.tiers| && spec.tiers[j] == t;
      assert TierShows(m, spec.tiers[j]);
      var d :| d in m.active && ShowsOn(m, d, t.vg, t.lv);
      assert d in m.disks && Carries(m, d, DataVg(spec));
    }
  }

  // ---------------------------------------------------------------- a disk the tiers come up on

  // No other device carries a VG of this tier's name, or is open under it.
  predicate Alone(m: Machine, t: Tier) {
    && (forall x | x in m.disks && x != t.device :: !Carries(m, x, t.vg))
    && (t.vg in m.crypt ==> m.crypt[t.vg] == t.device)
  }

  // The tier's volume, with both its LVs, that can be opened and activated.
  predicate Returning(m: Machine, t: Tier, failing: set<string>) {
    var d := t.device;
    && Carries(m, d, t.vg)
    && t.lv in VolumeOn(m, d).value.lvs && t.metaLv in VolumeOn(m, d).value.lvs
    && (t.vg !in failing || d in m.active)
    && (m.disks[d].Luks? && t.vg !in m.crypt ==> m.disks[d].token && !Mapped(m, d))
  }

  // Nothing at all, and room for both LVs.
  predicate BlankDisk(m: Machine, t: Tier, room: map<string, Room>, maxPeers: nat) {
    && t.device in m.disks && m.disks[t.device] == Raw(NoSignature)
    && Fits(room, t.device, maxPeers) && t.lv != t.metaLv
  }

  /** A first install, a returning node, or some tiers of each: every tier has a device and a VG name
    * of its own, and on the device its volume or nothing. */
  predicate Favours(m: Machine, spec: Spec, failing: set<string>, room: map<string, Room>) {
    && (forall i, j | 0 <= i < j < |spec.tiers| ::
          spec.tiers[i].device != spec.tiers[j].device && spec.tiers[i].vg != spec.tiers[j].vg)
    && forall t | t in spec.tiers :: Alone(m, t) && (Returning(m, t, failing) || (spec.maxPeers >= 0 && BlankDisk(m, t, room, spec.maxPeers)))
  }

  // One tier's disk brings it up: found, or made.
  lemma {:induction false} FavouredReady(m: Machine, t: Tier, aes: bool, failing: set<string>, room: map<string, Room>, maxPeers: nat)
    requires Sane(m) && Alone(m, t)
    ensures Returning(m, t, failing) ==> Returns(m, t, failing)
    ensures BlankDisk(m, t, room, maxPeers) ==> Makes(m, t, aes, failing, room, maxPeers)
  {
    var u := Unlocked(m, t);
    var d := t.device;
    assert forall n | n in m.crypt :: n in u.crypt && u.crypt[n] == m.crypt[n];
    assert forall x | x in Visible(u, t.vg) :: x == d;
    if Returning(m, t, failing) {
      if m.disks[d].Luks? { assert u.crypt[t.vg] == d; }
      assert d in Visible(u, t.vg);
      assert ShowsOn(Searched(m, t, failing), d, t.vg, t.lv) && ShowsOn(Searched(m, t, failing), d, t.vg, t.metaLv);
    }
    if BlankDisk(m, t, room, maxPeers) { BlankReady(m, t, aes, failing, room, maxPeers); }
  }

  lemma {:induction false} BlankReady(m: Machine, t: Tier, aes: bool, failing: set<string>, room: map<string, Room>, maxPeers: nat)
    requires Sane(m) && Alone(m, t) && BlankDisk(m, t, room, maxPeers)
    ensures Makes(m, t, aes, failing, room, maxPeers)
  {
    assert t.vg !in m.crypt && !InUse(m, t.device);
    assert Unlocked(m, t) == m;
    assert Visible(m, t.vg) == {};
    assert m.active + {} == m.active;
    assert Searched(m, t, failing) == m;
    forall x | x in m.active ensures !ShowsOn(m, x, t.vg, t.lv) {
      assert Accessible(m, x);
    }
  }

  // What bringing up another tier leaves of this one's disk.
  lemma {:induction false} OtherTierStays(m: Machine, m': Machine, t: Tier, u: Tier, aes: bool, failing: set<string>, room: map<string, Room>, maxPeers: nat)
    requires Sane(m) && TierBuilt(m, m', t, aes, failing) && Alone(m, u) && u.device != t.device && u.vg != t.vg
    ensures Alone(m', u) && VolumeOn(m', u.device) == VolumeOn(m, u.device)
    ensures Returning(m, u, failing) ==> Returning(m', u, failing)
    ensures BlankDisk(m, u, room, maxPeers) ==> BlankDisk(m', u, room, maxPeers)
  {
    assert !Mapped(m, u.device) ==> !Mapped(m', u.device);
    forall x | x in m'.disks && x != u.device ensures !Carries(m', x, u.vg) {
      if SameDisk(m, m', x) { assert !Carries(m, x, u.vg); }
    }
  }

  // Where the loop over the tiers stands on a disk it comes up on, after the first i of them.
  ghost predicate Underway(m0: Machine, m: Machine, spec: Spec, i: nat, made: bool, failing: set<string>, room: map<string, Room>)
    requires i <= |spec.tiers|
  {
    && (forall j | i <= j < |spec.tiers| :: StillFavoured(m0, m, spec, spec.tiers[j], failing, room))
    && (forall j | 0 <= j < i && spec.tiers[j].name == TIER_DATA ::
          DataFound(m0, m, spec.tiers[j], made, failing))
  }

  predicate StillFavoured(m0: Machine, m: Machine, spec: Spec, t: Tier, failing: set<string>, room: map<string, Room>) {
    && Alone(m, t) && VolumeOn(m, t.device) == VolumeOn(m0, t.device)
    && (if VolumeOn(m0, t.device).Some? then Returning(m, t, failing) else spec.maxPeers >= 0 && BlankDisk(m, t, room, spec.maxPeers))
  }

  // The data tier's LVs are new exactly when there was no volume; and what was there is as it was.
  predicate DataFound(m0: Machine, m: Machine, t: Tier, made: bool, failing: set<string>) {
    && (made <==> VolumeOn(m0, t.device).None?)
    && Alone(m, t)
    && (!made ==> VolumeOn(m, t.device) == VolumeOn(m0, t.device))
  }

  lemma {:induction false} UnderwayStarts(m: Machine, spec: Spec, failing: set<string>, room: map<string, Room>)
    requires Favours(m, spec, failing, room)
    ensures Underway(m, m, spec, 0, false, failing, room)
  {
    forall j | 0 <= j < |spec.tiers| ensures StillFavoured(m, m, spec, spec.tiers[j], failing, room) {
      assert spec.tiers[j] in spec.tiers;
    }
  }

  lemma {:induction false} UnderwayMore(m0: Machine, m: Machine, m': Machine, spec: Spec, i: nat, made: bool, one: bool,
                                        aes: bool, failing: set<string>, room: map<string, Room>)
    requires Valid(spec) && i < |spec.tiers| && Sane(m) && Favours(m0, spec, failing, room)
    requires Underway(m0, m, spec, i, made, failing, room) && TierBuilt(m, m', spec.tiers[i], aes, failing)
    requires one <==> VolumeOn(m, spec.tiers[i].device).None?
    requires !one ==> m'.disks == m.disks
    ensures Underway(m0, m', spec, i + 1, if spec.tiers[i].name == TIER_DATA then one else made, failing, room)
  {
    var t := spec.tiers[i];
    assert StillFavoured(m0, m, spec, t, failing, room);
    OwnTierStays(m, m', t, aes, failing);
    forall j | i < j < |spec.tiers| ensures StillFavoured(m0, m', spec, spec.tiers[j], failing, room) {
      OtherTierStays(m, m', t, spec.tiers[j], aes, failing, room, spec.maxPeers);
      assert StillFavoured(m0, m, spec, spec.tiers[j], failing, room);
    }
    forall j | 0 <= j < i && spec.tiers[j].name == TIER_DATA ensures t.name != TIER_DATA && DataFound(m0, m', spec.tiers[j], made, failing) {
      assert DataFound(m0, m, spec.tiers[j], made, failing);
      OtherTierStays(m, m', t, spec.tiers[j], aes, failing, room, spec.maxPeers);
    }
  }

  lemma {:induction false} OwnTierStays(m: Machine, m': Machine, t: Tier, aes: bool, failing: set<string>)
    requires TierBuilt(m, m', t, aes, failing) && Alone(m, t)
    ensures Alone(m', t)
  {
    forall x | x in m'.disks && x != t.device ensures !Carries(m', x, t.vg) {
      assert VolumeOn(m', x) == VolumeOn(m, x);
    }
  }

  // The data tier's metadata LV had DRBD's own metadata.
  predicate HadMetadata(m: Machine, spec: Spec) {
    && DataTier(spec).Some?
    && var t := DataTier(spec).value;
    && VolumeOn(m, t.device).Some?
    && t.metaLv in VolumeOn(m, t.device).value.lvs && VolumeOn(m, t.device).value.lvs[t.metaLv].Drbd?
  }

  /** What the rows refuse on such a disk: a resource with nowhere to be, and a lone node over the
    * metadata of a flock it was not told to leave. */
  predicate ComesUp(m: Machine, spec: Spec) {
    if spec.replicated then spec.diskless || DataTier(spec).Some? else spec.convertDisable || !HadMetadata(m, spec)
  }

  // The data tier's LVs are this run's own exactly when its disk had none; else their metadata is as
  // it was.
  predicate MetadataAsFound(m0: Machine, m: Machine, spec: Spec, made: bool) {
    DataTier(spec).Some? ==>
      && (made <==> VolumeOn(m0, DataTier(spec).value.device).None?)
      && (!made ==> (LacksMetadata(m, spec) <==> !HadMetadata(m0, spec)))
  }

  // ---------------------------------------------------------------- the resource

  predicate IsData(spec: Spec, vg: string, lv: string) {
    DataTier(spec).Some? && DataTier(spec).value.vg == vg && DataTier(spec).value.lv == lv
  }

  predicate IsMeta(spec: Spec, vg: string, lv: string) {
    DataTier(spec).Some? && DataTier(spec).value.vg == vg && DataTier(spec).value.metaLv == lv
  }

  predicate HoldsMetadata(m: Machine, spec: Spec) {
    && DataTier(spec).Some?
    && var t := DataTier(spec).value;
    && Shows(m, t.vg, t.metaLv)
    && forall d | d in m.active && ShowsOn(m, d, t.vg, t.metaLv) :: VolumeOn(m, d).value.lvs[t.metaLv].Drbd?
  }

  predicate LacksMetadata(m: Machine, spec: Spec) {
    && DataTier(spec).Some?
    && var t := DataTier(spec).value;
    && Shows(m, t.vg, t.metaLv)
    && forall d | d in m.active && ShowsOn(m, d, t.vg, t.metaLv) :: !VolumeOn(m, d).value.lvs[t.metaLv].Drbd?
  }

  predicate DataFormatted(m: Machine, spec: Spec) {
    && DataTier(spec).Some?
    && var t := DataTier(spec).value;
    && Shows(m, t.vg, t.lv)
    && forall d | d in m.active && ShowsOn(m, d, t.vg, t.lv) :: VolumeOn(m, d).value.lvs[t.lv].Household?
  }

  // A volume this run made: on the kind of device its tier asks for, and with nothing on it but the
  // two things a first init writes.
  predicate NewVolume(m: Machine, spec: Spec, d: string, aes: bool) {
    VolumeOn(m, d).Some? &&
    var vg := VolumeOn(m, d).value;
    && FromTier(spec, d, vg, KindOf(m.disks[d]), aes)
    && forall lv | lv in vg.lvs ::
      || vg.lvs[lv] == Scratch
      || (IsData(spec, vg.name, lv) && spec.freshInit && vg.lvs[lv].Household?)
      || (IsMeta(spec, vg.name, lv) && spec.replicated && vg.lvs[lv].Drbd?)
  }

  /** What may become of one LV that was there before the run: nothing, except that the data
    * tier's metadata LV gains metadata it lacked on a replicated spec, or loses what it had on a
    * lone spec that says convert=disable. */
  predicate KeptContent(spec: Spec, vg: string, lv: string, before: Content, after: Content) {
    || after == before
    || (IsMeta(spec, vg, lv) && spec.replicated && !before.Drbd? && after.Drbd?)
    || (IsMeta(spec, vg, lv) && !spec.replicated && spec.convertDisable && before.Drbd? && after == Scratch)
  }

  predicate KeptVolume(spec: Spec, before: Vg, after: Vg) {
    && before.name == after.name && before.uuid == after.uuid && before.lvs.Keys == after.lvs.Keys
    && before.extents == after.extents
    && forall lv | lv in before.lvs :: KeptContent(spec, before.name, lv, before.lvs[lv], after.lvs[lv])
  }

  // Up to the format: a volume is the one that was there, or is this run's own.
  ghost predicate Formatted0(m0: Machine, m: Machine, spec: Spec, aes: bool, failing: set<string>) {
    && (forall d | VolumeOn(m0, d).Some? && !AnyAtRisk(m0, spec, d, aes, failing) ::
          VolumeOn(m, d) == VolumeOn(m0, d))
    && (forall d | VolumeOn(m, d).Some? && VolumeOn(m, d) != VolumeOn(m0, d) ::
          Unsafe(m0, spec, d, aes, failing) && NewVolume(m, spec, d, aes))
  }

  ghost predicate KeptOrNew(m0: Machine, m: Machine, spec: Spec, d: string, aes: bool, failing: set<string>) {
    || (VolumeOn(m0, d).Some? && VolumeOn(m, d).Some? && KeptVolume(spec, VolumeOn(m0, d).value, VolumeOn(m, d).value))
    || (Unsafe(m0, spec, d, aes, failing) && NewVolume(m, spec, d, aes))
  }

  /** What one bring-up does to the volumes, wherever it stopped. */
  ghost predicate VolumesKept(m0: Machine, m: Machine, spec: Spec, aes: bool, failing: set<string>) {
    && (forall d | VolumeOn(m0, d).Some? && !AnyAtRisk(m0, spec, d, aes, failing) ::
          VolumeOn(m, d).Some? && KeptVolume(spec, VolumeOn(m0, d).value, VolumeOn(m, d).value))
    && (forall d | VolumeOn(m, d).Some? :: KeptOrNew(m0, m, spec, d, aes, failing))
    && (forall d | d in m0.disks && d in m.disks && !AnyAtRisk(m0, spec, d, aes, failing) && VolumeOn(m0, d).Some? ::
          m0.disks[d].Luks? <==> m.disks[d].Luks?)
  }

  /** What one bring-up may say about a peer's data: at most once, with no peer connected, by the
    * seed, in the run that made the metadata it says it of. */
  ghost predicate DeclaredOnlyAtFirstInit(m0: Machine, m: Machine, spec: Spec, aes: bool, failing: set<string>) {
    m.declared == m0.declared
    || (&& m.declared == m0.declared + [false]
        && spec.freshInit && spec.replicated
        && HoldsMetadata(m, spec)
        && MetadataIsNew(m0, m, spec, aes, failing))
  }

  // No metadata LV the resource may be on had metadata before, in a volume that was safe.
  ghost predicate MetadataIsNew(m0: Machine, m: Machine, spec: Spec, aes: bool, failing: set<string>) {
    && DataTier(spec).Some?
    && var t := DataTier(spec).value;
    forall d | d in m.active && ShowsOn(m, d, t.vg, t.metaLv) ::
      || Unsafe(m0, spec, d, aes, failing)
      || (t.metaLv in VolumeOn(m0, d).value.lvs && !VolumeOn(m0, d).value.lvs[t.metaLv].Drbd?)
  }

  lemma {:induction false} PutKeepsLayout(m: Machine, vg: string, lv: string, c: Content)
    ensures var m' := Put(m, vg, lv, c);
      && m'.disks.Keys == m.disks.Keys
      && (forall d | d in m.disks :: KindOf(m'.disks[d]) == KindOf(m.disks[d]))
      && (forall d | !ShowsOn(m, d, vg, lv) :: VolumeOn(m', d) == VolumeOn(m, d))
      && (forall d | ShowsOn(m, d, vg, lv) ::
            VolumeOn(m', d) == Some(VolumeOn(m, d).value.(lvs := VolumeOn(m, d).value.lvs[lv := c])))
      && (forall d, v, x :: ShowsOn(m', d, v, x) <==> ShowsOn(m, d, v, x))
  {
  }

  lemma {:induction false} PutIsSane(m: Machine, vg: string, lv: string, c: Content)
    requires Sane(m)
    ensures Sane(Put(m, vg, lv, c))
    ensures forall v, x :: Shows(Put(m, vg, lv, c), v, x) <==> Shows(m, v, x)
  {
    PutKeepsLayout(m, vg, lv, c);
    var m' := Put(m, vg, lv, c);
    assert forall d :: Mapped(m', d) <==> Mapped(m, d);
    assert forall d :: Accessible(m', d) <==> Accessible(m, d);
    assert forall d | VolumeOn(m, d).Some? :: VolumeOn(m', d).Some? && VolumeOn(m', d).value.name == VolumeOn(m, d).value.name;
  }

  // Two names: what one LV's nodes hold is not what is written to the other.
  lemma {:induction false} PutElsewhere(m: Machine, vg: string, lv: string, c: Content, lv': string)
    requires lv' != lv
    ensures forall d | ShowsOn(m, d, vg, lv') ::
      VolumeOn(Put(m, vg, lv, c), d).value.lvs[lv'] == VolumeOn(m, d).value.lvs[lv']
  {
    PutKeepsLayout(m, vg, lv, c);
  }

  lemma {:induction false} BuiltIsFormatted0(m0: Machine, m: Machine, spec: Spec, aes: bool, failing: set<string>)
    requires Built(m0, m, spec, aes, failing)
    ensures Formatted0(m0, m, spec, aes, failing)
  {
  }

  // The format lands on an LV of a volume this run made.
  lemma {:induction false} FormatIsNew(m0: Machine, m: Machine, spec: Spec, fs: int, aes: bool, failing: set<string>)
    requires Sane(m) && Formatted0(m0, m, spec, aes, failing) && spec.freshInit
    requires MadeHere(m0, m, spec, aes, failing)
    ensures var t := DataTier(spec).value;
            Formatted0(m0, Put(m, t.vg, t.lv, Household(fs)), spec, aes, failing)
  {
    var t := DataTier(spec).value;
    var m' := Put(m, t.vg, t.lv, Household(fs));
    PutKeepsLayout(m, t.vg, t.lv, Household(fs));
    assert forall d | ShowsOn(m, d, t.vg, t.lv) :: d == t.device;
    assert FromTier(spec, t.device, VolumeOn(m, t.device).value, KindOf(m.disks[t.device]), aes);
    assert NewVolume(m', spec, t.device, aes);
    forall d | VolumeOn(m', d).Some? && VolumeOn(m', d) != VolumeOn(m0, d)
      ensures Unsafe(m0, spec, d, aes, failing) && NewVolume(m', spec, d, aes)
    {
      if d != t.device { assert NewVolume(m, spec, d, aes); }
    }
    forall d | VolumeOn(m0, d).Some? && !AnyAtRisk(m0, spec, d, aes, failing)
      ensures VolumeOn(m', d) == VolumeOn(m0, d)
    {
      assert d != t.device;
    }
  }

  // The one metadata change a run makes, over what it found or made.
  lemma {:induction false} MetadataKept(m0: Machine, m: Machine, spec: Spec, c: Content, aes: bool, failing: set<string>)
    requires Formatted0(m0, m, spec, aes, failing) && DataTier(spec).Some?
    requires
      || (spec.replicated && c.Drbd? && LacksMetadata(m, spec))
      || (!spec.replicated && spec.convertDisable && c == Scratch && HoldsMetadata(m, spec))
    ensures var t := DataTier(spec).value;
      forall d | VolumeOn(m, d).Some? :: KeptOrNew(m0, Put(m, t.vg, t.metaLv, c), spec, d, aes, failing)
  {
    var t := DataTier(spec).value;
    var m' := Put(m, t.vg, t.metaLv, c);
    PutKeepsLayout(m, t.vg, t.metaLv, c);
    forall d | VolumeOn(m, d).Some? ensures KeptOrNew(m0, m', spec, d, aes, failing) {
      if VolumeOn(m, d) == VolumeOn(m0, d) {
        assert KeptVolume(spec, VolumeOn(m0, d).value, VolumeOn(m', d).value);
      } else {
        assert NewVolume(m, spec, d, aes);
        assert NewVolume(m', spec, d, aes);
      }
    }
  }

  // Over volumes that were found or made, those of a lasting device are kept.
  lemma {:induction false} KeptFrom(m0: Machine, m: Machine, m': Machine, spec: Spec, aes: bool, failing: set<string>)
    requires Formatted0(m0, m, spec, aes, failing)
    requires forall d :: VolumeOn(m', d).Some? <==> VolumeOn(m, d).Some?
    requires forall d | VolumeOn(m, d).Some? :: KeptOrNew(m0, m', spec, d, aes, failing)
    requires forall d | d in m.disks && d in m'.disks :: m'.disks[d].Luks? <==> m.disks[d].Luks?
    requires forall d | VolumeOn(m0, d).Some? && !AnyAtRisk(m0, spec, d, aes, failing) && d in m.disks :: m.disks[d].Luks? <==> m0.disks[d].Luks?
    requires m'.disks.Keys == m.disks.Keys
    ensures VolumesKept(m0, m', spec, aes, failing)
  {
    forall d | VolumeOn(m0, d).Some? && !AnyAtRisk(m0, spec, d, aes, failing)
      ensures VolumeOn(m', d).Some? && KeptVolume(spec, VolumeOn(m0, d).value, VolumeOn(m', d).value)
    {
      assert VolumeOn(m, d) == VolumeOn(m0, d);
      assert KeptOrNew(m0, m', spec, d, aes, failing);
    }
  }

  // What the topology's rows do, wherever they stopped, and what they leave when they finish.
  ghost predicate RowsRun(m0: Machine, m1: Machine, m2: Machine, spec: Spec, aes: bool, failing: set<string>) {
    && Sane(m2) && m2.topology == m1.topology && m2.crypt == m1.crypt && m2.active == m1.active
    && VolumesKept(m0, m2, spec, aes, failing)
    && DeclaredOnlyAtFirstInit(m0, m2, spec, aes, failing)
    && (TiersShow(m1, spec) ==> TiersShow(m2, spec))
    && (Valid(spec) && DataFormatted(m1, spec) ==> DataFormatted(m2, spec))
  }

  predicate RowsEnded(m: Machine, spec: Spec) {
    if spec.replicated then m.link == Dialling && (spec.diskless || HoldsMetadata(m, spec))
    else spec.diskless || LacksMetadata(m, spec)
  }

  lemma {:induction false} DataTierIsDistinct(spec: Spec)
    requires Valid(spec) && DataTier(spec).Some?
    ensures DataTier(spec).value.lv != DataTier(spec).value.metaLv
  {
    var i :| 0 <= i < |spec.tiers| && spec.tiers[i] == DataTier(spec).value;
  }

  lemma {:induction false} NothingDone(m: Machine, spec: Spec, aes: bool, failing: set<string>)
    ensures VolumesKept(m, m, spec, aes, failing) && MappingsGrow(m, m, spec) && DeclaredOnlyAtFirstInit(m, m, spec, aes, failing)
  {
    forall d | VolumeOn(m, d).Some? ensures KeptOrNew(m, m, spec, d, aes, failing) {
      assert KeptVolume(spec, VolumeOn(m, d).value, VolumeOn(m, d).value);
    }
  }

  // What the rows start from.
  ghost predicate RowsBegin(m0: Machine, m: Machine, spec: Spec, aes: bool, failing: set<string>) {
    && Sane(m) && Formatted0(m0, m, spec, aes, failing) && m.declared == m0.declared
    && forall d | VolumeOn(m0, d).Some? && !AnyAtRisk(m0, spec, d, aes, failing) && d in m.disks ::
         m.disks[d].Luks? <==> m0.disks[d].Luks?
  }

  lemma {:induction false} UnchangedKept(m0: Machine, m: Machine, spec: Spec, aes: bool, failing: set<string>)
    requires RowsBegin(m0, m, spec, aes, failing)
    ensures VolumesKept(m0, m, spec, aes, failing)
  {
    forall d | VolumeOn(m, d).Some? ensures KeptOrNew(m0, m, spec, d, aes, failing) {
      if VolumeOn(m, d) == VolumeOn(m0, d) { assert KeptVolume(spec, VolumeOn(m0, d).value, VolumeOn(m, d).value); }
    }
    KeptFrom(m0, m, m, spec, aes, failing);
  }

  // Nothing about the volumes is said by the rest of the machine.
  lemma {:induction false} KeptElsewhere(m0: Machine, m: Machine, m': Machine, spec: Spec, aes: bool, failing: set<string>)
    requires VolumesKept(m0, m, spec, aes, failing) && m'.disks == m.disks
    ensures VolumesKept(m0, m', spec, aes, failing)
  {
    assert forall d :: VolumeOn(m', d) == VolumeOn(m, d) && (NewVolume(m, spec, d, aes) <==> NewVolume(m', spec, d, aes));
    forall d | VolumeOn(m', d).Some? ensures KeptOrNew(m0, m', spec, d, aes, failing) {
      assert KeptOrNew(m0, m, spec, d, aes, failing);
    }
  }

  // Nor about the LVs, while the same VGs are active.
  lemma {:induction false} SameLvs(m: Machine, m': Machine, spec: Spec)
    requires m'.disks == m.disks && m'.active == m.active && m'.crypt == m.crypt
    ensures forall d, v, x :: ShowsOn(m', d, v, x) <==> ShowsOn(m, d, v, x)
    ensures forall v, x :: Shows(m', v, x) <==> Shows(m, v, x)
    ensures Sane(m) ==> Sane(m')
    ensures HoldsMetadata(m', spec) <==> HoldsMetadata(m, spec)
    ensures LacksMetadata(m', spec) <==> LacksMetadata(m, spec)
    ensures DataFormatted(m', spec) <==> DataFormatted(m, spec)
    ensures TiersShow(m', spec) <==> TiersShow(m, spec)
  {
    assert forall d :: VolumeOn(m', d) == VolumeOn(m, d);
    assert forall d :: Mapped(m', d) <==> Mapped(m, d);
  }

  // One change of the metadata LV, and what it leaves of the rest.
  lemma {:induction false} MetadataPut(m0: Machine, m: Machine, spec: Spec, c: Content, aes: bool, failing: set<string>)
    requires RowsBegin(m0, m, spec, aes, failing) && DataTier(spec).Some?
    requires
      || (spec.replicated && c.Drbd? && LacksMetadata(m, spec))
      || (!spec.replicated && spec.convertDisable && c == Scratch && HoldsMetadata(m, spec))
    ensures var t := DataTier(spec).value; var m' := Put(m, t.vg, t.metaLv, c);
      && VolumesKept(m0, m', spec, aes, failing)
      && Sane(m')
      && (TiersShow(m, spec) ==> TiersShow(m', spec))
      && (if c.Drbd? then HoldsMetadata(m', spec) else LacksMetadata(m', spec))
  {
    var t := DataTier(spec).value;
    var m' := Put(m, t.vg, t.metaLv, c);
    MetadataKept(m0, m, spec, c, aes, failing);
    PutKeepsLayout(m, t.vg, t.metaLv, c);
    PutIsSane(m, t.vg, t.metaLv, c);
    KeptFrom(m0, m, m', spec, aes, failing);
  }

  lemma {:induction false} FormatStays(m: Machine, spec: Spec, c: Content)
    requires Valid(spec) && DataFormatted(m, spec)
    ensures var t := DataTier(spec).value; DataFormatted(Put(m, t.vg, t.metaLv, c), spec)
  {
    var t := DataTier(spec).value;
    DataTierIsDistinct(spec);
    PutKeepsLayout(m, t.vg, t.metaLv, c);
    PutElsewhere(m, t.vg, t.metaLv, c, t.lv);
    var d :| d in m.active && ShowsOn(m, d, t.vg, t.lv);
    assert ShowsOn(Put(m, t.vg, t.metaLv, c), d, t.vg, t.lv);
  }

  lemma {:induction false} LoneRowRun(m0: Machine, m1: Machine, m2: Machine, spec: Spec, aes: bool, failing: set<string>)
    requires RowsBegin(m0, m1, spec, aes, failing) && !spec.replicated
    requires
      || m2 == m1
      || (spec.convertDisable && HoldsMetadata(m1, spec)
          && m2 == Put(m1, DataTier(spec).value.vg, DataTier(spec).value.metaLv, Scratch))
    ensures RowsRun(m0, m1, m2, spec, aes, failing)
    ensures m2 != m1 ==> LacksMetadata(m2, spec)
  {
    if m2 == m1 {
      UnchangedKept(m0, m1, spec, aes, failing);
    } else {
      MetadataPut(m0, m1, spec, Scratch, aes, failing);
      if Valid(spec) && DataFormatted(m1, spec) { FormatStays(m1, spec, Scratch); }
    }
  }

  lemma {:induction false} ReplicatedRowRun(m0: Machine, m1: Machine, m2: Machine, spec: Spec, created: bool, md: int, aes: bool, failing: set<string>)
    requires RowsBegin(m0, m1, spec, aes, failing) && spec.replicated
    requires created ==>
      && LacksMetadata(m1, spec)
      && m2 == Put(m1, DataTier(spec).value.vg, DataTier(spec).value.metaLv, Drbd(md)).(link := m2.link, declared := m2.declared)
    requires !created ==> m2 == m1.(link := m2.link)
    requires m2.declared == m1.declared || (created && spec.freshInit && m2.declared == m1.declared + [false])
    ensures RowsRun(m0, m1, m2, spec, aes, failing)
  {
    if created {
      CreatedRowRun(m0, m1, m2, spec, md, aes, failing);
    } else {
      UnchangedKept(m0, m1, spec, aes, failing);
      KeptElsewhere(m0, m1, m2, spec, aes, failing);
      SameLvs(m1, m2, spec);
    }
  }

  lemma {:induction false} CreatedRowRun(m0: Machine, m1: Machine, m2: Machine, spec: Spec, md: int, aes: bool, failing: set<string>)
    requires RowsBegin(m0, m1, spec, aes, failing) && spec.replicated && LacksMetadata(m1, spec)
    requires m2 == Put(m1, DataTier(spec).value.vg, DataTier(spec).value.metaLv, Drbd(md)).(link := m2.link, declared := m2.declared)
    requires m2.declared == m1.declared || (spec.freshInit && m2.declared == m1.declared + [false])
    ensures RowsRun(m0, m1, m2, spec, aes, failing)
  {
    CreatedRowKept(m0, m1, m2, spec, md, aes, failing);
    CreatedRowShows(m0, m1, m2, spec, md, aes, failing);
    CreatedIsNew(m0, m1, m2, spec, aes, failing);
  }

  lemma {:induction false} CreatedRowKept(m0: Machine, m1: Machine, m2: Machine, spec: Spec, md: int, aes: bool, failing: set<string>)
    requires RowsBegin(m0, m1, spec, aes, failing) && spec.replicated && LacksMetadata(m1, spec)
    requires m2 == Put(m1, DataTier(spec).value.vg, DataTier(spec).value.metaLv, Drbd(md)).(link := m2.link, declared := m2.declared)
    ensures VolumesKept(m0, m2, spec, aes, failing)
  {
    var t := DataTier(spec).value;
    MetadataPut(m0, m1, spec, Drbd(md), aes, failing);
    KeptElsewhere(m0, Put(m1, t.vg, t.metaLv, Drbd(md)), m2, spec, aes, failing);
  }

  lemma {:induction false} CreatedRowShows(m0: Machine, m1: Machine, m2: Machine, spec: Spec, md: int, aes: bool, failing: set<string>)
    requires RowsBegin(m0, m1, spec, aes, failing) && spec.replicated && LacksMetadata(m1, spec)
    requires m2 == Put(m1, DataTier(spec).value.vg, DataTier(spec).value.metaLv, Drbd(md)).(link := m2.link, declared := m2.declared)
    ensures Sane(m2) && HoldsMetadata(m2, spec)
    ensures TiersShow(m1, spec) ==> TiersShow(m2, spec)
    ensures Valid(spec) && DataFormatted(m1, spec) ==> DataFormatted(m2, spec)
    ensures forall d, v, x :: ShowsOn(m2, d, v, x) <==> ShowsOn(m1, d, v, x)
  {
    var t := DataTier(spec).value;
    var m' := Put(m1, t.vg, t.metaLv, Drbd(md));
    MetadataPut(m0, m1, spec, Drbd(md), aes, failing);
    PutKeepsLayout(m1, t.vg, t.metaLv, Drbd(md));
    SameLvs(m', m2, spec);
    if Valid(spec) && DataFormatted(m1, spec) { FormatStays(m1, spec, Drbd(md)); }
  }

  lemma {:induction false} CreatedIsNew(m0: Machine, m1: Machine, m2: Machine, spec: Spec, aes: bool, failing: set<string>)
    requires Formatted0(m0, m1, spec, aes, failing) && LacksMetadata(m1, spec)
    requires forall d, v, x :: ShowsOn(m2, d, v, x) <==> ShowsOn(m1, d, v, x)
    ensures MetadataIsNew(m0, m2, spec, aes, failing)
  {
    var t := DataTier(spec).value;
    forall d | d in m2.active && ShowsOn(m2, d, t.vg, t.metaLv)
      ensures
        || Unsafe(m0, spec, d, aes, failing)
        || (t.metaLv in VolumeOn(m0, d).value.lvs && !VolumeOn(m0, d).value.lvs[t.metaLv].Drbd?)
    {
      assert ShowsOn(m1, d, t.vg, t.metaLv);
    }
  }

  // With one node of its name, the metadata LV holds metadata or does not.
  lemma {:induction false} LacksOrHolds(m: Machine, spec: Spec)
    requires Valid(spec) && TiersShow(m, spec) && Sane(m)
    ensures DataTier(spec).Some? ==>
      && (HoldsMetadata(m, spec) <==> !LacksMetadata(m, spec))
      && Shows(m, DataTier(spec).value.vg, DataTier(spec).value.metaLv)
  {
    if DataTier(spec).Some? {
      var t := DataTier(spec).value;
      assert TierShows(m, t);
      var d :| d in m.active && ShowsOn(m, d, t.vg, t.metaLv);
      assert forall x | x in m.active && ShowsOn(m, x, t.vg, t.metaLv) :: x == d;
    }
  }

  lemma {:induction false} FormatRun(m0: Machine, m1: Machine, m2: Machine, spec: Spec, made: bool, fs: int, aes: bool, failing: set<string>)
    requires Valid(spec) && RowsBegin(m0, m1, spec, aes, failing)
    requires made ==> MadeHere(m0, m1, spec, aes, failing)
    requires
      || m2 == m1
      || (made && spec.freshInit && m2 == Put(m1, DataTier(spec).value.vg, DataTier(spec).value.lv, Household(fs)))
    ensures RowsBegin(m0, m2, spec, aes, failing) && VolumesKept(m0, m2, spec, aes, failing)
    ensures m2.crypt == m1.crypt && m2.active == m1.active
    ensures TiersShow(m1, spec) ==> TiersShow(m2, spec)
    ensures m2 != m1 ==> DataFormatted(m2, spec)
    ensures made ==> LacksMetadata(m2, spec)
  {
    if made { MadeLacks(m0, m1, spec, aes, failing); }
    if m2 != m1 {
      var t := DataTier(spec).value;
      FormatIsNew(m0, m1, spec, fs, aes, failing);
      PutKeepsLayout(m1, t.vg, t.lv, Household(fs));
      PutIsSane(m1, t.vg, t.lv, Household(fs));
      DataTierIsDistinct(spec);
      PutElsewhere(m1, t.vg, t.lv, Household(fs), t.metaLv);
    }
    UnchangedKept(m0, m2, spec, aes, failing);
  }

  lemma {:induction false} MadeLacks(m0: Machine, m: Machine, spec: Spec, aes: bool, failing: set<string>)
    requires Sane(m) && MadeHere(m0, m, spec, aes, failing)
    ensures LacksMetadata(m, spec) && Shows(m, DataVg(spec), DataTier(spec).value.lv)
  {
    var t := DataTier(spec).value;
    assert forall d | ShowsOn(m, d, t.vg, t.metaLv) :: d == t.device;
  }

  // ---------------------------------------------------------------- the node

  datatype Answer = Unreadable | Formatted | Blank

  datatype Outcome<+T> = Done(value: T) | Stopped

  class Node {
    var m: Machine
    var crashed: bool
    var faulted: bool            // some command failed though it could work, or the run stopped
    var mirror: bool             // the module a conversion of the volume needs is loaded
    var res: bool                // the resource's file is in /run
    const aes: bool              // the guest's CPU has the instructions
    const failing: set<string>   // the VG names vgchange fails for
    const room: map<string, Room> // what vgs would say of a VG over each device

    constructor (m: Machine, aes: bool, failing: set<string>, room: map<string, Room>)
      ensures this.m == m && !crashed && !faulted && !mirror && !res
      ensures this.aes == aes && this.failing == failing && this.room == room
    {
      this.m, this.crashed, this.faulted, this.mirror, this.res := m, false, false, false, false;
      this.aes, this.failing, this.room := aes, failing, room;
    }

    /** One command: it takes effect, fails, or the run stops before it. A command that cannot
      * work fails. */
    method Command(able: bool, next: Machine) returns (ok: bool)
      modifies `m, `crashed, `faulted
      ensures old(crashed) ==> crashed
      ensures old(faulted) ==> faulted
      ensures ok ==> able && !crashed && faulted == old(faulted)
      ensures !faulted ==> (ok <==> able) && !crashed
      ensures m == if ok then next else old(m)
    {
      var fate: bool := *;
      var crash: bool := *;
      crashed := crashed || crash;
      faulted := faulted || !fate || crashed;
      ok := able && fate && !crashed;
      if ok { m := next; }
    }

    // A question: was it answered?
    method Asked() returns (answered: bool)
      modifies `faulted
      ensures old(faulted) ==> faulted
      ensures !faulted ==> answered
      ensures answered ==> faulted == old(faulted)
    {
      answered := *;
      faulted := faulted || !answered;
    }

    /** Blank is one exit code, and it is truthful; everything else is unreadable. */
    method IsLuks(d: string) returns (a: Answer)
      modifies `faulted
      ensures old(faulted) ==> faulted
      ensures a == Formatted ==> d in m.disks && m.disks[d].Luks?
      ensures a == Blank ==> d in m.disks && m.disks[d].Raw?
      ensures a == Unreadable ==> faulted || d !in m.disks
    {
      var read := Asked();
      if !read || d !in m.disks { return Unreadable; }
      return if m.disks[d].Luks? then Formatted else Blank;
    }

    // `test -b` on an LV's node: a yes is the truth.
    method LvExists(vg: string, lv: string) returns (yes: bool)
      modifies `faulted
      ensures old(faulted) ==> faulted
      ensures yes ==> Shows(m, vg, lv)
      ensures !faulted ==> (yes <==> Shows(m, vg, lv))
    {
      var read := Asked();
      yes := read && Shows(m, vg, lv);
    }

    // vgchange -ay, its error ignored.
    method Activate(vg: string)
      modifies `m, `crashed, `faulted
      ensures old(crashed) ==> crashed
      ensures old(faulted) ==> faulted
      ensures crashed ==> faulted || old(crashed)
      ensures m == if crashed then old(m) else Activated(old(m), vg, failing)
    {
      var crash: bool := *;
      faulted := faulted || crash;
      crashed := crashed || crash;
      if !crashed { m := Activated(m, vg, failing); }
    }

    /** The probe for DRBD's magic: absent is one phrase, said only when there is none. */
    method MetadataPresent(spec: Spec) returns (present: bool)
      modifies `faulted
      ensures old(faulted) ==> faulted
      ensures !present ==> LacksMetadata(m, spec)
      ensures !faulted && present ==> !LacksMetadata(m, spec)
    {
      var read := Asked();
      present := !read || !LacksMetadata(m, spec);
    }

    /** The declaration, and whether a peer was connected when it was made. */
    method Declare() returns (ok: bool)
      modifies `m, `crashed, `faulted
      ensures old(crashed) ==> crashed
      ensures old(faulted) ==> faulted
      ensures ok ==> !crashed && faulted == old(faulted)
      ensures !ok ==> m == old(m)
      ensures ok ==> |m.declared| == |old(m).declared| + 1
      ensures ok ==> m == old(m).(declared := old(m).declared + [m.declared[|m.declared| - 1]])
      ensures ok && old(m).link == Quiet ==> m.declared == old(m).declared + [false]
      ensures !faulted && !old(crashed) ==> (ok <==> old(m).link != Down)
    {
      var peer: bool := *;
      peer := peer && m.link == Dialling;
      ok := Command(m.link != Down, m.(declared := m.declared + [peer]));
    }

    // ---- one tier

    method ResolveCipher(mode: Mode) returns (cipher: Option<bool>)
      modifies `faulted
      ensures old(faulted) ==> faulted
      ensures cipher.Some? ==> cipher.value == Encrypts(mode, aes)
      ensures cipher.None? ==> faulted && mode == ModeAuto
      ensures cipher.Some? ==> faulted == old(faulted)
    {
      if mode == ModeAuto {
        var read := Asked(); // /proc/cpuinfo
        if !read { return None; }
      }
      return Some(Encrypts(mode, aes));
    }

    /** cryptsetup refuses a device in use, and nothing else; the mapping is opened last. */
    method LuksFormat(t: Tier) returns (ok: bool)
      requires Sane(m)
      modifies `m, `crashed, `faulted
      ensures old(crashed) ==> crashed
      ensures old(faulted) ==> faulted
      ensures Sane(m) && Claimed(old(m), m, t, true) && m.active == old(m).active
      ensures !CanLuksFormat(old(m), t.device) ==> m == old(m) && !ok
      ensures m == old(m) || VolumeOn(m, t.device).None?
      ensures CanLuksFormat(old(m), t.device) && !faulted ==> VolumeOn(m, t.device).None?
      ensures ok ==> t.vg !in old(m).crypt
      ensures !faulted && !old(crashed) ==> (ok <==> CanLuksFormat(old(m), t.device) && t.vg !in old(m).crypt)
      ensures ok ==>
        && !crashed && faulted == old(faulted)
        && m == old(m).(disks := old(m).disks[t.device := Luks(true, NoSignature)], crypt := old(m).crypt[t.vg := t.device])
    {
      var d := t.device;
      ghost var m0 := m;
      ok := Command(true, m); // the key file
      if !ok { return; }
      ok := Command(CanLuksFormat(m, d), LuksFormatted(m, d));
      if !ok { return; }
      FormattedIsSane(m0, t, false);
      ok := Command(true, m.(disks := m.disks[d := Luks(true, NoSignature)])); // import the token
      if !ok { return; }
      FormattedIsSane(m0, t, true);
      ghost var f := m0.(disks := m0.disks[d := Luks(true, NoSignature)]);
      assert m.disks == f.disks;
      assert m == f;
      ok := Command(t.vg !in m.crypt, m.(crypt := m.crypt[t.vg := d]));
    }

    method OpenReturning(t: Tier) returns (ok: bool)
      requires t.device in m.disks && m.disks[t.device].Luks?
      modifies `m, `crashed, `faulted
      ensures old(crashed) ==> crashed
      ensures old(faulted) ==> faulted
      ensures m == old(m) || m == Unlocked(old(m), t)
      ensures ok ==> (faulted ==> old(faulted) || t.vg !in old(m).crypt)
      ensures ok ==> !crashed && m == Unlocked(old(m), t) && Opens(old(m), t)
      ensures m != old(m) ==> Opens(old(m), t)
      ensures !faulted && !old(crashed) && Opens(old(m), t) ==> ok
    {
      var seen := Asked(); // test -b on the mapping
      if seen && t.vg in m.crypt { return !crashed; }
      ok := Command(m.disks[t.device].token, m); // read the clear key back
      if !ok { return; }
      ok := Command(t.vg !in m.crypt && !Mapped(m, t.device), m.(crypt := m.crypt[t.vg := t.device]));
    }

    // vgs, of the VG just made on this device.
    method ReadExtents(d: string) returns (r: Option<Room>)
      modifies `m, `crashed, `faulted
      ensures old(crashed) ==> crashed
      ensures old(faulted) ==> faulted
      ensures m == old(m)
      ensures r.Some? ==> !crashed && faulted == old(faulted) && d in room && r.value == room[d] && r.value.extent > 0
      ensures !faulted && !old(crashed) && r.None? ==> !(d in room && room[d].extent > 0)
    {
      var ok := Command(d in room && room[d].extent > 0, m);
      r := if ok then Some(room[d]) else None;
    }

    /** The split: the metadata gets its extents and the data LV every other one; too small a disk
      * has none left. */
    method DataExtents(d: string, maxPeers: nat) returns (data: Option<nat>)
      modifies `m, `crashed, `faulted
      ensures old(crashed) ==> crashed
      ensures old(faulted) ==> faulted
      ensures m == old(m)
      ensures data.Some? ==> !crashed && faulted == old(faulted) && Fits(room, d, maxPeers)
      ensures data.Some? ==>
        data.value > 0 && data.value + MetadataExtents(Bytes(room[d]), room[d].extent, maxPeers) == room[d].total
      ensures !faulted && !old(crashed) && Fits(room, d, maxPeers) ==> data.Some?
    {
      var r := ReadExtents(d);
      if r.None? { return None; }
      var meta := MetadataExtents(Bytes(r.value), r.value.extent, maxPeers);
      data := if meta >= r.value.total then None else Some(r.value.total - meta);
    }

    // The PV and the VG, on a device nothing has a claim to.
    method MakeGroup(t: Tier, encrypted: bool) returns (ok: bool, uuid: int)
      requires Sane(m)
      modifies `m, `crashed, `faulted
      ensures old(crashed) ==> crashed
      ensures old(faulted) ==> faulted
      ensures Sane(m) && Claimed(old(m), m, t, false)
      ensures SameKind(old(m), m, t.device, encrypted)
      ensures ok ==>
        && !crashed && faulted == old(faulted)
        && Accessible(old(m), t.device) && VolumeOn(old(m), t.device).None? && Visible(old(m), t.vg) == {}
        && m == Carved(old(m), t.device, PvOf(Vg(t.vg, uuid, map[], map[])))
        && (m.disks[t.device].Luks? <==> encrypted)
      ensures !faulted && !old(crashed) && CanCarve(old(m), t, encrypted) ==> ok
      ensures ok ==> CanCarve(old(m), t, encrypted)
    {
      var d := t.device;
      uuid := 0;
      if d !in m.disks { return false, uuid; }
      ghost var m0 := m;
      var blank := m.disks[d].sig == NoSignature
        && (if encrypted then m.disks[d].Luks? && t.vg in m.crypt && m.crypt[t.vg] == d else m.disks[d].Raw?);
      ok := Command(blank, WithSig(m, d, PvOnly)); // pvcreate
      if !ok { return; }
      CarvedIsSane(m0, t, PvOnly);
      uuid := *;
      ok := Command(Visible(m, t.vg) == {}, Carved(m, d, PvOf(Vg(t.vg, uuid, map[], map[])))); // vgcreate
      VisibleBefore(m0, t);
      if !ok { return; }
      CarvedIsSane(m0, t, PvOf(Vg(t.vg, uuid, map[], map[])));
    }

    /** pvcreate without -f refuses any signature, and a device in use; vgcreate a name that LVM
      * sees; and the two lvcreates follow. */
    method BuildVolume(t: Tier, encrypted: bool, maxPeers: nat) returns (ok: bool)
      requires Sane(m)
      modifies `m, `crashed, `faulted
      ensures old(crashed) ==> crashed
      ensures old(faulted) ==> faulted
      ensures Sane(m) && Claimed(old(m), m, t, false)
      ensures SameKind(old(m), m, t.device, encrypted)
      ensures ok ==>
        && !crashed && faulted == old(faulted)
        && VolumeOn(old(m), t.device).None?
        && ShowsOn(m, t.device, t.vg, t.lv) && ShowsOn(m, t.device, t.vg, t.metaLv)
        && VolumeOn(m, t.device).value.lvs == map[t.lv := Scratch, t.metaLv := Scratch]
        && SplitRight(VolumeOn(m, t.device).value, t, room, maxPeers)
        && CanCarve(old(m), t, encrypted)
      ensures !faulted && !old(crashed) && CanCarve(old(m), t, encrypted) && Fits(room, t.device, maxPeers) && t.lv != t.metaLv ==> ok
    {
      ghost var m0 := m;
      var uuid;
      ok, uuid := MakeGroup(t, encrypted);
      if !ok { return; }
      var data := DataExtents(t.device, maxPeers);
      if data.None? { return false; }
      CarvedAgain(m0, t.device, m.disks[t.device].sig);
      ghost var vg;
      ok, vg := MakeLvs(t, uuid, data.value);
      LvsCarved(m0, t, vg);
    }

    // The two lvcreates, the data LV first; the metadata LV takes what it leaves.
    method MakeLvs(t: Tier, uuid: int, data: nat) returns (ok: bool, ghost vg: Vg)
      requires t.device in m.disks && m.disks[t.device].sig == PvOf(Vg(t.vg, uuid, map[], map[])) && t.device in m.active
      requires t.device in room && data <= room[t.device].total
      modifies `m, `crashed, `faulted
      ensures old(crashed) ==> crashed
      ensures old(faulted) ==> faulted
      ensures vg.name == t.vg && AllScratch(vg)
      ensures m == Carved(old(m), t.device, PvOf(vg))
      ensures ok ==>
        && !crashed && faulted == old(faulted) && t.lv != t.metaLv
        && vg == Vg(t.vg, uuid, map[t.lv := Scratch, t.metaLv := Scratch], map[t.lv := data, t.metaLv := room[t.device].total - data])
      ensures !faulted && !old(crashed) && t.lv != t.metaLv ==> ok
    {
      var d := t.device;
      vg := Vg(t.vg, uuid, map[], map[]);
      assert m.active + {d} == m.active;
      assert m == Carved(m, d, PvOf(vg));
      var one := Vg(t.vg, uuid, map[t.lv := Scratch], map[t.lv := data]);
      var two := Vg(t.vg, uuid, map[t.lv := Scratch, t.metaLv := Scratch], map[t.lv := data, t.metaLv := room[d].total - data]);
      CarvedAgain(m, d, PvOf(one));
      ok := Command(true, Carved(m, d, PvOf(one)));
      if !ok { return; }
      vg := one;
      ok := Command(t.lv != t.metaLv, Carved(m, d, PvOf(two)));
      if ok { vg := two; }
    }

    /** The returning node: what is there is opened and activated, and nothing destructive runs.
      * False is the answer that sends the run down the blank-disk path. */
    method FindVolume(t: Tier) returns (r: Outcome<bool>)
      requires Sane(m)
      modifies `m, `crashed, `faulted
      ensures old(crashed) ==> crashed
      ensures old(faulted) ==> faulted
      ensures Sane(m) && TierBuilt(old(m), m, t, aes, failing) && m.disks == old(m).disks
      ensures r.Done? ==> !crashed && Opens(old(m), t) && m == Searched(old(m), t, failing)
      ensures r.Done? && r.value ==> TierShows(m, t)
      ensures !faulted && r == Done(false) ==> !Shows(m, t.vg, t.lv)
      ensures !faulted && !old(crashed) && Opens(old(m), t) && !Shows(Searched(old(m), t, failing), t.vg, t.lv) ==> r == Done(false)
      ensures !faulted && !old(crashed) && Returns(old(m), t, failing) ==> r == Done(true)
      ensures r == Done(true) ==> Returns(old(m), t, failing)
    {
      r := Stopped;
      ghost var m0 := m;
      SearchBuilds(m0, m0, t, aes, failing);
      var answer := IsLuks(t.device);
      if answer == Unreadable { return; }
      SearchBuilds(m0, Unlocked(m0, t), t, aes, failing);
      if answer == Formatted {
        var ok := OpenReturning(t);
        if m != m0 { SearchIsSane(m0, t, failing); }
        if !ok { return; }
      }
      SearchIsSane(m0, t, failing);
      SearchBuilds(m0, Searched(m0, t, failing), t, aes, failing);
      Activate(t.vg);
      if crashed { return; }
      var there := LvExists(t.vg, t.lv);
      if there {
        var meta := LvExists(t.vg, t.metaLv);
        if !meta { return; } // from before the metadata LV
      }
      r := Done(there);
    }

    /** The blank-disk path. */
    method MakeVolume(t: Tier, maxPeers: nat) returns (ok: bool)
      requires Sane(m)
      modifies `m, `crashed, `faulted
      ensures old(crashed) ==> crashed
      ensures old(faulted) ==> faulted
      ensures Sane(m) && Claimed(old(m), m, t, Encrypts(t.mode, aes))
      ensures MadeRight(old(m), m, t, aes)
      ensures !faulted && Encrypts(t.mode, aes) && CanLuksFormat(old(m), t.device) ==>
                VolumeOn(m, t.device).None? || AllScratch(VolumeOn(m, t.device).value)
      ensures ok ==>
        && !crashed && faulted == old(faulted)
        && (VolumeOn(old(m), t.device).None? || (Encrypts(t.mode, aes) && CanLuksFormat(old(m), t.device)))
        && ShowsOn(m, t.device, t.vg, t.lv) && ShowsOn(m, t.device, t.vg, t.metaLv)
        && VolumeOn(m, t.device).value.lvs == map[t.lv := Scratch, t.metaLv := Scratch]
        && (m.disks[t.device].Luks? <==> t.mode == ModeAdiantum || (t.mode == ModeAuto && aes))
        && (m.disks[t.device].Luks? ==> m.disks[t.device].token)
        && SplitRight(VolumeOn(m, t.device).value, t, room, maxPeers)
      ensures !faulted && !old(crashed) && CanMake(old(m), t, aes, room, maxPeers) ==> ok
      ensures ok ==> CanMake(old(m), t, aes, room, maxPeers)
    {
      ok := false;
      ghost var m0 := m;
      var cipher := ResolveCipher(t.mode);
      if cipher.None? { return; }
      if cipher.value {
        ok := LuksFormat(t);
        if !ok { return; }
      }
      ghost var m1 := m;
      LockedIsBlank(m0, m1, t, aes, room, maxPeers);
      ok := BuildVolume(t, cipher.value, maxPeers);
      ClaimedTwice(m0, m1, m, t, cipher.value);
    }

    /** One tier brought to "the LVs exist", and whether this run made them. Of a run in which nothing
      * failed: a returning node is found, and an exposed volume whose LV's name nothing else shows is
      * lost. */
    method BuildTier(t: Tier, maxPeers: nat) returns (r: Outcome<bool>)
      requires Sane(m)
      modifies `m, `crashed, `faulted
      ensures old(crashed) ==> crashed
      ensures old(faulted) ==> faulted
      ensures Sane(m)
      ensures TierBuilt(old(m), m, t, aes, failing)
      ensures r.Done? ==> !crashed && TierShows(m, t)
      ensures r == Done(true) ==>
        && ShowsOn(m, t.device, t.vg, t.lv) && ShowsOn(m, t.device, t.vg, t.metaLv)
        && VolumeOn(m, t.device).value.lvs == map[t.lv := Scratch, t.metaLv := Scratch]
        && (m.disks[t.device].Luks? <==> t.mode == ModeAdiantum || (t.mode == ModeAuto && aes))
        && (m.disks[t.device].Luks? ==> m.disks[t.device].token)
        && SplitRight(VolumeOn(m, t.device).value, t, room, maxPeers)
        && (VolumeOn(old(m), t.device).None? || Exposed(old(m), t, aes, failing))
      ensures r == Done(false) ==> m == Searched(old(m), t, failing)
      ensures !faulted && !old(crashed) ==> (r == Done(false) <==> Returns(old(m), t, failing))
      ensures !faulted && !old(crashed) ==>
                (r == Done(true) <==> Makes(old(m), t, aes, failing, room, maxPeers))
      ensures !faulted && !old(crashed) && Exposed(old(m), t, aes, failing) && !Shows(Searched(old(m), t, failing), t.vg, t.lv) ==>
                Lost(old(m), m, t.device)
      ensures !faulted && VolumeOn(old(m), t.device).Some? && VolumeOn(m, t.device) != VolumeOn(old(m), t.device) ==>
                Exposed(old(m), t, aes, failing) && !Shows(Searched(old(m), t, failing), t.vg, t.lv)
    {
      ghost var m0 := m;
      r := FindVolume(t);
      if r.Stopped? { return; }
      if r.value { return Done(false); }
      ghost var m1 := m;
      SearchIsSane(m0, t, failing);
      if VolumeOn(m0, t.device).Some? { SearchSpares(m0, t, aes, failing); }
      var ok := MakeVolume(t, maxPeers);
      SearchThenClaim(m0, m, t, aes, failing);
      r := if ok then Done(true) else Stopped;
    }

    // ---- the whole bring-up

    // One turn of the loop over the tiers.
    method NextTier(spec: Spec, i: nat, made: bool, ghost m0: Machine) returns (one: Outcome<bool>)
      requires Valid(spec) && i < |spec.tiers| && TiersDone(m0, m, spec, i, made, aes, failing)
      modifies `m, `crashed, `faulted
      ensures old(crashed) ==> crashed
      ensures old(faulted) ==> faulted
      ensures Sane(m) && Built(m0, m, spec, aes, failing)
      ensures one.Done? ==>
        && !crashed
        && TiersDone(m0, m, spec, i + 1, if spec.tiers[i].name == TIER_DATA then one.value else made, aes, failing)
      ensures !faulted && !old(crashed) && Favours(m0, spec, failing, room) && Underway(m0, old(m), spec, i, made, failing, room) ==>
        one.Done? && Underway(m0, m, spec, i + 1, if spec.tiers[i].name == TIER_DATA then one.value else made, failing, room)
    {
      ghost var before, was := m, crashed;
      var t := spec.tiers[i];
      one := BuildTier(t, spec.maxPeers);
      OneTierBuilt(m0, before, m, spec, i, made, one, aes, failing);
      if !faulted && !was && Favours(m0, spec, failing, room) && Underway(m0, before, spec, i, made, failing, room) {
        NextIsUp(m0, before, m, spec, i, made, one, aes, failing, room);
      }
    }

    /** Every tier in turn; the result says this run made the data tier's LVs. */
    method BuildTiers(spec: Spec) returns (r: Outcome<bool>)
      requires Sane(m) && Valid(spec)
      modifies `m, `crashed, `faulted
      ensures old(crashed) ==> crashed
      ensures old(faulted) ==> faulted
      ensures Sane(m)
      ensures Built(old(m), m, spec, aes, failing)
      ensures r.Done? ==> !crashed && TiersDone(old(m), m, spec, |spec.tiers|, r.value, aes, failing)
      ensures !faulted && !old(crashed) && Favours(old(m), spec, failing, room) ==>
        r.Done? && Underway(old(m), m, spec, |spec.tiers|, r.value, failing, room)
    {
      ghost var m0 := m;
      ghost var favoured := !crashed && Favours(m, spec, failing, room);
      if favoured { UnderwayStarts(m, spec, failing, room); }
      var made := false;
      for i := 0 to |spec.tiers|
        invariant old(crashed) ==> crashed
        invariant old(faulted) ==> faulted
        invariant i > 0 || favoured ==> !crashed
        invariant TiersDone(m0, m, spec, i, made, aes, failing)
        invariant !faulted && favoured ==> Underway(m0, m, spec, i, made, failing, room)
      {
        var one := NextTier(spec, i, made, m0);
        if one.Stopped? { return Stopped; }
        if spec.tiers[i].name == TIER_DATA { made := one.value; }
      }
      if crashed { return Stopped; }
      return Done(made);
    }

    /** The format: only what this run's own lvcreate made, and only for a seed. */
    method Format(spec: Spec, made: bool) returns (ok: bool, fs: int)
      requires Sane(m)
      modifies `m, `crashed, `faulted
      ensures old(crashed) ==> crashed
      ensures old(faulted) ==> faulted
      ensures ok ==> !crashed && faulted == old(faulted)
      ensures !faulted && !old(crashed) ==>
        (ok <==> !made || !spec.freshInit || (DataTier(spec).Some? && Shows(old(m), DataTier(spec).value.vg, DataTier(spec).value.lv)))
      ensures
        || (m == old(m) && (ok ==> !made || !spec.freshInit))
        || (made && spec.freshInit && DataTier(spec).Some?
            && m == Put(old(m), DataTier(spec).value.vg, DataTier(spec).value.lv, Household(fs)))
    {
      fs := *;
      if !made || !spec.freshInit { return !crashed, fs; }
      match DataTier(spec) {
        case None => ok := false;
        case Some(t) => ok := Command(Shows(m, t.vg, t.lv), Put(m, t.vg, t.lv, Household(fs)));
      }
    }

    /** The lone rows: nothing, a refusal, or the asserted wipe. */
    method LoneNode(spec: Spec, present: bool) returns (ok: bool)
      modifies `m, `crashed, `faulted, `res
      ensures old(crashed) ==> crashed
      ensures old(faulted) ==> faulted
      ensures ok ==> !crashed && faulted == old(faulted)
      ensures
        || (m == old(m) && (ok ==> !present))
        || (present && spec.convertDisable && HoldsMetadata(old(m), spec)
            && m == Put(old(m), DataTier(spec).value.vg, DataTier(spec).value.metaLv, Scratch))
      ensures ok && present ==> !res
      ensures !faulted && !old(crashed) ==> (ok <==> !present || (spec.convertDisable && HoldsMetadata(old(m), spec)))
    {
      if !present { return !crashed; }
      if !spec.convertDisable { return false; }
      match DataTier(spec) {
        case None => return false;
        case Some(t) =>
          ok := Command(HoldsMetadata(m, spec), Put(m, t.vg, t.metaLv, Scratch)); // wipe-md
          if !ok { return; }
          ok := Command(true, m); // the leftover .res
          if ok { res := false; }
      }
    }

    /** create-md --force, where the probe said there is nothing to protect. */
    method CreateMetadata(spec: Spec) returns (ok: bool, md: int)
      modifies `m, `crashed, `faulted
      ensures old(crashed) ==> crashed
      ensures old(faulted) ==> faulted
      ensures ok ==> !crashed && faulted == old(faulted)
      ensures !ok ==> m == old(m)
      ensures ok ==>
        && DataTier(spec).Some?
        && Shows(old(m), DataTier(spec).value.vg, DataTier(spec).value.metaLv)
        && m == Put(old(m), DataTier(spec).value.vg, DataTier(spec).value.metaLv, Drbd(md))
      ensures !faulted && !old(crashed) ==>
        (ok <==> DataTier(spec).Some? && Shows(old(m), DataTier(spec).value.vg, DataTier(spec).value.metaLv))
    {
      md := *;
      match DataTier(spec) {
        case None => ok := false;
        case Some(t) => ok := Command(Shows(m, t.vg, t.metaLv), Put(m, t.vg, t.metaLv, Drbd(md)));
      }
    }

    // up, disconnect, and the word said with every connection down.
    method SayUpToDate() returns (ok: bool)
      modifies `m, `crashed, `faulted
      ensures old(crashed) ==> crashed
      ensures old(faulted) ==> faulted
      ensures ok ==> !crashed && faulted == old(faulted)
      ensures m == old(m).(link := m.link, declared := m.declared)
      ensures m.declared == if ok then old(m).declared + [false] else old(m).declared
      ensures !faulted && !old(crashed) ==> ok
    {
      ok := Command(true, m.(link := Dialling)); // up
      if !ok { return; }
      ok := Command(m.link != Down, m.(link := Quiet)); // disconnect
      if !ok { return; }
      ok := Declare();
    }

    /** The replicated rows. */
    method Attach(spec: Spec, present: bool) returns (ok: bool, created: bool, md: int)
      modifies `m, `crashed, `faulted, `res
      ensures old(crashed) ==> crashed
      ensures old(faulted) ==> faulted
      ensures ok ==> !crashed && faulted == old(faulted)
      ensures created ==>
        && !present && !spec.diskless && DataTier(spec).Some?
        && Shows(old(m), DataTier(spec).value.vg, DataTier(spec).value.metaLv)
        && m == Put(old(m), DataTier(spec).value.vg, DataTier(spec).value.metaLv, Drbd(md)).(link := m.link, declared := m.declared)
      ensures !created ==> m == old(m).(link := m.link)
      ensures m.declared == old(m).declared || (created && spec.freshInit && m.declared == old(m).declared + [false])
      ensures ok ==> m.link == Dialling && (spec.diskless || HoldsMetadata(m, spec)) && res
      ensures ok ==> (created <==> !spec.diskless && !present)
      ensures ok && created ==> m.declared == old(m).declared + if spec.freshInit then [false] else []
      ensures !faulted && !old(crashed) ==>
        (ok <==>
          || spec.diskless
          || (if present then HoldsMetadata(old(m), spec)
              else DataTier(spec).Some? && Shows(old(m), DataTier(spec).value.vg, DataTier(spec).value.metaLv)))
    {
      created, md := false, 0;
      ok := Command(true, m); // the .res
      if !ok { return; }
      res := true;
      if !spec.diskless && !present {
        ok, md := CreateMetadata(spec);
        if !ok { return; }
        created := true;
      }
      if created && spec.freshInit {
        ok := SayUpToDate();
        if !ok { return; }
      }
      // the stock target: attaching wants metadata on the disk
      ok := Command(spec.diskless || HoldsMetadata(m, spec), m.(link := Dialling));
    }

    // The rows by topology, over the volume that was found or made.
    method Rows(spec: Spec, made: bool, ghost m0: Machine) returns (ok: bool)
      requires RowsBegin(m0, m, spec, aes, failing)
      requires made ==> LacksMetadata(m, spec)
      modifies `m, `crashed, `faulted, `res
      ensures old(crashed) ==> crashed
      ensures old(faulted) ==> faulted
      ensures ok ==> !crashed
      ensures RowsRun(m0, old(m), m, spec, aes, failing)
      ensures ok ==> RowsEnded(m, spec) && (spec.replicated ==> res)
      ensures ok && spec.replicated && !spec.diskless && !faulted ==>
        (if spec.freshInit && LacksMetadata(old(m), spec) then m.declared == old(m).declared + [false]
         else m.declared == old(m).declared)
      ensures !faulted && !old(crashed) && Valid(spec) && TiersShow(old(m), spec) ==>
        (ok <==> if spec.replicated then spec.diskless || DataTier(spec).Some? else spec.convertDisable || LacksMetadata(old(m), spec))
    {
      var present := false;
      if Valid(spec) && TiersShow(m, spec) { LacksOrHolds(m, spec); }
      if !made && !spec.diskless { present := MetadataPresent(spec); }
      ghost var m1 := m;
      if !spec.replicated {
        ok := LoneNode(spec, present);
        LoneRowRun(m0, m1, m, spec, aes, failing);
      } else {
        var created, md;
        ok, created, md := Attach(spec, present);
        ReplicatedRowRun(m0, m1, m, spec, created, md, aes, failing);
      }
    }

    // modprobe, for a node that has tiers.
    method LoadModule(spec: Spec) returns (ok: bool)
      modifies `crashed, `faulted, `mirror, `m
      ensures old(crashed) ==> crashed
      ensures old(faulted) ==> faulted
      ensures m == old(m)
      ensures ok ==> !crashed && faulted == old(faulted) && (if |spec.tiers| > 0 then mirror else mirror == old(mirror))
      ensures !faulted && !old(crashed) ==> ok
    {
      ok := !crashed;
      if |spec.tiers| > 0 {
        ok := Command(true, m);
        if ok { mirror := true; }
      }
    }

    // The tiers, and what the rows start from.
    method Tiers(spec: Spec, ghost sure: bool) returns (r: Outcome<bool>)
      requires Sane(m) && Valid(spec) && (sure ==> Favours(m, spec, failing, room))
      modifies `m, `crashed, `faulted
      ensures old(crashed) ==> crashed
      ensures old(faulted) ==> faulted
      ensures RowsBegin(old(m), m, spec, aes, failing)
      ensures MappingsGrow(old(m), m, spec)
      ensures m == old(m).(disks := m.disks, crypt := m.crypt, active := m.active)
      ensures r.Done? ==> !crashed && TiersShow(m, spec)
      ensures r == Done(true) ==> MadeHere(old(m), m, spec, aes, failing)
      ensures r == Done(false) && OwnName(spec) ==> NameTaken(old(m), DataVg(spec))
      ensures !faulted && !old(crashed) && sure ==> r.Done? && MetadataAsFound(old(m), m, spec, r.value)
    {
      ghost var m0 := m;
      r := BuildTiers(spec);
      BuiltIsFormatted0(m0, m, spec, aes, failing);
      if r.Done? { AllTiersDone(m0, m, spec, r.value, aes, failing); }
    }

    // Everything before the rows: the tiers, the format, the word for the units.
    method Prepare(spec: Spec, ghost sure: bool) returns (r: Outcome<bool>)
      requires Sane(m) && Valid(spec) && (sure ==> Favours(m, spec, failing, room))
      modifies `m, `crashed, `faulted
      ensures old(crashed) ==> crashed
      ensures old(faulted) ==> faulted
      ensures RowsBegin(old(m), m, spec, aes, failing) && MappingsGrow(old(m), m, spec)
      ensures r.Done? ==> !crashed && TiersShow(m, spec) && m.topology == Some(spec.replicated)
      ensures r == Done(true) ==> LacksMetadata(m, spec) && (spec.freshInit ==> DataFormatted(m, spec))
      ensures r == Done(false) && OwnName(spec) ==> NameTaken(old(m), DataVg(spec))
      ensures !faulted && !old(crashed) && sure ==> r.Done? && MetadataAsFound(old(m), m, spec, r.value)
    {
      ghost var m0 := m;
      r := Tiers(spec, sure);
      if r.Done? {
        var ok := Finish(spec, r.value, m0);
        r := if ok then r else Stopped;
      }
    }

    // The format and the word for the units.
    method Finish(spec: Spec, made: bool, ghost m0: Machine) returns (ok: bool)
      requires Valid(spec) && RowsBegin(m0, m, spec, aes, failing) && MappingsGrow(m0, m, spec)
      requires made ==> MadeHere(m0, m, spec, aes, failing)
      modifies `m, `crashed, `faulted
      ensures old(crashed) ==> crashed
      ensures old(faulted) ==> faulted
      ensures RowsBegin(m0, m, spec, aes, failing) && MappingsGrow(m0, m, spec)
      ensures ok ==> !crashed && faulted == old(faulted) && m.topology == Some(spec.replicated)
      ensures TiersShow(old(m), spec) ==> TiersShow(m, spec)
      ensures ok && made ==> LacksMetadata(m, spec) && (spec.freshInit ==> DataFormatted(m, spec))
      ensures !made ==> (LacksMetadata(m, spec) <==> LacksMetadata(old(m), spec))
      ensures !faulted && !old(crashed) ==> ok
    {
      ok := FormatMade(spec, made, m0);
      if !ok { return; }
      ok := SayTopology(spec, m0);
    }

    // The word for the units.
    method SayTopology(spec: Spec, ghost m0: Machine) returns (ok: bool)
      requires RowsBegin(m0, m, spec, aes, failing) && MappingsGrow(m0, m, spec)
      modifies `m, `crashed, `faulted
      ensures old(crashed) ==> crashed
      ensures old(faulted) ==> faulted
      ensures ok ==> !crashed && faulted == old(faulted) && m.topology == Some(spec.replicated)
      ensures !faulted && !old(crashed) ==> ok
      ensures RowsBegin(m0, m, spec, aes, failing) && MappingsGrow(m0, m, spec)
      ensures TiersShow(m, spec) <==> TiersShow(old(m), spec)
      ensures LacksMetadata(m, spec) <==> LacksMetadata(old(m), spec)
      ensures DataFormatted(m, spec) <==> DataFormatted(old(m), spec)
    {
      ghost var m1 := m;
      ok := Command(true, m.(topology := Some(spec.replicated)));
      SameLvs(m1, m, spec);
      BeginsElsewhere(m0, m1, m, spec, aes, failing);
    }

    method FormatMade(spec: Spec, made: bool, ghost m0: Machine) returns (ok: bool)
      requires Valid(spec) && RowsBegin(m0, m, spec, aes, failing) && MappingsGrow(m0, m, spec)
      requires made ==> MadeHere(m0, m, spec, aes, failing)
      modifies `m, `crashed, `faulted
      ensures old(crashed) ==> crashed
      ensures old(faulted) ==> faulted
      ensures ok ==> !crashed && faulted == old(faulted)
      ensures RowsBegin(m0, m, spec, aes, failing) && MappingsGrow(m0, m, spec)
      ensures TiersShow(old(m), spec) ==> TiersShow(m, spec)
      ensures ok && made ==> LacksMetadata(m, spec) && (spec.freshInit ==> DataFormatted(m, spec))
      ensures !made ==> m == old(m)
      ensures !faulted && !old(crashed) ==> ok
    {
      ghost var m1 := m;
      if made { MadeLacks(m0, m1, spec, aes, failing); }
      var fs;
      ok, fs := Format(spec, made);
      FormatRun(m0, m1, m, spec, made, fs, aes, failing);
      MappingsStay(m0, m1, m, spec);
    }

    /** The whole bring-up, stopped or finished. */
    method BringUp(spec: Spec) returns (ok: bool)
      requires Sane(m) && Valid(spec)
      modifies this
      ensures old(crashed) ==> crashed
      ensures old(faulted) ==> faulted
      ensures ok ==> !crashed
      ensures Sane(m)
      ensures VolumesKept(old(m), m, spec, aes, failing) && MappingsGrow(old(m), m, spec)
      ensures DeclaredOnlyAtFirstInit(old(m), m, spec, aes, failing)
      ensures ok ==> RowsEnded(m, spec) && m.topology == Some(spec.replicated) && TiersShow(m, spec)
      ensures ok && spec.freshInit && OwnName(spec) && !NameTaken(old(m), DataVg(spec)) ==> DataFormatted(m, spec)
      ensures ok ==> (|spec.tiers| > 0 ==> mirror) && (spec.replicated ==> res)
      ensures !faulted && !old(crashed) && Favours(old(m), spec, failing, room) ==>
        (ok <==> ComesUp(old(m), spec))
      ensures !faulted && !old(crashed) && Favours(old(m), spec, failing, room) && spec.replicated && !spec.diskless && ok ==>
        (if spec.freshInit && !HadMetadata(old(m), spec) then m.declared == old(m).declared + [false]
         else m.declared == old(m).declared)
    {
      ok := LoadModule(spec);
      NothingDone(m, spec, aes, failing);
      if ok { ok := StorageUp(spec, Favours(m, spec, failing, room)); }
    }

    // The same, once the module is loaded.
    method StorageUp(spec: Spec, ghost sure: bool) returns (ok: bool)
      requires Sane(m) && Valid(spec) && (sure ==> Favours(m, spec, failing, room))
      modifies `m, `crashed, `faulted, `res
      ensures old(crashed) ==> crashed
      ensures old(faulted) ==> faulted
      ensures ok ==> !crashed
      ensures Sane(m)
      ensures VolumesKept(old(m), m, spec, aes, failing) && MappingsGrow(old(m), m, spec)
      ensures DeclaredOnlyAtFirstInit(old(m), m, spec, aes, failing)
      ensures ok ==> RowsEnded(m, spec) && m.topology == Some(spec.replicated) && TiersShow(m, spec) && (spec.replicated ==> res)
      ensures ok && spec.freshInit && OwnName(spec) && !NameTaken(old(m), DataVg(spec)) ==> DataFormatted(m, spec)
      ensures !faulted && !old(crashed) && sure ==> (ok <==> ComesUp(old(m), spec))
      ensures !faulted && !old(crashed) && sure && spec.replicated && !spec.diskless && ok ==>
        (if spec.freshInit && !HadMetadata(old(m), spec) then m.declared == old(m).declared + [false]
         else m.declared == old(m).declared)
    {
      ghost var m0 := m;
      var prepared := Prepare(spec, sure);
      UnchangedKept(m0, m, spec, aes, failing);
      ok := false;
      if prepared.Done? { ok := Rows(spec, prepared.value, m0); }
    }
  }

  lemma {:induction false} NextIsUp(m0: Machine, m: Machine, m': Machine, spec: Spec, i: nat, made: bool, one: Outcome<bool>,
                                    aes: bool, failing: set<string>, room: map<string, Room>)
    requires Valid(spec) && i < |spec.tiers| && Sane(m) && Favours(m0, spec, failing, room)
    requires Underway(m0, m, spec, i, made, failing, room) && TierBuilt(m, m', spec.tiers[i], aes, failing)
    requires one == Done(false) <==> Returns(m, spec.tiers[i], failing)
    requires one == Done(true) <==> Makes(m, spec.tiers[i], aes, failing, room, spec.maxPeers)
    requires one == Done(false) ==> m'.disks == m.disks
    ensures one.Done?
    ensures Underway(m0, m', spec, i + 1, if spec.tiers[i].name == TIER_DATA then one.value else made, failing, room)
  {
    var t := spec.tiers[i];
    assert StillFavoured(m0, m, spec, t, failing, room);
    FavouredReady(m, t, aes, failing, room, spec.maxPeers);
    UnderwayMore(m0, m, m', spec, i, made, one.value, aes, failing, room);
  }

  lemma {:induction false} MappingsStay(m0: Machine, m: Machine, m': Machine, spec: Spec)
    requires MappingsGrow(m0, m, spec) && m'.crypt == m.crypt
    ensures MappingsGrow(m0, m', spec)
  {
  }

  lemma {:induction false} BeginsElsewhere(m0: Machine, m: Machine, m': Machine, spec: Spec, aes: bool, failing: set<string>)
    requires RowsBegin(m0, m, spec, aes, failing) && m' == m.(topology := m'.topology)
    ensures RowsBegin(m0, m', spec, aes, failing)
  {
    SameLvs(m, m', spec);
    assert forall d :: VolumeOn(m', d) == VolumeOn(m, d) && (NewVolume(m', spec, d, aes) <==> NewVolume(m, spec, d, aes));
  }

  lemma {:induction false} FormattedIsSane(m: Machine, t: Tier, token: bool)
    requires Sane(m) && CanLuksFormat(m, t.device)
    ensures var f := m.(disks := m.disks[t.device := Luks(token, NoSignature)]);
      && Sane(f) && Claimed(m, f, t, true) && VolumeOn(f, t.device).None?
      && (t.vg !in m.crypt ==> Sane(f.(crypt := f.crypt[t.vg := t.device])) && Claimed(m, f.(crypt := f.crypt[t.vg := t.device]), t, true))
  {
    var f := m.(disks := m.disks[t.device := Luks(token, NoSignature)]);
    assert forall x | x in m.active :: x != t.device;
    FormattedAlone(m, f, t);
    if t.vg !in m.crypt { OpenedIsSane(m, f, t); }
  }

  lemma {:induction false} FormattedAlone(m: Machine, f: Machine, t: Tier)
    requires Sane(m) && CanLuksFormat(m, t.device)
    requires f == m.(disks := f.disks) && t.device in f.disks && f.disks == m.disks[t.device := f.disks[t.device]]
    requires f.disks[t.device].Luks? && f.disks[t.device].sig == NoSignature
    ensures Sane(f) && Claimed(m, f, t, true)
  {
    assert forall x :: Mapped(f, x) <==> Mapped(m, x);
    assert forall x | x in m.active :: x != t.device && VolumeOn(f, x) == VolumeOn(m, x);
  }

  // A new mapping, on a LUKS device that has none.
  lemma {:induction false} OpenedIsSane(m: Machine, f: Machine, t: Tier)
    requires Sane(f) && Claimed(m, f, t, true) && f.crypt == m.crypt && t.vg !in f.crypt
    requires t.device in f.disks && f.disks[t.device].Luks? && !Mapped(f, t.device)
    ensures var o := f.(crypt := f.crypt[t.vg := t.device]); Sane(o) && Claimed(m, o, t, true)
  {
    var o := f.(crypt := f.crypt[t.vg := t.device]);
    assert forall n | n in f.crypt :: n in o.crypt && o.crypt[n] == f.crypt[n] && o.crypt[n] != t.device;
    assert forall x :: Mapped(f, x) ==> Mapped(o, x);
  }

  lemma {:induction false} VisibleBefore(m: Machine, t: Tier)
    requires t.device in m.disks && VolumeOn(m, t.device).None?
    ensures Visible(WithSig(m, t.device, PvOnly), t.vg) == Visible(m, t.vg)
  {
    var w := WithSig(m, t.device, PvOnly);
    assert forall x :: Mapped(w, x) <==> Mapped(m, x);
    forall x ensures x in Visible(w, t.vg) <==> x in Visible(m, t.vg) {
    }
  }

  // The device once luksFormat is done with it, or left alone.
  lemma {:induction false} LockedIsBlank(m: Machine, m': Machine, t: Tier, aes: bool, room: map<string, Room>, maxPeers: nat)
    requires Sane(m)
    requires if Encrypts(t.mode, aes)
      then CanLuksFormat(m, t.device) && t.vg !in m.crypt
        && m' == m.(disks := m.disks[t.device := Luks(true, NoSignature)], crypt := m.crypt[t.vg := t.device])
      else m' == m
    ensures CanMake(m, t, aes, room, maxPeers) <==>
              CanCarve(m', t, Encrypts(t.mode, aes)) && Fits(room, t.device, maxPeers) && t.lv != t.metaLv
  {
    if Encrypts(t.mode, aes) {
      assert m'.crypt[t.vg] == t.device;
      forall x | x != t.device ensures x in Visible(m', t.vg) <==> x in Visible(m, t.vg) {
        assert forall n | n in m.crypt :: n in m'.crypt && m'.crypt[n] == m.crypt[n];
      }
    } else {
      assert t.device in m.disks && m.disks[t.device] == Raw(NoSignature) ==> t.device !in Visible(m, t.vg);
    }
  }

  lemma {:induction false} CarvedIsSane(m: Machine, t: Tier, sig: Signature)
    requires Sane(m) && Accessible(m, t.device) && VolumeOn(m, t.device).None?
    requires sig == PvOnly || (sig.PvOf? && sig.vg.name == t.vg && AllScratch(sig.vg) && Visible(m, t.vg) == {})
    ensures var c := Carved(m, t.device, sig);
      && Sane(c) && Claimed(m, c, t, false)
      && VolumeOn(c, t.device) == (if sig.PvOf? then Some(sig.vg) else None)
      && Carved(m, t.device, PvOnly) == WithSig(m, t.device, PvOnly)
      && forall vg :: Carved(c, t.device, PvOf(vg)) == Carved(m, t.device, PvOf(vg))
  {
    assert m.active + {} == m.active;
    CarvedAlone(m, t, sig);
    CarvedAgain(m, t.device, sig);
  }

  lemma {:induction false} CarvedAlone(m: Machine, t: Tier, sig: Signature)
    requires Sane(m) && Accessible(m, t.device) && VolumeOn(m, t.device).None?
    requires sig == PvOnly || (sig.PvOf? && sig.vg.name == t.vg && AllScratch(sig.vg) && Visible(m, t.vg) == {})
    ensures Sane(Carved(m, t.device, sig)) && Claimed(m, Carved(m, t.device, sig), t, false)
  {
    var d := t.device;
    var c := Carved(m, d, sig);
    assert forall x :: Mapped(c, x) <==> Mapped(m, x);
    assert forall x | x in m.active :: x != d && VolumeOn(c, x) == VolumeOn(m, x);
    assert sig.PvOf? ==> forall x | x in m.active :: !Carries(m, x, t.vg) by {
      forall x | x in m.active ensures Carries(m, x, t.vg) ==> x in Visible(m, t.vg) { }
    }
  }

  lemma {:induction false} LvsCarved(m: Machine, t: Tier, vg: Vg)
    requires Sane(m) && Accessible(m, t.device) && VolumeOn(m, t.device).None? && Visible(m, t.vg) == {}
    requires vg.name == t.vg && AllScratch(vg)
    ensures var c := Carved(m, t.device, PvOf(vg));
      && Sane(c) && Claimed(m, c, t, false)
      && VolumeOn(c, t.device) == Some(vg)
      && c.disks[t.device] == m.disks[t.device].(sig := PvOf(vg))
      && forall lv | lv in vg.lvs :: ShowsOn(c, t.device, t.vg, lv)
  {
    CarvedIsSane(m, t, PvOf(vg));
  }

  lemma {:induction false} CarvedAgain(m: Machine, d: string, sig: Signature)
    requires d in m.disks
    ensures forall vg :: Carved(Carved(m, d, sig), d, PvOf(vg)) == Carved(m, d, PvOf(vg))
  {
    var c := Carved(m, d, sig);
    forall vg ensures Carved(c, d, PvOf(vg)) == Carved(m, d, PvOf(vg)) {
      assert Carved(c, d, PvOf(vg)).active == Carved(m, d, PvOf(vg)).active;
      assert Carved(c, d, PvOf(vg)).disks == Carved(m, d, PvOf(vg)).disks;
    }
  }

  lemma {:induction false} ClaimedTwice(m0: Machine, m1: Machine, m2: Machine, t: Tier, encrypts: bool)
    requires Claimed(m0, m1, t, encrypts) && Claimed(m1, m2, t, false)
    requires m1 == m0 || (encrypts && CanLuksFormat(m0, t.device) && VolumeOn(m1, t.device).None?)
    ensures Claimed(m0, m2, t, encrypts)
  {
  }

  // ---------------------------------------------------------------- two volumes the code loses

  const RENAMED_TIER := Tier("data", "/dev/sda", "newvol", "data", "meta", ModeAdiantum)

  // A household's unencrypted volume, under the VG's old name.
  function RenamedMachine(): Machine {
    Machine(map["/dev/sda" := Raw(PvOf(Vg("oldvol", 1, map["data" := Household(7), "meta" := Scratch], map["data" := 90, "meta" := 2])))],
            map[], {}, Down, [], None)
  }

  /** A spec that encrypts and gives the VG a new name: every run of the tier in which nothing fails
    * loses the volume. */
  method RenamedGroupIsErased(aes: bool, failing: set<string>, room: map<string, Room>) returns (n: Node)
    ensures n.faulted || Lost(RenamedMachine(), n.m, "/dev/sda")
  {
    var m := RenamedMachine();
    n := new Node(m, aes, failing, room);
    assert VolumeOn(m, "/dev/sda") == Some(Vg("oldvol", 1, map["data" := Household(7), "meta" := Scratch], map["data" := 90, "meta" := 2]));
    assert "oldvol"[0] != "newvol"[0];
    assert Visible(m, "newvol") == {};
    var r := n.BuildTier(RENAMED_TIER, 7);
  }

  const FIRST_TIER := Tier("data", "/dev/vdb", "v", "data", "dmeta", ModeAdiantum)
  const SECOND_TIER := Tier("files", "/dev/vdc", "v", "files", "fmeta", ModeAdiantum)
  const SHARED_SPEC := Spec([FIRST_TIER, SECOND_TIER], false, false, 7, false, false)

  function SharedFirst(): Vg {
    Vg("v", 1, map["data" := Household(7), "dmeta" := Scratch], map["data" := 90, "dmeta" := 2])
  }

  function SharedSecond(): Vg {
    Vg("v", 2, map["files" := Household(8), "fmeta" := Scratch], map["files" := 90, "fmeta" := 2])
  }

  // Two encrypted volumes of one name, each made by a spec of its own, after a boot.
  function SharedMachine(): Machine {
    Machine(map["/dev/vdb" := Luks(true, PvOf(SharedFirst())), "/dev/vdc" := Luks(true, PvOf(SharedSecond()))],
            map[], {}, Down, [], None)
  }

  /** A spec with a tier on each, which is not refused: the first tier is opened and found, the
    * second is left closed because its mapping's name is taken, and every run in which nothing fails
    * formats over it. */
  method SharedNameIsErased(aes: bool, room: map<string, Room>) returns (n: Node, found: Outcome<bool>)
    ensures Valid(SHARED_SPEC)
    ensures n.faulted || (found == Done(false) && Lost(SharedMachine(), n.m, "/dev/vdc"))
  {
    var m := SharedMachine();
    var b, c := "/dev/vdb", "/dev/vdc";
    SharedFacts();
    n := new Node(m, aes, {}, room);
    found := n.BuildTier(FIRST_TIER, 7);
    if !n.faulted {
      assert n.m == SharedFound();
      var second := n.BuildTier(SECOND_TIER, 7);
    }
  }

  // The machine once the first tier is found.
  function SharedFound(): Machine {
    SharedMachine().(crypt := map["v" := "/dev/vdb"], active := {"/dev/vdb"})
  }

  lemma {:induction false} SharedFacts()
    ensures Valid(SHARED_SPEC)
    ensures Sane(SharedMachine()) && Returns(SharedMachine(), FIRST_TIER, {})
    ensures Searched(SharedMachine(), FIRST_TIER, {}) == SharedFound()
    ensures Exposed(SharedFound(), SECOND_TIER, true, {}) && Exposed(SharedFound(), SECOND_TIER, false, {})
    ensures !Shows(Searched(SharedFound(), SECOND_TIER, {}), "v", "files")
    ensures VolumeOn(SharedFound(), "/dev/vdc") == VolumeOn(SharedMachine(), "/dev/vdc")
  {
    assert "data"[0] != "files"[0] && "dmeta"[0] != "files"[0] && |"dmeta"| != |"data"|;
    SharedFirstFound();
    SharedSecondClosed();
  }

  lemma {:induction false} SharedFirstFound()
    ensures Sane(SharedMachine()) && Returns(SharedMachine(), FIRST_TIER, {})
    ensures Searched(SharedMachine(), FIRST_TIER, {}) == SharedFound()
  {
    var m, f := SharedMachine(), SharedFound();
    var b, c := "/dev/vdb", "/dev/vdc";
    assert b[7] != c[7];
    assert "data"[0] != "dmeta"[1] && |"dmeta"| != |"data"|;
    var u := Unlocked(m, FIRST_TIER);
    assert u.crypt == map["v" := b];
    assert Mapped(u, b) by { assert u.crypt["v"] == b; }
    assert !Mapped(u, c);
    assert Visible(u, "v") == {b};
    assert {} + {b} == {b};
    assert ShowsOn(f, b, "v", "data") && ShowsOn(f, b, "v", "dmeta");
  }

  lemma {:induction false} SharedSecondClosed()
    ensures Exposed(SharedFound(), SECOND_TIER, true, {}) && Exposed(SharedFound(), SECOND_TIER, false, {})
    ensures !Shows(Searched(SharedFound(), SECOND_TIER, {}), "v", "files")
    ensures VolumeOn(SharedFound(), "/dev/vdc") == VolumeOn(SharedMachine(), "/dev/vdc")
  {
    var f := SharedFound();
    var b, c := "/dev/vdb", "/dev/vdc";
    assert b[7] != c[7];
    assert "data"[0] != "files"[0] && "dmeta"[0] != "files"[0];
    assert Mapped(f, b) by { assert f.crypt["v"] == b; }
    assert !Mapped(f, c);
    assert Visible(f, "v") == {b};
    assert {b} + {b} == {b};
    assert Searched(f, SECOND_TIER, {}) == f;
  }
}
