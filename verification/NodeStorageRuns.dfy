/** Whole lives of a node's disk: any number of boots, with any specs, each stopped anywhere
  * (agent/guestagent/nodestorage.go). */
module NodeStorageRuns {
  import opened NodeStorage

  datatype Event =
    | BroughtUp(spec: Spec, failing: set<string>) // one run of the bring-up, stopped or finished
    | Rebooted
    | Used                                         // the household writes, the resync fills

  /** Resync and use fill what nobody wrote; a filesystem stays the one it is, and metadata too. */
  ghost predicate UseKeeps(m: Machine, m': Machine) {
    && m' == m.(disks := m'.disks)
    && (forall d :: d in m.disks <==> d in m'.disks)
    && (forall d | d in m.disks :: m.disks[d].Luks? <==> m'.disks[d].Luks?)
    && (forall d :: VolumeOn(m, d).Some? <==> VolumeOn(m', d).Some?)
    && (forall d | VolumeOn(m, d).Some? ::
          var v, v' := VolumeOn(m, d).value, VolumeOn(m', d).value;
          && v.name == v'.name && v.uuid == v'.uuid && v.lvs.Keys == v'.lvs.Keys
          && forall lv | lv in v.lvs :: v.lvs[lv] == v'.lvs[lv] || (v.lvs[lv] == Scratch && v'.lvs[lv].Household?))
  }

  // Of a bring-up, what NodeStorage.Node.BringUp promises of every run.
  ghost predicate Step(m: Machine, e: Event, m': Machine, aes: bool) {
    match e
    case BroughtUp(spec, failing) =>
      && Valid(spec)
      && VolumesKept(m, m', spec, aes, failing)
      && MappingsGrow(m, m', spec)
      && DeclaredOnlyAtFirstInit(m, m', spec, aes, failing)
    case Rebooted => m' == m.(crypt := map[], active := {}, link := Down)
    case Used => UseKeeps(m, m')
  }

  ghost predicate Life(ms: seq<Machine>, es: seq<Event>, aes: bool) {
    && |ms| == |es| + 1
    && forall i | 0 <= i < |es| :: Step(ms[i], es[i], ms[i + 1], aes)
  }

  // No run of this life may mistake the volume on this device for a blank disk.
  ghost predicate NeverAtRisk(ms: seq<Machine>, es: seq<Event>, d: string, aes: bool)
    requires |ms| == |es| + 1
  {
    forall i | 0 <= i < |es| && es[i].BroughtUp? :: !AnyAtRisk(ms[i], es[i].spec, d, aes, es[i].failing)
  }

  predicate NeverMeta(es: seq<Event>, vg: string, lv: string) {
    forall i | 0 <= i < |es| && es[i].BroughtUp? :: !IsMeta(es[i].spec, vg, lv)
  }

  predicate NeverDisabled(es: seq<Event>, vg: string, lv: string) {
    forall i | 0 <= i < |es| && es[i].BroughtUp? && IsMeta(es[i].spec, vg, lv) ::
      es[i].spec.replicated || !es[i].spec.convertDisable
  }

  predicate SameVolume(a: Machine, b: Machine, d: string) {
    && VolumeOn(a, d).Some? && VolumeOn(b, d).Some?
    && VolumeOn(a, d).value.name == VolumeOn(b, d).value.name
    && VolumeOn(a, d).value.uuid == VolumeOn(b, d).value.uuid
    && VolumeOn(a, d).value.lvs.Keys == VolumeOn(b, d).value.lvs.Keys
  }

  function Written(m: Machine, d: string, lv: string): Content {
    if VolumeOn(m, d).Some? && lv in VolumeOn(m, d).value.lvs then VolumeOn(m, d).value.lvs[lv] else Scratch
  }

  lemma {:induction false} StepKeeps(m: Machine, e: Event, m': Machine, d: string, lv: string, aes: bool)
    requires Step(m, e, m', aes) && VolumeOn(m, d).Some?
    requires e.BroughtUp? ==> !AnyAtRisk(m, e.spec, d, aes, e.failing)
    ensures SameVolume(m, m', d)
    ensures m'.disks[d].Luks? <==> m.disks[d].Luks?
    ensures var vg := VolumeOn(m, d).value.name;
      && (Written(m, d, lv).Household? && (e.BroughtUp? ==> !IsMeta(e.spec, vg, lv)) ==> Written(m', d, lv) == Written(m, d, lv))
      && (Written(m, d, lv).Drbd? && (e.BroughtUp? && IsMeta(e.spec, vg, lv) ==> e.spec.replicated || !e.spec.convertDisable) ==>
            Written(m', d, lv) == Written(m, d, lv))
  {
  }

  /** No run destroys a volume an earlier run made: its identity, its LVs and the filesystem on
    * any LV no spec calls a metadata LV outlive any number of boots. */
  lemma {:induction false} VolumeSurvives(ms: seq<Machine>, es: seq<Event>, d: string, lv: string, aes: bool)
    requires Life(ms, es, aes) && VolumeOn(ms[0], d).Some?
    requires NeverAtRisk(ms, es, d, aes)
    ensures SameVolume(ms[0], ms[|es|], d)
    ensures ms[|es|].disks[d].Luks? <==> ms[0].disks[d].Luks?
    ensures var vg := VolumeOn(ms[0], d).value.name;
      && (Written(ms[0], d, lv).Household? && NeverMeta(es, vg, lv) ==> Written(ms[|es|], d, lv) == Written(ms[0], d, lv))
      && (Written(ms[0], d, lv).Drbd? && NeverDisabled(es, vg, lv) ==> Written(ms[|es|], d, lv) == Written(ms[0], d, lv))
    decreases |es|
  {
    if es != [] {
      var n := |es| - 1;
      var vg := VolumeOn(ms[0], d).value.name;
      assert NeverMeta(es, vg, lv) ==> NeverMeta(es[..n], vg, lv);
      assert NeverDisabled(es, vg, lv) ==> NeverDisabled(es[..n], vg, lv);
      VolumeSurvives(ms[..|ms| - 1], es[..n], d, lv, aes);
      StepKeeps(ms[n], es[n], ms[n + 1], d, lv, aes);
    }
  }

  // ---------------------------------------------------------------- lives without risk

  /** The names of a device's tiers are never given to another device, in any spec of the life. */
  predicate OwnNames(es: seq<Event>, d: string) {
    forall i, j, t, u |
      && 0 <= i < |es| && es[i].BroughtUp? && t in es[i].spec.tiers && t.device == d
      && 0 <= j < |es| && es[j].BroughtUp? && u in es[j].spec.tiers && u.vg == t.vg
      :: u.device == d
  }

  // A mapping by the name of one of this device's tiers is open on it and on no other.
  predicate OwnMappings(m: Machine, es: seq<Event>, d: string) {
    forall i, t | 0 <= i < |es| && es[i].BroughtUp? && t in es[i].spec.tiers && t.device == d && t.vg in m.crypt ::
      m.crypt[t.vg] == d
  }

  lemma {:induction false} StepKeepsMappings(m: Machine, e: Event, m': Machine, es: seq<Event>, d: string, aes: bool)
    requires Step(m, e, m', aes) && OwnNames(es, d) && OwnMappings(m, es, d) && e in es
    ensures OwnMappings(m', es, d)
  {
    var j :| 0 <= j < |es| && es[j] == e;
    forall i, t | 0 <= i < |es| && es[i].BroughtUp? && t in es[i].spec.tiers && t.device == d && t.vg in m'.crypt
      ensures m'.crypt[t.vg] == d
    {
      if e.BroughtUp? && !(t.vg in m.crypt && m.crypt[t.vg] == m'.crypt[t.vg]) {
        var u :| u in e.spec.tiers && u.vg == t.vg && u.device == m'.crypt[t.vg];
        assert u in es[j].spec.tiers;
      }
    }
  }

  lemma {:induction false} MappingsStayOwn(ms: seq<Machine>, es: seq<Event>, all: seq<Event>, d: string, aes: bool)
    requires Life(ms, es, aes) && OwnNames(all, d) && OwnMappings(ms[0], all, d) && forall e | e in es :: e in all
    ensures OwnMappings(ms[|es|], all, d)
    decreases |es|
  {
    if es != [] {
      var n := |es| - 1;
      assert forall e | e in es[..n] :: e in es;
      MappingsStayOwn(ms[..|ms| - 1], es[..n], all, d, aes);
      StepKeepsMappings(ms[n], es[n], ms[n + 1], all, d, aes);
    }
  }

  /** An encrypted volume is at risk of no run, whatever its VG is called and whatever vgchange
    * does, while its tiers' names are its own. */
  lemma {:induction false} EncryptedNeverAtRisk(ms: seq<Machine>, es: seq<Event>, d: string, aes: bool)
    requires Life(ms, es, aes) && VolumeOn(ms[0], d).Some? && ms[0].disks[d].Luks?
    requires OwnNames(es, d) && OwnMappings(ms[0], es, d)
    ensures NeverAtRisk(ms, es, d, aes)
  {
    EncryptedUpTo(ms, es, es, d, aes);
  }

  lemma {:induction false} EncryptedUpTo(ms: seq<Machine>, es: seq<Event>, all: seq<Event>, d: string, aes: bool)
    requires Life(ms, es, aes) && VolumeOn(ms[0], d).Some? && ms[0].disks[d].Luks?
    requires OwnNames(all, d) && OwnMappings(ms[0], all, d) && forall e | e in es :: e in all
    ensures NeverAtRisk(ms, es, d, aes)
    decreases |es|
  {
    if es != [] {
      var n := |es| - 1;
      var ms', es' := ms[..|ms| - 1], es[..n];
      assert forall e | e in es' :: e in es;
      EncryptedUpTo(ms', es', all, d, aes);
      VolumeSurvives(ms', es', d, "", aes);
      MappingsStayOwn(ms', es', all, d, aes);
      assert es[n] in all;
      if es[n].BroughtUp? { OwnTiersNotAtRisk(ms[n], es[n], all, d, aes); }
      LastNotAtRisk(ms, es, d, aes);
    }
  }

  lemma {:induction false} OwnTiersNotAtRisk(m: Machine, e: Event, all: seq<Event>, d: string, aes: bool)
    requires e in all && e.BroughtUp? && OwnNames(all, d) && OwnMappings(m, all, d)
    requires VolumeOn(m, d).Some? && m.disks[d].Luks?
    ensures !AnyAtRisk(m, e.spec, d, aes, e.failing)
  {
    var j :| 0 <= j < |all| && all[j] == e;
    NotAtRisk(m, e.spec, d, aes, e.failing);
  }

  // Up to the last run, and at it.
  lemma {:induction false} LastNotAtRisk(ms: seq<Machine>, es: seq<Event>, d: string, aes: bool)
    requires |ms| == |es| + 1 >= 2
    requires NeverAtRisk(ms[..|ms| - 1], es[..|es| - 1], d, aes)
    requires var n := |es| - 1; es[n].BroughtUp? ==> !AnyAtRisk(ms[n], es[n].spec, d, aes, es[n].failing)
    ensures NeverAtRisk(ms, es, d, aes)
  {
    var n := |es| - 1;
    var ms', es' := ms[..n + 1], es[..n];
    forall i | 0 <= i < |es| && es[i].BroughtUp?
      ensures !AnyAtRisk(ms[i], es[i].spec, d, aes, es[i].failing)
    {
      if i < n { assert es'[i] == es[i] && ms'[i] == ms[i]; }
    }
  }

  // Every spec calls this device's tiers by the volume's own name, gives that name to no other
  // device, and vgchange works for it.
  predicate OwnVolume(es: seq<Event>, d: string, vg: string) {
    forall i, t | 0 <= i < |es| && es[i].BroughtUp? && t in es[i].spec.tiers ::
      (t.device == d <==> t.vg == vg) && vg !in es[i].failing
  }

  predicate OnlyCarrier(m: Machine, d: string, vg: string) {
    Carries(m, d, vg) && m.disks[d].Raw? && forall x | x in m.disks && x != d :: !Carries(m, x, vg)
  }

  lemma {:induction false} StepKeepsCarrier(m: Machine, e: Event, m': Machine, d: string, vg: string, aes: bool)
    requires Step(m, e, m', aes) && OnlyCarrier(m, d, vg) && OwnVolume([e], d, vg)
    requires e.BroughtUp? ==> !AnyAtRisk(m, e.spec, d, aes, e.failing)
    ensures OnlyCarrier(m', d, vg)
  {
    StepKeeps(m, e, m', d, "", aes);
    forall x | x in m'.disks && x != d ensures !Carries(m', x, vg) {
      if e.BroughtUp? && Carries(m', x, vg) {
        assert KeptOrNew(m, m', e.spec, x, aes, e.failing);
        assert [e][0] == e;
        assert VolumeOn(m, x).Some? && KeptVolume(e.spec, VolumeOn(m, x).value, VolumeOn(m', x).value) ==> Carries(m, x, vg);
      }
    }
  }

  lemma {:induction false} CarrierNotAtRisk(m: Machine, e: Event, d: string, vg: string, aes: bool)
    requires e.BroughtUp? && OnlyCarrier(m, d, vg) && OwnVolume([e], d, vg)
    ensures !AnyAtRisk(m, e.spec, d, aes, e.failing)
  {
    assert [e][0] == e;
    forall x ensures x != d ==> !Carries(m, x, vg) {
    }
    assert Visible(m, vg) == {d};
    NotAtRisk(m, e.spec, d, aes, e.failing);
  }

  /** A volume with no LUKS under it is at risk of no run under its own name: every spec calls its
    * tiers by it and gives it to no other device, and vgchange works for it. */
  lemma {:induction false} OwnVolumeNeverAtRisk(ms: seq<Machine>, es: seq<Event>, d: string, vg: string, aes: bool)
    requires Life(ms, es, aes) && OnlyCarrier(ms[0], d, vg) && OwnVolume(es, d, vg)
    ensures NeverAtRisk(ms, es, d, aes) && OnlyCarrier(ms[|es|], d, vg)
    decreases |es|
  {
    if es != [] {
      var n := |es| - 1;
      var ms', es' := ms[..|ms| - 1], es[..n];
      assert OwnVolume(es', d, vg) by {
        forall i, t | 0 <= i < n && es'[i].BroughtUp? && t in es'[i].spec.tiers
          ensures (t.device == d <==> t.vg == vg) && vg !in es'[i].failing
        {
          assert es'[i] == es[i];
        }
      }
      OwnVolumeNeverAtRisk(ms', es', d, vg, aes);
      assert OwnVolume([es[n]], d, vg) by { assert es[n] == [es[n]][0]; }
      if es[n].BroughtUp? { CarrierNotAtRisk(ms[n], es[n], d, vg, aes); }
      StepKeepsCarrier(ms[n], es[n], ms[n + 1], d, vg, aes);
      LastNotAtRisk(ms, es, d, aes);
    }
  }

  // ---------------------------------------------------------------- the word to the peers

  /** A peer is never declared UpToDate by this node's word: every word was said alone. */
  lemma {:induction false} EveryWordSaidAlone(ms: seq<Machine>, es: seq<Event>, aes: bool)
    requires Life(ms, es, aes) && forall w | w in ms[0].declared :: !w
    ensures forall w | w in ms[|es|].declared :: !w
    decreases |es|
  {
    if es != [] {
      var n := |es| - 1;
      EveryWordSaidAlone(ms[..|ms| - 1], es[..n], aes);
      assert Step(ms[n], es[n], ms[n + 1], aes);
    }
  }

  // The resource's metadata LV is this one, and shows on this device alone.
  predicate ResourceOn(m: Machine, spec: Spec, d: string, lv: string) {
    DataTier(spec).Some? ==>
      DataTier(spec).value.metaLv == lv && forall x | x in m.active && ShowsOn(m, x, DataVg(spec), lv) :: x == d
  }

  lemma {:induction false} NoWordAgain(m: Machine, e: Event, m': Machine, d: string, lv: string, aes: bool)
    requires Step(m, e, m', aes) && Written(m, d, lv).Drbd?
    requires e.BroughtUp? ==> !AnyAtRisk(m, e.spec, d, aes, e.failing) && ResourceOn(m', e.spec, d, lv)
    ensures m'.declared == m.declared
  {
    if e.BroughtUp? && DataTier(e.spec).Some? {
      assert MetadataIsNew(m, m', e.spec, aes, e.failing) ==>
        forall x | x in m'.active :: !ShowsOn(m', x, DataVg(e.spec), lv);
    }
  }

  /** Once the metadata is there, the word is never said again: a returning node is not re-seeded,
    * whatever its spec says, until the flock is ended. */
  lemma {:induction false} NeverReseeded(ms: seq<Machine>, es: seq<Event>, d: string, lv: string, aes: bool)
    requires Life(ms, es, aes) && Written(ms[0], d, lv).Drbd?
    requires NeverAtRisk(ms, es, d, aes) && NeverDisabled(es, VolumeOn(ms[0], d).value.name, lv)
    requires forall i | 0 <= i < |es| && es[i].BroughtUp? :: ResourceOn(ms[i + 1], es[i].spec, d, lv)
    ensures ms[|es|].declared == ms[0].declared
    decreases |es|
  {
    if es != [] {
      var n := |es| - 1;
      var ms', es' := ms[..|ms| - 1], es[..n];
      assert forall i | 0 <= i < |es'| :: es'[i] == es[i];
      assert forall i | 0 <= i < |ms'| :: ms'[i] == ms[i];
      NeverReseeded(ms', es', d, lv, aes);
      VolumeSurvives(ms', es', d, lv, aes);
      NoWordAgain(ms[n], es[n], ms[n + 1], d, lv, aes);
    }
  }
}
