/** The files tier's tick: the ring, the allocation rule, the valve and the apps' caps
  * (agent/guestagent/filestier.go). */
module FilesTier {
  import opened Options
  import opened QuotaTree
  import opened FilesVersions

  const MB := 1_000_000
  const GB := 1_000_000_000
  const MIB := 0x10_0000
  const GIB := 0x4000_0000

  // ---------------------------------------------------------------- the rule

  // Division truncates toward zero.
  function Quot(a: int, b: int): int
    requires b > 0
  {
    if a >= 0 then a / b else -((-a) / b)
  }

  function Max(a: int, b: int): int {
    if a >= b then a else b
  }

  function Min(a: int, b: int): int {
    if a <= b then a else b
  }

  function Headroom(dataUsed: int): int {
    Max(Quot(dataUsed, 5), 300 * MB)
  }

  function FilesCap(volume: int, slack: int, dataUsed: int): int {
    Max(volume - dataUsed - Headroom(dataUsed) - slack, 0)
  }

  function Target(filesCap: int): int {
    Max(GB, Quot(filesCap, 20))
  }

  function AppCap(total: int, keep: int): int {
    Max(Max(Quot(total * 9, 10), total - keep), 0)
  }

  // What a tier keeps back of what it divides.
  function Reserve(divides: int): int {
    Max(300 * MB, Quot(divides, 100))
  }

  datatype Usage = Usage(size: int, used: int, metaCopies: real)

  function Chunk(size: int): int {
    Min(if size > 50 * GIB then GIB else 256 * MIB, Quot(size, 10))
  }

  function Slack(u: Usage, charged: int): int {
    Max(u.used - charged, 0) + (Chunk(u.size) as real * u.metaCopies).Floor
  }

  /** While the files tier has its target free, no files app is at its cap. */
  lemma {:induction false} FilesAppHasRoom(volume: int, slack: int, dataUsed: int, filesUsed: int, ref: int)
    requires var cap := FilesCap(volume, slack, dataUsed); cap - filesUsed >= Target(cap)
    requires ref >= 0
    ensures var cap := FilesCap(volume, slack, dataUsed);
      && Target(cap) > Reserve(cap)
      && AppCap(ref + (cap - filesUsed), Reserve(cap)) > ref
  {
    var cap := FilesCap(volume, slack, dataUsed);
    assert cap / 20 >= cap / 100;
  }

  /** What the data tier has left is the files tier's free space and the headroom, whenever the cap
    * is not clamped; and it is, whenever the files tier has its target free. */
  lemma {:induction false} DataFreeIsFilesFreeAndHeadroom(volume: int, slack: int, dataUsed: int, filesUsed: int)
    requires filesUsed >= 0
    ensures var cap := FilesCap(volume, slack, dataUsed);
      && (volume - dataUsed - Headroom(dataUsed) - slack >= 0 ==>
            volume - slack - dataUsed - filesUsed == (cap - filesUsed) + Headroom(dataUsed))
      && (cap - filesUsed >= Target(cap) ==> volume - dataUsed - Headroom(dataUsed) - slack >= GB)
  {
  }

  /** And then no data app is at its cap either, whatever the slack: a tenth of what it uses is less
    * than the headroom and the target together. */
  lemma {:induction false} DataAppHasRoom(volume: int, slack: int, dataUsed: int, filesUsed: int, ref: int)
    requires var cap := FilesCap(volume, slack, dataUsed); cap - filesUsed >= Target(cap)
    requires 0 <= ref <= dataUsed && filesUsed >= 0
    ensures AppCap(ref + (volume - slack - dataUsed - filesUsed), Reserve(volume)) > ref
  {
    DataFreeIsFilesFreeAndHeadroom(volume, slack, dataUsed, filesUsed);
    var free := volume - slack - dataUsed - filesUsed;
    assert free >= GB + dataUsed / 5;
    var total := ref + free;
    assert total * 9 >= 10 * (ref + 1);
    assert total * 9 / 10 >= ref + 1;
  }

  /** The reserve alone is enough for the data apps while the slack is no more than eighty targets. */
  lemma {:induction false} ReserveIsEnough(volume: int, slack: int, dataUsed: int, filesUsed: int)
    requires var cap := FilesCap(volume, slack, dataUsed); cap - filesUsed >= Target(cap) && slack <= 80 * Target(cap)
    requires dataUsed >= 0 && filesUsed >= 0
    ensures volume - slack - dataUsed - filesUsed > Reserve(volume)
  {
    var cap := FilesCap(volume, slack, dataUsed);
    var head, target := Headroom(dataUsed), Target(cap);
    DataFreeIsFilesFreeAndHeadroom(volume, slack, dataUsed, filesUsed);
    assert cap == volume - dataUsed - head - slack;
    assert dataUsed <= 5 * head + 4;
    assert cap <= 20 * target + 19;
    assert volume <= 100 * target + 6 * head + 23;
  }

  /** An app that stops at its cap leaves a tenth of the two together, or the reserve, whichever is
    * less; and below it an app has at least what is free beyond the reserve. */
  lemma {:induction false} CapLeavesTheRest(used: int, free: int, keep: int)
    requires used >= 0 && free >= 0 && keep >= 0
    ensures var cap := AppCap(used + free, keep);
      && cap - used >= free - keep
      && used + free - cap >= Min(Quot(used + free, 10), keep)
  {
    var total := used + free;
    assert total * 9 / 10 <= total - total / 10;
  }

  // ---------------------------------------------------------------- the report

  datatype Report = Report(
    volume: int, slack: int, dataUsed: int, filesUsed: int, filesCap: int, filesFree: int, target: int,
    taken: seq<Version>, pruned: seq<Version>, shed: seq<Version>,
    short: bool,
    errors: nat)

  function FilesAgg(): Id { Aggregate(FilesTier) }

  function DataAgg(): Id { Aggregate(QuotaTree.DataTier) }

  function RefOf(t: Tree, id: Id): int {
    if id in t then t[id].referenced else 0
  }

  ghost function ChargedOf(t: Tree): int {
    Sum(Referenced(t), Parentless(t))
  }

  // Everything charged outside the files tier.
  ghost function OutsideOf(t: Tree): int {
    ChargedOf(t) - RefOf(t, FilesAgg())
  }

  // The report's figures are the rule's, for this volume and slack.
  predicate Figures(rep: Report, volume: int, slack: int) {
    && rep.volume == volume && rep.slack == slack
    && rep.filesCap == FilesCap(volume, slack, rep.dataUsed)
    && rep.target == Target(rep.filesCap)
    && rep.filesFree == rep.filesCap - rep.filesUsed
  }

  // And they are of this tree.
  ghost predicate Measured(rep: Report, t: Tree, volume: int, slack: int) {
    && Figures(rep, volume, slack)
    && rep.filesUsed == RefOf(t, FilesAgg())
    && rep.dataUsed == OutsideOf(t)
  }

  /** The kernel's metadata chunk on a volume of this size: 1 GiB above 50 GiB, else 256 MiB, and never
    * over a tenth of the volume. */
  predicate IsChunk(chunk: int, size: int) {
    if size > 53_687_091_200 then chunk == 1_073_741_824
    else if size >= 2_684_354_560 then chunk == 268_435_456
    else 10 * chunk <= size < 10 * chunk + 10
  }

  // Room in whole bytes for the chunk in every copy.
  ghost predicate IsRoom(room: int, use: Usage) {
    exists chunk: int :: IsChunk(chunk, use.size) && room as real <= chunk as real * use.metaCopies < (room + 1) as real
  }

  /** What btrfs needs that is charged to nobody: what it uses beyond what is charged, and beyond that
    * the room for one more chunk; and no more than that. */
  ghost predicate IsSlack(slack: int, use: Usage, charged: int) {
    exists room: int :: IsRoom(room, use) && room >= 0
      && slack >= room
      && slack >= use.used - charged + room
      && (slack == room || slack == use.used - charged + room)
  }

  lemma {:induction false} SlackIs(use: Usage, charged: int)
    requires use.size > 0 && use.metaCopies > 0.0
    ensures IsSlack(Slack(use, charged), use, charged)
  {
    var chunk := Chunk(use.size);
    var all := chunk as real * use.metaCopies;
    assert IsChunk(chunk, use.size);
    var room := all.Floor;
    NotNegative(chunk, use.metaCopies);
    assert room as real <= all < (room + 1) as real;
    assert IsRoom(room, use);
  }

  lemma {:induction false} NotNegative(a: int, b: real)
    requires a >= 0 && b > 0.0
    ensures a as real * b >= 0.0
  {
  }

  /** The rule in figures: the files tier gets what data, its headroom and the slack leave of the
    * volume, and wants a twentieth of that free, and a gigabyte at least. */
  ghost predicate Allocated(rep: Report) {
    && CapIs(rep.filesCap, rep.volume, rep.slack, rep.dataUsed)
    && rep.filesFree == rep.filesCap - rep.filesUsed
    && rep.target >= 1_000_000_000 && 20 * rep.target + 19 >= rep.filesCap
    && (rep.target == 1_000_000_000 || 20 * rep.target <= rep.filesCap)
  }

  ghost predicate CapIs(cap: int, volume: int, slack: int, dataUsed: int) {
    && cap >= 0
    && exists headroom: int ::
         && IsHeadroom(headroom, dataUsed)
         && cap >= volume - dataUsed - headroom - slack
         && (cap == 0 || cap == volume - dataUsed - headroom - slack)
  }

  /** A fifth of what the data tier uses, and 300 MB at least. */
  predicate IsHeadroom(headroom: int, dataUsed: int) {
    && headroom >= 300_000_000 && 5 * headroom + 4 >= dataUsed
    && (headroom == 300_000_000 || 5 * headroom <= dataUsed)
  }

  lemma {:induction false} FiguresAre(rep: Report)
    requires Figures(rep, rep.volume, rep.slack)
    ensures Allocated(rep)
  {
    FilesCapIs(rep.volume, rep.slack, rep.dataUsed);
  }

  lemma {:induction false} FilesCapIs(volume: int, slack: int, dataUsed: int)
    ensures CapIs(FilesCap(volume, slack, dataUsed), volume, slack, dataUsed)
  {
    assert IsHeadroom(Headroom(dataUsed), dataUsed);
  }

  /** What a tier keeps back of what it divides: a hundredth, and 300 MB at least. */
  predicate IsReserve(keep: int, divides: int) {
    && keep >= 300_000_000 && 100 * keep + 99 >= divides
    && (keep == 300_000_000 || 100 * keep <= divides)
  }

  /** An app's cap: of what it uses and its tier's free space together, nine tenths, or all but the
    * reserve, whichever is more. */
  ghost predicate IsAppCap(cap: int, used: int, free: int, divides: int) {
    && cap >= 0 && 10 * cap + 9 >= 9 * (used + free)
    && exists keep: int ::
         && IsReserve(keep, divides)
         && cap >= used + free - keep
         && (cap == 0 || cap == used + free - keep || 10 * cap <= 9 * (used + free))
  }

  lemma {:induction false} AppCapIs(used: int, free: int, divides: int)
    ensures IsAppCap(AppCap(used + free, Reserve(divides)), used, free, divides)
  {
    assert IsReserve(Reserve(divides), divides);
  }

  /** Unclamped, what the tiers use and may use, the headroom, the bytes charged to nobody and one
    * chunk in every copy all fit the volume. */
  lemma {:induction false} AllocationFits(rep: Report, use: Usage, charged: int) returns (headroom: int, room: int)
    requires Allocated(rep) && IsSlack(rep.slack, use, charged) && rep.volume == use.size && rep.filesCap > 0
    ensures IsHeadroom(headroom, rep.dataUsed) && IsRoom(room, use)
    ensures rep.dataUsed + headroom + rep.filesCap + Max(use.used - charged, 0) + room <= use.size
  {
    headroom :| && IsHeadroom(headroom, rep.dataUsed)
                && rep.filesCap == rep.volume - rep.dataUsed - headroom - rep.slack;
    room :| IsRoom(room, use) && room >= 0 && rep.slack >= room && rep.slack >= use.used - charged + room;
  }

  /** A shed that frees only bytes under the files aggregate moves nothing but what the files tier
    * holds: the cap and the target it is measured against stay. */
  lemma {:induction false} ShedMovesOnlyFiles(before: Report, t: Tree, after: Report, t': Tree, volume: int, slack: int)
    requires Measured(before, t, volume, slack) && Measured(after, t', volume, slack)
    requires FilesAgg() in t && FilesAgg() in t' && t[FilesAgg()].parents == t'[FilesAgg()].parents == []
    requires Parentless(t) == Parentless(t')
    requires forall id | id in Parentless(t) && id != FilesAgg() :: t[id].referenced == t'[id].referenced
    ensures after.dataUsed == before.dataUsed && after.filesCap == before.filesCap && after.target == before.target
    ensures after.filesFree - before.filesFree == t[FilesAgg()].referenced - t'[FilesAgg()].referenced
  {
    var rest := Parentless(t) - {FilesAgg()};
    SumTakes(Referenced(t), Parentless(t), FilesAgg());
    SumTakes(Referenced(t'), Parentless(t'), FilesAgg());
    SumSame(Referenced(t), Referenced(t'), rest);
  }

  // A group's limit, once the tick has set what it set.
  function LimitOf(t: Tree, limits: map<Id, int>, id: Id): int
    requires id in t
  {
    if id in limits then limits[id] else t[id].limit
  }

  // The tiers' aggregates are tops of the tree.
  predicate Tops(t: Tree) {
    && (FilesAgg() in t ==> t[FilesAgg()].parents == [])
    && (DataAgg() in t ==> t[DataAgg()].parents == [])
  }

  predicate InTier(t: Tree, id: Id, agg: Id) {
    id in t && id.level == 1 && Holds(t, id, agg)
  }

  function CapFor(t: Tree, rep: Report, id: Id, agg: Id): int {
    if agg == DataAgg() then
      AppCap(RefOf(t, id) + (rep.volume - rep.slack - rep.dataUsed - rep.filesUsed), Reserve(rep.volume))
    else
      AppCap(RefOf(t, id) + rep.filesFree, Reserve(rep.filesCap))
  }

  /** The household that is not warned: the files tier has its target, and no app in either tier is
    * at the cap this gives it. */
  lemma {:induction false} UnwarnedAppsHaveRoom(rep: Report, t: Tree, volume: int, slack: int, id: Id, agg: Id)
    requires Strict(t) && Tops(t) && Measured(rep, t, volume, slack) && FilesAgg() in t
    requires rep.filesFree >= rep.target
    requires agg == DataAgg() || agg == FilesAgg()
    requires InTier(t, id, agg)
    ensures CapFor(t, rep, id, agg) > t[id].referenced
  {
    GroupsAreDistinct(FilesTier, 0, QuotaTree.DataTier, 0);
    if agg == DataAgg() {
      OutsideAggregate(t, FilesAgg());
      ChildHoldsNoMore(t, id, agg);
      assert DataAgg() in Parentless(t);
      DataAppHasRoom(volume, slack, rep.dataUsed, rep.filesUsed, t[id].referenced);
    } else {
      FilesAppHasRoom(volume, slack, rep.dataUsed, rep.filesUsed, t[id].referenced);
    }
  }

  // ---------------------------------------------------------------- the tick

  function OfApp(vs: set<Version>, app: string): set<Version> {
    set v | v in vs && v.app == app
  }

  // How the valve's loop ended.
  datatype End = Room | Exhausted | NoCleaner | NoReading

  predicate SameLimit(l: map<Id, int>, l': map<Id, int>, id: Id) {
    (id in l <==> id in l') && (id in l ==> l[id] == l'[id])
  }

  // Every app group among these has, in force, the cap its tier gives it.
  ghost predicate CapsSet(t: Tree, rep: Report, limits: map<Id, int>, ids: set<Id>) {
    forall id, agg | id in ids && (agg == DataAgg() || agg == FilesAgg()) && InTier(t, id, agg) && |t[id].parents| <= 1 ::
      LimitOf(t, limits, id) == CapFor(t, rep, id, agg)
  }

  lemma {:induction false} OneMoreCap(t: Tree, rep: Report, l: map<Id, int>, l': map<Id, int>, ids: set<Id>, id: Id)
    requires CapsSet(t, rep, l, ids) && id in t && id !in ids
    requires forall x | x != id :: (x in l <==> x in l') && (x in l ==> l[x] == l'[x])
    requires forall agg | (agg == DataAgg() || agg == FilesAgg()) && InTier(t, id, agg) && |t[id].parents| <= 1 ::
               LimitOf(t, l', id) == CapFor(t, rep, id, agg)
    ensures CapsSet(t, rep, l', ids + {id})
  {
    forall x, agg | x in ids + {id} && (agg == DataAgg() || agg == FilesAgg()) && InTier(t, x, agg) && |t[x].parents| <= 1
      ensures LimitOf(t, l', x) == CapFor(t, rep, x, agg)
    {
      if x != id { assert LimitOf(t, l, x) == CapFor(t, rep, x, agg); }
    }
  }

  /** What the household that hears nothing has: the files tier's target, no smaller than its
    * reserve, and, over a sound quota tree, no app of either tier at its cap. */
  ghost predicate Unwarned(rep: Report, t: Tree, limits: map<Id, int>) {
    && rep.filesFree >= rep.target > Reserve(rep.filesCap)
    && (Strict(t) && Tops(t) && FilesAgg() in t ==>
          forall id, agg | (agg == DataAgg() || agg == FilesAgg()) && InTier(t, id, agg) ::
            LimitOf(t, limits, id) > t[id].referenced)
  }

  lemma {:induction false} TickEnds(rep: Report, t: Tree, limits: map<Id, int>, volume: int, slack: int)
    requires Measured(rep, t, volume, slack) && rep.filesFree >= rep.target
    requires CapsSet(t, rep, limits, t.Keys)
    ensures Unwarned(rep, t, limits)
  {
    FilesAppHasRoom(volume, slack, rep.dataUsed, rep.filesUsed, 0);
    if Strict(t) && Tops(t) && FilesAgg() in t {
      forall id, agg | (agg == DataAgg() || agg == FilesAgg()) && InTier(t, id, agg)
        ensures LimitOf(t, limits, id) > t[id].referenced
      {
        UnwarnedAppsHaveRoom(rep, t, volume, slack, id, agg);
        assert |t[id].parents| <= 1;
        assert LimitOf(t, limits, id) == CapFor(t, rep, id, agg);
      }
    }
  }

  lemma {:induction false} RingsKeepYoung(disk: set<Version>, disk': set<Version>, now: int)
    requires RingsPassed(disk, disk', now)
    ensures forall v | v in disk && Age(v, now) < DAY :: v in disk'
  {
    forall v | v in disk && Age(v, now) < DAY ensures v in disk' {
      assert v in OfApp(disk, v.app) && Passed(OfApp(disk, v.app), OfApp(disk', v.app), v.app, now);
      assert BucketOf(v, now) == Young;
    }
  }

  // A version less than an hour old.
  ghost predicate Recent(disk: set<Version>, app: string, now: int) {
    exists v | v in disk :: v.app == app && now - v.at < 3_600
  }

  /** The figures are of this tree: what the group 2/2 holds is files, and all else that is charged is
    * data. */
  ghost predicate Holding(rep: Report, t: Tree) {
    && rep.filesUsed == RefOf(t, Id(2, 0x200_0000_0000))
    && rep.dataUsed == ChargedOf(t) - rep.filesUsed
  }

  /** Every app group has, in force, the cap of the tier that holds it. */
  ghost predicate CapsAre(t: Tree, rep: Report, limits: map<Id, int>) {
    forall id | id in t && id.level == 1 && |t[id].parents| <= 1 ::
      && (Holds(t, id, Id(2, 0x200_0000_0000)) ==>
            IsAppCap(LimitOf(t, limits, id), t[id].referenced, rep.filesFree, rep.filesCap))
      && (Holds(t, id, Id(2, 0x100_0000_0000)) ==>
            IsAppCap(LimitOf(t, limits, id), t[id].referenced, rep.volume - rep.slack - rep.dataUsed - rep.filesUsed, rep.volume))
  }

  lemma {:induction false} CapsSetAre(t: Tree, rep: Report, limits: map<Id, int>)
    requires CapsSet(t, rep, limits, t.Keys)
    ensures CapsAre(t, rep, limits)
  {
    forall id | id in t && id.level == 1 && |t[id].parents| <= 1
      ensures Holds(t, id, Id(2, 0x200_0000_0000)) ==>
        IsAppCap(LimitOf(t, limits, id), t[id].referenced, rep.filesFree, rep.filesCap)
      ensures Holds(t, id, Id(2, 0x100_0000_0000)) ==>
        IsAppCap(LimitOf(t, limits, id), t[id].referenced, rep.volume - rep.slack - rep.dataUsed - rep.filesUsed, rep.volume)
    {
      CapForIs(t, rep, id, FilesAgg());
      CapForIs(t, rep, id, DataAgg());
      assert Holds(t, id, FilesAgg()) ==> LimitOf(t, limits, id) == CapFor(t, rep, id, FilesAgg());
      assert Holds(t, id, DataAgg()) ==> LimitOf(t, limits, id) == CapFor(t, rep, id, DataAgg());
    }
  }

  lemma {:induction false} CapForIs(t: Tree, rep: Report, id: Id, agg: Id)
    requires id in t && (agg == FilesAgg() || agg == DataAgg())
    ensures FilesAgg() == Id(2, 0x200_0000_0000) && DataAgg() == Id(2, 0x100_0000_0000)
    ensures var cap := CapFor(t, rep, id, agg);
      if agg == FilesAgg() then IsAppCap(cap, t[id].referenced, rep.filesFree, rep.filesCap)
      else IsAppCap(cap, t[id].referenced, rep.volume - rep.slack - rep.dataUsed - rep.filesUsed, rep.volume)
  {
    AppCapIs(t[id].referenced, rep.filesFree, rep.filesCap);
    AppCapIs(t[id].referenced, rep.volume - rep.slack - rep.dataUsed - rep.filesUsed, rep.volume);
  }

  /** What a tick with nothing failing leaves: the figures and the caps of the tree as last read, the
    * files tier capped as the first reading had it, and either room or nothing left to shed; and it
    * says so exactly when there is no room, or it had to try a version under five days old. */
  ghost predicate Bounded(rep: Report, tree: Tree, limits: map<Id, int>, s: Shedding, now: int) {
    && tree == Latest(s.first, s.ops) && Holding(rep, tree)
    && CapsAre(tree, rep, limits)
    && FilesAgg() in s.first
    && CapIs(LimitOf(s.first, limits, Id(2, 0x200_0000_0000)), rep.volume, rep.slack,
             ChargedOf(s.first) - RefOf(s.first, Id(2, 0x200_0000_0000)))
    && (rep.filesFree >= rep.target || Tries(s.ops) == s.queue)
    && (rep.short <==> rep.filesFree < rep.target || exists v | v in Tries(s.ops) :: now - v.at < 432_000)
  }

  // What the valve did in one tick: whether the versions were listed, the log before it, the tree and
  // the usage it began from, its queue and its commands.
  datatype Shedding = Shedding(listed: bool, before: seq<Op>, first: Tree, use: Usage, queue: seq<Version>, ops: seq<Op>)

  predicate OldestFirst(queue: seq<Version>) {
    forall i, j | 0 <= i < j < |queue| :: queue[i].at <= queue[j].at
  }

  /** The oldest first, across all apps, nothing of a day or less, and nothing at all unless the tree
    * that was just read has too little room. */
  ghost predicate ShedAsItShould(s: Shedding, kept: set<Version>, disk: set<Version>, log: seq<Op>, now: int) {
    var slack := Slack(s.use, ChargedOf(s.first));
    && log == s.before + s.ops
    && s.before != [] && s.before[|s.before| - 1] == Read(Some(s.first))
    && ValveRan(s.ops, s.queue, s.first, s.use.size, slack)
    && OldestFirst(s.queue) && NoRepeats(s.queue)
    && (forall v | v in s.queue :: now - v.at > 86_400)
    && (s.listed ==> forall v | v in kept && now - v.at > 86_400 :: v in s.queue)
    && Tries(s.ops) <= s.queue
    && disk <= kept && (forall v | v in kept && v !in disk :: v in Tries(s.ops))
    && (!TooLittle(s.first, s.use.size, slack) ==> s.ops == [] && disk == kept)
  }

  /** What one tick with nothing failing makes of the rings: an area with a version of the last hour
    * keeps what it has; any other gets one, and loses what retention lets go; and no other app's
    * ring is touched. */
  ghost predicate RingsKept(disk: set<Version>, disk': set<Version>, apps: seq<string>, now: int) {
    forall app: string :: RingKept(disk, disk', app, app in apps, now)
  }

  ghost predicate RingKept(disk: set<Version>, disk': set<Version>, app: string, hasArea: bool, now: int) {
    if !hasArea || Recent(disk, app, now) then OfApp(disk', app) == OfApp(disk, app)
    else
      var with := OfApp(disk, app) + {Version(app, now)};
      OfApp(disk', app) == set v | v in with && !LetGo(with, v, now)
  }

  // What one tick does to every app's ring before the valve.
  ghost predicate RingsPassed(disk: set<Version>, disk': set<Version>, now: int) {
    forall app: string :: Passed(OfApp(disk, app), OfApp(disk', app), app, now)
  }

  // ---------------------------------------------------------------- the valve's commands

  // A delete, a wait for the cleaner, a reading of the tree, in the order they were given.
  datatype Op = Tried(v: Version, ok: bool) | Cleaned(ok: bool) | Read(t: Option<Tree>)

  // Too little room, by the rule over this tree.
  ghost predicate TooLittle(t: Tree, volume: int, slack: int) {
    var cap := FilesCap(volume, slack, OutsideOf(t));
    cap - RefOf(t, FilesAgg()) < Target(cap)
  }

  // The tree as last read.
  function Latest(first: Tree, ops: seq<Op>): Tree {
    if ops == [] then first
    else match ops[|ops| - 1]
      case Read(Some(t)) => t
      case _ => Latest(first, ops[..|ops| - 1])
  }

  function Tries(ops: seq<Op>): seq<Version> {
    if ops == [] then []
    else Tries(ops[..|ops| - 1]) + match ops[|ops| - 1] case Tried(v, _) => [v] case _ => []
  }

  function Shed(ops: seq<Op>): seq<Version> {
    if ops == [] then []
    else Shed(ops[..|ops| - 1]) + match ops[|ops| - 1] case Tried(v, true) => [v] case _ => []
  }

  function Failures(ops: seq<Op>): nat {
    if ops == [] then 0
    else Failures(ops[..|ops| - 1]) + match ops[|ops| - 1]
      case Tried(_, ok) => if ok then 0 else 1
      case Cleaned(ok) => if ok then 0 else 1
      case Read(t) => if t.Some? then 0 else 1
  }

  datatype Stage = Looking | Deleted | Waited | Over

  function After(ops: seq<Op>): Stage {
    if ops == [] then Looking
    else match ops[|ops| - 1]
      case Tried(_, ok) => if ok then Deleted else Looking
      case Cleaned(ok) => if ok then Waited else Over
      case Read(t) => if t.Some? then Looking else Over
  }

  /** What the valve may do: try the next of the queue, and only while the tree as last read has too
    * little room; after a delete, wait for the cleaner; after the cleaner, read the tree again. */
  ghost predicate ValveRan(ops: seq<Op>, queue: seq<Version>, first: Tree, volume: int, slack: int) {
    ops == [] ||
    var before := ops[..|ops| - 1];
    && ValveRan(before, queue, first, volume, slack)
    && match ops[|ops| - 1]
       case Tried(v, _) =>
         && After(before) == Looking
         && TooLittle(Latest(first, before), volume, slack)
         && |Tries(before)| < |queue| && v == queue[|Tries(before)|]
       case Cleaned(_) => After(before) == Deleted
       case Read(_) => After(before) == Waited
  }

  // Where the valve's loop stands after i tries.
  ghost predicate Standing(queue: seq<Version>, now: int, start: Report, first: Tree, volume: int, slack: int,
                           ops: seq<Op>, i: nat, rep: Report, tree: Tree, end: End) {
    && i == |Tries(ops)| <= |queue| && Tries(ops) == queue[..i]
    && ValveRan(ops, queue, first, volume, slack)
    && (if i == 0 then rep == start && ops == [] else start.filesFree < start.target)
    && rep.taken == start.taken && rep.pruned == start.pruned
    && rep.shed == start.shed + Shed(ops) && rep.errors == start.errors + Failures(ops)
    && i <= |Shed(ops)| + Failures(ops)
    && end != Exhausted && (end == Room ==> After(ops) == Looking)
    && (end != Room ==> After(ops) == Over && Failures(ops) > 0 && (end == NoReading ==> tree == map[]))
    && Figures(rep, volume, slack)
    && (end != NoReading ==> tree == Latest(first, ops) && Measured(rep, tree, volume, slack))
    && (rep.short <==> exists v | v in Tries(ops) :: now - v.at < 432_000)
  }

  lemma {:induction false} StandingStarts(queue: seq<Version>, now: int, start: Report, first: Tree, volume: int, slack: int, d: set<Version>)
    requires Measured(start, first, volume, slack) && !start.short
    ensures Standing(queue, now, start, first, volume, slack, [], 0, start, first, Room) && DiskAfter(d, d, [])
  {
    assert [] + start.shed == start.shed == start.shed + [];
  }

  lemma {:induction false} StandingMore(queue: seq<Version>, now: int, start: Report, first: Tree, volume: int, slack: int,
                                        ops: seq<Op>, i: nat, was: Report, seen: Tree, new_: seq<Op>, rep: Report, tree: Tree, end: End)
    requires Standing(queue, now, start, first, volume, slack, ops, i, was, seen, Room) && i < |queue|
    requires was.filesFree < was.target && OneTry(new_, queue[i])
    requires Reported(was, seen, new_, queue[i], Age(queue[i], now) < 5 * DAY, rep, tree, end, volume, slack)
    ensures Standing(queue, now, start, first, volume, slack, ops + new_, i + 1, rep, tree, end)
  {
    TryRan(ops, new_, queue, first, volume, slack);
    assert ops + new_ != [];
    StandingAfter(queue, now, start, first, volume, slack, ops, ops + new_, i, was, seen, new_, rep, tree, end);
  }

  // The same, from what the try did to the log.
  lemma {:induction false} StandingAfter(queue: seq<Version>, now: int, start: Report, first: Tree, volume: int, slack: int,
                                         ops: seq<Op>, all: seq<Op>, i: nat, was: Report, seen: Tree, new_: seq<Op>, rep: Report, tree: Tree, end: End)
    requires Standing(queue, now, start, first, volume, slack, ops, i, was, seen, Room) && i < |queue|
    requires was.filesFree < was.target && OneTry(new_, queue[i]) && all != []
    requires Reported(was, seen, new_, queue[i], Age(queue[i], now) < 5 * DAY, rep, tree, end, volume, slack)
    requires ValveRan(all, queue, first, volume, slack) && After(all) == After(new_)
    requires Tries(all) == Tries(ops) + [queue[i]]
    requires Shed(all) == Shed(ops) + (if new_[0].ok then [queue[i]] else [])
    requires Failures(all) == Failures(ops) + (if After(new_) == Over || !new_[0].ok then 1 else 0)
    requires var last := new_[|new_| - 1];
      Latest(first, all) == if last.Read? && last.t.Some? then last.t.value else Latest(first, ops)
    ensures Standing(queue, now, start, first, volume, slack, all, i + 1, rep, tree, end)
  {
    assert queue[..i + 1] == queue[..i] + [queue[i]];
    assert forall v :: v in Tries(all) <==> v in Tries(ops) || v == queue[i];
    assert rep.shed == start.shed + Shed(all);
  }

  // What is gone from the disk was tried, and what was shed is gone.
  ghost predicate DiskAfter(d0: set<Version>, d: set<Version>, ops: seq<Op>) {
    && d <= d0
    && (ops == [] ==> d == d0)
    && (forall v | v in d0 && v !in d :: v in Tries(ops))
    && (forall v | v in Shed(ops) :: v !in d)
  }

  lemma {:induction false} DiskMore(d0: set<Version>, d: set<Version>, d': set<Version>, queue: seq<Version>, first: Tree,
                                    volume: int, slack: int, ops: seq<Op>, v: Version, new_: seq<Op>)
    requires DiskAfter(d0, d, ops) && OneTry(new_, v)
    requires ValveRan(ops, queue, first, volume, slack) && After(ops) == Looking && |Tries(ops)| < |queue|
    requires TooLittle(Latest(first, ops), volume, slack) && v == queue[|Tries(ops)|]
    requires (d' == d || d' == d - {v}) && (new_[0].ok ==> d' == d - {v})
    ensures DiskAfter(d0, d', ops + new_)
  {
    TryRan(ops, new_, queue, first, volume, slack);
  }

  lemma {:induction false} OneTried(queue: seq<Version>, now: int, start: Report, first: Tree, volume: int, slack: int,
                                    ops: seq<Op>, i: nat, was: Report, seen: Tree, new_: seq<Op>, rep: Report, tree: Tree, end: End,
                                    d0: set<Version>, d: set<Version>, d': set<Version>)
    requires Standing(queue, now, start, first, volume, slack, ops, i, was, seen, Room) && i < |queue|
    requires was.filesFree < was.target && OneTry(new_, queue[i])
    requires Reported(was, seen, new_, queue[i], Age(queue[i], now) < 5 * DAY, rep, tree, end, volume, slack)
    requires DiskAfter(d0, d, ops) && (d' == d || d' == d - {queue[i]}) && (new_[0].ok ==> d' == d - {queue[i]})
    ensures Standing(queue, now, start, first, volume, slack, ops + new_, i + 1, rep, tree, end)
    ensures DiskAfter(d0, d', ops + new_)
  {
    StandingMore(queue, now, start, first, volume, slack, ops, i, was, seen, new_, rep, tree, end);
    DiskMore(d0, d, d', queue, first, volume, slack, ops, queue[i], new_);
  }

  /** What the valve has done when it is over: its commands kept to the rule, it tried the queue from
    * the oldest on, and it ended with room, out of versions, or with an error it recorded; short is
    * said exactly when it ran out or had to try one under five days old. */
  ghost predicate ValveDone(queue: seq<Version>, now: int, start: Report, first: Tree, volume: int, slack: int,
                            ops: seq<Op>, rep: Report, tree: Tree, end: End) {
    && ValveRan(ops, queue, first, volume, slack)
    && (start.filesFree >= start.target ==> ops == [])
    && rep.taken == start.taken && rep.pruned == start.pruned
    && rep.shed == start.shed + Shed(ops) && rep.errors == start.errors + Failures(ops)
    && Tries(ops) <= queue
    && |Tries(ops)| <= |Shed(ops)| + Failures(ops)
    && Figures(rep, volume, slack)
    && (end != NoReading ==> tree == Latest(first, ops) && Measured(rep, tree, volume, slack))
    && (match end
        case Room => After(ops) == Looking && rep.filesFree >= rep.target
        case Exhausted => After(ops) == Looking && rep.filesFree < rep.target && |Tries(ops)| == |queue|
        case NoCleaner => After(ops) == Over && Failures(ops) > 0
        case NoReading => After(ops) == Over && Failures(ops) > 0 && tree == map[])
    && (rep.short <==> end == Exhausted || exists v | v in Tries(ops) :: now - v.at < 432_000)
  }

  lemma {:induction false} StandingEnds(queue: seq<Version>, now: int, start: Report, first: Tree, volume: int, slack: int,
                                        ops: seq<Op>, i: nat, rep: Report, tree: Tree, end: End)
    requires Standing(queue, now, start, first, volume, slack, ops, i, rep, tree, end)
    requires end != Room || rep.filesFree >= rep.target || i == |queue|
    ensures
      if end == Room && rep.filesFree < rep.target
      then ValveDone(queue, now, start, first, volume, slack, ops, rep.(short := true), tree, Exhausted)
      else ValveDone(queue, now, start, first, volume, slack, ops, rep, tree, end)
  {
  }

  // What a valve that is over has done to the disk, and says.
  lemma {:induction false} ValveDid(queue: seq<Version>, now: int, start: Report, first: Tree, volume: int, slack: int,
                                    ops: seq<Op>, rep: Report, tree: Tree, end: End, d0: set<Version>, d: set<Version>)
    requires Measured(start, first, volume, slack) && start.shed == []
    requires ValveDone(queue, now, start, first, volume, slack, ops, rep, tree, end) && DiskAfter(d0, d, ops)
    requires forall v | v in queue :: Age(v, now) > DAY
    ensures d <= d0 && forall v | v in d0 && v !in d :: v in Tries(ops) && Age(v, now) > DAY
    ensures rep.shed == Shed(ops) && rep.errors >= start.errors && Figures(rep, volume, slack)
    ensures !TooLittle(first, volume, slack) ==> ops == [] && d == d0
    ensures rep.errors == start.errors && rep.shed == [] ==> d == d0
    ensures rep.errors == start.errors && !rep.short ==> Measured(rep, tree, volume, slack) && rep.filesFree >= rep.target
  {
    assert [] + Shed(ops) == Shed(ops);
    forall v | v in Tries(ops) ensures v in queue {
      var i :| 0 <= i < |Tries(ops)| && Tries(ops)[i] == v;
      assert queue[i] == v;
    }
  }

  // What one try makes of the report and of the tree.
  ghost predicate Reported(was: Report, seen: Tree, new_: seq<Op>, v: Version, young: bool, rep: Report, tree: Tree, end: End,
                           volume: int, slack: int)
    requires OneTry(new_, v)
  {
    var last := new_[|new_| - 1];
    && rep.short == (was.short || young) && rep.taken == was.taken && rep.pruned == was.pruned
    && rep.shed == was.shed + (if new_[0].ok then [v] else [])
    && rep.errors == was.errors + (if After(new_) == Over || !new_[0].ok then 1 else 0)
    && end == (if After(new_) != Over then Room else if |new_| == 2 then NoCleaner else NoReading)
    && tree == (if last.Read? then (if last.t.Some? then last.t.value else map[]) else seen)
    && Figures(rep, volume, slack)
    && (end != NoReading ==> Measured(rep, tree, volume, slack))
  }

  // The commands of one try, whatever came of it.
  predicate OneTry(new_: seq<Op>, v: Version) {
    || new_ == [Tried(v, false)]
    || new_ == [Tried(v, true), Cleaned(false)]
    || (|new_| == 3 && new_[0] == Tried(v, true) && new_[1] == Cleaned(true) && new_[2].Read?)
  }

  lemma {:induction false} TryRan(ops: seq<Op>, new_: seq<Op>, queue: seq<Version>, first: Tree, volume: int, slack: int)
    requires ValveRan(ops, queue, first, volume, slack) && After(ops) == Looking && |Tries(ops)| < |queue|
    requires TooLittle(Latest(first, ops), volume, slack) && OneTry(new_, queue[|Tries(ops)|])
    ensures ValveRan(ops + new_, queue, first, volume, slack)
    ensures var v := queue[|Tries(ops)|]; var ok := new_[0].ok; var last := new_[|new_| - 1];
      && Tries(ops + new_) == Tries(ops) + [v]
      && Shed(ops + new_) == Shed(ops) + (if ok then [v] else [])
      && Failures(ops + new_) == Failures(ops) + (if After(new_) == Over || !ok then 1 else 0)
      && After(ops + new_) == After(new_)
      && Latest(first, ops + new_) == if last.Read? && last.t.Some? then last.t.value else Latest(first, ops)
  {
    OneDelete(ops, new_[0], queue, first, volume, slack);
    var one := ops + [new_[0]];
    assert ops + new_ == one + new_[1..];
    if |new_| == 1 {
      assert one + [] == one;
    } else {
      CleanedAndRead(one, new_, queue, first, volume, slack);
    }
  }

  lemma {:induction false} OneDelete(ops: seq<Op>, op: Op, queue: seq<Version>, first: Tree, volume: int, slack: int)
    requires ValveRan(ops, queue, first, volume, slack) && After(ops) == Looking && |Tries(ops)| < |queue|
    requires TooLittle(Latest(first, ops), volume, slack) && op.Tried? && op.v == queue[|Tries(ops)|]
    ensures ValveRan(ops + [op], queue, first, volume, slack)
    ensures Tries(ops + [op]) == Tries(ops) + [op.v]
    ensures Shed(ops + [op]) == Shed(ops) + (if op.ok then [op.v] else [])
    ensures Failures(ops + [op]) == Failures(ops) + (if op.ok then 0 else 1)
    ensures After(ops + [op]) == After([op]) && Latest(first, ops + [op]) == Latest(first, ops)
  {
    OneMoreOp(ops, op, first);
  }

  // What follows a delete.
  lemma {:induction false} CleanedAndRead(ops: seq<Op>, new_: seq<Op>, queue: seq<Version>, first: Tree, volume: int, slack: int)
    requires ValveRan(ops, queue, first, volume, slack) && After(ops) == Deleted
    requires |new_| > 1 && new_[0].Tried? && OneTry(new_, new_[0].v)
    ensures ValveRan(ops + new_[1..], queue, first, volume, slack)
    ensures var last := new_[|new_| - 1];
      && Tries(ops + new_[1..]) == Tries(ops) && Shed(ops + new_[1..]) == Shed(ops)
      && Failures(ops + new_[1..]) == Failures(ops) + (if After(new_) == Over then 1 else 0)
      && After(ops + new_[1..]) == After(new_)
      && Latest(first, ops + new_[1..]) == if last.Read? && last.t.Some? then last.t.value else Latest(first, ops)
  {
    OneAfterDelete(ops, new_[1], queue, first, volume, slack);
    var two := ops + [new_[1]];
    if |new_| == 3 { OneAfterDelete(two, new_[2], queue, first, volume, slack); }
    assert ops + new_[1..] == if |new_| == 2 then two else two + [new_[2]];
  }

  // The wait for the cleaner, or the reading.
  lemma {:induction false} OneAfterDelete(ops: seq<Op>, op: Op, queue: seq<Version>, first: Tree, volume: int, slack: int)
    requires ValveRan(ops, queue, first, volume, slack)
    requires if op.Cleaned? then After(ops) == Deleted else op.Read? && After(ops) == Waited
    ensures ValveRan(ops + [op], queue, first, volume, slack)
    ensures Tries(ops + [op]) == Tries(ops) && Shed(ops + [op]) == Shed(ops)
    ensures After(ops + [op]) == After([op])
    ensures Failures(ops + [op]) == Failures(ops) + (if After([op]) == Over then 1 else 0)
    ensures Latest(first, ops + [op]) == if op.Read? && op.t.Some? then op.t.value else Latest(first, ops)
  {
    OneMoreOp(ops, op, first);
  }

  lemma {:induction false} OneMoreOp(ops: seq<Op>, op: Op, first: Tree)
    ensures (ops + [op])[..|ops|] == ops
    ensures Latest(first, ops + [op]) == match op case Read(Some(t)) => t case _ => Latest(first, ops)
    ensures Tries(ops + [op]) == Tries(ops) + match op case Tried(v, _) => [v] case _ => []
    ensures Shed(ops + [op]) == Shed(ops) + match op case Tried(v, true) => [v] case _ => []
    ensures Failures(ops + [op]) >= Failures(ops)
  {
    assert (ops + [op])[..|ops|] == ops;
  }

  class Guest {
    var disk: set<Version>       // the versions on the volume
    var limits: map<Id, int>     // the limits this tick has set
    var log: seq<Op>             // the deletes, waits and readings so far
    var failures: nat            // commands that failed, the listing of the versions aside

    constructor (disk: set<Version>)
      ensures this.disk == disk && limits == map[] && log == [] && failures == 0
    {
      this.disk, limits, log, failures := disk, map[], [], 0;
    }

    method Fate(ok: bool)
      modifies `failures
      ensures failures == old(failures) + if ok then 0 else 1
    {
      if !ok { failures := failures + 1; }
    }

    // The commands. Each may fail; a delete or a take that reports failure may still have happened.

    method ListVersions() returns (ring: seq<Version>, listed: bool)
      ensures NoRepeats(ring)
      ensures if listed then SetOf(ring) == disk else ring == []
    {
      ring := [];
      listed := *;
      if !listed { return; }
      var todo := disk;
      while todo != {}
        invariant todo <= disk && NoRepeats(ring)
        invariant forall v :: v in ring <==> v in disk && v !in todo
        decreases todo
      {
        var v :| v in todo;
        todo := todo - {v};
        ring := ring + [v];
      }
      assert SetOf(ring) == disk;
    }

    method Take(v: Version) returns (ok: bool)
      modifies `disk, `failures
      ensures failures == old(failures) + if ok then 0 else 1
      ensures ok ==> v !in old(disk) && disk == old(disk) + {v}
      ensures disk == old(disk) || disk == old(disk) + {v}
    {
      var made: bool := *;
      var labelled: bool := *;
      ok := made && labelled && v !in disk;
      if made { disk := disk + {v}; }
      Fate(ok);
    }

    method Delete(v: Version) returns (ok: bool)
      modifies `disk, `log, `failures
      ensures failures == old(failures) + if ok then 0 else 1
      ensures log == old(log) + [Tried(v, ok)]
      ensures ok ==> v in old(disk) && disk == old(disk) - {v}
      ensures disk == old(disk) || disk == old(disk) - {v}
    {
      var gone: bool := *;
      var sidecar: bool := *;
      ok := gone && sidecar && v in disk;
      if gone { disk := disk - {v}; }
      log := log + [Tried(v, ok)];
      Fate(ok);
    }

    method WaitForCleaner() returns (ok: bool)
      modifies `log, `failures
      ensures failures == old(failures) + if ok then 0 else 1
      ensures log == old(log) + [Cleaned(ok)]
    {
      ok := *;
      log := log + [Cleaned(ok)];
      Fate(ok);
    }

    method SetLimit(id: Id, cap: int) returns (ok: bool)
      modifies `limits, `failures
      ensures failures == old(failures) + if ok then 0 else 1
      ensures limits == if ok then old(limits)[id := cap] else old(limits)
    {
      ok := *;
      if ok { limits := limits[id := cap]; }
      Fate(ok);
    }

    method ReadTree() returns (t: Option<Tree>)
      modifies `log, `failures
      ensures failures == old(failures) + if t.Some? then 0 else 1
      ensures log == old(log) + [Read(t)]
    {
      t := *;
      log := log + [Read(t)];
      Fate(t.Some?);
    }

    method ReadUsage() returns (u: Option<Usage>)
      modifies `failures
      ensures failures == old(failures) + if u.Some? then 0 else 1
      ensures u.Some? ==> u.value.size > 0 && u.value.used > 0 && u.value.metaCopies > 0.0
    {
      u := *;
      if u.Some? && (u.value.size <= 0 || u.value.used <= 0 || u.value.metaCopies <= 0.0) { u := None; }
      Fate(u.Some?);
    }

    method MakeDirectory() returns (ok: bool)
      modifies `failures
      ensures failures == old(failures) + if ok then 0 else 1
    {
      ok := *;
      Fate(ok);
    }

    // ---- the ring

    method OneRing(ring: seq<Version>, app: string) returns (mine: seq<Version>)
      requires NoRepeats(ring)
      ensures NoRepeats(mine) && OneApp(mine, app) && SetOf(mine) == OfApp(SetOf(ring), app)
    {
      mine := [];
      for i := 0 to |ring|
        invariant NoRepeats(mine)
        invariant forall v :: v in mine <==> v in ring[..i] && v.app == app
      {
        assert ring[..i + 1] == ring[..i] + [ring[i]];
        assert ring[i] !in ring[..i];
        if ring[i].app == app { mine := mine + [ring[i]]; }
      }
      assert ring[..|ring|] == ring;
    }

    method Newest(mine: seq<Version>) returns (newest: Option<int>)
      ensures newest.None? <==> mine == []
      ensures newest.Some? ==> (exists v | v in mine :: v.at == newest.value) && forall v | v in mine :: v.at <= newest.value
    {
      newest := None;
      for i := 0 to |mine|
        invariant newest.None? <==> i == 0
        invariant newest.Some? ==> (exists k | 0 <= k < i :: mine[k].at == newest.value) && forall k | 0 <= k < i :: mine[k].at <= newest.value
      {
        if newest.None? || mine[i].at > newest.value { newest := Some(mine[i].at); }
      }
    }

    method Prune(drop: seq<Version>) returns (pruned: seq<Version>, errors: nat)
      requires NoRepeats(drop)
      modifies `disk, `log, `failures
      ensures old(log) <= log && errors == failures - old(failures)
      ensures forall v | v in pruned :: v !in disk
      ensures disk <= old(disk) && forall v | v in old(disk) && v !in disk :: v in drop
      ensures SetOf(pruned) <= SetOf(drop)
      ensures errors == 0 ==> SetOf(pruned) == SetOf(drop) && disk == old(disk) - SetOf(drop)
    {
      pruned, errors := [], 0;
      for i := 0 to |drop|
        invariant disk <= old(disk) && forall v | v in old(disk) && v !in disk :: v in drop[..i]
        invariant old(log) <= log && errors == failures - old(failures)
        invariant forall v | v in pruned :: v in drop && v !in disk
        invariant errors == 0 ==> forall v | v in drop[..i] :: v in pruned && v !in disk
      {
        assert drop[..i + 1] == drop[..i] + [drop[i]];
        var ok := Delete(drop[i]);
        if ok { pruned := pruned + [drop[i]]; } else { errors := errors + 1; }
      }
      assert drop[..|drop|] == drop;
    }

    /** One area's take and its retention, over its members as they were listed. */
    method RingOf(app: string, mine: seq<Version>, now: int) returns (taken: bool, pruned: seq<Version>, errors: nat, stop: bool)
      requires NoRepeats(mine) && OneApp(mine, app) && (mine == [] || SetOf(mine) == OfApp(disk, app))
      modifies `disk, `log, `failures
      ensures old(log) <= log && errors == failures - old(failures)
      ensures !taken && errors == 0 ==> disk == old(disk)
      ensures taken ==> Version(app, now) !in old(disk)
      ensures taken && errors == 0 ==> disk == old(disk) + {Version(app, now)} - SetOf(pruned)
      ensures disk <= old(disk) + {Version(app, now)} && forall v | v in pruned :: v !in disk
      ensures forall other | other != app :: OfApp(disk, other) == OfApp(old(disk), other)
      ensures Passed(OfApp(old(disk), app), OfApp(disk, app), app, now)
      ensures taken ==> Version(app, now) !in mine && forall v | v in mine :: now - v.at >= HOUR
      ensures taken && errors == 0 && (mine != [] || OfApp(old(disk), app) == {}) ==>
        var with := OfApp(old(disk), app) + {Version(app, now)};
        OfApp(disk, app) == set v | v in with && !LetGo(with, v, now)
      ensures !taken ==> errors > 0 || exists v | v in mine :: now - v.at < HOUR
      ensures stop ==> errors > 0
      ensures OneApp(pruned, app)
    {
      taken, pruned, errors, stop := false, [], 0, false;
      ghost var before := OfApp(disk, app);
      var newest := Newest(mine);
      if newest.Some? && now - newest.value < HOUR { return; }
      var v := Version(app, now);
      var ok := MakeDirectory();
      if !ok { return false, [], 1, true; }
      ghost var d0 := disk;
      ok := Take(v);
      TakePasses(d0, disk, v, now);
      if !ok { return false, [], 1, false; }
      taken := true;
      var drop := Retention(mine + [v], app, now);
      ghost var d1 := disk;
      pruned, errors := Prune(drop);
      forall x | x in pruned ensures x.app == app {
        assert x in SetOf(pruned);
        assert x in SetOf(drop);
        assert LetGo(SetOf(mine + [v]), x, now);
        assert x in mine + [v];
      }
      PrunePasses(d0, d1, disk, mine, v, now, drop);
    }

    // One area's turn: its take and its retention, and the listing kept up with them.
    method OneArea(was: seq<Version>, app: string, now: int, ghost listed: bool, ghost exact: bool)
      returns (ring: seq<Version>, took: bool, gone: seq<Version>, errors: nat, stop: bool)
      requires NoRepeats(was) && (exact ==> SetOf(was) == disk)
      requires listed ==> forall v | v in disk && v.at != now :: v in was
      requires OfApp(SetOf(was), app) == {} || OfApp(SetOf(was), app) == OfApp(disk, app)
      modifies `disk, `log, `failures
      ensures NoRepeats(ring) && old(log) <= log && errors == failures - old(failures) && (stop ==> errors > 0)
      ensures listed ==> forall v | v in disk && v.at != now :: v in ring
      ensures forall other | other != app :: OfApp(disk, other) == OfApp(old(disk), other)
      ensures forall other | other != app :: OfApp(SetOf(ring), other) == OfApp(SetOf(was), other)
      ensures Passed(OfApp(old(disk), app), OfApp(disk, app), app, now)
      ensures errors == 0 ==> took || Recent(old(disk), app, now)
      ensures exact && errors == 0 ==> SetOf(ring) == disk && RingKept(old(disk), disk, app, true, now)
    {
      var mine := OneRing(was, app);
      assert mine != [] ==> mine[0] in SetOf(mine);
      took, gone, errors, stop := RingOf(app, mine, now);
      ring := was;
      assert forall v | v in mine :: v in SetOf(mine) && v in OfApp(old(disk), app);
      assert exact ==> OfApp(SetOf(was), app) == OfApp(old(disk), app);
      assert forall v | v in OfApp(old(disk), app) :: v in old(disk) && v.app == app;
      if stop { return; }
      if took {
        assert Version(app, now) in OfApp(SetOf(was), app) ==> Version(app, now) in SetOf(mine);
        ring := Without(was + [Version(app, now)], gone);
        forall other | other != app ensures OfApp(SetOf(ring), other) == OfApp(SetOf(was), other) {
        }
      }
    }

    /** The ring: a member for every area whose newest is an hour old, and its retention. */
    method Rings(apps: seq<string>, now: int)
      returns (ring: seq<Version>, taken: seq<Version>, pruned: seq<Version>, errors: nat, listed: bool)
      requires forall i, j | 0 <= i < j < |apps| :: apps[i] != apps[j]
      modifies `disk, `log, `failures
      ensures old(log) <= log && errors == failures - old(failures)
      ensures listed ==> forall v | v in disk && v.at != now :: v in ring
      ensures listed && errors == 0 ==> SetOf(ring) == disk && RingsKept(old(disk), disk, apps, now)
      ensures RingsPassed(old(disk), disk, now)
      ensures NoRepeats(ring)
      ensures errors == 0 ==> forall app | app in apps :: Version(app, now) in taken || Recent(old(disk), app, now)
    {
      ring, listed := ListVersions();
      taken, pruned, errors := [], [], 0;
      ghost var d0 := disk;
      for i := 0 to |apps|
        invariant NoRepeats(ring) && old(log) <= log && errors == failures - old(failures)
        invariant listed ==> forall v | v in disk && v.at != now :: v in ring
        invariant listed && errors == 0 ==> SetOf(ring) == disk && RingsKept(d0, disk, apps[..i], now)
        invariant RingsPassed(d0, disk, now)
        invariant errors == 0 ==> forall app | app in apps[..i] :: Version(app, now) in taken || Recent(d0, app, now)
        invariant forall app | app !in apps[..i] :: OfApp(disk, app) == OfApp(d0, app)
        invariant forall app | app !in apps[..i] :: OfApp(SetOf(ring), app) == {} || OfApp(SetOf(ring), app) == OfApp(d0, app)
      {
        var app := apps[i];
        assert apps[..i + 1] == apps[..i] + [app];
        assert app !in apps[..i];
        ghost var before, exact := disk, listed && errors == 0;
        var took, gone, wrong, stop;
        ring, took, gone, wrong, stop := OneArea(ring, app, now, listed, exact);
        OneMorePassed(d0, before, disk, app, now);
        if exact && wrong == 0 { OneMoreKept(d0, before, disk, apps[..i], app, now); }
        RecentOf(d0, before, app, now);
        pruned, errors := pruned + gone, errors + wrong;
        if stop { break; }
        if took { taken := taken + [Version(app, now)]; }
      }
      assert apps[..|apps|] == apps;
    }

    // ---- the valve

    method Measure(rep: Report, volume: int, slack: int, t: Tree) returns (r: Report)
      ensures Measured(r, t, volume, slack)
      ensures r == rep.(volume := r.volume, slack := r.slack, dataUsed := r.dataUsed, filesUsed := r.filesUsed,
                        filesCap := r.filesCap, filesFree := r.filesFree, target := r.target)
    {
      var charged := Charged(t);
      var used := RefOf(t, FilesAgg());
      var cap := FilesCap(volume, slack, charged - used);
      r := rep.(volume := volume, slack := slack, dataUsed := charged - used, filesUsed := used,
                filesCap := cap, filesFree := cap - used, target := Target(cap));
    }

    method Eligible(ring: seq<Version>, now: int) returns (queue: seq<Version>)
      requires NoRepeats(ring)
      ensures NoRepeats(queue) && OldestFirst(queue)
      ensures forall v :: v in queue <==> v in ring && Age(v, now) > DAY
    {
      var some: seq<Version> := [];
      for i := 0 to |ring|
        invariant NoRepeats(some) && forall v :: v in some <==> v in ring[..i] && Age(v, now) > DAY
      {
        assert ring[..i + 1] == ring[..i] + [ring[i]];
        assert ring[i] !in ring[..i];
        if Age(ring[i], now) > DAY { some := some + [ring[i]]; }
      }
      assert ring[..|ring|] == ring;
      queue := Sort(some, false);
      PermutedSame(queue, some);
    }

    // One version tried, and when it is gone the cleaner waited for and the tree read again.
    method ShedOne(v: Version, young: bool, was: Report, seen: Tree, volume: int, slack: int)
      returns (rep: Report, tree: Tree, ghost new_: seq<Op>, end: End)
      requires Measured(was, seen, volume, slack)
      modifies `disk, `log, `failures
      ensures failures - old(failures) == rep.errors - was.errors
      ensures log == old(log) + new_ && OneTry(new_, v)
      ensures disk == old(disk) || disk == old(disk) - {v}
      ensures new_[0].ok ==> disk == old(disk) - {v}
      ensures Reported(was, seen, new_, v, young, rep, tree, end, volume, slack)
    {
      rep, tree, end := was.(short := was.short || young), seen, Room;
      var ok := Delete(v);
      new_ := [Tried(v, ok)];
      if !ok {
        rep := rep.(errors := rep.errors + 1);
        return;
      }
      rep := rep.(shed := rep.shed + [v]);
      ok := WaitForCleaner();
      new_ := new_ + [Cleaned(ok)];
      if !ok {
        rep, end := rep.(errors := rep.errors + 1), NoCleaner;
        return;
      }
      var t := ReadTree();
      new_ := new_ + [Read(t)];
      if t.None? {
        rep, tree, end := rep.(errors := rep.errors + 1), map[], NoReading;
        return;
      }
      tree := t.value;
      rep := Measure(rep, volume, slack, tree);
    }

    // The same, as one turn of the valve's loop.
    method OneTurn(queue: seq<Version>, now: int, ghost start: Report, ghost first: Tree, volume: int, slack: int,
                   ghost ops: seq<Op>, i: nat, was: Report, seen: Tree, ghost d0: set<Version>)
      returns (rep: Report, tree: Tree, ghost new_: seq<Op>, end: End)
      requires Standing(queue, now, start, first, volume, slack, ops, i, was, seen, Room) && i < |queue|
      requires was.filesFree < was.target && DiskAfter(d0, disk, ops)
      modifies `disk, `log, `failures
      ensures failures - old(failures) == rep.errors - was.errors
      ensures log == old(log) + new_
      ensures Standing(queue, now, start, first, volume, slack, ops + new_, i + 1, rep, tree, end)
      ensures DiskAfter(d0, disk, ops + new_)
    {
      ghost var on := disk;
      rep, tree, new_, end := ShedOne(queue[i], Age(queue[i], now) < 5 * DAY, was, seen, volume, slack);
      OneTried(queue, now, start, first, volume, slack, ops, i, was, seen, new_, rep, tree, end, d0, on, disk);
    }

    // The valve's loop.
    method Turns(queue: seq<Version>, now: int, start: Report, first: Tree, volume: int, slack: int)
      returns (rep: Report, tree: Tree, ghost ops: seq<Op>, end: End, ghost i: nat)
      requires Measured(start, first, volume, slack) && !start.short
      modifies `disk, `log, `failures
      ensures failures - old(failures) == rep.errors - start.errors
      ensures log == old(log) + ops
      ensures DiskAfter(old(disk), disk, ops)
      ensures Standing(queue, now, start, first, volume, slack, ops, i, rep, tree, end)
      ensures end != Room || rep.filesFree >= rep.target || i == |queue|
    {
      rep, tree, ops, end := start, first, [], Room;
      StandingStarts(queue, now, start, first, volume, slack, disk);
      var k := 0;
      while end == Room && rep.filesFree < rep.target && k < |queue|
        invariant Standing(queue, now, start, first, volume, slack, ops, k, rep, tree, end)
        invariant failures - old(failures) == rep.errors - start.errors
        invariant log == old(log) + ops
        invariant DiskAfter(old(disk), disk, ops)
        decreases |queue| - k
      {
        ghost var new_;
        rep, tree, new_, end := OneTurn(queue, now, start, first, volume, slack, ops, k, rep, tree, old(disk));
        ops := ops + new_;
        k := k + 1;
      }
      i := k;
    }

    /** The valve. ops are its commands, as they went to the log. */
    method Valve(queue: seq<Version>, now: int, start: Report, first: Tree, volume: int, slack: int)
      returns (rep: Report, tree: Tree, ghost ops: seq<Op>, end: End)
      requires Measured(start, first, volume, slack) && !start.short
      modifies `disk, `log, `failures
      ensures failures - old(failures) == rep.errors - start.errors
      ensures log == old(log) + ops
      ensures DiskAfter(old(disk), disk, ops)
      ensures ValveDone(queue, now, start, first, volume, slack, ops, rep, tree, end)
    {
      ghost var i;
      rep, tree, ops, end, i := Turns(queue, now, start, first, volume, slack);
      StandingEnds(queue, now, start, first, volume, slack, ops, i, rep, tree, end);
      if end == Room && rep.filesFree < rep.target {
        rep, end := rep.(short := true), Exhausted;
      }
    }

    // ---- the apps' caps

    method SetCap(tree: Tree, rep: Report, id: Id, agg: Id) returns (errors: nat)
      requires id in tree
      modifies `limits, `failures
      ensures errors == failures - old(failures)
      ensures !InTier(tree, id, agg) || tree[id].limit == CapFor(tree, rep, id, agg) ==> limits == old(limits) && errors == 0
      ensures forall x | x != id :: x in limits <==> x in old(limits)
      ensures forall x | x != id && x in limits :: limits[x] == old(limits)[x]
      ensures InTier(tree, id, agg) && errors == 0 && id !in old(limits) ==> LimitOf(tree, limits, id) == CapFor(tree, rep, id, agg)
    {
      errors := 0;
      if InTier(tree, id, agg) && tree[id].limit != CapFor(tree, rep, id, agg) {
        var ok := SetLimit(id, CapFor(tree, rep, id, agg));
        errors := if ok then 0 else 1;
      }
    }

    method Caps(tree: Tree, rep: Report) returns (errors: nat)
      requires forall id | id in limits :: id.level != 1
      modifies `limits, `failures
      ensures errors == failures - old(failures)
      ensures errors == 0 ==> CapsSet(tree, rep, limits, tree.Keys)
      ensures forall id: Id | id.level != 1 :: SameLimit(old(limits), limits, id)
    {
      errors := 0;
      var todo := tree.Keys;
      while todo != {}
        invariant todo <= tree.Keys
        invariant errors == failures - old(failures)
        invariant forall id | id in limits && id.level == 1 :: id !in todo
        invariant errors == 0 ==> CapsSet(tree, rep, limits, tree.Keys - todo)
        invariant forall id: Id | id.level != 1 :: SameLimit(old(limits), limits, id)
        decreases todo
      {
        var id :| id in todo;
        todo := todo - {id};
        ghost var before := limits;
        GroupsAreDistinct(FilesTier, 0, QuotaTree.DataTier, 0);
        var e := SetCap(tree, rep, id, DataAgg());
        var f := SetCap(tree, rep, id, FilesAgg());
        if errors == 0 && e == 0 && f == 0 {
          OneMoreCap(tree, rep, before, limits, tree.Keys - todo - {id}, id);
          assert tree.Keys - todo - {id} + {id} == tree.Keys - todo;
        }
        errors := errors + e + f;
      }
    }

    // ---- the tick

    /** filesTick. bounded says the rule was applied; without it nothing has a files area, or the
      * volume could not be read. kept is what was on the volume before the valve, and shedding what
      * the valve did. */
    method Tick(apps: seq<string>, now: int)
      returns (rep: Report, tree: Tree, bounded: bool, ghost kept: set<Version>, ghost shedding: Shedding)
      requires limits == map[]
      requires forall i, j | 0 <= i < j < |apps| :: apps[i] != apps[j]
      modifies this
      ensures rep.errors == failures - old(failures)
      ensures !bounded && rep.errors == 0 ==>
                old(log) < log && log[|log| - 1].Read? && log[|log| - 1].t.Some? && FilesAgg() !in log[|log| - 1].t.value
      ensures RingsPassed(old(disk), kept, now)
      ensures bounded && shedding.listed && rep.errors == 0 ==> RingsKept(old(disk), kept, apps, now)
      ensures disk <= kept && forall v | v in kept && v !in disk :: now - v.at > 86_400
      ensures rep.errors == 0 && rep.shed == [] ==> disk == kept
      ensures forall v | v in old(disk) && now - v.at < 86_400 :: v in disk
      ensures rep.errors == 0 ==> forall app | app in apps :: Version(app, now) in rep.taken || Recent(old(disk), app, now)
      ensures old(log) <= log
      ensures bounded ==> FilesAgg() in shedding.first && ShedAsItShould(shedding, kept, disk, log, now) && rep.shed == Shed(shedding.ops)
      ensures !bounded ==> disk == kept && rep.shed == []
      ensures bounded ==>
        && rep.volume == shedding.use.size
        && IsSlack(rep.slack, shedding.use, ChargedOf(shedding.first))
        && Allocated(rep)
      ensures bounded && rep.errors == 0 ==> Bounded(rep, tree, limits, shedding, now)
      ensures bounded && rep.errors == 0 && !rep.short ==> Unwarned(rep, tree, limits)
    {
      var ring, taken, pruned, errors, listed := Rings(apps, now);
      kept := disk;
      RingsKeepYoung(old(disk), disk, now);
      rep := Report(0, 0, 0, 0, 0, 0, 0, taken, pruned, [], false, errors);
      rep, tree, bounded, shedding := Bounding(ring, listed, now, rep);
    }

    // The tick once the rings have passed.
    method Bounding(ring: seq<Version>, ghost listed: bool, now: int, start: Report)
      returns (rep: Report, tree: Tree, bounded: bool, ghost shedding: Shedding)
      requires limits == map[] && NoRepeats(ring) && !start.short && start.shed == []
      requires listed ==> forall v | v in disk && v.at != now :: v in ring
      modifies this
      ensures rep.errors - start.errors == failures - old(failures) >= 0 && rep.taken == start.taken
      ensures !bounded && rep.errors == start.errors ==>
                old(log) < log && log[|log| - 1].Read? && log[|log| - 1].t.Some? && FilesAgg() !in log[|log| - 1].t.value
      ensures disk <= old(disk) && forall v | v in old(disk) && v !in disk :: now - v.at > 86_400
      ensures rep.errors == 0 && rep.shed == [] ==> disk == old(disk)
      ensures old(log) <= log
      ensures bounded ==>
        && FilesAgg() in shedding.first && shedding.listed == listed && rep.shed == Shed(shedding.ops)
        && ShedAsItShould(shedding, old(disk), disk, log, now)
      ensures !bounded ==> disk == old(disk) && rep.shed == []
      ensures bounded ==>
        && rep.volume == shedding.use.size
        && IsSlack(rep.slack, shedding.use, ChargedOf(shedding.first))
        && Allocated(rep)
      ensures bounded && rep.errors == 0 ==> Bounded(rep, tree, limits, shedding, now)
      ensures bounded && rep.errors == 0 && !rep.short ==> Unwarned(rep, tree, limits)
    {
      rep, tree, bounded := start, map[], false;
      shedding := Shedding(listed, [], map[], Usage(0, 0, 0.0), [], []);
      var use := ReadUsage();
      if use.None? { return rep.(errors := rep.errors + 1), tree, false, shedding; }
      var t := ReadTree();
      if t.None? { return rep.(errors := rep.errors + 1), tree, false, shedding; }
      tree := t.value;
      if FilesAgg() !in tree { return; }
      bounded := true;
      ghost var before := log;
      ghost var queue, ops;
      rep, tree, queue, ops := Bound(ring, now, use.value, tree, start);
      shedding := Shedding(listed, before, t.value, use.value, queue, ops);
    }

    // The files tier's cap, from the first measurement.
    method LimitFiles(volume: int, slack: int, first: Tree, start: Report) returns (rep: Report)
      requires limits == map[] && FilesAgg() in first
      modifies `limits, `failures
      ensures rep.errors - start.errors == failures - old(failures)
      ensures first[FilesAgg()].limit == rep.filesCap ==> limits == old(limits) && failures == old(failures)
      ensures Measured(rep, first, volume, slack)
      ensures rep.taken == start.taken && rep.pruned == start.pruned && rep.shed == start.shed && rep.short == start.short
      ensures rep.errors >= start.errors
      ensures rep.errors == start.errors ==> LimitOf(first, limits, FilesAgg()) == FilesCap(volume, slack, OutsideOf(first))
      ensures forall id | id in limits :: id == FilesAgg()
    {
      rep := Measure(start, volume, slack, first);
      if first[FilesAgg()].limit != rep.filesCap {
        var ok := SetLimit(FilesAgg(), rep.filesCap);
        rep := rep.(errors := rep.errors + (if ok then 0 else 1));
      }
    }

    // The rule over this usage and tree: the files tier's cap, the valve, the apps' caps.
    method Bound(ring: seq<Version>, now: int, use: Usage, first: Tree, start: Report)
      returns (rep: Report, tree: Tree, ghost queue: seq<Version>, ghost ops: seq<Op>)
      requires limits == map[] && NoRepeats(ring) && FilesAgg() in first && !start.short && start.shed == []
      requires use.size > 0 && use.metaCopies > 0.0
      modifies this
      ensures NoRepeats(queue) && OldestFirst(queue) && forall v :: v in queue <==> v in ring && Age(v, now) > DAY
      ensures log == old(log) + ops && ValveRan(ops, queue, first, use.size, Slack(use, ChargedOf(first)))
      ensures Tries(ops) <= queue
      ensures disk <= old(disk) && forall v | v in old(disk) && v !in disk :: v in Tries(ops) && Age(v, now) > DAY
      ensures !TooLittle(first, use.size, Slack(use, ChargedOf(first))) ==> ops == [] && disk == old(disk)
      ensures rep.errors == 0 && rep.shed == [] ==> disk == old(disk)
      ensures rep.shed == Shed(ops)
      ensures rep.errors == 0 && !rep.short ==> Unwarned(rep, tree, limits)
      ensures rep.errors == 0 ==> Bounded(rep, tree, limits, Shedding(false, [], first, use, queue, ops), now)
      ensures rep.taken == start.taken && rep.pruned == start.pruned
      ensures rep.errors - start.errors == failures - old(failures) >= 0
      ensures rep.volume == use.size && IsSlack(rep.slack, use, ChargedOf(first)) && Allocated(rep)
    {
      var charged := Charged(first);
      var slack := Slack(use, charged);
      SlackIs(use, charged);
      rep := LimitFiles(use.size, slack, first, start);
      var sorted := Eligible(ring, now);
      queue := sorted;
      ghost var from, d0 := rep, disk;
      var end;
      rep, tree, ops, end := Valve(sorted, now, rep, first, use.size, slack);
      ValveDid(queue, now, from, first, use.size, slack, ops, rep, tree, end, d0, disk);
      var wrong := Caps(tree, rep);
      if rep.errors == 0 && wrong == 0 {
        BoundedNow(from, rep, tree, limits, first, use, queue, ops, end, slack, now);
        if !rep.short { TickEnds(rep, tree, limits, use.size, slack); }
      }
      rep := rep.(errors := rep.errors + wrong);
      FiguresAre(rep);
    }

    method Without(ring: seq<Version>, gone: seq<Version>) returns (r: seq<Version>)
      requires NoRepeats(ring)
      ensures NoRepeats(r) && forall v :: v in r <==> v in ring && v !in gone
    {
      r := [];
      for i := 0 to |ring|
        invariant NoRepeats(r) && forall v :: v in r <==> v in ring[..i] && v !in gone
      {
        assert ring[..i + 1] == ring[..i] + [ring[i]];
        assert ring[i] !in ring[..i];
        if ring[i] !in gone { r := r + [ring[i]]; }
      }
      assert ring[..|ring|] == ring;
    }
  }

  lemma {:induction false} BoundedNow(start: Report, rep: Report, tree: Tree, limits: map<Id, int>, first: Tree, use: Usage,
                                      queue: seq<Version>, ops: seq<Op>, end: End, slack: int, now: int)
    requires FilesAgg() in first && rep.errors == 0 && CapsSet(tree, rep, limits, tree.Keys)
    requires ValveDone(queue, now, start, first, use.size, slack, ops, rep, tree, end)
    requires LimitOf(first, limits, FilesAgg()) == FilesCap(use.size, slack, OutsideOf(first))
    ensures Bounded(rep, tree, limits, Shedding(false, [], first, use, queue, ops), now)
  {
    CapsSetAre(tree, rep, limits);
    FilesCapIs(use.size, slack, OutsideOf(first));
    assert end == Exhausted ==> Tries(ops) == queue;
  }

  lemma {:induction false} OneMorePassed(d0: set<Version>, d1: set<Version>, d2: set<Version>, app: string, now: int)
    requires RingsPassed(d0, d1, now) && OfApp(d1, app) == OfApp(d0, app)
    requires Passed(OfApp(d1, app), OfApp(d2, app), app, now)
    requires forall other | other != app :: OfApp(d2, other) == OfApp(d1, other)
    ensures RingsPassed(d0, d2, now)
  {
    forall x: string ensures Passed(OfApp(d0, x), OfApp(d2, x), x, now) {
      assert Passed(OfApp(d0, x), OfApp(d1, x), x, now);
    }
  }

  lemma {:induction false} RecentOf(d0: set<Version>, d1: set<Version>, app: string, now: int)
    requires OfApp(d1, app) == OfApp(d0, app)
    ensures Recent(d1, app, now) == Recent(d0, app, now)
  {
    assert forall v | v in d0 && v.app == app :: v in OfApp(d0, app);
    assert forall v | v in d1 && v.app == app :: v in OfApp(d1, app);
  }

  lemma {:induction false} OneMoreKept(d0: set<Version>, d1: set<Version>, d2: set<Version>, apps: seq<string>, app: string, now: int)
    requires RingsKept(d0, d1, apps, now) && app !in apps && RingKept(d1, d2, app, true, now)
    requires forall other | other != app :: OfApp(d2, other) == OfApp(d1, other)
    ensures RingsKept(d0, d2, apps + [app], now)
  {
    assert RingKept(d0, d1, app, false, now);
    RecentOf(d0, d1, app, now);
    forall x: string ensures RingKept(d0, d2, x, x in apps + [app], now) {
      assert RingKept(d0, d1, x, x in apps, now);
    }
  }

  lemma {:induction false} TakePasses(d: set<Version>, d': set<Version>, v: Version, now: int)
    requires v.at == now && (d' == d || d' == d + {v})
    ensures Passed(OfApp(d, v.app), OfApp(d', v.app), v.app, now)
    ensures forall other | other != v.app :: OfApp(d', other) == OfApp(d, other)
  {
    forall other | other != v.app ensures OfApp(d', other) == OfApp(d, other) {
    }
    assert d' == d ==> OfApp(d', v.app) == OfApp(d, v.app);
    assert d' == d + {v} ==> OfApp(d', v.app) == OfApp(d, v.app) + {v};
  }

  lemma {:induction false} PrunePasses(d0: set<Version>, d1: set<Version>, d2: set<Version>, mine: seq<Version>, v: Version, now: int, drop: seq<Version>)
    requires v !in d0 && d1 == d0 + {v} && v.at == now
    requires OneApp(mine, v.app) && (mine == [] || SetOf(mine) == OfApp(d0, v.app))
    requires forall x :: x in drop <==> LetGo(SetOf(mine + [v]), x, now)
    requires d2 <= d1 && forall x | x in d1 && x !in d2 :: x in drop
    ensures Passed(OfApp(d0, v.app), OfApp(d2, v.app), v.app, now)
    ensures forall other | other != v.app :: OfApp(d2, other) == OfApp(d0, other)
    ensures d2 == d1 - SetOf(drop) && (mine != [] || OfApp(d0, v.app) == {}) ==>
      var with := OfApp(d0, v.app) + {v};
      OfApp(d2, v.app) == set x | x in with && !LetGo(with, x, now)
  {
    var with := OfApp(d0, v.app) + {v};
    var listed := SetOf(mine + [v]);
    assert listed <= with;
    forall x | x in drop ensures x in with && LetGo(with, x, now) {
    }
    assert OfApp(d1, v.app) == with;
    forall x | x in with && x !in OfApp(d2, v.app) ensures LetGo(with, x, now) {
      assert x in d1 && x !in d2;
    }
    forall other | other != v.app ensures OfApp(d2, other) == OfApp(d0, other) {
      forall x | x in OfApp(d0, other) ensures x in OfApp(d2, other) {
        assert x in drop ==> x in with;
      }
    }
    if mine != [] || OfApp(d0, v.app) == {} {
      assert listed == with;
    }
  }

  // ---------------------------------------------------------------- runs of ticks

  // The volume over ticks that shed nothing.
  ghost predicate TicksRun(disks: seq<set<Version>>, nows: seq<int>) {
    && |disks| == |nows| >= 1 && disks[0] == {}
    && forall i | 0 < i < |disks| :: nows[i - 1] <= nows[i] && RingsPassed(disks[i - 1], disks[i], nows[i])
  }

  // Every version that was ever on the volume.
  ghost function Ever(disks: seq<set<Version>>, app: string): set<Version> {
    if disks == [] then {} else Ever(disks[..|disks| - 1], app) + OfApp(disks[|disks| - 1], app)
  }

  // One app's part of such a run is a run of its ring.
  lemma {:induction false} OneAppsTicks(disks: seq<set<Version>>, nows: seq<int>, app: string) returns (hs: seq<History>)
    requires TicksRun(disks, nows)
    ensures |hs| == |disks| && Ticks(hs, app)
    ensures hs[|hs| - 1] == History(nows[|nows| - 1], Ever(disks, app), OfApp(disks[|disks| - 1], app))
    decreases |disks|
  {
    var n := |disks| - 1;
    if n == 0 {
      assert Ever(disks, app) == {} by { assert Ever(disks[..0], app) == {}; }
      hs := [History(nows[0], {}, {})];
    } else {
      var before := OneAppsTicks(disks[..n], nows[..n], app);
      var h := before[n - 1];
      var h' := History(nows[n], Ever(disks, app), OfApp(disks[n], app));
      assert disks[..n][n - 1] == disks[n - 1];
      assert Passed(h.ring, h'.ring, app, nows[n]);
      EverGrows(disks, nows, app);
      hs := before + [h'];
      assert Tick(h, h', app);
    }
  }

  lemma {:induction false} EverGrows(disks: seq<set<Version>>, nows: seq<int>, app: string)
    requires |disks| == |nows| >= 2
    requires var n := |disks| - 1; Passed(OfApp(disks[n - 1], app), OfApp(disks[n], app), app, nows[n])
    ensures var n := |disks| - 1;
            Ever(disks, app) == Ever(disks[..n], app) +
              (if OfApp(disks[n], app) == OfApp(disks[n - 1], app) then {} else {Version(app, nows[n])})
  {
    var n := |disks| - 1;
    var ring, ring', v := OfApp(disks[n - 1], app), OfApp(disks[n], app), Version(app, nows[n]);
    assert disks[..n][..n - 1] == disks[..n - 1];
    assert ring <= Ever(disks[..n], app);
    if ring' != ring {
      assert BucketOf(v, nows[n]) == Young;
      assert v in ring';
    }
  }

  /** Over any run of ticks that shed nothing, whatever else failed: the newest version an app ever
    * had of a day is on the volume until it is seven days old, and of a week until thirty. */
  lemma {:induction false} NewestOutlivesTicks(disks: seq<set<Version>>, nows: seq<int>, app: string, v: Version)
    requires TicksRun(disks, nows)
    requires
      var now := nows[|nows| - 1];
      || (NewestOfDay(Ever(disks, app), v) && now - v.at < 604_800)
      || (NewestOfWeek(Ever(disks, app), v) && now - v.at < 2_592_000)
    ensures v in disks[|disks| - 1]
  {
    var hs := OneAppsTicks(disks, nows, app);
    NewestSurvives(hs, app, v);
  }
}
