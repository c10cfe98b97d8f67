/** An app's file versions and what its retention lets go (agent/guestagent/filestier.go). */
module FilesVersions {

  // Times are seconds since the epoch, the resolution of a member's name. The name is the app
  // and the time, so a version is these two.
  datatype Version = Version(app: string, at: int)

  const HOUR := 3600
  const DAY := 24 * HOUR

  function Age(v: Version, now: int): int {
    now - v.at
  }

  function DayOf(at: int): int {
    at / DAY
  }

  // The epoch was a Thursday; an ISO week starts on its Monday.
  function WeekOf(at: int): int {
    (DayOf(at) + 3) / 7
  }

  // Midnight UTC, and midnight UTC at the start of a Monday: the fifth of January 1970 was one.
  predicate IsMidnight(m: int) { m % 86_400 == 0 }

  predicate IsMonday(m: int) { m % 604_800 == 345_600 }

  /** One UTC day: no midnight comes between. */
  ghost predicate SameDay(a: int, b: int) {
    forall m | IsMidnight(m) :: m <= a <==> m <= b
  }

  /** One week: no Monday's midnight comes between. */
  ghost predicate SameWeek(a: int, b: int) {
    forall m | IsMonday(m) :: m <= a <==> m <= b
  }

  lemma {:induction false} DaysAndWeeks(a: int, b: int)
    ensures DayOf(a) == DayOf(b) <==> SameDay(a, b)
    ensures WeekOf(a) == WeekOf(b) <==> SameWeek(a, b)
  {
    DaysAre(a, b);
    WeeksAre(a, b);
  }

  lemma {:induction false} DaysAre(a: int, b: int)
    ensures DayOf(a) == DayOf(b) <==> SameDay(a, b)
  {
    forall m | IsMidnight(m) && DayOf(a) == DayOf(b) ensures m <= a <==> m <= b { OneMidnight(a, m); OneMidnight(b, m); }
    assert IsMidnight(86_400 * DayOf(a)) && IsMidnight(86_400 * DayOf(b));
  }

  // A midnight is no later than a time exactly when its day is no later.
  lemma {:induction false} OneMidnight(at: int, m: int)
    requires IsMidnight(m)
    ensures m <= at <==> m / 86_400 <= DayOf(at)
  {
    assert m == 86_400 * (m / 86_400);
  }

  lemma {:induction false} WeeksAre(a: int, b: int)
    ensures WeekOf(a) == WeekOf(b) <==> SameWeek(a, b)
  {
    WeekStarts(a);
    WeekStarts(b);
    forall m | IsMonday(m) && WeekOf(a) == WeekOf(b) ensures m <= a <==> m <= b { OneMonday(a, m); OneMonday(b, m); }
    MondayIs(WeekOf(a));
    MondayIs(WeekOf(b));
  }

  lemma {:induction false} MondayIs(week: int)
    ensures IsMonday(604_800 * week - 259_200)
  {
  }

  lemma {:induction false} OneMonday(at: int, m: int)
    requires IsMonday(m)
    ensures m <= at <==> (m + 259_200) / 604_800 <= WeekOf(at)
  {
    WeekStarts(at);
  }

  lemma {:induction false} WeekStarts(at: int)
    ensures 604_800 * WeekOf(at) - 259_200 <= at < 604_800 * WeekOf(at) + 345_600
  {
  }

  datatype Bucket = Young | OfDay(day: int) | OfWeek(week: int) | TooOld

  function BucketOf(v: Version, now: int): Bucket {
    if Age(v, now) < DAY then Young
    else if Age(v, now) < 7 * DAY then OfDay(DayOf(v.at))
    else if Age(v, now) < 30 * DAY then OfWeek(WeekOf(v.at))
    else TooOld
  }

  /** What retention lets go: everything too old, and everything of an old day or week that is not
    * the newest of it. */
  ghost predicate LetGo(ring: set<Version>, v: Version, now: int) {
    v in ring &&
    match BucketOf(v, now)
    case Young => false
    case TooOld => true
    case _ => exists n | n in ring :: n.app == v.app && n.at > v.at && BucketOf(n, now) == BucketOf(v, now)
  }

  // A newer version of the app, itself at least this old.
  predicate Newer(ring: set<Version>, n: Version, v: Version, now: int, age: int) {
    n in ring && n.app == v.app && n.at > v.at && now - n.at >= age
  }

  /** Retention in seconds and by the calendar: what is thirty days old goes; from seven days on what
    * has a newer one, itself seven days old, in its week; and from one day on what has a newer one,
    * itself a day old, in its day. */
  lemma {:induction false} LetGoIff(ring: set<Version>, v: Version, now: int)
    ensures LetGo(ring, v, now) <==> (v in ring && (
              || now - v.at >= 2_592_000
              || (now - v.at >= 604_800 && exists n :: Newer(ring, n, v, now, 604_800) && SameWeek(n.at, v.at))
              || (604_800 > now - v.at >= 86_400 && exists n :: Newer(ring, n, v, now, 86_400) && SameDay(n.at, v.at))))
  {
    forall n | n in ring ensures (DayOf(n.at) == DayOf(v.at) <==> SameDay(n.at, v.at))
                              && (WeekOf(n.at) == WeekOf(v.at) <==> SameWeek(n.at, v.at)) {
      DaysAndWeeks(n.at, v.at);
    }
    forall n | Newer(ring, n, v, now, 604_800) && SameWeek(n.at, v.at) && now - v.at < 2_592_000
      ensures BucketOf(n, now) == BucketOf(v, now) {
    }
    forall n | Newer(ring, n, v, now, 86_400) && SameDay(n.at, v.at) && now - v.at < 604_800
      ensures BucketOf(n, now) == BucketOf(v, now) {
    }
    forall n | n in ring && n.app == v.app && n.at > v.at && BucketOf(n, now) == BucketOf(v, now) && BucketOf(v, now).OfWeek?
      ensures Newer(ring, n, v, now, 604_800) {
    }
    forall n | n in ring && n.app == v.app && n.at > v.at && BucketOf(n, now) == BucketOf(v, now) && BucketOf(v, now).OfDay?
      ensures Newer(ring, n, v, now, 86_400) {
    }
  }

  predicate Before(v: Version, n: Version, newestFirst: bool) {
    if newestFirst then v.at >= n.at else v.at <= n.at
  }

  predicate Ordered(s: seq<Version>, newestFirst: bool) {
    forall i, j | 0 <= i < j < |s| :: Before(s[i], s[j], newestFirst)
  }

  ghost predicate Permuted(s: seq<Version>, r: seq<Version>) {
    multiset(s) == multiset(r)
  }

  predicate OneApp(s: seq<Version>, app: string) {
    forall v | v in s :: v.app == app
  }

  predicate NoRepeats(s: seq<Version>) {
    forall i, j | 0 <= i < j < |s| :: s[i] != s[j]
  }

  lemma {:induction false} PermutedSame(s: seq<Version>, r: seq<Version>)
    requires Permuted(s, r)
    ensures |s| == |r| && forall v :: v in s <==> v in r
    ensures NoRepeats(r) ==> NoRepeats(s)
  {
    assert |multiset(s)| == |multiset(r)|;
    forall v ensures v in s <==> v in r {
      assert v in s <==> v in multiset(s);
      assert v in r <==> v in multiset(r);
    }
    if NoRepeats(r) {
      forall v | v in r ensures multiset(r)[v] == 1 { CountsOnce(r, v); }
      forall i, j | 0 <= i < j < |s| ensures s[i] != s[j] {
        if s[i] == s[j] { CountsTwice(s, i, j); }
      }
    }
  }

  lemma {:induction false} CountsOnce(s: seq<Version>, v: Version)
    requires NoRepeats(s) && v in s
    ensures multiset(s)[v] == 1
  {
    var i :| 0 <= i < |s| && s[i] == v;
    assert s == s[..i] + [v] + s[i + 1..];
    assert v !in s[..i] && v !in s[i + 1..];
  }

  lemma {:induction false} CountsTwice(s: seq<Version>, i: nat, j: nat)
    requires i < j < |s| && s[i] == s[j]
    ensures multiset(s)[s[i]] >= 2
  {
    assert s == s[..i] + [s[i]] + s[i + 1..j] + [s[j]] + s[j + 1..];
  }

  method Insert(s: seq<Version>, v: Version, newestFirst: bool) returns (r: seq<Version>)
    requires Ordered(s, newestFirst)
    ensures Ordered(r, newestFirst) && multiset(r) == multiset(s) + multiset{v}
  {
    var i := 0;
    while i < |s| && Before(s[i], v, newestFirst)
      invariant i <= |s|
      invariant forall k | 0 <= k < i :: Before(s[k], v, newestFirst)
    {
      i := i + 1;
    }
    r := s[..i] + [v] + s[i..];
    if i < |s| { AfterTheFirst(s, v, i, newestFirst); }
    InOrder(s[..i], v, s[i..], newestFirst);
    assert s == s[..i] + s[i..];
  }

  lemma {:induction false} InOrder(a: seq<Version>, v: Version, b: seq<Version>, newestFirst: bool)
    requires Ordered(a, newestFirst) && Ordered(b, newestFirst)
    requires (forall x | x in a :: Before(x, v, newestFirst)) && forall x | x in b :: Before(v, x, newestFirst)
    ensures Ordered(a + [v] + b, newestFirst)
  {
    forall x, y | x in a && y in b ensures Before(x, y, newestFirst) {
      assert Before(x, v, newestFirst) && Before(v, y, newestFirst);
    }
  }

  lemma {:induction false} AfterTheFirst(s: seq<Version>, v: Version, i: nat, newestFirst: bool)
    requires Ordered(s, newestFirst) && i < |s| && !Before(s[i], v, newestFirst)
    ensures forall k | i <= k < |s| :: Before(v, s[k], newestFirst)
  {
    forall k | i <= k < |s| ensures Before(v, s[k], newestFirst) {
      if i < k { assert Before(s[i], s[k], newestFirst); }
    }
  }

  method Sort(ring: seq<Version>, newestFirst: bool) returns (s: seq<Version>)
    ensures Ordered(s, newestFirst) && Permuted(s, ring)
  {
    s := [];
    for i := 0 to |ring|
      invariant Ordered(s, newestFirst) && Permuted(s, ring[..i])
    {
      s := Insert(s, ring[i], newestFirst);
      assert ring[..i + 1] == ring[..i] + [ring[i]];
    }
    assert ring[..|ring|] == ring;
  }

  ghost function SetOf(s: seq<Version>): set<Version> {
    set v | v in s
  }

  predicate Occurs(b: Bucket, s: seq<Version>, i: nat, now: int)
    requires i <= |s|
  {
    exists k | 0 <= k < i :: BucketOf(s[k], now) == b
  }

  // The buckets of the first i members.
  ghost predicate SeenBy(seen: set<Bucket>, s: seq<Version>, i: nat, now: int)
    requires i <= |s|
  {
    forall b :: b in seen <==> b != Young && b != TooOld && Occurs(b, s, i, now)
  }

  // Of the first i members, those let go.
  ghost predicate DroppedBy(drop: seq<Version>, s: seq<Version>, i: nat, ring: set<Version>, now: int)
    requires i <= |s|
  {
    && NoRepeats(drop)
    && (forall v | v in drop :: v in s[..i] && LetGo(ring, v, now))
    && (forall k | 0 <= k < i && LetGo(ring, s[k], now) :: s[k] in drop)
  }

  /** versionRetention over one app's ring. */
  method Retention(ring: seq<Version>, app: string, now: int) returns (drop: seq<Version>)
    requires OneApp(ring, app) && NoRepeats(ring)
    ensures forall v :: v in drop <==> LetGo(SetOf(ring), v, now)
    ensures NoRepeats(drop)
  {
    var s := Sort(ring, true);
    PermutedSame(s, ring);
    var seen: set<Bucket> := {};
    drop := [];
    for i := 0 to |s|
      invariant SeenBy(seen, s, i, now)
      invariant DroppedBy(drop, s, i, SetOf(ring), now)
    {
      var b := BucketOf(s[i], now);
      RetentionStep(ring, s, app, i, now, seen, drop);
      if b == Young {
        continue;
      }
      if b == TooOld || b in seen {
        drop := drop + [s[i]];
        continue;
      }
      seen := seen + {b};
    }
    forall v | LetGo(SetOf(ring), v, now) ensures v in drop {
      var k :| 0 <= k < |s| && s[k] == v;
    }
  }

  lemma {:induction false} RetentionStep(ring: seq<Version>, s: seq<Version>, app: string, i: nat, now: int, seen: set<Bucket>, drop: seq<Version>)
    requires OneApp(ring, app) && NoRepeats(s) && Ordered(s, true) && i < |s| && forall v :: v in s <==> v in ring
    requires SeenBy(seen, s, i, now) && DroppedBy(drop, s, i, SetOf(ring), now)
    ensures var b := BucketOf(s[i], now);
      if b == Young then SeenBy(seen, s, i + 1, now) && DroppedBy(drop, s, i + 1, SetOf(ring), now)
      else if b == TooOld || b in seen then SeenBy(seen, s, i + 1, now) && DroppedBy(drop + [s[i]], s, i + 1, SetOf(ring), now)
      else SeenBy(seen + {b}, s, i + 1, now) && DroppedBy(drop, s, i + 1, SetOf(ring), now)
  {
    var b := BucketOf(s[i], now);
    SeenStep(seen, s, i, now);
    if b != Young && b != TooOld { NewestFirstSeen(ring, s, app, i, now); }
    assert LetGo(SetOf(ring), s[i], now) <==> b == TooOld || (b != Young && b in seen) by {
      assert s[i] in SetOf(ring);
    }
    DropStep(drop, s, i, SetOf(ring), now);
  }

  lemma {:induction false} DropStep(drop: seq<Version>, s: seq<Version>, i: nat, ring: set<Version>, now: int)
    requires i < |s| && NoRepeats(s) && DroppedBy(drop, s, i, ring, now)
    ensures DroppedBy(if LetGo(ring, s[i], now) then drop + [s[i]] else drop, s, i + 1, ring, now)
  {
    assert s[..i + 1] == s[..i] + [s[i]];
    assert s[i] !in s[..i];
  }

  lemma {:induction false} SeenStep(seen: set<Bucket>, s: seq<Version>, i: nat, now: int)
    requires i < |s| && SeenBy(seen, s, i, now)
    ensures var b := BucketOf(s[i], now);
      if b == Young || b == TooOld || b in seen then SeenBy(seen, s, i + 1, now) else SeenBy(seen + {b}, s, i + 1, now)
  {
    forall b ensures Occurs(b, s, i + 1, now) <==> Occurs(b, s, i, now) || BucketOf(s[i], now) == b {
    }
  }

  // Newest first, an earlier member of the same bucket is a newer one, and the other way round.
  lemma {:induction false} NewestFirstSeen(ring: seq<Version>, s: seq<Version>, app: string, i: nat, now: int)
    requires OneApp(ring, app) && NoRepeats(s) && Ordered(s, true) && i < |s| && forall v :: v in s <==> v in ring
    requires BucketOf(s[i], now) != Young && BucketOf(s[i], now) != TooOld
    ensures Occurs(BucketOf(s[i], now), s, i, now) <==> LetGo(SetOf(ring), s[i], now)
  {
    if k :| 0 <= k < i && BucketOf(s[k], now) == BucketOf(s[i], now) {
      assert s[k] in ring && s[k].app == s[i].app && s[k] != s[i];
    }
    if LetGo(SetOf(ring), s[i], now) {
      var n :| n in SetOf(ring) && n.app == s[i].app && n.at > s[i].at && BucketOf(n, now) == BucketOf(s[i], now);
      var k :| 0 <= k < |s| && s[k] == n;
      assert k < i;
    }
  }

  // ---------------------------------------------------------------- runs of one app's ring

  // Everything ever taken, and what is left of it.
  datatype History = History(now: int, taken: set<Version>, ring: set<Version>)

  /** One tick over one app's ring: nothing, or a take, and then a pass that deletes what retention
    * lets go, or as much of it as the deletes manage. */
  ghost predicate Passed(ring: set<Version>, ring': set<Version>, app: string, now: int) {
    var with := ring + {Version(app, now)};
    || ring' == ring
    || (ring' <= with && forall v | v in with && v !in ring' :: LetGo(with, v, now))
  }

  ghost predicate Tick(h: History, h': History, app: string) {
    && h.now <= h'.now
    && Passed(h.ring, h'.ring, app, h'.now)
    && h'.taken == if h'.ring == h.ring then h.taken else h.taken + {Version(app, h'.now)}
  }

  ghost predicate Ticks(hs: seq<History>, app: string) {
    && hs != []
    && hs[0].taken == {} && hs[0].ring == {}
    && forall i | 0 < i < |hs| :: Tick(hs[i - 1], hs[i], app)
  }

  ghost predicate NewestOfDay(taken: set<Version>, v: Version) {
    v in taken && forall n | n in taken && n.app == v.app && SameDay(n.at, v.at) :: n.at <= v.at
  }

  ghost predicate NewestOfWeek(taken: set<Version>, v: Version) {
    v in taken && forall n | n in taken && n.app == v.app && SameWeek(n.at, v.at) :: n.at <= v.at
  }

  lemma {:induction false} TickKeepsNewest(h: History, h': History, app: string, v: Version)
    requires Tick(h, h', app) && h.ring <= h.taken && v.app == app && v in h'.taken
    requires v in h.taken ==> v in h.ring
    requires
      || (NewestOfDay(h'.taken, v) && h'.now - v.at < 604_800)
      || (NewestOfWeek(h'.taken, v) && h'.now - v.at < 2_592_000)
    ensures v in h'.ring
  {
    if h'.ring != h.ring {
      var ring := h.ring + {Version(app, h'.now)};
      forall n | n in ring && n.app == v.app && BucketOf(n, h'.now) == BucketOf(v, h'.now)
        ensures BucketOf(v, h'.now) == Young || n.at <= v.at
      {
        assert n in h'.taken;
        DaysAndWeeks(n.at, v.at);
      }
    }
  }

  lemma {:induction false} RingWasTaken(hs: seq<History>, app: string)
    requires Ticks(hs, app)
    ensures hs[|hs| - 1].ring <= hs[|hs| - 1].taken
    ensures forall v | v in hs[|hs| - 1].taken :: v.app == app
    ensures forall i | 0 <= i < |hs| :: hs[i].taken <= hs[|hs| - 1].taken && hs[i].now <= hs[|hs| - 1].now
    decreases |hs|
  {
    if |hs| > 1 {
      RingWasTaken(hs[..|hs| - 1], app);
      assert Tick(hs[|hs| - 2], hs[|hs| - 1], app);
    }
  }

  /** Over any run of takes and passes, with any deletes failing: the newest version ever taken in a
    * UTC day is there until it is seven days old, and the newest of an ISO week until thirty. */
  lemma {:induction false} NewestSurvives(hs: seq<History>, app: string, v: Version)
    requires Ticks(hs, app)
    requires
      var h := hs[|hs| - 1];
      || (NewestOfDay(h.taken, v) && h.now - v.at < 604_800)
      || (NewestOfWeek(h.taken, v) && h.now - v.at < 2_592_000)
    ensures v in hs[|hs| - 1].ring
    decreases |hs|
  {
    RingWasTaken(hs, app);
    if |hs| > 1 {
      var before := hs[..|hs| - 1];
      RingWasTaken(before, app);
      var h, h' := hs[|hs| - 2], hs[|hs| - 1];
      assert Tick(h, h', app) && before[|before| - 1] == h;
      if v in h.taken {
        assert h.taken <= h'.taken;
        NewestSurvives(before, app, v);
      }
      TickKeepsNewest(h, h', app, v);
    }
  }

  // ---- at most one a bucket

  ghost predicate OnePerBucket(ring: set<Version>, now: int) {
    && (forall v, n | v in OldDays(ring, now) && n in OldDays(ring, now) && v != n :: !SameDay(v.at, n.at))
    && (forall v, n | v in OldWeeks(ring, now) && n in OldWeeks(ring, now) && v != n :: !SameWeek(v.at, n.at))
  }

  ghost function OldDays(ring: set<Version>, now: int): set<Version> {
    set v | v in ring && 86_400 <= now - v.at < 604_800
  }

  ghost function OldWeeks(ring: set<Version>, now: int): set<Version> {
    set v | v in ring && 604_800 <= now - v.at < 2_592_000
  }

  /** A pass whose deletes all succeed leaves at most one of each day and each week, and nothing of
    * thirty days. */
  lemma {:induction false} PassLeavesOnePerBucket(ring: set<Version>, app: string, now: int)
    requires forall v | v in ring :: v.app == app
    ensures var left := set v | v in ring && !LetGo(ring, v, now);
            OnePerBucket(left, now) && forall v | v in left :: now - v.at < 2_592_000
  {
    var left := set v | v in ring && !LetGo(ring, v, now);
    forall v | v in left ensures now - v.at < 2_592_000 { LetGoIff(ring, v, now); }
    forall v, n | v in left && n in left && v != n
      ensures v in OldDays(left, now) && n in OldDays(left, now) ==> !SameDay(v.at, n.at)
      ensures v in OldWeeks(left, now) && n in OldWeeks(left, now) ==> !SameWeek(v.at, n.at)
    {
      assert v.at != n.at;
      if v.at < n.at { OlderGoes(ring, v, n, now); } else { OlderGoes(ring, n, v, now); }
    }
  }

  lemma {:induction false} OlderGoes(ring: set<Version>, v: Version, n: Version, now: int)
    requires v in ring && n in ring && v.app == n.app && v.at < n.at && !LetGo(ring, v, now)
    ensures 86_400 <= now - n.at && now - v.at < 604_800 ==> !SameDay(v.at, n.at)
    ensures 604_800 <= now - n.at && now - v.at < 2_592_000 ==> !SameWeek(v.at, n.at)
  {
    DaysAndWeeks(v.at, n.at);
  }

  lemma {:induction false} AtMost(vs: set<Version>, f: Version -> int, lo: int, k: nat)
    requires forall v | v in vs :: lo <= f(v) < lo + k
    requires forall v, n | v in vs && n in vs && v != n :: f(v) != f(n)
    ensures |vs| <= k
    decreases k
  {
    if k > 0 {
      var rest := set v | v in vs && f(v) != lo + k - 1;
      AtMost(rest, f, lo, k - 1);
      if rest != vs {
        var v :| v in vs && f(v) == lo + k - 1;
        assert vs == rest + {v};
      }
    } else {
      assert forall v: Version :: v !in vs;
    }
  }

  lemma {:induction false} SevenDays(at: int, now: int)
    requires DAY <= now - at < 7 * DAY
    ensures DayOf(now) - 7 <= DayOf(at) < DayOf(now)
  {
  }

  lemma {:induction false} FiveWeeks(at: int, now: int)
    requires 7 * DAY <= now - at < 30 * DAY
    ensures WeekOf(now) - 5 <= WeekOf(at) < WeekOf(now)
  {
    assert DayOf(now) - 30 <= DayOf(at) <= DayOf(now) - 7;
  }

  lemma {:induction false} AtMostSeven(left: set<Version>, now: int)
    requires OnePerBucket(left, now)
    ensures |OldDays(left, now)| <= 7
  {
    var aged := OldDays(left, now);
    forall v, n | v in aged && n in aged && v != n ensures DayOf(v.at) != DayOf(n.at) {
      DaysAndWeeks(v.at, n.at);
    }
    forall v | v in aged ensures DayOf(now) - 7 <= DayOf(v.at) < DayOf(now) { SevenDays(v.at, now); }
    AtMost(aged, (v: Version) => DayOf(v.at), DayOf(now) - 7, 7);
  }

  lemma {:induction false} AtMostFive(left: set<Version>, now: int)
    requires OnePerBucket(left, now)
    ensures |OldWeeks(left, now)| <= 5
  {
    var aged := OldWeeks(left, now);
    forall v, n | v in aged && n in aged && v != n ensures WeekOf(v.at) != WeekOf(n.at) {
      DaysAndWeeks(v.at, n.at);
    }
    forall v | v in aged ensures WeekOf(now) - 5 <= WeekOf(v.at) < WeekOf(now) { FiveWeeks(v.at, now); }
    AtMost(aged, (v: Version) => WeekOf(v.at), WeekOf(now) - 5, 5);
  }

  /** After such a pass at most seven and five of them are a day aged or older. */
  lemma {:induction false} AtMostTwelve(ring: set<Version>, app: string, now: int)
    requires forall v | v in ring :: v.app == app
    ensures var left := set v | v in ring && !LetGo(ring, v, now);
      && |OldDays(left, now)| <= 7 && |OldWeeks(left, now)| <= 5
      && (set v | v in left && now - v.at >= 86_400) == OldDays(left, now) + OldWeeks(left, now)
  {
    var left := set v | v in ring && !LetGo(ring, v, now);
    PassLeavesOnePerBucket(ring, app, now);
    AtMostSeven(left, now);
    AtMostFive(left, now);
  }
}
