/** Putting an app's data back from a restore point: data.restore and data.replace
  * (agent/guestagent/guestagent.go). */
module DataReplace {
  import opened Options

  // ---------------------------------------------------------------- paths to sweep

  type Path = seq<string>

  predicate HasTwoDots(s: string) {
    |s| >= 2 && ((s[0] == '.' && s[1] == '.') || HasTwoDots(s[1..]))
  }

  predicate Refused(rel: string) {
    rel == "" || HasTwoDots(rel) || rel[0] == '/'
  }

  // The components between slashes.
  function Split(rel: string): (parts: seq<string>)
    ensures |parts| >= 1
  {
    if rel == "" then [""]
    else
      var rest := Split(rel[1..]);
      if rel[0] == '/' then [""] + rest else [[rel[0]] + rest[0]] + rest[1..]
  }

  /** Where a relative path leads from a directory; None is somewhere outside it. */
  function Walk(at: Path, parts: seq<string>): Option<Path>
    decreases |parts|
  {
    if parts == [] then Some(at)
    else if parts[0] == "" || parts[0] == "." then Walk(at, parts[1..])
    else if parts[0] == ".." then
      if at == [] then None else Walk(at[..|at| - 1], parts[1..])
    else Walk(at + [parts[0]], parts[1..])
  }

  lemma {:induction false} NoDotsNoParent(rel: string)
    requires !HasTwoDots(rel)
    ensures forall p | p in Split(rel) :: p != ".."
    decreases |rel|
  {
    if rel != "" {
      NoDotsNoParent(rel[1..]);
      FirstIsPrefix(rel);
      var first := Split(rel)[0];
      assert rel[..|first|] == first;
      assert |first| == 2 ==> rel[0] == first[0] && rel[1] == first[1];
      assert first != "..";
      var rest := Split(rel[1..]);
      forall p | p in Split(rel) ensures p != ".." {
        assert p == first || p in rest;
      }
    }
  }

  lemma {:induction false} FirstIsPrefix(rel: string)
    ensures |Split(rel)[0]| <= |rel| && rel[..|Split(rel)[0]|] == Split(rel)[0]
    decreases |rel|
  {
    if rel != "" && rel[0] != '/' {
      FirstIsPrefix(rel[1..]);
      var first := Split(rel[1..])[0];
      assert rel[..1 + |first|] == [rel[0]] + rel[1..][..|first|];
    }
  }

  /** What is refused: no path at all, one from the root, and two dots in a row anywhere, a name of
    * a file or not. */
  lemma {:induction false} RefusedIff(rel: string)
    ensures Refused(rel) <==> rel == "" || rel[0] == '/' || exists i | 0 < i < |rel| :: rel[i - 1] == '.' && rel[i] == '.'
  {
    TwoDotsAre(rel);
  }

  lemma {:induction false} TwoDotsAre(s: string)
    ensures HasTwoDots(s) <==> exists i | 0 < i < |s| :: s[i - 1] == '.' && s[i] == '.'
    decreases |s|
  {
    if |s| >= 2 {
      var rest := s[1..];
      TwoDotsAre(rest);
      var one := 1;
      assert s[0] == '.' && s[1] == '.' ==> s[one - 1] == '.' && s[one] == '.';
      forall i | 0 < i < |rest| && rest[i - 1] == '.' && rest[i] == '.' ensures s[i] == '.' && s[i + 1] == '.' {}
      forall i | 1 < i < |s| && s[i - 1] == '.' && s[i] == '.' ensures rest[i - 2] == '.' && rest[i - 1] == '.' {}
    }
  }

  /** A path that is not refused leads somewhere inside the copy it is resolved against. */
  lemma {:induction false} AcceptedStaysInside(rel: string)
    requires !Refused(rel)
    ensures Walk([], Split(rel)).Some?
  {
    NoDotsNoParent(rel);
    WalkIsNames([], Split(rel));
  }

  // ---------------------------------------------------------------- the volume

  type Files = map<Path, int>

  // A directory of the volume: a subvolume or not, the quota group its bytes count under, its files,
  // and the members nested in it by a snapshot that found it in the way.
  datatype Area = Area(subvolume: bool, group: nat, files: Files, nested: map<string, Files>)

  datatype Cache = Cache(dirs: set<string>, bytes: nat)

  // quota is the group of the app's own data area (QuotaTree).
  datatype Volume = Volume(live: Option<Area>, staged: Option<Area>, point: Option<Area>, cache: Option<Cache>, quota: nat)

  function Inside(rel: string): Path {
    match Walk([], Split(rel)) case Some(p) => p case None => []
  }

  // A name of one file in a directory.
  predicate Plain(name: string) {
    name != "" && name != "." && name != ".." && '/' !in name
  }

  lemma {:induction false} NoSlashNoSplit(name: string)
    requires '/' !in name
    ensures Split(name) == [name]
    decreases |name|
  {
    if name != "" {
      NoSlashNoSplit(name[1..]);
      assert [name[0]] + name[1..] == name;
    }
  }

  lemma {:induction false} SplitJoins(a: string, b: string)
    ensures Split(a + "/" + b) == Split(a) + Split(b)
    decreases |a|
  {
    var s := a + "/" + b;
    if a == "" {
      assert s[1..] == b;
    } else {
      assert s[1..] == a[1..] + "/" + b;
      SplitJoins(a[1..], b);
      var rest := Split(a[1..]);
      if a[0] == '/' {
        assert [""] + (rest + Split(b)) == ([""] + rest) + Split(b);
      } else {
        assert (rest + Split(b))[1..] == rest[1..] + Split(b);
      }
    }
  }

  // The components that name something.
  function Names(parts: seq<string>): Path {
    if parts == [] then []
    else if parts[0] == "" || parts[0] == "." then Names(parts[1..])
    else [parts[0]] + Names(parts[1..])
  }

  lemma {:induction false} NamesJoin(parts: seq<string>, more: seq<string>)
    ensures Names(parts + more) == Names(parts) + Names(more)
    decreases |parts|
  {
    if parts == [] {
      assert parts + more == more;
    } else {
      assert (parts + more)[1..] == parts[1..] + more;
      NamesJoin(parts[1..], more);
    }
  }

  // A walk over components that never go up takes each name in turn.
  lemma {:induction false} WalkIsNames(at: Path, parts: seq<string>)
    requires forall p | p in parts :: p != ".."
    ensures Walk(at, parts) == Some(at + Names(parts))
    decreases |parts|
  {
    if parts != [] {
      assert parts[0] in parts && forall p | p in parts[1..] :: p in parts;
      if parts[0] == "" || parts[0] == "." {
        WalkIsNames(at, parts[1..]);
      } else {
        WalkIsNames(at + [parts[0]], parts[1..]);
        assert (at + [parts[0]]) + Names(parts[1..]) == at + Names(parts);
      }
    } else {
      assert at + [] == at;
    }
  }

  lemma {:induction false} InsideIsNames(rel: string)
    requires !HasTwoDots(rel)
    ensures Inside(rel) == Names(Split(rel))
  {
    NoDotsNoParent(rel);
    WalkIsNames([], Split(rel));
    assert [] + Names(Split(rel)) == Names(Split(rel));
  }

  lemma {:induction false} DotsPart(a: string, b: string)
    requires HasTwoDots(a + "/" + b)
    ensures HasTwoDots(a) || HasTwoDots(b)
    decreases |a|
  {
    var s := a + "/" + b;
    if a == "" {
      assert s[1..] == b;
    } else {
      assert s[1..] == a[1..] + "/" + b;
      if HasTwoDots(s[1..]) { DotsPart(a[1..], b); }
    }
  }

  /** Where a sweep path leads: a plain name to the file of that name; a slash joins two ways; and a
    * dot, or a slash at the end, leads no further. */
  lemma {:induction false} NameLeads(name: string)
    requires Plain(name) && !HasTwoDots(name)
    ensures Inside(name) == [name]
  {
    NoSlashNoSplit(name);
    InsideIsNames(name);
    assert [name][1..] == [];
  }

  lemma {:induction false} SlashJoins(a: string, b: string)
    requires !Refused(a) && (b == "" || !Refused(b))
    ensures !Refused(a + "/" + b) && Inside(a + "/" + b) == Inside(a) + Inside(b)
    ensures Inside("") == [] && Inside(".") == []
  {
    if HasTwoDots(a + "/" + b) { DotsPart(a, b); }
    SplitJoins(a, b);
    NamesJoin(Split(a), Split(b));
    InsideIsNames(a);
    InsideIsNames(b);
    InsideIsNames(a + "/" + b);
    NoSlashNoSplit("");
    NoSlashNoSplit(".");
    assert [""][1..] == [] && ["."][1..] == [];
  }

  predicate AllPlain(p: Path) {
    p != [] && forall name | name in p :: Plain(name)
  }

  // The path of a file, as it is written.
  function Join(p: Path): string
    requires p != []
  {
    if |p| == 1 then p[0] else Join(p[..|p| - 1]) + "/" + p[|p| - 1]
  }

  lemma {:induction false} DotsStay(a: string, b: string)
    ensures HasTwoDots(a) || HasTwoDots(b) ==> HasTwoDots(a + b)
    decreases |a|
  {
    if a == "" {
      assert a + b == b;
    } else {
      assert (a + b)[1..] == a[1..] + b;
      DotsStay(a[1..], b);
    }
  }

  /** The path of a file, if it is not refused, leads to that file. */
  lemma {:induction false} PathLeads(p: Path)
    requires AllPlain(p) && !HasTwoDots(Join(p))
    ensures Inside(Join(p)) == p && !Refused(Join(p))
    decreases |p|
  {
    var n := |p| - 1;
    assert p[n] in p && p == p[..n] + [p[n]];
    if n == 0 {
      NameLeads(p[0]);
      assert p[0][0] in p[0];
    } else {
      var before := p[..n];
      assert forall name | name in before :: name in p;
      DotsStay(Join(before), "/" + p[n]);
      DotsStay(Join(before) + "/", p[n]);
      assert Join(before) + ("/" + p[n]) == Join(p) == (Join(before) + "/") + p[n];
      PathLeads(before);
      NameLeads(p[n]);
      assert p[n][0] in p[n];
      SlashJoins(Join(before), p[n]);
    }
  }

  /** What a sweep leaves: no file whose path is on the list, every file no path on the list leads
    * to, as it was, and no other. */
  ghost predicate SweptAway(files: Files, swept: Files, sweep: seq<string>) {
    && (forall p | AllPlain(p) && Join(p) in sweep :: p !in swept)
    && (forall p | p in files && (forall rel | rel in sweep :: Inside(rel) != p) :: p in swept)
    && (forall p | p in swept :: p in files && swept[p] == files[p])
  }

  lemma {:induction false} SweptIsAway(files: Files, sweep: seq<string>)
    requires forall rel | rel in sweep :: !Refused(rel)
    ensures SweptAway(files, Swept(files, sweep), sweep)
  {
    SweptIsWithout(files, sweep);
    forall p | AllPlain(p) && Join(p) in sweep ensures p !in Swept(files, sweep) {
      PathLeads(p);
    }
  }

  function Swept(files: Files, sweep: seq<string>): Files
    decreases |sweep|
  {
    if sweep == [] then files else Swept(files, sweep[..|sweep| - 1]) - {Inside(sweep[|sweep| - 1])}
  }

  /** Everything of the member but what was to be swept, and nothing more. */
  lemma {:induction false} SweptIsWithout(files: Files, sweep: seq<string>)
    ensures forall p :: p in Swept(files, sweep) <==> p in files && forall rel | rel in sweep :: Inside(rel) != p
    ensures forall p | p in Swept(files, sweep) :: Swept(files, sweep)[p] == files[p]
    decreases |sweep|
  {
    if sweep != [] {
      var n := |sweep| - 1;
      SweptIsWithout(files, sweep[..n]);
      assert sweep == sweep[..n] + [sweep[n]];
    }
  }

  function Whole(point: Area, quota: nat, sweep: seq<string>): Area {
    Area(true, quota, Swept(point.files, sweep), map[])
  }

  // What becomes of something at the staging name: the member lands in it, and the sweep is its own.
  function Overlaid(leftover: Area, point: Area, member: string, sweep: seq<string>): Area {
    leftover.(files := Swept(leftover.files, sweep), nested := leftover.nested[member := point.files])
  }

  lemma {:induction false} OverlaidIsNotWhole(leftover: Area, point: Area, quota: nat, member: string, sweep: seq<string>)
    ensures Overlaid(leftover, point, member, sweep) != Whole(point, quota, sweep)
  {
    assert member in Overlaid(leftover, point, member, sweep).nested;
  }

  // A snapshot onto a name that is there goes into it, under the member's name.
  function Snapshotted(w: Volume, group: nat, member: string): Volume
    requires w.point.Some?
  {
    match w.staged
    case None => w.(staged := Some(Area(true, group, w.point.value.files, map[])))
    case Some(a) => w.(staged := Some(a.(nested := a.nested[member := w.point.value.files])))
  }

  /** What one restore has done, wherever it stopped: the live data is the original, or the whole of
    * what is to replace it is there, live or about to be. The restore point is never touched. */
  predicate NothingLost(w0: Volume, w: Volume, whole: Area) {
    && w.point == w0.point
    && (w.live != w0.live ==> w.live == Some(whole) || (w.live == None && w.staged == Some(whole)))
  }

  function Emptied(c: Option<Cache>): Option<Cache> {
    match c case None => None case Some(cache) => Some(Cache(cache.dirs, 0))
  }

  // A directory, or whatever else is not a subvolume.
  predicate IsDirectory(a: Option<Area>) {
    a.Some? && !a.value.subvolume
  }

  predicate IsSubvolume(a: Option<Area>) {
    a.Some? && a.value.subvolume
  }

  // What a restore needs of its volume and its request to succeed.
  predicate Ready(w: Volume, member: string, sweep: seq<string>) {
    && IsSubvolume(w.point) && IsSubvolume(w.live)
    && (forall rel | rel in sweep :: !Refused(rel))
    && (IsDirectory(w.staged) ==> member !in w.staged.value.nested)
  }

  class Guest {
    var w: Volume
    var crashed: bool
    var faulted: bool   // a command that could work failed, or everything stopped
    var unanswered: nat // the questions that were not answered
    var outside: bool   // something outside the staged copy was unlinked

    constructor (w: Volume)
      ensures this.w == w && !crashed && !faulted && unanswered == 0 && !outside
    {
      this.w, crashed, faulted, unanswered, outside := w, false, false, 0, false;
    }

    /** One command: it takes effect, fails, or everything stops before it. */
    method Command(able: bool, next: Volume) returns (ok: bool)
      modifies `w, `crashed, `faulted
      ensures old(crashed) ==> crashed
      ensures old(faulted) ==> faulted
      ensures ok ==> able && !crashed && faulted == old(faulted)
      ensures !faulted ==> (ok <==> able)
      ensures w == if ok then next else old(w)
    {
      var fate: bool := *;
      var crash: bool := *;
      crashed := crashed || crash;
      faulted := faulted || !fate || crashed;
      ok := able && fate && !crashed;
      if ok { w := next; }
    }

    // `btrfs subvolume show`: a yes is the truth, and a no is too if the question was answered.
    method Show(a: Option<Area>) returns (yes: bool)
      modifies `unanswered
      ensures yes ==> IsSubvolume(a)
      ensures !yes && IsSubvolume(a) ==> unanswered == old(unanswered) + 1
      ensures unanswered >= old(unanswered)
    {
      var read: bool := *;
      if !read { unanswered := unanswered + 1; }
      yes := read && IsSubvolume(a);
    }

    /** clearCache. missed is a cache area that did not answer. */
    method ClearCache() returns (ok: bool, ghost missed: bool)
      modifies `w, `crashed, `faulted, `unanswered
      ensures old(crashed) ==> crashed
      ensures old(faulted) ==> faulted
      ensures unanswered >= old(unanswered)
      ensures ok ==> !crashed && faulted == old(faulted)
      ensures !faulted && !old(crashed) ==> ok
      ensures w == old(w).(cache := w.cache)
      ensures w.cache != old(w).cache ==> w.cache.None? || w.cache.value.bytes == 0
      ensures ok ==> w.cache == if missed then old(w).cache else Emptied(old(w).cache)
      ensures missed ==> w == old(w) && old(w).cache.Some? && unanswered > old(unanswered)
    {
      var shown: bool := *;
      if !shown { unanswered := unanswered + 1; }
      missed := !shown && w.cache.Some?;
      if !shown || w.cache.None? { return !crashed, missed; }
      var dirs := w.cache.value.dirs;
      ok := Command(true, w); // ls
      if !ok { return; }
      ok := Command(true, w.(cache := None));
      if !ok { return; }
      ok := Command(w.cache.None?, w.(cache := Some(Cache({}, 0))));
      if !ok { return; }
      ghost var w0 := w;
      var todo := dirs;
      assert dirs - todo == {};
      while todo != {}
        invariant todo <= dirs && !crashed
        invariant faulted == old(faulted) && unanswered == old(unanswered)
        invariant w == w0.(cache := Some(Cache(dirs - todo, 0)))
        decreases todo
      {
        var d :| d in todo;
        todo := todo - {d};
        ghost var made := w.cache.value.dirs;
        ok := Command(true, w.(cache := Some(Cache(w.cache.value.dirs + {d}, 0))));
        if !ok { return; }
        assert made + {d} == dirs - todo;
      }
      assert dirs - todo == dirs;
    }

    // rm -f in the staged copy.
    method Unlink(rel: string) returns (ok: bool)
      requires w.staged.Some?
      modifies `w, `crashed, `faulted, `outside
      ensures old(crashed) ==> crashed
      ensures old(faulted) ==> faulted
      ensures ok ==> !crashed && faulted == old(faulted)
      ensures !faulted ==> ok
      ensures w == (if ok && Walk([], Split(rel)).Some?
                    then old(w).(staged := Some(old(w).staged.value.(files := old(w).staged.value.files - {Inside(rel)})))
                    else old(w))
      ensures outside == (old(outside) || (ok && Walk([], Split(rel)).None?))
    {
      match Walk([], Split(rel)) {
        case Some(p) =>
          ok := Command(true, w.(staged := Some(w.staged.value.(files := w.staged.value.files - {p}))));
        case None =>
          ok := Command(true, w);
          outside := outside || ok;
      }
    }

    method Sweep(sweep: seq<string>) returns (ok: bool)
      requires w.staged.Some?
      modifies `w, `crashed, `faulted, `outside
      ensures old(crashed) ==> crashed
      ensures old(faulted) ==> faulted
      ensures ok ==> !crashed && faulted == old(faulted) && forall rel | rel in sweep :: !Refused(rel)
      ensures !faulted && !old(crashed) && (forall rel | rel in sweep :: !Refused(rel)) ==> ok
      ensures outside == old(outside)
      ensures w == old(w).(staged := w.staged) && w.staged.Some?
      ensures w.staged.value == old(w).staged.value.(files := w.staged.value.files)
      ensures ok ==> w.staged.value.files == Swept(old(w).staged.value.files, sweep)
      ensures ok ==> SweptAway(old(w).staged.value.files, w.staged.value.files, sweep)
    {
      ghost var w0 := w;
      ok := !crashed;
      if !ok { return; }
      for i := 0 to |sweep|
        invariant !crashed && ok && faulted == old(faulted)
        invariant outside == old(outside)
        invariant forall rel | rel in sweep[..i] :: !Refused(rel)
        invariant w == w0.(staged := Some(w0.staged.value.(files := Swept(w0.staged.value.files, sweep[..i]))))
      {
        assert sweep[..i + 1] == sweep[..i] + [sweep[i]];
        if Refused(sweep[i]) { return false; }
        AcceptedStaysInside(sweep[i]);
        ok := Unlink(sweep[i]);
        if !ok { return; }
      }
      assert sweep[..|sweep|] == sweep;
      SweptIsAway(w0.staged.value.files, sweep);
    }

    // The staging name cleared, if what is there answers as a subvolume.
    method ClearStaged() returns (ok: bool)
      modifies `w, `crashed, `faulted, `unanswered
      ensures old(crashed) ==> crashed
      ensures old(faulted) ==> faulted
      ensures unanswered >= old(unanswered)
      ensures old(crashed) || ok ==> (ok <==> !crashed)
      ensures ok ==> faulted == old(faulted)
      ensures !faulted && !old(crashed) ==> ok
      ensures w == old(w) || w == old(w).(staged := None)
      ensures ok && IsDirectory(old(w).staged) ==> w == old(w)
      ensures ok && IsSubvolume(old(w).staged) && w.staged.Some? ==> unanswered > old(unanswered)
    {
      ok := !crashed;
      var yes := Show(w.staged);
      if ok && yes { ok := Command(true, w.(staged := None)); }
    }

    // The group of the live area, made if it is not there; none when a command failed.
    method AreaGroup() returns (ok: bool, group: nat)
      modifies `w, `crashed, `faulted
      ensures old(crashed) ==> crashed
      ensures old(faulted) ==> faulted
      ensures ok ==> !crashed && faulted == old(faulted) && group == w.quota
      ensures !faulted ==> ok
      ensures w == old(w)
    {
      ok := Command(true, w);
      group := if ok then w.quota else 0;
    }

    /** data.replace; data.restore is it with nothing to sweep. inTheWay is something at the staging
      * name that is not a subvolume, or did not answer as one; missed is a cache area that did not
      * answer. */
    method Replace(member: string, sweep: seq<string>) returns (ok: bool, ghost inTheWay: bool, ghost missed: bool)
      requires !crashed && !faulted
      modifies this
      ensures ok ==> !crashed && !faulted
      ensures outside == old(outside) && unanswered >= old(unanswered)
      ensures inTheWay ==> old(w).point.Some? && old(w).staged.Some?
      ensures inTheWay ==> IsDirectory(old(w).staged) || unanswered > old(unanswered)
      ensures missed ==> old(w).cache.Some? && unanswered > old(unanswered)
      ensures old(w).point.None? ==> w == old(w) && !ok
      ensures old(w).point.Some? ==>
                NothingLost(old(w), w, if inTheWay then Overlaid(old(w).staged.value, old(w).point.value, member, sweep)
                                       else Whole(old(w).point.value, old(w).quota, sweep))
      ensures ok ==>
        && w.staged.None?
        && w.live == Some(if inTheWay then Overlaid(old(w).staged.value, old(w).point.value, member, sweep)
                          else Whole(old(w).point.value, old(w).quota, sweep))
        && (w.live == Some(Whole(old(w).point.value, old(w).quota, sweep)) <==> !inTheWay)
      ensures ok && !inTheWay ==> IsSubvolume(w.live) && w.live.value.group == w.quota && SweptAway(old(w).point.value.files, w.live.value.files, sweep)
      ensures ok && IsDirectory(old(w).staged) ==>
                w.live == Some(Overlaid(old(w).staged.value, old(w).point.value, member, sweep))
      ensures w.live != old(w).live ==> w.cache == if missed then old(w).cache else Emptied(old(w).cache)
      ensures !faulted && unanswered == old(unanswered) ==> (ok <==> Ready(old(w), member, sweep))
    {
      ok, inTheWay, missed := false, false, false;
      var yes := Show(w.point);
      if !yes { return; }
      ok, missed := ClearCache();
      if !ok { return; }
      ok := ClearStaged();
      if !ok { return; }
      inTheWay := w.staged.Some?;
      var group;
      ok, group := AreaGroup();
      if !ok { return; }
      ok := Command(w.staged.Some? ==> member !in w.staged.value.nested, Snapshotted(w, group, member));
      if !ok { return; }
      if inTheWay { OverlaidIsNotWhole(old(w).staged.value, w.point.value, w.quota, member, sweep); }
      ok := Sweep(sweep);
      if !ok { return; }
      ok := Command(IsSubvolume(w.live), w.(live := None));
      if !ok { return; }
      ok := Command(true, w.(live := w.staged, staged := None));
    }

    /** A directory left at the staging name: a restore in which nothing fails reports success, and
      * the app is left on that directory with the member nested in it. Neither the original nor the
      * swept member is live. */
    method LeftoverDirectoryGoesLive(member: string, sweep: seq<string>) returns (ok: bool)
      requires !crashed && !faulted && Ready(w, member, sweep) && IsDirectory(w.staged)
      modifies this
      ensures faulted || unanswered > old(unanswered) ||
        (ok && w.live == Some(Overlaid(old(w).staged.value, old(w).point.value, member, sweep))
            && w.live != old(w).live && w.live != Some(Whole(old(w).point.value, old(w).quota, sweep)))
    {
      ghost var inTheWay, missed;
      OverlaidIsNotWhole(w.staged.value, w.point.value, w.quota, member, sweep);
      ok, inTheWay, missed := Replace(member, sweep);
    }
  }
}
