/** Files' view: the mount table brought to what is wanted, and the kernel's escapes undone
  * (agent/guestagent/filesview.go). */
module FilesView {
  import opened Options

  // ---------------------------------------------------------------- the mount table

  // What a mount shows is a directory's inode, not its name.
  datatype Mount = Mount(inode: int, ro: bool)

  datatype Bind = Bind(src: string, ro: bool)

  // The mounts stacked on each folder of the view, the top one last. No mount is inside another.
  type Table = map<string, seq<Mount>>

  function Stack(t: Table, p: string): seq<Mount> {
    if p in t then t[p] else []
  }

  function Push(t: Table, p: string, m: Mount): Table {
    t[p := Stack(t, p) + [m]]
  }

  // What umount -l takes away is the top.
  function Pop(t: Table, p: string): Table
    requires Stack(t, p) != []
  {
    t[p := Stack(t, p)[..|Stack(t, p)| - 1]]
  }

  predicate Shows(sources: map<string, int>, b: Bind, m: Mount) {
    b.src in sources && m.inode == sources[b.src]
  }

  /** One folder as it should be: one mount, showing the source there is now; nothing where there is
    * no source or nothing is wanted. */
  predicate SettledAt(t: Table, sources: map<string, int>, want: map<string, Bind>, p: string) {
    if p in want && want[p].src in sources
    then |Stack(t, p)| == 1 && Shows(sources, want[p], Stack(t, p)[0])
    else Stack(t, p) == []
  }

  ghost predicate Settled(t: Table, sources: map<string, int>, want: map<string, Bind>) {
    forall p :: SettledAt(t, sources, want, p)
  }

  // Every folder but one is as it was.
  ghost predicate OnlyAt(t: Table, t': Table, p: string) {
    forall q | q != p :: Stack(t', q) == Stack(t, q)
  }

  // How often a folder is listed.
  function Listed(have: seq<string>, p: string): nat {
    multiset(have)[p]
  }

  // One folder in the first pass: n lines of it seen, one of them kept if it is wanted.
  ghost predicate ClearedAt(t0: Table, t: Table, p: string, n: nat, kept: bool) {
    var gone := if kept then n - 1 else n;
    && 0 <= gone <= |Stack(t0, p)|
    && Stack(t, p) == Stack(t0, p)[..|Stack(t0, p)| - gone]
  }

  /** Where the first pass stands after i lines of the table: of a wanted folder one mount is kept,
    * the lowest, and of any other none. */
  ghost predicate Cleared(t0: Table, t: Table, have: seq<string>, i: nat, want: map<string, Bind>, mounted: set<string>, errs: set<string>)
    requires i <= |have|
  {
    && (forall p :: p in mounted <==> p in want && Listed(have[..i], p) > 0)
    && (forall p | p !in errs :: ClearedAt(t0, t, p, Listed(have[..i], p), p in mounted))
  }

  // Nothing is stacked, and only wanted folders are mounted.
  ghost predicate OneEach(t: Table, want: map<string, Bind>) {
    forall p :: |Stack(t, p)| <= if p in want then 1 else 0
  }

  lemma {:induction false} PopAt(t0: Table, t: Table, p: string, n: nat, kept: bool)
    requires ClearedAt(t0, t, p, n, kept) && n < |Stack(t0, p)| && Stack(t, p) != []
    ensures ClearedAt(t0, Pop(t, p), p, n + 1, kept)
    ensures OnlyAt(t, Pop(t, p), p)
  {
  }

  lemma {:induction false} ClearStep(t0: Table, t: Table, have: seq<string>, i: nat, want: map<string, Bind>, mounted: set<string>, errs: set<string>)
    requires i < |have| && forall p :: Listed(have, p) == |Stack(t0, p)|
    requires Cleared(t0, t, have, i, want, mounted, errs)
    ensures var p := have[i];
      if p in want && p !in mounted then
        Cleared(t0, t, have, i + 1, want, mounted + {p}, errs)
      else
        && Cleared(t0, t, have, i + 1, want, mounted, errs + {p})
        && (Stack(t, p) != [] ==> Cleared(t0, Pop(t, p), have, i + 1, want, mounted, errs))
        && !OneEach(t0, want)
    ensures var p := have[i]; |Stack(t0, p)| == 1 && p in want ==> p !in mounted
  {
    ListedStep(have, i);
    var p := have[i];
    forall q | q !in errs
      ensures ClearedAt(t0, t, q, Listed(have[..i], q), q in mounted)
    {
    }
    if !(p in want && p !in mounted) {
      assert |Stack(t0, p)| > if p in want then 1 else 0;
      if Stack(t, p) != [] { ClearPop(t0, t, have, i, want, mounted, errs); }
    }
  }

  lemma {:induction false} ClearPop(t0: Table, t: Table, have: seq<string>, i: nat, want: map<string, Bind>, mounted: set<string>, errs: set<string>)
    requires i < |have| && forall p :: Listed(have, p) == |Stack(t0, p)|
    requires Cleared(t0, t, have, i, want, mounted, errs)
    requires Stack(t, have[i]) != [] && (have[i] in want ==> have[i] in mounted)
    ensures Cleared(t0, Pop(t, have[i]), have, i + 1, want, mounted, errs)
  {
    ListedStep(have, i);
    var p := have[i];
    forall q | q !in errs
      ensures ClearedAt(t0, Pop(t, p), q, Listed(have[..i + 1], q), q in mounted)
    {
      assert ClearedAt(t0, t, q, Listed(have[..i], q), q in mounted);
      if q == p { PopAt(t0, t, p, Listed(have[..i], p), p in mounted); }
    }
  }

  lemma {:induction false} AllCleared(t0: Table, t: Table, have: seq<string>, want: map<string, Bind>, mounted: set<string>, errs: set<string>)
    requires forall p :: Listed(have, p) == |Stack(t0, p)|
    requires Cleared(t0, t, have, |have|, want, mounted, errs)
    ensures forall p | p !in errs :: Stack(t, p) == if p in want && Stack(t0, p) != [] then [Stack(t0, p)[0]] else []
    ensures forall p :: p in mounted <==> p in want && Stack(t0, p) != []
  {
    assert have[..|have|] == have;
    forall p | p !in errs
      ensures Stack(t, p) == if p in want && Stack(t0, p) != [] then [Stack(t0, p)[0]] else []
    {
      assert ClearedAt(t0, t, p, Listed(have, p), p in mounted);
    }
  }

  // A bind that shows its source already.
  predicate Right(t: Table, sources: map<string, int>, want: map<string, Bind>, p: string) {
    p in want && |Stack(t, p)| == 1 && Shows(sources, want[p], Stack(t, p)[0])
  }

  // A mount is the one that was kept, or is read-only exactly where that was asked for.
  predicate KeptOrAsked(t0: Table, t: Table, want: map<string, Bind>, p: string) {
    p in want && Stack(t, p) != [] ==>
      Stack(t, p)[0].ro == want[p].ro || (Stack(t0, p) != [] && Stack(t, p)[0] == Stack(t0, p)[0])
  }

  // One folder in the second pass.
  ghost predicate BoundAt(t0: Table, t: Table, sources: map<string, int>, want: map<string, Bind>, p: string,
                          todo: bool, kept: bool, wrong: bool, unseen: bool, misread: bool) {
    if p !in want then
      !wrong ==> Stack(t, p) == []
    else if todo then
      && (kept <==> Stack(t0, p) != [])
      && (!wrong ==> Stack(t, p) == if kept then [Stack(t0, p)[0]] else [])
      && (Right(t0, sources, want, p) ==> !wrong)
    else
      && (!wrong && !unseen ==> SettledAt(t, sources, want, p) && KeptOrAsked(t0, t, want, p))
      && (Right(t0, sources, want, p) && !misread ==> Stack(t, p) == Stack(t0, p))
  }

  // What binding one folder does to its stack.
  ghost predicate Rebound(s: seq<Mount>, s': seq<Mount>, sources: map<string, int>, b: Bind,
                          mounted: bool, err: bool, unseen: bool, misread: bool) {
    && (|s| == (if mounted then 1 else 0) && !err && !unseen ==>
          if b.src in sources then
            |s'| == 1 && Shows(sources, b, s'[0]) && (s' == s || s'[0].ro == b.ro)
          else s' == [])
    && (mounted && !misread && |s| == 1 && Shows(sources, b, s[0]) ==> s' == s && !err && !unseen)
    && (!mounted && b.src !in sources ==> s' == s && !err)
  }

  lemma {:induction false} BindStep(t0: Table, t: Table, t': Table, sources: map<string, int>, want: map<string, Bind>, p: string,
                                    kept: bool, wrong: bool, err: bool, unseen: bool, misread: bool)
    requires p in want
    requires BoundAt(t0, t, sources, want, p, true, kept, wrong, false, false)
    requires Rebound(Stack(t, p), Stack(t', p), sources, want[p], kept, err, unseen, misread)
    ensures BoundAt(t0, t', sources, want, p, false, kept, wrong || err, unseen, misread)
  {
  }

  // The second pass, with these folders still to do.
  ghost predicate Binding(t0: Table, t: Table, sources: map<string, int>, want: map<string, Bind>, todo: set<string>,
                          mounted: set<string>, wrong: set<string>, unseen: set<string>, misread: set<string>) {
    && unseen !! todo && misread !! todo
    && forall p :: BoundAt(t0, t, sources, want, p, p in todo, p in mounted, p in wrong, p in unseen, p in misread)
  }

  function With(s: set<string>, p: string, yes: bool): set<string> {
    if yes then s + {p} else s
  }

  lemma {:induction false} OneMoreBound(t0: Table, t: Table, t': Table, sources: map<string, int>, want: map<string, Bind>, todo: set<string>, p: string,
                                        mounted: set<string>, wrong: set<string>, unseen: set<string>, misread: set<string>,
                                        err: bool, no: bool, bad: bool)
    requires p in todo && p in want
    requires Binding(t0, t, sources, want, todo, mounted, wrong, unseen, misread)
    requires OnlyAt(t, t', p)
    requires Rebound(Stack(t, p), Stack(t', p), sources, want[p], p in mounted, err, no, bad)
    ensures Binding(t0, t', sources, want, todo - {p}, mounted, With(wrong, p, err), With(unseen, p, no), With(misread, p, bad))
  {
    assert BoundAt(t0, t, sources, want, p, true, p in mounted, p in wrong, false, false);
    BindStep(t0, t, t', sources, want, p, p in mounted, p in wrong, err, no, bad);
    forall q | q != p
      ensures BoundAt(t0, t', sources, want, q, q in todo - {p}, q in mounted, q in With(wrong, p, err), q in With(unseen, p, no), q in With(misread, p, bad))
    {
      assert BoundAt(t0, t, sources, want, q, q in todo, q in mounted, q in wrong, q in unseen, q in misread);
    }
  }

  class View {
    var table: Table
    const sources: map<string, int> // the directories there are, and their inodes
    var commands: nat               // the mounts and umounts issued
    var faults: nat                 // the commands that failed
    var misreads: nat               // the questions that were not answered

    constructor (table: Table, sources: map<string, int>)
      ensures this.table == table && this.sources == sources && commands == 0 && faults == 0 && misreads == 0
    {
      this.table, this.sources, commands, faults, misreads := table, sources, 0, 0, 0;
    }

    method Umount(p: string) returns (ok: bool)
      modifies `table, `commands, `faults
      ensures ok ==> Stack(old(table), p) != [] && table == Pop(old(table), p)
      ensures !ok ==> table == old(table)
      ensures faults == old(faults) + (if ok then 0 else 1)
      ensures commands == old(commands) + 1
    {
      ok := *;
      ok := ok && Stack(table, p) != [];
      if ok { table := Pop(table, p); } else { faults := faults + 1; }
      commands := commands + 1;
    }

    method BindMount(p: string, b: Bind) returns (ok: bool)
      modifies `table, `commands, `faults
      ensures ok ==> b.src in sources && table == Push(old(table), p, Mount(sources[b.src], b.ro))
      ensures !ok ==> table == old(table)
      ensures faults == old(faults) + (if ok then 0 else 1)
      ensures commands == old(commands) + 1
    {
      ok := *;
      ok := ok && b.src in sources;
      if ok { table := Push(table, p, Mount(sources[b.src], b.ro)); } else { faults := faults + 1; }
      commands := commands + 1;
    }

    method MakeDir() returns (ok: bool)
      modifies `faults
      ensures faults == old(faults) + (if ok then 0 else 1)
    {
      ok := *;
      if !ok { faults := faults + 1; }
    }

    // Unreadable is answered no; a yes is the truth.
    method Same(p: string, b: Bind) returns (same: bool, ghost misread: bool)
      modifies `misreads
      ensures misreads == old(misreads) + (if misread then 1 else 0)
      ensures same ==> Stack(table, p) != [] && Shows(sources, b, Stack(table, p)[|Stack(table, p)| - 1])
      ensures !same && !misread ==> Stack(table, p) == [] || !Shows(sources, b, Stack(table, p)[|Stack(table, p)| - 1])
    {
      var read: bool := *;
      misread := !read;
      if !read { misreads := misreads + 1; }
      var s := Stack(table, p);
      same := read && s != [] && Shows(sources, b, s[|s| - 1]);
    }

    method IsDir(src: string) returns (yes: bool, ghost misread: bool)
      modifies `misreads
      ensures misreads == old(misreads) + (if misread then 1 else 0)
      ensures yes ==> src in sources
      ensures !yes && !misread ==> src !in sources
      ensures yes ==> !misread
    {
      var read: bool := *;
      misread := !read;
      if !read { misreads := misreads + 1; }
      yes := read && src in sources;
    }

    // A line for every mount, in whatever order.
    method ReadTable() returns (have: Option<seq<string>>)
      modifies `faults
      ensures have.None? ==> faults > old(faults)
      ensures have.Some? ==> faults == old(faults) && forall p :: Listed(have.value, p) == |Stack(table, p)|
    {
      var read: bool := *;
      if !read { faults := faults + 1; return None; }
      var lines: seq<string> := [];
      var todo := table.Keys;
      while todo != {}
        invariant todo <= table.Keys
        invariant forall p :: Listed(lines, p) == if p in todo then 0 else |Stack(table, p)|
        decreases todo
      {
        var p :| p in todo;
        todo := todo - {p};
        ghost var before := lines;
        for k := 0 to |table[p]|
          invariant forall q :: Listed(lines, q) == Listed(before, q) + if q == p then k else 0
        {
          lines := lines + [p];
        }
      }
      return Some(lines);
    }

    // ---- the two passes

    // One line of the table.
    method ClearOne(ghost t0: Table, have: seq<string>, i: nat, want: map<string, Bind>, was: set<string>, wrong: set<string>)
      returns (mounted: set<string>, errs: set<string>)
      requires i < |have| && forall p :: Listed(have, p) == |Stack(t0, p)|
      requires Cleared(t0, table, have, i, want, was, wrong)
      modifies `table, `commands, `faults
      ensures Cleared(t0, table, have, i + 1, want, mounted, errs)
      ensures |errs| - |wrong| <= faults - old(faults)
      ensures OneEach(t0, want) ==>
                table == old(table) && commands == old(commands) && errs == wrong && faults == old(faults)
      ensures forall p | p in errs && p !in wrong :: !(|Stack(t0, p)| == 1 && p in want)
    {
      var p := have[i];
      mounted, errs := was, wrong;
      ClearStep(t0, table, have, i, want, mounted, errs);
      if p in want && p !in mounted {
        mounted := mounted + {p};
        return;
      }
      var ok := Umount(p);
      if !ok {
        WithOne(errs, p, true);
        errs := errs + {p};
      }
    }

    method Clear(have: seq<string>, want: map<string, Bind>) returns (mounted: set<string>, errs: set<string>)
      requires forall p :: Listed(have, p) == |Stack(table, p)|
      modifies `table, `commands, `faults
      ensures forall p | p !in errs ::
        Stack(table, p) == if p in want && Stack(old(table), p) != [] then [Stack(old(table), p)[0]] else []
      ensures forall p :: p in mounted <==> p in want && Stack(old(table), p) != []
      ensures |errs| <= faults - old(faults)
      ensures OneEach(old(table), want) ==>
                table == old(table) && commands == old(commands) && errs == {} && faults == old(faults)
      ensures forall p | |Stack(old(table), p)| == 1 && p in want :: p !in errs
    {
      mounted, errs := {}, {};
      ghost var t0 := table;
      for i := 0 to |have|
        invariant Cleared(t0, table, have, i, want, mounted, errs)
        invariant |errs| <= faults - old(faults)
        invariant OneEach(t0, want) ==>
                    table == t0 && commands == old(commands) && errs == {} && faults == old(faults)
        invariant forall p | |Stack(t0, p)| == 1 && p in want :: p !in errs
      {
        mounted, errs := ClearOne(t0, have, i, want, mounted, errs);
      }
      assert have[..|have|] == have;
      AllCleared(t0, table, have, want, mounted, errs);
    }

    method BindOne(p: string, b: Bind, mounted: bool) returns (err: bool, ghost unseen: bool, ghost misread: bool)
      modifies this
      ensures OnlyAt(old(table), table, p)
      ensures faults == old(faults) + (if err then 1 else 0)
      ensures misreads == old(misreads) + (if misread then 1 else 0) + (if unseen then 1 else 0)
      ensures Rebound(Stack(old(table), p), Stack(table, p), sources, b, mounted, err, unseen, misread)
      ensures mounted && !misread && |Stack(old(table), p)| == 1 && Shows(sources, b, Stack(old(table), p)[0]) ==>
                table == old(table) && commands == old(commands)
      ensures !mounted && b.src !in sources ==> table == old(table) && commands == old(commands)
    {
      err, unseen, misread := false, false, false;
      if mounted {
        var same;
        same, misread := Same(p, b);
        if same { return; }
        var ok := Umount(p);
        if !ok { err := true; return; }
      }
      var yes;
      yes, unseen := IsDir(b.src);
      if !yes { return; }
      var made := MakeDir();
      if !made { err := true; return; }
      var ok := BindMount(p, b);
      err := !ok;
    }

    method BindAll(want: map<string, Bind>, mounted: set<string>, errs: set<string>, ghost t0: Table)
      returns (wrong: set<string>, ghost unseen: set<string>, ghost misread: set<string>)
      requires Binding(t0, table, sources, want, want.Keys, mounted, errs, {}, {})
      requires forall p :: p in mounted <==> p in want && Stack(t0, p) != []
      modifies this
      ensures Binding(t0, table, sources, want, {}, mounted, wrong, unseen, misread)
      ensures |wrong| <= |errs| + faults - old(faults) && errs <= wrong
      ensures |unseen| + |misread| <= misreads - old(misreads)
      ensures Settled(t0, sources, want) && old(table) == t0 && misread == {} ==> commands == old(commands) && table == t0
    {
      wrong, unseen, misread := errs, {}, {};
      var todo := want.Keys;
      while todo != {}
        invariant todo <= want.Keys
        invariant Binding(t0, table, sources, want, todo, mounted, wrong, unseen, misread)
        invariant |wrong| <= |errs| + faults - old(faults) && errs <= wrong
        invariant |unseen| + |misread| <= misreads - old(misreads)
        invariant Settled(t0, sources, want) && old(table) == t0 && misread == {} ==> commands == old(commands) && table == t0
        decreases todo
      {
        var p :| p in todo;
        ghost var before := table;
        ghost var no, bad;
        var err;
        assert Settled(t0, sources, want) ==> SettledAt(t0, sources, want, p);
        err, no, bad := BindOne(p, want[p], p in mounted);
        OneMoreBound(t0, before, table, sources, want, todo, p, mounted, wrong, unseen, misread, err, no, bad);
        todo := todo - {p};
        WithOne(wrong, p, err);
        WithOne(unseen, p, no);
        WithOne(misread, p, bad);
        wrong, unseen, misread := With(wrong, p, err), With(unseen, p, no), With(misread, p, bad);
      }
    }

    /** The reconcile. errs are the folders a command failed for; unseen the ones whose source could
      * not be asked about; misread the ones a comparison failed for: one failure of this run for each
      * of them. */
    method Reconcile(want: map<string, Bind>) returns (errs: Option<set<string>>, ghost unseen: set<string>, ghost misread: set<string>)
      modifies this
      ensures errs.None? ==> table == old(table) && faults > old(faults)
      ensures errs.Some? ==> forall p | p !in errs.value && p !in unseen ::
                SettledAt(table, sources, want, p) && KeptOrAsked(old(table), table, want, p)
      ensures errs.Some? ==> |errs.value| <= faults - old(faults)
      ensures |unseen| + |misread| <= misreads - old(misreads)
      ensures errs.Some? && faults == old(faults) && misreads == old(misreads) ==> Settled(table, sources, want)
      ensures faults >= old(faults) && misreads >= old(misreads)
      ensures faults == old(faults) ==> errs.Some?
      ensures forall p | Right(old(table), sources, want, p) && p !in misread :: Stack(table, p) == Stack(old(table), p)
      ensures Settled(old(table), sources, want) && misread == {} ==> table == old(table) && commands == old(commands)
    {
      unseen, misread := {}, {};
      var have := ReadTable();
      if have.None? { return None, {}, {}; }
      ghost var t0 := table;
      var mounted, wrong := Clear(have.value, want);
      ClearedBinding(t0, table, sources, want, mounted, wrong);
      wrong, unseen, misread := BindAll(want, mounted, wrong, t0);
      errs := Some(wrong);
      forall p ensures
        && (p !in wrong && p !in unseen ==> SettledAt(table, sources, want, p) && KeptOrAsked(t0, table, want, p))
        && (Right(t0, sources, want, p) && p !in misread ==> Stack(table, p) == Stack(t0, p))
      {
        assert BoundAt(t0, table, sources, want, p, false, p in mounted, p in wrong, p in unseen, p in misread);
      }
    }

    /** Twice with nothing changed between: when nothing failed, the first leaves exactly the wanted
      * table and the second issues no mount and no umount. */
    method ReconcileTwice(want: map<string, Bind>) returns (ghost between: Table, ghost issued: nat)
      modifies this
      ensures faults == old(faults) && misreads == old(misreads) ==>
                && Settled(between, sources, want)
                && table == between && commands == issued
      ensures faults == old(faults) && misreads == old(misreads) && Settled(old(table), sources, want) ==>
                table == old(table) && commands == old(commands)
    {
      ghost var unseen, misread;
      var errs;
      errs, unseen, misread := Reconcile(want);
      between, issued := table, commands;
      errs, unseen, misread := Reconcile(want);
    }
  }

  lemma {:induction false} WithOne(s: set<string>, p: string, yes: bool)
    ensures |With(s, p, yes)| <= |s| + (if yes then 1 else 0)
  {
  }

  lemma {:induction false} ClearedBinding(t0: Table, t: Table, sources: map<string, int>, want: map<string, Bind>, mounted: set<string>, errs: set<string>)
    requires forall p | p !in errs :: Stack(t, p) == if p in want && Stack(t0, p) != [] then [Stack(t0, p)[0]] else []
    requires forall p :: p in mounted <==> p in want && Stack(t0, p) != []
    requires forall p | |Stack(t0, p)| == 1 && p in want :: p !in errs
    ensures Binding(t0, t, sources, want, want.Keys, mounted, errs, {}, {})
    ensures Settled(t0, sources, want) ==> OneEach(t0, want)
  {
    if Settled(t0, sources, want) {
      forall p ensures |Stack(t0, p)| <= if p in want then 1 else 0 { assert SettledAt(t0, sources, want, p); }
    }
  }

  lemma {:induction false} ListedStep(have: seq<string>, i: nat)
    requires i < |have|
    ensures have[..i + 1] == have[..i] + [have[i]]
    ensures forall p :: Listed(have[..i + 1], p) == Listed(have[..i], p) + if p == have[i] then 1 else 0
    ensures forall p :: Listed(have[..i + 1], p) <= Listed(have, p)
  {
    assert have[..i + 1] == have[..i] + [have[i]];
    assert have == have[..i + 1] + have[i + 1..];
  }

  // ---------------------------------------------------------------- the kernel's escapes

  newtype Byte = x: int | 0 <= x < 256

  const BACKSLASH: Byte := 92

  predicate IsOctal(b: Byte) {
    48 <= b <= 55
  }

  // Three octal digits that come to a byte.
  predicate EscapeAt(s: seq<Byte>, i: nat) {
    && i + 3 < |s|
    && s[i] == 92
    && IsOctal(s[i + 1]) && IsOctal(s[i + 2]) && IsOctal(s[i + 3])
    && s[i + 1] <= 51
  }

  function ByteAt(s: seq<Byte>, i: nat): Byte
    requires EscapeAt(s, i)
  {
    (((s[i + 1] as int - 48) * 64 + (s[i + 2] as int - 48) * 8 + (s[i + 3] as int - 48))) as Byte
  }

  function Unescaped(s: seq<Byte>): seq<Byte> {
    if s == [] then []
    else if EscapeAt(s, 0) then [ByteAt(s, 0)] + Unescaped(s[4..])
    else [s[0]] + Unescaped(s[1..])
  }

  function Octal(b: Byte): seq<Byte> {
    [92, (48 + b as int / 64) as Byte, (48 + b as int / 8 % 8) as Byte, (48 + b as int % 8) as Byte]
  }

  // What the kernel writes: every byte of its escape set in octal.
  function Escaped(s: seq<Byte>, set_: set<Byte>): seq<Byte> {
    if s == [] then []
    else (if s[0] in set_ then Octal(s[0]) else [s[0]]) + Escaped(s[1..], set_)
  }

  /** unescapeMountinfo. */
  method UnescapeMountinfo(s: seq<Byte>) returns (r: seq<Byte>)
    ensures r == Unescaped(s)
  {
    if BACKSLASH !in s {
      NoBackslash(s);
      return s;
    }
    r := [];
    var i := 0;
    while i < |s|
      invariant i <= |s|
      invariant r + Unescaped(s[i..]) == Unescaped(s)
    {
      UnescapeMore(s, i, r);
      if s[i] == BACKSLASH && i + 3 < |s| {
        var n := ParseOctal(s[i + 1..i + 4]);
        if n.Some? {
          r := r + [n.value];
          i := i + 4;
          continue;
        }
      }
      r := r + [s[i]];
      i := i + 1;
    }
  }

  // Base eight, eight bits.
  function ParseOctal(d: seq<Byte>): Option<Byte>
    requires |d| == 3
  {
    if !IsOctal(d[0]) || !IsOctal(d[1]) || !IsOctal(d[2]) then None
    else
      var n := (d[0] as int - 48) * 64 + (d[1] as int - 48) * 8 + (d[2] as int - 48);
      if n < 256 then Some(n as Byte) else None
  }

  lemma {:induction false} NoBackslash(s: seq<Byte>)
    requires BACKSLASH !in s
    ensures Unescaped(s) == s
  {
    assert forall i: nat :: !EscapeAt(s, i);
    KeptIffNoEscape(s);
  }

  // What is read so far and the rest, one step on.
  lemma {:induction false} UnescapeMore(s: seq<Byte>, i: nat, r: seq<Byte>)
    requires i < |s|
    ensures s[i] == BACKSLASH && i + 3 < |s| && ParseOctal(s[i + 1..i + 4]).Some? ==>
              r + Unescaped(s[i..]) == (r + [ParseOctal(s[i + 1..i + 4]).value]) + Unescaped(s[i + 4..])
    ensures !(s[i] == BACKSLASH && i + 3 < |s| && ParseOctal(s[i + 1..i + 4]).Some?) ==>
              r + Unescaped(s[i..]) == (r + [s[i]]) + Unescaped(s[i + 1..])
  {
    UnescapeStep(s, i);
    Apart(r, s[i], Unescaped(s[i + 1..]));
    if s[i] == BACKSLASH && i + 3 < |s| && ParseOctal(s[i + 1..i + 4]).Some? {
      Apart(r, ParseOctal(s[i + 1..i + 4]).value, Unescaped(s[i + 4..]));
    }
  }

  lemma {:induction false} Apart(r: seq<Byte>, b: Byte, rest: seq<Byte>)
    ensures r + ([b] + rest) == (r + [b]) + rest
  {
  }

  lemma {:induction false} UnescapeStep(s: seq<Byte>, i: nat)
    requires i < |s|
    ensures s[i] == BACKSLASH && i + 3 < |s| && ParseOctal(s[i + 1..i + 4]).Some? ==>
              Unescaped(s[i..]) == [ParseOctal(s[i + 1..i + 4]).value] + Unescaped(s[i + 4..])
    ensures !(s[i] == BACKSLASH && i + 3 < |s| && ParseOctal(s[i + 1..i + 4]).Some?) ==>
              Unescaped(s[i..]) == [s[i]] + Unescaped(s[i + 1..])
  {
    assert s[i..][1..] == s[i + 1..];
    if i + 3 < |s| { assert s[i..][4..] == s[i + 4..]; }
  }

  /** For every path and every escape set with the backslash in it, reading undoes writing. */
  lemma {:induction false} UnescapeInvertsEscape(s: seq<Byte>, set_: set<Byte>)
    requires 92 in set_
    ensures Unescaped(Escaped(s, set_)) == s
    decreases |s|
  {
    if s != [] {
      var rest := Escaped(s[1..], set_);
      UnescapeInvertsEscape(s[1..], set_);
      if s[0] in set_ {
        var o := Octal(s[0]);
        var b := s[0] as int;
        assert (b / 64) * 64 + (b / 8 % 8) * 8 + b % 8 == b;
        assert EscapeAt(o + rest, 0) && ByteAt(o + rest, 0) == s[0];
        assert (o + rest)[4..] == rest;
      } else {
        assert ([s[0]] + rest)[1..] == rest;
      }
      assert s == [s[0]] + s[1..];
    }
  }

  /** And the backslash has to be in it: a set of marks without it loses a path spelled like an
    * escape. */
  lemma {:induction false} BackslashMustBeEscaped(set_: set<Byte>)
    requires forall b | b in set_ :: !IsOctal(b)
    ensures (forall s :: Unescaped(Escaped(s, set_)) == s) <==> 92 in set_
  {
    if BACKSLASH in set_ {
      forall s ensures Unescaped(Escaped(s, set_)) == s { UnescapeInvertsEscape(s, set_); }
    } else {
      var s: seq<Byte> := [BACKSLASH, 48, 52, 48];
      AsItIs(s, set_);
      assert EscapeAt(s, 0) && ByteAt(s, 0) == 32;
      assert Unescaped(s)[0] == 32;
    }
  }

  lemma {:induction false} AsItIs(s: seq<Byte>, set_: set<Byte>)
    requires forall b | b in s :: b !in set_
    ensures Escaped(s, set_) == s
    decreases |s|
  {
    if s != [] { AsItIs(s[1..], set_); }
  }

  // What comes before a place no escape reaches over is read on its own.
  lemma {:induction false} ReadInParts(s: seq<Byte>, i: nat)
    requires i <= |s| && forall k: nat | k < i && EscapeAt(s, k) :: k + 4 <= i
    ensures Unescaped(s) == Unescaped(s[..i]) + Unescaped(s[i..])
    decreases i
  {
    if i == 0 {
      assert s[0..] == s;
    } else {
      var n: nat := if EscapeAt(s, 0) then 4 else 1;
      assert EscapeAt(s[..i], 0) <==> EscapeAt(s, 0);
      forall k: nat | k < i - n && EscapeAt(s[n..], k) ensures k + 4 <= i - n {
        assert EscapeAt(s, k + n);
      }
      ReadInParts(s[n..], i - n);
      TakeAndDrop(s, n, i);
    }
  }

  lemma {:induction false} TakeAndDrop(s: seq<Byte>, n: nat, i: nat)
    requires n <= i <= |s|
    ensures s[n..][..i - n] == s[..i][n..] && s[n..][i - n..] == s[i..]
  {
  }

  /** Each backslash in its place, whatever stands around it: a well-formed escape becomes its byte,
    * and a malformed or out-of-range one is kept as it is written. */
  lemma {:induction false} ReadInPlace(s: seq<Byte>, i: nat)
    requires i < |s| && s[i] == BACKSLASH
    ensures EscapeAt(s, i) ==> Unescaped(s) == Unescaped(s[..i]) + [ByteAt(s, i)] + Unescaped(s[i + 4..])
    ensures !EscapeAt(s, i) ==> Unescaped(s) == Unescaped(s[..i]) + [BACKSLASH] + Unescaped(s[i + 1..])
  {
    ReadInParts(s, i);
    assert EscapeAt(s[i..], 0) <==> EscapeAt(s, i);
    assert s[i..][1..] == s[i + 1..];
    if EscapeAt(s, i) { assert s[i..][4..] == s[i + 4..]; }
  }

  function Escapes(s: seq<Byte>): nat {
    if s == [] then 0 else (if EscapeAt(s, 0) then 1 else 0) + Escapes(s[1..])
  }

  /** Every well-formed escape is undone, wherever it stands, and nothing else: three bytes go for
    * each, and a path with none is kept as it is. */
  lemma {:induction false} ThreeBytesEach(s: seq<Byte>)
    ensures |Unescaped(s)| + 3 * Escapes(s) == |s|
    decreases |s|
  {
    if s == [] {
    } else if EscapeAt(s, 0) {
      assert s[1..][1..] == s[2..] && s[2..][1..] == s[3..] && s[3..][1..] == s[4..];
      assert !EscapeAt(s[1..], 0) && !EscapeAt(s[2..], 0) && !EscapeAt(s[3..], 0);
      assert Escapes(s[1..]) == Escapes(s[2..]);
      assert Escapes(s[2..]) == Escapes(s[3..]);
      ThreeBytesEach(s[4..]);
    } else {
      ThreeBytesEach(s[1..]);
    }
  }

  lemma {:induction false} KeptIffNoEscape(s: seq<Byte>)
    ensures Unescaped(s) == s <==> forall i: nat :: !EscapeAt(s, i)
  {
    ThreeBytesEach(s);
    NoEscapes(s);
    if Escapes(s) == 0 { KeptWhole(s); }
  }

  lemma {:induction false} KeptWhole(s: seq<Byte>)
    requires Escapes(s) == 0
    ensures Unescaped(s) == s
    decreases |s|
  {
    if s != [] { KeptWhole(s[1..]); }
  }

  lemma {:induction false} NoEscapes(s: seq<Byte>)
    ensures Escapes(s) == 0 <==> forall i: nat :: !EscapeAt(s, i)
    decreases |s|
  {
    if s != [] {
      NoEscapes(s[1..]);
      forall i: nat ensures EscapeAt(s[1..], i) <==> EscapeAt(s, i + 1) {
      }
      if forall i: nat :: !EscapeAt(s[1..], i) {
        forall i: nat | i > 0 ensures !EscapeAt(s, i) {
          assert EscapeAt(s[1..], i - 1) <==> EscapeAt(s, i - 1 + 1);
        }
      }
    }
  }
}
