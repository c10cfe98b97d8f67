/** Converge over whole runs: every interleaving of converges, installs that rewrite unit files,
  * units that die and units that systemd restarts, demotions and guest reboots, with a stop
  * possible between any two commands.
  */
module ConvergeRuns {
  import opened Options
  import opened PodAddresses
  import opened Converge

  datatype Act =
    // down are the units that a start of failed
    | Converged(apps: seq<App>, recorded: bool, stops: set<Unit>, down: set<Unit>, pool: string)
    | ConvergeUnread                                                     // the volume would not render
    | ConvergeFailed(apps: seq<App>, stops: set<Unit>, pool: string)     // a run that reported its own failure
    | ConvergeKilled(apps: seq<App>, stops: set<Unit>, pool: string)     // a run that stopped between two commands
    | Rendered                                                           // an install's own rendering
    | Demoted(killed: bool)                                              // ConvergeStop
    | UnitsDied
    | Restarted(back: set<Unit>)                                         // containers by Restart=always, and pods with them
    | Rebooted

  ghost predicate Step(n: Node, a: Act, n': Node) {
    match a
    case Converged(apps, recorded, stops, down, pool) =>
      Completed(n, n', apps, recorded, stops, down) && Addressed(n, n', apps, pool) && Left(n, n', apps, stops, pool)
    case ConvergeUnread => n' == n
    case ConvergeFailed(apps, stops, pool) =>
      Left(n, n', apps, stops, pool) && FailedEarly(n, n') && stops <= Orphans(n, apps)
    case ConvergeKilled(apps, stops, pool) => Left(n, n', apps, stops, pool) && n'.started == n.started
    case Rendered => n' == n.(disk := n'.disk, loaded := n'.loaded)
    case Demoted(killed) =>
      && n' == n.(running := n'.running)
      && Within(n'.running, n.running)
      && (!killed ==> forall u | u in n'.running :: u !in n.units)
    case UnitsDied => n' == n.(running := n'.running) && Within(n'.running, n.running)
    case Restarted(back) =>
      && (forall u | u in back :: u in n.units && u in n.loaded)
      && n' == n.(running := n.running + (n.loaded - (n.loaded.Keys - back)))
    case Rebooted => n' == Node(map[], map[], map[], map[], [], [], None)
  }

  // Every unit a converge asked a stop of.
  function Stops(a: Act): set<Unit> {
    if a.Converged? || a.ConvergeFailed? || a.ConvergeKilled? then a.stops else {}
  }

  ghost predicate Booted(n: Node) {
    n.running == map[] && n.started == map[] && n.units == [] && n.table == []
  }

  ghost predicate Run(nodes: seq<Node>, acts: seq<Act>) {
    && |nodes| == |acts| + 1
    && Booted(nodes[0])
    && forall k :: 0 <= k < |acts| ==> StepAt(nodes, acts, k)
  }

  ghost predicate StepAt(nodes: seq<Node>, acts: seq<Act>, k: int)
    requires |nodes| == |acts| + 1 && 0 <= k < |acts|
  {
    Step(nodes[k], acts[k], nodes[k + 1])
  }

  // ---------------------------------------------------------------- nothing runs unlisted

  lemma {:induction false} StepKeepsCovered(n: Node, a: Act, n': Node)
    requires Step(n, a, n') && Covered(n)
    ensures Covered(n')
  {
  }

  lemma {:induction false} CoveredNext(nodes: seq<Node>, acts: seq<Act>, k: nat)
    requires Run(nodes, acts) && k < |acts| && Covered(nodes[k])
    ensures Covered(nodes[k + 1])
  {
    assert StepAt(nodes, acts, k);
    StepKeepsCovered(nodes[k], acts[k], nodes[k + 1]);
  }

  /** At every point of every run, everything running is on the list, whichever runs failed or
    * were killed. */
  lemma {:induction false} AlwaysCovered(nodes: seq<Node>, acts: seq<Act>, k: nat)
    requires Run(nodes, acts) && k < |nodes|
    ensures Covered(nodes[k])
  {
    if k > 0 {
      AlwaysCovered(nodes, acts, k - 1);
      CoveredNext(nodes, acts, k - 1);
    }
  }

  /** So a demotion that completes leaves no app running. */
  lemma {:induction false} DemotionStopsEverything(nodes: seq<Node>, acts: seq<Act>, k: nat)
    requires Run(nodes, acts) && k < |acts|
    requires acts[k] == Demoted(false)
    ensures nodes[k + 1].running == map[]
  {
    AlwaysCovered(nodes, acts, k);
    assert StepAt(nodes, acts, k);
    assert nodes[k + 1].running.Keys == {};
  }

  // ---------------------------------------------------------------- the bytes that run

  /** The household gets what the volume says: every unit of every app that was not skipped runs, on
    * exactly the bytes just rendered, but for those that a start of failed. */
  ghost predicate Serves(n: Node, apps: seq<App>, down: set<Unit>) {
    forall j, u | Owns(apps, j, u) && !apps[j].skip ::
      if u in down then u !in n.running
      else u in n.running && u in AllFiles(apps) && n.running[u] == AllFiles(apps)[u]
  }

  // Where the record calls an app current, its units run what the record says.
  ghost predicate RecordHolds(n: Node, apps: seq<App>) {
    forall j, u | Owns(apps, j, u) && !apps[j].skip && !apps[j].Touched(n.started) && u in n.running ::
      u in n.started && n.running[u] == n.started[u]
  }

  /** One completed converge serves the new rendering exactly when the record it started from was
    * right about every app it called current. */
  lemma {:induction false} ServesIffRecordHolds(n: Node, n': Node, apps: seq<App>, recorded: bool, stops: set<Unit>, down: set<Unit>)
    requires Completed(n, n', apps, recorded, stops, down)
    ensures Serves(n', apps, down) <==> RecordHolds(n, apps)
  {
    forall j, u | Owns(apps, j, u) && !apps[j].skip
      ensures u in apps[j].Files() && u in AllFiles(apps) && AllFiles(apps)[u] == apps[j].Files()[u]
      ensures !apps[j].Touched(n.started) ==> u in n.started && n.started[u] == AllFiles(apps)[u]
      ensures HandledAs(n, n', apps, j, u, down)
    {
      MergedFile(apps, j, u);
    }
  }

  lemma {:induction false} AgreementServes(n: Node, n': Node, apps: seq<App>, recorded: bool, stops: set<Unit>, down: set<Unit>)
    requires Completed(n, n', apps, recorded, stops, down) && Agrees(n)
    ensures Serves(n', apps, down)
  {
    forall j, u | Owns(apps, j, u) && !apps[j].skip && !apps[j].Touched(n.started) && u in n.running
      ensures u in n.started && n.running[u] == n.started[u]
    {
      MergedFile(apps, j, u);
    }
    ServesIffRecordHolds(n, n', apps, recorded, stops, down);
  }

  // A step that does not lose the record: a converge that completes writes it, and one that is
  // killed had started nothing.
  ghost predicate Recorded(n: Node, a: Act, n': Node) {
    match a
    case Converged(_, recorded, _, _, _) => recorded
    case ConvergeKilled(_, _, _) => Within(n'.running, n.running)
    case Restarted(back) => CameBackOnRecord(n, back)
    case _ => true
  }

  // What systemd restarted came back on the bytes converge last started.
  predicate CameBackOnRecord(n: Node, back: set<Unit>) {
    forall u | u in back && u in n.started :: u in n.loaded && n.loaded[u] == n.started[u]
  }

  /** A restart keeps the record true of what runs exactly when every recorded unit it brings back
    * is still the source systemd last read. */
  lemma {:induction false} RestartAgreesIff(n: Node, back: set<Unit>, n': Node)
    requires Step(n, Restarted(back), n') && Agrees(n)
    ensures Agrees(n') <==> CameBackOnRecord(n, back)
  {
    forall u | u in back && u in n.started
      ensures u in n.loaded && u in n'.running && n'.running[u] == n.loaded[u]
    {
    }
  }

  // Systemd's view of every recorded source is the record.
  predicate LoadedIsRecorded(n: Node) {
    forall f | f in n.started && f in n.loaded :: n.loaded[f] == n.started[f]
  }

  // No install's own rendering, no converge that fails part-way or cannot write its record.
  predicate Calm(a: Act) {
    && !a.Rendered? && !a.ConvergeFailed? && !a.ConvergeKilled?
    && (a.Converged? ==> a.recorded)
  }

  /** Only those can make a later restart bring back other bytes than the record's. */
  lemma {:induction false} StepKeepsLoaded(n: Node, a: Act, n': Node)
    requires Step(n, a, n')
    requires LoadedIsRecorded(n) || (a.Converged? && a.recorded)
    requires Calm(a)
    ensures LoadedIsRecorded(n')
    ensures a.Restarted? ==> CameBackOnRecord(n, a.back)
  {
    if a.Converged? {
      forall f | f in n'.started
        ensures f in n'.loaded && n'.loaded[f] == n'.started[f]
      {
        StartedIsOwned(a.apps, f);
        var j :| Owns(a.apps, j, f);
        StartedFile(a.apps, j, f);
        MergedFile(a.apps, j, f);
        FilesAreUnits(a.apps, f);
      }
    }
  }

  lemma {:induction false} StepKeepsAgreement(n: Node, a: Act, n': Node)
    requires Step(n, a, n') && Recorded(n, a, n') && Agrees(n)
    ensures Agrees(n')
  {
    if a.Converged? {
      AgreementServes(n, n', a.apps, a.recorded, a.stops, a.down);
      forall u | u in n'.running && u in n'.started
        ensures n'.running[u] == n'.started[u]
      {
        StartedIsOwned(a.apps, u);
        var j :| Owns(a.apps, j, u);
        StartedFile(a.apps, j, u);
        MergedFile(a.apps, j, u);
      }
    }
  }

  lemma {:induction false} AgreesNext(nodes: seq<Node>, acts: seq<Act>, k: nat)
    requires Run(nodes, acts) && k < |acts|
    requires Agrees(nodes[k]) && Recorded(nodes[k], acts[k], nodes[k + 1])
    ensures Agrees(nodes[k + 1])
  {
    assert StepAt(nodes, acts, k);
    StepKeepsAgreement(nodes[k], acts[k], nodes[k + 1]);
  }

  lemma {:induction false} RunAgrees(nodes: seq<Node>, acts: seq<Act>, k: nat)
    requires Run(nodes, acts) && k < |nodes|
    requires forall i :: 0 <= i < k ==> Recorded(nodes[i], acts[i], nodes[i + 1])
    ensures Agrees(nodes[k])
  {
    if k > 0 {
      RunAgrees(nodes, acts, k - 1);
      AgreesNext(nodes, acts, k - 1);
    }
  }

  /** Over every run whose earlier converges recorded what they started and whose restarts came
    * back on recorded bytes, every completed converge leaves each app it did not skip running
    * exactly the bytes just rendered. */
  lemma {:induction false} EveryConvergeServes(nodes: seq<Node>, acts: seq<Act>, k: nat)
    requires Run(nodes, acts) && k < |acts| && acts[k].Converged?
    requires forall i :: 0 <= i < k ==> Recorded(nodes[i], acts[i], nodes[i + 1])
    ensures Serves(nodes[k + 1], acts[k].apps, acts[k].down)
  {
    RunAgrees(nodes, acts, k);
    assert StepAt(nodes, acts, k);
    AgreementServes(nodes[k], nodes[k + 1], acts[k].apps, acts[k].recorded, acts[k].stops, acts[k].down);
  }

  lemma {:induction false} LoadedNext(nodes: seq<Node>, acts: seq<Act>, k: nat)
    requires Run(nodes, acts) && k < |acts| && LoadedIsRecorded(nodes[k]) && Calm(acts[k])
    ensures LoadedIsRecorded(nodes[k + 1]) && Recorded(nodes[k], acts[k], nodes[k + 1])
  {
    assert StepAt(nodes, acts, k);
    StepKeepsLoaded(nodes[k], acts[k], nodes[k + 1]);
  }

  lemma {:induction false} CalmRunStaysLoaded(nodes: seq<Node>, acts: seq<Act>, k: nat)
    requires Run(nodes, acts) && k < |nodes|
    requires forall i :: 0 <= i < k ==> Calm(acts[i])
    ensures LoadedIsRecorded(nodes[k])
  {
    if k > 0 {
      CalmRunStaysLoaded(nodes, acts, k - 1);
      LoadedNext(nodes, acts, k - 1);
    }
  }

  /** With none of those, units may die and restart at any point, and every completed converge
    * serves what it rendered. */
  lemma {:induction false} CalmRunServes(nodes: seq<Node>, acts: seq<Act>, k: nat)
    requires Run(nodes, acts) && k < |acts| && acts[k].Converged?
    requires forall i :: 0 <= i < k ==> Calm(acts[i])
    ensures Serves(nodes[k + 1], acts[k].apps, acts[k].down)
  {
    forall i | 0 <= i < k ensures Recorded(nodes[i], acts[i], nodes[i + 1]) {
      CalmRunStaysLoaded(nodes, acts, i);
      LoadedNext(nodes, acts, i);
    }
    EveryConvergeServes(nodes, acts, k);
  }

  // ---------------------------------------------------------------- what a converge stops

  /** An app that is not skipped is bounced exactly when the record does not hold its bytes; where
    * it holds them, none of its units is stopped, and whatever of it was running still runs. */
  lemma {:induction false} BouncedIffNotRecorded(n: Node, n': Node, apps: seq<App>, recorded: bool, stops: set<Unit>, down: set<Unit>, j: int, u: Unit)
    requires Completed(n, n', apps, recorded, stops, down)
    requires Owns(apps, j, u) && !apps[j].skip
    ensures u in stops <==> apps[j].Touched(n.started)
    ensures !apps[j].Touched(n.started) && u in n.running ==> u in n'.running && n'.running[u] == n.running[u]
  {
    AllUnitsOwned(apps, u);
    if u in Bounced(n, apps) {
      var k :| 0 <= k < |apps| && !apps[k].skip && apps[k].Touched(n.started) && u in apps[k].Units();
      OneOwner(apps, j, k, u);
    }
    assert HandledAs(n, n', apps, j, u, down);
  }

  // The record a completed converge wrote holds these bytes: it rendered them for the same app,
  // and did not skip it.
  ghost predicate Started(apps: seq<App>, a: App) {
    exists i :: 0 <= i < |apps| && !apps[i].skip && Within(a.Files(), apps[i].Files())
  }

  lemma {:induction false} RecordHoldsIffStarted(apps: seq<App>, a: App)
    requires DistinctApps(apps)
    ensures a.Touched(StartedFiles(apps)) <==> !Started(apps, a)
  {
    var pod := PodFile(a.m.name);
    assert pod in a.Files();
    if !a.Touched(StartedFiles(apps)) {
      assert pod in StartedFiles(apps);
      StartedIsOwned(apps, pod);
      var i :| Owns(apps, i, pod);
      StartedFile(apps, i, pod);
      UnitIsFile(apps[i], pod);
      forall f | f in a.Files() ensures f in apps[i].Files() && apps[i].Files()[f] == a.Files()[f] {
        SameAppRecorded(apps, i, a, f);
      }
    }
    forall i | 0 <= i < |apps| && !apps[i].skip && Within(a.Files(), apps[i].Files())
      ensures !a.Touched(StartedFiles(apps))
    {
      forall f | f in a.Files() ensures f in StartedFiles(apps) && StartedFiles(apps)[f] == a.Files()[f] {
        UnitIsFile(apps[i], f);
        assert Owns(apps, i, f);
        StartedFile(apps, i, f);
      }
    }
  }

  lemma {:induction false} SameAppRecorded(apps: seq<App>, i: int, a: App, f: File)
    requires DistinctApps(apps) && 0 <= i < |apps| && apps[i].m.name == a.m.name
    requires f in a.Files() && f in StartedFiles(apps)
    ensures f in apps[i].Files() && apps[i].Files()[f] == StartedFiles(apps)[f]
  {
    UnitIsFile(a, f);
    StartedIsOwned(apps, f);
    var k :| Owns(apps, k, f);
    UnitIsFile(apps[k], f);
    StartedFile(apps, k, f);
  }

  /** A skipped app is never recorded, and a unit it still renders is neither stopped nor changed. */
  lemma {:induction false} SkippedAppIsLeftAlone(n: Node, n': Node, apps: seq<App>, recorded: bool, stops: set<Unit>, down: set<Unit>, j: int, u: Unit)
    requires Completed(n, n', apps, recorded, stops, down)
    requires Owns(apps, j, u) && apps[j].skip
    ensures u !in stops && Same(n.running, n'.running, u)
    ensures recorded ==> u !in n'.started
  {
    AllUnitsOwned(apps, u);
    if u in Bounced(n, apps) {
      var k :| 0 <= k < |apps| && !apps[k].skip && apps[k].Touched(n.started) && u in apps[k].Units();
      OneOwner(apps, j, k, u);
    }
    assert HandledAs(n, n', apps, j, u, down);
    StartedFile(apps, j, u);
  }

  /** But a container of a skipped app keeps running only if the NEW manifest still names it: the
    * stop of what is no longer rendered comes before preparation is even tried. */
  lemma {:induction false} SkippedAppKeepsContainerIff(n: Node, n': Node, apps: seq<App>, recorded: bool, stops: set<Unit>, down: set<Unit>, j: int, u: Unit)
    requires Completed(n, n', apps, recorded, stops, down) && Covered(n)
    requires 0 <= j < |apps| && apps[j].skip
    requires !u.UserFile? && u.app == apps[j].m.name && u in n.running
    ensures u in n'.running <==> u in apps[j].Units()
  {
    if u in apps[j].Units() {
      assert Owns(apps, j, u);
      SkippedAppIsLeftAlone(n, n', apps, recorded, stops, down, j, u);
    } else {
      AllUnitsOwned(apps, u);
      if u in AllUnits(apps) {
        var k :| Owns(apps, k, u);
        UnitIsFile(apps[k], u);
      }
    }
  }

  // ---------------------------------------------------------------- one app must not cost the others

  lemma {:induction false} ManifestNames(apps: seq<App>)
    requires DistinctApps(apps)
    ensures DistinctNames(Manifests(apps))
  {
  }

  // A pool drawn outside loopback, as every pool the host draws is.
  predicate PoolDrawn(a: Act) {
    a.Converged? ==> !InPool(a.pool, LOOPBACK)
  }

  lemma {:induction false} AddressIsKept(n0: Node, a: Act, n1: Node, n2: Node, b: Act, n3: Node, i: int, j: int)
    requires Step(n0, a, n1) && a.Converged? && PoolDrawn(a)
    requires n2.table == n1.table && (n1.network.Some? ==> n2.network == n1.network)
    requires Step(n2, b, n3) && b.Converged?
    requires 0 <= i < |a.apps| && 0 <= j < |b.apps| && b.apps[j].m == a.apps[i].m
    ensures b.apps[j].address == a.apps[i].address
  {
    var ms, addrs := Manifests(a.apps), Addresses(a.apps);
    var ms', addrs' := Manifests(b.apps), Addresses(b.apps);
    ManifestNames(a.apps);
    ManifestNames(b.apps);
    assert ms[i] == ms'[j];
    assert addrs[i] == a.apps[i].address && addrs'[j] == b.apps[j].address;
    assert Answers(a.pool, PrivateAddresses(ms, addrs[..i]), Ledger(n0.table), ms[i], Ok(addrs[i]));
    assert Answers(b.pool, PrivateAddresses(ms', addrs'[..j]), Ledger(n2.table), ms'[j], Ok(addrs'[j]));
    if !ms[i].hostNetwork {
      assert AnyPrivate(ms') && a.pool == b.pool by { assert AnyPrivate(ms); }
      TableRemembers(n0, n1, a.apps, i, a.pool);
      PassKeeps(b.pool, Ledger(n2.table), ms', addrs', j);
    }
  }

  // ---------------------------------------------------------------- an unchanged app, over whole runs

  // What a node remembers of an app: its bytes, as converge last started them, and a private
  // app's address, in a ledger of the pool the network is on.
  ghost predicate Remembers(n: Node, a: App, pool: string) {
    && !a.Touched(n.started)
    && (if a.m.hostNetwork then a.address == LOOPBACK
        else
          && n.network == Some(pool) && !InPool(pool, LOOPBACK)
          && Injective(pool, Ledger(n.table))
          && a.m.name in Ledger(n.table) && Ledger(n.table)[a.m.name] == a.address && InPool(pool, a.address))
  }

  predicate Names(apps: seq<App>, m: Manifest) {
    exists j :: 0 <= j < |apps| && apps[j].m == m
  }

  // A step in which the volume still names this manifest, and the app is not left out of a record.
  predicate Renews(a: Act, m: Manifest) {
    match a
    case Converged(apps, recorded, _, _, _) => exists j :: 0 <= j < |apps| && apps[j].m == m && (recorded ==> !apps[j].skip)
    case ConvergeFailed(apps, _, _) => Names(apps, m)
    case ConvergeKilled(apps, _, _) => Names(apps, m)
    case Rebooted => false
    case _ => true
  }

  // A step in which nothing but a converge stops or starts a unit.
  predicate Gentle(a: Act) {
    !a.Demoted? && !a.UnitsDied? && !a.Restarted? && !a.Rebooted?
  }

  /** A pass over a ledger that remembers the app renders it at the same address. */
  lemma {:induction false} RenderedAsRemembered(n: Node, apps: seq<App>, j: int, a: App, pool: string)
    requires Remembers(n, a, pool) && Addressing(n, apps, pool)
    requires 0 <= j < |apps| && apps[j].m == a.m
    ensures apps[j].address == a.address && apps[j].Files() == a.Files() && apps[j].Units() == a.Units()
  {
    var ms, addrs := Manifests(apps), Addresses(apps);
    ManifestNames(apps);
    assert ms[j] == a.m && addrs[j] == apps[j].address;
    assert Answers(pool, PrivateAddresses(ms, addrs[..j]), Ledger(n.table), ms[j], Ok(addrs[j]));
    if !a.m.hostNetwork {
      PassKeeps(pool, Ledger(n.table), ms, addrs, j);
    }
  }

  /** The table a run wrote remembers the address of every private app it rendered. */
  lemma {:induction false} TableRemembers(n: Node, n': Node, apps: seq<App>, i: int, pool: string)
    requires Addressing(n, apps, pool) && Addressed(n, n', apps, pool) && !InPool(pool, LOOPBACK)
    requires 0 <= i < |apps| && !apps[i].m.hostNetwork
    ensures n'.network == Some(pool) && Injective(pool, Ledger(n'.table))
    ensures apps[i].m.name in Ledger(n'.table) && Ledger(n'.table)[apps[i].m.name] == apps[i].address
    ensures InPool(pool, apps[i].address)
  {
    var ms, addrs := Manifests(apps), Addresses(apps);
    ManifestNames(apps);
    assert ms[i] == apps[i].m && addrs[i] == apps[i].address;
    assert AnyPrivate(ms);
    TableIsInjective(pool, Ledger(n.table), ms, addrs);
    AddressNotEmpty(pool, Ledger(n.table), ms, addrs, i);
    assert n'.table[i] == Entry(ms[i].name, addrs[i]);
    LedgerRemembers(n'.table, i);
    PassIsInPool(pool, Ledger(n.table), ms, addrs, i);
  }

  /** A recorded converge remembers every app it did not skip. */
  lemma {:induction false} ConvergeRemembers(n: Node, c: Act, n': Node, i: int)
    requires Step(n, c, n') && c.Converged? && c.recorded && PoolDrawn(c)
    requires 0 <= i < |c.apps| && !c.apps[i].skip
    ensures Remembers(n', c.apps[i], c.pool)
  {
    var a := c.apps[i];
    assert Within(a.Files(), a.Files());
    RecordHoldsIffStarted(c.apps, a);
    var ms, addrs := Manifests(c.apps), Addresses(c.apps);
    assert ms[i] == a.m && addrs[i] == a.address;
    assert Answers(c.pool, PrivateAddresses(ms, addrs[..i]), Ledger(n.table), ms[i], Ok(addrs[i]));
    if !a.m.hostNetwork {
      TableRemembers(n, n', c.apps, i, c.pool);
    }
  }

  // A rendering that reached the new table kept the app's place in it.
  lemma {:induction false} TableStillRemembers(n: Node, n': Node, apps: seq<App>, j: int, a: App, pool: string, pool': string)
    requires Remembers(n, a, pool) && Addressing(n, apps, pool') && Addressed(n, n', apps, pool')
    requires 0 <= j < |apps| && apps[j].m == a.m && !a.Touched(n'.started)
    ensures Remembers(n', a, pool)
    ensures apps[j].Files() == a.Files() && apps[j].Units() == a.Units()
  {
    var ms, addrs := Manifests(apps), Addresses(apps);
    assert ms[j] == a.m && addrs[j] == apps[j].address;
    if a.m.hostNetwork {
      assert Answers(pool', PrivateAddresses(ms, addrs[..j]), Ledger(n.table), ms[j], Ok(addrs[j]));
    } else {
      assert AnyPrivate(ms);
      RenderedAsRemembered(n, apps, j, a, pool);
      TableRemembers(n, n', apps, j, pool);
    }
  }

  /** One step of a run, of any kind: what the node remembers of the app it goes on remembering,
    * no converge stops a unit of it, and nothing of it that runs is lost but to a demotion, a
    * death or a restart. */
  lemma {:induction false} StepSparesApp(n: Node, c: Act, n': Node, a: App, pool: string)
    requires Step(n, c, n') && Remembers(n, a, pool) && Renews(c, a.m)
    ensures Remembers(n', a, pool)
    ensures forall u | u in a.Units() :: u !in Stops(c)
    ensures Gentle(c) ==> forall u | u in a.Units() && u in n.running :: u in n'.running && n'.running[u] == n.running[u]
  {
    match c
    case Converged(_, _, _, _, _) =>
      CompletedSparesApp(n, c, n', a, pool);
    case ConvergeFailed(_, _, _) =>
      FailedSparesApp(n, c, n', a, pool);
    case ConvergeKilled(apps, stops, pool') =>
      var j :| 0 <= j < |apps| && apps[j].m == a.m;
      KilledSparesApp(n, c, n', a, pool, j);
    case _ =>
      OthersSpareApp(n, c, n', a, pool);
  }

  lemma {:induction false} OthersSpareApp(n: Node, c: Act, n': Node, a: App, pool: string)
    requires Step(n, c, n') && Remembers(n, a, pool) && Renews(c, a.m)
    requires !c.Converged? && !c.ConvergeFailed? && !c.ConvergeKilled?
    ensures Remembers(n', a, pool)
    ensures Gentle(c) ==> n'.running == n.running
  {
  }

  lemma {:induction false} RenderedIsNoOrphan(n: Node, apps: seq<App>, j: int, a: App)
    requires 0 <= j < |apps| && apps[j].m == a.m
    ensures forall u | u in a.Units() :: u !in Orphans(n, apps)
  {
    forall u | u in a.Units() ensures u !in Orphans(n, apps) {
      assert Owns(apps, j, u);
      AllUnitsOwned(apps, u);
    }
  }

  // An app whose bytes the record holds is not among the bounced.
  lemma {:induction false} RememberedIsNotBounced(n: Node, apps: seq<App>, j: int, a: App)
    requires DistinctApps(apps) && 0 <= j < |apps| && apps[j].Files() == a.Files() && apps[j].Units() == a.Units()
    requires !a.Touched(n.started)
    ensures forall u | u in a.Units() :: u !in Bounced(n, apps)
  {
    forall u | u in a.Units() && u in Bounced(n, apps) ensures false {
      var k :| 0 <= k < |apps| && !apps[k].skip && apps[k].Touched(n.started) && u in apps[k].Units();
      OneOwner(apps, j, k, u);
      assert false;
    }
  }

  lemma {:induction false} CompletedSparesApp(n: Node, c: Act, n': Node, a: App, pool: string)
    requires Step(n, c, n') && Remembers(n, a, pool) && c.Converged? && Renews(c, a.m)
    ensures Remembers(n', a, pool)
    ensures forall u | u in a.Units() :: u !in c.stops
  {
    var j :| 0 <= j < |c.apps| && c.apps[j].m == a.m && (c.recorded ==> !c.apps[j].skip);
    if a.m.hostNetwork {
      var ms, addrs := Manifests(c.apps), Addresses(c.apps);
      assert ms[j] == a.m && addrs[j] == c.apps[j].address;
      assert Answers(c.pool, PrivateAddresses(ms, addrs[..j]), Ledger(n.table), ms[j], Ok(addrs[j]));
    } else {
      assert AnyPrivate(Manifests(c.apps)) by { assert Manifests(c.apps)[j] == a.m; }
      RenderedAsRemembered(n, c.apps, j, a, pool);
    }
    assert c.apps[j].Files() == a.Files() && c.apps[j].Units() == a.Units();
    assert Within(a.Files(), c.apps[j].Files());
    RecordHoldsIffStarted(c.apps, a);
    TableStillRemembers(n, n', c.apps, j, a, pool, c.pool);
    RenderedIsNoOrphan(n, c.apps, j, a);
    RememberedIsNotBounced(n, c.apps, j, a);
  }

  lemma {:induction false} FailedSparesApp(n: Node, c: Act, n': Node, a: App, pool: string)
    requires Step(n, c, n') && Remembers(n, a, pool) && c.ConvergeFailed? && Renews(c, a.m)
    ensures Remembers(n', a, pool)
    ensures forall u | u in a.Units() :: u !in c.stops
  {
    var j :| 0 <= j < |c.apps| && c.apps[j].m == a.m;
    RenderedIsNoOrphan(n, c.apps, j, a);
  }

  lemma {:induction false} KilledSparesApp(n: Node, c: Act, n': Node, a: App, pool: string, j: int)
    requires Step(n, c, n') && Remembers(n, a, pool) && c.ConvergeKilled?
    requires 0 <= j < |c.apps| && c.apps[j].m == a.m
    ensures Remembers(n', a, pool)
    ensures forall u | u in a.Units() :: u !in c.stops
  {
    RenderedIsNoOrphan(n, c.apps, j, a);
    if Addressed(n, n', c.apps, c.pool) {
      TableStillRemembers(n, n', c.apps, j, a, pool, c.pool);
      RememberedIsNotBounced(n, c.apps, j, a);
    }
  }

  ghost predicate Spares(n: Node, c: Act, n': Node, a: App, pool: string) {
    Remembers(n, a, pool) ==>
      && Remembers(n', a, pool)
      && (forall u | u in a.Units() :: u !in Stops(c))
      && (Gentle(c) ==> forall u | u in a.Units() && u in n.running :: u in n'.running && n'.running[u] == n.running[u])
  }

  lemma {:induction false} RunSpares(nodes: seq<Node>, acts: seq<Act>, x: nat, a: App, pool: string)
    requires Run(nodes, acts) && x < |acts| && Renews(acts[x], a.m)
    ensures Spares(nodes[x], acts[x], nodes[x + 1], a, pool)
  {
    assert StepAt(nodes, acts, x);
    if Remembers(nodes[x], a, pool) {
      StepSparesApp(nodes[x], acts[x], nodes[x + 1], a, pool);
    }
  }

  lemma {:induction false} StaysRemembered(nodes: seq<Node>, acts: seq<Act>, from: nat, to: nat, a: App, pool: string)
    requires |nodes| == |acts| + 1 && from <= to < |nodes|
    requires Remembers(nodes[from], a, pool)
    requires forall x :: from <= x < to ==> Spares(nodes[x], acts[x], nodes[x + 1], a, pool)
    ensures Remembers(nodes[to], a, pool)
  {
    if from < to {
      StaysRemembered(nodes, acts, from, to - 1, a, pool);
      assert Spares(nodes[to - 1], acts[to - 1], nodes[to], a, pool);
    }
  }

  lemma {:induction false} RememberedRunsOn(nodes: seq<Node>, acts: seq<Act>, from: nat, to: nat, a: App, pool: string, u: Unit)
    requires |nodes| == |acts| + 1 && from <= to < |nodes|
    requires Remembers(nodes[from], a, pool)
    requires forall x :: from <= x < to ==> Spares(nodes[x], acts[x], nodes[x + 1], a, pool) && Gentle(acts[x])
    requires u in a.Units() && u in nodes[from].running
    ensures u in nodes[to].running && nodes[to].running[u] == nodes[from].running[u]
  {
    if from < to {
      RememberedRunsOn(nodes, acts, from, to - 1, a, pool, u);
      StaysRemembered(nodes, acts, from, to - 1, a, pool);
      assert Spares(nodes[to - 1], acts[to - 1], nodes[to], a, pool);
    }
  }

  /** ONE APP MUST NOT COST THE OTHERS, over a whole run: once a converge has recorded an app, no
    * later converge, completed, failed or killed, stops a unit of it, for as long as the volume
    * goes on naming its manifest and no completed converge leaves it out of the record; whatever
    * other apps are installed, upgraded, renamed or removed. */
  lemma {:induction false} UnchangedAppIsNeverStopped(nodes: seq<Node>, acts: seq<Act>, k: nat, l: nat, i: int)
    requires Run(nodes, acts) && k < l < |acts|
    requires acts[k].Converged? && acts[k].recorded && PoolDrawn(acts[k])
    requires 0 <= i < |acts[k].apps| && !acts[k].apps[i].skip
    requires forall x :: k < x <= l ==> Renews(acts[x], acts[k].apps[i].m)
    ensures forall u | u in acts[k].apps[i].Units() :: u !in Stops(acts[l])
    ensures Gentle(acts[l]) ==> forall u | u in acts[k].apps[i].Units() && u in nodes[l].running ::
              u in nodes[l + 1].running && nodes[l + 1].running[u] == nodes[l].running[u]
  {
    var a, pool := acts[k].apps[i], acts[k].pool;
    RunRemembers(nodes, acts, k, i);
    forall x | k < x <= l ensures Spares(nodes[x], acts[x], nodes[x + 1], a, pool) {
      RunSpares(nodes, acts, x, a, pool);
    }
    StaysRemembered(nodes, acts, k + 1, l, a, pool);
    assert Spares(nodes[l], acts[l], nodes[l + 1], a, pool);
  }

  lemma {:induction false} RunRemembers(nodes: seq<Node>, acts: seq<Act>, k: nat, i: int)
    requires Run(nodes, acts) && k < |acts|
    requires acts[k].Converged? && acts[k].recorded && PoolDrawn(acts[k])
    requires 0 <= i < |acts[k].apps| && !acts[k].apps[i].skip
    ensures Remembers(nodes[k + 1], acts[k].apps[i], acts[k].pool)
  {
    assert StepAt(nodes, acts, k);
    ConvergeRemembers(nodes[k], acts[k], nodes[k + 1], i);
  }

  /** So its units run on, on the same bytes, until one dies or the node is demoted. */
  lemma {:induction false} UnchangedAppRunsOn(nodes: seq<Node>, acts: seq<Act>, k: nat, l: nat, i: int, u: Unit)
    requires Run(nodes, acts) && k < l < |nodes|
    requires acts[k].Converged? && acts[k].recorded && PoolDrawn(acts[k])
    requires 0 <= i < |acts[k].apps| && !acts[k].apps[i].skip
    requires forall x :: k < x < l ==> Renews(acts[x], acts[k].apps[i].m) && Gentle(acts[x])
    requires u in acts[k].apps[i].Units() && u in nodes[k + 1].running
    ensures u in nodes[l].running && nodes[l].running[u] == nodes[k + 1].running[u]
  {
    var a, pool := acts[k].apps[i], acts[k].pool;
    RunRemembers(nodes, acts, k, i);
    forall x | k < x < l ensures Spares(nodes[x], acts[x], nodes[x + 1], a, pool) && Gentle(acts[x]) {
      RunSpares(nodes, acts, x, a, pool);
    }
    RememberedRunsOn(nodes, acts, k + 1, l, a, pool, u);
  }

  // A step that leaves the record as it is.
  predicate KeepsRecord(a: Act) {
    !a.Rebooted? && (a.Converged? ==> !a.recorded)
  }

  lemma {:induction false} RecordIsKept(nodes: seq<Node>, acts: seq<Act>, from: nat, to: nat)
    requires Run(nodes, acts) && from <= to < |nodes|
    requires forall x :: from <= x < to ==> KeepsRecord(acts[x])
    ensures nodes[to].started == nodes[from].started
  {
    if from < to {
      RecordIsKept(nodes, acts, from, to - 1);
      SameRecord(nodes, acts, to - 1);
    }
  }

  lemma {:induction false} SameRecord(nodes: seq<Node>, acts: seq<Act>, k: nat)
    requires Run(nodes, acts) && k < |acts| && KeepsRecord(acts[k])
    ensures nodes[k + 1].started == nodes[k].started
  {
    assert StepAt(nodes, acts, k);
  }

  /** The exact condition, over a run: converge k is the last that recorded anything, and converge
    * l renders an app and does not skip it. Converge l stops that app's units exactly when no app
    * that k rendered and did not skip has all of its bytes. */
  lemma {:induction false} BouncedIffNotStarted(nodes: seq<Node>, acts: seq<Act>, k: nat, l: nat, j: int, u: Unit)
    requires Run(nodes, acts) && k < l < |acts|
    requires acts[k].Converged? && acts[k].recorded && acts[l].Converged?
    requires forall x :: k < x < l ==> KeepsRecord(acts[x])
    requires Owns(acts[l].apps, j, u) && !acts[l].apps[j].skip
    ensures u in acts[l].stops <==> !Started(acts[k].apps, acts[l].apps[j])
  {
    RecordWritten(nodes, acts, k);
    RecordIsKept(nodes, acts, k + 1, l);
    RecordHoldsIffStarted(acts[k].apps, acts[l].apps[j]);
    BouncedAt(nodes, acts, l, j, u);
  }

  lemma {:induction false} RecordWritten(nodes: seq<Node>, acts: seq<Act>, k: nat)
    requires Run(nodes, acts) && k < |acts| && acts[k].Converged? && acts[k].recorded
    ensures DistinctApps(acts[k].apps) && nodes[k + 1].started == StartedFiles(acts[k].apps)
  {
    assert StepAt(nodes, acts, k);
  }

  lemma {:induction false} BouncedAt(nodes: seq<Node>, acts: seq<Act>, l: nat, j: int, u: Unit)
    requires Run(nodes, acts) && l < |acts| && acts[l].Converged?
    requires Owns(acts[l].apps, j, u) && !acts[l].apps[j].skip
    ensures u in acts[l].stops <==> acts[l].apps[j].Touched(nodes[l].started)
  {
    assert StepAt(nodes, acts, l);
    var b := acts[l];
    BouncedIffNotRecorded(nodes[l], nodes[l + 1], b.apps, b.recorded, b.stops, b.down, j, u);
  }

  // ---------------------------------------------------------------- where the record is lost

  const POD := PodFile("hass")
  const CONTAINER := ContainerFile("hass", "app")

  // A pod that never changes, and one container that carries the version.
  function OneApp(text: string): App {
    App(Manifest("hass", true, "pod", [Container("app", text)]), LOOPBACK, false)
  }

  function Serving(text: string, started: map<File, Body>): Node {
    var a := OneApp(text);
    Node(a.Files(), a.Files(), a.Files(), started, [POD, CONTAINER], [Entry("hass", LOOPBACK)], None)
  }

  /** Losing the record costs more than a needless bounce: a node serves version 1, converges to
    * version 2 without recording it, converges back to version 1, and goes on running version 2. */
  lemma {:induction false} LostRecordServesOldBytes()
    ensures
      var v1, v2 := OneApp("1"), OneApp("2");
      var n1, n2 := Serving("1", v1.Files()), Serving("2", v1.Files());
      var n3 := n2.(disk := v1.Files(), loaded := v1.Files());
      && Agrees(n1)
      && Completed(n1, n2, [v2], false, {POD, CONTAINER}, {})
      && Completed(n2, n3, [v1], true, {}, {})
      && n3.running[CONTAINER] == Body("2", "")
      && !Serves(n3, [v1], {})
  {
    var v1, v2 := OneApp("1"), OneApp("2");
    var n1, n2 := Serving("1", v1.Files()), Serving("2", v1.Files());
    var n3 := n2.(disk := v1.Files(), loaded := v1.Files());
    UpgradeStarts(n1, n2);
    NothingToStart(n2, n3);
  }

  // A converge from version 1 to version 2 bounces the app.
  lemma {:induction false} UpgradeStarts(n: Node, n': Node)
    requires n == Serving("1", OneApp("1").Files()) && n' == Serving("2", OneApp("1").Files())
    ensures Agrees(n) && Completed(n, n', [OneApp("2")], false, {POD, CONTAINER}, {})
  {
    var v1, v2 := OneApp("1"), OneApp("2");
    OneAppFolds(v1);
    OneAppFolds(v2);
    assert "1"[0] != "2"[0];
    assert CONTAINER in v2.Files() && v2.Touched(n.started);
    OneAppCompleted(n, n', v2, false);
  }

  // A completed converge of the one app, both of its units running before and after.
  lemma {:induction false} OneAppCompleted(n: Node, n': Node, a: App, recorded: bool)
    requires a.m.name == "hass" && |a.m.containers| == 1 && a.m.containers[0].name == "app"
    requires UserPart(n.disk) == map[] && n.units == n'.units == [POD, CONTAINER]
    requires n.running.Keys == n'.running.Keys == {POD, CONTAINER}
    requires n'.disk == n'.loaded == a.Files()
    requires n'.started == if !recorded then n.started else if a.skip then map[] else a.Files()
    requires n'.running == if !a.skip && a.Touched(n.started) then a.Files() else n.running
    ensures Completed(n, n', [a], recorded, if !a.skip && a.Touched(n.started) then {POD, CONTAINER} else {}, {})
  {
    OneAppFolds(a);
    assert [a][0] == a;
    assert Orphans(n, [a]) == {};
    if !a.skip && a.Touched(n.started) { WholeAppBounced(n, a); } else { assert Bounced(n, [a]) == {}; }
    OneAppHandled(n, n', a);
  }

  lemma {:induction false} OneAppHandled(n: Node, n': Node, a: App)
    requires a.m.name == "hass" && |a.m.containers| == 1 && a.m.containers[0].name == "app"
    requires n.running.Keys == n'.running.Keys == {POD, CONTAINER}
    requires n'.running == if !a.skip && a.Touched(n.started) then a.Files() else n.running
    ensures forall j, u | Owns([a], j, u) :: HandledAs(n, n', [a], j, u, {})
  {
    OneAppFolds(a);
    forall j, u | Owns([a], j, u) ensures HandledAs(n, n', [a], j, u, {}) {
      assert u in {POD, CONTAINER} && j == 0;
    }
  }

  /** And skipping an app once costs it a bounce: a converge that cannot prepare it leaves it
    * running and out of the record, so the next one, with the same bytes, stops it. */
  lemma {:induction false} SkippedOnceIsBounced()
    ensures
      var a := OneApp("1");
      var n1, n2 := Serving("1", a.Files()), Serving("1", map[]);
      && Completed(n1, n2, [a.(skip := true)], true, {}, {})
      && Completed(n2, n1, [a], true, {POD, CONTAINER}, {})
      && n1.running == n2.running == a.Files()
  {
    var a := OneApp("1");
    var n1, n2 := Serving("1", a.Files()), Serving("1", map[]);
    OneAppFolds(a);
    OneAppFolds(a.(skip := true));
    OneAppCompleted(n1, n2, a.(skip := true), true);
    assert POD in a.Files() && a.Touched(n2.started);
    OneAppCompleted(n2, n1, a, true);
  }

  /** Nor does a true record suffice once systemd restarts a container: version 1 runs and is
    * recorded, an install renders version 2, the container dies and comes back on version 2, the
    * install is undone, and the converge to version 1 finds the record equal and starts nothing. */
  lemma {:induction false} RestartServesUndoneBytes()
    ensures
      var v1, v2 := OneApp("1"), OneApp("2");
      var n1 := Serving("1", v1.Files());
      var n2 := n1.(disk := v2.Files(), loaded := v2.Files());
      var n3 := n2.(running := n1.running - {CONTAINER});
      var n4 := n3.(running := v2.Files());
      var n5 := n4.(disk := v1.Files(), loaded := v1.Files());
      && Agrees(n1)
      && Step(n1, Rendered, n2)
      && Step(n2, UnitsDied, n3)
      && Step(n3, Restarted({CONTAINER}), n4) && !CameBackOnRecord(n3, {CONTAINER})
      && Completed(n4, n5, [v1], true, {}, {})
      && n5.running[CONTAINER] == Body("2", "")
      && !Serves(n5, [v1], {})
  {
    var v1, v2 := OneApp("1"), OneApp("2");
    OneAppFolds(v1);
    OneAppFolds(v2);
    var n1 := Serving("1", v1.Files());
    var n2 := n1.(disk := v2.Files(), loaded := v2.Files());
    var n3 := n2.(running := n1.running - {CONTAINER});
    var n4 := n3.(running := v2.Files());
    assert "1"[0] != "2"[0];
    assert n3.running + (n3.loaded - (n3.loaded.Keys - {CONTAINER})) == n4.running;
    assert CONTAINER in n3.started && n3.loaded[CONTAINER] != n3.started[CONTAINER];
    NothingToStart(n4, n4.(disk := v1.Files(), loaded := v1.Files()));
  }

  lemma {:induction false} WholeAppBounced(n: Node, a: App)
    requires a.m.containers != [] && a.Units() == [POD, CONTAINER] && !a.skip && a.Touched(n.started)
    ensures Bounced(n, [a]) == {POD, CONTAINER}
  {
    assert [a][0] == a;
    assert POD in a.Units() && CONTAINER in a.Units();
  }

  // A converge to version 1 where the record already says version 1 starts nothing.
  lemma {:induction false} NothingToStart(n: Node, n': Node)
    requires
      var v1, v2 := OneApp("1").Files(), OneApp("2").Files();
      && n == Node(v2, v2, v2, v1, [POD, CONTAINER], [Entry("hass", LOOPBACK)], None)
      && n' == n.(disk := v1, loaded := v1)
    ensures Completed(n, n', [OneApp("1")], true, {}, {}) && !Serves(n', [OneApp("1")], {})
    ensures CONTAINER in n'.running && n'.running[CONTAINER] == Body("2", "")
  {
    var v1, v2 := OneApp("1"), OneApp("2");
    OneAppFolds(v1);
    OneAppFolds(v2);
    assert "1"[0] != "2"[0];
    assert [v1][0] == v1;
    assert !v1.Touched(n.started);
    OneAppCompleted(n, n', v1, true);
    assert Owns([v1], 0, CONTAINER) && CONTAINER in n'.running;
    assert n'.running[CONTAINER] != AllFiles([v1])[CONTAINER];
  }

  lemma {:induction false} OneAppFolds(a: App)
    requires a.m.name == "hass" && |a.m.containers| == 1 && a.m.containers[0].name == "app"
    ensures AllFiles([a]) == a.Files() && StartedFiles([a]) == if a.skip then map[] else a.Files()
    ensures a.Units() == [POD, CONTAINER] && AllUnits([a]) == [POD, CONTAINER]
    ensures a.Files() == map[POD := Body(a.m.podText, a.address), CONTAINER := Body(a.m.containers[0].text, "")]
    ensures UserPart(a.Files()) == map[]
  {
    var cs := a.m.containers;
    assert cs[..0] == [] && ContainerFiles("hass", cs[..0]) == map[];
    assert [a][..0] == [];
    assert AllFiles([a][..0]) == map[] && StartedFiles([a][..0]) == map[] && AllUnits([a][..0]) == [];
  }
}
