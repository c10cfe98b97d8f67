/** Converge: a node makes itself run what the replicated volume says (agent/guestagent/converge.go).
  *
  * It works from three memories, all on tmpfs: the record of the bytes it last started, the list
  * of units it started, and the routing table, which is also the address ledger. Other actors
  * change the unit files between its runs, and any run can stop between two commands.
  */
module Converge {
  import opened Options
  import opened PodAddresses

  // ---------------------------------------------------------------- rendering

  // A unit source. Everything the renderer writes carries the app's name; a file a person put
  // beside it does not.
  datatype File = PodFile(app: string) | ContainerFile(app: string, container: string) | UserFile(name: string)

  // The exact bytes of a unit source. The pod's carry the app's address.
  datatype Body = Body(text: string, address: Address)

  // A unit is named after the source it is generated from.
  type Unit = File

  function ContainerFiles(app: string, cs: seq<Container>): map<File, Body> {
    if cs == [] then map[]
    else ContainerFiles(app, cs[..|cs| - 1])[ContainerFile(app, cs[|cs| - 1].name) := Body(cs[|cs| - 1].text, "")]
  }

  /** One app the volume names, rendered at its address. */
  datatype App = App(m: Manifest, address: Address, skip: bool) {

    function Containers(): seq<Unit> {
      seq(|m.containers|, i requires 0 <= i < |m.containers| => ContainerFile(m.name, m.containers[i].name))
    }

    // The pod first: it must exist before its members.
    function Units(): seq<Unit> {
      [PodFile(m.name)] + Containers()
    }

    function Files(): map<File, Body> {
      ContainerFiles(m.name, m.containers)[PodFile(m.name) := Body(m.podText, address)]
    }

    // Some source of this app is not what converge last started.
    predicate Touched(started: map<File, Body>) {
      exists f | f in Files() :: !(f in started && started[f] == Files()[f])
    }
  }

  lemma {:induction false} ContainerFilesAre(app: string, cs: seq<Container>, f: File)
    ensures f in ContainerFiles(app, cs)
        <==> f.ContainerFile? && f.app == app && exists i :: 0 <= i < |cs| && cs[i].name == f.container
  {
    if cs != [] {
      var n := |cs| - 1;
      ContainerFilesAre(app, cs[..n], f);
      if f.ContainerFile? && f.app == app && exists i :: 0 <= i < |cs| && cs[i].name == f.container {
        var i :| 0 <= i < |cs| && cs[i].name == f.container;
        if i < n { assert cs[..n][i].name == f.container; }
      }
    }
  }

  /** An app's units are exactly its sources, and all of them carry its name. */
  lemma {:induction false} UnitIsFile(a: App, u: Unit)
    ensures u in a.Units() <==> u in a.Files()
    ensures u in a.Units() ==> !u.UserFile? && u.app == a.m.name
  {
    ContainerFilesAre(a.m.name, a.m.containers, u);
    if u in a.Files() && u.ContainerFile? {
      var i :| 0 <= i < |a.m.containers| && a.m.containers[i].name == u.container;
      assert a.Containers()[i] == u;
      assert a.Units()[i + 1] == u;
    }
    if u in a.Containers() {
      var i :| 0 <= i < |a.Containers()| && a.Containers()[i] == u;
      assert a.m.containers[i].name == u.container;
    }
    assert PodFile(a.m.name) == a.Units()[0];
  }

  function AllFiles(apps: seq<App>): map<File, Body> {
    if apps == [] then map[] else AllFiles(apps[..|apps| - 1]) + apps[|apps| - 1].Files()
  }

  function AllUnits(apps: seq<App>): seq<Unit> {
    if apps == [] then [] else AllUnits(apps[..|apps| - 1]) + apps[|apps| - 1].Units()
  }

  // What a run records as started: nothing of a skipped app.
  function StartedFiles(apps: seq<App>): map<File, Body> {
    if apps == [] then map[]
    else
      var last := apps[|apps| - 1];
      StartedFiles(apps[..|apps| - 1]) + (if last.skip then map[] else last.Files())
  }

  predicate DistinctApps(apps: seq<App>) {
    forall i, j :: 0 <= i < j < |apps| ==> apps[i].m.name != apps[j].m.name
  }

  predicate Owns(apps: seq<App>, j: int, u: Unit) {
    0 <= j < |apps| && u in apps[j].Units()
  }

  lemma {:induction false} AllUnitsOwned(apps: seq<App>, u: Unit)
    ensures u in AllUnits(apps) <==> exists j :: Owns(apps, j, u)
  {
    if apps != [] {
      var n := |apps| - 1;
      AllUnitsOwned(apps[..n], u);
      assert u in apps[n].Units() ==> Owns(apps, n, u);
      forall j | Owns(apps, j, u) ensures u in AllUnits(apps) {
        assert j < n ==> Owns(apps[..n], j, u);
      }
      if u in AllUnits(apps[..n]) {
        var j :| Owns(apps[..n], j, u);
        assert Owns(apps, j, u);
      }
    }
  }

  /** No unit belongs to two apps. */
  lemma {:induction false} OneOwner(apps: seq<App>, j: int, k: int, u: Unit)
    requires DistinctApps(apps) && Owns(apps, j, u) && Owns(apps, k, u)
    ensures j == k
  {
    UnitIsFile(apps[j], u);
    UnitIsFile(apps[k], u);
  }

  lemma {:induction false} MergedFile(apps: seq<App>, j: int, u: Unit)
    requires DistinctApps(apps) && Owns(apps, j, u)
    ensures u in apps[j].Files()
    ensures u in AllFiles(apps) && AllFiles(apps)[u] == apps[j].Files()[u]
  {
    var n := |apps| - 1;
    UnitIsFile(apps[j], u);
    if j < n {
      assert Owns(apps[..n], j, u);
      MergedFile(apps[..n], j, u);
      UnitIsFile(apps[n], u);
    }
  }

  /** What a run records is exactly the sources of the apps it did not skip. */
  lemma {:induction false} StartedFile(apps: seq<App>, j: int, u: Unit)
    requires DistinctApps(apps) && Owns(apps, j, u)
    ensures u in apps[j].Files()
    ensures u in StartedFiles(apps) <==> !apps[j].skip
    ensures !apps[j].skip ==> StartedFiles(apps)[u] == apps[j].Files()[u]
  {
    var n := |apps| - 1;
    UnitIsFile(apps[j], u);
    UnitIsFile(apps[n], u);
    if j < n {
      assert Owns(apps[..n], j, u);
      StartedFile(apps[..n], j, u);
    } else if u in StartedFiles(apps[..n]) {
      StartedIsOwned(apps[..n], u);
      var k :| Owns(apps[..n], k, u);
      OneOwner(apps, k, j, u);
    }
  }

  lemma {:induction false} StartedIsOwned(apps: seq<App>, u: Unit)
    requires u in StartedFiles(apps)
    ensures exists j :: Owns(apps, j, u)
  {
    var n := |apps| - 1;
    UnitIsFile(apps[n], u);
    if u in apps[n].Files() {
      assert Owns(apps, n, u);
    } else {
      StartedIsOwned(apps[..n], u);
      var j :| Owns(apps[..n], j, u);
      assert Owns(apps, j, u);
    }
  }

  lemma {:induction false} FilesAreUnits(apps: seq<App>, f: File)
    ensures f in AllFiles(apps) <==> f in AllUnits(apps)
    ensures f in AllFiles(apps) ==> !f.UserFile?
  {
    if apps != [] {
      FilesAreUnits(apps[..|apps| - 1], f);
      UnitIsFile(apps[|apps| - 1], f);
    }
  }

  // ---------------------------------------------------------------- the node

  datatype Node = Node(
    disk: map<File, Body>,      // the unit sources
    loaded: map<File, Body>,    // the sources as systemd last read them
    running: map<Unit, Body>,   // every active app unit, and the bytes it was started from
    started: map<File, Body>,   // the started-bytes record; empty when there is none
    units: seq<Unit>,           // the started-units list; empty when there is none
    table: seq<Entry>,          // the routing table; empty when there is none
    network: Option<string>)    // the pool the pod network was created on

  predicate Same(a: map<Unit, Body>, b: map<Unit, Body>, u: Unit) {
    (u in a <==> u in b) && (u in a ==> a[u] == b[u])
  }

  predicate Within(a: map<Unit, Body>, b: map<Unit, Body>) {
    forall u | u in a :: u in b && a[u] == b[u]
  }

  /** The record never lies about a unit that is running. */
  predicate Agrees(n: Node) {
    forall u | u in n.running && u in n.started :: n.running[u] == n.started[u]
  }

  /** Everything running is on the list ConvergeStop stops. */
  predicate Covered(n: Node) {
    forall u | u in n.running :: u in n.units
  }

  function UserPart(disk: map<File, Body>): map<File, Body> {
    disk - (set f | f in disk && !f.UserFile?)
  }

  // What the previous run started and this one no longer renders.
  function Orphans(n: Node, apps: seq<App>): set<Unit> {
    set u | u in n.units && u !in AllUnits(apps)
  }

  // The units of every app whose bytes changed, skipped apps aside.
  function Bounced(n: Node, apps: seq<App>): set<Unit> {
    set j, u | 0 <= j < |apps| && !apps[j].skip && apps[j].Touched(n.started) && u in apps[j].Units() :: u
  }

  function Bounce(a: App, n: Node): set<Unit> {
    if a.skip || !a.Touched(n.started) then {} else set u | u in a.Units()
  }

  // ---------------------------------------------------------------- the guest a run acts on

  // Unread: the volume would not read, parse or address, and nothing was touched.
  datatype Outcome = Done(recorded: bool) | Failed | Unread

  // What a run does for an app before it starts any: its images made resident, and then its own
  // preparation, which may fail.
  datatype Deed = Warmed(app: string) | Prepared(app: string, ok: bool)

  class Guest {
    var node: Node
    var deeds: seq<Deed>      // of the current run, in order
    var crashed: bool         // this run has stopped: nothing it would do next happens
    var stopped: set<Unit>    // every unit the current run asked a stop of
    var down: set<Unit>       // the units the current run's last start of did not bring up
    var failures: nat         // commands that did not do what they were asked
    var unlisted: nat         // listings of the volume that failed, and were read as nothing there

    /** One command that changes a file, systemd's view, or the network: it lands whole, it
      * fails and changes nothing, or the run stops before it. */
    method Command(next: Node) returns (ok: bool)
      modifies `node, `crashed, `failures
      ensures old(crashed) ==> crashed
      ensures crashed ==> !ok
      ensures node == if ok then next else old(node)
      ensures failures == old(failures) + if ok then 0 else 1
    {
      var fate: bool := *;
      var crash: bool := *;
      crashed := crashed || crash;
      ok := fate && !crashed;
      if ok {
        node := next;
      } else {
        failures := failures + 1;
      }
    }

    method Warm(app: string) returns (ok: bool)
      modifies `node, `crashed, `failures, `deeds
      ensures old(crashed) ==> crashed
      ensures crashed ==> !ok
      ensures node == old(node)
      ensures failures == old(failures) + if ok then 0 else 1
      ensures deeds == if ok then old(deeds) + [Warmed(app)] else old(deeds)
    {
      ok := Command(node);
      if ok { deeds := deeds + [Warmed(app)]; }
    }

    method PrepareApp(app: string) returns (ok: bool)
      modifies `node, `crashed, `failures, `deeds
      ensures old(crashed) ==> crashed
      ensures crashed ==> !ok
      ensures node == old(node)
      ensures failures == old(failures) + if ok then 0 else 1
      ensures deeds == old(deeds) + [Prepared(app, ok)]
    {
      ok := Command(node);
      deeds := deeds + [Prepared(app, ok)];
    }

    method List() returns (ok: bool)
      modifies `unlisted
      ensures unlisted == old(unlisted) + if ok then 0 else 1
    {
      ok := *;
      if !ok { unlisted := unlisted + 1; }
    }

    /** A stop that is reached takes effect. */
    method Stop(u: Unit)
      modifies `node, `crashed, `stopped
      ensures old(crashed) ==> crashed
      ensures crashed ==> node == old(node) && stopped == old(stopped)
      ensures !crashed ==> node == old(node).(running := old(node).running - {u}) && stopped == old(stopped) + {u}
    {
      var crash: bool := *;
      crashed := crashed || crash;
      if !crashed {
        node := node.(running := node.running - {u});
        stopped := stopped + {u};
      }
    }

    /** Starting an active unit does nothing; an inactive one starts from the source systemd
      * last read, or fails to, which is noted. */
    method Start(u: Unit)
      modifies `node, `crashed, `down
      ensures old(crashed) ==> crashed
      ensures crashed ==> node == old(node) && down == old(down)
      ensures node == old(node)
           || (!crashed && u !in old(node).running && u in old(node).loaded
               && node == old(node).(running := old(node).running[u := old(node).loaded[u]]))
      ensures down - {u} == old(down) - {u}
      ensures !crashed ==> (u in node.running <==> u !in down)
    {
      var fate: bool := *;
      var crash: bool := *;
      crashed := crashed || crash;
      if crashed { return; }
      if fate && u !in node.running && u in node.loaded {
        node := node.(running := node.running[u := node.loaded[u]]);
      }
      down := if u in node.running then down - {u} else down + {u};
    }
  }

  // ---------------------------------------------------------------- what the volume names

  // Corrupt: it cannot be read, does not parse, or does not render.
  datatype Content = Corrupt | Readable(m: Manifest)

  // An app's manifest files: the accepted one, and the one a pending install staged.
  datatype Doc = Doc(name: string, accepted: Option<Content>, staged: Option<Content>)

  // The content a run renders for one app: nothing for an install it was not told is live.
  function Chosen(d: Doc, live: string): Option<Content> {
    if d.staged.Some? then (if d.name == live then d.staged else None) else d.accepted
  }

  ghost predicate Selects(volume: seq<Doc>, live: string, ms: seq<Manifest>) {
    if volume == [] then ms == []
    else
      var rest := volume[..|volume| - 1];
      match Chosen(volume[|volume| - 1], live)
      case None => Selects(rest, live, ms)
      case Some(Corrupt) => false
      case Some(Readable(m)) => |ms| > 0 && ms[|ms| - 1] == m && Selects(rest, live, ms[..|ms| - 1])
  }

  predicate AnyCorrupt(volume: seq<Doc>, live: string) {
    exists i :: 0 <= i < |volume| && Chosen(volume[i], live) == Some(Corrupt)
  }

  method ReadVolume(volume: seq<Doc>, live: string) returns (r: Option<seq<Manifest>>)
    ensures r.Some? ==> Selects(volume, live, r.value)
    ensures r.None? ==> AnyCorrupt(volume, live)
  {
    var ms: seq<Manifest> := [];
    for i := 0 to |volume|
      invariant Selects(volume[..i], live, ms)
    {
      assert volume[..i + 1][..i] == volume[..i];
      match Chosen(volume[i], live) {
        case None =>
        case Some(Corrupt) => return None;
        case Some(Readable(m)) =>
          assert (ms + [m])[..|ms|] == ms;
          ms := ms + [m];
      }
    }
    assert volume[..|volume|] == volume;
    return Some(ms);
  }

  /** What is read of a volume is one list of manifests, or none when a chosen one is corrupt. */
  lemma {:induction false} SelectsOnce(volume: seq<Doc>, live: string, ms: seq<Manifest>, ms': seq<Manifest>)
    requires Selects(volume, live, ms)
    ensures !AnyCorrupt(volume, live)
    ensures Selects(volume, live, ms') ==> ms' == ms
  {
    if volume != [] {
      var n := |volume| - 1;
      var rest := volume[..n];
      var none := Chosen(volume[n], live).None?;
      var before := if none then ms else ms[..|ms| - 1];
      var before' := if none || ms' == [] then ms' else ms'[..|ms'| - 1];
      SelectsOnce(rest, live, before, before');
      forall i | 0 <= i < |volume| ensures Chosen(volume[i], live) != Some(Corrupt) {
        assert i < n ==> rest[i] == volume[i];
      }
      if Selects(volume, live, ms') && !none {
        assert ms == before + [ms[|ms| - 1]] && ms' == before' + [ms'[|ms'| - 1]];
      }
    }
  }

  // ---------------------------------------------------------------- what its listings show

  // The directory is listed twice, for the accepted manifests and for the staged ones, and a listing
  // that fails is read as one that names nothing.
  function Seen(volume: seq<Doc>, named: bool, held: bool): (s: seq<Doc>)
    ensures |s| == |volume|
    ensures forall i :: 0 <= i < |s| ==>
      s[i] == Doc(volume[i].name, if named then volume[i].accepted else None, if held then volume[i].staged else None)
  {
    seq(|volume|, i requires 0 <= i < |volume| =>
      Doc(volume[i].name, if named then volume[i].accepted else None, if held then volume[i].staged else None))
  }

  method ListVolume(g: Guest, volume: seq<Doc>) returns (seen: seq<Doc>, ghost named: bool, ghost held: bool)
    modifies g`unlisted
    ensures seen == Seen(volume, named, held)
    ensures g.unlisted == old(g.unlisted) + (if named then 0 else 1) + (if held then 0 else 1)
  {
    var names := g.List();
    var staged := g.List();
    named, held := names, staged;
    seen := Seen(volume, names, staged);
  }

  // What a failed listing hides of an app makes no difference: of an app with nothing staged, no
  // manifest; of the live install, no manifest but one equal to the accepted; of another app with
  // an install staged, no accepted manifest.
  predicate Unhidden(d: Doc, live: string, named: bool, held: bool) {
    if d.staged.None? then named || d.accepted.None?
    else if d.name == live then held || (named && d.accepted == d.staged)
    else held || !named || d.accepted.None?
  }

  /** The run chooses what the volume says for an app exactly when nothing that matters was hidden. */
  lemma {:induction false} ChosenRightIff(volume: seq<Doc>, live: string, named: bool, held: bool, i: nat)
    requires i < |volume|
    ensures Chosen(Seen(volume, named, held)[i], live) == Chosen(volume[i], live) <==> Unhidden(volume[i], live, named, held)
  {
    assert Seen(volume, named, held)[i].name == volume[i].name;
  }

  /** With nothing hidden the manifests rendered are the volume's. */
  lemma {:induction false} SelectsAsSeen(volume: seq<Doc>, live: string, named: bool, held: bool, ms: seq<Manifest>)
    requires forall i | 0 <= i < |volume| :: Unhidden(volume[i], live, named, held)
    ensures Selects(Seen(volume, named, held), live, ms) <==> Selects(volume, live, ms)
  {
    if volume != [] {
      var n := |volume| - 1;
      ChosenRightIff(volume, live, named, held, n);
      assert Seen(volume, named, held)[..n] == Seen(volume[..n], named, held);
      SelectsAsSeen(volume[..n], live, named, held, if Chosen(volume[n], live).None? || ms == [] then ms else ms[..|ms| - 1]);
    }
  }

  /** Without the accepted manifests' listing nothing is rendered but the live install. */
  lemma {:induction false} UnnamedRendersNothing(volume: seq<Doc>, live: string, held: bool, ms: seq<Manifest>)
    requires Selects(Seen(volume, false, held), live, ms)
    requires forall d | d in volume :: d.name == live ==> d.staged.None?
    ensures ms == []
  {
    if volume != [] {
      var n := |volume| - 1;
      assert volume[n] in volume;
      assert Seen(volume, false, held)[..n] == Seen(volume[..n], false, held);
      UnnamedRendersNothing(volume[..n], live, held, ms);
    }
  }

  /** Without the staged manifests' listing every accepted manifest is rendered, that of an app whose
    * install was never accepted too. */
  lemma {:induction false} UnheldRendersEveryAccepted(volume: seq<Doc>, live: string, ms: seq<Manifest>, i: nat)
    requires Selects(Seen(volume, true, false), live, ms)
    requires i < |volume| && volume[i].accepted.Some?
    ensures volume[i].accepted.value.Readable? && volume[i].accepted.value.m in ms
    decreases |volume|
  {
    var n := |volume| - 1;
    var seen := Seen(volume, true, false);
    assert seen[..n] == Seen(volume[..n], true, false);
    if i < n {
      UnheldRendersEveryAccepted(volume[..n], live, if Chosen(seen[n], live).None? then ms else ms[..|ms| - 1], i);
    }
  }

  /** A document is kept under its app's name: no two of a volume name one app. */
  ghost predicate OwnNames(volume: seq<Doc>) {
    forall i, j, m, m' | 0 <= i < j < |volume| && Keeps(volume[i], m) && Keeps(volume[j], m') :: m.name != m'.name
  }

  predicate Keeps(d: Doc, m: Manifest) {
    d.accepted == Some(Readable(m)) || d.staged == Some(Readable(m))
  }

  lemma {:induction false} SeenIsDistinct(volume: seq<Doc>, live: string, named: bool, held: bool)
    requires OwnNames(volume)
    ensures DistinctDocs(Seen(volume, named, held), live)
  {
    var seen := Seen(volume, named, held);
    forall i, j, m, m' |
      && 0 <= i < j < |seen|
      && Chosen(seen[i], live) == Some(Readable(m))
      && Chosen(seen[j], live) == Some(Readable(m'))
      ensures m.name != m'.name
    {
      assert Keeps(volume[i], m) && Keeps(volume[j], m');
    }
  }

  // ---------------------------------------------------------------- the parts of a run

  // Nothing that was running is lost but what the run asked a stop of.
  predicate Kept(n: Node, n': Node, stops: set<Unit>) {
    forall u | u in n.running :: u in stops || (u in n'.running && n'.running[u] == n.running[u])
  }

  /** Stops the listed units that are not rendered, last first, and no other. */
  method StopUnrendered(g: Guest, units: seq<Unit>) returns (ghost gone: set<Unit>)
    modifies g`node, g`crashed, g`stopped
    ensures old(g.crashed) ==> g.crashed
    ensures g.node == old(g.node).(running := old(g.node).running - gone)
    ensures g.stopped == old(g.stopped) + gone
    ensures gone <= set u | u in old(g.node).units && u !in units
    ensures !g.crashed ==> gone == set u | u in old(g.node).units && u !in units
  {
    var prev := g.node.units;
    var i := |prev|;
    gone := {};
    while i > 0
      invariant 0 <= i <= |prev|
      invariant old(g.crashed) ==> g.crashed
      invariant g.node == old(g.node).(running := old(g.node).running - gone)
      invariant g.stopped == old(g.stopped) + gone
      invariant gone <= set u | u in prev[i..] && u !in units
      invariant !g.crashed ==> gone == set u | u in prev[i..] && u !in units
    {
      i := i - 1;
      assert prev[i..] == [prev[i]] + prev[i + 1..];
      if prev[i] !in units {
        g.Stop(prev[i]);
        gone := if g.crashed then gone else gone + {prev[i]};
      }
    }
  }

  // Only files carrying the renderer's prefix are candidates: a person's own stay.
  method RemoveOrphanSources(g: Guest, files: map<File, Body>) returns (ok: bool)
    modifies g`node, g`crashed, g`failures
    ensures old(g.crashed) ==> g.crashed
    ensures g.crashed ==> !ok
    ensures g.failures >= old(g.failures)
    ensures g.node == old(g.node).(disk := g.node.disk)
    ensures UserPart(g.node.disk) == UserPart(old(g.node).disk)
    ensures ok ==> forall f | f in g.node.disk && !f.UserFile? :: f in files
    ensures !ok ==> g.failures > old(g.failures)
  {
    ok := g.Command(g.node); // list the directory
    if !ok { return; }
    var listing := set f | f in g.node.disk && !f.UserFile? && f !in files;
    while listing != {}
      invariant !g.crashed && ok
      invariant g.failures >= old(g.failures)
      invariant g.node == old(g.node).(disk := g.node.disk)
      invariant UserPart(g.node.disk) == UserPart(old(g.node).disk)
      invariant forall f | f in listing :: !f.UserFile?
      invariant forall f | f in g.node.disk && !f.UserFile? && f !in files :: f in listing
      decreases listing
    {
      var f :| f in listing;
      listing := listing - {f};
      assert UserPart(g.node.disk - {f}) == UserPart(g.node.disk);
      ok := g.Command(g.node.(disk := g.node.disk - {f}));
      if !ok { return; }
    }
  }

  // Changed against what converge last started, never against what is on disk.
  predicate Changed(started: map<File, Body>, files: map<File, Body>, f: File) {
    f in files && !(f in started && started[f] == files[f])
  }

  method WriteSources(g: Guest, files: map<File, Body>) returns (ok: bool, changed: set<File>)
    requires forall f | f in files :: !f.UserFile?
    requires !g.crashed
    modifies g`node, g`crashed, g`failures
    ensures g.crashed ==> !ok
    ensures g.failures >= old(g.failures)
    ensures g.node == old(g.node).(disk := g.node.disk)
    ensures UserPart(g.node.disk) == UserPart(old(g.node).disk)
    ensures ok ==> g.node.disk == old(g.node).disk + files
    ensures !ok ==> g.failures > old(g.failures)
    ensures ok ==> forall f :: f in changed <==> Changed(g.node.started, files, f)
  {
    changed := {};
    ok := true;
    ghost var node0 := g.node;
    var todo := files.Keys;
    while ok && todo != {}
      invariant g.crashed ==> !ok
      invariant g.failures >= old(g.failures) && (!ok ==> g.failures > old(g.failures))
      invariant g.node == node0.(disk := g.node.disk)
      invariant todo <= files.Keys
      invariant ok ==> forall f | f in files && f !in todo :: f in g.node.disk && g.node.disk[f] == files[f]
      invariant forall f :: f !in files || f in todo ==> Same(node0.disk, g.node.disk, f)
      invariant forall f :: f in changed <==> f !in todo && Changed(node0.started, files, f)
      decreases todo
    {
      var f :| f in todo;
      todo := todo - {f};
      if Changed(g.node.started, files, f) {
        changed := changed + {f};
      }
      ok := g.Command(g.node.(disk := g.node.disk[f := files[f]]));
    }
    SameUserPart(node0.disk, g.node.disk);
    if ok { assert g.node.disk == node0.disk + files; }
  }

  lemma {:induction false} SameUserPart(a: map<File, Body>, b: map<File, Body>)
    requires forall f: File :: f.UserFile? ==> Same(a, b, f)
    ensures UserPart(a) == UserPart(b)
  {
    forall f | f in UserPart(a) ensures f in UserPart(b) && UserPart(a)[f] == UserPart(b)[f] { assert Same(a, b, f); }
    forall f | f in UserPart(b) ensures f in UserPart(a) { assert Same(a, b, f); }
  }

  /** Unit sources the run did not render go, the rendered ones are written, systemd reads them. */
  method WriteUnits(g: Guest, files: map<File, Body>) returns (ok: bool, changed: set<File>)
    requires forall f | f in files :: !f.UserFile?
    modifies g`node, g`crashed, g`failures
    ensures old(g.crashed) ==> g.crashed
    ensures g.crashed ==> !ok
    ensures g.failures >= old(g.failures)
    ensures g.node == old(g.node).(disk := g.node.disk, loaded := g.node.loaded)
    ensures UserPart(g.node.disk) == UserPart(old(g.node).disk)
    ensures ok ==> g.node.disk == UserPart(old(g.node).disk) + files && g.node.loaded == g.node.disk
    ensures !ok ==> g.failures > old(g.failures)
    ensures ok ==> forall f :: f in changed <==> Changed(g.node.started, files, f)
  {
    changed := {};
    ok := RemoveOrphanSources(g, files);
    if !ok { return; }
    ghost var disk1 := g.node.disk;
    ok, changed := WriteSources(g, files);
    if !ok { return; }
    assert disk1 + files == UserPart(disk1) + files;
    ok := g.Command(g.node.(loaded := g.node.disk)); // daemon-reload
  }

  /** An app's containers, last first, then its pod: its own units and no other. */
  method StopApp(g: Guest, a: App) returns (ghost gone: set<Unit>)
    modifies g`node, g`crashed, g`stopped
    ensures old(g.crashed) ==> g.crashed
    ensures g.node == old(g.node).(running := old(g.node).running - gone)
    ensures g.stopped == old(g.stopped) + gone
    ensures gone <= set u | u in a.Units()
    ensures !g.crashed ==> gone == set u | u in a.Units()
  {
    var cs := a.Containers();
    var i := |cs|;
    gone := {};
    while i > 0
      invariant 0 <= i <= |cs|
      invariant old(g.crashed) ==> g.crashed
      invariant g.node == old(g.node).(running := old(g.node).running - gone)
      invariant g.stopped == old(g.stopped) + gone
      invariant gone <= set u | u in cs[i..]
      invariant !g.crashed ==> gone == set u | u in cs[i..]
    {
      i := i - 1;
      assert cs[i..] == [cs[i]] + cs[i + 1..];
      g.Stop(cs[i]);
      gone := if g.crashed then gone else gone + {cs[i]};
    }
    assert cs[0..] == cs;
    g.Stop(PodFile(a.m.name));
    gone := if g.crashed then gone else gone + {PodFile(a.m.name)};
  }

  /** Every unit of the app, the pod first: each ends up running or noted as down. */
  method StartApp(g: Guest, a: App)
    modifies g`node, g`crashed, g`down
    ensures old(g.crashed) ==> g.crashed
    ensures g.node == old(g.node).(running := g.node.running)
    ensures Within(old(g.node).running, g.node.running)
    ensures forall u | u in g.node.running && u !in old(g.node).running ::
              u in a.Units() && u in g.node.loaded && g.node.running[u] == g.node.loaded[u]
    ensures forall u :: u !in a.Units() ==> (u in g.down <==> u in old(g.down))
    ensures !g.crashed ==> forall u | u in a.Units() :: u in g.node.running <==> u !in g.down
  {
    var us := a.Units();
    for i := 0 to |us|
      invariant old(g.crashed) ==> g.crashed
      invariant g.node == old(g.node).(running := g.node.running)
      invariant Within(old(g.node).running, g.node.running)
      invariant forall u | u in g.node.running && u !in old(g.node).running ::
                  u in us && u in g.node.loaded && g.node.running[u] == g.node.loaded[u]
      invariant forall u :: u !in us ==> (u in g.down <==> u in old(g.down))
      invariant !g.crashed ==> forall u | u in us[..i] :: u in g.node.running <==> u !in g.down
    {
      ghost var was := g.down;
      g.Start(us[i]);
      assert forall u :: u != us[i] ==> (u in g.down <==> u in g.down - {us[i]}) && (u in was <==> u in was - {us[i]});
      assert us[..i + 1] == us[..i] + [us[i]];
    }
    assert us[..|us|] == us;
  }

  // What handling an app may have done to the running units, wherever it stopped.
  predicate Mixed(n: Node, n': Node, units: seq<Unit>) {
    forall u | u in n'.running ::
      || (u in n.running && n'.running[u] == n.running[u])
      || (u in units && u in n.loaded && n'.running[u] == n.loaded[u])
  }

  // What it has done to one unit of an app it has handled: it runs, unless a start of it failed.
  predicate Handled(n: Node, n': Node, a: App, u: Unit, down: set<Unit>) {
    if a.skip then Same(n.running, n'.running, u) && u !in down
    else
      && (u in n'.running <==> u !in down)
      && (if u in n.running && !a.Touched(n.started) then u in n'.running && n'.running[u] == n.running[u]
          else u in n'.running ==> u in n.loaded && n'.running[u] == n.loaded[u])
  }

  method HandleApp(g: Guest, a: App, touched: bool) returns (ghost gone: set<Unit>)
    requires touched == a.Touched(g.node.started)
    requires forall u | u in a.Units() :: u !in g.down
    modifies g`node, g`crashed, g`stopped, g`down
    ensures old(g.crashed) ==> g.crashed
    ensures g.node == old(g.node).(running := g.node.running)
    ensures Mixed(old(g.node), g.node, a.Units()) && Kept(old(g.node), g.node, gone)
    ensures forall u :: u !in a.Units() ==> Same(old(g.node).running, g.node.running, u)
    ensures forall u :: u !in a.Units() ==> (u in g.down <==> u in old(g.down))
    ensures !g.crashed ==> forall u | u in a.Units() :: Handled(old(g.node), g.node, a, u, g.down)
    ensures g.stopped == old(g.stopped) + gone
    ensures gone <= Bounce(a, old(g.node))
    ensures !g.crashed ==> gone == Bounce(a, old(g.node))
  {
    gone := {};
    if a.skip {
      return;
    }
    if touched {
      gone := StopApp(g, a);
    }
    StartApp(g, a);
  }

  // The start loop after i apps.
  ghost predicate HandledUpTo(n: Node, n': Node, apps: seq<App>, i: int, down: set<Unit>)
    requires 0 <= i <= |apps|
  {
    && (forall j, u | 0 <= j < i && Owns(apps, j, u) :: Handled(n, n', apps[j], u, down))
    && (forall u :: u !in AllUnits(apps[..i]) ==> Same(n.running, n'.running, u))
    && DownOf(down, apps[..i])
  }

  // Only units of these apps are down.
  ghost predicate DownOf(down: set<Unit>, apps: seq<App>) {
    forall u | u in down :: u in AllUnits(apps)
  }

  lemma {:induction false} NoneDownYet(down: set<Unit>, apps: seq<App>, i: int)
    requires DistinctApps(apps) && 0 <= i < |apps| && DownOf(down, apps[..i])
    ensures forall u | u in apps[i].Units() :: u !in down
  {
    forall u | u in apps[i].Units() ensures u !in AllUnits(apps[..i]) { NotBefore(apps, i, u); }
  }

  lemma {:induction false} NotBefore(apps: seq<App>, i: int, u: Unit)
    requires DistinctApps(apps) && Owns(apps, i, u)
    ensures u !in AllUnits(apps[..i])
  {
    AllUnitsOwned(apps[..i], u);
    forall k | 0 <= k < i ensures !Owns(apps[..i], k, u) { OtherOwner(apps, i, k, u); }
  }

  lemma {:induction false} OtherOwner(apps: seq<App>, j: int, k: int, u: Unit)
    requires DistinctApps(apps) && Owns(apps, j, u) && 0 <= k < |apps| && k != j
    ensures !Owns(apps, k, u)
  {
    UnitIsFile(apps[j], u);
    UnitIsFile(apps[k], u);
  }

  lemma {:induction false} DownOneMore(was: set<Unit>, down: set<Unit>, apps: seq<App>, i: int)
    requires 0 <= i < |apps| && DownOf(was, apps[..i])
    requires forall u :: u !in apps[i].Units() ==> (u in down <==> u in was)
    ensures DownOf(down, apps[..i + 1])
  {
    assert apps[..i + 1][..i] == apps[..i];
  }

  lemma {:induction false} HandledOneMore(n: Node, m: Node, n': Node, apps: seq<App>, i: int, was: set<Unit>, down: set<Unit>)
    requires DistinctApps(apps) && 0 <= i < |apps|
    requires HandledUpTo(n, m, apps, i, was)
    requires m == n.(running := m.running) && n' == n.(running := n'.running)
    requires forall u :: u !in apps[i].Units() ==> Same(m.running, n'.running, u) && (u in down <==> u in was)
    requires forall u | u in apps[i].Units() :: Handled(m, n', apps[i], u, down)
    ensures HandledUpTo(n, n', apps, i + 1, down)
  {
    assert apps[..i + 1][..i] == apps[..i];
    DownOneMore(was, down, apps, i);
    forall j, u | 0 <= j < i + 1 && Owns(apps, j, u) ensures Handled(n, n', apps[j], u, down) {
      if j < i {
        OtherOwner(apps, j, i, u);
        assert Handled(n, m, apps[j], u, was);
      } else {
        NotBefore(apps, i, u);
        assert Handled(m, n', apps[i], u, down);
      }
    }
  }

  lemma {:induction false} MixedOneMore(n: Node, m: Node, n': Node, apps: seq<App>, i: int)
    requires 0 <= i < |apps|
    requires Mixed(n, m, AllUnits(apps[..i])) && Mixed(m, n', apps[i].Units()) && m.loaded == n.loaded
    ensures Mixed(n, n', AllUnits(apps[..i + 1]))
  {
    assert apps[..i + 1][..i] == apps[..i];
  }

  method StartAll(g: Guest, apps: seq<App>, changed: set<File>) returns (ghost gone: set<Unit>)
    requires DistinctApps(apps)
    requires forall j | 0 <= j < |apps| :: apps[j].Touched(g.node.started) <==> exists f | f in apps[j].Files() :: f in changed
    requires g.down == {}
    modifies g`node, g`crashed, g`stopped, g`down
    ensures old(g.crashed) ==> g.crashed
    ensures g.node == old(g.node).(running := g.node.running)
    ensures Mixed(old(g.node), g.node, AllUnits(apps)) && Kept(old(g.node), g.node, gone)
    ensures !g.crashed ==> HandledUpTo(old(g.node), g.node, apps, |apps|, g.down)
    ensures g.stopped == old(g.stopped) + gone
    ensures gone <= Bounced(old(g.node), apps)
    ensures !g.crashed ==> gone == Bounced(old(g.node), apps)
  {
    ghost var n := g.node;
    gone := {};
    for i := 0 to |apps|
      invariant old(g.crashed) ==> g.crashed
      invariant g.node == n.(running := g.node.running)
      invariant Mixed(n, g.node, AllUnits(apps[..i])) && Kept(n, g.node, gone)
      invariant DownOf(g.down, apps[..i])
      invariant !g.crashed ==> HandledUpTo(n, g.node, apps, i, g.down)
      invariant g.stopped == old(g.stopped) + gone
      invariant gone <= Bounced(n, apps[..i])
      invariant !g.crashed ==> gone == Bounced(n, apps[..i])
    {
      ghost var m, was, down := g.node, gone, g.down;
      NoneDownYet(down, apps, i);
      ghost var more := HandleApp(g, apps[i], exists f | f in apps[i].Files() :: f in changed);
      gone := gone + more;
      MixedOneMore(n, m, g.node, apps, i);
      KeptOneMore(n, m, g.node, was, more);
      BouncedOne(n, m, apps, i);
      DownOneMore(down, g.down, apps, i);
      if !g.crashed {
        HandledOneMore(n, m, g.node, apps, i, down, g.down);
      }
    }
    assert apps[..|apps|] == apps;
  }

  lemma {:induction false} KeptOneMore(n: Node, m: Node, n': Node, a: set<Unit>, b: set<Unit>)
    requires Kept(n, m, a) && Kept(m, n', b)
    ensures Kept(n, n', a + b)
  {
  }

  lemma {:induction false} BouncedOne(n: Node, m: Node, apps: seq<App>, i: int)
    requires 0 <= i < |apps| && m.started == n.started
    ensures Bounced(n, apps[..i + 1]) == Bounced(n, apps[..i]) + Bounce(apps[i], m)
  {
    var more := Bounce(apps[i], m);
    forall u ensures u in Bounced(n, apps[..i + 1]) <==> u in Bounced(n, apps[..i]) + more {
      if u in Bounced(n, apps[..i + 1]) {
        var j :| 0 <= j < i + 1 && !apps[j].skip && apps[j].Touched(n.started) && u in apps[j].Units();
        if j < i { assert apps[..i][j] == apps[j]; }
      }
      if u in Bounced(n, apps[..i]) {
        var j :| 0 <= j < i && !apps[j].skip && apps[j].Touched(n.started) && u in apps[j].Units();
        assert apps[..i + 1][j] == apps[j];
      }
      if u in more { assert apps[..i + 1][i] == apps[i]; }
    }
  }

  // ---------------------------------------------------------------- the whole run

  /** What a run that completed did. Every unit of every app it did not skip runs, but for those a
    * start of failed. */
  ghost predicate Completed(n: Node, n': Node, apps: seq<App>, recorded: bool, stops: set<Unit>, down: set<Unit>) {
    && DistinctApps(apps)
    && n'.units == AllUnits(apps)
    && n'.disk == UserPart(n.disk) + AllFiles(apps)
    && n'.loaded == n'.disk
    && n'.started == (if recorded then StartedFiles(apps) else n.started)
    && stops == Orphans(n, apps) + Bounced(n, apps)
    && (forall j, u | Owns(apps, j, u) :: HandledAs(n, n', apps, j, u, down))
    && (forall u | u !in AllUnits(apps) :: if u in n.units then u !in n'.running else Same(n.running, n'.running, u))
  }

  ghost predicate HandledAs(n: Node, n': Node, apps: seq<App>, j: int, u: Unit, down: set<Unit>)
    requires Owns(apps, j, u)
  {
    if apps[j].skip then Same(n.running, n'.running, u) && u !in down
    else
      && (u in n'.running <==> u !in down)
      && (if u in n.running && !apps[j].Touched(n.started) then u in n'.running && n'.running[u] == n.running[u]
          else u in n'.running ==> u in AllFiles(apps) && n'.running[u] == AllFiles(apps)[u])
  }

  function Manifests(apps: seq<App>): seq<Manifest> {
    seq(|apps|, i requires 0 <= i < |apps| => apps[i].m)
  }

  function Addresses(apps: seq<App>): seq<Address> {
    seq(|apps|, i requires 0 <= i < |apps| => apps[i].address)
  }

  predicate AnyPrivate(ms: seq<Manifest>) {
    exists i | 0 <= i < |ms| :: !ms[i].hostNetwork
  }

  /** How a completed run addressed its apps: from the table it found, in a pool that is the one
    * the pod network is on. */
  ghost predicate Addressed(n: Node, n': Node, apps: seq<App>, pool: string) {
    && Pass(pool, Ledger(n.table), Manifests(apps), Addresses(apps))
    && n'.table == TableOf(Manifests(apps), Addresses(apps))
    && (AnyPrivate(Manifests(apps)) ==> n'.network == Some(pool) && n.network in {None, Some(pool)})
    && (!AnyPrivate(Manifests(apps)) || n.network.Some? ==> n'.network == n.network)
  }

  /** What any run leaves of the node it rendered for, wherever it stopped or failed. It stops
    * what the last run started and this one does not render and, once the new table is down, the
    * apps whose bytes changed; nothing else that was running is lost. */
  ghost predicate Left(n: Node, n': Node, apps: seq<App>, stops: set<Unit>, pool: string) {
    && Addressing(n, apps, pool)
    && UserPart(n'.disk) == UserPart(n.disk)
    && (n.network.Some? ==> n'.network == n.network)
    && (Covered(n) ==> Covered(n'))
    && (forall u | u in n'.running ::
          || (u in n.running && n'.running[u] == n.running[u])
          || (u in AllUnits(apps) && u in AllFiles(apps) && n'.running[u] == AllFiles(apps)[u]))
    && Kept(n, n', stops)
    && stops <= Orphans(n, apps) + Bounced(n, apps)
    && (Addressed(n, n', apps, pool) || (n'.table == n.table && stops <= Orphans(n, apps)))
  }

  // The apps of one rendering, addressed from the table it found.
  ghost predicate Addressing(n: Node, apps: seq<App>, pool: string) {
    DistinctApps(apps) && Pass(pool, Ledger(n.table), Manifests(apps), Addresses(apps))
  }

  /** What a run that reported its own failure did: it may have stopped units, never started one,
    * and it left both ledgers as they were. */
  ghost predicate FailedEarly(n: Node, n': Node) {
    && Within(n'.running, n.running)
    && n'.started == n.started
    && n'.table == n.table
    && (n.network.Some? ==> n'.network == n.network)
    && (Covered(n) ==> Covered(n'))
  }

  /** Two documents of the volume never name one app. */
  ghost predicate DistinctDocs(volume: seq<Doc>, live: string) {
    forall i, j, m, m' |
      && 0 <= i < j < |volume|
      && Chosen(volume[i], live) == Some(Readable(m))
      && Chosen(volume[j], live) == Some(Readable(m'))
      :: m.name != m'.name
  }

  lemma {:induction false} SelectedFrom(volume: seq<Doc>, live: string, ms: seq<Manifest>, k: int)
    requires Selects(volume, live, ms) && 0 <= k < |ms|
    ensures exists i :: 0 <= i < |volume| && Chosen(volume[i], live) == Some(Readable(ms[k]))
  {
    var n := |volume| - 1;
    if Chosen(volume[n], live).None? {
      SelectedFrom(volume[..n], live, ms, k);
    } else if k < |ms| - 1 {
      SelectedFrom(volume[..n], live, ms[..|ms| - 1], k);
    }
  }

  lemma {:induction false} SelectedNames(volume: seq<Doc>, live: string, ms: seq<Manifest>)
    requires Selects(volume, live, ms) && DistinctDocs(volume, live)
    ensures DistinctNames(ms)
  {
    if volume != [] {
      var n := |volume| - 1;
      if Chosen(volume[n], live).None? {
        SelectedNames(volume[..n], live, ms);
      } else {
        SelectedNames(volume[..n], live, ms[..|ms| - 1]);
        forall k | 0 <= k < |ms| - 1 ensures ms[k].name != ms[|ms| - 1].name {
          LastNameDiffers(volume, live, ms, k);
        }
        assert forall k | 0 <= k < |ms| - 1 :: ms[..|ms| - 1][k] == ms[k];
      }
    }
  }

  lemma {:induction false} LastNameDiffers(volume: seq<Doc>, live: string, ms: seq<Manifest>, k: nat)
    requires Selects(volume, live, ms) && DistinctDocs(volume, live)
    requires volume != [] && Chosen(volume[|volume| - 1], live).Some? && k < |ms| - 1
    ensures ms[k].name != ms[|ms| - 1].name
  {
    var n := |volume| - 1;
    SelectedFrom(volume[..n], live, ms[..|ms| - 1], k);
    var i :| 0 <= i < n && Chosen(volume[..n][i], live) == Some(Readable(ms[k]));
    NamesDiffer(volume, live, i, n, ms[k], ms[|ms| - 1]);
  }

  lemma {:induction false} NamesDiffer(volume: seq<Doc>, live: string, i: int, j: int, m: Manifest, m': Manifest)
    requires DistinctDocs(volume, live) && 0 <= i < j < |volume|
    requires Chosen(volume[i], live) == Some(Readable(m)) && Chosen(volume[j], live) == Some(Readable(m'))
    ensures m.name != m'.name
  {
  }

  /** Why a run cannot render: a manifest it chose is corrupt, or an app has no address. */
  ghost predicate CannotRender(volume: seq<Doc>, live: string, pool: string, table: seq<Entry>) {
    || AnyCorrupt(volume, live)
    || exists ms, addrs, e :: NoAddress(volume, live, pool, table, ms, addrs, e)
  }

  ghost predicate NoAddress(volume: seq<Doc>, live: string, pool: string, table: seq<Entry>,
                            ms: seq<Manifest>, addrs: seq<Address>, e: Error)
  {
    Selects(volume, live, ms) && PassFails(pool, Ledger(table), ms, addrs, e)
  }

  lemma {:induction false} PassesOrFails(pool: string, known: map<string, Address>, ms: seq<Manifest>,
                                         addrs: seq<Address>, addrs': seq<Address>, e: Error)
    requires Pass(pool, known, ms, addrs) && |addrs| == |ms|
    ensures !PassFails(pool, known, ms, addrs', e)
  {
    if Pass(pool, known, ms, addrs') && |addrs'| < |ms| {
      var n := |addrs'|;
      assert forall i | 0 <= i < n :: addrs[..n][..i] == addrs[..i];
      PassUnique(pool, known, ms, addrs[..n], addrs');
      var taken := PrivateAddresses(ms, addrs[..n]);
      if Answers(pool, taken, known, ms[n], Err(e)) {
        AnswersUnique(pool, taken, known, ms[n], Ok(addrs[n]), Err(e));
      }
    }
  }

  lemma {:induction false} CanRender(volume: seq<Doc>, live: string, pool: string, table: seq<Entry>,
                                     ms: seq<Manifest>, addrs: seq<Address>)
    requires Selects(volume, live, ms) && Pass(pool, Ledger(table), ms, addrs) && |addrs| == |ms|
    ensures !CannotRender(volume, live, pool, table)
  {
    SelectsOnce(volume, live, ms, ms);
    forall ms', addrs', e ensures !NoAddress(volume, live, pool, table, ms', addrs', e) {
      SelectsOnce(volume, live, ms, ms');
      PassesOrFails(pool, Ledger(table), ms, addrs, addrs', e);
    }
  }

  method Render(g: Guest, volume: seq<Doc>, live: string, pool: string) returns (apps: Option<seq<App>>)
    requires DistinctDocs(volume, live)
    ensures apps.None? <==> CannotRender(volume, live, pool, g.node.table)
    ensures apps.Some? ==>
      && Selects(volume, live, Manifests(apps.value))
      && Pass(pool, Ledger(g.node.table), Manifests(apps.value), Addresses(apps.value))
      && DistinctApps(apps.value)
      && forall j | 0 <= j < |apps.value| :: !apps.value[j].skip
  {
    var ms := ReadVolume(volume, live);
    if ms.None? { return None; }
    var alloc := new Allocator(pool, g.node.table);
    var addrs, err := AddressAll(alloc, ms.value);
    if err.Some? {
      assert NoAddress(volume, live, pool, g.node.table, ms.value, addrs, err.value);
      return None;
    }
    SelectedNames(volume, live, ms.value);
    CanRender(volume, live, pool, g.node.table, ms.value, addrs);
    var all := seq(|addrs|, i requires 0 <= i < |addrs| => App(ms.value[i], addrs[i], false));
    assert Manifests(all) == ms.value;
    assert Addresses(all) == addrs;
    assert forall i, j :: 0 <= i < j < |all| ==> ms.value[i].name != ms.value[j].name;
    return Some(all);
  }

  // An app wants a private network, and the pod network there is on another pool.
  predicate OtherNetwork(n: Node, apps: seq<App>, pool: string) {
    AnyPrivate(Manifests(apps)) && n.network.Some? && n.network != Some(pool)
  }

  // An app with a private address has one in a pool.
  lemma {:induction false} PrivateNeedsPool(pool: string, known: map<string, Address>, apps: seq<App>)
    requires Pass(pool, known, Manifests(apps), Addresses(apps)) && AnyPrivate(Manifests(apps))
    ensures pool != ""
  {
    var ms, addrs := Manifests(apps), Addresses(apps);
    var i :| 0 <= i < |ms| && !ms[i].hostNetwork;
    assert Answers(pool, PrivateAddresses(ms, addrs[..i]), known, ms[i], Ok(addrs[i]));
  }

  method EnsurePodNetwork(g: Guest, pool: string) returns (ok: bool)
    modifies g`node, g`crashed, g`failures
    ensures old(g.crashed) ==> g.crashed
    ensures g.crashed ==> !ok
    ensures g.failures >= old(g.failures)
    ensures g.node == old(g.node).(network := g.node.network)
    ensures old(g.node).network.Some? ==> g.node == old(g.node)
    ensures ok ==> g.node.network == Some(pool)
    ensures !ok ==> g.failures > old(g.failures) || (old(g.node).network.Some? && old(g.node).network != Some(pool))
  {
    if g.node.network.Some? && g.node.network != Some(pool) {
      return false;
    }
    ok := g.Command(g.node.(network := Some(pool)));
  }

  function WarmedAll(apps: seq<App>): seq<Deed> {
    seq(|apps|, i requires 0 <= i < |apps| => Warmed(apps[i].m.name))
  }

  // Every app prepared in turn, and skipped if and only if that failed.
  function PreparedAll(apps: seq<App>): seq<Deed> {
    seq(|apps|, i requires 0 <= i < |apps| => Prepared(apps[i].m.name, !apps[i].skip))
  }

  /** Exactly the apps whose preparation failed are skipped; nothing else about them changes. */
  method Prepare(g: Guest, apps: seq<App>) returns (prepared: seq<App>, ghost failed: set<int>)
    modifies g`node, g`crashed, g`failures, g`deeds
    ensures g.deeds == old(g.deeds) + PreparedAll(prepared)
    ensures old(g.crashed) ==> g.crashed
    ensures g.node == old(g.node)
    ensures |prepared| == |apps|
    ensures forall j | 0 <= j < |apps| :: prepared[j].m == apps[j].m && prepared[j].address == apps[j].address
    ensures forall j | 0 <= j < |apps| :: prepared[j].skip <==> j in failed
    ensures (forall j | j in failed :: 0 <= j < |apps|) && g.failures == old(g.failures) + |failed|
  {
    prepared, failed := [], {};
    for i := 0 to |apps|
      invariant old(g.crashed) ==> g.crashed
      invariant g.node == old(g.node)
      invariant |prepared| == i
      invariant forall j | 0 <= j < i :: prepared[j].m == apps[j].m && prepared[j].address == apps[j].address
      invariant forall j | 0 <= j < i :: prepared[j].skip <==> j in failed
      invariant (forall j | j in failed :: 0 <= j < i) && g.failures == old(g.failures) + |failed|
      invariant g.deeds == old(g.deeds) + PreparedAll(prepared)
    {
      var ok := g.PrepareApp(apps[i].m.name);
      ghost var before := PreparedAll(prepared);
      prepared := prepared + [apps[i].(skip := !ok)];
      failed := failed + if ok then {} else {i};
      assert PreparedAll(prepared) == before + [Prepared(apps[i].m.name, ok)];
    }
  }

  lemma {:induction false} SkipDoesNotRender(apps: seq<App>, prepared: seq<App>)
    requires |prepared| == |apps|
    requires forall j | 0 <= j < |apps| :: prepared[j].m == apps[j].m && prepared[j].address == apps[j].address
    ensures AllUnits(prepared) == AllUnits(apps)
    ensures AllFiles(prepared) == AllFiles(apps)
    ensures Manifests(prepared) == Manifests(apps) && Addresses(prepared) == Addresses(apps)
  {
    if apps != [] {
      var n := |apps| - 1;
      SkipDoesNotRender(apps[..n], prepared[..n]);
      assert prepared[n].Units() == apps[n].Units();
      assert prepared[n].Files() == apps[n].Files();
    }
  }

  /** Every image made resident, before anything is started; the first that cannot be ends the run. */
  method WarmAll(g: Guest, apps: seq<App>) returns (ok: bool)
    requires !g.crashed
    modifies g`node, g`crashed, g`failures, g`deeds
    ensures g.node == old(g.node) && g.failures >= old(g.failures)
    ensures g.crashed ==> !ok
    ensures !ok ==> g.failures > old(g.failures)
    ensures ok ==> g.deeds == old(g.deeds) + WarmedAll(apps)
  {
    ok := true;
    for i := 0 to |apps|
      invariant !g.crashed && ok
      invariant g.node == old(g.node) && g.failures >= old(g.failures)
      invariant g.deeds == old(g.deeds) + WarmedAll(apps[..i])
    {
      ok := g.Warm(apps[i].m.name);
      if !ok { return; }
      assert WarmedAll(apps[..i + 1]) == WarmedAll(apps[..i]) + [Warmed(apps[i].m.name)];
    }
    assert apps[..|apps|] == apps;
  }

  /** Everything before the run says what it will start: the network, the stops of what is no
    * longer rendered, the unit sources, the images. */
  method Materialise(g: Guest, apps: seq<App>, pool: string) returns (ok: bool, changed: set<File>)
    requires !g.crashed && g.stopped == {}
    modifies g`node, g`crashed, g`failures, g`stopped, g`deeds
    ensures ok ==> g.deeds == old(g.deeds) + WarmedAll(apps) && (AnyPrivate(Manifests(apps)) ==> pool != "")
    ensures !ok ==> g.failures > old(g.failures) || OtherNetwork(old(g.node), apps, pool) || (AnyPrivate(Manifests(apps)) && pool == "")
    ensures g.node == old(g.node).(running := old(g.node).running - g.stopped, disk := g.node.disk, loaded := g.node.loaded, network := g.node.network)
    ensures g.stopped <= Orphans(old(g.node), apps)
    ensures UserPart(g.node.disk) == UserPart(old(g.node).disk)
    ensures !AnyPrivate(Manifests(apps)) || old(g.node).network.Some? ==> g.node.network == old(g.node).network
    ensures g.crashed ==> !ok
    ensures g.failures >= old(g.failures)
    ensures ok ==>
      && g.stopped == Orphans(old(g.node), apps)
      && g.node.disk == UserPart(old(g.node).disk) + AllFiles(apps) && g.node.loaded == g.node.disk
      && (AnyPrivate(Manifests(apps)) ==> g.node.network == Some(pool))
      && forall f :: f in changed <==> Changed(g.node.started, AllFiles(apps), f)
  {
    changed := {};
    if AnyPrivate(Manifests(apps)) {
      if pool == "" { return false, changed; }
      ok := EnsurePodNetwork(g, pool);
      if !ok { return; }
    }
    forall f ensures f in AllFiles(apps) ==> !f.UserFile? { FilesAreUnits(apps, f); }
    ghost var gone := StopUnrendered(g, AllUnits(apps));
    ok, changed := WriteUnits(g, AllFiles(apps));
    if !ok { return; }
    ok := WarmAll(g, apps);
  }

  /** What the run will start, said before it starts anything: the units list, then the table. */
  method Publish(g: Guest, plain: seq<App>) returns (ok: bool, apps: seq<App>)
    modifies g`node, g`crashed, g`failures, g`deeds
    ensures g.deeds == old(g.deeds) + PreparedAll(apps)
    ensures old(g.crashed) ==> g.crashed
    ensures g.crashed ==> !ok
    ensures g.failures >= old(g.failures)
    ensures SameRendering(plain, apps)
    ensures !ok ==> g.failures > old(g.failures)
    ensures g.failures == old(g.failures) ==> forall j | 0 <= j < |apps| :: !apps[j].skip
    ensures ok ==> g.node == old(g.node).(units := AllUnits(apps), table := TableOf(Manifests(apps), Addresses(apps)))
    ensures !ok ==> g.node == old(g.node) || g.node == old(g.node).(units := AllUnits(apps))
  {
    ghost var failed;
    apps, failed := Prepare(g, plain);
    assert |failed| == 0 ==> failed == {};
    SkipDoesNotRender(plain, apps);
    ok := g.Command(g.node.(units := AllUnits(apps)));
    if !ok { return; }
    ok := g.Command(g.node.(table := TableOf(Manifests(apps), Addresses(apps))));
  }

  ghost predicate SameRendering(plain: seq<App>, apps: seq<App>) {
    && AllUnits(apps) == AllUnits(plain)
    && AllFiles(apps) == AllFiles(plain)
    && Manifests(apps) == Manifests(plain)
    && Addresses(apps) == Addresses(plain)
    && (DistinctApps(plain) ==> DistinctApps(apps))
  }

  // The node just before anything is started.
  ghost predicate Ready(n0: Node, n1: Node, apps: seq<App>, pool: string) {
    && Addressing(n0, apps, pool)
    && Addressed(n0, n1, apps, pool)
    && n1 == Node(UserPart(n0.disk) + AllFiles(apps), UserPart(n0.disk) + AllFiles(apps),
                  n0.running - Orphans(n0, apps), n0.started, AllUnits(apps), n1.table, n1.network)
  }

  method StartAndRecord(g: Guest, ghost n0: Node, apps: seq<App>, changed: set<File>, ghost pool: string) returns (r: Outcome)
    requires !g.crashed && Ready(n0, g.node, apps, pool) && g.stopped == Orphans(n0, apps) && g.down == {}
    requires forall f :: f in changed <==> Changed(n0.started, AllFiles(apps), f)
    modifies g`node, g`crashed, g`failures, g`stopped, g`down
    ensures Left(n0, g.node, apps, g.stopped, pool) && g.failures >= old(g.failures)
    ensures r.Done? ==> Completed(n0, g.node, apps, r.recorded, g.stopped, g.down) && Addressed(n0, g.node, apps, pool)
    ensures r.Done? ==> !g.crashed && g.failures == old(g.failures) + (if r.recorded then 0 else 1)
    ensures !r.Done? ==> r == Failed && g.crashed && g.node.started == n0.started
  {
    ghost var n1 := g.node;
    ChangedIsTouched(n1.started, apps, changed);
    ghost var gone := StartAll(g, apps, changed);
    ghost var n2 := g.node;
    StartedIsRendered(n0, n1, n2, apps, gone, pool);
    if g.crashed { return Failed; }
    var ok := g.Command(g.node.(started := StartedFiles(apps)));
    if g.crashed { return Failed; }
    r := Done(ok);
    CompletedFrom(n0, n1, g.node, apps, ok, g.down);
  }

  /** One run, from the volume to the record, stopped anywhere. It renders what the two listings show,
    * and when no command fails and nothing stops it, it ends unless it cannot render or the pod
    * network is on another pool. */
  method Converge(g: Guest, volume: seq<Doc>, live: string, pool: string)
    returns (r: Outcome, apps: seq<App>, ghost named: bool, ghost held: bool)
    requires !g.crashed
    requires OwnNames(volume)
    modifies g
    ensures g.unlisted == old(g.unlisted) + (if named then 0 else 1) + (if held then 0 else 1)
    ensures r.Unread? <==> CannotRender(Seen(volume, named, held), live, pool, old(g.node).table)
    ensures r.Unread? ==> g.node == old(g.node) && g.stopped == {}
    ensures !r.Unread? ==>
      && Selects(Seen(volume, named, held), live, Manifests(apps))
      && Left(old(g.node), g.node, apps, g.stopped, pool)
    ensures r.Done? ==>
      && Completed(old(g.node), g.node, apps, r.recorded, g.stopped, g.down)
      && Addressed(old(g.node), g.node, apps, pool)
      && !g.crashed && g.deeds == WarmedAll(apps) + PreparedAll(apps)
    ensures r.Done? && g.failures == old(g.failures) ==> r.recorded && forall j | 0 <= j < |apps| :: !apps[j].skip
    ensures r.Failed? ==> g.node.started == old(g.node).started
    ensures r.Failed? ==> g.crashed || g.failures > old(g.failures) || OtherNetwork(old(g.node), apps, pool)
    ensures r.Done? ==> !OtherNetwork(old(g.node), apps, pool)
    ensures r.Failed? && !g.crashed ==> FailedEarly(old(g.node), g.node) && g.stopped <= Orphans(old(g.node), apps)
  {
    ghost var n0 := g.node;
    r, apps := Unread, [];
    g.stopped, g.down, g.deeds := {}, {}, [];
    var seen;
    seen, named, held := ListVolume(g, volume);
    SeenIsDistinct(volume, live, named, held);
    var rendered := Render(g, seen, live, pool);
    if rendered.None? { return; }
    r, apps := ConvergeOn(g, rendered.value, pool);
  }

  lemma {:induction false} MaterialisedIsInPlace(n0: Node, n1: Node, stops: set<Unit>, plain: seq<App>, pool: string)
    requires n1 == n0.(running := n0.running - stops, disk := n1.disk, loaded := n1.disk, network := n1.network)
    requires stops == Orphans(n0, plain) && n1.disk == UserPart(n0.disk) + AllFiles(plain)
    requires AnyPrivate(Manifests(plain)) ==> n1.network == Some(pool)
    requires !AnyPrivate(Manifests(plain)) || n0.network.Some? ==> n1.network == n0.network
    ensures InPlace(n0, n1, plain, pool)
  {
  }

  // The run once it has rendered.
  method ConvergeOn(g: Guest, plain: seq<App>, pool: string) returns (r: Outcome, apps: seq<App>)
    requires !g.crashed && g.stopped == {} && g.down == {} && g.deeds == []
    requires Addressing(g.node, plain, pool) && forall j | 0 <= j < |plain| :: !plain[j].skip
    modifies g`node, g`crashed, g`failures, g`stopped, g`down, g`deeds
    ensures r.Done? ==> !g.crashed && g.deeds == WarmedAll(apps) + PreparedAll(apps)
    ensures !r.Unread? && Manifests(apps) == Manifests(plain)
    ensures Left(old(g.node), g.node, apps, g.stopped, pool)
    ensures r.Done? ==>
      && Completed(old(g.node), g.node, apps, r.recorded, g.stopped, g.down)
      && Addressed(old(g.node), g.node, apps, pool)
    ensures r.Done? && g.failures == old(g.failures) ==> r.recorded && forall j | 0 <= j < |apps| :: !apps[j].skip
    ensures r.Failed? ==> g.node.started == old(g.node).started
    ensures r.Failed? ==> g.crashed || g.failures > old(g.failures) || OtherNetwork(old(g.node), apps, pool)
    ensures r.Failed? && !g.crashed ==> FailedEarly(old(g.node), g.node) && g.stopped <= Orphans(old(g.node), apps)
  {
    ghost var n0 := g.node;
    r, apps := Failed, plain;
    if AnyPrivate(Manifests(plain)) { PrivateNeedsPool(pool, Ledger(g.node.table), plain); }
    var ok, changed := Materialise(g, plain, pool);
    if !ok {
      EarlyIsSafe(n0, g.node, plain, g.stopped, pool);
      return;
    }
    MaterialisedIsInPlace(n0, g.node, g.stopped, plain, pool);
    ghost var warmed := g.deeds;
    r, apps := StartPublished(g, n0, plain, changed, pool);
    SameWarmed(plain, apps, warmed);
  }

  lemma {:induction false} SameWarmed(plain: seq<App>, apps: seq<App>, warmed: seq<Deed>)
    requires Manifests(apps) == Manifests(plain) && warmed == [] + WarmedAll(plain)
    ensures warmed == WarmedAll(apps)
  {
    assert |Manifests(apps)| == |apps| && |Manifests(plain)| == |plain|;
    forall i | 0 <= i < |apps| ensures apps[i].m == plain[i].m {
      assert Manifests(apps)[i] == apps[i].m && Manifests(plain)[i] == plain[i].m;
    }
  }

  // Everything is in place but the units list and the table.
  ghost predicate InPlace(n0: Node, n1: Node, plain: seq<App>, pool: string) {
    && n1 == n0.(running := n0.running - Orphans(n0, plain), disk := UserPart(n0.disk) + AllFiles(plain),
                 loaded := UserPart(n0.disk) + AllFiles(plain), network := n1.network)
    && (AnyPrivate(Manifests(plain)) ==> n1.network == Some(pool) && n0.network in {None, Some(pool)})
    && (!AnyPrivate(Manifests(plain)) || n0.network.Some? ==> n1.network == n0.network)
  }

  lemma {:induction false} PublishedIsReady(n0: Node, n1: Node, n2: Node, plain: seq<App>, apps: seq<App>, pool: string)
    requires Addressing(n0, plain, pool) && InPlace(n0, n1, plain, pool) && SameRendering(plain, apps)
    requires n2 == n1.(units := AllUnits(apps), table := TableOf(Manifests(apps), Addresses(apps)))
    ensures Ready(n0, n2, apps, pool) && Orphans(n0, apps) == Orphans(n0, plain)
  {
  }

  lemma {:induction false} UnpublishedIsSafe(n0: Node, n1: Node, n2: Node, plain: seq<App>, apps: seq<App>, pool: string)
    requires Addressing(n0, plain, pool) && InPlace(n0, n1, plain, pool) && SameRendering(plain, apps)
    requires n2 == n1 || n2 == n1.(units := AllUnits(apps))
    ensures Orphans(n0, apps) == Orphans(n0, plain)
    ensures Left(n0, n2, apps, Orphans(n0, apps), pool) && FailedEarly(n0, n2) && n2.started == n0.started
  {
    UserPartStays(n0.disk, plain);
    EarlyIsSafe(n0, n2, apps, Orphans(n0, apps), pool);
  }

  // The rest of the run, once everything is in place.
  method StartPublished(g: Guest, ghost n0: Node, plain: seq<App>, changed: set<File>, ghost pool: string) returns (r: Outcome, apps: seq<App>)
    requires !g.crashed && g.stopped == Orphans(n0, plain) && g.down == {}
    requires Addressing(n0, plain, pool) && forall j | 0 <= j < |plain| :: !plain[j].skip
    requires InPlace(n0, g.node, plain, pool)
    requires forall f :: f in changed <==> Changed(n0.started, AllFiles(plain), f)
    modifies g`node, g`crashed, g`failures, g`stopped, g`down, g`deeds
    ensures !r.Unread? && Manifests(apps) == Manifests(plain)
    ensures Left(n0, g.node, apps, g.stopped, pool)
    ensures r.Done? ==>
      && Completed(n0, g.node, apps, r.recorded, g.stopped, g.down)
      && Addressed(n0, g.node, apps, pool)
      && !g.crashed && g.deeds == old(g.deeds) + PreparedAll(apps)
    ensures g.failures >= old(g.failures)
    ensures r.Done? && g.failures == old(g.failures) ==> r.recorded && forall j | 0 <= j < |apps| :: !apps[j].skip
    ensures r.Failed? ==> g.node.started == n0.started && (g.crashed || g.failures > old(g.failures))
    ensures r.Failed? && !g.crashed ==> FailedEarly(n0, g.node) && g.stopped <= Orphans(n0, apps)
  {
    r := Failed;
    ghost var n1 := g.node;
    var ok;
    ok, apps := Publish(g, plain);
    if !ok {
      UnpublishedIsSafe(n0, n1, g.node, plain, apps, pool);
      return;
    }
    PublishedIsReady(n0, n1, g.node, plain, apps, pool);
    r := StartAndRecord(g, n0, apps, changed, pool);
  }

  /** A volume whose manifests cannot be listed is converged to as one with no app installed: a run
    * that completes has stopped every app it had started, and reports success. */
  method UnlistedVolumeStopsEverything(g: Guest, volume: seq<Doc>, pool: string) returns (r: Outcome, ghost named: bool)
    requires !g.crashed && OwnNames(volume) && Covered(g.node) && (forall d | d in volume :: d.name != "")
    modifies g
    ensures !named ==> !r.Unread?
    ensures !named && r.Done? ==> g.node.running == map[]
    ensures !named && !r.Done? ==> g.crashed || g.failures > old(g.failures)
  {
    var apps;
    ghost var held;
    r, apps, named, held := Converge(g, volume, "", pool);
    if !named {
      UnnamedIsReadable(volume, held, pool, old(g.node).table);
      if !r.Unread? {
        UnnamedRendersNothing(volume, "", held, Manifests(apps));
        assert AllUnits([]) == [];
      }
    }
  }

  lemma {:induction false} UnnamedIsReadable(volume: seq<Doc>, held: bool, pool: string, table: seq<Entry>)
    requires forall d | d in volume :: d.name != ""
    ensures !CannotRender(Seen(volume, false, held), "", pool, table)
  {
    UnnamedSelects(volume, held);
    assert PrivateAddresses([], []) == {};
    CanRender(Seen(volume, false, held), "", pool, table, [], []);
  }

  lemma {:induction false} UnnamedSelects(volume: seq<Doc>, held: bool)
    requires forall d | d in volume :: d.name != ""
    ensures Selects(Seen(volume, false, held), "", [])
  {
    if volume != [] {
      var n := |volume| - 1;
      assert volume[n] in volume;
      assert Seen(volume, false, held)[..n] == Seen(volume[..n], false, held);
      UnnamedSelects(volume[..n], held);
    }
  }

  lemma {:induction false} EarlyIsSafe(n: Node, n': Node, apps: seq<App>, stops: set<Unit>, pool: string)
    requires Addressing(n, apps, pool)
    requires n'.running == n.running - stops && stops <= Orphans(n, apps) && UserPart(n'.disk) == UserPart(n.disk)
    requires n'.started == n.started && n'.table == n.table && (n.network.Some? ==> n'.network == n.network)
    requires n'.units == n.units || (n'.units == AllUnits(apps) && stops == Orphans(n, apps))
    ensures Left(n, n', apps, stops, pool) && FailedEarly(n, n')
  {
  }

  lemma {:induction false} ChangedIsTouched(started: map<File, Body>, apps: seq<App>, changed: set<File>)
    requires DistinctApps(apps)
    requires forall f :: f in changed <==> Changed(started, AllFiles(apps), f)
    ensures forall j | 0 <= j < |apps| :: apps[j].Touched(started) <==> exists f | f in apps[j].Files() :: f in changed
  {
    forall j | 0 <= j < |apps|
      ensures apps[j].Touched(started) <==> exists f | f in apps[j].Files() :: f in changed
    {
      forall f | f in apps[j].Files()
        ensures f in changed <==> !(f in started && started[f] == apps[j].Files()[f])
      {
        UnitIsFile(apps[j], f);
        assert Owns(apps, j, f);
        MergedFile(apps, j, f);
      }
    }
  }

  // Everything the start loop left running is as it was, or runs the merged rendering, and is
  // on the list.
  lemma {:induction false} StartedIsRendered(n0: Node, n1: Node, n2: Node, apps: seq<App>, gone: set<Unit>, pool: string)
    requires Ready(n0, n1, apps, pool) && Mixed(n1, n2, AllUnits(apps)) && n2 == n1.(running := n2.running)
    requires Kept(n1, n2, gone) && gone <= Bounced(n1, apps)
    ensures Left(n0, n2, apps, Orphans(n0, apps) + gone, pool)
  {
    UserPartStays(n0.disk, apps);
    StartedRunsRendered(n0, n1, n2, apps, pool);
    assert Bounced(n1, apps) == Bounced(n0, apps);
  }

  lemma {:induction false} UserPartStays(disk: map<File, Body>, apps: seq<App>)
    ensures UserPart(UserPart(disk) + AllFiles(apps)) == UserPart(disk)
  {
    forall f ensures f in AllFiles(apps) ==> !f.UserFile? { FilesAreUnits(apps, f); }
  }

  lemma {:induction false} StartedRunsRendered(n0: Node, n1: Node, n2: Node, apps: seq<App>, pool: string)
    requires Ready(n0, n1, apps, pool) && Mixed(n1, n2, AllUnits(apps)) && n2 == n1.(running := n2.running)
    ensures Covered(n0) ==> Covered(n2)
    ensures forall u | u in n2.running ::
              || (u in n0.running && n2.running[u] == n0.running[u])
              || (u in AllUnits(apps) && u in AllFiles(apps) && n2.running[u] == AllFiles(apps)[u])
  {
    forall u | u in n2.running && u in AllUnits(apps) ensures u in AllFiles(apps) && n1.loaded[u] == AllFiles(apps)[u] {
      FilesAreUnits(apps, u);
    }
  }

  lemma {:induction false} CompletedFrom(n0: Node, n1: Node, n2: Node, apps: seq<App>, recorded: bool, down: set<Unit>)
    requires DistinctApps(apps)
    requires n1 == Node(UserPart(n0.disk) + AllFiles(apps), UserPart(n0.disk) + AllFiles(apps),
                        n0.running - Orphans(n0, apps), n0.started, AllUnits(apps), n1.table, n1.network)
    requires n2 == n1.(running := n2.running, started := if recorded then StartedFiles(apps) else n1.started)
    requires HandledUpTo(n1, n2, apps, |apps|, down)
    ensures Completed(n0, n2, apps, recorded, Orphans(n0, apps) + Bounced(n0, apps), down)
  {
    assert apps[..|apps|] == apps;
    forall j, u | Owns(apps, j, u) ensures HandledAs(n0, n2, apps, j, u, down) {
      AllUnitsOwned(apps, u);
      FilesAreUnits(apps, u);
      assert u !in Orphans(n0, apps);
      assert Handled(n1, n2, apps[j], u, down);
    }
  }

  // No later container of the app has this one's name.
  predicate LastOfItsName(cs: seq<Container>, k: int) {
    0 <= k < |cs| && forall l | k < l < |cs| :: cs[l].name != cs[k].name
  }

  lemma {:induction false} ContainerBody(app: string, cs: seq<Container>, k: int)
    requires LastOfItsName(cs, k)
    ensures ContainerFile(app, cs[k].name) in ContainerFiles(app, cs)
    ensures ContainerFiles(app, cs)[ContainerFile(app, cs[k].name)] == Body(cs[k].text, "")
  {
    if k < |cs| - 1 {
      assert forall l | k < l < |cs| - 1 :: cs[..|cs| - 1][l] == cs[l];
      ContainerBody(app, cs[..|cs| - 1], k);
    }
  }

  /** What a completed run leaves on the disk: of each app its pod, with the address the table gives
    * the app, and its containers as the manifest has them; and every file of a person's. */
  lemma {:induction false} RenderedOnDisk(n: Node, n': Node, apps: seq<App>, recorded: bool, stops: set<Unit>, down: set<Unit>,
                                          pool: string, j: nat)
    requires Completed(n, n', apps, recorded, stops, down) && Addressed(n, n', apps, pool) && j < |apps|
    ensures |n'.table| == |apps| && n'.table[j].name == apps[j].m.name
    ensures var pod := PodFile(apps[j].m.name);
      pod in n'.disk && n'.disk[pod] == Body(apps[j].m.podText, n'.table[j].address)
    ensures forall k | LastOfItsName(apps[j].m.containers, k) ::
      var c := ContainerFile(apps[j].m.name, apps[j].m.containers[k].name);
      c in n'.disk && n'.disk[c] == Body(apps[j].m.containers[k].text, "")
    ensures forall f: File | f.UserFile? :: Same(n.disk, n'.disk, f)
    ensures if exists k | 0 <= k < |apps| :: !apps[k].m.hostNetwork then n'.network == Some(pool) else n'.network == n.network
  {
    assert forall k | 0 <= k < |apps| :: Manifests(apps)[k] == apps[k].m;
    var a := apps[j];
    UnitIsFile(a, PodFile(a.m.name));
    MergedFile(apps, j, PodFile(a.m.name));
    forall k | LastOfItsName(a.m.containers, k)
      ensures var c := ContainerFile(a.m.name, a.m.containers[k].name);
        c in n'.disk && n'.disk[c] == Body(a.m.containers[k].text, "")
    {
      var c := ContainerFile(a.m.name, a.m.containers[k].name);
      ContainerBody(a.m.name, a.m.containers, k);
      UnitIsFile(a, c);
      MergedFile(apps, j, c);
    }
    forall f: File | f.UserFile? ensures Same(n.disk, n'.disk, f) { FilesAreUnits(apps, f); }
  }

  // ---------------------------------------------------------------- the other actors

  /** The stop the promoter runs on demotion: everything on the list, newest dependency first. */
  method ConvergeStop(g: Guest)
    modifies g`node, g`crashed, g`stopped
    ensures old(g.crashed) ==> g.crashed
    ensures g.node == old(g.node).(running := g.node.running) && Within(g.node.running, old(g.node).running)
    ensures forall u | u in old(g.node).running && u !in old(g.node).units :: u in g.node.running
    ensures !g.crashed ==> g.node.running == old(g.node).running - set u | u in old(g.node).units
    ensures !g.crashed && Covered(old(g.node)) ==> g.node.running == map[]
  {
    ghost var gone := StopUnrendered(g, []);
  }

  /** An install's own rendering, before it asks the node to converge: the outgoing sources go,
    * the new ones are written, systemd reads them, and nothing is started or recorded. */
  method RenderApp(g: Guest, files: map<File, Body>, stale: seq<File>) returns (ok: bool)
    modifies g`node, g`crashed, g`failures
    ensures g.crashed ==> !ok
    ensures g.node == old(g.node).(disk := g.node.disk, loaded := g.node.loaded)
    ensures files == map[] ==> !ok && g.node == old(g.node)
    ensures !ok ==> files == map[] || g.failures > old(g.failures)
    ensures ok ==>
      && (forall f | f in files :: f in g.node.disk && g.node.disk[f] == files[f])
      && (forall f :: f !in files && f in g.node.disk ==> Same(old(g.node).disk, g.node.disk, f))
      && (forall f :: f !in files && f !in stale ==> Same(old(g.node).disk, g.node.disk, f))
      && g.node.loaded == g.node.disk
      && (g.failures == old(g.failures) ==> forall f | f in stale && f in g.node.disk :: f in files)
  {
    ghost var node0 := g.node;
    if files == map[] { return false; }
    ok := g.Command(g.node); // mkdir -p
    if !ok { return; }
    for i := 0 to |stale|
      invariant g.node == node0.(disk := g.node.disk)
      invariant forall f :: f !in stale ==> Same(node0.disk, g.node.disk, f)
      invariant Within(g.node.disk, node0.disk) && g.failures >= old(g.failures)
      invariant g.failures == old(g.failures) ==> forall k | 0 <= k < i :: stale[k] !in g.node.disk
    {
      var _ := g.Command(g.node.(disk := g.node.disk - {stale[i]})); // best-effort
    }
    ghost var disk1, failures1 := g.node.disk, g.failures;
    var todo := files.Keys;
    while ok && todo != {}
      invariant g.node == node0.(disk := g.node.disk)
      invariant todo <= files.Keys
      invariant g.failures >= failures1 && (!ok ==> g.failures > old(g.failures))
      invariant ok ==> forall f | f in files && f !in todo :: f in g.node.disk && g.node.disk[f] == files[f]
      invariant forall f :: f !in files || f in todo ==> Same(disk1, g.node.disk, f)
      decreases todo
    {
      var f :| f in todo;
      todo := todo - {f};
      ok := g.Command(g.node.(disk := g.node.disk[f := files[f]]));
    }
    if !ok { return; }
    ok := g.Command(g.node.(loaded := g.node.disk)); // daemon-reload
  }
}
