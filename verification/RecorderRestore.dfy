/** Putting Home Assistant's recorder database back from a ring member
  * (agent/guestagent/dbcheck.go, agent/hass/dbcheck.go). */
module RecorderRestore {
  import opened Options

  // A data area's files: the recorder's database, its write-ahead log and the log's index, the
  // database files Home Assistant has set aside as damaged, and everything else.
  datatype Name = Db | Wal | Shm | Aside(name: string) | Other(name: string)

  // The content is an identity, and 0 is empty.
  type Files = map<Name, nat>

  /** The restored copy of some data: the member's database and its write-ahead log, no log of the
    * old one, and every other file the household's own, but for the renames. */
  ghost predicate IsRestored(data: Files, member: Files, copy: Files) {
    && Db in member && Db in copy && copy[Db] == member[Db]
    && Shm !in copy
    && (Wal in copy <==> Wal in member && member[Wal] != 0)
    && (Wal in copy ==> copy[Wal] == member[Wal])
    && (forall n: Name | n.Aside? :: n !in copy)
    && (forall n: Name | n.Other? :: SameFile(data, copy, n))
  }

  predicate HasFrames(member: Files) {
    Wal in member && member[Wal] != 0
  }

  predicate SameFile(data: Files, copy: Files, n: Name) {
    (n in copy <==> n in data) && (n in copy ==> copy[n] == data[n])
  }

  // The looks of one restore that gave no answer. Each is read as nothing being there.
  datatype Unseen = Unseen(log: bool, renames: bool) {
    function Count(): nat {
      (if log then 1 else 0) + (if renames then 1 else 0)
    }
  }

  /** What a restore puts beside the data, whatever it could see: the member's database always; its
    * log if the look for one was answered; and no rename if the listing was. */
  ghost predicate IsPutBack(data: Files, member: Files, copy: Files, unseen: Unseen) {
    && Db in member && Db in copy && copy[Db] == member[Db]
    && Shm !in copy
    && (Wal in copy <==> Wal in member && member[Wal] != 0 && !unseen.log)
    && (Wal in copy ==> copy[Wal] == member[Wal])
    && (forall n: Name | n.Aside? :: if unseen.renames then SameFile(data, copy, n) else n !in copy)
    && (forall n: Name | n.Other? :: SameFile(data, copy, n))
  }

  predicate HasRenames(data: Files) {
    exists n: Name | n in data :: n.Aside?
  }

  // An unanswered look hid something.
  predicate Hidden(data: Files, member: Files, unseen: Unseen) {
    (unseen.log && HasFrames(member)) || (unseen.renames && HasRenames(data))
  }

  /** What is put back is the restored copy exactly when no unanswered look hid a log with frames in
    * it or a rename. */
  lemma {:induction false} RestoredIffNothingHidden(data: Files, member: Files, copy: Files, unseen: Unseen)
    requires IsPutBack(data, member, copy, unseen)
    ensures IsRestored(data, member, copy) <==> !Hidden(data, member, unseen)
  {
    if unseen.renames && HasRenames(data) {
      var n :| n in data && n.Aside?;
      assert SameFile(data, copy, n);
    }
  }

  datatype Staged = Nothing | NotOurs | Copy(files: Files)

  // A ring member, and whether its sidecar says what it is.
  datatype Point = Point(files: Files, labelled: bool)

  datatype World = World(
    live: Files,
    staged: Staged,
    undo: Option<Point>,     // the hass-db-restore-before member of this restore
    running: set<string>)

  /** Wherever it stopped: the live data is exactly what it was, or what was put back, with the undo
    * point holding what it replaced. */
  ghost predicate AllOrNothing(w0: World, w: World, member: Files, unseen: Unseen) {
    && (w.live == w0.live || (IsPutBack(w0.live, member, w.live, unseen) && w.undo == Some(Point(w0.live, true))))
    && w.running <= w0.running
  }

  // Nothing of this restore is left behind, and nothing is left stopped.
  predicate Unchanged(w0: World, w: World) {
    && w.live == w0.live && w.undo == None && w.running == w0.running
    && w.staged == if w0.staged == NotOurs then NotOurs else Nothing
  }

  // What was done to the app's units and to its data, and what was running when it was.
  datatype Mark =
    | Halted(unit: string)
    | Copied(running: set<string>)    // the live data, to the staging name
    | Flushed(running: set<string>)   // the staged copy, to the disk
    | Sampled(running: set<string>)   // the live data, as the undo point
    | Exchanged(running: set<string>) // the staged copy for the live data

  /** The data was touched only with these units down. */
  predicate Quiet(marks: seq<Mark>, units: seq<string>) {
    forall e, u | e in marks && !e.Halted? && u in units :: u !in e.running
  }

  // The running ones of these units, in their order.
  function Running(units: seq<string>, running: set<string>): (active: seq<string>)
    ensures forall u :: u in active <==> u in units && u in running
  {
    if units == [] then []
    else Running(units[..|units| - 1], running) + (if units[|units| - 1] in running then [units[|units| - 1]] else [])
  }

  /** The copy is on the disk and the undo point taken before the exchange, which is the last. */
  function Swap(running: set<string>): seq<Mark> {
    [Copied(running), Flushed(running), Sampled(running), Exchanged(running)]
  }

  // What was done to the data while just these ran: all of that, or the first of it.
  predicate Touches(marks: seq<Mark>, running: set<string>, swapped: bool) {
    marks <= Swap(running) && (swapped <==> marks == Swap(running))
  }

  // The first n halts of a sequence stopped from its end.
  function LastFirst(active: seq<string>, n: nat): (marks: seq<Mark>)
    requires n <= |active|
    ensures |marks| == n
    ensures forall k :: 0 <= k < n ==> marks[k] == Halted(active[|active| - 1 - k])
  {
    seq(n, k requires 0 <= k < n => Halted(active[|active| - 1 - k]))
  }

  // First the halts, then what is done to the data.
  lemma {:induction false} MarksJoin(log0: seq<Mark>, log1: seq<Mark>, log: seq<Mark>, units: seq<string>, active: seq<string>,
                                     before: set<string>, running: set<string>, swapped: bool)
    requires active == Running(units, before) && log1 == log0 + LastFirst(active, |active|) && log1 <= log
    requires Touches(log[|log1|..], running, swapped) && running == before - (set u | u in active)
    ensures Quiet(log[|log0|..], units)
    ensures LastFirst(active, |active|) <= log[|log0|..]
    ensures if swapped then log[|log0|..] == LastFirst(active, |active|) + Swap(running)
            else forall e | e in log[|log0|..] :: !e.Exchanged?
  {
    var halts, touches := LastFirst(active, |active|), log[|log1|..];
    assert log[|log0|..] == halts + touches;
    assert forall e | e in halts :: e.Halted?;
    assert forall e | e in touches :: e in Swap(running);
    assert !swapped ==> |touches| < 4 && touches == Swap(running)[..|touches|];
  }

  class Guest {
    var w: World
    var log: seq<Mark>
    var crashed: bool
    var faulted: bool   // a command that could work failed, or everything stopped
    var dirty: bool     // a start or a clean-up failed
    var unanswered: nat // the looks that gave no answer

    constructor (w: World)
      ensures this.w == w && log == [] && !crashed && !faulted && !dirty && unanswered == 0
    {
      this.w, log, crashed, faulted, dirty, unanswered := w, [], false, false, false, 0;
    }

    // A look at the disk, which may give no answer.
    method Look() returns (answered: bool)
      modifies `unanswered
      ensures unanswered == old(unanswered) + (if answered then 0 else 1)
    {
      answered := *;
      if !answered { unanswered := unanswered + 1; }
    }

    /** One command: it takes effect, fails, or everything stops before it. */
    method Command(able: bool, next: World) returns (ok: bool)
      modifies `w, `crashed, `faulted
      ensures old(crashed) ==> crashed
      ensures old(faulted) ==> faulted
      ensures ok ==> able && !crashed && faulted == old(faulted)
      ensures !faulted ==> (ok <==> able) && !crashed
      ensures w == if ok then next else old(w)
    {
      var fate: bool := *;
      var crash: bool := *;
      crashed := crashed || crash;
      faulted := faulted || !fate || crashed;
      ok := able && fate && !crashed;
      if ok { w := next; }
    }

    method Halt(u: string) returns (ok: bool)
      modifies `w, `log, `crashed, `faulted
      ensures old(crashed) ==> crashed
      ensures old(faulted) ==> faulted
      ensures ok ==> !crashed && faulted == old(faulted)
      ensures !faulted ==> ok
      ensures w == if ok then old(w).(running := old(w).running - {u}) else old(w)
      ensures log == if ok then old(log) + [Halted(u)] else old(log)
    {
      ok := Command(true, w.(running := w.running - {u}));
      if ok { log := log + [Halted(u)]; }
    }

    // A snapshot of the live data, at the staging name.
    method CopyLive() returns (ok: bool)
      modifies `w, `log, `crashed, `faulted
      ensures old(crashed) ==> crashed
      ensures old(faulted) ==> faulted
      ensures ok ==> !crashed && faulted == old(faulted)
      ensures !faulted ==> ok
      ensures w == if ok then old(w).(staged := Copy(old(w).live)) else old(w)
      ensures log == if ok then old(log) + [Copied(old(w).running)] else old(log)
    {
      ok := Command(true, w.(staged := Copy(w.live)));
      if ok { log := log + [Copied(w.running)]; }
    }

    method Flush() returns (ok: bool)
      modifies `w, `log, `crashed, `faulted
      ensures old(crashed) ==> crashed
      ensures old(faulted) ==> faulted
      ensures ok ==> !crashed && faulted == old(faulted)
      ensures !faulted ==> ok
      ensures w == old(w)
      ensures log == if ok then old(log) + [Flushed(old(w).running)] else old(log)
    {
      ok := Command(true, w);
      if ok { log := log + [Flushed(w.running)]; }
    }

    // A snapshot of the live data, as the undo point, which nothing labels yet.
    method Sample() returns (ok: bool)
      modifies `w, `log, `crashed, `faulted
      ensures old(crashed) ==> crashed
      ensures old(faulted) ==> faulted
      ensures ok ==> !crashed && faulted == old(faulted)
      ensures !faulted ==> ok
      ensures w == if ok then old(w).(undo := Some(Point(old(w).live, false))) else old(w)
      ensures log == if ok then old(log) + [Sampled(old(w).running)] else old(log)
    {
      ok := Command(true, w.(undo := Some(Point(w.live, false))));
      if ok { log := log + [Sampled(w.running)]; }
    }

    method Exchange() returns (ok: bool)
      requires w.staged.Copy?
      modifies `w, `log, `crashed, `faulted
      ensures old(crashed) ==> crashed
      ensures old(faulted) ==> faulted
      ensures ok ==> !crashed && faulted == old(faulted)
      ensures !faulted ==> ok
      ensures w == if ok then old(w).(live := old(w).staged.files, staged := Copy(old(w).live)) else old(w)
      ensures log == if ok then old(log) + [Exchanged(old(w).running)] else old(log)
    {
      ok := Command(true, w.(live := w.staged.files, staged := Copy(w.live)));
      if ok { log := log + [Exchanged(w.running)]; }
    }

    /** A start or a clean-up: when it fails, that is noted. */
    method CleanUp(next: World) returns (ok: bool)
      modifies `w, `crashed, `faulted, `dirty
      ensures old(faulted) ==> faulted
      ensures (dirty && !old(dirty)) || (crashed && !old(crashed)) ==> faulted
      ensures old(crashed) ==> crashed
      ensures old(dirty) ==> dirty
      ensures w == next || (w == old(w) && (crashed || dirty))
      ensures ok ==> !crashed && w == next
      ensures !ok ==> crashed || dirty
      ensures !faulted ==> ok
    {
      ok := Command(true, next);
      if !ok { dirty := true; }
    }

    method Start(active: seq<string>) returns (ok: bool)
      modifies `w, `crashed, `faulted, `dirty
      ensures old(faulted) ==> faulted
      ensures (dirty && !old(dirty)) || (crashed && !old(crashed)) ==> faulted
      ensures old(crashed) ==> crashed
      ensures old(dirty) ==> dirty
      ensures w == old(w).(running := w.running)
      ensures old(w).running <= w.running <= old(w).running + (set u | u in active)
      ensures crashed || dirty || w.running == old(w).running + (set u | u in active)
      ensures ok ==> !crashed
      ensures !ok ==> crashed || dirty
      ensures !faulted && !old(crashed) ==> ok
    {
      ok := !crashed;
      for i := 0 to |active|
        invariant old(crashed) ==> crashed
        invariant old(dirty) ==> dirty
        invariant (old(faulted) ==> faulted) && ((dirty && !old(dirty)) || (crashed && !old(crashed)) ==> faulted) && (!faulted && !old(crashed) ==> ok)
        invariant w == old(w).(running := w.running)
        invariant old(w).running <= w.running <= old(w).running + (set u | u in active)
        invariant crashed || dirty || forall k | 0 <= k < i :: active[k] in w.running
        invariant ok ==> !crashed
        invariant !ok ==> crashed || dirty
      {
        var one := CleanUp(w.(running := w.running + {active[i]}));
        ok := ok && one;
      }
      if !crashed && !dirty {
        assert w.running == old(w).running + (set u | u in active);
      }
    }

    // Every running unit of the app's, in the manifest's order.
    method Active(units: seq<string>) returns (active: seq<string>)
      ensures active == Running(units, w.running)
    {
      active := [];
      for i := 0 to |units|
        invariant active == Running(units[..i], w.running)
      {
        assert units[..i + 1][..i] == units[..i];
        if units[i] in w.running { active := active + [units[i]]; }
      }
      assert units[..|units|] == units;
    }

    /** The units go down last first, up to the first that does not. */
    method Stop(active: seq<string>) returns (ok: bool)
      modifies `w, `log, `crashed, `faulted
      ensures old(crashed) ==> crashed
      ensures old(faulted) ==> faulted
      ensures ok ==> !crashed
      ensures !faulted && !old(crashed) ==> ok
      ensures w == old(w).(running := w.running)
      ensures old(w).running - (set u | u in active) <= w.running <= old(w).running
      ensures ok ==> w.running == old(w).running - (set u | u in active)
      ensures exists n | 0 <= n <= |active| :: log == old(log) + LastFirst(active, n) && (ok ==> n == |active|)
    {
      ok := !crashed;
      var i: nat := |active|;
      assert LastFirst(active, 0) == [];
      while i > 0
        invariant old(crashed) ==> crashed
        invariant (old(faulted) ==> faulted) && (!faulted && !old(crashed) ==> ok)
        invariant w == old(w).(running := w.running)
        invariant old(w).running - (set u | u in active) <= w.running <= old(w).running
        invariant i <= |active| && (ok || crashed)
        invariant ok ==> !crashed && forall k | i <= k < |active| :: active[k] !in w.running
        invariant log == old(log) + LastFirst(active, |active| - i)
      {
        i := i - 1;
        ok := Halt(active[i]);
        if !ok {
          assert log == old(log) + LastFirst(active, |active| - i - 1);
          return;
        }
        assert LastFirst(active, |active| - i) == LastFirst(active, |active| - i - 1) + [Halted(active[i])];
      }
      if !ok { assert log == old(log) + LastFirst(active, |active|); }
    }

    // The running units stopped, or started again if one would not.
    method HaltAll(units: seq<string>) returns (ok: bool, active: seq<string>)
      requires !dirty
      modifies `w, `log, `crashed, `faulted, `dirty
      ensures old(crashed) ==> crashed
      ensures old(faulted) ==> faulted
      ensures active == Running(units, old(w).running)
      ensures w == old(w).(running := w.running) && w.running <= old(w).running
      ensures old(log) <= log && forall e | e in log[|old(log)|..] :: e.Halted?
      ensures ok ==>
        && !crashed && !dirty
        && w.running == old(w).running - (set u | u in active)
        && log == old(log) + LastFirst(active, |active|)
      ensures !ok ==> crashed || dirty || w == old(w)
      ensures !faulted && !old(crashed) ==> ok
    {
      active := Active(units);
      ok := Stop(active);
      if !ok {
        var started := Start(active);
        assert crashed || dirty || w.running == old(w).running;
      }
    }

    // A leftover subvolume is ours to clear; anything else there is not.
    method Drop()
      modifies `w, `crashed, `faulted, `dirty
      ensures old(faulted) ==> faulted
      ensures (dirty && !old(dirty)) || (crashed && !old(crashed)) ==> faulted
      ensures old(crashed) ==> crashed
      ensures old(dirty) ==> dirty
      ensures w == old(w) || w == old(w).(staged := Nothing)
      ensures crashed || dirty || w == (if old(w).staged.Copy? then old(w).(staged := Nothing) else old(w))
      ensures w.staged == NotOurs <==> old(w).staged == NotOurs
    {
      if w.staged.Copy? {
        var ok := CleanUp(w.(staged := Nothing));
      }
    }

    // A failure up to the swap.
    method GiveUp(active: seq<string>, ghost w0: World)
      requires w.live == w0.live && w.running <= w0.running
      requires (w.staged == NotOurs <==> w0.staged == NotOurs) && (w.undo == None || crashed || dirty)
      requires forall u :: u in active ==> u in w0.running
      requires w0.running - (set u | u in active) <= w.running
      modifies `w, `crashed, `faulted, `dirty
      ensures old(faulted) ==> faulted
      ensures (dirty && !old(dirty)) || (crashed && !old(crashed)) ==> faulted
      ensures old(crashed) ==> crashed
      ensures old(dirty) ==> dirty
      ensures w.live == w0.live && w.running <= w0.running
      ensures crashed || dirty || Unchanged(w0, w)
    {
      Drop();
      var ok := Start(active);
      if !crashed && !dirty {
        assert w.running == w0.running;
      }
    }

    // The renames, one by one, if the directory can be listed.
    method DropAside() returns (ok: bool, ghost unlisted: bool)
      requires w.staged.Copy? && !crashed
      modifies `w, `crashed, `faulted, `unanswered
      ensures old(faulted) ==> faulted
      ensures crashed && !old(crashed) ==> faulted
      ensures ok ==> !crashed && faulted == old(faulted)
      ensures !faulted ==> ok
      ensures unanswered == old(unanswered) + (if unlisted then 1 else 0)
      ensures w.staged.Copy? && w == old(w).(staged := w.staged)
      ensures ok ==> forall n :: n in w.staged.files <==> n in old(w).staged.files && (unlisted || !n.Aside?)
      ensures forall n | n in w.staged.files :: n in old(w).staged.files && w.staged.files[n] == old(w).staged.files[n]
    {
      var answered := Look(); // ls -1
      ok, unlisted := true, !answered;
      var aside := if answered then set n | n in w.staged.files && n.Aside? else {};
      var todo := aside;
      while todo != {}
        invariant todo <= aside && ok && !crashed && faulted == old(faulted)
        invariant unanswered == old(unanswered) + (if unlisted then 1 else 0)
        invariant w.staged.Copy? && w == old(w).(staged := w.staged)
        invariant forall n :: n in w.staged.files <==> n in old(w).staged.files && (n in todo || n !in aside)
        invariant forall n | n in w.staged.files :: w.staged.files[n] == old(w).staged.files[n]
        decreases todo
      {
        var n :| n in todo;
        todo := todo - {n};
        ok := Command(true, w.(staged := Copy(w.staged.files - {n})));
        if !ok { return; }
      }
    }

    /** RestoreDB, into the staged copy. */
    method PutDatabase(member: Files) returns (ok: bool, ghost unseen: Unseen)
      requires w.staged.Copy?
      modifies `w, `crashed, `faulted, `unanswered
      ensures old(faulted) ==> faulted
      ensures crashed && !old(crashed) ==> faulted
      ensures old(crashed) ==> crashed
      ensures ok ==> !crashed && faulted == old(faulted)
      ensures !faulted ==> (ok <==> Db in member)
      ensures unanswered == old(unanswered) + unseen.Count()
      ensures w.staged.Copy? && w == old(w).(staged := w.staged)
      ensures ok ==> IsPutBack(old(w).staged.files, member, w.staged.files, unseen)
    {
      unseen := Unseen(false, false);
      ok := Command(true, w.(staged := Copy(w.staged.files - {Wal, Shm})));
      if !ok { return; }
      ok := Command(Db in member, w.(staged := Copy(w.staged.files[Db := if Db in member then member[Db] else 0])));
      if !ok { return; }
      var answered := Look(); // test -s
      unseen := Unseen(!answered, false);
      if answered && HasFrames(member) {
        ok := Command(true, w.(staged := Copy(w.staged.files[Wal := member[Wal]])));
        if !ok { return; }
      }
      ghost var unlisted;
      ok, unlisted := DropAside();
      unseen := Unseen(!answered, unlisted);
    }

    // The sample, with its sidecar; one that cannot be labelled is taken away again.
    method TakeUndo() returns (ok: bool)
      requires w.undo == None
      modifies `w, `log, `crashed, `faulted, `dirty
      ensures old(crashed) ==> crashed
      ensures old(faulted) ==> faulted
      ensures old(dirty) ==> dirty
      ensures (dirty && !old(dirty)) || (crashed && !old(crashed)) ==> faulted
      ensures !faulted ==> ok
      ensures ok ==> !crashed && faulted == old(faulted) && w == old(w).(undo := Some(Point(old(w).live, true)))
      ensures w == old(w).(undo := w.undo)
      ensures !ok ==> crashed || dirty || w.undo == None
      ensures log == old(log) || log == old(log) + [Sampled(old(w).running)]
      ensures ok ==> log != old(log)
    {
      ok := Sample();
      if !ok { return; }
      ok := Command(true, w.(undo := Some(Point(w.live, true)))); // the sidecar
      if !ok {
        var gone := CleanUp(w.(undo := None));
      }
    }

    /** The staged copy with the database in it; nothing live is edited. */
    method Stage(member: Files) returns (ok: bool, ghost unseen: Unseen)
      modifies `w, `log, `crashed, `faulted, `unanswered
      ensures old(crashed) ==> crashed
      ensures old(faulted) ==> faulted
      ensures crashed && !old(crashed) ==> faulted
      ensures !faulted ==> (ok <==> Db in member && old(w).staged == Nothing)
      ensures ok ==> !crashed && faulted == old(faulted)
      ensures ok ==> w.staged.Copy? && IsPutBack(old(w).live, member, w.staged.files, unseen)
      ensures unanswered == old(unanswered) + unseen.Count()
      ensures w == old(w).(staged := w.staged)
      ensures w.staged == NotOurs <==> old(w).staged == NotOurs
      ensures log == old(log) || log == old(log) + [Copied(old(w).running)]
           || log == old(log) + [Copied(old(w).running), Flushed(old(w).running)]
      ensures ok ==> log == old(log) + [Copied(old(w).running), Flushed(old(w).running)]
    {
      ok, unseen := false, Unseen(false, false);
      if w.staged != Nothing { return; } // in the way
      ok := Command(true, w); // the area's group
      if !ok { return; }
      ok := CopyLive();
      if !ok { return; }
      ok, unseen := PutDatabase(member);
      if !ok { return; }
      ok := Flush();
    }

    /** The copy, the undo point and the exchange, one after the other; up to the exchange nothing
      * live is touched, and the undo point of one that fails goes again. */
    method SwapIn(member: Files) returns (ok: bool, ghost unseen: Unseen)
      requires w.undo == None
      modifies this
      ensures old(crashed) ==> crashed
      ensures old(faulted) ==> faulted
      ensures old(dirty) ==> dirty
      ensures (dirty && !old(dirty)) || (crashed && !old(crashed)) ==> faulted
      ensures unanswered == old(unanswered) + unseen.Count()
      ensures old(log) <= log && Touches(log[|old(log)|..], old(w).running, ok)
      ensures ok ==>
        && !crashed && faulted == old(faulted)
        && w == old(w).(live := w.live, staged := Copy(old(w).live), undo := Some(Point(old(w).live, true)))
        && IsPutBack(old(w).live, member, w.live, unseen)
      ensures !ok ==> w == old(w).(staged := w.staged, undo := w.undo) && (crashed || dirty || w.undo == None)
      ensures !ok ==> (w.staged == NotOurs <==> old(w).staged == NotOurs)
      ensures !faulted ==> (ok <==> Db in member && old(w).staged == Nothing)
    {
      ok, unseen := Stage(member);
      if !ok { return; }
      ok := TakeUndo();
      if !ok { return; }
      ok := Exchange();
      if !ok {
        var gone := CleanUp(w.(undo := None));
      }
    }

    /** restoreRecorder. halted says every running unit was stopped, swapped that the exchange
      * happened, unseen which looks gave no answer. Before the units are down a failure leaves even an
      * earlier restore's leftover. */
    method Restore(units: seq<string>, member: Files)
      returns (ok: bool, ghost halted: bool, ghost swapped: bool, ghost unseen: Unseen)
      requires w.undo == None && !dirty
      modifies this
      ensures old(crashed) ==> crashed
      ensures old(log) <= log && Quiet(log[|old(log)|..], units)
      ensures halted ==> LastFirst(Running(units, old(w).running), |Running(units, old(w).running)|) <= log[|old(log)|..]
      ensures forall e | e in log[|old(log)|..] && !e.Halted? :: halted
      ensures !swapped ==> forall e | e in log[|old(log)|..] :: !e.Exchanged?
      ensures swapped ==>
        var active := Running(units, old(w).running);
        log[|old(log)|..] == LastFirst(active, |active|) + Swap(old(w).running - (set u | u in active))
      ensures unanswered == old(unanswered) + unseen.Count()
      ensures AllOrNothing(old(w), w, member, unseen)
      ensures swapped ==> halted && IsPutBack(old(w).live, member, w.live, unseen) && w.undo == Some(Point(old(w).live, true))
      ensures swapped ==> (IsRestored(old(w).live, member, w.live) <==> !Hidden(old(w).live, member, unseen))
      ensures !swapped ==> w.live == old(w).live
      ensures !halted ==> crashed || dirty || (!ok && w == old(w))
      ensures halted && !swapped ==> crashed || dirty || (!ok && Unchanged(old(w), w))
      ensures swapped ==> crashed || dirty || (ok && w.staged == Nothing && w.running == old(w).running)
      ensures ok ==> swapped && !crashed
      ensures !faulted && !old(crashed) ==> (ok <==> Db in member && old(w).staged != NotOurs)
    {
      ghost var w0, log0 := w, log;
      halted, swapped, unseen := false, false, Unseen(false, false);
      var active;
      ok, active := HaltAll(units);
      if !ok { return; }
      halted := true;
      Drop();
      ghost var log1, quiet := log, w.running;
      ok, unseen := SwapIn(member);
      MarksJoin(log0, log1, log, units, active, w0.running, quiet, ok);
      if !ok {
        GiveUp(active, w0);
        return;
      }
      RestoredIffNothingHidden(w0.live, member, w.live, unseen);
      swapped := true;
      ok := Start(active);
      assert crashed || dirty || w.running == w0.running;
      Drop();
      ok := ok && !crashed;
    }
  }

  /** A member whose newest rows are in its log, and data with a rename beside its damaged database: a
    * restore that reports success has lost the rows if the look for the log was not answered, and
    * keeps the rename if the listing was not. */
  method UnansweredLooksGoUnnoticed() returns (g: Guest, ok: bool, ghost unseen: Unseen)
    ensures ok && unseen.log ==> Db in g.w.live && g.w.live[Db] == 2 && Wal !in g.w.live
    ensures ok && unseen.renames ==> Aside("db.corrupt") in g.w.live
    ensures ok ==> (IsRestored(map[Db := 1, Aside("db.corrupt") := 4], map[Db := 2, Wal := 3], g.w.live) <==> g.unanswered == 0)
  {
    var live := map[Db := 1, Aside("db.corrupt") := 4];
    g := new Guest(World(live, Nothing, None, {"hass"}));
    ghost var halted, swapped;
    ok, halted, swapped, unseen := g.Restore(["hass"], map[Db := 2, Wal := 3]);
    assert Aside("db.corrupt") in live && HasRenames(live);
    assert ok && unseen.renames ==> SameFile(live, g.w.live, Aside("db.corrupt"));
  }
}
