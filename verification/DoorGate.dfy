/** The front door's remembered answer about a session, under any number of requests at once
  * (reverse-proxy/gate.go). */
module DoorGate {
  import opened Options

  const STANDS_FOR: nat := 30

  // A token's hash to when the dashboard last said it stands.
  type Stood = map<nat, int>

  predicate Remembered(at: Option<int>, now: int) {
    at.Some? && now - at.value < 30
  }

  function Lookup(stood: Stood, tok: nat): Option<int> {
    if tok in stood then Some(stood[tok]) else None
  }

  /** What is done once the dashboard has answered, its clock read from time to time between from and
    * to: the stale entries go, the others stay, and this one is stamped with the last reading or
    * dropped. */
  ghost predicate Settled(stood: Stood, stood': Stood, tok: nat, yes: bool, from: int, to: int) {
    && (forall k | k in stood' && k != tok :: k in stood && stood'[k] == stood[k] && from - stood[k] < 30)
    && (forall k | k in stood && k != tok && to - stood[k] < 30 :: k in stood')
    && (if yes then tok in stood' && stood'[tok] == to else tok !in stood')
  }

  class Gate {
    var stood: Stood
    var clock: int

    constructor (clock: int)
      ensures stood == map[] && this.clock == clock
    {
      stood, this.clock := map[], clock;
    }

    // One reading of the clock.
    method Now() returns (now: int)
      modifies `clock
      ensures now == clock >= old(clock)
    {
      var on: int := *;
      if on > 0 { clock := clock + on; }
      now := clock;
    }

    // The read under the lock.
    method Look(tok: nat) returns (at: Option<int>)
      ensures at == Lookup(stood, tok)
    {
      at := if tok in stood then Some(stood[tok]) else None;
    }

    /** What is done under the lock once an answer is in; the clock is read for every entry of the
      * sweep, and again for the stamp. */
    method Settle(tok: nat, yes: bool) returns (admitted: bool)
      modifies this
      ensures clock >= old(clock)
      ensures Settled(old(stood), stood, tok, yes, old(clock), clock)
      ensures admitted == yes
    {
      var todo := stood.Keys;
      ghost var was := stood;
      while todo != {}
        invariant todo <= was.Keys && clock >= old(clock)
        invariant forall k | k in stood :: k in was && stood[k] == was[k] && (k in todo || old(clock) - was[k] < STANDS_FOR)
        invariant forall k | k in was && (k in todo || clock - was[k] < STANDS_FOR) :: k in stood
        decreases todo
      {
        var k :| k in todo;
        todo := todo - {k};
        var now := Now();
        if now - stood[k] >= STANDS_FOR { stood := stood - {k}; }
      }
      if !yes {
        stood := stood - {tok};
        return false;
      }
      var now := Now();
      stood := stood[tok := now];
      return true;
    }
  }

  // ---------------------------------------------------------------- requests at once

  // One request: it has looked, or it has asked, and been answered or not yet.
  datatype Request =
    | Looked(tok: nat, at: Option<int>)
    | Sent(tok: nat, sent: int, answer: Option<bool>)
    | Over

  datatype World = World(
    now: int,
    since: map<nat, int>,    // when each session was registered
    revoked: map<nat, int>,  // when each was taken off the list
    stood: Stood,
    requests: seq<Request>)

  datatype Event =
    | Passes(to: int)
    | Registers(tok: nat)    // a fresh session
    | Revokes(tok: nat)
    | Arrives(tok: nat)      // a new request reads what is remembered
    | Decides(r: nat)        // it is let in on that, or asks
    | Answers(r: nat)        // the dashboard reads its registry
    | Settles(r: nat)        // the answer is in
    | Fails(r: nat)          // no answer came

  predicate Trusted(w: World, tok: nat) {
    tok in w.since && tok !in w.revoked
  }

  // The session this event lets in, if it does.
  function Admits(w: World, e: Event): Option<nat> {
    match e
    case Decides(r) =>
      if r < |w.requests| && w.requests[r].Looked? && Remembered(w.requests[r].at, w.now) then Some(w.requests[r].tok) else None
    case Settles(r) =>
      if r < |w.requests| && w.requests[r].Sent? && w.requests[r].answer == Some(true) then Some(w.requests[r].tok) else None
    case _ => None
  }

  /** d bounds one ask, from its sending to its stamp. */
  ghost predicate Step(w: World, e: Event, w': World, d: nat) {
    match e
    case Passes(to) => w.now <= to && w' == w.(now := to)
    case Registers(tok) => tok !in w.since && w' == w.(since := w.since[tok := w.now])
    case Revokes(tok) => Trusted(w, tok) && w' == w.(revoked := w.revoked[tok := w.now])
    case Arrives(tok) => w' == w.(requests := w.requests + [Looked(tok, Lookup(w.stood, tok))])
    case Decides(r) =>
      && r < |w.requests| && w.requests[r].Looked?
      && var q := w.requests[r];
         w' == w.(requests := w.requests[r := if Remembered(q.at, w.now) then Over else Sent(q.tok, w.now, None)])
    case Answers(r) =>
      && r < |w.requests| && w.requests[r].Sent? && w.requests[r].answer == None
      && w' == w.(requests := w.requests[r := w.requests[r].(answer := Some(Trusted(w, w.requests[r].tok)))])
    case Settles(r) =>
      && r < |w.requests| && w.requests[r].Sent? && w.requests[r].answer.Some?
      && w.now <= w'.now && w'.now - w.requests[r].sent <= d
      && w' == w.(now := w'.now, requests := w.requests[r := Over], stood := w'.stood)
      && Settled(w.stood, w'.stood, w.requests[r].tok, w.requests[r].answer.value, w.now, w'.now)
    case Fails(r) =>
      && r < |w.requests| && w.requests[r].Sent?
      && w' == w.(requests := w.requests[r := Over])
  }

  // A stamp is no later than now, of a session that was on the list, and not long after its end.
  predicate StampOk(w: World, tok: nat, at: int, d: nat) {
    && at <= w.now
    && tok in w.since && w.since[tok] <= at
    && (tok in w.revoked ==> at <= w.revoked[tok] + d)
  }

  predicate RequestOk(w: World, q: Request, d: nat) {
    match q
    case Looked(tok, at) => at.Some? ==> StampOk(w, tok, at.value, d)
    case Sent(tok, sent, answer) =>
      && sent <= w.now
      && (answer == Some(true) ==> tok in w.since && w.since[tok] <= w.now && (tok in w.revoked ==> sent <= w.revoked[tok]))
    case Over => true
  }

  ghost predicate Inv(w: World, d: nat) {
    && (forall tok | tok in w.stood :: StampOk(w, tok, w.stood[tok], d))
    && (forall i | 0 <= i < |w.requests| :: RequestOk(w, w.requests[i], d))
    && (forall tok | tok in w.since :: w.since[tok] <= w.now)
    && (forall tok | tok in w.revoked :: w.revoked[tok] <= w.now && tok in w.since)
  }

  ghost predicate Run(ws: seq<World>, es: seq<Event>, d: nat) {
    && |ws| == |es| + 1
    && ws[0].stood == map[] && ws[0].requests == [] && ws[0].since == map[] && ws[0].revoked == map[]
    && forall i | 0 <= i < |es| :: Step(ws[i], es[i], ws[i + 1], d)
  }

  lemma {:induction false} StepKeeps(w: World, e: Event, w': World, d: nat)
    requires Inv(w, d) && Step(w, e, w', d)
    ensures Inv(w', d)
  {
    forall i | 0 <= i < |w'.requests| ensures RequestOk(w', w'.requests[i], d) {
      RequestStays(w, e, w', d, i);
    }
    if e.Settles? { SettleKeepsStamps(w, w.requests[e.r], w', d); }
  }

  lemma {:induction false} RequestStays(w: World, e: Event, w': World, d: nat, i: nat)
    requires Inv(w, d) && Step(w, e, w', d) && i < |w'.requests|
    ensures RequestOk(w', w'.requests[i], d)
  {
    if i < |w.requests| { assert RequestOk(w, w.requests[i], d); }
  }

  lemma {:induction false} SettleKeepsStamps(w: World, q: Request, w': World, d: nat)
    requires forall tok | tok in w.stood :: StampOk(w, tok, w.stood[tok], d)
    requires q.Sent? && q.answer.Some? && RequestOk(w, q, d) && w.now <= w'.now && w'.now - q.sent <= d
    requires w' == w.(now := w'.now, requests := w'.requests, stood := w'.stood)
    requires Settled(w.stood, w'.stood, q.tok, q.answer.value, w.now, w'.now)
    ensures forall tok | tok in w'.stood :: StampOk(w', tok, w'.stood[tok], d)
  {
  }

  lemma {:induction false} RunKeeps(ws: seq<World>, es: seq<Event>, d: nat)
    requires Run(ws, es, d)
    ensures Inv(ws[|es|], d)
    decreases |es|
  {
    if es != [] {
      var n := |es| - 1;
      RunKeeps(ws[..|ws| - 1], es[..n], d);
      StepKeeps(ws[n], es[n], ws[n + 1], d);
    }
  }

  /** However requests, answers and the revocation fall: nothing is let in on a session that was never
    * registered, nor once what is remembered and one ask have passed since its end -- a yes given
    * before the end and stamped after a later no included. */
  lemma {:induction false} RevocationIsBounded(ws: seq<World>, es: seq<Event>, i: nat, tok: nat, d: nat)
    requires Run(ws, es, d) && i < |es| && Admits(ws[i], es[i]) == Some(tok)
    ensures tok in ws[i].since && ws[i].since[tok] <= ws[i].now <= ws[i + 1].now
    ensures tok in ws[i].revoked ==> ws[i + 1].now < ws[i].revoked[tok] + 30 + d
  {
    RunKeeps(ws[..i + 1], es[..i], d);
    var w := ws[i];
    assert ws[..i + 1][i] == w && Inv(w, d);
    assert Step(w, es[i], ws[i + 1], d);
    match es[i]
    case Decides(r) => assert RequestOk(w, w.requests[r], d);
    case Settles(r) => assert RequestOk(w, w.requests[r], d);
    case _ =>
  }

  // A yes read as the session ends, stamped a whole ask later, and a request let in on it in the
  // last second it is remembered.
  function Tight(i: nat, d: nat): World {
    var end := 30 + d - 1;
    var in_, out := map[7 := 0], map[7 := 0];
    if i == 0 then World(0, map[], map[], map[], [])
    else if i == 1 then World(0, in_, map[], map[], [])
    else if i == 2 then World(0, in_, map[], map[], [Looked(7, None)])
    else if i == 3 then World(0, in_, map[], map[], [Sent(7, 0, None)])
    else if i == 4 then World(0, in_, map[], map[], [Sent(7, 0, Some(true))])
    else if i == 5 then World(0, in_, out, map[], [Sent(7, 0, Some(true))])
    else if i == 6 then World(d, in_, out, map[], [Sent(7, 0, Some(true))])
    else if i == 7 then World(d, in_, out, map[7 := d], [Over])
    else if i == 8 then World(end, in_, out, map[7 := d], [Over])
    else if i == 9 then World(end, in_, out, map[7 := d], [Over, Looked(7, Some(d))])
    else World(end, in_, out, map[7 := d], [Over, Over])
  }

  function TightEvent(i: nat, d: nat): Event {
    if i == 0 then Registers(7)
    else if i == 1 then Arrives(7)
    else if i == 2 then Decides(0)
    else if i == 3 then Answers(0)
    else if i == 4 then Revokes(7)
    else if i == 5 then Passes(d)
    else if i == 6 then Settles(0)
    else if i == 7 then Passes(30 + d - 1)
    else if i == 8 then Arrives(7)
    else Decides(1)
  }

  lemma {:induction false} TightSteps(i: nat, d: nat)
    requires i < 10
    ensures Step(Tight(i, d), TightEvent(i, d), Tight(i + 1, d), d)
  {
  }

  /** The bound is met, for every length of an ask. */
  lemma {:induction false} BoundIsMet(d: nat)
    ensures exists ws: seq<World>, es: seq<Event>, i: nat ::
      && Run(ws, es, d) && i < |es| && Admits(ws[i], es[i]) == Some(7)
      && 7 in ws[i].revoked && ws[i].now == ws[i].revoked[7] + 30 + d - 1
  {
    var ws := seq(11, (i: nat) => Tight(i, d));
    var es := seq(10, (i: nat) => TightEvent(i, d));
    forall i | 0 <= i < 10 ensures Step(ws[i], es[i], ws[i + 1], d) { TightSteps(i, d); }
    assert Run(ws, es, d);
    var nine: nat := 9;
    assert Admits(ws[nine], es[nine]) == Some(7);
  }
}
