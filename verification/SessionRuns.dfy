/** Trust over whole runs: where every session a browser holds came from (dashboard/main.go,
  * dashboard/hop.go, dashboard/gate.go). */
module SessionRuns {
  import opened Options
  import opened SessionTrust

  type Browser = int

  // What happened, in order. A browser holds what it was ever given.
  datatype Event =
    | Issued(code: nat, at: int)
    | Handed(b: Browser, code: nat, tok: nat, at: int)
    | Asked(b: Browser, secret: nat, at: int)
    | Approved(approver: nat, secret: nat, tok: nat, at: int) // with the session the approver carried
    | Collected(b: Browser, secret: nat, tok: nat, at: int)
    | Minted(b: Browser, code: nat, tok: nat, at: int)
    | Spent(b: Browser, code: nat, tok: nat, at: int)

  type Log = seq<Event>

  predicate Gives(e: Event, b: Browser, tok: nat) {
    match e
    case Handed(c, _, t, _) => c == b && t == tok
    case Collected(c, _, t, _) => c == b && t == tok
    case Spent(c, _, t, _) => c == b && t == tok
    case _ => false
  }

  predicate Holds(log: Log, b: Browser, tok: nat) {
    exists i | 0 <= i < |log| :: Gives(log[i], b, tok)
  }

  // A session made for a device that was registered with it.
  predicate Made(e: Event, tok: nat) {
    (e.Handed? || e.Approved?) && e.tok == tok
  }

  predicate EverTrusted(log: Log, tok: nat) {
    exists i | 0 <= i < |log| :: Made(log[i], tok)
  }

  /** What may follow a log: every grant out of a code or an approved request that is still alive and
    * was not used, and every approval and every minting by a browser that was trusted. */
  ghost predicate Justified(log: Log, e: Event) {
    match e
    case Issued(code, _) => forall x | x in log :: !(x.Issued? && x.code == code)
    case Handed(_, code, tok, at) =>
      && (exists t :: Issued(code, t) in log && at <= t + 600)
      && (forall x | x in log :: !(x.Handed? && x.code == code))
      && !EverTrusted(log, tok)
    case Asked(_, secret, _) => forall x | x in log :: !(x.Asked? && x.secret == secret)
    case Approved(approver, secret, tok, at) =>
      && (exists b, t :: Asked(b, secret, t) in log && at - t <= 300)
      && (forall x | x in log :: !(x.Approved? && x.secret == secret))
      && EverTrusted(log, approver) && (exists b :: Holds(log, b, approver))
      && !EverTrusted(log, tok)
    case Collected(b, secret, tok, at) =>
      && (exists t :: Asked(b, secret, t) in log && at - t <= 300)
      && (exists a, t :: Approved(a, secret, tok, t) in log)
      && (forall x | x in log :: !(x.Collected? && x.secret == secret))
    case Minted(b, code, tok, _) =>
      && Holds(log, b, tok)
      && (forall x | x in log :: !(x.Minted? && x.code == code))
    case Spent(_, code, tok, at) =>
      && (exists b, t :: Minted(b, code, tok, t) in log && at - t <= 60)
      && (forall x | x in log :: !(x.Spent? && x.code == code))
  }

  ghost predicate Provenance(log: Log) {
    log == [] || (Provenance(log[..|log| - 1]) && Justified(log[..|log| - 1], log[|log| - 1]))
  }

  lemma {:induction false} JustifiedAt(log: Log, i: nat)
    requires Provenance(log) && i < |log|
    ensures Justified(log[..i], log[i]) && Provenance(log[..i])
    decreases |log|
  {
    var n := |log| - 1;
    if i < n {
      JustifiedAt(log[..n], i);
      assert log[..n][..i] == log[..i];
    }
  }

  // `cleared` holds, for every request still being answered, the session the check at its door found
  // in the registry. The act itself comes later, under a lock the check does not take.
  datatype World = World(sv: Server, now: int, log: Log, cleared: multiset<nat>)

  // One request, or the machine's `briard open`, or time. A browser presents the cookies it was
  // given; a code may be presented by anybody.
  datatype Act =
    | Passes(to: int)
    | Opens(code: nat)
    | Redeems(b: Browser, code: nat, carried: Option<nat>, grant: Option<nat>)
    | Asks(b: Browser, cookie: Option<nat>)
    | Waits(b: Browser, secret: nat, grant: Option<nat>)
    | Clears(b: Browser, token: nat) // a request with this session passes the check
    | Ends(token: nat)               // and ends without approving or minting
    | Approves(approver: nat, code: nat, made: Option<nat>)
    | Revokes(id: nat, gone: Option<Device>)
    | Mints(b: Browser, token: nat, minted: Option<nat>)
    | Spends(b: Browser, code: nat, grant: Option<nat>)
    | Restarts // what is only in memory is gone

  // The relations are the ones SessionTrust.Dashboard's methods are proved against.
  ghost predicate Step(w: World, a: Act, w': World) {
    match a
    case Passes(to) => w.now <= to && w' == w.(now := to)
    case Opens(code) =>
      && code == w.sv.next
      && w' == w.(sv := w.sv.(handoff := Some(Handoff(code, w.now)), next := code + 1), log := w.log + [Issued(code, w.now)])
    case Redeems(b, code, carried, grant) =>
      && RedeemDone(w.sv, w'.sv, code, carried, w.now, grant)
      && w' == w.(sv := w'.sv, log := w.log + (if grant.Some? then [Handed(b, code, grant.value, w.now)] else []))
    case Asks(b, secret) =>
      && AskDone(w.sv, w'.sv, w.now, secret)
      && w' == w.(sv := w'.sv, log := w.log + (if secret.Some? then [Asked(b, secret.value, w.now)] else []))
    case Waits(b, secret, grant) =>
      && (exists t :: Asked(b, secret, t) in w.log)
      && WaitDone(w.sv, w'.sv, secret, w.now, grant)
      && w' == w.(sv := w'.sv, log := w.log + (if grant.Some? then [Collected(b, secret, grant.value, w.now)] else []))
    case Clears(b, tok) =>
      && Holds(w.log, b, tok) && Registered(w.sv.devices, tok)
      && w' == w.(cleared := w.cleared + multiset{tok})
    case Ends(tok) => tok in w.cleared && w' == w.(cleared := w.cleared - multiset{tok})
    case Approves(approver, code, tok) =>
      && approver in w.cleared
      && ApproveDone(w.sv, w'.sv, code, w.now, tok)
      && w' == w.(sv := w'.sv, cleared := w.cleared - multiset{approver},
                  log := w.log + (if tok.Some? then [Approved(approver, SecretOf(w, code), tok.value, w.now)] else []))
    case Revokes(id, gone) => RevokeDone(w.sv, w'.sv, id, gone) && w' == w.(sv := w'.sv)
    case Mints(b, tok, code) =>
      && tok in w.cleared && Holds(w.log, b, tok)
      && MintDone(w.sv, w'.sv, tok, w.now, code)
      && w' == w.(sv := w'.sv, cleared := w.cleared - multiset{tok},
                  log := w.log + (if code.Some? then [Minted(b, code.value, tok, w.now)] else []))
    case Spends(b, code, grant) =>
      && SpendDone(w.sv, w'.sv, code, w.now, grant)
      && w' == w.(sv := w'.sv, log := w.log + (if grant.Some? then [Spent(b, code, grant.value, w.now)] else []))
    case Restarts => w' == w.(sv := w.sv.(hops := map[], pending := map[]), cleared := multiset{})
  }

  function SecretOf(w: World, code: nat): nat {
    if code in w.sv.pending then w.sv.pending[code].secret else 0
  }

  // ---------------------------------------------------------------- the invariant

  // Every number in an event.
  predicate Below(e: Event, n: nat) {
    match e
    case Issued(code, _) => code < n
    case Handed(_, code, tok, _) => code < n && tok < n
    case Asked(_, secret, _) => secret < n
    case Approved(_, secret, tok, _) => secret < n && tok < n
    case Collected(_, secret, tok, _) => secret < n && tok < n
    case Minted(_, code, tok, _) => code < n && tok < n
    case Spent(_, code, tok, _) => code < n && tok < n
  }

  ghost predicate HandoffOk(sv: Server, log: Log) {
    sv.handoff.Some? ==>
      && Issued(sv.handoff.value.code, sv.handoff.value.issued) in log
      && forall x | x in log :: !(x.Handed? && x.code == sv.handoff.value.code)
  }

  ghost predicate HopOk(log: Log, code: nat, h: Hop) {
    && (exists b :: Minted(b, code, h.token, h.at) in log)
    && forall x | x in log :: !(x.Spent? && x.code == code)
  }

  ghost predicate PendingOk(log: Log, p: Pending) {
    && (exists b :: Asked(b, p.secret, p.asked) in log)
    && (p.token == None ==> forall x | x in log :: !(x.Approved? && x.secret == p.secret))
    && (p.token.Some? ==> exists a, t :: Approved(a, p.secret, p.token.value, t) in log)
    && forall x | x in log :: !(x.Collected? && x.secret == p.secret)
  }

  ghost predicate BelowAll(log: Log, n: nat) {
    forall x | x in log :: Below(x, n)
  }

  ghost predicate HopsOk(log: Log, hops: map<nat, Hop>) {
    forall c | c in hops :: HopOk(log, c, hops[c])
  }

  ghost predicate RequestsOk(log: Log, pending: map<nat, Pending>) {
    && (forall c | c in pending :: PendingOk(log, pending[c]))
    && (forall c, d | c in pending && d in pending && c != d :: pending[c].secret != pending[d].secret)
  }

  ghost predicate DevicesOk(log: Log, devices: seq<Device>) {
    forall d | d in devices :: EverTrusted(log, d.token)
  }

  ghost predicate Known(w: World) {
    && BelowAll(w.log, w.sv.next)
    && HandoffOk(w.sv, w.log)
    && HopsOk(w.log, w.sv.hops)
    && RequestsOk(w.log, w.sv.pending)
    && |w.sv.pending| <= 8
    && DevicesOk(w.log, w.sv.devices)
    && Provenance(w.log)
  }

  // A request that passed the check carries a session that was made, and that somebody was given.
  ghost predicate ClearedOk(log: Log, cleared: multiset<nat>) {
    forall t | t in cleared :: EverTrusted(log, t) && exists b :: Holds(log, b, t)
  }

  ghost predicate Inv(w: World) {
    Known(w) && ClearedOk(w.log, w.cleared)
  }

  // ---- each part over one more event

  lemma {:induction false} ProvenanceGrows(log: Log, e: Event)
    requires Provenance(log) && Justified(log, e)
    ensures Provenance(log + [e])
  {
    assert (log + [e])[..|log|] == log;
  }

  lemma {:induction false} HopsGrow(log: Log, e: Event, hops: map<nat, Hop>)
    requires HopsOk(log, hops) && (e.Spent? ==> e.code !in hops)
    ensures HopsOk(log + [e], hops)
  {
    forall c | c in hops ensures HopOk(log + [e], c, hops[c]) {
      assert HopOk(log, c, hops[c]);
      var b :| Minted(b, c, hops[c].token, hops[c].at) in log;
      assert Minted(b, c, hops[c].token, hops[c].at) in log + [e];
    }
  }

  lemma {:induction false} OneRequestGrows(log: Log, e: Event, p: Pending)
    requires PendingOk(log, p) && (e.Approved? || e.Collected? ==> e.secret != p.secret)
    ensures PendingOk(log + [e], p)
  {
    var b :| Asked(b, p.secret, p.asked) in log;
    assert Asked(b, p.secret, p.asked) in log + [e];
    if p.token.Some? {
      var a, t :| Approved(a, p.secret, p.token.value, t) in log;
      assert Approved(a, p.secret, p.token.value, t) in log + [e];
    }
  }

  lemma {:induction false} RequestsGrow(log: Log, e: Event, pending: map<nat, Pending>)
    requires RequestsOk(log, pending)
    requires forall c | c in pending && (e.Approved? || e.Collected?) :: e.secret != pending[c].secret
    ensures RequestsOk(log + [e], pending)
  {
    forall c | c in pending ensures PendingOk(log + [e], pending[c]) { OneRequestGrows(log, e, pending[c]); }
  }

  lemma {:induction false} TrustGrows(log: Log, e: Event, tok: nat)
    ensures EverTrusted(log, tok) || Made(e, tok) ==> EverTrusted(log + [e], tok)
  {
    if EverTrusted(log, tok) {
      var i :| 0 <= i < |log| && Made(log[i], tok);
      assert (log + [e])[i] == log[i];
    } else if Made(e, tok) {
      assert (log + [e])[|log|] == e;
    }
  }

  lemma {:induction false} DevicesGrow(log: Log, e: Event, devices: seq<Device>)
    requires DevicesOk(log, devices)
    ensures DevicesOk(log + [e], devices)
  {
    forall d | d in devices ensures EverTrusted(log + [e], d.token) { TrustGrows(log, e, d.token); }
  }

  lemma {:induction false} BelowGrows(log: Log, e: Event, n: nat, m: nat)
    requires BelowAll(log, n) && n <= m && Below(e, m)
    ensures BelowAll(log + [e], m)
  {
    forall x | x in log + [e] ensures Below(x, m) { assert x in log || x == e; }
  }

  lemma {:induction false} Sweeps(log: Log, sv: Server, now: int)
    ensures HopsOk(log, sv.hops) ==> HopsOk(log, SweptHops(sv.hops, now))
    ensures RequestsOk(log, sv.pending) ==> RequestsOk(log, SweptPending(sv.pending, now))
    ensures |SweptPending(sv.pending, now)| <= |sv.pending|
  {
    Fits(SweptPending(sv.pending, now).Keys, sv.pending.Keys);
  }

  // ---- what a number drawn now is not

  lemma {:induction false} NotYetTrusted(log: Log, n: nat, tok: nat)
    requires BelowAll(log, n) && tok >= n
    ensures !EverTrusted(log, tok)
  {
    forall i | 0 <= i < |log| ensures !Made(log[i], tok) { assert log[i] in log && Below(log[i], n); }
  }

  lemma {:induction false} RequestBelow(log: Log, n: nat, p: Pending)
    requires BelowAll(log, n) && PendingOk(log, p)
    ensures p.secret < n && (p.token.Some? ==> p.token.value < n)
  {
    var b :| Asked(b, p.secret, p.asked) in log;
    assert Below(Asked(b, p.secret, p.asked), n);
    if p.token.Some? {
      var a, t :| Approved(a, p.secret, p.token.value, t) in log;
      assert Below(Approved(a, p.secret, p.token.value, t), n);
    }
  }

  lemma {:induction false} HopBelow(log: Log, n: nat, code: nat, h: Hop)
    requires BelowAll(log, n) && HopOk(log, code, h)
    ensures code < n && h.token < n
  {
    var b :| Minted(b, code, h.token, h.at) in log;
    assert Below(Minted(b, code, h.token, h.at), n);
  }

  lemma {:induction false} HeldBelow(log: Log, n: nat, b: Browser, tok: nat)
    requires BelowAll(log, n) && Holds(log, b, tok)
    ensures tok < n
  {
    var i :| 0 <= i < |log| && Gives(log[i], b, tok);
    assert log[i] in log && Below(log[i], n);
  }

  // Asked once, so by one browser at one time.
  lemma {:induction false} AskedOnce(log: Log, b: Browser, t: int, b': Browser, t': int, secret: nat)
    requires Provenance(log) && Asked(b, secret, t) in log && Asked(b', secret, t') in log
    ensures b == b' && t == t'
  {
    var i :| 0 <= i < |log| && log[i] == Asked(b, secret, t);
    var j :| 0 <= j < |log| && log[j] == Asked(b', secret, t');
    if i < j { AskedDiffer(log, i, j); }
    if j < i { AskedDiffer(log, j, i); }
  }

  lemma {:induction false} AskedDiffer(log: Log, i: nat, j: nat)
    requires Provenance(log) && i < j < |log| && log[i].Asked? && log[j].Asked?
    ensures log[i].secret != log[j].secret
  {
    JustifiedAt(log, j);
    assert log[..j][i] in log[..j];
  }

  lemma {:induction false} WithoutIsWithin(devices: seq<Device>, token: nat)
    ensures forall d :: d in Without(devices, token) <==> d in devices && d.token != token
    decreases |devices|
  {
    if devices != [] {
      WithoutIsWithin(devices[1..], token);
      assert devices == [devices[0]] + devices[1..];
    }
  }

  lemma {:induction false} AfterRegister(log: Log, e: Event, sv: Server, sv': Server, tok: nat, carried: Option<nat>)
    requires DevicesOk(log, sv.devices) && RegisterDone(sv, sv', tok, carried) && Made(e, tok)
    ensures DevicesOk(log + [e], sv'.devices)
  {
    if carried.Some? { WithoutIsWithin(sv.devices, carried.value); }
    forall d | d in sv'.devices ensures EverTrusted(log + [e], d.token) {
      TrustGrows(log, e, d.token);
      assert d in sv.devices || d.token == tok;
    }
  }

  // ---- each request

  lemma {:induction false} OpenKeeps(w: World, code: nat, w': World)
    requires Known(w) && Step(w, Opens(code), w')
    ensures Known(w')
  {
    var e := Issued(code, w.now);
    NewIssue(w.log, w.sv.next, code, w.now);
    ProvenanceGrows(w.log, e);
    BelowGrows(w.log, e, w.sv.next, w'.sv.next);
    HopsGrow(w.log, e, w.sv.hops);
    RequestsGrow(w.log, e, w.sv.pending);
    DevicesGrow(w.log, e, w.sv.devices);
  }

  lemma {:induction false} NewIssue(log: Log, n: nat, code: nat, now: int)
    requires BelowAll(log, n) && code >= n
    ensures var e := Issued(code, now);
      && Justified(log, e)
      && e in log + [e]
      && forall x | x in log + [e] :: !(x.Handed? && x.code == code)
  {
    assert forall x | x in log :: Below(x, n);
    assert (log + [Issued(code, now)])[|log|] == Issued(code, now);
  }

  lemma {:induction false} HandKeeps(w: World, b: Browser, code: nat, carried: Option<nat>, tok: nat, w': World)
    requires Known(w) && Step(w, Redeems(b, code, carried, Some(tok)), w')
    ensures Known(w')
  {
    var e := Handed(b, code, tok, w.now);
    NotYetTrusted(w.log, w.sv.next, tok);
    HandJustified(w.log, w.sv, b, tok, w.now);
    assert Below(Issued(code, w.sv.handoff.value.issued), w.sv.next);
    ProvenanceGrows(w.log, e);
    BelowGrows(w.log, e, w.sv.next, w'.sv.next);
    HopsGrow(w.log, e, w.sv.hops);
    RequestsGrow(w.log, e, w.sv.pending);
    AfterRegister(w.log, e, w.sv, w'.sv, tok, carried);
  }

  lemma {:induction false} HandJustified(log: Log, sv: Server, b: Browser, tok: nat, now: int)
    requires HandoffOk(sv, log) && sv.handoff.Some? && now <= sv.handoff.value.issued + 600 && !EverTrusted(log, tok)
    ensures Justified(log, Handed(b, sv.handoff.value.code, tok, now))
  {
    assert Issued(sv.handoff.value.code, sv.handoff.value.issued) in log;
  }

  lemma {:induction false} AskKeeps(w: World, b: Browser, secret: nat, w': World)
    requires Known(w) && Step(w, Asks(b, Some(secret)), w')
    ensures Known(w')
  {
    AskRequests(w, b, secret, w');
    AskRest(w, b, secret, w');
  }

  lemma {:induction false} AskRest(w: World, b: Browser, secret: nat, w': World)
    requires Known(w) && Step(w, Asks(b, Some(secret)), w')
    ensures Provenance(w'.log) && BelowAll(w'.log, w'.sv.next)
    ensures HopsOk(w'.log, w'.sv.hops) && DevicesOk(w'.log, w'.sv.devices)
  {
    var e := Asked(b, secret, w.now);
    AskJustified(w.log, w.sv.next, b, secret, w.now);
    ProvenanceGrows(w.log, e);
    BelowGrows(w.log, e, w.sv.next, w'.sv.next);
    HopsGrow(w.log, e, w.sv.hops);
    DevicesGrow(w.log, e, w.sv.devices);
  }

  lemma {:induction false} AskRequests(w: World, b: Browser, secret: nat, w': World)
    requires Known(w) && Step(w, Asks(b, Some(secret)), w')
    ensures RequestsOk(w'.log, w'.sv.pending) && |w'.sv.pending| <= 8
  {
    var left := SweptPending(w.sv.pending, w.now);
    Sweeps(w.log, w.sv, w.now);
    RequestsGrow(w.log, Asked(b, secret, w.now), left);
    var code: nat :| code < 1_000_000 && code !in left && w'.sv.pending == left[code := Pending(secret, w.now, None)];
    NewRequest(w.log, w.sv.next, left, b, code, secret, w.now);
  }

  lemma {:induction false} AskJustified(log: Log, n: nat, b: Browser, secret: nat, now: int)
    requires BelowAll(log, n) && secret >= n
    ensures Justified(log, Asked(b, secret, now))
  {
    assert forall x | x in log :: Below(x, n);
  }

  lemma {:induction false} NewRequest(log: Log, n: nat, left: map<nat, Pending>, b: Browser, code: nat, secret: nat, now: int)
    requires BelowAll(log, n) && secret >= n && code !in left && |left| < 8
    requires RequestsOk(log, left) && RequestsOk(log + [Asked(b, secret, now)], left)
    ensures var pending := left[code := Pending(secret, now, None)];
            RequestsOk(log + [Asked(b, secret, now)], pending) && |pending| <= 8
  {
    var pending := left[code := Pending(secret, now, None)];
    assert pending.Keys == left.Keys + {code};
    forall c | c in left ensures left[c].secret < n { RequestBelow(log, n, left[c]); }
    NewRequestOk(log, n, b, secret, now);
  }

  lemma {:induction false} NewRequestOk(log: Log, n: nat, b: Browser, secret: nat, now: int)
    requires BelowAll(log, n) && secret >= n
    ensures PendingOk(log + [Asked(b, secret, now)], Pending(secret, now, None))
  {
    var e := Asked(b, secret, now);
    assert (log + [e])[|log|] == e;
    assert forall x | x in log :: Below(x, n);
  }

  // The log's own part of the invariant.
  lemma {:induction false} EventGrows(log: Log, e: Event, n: nat, m: nat)
    requires Provenance(log) && Justified(log, e) && BelowAll(log, n) && n <= m && Below(e, m)
    ensures Provenance(log + [e]) && BelowAll(log + [e], m)
  {
    ProvenanceGrows(log, e);
    BelowGrows(log, e, n, m);
  }

  lemma {:induction false} CollectKeeps(w: World, b: Browser, secret: nat, tok: nat, w': World)
    requires Known(w) && Step(w, Waits(b, secret, Some(tok)), w')
    ensures Known(w')
  {
    var left := SweptPending(w.sv.pending, w.now);
    var code: nat :| code in left && left[code].secret == secret && left[code].token == Some(tok) && w'.sv.pending == left - {code};
    CollectOne(w, left, code, b, tok);
  }

  lemma {:induction false} CollectOne(w: World, left: map<nat, Pending>, code: nat, b: Browser, tok: nat)
    requires Known(w) && left == SweptPending(w.sv.pending, w.now) && code in left && left[code].token == Some(tok)
    requires exists t :: Asked(b, left[code].secret, t) in w.log
    ensures Known(w.(sv := w.sv.(pending := left - {code}), log := w.log + [Collected(b, left[code].secret, tok, w.now)]))
  {
    var p := left[code];
    var e := Collected(b, p.secret, tok, w.now);
    Sweeps(w.log, w.sv, w.now);
    CollectLog(w, b, tok, p);
    HopsGrow(w.log, e, w.sv.hops);
    DevicesGrow(w.log, e, w.sv.devices);
    Fits((left - {code}).Keys, left.Keys);
    RequestsGrow(w.log, e, left - {code});
  }

  lemma {:induction false} CollectLog(w: World, b: Browser, tok: nat, p: Pending)
    requires Provenance(w.log) && BelowAll(w.log, w.sv.next) && PendingOk(w.log, p) && p.token == Some(tok)
    requires w.now - p.asked <= 300 && exists t :: Asked(b, p.secret, t) in w.log
    ensures var log := w.log + [Collected(b, p.secret, tok, w.now)]; Provenance(log) && BelowAll(log, w.sv.next)
  {
    CollectJustified(w, b, p.secret, tok, p);
    RequestBelow(w.log, w.sv.next, p);
    EventGrows(w.log, Collected(b, p.secret, tok, w.now), w.sv.next, w.sv.next);
  }

  lemma {:induction false} CollectJustified(w: World, b: Browser, secret: nat, tok: nat, p: Pending)
    requires Provenance(w.log) && PendingOk(w.log, p) && p.secret == secret && p.token == Some(tok)
    requires w.now - p.asked <= 300 && exists t :: Asked(b, secret, t) in w.log
    ensures Justified(w.log, Collected(b, secret, tok, w.now))
  {
    var b' :| Asked(b', secret, p.asked) in w.log;
    var t :| Asked(b, secret, t) in w.log;
    AskedOnce(w.log, b, t, b', p.asked, secret);
  }

  lemma {:induction false} ApproveKeeps(w: World, approver: nat, code: nat, tok: nat, w': World)
    requires Inv(w) && Step(w, Approves(approver, code, Some(tok)), w')
    ensures Known(w')
  {
    var left := SweptPending(w.sv.pending, w.now);
    ApproveOne(w, left, code, approver, tok, w'.sv);
  }

  lemma {:induction false} ApproveOne(w: World, left: map<nat, Pending>, code: nat, approver: nat, tok: nat, sv': Server)
    requires Known(w) && left == SweptPending(w.sv.pending, w.now) && code in left && left[code].token == None
    requires EverTrusted(w.log, approver) && exists b :: Holds(w.log, b, approver)
    requires Fresh(w.sv, sv', tok) && RegisterDone(w.sv, sv', tok, None)
    requires sv' == w.sv.(devices := sv'.devices, next := sv'.next, pending := left[code := left[code].(token := Some(tok))])
    ensures Known(w.(sv := sv', log := w.log + [Approved(approver, left[code].secret, tok, w.now)]))
  {
    var e := Approved(approver, left[code].secret, tok, w.now);
    Sweeps(w.log, w.sv, w.now);
    ApproveLog(w, left[code], approver, tok, sv'.next);
    HopsGrow(w.log, e, w.sv.hops);
    AfterRegister(w.log, e, w.sv, sv', tok, None);
    RequestApproved(w.log, left, code, e);
  }

  lemma {:induction false} ApproveLog(w: World, p: Pending, approver: nat, tok: nat, next: nat)
    requires Provenance(w.log) && BelowAll(w.log, w.sv.next) && PendingOk(w.log, p) && p.token == None
    requires w.now - p.asked <= 300 && w.sv.next <= tok < next
    requires EverTrusted(w.log, approver) && exists b :: Holds(w.log, b, approver)
    ensures var log := w.log + [Approved(approver, p.secret, tok, w.now)]; Provenance(log) && BelowAll(log, next)
  {
    NotYetTrusted(w.log, w.sv.next, tok);
    RequestBelow(w.log, w.sv.next, p);
    ApproveJustified(w.log, p, approver, tok, w.now);
    EventGrows(w.log, Approved(approver, p.secret, tok, w.now), w.sv.next, next);
  }

  lemma {:induction false} ApproveJustified(log: Log, p: Pending, approver: nat, tok: nat, now: int)
    requires PendingOk(log, p) && p.token == None && now - p.asked <= 300
    requires EverTrusted(log, approver) && (exists b :: Holds(log, b, approver)) && !EverTrusted(log, tok)
    ensures Justified(log, Approved(approver, p.secret, tok, now))
  {
    var b :| Asked(b, p.secret, p.asked) in log;
  }

  lemma {:induction false} RequestApproved(log: Log, left: map<nat, Pending>, code: nat, e: Event)
    requires RequestsOk(log, left) && code in left && e.Approved? && e.secret == left[code].secret
    ensures var pending := left[code := left[code].(token := Some(e.tok))];
            RequestsOk(log + [e], pending) && |pending| == |left|
  {
    var p := left[code].(token := Some(e.tok));
    var pending := left[code := p];
    assert pending.Keys == left.Keys;
    assert |pending| == |pending.Keys| && |left| == |left.Keys|;
    assert PendingOk(log + [e], p) by {
      assert PendingOk(log, left[code]);
      var b :| Asked(b, p.secret, p.asked) in log;
      assert Asked(b, p.secret, p.asked) in log + [e];
      assert (log + [e])[|log|] == e;
    }
    forall c | c in pending && c != code ensures PendingOk(log + [e], pending[c]) {
      OneRequestGrows(log, e, left[c]);
    }
  }

  lemma {:induction false} MintKeeps(w: World, b: Browser, tok: nat, code: nat, w': World)
    requires Known(w) && Step(w, Mints(b, tok, Some(code)), w')
    ensures Known(w')
  {
    var e := Minted(b, code, tok, w.now);
    Sweeps(w.log, w.sv, w.now);
    MintLog(w, b, tok, code, w'.sv.next);
    RequestsGrow(w.log, e, w.sv.pending);
    DevicesGrow(w.log, e, w.sv.devices);
    HopsGrow(w.log, e, SweptHops(w.sv.hops, w.now));
    NewHop(w.log, w.sv.next, SweptHops(w.sv.hops, w.now), b, code, tok, w.now);
  }

  lemma {:induction false} MintLog(w: World, b: Browser, tok: nat, code: nat, next: nat)
    requires Provenance(w.log) && BelowAll(w.log, w.sv.next) && Holds(w.log, b, tok) && w.sv.next <= code < next
    ensures var log := w.log + [Minted(b, code, tok, w.now)]; Provenance(log) && BelowAll(log, next)
  {
    NewMint(w.log, w.sv.next, b, code, tok, w.now);
    HeldBelow(w.log, w.sv.next, b, tok);
    EventGrows(w.log, Minted(b, code, tok, w.now), w.sv.next, next);
  }

  lemma {:induction false} NewMint(log: Log, n: nat, b: Browser, code: nat, tok: nat, now: int)
    requires BelowAll(log, n) && code >= n && Holds(log, b, tok)
    ensures Justified(log, Minted(b, code, tok, now))
  {
    assert forall x | x in log :: Below(x, n);
  }

  lemma {:induction false} NewHop(log: Log, n: nat, left: map<nat, Hop>, b: Browser, code: nat, tok: nat, now: int)
    requires BelowAll(log, n) && code >= n && HopsOk(log + [Minted(b, code, tok, now)], left)
    ensures HopsOk(log + [Minted(b, code, tok, now)], left[code := Hop(tok, now)])
  {
    var e := Minted(b, code, tok, now);
    assert HopOk(log + [e], code, Hop(tok, now)) by {
      assert (log + [e])[|log|] == e;
      assert forall x | x in log :: Below(x, n);
    }
  }

  lemma {:induction false} SpendKeeps(w: World, b: Browser, code: nat, tok: nat, w': World)
    requires Known(w) && Step(w, Spends(b, code, Some(tok)), w')
    ensures Known(w')
  {
    SpendOne(w, SweptHops(w.sv.hops, w.now), code, b);
  }

  lemma {:induction false} SpendOne(w: World, left: map<nat, Hop>, code: nat, b: Browser)
    requires Known(w) && left == SweptHops(w.sv.hops, w.now) && code in left
    ensures Known(w.(sv := w.sv.(hops := left - {code}), log := w.log + [Spent(b, code, left[code].token, w.now)]))
  {
    var e := Spent(b, code, left[code].token, w.now);
    Sweeps(w.log, w.sv, w.now);
    SpendLog(w, left[code], code, b);
    RequestsGrow(w.log, e, w.sv.pending);
    DevicesGrow(w.log, e, w.sv.devices);
    assert HopsOk(w.log, left - {code});
    HopsGrow(w.log, e, left - {code});
  }

  lemma {:induction false} SpendLog(w: World, h: Hop, code: nat, b: Browser)
    requires Provenance(w.log) && BelowAll(w.log, w.sv.next) && HopOk(w.log, code, h) && w.now - h.at <= 60
    ensures var log := w.log + [Spent(b, code, h.token, w.now)]; Provenance(log) && BelowAll(log, w.sv.next)
  {
    HopBelow(w.log, w.sv.next, code, h);
    SpendJustified(w.log, b, code, h, w.now);
    EventGrows(w.log, Spent(b, code, h.token, w.now), w.sv.next, w.sv.next);
  }

  lemma {:induction false} SpendJustified(log: Log, b: Browser, code: nat, h: Hop, now: int)
    requires HopOk(log, code, h) && now - h.at <= 60
    ensures Justified(log, Spent(b, code, h.token, now))
  {
    var m :| Minted(m, code, h.token, h.at) in log;
  }

  // A request that gave nothing: sweeps, and secrets that were drawn and dropped.
  lemma {:induction false} NothingGiven(w: World, w': World)
    requires Known(w) && w'.log == w.log && w.sv.next <= w'.sv.next
    requires w'.sv.handoff == w.sv.handoff || w'.sv.handoff == None
    requires forall d | d in w'.sv.devices :: d in w.sv.devices
    requires forall c | c in w'.sv.hops :: c in w.sv.hops && w'.sv.hops[c] == w.sv.hops[c]
    requires forall c | c in w'.sv.pending :: c in w.sv.pending && w'.sv.pending[c] == w.sv.pending[c]
    ensures Known(w')
  {
    Fits(w'.sv.pending.Keys, w.sv.pending.Keys);
    forall x | x in w.log ensures Below(x, w'.sv.next) { assert Below(x, w.sv.next); }
  }

  // A step that adds to the log.
  lemma {:induction false} GrantKeeps(w: World, a: Act, w': World)
    requires Inv(w) && Step(w, a, w') && w'.log != w.log
    ensures Known(w')
  {
    match a
    case Opens(code) => OpenKeeps(w, code, w');
    case Redeems(b, code, carried, grant) => HandKeeps(w, b, code, carried, grant.value, w');
    case Asks(b, secret) => AskKeeps(w, b, secret.value, w');
    case Waits(b, secret, grant) => CollectKeeps(w, b, secret, grant.value, w');
    case Approves(approver, code, tok) => ApproveKeeps(w, approver, code, tok.value, w');
    case Mints(b, tok, code) => MintKeeps(w, b, tok, code.value, w');
    case Spends(b, code, grant) => SpendKeeps(w, b, code, grant.value, w');
    case _ =>
  }

  lemma {:induction false} StepKeepsKnown(w: World, a: Act, w': World)
    requires Inv(w) && Step(w, a, w')
    ensures Known(w')
  {
    if w'.log == w.log {
      NothingGiven(w, w');
    } else {
      GrantKeeps(w, a, w');
    }
  }

  lemma {:induction false} ClearedGrows(log: Log, log': Log, cleared: multiset<nat>, cleared': multiset<nat>)
    requires ClearedOk(log, cleared) && log <= log' && cleared' <= cleared
    ensures ClearedOk(log', cleared')
  {
    forall t | t in cleared' ensures EverTrusted(log', t) && exists b :: Holds(log', b, t) {
      assert t in cleared;
      var i :| 0 <= i < |log| && Made(log[i], t);
      assert Made(log'[i], t);
      var b :| Holds(log, b, t);
      var j :| 0 <= j < |log| && Gives(log[j], b, t);
      assert Gives(log'[j], b, t);
      assert Holds(log', b, t);
    }
  }

  lemma {:induction false} StepKeeps(w: World, a: Act, w': World)
    requires Inv(w) && Step(w, a, w')
    ensures Inv(w')
  {
    StepKeepsKnown(w, a, w');
    if a.Clears? {
      var i :| 0 <= i < |w.sv.devices| && w.sv.devices[i].token == a.token;
      assert w.sv.devices[i] in w.sv.devices;
    } else {
      ClearedGrows(w.log, w'.log, w.cleared, w'.cleared);
    }
  }

  // ---------------------------------------------------------------- whole runs

  ghost predicate Run(ws: seq<World>, acts: seq<Act>) {
    && |ws| == |acts| + 1
    && forall i | 0 <= i < |acts| :: Step(ws[i], acts[i], ws[i + 1])
  }

  // A home before anybody opened its dashboard.
  ghost predicate Begins(w: World) {
    w.log == [] && w.cleared == multiset{} && w.sv == Server([], None, map[], map[], w.sv.next)
  }

  /** Over any run: the log is justified, at most eight requests wait, and every device in the
    * registry was let in by a code or an approval. */
  lemma {:induction false} RunKeeps(ws: seq<World>, acts: seq<Act>)
    requires Run(ws, acts) && Begins(ws[0])
    ensures Inv(ws[|acts|])
    decreases |acts|
  {
    if acts != [] {
      var n := |acts| - 1;
      RunKeeps(ws[..|ws| - 1], acts[..n]);
      StepKeeps(ws[n], acts[n], ws[n + 1]);
    }
  }

  ghost predicate ByHandoff(log: Log, i: nat, b: Browser, tok: nat)
    requires i < |log|
  {
    && log[i].Handed? && log[i].b == b && log[i].tok == tok
    && exists t :: Issued(log[i].code, t) in log[..i] && log[i].at <= t + 600
  }

  ghost predicate ByApproval(log: Log, i: nat, b: Browser, tok: nat)
    requires i < |log|
  {
    && log[i].Collected? && log[i].b == b && log[i].tok == tok
    && (exists t :: Asked(b, log[i].secret, t) in log[..i] && log[i].at - t <= 300)
    && exists a, t :: Approved(a, log[i].secret, tok, t) in log[..i]
  }

  ghost predicate ByHop(log: Log, i: nat, b: Browser, tok: nat)
    requires i < |log|
  {
    && log[i].Spent? && log[i].b == b && log[i].tok == tok
    && exists j | 0 <= j < i ::
         && log[j].Minted? && log[j].code == log[i].code && log[j].tok == tok
         && log[i].at - log[j].at <= 60
         && Holds(log[..j], log[j].b, tok)
  }

  /** Where every session a browser holds came from: a code of the machine's it redeemed in time, its
    * own request approved and collected in time, or a code minted within the minute for a browser
    * that held the same session. */
  lemma {:induction false} HeldIsAccountedFor(ws: seq<World>, acts: seq<Act>, b: Browser, tok: nat)
    requires Run(ws, acts) && Begins(ws[0]) && Holds(ws[|acts|].log, b, tok)
    ensures var log := ws[|acts|].log;
      exists i | 0 <= i < |log| :: ByHandoff(log, i, b, tok) || ByApproval(log, i, b, tok) || ByHop(log, i, b, tok)
  {
    RunKeeps(ws, acts);
    var log := ws[|acts|].log;
    var i :| 0 <= i < |log| && Gives(log[i], b, tok);
    GrantIsAccountedFor(log, i, b, tok);
  }

  lemma {:induction false} GrantIsAccountedFor(log: Log, i: nat, b: Browser, tok: nat)
    requires Provenance(log) && i < |log| && Gives(log[i], b, tok)
    ensures ByHandoff(log, i, b, tok) || ByApproval(log, i, b, tok) || ByHop(log, i, b, tok)
  {
    JustifiedAt(log, i);
    if log[i].Spent? {
      var j := MintOf(log, i);
      JustifiedAt(log, j);
      assert ByHop(log, i, b, tok);
    }
  }

  // The minting a spent code came from.
  lemma {:induction false} MintOf(log: Log, i: nat) returns (j: nat)
    requires i < |log| && log[i].Spent? && Justified(log[..i], log[i])
    ensures j < i && log[j].Minted? && log[j].code == log[i].code && log[j].tok == log[i].tok
    ensures log[i].at - log[j].at <= 60
  {
    var m, t :| Minted(m, log[i].code, log[i].tok, t) in log[..i] && log[i].at - t <= 60;
    j :| 0 <= j < i && log[..i][j] == Minted(m, log[i].code, log[i].tok, t);
  }

  // The approval a collected session came from.
  lemma {:induction false} ApprovalOf(log: Log, i: nat) returns (j: nat)
    requires i < |log| && log[i].Collected? && Justified(log[..i], log[i])
    ensures j < i && log[j].Approved? && log[j].tok == log[i].tok
  {
    var a, t :| Approved(a, log[i].secret, log[i].tok, t) in log[..i];
    j :| 0 <= j < i && log[..i][j] == Approved(a, log[i].secret, log[i].tok, t);
  }

  /** Each code and each approved request is consumed at most once, by either redeemer. */
  lemma {:induction false} ConsumedOnce(log: Log, i: nat, j: nat)
    requires Provenance(log) && i < j < |log|
    ensures log[i].Handed? && log[j].Handed? ==> log[i].code != log[j].code
    ensures log[i].Spent? && log[j].Spent? ==> log[i].code != log[j].code
    ensures log[i].Collected? && log[j].Collected? ==> log[i].secret != log[j].secret
    ensures log[i].Approved? && log[j].Approved? ==> log[i].secret != log[j].secret
  {
    JustifiedAt(log, j);
    assert log[..j][i] in log[..j];
  }

  // A minting is by somebody who was given the session.
  lemma {:induction false} GiftOf(log: Log, j: nat) returns (k: nat)
    requires j < |log| && log[j].Minted? && Justified(log[..j], log[j])
    ensures k < j && Gives(log[k], log[j].b, log[j].tok)
  {
    k :| 0 <= k < j && Gives(log[..j][k], log[j].b, log[j].tok);
  }

  /** A session in anybody's hands was made for a device that was let in, and made no later. */
  lemma {:induction false} HeldWasMade(log: Log, i: nat, b: Browser, tok: nat)
    requires Provenance(log) && i < |log| && Gives(log[i], b, tok)
    ensures exists k | 0 <= k <= i :: Made(log[k], tok)
    decreases i
  {
    JustifiedAt(log, i);
    if log[i].Collected? {
      var k := ApprovalOf(log, i);
      assert Made(log[k], tok);
    } else if log[i].Spent? {
      var j := MintOf(log, i);
      JustifiedAt(log, j);
      var k := GiftOf(log, j);
      HeldWasMade(log, k, log[j].b, tok);
    } else {
      assert Made(log[i], tok);
    }
  }

  /** A session is made once. */
  lemma {:induction false} MadeOnce(log: Log, i: nat, j: nat, tok: nat)
    requires Provenance(log) && i < j < |log| && Made(log[i], tok)
    ensures !Made(log[j], tok)
  {
    JustifiedAt(log, j);
    assert Made(log[..j][i], tok);
  }

  // What needs somebody to have been trusted before.
  predicate NeedsTrust(e: Event) {
    e.Approved? || e.Collected? || e.Minted? || e.Spent?
  }

  lemma {:induction false} TrustBehind(log: Log, i: nat) returns (k: nat)
    requires i < |log| && NeedsTrust(log[i]) && Justified(log[..i], log[i])
    ensures k < i && (log[k].Handed? || NeedsTrust(log[k]))
  {
    if log[i].Approved? {
      k :| 0 <= k < i && Made(log[..i][k], log[i].approver);
    } else if log[i].Collected? {
      k := ApprovalOf(log, i);
    } else if log[i].Minted? {
      k := GiftOf(log, i);
    } else {
      k := MintOf(log, i);
    }
  }

  /** All trust comes from the machine: before its first code is redeemed no session was ever made,
    * held or approved. */
  lemma {:induction false} TrustComesFromTheMachine(log: Log, i: nat)
    requires Provenance(log) && i < |log| && (log[i].Handed? || NeedsTrust(log[i]))
    ensures exists k | 0 <= k <= i :: log[k].Handed?
    decreases i
  {
    if !log[i].Handed? {
      JustifiedAt(log, i);
      var k := TrustBehind(log, i);
      TrustComesFromTheMachine(log, k);
    }
  }

  // ---------------------------------------------------------------- revocation

  // A row each: no two of a token or of a name, and every number drawn before now.
  ghost predicate Rows(sv: Server) {
    && (forall d | d in sv.devices :: d.token < sv.next && d.id < sv.next)
    && Distinct(sv.devices)
  }

  predicate Distinct(devices: seq<Device>) {
    forall i, j | 0 <= i < j < |devices| :: devices[i].token != devices[j].token && devices[i].id != devices[j].id
  }

  lemma {:induction false} DistinctJoined(a: seq<Device>, b: seq<Device>)
    requires Distinct(a) && Distinct(b) && forall d, e | d in a && e in b :: d.token != e.token && d.id != e.id
    ensures Distinct(a + b)
  {
    var s := a + b;
    forall i, j | 0 <= i < j < |s| ensures s[i].token != s[j].token && s[i].id != s[j].id {
      if i < |a| && j >= |a| { assert s[i] in a && s[j] == b[j - |a|] && s[j] in b; }
    }
  }

  lemma {:induction false} WithoutKeepsRows(devices: seq<Device>, token: nat)
    requires Distinct(devices)
    ensures Distinct(Without(devices, token))
    decreases |devices|
  {
    if devices != [] {
      var rest := devices[1..];
      WithoutKeepsRows(rest, token);
      WithoutIsWithin(rest, token);
      forall d | d in rest ensures d.token != devices[0].token && d.id != devices[0].id {
        var k :| 0 <= k < |rest| && rest[k] == d;
        assert devices[k + 1] == d;
      }
      DistinctJoined([devices[0]], Without(rest, token));
      DistinctJoined([], Without(rest, token));
    }
  }

  lemma {:induction false} RegisterKeepsRows(sv: Server, sv': Server, tok: nat, carried: Option<nat>)
    requires Rows(sv) && sv.next <= sv'.next && Fresh(sv, sv', tok) && RegisterDone(sv, sv', tok, carried)
    ensures Rows(sv')
    ensures carried.Some? ==> carried.value == tok || !Registered(sv'.devices, carried.value)
  {
    if carried.Some? {
      WithoutIsWithin(sv.devices, carried.value);
      WithoutKeepsRows(sv.devices, carried.value);
    }
    var kept := Listed(sv.devices, carried);
    var id: nat :| Fresh(sv, sv', id) && id != tok && sv'.devices == kept + [Device(id, tok)];
    assert forall d | d in kept :: d in sv.devices;
    DistinctJoined(kept, [Device(id, tok)]);
  }

  lemma {:induction false} FewerRows(sv: Server, sv': Server, a: nat, b: nat)
    requires Rows(sv) && sv.next <= sv'.next && a <= b <= |sv.devices|
    requires sv'.devices == sv.devices[..a] + sv.devices[b..]
    ensures Rows(sv')
  {
    forall d | d in sv'.devices ensures d in sv.devices {
    }
    forall i | 0 <= i < |sv'.devices| ensures sv'.devices[i] == sv.devices[if i < a then i else i + b - a] {
    }
  }

  lemma {:induction false} StepKeepsRows(w: World, a: Act, w': World)
    requires Rows(w.sv) && Step(w, a, w')
    ensures Rows(w'.sv)
  {
    if a.Redeems? && a.grant.Some? {
      RegisterKeepsRows(w.sv, w'.sv, a.grant.value, a.carried);
    } else if a.Approves? && a.made.Some? {
      RegisterKeepsRows(w.sv, w'.sv, a.made.value, None);
    } else if a.Revokes? && a.gone.Some? {
      var i: nat :| i < |w.sv.devices| && w.sv.devices[i] == a.gone.value && w'.sv.devices == w.sv.devices[..i] + w.sv.devices[i + 1..];
      FewerRows(w.sv, w'.sv, i, i + 1);
    } else {
      FewerRows(w.sv, w'.sv, 0, 0);
    }
  }

  /** Revoking a device takes its session off the list, and leaves every other on it. */
  lemma {:induction false} RevokeEndsOne(w: World, id: nat, gone: Device, w': World)
    requires Rows(w.sv) && Step(w, Revokes(id, Some(gone)), w')
    ensures Registered(w.sv.devices, gone.token) && !Registered(w'.sv.devices, gone.token)
    ensures forall tok | tok != gone.token :: Registered(w.sv.devices, tok) <==> Registered(w'.sv.devices, tok)
  {
    var i: nat :| i < |w.sv.devices| && w.sv.devices[i] == gone && w'.sv.devices == w.sv.devices[..i] + w.sv.devices[i + 1..];
    forall tok | tok != gone.token ensures Registered(w.sv.devices, tok) <==> Registered(w'.sv.devices, tok) {
      OthersStay(w.sv.devices, i, tok);
    }
    GoneIsGone(w.sv.devices, i);
  }

  lemma {:induction false} OthersStay(devices: seq<Device>, i: nat, tok: nat)
    requires i < |devices| && devices[i].token != tok
    ensures Registered(devices, tok) <==> Registered(devices[..i] + devices[i + 1..], tok)
  {
    var left := devices[..i] + devices[i + 1..];
    forall k | 0 <= k < |left| ensures left[k] == devices[if k < i then k else k + 1] {
    }
    forall k | 0 <= k < |devices| && k != i ensures devices[k] == left[if k < i then k else k - 1] {
    }
  }

  lemma {:induction false} GoneIsGone(devices: seq<Device>, i: nat)
    requires Distinct(devices) && i < |devices|
    ensures !Registered(devices[..i] + devices[i + 1..], devices[i].token)
  {
    var left := devices[..i] + devices[i + 1..];
    forall k | 0 <= k < |left| ensures left[k].token != devices[i].token {
      assert left[k] == devices[if k < i then k else k + 1];
    }
  }

  lemma {:induction false} StepRegistersOnlyNew(w: World, a: Act, w': World, tok: nat)
    requires Step(w, a, w') && tok < w.sv.next && !Registered(w.sv.devices, tok)
    ensures !Registered(w'.sv.devices, tok) && tok < w'.sv.next
  {
    match a
    case Redeems(b, code, carried, grant) =>
      if grant.Some? && carried.Some? { WithoutIsWithin(w.sv.devices, carried.value); }
      OnlyNewRows(w.sv, w'.sv, tok);
    case _ => OnlyNewRows(w.sv, w'.sv, tok);
  }

  lemma {:induction false} OnlyNewRows(sv: Server, sv': Server, tok: nat)
    requires tok < sv.next && !Registered(sv.devices, tok)
    requires forall d | d in sv'.devices :: d in sv.devices || d.token >= sv.next
    ensures !Registered(sv'.devices, tok)
  {
    forall i | 0 <= i < |sv'.devices| ensures sv'.devices[i].token != tok {
      assert sv'.devices[i] in sv'.devices;
    }
  }

  /** A session off the list stays off it, whatever happens after. */
  lemma {:induction false} RevokedForGood(ws: seq<World>, acts: seq<Act>, tok: nat)
    requires Run(ws, acts) && tok < ws[0].sv.next && !Registered(ws[0].sv.devices, tok)
    ensures !Registered(ws[|acts|].sv.devices, tok) && tok < ws[|acts|].sv.next
    decreases |acts|
  {
    if acts != [] {
      var n := |acts| - 1;
      RevokedForGood(ws[..|ws| - 1], acts[..n], tok);
      StepRegistersOnlyNew(ws[n], acts[n], ws[n + 1], tok);
    }
  }

  // How often a session approved a request or minted a code.
  function Uses(log: Log, tok: nat): nat {
    if log == [] then 0
    else
      var e := log[|log| - 1];
      Uses(log[..|log| - 1], tok) + if (e.Approved? && e.approver == tok) || (e.Minted? && e.tok == tok) then 1 else 0
  }

  lemma {:induction false} UsesOneMore(log: Log, e: Event, tok: nat)
    ensures Uses(log + [e], tok)
         == Uses(log, tok) + if (e.Approved? && e.approver == tok) || (e.Minted? && e.tok == tok) then 1 else 0
  {
    assert (log + [e])[..|log|] == log;
  }

  lemma {:induction false} StepUsesCleared(w: World, a: Act, w': World, tok: nat)
    requires Step(w, a, w') && !Registered(w.sv.devices, tok)
    ensures Uses(w'.log, tok) + w'.cleared[tok] <= Uses(w.log, tok) + w.cleared[tok]
  {
    if w'.log != w.log {
      UsesOneMore(w.log, w'.log[|w.log|], tok);
      assert w'.log == w.log + [w'.log[|w.log|]];
    }
  }

  /** A revoked session is powerless: from the moment it is off the list it approves and mints no
    * more than once for each of its requests that had already passed the check, and with none of
    * those in flight, never. */
  lemma {:induction false} RevokedIsPowerless(ws: seq<World>, acts: seq<Act>, tok: nat)
    requires Run(ws, acts) && tok < ws[0].sv.next && !Registered(ws[0].sv.devices, tok)
    ensures Uses(ws[|acts|].log, tok) + ws[|acts|].cleared[tok] <= Uses(ws[0].log, tok) + ws[0].cleared[tok]
    decreases |acts|
  {
    if acts != [] {
      var n := |acts| - 1;
      RevokedIsPowerless(ws[..|ws| - 1], acts[..n], tok);
      RevokedForGood(ws[..|ws| - 1], acts[..n], tok);
      StepUsesCleared(ws[n], acts[n], ws[n + 1], tok);
    }
  }
}
