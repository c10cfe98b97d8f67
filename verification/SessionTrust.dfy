/** The dashboard's trust: the machine's one-time code, quick-connect, the hops between its names and
  * to the gated apps, and the registry (dashboard/main.go, dashboard/hop.go, dashboard/gate.go).
  *
  * Tokens, codes and cookies' secrets are fresh numbers, and a token stands for its own hash.
  */
module SessionTrust {
  import opened Options

  const HANDOFF_TTL := 600
  const JOIN_TTL := 300
  const HOP_TTL := 60
  const MAX_PENDING := 8
  const JOIN_CODES := 1_000_000

  datatype Device = Device(id: nat, token: nat)

  datatype Handoff = Handoff(code: nat, issued: int)

  datatype Hop = Hop(token: nat, at: int)

  // A request: its cookie's secret, when it was made, and the session once it is approved.
  datatype Pending = Pending(secret: nat, asked: int, token: Option<nat>)

  datatype Server = Server(
    devices: seq<Device>,
    handoff: Option<Handoff>,
    hops: map<nat, Hop>,
    pending: map<nat, Pending>, // by the six digits on the asker's screen
    next: nat)                  // every secret so far is below it

  function Without(devices: seq<Device>, token: nat): seq<Device> {
    if devices == [] then []
    else (if devices[0].token == token then [] else [devices[0]]) + Without(devices[1..], token)
  }

  // The list with the row of the session a browser carried taken out.
  function Listed(devices: seq<Device>, carried: Option<nat>): seq<Device> {
    if carried.Some? then Without(devices, carried.value) else devices
  }

  function SweptHops(hops: map<nat, Hop>, now: int): map<nat, Hop> {
    hops - (set c | c in hops && now - hops[c].at > 60)
  }

  function SweptPending(pending: map<nat, Pending>, now: int): map<nat, Pending> {
    pending - (set c | c in pending && now - pending[c].asked > 300)
  }

  predicate Registered(devices: seq<Device>, token: nat) {
    exists i | 0 <= i < |devices| :: devices[i].token == token
  }

  // ---------------------------------------------------------------- what each request does

  // A secret drawn between these two states of the counter.
  predicate Fresh(sv: Server, sv': Server, secret: nat) {
    sv.next <= secret < sv'.next
  }

  // The machine's code, in its time.
  predicate Outstanding(sv: Server, code: nat, now: int) {
    sv.handoff.Some? && sv.handoff.value.code == code && now <= sv.handoff.value.issued + 600
  }

  ghost predicate RedeemDone(sv: Server, sv': Server, code: nat, carried: Option<nat>, now: int, grant: Option<nat>) {
    && sv'.hops == sv.hops && sv'.pending == sv.pending && sv.next <= sv'.next
    && (sv'.handoff == sv.handoff || sv'.handoff == None)
    && (sv'.handoff != sv.handoff ==> sv.handoff.value.code == code || now > sv.handoff.value.issued + 600)
    && match grant
       case None => sv'.devices == sv.devices
       case Some(tok) =>
         && Outstanding(sv, code, now)
         && sv'.handoff == None
         && Fresh(sv, sv', tok)
         && RegisterDone(sv, sv', tok, carried)
  }

  // The new device is listed, in place of the one this browser was.
  ghost predicate RegisterDone(sv: Server, sv': Server, tok: nat, carried: Option<nat>) {
    exists id: nat :: Fresh(sv, sv', id) && id != tok &&
      sv'.devices == Listed(sv.devices, carried) + [Device(id, tok)]
  }

  ghost predicate AskDone(sv: Server, sv': Server, now: int, secret: Option<nat>) {
    var left := SweptPending(sv.pending, now);
    && sv'.devices == sv.devices && sv'.handoff == sv.handoff && sv'.hops == sv.hops && sv.next <= sv'.next
    && match secret
       case None => sv'.pending == left
       case Some(s) =>
         && |left| < 8 && Fresh(sv, sv', s)
         && exists code: nat :: code < 1_000_000 && code !in left && sv'.pending == left[code := Pending(s, now, None)]
  }

  ghost predicate WaitDone(sv: Server, sv': Server, secret: nat, now: int, grant: Option<nat>) {
    var left := SweptPending(sv.pending, now);
    && sv' == sv.(pending := sv'.pending)
    && match grant
       case None =>
         && sv'.pending == left
         && (forall c | c in left && left[c].secret == secret :: exists o :: o in left && left[o].secret == secret && left[o].token == None)
       case Some(tok) =>
         exists code: nat :: code in left && left[code].secret == secret && left[code].token == Some(tok) && sv'.pending == left - {code}
  }

  ghost predicate ApproveDone(sv: Server, sv': Server, code: nat, now: int, tok: Option<nat>) {
    var left := SweptPending(sv.pending, now);
    && sv'.handoff == sv.handoff && sv'.hops == sv.hops && sv.next <= sv'.next
    && match tok
       case None => sv'.pending == left && sv'.devices == sv.devices
       case Some(t) =>
         && code in left && left[code].token == None
         && Fresh(sv, sv', t)
         && RegisterDone(sv, sv', t, None)
         && sv'.pending == left[code := left[code].(token := Some(t))]
  }

  ghost predicate RevokeDone(sv: Server, sv': Server, id: nat, gone: Option<Device>) {
    && sv' == sv.(devices := sv'.devices)
    && match gone
       case None => sv'.devices == sv.devices
       case Some(d) =>
         d.id == id && exists i :: 0 <= i < |sv.devices| && sv.devices[i] == d && sv'.devices == sv.devices[..i] + sv.devices[i + 1..]
  }

  ghost predicate MintDone(sv: Server, sv': Server, token: nat, now: int, code: Option<nat>) {
    && sv' == sv.(hops := sv'.hops, next := sv'.next) && sv.next <= sv'.next
    && match code
       case None => sv'.hops == sv.hops
       case Some(c) => Fresh(sv, sv', c) && sv'.hops == SweptHops(sv.hops, now)[c := Hop(token, now)]
  }

  ghost predicate SpendDone(sv: Server, sv': Server, code: nat, now: int, grant: Option<nat>) {
    var left := SweptHops(sv.hops, now);
    && sv' == sv.(hops := left - {code})
    && grant == if code in left then Some(left[code].token) else None
  }

  // ---------------------------------------------------------------- the dashboard

  class Dashboard {
    var sv: Server
    var faulted: bool // a draw of randomness, a read or a write failed

    constructor (sv: Server)
      ensures this.sv == sv && !faulted
    {
      this.sv, faulted := sv, false;
    }

    method NewSecret() returns (s: Option<nat>)
      modifies this
      ensures sv == old(sv).(next := sv.next) && old(sv).next <= sv.next
      ensures s.Some? ==> s.value == old(sv).next && sv.next == old(sv).next + 1 && faulted == old(faulted)
      ensures s.None? ==> faulted
    {
      var drawn: bool := *;
      if !drawn { faulted := true; return None; }
      s := Some(sv.next);
      sv := sv.(next := sv.next + 1);
    }

    method SweepHops(now: int)
      modifies `sv
      ensures sv == old(sv).(hops := SweptHops(old(sv).hops, now))
    {
      var todo := sv.hops.Keys;
      ghost var hops := sv.hops;
      while todo != {}
        invariant sv == old(sv).(hops := sv.hops)
        invariant todo <= hops.Keys
        invariant forall c :: c in sv.hops <==> c in hops && (c in todo || now - hops[c].at <= HOP_TTL)
        invariant forall c | c in sv.hops :: sv.hops[c] == hops[c]
        decreases todo
      {
        var c :| c in todo;
        todo := todo - {c};
        if now - sv.hops[c].at > HOP_TTL { sv := sv.(hops := sv.hops - {c}); }
      }
      assert sv.hops == SweptHops(hops, now);
    }

    method Sweep(now: int)
      modifies `sv
      ensures sv == old(sv).(pending := SweptPending(old(sv).pending, now))
    {
      var todo := sv.pending.Keys;
      ghost var pending := sv.pending;
      while todo != {}
        invariant sv == old(sv).(pending := sv.pending)
        invariant todo <= pending.Keys
        invariant forall c :: c in sv.pending <==> c in pending && (c in todo || now - pending[c].asked <= JOIN_TTL)
        invariant forall c | c in sv.pending :: sv.pending[c] == pending[c]
        decreases todo
      {
        var c :| c in todo;
        todo := todo - {c};
        if now - sv.pending[c].asked > JOIN_TTL { sv := sv.(pending := sv.pending - {c}); }
      }
      assert sv.pending == SweptPending(pending, now);
    }

    /** The registered device a token belongs to. */
    method DeviceOf(token: nat) returns (d: Option<Device>)
      modifies `faulted
      ensures d.Some? ==> d.value in sv.devices && d.value.token == token && Registered(sv.devices, token)
      ensures !faulted && d.None? ==> !Registered(sv.devices, token)
    {
      var read: bool := *;
      if !read { faulted := true; return None; }
      for i := 0 to |sv.devices|
        invariant forall k | 0 <= k < i :: sv.devices[k].token != token
      {
        if sv.devices[i].token == token { return Some(sv.devices[i]); }
      }
      return None;
    }

    method AddDevice(tok: nat, carried: Option<nat>) returns (ok: bool)
      requires tok < sv.next
      modifies this
      ensures sv == old(sv).(devices := sv.devices, next := sv.next) && old(sv).next <= sv.next
      ensures !ok ==> sv.devices == old(sv).devices && faulted
      ensures ok ==> faulted == old(faulted)
      ensures ok ==> sv.next == old(sv).next + 1
      ensures ok ==> sv.devices == Listed(old(sv).devices, carried) + [Device(old(sv).next, tok)]
    {
      var read: bool := *;
      if !read { faulted := true; return false; }
      var id := NewSecret();
      if id.None? { return false; }
      var kept := sv.devices;
      if carried.Some? {
        kept := [];
        for i := 0 to |sv.devices|
          invariant kept + Without(sv.devices[i..], carried.value) == Without(sv.devices, carried.value)
          invariant sv == old(sv).(next := old(sv).next + 1) && faulted == old(faulted)
        {
          assert sv.devices[i..][1..] == sv.devices[i + 1..];
          if sv.devices[i].token != carried.value { kept := kept + [sv.devices[i]]; }
        }
        assert sv.devices[|sv.devices|..] == [];
        assert kept == Without(sv.devices, carried.value);
      }
      var written: bool := *;
      if !written { faulted := true; return false; }
      sv := sv.(devices := kept + [Device(id.value, tok)]);
      return true;
    }

    /** redeem: the machine's code becomes this browser's session. */
    method Redeem(code: nat, carried: Option<nat>, now: int) returns (grant: Option<nat>)
      modifies this
      ensures RedeemDone(old(sv), sv, code, carried, now, grant)
      ensures !faulted ==> (grant.Some? <==> Outstanding(old(sv), code, now))
    {
      grant := None;
      if sv.handoff.None? { return; }
      if now > sv.handoff.value.issued + HANDOFF_TTL {
        var removed: bool := *;
        if removed { sv := sv.(handoff := None); }
        return;
      }
      if sv.handoff.value.code != code { return; }
      var removed: bool := *;
      if !removed { faulted := true; return; }
      sv := sv.(handoff := None);
      var tok := NewSecret();
      if tok.None? { return; }
      ghost var id := sv.next;
      var ok := AddDevice(tok.value, carried);
      if ok {
        grant := tok;
        assert Fresh(old(sv), sv, id) && id != tok.value;
      }
    }

    /** ask: a request with six digits to show and a cookie to collect with. */
    method Ask(now: int) returns (secret: Option<nat>)
      modifies this
      ensures AskDone(old(sv), sv, now, secret)
      ensures !faulted ==> (secret.Some? <==> |SweptPending(old(sv).pending, now)| < 8)
    {
      Sweep(now);
      secret := None;
      if |sv.pending| >= MAX_PENDING { return; }
      var s := NewSecret();
      if s.None? { return; }
      var drawn: bool := *;
      if !drawn { faulted := true; return; }
      SomeCodeIsFree(sv.pending);
      var code: nat :| code < JOIN_CODES && code !in sv.pending;
      sv := sv.(pending := sv.pending[code := Pending(s.value, now, None)]);
      secret := s;
    }

    /** wait: the session, once somebody has approved; the request is spent on collection. */
    method Wait(secret: nat, now: int) returns (grant: Option<nat>)
      modifies this
      ensures WaitDone(old(sv), sv, secret, now, grant)
    {
      Sweep(now);
      grant := None;
      var found: Option<nat> := None;
      var todo := sv.pending.Keys;
      while todo != {}
        invariant todo <= sv.pending.Keys
        invariant found.Some? ==> found.value in sv.pending && sv.pending[found.value].secret == secret
        invariant found.None? ==> forall c | c in sv.pending && sv.pending[c].secret == secret :: c in todo
        decreases todo
      {
        var c :| c in todo;
        todo := todo - {c};
        if sv.pending[c].secret == secret { found := Some(c); }
      }
      if found.None? { return; }
      grant := sv.pending[found.value].token;
      if grant.Some? { sv := sv.(pending := sv.pending - {found.value}); }
    }

    /** approve: the typed digits name the request; its device is registered now. */
    method Approve(code: nat, now: int) returns (tok: Option<nat>)
      modifies this
      ensures ApproveDone(old(sv), sv, code, now, tok)
      ensures
        var left := SweptPending(old(sv).pending, now);
        !faulted ==> (tok.Some? <==> code in left && left[code].token == None)
    {
      Sweep(now);
      tok := None;
      if code !in sv.pending || sv.pending[code].token.Some? { return; }
      var t := NewSecret();
      if t.None? { return; }
      ghost var id := sv.next;
      var ok := AddDevice(t.value, None);
      if !ok { return; }
      assert Fresh(old(sv), sv, id) && id != t.value;
      sv := sv.(pending := sv.pending[code := sv.pending[code].(token := t)]);
      tok := t;
    }

    /** revoke: the first device of this name, and nothing else. */
    method Revoke(id: nat) returns (gone: Option<Device>)
      modifies this
      ensures RevokeDone(old(sv), sv, id, gone)
      ensures !faulted ==> (gone.Some? <==> exists i :: 0 <= i < |old(sv).devices| && old(sv).devices[i].id == id)
    {
      var read: bool := *;
      if !read { faulted := true; return None; }
      var kept: seq<Device> := [];
      gone := None;
      ghost var at := 0;
      for i := 0 to |sv.devices|
        invariant sv == old(sv)
        invariant gone.None? ==> forall k | 0 <= k < i :: sv.devices[k].id != id
        invariant if gone.None? then kept == sv.devices[..i]
                  else 0 <= at < i && sv.devices[at] == gone.value && gone.value.id == id && kept == sv.devices[..at] + sv.devices[at + 1..i]
      {
        if sv.devices[i].id == id && gone.None? {
          gone, at := Some(sv.devices[i]), i;
          continue;
        }
        kept := kept + [sv.devices[i]];
      }
      if gone.None? { return; }
      var written: bool := *;
      if !written { faulted := true; return None; }
      assert sv.devices[at + 1..|sv.devices|] == sv.devices[at + 1..];
      sv := sv.(devices := kept);
    }

    /** serveHop and openGated: a code for the session the browser carries. */
    method Mint(token: nat, now: int) returns (code: Option<nat>)
      modifies this
      ensures MintDone(old(sv), sv, token, now, code)
      ensures !faulted ==> code.Some?
    {
      code := NewSecret();
      if code.None? { return; }
      SweepHops(now);
      sv := sv.(hops := sv.hops[code.value := Hop(token, now)]);
    }

    /** redeemHop and gateRedeem: the code is gone whoever asks. */
    method Spend(code: nat, now: int) returns (grant: Option<nat>)
      modifies this
      ensures SpendDone(old(sv), sv, code, now, grant)
    {
      SweepHops(now);
      grant := if code in sv.hops then Some(sv.hops[code].token) else None;
      sv := sv.(hops := sv.hops - {code});
    }
  }

  lemma {:induction false} SomeCodeIsFree(pending: map<nat, Pending>)
    requires |pending| < 8
    ensures exists code: nat :: code < 1_000_000 && code !in pending
  {
    var eight: set<nat> := {0, 1, 2, 3, 4, 5, 6, 7};
    assert |eight| == 8;
    if eight <= pending.Keys { Fits(eight, pending.Keys); }
    var code: nat :| code in eight && code !in pending.Keys;
  }

  lemma {:induction false} Fits(a: set<nat>, b: set<nat>)
    requires a <= b
    ensures |a| <= |b|
  {
    assert b == a + (b - a);
    assert |b| == |a| + |b - a|;
  }
}
