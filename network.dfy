/**
 * The two devices as the request handlers see them: the router and the OLT behind
 * sessions that are opened, used and closed. Every call that can raise is numbered in
 * the order it is attempted, and a caller-supplied oracle (`failAt`) names the call that
 * raises, if any; an OLT command that is not ASCII also raises, because the source
 * encodes it with `str.encode('ascii')`. A call that returns normally leaves one event in
 * the trace; a call that raises leaves none. Closing never raises.
 */
module Network {
  import opened Common
  import opened RouterTable
  import OltSession

  datatype Event =
    | OltOpened                     // connect_olt() returned
    | OltCommand(command: string)   // execute_olt_command(tn, command) returned
    | OltClosed                     // tn.close()
    | RouterOpened                  // connect_mikrotik() returned
    | RouterClosed                  // api.close()
    | SecretAdded(name: string, password: Option<string>, service: string, profile: string)
    | SecretsQueried(name: string)  // secrets.get(query={Key('name'): name})
    | SecretDisabled(id: nat)
    | SecretEnabled(id: nat)
    | SecretRemoved(id: nat)
    | ActiveQueried(name: string)   // ppp active get(query={Key('name'): name})

  /** An OLT session call, as opposed to a router call. */
  predicate OnOlt(e: Event) { e.OltOpened? || e.OltCommand? || e.OltClosed? }

  predicate IsClose(e: Event) { e.OltClosed? || e.RouterClosed? }

  /** What an event does to the router. */
  function Effect(r: Router, e: Event): Router
  {
    match e
    case SecretAdded(name, password, service, profile) => Add(r, name, password, service, profile)
    case SecretDisabled(id) => r.(secrets := SetDisabled(r.secrets, id, true))
    case SecretEnabled(id) => r.(secrets := SetDisabled(r.secrets, id, false))
    case SecretRemoved(id) => r.(secrets := RemoveId(r.secrets, id))
    case _ => r
  }

  /** The router after a sequence of events, in order. */
  function ApplyAll(r: Router, events: seq<Event>): Router
  {
    if events == [] then r else Effect(ApplyAll(r, events[..|events| - 1]), events[|events| - 1])
  }

  /** No router call opens or ends a PPP session or hands out an id twice; the calls that do
      not change the table leave the router as it is. */
  lemma EffectKeepsSessions(r: Router, e: Event)
    ensures Effect(r, e).active == r.active && r.nextId <= Effect(r, e).nextId
    ensures Quiet(e) ==> Effect(r, e) == r
  {
  }

  /** Any sequence of calls leaves the active sessions alone and never lowers the next id. */
  lemma {:induction false} ApplyAllKeepsSessions(r: Router, events: seq<Event>)
    ensures ApplyAll(r, events).active == r.active && r.nextId <= ApplyAll(r, events).nextId
    decreases |events|
  {
    if events != [] {
      ApplyAllKeepsSessions(r, events[..|events| - 1]);
      EffectKeepsSessions(ApplyAll(r, events[..|events| - 1]), events[|events| - 1]);
    }
  }

  /** One more event of a script applied to the router. */
  lemma ApplyAllNext(r: Router, script: seq<Event>, j: nat)
    requires j < |script|
    ensures ApplyAll(r, script[..j + 1]) == Effect(ApplyAll(r, script[..j]), script[j])
  {
    assert script[..j + 1][..j] == script[..j];
  }

  /** Every event keeps the router's table well formed. */
  lemma {:induction false} ApplyAllKeepsValid(r: Router, events: seq<Event>)
    requires Valid(r)
    ensures Valid(ApplyAll(r, events))
    decreases |events|
  {
    if events != [] {
      var before := ApplyAll(r, events[..|events| - 1]);
      ApplyAllKeepsValid(r, events[..|events| - 1]);
      match events[|events| - 1]
      case SecretAdded(name, password, service, profile) => AddKeepsValid(before, name, password, service, profile);
      case SecretDisabled(id) => SetDisabledKeepsValid(before, id, true);
      case SecretEnabled(id) => SetDisabledKeepsValid(before, id, false);
      case SecretRemoved(id) => RemoveKeepsValid(before, id);
      case _ =>
    }
  }

  /** An event that leaves the router's table as it is: sessions, queries and OLT calls. */
  predicate Quiet(e: Event) {
    !(e.SecretAdded? || e.SecretDisabled? || e.SecretEnabled? || e.SecretRemoved?)
  }

  /** Events that change nothing on the router leave it as it is. */
  lemma {:induction false} ApplyAllQuiet(r: Router, events: seq<Event>)
    requires forall i :: 0 <= i < |events| ==> Quiet(events[i])
    ensures ApplyAll(r, events) == r
    decreases |events|
  {
    if events != [] {
      ApplyAllQuiet(r, events[..|events| - 1]);
    }
  }

  /** Applying two runs of events one after the other is applying their concatenation. */
  lemma {:induction false} ApplyAllAppend(r: Router, a: seq<Event>, b: seq<Event>)
    ensures ApplyAll(r, a + b) == ApplyAll(ApplyAll(r, a), b)
    decreases |b|
  {
    if b == [] {
      assert a + b == a;
    } else {
      var b' := b[..|b| - 1];
      assert (a + b)[..|a + b| - 1] == a + b';
      ApplyAllAppend(r, a, b');
    }
  }

  /** The events of a script from step `m` to step `k` leave the router alone, so the router
      after `k` steps is the router after `m`. */
  lemma QuietBetween(r: Router, script: seq<Event>, m: nat, k: nat)
    requires m <= k <= |script|
    requires forall i :: m <= i < k ==> Quiet(script[i])
    ensures ApplyAll(r, script[..k]) == ApplyAll(r, script[..m])
  {
    assert script[..k] == script[..m] + script[m..k];
    ApplyAllAppend(r, script[..m], script[m..k]);
    ApplyAllQuiet(ApplyAll(r, script[..m]), script[m..k]);
  }

  // ---------------------------------------------------------------------------
  // Looking a subscriber up by name
  // ---------------------------------------------------------------------------

  /** What a handler does to the first secret its name query returned. */
  datatype Change = Disable | Enable | Remove

  function ChangeEvent(change: Change, id: nat): Event
  {
    match change
    case Disable => SecretDisabled(id)
    case Enable => SecretEnabled(id)
    case Remove => SecretRemoved(id)
  }

  /** `api = connect_mikrotik()`, `user = secrets.get(query={Key('name'): name})`, then
      `if user: <change>(user[0]['.id'])`: the router calls of a lookup by name. */
  function Lookup(secrets: seq<Secret>, name: string, change: Change): (s: seq<Event>)
    ensures |s| == if FirstMatch(secrets, name).Some? then 3 else 2
  {
    [RouterOpened, SecretsQueried(name)]
    + match FirstMatch(secrets, name)
      case None => []
      case Some(i) => [ChangeEvent(change, secrets[i].id)]
  }

  /** The table after a change of the secret at position `i`. */
  function ChangeAt(secrets: seq<Secret>, i: nat, change: Change): (r: seq<Secret>)
    requires i < |secrets|
    ensures change != Remove ==>
      && |r| == |secrets|
      && (forall j :: 0 <= j < |secrets| && j != i ==> r[j] == secrets[j])
      && r[i] == secrets[i].(disabled := change == Disable)
    ensures change == Remove ==> multiset(r) + multiset{secrets[i]} == multiset(secrets)
  {
    assert secrets == secrets[..i] + [secrets[i]] + secrets[i + 1..];
    match change
    case Disable => secrets[i := secrets[i].(disabled := true)]
    case Enable => secrets[i := secrets[i].(disabled := false)]
    case Remove => secrets[..i] + secrets[i + 1..]
  }

  /** The router after such a lookup, stated by position: the first secret with that name is
      disabled, enabled or taken out, and a name with no secret changes nothing. */
  function Changed(r: Router, name: string, change: Change): (r': Router)
    ensures r'.active == r.active && r'.nextId == r.nextId
    ensures FirstMatch(r.secrets, name).None? ==> r' == r
    ensures FirstMatch(r.secrets, name).Some? && change != Remove ==>
      var i := FirstMatch(r.secrets, name).value;
      && |r'.secrets| == |r.secrets|
      && (forall j :: 0 <= j < |r.secrets| && j != i ==> r'.secrets[j] == r.secrets[j])
      && r'.secrets[i] == r.secrets[i].(disabled := change == Disable)
    ensures FirstMatch(r.secrets, name).Some? && change == Remove ==>
      var i := FirstMatch(r.secrets, name).value;
      multiset(r'.secrets) + multiset{r.secrets[i]} == multiset(r.secrets)
  {
    match FirstMatch(r.secrets, name)
    case None => r
    case Some(i) => r.(secrets := ChangeAt(r.secrets, i, change))
  }

  /** With unique ids, the router call on the id of the secret at position `i` changes that
      secret and no other. */
  lemma EffectAt(r: Router, i: nat, change: Change)
    requires UniqueIds(r.secrets) && i < |r.secrets|
    ensures Effect(r, ChangeEvent(change, r.secrets[i].id)) == r.(secrets := ChangeAt(r.secrets, i, change))
  {
    match change
    case Disable => SetDisabledAt(r.secrets, i, true);
    case Enable => SetDisabledAt(r.secrets, i, false);
    case Remove => RemoveAt(r.secrets, i);
  }

  /** The id-based router calls of a lookup do what `Changed` says, and nothing before its
      last call changes the table. */
  lemma LookupEffect(r: Router, name: string, change: Change, k: nat)
    requires Valid(r) && k <= |Lookup(r.secrets, name, change)|
    ensures ApplyAll(r, Lookup(r.secrets, name, change)[..k])
            == if k == |Lookup(r.secrets, name, change)| then Changed(r, name, change) else r
  {
    var l := Lookup(r.secrets, name, change);
    if FirstMatch(r.secrets, name).None? || k < 3 {
      ApplyAllQuiet(r, l[..k]);
    } else {
      var i := FirstMatch(r.secrets, name).value;
      ApplyAllNext(r, l, 2);
      ApplyAllQuiet(r, l[..2]);
      assert l[..3] == l;
      assert l[2] == ChangeEvent(change, r.secrets[i].id);
      EffectAt(r, i, change);
    }
  }

  /** A lookup opens the router once, at its first step, and never the OLT. */
  lemma LookupOpens(secrets: seq<Secret>, name: string, change: Change, j: nat)
    requires j <= |Lookup(secrets, name, change)|
    ensures var l := Lookup(secrets, name, change);
      (RouterOpened in l[..j] <==> 1 <= j) && OltOpened !in l[..j] && WellFormed(l)
  {
    var l := Lookup(secrets, name, change);
    OccursOnceAt(l, RouterOpened, 0, j);
    OccursNever(l, OltOpened, j);
    CountPositive(l, OltOpened);
    assert l == [RouterOpened] + l[1..];
    CountAppend([RouterOpened], l[1..], RouterOpened);
    CountPositive(l[1..], RouterOpened);
  }

  /** A lookup keeps the router's table well formed. */
  lemma ChangedKeepsValid(r: Router, name: string, change: Change)
    requires Valid(r)
    ensures Valid(Changed(r, name, change))
  {
    var l := Lookup(r.secrets, name, change);
    LookupEffect(r, name, change, |l|);
    assert l[..|l|] == l;
    ApplyAllKeepsValid(r, l);
  }

  /** Whether the call that would produce `e`, attempted as call number `index`, raises. */
  predicate StepFails(e: Event, failAt: Option<nat>, index: nat) {
    failAt == Some(index) || (e.OltCommand? && !OltSession.IsAscii(e.command))
  }

  /** How many steps of `script` complete when its first call is call number `start`: the
      position of the first step that raises, or the whole script. */
  function Completed(script: seq<Event>, failAt: Option<nat>, start: nat): (k: nat)
    ensures k <= |script|
    ensures forall i :: 0 <= i < k ==> !StepFails(script[i], failAt, start + i)
    ensures k < |script| ==> StepFails(script[k], failAt, start + k)
    decreases |script|
  {
    if script == [] then 0
    else if StepFails(script[0], failAt, start) then 0
    else 1 + Completed(script[1..], failAt, start + 1)
  }

  /** The first failing step is unique: any `j` with no failure before it and a failure at
      it (or the end of the script) is the number of completed steps. */
  lemma CompletedIs(script: seq<Event>, failAt: Option<nat>, start: nat, j: nat)
    requires j <= |script|
    requires forall i :: 0 <= i < j ==> !StepFails(script[i], failAt, start + i)
    requires j < |script| ==> StepFails(script[j], failAt, start + j)
    ensures Completed(script, failAt, start) == j
  {
  }

  /** With no failure scheduled within the script, every step completes. */
  lemma CompletedAll(script: seq<Event>, failAt: Option<nat>, start: nat)
    requires forall i :: 0 <= i < |script| && script[i].OltCommand? ==> OltSession.IsAscii(script[i].command)
    requires failAt.None? || failAt.value < start || start + |script| <= failAt.value
    ensures Completed(script, failAt, start) == |script|
  {
  }

  /** The `finally` block of every handler: `if api: api.close()`, then `if tn: tn.close()`,
      each handle being set only once its connect call returned. */
  function Closes(done: seq<Event>): seq<Event>
  {
    (if RouterOpened in done then [RouterClosed] else []) + (if OltOpened in done then [OltClosed] else [])
  }

  /** The trace of a run of `script` whose first `k` steps complete. */
  function RunTrace(script: seq<Event>, k: nat): seq<Event>
    requires k <= |script|
  {
    script[..k] + Closes(script[..k])
  }

  /** Device calls consumed by such a run: the completed ones and the one that raised. */
  function Attempts(script: seq<Event>, k: nat): nat
  {
    if k < |script| then k + 1 else k
  }

  // ---------------------------------------------------------------------------
  // Sessions are closed exactly once
  // ---------------------------------------------------------------------------

  function Count(s: seq<Event>, e: Event): nat
  {
    if s == [] then 0 else (if s[0] == e then 1 else 0) + Count(s[1..], e)
  }

  lemma {:induction false} CountAppend(a: seq<Event>, b: seq<Event>, e: Event)
    ensures Count(a + b, e) == Count(a, e) + Count(b, e)
    decreases |a|
  {
    if a == [] {
      assert a + b == b;
    } else {
      assert (a + b)[0] == a[0] && (a + b)[1..] == a[1..] + b;
      CountAppend(a[1..], b, e);
    }
  }

  lemma {:induction false} CountPositive(s: seq<Event>, e: Event)
    ensures e in s <==> Count(s, e) > 0
    decreases |s|
  {
    if s != [] {
      CountPositive(s[1..], e);
      assert s == [s[0]] + s[1..];
    }
  }

  lemma CountPrefix(s: seq<Event>, k: nat, e: Event)
    requires k <= |s|
    ensures Count(s[..k], e) <= Count(s, e)
  {
    assert s == s[..k] + s[k..];
    CountAppend(s[..k], s[k..], e);
  }

  /** A handler script opens each device at most once and never closes one itself. */
  predicate WellFormed(script: seq<Event>) {
    && Count(script, OltOpened) <= 1
    && Count(script, RouterOpened) <= 1
    && forall e :: e in script ==> !IsClose(e)
  }

  /** Whatever step raises, every session that was opened is closed exactly once, no
      session that was not opened is closed, and closing comes after every other step. */
  lemma SessionsBalanced(script: seq<Event>, k: nat)
    requires WellFormed(script) && k <= |script|
    ensures var t := RunTrace(script, k);
      && Count(t, OltClosed) == Count(t, OltOpened) <= 1
      && Count(t, RouterClosed) == Count(t, RouterOpened) <= 1
      && forall i, j :: 0 <= i < j < |t| && IsClose(t[i]) ==> IsClose(t[j])
  {
    var done := script[..k];
    var t := RunTrace(script, k);
    assert forall e :: e in done ==> e in script;
    CountPrefix(script, k, OltOpened);
    CountPrefix(script, k, RouterOpened);
    CountPositive(done, OltOpened);
    CountPositive(done, RouterOpened);
    CountPositive(done, OltClosed);
    CountPositive(done, RouterClosed);
    CountAppend(done, Closes(done), OltClosed);
    CountAppend(done, Closes(done), OltOpened);
    CountAppend(done, Closes(done), RouterClosed);
    CountAppend(done, Closes(done), RouterOpened);
    var c := Closes(done);
    var rc: seq<Event> := if RouterOpened in done then [RouterClosed] else [];
    var oc: seq<Event> := if OltOpened in done then [OltClosed] else [];
    CountAppend(rc, oc, OltClosed);
    CountAppend(rc, oc, OltOpened);
    CountAppend(rc, oc, RouterClosed);
    CountAppend(rc, oc, RouterOpened);
    ClosesLast(script, k);
  }

  /** In a run of a well-formed script, the closes come after every other call. */
  lemma ClosesLast(script: seq<Event>, k: nat)
    requires WellFormed(script) && k <= |script|
    ensures var t := RunTrace(script, k);
      forall i, j :: 0 <= i < j < |t| && IsClose(t[i]) ==> IsClose(t[j])
  {
    var t := RunTrace(script, k);
    assert forall i :: 0 <= i < k ==> t[i] == script[i] && script[i] in script;
    assert forall i :: 0 <= i < k ==> !IsClose(t[i]);
  }

  // ---------------------------------------------------------------------------
  // Running a script step by step
  // ---------------------------------------------------------------------------

  /** The devices, starting from trace `t0`, router `r0` and call number `c0`, have run the
      first `j` steps of `script` without a failure. */
  ghost predicate Reached(dev: Devices, script: seq<Event>, j: nat, t0: seq<Event>, r0: Router, c0: nat)
    reads dev
  {
    && j <= |script|
    && dev.trace == t0 + script[..j]
    && dev.router == ApplyAll(r0, script[..j])
    && dev.calls == c0 + j
    && forall i :: 0 <= i < j ==> !StepFails(script[i], dev.failAt, c0 + i)
  }

  /** The devices ran the first `j` steps of `script`, and step `j` raised. */
  ghost predicate Stopped(dev: Devices, script: seq<Event>, j: nat, t0: seq<Event>, r0: Router, c0: nat)
    reads dev
  {
    && j < |script|
    && dev.trace == t0 + script[..j]
    && dev.router == ApplyAll(r0, script[..j])
    && dev.calls == c0 + j + 1
    && (forall i :: 0 <= i < j ==> !StepFails(script[i], dev.failAt, c0 + i))
    && StepFails(script[j], dev.failAt, c0 + j)
  }

  /** Step `j` of `script`, the device call `e`, inside a handler's `try`. */
  method Step(dev: Devices, e: Event, ghost script: seq<Event>, ghost j: nat,
              ghost t0: seq<Event>, ghost r0: Router, ghost c0: nat) returns (ok: bool)
    requires j < |script| && script[j] == e
    requires Reached(dev, script, j, t0, r0, c0)
    modifies dev
    ensures dev.console == old(dev.console)
    ensures ok ==> Reached(dev, script, j + 1, t0, r0, c0)
    ensures !ok ==> Stopped(dev, script, j, t0, r0, c0)
    ensures dev.router == if ok then Effect(old(dev.router), e) else old(dev.router)
  {
    ok := dev.Attempt(e);
    ApplyAllNext(r0, script, j);
    assert script[..j + 1] == script[..j] + [e];
  }

  /** `secrets.get(query={Key('name'): name})` as step `j` of `script`. */
  method StepQuery(dev: Devices, name: string, ghost script: seq<Event>, ghost j: nat,
                   ghost t0: seq<Event>, ghost r0: Router, ghost c0: nat) returns (ok: bool, users: seq<Secret>)
    requires j < |script| && script[j] == SecretsQueried(name)
    requires Reached(dev, script, j, t0, r0, c0)
    modifies dev
    ensures dev.console == old(dev.console) && dev.router == old(dev.router)
    ensures ok ==> Reached(dev, script, j + 1, t0, r0, c0) && users == Matching(dev.router.secrets, name)
    ensures !ok ==> Stopped(dev, script, j, t0, r0, c0)
  {
    ok, users := dev.QuerySecrets(name);
    ApplyAllNext(r0, script, j);
    assert script[..j + 1] == script[..j] + [SecretsQueried(name)];
  }

  /** `ppp active get(query={Key('name'): name})` as step `j` of `script`. */
  method StepActive(dev: Devices, name: string, ghost script: seq<Event>, ghost j: nat,
                    ghost t0: seq<Event>, ghost r0: Router, ghost c0: nat) returns (ok: bool, sessions: seq<string>)
    requires j < |script| && script[j] == ActiveQueried(name)
    requires Reached(dev, script, j, t0, r0, c0)
    modifies dev
    ensures dev.console == old(dev.console) && dev.router == old(dev.router)
    ensures ok ==> Reached(dev, script, j + 1, t0, r0, c0) && (sessions != [] <==> name in dev.router.active)
    ensures !ok ==> Stopped(dev, script, j, t0, r0, c0)
  {
    ok, sessions := dev.QueryActive(name);
    ApplyAllNext(r0, script, j);
    assert script[..j + 1] == script[..j] + [ActiveQueried(name)];
  }

  /** `api = connect_mikrotik()` and then the single router call `e`, as the last two steps of
      `script`, starting at step `p`. */
  method ConnectAndCall(dev: Devices, e: Event, ghost script: seq<Event>, ghost p: nat,
                        ghost t0: seq<Event>, ghost r0: Router, ghost c0: nat)
    returns (ok: bool, api: bool, ghost j: nat)
    requires |script| == p + 2 && script[p] == RouterOpened && script[p + 1] == e
    requires Reached(dev, script, p, t0, r0, c0)
    modifies dev
    ensures dev.console == old(dev.console)
    ensures p <= j <= |script| && api == (p < j)
    ensures ok ==> Reached(dev, script, j, t0, r0, c0) && j == |script|
    ensures !ok ==> Stopped(dev, script, j, t0, r0, c0)
  {
    j, api := p, false;
    ok := Step(dev, RouterOpened, script, p, t0, r0, c0);
    if !ok { return; }
    j, api := p + 1, true;
    ok := Step(dev, e, script, p + 1, t0, r0, c0);
    if !ok { return; }
    j := p + 2;
  }

  /** The router part of a handler that looks a subscriber up by name: the first steps of
      `script` are `Lookup(r0.secrets, name, change)`. */
  method LookupSteps(dev: Devices, name: string, change: Change, ghost script: seq<Event>,
                     ghost t0: seq<Event>, ghost r0: Router, ghost c0: nat)
    returns (ok: bool, api: bool, ghost j: nat)
    requires dev.router == r0
    requires |Lookup(r0.secrets, name, change)| <= |script|
    requires script[..|Lookup(r0.secrets, name, change)|] == Lookup(r0.secrets, name, change)
    requires Reached(dev, script, 0, t0, r0, c0)
    modifies dev
    ensures dev.console == old(dev.console)
    ensures api == (1 <= j)
    ensures ok ==> Reached(dev, script, j, t0, r0, c0) && j == |Lookup(r0.secrets, name, change)|
    ensures !ok ==> Stopped(dev, script, j, t0, r0, c0) && j < |Lookup(r0.secrets, name, change)|
  {
    ghost var l := Lookup(r0.secrets, name, change);
    assert script[0] == l[0] && script[1] == l[1];
    j, api := 0, false;
    ok := Step(dev, RouterOpened, script, 0, t0, r0, c0);
    if !ok { return; }
    j, api := 1, true;
    var users;
    ok, users := StepQuery(dev, name, script, 1, t0, r0, c0);
    if !ok { return; }
    j := 2;
    QueryHead(r0.secrets, name);
    if users != [] {
      assert script[2] == l[2];
      ok := Step(dev, ChangeEvent(change, users[0].id), script, 2, t0, r0, c0);
      if !ok { return; }
      j := 3;
    }
  }

  /** An event that occurs in a script once, at position `p`, is in the first `j` steps
      exactly when `p < j`. */
  lemma OccursOnceAt(script: seq<Event>, e: Event, p: nat, j: nat)
    requires p < |script| && script[p] == e && j <= |script|
    requires forall i :: 0 <= i < |script| && i != p ==> script[i] != e
    ensures e in script[..j] <==> p < j
  {
    if p < j {
      assert script[..j][p] == e;
    }
  }

  /** An event that does not occur in a script is in none of its prefixes. */
  lemma OccursNever(script: seq<Event>, e: Event, j: nat)
    requires e !in script && j <= |script|
    ensures e !in script[..j]
  {
    assert forall x :: x in script[..j] ==> x in script;
  }

  /** The devices after a handler ran `script` and left its `finally` block: the trace holds
      the completed steps and then the closes, the router holds their effects. */
  ghost predicate Ran(dev: Devices, script: seq<Event>, t0: seq<Event>, r0: Router, c0: nat)
    reads dev
  {
    var k := Completed(script, dev.failAt, c0);
    && dev.trace == t0 + RunTrace(script, k)
    && dev.router == ApplyAll(r0, script[..k])
    && dev.calls == c0 + Attempts(script, k)
  }

  /** The `finally` block: `if api: api.close()`, then `if tn: tn.close()`; each flag says
      whether the script got past that device's connect call. */
  method CloseSessions(dev: Devices, api: bool, tn: bool, ghost script: seq<Event>, ghost j: nat,
                       ghost t0: seq<Event>, ghost r0: Router, ghost c0: nat)
    requires (Reached(dev, script, j, t0, r0, c0) && j == |script|) || Stopped(dev, script, j, t0, r0, c0)
    requires api == (RouterOpened in script[..j]) && tn == (OltOpened in script[..j])
    modifies dev
    ensures Ran(dev, script, t0, r0, c0)
    ensures Completed(script, dev.failAt, c0) == j
    ensures dev.console == old(dev.console)
  {
    CompletedIs(script, dev.failAt, c0, j);
    if api { dev.Close(RouterClosed); }
    if tn { dev.Close(OltClosed); }
  }

  /** The router and the OLT, with the oracle that decides which call raises. */
  class Devices {
    var router: Router
    var trace: seq<Event>
    /** Calls attempted so far (the number the next call gets). */
    var calls: nat
    /** What the simulated OLT printed (clientes/views.py). */
    var console: seq<string>
    const failAt: Option<nat>

    constructor (router0: Router, failAt0: Option<nat>)
      ensures router == router0 && trace == [] && calls == 0 && console == [] && failAt == failAt0
    {
      router, trace, calls, console := router0, [], 0, [];
      failAt := failAt0;
    }

    /** One device call that may raise; on return it leaves its event and its effect. */
    method Attempt(e: Event) returns (ok: bool)
      modifies this
      ensures ok == !StepFails(e, failAt, old(calls))
      ensures calls == old(calls) + 1
      ensures trace == old(trace) + (if ok then [e] else [])
      ensures router == (if ok then Effect(old(router), e) else old(router))
      ensures console == old(console)
    {
      ok := !StepFails(e, failAt, calls);
      calls := calls + 1;
      if ok {
        trace := trace + [e];
        router := Effect(router, e);
      }
    }

    /** `secrets.get(query={Key('name'): name})`: on return, the matching entries. */
    method QuerySecrets(name: string) returns (ok: bool, users: seq<Secret>)
      modifies this
      ensures ok == !StepFails(SecretsQueried(name), failAt, old(calls))
      ensures calls == old(calls) + 1
      ensures trace == old(trace) + (if ok then [SecretsQueried(name)] else [])
      ensures router == old(router) && console == old(console)
      ensures ok ==> users == Matching(router.secrets, name)
    {
      ok := Attempt(SecretsQueried(name));
      users := if ok then Matching(router.secrets, name) else [];
    }

    /** `list(api.path('ppp', 'active').get(query={Key('name'): name}))`. */
    method QueryActive(name: string) returns (ok: bool, sessions: seq<string>)
      modifies this
      ensures ok == !StepFails(ActiveQueried(name), failAt, old(calls))
      ensures calls == old(calls) + 1
      ensures trace == old(trace) + (if ok then [ActiveQueried(name)] else [])
      ensures router == old(router) && console == old(console)
      ensures ok ==> (sessions != [] <==> name in router.active)
    {
      ok := Attempt(ActiveQueried(name));
      sessions := if ok && name in router.active then [name] else [];
    }

    /** `api.close()` / `tn.close()`: never raises and is not numbered. */
    method Close(e: Event)
      requires IsClose(e)
      modifies this
      ensures trace == old(trace) + [e]
      ensures router == old(router) && calls == old(calls) && console == old(console)
    {
      trace := trace + [e];
    }

    /** `simular_olt_comando(command)`: prints the command and returns True; it never raises
        and touches no device. */
    method SimulateOltCommand(command: string) returns (ok: bool)
      modifies this
      ensures ok
      ensures console == old(console) + [command]
      ensures router == old(router) && trace == old(trace) && calls == old(calls)
    {
      console := console + [command];
      ok := true;
    }
  }
}
