/**
 * The JSON endpoints of api/views.py: create, deactivate, reconnect, change port and
 * migrate. Each validates its fields, runs a fixed, ordered script of device calls inside
 * one `try`, answers 500 as soon as a call raises (later calls, `exit` included, are not
 * made and nothing is undone), and closes in `finally` each session it opened.
 */
module ApiViews {
  import opened Common
  import opened RouterTable
  import opened Network

  /** A JSON value of a request field (strings and null; other JSON types are not modelled). */
  datatype Field = Null | Str(s: string)

  /** The request body: bytes that do not decode as text (`json.loads` raises
      `UnicodeDecodeError`), text that is not valid JSON (`JSONDecodeError`), valid JSON that
      is not an object, or an object. */
  datatype Body = Undecodable | Malformed | NotAnObject | Object(fields: map<string, Field>)

  /** The `JsonResponse`: its `success` flag and HTTP status. */
  datatype Response = Response(success: bool, status: nat)

  datatype Parsed<T> = Accepted(req: T) | Rejected(status: nat)

  /** `data.get(key)`. */
  function Get(fields: map<string, Field>, key: string): Option<Field>
  {
    if key in fields then Some(fields[key]) else None
  }

  /** Python truthiness of `data.get(key)`: a non-empty string. */
  predicate Truthy(v: Option<Field>) {
    v.Some? && v.value.Str? && v.value.s != []
  }

  /** The leading part of every handler: `json.loads` (400 on `JSONDecodeError`; 500 from
      the generic handler on `UnicodeDecodeError`, which `except json.JSONDecodeError` does not
      catch), `data.get` for each key (500 when the JSON is not an object, which has no
      `.get`), and `if not all([...])` (400). On success, the values of `keys`, in order. */
  function Required(body: Body, keys: seq<string>): (p: Parsed<seq<string>>)
    ensures p.Accepted? <==> body.Object? && forall i :: 0 <= i < |keys| ==> Truthy(Get(body.fields, keys[i]))
    ensures p.Rejected? ==> p.status == (if body.Undecodable? || body.NotAnObject? then 500 else 400)
    ensures p.Accepted? ==> |p.req| == |keys|
    ensures p.Accepted? ==> forall i :: 0 <= i < |keys| ==> p.req[i] != [] && Get(body.fields, keys[i]) == Some(Str(p.req[i]))
  {
    match body
    case Undecodable => Rejected(500)
    case Malformed => Rejected(400)
    case NotAnObject => Rejected(500)
    case Object(fields) =>
      if forall i :: 0 <= i < |keys| ==> Truthy(Get(fields, keys[i]))
      then Accepted(seq(|keys|, i requires 0 <= i < |keys| => Get(fields, keys[i]).value.s))
      else Rejected(400)
  }

  const DefaultPassword: string := "password_generada"

  /** `data.get('pppoe_password', 'password_generada')`; JSON null reaches the router as None. */
  function PasswordOf(fields: map<string, Field>): (p: Option<string>)
    ensures "pppoe_password" !in fields ==> p == Some(DefaultPassword)
    ensures "pppoe_password" in fields ==> (p.None? <==> fields["pppoe_password"].Null?)
    ensures "pppoe_password" in fields && p.Some? ==> fields["pppoe_password"] == Str(p.value)
  {
    match Get(fields, "pppoe_password")
    case None => Some(DefaultPassword)
    case Some(Null) => None
    case Some(Str(s)) => Some(s)
  }

  /** The answer of a handler whose script ran `k` of its steps. */
  function Outcome(script: seq<Event>, k: nat): Response
  {
    if k == |script| then Response(true, 200) else Response(false, 500)
  }

  // ---------------------------------------------------------------------------
  // Create
  // ---------------------------------------------------------------------------

  datatype CreateRequest = CreateRequest(name: string, serial: string, plan: string, password: Option<string>)

  /** Validation of `crear_cliente_api`. */
  function ParseCreate(body: Body): (p: Parsed<CreateRequest>)
    ensures p.Rejected? <==> Required(body, ["nombre", "onu_sn", "plan_servicio"]).Rejected?
    ensures p.Rejected? ==> p.status == Required(body, ["nombre", "onu_sn", "plan_servicio"]).status
    ensures p.Accepted? ==> var f := body.fields;
      && Get(f, "nombre") == Some(Str(p.req.name)) && p.req.name != []
      && Get(f, "onu_sn") == Some(Str(p.req.serial)) && p.req.serial != []
      && Get(f, "plan_servicio") == Some(Str(p.req.plan)) && p.req.plan != []
      && p.req.password == PasswordOf(f)
  {
    match Required(body, ["nombre", "onu_sn", "plan_servicio"])
    case Rejected(status) => Rejected(status)
    case Accepted(v) => Accepted(CreateRequest(v[0], v[1], v[2], PasswordOf(body.fields)))
  }

  /** The device calls of `crear_cliente_api`, in order: the OLT pre-configuration, then the
      router secret. */
  function CreateScript(req: CreateRequest): seq<Event>
  {
    [ OltOpened,
      OltCommand("configure terminal"),
      OltCommand("interface gpon_olt-1/1/1"),
      OltCommand("onu pre-config-mode serial-number " + req.serial),
      OltCommand("exit"),
      RouterOpened,
      SecretAdded(req.name, req.password, "pppoe", req.plan) ]
  }

  /** The create script talks to the OLT in its first five steps and to the router in the
      last two, and the add of the new secret is its only change to the router. */
  lemma CreateScriptShape(req: CreateRequest)
    ensures var s := CreateScript(req);
      && |s| == 7
      && (forall i :: 0 <= i < |s| ==> (OnOlt(s[i]) <==> i < 5))
      && (forall i :: 0 <= i < |s| ==> (Quiet(s[i]) <==> i != 6))
      && s[6] == SecretAdded(req.name, req.password, "pppoe", req.plan)
  {
  }

  /** The create script opens the OLT at its first step and the router at its sixth. */
  lemma CreateOpens(req: CreateRequest, j: nat)
    requires j <= 7
    ensures var s := CreateScript(req)[..j];
      (OltOpened in s <==> 1 <= j) && (RouterOpened in s <==> 6 <= j)
  {
    OccursOnceAt(CreateScript(req), OltOpened, 0, j);
    OccursOnceAt(CreateScript(req), RouterOpened, 5, j);
  }

  /** The OLT pre-configuration of `crear_cliente_api`, the first five steps of its script. */
  method PreconfigSteps(dev: Devices, req: CreateRequest, ghost t0: seq<Event>, ghost r0: Router, ghost c0: nat)
    returns (ok: bool, tn: bool, ghost j: nat)
    requires Reached(dev, CreateScript(req), 0, t0, r0, c0)
    modifies dev
    ensures dev.console == old(dev.console)
    ensures j <= 5 && tn == (1 <= j)
    ensures ok ==> Reached(dev, CreateScript(req), j, t0, r0, c0) && j == 5
    ensures !ok ==> Stopped(dev, CreateScript(req), j, t0, r0, c0)
  {
    ghost var script := CreateScript(req);
    j, tn := 0, false;
    ok := Step(dev, OltOpened, script, 0, t0, r0, c0);
    if !ok { return; }
    j, tn := 1, true;
    ok := Step(dev, OltCommand("configure terminal"), script, 1, t0, r0, c0);
    if !ok { return; }
    j := 2;
    ok := Step(dev, OltCommand("interface gpon_olt-1/1/1"), script, 2, t0, r0, c0);
    if !ok { return; }
    j := 3;
    ok := Step(dev, OltCommand("onu pre-config-mode serial-number " + req.serial), script, 3, t0, r0, c0);
    if !ok { return; }
    j := 4;
    ok := Step(dev, OltCommand("exit"), script, 4, t0, r0, c0);
    if !ok { return; }
    j := 5;
  }

  /** The `try` body of `crear_cliente_api`: `j` steps of the script completed; `tn` and
      `api` are set once their connect call returned. */
  method CreateSteps(dev: Devices, req: CreateRequest, ghost t0: seq<Event>, ghost r0: Router, ghost c0: nat)
    returns (ok: bool, api: bool, tn: bool, ghost j: nat)
    requires Reached(dev, CreateScript(req), 0, t0, r0, c0)
    modifies dev
    ensures dev.console == old(dev.console)
    ensures ok ==> Reached(dev, CreateScript(req), j, t0, r0, c0) && j == |CreateScript(req)|
    ensures !ok ==> Stopped(dev, CreateScript(req), j, t0, r0, c0)
    ensures api == (RouterOpened in CreateScript(req)[..j]) && tn == (OltOpened in CreateScript(req)[..j])
  {
    ghost var script := CreateScript(req);
    ok, tn, j := PreconfigSteps(dev, req, t0, r0, c0);
    api := false;
    if ok {
      ok, api, j := ConnectAndCall(dev, SecretAdded(req.name, req.password, "pppoe", req.plan), script, 5, t0, r0, c0);
    }
    CreateOpens(req, j);
  }

  /** `crear_cliente_api`. */
  method CrearClienteApi(dev: Devices, body: Body) returns (resp: Response)
    modifies dev
    ensures dev.console == old(dev.console)
    ensures ParseCreate(body).Rejected? ==>
      && resp == Response(false, ParseCreate(body).status)
      && dev.trace == old(dev.trace) && dev.router == old(dev.router) && dev.calls == old(dev.calls)
    ensures ParseCreate(body).Accepted? ==>
      var script := CreateScript(ParseCreate(body).req);
      && Ran(dev, script, old(dev.trace), old(dev.router), old(dev.calls))
      && resp == Outcome(script, Completed(script, dev.failAt, old(dev.calls)))
  {
    var parsed := ParseCreate(body);
    if parsed.Rejected? {
      return Response(false, parsed.status);
    }
    var req := parsed.req;
    ghost var t0, r0, c0 := dev.trace, dev.router, dev.calls;
    var ok, api, tn, j := CreateSteps(dev, req, t0, r0, c0);
    CloseSessions(dev, api, tn, CreateScript(req), j, t0, r0, c0);
    resp := if ok then Response(true, 200) else Response(false, 500);
  }

  // ---------------------------------------------------------------------------
  // Deactivate and reconnect
  // ---------------------------------------------------------------------------

  /** The name and serial of `desactivar_cliente_api` / `reconectar_cliente_api`. */
  datatype SubscriberRequest = SubscriberRequest(name: string, serial: string)

  function ParseSubscriber(body: Body): (p: Parsed<SubscriberRequest>)
    ensures p.Rejected? <==> Required(body, ["nombre", "onu_sn"]).Rejected?
    ensures p.Rejected? ==> p.status == Required(body, ["nombre", "onu_sn"]).status
    ensures p.Accepted? ==>
      && Get(body.fields, "nombre") == Some(Str(p.req.name)) && p.req.name != []
      && Get(body.fields, "onu_sn") == Some(Str(p.req.serial)) && p.req.serial != []
  {
    match Required(body, ["nombre", "onu_sn"])
    case Rejected(status) => Rejected(status)
    case Accepted(v) => Accepted(SubscriberRequest(v[0], v[1]))
  }

  /** `secrets.enable` for reconnect, `secrets.disable` for deactivate. */
  function SwitchOf(enable: bool): Change
  {
    if enable then Enable else Disable
  }

  /** The device calls of deactivate (`enable` false, OLT command `no onu service <sn>`) and
      reconnect (`enable` true, `onu service <sn>`): router first, then the OLT. */
  function ServiceScript(secrets: seq<Secret>, req: SubscriberRequest, enable: bool): seq<Event>
  {
    Lookup(secrets, req.name, SwitchOf(enable))
    + [ OltOpened,
        OltCommand("configure terminal"),
        OltCommand(ServiceCommand(req.serial, enable)),
        OltCommand("exit") ]
  }

  function ServiceCommand(serial: string, enable: bool): string
  {
    if enable then "onu service " + serial else "no onu service " + serial
  }

  /** The service script is the lookup on the router, then four OLT steps: connect,
      `configure terminal`, the service command, `exit`. Its only change to the router is the
      lookup's switch of the first match, which exists only when a secret has the name. */
  lemma ServiceScriptShape(secrets: seq<Secret>, req: SubscriberRequest, enable: bool)
    ensures var s := ServiceScript(secrets, req, enable);
      var n := |Lookup(secrets, req.name, SwitchOf(enable))|;
      && |s| == n + 4
      && (forall i :: 0 <= i < |s| ==> (OnOlt(s[i]) <==> n <= i))
      && (forall i :: 0 <= i < |s| && !Quiet(s[i]) ==> i == 2 && FirstMatch(secrets, req.name).Some?)
      && s[n + 1] == OltCommand("configure terminal")
      && s[n + 2] == OltCommand(ServiceCommand(req.serial, enable))
      && s[n + 3] == OltCommand("exit")
  {
  }

  /** The service script opens the router at its first step and the OLT right after the
      (optional) switch. */
  lemma ServiceOpens(secrets: seq<Secret>, req: SubscriberRequest, enable: bool, j: nat)
    requires j <= |ServiceScript(secrets, req, enable)|
    ensures var script := ServiceScript(secrets, req, enable);
      var p := |Lookup(secrets, req.name, SwitchOf(enable))|;
      (RouterOpened in script[..j] <==> 1 <= j) && (OltOpened in script[..j] <==> p < j)
  {
    var script := ServiceScript(secrets, req, enable);
    var p := |Lookup(secrets, req.name, SwitchOf(enable))|;
    OccursOnceAt(script, RouterOpened, 0, j);
    OccursOnceAt(script, OltOpened, p, j);
  }

  /** The four OLT steps `OltOpened`, `configure terminal`, `command`, `exit` that end
      `script`, starting at step `p`. */
  method OltTail(dev: Devices, command: string, ghost script: seq<Event>, ghost p: nat,
                 ghost t0: seq<Event>, ghost r0: Router, ghost c0: nat)
    returns (ok: bool, tn: bool, ghost j: nat)
    requires |script| == p + 4
    requires script[p..] == [OltOpened, OltCommand("configure terminal"), OltCommand(command), OltCommand("exit")]
    requires Reached(dev, script, p, t0, r0, c0)
    modifies dev
    ensures dev.console == old(dev.console)
    ensures p <= j <= |script| && tn == (p < j)
    ensures ok ==> Reached(dev, script, j, t0, r0, c0) && j == |script|
    ensures !ok ==> Stopped(dev, script, j, t0, r0, c0)
  {
    assert script[p] == OltOpened && script[p + 1] == OltCommand("configure terminal");
    assert script[p + 2] == OltCommand(command) && script[p + 3] == OltCommand("exit");
    j, tn := p, false;
    ok := Step(dev, OltOpened, script, p, t0, r0, c0);
    if !ok { return; }
    j, tn := p + 1, true;
    ok := Step(dev, OltCommand("configure terminal"), script, p + 1, t0, r0, c0);
    if !ok { return; }
    j := p + 2;
    ok := Step(dev, OltCommand(command), script, p + 2, t0, r0, c0);
    if !ok { return; }
    j := p + 3;
    ok := Step(dev, OltCommand("exit"), script, p + 3, t0, r0, c0);
    if !ok { return; }
    j := p + 4;
  }

  /** The `try` body of `desactivar_cliente_api` (`enable` false) and
      `reconectar_cliente_api` (`enable` true). */
  method ServiceSteps(dev: Devices, req: SubscriberRequest, enable: bool,
                      ghost t0: seq<Event>, ghost r0: Router, ghost c0: nat)
    returns (ok: bool, api: bool, tn: bool, ghost j: nat)
    requires dev.router == r0
    requires Reached(dev, ServiceScript(r0.secrets, req, enable), 0, t0, r0, c0)
    modifies dev
    ensures dev.console == old(dev.console)
    ensures ok ==> Reached(dev, ServiceScript(r0.secrets, req, enable), j, t0, r0, c0)
                   && j == |ServiceScript(r0.secrets, req, enable)|
    ensures !ok ==> Stopped(dev, ServiceScript(r0.secrets, req, enable), j, t0, r0, c0)
    ensures api == (RouterOpened in ServiceScript(r0.secrets, req, enable)[..j])
    ensures tn == (OltOpened in ServiceScript(r0.secrets, req, enable)[..j])
  {
    ghost var script := ServiceScript(r0.secrets, req, enable);
    ghost var p := |Lookup(r0.secrets, req.name, SwitchOf(enable))|;
    assert script[..p] == Lookup(r0.secrets, req.name, SwitchOf(enable));
    ok, api, j := LookupSteps(dev, req.name, SwitchOf(enable), script, t0, r0, c0);
    tn := false;
    if ok {
      assert script[p..] == [OltOpened, OltCommand("configure terminal"),
                             OltCommand(ServiceCommand(req.serial, enable)), OltCommand("exit")];
      ok, tn, j := OltTail(dev, ServiceCommand(req.serial, enable), script, p, t0, r0, c0);
    }
    ServiceOpens(r0.secrets, req, enable, j);
  }

  /** `desactivar_cliente_api` (`enable` false) and `reconectar_cliente_api` (`enable`
      true): the two handlers differ only in the router call and the OLT command. */
  method ServiceApi(dev: Devices, body: Body, enable: bool) returns (resp: Response)
    modifies dev
    ensures dev.console == old(dev.console)
    ensures ParseSubscriber(body).Rejected? ==>
      && resp == Response(false, ParseSubscriber(body).status)
      && dev.trace == old(dev.trace) && dev.router == old(dev.router) && dev.calls == old(dev.calls)
    ensures ParseSubscriber(body).Accepted? ==>
      var script := ServiceScript(old(dev.router).secrets, ParseSubscriber(body).req, enable);
      && Ran(dev, script, old(dev.trace), old(dev.router), old(dev.calls))
      && resp == Outcome(script, Completed(script, dev.failAt, old(dev.calls)))
  {
    var parsed := ParseSubscriber(body);
    if parsed.Rejected? {
      return Response(false, parsed.status);
    }
    var req := parsed.req;
    ghost var t0, r0, c0 := dev.trace, dev.router, dev.calls;
    var ok, api, tn, j := ServiceSteps(dev, req, enable, t0, r0, c0);
    CloseSessions(dev, api, tn, ServiceScript(r0.secrets, req, enable), j, t0, r0, c0);
    resp := if ok then Response(true, 200) else Response(false, 500);
  }

  /** `desactivar_cliente_api`. */
  method DesactivarClienteApi(dev: Devices, body: Body) returns (resp: Response)
    modifies dev
    ensures dev.console == old(dev.console)
    ensures ParseSubscriber(body).Rejected? ==>
      && resp == Response(false, ParseSubscriber(body).status)
      && dev.trace == old(dev.trace) && dev.router == old(dev.router) && dev.calls == old(dev.calls)
    ensures ParseSubscriber(body).Accepted? ==>
      var script := ServiceScript(old(dev.router).secrets, ParseSubscriber(body).req, false);
      && Ran(dev, script, old(dev.trace), old(dev.router), old(dev.calls))
      && resp == Outcome(script, Completed(script, dev.failAt, old(dev.calls)))
  {
    resp := ServiceApi(dev, body, false);
  }

  /** `reconectar_cliente_api`. */
  method ReconectarClienteApi(dev: Devices, body: Body) returns (resp: Response)
    modifies dev
    ensures dev.console == old(dev.console)
    ensures ParseSubscriber(body).Rejected? ==>
      && resp == Response(false, ParseSubscriber(body).status)
      && dev.trace == old(dev.trace) && dev.router == old(dev.router) && dev.calls == old(dev.calls)
    ensures ParseSubscriber(body).Accepted? ==>
      var script := ServiceScript(old(dev.router).secrets, ParseSubscriber(body).req, true);
      && Ran(dev, script, old(dev.trace), old(dev.router), old(dev.calls))
      && resp == Outcome(script, Completed(script, dev.failAt, old(dev.calls)))
  {
    resp := ServiceApi(dev, body, true);
  }

  // ---------------------------------------------------------------------------
  // Change port and migrate
  // ---------------------------------------------------------------------------

  /** The serial and target port of `cambiar_puerto_olt_api`. */
  datatype PortRequest = PortRequest(serial: string, port: string)

  function ParsePort(body: Body): (p: Parsed<PortRequest>)
    ensures p.Rejected? <==> Required(body, ["onu_sn", "nuevo_puerto"]).Rejected?
    ensures p.Rejected? ==> p.status == Required(body, ["onu_sn", "nuevo_puerto"]).status
    ensures p.Accepted? ==>
      && Get(body.fields, "onu_sn") == Some(Str(p.req.serial)) && p.req.serial != []
      && Get(body.fields, "nuevo_puerto") == Some(Str(p.req.port)) && p.req.port != []
  {
    match Required(body, ["onu_sn", "nuevo_puerto"])
    case Rejected(status) => Rejected(status)
    case Accepted(v) => Accepted(PortRequest(v[0], v[1]))
  }

  function PortCommand(req: PortRequest): string
  {
    "pon port change onu " + req.serial + " to " + req.port
  }

  /** The device calls of `cambiar_puerto_olt_api`: the OLT only. */
  function PortScript(req: PortRequest): seq<Event>
  {
    [OltOpened, OltCommand("configure terminal"), OltCommand(PortCommand(req)), OltCommand("exit")]
  }

  /** Change-port talks only to the OLT, changes nothing on the router, and sends the
      port-change command. */
  lemma PortScriptShape(req: PortRequest)
    ensures var s := PortScript(req);
      && (forall i :: 0 <= i < |s| ==> OnOlt(s[i]) && Quiet(s[i]))
      && OltCommand(PortCommand(req)) in s
  {
  }

  /** `cambiar_puerto_olt_api`. */
  method CambiarPuertoOltApi(dev: Devices, body: Body) returns (resp: Response)
    modifies dev
    ensures dev.console == old(dev.console)
    ensures ParsePort(body).Rejected? ==>
      && resp == Response(false, ParsePort(body).status)
      && dev.trace == old(dev.trace) && dev.router == old(dev.router) && dev.calls == old(dev.calls)
    ensures ParsePort(body).Accepted? ==>
      var script := PortScript(ParsePort(body).req);
      && Ran(dev, script, old(dev.trace), old(dev.router), old(dev.calls))
      && resp == Outcome(script, Completed(script, dev.failAt, old(dev.calls)))
  {
    var parsed := ParsePort(body);
    if parsed.Rejected? {
      return Response(false, parsed.status);
    }
    var req := parsed.req;
    ghost var script := PortScript(req);
    ghost var t0, r0, c0 := dev.trace, dev.router, dev.calls;
    assert script[0..] == script;
    var ok, tn, j := OltTail(dev, PortCommand(req), script, 0, t0, r0, c0);
    OccursNever(script, RouterOpened, j);
    OccursOnceAt(script, OltOpened, 0, j);
    CloseSessions(dev, false, tn, script, j, t0, r0, c0);
    resp := if ok then Response(true, 200) else Response(false, 500);
  }

  /** `migrar_cliente_olt_api`: after validation it always answers 501 (not implemented),
      and it contacts no device. */
  function MigrarClienteOltApi(body: Body): (resp: Response)
    ensures !resp.success
    ensures body.Malformed? ==> resp.status == 400
    ensures body.NotAnObject? || body.Undecodable? ==> resp.status == 500
    ensures body.Object? ==>
      (resp.status == 501 <==> Truthy(Get(body.fields, "onu_sn")) && Truthy(Get(body.fields, "nueva_olt_ip")))
    ensures body.Object? && resp.status != 501 ==> resp.status == 400
  {
    var keys := ["onu_sn", "nueva_olt_ip"];
    assert body.Object? && Truthy(Get(body.fields, "onu_sn")) && Truthy(Get(body.fields, "nueva_olt_ip"))
           ==> forall i :: 0 <= i < |keys| ==> Truthy(Get(body.fields, keys[i]));
    match Required(body, keys)
    case Rejected(status) => Response(false, status)
    case Accepted(_) =>
      assert Truthy(Get(body.fields, keys[0])) && Truthy(Get(body.fields, keys[1]));
      Response(false, 501)
  }

  // ---------------------------------------------------------------------------
  // What the scripts do to the devices
  // ---------------------------------------------------------------------------

  /** Every handler opens each device at most once and leaves closing to `finally`, so
      `Network.SessionsBalanced` applies to each of them. */
  lemma ScriptsWellFormed(create: CreateRequest, secrets: seq<Secret>, sub: SubscriberRequest,
                          enable: bool, port: PortRequest)
    ensures WellFormed(CreateScript(create))
    ensures WellFormed(ServiceScript(secrets, sub, enable))
    ensures WellFormed(PortScript(port))
  {
    CreateWellFormed(create);
    ServiceWellFormed(secrets, sub, enable);
    var o := PortScript(port);
    CountOnce(o, OltOpened, 0);
    CountPositive(o, RouterOpened);
  }

  lemma CreateWellFormed(create: CreateRequest)
    ensures WellFormed(CreateScript(create))
  {
    var c := CreateScript(create);
    CountOnce(c, OltOpened, 0);
    CountOnce(c, RouterOpened, 5);
  }

  lemma ServiceWellFormed(secrets: seq<Secret>, sub: SubscriberRequest, enable: bool)
    ensures WellFormed(ServiceScript(secrets, sub, enable))
  {
    var s := ServiceScript(secrets, sub, enable);
    var p := |Lookup(secrets, sub.name, SwitchOf(enable))|;
    CountOnce(s, RouterOpened, 0);
    CountOnce(s, OltOpened, p);
  }

  /** An event found only at position `p` is counted once. */
  lemma CountOnce(script: seq<Event>, e: Event, p: nat)
    requires p < |script| && script[p] == e
    requires forall i :: 0 <= i < |script| && i != p ==> script[i] != e
    ensures Count(script, e) == 1
  {
    assert script == script[..p] + [e] + script[p + 1..];
    CountAppend(script[..p] + [e], script[p + 1..], e);
    CountAppend(script[..p], [e], e);
    CountPositive(script[..p], e);
    CountPositive(script[p + 1..], e);
  }

  /** A create that fails leaves the router as it was and undoes nothing on the OLT: the
      only OLT commands sent are the script's own, and the pre-configuration is left open
      (no `exit`) whenever a step before `exit` raises. */
  lemma CreateFailure(req: CreateRequest, r: Router, k: nat)
    requires k < |CreateScript(req)|
    ensures ApplyAll(r, CreateScript(req)[..k]) == r
    ensures var t := RunTrace(CreateScript(req), k);
      && (OltCommand("exit") in t <==> 5 <= k)
      && (forall e :: e in t && e.OltCommand? ==> e in CreateScript(req)[1..5])
      && SecretAdded(req.name, req.password, "pppoe", req.plan) !in t
  {
    var script := CreateScript(req);
    var done := script[..k];
    ApplyAllQuiet(r, done);
    OccursOnceAt(script, OltCommand("exit"), 4, k);
    OccursOnceAt(script, SecretAdded(req.name, req.password, "pppoe", req.plan), 6, k);
    CreateCommandsOwn(req, k);
  }

  /** The OLT commands among the first `k < 7` create steps are the script's own. */
  lemma CreateCommandsOwn(req: CreateRequest, k: nat)
    requires k < |CreateScript(req)|
    ensures forall e :: e in CreateScript(req)[..k] && e.OltCommand? ==> e in CreateScript(req)[1..5]
  {
    var script := CreateScript(req);
    var done := script[..k];
    forall e | e in done && e.OltCommand? ensures e in script[1..5] {
      var i :| 0 <= i < k && done[i] == e;
      assert script[1..5][i - 1] == e;
    }
  }

  /** A create that completes adds exactly one enabled PPPoE secret, named after the
      subscriber, with the plan as profile, and keeps a well-formed table well formed. */
  lemma CreateSuccess(req: CreateRequest, r: Router)
    ensures ApplyAll(r, CreateScript(req)) == Add(r, req.name, req.password, "pppoe", req.plan)
    ensures Valid(r) ==> Valid(ApplyAll(r, CreateScript(req)))
  {
    var script := CreateScript(req);
    ApplyAllQuiet(r, script[..6]);
    ApplyAllNext(r, script, 6);
    assert script[..7] == script;
    if Valid(r) {
      AddKeepsValid(r, req.name, req.password, "pppoe", req.plan);
    }
  }

  /** The fixed texts of the create commands are ASCII. */
  lemma CreateLiteralsAscii()
    ensures OltSession.IsAscii("configure terminal")
    ensures OltSession.IsAscii("interface gpon_olt-1/1/1")
    ensures OltSession.IsAscii("onu pre-config-mode serial-number ")
    ensures OltSession.IsAscii("exit")
  {
  }

  /** The OLT commands of a create are ASCII exactly when the serial number is. */
  lemma CreateCommandsAscii(req: CreateRequest)
    ensures (forall i :: 0 <= i < |CreateScript(req)| && CreateScript(req)[i].OltCommand? ==>
               OltSession.IsAscii(CreateScript(req)[i].command))
            <==> OltSession.IsAscii(req.serial)
    ensures OltSession.IsAscii(CreateScript(req)[3].command) <==> OltSession.IsAscii(req.serial)
  {
    var script := CreateScript(req);
    var prefix := "onu pre-config-mode serial-number ";
    CreateLiteralsAscii();
    OltSession.AsciiAppend(prefix, req.serial);
    assert script[3].command == prefix + req.serial;
    if OltSession.IsAscii(req.serial) {
      forall i | 0 <= i < |script| && script[i].OltCommand? ensures OltSession.IsAscii(script[i].command) {
        if i == 1 {
          assert script[1].command == "configure terminal";
        } else if i == 2 {
          assert script[2].command == "interface gpon_olt-1/1/1";
        } else if i == 4 {
          assert script[4].command == "exit";
        }
      }
    }
  }

  /** With no call scheduled to raise, a create completes exactly when the serial number is
      ASCII; otherwise it stops at the pre-configuration command, after three steps. */
  lemma CreateCompletes(req: CreateRequest, failAt: Option<nat>, start: nat)
    requires failAt.None? || failAt.value < start || start + 7 <= failAt.value
    ensures Completed(CreateScript(req), failAt, start) == 7 <==> OltSession.IsAscii(req.serial)
    ensures !OltSession.IsAscii(req.serial) ==> Completed(CreateScript(req), failAt, start) == 3
  {
    var script := CreateScript(req);
    CreateCommandsAscii(req);
    if OltSession.IsAscii(req.serial) {
      CompletedAll(script, failAt, start);
    } else {
      CreateLiteralsAscii();
      CompletedIs(script, failAt, start, 3);
    }
  }

  /** Deactivate (`enable` false) and reconnect (`enable` true) switch at most one secret:
      once the lookup has run, the first secret with the subscriber's name gets the flag and
      an unknown name changes nothing; before that the table is untouched, and the OLT steps
      after it do not undo it when they fail. */
  lemma ServiceRouter(r: Router, req: SubscriberRequest, enable: bool, k: nat)
    requires Valid(r) && k <= |ServiceScript(r.secrets, req, enable)|
    ensures ApplyAll(r, ServiceScript(r.secrets, req, enable)[..k])
            == if |Lookup(r.secrets, req.name, SwitchOf(enable))| <= k
               then Changed(r, req.name, SwitchOf(enable)) else r
  {
    var script := ServiceScript(r.secrets, req, enable);
    var l := Lookup(r.secrets, req.name, SwitchOf(enable));
    if k <= |l| {
      assert script[..k] == l[..k];
      LookupEffect(r, req.name, SwitchOf(enable), k);
    } else {
      QuietBetween(r, script, |l|, k);
      assert script[..|l|] == l[..|l|];
      LookupEffect(r, req.name, SwitchOf(enable), |l|);
    }
  }

  /** Changing port never touches the router: no router session is opened or closed and
      the table is unchanged, whatever step raises. */
  lemma PortLeavesRouter(req: PortRequest, r: Router, k: nat)
    requires k <= |PortScript(req)|
    ensures ApplyAll(r, PortScript(req)[..k]) == r
    ensures RouterOpened !in RunTrace(PortScript(req), k) && RouterClosed !in RunTrace(PortScript(req), k)
  {
    ApplyAllQuiet(r, PortScript(req)[..k]);
    OccursNever(PortScript(req), RouterOpened, k);
    OccursNever(PortScript(req), RouterClosed, k);
  }
}
