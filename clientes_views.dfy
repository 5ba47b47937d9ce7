/**
 * The web flows of clientes/views.py that provision a subscriber: create, deactivate,
 * delete and the detail page. The OLT is only simulated here (each command goes to the
 * console and succeeds); the router is the same device environment as in the JSON
 * endpoints. A record is created before the devices are touched and deleted again if they
 * fail; deactivate and delete change the record only once every device step succeeded.
 */
module ClientesViews {
  import opened Common
  import opened RouterTable
  import opened Network

  /** A calendar day; `date.today()` is a parameter of the flows that need it. */
  datatype Date = Date(day: nat)

  /** A `Cliente` row. */
  datatype Cliente = Cliente(
    nombre: string,
    direccion: Option<string>,
    telefono: string,
    onuSn: string,
    plan: string,
    fechaAlta: Date,
    activo: bool,
    fechaDesactivacion: Option<Date>)

  /** The fields of a `ClienteForm` that validated: every form field, `activo` included. */
  datatype ClienteForm = ClienteForm(
    nombre: string,
    direccion: Option<string>,
    telefono: string,
    onuSn: string,
    plan: string,
    activo: bool)

  /** The request of `crear_cliente`: a GET, or a POST whose form validated (`Some`) or not. */
  datatype Request = Get | Post(form: Option<ClienteForm>)

  /** `mikrotik_status` of the detail page. */
  datatype Status = Conectado | Desconectado | Error

  /** What a flow renders: a redirect to the list, the error page, the creation form, a 404
      from `get_object_or_404`, or the detail page. */
  datatype Page = Redirect | ErrorPage | FormPage | NotFound | Detail(cliente: Cliente, status: Status)

  /** The `Cliente` table, keyed by primary key. */
  class Store {
    var rows: map<nat, Cliente>
    var nextPk: nat

    /** Every key was handed out before. */
    ghost predicate Valid()
      reads this
    {
      forall pk :: pk in rows ==> pk < nextPk
    }

    constructor()
      ensures rows == map[] && nextPk == 1 && Valid()
    {
      rows := map[];
      nextPk := 1;
    }

    /** `form.save()` of a new record: a fresh key, never reused. */
    method Insert(c: Cliente) returns (pk: nat)
      requires Valid()
      modifies this
      ensures Valid()
      ensures pk == old(nextPk) && pk !in old(rows)
      ensures rows == old(rows)[pk := c] && nextPk == old(nextPk) + 1
    {
      pk := nextPk;
      rows := rows[pk := c];
      nextPk := nextPk + 1;
    }

    /** `cliente.save()` of an existing record. */
    method Update(pk: nat, c: Cliente)
      requires Valid() && pk in rows
      modifies this
      ensures Valid()
      ensures rows == old(rows)[pk := c] && nextPk == old(nextPk)
    {
      rows := rows[pk := c];
    }

    /** `cliente.delete()`; the key is not handed out again. */
    method Delete(pk: nat)
      requires Valid()
      modifies this
      ensures Valid()
      ensures rows == old(rows) - {pk} && nextPk == old(nextPk)
    {
      rows := rows - {pk};
    }
  }

  /** The record `form.save()` creates on `today`: the form's fields, `fecha_alta` set
      automatically and no deactivation date. */
  function NewRecord(f: ClienteForm, today: Date): (c: Cliente)
    ensures c.nombre == f.nombre && c.onuSn == f.onuSn && c.plan == f.plan && c.activo == f.activo
    ensures c.direccion == f.direccion && c.telefono == f.telefono
    ensures c.fechaAlta == today && c.fechaDesactivacion.None?
  {
    Cliente(f.nombre, f.direccion, f.telefono, f.onuSn, f.plan, today, f.activo, None)
  }

  // ---------------------------------------------------------------------------
  // Create
  // ---------------------------------------------------------------------------

  /** The password `crear_cliente` gives every new secret. */
  const GeneratedPassword: string := "password_generada"

  /** The simulated OLT pre-configuration of `crear_cliente`, in order. */
  function PreconfigCommands(serial: string): (c: seq<string>)
    ensures |c| == 4 && c[0] == "configure terminal" && c[|c| - 1] == "exit"
    ensures c[1] == "interface gpon 0/1" && c[2] == "onu add " + serial + " serial-number " + serial
  {
    ["configure terminal", "interface gpon 0/1", "onu add " + serial + " serial-number " + serial, "exit"]
  }

  /** The router calls of `crear_cliente`: connect, then `secrets.add`. */
  function NewSecretScript(f: ClienteForm): seq<Event>
  {
    [RouterOpened, SecretAdded(f.nombre, Some(GeneratedPassword), "pppoe", f.plan)]
  }

  /** The router calls of `crear_cliente` never touch the OLT, and the add that ends them is
      their only change to the router. */
  lemma NewSecretScriptShape(f: ClienteForm)
    ensures var s := NewSecretScript(f);
      && |s| == 2 && (forall i :: 0 <= i < |s| ==> !OnOlt(s[i]))
      && (forall i :: 0 <= i < |s| ==> (Quiet(s[i]) <==> i == 0))
      && s[1] == SecretAdded(f.nombre, Some(GeneratedPassword), "pppoe", f.plan)
  {
  }

  /** A create whose router step completed adds one enabled PPPoE secret named after the
      record, with the fixed password and the plan as profile; one that did not leaves the
      table as it was. Either way the table stays well formed. */
  lemma NewSecretEffect(f: ClienteForm, r: Router, k: nat)
    requires Valid(r) && k <= 2
    ensures ApplyAll(r, NewSecretScript(f)[..k])
            == if k == 2 then Add(r, f.nombre, Some(GeneratedPassword), "pppoe", f.plan) else r
    ensures Valid(ApplyAll(r, NewSecretScript(f)[..k]))
    ensures WellFormed(NewSecretScript(f))
  {
    var script := NewSecretScript(f);
    ApplyAllQuiet(r, script[..1]);
    if k == 2 {
      ApplyAllNext(r, script, 1);
      assert script[..2] == script;
      AddKeepsValid(r, f.nombre, Some(GeneratedPassword), "pppoe", f.plan);
    } else {
      ApplyAllQuiet(r, script[..k]);
    }
    assert script == [RouterOpened] + [script[1]];
    CountAppend([RouterOpened], [script[1]], RouterOpened);
    CountPositive(script, OltOpened);
  }

  /** `crear_cliente`. */
  method CrearCliente(store: Store, dev: Devices, request: Request, today: Date) returns (page: Page)
    requires store.Valid()
    modifies store, dev
    ensures store.Valid()
    ensures request.Get? || request.form.None? ==>
      && page == FormPage
      && store.rows == old(store.rows) && store.nextPk == old(store.nextPk)
      && dev.trace == old(dev.trace) && dev.router == old(dev.router)
      && dev.calls == old(dev.calls) && dev.console == old(dev.console)
    ensures request.Post? && request.form.Some? ==>
      var f := request.form.value;
      var script := NewSecretScript(f);
      var done := Completed(script, dev.failAt, old(dev.calls)) == |script|;
      && Ran(dev, script, old(dev.trace), old(dev.router), old(dev.calls))
      && dev.console == old(dev.console) + PreconfigCommands(f.onuSn)
      && store.nextPk == old(store.nextPk) + 1
      && store.rows == (if done then old(store.rows)[old(store.nextPk) := NewRecord(f, today)] else old(store.rows))
      && page == (if done then Redirect else ErrorPage)
  {
    if request.Get? || request.form.None? {
      return FormPage;
    }
    var f := request.form.value;
    ghost var rows0 := store.rows;
    var pk := store.Insert(NewRecord(f, today));
    var simulated := dev.SimulateOltCommand("configure terminal");
    simulated := dev.SimulateOltCommand("interface gpon 0/1");
    simulated := dev.SimulateOltCommand("onu add " + f.onuSn + " serial-number " + f.onuSn);
    simulated := dev.SimulateOltCommand("exit");
    ghost var script := NewSecretScript(f);
    ghost var t0, r0, c0 := dev.trace, dev.router, dev.calls;
    var ok, api, j := ConnectAndCall(dev, SecretAdded(f.nombre, Some(GeneratedPassword), "pppoe", f.plan), script, 0, t0, r0, c0);
    if !ok {
      store.Delete(pk);
      assert store.rows == rows0;
    }
    OccursOnceAt(script, RouterOpened, 0, j);
    OccursNever(script, OltOpened, j);
    CloseSessions(dev, api, false, script, j, t0, r0, c0);
    page := if ok then Redirect else ErrorPage;
  }

  // ---------------------------------------------------------------------------
  // Deactivate and delete
  // ---------------------------------------------------------------------------

  /** The record after `desactivar_cliente` succeeded on `today`. */
  function Deactivated(c: Cliente, today: Date): (d: Cliente)
    ensures !d.activo && d.fechaDesactivacion == Some(today)
    ensures d.nombre == c.nombre && d.onuSn == c.onuSn && d.plan == c.plan && d.fechaAlta == c.fechaAlta
    ensures d.direccion == c.direccion && d.telefono == c.telefono
  {
    c.(activo := false, fechaDesactivacion := Some(today))
  }

  /** `desactivar_cliente`: an unknown key is a 404; an inactive record is left alone;
      otherwise the router disables the first secret with the record's name, the OLT
      removal is simulated, and only then is the record marked inactive as of today. */
  method DesactivarCliente(store: Store, dev: Devices, pk: nat, today: Date) returns (page: Page)
    requires store.Valid()
    modifies store, dev
    ensures store.Valid() && store.nextPk == old(store.nextPk)
    ensures pk !in old(store.rows) || !old(store.rows)[pk].activo ==>
      && page == (if pk in old(store.rows) then Redirect else NotFound)
      && store.rows == old(store.rows)
      && dev.trace == old(dev.trace) && dev.router == old(dev.router)
      && dev.calls == old(dev.calls) && dev.console == old(dev.console)
    ensures pk in old(store.rows) && old(store.rows)[pk].activo ==>
      var c := old(store.rows)[pk];
      var script := Lookup(old(dev.router).secrets, c.nombre, Disable);
      var done := Completed(script, dev.failAt, old(dev.calls)) == |script|;
      && Ran(dev, script, old(dev.trace), old(dev.router), old(dev.calls))
      && (Valid(old(dev.router)) ==> dev.router == if done then Changed(old(dev.router), c.nombre, Disable) else old(dev.router))
      && dev.console == old(dev.console) + (if done then ["service remove " + c.onuSn] else [])
      && store.rows == (if done then old(store.rows)[pk := Deactivated(c, today)] else old(store.rows))
      && page == (if done then Redirect else ErrorPage)
  {
    if pk !in store.rows {
      return NotFound;
    }
    var c := store.rows[pk];
    if !c.activo {
      return Redirect;
    }
    ghost var t0, r0, c0 := dev.trace, dev.router, dev.calls;
    ghost var script := Lookup(r0.secrets, c.nombre, Disable);
    assert script[..|script|] == script;
    var ok, api, j := LookupSteps(dev, c.nombre, Disable, script, t0, r0, c0);
    if ok {
      var _ := dev.SimulateOltCommand("service remove " + c.onuSn);
      store.Update(pk, Deactivated(c, today));
    }
    LookupOpens(r0.secrets, c.nombre, Disable, j);
    CloseSessions(dev, api, false, script, j, t0, r0, c0);
    if Valid(r0) {
      LookupEffect(r0, c.nombre, Disable, j);
    }
    page := if ok then Redirect else ErrorPage;
  }

  /** `eliminar_cliente`: an unknown key is a 404; otherwise the router removes the first
      secret with the record's name, the OLT removal is simulated, and only then is the
      record deleted. */
  method EliminarCliente(store: Store, dev: Devices, pk: nat) returns (page: Page)
    requires store.Valid()
    modifies store, dev
    ensures store.Valid() && store.nextPk == old(store.nextPk)
    ensures pk !in old(store.rows) ==>
      && page == NotFound
      && store.rows == old(store.rows)
      && dev.trace == old(dev.trace) && dev.router == old(dev.router)
      && dev.calls == old(dev.calls) && dev.console == old(dev.console)
    ensures pk in old(store.rows) ==>
      var c := old(store.rows)[pk];
      var script := Lookup(old(dev.router).secrets, c.nombre, Remove);
      var done := Completed(script, dev.failAt, old(dev.calls)) == |script|;
      && Ran(dev, script, old(dev.trace), old(dev.router), old(dev.calls))
      && (Valid(old(dev.router)) ==> dev.router == if done then Changed(old(dev.router), c.nombre, Remove) else old(dev.router))
      && dev.console == old(dev.console) + (if done then ["no service " + c.onuSn] else [])
      && store.rows == (if done then old(store.rows) - {pk} else old(store.rows))
      && page == (if done then Redirect else ErrorPage)
  {
    if pk !in store.rows {
      return NotFound;
    }
    var c := store.rows[pk];
    ghost var t0, r0, c0 := dev.trace, dev.router, dev.calls;
    ghost var script := Lookup(r0.secrets, c.nombre, Remove);
    assert script[..|script|] == script;
    var ok, api, j := LookupSteps(dev, c.nombre, Remove, script, t0, r0, c0);
    if ok {
      var _ := dev.SimulateOltCommand("no service " + c.onuSn);
      store.Delete(pk);
    }
    LookupOpens(r0.secrets, c.nombre, Remove, j);
    CloseSessions(dev, api, false, script, j, t0, r0, c0);
    if Valid(r0) {
      LookupEffect(r0, c.nombre, Remove, j);
    }
    page := if ok then Redirect else ErrorPage;
  }

  // ---------------------------------------------------------------------------
  // Detail
  // ---------------------------------------------------------------------------

  /** The router calls of `detalle_cliente`. */
  function StatusScript(name: string): seq<Event>
  {
    [RouterOpened, ActiveQueried(name)]
  }

  /** The detail page only reads, and only from the router. */
  lemma StatusScriptShape(name: string)
    ensures forall i :: 0 <= i < |StatusScript(name)| ==>
      !OnOlt(StatusScript(name)[i]) && Quiet(StatusScript(name)[i])
  {
  }

  /** The status shown after `k` steps of the detail script ran: `Conectado` exactly when
      the name has an active session, `Error` when a call raised. */
  function StatusOf(k: nat, name: string, r: Router): (s: Status)
    ensures s == Conectado <==> k == 2 && name in r.active
    ensures s == Desconectado <==> k == 2 && name !in r.active
    ensures s == Error <==> k != 2
  {
    if k != 2 then Error else if name in r.active then Conectado else Desconectado
  }

  /** The detail script is read-only: whatever step raises, the router is as it was, and its
      one session is closed exactly when it was opened. */
  lemma StatusReadOnly(name: string, r: Router, k: nat)
    requires k <= 2
    ensures ApplyAll(r, StatusScript(name)[..k]) == r
    ensures WellFormed(StatusScript(name))
    ensures Count(RunTrace(StatusScript(name), k), RouterClosed) == (if k == 0 then 0 else 1)
  {
    var script := StatusScript(name);
    ApplyAllQuiet(r, script[..k]);
    assert script == [RouterOpened] + [script[1]];
    CountAppend([RouterOpened], [script[1]], RouterOpened);
    CountPositive(script, OltOpened);
    SessionsBalanced(script, k);
    var t := RunTrace(script, k);
    OccursOnceAt(script, RouterOpened, 0, k);
    CountPositive(script[..k], RouterOpened);
    if k != 0 {
      assert script[..k] == [RouterOpened] + script[1..k];
      CountAppend([RouterOpened], script[1..k], RouterOpened);
      CountAppend(script[..k], Closes(script[..k]), RouterOpened);
    }
  }

  /** `detalle_cliente`: a 404 for an unknown key, otherwise the record with the router's
      view of its session; nothing is changed. */
  method DetalleCliente(store: Store, dev: Devices, pk: nat) returns (page: Page)
    modifies dev
    ensures dev.console == old(dev.console) && dev.router == old(dev.router)
    ensures pk !in store.rows ==>
      page == NotFound && dev.trace == old(dev.trace) && dev.calls == old(dev.calls)
    ensures pk in store.rows ==>
      var k := Completed(StatusScript(store.rows[pk].nombre), dev.failAt, old(dev.calls));
      && Ran(dev, StatusScript(store.rows[pk].nombre), old(dev.trace), old(dev.router), old(dev.calls))
      && page == Detail(store.rows[pk], StatusOf(k, store.rows[pk].nombre, old(dev.router)))
  {
    if pk !in store.rows {
      return NotFound;
    }
    var c := store.rows[pk];
    ghost var script := StatusScript(c.nombre);
    ghost var t0, r0, c0 := dev.trace, dev.router, dev.calls;
    var api := false;
    ghost var j := 0;
    var status := Error;
    var ok := Step(dev, RouterOpened, script, 0, t0, r0, c0);
    if ok {
      api, j := true, 1;
      var sessions;
      ok, sessions := StepActive(dev, c.nombre, script, 1, t0, r0, c0);
      if ok {
        j := 2;
        status := if sessions != [] then Conectado else Desconectado;
      }
    }
    OccursOnceAt(script, RouterOpened, 0, j);
    OccursNever(script, OltOpened, j);
    CloseSessions(dev, api, false, script, j, t0, r0, c0);
    page := Detail(c, status);
  }
}
