# Subscriber provisioning core, modelled in Dafny

The system provisions internet subscribers on two devices:
- a MikroTik router, which holds one PPPoE secret per subscriber;
- a ZTE OLT, reached over telnet, on which each subscriber's ONU is configured.

This project models three pieces of it and proves what they do:

- **The OLT driver** (`gestion_red/connect.py`).
  - `connect_olt` runs the login handshake: wait for `Username:`, send the user, wait for `Password:`, send the password, then accept only if a `#` prompt arrives.
  - `execute_olt_command` frames the command as ASCII bytes plus one `\n` and reads until `#`. It then cleans the text: split on `\n`, drop every line that contains the command as a substring or is blank, and join the rest with `\n`.
  - Modules `OltOutput` (the pure cleaner) and `OltSession` (bytes, the telnet session class, the two operations).
- **The JSON endpoints** (`api/views.py`): create, deactivate, reconnect, change port and migrate.
  - Each handler validates its fields (400 for a missing field or text that is not JSON, 500 for JSON that is not an object or for a body whose bytes do not decode as text).
  - It then runs a fixed, ordered script of device calls inside one `try`, answers 500 at the first call that raises, and closes in `finally` each session it opened.
  - Module `ApiViews`, over the device environment of module `Network` and the secret table of module `RouterTable`.
- **The web flows** (`clientes/views.py`): `crear_cliente`, `desactivar_cliente`, `eliminar_cliente`, `detalle_cliente`, and the simulated OLT command `simular_olt_comando`.
  - Module `ClientesViews`, with a `Store` class for the `Cliente` table.

The devices are a `Network.Devices` object:
- `router` is the secret table and the active PPPoE sessions.
- `trace` is every device call that completed, closes included, in order.
- `calls` counts the calls that could fail.
- `console` holds the simulated OLT commands.
- `failAt` is an oracle. It names the call that raises, if any. An OLT command that is not ASCII also raises, because `str.encode('ascii')` does.

Every handler that calls a device is proved against `Network.Ran`. Take the handler's script `S` and let `k` be its first failing step. Then:
- the trace gains `S[..k]`, then a router close if the router was opened, then an OLT close if the OLT was opened;
- the router is the old router with the effects of `S[..k]` applied;
- the answer is success exactly when `k == |S|`.

Nothing that completed is undone on the devices. No compensating rollback is performed: a create whose router step fails leaves the OLT pre-configuration in place. The one undo in the code is on the database: `crear_cliente` deletes the record it has just saved.

## Model

| member | source | states |
|---|---|---|
| OltOutput.Split | gestion_red/connect.py:49 | `str.split('\n')`: at least one piece, and no piece holds a newline |
| OltOutput.JoinSplit | gestion_red/connect.py:49-52 | joining the pieces of a split with `\n` gives the text back |
| OltOutput.SplitJoin | gestion_red/connect.py:49-52 | splitting a non-empty join of newline-free lines gives the lines back |
| OltOutput.SplitLine | gestion_red/connect.py:49 | a text with no newline splits into itself alone |
| OltOutput.SplitAfterLine | gestion_red/connect.py:49 | splitting `a + "\n" + b` gives `a` followed by the pieces of `b` |
| OltOutput.ContainsAt | gestion_red/connect.py:50 | `command in line` holds iff the command occurs at some position of the line |
| OltOutput.StripEmpty | gestion_red/connect.py:50 | `line.strip()` is empty, so falsy, iff the line is blank |
| OltOutput.Join | gestion_red/connect.py:52 | `"\n".join` of no lines is `""`; otherwise its length is the lines' total length plus one separator between each two |
| OltOutput.Kept | gestion_red/connect.py:50 | the filter keeps a line iff it is a line of the output that does not contain the command and is not blank; it never adds lines |
| OltOutput.KeptIsSubsequence | gestion_red/connect.py:49-50 | the kept lines are a subsequence of the output's lines, in their original order |
| OltOutput.KeptCounts | gestion_red/connect.py:50 | every line that passes is kept as often as it occurs, and no other line is kept |
| OltOutput.KeptAllPass | gestion_red/connect.py:50 | filtering lines that all pass changes nothing |
| OltOutput.KeptIdempotent | gestion_red/connect.py:50 | filtering twice is filtering once |
| OltOutput.NonEmptyJoin | gestion_red/connect.py:52 | a join of kept lines is empty iff no line was kept |
| OltOutput.Clean | gestion_red/connect.py:49-52 | the cleaned output is `""` iff no line was kept |
| OltOutput.CleanLines | gestion_red/connect.py:49-52 | a non-empty cleaned output splits into exactly the kept lines, none of which contains the command or is blank |
| OltOutput.CleanIdempotent | gestion_red/connect.py:49-52 | cleaning a cleaned output again with the same command returns it unchanged |
| OltOutput.EmptyCommandKeepsNothing | gestion_red/connect.py:50 | the empty command is a substring of every line, so every line is dropped |
| OltOutput.CleanEmptyCommand | gestion_red/connect.py:49-52 | with the empty command the cleaned output is `""` |
| OltSession.AsciiAppend | gestion_red/connect.py:45 | a concatenation is ASCII iff both parts are |
| OltSession.Encode | gestion_red/connect.py:45 | `encode('ascii')` succeeds iff every character is below 128, one byte per character |
| OltSession.Decode | gestion_red/connect.py:47 | `decode('ascii')` gives one character per byte when it succeeds |
| OltSession.DecodeDefined | gestion_red/connect.py:47 | decoding succeeds iff every byte is below 128 |
| OltSession.DecodeAt | gestion_red/connect.py:32 | a decoded character has the code of its byte |
| OltSession.DecodeEncode | gestion_red/connect.py:45-47 | decoding the encoding of ASCII text gives the text back |
| OltSession.EncodeDecode | gestion_red/connect.py:45-47 | encoding decoded bytes gives the bytes back |
| OltSession.DecodeAppend | gestion_red/connect.py:47 | decoding distributes over concatenation |
| OltSession.NewlinesAppend | gestion_red/connect.py:45 | the number of newline bytes is additive |
| OltSession.EncodeNoNewlines | gestion_red/connect.py:45 | text with no newline encodes to bytes with no newline |
| OltSession.FrameShape | gestion_red/connect.py:45 | a command can be written iff it is ASCII; the bytes written are the command plus one `\n`, with no other newline when the command has none |
| OltSession.MarkerText | gestion_red/connect.py:26-28 | a marker built from ASCII text, such as `Username:` or `Password:`, decodes back to that text |
| OltSession.PromptMarker | gestion_red/connect.py:32-34 | the `#` prompt is the one ASCII byte of `#`, built like the login markers, and decodes to `"#"` |
| OltSession.Frame | gestion_red/connect.py:45 | `command.encode('ascii') + b'\n'` exists iff the command is ASCII, and is one byte per character followed by a final newline byte |
| OltSession.Find | gestion_red/connect.py:26-32 | the first position at which the marker occurs, or none when it never occurs |
| OltSession.ReadUntil | gestion_red/connect.py:26-32 | `read_until` splits the stream at the end of the first marker, or returns everything when the marker never comes |
| OltSession.PromptCheck | gestion_red/connect.py:32-35 | decoding the text read after the password and finding `#` in it holds exactly when the prompt arrived with ASCII text before it |
| OltSession.LoginOrder | gestion_red/connect.py:26-35 | a login succeeds only if both credentials are ASCII and `Username:`, `Password:` and `#` arrive in that order without overlapping; for a stream that is ASCII text, those conditions are also enough |
| OltSession.TelnetSession.constructor | gestion_red/connect.py:24 | a fresh connection has sent nothing and has the device's whole stream ahead |
| OltSession.TelnetSession.Write | gestion_red/connect.py:27 | `tn.write` appends to what was sent and reads nothing |
| OltSession.TelnetSession.ReadUntilMarker | gestion_red/connect.py:26 | `tn.read_until` consumes the stream up to and including the marker, and reports whether the marker arrived |
| OltSession.ConnectOlt | gestion_red/connect.py:19-39 | login succeeds iff `Username:` arrives, then `Password:`, then `#` with ASCII text before it, and both credentials are ASCII. The new session state is stated for every outcome. With no `Username:`, nothing is sent and the stream is used up. A non-ASCII user sends nothing and leaves the stream just after `Username:`. With no `Password:`, only the framed user is sent and the stream is used up. A non-ASCII password leaves the stream just after `Password:`. Otherwise the framed user and then the framed password are sent, and the stream is left just after the first `#` (used up if none came) |
| OltSession.ExecuteOltCommand | gestion_red/connect.py:41-52 | a non-ASCII command writes nothing and fails; otherwise exactly the framed command is written, the stream is read up to the first `#` with no check that it came, and the result is the cleaned decoding of that text (failure when it is not ASCII) |
| RouterTable.Matching | api/views.py:95 | the query result holds exactly the secrets with that name |
| RouterTable.FirstMatch | api/views.py:95-97 | the position of the first secret with that name, or none when no secret has it |
| RouterTable.QueryHead | api/views.py:95-97 | the query result is non-empty iff there is a first match, and its head is that secret |
| RouterTable.AddAppends | api/views.py:50-55 | `secrets.add` keeps every secret in place and appends one enabled secret with the given fields under the next id; the active sessions are untouched |
| RouterTable.SetDisabledFlags | api/views.py:97 | disabling or enabling by id keeps the table's length and every field except the flag, and sets the flag exactly on the secrets with that id |
| RouterTable.AddKeepsValid | api/views.py:50-55 | adding a secret keeps ids unique and below the next id, and the new secret takes the next id |
| RouterTable.SetDisabledKeepsValid | api/views.py:97 | disabling or enabling by id keeps the table well formed |
| RouterTable.RemoveKeepsUnique | clientes/views.py:220 | removing by id keeps ids unique |
| RouterTable.RemoveKeepsValid | clientes/views.py:220 | removing by id keeps the table well formed |
| RouterTable.SetDisabledAt | api/views.py:97 | with unique ids, switching the id of the secret at position `i` changes that secret's flag and nothing else |
| RouterTable.RemoveAt | clientes/views.py:220 | with unique ids, removing the id of the secret at position `i` takes out exactly that secret |
| RouterTable.RemoveNone | clientes/views.py:218-220 | removing an id that no secret has changes nothing |
| RouterTable.RemoveId | clientes/views.py:220 | after removal, a secret is present iff it was present and has another id |
| Network.EffectKeepsSessions | api/views.py:48-55 | no router call opens or ends a PPP session or lowers the next id, and the calls that do not change the table leave the router as it is |
| Network.ApplyAllKeepsSessions | api/views.py:34-60 | any sequence of device calls leaves the active sessions alone and never lowers the next id |
| Network.ApplyAllNext | api/views.py:40-55 | one more completed step applies its effect to the router |
| Network.ApplyAllKeepsValid | api/views.py:50-55 | every sequence of router calls keeps the secret table well formed |
| Network.ApplyAllQuiet | api/views.py:37-49 | connects, queries and OLT commands leave the secret table unchanged |
| Network.ApplyAllAppend | api/views.py:40-55 | running two sequences of calls one after the other is running their concatenation |
| Network.QuietBetween | api/views.py:100-105 | calls that do not touch the table between steps `m` and `k` leave the router as it was after step `m` |
| Network.Lookup | api/views.py:93-97 | a lookup by name makes three router calls iff a secret has the name, and two otherwise; which calls they are, and what they change, is stated by `Network.LookupOpens` and `Network.LookupEffect` |
| Network.ChangeAt | api/views.py:97 | disabling or enabling the secret at position `i` changes that secret's flag and no other secret; removing it takes exactly that secret out of the table |
| Network.Changed | api/views.py:95-97 | after a lookup's change, the sessions and the next id are kept; a name with no secret changes nothing; otherwise the first secret with the name, and only it, is switched or taken out |
| Network.EffectAt | api/views.py:97 | the id-based disable, enable or remove of the secret at position `i` is the positional change of that secret |
| Network.LookupEffect | api/views.py:95-97 | a completed lookup changes exactly the first secret with the name, and nothing if there is none; an interrupted one changes nothing |
| Network.LookupOpens | api/views.py:93-97 | a lookup opens the router once, at its first step, and never the OLT |
| Network.ChangedKeepsValid | api/views.py:95-97 | a lookup's change keeps the table well formed |
| Network.Completed | api/views.py:34-60 | the number of steps that complete is the position of the first step that raises, or the whole script |
| Network.CompletedIs | api/views.py:34-60 | a step with no failure before it and a failure at it is the first failing step |
| Network.CompletedAll | api/views.py:34-60 | with no failure scheduled in the script's range and only ASCII OLT commands, every step completes |
| Network.SessionsBalanced | api/views.py:62-66 | whatever step raises, each session is closed exactly as often as it was opened (at most once), and the closes come after every other call |
| Network.Step | api/views.py:34-60 | one device call of a handler's `try`: it either completes and extends the run, or raises and stops it |
| Network.StepQuery | api/views.py:95 | the name query as a step: when it completes it returns exactly the matching secrets |
| Network.StepActive | clientes/views.py:154-155 | the active-session query as a step: when it completes the result is non-empty iff the name has an active session |
| Network.ConnectAndCall | api/views.py:48-55 | a router connect followed by one call: both complete or the run stops at the one that raised, and `api` is set iff the connect returned |
| Network.LookupSteps | api/views.py:93-97 | the lookup's steps: they complete all of `Lookup` or stop at the first call that raises, and `api` is set iff the connect returned |
| Network.CloseSessions | api/views.py:62-66 | the `finally` block closes the router if it was opened, then the OLT if it was opened, and the run is then exactly `Ran` |
| Network.Devices.Attempt | api/views.py:37-55 | a failable device call completes iff it is not the scheduled failure and (for an OLT command) is ASCII; it counts one call and applies its effect only when it completes |
| Network.Devices.QuerySecrets | api/views.py:95 | the name query returns the matching secrets and changes nothing on the router |
| Network.Devices.QueryActive | clientes/views.py:154-155 | the active-session query is non-empty iff the name has a session |
| Network.Devices.Close | api/views.py:62-66 | closing is recorded, never fails and consumes no call |
| Network.Devices.SimulateOltCommand | clientes/views.py:20-27 | the simulated OLT command always succeeds, logs the command and touches no device |
| ApiViews.Required | api/views.py:22-73 | the fields are accepted iff the body is a JSON object whose required keys are all non-empty strings; text that is not JSON and a missing field give 400; a non-object, or a body whose bytes do not decode as text (`UnicodeDecodeError`, caught only by the generic `except`), gives 500 |
| ApiViews.PasswordOf | api/views.py:27 | an absent password becomes `password_generada`, and JSON null reaches the router as None |
| ApiViews.ParseCreate | api/views.py:23-30 | create is rejected exactly when name, serial or plan is missing or empty, with the status of the validation |
| ApiViews.CreateScriptShape | api/views.py:37-55 | the create script has seven steps: the first five talk to the OLT, the last two to the router, and the only change to the router is the final `secrets.add` with the name, the password, `pppoe` and the plan |
| ApiViews.CreateOpens | api/views.py:37-48 | the create script opens the OLT at its first step and the router at its sixth |
| ApiViews.PreconfigSteps | api/views.py:37-43 | the OLT pre-configuration (connect, `configure terminal`, `interface gpon_olt-1/1/1`, `onu pre-config-mode serial-number <sn>`, `exit`) runs until a step raises; `tn` is set iff the connect returned |
| ApiViews.CreateSteps | api/views.py:34-57 | the `try` of create runs the script until a step raises, with `tn` and `api` set iff each connect returned |
| ApiViews.CrearClienteApi | api/views.py:17-73 | a rejected request touches no device; an accepted one runs the create script with sessions closed in `finally`, and answers 200 iff every step completed, else 500 |
| ApiViews.ParseSubscriber | api/views.py:82-87 | deactivate and reconnect are rejected exactly when name or serial is missing or empty |
| ApiViews.ServiceScriptShape | api/views.py:93-105 | the service script is the router lookup, then the OLT connect, `configure terminal`, the service command and `exit`; its only router change is the switch of the first match, made only when a secret has the name |
| ApiViews.ServiceOpens | api/views.py:93-102 | the service script opens the router first and the OLT right after the lookup |
| ApiViews.OltTail | api/views.py:102-105 | the OLT part (connect, `configure terminal`, the command, `exit`) runs until a step raises; `tn` is set iff the connect returned |
| ApiViews.ServiceSteps | api/views.py:91-106 | the `try` of deactivate and reconnect: the lookup, then the OLT part, stopping at the first call that raises |
| ApiViews.ServiceApi | api/views.py:77-173 | deactivate and reconnect, shared: validation, then the script with sessions closed, answering 200 iff every step completed |
| ApiViews.DesactivarClienteApi | api/views.py:77-123 | deactivate runs the lookup with disable, then `no onu service <sn>` between `configure terminal` and `exit` |
| ApiViews.ReconectarClienteApi | api/views.py:127-173 | reconnect runs the lookup with enable, then `onu service <sn>` between `configure terminal` and `exit` |
| ApiViews.ParsePort | api/views.py:183-188 | change-port is rejected exactly when serial or port is missing or empty |
| ApiViews.PortScriptShape | api/views.py:194-198 | the change-port script talks only to the OLT, changes nothing on the router, and sends the port-change command |
| ApiViews.CambiarPuertoOltApi | api/views.py:178-213 | change-port runs only OLT steps, sends `pon port change onu <sn> to <port>` in config mode, closes the OLT iff it was opened, and answers 200 iff every step completed |
| ApiViews.MigrarClienteOltApi | api/views.py:217-243 | migrate never succeeds: 501 iff both fields are present and non-empty, otherwise 400 (500 for a non-object or an undecodable body), and it contacts no device |
| ApiViews.ScriptsWellFormed | api/views.py:62-66 | every endpoint script opens each device at most once and never closes one itself, so `SessionsBalanced` applies to all of them |
| ApiViews.CreateFailure | api/views.py:40-60 | a failed create leaves the router untouched, completes `exit` iff the failure came after it, completes no OLT command outside the script (no compensation), and adds no secret |
| ApiViews.CreateSuccess | api/views.py:48-55 | a completed create adds exactly one enabled secret with the name, the password, service `pppoe` and the plan as profile, keeping a well-formed table well formed |
| ApiViews.CreateCommandsAscii | api/views.py:40-43 | the create commands are all ASCII iff the serial is |
| ApiViews.CreateCompletes | api/views.py:40-68 | with no failure scheduled, create completes iff the serial is ASCII, and otherwise stops after three steps at the pre-configuration command |
| ApiViews.ServiceRouter | api/views.py:93-105 | after any number of steps of deactivate or reconnect, the router is the old one until the lookup completes and the first match switched from then on; the OLT steps never undo it |
| ApiViews.PortLeavesRouter | api/views.py:189-206 | change-port never opens or closes a router session and never changes the table |
| ClientesViews.Store.constructor | clientes/models.py:3-11 | an empty table whose first key is 1 |
| ClientesViews.Store.Insert | clientes/views.py:98 | saving a new record stores it under a fresh key that was never handed out |
| ClientesViews.Store.Update | clientes/views.py:194-196 | saving an existing record replaces it and nothing else |
| ClientesViews.Store.Delete | clientes/views.py:120 | deleting removes exactly that key, which is not handed out again |
| ClientesViews.NewRecord | clientes/views.py:96-98 | a new record has the form's fields, today's `fecha_alta` and no deactivation date |
| ClientesViews.PreconfigCommands | clientes/views.py:104-107 | the simulated pre-configuration is exactly four commands in order: `configure terminal`, `interface gpon 0/1`, `onu add <sn> serial-number <sn>`, `exit` |
| ClientesViews.NewSecretScriptShape | clientes/views.py:110-117 | the router calls of `crear_cliente` are the connect and then the `secrets.add` with the record's name, `password_generada`, `pppoe` and the plan; they never touch the OLT, and the add is their only change |
| ClientesViews.NewSecretEffect | clientes/views.py:110-117 | a completed router step adds one enabled `pppoe` secret with the record's name, `password_generada` and the plan; an interrupted one changes nothing; the script is well formed |
| ClientesViews.CrearCliente | clientes/views.py:93-130 | a GET or an invalid form only shows the form; a valid one saves the record, logs the four simulated OLT commands, adds the secret, and keeps the record iff the router steps completed (deleted, error page otherwise), closing the router iff it was opened |
| ClientesViews.Deactivated | clientes/views.py:194-195 | a deactivated record is inactive since today, all other fields unchanged |
| ClientesViews.DesactivarCliente | clientes/views.py:175-205 | an unknown key is a 404; an inactive record changes nothing; otherwise the first secret with the name is disabled, the removal is simulated and the record is deactivated, only if the router steps completed (error page and record untouched otherwise) |
| ClientesViews.EliminarCliente | clientes/views.py:208-235 | an unknown key is a 404; otherwise the first secret with the name is removed, the removal is simulated and the record is deleted, only if the router steps completed (error page and record kept otherwise) |
| ClientesViews.StatusScriptShape | clientes/views.py:152-155 | the detail page's router calls only read, and never touch the OLT |
| ClientesViews.StatusOf | clientes/views.py:157-163 | `Conectado` iff the query completed and the name has an active session, `Desconectado` iff it completed without one, the error status iff a call raised |
| ClientesViews.StatusReadOnly | clientes/views.py:152-167 | the detail queries never change the router, and its one session is closed iff it was opened |
| ClientesViews.DetalleCliente | clientes/views.py:146-172 | a 404 for an unknown key; otherwise the record with the router's status; nothing is changed |

## Left out

- Transport internals: telnetlib, librouteros and routeros_api are replaced by the `Devices` object and the `TelnetSession` byte streams. Which call raises is a parameter (`failAt`), not a wire protocol.
- Timing: `time.sleep` and read timeouts. A timed-out read returns what arrived. A read with no timeout whose marker never arrives (the `Username:`/`Password:` waits of `connect_olt`) is taken as a failed login; the real code would block or hit end of stream there.
- `connect_mikrotik` (gestion_red/connect.py:8-17 and clientes/views.py:31-37) is the `RouterOpened` call of the environment, with no credentials model.
- The API handlers use `connect_olt` and `execute_olt_command` through the environment. The OLT connect is one `OltOpened` call that may raise, and each command is one call that raises when it is not ASCII or is the scheduled failure. The byte-level behaviour of both is proved separately in `OltSession`. The OLT's replies are not threaded through the handlers, whose results ignore them.
- A failing OLT command may already have been written to the device: `execute_olt_command` writes the command (gestion_red/connect.py:45) before the read and decode that can raise (gestion_red/connect.py:47). The trace records only calls that returned, so such a partly sent command is not in it.
- A failed OLT login is never explicitly closed in the source, because `tn` is only set once `connect_olt` returns. The model shows no close for it, as the source does.
- `close()` is taken never to raise. If `api.close()` raised, the source would skip `tn.close()`.
- JSON values other than strings and null (numbers, booleans, lists and objects as field values) are not modelled; `Truthy` covers only strings.
- `ClienteForm` validation (`form.is_valid()`) is taken as given: a POST carries either a validated form or none. The form and model declarations have no logic beyond Django's field checks.
- Logging, `print` output, error message texts and HTML rendering are left out; pages are reduced to their kind.
- `date.today()` is a parameter.
- `dashboard`, `lista_clientes`, `editar_cliente`, the URL tables and the two `test_mikrotik` scripts are not part of this model.
- The view decorators are not modelled. These are `@csrf_exempt` with `@require_POST` on the API views, which answer 405 to any other method, `@login_required` on the web flows, and `@require_POST` on `desactivar_cliente` and `eliminar_cliente`. Each modelled flow starts after them.
- Concurrency between requests and database transactions are left out; each flow runs alone.
- ApiViews.CrearClienteApi: the router is taken to accept a secret with any name. A duplicate-name rejection by the device is covered only as a failure of the `secrets.add` call chosen by `failAt`.
