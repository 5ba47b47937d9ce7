/**
 * The router's `ppp secret` table and its active-session list, as values, with the
 * operations the handlers perform on them: add an entry, query entries by name,
 * disable, enable or remove the entry with a given id.
 */
module RouterTable {
  import opened Common

  /** One `ppp secret` entry. `password` is None when the caller passed JSON null. */
  datatype Secret = Secret(id: nat, name: string, password: Option<string>, service: string,
                           profile: string, disabled: bool)

  /** The router as the handlers see it: the secret table (in the router's order), the id the
      next added entry receives, and the names of the PPP sessions currently active. */
  datatype Router = Router(secrets: seq<Secret>, nextId: nat, active: seq<string>)

  /** The router never hands out one id twice. */
  predicate UniqueIds(secrets: seq<Secret>) {
    forall i, j :: 0 <= i < j < |secrets| ==> secrets[i].id != secrets[j].id
  }

  predicate Valid(r: Router) {
    && UniqueIds(r.secrets)
    && forall i :: 0 <= i < |r.secrets| ==> r.secrets[i].id < r.nextId
  }

  /** What `secrets.get(query={Key('name'): name})` returns: the entries with that name, in
      table order. */
  function Matching(secrets: seq<Secret>, name: string): (r: seq<Secret>)
    ensures forall s :: s in r ==> s in secrets && s.name == name
    ensures forall s :: s in secrets && s.name == name ==> s in r
  {
    if secrets == [] then []
    else (if secrets[0].name == name then [secrets[0]] else []) + Matching(secrets[1..], name)
  }

  /** The position of the first entry named `name`, if any. */
  function FirstMatch(secrets: seq<Secret>, name: string): (r: Option<nat>)
    ensures r.Some? ==> r.value < |secrets| && secrets[r.value].name == name
    ensures r.Some? ==> forall j :: 0 <= j < r.value ==> secrets[j].name != name
    ensures r.None? ==> forall j :: 0 <= j < |secrets| ==> secrets[j].name != name
  {
    if secrets == [] then None
    else if secrets[0].name == name then Some(0)
    else match FirstMatch(secrets[1..], name)
      case None => None
      case Some(i) => Some(i + 1)
  }

  /** `user[0]` of a non-empty query result is the first entry with that name. */
  lemma {:induction false} QueryHead(secrets: seq<Secret>, name: string)
    ensures Matching(secrets, name) != [] <==> FirstMatch(secrets, name).Some?
    ensures Matching(secrets, name) != [] ==>
      Matching(secrets, name)[0] == secrets[FirstMatch(secrets, name).value]
  {
    if secrets != [] && secrets[0].name != name {
      QueryHead(secrets[1..], name);
    }
  }

  /** `secrets.add(...)`: a new enabled entry at the end of the table with a fresh id. */
  function Add(r: Router, name: string, password: Option<string>, service: string, profile: string): Router
  {
    r.(secrets := r.secrets + [Secret(r.nextId, name, password, service, profile, false)],
       nextId := r.nextId + 1)
  }

  /** `secrets.disable(id)` / `secrets.enable(id)`: the entry with that id gets the flag. */
  function SetDisabled(secrets: seq<Secret>, id: nat, disabled: bool): seq<Secret>
  {
    seq(|secrets|, i requires 0 <= i < |secrets| =>
      if secrets[i].id == id then secrets[i].(disabled := disabled) else secrets[i])
  }

  /** `secrets.add(...)` keeps every entry in place and appends one enabled entry with the
      given fields under the next id; the active sessions are untouched. */
  lemma AddAppends(r: Router, name: string, password: Option<string>, service: string, profile: string)
    ensures var r' := Add(r, name, password, service, profile);
      && |r'.secrets| == |r.secrets| + 1 && r'.secrets[..|r.secrets|] == r.secrets
      && r'.secrets[|r.secrets|] == Secret(r.nextId, name, password, service, profile, false)
      && r'.nextId == r.nextId + 1 && r'.active == r.active
  {
  }

  /** Disabling or enabling by id changes only the flag, and only of the entries with that id. */
  lemma SetDisabledFlags(secrets: seq<Secret>, id: nat, disabled: bool)
    ensures var r := SetDisabled(secrets, id, disabled);
      && |r| == |secrets|
      && (forall i :: 0 <= i < |r| ==> r[i].(disabled := secrets[i].disabled) == secrets[i])
      && (forall i :: 0 <= i < |r| ==>
            r[i].disabled == (if secrets[i].id == id then disabled else secrets[i].disabled))
  {
  }

  /** `secrets.remove(id)`: the entry with that id leaves the table. */
  function RemoveId(secrets: seq<Secret>, id: nat): (r: seq<Secret>)
    ensures forall s :: s in r <==> s in secrets && s.id != id
  {
    if secrets == [] then []
    else (if secrets[0].id == id then [] else [secrets[0]]) + RemoveId(secrets[1..], id)
  }

  // ---------------------------------------------------------------------------
  // The operations keep the table well formed
  // ---------------------------------------------------------------------------

  lemma AddKeepsValid(r: Router, name: string, password: Option<string>, service: string, profile: string)
    requires Valid(r)
    ensures Valid(Add(r, name, password, service, profile))
    ensures Add(r, name, password, service, profile).secrets[|r.secrets|].id == r.nextId
  {
  }

  lemma SetDisabledKeepsValid(r: Router, id: nat, disabled: bool)
    requires Valid(r)
    ensures Valid(r.(secrets := SetDisabled(r.secrets, id, disabled)))
  {
  }

  /** Removing by id keeps the ids unique. */
  lemma {:induction false} RemoveKeepsUnique(secrets: seq<Secret>, id: nat)
    requires UniqueIds(secrets)
    ensures UniqueIds(RemoveId(secrets, id))
    decreases |secrets|
  {
    if secrets != [] {
      var rest := RemoveId(secrets[1..], id);
      RemoveKeepsUnique(secrets[1..], id);
      if secrets[0].id != id {
        forall k | 0 <= k < |rest| ensures rest[k].id != secrets[0].id {
          assert rest[k] in rest;
          var m :| 0 <= m < |secrets[1..]| && secrets[1..][m] == rest[k];
          assert secrets[m + 1] == rest[k];
        }
        assert RemoveId(secrets, id) == [secrets[0]] + rest;
      }
    }
  }

  lemma RemoveKeepsValid(r: Router, id: nat)
    requires Valid(r)
    ensures Valid(r.(secrets := RemoveId(r.secrets, id)))
  {
    RemoveKeepsUnique(r.secrets, id);
    var s := RemoveId(r.secrets, id);
    forall i | 0 <= i < |s| ensures s[i].id < r.nextId {
      assert s[i] in s;
    }
  }

  // ---------------------------------------------------------------------------
  // Acting on the first match touches that entry and no other
  // ---------------------------------------------------------------------------

  /** Setting the flag by the id of entry `i` changes entry `i` alone. */
  lemma SetDisabledAt(secrets: seq<Secret>, i: nat, disabled: bool)
    requires UniqueIds(secrets) && i < |secrets|
    ensures SetDisabled(secrets, secrets[i].id, disabled) == secrets[i := secrets[i].(disabled := disabled)]
  {
  }

  /** Removing by the id of entry `i` deletes entry `i` alone, keeping the order of the rest. */
  lemma {:induction false} RemoveAt(secrets: seq<Secret>, i: nat)
    requires UniqueIds(secrets) && i < |secrets|
    ensures RemoveId(secrets, secrets[i].id) == secrets[..i] + secrets[i + 1..]
    decreases |secrets|
  {
    var id := secrets[i].id;
    if i == 0 {
      HeadIdUnique(secrets);
      RemoveNone(secrets[1..], id);
    } else {
      var tail := secrets[1..];
      TailUnique(secrets);
      assert tail[i - 1] == secrets[i];
      RemoveAt(tail, i - 1);
      assert tail[..i - 1] == secrets[1..i] && tail[i..] == secrets[i + 1..];
      assert secrets[0].id != id;
      assert RemoveId(secrets, id) == [secrets[0]] + RemoveId(tail, id);
      assert [secrets[0]] + secrets[1..i] == secrets[..i];
    }
  }

  /** With unique ids, no later entry has the first entry's id. */
  lemma HeadIdUnique(secrets: seq<Secret>)
    requires UniqueIds(secrets) && secrets != []
    ensures forall s :: s in secrets[1..] ==> s.id != secrets[0].id
  {
    forall s | s in secrets[1..] ensures s.id != secrets[0].id {
      var m :| 0 <= m < |secrets[1..]| && secrets[1..][m] == s;
      assert secrets[m + 1] == s;
    }
  }

  /** The entries after the first still have unique ids. */
  lemma TailUnique(secrets: seq<Secret>)
    requires UniqueIds(secrets) && secrets != []
    ensures UniqueIds(secrets[1..])
  {
  }

  /** Removing an id no entry has changes nothing. */
  lemma {:induction false} RemoveNone(secrets: seq<Secret>, id: nat)
    requires forall s :: s in secrets ==> s.id != id
    ensures RemoveId(secrets, id) == secrets
    decreases |secrets|
  {
    if secrets != [] {
      assert secrets[0] in secrets;
      RemoveNone(secrets[1..], id);
      assert [secrets[0]] + secrets[1..] == secrets;
    }
  }
}
