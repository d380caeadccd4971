/**
 * The legacy Flask backend (backend/src): JSON request bodies, the two
 * tables its routes write (grants and applications, backend/src/models),
 * the callers its token check produces, and the whitelist loop both update
 * views run over the body.
 */
module LegacyModel {
  import opened Common

  /** A JSON value as `request.get_json()` hands it to a view. */
  datatype Json =
    | JNull
    | JBool(b: bool)
    | JNum(n: real)
    | JStr(s: string)
    | JList(items: seq<Json>)

  /** A JSON object body. */
  type Body = map<string, Json>

  /** Python truthiness: `None`, `False`, `0`, `""` and `[]` are false. */
  predicate JTruthy(v: Json)
  {
    match v
    case JNull => false
    case JBool(b) => b
    case JNum(n) => n != 0.0
    case JStr(s) => s != ""
    case JList(items) => items != []
  }

  /** `data.get(key)`. */
  function Get(body: Body, key: string): Json
  {
    if key in body then body[key] else JNull
  }

  /** `data.get(key, default)`. */
  function GetOr(body: Body, key: string, default: Json): Json
  {
    if key in body then body[key] else default
  }

  /**
   * Python's string parsers the views call: `float(str)`, the ISO
   * `datetime.fromisoformat` after the `'Z'` suffix is rewritten, and
   * `strptime(…, '%Y-%m-%d')`. `None` is the `ValueError` each raises.
   */
  datatype Parsers = Parsers(
    number: string -> Option<real>,
    isoDateTime: string -> Option<int>,
    date: string -> Option<int>)

  /** `float(v)`: `None` is the `TypeError`/`ValueError` Python raises. */
  function ToFloat(v: Json, p: Parsers): (r: Option<real>)
    ensures v.JNum? ==> r == Some(v.n)
    ensures v.JBool? ==> r == Some(if v.b then 1.0 else 0.0)
    ensures v.JStr? ==> r == p.number(v.s)
    ensures v.JNull? || v.JList? ==> r.None?
  {
    match v
    case JNum(n) => Some(n)
    case JBool(b) => Some(if b then 1.0 else 0.0)
    case JStr(s) => p.number(s)
    case _ => None
  }

  /** A date parser applied to a JSON value: anything but a string raises. */
  function ParseWith(v: Json, parse: string -> Option<int>): (r: Option<int>)
    ensures !v.JStr? ==> r.None?
    ensures v.JStr? ==> r == parse(v.s)
  {
    if v.JStr? then parse(v.s) else None
  }

  /** The caller a valid bearer token resolves to (backend/src/models/user.py). */
  datatype LegacyUser = LegacyUser(id: int, email: string, role: string)

  /** The two council roles the legacy views test for. */
  predicate IsCouncil(role: string)
  {
    role == "council_admin" || role == "council_staff"
  }

  /** The `nullable=False` columns a view writes from the body. */
  const GrantNotNullColumns: set<string> := {"title", "description", "category", "amount", "status"}
  const ApplicationNotNullColumns: set<string> :=
    {"applicant_name", "applicant_email", "project_title", "project_description", "requested_amount", "priority"}

  /** Every listed column holds a value: the commit would otherwise raise an integrity error. */
  predicate ColumnsFilled(fields: map<string, Json>, columns: set<string>)
  {
    forall c {:trigger fields[c]} {:trigger c in fields} :: c in columns ==> c in fields && fields[c] != JNull
  }

  /** A row of `grants`; the date columns are timestamps, the others JSON values. */
  datatype Grant = Grant(
    id: nat,
    councilId: int,
    fields: map<string, Json>,
    opensAt: Option<int>,
    closesAt: Option<int>,
    createdAt: int,
    updatedAt: int)

  /** A row of `applications`. */
  datatype Application = Application(
    id: nat,
    grantId: nat,
    fields: map<string, Json>,
    status: string,
    startDate: Option<int>,
    endDate: Option<int>,
    submittedAt: int,
    reviewedAt: Option<int>,
    decisionDate: Option<int>)

  /** The ids of the applications that refer to a grant (`grant.applications`). */
  function GrantRows(applications: map<nat, Application>, grantId: nat): set<nat>
  {
    set x | x in applications && applications[x].grantId == grantId
  }

  /** The number of applications that refer to a grant (`len(grant.applications)`). */
  function ApplicationCount(applications: map<nat, Application>, grantId: nat): nat
  {
    |GrantRows(applications, grantId)|
  }

  /** Adding a row under a fresh id raises its grant's count by one. */
  lemma CountAfterInsert(applications: map<nat, Application>, a: Application)
    requires a.id !in applications
    ensures ApplicationCount(applications[a.id := a], a.grantId) == ApplicationCount(applications, a.grantId) + 1
  {
    var m := applications[a.id := a];
    var before := GrantRows(applications, a.grantId);
    var after := GrantRows(m, a.grantId);
    forall x
      ensures x in after <==> x in before || x == a.id
    {
      if x != a.id && x in applications {
        assert m[x] == applications[x];
      }
    }
    FreshInsertCard(before, after, a.id);
  }

  /**
   * The value the whitelist loop assigns to `key`: the body's value, or for
   * a numeric column `float(value)`, where `passNull` lets `None` through.
   */
  function Converted(body: Body, key: string, numeric: set<string>, passNull: bool, p: Parsers): Option<Json>
    requires key in body
  {
    if key !in numeric then Some(body[key])
    else if passNull && body[key] == JNull then Some(JNull)
    else match ToFloat(body[key], p)
      case Some(x) => Some(JNum(x))
      case None => None
  }

  /** No whitelisted key of the body fails its conversion. */
  predicate Convertible(body: Body, whitelist: seq<string>, numeric: set<string>, passNull: bool, p: Parsers)
  {
    forall k :: k in whitelist && k in body ==> Converted(body, k, numeric, passNull, p).Some?
  }

  /** `fields` after every whitelisted key present in the body has been assigned. */
  function Overlay(fields: map<string, Json>, body: Body, whitelist: seq<string>, numeric: set<string>,
                   passNull: bool, p: Parsers): (r: map<string, Json>)
    ensures forall k :: k in r <==> k in fields || (k in whitelist && k in body)
    ensures forall k :: k in r && !(k in whitelist && k in body) ==> r[k] == fields[k]
    ensures forall k :: k in whitelist && k in body && k !in numeric ==> r[k] == body[k]
    ensures forall k :: k in whitelist && k in body ==> r[k] == Assigned(body, k, numeric, passNull, p)
  {
    map k | k in fields.Keys + (set w | w in whitelist && w in body) ::
      if k in whitelist && k in body then Assigned(body, k, numeric, passNull, p) else fields[k]
  }

  /** The value the loop stores for a key of the body (a failed conversion never reaches the store). */
  function Assigned(body: Body, key: string, numeric: set<string>, passNull: bool, p: Parsers): Json
    requires key in body
  {
    match Converted(body, key, numeric, passNull, p)
    case Some(v) => v
    case None => JNull
  }

  lemma OverlayStep(fields: map<string, Json>, body: Body, whitelist: seq<string>, i: nat, numeric: set<string>,
                    passNull: bool, p: Parsers)
    requires i < |whitelist|
    ensures var k := whitelist[i];
            var before := Overlay(fields, body, whitelist[..i], numeric, passNull, p);
            var after := Overlay(fields, body, whitelist[..i + 1], numeric, passNull, p);
            if k in body then after == before[k := Assigned(body, k, numeric, passNull, p)]
            else after == before
  {
    assert whitelist[..i + 1] == whitelist[..i] + [whitelist[i]];
    if whitelist[i] in body {
      OverlaySets(fields, body, whitelist[..i], whitelist[i], numeric, passNull, p);
    } else {
      OverlaySkips(fields, body, whitelist[..i], whitelist[i], numeric, passNull, p);
    }
  }

  /** Listing one more key that the body holds assigns that key. */
  lemma OverlaySets(fields: map<string, Json>, body: Body, ws: seq<string>, k: string, numeric: set<string>,
                    passNull: bool, p: Parsers)
    requires k in body
    ensures Overlay(fields, body, ws + [k], numeric, passNull, p)
            == Overlay(fields, body, ws, numeric, passNull, p)[k := Assigned(body, k, numeric, passNull, p)]
  {
    var before := Overlay(fields, body, ws, numeric, passNull, p);
    var after := Overlay(fields, body, ws + [k], numeric, passNull, p);
    var target := before[k := Assigned(body, k, numeric, passNull, p)];
    assert forall w :: w in ws + [k] <==> w in ws || w == k;
    assert after.Keys == target.Keys;
    assert forall x :: x in after ==> after[x] == target[x];
  }

  /** Listing one more key that the body lacks changes nothing. */
  lemma OverlaySkips(fields: map<string, Json>, body: Body, ws: seq<string>, k: string, numeric: set<string>,
                     passNull: bool, p: Parsers)
    requires k !in body
    ensures Overlay(fields, body, ws + [k], numeric, passNull, p) == Overlay(fields, body, ws, numeric, passNull, p)
  {
    var before := Overlay(fields, body, ws, numeric, passNull, p);
    var after := Overlay(fields, body, ws + [k], numeric, passNull, p);
    assert forall w :: w in ws + [k] <==> w in ws || w == k;
    assert after.Keys == before.Keys;
    assert forall x :: x in after ==> after[x] == before[x];
  }

  lemma ConvertibleStep(body: Body, whitelist: seq<string>, i: nat, numeric: set<string>, passNull: bool,
                        p: Parsers)
    requires i < |whitelist|
    requires Convertible(body, whitelist[..i], numeric, passNull, p)
    requires whitelist[i] in body ==> Converted(body, whitelist[i], numeric, passNull, p).Some?
    ensures Convertible(body, whitelist[..i + 1], numeric, passNull, p)
  {
    assert whitelist[..i + 1] == whitelist[..i] + [whitelist[i]];
  }

  /** With every conversion succeeding, each whitelisted key holds its converted value. */
  lemma OverlayConverted(fields: map<string, Json>, body: Body, whitelist: seq<string>, numeric: set<string>,
                         passNull: bool, p: Parsers)
    requires Convertible(body, whitelist, numeric, passNull, p)
    ensures forall k :: k in whitelist && k in body ==>
              Some(Overlay(fields, body, whitelist, numeric, passNull, p)[k]) == Converted(body, k, numeric, passNull, p)
  {
  }

  /**
   * The `for field in updatable_fields: if field in data: setattr(…)` loop:
   * `None` when a conversion raises (the view then rolls back), otherwise
   * the fields with every whitelisted key of the body assigned and every
   * other field as it was.
   */
  method AssignWhitelisted(fields: map<string, Json>, body: Body, whitelist: seq<string>, numeric: set<string>,
                           passNull: bool, p: Parsers)
    returns (r: Option<map<string, Json>>)
    ensures r.None? <==> !Convertible(body, whitelist, numeric, passNull, p)
    ensures r.Some? ==> r.value == Overlay(fields, body, whitelist, numeric, passNull, p)
    ensures r.Some? ==> forall k :: k in whitelist && k in body ==>
                          Some(r.value[k]) == Converted(body, k, numeric, passNull, p)
  {
    var current := fields;
    var i := 0;
    while i < |whitelist|
      invariant 0 <= i <= |whitelist|
      invariant Convertible(body, whitelist[..i], numeric, passNull, p)
      invariant current == Overlay(fields, body, whitelist[..i], numeric, passNull, p)
    {
      var next := AssignTurn(fields, body, whitelist, numeric, passNull, p, i, current);
      if next.None? {
        return None;
      }
      current := next.value;
      i := i + 1;
    }
    assert whitelist[..i] == whitelist;
    OverlayConverted(fields, body, whitelist, numeric, passNull, p);
    r := Some(current);
  }

  /** One turn of the whitelist loop: assign `whitelist[i]` when the body has it, or fail its conversion. */
  method AssignTurn(fields: map<string, Json>, body: Body, whitelist: seq<string>, numeric: set<string>,
                    passNull: bool, p: Parsers, i: nat, current: map<string, Json>)
    returns (next: Option<map<string, Json>>)
    requires i < |whitelist|
    requires Convertible(body, whitelist[..i], numeric, passNull, p)
    requires current == Overlay(fields, body, whitelist[..i], numeric, passNull, p)
    ensures next.None? ==> !Convertible(body, whitelist, numeric, passNull, p)
    ensures next.Some? ==> Convertible(body, whitelist[..i + 1], numeric, passNull, p)
    ensures next.Some? ==> next.value == Overlay(fields, body, whitelist[..i + 1], numeric, passNull, p)
  {
    var k := whitelist[i];
    OverlayStep(fields, body, whitelist, i, numeric, passNull, p);
    next := Some(current);
    if k in body {
      var v := Converted(body, k, numeric, passNull, p);
      if v.None? {
        assert k in whitelist;
        return None;
      }
      next := Some(current[k := v.value]);
    }
    ConvertibleStep(body, whitelist, i, numeric, passNull, p);
  }

  /** A stored grant row: its key is its id, below the next id, and its not-null columns hold values. */
  ghost predicate GrantRowOk(id: nat, g: Grant, nextId: nat)
  {
    id < nextId && g.id == id && ColumnsFilled(g.fields, GrantNotNullColumns)
  }

  /** A stored application row, which also refers to an existing grant. */
  ghost predicate ApplicationRowOk(id: nat, a: Application, grants: map<nat, Grant>, nextId: nat)
  {
    id < nextId && a.id == id && a.grantId in grants && ColumnsFilled(a.fields, ApplicationNotNullColumns)
  }

  /** Every stored grant row is well formed. */
  ghost predicate GrantsOk(grants: map<nat, Grant>, nextId: nat)
  {
    forall id :: id in grants ==> GrantRowOk(id, grants[id], nextId)
  }

  /** Every stored application row is well formed and refers to a stored grant. */
  ghost predicate ApplicationsOk(applications: map<nat, Application>, grants: map<nat, Grant>, nextId: nat)
  {
    forall id :: id in applications ==> ApplicationRowOk(id, applications[id], grants, nextId)
  }

  /** Overwriting one stored application with a well-formed row keeps every row valid. */
  lemma PutKeepsRowsOk(applications: map<nat, Application>, grants: map<nat, Grant>, nextId: nat, a: Application)
    requires ApplicationsOk(applications, grants, nextId)
    requires a.id in applications && a.grantId in grants && ColumnsFilled(a.fields, ApplicationNotNullColumns)
    ensures ApplicationsOk(applications[a.id := a], grants, nextId)
  {
    assert ApplicationRowOk(a.id, applications[a.id], grants, nextId);
    var updated := applications[a.id := a];
    forall id | id in updated
      ensures ApplicationRowOk(id, updated[id], grants, nextId)
    {
      if id != a.id {
        assert updated[id] == applications[id];
      }
    }
  }

  /**
   * The two tables. Every application refers to an existing grant, ids are
   * below the next id, and the not-null columns hold values.
   */
  class LegacyStore {
    var grants: map<nat, Grant>
    var applications: map<nat, Application>
    var nextGrantId: nat
    var nextApplicationId: nat

    ghost predicate Valid()
      reads this
    {
      GrantsOk(grants, nextGrantId) && ApplicationsOk(applications, grants, nextApplicationId)
    }

    constructor ()
      ensures Valid()
      ensures grants == map[] && applications == map[]
    {
      grants := map[];
      applications := map[];
      nextGrantId := 1;
      nextApplicationId := 1;
    }

    /** `db.session.add(grant); db.session.commit()` for a row carrying the next id. */
    method AddGrant(g: Grant)
      requires Valid()
      requires g.id == nextGrantId && ColumnsFilled(g.fields, GrantNotNullColumns)
      modifies this
      ensures Valid()
      ensures grants == old(grants)[g.id := g] && nextGrantId == old(nextGrantId) + 1
      ensures applications == old(applications) && nextApplicationId == old(nextApplicationId)
    {
      grants := grants[g.id := g];
      nextGrantId := nextGrantId + 1;
    }

    /** Commit of an updated grant row. */
    method PutGrant(g: Grant)
      requires Valid()
      requires g.id in grants && ColumnsFilled(g.fields, GrantNotNullColumns)
      modifies this
      ensures Valid()
      ensures grants == old(grants)[g.id := g] && nextGrantId == old(nextGrantId)
      ensures applications == old(applications) && nextApplicationId == old(nextApplicationId)
    {
      grants := grants[g.id := g];
    }

    /** `db.session.delete(grant)` for a grant no application refers to. */
    method RemoveGrant(id: nat)
      requires Valid()
      requires forall a :: a in applications ==> applications[a].grantId != id
      modifies this
      ensures Valid()
      ensures grants == old(grants) - {id} && nextGrantId == old(nextGrantId)
      ensures applications == old(applications) && nextApplicationId == old(nextApplicationId)
    {
      grants := grants - {id};
    }

    /** `db.session.add(application); db.session.commit()` for a row carrying the next id. */
    method AddApplication(a: Application)
      requires Valid()
      requires a.id == nextApplicationId && a.grantId in grants
      requires ColumnsFilled(a.fields, ApplicationNotNullColumns)
      modifies this
      ensures Valid()
      ensures applications == old(applications)[a.id := a] && nextApplicationId == old(nextApplicationId) + 1
      ensures grants == old(grants) && nextGrantId == old(nextGrantId)
    {
      applications := applications[a.id := a];
      nextApplicationId := nextApplicationId + 1;
    }

    /** Commit of an updated application row. */
    method PutApplication(a: Application)
      requires Valid()
      requires a.id in applications && a.grantId in grants
      requires ColumnsFilled(a.fields, ApplicationNotNullColumns)
      modifies this
      ensures Valid()
      ensures applications == old(applications)[a.id := a] && nextApplicationId == old(nextApplicationId)
      ensures grants == old(grants) && nextGrantId == old(nextGrantId)
    {
      PutKeepsRowsOk(applications, grants, nextApplicationId, a);
      applications := applications[a.id := a];
    }

    /** `db.session.delete(application)`. */
    method RemoveApplication(id: nat)
      requires Valid()
      modifies this
      ensures Valid()
      ensures applications == old(applications) - {id} && nextApplicationId == old(nextApplicationId)
      ensures grants == old(grants) && nextGrantId == old(nextGrantId)
    {
      applications := applications - {id};
    }
  }
}
