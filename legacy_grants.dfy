/**
 * The grant views of the legacy Flask backend (backend/src/routes/grants.py):
 * listing, reading, creating, updating and deleting grants, the fixed
 * category list and the public listing that hides the council.
 */
module LegacyGrants {
  import opened Common
  import opened LegacyModel
  import opened Text

  /**
   * The permission test of the single-grant views: a council user must own
   * the grant; every other role passes it.
   */
  predicate MayAccessGrant(user: LegacyUser, g: Grant)
  {
    !IsCouncil(user.role) || g.councilId == user.id
  }

  /** The checks `get_grant`, `update_grant` and `delete_grant` share: 401, 404, 403. */
  function GrantGate(grants: map<nat, Grant>, caller: Option<LegacyUser>, grantId: nat): (r: Option<HttpError>)
    ensures r.None? <==> caller.Some? && grantId in grants && MayAccessGrant(caller.value, grants[grantId])
    ensures r == Some(Unauthorized) <==> caller.None?
    ensures r == Some(NotFound) <==> caller.Some? && grantId !in grants
    ensures r.Some? ==> r.value in {Unauthorized, NotFound, Forbidden}
    ensures caller.Some? && !IsCouncil(caller.value.role) && grantId in grants ==> r.None?
  {
    if caller.None? then Some(Unauthorized)
    else if grantId !in grants then Some(NotFound)
    else if !MayAccessGrant(caller.value, grants[grantId]) then Some(Forbidden)
    else None
  }

  /** `get_grant`. */
  function GetGrant(grants: map<nat, Grant>, caller: Option<LegacyUser>, grantId: nat): (r: Result<Grant>)
    ensures r.Ok? <==> GrantGate(grants, caller, grantId).None?
    ensures r.Ok? ==> r.value == grants[grantId]
    ensures r.Fail? ==> r.error == GrantGate(grants, caller, grantId).value
  {
    var gate := GrantGate(grants, caller, grantId);
    if gate.Some? then Fail(gate.value) else Ok(grants[grantId])
  }

  /** A query-string filter that applies only when given and non-empty. */
  predicate MatchesFilter(g: Grant, column: string, filter: Option<string>)
  {
    filter.None? || filter.value == "" || Get(g.fields, column) == JStr(filter.value)
  }

  /**
   * `column.contains(search)`, a SQL `LIKE '%search%'`: the column holds text
   * containing the search, case ignored for ASCII letters; a null or
   * non-text column never matches.
   */
  predicate ColumnContains(fields: map<string, Json>, column: string, search: string)
  {
    Get(fields, column).JStr? && ContainsIgnoringCase(Get(fields, column).s, search)
  }

  /** The `search` filter on grants: title or description, when given and non-empty. */
  predicate MatchesSearch(g: Grant, search: Option<string>)
  {
    search.None? || search.value == ""
    || ColumnContains(g.fields, "title", search.value) || ColumnContains(g.fields, "description", search.value)
  }

  /**
   * `get_grants` before pagination: council users see only their own
   * council's grants, the other roles every grant; `status`, `category` and
   * `search` filter when non-empty.
   */
  function ListGrants(grants: map<nat, Grant>, caller: Option<LegacyUser>, status: Option<string>,
                      category: Option<string>, search: Option<string>): (r: Result<set<nat>>)
    ensures r.Fail? <==> caller.None?
    ensures r.Fail? ==> r.error == Unauthorized
    ensures r.Ok? ==> forall id :: id in r.value <==>
                        id in grants && MayAccessGrant(caller.value, grants[id])
                        && MatchesFilter(grants[id], "status", status) && MatchesFilter(grants[id], "category", category)
                        && MatchesSearch(grants[id], search)
  {
    if caller.None? then Fail(Unauthorized)
    else Ok(set id | id in grants && MayAccessGrant(caller.value, grants[id])
                     && MatchesFilter(grants[id], "status", status) && MatchesFilter(grants[id], "category", category)
                     && MatchesSearch(grants[id], search))
  }

  const RequiredGrantFields: seq<string> := ["title", "description", "category", "amount"]

  /** The first required field the body leaves empty, in the order the view tests them. */
  function FirstMissing(body: Body, required: seq<string>): (r: Option<string>)
    ensures r.None? <==> forall f :: f in required ==> JTruthy(Get(body, f))
    ensures r.Some? ==> r.value in required && !JTruthy(Get(body, r.value))
  {
    if required == [] then None
    else if !JTruthy(Get(body, required[0])) then Some(required[0])
    else FirstMissing(body, required[1..])
  }

  /** `if data.get(key): parse(data[key])` at creation: absent or empty means no date. */
  function OptionalDate(body: Body, key: string, parse: string -> Option<int>): (r: Result<Option<int>>)
    ensures !JTruthy(Get(body, key)) ==> r == Ok(None)
    ensures JTruthy(Get(body, key)) ==> (r.Ok? <==> ParseWith(body[key], parse).Some?)
    ensures JTruthy(Get(body, key)) && r.Ok? ==> r.value == ParseWith(body[key], parse)
    ensures r.Fail? ==> r.error == ServerError
  {
    if !JTruthy(Get(body, key)) then Ok(None)
    else match ParseWith(body[key], parse)
      case Some(t) => Ok(Some(t))
      case None => Fail(ServerError)
  }

  /**
   * The value a column receives from an INSERT: an attribute left `None` is
   * omitted from the statement, so the column's default applies instead.
   */
  function Inserted(v: Json, default: Json): (r: Json)
    ensures v != JNull ==> r == v
    ensures v == JNull ==> r == default
  {
    if v == JNull then default else v
  }

  /** The columns `create_grant` copies from the body, `amount` already converted. */
  function NewGrantFields(body: Body, amount: real): (fields: map<string, Json>)
    ensures forall c :: c in GrantNotNullColumns ==> c in fields
    ensures fields["title"] == Get(body, "title") && fields["description"] == Get(body, "description")
            && fields["category"] == Get(body, "category") && fields["amount"] == JNum(amount)
    ensures fields["status"] == if Get(body, "status") == JNull then JStr("draft") else Get(body, "status")
    ensures (Get(body, "title") != JNull && Get(body, "description") != JNull && Get(body, "category") != JNull)
            ==> ColumnsFilled(fields, GrantNotNullColumns)
  {
    map[
      "eligibility_criteria" := Get(body, "eligibility_criteria"),
      "required_documents" := Get(body, "required_documents"),
      "assessment_criteria" := Get(body, "assessment_criteria"),
      "contact_person" := Get(body, "contact_person"),
      "contact_email" := Get(body, "contact_email"),
      "contact_phone" := Get(body, "contact_phone"),
      "max_applications" := Get(body, "max_applications"),
      "auto_approve" := Inserted(GetOr(body, "auto_approve", JBool(false)), JBool(false)),
      "public_voting" := Inserted(GetOr(body, "public_voting", JBool(false)), JBool(false))
    ] + map[
      "title" := Get(body, "title"),
      "description" := Get(body, "description"),
      "category" := Get(body, "category"),
      "amount" := JNum(amount),
      "status" := Inserted(GetOr(body, "status", JStr("draft")), JStr("draft"))
    ]
  }

  /** The two flags of a new grant are the ones sent, or false when absent or null. */
  lemma NewGrantFlags(body: Body, amount: real)
    ensures var fields := NewGrantFields(body, amount);
            "auto_approve" in fields && "public_voting" in fields
            && fields["auto_approve"] == (if Get(body, "auto_approve") == JNull then JBool(false) else Get(body, "auto_approve"))
            && fields["public_voting"] == (if Get(body, "public_voting") == JNull then JBool(false) else Get(body, "public_voting"))
  {
  }

  /**
   * The outcome checks of `create_grant`: 401, 403 for a non-council role,
   * 400 for the first empty required field, then a 500 when `float(amount)`
   * or a date raises. A null status is no error: it is left out of the
   * INSERT and the column default `'draft'` applies.
   */
  function CreateGrantError(caller: Option<LegacyUser>, body: Body, p: Parsers): (r: Option<HttpError>)
    ensures caller.None? ==> r == Some(Unauthorized)
    ensures caller.Some? && !IsCouncil(caller.value.role) ==> r == Some(Forbidden)
    ensures caller.Some? && IsCouncil(caller.value.role) && FirstMissing(body, RequiredGrantFields).Some? ==>
              r == Some(BadRequest)
    ensures r.None? <==> caller.Some? && IsCouncil(caller.value.role) && FirstMissing(body, RequiredGrantFields).None?
                         && ToFloat(body["amount"], p).Some?
                         && OptionalDate(body, "opens_at", p.isoDateTime).Ok?
                         && OptionalDate(body, "closes_at", p.isoDateTime).Ok?
    ensures r.Some? && caller.Some? && IsCouncil(caller.value.role) ==>
              (r.value == ServerError <==> FirstMissing(body, RequiredGrantFields).None?)
    ensures r.None? ==> "title" in body && "description" in body && "category" in body && "amount" in body
  {
    if caller.None? then Some(Unauthorized)
    else if !IsCouncil(caller.value.role) then Some(Forbidden)
    else if FirstMissing(body, RequiredGrantFields).Some? then Some(BadRequest)
    else
      assert "amount" in RequiredGrantFields && "title" in RequiredGrantFields
             && "description" in RequiredGrantFields && "category" in RequiredGrantFields;
      if ToFloat(body["amount"], p).None? then Some(ServerError)
      else if OptionalDate(body, "opens_at", p.isoDateTime).Fail? then Some(ServerError)
      else if OptionalDate(body, "closes_at", p.isoDateTime).Fail? then Some(ServerError)
      else None
  }

  /** `create_grant`: the row it commits under `id`, or the error it answers. */
  function CreateGrantResult(caller: Option<LegacyUser>, body: Body, p: Parsers, id: nat, now: int)
    : (r: Result<Grant>)
    ensures r.Fail? <==> CreateGrantError(caller, body, p).Some?
    ensures r.Fail? ==> r.error == CreateGrantError(caller, body, p).value
    ensures r.Ok? ==> r.value.id == id && r.value.councilId == caller.value.id
                      && r.value.createdAt == now && r.value.updatedAt == now
                      && ColumnsFilled(r.value.fields, GrantNotNullColumns)
    ensures r.Ok? ==> r.value.opensAt == OptionalDate(body, "opens_at", p.isoDateTime).value
                      && r.value.closesAt == OptionalDate(body, "closes_at", p.isoDateTime).value
  {
    var error := CreateGrantError(caller, body, p);
    if error.Some? then Fail(error.value)
    else
      var fields := NewGrantFields(body, ToFloat(body["amount"], p).value);
      assert JTruthy(Get(body, "title")) && JTruthy(Get(body, "description")) && JTruthy(Get(body, "category"));
      Ok(Grant(id, caller.value.id, fields, OptionalDate(body, "opens_at", p.isoDateTime).value,
               OptionalDate(body, "closes_at", p.isoDateTime).value, now, now))
  }

  /**
   * The columns of a created grant: title, description and category as
   * sent, the amount converted by `float`, the status as sent or, when
   * absent or null, `'draft'`; the two flags as sent or, when absent or
   * null, false.
   */
  lemma CreatedGrantColumns(caller: Option<LegacyUser>, body: Body, p: Parsers, id: nat, now: int)
    ensures var r := CreateGrantResult(caller, body, p, id, now);
            r.Ok? ==>
            var g := r.value;
            "title" in body && "description" in body && "category" in body && "amount" in body
            && g.fields["title"] == body["title"] && g.fields["description"] == body["description"]
            && g.fields["category"] == body["category"]
            && g.fields["amount"] == JNum(ToFloat(body["amount"], p).value)
            && g.fields["status"] == (if "status" in body && body["status"] != JNull then body["status"] else JStr("draft"))
            && g.fields["auto_approve"]
               == (if "auto_approve" in body && body["auto_approve"] != JNull then body["auto_approve"] else JBool(false))
            && g.fields["public_voting"]
               == (if "public_voting" in body && body["public_voting"] != JNull then body["public_voting"] else JBool(false))
  {
    var r := CreateGrantResult(caller, body, p, id, now);
    if r.Ok? {
      NewGrantFlags(body, ToFloat(body["amount"], p).value);
    }
  }

  /** `create_grant` against the tables: the new row is added under the next id. */
  method CreateGrant(s: LegacyStore, caller: Option<LegacyUser>, body: Body, p: Parsers, now: int)
    returns (r: Result<Grant>)
    requires s.Valid()
    modifies s
    ensures s.Valid()
    ensures r == CreateGrantResult(caller, body, p, old(s.nextGrantId), now)
    ensures r.Ok? ==> s.grants == old(s.grants)[r.value.id := r.value] && r.value.id !in old(s.grants)
    ensures r.Fail? ==> s.grants == old(s.grants)
    ensures s.applications == old(s.applications)
  {
    r := CreateGrantResult(caller, body, p, s.nextGrantId, now);
    if r.Ok? {
      s.AddGrant(r.value);
    }
  }

  const UpdatableGrantFields: seq<string> := [
    "title", "description", "category", "amount", "status",
    "eligibility_criteria", "required_documents", "assessment_criteria",
    "contact_person", "contact_email", "contact_phone",
    "max_applications", "auto_approve", "public_voting"]

  /**
   * `if key in data:` at update: an absent key keeps the date, an empty
   * value clears it, any other value is parsed (a 500 when that raises).
   */
  function UpdatedDate(current: Option<int>, body: Body, key: string, parse: string -> Option<int>)
    : (r: Result<Option<int>>)
    ensures key !in body ==> r == Ok(current)
    ensures key in body && !JTruthy(body[key]) ==> r == Ok(None)
    ensures key in body && JTruthy(body[key]) ==>
              (r.Ok? <==> ParseWith(body[key], parse).Some?) && (r.Ok? ==> r.value == ParseWith(body[key], parse))
    ensures r.Fail? ==> r.error == ServerError
  {
    if key !in body then Ok(current)
    else if !JTruthy(body[key]) then Ok(None)
    else match ParseWith(body[key], parse)
      case Some(t) => Ok(Some(t))
      case None => Fail(ServerError)
  }

  /**
   * `update_grant`: the shared 401/404/403 checks, then the whitelist loop
   * (with `float` on the amount) and the dates; a conversion that raises or
   * a null in a required column is a 500 and nothing is written.
   */
  method UpdateGrant(s: LegacyStore, caller: Option<LegacyUser>, grantId: nat, body: Body, p: Parsers, now: int)
    returns (r: Result<Grant>)
    requires s.Valid()
    modifies s
    ensures s.Valid()
    ensures GrantGate(old(s.grants), caller, grantId).Some? ==> r == Fail(GrantGate(old(s.grants), caller, grantId).value)
    ensures r.Ok? <==> GrantGate(old(s.grants), caller, grantId).None?
                       && Convertible(body, UpdatableGrantFields, {"amount"}, false, p)
                       && UpdatedDate(old(s.grants)[grantId].opensAt, body, "opens_at", p.isoDateTime).Ok?
                       && UpdatedDate(old(s.grants)[grantId].closesAt, body, "closes_at", p.isoDateTime).Ok?
                       && ColumnsFilled(Overlay(old(s.grants)[grantId].fields, body, UpdatableGrantFields, {"amount"},
                                                false, p), GrantNotNullColumns)
    ensures r.Fail? && GrantGate(old(s.grants), caller, grantId).None? ==> r.error == ServerError
    ensures r.Fail? ==> s.grants == old(s.grants)
    ensures r.Ok? ==>
              var g := old(s.grants)[grantId];
              r.value == g.(fields := Overlay(g.fields, body, UpdatableGrantFields, {"amount"}, false, p),
                            opensAt := UpdatedDate(g.opensAt, body, "opens_at", p.isoDateTime).value,
                            closesAt := UpdatedDate(g.closesAt, body, "closes_at", p.isoDateTime).value,
                            updatedAt := now)
              && s.grants == old(s.grants)[grantId := r.value]
    ensures s.applications == old(s.applications)
  {
    var gate := GrantGate(s.grants, caller, grantId);
    if gate.Some? {
      return Fail(gate.value);
    }
    var g := s.grants[grantId];
    var fields := AssignWhitelisted(g.fields, body, UpdatableGrantFields, {"amount"}, false, p);
    if fields.None? {
      return Fail(ServerError);
    }
    var opens := UpdatedDate(g.opensAt, body, "opens_at", p.isoDateTime);
    var closes := UpdatedDate(g.closesAt, body, "closes_at", p.isoDateTime);
    if opens.Fail? || closes.Fail? || !ColumnsFilled(fields.value, GrantNotNullColumns) {
      return Fail(ServerError);
    }
    var updated := g.(fields := fields.value, opensAt := opens.value, closesAt := closes.value, updatedAt := now);
    s.PutGrant(updated);
    r := Ok(updated);
  }

  /**
   * An update leaves the owner, the id, the creation time and every column
   * outside the whitelist as they were.
   */
  lemma UpdateKeepsOwnerAndUnlistedColumns(g: Grant, body: Body, p: Parsers, now: int, column: string)
    requires column in g.fields && column !in UpdatableGrantFields
    ensures var fields := Overlay(g.fields, body, UpdatableGrantFields, {"amount"}, false, p);
            column in fields && fields[column] == g.fields[column]
  {
  }

  /** Whether any application refers to the grant (`grant.applications`). */
  predicate HasApplications(applications: map<nat, Application>, grantId: nat)
  {
    exists a :: a in applications && applications[a].grantId == grantId
  }

  /** `delete_grant`: the shared checks, then 400 while any application refers to the grant. */
  method DeleteGrant(s: LegacyStore, caller: Option<LegacyUser>, grantId: nat) returns (r: Result<()>)
    requires s.Valid()
    modifies s
    ensures s.Valid()
    ensures GrantGate(old(s.grants), caller, grantId).Some? ==> r == Fail(GrantGate(old(s.grants), caller, grantId).value)
    ensures GrantGate(old(s.grants), caller, grantId).None? && HasApplications(old(s.applications), grantId) ==>
              r == Fail(BadRequest)
    ensures r.Ok? <==> GrantGate(old(s.grants), caller, grantId).None? && !HasApplications(old(s.applications), grantId)
    ensures r.Ok? ==> s.grants == old(s.grants) - {grantId}
    ensures r.Fail? ==> s.grants == old(s.grants)
    ensures s.applications == old(s.applications)
  {
    var gate := GrantGate(s.grants, caller, grantId);
    if gate.Some? {
      return Fail(gate.value);
    }
    if HasApplications(s.applications, grantId) {
      return Fail(BadRequest);
    }
    s.RemoveGrant(grantId);
    r := Ok(());
  }

  /** `get_categories`: the fixed category list. */
  function GrantCategories(): (r: seq<string>)
    ensures |r| == 15
    ensures forall i, j :: 0 <= i < j < |r| ==> r[i] != r[j]
    ensures "Community Development" in r && "Tourism and Events" in r
  {
    ["Community Development", "Arts and Culture", "Sports and Recreation", "Environment and Sustainability",
     "Education and Training", "Health and Wellbeing", "Infrastructure", "Economic Development",
     "Youth Programs", "Senior Services", "Disability Services", "Emergency Services",
     "Technology and Innovation", "Heritage and History", "Tourism and Events"]
  }

  /** `Grant.to_dict()` for the columns held as JSON values, with the id, council and application count. */
  function GrantDict(g: Grant, applicationCount: nat): (d: map<string, Json>)
    ensures "council_id" in d && "id" in d && "application_count" in d
    ensures d.Keys == g.fields.Keys + {"id", "council_id", "application_count"}
    ensures d["council_id"] == JNum(g.councilId as real)
    ensures d["id"] == JNum(g.id as real) && d["application_count"] == JNum(applicationCount as real)
    ensures forall k :: k in g.fields && k !in {"id", "council_id", "application_count"} ==> d[k] == g.fields[k]
  {
    g.fields["id" := JNum(g.id as real)]["council_id" := JNum(g.councilId as real)]
            ["application_count" := JNum(applicationCount as real)]
  }

  /**
   * `get_public_grants` before pagination: no authentication; the status
   * filter defaults to `'active'` and always applies, the category and
   * search filters when non-empty.
   */
  function PublicGrantIds(grants: map<nat, Grant>, status: Option<string>, category: Option<string>,
                          search: Option<string>): (r: set<nat>)
    ensures forall id :: id in r <==>
              id in grants && Get(grants[id].fields, "status") == JStr(if status.Some? then status.value else "active")
              && MatchesFilter(grants[id], "category", category) && MatchesSearch(grants[id], search)
    ensures status.None? ==> forall id :: id in r ==> Get(grants[id].fields, "status") == JStr("active")
  {
    var wanted := if status.Some? then status.value else "active";
    set id | id in grants && Get(grants[id].fields, "status") == JStr(wanted)
             && MatchesFilter(grants[id], "category", category) && MatchesSearch(grants[id], search)
  }

  /**
   * The loop of `get_public_grants` over the selected rows: each row's
   * dictionary with `council_id` removed, in the same order.
   */
  method PublicGrantDicts(rows: seq<Grant>, applications: map<nat, Application>)
    returns (out: seq<map<string, Json>>)
    ensures |out| == |rows|
    ensures forall i :: 0 <= i < |rows| ==>
              out[i] == GrantDict(rows[i], ApplicationCount(applications, rows[i].id)) - {"council_id"}
    ensures forall i :: 0 <= i < |out| ==> "council_id" !in out[i] && "id" in out[i] && out[i]["id"] == JNum(rows[i].id as real)
  {
    out := [];
    var i := 0;
    while i < |rows|
      invariant 0 <= i <= |rows|
      invariant |out| == i
      invariant forall j :: 0 <= j < i ==>
                  out[j] == GrantDict(rows[j], ApplicationCount(applications, rows[j].id)) - {"council_id"}
    {
      var d := GrantDict(rows[i], ApplicationCount(applications, rows[i].id));
      out := out + [d - {"council_id"}];
      i := i + 1;
    }
  }
}
