/**
 * The application views of the legacy Flask backend
 * (backend/src/routes/applications.py): anonymous submission against an
 * active, open grant with its cap and auto-approval, the council's status
 * decisions, role-specific edits, withdrawal and deletion, and the
 * council's statistics.
 */
module LegacyApplications {
  import opened Common
  import opened LegacyModel
  import opened Text
  import LegacyGrants

  /**
   * The permission test of the single-application views: a council user
   * must own the application's grant, anyone else must be the applicant.
   */
  predicate MayAccessApplication(grants: map<nat, Grant>, user: LegacyUser, a: Application)
  {
    if IsCouncil(user.role) then a.grantId in grants && grants[a.grantId].councilId == user.id
    else Get(a.fields, "applicant_email") == JStr(user.email)
  }

  /** The checks every single-application view starts with: 401, 404, 403. */
  function AccessGate(grants: map<nat, Grant>, applications: map<nat, Application>, caller: Option<LegacyUser>,
                      id: nat): (r: Option<HttpError>)
    ensures r.None? <==> caller.Some? && id in applications && MayAccessApplication(grants, caller.value, applications[id])
    ensures r == Some(Unauthorized) <==> caller.None?
    ensures r == Some(NotFound) <==> caller.Some? && id !in applications
    ensures r.Some? ==> r.value in {Unauthorized, NotFound, Forbidden}
  {
    if caller.None? then Some(Unauthorized)
    else if id !in applications then Some(NotFound)
    else if !MayAccessApplication(grants, caller.value, applications[id]) then Some(Forbidden)
    else None
  }

  /** `get_application`. */
  function GetApplication(grants: map<nat, Grant>, applications: map<nat, Application>, caller: Option<LegacyUser>,
                          id: nat): (r: Result<Application>)
    ensures r.Ok? <==> AccessGate(grants, applications, caller, id).None?
    ensures r.Ok? ==> r.value == applications[id]
    ensures r.Fail? ==> r.error == AccessGate(grants, applications, caller, id).value
  {
    var gate := AccessGate(grants, applications, caller, id);
    if gate.Some? then Fail(gate.value) else Ok(applications[id])
  }

  /**
   * The `search` filter on applications, when given and non-empty: the
   * project title, applicant name or organization name contains it.
   */
  predicate MatchesApplicationSearch(a: Application, search: Option<string>)
  {
    search.None? || search.value == ""
    || LegacyGrants.ColumnContains(a.fields, "project_title", search.value)
    || LegacyGrants.ColumnContains(a.fields, "applicant_name", search.value)
    || LegacyGrants.ColumnContains(a.fields, "organization_name", search.value)
  }

  /**
   * `get_applications` before pagination: council users see the
   * applications to their own grants, anyone else those carrying their
   * email; `status`, `grant_id` and `search` filter when given.
   */
  function ListApplications(grants: map<nat, Grant>, applications: map<nat, Application>, caller: Option<LegacyUser>,
                            status: Option<string>, grantId: Option<nat>, search: Option<string>)
    : (r: Result<set<nat>>)
    ensures r.Fail? <==> caller.None?
    ensures r.Fail? ==> r.error == Unauthorized
    ensures r.Ok? ==> forall id :: id in r.value <==>
                        id in applications && MayAccessApplication(grants, caller.value, applications[id])
                        && (status.None? || status.value == "" || applications[id].status == status.value)
                        && (grantId.None? || applications[id].grantId == grantId.value)
                        && MatchesApplicationSearch(applications[id], search)
  {
    if caller.None? then Fail(Unauthorized)
    else Ok(set id | id in applications && MayAccessApplication(grants, caller.value, applications[id])
                     && (status.None? || status.value == "" || applications[id].status == status.value)
                     && (grantId.None? || applications[id].grantId == grantId.value)
                     && MatchesApplicationSearch(applications[id], search))
  }

  const RequiredApplicationFields: seq<string> :=
    ["grant_id", "applicant_name", "applicant_email", "project_title", "project_description", "requested_amount"]

  /** The first required field the body leaves empty, in the order the view tests them. */
  function FirstMissingField(body: Body, required: seq<string>): (r: Option<string>)
    ensures r.None? <==> forall f :: f in required ==> JTruthy(Get(body, f))
    ensures r.Some? ==> r.value in required && !JTruthy(Get(body, r.value))
  {
    if required == [] then None
    else if !JTruthy(Get(body, required[0])) then Some(required[0])
    else FirstMissingField(body, required[1..])
  }

  /** `Grant.query.get(data['grant_id'])`: a JSON whole number names a grant id. */
  function GrantKey(v: Json): (r: Option<nat>)
    ensures r.Some? <==> v.JNum? && v.n >= 0.0 && v.n == v.n.Floor as real
    ensures r.Some? ==> v == JNum(r.value as real)
  {
    if v.JNum? && v.n >= 0.0 && v.n == v.n.Floor as real then Some(v.n.Floor as nat) else None
  }

  /** `grant.closes_at and grant.closes_at < datetime.utcnow()`: a grant without a deadline never closes. */
  predicate HasClosed(g: Grant, now: int)
  {
    g.closesAt.Some? && g.closesAt.value < now
  }

  /**
   * `if grant.max_applications: if current_count >= grant.max_applications`:
   * no cap when the value is empty, a 400 once the count reaches it, and a
   * `TypeError` (500) when the stored value is not a number.
   */
  function CapCheck(count: nat, cap: Json): (r: Option<HttpError>)
    ensures !JTruthy(cap) ==> r.None?
    ensures cap.JNum? && cap.n != 0.0 ==> (r.None? <==> (count as real) < cap.n)
    ensures cap.JBool? && cap.b ==> (r.None? <==> count == 0)
    ensures (cap.JStr? || cap.JList?) && JTruthy(cap) ==> r == Some(ServerError)
    ensures r.Some? ==> r.value in {BadRequest, ServerError}
  {
    if !JTruthy(cap) then None
    else match cap
      case JNum(n) => if count as real >= n then Some(BadRequest) else None
      case JBool(_) => if count >= 1 then Some(BadRequest) else None
      case _ => Some(ServerError)
  }

  /** What `create_application` has established once its checks pass. */
  datatype Submission = Submission(grantId: nat, requested: real, start: Option<int>, end: Option<int>)

  /**
   * The checks of `create_application`, which asks for no caller at all:
   * 400 for the first empty required field, 404 for an unknown grant, 400
   * unless the grant is `'active'`, 400 once it has closed, the cap, then a
   * 500 when `float(requested_amount)` or a project date raises.
   */
  function CheckSubmission(grants: map<nat, Grant>, applications: map<nat, Application>, body: Body,
                           p: Parsers, now: int): (r: Result<Submission>)
    ensures FirstMissingField(body, RequiredApplicationFields).Some? ==> r == Fail(BadRequest)
    ensures FirstMissingField(body, RequiredApplicationFields).None? ==>
              "grant_id" in body && "requested_amount" in body
              && (GrantKey(body["grant_id"]).None? || GrantKey(body["grant_id"]).value !in grants ==> r == Fail(NotFound))
    ensures r.Ok? ==>
              var g := r.value.grantId;
              FirstMissingField(body, RequiredApplicationFields).None?
              && GrantKey(body["grant_id"]) == Some(g) && g in grants
              && Get(grants[g].fields, "status") == JStr("active") && !HasClosed(grants[g], now)
              && CapCheck(ApplicationCount(applications, g), Get(grants[g].fields, "max_applications")).None?
              && JTruthy(Get(body, "applicant_name")) && JTruthy(Get(body, "applicant_email"))
              && JTruthy(Get(body, "project_title")) && JTruthy(Get(body, "project_description"))
              && ToFloat(body["requested_amount"], p) == Some(r.value.requested)
              && OptionalStringDate(body, "project_start_date", p.date) == Ok(r.value.start)
              && OptionalStringDate(body, "project_end_date", p.date) == Ok(r.value.end)
    ensures r.Fail? && FirstMissingField(body, RequiredApplicationFields).None? && GrantKey(body["grant_id"]).Some?
            && GrantKey(body["grant_id"]).value in grants ==>
              var key := GrantKey(body["grant_id"]).value;
              var g := grants[key];
              Get(g.fields, "status") != JStr("active") || HasClosed(g, now)
              || CapCheck(ApplicationCount(applications, key), Get(g.fields, "max_applications")).Some?
              || ToFloat(body["requested_amount"], p).None?
              || OptionalStringDate(body, "project_start_date", p.date).Fail?
              || OptionalStringDate(body, "project_end_date", p.date).Fail?
  {
    if FirstMissingField(body, RequiredApplicationFields).Some? then Fail(BadRequest)
    else
      assert "grant_id" in RequiredApplicationFields && "requested_amount" in RequiredApplicationFields;
      assert "applicant_name" in RequiredApplicationFields && "applicant_email" in RequiredApplicationFields
             && "project_title" in RequiredApplicationFields && "project_description" in RequiredApplicationFields;
      var key := GrantKey(body["grant_id"]);
      if key.None? || key.value !in grants then Fail(NotFound)
      else
        var g := grants[key.value];
        var cap := CapCheck(ApplicationCount(applications, key.value), Get(g.fields, "max_applications"));
        var requested := ToFloat(body["requested_amount"], p);
        var start := OptionalStringDate(body, "project_start_date", p.date);
        var end := OptionalStringDate(body, "project_end_date", p.date);
        if Get(g.fields, "status") != JStr("active") then Fail(BadRequest)
        else if HasClosed(g, now) then Fail(BadRequest)
        else if cap.Some? then Fail(cap.value)
        else if requested.None? || start.Fail? || end.Fail? then Fail(ServerError)
        else Ok(Submission(key.value, requested.value, start.value, end.value))
  }

  /** `if data.get(key): strptime(data[key], …)`: absent or empty leaves the date unset. */
  function OptionalStringDate(body: Body, key: string, parse: string -> Option<int>): (r: Result<Option<int>>)
    ensures !JTruthy(Get(body, key)) ==> r == Ok(None)
    ensures JTruthy(Get(body, key)) ==> (r.Ok? <==> ParseWith(body[key], parse).Some?)
    ensures JTruthy(Get(body, key)) && r.Ok? ==> r.value == ParseWith(body[key], parse)
  {
    if !JTruthy(Get(body, key)) then Ok(None)
    else match ParseWith(body[key], parse)
      case Some(t) => Ok(Some(t))
      case None => Fail(ServerError)
  }

  /** The columns `create_application` copies from the body as they are. */
  const CopiedApplicationFields: set<string> := {
    "applicant_name", "applicant_email", "applicant_phone", "organization_name", "organization_type",
    "abn_acn", "project_title", "project_description", "project_budget", "documents", "public_comments"}

  /** Whether the grant approves applications as they arrive. */
  predicate AutoApproves(g: Grant)
  {
    JTruthy(Get(g.fields, "auto_approve"))
  }

  /**
   * The row `create_application` commits: `'submitted'`, priority
   * `'medium'`, or with auto-approval `'approved'` for the requested amount
   * and decided now.
   */
  function NewApplication(body: Body, grantId: nat, g: Grant, requested: real, start: Option<int>, end: Option<int>, id: nat,
                          now: int): (a: Application)
    ensures a.status == (if AutoApproves(g) then "approved" else "submitted")
    ensures a.decisionDate == (if AutoApproves(g) then Some(now) else None)
    ensures Get(a.fields, "requested_amount") == JNum(requested)
    ensures Get(a.fields, "approved_amount") == (if AutoApproves(g) then JNum(requested) else JNull)
    ensures Get(a.fields, "priority") == JStr("medium")
    ensures forall k :: k in CopiedApplicationFields ==> Get(a.fields, k) == Get(body, k)
    ensures a.id == id && a.grantId == grantId && a.submittedAt == now && a.reviewedAt.None?
  {
    CopiedFieldsApart();
    var copied := map k | k in CopiedApplicationFields :: Get(body, k);
    var fields := copied["requested_amount" := JNum(requested)]["priority" := JStr("medium")];
    var auto := AutoApproves(g);
    Application(id, grantId, if auto then fields["approved_amount" := JNum(requested)] else fields,
                if auto then "approved" else "submitted", start, end, now, None, if auto then Some(now) else None)
  }

  /** The columns the endpoint sets itself are not among those copied from the body. */
  lemma CopiedFieldsApart()
    ensures "requested_amount" !in CopiedApplicationFields
    ensures "priority" !in CopiedApplicationFields
    ensures "approved_amount" !in CopiedApplicationFields
  {
  }

  /** A created row fills the required columns when the body's required values are not null. */
  lemma NewApplicationFilled(body: Body, grantId: nat, g: Grant, requested: real, start: Option<int>,
                             end: Option<int>, id: nat, now: int)
    requires Get(body, "applicant_name") != JNull && Get(body, "applicant_email") != JNull
    requires Get(body, "project_title") != JNull && Get(body, "project_description") != JNull
    ensures ColumnsFilled(NewApplication(body, grantId, g, requested, start, end, id, now).fields,
                          ApplicationNotNullColumns)
  {
    var a := NewApplication(body, grantId, g, requested, start, end, id, now);
    forall c | c in ApplicationNotNullColumns
      ensures Get(a.fields, c) != JNull
    {
      if c == "requested_amount" || c == "priority" {
      } else {
        assert c in {"applicant_name", "applicant_email", "project_title", "project_description"};
        assert c in CopiedApplicationFields;
      }
    }
  }

  /** `create_application`: the row it commits under `id`, or the error it answers. */
  function CreateApplicationResult(grants: map<nat, Grant>, applications: map<nat, Application>, body: Body,
                                   p: Parsers, id: nat, now: int): (r: Result<Application>)
    ensures r.Fail? <==> CheckSubmission(grants, applications, body, p, now).Fail?
    ensures r.Fail? ==> r.error == CheckSubmission(grants, applications, body, p, now).error
    ensures r.Ok? ==> r.value.id == id && r.value.grantId == CheckSubmission(grants, applications, body, p, now).value.grantId
    ensures r.Ok? ==> r.value.grantId in grants && ColumnsFilled(r.value.fields, ApplicationNotNullColumns)
  {
    match CheckSubmission(grants, applications, body, p, now)
    case Fail(e) => Fail(e)
    case Ok(sub) =>
      NewApplicationFilled(body, sub.grantId, grants[sub.grantId], sub.requested, sub.start, sub.end, id, now);
      Ok(NewApplication(body, sub.grantId, grants[sub.grantId], sub.requested, sub.start, sub.end, id, now))
  }

  /** A created application is approved exactly when its grant auto-approves, for the amount requested. */
  lemma AutoApprovalOutcome(grants: map<nat, Grant>, applications: map<nat, Application>, body: Body, p: Parsers,
                            id: nat, now: int)
    requires CreateApplicationResult(grants, applications, body, p, id, now).Ok?
    ensures var a := CreateApplicationResult(grants, applications, body, p, id, now).value;
            (a.status == "approved" <==> AutoApproves(grants[a.grantId]))
            && (a.status == "approved" ==> Get(a.fields, "approved_amount") == Get(a.fields, "requested_amount")
                                            && a.decisionDate == Some(now))
            && (a.status != "approved" ==> a.status == "submitted" && a.decisionDate.None?)
  {
  }

  /** With a numeric cap on the grant, an accepted application found fewer rows than the cap. */
  lemma CapRespected(grants: map<nat, Grant>, applications: map<nat, Application>, body: Body, p: Parsers,
                     id: nat, now: int)
    requires CreateApplicationResult(grants, applications, body, p, id, now).Ok?
    ensures var a := CreateApplicationResult(grants, applications, body, p, id, now).value;
            var cap := Get(grants[a.grantId].fields, "max_applications");
            cap.JNum? && cap.n != 0.0 ==> (ApplicationCount(applications, a.grantId) as real) < cap.n
  {
    var key := GrantKey(body["grant_id"]).value;
    assert CreateApplicationResult(grants, applications, body, p, id, now).value.grantId == key;
  }

  /**
   * `create_application` against the tables: the new row is added under the
   * next id, and a numeric cap on the grant is never exceeded.
   */
  method CreateApplication(s: LegacyStore, body: Body, p: Parsers, now: int) returns (r: Result<Application>)
    requires s.Valid()
    modifies s
    ensures s.Valid()
    ensures s.grants == old(s.grants)
    ensures r == CreateApplicationResult(old(s.grants), old(s.applications), body, p, old(s.nextApplicationId), now)
    ensures r.Ok? ==> s.applications == old(s.applications)[r.value.id := r.value]
    ensures r.Fail? ==> s.applications == old(s.applications)
    ensures r.Ok? ==> r.value.grantId in s.grants
    ensures r.Ok? ==> var cap := Get(s.grants[r.value.grantId].fields, "max_applications");
                      cap.JNum? && cap.n != 0.0 && cap.n == cap.n.Floor as real ==>
                        (ApplicationCount(s.applications, r.value.grantId) as real) <= cap.n
  {
    var grants := s.grants;
    var applications := s.applications;
    var id := s.nextApplicationId;
    r := CreateApplicationResult(grants, applications, body, p, id, now);
    if r.Ok? {
      var a := r.value;
      assert id !in applications;
      CapRespected(grants, applications, body, p, id, now);
      CountAfterInsert(applications, a);
      var cap := Get(grants[a.grantId].fields, "max_applications");
      if cap.JNum? && cap.n != 0.0 && cap.n == cap.n.Floor as real {
        WholeBound(ApplicationCount(applications, a.grantId), cap.n);
      }
      s.AddApplication(a);
    }
  }

  /** A count below a whole-number cap stays within it after one more row. */
  lemma WholeBound(count: nat, cap: real)
    requires (count as real) < cap && cap == cap.Floor as real
    ensures ((count + 1) as real) <= cap
  {
    assert count < cap.Floor;
  }

  const ValidStatuses: seq<string> := ["submitted", "under_review", "approved", "rejected", "withdrawn"]

  /**
   * The checks of `update_application_status`: 401, 403 for a non-council
   * role, 404, 403 unless the caller owns the grant, 400 without a status
   * and 400 for a status outside the five. The current status plays no part.
   */
  function StatusUpdateError(grants: map<nat, Grant>, applications: map<nat, Application>, caller: Option<LegacyUser>,
                             id: nat, body: Body): (r: Option<HttpError>)
    ensures r.None? <==> caller.Some? && IsCouncil(caller.value.role) && id in applications
                         && MayAccessApplication(grants, caller.value, applications[id])
                         && Get(body, "status").JStr? && Get(body, "status").s in ValidStatuses
    ensures caller.None? ==> r == Some(Unauthorized)
    ensures caller.Some? && !IsCouncil(caller.value.role) ==> r == Some(Forbidden)
    ensures caller.Some? && IsCouncil(caller.value.role) && id !in applications ==> r == Some(NotFound)
  {
    if caller.None? then Some(Unauthorized)
    else if !IsCouncil(caller.value.role) then Some(Forbidden)
    else if id !in applications then Some(NotFound)
    else if !MayAccessApplication(grants, caller.value, applications[id]) then Some(Forbidden)
    else if !JTruthy(Get(body, "status")) then Some(BadRequest)
    else if !(Get(body, "status").JStr? && Get(body, "status").s in ValidStatuses) then Some(BadRequest)
    else None
  }

  /**
   * The assignments of `update_application_status`: the new status, the
   * notes and score as sent (`None` when absent), reviewed now, decided now
   * on approval or rejection, and an approval's amount as sent or the
   * requested amount.
   */
  function ApplyStatus(a: Application, status: string, body: Body, now: int): (b: Application)
    ensures b.status == status && b.reviewedAt == Some(now)
    ensures Get(b.fields, "reviewer_notes") == Get(body, "reviewer_notes")
            && Get(b.fields, "public_notes") == Get(body, "public_notes") && Get(b.fields, "score") == Get(body, "score")
    ensures b.decisionDate == if status in {"approved", "rejected"} then Some(now) else a.decisionDate
    ensures Get(b.fields, "approved_amount") ==
              if status == "approved" then GetOr(body, "approved_amount", Get(a.fields, "requested_amount"))
              else Get(a.fields, "approved_amount")
    ensures forall k :: k in ApplicationNotNullColumns ==> Get(b.fields, k) == Get(a.fields, k)
    ensures b.id == a.id && b.grantId == a.grantId && b.submittedAt == a.submittedAt
  {
    var fields := a.fields["reviewer_notes" := Get(body, "reviewer_notes")]["public_notes" := Get(body, "public_notes")]
                          ["score" := Get(body, "score")];
    var decided := status == "approved" || status == "rejected";
    a.(status := status,
       fields := if status == "approved"
                 then fields["approved_amount" := GetOr(body, "approved_amount", Get(a.fields, "requested_amount"))]
                 else fields,
       reviewedAt := Some(now),
       decisionDate := if decided then Some(now) else a.decisionDate)
  }

  /** Nulls written outside the required columns leave them filled. */
  lemma FilledThroughGet(a: map<string, Json>, b: map<string, Json>)
    requires ColumnsFilled(a, ApplicationNotNullColumns)
    requires forall k :: k in ApplicationNotNullColumns ==> Get(b, k) == Get(a, k)
    ensures ColumnsFilled(b, ApplicationNotNullColumns)
  {
    forall k | k in ApplicationNotNullColumns
      ensures k in b && b[k] != JNull
    {
      assert k in a && a[k] != JNull;
      assert Get(a, k) != JNull;
    }
  }

  /** `update_application_status`: every transition among the five statuses is allowed. */
  method UpdateApplicationStatus(s: LegacyStore, caller: Option<LegacyUser>, id: nat, body: Body, now: int)
    returns (r: Result<Application>)
    requires s.Valid()
    modifies s
    ensures s.Valid()
    ensures r.Fail? <==> StatusUpdateError(old(s.grants), old(s.applications), caller, id, body).Some?
    ensures r.Fail? ==> r.error == StatusUpdateError(old(s.grants), old(s.applications), caller, id, body).value
                        && s.applications == old(s.applications)
    ensures r.Ok? ==> r.value == ApplyStatus(old(s.applications)[id], body["status"].s, body, now)
                      && s.applications == old(s.applications)[id := r.value]
    ensures s.grants == old(s.grants)
  {
    var error := StatusUpdateError(s.grants, s.applications, caller, id, body);
    if error.Some? {
      return Fail(error.value);
    }
    var a := s.applications[id];
    var updated := ApplyStatus(a, body["status"].s, body, now);
    FilledThroughGet(a.fields, updated.fields);
    s.PutApplication(updated);
    r := Ok(updated);
  }

  /** A council reviewer may move an application from any status to any of the five. */
  lemma AnyTransitionAllowed(grants: map<nat, Grant>, applications: map<nat, Application>, user: LegacyUser,
                             id: nat, target: string, current: string)
    requires IsCouncil(user.role) && id in applications && MayAccessApplication(grants, user, applications[id])
    requires target in ValidStatuses
    ensures var moved := applications[id := applications[id].(status := current)];
            StatusUpdateError(grants, moved, Some(user), id, map["status" := JStr(target)]).None?
  {
    var moved := applications[id := applications[id].(status := current)];
    assert MayAccessApplication(grants, user, moved[id]);
  }

  const CouncilUpdatableFields: seq<string> := [
    "priority", "score", "reviewer_notes", "public_notes",
    "approved_amount", "payment_schedule", "reporting_requirements", "compliance_status"]

  const MemberUpdatableFields: seq<string> := [
    "applicant_name", "applicant_phone", "organization_name",
    "organization_type", "abn_acn", "project_title",
    "project_description", "requested_amount", "project_budget",
    "documents", "public_comments"]

  /** The columns `update_application` converts with `float` (passing `None` through). */
  const NumericApplicationFields: set<string> := {"requested_amount", "approved_amount", "score"}

  /** The whitelist of the caller's role. */
  function UpdatableFields(user: LegacyUser): seq<string>
  {
    if IsCouncil(user.role) then CouncilUpdatableFields else MemberUpdatableFields
  }

  /** The checks of `update_application`: the shared ones, then 400 for an applicant once review has started. */
  function EditError(grants: map<nat, Grant>, applications: map<nat, Application>, caller: Option<LegacyUser>,
                     id: nat): (r: Option<HttpError>)
    ensures r.None? <==> AccessGate(grants, applications, caller, id).None?
                         && (!IsCouncil(caller.value.role) ==> applications[id].status == "submitted")
    ensures AccessGate(grants, applications, caller, id).Some? ==> r == AccessGate(grants, applications, caller, id)
  {
    var gate := AccessGate(grants, applications, caller, id);
    if gate.Some? then gate
    else if !IsCouncil(caller.value.role) && applications[id].status != "submitted" then Some(BadRequest)
    else None
  }

  /** `if key in data and data[key]: strptime(…)`: otherwise the date stays. */
  function DateIfGiven(current: Option<int>, body: Body, key: string, parse: string -> Option<int>)
    : (r: Result<Option<int>>)
    ensures !JTruthy(Get(body, key)) ==> r == Ok(current)
    ensures JTruthy(Get(body, key)) ==> (r.Ok? <==> ParseWith(body[key], parse).Some?)
    ensures JTruthy(Get(body, key)) && r.Ok? ==> r.value == ParseWith(body[key], parse)
  {
    if !JTruthy(Get(body, key)) then Ok(current)
    else match ParseWith(body[key], parse)
      case Some(t) => Ok(Some(t))
      case None => Fail(ServerError)
  }

  /**
   * `update_application`: the checks, the whitelist of the caller's role,
   * the project dates; a conversion that raises or a null in a required
   * column is a 500 and nothing is written. The status never changes here.
   */
  method UpdateApplication(s: LegacyStore, caller: Option<LegacyUser>, id: nat, body: Body, p: Parsers)
    returns (r: Result<Application>)
    requires s.Valid()
    modifies s
    ensures s.Valid()
    ensures EditError(old(s.grants), old(s.applications), caller, id).Some? ==>
              r == Fail(EditError(old(s.grants), old(s.applications), caller, id).value)
    ensures r.Ok? <==>
              EditError(old(s.grants), old(s.applications), caller, id).None?
              && Convertible(body, UpdatableFields(caller.value), NumericApplicationFields, true, p)
              && DateIfGiven(old(s.applications)[id].startDate, body, "project_start_date", p.date).Ok?
              && DateIfGiven(old(s.applications)[id].endDate, body, "project_end_date", p.date).Ok?
              && ColumnsFilled(Overlay(old(s.applications)[id].fields, body, UpdatableFields(caller.value),
                                       NumericApplicationFields, true, p), ApplicationNotNullColumns)
    ensures r.Fail? ==> s.applications == old(s.applications)
    ensures r.Ok? ==>
              var a := old(s.applications)[id];
              r.value == a.(fields := Overlay(a.fields, body, UpdatableFields(caller.value), NumericApplicationFields,
                                              true, p),
                            startDate := DateIfGiven(a.startDate, body, "project_start_date", p.date).value,
                            endDate := DateIfGiven(a.endDate, body, "project_end_date", p.date).value)
              && s.applications == old(s.applications)[id := r.value]
    ensures s.grants == old(s.grants)
  {
    var error := EditError(s.grants, s.applications, caller, id);
    if error.Some? {
      return Fail(error.value);
    }
    var a := s.applications[id];
    var fields := AssignWhitelisted(a.fields, body, UpdatableFields(caller.value), NumericApplicationFields, true, p);
    if fields.None? {
      return Fail(ServerError);
    }
    var start := DateIfGiven(a.startDate, body, "project_start_date", p.date);
    var end := DateIfGiven(a.endDate, body, "project_end_date", p.date);
    if start.Fail? || end.Fail? || !ColumnsFilled(fields.value, ApplicationNotNullColumns) {
      return Fail(ServerError);
    }
    var updated := a.(fields := fields.value, startDate := start.value, endDate := end.value);
    s.PutApplication(updated);
    r := Ok(updated);
  }

  /** An applicant's edit leaves every assessment column the council owns as it was. */
  lemma MemberEditKeepsAssessment(fields: map<string, Json>, body: Body, p: Parsers, column: string)
    requires column in CouncilUpdatableFields
    ensures Get(Overlay(fields, body, MemberUpdatableFields, NumericApplicationFields, true, p), column)
            == Get(fields, column)
  {
    assert column !in MemberUpdatableFields;
  }

  /** A council edit leaves the applicant's own details as they were. */
  lemma CouncilEditKeepsApplicantDetails(fields: map<string, Json>, body: Body, p: Parsers, column: string)
    requires column in MemberUpdatableFields
    ensures Get(Overlay(fields, body, CouncilUpdatableFields, NumericApplicationFields, true, p), column)
            == Get(fields, column)
  {
    assert column !in CouncilUpdatableFields;
  }

  /** What `delete_application` did: a council user's hard delete or an applicant's withdrawal. */
  datatype DeleteOutcome = Deleted | Withdrawn

  /** The checks of `delete_application`: the shared ones, then 400 for an applicant once a decision is made. */
  function WithdrawError(grants: map<nat, Grant>, applications: map<nat, Application>, caller: Option<LegacyUser>,
                         id: nat): (r: Option<HttpError>)
    ensures r.None? <==> AccessGate(grants, applications, caller, id).None?
                         && (!IsCouncil(caller.value.role) ==>
                               applications[id].status in {"submitted", "under_review"})
    ensures AccessGate(grants, applications, caller, id).Some? ==> r == AccessGate(grants, applications, caller, id)
  {
    var gate := AccessGate(grants, applications, caller, id);
    if gate.Some? then gate
    else if !IsCouncil(caller.value.role) && applications[id].status !in {"submitted", "under_review"}
    then Some(BadRequest)
    else None
  }

  /**
   * `delete_application`: council users remove the row; applicants
   * withdraw their own, only before a decision, and the row stays.
   */
  method DeleteApplication(s: LegacyStore, caller: Option<LegacyUser>, id: nat) returns (r: Result<DeleteOutcome>)
    requires s.Valid()
    modifies s
    ensures s.Valid()
    ensures r.Fail? <==> WithdrawError(old(s.grants), old(s.applications), caller, id).Some?
    ensures r.Fail? ==> r.error == WithdrawError(old(s.grants), old(s.applications), caller, id).value
                        && s.applications == old(s.applications)
    ensures r == Ok(Deleted) <==> r.Ok? && IsCouncil(caller.value.role)
    ensures r == Ok(Deleted) ==> s.applications == old(s.applications) - {id}
    ensures r == Ok(Withdrawn) ==>
              old(s.applications)[id].status in {"submitted", "under_review"}
              && s.applications == old(s.applications)[id := old(s.applications)[id].(status := "withdrawn")]
    ensures s.grants == old(s.grants)
  {
    var error := WithdrawError(s.grants, s.applications, caller, id);
    if error.Some? {
      return Fail(error.value);
    }
    if IsCouncil(caller.value.role) {
      s.RemoveApplication(id);
      r := Ok(Deleted);
    } else {
      var a := s.applications[id];
      s.PutApplication(a.(status := "withdrawn"));
      r := Ok(Withdrawn);
    }
  }

  /** A withdrawn or decided application can no longer be withdrawn by its applicant. */
  lemma NoWithdrawalAfterDecision(grants: map<nat, Grant>, applications: map<nat, Application>, user: LegacyUser,
                                  id: nat)
    requires !IsCouncil(user.role) && id in applications
    requires applications[id].status in {"approved", "rejected", "withdrawn"}
    ensures WithdrawError(grants, applications, Some(user), id).Some?
  {
  }

  /** The statistics `get_application_stats` answers. */
  datatype ApplicationStats = ApplicationStats(
    total: nat,
    statusCounts: map<string, nat>,
    totalRequested: real,
    totalApproved: real)

  /** `counts.get(status, 0)`. */
  function CountOf(counts: map<string, nat>, status: string): nat
  {
    if status in counts then counts[status] else 0
  }

  /** The `status_counts` dictionary of a row sequence, built left to right. */
  function StatusCounts(rows: seq<Application>): map<string, nat>
  {
    if rows == [] then map[]
    else
      var counts := StatusCounts(rows[..|rows| - 1]);
      var status := rows[|rows| - 1].status;
      counts[status := CountOf(counts, status) + 1]
  }

  /** Each status is counted as often as rows carry it, and only statuses that occur are keys. */
  lemma {:induction false} StatusCountsCount(rows: seq<Application>, status: string)
    ensures CountOf(StatusCounts(rows), status) == CountWhere(rows, (a: Application) => a.status == status)
    ensures status in StatusCounts(rows) <==> exists i :: 0 <= i < |rows| && rows[i].status == status
  {
    if rows != [] {
      var init := rows[..|rows| - 1];
      StatusCountsCount(init, status);
      if status in StatusCounts(init) {
        var i :| 0 <= i < |init| && init[i].status == status;
        assert rows[i].status == status;
      }
      if exists i :: 0 <= i < |rows| && rows[i].status == status {
        var i :| 0 <= i < |rows| && rows[i].status == status;
        if i < |rows| - 1 {
          assert init[i].status == status;
        }
      }
    }
  }

  /**
   * What a stored amount adds to a total: `x or 0` and `if x: total += x`
   * add nothing for an empty value and raise for a non-number.
   */
  function Contribution(v: Json): (r: Option<real>)
    ensures !JTruthy(v) ==> r == Some(0.0)
    ensures v.JNum? ==> r == Some(v.n)
    ensures (v.JStr? || v.JList?) && JTruthy(v) ==> r.None?
  {
    if !JTruthy(v) then Some(0.0)
    else match v
      case JNum(n) => Some(n)
      case JBool(_) => Some(1.0)
      case _ => None
  }

  /** The sum of the contributions of one column over the rows, `None` when one raises. */
  function ColumnTotal(rows: seq<Application>, column: string): Option<real>
  {
    if rows == [] then Some(0.0)
    else match (ColumnTotal(rows[..|rows| - 1], column), Contribution(Get(rows[|rows| - 1].fields, column)))
      case (Some(t), Some(x)) => Some(t + x)
      case _ => None
  }

  /** A total over rows whose column holds numbers or nothing never raises. */
  lemma {:induction false} NumericColumnsTotal(rows: seq<Application>, column: string)
    requires forall i :: 0 <= i < |rows| ==> Get(rows[i].fields, column).JNum? || Get(rows[i].fields, column).JNull?
    ensures ColumnTotal(rows, column).Some?
  {
    if rows != [] {
      NumericColumnsTotal(rows[..|rows| - 1], column);
    }
  }

  /**
   * The loop of `get_application_stats` over the selected rows: the count,
   * the per-status counts and the two totals, or a 500 when a stored amount
   * is not a number.
   */
  method ComputeApplicationStats(rows: seq<Application>) returns (r: Result<ApplicationStats>)
    ensures r.Ok? <==> ColumnTotal(rows, "requested_amount").Some? && ColumnTotal(rows, "approved_amount").Some?
    ensures r.Fail? ==> r.error == ServerError
    ensures r.Ok? ==> r.value.total == |rows| && r.value.statusCounts == StatusCounts(rows)
                      && r.value.totalRequested == ColumnTotal(rows, "requested_amount").value
                      && r.value.totalApproved == ColumnTotal(rows, "approved_amount").value
  {
    var counts: map<string, nat> := map[];
    var requested := 0.0;
    var approved := 0.0;
    var requestedOk := true;
    var approvedOk := true;
    var i := 0;
    while i < |rows|
      invariant 0 <= i <= |rows|
      invariant counts == StatusCounts(rows[..i])
      invariant requestedOk <==> ColumnTotal(rows[..i], "requested_amount").Some?
      invariant approvedOk <==> ColumnTotal(rows[..i], "approved_amount").Some?
      invariant requestedOk ==> requested == ColumnTotal(rows[..i], "requested_amount").value
      invariant approvedOk ==> approved == ColumnTotal(rows[..i], "approved_amount").value
    {
      var a := rows[i];
      assert rows[..i + 1][..i] == rows[..i];
      counts := counts[a.status := CountOf(counts, a.status) + 1];
      requestedOk, requested := AddContribution(rows, i, "requested_amount", requestedOk, requested);
      approvedOk, approved := AddContribution(rows, i, "approved_amount", approvedOk, approved);
      i := i + 1;
    }
    assert rows[..i] == rows;
    if !requestedOk || !approvedOk {
      return Fail(ServerError);
    }
    r := Ok(ApplicationStats(|rows|, counts, requested, approved));
  }

  /** One row's step of the running total of one column in `get_application_stats`. */
  method AddContribution(rows: seq<Application>, i: nat, column: string, ok: bool, total: real)
      returns (ok': bool, total': real)
    requires i < |rows|
    requires ok <==> ColumnTotal(rows[..i], column).Some?
    requires ok ==> total == ColumnTotal(rows[..i], column).value
    ensures ok' <==> ColumnTotal(rows[..i + 1], column).Some?
    ensures ok' ==> total' == ColumnTotal(rows[..i + 1], column).value
  {
    assert rows[..i + 1][..i] == rows[..i];
    var x := Contribution(Get(rows[i].fields, column));
    ok', total' := ok, total;
    if x.None? {
      ok' := false;
    } else if ok {
      total' := total + x.value;
    }
  }

  /** A share of a positive whole is between none and all of it. */
  lemma ShareBounds(part: real, whole: real)
    requires 0.0 <= part <= whole && whole > 0.0
    ensures 0.0 <= part / whole * 100.0 <= 100.0
  {
    assert part / whole <= 1.0 by {
      assert part / whole * whole == part;
    }
  }

  /** `status_counts.get('approved', 0) / total * 100`, or 0 without applications: a percentage. */
  function ApprovalRate(stats: ApplicationStats, rows: seq<Application>): (rate: real)
    requires stats.total == |rows| && stats.statusCounts == StatusCounts(rows)
    ensures 0.0 <= rate <= 100.0
    ensures |rows| == 0 ==> rate == 0.0
  {
    if stats.total == 0 then 0.0
    else
      StatusCountsCount(rows, "approved");
      ShareBounds(CountOf(stats.statusCounts, "approved") as real, stats.total as real);
      (CountOf(stats.statusCounts, "approved") as real) / (stats.total as real) * 100.0
  }

  /** The rows `get_application_stats` selects: the applications to the caller's own grants. */
  function OwnedApplicationIds(grants: map<nat, Grant>, applications: map<nat, Application>, userId: int)
    : (r: set<nat>)
    ensures forall id :: id in r <==>
              id in applications && applications[id].grantId in grants && grants[applications[id].grantId].councilId == userId
  {
    set id | id in applications && applications[id].grantId in grants
             && grants[applications[id].grantId].councilId == userId
  }

  /** `order` lists every id of `ids` once, and nothing else. */
  predicate Enumerates(order: seq<nat>, ids: set<nat>)
  {
    (forall i, j :: 0 <= i < j < |order| ==> order[i] != order[j])
    && (forall i :: 0 <= i < |order| ==> order[i] in ids)
    && (forall id :: id in ids ==> id in order)
  }

  /** The rows stored under the ids of `order`, in that order. */
  function RowsOf(applications: map<nat, Application>, order: seq<nat>): (rows: seq<Application>)
    requires forall i :: 0 <= i < |order| ==> order[i] in applications
    ensures |rows| == |order|
    ensures forall i :: 0 <= i < |order| ==> rows[i] == applications[order[i]]
  {
    if order == [] then [] else RowsOf(applications, order[..|order| - 1]) + [applications[order[|order| - 1]]]
  }

  /** The ids of `ids` whose application has status `status`. */
  function IdsWithStatus(applications: map<nat, Application>, ids: set<nat>, status: string): set<nat>
  {
    set id | id in ids && id in applications && applications[id].status == status
  }

  /** Dropping the last id of an enumeration enumerates the other ids. */
  lemma EnumeratesInit(order: seq<nat>, ids: set<nat>)
    requires Enumerates(order, ids) && order != []
    ensures order[|order| - 1] in ids
    ensures Enumerates(order[..|order| - 1], ids - {order[|order| - 1]})
  {
    var init := order[..|order| - 1];
    forall i | 0 <= i < |init| ensures init[i] != order[|order| - 1] {
      assert order[i] != order[|order| - 1];
    }
    forall id | id in ids - {order[|order| - 1]} ensures id in init {
      var k :| 0 <= k < |order| && order[k] == id;
      assert init[k] == id;
    }
  }

  /**
   * Counting a status over the rows of an enumeration of `ids` counts the
   * ids whose application has it, whatever the order.
   */
  lemma {:induction false} EnumeratedStatusCount(applications: map<nat, Application>, order: seq<nat>,
                                                 ids: set<nat>, status: string)
    requires Enumerates(order, ids) && ids <= applications.Keys
    ensures CountWhere(RowsOf(applications, order), (a: Application) => a.status == status)
            == |IdsWithStatus(applications, ids, status)|
  {
    if order == [] {
      assert IdsWithStatus(applications, ids, status) == {};
    } else {
      var init := order[..|order| - 1];
      var last := order[|order| - 1];
      var rest := ids - {last};
      EnumeratesInit(order, ids);
      EnumeratedStatusCount(applications, init, rest, status);
      var rows := RowsOf(applications, order);
      assert rows == RowsOf(applications, init) + [applications[last]];
      assert rows[..|rows| - 1] == RowsOf(applications, init);
      assert CountWhere(rows, (a: Application) => a.status == status)
             == CountWhere(RowsOf(applications, init), (a: Application) => a.status == status)
                + (if applications[last].status == status then 1 else 0);
      assert last !in rest;
      if applications[last].status == status {
        assert IdsWithStatus(applications, ids, status) == IdsWithStatus(applications, rest, status) + {last};
      } else {
        assert IdsWithStatus(applications, ids, status) == IdsWithStatus(applications, rest, status);
      }
    }
  }

  /** The status histogram of the fetched rows counts, per status, the enumerated ids with that status. */
  lemma EnumeratedStatusCounts(applications: map<nat, Application>, order: seq<nat>, ids: set<nat>)
    requires Enumerates(order, ids) && ids <= applications.Keys
    ensures forall status :: CountOf(StatusCounts(RowsOf(applications, order)), status)
                             == |IdsWithStatus(applications, ids, status)|
  {
    forall status
      ensures CountOf(StatusCounts(RowsOf(applications, order)), status) == |IdsWithStatus(applications, ids, status)|
    {
      StatusCountsCount(RowsOf(applications, order), status);
      EnumeratedStatusCount(applications, order, ids, status);
    }
  }

  /** A column that is numeric or null on every enumerated id has a total over the fetched rows. */
  lemma NumericEnumeratedColumn(applications: map<nat, Application>, order: seq<nat>, ids: set<nat>, column: string)
    requires Enumerates(order, ids) && ids <= applications.Keys
    requires forall id :: id in ids ==> Get(applications[id].fields, column).JNum? || Get(applications[id].fields, column).JNull?
    ensures ColumnTotal(RowsOf(applications, order), column).Some?
  {
    var rows := RowsOf(applications, order);
    forall i | 0 <= i < |rows|
      ensures Get(rows[i].fields, column).JNum? || Get(rows[i].fields, column).JNull?
    {
      assert order[i] in ids;
    }
    NumericColumnsTotal(rows, column);
  }

  method FetchRows(applications: map<nat, Application>, selected: set<nat>)
    returns (rows: seq<Application>, ghost order: seq<nat>)
    requires selected <= applications.Keys
    ensures Enumerates(order, selected)
    ensures |rows| == |selected| && rows == RowsOf(applications, order)
  {
    var remaining := selected;
    rows, order := [], [];
    while remaining != {}
      invariant remaining <= selected
      invariant |rows| + |remaining| == |selected|
      invariant Enumerates(order, selected - remaining)
      invariant rows == RowsOf(applications, order)
      decreases |remaining|
    {
      var id :| id in remaining;
      rows := rows + [applications[id]];
      order := order + [id];
      remaining := remaining - {id};
    }
    assert selected - remaining == selected;
  }

  /**
   * `get_application_stats`: 401, 403 for a non-council role, then the
   * statistics of the applications to the caller's grants, fetched in an
   * order the database chooses.
   */
  method ApplicationStatistics(grants: map<nat, Grant>, applications: map<nat, Application>,
                               caller: Option<LegacyUser>)
    returns (r: Result<ApplicationStats>)
    ensures caller.None? ==> r == Fail(Unauthorized)
    ensures caller.Some? && !IsCouncil(caller.value.role) ==> r == Fail(Forbidden)
    ensures r.Ok? ==> caller.Some? && IsCouncil(caller.value.role)
                      && r.value.total == |OwnedApplicationIds(grants, applications, caller.value.id)|
    ensures caller.Some? && IsCouncil(caller.value.role)
            && (forall id :: id in OwnedApplicationIds(grants, applications, caller.value.id) ==>
                  Get(applications[id].fields, "requested_amount").JNum?
                  && (Get(applications[id].fields, "approved_amount").JNum?
                      || Get(applications[id].fields, "approved_amount").JNull?))
            ==> r.Ok?
    ensures r.Ok? && caller.Some? ==>
              var owned := OwnedApplicationIds(grants, applications, caller.value.id);
              forall status :: CountOf(r.value.statusCounts, status) == |IdsWithStatus(applications, owned, status)|
    ensures r.Ok? && caller.Some? ==>
              var owned := OwnedApplicationIds(grants, applications, caller.value.id);
              exists order :: Enumerates(order, owned) && owned <= applications.Keys
                              && ColumnTotal(RowsOf(applications, order), "requested_amount") == Some(r.value.totalRequested)
                              && ColumnTotal(RowsOf(applications, order), "approved_amount") == Some(r.value.totalApproved)
  {
    if caller.None? {
      return Fail(Unauthorized);
    }
    if !IsCouncil(caller.value.role) {
      return Fail(Forbidden);
    }
    var selected := OwnedApplicationIds(grants, applications, caller.value.id);
    var rows, order := FetchRows(applications, selected);
    r := ComputeApplicationStats(rows);
    if r.Ok? {
      EnumeratedStatusCounts(applications, order, selected);
      assert Enumerates(order, selected) && selected <= applications.Keys
             && ColumnTotal(RowsOf(applications, order), "requested_amount") == Some(r.value.totalRequested)
             && ColumnTotal(RowsOf(applications, order), "approved_amount") == Some(r.value.totalApproved);
    }
    if (forall id :: id in selected ==>
          Get(applications[id].fields, "requested_amount").JNum?
          && (Get(applications[id].fields, "approved_amount").JNum?
              || Get(applications[id].fields, "approved_amount").JNull?)) {
      NumericEnumeratedColumn(applications, order, selected, "requested_amount");
      NumericEnumeratedColumn(applications, order, selected, "approved_amount");
    }
  }
}
