/**
 * Grant and application records of the FastAPI app and their derived
 * properties (backend/app/models/grant.py).  Dates are instants on an integer
 * clock; money is an integer number of cents.
 */
module GrantModel {
  import opened Common
  import opened Text

  datatype GrantStatus = GDraft | GPublished | GClosed | GSuspended | GArchived

  datatype ApplicationStatus =
    | Draft | Submitted | UnderReview | Approved | Rejected | Withdrawn | RequiresChanges

  datatype GrantCategory =
    | Community | Environment | ArtsCulture | SportsRecreation | Education | Health
    | Infrastructure | EconomicDevelopment | Youth | Seniors | OtherCategory

  datatype Grant = Grant(
    id: nat,
    title: string,
    slug: string,
    description: string,
    totalFunding: int,
    minAmount: Option<int>,
    maxAmount: Option<int>,
    allocatedAmount: int,
    category: GrantCategory,
    openDate: int,
    closeDate: int,
    status: GrantStatus,
    isFeatured: bool,
    organizationId: int,
    organizationName: string,
    createdBy: nat,
    viewCount: nat)

  datatype Application = Application(
    id: nat,
    referenceNumber: string,
    grantId: nat,
    applicantId: nat,
    projectTitle: string,
    projectDescription: string,
    requestedAmount: int,
    organizationName: string,
    status: ApplicationStatus,
    submittedAt: Option<int>,
    reviewedAt: Option<int>,
    reviewedBy: Option<nat>,
    reviewerNotes: Option<string>,
    feedback: Option<string>,
    score: Option<int>)

  /** `is_open`: published, and `now` inside the application window, both ends included. */
  predicate IsOpen(g: Grant, now: int)
  {
    g.status == GPublished && g.openDate <= now <= g.closeDate
  }

  /** `remaining_funding`. */
  function RemainingFunding(g: Grant): (r: int)
    ensures r + g.allocatedAmount == g.totalFunding
    ensures g.allocatedAmount <= g.totalFunding <==> r >= 0
  {
    g.totalFunding - g.allocatedAmount
  }

  /** The ids of the applications attached to grant `gid`. */
  function ApplicationsOf(apps: map<nat, Application>, gid: nat): (ids: set<nat>)
    ensures forall k :: k in ids <==> k in apps && apps[k].grantId == gid
  {
    set k | k in apps && apps[k].grantId == gid
  }

  /** `application_count`: derived from the attached rows, never stored. */
  function ApplicationCount(apps: map<nat, Application>, gid: nat): (n: nat)
    ensures n == 0 <==> forall k :: k in apps ==> apps[k].grantId != gid
  {
    var ids := ApplicationsOf(apps, gid);
    assert ids == {} <==> forall k :: k in apps ==> apps[k].grantId != gid;
    |ids|
  }

  /** Attaching one new application to grant `gid` raises its count by exactly one. */
  lemma ApplicationCountInsert(apps: map<nat, Application>, k: nat, a: Application, gid: nat)
    requires k !in apps
    ensures ApplicationCount(apps[k := a], gid)
         == ApplicationCount(apps, gid) + (if a.grantId == gid then 1 else 0)
  {
    var before := ApplicationsOf(apps, gid);
    var after := ApplicationsOf(apps[k := a], gid);
    if a.grantId == gid {
      assert forall x :: x in after <==> x in before || x == k;
      FreshInsertCard(before, after, k);
    } else {
      assert forall x :: x in after <==> x in before;
      assert after == before;
    }
  }

  /** Rewriting an application without moving it to another grant keeps every count. */
  lemma ApplicationCountUpdate(apps: map<nat, Application>, k: nat, a: Application, gid: nat)
    requires k in apps && apps[k].grantId == a.grantId
    ensures ApplicationCount(apps[k := a], gid) == ApplicationCount(apps, gid)
  {
    assert ApplicationsOf(apps[k := a], gid) == ApplicationsOf(apps, gid);
  }

  /** `is_editable`. */
  predicate IsEditable(a: Application)
  {
    a.status == Draft || a.status == RequiresChanges
  }

  /** `is_submitted`. */
  predicate IsSubmitted(a: Application)
  {
    a.status != Draft
  }

  /** An application is both editable and submitted only when changes were requested. */
  lemma EditableAndSubmitted(a: Application)
    ensures IsEditable(a) && IsSubmitted(a) <==> a.status == RequiresChanges
  {
  }

  /** A grant row as `create_grant` inserts it: the status column defaults to DRAFT. */
  function NewGrant(id: nat, title: string, slug: string, description: string, totalFunding: int,
                    minAmount: Option<int>, maxAmount: Option<int>, category: GrantCategory,
                    openDate: int, closeDate: int, organizationId: int, organizationName: string,
                    createdBy: nat): (g: Grant)
    ensures g.status == GDraft && !g.isFeatured
    ensures g.allocatedAmount == 0 && g.viewCount == 0
    ensures g.id == id && g.slug == slug && g.organizationId == organizationId
    ensures g.organizationName == organizationName
    ensures !IsOpen(g, openDate)
  {
    Grant(id, title, slug, description, totalFunding, minAmount, maxAmount, 0, category,
          openDate, closeDate, GDraft, false, organizationId, organizationName, createdBy, 0)
  }

  /** An application row as `create_application` inserts it: the status column defaults to DRAFT. */
  function NewApplication(id: nat, reference: string, grantId: nat, applicantId: nat,
                          title: string, description: string, amount: int,
                          organizationName: string): (a: Application)
    ensures a.status == Draft && IsEditable(a) && !IsSubmitted(a)
    ensures a.submittedAt == None && a.reviewedAt == None && a.reviewedBy == None
    ensures a.id == id && a.grantId == grantId && a.applicantId == applicantId
  {
    Application(id, reference, grantId, applicantId, title, description, amount,
                organizationName, Draft, None, None, None, None, None, None)
  }

  /** `generate_reference_number`: "GT", the year, the grant id to 4 places, the id to 6 places. */
  function ReferenceNumber(year: nat, grantId: nat, id: nat): (r: string)
    ensures |r| >= 2 + 1 + 4 + 6 && r[..2] == "GT"
    ensures AllDigits(r[2..])
  {
    var digits := Decimal(year) + ZeroPad(grantId, 4) + ZeroPad(id, 6);
    assert ("GT" + digits)[2..] == digits;
    "GT" + digits
  }

  /** Reads a 16-character reference number back into (year, grant id, id). */
  function DecodeReference(r: string): Option<(nat, nat, nat)>
  {
    if |r| == 16 && r[..2] == "GT" && AllDigits(r[2..]) then
      Some((ParseDigits(r[2..6]), ParseDigits(r[6..10]), ParseDigits(r[10..16])))
    else None
  }

  /**
   * For a four-digit year, a grant id below 10^4 and an id below 10^6 the
   * reference number has 16 characters and decodes to its three parts.
   */
  lemma ReferenceRoundTrip(year: nat, grantId: nat, id: nat)
    requires 1000 <= year <= 9999 && grantId < 10000 && id < 1000000
    ensures |ReferenceNumber(year, grantId, id)| == 16
    ensures DecodeReference(ReferenceNumber(year, grantId, id)) == Some((year, grantId, id))
  {
    assert Pow10(3) == 1000 && Pow10(4) == 10000 && Pow10(6) == 1000000;
    DecimalLength(year, 4);
    ParseDecimal(year);
    ParseZeroPad(grantId, 4);
    ParseZeroPad(id, 6);
    var y, g, i := Decimal(year), ZeroPad(grantId, 4), ZeroPad(id, 6);
    var r := ReferenceNumber(year, grantId, id);
    assert r == "GT" + y + g + i;
    assert r[2..6] == y;
    assert r[6..10] == g;
    assert r[10..16] == i;
    assert r[2..] == y + g + i;
    assert AllDigits(r[2..]);
  }

  /** Distinct application ids of the same grant and year give distinct reference numbers. */
  lemma ReferenceInjective(year: nat, grantId: nat, id1: nat, id2: nat)
    requires 1000 <= year <= 9999 && grantId < 10000 && id1 < 1000000 && id2 < 1000000
    requires id1 != id2
    ensures ReferenceNumber(year, grantId, id1) != ReferenceNumber(year, grantId, id2)
  {
    ReferenceRoundTrip(year, grantId, id1);
    ReferenceRoundTrip(year, grantId, id2);
  }
}
