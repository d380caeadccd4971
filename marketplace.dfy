/**
 * The professional services marketplace tables (backend/app/crud/marketplace.py):
 * professional profiles with their review status, service listings with
 * the rating kept from their reviews, bookings with their reference and
 * status, and the review rows.
 */
module Marketplace {
  import opened Common
  import opened Text

  // ---------------------------------------------------------------------
  // Field values and partial updates
  // ---------------------------------------------------------------------

  /** The value of one body field, as the request schemas carry it. */
  datatype Value =
    | Null
    | Flag(b: bool)
    | Number(n: int)
    | Amount(a: real)
    | Text(s: string)
    | Texts(items: seq<string>)
    | Records(rows: seq<map<string, string>>)

  /** The fields `ProfessionalProfileUpdate` declares. */
  const ProfileUpdateFields: set<string> := {
    "business_name", "business_registration", "abn_acn", "title", "bio", "specializations",
    "experience_years", "phone", "website", "linkedin_url", "address", "city", "state", "postcode",
    "country", "service_areas", "remote_services", "qualifications", "portfolio_items",
    "hourly_rate_min", "hourly_rate_max", "project_rate_min", "project_rate_max"}

  /** The fields `ProfessionalServiceUpdate` declares. */
  const ServiceUpdateFields: set<string> := {
    "title", "description", "category", "pricing_type", "hourly_rate", "fixed_price",
    "price_description", "duration_estimate", "deliverables", "requirements", "is_active",
    "max_concurrent_projects"}

  /**
   * `model_dump(exclude_unset=True)`: the fields the request set, among those
   * the schema declares (undeclared keys are dropped when the body is parsed).
   */
  function SetFields(body: map<string, Value>, declared: set<string>): (r: map<string, Value>)
    ensures r.Keys == body.Keys * declared
    ensures forall k :: k in r ==> r[k] == body[k]
  {
    map k | k in body && k in declared :: body[k]
  }

  /** The `setattr` loop of the update functions: each set field takes its value, every other field is kept. */
  function ApplyFields(details: map<string, Value>, body: map<string, Value>, declared: set<string>)
    : (r: map<string, Value>)
    ensures r.Keys == details.Keys + (body.Keys * declared)
    ensures forall k :: k in body && k in declared ==> r[k] == body[k]
    ensures forall k :: k in details && (k !in body || k !in declared) ==> r[k] == details[k]
  {
    details + SetFields(body, declared)
  }

  /** Repeating an update changes nothing more. */
  lemma ApplyFieldsIdempotent(details: map<string, Value>, body: map<string, Value>, declared: set<string>)
    ensures ApplyFields(ApplyFields(details, body, declared), body, declared) == ApplyFields(details, body, declared)
  {
    var once := ApplyFields(details, body, declared);
    var twice := ApplyFields(once, body, declared);
    assert twice.Keys == once.Keys;
    forall k | k in twice
      ensures twice[k] == once[k]
    {
      if k in body && k in declared {
        assert twice[k] == body[k] == once[k];
      }
    }
  }

  /** An update that sets none of the declared fields leaves the row's fields as they were. */
  lemma EmptyUpdateKeepsFields(details: map<string, Value>, body: map<string, Value>, declared: set<string>)
    requires body.Keys * declared == {}
    ensures ApplyFields(details, body, declared) == details
  {
    var r := ApplyFields(details, body, declared);
    forall k | k in r
      ensures k in details && r[k] == details[k]
    {
      assert k !in body.Keys * declared;
    }
  }

  // ---------------------------------------------------------------------
  // Professional profiles
  // ---------------------------------------------------------------------

  datatype ProfileStatus = Pending | UnderReview | Approved | Rejected | Suspended

  datatype Profile = Profile(
    id: nat,
    userId: nat,
    organizationId: Option<int>,
    details: map<string, Value>,
    status: ProfileStatus,
    reviewedBy: Option<nat>,
    reviewedAt: Option<int>,
    reviewFeedback: Option<string>,
    updatedAt: Option<int>)

  /**
   * `approve_professional_profile` on one row: the decision, who made it
   * and when; the feedback is replaced only by a non-empty one.
   */
  function ApplyApproval(p: Profile, approved: bool, reviewerId: nat, feedback: Option<string>, now: int)
    : (r: Profile)
    ensures r.status == Approved <==> approved
    ensures r.status == Rejected <==> !approved
    ensures r.reviewedBy == Some(reviewerId) && r.reviewedAt == Some(now)
    ensures feedback.Some? && feedback.value != [] ==> r.reviewFeedback == feedback
    ensures feedback.None? || feedback.value == [] ==> r.reviewFeedback == p.reviewFeedback
    ensures r.id == p.id && r.userId == p.userId && r.organizationId == p.organizationId && r.details == p.details
  {
    p.(status := if approved then Approved else Rejected,
       reviewedBy := Some(reviewerId),
       reviewedAt := Some(now),
       reviewFeedback := if feedback.Some? && feedback.value != [] then feedback else p.reviewFeedback)
  }

  /** A second review replaces the first: only the last decision, reviewer and time remain. */
  lemma LastApprovalWins(p: Profile, a1: bool, r1: nat, f1: Option<string>, t1: int,
                         a2: bool, r2: nat, f2: Option<string>, t2: int)
    requires f2.Some? && f2.value != []
    ensures ApplyApproval(ApplyApproval(p, a1, r1, f1, t1), a2, r2, f2, t2) == ApplyApproval(p, a2, r2, f2, t2)
  {
  }

  // ---------------------------------------------------------------------
  // Service listings and reviews
  // ---------------------------------------------------------------------

  datatype Service = Service(
    id: nat,
    professionalId: nat,
    details: map<string, Value>,
    averageRating: real,
    reviewCount: nat,
    updatedAt: Option<int>)

  datatype Review = Review(id: nat, serviceId: nat, reviewerId: nat, overallRating: int)

  /** The overall ratings of one service's reviews, in table order. */
  function RatingsOf(reviews: seq<Review>, serviceId: nat): (ratings: seq<int>)
    ensures |ratings| <= |reviews|
    ensures forall r :: r in ratings ==> exists i :: 0 <= i < |reviews| && reviews[i].serviceId == serviceId
                                                  && reviews[i].overallRating == r
  {
    if reviews == [] then []
    else
      var before := RatingsOf(reviews[..|reviews| - 1], serviceId);
      var last := reviews[|reviews| - 1];
      if last.serviceId == serviceId then before + [last.overallRating] else before
  }

  /** A review appended for one service adds its rating to that service's list and to no other. */
  lemma RatingsOfAppend(reviews: seq<Review>, r: Review, serviceId: nat)
    ensures RatingsOf(reviews + [r], serviceId)
            == RatingsOf(reviews, serviceId) + (if r.serviceId == serviceId then [r.overallRating] else [])
  {
    assert (reviews + [r])[..|reviews + [r]| - 1] == reviews;
  }

  function Sum(xs: seq<int>): int
  {
    if xs == [] then 0 else Sum(xs[..|xs| - 1]) + xs[|xs| - 1]
  }

  /** `avg(overall_rating)`, and `0.0` when there is no review (the average is `None`). */
  function Mean(xs: seq<int>): real
  {
    if xs == [] then 0.0 else (Sum(xs) as real) / (|xs| as real)
  }

  /** Ratings in 1..5 sum to between their count and five times it. */
  lemma {:induction false} SumBounds(xs: seq<int>)
    requires forall i :: 0 <= i < |xs| ==> 1 <= xs[i] <= 5
    ensures |xs| <= Sum(xs) <= 5 * |xs|
  {
    if xs != [] {
      SumBounds(xs[..|xs| - 1]);
    }
  }

  /** The mean of ratings in 1..5 lies in 1..5 when there is any, and is 0 otherwise. */
  lemma MeanBounds(xs: seq<int>)
    requires forall i :: 0 <= i < |xs| ==> 1 <= xs[i] <= 5
    ensures xs == [] ==> Mean(xs) == 0.0
    ensures xs != [] ==> 1.0 <= Mean(xs) <= 5.0
  {
    if xs != [] {
      SumBounds(xs);
      var n := |xs| as real;
      var s := Sum(xs) as real;
      QuotientBounds(s, n);
      assert Mean(xs) == s / n;
    }
  }

  /** Every review in the table rates 1..5. */
  predicate RatingsInRange(reviews: seq<Review>)
  {
    forall i :: 0 <= i < |reviews| ==> 1 <= reviews[i].overallRating <= 5
  }

  lemma RatingsOfInRange(reviews: seq<Review>, serviceId: nat)
    requires RatingsInRange(reviews)
    ensures forall i :: 0 <= i < |RatingsOf(reviews, serviceId)| ==> 1 <= RatingsOf(reviews, serviceId)[i] <= 5
  {
    var ratings := RatingsOf(reviews, serviceId);
    forall i | 0 <= i < |ratings|
      ensures 1 <= ratings[i] <= 5
    {
      assert ratings[i] in ratings;
    }
  }

  // ---------------------------------------------------------------------
  // Bookings
  // ---------------------------------------------------------------------

  datatype BookingStatus = BookingPending | Confirmed | InProgress | Completed | Cancelled | Disputed

  /** The string value of each `BookingStatusEnum` member. */
  function StatusName(s: BookingStatus): (name: string)
    ensures |name| > 0
  {
    match s
    case BookingPending => "pending"
    case Confirmed => "confirmed"
    case InProgress => "in_progress"
    case Completed => "completed"
    case Cancelled => "cancelled"
    case Disputed => "disputed"
  }

  lemma StatusNameInjective(a: BookingStatus, b: BookingStatus)
    ensures StatusName(a) == StatusName(b) ==> a == b
  {
  }

  datatype Booking = Booking(
    id: nat,
    reference: string,
    clientId: nat,
    professionalId: Option<nat>,
    serviceId: nat,
    details: map<string, Value>,
    status: Option<BookingStatus>,
    notes: Option<string>,
    completedAt: Option<int>,
    updatedAt: Option<int>)

  predicate IsLowerHex(c: char)
  {
    '0' <= c <= '9' || 'a' <= c <= 'f'
  }

  predicate IsUpperHex(c: char)
  {
    '0' <= c <= '9' || 'A' <= c <= 'F'
  }

  /**
   * `f"BK-{uuid.uuid4().hex[:8].upper()}"`: the booking reference built from
   * the 32 lower-case hex digits of a fresh UUID.
   */
  function BookingReference(hex: string): (r: string)
    requires |hex| == 32 && forall i :: 0 <= i < |hex| ==> IsLowerHex(hex[i])
    ensures |r| == 11 && r[..3] == "BK-"
    ensures forall i :: 3 <= i < 11 ==> IsUpperHex(r[i])
    ensures forall i :: 0 <= i < 8 ==> r[3 + i] == UpperChar(hex[i])
  {
    UpperHexDigits(hex[..8]);
    "BK-" + Upper(hex[..8])
  }

  /** Upper-casing lower-case hex digits gives upper-case hex digits. */
  lemma UpperHexDigits(digits: string)
    requires forall i :: 0 <= i < |digits| ==> IsLowerHex(digits[i])
    ensures forall i :: 0 <= i < |digits| ==> IsUpperHex(Upper(digits)[i])
  {
  }

  /** The reference gives back the first eight digits of the UUID, so different digits give different references. */
  lemma ReferenceRecoversDigits(hex: string, other: string)
    requires |hex| == 32 && forall i :: 0 <= i < |hex| ==> IsLowerHex(hex[i])
    requires |other| == 32 && forall i :: 0 <= i < |other| ==> IsLowerHex(other[i])
    ensures Lower(BookingReference(hex)[3..]) == hex[..8]
    ensures BookingReference(hex) == BookingReference(other) <==> hex[..8] == other[..8]
  {
    var r := BookingReference(hex);
    var back := Lower(r[3..]);
    forall i | 0 <= i < 8
      ensures back[i] == hex[i]
    {
      assert r[3..][i] == r[3 + i] == UpperChar(hex[i]);
    }
    if BookingReference(hex) == BookingReference(other) {
      var r2 := BookingReference(other);
      forall i | 0 <= i < 8
        ensures hex[i] == other[i]
      {
        assert r[3 + i] == r2[3 + i];
        assert UpperChar(hex[i]) == UpperChar(other[i]);
      }
      assert hex[..8] == other[..8];
    }
  }

  /**
   * `update_booking_status` on one row: the status is written as given;
   * the notes only when non-empty; `completed_at` is stamped when the new
   * status is completed.
   */
  function ApplyBookingStatus(b: Booking, status: Option<BookingStatus>, notes: Option<string>, now: int)
    : (r: Booking)
    ensures r.status == status && r.updatedAt == Some(now)
    ensures notes.Some? && notes.value != [] ==> r.notes == notes
    ensures notes.None? || notes.value == [] ==> r.notes == b.notes
    ensures status == Some(Completed) ==> r.completedAt == Some(now)
    ensures status != Some(Completed) ==> r.completedAt == b.completedAt
    ensures r.id == b.id && r.reference == b.reference && r.clientId == b.clientId
            && r.professionalId == b.professionalId && r.serviceId == b.serviceId && r.details == b.details
  {
    b.(status := status,
       notes := if notes.Some? && notes.value != [] then notes else b.notes,
       updatedAt := Some(now),
       completedAt := if status.Some? && StatusName(status.value) == "completed" then Some(now) else b.completedAt)
  }

  /** A booking that has been completed once keeps a completion time whatever status it takes later. */
  lemma CompletionIsKept(b: Booking, s1: Option<BookingStatus>, n1: Option<string>, t1: int,
                         s2: Option<BookingStatus>, n2: Option<string>, t2: int)
    requires s1 == Some(Completed)
    ensures ApplyBookingStatus(ApplyBookingStatus(b, s1, n1, t1), s2, n2, t2).completedAt.Some?
  {
  }

  // ---------------------------------------------------------------------
  // The tables
  // ---------------------------------------------------------------------

  class MarketplaceStore {
    var profiles: map<nat, Profile>
    var services: map<nat, Service>
    var bookings: map<nat, Booking>
    var reviews: seq<Review>
    var nextProfileId: nat
    var nextServiceId: nat
    var nextBookingId: nat

    ghost predicate Valid()
      reads this
    {
      (forall k :: k in profiles ==> profiles[k].id == k && k < nextProfileId)
      && (forall k :: k in services ==> services[k].id == k && k < nextServiceId)
      && (forall k :: k in bookings ==> bookings[k].id == k && k < nextBookingId)
      && RatingsInRange(reviews)
      && nextProfileId >= 1 && nextServiceId >= 1 && nextBookingId >= 1
    }

    constructor ()
      ensures Valid()
      ensures profiles == map[] && services == map[] && bookings == map[] && reviews == []
    {
      profiles, services, bookings, reviews := map[], map[], map[], [];
      nextProfileId, nextServiceId, nextBookingId := 1, 1, 1;
    }

    /** `create_professional_profile`: a new profile of the user, waiting for review. */
    method CreateProfessionalProfile(body: map<string, Value>, userId: nat, organizationId: Option<int>)
      returns (p: Profile)
      requires Valid()
      modifies this
      ensures Valid()
      ensures p.id !in old(profiles) && profiles == old(profiles)[p.id := p]
      ensures p.status == Pending && p.userId == userId && p.organizationId == organizationId
      ensures p.details == body && p.reviewedBy.None? && p.reviewedAt.None? && p.reviewFeedback.None?
      ensures services == old(services) && bookings == old(bookings) && reviews == old(reviews)
    {
      p := Profile(nextProfileId, userId, organizationId, body, Pending, None, None, None, None);
      profiles := profiles[p.id := p];
      nextProfileId := nextProfileId + 1;
    }

    /** `update_professional_profile`: the set fields replaced, `None` for a missing id. */
    method UpdateProfessionalProfile(id: nat, body: map<string, Value>, now: int) returns (r: Option<Profile>)
      requires Valid()
      modifies this
      ensures Valid()
      ensures r.None? <==> id !in old(profiles)
      ensures r.None? ==> profiles == old(profiles)
      ensures r.Some? ==> r.value == old(profiles)[id].(details := ApplyFields(old(profiles)[id].details, body,
                                                                              ProfileUpdateFields),
                                                        updatedAt := Some(now))
                          && profiles == old(profiles)[id := r.value]
      ensures services == old(services) && bookings == old(bookings) && reviews == old(reviews)
    {
      if id !in profiles {
        return None;
      }
      var p := profiles[id];
      p := p.(details := ApplyFields(p.details, body, ProfileUpdateFields), updatedAt := Some(now));
      profiles := profiles[id := p];
      r := Some(p);
    }

    /** `approve_professional_profile`: the decision recorded, `None` for a missing id. */
    method ApproveProfessionalProfile(id: nat, approved: bool, reviewerId: nat, feedback: Option<string>, now: int)
      returns (r: Option<Profile>)
      requires Valid()
      modifies this
      ensures Valid()
      ensures r.None? <==> id !in old(profiles)
      ensures r.None? ==> profiles == old(profiles)
      ensures r.Some? ==> r.value == ApplyApproval(old(profiles)[id], approved, reviewerId, feedback, now)
                          && profiles == old(profiles)[id := r.value]
      ensures services == old(services) && bookings == old(bookings) && reviews == old(reviews)
    {
      if id !in profiles {
        return None;
      }
      var p := ApplyApproval(profiles[id], approved, reviewerId, feedback, now);
      profiles := profiles[id := p];
      r := Some(p);
    }

    /** `create_service_listing`: a new listing of the professional, not yet rated. */
    method CreateServiceListing(body: map<string, Value>, professionalId: nat) returns (svc: Service)
      requires Valid()
      modifies this
      ensures Valid()
      ensures svc.id !in old(services) && services == old(services)[svc.id := svc]
      ensures svc.professionalId == professionalId && svc.details == body
      ensures svc.averageRating == 0.0 && svc.reviewCount == 0
      ensures profiles == old(profiles) && bookings == old(bookings) && reviews == old(reviews)
    {
      svc := Service(nextServiceId, professionalId, body, 0.0, 0, None);
      services := services[svc.id := svc];
      nextServiceId := nextServiceId + 1;
    }

    /** `update_service_listing`: the set fields replaced, `None` for a missing id. */
    method UpdateServiceListing(id: nat, body: map<string, Value>, now: int) returns (r: Option<Service>)
      requires Valid()
      modifies this
      ensures Valid()
      ensures r.None? <==> id !in old(services)
      ensures r.None? ==> services == old(services)
      ensures r.Some? ==> r.value == old(services)[id].(details := ApplyFields(old(services)[id].details, body,
                                                                              ServiceUpdateFields),
                                                        updatedAt := Some(now))
                          && services == old(services)[id := r.value]
      ensures profiles == old(profiles) && bookings == old(bookings) && reviews == old(reviews)
    {
      if id !in services {
        return None;
      }
      var svc := services[id];
      svc := svc.(details := ApplyFields(svc.details, body, ServiceUpdateFields), updatedAt := Some(now));
      services := services[id := svc];
      r := Some(svc);
    }

    /** `delete_service_listing`: true, and the row gone, exactly when it existed. */
    method DeleteServiceListing(id: nat) returns (deleted: bool)
      requires Valid()
      modifies this
      ensures Valid()
      ensures deleted <==> id in old(services)
      ensures services == old(services) - {id}
      ensures profiles == old(profiles) && bookings == old(bookings) && reviews == old(reviews)
    {
      deleted := id in services;
      services := services - {id};
    }

    /**
     * `create_booking`: a pending booking of the client with a fresh
     * reference; the professional is not filled in.
     */
    method CreateBooking(body: map<string, Value>, serviceId: nat, clientId: nat, hex: string)
      returns (b: Booking)
      requires Valid()
      requires |hex| == 32 && forall i :: 0 <= i < |hex| ==> IsLowerHex(hex[i])
      modifies this
      ensures Valid()
      ensures b.id !in old(bookings) && bookings == old(bookings)[b.id := b]
      ensures b.reference == BookingReference(hex) && |b.reference| == 11
      ensures b.status == Some(BookingPending) && b.clientId == clientId && b.serviceId == serviceId
      ensures b.professionalId.None? && b.completedAt.None?
      ensures profiles == old(profiles) && services == old(services) && reviews == old(reviews)
    {
      b := Booking(nextBookingId, BookingReference(hex), clientId, None, serviceId, body, Some(BookingPending),
                   None, None, None);
      bookings := bookings[b.id := b];
      nextBookingId := nextBookingId + 1;
    }

    /** `update_booking_status`: the new status written, `None` for a missing id. */
    method UpdateBookingStatus(id: nat, status: Option<BookingStatus>, notes: Option<string>, now: int)
      returns (r: Option<Booking>)
      requires Valid()
      modifies this
      ensures Valid()
      ensures r.None? <==> id !in old(bookings)
      ensures r.None? ==> bookings == old(bookings)
      ensures r.Some? ==> r.value == ApplyBookingStatus(old(bookings)[id], status, notes, now)
                          && bookings == old(bookings)[id := r.value]
      ensures profiles == old(profiles) && services == old(services) && reviews == old(reviews)
    {
      if id !in bookings {
        return None;
      }
      var b := ApplyBookingStatus(bookings[id], status, notes, now);
      bookings := bookings[id := b];
      r := Some(b);
    }

    /**
     * `_update_service_rating`: the service, when it exists, takes the mean
     * rating of its reviews (0 with none) and their number.
     */
    method UpdateServiceRating(serviceId: nat)
      requires Valid()
      modifies this
      ensures Valid()
      ensures serviceId in old(services) ==>
                services == old(services)[serviceId := old(services)[serviceId].(
                              averageRating := Mean(RatingsOf(reviews, serviceId)),
                              reviewCount := |RatingsOf(reviews, serviceId)|)]
      ensures serviceId !in old(services) ==> services == old(services)
      ensures serviceId in services ==> (services[serviceId].reviewCount == 0 <==> services[serviceId].averageRating == 0.0)
      ensures serviceId in services && services[serviceId].reviewCount > 0 ==>
                1.0 <= services[serviceId].averageRating <= 5.0
      ensures profiles == old(profiles) && bookings == old(bookings) && reviews == old(reviews)
    {
      var ratings := RatingsOf(reviews, serviceId);
      RatingsOfInRange(reviews, serviceId);
      MeanBounds(ratings);
      if serviceId in services {
        services := services[serviceId := services[serviceId].(averageRating := Mean(ratings),
                                                                 reviewCount := |ratings|)];
      }
    }

    /** `create_service_review`: the review appended, then the service's rating recomputed. */
    method CreateServiceReview(serviceId: nat, reviewerId: nat, overallRating: int) returns (rv: Review)
      requires Valid()
      requires 1 <= overallRating <= 5
      modifies this
      ensures Valid()
      ensures reviews == old(reviews) + [rv]
      ensures rv.serviceId == serviceId && rv.reviewerId == reviewerId && rv.overallRating == overallRating
      ensures RatingsOf(reviews, serviceId) == RatingsOf(old(reviews), serviceId) + [overallRating]
      ensures services.Keys == old(services).Keys
      ensures serviceId in old(services) ==>
                services[serviceId].reviewCount == |RatingsOf(old(reviews), serviceId)| + 1
                && services[serviceId].averageRating == Mean(RatingsOf(reviews, serviceId))
                && 1.0 <= services[serviceId].averageRating <= 5.0
      ensures serviceId !in old(services) ==> services == old(services)
      ensures profiles == old(profiles) && bookings == old(bookings)
    {
      rv := Review(|reviews| + 1, serviceId, reviewerId, overallRating);
      RatingsOfAppend(reviews, rv, serviceId);
      reviews := reviews + [rv];
      UpdateServiceRating(serviceId);
    }
  }
}
