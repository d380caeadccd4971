/**
 * The marketplace endpoints (backend/app/api/v1/marketplace.py): who may
 * create, edit and approve profiles, who may edit and delete a listing,
 * who may see a booking and which party may move it to which status.
 */
module MarketplaceApi {
  import opened Common
  import opened UserModel
  import opened Deps
  import opened Marketplace

  /** Only a user whose role is `professional` may open a profile or a listing (403 otherwise). */
  function ProfessionalGate(caller: User): (r: Option<HttpError>)
    ensures r.None? <==> caller.role == Professional
    ensures r.Some? ==> r.value == Forbidden
  {
    if RoleName(caller.role) != "professional" then Some(Forbidden) else None
  }

  /** `create_profile`: a professional's application, pending review. */
  method CreateProfile(s: MarketplaceStore, caller: User, body: map<string, Value>) returns (r: Result<Profile>)
    requires s.Valid()
    modifies s
    ensures s.Valid()
    ensures r.Fail? <==> caller.role != Professional
    ensures r.Fail? ==> r.error == Forbidden && s.profiles == old(s.profiles)
    ensures r.Ok? ==> r.value.status == ProfileStatus.Pending && r.value.userId == caller.id
                      && r.value.organizationId == caller.organizationId
                      && s.profiles == old(s.profiles)[r.value.id := r.value]
    ensures s.services == old(s.services) && s.bookings == old(s.bookings) && s.reviews == old(s.reviews)
  {
    var denied := ProfessionalGate(caller);
    if denied.Some? {
      return Fail(denied.value);
    }
    var p := s.CreateProfessionalProfile(body, caller.id, caller.organizationId);
    r := Ok(p);
  }

  /** `get_profile` and `get_service`: the row, or 404. */
  function Find<T>(table: map<nat, T>, id: nat): (r: Result<T>)
    ensures r.Ok? <==> id in table
    ensures r.Ok? ==> r.value == table[id]
    ensures r.Fail? ==> r.error == NotFound
  {
    if id in table then Ok(table[id]) else Fail(NotFound)
  }

  /** A profile may be edited by its owner or by an admin role. */
  predicate CanEditProfile(p: Profile, caller: User)
  {
    p.userId == caller.id || HasAdminRoleName(caller.role)
  }

  /** `update_profile`: 404 for a missing profile, then 403 unless owner or admin. */
  method UpdateProfile(s: MarketplaceStore, caller: User, id: nat, body: map<string, Value>, now: int)
    returns (r: Result<Profile>)
    requires s.Valid()
    modifies s
    ensures s.Valid()
    ensures id !in old(s.profiles) ==> r == Fail(NotFound)
    ensures id in old(s.profiles) && !CanEditProfile(old(s.profiles)[id], caller) ==> r == Fail(Forbidden)
    ensures r.Fail? ==> s.profiles == old(s.profiles)
    ensures r.Ok? <==> id in old(s.profiles) && CanEditProfile(old(s.profiles)[id], caller)
    ensures r.Ok? ==> r.value.details == ApplyFields(old(s.profiles)[id].details, body, ProfileUpdateFields)
                      && r.value.status == old(s.profiles)[id].status
                      && s.profiles == old(s.profiles)[id := r.value]
    ensures s.services == old(s.services) && s.bookings == old(s.bookings) && s.reviews == old(s.reviews)
  {
    var found := Find(s.profiles, id);
    if found.Fail? {
      return Fail(found.error);
    }
    if !CanEditProfile(found.value, caller) {
      return Fail(Forbidden);
    }
    var updated := s.UpdateProfessionalProfile(id, body, now);
    r := Ok(updated.value);
  }

  /** Editing a profile never changes its review status: only approval does. */
  lemma ProfileEditKeepsStatus(p: Profile, body: map<string, Value>, now: int)
    ensures p.(details := ApplyFields(p.details, body, ProfileUpdateFields), updatedAt := Some(now)).status
            == p.status
  {
  }

  /**
   * `approve_profile`: admin roles only (403). The handler does not check
   * that the profile exists; the `None` it then returns fails the response
   * model (500).
   */
  method ApproveProfile(s: MarketplaceStore, caller: User, id: nat, approved: bool, feedback: Option<string>,
                        now: int)
    returns (r: Result<Profile>)
    requires s.Valid()
    modifies s
    ensures s.Valid()
    ensures !IsAdmin(caller.role) ==> r == Fail(Forbidden)
    ensures IsAdmin(caller.role) && id !in old(s.profiles) ==> r == Fail(ServerError)
    ensures r.Fail? ==> s.profiles == old(s.profiles)
    ensures r.Ok? <==> IsAdmin(caller.role) && id in old(s.profiles)
    ensures r.Ok? ==> r.value == ApplyApproval(old(s.profiles)[id], approved, caller.id, feedback, now)
                      && s.profiles == old(s.profiles)[id := r.value]
    ensures s.services == old(s.services) && s.bookings == old(s.bookings) && s.reviews == old(s.reviews)
  {
    var gate := AdminRoleNameGate(caller);
    if gate.Fail? {
      return Fail(gate.error);
    }
    var approvedProfile := s.ApproveProfessionalProfile(id, approved, caller.id, feedback, now);
    if approvedProfile.None? {
      return Fail(ServerError);
    }
    r := Ok(approvedProfile.value);
  }

  /** `get_pending_profiles`: admin roles only; the caller's organization's profiles waiting for review. */
  function PendingProfiles(profiles: map<nat, Profile>, caller: User): (r: Result<set<nat>>)
    ensures r.Fail? <==> !IsAdmin(caller.role)
    ensures r.Fail? ==> r.error == Forbidden
    ensures r.Ok? ==> forall id :: id in r.value <==> (id in profiles && profiles[id].status == ProfileStatus.Pending
                                                       && profiles[id].organizationId == caller.organizationId)
  {
    var gate := AdminRoleNameGate(caller);
    if gate.Fail? then Fail(gate.error)
    else Ok(set id | id in profiles && profiles[id].status == ProfileStatus.Pending
                     && profiles[id].organizationId == caller.organizationId)
  }

  /** `create_service`: a professional's new listing. */
  method CreateService(s: MarketplaceStore, caller: User, body: map<string, Value>) returns (r: Result<Service>)
    requires s.Valid()
    modifies s
    ensures s.Valid()
    ensures r.Fail? <==> caller.role != Professional
    ensures r.Fail? ==> r.error == Forbidden && s.services == old(s.services)
    ensures r.Ok? ==> r.value.professionalId == caller.id && r.value.reviewCount == 0
                      && s.services == old(s.services)[r.value.id := r.value]
    ensures s.profiles == old(s.profiles) && s.bookings == old(s.bookings) && s.reviews == old(s.reviews)
  {
    var denied := ProfessionalGate(caller);
    if denied.Some? {
      return Fail(denied.value);
    }
    var svc := s.CreateServiceListing(body, caller.id);
    r := Ok(svc);
  }

  /** The existence and ownership checks shared by `update_service` and `delete_service`: 404, then 403. */
  function ServiceOwnerCheck(services: map<nat, Service>, caller: User, id: nat): (r: Option<HttpError>)
    ensures r.None? <==> id in services && services[id].professionalId == caller.id
    ensures id !in services ==> r == Some(NotFound)
    ensures id in services && services[id].professionalId != caller.id ==> r == Some(Forbidden)
  {
    if id !in services then Some(NotFound)
    else if services[id].professionalId != caller.id then Some(Forbidden)
    else None
  }

  /** `update_service`: the owner's listing, with the set fields replaced. */
  method UpdateService(s: MarketplaceStore, caller: User, id: nat, body: map<string, Value>, now: int)
    returns (r: Result<Service>)
    requires s.Valid()
    modifies s
    ensures s.Valid()
    ensures r.Fail? <==> ServiceOwnerCheck(old(s.services), caller, id).Some?
    ensures r.Fail? ==> r.error == ServiceOwnerCheck(old(s.services), caller, id).value
                        && s.services == old(s.services)
    ensures r.Ok? ==> r.value.details == ApplyFields(old(s.services)[id].details, body, ServiceUpdateFields)
                      && r.value.professionalId == caller.id
                      && s.services == old(s.services)[id := r.value]
    ensures s.profiles == old(s.profiles) && s.bookings == old(s.bookings) && s.reviews == old(s.reviews)
  {
    var denied := ServiceOwnerCheck(s.services, caller, id);
    if denied.Some? {
      return Fail(denied.value);
    }
    var updated := s.UpdateServiceListing(id, body, now);
    r := Ok(updated.value);
  }

  /**
   * `delete_service`: the owner's listing is removed. Its existence was
   * checked just before, so the delete always reports success and the
   * handler's 400 is never returned.
   */
  method DeleteService(s: MarketplaceStore, caller: User, id: nat) returns (r: Result<()>)
    requires s.Valid()
    modifies s
    ensures s.Valid()
    ensures r.Fail? <==> ServiceOwnerCheck(old(s.services), caller, id).Some?
    ensures r.Fail? ==> r.error == ServiceOwnerCheck(old(s.services), caller, id).value
                        && s.services == old(s.services)
    ensures r.Ok? ==> id in old(s.services) && s.services == old(s.services) - {id}
    ensures s.profiles == old(s.profiles) && s.bookings == old(s.bookings) && s.reviews == old(s.reviews)
  {
    var denied := ServiceOwnerCheck(s.services, caller, id);
    if denied.Some? {
      return Fail(denied.value);
    }
    var deleted := s.DeleteServiceListing(id);
    r := Ok(());
  }

  /** `create_booking_request`: any signed-in user books, as the client. */
  method CreateBookingRequest(s: MarketplaceStore, caller: User, body: map<string, Value>, serviceId: nat,
                              hex: string)
    returns (b: Booking)
    requires s.Valid()
    requires |hex| == 32 && forall i :: 0 <= i < |hex| ==> IsLowerHex(hex[i])
    modifies s
    ensures s.Valid()
    ensures b.clientId == caller.id && b.status == Some(BookingPending) && b.reference == BookingReference(hex)
    ensures s.bookings == old(s.bookings)[b.id := b] && b.id !in old(s.bookings)
    ensures s.profiles == old(s.profiles) && s.services == old(s.services) && s.reviews == old(s.reviews)
  {
    b := s.CreateBooking(body, serviceId, caller.id, hex);
  }

  /** A party to a booking: its client or its professional. */
  predicate IsParty(b: Booking, userId: nat)
  {
    b.clientId == userId || b.professionalId == Some(userId)
  }

  /** `get_booking`: 404 for a missing booking, 403 for anyone but its parties. */
  function GetBooking(bookings: map<nat, Booking>, caller: User, id: nat): (r: Result<Booking>)
    ensures r.Ok? <==> id in bookings && IsParty(bookings[id], caller.id)
    ensures id !in bookings ==> r == Fail(NotFound)
    ensures id in bookings && !IsParty(bookings[id], caller.id) ==> r == Fail(Forbidden)
    ensures r.Ok? ==> r.value == bookings[id]
  {
    if id !in bookings then Fail(NotFound)
    else if bookings[id].clientId != caller.id && bookings[id].professionalId != Some(caller.id) then Fail(Forbidden)
    else Ok(bookings[id])
  }

  /** The statuses the handler reserves for the professional, compared by name. */
  predicate ProfessionalOnlyStatus(status: Option<BookingStatus>)
  {
    status.Some? && (StatusName(status.value) == "accepted" || StatusName(status.value) == "rejected")
  }

  /** Neither "accepted" nor "rejected" is a `BookingStatusEnum` value, so that check never refuses anyone. */
  lemma ProfessionalOnlyStatusNeverHolds(status: Option<BookingStatus>)
    ensures !ProfessionalOnlyStatus(status)
  {
    if status.Some? {
      match status.value
      case BookingPending =>
      case Confirmed =>
      case InProgress =>
      case Completed =>
      case Cancelled =>
      case Disputed =>
    }
  }

  /** The party checks of `update_booking`: accept/reject by the professional, cancel by the client. */
  function BookingStatusCheck(b: Booking, caller: User, status: Option<BookingStatus>): (r: Option<HttpError>)
    ensures r.Some? ==> r.value == Forbidden
    ensures status == Some(Cancelled) && b.clientId != caller.id ==> r.Some?
    ensures r.Some? ==> (ProfessionalOnlyStatus(status) && b.professionalId != Some(caller.id))
                        || (status == Some(Cancelled) && b.clientId != caller.id)
  {
    if ProfessionalOnlyStatus(status) && b.professionalId != Some(caller.id) then Some(Forbidden)
    else if status.Some? && StatusName(status.value) == "cancelled" && b.clientId != caller.id then Some(Forbidden)
    else None
  }

  /** Only cancelling is refused, and only to someone other than the client; any user may set every other status. */
  lemma OnlyCancelIsGuarded(b: Booking, caller: User, status: Option<BookingStatus>)
    ensures BookingStatusCheck(b, caller, status).Some? <==> status == Some(Cancelled) && b.clientId != caller.id
  {
    ProfessionalOnlyStatusNeverHolds(status);
  }

  /** `update_booking`: 404 for a missing booking, the party checks, then the status written. */
  method UpdateBooking(s: MarketplaceStore, caller: User, id: nat, status: Option<BookingStatus>,
                       notes: Option<string>, now: int)
    returns (r: Result<Booking>)
    requires s.Valid()
    modifies s
    ensures s.Valid()
    ensures id !in old(s.bookings) ==> r == Fail(NotFound)
    ensures id in old(s.bookings) && BookingStatusCheck(old(s.bookings)[id], caller, status).Some? ==>
              r == Fail(Forbidden)
    ensures r.Fail? ==> s.bookings == old(s.bookings)
    ensures r.Ok? <==> id in old(s.bookings) && BookingStatusCheck(old(s.bookings)[id], caller, status).None?
    ensures r.Ok? ==> r.value == ApplyBookingStatus(old(s.bookings)[id], status, notes, now)
                      && s.bookings == old(s.bookings)[id := r.value]
    ensures s.profiles == old(s.profiles) && s.services == old(s.services) && s.reviews == old(s.reviews)
  {
    if id !in s.bookings {
      return Fail(NotFound);
    }
    var denied := BookingStatusCheck(s.bookings[id], caller, status);
    if denied.Some? {
      return Fail(denied.value);
    }
    var updated := s.UpdateBookingStatus(id, status, notes, now);
    r := Ok(updated.value);
  }

  /** `ProfessionalReviewBase.overall_rating`: 1..5, else 422. */
  function ValidateRating(overallRating: int): (r: Option<HttpError>)
    ensures r.None? <==> 1 <= overallRating <= 5
    ensures r.Some? ==> r.value == Unprocessable
  {
    if overallRating < 1 || overallRating > 5 then Some(Unprocessable) else None
  }

  /** `create_review`: a rating in range is stored and the service's mean and count recomputed. */
  method CreateReview(s: MarketplaceStore, caller: User, serviceId: nat, overallRating: int) returns (r: Result<Review>)
    requires s.Valid()
    modifies s
    ensures s.Valid()
    ensures r.Fail? <==> ValidateRating(overallRating).Some?
    ensures r.Fail? ==> r.error == Unprocessable && s.reviews == old(s.reviews) && s.services == old(s.services)
    ensures r.Ok? ==> s.reviews == old(s.reviews) + [r.value] && r.value.reviewerId == caller.id
                      && RatingsOf(s.reviews, serviceId) == RatingsOf(old(s.reviews), serviceId) + [overallRating]
    ensures r.Ok? && serviceId in old(s.services) ==>
              serviceId in s.services && s.services[serviceId].averageRating == Mean(RatingsOf(s.reviews, serviceId))
              && s.services[serviceId].reviewCount == |RatingsOf(s.reviews, serviceId)|
    ensures s.profiles == old(s.profiles) && s.bookings == old(s.bookings)
  {
    var invalid := ValidateRating(overallRating);
    if invalid.Some? {
      return Fail(invalid.value);
    }
    var rv := s.CreateServiceReview(serviceId, caller.id, overallRating);
    r := Ok(rv);
  }

  /**
   * `create_review` as the code stands: `create_service_review` inserts the
   * review without the `professional_id` and `booking_id` its table requires
   * and then reads `review.service_id`, which the request body does not
   * declare. A rating in range therefore ends in 500 and no review is kept.
   */
  function CreateReviewAsWritten(overallRating: int): (r: Result<Review>)
    ensures r.Fail?
    ensures ValidateRating(overallRating).Some? ==> r == Fail(Unprocessable)
    ensures ValidateRating(overallRating).None? ==> r == Fail(ServerError)
  {
    var invalid := ValidateRating(overallRating);
    if invalid.Some? then Fail(invalid.value) else Fail(ServerError)
  }

  /** A rating in range is stored by the intended handler; as written the same request fails. */
  method ReviewDiscrepancy(s: MarketplaceStore, caller: User, serviceId: nat, overallRating: int)
    returns (intended: Result<Review>, asWritten: Result<Review>)
    requires s.Valid() && 1 <= overallRating <= 5
    modifies s
    ensures intended.Ok? && intended.value.reviewerId == caller.id
    ensures asWritten == Fail(ServerError)
  {
    asWritten := CreateReviewAsWritten(overallRating);
    intended := CreateReview(s, caller, serviceId, overallRating);
  }
}
