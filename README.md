# GrantThrive core, modelled in Dafny

GrantThrive is a grant management platform for Australian councils.
Councils publish grant programs, community members apply, and reviewers assess and decide.
Around that flow sit a community forum, shared resources, gamification, notifications, a professional marketplace, success stories and networking events.
Scripts gather public grant data from grants.gov.au for a map of where funding goes.

This project models the core of that system in Dafny and proves what its handlers and scripts promise.

Modules, one per source component:

- `Common`, `Text`: the shared Option/Result types, HTTP error values, counting and summing helpers, and text helpers (lower case, strip, contains, split, join).
- `UserModel`, `UserSchemas`, `UserCrud`, `Deps`, `UsersApi`: users, roles and statuses; the registration and update schemas; the user store; the route dependencies that gate on role and organization; the user endpoints.
- `GrantModel`, `GrantSchemas`, `Slug`, `GrantCrud`, `GrantsApi`, `ApplicationsApi`: grants and applications in the FastAPI backend, covering the model's properties, schema limits, slugs and references, the store, and the grant and application endpoints with their state machines.
- `FeatureToggles`, `FeatureTogglesApi`: per-organization feature switches, their defaults and their endpoints.
- `Gamification`, `GamificationApi`: points, levels, streaks, achievements and leaderboards.
- `Community`, `ForumsApi`, `Resources`, `ResourcesApi`: forum categories, topics, posts and follows; the resource library with uploads, downloads, likes and ratings.
- `Notifications`, `NotificationsApi`: notification delivery, preferences, quiet hours, read state and statistics.
- `Marketplace`, `MarketplaceApi`: professional profiles, service listings, bookings and reviews.
- `SuccessStoriesApi`, `NetworkingApi`: the story and networking endpoints' gates and statistics.
- `LegacyModel`, `LegacyGrants`, `LegacyApplications`: the legacy Flask backend (backend/src), with JSON request bodies, Python truthiness and `float`/date conversions that may raise.
- `GrantDataProcessor`, `GrantScraper`, `EnhancedMapping`: the data scripts, covering keyword categorisation, size bands, coordinates, mapping summaries, the scraper's CSV export and statistics, and map markers and region clusters.
- `GrantWizard`, `AppRoutes`: the grant creation wizard's steps, validation and list editing; the front end's route guards and session state.

Stores whose rows the source changes in place are classes holding maps from id to record. Their handlers are methods that modify the store and state its whole new state. Pure checks and computations are functions, with lemmas relating them. Loops in the source are methods with loop invariants, each proved against a specification function. Clock readings, generated ids and tokens, the current user and the outcomes of calls into code outside the model are parameters.

Where the v1 endpoints compare the `UserRole` enum with role-name strings, the model states the intended comparison on the role's stored name. Read literally, the comparison refuses every user.

## Model

| member | source | states |
|---|---|---|
| UserModel.RoleName | backend/app/models/user.py:12-18 | every role has a non-empty stored name |
| UserModel.RoleNameInjective | backend/app/models/user.py:12-18 | no two roles share a stored name, so comparing names compares roles |
| UserModel.NewUser | backend/app/models/user.py:29-56 | a new row keeps the given id, email, role and organization and takes the column defaults: pending, active, unverified, never logged in |
| UserModel.FullName | backend/app/models/user.py:75-78 | the full name is the first name, one space, then the last name |
| UserModel.RoleClasses | backend/app/models/user.py:80-100 | managing grants is exactly being an admin or a client user; only a client admin is both admin and client user; no role both applies and manages, or applies and provides services, or provides services and manages |
| UserModel.AdminRoleNameIsAdmin | backend/app/api/v1/feature_toggles.py:30-31 | the role-name check against "client_admin" and "super_admin" admits exactly the roles `is_admin` admits |
| UserSchemas.ValidatePassword | backend/app/schemas/user.py:28-33 | a password passes exactly when it has at least 8 characters and is then kept as given; otherwise the request is refused as unprocessable |
| UserSchemas.EffectiveRole | backend/app/schemas/user.py:22-25 | a new user without a role becomes an applicant; a given role is kept |
| UserSchemas.ValidateUserCreate | backend/app/schemas/user.py:22-33 | apart from the e-mail check, which is not modelled, a registration is accepted unchanged exactly when its password has at least 8 characters |
| UserSchemas.ValidateResetConfirm | backend/app/schemas/user.py:98-108 | a reset confirmation is accepted unchanged exactly when its new password has at least 8 characters |
| UserSchemas.ValidateChangePassword | backend/app/schemas/user.py:110-120 | a password change is accepted unchanged exactly when its new password has at least 8 characters |
| Deps.CurrentUser | backend/app/api/deps.py:19-56 | the caller is the user named by the token's subject, provided that user exists and is active; every other case is 401 |
| Deps.OptionalCurrentUser | backend/app/api/deps.py:138-162 | once a bearer header was sent, the optional lookup yields a user exactly when the strict lookup would succeed, and the same user; every failure is anonymous |
| Deps.ApplyGate | backend/app/api/deps.py:59-135 | a role gate lets the caller through unchanged exactly when its role is one the gate admits, and refuses with 403 otherwise |
| Deps.ClientGateRefusesSuperAdmin | backend/app/api/deps.py:68-108 | the client-user gate refuses a super admin while the admin gate admits one |
| Deps.CheckOrganizationAccess | backend/app/api/deps.py:165-181 | a super admin reaches every organization, a client user only their own, everyone else none |
| Deps.RequireOrganizationAccess | backend/app/api/deps.py:184-198 | 403 exactly when the organization check fails; otherwise the caller is returned |
| Deps.NoAccessOutsideStaff | backend/app/api/deps.py:165-198 | applicants and professionals never reach an organization |
| Deps.AdminRoleNameGate | backend/app/api/v1/feature_toggles.py:30-34 | the management endpoints open exactly for admin roles and refuse everyone else with 403 |
| UserCrud.UserByEmail | backend/app/crud/user.py:18-20 | the lookup by email finds a user exactly when some stored user has that email, and returns that user |
| UserCrud.Authenticate | backend/app/crud/user.py:111-120 | authentication succeeds only for the user with that email, only when the password matches and the account is active |
| UserCrud.DeactivatedCannotAuthenticate | backend/app/crud/user.py:111-120 | after deactivation a user never authenticates, whatever the password |
| UserCrud.ApplyUserUpdate | backend/app/crud/user.py:81-93 | a profile update writes the supplied profile fields only; id, email, role, status, flags, organization, password and last login are kept |
| UserCrud.ProfileUpdateKeepsPrivileges | backend/app/crud/user.py:81-93 | a profile update cannot change the role or the organization, and applying it twice equals applying it once |
| UserCrud.ApplyAdminUpdate | backend/app/crud/user.py:96-108 | an admin update writes the supplied role, status, flags and organization and keeps identity, name, password and last login |
| UserCrud.Deactivate | backend/app/crud/user.py:148-158 | deactivation makes the row inactive with status INACTIVE and keeps identity, role, organization, verification and password |
| UserCrud.VerifyEmail | backend/app/crud/user.py:135-145 | verification marks the row verified, clears its token and keeps everything else that matters |
| UserCrud.DeactivateAndVerifyIdempotent | backend/app/crud/user.py:135-158 | deactivating or verifying a second time changes nothing further |
| UserCrud.UserStore.UpdateUser | backend/app/crud/user.py:81-93 | a missing id gives nothing and no change; otherwise only that row changes, to its profile update |
| UserCrud.UserStore.AdminUpdateUser | backend/app/crud/user.py:96-108 | a missing id gives nothing and no change; otherwise only that row changes, to its admin update |
| UserCrud.UserStore.DeactivateUser | backend/app/crud/user.py:148-158 | a missing id gives nothing and no change; otherwise only that row changes, to its deactivated form |
| UserCrud.UserStore.VerifyUserEmail | backend/app/crud/user.py:135-145 | a missing id gives nothing and no change; otherwise only that row changes, to its verified form |
| UserCrud.UserStore.UpdateLastLogin | backend/app/crud/user.py:185-198 | a missing id gives nothing and no change; otherwise only that row's last login changes, to now |
| UsersApi.SelectUsers | backend/app/crud/user.py:28-56 | a user is listed exactly when it matches every filter given (role, status, organization, search) |
| UsersApi.CountUsers | backend/app/crud/user.py:161-178 | a user is counted exactly when it matches the count's filters |
| UsersApi.PinnedQuery | backend/app/api/v1/users.py:82-84 | a super admin's filters are kept; anyone else has the organization filter replaced by their own organization |
| UsersApi.ListUsers | backend/app/api/v1/users.py:66-109 | non-admins get 403 and bad paging 422; otherwise the listed users are those matching the pinned filters, the total counts them, and page, per-page and pages follow from skip and limit |
| UsersApi.ListingPinnedToOwnOrganization | backend/app/api/v1/users.py:82-109 | a client admin with an organization only ever lists users of that organization, whatever filter was asked for, and never more than the total |
| UsersApi.UnaffiliatedAdminIsNotPinned | backend/app/api/v1/users.py:82-84 | a client admin without an organization gets no organization filter at all |
| UsersApi.GetUserById | backend/app/api/v1/users.py:112-137 | non-admins get 403, a missing user 404, a user of another organization 403 for a client admin; otherwise the user |
| UsersApi.ForeignUserIsForbidden | backend/app/api/v1/users.py:130-135 | a client admin asking for a user of another organization gets 403 |
| UsersApi.AdminUpdateCheck | backend/app/api/v1/users.py:140-173 | an admin update passes the same guards as a read, and promoting to super admin additionally needs a super admin |
| UsersApi.OnlySuperAdminGrantsSuperAdmin | backend/app/api/v1/users.py:167-172 | only a super admin can make someone a super admin; a client admin is refused with 403 even within their organization |
| UsersApi.AdminUpdateUserById | backend/app/api/v1/users.py:140-175 | a refused update changes nothing and returns the guard's error; an accepted one writes the admin update to that row only |
| UsersApi.DeactivateCheck | backend/app/api/v1/users.py:178-216 | the deactivation guards in order: the read guards, then 403 for a super admin target, then 400 for oneself |
| UsersApi.DeactivationGuards | backend/app/api/v1/users.py:204-216 | no one can deactivate a super admin or themselves; a super admin deactivating themselves hits the 403 rule first |
| UsersApi.DeactivateUserById | backend/app/api/v1/users.py:178-218 | fails exactly when the deactivation check refuses, with its error and no change; an accepted one deactivates that row only and answers no user |
| UsersApi.UpdateMyProfile | backend/app/api/v1/users.py:48-63 | the caller's own row takes the profile update; a vanished row gives 404 and no change |
| UsersApi.OrganizationUsers | backend/app/api/v1/users.py:221-232 | 403 without organization access; otherwise exactly the users of that organization |
| UsersApi.GetUserStats | backend/app/api/v1/users.py:235-262 | non-admins get 403; active and pending counts never exceed the total; the role counts add up to the total; only a super admin sees the super-admin count |
| UsersApi.StatusCountsBounded | backend/app/api/v1/users.py:244-255 | active and pending counts never exceed the organization's user count |
| UsersApi.RoleCountsPartition | backend/app/api/v1/users.py:244-262 | the five role counts split the counted users exactly |
| UsersApi.UnfilteredCountIsEveryone | backend/app/crud/user.py:161-178 | without an organization filter every stored user is counted |
| GrantModel.RemainingFunding | backend/app/models/grant.py:122-125 | what remains plus what is allocated is the total funding; it is non-negative exactly when the allocation does not exceed the total |
| GrantModel.ApplicationsOf | backend/app/models/grant.py:155 | a grant's applications are exactly the rows that point at it |
| GrantModel.ApplicationCount | backend/app/models/grant.py:127-130 | the count is zero exactly when no application points at the grant |
| GrantModel.ApplicationCountInsert | backend/app/models/grant.py:127-130 | attaching one new application raises its grant's count by one and leaves every other grant's count alone |
| GrantModel.ApplicationCountUpdate | backend/app/models/grant.py:127-130 | rewriting an application without moving it keeps every grant's count |
| GrantModel.EditableAndSubmitted | backend/app/models/grant.py:184-192 | an application is both editable and submitted exactly when changes were requested |
| GrantModel.NewGrant | backend/app/models/grant.py:48-107 | a new grant is a non-featured draft with nothing allocated and no views, keeping the given id, slug and organization, and it is not open |
| GrantModel.NewApplication | backend/app/models/grant.py:133-178 | a new application is an editable, unsubmitted, unreviewed draft with the given id, grant and applicant |
| GrantModel.ReferenceNumber | backend/app/models/grant.py:194-198 | a reference starts with "GT" followed only by digits |
| GrantModel.ReferenceRoundTrip | backend/app/models/grant.py:194-198 | for a four-digit year, a grant id below 10^4 and an id below 10^6 the reference has 16 characters and decodes back to year, grant id and id |
| GrantModel.ReferenceInjective | backend/app/models/grant.py:194-198 | different application ids of one grant and year never share a reference number |
| GrantSchemas.StatusUpdate | backend/app/api/v1/grants.py:352 | the publish and close endpoints build an update that sets the status and nothing else |
| GrantSchemas.ValidateCloseDate | backend/app/schemas/grant.py:42-48 | the close date is accepted exactly when it is strictly after the open date, otherwise 422 |
| GrantSchemas.ValidateAmount | backend/app/schemas/grant.py:141-145 | a requested amount is accepted exactly when it is positive, otherwise 422 |
| GrantSchemas.ValidateScore | backend/app/schemas/grant.py:212-216 | a score is accepted exactly when it is absent or within 0..100, otherwise 422 |
| GrantSchemas.ValidateGrantCreate | backend/app/schemas/grant.py:38-48 | a grant body is admitted unchanged exactly when its close date follows its open date |
| GrantSchemas.ValidateApplicationCreate | backend/app/schemas/grant.py:136-145 | an application body is admitted unchanged exactly when its amount is positive |
| GrantSchemas.ValidateReview | backend/app/schemas/grant.py:204-216 | a review body is admitted unchanged exactly when its score is admissible |
| GrantSchemas.ReviewAcceptsAnyStatus | backend/app/schemas/grant.py:204-216 | any status, draft included, passes review validation when the score is admissible |
| Slug.Filter | backend/app/crud/grant.py:81 | the filter keeps only ASCII letters and digits, whitespace (every character Python counts as whitespace) and '-', drops nothing else, and keeps a string that has nothing to drop |
| Slug.DropSpaces | backend/app/crud/grant.py:82 | stripping leaves a suffix that does not start with whitespace |
| Slug.Collapse | backend/app/crud/grant.py:82 | after collapsing, no whitespace remains and every character is '-' or from the input |
| Slug.CollapseNoSpace | backend/app/crud/grant.py:82 | a string without whitespace is left unchanged by collapsing |
| Slug.SlugCharset | backend/app/crud/grant.py:80-84 | a slug holds only lowercase letters, digits and '-', and is no longer than the title |
| Slug.SlugifyIdempotent | backend/app/crud/grant.py:80-84 | deriving a slug from a slug changes nothing |
| Slug.Candidate | backend/app/crud/grant.py:86-89 | each alternative is the base slug followed by '-' and more |
| Slug.CandidateInjective | backend/app/crud/grant.py:86-89 | different counters give different alternatives, none equal to the base |
| Slug.CandidateIsSlug | backend/app/crud/grant.py:86-89 | every alternative of a slug is itself a slug |
| GrantCrud.OpenFiltersPartition | backend/app/crud/grant.py:54-71 | the "open" and "not open" filters are exact complements, and "open" is the model's `is_open` |
| GrantCrud.SelectGrants | backend/app/crud/grant.py:23-73 | a grant is listed exactly when it passes every filter given (truthy status, category and organization, featured flag, a search found in the title, description or organization name, open) |
| GrantCrud.CountGrants | backend/app/crud/grant.py:150-166 | a grant is counted exactly when it passes the status, category and organization filters |
| GrantCrud.SelectedAreCounted | backend/app/crud/grant.py:23-166 | every listed grant is counted, so the total is never below what the filters list |
| Common.Supplied | backend/app/crud/grant.py:130-132 | a supplied field takes the given value and a field left unset keeps its own |
| GrantCrud.ApplyGrantUpdate | backend/app/crud/grant.py:124-136 | a grant update writes each supplied field and keeps id, slug, organization, creator, views and allocation |
| GrantCrud.EmptyGrantUpdateIsIdentity | backend/app/crud/grant.py:124-136 | an update that supplies nothing leaves the grant as it was |
| GrantCrud.GrantUpdateIdempotent | backend/app/crud/grant.py:124-136 | applying an update twice is the same as applying it once |
| GrantCrud.StatusUpdateOnlyStatus | backend/app/crud/grant.py:124-136 | a status-only update changes the status and nothing else |
| GrantCrud.ApplyApplicationUpdate | backend/app/crud/grant.py:242-254 | an application update writes the supplied editable fields and keeps identity, status, dates, reviewer and score |
| GrantCrud.EmptyApplicationUpdateIsIdentity | backend/app/crud/grant.py:242-254 | an application update that supplies nothing changes nothing |
| GrantCrud.Submit | backend/app/crud/grant.py:257-271 | only a draft is submitted, becoming submitted and no longer editable, stamped with the submission time |
| GrantCrud.SubmitOnce | backend/app/crud/grant.py:257-271 | a submitted application cannot be submitted again |
| GrantCrud.Review | backend/app/crud/grant.py:274-297 | a review writes the given status, whatever the current one, with the time, reviewer, notes, feedback and score, and keeps identity, submission and amount |
| GrantCrud.CandidateSuffix | backend/app/crud/grant.py:88 | each alternative slug is the base, '-', then the counter in decimal, which parses back to the counter |
| GrantCrud.TriedBeforeExcludes | backend/app/crud/grant.py:86-89 | the slug tried at each counter has not been tried before |
| GrantCrud.Store.Slugs | backend/app/crud/grant.py:18-20 | the slugs in use are exactly those of the stored grants |
| GrantCrud.Store.UniqueSlug | backend/app/crud/grant.py:85-89 | the loop returns a slug not in use: the base when it is free, otherwise the first free base-k |
| GrantCrud.Store.CreateGrant | backend/app/crud/grant.py:77-121 | a new draft grant is stored under a fresh id with a slug derived from the title and not in use; nothing else changes |
| GrantCrud.Store.UpdateGrant | backend/app/crud/grant.py:124-136 | a missing id gives nothing and no change; otherwise only that grant changes, to its update |
| GrantCrud.Store.DeleteGrant | backend/app/crud/grant.py:139-147 | deleting archives the grant rather than removing it; a missing id gives false and no change |
| GrantCrud.Store.CreateApplication | backend/app/crud/grant.py:211-239 | a new draft application is stored under a fresh id with the reference built from year, grant id and that id |
| GrantCrud.Store.UpdateApplication | backend/app/crud/grant.py:242-254 | a missing id gives nothing and no change; otherwise only that application changes, to its update |
| GrantCrud.Store.SubmitApplication | backend/app/crud/grant.py:257-271 | a missing id or a non-draft gives nothing and no change; a draft becomes submitted |
| GrantCrud.Store.ReviewApplication | backend/app/crud/grant.py:274-297 | a missing id gives nothing and no change; otherwise the review is written to that application |
| GrantsApi.ListQuery | backend/app/api/v1/grants.py:60-67 | anonymous callers and applicants are limited to published grants; a client user who names no organization is pinned to their own; every other filter passes through |
| GrantsApi.ListGrants | backend/app/api/v1/grants.py:43-93 | bad paging is refused with 422; otherwise the listed grants are those selected by the adjusted filters, the total counts them, and page and pages follow from skip and limit |
| GrantsApi.PublicListingShowsOnlyPublished | backend/app/api/v1/grants.py:60-62 | anonymous callers and applicants never see a grant that is not published |
| GrantsApi.ClientListingPinnedToOrganization | backend/app/api/v1/grants.py:64-67 | a client user with an organization who names none only sees grants of their own organization |
| GrantsApi.ListedWithinTotal | backend/app/api/v1/grants.py:43-93 | the listed page is never larger than the total reported beside it |
| GrantsApi.CreateGrantCheck | backend/app/api/v1/grants.py:147-161 | creation is allowed exactly for a super admin, or a client user creating for their own organization; everyone else gets 403 |
| GrantsApi.CreateGrantNeedsManager | backend/app/api/v1/grants.py:147-161 | whoever may create a grant is a grant manager |
| GrantsApi.ReadGrantCheck | backend/app/api/v1/grants.py:185-199 | published grants are public; an unpublished grant is 404 to anonymous callers and 403 to callers outside its organization who are not super admins |
| GrantsApi.GrantAccess | backend/app/api/v1/grants.py:248-272 | the lifecycle endpoints admit exactly client users on an existing grant of their own organization; otherwise 403 or 404 |
| GrantsApi.SuperAdminCannotManageGrant | backend/app/api/v1/grants.py:251-272 | a super admin is refused by every grant lifecycle endpoint, because the client-user gate runs first |
| GrantsApi.PublishCheck | backend/app/api/v1/grants.py:320-350 | after the access checks only a draft may be published; anything else is 400 |
| GrantsApi.CloseCheck | backend/app/api/v1/grants.py:358-388 | after the access checks only a published grant may be closed; anything else is 400 |
| GrantsApi.DeleteCheck | backend/app/api/v1/grants.py:278-309 | after the access checks a published grant with applications is refused with 400; any other grant may be archived |
| GrantsApi.ForeignCallerSeesForbidden | backend/app/api/v1/grants.py:296-309 | a caller from another organization gets 403 from publish, close and delete, never the 400 that would reveal the status |
| GrantsApi.LifecycleEdges | backend/app/api/v1/grants.py:345-388 | publish moves only from draft and close only from published; no grant passes both checks |
| GrantsApi.CreateNewGrant | backend/app/api/v1/grants.py:137-164 | a new draft grant created by the caller is stored exactly when the body validates and the role rule allows it; a refusal changes nothing |
| GrantsApi.GetGrantById | backend/app/api/v1/grants.py:167-205 | 404 for a missing id, then the read rule; a successful read of a published grant counts one view and no other read changes anything |
| GrantsApi.GetGrantByIdAsWritten | backend/app/api/v1/grants.py:167-205 | as written no read succeeds: 403 without a bearer header, 404 for a missing id, the read rule's error when it refuses, and 500 exactly when the read rule passes, because the view increment and the response schema both need a view counter the grant table lacks |
| GrantsApi.UpdateGrantById | backend/app/api/v1/grants.py:248-275 | a refused update changes nothing; an accepted one writes every supplied field, status included, to that grant only |
| GrantsApi.UpdateReachesAnyStatus | backend/app/api/v1/grants.py:248-275 | through the update endpoint any status can be set from any status, bypassing publish and close |
| GrantsApi.DeleteGrantById | backend/app/api/v1/grants.py:278-317 | a refused delete changes nothing; an accepted one archives that grant only |
| GrantsApi.PublishGrant | backend/app/api/v1/grants.py:320-355 | a refused publish changes nothing; an accepted one turns a draft into a published grant |
| GrantsApi.CloseGrant | backend/app/api/v1/grants.py:358-393 | a refused close changes nothing; an accepted one turns a published grant into a closed one |
| ApplicationsApi.SelectApplications | backend/app/crud/grant.py:185-208 | an application is listed exactly when it passes every filter given, the organization filter going through its grant |
| ApplicationsApi.ListApplicationsQuery | backend/app/api/v1/applications.py:63-72 | an applicant is pinned to their own applications, a client user to their organization, and a super admin keeps the request; status and grant filters pass through |
| ApplicationsApi.ApplicantListsOwn | backend/app/api/v1/applications.py:63-67 | an applicant lists only their own applications |
| ApplicationsApi.ClientListsOwnOrganization | backend/app/api/v1/applications.py:69-72 | a client user with an organization lists only applications to that organization's grants |
| ApplicationsApi.ApplicationsByFor | backend/app/api/v1/applications.py:131-136 | the earlier applications found are exactly the caller's applications to that grant, in any status |
| ApplicationsApi.CreateApplicationCheck | backend/app/api/v1/applications.py:99-155 | creation passes exactly when the amount is positive, the grant exists and is open, the caller has no earlier application to it and the amount is within the grant's minimum and maximum; the failures are 422, 404 and otherwise 400, in that order |
| ApplicationsApi.CreationKeepsOnePerApplicant | backend/app/api/v1/applications.py:131-141 | creation through the endpoint keeps at most one application per applicant and grant |
| ApplicationsApi.CreateNewApplication | backend/app/api/v1/applications.py:99-162 | a refused request returns the first failing check and changes nothing; an accepted one stores the caller's new draft application and the grant's derived count rises by one |
| ApplicationsApi.CreateNewApplicationAsWritten | backend/app/api/v1/applications.py:120-162 | as written every request ends in an error and stores nothing: the checks' error when they refuse, otherwise 500 from the store's flush of a row without a reference number |
| ApplicationsApi.CreateNewApplicationCountAsWritten | backend/app/api/v1/applications.py:157-162 | with a store that creates applications, the request still fails: the application is stored and the increment of the read-only count answers 500 |
| GrantCrud.Store.CreateApplicationAsWritten | backend/app/crud/grant.py:211-239 | as written the create fails with 500 and stores nothing, using up one application id, because the row is flushed before its required reference number is set |
| ApplicationsApi.GetApplicationById | backend/app/api/v1/applications.py:177-217 | 404 for a missing id; otherwise the application exactly when the caller may read it, else 403 |
| ApplicationsApi.ApplicationReadersAreExactly | backend/app/api/v1/applications.py:196-210 | readers are exactly the owner, a client user of the grant's organization, and a super admin |
| ApplicationsApi.UpdateApplicationCheck | backend/app/api/v1/applications.py:258-289 | an edit passes exactly for the owner of an existing draft; 404, then 403 for a non-owner, then 400 for a non-draft |
| ApplicationsApi.UpdateApplicationById | backend/app/api/v1/applications.py:258-291 | a refused edit changes nothing; an accepted one writes the supplied fields to that application only |
| ApplicationsApi.SubmitCheck | backend/app/api/v1/applications.py:294-339 | submission passes only for the owner of an existing draft whose grant is published and not yet closed; 404, 403, then 400 |
| ApplicationsApi.SubmitIgnoresOpenDate | backend/app/api/v1/applications.py:318-331 | submission is allowed before the application window opens, as long as the grant is published and not closed |
| ApplicationsApi.SubmitApplicationForReview | backend/app/api/v1/applications.py:294-340 | a refused submission changes nothing; an accepted one turns the draft into a submitted application |
| ApplicationsApi.ReviewCheck | backend/app/api/v1/applications.py:343-381 | a review passes exactly for a client user of the grant's organization, with an admissible score, on a submitted or under-review application |
| ApplicationsApi.ReviewApplicationById | backend/app/api/v1/applications.py:343-393 | a refused review changes nothing; an accepted one writes the review with the caller as reviewer |
| ApplicationsApi.DecisionsAreFinal | backend/app/api/v1/applications.py:258-381 | approved, rejected and withdrawn applications can be neither edited, submitted nor reviewed again |
| ApplicationsApi.ReviewCanReopen | backend/app/crud/grant.py:274-297 | a reviewer may send an application back to draft, making it editable again |
| FeatureToggles.SeedRows | backend/app/crud/feature_toggles.py:281-379 | the seeded rows are one per default entry, in order, belonging to the organization and carrying the entry's key, tier, risk, flag and configuration |
| FeatureToggles.DefaultsEnableTierOne | backend/app/crud/feature_toggles.py:285-368 | nine features are seeded and exactly the three tier-1 features start enabled |
| FeatureToggles.RowsOfMembers | backend/app/crud/feature_toggles.py:17-19 | the organization's rows are exactly the table's rows with that organization |
| FeatureToggles.RowsOfAppend | backend/app/crud/feature_toggles.py:17-19 | one organization's view is unaffected by rows appended for others |
| FeatureToggles.FirstIndexFrom | backend/app/crud/feature_toggles.py:50-53 | the lookup finds a matching row no earlier match precedes, or reports that none matches |
| FeatureToggles.FirstIndex | backend/app/crud/feature_toggles.py:50-53 | `.first()` returns the first row of the organization with the key, or none when no row matches |
| FeatureToggles.FirstIndexSameKeys | backend/app/crud/feature_toggles.py:266-276 | which row a lookup finds depends only on organizations and keys, so writing flags never redirects a later lookup |
| FeatureToggles.ApplyToggleUpdate | backend/app/crud/feature_toggles.py:58-60 | only the fields set in the update change; identity, name, tier and risk stay |
| FeatureToggles.EmptyToggleUpdateIsIdentity | backend/app/crud/feature_toggles.py:58-60 | an update with no fields set changes nothing |
| FeatureToggles.ConfigOrEmpty | backend/app/crud/feature_toggles.py:274 | a template entry without a configuration writes `{}` |
| FeatureToggles.TemplateNamed | backend/app/crud/feature_toggles.py:211-261 | exactly the four named templates exist |
| FeatureToggles.TemplatesCoverDefaults | backend/app/crud/feature_toggles.py:213-258 | each template names the nine seeded keys in seeding order |
| FeatureToggles.EnablesAtLeastSubset | backend/app/crud/feature_toggles.py:213-258 | a template enabling at least what another does enables a superset of keys |
| FeatureToggles.TemplateChain | backend/app/crud/feature_toggles.py:213-258 | conservative enables no more than standard, which enables no more than progressive; progressive and innovation enable the same features with different configuration |
| FeatureToggles.ConservativeBelowStandard | backend/app/crud/feature_toggles.py:214-235 | every feature conservative enables, standard enables too |
| FeatureToggles.StandardBelowProgressive | backend/app/crud/feature_toggles.py:225-246 | every feature standard enables, progressive enables too |
| FeatureToggles.ProgressiveMatchesInnovation | backend/app/crud/feature_toggles.py:236-258 | progressive and innovation enable the same features |
| FeatureToggles.EntryFor | backend/app/crud/feature_toggles.py:266 | a template gives an entry for a key exactly when it lists that key |
| FeatureToggles.ApplyEntry | backend/app/crud/feature_toggles.py:267-275 | writing one entry keeps every row's organization and key |
| FeatureToggles.ApplyEntries | backend/app/crud/feature_toggles.py:266-275 | applying a template keeps every row's organization and key |
| FeatureToggles.ApplyEntriesEffect | backend/app/crud/feature_toggles.py:266-275 | after a template, each listed key's first row of the organization takes the entry's flag and configuration; unlisted keys and other rows are unchanged |
| FeatureToggles.NetworkingEventsIsNeverSeeded | backend/app/crud/feature_toggles.py:171-379 | `networking_events` is offered in the catalog but neither seeded nor named by any template |
| FeatureToggles.NotListed | backend/app/crud/feature_toggles.py:266 | a key a template does not list has no entry in it |
| FeatureToggles.CatalogTiersMatchDefaults | backend/app/crud/feature_toggles.py:128-209 | every other catalog key is seeded, in the catalog's tier |
| FeatureToggles.ToggleStore.CreateDefaultFeatures | backend/app/crud/feature_toggles.py:281-379 | appends exactly the seeded rows with fresh ids |
| FeatureToggles.ToggleStore.AddSeeds | backend/app/crud/feature_toggles.py:369-377 | the rows gain, in order, one row per seed under consecutive fresh ids and the store stays valid |
| FeatureToggles.ToggleStore.OrganizationFeatures | backend/app/crud/feature_toggles.py:15-40 | returns the organization's rows, seeding the defaults only when it has none, so it never returns an empty list and a second read writes nothing |
| FeatureToggles.ToggleStore.UpdateFeatureToggle | backend/app/crud/feature_toggles.py:42-77 | fails without touching the table when no row matches; otherwise applies the update to the first matching row only |
| FeatureToggles.ToggleStore.FeatureConfiguration | backend/app/crud/feature_toggles.py:79-97 | reports the first matching row's flag and configuration, or nothing when none matches |
| FeatureToggles.ToggleStore.UpdateFeatureConfiguration | backend/app/crud/feature_toggles.py:99-126 | fails without touching the table when no row matches; a given configuration replaces the stored one and the flag never changes |
| FeatureToggles.ToggleStore.ResetToTemplate | backend/app/crud/feature_toggles.py:211-279 | an unknown template name fails before any row changes; a known one applies its entries in order |
| FeatureToggles.ToggleStore.ApplyTemplate | backend/app/crud/feature_toggles.py:266-275 | the rows become the entries applied one after another; no row is added and ids stay valid |
| FeatureToggles.ToggleStore.ApplyTemplateEntry | backend/app/crud/feature_toggles.py:267-275 | only the organization's first row for the key changes, taking the entry's flag and configuration |
| FeatureToggles.SeedRowsOwnOrganization | backend/app/crud/feature_toggles.py:281-379 | every seeded row belongs to the organization it was seeded for |
| FeatureToggles.RowsOfAll | backend/app/crud/feature_toggles.py:17-19 | a table holding only one organization's rows is that organization's view |
| FeatureTogglesApi.GetOrganizationFeatureToggles | backend/app/api/v1/feature_toggles.py:24-33 | only administrators read the toggles (403 otherwise, nothing written); they get their organization's rows, never an empty list |
| FeatureTogglesApi.UpdateFeatureToggleStatus | backend/app/api/v1/feature_toggles.py:35-50 | 403 for non-administrators; a missing feature is an error; an existing one is updated in the caller's organization only |
| FeatureTogglesApi.UpdateFeatureToggleStatusAsWritten | backend/app/crud/feature_toggles.py:42-77 | as written the update always fails and changes nothing: 403 for non-administrators, a server error otherwise |
| FeatureTogglesApi.UpdateFeatureToggleDiscrepancy | backend/app/crud/feature_toggles.py:61 | for an administrator and an existing feature, the intended update succeeds where the code as written answers a server error |
| FeatureTogglesApi.GetFeatureConfig | backend/app/api/v1/feature_toggles.py:52-64 | 403 for non-administrators, a server error for a missing feature, otherwise the first matching row's flag and configuration |
| FeatureTogglesApi.UpdateFeatureConfig | backend/app/api/v1/feature_toggles.py:66-81 | fails without a change for non-administrators or a missing feature; otherwise replaces the configuration and leaves the flag |
| FeatureTogglesApi.AvailableFeatures | backend/app/api/v1/feature_toggles.py:83-93 | administrators get the ten-entry catalog; others get 403 |
| FeatureTogglesApi.CatalogTemplate | backend/app/api/v1/feature_toggles.py:95-163 | the templates listed to administrators are exactly the four that can be applied |
| FeatureTogglesApi.CatalogAgreesWithTemplates | backend/app/api/v1/feature_toggles.py:95-163 | each listed template is the one applied, except that the conservative listing omits the two features that template switches off |
| FeatureTogglesApi.ApplyConfigurationTemplate | backend/app/api/v1/feature_toggles.py:165-178 | 403, then a server error for an unknown name, both without a change; otherwise the template is applied to the caller's organization |
| FeatureTogglesApi.TemplateStaysInOrganization | backend/app/crud/feature_toggles.py:266-275 | applying a template never changes another organization's row |
| FeatureTogglesApi.CheckFeature | backend/app/api/v1/feature_toggles.py:189-196 | the answer is the first row with the key, or disabled with `{}` when none has it |
| FeatureTogglesApi.CheckFeatureEnabled | backend/app/api/v1/feature_toggles.py:180-196 | open to every user; answers from the caller's organization, seeding it first only when it has no rows |
| FeatureTogglesApi.FreshOrganizationCheck | backend/app/api/v1/feature_toggles.py:180-196 | for a fresh organization the tier-1 features are on, a tier-3 feature is off with its default configuration, and `networking_events` is off with `{}` |
| FeatureTogglesApi.BulkRow | backend/app/api/v1/feature_toggles.py:208-217 | the bulk update keeps each row's organization and key |
| FeatureTogglesApi.BulkUpdateFeatures | backend/app/api/v1/feature_toggles.py:199-221 | 403 for non-administrators with no change; otherwise one answer per requested key, success exactly for keys with a row, each applied to its row |
| FeatureTogglesApi.BulkLoop | backend/app/api/v1/feature_toggles.py:208-219 | every requested key gets an answer and every key with a row has its update applied |
| FeatureTogglesApi.BulkTurn | backend/app/api/v1/feature_toggles.py:209-217 | one turn updates the key's row, if there is one, and reports whether it did |
| FeatureTogglesApi.BulkStep | backend/app/api/v1/feature_toggles.py:209-217 | a turn for one key does not move the row any other key finds, so applied keys accumulate |
| Gamification.Isqrt | backend/app/crud/gamification.py:106-107 | the integer square root is the largest `k` with `k*k <= n` |
| Gamification.LevelFromPoints | backend/app/crud/gamification.py:103-107 | a negative total raises; otherwise the level is at least 1 and is the unique `L` with `100(L-1)^2 <= points < 100L^2` |
| Gamification.LevelBoundsOfRoot | backend/app/crud/gamification.py:103-107 | the square root of `points/100`, plus one, meets the level bounds |
| Gamification.SquareMonotone | backend/app/crud/gamification.py:103-107 | squaring keeps the order of naturals |
| Gamification.LevelBoundsUnique | backend/app/crud/gamification.py:103-107 | only one level meets the bounds for a total |
| Gamification.LevelMonotone | backend/app/crud/gamification.py:103-107 | more points never give a lower level |
| Gamification.PointsToNextLevel | backend/app/crud/gamification.py:109-112 | the points still needed are zero exactly when the total has reached `100 level^2`, and otherwise close the gap exactly |
| Gamification.PointsToNextLevelPositive | backend/app/crud/gamification.py:109-112 | for the level a total reaches, some points are always still needed |
| Gamification.FreshLevel | backend/app/crud/gamification.py:81-84 | a missing level row starts at 0 points, level 1, no streaks and no activity |
| Gamification.UpdateDailyStreak | backend/app/crud/gamification.py:114-127 | activity yesterday extends the streak, anything else restarts it at 1; the longest streak follows it up and nothing else changes |
| Gamification.StreakExtendsFromYesterday | backend/app/crud/gamification.py:119-120 | a streak last counted yesterday grows by one |
| Gamification.AwardToLevel | backend/app/crud/gamification.py:80-97 | a negative new total fails; otherwise the total grows by the award, the activity is stamped, and the level only ever rises, to the total's level when that is higher |
| Gamification.DailyLoginStreakIsOne | backend/app/crud/gamification.py:87-97 | the activity is stamped before the streak update reads it, so a `daily_login` award always leaves the streak at 1 |
| Gamification.InsertByPoints | backend/app/crud/gamification.py:366 | insertion adds one standing to the list and loses none |
| Gamification.InsertKeepsOrder | backend/app/crud/gamification.py:366 | insertion into a list ordered by points keeps it ordered |
| Gamification.SortByPoints | backend/app/crud/gamification.py:366 | the standings ordered by total, highest first, as a permutation |
| Gamification.Ranked | backend/app/crud/gamification.py:368-378 | entry `i` carries rank `i+1` and the standing's user and total |
| Gamification.Leaderboard | backend/app/crud/gamification.py:334-378 | at most `limit` entries, ranked from 1 with no gaps, totals never increasing |
| Gamification.LeaderboardIsTop | backend/app/crud/gamification.py:364-378 | every entry is a standing, and every standing cut off has no more points than any entry kept |
| Gamification.LevelRow | backend/app/crud/gamification.py:23-36 | the user's level row, or the fresh one made on first use |
| Gamification.GamificationStore.GetUserLevel | backend/app/crud/gamification.py:21-57 | creates the row on first use and reports its totals with a positive number of points to the next level |
| Gamification.GamificationStore.AwardPoints | backend/app/crud/gamification.py:59-101 | a total that would turn negative raises and writes nothing; otherwise the transaction is recorded and the user's row updated |
| Gamification.GamificationStore.UnlockAchievement | backend/app/crud/gamification.py:212-262 | an achievement already unlocked answers none and changes nothing; otherwise it is stamped with progress 100 and a positive reward is awarded once |
| Gamification.RewardTransaction | backend/app/crud/gamification.py:245-251 | the reward transaction is in the `achievements` category for the reward's points, referencing the achievement |
| Gamification.NextLevelAhead | backend/app/crud/gamification.py:88-92 | a stored level never lags its total, so the points to the next level stay positive |
| GamificationApi.GetPointsLeaderboard | backend/app/api/v1/gamification.py:120-132 | a limit outside 1..100 is refused with 422; otherwise at most `limit` entries, ranked from 1 |
| GamificationApi.FindRank | backend/app/api/v1/gamification.py:147-159 | the rank is the 1-based position of the caller's first entry, and absent with 0 points exactly when the caller is not on the board |
| GamificationApi.GetMyLeaderboardRank | backend/app/api/v1/gamification.py:134-159 | the total is the size of the leaderboard cut at 1000; the rank is the position of the caller's first entry, which is also the rank it carries, with that entry's points; no rank and 0 points exactly when the caller is not on the board |
| GamificationApi.UnlockUserAchievement | backend/app/api/v1/gamification.py:73-83 | 400 with no change when already unlocked; otherwise the unlock is stamped with the clock |
| GamificationApi.OrganizationTransactions | backend/app/crud/gamification.py:420-427 | exactly the transactions of the organization's users |
| GamificationApi.Earners | backend/app/crud/gamification.py:420-422 | the distinct users appearing in the transactions |
| GamificationApi.EarnersBounded | backend/app/crud/gamification.py:420-422 | there are no more earners than transactions, and none exactly when there are no transactions |
| GamificationApi.GetOrganizationGamificationStats | backend/app/api/v1/gamification.py:188-199 | 403 for non-administrators; otherwise the number of distinct users among the organization's transactions, the sum of those transactions' points, and the number of unlocked achievements of the organization's users |
| Community.DashSpaces | backend/app/crud/community.py:101 | every space becomes a dash and every other character stays |
| Community.DropApostrophes | backend/app/crud/community.py:101 | every apostrophe is removed and nothing else is added |
| Community.TitleSlug | backend/app/crud/community.py:100-101 | the slug is at most 255 characters, with no space, no apostrophe and no upper-case letter |
| Community.SlugOfSlug | backend/app/crud/community.py:101 | a title already in slug form is its own slug |
| Community.SlugIdempotent | backend/app/crud/community.py:101 | taking the slug twice gives the slug |
| Community.ToggleRows | backend/app/crud/community.py:274-331 | a toggle removes the user's like row when it existed and adds it when it did not, and reports a like exactly in the second case |
| Community.CountAfterToggle | backend/app/crud/community.py:286-299 | a like adds one to the stored count; an unlike takes one away but never below zero |
| Community.ToggleKeepsCount | backend/app/crud/community.py:274-331 | a count that matched the like rows still matches them after a toggle |
| Community.ToggleIsLocal | backend/app/crud/community.py:274-331 | a toggle leaves every other target's likes alone |
| Community.ToggleTwice | backend/app/crud/community.py:274-331 | two toggles by the same user restore both the rows and the count |
| Community.ApplyCategoryUpdate | backend/app/crud/community.py:67-84 | an update changes only the supplied fields, never the slug, owner or counters; an empty update changes nothing |
| Community.ApplyTopicUpdate | backend/app/crud/community.py:173-191 | an update changes only the supplied fields and the edit time, never the slug, author or counters |
| Community.ApplyPostUpdate | backend/app/crud/community.py:249-272 | an update changes only the supplied content and records who edited it and when |
| Community.ForumStore.CreateForumCategory | backend/app/crud/community.py:27-37 | adds one category with zero counters, owned by the creator |
| Community.ForumStore.UpdateForumCategory | backend/app/crud/community.py:67-84 | a missing id changes nothing; otherwise the update is applied to that row only |
| Community.ForumStore.DeleteForumCategory | backend/app/crud/community.py:86-96 | false exactly for a missing category; a category some topic still refers to fails with 500 and stays; otherwise it is gone, and topics and posts never change |
| Community.ForumStore.CreateForumTopic | backend/app/crud/community.py:98-121 | adds one topic with its title slug, zero counters, its author as last poster; its category, when present, counts one more topic |
| Community.ForumStore.UpdateForumTopic | backend/app/crud/community.py:173-191 | a missing id changes nothing; otherwise the update is applied to that topic only |
| Community.ForumStore.IncrementTopicViews | backend/app/crud/community.py:193-200 | an existing topic gains exactly one view; a missing one changes nothing |
| Community.ForumStore.CreateForumPost | backend/app/crud/community.py:202-227 | adds one post; its topic, when present, counts one more reply and records the last post; that topic's category counts one more post |
| Community.ForumStore.UpdateForumPost | backend/app/crud/community.py:249-272 | a missing id changes nothing; otherwise the update is applied to that post only |
| Community.ForumStore.ToggleTopicLike | backend/app/crud/community.py:274-302 | reports a like exactly when the user had not liked the topic; the like rows toggle and the topic's count follows |
| Community.ForumStore.TogglePostLike | backend/app/crud/community.py:304-331 | the same toggle on a post, with the post's count following |
| Community.FollowStore.CreateUserFollow | backend/app/crud/community.py:466-486 | following twice keeps one row: the existing row is returned unchanged, otherwise one row is added |
| Community.FollowStore.DeleteUserFollow | backend/app/crud/community.py:489-503 | reports a deletion exactly when the pair was followed; afterwards it no longer is |
| ForumsApi.ValidateCategoryCreate | backend/app/schemas/community.py:25-41 | a category body passes exactly when its name and slug are within 100 characters; otherwise 422 |
| ForumsApi.ValidateTopicCreate | backend/app/schemas/community.py:65-75 | a topic body passes exactly when its title is within 255 characters; otherwise 422 |
| ForumsApi.CreateCategory | backend/app/api/v1/forums.py:49-61 | a body past its limits (422) or a non-administrator (403) creates nothing; otherwise one category is added |
| ForumsApi.UpdateCategory | backend/app/api/v1/forums.py:75-90 | 403 before anything else, then 404 for a missing id, both without a change; otherwise the update is applied to that category |
| ForumsApi.DeleteCategory | backend/app/api/v1/forums.py:92-107 | succeeds exactly for an administrator, an existing category and no topic in it; otherwise 403, 404 or 500 in that order with no change; a success removes that category only |
| ForumsApi.TopicCreateCheck | backend/app/api/v1/forums.py:133-150 | a topic is accepted exactly for a valid body in an existing category that is not moderator-only or whose caller is an administrator; otherwise 422, 404 or 403 in that order |
| ForumsApi.CreateTopic | backend/app/api/v1/forums.py:133-150 | a refused topic changes nothing; an accepted one is added and its category counts it |
| ForumsApi.GetTopic | backend/app/api/v1/forums.py:152-166 | 404 for a missing topic; otherwise the topic with its view count raised by one, as stored |
| ForumsApi.TopicEditCheck | backend/app/api/v1/forums.py:168-185 | an edit is accepted exactly for a valid body on an existing topic by its author or an administrator; otherwise 422, 404 or 403 |
| ForumsApi.UpdateTopic | backend/app/api/v1/forums.py:168-185 | a refused edit changes nothing; an accepted one applies the update to that topic |
| ForumsApi.LikeTopic | backend/app/api/v1/forums.py:187-201 | 404 with no change for a missing topic; otherwise the answer is a like exactly when the caller had not liked it |
| ForumsApi.PostCreateCheck | backend/app/api/v1/forums.py:219-239 | a reply is accepted exactly on an existing topic that is not locked; otherwise 404 or 403 |
| ForumsApi.CreatePost | backend/app/api/v1/forums.py:219-239 | the reply lands on the topic in the path, by the caller, with the given content; a refused reply changes nothing |
| ForumsApi.UpdatePost | backend/app/api/v1/forums.py:253-270 | 404 for a missing post, 403 unless author or administrator, both without a change; otherwise the update is applied |
| ForumsApi.LikePost | backend/app/api/v1/forums.py:272-285 | 404 with no change for a missing post; otherwise the answer is a like exactly when the caller had not liked it |
| Resources.Upsert | backend/app/api/v1/resources.py:295-320 | the user's existing rating row takes the new rating and review; otherwise one row is added; other users' rows are untouched |
| Resources.UpsertValid | backend/app/api/v1/resources.py:295-320 | the upsert keeps every rating in 1..5 and one row per user |
| Resources.RatingSumBounds | backend/app/api/v1/resources.py:322-328 | the sum of ratings in 1..5 lies between the row count and five times it |
| Resources.MeanBounds | backend/app/api/v1/resources.py:322-328 | the mean of a non-empty list of ratings lies in 1..5 |
| Resources.RatingsMatchAfterRate | backend/app/api/v1/resources.py:322-330 | recomputing one resource's count and mean from its new rows keeps every resource's figures matching its rows |
| Resources.LikesMatchAfterEdit | backend/app/api/v1/resources.py:264-277 | a change that leaves a resource's like count alone keeps the like counts matching the like rows |
| Resources.RateKeepsTablesValid | backend/app/api/v1/resources.py:295-330 | a rating keeps the tables consistent once the resource's figures are recomputed |
| Resources.ResourceStore.CreateResourceCategory | backend/app/crud/community.py:335-345 | adds one category with no resources, owned by the creator |
| Resources.ResourceStore.CreateResource | backend/app/crud/community.py:371-392 | adds one approved resource with its title slug and zero counters; its category, when present, counts one more resource |
| Resources.ResourceStore.SetFileMetadata | backend/app/api/v1/resources.py:185-190 | records the upload's name, size and media type on that row only |
| Resources.ResourceStore.IncrementResourceViews | backend/app/crud/community.py:449-455 | an existing resource gains exactly one view; a missing one changes nothing |
| Resources.ResourceStore.IncrementResourceDownloads | backend/app/crud/community.py:457-463 | an existing resource gains exactly one download; a missing one changes nothing |
| Resources.ResourceStore.ToggleResourceLike | backend/app/api/v1/resources.py:256-277 | reports a like exactly when the user had not liked the resource; the like rows toggle and the count keeps matching them |
| Resources.ResourceStore.RateResource | backend/app/api/v1/resources.py:295-330 | inserts or replaces the user's rating; the count grows only for a first rating and the mean stays in 1..5; only the rated resource's average and count change, every other resource and the id counters stay |
| ResourcesApi.LastIndex | backend/app/api/v1/resources.py:152 | the position of the last occurrence of a character, or none exactly when it does not occur |
| ResourcesApi.LastIndexAppend | backend/app/api/v1/resources.py:152 | text without the character appended after a string leaves its last occurrence in place |
| ResourcesApi.LastIndexAt | backend/app/api/v1/resources.py:152 | the last occurrence of a character followed by text free of it is that one |
| ResourcesApi.BaseName | backend/app/api/v1/resources.py:152 | a path's name is the tail after its last slash and holds no slash |
| ResourcesApi.BaseNameAppend | backend/app/api/v1/resources.py:152 | text without a slash appended to a path extends its name |
| ResourcesApi.BaseNameNonEmpty | backend/app/api/v1/resources.py:152 | a path not ending in a slash has a non-empty name |
| ResourcesApi.NameSuffix | backend/app/api/v1/resources.py:152 | a name's suffix is empty or a dot followed by dot-free text, and is a tail of the name |
| ResourcesApi.SuffixChars | backend/app/api/v1/resources.py:152 | the characters of a tail are characters of the whole |
| ResourcesApi.TailOfTail | backend/app/api/v1/resources.py:152 | a tail of a tail is a tail |
| ResourcesApi.Suffix | backend/app/api/v1/resources.py:152 | a path's suffix is empty or a dot followed by text with no dot and no slash, and is a tail of the path |
| ResourcesApi.NameSuffixOf | backend/app/api/v1/resources.py:152 | a non-empty name followed by a dot and a dot-free extension has that extension as its suffix |
| ResourcesApi.SuffixOfNamedFile | backend/app/api/v1/resources.py:152 | a path ending in a non-empty name and an extension has that extension as its suffix |
| ResourcesApi.NoDotNoSuffix | backend/app/api/v1/resources.py:152 | a path without a dot has no suffix |
| ResourcesApi.AllowedAreSimple | backend/app/api/v1/resources.py:32-38 | every allowed extension is a dot followed by lower-case letters and digits |
| ResourcesApi.SimpleExtensionShape | backend/app/api/v1/resources.py:152-153 | such an extension is one suffix, is its own lower case, and so is the lower case of its upper case |
| ResourcesApi.UploadCheck | backend/app/api/v1/resources.py:148-154 | a file over 50 MiB is refused with 413 before its lower-cased extension is checked against the allow-list (400); an accepted upload keeps that extension |
| ResourcesApi.UploadAcceptsAllowedExtension | backend/app/api/v1/resources.py:148-154 | a file of allowed size named with an allowed extension is accepted |
| ResourcesApi.UploadIgnoresExtensionCase | backend/app/api/v1/resources.py:152-154 | an allowed extension in upper case is accepted as the lower-case one |
| ResourcesApi.UploadRefusesNoSuffix | backend/app/api/v1/resources.py:152-154 | a file whose name has no dot is refused with 400 |
| ResourcesApi.ParseTags | backend/app/api/v1/resources.py:169 | no tags for an absent or empty parameter; otherwise one stripped tag per comma-separated piece |
| ResourcesApi.ParseTagsRoundTrip | backend/app/api/v1/resources.py:169 | tags without commas or surrounding whitespace come back unchanged from their comma-joined form |
| ResourcesApi.ValidateResourceCategory | backend/app/schemas/community.py:154-166 | a category body passes exactly when its name and slug are within 100 characters; otherwise 422 |
| ResourcesApi.CreateCategory | backend/app/api/v1/resources.py:62-74 | a body past its limits (422) or a non-administrator (403) creates nothing; otherwise one category is added |
| ResourcesApi.CreateResourceItem | backend/app/api/v1/resources.py:125-133 | any user may add a resource whose body is within its limits; otherwise 422 and nothing changes |
| ResourcesApi.StoredPath | backend/app/api/v1/resources.py:157-158 | the stored path is the upload directory, the generated id and the kept extension |
| ResourcesApi.UploadResourceFile | backend/app/api/v1/resources.py:135-192 | a refused upload or a failed save creates nothing; an accepted one adds a resource of the caller's organization at the stored path with the file's metadata |
| ResourcesApi.StoreUpload | backend/app/api/v1/resources.py:183-190 | adds one resource from the upload record, by the caller, with the file's name, size and media type |
| ResourcesApi.GetResourceItem | backend/app/api/v1/resources.py:195-208 | 404 for a missing resource; otherwise the resource with its view count raised by one, as stored |
| ResourcesApi.DownloadName | backend/app/api/v1/resources.py:237 | a download is offered under the stored file name, or `resource_<id>` with the stored path's suffix |
| ResourcesApi.GeneratedNameKeepsSuffix | backend/app/api/v1/resources.py:237 | the generated download name keeps the stored file's suffix |
| ResourcesApi.DownloadResource | backend/app/api/v1/resources.py:211-239 | 404 without a change for a missing resource, one without a file path, or a missing file; otherwise one more download |
| ResourcesApi.LikeResource | backend/app/api/v1/resources.py:242-277 | 404 with no change for a missing resource; otherwise the answer is a like exactly when the caller had not liked it |
| ResourcesApi.RateResource | backend/app/api/v1/resources.py:280-333 | a rating outside 1..5 is 422 and a missing resource 404, both without a change; otherwise the caller's rating is stored, only that resource's average and count change, and categories and likes stay |
| Notifications.TypeName | backend/app/schemas/notifications.py:11-23 | every notification type has a non-empty string value |
| Notifications.ChannelName | backend/app/schemas/notifications.py:25-31 | every channel has a non-empty string value |
| Notifications.PriorityName | backend/app/schemas/notifications.py:33-38 | every priority has a non-empty string value |
| Notifications.Clock | backend/app/crud/notifications.py:191-192 | `HH:MM` is a whole minute of the day whose hour is `HH` |
| Notifications.DefaultPreferences | backend/app/crud/notifications.py:206-229 | the inserted defaults: quiet hours off from 22:00 to 08:00, every application-status channel on, SMS off for the other groups and community email off |
| Notifications.IsQuietHours | backend/app/crud/notifications.py:185-197 | never quiet while quiet hours are off; otherwise quiet exactly inside the window, which wraps past midnight when it starts after it ends |
| Notifications.QuietWindowIsCircular | backend/app/crud/notifications.py:194-197 | both branches of the window test agree with one reading on the 24-hour circle |
| Notifications.WrappedWindowIsComplement | backend/app/crud/notifications.py:196-197 | a window that wraps past midnight holds every time outside the gap between its end and its start, midnight included |
| Notifications.SubsequenceMembers | backend/app/crud/notifications.py:139-148 | a subsequence is no longer than its source and holds only its elements |
| Notifications.SubsequenceTransitive | backend/app/crud/notifications.py:139-148 | a subsequence of a subsequence is a subsequence |
| Notifications.PrefKey | backend/app/crud/notifications.py:141 | the looked-up attribute name is the type's value, an underscore and the channel's value |
| Notifications.GrantPublishedKeys | backend/app/crud/notifications.py:141-142 | no channel of this type names an attribute of the preferences, so none is ever filtered out |
| Notifications.ApplicationReceivedKeys | backend/app/crud/notifications.py:141-142 | no channel of this type names an attribute of the preferences, so none is ever filtered out |
| Notifications.ForumReplyKeys | backend/app/crud/notifications.py:141-142 | no channel of this type names an attribute of the preferences, so none is ever filtered out |
| Notifications.ConnectionRequestKeys | backend/app/crud/notifications.py:141-142 | no channel of this type names an attribute of the preferences, so none is ever filtered out |
| Notifications.EventReminderKeys | backend/app/crud/notifications.py:141-142 | no channel of this type names an attribute of the preferences, so none is ever filtered out |
| Notifications.AchievementUnlockedKeys | backend/app/crud/notifications.py:141-142 | no channel of this type names an attribute of the preferences, so none is ever filtered out |
| Notifications.SystemAnnouncementKeys | backend/app/crud/notifications.py:141-142 | no channel of this type names an attribute of the preferences, so none is ever filtered out |
| Notifications.MarketplaceBookingKeys | backend/app/crud/notifications.py:141-142 | no channel of this type names an attribute of the preferences, so none is ever filtered out |
| Notifications.ReviewReceivedKeys | backend/app/crud/notifications.py:141-142 | no channel of this type names an attribute of the preferences, so none is ever filtered out |
| Notifications.ApplicationStatusKeys | backend/app/crud/notifications.py:141-142 | the email, SMS and push channels of `application_status` name the stored flags; in-app names none |
| Notifications.OnlyApplicationStatusHasPreferences | backend/app/crud/notifications.py:141-142 | only the email, SMS and push channels of `application_status` name an existing preference; every other pair falls back to on |
| Notifications.PrefOnIsAttributeLookup | backend/app/crud/notifications.py:141-142 | the resolved preference is the attribute lookup, a missing attribute counting as on |
| Notifications.AllowedChannels | backend/app/crud/notifications.py:139-143 | a channel is kept exactly when it was requested and its preference is on |
| Notifications.OtherTypesKeepEveryChannel | backend/app/crud/notifications.py:139-143 | for every type but `application_status` all requested channels are kept |
| Notifications.FilterChannels | backend/app/crud/notifications.py:139-143 | the channel loop computes the allowed channels |
| Notifications.AllowedChannelsIsSubsequence | backend/app/crud/notifications.py:139-143 | the kept channels are requested ones, in the requested order |
| Notifications.InAppOnly | backend/app/crud/notifications.py:148 | the quiet-hours cut keeps only in-app entries, and keeps in-app when it was there |
| Notifications.InAppOnlyIsSubsequence | backend/app/crud/notifications.py:148 | the quiet-hours cut keeps order |
| Notifications.DeliveredChannels | backend/app/crud/notifications.py:138-150 | a recipient gets requested channels whose preference is on; during quiet hours only in-app, and then a row exactly when in-app was requested and allowed |
| Notifications.RecipientChannels | backend/app/crud/notifications.py:135-148 | the per-recipient steps compute the delivered channels |
| Notifications.DeliveredIsSubsequence | backend/app/crud/notifications.py:138-150 | delivery never adds a channel or reorders the requested ones |
| Notifications.OrganizationUserIds | backend/app/crud/notifications.py:119-129 | the ids listed are exactly those of the organization's users, of the role when one is given |
| Notifications.Targets | backend/app/crud/notifications.py:114-129 | the recipients are the target user when one is given, else the organization's users of the target role, else all its users, else nobody |
| Notifications.PreferencesOf | backend/app/crud/notifications.py:200-232 | a user without preferences reads the defaults |
| Notifications.NewRow | backend/app/crud/notifications.py:150-161 | a recipient's row is unread, carries the notification's content and exactly the delivered channels, with `{}` for absent metadata |
| Notifications.Deliveries | backend/app/crud/notifications.py:133-150 | the delivered channels are recorded for exactly the recipients |
| Notifications.NewRowsShape | backend/app/crud/notifications.py:133-163 | at most one row per recipient, each for a recipient with delivered channels, with consecutive ids and the notification's content |
| Notifications.EveryRecipientGetsRow | backend/app/crud/notifications.py:150-163 | a recipient gets a row exactly when its delivered channels are not empty |
| Notifications.SeenTargets | backend/app/crud/notifications.py:133-136 | the recipients handled so far |
| Notifications.UnreadIds | backend/app/crud/notifications.py:77-82 | exactly the user's notifications without a read time |
| Notifications.NotificationStore.GetNotificationPreferences | backend/app/crud/notifications.py:200-255 | returns the user's preferences, inserting the defaults first when there are none (the intended reading, see Findings) |
| Notifications.ApplyPreferencesUpdate | backend/app/crud/notifications.py:271-273 | the quiet hours and time zone the update supplies replace the old ones; every other field is kept |
| Notifications.NotificationStore.UpdateNotificationPreferences | backend/app/crud/notifications.py:257-279 | the fields the update sets replace the stored ones; the rest of the row is kept, or takes the defaults for a new row (the intended reading, see Findings) |
| Notifications.NotificationStore.GetNotificationPreferencesAsWritten | backend/app/crud/notifications.py:200-255 | as written: the defaults are stored for a user without a row, then every call fails with 500 |
| Notifications.NotificationStore.UpdateNotificationPreferencesAsWritten | backend/app/crud/notifications.py:257-279 | as written: the update is stored, then the call fails with 500 |
| Notifications.NotificationStore.CreateNotificationAsWritten | backend/app/crud/notifications.py:133-136 | as written: no recipients gives no row; otherwise 500 with no notification stored and only the first recipient's defaults kept |
| Notifications.PreferencesDiscrepancy | backend/app/crud/notifications.py:235-255 | the same read answers the stored preferences when intended and fails as written, leaving the same table |
| Notifications.NotificationStore.MarkNotificationRead | backend/app/crud/notifications.py:59-73 | marks and answers true exactly for an unread notification of the user; otherwise nothing changes, so a second call answers false |
| Notifications.NotificationStore.MarkAllRead | backend/app/crud/notifications.py:75-85 | every unread notification of the user is stamped, the answer is how many, and none is left unread |
| Notifications.NotificationStore.DeleteNotification | backend/app/crud/notifications.py:87-101 | deletes and answers true exactly when the user owns the notification |
| Notifications.NotificationStore.CreateNotification | backend/app/crud/notifications.py:103-183 | every recipient's preferences are read or defaulted, and exactly the rows of recipients with delivered channels are added; the answer is the first row (the intended reading, see Findings) |
| Notifications.ProgressStoresNewRows | backend/app/crud/notifications.py:133-163 | after each turn the table holds the old rows and exactly the rows written so far |
| Notifications.PrefsAfterReadsDefaults | backend/app/crud/notifications.py:136 | after each turn the preferences hold the old rows and the defaults of the recipients seen |
| Notifications.PrefsAfterOf | backend/app/crud/notifications.py:136 | reading preferences part way through gives the stored row or the defaults |
| Notifications.DeliverAll | backend/app/crud/notifications.py:133-163 | the recipient loop writes exactly the new rows and reads every recipient's preferences |
| Notifications.DeliverTurn | backend/app/crud/notifications.py:135-163 | one recipient's turn reads or defaults their preferences and writes their row exactly when they have delivered channels |
| Notifications.DeliveriesRecorded | backend/app/crud/notifications.py:133-150 | the recorded channels are the ones each recipient is delivered |
| Notifications.NewRowsIds | backend/app/crud/notifications.py:151-162 | the k-th new row carries the k-th fresh id |
| Notifications.RowIdsStored | backend/app/crud/notifications.py:151-162 | rows stored under consecutive ids keep every row under its own id, below the next id |
| Notifications.PrefsReadForAll | backend/app/crud/notifications.py:133-136 | after the loop every recipient has preferences, and the old ones are unchanged |
| Notifications.RowsStoredAdd | backend/app/crud/notifications.py:162-163 | storing one more row extends the rows written |
| Notifications.PrefsFromStep | backend/app/crud/notifications.py:136 | reading one recipient's preferences keeps every stored row |
| Notifications.UserIds | backend/app/crud/notifications.py:284-286 | exactly the user's notifications |
| Notifications.ListedIds | backend/app/crud/notifications.py:18-39 | the listing selects only the user's notifications, only unread ones when asked, and all of them without filters |
| Notifications.UnknownTypeSelectsNothing | backend/app/crud/notifications.py:33-34 | a type filter naming no type selects nothing |
| Notifications.UnreadOnlyNarrows | backend/app/crud/notifications.py:30-31 | asking for unread rows only never selects more |
| Notifications.PageSize | backend/app/crud/notifications.py:39 | a page after `skip` holds at most `limit` rows, all of them when fewer remain |
| Notifications.UserNotifications | backend/app/crud/notifications.py:18-57 | a page holds at most `limit` of the user's selected notifications, all of them from the start when they fit |
| Notifications.TypeIds | backend/app/crud/notifications.py:296-301 | the user's notifications of one type |
| Notifications.TypeCounts | backend/app/crud/notifications.py:296-303 | one positive count for each type the user has, equal to the number of that type |
| Notifications.ReadRate | backend/app/crud/notifications.py:317 | the read rate is a percentage: 0 with no notifications or none read, 100 exactly when all are read |
| Notifications.RecentIds | backend/app/crud/notifications.py:306-312 | exactly the user's notifications created at or after the cut-off |
| Notifications.NotificationStatsOf | backend/app/crud/notifications.py:282-320 | the number of the user's notifications, of the unread ones among them and of those created in the seven days before `now`; the read rate of those totals, in 0..100; and the count per type |
| Notifications.NotificationStatsAsWritten | backend/app/crud/notifications.py:306 | as written the statistics always fail with a server error, since `timedelta` is not imported |
| Notifications.SumCountsOfTypes | backend/app/crud/notifications.py:296-303 | summing the counts of distinct types counts the notifications of those types |
| Notifications.ByTypeAddsUpToTotal | backend/app/crud/notifications.py:284-303 | the per-type counts add up to the total |
| NotificationsApi.GetMyNotifications | backend/app/api/v1/notifications.py:24-39 | `skip` below 0 or `limit` outside 1..100 is 422; otherwise a page of at most `limit` of the caller's own notifications, unread ones only when asked |
| NotificationsApi.MarkNotificationAsRead | backend/app/api/v1/notifications.py:41-53 | succeeds exactly for the caller's own unread notification, which is then read; otherwise 404 and nothing changes |
| NotificationsApi.MarkAllNotificationsRead | backend/app/api/v1/notifications.py:55-62 | answers how many of the caller's notifications were unread; none is afterwards |
| NotificationsApi.DeleteUserNotification | backend/app/api/v1/notifications.py:64-77 | deletes exactly the caller's own notification; otherwise 404 and nothing changes |
| NotificationsApi.ValidatePreferencesUpdate | backend/app/schemas/notifications.py:83-90 | a time zone longer than 50 characters is refused with 422 |
| NotificationsApi.UpdateMyNotificationPreferences | backend/app/api/v1/notifications.py:87-97 | a valid body updates the caller's row with the given time zone and quiet hours; an invalid one changes nothing |
| NotificationsApi.ValidateNotificationCreate | backend/app/schemas/notifications.py:42-52 | a notification passes exactly with a title within 200, a message within 1000 and an action URL within 500 characters |
| NotificationsApi.CreateSystemNotification | backend/app/api/v1/notifications.py:108-127 | 422 for an invalid body, then 403 for non-administrators, both without a change; otherwise the notification goes to the target user or the caller's organization |
| NotificationsApi.SingleTargetGetsOneRow | backend/app/api/v1/notifications.py:108-127 | a notification aimed at one user with delivered channels creates exactly one row, for that user |
| NotificationsApi.UnreadCount | backend/app/api/v1/notifications.py:129-138 | the unread count is capped at 1000 and exact below it |
| NotificationsApi.GetRecentNotifications | backend/app/api/v1/notifications.py:140-151 | `limit` outside 1..20 is 422; otherwise the caller's notifications, first `limit` of them |
| NotificationsApi.GetMyNotificationStatsAsWritten | backend/app/api/v1/notifications.py:99-106 | as written every call fails with a server error |
| NotificationsApi.GetMyNotificationStats | backend/app/api/v1/notifications.py:99-106 | with the import in place the caller's total and unread counts are answered |
| NotificationsApi.StatsDiscrepancy | backend/app/crud/notifications.py:306 | for every caller the endpoint as written fails where the intended one answers |
| Marketplace.SetFields | backend/app/crud/marketplace.py:85-86 | the fields an update applies are exactly those the request set among the schema's declared fields, with their values |
| Marketplace.ApplyFields | backend/app/crud/marketplace.py:85-86 | each set field takes its value and every other field is kept |
| Marketplace.ApplyFieldsIdempotent | backend/app/crud/marketplace.py:85-86 | repeating an update changes nothing more |
| Marketplace.EmptyUpdateKeepsFields | backend/app/crud/marketplace.py:85-86 | an update that sets no declared field leaves the row as it was |
| Marketplace.ApplyApproval | backend/app/crud/marketplace.py:105-109 | the status is approved exactly when approved and rejected otherwise; reviewer and time are recorded; feedback is replaced only by non-empty feedback; the profile is otherwise unchanged |
| Marketplace.LastApprovalWins | backend/app/crud/marketplace.py:93-113 | a second review with feedback replaces the first entirely |
| Marketplace.RatingsOf | backend/app/crud/marketplace.py:311-317 | a service's ratings come from its own reviews |
| Marketplace.RatingsOfAppend | backend/app/crud/marketplace.py:274-283 | a new review adds its rating to its service's list and to no other |
| Marketplace.SumBounds | backend/app/crud/marketplace.py:311-313 | ratings in 1..5 sum to between their count and five times it |
| Marketplace.MeanBounds | backend/app/crud/marketplace.py:321 | the mean of ratings in 1..5 lies in 1..5, and is 0 without reviews |
| Marketplace.RatingsOfInRange | backend/app/schemas/marketplace.py:307 | a service's ratings are all in 1..5 when every review's is |
| Marketplace.StatusName | backend/app/schemas/marketplace.py:35-42 | every booking status has a non-empty string value |
| Marketplace.StatusNameInjective | backend/app/schemas/marketplace.py:35-42 | different booking statuses have different string values |
| Marketplace.BookingReference | backend/app/crud/marketplace.py:207 | the reference is `BK-` followed by the UUID's first eight hex digits in upper case |
| Marketplace.UpperHexDigits | backend/app/crud/marketplace.py:207 | upper-casing lower-case hex digits gives upper-case hex digits |
| Marketplace.ReferenceRecoversDigits | backend/app/crud/marketplace.py:207 | the reference gives back the UUID's first eight digits, so references are equal exactly when those digits are |
| Marketplace.ApplyBookingStatus | backend/app/crud/marketplace.py:254-261 | the status is written as given, notes only when non-empty, and the completion time is stamped exactly when the new status is completed |
| Marketplace.CompletionIsKept | backend/app/crud/marketplace.py:259-261 | a booking completed once keeps a completion time whatever status it takes later |
| Marketplace.MarketplaceStore.CreateProfessionalProfile | backend/app/crud/marketplace.py:23-39 | adds one pending, unreviewed profile of the user with the request's fields |
| Marketplace.MarketplaceStore.UpdateProfessionalProfile | backend/app/crud/marketplace.py:75-91 | a missing id changes nothing; otherwise the set fields replace that profile's |
| Marketplace.MarketplaceStore.ApproveProfessionalProfile | backend/app/crud/marketplace.py:93-113 | a missing id changes nothing; otherwise the decision is recorded on that profile |
| Marketplace.MarketplaceStore.CreateServiceListing | backend/app/crud/marketplace.py:116-129 | adds one unrated listing of the professional with the request's fields |
| Marketplace.MarketplaceStore.UpdateServiceListing | backend/app/crud/marketplace.py:175-191 | a missing id changes nothing; otherwise the set fields replace that listing's |
| Marketplace.MarketplaceStore.DeleteServiceListing | backend/app/crud/marketplace.py:193-200 | reports a deletion exactly when the listing existed; afterwards it is gone |
| Marketplace.MarketplaceStore.CreateBooking | backend/app/crud/marketplace.py:203-218 | adds one pending booking of the client with a fresh `BK-` reference and no professional |
| Marketplace.MarketplaceStore.UpdateBookingStatus | backend/app/crud/marketplace.py:243-265 | a missing id changes nothing; otherwise the status change is applied to that booking |
| Marketplace.MarketplaceStore.UpdateServiceRating | backend/app/crud/marketplace.py:309-323 | an existing service takes the mean of its reviews' ratings, in 1..5, and their number; 0 exactly when it has none |
| Marketplace.MarketplaceStore.CreateServiceReview | backend/app/crud/marketplace.py:268-285 | appends the review, adds its rating to its service's list, and recomputes that service's figures |
| MarketplaceApi.ProfessionalGate | backend/app/api/v1/marketplace.py:37-38 | only professional users pass; others get 403 |
| MarketplaceApi.CreateProfile | backend/app/api/v1/marketplace.py:30-43 | 403 with no change for non-professionals; otherwise one pending profile of the caller is added |
| MarketplaceApi.Find | backend/app/api/v1/marketplace.py:82-84 | a lookup finds the row exactly when the id exists, and answers 404 otherwise |
| MarketplaceApi.UpdateProfile | backend/app/api/v1/marketplace.py:74-89 | 404 for a missing profile, 403 unless the caller owns it or is an administrator, both without a change; otherwise the set fields are applied |
| MarketplaceApi.ProfileEditKeepsStatus | backend/app/api/v1/marketplace.py:74-89 | editing a profile never changes its review status |
| MarketplaceApi.ApproveProfile | backend/app/api/v1/marketplace.py:91-106 | 403 for non-administrators and a server error for a missing profile, both without a change; otherwise the administrator's decision is recorded |
| MarketplaceApi.PendingProfiles | backend/app/api/v1/marketplace.py:305-319 | administrators get exactly the pending profiles of their organization; others 403 |
| MarketplaceApi.CreateService | backend/app/api/v1/marketplace.py:109-121 | 403 with no change for non-professionals; otherwise an unrated listing of the caller is added |
| MarketplaceApi.ServiceOwnerCheck | backend/app/api/v1/marketplace.py:156-192 | a listing may be changed exactly by the professional who owns it: 404 when missing, 403 for anyone else |
| MarketplaceApi.UpdateService | backend/app/api/v1/marketplace.py:156-171 | a refused edit changes nothing; an accepted one applies the set fields |
| MarketplaceApi.DeleteService | backend/app/api/v1/marketplace.py:173-192 | a refused delete changes nothing; an accepted one removes the listing |
| MarketplaceApi.CreateBookingRequest | backend/app/api/v1/marketplace.py:194-203 | adds one pending booking of the caller with a fresh reference |
| MarketplaceApi.GetBooking | backend/app/api/v1/marketplace.py:220-235 | a booking is shown exactly to a party of it: 404 when missing, 403 for anyone else |
| MarketplaceApi.ProfessionalOnlyStatusNeverHolds | backend/app/api/v1/marketplace.py:250-251 | the professional-only check compares against statuses the enum does not have, so it never refuses |
| MarketplaceApi.BookingStatusCheck | backend/app/api/v1/marketplace.py:249-254 | a refusal is always 403, and cancelling another client's booking is always refused |
| MarketplaceApi.OnlyCancelIsGuarded | backend/app/api/v1/marketplace.py:249-254 | a status change is refused exactly when someone other than the client cancels |
| MarketplaceApi.UpdateBooking | backend/app/api/v1/marketplace.py:237-259 | 404 for a missing booking and 403 for a refused change, both without a change; otherwise the new status is applied |
| MarketplaceApi.ValidateRating | backend/app/schemas/marketplace.py:307 | a rating passes exactly in 1..5; otherwise 422 |
| MarketplaceApi.CreateReview | backend/app/api/v1/marketplace.py:262-271 | an out-of-range rating is 422 with no change; otherwise the caller's review is appended and the service's figures recomputed (the intended reading, see Findings) |
| MarketplaceApi.CreateReviewAsWritten | backend/app/crud/marketplace.py:267-284 | as written: 422 for an out-of-range rating, otherwise 500 |
| MarketplaceApi.ReviewDiscrepancy | backend/app/crud/marketplace.py:267-284 | a rating in range is stored by the intended handler and refused with 500 as written |
| SuccessStoriesApi.GetStory | backend/app/api/v1/success_stories.py:59-75 | a story is shown exactly when it exists and is approved, or the caller wrote it or holds an admin role; 404 when missing, 403 otherwise |
| SuccessStoriesApi.ApprovedStoryIsPublic | backend/app/api/v1/success_stories.py:70-73 | an approved story is shown to every caller |
| SuccessStoriesApi.AuthorReadsOwnStory | backend/app/api/v1/success_stories.py:70-73 | an author can always read their own story, approved or not |
| SuccessStoriesApi.StoryEditGate | backend/app/api/v1/success_stories.py:77-108 | a story may be edited or deleted exactly by its author or an administrator; 404 when missing, 403 otherwise |
| SuccessStoriesApi.EditorsCanRead | backend/app/api/v1/success_stories.py:59-108 | whoever may edit a story may also read it |
| SuccessStoriesApi.DeleteStory | backend/app/api/v1/success_stories.py:95-114 | a refused delete answers the gate's error; an allowed delete that the store reports as failed is 400 |
| SuccessStoriesApi.StoryAdminGate | backend/app/api/v1/success_stories.py:117-132 | approving and listing pending stories are for administrators only (403 otherwise) |
| SuccessStoriesApi.AuthorsCannotApprove | backend/app/api/v1/success_stories.py:117-132 | an author who is not an administrator may edit their story but not approve it |
| SuccessStoriesApi.StoryStatsOf | backend/app/api/v1/success_stories.py:184-204 | the total is the number of stories, and the approved, pending and featured counts are the numbers of stories with status "approved", with status "pending" and featured; approved and pending together never exceed the total; all figures are 0 for no stories, and view and like totals are non-negative |
| SuccessStoriesApi.SumOfNonNegative | backend/app/api/v1/success_stories.py:200-201 | a sum of non-negative counts is non-negative |
| SuccessStoriesApi.StoryStatsAppend | backend/app/api/v1/success_stories.py:195-202 | one more story adds one to the total, its views and likes to the sums, and counts it under its status |
| NetworkingApi.CreateEventGate | backend/app/api/v1/networking.py:63-76 | only administrators create events (403 otherwise) |
| NetworkingApi.GetEvent | backend/app/api/v1/networking.py:95-105 | an event is found exactly when it exists; 404 otherwise |
| NetworkingApi.RegistrationsGate | backend/app/api/v1/networking.py:120-131 | the registration list is shown exactly to the event's organizer; 403 otherwise, a missing event included |
| NetworkingApi.MissingEventIsForbiddenNotFound | backend/app/api/v1/networking.py:120-131 | a missing event reads as 404 but its registration list as 403 |
| NetworkingApi.AdminsAreNotOrganizers | backend/app/api/v1/networking.py:128-129 | an administrator who did not organize the event cannot see its registrations |
| NetworkingApi.RemoveInterest | backend/app/api/v1/networking.py:153-165 | removal succeeds exactly when the caller's interest was deleted; 404 otherwise |
| NetworkingApi.NetworkingStatsOf | backend/app/api/v1/networking.py:168-182 | the connection total is the number of the caller's connections whose status is "accepted" and the pending count the number whose status is "pending"; together they never exceed the connections; interests are counted, and events attended is always 0 |
| NetworkingApi.AllCounted | backend/app/api/v1/networking.py:178-179 | when every connection is accepted, all are counted as connections and none as pending |
| LegacyModel.ToFloat | backend/src/routes/grants.py:118 | `float(v)` gives a number's value, 1 or 0 for a boolean, the parsed text of a string, and raises for null or a list |
| LegacyModel.ParseWith | backend/src/routes/grants.py:134 | a date parser applied to anything but a string raises |
| LegacyModel.CountAfterInsert | backend/src/models/grant.py:62 | adding an application under a fresh id raises its grant's application count by one |
| LegacyModel.Overlay | backend/src/routes/grants.py:177-182 | after the update loop a field is present exactly when it was or the body sets a whitelisted key; unlisted fields keep their values, non-numeric listed ones take the body's |
| LegacyModel.OverlayStep | backend/src/routes/grants.py:177-182 | one more turn of the loop assigns the next whitelisted key |
| LegacyModel.ConvertibleStep | backend/src/routes/grants.py:179-180 | one more convertible key extends the convertible prefix |
| LegacyModel.OverlayConverted | backend/src/routes/grants.py:179-182 | when every conversion succeeds each whitelisted key holds its converted value |
| LegacyModel.AssignWhitelisted | backend/src/routes/applications.py:281-286 | the update loop fails exactly when some conversion raises; otherwise it yields the overlay, each whitelisted key converted |
| LegacyModel.AssignTurn | backend/src/routes/applications.py:281-286 | one whitelisted field: a failed conversion means the whole update fails; otherwise the overlay grows by that field |
| LegacyModel.LegacyStore.AddGrant | backend/src/routes/grants.py:139-140 | adds the grant under the next id and leaves the applications alone |
| LegacyModel.LegacyStore.PutGrant | backend/src/routes/grants.py:197-198 | replaces one existing grant row |
| LegacyModel.LegacyStore.RemoveGrant | backend/src/routes/grants.py:226-230 | removes a grant no application refers to |
| LegacyModel.LegacyStore.AddApplication | backend/src/routes/applications.py:171-172 | adds the application under the next id, for an existing grant |
| LegacyModel.LegacyStore.PutApplication | backend/src/routes/applications.py:295 | replaces one existing application row |
| LegacyModel.LegacyStore.RemoveApplication | backend/src/routes/applications.py:332-334 | removes one application row |
| LegacyGrants.GrantGate | backend/src/routes/grants.py:77-87 | 401 without a user, 404 for an unknown grant, 403 when a council user does not own it; a non-council user passes for every existing grant |
| LegacyGrants.GetGrant | backend/src/routes/grants.py:74-89 | succeeds exactly when the shared checks pass, with the stored grant; otherwise the check's error |
| LegacyGrants.ListGrants | backend/src/routes/grants.py:28-56 | 401 without a user; otherwise exactly the grants the caller may see that match the non-empty status and category filters and whose title or description contains the non-empty search, ignoring ASCII case |
| LegacyGrants.FirstMissing | backend/src/routes/grants.py:108-111 | none exactly when every required field is truthy; otherwise a required field that is empty |
| LegacyGrants.OptionalDate | backend/src/routes/grants.py:133-137 | an absent or empty value means no date; otherwise the parse result, a 500 when the parser raises |
| LegacyGrants.Inserted | backend/src/models/grant.py:12 | a null attribute is left out of the INSERT, so the column default is stored; any other value is stored as given |
| LegacyGrants.NewGrantFields | backend/src/routes/grants.py:114-130 | every not-null column is present; title, description and category are copied from the body; the status is the one sent or `draft` when absent or null, and the two flags are the ones sent or false when absent or null |
| LegacyGrants.CreateGrantError | backend/src/routes/grants.py:98-137 | 401, then 403 for a non-council role, then 400 for an empty required field, then 500 for a conversion that raises, and no other error (a null status is stored as `draft`); no error leaves all four required fields in the body |
| LegacyGrants.CreateGrantResult | backend/src/routes/grants.py:94-145 | fails exactly with the error of the checks; a success carries the given id, the caller as council and the parsed dates |
| LegacyGrants.CreatedGrantColumns | backend/src/routes/grants.py:115-119 | a created grant has the title, description and category as sent, the amount converted by `float`, the status as sent or `draft` when absent or null, and `auto_approve` and `public_voting` as sent or false when absent or null |
| LegacyGrants.CreateGrant | backend/src/routes/grants.py:94-149 | the outcome is the one the result function gives; a success adds exactly the new row under a fresh id, a failure writes nothing |
| LegacyGrants.UpdatedDate | backend/src/routes/grants.py:185-195 | an absent key keeps the date, an empty value clears it, any other value is parsed, a 500 when the parser raises |
| LegacyGrants.UpdateGrant | backend/src/routes/grants.py:151-207 | the shared checks' error when they fail; otherwise success exactly when every conversion succeeds, writing the overlaid row; a failure writes nothing |
| LegacyGrants.UpdateKeepsOwnerAndUnlistedColumns | backend/src/routes/grants.py:170-182 | an update leaves every column outside the whitelist as it was |
| LegacyGrants.DeleteGrant | backend/src/routes/grants.py:209-232 | the shared checks' error, then 400 while any application refers to the grant; success removes exactly that grant |
| LegacyGrants.GrantCategories | backend/src/routes/grants.py:238-259 | fifteen distinct categories |
| LegacyGrants.GrantDict | backend/src/models/grant.py:40-63 | the dictionary has the grant's columns plus id, council and application count, each with its value |
| LegacyGrants.PublicGrantIds | backend/src/routes/grants.py:264-282 | exactly the grants with the requested status (`active` by default), the non-empty category and, for a non-empty search, a title or description containing it |
| LegacyGrants.PublicGrantDicts | backend/src/routes/grants.py:288-294 | one dictionary per row, in order, each without `council_id` |
| LegacyApplications.AccessGate | backend/src/routes/applications.py:84-101 | 401 without a user, 404 for an unknown application, 403 unless the caller owns the grant (council) or carries the applicant's email (anyone else) |
| LegacyApplications.GetApplication | backend/src/routes/applications.py:81-103 | succeeds exactly when the shared checks pass, with the stored row; otherwise the check's error |
| LegacyApplications.ListApplications | backend/src/routes/applications.py:29-61 | 401 without a user; otherwise exactly the visible applications matching the given status and grant filters and, for a non-empty search, whose project title, applicant name or organisation name contains it |
| LegacyApplications.FirstMissingField | backend/src/routes/applications.py:115-121 | none exactly when every required field is truthy; otherwise a required field that is empty |
| LegacyApplications.GrantKey | backend/src/routes/applications.py:124 | a JSON value names a grant exactly when it is a non-negative whole number, and names that number |
| LegacyApplications.CapCheck | backend/src/routes/applications.py:136-139 | no cap for an empty value; a numeric cap admits exactly the counts below it; a text cap raises (500) |
| LegacyApplications.CheckSubmission | backend/src/routes/applications.py:112-163 | 400 for an empty required field, 404 for an unknown grant; an accepted submission names an active, open grant below its cap |
| LegacyApplications.OptionalStringDate | backend/src/routes/applications.py:159-163 | an absent or empty value leaves the date unset; otherwise the parse result, failing when the parser raises |
| LegacyApplications.NewApplication | backend/src/routes/applications.py:142-169 | the new row is `submitted` with priority `medium`, or `approved` for the requested amount and decided now when the grant auto-approves; the applicant's fields are copied from the body |
| LegacyApplications.NewApplicationFilled | backend/src/models/application.py:7-58 | a created row fills the not-null columns when the body's required values are not null |
| LegacyApplications.CreateApplicationResult | backend/src/routes/applications.py:108-176 | fails exactly with the checks' error; a success carries the given id, an existing grant and filled columns |
| LegacyApplications.AutoApprovalOutcome | backend/src/routes/applications.py:165-169 | a created application is approved exactly when its grant auto-approves, for the amount requested |
| LegacyApplications.CapRespected | backend/src/routes/applications.py:136-139 | with a numeric cap, an accepted application found fewer rows than the cap |
| LegacyApplications.CreateApplication | backend/src/routes/applications.py:108-181 | the outcome is the one the result function gives; a success adds exactly the new row, a failure writes nothing, and a whole-number cap is never exceeded |
| LegacyApplications.WholeBound | backend/src/routes/applications.py:138 | a count below a whole-number cap stays within it after one more row |
| LegacyApplications.StatusUpdateError | backend/src/routes/applications.py:187-210 | no error exactly when the caller is a council user owning the application's grant and the status is one of the five; 401, 403 and 404 in the source's order |
| LegacyApplications.ApplyStatus | backend/src/routes/applications.py:213-223 | the new status, reviewed now, decided now on approval or rejection, an approval's amount as sent or the requested amount, the notes as sent; required columns unchanged |
| LegacyApplications.FilledThroughGet | backend/src/models/application.py:7-58 | nulls written outside the not-null columns leave them filled |
| LegacyApplications.UpdateApplicationStatus | backend/src/routes/applications.py:183-230 | fails exactly with the checks' error; otherwise the stored row becomes the status-applied row |
| LegacyApplications.AnyTransitionAllowed | backend/src/routes/applications.py:208-213 | a council reviewer may move an application from any status to any of the five |
| LegacyApplications.EditError | backend/src/routes/applications.py:240-260 | the shared checks' error when they fail; no error exactly when they pass, then 400 for an applicant once review has started |
| LegacyApplications.DateIfGiven | backend/src/routes/applications.py:289-293 | an absent or empty value keeps the date; otherwise the parse result, failing when the parser raises |
| LegacyApplications.UpdateApplication | backend/src/routes/applications.py:236-300 | success exactly when the checks pass, every conversion and date parses and the required columns stay filled; the row becomes the overlay of the caller's whitelist; a failure writes nothing |
| LegacyApplications.MemberEditKeepsAssessment | backend/src/routes/applications.py:264-279 | an applicant's edit leaves every assessment column as it was |
| LegacyApplications.CouncilEditKeepsApplicantDetails | backend/src/routes/applications.py:264-279 | a council edit leaves the applicant's own details as they were |
| LegacyApplications.WithdrawError | backend/src/routes/applications.py:310-330 | the shared checks' error when they fail; then 400 for an applicant once a decision is made |
| LegacyApplications.DeleteApplication | backend/src/routes/applications.py:306-343 | fails exactly with the checks' error; a council user removes the row, an applicant's row before a decision becomes `withdrawn` and stays |
| LegacyApplications.NoWithdrawalAfterDecision | backend/src/routes/applications.py:329-330 | a decided or withdrawn application cannot be withdrawn by its applicant |
| LegacyApplications.StatusCountsCount | backend/src/routes/applications.py:370-371 | each status is counted as often as rows carry it, and only occurring statuses are keys |
| LegacyApplications.Contribution | backend/src/routes/applications.py:372-374 | an empty amount adds nothing, a number adds itself, text raises |
| LegacyApplications.NumericColumnsTotal | backend/src/routes/applications.py:372-374 | a total over numbers and nulls never raises |
| LegacyApplications.ComputeApplicationStats | backend/src/routes/applications.py:365-374 | succeeds exactly when both totals are defined; the count is the number of rows and the per-status counts are the tally |
| LegacyApplications.AddContribution | backend/src/routes/applications.py:370-374 | one row's step keeps the running total equal to the column total over the rows seen, and defined exactly when that is |
| LegacyApplications.ShareBounds | backend/src/routes/applications.py:381 | a share of a positive whole is a percentage between 0 and 100 |
| LegacyApplications.ApprovalRate | backend/src/routes/applications.py:381 | the approval rate is between 0 and 100, and 0 without applications |
| LegacyApplications.OwnedApplicationIds | backend/src/routes/applications.py:361-362 | exactly the applications to the caller's own grants |
| LegacyApplications.RowsOf | backend/src/routes/applications.py:363 | the rows fetched for a list of ids, one per id, in that order |
| LegacyApplications.FetchRows | backend/src/routes/applications.py:362-363 | the applications to the caller's grants are fetched each exactly once, in some order |
| LegacyApplications.EnumeratedStatusCount | backend/src/routes/applications.py:371 | whatever the fetch order, a status is counted once for each selected application that has it |
| LegacyApplications.EnumeratedStatusCounts | backend/src/routes/applications.py:370-371 | the status histogram of the fetched rows gives, for every status, the number of selected applications with it |
| LegacyApplications.NumericEnumeratedColumn | backend/src/routes/applications.py:372-374 | when every selected application has a numeric or null amount, the sum over the fetched rows exists |
| LegacyApplications.ApplicationStatistics | backend/src/routes/applications.py:350-382 | 401 without a user, 403 for a non-council role; the total is the number of applications to the caller's grants, each status count is the number of those applications with that status, and the two sums are taken over those applications in the order fetched; it succeeds whenever their amounts are numbers |
| GrantDataProcessor.CatalogNames | grant_data_processor.py:24-79 | the nine catalog categories have distinct names, none of them `Other` |
| GrantDataProcessor.RepeatedKeywordCountsTwice | grant_data_processor.py:214-216 | a keyword listed twice adds two to the score of a text containing it |
| GrantDataProcessor.CountAtLeastOne | grant_data_processor.py:214-216 | a sequence with a matching element counts at least one |
| GrantDataProcessor.TechnologyKeywords | grant_data_processor.py:55-57 | a text mentioning `innovation` gives Technology & Innovation at least two points; its upper-case keyword `IT` never matches the lower-cased text |
| GrantDataProcessor.Scored | grant_data_processor.py:212-220 | no more scored entries than catalog entries |
| GrantDataProcessor.ScoredEntries | grant_data_processor.py:212-220 | exactly the catalog entries with a positive score are listed, each with its score |
| GrantDataProcessor.PrimaryIndex | grant_data_processor.py:224 | the position of the first highest score: nothing scores higher, and everything before it scores less |
| GrantDataProcessor.Names | grant_data_processor.py:220 | the names of the scored categories, in order |
| GrantDataProcessor.PrimaryIsFirstHighest | grant_data_processor.py:222-229 | the primary category is among all matched categories and carries the first highest score |
| GrantDataProcessor.NoMatchIsOther | grant_data_processor.py:230-235 | the `Other` result is given exactly when no catalog entry scores |
| GrantDataProcessor.ScoredNames | grant_data_processor.py:218-220 | with distinct names, a category is named among the scored ones exactly when it scores |
| GrantDataProcessor.MatchedCategories | grant_data_processor.py:209-227 | a catalog category is listed among all categories exactly when it scores |
| GrantDataProcessor.CategorizeGrant | grant_data_processor.py:196-235 | the keyword-by-keyword loop computes the categorisation of the combined lower-cased text |
| GrantDataProcessor.ScoreCategories | grant_data_processor.py:212-221 | a category is listed, in catalog order, exactly when its score is positive, and carries that score |
| GrantDataProcessor.CountKeywords | grant_data_processor.py:213-216 | the score is the number of listed keywords, repeats included, found in the text |
| GrantDataProcessor.LookupCategory | grant_data_processor.py:306-309 | a found entry is in the catalog under that name; nothing is found exactly when no entry has it |
| GrantDataProcessor.GrantSize | grant_data_processor.py:237-249 | `Unknown` exactly for a zero amount |
| GrantDataProcessor.SizeMonotone | grant_data_processor.py:242-249 | a larger positive amount never falls in a lower band |
| GrantDataProcessor.GetCoordinates | grant_data_processor.py:251-275 | a known postcode gives its table entry, else a known state its centre, else the centre of Australia |
| GrantDataProcessor.MappedPlaceKnown | grant_data_processor.py:251-275 | the mapped state is a known state or `Unknown`, and a named city comes only from a known postcode |
| GrantDataProcessor.FirstPresent | grant_data_processor.py:295-296 | Python's `a or b`: present when either is, the first when it is present |
| GrantDataProcessor.ParsedDate | grant_data_processor.py:315-326 | a parsed date exists only for a present date with three dash-separated pieces, and is the parser's result |
| GrantDataProcessor.ProcessedLocation | grant_data_processor.py:283-312 | a processed record keeps the grant and the clock reading, is located exactly when a postcode or state is present, recipient fields first |
| GrantDataProcessor.PrimaryInCatalog | grant_data_processor.py:223-229 | a primary category other than `Other` is a catalog category |
| GrantDataProcessor.ProcessedStyle | grant_data_processor.py:306-309 | a processed grant has a colour and icon exactly when its primary category is not `Other` |
| GrantDataProcessor.MappingGrantOf | grant_data_processor.py:351-380 | the map entry is located exactly when the grant is, carries the recipient postcode and a grants.gov.au link |
| GrantDataProcessor.MappingGrantsAt | grant_data_processor.py:350-382 | one map entry per processed grant, in order |
| GrantDataProcessor.MappingGrantsStep | grant_data_processor.py:382 | one more grant appends its entry |
| GrantDataProcessor.SummaryTotals | grant_data_processor.py:384-395 | each summary distribution adds up to the number of grants |
| GrantDataProcessor.GrantDataProcessor.LoadData | grant_data_processor.py:180-191 | the records replace the loaded grants |
| GrantDataProcessor.GrantDataProcessor.ProcessGrants | grant_data_processor.py:277-332 | every loaded grant, in order, becomes its processed record; the result replaces the processed data |
| GrantDataProcessor.ProcessOne | grant_data_processor.py:281-327 | one turn of the loop yields exactly the processed record of that grant |
| GrantDataProcessor.GrantDataProcessor.GenerateMappingData | grant_data_processor.py:334-397 | one map entry per processed grant, totals, and three tallies that each add up to the number of grants |
| GrantDataProcessor.GrantDataProcessor.GenerateSummaryReport | grant_data_processor.py:409-437 | nothing without data; otherwise the count, the total, an average that times the count gives the total, and the three distributions |
| GrantScraper.ScraperCatalogNames | grant_scraper.py:237-246 | the scraper's eight categories have distinct names, none of them `Other` |
| GrantScraper.ScrapedTextAsWritten | grant_scraper.py:249-255 | joining the four fields raises exactly when one of them is present but not text |
| GrantScraper.FieldText | grant_scraper.py:249-254 | a field reads as its text wherever the source reads it without raising |
| GrantScraper.MissingFieldRaises | grant_scraper.py:249-255 | a record whose category was scraped as `None` makes the join raise; the corrected text agrees with the written one wherever that does not raise |
| GrantScraper.MatchedNamesFromCatalog | grant_scraper.py:258-260 | every matched name names a catalog entry |
| GrantScraper.MatchedNamesMember | grant_scraper.py:258-260 | an entry is matched exactly when one of its keywords occurs in the text |
| GrantScraper.OrderedNamesDistinct | grant_scraper.py:258-260 | names in catalog order are distinct |
| GrantScraper.MatchedNamesOrder | grant_scraper.py:258-260 | matched names keep catalog order |
| GrantScraper.ScrapedCategoriesFacts | grant_scraper.py:258-266 | the categories are the matching entries, each once and in catalog order, or exactly `Other` when none matches |
| GrantScraper.CategorizeScraped | grant_scraper.py:232-266 | the loop that tests each entry's keywords computes the categories of the record's combined text |
| GrantScraper.CategorizeWith | grant_scraper.py:255-264 | over any catalog, the loop yields the matching entries of the combined text, or exactly `Other` when none matches |
| GrantScraper.MatchCatalog | grant_scraper.py:258-260 | the entries are visited in catalog order and an entry is kept exactly when one of its keywords occurs in the text |
| GrantScraper.HasKeyword | grant_scraper.py:259 | `any` over the keywords: true exactly when some keyword is a substring of the text |
| GrantScraper.ScrapedSize | grant_scraper.py:268-280 | no amount or zero is `Unknown`; any other amount falls in the processor's bands |
| GrantScraper.CombineFields | grant_scraper.py:325-334 | the award fields override the decision fields, every other key kept, plus the categories of the combined text, the size band and the scrape time |
| GrantScraper.BelowIrreflexive | grant_scraper.py:364 | no key sorts below itself |
| GrantScraper.BelowTransitive | grant_scraper.py:364 | the key order is transitive |
| GrantScraper.BelowTotal | grant_scraper.py:364 | any two distinct keys are ordered one way or the other |
| GrantScraper.InsertSorted | grant_scraper.py:364 | inserting a key keeps the list strictly sorted, holding exactly the old keys and the new one |
| GrantScraper.SortedHead | grant_scraper.py:364 | a key below the first of a sorted list can be put in front |
| GrantScraper.SortKeys | grant_scraper.py:364 | `sorted(keys)` is strictly increasing and holds exactly the keys |
| GrantScraper.AllKeysMember | grant_scraper.py:359-361 | a key is in the union exactly when some record has it |
| GrantScraper.CollectKeys | grant_scraper.py:359-361 | the loop collects exactly the keys some record has |
| GrantScraper.CsvCell | grant_scraper.py:374-375 | a list becomes its items joined with `, `; any other value is kept |
| GrantScraper.Flattened | grant_scraper.py:372-375 | the same keys, no list values, each value as a CSV cell |
| GrantScraper.FlattenRow | grant_scraper.py:372-375 | the loop over the copied row computes the flattened record |
| GrantScraper.WriteRow | grant_scraper.py:376 | one cell per header, empty text where the row has no such key |
| GrantScraper.AllLabelsPrefixFail | grant_scraper.py:404-405 | once iterating some record's categories raises, the whole count raises |
| GrantScraper.CountLabels | grant_scraper.py:405-406 | the inner loop extends the category tally by the record's labels |
| GrantScraper.GrantsGovAuScraper.CollectGrants | grant_scraper.py:319-344 | each fetched decision and award pair, in order, becomes its combined record; the records replace the scraped grants |
| GrantScraper.GrantsGovAuScraper.CombineAll | grant_scraper.py:319-337 | after the loop, the i-th record is the combination of the i-th fetched pair stamped with the i-th clock reading, for every i |
| GrantScraper.GrantsGovAuScraper.CombineTurn | grant_scraper.py:324-337 | one turn appends the merged pages with their categories, size band and time stamp and leaves the earlier records alone |
| GrantScraper.GrantsGovAuScraper.SaveToCsv | grant_scraper.py:352-376 | nothing without data; otherwise sorted headers that are exactly the keys of the records, and one flattened row per record |
| GrantScraper.GrantsGovAuScraper.GetSummaryStats | grant_scraper.py:380-412 | `{}` exactly without data, raising exactly when a value cannot be summed or a category list iterated; otherwise the count, the total and the four tallies |
| GrantScraper.StatsTotals | grant_scraper.py:394-410 | the agency, state and size counters each add up to the number of grants, the category counters to the number of labels |
| EnhancedMapping.RegionsDisjoint | enhanced_mapping_data_processor.py:44-60 | no city belongs to two of the three regions |
| EnhancedMapping.EnhanceGrant | enhanced_mapping_data_processor.py:73-107 | raises exactly when the location holds a null city or state; a grant without added coordinates is unchanged, and otherwise only its location changes |
| EnhancedMapping.CityFirst | enhanced_mapping_data_processor.py:79-90 | a table city takes precedence: its coordinates are added, the postcode is filled in only when empty, the city unchanged |
| EnhancedMapping.StateFallback | enhanced_mapping_data_processor.py:92-104 | without a table city, a table state gives its coordinates; the city becomes the state only when empty, the postcode is filled in only when empty |
| EnhancedMapping.NoPlaceUnchanged | enhanced_mapping_data_processor.py:106-107 | with neither city nor state in the table the grant is unchanged and nothing is added |
| EnhancedMapping.AddedHasCoordinates | enhanced_mapping_data_processor.py:82-104 | a grant given coordinates has them and a non-null city |
| EnhancedMapping.MarkerOf | enhanced_mapping_data_processor.py:116-131 | the marker carries the grant's id and coordinates |
| EnhancedMapping.MarkersOf | enhanced_mapping_data_processor.py:113-132 | one marker per grant with coordinates |
| EnhancedMapping.CreateMapMarkers | enhanced_mapping_data_processor.py:109-135 | the loop builds exactly the markers of the grants with coordinates, in order |
| EnhancedMapping.RegionGrants | enhanced_mapping_data_processor.py:145-148 | exactly the grants whose upper-case city is one of the region's, in order |
| EnhancedMapping.GatherRegion | enhanced_mapping_data_processor.py:142-149 | raises exactly when some grant has a null city; otherwise the region's grants and their total value |
| EnhancedMapping.GatherStep | enhanced_mapping_data_processor.py:145-149 | a grant is kept, and its value added to the total, exactly when its city is one of the region's |
| EnhancedMapping.CreateRegionClusters | enhanced_mapping_data_processor.py:137-171 | raises exactly when some grant has a null city; otherwise one cluster per region with grants, with their count, value and category tally |
| EnhancedMapping.ClustersDisjoint | enhanced_mapping_data_processor.py:44-60 | no grant is listed in two clusters |
| EnhancedMapping.ClusterCounts | enhanced_mapping_data_processor.py:151-168 | the clustered counts add up to the region memberships |
| EnhancedMapping.AtMostOneRegion | enhanced_mapping_data_processor.py:145-148 | with disjoint city lists a grant belongs to at most one region |
| EnhancedMapping.MembershipsZero | enhanced_mapping_data_processor.py:145-148 | a grant has no membership exactly when it is outside every region |
| EnhancedMapping.RegionTotalStep | enhanced_mapping_data_processor.py:145-148 | one more grant adds its memberships to the region total |
| EnhancedMapping.RegionTotalBound | enhanced_mapping_data_processor.py:141-168 | clusters never count more grants than there are |
| EnhancedMapping.ClusteredAtMostAll | enhanced_mapping_data_processor.py:141-168 | the cluster counts add up to at most the number of grants |
| EnhancedMapping.EnhanceAllFacts | enhanced_mapping_data_processor.py:184-189 | one enhanced grant per grant; the number given coordinates is at most the number with coordinates, and no city is null |
| EnhancedMapping.EnhanceAllRaises | enhanced_mapping_data_processor.py:184-187 | the enhancement raises exactly when one grant raises |
| EnhancedMapping.EnhanceMappingData | enhanced_mapping_data_processor.py:173-214 | nothing for absent data, raising exactly when a grant raises; otherwise the enhanced grants, the count given coordinates (at most the total and the markers), the markers and clusters of the enhanced grants, and the summary counts |
| GrantWizard.WithText | frontend/src/pages/GrantCreationWizard.jsx:122-127 | the named input takes the value and every other field keeps its own |
| GrantWizard.ErrorIf | frontend/src/pages/GrantCreationWizard.jsx:134 | an error for the key exactly when the value is missing |
| GrantWizard.DetailsErrors | frontend/src/pages/GrantCreationWizard.jsx:133-138 | an error for each of title, category, description and eligibility criteria exactly when it is empty, and no other |
| GrantWizard.FundingErrors | frontend/src/pages/GrantCreationWizard.jsx:139-143 | an error for each of total funding, open date and close date exactly when it is empty, and no other |
| GrantWizard.StepErrors | frontend/src/pages/GrantCreationWizard.jsx:129-150 | step 1 and 2 give their field errors, step 4 an error exactly when there is no reviewer, any other step none |
| GrantWizard.StepRequirements | frontend/src/pages/GrantCreationWizard.jsx:129-153 | a step validates exactly when its required fields are filled; step 3 always validates |
| GrantWizard.Next | frontend/src/pages/GrantCreationWizard.jsx:156-160 | forward by one when the step validates, never past step 4; unchanged otherwise |
| GrantWizard.Prev | frontend/src/pages/GrantCreationWizard.jsx:162-164 | back by one, never before step 1 |
| GrantWizard.NextThenPrev | frontend/src/pages/GrantCreationWizard.jsx:156-164 | going forward then back returns to the step, except from the last |
| GrantWizard.Completion | frontend/src/pages/GrantCreationWizard.jsx:683 | the completion percentage is the step's share of four |
| GrantWizard.EstimatedMinutes | frontend/src/pages/GrantCreationWizard.jsx:687 | the minutes left and the step add up to five |
| GrantWizard.ProgressBounds | frontend/src/pages/GrantCreationWizard.jsx:683-687 | from 25% and 4 minutes to 100% and 1 minute; 100% exactly at the last step; moving forward never lowers it |
| GrantWizard.Without | frontend/src/pages/GrantCreationWizard.jsx:261 | the documents without any occurrence of the one unchecked, the others kept |
| GrantWizard.ToggleDocument | frontend/src/pages/GrantCreationWizard.jsx:257-262 | checking appends the document; unchecking removes every occurrence and keeps the rest |
| GrantWizard.WithoutAbsent | frontend/src/pages/GrantCreationWizard.jsx:261 | removing a document that is not listed changes nothing |
| GrantWizard.CheckThenUncheck | frontend/src/pages/GrantCreationWizard.jsx:257-262 | checking then unchecking an unlisted document restores the list |
| GrantWizard.RemoveAt | frontend/src/pages/GrantCreationWizard.jsx:435 | the list without the element at the index, the others in order; an index outside the list changes nothing |
| GrantWizard.AppendThenRemove | frontend/src/pages/GrantCreationWizard.jsx:435-466 | adding an element then removing it by its index restores the list |
| GrantWizard.ReviewerGate | frontend/src/pages/GrantCreationWizard.jsx:148 | adding a reviewer lets the last step pass; removing the only reviewer makes it fail |
| GrantWizard.Wizard.ValidateStep | frontend/src/pages/GrantCreationWizard.jsx:129-154 | records the step's errors and reports whether there are none; the form and step are unchanged |
| GrantWizard.Wizard.NextStep | frontend/src/pages/GrantCreationWizard.jsx:156-160 | validates the current step and moves forward exactly when it passes |
| GrantWizard.Wizard.PrevStep | frontend/src/pages/GrantCreationWizard.jsx:162-164 | moves back, never before the first step; form and errors unchanged |
| GrantWizard.Wizard.PublishGrant | frontend/src/pages/GrantCreationWizard.jsx:179-181 | proceeds exactly when there is at least one reviewer |
| GrantWizard.Wizard.UpdateText | frontend/src/pages/GrantCreationWizard.jsx:122-127 | the form becomes the one with that input changed; step and errors unchanged |
| GrantWizard.Wizard.SetDocument | frontend/src/pages/GrantCreationWizard.jsx:255-262 | the document list is toggled and nothing else changes |
| GrantWizard.Wizard.AddQuestion | frontend/src/pages/GrantCreationWizard.jsx:460-467 | appends an empty, optional text question |
| GrantWizard.Wizard.RemoveQuestion | frontend/src/pages/GrantCreationWizard.jsx:434-437 | removes the question at the index |
| GrantWizard.Wizard.EditQuestion | frontend/src/pages/GrantCreationWizard.jsx:423-448 | replaces the text and type of the question at the index, keeping whether it is required |
| GrantWizard.Wizard.AddReviewer | frontend/src/pages/GrantCreationWizard.jsx:532-539 | appends an empty reviewer with the role `reviewer` |
| GrantWizard.Wizard.RemoveReviewer | frontend/src/pages/GrantCreationWizard.jsx:520-523 | removes the reviewer at the index |
| GrantWizard.Wizard.EditReviewer | frontend/src/pages/GrantCreationWizard.jsx:485-510 | replaces the reviewer at the index |
| AppRoutes.ProtectedRoute | frontend/src/App.jsx:26-42 | the spinner exactly while loading, the login page exactly without a user, the dashboard exactly when a required role is missing and the user is not council staff or administrator, the page otherwise |
| AppRoutes.CouncilPassesRoleCheck | frontend/src/App.jsx:37 | council staff and administrators pass every role check |
| AppRoutes.NoRoleRequiredShowsPage | frontend/src/App.jsx:37-41 | without a required role a signed-in user sees the page |
| AppRoutes.PublicRoute | frontend/src/App.jsx:45-57 | the spinner exactly while loading, the dashboard exactly for a signed-in user, the page exactly for a visitor |
| AppRoutes.RootRoute | frontend/src/App.jsx:220-225 | the dashboard exactly for a signed-in user, the login page exactly for a visitor |
| AppRoutes.Render | frontend/src/App.jsx:157-229 | the spinner for every path while loading; the not-found page exactly for a path that, ignoring case and trailing slashes, no route claims; a page shown is the selected route's, protected exactly for a signed-in user |
| AppRoutes.RenderIgnoresCase | frontend/src/App.jsx:157-229 | a path and its lower-case form render the same |
| AppRoutes.RenderIgnoresTrailingSlash | frontend/src/App.jsx:157-229 | a trailing slash selects the same route |
| AppRoutes.RouteTable | frontend/src/App.jsx:158-225 | a signed-in user reaches every protected page and is sent from the public ones to the dashboard; a visitor the reverse |
| AppRoutes.MergeUser | frontend/src/App.jsx:101-103 | the update's keys take its values, the previous user's other keys are kept |
| AppRoutes.MergeUserIdempotent | frontend/src/App.jsx:101-103 | applying the same update twice equals applying it once; an empty update changes nothing |
| AppRoutes.Session.FinishAuthCheck | frontend/src/App.jsx:106-127 | loading ends; the fetched user is signed in when both server checks succeeded |
| AppRoutes.Session.SignIn | frontend/src/App.jsx:65-90 | success exactly when the response carries a user, who is signed in; a failure changes nothing |
| AppRoutes.Session.Logout | frontend/src/App.jsx:91-99 | no user afterwards, whether or not the server call failed |
| AppRoutes.Session.UpdateUser | frontend/src/App.jsx:101-103 | the user becomes the merge of the previous user and the update |

## Left out

- Forum category colour and icon, with their length limits (backend/app/schemas/community.py:29-30), are display fields and are not modelled; so are the update schema's colour and icon.
- Authentication (backend/app/api/v1/auth.py), JWT creation and checking, and password hashing are not part of this model; the current user is a parameter, and the password check is a predicate passed in.
- Application wiring and configuration (backend/app/main.py, backend/src/main.py, backend/app/api/v1/api.py, backend/app/core/config.py) and the foreign connectors in backend/src/routes/integrations_routes.py are not part of this model.
- Database sessions, commits, flushes and rollbacks: each handler is one atomic step on the store, and concurrent requests are not modelled.
- Clock readings, generated ids and tokens, and random values are parameters. Timestamps are opaque integers.
- Role comparisons: many v1 endpoints compare the `UserRole` enum with plain strings such as `"client_admin"`. Read literally, those checks refuse every user. The model states the intended check on the role's stored name (Deps.AdminRoleNameGate).
- Floating point: approval, read and completion rates, rating averages and summed `value_aud` are exact rationals or integer cents. The level formula uses the integer square root of `points div 100`, which agrees with the float formula except where float rounding matters for very large totals.
- ORM and CRUD disagree in several places, and the model follows the shape the CRUD code uses. FeatureToggle declares `feature_name`, not `feature_key`/`tier`. The marketplace CRUD writes `status`/`reviewed_by`, which ProfessionalProfile lacks. Gamification uses `level`/`current_streak` where the ORM declares `current_level`/`daily_login_streak`.
- Marketplace ORM mismatches are not modelled. Profile `status`, `organization_id` and `review_feedback` and the review count are not columns. A booking's NOT NULL `professional_id` is never set. A review has no `service_id` column. The model keeps the fields the CRUD code writes.
- Declaration-only ORM and schema files are modelled only as far as the handlers need their record shapes: `to_dict` serialisers, `JSONType`, and library-enforced `Field` bounds other than the ones the handlers rely on.
- Query ordering, offsets and limits in list endpoints are not modelled. Listings are the sets of rows the filters select.
- GrantCrud.SelectGrants: the `ilike` search is modelled as a case-insensitive substring test. A `%` or `_` in the search text is read literally, where SQL treats it as a wildcard, and the database's collation is not captured.
- UsersApi.SelectUsers: its `ilike` search is modelled the same way, so `%` and `_` in the search text are read literally.
- Text.LowerChar: only 'A' to 'Z' are lowered. Python's `str.lower()` also maps other letters, for example KELVIN SIGN to "k" and 'É' to 'é'. Slugs, `ilike` searches, the scraper's text and the data scripts' keyword tests therefore treat non-ASCII capitals as unchanged.
- Text.UpperChar: only 'a' to 'z' are raised, where Python's `str.upper()` maps every cased letter. The enhanced mapping's city and state keys are affected.
- Plain listing and lookup endpoints that only pass filters to a query are not modelled separately; their lookups appear inside the handlers as map lookups. These are `get_featured_grants`, `get_organization_grants_list` and `get_grant_stats` (backend/app/api/v1/grants.py:96-432), `get_grant_applications_list` and `get_application_stats` (backend/app/api/v1/applications.py:396-450), the marketplace profile, service and review lists, `list_resources`, `list_featured_resources` and `get_resource_ratings`, and the forum category, topic and post lists.
- Gamification: `get_user_achievements`, `get_available_achievements`, `create_activity`, `get_user_activities`, `get_gamification_stats`, the community feed and the `get_my_*` endpoints are plain queries. The category and timeframe filters of `get_leaderboard` are not modelled either.
- Gamification: `unlock_achievement` answers with `get_user_achievements(...)[0]`, which is the newest row by the query's order. The model answers with the row it unlocked.
- Gamification: the organization statistics' float average points and `total_activities` are not modelled.
- The success-story, networking and connection CRUD modules are not part of this model. `create_story`, `like_story`, `create_comment`, `get_comments`, `create_connection`, `get_connections`, `get_my_interests` and `add_interest` only delegate to them, so the model takes their outcomes as parameters.
- `update_booking` reads `booking_update.notes`, which `ServiceBookingUpdate` does not declare, so as written it raises. The model takes the notes as a parameter.
- Notification lists are ordered by `created_at`; the order is not modelled.
- UserSchemas.ValidateUserCreate: the `EmailStr` check and normalisation of `email` belong to a foreign validation library and are not modelled. An address it would refuse is accepted, and the address is kept as given.
- FeatureTogglesApi.BulkUpdateFeatures: as routed it is never reached. `PUT /{feature_key}` (backend/app/api/v1/feature_toggles.py:35) is registered before `PUT /bulk-update` (line 199), so a bulk request is handled as an update of the key "bulk-update". Even if it were reached, each update goes through `update_feature_toggle`, which fails at its undefined `datetime` (see Findings). The model states what `bulk_update_features` would compute with a working update.
- FeatureTogglesApi.UpdateFeatureConfig, FeatureToggles.ToggleStore.UpdateFeatureConfiguration: as written the update of an existing feature fails with 500. It stamps `datetime.utcnow()` at backend/app/crud/feature_toggles.py:118, and `datetime` is imported only inside `_create_default_features` (line 283). The model states the intended update; a missing feature is modelled as written.
- FeatureTogglesApi.ApplyConfigurationTemplate, FeatureToggles.ToggleStore.ResetToTemplate, FeatureToggles.ToggleStore.ApplyTemplate, FeatureToggles.ToggleStore.ApplyTemplateEntry: as written applying a known template fails with 500 as soon as the organization has one of the template's features, at the undefined `datetime` of backend/app/crud/feature_toggles.py:275. The model states the intended application. An unknown template, or an organization with none of the features, behaves as modelled.
- FeatureTogglesApi.BulkUpdateFeatures, FeatureTogglesApi.BulkLoop, FeatureTogglesApi.BulkTurn: built on the intended `update_feature_toggle`; as written the first update of an existing key fails at backend/app/crud/feature_toggles.py:61 (see Findings).
- LegacyGrants.ColumnContains: SQLAlchemy's `contains` becomes `LIKE '%' || search || '%'` without escaping, so a `%` or `_` in the search is a wildcard there and is read literally here. A column holding a non-text value never matches in the model, where the database compares its text form.
- Deps.OptionalCurrentUser, GrantsApi.ListGrants, GrantsApi.GetGrantById: `HTTPBearer()` (backend/app/api/deps.py:16) is created with its default `auto_error`, and the optional lookup at line 139 depends on it, so a request without an `Authorization` header is answered 403 before the optional lookup runs. These members state the behaviour once a header was sent. GrantsApi.GetGrantByIdAsWritten models the headerless 403 for the read; the listing's 403 is not modelled.
- GrantsApi.CreateNewGrant, GrantCrud.Store.CreateGrant: as written no creation succeeds. An omitted `eligibility_criteria` or `total_funding` is inserted as NULL into NOT NULL columns (backend/app/models/grant.py:62, 66). Given `tags`, `required_documents` or `application_form_fields` are a list or dictionary put into text columns. Every stored grant fails the `GrantResponse` schema, which requires `view_count` and a non-null `updated_at` (backend/app/schemas/grant.py:84, 87). The model states the intended creation.
- GrantsApi.UpdateGrantById: as written the update is committed and then the answer fails the `GrantResponse` schema for want of `view_count`. An explicit null for a NOT NULL column, or a list for `tags` or `required_documents`, fails the commit instead. The model states the intended update.
- ApplicationsApi.GetApplicationById: as written an application that was never updated has no `updated_at`, which `ApplicationResponse` requires (backend/app/schemas/grant.py:174), so its read answers 500. The model states the intended read.
- ApplicationsApi.SelectApplications, ApplicationsApi.ListApplicationsQuery: the listing answers `ApplicationSummary` rows, which require a `grant_title` the application row does not have (backend/app/schemas/grant.py:187). As written any non-empty page answers 500. The model states which rows are selected.
- ApplicationsApi.UpdateApplicationById: the update's `form_data` and `documents` are not modelled. As written a list or dictionary there is put into a text column, which the database refuses.
- GrantScraper.GrantsGovAuScraper.CollectGrants, GrantScraper.GrantsGovAuScraper.CombineAll, GrantScraper.GrantsGovAuScraper.CombineTurn: built on the corrected GrantScraper.CategorizeScraped. As written a fetched record with a `None` field raises in the categorisation (see Findings).
- UserCrud.UserStore.UpdateUser, UserCrud.UserStore.AdminUpdateUser, UsersApi.AdminUpdateUserById, UsersApi.UpdateMyProfile: an absent field is `None` in the model. A field sent as an explicit JSON null is instead written as NULL, and into the NOT NULL `first_name`, `last_name`, `role` or `status` (backend/app/models/user.py:46-52) that makes the commit fail with 500. That case is not modelled.
- AppRoutes.RouteKey: the router's case-insensitive match also folds non-ASCII letters; only 'A' to 'Z' are folded here. Percent-decoding of the path and the router's base name are not modelled.
- SuccessStoriesApi.StoryStatsOf: as routed it is never reached. `GET /{story_id}` with an integer parameter (backend/app/api/v1/success_stories.py:59) is registered before `GET /stats` (line 184), so a statistics request is refused with 422. The model states what `get_story_stats` computes when it is called.
- Notifications.NotificationStore.CreateNotification: two more reads fail as written and are modelled as intended. Line 160 reads `notification.scheduled_for`, which `NotificationCreate` does not declare; no scheduling is modelled. `_is_quiet_hours` reads `quiet_hours_enabled`, which the preferences response does not declare; the model reads the stored flag.
- Notifications.DefaultPreferences: the per-category channel columns the CRUD code writes are not columns of `NotificationPreference` (backend/app/models/gamification.py:280-310), and the ORM's own defaults differ, for example time zone "Australia/Sydney". The model keeps the row the CRUD code builds, with time zone "UTC".
- NotificationsApi.UpdateMyNotificationPreferences: built on the intended `update_notification_preferences`; as written it fails after storing the update (see Findings).
- NotificationsApi.CreateSystemNotification: built on the intended `create_notification`; as written any recipient makes it fail (see Findings).
- NotificationsApi.SingleTargetGetsOneRow: states the intended behaviour of `create_notification`; as written no row is stored (see Findings).
- Marketplace.MarketplaceStore.CreateServiceReview: the review is stored under the service id the handler is given; the request body has no such field (see Findings).
- Legacy backend: the database's coercion of values into Integer or Float columns is not modelled. A stored value reads back as it was written.
- LegacyApplications.GrantKey: only JSON whole numbers name a grant. A numeric string or `true`, which SQLAlchemy may also accept as a key, is treated as naming no grant.
- LegacyApplications.CreateApplication: the promise that the stored rows stay within the cap is stated only for whole-number caps. A fractional cap such as 2.5 lets the count reach 3, as the comparison in the source does.
- Legacy backend: the `to_dict` date strings, the `get_current_user` token lookup (the caller is a parameter), and the user model's password and serialisation methods are not modelled.
- Data scripts: reading and writing JSON and CSV files, `load_sample_data`, `save_mapping_data`, `save_enhanced_data`, `save_to_json` and the `main` functions are file I/O and are not modelled. The report text and the `value_formatted` and `total_value_formatted` strings are not modelled either.
- Data scripts: JSON `null`, NaN from pandas, and missing keys other than those the functions test are not modelled. Grants are records with optional fields.
- Scraper: the HTTP and HTML parts (`get_page` retries, the search, detail and award page parsers, field extraction) are network I/O and foreign parsing. The fetched decision and award records are parameters.
- Enhanced mapping: the source updates grant dictionaries in place, so the grants in the input mapping data are changed too. The model returns the enhanced grants as new values, without that aliasing.
- Enhanced mapping: the fixed bounds and centre of the map are constants of the output and are not modelled. The coverage string `added/total` is modelled as the two numbers.
- Wizard: the JSX rendering, `alert`, `setTimeout`, the loading flag, the asynchronous `saveDraft` and the publish request, the AI suggestions and the fixed category and document lists are not modelled. The scoring criteria are never edited in the source and stay as initialised.
- Wizard: the check boxes for budget requirements, project timeline, impact measurement and partnership details, the notification settings and auto-publish are plain field assignments like GrantWizard.Wizard.UpdateText and are not modelled separately.
- Wizard: the question and reviewer edit handlers mutate the shared element objects of a copied array. The model replaces the element by value.
- App: the API client calls (login, register, logout, token check, user fetch), local storage and the sidebar state are not modelled. Their results are parameters of the session methods.

## Findings

| source | as written | input that shows it | evidently intended | confidence | as-written member | corrected member |
|---|---|---|---|---|---|---|
| backend/app/crud/feature_toggles.py:61 | `update_feature_toggle` assigns `datetime.utcnow()`, but `datetime` is imported only inside `_create_default_features` (line 283), so the name is undefined at module level | an administrator updating any existing feature key of their organization | the fields are set and `updated_at` is stamped | not executed | FeatureTogglesApi.UpdateFeatureToggleStatusAsWritten | FeatureTogglesApi.UpdateFeatureToggleStatus |
| backend/app/crud/notifications.py:306 | `get_notification_stats` computes `datetime.utcnow() - timedelta(days=7)`, but `timedelta` is never imported | any user asking for their notification statistics | the statistics, including the count of the last seven days | not executed | NotificationsApi.GetMyNotificationStatsAsWritten | NotificationsApi.GetMyNotificationStats |
| backend/app/api/v1/applications.py:159 | after the new application is committed, `grant.application_count += 1` assigns to a read-only property of the grant model | any applicant whose application passes every check | the application is created and the grant's derived count rises by one | not executed | ApplicationsApi.CreateNewApplicationCountAsWritten | ApplicationsApi.CreateNewApplication |
| backend/app/crud/grant.py:230-235 | `create_application` flushes the new row before it sets `reference_number`, a NOT NULL column with no default, so the flush's insert is refused | any application that passes the endpoint's checks | the row is stored with its reference number built from year, grant id and the new id | not executed | GrantCrud.Store.CreateApplicationAsWritten | GrantCrud.Store.CreateApplication |
| backend/app/api/v1/grants.py:200-203 | `grant.view_count += 1` on a published grant, but the grant model has no `view_count` column; the `GrantResponse` schema also requires `view_count`, so even a read of an unpublished grant cannot be answered | any read of a published grant; any read that passes the read rule | the grant is returned and a published grant's view is counted | not executed | GrantsApi.GetGrantByIdAsWritten | GrantsApi.GetGrantById |
| backend/app/crud/notifications.py:235-255 | `get_notification_preferences` builds `NotificationPreferencesResponse` without the required `id` and `created_at` (backend/app/schemas/notifications.py:93-99), so validation fails | any user reading their preferences | the stored preferences, with the defaults inserted first | not executed | Notifications.NotificationStore.GetNotificationPreferencesAsWritten | Notifications.NotificationStore.GetNotificationPreferences |
| backend/app/crud/notifications.py:276-279 | `update_notification_preferences` commits the update and answers through `get_notification_preferences`, which fails | any user updating their preferences | the updated preferences | not executed | Notifications.NotificationStore.UpdateNotificationPreferencesAsWritten | Notifications.NotificationStore.UpdateNotificationPreferences |
| backend/app/crud/notifications.py:136 | `create_notification` reads every recipient's preferences through `get_notification_preferences`, which fails | a system notification with a target user | one row per recipient with delivered channels, the first one answered | not executed | Notifications.NotificationStore.CreateNotificationAsWritten | Notifications.NotificationStore.CreateNotification |
| backend/app/crud/marketplace.py:273-283 | `create_service_review` inserts the review without its NOT NULL `professional_id` and `booking_id`, then reads `review.service_id`, which `ProfessionalReviewCreate` does not declare | any review with an overall rating of 3 | the review is stored and its service's rating recomputed | not executed | MarketplaceApi.CreateReviewAsWritten | MarketplaceApi.CreateReview |
| grant_scraper.py:249-255 | `' '.join` of the fields read with `get(key, '')`; an award page without a matched row leaves the field `None`, and joining `None` raises | an award record with `category` set to `None` | a missing field counts as empty text | not executed | GrantScraper.MissingFieldRaises | GrantScraper.CategorizeScraped |
