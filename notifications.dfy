/**
 * Notification delivery (backend/app/crud/notifications.py): who a
 * notification goes to, which channels survive the recipient's
 * preferences and quiet hours, and the notification rows a user reads,
 * marks read and deletes.
 */
module Notifications {
  import opened Common
  import opened UserModel

  datatype NotificationType =
    | GrantPublished | ApplicationReceived | ApplicationStatus | ForumReply | ConnectionRequest
    | EventReminder | AchievementUnlocked | SystemAnnouncement | MarketplaceBooking | ReviewReceived

  /** The string value of each notification type. */
  function TypeName(t: NotificationType): (name: string)
    ensures |name| > 0
  {
    match t
    case GrantPublished => "grant_published"
    case ApplicationReceived => "application_received"
    case ApplicationStatus => "application_status"
    case ForumReply => "forum_reply"
    case ConnectionRequest => "connection_request"
    case EventReminder => "event_reminder"
    case AchievementUnlocked => "achievement_unlocked"
    case SystemAnnouncement => "system_announcement"
    case MarketplaceBooking => "marketplace_booking"
    case ReviewReceived => "review_received"
  }

  datatype Channel = InApp | Email | Sms | Push

  function ChannelName(c: Channel): (name: string)
    ensures |name| > 0
  {
    match c
    case InApp => "in_app"
    case Email => "email"
    case Sms => "sms"
    case Push => "push"
  }

  datatype Priority = Low | Normal | High | Urgent

  function PriorityName(p: Priority): (name: string)
    ensures |name| > 0
  {
    match p
    case Low => "low"
    case Normal => "normal"
    case High => "high"
    case Urgent => "urgent"
  }

  // ---------------------------------------------------------------------
  // Quiet hours
  // ---------------------------------------------------------------------

  /** A `datetime.time` value: microseconds since midnight. */
  const MicrosPerDay: nat := 86_400_000_000
  type TimeOfDay = t: nat | t < MicrosPerDay

  /** The time of day `HH:MM`. */
  function Clock(hours: nat, minutes: nat): (t: TimeOfDay)
    requires hours < 24 && minutes < 60
    ensures t % 60_000_000 == 0
    ensures t / 3_600_000_000 == hours
  {
    (hours * 60 + minutes) * 60_000_000
  }

  /** The email, sms and push switches of one preference category. */
  datatype ChannelFlags = ChannelFlags(email: bool, sms: bool, push: bool)

  /**
   * A user's notification preferences, in the field names the CRUD layer
   * reads: one set of channel switches per category and the quiet hours.
   */
  datatype Preferences = Preferences(
    userId: int,
    grantUpdates: ChannelFlags,
    applicationStatus: ChannelFlags,
    communityActivity: ChannelFlags,
    marketplaceActivity: ChannelFlags,
    systemAnnouncements: ChannelFlags,
    quietHoursEnabled: bool,
    quietHoursStart: TimeOfDay,
    quietHoursEnd: TimeOfDay,
    timezone: string)

  /**
   * The preferences `get_notification_preferences` inserts for a user who
   * has none: quiet hours off, 22:00 to 08:00, UTC.
   */
  function DefaultPreferences(userId: int): (p: Preferences)
    ensures p.userId == userId && !p.quietHoursEnabled
    ensures p.quietHoursStart == Clock(22, 0) && p.quietHoursEnd == Clock(8, 0)
    ensures p.applicationStatus == ChannelFlags(true, true, true)
    ensures !p.grantUpdates.sms && !p.communityActivity.email && !p.communityActivity.sms
    ensures !p.marketplaceActivity.sms && !p.systemAnnouncements.sms
  {
    Preferences(userId,
      ChannelFlags(true, false, true),
      ChannelFlags(true, true, true),
      ChannelFlags(false, false, true),
      ChannelFlags(true, false, true),
      ChannelFlags(true, false, true),
      false, Clock(22, 0), Clock(8, 0), "UTC")
  }

  /** Whether `t` lies in the quiet window from `start` to `end`, both ends included. */
  predicate InQuietWindow(start: TimeOfDay, end: TimeOfDay, t: TimeOfDay)
  {
    if start <= end then start <= t <= end
    else t >= start || t <= end
  }

  /**
   * `_is_quiet_hours`: false while quiet hours are off; otherwise whether
   * the current time of day lies in the window, which wraps past midnight
   * when it starts later than it ends.
   */
  function IsQuietHours(p: Preferences, now: TimeOfDay): (quiet: bool)
    ensures !p.quietHoursEnabled ==> !quiet
    ensures quiet ==> now == p.quietHoursStart || now == p.quietHoursEnd
                      || (p.quietHoursStart <= p.quietHoursEnd <==> p.quietHoursStart < now < p.quietHoursEnd)
  {
    p.quietHoursEnabled && InQuietWindow(p.quietHoursStart, p.quietHoursEnd, now)
  }

  /**
   * The window, read on the 24-hour circle: `t` is quiet exactly when it
   * is reached from `start` going forward no later than `end` is. Both
   * branches of the window test agree with this one reading.
   */
  lemma QuietWindowIsCircular(start: TimeOfDay, end: TimeOfDay, t: TimeOfDay)
    ensures InQuietWindow(start, end, t)
            <==> (t - start) % MicrosPerDay <= (end - start) % MicrosPerDay
  {
    var d: int := MicrosPerDay;
    if t >= start {
      assert (t - start) % d == t - start;
    } else {
      assert (t - start) % d == t - start + d by {
        assert 0 <= t - start + d < d;
        assert t - start == (t - start + d) - d;
      }
    }
    if end >= start {
      assert (end - start) % d == end - start;
    } else {
      assert (end - start) % d == end - start + d by {
        assert 0 <= end - start + d < d;
        assert end - start == (end - start + d) - d;
      }
    }
  }

  /** A window that wraps past midnight holds every time outside the gap between its end and its start. */
  lemma WrappedWindowIsComplement(start: TimeOfDay, end: TimeOfDay, t: TimeOfDay)
    requires start > end
    ensures InQuietWindow(start, end, t) <==> !(end < t < start)
    ensures InQuietWindow(start, end, 0) && InQuietWindow(start, end, MicrosPerDay - 1)
  {
  }

  // ---------------------------------------------------------------------
  // Channel filtering
  // ---------------------------------------------------------------------

  /** `a` is `b` with some elements removed, the rest kept in order. */
  predicate IsSubsequence<T(==)>(a: seq<T>, b: seq<T>)
    decreases |b|
  {
    if b == [] then a == []
    else (a != [] && a[|a| - 1] == b[|b| - 1] && IsSubsequence(a[..|a| - 1], b[..|b| - 1]))
         || IsSubsequence(a, b[..|b| - 1])
  }

  lemma {:induction false} SubsequenceMembers<T>(a: seq<T>, b: seq<T>)
    requires IsSubsequence(a, b)
    ensures |a| <= |b|
    ensures forall x :: x in a ==> x in b
    decreases |b|
  {
    if b != [] {
      if a != [] && a[|a| - 1] == b[|b| - 1] && IsSubsequence(a[..|a| - 1], b[..|b| - 1]) {
        SubsequenceMembers(a[..|a| - 1], b[..|b| - 1]);
        assert a == a[..|a| - 1] + [a[|a| - 1]];
        assert b == b[..|b| - 1] + [b[|b| - 1]];
      } else {
        SubsequenceMembers(a, b[..|b| - 1]);
        assert b == b[..|b| - 1] + [b[|b| - 1]];
      }
    }
  }

  lemma {:induction false} SubsequenceTransitive<T>(a: seq<T>, b: seq<T>, c: seq<T>)
    requires IsSubsequence(a, b) && IsSubsequence(b, c)
    ensures IsSubsequence(a, c)
    decreases |c|
  {
    if c != [] {
      var c' := c[..|c| - 1];
      if b != [] && b[|b| - 1] == c[|c| - 1] && IsSubsequence(b[..|b| - 1], c') {
        var b' := b[..|b| - 1];
        if a != [] && a[|a| - 1] == b[|b| - 1] && IsSubsequence(a[..|a| - 1], b') {
          SubsequenceTransitive(a[..|a| - 1], b', c');
        } else {
          SubsequenceTransitive(a, b', c');
        }
      } else {
        SubsequenceTransitive(a, b, c');
      }
    }
  }

  /** `f"{notification_type}_{channel}"`: the attribute name looked up on the preferences. */
  function PrefKey(t: NotificationType, c: Channel): (key: string)
    ensures |key| == |TypeName(t)| + 1 + |ChannelName(c)|
    ensures key[..|TypeName(t)|] == TypeName(t) && key[|TypeName(t)|] == '_'
  {
    TypeName(t) + "_" + ChannelName(c)
  }

  /** The boolean attributes of the preferences, by name. */
  function PrefAttr(p: Preferences, key: string): Option<bool>
  {
    var table := map[
      "grant_updates_email" := p.grantUpdates.email,
      "grant_updates_sms" := p.grantUpdates.sms,
      "grant_updates_push" := p.grantUpdates.push,
      "application_status_email" := p.applicationStatus.email,
      "application_status_sms" := p.applicationStatus.sms,
      "application_status_push" := p.applicationStatus.push,
      "community_activity_email" := p.communityActivity.email,
      "community_activity_sms" := p.communityActivity.sms,
      "community_activity_push" := p.communityActivity.push,
      "marketplace_activity_email" := p.marketplaceActivity.email,
      "marketplace_activity_sms" := p.marketplaceActivity.sms,
      "marketplace_activity_push" := p.marketplaceActivity.push,
      "system_announcements_email" := p.systemAnnouncements.email,
      "system_announcements_sms" := p.systemAnnouncements.sms,
      "system_announcements_push" := p.systemAnnouncements.push];
    if key in table then Some(table[key]) else None
  }

  /**
   * `getattr(preferences, pref_key, True)` with the lookup resolved (see
   * `PrefOnIsAttributeLookup`): only the email, sms and push channels of
   * `application_status` have a stored preference; every other pair counts
   * as on.
   */
  predicate PrefOn(p: Preferences, t: NotificationType, c: Channel)
  {
    if t == ApplicationStatus then
      match c
      case InApp => true
      case Email => p.applicationStatus.email
      case Sms => p.applicationStatus.sms
      case Push => p.applicationStatus.push
    else true
  }

  // The four keys of each type, spelled out and looked up.
  lemma GrantPublishedKeys(p: Preferences)
    ensures PrefAttr(p, PrefKey(GrantPublished, InApp)).None?
    ensures PrefAttr(p, PrefKey(GrantPublished, Email)).None?
    ensures PrefAttr(p, PrefKey(GrantPublished, Sms)).None?
    ensures PrefAttr(p, PrefKey(GrantPublished, Push)).None?
  {
    assert PrefKey(GrantPublished, InApp) == "grant_published_in_app";
    assert PrefKey(GrantPublished, Email) == "grant_published_email";
    assert PrefKey(GrantPublished, Sms) == "grant_published_sms";
    assert PrefKey(GrantPublished, Push) == "grant_published_push";
  }

  lemma ApplicationReceivedKeys(p: Preferences)
    ensures PrefAttr(p, PrefKey(ApplicationReceived, InApp)).None?
    ensures PrefAttr(p, PrefKey(ApplicationReceived, Email)).None?
    ensures PrefAttr(p, PrefKey(ApplicationReceived, Sms)).None?
    ensures PrefAttr(p, PrefKey(ApplicationReceived, Push)).None?
  {
    assert PrefKey(ApplicationReceived, InApp) == "application_received_in_app";
    assert PrefKey(ApplicationReceived, Email) == "application_received_email";
    assert PrefKey(ApplicationReceived, Sms) == "application_received_sms";
    assert PrefKey(ApplicationReceived, Push) == "application_received_push";
  }

  lemma ApplicationStatusKeys(p: Preferences)
    ensures PrefAttr(p, PrefKey(ApplicationStatus, InApp)).None?
    ensures PrefAttr(p, PrefKey(ApplicationStatus, Email)) == Some(p.applicationStatus.email)
    ensures PrefAttr(p, PrefKey(ApplicationStatus, Sms)) == Some(p.applicationStatus.sms)
    ensures PrefAttr(p, PrefKey(ApplicationStatus, Push)) == Some(p.applicationStatus.push)
  {
    assert PrefKey(ApplicationStatus, InApp) == "application_status_in_app";
    assert PrefKey(ApplicationStatus, Email) == "application_status_email";
    assert PrefKey(ApplicationStatus, Sms) == "application_status_sms";
    assert PrefKey(ApplicationStatus, Push) == "application_status_push";
  }

  lemma ForumReplyKeys(p: Preferences)
    ensures PrefAttr(p, PrefKey(ForumReply, InApp)).None?
    ensures PrefAttr(p, PrefKey(ForumReply, Email)).None?
    ensures PrefAttr(p, PrefKey(ForumReply, Sms)).None?
    ensures PrefAttr(p, PrefKey(ForumReply, Push)).None?
  {
    assert PrefKey(ForumReply, InApp) == "forum_reply_in_app";
    assert PrefKey(ForumReply, Email) == "forum_reply_email";
    assert PrefKey(ForumReply, Sms) == "forum_reply_sms";
    assert PrefKey(ForumReply, Push) == "forum_reply_push";
  }

  lemma ConnectionRequestKeys(p: Preferences)
    ensures PrefAttr(p, PrefKey(ConnectionRequest, InApp)).None?
    ensures PrefAttr(p, PrefKey(ConnectionRequest, Email)).None?
    ensures PrefAttr(p, PrefKey(ConnectionRequest, Sms)).None?
    ensures PrefAttr(p, PrefKey(ConnectionRequest, Push)).None?
  {
    assert PrefKey(ConnectionRequest, InApp) == "connection_request_in_app";
    assert PrefKey(ConnectionRequest, Email) == "connection_request_email";
    assert PrefKey(ConnectionRequest, Sms) == "connection_request_sms";
    assert PrefKey(ConnectionRequest, Push) == "connection_request_push";
  }

  lemma EventReminderKeys(p: Preferences)
    ensures PrefAttr(p, PrefKey(EventReminder, InApp)).None?
    ensures PrefAttr(p, PrefKey(EventReminder, Email)).None?
    ensures PrefAttr(p, PrefKey(EventReminder, Sms)).None?
    ensures PrefAttr(p, PrefKey(EventReminder, Push)).None?
  {
    assert PrefKey(EventReminder, InApp) == "event_reminder_in_app";
    assert PrefKey(EventReminder, Email) == "event_reminder_email";
    assert PrefKey(EventReminder, Sms) == "event_reminder_sms";
    assert PrefKey(EventReminder, Push) == "event_reminder_push";
  }

  lemma AchievementUnlockedKeys(p: Preferences)
    ensures PrefAttr(p, PrefKey(AchievementUnlocked, InApp)).None?
    ensures PrefAttr(p, PrefKey(AchievementUnlocked, Email)).None?
    ensures PrefAttr(p, PrefKey(AchievementUnlocked, Sms)).None?
    ensures PrefAttr(p, PrefKey(AchievementUnlocked, Push)).None?
  {
    assert PrefKey(AchievementUnlocked, InApp) == "achievement_unlocked_in_app";
    assert PrefKey(AchievementUnlocked, Email) == "achievement_unlocked_email";
    assert PrefKey(AchievementUnlocked, Sms) == "achievement_unlocked_sms";
    assert PrefKey(AchievementUnlocked, Push) == "achievement_unlocked_push";
  }

  lemma SystemAnnouncementKeys(p: Preferences)
    ensures PrefAttr(p, PrefKey(SystemAnnouncement, InApp)).None?
    ensures PrefAttr(p, PrefKey(SystemAnnouncement, Email)).None?
    ensures PrefAttr(p, PrefKey(SystemAnnouncement, Sms)).None?
    ensures PrefAttr(p, PrefKey(SystemAnnouncement, Push)).None?
  {
    assert PrefKey(SystemAnnouncement, InApp) == "system_announcement_in_app";
    assert PrefKey(SystemAnnouncement, Email) == "system_announcement_email";
    assert PrefKey(SystemAnnouncement, Sms) == "system_announcement_sms";
    assert PrefKey(SystemAnnouncement, Push) == "system_announcement_push";
  }

  lemma MarketplaceBookingKeys(p: Preferences)
    ensures PrefAttr(p, PrefKey(MarketplaceBooking, InApp)).None?
    ensures PrefAttr(p, PrefKey(MarketplaceBooking, Email)).None?
    ensures PrefAttr(p, PrefKey(MarketplaceBooking, Sms)).None?
    ensures PrefAttr(p, PrefKey(MarketplaceBooking, Push)).None?
  {
    assert PrefKey(MarketplaceBooking, InApp) == "marketplace_booking_in_app";
    assert PrefKey(MarketplaceBooking, Email) == "marketplace_booking_email";
    assert PrefKey(MarketplaceBooking, Sms) == "marketplace_booking_sms";
    assert PrefKey(MarketplaceBooking, Push) == "marketplace_booking_push";
  }

  lemma ReviewReceivedKeys(p: Preferences)
    ensures PrefAttr(p, PrefKey(ReviewReceived, InApp)).None?
    ensures PrefAttr(p, PrefKey(ReviewReceived, Email)).None?
    ensures PrefAttr(p, PrefKey(ReviewReceived, Sms)).None?
    ensures PrefAttr(p, PrefKey(ReviewReceived, Push)).None?
  {
    assert PrefKey(ReviewReceived, InApp) == "review_received_in_app";
    assert PrefKey(ReviewReceived, Email) == "review_received_email";
    assert PrefKey(ReviewReceived, Sms) == "review_received_sms";
    assert PrefKey(ReviewReceived, Push) == "review_received_push";
  }

  /**
   * Of all type and channel pairs, only the email, sms and push channels of
   * `application_status` name an existing preference: every other pair
   * falls back to on.
   */
  lemma OnlyApplicationStatusHasPreferences(p: Preferences, t: NotificationType, c: Channel)
    ensures PrefAttr(p, PrefKey(t, c)).Some? <==> t == ApplicationStatus && c != InApp
    ensures PrefAttr(p, PrefKey(t, c)).Some? ==> (PrefAttr(p, PrefKey(t, c)).value <==> PrefOn(p, t, c))
  {
    match t {
      case GrantPublished => GrantPublishedKeys(p);
      case ApplicationReceived => ApplicationReceivedKeys(p);
      case ApplicationStatus => ApplicationStatusKeys(p);
      case ForumReply => ForumReplyKeys(p);
      case ConnectionRequest => ConnectionRequestKeys(p);
      case EventReminder => EventReminderKeys(p);
      case AchievementUnlocked => AchievementUnlockedKeys(p);
      case SystemAnnouncement => SystemAnnouncementKeys(p);
      case MarketplaceBooking => MarketplaceBookingKeys(p);
      case ReviewReceived => ReviewReceivedKeys(p);
    }
  }

  /** The resolved preference is the attribute lookup by key, with a missing attribute counting as on. */
  lemma PrefOnIsAttributeLookup(p: Preferences, t: NotificationType, c: Channel)
    ensures PrefOn(p, t, c) <==> PrefAttr(p, PrefKey(t, c)).None? || PrefAttr(p, PrefKey(t, c)).value
  {
    OnlyApplicationStatusHasPreferences(p, t, c);
  }

  /**
   * The channels the loop of `create_notification` keeps for one
   * recipient: the requested ones whose preference is on.
   */
  function AllowedChannels(t: NotificationType, requested: seq<Channel>, p: Preferences): (r: seq<Channel>)
    ensures forall c :: c in r <==> c in requested && PrefOn(p, t, c)
  {
    if requested == [] then []
    else
      var init := requested[..|requested| - 1];
      var last := requested[|requested| - 1];
      assert requested == init + [last];
      var before := AllowedChannels(t, init, p);
      if PrefOn(p, t, last) then
        before + [last]
      else before
  }

  /** For every type but `application_status` no requested channel is ever filtered out. */
  lemma {:induction false} OtherTypesKeepEveryChannel(t: NotificationType, requested: seq<Channel>, p: Preferences)
    requires t != ApplicationStatus
    ensures AllowedChannels(t, requested, p) == requested
  {
    if requested != [] {
      var init := requested[..|requested| - 1];
      var last := requested[|requested| - 1];
      OtherTypesKeepEveryChannel(t, init, p);
      assert PrefOn(p, t, last);
      assert requested == init + [last];
    }
  }

  /** The `for channel in notification.channels` loop, proved against `AllowedChannels`. */
  method FilterChannels(t: NotificationType, requested: seq<Channel>, p: Preferences) returns (allowed: seq<Channel>)
    ensures allowed == AllowedChannels(t, requested, p)
  {
    allowed := [];
    var i := 0;
    while i < |requested|
      invariant 0 <= i <= |requested|
      invariant allowed == AllowedChannels(t, requested[..i], p)
    {
      assert requested[..i + 1][..i] == requested[..i];
      if PrefOn(p, t, requested[i]) {
        allowed := allowed + [requested[i]];
      }
      i := i + 1;
    }
    assert requested[..i] == requested;
  }

  /** The kept channels are requested ones, in the requested order. */
  lemma {:induction false} AllowedChannelsIsSubsequence(t: NotificationType, requested: seq<Channel>, p: Preferences)
    ensures IsSubsequence(AllowedChannels(t, requested, p), requested)
    decreases |requested|
  {
    if requested != [] {
      var init := requested[..|requested| - 1];
      AllowedChannelsIsSubsequence(t, init, p);
      var r := AllowedChannels(t, requested, p);
      if PrefOn(p, t, requested[|requested| - 1]) {
        assert r[..|r| - 1] == AllowedChannels(t, init, p);
      }
    }
  }

  /** `[ch for ch in allowed_channels if ch in ["in_app"]]`: the in-app entries, in order. */
  function InAppOnly(cs: seq<Channel>): (r: seq<Channel>)
    ensures forall c :: c in r ==> c == InApp
    ensures InApp in r <==> InApp in cs
  {
    if cs == [] then []
    else
      var init := cs[..|cs| - 1];
      var last := cs[|cs| - 1];
      assert cs == init + [last];
      var before := InAppOnly(init);
      if last == InApp then
        before + [last]
      else before
  }

  lemma {:induction false} InAppOnlyIsSubsequence(cs: seq<Channel>)
    ensures IsSubsequence(InAppOnly(cs), cs)
    decreases |cs|
  {
    if cs != [] {
      var init := cs[..|cs| - 1];
      InAppOnlyIsSubsequence(init);
      var r := InAppOnly(cs);
      if cs[|cs| - 1] == InApp {
        assert r[..|r| - 1] == InAppOnly(init);
      }
    }
  }

  /**
   * The channels a recipient's notification row gets: the allowed ones,
   * cut down to in-app during quiet hours. An empty list means no row.
   */
  function DeliveredChannels(t: NotificationType, requested: seq<Channel>, p: Preferences, now: TimeOfDay)
    : (r: seq<Channel>)
    ensures forall c :: c in r ==> c in requested && PrefOn(p, t, c)
    ensures IsQuietHours(p, now) ==> forall c :: c in r ==> c == InApp
    ensures !IsQuietHours(p, now) ==> r == AllowedChannels(t, requested, p)
    ensures IsQuietHours(p, now) ==> (r != [] <==> InApp in requested && PrefOn(p, t, InApp))
  {
    var allowed := AllowedChannels(t, requested, p);
    if IsQuietHours(p, now) then
      assert InAppOnly(allowed) != [] ==> InAppOnly(allowed)[0] in InAppOnly(allowed);
      InAppOnly(allowed)
    else allowed
  }

  /** The channels one recipient's row gets: the allowed ones, and only in-app during quiet hours. */
  method RecipientChannels(n: NotificationCreate, p: Preferences, now: TimeOfDay) returns (channels: seq<Channel>)
    ensures channels == DeliveredChannels(n.notificationType, n.channels, p, now)
  {
    channels := FilterChannels(n.notificationType, n.channels, p);
    if IsQuietHours(p, now) {
      channels := InAppOnly(channels);
    }
  }

  /** Delivery never adds a channel or reorders the requested ones. */
  lemma DeliveredIsSubsequence(t: NotificationType, requested: seq<Channel>, p: Preferences, now: TimeOfDay)
    ensures IsSubsequence(DeliveredChannels(t, requested, p, now), requested)
  {
    var allowed := AllowedChannels(t, requested, p);
    AllowedChannelsIsSubsequence(t, requested, p);
    if IsQuietHours(p, now) {
      InAppOnlyIsSubsequence(allowed);
      SubsequenceTransitive(InAppOnly(allowed), allowed, requested);
    }
  }

  // ---------------------------------------------------------------------
  // Targets
  // ---------------------------------------------------------------------

  /** The ids of the organization's users, of one role when `role` is given, in the order listed. */
  function OrganizationUserIds(users: seq<User>, org: int, role: Option<string>): (r: seq<int>)
    ensures |r| <= |users|
    ensures forall id :: id in r <==> exists u :: u in users && u.id == id && u.organizationId == Some(org)
                                                  && (role.Some? ==> RoleName(u.role) == role.value)
  {
    if users == [] then []
    else
      var init := users[..|users| - 1];
      var last := users[|users| - 1];
      assert users == init + [last];
      OrganizationUserIds(init, org, role)
      + (if last.organizationId == Some(org) && (role.Some? ==> RoleName(last.role) == role.value)
         then [last.id as int] else [])
  }

  /**
   * The recipients of `create_notification`: the target user when one is
   * given (a truthy id), else the organization's users of the target role,
   * else all the organization's users, else nobody.
   */
  function Targets(targetUserId: Option<int>, targetRole: Option<string>, organizationId: Option<int>,
                   users: seq<User>): (r: seq<int>)
    ensures Truthy(targetUserId) ==> r == [targetUserId.value]
    ensures !Truthy(targetUserId) && !Truthy(organizationId) ==> r == []
    ensures !Truthy(targetUserId) && Truthy(organizationId) ==>
              forall id :: id in r <==> exists u :: u in users && u.id == id
                                                    && u.organizationId == organizationId
                                                    && (targetRole.Some? && targetRole.value != [] ==>
                                                          RoleName(u.role) == targetRole.value)
  {
    if Truthy(targetUserId) then [targetUserId.value]
    else if targetRole.Some? && targetRole.value != [] && Truthy(organizationId) then
      OrganizationUserIds(users, organizationId.value, targetRole)
    else if Truthy(organizationId) then OrganizationUserIds(users, organizationId.value, None)
    else []
  }

  // ---------------------------------------------------------------------
  // Notification rows
  // ---------------------------------------------------------------------

  /** The notification fields a sender supplies. */
  datatype NotificationCreate = NotificationCreate(
    title: string,
    message: string,
    notificationType: NotificationType,
    priority: Priority,
    metadata: Option<map<string, string>>,
    actionUrl: Option<string>,
    channels: seq<Channel>)

  datatype Notification = Notification(
    id: nat,
    userId: int,
    senderId: Option<int>,
    notificationType: NotificationType,
    title: string,
    message: string,
    priority: Priority,
    channels: seq<Channel>,
    metadata: map<string, string>,
    readAt: Option<int>,
    createdAt: int)

  /** The preferences a user has, or the defaults that are inserted on first read. */
  function PreferencesOf(prefs: map<int, Preferences>, userId: int): (p: Preferences)
    ensures userId !in prefs ==> p == DefaultPreferences(userId)
  {
    if userId in prefs then prefs[userId] else DefaultPreferences(userId)
  }

  /** The row `create_notification` writes for one recipient, unread, with the channels it delivers on. */
  function NewRow(n: NotificationCreate, senderId: Option<int>, id: nat, userId: int, channels: seq<Channel>,
                  createdAt: int): (row: Notification)
    ensures row.id == id && row.userId == userId && row.channels == channels && row.readAt.None?
    ensures row.senderId == senderId && row.title == n.title && row.message == n.message
    ensures row.notificationType == n.notificationType && row.priority == n.priority
    ensures n.metadata.None? ==> row.metadata == map[]
  {
    Notification(id, userId, senderId, n.notificationType, n.title, n.message, n.priority, channels,
                 if n.metadata.Some? then n.metadata.value else map[], None, createdAt)
  }

  /** The channels each recipient's row gets, with the recipient's stored or default preferences. */
  function Deliveries(n: NotificationCreate, prefs: map<int, Preferences>, targets: seq<int>, now: TimeOfDay)
    : (channelsOf: map<int, seq<Channel>>)
    ensures forall u :: u in channelsOf <==> u in targets
  {
    map u | u in targets :: DeliveredChannels(n.notificationType, n.channels, PreferencesOf(prefs, u), now)
  }

  /** The channels recorded for a recipient; none for one not recorded. */
  function Lookup(channelsOf: map<int, seq<Channel>>, u: int): seq<Channel>
  {
    if u in channelsOf then channelsOf[u] else []
  }

  /**
   * The rows `create_notification` adds for the first `count` recipients,
   * in order, numbered from `firstId`: one per recipient whose delivered
   * channels are not empty.
   */
  function NewRows(n: NotificationCreate, senderId: Option<int>, targets: seq<int>, count: nat,
                   channelsOf: map<int, seq<Channel>>, createdAt: int, firstId: nat)
    : (rows: seq<Notification>)
    requires count <= |targets|
  {
    if count == 0 then []
    else
      var before := NewRows(n, senderId, targets, count - 1, channelsOf, createdAt, firstId);
      var u := targets[count - 1];
      var channels := Lookup(channelsOf, u);
      if channels == [] then before
      else before + [NewRow(n, senderId, firstId + |before|, u, channels, createdAt)]
  }

  /**
   * At most one row per recipient; the k-th row goes to a recipient with
   * delivered channels, carries id `firstId + k` and the notification's
   * content.
   */
  lemma {:induction false} NewRowsShape(n: NotificationCreate, senderId: Option<int>, targets: seq<int>, count: nat,
                                        channelsOf: map<int, seq<Channel>>, createdAt: int, firstId: nat)
    requires count <= |targets|
    ensures var rows := NewRows(n, senderId, targets, count, channelsOf, createdAt, firstId);
            |rows| <= count
            && forall k :: 0 <= k < |rows| ==>
                 rows[k].userId in targets && Lookup(channelsOf, rows[k].userId) != []
                 && rows[k] == NewRow(n, senderId, firstId + k, rows[k].userId, Lookup(channelsOf, rows[k].userId),
                                      createdAt)
  {
    if count > 0 {
      NewRowsShape(n, senderId, targets, count - 1, channelsOf, createdAt, firstId);
    }
  }

  /**
   * Every recipient among the first `count` whose delivered channels are
   * not empty gets a row, and nobody else does.
   */
  lemma EveryRecipientGetsRow(n: NotificationCreate, senderId: Option<int>, targets: seq<int>,
                              count: nat, channelsOf: map<int, seq<Channel>>, createdAt: int,
                              firstId: nat, u: int)
    requires count <= |targets|
    ensures (exists k :: 0 <= k < |NewRows(n, senderId, targets, count, channelsOf, createdAt, firstId)|
                         && NewRows(n, senderId, targets, count, channelsOf, createdAt, firstId)[k].userId == u)
            <==> (exists j :: 0 <= j < count && targets[j] == u) && Lookup(channelsOf, u) != []
  {
    RowMeansRecipient(n, senderId, targets, count, channelsOf, createdAt, firstId, u);
    RecipientMeansRow(n, senderId, targets, count, channelsOf, createdAt, firstId, u);
  }

  /** A row for `u` among the new rows comes from one of the first `count` recipients, with channels. */
  lemma {:induction false} RowMeansRecipient(n: NotificationCreate, senderId: Option<int>, targets: seq<int>,
                                             count: nat, channelsOf: map<int, seq<Channel>>, createdAt: int,
                                             firstId: nat, u: int)
    requires count <= |targets|
    ensures (exists k :: 0 <= k < |NewRows(n, senderId, targets, count, channelsOf, createdAt, firstId)|
                         && NewRows(n, senderId, targets, count, channelsOf, createdAt, firstId)[k].userId == u)
            ==> (exists j :: 0 <= j < count && targets[j] == u) && Lookup(channelsOf, u) != []
  {
    var rows := NewRows(n, senderId, targets, count, channelsOf, createdAt, firstId);
    if count > 0 && exists k :: 0 <= k < |rows| && rows[k].userId == u {
      var before := NewRows(n, senderId, targets, count - 1, channelsOf, createdAt, firstId);
      var k :| 0 <= k < |rows| && rows[k].userId == u;
      if k < |before| {
        assert rows[k] == before[k];
        RowMeansRecipient(n, senderId, targets, count - 1, channelsOf, createdAt, firstId, u);
        var j :| 0 <= j < count - 1 && targets[j] == u;
        assert 0 <= j < count && targets[j] == u;
      } else {
        assert targets[count - 1] == u;
      }
    }
  }

  /** Each of the first `count` recipients with channels has a row among the new rows. */
  lemma {:induction false} RecipientMeansRow(n: NotificationCreate, senderId: Option<int>, targets: seq<int>,
                                             count: nat, channelsOf: map<int, seq<Channel>>, createdAt: int,
                                             firstId: nat, u: int)
    requires count <= |targets|
    ensures (exists j :: 0 <= j < count && targets[j] == u) && Lookup(channelsOf, u) != [] ==>
            exists k :: 0 <= k < |NewRows(n, senderId, targets, count, channelsOf, createdAt, firstId)|
                        && NewRows(n, senderId, targets, count, channelsOf, createdAt, firstId)[k].userId == u
  {
    var rows := NewRows(n, senderId, targets, count, channelsOf, createdAt, firstId);
    if count > 0 && (exists j :: 0 <= j < count && targets[j] == u) && Lookup(channelsOf, u) != [] {
      var before := NewRows(n, senderId, targets, count - 1, channelsOf, createdAt, firstId);
      var j :| 0 <= j < count && targets[j] == u;
      if j == count - 1 {
        assert rows[|before|].userId == u;
      } else {
        RecipientMeansRow(n, senderId, targets, count - 1, channelsOf, createdAt, firstId, u);
        var k :| 0 <= k < |before| && before[k].userId == u;
        assert rows[k] == before[k];
      }
    }
  }

  /** The users among the first `count` recipients. */
  function SeenTargets(targets: seq<int>, count: nat): (seen: set<int>)
    requires count <= |targets|
    ensures forall u :: u in seen ==> u in targets
    ensures forall j :: 0 <= j < count ==> targets[j] in seen
  {
    if count == 0 then {} else SeenTargets(targets, count - 1) + {targets[count - 1]}
  }

  /** The ids of a user's unread notifications. */
  function UnreadIds(notifications: map<nat, Notification>, userId: int): (ids: set<nat>)
    ensures forall id :: id in ids <==> id in notifications && notifications[id].userId == userId
                                        && notifications[id].readAt.None?
  {
    set id | id in notifications && notifications[id].userId == userId && notifications[id].readAt.None?
  }

  /**
   * The row `update_notification_preferences` writes: the quiet hours and
   * time zone the update supplies replace those of `before`.
   */
  function ApplyPreferencesUpdate(before: Preferences, quietStart: Option<TimeOfDay>,
                                  quietEnd: Option<TimeOfDay>, timezone: Option<string>): (p: Preferences)
    ensures p.userId == before.userId && p.quietHoursEnabled == before.quietHoursEnabled
    ensures p.grantUpdates == before.grantUpdates && p.applicationStatus == before.applicationStatus
    ensures p.communityActivity == before.communityActivity
    ensures p.marketplaceActivity == before.marketplaceActivity
    ensures p.systemAnnouncements == before.systemAnnouncements
    ensures quietStart.Some? ==> p.quietHoursStart == quietStart.value
    ensures quietStart.None? ==> p.quietHoursStart == before.quietHoursStart
    ensures quietEnd.Some? ==> p.quietHoursEnd == quietEnd.value
    ensures quietEnd.None? ==> p.quietHoursEnd == before.quietHoursEnd
    ensures timezone.Some? ==> p.timezone == timezone.value
    ensures timezone.None? ==> p.timezone == before.timezone
  {
    before.(quietHoursStart := if quietStart.Some? then quietStart.value else before.quietHoursStart,
            quietHoursEnd := if quietEnd.Some? then quietEnd.value else before.quietHoursEnd,
            timezone := if timezone.Some? then timezone.value else before.timezone)
  }

  /** The notifications table and the preferences table, keyed by id and by user. */
  class NotificationStore {
    var notifications: map<nat, Notification>
    var preferences: map<int, Preferences>
    var nextId: nat

    ghost predicate Valid()
      reads this
    {
      (forall id :: id in notifications ==> notifications[id].id == id && id < nextId)
      && (forall u :: u in preferences ==> preferences[u].userId == u)
    }

    constructor ()
      ensures Valid() && notifications == map[] && preferences == map[]
    {
      notifications := map[];
      preferences := map[];
      nextId := 1;
    }

    /**
     * `get_notification_preferences`: the user's preferences, inserting the
     * defaults first when the user has none.
     */
    method GetNotificationPreferences(userId: int) returns (p: Preferences)
      requires Valid()
      modifies this
      ensures Valid()
      ensures p == PreferencesOf(old(preferences), userId) && p.userId == userId
      ensures preferences == old(preferences)[userId := p]
      ensures notifications == old(notifications) && nextId == old(nextId)
    {
      if userId !in preferences {
        preferences := preferences[userId := DefaultPreferences(userId)];
      }
      p := preferences[userId];
    }

    /**
     * `update_notification_preferences`: the quiet hours and time zone the
     * update sets replace the stored ones; the rest of the row is kept (or
     * takes the defaults when the user had no row).
     */
    method UpdateNotificationPreferences(userId: int, quietStart: Option<TimeOfDay>,
                                         quietEnd: Option<TimeOfDay>, timezone: Option<string>)
      returns (p: Preferences)
      requires Valid()
      modifies this
      ensures Valid()
      ensures var before := PreferencesOf(old(preferences), userId);
              p.userId == userId
              && p.grantUpdates == before.grantUpdates && p.applicationStatus == before.applicationStatus
              && p.communityActivity == before.communityActivity
              && p.marketplaceActivity == before.marketplaceActivity
              && p.systemAnnouncements == before.systemAnnouncements
              && p.quietHoursEnabled == before.quietHoursEnabled
              && p.quietHoursStart == (if quietStart.Some? then quietStart.value else before.quietHoursStart)
              && p.quietHoursEnd == (if quietEnd.Some? then quietEnd.value else before.quietHoursEnd)
              && p.timezone == (if timezone.Some? then timezone.value else before.timezone)
      ensures p == ApplyPreferencesUpdate(PreferencesOf(old(preferences), userId), quietStart, quietEnd, timezone)
      ensures preferences == old(preferences)[userId := p]
      ensures notifications == old(notifications) && nextId == old(nextId)
    {
      var q := PreferencesOf(preferences, userId);
      if quietStart.Some? {
        q := q.(quietHoursStart := quietStart.value);
      }
      if quietEnd.Some? {
        q := q.(quietHoursEnd := quietEnd.value);
      }
      if timezone.Some? {
        q := q.(timezone := timezone.value);
      }
      preferences := preferences[userId := q];
      p := q;
    }

    /**
     * `mark_notification_read`: true, and `read_at` set, exactly when the
     * notification exists, belongs to the user and was still unread; a
     * second call therefore answers false.
     */
    method MarkNotificationRead(notificationId: nat, userId: int, now: int) returns (marked: bool)
      requires Valid()
      modifies this
      ensures Valid()
      ensures marked <==> notificationId in old(notifications)
                          && old(notifications)[notificationId].userId == userId
                          && old(notifications)[notificationId].readAt.None?
      ensures marked ==> notifications == old(notifications)[notificationId :=
                                            old(notifications)[notificationId].(readAt := Some(now))]
      ensures marked ==> notificationId !in UnreadIds(notifications, userId)
      ensures !marked ==> notifications == old(notifications)
      ensures preferences == old(preferences) && nextId == old(nextId)
    {
      if notificationId in notifications && notifications[notificationId].userId == userId
         && notifications[notificationId].readAt.None? {
        notifications := notifications[notificationId := notifications[notificationId].(readAt := Some(now))];
        return true;
      }
      return false;
    }

    /**
     * `mark_all_read`: every unread notification of the user gets `read_at`;
     * the answer is how many there were, and none is left unread.
     */
    method MarkAllRead(userId: int, now: int) returns (count: nat)
      requires Valid()
      modifies this
      ensures Valid()
      ensures count == |UnreadIds(old(notifications), userId)|
      ensures UnreadIds(notifications, userId) == {}
      ensures notifications.Keys == old(notifications).Keys
      ensures forall id :: id in notifications ==>
                notifications[id] == if id in UnreadIds(old(notifications), userId)
                                     then old(notifications)[id].(readAt := Some(now))
                                     else old(notifications)[id]
      ensures preferences == old(preferences) && nextId == old(nextId)
    {
      var unread := UnreadIds(notifications, userId);
      count := |unread|;
      var old_ := notifications;
      notifications := map id | id in old_ :: if id in unread then old_[id].(readAt := Some(now)) else old_[id];
    }

    /** `delete_notification`: true, and the row gone, exactly when the user owns it. */
    method DeleteNotification(notificationId: nat, userId: int) returns (deleted: bool)
      requires Valid()
      modifies this
      ensures Valid()
      ensures deleted <==> notificationId in old(notifications)
                           && old(notifications)[notificationId].userId == userId
      ensures deleted ==> notifications == old(notifications) - {notificationId}
      ensures !deleted ==> notifications == old(notifications)
      ensures preferences == old(preferences) && nextId == old(nextId)
    {
      if notificationId in notifications && notifications[notificationId].userId == userId {
        notifications := notifications - {notificationId};
        return true;
      }
      return false;
    }

    /**
     * `create_notification` for a list of recipients: each recipient's
     * preferences are read (the defaults inserted when missing), the
     * delivered channels computed, and a row added when any remain. The
     * answer is the first row added.
     */
    method CreateNotification(n: NotificationCreate, senderId: Option<int>, targets: seq<int>,
                              now: TimeOfDay, createdAt: int)
      returns (first: Option<Notification>)
      requires Valid()
      modifies this
      ensures Valid()
      ensures var rows := NewRows(n, senderId, targets, |targets|, Deliveries(n, old(preferences), targets, now),
                                  createdAt, old(nextId));
              RowsStored(notifications, nextId, old(notifications), old(nextId), rows)
              && first == (if rows == [] then None else Some(rows[0]))
      ensures forall u :: u in preferences <==> u in old(preferences) || u in targets
      ensures forall u :: u in preferences ==> preferences[u] == PreferencesOf(old(preferences), u)
    {
      ghost var d := Deliveries(n, preferences, targets, now);
      DeliveriesRecorded(n, preferences, targets, now);
      var table: map<nat, Notification>, prefs: map<int, Preferences>, next: nat;
      first, table, prefs, next := DeliverAll(n, senderId, targets, now, createdAt, notifications, preferences, nextId,
                                              d);
      ghost var rows := NewRows(n, senderId, targets, |targets|, d, createdAt, nextId);
      NewRowsIds(n, senderId, targets, |targets|, d, createdAt, nextId);
      RowIdsStored(table, next, notifications, nextId, rows);
      PrefsReadForAll(prefs, preferences, targets);
      ghost var table0, id0 := notifications, nextId;
      notifications, preferences, nextId := table, prefs, next;
      assert RowsStored(notifications, nextId, table0, id0, rows);
    }

    /**
     * `get_notification_preferences` as the code stands: the response is
     * built without the `id` and `created_at` that the response schema
     * requires, so once the defaults are stored the call fails (500) for
     * every user.
     */
    method GetNotificationPreferencesAsWritten(userId: int) returns (r: Result<Preferences>)
      requires Valid()
      modifies this
      ensures Valid()
      ensures r == Fail(ServerError)
      ensures preferences == old(preferences)[userId := PreferencesOf(old(preferences), userId)]
      ensures notifications == old(notifications) && nextId == old(nextId)
    {
      var _ := GetNotificationPreferences(userId);
      r := Fail(ServerError);
    }

    /**
     * `update_notification_preferences` as the code stands: the update is
     * committed, then the answer is built by `get_notification_preferences`,
     * which fails.
     */
    method UpdateNotificationPreferencesAsWritten(userId: int, quietStart: Option<TimeOfDay>,
                                                  quietEnd: Option<TimeOfDay>, timezone: Option<string>)
      returns (r: Result<Preferences>)
      requires Valid()
      modifies this
      ensures Valid()
      ensures r == Fail(ServerError)
      ensures preferences == old(preferences)[userId := ApplyPreferencesUpdate(PreferencesOf(old(preferences), userId),
                                                                               quietStart, quietEnd, timezone)]
      ensures notifications == old(notifications) && nextId == old(nextId)
    {
      var _ := UpdateNotificationPreferences(userId, quietStart, quietEnd, timezone);
      r := GetNotificationPreferencesAsWritten(userId);
    }

    /**
     * `create_notification` as the code stands: the first recipient's
     * preferences are read through `get_notification_preferences`, which
     * fails, so no notification is stored for any non-empty recipient list.
     */
    method CreateNotificationAsWritten(n: NotificationCreate, senderId: Option<int>, targets: seq<int>,
                                       now: TimeOfDay, createdAt: int)
      returns (r: Result<Option<Notification>>)
      requires Valid()
      modifies this
      ensures Valid()
      ensures targets == [] ==> r == Ok(None) && preferences == old(preferences)
      ensures targets != [] ==> r == Fail(ServerError)
                                && preferences == old(preferences)[targets[0] := PreferencesOf(old(preferences), targets[0])]
      ensures notifications == old(notifications) && nextId == old(nextId)
    {
      if targets == [] {
        return Ok(None);
      }
      var read := GetNotificationPreferencesAsWritten(targets[0]);
      r := Fail(read.error);
    }
  }

  /**
   * With the response built from the stored row, reading preferences answers
   * them; as written the same read fails, though it stores the same defaults.
   */
  method PreferencesDiscrepancy(s: NotificationStore, userId: int)
    returns (asWritten: Result<Preferences>, intended: Preferences)
    requires s.Valid()
    modifies s
    ensures asWritten == Fail(ServerError)
    ensures intended == PreferencesOf(old(s.preferences), userId) && intended.userId == userId
    ensures s.preferences == old(s.preferences)[userId := intended]
  {
    asWritten := s.GetNotificationPreferencesAsWritten(userId);
    intended := s.GetNotificationPreferences(userId);
  }

  /** `d` records, for every recipient, the channels delivered under `prefs`. */
  predicate ChannelsRecorded(d: map<int, seq<Channel>>, n: NotificationCreate, prefs: map<int, Preferences>,
                             targets: seq<int>, now: TimeOfDay)
  {
    forall u {:trigger PreferencesOf(prefs, u)} :: u in targets ==>
      Lookup(d, u) == DeliveredChannels(n.notificationType, n.channels, PreferencesOf(prefs, u), now)
  }

  /** The notification table, the next id and the first row added, part way through `create_notification`. */
  datatype Progress = Progress(table: map<nat, Notification>, next: nat, first: Option<Notification>)

  /** The progress after the first `count` recipients' turns, from `table0` and `id0`. */
  function ProgressAfter(n: NotificationCreate, senderId: Option<int>, targets: seq<int>, count: nat,
                         d: map<int, seq<Channel>>, createdAt: int, table0: map<nat, Notification>, id0: nat)
    : Progress
    requires count <= |targets|
  {
    if count == 0 then Progress(table0, id0, None)
    else
      var before := ProgressAfter(n, senderId, targets, count - 1, d, createdAt, table0, id0);
      var channels := Lookup(d, targets[count - 1]);
      if channels == [] then before
      else
        var row := NewRow(n, senderId, before.next, targets[count - 1], channels, createdAt);
        Progress(before.table[before.next := row], before.next + 1,
                 if before.first.None? then Some(row) else before.first)
  }

  /** The preferences table after the first `count` recipients' preferences were read. */
  function PrefsAfter(prefs0: map<int, Preferences>, targets: seq<int>, count: nat): map<int, Preferences>
    requires count <= |targets|
  {
    if count == 0 then prefs0
    else
      var prefs := PrefsAfter(prefs0, targets, count - 1);
      prefs[targets[count - 1] := PreferencesOf(prefs, targets[count - 1])]
  }

  /** After `count` turns, the table holds the old rows and exactly the rows `NewRows` lists. */
  lemma {:induction false} ProgressStoresNewRows(n: NotificationCreate, senderId: Option<int>, targets: seq<int>,
                                                 count: nat, d: map<int, seq<Channel>>, createdAt: int,
                                                 table0: map<nat, Notification>, id0: nat)
    requires count <= |targets|
    requires forall id :: id in table0 ==> id < id0
    ensures var pr := ProgressAfter(n, senderId, targets, count, d, createdAt, table0, id0);
            var rows := NewRows(n, senderId, targets, count, d, createdAt, id0);
            RowsStored(pr.table, pr.next, table0, id0, rows)
            && pr.first == (if |rows| == 0 then None else Some(rows[0]))
  {
    if count > 0 {
      ProgressStoresNewRows(n, senderId, targets, count - 1, d, createdAt, table0, id0);
      var before := ProgressAfter(n, senderId, targets, count - 1, d, createdAt, table0, id0);
      var rows := NewRows(n, senderId, targets, count - 1, d, createdAt, id0);
      var channels := Lookup(d, targets[count - 1]);
      if channels != [] {
        var row := NewRow(n, senderId, before.next, targets[count - 1], channels, createdAt);
        RowsStoredAdd(before.table, before.next, table0, id0, rows, row);
      }
    }
  }

  /** After `count` turns, the preferences table holds the old rows and the defaults of the users seen. */
  lemma {:induction false} PrefsAfterReadsDefaults(prefs0: map<int, Preferences>, targets: seq<int>, count: nat)
    requires count <= |targets|
    ensures PrefsFrom(PrefsAfter(prefs0, targets, count), prefs0, SeenTargets(targets, count))
  {
    if count > 0 {
      PrefsAfterReadsDefaults(prefs0, targets, count - 1);
      PrefsFromStep(PrefsAfter(prefs0, targets, count - 1), prefs0, SeenTargets(targets, count - 1),
                    targets[count - 1]);
    }
  }

  /** Reading a recipient's preferences part way through gives the stored row or the defaults. */
  lemma PrefsAfterOf(prefs0: map<int, Preferences>, targets: seq<int>, count: nat, u: int)
    requires count <= |targets|
    ensures PreferencesOf(PrefsAfter(prefs0, targets, count), u) == PreferencesOf(prefs0, u)
  {
    PrefsAfterReadsDefaults(prefs0, targets, count);
  }

  /**
   * The loop of `create_notification` over the recipients, on the
   * notification table, the preferences table and the next id; `d`
   * records the channels each recipient gets.
   */
  method DeliverAll(n: NotificationCreate, senderId: Option<int>, targets: seq<int>, now: TimeOfDay, createdAt: int,
                    table0: map<nat, Notification>, prefs0: map<int, Preferences>, id0: nat,
                    ghost d: map<int, seq<Channel>>)
    returns (first: Option<Notification>, table: map<nat, Notification>, prefs: map<int, Preferences>, next: nat)
    requires forall id :: id in table0 ==> id < id0
    requires ChannelsRecorded(d, n, prefs0, targets, now)
    ensures var rows := NewRows(n, senderId, targets, |targets|, d, createdAt, id0);
            RowsStored(table, next, table0, id0, rows) && first == (if |rows| == 0 then None else Some(rows[0]))
    ensures PrefsFrom(prefs, prefs0, SeenTargets(targets, |targets|))
  {
    first, table, prefs, next := None, table0, prefs0, id0;
    var i := 0;
    while i < |targets|
      invariant 0 <= i <= |targets|
      invariant Progress(table, next, first) == ProgressAfter(n, senderId, targets, i, d, createdAt, table0, id0)
      invariant prefs == PrefsAfter(prefs0, targets, i)
    {
      first, table, prefs, next := DeliverTurn(n, senderId, targets, now, createdAt, table0, prefs0, id0, d, i,
                                               first, table, prefs, next);
      i := i + 1;
    }
    ProgressStoresNewRows(n, senderId, targets, |targets|, d, createdAt, table0, id0);
    PrefsAfterReadsDefaults(prefs0, targets, |targets|);
  }

  /** One recipient's turn of the loop of `create_notification`. */
  method DeliverTurn(n: NotificationCreate, senderId: Option<int>, targets: seq<int>, now: TimeOfDay, createdAt: int,
                     ghost table0: map<nat, Notification>, ghost prefs0: map<int, Preferences>, ghost id0: nat,
                     ghost d: map<int, seq<Channel>>, i: nat,
                     first: Option<Notification>, table: map<nat, Notification>, prefs: map<int, Preferences>,
                     next: nat)
    returns (first': Option<Notification>, table': map<nat, Notification>, prefs': map<int, Preferences>,
             next': nat)
    requires i < |targets|
    requires ChannelsRecorded(d, n, prefs0, targets, now)
    requires Progress(table, next, first) == ProgressAfter(n, senderId, targets, i, d, createdAt, table0, id0)
    requires prefs == PrefsAfter(prefs0, targets, i)
    ensures Progress(table', next', first') == ProgressAfter(n, senderId, targets, i + 1, d, createdAt, table0, id0)
    ensures prefs' == PrefsAfter(prefs0, targets, i + 1)
  {
    var u := targets[i];
    PrefsAfterOf(prefs0, targets, i, u);
    // get_notification_preferences: the stored row, or the defaults inserted
    var p := PreferencesOf(prefs, u);
    prefs' := prefs[u := p];
    var channels := RecipientChannels(n, p, now);
    assert channels == Lookup(d, u);
    first', table', next' := first, table, next;
    if channels != [] {
      var row := NewRow(n, senderId, next, u, channels, createdAt);
      table' := table[next := row];
      next' := next + 1;
      if first.None? {
        first' := Some(row);
      }
    }
  }

  lemma DeliveriesRecorded(n: NotificationCreate, prefs: map<int, Preferences>, targets: seq<int>, now: TimeOfDay)
    ensures ChannelsRecorded(Deliveries(n, prefs, targets, now), n, prefs, targets, now)
  {
    var d := Deliveries(n, prefs, targets, now);
    forall u | u in targets
      ensures Lookup(d, u) == DeliveredChannels(n.notificationType, n.channels, PreferencesOf(prefs, u), now)
    {
    }
  }

  /** The k-th new row carries id `firstId + k`. */
  lemma NewRowsIds(n: NotificationCreate, senderId: Option<int>, targets: seq<int>, count: nat,
                   channelsOf: map<int, seq<Channel>>, createdAt: int, firstId: nat)
    requires count <= |targets|
    ensures var rows := NewRows(n, senderId, targets, count, channelsOf, createdAt, firstId);
            forall k :: 0 <= k < |rows| ==> rows[k].id == firstId + k
  {
    NewRowsShape(n, senderId, targets, count, channelsOf, createdAt, firstId);
  }

  /** Rows stored under consecutive ids keep every row under its own id, below the next id. */
  lemma RowIdsStored(table: map<nat, Notification>, next: nat, table0: map<nat, Notification>, id0: nat,
                     rows: seq<Notification>)
    requires RowsStored(table, next, table0, id0, rows)
    requires forall id :: id in table0 ==> table0[id].id == id && id < id0
    requires forall k :: 0 <= k < |rows| ==> rows[k].id == id0 + k
    ensures forall id :: id in table ==> table[id].id == id && id < next
  {
    forall id | id in table
      ensures table[id].id == id && id < next
    {
      if id !in table0 {
        assert table[id0 + (id - id0)] == rows[id - id0];
      }
    }
  }

  /** After every recipient's turn, the preferences table holds the old rows and a row for every recipient. */
  lemma PrefsReadForAll(prefs: map<int, Preferences>, prefs0: map<int, Preferences>, targets: seq<int>)
    requires PrefsFrom(prefs, prefs0, SeenTargets(targets, |targets|))
    ensures forall u :: u in prefs <==> u in prefs0 || u in targets
    ensures forall u :: u in prefs ==> prefs[u] == PreferencesOf(prefs0, u)
    ensures (forall u :: u in prefs0 ==> prefs0[u].userId == u) ==> forall u :: u in prefs ==> prefs[u].userId == u
  {
    var seen := SeenTargets(targets, |targets|);
    forall u | u in targets
      ensures u in seen
    {
      var j :| 0 <= j < |targets| && targets[j] == u;
    }
  }

  /** `table` holds `table0` and, from `id0` up to `next`, exactly `rows`. */
  ghost predicate RowsStored(table: map<nat, Notification>, next: nat, table0: map<nat, Notification>, id0: nat,
                             rows: seq<Notification>)
  {
    next == id0 + |rows|
    && (forall id :: id in table <==> id in table0 || id0 <= id < next)
    && (forall k :: 0 <= k < |rows| ==> table[id0 + k] == rows[k])
    && (forall id :: id in table0 ==> table[id] == table0[id])
  }

  lemma RowsStoredAdd(table: map<nat, Notification>, next: nat, table0: map<nat, Notification>, id0: nat,
                      rows: seq<Notification>, row: Notification)
    requires RowsStored(table, next, table0, id0, rows)
    requires forall id :: id in table0 ==> id < id0
    ensures RowsStored(table[next := row], next + 1, table0, id0, rows + [row])
  {
    assert forall k :: 0 <= k < |rows| ==> (rows + [row])[k] == rows[k];
  }

  /** `prefs` is `prefs0` with the defaults added for the users in `seen` who had none. */
  ghost predicate PrefsFrom(prefs: map<int, Preferences>, prefs0: map<int, Preferences>, seen: set<int>)
  {
    (forall u :: u in prefs <==> u in prefs0 || u in seen)
    && (forall u :: u in prefs ==> prefs[u] == PreferencesOf(prefs0, u))
  }

  lemma PrefsFromStep(prefs: map<int, Preferences>, prefs0: map<int, Preferences>, seen: set<int>, u: int)
    requires PrefsFrom(prefs, prefs0, seen)
    ensures PreferencesOf(prefs, u) == PreferencesOf(prefs0, u)
    ensures PrefsFrom(prefs[u := PreferencesOf(prefs, u)], prefs0, seen + {u})
  {
  }

  // ---------------------------------------------------------------------
  // Reading notifications
  // ---------------------------------------------------------------------

  /** A query parameter that filters: given and not empty. */
  predicate Filters(param: Option<string>)
  {
    param.Some? && param.value != []
  }

  /** The ids of a user's notifications. */
  function UserIds(notifications: map<nat, Notification>, userId: int): (ids: set<nat>)
    ensures forall id :: id in ids <==> id in notifications && notifications[id].userId == userId
  {
    set id | id in notifications && notifications[id].userId == userId
  }

  /**
   * The rows `get_user_notifications` selects before ordering and paging:
   * the user's own, unread ones only when asked, of the given type and
   * priority when those are given.
   */
  function ListedIds(notifications: map<nat, Notification>, userId: int, unreadOnly: bool,
                     notificationType: Option<string>, priority: Option<string>): (ids: set<nat>)
    ensures ids <= UserIds(notifications, userId)
    ensures unreadOnly ==> ids <= UnreadIds(notifications, userId)
    ensures !Filters(notificationType) && !Filters(priority) ==>
              ids == if unreadOnly then UnreadIds(notifications, userId) else UserIds(notifications, userId)
  {
    set id | id in notifications && notifications[id].userId == userId
             && (unreadOnly ==> notifications[id].readAt.None?)
             && (Filters(notificationType) ==> TypeName(notifications[id].notificationType) == notificationType.value)
             && (Filters(priority) ==> PriorityName(notifications[id].priority) == priority.value)
  }

  /** A type filter naming no notification type selects nothing. */
  lemma UnknownTypeSelectsNothing(notifications: map<nat, Notification>, userId: int, unreadOnly: bool,
                                  notificationType: Option<string>, priority: Option<string>)
    requires Filters(notificationType) && forall t: NotificationType :: TypeName(t) != notificationType.value
    ensures ListedIds(notifications, userId, unreadOnly, notificationType, priority) == {}
  {
    var ids := ListedIds(notifications, userId, unreadOnly, notificationType, priority);
    forall id | id in notifications
      ensures id !in ids
    {
      assert TypeName(notifications[id].notificationType) != notificationType.value;
    }
  }

  /** Asking for unread rows only never selects more. */
  lemma UnreadOnlyNarrows(notifications: map<nat, Notification>, userId: int,
                          notificationType: Option<string>, priority: Option<string>)
    ensures ListedIds(notifications, userId, true, notificationType, priority)
            <= ListedIds(notifications, userId, false, notificationType, priority)
  {
  }

  /** How many of `count` selected rows a page of `limit` rows after `skip` holds (`.offset(skip).limit(limit)`). */
  function PageSize(count: nat, skip: nat, limit: nat): (size: nat)
    ensures size <= limit && (skip + size <= count || (size == 0 && skip >= count))
    ensures skip < count ==> size == if count - skip < limit then count - skip else limit
  {
    if skip >= count then 0
    else if count - skip < limit then count - skip
    else limit
  }

  /** What `get_user_notifications` returns, without its order: the rows selected and how many the page holds. */
  datatype NotificationPage = NotificationPage(selected: set<nat>, size: nat)

  function UserNotifications(notifications: map<nat, Notification>, userId: int, unreadOnly: bool,
                             notificationType: Option<string>, priority: Option<string>, skip: nat, limit: nat)
    : (page: NotificationPage)
    ensures page.selected <= UserIds(notifications, userId)
    ensures page.size <= limit && page.size <= |page.selected|
    ensures skip == 0 && |page.selected| <= limit ==> page.size == |page.selected|
  {
    var selected := ListedIds(notifications, userId, unreadOnly, notificationType, priority);
    NotificationPage(selected, PageSize(|selected|, skip, limit))
  }

  // ---------------------------------------------------------------------
  // Statistics
  // ---------------------------------------------------------------------

  /** `timedelta(days=7)`, in seconds. */
  const SevenDays: int := 7 * 24 * 60 * 60

  /** The answer of `get_notification_stats`. */
  datatype NotificationStats = NotificationStats(
    total: nat,
    unread: nat,
    readRate: real,
    byType: map<NotificationType, nat>,
    recent: nat)

  /** The ids of a user's notifications of one type. */
  function TypeIds(notifications: map<nat, Notification>, userId: int, t: NotificationType): (ids: set<nat>)
    ensures ids <= UserIds(notifications, userId)
    ensures forall id :: id in ids ==> notifications[id].notificationType == t
  {
    set id | id in notifications && notifications[id].userId == userId && notifications[id].notificationType == t
  }

  /** The types of a user's notifications (the groups of the `group_by`). */
  function UserTypes(notifications: map<nat, Notification>, userId: int): set<NotificationType>
  {
    set id | id in notifications && notifications[id].userId == userId :: notifications[id].notificationType
  }

  /** `notifications_by_type`: the number of the user's notifications of each type they have. */
  function TypeCounts(notifications: map<nat, Notification>, userId: int): (byType: map<NotificationType, nat>)
    ensures forall t :: t in byType <==> t in UserTypes(notifications, userId)
    ensures forall t :: t in byType ==> byType[t] == |TypeIds(notifications, userId, t)| && byType[t] > 0
  {
    var types := UserTypes(notifications, userId);
    forall t | t in types
      ensures |TypeIds(notifications, userId, t)| > 0
    {
      var id :| id in notifications && notifications[id].userId == userId && notifications[id].notificationType == t;
      assert id in TypeIds(notifications, userId, t);
    }
    map t | t in types :: |TypeIds(notifications, userId, t)|
  }

  /** `(total - unread) / total * 100`, or `0` when there is no notification. */
  function ReadRate(total: nat, unread: nat): (rate: real)
    requires unread <= total
    ensures 0.0 <= rate <= 100.0
    ensures total == 0 ==> rate == 0.0
    ensures rate == 100.0 <==> total > 0 && unread == 0
    ensures rate == 0.0 <==> unread == total
  {
    if total > 0 then
      var r := (total - unread) as real / total as real;
      assert r * total as real == (total - unread) as real;
      r * 100.0
    else 0.0
  }

  /** The user's notifications created at or after `since`. */
  function RecentIds(notifications: map<nat, Notification>, userId: int, since: int): (ids: set<nat>)
    ensures ids <= UserIds(notifications, userId)
    ensures forall id :: id in ids <==> id in notifications && notifications[id].userId == userId
                                        && notifications[id].createdAt >= since
  {
    set id | id in notifications && notifications[id].userId == userId && notifications[id].createdAt >= since
  }

  /**
   * `get_notification_stats`, with `timedelta` in scope: the user's total,
   * unread count, read rate, count per type and count of the last seven
   * days up to `now` (seconds).
   */
  function NotificationStatsOf(notifications: map<nat, Notification>, userId: int, now: int)
    : (st: NotificationStats)
    ensures st.total == |UserIds(notifications, userId)|
    ensures st.unread == |UnreadIds(notifications, userId)| && st.unread <= st.total
    ensures st.recent == |RecentIds(notifications, userId, now - SevenDays)|
    ensures st.recent <= st.total
    ensures st.readRate == ReadRate(st.total, st.unread)
    ensures 0.0 <= st.readRate <= 100.0 && (st.total == 0 ==> st.readRate == 0.0)
    ensures st.byType == TypeCounts(notifications, userId)
  {
    var all := UserIds(notifications, userId);
    var unread := UnreadIds(notifications, userId);
    SubsetCardinality(unread, all);
    var recent := RecentIds(notifications, userId, now - SevenDays);
    SubsetCardinality(recent, all);
    NotificationStats(|all|, |unread|, ReadRate(|all|, |unread|), TypeCounts(notifications, userId), |recent|)
  }

  /**
   * `get_notification_stats` as written: `timedelta` is not imported, so the
   * line computing `seven_days_ago` raises `NameError` (a 500) for every user.
   */
  function NotificationStatsAsWritten(notifications: map<nat, Notification>, userId: int, now: int)
    : (r: Result<NotificationStats>)
    ensures r.Fail? && r.error == ServerError
  {
    Fail(ServerError)
  }

  /** Every type, once. */
  const AllTypes: seq<NotificationType> := [
    GrantPublished, ApplicationReceived, ApplicationStatus, ForumReply, ConnectionRequest,
    EventReminder, AchievementUnlocked, SystemAnnouncement, MarketplaceBooking, ReviewReceived]

  /** The count recorded for `t`, zero when none is. */
  function CountOf(byType: map<NotificationType, nat>, t: NotificationType): nat
  {
    if t in byType then byType[t] else 0
  }

  /** The sum of the per-type counts over `ts`. */
  function SumCounts(byType: map<NotificationType, nat>, ts: seq<NotificationType>): nat
  {
    if ts == [] then 0 else SumCounts(byType, ts[..|ts| - 1]) + CountOf(byType, ts[|ts| - 1])
  }

  /** The ids of a user's notifications whose type is among `ts`. */
  function TypesIds(notifications: map<nat, Notification>, userId: int, ts: seq<NotificationType>): set<nat>
  {
    set id | id in notifications && notifications[id].userId == userId && notifications[id].notificationType in ts
  }

  lemma {:induction false} SumCountsOfTypes(notifications: map<nat, Notification>, userId: int,
                                            ts: seq<NotificationType>)
    requires forall i, j :: 0 <= i < j < |ts| ==> ts[i] != ts[j]
    ensures SumCounts(TypeCounts(notifications, userId), ts) == |TypesIds(notifications, userId, ts)|
  {
    if ts == [] {
      assert TypesIds(notifications, userId, ts) == {};
    } else {
      var init := ts[..|ts| - 1];
      var t := ts[|ts| - 1];
      assert forall i, j :: 0 <= i < j < |init| ==> init[i] != init[j] by {
        forall i, j | 0 <= i < j < |init| ensures init[i] != init[j] { assert init[i] == ts[i] && init[j] == ts[j]; }
      }
      SumCountsOfTypes(notifications, userId, init);
      assert t !in init by {
        forall i | 0 <= i < |init|
          ensures init[i] != t
        {
          assert init[i] == ts[i];
        }
      }
      TypesIdsSplit(notifications, userId, init, t);
      assert ts == init + [t];
      CountOfTypeIds(notifications, userId, t);
    }
  }

  /** Adding one more type, not yet listed, adds that type's notifications and no others. */
  lemma TypesIdsSplit(notifications: map<nat, Notification>, userId: int, init: seq<NotificationType>, t: NotificationType)
    requires t !in init
    ensures |TypesIds(notifications, userId, init + [t])|
            == |TypesIds(notifications, userId, init)| + |TypeIds(notifications, userId, t)|
  {
    var a := TypesIds(notifications, userId, init);
    var b := TypeIds(notifications, userId, t);
    assert forall x :: x in init + [t] <==> x in init || x == t;
    assert TypesIds(notifications, userId, init + [t]) == a + b;
    assert a * b == {};
  }

  /** The statistics' count for a type is the number of the user's notifications of that type. */
  lemma CountOfTypeIds(notifications: map<nat, Notification>, userId: int, t: NotificationType)
    ensures CountOf(TypeCounts(notifications, userId), t) == |TypeIds(notifications, userId, t)|
  {
    if t !in UserTypes(notifications, userId) {
      assert TypeIds(notifications, userId, t) == {} by {
        forall id | id in notifications && notifications[id].userId == userId
          ensures notifications[id].notificationType != t
        {
          assert notifications[id].notificationType in UserTypes(notifications, userId);
        }
      }
    }
  }

  /** The per-type counts of the statistics add up to the total. */
  lemma ByTypeAddsUpToTotal(notifications: map<nat, Notification>, userId: int, now: int)
    ensures var st := NotificationStatsOf(notifications, userId, now);
            SumCounts(st.byType, AllTypes) == st.total
  {
    SumCountsOfTypes(notifications, userId, AllTypes);
    forall t: NotificationType
      ensures t in AllTypes
    {
      var i := match t
        case GrantPublished => 0 case ApplicationReceived => 1 case ApplicationStatus => 2 case ForumReply => 3
        case ConnectionRequest => 4 case EventReminder => 5 case AchievementUnlocked => 6
        case SystemAnnouncement => 7 case MarketplaceBooking => 8 case ReviewReceived => 9;
      assert AllTypes[i] == t;
    }
    assert TypesIds(notifications, userId, AllTypes) == UserIds(notifications, userId);
  }
}
