/**
 * The notification endpoints (backend/app/api/v1/notifications.py): the
 * caller's own list, the 404s of read and delete, the preferences, the
 * statistics, the admin-only system notification, the unread count and the
 * recent list.
 */
module NotificationsApi {
  import opened Common
  import opened UserModel
  import opened Deps
  import opened Notifications

  /** The query limits of `get_my_notifications`: `skip >= 0`, `1 <= limit <= 100` (422 otherwise). */
  function GetMyNotifications(notifications: map<nat, Notification>, caller: User, unreadOnly: bool,
                              notificationType: Option<string>, priority: Option<string>, skip: int, limit: int)
    : (r: Result<NotificationPage>)
    ensures r.Fail? <==> skip < 0 || limit < 1 || limit > 100
    ensures r.Fail? ==> r.error == Unprocessable
    ensures r.Ok? ==> r.value.selected <= UserIds(notifications, caller.id) && r.value.size <= limit
    ensures r.Ok? && unreadOnly ==> r.value.selected <= UnreadIds(notifications, caller.id)
  {
    if skip < 0 || limit < 1 || limit > 100 then Fail(Unprocessable)
    else Ok(UserNotifications(notifications, caller.id, unreadOnly, notificationType, priority, skip, limit))
  }

  /** `mark_notification_as_read`: 404 unless the caller's own notification was still unread. */
  method MarkNotificationAsRead(s: NotificationStore, caller: User, notificationId: nat, now: int)
    returns (r: Result<()>)
    requires s.Valid()
    modifies s
    ensures s.Valid()
    ensures r.Ok? <==> notificationId in UnreadIds(old(s.notifications), caller.id)
    ensures r.Fail? ==> r.error == NotFound && s.notifications == old(s.notifications)
    ensures r.Ok? ==> notificationId !in UnreadIds(s.notifications, caller.id)
                      && s.notifications == old(s.notifications)[notificationId :=
                           old(s.notifications)[notificationId].(readAt := Some(now))]
    ensures s.preferences == old(s.preferences) && s.nextId == old(s.nextId)
  {
    var success := s.MarkNotificationRead(notificationId, caller.id, now);
    if !success {
      return Fail(NotFound);
    }
    r := Ok(());
  }

  /** `mark_all_notifications_read`: how many of the caller's notifications were unread; none is afterwards. */
  method MarkAllNotificationsRead(s: NotificationStore, caller: User, now: int) returns (count: nat)
    requires s.Valid()
    modifies s
    ensures s.Valid()
    ensures count == |UnreadIds(old(s.notifications), caller.id)|
    ensures UnreadIds(s.notifications, caller.id) == {}
    ensures s.notifications.Keys == old(s.notifications).Keys
    ensures s.preferences == old(s.preferences) && s.nextId == old(s.nextId)
  {
    count := s.MarkAllRead(caller.id, now);
  }

  /** `delete_user_notification`: 404 unless the notification is the caller's. */
  method DeleteUserNotification(s: NotificationStore, caller: User, notificationId: nat) returns (r: Result<()>)
    requires s.Valid()
    modifies s
    ensures s.Valid()
    ensures r.Ok? <==> notificationId in UserIds(old(s.notifications), caller.id)
    ensures r.Fail? ==> r.error == NotFound && s.notifications == old(s.notifications)
    ensures r.Ok? ==> s.notifications == old(s.notifications) - {notificationId}
    ensures s.preferences == old(s.preferences) && s.nextId == old(s.nextId)
  {
    var success := s.DeleteNotification(notificationId, caller.id);
    if !success {
      return Fail(NotFound);
    }
    r := Ok(());
  }

  /** `NotificationPreferencesUpdate`: a `timezone` longer than 50 characters is refused (422). */
  function ValidatePreferencesUpdate(timezone: Option<string>): (r: Option<HttpError>)
    ensures r.None? <==> timezone.None? || |timezone.value| <= 50
    ensures r.Some? ==> r.value == Unprocessable
  {
    if timezone.Some? && |timezone.value| > 50 then Some(Unprocessable) else None
  }

  /** `update_my_notification_preferences`: a valid body updates the caller's row. */
  method UpdateMyNotificationPreferences(s: NotificationStore, caller: User, quietStart: Option<TimeOfDay>,
                                         quietEnd: Option<TimeOfDay>, timezone: Option<string>)
    returns (r: Result<Preferences>)
    requires s.Valid()
    modifies s
    ensures s.Valid()
    ensures r.Fail? <==> ValidatePreferencesUpdate(timezone).Some?
    ensures r.Fail? ==> r.error == Unprocessable && s.preferences == old(s.preferences)
    ensures r.Ok? ==> r.value.userId == caller.id && s.preferences == old(s.preferences)[caller.id := r.value]
    ensures r.Ok? && timezone.Some? ==> r.value.timezone == timezone.value
    ensures r.Ok? && quietStart.Some? ==> r.value.quietHoursStart == quietStart.value
    ensures r.Ok? && quietEnd.Some? ==> r.value.quietHoursEnd == quietEnd.value
    ensures s.notifications == old(s.notifications) && s.nextId == old(s.nextId)
  {
    var invalid := ValidatePreferencesUpdate(timezone);
    if invalid.Some? {
      return Fail(invalid.value);
    }
    var p := s.UpdateNotificationPreferences(caller.id, quietStart, quietEnd, timezone);
    r := Ok(p);
  }

  /** The field limits of `NotificationBase`: title 200, message 1000, action URL 500 (422 past them). */
  function ValidateNotificationCreate(n: NotificationCreate): (r: Option<HttpError>)
    ensures r.None? <==> |n.title| <= 200 && |n.message| <= 1000 && (n.actionUrl.Some? ==> |n.actionUrl.value| <= 500)
    ensures r.Some? ==> r.value == Unprocessable
  {
    if |n.title| > 200 || |n.message| > 1000 || (n.actionUrl.Some? && |n.actionUrl.value| > 500)
    then Some(Unprocessable)
    else None
  }

  /**
   * `create_system_notification`: a valid body, then the admin role names
   * (403); the recipients are the target user, else the caller's
   * organization (of the target role when given). When no row is created
   * the handler returns nothing, which the response model refuses (500).
   */
  method CreateSystemNotification(s: NotificationStore, caller: User, n: NotificationCreate,
                                  targetUserId: Option<int>, targetRole: Option<string>, users: seq<User>,
                                  now: TimeOfDay, createdAt: int)
    returns (r: Result<Notification>)
    requires s.Valid()
    modifies s
    ensures s.Valid()
    ensures ValidateNotificationCreate(n).Some? ==> r == Fail(Unprocessable)
    ensures ValidateNotificationCreate(n).None? && !IsAdmin(caller.role) ==> r == Fail(Forbidden)
    ensures ValidateNotificationCreate(n).Some? || !IsAdmin(caller.role) ==>
              s.notifications == old(s.notifications) && s.preferences == old(s.preferences)
              && s.nextId == old(s.nextId)
    ensures ValidateNotificationCreate(n).None? && IsAdmin(caller.role) ==>
              var targets := Targets(targetUserId, targetRole, caller.organizationId, users);
              var rows := NewRows(n, Some(caller.id), targets, |targets|,
                                  Deliveries(n, old(s.preferences), targets, now), createdAt, old(s.nextId));
              RowsStored(s.notifications, s.nextId, old(s.notifications), old(s.nextId), rows)
              && r == (if rows == [] then Fail(ServerError) else Ok(rows[0]))
  {
    var invalid := ValidateNotificationCreate(n);
    if invalid.Some? {
      return Fail(invalid.value);
    }
    var gate := AdminRoleNameGate(caller);
    if gate.Fail? {
      return Fail(gate.error);
    }
    var targets := Targets(targetUserId, targetRole, caller.organizationId, users);
    var first := s.CreateNotification(n, Some(caller.id), targets, now, createdAt);
    if first.None? {
      return Fail(ServerError);
    }
    r := Ok(first.value);
  }

  /**
   * A system notification aimed at one user whose delivered channels are
   * not empty creates exactly one row, for that user, and answers it.
   */
  lemma SingleTargetGetsOneRow(n: NotificationCreate, senderId: Option<int>, targetUserId: int,
                               prefs: map<int, Preferences>, now: TimeOfDay, createdAt: int, firstId: nat,
                               targetRole: Option<string>, organizationId: Option<int>, users: seq<User>)
    requires targetUserId != 0
    requires DeliveredChannels(n.notificationType, n.channels, PreferencesOf(prefs, targetUserId), now) != []
    ensures var targets := Targets(Some(targetUserId), targetRole, organizationId, users);
            var rows := NewRows(n, senderId, targets, |targets|, Deliveries(n, prefs, targets, now), createdAt,
                                firstId);
            |rows| == 1 && rows[0].userId == targetUserId && rows[0].id == firstId
            && rows[0].channels == DeliveredChannels(n.notificationType, n.channels,
                                                     PreferencesOf(prefs, targetUserId), now)
  {
    var targets := Targets(Some(targetUserId), targetRole, organizationId, users);
    assert targets == [targetUserId];
    var d := Deliveries(n, prefs, targets, now);
    assert Lookup(d, targetUserId) == DeliveredChannels(n.notificationType, n.channels,
                                                        PreferencesOf(prefs, targetUserId), now);
  }

  /** `get_unread_notification_count`: the unread rows, at most 1000 of them. */
  function UnreadCount(notifications: map<nat, Notification>, caller: User): (count: nat)
    ensures count <= 1000 && count <= |UnreadIds(notifications, caller.id)|
    ensures |UnreadIds(notifications, caller.id)| <= 1000 ==> count == |UnreadIds(notifications, caller.id)|
  {
    UserNotifications(notifications, caller.id, true, None, None, 0, 1000).size
  }

  /** `get_recent_notifications`: `1 <= limit <= 20` (422 otherwise), then the first `limit` of the caller's. */
  function GetRecentNotifications(notifications: map<nat, Notification>, caller: User, limit: int)
    : (r: Result<NotificationPage>)
    ensures r.Fail? <==> limit < 1 || limit > 20
    ensures r.Fail? ==> r.error == Unprocessable
    ensures r.Ok? ==> r.value.selected == UserIds(notifications, caller.id)
                      && r.value.size == if |r.value.selected| < limit then |r.value.selected| else limit
  {
    if limit < 1 || limit > 20 then Fail(Unprocessable)
    else Ok(UserNotifications(notifications, caller.id, false, None, None, 0, limit))
  }

  /** `get_my_notification_stats` as written: every call fails with the `NameError` of the statistics. */
  function GetMyNotificationStatsAsWritten(notifications: map<nat, Notification>, caller: User, now: int)
    : (r: Result<NotificationStats>)
    ensures r == Fail(ServerError)
  {
    NotificationStatsAsWritten(notifications, caller.id, now)
  }

  /** `get_my_notification_stats` with `timedelta` imported: the caller's statistics. */
  function GetMyNotificationStats(notifications: map<nat, Notification>, caller: User, now: int)
    : (r: Result<NotificationStats>)
    ensures r.Ok?
    ensures r.value.total == |UserIds(notifications, caller.id)|
    ensures r.value.unread == |UnreadIds(notifications, caller.id)|
  {
    Ok(NotificationStatsOf(notifications, caller.id, now))
  }

  /** For every caller the statistics endpoint as written fails where the intended one answers. */
  lemma StatsDiscrepancy(notifications: map<nat, Notification>, caller: User, now: int)
    ensures GetMyNotificationStatsAsWritten(notifications, caller, now).Fail?
    ensures GetMyNotificationStats(notifications, caller, now).Ok?
  {
  }
}
