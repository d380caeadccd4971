/**
 * The networking endpoints (backend/app/api/v1/networking.py): the admin
 * gate on events, the organizer-only registration list, the interest
 * removal and the caller's connection statistics. The connection, event
 * and interest queries and writes these handlers call are not part of
 * this model; their outcomes are parameters.
 */
module NetworkingApi {
  import opened Common
  import opened UserModel
  import opened Deps

  datatype NetworkingEvent = NetworkingEvent(id: nat, organizerId: nat, organizationId: Option<int>)

  /** A connection row as the statistics read it; `status` is a plain string. */
  datatype Connection = Connection(id: nat, requesterId: nat, recipientId: nat, status: string)

  /** `create_event`: admin roles only (403). */
  function CreateEventGate(caller: User): (r: Result<User>)
    ensures r.Ok? <==> IsAdmin(caller.role)
    ensures r.Fail? ==> r.error == Forbidden
  {
    AdminRoleNameGate(caller)
  }

  /** `get_event`: the event, or 404. */
  function GetEvent(events: map<nat, NetworkingEvent>, id: nat): (r: Result<NetworkingEvent>)
    ensures r.Ok? <==> id in events
    ensures r.Ok? ==> r.value == events[id]
    ensures r.Fail? ==> r.error == NotFound
  {
    if id !in events then Fail(NotFound) else Ok(events[id])
  }

  /** `get_event_registrations_list`: only the organizer passes; a missing event is refused the same way (403). */
  function RegistrationsGate(events: map<nat, NetworkingEvent>, caller: User, id: nat): (r: Result<NetworkingEvent>)
    ensures r.Ok? <==> id in events && events[id].organizerId == caller.id
    ensures r.Fail? ==> r.error == Forbidden
    ensures r.Ok? ==> r.value == events[id]
  {
    if id !in events || events[id].organizerId != caller.id then Fail(Forbidden) else Ok(events[id])
  }

  /**
   * Asking for the registrations of an event that does not exist is
   * answered 403, where asking for the event itself is answered 404.
   */
  lemma MissingEventIsForbiddenNotFound(events: map<nat, NetworkingEvent>, caller: User, id: nat)
    requires id !in events
    ensures RegistrationsGate(events, caller, id) == Fail(Forbidden)
    ensures GetEvent(events, id) == Fail(NotFound)
  {
  }

  /** Not even an admin sees another organizer's registrations. */
  lemma AdminsAreNotOrganizers(events: map<nat, NetworkingEvent>, caller: User, id: nat)
    requires id in events && events[id].organizerId != caller.id
    ensures RegistrationsGate(events, caller, id).Fail?
  {
  }

  /** `remove_interest`: 404 exactly when the delete reports that nothing was removed. */
  function RemoveInterest(deleted: bool): (r: Result<()>)
    ensures r.Ok? <==> deleted
    ensures r.Fail? ==> r.error == NotFound
  {
    if !deleted then Fail(NotFound) else Ok(())
  }

  /** The answer of `get_networking_stats`. */
  datatype NetworkingStats = NetworkingStats(
    totalConnections: nat,
    pendingRequests: nat,
    totalInterests: nat,
    eventsAttended: nat)

  /** `get_networking_stats` over the caller's connections and interests as fetched. */
  function NetworkingStatsOf(connections: seq<Connection>, interestCount: nat): (st: NetworkingStats)
    ensures st.totalConnections == |set i: nat | i < |connections| && connections[i].status == "accepted"|
    ensures st.pendingRequests == |set i: nat | i < |connections| && connections[i].status == "pending"|
    ensures st.totalConnections + st.pendingRequests <= |connections|
    ensures st.totalInterests == interestCount
    ensures st.eventsAttended == 0
    ensures (forall i :: 0 <= i < |connections| ==> connections[i].status == "accepted")
            ==> st.totalConnections == |connections| && st.pendingRequests == 0
  {
    var accepted := (c: Connection) => c.status == "accepted";
    var pending := (c: Connection) => c.status == "pending";
    CountDisjoint(connections, accepted, pending);
    AllCounted(connections, accepted, pending);
    CountWhereIsIndexCount(connections, accepted);
    CountWhereIsIndexCount(connections, pending);
    assert IndicesWhere(connections, accepted) == set i: nat | i < |connections| && connections[i].status == "accepted";
    assert IndicesWhere(connections, pending) == set i: nat | i < |connections| && connections[i].status == "pending";
    NetworkingStats(CountWhere(connections, accepted), CountWhere(connections, pending), interestCount, 0)
  }

  /** When every element meets `p` and `q` excludes `p`, all are counted under `p` and none under `q`. */
  lemma {:induction false} AllCounted(s: seq<Connection>, p: Connection -> bool, q: Connection -> bool)
    requires forall x :: !(p(x) && q(x))
    ensures (forall i :: 0 <= i < |s| ==> p(s[i])) ==> CountWhere(s, p) == |s| && CountWhere(s, q) == 0
  {
    if s != [] && forall i :: 0 <= i < |s| ==> p(s[i]) {
      var init := s[..|s| - 1];
      assert forall i :: 0 <= i < |init| ==> p(init[i]) by {
        forall i | 0 <= i < |init| ensures p(init[i]) {
          assert init[i] == s[i];
        }
      }
      AllCounted(init, p, q);
    }
  }
}
