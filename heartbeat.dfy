/**
 * The Heartbeat side of the module: the change feed that tells an open dashboard which
 * count rows changed since its last poll, and the per-(location, date) list of users who
 * are looking at the same day.
 */
module Heartbeat {
  import opened Common
  import opened Counts

  /** The `hhlc_linen_monitor` data a client sends; None marks a missing or empty value. */
  datatype Monitor = Monitor(
    location: int,
    lastCheck: Option<Timestamp>,
    viewingDate: Option<Day>,
    currentRoom: string,
    modalOpen: bool)

  /** One entry of the presence list (the display name is looked up by the host). */
  datatype ActiveUser = ActiveUser(userId: UserId, lastActive: Timestamp, currentRoom: string, modalOpen: bool)

  type Presence = map<UserId, ActiveUser>

  /** The `hhlc_linen_updates` payload. */
  datatype LinenUpdates = LinenUpdates(updates: seq<Record>, timestamp: Timestamp, forRoom: string)

  /** The two keys of the Heartbeat response the module may add. */
  datatype Response = Response(linenUpdates: Option<LinenUpdates>, activeUsers: Option<Presence>)

  /** The WHERE clause of the change-feed query. */
  datatype FeedQuery = FeedQuery(location: int, date: Day, lastCheck: Timestamp, room: Option<string>)

  /** Presence entries older than this many seconds are dropped. */
  const ActiveWindow: int := 120

  /** A monitor request is served only with a location, a last check and a viewing date. */
  predicate Ready(m: Option<Monitor>)
  {
    m.Some? && m.value.location != 0 && m.value.lastCheck.Some? && m.value.viewingDate.Some?
  }

  /** The query a ready monitor asks; the room narrows it only while the modal is open on a room. */
  function QueryOf(m: Monitor): (q: FeedQuery)
    requires m.lastCheck.Some? && m.viewingDate.Some?
    ensures q.room.Some? <==> m.modalOpen && !Falsy(m.currentRoom)
    ensures q.room.Some? ==> q.room.value == m.currentRoom
  {
    FeedQuery(m.location, m.viewingDate.value, m.lastCheck.value,
              if m.modalOpen && !Falsy(m.currentRoom) then Some(m.currentRoom) else None)
  }

  /** `GREATEST(submitted_at, IFNULL(last_updated_at, '0000-00-00'))`. */
  function Latest(row: CountRow): (r: Timestamp)
    ensures r >= row.submittedAt
    ensures row.lastUpdatedAt.Some? ==> r >= row.lastUpdatedAt.value
    ensures r == row.submittedAt || (row.lastUpdatedAt.Some? && r == row.lastUpdatedAt.value)
  {
    if row.lastUpdatedAt.Some? then Max(row.submittedAt, row.lastUpdatedAt.value) else row.submittedAt
  }

  /** Whether a row passes the WHERE clause; both time bounds are inclusive. */
  predicate InFeed(q: FeedQuery, k: Key, row: CountRow)
  {
    k.location == q.location && k.date == q.date &&
    (row.submittedAt >= q.lastCheck || (row.lastUpdatedAt.Some? && row.lastUpdatedAt.value >= q.lastCheck)) &&
    (q.room.Some? ==> k.room == q.room.value)
  }

  predicate FeedHasRow(t: Table, q: FeedQuery)
  {
    exists k | k in t :: InFeed(q, k, t[k])
  }

  /** Every record is a row of the table that passes the query. */
  ghost predicate FeedSound(t: Table, q: FeedQuery, updates: seq<Record>)
  {
    forall i :: 0 <= i < |updates| ==>
      updates[i].key in t && t[updates[i].key] == updates[i].row && InFeed(q, updates[i].key, updates[i].row)
  }

  ghost predicate FeedDistinct(updates: seq<Record>)
  {
    forall i, j :: 0 <= i < j < |updates| ==> updates[i].key != updates[j].key
  }

  /** ORDER BY ... DESC. */
  ghost predicate FeedSorted(updates: seq<Record>)
  {
    forall i, j :: 0 <= i < j < |updates| ==> Latest(updates[i].row) >= Latest(updates[j].row)
  }

  /** A result of the query: the matching rows, each once, latest change first. */
  ghost predicate IsFeed(t: Table, q: FeedQuery, updates: seq<Record>)
  {
    FeedSound(t, q, updates) && FeedDistinct(updates) && FeedSorted(updates) &&
    forall k :: k in t && InFeed(q, k, t[k]) ==> exists i :: 0 <= i < |updates| && updates[i].key == k
  }

  /** The `timestamp` handed back: the latest change of the first record. */
  function Watermark(updates: seq<Record>): Timestamp
    requires updates != []
  {
    Latest(updates[0].row)
  }

  /** The row of `pending` whose latest change is the most recent (one of them, on ties). */
  method MostRecent(t: Table, pending: set<Key>) returns (top: Key)
    requires pending != {} && pending <= t.Keys
    ensures top in pending
    ensures forall k :: k in pending ==> Latest(t[top]) >= Latest(t[k])
  {
    top :| top in pending;
    var rest := pending - {top};
    while rest != {}
      invariant rest <= pending && top in pending
      invariant forall k :: k in pending - rest ==> Latest(t[top]) >= Latest(t[k])
      decreases rest
    {
      var k :| k in rest;
      if Latest(t[k]) > Latest(t[top]) {
        top := k;
      }
      rest := rest - {k};
    }
  }

  /** The change-feed query: selects the matching rows and orders them, most recent first. */
  method RunFeedQuery(t: Table, q: FeedQuery) returns (updates: seq<Record>)
    ensures IsFeed(t, q, updates)
  {
    var matching := set k | k in t && InFeed(q, k, t[k]);
    var pending := matching;
    updates := [];
    while pending != {}
      invariant pending <= matching
      invariant FeedSound(t, q, updates) && FeedDistinct(updates) && FeedSorted(updates)
      invariant forall i :: 0 <= i < |updates| ==> updates[i].key !in pending
      invariant forall i, k :: 0 <= i < |updates| && k in pending ==> Latest(updates[i].row) >= Latest(t[k])
      invariant forall k :: k in matching ==> k in pending || exists i :: 0 <= i < |updates| && updates[i].key == k
      decreases pending
    {
      var top := MostRecent(t, pending);
      ghost var before := updates;
      updates := updates + [Record(top, t[top])];
      assert forall i :: 0 <= i < |before| ==> updates[i] == before[i];
      assert updates[|before|].key == top;
      pending := pending - {top};
    }
    assert forall k :: k in t && InFeed(q, k, t[k]) ==> k in matching;
  }

  /** The watermark is no earlier than the last check and no earlier than any returned change. */
  lemma WatermarkBounds(t: Table, q: FeedQuery, updates: seq<Record>)
    requires IsFeed(t, q, updates) && updates != []
    ensures Watermark(updates) >= q.lastCheck
    ensures forall i :: 0 <= i < |updates| ==> Watermark(updates) >= updates[i].row.submittedAt
    ensures forall i :: 0 <= i < |updates| && updates[i].row.lastUpdatedAt.Some? ==>
      Watermark(updates) >= updates[i].row.lastUpdatedAt.value
  {
    assert InFeed(q, updates[0].key, updates[0].row);
    forall i | 0 <= i < |updates|
      ensures Watermark(updates) >= Latest(updates[i].row)
    {
      if i > 0 {
        assert Latest(updates[0].row) >= Latest(updates[i].row);
      }
    }
  }

  /** The feed has an entry exactly when some row of the day passes the query. */
  lemma FeedEmptyIff(t: Table, q: FeedQuery, updates: seq<Record>)
    requires IsFeed(t, q, updates)
    ensures updates == [] <==> !FeedHasRow(t, q)
  {
    if updates != [] {
      assert updates[0].key in t && InFeed(q, updates[0].key, t[updates[0].key]);
    }
  }

  /**
   * Because the bounds are inclusive, polling again with the returned watermark and no new
   * writes returns the most recent row once more: the cursor re-delivers, it does not skip.
   */
  lemma NextPollRedeliversLatest(t: Table, q: FeedQuery, updates: seq<Record>, next: seq<Record>)
    requires IsFeed(t, q, updates) && updates != []
    requires IsFeed(t, q.(lastCheck := Watermark(updates)), next)
    ensures next != []
    ensures exists i :: 0 <= i < |next| && next[i] == updates[0]
  {
    var top := updates[0];
    assert top.key in t && t[top.key] == top.row;
    assert InFeed(q.(lastCheck := Watermark(updates)), top.key, t[top.key]);
    var i :| 0 <= i < |next| && next[i].key == top.key;
    assert next[i].row == t[top.key];
  }

  // ---------------------------------------------------------------- presence

  /** `$users` with entries older than the cutoff removed. */
  function Pruned(users: Presence, cutoff: Timestamp): (r: Presence)
    ensures forall id :: id in r <==> id in users && users[id].lastActive >= cutoff
    ensures forall id :: id in r ==> r[id] == users[id]
  {
    map id | id in users && users[id].lastActive >= cutoff :: users[id]
  }

  /** The list `get_active_users_list` returns: everyone retained except the caller. */
  function Without(users: Presence, self: UserId): (r: Presence)
    ensures self !in r
    ensures forall id :: id in r <==> id in users && id != self
    ensures forall id :: id in r ==> r[id] == users[id]
  {
    users - {self}
  }

  /** The presence transients, one per (location, viewing date). */
  class ActivityMonitor {
    var transients: map<(int, Day), Presence>

    /** Every entry is filed under its own user id. */
    predicate Valid()
      reads this
    {
      forall key, id :: key in transients && id in transients[key] ==> transients[key][id].userId == id
    }

    constructor ()
      ensures transients == map[] && Valid()
    {
      transients := map[];
    }

    /** `get_transient`: a missing or non-array transient reads as empty. */
    function UsersAt(location: int, date: Day): Presence
      reads this
    {
      if (location, date) in transients then transients[(location, date)] else map[]
    }

    /** The `unset` loop of `record_activity`. */
    method Prune(users: Presence, cutoff: Timestamp) returns (kept: Presence)
      ensures kept == Pruned(users, cutoff)
    {
      kept := users;
      var pending := users.Keys;
      while pending != {}
        invariant pending <= users.Keys
        invariant kept.Keys <= users.Keys
        invariant forall id :: id in kept ==> kept[id] == users[id]
        invariant forall id :: id in users && id !in pending ==> (id in kept <==> users[id].lastActive >= cutoff)
        invariant forall id :: id in pending ==> id in kept
        decreases pending
      {
        EmptyOrMember(pending);
        var id :| id in pending;
        if users[id].lastActive < cutoff {
          kept := kept - {id};
        }
        pending := pending - {id};
      }
      forall id | id in users
        ensures id in kept <==> users[id].lastActive >= cutoff
      {
        assert id !in pending;
      }
      ghost var expected := Pruned(users, cutoff);
      assert kept.Keys == expected.Keys;
      assert forall id :: id in kept ==> kept[id] == expected[id];
    }

    /**
     * `record_activity`: files the caller under their id with `last_active` = now, then drops
     * every entry older than two minutes.
     */
    method RecordActivity(user: UserId, location: int, date: Day, room: string, modalOpen: bool, now: Timestamp)
      requires Valid()
      modifies this
      ensures Valid()
      ensures transients == old(transients)[(location, date) :=
        Pruned(old(UsersAt(location, date))[user := ActiveUser(user, now, room, modalOpen)], now - ActiveWindow)]
    {
      var users := UsersAt(location, date);
      users := users[user := ActiveUser(user, now, room, modalOpen)];
      var kept := Prune(users, now - ActiveWindow);
      transients := transients[(location, date) := kept];
    }

    /** `get_active_users_list`. */
    function ActiveUsersList(location: int, date: Day, self: UserId): (r: Presence)
      reads this
      ensures self !in r
      ensures forall id :: id in r <==> id in UsersAt(location, date) && id != self
    {
      Without(UsersAt(location, date), self)
    }

    /**
     * `heartbeat_received`. A request without a location, last check or viewing date leaves
     * the response and the presence lists alone. Otherwise the caller's presence is recorded,
     * the feed is added when it has a row, and the others' presence when there is any.
     */
    method HeartbeatReceived(t: Table, user: UserId, now: Timestamp, monitor: Option<Monitor>, response: Response)
      returns (out: Response)
      requires Valid()
      modifies this
      ensures Valid()
      ensures !Ready(monitor) ==> out == response && transients == old(transients)
      ensures Ready(monitor) ==>
        var m := monitor.value;
        var q := QueryOf(m);
        transients == old(transients)[(m.location, q.date) :=
          Pruned(old(UsersAt(m.location, q.date))[user := ActiveUser(user, now, m.currentRoom, m.modalOpen)],
                 now - ActiveWindow)] &&
        (FeedHasRow(t, q) ==>
           out.linenUpdates.Some? &&
           IsFeed(t, q, out.linenUpdates.value.updates) && out.linenUpdates.value.updates != [] &&
           out.linenUpdates.value.timestamp == Watermark(out.linenUpdates.value.updates) &&
           out.linenUpdates.value.forRoom == m.currentRoom) &&
        (!FeedHasRow(t, q) ==> out.linenUpdates == response.linenUpdates) &&
        out.activeUsers == (if ActiveUsersList(m.location, q.date, user) != map[]
                            then Some(ActiveUsersList(m.location, q.date, user))
                            else response.activeUsers)
    {
      if !Ready(monitor) {
        return response;
      }
      var m := monitor.value;
      var q := QueryOf(m);
      RecordActivity(user, m.location, q.date, m.currentRoom, m.modalOpen, now);
      out := response;
      var updates := RunFeedQuery(t, q);
      FeedEmptyIff(t, q, updates);
      if updates != [] {
        out := out.(linenUpdates := Some(LinenUpdates(updates, Watermark(updates), m.currentRoom)));
      }
      var others := ActiveUsersList(m.location, q.date, user);
      if others != map[] {
        out := out.(activeUsers := Some(others));
      }
    }
  }

  /** The caller is always in the list just recorded, with `last_active` = now. */
  lemma RecordKeepsSelf(users: Presence, user: UserId, now: Timestamp, room: string, modalOpen: bool)
    ensures var kept := Pruned(users[user := ActiveUser(user, now, room, modalOpen)], now - ActiveWindow);
            user in kept && kept[user].lastActive == now
  {
  }

  /** Everyone else in the list just recorded was active within the last two minutes. */
  lemma RecordDropsIdle(users: Presence, user: UserId, now: Timestamp, room: string, modalOpen: bool, id: UserId)
    requires id != user
    ensures var kept := Pruned(users[user := ActiveUser(user, now, room, modalOpen)], now - ActiveWindow);
            id in kept <==> id in users && users[id].lastActive >= now - 120
  {
  }
}
