/**
 * The AJAX handlers of the linen count module: the four writes to the count table (submit,
 * autosave, unlock, submit all) and the three dashboard reads (room status, day totals,
 * date-range report). The table lives in a `CountLedger`; the permission checks of the host
 * are the booleans of an `Actor`, and the clock is the `now` parameter.
 */
module Ajax {
  import opened Common
  import opened Counts
  import Settings

  /** The `wp_send_json_error` messages the core can answer with. */
  datatype Failure =
    | PermissionDenied       // 'Permission denied'
    | InvalidParameters      // 'Invalid parameters'
    | InvalidLocation        // 'Invalid location'
    | ModuleDisabled         // 'Module not enabled for this location'
    | LockedNoPermission     // 'Count already submitted and locked. ...'
    | NoEditPermission       // 'You do not have permission to edit submitted counts'
    | NoLinenItems           // 'No linen items configured'
    | NoUnsubmittedCounts    // 'No unsubmitted counts found'

  /** The current user: their id, `hhlc_access_module`, and `user_can_edit_submitted`. */
  datatype Actor = Actor(id: UserId, canAccess: bool, canEditSubmitted: bool)

  /** The success payload of a submit; `submitted_at` is the request time. */
  datatype SubmitReceipt = SubmitReceipt(isUpdate: bool, submittedBy: UserId, submittedAt: Timestamp)

  /** One room of `get_today_counts`: item id to count, status, and `has_any_count`. */
  datatype RoomDay = RoomDay(counts: map<string, nat>, status: Status, hasAnyCount: bool)

  /** One entry of `get_today_totals`. */
  datatype ItemTotal = ItemTotal(id: string, name: string, shortcode: string, total: nat)

  /** One item of `get_date_range_report`: a total per date and the total over all dates. */
  datatype ItemReport = ItemReport(id: string, name: string, shortcode: string,
                                   byDate: map<Day, nat>, grandTotal: nat)

  datatype RangeReport = RangeReport(report: seq<ItemReport>, dates: seq<Day>)

  /** The `location_id`, `room_id` and `date` a room request needs (PHP truthiness). */
  predicate RoomRequest(location: int, room: string, date: Option<Day>)
  {
    location != 0 && !Falsy(room) && date.Some?
  }

  /** A `date` parameter that is absent reads as today. */
  function DateOr(date: Option<Day>, today: Day): (d: Day)
    ensures date.Some? ==> d == date.value
    ensures date.None? ==> d == today
  {
    if date.Some? then date.value else today
  }

  /** `get_all_rooms`: every room that has a row at the location, on any date. */
  function AllRooms(t: Table, location: int): (rooms: set<string>)
    ensures forall room :: room in rooms <==> exists k :: k in t && k.location == location && k.room == room
  {
    set k | k in t && k.location == location :: k.room
  }

  /** The rows the status query of `get_today_counts` returns. */
  function DayKeys(t: Table, location: int, date: Day): (ks: set<Key>)
    ensures ks <= t.Keys
    ensures forall k :: k in ks <==> k in t && k.location == location && k.date == date
  {
    set k | k in t && k.location == location && k.date == date
  }

  /** The rows one item contributes to a `SUM(count) ... GROUP BY linen_item_id` for one day. */
  function ItemDayKeys(t: Table, location: int, date: Day, item: string): (ks: set<Key>)
    ensures ks <= t.Keys
    ensures forall k :: k in ks <==> k in t && k == Key(location, k.room, item, date)
  {
    set k | k in t && k.location == location && k.date == date && k.item == item
  }

  /** The item counts of one room's day. */
  function RoomCounts(t: Table, location: int, room: string, date: Day): (m: map<string, nat>)
    ensures forall i :: i in m <==> Key(location, room, i, date) in t
    ensures forall i :: i in m ==> m[i] == t[Key(location, room, i, date)].count
  {
    map i | i in (set k | k in t && InRoom(k, location, room, date) :: k.item) ::
      t[Key(location, room, i, date)].count
  }

  /** What `get_today_counts` reports for one room. */
  function RoomDayOf(t: Table, location: int, room: string, date: Day): (d: RoomDay)
    ensures d.hasAnyCount <==> d.status != NoCounts
    ensures d.hasAnyCount <==> d.counts != map[]
    ensures d.status == RoomStatus(t, location, room, date)
  {
    var counts := RoomCounts(t, location, room, date);
    assert HasRow(t, location, room, date) ==> counts != map[] by {
      if HasRow(t, location, room, date) {
        var k :| k in t && InRoom(k, location, room, date);
        assert k == Key(location, room, k.item, date);
      }
    }
    RoomDay(counts, RoomStatus(t, location, room, date), HasRow(t, location, room, date))
  }

  /** The dates `first`, `first + 1`, ..., `last`. */
  function DaysBetween(first: Day, last: Day): (days: seq<Day>)
    ensures |days| == if first <= last then last - first + 1 else 0
    ensures forall i :: 0 <= i < |days| ==> days[i] == first + i
    decreases last - first + 1
  {
    if first > last then [] else DaysBetween(first, last - 1) + [last]
  }

  /** The report's date list is exactly the days from the first to the last, both included. */
  lemma DaysBetweenCoversRange(first: Day, last: Day, d: Day)
    ensures d in DaysBetween(first, last) <==> first <= d <= last
  {
    if first <= d <= last {
      assert DaysBetween(first, last)[d - first] == d;
    }
  }

  /** The sum of a report's per-date totals over the listed dates. */
  function SumDays(byDate: map<Day, nat>, days: seq<Day>): nat
    requires forall i :: 0 <= i < |days| ==> days[i] in byDate
  {
    if days == [] then 0 else SumDays(byDate, days[..|days| - 1]) + byDate[days[|days| - 1]]
  }

  /**
   * One item's row of the date-range report over `dates`: a total for exactly the listed
   * dates (the sum of that item's rows on the day), and a grand total that is their sum.
   */
  ghost predicate IsItemReport(t: Table, location: int, item: Settings.LinenItem, dates: seq<Day>,
                               row: ItemReport)
  {
    row.id == item.id && row.name == item.name && row.shortcode == item.shortcode &&
    (forall d :: d in row.byDate <==> d in dates) &&
    (forall d :: d in row.byDate ==> row.byDate[d] == SumCounts(t, ItemDayKeys(t, location, d, item.id))) &&
    (forall i :: 0 <= i < |dates| ==> dates[i] in row.byDate) &&
    row.grandTotal == SumDays(row.byDate, dates)
  }

  /** The `hhlc_linen_counts` table and the handlers that read and write it. */
  class CountLedger {
    var rows: Table

    predicate Valid()
      reads this
    {
      AuditPaired(rows)
    }

    constructor ()
      ensures rows == map[] && Valid()
    {
      rows := map[];
    }

    /**
     * `submit_linen_count`: locks one row per posted item, in one transaction. `date` is None
     * when absent or empty, and `counts` is None when the posted JSON is not an array.
     */
    method SubmitLinenCount(actor: Actor, settings: Settings.AllSettings, location: int, room: string,
                            date: Option<Day>, counts: Option<map<string, int>>, bookingRef: string,
                            now: Timestamp) returns (r: Result<SubmitReceipt, Failure>)
      requires Valid()
      modifies this
      ensures Valid()
      ensures !actor.canAccess ==> r == Err(PermissionDenied)
      ensures actor.canAccess && !(RoomRequest(location, room, date) && counts.Some?) ==>
        r == Err(InvalidParameters)
      ensures (actor.canAccess && RoomRequest(location, room, date) && counts.Some? &&
               !Settings.IsEnabledForLocation(settings, location)) ==> r == Err(ModuleDisabled)
      ensures (actor.canAccess && RoomRequest(location, room, date) && counts.Some? &&
               Settings.IsEnabledForLocation(settings, location) &&
               HasLockedRow(old(rows), location, room, date.value) && !actor.canEditSubmitted) ==>
              r == Err(LockedNoPermission)
      ensures r.Ok? <==> (actor.canAccess && RoomRequest(location, room, date) && counts.Some? &&
                          Settings.IsEnabledForLocation(settings, location) &&
                          (!HasLockedRow(old(rows), location, room, date.value) || actor.canEditSubmitted))
      ensures r.Err? ==> rows == old(rows)
      ensures r.Ok? ==>
        r.value == SubmitReceipt(HasLockedRow(old(rows), location, room, date.value), actor.id, now) &&
        rows == SubmitTable(old(rows), location, room, date.value, counts.value, actor.id, now,
                            bookingRef, r.value.isUpdate)
    {
      if !actor.canAccess {
        return Err(PermissionDenied);
      }
      if location == 0 || Falsy(room) || date.None? || counts.None? {
        return Err(InvalidParameters);
      }
      if !Settings.IsEnabledForLocation(settings, location) {
        return Err(ModuleDisabled);
      }
      var d := date.value;
      var posted := counts.value;
      var isUpdate := HasLockedRow(rows, location, room, d);
      if isUpdate && !actor.canEditSubmitted {
        return Err(LockedNoPermission);
      }
      ghost var t0 := rows;
      ghost var done: map<string, int> := map[];
      var pending := posted.Keys;
      while pending != {}
        invariant pending <= posted.Keys
        invariant done.Keys == posted.Keys - pending
        invariant forall i :: i in done ==> done[i] == posted[i]
        invariant rows == SubmitTable(t0, location, room, d, done, actor.id, now, bookingRef, isUpdate)
        decreases pending
      {
        var item :| item in pending;
        var k := Key(location, room, item, d);
        assert k !in PostedKeys(location, room, d, done);
        if isUpdate {
          // the SELECT of the existing row's submitted_at
          var at := if k in rows then rows[k].submittedAt else now;
          rows := rows[k := CountRow(Clamp(posted[item]), actor.id, at, bookingRef, true, Some(actor.id), Some(now))];
        } else {
          rows := rows[k := CountRow(Clamp(posted[item]), actor.id, now, bookingRef, true, None, None)];
        }
        SubmitTableStep(t0, location, room, d, done, item, posted[item], actor.id, now, bookingRef, isUpdate);
        done := done[item := posted[item]];
        pending := pending - {item};
      }
      assert done == posted;
      r := Ok(SubmitReceipt(isUpdate, actor.id, now));
    }

    /**
     * `autosave_linen_count`: writes one item as a draft, or amends the existing row in place,
     * with no edit-submitted check. `count` is None when not posted.
     */
    method AutosaveLinenCount(actor: Actor, settings: Settings.AllSettings, location: int, room: string,
                              date: Option<Day>, item: string, count: Option<int>, bookingRef: string,
                              now: Timestamp) returns (r: Result<Timestamp, Failure>)
      requires Valid()
      modifies this
      ensures Valid()
      ensures !actor.canAccess ==> r == Err(PermissionDenied)
      ensures actor.canAccess && !(RoomRequest(location, room, date) && !Falsy(item)) ==>
        r == Err(InvalidParameters)
      ensures (actor.canAccess && RoomRequest(location, room, date) && !Falsy(item) &&
               !Settings.IsEnabledForLocation(settings, location)) ==> r == Err(ModuleDisabled)
      ensures r.Ok? <==> (actor.canAccess && RoomRequest(location, room, date) && !Falsy(item) &&
                          Settings.IsEnabledForLocation(settings, location))
      ensures r.Err? ==> rows == old(rows)
      ensures r.Ok? ==> (r.value == now &&
                         rows == AutosaveTable(old(rows), Key(location, room, item, date.value),
                                               if count.Some? then count.value else 0, actor.id, now, bookingRef))
    {
      var c := if count.Some? then Clamp(count.value) else 0;
      if !actor.canAccess {
        return Err(PermissionDenied);
      }
      if location == 0 || Falsy(room) || date.None? || Falsy(item) {
        return Err(InvalidParameters);
      }
      if !Settings.IsEnabledForLocation(settings, location) {
        return Err(ModuleDisabled);
      }
      var k := Key(location, room, item, date.value);
      if k in rows {
        var existing := rows[k];
        if existing.isLocked {
          rows := rows[k := existing.(count := c, lastUpdatedBy := Some(actor.id), lastUpdatedAt := Some(now))];
        } else {
          rows := rows[k := existing.(count := c, lastUpdatedBy := Some(actor.id), lastUpdatedAt := Some(now),
                                      bookingRef := bookingRef)];
        }
      } else {
        rows := rows[k := CountRow(c, actor.id, now, bookingRef, false, Some(actor.id), Some(now))];
      }
      r := Ok(now);
    }

    /** `unlock_linen_count`: unlocks every row of a room's day for editing. */
    method UnlockLinenCount(actor: Actor, location: int, room: string, date: Option<Day>)
      returns (r: Result<(), Failure>)
      requires Valid()
      modifies this
      ensures Valid()
      ensures !actor.canAccess ==> r == Err(PermissionDenied)
      ensures actor.canAccess && !actor.canEditSubmitted ==> r == Err(NoEditPermission)
      ensures actor.canAccess && actor.canEditSubmitted && !RoomRequest(location, room, date) ==>
        r == Err(InvalidParameters)
      ensures r.Ok? <==> actor.canAccess && actor.canEditSubmitted && RoomRequest(location, room, date)
      ensures r.Err? ==> rows == old(rows)
      ensures r.Ok? ==> rows == UnlockTable(old(rows), location, room, date.value)
    {
      if !actor.canAccess {
        return Err(PermissionDenied);
      }
      if !actor.canEditSubmitted {
        return Err(NoEditPermission);
      }
      if location == 0 || Falsy(room) || date.None? {
        return Err(InvalidParameters);
      }
      rows := UnlockTable(rows, location, room, date.value);
      r := Ok(());
    }

    /**
     * `submit_all_unsubmitted`: locks every draft of a location's day and answers with how many
     * rows changed, or with an error when there were none.
     */
    method SubmitAllUnsubmitted(actor: Actor, location: int, date: Option<Day>, today: Day, now: Timestamp)
      returns (r: Result<nat, Failure>)
      requires Valid()
      modifies this
      ensures Valid()
      ensures !actor.canAccess ==> r == Err(PermissionDenied) && rows == old(rows)
      ensures actor.canAccess && location == 0 ==> r == Err(InvalidLocation) && rows == old(rows)
      ensures actor.canAccess && location != 0 ==>
        rows == LockAllTable(old(rows), location, DateOr(date, today), actor.id, now) &&
        r == (var n := |DraftKeys(old(rows), location, DateOr(date, today))|;
              if n > 0 then Ok(n) else Err(NoUnsubmittedCounts))
    {
      if !actor.canAccess {
        return Err(PermissionDenied);
      }
      if location == 0 {
        return Err(InvalidLocation);
      }
      var d := DateOr(date, today);
      var updated := |DraftKeys(rows, location, d)|;
      rows := LockAllTable(rows, location, d, actor.id, now);
      if updated > 0 {
        r := Ok(updated);
      } else {
        r := Err(NoUnsubmittedCounts);
      }
    }

    /** `SUM(count)` over the given rows. */
    method SumOver(ks: set<Key>) returns (total: nat)
      requires ks <= rows.Keys
      ensures total == SumCounts(rows, ks)
    {
      total := 0;
      var pending := ks;
      while pending != {}
        invariant pending <= ks
        invariant total == SumCounts(rows, ks - pending)
        decreases pending
      {
        var k :| k in pending;
        SumCountsAdd(rows, ks - pending, k);
        assert (ks - pending) + {k} == ks - (pending - {k});
        total := total + rows[k].count;
        pending := pending - {k};
      }
      assert ks - pending == ks;
    }

    /** The inner loop of `get_today_counts`: one room's counts and status from the day's rows. */
    method RoomDayAt(location: int, room: string, date: Day) returns (day: RoomDay)
      ensures day == RoomDayOf(rows, location, room, date)
    {
      var result := DayKeys(rows, location, date);
      var counts: map<string, nat> := map[];
      var hasAny, hasLocked, hasUnlocked := false, false, false;
      var pending := result;
      while pending != {}
        invariant pending <= result
        invariant forall i :: i in counts <==> Key(location, room, i, date) in result - pending
        invariant forall i :: i in counts ==> counts[i] == rows[Key(location, room, i, date)].count
        invariant hasAny <==> exists k :: k in result - pending && k.room == room
        invariant hasLocked <==> exists k :: k in result - pending && k.room == room && rows[k].isLocked
        invariant hasUnlocked <==> exists k :: k in result - pending && k.room == room && !rows[k].isLocked
        decreases pending
      {
        var k :| k in pending;
        if k.room == room {
          assert k == Key(location, room, k.item, date);
          counts := counts[k.item := rows[k].count];
          hasAny := true;
          if rows[k].isLocked {
            hasLocked := true;
          } else {
            hasUnlocked := true;
          }
        }
        pending := pending - {k};
      }
      var status := if hasLocked then Submitted else if hasUnlocked then Unsubmitted else NoCounts;
      ghost var expected := RoomDayOf(rows, location, room, date);
      assert counts == expected.counts;
      assert hasAny == HasRow(rows, location, room, date) by {
        if HasRow(rows, location, room, date) {
          var k :| k in rows && InRoom(k, location, room, date);
          assert k in result;
        }
      }
      assert hasLocked == HasLockedRow(rows, location, room, date) by {
        if HasLockedRow(rows, location, room, date) {
          var k :| k in rows && InRoom(k, location, room, date) && rows[k].isLocked;
          assert k in result;
        }
      }
      day := RoomDay(counts, status, hasAny);
    }

    /** `get_today_counts`: every known room of the location with its counts and status. */
    method GetTodayCounts(actor: Actor, settings: Settings.AllSettings, location: int,
                          date: Option<Day>, today: Day) returns (r: Result<map<string, RoomDay>, Failure>)
      ensures !actor.canAccess ==> r == Err(PermissionDenied)
      ensures actor.canAccess && location == 0 ==> r == Err(InvalidLocation)
      ensures actor.canAccess && location != 0 && Settings.LinenItems(settings, location) == [] ==>
        r == Err(NoLinenItems)
      ensures r.Ok? <==> actor.canAccess && location != 0 && Settings.LinenItems(settings, location) != []
      ensures r.Ok? ==> r.value.Keys == AllRooms(rows, location)
      ensures r.Ok? ==> forall room :: room in r.value ==>
        r.value[room] == RoomDayOf(rows, location, room, DateOr(date, today))
    {
      if !actor.canAccess {
        return Err(PermissionDenied);
      }
      if location == 0 {
        return Err(InvalidLocation);
      }
      var rooms := AllRooms(rows, location);
      if Settings.LinenItems(settings, location) == [] {
        return Err(NoLinenItems);
      }
      var d := DateOr(date, today);
      var roomData: map<string, RoomDay> := map[];
      var pending := rooms;
      while pending != {}
        invariant pending <= rooms
        invariant roomData.Keys == rooms - pending
        invariant forall room :: room in roomData ==> roomData[room] == RoomDayOf(rows, location, room, d)
        decreases pending
      {
        var room :| room in pending;
        var day := RoomDayAt(location, room, d);
        roomData := roomData[room := day];
        pending := pending - {room};
      }
      r := Ok(roomData);
    }

    /** `get_today_totals`: each configured item, in order, with its day's total at the location. */
    method GetTodayTotals(actor: Actor, settings: Settings.AllSettings, location: int,
                          date: Option<Day>, today: Day) returns (r: Result<seq<ItemTotal>, Failure>)
      ensures !actor.canAccess ==> r == Err(PermissionDenied)
      ensures actor.canAccess && location == 0 ==> r == Err(InvalidLocation)
      ensures actor.canAccess && location != 0 && Settings.LinenItems(settings, location) == [] ==>
        r == Err(NoLinenItems)
      ensures r.Ok? <==> actor.canAccess && location != 0 && Settings.LinenItems(settings, location) != []
      ensures r.Ok? ==> |r.value| == |Settings.LinenItems(settings, location)|
      ensures r.Ok? ==> forall j :: 0 <= j < |r.value| ==>
        var item := Settings.LinenItems(settings, location)[j];
        r.value[j] == ItemTotal(item.id, item.name, item.shortcode,
                                SumCounts(rows, ItemDayKeys(rows, location, DateOr(date, today), item.id)))
    {
      if !actor.canAccess {
        return Err(PermissionDenied);
      }
      if location == 0 {
        return Err(InvalidLocation);
      }
      var items := Settings.LinenItems(settings, location);
      if items == [] {
        return Err(NoLinenItems);
      }
      var d := DateOr(date, today);
      var result: seq<ItemTotal> := [];
      var j := 0;
      while j < |items|
        invariant 0 <= j <= |items|
        invariant |result| == j
        invariant forall m :: 0 <= m < j ==>
          result[m] == ItemTotal(items[m].id, items[m].name, items[m].shortcode,
                                 SumCounts(rows, ItemDayKeys(rows, location, d, items[m].id)))
      {
        var total := SumOver(ItemDayKeys(rows, location, d, items[j].id));
        result := result + [ItemTotal(items[j].id, items[j].name, items[j].shortcode, total)];
        j := j + 1;
      }
      r := Ok(result);
    }

    /** The `while ($current <= $end)` loop of `get_date_range_report`. */
    method DatesInRange(first: Day, last: Day) returns (dates: seq<Day>)
      ensures dates == DaysBetween(first, last)
    {
      dates := [];
      var current := first;
      while current <= last
        invariant first <= current <= last + 1 || (current == first && first > last)
        invariant dates == DaysBetween(first, current - 1)
        decreases last - current
      {
        dates := dates + [current];
        current := current + 1;
      }
    }

    /** One item's row of the date-range report: every date starts at 0, then the day totals. */
    method ItemRangeRow(location: int, item: Settings.LinenItem, dates: seq<Day>) returns (row: ItemReport)
      requires forall i, j :: 0 <= i < j < |dates| ==> dates[i] < dates[j]
      ensures IsItemReport(rows, location, item, dates, row)
    {
      var byDate: map<Day, nat> := map[];
      var grand := 0;
      var j := 0;
      while j < |dates|
        invariant 0 <= j <= |dates|
        invariant forall d :: d in byDate <==> d in dates[..j]
        invariant forall d :: d in byDate ==> byDate[d] == SumCounts(rows, ItemDayKeys(rows, location, d, item.id))
        invariant grand == SumDays(byDate, dates[..j])
      {
        var v := SumOver(ItemDayKeys(rows, location, dates[j], item.id));
        assert dates[..j + 1][..j] == dates[..j];
        SumDaysFrame(byDate, dates[..j], dates[j], v);
        byDate := byDate[dates[j] := v];
        grand := grand + v;
        j := j + 1;
      }
      assert dates[..|dates|] == dates;
      row := ItemReport(item.id, item.name, item.shortcode, byDate, grand);
    }

    /**
     * `get_date_range_report`: for each configured item a total for every date of the range,
     * 0 where there are no rows, and the grand total of those.
     */
    method GetDateRangeReport(actor: Actor, settings: Settings.AllSettings, location: int,
                              dateFrom: Option<Day>, dateTo: Option<Day>) returns (r: Result<RangeReport, Failure>)
      ensures !actor.canAccess ==> r == Err(PermissionDenied)
      ensures actor.canAccess && (location == 0 || dateFrom.None? || dateTo.None?) ==> r == Err(InvalidParameters)
      ensures (actor.canAccess && location != 0 && dateFrom.Some? && dateTo.Some? &&
               Settings.LinenItems(settings, location) == []) ==> r == Err(NoLinenItems)
      ensures r.Ok? <==> (actor.canAccess && location != 0 && dateFrom.Some? && dateTo.Some? &&
                          Settings.LinenItems(settings, location) != [])
      ensures r.Ok? ==> r.value.dates == DaysBetween(dateFrom.value, dateTo.value)
      ensures r.Ok? ==> |r.value.report| == |Settings.LinenItems(settings, location)|
      ensures r.Ok? ==> forall j :: 0 <= j < |r.value.report| ==>
        IsItemReport(rows, location, Settings.LinenItems(settings, location)[j], r.value.dates, r.value.report[j])
    {
      if !actor.canAccess {
        return Err(PermissionDenied);
      }
      if location == 0 || dateFrom.None? || dateTo.None? {
        return Err(InvalidParameters);
      }
      var items := Settings.LinenItems(settings, location);
      if items == [] {
        return Err(NoLinenItems);
      }
      var dates := DatesInRange(dateFrom.value, dateTo.value);
      var report: seq<ItemReport> := [];
      var j := 0;
      while j < |items|
        invariant 0 <= j <= |items|
        invariant |report| == j
        invariant forall m :: 0 <= m < j ==> IsItemReport(rows, location, items[m], dates, report[m])
      {
        var row := ItemRangeRow(location, items[j], dates);
        report := report + [row];
        j := j + 1;
      }
      r := Ok(RangeReport(report, dates));
    }
  }
  /** Setting a date that is not yet listed leaves the sum over the listed dates as it was. */
  lemma {:induction false} SumDaysFrame(byDate: map<Day, nat>, days: seq<Day>, d: Day, v: nat)
    requires d !in days
    requires forall i :: 0 <= i < |days| ==> days[i] in byDate && days[i] in byDate[d := v]
    ensures SumDays(byDate[d := v], days) == SumDays(byDate, days)
  {
    if days != [] {
      SumDaysFrame(byDate, days[..|days| - 1], d, v);
    }
  }
}
