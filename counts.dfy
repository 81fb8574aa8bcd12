/**
 * The `hhlc_linen_counts` table and the state changes the AJAX handlers make to it.
 *
 * The table is a map from its unique key (location, room, linen item, service date) to
 * the rest of the row; a `$wpdb->replace` is an upsert on that key. Each function here
 * is the new table one handler leaves behind, and the lemmas relate the handlers to the
 * room status that the dashboards show.
 */
module Counts {
  import opened Common

  type UserId = int
  /** A `DATETIME`, as seconds. */
  type Timestamp = int
  /** A `service_date`, as a day number. */
  type Day = int

  /** The columns of `unique_room_item_date`. */
  datatype Key = Key(location: int, room: string, item: string, date: Day)

  /** The other columns of a row (`id` is never read back by the core). */
  datatype CountRow = CountRow(
    count: nat,
    submittedBy: UserId,
    submittedAt: Timestamp,
    bookingRef: string,
    isLocked: bool,
    lastUpdatedBy: Option<UserId>,
    lastUpdatedAt: Option<Timestamp>)

  type Table = map<Key, CountRow>

  /** A whole row as a query returns it. */
  datatype Record = Record(key: Key, row: CountRow)

  /** The status a room shows for a day: 'none', 'unsubmitted' or 'submitted'. */
  datatype Status = NoCounts | Unsubmitted | Submitted

  /** `max(0, intval($count))`. */
  function Clamp(c: int): (r: nat)
    ensures c >= 0 ==> r == c
    ensures c < 0 ==> r == 0
  {
    if c < 0 then 0 else c
  }

  predicate InRoom(k: Key, location: int, room: string, date: Day)
  {
    k.location == location && k.room == room && k.date == date
  }

  /** The `SELECT COUNT(*) ... AND is_locked = 1` test of a submit. */
  predicate HasLockedRow(t: Table, location: int, room: string, date: Day)
  {
    exists k | k in t :: InRoom(k, location, room, date) && t[k].isLocked
  }

  predicate HasRow(t: Table, location: int, room: string, date: Day)
  {
    exists k | k in t :: InRoom(k, location, room, date)
  }

  /** Every row records its last edit completely or not at all. */
  predicate AuditPaired(t: Table)
  {
    forall k :: k in t ==> (t[k].lastUpdatedBy.Some? <==> t[k].lastUpdatedAt.Some?)
  }

  /** The room status of `get_today_counts`: any locked row wins over any unlocked row. */
  function RoomStatus(t: Table, location: int, room: string, date: Day): (s: Status)
    ensures s == Submitted <==> HasLockedRow(t, location, room, date)
    ensures s == Unsubmitted <==>
      HasRow(t, location, room, date) && forall k :: k in t && InRoom(k, location, room, date) ==> !t[k].isLocked
    ensures s == NoCounts <==> forall k :: k in t ==> !InRoom(k, location, room, date)
  {
    if HasLockedRow(t, location, room, date) then Submitted
    else if HasRow(t, location, room, date) then Unsubmitted
    else NoCounts
  }

  // ---------------------------------------------------------------- submit

  /** The row a submit writes for one posted item. */
  function SubmittedRow(t: Table, k: Key, c: int, user: UserId, now: Timestamp, bookingRef: string,
                        isUpdate: bool): (r: CountRow)
    ensures r.count == Clamp(c) && r.isLocked && r.submittedBy == user && r.bookingRef == bookingRef
    ensures isUpdate && k in t ==> r.submittedAt == t[k].submittedAt
    ensures isUpdate ==> r.lastUpdatedBy == Some(user) && r.lastUpdatedAt == Some(now)
    ensures !isUpdate ==> r.submittedAt == now && r.lastUpdatedBy.None? && r.lastUpdatedAt.None?
  {
    if isUpdate then
      CountRow(Clamp(c), user, if k in t then t[k].submittedAt else now, bookingRef, true, Some(user), Some(now))
    else
      CountRow(Clamp(c), user, now, bookingRef, true, None, None)
  }

  /** The keys a submit of `counts` for one room and day writes. */
  function PostedKeys(location: int, room: string, date: Day, counts: map<string, int>): (ks: set<Key>)
    ensures forall k :: k in ks <==> InRoom(k, location, room, date) && k.item in counts
  {
    set i | i in counts :: Key(location, room, i, date)
  }

  /**
   * The table after a submit of `counts`: one locked row for every posted item, and every
   * other row as it was.
   */
  function SubmitTable(t: Table, location: int, room: string, date: Day, counts: map<string, int>,
                       user: UserId, now: Timestamp, bookingRef: string, isUpdate: bool): (r: Table)
    ensures r.Keys == t.Keys + PostedKeys(location, room, date, counts)
    ensures forall i :: i in counts ==>
      r[Key(location, room, i, date)] ==
        SubmittedRow(t, Key(location, room, i, date), counts[i], user, now, bookingRef, isUpdate)
    ensures forall k :: k in t && k !in PostedKeys(location, room, date, counts) ==> r[k] == t[k]
    ensures AuditPaired(t) ==> AuditPaired(r)
  {
    map k | k in t.Keys + PostedKeys(location, room, date, counts) ::
      if k in PostedKeys(location, room, date, counts)
      then SubmittedRow(t, k, counts[k.item], user, now, bookingRef, isUpdate)
      else t[k]
  }

  /**
   * The table after a submit as the handler is written: on the update branch an item with
   * no row yet gets a NULL `submitted_at`, which the NOT NULL column rejects, so that item
   * is not stored although the submit commits and reports success.
   */
  function SubmitTableAsWritten(t: Table, location: int, room: string, date: Day, counts: map<string, int>,
                                user: UserId, now: Timestamp, bookingRef: string, isUpdate: bool): (r: Table)
    ensures !isUpdate ==> r == SubmitTable(t, location, room, date, counts, user, now, bookingRef, false)
    ensures isUpdate ==> r.Keys == t.Keys
    ensures forall k :: k in r ==>
      r[k] == SubmitTable(t, location, room, date, counts, user, now, bookingRef, isUpdate)[k]
  {
    if isUpdate then
      map k | k in t :: if k in PostedKeys(location, room, date, counts)
                        then SubmittedRow(t, k, counts[k.item], user, now, bookingRef, true)
                        else t[k]
    else SubmitTable(t, location, room, date, counts, user, now, bookingRef, false)
  }

  /** Adding one more posted item to a submit writes exactly that item's row on top. */
  lemma SubmitTableStep(t: Table, location: int, room: string, date: Day, done: map<string, int>,
                        item: string, c: int, user: UserId, now: Timestamp, bookingRef: string, isUpdate: bool)
    requires item !in done
    ensures SubmitTable(t, location, room, date, done[item := c], user, now, bookingRef, isUpdate) ==
      SubmitTable(t, location, room, date, done, user, now, bookingRef, isUpdate)[
        Key(location, room, item, date) := SubmittedRow(t, Key(location, room, item, date), c, user, now, bookingRef, isUpdate)]
  {
    var after := SubmitTable(t, location, room, date, done[item := c], user, now, bookingRef, isUpdate);
    var before := SubmitTable(t, location, room, date, done, user, now, bookingRef, isUpdate);
    var k0 := Key(location, room, item, date);
    var stepped := before[k0 := SubmittedRow(t, k0, c, user, now, bookingRef, isUpdate)];
    assert after.Keys == stepped.Keys;
    forall k | k in after
      ensures after[k] == stepped[k]
    {
      if k in PostedKeys(location, room, date, done[item := c]) {
        assert after[k] == SubmittedRow(t, k, done[item := c][k.item], user, now, bookingRef, isUpdate);
      }
    }
  }

  /** The update-branch defect: a posted item that has no row yet is lost. */
  lemma AsWrittenDropsNewItem(t: Table, location: int, room: string, date: Day, counts: map<string, int>,
                              user: UserId, now: Timestamp, bookingRef: string, item: string)
    requires item in counts && Key(location, room, item, date) !in t
    ensures Key(location, room, item, date) !in
      SubmitTableAsWritten(t, location, room, date, counts, user, now, bookingRef, true)
    ensures Key(location, room, item, date) in
      SubmitTable(t, location, room, date, counts, user, now, bookingRef, true)
  {
  }

  /** A concrete case: room 101 was submitted with sheets only; a resubmit adding towels loses them. */
  lemma AsWrittenLosesTowels()
    ensures var sheets := Key(1, "101", "sheet", 10);
            var towels := Key(1, "101", "towel", 10);
            var t := map[sheets := CountRow(2, 7, 100, "", true, None, None)];
            var counts := map["sheet" := 3, "towel" := 4];
            HasLockedRow(t, 1, "101", 10) &&
            towels !in SubmitTableAsWritten(t, 1, "101", 10, counts, 8, 200, "", true) &&
            SubmitTable(t, 1, "101", 10, counts, 8, 200, "", true)[towels] ==
              CountRow(4, 8, 200, "", true, Some(8), Some(200))
  {
    var sheets := Key(1, "101", "sheet", 10);
    var t := map[sheets := CountRow(2, 7, 100, "", true, None, None)];
    assert InRoom(sheets, 1, "101", 10) && t[sheets].isLocked;
    var counts := map["sheet" := 3, "towel" := 4];
    assert "towel" in counts;
  }

  // ---------------------------------------------------------------- autosave

  /**
   * The table after an autosave of one item: a new key is inserted as an unlocked draft; an
   * existing row gets the new count and edit stamp (and the booking reference while unlocked),
   * keeping its lock, its submitter and its submission time.
   */
  function AutosaveTable(t: Table, k: Key, c: int, user: UserId, now: Timestamp, bookingRef: string): (r: Table)
    ensures r.Keys == t.Keys + {k}
    ensures forall j :: j in t && j != k ==> r[j] == t[j]
    ensures k !in t ==> r[k] == CountRow(Clamp(c), user, now, bookingRef, false, Some(user), Some(now))
    ensures k in t ==>
      r[k].count == Clamp(c) && r[k].lastUpdatedBy == Some(user) && r[k].lastUpdatedAt == Some(now) &&
      r[k].isLocked == t[k].isLocked && r[k].submittedBy == t[k].submittedBy &&
      r[k].submittedAt == t[k].submittedAt &&
      r[k].bookingRef == (if t[k].isLocked then t[k].bookingRef else bookingRef)
    ensures AuditPaired(t) ==> AuditPaired(r)
  {
    if k in t then
      var old_ := t[k];
      t[k := old_.(count := Clamp(c), lastUpdatedBy := Some(user), lastUpdatedAt := Some(now),
                   bookingRef := if old_.isLocked then old_.bookingRef else bookingRef)]
    else
      t[k := CountRow(Clamp(c), user, now, bookingRef, false, Some(user), Some(now))]
  }

  // ---------------------------------------------------------------- unlock

  /** The table after unlocking a room's day: every row of it unlocked, nothing else changed. */
  function UnlockTable(t: Table, location: int, room: string, date: Day): (r: Table)
    ensures r.Keys == t.Keys
    ensures forall k :: k in t && InRoom(k, location, room, date) ==> r[k] == t[k].(isLocked := false)
    ensures forall k :: k in t && !InRoom(k, location, room, date) ==> r[k] == t[k]
    ensures AuditPaired(t) ==> AuditPaired(r)
  {
    map k | k in t :: if InRoom(k, location, room, date) then t[k].(isLocked := false) else t[k]
  }

  // ---------------------------------------------------------------- submit all

  /** The unlocked rows of one location and day: what `submit_all_unsubmitted` changes. */
  function DraftKeys(t: Table, location: int, date: Day): (ks: set<Key>)
    ensures forall k :: k in ks <==> k in t && k.location == location && k.date == date && !t[k].isLocked
  {
    set k | k in t && k.location == location && k.date == date && !t[k].isLocked
  }

  /** The table after `submit_all_unsubmitted`: every draft of the day locked and stamped. */
  function LockAllTable(t: Table, location: int, date: Day, user: UserId, now: Timestamp): (r: Table)
    ensures r.Keys == t.Keys
    ensures forall k :: k in DraftKeys(t, location, date) ==>
      r[k] == t[k].(isLocked := true, lastUpdatedBy := Some(user), lastUpdatedAt := Some(now))
    ensures forall k :: k in t && k !in DraftKeys(t, location, date) ==> r[k] == t[k]
    ensures AuditPaired(t) ==> AuditPaired(r)
  {
    map k | k in t :: if k in DraftKeys(t, location, date)
                      then t[k].(isLocked := true, lastUpdatedBy := Some(user), lastUpdatedAt := Some(now))
                      else t[k]
  }

  // ---------------------------------------------------------------- lemmas

  /** A successful submit of a non-empty count list leaves the room submitted. */
  lemma SubmitMakesRoomSubmitted(t: Table, location: int, room: string, date: Day, counts: map<string, int>,
                                 user: UserId, now: Timestamp, bookingRef: string, isUpdate: bool)
    requires counts != map[]
    ensures RoomStatus(SubmitTable(t, location, room, date, counts, user, now, bookingRef, isUpdate),
                       location, room, date) == Submitted
  {
    var i :| i in counts;
    var k := Key(location, room, i, date);
    assert InRoom(k, location, room, date);
  }

  /** A submit leaves every other room's status as it was. */
  lemma SubmitKeepsOtherRooms(t: Table, location: int, room: string, date: Day, counts: map<string, int>,
                              user: UserId, now: Timestamp, bookingRef: string, isUpdate: bool,
                              otherRoom: string, otherDate: Day)
    requires otherRoom != room || otherDate != date
    ensures RoomStatus(SubmitTable(t, location, room, date, counts, user, now, bookingRef, isUpdate),
                       location, otherRoom, otherDate) == RoomStatus(t, location, otherRoom, otherDate)
  {
    var s := SubmitTable(t, location, room, date, counts, user, now, bookingRef, isUpdate);
    assert forall k :: k in s && InRoom(k, location, otherRoom, otherDate) ==> k in t && s[k] == t[k];
  }

  /** After an unlock no row of the room's day is locked; a room with rows reads 'unsubmitted'. */
  lemma UnlockClearsLocks(t: Table, location: int, room: string, date: Day)
    ensures !HasLockedRow(UnlockTable(t, location, room, date), location, room, date)
    ensures RoomStatus(UnlockTable(t, location, room, date), location, room, date) ==
      (if HasRow(t, location, room, date) then Unsubmitted else NoCounts)
  {
  }

  /** An autosave never changes whether a room reads 'submitted'. */
  lemma AutosaveKeepsSubmitted(t: Table, k: Key, c: int, user: UserId, now: Timestamp, bookingRef: string)
    ensures HasLockedRow(AutosaveTable(t, k, c, user, now, bookingRef), k.location, k.room, k.date) ==
      HasLockedRow(t, k.location, k.room, k.date)
  {
    var r := AutosaveTable(t, k, c, user, now, bookingRef);
    if HasLockedRow(r, k.location, k.room, k.date) {
      var j :| j in r && InRoom(j, k.location, k.room, k.date) && r[j].isLocked;
      assert j in t && t[j].isLocked;
    }
  }

  /** After submitting all, no draft remains, so a second call finds nothing to submit. */
  lemma LockAllLeavesNoDrafts(t: Table, location: int, date: Day, user: UserId, now: Timestamp)
    ensures DraftKeys(LockAllTable(t, location, date, user, now), location, date) == {}
  {
  }

  /** After submitting all, every room of the day that has a row reads 'submitted'. */
  lemma LockAllSubmitsEveryRoom(t: Table, location: int, room: string, date: Day, user: UserId, now: Timestamp)
    requires HasRow(t, location, room, date)
    ensures RoomStatus(LockAllTable(t, location, date, user, now), location, room, date) == Submitted
  {
    var k :| k in t && InRoom(k, location, room, date);
    var r := LockAllTable(t, location, date, user, now);
    assert r[k].isLocked;
  }

  /** With no drafts, submitting all changes nothing. */
  lemma LockAllWithoutDrafts(t: Table, location: int, date: Day, user: UserId, now: Timestamp)
    requires DraftKeys(t, location, date) == {}
    ensures LockAllTable(t, location, date, user, now) == t
  {
  }

  /**
   * Unlock, autosave a new count, resubmit: since no row is locked any more the submit takes
   * the first-submission branch, so the room is submitted again with the new count, but the
   * original submission time is replaced and the edit stamp is cleared.
   */
  lemma ResubmitAfterUnlockResetsAudit(t: Table, k: Key, c: int, editor: UserId,
                                       t1: Timestamp, t2: Timestamp, bookingRef: string)
    requires k in t && t[k].isLocked
    ensures var unlocked := UnlockTable(t, k.location, k.room, k.date);
            var drafted := AutosaveTable(unlocked, k, c, editor, t1, bookingRef);
            var isUpdate := HasLockedRow(drafted, k.location, k.room, k.date);
            var resubmitted := SubmitTable(drafted, k.location, k.room, k.date, map[k.item := c],
                                           editor, t2, bookingRef, isUpdate);
            !isUpdate &&
            RoomStatus(resubmitted, k.location, k.room, k.date) == Submitted &&
            resubmitted[k].count == Clamp(c) &&
            resubmitted[k].submittedAt == t2 && resubmitted[k].lastUpdatedBy.None?
  {
    var unlocked := UnlockTable(t, k.location, k.room, k.date);
    var drafted := AutosaveTable(unlocked, k, c, editor, t1, bookingRef);
    UnlockClearsLocks(t, k.location, k.room, k.date);
    AutosaveKeepsSubmitted(unlocked, k, c, editor, t1, bookingRef);
    var isUpdate := HasLockedRow(drafted, k.location, k.room, k.date);
    SubmitMakesRoomSubmitted(drafted, k.location, k.room, k.date, map[k.item := c], editor, t2, bookingRef, isUpdate);
    assert k == Key(k.location, k.room, k.item, k.date);
  }

  /**
   * Autosave into a locked row, then resubmit: the room stays locked throughout, so the submit
   * takes the update branch and the original submission time survives.
   */
  lemma ResubmitWhileLockedKeepsSubmissionTime(t: Table, k: Key, c: int, editor: UserId,
                                               t1: Timestamp, t2: Timestamp, bookingRef: string)
    requires k in t && t[k].isLocked
    ensures var drafted := AutosaveTable(t, k, c, editor, t1, bookingRef);
            var isUpdate := HasLockedRow(drafted, k.location, k.room, k.date);
            var resubmitted := SubmitTable(drafted, k.location, k.room, k.date, map[k.item := c],
                                           editor, t2, bookingRef, isUpdate);
            isUpdate &&
            resubmitted[k].count == Clamp(c) && resubmitted[k].submittedAt == t[k].submittedAt &&
            resubmitted[k].lastUpdatedBy == Some(editor) && resubmitted[k].lastUpdatedAt == Some(t2)
  {
    assert InRoom(k, k.location, k.room, k.date);
    var drafted := AutosaveTable(t, k, c, editor, t1, bookingRef);
    assert drafted[k].isLocked;
    assert k == Key(k.location, k.room, k.item, k.date);
  }

  // ---------------------------------------------------------------- sums

  /** `SUM(count)` over a set of rows. */
  ghost function SumCounts(t: Table, ks: set<Key>): nat
    requires ks <= t.Keys
    decreases ks
  {
    if ks == {} then 0
    else
      var k :| k in ks;
      t[k].count + SumCounts(t, ks - {k})
  }

  /** The sum does not depend on which row is taken first. */
  lemma {:induction false} SumCountsPick(t: Table, ks: set<Key>, k: Key)
    requires ks <= t.Keys && k in ks
    ensures SumCounts(t, ks) == t[k].count + SumCounts(t, ks - {k})
    decreases ks
  {
    var j :| j in ks && SumCounts(t, ks) == t[j].count + SumCounts(t, ks - {j});
    if j != k {
      SumCountsPick(t, ks - {j}, k);
      SumCountsPick(t, ks - {k}, j);
      assert ks - {j} - {k} == ks - {k} - {j};
    }
  }

  /** Adding one row to a set adds its count to the sum. */
  lemma SumCountsAdd(t: Table, ks: set<Key>, k: Key)
    requires ks <= t.Keys && k in t && k !in ks
    ensures SumCounts(t, ks + {k}) == SumCounts(t, ks) + t[k].count
  {
    SumCountsPick(t, ks + {k}, k);
    assert ks + {k} - {k} == ks;
  }
}
