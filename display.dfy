/**
 * The decisions the linen section of the room modal makes (`render_modal_section`) and
 * the edit-modal fragment (`get_linen_section_html`) repeats: which notice replaces the
 * controls, whether the room shows as locked, which action button is offered, whether the
 * +/- arrows are disabled, what each item's counter starts at, and whether the submission
 * metadata is shown. HTML, escaping and display-name lookups are not modelled; the view is
 * a value describing those decisions.
 */
module Display {
  import opened Common
  import opened Counts
  import opened Settings

  /** The button in the actions row. */
  datatype Action =
    | EditButton      // locked, and the user may edit submitted counts
    | LockedButton    // locked, and the user may not: a disabled "Locked" button
    | SubmitButton    // not locked: "Submit Count"

  /** One tile of the items grid. */
  datatype ItemControl = ItemControl(itemId: string, name: string, shortcode: string,
                                     count: nat, arrowsDisabled: bool)

  /** The "Last edited by" line: the editor and the edit time as stored. */
  datatype Edit = Edit(editor: UserId, editedAt: Option<Timestamp>)

  /** The metadata footer: who submitted, when, and the optional last edit. */
  datatype Metadata = Metadata(submittedBy: UserId, submittedAt: Timestamp, lastEdited: Option<Edit>)

  /** The `hhlc-linen-controls` block. */
  datatype Panel = Panel(locked: bool, canEdit: bool, items: seq<ItemControl>,
                         action: Action, metadata: Option<Metadata>)

  /** What the modal section shows: one of three notices, or the controls. */
  datatype View = NoPermission | NotEnabled | NoItems | Controls(panel: Panel)

  /** `get_item_count`: the count of the first row for the item, else 0. */
  function ItemCount(rows: seq<Record>, itemId: string): (c: nat)
  {
    if |rows| == 0 then 0
    else if rows[0].key.item == itemId then rows[0].row.count
    else ItemCount(rows[1..], itemId)
  }

  /** The lock state shown: that of the first row only, and unlocked with no rows. */
  function ShownLocked(rows: seq<Record>): (locked: bool)
    ensures |rows| == 0 ==> !locked
    ensures |rows| > 0 ==> (locked <==> rows[0].row.isLocked)
  {
    |rows| > 0 && rows[0].row.isLocked
  }

  /** The button offered for a lock state and the edit-submitted permission. */
  function ActionFor(locked: bool, canEdit: bool): (a: Action)
    ensures a == SubmitButton <==> !locked
    ensures a == EditButton <==> (locked && canEdit)
    ensures a == LockedButton <==> (locked && !canEdit)
  {
    if locked then (if canEdit then EditButton else LockedButton) else SubmitButton
  }

  /** PHP's truthiness of `last_updated_by`: set, and not 0. */
  predicate Edited(r: CountRow)
  {
    r.lastUpdatedBy.Some? && r.lastUpdatedBy.value != 0
  }

  /** The metadata footer, taken from the first row. */
  function MetadataOf(rows: seq<Record>): (m: Option<Metadata>)
    ensures m.Some? <==> |rows| > 0
    ensures m.Some? ==> m.value.submittedBy == rows[0].row.submittedBy
                        && m.value.submittedAt == rows[0].row.submittedAt
    ensures m.Some? ==> (m.value.lastEdited.Some? <==> Edited(rows[0].row))
    ensures m.Some? && m.value.lastEdited.Some? ==>
              m.value.lastEdited.value == Edit(rows[0].row.lastUpdatedBy.value, rows[0].row.lastUpdatedAt)
  {
    if |rows| == 0 then None
    else
      var r := rows[0].row;
      Some(Metadata(r.submittedBy, r.submittedAt,
                    if Edited(r) then Some(Edit(r.lastUpdatedBy.value, r.lastUpdatedAt)) else None))
  }

  /** One tile per configured item, in configuration order. */
  function Tiles(items: seq<LinenItem>, rows: seq<Record>, locked: bool): (ts: seq<ItemControl>)
    ensures |ts| == |items|
  {
    if |items| == 0 then []
    else
      [ItemControl(items[0].id, items[0].name, items[0].shortcode, ItemCount(rows, items[0].id), locked)]
      + Tiles(items[1..], rows, locked)
  }

  /** `get_linen_section_html`: the controls for the configured items and the room's rows. */
  function LinenSection(items: seq<LinenItem>, rows: seq<Record>, canEdit: bool): (p: Panel)
  {
    var locked := ShownLocked(rows);
    Panel(locked, canEdit, Tiles(items, rows, locked), ActionFor(locked, canEdit), MetadataOf(rows))
  }

  /**
   * `render_modal_section`: the permission, enabled and items checks in that order, then the
   * same controls as the edit-modal fragment.
   */
  function ModalSection(hasPermission: bool, settings: AllSettings, location: int,
                        rows: seq<Record>, canEdit: bool): (v: View)
    ensures v == NoPermission <==> !hasPermission
    ensures v == NotEnabled <==> (hasPermission && !IsEnabledForLocation(settings, location))
    ensures v == NoItems <==> (hasPermission && IsEnabledForLocation(settings, location)
                               && LinenItems(settings, location) == [])
    ensures v.Controls? <==> (hasPermission && IsEnabledForLocation(settings, location)
                              && LinenItems(settings, location) != [])
    ensures v.Controls? ==> v.panel == LinenSection(LinenItems(settings, location), rows, canEdit)
  {
    if !hasPermission then NoPermission
    else if !IsEnabledForLocation(settings, location) then NotEnabled
    else if |LinenItems(settings, location)| == 0 then NoItems
    else Controls(LinenSection(LinenItems(settings, location), rows, canEdit))
  }

  // ---------------------------------------------------------------------------------------
  // get_item_count

  /** No row for the item: the counter starts at 0. */
  lemma {:induction false} ItemCountAbsent(rows: seq<Record>, itemId: string)
    requires forall i :: 0 <= i < |rows| ==> rows[i].key.item != itemId
    ensures ItemCount(rows, itemId) == 0
  {
    if |rows| > 0 {
      ItemCountAbsent(rows[1..], itemId);
    }
  }

  /** The first row for the item gives the count, whatever rows for it follow. */
  lemma {:induction false} ItemCountFirst(rows: seq<Record>, itemId: string, i: int)
    requires 0 <= i < |rows| && rows[i].key.item == itemId
    requires forall j :: 0 <= j < i ==> rows[j].key.item != itemId
    ensures ItemCount(rows, itemId) == rows[i].row.count
  {
    if i > 0 {
      ItemCountFirst(rows[1..], itemId, i - 1);
    }
  }

  /** The rows `get_room_linen_counts` returns: exactly the table's rows for the room and date. */
  ghost predicate IsRoomRows(t: Table, location: int, room: string, date: Day, rows: seq<Record>)
  {
    && (forall i :: 0 <= i < |rows| ==>
          rows[i].key in t && t[rows[i].key] == rows[i].row && InRoom(rows[i].key, location, room, date))
    && (forall k :: k in t && InRoom(k, location, room, date) ==> exists i :: 0 <= i < |rows| && rows[i].key == k)
  }

  /**
   * Since the key is unique, the counter of an item shows its stored count, in whatever
   * order the rows come back, and 0 when the item has no row.
   */
  lemma ItemCountIsStoredCount(t: Table, location: int, room: string, date: Day,
                               rows: seq<Record>, itemId: string)
    requires IsRoomRows(t, location, room, date, rows)
    ensures var k := Key(location, room, itemId, date);
            ItemCount(rows, itemId) == if k in t then t[k].count else 0
  {
    var k := Key(location, room, itemId, date);
    if i :| 0 <= i < |rows| && rows[i].key.item == itemId {
      var f := FirstFor(rows, itemId, i);
      ItemCountFirst(rows, itemId, f);
      assert rows[f].key == k;
    } else {
      ItemCountAbsent(rows, itemId);
    }
  }

  /** Some row for the item exists, so a first one does. */
  lemma {:induction false} FirstFor(rows: seq<Record>, itemId: string, i: int) returns (f: int)
    requires 0 <= i < |rows| && rows[i].key.item == itemId
    ensures 0 <= f <= i && rows[f].key.item == itemId
    ensures forall j :: 0 <= j < f ==> rows[j].key.item != itemId
  {
    f := i;
    if j :| 0 <= j < i && rows[j].key.item == itemId {
      f := FirstFor(rows, itemId, j);
    }
  }

  // ---------------------------------------------------------------------------------------
  // Lock state and buttons

  /** Each tile's counter starts at its item's count, and its arrows are disabled iff locked. */
  lemma {:induction false} TilesMeaning(items: seq<LinenItem>, rows: seq<Record>, locked: bool, i: int)
    requires 0 <= i < |items|
    ensures var ts := Tiles(items, rows, locked);
            ts[i] == ItemControl(items[i].id, items[i].name, items[i].shortcode, ItemCount(rows, items[i].id), locked)
  {
    if i > 0 {
      TilesMeaning(items[1..], rows, locked, i - 1);
    }
  }

  /** The panel: one tile per item, arrows disabled exactly when the first row is locked. */
  lemma LinenSectionMeaning(items: seq<LinenItem>, rows: seq<Record>, canEdit: bool, i: int)
    requires 0 <= i < |items|
    ensures var p := LinenSection(items, rows, canEdit);
            |p.items| == |items|
            && p.items[i].itemId == items[i].id
            && p.items[i].count == ItemCount(rows, items[i].id)
            && (p.items[i].arrowsDisabled <==> (|rows| > 0 && rows[0].row.isLocked))
  {
    TilesMeaning(items, rows, ShownLocked(rows), i);
  }

  /** A room with no rows is offered Submit, and every counter starts at 0. */
  lemma EmptyRoomOffersSubmit(items: seq<LinenItem>, canEdit: bool, i: int)
    requires 0 <= i < |items|
    ensures var p := LinenSection(items, [], canEdit);
            p.action == SubmitButton && p.metadata.None? && !p.items[i].arrowsDisabled
            && p.items[i].count == 0
  {
    TilesMeaning(items, [], false, i);
  }

  /** Submit is offered exactly when the arrows are enabled; the two never disagree. */
  lemma SubmitIffArrowsEnabled(items: seq<LinenItem>, rows: seq<Record>, canEdit: bool, i: int)
    requires 0 <= i < |items|
    ensures var p := LinenSection(items, rows, canEdit);
            p.action == SubmitButton <==> !p.items[i].arrowsDisabled
  {
    TilesMeaning(items, rows, ShownLocked(rows), i);
  }

  /** A locked panel shows as Submitted on the dashboard. */
  lemma ShownLockedIsSubmitted(t: Table, location: int, room: string, date: Day, rows: seq<Record>)
    requires IsRoomRows(t, location, room, date, rows)
    requires ShownLocked(rows)
    ensures RoomStatus(t, location, room, date) == Submitted
  {
    assert rows[0].key in t && t[rows[0].key].isLocked && InRoom(rows[0].key, location, room, date);
  }

  /**
   * The converse fails: when the first row returned is a draft, the panel offers Submit even
   * though another row of the room is locked and the dashboard says Submitted. An autosave
   * of a new item into a submitted room leaves exactly such a table.
   */
  lemma ShownUnlockedWhileSubmitted()
    ensures exists t: Table, rows: seq<Record> ::
              IsRoomRows(t, 1, "101", 0, rows) && !ShownLocked(rows)
              && RoomStatus(t, 1, "101", 0) == Submitted
  {
    var draft := CountRow(2, 7, 100, "", false, Some(7), Some(100));
    var locked := CountRow(3, 7, 50, "", true, None, None);
    var kd := Key(1, "101", "duvet", 0);
    var kl := Key(1, "101", "towel", 0);
    var t := map[kd := draft, kl := locked];
    var rows := [Record(kd, draft), Record(kl, locked)];
    forall k | k in t && InRoom(k, 1, "101", 0)
      ensures exists i :: 0 <= i < |rows| && rows[i].key == k
    {
      if k == kd {
        assert rows[0].key == k;
      } else {
        assert rows[1].key == k;
      }
    }
    assert IsRoomRows(t, 1, "101", 0, rows);
    assert HasLockedRow(t, 1, "101", 0) by {
      assert kl in t && t[kl].isLocked && InRoom(kl, 1, "101", 0);
    }
  }

  // ---------------------------------------------------------------------------------------
  // The two entry points agree

  /** An unknown location has the module enabled but no items, so the "no items" notice shows. */
  lemma UnknownLocationShowsNoItems(settings: AllSettings, location: int, rows: seq<Record>, canEdit: bool)
    requires location !in settings
    ensures ModalSection(true, settings, location, rows, canEdit) == NoItems
  {
  }
}
