/**
 * The admin reports page: the month calendar, the day details modal, and the CSV export.
 *
 * Each report runs one SQL query and then folds its result rows in PHP. The queries are
 * described here by what they return (`IsSelection` plus an ordering predicate); the PHP
 * folds are the methods, each proved equal to a function defined the way the fold appends,
 * and the lemmas say what those functions mean.
 */
module Reports {
  import opened Common
  import opened Counts
  import Settings

  // ---------------------------------------------------------------- queries

  /** String order by character code (the database collation is not modelled). */
  predicate StrLe(a: string, b: string)
    decreases |a|
  {
    a == [] || (b != [] && (a[0] < b[0] || (a[0] == b[0] && StrLe(a[1..], b[1..]))))
  }

  /** `ORDER BY room_id, linen_item_id`. */
  predicate RoomItemLe(a: Key, b: Key)
  {
    (a.room != b.room && StrLe(a.room, b.room)) || (a.room == b.room && StrLe(a.item, b.item))
  }

  /** `ORDER BY service_date, room_id, linen_item_id`. */
  predicate DateRoomItemLe(a: Key, b: Key)
  {
    a.date < b.date || (a.date == b.date && RoomItemLe(a, b))
  }

  /** The WHERE clause of a report query: an optional date range and an optional location. */
  datatype RowFilter = RowFilter(dates: Option<(Day, Day)>, location: Option<int>)

  predicate Selects(f: RowFilter, k: Key)
  {
    (f.dates.Some? ==> f.dates.value.0 <= k.date <= f.dates.value.1) &&
    (f.location.Some? ==> k.location == f.location.value)
  }

  /** The location clause is added only for a positive `location_id`. */
  function LocationClause(location: int): (c: Option<int>)
    ensures c.Some? <==> location > 0
    ensures c.Some? ==> c.value == location
  {
    if location > 0 then Some(location) else None
  }

  /** Day details: one service date, narrowed to a positive location. */
  function DayFilter(location: int, date: Day): RowFilter
  {
    RowFilter(Some((date, date)), LocationClause(location))
  }

  /** Export: a date range only when both ends were given, narrowed to a positive location. */
  function ExportFilter(location: int, startDate: Option<Day>, endDate: Option<Day>): (f: RowFilter)
    ensures f.dates.Some? <==> startDate.Some? && endDate.Some?
  {
    RowFilter(if startDate.Some? && endDate.Some? then Some((startDate.value, endDate.value)) else None,
              LocationClause(location))
  }

  /** The rows of the table the filter selects, each exactly once. */
  ghost predicate IsSelection(t: Table, f: RowFilter, results: seq<Record>)
  {
    (forall i :: 0 <= i < |results| ==>
       results[i].key in t && t[results[i].key] == results[i].row && Selects(f, results[i].key)) &&
    (forall k :: k in t && Selects(f, k) ==> exists i :: 0 <= i < |results| && results[i].key == k) &&
    (forall i, j :: 0 <= i < j < |results| ==> results[i].key != results[j].key)
  }

  ghost predicate SortedByRoomItem(results: seq<Record>)
  {
    forall i, j :: 0 <= i < j < |results| ==> RoomItemLe(results[i].key, results[j].key)
  }

  ghost predicate SortedByDateRoomItem(results: seq<Record>)
  {
    forall i, j :: 0 <= i < j < |results| ==> DateRoomItemLe(results[i].key, results[j].key)
  }

  /** Without a positive location every location's rows are selected. */
  lemma LocationClauseOnlyWhenPositive(location: int, dates: Option<(Day, Day)>, k: Key)
    requires location <= 0
    ensures Selects(RowFilter(dates, LocationClause(location)), k) == Selects(RowFilter(dates, None), k)
  {
  }

  /** An export with only one end of the range given selects every date. */
  lemma ExportHalfRangeIgnored(location: int, startDate: Option<Day>, endDate: Option<Day>, k: Key)
    requires startDate.None? || endDate.None?
    ensures Selects(ExportFilter(location, startDate, endDate), k) ==
      (location > 0 ==> k.location == location)
  {
  }

  // ---------------------------------------------------------------- find_linen_item

  /** The first item of `items` with the given id, if any. */
  function FirstWithId(items: seq<Settings.LinenItem>, id: string): Option<Settings.LinenItem>
  {
    if items == [] then None
    else if items[0].id == id then Some(items[0])
    else FirstWithId(items[1..], id)
  }

  /** `find_linen_item` returns the first item whose id matches, and nothing when none does. */
  lemma {:induction false} FirstWithIdMeaning(items: seq<Settings.LinenItem>, id: string)
    ensures FirstWithId(items, id).None? <==> forall i :: 0 <= i < |items| ==> items[i].id != id
    ensures FirstWithId(items, id).Some? ==>
      exists i :: 0 <= i < |items| && items[i] == FirstWithId(items, id).value && items[i].id == id &&
                  forall j :: 0 <= j < i ==> items[j].id != id
  {
    if items != [] && items[0].id != id {
      FirstWithIdMeaning(items[1..], id);
      assert forall i :: 1 <= i < |items| ==> items[i] == items[1..][i - 1];
      if FirstWithId(items, id).Some? {
        var i :| 0 <= i < |items[1..]| && items[1..][i] == FirstWithId(items, id).value && items[1..][i].id == id &&
                 forall j :: 0 <= j < i ==> items[1..][j].id != id;
        assert items[i + 1] == FirstWithId(items, id).value;
      }
    }
  }

  /** `find_linen_item`: a search loop with an early return. */
  method FindLinenItem(items: seq<Settings.LinenItem>, id: string) returns (r: Option<Settings.LinenItem>)
    ensures r == FirstWithId(items, id)
  {
    var i := 0;
    while i < |items|
      invariant 0 <= i <= |items|
      invariant FirstWithId(items, id) == FirstWithId(items[i..], id)
      invariant forall j :: 0 <= j < i ==> items[j].id != id
    {
      if items[i].id == id {
        return Some(items[i]);
      }
      assert items[i..][1..] == items[i + 1..];
      i := i + 1;
    }
    r := None;
  }

  // ---------------------------------------------------------------- day details

  /** One item badge of a room: the catalogue's name and shortcode, else the id and ''. */
  datatype ItemLine = ItemLine(itemId: string, name: string, shortcode: string, count: nat)

  /** One room of the day details: its first row's submitter and time, its items, their sum. */
  datatype RoomDetail = RoomDetail(roomId: string, submittedBy: UserId, submittedAt: Timestamp,
                                   items: seq<ItemLine>, totalCount: nat)

  /** The catalogue the day details use: read only for a positive location. */
  function Catalogue(catalogueSettings: Settings.AllSettings, location: int): (items: seq<Settings.LinenItem>)
    ensures location <= 0 ==> items == []
    ensures location > 0 ==> items == Settings.LinenItems(catalogueSettings, location)
  {
    if location > 0 then Settings.LinenItems(catalogueSettings, location) else []
  }

  function LineOf(catalogue: seq<Settings.LinenItem>, rec: Record): (l: ItemLine)
    ensures l.itemId == rec.key.item && l.count == rec.row.count
  {
    var details := FirstWithId(catalogue, rec.key.item);
    ItemLine(rec.key.item,
             if details.Some? then details.value.name else rec.key.item,
             if details.Some? then details.value.shortcode else "",
             rec.row.count)
  }

  function SumLines(lines: seq<ItemLine>): nat
  {
    if lines == [] then 0 else SumLines(lines[..|lines| - 1]) + lines[|lines| - 1].count
  }

  /** The sum of the counts of the rows of one room. */
  function RoomRowSum(rs: seq<Record>, room: string): nat
  {
    if rs == [] then 0
    else RoomRowSum(rs[..|rs| - 1], room) + (if rs[|rs| - 1].key.room == room then rs[|rs| - 1].row.count else 0)
  }

  /** The item badges of one room, in row order. */
  function RoomLines(catalogue: seq<Settings.LinenItem>, rs: seq<Record>, room: string): seq<ItemLine>
  {
    if rs == [] then []
    else RoomLines(catalogue, rs[..|rs| - 1], room) +
         (if rs[|rs| - 1].key.room == room then [LineOf(catalogue, rs[|rs| - 1])] else [])
  }

  function SumRecords(rs: seq<Record>): nat
  {
    if rs == [] then 0 else SumRecords(rs[..|rs| - 1]) + rs[|rs| - 1].row.count
  }

  predicate Distinct(xs: seq<string>)
  {
    forall i, j :: 0 <= i < j < |xs| ==> xs[i] != xs[j]
  }

  /** The rooms in the order of their first row. */
  function RoomOrder(rs: seq<Record>): seq<string>
  {
    if rs == [] then []
    else
      var init := RoomOrder(rs[..|rs| - 1]);
      var room := rs[|rs| - 1].key.room;
      if room in init then init else init + [room]
  }

  /** No room is listed twice. */
  lemma {:induction false} RoomOrderDistinct(rs: seq<Record>)
    ensures Distinct(RoomOrder(rs))
  {
    if rs != [] {
      RoomOrderDistinct(rs[..|rs| - 1]);
    }
  }

  /** A room is listed exactly when some row has it. */
  lemma {:induction false} RoomOrderMembers(rs: seq<Record>, room: string)
    ensures room in RoomOrder(rs) <==> exists i :: 0 <= i < |rs| && rs[i].key.room == room
  {
    if rs != [] {
      var init := rs[..|rs| - 1];
      RoomOrderMembers(init, room);
      assert forall i :: 0 <= i < |init| ==> init[i] == rs[i];
    }
  }

  /** The `$rooms` array after grouping the rows `rs`. */
  function RoomsOf(catalogue: seq<Settings.LinenItem>, rs: seq<Record>): map<string, RoomDetail>
  {
    if rs == [] then map[]
    else
      var init := RoomsOf(catalogue, rs[..|rs| - 1]);
      var rec := rs[|rs| - 1];
      var line := LineOf(catalogue, rec);
      var room := rec.key.room;
      if room in init then
        var d := init[room];
        init[room := d.(items := d.items + [line], totalCount := d.totalCount + line.count)]
      else
        init[room := RoomDetail(room, rec.row.submittedBy, rec.row.submittedAt, [line], line.count)]
  }

  /** There is an entry for exactly the listed rooms. */
  lemma {:induction false} RoomsOfKeys(catalogue: seq<Settings.LinenItem>, rs: seq<Record>)
    ensures forall room :: room in RoomsOf(catalogue, rs) <==> room in RoomOrder(rs)
  {
    if rs != [] {
      RoomsOfKeys(catalogue, rs[..|rs| - 1]);
    }
  }

  /** Each entry is keyed by its own room, and its total is the sum of its badges. */
  lemma {:induction false} RoomsOfConsistent(catalogue: seq<Settings.LinenItem>, rs: seq<Record>, room: string)
    requires room in RoomsOf(catalogue, rs)
    ensures RoomsOf(catalogue, rs)[room].roomId == room
    ensures RoomsOf(catalogue, rs)[room].totalCount == SumLines(RoomsOf(catalogue, rs)[room].items)
  {
    RoomsOfItems(catalogue, rs, room);
    RoomLinesSum(catalogue, rs, room);
    var init := rs[..|rs| - 1];
    if room in RoomsOf(catalogue, init) {
      RoomsOfConsistent(catalogue, init, room);
    }
  }

  /** Each room's badges are its rows' items in row order; its total is its rows' sum. */
  lemma {:induction false} RoomsOfItems(catalogue: seq<Settings.LinenItem>, rs: seq<Record>, room: string)
    requires room in RoomsOf(catalogue, rs)
    ensures RoomsOf(catalogue, rs)[room].items == RoomLines(catalogue, rs, room)
    ensures RoomsOf(catalogue, rs)[room].totalCount == RoomRowSum(rs, room)
  {
    var init := rs[..|rs| - 1];
    assert forall i :: 0 <= i < |rs| - 1 ==> init[i] == rs[i];
    if room in RoomsOf(catalogue, init) {
      RoomsOfItems(catalogue, init, room);
    } else {
      RoomsOfKeys(catalogue, init);
      RoomOrderMembers(init, room);
      RoomLinesAbsent(catalogue, init, room);
      RoomRowSumAbsent(init, room);
    }
    RoomLinesSum(catalogue, rs, room);
  }

  /** Each room's submitter and time are those of its first row `f`. */
  lemma {:induction false} RoomsOfHeader(catalogue: seq<Settings.LinenItem>, rs: seq<Record>, room: string, f: nat)
    requires f < |rs| && rs[f].key.room == room
    requires forall j :: 0 <= j < f ==> rs[j].key.room != room
    ensures room in RoomsOf(catalogue, rs)
    ensures RoomsOf(catalogue, rs)[room].submittedBy == rs[f].row.submittedBy
    ensures RoomsOf(catalogue, rs)[room].submittedAt == rs[f].row.submittedAt
  {
    var n := |rs|;
    var init := rs[..n - 1];
    if f < n - 1 {
      assert init[f] == rs[f];
      assert forall j :: 0 <= j < f ==> init[j] == rs[j];
      RoomsOfHeader(catalogue, init, room, f);
    } else {
      RoomsOfNewRoom(catalogue, rs, room);
    }
  }

  /** The last row creates its room's entry when no earlier row has that room. */
  lemma RoomsOfNewRoom(catalogue: seq<Settings.LinenItem>, rs: seq<Record>, room: string)
    requires rs != [] && rs[|rs| - 1].key.room == room
    requires forall j :: 0 <= j < |rs| - 1 ==> rs[j].key.room != room
    ensures room in RoomsOf(catalogue, rs)
    ensures RoomsOf(catalogue, rs)[room].submittedBy == rs[|rs| - 1].row.submittedBy
    ensures RoomsOf(catalogue, rs)[room].submittedAt == rs[|rs| - 1].row.submittedAt
  {
    var init := rs[..|rs| - 1];
    assert forall j :: 0 <= j < |init| ==> init[j] == rs[j];
    RoomsOfKeys(catalogue, init);
    RoomOrderMembers(init, room);
  }

  /** A room's badges add up to its row sum. */
  lemma {:induction false} RoomLinesSum(catalogue: seq<Settings.LinenItem>, rs: seq<Record>, room: string)
    ensures SumLines(RoomLines(catalogue, rs, room)) == RoomRowSum(rs, room)
  {
    if rs != [] {
      var init := RoomLines(catalogue, rs[..|rs| - 1], room);
      RoomLinesSum(catalogue, rs[..|rs| - 1], room);
      if rs[|rs| - 1].key.room == room {
        var l := LineOf(catalogue, rs[|rs| - 1]);
        assert (init + [l])[..|init|] == init;
      } else {
        assert init + [] == init;
      }
    }
  }

  /** A room with no rows has no badges. */
  lemma {:induction false} RoomLinesAbsent(catalogue: seq<Settings.LinenItem>, rs: seq<Record>, room: string)
    requires forall i :: 0 <= i < |rs| ==> rs[i].key.room != room
    ensures RoomLines(catalogue, rs, room) == []
  {
    if rs != [] {
      assert forall i :: 0 <= i < |rs| - 1 ==> rs[..|rs| - 1][i] == rs[i];
      RoomLinesAbsent(catalogue, rs[..|rs| - 1], room);
    }
  }

  lemma {:induction false} RoomRowSumAbsent(rs: seq<Record>, room: string)
    requires forall i :: 0 <= i < |rs| ==> rs[i].key.room != room
    ensures RoomRowSum(rs, room) == 0
  {
    if rs != [] {
      assert forall i :: 0 <= i < |rs| - 1 ==> rs[..|rs| - 1][i] == rs[i];
      RoomRowSumAbsent(rs[..|rs| - 1], room);
    }
  }

  /**
   * In `ORDER BY room_id, linen_item_id` order, a room's submitter and time come from the
   * room's row `f` with the least item id.
   */
  lemma RoomHeaderFromLeastItem(catalogue: seq<Settings.LinenItem>, rs: seq<Record>, room: string, f: nat)
    requires SortedByRoomItem(rs)
    requires f < |rs| && rs[f].key.room == room
    requires forall j :: 0 <= j < |rs| && j != f && rs[j].key.room == room ==>
      StrLe(rs[f].key.item, rs[j].key.item) && !StrLe(rs[j].key.item, rs[f].key.item)
    ensures room in RoomsOf(catalogue, rs)
    ensures RoomsOf(catalogue, rs)[room].submittedAt == rs[f].row.submittedAt
    ensures RoomsOf(catalogue, rs)[room].submittedBy == rs[f].row.submittedBy
  {
    RoomsOfHeader(catalogue, rs, room, f);
  }

  /**
   * The grouping loop of `ajax_get_day_details`: the first row of a room creates its entry,
   * every row appends its badge and adds its count.
   */
  method GroupByRoom(catalogue: seq<Settings.LinenItem>, results: seq<Record>)
    returns (rooms: map<string, RoomDetail>, order: seq<string>)
    ensures rooms == RoomsOf(catalogue, results)
    ensures order == RoomOrder(results)
  {
    rooms := map[];
    order := [];
    var i := 0;
    while i < |results|
      invariant 0 <= i <= |results|
      invariant rooms == RoomsOf(catalogue, results[..i])
      invariant order == RoomOrder(results[..i])
    {
      var rec := results[i];
      assert results[..i + 1][..i] == results[..i];
      assert results[..i + 1][i] == rec;
      var details := FindLinenItem(catalogue, rec.key.item);
      var line := ItemLine(rec.key.item,
                           if details.Some? then details.value.name else rec.key.item,
                           if details.Some? then details.value.shortcode else "",
                           rec.row.count);
      assert line == LineOf(catalogue, rec);
      var room := rec.key.room;
      RoomsOfKeys(catalogue, results[..i]);
      if room in rooms {
        var d := rooms[room];
        rooms := rooms[room := d.(items := d.items + [line], totalCount := d.totalCount + line.count)];
      } else {
        rooms := rooms[room := RoomDetail(room, rec.row.submittedBy, rec.row.submittedAt, [line], line.count)];
        order := order + [room];
      }
      i := i + 1;
    }
    assert results[..|results|] == results;
  }

  // ---------------------------------------------------------------- item totals

  /** The key a badge is totalled under: its shortcode, or its name when the shortcode is falsy. */
  function Label(l: ItemLine): string
  {
    if !Falsy(l.shortcode) then l.shortcode else l.name
  }

  /** Every badge, room by room in room order (the nested `foreach` of the totals loop). */
  function Lines(rooms: map<string, RoomDetail>, order: seq<string>): seq<ItemLine>
  {
    if order == [] then []
    else Lines(rooms, order[..|order| - 1]) +
         (if order[|order| - 1] in rooms then rooms[order[|order| - 1]].items else [])
  }

  function LabelSum(lines: seq<ItemLine>, tag: string): nat
  {
    if lines == [] then 0
    else LabelSum(lines[..|lines| - 1], tag) + (if Label(lines[|lines| - 1]) == tag then lines[|lines| - 1].count else 0)
  }

  /** The labels in the order of their first badge. */
  function LabelOrder(lines: seq<ItemLine>): seq<string>
  {
    if lines == [] then []
    else
      var init := LabelOrder(lines[..|lines| - 1]);
      var tag := Label(lines[|lines| - 1]);
      if tag in init then init else init + [tag]
  }

  /** No label is listed twice. */
  lemma {:induction false} LabelOrderDistinct(lines: seq<ItemLine>)
    ensures Distinct(LabelOrder(lines))
  {
    if lines != [] {
      LabelOrderDistinct(lines[..|lines| - 1]);
    }
  }

  /** A label is listed exactly when some badge carries it. */
  lemma {:induction false} LabelOrderMembers(lines: seq<ItemLine>, tag: string)
    ensures tag in LabelOrder(lines) <==> exists i :: 0 <= i < |lines| && Label(lines[i]) == tag
  {
    if lines != [] {
      var init := lines[..|lines| - 1];
      LabelOrderMembers(init, tag);
      assert forall i :: 0 <= i < |init| ==> init[i] == lines[i];
    }
  }

  /** The `$item_totals` array after adding the badges `lines`. */
  function TotalsOf(lines: seq<ItemLine>): map<string, nat>
  {
    if lines == [] then map[]
    else
      var init := TotalsOf(lines[..|lines| - 1]);
      var l := lines[|lines| - 1];
      var tag := Label(l);
      if tag in init then init[tag := init[tag] + l.count] else init[tag := l.count]
  }

  /** The totals have an entry for exactly the listed labels. */
  lemma {:induction false} TotalsOfKeys(lines: seq<ItemLine>)
    ensures forall tag :: tag in TotalsOf(lines) <==> tag in LabelOrder(lines)
  {
    if lines != [] {
      TotalsOfKeys(lines[..|lines| - 1]);
    }
  }

  /** Each tag's total is the sum of the counts of the badges carrying it. */
  lemma {:induction false} TotalsOfMeaning(lines: seq<ItemLine>, tag: string)
    ensures tag in TotalsOf(lines) ==> TotalsOf(lines)[tag] == LabelSum(lines, tag)
    ensures tag !in TotalsOf(lines) ==> LabelSum(lines, tag) == 0
  {
    if lines != [] {
      TotalsOfMeaning(lines[..|lines| - 1], tag);
    }
  }

  /** `array_sum` over the labels, in order (a label without a total adds nothing). */
  function SumLabels(totals: map<string, nat>, labels: seq<string>): nat
  {
    if labels == [] then 0
    else SumLabels(totals, labels[..|labels| - 1]) +
         (if labels[|labels| - 1] in totals then totals[labels[|labels| - 1]] else 0)
  }

  /** Two tables that agree on every listed label have the same sum. */
  lemma {:induction false} SumLabelsFrame(a: map<string, nat>, b: map<string, nat>, labels: seq<string>)
    requires forall i :: 0 <= i < |labels| ==> (labels[i] in a) == (labels[i] in b)
    requires forall i :: 0 <= i < |labels| && labels[i] in a ==> a[labels[i]] == b[labels[i]]
    ensures SumLabels(a, labels) == SumLabels(b, labels)
  {
    if labels != [] {
      SumLabelsFrame(a, b, labels[..|labels| - 1]);
    }
  }

  /** Adding `c` to the total of a label listed once adds `c` to the sum. */
  lemma {:induction false} SumLabelsBump(a: map<string, nat>, b: map<string, nat>, labels: seq<string>, tag: string, c: nat)
    requires Distinct(labels) && tag in labels && tag in a && tag in b && b[tag] == a[tag] + c
    requires forall i :: 0 <= i < |labels| && labels[i] != tag ==> (labels[i] in a) == (labels[i] in b)
    requires forall i :: 0 <= i < |labels| && labels[i] != tag && labels[i] in a ==> a[labels[i]] == b[labels[i]]
    ensures SumLabels(b, labels) == SumLabels(a, labels) + c
  {
    var n := |labels|;
    var init := labels[..n - 1];
    assert forall i :: 0 <= i < n - 1 ==> init[i] == labels[i];
    if labels[n - 1] == tag {
      assert tag !in init;
      SumLabelsFrame(a, b, init);
    } else {
      SumLabelsBump(a, b, init, tag, c);
    }
  }

  /** The totals after one more badge. */
  lemma TotalsOfStep(lines: seq<ItemLine>, l: ItemLine)
    ensures TotalsOf(lines + [l]) ==
      if Label(l) in TotalsOf(lines) then TotalsOf(lines)[Label(l) := TotalsOf(lines)[Label(l)] + l.count]
      else TotalsOf(lines)[Label(l) := l.count]
    ensures LabelOrder(lines + [l]) ==
      if Label(l) in LabelOrder(lines) then LabelOrder(lines) else LabelOrder(lines) + [Label(l)]
  {
    assert (lines + [l])[..|lines|] == lines;
  }

  /** The per-tag totals add up to the sum of all badge counts. */
  lemma {:induction false} TotalsAddUp(lines: seq<ItemLine>)
    ensures SumLabels(TotalsOf(lines), LabelOrder(lines)) == SumLines(lines)
  {
    if lines != [] {
      var init := lines[..|lines| - 1];
      var l := lines[|lines| - 1];
      assert lines == init + [l];
      TotalsAddUp(init);
      TotalsOfStep(init, l);
      TotalsOfKeys(init);
      var m := TotalsOf(init);
      var o := LabelOrder(init);
      var tag := Label(l);
      var after := TotalsOf(lines);
      if tag in m {
        LabelOrderDistinct(init);
        SumLabelsBump(m, after, o, tag, l.count);
      } else {
        var o' := o + [tag];
        assert o'[..|o|] == o;
        SumLabelsFrame(m, after, o);
      }
    }
  }

  /** Each room's total, keyed by room. */
  function RoomTotals(rooms: map<string, RoomDetail>): map<string, nat>
  {
    map room | room in rooms :: rooms[room].totalCount
  }

  lemma SumLinesAppend(a: seq<ItemLine>, b: seq<ItemLine>)
    ensures SumLines(a + b) == SumLines(a) + SumLines(b)
  {
    if b != [] {
      assert (a + b)[..|a + b| - 1] == a + b[..|b| - 1];
      SumLinesAppend(a, b[..|b| - 1]);
    } else {
      assert a + b == a;
    }
  }

  /** The badges of all rooms add up to the sum of the room totals. */
  lemma {:induction false} LinesAddUp(catalogue: seq<Settings.LinenItem>, rs: seq<Record>, order: seq<string>)
    ensures SumLines(Lines(RoomsOf(catalogue, rs), order)) == SumLabels(RoomTotals(RoomsOf(catalogue, rs)), order)
  {
    if order != [] {
      var rooms := RoomsOf(catalogue, rs);
      var last := order[|order| - 1];
      LinesAddUp(catalogue, rs, order[..|order| - 1]);
      if last in rooms {
        SumLinesAppend(Lines(rooms, order[..|order| - 1]), rooms[last].items);
        RoomsOfConsistent(catalogue, rs, last);
      } else {
        SumLinesAppend(Lines(rooms, order[..|order| - 1]), []);
      }
    }
  }

  /** A room's entry after one more row: only that room's entry changes. */
  lemma RoomsOfStep(catalogue: seq<Settings.LinenItem>, rs: seq<Record>)
    requires rs != []
    ensures var before := RoomsOf(catalogue, rs[..|rs| - 1]);
            var after := RoomsOf(catalogue, rs);
            var rec := rs[|rs| - 1];
            rec.key.room in after &&
            after[rec.key.room].totalCount ==
              (if rec.key.room in before then before[rec.key.room].totalCount else 0) + rec.row.count &&
            (forall room :: room != rec.key.room ==>
               (room in after) == (room in before) && (room in before ==> after[room] == before[room]))
  {
  }

  /** One more row adds its count to the sum of the room totals. */
  lemma RoomTotalsStep(catalogue: seq<Settings.LinenItem>, rs: seq<Record>)
    requires rs != []
    ensures SumLabels(RoomTotals(RoomsOf(catalogue, rs)), RoomOrder(rs)) ==
            SumLabels(RoomTotals(RoomsOf(catalogue, rs[..|rs| - 1])), RoomOrder(rs[..|rs| - 1])) + rs[|rs| - 1].row.count
  {
    var init := rs[..|rs| - 1];
    var rec := rs[|rs| - 1];
    var room := rec.key.room;
    RoomsOfStep(catalogue, rs);
    RoomsOfKeys(catalogue, init);
    var o := RoomOrder(init);
    var totals := RoomTotals(RoomsOf(catalogue, init));
    var after := RoomTotals(RoomsOf(catalogue, rs));
    if room in totals {
      RoomOrderDistinct(init);
      SumLabelsBump(totals, after, o, room, rec.row.count);
    } else {
      RoomTotalsNewRoom(totals, after, o, room, rec.row.count);
    }
  }

  lemma RoomTotalsNewRoom(totals: map<string, nat>, after: map<string, nat>, o: seq<string>, room: string, c: nat)
    requires room !in o && room in after && after[room] == c
    requires forall k :: k != room ==> (k in after) == (k in totals) && (k in totals ==> after[k] == totals[k])
    ensures SumLabels(after, o + [room]) == SumLabels(totals, o) + c
  {
    assert (o + [room])[..|o|] == o;
    SumLabelsFrame(totals, after, o);
  }

  /** The room totals add up to the sum of every result row's count. */
  lemma {:induction false} RoomTotalsAddUp(catalogue: seq<Settings.LinenItem>, rs: seq<Record>)
    ensures SumLabels(RoomTotals(RoomsOf(catalogue, rs)), RoomOrder(rs)) == SumRecords(rs)
  {
    if rs != [] {
      RoomTotalsAddUp(catalogue, rs[..|rs| - 1]);
      RoomTotalsStep(catalogue, rs);
    }
  }

  /** The day's grand total (`array_sum` of the item totals) is the sum of every row's count. */
  lemma GrandTotalIsRowSum(catalogue: seq<Settings.LinenItem>, rs: seq<Record>)
    ensures var lines := Lines(RoomsOf(catalogue, rs), RoomOrder(rs));
            SumLabels(TotalsOf(lines), LabelOrder(lines)) == SumRecords(rs)
  {
    var lines := Lines(RoomsOf(catalogue, rs), RoomOrder(rs));
    TotalsAddUp(lines);
    LinesAddUp(catalogue, rs, RoomOrder(rs));
    RoomTotalsAddUp(catalogue, rs);
  }

  /** The totals loop of `ajax_get_day_details`. */
  method ItemTotals(lines: seq<ItemLine>) returns (totals: map<string, nat>, labels: seq<string>)
    ensures totals == TotalsOf(lines) && labels == LabelOrder(lines)
  {
    totals := map[];
    labels := [];
    var i := 0;
    while i < |lines|
      invariant 0 <= i <= |lines|
      invariant totals == TotalsOf(lines[..i]) && labels == LabelOrder(lines[..i])
    {
      var l := lines[i];
      assert lines[..i + 1][..i] == lines[..i];
      assert lines[..i + 1][i] == l;
      var tag := if !Falsy(l.shortcode) then l.shortcode else l.name;
      assert tag == Label(l);
      TotalsOfKeys(lines[..i]);
      assert (tag in totals) == (tag in labels);
      assert TotalsOf(lines[..i + 1]) ==
        if tag in totals then totals[tag := totals[tag] + l.count] else totals[tag := l.count];
      assert LabelOrder(lines[..i + 1]) == if tag in labels then labels else labels + [tag];
      if tag in totals {
        totals := totals[tag := totals[tag] + l.count];
      } else {
        totals := totals[tag := l.count];
        labels := labels + [tag];
      }
      i := i + 1;
    }
    assert lines[..|lines|] == lines;
  }

  /** `array_sum($item_totals)`. */
  method ArraySum(totals: map<string, nat>, labels: seq<string>) returns (sum: nat)
    requires forall i :: 0 <= i < |labels| ==> labels[i] in totals
    ensures sum == SumLabels(totals, labels)
  {
    sum := 0;
    var i := 0;
    while i < |labels|
      invariant 0 <= i <= |labels|
      invariant sum == SumLabels(totals, labels[..i])
    {
      assert labels[..i + 1][..i] == labels[..i];
      sum := sum + totals[labels[i]];
      i := i + 1;
    }
    assert labels[..|labels|] == labels;
  }

  // ---------------------------------------------------------------- the day details request

  /** The keys of the result rows. */
  function KeysOf(rs: seq<Record>): set<Key>
  {
    set i | 0 <= i < |rs| :: rs[i].key
  }

  /** Rows read from the table with no key twice add up to the table's sum over their keys. */
  lemma {:induction false} RecordsSum(t: Table, rs: seq<Record>)
    requires forall i :: 0 <= i < |rs| ==> rs[i].key in t && t[rs[i].key] == rs[i].row
    requires forall i, j :: 0 <= i < j < |rs| ==> rs[i].key != rs[j].key
    ensures KeysOf(rs) <= t.Keys
    ensures SumRecords(rs) == SumCounts(t, KeysOf(rs))
  {
    if rs != [] {
      var init := rs[..|rs| - 1];
      var last := rs[|rs| - 1];
      assert forall i :: 0 <= i < |init| ==> init[i] == rs[i];
      RecordsSum(t, init);
      assert KeysOf(rs) == KeysOf(init) + {last.key};
      SumCountsAdd(t, KeysOf(init), last.key);
    } else {
      assert KeysOf(rs) == {};
    }
  }

  /** The selected rows add up to the table's sum over the keys the filter selects. */
  lemma SelectionSum(t: Table, f: RowFilter, rs: seq<Record>)
    requires IsSelection(t, f, rs)
    ensures (set k | k in t && Selects(f, k)) <= t.Keys
    ensures SumRecords(rs) == SumCounts(t, set k | k in t && Selects(f, k))
  {
    RecordsSum(t, rs);
    assert KeysOf(rs) == set k | k in t && Selects(f, k);
  }

  /** No room is listed exactly when there are no rows ("No linen counts recorded"). */
  lemma {:induction false} NoRoomsIffNoRows(rs: seq<Record>)
    ensures RoomOrder(rs) == [] <==> rs == []
  {
    if rs != [] {
      var room := rs[|rs| - 1].key.room;
      RoomOrderMembers(rs, room);
      assert rs[|rs| - 1].key.room == room;
    }
  }

  datatype ReportFailure = DateRequired

  /** What the day details modal shows: each room, each item total, and the two totals. */
  datatype DayReport = DayReport(rooms: map<string, RoomDetail>, roomOrder: seq<string>,
                                 itemTotals: map<string, nat>, itemOrder: seq<string>,
                                 totalRooms: nat, totalItems: nat)

  /**
   * `ajax_get_day_details`: `date` is None when the posted date is empty; `results` are the
   * rows of the day query (`IsSelection` with `DayFilter`, sorted by room and item).
   */
  method GetDayDetails(catalogueSettings: Settings.AllSettings, location: int, date: Option<Day>,
                       results: seq<Record>)
    returns (r: Result<DayReport, ReportFailure>)
    ensures date.None? <==> r == Err(DateRequired)
    ensures r.Ok? ==>
      var catalogue := Catalogue(catalogueSettings, location);
      var lines := Lines(RoomsOf(catalogue, results), RoomOrder(results));
      r.value.rooms == RoomsOf(catalogue, results) && r.value.roomOrder == RoomOrder(results) &&
      r.value.itemTotals == TotalsOf(lines) && r.value.itemOrder == LabelOrder(lines) &&
      r.value.totalRooms == |RoomOrder(results)| && r.value.totalItems == SumRecords(results)
  {
    if date.None? {
      return Err(DateRequired);
    }
    var catalogue := if location > 0 then Settings.LinenItems(catalogueSettings, location) else [];
    var rooms, order := GroupByRoom(catalogue, results);
    var lines := Lines(rooms, order);
    var totals, labels := ItemTotals(lines);
    TotalsOfKeys(lines);
    var sum := ArraySum(totals, labels);
    GrandTotalIsRowSum(catalogue, results);
    r := Ok(DayReport(rooms, order, totals, labels, |order|, sum));
  }

  /** The day's grand total is the table's sum over the day's rows at the location. */
  lemma DayTotalIsTableSum(t: Table, catalogueSettings: Settings.AllSettings, location: int, date: Day,
                           results: seq<Record>)
    requires IsSelection(t, DayFilter(location, date), results)
    ensures var keys := set k | k in t && k.date == date && (location > 0 ==> k.location == location);
            keys <= t.Keys &&
            var catalogue := Catalogue(catalogueSettings, location);
            var lines := Lines(RoomsOf(catalogue, results), RoomOrder(results));
            SumLabels(TotalsOf(lines), LabelOrder(lines)) == SumCounts(t, keys)
  {
    var keys := set k | k in t && k.date == date && (location > 0 ==> k.location == location);
    assert keys == set k | k in t && Selects(DayFilter(location, date), k);
    SelectionSum(t, DayFilter(location, date), results);
    GrandTotalIsRowSum(Catalogue(catalogueSettings, location), results);
  }

  // ---------------------------------------------------------------- the month calendar

  /** One row of the calendar query: a service date and its four aggregates. */
  datatype DaySummary = DaySummary(date: Day, roomCount: nat, itemTypes: nat, totalItems: nat, staffCount: nat)

  /** The calendar query's WHERE clause: the month's dates, narrowed to a positive location. */
  function MonthFilter(location: int, firstDate: Day, lastDate: Day): RowFilter
  {
    RowFilter(Some((firstDate, lastDate)), LocationClause(location))
  }

  /** The selected rows of one service date. */
  ghost function DayRows(t: Table, f: RowFilter, date: Day): (ks: set<Key>)
    ensures ks <= t.Keys
  {
    set k | k in t && Selects(f, k) && k.date == date
  }

  /** `COUNT(DISTINCT room_id)`, `COUNT(DISTINCT linen_item_id)`, `SUM(count)`, `COUNT(DISTINCT submitted_by)`. */
  ghost predicate IsDaySummary(t: Table, f: RowFilter, s: DaySummary)
  {
    var ks := DayRows(t, f, s.date);
    ks != {} &&
    s.roomCount == |set k | k in ks :: k.room| &&
    s.itemTypes == |set k | k in ks :: k.item| &&
    s.totalItems == SumCounts(t, ks) &&
    s.staffCount == |set k | k in ks :: t[k].submittedBy|
  }

  /** `GROUP BY service_date`: one summary per date that has selected rows. */
  ghost predicate IsCalendarResult(t: Table, f: RowFilter, results: seq<DaySummary>)
  {
    (forall i :: 0 <= i < |results| ==> IsDaySummary(t, f, results[i])) &&
    (forall k :: k in t && Selects(f, k) ==> exists i :: 0 <= i < |results| && results[i].date == k.date) &&
    (forall i, j :: 0 <= i < j < |results| ==> results[i].date != results[j].date)
  }

  /** `$calendar_data[$row['service_date']] = $row`: a later row for a date replaces an earlier one. */
  function CalendarMap(results: seq<DaySummary>): (data: map<Day, DaySummary>)
    ensures forall i :: 0 <= i < |results| ==> results[i].date in data
    ensures forall d :: d in data ==>
      exists i :: 0 <= i < |results| && results[i] == data[d] && results[i].date == d &&
                  forall j :: i < j < |results| ==> results[j].date != d
  {
    if results == [] then map[]
    else
      var init := results[..|results| - 1];
      var last := results[|results| - 1];
      var data := CalendarMap(init)[last.date := last];
      assert forall i :: 0 <= i < |init| ==> init[i] == results[i];
      assert forall d :: d in data && d != last.date ==>
        exists i :: 0 <= i < |results| && results[i] == data[d] && results[i].date == d &&
                    forall j :: i < j < |results| ==> results[j].date != d;
      data
  }

  /** The loop that keys the calendar rows by date. */
  method CalendarData(results: seq<DaySummary>) returns (data: map<Day, DaySummary>)
    ensures data == CalendarMap(results)
  {
    data := map[];
    var i := 0;
    while i < |results|
      invariant 0 <= i <= |results|
      invariant data == CalendarMap(results[..i])
    {
      assert results[..i + 1][..i] == results[..i];
      data := data[results[i].date := results[i]];
      i := i + 1;
    }
    assert results[..|results|] == results;
  }

  /**
   * The calendar has an entry for a date exactly when the date has selected rows, and the
   * entry holds that date's aggregates; without a positive location every location counts.
   */
  lemma CalendarDataMeaning(t: Table, location: int, firstDate: Day, lastDate: Day,
                            results: seq<DaySummary>, d: Day)
    requires IsCalendarResult(t, MonthFilter(location, firstDate, lastDate), results)
    ensures d in CalendarMap(results) <==>
              exists k :: k in t && k.date == d && firstDate <= d <= lastDate &&
                          (location > 0 ==> k.location == location)
    ensures d in CalendarMap(results) ==>
              IsDaySummary(t, MonthFilter(location, firstDate, lastDate), CalendarMap(results)[d])
  {
    var f := MonthFilter(location, firstDate, lastDate);
    var data := CalendarMap(results);
    if d in data {
      var i :| 0 <= i < |results| && results[i] == data[d] && results[i].date == d;
      assert IsDaySummary(t, f, results[i]);
      var k :| k in DayRows(t, f, d);
      assert k in t && k.date == d && Selects(f, k);
    } else {
      forall k | k in t && k.date == d && firstDate <= d <= lastDate && (location > 0 ==> k.location == location)
        ensures false
      {
        assert Selects(f, k);
      }
    }
  }

  /** One cell of the calendar table. */
  datatype Cell = EmptyDay | CalendarDay(day: nat, date: Day, summary: Option<DaySummary>, today: bool)

  function Blanks(n: nat): (cells: seq<Cell>)
    ensures |cells| == n
  {
    if n == 0 then [] else Blanks(n - 1) + [EmptyDay]
  }

  /** The cell of day `day` (from 1): its date, its summary if the data has one, and whether it is today. */
  function DayCell(firstDate: Day, day: nat, data: map<Day, DaySummary>, today: Day): Cell
  {
    var date := firstDate + day - 1;
    CalendarDay(day, date, if date in data then Some(data[date]) else None, date == today)
  }

  /** The cells of days 1 to `n`, in order. */
  function DayCells(firstDate: Day, n: nat, data: map<Day, DaySummary>, today: Day): (cells: seq<Cell>)
    ensures |cells| == n
  {
    if n == 0 then [] else DayCells(firstDate, n - 1, data, today) + [DayCell(firstDate, n, data, today)]
  }

  /** Cell `i` of the days is day `i + 1`, showing its date's summary when the data has one. */
  lemma {:induction false} DayCellsMeaning(firstDate: Day, n: nat, data: map<Day, DaySummary>, today: Day, i: nat)
    requires i < n
    ensures DayCells(firstDate, n, data, today)[i] ==
      CalendarDay(i + 1, firstDate + i, if firstDate + i in data then Some(data[firstDate + i]) else None,
                  firstDate + i == today)
  {
    if i < n - 1 {
      DayCellsMeaning(firstDate, n - 1, data, today, i);
    }
  }

  /** The empty cells are all empty. */
  lemma {:induction false} BlanksMeaning(n: nat, i: nat)
    requires i < n
    ensures Blanks(n)[i] == EmptyDay
  {
    if i < n - 1 {
      BlanksMeaning(n - 1, i);
    }
  }

  /** The empty cells after the last day: `7 - ((days + weekday) % 7)`, none when that is 7. */
  function Trailing(startWeekday: nat, daysInMonth: nat): nat
  {
    var remaining := 7 - ((daysInMonth + startWeekday) % 7);
    if remaining < 7 then remaining else 0
  }

  /** The trailing cells complete the last week and are never a whole empty week. */
  lemma TrailingCompletesWeek(startWeekday: nat, daysInMonth: nat)
    ensures Trailing(startWeekday, daysInMonth) < 7
    ensures (startWeekday + daysInMonth + Trailing(startWeekday, daysInMonth)) % 7 == 0
  {
  }

  /** A partly filled last week of `n` cells holds `n % 7` of them, or 7 when `n` is a whole number of weeks. */
  lemma LastWeek(weeks: nat, rest: nat, n: nat)
    requires 7 * weeks + rest == n && 1 <= rest <= 7
    ensures n % 7 == 0 ==> rest == 7
    ensures n % 7 != 0 ==> rest == n % 7
  {
  }

  function Flatten(rows: seq<seq<Cell>>): seq<Cell>
  {
    if rows == [] then [] else Flatten(rows[..|rows| - 1]) + rows[|rows| - 1]
  }

  /** The `empty-day` loops: `n` empty cells after `row`. */
  method AppendBlanks(row: seq<Cell>, n: nat) returns (r: seq<Cell>)
    ensures r == row + Blanks(n)
  {
    r := row;
    var i := 0;
    while i < n
      invariant 0 <= i <= n
      invariant r == row + Blanks(i)
    {
      r := r + [EmptyDay];
      i := i + 1;
    }
  }

  /**
   * The days loop of `generate_calendar_html`: before each Sunday but the first day the
   * current week is closed (`</tr><tr>`) and a new one begun. Returns the closed weeks and
   * the open one.
   */
  method FillDays(firstDate: Day, startWeekday: nat, daysInMonth: nat, data: map<Day, DaySummary>, today: Day)
    returns (rows: seq<seq<Cell>>, row: seq<Cell>)
    requires startWeekday < 7 && daysInMonth >= 1
    ensures forall j :: 0 <= j < |rows| ==> |rows[j]| == 7
    ensures 7 * |rows| + |row| == startWeekday + daysInMonth && 1 <= |row| <= 7
    ensures Flatten(rows) + row == Blanks(startWeekday) + DayCells(firstDate, daysInMonth, data, today)
  {
    rows := [];
    row := AppendBlanks([], startWeekday);
    assert DayCells(firstDate, 0, data, today) == [];
    var day := 1;
    while day <= daysInMonth
      invariant 1 <= day <= daysInMonth + 1
      invariant forall j :: 0 <= j < |rows| ==> |rows[j]| == 7
      invariant 7 * |rows| + |row| == startWeekday + day - 1
      invariant |row| <= 7 && (day > 1 ==> |row| >= 1)
      invariant Flatten(rows) + row == Blanks(startWeekday) + DayCells(firstDate, day - 1, data, today)
    {
      var date := firstDate + day - 1;
      var weekday := (startWeekday + day - 1) % 7;
      if weekday == 0 && day > 1 {
        LastWeek(|rows|, |row|, startWeekday + day - 1);
        assert Flatten(rows + [row]) == Flatten(rows) + row by {
          assert (rows + [row])[..|rows|] == rows;
        }
        rows := rows + [row];
        row := [];
      }
      var cell := CalendarDay(day, date, if date in data then Some(data[date]) else None, date == today);
      assert cell == DayCell(firstDate, day, data, today);
      assert DayCells(firstDate, day, data, today) == DayCells(firstDate, day - 1, data, today) + [cell];
      assert Flatten(rows) + (row + [cell]) == (Flatten(rows) + row) + [cell];
      row := row + [cell];
      day := day + 1;
    }
  }

  /**
   * `generate_calendar_html`: empty cells up to the first day's weekday, the days in weeks,
   * then the trailing empty cells that complete the last week. `startWeekday` is `date('w')`
   * of the first day, and day `d` falls on weekday `(startWeekday + d - 1) % 7`.
   */
  method CalendarGrid(firstDate: Day, startWeekday: nat, daysInMonth: nat, data: map<Day, DaySummary>, today: Day)
    returns (rows: seq<seq<Cell>>)
    requires startWeekday < 7 && daysInMonth >= 1
    ensures forall i :: 0 <= i < |rows| ==> |rows[i]| == 7
    ensures Flatten(rows) == Blanks(startWeekday) + DayCells(firstDate, daysInMonth, data, today) +
                             Blanks(Trailing(startWeekday, daysInMonth))
  {
    var row: seq<Cell>;
    rows, row := FillDays(firstDate, startWeekday, daysInMonth, data, today);
    var remaining := 7 - ((daysInMonth + startWeekday) % 7);
    LastWeek(|rows|, |row|, startWeekday + daysInMonth);
    ghost var body := row;
    if remaining < 7 {
      row := AppendBlanks(row, remaining);
    } else {
      assert row == row + Blanks(0);
    }
    assert |row| == 7;
    assert Flatten(rows + [row]) == Flatten(rows) + row by {
      assert (rows + [row])[..|rows|] == rows;
    }
    assert Flatten(rows) + row == (Flatten(rows) + body) + Blanks(Trailing(startWeekday, daysInMonth));
    rows := rows + [row];
  }

  // ---------------------------------------------------------------- the CSV export

  /**
   * One CSV field. `UserName` is the display name the query joins in for a user id (empty
   * when there is no such user); `Missing` is a NULL column.
   */
  datatype Field = Text(text: string) | Number(value: int) | UserName(user: Option<UserId>) | Missing

  const CsvHeader: seq<Field> := [Text("Date"), Text("Room"), Text("Item ID"), Text("Count"),
                                  Text("Submitted By"), Text("Submitted At"), Text("Updated By"),
                                  Text("Updated At"), Text("Booking Ref")]

  /** One data row, its fields in the header's order. */
  function CsvRow(rec: Record): (fields: seq<Field>)
    ensures |fields| == |CsvHeader|
  {
    [Number(rec.key.date), Text(rec.key.room), Text(rec.key.item), Number(rec.row.count),
     UserName(Some(rec.row.submittedBy)), Number(rec.row.submittedAt), UserName(rec.row.lastUpdatedBy),
     if rec.row.lastUpdatedAt.Some? then Number(rec.row.lastUpdatedAt.value) else Missing,
     Text(rec.row.bookingRef)]
  }

  /** The export keeps every column of a row except its location and its lock flag. */
  lemma CsvRowLosesOnlyLocationAndLock(a: Record, b: Record)
    requires a.key.location == b.key.location && a.row.isLocked == b.row.isLocked
    ensures CsvRow(a) == CsvRow(b) <==> a == b
  {
    if CsvRow(a) == CsvRow(b) {
      assert CsvRow(a)[0] == CsvRow(b)[0] && CsvRow(a)[1] == CsvRow(b)[1] && CsvRow(a)[2] == CsvRow(b)[2];
      assert CsvRow(a)[3] == CsvRow(b)[3] && CsvRow(a)[4] == CsvRow(b)[4] && CsvRow(a)[5] == CsvRow(b)[5];
      assert CsvRow(a)[6] == CsvRow(b)[6] && CsvRow(a)[7] == CsvRow(b)[7] && CsvRow(a)[8] == CsvRow(b)[8];
      assert a.key == b.key;
    }
  }

  /** `generate_csv`: the header line, then one line per result row in result order. */
  method GenerateCsv(results: seq<Record>) returns (csv: seq<seq<Field>>)
    ensures |csv| == |results| + 1 && csv[0] == CsvHeader
    ensures forall i :: 0 <= i < |results| ==> csv[i + 1] == CsvRow(results[i])
  {
    csv := [CsvHeader];
    var i := 0;
    while i < |results|
      invariant 0 <= i <= |results|
      invariant |csv| == i + 1 && csv[0] == CsvHeader
      invariant forall j :: 0 <= j < i ==> csv[j + 1] == CsvRow(results[j])
    {
      var line := CsvRow(results[i]);
      csv := csv + [line];
      i := i + 1;
    }
  }

  /** In `ORDER BY service_date, ...` order the CSV's date column never decreases. */
  lemma CsvDatesAscend(results: seq<Record>, csv: seq<seq<Field>>, i: int, j: int)
    requires SortedByDateRoomItem(results)
    requires |csv| == |results| + 1 && forall k :: 0 <= k < |results| ==> csv[k + 1] == CsvRow(results[k])
    requires 1 <= i < j < |csv|
    ensures |csv[i]| > 0 && |csv[j]| > 0 && csv[i][0].Number? && csv[j][0].Number? &&
            csv[i][0].value <= csv[j][0].value
  {
    assert DateRoomItemLe(results[i - 1].key, results[j - 1].key);
  }

  /** Distinct rows have as many keys as rows. */
  lemma {:induction false} KeysOfSize(rs: seq<Record>)
    requires forall i, j :: 0 <= i < j < |rs| ==> rs[i].key != rs[j].key
    ensures |KeysOf(rs)| == |rs|
  {
    if rs != [] {
      var init := rs[..|rs| - 1];
      assert forall i :: 0 <= i < |init| ==> init[i] == rs[i];
      KeysOfSize(init);
      assert KeysOf(rs) == KeysOf(init) + {rs[|rs| - 1].key};
    } else {
      assert KeysOf(rs) == {};
    }
  }

  /** The export has one data line per table row its filter selects. */
  lemma ExportLineCount(t: Table, location: int, startDate: Option<Day>, endDate: Option<Day>,
                        results: seq<Record>, csv: seq<seq<Field>>)
    requires IsSelection(t, ExportFilter(location, startDate, endDate), results)
    requires |csv| == |results| + 1
    ensures |csv| - 1 == |set k | k in t && Selects(ExportFilter(location, startDate, endDate), k)|
  {
    KeysOfSize(results);
    assert KeysOf(results) == set k | k in t && Selects(ExportFilter(location, startDate, endDate), k);
  }

  /** The export's response: the file's date stamp and its lines (base64 encoding is not modelled). */
  datatype ExportFile = ExportFile(filenameDate: Day, lines: seq<seq<Field>>)

  /**
   * `ajax_export_report`: `format` is None when not posted (then 'csv'); only 'csv' produces
   * a response. `results` are the rows of the export query (`IsSelection` with `ExportFilter`).
   */
  method ExportReport(format: Option<string>, today: Day, results: seq<Record>) returns (r: Option<ExportFile>)
    ensures r.Some? <==> format.None? || format.value == "csv"
    ensures r.Some? ==> r.value.filenameDate == today && |r.value.lines| == |results| + 1 &&
                        r.value.lines[0] == CsvHeader &&
                        forall i :: 0 <= i < |results| ==> r.value.lines[i + 1] == CsvRow(results[i])
  {
    var fmt := if format.Some? then format.value else "csv";
    if fmt == "csv" {
      var csv := GenerateCsv(results);
      return Some(ExportFile(today, csv));
    }
    return None;
  }
}
