/**
 * The per-location settings of the linen count module (the `hhlc_location_settings`
 * option): which locations have the module enabled and which linen items they count.
 */
module Settings {
  import opened Common

  /** One configured linen item, as stored; `packQty` and `targetStockQty` hold `intval` results. */
  datatype LinenItem = LinenItem(
    id: string,
    name: string,
    shortcode: string,
    size: string,
    packQty: int,
    targetStockQty: int)

  /** One location's entry; a key absent from the stored PHP array is `None`. */
  datatype LocationSettings = LocationSettings(enabled: Option<bool>, linenItems: Option<seq<LinenItem>>)

  /** The whole option: location id to that location's settings. */
  type AllSettings = map<int, LocationSettings>

  /** What the admin form posts for one location: whether the `enabled` checkbox was sent,
      and the decoded `linen_items_json` (None when absent or not a JSON array). */
  datatype PostedLocation = PostedLocation(enabledChecked: bool, linenItemsJson: Option<seq<LinenItem>>)

  /** `sanitize_text_field` is a host library function; the model takes it as a parameter. */
  type Sanitizer = string -> string

  ghost predicate Idempotent(clean: Sanitizer)
  {
    forall s :: clean(clean(s)) == clean(s)
  }

  /** The sanitiser never turns text that PHP considers non-empty into empty text. */
  ghost predicate KeepsNonEmpty(clean: Sanitizer)
  {
    forall s :: !Falsy(s) ==> !Falsy(clean(s))
  }

  /** An item survives sanitising when its name or its shortcode is non-empty (PHP `empty`). */
  predicate Keeps(item: LinenItem)
  {
    !Falsy(item.name) || !Falsy(item.shortcode)
  }

  function SanitizeItem(clean: Sanitizer, item: LinenItem): (r: LinenItem)
    ensures r.packQty >= 1 && r.targetStockQty >= 0
    ensures item.packQty >= 1 ==> r.packQty == item.packQty
    ensures item.targetStockQty >= 0 ==> r.targetStockQty == item.targetStockQty
  {
    LinenItem(clean(item.id), clean(item.name), clean(item.shortcode), clean(item.size),
              Max(1, item.packQty), Max(0, item.targetStockQty))
  }

  /** The number of items of `items` that survive sanitising. */
  function CountKept(items: seq<LinenItem>): nat
  {
    if items == [] then 0
    else CountKept(items[..|items| - 1]) + (if Keeps(items[|items| - 1]) then 1 else 0)
  }

  /** The item list a sanitising loop appends, one surviving item at a time. */
  function SanitizedItems(clean: Sanitizer, items: seq<LinenItem>): (r: seq<LinenItem>)
    ensures |r| == CountKept(items)
    ensures forall j :: 0 <= j < |r| ==> r[j].packQty >= 1 && r[j].targetStockQty >= 0
  {
    if items == [] then []
    else
      var init := SanitizedItems(clean, items[..|items| - 1]);
      var last := items[|items| - 1];
      if Keeps(last) then init + [SanitizeItem(clean, last)] else init
  }

  function SanitizedLocation(clean: Sanitizer, s: LocationSettings): LocationSettings
  {
    LocationSettings(
      Some(s.enabled == Some(true)),
      Some(if s.linenItems.Some? then SanitizedItems(clean, s.linenItems.value) else []))
  }

  /** What `sanitize_settings` returns; None stands for an input that is not a PHP array. */
  function SanitizedSettings(clean: Sanitizer, input: Option<AllSettings>): (r: AllSettings)
    ensures input.None? ==> r == map[]
    ensures input.Some? ==> r.Keys == input.value.Keys
    ensures forall loc :: loc in r ==> r[loc].enabled.Some? && r[loc].linenItems.Some?
    ensures forall loc :: loc in r ==>
      forall j :: 0 <= j < |r[loc].linenItems.value| ==>
        r[loc].linenItems.value[j].packQty >= 1 && r[loc].linenItems.value[j].targetStockQty >= 0
    ensures input.Some? ==> forall loc :: loc in input.value && input.value[loc].enabled.None? ==>
      r[loc].enabled == Some(false)
  {
    if input.None? then map[]
    else map loc | loc in input.value :: SanitizedLocation(clean, input.value[loc])
  }

  /** What `save_settings` stores for one posted location. */
  function SavedLocation(clean: Sanitizer, p: PostedLocation): LocationSettings
  {
    LocationSettings(
      Some(p.enabledChecked),
      Some(if p.linenItemsJson.Some? then SanitizedItems(clean, p.linenItemsJson.value) else []))
  }

  /** The linen-item filtering loop shared by `save_settings` and `sanitize_settings`. */
  method FilterItems(clean: Sanitizer, items: seq<LinenItem>) returns (kept: seq<LinenItem>)
    ensures kept == SanitizedItems(clean, items)
  {
    kept := [];
    var i := 0;
    while i < |items|
      invariant 0 <= i <= |items|
      invariant kept == SanitizedItems(clean, items[..i])
    {
      assert items[..i + 1][..i] == items[..i];
      if Keeps(items[i]) {
        kept := kept + [SanitizeItem(clean, items[i])];
      }
      i := i + 1;
    }
    assert items[..|items|] == items;
  }

  /** `sanitize_settings`: rebuilds every location's entry from its raw value. */
  method SanitizeSettings(clean: Sanitizer, settings: Option<AllSettings>) returns (sanitized: AllSettings)
    ensures sanitized == SanitizedSettings(clean, settings)
  {
    if settings.None? {
      return map[];
    }
    var all := settings.value;
    sanitized := map[];
    var pending := all.Keys;
    while pending != {}
      invariant pending <= all.Keys
      invariant sanitized == map loc | loc in all.Keys - pending :: SanitizedLocation(clean, all[loc])
      decreases pending
    {
      EmptyOrMember(pending);
      var loc :| loc in pending;
      var items := [];
      if all[loc].linenItems.Some? {
        items := FilterItems(clean, all[loc].linenItems.value);
      }
      sanitized := sanitized[loc := LocationSettings(Some(all[loc].enabled == Some(true)), Some(items))];
      pending := pending - {loc};
    }
  }

  /**
   * `save_settings`: overwrites the entry of every posted location and keeps the others, then
   * hands the merged array to `update_option`, which passes it through the `sanitize_callback`
   * registered for the option, so what is stored is `sanitize_settings` of the merge.
   * None stands for the `wp_die` taken when the user lacks `manage_options`.
   */
  method SaveSettings(clean: Sanitizer, canManageOptions: bool, existing: AllSettings,
                      posted: map<int, PostedLocation>) returns (saved: Option<AllSettings>)
    ensures !canManageOptions <==> saved.None?
    ensures saved.Some? ==> saved.value.Keys == existing.Keys + posted.Keys
    ensures saved.Some? ==> forall loc :: loc in existing && loc !in posted ==>
      saved.value[loc] == SanitizedLocation(clean, existing[loc])
    ensures saved.Some? ==> forall loc :: loc in posted ==>
      saved.value[loc] == SanitizedLocation(clean, SavedLocation(clean, posted[loc]))
    ensures saved.Some? ==> forall loc :: loc in posted ==>
      (saved.value[loc].enabled == Some(true) <==> posted[loc].enabledChecked)
    ensures saved.Some? ==> forall loc :: loc in existing && loc !in posted && existing[loc].enabled.None? ==>
      saved.value[loc].enabled == Some(false)
  {
    if !canManageOptions {
      return None;
    }
    var all := existing;
    var pending := posted.Keys;
    while pending != {}
      invariant pending <= posted.Keys
      invariant all.Keys == existing.Keys + (posted.Keys - pending)
      invariant forall loc :: loc in existing && loc !in posted.Keys - pending ==> all[loc] == existing[loc]
      invariant forall loc :: loc in posted.Keys - pending ==> all[loc] == SavedLocation(clean, posted[loc])
      decreases pending
    {
      EmptyOrMember(pending);
      var loc :| loc in pending;
      var items := [];
      if posted[loc].linenItemsJson.Some? {
        items := FilterItems(clean, posted[loc].linenItemsJson.value);
      }
      all := all[loc := LocationSettings(Some(posted[loc].enabledChecked), Some(items))];
      pending := pending - {loc};
    }
    var stored := SanitizeSettings(clean, Some(all));
    saved := Some(stored);
  }

  /** `get_location_settings`: an unknown location reads as an empty array. */
  function LocationSettingsFor(all: AllSettings, locationId: int): (r: LocationSettings)
    ensures locationId !in all ==> r.enabled.None? && r.linenItems.None?
    ensures locationId in all ==> r == all[locationId]
  {
    if locationId in all then all[locationId] else LocationSettings(None, None)
  }

  /** `get_linen_items`: empty for an unknown location or one without a stored list. */
  function LinenItems(all: AllSettings, locationId: int): (r: seq<LinenItem>)
    ensures locationId !in all ==> r == []
    ensures locationId in all && all[locationId].linenItems.Some? ==> r == all[locationId].linenItems.value
    ensures locationId in all && all[locationId].linenItems.None? ==> r == []
  {
    var s := LocationSettingsFor(all, locationId);
    if s.linenItems.Some? then s.linenItems.value else []
  }

  /** `is_enabled_for_location`: a location with no stored `enabled` value is enabled. */
  function IsEnabledForLocation(all: AllSettings, locationId: int): (r: bool)
    ensures locationId !in all ==> r
    ensures locationId in all && all[locationId].enabled.None? ==> r
    ensures locationId in all && all[locationId].enabled.Some? ==> r == all[locationId].enabled.value
  {
    var s := LocationSettingsFor(all, locationId);
    if s.enabled.Some? then s.enabled.value else true
  }

  /** Item `i`, if it survives, lands at the position given by the survivors before it. */
  lemma {:induction false} SanitizedItemsPlacement(clean: Sanitizer, items: seq<LinenItem>, i: int)
    requires 0 <= i < |items| && Keeps(items[i])
    ensures CountKept(items[..i]) < |SanitizedItems(clean, items)|
    ensures SanitizedItems(clean, items)[CountKept(items[..i])] == SanitizeItem(clean, items[i])
  {
    var n := |items|;
    var prefix := items[..n - 1];
    if i == n - 1 {
      assert items[..i] == prefix;
    } else {
      assert items[..i] == prefix[..i];
      SanitizedItemsPlacement(clean, prefix, i);
    }
  }

  /** Survivors keep their relative order: a surviving item precedes every later one. */
  lemma {:induction false} SurvivorsKeepOrder(items: seq<LinenItem>, i: int, j: int)
    requires 0 <= i < j <= |items| && Keeps(items[i])
    ensures CountKept(items[..i]) < CountKept(items[..j])
    decreases j
  {
    if j == i + 1 {
      assert items[..j][..i] == items[..i];
    } else {
      assert items[..j][..j - 1] == items[..j - 1];
      SurvivorsKeepOrder(items, i, j - 1);
    }
  }

  /** A dropped item contributes nothing: the survivors are exactly the kept items. */
  lemma {:induction false} DroppedItemsVanish(clean: Sanitizer, items: seq<LinenItem>, i: int)
    requires 0 <= i < |items| && !Keeps(items[i])
    ensures CountKept(items[..i + 1]) == CountKept(items[..i])
  {
    assert items[..i + 1][..i] == items[..i];
  }

  lemma {:induction false} SanitizeItemTwice(clean: Sanitizer, item: LinenItem)
    requires Idempotent(clean)
    ensures SanitizeItem(clean, SanitizeItem(clean, item)) == SanitizeItem(clean, item)
  {
    assert clean(clean(item.id)) == clean(item.id);
    assert clean(clean(item.name)) == clean(item.name);
    assert clean(clean(item.shortcode)) == clean(item.shortcode);
    assert clean(clean(item.size)) == clean(item.size);
  }

  lemma {:induction false} SanitizedItemsTwice(clean: Sanitizer, items: seq<LinenItem>)
    requires Idempotent(clean) && KeepsNonEmpty(clean)
    ensures SanitizedItems(clean, SanitizedItems(clean, items)) == SanitizedItems(clean, items)
  {
    if items != [] {
      var prefix := items[..|items| - 1];
      var last := items[|items| - 1];
      var once := SanitizedItems(clean, prefix);
      SanitizedItemsTwice(clean, prefix);
      if Keeps(last) {
        var s := SanitizeItem(clean, last);
        assert !Falsy(last.name) ==> !Falsy(clean(last.name));
        assert !Falsy(last.shortcode) ==> !Falsy(clean(last.shortcode));
        assert Keeps(s);
        SanitizeItemTwice(clean, last);
        assert (once + [s])[..|once + [s]| - 1] == once;
      }
    }
  }

  /**
   * Sanitising twice equals sanitising once, provided `sanitize_text_field` is idempotent
   * and never empties a non-empty name or shortcode.
   */
  lemma SanitizeSettingsTwice(clean: Sanitizer, input: Option<AllSettings>)
    requires Idempotent(clean) && KeepsNonEmpty(clean)
    ensures SanitizedSettings(clean, Some(SanitizedSettings(clean, input))) == SanitizedSettings(clean, input)
  {
    var once := SanitizedSettings(clean, input);
    var twice := SanitizedSettings(clean, Some(once));
    forall loc | loc in once
      ensures twice[loc] == once[loc]
    {
      var s := once[loc];
      assert s.enabled.Some? && s.linenItems.Some?;
      var raw := input.value[loc];
      if raw.linenItems.Some? {
        SanitizedItemsTwice(clean, raw.linenItems.value);
      }
      assert twice[loc] == SanitizedLocation(clean, s);
      assert SanitizedLocation(clean, s).enabled == s.enabled;
      assert SanitizedLocation(clean, s).linenItems == s.linenItems;
    }
  }

  /** Without the second assumption idempotence fails: an item whose only text is markup. */
  lemma SanitizeSettingsNotIdempotent()
    ensures var clean: Sanitizer := s => if s == "<b></b>" then "" else s;
            var item := LinenItem("sheet", "<b></b>", "", "", 1, 0);
            var input := Some(map[1 := LocationSettings(Some(true), Some([item]))]);
            Idempotent(clean) &&
            SanitizedSettings(clean, Some(SanitizedSettings(clean, input))) != SanitizedSettings(clean, input)
  {
    var clean: Sanitizer := s => if s == "<b></b>" then "" else s;
    var item := LinenItem("sheet", "<b></b>", "", "", 1, 0);
    var input := Some(map[1 := LocationSettings(Some(true), Some([item]))]);
    forall s ensures clean(clean(s)) == clean(s) {
    }
    var once := SanitizedSettings(clean, input);
    assert [item][..0] == [];
    assert SanitizedItems(clean, [item]) == [SanitizeItem(clean, item)];
    var cleaned := SanitizeItem(clean, item);
    assert cleaned.name == "" && cleaned.shortcode == "";
    assert once[1].linenItems == Some([cleaned]);
    assert [cleaned][..0] == [];
    assert SanitizedItems(clean, [cleaned]) == [];
  }

  /**
   * For a text sanitiser that is idempotent and never empties non-empty text, the second pass
   * that `update_option` makes changes nothing about a posted location: its items are the
   * ones the save loop built and `enabled` is the checkbox.
   */
  lemma SavedLocationIsSanitized(clean: Sanitizer, p: PostedLocation)
    requires Idempotent(clean) && KeepsNonEmpty(clean)
    ensures SanitizedLocation(clean, SavedLocation(clean, p)).linenItems == SavedLocation(clean, p).linenItems
    ensures SanitizedLocation(clean, SavedLocation(clean, p)).enabled == Some(p.enabledChecked)
  {
    if p.linenItemsJson.Some? {
      SanitizedItemsTwice(clean, p.linenItemsJson.value);
    }
  }

  /**
   * `sanitize_text_field` strips tags, so it can empty a non-empty name. An item posted with
   * the name `<b></b>` passes the save loop's test on the raw text, is cleaned to empty text,
   * and is then dropped by the second pass: the stored location has no items.
   */
  lemma SecondPassDropsMarkupItem()
    ensures var clean: Sanitizer := s => if s == "<b></b>" then "" else s;
            var p := PostedLocation(true, Some([LinenItem("sheet", "<b></b>", "", "", 1, 0)]));
            Idempotent(clean) &&
            |SavedLocation(clean, p).linenItems.value| == 1 &&
            SanitizedLocation(clean, SavedLocation(clean, p)).linenItems == Some([])
  {
    var clean: Sanitizer := s => if s == "<b></b>" then "" else s;
    var item := LinenItem("sheet", "<b></b>", "", "", 1, 0);
    forall s ensures clean(clean(s)) == clean(s) {
    }
    assert [item][..0] == [];
    assert SanitizedItems(clean, [item]) == [SanitizeItem(clean, item)];
    var cleaned := SanitizeItem(clean, item);
    assert cleaned.name == "" && cleaned.shortcode == "";
    assert [cleaned][..0] == [];
    assert SanitizedItems(clean, [cleaned]) == [];
  }
}
