/**
 * The list form of the AMS object and the loops over it (bridge/ams.py): `merge_ams` edits
 * sorted unit and tray lists, `parse_ams` flattens them into slot rows.
 */
module AmsReport {
  import opened Base
  import opened Keyed
  import opened Ams
  import opened AmsRedelivery

  ghost predicate SortedUnits(units: seq<Unit>) {
    Sorted(units) && forall unit <- units :: Sorted(unit.body.trays)
  }

  /** Ids are unique and increasing: the shape every merge leaves behind. */
  ghost predicate WellFormed(ams: AmsObject) { ams.units.Some? ==> SortedUnits(ams.units.value) }

  function ViewOf(unit: UnitBody): UnitView { UnitView(unit.fields, Index(unit.trays)) }

  function Views(units: map<nat, UnitBody>): map<nat, UnitView> { map u | u in units :: ViewOf(units[u]) }

  function View(ams: AmsObject): AmsView {
    AmsView(
      if ams.units.None? then None else Some(Views(Index(ams.units.value))), ams.trayBits, ams.unitBits, ams.fields)
  }

  ghost predicate TraysSorted(units: map<nat, UnitBody>) { forall u <- units :: Sorted(units[u].trays) }

  lemma {:induction false} IndexedTraysSorted(units: seq<Unit>)
    requires forall unit <- units :: Sorted(unit.body.trays)
    ensures TraysSorted(Index(units))
  {
    if units != [] {
      IndexedTraysSorted(units[..|units| - 1]);
    }
  }

  /** A well-formed AMS is the only one that stands for its view. */
  lemma ViewUnique(a: AmsObject, b: AmsObject)
    requires WellFormed(a) && WellFormed(b) && View(a) == View(b)
    ensures a == b
  {
    if a.units.Some? {
      var x, y := Index(a.units.value), Index(b.units.value);
      IndexedTraysSorted(a.units.value);
      IndexedTraysSorted(b.units.value);
      forall u
        ensures u in x <==> u in y
        ensures u in x ==> x[u] == y[u]
      {
        assert u in x <==> u in Views(x);
        assert u in y <==> u in Views(y);
        if u in x {
          assert Views(x)[u] == ViewOf(x[u]) && Views(y)[u] == ViewOf(y[u]);
          SortedListUnique(x[u].trays, y[u].trays);
        }
      }
      assert x == y;
      SortedListUnique(a.units.value, b.units.value);
    }
  }

  // ---------------------------------------------------------------------------
  // The loops of merge_ams
  // ---------------------------------------------------------------------------

  ghost function MergedSoFar(base: Fields, incoming: Fields, left: set<Key>): Fields {
    map key | key in base.Keys + incoming.Keys && (key in base || (key !in left && Takes(base, incoming, key))) ::
      if key in incoming && key !in left && Takes(base, incoming, key) then incoming[key] else base[key]
  }

  lemma MergedStep(base: Fields, incoming: Fields, left: set<Key>, key: Key)
    requires key in left && left <= incoming.Keys
    ensures MergedSoFar(base, incoming, left - {key}) ==
            if Takes(base, incoming, key) then MergedSoFar(base, incoming, left)[key := incoming[key]]
            else MergedSoFar(base, incoming, left)
    ensures Get(MergedSoFar(base, incoming, left), key) == Get(base, key)
  {
  }

  /** `_merge_tray`, key by key. */
  method MergeTrayFields(stored: Fields, incoming: Fields) returns (merged: Fields)
    ensures merged == MergeTray(stored, incoming)
  {
    merged := stored;
    if TrayColor in incoming || Cols in incoming {
      merged := merged - {TrayColor, Cols};
    }
    ghost var base := ColourBase(stored, incoming);
    assert merged == base;
    var left := incoming.Keys;
    while left != {}
      invariant left <= incoming.Keys
      invariant merged == MergedSoFar(base, incoming, left)
      decreases left
    {
      var key :| key in left;
      MergedStep(base, incoming, left, key);
      var value := incoming[key];
      if IsReading(key) {
        merged := merged[key := value];
      } else if IsIdentity(key) {
        if RealIdentity(value) || TaglessReading(incoming) || !RealIdentity(Get(merged, key)) {
          merged := merged[key := value];
        }
      } else if value !in {Null, Text("")} {
        merged := merged[key := value];
      }
      left := left - {key};
    }
  }

  method UpdateOneTray(unitId: nat, trays: map<nat, Fields>, tray: Tray, bits: Option<set<nat>>)
    returns (after: map<nat, Fields>)
    ensures after == UpdateTray(unitId, trays, tray, bits)
  {
    var held: Fields := if tray.id in trays then trays[tray.id] else map[];
    if TrayPresence(unitId, tray, bits) == Some(false) {
      after := trays[tray.id := BlankTray(held + tray.body)];
    } else {
      var merged := MergeTrayFields(held, tray.body);
      after := trays[tray.id := merged];
    }
  }

  /** The tray loop of `_merge_units`: one unit's report onto its stored trays. */
  method MergeTrays(unit: Unit, stored: seq<Tray>, bits: Option<set<nat>>) returns (list: seq<Tray>)
    ensures Sorted(list) && Index(list) == FoldTrays(unit.id, Index(stored), unit.body.trays, bits)
  {
    var trays := IndexList(stored);
    for j := 0 to |unit.body.trays|
      invariant trays == FoldTrays(unit.id, Index(stored), unit.body.trays[..j], bits)
    {
      var tray := unit.body.trays[j];
      assert unit.body.trays[..j + 1][..j] == unit.body.trays[..j];
      trays := UpdateOneTray(unit.id, trays, tray, bits);
    }
    assert unit.body.trays[..|unit.body.trays|] == unit.body.trays;
    list := ListSorted(trays);
  }

  lemma UpdateUnitViews(byId: map<nat, UnitBody>, unit: Unit, list: seq<Tray>, bits: Option<set<nat>>)
    requires var stored := if unit.id in byId then byId[unit.id] else UnitBody(map[], []);
             Index(list) == FoldTrays(unit.id, Index(stored.trays), unit.body.trays, bits)
    ensures var stored := if unit.id in byId then byId[unit.id] else UnitBody(map[], []);
            Views(byId[unit.id := UnitBody(stored.fields + unit.body.fields, list)]) ==
              UpdateUnit(Views(byId), unit, bits)
  {
    var stored := if unit.id in byId then byId[unit.id] else UnitBody(map[], []);
    EmptyIndex<Fields>([]);
    assert ViewOf(stored) == if unit.id in Views(byId) then Views(byId)[unit.id] else NO_UNIT;
  }

  /** `_merge_units`: every unit the delta names, in the order it names them. */
  method MergeUnits(previous: seq<Unit>, incoming: seq<Unit>, bits: Option<set<nat>>) returns (units: seq<Unit>)
    requires SortedUnits(previous)
    ensures SortedUnits(units)
    ensures Views(Index(units)) == FoldUnits(Views(Index(previous)), incoming, bits)
  {
    var byId: map<nat, UnitBody> := IndexList(previous);
    IndexedTraysSorted(previous);
    for i := 0 to |incoming|
      invariant TraysSorted(byId)
      invariant Views(byId) == FoldUnits(Views(Index(previous)), incoming[..i], bits)
    {
      var unit := incoming[i];
      assert incoming[..i + 1][..i] == incoming[..i];
      var stored := if unit.id in byId then byId[unit.id] else UnitBody(map[], []);
      var list := MergeTrays(unit, stored.trays, bits);
      UpdateUnitViews(byId, unit, list, bits);
      byId := byId[unit.id := UnitBody(stored.fields + unit.body.fields, list)];
    }
    assert incoming[..|incoming|] == incoming;
    units := ListSorted(byId);
  }

  ghost function Present(units: map<nat, UnitBody>, unitBits: Option<set<nat>>): map<nat, UnitBody> {
    map u | u in units && !UnitGone(unitBits, u) :: units[u]
  }

  lemma SortedMore(units: seq<Unit>, unit: Unit)
    requires SortedUnits(units) && Sorted(unit.body.trays) && forall k :: 0 <= k < |units| ==> units[k].id < unit.id
    ensures SortedUnits(units + [unit])
  {
    forall u | u in units + [unit]
      ensures Sorted(u.body.trays)
    {
      assert u in units || u == unit;
    }
  }

  /** What the loop kept of the first `i` units. */
  ghost predicate Kept(kept: seq<Unit>, units: seq<Unit>, i: nat, unitBits: Option<set<nat>>) {
    i <= |units| && SortedUnits(kept) && Index(kept) == Present(Index(units[..i]), unitBits) &&
    (i > 0 ==> forall k :: 0 <= k < |kept| ==> kept[k].id <= units[i - 1].id)
  }

  lemma KeptNext(kept: seq<Unit>, units: seq<Unit>, i: nat, unitBits: Option<set<nat>>)
    requires SortedUnits(units) && i < |units| && Kept(kept, units, i, unitBits)
    ensures if UnitGone(unitBits, units[i].id) then Kept(kept, units, i + 1, unitBits)
            else Kept(kept + [units[i]], units, i + 1, unitBits)
  {
    var unit := units[i];
    assert unit in units;
    assert i > 0 ==> units[i - 1].id < unit.id;
    EmptyIndex<UnitBody>(kept);
    IndexPrefix(units, i);
    PresentStep(Index(units[..i]), unit, unitBits);
    if !UnitGone(unitBits, unit.id) {
      SortedMore(kept, unit);
      IndexAppend(kept, unit);
    }
  }

  /** `_drop_units_the_printer_no_longer_has` */
  method DropUnits(units: seq<Unit>, unitBits: Option<set<nat>>) returns (kept: seq<Unit>)
    requires SortedUnits(units)
    ensures SortedUnits(kept) && Index(kept) == Present(Index(units), unitBits)
  {
    kept := [];
    for i := 0 to |units|
      invariant Kept(kept, units, i, unitBits)
    {
      KeptNext(kept, units, i, unitBits);
      if !UnitGone(unitBits, units[i].id) {
        kept := kept + [units[i]];
      }
    }
    assert units[..|units|] == units;
  }

  lemma PresentStep(units: map<nat, UnitBody>, unit: Unit, unitBits: Option<set<nat>>)
    ensures Present(units[unit.id := unit.body], unitBits) ==
            if UnitGone(unitBits, unit.id) then Present(units, unitBits)
            else Present(units, unitBits)[unit.id := unit.body]
  {
  }

  ghost function BlankedTrays(unitId: nat, trays: map<nat, Fields>, bits: Option<set<nat>>): map<nat, Fields> {
    map t | t in trays :: if TrayCleared(bits, unitId, t) then BlankTray(trays[t]) else trays[t]
  }

  lemma BlankedTraysStep(unitId: nat, trays: map<nat, Fields>, tray: Tray, bits: Option<set<nat>>)
    ensures BlankedTrays(unitId, trays[tray.id := tray.body], bits) ==
            BlankedTrays(unitId, trays, bits)[
              tray.id := if TrayCleared(bits, unitId, tray.id) then BlankTray(tray.body) else tray.body]
  {
  }

  /** `_blank_trays_the_bits_call_empty`, one unit's list. */
  method BlankTrays(unitId: nat, list: seq<Tray>, bits: Option<set<nat>>) returns (trays: seq<Tray>)
    requires Sorted(list)
    ensures Sorted(trays) && Index(trays) == BlankedTrays(unitId, Index(list), bits)
  {
    trays := [];
    for i := 0 to |list|
      invariant |trays| == i && forall k :: 0 <= k < i ==> trays[k].id == list[k].id
      invariant Index(trays) == BlankedTrays(unitId, Index(list[..i]), bits)
    {
      IndexPrefix(list, i);
      BlankedTraysStep(unitId, Index(list[..i]), list[i], bits);
      var next := if TrayCleared(bits, unitId, list[i].id) then Entry(list[i].id, BlankTray(list[i].body)) else list[i];
      IndexAppend(trays, next);
      trays := trays + [next];
    }
    assert list[..|list|] == list;
  }

  ghost function BlankedUnits(units: map<nat, UnitView>, bits: Option<set<nat>>): map<nat, UnitView> {
    map u | u in units :: BlankUnit(u, units[u], bits)
  }

  lemma BlankedUnitsStep(units: map<nat, UnitBody>, unit: Unit, list: seq<Tray>, bits: Option<set<nat>>)
    requires Index(list) == BlankedTrays(unit.id, Index(unit.body.trays), bits)
    ensures BlankedUnits(Views(units[unit.id := unit.body]), bits) ==
            BlankedUnits(Views(units), bits)[unit.id := ViewOf(UnitBody(unit.body.fields, list))]
  {
    ViewsStep(units, unit);
    assert BlankUnit(unit.id, ViewOf(unit.body), bits) == ViewOf(UnitBody(unit.body.fields, list));
    BlankedStep(Views(units), unit.id, ViewOf(unit.body), bits);
  }

  lemma BlankedStep(units: map<nat, UnitView>, id: nat, unit: UnitView, bits: Option<set<nat>>)
    ensures BlankedUnits(units[id := unit], bits) == BlankedUnits(units, bits)[id := BlankUnit(id, unit, bits)]
  {
  }

  lemma ViewsStep(units: map<nat, UnitBody>, unit: Unit)
    ensures Views(units[unit.id := unit.body]) == Views(units)[unit.id := ViewOf(unit.body)]
  {
  }

  lemma BlankedAppend(units: map<nat, UnitBody>, unit: Unit, blanked: seq<Unit>, next: Unit, bits: Option<set<nat>>)
    requires Views(Index(blanked)) == BlankedUnits(Views(units), bits)
    requires next.id == unit.id && next.body.fields == unit.body.fields
    requires Index(next.body.trays) == BlankedTrays(unit.id, Index(unit.body.trays), bits)
    ensures Views(Index(blanked + [next])) == BlankedUnits(Views(units[unit.id := unit.body]), bits)
  {
    BlankedUnitsStep(units, unit, next.body.trays, bits);
    IndexAppend(blanked, next);
    ViewsStep(Index(blanked), next);
  }

  method BlankUnits(units: seq<Unit>, bits: Option<set<nat>>) returns (blanked: seq<Unit>)
    requires SortedUnits(units)
    ensures SortedUnits(blanked) && Views(Index(blanked)) == BlankedUnits(Views(Index(units)), bits)
  {
    blanked := [];
    for i := 0 to |units|
      invariant |blanked| == i
      invariant forall k :: 0 <= k < i ==> blanked[k].id == units[k].id && Sorted(blanked[k].body.trays)
      invariant Views(Index(blanked)) == BlankedUnits(Views(Index(units[..i])), bits)
    {
      IndexPrefix(units, i);
      var list := BlankTrays(units[i].id, units[i].body.trays, bits);
      var next := Entry(units[i].id, UnitBody(units[i].body.fields, list));
      BlankedAppend(Index(units[..i]), units[i], blanked, next, bits);
      blanked := blanked + [next];
    }
    assert units[..|units|] == units;
  }

  lemma SettleInTwoSteps(units: map<nat, UnitBody>, unitBits: Option<set<nat>>, bits: Option<set<nat>>)
    ensures BlankedUnits(Views(Present(units, unitBits)), bits) == Settle(Views(units), unitBits, bits)
  {
  }

  /**
   * `merge_ams`. The result is the one well-formed list that stands for the merged map,
   * so it has unique, increasing unit and tray ids.
   */
  method MergeAms(previous: Option<AmsObject>, delta: AmsObject) returns (merged: AmsObject)
    requires previous.Some? ==> WellFormed(previous.value)
    ensures WellFormed(merged)
    ensures View(merged) == MergeView(if previous.Some? then View(previous.value) else NOTHING, delta)
  {
    var stored := previous.GetOr(AmsObject(None, None, None, map[]));
    var bits := if delta.trayBits.Some? then delta.trayBits else stored.trayBits;
    var units := stored.units;
    if delta.units == Some([]) {
      units := Some([]);
    } else if delta.units.Some? {
      var list := MergeUnits(stored.units.GetOr([]), delta.units.value, bits);
      EmptyIndex<UnitBody>([]);
      assert Views(map[]) == map[];
      units := Some(list);
    }
    assert (if units.None? then None else Some(Views(Index(units.value)))) == UnitsNamed(View(stored), delta);
    if units.Some? {
      var kept := DropUnits(units.value, delta.unitBits);
      var blanked := BlankUnits(kept, bits);
      SettleInTwoSteps(Index(units.value), delta.unitBits, bits);
      units := Some(blanked);
    }
    merged := AmsObject(
      units,
      if bits.Some? then bits else stored.trayBits,
      if delta.unitBits.Some? then delta.unitBits else stored.unitBits,
      stored.fields + delta.fields);
  }

  /** On lists too: merging the delta again gives back the very same object. */
  lemma RedeliveredAmsIsSame(previous: AmsView, delta: AmsObject, once: AmsObject, twice: AmsObject)
    requires WellFormed(once) && View(once) == MergeView(previous, delta)
    requires WellFormed(twice) && View(twice) == MergeView(View(once), delta)
    ensures twice == once
  {
    MergeRedelivery(previous, delta);
    ViewUnique(once, twice);
  }

  // ---------------------------------------------------------------------------
  // parse_ams
  // ---------------------------------------------------------------------------

  /** One reported slot. `spool` is absent when the printer sent no tag field at all. */
  datatype Slot = Slot(
    number: nat, colour: Option<string>, filamentType: Option<string>, remain: Option<int>,
    name: Option<Option<string>>, filamentId: Option<Option<string>>, spool: Option<Option<string>>)

  function Bounded(v: Value, limit: nat): Option<string> {
    var text := CleanStr(v);
    if text.Some? && |text.value| > limit then Some(text.value[..limit]) else text
  }

  function SpoolUid(fields: Fields): Option<string> {
    if RealIdentity(Get(fields, TrayUuid)) then Bounded(fields[TrayUuid], 64)
    else if RealIdentity(Get(fields, TagUid)) then Bounded(fields[TagUid], 64)
    else None
  }

  function RemainPercent(v: Value): Option<int> {
    if v.Num? && 0 < v.num <= 100 then Some(v.num) else None
  }

  function EmptyRow(number: nat): Slot { Slot(number, None, None, None, None, None, None) }

  /** `_with_spool_facts` */
  function WithSpoolFacts(slot: Slot, fields: Fields): Slot {
    slot.(
      name := if TraySubBrands in fields then Some(Bounded(fields[TraySubBrands], 64)) else None,
      filamentId := if TrayInfoIdx in fields then Some(Bounded(fields[TrayInfoIdx], 32)) else None,
      spool := if TrayUuid in fields || TagUid in fields then Some(SpoolUid(fields)) else None)
  }

  /** What a tray whose presence is known is reported as. */
  function RowOf(unitId: nat, tray: Tray, present: bool): Slot {
    var row := EmptyRow(AmsSlotNumber(unitId, tray.id));
    var colour := CleanStr(TrayColour(tray.body));
    var filamentType := CleanStr(Get(tray.body, TrayType));
    if !present then row
    else if colour.Some? || filamentType.Some? then
      WithSpoolFacts(row.(colour := colour, filamentType := filamentType,
                          remain := RemainPercent(Get(tray.body, Remain))), tray.body)
    else WithSpoolFacts(row, tray.body)
  }

  /** A tray together with the unit that lists it. */
  datatype Placed = Placed(unitId: nat, tray: Tray)

  function PlacedIn(unitId: nat, trays: seq<Tray>): (placed: seq<Placed>)
    ensures |placed| == |trays| && forall i :: 0 <= i < |trays| ==> placed[i] == Placed(unitId, trays[i])
  {
    seq(|trays|, i requires 0 <= i < |trays| => Placed(unitId, trays[i]))
  }

  function AllTrays(units: seq<Unit>): seq<Placed> {
    if units == [] then []
    else AllTrays(units[..|units| - 1]) + PlacedIn(units[|units| - 1].id, units[|units| - 1].body.trays)
  }

  function PresenceOf(placed: Placed, bits: Option<set<nat>>): Option<bool> {
    TrayPresence(placed.unitId, placed.tray, bits)
  }

  ghost predicate RowsMatch(rows: seq<Slot>, trays: seq<Placed>, bits: Option<set<nat>>) {
    |rows| == |trays| &&
    forall i :: 0 <= i < |rows| ==>
      PresenceOf(trays[i], bits).Some? &&
      rows[i] == RowOf(trays[i].unitId, trays[i].tray, PresenceOf(trays[i], bits).value)
  }

  ghost predicate AnyUnknown(trays: seq<Placed>, bits: Option<set<nat>>) {
    exists i :: 0 <= i < |trays| && PresenceOf(trays[i], bits).None?
  }

  /**
   * No finished reading is exactly: no unit list, or some tray whose presence nothing says.
   * Otherwise one row per tray, in order.
   */
  method ParseAms(ams: AmsObject) returns (slots: Option<seq<Slot>>)
    ensures slots.None? <==> ams.units.None? || AnyUnknown(AllTrays(ams.units.value), ams.trayBits)
    ensures slots.Some? ==> RowsMatch(slots.value, AllTrays(ams.units.value), ams.trayBits)
  {
    if ams.units.None? {
      return None;
    }
    var units := ams.units.value;
    var rows: seq<Slot> := [];
    var incomplete := false;
    for i := 0 to |units|
      invariant incomplete <==> AnyUnknown(AllTrays(units[..i]), ams.trayBits)
      invariant !incomplete ==> RowsMatch(rows, AllTrays(units[..i]), ams.trayBits)
    {
      var unit := units[i];
      ghost var done := AllTrays(units[..i]);
      var trays := unit.body.trays;
      ghost var here := PlacedIn(unit.id, trays);
      assert here[..0] == [] && done + [] == done;
      for j := 0 to |trays|
        invariant incomplete <==> AnyUnknown(done + here[..j], ams.trayBits)
        invariant !incomplete ==> RowsMatch(rows, done + here[..j], ams.trayBits)
      {
        var tray := trays[j];
        assert done + here[..j + 1] == (done + here[..j]) + [Placed(unit.id, tray)];
        ghost var seen := done + here[..j];
        assert (done + here[..j + 1])[|seen|] == Placed(unit.id, tray);
        assert forall k :: 0 <= k < |seen| ==> (done + here[..j + 1])[k] == seen[k];
        var present := TrayPresence(unit.id, tray, ams.trayBits);
        var colour := CleanStr(TrayColour(tray.body));
        var filamentType := CleanStr(Get(tray.body, TrayType));
        var number := AmsSlotNumber(unit.id, tray.id);
        if present == Some(false) {
          rows := rows + [EmptyRow(number)];
        } else if colour.Some? || filamentType.Some? {
          var row := EmptyRow(number).(colour := colour, filamentType := filamentType,
                                       remain := RemainPercent(Get(tray.body, Remain)));
          rows := rows + [WithSpoolFacts(row, tray.body)];
        } else if present == Some(true) {
          rows := rows + [WithSpoolFacts(EmptyRow(number), tray.body)];
        } else {
          incomplete := true;
        }
      }
      assert here[..|trays|] == here;
      assert units[..i + 1][..i] == units[..i];
    }
    assert units[..|units|] == units;
    if incomplete {
      return None;
    }
    return Some(rows);
  }

  /** Slot numbers never collide on the units the numbering was laid out for. */
  lemma SlotNumberInjective(u1: nat, t1: nat, u2: nat, t2: nat)
    requires Supported(u1, t1) && Supported(u2, t2)
    ensures AmsSlotNumber(u1, t1) == AmsSlotNumber(u2, t2) <==> u1 == u2 && t1 == t2
  {
  }

  /** Outside them they do: a fifth regular unit would take the first AMS-HT slot. */
  lemma SlotNumberCollision()
    ensures AmsSlotNumber(4, 0) == AmsSlotNumber(128, 0) && !Supported(4, 0)
  {
  }

  lemma {:induction false} TraysComeFromUnits(units: seq<Unit>, i: nat)
    requires i < |AllTrays(units)|
    ensures exists k :: 0 <= k < |units| && units[k].id == AllTrays(units)[i].unitId
  {
    var last := |units| - 1;
    var done := AllTrays(units[..last]);
    if i < |done| {
      TraysComeFromUnits(units[..last], i);
      var k :| 0 <= k < last && units[..last][k].id == done[i].unitId;
      assert units[k].id == done[i].unitId;
    } else {
      assert AllTrays(units)[i] == PlacedIn(units[last].id, units[last].body.trays)[i - |done|];
    }
  }

  /** No two trays of a well-formed AMS share both unit and tray id. */
  lemma {:induction false} AllTraysDistinct(units: seq<Unit>, i: nat, j: nat)
    requires SortedUnits(units) && i < j < |AllTrays(units)|
    ensures var a, b := AllTrays(units)[i], AllTrays(units)[j]; a.unitId != b.unitId || a.tray.id != b.tray.id
  {
    var last := |units| - 1;
    var init := units[..last];
    var done := AllTrays(init);
    var here := PlacedIn(units[last].id, units[last].body.trays);
    if j < |done| {
      AllTraysDistinct(init, i, j);
    } else if i < |done| {
      TraysComeFromUnits(init, i);
      var k :| 0 <= k < |init| && init[k].id == done[i].unitId;
      assert units[k].id < units[last].id;
      assert AllTrays(units)[j] == here[j - |done|];
    } else {
      assert AllTrays(units)[i] == here[i - |done|] && AllTrays(units)[j] == here[j - |done|];
      assert units[last] in units;
    }
  }

  /** One row per tray means one row per slot: the rows of a well-formed AMS never share a number. */
  lemma RowsHaveDistinctSlots(ams: AmsObject, rows: seq<Slot>)
    requires WellFormed(ams) && ams.units.Some? && RowsMatch(rows, AllTrays(ams.units.value), ams.trayBits)
    requires forall placed <- AllTrays(ams.units.value) :: Supported(placed.unitId, placed.tray.id)
    ensures forall i, j :: 0 <= i < j < |rows| ==> rows[i].number != rows[j].number
  {
    var trays := AllTrays(ams.units.value);
    forall i, j | 0 <= i < j < |rows|
      ensures rows[i].number != rows[j].number
    {
      AllTraysDistinct(ams.units.value, i, j);
      assert trays[i] in trays && trays[j] in trays;
      RowNumber(trays[i].unitId, trays[i].tray, PresenceOf(trays[i], ams.trayBits).value);
      RowNumber(trays[j].unitId, trays[j].tray, PresenceOf(trays[j], ams.trayBits).value);
      SlotNumberInjective(trays[i].unitId, trays[i].tray.id, trays[j].unitId, trays[j].tray.id);
    }
  }

  lemma RowNumber(unitId: nat, tray: Tray, present: bool)
    ensures RowOf(unitId, tray, present).number == AmsSlotNumber(unitId, tray.id)
  {
  }

  // ---------------------------------------------------------------------------
  // What presence and rows mean
  // ---------------------------------------------------------------------------

  /** How much filament remains never makes a tray empty. */
  lemma RemainIsNeverEmptiness(unitId: nat, tray: Tray, bits: Option<set<nat>>, remain: Value)
    requires Remain in tray.body
    ensures TrayPresence(unitId, tray.(body := tray.body[Remain := remain]), bits) == TrayPresence(unitId, tray, bits)
  {
    var other := tray.body[Remain := remain];
    assert TrayColour(other) == TrayColour(tray.body);
    assert Get(other, TrayType) == Get(tray.body, TrayType);
    assert Remain in other.Keys && Remain in tray.body.Keys;
  }

  /** An absent tray reports nothing; the "no colour" value is never reported as a colour. */
  lemma RowsNeverInvent(unitId: nat, tray: Tray, present: bool)
    ensures !present ==> RowOf(unitId, tray, present) == EmptyRow(AmsSlotNumber(unitId, tray.id))
    ensures RowOf(unitId, tray, present).colour != Some(NO_COLOUR)
    ensures RowOf(unitId, tray, present).remain.Some? ==> 0 < RowOf(unitId, tray, present).remain.value <= 100
  {
  }

  /** A spool is named only from a real tag; zeroed tags of a present tray report an explicit null. */
  lemma SpoolNeedsRealTag(unitId: nat, tray: Tray)
    ensures var spool := RowOf(unitId, tray, true).spool;
            (spool.None? <==> TrayUuid !in tray.body && TagUid !in tray.body) &&
            (spool.Some? ==>
               (spool.value.Some? <==> RealIdentity(Get(tray.body, TrayUuid)) || RealIdentity(Get(tray.body, TagUid))))
  {
  }

  /** The text of a value, cut to the limit. */
  predicate UpTo(text: Option<string>, v: Value, limit: nat) {
    if CleanStr(v).None? then text.None?
    else text.Some? && text.value <= CleanStr(v).value &&
         |text.value| == if |CleanStr(v).value| < limit then |CleanStr(v).value| else limit
  }

  /** A row of a present tray reads each fact off the field that carries it, and a `tray_uuid` before a `tag_uid`. */
  lemma RowReadsItsFields(unitId: nat, tray: Tray)
    ensures var row, body := RowOf(unitId, tray, true), tray.body;
            row.number == AmsSlotNumber(unitId, tray.id) &&
            row.colour == CleanStr(TrayColour(body)) && row.filamentType == CleanStr(Get(body, TrayType)) &&
            (forall n :: row.remain == Some(n) <==>
               (row.colour.Some? || row.filamentType.Some?) && Get(body, Remain) == Num(n) && 0 < n <= 100) &&
            (if TraySubBrands in body then row.name.Some? && UpTo(row.name.value, body[TraySubBrands], 64)
             else row.name.None?) &&
            (if TrayInfoIdx in body then row.filamentId.Some? && UpTo(row.filamentId.value, body[TrayInfoIdx], 32)
             else row.filamentId.None?) &&
            (row.spool.Some? && row.spool.value.Some? ==>
               UpTo(row.spool.value,
                    if RealIdentity(Get(body, TrayUuid)) then Get(body, TrayUuid) else Get(body, TagUid), 64))
  {
  }
}
