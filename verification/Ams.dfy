/**
 * The AMS half of a printer report (bridge/ams.py): merging partial deltas into
 * the remembered AMS, and flattening the result into slot rows.
 *
 * A Python dict is a `map` from key to `Value`; the "id" of a unit or tray and the
 * "tray" list of a unit are pulled out as typed fields. A bitmask is the set of the
 * positions whose bit is 1.
 */
module Ams {
  import opened Base
  import opened Keyed

  datatype Value = Null | Text(text: string) | Num(num: int) | Texts(items: seq<string>)

  /** The keys the merge treats specially; every other key is `Other`. */
  datatype Key =
    | TrayColor | Cols | TrayType | TraySubBrands | TrayInfoIdx | TrayIdName | Remain
    | TagUid | TrayUuid
    | State
    | Other(name: string)

  type Fields = map<Key, Value>

  type Tray = Entry<Fields>
  datatype UnitBody = UnitBody(fields: Fields, trays: seq<Tray>)
  type Unit = Entry<UnitBody>
  datatype AmsObject = AmsObject(
    units: Option<seq<Unit>>, trayBits: Option<set<nat>>, unitBits: Option<set<nat>>, fields: Fields)

  /** What a tray holds: a key the printer sends always wins, even blank. */
  predicate IsReading(key: Key) {
    IsColour(key) || key.TrayType? || key.TraySubBrands? || key.TrayInfoIdx? || key.TrayIdName? || key.Remain?
  }

  /** One field with two spellings. */
  predicate IsColour(key: Key) { key.TrayColor? || key.Cols? }

  /** Which spool it is. */
  predicate IsIdentity(key: Key) { key.TagUid? || key.TrayUuid? }

  const NO_COLOUR := "00000000"
  const AMS_HT_ID_MIN: nat := 128
  const AMS_HT_ID_MAX: nat := 135
  const AMS_HT_FIRST_SLOT: nat := 17
  const A2L_PHYSICAL_UNIT_ID: nat := 16
  const A2L_NORMALIZED_UNIT_ID: nat := 6

  // ---------------------------------------------------------------------------
  // Reading one field
  // ---------------------------------------------------------------------------

  predicate IsSpace(c: char) {
    var n := c as int;
    9 <= n <= 13 || 28 <= n <= 32 || n == 0x85 || n == 0xA0
  }

  function StripLeft(s: string): string {
    if s != "" && IsSpace(s[0]) then StripLeft(s[1..]) else s
  }

  function StripRight(s: string): string {
    if s != "" && IsSpace(s[|s| - 1]) then StripRight(s[..|s| - 1]) else s
  }

  function Strip(s: string): string { StripRight(StripLeft(s)) }

  /** `dict.get`: a missing key reads as null. */
  function Get(fields: Fields, key: Key): Value {
    if key in fields then fields[key] else Null
  }

  /** `clean_str`: a stripped, non-blank string, or None. */
  function CleanStr(v: Value): Option<string> {
    if v.Text? && Strip(v.text) != "" then Some(Strip(v.text)) else None
  }

  predicate Truthy(v: Value) {
    match v
    case Null => false
    case Text(s) => s != ""
    case Num(n) => n != 0
    case Texts(items) => items != []
  }

  predicate IsNoColour(v: Value) { v.Text? && Strip(v.text) == NO_COLOUR }

  /** `_tray_color`: the named colour, else the first `cols` entry. */
  function TrayColour(fields: Fields): Value {
    var colour := Get(fields, TrayColor);
    var cols := Get(fields, Cols);
    if Truthy(colour) && !IsNoColour(colour) then colour
    else if cols.Texts? && cols.items != [] && !IsNoColour(Text(cols.items[0])) then Text(cols.items[0])
    else Null
  }

  /** `_real_identity`: a tag that is not blank and not all zeros. */
  predicate RealIdentity(v: Value) {
    CleanStr(v).Some? && exists i :: 0 <= i < |CleanStr(v).value| && CleanStr(v).value[i] != '0'
  }

  /** A filament type next to tags that are all zeroed: a spool with no tag. */
  predicate TaglessReading(fields: Fields) {
    CleanStr(Get(fields, TrayType)).Some? &&
    TagUid in fields && !RealIdentity(fields[TagUid]) &&
    TrayUuid in fields && !RealIdentity(fields[TrayUuid])
  }

  // ---------------------------------------------------------------------------
  // Slots and presence
  // ---------------------------------------------------------------------------

  predicate IsHt(unitId: nat) { AMS_HT_ID_MIN <= unitId <= AMS_HT_ID_MAX }

  function AmsSlotNumber(unitId: nat, trayId: nat): (slot: nat)
    ensures slot >= 1
  {
    if IsHt(unitId) then AMS_HT_FIRST_SLOT + (unitId - AMS_HT_ID_MIN)
    else (if unitId == A2L_PHYSICAL_UNIT_ID then A2L_NORMALIZED_UNIT_ID else unitId) * 4 + trayId + 1
  }

  /** The units the slot numbering was laid out for: regular 0-3, A2L 16, AMS-HT 128-135. */
  predicate Supported(unitId: nat, trayId: nat) {
    (IsHt(unitId) && trayId == 0) || ((unitId < 4 || unitId == A2L_PHYSICAL_UNIT_ID) && trayId < 4)
  }

  function BitPresent(bits: Option<set<nat>>, slot: nat): Option<bool>
    requires slot >= 1
  {
    if bits.None? then None else Some(slot - 1 in bits.value)
  }

  predicate IdStateOnlyUnloaded(unitId: nat, fields: Fields) {
    !IsHt(unitId) && State in fields && fields.Keys <= {State} && fields[State] !in {Num(3), Num(11)}
  }

  function TrayPresence(unitId: nat, tray: Tray, bits: Option<set<nat>>): Option<bool> {
    var bit := BitPresent(bits, AmsSlotNumber(unitId, tray.id));
    if bit.Some? then bit
    else if CleanStr(TrayColour(tray.body)).Some? || CleanStr(Get(tray.body, TrayType)).Some? then Some(true)
    else if TrayType in tray.body || IdStateOnlyUnloaded(unitId, tray.body) then Some(false)
    else None
  }

  /** `mapped_tray_presence`: is a spool in this global tray index? */
  function MappedTrayPresence(tray: int, trayBits: Option<set<nat>>, unitBits: Option<set<nat>>): Option<bool> {
    if !(0 <= tray < 16) then None
    else if BitPresent(unitBits, tray / 4 + 1) == Some(false) then Some(false)
    else BitPresent(trayBits, tray + 1)
  }

  /** `first_absent_slot`: the first mapped tray whose bits call it absent, as a 1-based slot. */
  method FirstAbsentSlot(trayBits: Option<set<nat>>, unitBits: Option<set<nat>>, mapping: seq<int>)
    returns (slot: Option<int>)
    ensures slot == AbsentSlot(trayBits, unitBits, mapping)
  {
    for i := 0 to |mapping|
      invariant forall j :: 0 <= j < i ==> MappedTrayPresence(mapping[j], trayBits, unitBits) != Some(false)
      invariant AbsentSlot(trayBits, unitBits, mapping) == AbsentSlot(trayBits, unitBits, mapping[i..])
    {
      if MappedTrayPresence(mapping[i], trayBits, unitBits) == Some(false) {
        return Some(mapping[i] + 1);
      }
      assert mapping[i..][1..] == mapping[i + 1..];
    }
    return None;
  }

  function AbsentSlot(trayBits: Option<set<nat>>, unitBits: Option<set<nat>>, mapping: seq<int>): Option<int> {
    if mapping == [] then None
    else if MappedTrayPresence(mapping[0], trayBits, unitBits) == Some(false) then Some(mapping[0] + 1)
    else AbsentSlot(trayBits, unitBits, mapping[1..])
  }

  /** The tray at `i` is the first of the mapping that the bits call empty. */
  ghost predicate FirstClear(trayBits: Option<set<nat>>, unitBits: Option<set<nat>>, mapping: seq<int>, i: nat) {
    i < |mapping| && KnownClear(mapping[i], trayBits, unitBits) &&
    forall j :: 0 <= j < i ==> !KnownClear(mapping[j], trayBits, unitBits)
  }

  lemma {:induction false} FirstClearIsAbsent(
      trayBits: Option<set<nat>>, unitBits: Option<set<nat>>, mapping: seq<int>, i: nat)
    requires FirstClear(trayBits, unitBits, mapping, i)
    ensures AbsentSlot(trayBits, unitBits, mapping) == Some(mapping[i] + 1)
  {
    if i > 0 {
      assert !KnownClear(mapping[0], trayBits, unitBits);
      assert forall j :: 0 <= j < i ==> mapping[1..][j] == mapping[j + 1];
      FirstClearIsAbsent(trayBits, unitBits, mapping[1..], i - 1);
    }
  }

  lemma {:induction false} NoneClearIsNone(trayBits: Option<set<nat>>, unitBits: Option<set<nat>>, mapping: seq<int>)
    requires forall i :: 0 <= i < |mapping| ==> !KnownClear(mapping[i], trayBits, unitBits)
    ensures AbsentSlot(trayBits, unitBits, mapping).None?
  {
    if mapping != [] {
      assert !KnownClear(mapping[0], trayBits, unitBits);
      NoneClearIsNone(trayBits, unitBits, mapping[1..]);
    }
  }

  lemma {:induction false} ClearHasFirst(
      trayBits: Option<set<nat>>, unitBits: Option<set<nat>>, mapping: seq<int>, k: nat) returns (i: nat)
    requires k < |mapping| && KnownClear(mapping[k], trayBits, unitBits)
    ensures FirstClear(trayBits, unitBits, mapping, i)
  {
    if j: nat :| j < k && KnownClear(mapping[j], trayBits, unitBits) {
      i := ClearHasFirst(trayBits, unitBits, mapping, j);
    } else {
      i := k;
    }
  }

  /**
   * A start is refused exactly when a mapped regular tray's own bit or its unit's bit is
   * known to be clear, and the refusal names the first such tray.
   */
  lemma {:induction false} AbsentSlotIsFirstClear(
      trayBits: Option<set<nat>>, unitBits: Option<set<nat>>, mapping: seq<int>)
    ensures AbsentSlot(trayBits, unitBits, mapping).None? <==>
            forall i :: 0 <= i < |mapping| ==> !KnownClear(mapping[i], trayBits, unitBits)
    ensures AbsentSlot(trayBits, unitBits, mapping).Some? ==>
              exists i: nat :: FirstClear(trayBits, unitBits, mapping, i) &&
                               AbsentSlot(trayBits, unitBits, mapping) == Some(mapping[i] + 1)
  {
    if k: nat :| k < |mapping| && KnownClear(mapping[k], trayBits, unitBits) {
      var i := ClearHasFirst(trayBits, unitBits, mapping, k);
      FirstClearIsAbsent(trayBits, unitBits, mapping, i);
    } else {
      NoneClearIsNone(trayBits, unitBits, mapping);
    }
  }

  predicate KnownClear(tray: int, trayBits: Option<set<nat>>, unitBits: Option<set<nat>>) {
    0 <= tray < 16 &&
    ((unitBits.Some? && tray / 4 !in unitBits.value) || (trayBits.Some? && tray !in trayBits.value))
  }

  // ---------------------------------------------------------------------------
  // The merge on maps
  // ---------------------------------------------------------------------------

  /** The remembered AMS with its lists indexed by id. */
  datatype UnitView = UnitView(fields: Fields, trays: map<nat, Fields>)
  datatype AmsView = AmsView(
    units: Option<map<nat, UnitView>>, trayBits: Option<set<nat>>, unitBits: Option<set<nat>>, fields: Fields)

  const NOTHING := AmsView(None, None, None, map[])
  const NO_UNIT := UnitView(map[], map[])

  function BlankTray(fields: Fields): Fields {
    map key | key in fields && !IsReading(key) && !IsIdentity(key) :: fields[key]
  }

  /** `_merge_tray`: one tray report onto what the tray held. */
  function MergeTray(stored: Fields, incoming: Fields): Fields {
    var base := ColourBase(stored, incoming);
    map key | key in base.Keys + incoming.Keys && (key in base || Takes(base, incoming, key)) ::
      if key in incoming && Takes(base, incoming, key) then incoming[key] else base[key]
  }

  function ColourBase(stored: Fields, incoming: Fields): Fields {
    if NamesColour(incoming) then map key | key in stored && !IsColour(key) :: stored[key] else stored
  }

  predicate NamesColour(fields: Fields) { TrayColor in fields || Cols in fields }

  predicate Takes(base: Fields, incoming: Fields, key: Key)
    requires key in incoming
  {
    if IsReading(key) then true
    else if IsIdentity(key) then
      RealIdentity(incoming[key]) || TaglessReading(incoming) || !RealIdentity(Get(base, key))
    else incoming[key] !in {Null, Text("")}
  }

  function UpdateTray(unitId: nat, trays: map<nat, Fields>, tray: Tray, bits: Option<set<nat>>): map<nat, Fields> {
    var stored := if tray.id in trays then trays[tray.id] else map[];
    trays[tray.id := if TrayPresence(unitId, tray, bits) == Some(false)
                     then BlankTray(stored + tray.body) else MergeTray(stored, tray.body)]
  }

  function FoldTrays(unitId: nat, trays: map<nat, Fields>, incoming: seq<Tray>, bits: Option<set<nat>>)
    : map<nat, Fields>
  {
    if incoming == [] then trays
    else
      var last := |incoming| - 1;
      UpdateTray(unitId, FoldTrays(unitId, trays, incoming[..last], bits), incoming[last], bits)
  }

  function UpdateUnit(units: map<nat, UnitView>, unit: Unit, bits: Option<set<nat>>): map<nat, UnitView> {
    var stored := if unit.id in units then units[unit.id] else NO_UNIT;
    units[unit.id := UnitView(stored.fields + unit.body.fields,
      FoldTrays(unit.id, stored.trays, unit.body.trays, bits))]
  }

  function FoldUnits(units: map<nat, UnitView>, incoming: seq<Unit>, bits: Option<set<nat>>): map<nat, UnitView> {
    if incoming == [] then units
    else
      var last := |incoming| - 1;
      UpdateUnit(FoldUnits(units, incoming[..last], bits), incoming[last], bits)
  }

  predicate UnitGone(unitBits: Option<set<nat>>, unitId: nat) {
    unitBits.Some? && unitId < 4 && unitId !in unitBits.value
  }

  predicate TrayCleared(bits: Option<set<nat>>, unitId: nat, trayId: nat) {
    BitPresent(bits, AmsSlotNumber(unitId, trayId)) == Some(false)
  }

  function BlankUnit(unitId: nat, unit: UnitView, bits: Option<set<nat>>): UnitView {
    UnitView(unit.fields, map t | t in unit.trays ::
        if TrayCleared(bits, unitId, t) then BlankTray(unit.trays[t]) else unit.trays[t])
  }

  function Settle(units: map<nat, UnitView>, unitBits: Option<set<nat>>, bits: Option<set<nat>>): map<nat, UnitView> {
    map u | u in units && !UnitGone(unitBits, u) :: BlankUnit(u, units[u], bits)
  }

  function BitsAfter(previous: AmsView, delta: AmsObject): Option<set<nat>> {
    if delta.trayBits.Some? then delta.trayBits else previous.trayBits
  }

  function UnitsNamed(previous: AmsView, delta: AmsObject): Option<map<nat, UnitView>> {
    if delta.units.None? then previous.units
    else if delta.units.value == [] then Some(map[])
    else Some(FoldUnits(previous.units.GetOr(map[]), delta.units.value, BitsAfter(previous, delta)))
  }

  /** `merge_ams`: one delta merged into the remembered AMS. */
  function MergeView(previous: AmsView, delta: AmsObject): AmsView {
    var bits := BitsAfter(previous, delta);
    var units := UnitsNamed(previous, delta);
    AmsView(
      if units.None? then None else Some(Settle(units.value, delta.unitBits, bits)),
      bits,
      if delta.unitBits.Some? then delta.unitBits else previous.unitBits,
      previous.fields + delta.fields)
  }

  function Merged(deltas: seq<AmsObject>): AmsView {
    if deltas == [] then NOTHING else MergeView(Merged(deltas[..|deltas| - 1]), deltas[|deltas| - 1])
  }
}
