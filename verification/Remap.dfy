/**
 * From a file's required filaments to the trays a start names: the remap onto the printer's
 * live slots (bridge/app.py) and the wire encoding of each tray (bridge/bambu/commands.py).
 * Colours and families are already normalised.
 */
module Remap {
  import opened Base
  import opened Ams
  import AmsReport

  datatype Filament = Filament(id: nat, colour: string, family: string)
  datatype LiveSlot = LiveSlot(colour: Option<string>, family: Option<string>, number: Option<int>)

  // ---------------------------------------------------------------------------
  // Tray indices on the wire
  // ---------------------------------------------------------------------------

  predicate External(tray: int) { tray == 254 || tray == 255 }

  predicate TrayIndexAllowed(tray: int) {
    tray == -1 || External(tray) || 0 <= tray <= 15 || 24 <= tray <= 27 || 128 <= tray <= 135
  }

  predicate LiveSlotNumberAllowed(number: Option<int>) { number.Some? && 1 <= number.value <= 28 }

  function LiveSlotToTray(number: int): int
    requires 1 <= number <= 28
  {
    if number <= 16 then number - 1 else if number <= 24 then 128 + (number - 17) else 24 + (number - 25)
  }

  /** One position of a start: the flat tray and the `{ams_id, slot_id}` pair. */
  datatype Target = Target(flat: int, amsId: int, slotId: int)

  const UNUSED := Target(-1, 255, 255)

  function TargetOf(tray: int): Target {
    if tray < 0 then UNUSED
    else if External(tray) then Target(-1, 255, 0)
    else if 128 <= tray <= 135 then Target(tray, tray, 0)
    else if 24 <= tray <= 27 then Target(tray - 24, 16, tray - 24)
    else Target(tray, tray / 4, tray % 4)
  }

  /** AMS is off only when some position is used and every used one is external. */
  ghost predicate AllUsedExternal(trays: seq<int>) {
    (exists i :: 0 <= i < |trays| && trays[i] >= 0) &&
    (forall i :: 0 <= i < |trays| && trays[i] >= 0 ==> External(trays[i]))
  }

  /** `ams_fields` */
  method AmsFields(trays: seq<int>) returns (targets: seq<Target>, useAms: bool)
    ensures |targets| == |trays| && forall i :: 0 <= i < |trays| ==> targets[i] == TargetOf(trays[i])
    ensures useAms <==> !AllUsedExternal(trays)
  {
    targets := [];
    var anyUsed, allExternal := false, true;
    for i := 0 to |trays|
      invariant |targets| == i && forall k :: 0 <= k < i ==> targets[k] == TargetOf(trays[k])
      invariant anyUsed <==> exists k :: 0 <= k < i && trays[k] >= 0
      invariant allExternal <==> forall k :: 0 <= k < i && trays[k] >= 0 ==> External(trays[k])
    {
      var tray := trays[i];
      if tray < 0 {
        targets := targets + [UNUSED];
      } else if External(tray) {
        targets := targets + [Target(-1, 255, 0)];
      } else if 128 <= tray <= 135 {
        targets := targets + [Target(tray, tray, 0)];
      } else if 24 <= tray <= 27 {
        targets := targets + [Target(tray - 24, 16, tray - 24)];
      } else {
        targets := targets + [Target(tray, tray / 4, tray % 4)];
      }
      if tray >= 0 {
        anyUsed := true;
        allExternal := allExternal && External(tray);
      }
    }
    useAms := !(anyUsed && allExternal);
  }

  /** Two different trays are never sent as the same one. */
  lemma TargetsAreDistinct(a: int, b: int)
    requires TrayIndexAllowed(a) && TrayIndexAllowed(b) && a >= 0 && b >= 0 && !External(a) && !External(b)
    ensures TargetOf(a) == TargetOf(b) <==> a == b
    ensures (TargetOf(a).amsId, TargetOf(a).slotId) == (TargetOf(b).amsId, TargetOf(b).slotId) <==> a == b
  {
  }

  /** A reported slot number leads back to the unit and tray it was made from. */
  lemma SlotLeadsBackToTray(unitId: nat, trayId: nat)
    requires Supported(unitId, trayId)
    ensures 1 <= AmsSlotNumber(unitId, trayId) <= 28
    ensures var tray := LiveSlotToTray(AmsSlotNumber(unitId, trayId));
            TrayIndexAllowed(tray) && tray >= 0 && !External(tray) && TargetOf(tray) == WireOf((unitId, trayId))
  {
  }

  /** The slot numbers a remap accepts are exactly those of the trays of supported units. */
  lemma AcceptedNumbersAreSlots(number: int)
    ensures LiveSlotNumberAllowed(Some(number)) <==>
            exists unitId: nat, trayId: nat :: Supported(unitId, trayId) && AmsSlotNumber(unitId, trayId) == number
    ensures !LiveSlotNumberAllowed(None)
  {
    if 1 <= number <= 28 {
      var at: (nat, nat) := if number <= 16 then ((number - 1) / 4, (number - 1) % 4)
                            else if number <= 24 then (128 + number - 17, 0) else (16, number - 25);
      assert Supported(at.0, at.1) && AmsSlotNumber(at.0, at.1) == number;
    }
  }

  /** An unused position and an external spool are told apart by the slot id alone. */
  lemma NoTrayTargets(tray: int)
    ensures tray == -1 ==> TargetOf(tray) == Target(-1, 255, 255)
    ensures tray == 254 || tray == 255 ==> TargetOf(tray) == Target(-1, 255, 0)
    ensures TrayIndexAllowed(tray) && TargetOf(tray).flat == -1 ==> tray in {-1, 254, 255}
  {
  }

  // ---------------------------------------------------------------------------
  // The sparse mapping
  // ---------------------------------------------------------------------------

  function MaxId(required: seq<Filament>): nat {
    if required == [] then 0
    else
      var rest := MaxId(required[..|required| - 1]);
      var id := required[|required| - 1].id;
      if id > rest then id else rest
  }

  lemma {:induction false} MaxIdBounds(required: seq<Filament>)
    ensures forall f <- required :: f.id <= MaxId(required)
    ensures required != [] ==> exists f <- required :: f.id == MaxId(required)
  {
    if required != [] {
      var init, last := required[..|required| - 1], required[|required| - 1];
      MaxIdBounds(init);
      assert required == init + [last];
      assert last in required;
      if init != [] {
        var f :| f in init && f.id == MaxId(init);
        assert f in required;
      }
    }
  }

  /** `_required_filaments` only yields these: 1-based, pairwise distinct ids. */
  ghost predicate ValidRequired(required: seq<Filament>) {
    (forall f <- required :: f.id >= 1) &&
    (forall i, j :: 0 <= i < j < |required| ==> required[i].id != required[j].id)
  }

  ghost predicate Required(required: seq<Filament>, position: int) { exists f <- required :: f.id - 1 == position }

  /** A mapping the sparse contract allows. */
  ghost predicate Sparse(mapping: seq<int>, required: seq<Filament>) {
    |mapping| == MaxId(required) && forall p :: 0 <= p < |mapping| ==> AllowedAt(required, p, mapping[p])
  }

  /** A real tray at a required position, -1 at every other. */
  ghost predicate AllowedAt(required: seq<Filament>, p: int, tray: int) {
    TrayIndexAllowed(tray) && (if Required(required, p) then tray >= 0 else tray == -1)
  }

  /** `_validate_sparse_ams_mapping` accepts exactly the sparse mappings, unchanged. */
  method ValidateSparse(value: seq<int>, required: seq<Filament>) returns (mapping: Option<seq<int>>)
    ensures mapping == if Sparse(value, required) then Some(value) else None
  {
    if |value| != MaxId(required) {
      return None;
    }
    var positions := set f <- required :: f.id - 1;
    var kept := [];
    for index := 0 to |value|
      invariant kept == value[..index]
      invariant forall p :: 0 <= p < index ==> AllowedAt(required, p, value[p])
    {
      var item := value[index];
      assert index in positions <==> Required(required, index);
      if !TrayIndexAllowed(item) {
        return None;
      }
      if index in positions {
        if item < 0 {
          return None;
        }
      } else if item != -1 {
        return None;
      }
      kept := kept + [item];
    }
    assert value[..|value|] == value;
    return Some(kept);
  }

  // ---------------------------------------------------------------------------
  // The remap onto live slots
  // ---------------------------------------------------------------------------

  predicate Relevant(slot: LiveSlot, required: seq<Filament>) {
    slot.colour.Some? && exists f <- required :: f.colour == slot.colour.value
  }

  predicate Usable(slot: LiveSlot) { slot.family.Some? && LiveSlotNumberAllowed(slot.number) }

  predicate Matches(slot: LiveSlot, f: Filament) { slot.colour == Some(f.colour) && slot.family == Some(f.family) }

  ghost predicate OnlyMatch(slots: seq<LiveSlot>, f: Filament, i: nat) {
    i < |slots| && Matches(slots[i], f) && forall j :: 0 <= j < |slots| && Matches(slots[j], f) ==> j == i
  }

  ghost predicate Remappable(required: seq<Filament>, slots: seq<LiveSlot>) {
    RelevantUsable(required, slots) &&
    (forall f <- required :: HasOneMatch(slots, f))
  }

  ghost predicate HasOneMatch(slots: seq<LiveSlot>, f: Filament) { exists i: nat :: OnlyMatch(slots, f, i) }

  /** The trays of the slots holding this colour and family, in report order. */
  function TraysFor(slots: seq<LiveSlot>, colour: string, family: string): seq<int> {
    if slots == [] then []
    else
      var last := slots[|slots| - 1];
      TraysFor(slots[..|slots| - 1], colour, family) +
      if last.colour == Some(colour) && last.family == Some(family) && LiveSlotNumberAllowed(last.number)
      then [LiveSlotToTray(last.number.value)] else []
  }

  ghost predicate UsableMatches(slots: seq<LiveSlot>, f: Filament) {
    forall i :: 0 <= i < |slots| && Matches(slots[i], f) ==> Usable(slots[i])
  }

  lemma {:induction false} TraysForMatches(slots: seq<LiveSlot>, f: Filament)
    requires UsableMatches(slots, f)
    ensures TraysFor(slots, f.colour, f.family) == [] <==> forall i :: 0 <= i < |slots| ==> !Matches(slots[i], f)
    ensures |TraysFor(slots, f.colour, f.family)| == 1 <==> HasOneMatch(slots, f)
    ensures forall i: nat :: OnlyMatch(slots, f, i) ==>
              TraysFor(slots, f.colour, f.family) == [LiveSlotToTray(slots[i].number.value)]
  {
    if slots != [] {
      var last := |slots| - 1;
      var init := slots[..last];
      assert forall i :: 0 <= i < last ==> init[i] == slots[i];
      TraysForMatches(init, f);
      var trays := TraysFor(init, f.colour, f.family);
      if Matches(slots[last], f) {
        if trays == [] {
          assert OnlyMatch(slots, f, last);
        } else {
          var k :| 0 <= k < last && Matches(init[k], f);
          assert Matches(slots[k], f);
          assert forall i: nat :: !OnlyMatch(slots, f, i);
        }
      } else {
        assert TraysFor(slots, f.colour, f.family) == trays;
        forall i: nat
          ensures OnlyMatch(slots, f, i) <==> OnlyMatch(init, f, i)
        {
        }
      }
    }
  }

  /** This filament's position names this slot's tray. */
  predicate Names(mapping: seq<int>, f: Filament, slot: LiveSlot) {
    1 <= f.id <= |mapping| && LiveSlotNumberAllowed(slot.number) &&
      mapping[f.id - 1] == LiveSlotToTray(slot.number.value)
  }

  /** The filaments in `done` sit at their own positions, in the trays of their one slot. */
  ghost predicate PlacedAll(mapping: seq<int>, done: seq<Filament>, slots: seq<LiveSlot>) {
    (forall f <- done :: PlacedOne(mapping, f, slots)) &&
    (forall p :: 0 <= p < |mapping| && !Required(done, p) ==> mapping[p] == -1)
  }

  ghost predicate PlacedOne(mapping: seq<int>, f: Filament, slots: seq<LiveSlot>) {
    exists i: nat :: OnlyMatch(slots, f, i) && Names(mapping, f, slots[i])
  }

  /** Every required filament sits at its own position, in the tray of its one slot. */
  ghost predicate IsRemap(mapping: seq<int>, required: seq<Filament>, slots: seq<LiveSlot>) {
    |mapping| == MaxId(required) && PlacedAll(mapping, required, slots)
  }

  ghost predicate RelevantUsable(required: seq<Filament>, slots: seq<LiveSlot>) {
    forall i :: 0 <= i < |slots| && Relevant(slots[i], required) ==> Usable(slots[i])
  }

  lemma RelevantMatches(required: seq<Filament>, slots: seq<LiveSlot>, f: Filament)
    requires f in required && RelevantUsable(required, slots)
    ensures UsableMatches(slots, f)
  {
    forall i | 0 <= i < |slots| && Matches(slots[i], f)
      ensures Usable(slots[i])
    {
      assert Relevant(slots[i], required);
    }
  }

  function Candidates(candidates: map<(string, string), seq<int>>, f: Filament): seq<int> {
    if (f.colour, f.family) in candidates then candidates[(f.colour, f.family)] else []
  }

  /** First loop: the trays of each colour and family, or nothing when a relevant slot is malformed. */
  method CollectCandidates(required: seq<Filament>, slots: seq<LiveSlot>)
    returns (candidates: Option<map<(string, string), seq<int>>>)
    ensures candidates.Some? <==> RelevantUsable(required, slots)
    ensures candidates.Some? ==> Collected(required, slots, candidates.value)
  {
    var found: map<(string, string), seq<int>> := map[];
    for i := 0 to |slots|
      invariant RelevantUsable(required, slots[..i])
      invariant forall f <- required :: Candidates(found, f) == TraysFor(slots[..i], f.colour, f.family)
    {
      assert slots[..i + 1][..i] == slots[..i];
      var slot := slots[i];
      if Relevant(slot, required) {
        if !Usable(slot) {
          return None;
        }
        var key := (slot.colour.value, slot.family.value);
        var held := if key in found then found[key] else [];
        found := found[key := held + [LiveSlotToTray(slot.number.value)]];
      }
    }
    assert slots[..|slots|] == slots;
    return Some(found);
  }

  lemma PlaceOne(required: seq<Filament>, slots: seq<LiveSlot>, before: seq<int>, j: nat, i: nat)
    requires j < |required| && ValidRequired(required) && required[j].id <= |before|
    requires OnlyMatch(slots, required[j], i) && LiveSlotNumberAllowed(slots[i].number)
    requires PlacedAll(before, required[..j], slots)
    ensures required[j].id >= 1
    ensures PlacedAll(before[required[j].id - 1 := LiveSlotToTray(slots[i].number.value)], required[..j + 1], slots)
  {
    var placed := required[j];
    assert placed in required;
    var built := before[placed.id - 1 := LiveSlotToTray(slots[i].number.value)];
    forall f | f in required[..j + 1]
      ensures PlacedOne(built, f, slots)
    {
      var k :| 0 <= k <= j && required[..j + 1][k] == f;
      if k < j {
        assert required[..j][k] == f && f.id != placed.id;
        assert PlacedOne(before, f, slots);
        var i': nat :| OnlyMatch(slots, f, i') && Names(before, f, slots[i']);
        assert Names(built, f, slots[i']);
      } else {
        assert Names(built, f, slots[i]);
      }
    }
    forall p | 0 <= p < |built| && !Required(required[..j + 1], p)
      ensures built[p] == -1
    {
      assert required[..j + 1][j] == placed && placed in required[..j + 1];
      assert forall f <- required[..j] :: f in required[..j + 1];
    }
  }

  lemma PlaceTray(required: seq<Filament>, slots: seq<LiveSlot>, before: seq<int>, j: nat, trays: seq<int>)
    requires j < |required| && ValidRequired(required) && RelevantUsable(required, slots) && required[j].id <= |before|
    requires PlacedAll(before, required[..j], slots) && trays == TraysFor(slots, required[j].colour, required[j].family)
    ensures required[j].id >= 1 && (|trays| == 1 <==> HasOneMatch(slots, required[j]))
    ensures |trays| == 1 ==> PlacedAll(before[required[j].id - 1 := trays[0]], required[..j + 1], slots)
  {
    var f := required[j];
    assert f in required;
    RelevantMatches(required, slots, f);
    TraysForMatches(slots, f);
    if |trays| == 1 {
      var i: nat :| OnlyMatch(slots, f, i);
      assert Matches(slots[i], f);
      PlaceOne(required, slots, before, j, i);
    }
  }

  lemma PlacedHaveMatches(mapping: seq<int>, required: seq<Filament>, slots: seq<LiveSlot>)
    requires PlacedAll(mapping, required, slots)
    ensures forall f <- required :: HasOneMatch(slots, f)
  {
    forall f | f in required
      ensures HasOneMatch(slots, f)
    {
      assert PlacedOne(mapping, f, slots);
    }
  }

  ghost predicate Collected(
      required: seq<Filament>, slots: seq<LiveSlot>, candidates: map<(string, string), seq<int>>)
  {
    forall f <- required :: Candidates(candidates, f) == TraysFor(slots, f.colour, f.family)
  }

  lemma NothingPlaced(required: seq<Filament>, slots: seq<LiveSlot>, mapping: seq<int>)
    requires forall p :: 0 <= p < |mapping| ==> mapping[p] == -1
    ensures PlacedAll(mapping, required[..0], slots)
  {
  }

  /** One filament of the second loop: its one tray at its position, or nothing when it has none or several. */
  method PlaceFilament(
      required: seq<Filament>, slots: seq<LiveSlot>, candidates: map<(string, string), seq<int>>,
      before: seq<int>, j: nat) returns (after: Option<seq<int>>)
    requires ValidRequired(required) && RelevantUsable(required, slots) && Collected(required, slots, candidates)
    requires j < |required| && required[j].id <= |before| && PlacedAll(before, required[..j], slots)
    ensures after.Some? <==> HasOneMatch(slots, required[j])
    ensures after.Some? ==> |after.value| == |before| && PlacedAll(after.value, required[..j + 1], slots)
  {
    var f := required[j];
    assert f in required;
    var trays := Candidates(candidates, f);
    PlaceTray(required, slots, before, j, trays);
    return if |trays| != 1 then None else Some(before[f.id - 1 := trays[0]]);
  }

  /** Second loop: every filament in turn, until one cannot be placed. */
  method PlaceFilaments(required: seq<Filament>, slots: seq<LiveSlot>, candidates: map<(string, string), seq<int>>)
    returns (mapping: Option<seq<int>>)
    requires ValidRequired(required) && RelevantUsable(required, slots) && Collected(required, slots, candidates)
    ensures mapping.Some? <==> forall f <- required :: HasOneMatch(slots, f)
    ensures mapping.Some? ==> IsRemap(mapping.value, required, slots)
  {
    MaxIdBounds(required);
    var built: seq<int> := seq(MaxId(required), _ => -1);
    NothingPlaced(required, slots, built);
    for j := 0 to |required|
      invariant |built| == MaxId(required)
      invariant PlacedAll(built, required[..j], slots)
    {
      assert required[j] in required;
      var after := PlaceFilament(required, slots, candidates, built, j);
      if after.None? {
        return None;
      }
      built := after.value;
    }
    assert required[..|required|] == required;
    PlacedHaveMatches(built, required, slots);
    return Some(built);
  }

  /**
   * `_mapping_from_live_slots`: a mapping comes back exactly when every relevant slot is well
   * formed and each required colour and family has one slot. The final validation never
   * rejects what the loops built.
   */
  method MappingFromLiveSlots(required: seq<Filament>, slots: seq<LiveSlot>) returns (mapping: Option<seq<int>>)
    requires ValidRequired(required)
    ensures mapping.Some? <==> Remappable(required, slots)
    ensures mapping.Some? ==> IsRemap(mapping.value, required, slots) && Sparse(mapping.value, required)
  {
    var candidates := CollectCandidates(required, slots);
    if candidates.None? {
      return None;
    }
    var built := PlaceFilaments(required, slots, candidates.value);
    if built.None? {
      return None;
    }
    RemapIsSparse(built.value, required, slots);
    mapping := ValidateSparse(built.value, required);
  }

  lemma PlacedIsAllowed(mapping: seq<int>, f: Filament, slots: seq<LiveSlot>)
    requires PlacedOne(mapping, f, slots)
    ensures 1 <= f.id <= |mapping| && TrayIndexAllowed(mapping[f.id - 1]) && mapping[f.id - 1] >= 0
  {
    var i: nat :| OnlyMatch(slots, f, i) && Names(mapping, f, slots[i]);
  }

  lemma PositionIsAllowed(mapping: seq<int>, required: seq<Filament>, slots: seq<LiveSlot>, p: nat)
    requires PlacedAll(mapping, required, slots) && p < |mapping|
    ensures AllowedAt(required, p, mapping[p])
  {
    if f :| f in required && f.id - 1 == p {
      PlacedIsAllowed(mapping, f, slots);
    } else {
      assert !Required(required, p);
    }
  }

  /** What the loops build always passes the sparse contract. */
  lemma RemapIsSparse(mapping: seq<int>, required: seq<Filament>, slots: seq<LiveSlot>)
    requires IsRemap(mapping, required, slots)
    ensures Sparse(mapping, required)
  {
    forall p: nat | p < |mapping|
      ensures AllowedAt(required, p, mapping[p])
    {
      PositionIsAllowed(mapping, required, slots, p);
    }
  }

  /**
   * End to end: when each live slot row was made from a supported unit and tray, the start
   * names, at each required filament's position, exactly the unit and tray of its one
   * matching row; every other position is unused; and the AMS stays on.
   */
  lemma RemapSendsTheRow(
      mapping: seq<int>, required: seq<Filament>, slots: seq<LiveSlot>, places: seq<(nat, nat)>)
    requires IsRemap(mapping, required, slots) && RowsComeFrom(slots, places)
    ensures forall f <- required :: SentToItsRow(mapping, f, slots, places)
    ensures forall p :: 0 <= p < |mapping| && !Required(required, p) ==> TargetOf(mapping[p]) == UNUSED
    ensures !AllUsedExternal(mapping)
  {
    forall f | f in required
      ensures SentToItsRow(mapping, f, slots, places)
    {
      assert PlacedOne(mapping, f, slots);
      FilamentSent(mapping, f, slots, places);
    }
    RemapStaysOnAms(mapping, required, slots);
  }

  lemma RemapStaysOnAms(mapping: seq<int>, required: seq<Filament>, slots: seq<LiveSlot>)
    requires IsRemap(mapping, required, slots)
    ensures !AllUsedExternal(mapping)
  {
    forall p | 0 <= p < |mapping| && mapping[p] >= 0
      ensures !External(mapping[p])
    {
      assert Required(required, p);
      var f :| f in required && f.id - 1 == p;
      assert PlacedOne(mapping, f, slots);
      var i: nat :| OnlyMatch(slots, f, i) && Names(mapping, f, slots[i]);
    }
  }

  lemma FilamentSent(mapping: seq<int>, f: Filament, slots: seq<LiveSlot>, places: seq<(nat, nat)>)
    requires PlacedOne(mapping, f, slots) && RowsComeFrom(slots, places)
    ensures SentToItsRow(mapping, f, slots, places) && !External(mapping[f.id - 1])
  {
    var i: nat :| OnlyMatch(slots, f, i) && Names(mapping, f, slots[i]);
    SlotLeadsBackToTray(places[i].0, places[i].1);
    assert SentTo(mapping[f.id - 1], places[i]);
  }

  ghost predicate RowsComeFrom(slots: seq<LiveSlot>, places: seq<(nat, nat)>) {
    |places| == |slots| &&
    forall i :: 0 <= i < |slots| ==>
      Supported(places[i].0, places[i].1) && slots[i].number == Some(AmsSlotNumber(places[i].0, places[i].1))
  }

  ghost predicate SentToItsRow(mapping: seq<int>, f: Filament, slots: seq<LiveSlot>, places: seq<(nat, nat)>)
    requires |places| == |slots|
  {
    1 <= f.id <= |mapping| &&
    exists i: nat :: OnlyMatch(slots, f, i) && SentTo(mapping[f.id - 1], places[i])
  }

  /** How a unit and tray are named on the wire: four trays a regular unit, the A2L's own, one an AMS-HT. */
  function WireOf(place: (nat, nat)): Target {
    if 128 <= place.0 <= 135 then Target(place.0, place.0, 0)
    else if place.0 == 16 then Target(place.1, 16, place.1)
    else Target(4 * place.0 + place.1, place.0, place.1)
  }

  predicate SentTo(tray: int, place: (nat, nat)) { TargetOf(tray) == WireOf(place) }

  // ---------------------------------------------------------------------------
  // From the AMS to the start
  // ---------------------------------------------------------------------------

  /** The live slots are the reported rows, colours and types normalised: a slot has a colour only where its row has. */
  ghost predicate LiveRows(rows: seq<AmsReport.Slot>, slots: seq<LiveSlot>) {
    |slots| == |rows| &&
    forall i :: 0 <= i < |rows| ==>
      slots[i].number == Some(rows[i].number) && (slots[i].colour.Some? ==> rows[i].colour.Some?)
  }

  function PlacesOf(trays: seq<AmsReport.Placed>): (places: seq<(nat, nat)>)
    ensures |places| == |trays| && forall i :: 0 <= i < |trays| ==> places[i] == (trays[i].unitId, trays[i].tray.id)
  {
    seq(|trays|, i requires 0 <= i < |trays| => (trays[i].unitId, trays[i].tray.id))
  }

  ghost predicate AllSupported(trays: seq<AmsReport.Placed>) {
    forall i :: 0 <= i < |trays| ==> Supported(trays[i].unitId, trays[i].tray.id)
  }

  /** This tray of the AMS holds a spool of a known colour, and is the one the filament's position is sent to. */
  ghost predicate SentToPresent(mapping: seq<int>, f: Filament, placed: AmsReport.Placed, bits: Option<set<nat>>) {
    1 <= f.id <= |mapping| && SentTo(mapping[f.id - 1], (placed.unitId, placed.tray.id)) &&
    AmsReport.PresenceOf(placed, bits) == Some(true) && CleanStr(TrayColour(placed.tray.body)).Some?
  }

  lemma ReportedRow(rows: seq<AmsReport.Slot>, trays: seq<AmsReport.Placed>, bits: Option<set<nat>>, i: nat)
    requires AmsReport.RowsMatch(rows, trays, bits) && i < |rows|
    ensures rows[i].number == AmsSlotNumber(trays[i].unitId, trays[i].tray.id)
    ensures rows[i].colour.Some? ==>
              AmsReport.PresenceOf(trays[i], bits) == Some(true) && CleanStr(TrayColour(trays[i].tray.body)).Some?
  {
  }

  lemma ReportedRowsComeFrom(
      rows: seq<AmsReport.Slot>, trays: seq<AmsReport.Placed>, bits: Option<set<nat>>, slots: seq<LiveSlot>)
    requires AmsReport.RowsMatch(rows, trays, bits) && AllSupported(trays) && LiveRows(rows, slots)
    ensures RowsComeFrom(slots, PlacesOf(trays))
  {
    var places := PlacesOf(trays);
    forall i | 0 <= i < |slots|
      ensures Supported(places[i].0, places[i].1) && slots[i].number == Some(AmsSlotNumber(places[i].0, places[i].1))
    {
      ReportedRow(rows, trays, bits, i);
    }
  }

  /**
   * From the merged AMS to the wire: a remap onto the rows `parse_ams` gave names, for each
   * required filament, a tray that AMS lists, that holds a spool, and whose colour was read.
   */
  lemma RemapNamesPresentTrays(
      rows: seq<AmsReport.Slot>, trays: seq<AmsReport.Placed>, bits: Option<set<nat>>,
      mapping: seq<int>, required: seq<Filament>, slots: seq<LiveSlot>)
    requires AmsReport.RowsMatch(rows, trays, bits) && AllSupported(trays) && LiveRows(rows, slots)
    requires IsRemap(mapping, required, slots)
    ensures forall f <- required :: exists placed <- trays :: SentToPresent(mapping, f, placed, bits)
  {
    ReportedRowsComeFrom(rows, trays, bits, slots);
    forall f | f in required
      ensures exists placed <- trays :: SentToPresent(mapping, f, placed, bits)
    {
      assert PlacedOne(mapping, f, slots);
      FilamentSent(mapping, f, slots, PlacesOf(trays));
      var i: nat :| OnlyMatch(slots, f, i) && SentTo(mapping[f.id - 1], PlacesOf(trays)[i]);
      ReportedRow(rows, trays, bits, i);
      assert trays[i] in trays && SentToPresent(mapping, f, trays[i], bits);
    }
  }
}
