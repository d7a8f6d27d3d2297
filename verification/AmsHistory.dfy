/**
 * The merged AMS agrees with the history of each tray: every reading is the latest one
 * named since the tray was last blanked, and a real spool tag outlives zeroed reads.
 */
module AmsHistory {
  import opened Base
  import opened Keyed
  import opened Ams

  // ---------------------------------------------------------------------------
  // The history specification: what happened to one tray, in order
  // ---------------------------------------------------------------------------

  /** One thing a delta did to a given tray. `Gone` takes the tray away altogether. */
  datatype TrayEvent = Reported(fields: Fields) | Unloaded(fields: Fields) | Blanked | Gone

  function TrayEvents(unitId: nat, trays: seq<Tray>, trayId: nat, bits: Option<set<nat>>): seq<TrayEvent> {
    if trays == [] then []
    else
      var last := trays[|trays| - 1];
      TrayEvents(unitId, trays[..|trays| - 1], trayId, bits) + ReportEvents(unitId, last, trayId, bits)
  }

  function UnitEvents(units: seq<Unit>, unitId: nat, trayId: nat, bits: Option<set<nat>>): seq<TrayEvent> {
    if units == [] then []
    else
      var last := units[|units| - 1];
      UnitEvents(units[..|units| - 1], unitId, trayId, bits) +
      if last.id == unitId then TrayEvents(unitId, last.body.trays, trayId, bits) else []
  }

  function NamingEvents(delta: AmsObject, unitId: nat, trayId: nat, bits: Option<set<nat>>): seq<TrayEvent> {
    if delta.units.None? then []
    else if delta.units.value == [] then [Gone]
    else UnitEvents(delta.units.value, unitId, trayId, bits)
  }

  /** Everything one delta did to this tray, `bits` being the tray bitmask then in force. */
  function DeltaEvents(delta: AmsObject, unitId: nat, trayId: nat, bits: Option<set<nat>>): seq<TrayEvent> {
    NamingEvents(delta, unitId, trayId, bits)
    + (if UnitGone(delta.unitBits, unitId) then [Gone] else [])
    + (if TrayCleared(bits, unitId, trayId) then [Blanked] else [])
  }

  /** The bitmask in force after these deltas: the last one any of them carried. */
  function LatestBits(deltas: seq<AmsObject>): Option<set<nat>> {
    if deltas == [] then None
    else if deltas[|deltas| - 1].trayBits.Some? then deltas[|deltas| - 1].trayBits
    else LatestBits(deltas[..|deltas| - 1])
  }

  function History(deltas: seq<AmsObject>, unitId: nat, trayId: nat): seq<TrayEvent> {
    if deltas == [] then []
    else History(deltas[..|deltas| - 1], unitId, trayId)
         + DeltaEvents(deltas[|deltas| - 1], unitId, trayId, LatestBits(deltas))
  }

  /** What is remembered under `key` for one tray. */
  function Lookup(ams: AmsView, unitId: nat, trayId: nat, key: Key): Option<Value> {
    if ams.units.Some? then LookupUnits(ams.units.value, unitId, trayId, key) else None
  }

  function LookupUnits(units: map<nat, UnitView>, unitId: nat, trayId: nat, key: Key): Option<Value> {
    if unitId in units then LookupTrays(units[unitId].trays, trayId, key) else None
  }

  function LookupTrays(trays: map<nat, Fields>, trayId: nat, key: Key): Option<Value> {
    if trayId in trays && key in trays[trayId] then Some(trays[trayId][key]) else None
  }

  // What one event does to one key: `Offer` is a zeroed tag, which never hides a real one.
  datatype Effect = Keep | Write(v: Value) | Offer(v: Value) | Erase

  function EffectOf(event: TrayEvent, key: Key): (effect: Effect)
    ensures effect.Offer? ==> !RealIdentity(effect.v)
  {
    match event
    case Reported(fields) =>
      if IsReading(key) then
        if key in fields then Write(fields[key])
        else if IsColour(key) && NamesColour(fields) then Erase
        else Keep
      else if key !in fields then Keep
      else if IsIdentity(key) then
        if RealIdentity(fields[key]) || TaglessReading(fields) then Write(fields[key]) else Offer(fields[key])
      else if fields[key] in {Null, Text("")} then Keep else Write(fields[key])
    case Unloaded(fields) =>
      if (IsReading(key) || IsIdentity(key)) then Erase
      else if key in fields then Write(fields[key]) else Keep
    case Blanked => if (IsReading(key) || IsIdentity(key)) then Erase else Keep
    case Gone => Erase
  }

  function Apply(current: Option<Value>, effect: Effect): Option<Value> {
    match effect
    case Keep => current
    case Write(v) => Some(v)
    case Offer(v) => if current.Some? && RealIdentity(current.value) then current else Some(v)
    case Erase => None
  }

  function Track(current: Option<Value>, events: seq<TrayEvent>, key: Key): Option<Value> {
    if events == [] then current
    else Apply(Track(current, events[..|events| - 1], key), EffectOf(events[|events| - 1], key))
  }

  lemma {:induction false} TrackConcat(current: Option<Value>, a: seq<TrayEvent>, b: seq<TrayEvent>, key: Key)
    ensures Track(current, a + b, key) == Track(Track(current, a, key), b, key)
  {
    if b == [] {
      assert a + b == a;
    } else {
      TrackConcat(current, a, b[..|b| - 1], key);
      assert (a + b)[..|a + b| - 1] == a + b[..|b| - 1];
    }
  }

  lemma TrackOne(current: Option<Value>, event: TrayEvent, key: Key)
    ensures Track(current, [event], key) == Apply(current, EffectOf(event, key))
  {
    assert [event][..0] == [];
    assert Track(current, [], key) == current;
  }

  function FieldOf(fields: Fields, key: Key): Option<Value> { if key in fields then Some(fields[key]) else None }

  lemma MergeTrayKey(stored: Fields, incoming: Fields, key: Key)
    ensures FieldOf(MergeTray(stored, incoming), key) == Apply(FieldOf(stored, key), EffectOf(Reported(incoming), key))
  {
    var base := ColourBase(stored, incoming);
    assert FieldOf(base, key) == if NamesColour(incoming) && IsColour(key) then None else FieldOf(stored, key);
    assert FieldOf(MergeTray(stored, incoming), key) ==
           if key in incoming && Takes(base, incoming, key) then Some(incoming[key]) else FieldOf(base, key);
  }

  lemma UnloadTrayKey(stored: Fields, incoming: Fields, key: Key)
    ensures FieldOf(BlankTray(stored + incoming), key) == Apply(FieldOf(stored, key), EffectOf(Unloaded(incoming), key))
  {
  }

  /** One report of a tray: its event, or none when the report is about another tray. */
  function ReportEvents(unitId: nat, tray: Tray, trayId: nat, bits: Option<set<nat>>): seq<TrayEvent> {
    if tray.id != trayId then []
    else if TrayPresence(unitId, tray, bits) == Some(false) then [Unloaded(tray.body)]
    else [Reported(tray.body)]
  }

  lemma ReportTracks(unitId: nat, stored: Fields, tray: Tray, bits: Option<set<nat>>, key: Key)
    ensures FieldOf(if TrayPresence(unitId, tray, bits) == Some(false) then BlankTray(stored + tray.body)
                    else MergeTray(stored, tray.body), key) ==
            Track(FieldOf(stored, key), ReportEvents(unitId, tray, tray.id, bits), key)
  {
    if TrayPresence(unitId, tray, bits) == Some(false) {
      UnloadTrayKey(stored, tray.body, key);
      TrackOne(FieldOf(stored, key), Unloaded(tray.body), key);
    } else {
      MergeTrayKey(stored, tray.body, key);
      TrackOne(FieldOf(stored, key), Reported(tray.body), key);
    }
  }

  lemma UpdateTrayTracks(unitId: nat, trays: map<nat, Fields>, tray: Tray, bits: Option<set<nat>>, t: nat, key: Key)
    ensures LookupTrays(UpdateTray(unitId, trays, tray, bits), t, key) ==
            Track(LookupTrays(trays, t, key), ReportEvents(unitId, tray, t, bits), key)
  {
    if tray.id == t {
      var stored := if t in trays then trays[t] else map[];
      assert LookupTrays(trays, t, key) == FieldOf(stored, key);
      assert LookupTrays(UpdateTray(unitId, trays, tray, bits), t, key) ==
        FieldOf(UpdateTray(unitId, trays, tray, bits)[t], key);
      ReportTracks(unitId, stored, tray, bits, key);
    }
  }

  lemma {:induction false} FoldTraysTracks(
      unitId: nat, trays: map<nat, Fields>, incoming: seq<Tray>, bits: Option<set<nat>>, t: nat, key: Key)
    ensures LookupTrays(FoldTrays(unitId, trays, incoming, bits), t, key) ==
            Track(LookupTrays(trays, t, key), TrayEvents(unitId, incoming, t, bits), key)
  {
    if incoming != [] {
      var last := |incoming| - 1;
      FoldTraysTracks(unitId, trays, incoming[..last], bits, t, key);
      var before := FoldTrays(unitId, trays, incoming[..last], bits);
      UpdateTrayTracks(unitId, before, incoming[last], bits, t, key);
      var one := ReportEvents(unitId, incoming[last], t, bits);
      TrackConcat(LookupTrays(trays, t, key), TrayEvents(unitId, incoming[..last], t, bits), one, key);
    }
  }

  lemma {:induction false} FoldUnitsTracks(
      units: map<nat, UnitView>, incoming: seq<Unit>, bits: Option<set<nat>>, u: nat, t: nat, key: Key)
    ensures LookupUnits(FoldUnits(units, incoming, bits), u, t, key) ==
            Track(LookupUnits(units, u, t, key), UnitEvents(incoming, u, t, bits), key)
  {
    if incoming != [] {
      var last := |incoming| - 1;
      FoldUnitsTracks(units, incoming[..last], bits, u, t, key);
      var before := FoldUnits(units, incoming[..last], bits);
      var unit := incoming[last];
      if unit.id == u {
        var stored := if u in before then before[u] else NO_UNIT;
        FoldTraysTracks(u, stored.trays, unit.body.trays, bits, t, key);
        assert LookupTrays(stored.trays, t, key) == LookupUnits(before, u, t, key);
        TrackConcat(LookupUnits(units, u, t, key), UnitEvents(incoming[..last], u, t, bits),
                    TrayEvents(u, unit.body.trays, t, bits), key);
      } else {
        assert UnitEvents(incoming, u, t, bits) == UnitEvents(incoming[..last], u, t, bits) + [];
        assert UnitEvents(incoming, u, t, bits) == UnitEvents(incoming[..last], u, t, bits);
      }
    }
  }

  lemma SettleTracks(
      units: map<nat, UnitView>, unitBits: Option<set<nat>>, bits: Option<set<nat>>, u: nat, t: nat, key: Key)
    ensures LookupUnits(Settle(units, unitBits, bits), u, t, key) ==
            Track(Track(LookupUnits(units, u, t, key), if UnitGone(unitBits, u) then [Gone] else [], key),
                  if TrayCleared(bits, u, t) then [Blanked] else [], key)
  {
    var now := LookupUnits(units, u, t, key);
    TrackOne(now, Gone, key);
    var gone := Track(now, if UnitGone(unitBits, u) then [Gone] else [], key);
    TrackOne(gone, Blanked, key);
  }

  function LookupOpt(units: Option<map<nat, UnitView>>, u: nat, t: nat, key: Key): Option<Value> {
    if units.Some? then LookupUnits(units.value, u, t, key) else None
  }

  lemma NamingTracks(previous: AmsView, delta: AmsObject, u: nat, t: nat, key: Key)
    ensures LookupOpt(UnitsNamed(previous, delta), u, t, key) ==
            Track(Lookup(previous, u, t, key), NamingEvents(delta, u, t, BitsAfter(previous, delta)), key)
  {
    if delta.units.Some? {
      if delta.units.value == [] {
        TrackOne(Lookup(previous, u, t, key), Gone, key);
      } else {
        FoldUnitsTracks(previous.units.GetOr(map[]), delta.units.value, BitsAfter(previous, delta), u, t, key);
      }
    }
  }

  lemma SettlingTracks(units: Option<map<nat, UnitView>>, unitBits: Option<set<nat>>, bits: Option<set<nat>>,
                       u: nat, t: nat, key: Key)
    ensures LookupOpt(if units.None? then None else Some(Settle(units.value, unitBits, bits)), u, t, key) ==
            Track(Track(LookupOpt(units, u, t, key), if UnitGone(unitBits, u) then [Gone] else [], key),
                  if TrayCleared(bits, u, t) then [Blanked] else [], key)
  {
    if units.Some? {
      SettleTracks(units.value, unitBits, bits, u, t, key);
    } else {
      TrackOne(None, Gone, key);
      TrackOne(None, Blanked, key);
    }
  }

  /** One merge changes each remembered key by exactly the delta's events for that tray. */
  lemma MergeTracks(previous: AmsView, delta: AmsObject, u: nat, t: nat, key: Key)
    ensures Lookup(MergeView(previous, delta), u, t, key) ==
            Track(Lookup(previous, u, t, key), DeltaEvents(delta, u, t, BitsAfter(previous, delta)), key)
  {
    var bits := BitsAfter(previous, delta);
    var before := Lookup(previous, u, t, key);
    var naming := NamingEvents(delta, u, t, bits);
    var gone: seq<TrayEvent> := if UnitGone(delta.unitBits, u) then [Gone] else [];
    var cleared: seq<TrayEvent> := if TrayCleared(bits, u, t) then [Blanked] else [];
    NamingTracks(previous, delta, u, t, key);
    SettlingTracks(UnitsNamed(previous, delta), delta.unitBits, bits, u, t, key);
    TrackConcat(before, naming + gone, cleared, key);
    TrackConcat(before, naming, gone, key);
  }

  lemma {:induction false} MergedBits(deltas: seq<AmsObject>)
    ensures Merged(deltas).trayBits == LatestBits(deltas)
  {
    if deltas != [] {
      MergedBits(deltas[..|deltas| - 1]);
    }
  }

  /** Folding any deltas from nothing remembers, for every tray and key, what its history says. */
  lemma {:induction false} MergeIsHistory(deltas: seq<AmsObject>, u: nat, t: nat, key: Key)
    ensures Lookup(Merged(deltas), u, t, key) == Track(None, History(deltas, u, t), key)
  {
    if deltas != [] {
      var earlier := deltas[..|deltas| - 1];
      var delta := deltas[|deltas| - 1];
      MergeIsHistory(earlier, u, t, key);
      MergedBits(earlier);
      MergeTracks(Merged(earlier), delta, u, t, key);
      TrackConcat(None, History(earlier, u, t), DeltaEvents(delta, u, t, LatestBits(deltas)), key);
    }
  }

  // ---------------------------------------------------------------------------
  // Main results about the history
  // ---------------------------------------------------------------------------

  predicate Clears(event: TrayEvent) { event.Unloaded? || event.Blanked? || event.Gone? }

  /** `tray_color` and `cols` are two spellings of one field. */
  predicate NamesField(event: TrayEvent, key: Key) {
    event.Reported? &&
    (key in event.fields || (IsColour(key) && NamesColour(event.fields)))
  }

  predicate LatestNaming(history: seq<TrayEvent>, i: nat, key: Key, v: Value) {
    i < |history| && history[i].Reported? && key in history[i].fields && history[i].fields[key] == v &&
    forall j :: i < j < |history| ==> !Clears(history[j]) && !NamesField(history[j], key)
  }

  /**
   * A remembered reading is the value from the latest delta that named the field since the
   * tray was last blanked, and is absent when there is none.
   */
  lemma {:induction false} ReadingIsLatestNamed(deltas: seq<AmsObject>, u: nat, t: nat, key: Key, v: Value)
    requires IsReading(key)
    ensures Lookup(Merged(deltas), u, t, key) == Some(v) <==>
            exists i: nat :: LatestNaming(History(deltas, u, t), i, key, v)
  {
    MergeIsHistory(deltas, u, t, key);
    ReadingTrack(History(deltas, u, t), key, v);
  }

  lemma {:induction false} ReadingTrack(history: seq<TrayEvent>, key: Key, v: Value)
    requires IsReading(key)
    ensures Track(None, history, key) == Some(v) <==> exists i: nat :: LatestNaming(history, i, key, v)
  {
    if history != [] {
      var last := |history| - 1;
      var earlier := history[..last];
      var event := history[last];
      ReadingTrack(earlier, key, v);
      forall i: nat
        ensures LatestNaming(history, i, key, v) <==> NamedHere(history, i, key, v) || NamedBefore(history, i, key, v)
      {
        NamingStep(history, i, key, v);
      }
      if event.Reported? && key in event.fields {
        assert EffectOf(event, key) == Write(event.fields[key]);
        assert event.fields[key] == v ==> NamedHere(history, last, key, v);
      } else if Clears(event) || NamesField(event, key) {
        assert EffectOf(event, key) == Erase;
      } else {
        assert EffectOf(event, key) == Keep;
        assert forall i: nat :: NamedBefore(history, i, key, v) <==> LatestNaming(earlier, i, key, v);
      }
    }
  }

  predicate NamedHere(history: seq<TrayEvent>, i: nat, key: Key, v: Value) {
    i == |history| - 1 && history[i].Reported? && key in history[i].fields && history[i].fields[key] == v
  }

  predicate NamedBefore(history: seq<TrayEvent>, i: nat, key: Key, v: Value) {
    history != [] &&
    var last := |history| - 1;
    LatestNaming(history[..last], i, key, v) && !Clears(history[last]) && !NamesField(history[last], key)
  }

  lemma NamingStep(history: seq<TrayEvent>, i: nat, key: Key, v: Value)
    requires history != []
    ensures LatestNaming(history, i, key, v) <==> NamedHere(history, i, key, v) || NamedBefore(history, i, key, v)
  {
    var last := |history| - 1;
    var earlier := history[..last];
    if i < last {
      assert earlier[i] == history[i];
      assert forall j :: i < j < last ==> earlier[j] == history[j];
      assert LatestNaming(history, i, key, v) ==> LatestNaming(earlier, i, key, v);
    }
  }

  /** A new colour reading never inherits the other spelling from the spool before it. */
  lemma NoInheritedColour(deltas: seq<AmsObject>, u: nat, t: nat, key: Key, other: Key)
    requires IsColour(key) && IsColour(other) && key != other
    requires var h := History(deltas, u, t);
             h != [] && h[|h| - 1].Reported? && key in h[|h| - 1].fields && other !in h[|h| - 1].fields
    ensures Lookup(Merged(deltas), u, t, other).None?
  {
    MergeIsHistory(deltas, u, t, other);
    var h := History(deltas, u, t);
    assert EffectOf(h[|h| - 1], other) == Erase;
  }

  /** Which spool a history leaves in the tray: a real tag survives everything but these. */
  predicate LatestRealTag(history: seq<TrayEvent>, i: nat, key: Key, v: Value) {
    i < |history| && history[i].Reported? && key in history[i].fields && history[i].fields[key] == v &&
    forall j :: i < j < |history| ==> !Clears(history[j]) && !Retags(history[j], key)
  }

  /** A report that replaces a real tag: another real one, or a type with every tag zeroed. */
  predicate Retags(event: TrayEvent, key: Key) {
    event.Reported? && key in event.fields && (RealIdentity(event.fields[key]) || TaglessReading(event.fields))
  }

  /** A real tag is remembered exactly while nothing since cleared the tray or replaced the tag. */
  lemma IdentityIsLatestReal(deltas: seq<AmsObject>, u: nat, t: nat, key: Key, v: Value)
    requires IsIdentity(key) && RealIdentity(v)
    ensures Lookup(Merged(deltas), u, t, key) == Some(v) <==>
            exists i: nat :: LatestRealTag(History(deltas, u, t), i, key, v)
  {
    MergeIsHistory(deltas, u, t, key);
    IdentityTrack(History(deltas, u, t), key, v);
  }

  lemma {:induction false} IdentityTrack(history: seq<TrayEvent>, key: Key, v: Value)
    requires IsIdentity(key) && RealIdentity(v)
    ensures Track(None, history, key) == Some(v) <==> exists i: nat :: LatestRealTag(history, i, key, v)
  {
    if history != [] {
      var last := |history| - 1;
      var earlier := history[..last];
      IdentityTrack(earlier, key, v);
      var event := history[last];
      if Retags(event, key) {
        assert EffectOf(event, key) == Write(event.fields[key]);
        assert event.fields[key] == v ==> LatestRealTag(history, last, key, v);
        assert forall i: nat :: i < last ==> !LatestRealTag(history, i, key, v);
      } else if Clears(event) {
        assert forall i: nat :: i < last ==> !LatestRealTag(history, i, key, v);
      } else {
        assert EffectOf(event, key).Keep? || EffectOf(event, key).Offer?;
        if i: nat :| LatestRealTag(earlier, i, key, v) {
          assert LatestRealTag(history, i, key, v);
        }
        if i: nat :| LatestRealTag(history, i, key, v) {
          assert i < last;
          assert LatestRealTag(earlier, i, key, v);
        }
      }
    }
  }
}
