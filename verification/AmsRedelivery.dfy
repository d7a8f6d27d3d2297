/**
 * Reports are subscribed at QoS 1 (section 4.3.2 of MQTT 3.1.1: at least once), so the same
 * delta may be merged twice. The second merge changes nothing.
 */
module AmsRedelivery {
  import opened Base
  import opened Keyed
  import opened Ams
  import opened AmsHistory

  // ---------------------------------------------------------------------------
  // Redelivery: QoS 1 may deliver the same delta twice
  // ---------------------------------------------------------------------------

  function Compose(first: Effect, second: Effect): Effect {
    match second
    case Keep => first
    case Write(_) => second
    case Erase => second
    case Offer(v) =>
      if first.Write? && RealIdentity(first.v) then first
      else if first.Keep? || first.Offer? then second
      else Write(v)
  }

  /** A run of events acts on one key like a single effect. */
  function Summary(events: seq<TrayEvent>, key: Key): (effect: Effect)
    ensures effect.Offer? ==> !RealIdentity(effect.v)
  {
    if events == [] then Keep
    else Compose(Summary(events[..|events| - 1], key), EffectOf(events[|events| - 1], key))
  }

  lemma {:induction false} TrackIsSummary(current: Option<Value>, events: seq<TrayEvent>, key: Key)
    ensures Track(current, events, key) == Apply(current, Summary(events, key))
  {
    if events != [] {
      TrackIsSummary(current, events[..|events| - 1], key);
    }
  }

  lemma TrackTwice(current: Option<Value>, events: seq<TrayEvent>, key: Key)
    ensures Track(Track(current, events, key), events, key) == Track(current, events, key)
  {
    TrackIsSummary(current, events, key);
    TrackIsSummary(Track(current, events, key), events, key);
  }

  predicate Mentions(incoming: seq<Unit>, u: nat) { exists i :: 0 <= i < |incoming| && incoming[i].id == u }

  predicate MentionsTray(incoming: seq<Unit>, u: nat, t: nat) {
    exists i :: 0 <= i < |incoming| && incoming[i].id == u && ListsTray(incoming[i].body.trays, t)
  }

  predicate ListsTray(trays: seq<Tray>, t: nat) { exists j :: 0 <= j < |trays| && trays[j].id == t }

  function Overlay(incoming: seq<Unit>, u: nat): Fields {
    if incoming == [] then map[]
    else
      var last := incoming[|incoming| - 1];
      if last.id == u then Overlay(incoming[..|incoming| - 1], u) + last.body.fields
      else Overlay(incoming[..|incoming| - 1], u)
  }

  function UnitOr(units: map<nat, UnitView>, u: nat): UnitView { if u in units then units[u] else NO_UNIT }

  lemma {:induction false} FoldTraysShape(
      unitId: nat, trays: map<nat, Fields>, incoming: seq<Tray>, bits: Option<set<nat>>, t: nat)
    ensures t in FoldTrays(unitId, trays, incoming, bits) <==> t in trays || ListsTray(incoming, t)
  {
    if incoming != [] {
      var last := |incoming| - 1;
      FoldTraysShape(unitId, trays, incoming[..last], bits, t);
      assert ListsTray(incoming, t) <==> ListsTray(incoming[..last], t) || incoming[last].id == t;
    }
  }

  lemma {:induction false} FoldUnitsMembers(
      units: map<nat, UnitView>, incoming: seq<Unit>, bits: Option<set<nat>>, u: nat)
    ensures u in FoldUnits(units, incoming, bits) <==> u in units || Mentions(incoming, u)
  {
    if incoming != [] {
      var last := |incoming| - 1;
      var init := incoming[..last];
      FoldUnitsMembers(units, init, bits, u);
      assert Mentions(incoming, u) <==> Mentions(init, u) || incoming[last].id == u;
      UpdateUnitFields(FoldUnits(units, init, bits), incoming[last], bits, u);
    }
  }

  lemma {:induction false} FoldUnitsFields(
      units: map<nat, UnitView>, incoming: seq<Unit>, bits: Option<set<nat>>, u: nat)
    ensures UnitOr(FoldUnits(units, incoming, bits), u).fields == UnitOr(units, u).fields + Overlay(incoming, u)
  {
    if incoming != [] {
      var last := |incoming| - 1;
      var init := incoming[..last];
      FoldUnitsFields(units, init, bits, u);
      UpdateUnitFields(FoldUnits(units, init, bits), incoming[last], bits, u);
      OverlaysJoin(UnitOr(units, u).fields, Overlay(init, u), incoming[last].body.fields);
    }
  }

  lemma OverlaysJoin(a: Fields, b: Fields, c: Fields)
    ensures (a + b) + c == a + (b + c)
  {
  }

  lemma UpdateUnitFields(units: map<nat, UnitView>, unit: Unit, bits: Option<set<nat>>, u: nat)
    ensures u in UpdateUnit(units, unit, bits) <==> u in units || unit.id == u
    ensures UnitOr(UpdateUnit(units, unit, bits), u).fields ==
            if unit.id == u then UnitOr(units, u).fields + unit.body.fields else UnitOr(units, u).fields
  {
  }

  lemma {:induction false} FoldUnitsTrays(
      units: map<nat, UnitView>, incoming: seq<Unit>, bits: Option<set<nat>>, u: nat, t: nat)
    ensures t in UnitOr(FoldUnits(units, incoming, bits), u).trays <==>
            t in UnitOr(units, u).trays || MentionsTray(incoming, u, t)
  {
    if incoming != [] {
      var last := |incoming| - 1;
      var init := incoming[..last];
      FoldUnitsTrays(units, init, bits, u, t);
      MentionsTrayLast(incoming, u, t);
      var before := FoldUnits(units, init, bits);
      assert FoldUnits(units, incoming, bits) == UpdateUnit(before, incoming[last], bits);
      if incoming[last].id == u {
        FoldTraysShape(u, UnitOr(before, u).trays, incoming[last].body.trays, bits, t);
      }
    }
  }

  lemma MentionsTrayLast(incoming: seq<Unit>, u: nat, t: nat)
    requires incoming != []
    ensures var last := incoming[|incoming| - 1];
            MentionsTray(incoming, u, t) <==>
            MentionsTray(incoming[..|incoming| - 1], u, t) || (last.id == u && ListsTray(last.body.trays, t))
  {
    var init := incoming[..|incoming| - 1];
    if i :| 0 <= i < |init| && init[i].id == u && ListsTray(init[i].body.trays, t) {
      assert incoming[i].id == u && ListsTray(incoming[i].body.trays, t);
    }
    if i :| 0 <= i < |incoming| && incoming[i].id == u && ListsTray(incoming[i].body.trays, t) {
      assert i < |init| ==> init[i].id == u && ListsTray(init[i].body.trays, t);
    }
  }

  lemma SameUnits(a: map<nat, UnitView>, b: map<nat, UnitView>)
    requires a.Keys == b.Keys
    requires forall u :: u in a ==> a[u].fields == b[u].fields && a[u].trays.Keys == b[u].trays.Keys
    requires forall u, t, key :: LookupUnits(a, u, t, key) == LookupUnits(b, u, t, key)
    ensures a == b
  {
    forall u | u in a
      ensures a[u] == b[u]
    {
      forall t | t in a[u].trays
        ensures a[u].trays[t] == b[u].trays[t]
      {
        forall key
          ensures key in a[u].trays[t] <==> key in b[u].trays[t]
          ensures key in a[u].trays[t] ==> a[u].trays[t][key] == b[u].trays[t][key]
        {
          assert LookupUnits(a, u, t, key) == LookupUnits(b, u, t, key);
        }
      }
      assert a[u].trays == b[u].trays;
    }
  }

  /** Delivering a delta a second time changes nothing, whatever was remembered before. */
  lemma MergeRedelivery(previous: AmsView, delta: AmsObject)
    ensures MergeView(MergeView(previous, delta), delta) == MergeView(previous, delta)
  {
    var once := MergeView(previous, delta);
    var twice := MergeView(once, delta);
    assert BitsAfter(once, delta) == BitsAfter(previous, delta);
    if once.units.Some? {
      forall u
        ensures u in once.units.value <==> u in twice.units.value
        ensures u in once.units.value ==> once.units.value[u].fields == twice.units.value[u].fields
        ensures u in once.units.value ==> once.units.value[u].trays.Keys == twice.units.value[u].trays.Keys
      {
        RedeliveryKeepsUnit(previous, delta, u);
        forall t
          ensures HasTray(once, u, t) == HasTray(twice, u, t)
        {
          RedeliveryKeepsTray(previous, delta, u, t);
        }
        if u in once.units.value {
          assert forall t :: t in once.units.value[u].trays <==> HasTray(once, u, t);
          assert forall t :: t in twice.units.value[u].trays <==> HasTray(twice, u, t);
        }
      }
      forall u, t, key
        ensures LookupUnits(once.units.value, u, t, key) == LookupUnits(twice.units.value, u, t, key)
      {
        MergeTracks(previous, delta, u, t, key);
        MergeTracks(once, delta, u, t, key);
        TrackTwice(Lookup(previous, u, t, key), DeltaEvents(delta, u, t, BitsAfter(previous, delta)), key);
      }
      SameUnits(once.units.value, twice.units.value);
    }
  }

  predicate HasTray(ams: AmsView, u: nat, t: nat) {
    ams.units.Some? && u in ams.units.value && t in ams.units.value[u].trays
  }

  /** A merge keeps a unit iff it is not gone, and a tray with it; fields pile up in order. */
  lemma MergeShape(previous: AmsView, delta: AmsObject, u: nat)
    requires delta.units.Some? && delta.units.value != []
    ensures var units := MergeView(previous, delta).units.value;
            (u in units <==> !UnitGone(delta.unitBits, u) &&
                             (u in previous.units.GetOr(map[]) || Mentions(delta.units.value, u))) &&
            (u in units ==> units[u].fields ==
                            UnitOr(previous.units.GetOr(map[]), u).fields + Overlay(delta.units.value, u))
  {
    FoldUnitsMembers(previous.units.GetOr(map[]), delta.units.value, BitsAfter(previous, delta), u);
    FoldUnitsFields(previous.units.GetOr(map[]), delta.units.value, BitsAfter(previous, delta), u);
  }

  lemma MergeTrayShape(previous: AmsView, delta: AmsObject, u: nat, t: nat)
    requires delta.units.Some? && delta.units.value != []
    ensures HasTray(MergeView(previous, delta), u, t) <==>
            !UnitGone(delta.unitBits, u) && (HasTray(previous, u, t) || MentionsTray(delta.units.value, u, t))
  {
    var units := previous.units.GetOr(map[]);
    FoldUnitsMembers(units, delta.units.value, BitsAfter(previous, delta), u);
    FoldUnitsTrays(units, delta.units.value, BitsAfter(previous, delta), u, t);
    assert HasTray(previous, u, t) <==> t in UnitOr(units, u).trays;
    if MentionsTray(delta.units.value, u, t) {
      assert Mentions(delta.units.value, u);
    }
  }

  lemma RedeliveryKeepsUnit(previous: AmsView, delta: AmsObject, u: nat)
    requires MergeView(previous, delta).units.Some?
    ensures var once := MergeView(previous, delta).units.value;
            var twice := MergeView(MergeView(previous, delta), delta).units.value;
            (u in once <==> u in twice) && (u in once ==> once[u].fields == twice[u].fields)
  {
    if delta.units.Some? && delta.units.value != [] {
      MergeShape(previous, delta, u);
      MergeShape(MergeView(previous, delta), delta, u);
    }
  }

  lemma RedeliveryKeepsTray(previous: AmsView, delta: AmsObject, u: nat, t: nat)
    ensures HasTray(MergeView(MergeView(previous, delta), delta), u, t) == HasTray(MergeView(previous, delta), u, t)
  {
    if delta.units.Some? && delta.units.value != [] {
      MergeTrayShape(previous, delta, u, t);
      MergeTrayShape(MergeView(previous, delta), delta, u, t);
    }
  }

  // ---------------------------------------------------------------------------
  // What every merged AMS looks like
  // ---------------------------------------------------------------------------

  /** No tray whose bit is clear still carries a reading or a spool identity. */
  ghost predicate ClearTraysAreBlank(ams: AmsView) {
    ams.units.Some? ==>
      forall u, t :: u in ams.units.value && t in ams.units.value[u].trays && TrayCleared(ams.trayBits, u, t) ==>
        forall key <- ams.units.value[u].trays[t] :: !IsReading(key) && !IsIdentity(key)
  }

  /** A unit the delta's unit bits call gone is forgotten, and nothing else is. */
  lemma MergedIsClean(previous: AmsView, delta: AmsObject)
    ensures ClearTraysAreBlank(MergeView(previous, delta))
    ensures MergeView(previous, delta).units.Some? ==>
              forall u :: u in MergeView(previous, delta).units.value <==>
                !(delta.unitBits.Some? && u in {0, 1, 2, 3} && u !in delta.unitBits.value) &&
                (if delta.units == Some([]) then false
                 else (delta.units.Some? && Mentions(delta.units.value, u)) ||
                      (previous.units.Some? && u in previous.units.value))
  {
    if delta.units.Some? && delta.units.value != [] {
      forall u {
        FoldUnitsMembers(previous.units.GetOr(map[]), delta.units.value, BitsAfter(previous, delta), u);
      }
    }
  }
}
