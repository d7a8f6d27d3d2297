/**
 * When a report empties a tray and when it does not, told from what the report and the bitmask say:
 * the fields the merge then remembers. Also what the strings, tags and keys it looks at mean.
 */
module AmsUnload {
  import opened Base
  import opened Keyed
  import opened Ams
  import opened AmsHistory

  // ---------------------------------------------------------------------------
  // What the fields mean
  // ---------------------------------------------------------------------------

  const READINGS: set<Key> := {TrayColor, Cols, TrayType, TraySubBrands, TrayInfoIdx, TrayIdName, Remain}
  const IDENTITIES: set<Key> := {TagUid, TrayUuid}
  const COLOURS: set<Key> := {TrayColor, Cols}

  lemma KeysAreThese(key: Key)
    ensures IsReading(key) <==> key in READINGS
    ensures IsIdentity(key) <==> key in IDENTITIES
    ensures IsColour(key) <==> key in COLOURS
  {
  }

  ghost predicate Blanks(s: string) { forall i :: 0 <= i < |s| ==> IsSpace(s[i]) }

  /** `t` is `s` without the white space around it. */
  ghost predicate Stripped(s: string, t: string) {
    (exists a, b :: s == a + t + b && Blanks(a) && Blanks(b)) &&
    (t != "" ==> !IsSpace(t[0]) && !IsSpace(t[|t| - 1]))
  }

  lemma {:induction false} StripLeftCuts(s: string) returns (a: string)
    ensures s == a + StripLeft(s) && Blanks(a)
    ensures StripLeft(s) != "" ==> !IsSpace(StripLeft(s)[0])
  {
    if s != "" && IsSpace(s[0]) {
      var rest := StripLeftCuts(s[1..]);
      a := [s[0]] + rest;
      assert s == [s[0]] + s[1..];
    } else {
      a := "";
    }
  }

  lemma {:induction false} StripRightCuts(s: string) returns (b: string)
    ensures s == StripRight(s) + b && Blanks(b)
    ensures StripRight(s) != "" ==> !IsSpace(StripRight(s)[|StripRight(s)| - 1]) && StripRight(s)[0] == s[0]
  {
    if s != "" && IsSpace(s[|s| - 1]) {
      var init := s[..|s| - 1];
      var rest := StripRightCuts(init);
      b := rest + [s[|s| - 1]];
      assert s == init + [s[|s| - 1]];
    } else {
      b := "";
    }
  }

  lemma StripStrips(s: string)
    ensures Stripped(s, Strip(s))
  {
    var a := StripLeftCuts(s);
    var b := StripRightCuts(StripLeft(s));
    assert s == a + Strip(s) + b;
  }

  /** The text of a value, stripped, when there is any. */
  ghost predicate Says(v: Value, text: string) { v.Text? && text != "" && Stripped(v.text, text) }

  /** The first, and the last, character of `s` that is no white space. */
  ghost predicate FirstSolid(s: string, n: nat) {
    n < |s| && !IsSpace(s[n]) && forall i :: 0 <= i < n ==> IsSpace(s[i])
  }

  ghost predicate LastSolid(s: string, n: nat) {
    n < |s| && !IsSpace(s[n]) && forall i :: n < i < |s| ==> IsSpace(s[i])
  }

  lemma SolidIsUnique(s: string, m: nat, n: nat)
    ensures FirstSolid(s, m) && FirstSolid(s, n) ==> m == n
    ensures LastSolid(s, m) && LastSolid(s, n) ==> m == n
  {
  }

  lemma FirstAfterBlanks(a: string, rest: string)
    requires Blanks(a) && rest != "" && !IsSpace(rest[0])
    ensures FirstSolid(a + rest, |a|)
  {
  }

  lemma LastBeforeBlanks(rest: string, b: string)
    requires Blanks(b) && rest != "" && !IsSpace(rest[|rest| - 1])
    ensures LastSolid(rest + b, |rest| - 1)
  {
    assert forall i :: |rest| <= i < |rest + b| ==> (rest + b)[i] == b[i - |rest|];
  }

  /** A non-empty stripped text runs from the first to the last solid character. */
  lemma StrippedRuns(s: string, t: string) returns (m: nat, n: nat)
    requires Stripped(s, t) && t != ""
    ensures m <= n && FirstSolid(s, m) && LastSolid(s, n) && t == s[m..n + 1]
  {
    var a, b :| s == a + t + b && Blanks(a) && Blanks(b);
    m, n := |a|, |a| + |t| - 1;
    assert s == a + (t + b) && (t + b)[0] == t[0];
    FirstAfterBlanks(a, t + b);
    assert (a + t)[|a + t| - 1] == t[|t| - 1];
    LastBeforeBlanks(a + t, b);
    assert t == s[m..n + 1];
  }

  lemma EmptyStripped(s: string)
    requires Stripped(s, "")
    ensures Blanks(s)
  {
    var a, b :| s == a + "" + b && Blanks(a) && Blanks(b);
    assert forall i :: 0 <= i < |s| ==> s[i] == if i < |a| then a[i] else b[i - |a|];
  }

  lemma StrippedIsUnique(s: string, t: string, u: string)
    requires Stripped(s, t) && Stripped(s, u) && t != ""
    ensures t == u
  {
    var m, n := StrippedRuns(s, t);
    if u == "" {
      EmptyStripped(s);
    } else {
      var k, l := StrippedRuns(s, u);
      SolidIsUnique(s, m, k);
      SolidIsUnique(s, n, l);
    }
  }

  /** `clean_str` reads exactly the text a value says. */
  lemma CleanStrReads(v: Value, text: string)
    ensures CleanStr(v) == Some(text) <==> Says(v, text)
  {
    if v.Text? {
      StripStrips(v.text);
      if Says(v, text) {
        StrippedIsUnique(v.text, text, Strip(v.text));
      }
    }
  }

  /** A tag is real exactly when it says something other than zeros. */
  lemma RealMeans(v: Value)
    ensures RealIdentity(v) <==> exists text :: Says(v, text) && exists i :: 0 <= i < |text| && text[i] != '0'
  {
    if RealIdentity(v) {
      CleanStrReads(v, CleanStr(v).value);
    }
    if text :| Says(v, text) && exists i :: 0 <= i < |text| && text[i] != '0' {
      CleanStrReads(v, text);
    }
  }

  /** A value that names no colour: missing, empty, or eight zeros. */
  ghost predicate NoColourNamed(v: Value) {
    v == Null || v == Text("") || v == Num(0) || v == Texts([]) || Says(v, "00000000")
  }

  lemma NoColourMeans(v: Value)
    ensures Truthy(v) && !IsNoColour(v) <==> !NoColourNamed(v)
  {
    CleanStrReads(v, "00000000");
  }

  /** A colour is read from `tray_color`, or when that names none from the first of `cols`. */
  ghost predicate ColourRead(fields: Fields, colour: string) {
    if TrayColor in fields && !NoColourNamed(fields[TrayColor]) then Says(fields[TrayColor], colour)
    else
      Cols in fields && fields[Cols].Texts? && fields[Cols].items != [] &&
      Says(Text(fields[Cols].items[0]), colour) && !Says(Text(fields[Cols].items[0]), "00000000")
  }

  lemma ColourIsRead(fields: Fields, colour: string)
    ensures CleanStr(TrayColour(fields)) == Some(colour) <==> ColourRead(fields, colour)
  {
    NoColourMeans(Get(fields, TrayColor));
    CleanStrReads(Get(fields, TrayColor), colour);
    if Cols in fields && fields[Cols].Texts? && fields[Cols].items != [] {
      CleanStrReads(Text(fields[Cols].items[0]), colour);
      CleanStrReads(Text(fields[Cols].items[0]), "00000000");
    }
  }

  // ---------------------------------------------------------------------------
  // What a report says of its tray
  // ---------------------------------------------------------------------------

  /** The bit of a tray: 16 on for AMS-HT, 24 on for the A2L, four a unit for the rest. */
  function BitOf(unitId: nat, trayId: nat): nat {
    if 128 <= unitId <= 135 then 16 + (unitId - 128)
    else if unitId == 16 then 24 + trayId
    else unitId * 4 + trayId
  }

  lemma BitIsSlot(unitId: nat, trayId: nat)
    ensures AmsSlotNumber(unitId, trayId) == BitOf(unitId, trayId) + 1
  {
  }

  ghost predicate HasType(body: Fields) { TrayType in body && exists text :: Says(body[TrayType], text) }

  ghost predicate HasColour(body: Fields) { exists colour :: ColourRead(body, colour) }

  /** The report holds nothing but a state that is not a loaded one, on a unit where states count. */
  predicate OnlyIdleState(unitId: nat, body: Fields) {
    !(128 <= unitId <= 135) && body.Keys == {State} && body[State] != Num(3) && body[State] != Num(11)
  }

  /**
   * The report empties its tray: the tray's bit is known and clear; or no bits are known, no colour
   * or type is read, and the type is named blank or only an idle state is given.
   */
  ghost predicate Empties(unitId: nat, trayId: nat, body: Fields, bits: Option<set<nat>>) {
    if bits.Some? then BitOf(unitId, trayId) !in bits.value
    else !HasColour(body) && !HasType(body) && (TrayType in body || OnlyIdleState(unitId, body))
  }

  lemma TypeIsRead(body: Fields)
    ensures CleanStr(Get(body, TrayType)).Some? <==> HasType(body)
  {
    if CleanStr(Get(body, TrayType)).Some? {
      CleanStrReads(body[TrayType], CleanStr(body[TrayType]).value);
    }
    if TrayType in body {
      if text :| Says(body[TrayType], text) {
        CleanStrReads(body[TrayType], text);
      }
    }
  }

  lemma SomeColourIsRead(body: Fields)
    ensures CleanStr(TrayColour(body)).Some? <==> HasColour(body)
  {
    if CleanStr(TrayColour(body)).Some? {
      ColourIsRead(body, CleanStr(TrayColour(body)).value);
    }
    if colour :| ColourRead(body, colour) {
      ColourIsRead(body, colour);
    }
  }

  lemma PresenceMeans(unitId: nat, trayId: nat, body: Fields, bits: Option<set<nat>>)
    ensures TrayPresence(unitId, Entry(trayId, body), bits) == Some(false) <==> Empties(unitId, trayId, body, bits)
    ensures TrayPresence(unitId, Entry(trayId, body), bits) == Some(true) <==>
            if bits.Some? then BitOf(unitId, trayId) in bits.value else HasColour(body) || HasType(body)
  {
    BitIsSlot(unitId, trayId);
    TypeIsRead(body);
    SomeColourIsRead(body);
  }

  // ---------------------------------------------------------------------------
  // The last report of a tray in a delta
  // ---------------------------------------------------------------------------

  /** The last report of the tray in this list, and the list without it. */
  function LastIn(trays: seq<Tray>, trayId: nat): Option<Fields> {
    if trays == [] then None
    else if trays[|trays| - 1].id == trayId then Some(trays[|trays| - 1].body)
    else LastIn(trays[..|trays| - 1], trayId)
  }

  function WithoutLastIn(trays: seq<Tray>, trayId: nat): seq<Tray> {
    if trays == [] then []
    else
      var init, last := trays[..|trays| - 1], trays[|trays| - 1];
      if last.id == trayId then init else WithoutLastIn(init, trayId) + [last]
  }

  predicate Reports(unit: Unit, unitId: nat, trayId: nat) { unit.id == unitId && LastIn(unit.body.trays, trayId).Some? }

  function LastReport(units: seq<Unit>, unitId: nat, trayId: nat): Option<Fields> {
    if units == [] then None
    else
      var last := units[|units| - 1];
      if Reports(last, unitId, trayId) then LastIn(last.body.trays, trayId)
      else LastReport(units[..|units| - 1], unitId, trayId)
  }

  function WithoutLast(units: seq<Unit>, unitId: nat, trayId: nat): (others: seq<Unit>)
    ensures |others| == |units|
  {
    if units == [] then []
    else
      var init, last := units[..|units| - 1], units[|units| - 1];
      if Reports(last, unitId, trayId) then
        init + [last.(body := last.body.(trays := WithoutLastIn(last.body.trays, trayId)))]
      else WithoutLast(init, unitId, trayId) + [last]
  }

  lemma TrayEventsMore(unitId: nat, trays: seq<Tray>, more: Tray, trayId: nat, bits: Option<set<nat>>)
    ensures TrayEvents(unitId, trays + [more], trayId, bits) ==
            TrayEvents(unitId, trays, trayId, bits) + ReportEvents(unitId, more, trayId, bits)
  {
    assert (trays + [more])[..|trays|] == trays;
  }

  lemma UnitEventsMore(units: seq<Unit>, more: Unit, unitId: nat, trayId: nat, bits: Option<set<nat>>)
    ensures UnitEvents(units + [more], unitId, trayId, bits) ==
            UnitEvents(units, unitId, trayId, bits) +
            if more.id == unitId then TrayEvents(unitId, more.body.trays, trayId, bits) else []
  {
    assert (units + [more])[..|units|] == units;
  }

  /** These events, with one more at the end. */
  predicate OneMore(longer: seq<TrayEvent>, events: seq<TrayEvent>, unitId: nat, trayId: nat, body: Fields,
                    bits: Option<set<nat>>)
  {
    longer == events + ReportEvents(unitId, Entry(trayId, body), trayId, bits)
  }

  lemma {:induction false} LastInEvents(unitId: nat, trays: seq<Tray>, trayId: nat, bits: Option<set<nat>>)
    ensures LastIn(trays, trayId).None? ==> TrayEvents(unitId, trays, trayId, bits) == []
    ensures LastIn(trays, trayId).Some? ==>
              OneMore(TrayEvents(unitId, trays, trayId, bits),
                      TrayEvents(unitId, WithoutLastIn(trays, trayId), trayId, bits),
                      unitId, trayId, LastIn(trays, trayId).value, bits)
  {
    if trays != [] {
      var init, last := trays[..|trays| - 1], trays[|trays| - 1];
      if last.id != trayId {
        LastInEvents(unitId, init, trayId, bits);
        TrayEventsMore(unitId, WithoutLastIn(init, trayId), last, trayId, bits);
      }
    }
  }

  lemma ReportingUnitEvents(init: seq<Unit>, last: Unit, unitId: nat, trayId: nat, bits: Option<set<nat>>)
    requires Reports(last, unitId, trayId)
    ensures var less := last.(body := last.body.(trays := WithoutLastIn(last.body.trays, trayId)));
            OneMore(UnitEvents(init + [last], unitId, trayId, bits), UnitEvents(init + [less], unitId, trayId, bits),
                    unitId, trayId, LastIn(last.body.trays, trayId).value, bits)
  {
    var less := last.(body := last.body.(trays := WithoutLastIn(last.body.trays, trayId)));
    LastInEvents(unitId, last.body.trays, trayId, bits);
    UnitEventsMore(init, last, unitId, trayId, bits);
    UnitEventsMore(init, less, unitId, trayId, bits);
  }

  lemma SilentUnitEvents(units: seq<Unit>, last: Unit, unitId: nat, trayId: nat, bits: Option<set<nat>>)
    requires !Reports(last, unitId, trayId)
    ensures UnitEvents(units + [last], unitId, trayId, bits) == UnitEvents(units, unitId, trayId, bits)
  {
    LastInEvents(unitId, last.body.trays, trayId, bits);
    UnitEventsMore(units, last, unitId, trayId, bits);
  }

  lemma {:induction false} LastReportEvents(units: seq<Unit>, unitId: nat, trayId: nat, bits: Option<set<nat>>)
    requires LastReport(units, unitId, trayId).Some?
    ensures OneMore(UnitEvents(units, unitId, trayId, bits),
                    UnitEvents(WithoutLast(units, unitId, trayId), unitId, trayId, bits),
                    unitId, trayId, LastReport(units, unitId, trayId).value, bits)
  {
    var init, last := units[..|units| - 1], units[|units| - 1];
    assert units == init + [last];
    if Reports(last, unitId, trayId) {
      ReportingUnitEvents(init, last, unitId, trayId, bits);
    } else {
      LastReportEvents(init, unitId, trayId, bits);
      SilentUnitEvents(init, last, unitId, trayId, bits);
      SilentUnitEvents(WithoutLast(init, unitId, trayId), last, unitId, trayId, bits);
    }
  }

  function WithoutReport(delta: AmsObject, unitId: nat, trayId: nat): AmsObject {
    if delta.units.None? then delta else delta.(units := Some(WithoutLast(delta.units.value, unitId, trayId)))
  }

  /** What a report that does not empty its tray leaves of one key, `before` being what was there. */
  ghost predicate Leaves(body: Fields, key: Key, before: Option<Value>, after: Option<Value>) {
    if key in READINGS then
      after == if key in body then Some(body[key])
               else if key in COLOURS && (TrayColor in body || Cols in body) then None
               else before
    else if key in IDENTITIES then
      after == if key !in body then before
               else if before.Some? && Tag(before.value) && !Tag(body[key]) && !Tagless(body) then before
               else Some(body[key])
    else
      after == if key in body && body[key] != Null && body[key] != Text("") then Some(body[key]) else before
  }

  ghost predicate Tag(v: Value) { exists text :: Says(v, text) && exists i :: 0 <= i < |text| && text[i] != '0' }

  /** A type next to two tags that are both there and both zeroed. */
  ghost predicate Tagless(body: Fields) {
    HasType(body) && TagUid in body && !Tag(body[TagUid]) && TrayUuid in body && !Tag(body[TrayUuid])
  }

  lemma TaglessMeans(body: Fields)
    ensures TaglessReading(body) <==> Tagless(body)
  {
    TypeIsRead(body);
    if TagUid in body {
      RealMeans(body[TagUid]);
    }
    if TrayUuid in body {
      RealMeans(body[TrayUuid]);
    }
  }

  lemma ReportLeaves(body: Fields, key: Key, before: Option<Value>)
    ensures Leaves(body, key, before, AmsHistory.Apply(before, EffectOf(Reported(body), key)))
  {
    KeysAreThese(key);
    TaglessMeans(body);
    if key in body {
      RealMeans(body[key]);
    }
    if before.Some? {
      RealMeans(before.value);
    }
  }

  lemma UnloadLeaves(body: Fields, key: Key, before: Option<Value>)
    requires key in READINGS + IDENTITIES
    ensures AmsHistory.Apply(before, EffectOf(Unloaded(body), key)).None?
  {
    KeysAreThese(key);
  }

  lemma OneMoreEvent(previous: AmsView, delta: AmsObject, u: nat, t: nat, key: Key, event: TrayEvent)
    requires delta.units.Some? && delta.units.value != [] && LastReport(delta.units.value, u, t).Some?
    requires var bits := BitsAfter(previous, delta);
             ReportEvents(u, Entry(t, LastReport(delta.units.value, u, t).value), t, bits) == [event] &&
             !UnitGone(delta.unitBits, u) && !TrayCleared(bits, u, t)
    ensures Lookup(MergeView(previous, delta), u, t, key) ==
            AmsHistory.Apply(Lookup(MergeView(previous, WithoutReport(delta, u, t)), u, t, key), EffectOf(event, key))
  {
    var others := WithoutReport(delta, u, t);
    var bits := BitsAfter(previous, delta);
    var start := Lookup(previous, u, t, key);
    var before := UnitEvents(others.units.value, u, t, bits);
    LastReportEvents(delta.units.value, u, t, bits);
    MergeTracks(previous, delta, u, t, key);
    MergeTracks(previous, others, u, t, key);
    assert DeltaEvents(delta, u, t, bits) == before + [event];
    assert DeltaEvents(others, u, t, bits) == before;
    TrackConcat(start, before, [event], key);
    TrackOne(Track(start, before, key), event, key);
  }

  lemma ClearedIsBlank(previous: AmsView, delta: AmsObject, u: nat, t: nat, key: Key)
    requires TrayCleared(BitsAfter(previous, delta), u, t) && key in READINGS + IDENTITIES
    ensures Lookup(MergeView(previous, delta), u, t, key).None?
  {
    var bits := BitsAfter(previous, delta);
    var start := Lookup(previous, u, t, key);
    var before := NamingEvents(delta, u, t, bits) + (if UnitGone(delta.unitBits, u) then [Gone] else []);
    KeysAreThese(key);
    MergeTracks(previous, delta, u, t, key);
    TrackConcat(start, before, [Blanked], key);
    TrackOne(Track(start, before, key), Blanked, key);
  }

  /**
   * The last report of a tray in a delta decides what is remembered of it: nothing of its reading
   * and tags if the report empties it, and else its own reading, its tag where that is real or none
   * real was there, and whatever was there before for the keys it does not name.
   */
  lemma LastReportDecides(previous: AmsView, delta: AmsObject, u: nat, t: nat, key: Key)
    requires delta.units.Some? && delta.units.value != [] && LastReport(delta.units.value, u, t).Some?
    requires !(delta.unitBits.Some? && u < 4 && u !in delta.unitBits.value)
    ensures var body := LastReport(delta.units.value, u, t).value;
            var bits := if delta.trayBits.Some? then delta.trayBits else previous.trayBits;
            var after := Lookup(MergeView(previous, delta), u, t, key);
            if Empties(u, t, body, bits) then key in READINGS + IDENTITIES ==> after.None?
            else Leaves(body, key, Lookup(MergeView(previous, WithoutReport(delta, u, t)), u, t, key), after)
  {
    var body := LastReport(delta.units.value, u, t).value;
    var bits := BitsAfter(previous, delta);
    BitIsSlot(u, t);
    PresenceMeans(u, t, body, bits);
    if TrayCleared(bits, u, t) {
      if key in READINGS + IDENTITIES {
        ClearedIsBlank(previous, delta, u, t, key);
      }
    } else {
      var before := Lookup(MergeView(previous, WithoutReport(delta, u, t)), u, t, key);
      if Empties(u, t, body, bits) {
        OneMoreEvent(previous, delta, u, t, key, Unloaded(body));
        if key in READINGS + IDENTITIES {
          UnloadLeaves(body, key, before);
        }
      } else {
        OneMoreEvent(previous, delta, u, t, key, Reported(body));
        ReportLeaves(body, key, before);
      }
    }
  }

  // ---------------------------------------------------------------------------
  // What belongs to the AMS as a whole
  // ---------------------------------------------------------------------------

  /** What each delta carried of something, where it carried it: `i` is the last that did, and `v` is it. */
  ghost predicate LatestIs<T(!new)>(carried: seq<Option<T>>, i: nat, v: T) {
    i < |carried| && carried[i] == Some(v) && forall j :: i < j < |carried| ==> carried[j].None?
  }

  function Latest<T>(carried: seq<Option<T>>): Option<T> {
    if carried == [] then None
    else if carried[|carried| - 1].Some? then carried[|carried| - 1]
    else Latest(carried[..|carried| - 1])
  }

  lemma {:induction false} LatestMeans<T(!new)>(carried: seq<Option<T>>, v: T)
    ensures Latest(carried) == Some(v) <==> exists i: nat :: LatestIs(carried, i, v)
  {
    if carried != [] {
      var last := |carried| - 1;
      var init := carried[..last];
      LatestMeans(init, v);
      if carried[last].Some? {
        assert carried[last] == Some(v) ==> LatestIs(carried, last, v);
      } else {
        if i: nat :| LatestIs(init, i, v) {
          assert LatestIs(carried, i, v);
        }
        if i: nat :| LatestIs(carried, i, v) {
          assert LatestIs(init, i, v);
        }
      }
    }
  }

  function TrayBitsOf(deltas: seq<AmsObject>): (carried: seq<Option<set<nat>>>)
    ensures |carried| == |deltas| && forall i :: 0 <= i < |deltas| ==> carried[i] == deltas[i].trayBits
  {
    seq(|deltas|, i requires 0 <= i < |deltas| => deltas[i].trayBits)
  }

  function UnitBitsOf(deltas: seq<AmsObject>): (carried: seq<Option<set<nat>>>)
    ensures |carried| == |deltas| && forall i :: 0 <= i < |deltas| ==> carried[i] == deltas[i].unitBits
  {
    seq(|deltas|, i requires 0 <= i < |deltas| => deltas[i].unitBits)
  }

  function FieldsOf(deltas: seq<AmsObject>, key: Key): (carried: seq<Option<Value>>)
    ensures |carried| == |deltas| && forall i :: 0 <= i < |deltas| ==> carried[i] == FieldOf(deltas[i].fields, key)
  {
    seq(|deltas|, i requires 0 <= i < |deltas| => FieldOf(deltas[i].fields, key))
  }

  lemma {:induction false} WholeIsLatest(deltas: seq<AmsObject>, key: Key)
    ensures Merged(deltas).trayBits == Latest(TrayBitsOf(deltas))
    ensures Merged(deltas).unitBits == Latest(UnitBitsOf(deltas))
    ensures FieldOf(Merged(deltas).fields, key) == Latest(FieldsOf(deltas, key))
  {
    if deltas != [] {
      var init := deltas[..|deltas| - 1];
      WholeIsLatest(init, key);
      assert TrayBitsOf(deltas)[..|deltas| - 1] == TrayBitsOf(init);
      assert UnitBitsOf(deltas)[..|deltas| - 1] == UnitBitsOf(init);
      assert FieldsOf(deltas, key)[..|deltas| - 1] == FieldsOf(init, key);
    }
  }

  /** Each bitmask, and each field of the AMS object itself, is the one the latest delta that carried it brought. */
  lemma WholeIsLatestCarried(deltas: seq<AmsObject>, key: Key, bits: set<nat>, v: Value)
    ensures Merged(deltas).trayBits == Some(bits) <==> exists i: nat :: LatestIs(TrayBitsOf(deltas), i, bits)
    ensures Merged(deltas).unitBits == Some(bits) <==> exists i: nat :: LatestIs(UnitBitsOf(deltas), i, bits)
    ensures FieldOf(Merged(deltas).fields, key) == Some(v) <==> exists i: nat :: LatestIs(FieldsOf(deltas, key), i, v)
  {
    WholeIsLatest(deltas, key);
    LatestMeans(TrayBitsOf(deltas), bits);
    LatestMeans(UnitBitsOf(deltas), bits);
    LatestMeans(FieldsOf(deltas, key), v);
  }
}
