/** Output routing (out_set_parameters): the speaker and wired-headphone
    routes are fixed tables of mixer control settings, applied one control
    at a time; a failed setting does not stop the rest. */
module Routing {
  import opened AudioDefs

  /** One row of a route table: an enumerated control set by name, or a
      numeric control whose every value is set to the same number. */
  datatype Setting = EnumSetting(name: string, choice: string) | ValueSetting(name: string, value: int)

  /** The table for the speaker route, in the order the HAL applies it. */
  const SpeakerTable: seq<Setting> := [
    EnumSetting("Jack Function", "Speaker"),
    EnumSetting("Speaker Function", "On"),
    ValueSetting("SPK Playback Switch", 1),
    ValueSetting("SPK Playback Volume", 31),
    ValueSetting("SPXMIX Mixer DACL Playback Switch", 1),
    ValueSetting("SPXMIX Mixer DACR Playback Switch", 1),
    ValueSetting("HPL Playback Switch", 0),
    ValueSetting("HPR Playback Switch", 0),
    ValueSetting("HP Playback Volume", 0),
    ValueSetting("HPMIXL Mixer DAC Playback Switch", 0),
    ValueSetting("HPMIXR Mixer DAC Playback Switch", 0)
  ]

  /** The table for the wired-headphone route, in the order the HAL applies it. */
  const HeadphoneTable: seq<Setting> := [
    EnumSetting("Jack Function", "HeadPhone"),
    EnumSetting("Speaker Function", "Off"),
    ValueSetting("SPK Playback Switch", 0),
    ValueSetting("SPK Playback Volume", 0),
    ValueSetting("SPXMIX Mixer DACL Playback Switch", 0),
    ValueSetting("SPXMIX Mixer DACR Playback Switch", 0),
    ValueSetting("HPL Playback Switch", 1),
    ValueSetting("HPR Playback Switch", 1),
    ValueSetting("HP Playback Volume", 31),
    ValueSetting("HPMIXL Mixer DAC Playback Switch", 1),
    ValueSetting("HPMIXR Mixer DAC Playback Switch", 1)
  ]

  /** Numeric controls on the speaker path. */
  const SpeakerPath: set<string> := {
    "SPK Playback Switch", "SPK Playback Volume",
    "SPXMIX Mixer DACL Playback Switch", "SPXMIX Mixer DACR Playback Switch"
  }

  /** Numeric controls on the headphone path. */
  const HeadphonePath: set<string> := {
    "HPL Playback Switch", "HPR Playback Switch", "HP Playback Volume",
    "HPMIXL Mixer DAC Playback Switch", "HPMIXR Mixer DAC Playback Switch"
  }

  /** The two volume controls, whose "on" level is 31; every other numeric
      control is a switch whose "on" level is 1. */
  const Volumes: set<string> := {"SPK Playback Volume", "HP Playback Volume"}

  /** Every control a route sets: the two enumerated functions and both
      paths. */
  const RoutingControls: set<string> := {"Jack Function", "Speaker Function"} + SpeakerPath + HeadphonePath

  /** The level a numeric control is driven to when its path is on. */
  function OnLevel(name: string): int {
    if name in Volumes then 31 else 1
  }

  /** The table a route value selects; any other value selects none. */
  function RouteTable(route: int): (t: seq<Setting>)
    ensures route != AUDIO_DEVICE_OUT_SPEAKER && route != AUDIO_DEVICE_OUT_WIRED_HEADPHONE ==> t == []
    // speaker: the speaker path fully on, the headphone path fully off
    ensures route == AUDIO_DEVICE_OUT_SPEAKER ==>
              && |t| == 11
              && t[0] == EnumSetting("Jack Function", "Speaker")
              && t[1] == EnumSetting("Speaker Function", "On")
              && forall i :: 2 <= i < |t| ==>
                   t[i].ValueSetting? && (t[i].name in SpeakerPath || t[i].name in HeadphonePath)
                   && t[i].value == (if t[i].name in SpeakerPath then OnLevel(t[i].name) else 0)
    // wired headphone: the mirror image
    ensures route == AUDIO_DEVICE_OUT_WIRED_HEADPHONE ==>
              && |t| == 11
              && t[0] == EnumSetting("Jack Function", "HeadPhone")
              && t[1] == EnumSetting("Speaker Function", "Off")
              && forall i :: 2 <= i < |t| ==>
                   t[i].ValueSetting? && (t[i].name in SpeakerPath || t[i].name in HeadphonePath)
                   && t[i].value == (if t[i].name in HeadphonePath then OnLevel(t[i].name) else 0)
  {
    if route == AUDIO_DEVICE_OUT_SPEAKER then SpeakerTable
    else if route == AUDIO_DEVICE_OUT_WIRED_HEADPHONE then HeadphoneTable
    else []
  }

  /** Either route sets every routing control, each exactly once, so every
      control of both paths is driven. */
  lemma RouteCoversControls(route: int)
    requires route == AUDIO_DEVICE_OUT_SPEAKER || route == AUDIO_DEVICE_OUT_WIRED_HEADPHONE
    ensures Names(RouteTable(route)) == RoutingControls && DistinctNames(RouteTable(route))
  {
    SpeakerTableNames();
    TableNames();
  }

  /** The opposite choice of an enumerated routing control. */
  function OppositeChoice(choice: string): string {
    if choice == "Speaker" then "HeadPhone"
    else if choice == "HeadPhone" then "Speaker"
    else if choice == "On" then "Off"
    else if choice == "Off" then "On"
    else choice
  }

  /** The setting that undoes a route's choice for one control: the other
      jack function, the other speaker function, or the other end of the
      control's range. */
  function Mirror(s: Setting): Setting {
    match s
    case EnumSetting(n, c) => EnumSetting(n, OppositeChoice(c))
    case ValueSetting(n, v) => ValueSetting(n, OnLevel(n) - v)
  }

  /** The two route tables are complementary: each is the other mirrored,
      row by row. */
  lemma RoutesAreComplementary()
    ensures |RouteTable(AUDIO_DEVICE_OUT_SPEAKER)| == |RouteTable(AUDIO_DEVICE_OUT_WIRED_HEADPHONE)| == 11
    ensures forall i :: 0 <= i < 11 ==>
              && RouteTable(AUDIO_DEVICE_OUT_WIRED_HEADPHONE)[i] == Mirror(RouteTable(AUDIO_DEVICE_OUT_SPEAKER)[i])
              && RouteTable(AUDIO_DEVICE_OUT_SPEAKER)[i] == Mirror(RouteTable(AUDIO_DEVICE_OUT_WIRED_HEADPHONE)[i])
  {
  }

  /** A mixer control: an enumerated one, or a numeric one with its values. */
  datatype Ctl = EnumCtl(selected: string) | ValueCtl(values: seq<int>)

  /** The mixer's controls by name; a missing name is a control the lookup
      does not find. */
  type Mixer = map<string, Ctl>

  /** A set operation the hardware rejects: an enumerated control, or one
      value of a numeric control. */
  datatype Fault = EnumFault(name: string) | ValueFault(name: string, index: nat)

  /** Two controls of the same kind and, for numeric ones, the same number
      of values. */
  predicate SameShape(x: Ctl, y: Ctl) {
    || (x.EnumCtl? && y.EnumCtl?)
    || (x.ValueCtl? && y.ValueCtl? && |x.values| == |y.values|)
  }

  /** The per-value loop: every value whose set is not rejected takes `v`;
      a rejected one keeps its old value and the loop goes on. */
  function SetValues(name: string, values: seq<int>, v: int, faults: set<Fault>): (r: seq<int>)
    ensures |r| == |values|
    ensures forall i :: 0 <= i < |values| && ValueFault(name, i) !in faults ==> r[i] == v
    ensures forall i :: 0 <= i < |values| && ValueFault(name, i) in faults ==> r[i] == values[i]
  {
    seq(|values|, i requires 0 <= i < |values| => if ValueFault(name, i) in faults then values[i] else v)
  }

  /** One table row applied to the control it names: an enumerated row
      selects its choice unless rejected, a numeric row sets each value it
      is not rejected on, and a row of the other kind leaves the control
      alone. */
  function Overwrite(c: Ctl, s: Setting, faults: set<Fault>): (r: Ctl)
    ensures SameShape(c, r)
    ensures s.EnumSetting? && c.EnumCtl? ==>
              r.selected == (if EnumFault(s.name) in faults then c.selected else s.choice)
    ensures s.ValueSetting? && c.ValueCtl? ==>
              forall k :: 0 <= k < |c.values| ==>
                r.values[k] == (if ValueFault(s.name, k) in faults then c.values[k] else s.value)
    ensures s.EnumSetting? != c.EnumCtl? ==> r == c
  {
    match s
    case EnumSetting(n, choice) =>
      if c.EnumCtl? && EnumFault(n) !in faults then EnumCtl(choice) else c
    case ValueSetting(n, v) =>
      if c.ValueCtl? then ValueCtl(SetValues(n, c.values, v, faults)) else c
  }

  /** One table row applied to the mixer: only the control the row names
      changes, and a name the mixer lacks changes nothing. */
  function ApplySetting(m: Mixer, s: Setting, faults: set<Fault>): (r: Mixer)
    ensures r.Keys == m.Keys
    ensures forall n :: n in m && n != s.name ==> r[n] == m[n]
    ensures s.name in m ==> SameShape(m[s.name], r[s.name])
  {
    if s.name in m then m[s.name := Overwrite(m[s.name], s, faults)] else m
  }

  /** The control names a table touches. */
  function Names(t: seq<Setting>): set<string> {
    set i | 0 <= i < |t| :: t[i].name
  }

  /** A table names every control at most once. */
  predicate DistinctNames(t: seq<Setting>) {
    forall i, j :: 0 <= i < j < |t| ==> t[i].name != t[j].name
  }

  /** A table applied row by row, best effort. */
  function ApplyTable(m: Mixer, t: seq<Setting>, faults: set<Fault>): (r: Mixer)
    ensures r.Keys == m.Keys
    ensures forall n :: n in m && n !in Names(t) ==> r[n] == m[n]
    ensures forall n :: n in m ==> SameShape(m[n], r[n])
    decreases |t|
  {
    if t == [] then m
    else
      assert Names(t) == {t[0].name} + Names(t[1..]) by {
        forall n | n in Names(t) ensures n in {t[0].name} + Names(t[1..]) {
          var i :| 0 <= i < |t| && t[i].name == n;
          if i > 0 {
            assert t[1..][i - 1].name == n;
          }
        }
      }
      ApplyTable(ApplySetting(m, t[0], faults), t[1..], faults)
  }

  /** Best effort: with distinct names, each control the table names ends
      up as its own row makes it, whatever the other rows' faults. */
  lemma {:induction false} ApplyTableSetsRow(m: Mixer, t: seq<Setting>, faults: set<Fault>, i: nat)
    requires DistinctNames(t) && i < |t| && t[i].name in m
    ensures ApplyTable(m, t, faults)[t[i].name] == Overwrite(m[t[i].name], t[i], faults)
    decreases |t|
  {
    var m1 := ApplySetting(m, t[0], faults);
    var rest := t[1..];
    if i == 0 {
      assert t[0].name !in Names(rest);
    } else {
      assert DistinctNames(rest) by {
        forall j, k | 0 <= j < k < |rest| ensures rest[j].name != rest[k].name {
          assert rest[j] == t[j + 1] && rest[k] == t[k + 1];
        }
      }
      assert rest[i - 1] == t[i];
      assert t[i].name != t[0].name;
      ApplyTableSetsRow(m1, rest, faults, i - 1);
    }
  }

  /** Result of out_set_parameters: the mixer afterwards and the status. */
  datatype ParamsResult = ParamsResult(mixer: Mixer, status: int)

  /** out_set_parameters. `mixerOpened` is whether mixer_open succeeded,
      `lookup` what the routing-key lookup returned (negative when the key is
      absent) and `route` the parsed route value. */
  function SetParameters(mixerOpened: bool, lookup: int, route: int, m: Mixer, faults: set<Fault>): (r: ParamsResult)
    ensures !mixerOpened ==> r == ParamsResult(m, 0)
    ensures mixerOpened ==> r.status == lookup
    ensures r.mixer.Keys == m.Keys
    // only a recognised route in a present key touches the mixer
    ensures (!mixerOpened || lookup < 0
             || (route != AUDIO_DEVICE_OUT_SPEAKER && route != AUDIO_DEVICE_OUT_WIRED_HEADPHONE)) ==> r.mixer == m
    // a present key with a recognised route applies that route's table
    ensures mixerOpened && lookup >= 0 ==> r.mixer == ApplyTable(m, RouteTable(route), faults)
    // controls outside the route tables are never touched
    ensures forall n :: n in m && n !in Names(SpeakerTable) ==> r.mixer[n] == m[n]
  {
    assert Names(HeadphoneTable) == Names(SpeakerTable) by { TableNames(); }
    if !mixerOpened then ParamsResult(m, 0)
    else if lookup < 0 then ParamsResult(m, lookup)
    else ParamsResult(ApplyTable(m, RouteTable(route), faults), lookup)
  }

  /** The speaker table names exactly the routing controls. */
  lemma SpeakerTableNames()
    ensures Names(SpeakerTable) == RoutingControls
  {
    var t := SpeakerTable;
    assert t[0].name == "Jack Function" && t[1].name == "Speaker Function";
    assert t[2].name == "SPK Playback Switch" && t[3].name == "SPK Playback Volume";
    assert t[4].name == "SPXMIX Mixer DACL Playback Switch" && t[5].name == "SPXMIX Mixer DACR Playback Switch";
    assert t[6].name == "HPL Playback Switch" && t[7].name == "HPR Playback Switch";
    assert t[8].name == "HP Playback Volume";
    assert t[9].name == "HPMIXL Mixer DAC Playback Switch" && t[10].name == "HPMIXR Mixer DAC Playback Switch";
  }

  /** The speaker table names each control once. */
  lemma SpeakerNamesDistinct()
    ensures DistinctNames(SpeakerTable)
  {
  }

  /** The headphone table lists the speaker table's controls in the same
      order, each row of the same kind. */
  lemma TablesParallel()
    ensures Parallel(SpeakerTable, HeadphoneTable) && Parallel(HeadphoneTable, SpeakerTable)
  {
  }

  /** Both tables name the same eleven controls, once each, in the same
      order and with rows of the same kind. */
  lemma TableNames()
    ensures DistinctNames(SpeakerTable) && DistinctNames(HeadphoneTable)
    ensures Parallel(SpeakerTable, HeadphoneTable) && Parallel(HeadphoneTable, SpeakerTable)
    ensures Names(HeadphoneTable) == Names(SpeakerTable)
  {
    SpeakerNamesDistinct();
    TablesParallel();
  }

  /** Two tables that name the same controls in the same order, each row
      of the same kind. */
  predicate Parallel(s: seq<Setting>, t: seq<Setting>) {
    && |s| == |t|
    && forall i :: 0 <= i < |s| ==> s[i].name == t[i].name && s[i].EnumSetting? == t[i].EnumSetting?
  }

  /** Without faults, a second row of the same kind for the same control
      wipes out the first. */
  lemma OverwriteTwice(x: Ctl, s1: Setting, s2: Setting)
    requires s1.name == s2.name && s1.EnumSetting? == s2.EnumSetting?
    ensures Overwrite(Overwrite(x, s1, {}), s2, {}) == Overwrite(x, s2, {})
  {
    if s2.ValueSetting? && x.ValueCtl? {
      var y := Overwrite(x, s1, {});
      var a := SetValues(s2.name, y.values, s2.value, {});
      var b := SetValues(s2.name, x.values, s2.value, {});
      assert |a| == |b|;
      assert forall k :: 0 <= k < |a| ==> a[k] == s2.value == b[k];
      assert a == b;
    }
  }

  /** Without faults, a control ends the same whether a parallel table
      was applied first or not. */
  lemma ApplyTableOverridesAt(m: Mixer, s: seq<Setting>, t: seq<Setting>, n: string)
    requires DistinctNames(s) && DistinctNames(t) && Parallel(s, t) && n in m
    ensures ApplyTable(ApplyTable(m, s, {}), t, {})[n] == ApplyTable(m, t, {})[n]
  {
    var m1 := ApplyTable(m, s, {});
    if n in Names(t) {
      var i :| 0 <= i < |t| && t[i].name == n;
      assert s[i].name == n;
      ApplyTableSetsRow(m, s, {}, i);
      ApplyTableSetsRow(m1, t, {}, i);
      ApplyTableSetsRow(m, t, {}, i);
      OverwriteTwice(m[n], s[i], t[i]);
    } else {
      assert n !in Names(s);
    }
  }

  /** Without faults, a table applied after a parallel one gives what the
      table alone gives. */
  lemma ApplyTableOverrides(m: Mixer, s: seq<Setting>, t: seq<Setting>)
    requires DistinctNames(s) && DistinctNames(t) && Parallel(s, t)
    ensures ApplyTable(ApplyTable(m, s, {}), t, {}) == ApplyTable(m, t, {})
  {
    forall n | n in m
      ensures ApplyTable(ApplyTable(m, s, {}), t, {})[n] == ApplyTable(m, t, {})[n]
    {
      ApplyTableOverridesAt(m, s, t, n);
    }
  }

  /** With no rejected operation, the last route applied decides every
      routing control: speaker then headphone is headphone alone, and the
      other way round. */
  lemma LastRouteWins(m: Mixer, first: int, second: int)
    requires first == AUDIO_DEVICE_OUT_SPEAKER || first == AUDIO_DEVICE_OUT_WIRED_HEADPHONE
    requires second == AUDIO_DEVICE_OUT_SPEAKER || second == AUDIO_DEVICE_OUT_WIRED_HEADPHONE
    ensures SetParameters(true, 0, second, SetParameters(true, 0, first, m, {}).mixer, {}).mixer
            == SetParameters(true, 0, second, m, {}).mixer
  {
    TableNames();
    ApplyTableOverrides(m, RouteTable(first), RouteTable(second));
  }

  /** Every value of a numeric control a table names ends at that row's
      value, except the values whose set was rejected, which keep their old
      value. */
  lemma ApplyTableValueRow(m: Mixer, t: seq<Setting>, faults: set<Fault>, i: nat)
    requires DistinctNames(t) && i < |t| && t[i].ValueSetting?
    requires t[i].name in m && m[t[i].name].ValueCtl?
    ensures var n := t[i].name;
            var r := ApplyTable(m, t, faults)[n];
            && r.ValueCtl?
            && |r.values| == |m[n].values|
            && forall k :: 0 <= k < |r.values| ==>
                 r.values[k] == (if ValueFault(n, k) in faults then m[n].values[k] else t[i].value)
  {
    ApplyTableSetsRow(m, t, faults, i);
  }

  /** Each numeric control of a route table ends with every value at the
      level its path calls for, except the values whose set was rejected,
      which keep their old value: the speaker route drives the speaker path
      on and the headphone path off, the headphone route the opposite. */
  lemma RouteDrivesPaths(m: Mixer, route: int, faults: set<Fault>, i: nat)
    requires route == AUDIO_DEVICE_OUT_SPEAKER || route == AUDIO_DEVICE_OUT_WIRED_HEADPHONE
    requires 2 <= i < 11
    requires RouteTable(route)[i].name in m && m[RouteTable(route)[i].name].ValueCtl?
    ensures var n := RouteTable(route)[i].name;
            var r := SetParameters(true, 0, route, m, faults).mixer[n];
            var onPath := if route == AUDIO_DEVICE_OUT_SPEAKER then SpeakerPath else HeadphonePath;
            && r.ValueCtl?
            && |r.values| == |m[n].values|
            && forall k :: 0 <= k < |r.values| ==>
                 r.values[k] == (if ValueFault(n, k) in faults then m[n].values[k]
                                 else if n in onPath then OnLevel(n) else 0)
  {
    var t := RouteTable(route);
    assert DistinctNames(t) by { TableNames(); }
    ApplyTableValueRow(m, t, faults, i);
  }

  /** The route's two enumerated controls, "Jack Function" and "Speaker
      Function", end at the route's choice unless that set was rejected,
      whatever faults the other rows hit. */
  lemma RouteSelectsFunctions(m: Mixer, route: int, faults: set<Fault>, i: nat)
    requires route == AUDIO_DEVICE_OUT_SPEAKER || route == AUDIO_DEVICE_OUT_WIRED_HEADPHONE
    requires i < 2
    requires RouteTable(route)[i].name in m && m[RouteTable(route)[i].name].EnumCtl?
    ensures var row := RouteTable(route)[i];
            var r := SetParameters(true, 0, route, m, faults).mixer[row.name];
            && row.name == (if i == 0 then "Jack Function" else "Speaker Function")
            && r.EnumCtl?
            && r.selected == (if EnumFault(row.name) in faults then m[row.name].selected else row.choice)
  {
    var t := RouteTable(route);
    assert DistinctNames(t) by { TableNames(); }
    ApplyTableEnumRow(m, t, faults, i);
  }

  /** Best effort per value: a rejected set on one value of a numeric
      control keeps that value and leaves every other value of the control
      as it would have been without the rejection. */
  lemma RejectedValueIsLocal(m: Mixer, t: seq<Setting>, faults: set<Fault>, i: nat, j: nat)
    requires DistinctNames(t) && i < |t| && t[i].ValueSetting?
    requires t[i].name in m && m[t[i].name].ValueCtl? && j < |m[t[i].name].values|
    ensures var n := t[i].name;
            var clean := ApplyTable(m, t, faults - {ValueFault(n, j)})[n];
            var hit := ApplyTable(m, t, faults + {ValueFault(n, j)})[n];
            && hit.ValueCtl? && clean.ValueCtl?
            && |hit.values| == |clean.values| == |m[n].values|
            && hit.values[j] == m[n].values[j]
            && clean.values[j] == t[i].value
            && forall k :: 0 <= k < |hit.values| && k != j ==> hit.values[k] == clean.values[k]
  {
    var n := t[i].name;
    ApplyTableSetsRow(m, t, faults - {ValueFault(n, j)}, i);
    ApplyTableSetsRow(m, t, faults + {ValueFault(n, j)}, i);
  }

  /** An enumerated row on an enumerated control selects its choice unless
      that set is rejected, in which case the old selection stays;
      other rows' faults do not matter. */
  lemma ApplyTableEnumRow(m: Mixer, t: seq<Setting>, faults: set<Fault>, i: nat)
    requires DistinctNames(t) && i < |t| && t[i].EnumSetting?
    requires t[i].name in m && m[t[i].name].EnumCtl?
    ensures var r := ApplyTable(m, t, faults)[t[i].name];
            && r.EnumCtl?
            && r.selected == (if EnumFault(t[i].name) in faults then m[t[i].name].selected else t[i].choice)
  {
    ApplyTableSetsRow(m, t, faults, i);
  }
}
