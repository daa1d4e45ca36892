/** The OpenPnP feeder set-up script. It creates a row of slot (or plain)
    auto feeders wired to the 0816 feeder controller's actuators, configures
    the controller's G-code driver, and fills the default feeder bank. The
    host's live objects are modelled as lists of named records; every lookup
    is a linear search by name, and every "find or create" adds a record
    only when its lookup fails. */
module Feeders {
  import opened Wrappers
  import opened Text
  import opened Seqs

  // ---------------------------------------------------------------------
  // Lookups
  // ---------------------------------------------------------------------

  /** The first element satisfying `p`, as the `for ...: if ...: return`
      loops find it. */
  function FirstMatch<T>(xs: seq<T>, p: T -> bool): (r: Option<nat>)
    ensures r.Some? ==> r.value < |xs| && p(xs[r.value])
    ensures r.Some? ==> forall j :: 0 <= j < r.value ==> !p(xs[j])
    ensures r.None? ==> forall j :: 0 <= j < |xs| ==> !p(xs[j])
  {
    if xs == [] then None
    else if p(xs[0]) then Some(0)
    else match FirstMatch(xs[1..], p)
      case None => None
      case Some(i) => Some(i + 1)
  }

  /** The last element satisfying `p`, as a loop that keeps assigning and
      never breaks finds it. */
  function LastMatch<T>(xs: seq<T>, p: T -> bool): (r: Option<nat>)
    ensures r.Some? ==> r.value < |xs| && p(xs[r.value])
    ensures r.Some? ==> forall j :: r.value < j < |xs| ==> !p(xs[j])
    ensures r.None? ==> forall j :: 0 <= j < |xs| ==> !p(xs[j])
  {
    if xs == [] then None
    else if p(xs[|xs| - 1]) then Some(|xs| - 1)
    else LastMatch(xs[..|xs| - 1], p)
  }

  function Names<T>(xs: seq<T>, name: T -> string): seq<string> {
    seq(|xs|, i requires 0 <= i < |xs| => name(xs[i]))
  }

  function Elements(ns: seq<string>): set<string> {
    set x | x in ns
  }

  function NameSet<T>(xs: seq<T>, name: T -> string): set<string> {
    Elements(Names(xs, name))
  }

  /** Adds each wanted record, in order, unless a record of the same name is
      already there (counting those added before it): the lookup by name
      fails exactly when the name is not among the names so far. */
  function AddMissing<T>(xs: seq<T>, wanted: seq<T>, name: T -> string): (r: seq<T>)
    ensures |r| >= |xs| && r[..|xs|] == xs
  {
    if wanted == [] then xs
    else
      var w := wanted[|wanted| - 1];
      var before := AddMissing(xs, wanted[..|wanted| - 1], name);
      if name(w) in Names(before, name) then before else before + [w]
  }

  lemma NamesAppend<T>(xs: seq<T>, ys: seq<T>, name: T -> string)
    ensures Names(xs + ys, name) == Names(xs, name) + Names(ys, name)
  {
  }

  /** `AddMissing` on the names alone. */
  function AppendMissing(ns: seq<string>, ws: seq<string>): seq<string> {
    if ws == [] then ns
    else
      var before := AppendMissing(ns, ws[..|ws| - 1]);
      var w := ws[|ws| - 1];
      if w in before then before else before + [w]
  }

  /** Adding records by name only ever looks at their names. */
  lemma {:induction false} NamesOfAddMissing<T>(xs: seq<T>, wanted: seq<T>, name: T -> string)
    ensures Names(AddMissing(xs, wanted, name), name) == AppendMissing(Names(xs, name), Names(wanted, name))
  {
    if wanted != [] {
      var k := |wanted| - 1;
      var w := wanted[k];
      NamesOfAddMissing(xs, wanted[..k], name);
      var before := AddMissing(xs, wanted[..k], name);
      assert Names(wanted, name)[..k] == Names(wanted[..k], name);
      NamesAppend(before, [w], name);
    }
  }

  /** The names appended are those of `Missing`. */
  lemma {:induction false} AppendMissingIsMissing(ns: seq<string>, ws: seq<string>)
    ensures AppendMissing(ns, ws) == ns + Missing(Elements(ns), ws)
  {
    var present := Elements(ns);
    if ws == [] {
      assert ns + [] == ns;
    } else {
      var k := |ws| - 1;
      var w := ws[k];
      var init := ws[..k];
      var added := Missing(present, init);
      var tail := if w in present || w in init then [] else [w];
      calc {
        AppendMissing(ns, ws);
      ==  { AppendMissingIsMissing(ns, init); }
        if w in ns + added then ns + added else (ns + added) + [w];
      ==  { AppendedHit(ns, init, w); SnocAssoc(ns, added, w); }
        ns + (added + tail);
      ==  { assert ws == init + [w]; MissingSnoc(present, init, w); }
        ns + Missing(present, ws);
      }
    }
  }

  lemma SnocAssoc(ns: seq<string>, added: seq<string>, w: string)
    ensures (ns + added) + [w] == ns + (added + [w])
  {
  }

  lemma AppendedHit(ns: seq<string>, init: seq<string>, w: string)
    ensures w in ns + Missing(Elements(ns), init) <==> w in Elements(ns) || w in init
  {
    assert w in ns <==> w in Elements(ns);
  }

  /** The records `AddMissing` adds are, by name, exactly the wanted names
      not already present, each once, in the order first wanted. */
  lemma AddMissingAddsMissing<T>(xs: seq<T>, wanted: seq<T>, name: T -> string)
    ensures var r := AddMissing(xs, wanted, name);
            Names(r[|xs|..], name) == Missing(NameSet(xs, name), Names(wanted, name))
  {
    var r := AddMissing(xs, wanted, name);
    NamesOfAddMissing(xs, wanted, name);
    AppendMissingIsMissing(Names(xs, name), Names(wanted, name));
    assert Names(r[|xs|..], name) == Names(r, name)[|xs|..];
  }

  // ---------------------------------------------------------------------
  // The machine
  // ---------------------------------------------------------------------

  /** A location in millimetres. */
  datatype Location = Location(x: real, y: real, z: real, rotation: real)

  datatype FeederKind = SlotAutoFeeder | AutoFeeder

  /** Where a feeder picks and which actuators, with which values, advance
      it and run after a pick. */
  datatype Wiring = Wiring(
    location: Location,
    actuator: string,
    actuatorValue: int,
    postPickActuator: string,
    postPickValue: int)

  /** A feeder of the machine, under the name the host reports for it. */
  datatype MachineFeeder = MachineFeeder(kind: FeederKind, name: string, wiring: Option<Wiring>)

  datatype Actuator = Actuator(name: string, driver: string)

  datatype CommandType = ActuateDouble | CommandConfirmRegex | CommandErrorRegex | EnableCommand | DisableCommand

  /** A driver command is set per actuator (or for the driver as a whole)
      and per command type; setting it again replaces it. */
  datatype CommandKey = CommandKey(actuator: Option<string>, kind: CommandType)

  datatype Driver = Driver(name: string, commands: map<CommandKey, string>)

  datatype Machine = Machine(feeders: seq<MachineFeeder>, actuators: seq<Actuator>, drivers: seq<Driver>)

  /** `find_slotted_feeder`: the first feeder whose name starts with the
      slot name followed by ` (`. */
  function FindSlottedFeeder(feeders: seq<MachineFeeder>, name: string): (r: Option<nat>)
    ensures r.Some? ==> r.value < |feeders| && StartsWith(feeders[r.value].name, name + " (")
    ensures r.Some? ==> forall j :: 0 <= j < r.value ==> !StartsWith(feeders[j].name, name + " (")
    ensures r.None? ==> forall j :: 0 <= j < |feeders| ==> !StartsWith(feeders[j].name, name + " (")
  {
    FirstMatch(feeders, (f: MachineFeeder) => StartsWith(f.name, name + " ("))
  }

  /** `find_actuator_by_name`: the first actuator of that exact name. */
  function FindActuator(actuators: seq<Actuator>, name: string): (r: Option<nat>)
    ensures r.Some? ==> r.value < |actuators| && actuators[r.value].name == name
    ensures r.Some? ==> forall j :: 0 <= j < r.value ==> actuators[j].name != name
    ensures r.None? ==> forall j :: 0 <= j < |actuators| ==> actuators[j].name != name
  {
    FirstMatch(actuators, (a: Actuator) => a.name == name)
  }

  /** The driver lookup of `find_or_create_0816_gcode_driver`: its loop does
      not stop at a match, so it ends with the last driver of that name. */
  function FindDriver(drivers: seq<Driver>, name: string): (r: Option<nat>)
    ensures r.Some? ==> r.value < |drivers| && drivers[r.value].name == name
    ensures r.Some? ==> forall j :: r.value < j < |drivers| ==> drivers[j].name != name
    ensures r.None? ==> forall j :: 0 <= j < |drivers| ==> drivers[j].name != name
  {
    LastMatch(drivers, (d: Driver) => d.name == name)
  }

  /** `find_or_create_slotted_feeder`: the slot found, or a new slot feeder
      of that name added at the end. */
  function FindOrCreateSlot(feeders: seq<MachineFeeder>, name: string): (r: (seq<MachineFeeder>, nat))
    ensures r.1 < |r.0|
    ensures FindSlottedFeeder(feeders, name).Some? ==>
              r.0 == feeders && r.1 == FindSlottedFeeder(feeders, name).value
    ensures FindSlottedFeeder(feeders, name).None? ==>
              r.0 == feeders + [MachineFeeder(SlotAutoFeeder, name, None)] && r.1 == |feeders|
  {
    match FindSlottedFeeder(feeders, name)
    case Some(i) => (feeders, i)
    case None => (feeders + [MachineFeeder(SlotAutoFeeder, name, None)], |feeders|)
  }

  /** `find_or_create_0816_gcode_driver`. */
  function FindOrCreateDriver(drivers: seq<Driver>, name: string): (r: (seq<Driver>, nat))
    ensures r.1 < |r.0| && r.0[r.1].name == name
    ensures FindDriver(drivers, name).Some? ==> r.0 == drivers && r.1 == FindDriver(drivers, name).value
    ensures FindDriver(drivers, name).None? ==> r.0 == drivers + [Driver(name, map[])] && r.1 == |drivers|
  {
    match FindDriver(drivers, name)
    case Some(i) => (drivers, i)
    case None => (drivers + [Driver(name, map[])], |drivers|)
  }

  /** Looking the driver up again finds the one found or created. */
  lemma FindOrCreateDriverIsFound(drivers: seq<Driver>, name: string)
    ensures var r := FindOrCreateDriver(drivers, name);
            FindDriver(r.0, name) == Some(r.1)
  {
  }

  function ActuatorName(a: Actuator): string {
    a.name
  }

  /** The actuator lookup fails exactly when no actuator has the name, so
      `AddMissing` by name adds what the lookup would not find. */
  lemma FindActuatorFailsIffAbsent(actuators: seq<Actuator>, name: string)
    ensures FindActuator(actuators, name).None? <==> name !in Names(actuators, ActuatorName)
  {
    forall i | 0 <= i < |actuators|
      ensures Names(actuators, ActuatorName)[i] == actuators[i].name
    {
      assert ActuatorName(actuators[i]) == actuators[i].name;
    }
  }

  /** `find_or_create_0816_actuator` for each name in turn: an actuator is
      added, attached to the driver, only when none of that name exists. */
  function FindOrCreateActuators(actuators: seq<Actuator>, names: seq<string>, driver: string): (r: seq<Actuator>)
    ensures |r| >= |actuators| && r[..|actuators|] == actuators
    ensures forall j :: |actuators| <= j < |r| ==> r[j].driver == driver
    ensures Names(r[|actuators|..], ActuatorName) ==
            Missing(NameSet(actuators, ActuatorName), names)
  {
    var wanted := seq(|names|, i requires 0 <= i < |names| => Actuator(names[i], driver));
    AddMissingAddsMissing(actuators, wanted, ActuatorName);
    assert Names(wanted, ActuatorName) == names;
    var r := AddMissing(actuators, wanted, ActuatorName);
    AddedFromWanted(actuators, wanted, ActuatorName);
    r
  }

  /** Whatever `AddMissing` adds comes from the wanted list. */
  lemma {:induction false} AddedFromWanted<T>(xs: seq<T>, wanted: seq<T>, name: T -> string)
    ensures forall j :: |xs| <= j < |AddMissing(xs, wanted, name)| ==> AddMissing(xs, wanted, name)[j] in wanted
  {
    if wanted != [] {
      var k := |wanted| - 1;
      var before := AddMissing(xs, wanted[..k], name);
      AddedFromWanted(xs, wanted[..k], name);
      forall j | |xs| <= j < |before|
        ensures before[j] in wanted
      {
        assert before[j] in wanted[..k];
      }
      assert wanted[k] in wanted;
    }
  }

  // ---------------------------------------------------------------------
  // Slot and auto feeders
  // ---------------------------------------------------------------------

  /** The pick location of the first feeder and the offset between
      neighbouring feeders. */
  datatype Layout = Layout(startX: real, startY: real, offsetX: real, offsetY: real)

  function SlotName(id: nat): string {
    "SLOT-" + NatToString(id)
  }

  function AutoFeederName(id: nat): string {
    "Feeder-" + NatToString(id)
  }

  /** Feeder `id` picks at `start + offset * id` and is advanced, and
      cleaned up after a pick, with actuator value `id`. */
  function WiringOf(id: nat, layout: Layout, feedActuator: string, postPickActuator: string): (w: Wiring)
    ensures w.location.x == layout.startX + layout.offsetX * id as real
    ensures w.location.y == layout.startY + layout.offsetY * id as real
    ensures w.location.z == 0.0 && w.location.rotation == 0.0
    ensures w.actuatorValue == id && w.postPickValue == id
    ensures w.actuator == feedActuator && w.postPickActuator == postPickActuator
  {
    Wiring(
      Location(layout.startX + layout.offsetX * id as real, layout.startY + layout.offsetY * id as real, 0.0, 0.0),
      feedActuator, id, postPickActuator, id)
  }

  /** One pass of `create_slotted_feeders`: find or create `SLOT-<id>` and
      wire it. */
  function PlaceSlot(feeders: seq<MachineFeeder>, id: nat, layout: Layout, feedActuator: string, postPickActuator: string): (r: seq<MachineFeeder>)
    ensures var w := Some(WiringOf(id, layout, feedActuator, postPickActuator));
            match FindSlottedFeeder(feeders, SlotName(id))
            case Some(i) => r == feeders[i := feeders[i].(wiring := w)]
            case None => r == feeders + [MachineFeeder(SlotAutoFeeder, SlotName(id), w)]
  {
    var found := FindOrCreateSlot(feeders, SlotName(id));
    var fs := found.0;
    var i := found.1;
    fs[i := fs[i].(wiring := Some(WiringOf(id, layout, feedActuator, postPickActuator)))]
  }

  /** `create_slotted_feeders` for the first `count` slots, on any machine. */
  function SlottedFeeders(feeders: seq<MachineFeeder>, count: nat, layout: Layout, feedActuator: string, postPickActuator: string): (r: seq<MachineFeeder>)
    ensures SlotsPlaced(feeders, count, layout, feedActuator, postPickActuator, r)
  {
    if count == 0 then
      assert feeders[|feeders|..] == [];
      feeders
    else
      var before := SlottedFeeders(feeders, count - 1, layout, feedActuator, postPickActuator);
      PlaceSlotStep(feeders, count - 1, layout, feedActuator, postPickActuator, before);
      PlaceSlot(before, count - 1, layout, feedActuator, postPickActuator)
  }

  function NewSlot(id: nat, layout: Layout, feedActuator: string, postPickActuator: string): MachineFeeder {
    MachineFeeder(SlotAutoFeeder, SlotName(id), Some(WiringOf(id, layout, feedActuator, postPickActuator)))
  }

  /** The ids below `count` whose slot the machine's feeders do not have,
      in increasing order: the slots that get created. */
  function MissingSlots(feeders: seq<MachineFeeder>, count: nat): (ids: seq<nat>)
    ensures forall k :: 0 <= k < |ids| ==> ids[k] < count && FindSlottedFeeder(feeders, SlotName(ids[k])).None?
    ensures forall id :: 0 <= id < count && FindSlottedFeeder(feeders, SlotName(id)).None? ==> id in ids
    ensures forall k, l :: 0 <= k < l < |ids| ==> ids[k] < ids[l]
  {
    if count == 0 then []
    else
      var before := MissingSlots(feeders, count - 1);
      var ids := before + (if FindSlottedFeeder(feeders, SlotName(count - 1)).None? then [count - 1] else []);
      assert forall k :: 0 <= k < |before| ==> ids[k] == before[k];
      assert forall k :: |before| <= k < |ids| ==> ids[k] == count - 1;
      ids
  }

  /** New slot feeders for the given ids, in that order. */
  function SlotsFor(ids: seq<nat>, layout: Layout, feedActuator: string, postPickActuator: string): (r: seq<MachineFeeder>)
    ensures |r| == |ids|
  {
    seq(|ids|, k requires 0 <= k < |ids| => NewSlot(ids[k], layout, feedActuator, postPickActuator))
  }

  lemma SlotsForSnoc(ids: seq<nat>, id: nat, layout: Layout, feedActuator: string, postPickActuator: string)
    ensures SlotsFor(ids + [id], layout, feedActuator, postPickActuator) ==
            SlotsFor(ids, layout, feedActuator, postPickActuator) + [NewSlot(id, layout, feedActuator, postPickActuator)]
  {
  }

  /** Feeder `j` is the one found for some slot below `count`. */
  ghost predicate SlotOwner(feeders: seq<MachineFeeder>, count: nat, j: nat) {
    exists id :: 0 <= id < count && FindSlottedFeeder(feeders, SlotName(id)) == Some(j)
  }

  /** What `create_slotted_feeders` has done to `feeders` once slots below
      `count` are placed, giving `r`: every slot not found is a new slot
      feeder appended in id order; the machine's own feeders keep their kind
      and name; the feeder found for a slot is wired for that slot; every
      other feeder is as it was. */
  ghost predicate SlotsPlaced(feeders: seq<MachineFeeder>, count: nat, layout: Layout, feedActuator: string, postPickActuator: string, r: seq<MachineFeeder>) {
    && SlotsAppended(feeders, count, layout, feedActuator, postPickActuator, r)
    && KindsAndNamesKept(feeders, r)
    && SlotsWired(feeders, count, layout, feedActuator, postPickActuator, r)
    && OthersKept(feeders, count, r)
  }

  ghost predicate SlotsAppended(feeders: seq<MachineFeeder>, count: nat, layout: Layout, feedActuator: string, postPickActuator: string, r: seq<MachineFeeder>) {
    && |r| == |feeders| + |MissingSlots(feeders, count)|
    && r[|feeders|..] == SlotsFor(MissingSlots(feeders, count), layout, feedActuator, postPickActuator)
  }

  ghost predicate KindsAndNamesKept(feeders: seq<MachineFeeder>, r: seq<MachineFeeder>) {
    && |feeders| <= |r|
    && forall j :: 0 <= j < |feeders| ==> r[j].kind == feeders[j].kind && r[j].name == feeders[j].name
  }

  ghost predicate SlotsWired(feeders: seq<MachineFeeder>, count: nat, layout: Layout, feedActuator: string, postPickActuator: string, r: seq<MachineFeeder>) {
    && |feeders| <= |r|
    && forall id :: 0 <= id < count && FindSlottedFeeder(feeders, SlotName(id)).Some? ==>
         r[FindSlottedFeeder(feeders, SlotName(id)).value].wiring == Some(WiringOf(id, layout, feedActuator, postPickActuator))
  }

  ghost predicate OthersKept(feeders: seq<MachineFeeder>, count: nat, r: seq<MachineFeeder>) {
    && |feeders| <= |r|
    && forall j :: 0 <= j < |feeders| && !SlotOwner(feeders, count, j) ==> r[j] == feeders[j]
  }

  /** A feeder name cannot start with the lookup prefixes of two different
      slots: after `SLOT-` one has a digit where the other has its space. */
  lemma SlotPrefixesExclusive(name: string, i: nat, k: nat)
    requires StartsWith(name, SlotName(i) + " (") && StartsWith(name, SlotName(k) + " (")
    ensures i == k
  {
    var a := NatToString(i);
    var b := NatToString(k);
    var pa := SlotName(i) + " (";
    var pb := SlotName(k) + " (";
    assert forall t :: 0 <= t < |a| ==> pa[5 + t] == a[t];
    assert forall t :: 0 <= t < |b| ==> pb[5 + t] == b[t];
    assert pa[5 + |a|] == ' ' && pb[5 + |b|] == ' ';
    if |a| != |b| {
      assert false;
    } else {
      PrefixAgrees(name, pa);
      PrefixAgrees(name, pb);
      assert a == b;
      NatToStringInjective(i, k);
    }
  }

  lemma PrefixAgrees(s: string, prefix: string)
    requires StartsWith(s, prefix)
    ensures forall q :: 0 <= q < |prefix| ==> s[q] == prefix[q]
  {
    assert forall q :: 0 <= q < |prefix| ==> s[q] == s[..|prefix|][q];
  }

  /** The slot lookup on `r` finds what it found on `feeders`, when `r`
      keeps the names of `feeders` and appends only slot feeders. */
  lemma SlotLookupUnchanged(feeders: seq<MachineFeeder>, r: seq<MachineFeeder>, ids: seq<nat>, id: nat, layout: Layout, feedActuator: string, postPickActuator: string)
    requires |r| == |feeders| + |ids|
    requires r[|feeders|..] == SlotsFor(ids, layout, feedActuator, postPickActuator)
    requires forall j :: 0 <= j < |feeders| ==> r[j].name == feeders[j].name
    ensures FindSlottedFeeder(r, SlotName(id)) == FindSlottedFeeder(feeders, SlotName(id))
  {
    var p := SlotName(id) + " (";
    forall j | |feeders| <= j < |r|
      ensures !StartsWith(r[j].name, p)
    {
      assert r[j] == r[|feeders|..][j - |feeders|];
      SlotNameIsNoLookupMatch(id, ids[j - |feeders|]);
    }
    var a := FindSlottedFeeder(r, SlotName(id));
    var b := FindSlottedFeeder(feeders, SlotName(id));
    if a.Some? && b.Some? {
      assert !(a.value < b.value) && !(b.value < a.value);
    }
  }

  /** Placing slot `count` extends what the first `count` slots did. */
  lemma PlaceSlotStep(feeders: seq<MachineFeeder>, count: nat, layout: Layout, feedActuator: string, postPickActuator: string, before: seq<MachineFeeder>)
    requires SlotsPlaced(feeders, count, layout, feedActuator, postPickActuator, before)
    ensures SlotsPlaced(feeders, count + 1, layout, feedActuator, postPickActuator, PlaceSlot(before, count, layout, feedActuator, postPickActuator))
  {
    SlotLookupUnchanged(feeders, before, MissingSlots(feeders, count), count, layout, feedActuator, postPickActuator);
    match FindSlottedFeeder(feeders, SlotName(count))
    case Some(j) =>
      FoundSlotIsUnowned(feeders, count, j);
      FoundSlotStep(feeders, count, layout, feedActuator, postPickActuator, before, j);
    case None =>
      NewSlotStep(feeders, count, layout, feedActuator, postPickActuator, before);
  }

  /** The step when slot `count` is not found: a new slot feeder is
      appended, and nothing else changes. */
  lemma NewSlotStep(feeders: seq<MachineFeeder>, count: nat, layout: Layout, feedActuator: string, postPickActuator: string, before: seq<MachineFeeder>)
    requires SlotsPlaced(feeders, count, layout, feedActuator, postPickActuator, before)
    requires FindSlottedFeeder(feeders, SlotName(count)).None?
    requires FindSlottedFeeder(before, SlotName(count)).None?
    ensures SlotsPlaced(feeders, count + 1, layout, feedActuator, postPickActuator, PlaceSlot(before, count, layout, feedActuator, postPickActuator))
  {
    var slot := NewSlot(count, layout, feedActuator, postPickActuator);
    var after := PlaceSlot(before, count, layout, feedActuator, postPickActuator);
    assert after == before + [slot];
    NewSlotAppended(feeders, count, layout, feedActuator, postPickActuator, before, after);
    UntouchedStep(feeders, count, before, after);
  }

  lemma NewSlotAppended(feeders: seq<MachineFeeder>, count: nat, layout: Layout, feedActuator: string, postPickActuator: string, before: seq<MachineFeeder>, after: seq<MachineFeeder>)
    requires SlotsAppended(feeders, count, layout, feedActuator, postPickActuator, before)
    requires FindSlottedFeeder(feeders, SlotName(count)).None?
    requires after == before + [NewSlot(count, layout, feedActuator, postPickActuator)]
    ensures SlotsAppended(feeders, count + 1, layout, feedActuator, postPickActuator, after)
  {
    var ids := MissingSlots(feeders, count);
    assert MissingSlots(feeders, count + 1) == ids + [count];
    assert after[|feeders|..] == before[|feeders|..] + [NewSlot(count, layout, feedActuator, postPickActuator)];
    SlotsForSnoc(ids, count, layout, feedActuator, postPickActuator);
  }

  /** The step when slot `count` is found at feeder `j`, which no earlier
      slot was found at: only feeder `j` changes. */
  lemma FoundSlotStep(feeders: seq<MachineFeeder>, count: nat, layout: Layout, feedActuator: string, postPickActuator: string, before: seq<MachineFeeder>, j: nat)
    requires SlotsPlaced(feeders, count, layout, feedActuator, postPickActuator, before)
    requires FindSlottedFeeder(feeders, SlotName(count)) == Some(j)
    requires FindSlottedFeeder(before, SlotName(count)) == Some(j)
    requires !SlotOwner(feeders, count, j)
    ensures SlotsPlaced(feeders, count + 1, layout, feedActuator, postPickActuator, PlaceSlot(before, count, layout, feedActuator, postPickActuator))
  {
    var w := Some(WiringOf(count, layout, feedActuator, postPickActuator));
    var after := PlaceSlot(before, count, layout, feedActuator, postPickActuator);
    assert after == before[j := before[j].(wiring := w)];
    assert MissingSlots(feeders, count + 1) == MissingSlots(feeders, count);
    assert after[|feeders|..] == before[|feeders|..];
    assert SlotsAppended(feeders, count + 1, layout, feedActuator, postPickActuator, after);
    RewiredSlots(feeders, count, layout, feedActuator, postPickActuator, before, j, after);
    UntouchedStep(feeders, count, before, after);
  }

  /** A step that changes at most the feeder found for slot `count`, and
      neither its kind nor its name, keeps the names and the other feeders. */
  lemma UntouchedStep(feeders: seq<MachineFeeder>, count: nat, before: seq<MachineFeeder>, after: seq<MachineFeeder>)
    requires KindsAndNamesKept(feeders, before) && OthersKept(feeders, count, before)
    requires |before| <= |after| && forall k :: 0 <= k < |before| ==> after[k].kind == before[k].kind && after[k].name == before[k].name
    requires forall k :: 0 <= k < |feeders| && FindSlottedFeeder(feeders, SlotName(count)) != Some(k) ==> after[k] == before[k]
    ensures KindsAndNamesKept(feeders, after) && OthersKept(feeders, count + 1, after)
  {
    forall k | 0 <= k < |feeders| && !SlotOwner(feeders, count + 1, k)
      ensures after[k] == feeders[k]
    {
      OwnerStep(feeders, count, k);
    }
  }

  /** Rewiring feeder `j` for slot `count` keeps the wiring of the earlier
      slots, none of which was found at `j`. */
  lemma RewiredSlots(feeders: seq<MachineFeeder>, count: nat, layout: Layout, feedActuator: string, postPickActuator: string, before: seq<MachineFeeder>, j: nat, after: seq<MachineFeeder>)
    requires SlotsWired(feeders, count, layout, feedActuator, postPickActuator, before)
    requires FindSlottedFeeder(feeders, SlotName(count)) == Some(j)
    requires !SlotOwner(feeders, count, j)
    requires after == before[j := before[j].(wiring := Some(WiringOf(count, layout, feedActuator, postPickActuator)))]
    ensures SlotsWired(feeders, count + 1, layout, feedActuator, postPickActuator, after)
  {
    forall id | 0 <= id < count + 1 && FindSlottedFeeder(feeders, SlotName(id)).Some?
      ensures after[FindSlottedFeeder(feeders, SlotName(id)).value].wiring == Some(WiringOf(id, layout, feedActuator, postPickActuator))
    {
      if id < count {
        var k := FindSlottedFeeder(feeders, SlotName(id)).value;
        assert SlotOwner(feeders, count, k);
        assert after[k] == before[k];
      }
    }
  }

  /** The feeder found for slot `count` was found for no earlier slot. */
  lemma FoundSlotIsUnowned(feeders: seq<MachineFeeder>, count: nat, j: nat)
    requires FindSlottedFeeder(feeders, SlotName(count)) == Some(j)
    ensures !SlotOwner(feeders, count, j)
  {
    if SlotOwner(feeders, count, j) {
      var id :| 0 <= id < count && FindSlottedFeeder(feeders, SlotName(id)) == Some(j);
      SlotPrefixesExclusive(feeders[j].name, id, count);
      assert false;
    }
  }

  /** The feeders found for the slots below `count + 1` are those found
      for the slots below `count` and the one found for slot `count`. */
  lemma OwnerStep(feeders: seq<MachineFeeder>, count: nat, j: nat)
    ensures SlotOwner(feeders, count + 1, j) <==>
            SlotOwner(feeders, count, j) || FindSlottedFeeder(feeders, SlotName(count)) == Some(j)
  {
  }

  /** A slot name with nothing after it never matches the lookup of a slot,
      which expects ` (` after the name. */
  lemma SlotNameIsNoLookupMatch(i: nat, j: nat)
    ensures !StartsWith(SlotName(j), SlotName(i) + " (")
  {
    var p := SlotName(i) + " (";
    var s := SlotName(j);
    var k := |SlotName(i)|;
    if |p| <= |s| {
      assert p[k] == ' ';
      assert s[k] == NatToString(j)[k - 5];
      assert s[..|p|][k] != p[k];
    }
  }

  /** On a machine with no feeder yet named `SLOT-...`, the slots are
      created in order, slot `i` at `start + offset * i` with actuator
      values `i`, and nothing else changes. */
  lemma {:induction false} SlottedFeedersOnFreshMachine(feeders: seq<MachineFeeder>, count: nat, layout: Layout, feedActuator: string, postPickActuator: string)
    requires forall j :: 0 <= j < |feeders| ==> !StartsWith(feeders[j].name, "SLOT-")
    ensures SlottedFeeders(feeders, count, layout, feedActuator, postPickActuator) ==
            feeders + NewSlots(count, layout, feedActuator, postPickActuator)
  {
    if count > 0 {
      var id := count - 1;
      SlottedFeedersOnFreshMachine(feeders, id, layout, feedActuator, postPickActuator);
      var before := feeders + NewSlots(id, layout, feedActuator, postPickActuator);
      FreshSlotIsNotFound(feeders, id, layout, feedActuator, postPickActuator);
      assert PlaceSlot(before, id, layout, feedActuator, postPickActuator) ==
             before + [NewSlot(id, layout, feedActuator, postPickActuator)];
      NewSlotsSnoc(id, layout, feedActuator, postPickActuator);
    }
  }

  function NewSlots(count: nat, layout: Layout, feedActuator: string, postPickActuator: string): (r: seq<MachineFeeder>)
    ensures |r| == count
  {
    seq(count, i requires 0 <= i < count => NewSlot(i, layout, feedActuator, postPickActuator))
  }

  lemma NewSlotsSnoc(id: nat, layout: Layout, feedActuator: string, postPickActuator: string)
    ensures NewSlots(id + 1, layout, feedActuator, postPickActuator) ==
            NewSlots(id, layout, feedActuator, postPickActuator) + [NewSlot(id, layout, feedActuator, postPickActuator)]
  {
  }

  /** Slot `id` is not found among the machine's own feeders and the slots
      made before it. */
  lemma FreshSlotIsNotFound(feeders: seq<MachineFeeder>, id: nat, layout: Layout, feedActuator: string, postPickActuator: string)
    requires forall j :: 0 <= j < |feeders| ==> !StartsWith(feeders[j].name, "SLOT-")
    ensures FindSlottedFeeder(feeders + NewSlots(id, layout, feedActuator, postPickActuator), SlotName(id)).None?
  {
    var slots := NewSlots(id, layout, feedActuator, postPickActuator);
    var before := feeders + slots;
    var p := SlotName(id) + " (";
    assert p[..5] == "SLOT-";
    forall j | 0 <= j < |slots|
      ensures !StartsWith(slots[j].name, p)
    {
      SlotNameIsNoLookupMatch(id, j);
    }
    forall j | 0 <= j < |before|
      ensures !StartsWith(before[j].name, p)
    {
      if j >= |feeders| {
        assert before[j] == slots[j - |feeders|];
      } else {
        assert before[j] == feeders[j];
      }
    }
  }

  function NewAutoFeeder(id: nat, layout: Layout, feedActuator: string, postPickActuator: string): MachineFeeder {
    MachineFeeder(AutoFeeder, AutoFeederName(id), Some(WiringOf(id, layout, feedActuator, postPickActuator)))
  }

  /** The feeders after `create_auto_feeders`: `Feeder-<id>` for every id,
      appended after the existing ones without any lookup. */
  function AutoFeederList(feeders: seq<MachineFeeder>, count: nat, layout: Layout, feedActuator: string, postPickActuator: string): (r: seq<MachineFeeder>)
    ensures |r| == |feeders| + count && r[..|feeders|] == feeders
    ensures forall i :: 0 <= i < count ==>
              && r[|feeders| + i].kind == AutoFeeder
              && r[|feeders| + i].name == AutoFeederName(i)
              && r[|feeders| + i].wiring == Some(WiringOf(i, layout, feedActuator, postPickActuator))
    ensures forall i, j :: |feeders| <= i < j < |r| ==> r[i].name != r[j].name
  {
    AutoFeederNamesDistinct(count);
    feeders + seq(count, i requires 0 <= i < count => NewAutoFeeder(i, layout, feedActuator, postPickActuator))
  }

  /** `Feeder-0`, `Feeder-1`, ... for the ids below `count`. */
  function AutoFeederNames(count: nat): seq<string> {
    seq(count, i requires 0 <= i < count => AutoFeederName(i))
  }

  lemma AutoFeederNamesDistinct(count: nat)
    ensures forall i, j :: 0 <= i < j < count ==> AutoFeederName(i) != AutoFeederName(j)
  {
    forall i, j | 0 <= i < j < count
      ensures AutoFeederName(i) != AutoFeederName(j)
    {
      FeederNamesDistinct(i, j);
    }
  }

  /** `create_auto_feeders`, one feeder per pass. */
  method CreateAutoFeeders(feeders: seq<MachineFeeder>, count: nat, layout: Layout, feedActuator: string, postPickActuator: string)
    returns (r: seq<MachineFeeder>)
    ensures r == AutoFeederList(feeders, count, layout, feedActuator, postPickActuator)
    ensures |r| == |feeders| + count && r[..|feeders|] == feeders
    ensures forall i :: 0 <= i < count ==> r[|feeders| + i].name == AutoFeederName(i)
    ensures forall i, j :: |feeders| <= i < j < |r| ==> r[i].name != r[j].name
  {
    r := feeders;
    for id := 0 to count
      invariant r == AutoFeederList(feeders, id, layout, feedActuator, postPickActuator)
    {
      var next := AutoFeederList(feeders, id + 1, layout, feedActuator, postPickActuator);
      r := r + [NewAutoFeeder(id, layout, feedActuator, postPickActuator)];
      assert r == next;
    }
  }

  /** Feeder names differ for different ids. */
  lemma FeederNamesDistinct(i: nat, j: nat)
    requires i != j
    ensures SlotName(i) != SlotName(j)
    ensures AutoFeederName(i) != AutoFeederName(j)
  {
    NumberedNamesDistinct("SLOT-", i, j);
    NumberedNamesDistinct("Feeder-", i, j);
  }

  lemma NumberedNamesDistinct(prefix: string, i: nat, j: nat)
    requires i != j
    ensures prefix + NatToString(i) != prefix + NatToString(j)
  {
    if prefix + NatToString(i) == prefix + NatToString(j) {
      assert NatToString(i) == (prefix + NatToString(i))[|prefix|..];
      NatToStringInjective(i, j);
    }
  }

  // ---------------------------------------------------------------------
  // The feeder controller's G-code
  // ---------------------------------------------------------------------

  /** An advance command and the actuator it belongs to. */
  datatype Advance = Advance(gcode: string, actuator: string)

  datatype GcodeSettings = GcodeSettings(
    driver: string,
    advance2mm: Option<Advance>,
    advance4mm: Option<Advance>,
    postPick: string,
    postPickActuator: string,
    enable: Option<string>,
    disable: Option<string>)

  /** A command is configured only when it is given and not empty. */
  predicate GivenAdvance(a: Option<Advance>) {
    a.Some? && |a.value.gcode| > 0
  }

  predicate Given(g: Option<string>) {
    g.Some? && |g.value| > 0
  }

  const ConfirmRegex: string := "^ok.*"
  const ErrorRegex: string := "^error.*"

  function ActuateKey(actuator: string): CommandKey {
    CommandKey(Some(actuator), ActuateDouble)
  }

  /** The actuators `configure_0816_feeder_gcode` looks up, in order. */
  function ConfiguredActuators(s: GcodeSettings): seq<string> {
    (if GivenAdvance(s.advance2mm) then [s.advance2mm.value.actuator] else [])
    + (if GivenAdvance(s.advance4mm) then [s.advance4mm.value.actuator] else [])
    + [s.postPickActuator]
  }

  /** The command for `key` is `text`. */
  predicate Sets(commands: map<CommandKey, string>, key: CommandKey, text: string) {
    key in commands && commands[key] == text
  }

  /** The per-actuator commands, set in order: the 2 mm advance, the 4 mm
      advance, then the post-pick command; a later one for the same
      actuator replaces an earlier one. */
  function SetActuations(commands: map<CommandKey, string>, s: GcodeSettings): (r: map<CommandKey, string>)
    ensures Sets(r, ActuateKey(s.postPickActuator), s.postPick)
    ensures GivenAdvance(s.advance4mm) && s.advance4mm.value.actuator != s.postPickActuator ==>
              Sets(r, ActuateKey(s.advance4mm.value.actuator), s.advance4mm.value.gcode)
    ensures GivenAdvance(s.advance2mm) && s.advance2mm.value.actuator != s.postPickActuator
            && !(GivenAdvance(s.advance4mm) && s.advance4mm.value.actuator == s.advance2mm.value.actuator) ==>
              Sets(r, ActuateKey(s.advance2mm.value.actuator), s.advance2mm.value.gcode)
    ensures forall k :: k in commands && k !in ActuateKeys(s) ==> k in r && r[k] == commands[k]
    ensures forall k :: k in r ==> k in commands || k in ActuateKeys(s)
  {
    var c2 := if GivenAdvance(s.advance2mm) then commands[ActuateKey(s.advance2mm.value.actuator) := s.advance2mm.value.gcode] else commands;
    var c4 := if GivenAdvance(s.advance4mm) then c2[ActuateKey(s.advance4mm.value.actuator) := s.advance4mm.value.gcode] else c2;
    c4[ActuateKey(s.postPickActuator) := s.postPick]
  }

  /** The driver-wide commands: the two response patterns, then enable and
      disable when given. */
  function SetDriverWide(commands: map<CommandKey, string>, s: GcodeSettings): (r: map<CommandKey, string>)
    ensures Sets(r, CommandKey(None, CommandConfirmRegex), ConfirmRegex)
    ensures Sets(r, CommandKey(None, CommandErrorRegex), ErrorRegex)
    ensures Given(s.enable) ==> Sets(r, CommandKey(None, EnableCommand), s.enable.value)
    ensures Given(s.disable) ==> Sets(r, CommandKey(None, DisableCommand), s.disable.value)
    ensures forall k :: k in commands && k !in DriverWideKeys(s) ==> k in r && r[k] == commands[k]
    ensures forall k :: k in r ==> k in commands || k in DriverWideKeys(s)
  {
    var cr := commands[CommandKey(None, CommandConfirmRegex) := ConfirmRegex][CommandKey(None, CommandErrorRegex) := ErrorRegex];
    var ce := if Given(s.enable) then cr[CommandKey(None, EnableCommand) := s.enable.value] else cr;
    if Given(s.disable) then ce[CommandKey(None, DisableCommand) := s.disable.value] else ce
  }

  /** The commands `configure_0816_feeder_gcode` sets on the driver, in
      order; a later one for the same key replaces an earlier one. */
  function SetCommands(commands: map<CommandKey, string>, s: GcodeSettings): (r: map<CommandKey, string>)
    ensures Sets(r, ActuateKey(s.postPickActuator), s.postPick)
    ensures Sets(r, CommandKey(None, CommandConfirmRegex), ConfirmRegex)
    ensures Sets(r, CommandKey(None, CommandErrorRegex), ErrorRegex)
    ensures GivenAdvance(s.advance4mm) && s.advance4mm.value.actuator != s.postPickActuator ==>
              Sets(r, ActuateKey(s.advance4mm.value.actuator), s.advance4mm.value.gcode)
    ensures GivenAdvance(s.advance2mm) && s.advance2mm.value.actuator != s.postPickActuator
            && !(GivenAdvance(s.advance4mm) && s.advance4mm.value.actuator == s.advance2mm.value.actuator) ==>
              Sets(r, ActuateKey(s.advance2mm.value.actuator), s.advance2mm.value.gcode)
    ensures Given(s.enable) ==> Sets(r, CommandKey(None, EnableCommand), s.enable.value)
    ensures Given(s.disable) ==> Sets(r, CommandKey(None, DisableCommand), s.disable.value)
    ensures forall k :: k in commands && k !in Touched(s) ==> k in r && r[k] == commands[k]
    ensures forall k :: k in r ==> k in commands || k in Touched(s)
  {
    SetDriverWide(SetActuations(commands, s), s)
  }

  /** The per-actuator command keys the configuration sets. */
  function ActuateKeys(s: GcodeSettings): set<CommandKey> {
    set a | a in ConfiguredActuators(s) :: ActuateKey(a)
  }

  /** The driver-wide command keys the configuration sets. */
  function DriverWideKeys(s: GcodeSettings): set<CommandKey> {
    {CommandKey(None, CommandConfirmRegex), CommandKey(None, CommandErrorRegex)}
    + (if Given(s.enable) then {CommandKey(None, EnableCommand)} else {})
    + (if Given(s.disable) then {CommandKey(None, DisableCommand)} else {})
  }

  /** The command keys the configuration sets. */
  function Touched(s: GcodeSettings): set<CommandKey> {
    ActuateKeys(s) + DriverWideKeys(s)
  }

  /** `configure_0816_feeder_gcode`: find or create the driver, find or
      create each configured actuator on it, and set the commands on the
      driver. Feeders and the other drivers are untouched. */
  function ConfigureGcode(m: Machine, s: GcodeSettings): (r: Machine)
    ensures r.feeders == m.feeders
    ensures r.actuators == FindOrCreateActuators(m.actuators, ConfiguredActuators(s), s.driver)
    ensures |r.drivers| == |m.drivers| + (if FindDriver(m.drivers, s.driver).None? then 1 else 0)
    ensures var d := FindOrCreateDriver(m.drivers, s.driver).1;
            && FindDriver(r.drivers, s.driver) == Some(d)
            && r.drivers[d].commands == SetCommands(FindOrCreateDriver(m.drivers, s.driver).0[d].commands, s)
            && forall j :: 0 <= j < |m.drivers| && j != d ==> r.drivers[j] == m.drivers[j]
  {
    var found := FindOrCreateDriver(m.drivers, s.driver);
    var drivers := found.0;
    var d := found.1;
    var actuators := FindOrCreateActuators(m.actuators, ConfiguredActuators(s), s.driver);
    var r := Machine(m.feeders, actuators, drivers[d := drivers[d].(commands := SetCommands(drivers[d].commands, s))]);
    FindOrCreateDriverIsFound(m.drivers, s.driver);
    assert FindDriver(r.drivers, s.driver) == FindDriver(drivers, s.driver) by {
      FindDriverIgnoresCommands(drivers, d, SetCommands(drivers[d].commands, s), s.driver);
    }
    r
  }

  /** The driver lookup only looks at names. */
  lemma FindDriverIgnoresCommands(drivers: seq<Driver>, d: nat, commands: map<CommandKey, string>, name: string)
    requires d < |drivers|
    ensures FindDriver(drivers[d := drivers[d].(commands := commands)], name) == FindDriver(drivers, name)
  {
    var after := drivers[d := drivers[d].(commands := commands)];
    var a := FindDriver(after, name);
    var b := FindDriver(drivers, name);
    assert forall j :: 0 <= j < |drivers| ==> after[j].name == drivers[j].name;
  }

  // ---------------------------------------------------------------------
  // The default bank
  // ---------------------------------------------------------------------

  /** A feeder of the default bank: its name, its part and its pick
      offsets. */
  datatype BankFeeder = BankFeeder(name: string, part: Option<string>, offsets: Location)

  function FeederName(f: BankFeeder): string {
    f.name
  }

  /** `find_feeder_in_bank`: the first feeder of that exact name. */
  function FindFeederInBank(bank: seq<BankFeeder>, name: string): (r: Option<nat>)
    ensures r.Some? ==> r.value < |bank| && bank[r.value].name == name
    ensures r.Some? ==> forall j :: 0 <= j < r.value ==> bank[j].name != name
    ensures r.None? ==> forall j :: 0 <= j < |bank| ==> bank[j].name != name
  {
    FirstMatch(bank, (f: BankFeeder) => f.name == name)
  }

  /** The bank lookup fails exactly when no feeder of the bank has the
      name. */
  lemma FindFeederInBankFailsIffAbsent(bank: seq<BankFeeder>, name: string)
    ensures FindFeederInBank(bank, name).None? <==> name !in Names(bank, FeederName)
  {
    forall i | 0 <= i < |bank|
      ensures Names(bank, FeederName)[i] == bank[i].name
    {
      assert FeederName(bank[i]) == bank[i].name;
    }
  }

  /** What the script reads of a part: its id, its package's body size and
      its height. */
  datatype PartInfo = PartInfo(id: string, bodyWidth: real, bodyHeight: real, height: real)

  /** The pick offset of a part's feeder: half the body, or nothing for a
      body size that is not positive, at the part's height. */
  function PickOffset(p: PartInfo): (o: Location)
    ensures p.bodyWidth > 0.0 ==> o.x * 2.0 == p.bodyWidth
    ensures p.bodyWidth <= 0.0 ==> o.x == 0.0
    ensures p.bodyHeight > 0.0 ==> o.y * 2.0 == p.bodyHeight
    ensures p.bodyHeight <= 0.0 ==> o.y == 0.0
    ensures o.x >= 0.0 && o.y >= 0.0
    ensures o.z == p.height && o.rotation == 0.0
  {
    Location(
      if p.bodyWidth > 0.0 then p.bodyWidth / 2.0 else 0.0,
      if p.bodyHeight > 0.0 then p.bodyHeight / 2.0 else 0.0,
      p.height,
      0.0)
  }

  /** The feeder made for a part: named after it, holding it, offset by
      its pick offset from a fresh feeder's zero offsets. */
  function PartFeeder(p: PartInfo): BankFeeder {
    BankFeeder(p.id, Some(p.id), PickOffset(p))
  }

  function PartIds(parts: seq<PartInfo>): seq<string> {
    seq(|parts|, i requires 0 <= i < |parts| => parts[i].id)
  }

  function PartFeederList(parts: seq<PartInfo>): seq<BankFeeder> {
    seq(|parts|, i requires 0 <= i < |parts| => PartFeeder(parts[i]))
  }

  lemma PartFeederNames(parts: seq<PartInfo>)
    ensures Names(PartFeederList(parts), FeederName) == PartIds(parts)
  {
    forall i | 0 <= i < |parts|
      ensures Names(PartFeederList(parts), FeederName)[i] == PartIds(parts)[i]
    {
      assert PartFeederList(parts)[i] == PartFeeder(parts[i]);
      assert FeederName(PartFeeder(parts[i])) == parts[i].id;
    }
  }

  /** The per-part loop: a feeder for every part that has no feeder of its
      name in the bank yet. */
  function PartFeeders(bank: seq<BankFeeder>, parts: seq<PartInfo>): (r: seq<BankFeeder>)
    ensures |r| >= |bank| && r[..|bank|] == bank
    ensures Names(r[|bank|..], FeederName) == Missing(NameSet(bank, FeederName), PartIds(parts))
    ensures forall j :: |bank| <= j < |r| ==> exists i :: 0 <= i < |parts| && r[j] == PartFeeder(parts[i])
  {
    var wanted := PartFeederList(parts);
    var r := AddMissing(bank, wanted, FeederName);
    AddMissingAddsMissing(bank, wanted, FeederName);
    PartFeederNames(parts);
    AddedFromWanted(bank, wanted, FeederName);
    forall j | |bank| <= j < |r|
      ensures exists i :: 0 <= i < |parts| && r[j] == PartFeeder(parts[i])
    {
      var i :| 0 <= i < |wanted| && wanted[i] == r[j];
      assert r[j] == PartFeeder(parts[i]);
    }
    r
  }

  function HomingFeeder(id: nat, homingPart: Option<string>): BankFeeder {
    BankFeeder(AutoFeederName(id), homingPart, Location(0.0, 0.0, 0.0, 0.0))
  }

  /** The loop used instead when feeders are not named after parts:
      `Feeder-<id>` for every id not yet in the bank, holding the homing
      fiducial part (as the host looked it up). */
  function HomingFeeders(bank: seq<BankFeeder>, count: nat, homingPart: Option<string>): (r: seq<BankFeeder>)
    ensures |r| >= |bank| && r[..|bank|] == bank
    ensures Names(r[|bank|..], FeederName) ==
            Missing(NameSet(bank, FeederName), AutoFeederNames(count))
    ensures forall j :: |bank| <= j < |r| ==> exists i :: 0 <= i < count && r[j] == HomingFeeder(i, homingPart)
    ensures forall j :: |bank| <= j < |r| ==> r[j].part == homingPart && r[j].offsets == Location(0.0, 0.0, 0.0, 0.0)
  {
    var wanted := seq(count, i requires 0 <= i < count => HomingFeeder(i, homingPart));
    var r := AddMissing(bank, wanted, FeederName);
    AddMissingAddsMissing(bank, wanted, FeederName);
    assert Names(wanted, FeederName) == AutoFeederNames(count);
    AddedFromWanted(bank, wanted, FeederName);
    forall j | |bank| <= j < |r|
      ensures exists i :: 0 <= i < count && r[j] == HomingFeeder(i, homingPart)
    {
      var i :| 0 <= i < |wanted| && wanted[i] == r[j];
      assert r[j] == HomingFeeder(i, homingPart);
    }
    r
  }

  // ---------------------------------------------------------------------
  // The script
  // ---------------------------------------------------------------------

  const AvrGcode: GcodeSettings := GcodeSettings(
    "FeederController",
    Some(Advance("M600 N{IntegerValue} F2", "FeederAdvance2MM")),
    Some(Advance("M600 N{IntegerValue} F4", "FeederAdvance4MM")),
    "M601 N{IntegerValue}",
    "FeederPostPick",
    Some("M610 S1"),
    Some("M610 S0"))

  /** The ESP32 controller has one advance actuator and no global enable. */
  const Esp32Gcode: GcodeSettings := GcodeSettings(
    "Esp32FeederController",
    Some(Advance("M610 N{IntegerValue}", "FeederAdvance")),
    None,
    "M611 N{IntegerValue}",
    "FeederPostPick",
    None,
    None)

  /** The settings at the top of the script. */
  datatype Settings = Settings(
    layout: Layout,
    count: nat,
    usePartIdForFeeder: bool,
    useAvrController: bool,
    useSlottedFeeders: bool)

  const Defaults: Settings := Settings(Layout(0.0, 10.0, 15.0, 0.0), 28, true, true, true)

  /** The actuator that advances the feeders: the 4 mm one on the AVR
      controller, the single one on the ESP32 controller. */
  function FeedActuator(s: Settings): string {
    if s.useAvrController then "FeederAdvance4MM" else "FeederAdvance"
  }

  /** The feeders the script leaves: the slots placed, or (without slotted
      feeders) a plain auto feeder appended per id. */
  function ScriptFeeders(s: Settings, feeders: seq<MachineFeeder>): (r: seq<MachineFeeder>)
    ensures s.useSlottedFeeders ==>
              SlotsPlaced(feeders, s.count, s.layout, FeedActuator(s), "FeederPostPick", r)
    ensures !s.useSlottedFeeders ==>
              && |r| == |feeders| + s.count && r[..|feeders|] == feeders
              && forall i :: 0 <= i < s.count ==> r[|feeders| + i] == NewAutoFeeder(i, s.layout, FeedActuator(s), "FeederPostPick")
  {
    if s.useSlottedFeeders then SlottedFeeders(feeders, s.count, s.layout, FeedActuator(s), "FeederPostPick")
    else AutoFeederList(feeders, s.count, s.layout, FeedActuator(s), "FeederPostPick")
  }

  /** The default bank the script leaves: untouched without slotted
      feeders; otherwise a feeder added per part, or per id, whose name the
      bank lacks. */
  function ScriptBank(s: Settings, bank: seq<BankFeeder>, parts: seq<PartInfo>, homingPart: Option<string>): (r: seq<BankFeeder>)
    ensures !s.useSlottedFeeders ==> r == bank
    ensures |r| >= |bank| && r[..|bank|] == bank
    ensures s.useSlottedFeeders && s.usePartIdForFeeder ==>
              && Names(r[|bank|..], FeederName) == Missing(NameSet(bank, FeederName), PartIds(parts))
              && forall j :: |bank| <= j < |r| ==> exists i :: 0 <= i < |parts| && r[j] == PartFeeder(parts[i])
    ensures s.useSlottedFeeders && !s.usePartIdForFeeder ==>
              && Names(r[|bank|..], FeederName) == Missing(NameSet(bank, FeederName), AutoFeederNames(s.count))
              && forall j :: |bank| <= j < |r| ==> exists i :: 0 <= i < s.count && r[j] == HomingFeeder(i, homingPart)
  {
    if !s.useSlottedFeeders then bank
    else if s.usePartIdForFeeder then PartFeeders(bank, parts)
    else HomingFeeders(bank, s.count, homingPart)
  }

  /** The whole script: configure the controller, create the feeders, then
      fill the default bank when slotted feeders are used. */
  function Run(s: Settings, m: Machine, bank: seq<BankFeeder>, parts: seq<PartInfo>, homingPart: Option<string>): (r: (Machine, seq<BankFeeder>))
    ensures r.0.actuators == ConfigureGcode(m, if s.useAvrController then AvrGcode else Esp32Gcode).actuators
    ensures r.0.drivers == ConfigureGcode(m, if s.useAvrController then AvrGcode else Esp32Gcode).drivers
    ensures r.0.feeders == ScriptFeeders(s, m.feeders)
    ensures r.1 == ScriptBank(s, bank, parts, homingPart)
  {
    var configured := ConfigureGcode(m, if s.useAvrController then AvrGcode else Esp32Gcode);
    (configured.(feeders := ScriptFeeders(s, configured.feeders)), ScriptBank(s, bank, parts, homingPart))
  }

  /** With the AVR controller the `FeederController` driver ends up with
      both advance commands, the post-pick command, the two reply patterns
      and the enable and disable commands. */
  lemma AvrDriverCommands(s: Settings, m: Machine, bank: seq<BankFeeder>, parts: seq<PartInfo>, homingPart: Option<string>)
    requires s.useAvrController
    ensures var drivers := Run(s, m, bank, parts, homingPart).0.drivers;
            var d := FindDriver(drivers, "FeederController");
            && d.Some?
            && var c := drivers[d.value].commands;
            && c[ActuateKey("FeederAdvance2MM")] == "M600 N{IntegerValue} F2"
            && c[ActuateKey("FeederAdvance4MM")] == "M600 N{IntegerValue} F4"
            && c[ActuateKey("FeederPostPick")] == "M601 N{IntegerValue}"
            && c[CommandKey(None, CommandConfirmRegex)] == "^ok.*"
            && c[CommandKey(None, CommandErrorRegex)] == "^error.*"
            && c[CommandKey(None, EnableCommand)] == "M610 S1"
            && c[CommandKey(None, DisableCommand)] == "M610 S0"
  {
  }

  /** With the ESP32 controller the script sets no enable or disable
      command: whatever the driver had for them stays. */
  lemma Esp32KeepsEnableAndDisable(m: Machine)
    ensures var drivers := ConfigureGcode(m, Esp32Gcode).drivers;
            var before := FindOrCreateDriver(m.drivers, "Esp32FeederController");
            var c := drivers[before.1].commands;
            var prior := before.0[before.1].commands;
            forall k :: k in {CommandKey(None, EnableCommand), CommandKey(None, DisableCommand)} ==>
              (k in c <==> k in prior) && (k in prior ==> c[k] == prior[k])
  {
    var g := Esp32Gcode;
    assert DriverWideKeys(g) == {CommandKey(None, CommandConfirmRegex), CommandKey(None, CommandErrorRegex)};
    assert forall k :: k in ActuateKeys(g) ==> k.actuator.Some?;
  }

  /** With the settings as shipped, on a machine with no `SLOT-` feeder
      yet: the 28 slots are added, 15 mm apart from (0, 10), advanced by the
      4 mm actuator, and every part without a feeder gets one in the bank. */
  lemma DefaultRunOnFreshMachine(m: Machine, bank: seq<BankFeeder>, parts: seq<PartInfo>, homingPart: Option<string>)
    requires forall j :: 0 <= j < |m.feeders| ==> !StartsWith(m.feeders[j].name, "SLOT-")
    ensures var r := Run(Defaults, m, bank, parts, homingPart);
            && r.0.feeders == m.feeders + NewSlots(28, Layout(0.0, 10.0, 15.0, 0.0), "FeederAdvance4MM", "FeederPostPick")
            && r.1 == PartFeeders(bank, parts)
  {
    SlottedFeedersOnFreshMachine(m.feeders, 28, Layout(0.0, 10.0, 15.0, 0.0), "FeederAdvance4MM", "FeederPostPick");
  }
}
