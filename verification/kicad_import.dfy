/** The KiCad → OpenPnP converter in `kicad_tools/`: which footprints it
    keeps, the package and part id it derives for each, the part table, the
    placement list and the per-package pad tables, the board attributes it
    writes and the parts summary. */
module KicadImport {
  import opened Wrappers
  import opened Text
  import opened Seqs
  import opened Pcb
  import opened OrderedDict
  import opened OpenPnp
  import opened PartsJson
  import opened PyArith

  /** The command-line switches that shape the derivation. */
  datatype Options = Options(
    ignoreTop: bool,
    ignoreBottom: bool,
    useValueForPartId: bool,
    useMixedCase: bool,
    rotation: int,
    includeTestpoints: bool,
    discardDuplicatePads: bool)

  // ---------------------------------------------------------------------
  // Which footprints are processed
  // ---------------------------------------------------------------------

  predicate HasSmdPad(fp: Footprint) {
    exists i | 0 <= i < |fp.pads| :: fp.pads[i].smd
  }

  /** What the loop does with a footprint, in the order of its checks. */
  datatype Verdict = Process | NoSmdPad | Ignored | Testpoint | LayerExcluded | NotPopulated

  /** The chain of `continue`s at the top of the footprint loop. A footprint
      is processed exactly when it has an SMD pad, is not on the ignore list,
      is not an excluded test point, is not on an excluded layer and is not
      marked "do not populate". */
  function Screen(fp: Footprint, opts: Options, tables: Tables): (v: Verdict)
    ensures v == Process <==>
              && HasSmdPad(fp)
              && Upper(fp.libItemName) !in tables.ignored
              && (opts.includeTestpoints || !Contains(Upper(fp.libItemName), "TESTPOINT"))
              && !(opts.ignoreTop && fp.layer == FrontCopper)
              && !(opts.ignoreBottom && fp.layer == BackCopper)
              && !fp.dnp
  {
    if !HasSmdPad(fp) then NoSmdPad
    else if Upper(fp.libItemName) in tables.ignored then Ignored
    else if Contains(Upper(fp.libItemName), "TESTPOINT") && !opts.includeTestpoints then Testpoint
    else if opts.ignoreTop && fp.layer == FrontCopper then LayerExcluded
    else if opts.ignoreBottom && fp.layer == BackCopper then LayerExcluded
    else if fp.dnp then NotPopulated
    else Process
  }

  predicate Selected(fp: Footprint, opts: Options, tables: Tables) {
    Screen(fp, opts, tables) == Process
  }

  // ---------------------------------------------------------------------
  // Package name and part id
  // ---------------------------------------------------------------------

  /** The footprint name looked up, upper-cased, in the alias table. */
  function MappedName(fp: Footprint, tables: Tables): (n: string)
    ensures Upper(fp.libItemName) in tables.aliases ==> n == tables.aliases[Upper(fp.libItemName)]
    ensures Upper(fp.libItemName) !in tables.aliases ==> n == fp.libItemName
  {
    if Upper(fp.libItemName) in tables.aliases then tables.aliases[Upper(fp.libItemName)] else fp.libItemName
  }

  function PackageOf(fp: Footprint, opts: Options, tables: Tables): string {
    Cased(MappedName(fp, tables), opts.useMixedCase)
  }

  /** The part id decision ladder. */
  function PartIdOf(fp: Footprint, opts: Options, tables: Tables): (pid: string)
    ensures fp.value == "~" ==> pid == PackageOf(fp, opts, tables)
    ensures fp.value != "~" && opts.useValueForPartId ==> pid == Cased(fp.value, opts.useMixedCase)
    ensures fp.value != "~" && !opts.useValueForPartId && Upper(fp.libItemName) in tables.packageAsPartId ==>
              pid == PackageOf(fp, opts, tables)
    ensures fp.value != "~" && !opts.useValueForPartId && Upper(fp.libItemName) !in tables.packageAsPartId ==>
              pid == (if Contains(fp.value, "Fiducial") then PackageOf(fp, opts, tables)
                      else Cased(MappedName(fp, tables) + "_" + fp.value, opts.useMixedCase))
    ensures !opts.useMixedCase ==> forall i :: 0 <= i < |pid| ==> !IsLower(pid[i])
  {
    var package := MappedName(fp, tables);
    var byDefault := if Contains(fp.value, "Fiducial") then package else package + "_" + fp.value;
    var chosen :=
      if fp.value == "~" then package
      else if opts.useValueForPartId then fp.value
      else if Upper(fp.libItemName) in tables.packageAsPartId then package
      else byDefault;
    Cased(chosen, opts.useMixedCase)
  }

  /** The placement list entry; its rotation is the footprint's orientation
      plus the board rotation option. */
  function PlacementOf(fp: Footprint, opts: Options, tables: Tables): (p: Placement)
    ensures p.id == fp.reference && p.partId == PartIdOf(fp, opts, tables)
    ensures p.side == SideOf(fp.layer) && p.kind == KindOf(fp.value)
    ensures p.x == fp.x && p.y == fp.y
    ensures p.rotation == fp.orientation + opts.rotation as real
  {
    Placement(fp.reference, SideOf(fp.layer), PartIdOf(fp, opts, tables), KindOf(fp.value),
      fp.x, fp.y, fp.orientation + opts.rotation as real)
  }

  // ---------------------------------------------------------------------
  // Pad tables
  // ---------------------------------------------------------------------

  /** One pad of the first footprint of a package. A pad whose name is
      already taken is renamed `name_N`, N being the number of pads recorded
      so far, unless duplicates are discarded (then it overwrites). Only
      copper pads are recorded. */
  function AddPad(m: ODict<PadRecord>, package: string, pad: Pad, discard: bool): (r: ODict<PadRecord>)
    requires Valid(m)
    ensures Valid(r)
    ensures !pad.onCopper ==> r == m
    ensures pad.onCopper && (PadNameFor(package, pad) !in m.vals || discard) ==>
              r == Put(m, PadNameFor(package, pad), RecordOf(pad))
    ensures pad.onCopper && PadNameFor(package, pad) in m.vals && !discard ==>
              r == Put(m, PadNameFor(package, pad) + "_" + NatToString(Len(m)), RecordOf(pad))
  {
    var name := PadNameFor(package, pad);
    var name' := if name in m.vals && !discard then name + "_" + NatToString(Len(m)) else name;
    if pad.onCopper then Put(m, name', RecordOf(pad)) else m
  }

  /** The pad table built from a footprint's pads, in pad order. */
  function PadTable(package: string, pads: seq<Pad>, discard: bool): (r: ODict<PadRecord>)
    ensures Valid(r)
  {
    if pads == [] then Empty()
    else AddPad(PadTable(package, pads[..|pads| - 1], discard), package, pads[|pads| - 1], discard)
  }

  /** The number of copper pads. */
  function CopperCount(pads: seq<Pad>): nat {
    if pads == [] then 0
    else CopperCount(pads[..|pads| - 1]) + (if pads[|pads| - 1].onCopper then 1 else 0)
  }

  /** The geometries of the copper pads. */
  function CopperRecords(pads: seq<Pad>): set<PadRecord> {
    if pads == [] then {}
    else
      var last := pads[|pads| - 1];
      CopperRecords(pads[..|pads| - 1]) + (if last.onCopper then {RecordOf(last)} else {})
  }

  /** The names of the copper pads, as recorded when none is renamed. */
  function CopperNames(package: string, pads: seq<Pad>): set<string> {
    if pads == [] then {}
    else
      var last := pads[|pads| - 1];
      CopperNames(package, pads[..|pads| - 1]) + (if last.onCopper then {PadNameFor(package, last)} else {})
  }

  /** Only copper pads are recorded, so there are at most as many entries as
      copper pads, and each entry is the geometry of one of them. */
  lemma {:induction false} PadTableFromCopperPads(package: string, pads: seq<Pad>, discard: bool)
    ensures var r := PadTable(package, pads, discard);
            && Len(r) <= CopperCount(pads)
            && forall k :: k in r.vals ==> r.vals[k] in CopperRecords(pads)
  {
    if pads != [] {
      PadTableFromCopperPads(package, pads[..|pads| - 1], discard);
    }
  }

  lemma {:induction false} NotACopperName(package: string, pads: seq<Pad>, name: string)
    requires forall i :: 0 <= i < |pads| && pads[i].onCopper ==> PadNameFor(package, pads[i]) != name
    ensures name !in CopperNames(package, pads)
  {
    if pads != [] {
      var init := pads[..|pads| - 1];
      forall i | 0 <= i < |init| && init[i].onCopper
        ensures PadNameFor(package, init[i]) != name
      {
        assert init[i] == pads[i];
      }
      NotACopperName(package, init, name);
    }
  }

  /** Pad names that are distinct (after a nameless fiducial pad becomes
      `1`) are never renamed: the table holds exactly the copper pads' names,
      each with its own pad's geometry. */
  lemma {:induction false} PadTableDistinctNames(package: string, pads: seq<Pad>, discard: bool)
    requires forall i, j :: 0 <= i < j < |pads| ==> PadNameFor(package, pads[i]) != PadNameFor(package, pads[j])
    ensures var r := PadTable(package, pads, discard);
            && r.vals.Keys == CopperNames(package, pads)
            && forall i :: 0 <= i < |pads| && pads[i].onCopper ==>
                 PadNameFor(package, pads[i]) in r.vals && r.vals[PadNameFor(package, pads[i])] == RecordOf(pads[i])
  {
    if pads != [] {
      var init := pads[..|pads| - 1];
      var last := pads[|pads| - 1];
      var name := PadNameFor(package, last);
      PadTableDistinctNames(package, init, discard);
      var before := PadTable(package, init, discard);
      var r := PadTable(package, pads, discard);
      if last.onCopper {
        forall i | 0 <= i < |init| && init[i].onCopper
          ensures PadNameFor(package, init[i]) != name
        {
          assert init[i] == pads[i];
        }
        NotACopperName(package, init, name);
        assert r == Put(before, name, RecordOf(last));
      }
      forall i | 0 <= i < |pads| && pads[i].onCopper
        ensures PadNameFor(package, pads[i]) in r.vals && r.vals[PadNameFor(package, pads[i])] == RecordOf(pads[i])
      {
        if i < |init| {
          assert pads[i] == init[i];
        }
      }
    }
  }

  /** When duplicates are discarded a later copper pad replaces an earlier
      one of the same name: each name holds its last copper pad. */
  lemma {:induction false} PadTableDiscardKeepsLast(package: string, pads: seq<Pad>, i: nat)
    requires i < |pads| && pads[i].onCopper
    requires forall j :: i < j < |pads| && pads[j].onCopper ==>
               PadNameFor(package, pads[j]) != PadNameFor(package, pads[i])
    ensures var r := PadTable(package, pads, true);
            PadNameFor(package, pads[i]) in r.vals && r.vals[PadNameFor(package, pads[i])] == RecordOf(pads[i])
  {
    if i < |pads| - 1 {
      var init := pads[..|pads| - 1];
      assert init[i] == pads[i];
      PadTableDiscardKeepsLast(package, init, i);
    }
  }

  /** Renaming uses the current pad count and can land on a name that is
      already taken: pads `1`, `1_2`, `1` leave two entries, the renamed
      third pad replacing the second. */
  lemma RenamedPadCanOverwrite(package: string, size: real)
    ensures var p1 := Pad("1", true, true, Rect, 0.0, 0.0, size, size);
            var p2 := Pad("1_2", true, true, Rect, 1.0, 0.0, size, size);
            var p3 := Pad("1", true, true, Rect, 2.0, 0.0, size, size);
            var r := PadTable(package, [p1, p2, p3], false);
            "1_2" in r.vals && Len(r) == 2 && r.vals["1_2"] == RecordOf(p3)
  {
    var p1 := Pad("1", true, true, Rect, 0.0, 0.0, size, size);
    var p2 := Pad("1_2", true, true, Rect, 1.0, 0.0, size, size);
    var p3 := Pad("1", true, true, Rect, 2.0, 0.0, size, size);
    TwoPads(package, p1, p2);
    ThirdPadRenamed(package, p1, p2, p3);
  }

  lemma ThirdPadRenamed(package: string, p1: Pad, p2: Pad, p3: Pad)
    requires p1.name == "1" && p2.name == "1_2" && p3.name == "1"
    requires p1.onCopper && p2.onCopper && p3.onCopper
    ensures PadTable(package, [p1, p2, p3], false) == Put(PadTable(package, [p1, p2], false), "1_2", RecordOf(p3))
  {
    TwoPads(package, p1, p2);
    var m2 := PadTable(package, [p1, p2], false);
    assert [p1, p2, p3][..2] == [p1, p2];
    assert Len(m2) == 2 && NatToString(2) == "2";
    assert "1" + "_" + "2" == "1_2";
  }

  lemma TwoPads(package: string, p1: Pad, p2: Pad)
    requires p1.name == "1" && p2.name == "1_2" && p1.onCopper && p2.onCopper
    ensures PadTable(package, [p1, p2], false) == ODict(["1", "1_2"], map["1" := RecordOf(p1), "1_2" := RecordOf(p2)])
  {
    assert [p1, p2][..1] == [p1];
    assert [p1][..0] == [];
    assert PadTable(package, [p1], false) == ODict(["1"], map["1" := RecordOf(p1)]);
  }

  // ---------------------------------------------------------------------
  // The footprint loop
  // ---------------------------------------------------------------------

  /** A part table entry: its package, its count and its sorted references. */
  datatype PartEntry = PartEntry(package: string, count: nat, refs: seq<string>)

  /** What `identity_used_packages_and_parts` returns. */
  datatype Inventory = Inventory(
    packages: ODict<ODict<PadRecord>>,
    parts: ODict<PartEntry>,
    placements: seq<Placement>)

  ghost predicate PartsWellFormed(parts: ODict<PartEntry>) {
    && Valid(parts)
    && (forall pid :: pid in parts.vals ==> Sorted(parts.vals[pid].refs))
  }

  ghost predicate PackagesWellFormed(packages: ODict<ODict<PadRecord>>) {
    && Valid(packages)
    && (forall p :: p in packages.vals ==> Valid(packages.vals[p]))
  }

  ghost predicate WellFormed(inv: Inventory) {
    PackagesWellFormed(inv.packages) && PartsWellFormed(inv.parts)
  }

  const NoInventory: Inventory := Inventory(Empty(), Empty(), [])

  /** One more footprint of part `pid`: the first one creates the entry with
      its package; later ones raise the count and add the reference, keeping
      the references sorted. */
  function Tally(parts: ODict<PartEntry>, pid: string, package: string, ref: string): (r: ODict<PartEntry>)
    requires PartsWellFormed(parts)
    ensures PartsWellFormed(r)
    ensures r.vals.Keys == parts.vals.Keys + {pid}
    ensures forall q :: q in parts.vals && q != pid ==> r.vals[q] == parts.vals[q]
    ensures pid in parts.vals ==>
              && r.vals[pid].package == parts.vals[pid].package
              && r.vals[pid].count == parts.vals[pid].count + 1
              && multiset(r.vals[pid].refs) == multiset(parts.vals[pid].refs) + multiset{ref}
    ensures pid !in parts.vals ==> r.vals[pid] == PartEntry(package, 1, [ref])
    ensures pid in parts.vals ==> r.keys == parts.keys
    ensures pid !in parts.vals ==> r.keys == parts.keys + [pid]
  {
    var entry :=
      if pid in parts.vals then
        var e := parts.vals[pid];
        PartEntry(e.package, e.count + 1, InsertSorted(e.refs, ref))
      else PartEntry(package, 1, [ref]);
    Put(parts, pid, entry)
  }

  /** A package seen for the first time is recorded with the pad table of
      the footprint it was seen on; a known package is left as it is. */
  function Adopt(packages: ODict<ODict<PadRecord>>, package: string, pads: seq<Pad>, discard: bool): (r: ODict<ODict<PadRecord>>)
    requires PackagesWellFormed(packages)
    ensures PackagesWellFormed(r)
    ensures r.vals.Keys == packages.vals.Keys + {package}
    ensures package in packages.vals ==> r == packages
    ensures package !in packages.vals ==> r.vals == packages.vals[package := PadTable(package, pads, discard)]
    ensures package !in packages.vals ==> r.keys == packages.keys + [package]
  {
    if package in packages.vals then packages else Put(packages, package, PadTable(package, pads, discard))
  }

  /** What the loop takes from a processed footprint: its package, its pads
      and its placement. */
  datatype Sighting = Sighting(package: string, pads: seq<Pad>, placement: Placement)

  function Sight(fp: Footprint, opts: Options, tables: Tables): Sighting {
    Sighting(PackageOf(fp, opts, tables), fp.pads, PlacementOf(fp, opts, tables))
  }

  /** The footprints that pass the checks, in board order. */
  function Selection(fps: seq<Footprint>, opts: Options, tables: Tables): seq<Footprint> {
    if fps == [] then []
    else
      var last := fps[|fps| - 1];
      Selection(fps[..|fps| - 1], opts, tables) + (if Selected(last, opts, tables) then [last] else [])
  }

  function Sightings(fps: seq<Footprint>, opts: Options, tables: Tables): seq<Sighting> {
    var sel := Selection(fps, opts, tables);
    seq(|sel|, i requires 0 <= i < |sel| => Sight(sel[i], opts, tables))
  }

  /** The package table after the given sightings. */
  function PackagesOf(ss: seq<Sighting>, discard: bool): (r: ODict<ODict<PadRecord>>)
    ensures PackagesWellFormed(r)
  {
    if ss == [] then Empty()
    else
      var s := ss[|ss| - 1];
      Adopt(PackagesOf(ss[..|ss| - 1], discard), s.package, s.pads, discard)
  }

  /** The part table after the given sightings. */
  function PartsOf(ss: seq<Sighting>): (r: ODict<PartEntry>)
    ensures PartsWellFormed(r)
  {
    if ss == [] then Empty()
    else
      var s := ss[|ss| - 1];
      Tally(PartsOf(ss[..|ss| - 1]), s.placement.partId, s.package, s.placement.id)
  }

  function PlacementsOf(ss: seq<Sighting>): seq<Placement> {
    seq(|ss|, i requires 0 <= i < |ss| => ss[i].placement)
  }

  /** `identity_used_packages_and_parts`: each footprint that passes the
      checks updates the package table, the part table and the placement
      list, each from its own previous state. */
  function Identify(fps: seq<Footprint>, opts: Options, tables: Tables): (inv: Inventory)
    ensures WellFormed(inv)
    ensures |inv.placements| == |Selection(fps, opts, tables)|
    ensures forall i :: 0 <= i < |inv.placements| ==>
              inv.placements[i] == PlacementOf(Selection(fps, opts, tables)[i], opts, tables)
    ensures inv.parts.keys == Missing({}, SelectedPartIds(fps, opts, tables))
    ensures inv.packages.keys == Missing({}, SelectedPackages(fps, opts, tables))
    ensures PartTableAgrees(inv.parts, inv.placements)
  {
    var ss := Sightings(fps, opts, tables);
    PartsAgree(ss);
    PartOrder(ss);
    PackageOrder(ss, opts.discardDuplicatePads);
    SightingNames(fps, opts, tables);
    Inventory(PackagesOf(ss, opts.discardDuplicatePads), PartsOf(ss), PlacementsOf(ss))
  }

  /** The part ids of the processed footprints, in board order. */
  function SelectedPartIds(fps: seq<Footprint>, opts: Options, tables: Tables): seq<string> {
    var sel := Selection(fps, opts, tables);
    seq(|sel|, i requires 0 <= i < |sel| => PartIdOf(sel[i], opts, tables))
  }

  /** The packages of the processed footprints, in board order. */
  function SelectedPackages(fps: seq<Footprint>, opts: Options, tables: Tables): seq<string> {
    var sel := Selection(fps, opts, tables);
    seq(|sel|, i requires 0 <= i < |sel| => PackageOf(sel[i], opts, tables))
  }

  /** The references of the placements carrying `pid`, in list order. */
  function RefsWithPart(placements: seq<Placement>, pid: string): seq<string> {
    if placements == [] then []
    else
      var last := placements[|placements| - 1];
      RefsWithPart(placements[..|placements| - 1], pid) + (if last.partId == pid then [last.id] else [])
  }

  function PartIdsOf(placements: seq<Placement>): set<string> {
    set p | p in placements :: p.partId
  }

  /** The part table agrees with the placement list: its keys are the
      placed part ids, and each entry's count is the number of its
      references, which are sorted and are exactly the references placed
      with that part id. */
  ghost predicate PartTableAgrees(parts: ODict<PartEntry>, placements: seq<Placement>) {
    && parts.vals.Keys == PartIdsOf(placements)
    && forall pid :: pid in parts.vals ==> EntryAgrees(parts.vals[pid], placements, pid)
  }

  /** A part's entry counts and lists, sorted, the references placed with
      its part id. */
  ghost predicate EntryAgrees(e: PartEntry, placements: seq<Placement>, pid: string) {
    && e.count == |e.refs|
    && e.count == |RefsWithPart(placements, pid)|
    && Sorted(e.refs)
    && multiset(e.refs) == multiset(RefsWithPart(placements, pid))
  }

  lemma {:induction false} RefsWithoutPart(placements: seq<Placement>, pid: string)
    requires pid !in PartIdsOf(placements)
    ensures RefsWithPart(placements, pid) == []
  {
    if placements != [] {
      var init := placements[..|placements| - 1];
      assert PartIdsOf(init) <= PartIdsOf(placements);
      RefsWithoutPart(init, pid);
    }
  }

  /** Tallying a placement keeps the part table in agreement. */
  lemma TallyAgrees(parts: ODict<PartEntry>, placements: seq<Placement>, p: Placement, package: string)
    requires PartsWellFormed(parts) && PartTableAgrees(parts, placements)
    ensures PartTableAgrees(Tally(parts, p.partId, package, p.id), placements + [p])
  {
    var ps := placements + [p];
    var r := Tally(parts, p.partId, package, p.id);
    assert ps[..|ps| - 1] == placements;
    assert PartIdsOf(ps) == PartIdsOf(placements) + {p.partId};
    forall pid | pid in r.vals
      ensures EntryAgrees(r.vals[pid], ps, pid)
    {
      TallyAgreesAt(parts, placements, p, package, pid);
    }
  }

  lemma TallyAgreesAt(parts: ODict<PartEntry>, placements: seq<Placement>, p: Placement, package: string, pid: string)
    requires PartsWellFormed(parts) && PartTableAgrees(parts, placements)
    requires pid in Tally(parts, p.partId, package, p.id).vals
    ensures EntryAgrees(Tally(parts, p.partId, package, p.id).vals[pid], placements + [p], pid)
  {
    var ps := placements + [p];
    assert ps[..|ps| - 1] == placements;
    assert RefsWithPart(ps, pid) == RefsWithPart(placements, pid) + (if p.partId == pid then [p.id] else []);
    if pid == p.partId && pid !in parts.vals {
      RefsWithoutPart(placements, pid);
    }
  }

  lemma {:induction false} PartsAgree(ss: seq<Sighting>)
    ensures PartTableAgrees(PartsOf(ss), PlacementsOf(ss))
  {
    if ss != [] {
      var init := ss[..|ss| - 1];
      var s := ss[|ss| - 1];
      PartsAgree(init);
      PlacementsSnoc(ss);
      assert PartsOf(ss) == Tally(PartsOf(init), s.placement.partId, s.package, s.placement.id);
      TallyAgrees(PartsOf(init), PlacementsOf(init), s.placement, s.package);
    }
  }

  lemma PlacementsSnoc(ss: seq<Sighting>)
    requires ss != []
    ensures PlacementsOf(ss) == PlacementsOf(ss[..|ss| - 1]) + [ss[|ss| - 1].placement]
  {
    var init := ss[..|ss| - 1];
    forall i | 0 <= i < |init|
      ensures PlacementsOf(ss)[i] == PlacementsOf(init)[i]
    {
      assert ss[i] == init[i];
    }
  }

  lemma NotPlaced(ss: seq<Sighting>, pid: string)
    requires forall j :: 0 <= j < |ss| ==> ss[j].placement.partId != pid
    ensures pid !in PartIdsOf(PlacementsOf(ss))
  {
    forall p | p in PlacementsOf(ss)
      ensures p.partId != pid
    {
      var j :| 0 <= j < |ss| && PlacementsOf(ss)[j] == p;
    }
  }

  function PartIdSeq(ss: seq<Sighting>): seq<string> {
    seq(|ss|, i requires 0 <= i < |ss| => ss[i].placement.partId)
  }

  function PackageSeq(ss: seq<Sighting>): seq<string> {
    seq(|ss|, i requires 0 <= i < |ss| => ss[i].package)
  }

  lemma PartIdSeqSnoc(ss: seq<Sighting>)
    requires ss != []
    ensures PartIdSeq(ss) == PartIdSeq(ss[..|ss| - 1]) + [ss[|ss| - 1].placement.partId]
  {
    var init := ss[..|ss| - 1];
    forall i | 0 <= i < |init|
      ensures PartIdSeq(ss)[i] == PartIdSeq(init)[i]
    {
      assert ss[i] == init[i];
    }
  }

  lemma PackageSeqSnoc(ss: seq<Sighting>)
    requires ss != []
    ensures PackageSeq(ss) == PackageSeq(ss[..|ss| - 1]) + [ss[|ss| - 1].package]
  {
    var init := ss[..|ss| - 1];
    forall i | 0 <= i < |init|
      ensures PackageSeq(ss)[i] == PackageSeq(init)[i]
    {
      assert ss[i] == init[i];
    }
  }

  /** Parts are listed in the order of their first sighting. */
  lemma {:induction false} PartOrder(ss: seq<Sighting>)
    ensures PartsOf(ss).keys == Missing({}, PartIdSeq(ss))
  {
    if ss != [] {
      var init := ss[..|ss| - 1];
      var s := ss[|ss| - 1];
      PartOrder(init);
      var before := PartsOf(init);
      assert s.placement.partId in before.vals <==> s.placement.partId in before.keys;
      PartIdSeqSnoc(ss);
      MissingSnoc({}, PartIdSeq(init), s.placement.partId);
      assert PartsOf(ss) == Tally(PartsOf(init), s.placement.partId, s.package, s.placement.id);
    }
  }

  /** Packages are listed in the order of their first sighting. */
  lemma {:induction false} PackageOrder(ss: seq<Sighting>, discard: bool)
    ensures PackagesOf(ss, discard).keys == Missing({}, PackageSeq(ss))
  {
    if ss != [] {
      var init := ss[..|ss| - 1];
      var s := ss[|ss| - 1];
      PackageOrder(init, discard);
      var before := PackagesOf(init, discard);
      assert s.package in before.vals <==> s.package in before.keys;
      PackageSeqSnoc(ss);
      MissingSnoc({}, PackageSeq(init), s.package);
      assert PackagesOf(ss, discard) == Adopt(before, s.package, s.pads, discard);
    }
  }

  lemma SightingNames(fps: seq<Footprint>, opts: Options, tables: Tables)
    ensures var ss := Sightings(fps, opts, tables);
            && PartIdSeq(ss) == SelectedPartIds(fps, opts, tables)
            && PackageSeq(ss) == SelectedPackages(fps, opts, tables)
            && |PlacementsOf(ss)| == |Selection(fps, opts, tables)|
            && forall i :: 0 <= i < |ss| ==> PlacementsOf(ss)[i] == PlacementOf(Selection(fps, opts, tables)[i], opts, tables)
  {
  }

  /** The first sighting of a part decides the part's package. */
  lemma {:induction false} PartPackageFromFirstSighting(ss: seq<Sighting>, i: nat)
    requires i < |ss|
    requires forall j :: 0 <= j < i ==> ss[j].placement.partId != ss[i].placement.partId
    ensures var parts := PartsOf(ss).vals;
            ss[i].placement.partId in parts && parts[ss[i].placement.partId].package == ss[i].package
  {
    var init := ss[..|ss| - 1];
    if i < |ss| - 1 {
      PartPackageFromFirstSighting(init, i);
    } else {
      PartsAgree(init);
      forall j | 0 <= j < |init|
        ensures init[j].placement.partId != ss[i].placement.partId
      {
        assert init[j] == ss[j];
      }
      NotPlaced(init, ss[i].placement.partId);
    }
  }

  /** The first sighting of a package defines its pads. */
  lemma {:induction false} PackagePadsFromFirstSighting(ss: seq<Sighting>, discard: bool, i: nat)
    requires i < |ss|
    requires forall j :: 0 <= j < i ==> ss[j].package != ss[i].package
    ensures var packages := PackagesOf(ss, discard).vals;
            ss[i].package in packages && packages[ss[i].package] == PadTable(ss[i].package, ss[i].pads, discard)
  {
    var init := ss[..|ss| - 1];
    var before := PackagesOf(init, discard);
    var last := ss[|ss| - 1];
    if i < |ss| - 1 {
      PackagePadsFromFirstSighting(init, discard, i);
      assert init[i] == ss[i];
      AdoptKeeps(before, last.package, last.pads, discard, ss[i].package);
    } else {
      PackageOrder(init, discard);
      forall j | 0 <= j < |init|
        ensures PackageSeq(init)[j] != ss[i].package
      {
        assert init[j] == ss[j];
      }
      assert ss[i].package !in before.keys;
    }
  }

  /** Adopting a package leaves the packages already there alone. */
  lemma AdoptKeeps(packages: ODict<ODict<PadRecord>>, package: string, pads: seq<Pad>, discard: bool, q: string)
    requires PackagesWellFormed(packages) && q in packages.vals
    ensures var r := Adopt(packages, package, pads, discard);
            q in r.vals && r.vals[q] == packages.vals[q]
  {
  }

  /** On a board: the first processed footprint of a part decides the part's
      package. */
  lemma PartPackageFromFirst(fps: seq<Footprint>, opts: Options, tables: Tables, i: nat)
    requires i < |Selection(fps, opts, tables)|
    requires var sel := Selection(fps, opts, tables);
             forall j :: 0 <= j < i ==> PartIdOf(sel[j], opts, tables) != PartIdOf(sel[i], opts, tables)
    ensures var sel := Selection(fps, opts, tables);
            var parts := Identify(fps, opts, tables).parts.vals;
            var pid := PartIdOf(sel[i], opts, tables);
            pid in parts && parts[pid].package == PackageOf(sel[i], opts, tables)
  {
    PartPackageFromFirstSighting(Sightings(fps, opts, tables), i);
  }

  /** On a board: the first processed footprint of a package defines its
      pads; later footprints of the package do not change them. */
  lemma PackagePadsFromFirst(fps: seq<Footprint>, opts: Options, tables: Tables, i: nat)
    requires i < |Selection(fps, opts, tables)|
    requires var sel := Selection(fps, opts, tables);
             forall j :: 0 <= j < i ==> PackageOf(sel[j], opts, tables) != PackageOf(sel[i], opts, tables)
    ensures var sel := Selection(fps, opts, tables);
            var packages := Identify(fps, opts, tables).packages.vals;
            var package := PackageOf(sel[i], opts, tables);
            package in packages && packages[package] == PadTable(package, sel[i].pads, opts.discardDuplicatePads)
  {
    PackagePadsFromFirstSighting(Sightings(fps, opts, tables), opts.discardDuplicatePads, i);
  }

  // ---------------------------------------------------------------------
  // Writing parts.xml, packages.xml and board.xml
  // ---------------------------------------------------------------------

  /** The compatible nozzle tips given with `--nozzle`; none when the switch
      was not used. */
  function NozzleList(nozzles: Option<seq<string>>): (r: seq<string>)
    ensures nozzles.Some? ==> r == nozzles.value
    ensures nozzles.None? ==> r == []
  {
    match nozzles
    case None => []
    case Some(ns) => ns
  }

  /** `update_parts_xml` applied to the part table: heights come from the
      height table keyed by package. */
  function SyncParts(doc: seq<PartElem>, inv: Inventory, tables: Tables, readOnly: bool): (u: Update<PartElem>)
    requires WellFormed(inv)
    ensures u.added == Missing(PartIds(doc), inv.parts.keys)
    ensures |u.doc| == |doc| + |u.added| && u.doc[..|doc|] == doc
    ensures forall k :: 0 <= k < |u.added| ==>
              var pid := u.added[k];
              var package := inv.parts.vals[pid].package;
              u.doc[|doc| + k] == PartElem(pid, pid, HeightOf(tables.heights, package), package)
    ensures u.written <==> !readOnly && |u.added| > 0
  {
    var packageOf := map pid | pid in inv.parts.vals :: inv.parts.vals[pid].package;
    UpdateParts(doc, inv.parts.keys, packageOf, tables.heights, readOnly)
  }

  /** `update_packages_xml` applied to the package table. */
  function SyncPackages(doc: seq<PackageElem>, inv: Inventory, tables: Tables, nozzles: Option<seq<string>>, readOnly: bool): (u: Update<PackageElem>)
    requires WellFormed(inv)
    ensures u.added == Missing(PackageIds(doc), inv.packages.keys)
    ensures |u.doc| == |doc| + |u.added| && u.doc[..|doc|] == doc
    ensures forall k :: 0 <= k < |u.added| ==>
              u.doc[|doc| + k] == NewPackage(u.added[k], tables.sizes, NozzleList(nozzles), inv.packages.vals[u.added[k]])
    ensures u.written <==> !readOnly && |u.added| > 0
  {
    UpdatePackages(doc, inv.packages, tables.sizes, NozzleList(nozzles), readOnly)
  }

  /** The board `rotation` attribute: the rotation option as an integer, or
      `0.0` when it is 0. */
  function RotationAttr(rotation: int): (s: string)
    ensures s == "0.0" <==> rotation == 0
    ensures rotation != 0 ==> s == IntToString(rotation)
  {
    if rotation != 0 then
      var s := IntToString(rotation);
      assert s != "0.0" by {
        if |s| == 3 { assert s[1] != '.'; }
      }
      s
    else "0.0"
  }

  /** `create_board_xml`: `round` stands for `round(_, decimal_places)`;
      width and height are the rounded board edge sizes. */
  function Board(inv: Inventory, originX: real, originY: real, width: real, height: real, opts: Options, round: real -> real): (b: BoardElem)
    ensures b.rotation == RotationAttr(opts.rotation)
    ensures b.width == round(width) && b.height == round(height)
    ensures |b.placements| == |inv.placements|
    ensures forall i :: 0 <= i < |b.placements| ==>
              && b.placements[i] == Locate(inv.placements[i], originX, originY, round)
              && b.placements[i].id == inv.placements[i].id
              && b.placements[i].side == inv.placements[i].side
              && b.placements[i].partId == inv.placements[i].partId
              && b.placements[i].kind == inv.placements[i].kind
              && b.placements[i].location.rotation == inv.placements[i].rotation
              && b.placements[i].location.x >= 0.0
              && b.placements[i].location.y >= 0.0
  {
    BoardOf(inv.placements, originX, originY, round(width), round(height), RotationAttr(opts.rotation), round)
  }

  // ---------------------------------------------------------------------
  // The parts summary
  // ---------------------------------------------------------------------


  /** One printed summary line: the part id and count on the first line of
      a part only. */
  datatype SummaryRow = SummaryRow(part: string, quantity: Option<nat>, refs: seq<string>)

  const RefsPerRow: nat := 5

  /** The references of a part, as its lines print them: all on one line
      when there are at most five, otherwise in slices of five. */
  function RowChunks(refs: seq<string>): (cs: seq<seq<string>>)
    ensures |cs| >= 1
  {
    if |refs| <= RefsPerRow then [refs] else Chunks(refs, RefsPerRow)
  }

  /** The lines printed for one part: its id and count on the first. */
  function PartRows(pid: string, e: PartEntry): (rows: seq<SummaryRow>)
    ensures |rows| == |RowChunks(e.refs)|
  {
    var cs := RowChunks(e.refs);
    seq(|cs|, k requires 0 <= k < |cs| =>
      if k == 0 then SummaryRow(pid, Some(e.count), cs[0]) else SummaryRow("", None, cs[k]))
  }

  function RowRefs(rows: seq<SummaryRow>): seq<string> {
    if rows == [] then [] else rows[0].refs + RowRefs(rows[1..])
  }

  /** The slices laid end to end give the references back; every slice but
      the last holds five, none more, and none is empty unless there are no
      references at all. */
  lemma RowChunksCover(refs: seq<string>)
    ensures var cs := RowChunks(refs);
            && Flatten(cs) == refs
            && (forall k :: 0 <= k < |cs| ==> |cs[k]| <= RefsPerRow)
            && (|refs| > 0 ==> forall k :: 0 <= k < |cs| ==> |cs[k]| > 0)
            && (forall k :: 0 <= k < |cs| - 1 ==> |cs[k]| == RefsPerRow)
  {
    if |refs| <= RefsPerRow {
      FlattenCons(refs, []);
    } else {
      ChunksFlatten(refs, RefsPerRow);
    }
  }

  /** A part's lines list all its references in order, five per line but
      the last, and only the first line names the part and its count. */
  lemma PartRowsCoverRefs(pid: string, e: PartEntry)
    ensures var rows := PartRows(pid, e);
            && |rows| >= 1
            && rows[0].part == pid && rows[0].quantity == Some(e.count)
            && (forall k :: 1 <= k < |rows| ==> rows[k].part == "" && rows[k].quantity == None)
            && (|e.refs| > 0 ==> forall k :: 0 <= k < |rows| ==> 0 < |rows[k].refs| <= RefsPerRow)
            && (forall k :: 0 <= k < |rows| ==> |rows[k].refs| <= RefsPerRow)
            && (forall k :: 0 <= k < |rows| - 1 ==> |rows[k].refs| == RefsPerRow)
            && RowRefs(rows) == e.refs
  {
    var rows := PartRows(pid, e);
    var cs := RowChunks(e.refs);
    RowChunksCover(e.refs);
    assert forall k :: 0 <= k < |rows| ==> rows[k].refs == cs[k];
    RowRefsOfChunks(rows, cs);
  }

  lemma {:induction false} RowRefsOfChunks(rows: seq<SummaryRow>, cs: seq<seq<string>>)
    requires |rows| == |cs|
    requires forall k :: 0 <= k < |rows| ==> rows[k].refs == cs[k]
    ensures RowRefs(rows) == Flatten(cs)
  {
    if rows != [] {
      RowRefsOfChunks(rows[1..], cs[1..]);
    }
  }

  /** The whole summary: the parts named in sorted order, each with its
      count, at most five references per line; the lines are the parts'
      blocks one after the other, and the block of the `i`-th part in
      sorted order names that part on its first line only and carries
      exactly its references. */
  function Summary(parts: ODict<PartEntry>): (r: seq<SummaryRow>)
    requires Valid(parts)
    ensures Heads(r) == SortStrings(parts.keys)
    ensures forall row :: row in r ==> |row.refs| <= RefsPerRow
    ensures forall row :: row in r && row.quantity.Some? ==>
              row.part in parts.vals && row.quantity.value == parts.vals[row.part].count
    ensures var order := SortStrings(parts.keys);
            && SortedKeysKnown(order, parts)
            && r == ConcatRows(Blocks(order, parts))
            && BlocksCarryRefs(order, parts)
  {
    var order := SortStrings(parts.keys);
    assert forall k :: k in order ==> k in multiset(parts.keys);
    BlocksCoverRefs(order, parts);
    SummaryOf(order, parts)
  }

  /** Every part of `order` has an entry. */
  predicate SortedKeysKnown(order: seq<string>, parts: ODict<PartEntry>) {
    forall k :: k in order ==> k in parts.vals
  }

  /** The lines printed for each part of `order`, part by part. */
  function Blocks(order: seq<string>, parts: ODict<PartEntry>): seq<seq<SummaryRow>>
    requires SortedKeysKnown(order, parts)
  {
    seq(|order|, i requires 0 <= i < |order| => PartRows(order[i], parts.vals[order[i]]))
  }

  function ConcatRows(bs: seq<seq<SummaryRow>>): seq<SummaryRow> {
    if bs == [] then [] else bs[0] + ConcatRows(bs[1..])
  }

  /** Block `i` names part `order[i]` with its count on its first line,
      names nothing on the others, and carries exactly that part's
      references, in order. */
  ghost predicate BlocksCarryRefs(order: seq<string>, parts: ODict<PartEntry>)
    requires SortedKeysKnown(order, parts)
  {
    var bs: seq<seq<SummaryRow>> := Blocks(order, parts);
    forall i :: 0 <= i < |bs| ==>
      && |bs[i]| >= 1
      && bs[i][0].part == order[i]
      && bs[i][0].quantity == Some(parts.vals[order[i]].count)
      && (forall k :: 1 <= k < |bs[i]| ==> bs[i][k].quantity == None)
      && RowRefs(bs[i]) == parts.vals[order[i]].refs
  }

  lemma BlocksCoverRefs(order: seq<string>, parts: ODict<PartEntry>)
    requires SortedKeysKnown(order, parts)
    ensures BlocksCarryRefs(order, parts)
  {
    var bs: seq<seq<SummaryRow>> := Blocks(order, parts);
    forall i | 0 <= i < |bs|
      ensures && |bs[i]| >= 1
              && bs[i][0].part == order[i]
              && bs[i][0].quantity == Some(parts.vals[order[i]].count)
              && (forall k :: 1 <= k < |bs[i]| ==> bs[i][k].quantity == None)
              && RowRefs(bs[i]) == parts.vals[order[i]].refs
    {
      PartRowsCoverRefs(order[i], parts.vals[order[i]]);
    }
  }

  function SummaryOf(order: seq<string>, parts: ODict<PartEntry>): (r: seq<SummaryRow>)
    requires SortedKeysKnown(order, parts)
    ensures Heads(r) == order
    ensures forall row :: row in r ==> |row.refs| <= RefsPerRow
    ensures forall row :: row in r && row.quantity.Some? ==>
              row.part in parts.vals && row.quantity.value == parts.vals[row.part].count
    ensures r == ConcatRows(Blocks(order, parts))
  {
    if order == [] then []
    else
      var rows := PartRows(order[0], parts.vals[order[0]]);
      var rest := SummaryOf(order[1..], parts);
      PartRowsHeads(order[0], parts.vals[order[0]]);
      HeadsAppend(rows, rest);
      assert Blocks(order, parts)[1..] == Blocks(order[1..], parts);
      rows + rest
  }

  /** The parts a list of summary lines names, in order. */
  function Heads(rows: seq<SummaryRow>): seq<string> {
    if rows == [] then [] else (if rows[0].quantity.Some? then [rows[0].part] else []) + Heads(rows[1..])
  }

  lemma {:induction false} HeadsAppend(a: seq<SummaryRow>, b: seq<SummaryRow>)
    ensures Heads(a + b) == Heads(a) + Heads(b)
  {
    if a == [] {
      assert a + b == b;
    } else {
      assert (a + b)[1..] == a[1..] + b;
      HeadsAppend(a[1..], b);
    }
  }

  /** A part's lines name it once, first, with its count, and hold at most
      five references each. */
  lemma PartRowsHeads(pid: string, e: PartEntry)
    ensures var rows := PartRows(pid, e);
            && Heads(rows) == [pid]
            && (forall row :: row in rows ==> |row.refs| <= RefsPerRow)
            && (forall row :: row in rows && row.quantity.Some? ==> row.part == pid && row.quantity.value == e.count)
  {
    var rows := PartRows(pid, e);
    PartRowsCoverRefs(pid, e);
    UnnamedHeads(rows[1..]);
  }

  lemma {:induction false} UnnamedHeads(rows: seq<SummaryRow>)
    requires forall k :: 0 <= k < |rows| ==> rows[k].quantity == None
    ensures Heads(rows) == []
  {
    if rows != [] {
      UnnamedHeads(rows[1..]);
    }
  }
}
