/** The older converter at the repository root. It keeps its footprint
    mapping, part heights and body sizes in built-in tables, processes every
    footprint of SMD type, and lets later footprints overwrite what earlier
    ones recorded. */
module LegacyImport {
  import opened Wrappers
  import opened Text
  import opened Seqs
  import opened Pcb
  import opened OrderedDict
  import opened OpenPnp
  import KicadImport

  // ---------------------------------------------------------------------
  // Built-in tables
  // ---------------------------------------------------------------------

  /** KiCad footprint names and the OpenPnP package they become. */
  const FootprintToPackage: map<string, string> := map[
    "Fiducial_0.5mm_Mask1mm" := "FIDUCIAL_0.5X1",
    "Fiducial_0.5mm_Mask1.5mm" := "FIDUCIAL_0.5X1.5",
    "Fiducial_0.75mm_Mask1.5mm" := "FIDUCIAL_0.75X1.5",
    "Fiducial_0.75mm_Mask2.25mm" := "FIDUCIAL_0.75X2.25",
    "Fiducial_1mm_Mask2mm" := "FIDUCIAL_1X2",
    "Fiducial_1mm_Mask3mm" := "FIDUCIAL_1X3",
    "Fiducial_1mm_Mask4.5mm" := "FIDUCIAL_1X4.5",
    "Fiducial_1.5mm_Mask2mm" := "FIDUCIAL_1.5X2",
    "C_0402_1005Metric_Pad0.74x0.62mm_HandSolder" := "C_0402",
    "C_0603_1608Metric_Pad1.08x0.95mm_HandSolder" := "C_0603",
    "C_0805_2012Metric_Pad1.15x1.40mm_HandSolder" := "C_0805",
    "C_0805_2012Metric_Pad1.18x1.45mm_HandSolder" := "C_0805",
    "C_1206_3216Metric_Pad1.33x1.80mm_HandSolder" := "C_1206",
    "C_1210_3225Metric_Pad1.33x2.70mm_HandSolder" := "C_1210",
    "C_0402_1005Metric" := "C_0402",
    "C_0603_1608Metric" := "C_0603",
    "C_0805_2012Metric" := "C_0805",
    "C_1206_3216Metric" := "C_1206",
    "C_1210_3225Metric" := "C_1210",
    "CP_Elec_5x5.3" := "C_5X5.3MM",
    "CP_ELEC_6.3X7.7" := "C_6.3X7.7",
    "R_0402_1005Metric_Pad0.72x0.64mm_HandSolder" := "R_0402",
    "R_0603_1608Metric_Pad0.98x0.95mm_HandSolder" := "R_0603",
    "R_0805_2012Metric_Pad1.20x1.40mm_HandSolder" := "R_0805",
    "R_1206_3216Metric_Pad1.30x1.75mm_HandSolder" := "R_1206",
    "R_1210_3225Metric_Pad1.30x2.65mm_HandSolder" := "R_1210",
    "R_0402_1005Metric" := "R_0402",
    "R_0603_1608Metric" := "R_0603",
    "R_0805_2012Metric" := "R_0805",
    "R_1206_3216Metric" := "R_1206",
    "R_1210_3225Metric" := "R_1210",
    "R_Array_Concave_4x0402" := "R_4X0402",
    "QFN-28-1EP_6x6mm_P0.65mm_EP4.25x4.25mm" := "QFN28_6x6MM",
    "SOT-223-3_TabPin2" := "SOT223",
    "SOT-353_SC-70-5" := "SOT353",
    "L_Taiyo-Yuden_NR-40xx_HandSoldering" := "L_TAIYO_40XX",
    "L_0603_1608Metric_Pad1.05x0.95mm_HandSolder" := "L_0603",
    "L_0603_1608Metric" := "L_0603",
    "TSSOP-28_4.4x9.7mm_P0.65mm" := "TSSOP28_4.4X9.7MM",
    "TO-252-2" := "TO252_2",
    "TSOT-23-6" := "TSOT23_6",
    "D_SMA_Handsoldering" := "D_SMA",
    "HTSSOP-16-1EP_4.4X5MM_P0.65MM_EP3.4X5MM_MASK3X3MM_THERMALVIAS" := "HTSSOP16_4.4X5MM",
    "SOIC-8_3.9x4.9mm_P1.27mm" := "SOIC8_3.9X4.9MM",
    "LED_0603_1608Metric_Pad1.05x0.95mm_HandSolder" := "LED_0603",
    "LED_0603_1608Metric" := "LED_0603",
    "LED_0805_2012Metric_Pad1.15x1.40mm_HandSolder" := "LED_0805",
    "LED_0805_2012Metric" := "LED_0805",
    "LED_SK6805_PLCC4_2.4X2.7MM_P1.3MM_RGB" := "LED_2.4X2.7MM"
  ]

  /** Part heights by package; other packages get `0.0`. */
  const PartHeights: map<string, string> := map[
    "C_0402" := "0.35",
    "C_0603" := "0.45",
    "C_0805" := "0.45",
    "C_1206" := "0.55",
    "C_1210" := "0.55",
    "R_0402" := "0.35",
    "R_0603" := "0.45",
    "R_0805" := "0.45",
    "R_1206" := "0.55",
    "R_1210" := "0.55",
    "R_4X0402" := "0.35"
  ]

  /** Package body sizes, width then height; other packages get `0.0`. */
  const PackageSizes: map<string, BodySize> := map[
    "C_0402" := BodySize("1", "0.5"),
    "C_0603" := BodySize("1.6", "0.8"),
    "C_0805" := BodySize("2.0", "1.2"),
    "C_1206" := BodySize("3.2", "1.6"),
    "C_1210" := BodySize("3.2", "2.5"),
    "R_0402" := BodySize("1", "0.5"),
    "R_0603" := BodySize("1.6", "0.8"),
    "R_0805" := BodySize("2.0", "1.2"),
    "R_1206" := BodySize("3.2", "1.6"),
    "R_1210" := BodySize("3.2", "2.5"),
    "SOIC8_3.9X4.9MM" := BodySize("3.9", "4.9"),
    "HTSSOP16_4.4X5MM" := BodySize("4.4", "5.0"),
    "TSSOP28_4.4X9.7MM" := BodySize("4.4", "9.7"),
    "L_0603" := BodySize("1.6", "0.8"),
    "C_5X5.3MM" := BodySize("5.0", "5.3"),
    "C_6.3X7.7" := BodySize("6.3", "7.7"),
    "LED_0603" := BodySize("1.6", "0.8"),
    "LED_0805" := BodySize("2.0", "1.2"),
    "LED_2.4X2.7MM" := BodySize("2.4", "2.7")
  ]

  // ---------------------------------------------------------------------
  // Footprints
  // ---------------------------------------------------------------------

  datatype Options = Options(
    ignoreTop: bool,
    ignoreBottom: bool,
    useValueForPartId: bool,
    useMixedCase: bool)

  /** A footprint is processed when its type mentions SMD and its layer is
      not excluded; there is no ignore list, test point or DNP check. */
  function Processed(fp: Footprint, opts: Options): (b: bool)
    ensures b <==>
              && Contains(fp.typeName, "SMD")
              && !(opts.ignoreTop && fp.layer == FrontCopper)
              && !(opts.ignoreBottom && fp.layer == BackCopper)
  {
    if !Contains(fp.typeName, "SMD") then false
    else if opts.ignoreTop && fp.layer == FrontCopper then false
    else if opts.ignoreBottom && fp.layer == BackCopper then false
    else true
  }

  /** The footprint name looked up as it is, case-sensitively, in the
      built-in mapping. */
  function MappedName(fp: Footprint): (n: string)
    ensures fp.libItemName in FootprintToPackage ==> n == FootprintToPackage[fp.libItemName]
    ensures fp.libItemName !in FootprintToPackage ==> n == fp.libItemName
  {
    if fp.libItemName in FootprintToPackage then FootprintToPackage[fp.libItemName] else fp.libItemName
  }

  function PackageOf(fp: Footprint, opts: Options): string {
    Cased(MappedName(fp), opts.useMixedCase)
  }

  /** The part id: `package_value`, the package alone for a fiducial, or
      the value when asked to; a value of `~` gets no special treatment. */
  function PartIdOf(fp: Footprint, opts: Options): (pid: string)
    ensures opts.useValueForPartId ==> pid == Cased(fp.value, opts.useMixedCase)
    ensures !opts.useValueForPartId && Contains(fp.value, "Fiducial") ==> pid == PackageOf(fp, opts)
    ensures !opts.useValueForPartId && !Contains(fp.value, "Fiducial") ==>
              pid == Cased(MappedName(fp) + "_" + fp.value, opts.useMixedCase)
    ensures !opts.useMixedCase ==> forall i :: 0 <= i < |pid| ==> !IsLower(pid[i])
  {
    var name :=
      if opts.useValueForPartId then fp.value
      else if Contains(fp.value, "Fiducial") then MappedName(fp)
      else MappedName(fp) + "_" + fp.value;
    Cased(name, opts.useMixedCase)
  }

  /** The placement; its rotation is the footprint's orientation as is. */
  function PlacementOf(fp: Footprint, opts: Options): (p: Placement)
    ensures p.id == fp.reference && p.partId == PartIdOf(fp, opts)
    ensures p.side == SideOf(fp.layer) && p.kind == KindOf(fp.value)
    ensures p.x == fp.x && p.y == fp.y && p.rotation == fp.orientation
  {
    Placement(fp.reference, SideOf(fp.layer), PartIdOf(fp, opts), KindOf(fp.value), fp.x, fp.y, fp.orientation)
  }

  // ---------------------------------------------------------------------
  // The footprint loop
  // ---------------------------------------------------------------------

  function Selection(fps: seq<Footprint>, opts: Options): seq<Footprint> {
    if fps == [] then []
    else
      var last := fps[|fps| - 1];
      Selection(fps[..|fps| - 1], opts) + (if Processed(last, opts) then [last] else [])
  }

  function Sightings(fps: seq<Footprint>, opts: Options): seq<KicadImport.Sighting> {
    var sel := Selection(fps, opts);
    seq(|sel|, i requires 0 <= i < |sel| =>
      KicadImport.Sighting(PackageOf(sel[i], opts), sel[i].pads, PlacementOf(sel[i], opts)))
  }

  /** `parts[part_id] = package` for each sighting: a later footprint of the
      same part overwrites the package. */
  function PartsOf(ss: seq<KicadImport.Sighting>): (r: ODict<string>)
    ensures Valid(r)
  {
    if ss == [] then Empty()
    else
      var s := ss[|ss| - 1];
      Put(PartsOf(ss[..|ss| - 1]), s.placement.partId, s.package)
  }

  /** `packages[package] = {...}` for each sighting: the package's pads are
      rebuilt from every footprint, duplicates overwriting. */
  function PackagesOf(ss: seq<KicadImport.Sighting>): (r: ODict<ODict<PadRecord>>)
    ensures KicadImport.PackagesWellFormed(r)
  {
    if ss == [] then Empty()
    else
      var s := ss[|ss| - 1];
      Put(PackagesOf(ss[..|ss| - 1]), s.package, KicadImport.PadTable(s.package, s.pads, true))
  }

  datatype Inventory = Inventory(
    packages: ODict<ODict<PadRecord>>,
    parts: ODict<string>,
    placements: seq<Placement>)

  /** `identity_used_packages_and_parts` of the older script. */
  function Identify(fps: seq<Footprint>, opts: Options): (inv: Inventory)
    ensures Valid(inv.parts) && KicadImport.PackagesWellFormed(inv.packages)
    ensures |inv.placements| == |Selection(fps, opts)|
    ensures forall i :: 0 <= i < |inv.placements| ==> inv.placements[i] == PlacementOf(Selection(fps, opts)[i], opts)
    ensures inv.parts.keys == Missing({}, SelectedPartIds(fps, opts))
    ensures inv.packages.keys == Missing({}, SelectedPackages(fps, opts))
  {
    var ss := Sightings(fps, opts);
    PartOrder(ss);
    PackageOrder(ss);
    SightingNames(fps, opts);
    Inventory(PackagesOf(ss), PartsOf(ss), KicadImport.PlacementsOf(ss))
  }

  /** The part ids of the processed footprints, in board order. */
  function SelectedPartIds(fps: seq<Footprint>, opts: Options): seq<string> {
    var sel := Selection(fps, opts);
    seq(|sel|, i requires 0 <= i < |sel| => PartIdOf(sel[i], opts))
  }

  /** The packages of the processed footprints, in board order. */
  function SelectedPackages(fps: seq<Footprint>, opts: Options): seq<string> {
    var sel := Selection(fps, opts);
    seq(|sel|, i requires 0 <= i < |sel| => PackageOf(sel[i], opts))
  }

  lemma SightingNames(fps: seq<Footprint>, opts: Options)
    ensures var ss := Sightings(fps, opts);
            && KicadImport.PartIdSeq(ss) == SelectedPartIds(fps, opts)
            && KicadImport.PackageSeq(ss) == SelectedPackages(fps, opts)
            && |KicadImport.PlacementsOf(ss)| == |Selection(fps, opts)|
            && forall i :: 0 <= i < |ss| ==> KicadImport.PlacementsOf(ss)[i] == PlacementOf(Selection(fps, opts)[i], opts)
  {
  }

  /** The last sighting of a part decides its package. */
  lemma {:induction false} PartPackageFromLast(ss: seq<KicadImport.Sighting>, i: nat)
    requires i < |ss|
    requires forall j :: i < j < |ss| ==> ss[j].placement.partId != ss[i].placement.partId
    ensures var parts := PartsOf(ss).vals;
            ss[i].placement.partId in parts && parts[ss[i].placement.partId] == ss[i].package
  {
    if i < |ss| - 1 {
      var init := ss[..|ss| - 1];
      forall j | i < j < |init|
        ensures init[j].placement.partId != init[i].placement.partId
      {
        assert init[j] == ss[j];
      }
      PartPackageFromLast(init, i);
    }
  }

  /** The last sighting of a package decides its pads. */
  lemma {:induction false} PackagePadsFromLast(ss: seq<KicadImport.Sighting>, i: nat)
    requires i < |ss|
    requires forall j :: i < j < |ss| ==> ss[j].package != ss[i].package
    ensures var packages := PackagesOf(ss).vals;
            ss[i].package in packages &&
            packages[ss[i].package] == KicadImport.PadTable(ss[i].package, ss[i].pads, true)
  {
    if i < |ss| - 1 {
      var init := ss[..|ss| - 1];
      forall j | i < j < |init|
        ensures init[j].package != init[i].package
      {
        assert init[j] == ss[j];
      }
      PackagePadsFromLast(init, i);
    }
  }

  /** Overwriting keeps each key at its first position: parts are listed
      in the order of their first sighting. */
  lemma {:induction false} PartOrder(ss: seq<KicadImport.Sighting>)
    ensures PartsOf(ss).keys == Missing({}, KicadImport.PartIdSeq(ss))
  {
    if ss != [] {
      var init := ss[..|ss| - 1];
      var s := ss[|ss| - 1];
      PartOrder(init);
      var before := PartsOf(init);
      assert s.placement.partId in before.vals <==> s.placement.partId in before.keys;
      KicadImport.PartIdSeqSnoc(ss);
      MissingSnoc({}, KicadImport.PartIdSeq(init), s.placement.partId);
    }
  }

  /** Packages are listed in the order of their first sighting. */
  lemma {:induction false} PackageOrder(ss: seq<KicadImport.Sighting>)
    ensures PackagesOf(ss).keys == Missing({}, KicadImport.PackageSeq(ss))
  {
    if ss != [] {
      var init := ss[..|ss| - 1];
      var s := ss[|ss| - 1];
      PackageOrder(init);
      var before := PackagesOf(init);
      assert s.package in before.vals <==> s.package in before.keys;
      KicadImport.PackageSeqSnoc(ss);
      MissingSnoc({}, KicadImport.PackageSeq(init), s.package);
      assert PackagesOf(ss) == Put(before, s.package, KicadImport.PadTable(s.package, s.pads, true));
    }
  }

  /** On a board: the last processed footprint of a part decides its
      package, where the newer script keeps the first. */
  lemma PartPackageFromLastFootprint(fps: seq<Footprint>, opts: Options, i: nat)
    requires i < |Selection(fps, opts)|
    requires var sel := Selection(fps, opts);
             forall j :: i < j < |sel| ==> PartIdOf(sel[j], opts) != PartIdOf(sel[i], opts)
    ensures var sel := Selection(fps, opts);
            var parts := Identify(fps, opts).parts.vals;
            PartIdOf(sel[i], opts) in parts && parts[PartIdOf(sel[i], opts)] == PackageOf(sel[i], opts)
  {
    PartPackageFromLast(Sightings(fps, opts), i);
  }

  /** On a board: the last processed footprint of a package decides its
      pads, where the newer script keeps the first. */
  lemma PackagePadsFromLastFootprint(fps: seq<Footprint>, opts: Options, i: nat)
    requires i < |Selection(fps, opts)|
    requires var sel := Selection(fps, opts);
             forall j :: i < j < |sel| ==> PackageOf(sel[j], opts) != PackageOf(sel[i], opts)
    ensures var sel := Selection(fps, opts);
            var packages := Identify(fps, opts).packages.vals;
            var package := PackageOf(sel[i], opts);
            package in packages && packages[package] == KicadImport.PadTable(package, sel[i].pads, true)
  {
    PackagePadsFromLast(Sightings(fps, opts), i);
  }

  // ---------------------------------------------------------------------
  // Writing the files
  // ---------------------------------------------------------------------

  /** `update_parts_xml`: heights come from the built-in table. */
  function SyncParts(doc: seq<PartElem>, inv: Inventory, readOnly: bool): (u: Update<PartElem>)
    requires Valid(inv.parts)
    ensures u.added == Missing(PartIds(doc), inv.parts.keys)
    ensures |u.doc| == |doc| + |u.added| && u.doc[..|doc|] == doc
    ensures forall k :: 0 <= k < |u.added| ==>
              var package := inv.parts.vals[u.added[k]];
              u.doc[|doc| + k] == PartElem(u.added[k], u.added[k], HeightOf(PartHeights, package), package)
    ensures u.written <==> !readOnly && |u.added| > 0
  {
    UpdateParts(doc, inv.parts.keys, inv.parts.vals, PartHeights, readOnly)
  }

  /** `update_packages_xml`. Without `--nozzle` the nozzle list is `None`,
      and iterating it fails as soon as a package has to be created; that
      failure ends the run before any file is written. */
  function SyncPackages(doc: seq<PackageElem>, inv: Inventory, nozzles: Option<seq<string>>, readOnly: bool): (r: Result<Update<PackageElem>>)
    requires KicadImport.PackagesWellFormed(inv.packages)
    ensures r.Failure? <==> nozzles.None? && Missing(PackageIds(doc), inv.packages.keys) != []
    ensures r.Success? ==> r.value.added == Missing(PackageIds(doc), inv.packages.keys)
    ensures r.Success? ==> |r.value.doc| == |doc| + |r.value.added| && r.value.doc[..|doc|] == doc
    ensures r.Success? ==> forall k :: 0 <= k < |r.value.added| ==>
              r.value.doc[|doc| + k] ==
                NewPackage(r.value.added[k], PackageSizes, KicadImport.NozzleList(nozzles), inv.packages.vals[r.value.added[k]])
    ensures r.Success? ==> (r.value.written <==> !readOnly && |r.value.added| > 0)
  {
    var u := UpdatePackages(doc, inv.packages, PackageSizes, KicadImport.NozzleList(nozzles), readOnly);
    if nozzles.None? && u.added != [] then Failure("TypeError: 'NoneType' object is not iterable")
    else Success(u)
  }

  /** `create_board_xml` of the older script: board dimensions rounded to ten
      decimals by `round`, board rotation always `0.0`. */
  function Board(inv: Inventory, originX: real, originY: real, width: real, height: real, round: real -> real): (b: BoardElem)
    ensures b.rotation == "0.0"
    ensures b.width == round(width) && b.height == round(height)
    ensures |b.placements| == |inv.placements|
    ensures forall i :: 0 <= i < |b.placements| ==>
              && b.placements[i] == Locate(inv.placements[i], originX, originY, round)
              && b.placements[i].id == inv.placements[i].id
              && b.placements[i].side == inv.placements[i].side
              && b.placements[i].partId == inv.placements[i].partId
              && b.placements[i].kind == inv.placements[i].kind
              && b.placements[i].location.rotation == inv.placements[i].rotation
              && b.placements[i].location.x >= 0.0
              && b.placements[i].location.y >= 0.0
  {
    BoardOf(inv.placements, originX, originY, round(width), round(height), "0.0", round)
  }

  /** What one run writes: `packages.xml`, then `parts.xml`, then the board. */
  datatype Outputs = Outputs(packages: Update<PackageElem>, parts: Update<PartElem>, board: BoardElem)

  /** The writing half of the script's main sequence, for an identified
      inventory: `packages.xml` first, whose failure ends the run, then
      `parts.xml` and the board. */
  function Write(
    inv: Inventory,
    packagesDoc: seq<PackageElem>,
    partsDoc: seq<PartElem>,
    nozzles: Option<seq<string>>,
    readOnly: bool,
    originX: real, originY: real, width: real, height: real,
    round: real -> real): (r: Result<Outputs>)
    requires Valid(inv.parts) && KicadImport.PackagesWellFormed(inv.packages)
    ensures r.Failure? <==> nozzles.None? && Missing(PackageIds(packagesDoc), inv.packages.keys) != []
    ensures r.Success? ==>
              && r.value.packages == SyncPackages(packagesDoc, inv, nozzles, readOnly).value
              && r.value.parts == SyncParts(partsDoc, inv, readOnly)
              && r.value.board == Board(inv, originX, originY, width, height, round)
  {
    match SyncPackages(packagesDoc, inv, nozzles, readOnly)
    case Failure(e) => Failure(e)
    case Success(packages) =>
      Success(Outputs(packages, SyncParts(partsDoc, inv, readOnly), Board(inv, originX, originY, width, height, round)))
  }

  /** The script's main sequence. It fails exactly when a package must be
      created without a nozzle list, and then writes nothing. */
  function Run(
    fps: seq<Footprint>,
    opts: Options,
    packagesDoc: seq<PackageElem>,
    partsDoc: seq<PartElem>,
    nozzles: Option<seq<string>>,
    readOnly: bool,
    originX: real, originY: real, width: real, height: real,
    round: real -> real): (r: Result<Outputs>)
    ensures var inv := Identify(fps, opts);
            r.Failure? <==> nozzles.None? && Missing(PackageIds(packagesDoc), inv.packages.keys) != []
    ensures r.Success? ==>
              var inv := Identify(fps, opts);
              && SyncPackages(packagesDoc, inv, nozzles, readOnly).Success?
              && r.value.packages == SyncPackages(packagesDoc, inv, nozzles, readOnly).value
              && r.value.parts == SyncParts(partsDoc, inv, readOnly)
              && r.value.board == Board(inv, originX, originY, width, height, round)
  {
    Write(Identify(fps, opts), packagesDoc, partsDoc, nozzles, readOnly, originX, originY, width, height, round)
  }
}
