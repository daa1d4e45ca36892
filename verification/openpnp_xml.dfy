/** The OpenPnP side of the KiCad converters: the intermediate records they
    derive from footprints, and the elements they add to `parts.xml`,
    `packages.xml` and write to `board.xml`, each XML document modelled as
    the list of its id-carrying elements. Both converter scripts share this
    logic word for word. */
module OpenPnp {
  import opened Wrappers
  import opened Text
  import opened Seqs
  import opened Pcb
  import opened OrderedDict

  // ---------------------------------------------------------------------
  // Records derived from footprints
  // ---------------------------------------------------------------------

  datatype Side = Top | Bottom

  /** The placement `type` attribute: `Placement` or `Fiducial`. */
  datatype PlacementType = PartPlacement | FiducialPlacement

  /** What a converter remembers about one pad of a package. */
  datatype PadRecord = PadRecord(w: real, h: real, x: real, y: real, shape: PadShape)

  /** One entry of the placement list. */
  datatype Placement = Placement(
    id: string,
    side: Side,
    partId: string,
    kind: PlacementType,
    x: real,
    y: real,
    rotation: real)

  /** Package names and part ids are upper-cased unless mixed case is
      enabled. */
  function Cased(s: string, mixedCase: bool): (r: string)
    ensures |r| == |s|
    ensures mixedCase ==> r == s
    ensures !mixedCase ==> forall i :: 0 <= i < |r| ==> r[i] == UpperChar(s[i]) && !IsLower(r[i])
  {
    if mixedCase then s else Upper(s)
  }

  /** `'Top' if layer == F_Cu else 'Bottom'`. */
  function SideOf(layer: Layer): (s: Side)
    ensures s == Top <==> layer == FrontCopper
  {
    if layer == FrontCopper then Top else Bottom
  }

  /** A footprint whose value mentions `Fiducial` is placed as a fiducial. */
  function KindOf(value: string): (k: PlacementType)
    ensures k == FiducialPlacement <==> Contains(value, "Fiducial")
  {
    if Contains(value, "Fiducial") then FiducialPlacement else PartPlacement
  }

  /** The name a pad is recorded under before duplicates are considered: a
      nameless pad of a fiducial package is pad `1`. */
  function PadNameFor(package: string, pad: Pad): (n: string)
    ensures pad.name != "" ==> n == pad.name
    ensures pad.name == "" && Contains(Upper(package), "FIDUCIAL") ==> n == "1"
    ensures pad.name == "" && !Contains(Upper(package), "FIDUCIAL") ==> n == ""
  {
    if Contains(Upper(package), "FIDUCIAL") && pad.name == "" then "1" else pad.name
  }

  function RecordOf(pad: Pad): PadRecord {
    PadRecord(pad.sizeX, pad.sizeY, pad.offsetX, pad.offsetY, pad.shape)
  }

  // ---------------------------------------------------------------------
  // XML elements
  // ---------------------------------------------------------------------

  /** A `<part>`; its units, speed and retry count are constant. */
  datatype PartElem = PartElem(id: string, name: string, height: string, packageId: string)

  /** A `<pad>` of a package footprint; its rotation is always `0.0`. */
  datatype PadElem = PadElem(
    name: string,
    x: real,
    y: real,
    width: real,
    height: real,
    roundness: Option<real>)

  /** A `<package>` with its footprint body size, compatible nozzle tips and pads. */
  datatype PackageElem = PackageElem(
    id: string,
    bodyWidth: string,
    bodyHeight: string,
    nozzles: seq<string>,
    pads: seq<PadElem>)

  /** A body size as read from a size table (both values as text). */
  datatype BodySize = BodySize(w: string, h: string)

  /** The text written for an attribute with no table entry. */
  const Unknown: string := "0.0"

  /** The `<pad>` written for a recorded pad: circles are fully rounded, and
      a circular pad named like a fiducial sits at the package origin. */
  function EmitPad(name: string, rec: PadRecord): (e: PadElem)
    ensures e.name == name && e.width == rec.w && e.height == rec.h
    ensures e.roundness.Some? <==> rec.shape == Circle
    ensures e.roundness.Some? ==> e.roundness.value == 100.0
    ensures rec.shape == Circle && Contains(Upper(name), "FIDUCIAL") ==> e.x == 0.0 && e.y == 0.0
    ensures !(rec.shape == Circle && Contains(Upper(name), "FIDUCIAL")) ==> e.x == rec.x && e.y == rec.y
  {
    match rec.shape
    case Circle =>
      if Contains(Upper(name), "FIDUCIAL") then PadElem(name, 0.0, 0.0, rec.w, rec.h, Some(100.0))
      else PadElem(name, rec.x, rec.y, rec.w, rec.h, Some(100.0))
    case RoundRect => PadElem(name, rec.x, rec.y, rec.w, rec.h, None)
    case _ => PadElem(name, rec.x, rec.y, rec.w, rec.h, None)
  }

  /** The `<pad>` elements of a package, in the order its pads were recorded. */
  function EmitPads(pads: ODict<PadRecord>): (es: seq<PadElem>)
    requires Valid(pads)
    ensures |es| == |pads.keys|
    ensures forall i :: 0 <= i < |es| ==> es[i].name == pads.keys[i]
    ensures forall i :: 0 <= i < |es| ==> es[i] == EmitPad(pads.keys[i], pads.vals[pads.keys[i]])
  {
    seq(|pads.keys|, i requires 0 <= i < |pads.keys| => EmitPad(pads.keys[i], pads.vals[pads.keys[i]]))
  }

  /** Body width and height for a new package: from the size table, or the
      default text when the package has no entry. */
  function BodyOf(sizes: map<string, BodySize>, package: string): (b: BodySize)
    ensures package in sizes ==> b == sizes[package]
    ensures package !in sizes ==> b == BodySize(Unknown, Unknown)
  {
    if package in sizes then sizes[package] else BodySize(Unknown, Unknown)
  }

  /** Part height for a new part: from the height table, or the default. */
  function HeightOf(heights: map<string, string>, package: string): (h: string)
    ensures package in heights ==> h == heights[package]
    ensures package !in heights ==> h == Unknown
  {
    if package in heights then heights[package] else Unknown
  }

  // ---------------------------------------------------------------------
  // Adding what is missing to parts.xml and packages.xml
  // ---------------------------------------------------------------------

  function PartIds(doc: seq<PartElem>): set<string> {
    set e | e in doc :: e.id
  }

  function PackageIds(doc: seq<PackageElem>): set<string> {
    set e | e in doc :: e.id
  }

  /** The outcome of an update: the document after the new elements were
      appended, and whether the file is rewritten. */
  datatype Update<E> = Update(doc: seq<E>, added: seq<string>, written: bool)

  /** A file is rewritten only outside read-only mode and only when
      something was added. */
  predicate Rewrites(readOnly: bool, added: seq<string>) {
    !readOnly && |added| > 0
  }

  /** The `<part>` created for a part the document does not have yet. */
  function NewPart(id: string, package: string, heights: map<string, string>): (e: PartElem)
    ensures e.id == id && e.name == id && e.packageId == package
    ensures e.height == HeightOf(heights, package)
  {
    PartElem(id, id, HeightOf(heights, package), package)
  }

  /** `update_parts_xml`: every part id of `order` (the part table's keys in
      insertion order) that `parts.xml` lacks gets a `<part>` naming its
      package. `packageOf` gives each part's package. */
  function UpdateParts(
    doc: seq<PartElem>,
    order: seq<string>,
    packageOf: map<string, string>,
    heights: map<string, string>,
    readOnly: bool): (u: Update<PartElem>)
    requires forall id :: id in order ==> id in packageOf
    ensures u.added == Missing(PartIds(doc), order)
    ensures |u.doc| == |doc| + |u.added| && u.doc[..|doc|] == doc
    ensures forall k :: 0 <= k < |u.added| ==>
              u.doc[|doc| + k] == NewPart(u.added[k], packageOf[u.added[k]], heights)
    ensures forall id :: id in order ==> id in PartIds(u.doc)
    ensures u.written <==> Rewrites(readOnly, u.added)
  {
    var added := Missing(PartIds(doc), order);
    var created := seq(|added|, k requires 0 <= k < |added| => NewPart(added[k], packageOf[added[k]], heights));
    var doc' := doc + created;
    assert forall id :: id in order ==> id in PartIds(doc') by {
      forall id | id in order
        ensures id in PartIds(doc')
      {
        if id !in PartIds(doc) {
          var k :| 0 <= k < |added| && added[k] == id;
          assert doc'[|doc| + k].id == id;
        } else {
          var e :| e in doc && e.id == id;
          assert e in doc';
        }
      }
    }
    Update(doc', added, Rewrites(readOnly, added))
  }

  /** Updating a second time with the same parts adds nothing. */
  lemma UpdatePartsIdempotent(
    doc: seq<PartElem>,
    order: seq<string>,
    packageOf: map<string, string>,
    heights: map<string, string>,
    readOnly: bool)
    requires forall id :: id in order ==> id in packageOf
    ensures var u := UpdateParts(doc, order, packageOf, heights, readOnly);
            var v := UpdateParts(u.doc, order, packageOf, heights, readOnly);
            v.doc == u.doc && v.added == [] && !v.written
  {
    var u := UpdateParts(doc, order, packageOf, heights, readOnly);
    MissingWhenPresent(PartIds(u.doc), order);
  }

  /** The `<package>` created for a package the document does not have yet. */
  function NewPackage(id: string, sizes: map<string, BodySize>, nozzles: seq<string>, pads: ODict<PadRecord>): (e: PackageElem)
    requires Valid(pads)
    ensures e.id == id && e.nozzles == nozzles
    ensures e.bodyWidth == BodyOf(sizes, id).w && e.bodyHeight == BodyOf(sizes, id).h
    ensures |e.pads| == |pads.keys|
    ensures forall i :: 0 <= i < |e.pads| ==>
              && e.pads[i].name == pads.keys[i]
              && e.pads[i].width == pads.vals[pads.keys[i]].w
              && e.pads[i].height == pads.vals[pads.keys[i]].h
              && (e.pads[i].roundness.Some? <==> pads.vals[pads.keys[i]].shape == Circle)
    ensures forall i, j :: 0 <= i < j < |e.pads| ==> e.pads[i].name != e.pads[j].name
    ensures forall i :: 0 <= i < |e.pads| ==> e.pads[i] == EmitPad(pads.keys[i], pads.vals[pads.keys[i]])
  {
    PackageElem(id, BodyOf(sizes, id).w, BodyOf(sizes, id).h, nozzles, EmitPads(pads))
  }

  /** `update_packages_xml`: every package of the package table that
      `packages.xml` lacks gets a `<package>` with its body size, the given
      nozzle tips and one `<pad>` per recorded pad. */
  function UpdatePackages(
    doc: seq<PackageElem>,
    packages: ODict<ODict<PadRecord>>,
    sizes: map<string, BodySize>,
    nozzles: seq<string>,
    readOnly: bool): (u: Update<PackageElem>)
    requires Valid(packages)
    requires forall p :: p in packages.vals ==> Valid(packages.vals[p])
    ensures u.added == Missing(PackageIds(doc), packages.keys)
    ensures |u.doc| == |doc| + |u.added| && u.doc[..|doc|] == doc
    ensures forall k :: 0 <= k < |u.added| ==>
              u.doc[|doc| + k] == NewPackage(u.added[k], sizes, nozzles, packages.vals[u.added[k]])
    ensures forall p :: p in packages.vals ==> p in PackageIds(u.doc)
    ensures u.written <==> Rewrites(readOnly, u.added)
  {
    var added := Missing(PackageIds(doc), packages.keys);
    var created := seq(|added|, k requires 0 <= k < |added| => NewPackage(added[k], sizes, nozzles, packages.vals[added[k]]));
    var doc' := doc + created;
    assert forall p :: p in packages.vals ==> p in PackageIds(doc') by {
      forall p | p in packages.vals
        ensures p in PackageIds(doc')
      {
        if p !in PackageIds(doc) {
          var k :| 0 <= k < |added| && added[k] == p;
          assert doc'[|doc| + k].id == p;
        } else {
          var e :| e in doc && e.id == p;
          assert e in doc';
        }
      }
    }
    Update(doc', added, Rewrites(readOnly, added))
  }

  // ---------------------------------------------------------------------
  // board.xml
  // ---------------------------------------------------------------------

  /** A `<location>`; its z is always `0.0`. */
  datatype Location = Location(x: real, y: real, rotation: real)

  datatype PlacementElem = PlacementElem(
    id: string,
    side: Side,
    partId: string,
    kind: PlacementType,
    location: Location)

  /** The board: its `<dimensions>` and its `<placement>` elements. */
  datatype BoardElem = BoardElem(
    width: real,
    height: real,
    rotation: string,
    placements: seq<PlacementElem>)

  function Abs(x: real): real {
    if x < 0.0 then -x else x
  }

  /** A placement relative to the board origin. `round` stands for Python's
      `round(_, decimal_places)`; its result is made non-negative. */
  function Locate(p: Placement, originX: real, originY: real, round: real -> real): (e: PlacementElem)
    ensures e.id == p.id && e.side == p.side && e.partId == p.partId && e.kind == p.kind
    ensures e.location.rotation == p.rotation
    ensures e.location.x >= 0.0 && e.location.y >= 0.0
    ensures e.location.x == round(p.x - originX) || e.location.x == -round(p.x - originX)
    ensures e.location.y == round(p.y - originY) || e.location.y == -round(p.y - originY)
  {
    PlacementElem(p.id, p.side, p.partId, p.kind,
      Location(Abs(round(p.x - originX)), Abs(round(p.y - originY)), p.rotation))
  }

  /** `create_board_xml`: one `<placement>` per placement, in order. */
  function BoardOf(
    placements: seq<Placement>,
    originX: real,
    originY: real,
    width: real,
    height: real,
    rotation: string,
    round: real -> real): (b: BoardElem)
    ensures b.width == width && b.height == height && b.rotation == rotation
    ensures |b.placements| == |placements|
    ensures forall i :: 0 <= i < |placements| ==>
              b.placements[i] == Locate(placements[i], originX, originY, round)
  {
    BoardElem(width, height, rotation,
      seq(|placements|, i requires 0 <= i < |placements| => Locate(placements[i], originX, originY, round)))
  }

  /** No coordinate written to `board.xml` is negative. */
  lemma BoardCoordinatesNonNegative(
    placements: seq<Placement>,
    originX: real,
    originY: real,
    width: real,
    height: real,
    rotation: string,
    round: real -> real)
    ensures var b := BoardOf(placements, originX, originY, width, height, rotation, round);
            forall e :: e in b.placements ==> e.location.x >= 0.0 && e.location.y >= 0.0
  {
  }
}
