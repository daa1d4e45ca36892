/** The label sheets of the older generator at the repository root: labels
    evenly spaced, no grouping, no blank line between sheet rows, and the
    page file numbered from zero. */
module LegacySheet {
  import opened Wrappers
  import opened Text
  import opened LabelLayout
  import LabelSheet

  datatype Template = Template(
    rows: int,
    columns: int,
    labelSize: int,
    offsetX: int,
    offsetY: int,
    spacingX: int,
    spacingY: int)

  /** Labels sit a label size plus a spacing apart in both directions. */
  function Position(t: Template, at: Cursor): (p: (int, int))
    ensures p.0 == t.offsetX + at.rowIndex * (t.labelSize + t.spacingX)
    ensures p.1 == t.offsetY + at.columnIndex * (t.labelSize + t.spacingY)
  {
    (t.offsetX + at.rowIndex * t.labelSize + at.rowIndex * t.spacingX,
     t.offsetY + at.columnIndex * t.labelSize + at.columnIndex * t.spacingY)
  }

  /** With groups of one the label maker places labels exactly where the
      older generator does. */
  lemma GroupsOfOneAreEvenlySpaced(t: LabelSheet.Template, at: Cursor)
    requires t.groupSize == 1
    ensures LabelSheet.Position(t, at) ==
            Success(Position(Template(t.rows, t.columns, t.labelSize, t.marginX, t.marginY, t.spacingX, t.spacingY), at))
  {
  }

  /** `print_labels_<n>.png`, numbered from zero. */
  function PageFile(pageNumber: nat): string {
    "print_labels_" + NatToString(pageNumber) + ".png"
  }

  /** `PAGE = <n+1>`, numbered from one, and the column header. */
  function Header(pageNumber: nat): string {
    "PAGE = " + NatToString(pageNumber + 1) + "\n" + "X , Y = PART ID\n"
  }

  /** The page file and the map header of the same sheet carry different
      numbers: sheet `n` is saved as `print_labels_<n>.png` but listed as
      `PAGE = <n+1>`. */
  lemma PageFileDisagreesWithHeader(pageNumber: nat)
    ensures ParseNat(PageFile(pageNumber)[|"print_labels_"|..|PageFile(pageNumber)| - |".png"|]) == pageNumber
    ensures ParseNat(Header(pageNumber)[|"PAGE = "|..|"PAGE = "| + |NatToString(pageNumber + 1)|]) == pageNumber + 1
  {
    var f := NatToString(pageNumber);
    var h := NatToString(pageNumber + 1);
    Between("print_labels_", f, ".png");
    assert Header(pageNumber) == "PAGE = " + h + ("\n" + "X , Y = PART ID\n");
    Between("PAGE = ", h, "\n" + "X , Y = PART ID\n");
    ParseNatToString(pageNumber);
    ParseNatToString(pageNumber + 1);
  }

  /** The first sheet, for instance, is saved as `print_labels_0.png` and
      listed as `PAGE = 1`. */
  lemma FirstSheetNumbers()
    ensures PageFile(0) == "print_labels_0.png"
    ensures Header(0)[..8] == "PAGE = 1"
  {
    assert NatToString(0) == "0";
    assert NatToString(1) == "1";
  }

  /** The map lines of the drawn labels, one per label, with no break
      between sheet rows. */
  function Lines(spots: seq<Spot>): string {
    if spots == [] then ""
    else Lines(spots[..|spots| - 1]) + MapLine(spots[|spots| - 1])
  }

  function PasteOf(t: Template, s: Spot): LabelSheet.Paste {
    var pos := Position(t, s.at);
    LabelSheet.Paste(s.path, pos.0, pos.1)
  }

  function PastesOf(t: Template, spots: seq<Spot>): (r: seq<LabelSheet.Paste>)
    ensures |r| == |spots|
  {
    seq(|spots|, j requires 0 <= j < |spots| => PasteOf(t, spots[j]))
  }

  /** Sheet `pageNumber` of `entries`, drawn all at once. */
  function SheetOf(pageNumber: nat, entries: seq<string>, t: Template): LabelSheet.Page {
    var spots := Spots(entries, t.columns);
    LabelSheet.Page(PageFile(pageNumber), PastesOf(t, spots), Header(pageNumber) + Lines(spots) + "\n")
  }

  lemma LinesSnoc(spots: seq<Spot>, s: Spot)
    ensures Lines(spots + [s]) == Lines(spots) + MapLine(s)
  {
    assert (spots + [s])[..|spots|] == spots;
  }

  lemma PastesSnoc(t: Template, spots: seq<Spot>, s: Spot)
    ensures PastesOf(t, spots + [s]) == PastesOf(t, spots) + [PasteOf(t, s)]
  {
    assert (spots + [s])[|spots|] == s;
    forall j | 0 <= j < |spots|
      ensures (spots + [s])[j] == spots[j]
    {
    }
  }

  /** `create_page` of the older generator. */
  method CreatePage(pageNumber: nat, entries: seq<string>, t: Template) returns (page: LabelSheet.Page)
    ensures page == SheetOf(pageNumber, entries, t)
  {
    var rowIndex: nat := 0;
    var columnIndex: nat := 0;
    var pastes: seq<LabelSheet.Paste> := [];
    var body := "";
    for i := 0 to |entries|
      invariant Cursor(rowIndex, columnIndex) == CursorAt(i, t.columns)
      invariant pastes == PastesOf(t, Spots(entries[..i], t.columns))
      invariant body == Lines(Spots(entries[..i], t.columns))
    {
      var entry := entries[i];
      var at := Cursor(rowIndex, columnIndex);
      var next := Advance(at, t.columns);
      assert CursorAt(i + 1, t.columns) == next;
      TakeOneMore(entries, i);
      SpotsSnoc(entries[..i], entry, t.columns);
      if entry == Blank {
        assert Spots(entries[..i + 1], t.columns) == Spots(entries[..i], t.columns);
      } else {
        var spot := Spot(entry, at);
        assert Spots(entries[..i + 1], t.columns) == Spots(entries[..i], t.columns) + [spot];
        PastesSnoc(t, Spots(entries[..i], t.columns), spot);
        LinesSnoc(Spots(entries[..i], t.columns), spot);
        var pos := Position(t, at);
        pastes := pastes + [LabelSheet.Paste(entry, pos.0, pos.1)];
        body := body + MapLine(spot);
      }
      rowIndex := rowIndex + 1;
      if rowIndex > t.columns - 1 {
        rowIndex := 0;
        columnIndex := columnIndex + 1;
      }
      assert Cursor(rowIndex, columnIndex) == next;
    }
    assert entries[..|entries|] == entries;
    page := LabelSheet.Page(PageFile(pageNumber), pastes, Header(pageNumber) + body + "\n");
  }

  /** Every sheet, drawn in turn and numbered from zero. */
  function Sheets(sheets: seq<seq<string>>, t: Template): seq<LabelSheet.Page> {
    seq(|sheets|, n requires 0 <= n < |sheets| => SheetOf(n, sheets[n], t))
  }

  method DrawSheets(sheets: seq<seq<string>>, t: Template) returns (pages: seq<LabelSheet.Page>)
    ensures pages == Sheets(sheets, t)
  {
    pages := [];
    for n := 0 to |sheets|
      invariant pages == Sheets(sheets, t)[..n]
    {
      var page := CreatePage(n, sheets[n], t);
      TakeOneMore(Sheets(sheets, t), n);
      pages := pages + [page];
    }
  }

  /** The parts whose QR codes the older generator fetches: its built-in
      list, not the inventory. */
  const PartList: seq<string> := [
    "FIDUCIAL-HOME",
    "Fiducial_1mm_Mask2mm-Fiducial",
    "SOT-23-2N7002K",
    "R_0805_2012Metric-10K",
    "C_0805_2012Metric_Pad1.15x1.40mm_HandSolder-0.1uf",
    "C_0805_2012Metric_Pad1.15x1.40mm_HandSolder-10uf",
    "LED_0805_2012Metric_Pad1.15x1.40mm_HandSolder-LED",
    "Fiducial_0.75mm_Mask1.5mm-Fiducial",
    "SOT-23-2N7002",
    "R_0805_2012Metric-2.2k",
    "R_0805_2012Metric-22"]

  /** `generate` of the older generator: a QR code is fetched, with
      `download(part, labelSize)`, for every part of the built-in list that
      is not a fiducial, then the labels get the same padding and cut into
      sheets, and each sheet is drawn. */
  method Generate(labels: seq<string>, startIndex: int, t: Template)
    returns (fetched: Result<seq<string>>, r: Result<seq<LabelSheet.Page>>)
    ensures fetched == Success(ToDownload(PartList))
    ensures var sheets := Paginate(Padded(labels, startIndex), t.rows * t.columns);
            r.Failure? <==> sheets.Failure?
    ensures r.Success? ==> r.value == Sheets(Paginate(Padded(labels, startIndex), t.rows * t.columns).value, t)
  {
    fetched := LabelSheet.FetchQrCodes(PartList, LabelSheet.DownloadArity);
    var sheets := Paginate(Padded(labels, startIndex), t.rows * t.columns);
    if sheets.Failure? {
      return fetched, Failure(sheets.error);
    }
    var pages := DrawSheets(sheets.value, t);
    r := Success(pages);
  }
}
