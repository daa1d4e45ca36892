/** The label sheets of the label maker: labels are drawn in groups of
    `groupSize` QR codes per physical label, each sheet's labels are listed
    in the label map, and a blank line follows every sheet row. */
module LabelSheet {
  import opened Wrappers
  import opened Text
  import opened Seqs
  import opened PyArith
  import opened LabelLayout

  /** The template values the sheet uses (the page size only sizes the
      image). */
  datatype Template = Template(
    rows: int,
    columns: int,
    labelSize: int,
    marginX: int,
    marginY: int,
    spacingX: int,
    spacingY: int,
    groupSize: int,
    groupSpacing: int)

  /** The pixel position of a label. Across a row, labels come in groups of
      `groupSize`: `spacingX` separates groups and `groupSpacing` separates
      the labels of a group. A zero group size fails on the modulo. */
  function Position(t: Template, at: Cursor): (r: Result<(int, int)>)
    ensures r.Failure? <==> t.groupSize == 0
    ensures r.Success? ==> r.value.1 == t.marginY + at.columnIndex * (t.labelSize + t.spacingY)
    ensures r.Success? && t.groupSize > 0 ==>
              r.value.0 == t.marginX + at.rowIndex * t.labelSize
                           + (at.rowIndex / t.groupSize) * t.spacingX
                           + (at.rowIndex % t.groupSize) * t.groupSpacing
  {
    if t.groupSize == 0 then Failure("ZeroDivisionError: integer modulo by zero")
    else
      var r := at.rowIndex;
      var c := at.columnIndex;
      var groupIndex := Mod(r, t.groupSize);
      var groupNumber := FloorDiv(r, t.groupSize);
      Success((t.marginX + r * t.labelSize + groupNumber * t.spacingX + groupIndex * t.groupSpacing,
               t.marginY + c * t.labelSize + c * t.spacingY))
  }

  /** For any nonzero group size, positive or not, a label's x is fixed by
      the floor quotient and remainder of its row index: `q` groups and `m`
      labels into the group. */
  lemma PositionAcross(t: Template, at: Cursor, q: int, m: int)
    requires t.groupSize != 0 && at.rowIndex == q * t.groupSize + m
    requires t.groupSize > 0 ==> 0 <= m < t.groupSize
    requires t.groupSize < 0 ==> t.groupSize < m <= 0
    ensures Position(t, at).Success?
    ensures Position(t, at).value.0 ==
            t.marginX + at.rowIndex * t.labelSize + q * t.spacingX + m * t.groupSpacing
  {
    FloorDivUnique(at.rowIndex, t.groupSize, q, m);
  }

  /** Within a group the next label is one label and one group spacing
      further across. */
  lemma NextInGroup(t: Template, r: nat, c: nat)
    requires t.groupSize > 0 && (r + 1) % t.groupSize != 0
    ensures Position(t, Cursor(r + 1, c)).value.0 ==
            Position(t, Cursor(r, c)).value.0 + t.labelSize + t.groupSpacing
  {
    var q := r / t.groupSize;
    var m := r % t.groupSize;
    assert m + 1 < t.groupSize by {
      if m + 1 == t.groupSize {
        DivModUnique(r + 1, t.groupSize, q + 1, 0);
      }
    }
    DivModUnique(r + 1, t.groupSize, q, m + 1);
    assert (r + 1) * t.labelSize == r * t.labelSize + t.labelSize;
    assert (m + 1) * t.groupSpacing == m * t.groupSpacing + t.groupSpacing;
  }

  /** The first label of a new group is one label and one group spacing
      further across than the start of the previous group's last label,
      less the group spacings that group used. */
  lemma NextGroup(t: Template, r: nat, c: nat)
    requires t.groupSize > 0 && (r + 1) % t.groupSize == 0
    ensures Position(t, Cursor(r + 1, c)).value.0 ==
            Position(t, Cursor(r, c)).value.0 + t.labelSize + t.spacingX - (t.groupSize - 1) * t.groupSpacing
  {
    var q := (r + 1) / t.groupSize;
    assert q >= 1;
    DivModUnique(r, t.groupSize, q - 1, t.groupSize - 1);
    assert (r + 1) * t.labelSize == r * t.labelSize + t.labelSize;
    assert q * t.spacingX == (q - 1) * t.spacingX + t.spacingX;
  }

  /** `print_labels_<n+1>.png`. */
  function PageFile(pageNumber: nat): string {
    "print_labels_" + NatToString(pageNumber + 1) + ".png"
  }

  /** `PAGE = <n+1>` and the column header, then a blank line. */
  function Header(pageNumber: nat): string {
    "PAGE = " + NatToString(pageNumber + 1) + "\n" + "X , Y = PART ID\n\n"
  }

  /** The page file and the map header carry the same page number. */
  lemma PageFileMatchesHeader(pageNumber: nat)
    ensures PageFile(pageNumber)[|"print_labels_"|..|PageFile(pageNumber)| - |".png"|] ==
            Header(pageNumber)[|"PAGE = "|..|"PAGE = "| + |NatToString(pageNumber + 1)|]
    ensures ParseNat(PageFile(pageNumber)[|"print_labels_"|..|PageFile(pageNumber)| - |".png"|]) == pageNumber + 1
  {
    var d := NatToString(pageNumber + 1);
    assert PageFile(pageNumber)[|"print_labels_"|..|PageFile(pageNumber)| - |".png"|] == d;
    assert Header(pageNumber)[|"PAGE = "|..|"PAGE = "| + |d|] == d;
    ParseNatToString(pageNumber + 1);
  }

  /** What the map gets for entry `k`: its line when it is a label, then a
      blank line when the cursor wraps after it. */
  function EntryText(entry: string, at: Cursor, columns: int): string {
    (if entry != Blank then MapLine(Spot(entry, at)) else "")
    + (if Wraps(at, columns) then "\n" else "")
  }

  function MapBody(entries: seq<string>, columns: int): string {
    if entries == [] then ""
    else
      var k := |entries| - 1;
      MapBody(entries[..k], columns) + EntryText(entries[k], CursorAt(k, columns), columns)
  }

  lemma MapBodySnoc(entries: seq<string>, entry: string, columns: int)
    ensures MapBody(entries + [entry], columns) ==
            MapBody(entries, columns) + EntryText(entry, CursorAt(|entries|, columns), columns)
  {
    assert (entries + [entry])[..|entries|] == entries;
  }

  datatype Paste = Paste(path: string, x: int, y: int)

  /** One sheet: the image file name, the labels pasted on it, and the text
      appended to `label_map.txt`. */
  datatype Page = Page(file: string, pastes: seq<Paste>, mapText: string)

  /** Where a drawn label is pasted, for a template whose group size is
      usable. */
  function PasteOf(t: Template, s: Spot): Paste
    requires t.groupSize != 0
  {
    var pos := Position(t, s.at).value;
    Paste(s.path, pos.0, pos.1)
  }

  function PastesOf(t: Template, spots: seq<Spot>): (r: seq<Paste>)
    requires t.groupSize != 0
    ensures |r| == |spots|
  {
    seq(|spots|, j requires 0 <= j < |spots| => PasteOf(t, spots[j]))
  }

  predicate HasLabel(entries: seq<string>) {
    exists k :: 0 <= k < |entries| && entries[k] != Blank
  }

  /** Sheet `pageNumber` of `entries`, drawn all at once: its file and map
      header carry the sheet's number, the map lists the labels and row
      breaks, and every label is pasted where the template puts it. */
  function SheetOf(pageNumber: nat, entries: seq<string>, t: Template): Page {
    var pastes := if t.groupSize != 0 then PastesOf(t, Spots(entries, t.columns)) else [];
    Page(PageFile(pageNumber), pastes, Header(pageNumber) + MapBody(entries, t.columns) + "\n")
  }

  /** `create_page`: walks the entries with the cursor, pastes every label at
      its position and lists it in the map. */
  method CreatePage(pageNumber: nat, entries: seq<string>, t: Template) returns (r: Result<Page>)
    ensures r.Failure? <==> t.groupSize == 0 && HasLabel(entries)
    ensures r.Success? ==> r.value == SheetOf(pageNumber, entries, t)
  {
    var rowIndex: nat := 0;
    var columnIndex: nat := 0;
    var pastes: seq<Paste> := [];
    var body := "";
    for i := 0 to |entries|
      invariant Cursor(rowIndex, columnIndex) == CursorAt(i, t.columns)
      invariant t.groupSize == 0 ==> forall k :: 0 <= k < i ==> entries[k] == Blank
      invariant t.groupSize == 0 ==> pastes == []
      invariant t.groupSize != 0 ==> pastes == PastesOf(t, Spots(entries[..i], t.columns))
      invariant body == MapBody(entries[..i], t.columns)
    {
      var entry := entries[i];
      var at := Cursor(rowIndex, columnIndex);
      var next := Advance(at, t.columns);
      EntryStep(entries, i, t);
      var line := "";
      if entry != Blank {
        if t.groupSize == 0 {
          return Failure("ZeroDivisionError: integer modulo by zero");
        }
        var pos := Position(t, at).value;
        pastes := pastes + [Paste(entry, pos.0, pos.1)];
        line := MapLine(Spot(entry, at));
      }
      rowIndex := rowIndex + 1;
      var wrap := "";
      if rowIndex > t.columns - 1 {
        rowIndex := 0;
        columnIndex := columnIndex + 1;
        wrap := "\n";
      }
      assert Cursor(rowIndex, columnIndex) == next;
      assert line + wrap == EntryText(entry, at, t.columns);
      body := body + (line + wrap);
    }
    assert entries[..|entries|] == entries;
    r := Success(Page(PageFile(pageNumber), pastes, Header(pageNumber) + body + "\n"));
  }

  /** What one more entry adds to the sheet: the cursor advances, the map
      gets the entry's text, and a label (not a blank) gets one paste. */
  lemma EntryStep(entries: seq<string>, i: nat, t: Template)
    requires i < |entries|
    ensures CursorAt(i + 1, t.columns) == Advance(CursorAt(i, t.columns), t.columns)
    ensures MapBody(entries[..i + 1], t.columns) ==
            MapBody(entries[..i], t.columns) + EntryText(entries[i], CursorAt(i, t.columns), t.columns)
    ensures EntryText(entries[i], CursorAt(i, t.columns), t.columns) ==
            (if entries[i] != Blank then MapLine(Spot(entries[i], CursorAt(i, t.columns))) else "")
            + (if Wraps(CursorAt(i, t.columns), t.columns) then "\n" else "")
    ensures entries[i] == Blank ==> Spots(entries[..i + 1], t.columns) == Spots(entries[..i], t.columns)
    ensures entries[i] != Blank && t.groupSize != 0 ==>
              var pos := Position(t, CursorAt(i, t.columns)).value;
              PastesOf(t, Spots(entries[..i + 1], t.columns)) ==
              PastesOf(t, Spots(entries[..i], t.columns)) + [Paste(entries[i], pos.0, pos.1)]
  {
    TakeOneMore(entries, i);
    MapBodySnoc(entries[..i], entries[i], t.columns);
    SpotsSnoc(entries[..i], entries[i], t.columns);
    if entries[i] != Blank && t.groupSize != 0 {
      PastesSnoc(t, Spots(entries[..i], t.columns), Spot(entries[i], CursorAt(i, t.columns)));
    }
  }

  lemma PastesSnoc(t: Template, spots: seq<Spot>, s: Spot)
    requires t.groupSize != 0
    ensures PastesOf(t, spots + [s]) == PastesOf(t, spots) + [PasteOf(t, s)]
  {
    assert (spots + [s])[|spots|] == s;
    forall j | 0 <= j < |spots|
      ensures (spots + [s])[j] == spots[j]
    {
    }
  }

  /** Every sheet, drawn in turn and numbered from zero. */
  function Sheets(sheets: seq<seq<string>>, t: Template): seq<Page> {
    seq(|sheets|, n requires 0 <= n < |sheets| => SheetOf(n, sheets[n], t))
  }

  /** None of the first `n` sheets has a label on it. */
  ghost predicate AllBlankBefore(sheets: seq<seq<string>>, n: nat) {
    forall m :: 0 <= m < n && m < |sheets| ==> !HasLabel(sheets[m])
  }

  /** Draws the sheets in turn; a sheet that cannot be drawn ends the
      run. */
  method DrawSheets(sheets: seq<seq<string>>, t: Template) returns (r: Result<seq<Page>>)
    ensures r.Failure? <==> t.groupSize == 0 && exists n :: 0 <= n < |sheets| && HasLabel(sheets[n])
    ensures r.Success? ==> r.value == Sheets(sheets, t)
  {
    var pages: seq<Page> := [];
    for n := 0 to |sheets|
      invariant pages == Sheets(sheets, t)[..n]
      invariant t.groupSize == 0 ==> AllBlankBefore(sheets, n)
    {
      var page := CreatePage(n, sheets[n], t);
      if page.Failure? {
        assert HasLabel(sheets[n]);
        return Failure(page.error);
      }
      TakeOneMore(Sheets(sheets, t), n);
      pages := pages + [page.value];
    }
    if t.groupSize == 0 {
      assert forall m :: 0 <= m < |sheets| ==> !HasLabel(sheets[m]);
    }
    r := Success(pages);
  }

  // ---------------------------------------------------------------------
  // The QR codes and the whole run
  // ---------------------------------------------------------------------

  /** How many positional arguments `download_qr.download` takes: the data
      and the size. */
  const DownloadArity: nat := 2

  /** What Python raises for a call to `download` with the wrong number of
      positional arguments. */
  function ArityError(arguments: nat): string {
    if arguments > DownloadArity then
      "TypeError: download() takes 2 positional arguments but " + NatToString(arguments) + " were given"
    else "TypeError: download() missing a required positional argument"
  }

  /** The QR-code loop of `generate`: `download` is called, with `arguments`
      positional arguments, for each part whose upper-cased id does not
      mention FIDUCIAL; the first call Python rejects ends the run. The
      result lists the parts fetched, in order. */
  function FetchQrCodes(parts: seq<string>, arguments: nat): (r: Result<seq<string>>)
    ensures r.Failure? <==> arguments != DownloadArity && ToDownload(parts) != []
    ensures r.Success? ==> r.value == ToDownload(parts)
  {
    if parts == [] then Success([])
    else
      var p := parts[|parts| - 1];
      match FetchQrCodes(parts[..|parts| - 1], arguments)
      case Failure(e) => Failure(e)
      case Success(done) =>
        if Contains(Upper(p), "FIDUCIAL") then Success(done)
        else if arguments != DownloadArity then Failure(ArityError(arguments))
        else Success(done + [p])
  }

  /** `generate` once its QR codes are in place: the label list, after
      `startIndex` blanks, is cut into sheets of `rows * columns` entries
      and each sheet is drawn. */
  method DrawLabels(labels: seq<string>, startIndex: int, t: Template) returns (r: Result<seq<Page>>)
    ensures var sheets := Paginate(Padded(labels, startIndex), t.rows * t.columns);
            r.Failure? <==>
              || sheets.Failure?
              || (t.groupSize == 0 && exists n :: 0 <= n < |sheets.value| && HasLabel(sheets.value[n]))
    ensures r.Success? ==> r.value == Sheets(Paginate(Padded(labels, startIndex), t.rows * t.columns).value, t)
  {
    var sheets := Paginate(Padded(labels, startIndex), t.rows * t.columns);
    if sheets.Failure? {
      return Failure(sheets.error);
    }
    r := DrawSheets(sheets.value, t);
  }

  /** `generate` as written: `download` is called with the part, the label
      size and the label border, three arguments for a function of two, so
      the run fails as soon as one part is not a fiducial. */
  method GenerateAsWritten(partList: seq<string>, labels: seq<string>, startIndex: int, t: Template) returns (r: Result<seq<Page>>)
    ensures ToDownload(partList) != [] ==> r.Failure?
    ensures ToDownload(partList) == [] ==>
              var sheets := Paginate(Padded(labels, startIndex), t.rows * t.columns);
              r.Failure? <==>
                || sheets.Failure?
                || (t.groupSize == 0 && exists n :: 0 <= n < |sheets.value| && HasLabel(sheets.value[n]))
  {
    var fetched := FetchQrCodes(partList, 3);
    if fetched.Failure? {
      return Failure(fetched.error);
    }
    r := DrawLabels(labels, startIndex, t);
  }

  /** `generate` with `download(part, labelSize)`: every part that is not a
      fiducial gets its QR code, in list order and without failing, and the
      run fails exactly when pagination or a sheet fails. */
  method Generate(partList: seq<string>, labels: seq<string>, startIndex: int, t: Template)
    returns (fetched: Result<seq<string>>, r: Result<seq<Page>>)
    ensures fetched == Success(ToDownload(partList))
    ensures var sheets := Paginate(Padded(labels, startIndex), t.rows * t.columns);
            r.Failure? <==>
              || sheets.Failure?
              || (t.groupSize == 0 && exists n :: 0 <= n < |sheets.value| && HasLabel(sheets.value[n]))
    ensures r.Success? ==> r.value == Sheets(Paginate(Padded(labels, startIndex), t.rows * t.columns).value, t)
  {
    fetched := FetchQrCodes(partList, DownloadArity);
    r := DrawLabels(labels, startIndex, t);
  }

  /** One ordinary part is enough: the three-argument call fails where the
      two-argument call fetches the part's code. */
  lemma DownloadCallRejected()
    ensures FetchQrCodes(["C1"], 3) == Failure(ArityError(3))
    ensures FetchQrCodes(["C1"], DownloadArity) == Success(["C1"])
  {
    assert ["C1"][..0] == [];
    assert !Contains(Upper("C1"), "FIDUCIAL");
    assert FetchQrCodes([], DownloadArity) == Success([]);
    assert [] + ["C1"] == ["C1"];
  }
}
