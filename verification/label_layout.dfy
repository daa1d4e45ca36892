/** What the two label-sheet generators share: the cursor that walks the
    slots of a sheet, the blank slots that offset the first label, the split
    into sheets, the part id recovered from a label file's path, and the
    part lists they are fed. */
module LabelLayout {
  import opened Wrappers
  import opened Text
  import opened Seqs
  import opened PyArith

  // ---------------------------------------------------------------------
  // The cursor
  // ---------------------------------------------------------------------

  /** A blank slot: it takes a place on the sheet but shows nothing. */
  const Blank: string := " "

  /** `rowIndex` counts across a sheet row, `columnIndex` counts rows. */
  datatype Cursor = Cursor(rowIndex: nat, columnIndex: nat)

  /** One step: across, wrapping to the start of the next row once
      `rowIndex` would pass `columns - 1`. */
  function Advance(c: Cursor, columns: int): (d: Cursor)
    ensures Wraps(c, columns) ==> d == Cursor(0, c.columnIndex + 1)
    ensures !Wraps(c, columns) ==> d == Cursor(c.rowIndex + 1, c.columnIndex)
  {
    if c.rowIndex + 1 > columns - 1 then Cursor(0, c.columnIndex + 1)
    else Cursor(c.rowIndex + 1, c.columnIndex)
  }

  predicate Wraps(c: Cursor, columns: int) {
    c.rowIndex + 1 > columns - 1
  }

  /** The cursor for the `k`-th entry of a sheet. */
  function CursorAt(k: nat, columns: int): Cursor {
    if k == 0 then Cursor(0, 0) else Advance(CursorAt(k - 1, columns), columns)
  }

  lemma MulAtLeast(d: int, b: nat)
    requires d >= 1
    ensures d * b >= b
  {
  }

  lemma DivModUnique(a: nat, b: nat, q: nat, r: nat)
    requires b > 0 && r < b && a == q * b + r
    ensures a / b == q && a % b == r
  {
    var q0 := a / b;
    var r0 := a % b;
    assert (q - q0) * b == r0 - r;
    if q > q0 {
      MulAtLeast(q - q0, b);
    } else if q < q0 {
      MulAtLeast(q0 - q, b);
    }
  }

  /** The cursor in closed form: entry `k` sits at `(k mod columns,
      k div columns)`, so `rowIndex` stays below `columns`. With no column
      at all every entry starts a new row. */
  lemma {:induction false} CursorClosedForm(k: nat, columns: int)
    ensures columns >= 1 ==> CursorAt(k, columns) == Cursor(k % columns, k / columns)
    ensures columns < 1 ==> CursorAt(k, columns) == Cursor(0, k)
  {
    if k > 0 {
      CursorClosedForm(k - 1, columns);
      if columns >= 1 {
        ClosedFormStep(k, columns);
      }
    }
  }

  lemma ClosedFormStep(k: nat, columns: int)
    requires k >= 1 && columns >= 1
    ensures Advance(Cursor((k - 1) % columns, (k - 1) / columns), columns) == Cursor(k % columns, k / columns)
  {
    var q := (k - 1) / columns;
    var r := (k - 1) % columns;
    assert k - 1 == q * columns + r;
    if r + 1 > columns - 1 {
      assert k == (q + 1) * columns + 0 by {
        assert (q + 1) * columns == q * columns + columns;
      }
      DivModUnique(k, columns, q + 1, 0);
    } else {
      DivModUnique(k, columns, q, r + 1);
    }
  }

  /** Every sheet holds at most `rows * columns` entries, so every entry
      lands on one of the sheet's `rows` rows. */
  lemma CursorWithinSheet(k: nat, rows: int, columns: int)
    requires columns >= 1 && k < rows * columns
    ensures CursorAt(k, columns).rowIndex < columns
    ensures CursorAt(k, columns).columnIndex < rows
  {
    CursorClosedForm(k, columns);
  }

  // ---------------------------------------------------------------------
  // What a sheet shows
  // ---------------------------------------------------------------------

  /** A label drawn on a sheet, with the cursor it was drawn at. */
  datatype Spot = Spot(path: string, at: Cursor)

  /** The labels a sheet draws: every entry but the blanks, each at the
      cursor of its own position. */
  function Spots(entries: seq<string>, columns: int): (r: seq<Spot>)
    ensures |r| <= |entries|
    ensures forall j :: 0 <= j < |r| ==> r[j].path != Blank
  {
    if entries == [] then []
    else
      var k := |entries| - 1;
      Spots(entries[..k], columns) + (if entries[k] != Blank then [Spot(entries[k], CursorAt(k, columns))] else [])
  }

  /** Blank slots in front move every label along by as many slots and
      otherwise change nothing. */
  lemma {:induction false} SpotsAfterBlanks(n: nat, labels: seq<string>, columns: int)
    requires forall j :: 0 <= j < |labels| ==> labels[j] != Blank
    ensures |Spots(Blanks(n) + labels, columns)| == |labels|
    ensures forall j :: 0 <= j < |labels| ==>
              Spots(Blanks(n) + labels, columns)[j] == Spot(labels[j], CursorAt(n + j, columns))
  {
    if labels == [] {
      assert Blanks(n) + labels == Blanks(n);
      NoSpotsOnBlanks(n, columns);
    } else {
      var k := |labels| - 1;
      var init := labels[..k];
      var front := Blanks(n) + init;
      assert Blanks(n) + labels == front + [labels[k]];
      SpotsSnoc(front, labels[k], columns);
      SpotsAfterBlanks(n, init, columns);
      var after := Spots(front + [labels[k]], columns);
      assert |front| == n + k;
      assert after[k] == Spot(labels[k], CursorAt(n + k, columns));
      forall j | 0 <= j < |labels|
        ensures after[j] == Spot(labels[j], CursorAt(n + j, columns))
      {
        if j < k {
          assert init[j] == labels[j];
        }
      }
    }
  }

  lemma SpotsSnoc(entries: seq<string>, x: string, columns: int)
    ensures Spots(entries + [x], columns) ==
            Spots(entries, columns) + (if x != Blank then [Spot(x, CursorAt(|entries|, columns))] else [])
  {
    assert (entries + [x])[..|entries|] == entries;
  }

  /** On a sheet of `rows * columns` slots every label is drawn inside the
      grid. */
  lemma {:induction false} SpotsWithinSheet(entries: seq<string>, rows: int, columns: int)
    requires columns >= 1 && |entries| <= rows * columns
    ensures forall j :: 0 <= j < |Spots(entries, columns)| ==>
              Spots(entries, columns)[j].at.rowIndex < columns &&
              Spots(entries, columns)[j].at.columnIndex < rows
  {
    if entries != [] {
      var k := |entries| - 1;
      assert entries == entries[..k] + [entries[k]];
      SpotsSnoc(entries[..k], entries[k], columns);
      SpotsWithinSheet(entries[..k], rows, columns);
      CursorWithinSheet(k, rows, columns);
    }
  }

  lemma TakeOneMore<T>(s: seq<T>, i: nat)
    requires i < |s|
    ensures s[..i + 1] == s[..i] + [s[i]]
  {
  }

  lemma {:induction false} NoSpotsOnBlanks(n: nat, columns: int)
    ensures Spots(Blanks(n), columns) == []
  {
    if n > 0 {
      assert Blanks(n)[..n - 1] == Blanks(n - 1);
      NoSpotsOnBlanks(n - 1, columns);
    }
  }

  // ---------------------------------------------------------------------
  // Sheets
  // ---------------------------------------------------------------------

  /** `[' '] * n`: no blanks for a count below one. */
  function Blanks(n: int): (r: seq<string>)
    ensures |r| == if n > 0 then n else 0
    ensures forall j :: 0 <= j < |r| ==> r[j] == Blank
  {
    if n <= 0 then [] else Blanks(n - 1) + [Blank]
  }

  /** The label list with `startIndex` blank slots in front. */
  function Padded(labels: seq<string>, startIndex: int): (r: seq<string>)
    ensures |r| == |Blanks(startIndex)| + |labels|
    ensures forall j :: 0 <= j < |Blanks(startIndex)| ==> r[j] == Blank
    ensures forall j :: 0 <= j < |labels| ==> r[|Blanks(startIndex)| + j] == labels[j]
  {
    Blanks(startIndex) + labels
  }

  /** `math.ceil(len(entries) / perSheet)` sheets, each taking the first
      `perSheet` entries still left. A zero per-sheet count fails on the
      division; a negative one makes no sheets. */
  function Paginate(entries: seq<string>, perSheet: int): (r: Result<seq<seq<string>>>)
    ensures r.Failure? <==> perSheet == 0
    ensures r.Success? && perSheet < 0 ==> r.value == []
    ensures r.Success? && perSheet > 0 ==>
              && |r.value| == CeilDiv(|entries|, perSheet)
              && (forall page :: page in r.value ==> 0 < |page| <= perSheet)
              && (forall i :: 0 <= i < |r.value| - 1 ==> |r.value[i]| == perSheet)
  {
    if perSheet == 0 then Failure("ZeroDivisionError: division by zero")
    else if perSheet < 0 then Success([])
    else Success(Chunks(entries, perSheet))
  }

  /** The sheets, laid end to end, are the padded label list again, and
      sheet `i` holds entries `i * perSheet` up to the next sheet's start. */
  lemma PagesCoverEntries(entries: seq<string>, perSheet: int)
    requires perSheet > 0
    ensures Paginate(entries, perSheet).Success?
    ensures Flatten(Paginate(entries, perSheet).value) == entries
    ensures var pages := Paginate(entries, perSheet).value;
            forall i :: 0 <= i < |pages| ==>
              Offset(i, perSheet) < |entries| && pages[i] == entries[Offset(i, perSheet)..SliceEnd(i, perSheet, |entries|)]
  {
    ChunksFlatten(entries, perSheet);
    ChunksAreSlices(entries, perSheet);
  }

  // ---------------------------------------------------------------------
  // Label files and part ids
  // ---------------------------------------------------------------------

  /** `os.path.basename`: what follows the last `/`. */
  function Basename(path: string): (r: string)
    ensures '/' !in r
    ensures |r| <= |path| && r == path[|path| - |r|..]
  {
    if path == [] then []
    else if path[|path| - 1] == '/' then []
    else Basename(path[..|path| - 1]) + [path[|path| - 1]]
  }

  lemma {:induction false} BasenameOfJoin(dir: string, name: string)
    requires '/' !in name
    ensures Basename(dir + "/" + name) == name
  {
    if name != [] {
      var k := |name| - 1;
      assert (dir + "/" + name)[..|dir| + 1 + k] == dir + "/" + name[..k];
      BasenameOfJoin(dir, name[..k]);
    }
  }

  /** `s[:stop]` with Python's reading of a negative `stop`: a prefix of `s`
      whose length is `stop` (counted from the end when negative) clamped
      to `0..len(s)`. */
  function SliceTo(s: string, stop: int): (r: string)
    ensures |r| == Clamp(if stop < 0 then |s| + stop else stop, |s|)
    ensures r <= s
    ensures 0 <= stop <= |s| ==> r == s[..stop]
    ensures stop > |s| ==> r == s
    ensures stop < 0 ==> r == s[..if |s| + stop > 0 then |s| + stop else 0]
  {
    var k := if stop < 0 then |s| + stop else stop;
    if k <= 0 then [] else if k >= |s| then s else s[..k]
  }

  /** `x` clamped to `0..hi`. */
  function Clamp(x: int, hi: nat): nat {
    if x < 0 then 0 else if x > hi then hi else x
  }

  /** The part id a label file stands for: its base name without the last
      four characters. */
  function LabelPartId(path: string): string {
    var name := Basename(path);
    SliceTo(name, |name| - 4)
  }

  /** A label saved as `<dir>/<id>.png` gives back `id`. */
  lemma LabelPartIdOfFile(dir: string, id: string)
    requires '/' !in id
    ensures LabelPartId(dir + "/" + id + ".png") == id
  {
    assert dir + "/" + id + ".png" == dir + "/" + (id + ".png");
    BasenameOfJoin(dir, id + ".png");
    assert (id + ".png")[..|id|] == id;
  }

  /** The label-map line for a drawn label: its 1-based position, each
      number at least two digits wide, then its part id. */
  function MapLine(s: Spot): string {
    TwoDigit(s.at.rowIndex + 1) + "," + TwoDigit(s.at.columnIndex + 1) + " = " + LabelPartId(s.path) + "\n"
  }

  /** The map line of a label saved as `<dir>/<id>.png` reads back as its
      1-based position, two digits each, and its part id. */
  lemma MapLineReadsBack(dir: string, id: string, at: Cursor)
    requires '/' !in id
    requires at.rowIndex < 99 && at.columnIndex < 99
    ensures var line := MapLine(Spot(dir + "/" + id + ".png", at));
            && |line| == 9 + |id|
            && AllDigits(line[..2]) && ParseNat(line[..2]) == at.rowIndex + 1
            && line[2] == ','
            && AllDigits(line[3..5]) && ParseNat(line[3..5]) == at.columnIndex + 1
            && line[5..8] == " = "
            && line[8..8 + |id|] == id
            && line[8 + |id|] == '\n'
  {
    LabelPartIdOfFile(dir, id);
    MapLineOfLabel(dir + "/" + id + ".png", id, at);
  }

  /** The fields of the map line of any label whose file stands for `id`. */
  lemma MapLineOfLabel(path: string, id: string, at: Cursor)
    requires LabelPartId(path) == id
    requires at.rowIndex < 99 && at.columnIndex < 99
    ensures var line := MapLine(Spot(path, at));
            && |line| == 9 + |id|
            && AllDigits(line[..2]) && ParseNat(line[..2]) == at.rowIndex + 1
            && line[2] == ','
            && AllDigits(line[3..5]) && ParseNat(line[3..5]) == at.columnIndex + 1
            && line[5..8] == " = "
            && line[8..8 + |id|] == id
            && line[8 + |id|] == '\n'
  {
    var a := TwoDigit(at.rowIndex + 1);
    var b := TwoDigit(at.columnIndex + 1);
    var line := MapLine(Spot(path, at));
    assert line == a + "," + b + " = " + id + "\n";
    MapLineFields(a, b, id, line);
  }

  lemma MapLineFields(a: string, b: string, id: string, line: string)
    requires |a| == 2 && |b| == 2
    requires line == a + "," + b + " = " + id + "\n"
    ensures |line| == 9 + |id|
    ensures line[..2] == a && line[2] == ',' && line[3..5] == b
    ensures line[5..8] == " = " && line[8..8 + |id|] == id && line[8 + |id|] == '\n'
  {
  }

  // ---------------------------------------------------------------------
  // The part lists
  // ---------------------------------------------------------------------

  /** A part a QR code is wanted for: its upper-cased id does not mention
      FIDUCIAL. */
  predicate NotFiducial(p: string) {
    !Contains(Upper(p), "FIDUCIAL")
  }

  /** The parts a QR code is fetched for: all but those whose upper-cased id
      mentions FIDUCIAL, in the given order. */
  function ToDownload(parts: seq<string>): (r: seq<string>)
    ensures forall p :: p in r <==> p in parts && !Contains(Upper(p), "FIDUCIAL")
    ensures |r| <= |parts|
  {
    Keep(parts, NotFiducial)
  }

  /** Read from the front, the list keeps a part exactly when it is not a
      fiducial, so the parts are fetched in the order given. */
  lemma ToDownloadCons(p: string, parts: seq<string>)
    ensures ToDownload([p] + parts) == (if NotFiducial(p) then [p] else []) + ToDownload(parts)
  {
    KeepAppend([p], parts, NotFiducial);
    assert [p][..0] == [];
  }

  /** `/` and `\` become `_`; every other character is kept. */
  function SanitizeChar(c: char): char {
    if c == '/' || c == '\\' then '_' else c
  }

  /** `part_id.replace('/', '_').replace('\\', '_')`. */
  function Sanitize(id: string): (r: string)
    ensures |r| == |id|
    ensures forall i :: 0 <= i < |r| ==> r[i] == SanitizeChar(id[i])
    ensures '/' !in r && '\\' !in r
  {
    seq(|id|, i requires 0 <= i < |id| => SanitizeChar(id[i]))
  }

  /** Sanitising twice changes nothing more. */
  lemma SanitizeIdempotent(id: string)
    ensures Sanitize(Sanitize(id)) == Sanitize(id)
  {
  }

  /** An id without either character is kept as it is, which is why the
      script only replaces (and warns) when one is present. */
  lemma SanitizeKeepsCleanIds(id: string)
    ensures Sanitize(id) == id <==> '/' !in id && '\\' !in id
  {
    if '/' in id || '\\' in id {
      var i :| 0 <= i < |id| && (id[i] == '/' || id[i] == '\\');
      assert Sanitize(id)[i] == '_';
    }
  }

  /** The part ids read from `parts.xml` with `--fetch`. */
  function FetchedParts(ids: seq<string>): (r: seq<string>)
    ensures |r| == |ids|
    ensures forall i :: 0 <= i < |r| ==> r[i] == Sanitize(ids[i])
  {
    seq(|ids|, i requires 0 <= i < |ids| => Sanitize(ids[i]))
  }

  /** `parse_board_xml`: the placements' part ids, each once, in the order
      they first occur (what `list(dict.fromkeys(...))` gives). */
  method UniqueParts(ids: seq<string>) returns (r: seq<string>)
    ensures r == Missing({}, ids)
    ensures forall x :: x in r <==> x in ids
    ensures Distinct(r)
    ensures InFirstOccurrenceOrder(r, ids)
  {
    r := [];
    for i := 0 to |ids|
      invariant r == Missing({}, ids[..i])
    {
      assert ids[..i + 1] == ids[..i] + [ids[i]];
      MissingSnoc({}, ids[..i], ids[i]);
      if ids[i] !in r {
        r := r + [ids[i]];
      }
    }
    assert ids[..|ids|] == ids;
  }
}
