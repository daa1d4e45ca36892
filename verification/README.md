# FeederUtils in Dafny

A model of the data-handling core of FeederUtils, the tool set that connects
KiCad designs, OpenPnP machine configurations and 0816 feeder hardware. It
covers three parts.

- **The KiCad to OpenPnP converters.** The current one is
  `kicad_tools/kicad-to-openpnp-standalone.py`; the older one sits at the
  repository root.
  - Each footprint of a board is screened.
  - Its package name and part id are derived.
  - Its pads are recorded.
  - The part table, the package table and the placement list are built.
  - `parts.xml` and `packages.xml` get the parts and packages they lack.
  - The `board.xml` placements are produced.
  - The current converter also loads the lookup tables from `parts.json` and
    prints a per-part summary.
- **The QR label-sheet generators.** The current one is
  `label_maker/generate_labels.py`; the older one is at the root. Label files
  are laid out on sheets of `rows * columns` slots, after `startIndex` blank
  slots, and the label map text is written. The label maker also reads part
  lists: board placements de-duplicated, or `parts.xml` ids sanitised with
  `--fetch`.
- **The OpenPnP feeder set-up script** `openpnp/create-feeders.py`. It finds or
  creates the G-code driver and its actuators, sets the driver's commands,
  creates slotted or plain auto feeders, and fills the default feeder bank.

Modules:

- `OpenPnp` holds the records and XML elements shared by both converters.
- `PartsJson` loads `parts.json`.
- `KicadImport` and `LegacyImport` are the two converters.
- `LabelLayout` is shared by both label generators; `LabelSheet` and
  `LegacySheet` are the generators themselves.
- `Feeders` is the feeder script.
- `Wrappers`, `Text`, `Seqs`, `PyArith` and `OrderedDict` are support modules.
  - Python dictionaries keep insertion order, and both converters write
    elements in dictionary order. `OrderedDict.ODict` therefore models a dict
    as its key list plus a map.
  - `PyArith` models Python's floor division, modulo and `math.ceil` of a
    quotient.
- Each XML document is modelled as the list of its id-carrying elements. Each
  OpenPnP machine object is a record.

Behaviours the model exposes:

- **Pad renaming can overwrite a pad.** The current converter renames a
  repeated pad name to `<name>_<count>`. That new name can collide with a pad
  that already exists, and then it overwrites that pad
  (`KicadImport.RenamedPadCanOverwrite`).
- **The converters disagree on which footprint wins.** When several footprints
  share a part id or a package, the current converter keeps the first one. The
  older converter overwrites with the last one.
- **The label maker calls `download` with one argument too many.** It passes
  the part, the label size and the label border to a function of two
  parameters, so any part list with a non-fiducial part stops the run
  (`LabelSheet.GenerateAsWritten`, `LabelSheet.DownloadCallRejected`). The
  model's `LabelSheet.Generate` makes the intended two-argument call.
- **The feeder script's slot lookup needs a decorated name.** Its lookup only
  matches names of the form `SLOT-<n> (…`. A slot it has just created is named
  exactly `SLOT-<n>`, so under the model the lookup never matches it
  (`Feeders.SlotNameIsNoLookupMatch`, `Feeders.FreshSlotIsNotFound`).

## Model

| member | source | states |
|---|---|---|
| PyArith.FloorDiv | label_maker/generate_labels.py:92 | Python's `math.floor(a / b)` for integers: the quotient rounded toward minus infinity, for either sign of divisor |
| PyArith.Mod | label_maker/generate_labels.py:91 | Python's `%`: a remainder with the sign of the divisor that, with the floor quotient, rebuilds the dividend |
| PyArith.CeilDiv | label_maker/generate_labels.py:152 | `math.ceil(a / b)`: the least number of `b`-sized groups that holds `a` items |
| PyArith.CeilDivUnique | label_maker/generate_labels.py:152 | any count of groups with that bracketing property equals the ceiling quotient |
| PyArith.FloorDivUnique | label_maker/generate_labels.py:91-92 | Python's floor quotient and remainder are the only pair with `a == q * b + m` and the remainder between zero and the divisor on the divisor's side, for either sign of divisor |
| Text.Upper | kicad_tools/kicad-to-openpnp-standalone.py:258 | ASCII `str.upper()`: same length, `a`–`z` upper-cased, every other character kept, no ASCII lower-case letter left |
| Text.UpperIdempotent | kicad_tools/kicad-to-openpnp-standalone.py:301-303 | upper-casing an upper-cased name changes nothing more |
| Text.UpperOfUpperCase | kicad_tools/kicad-to-openpnp-standalone.py:301-303 | a name with no lower-case letter is its own upper-case form |
| Text.ParseNatToString | label_maker/generate_labels.py:81 | `str(n)` of a natural number reads back as `n` |
| Text.NatToStringInjective | openpnp/create-feeders.py:135 | distinct numbers render as distinct decimal strings |
| Text.TwoDigit | label_maker/generate_labels.py:103 | the `:02` format: decimal digits reading back as the number, exactly two below 100, no leading zero when longer, and the plain `str(n)` from 10 on |
| Text.LexLeTotal | kicad_tools/kicad-to-openpnp-standalone.py:509 | string order compares any two strings |
| Text.LexLeTransitive | kicad_tools/kicad-to-openpnp-standalone.py:509 | string order is transitive |
| Text.LexLeAntisymmetric | kicad_tools/kicad-to-openpnp-standalone.py:509 | two strings each ordered before the other are equal |
| Text.InsertSorted | kicad_tools/kicad-to-openpnp-standalone.py:313-314 | appending a reference to a sorted list and sorting gives a sorted permutation of the list plus the reference |
| Text.SortStrings | kicad_tools/kicad-to-openpnp-standalone.py:509 | `sorted(...)` of strings: a sorted permutation of its input |
| Seqs.FirstIndex | label_maker/generate_labels.py:175 | the position of the first occurrence of a present element |
| Seqs.Missing | label_maker/generate_labels.py:175 | the wanted names not already present, each once, in the order of their first occurrence |
| Seqs.MissingWhenPresent | kicad_tools/kicad-to-openpnp-standalone.py:126 | when every wanted name is present nothing is missing |
| Seqs.MissingSnoc | kicad_tools/kicad-to-openpnp-standalone.py:124-128 | one more wanted name is added exactly when it is neither present nor wanted earlier |
| Seqs.Chunks | kicad_tools/kicad-to-openpnp-standalone.py:513-514 | as many slices as the ceiling quotient, none empty, every one but the last exactly `n` entries long |
| Seqs.ChunksFlatten | kicad_tools/kicad-to-openpnp-standalone.py:513-514 | the slices laid end to end give the list back |
| Seqs.ChunksAreSlices | kicad_tools/kicad-to-openpnp-standalone.py:513-514 | slice `i` is `s[i*n : i*n + n]`, cut at the end of the list |
| Seqs.Keep | label_maker/generate_labels.py:124-125 | a filter: an element is kept exactly when it is in the list and accepted, and never more elements than the list has |
| Seqs.KeepAppend | label_maker/generate_labels.py:124-126 | filtering a concatenation filters each part and concatenates, so the filter keeps the list's order |
| OrderedDict.Empty | kicad_tools/kicad-to-openpnp-standalone.py:245-246 | a new dict has no keys |
| OrderedDict.Put | kicad_tools/kicad-to-openpnp-standalone.py:306 | `d[k] = v`: the map gets the binding, a new key goes to the end of the order, and an existing key keeps its place |
| OrderedDict.LenIsCardinality | kicad_tools/kicad-to-openpnp-standalone.py:356 | `len(d)` counts the distinct keys |
| OpenPnp.Cased | kicad_tools/kicad-to-openpnp-standalone.py:301-303 | names keep their length and are upper-cased character by character unless mixed case is asked for |
| OpenPnp.EmitPad | kicad_tools/kicad-to-openpnp-standalone.py:187-228 | a circular pad is fully rounded; a circular pad named like a fiducial is at the origin; other pads keep their offset; the size is kept |
| OpenPnp.UpdateParts | kicad_tools/kicad-to-openpnp-standalone.py:119-150 | only parts the document lacks are appended, each once and in table order; existing elements are untouched; afterwards every part is present; the file is rewritten exactly when not read-only and something was added |
| OpenPnp.UpdatePartsIdempotent | kicad_tools/kicad-to-openpnp-standalone.py:124-128 | a second update with the same parts adds nothing and does not rewrite the file |
| OpenPnp.NewPackage | kicad_tools/kicad-to-openpnp-standalone.py:164-228 | a new `<package>` carries its body size and nozzle tips, and one `<pad>` per recorded pad in recording order, each under its recorded name with its width and height, rounded exactly when circular, the names pairwise distinct |
| OpenPnp.UpdatePackages | kicad_tools/kicad-to-openpnp-standalone.py:152-242 | only packages the document lacks are appended, in table order; existing elements are untouched; every package ends up present; the file is rewritten exactly when not read-only and something was added |
| OpenPnp.Locate | kicad_tools/kicad-to-openpnp-standalone.py:98-114 | a placement keeps its id, side, part and type; its location is the rounded offset from the board origin made non-negative |
| OpenPnp.BoardCoordinatesNonNegative | kicad_tools/kicad-to-openpnp-standalone.py:110-111 | no coordinate written to the board is negative |
| PartsJson.AliasKeys | kicad_tools/kicad-to-openpnp-standalone.py:433-438 | an entry's alias keys: none without `alias`, one for a string, and one per element of a list, all upper-cased |
| PartsJson.MapAliases | kicad_tools/kicad-to-openpnp-standalone.py:433-438 | each alias key maps to the entry's id; other keys keep their mapping |
| PartsJson.LoadEntry | kicad_tools/kicad-to-openpnp-standalone.py:432-458 | one entry: aliases map to its id; the height is recorded only for a truthy `z_mm`; the size only when both `x_mm` and `y_mm` are truthy, with x as height and y as width; ignore and package-as-part-id lists grow only when their flag is truthy |
| PartsJson.Load | kicad_tools/kicad-to-openpnp-standalone.py:432-458 | after the whole file a footprint name is aliased exactly when some entry lists it; the ignore and package-as-part-id lists hold only listed aliases |
| PartsJson.AliasLastWins | kicad_tools/kicad-to-openpnp-standalone.py:435-438 | an alias maps to the id of the last entry that lists it |
| PartsJson.SizeLastWins | kicad_tools/kicad-to-openpnp-standalone.py:442-446 | an id's body size comes from its last entry with both sizes truthy |
| PartsJson.SizesOnlyFromBoth | kicad_tools/kicad-to-openpnp-standalone.py:442 | an id has a body size only if some entry of that id gives both sizes |
| PartsJson.HeightLastWins | kicad_tools/kicad-to-openpnp-standalone.py:439-440 | an id's height comes from its last entry with a truthy `z_mm` |
| PartsJson.HeightsOnlyFromZ | kicad_tools/kicad-to-openpnp-standalone.py:439 | an id has a height only if some entry of that id gives `z_mm` |
| PartsJson.IgnoredComplete | kicad_tools/kicad-to-openpnp-standalone.py:447-452 | every alias of an entry with a truthy `ignore` is on the ignore list |
| PartsJson.IgnoredSound | kicad_tools/kicad-to-openpnp-standalone.py:447-452 | only such aliases are on the ignore list |
| PartsJson.PackageAsPartIdComplete | kicad_tools/kicad-to-openpnp-standalone.py:453-458 | every alias of an entry with a truthy `use-package-as-part-id` is on that list |
| PartsJson.PackageAsPartIdSound | kicad_tools/kicad-to-openpnp-standalone.py:453-458 | only such aliases are on that list |
| PartsJson.LoadedKeysUpperCase | kicad_tools/kicad-to-openpnp-standalone.py:432-458 | every loaded alias, ignore entry and package-as-part-id entry is upper case |
| KicadImport.Screen | kicad_tools/kicad-to-openpnp-standalone.py:252-272 | a footprint is processed exactly when it has an SMD pad, is not ignored, is not an excluded test point, is not on an excluded layer and is not DNP |
| KicadImport.PartIdOf | kicad_tools/kicad-to-openpnp-standalone.py:289-303 | the part id ladder: `~` gives the package; then the value if asked; then the package for package-as-part-id footprints; then the package for fiducials; else package_value; upper case unless mixed case |
| KicadImport.AddPad | kicad_tools/kicad-to-openpnp-standalone.py:349-400 | off-copper pads are not recorded; a repeated name is renamed `<name>_<count>` unless duplicates are discarded, in which case it is overwritten |
| KicadImport.PadTableFromCopperPads | kicad_tools/kicad-to-openpnp-standalone.py:360 | a package records at most one entry per copper pad, and each entry is the geometry of one of its copper pads |
| KicadImport.PadTableDistinctNames | kicad_tools/kicad-to-openpnp-standalone.py:334-400 | with distinct pad names the table holds exactly the copper pads under their names, each with its geometry |
| KicadImport.PadTableDiscardKeepsLast | kicad_tools/kicad-to-openpnp-standalone.py:353-358 | when duplicates are discarded the last copper pad of a name wins |
| KicadImport.RenamedPadCanOverwrite | kicad_tools/kicad-to-openpnp-standalone.py:353-358 | pads `1`, `1_2`, `1` leave two entries: the third pad's rename overwrites the second pad |
| KicadImport.ThirdPadRenamed | kicad_tools/kicad-to-openpnp-standalone.py:356 | the third pad is stored under `1_2` |
| KicadImport.TwoPads | kicad_tools/kicad-to-openpnp-standalone.py:334-400 | two distinct pads are recorded in order |
| KicadImport.Tally | kicad_tools/kicad-to-openpnp-standalone.py:305-314 | a new part gets its package, count 1 and its reference; a known part keeps its package, counts one more and adds the reference; references stay sorted; other parts are unchanged; insertion order is kept |
| KicadImport.Adopt | kicad_tools/kicad-to-openpnp-standalone.py:327-334 | a package seen before keeps its pads; a new one is recorded from this footprint's pads and goes to the end |
| KicadImport.Identify | kicad_tools/kicad-to-openpnp-standalone.py:244-402 | one placement per processed footprint, in board order; the part table holds the placed part ids and the package table the used packages, each once in order of first use; each part's count is its number of references, which are sorted and exactly those placed with that id |
| KicadImport.PartPackageFromFirst | kicad_tools/kicad-to-openpnp-standalone.py:305-310 | a part's package is the one of its first footprint |
| KicadImport.PackagePadsFromFirst | kicad_tools/kicad-to-openpnp-standalone.py:327-335 | a package's pads are recorded from its first footprint |
| KicadImport.SyncParts | kicad_tools/kicad-to-openpnp-standalone.py:119-150 | missing parts are appended in part-table order, each with its package and height; the file is rewritten exactly when not read-only and something was added |
| KicadImport.SyncPackages | kicad_tools/kicad-to-openpnp-standalone.py:152-242 | missing packages are appended in package-table order with the size, nozzle tips and pads; the file is rewritten exactly when not read-only and something was added |
| KicadImport.RotationAttr | kicad_tools/kicad-to-openpnp-standalone.py:89 | the board rotation is written `0.0` exactly when it is zero |
| KicadImport.Board | kicad_tools/kicad-to-openpnp-standalone.py:76-117 | one placement element per placement, in order, each the placement located on the board: same id, side, part, type and rotation, position `abs(round(p - origin))`, never negative; the dimensions are the rounded board size |
| KicadImport.PartRowsCoverRefs | kicad_tools/kicad-to-openpnp-standalone.py:509-518 | a part's summary lines list all its references in order, five on every line but the last; only the first line names the part and its count |
| KicadImport.PartRowsHeads | kicad_tools/kicad-to-openpnp-standalone.py:509-518 | a part's lines name it once, first, with its count, at most five references per line |
| KicadImport.Summary | kicad_tools/kicad-to-openpnp-standalone.py:509-518 | the summary is the parts' blocks of lines in sorted part order; the block of each part names it with its count on its first line only and carries exactly that part's references, in order, at most five per line |
| KicadImport.BlocksCoverRefs | kicad_tools/kicad-to-openpnp-standalone.py:509-518 | for any order of known part ids, every part's block of summary lines is non-empty, names that part with its count on its first line only, and carries exactly its references |
| LegacyImport.Processed | kicad-to-openpnp-standalone.py:370-376 | the older converter processes a footprint exactly when its type name says SMD and its layer is not excluded |
| LegacyImport.PartIdOf | kicad-to-openpnp-standalone.py:393-401 | the older part id ladder: the value if asked; the package for fiducials; else package_value; `~` is not special |
| LegacyImport.Identify | kicad-to-openpnp-standalone.py:363-474 | one placement per processed footprint, in board order; the part table holds the placed part ids and the package table the used packages, each once in order of first use |
| LegacyImport.PartPackageFromLastFootprint | kicad-to-openpnp-standalone.py:403 | a part's package is the one of its last footprint |
| LegacyImport.PackagePadsFromLastFootprint | kicad-to-openpnp-standalone.py:413-472 | a package's pads come from its last footprint, repeated pad names overwriting |
| LegacyImport.PartOrder | kicad-to-openpnp-standalone.py:403 | parts keep the order of their first placement |
| LegacyImport.PackageOrder | kicad-to-openpnp-standalone.py:413 | packages keep the order of their first footprint |
| LegacyImport.SyncParts | kicad-to-openpnp-standalone.py:247-273 | missing parts are appended with heights from the built-in table; the file is rewritten exactly when not read-only and something was added |
| LegacyImport.SyncPackages | kicad-to-openpnp-standalone.py:275-361 | without `--nozzle` the update fails exactly when a package is missing; otherwise missing packages are appended with built-in sizes |
| LegacyImport.Board | kicad-to-openpnp-standalone.py:203-245 | the board rotation is always `0.0`; one element per placement, in order, each the placement located on the board: same id, side, part and type, position `abs(round(p - origin))`, never negative |
| LegacyImport.Write | kicad-to-openpnp-standalone.py:519-521 | for an identified inventory: the packages update fails exactly when nozzles are absent and a package is missing, and then nothing else is written; otherwise the outputs are the packages update, the parts update and the board |
| LegacyImport.Run | kicad-to-openpnp-standalone.py:518-521 | the run fails exactly when nozzles are absent and a package is missing; otherwise it yields the packages update, the parts update and the board of the identified footprints |
| LabelLayout.CursorClosedForm | label_maker/generate_labels.py:84-112 | entry `k` is drawn at `(k mod columns, k div columns)` |
| LabelLayout.CursorWithinSheet | label_maker/generate_labels.py:151-158 | every entry of a full sheet lands inside the grid |
| LabelLayout.Spots | label_maker/generate_labels.py:89-90 | blanks are skipped: each drawn label is a non-blank entry |
| LabelLayout.SpotsAfterBlanks | label_maker/generate_labels.py:147-149 | `startIndex` blanks move every label along by that many slots and change nothing else |
| LabelLayout.SpotsWithinSheet | label_maker/generate_labels.py:89-112 | every label of a sheet is drawn inside the grid |
| LabelLayout.Blanks | label_maker/generate_labels.py:148 | `[' '] * n`: `n` blanks, none below zero |
| LabelLayout.Padded | label_maker/generate_labels.py:148-149 | the blanks come first, then the labels unchanged |
| LabelLayout.Paginate | label_maker/generate_labels.py:151-158 | `ceil(len / perSheet)` sheets, every one but the last holding exactly `perSheet` entries; a zero per-sheet count fails |
| LabelLayout.PagesCoverEntries | label_maker/generate_labels.py:156-158 | sheet `i` is the slice from `i * perSheet` up to the next sheet's start or the end, and the sheets laid end to end are the padded label list |
| LabelLayout.Basename | label_maker/generate_labels.py:101 | `os.path.basename`: the suffix after the last `/` |
| LabelLayout.BasenameOfJoin | label_maker/generate_labels.py:140 | the base name of a joined path is the file name |
| LabelLayout.SliceTo | label_maker/generate_labels.py:102 | Python's `s[:stop]`: a prefix of `s` whose length is `stop`, counted from the end when negative, clamped to `0..len(s)` |
| LabelLayout.LabelPartIdOfFile | label_maker/generate_labels.py:101-102 | a label saved as `<dir>/<id>.png` maps back to `id` |
| LabelLayout.MapLineReadsBack | label_maker/generate_labels.py:101-103 | the map line of a label drawn within the first 99 rows and columns reads back as its 1-based row and column, two digits each, a comma, ` = `, the part id and a line break |
| LabelLayout.MapLineOfLabel | label_maker/generate_labels.py:101-103 | for any label file whose name yields a part id, the map line of a label drawn within the first 99 rows and columns reads back as its 1-based row and column and that part id |
| LabelLayout.ToDownload | label_maker/generate_labels.py:124-125 | the parts a QR code is wanted for: exactly those whose upper-cased id does not mention FIDUCIAL |
| LabelLayout.ToDownloadCons | label_maker/generate_labels.py:124-126 | read from the front, each part is kept exactly when it is not a fiducial, so the QR codes are fetched in the order of the part list |
| LabelLayout.Sanitize | label_maker/generate_labels.py:194-195 | `/` and `\` become `_`, every other character is kept, and neither remains |
| LabelLayout.SanitizeIdempotent | label_maker/generate_labels.py:194-195 | sanitising twice changes nothing more |
| LabelLayout.SanitizeKeepsCleanIds | label_maker/generate_labels.py:194-197 | an id is kept as is exactly when it has neither character |
| LabelLayout.FetchedParts | label_maker/generate_labels.py:187-198 | the `--fetch` list holds every `parts.xml` id, sanitised, in order |
| LabelLayout.UniqueParts | label_maker/generate_labels.py:163-177 | the placements' part ids, each once, in the order of their first occurrence |
| LabelSheet.Position | label_maker/generate_labels.py:91-96 | the pixel position from margins, label size, group spacing and row spacing; a zero group size fails |
| LabelSheet.PositionAcross | label_maker/generate_labels.py:91-95 | for every nonzero group size, negative ones included, a label's x is the margin plus its row times the label size, plus the floor quotient of the row by the group size times the group spacing across, plus the floor remainder times the in-group spacing |
| LabelSheet.NextInGroup | label_maker/generate_labels.py:91-95 | within a group the next label is one label plus one group spacing further |
| LabelSheet.NextGroup | label_maker/generate_labels.py:91-95 | a new group starts one label plus `spacingX` further, less the group spacings used |
| LabelSheet.PageFileMatchesHeader | label_maker/generate_labels.py:76-81 | a sheet's file name and its map header carry the same number, `n + 1` |
| LabelSheet.CreatePage | label_maker/generate_labels.py:45-116 | a sheet pastes every label at its position and writes its map lines with a blank line per sheet row; it fails exactly when the group size is zero and there is a label |
| LabelSheet.DrawSheets | label_maker/generate_labels.py:156-158 | the sheets are drawn in order, numbered from zero; a failure stops the run |
| LabelSheet.Generate | label_maker/generate_labels.py:119-161 | with `download(part, size)` called with two arguments, the QR codes fetched are exactly the parts whose upper-cased id lacks FIDUCIAL, in list order, and fetching never fails; the run fails exactly when pagination or a sheet fails, and otherwise yields the drawn sheets |
| LabelSheet.FetchQrCodes | label_maker/generate_labels.py:124-126 | the QR loop: with the right number of arguments every non-fiducial part is fetched in order; with any other number the loop fails exactly when some part is not a fiducial |
| LabelSheet.DrawLabels | label_maker/generate_labels.py:147-158 | padding, pagination and drawing: failure exactly when pagination or a sheet fails, otherwise the drawn sheets |
| LabelSheet.GenerateAsWritten | label_maker/generate_labels.py:119-161 | as written, with three arguments to `download`: the run fails whenever some part is not a fiducial, and otherwise exactly when the drawing fails |
| LabelSheet.DownloadCallRejected | label_maker/generate_labels.py:126 | for the part list `['C1']` the three-argument call fails while the two-argument call fetches `C1` |
| LegacySheet.GroupsOfOneAreEvenlySpaced | generate_labels.py:90-91 | with groups of one the label maker places labels where the older generator does |
| LegacySheet.PageFileDisagreesWithHeader | generate_labels.py:75-80 | the older generator names sheet `n` with `n` but lists it as `PAGE = n+1` |
| LegacySheet.FirstSheetNumbers | generate_labels.py:75-80 | the first sheet is saved as `print_labels_0.png` and listed as `PAGE = 1` |
| LegacySheet.CreatePage | generate_labels.py:50-110 | a sheet pastes every label at its position and lists it, with no break between rows |
| LegacySheet.DrawSheets | generate_labels.py:148-150 | the sheets are drawn in order, numbered from zero |
| LegacySheet.Generate | generate_labels.py:113-153 | the QR codes fetched are exactly the entries of the built-in part list whose upper-cased id lacks FIDUCIAL, in list order, and fetching never fails; then padding, pagination and drawing, failing exactly when pagination fails |
| Feeders.FindSlottedFeeder | openpnp/create-feeders.py:79-83 | the first feeder whose name starts with `<name> (`, or none when no feeder's does |
| Feeders.FindFeederInBank | openpnp/create-feeders.py:97-101 | the first bank feeder of exactly that name, or none when there is none |
| Feeders.FindFeederInBankFailsIffAbsent | openpnp/create-feeders.py:97-101 | the bank lookup fails exactly when the name is not in the bank |
| Feeders.FindActuator | openpnp/create-feeders.py:103-107 | the first actuator of exactly that name, or none when there is none |
| Feeders.FindActuatorFailsIffAbsent | openpnp/create-feeders.py:103-107 | the actuator lookup fails exactly when the name is absent |
| Feeders.FindOrCreateActuators | openpnp/create-feeders.py:109-118 | existing actuators are kept; exactly the missing names are created, each once, in order, on the driver |
| Feeders.AddMissingAddsMissing | openpnp/create-feeders.py:109-118 | find-or-create by name adds exactly the names not yet present, in first-occurrence order |
| Feeders.AddedFromWanted | openpnp/create-feeders.py:109-118 | every created record is one of the wanted ones |
| Feeders.FindDriver | openpnp/create-feeders.py:120-124 | the last driver of that name, or none |
| Feeders.FindOrCreateDriver | openpnp/create-feeders.py:120-130 | a found driver is used; otherwise a driver of that name is appended; either way the result has the name |
| Feeders.FindOrCreateDriverIsFound | openpnp/create-feeders.py:120-130 | after find-or-create the lookup finds the driver it returned |
| Feeders.AutoFeederList | openpnp/create-feeders.py:132-141 | the existing feeders are kept; after them one plain auto feeder per id, in id order, named `Feeder-<id>`, wired for that id, the new names pairwise distinct |
| Feeders.CreateAutoFeeders | openpnp/create-feeders.py:132-141 | the loop appends exactly that list: the existing feeders kept, `count` feeders named `Feeder-<id>`, pairwise distinct |
| Feeders.PlaceSlot | openpnp/create-feeders.py:147-153 | a found slot is rewired in place; otherwise a wired slot is appended |
| Feeders.SlottedFeeders | openpnp/create-feeders.py:143-153 | on any machine: slot `id` is rewired wherever the lookup finds it; slots the lookup misses are appended wired, in id order; kinds and names are kept and every other feeder is unchanged |
| Feeders.SlotPrefixesExclusive | openpnp/create-feeders.py:79-83 | no feeder name matches the lookup of two different slots |
| Feeders.SlottedFeedersOnFreshMachine | openpnp/create-feeders.py:143-153 | on a machine with no slot feeder, one new wired slot per id is appended |
| Feeders.FreshSlotIsNotFound | openpnp/create-feeders.py:79-83 | slots created under the name `SLOT-<n>` are never matched by the slot lookup |
| Feeders.SlotNameIsNoLookupMatch | openpnp/create-feeders.py:81 | a bare slot name never starts with another slot name followed by ` (` |
| Feeders.FeederNamesDistinct | openpnp/create-feeders.py:135 | different ids give different slot and feeder names |
| Feeders.SetActuations | openpnp/create-feeders.py:157-167 | the post-pick command is set; an advance command survives unless a later one replaces it; other keys are unchanged |
| Feeders.SetDriverWide | openpnp/create-feeders.py:168-177 | the confirm and error patterns are always set; enable and disable only when given; other keys are unchanged |
| Feeders.SetCommands | openpnp/create-feeders.py:155-177 | all commands together: each set one holds unless overridden later, and nothing else changes |
| Feeders.ConfigureGcode | openpnp/create-feeders.py:155-177 | only the target driver's commands change; missing actuators are added on that driver; feeders are untouched |
| Feeders.FindDriverIgnoresCommands | openpnp/create-feeders.py:120-124 | setting commands does not change which driver the lookup finds |
| Feeders.PickOffset | openpnp/create-feeders.py:221-226 | the pick offset is half the positive body size, else zero, at the part's height |
| Feeders.PartFeederNames | openpnp/create-feeders.py:219 | each part's feeder is named after the part id |
| Feeders.PartFeeders | openpnp/create-feeders.py:212-228 | the bank keeps its feeders; exactly the part ids not yet in it are added, each once, in order, each from one of the parts |
| Feeders.HomingFeeders | openpnp/create-feeders.py:229-238 | the bank keeps its feeders; exactly the `Feeder-<id>` names not yet in it are added, in order, each new feeder holding the `HOMING-FIDUCIAL` part with zero offsets |
| Feeders.ScriptFeeders | openpnp/create-feeders.py:186-211 | the slots placed when slotted feeders are used, otherwise one plain auto feeder appended per id |
| Feeders.ScriptBank | openpnp/create-feeders.py:212-238 | the bank is untouched without slotted feeders; otherwise it keeps its feeders and gains exactly the missing part-id or `Feeder-<id>` names, in order, each new feeder made from one of the parts or holding the homing part with zero offsets |
| Feeders.Run | openpnp/create-feeders.py:179-238 | the chosen controller's driver and actuators are configured, the machine's feeders become the script's feeders and the bank the script's bank |
| Feeders.AvrDriverCommands | openpnp/create-feeders.py:179-184 | the AVR set-up gives the FeederController driver its seven commands |
| Feeders.Esp32KeepsEnableAndDisable | openpnp/create-feeders.py:196-200 | the ESP32 set-up leaves the driver's enable and disable commands as they were |
| Feeders.DefaultRunOnFreshMachine | openpnp/create-feeders.py:31-51 | the default settings make 28 slots 15 mm apart from (0, 10) and one bank feeder per part |

## Left out

- pcbnew itself is not modelled: loading the board, the footprint and pad
  accessors, and unit conversion. A footprint is given as a record of the
  values the scripts read, already in millimetres.
- The orientation correction of a rotated footprint (`footprint.Rotate`) is
  not modelled, because it is a pcbnew geometry call. Pad offsets are taken as
  recorded.
- The pad corner and bounding radius is not modelled, because the scripts
  record it but never write it.
- ElementTree parsing, indentation and writing are not modelled. Neither are
  backups and directory creation. An XML document is the list of its elements,
  and "written" is a flag.
- OpenPnp.UpdateParts, OpenPnp.UpdatePackages, KicadImport.SyncParts,
  KicadImport.SyncPackages, LegacyImport.SyncParts and LegacyImport.SyncPackages
  do not model how the lookup is written. The scripts look an id up with
  `findall(".//part[@id='<id>']")` (kicad_tools/kicad-to-openpnp-standalone.py:126
  and :159, kicad-to-openpnp-standalone.py:254 and :282). ElementPath accepts
  no `'` inside such a quoted value, so an id containing an apostrophe ends the
  run with a `SyntaxError`. The model compares ids as strings and adds such a
  part.
- Python's `str()` of a float and `round(_, n)` are not modelled, because they
  are floating point formatting. They are parameters (`render`, `round`).
- `json.load` is not modelled. A `parts.json` entry is given as a record.
- Image work (PIL) is not modelled: pages are sized and pasted onto. Nor is
  `os.listdir` order, or deleting old pages and labels. A sheet is its file
  name, its paste list and its map text.
- Partial output on failure is not modelled. LabelSheet.DrawSheets,
  LabelSheet.CreatePage, LabelSheet.Generate and LegacySheet.Generate return
  only the failure. By then the scripts have already deleted the old pages and
  emptied the label map. A failing sheet also comes after the earlier
  `print_labels_*.png` files are saved and part of the map is written.
- `download_qr` is not part of this model beyond the number of positional
  arguments its `download` takes; `config.load` and the feeder-scanning
  scripts are not part of this model. The older generator's own
  `download_qr.py` is not part of this model either: its
  `download(part, labelSize)` call is taken to match the label maker's
  two-argument `download(data, size)`.
- Text.Upper (and through it OpenPnp.Cased, OpenPnp.PadNameFor,
  KicadImport.MappedName, KicadImport.PartIdOf, PartsJson.AliasKeys,
  PartsJson.LoadedKeysUpperCase and LabelLayout.ToDownload): only ASCII `a`–`z`
  are upper-cased. Python's non-ASCII mappings (`µ` to `Μ`) and its
  length-changing ones (`ß` to `SS`) are not modelled.
- Argument parsing, messages and warnings printed to the console are not
  modelled, except the summary's row content.
- The GUI repaint in the feeder script is left out, because it draws only.
- The OpenPnP host's `getName` is assumed to return the name that was set. The host's own name decoration is not part of this
  model.
- The feeder script's `setBank` is not modelled, because a slot's bank is
  never read back. The actuator value type is not modelled for the same
  reason.
- `ReferenceSlotAutoFeeder.getBanks()[0]` is given as the bank itself. The
  part the host returns for `HOMING-FIDUCIAL` is a parameter.
- A new bank feeder's existing offsets are taken as zero,
  so `getOffsets().add(...)` is the pick offset itself.
- A part whose package is `None` in the feeder script is not modelled; every
  part has a body size.

## Findings

| source | as written | input that shows it | evidently intended | confidence | as-written member | corrected member |
|---|---|---|---|---|---|---|
| generate_labels.py:75 | the sheet image is named `print_labels_<pageNumber>.png` while the label map header for the same sheet says `PAGE = <pageNumber + 1>` (line 80) | `pageNumber = 0`: file `print_labels_0.png`, header `PAGE = 1` | file and header carry the same page number, as the label maker does at label_maker/generate_labels.py:76 | not executed | LegacySheet.PageFileDisagreesWithHeader | LabelSheet.PageFileMatchesHeader |
| label_maker/generate_labels.py:126 | calls `download_qr.download(part, labelSize, labelBorder)`, three positional arguments, while label_maker/download_qr.py:16 defines `download(data, size)`, so Python raises `TypeError` | `partList = ['C1']` | two arguments, the data and the size | not executed | LabelSheet.GenerateAsWritten | LabelSheet.Generate |
