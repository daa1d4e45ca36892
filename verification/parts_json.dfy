/** Loading `parts.json` into the lookup tables of the KiCad converter in
    `kicad_tools/`: footprint aliases, part heights, package body sizes, the
    ignore list and the "use the package name as part id" list. */
module PartsJson {
  import opened Wrappers
  import opened Text
  import opened OpenPnp

  /** A JSON scalar as `json.load` returns it. */
  datatype Json = JNull | JBool(b: bool) | JNum(n: real) | JStr(s: string)

  /** Python truthiness of a loaded JSON scalar. */
  predicate Truthy(v: Json) {
    match v
    case JNull => false
    case JBool(b) => b
    case JNum(n) => n != 0.0
    case JStr(s) => s != ""
  }

  /** A present key whose value is truthy (`'k' in part and part['k']`). */
  predicate Set(field: Option<Json>) {
    field.Some? && Truthy(field.value)
  }

  /** The `alias` field: one footprint name or a list of them. */
  datatype Alias = Single(name: string) | Several(names: seq<string>)

  /** One object of the `parts.json` array. */
  datatype Entry = Entry(
    id: string,
    alias: Option<Alias>,
    zMm: Option<Json>,
    xMm: Option<Json>,
    yMm: Option<Json>,
    ignore: Option<Json>,
    usePackageAsPartId: Option<Json>)

  /** The loaded tables. */
  datatype Tables = Tables(
    aliases: map<string, string>,
    heights: map<string, string>,
    sizes: map<string, BodySize>,
    ignored: seq<string>,
    packageAsPartId: seq<string>)

  /** The tables before (or without) `parts.json`. */
  const NoTables := Tables(map[], map[], map[], [], [])

  function UpperAll(names: seq<string>): (r: seq<string>)
    ensures |r| == |names|
    ensures forall i :: 0 <= i < |r| ==> r[i] == Upper(names[i])
  {
    if names == [] then [] else [Upper(names[0])] + UpperAll(names[1..])
  }

  /** The entry's aliases, upper-cased, whether given as a string or a list. */
  function AliasKeys(e: Entry): (r: seq<string>)
    ensures e.alias == None ==> r == []
    ensures e.alias.Some? && e.alias.value.Single? ==> r == [Upper(e.alias.value.name)]
    ensures e.alias.Some? && e.alias.value.Several? ==>
              |r| == |e.alias.value.names| &&
              forall i :: 0 <= i < |r| ==> r[i] == Upper(e.alias.value.names[i])
  {
    match e.alias
    case None => []
    case Some(Single(a)) => [Upper(a)]
    case Some(Several(names)) => UpperAll(names)
  }

  /** Every alias in `keys` now names `id`; other keys keep their package. */
  function MapAliases(aliases: map<string, string>, keys: seq<string>, id: string): (r: map<string, string>)
    ensures r.Keys == aliases.Keys + (set k | k in keys)
    ensures forall k :: k in keys ==> r[k] == id
    ensures forall k :: k in aliases && k !in keys ==> r[k] == aliases[k]
    decreases |keys|
  {
    if keys == [] then aliases else MapAliases(aliases[keys[0] := id], keys[1..], id)
  }

  /** One iteration of the loading loop. `render` stands for Python's
      `str()` applied to a JSON value. */
  function LoadEntry(t: Tables, e: Entry, render: Json -> string): (r: Tables)
    ensures r.aliases.Keys == t.aliases.Keys + (set k | k in AliasKeys(e))
    ensures forall k :: k in AliasKeys(e) ==> r.aliases[k] == e.id
    ensures forall k :: k in t.aliases && k !in AliasKeys(e) ==> r.aliases[k] == t.aliases[k]
    ensures Set(e.zMm) ==> r.heights == t.heights[e.id := render(e.zMm.value)]
    ensures !Set(e.zMm) ==> r.heights == t.heights
    ensures Set(e.xMm) && Set(e.yMm) ==>
              r.sizes == t.sizes[e.id := BodySize(render(e.yMm.value), render(e.xMm.value))]
    ensures !(Set(e.xMm) && Set(e.yMm)) ==> r.sizes == t.sizes
    ensures r.ignored == t.ignored + (if Set(e.ignore) then AliasKeys(e) else [])
    ensures r.packageAsPartId == t.packageAsPartId + (if Set(e.usePackageAsPartId) then AliasKeys(e) else [])
  {
    var keys := AliasKeys(e);
    Tables(
      MapAliases(t.aliases, keys, e.id),
      if Set(e.zMm) then t.heights[e.id := render(e.zMm.value)] else t.heights,
      // the `h` of a size comes from x_mm and its `w` from y_mm
      if Set(e.xMm) && Set(e.yMm) then t.sizes[e.id := BodySize(render(e.yMm.value), render(e.xMm.value))] else t.sizes,
      t.ignored + (if Set(e.ignore) then keys else []),
      t.packageAsPartId + (if Set(e.usePackageAsPartId) then keys else []))
  }

  /** The loading loop over the whole `parts.json` array, in file order: a
      footprint name is aliased exactly when some entry lists it, and the
      ignore and package-as-part-id lists hold only listed aliases. */
  function Load(entries: seq<Entry>, render: Json -> string): (r: Tables)
    ensures forall key :: key in r.aliases <==> key in AllAliasKeys(entries)
    ensures forall k :: k in r.ignored ==> k in AllAliasKeys(entries)
    ensures forall k :: k in r.packageAsPartId ==> k in AllAliasKeys(entries)
  {
    if entries == [] then NoTables
    else
      var init := entries[..|entries| - 1];
      var e := entries[|entries| - 1];
      assert forall k :: k in AllAliasKeys(entries) <==> k in AllAliasKeys(init) || k in AliasKeys(e);
      LoadEntry(Load(init, render), e, render)
  }

  /** Every alias listed in the file, entry by entry, upper-cased. */
  function AllAliasKeys(entries: seq<Entry>): seq<string> {
    if entries == [] then []
    else AllAliasKeys(entries[..|entries| - 1]) + AliasKeys(entries[|entries| - 1])
  }

  /** An alias maps to the id of the last entry that lists it. */
  lemma {:induction false} AliasLastWins(entries: seq<Entry>, render: Json -> string, i: nat, key: string)
    requires i < |entries| && key in AliasKeys(entries[i])
    requires forall j :: i < j < |entries| ==> key !in AliasKeys(entries[j])
    ensures key in Load(entries, render).aliases
    ensures Load(entries, render).aliases[key] == entries[i].id
  {
    if i < |entries| - 1 {
      var init := entries[..|entries| - 1];
      AliasLastWins(init, render, i, key);
    }
  }

  /** A size is recorded exactly for the ids of entries that give both x_mm
      and y_mm; it comes from the last such entry. */
  lemma {:induction false} SizeLastWins(entries: seq<Entry>, render: Json -> string, i: nat)
    requires i < |entries| && Set(entries[i].xMm) && Set(entries[i].yMm)
    requires forall j :: i < j < |entries| && entries[j].id == entries[i].id ==>
               !(Set(entries[j].xMm) && Set(entries[j].yMm))
    ensures entries[i].id in Load(entries, render).sizes
    ensures Load(entries, render).sizes[entries[i].id] ==
            BodySize(render(entries[i].yMm.value), render(entries[i].xMm.value))
  {
    if i < |entries| - 1 {
      var init := entries[..|entries| - 1];
      SizeLastWins(init, render, i);
    }
  }

  /** Only entries with both x_mm and y_mm set contribute sizes. */
  lemma {:induction false} SizesOnlyFromBoth(entries: seq<Entry>, render: Json -> string, id: string)
    requires id in Load(entries, render).sizes
    ensures exists i :: 0 <= i < |entries| && entries[i].id == id && Set(entries[i].xMm) && Set(entries[i].yMm)
  {
    var init := entries[..|entries| - 1];
    var last := entries[|entries| - 1];
    if !(last.id == id && Set(last.xMm) && Set(last.yMm)) {
      SizesOnlyFromBoth(init, render, id);
      var i :| 0 <= i < |init| && init[i].id == id && Set(init[i].xMm) && Set(init[i].yMm);
      assert entries[i] == init[i];
    }
  }

  /** A height is recorded for the id of the last entry with a truthy z_mm,
      and only for ids of entries that have one. */
  lemma {:induction false} HeightLastWins(entries: seq<Entry>, render: Json -> string, i: nat)
    requires i < |entries| && Set(entries[i].zMm)
    requires forall j :: i < j < |entries| && entries[j].id == entries[i].id ==> !Set(entries[j].zMm)
    ensures entries[i].id in Load(entries, render).heights
    ensures Load(entries, render).heights[entries[i].id] == render(entries[i].zMm.value)
  {
    if i < |entries| - 1 {
      var init := entries[..|entries| - 1];
      HeightLastWins(init, render, i);
    }
  }

  lemma {:induction false} HeightsOnlyFromZ(entries: seq<Entry>, render: Json -> string, id: string)
    requires id in Load(entries, render).heights
    ensures exists i :: 0 <= i < |entries| && entries[i].id == id && Set(entries[i].zMm)
  {
    var init := entries[..|entries| - 1];
    var last := entries[|entries| - 1];
    if !(last.id == id && Set(last.zMm)) {
      HeightsOnlyFromZ(init, render, id);
      var i :| 0 <= i < |init| && init[i].id == id && Set(init[i].zMm);
      assert entries[i] == init[i];
    }
  }

  /** The entry puts `name` on the ignore list. */
  predicate IgnoresName(e: Entry, name: string) {
    Set(e.ignore) && name in AliasKeys(e)
  }

  /** The entry puts `name` on the package-as-part-id list. */
  predicate UsesPackageFor(e: Entry, name: string) {
    Set(e.usePackageAsPartId) && name in AliasKeys(e)
  }

  /** A name is on the ignore list when an entry with a truthy `ignore`
      lists it as an alias ... */
  lemma {:induction false} IgnoredComplete(entries: seq<Entry>, render: Json -> string, i: nat, name: string)
    requires i < |entries| && IgnoresName(entries[i], name)
    ensures name in Load(entries, render).ignored
  {
    if i < |entries| - 1 {
      IgnoredComplete(entries[..|entries| - 1], render, i, name);
    }
  }

  /** ... and only then: entries without an alias or a truthy `ignore` add
      nothing. */
  lemma {:induction false} IgnoredSound(entries: seq<Entry>, render: Json -> string, name: string)
    requires name in Load(entries, render).ignored
    ensures exists i :: 0 <= i < |entries| && IgnoresName(entries[i], name)
  {
    var init := entries[..|entries| - 1];
    var e := entries[|entries| - 1];
    if !IgnoresName(e, name) {
      IgnoredSound(init, render, name);
      var i :| 0 <= i < |init| && IgnoresName(init[i], name);
      assert entries[i] == init[i];
    }
  }

  /** Likewise for the list of footprints that use their package as part id. */
  lemma {:induction false} PackageAsPartIdComplete(entries: seq<Entry>, render: Json -> string, i: nat, name: string)
    requires i < |entries| && UsesPackageFor(entries[i], name)
    ensures name in Load(entries, render).packageAsPartId
  {
    if i < |entries| - 1 {
      PackageAsPartIdComplete(entries[..|entries| - 1], render, i, name);
    }
  }

  lemma {:induction false} PackageAsPartIdSound(entries: seq<Entry>, render: Json -> string, name: string)
    requires name in Load(entries, render).packageAsPartId
    ensures exists i :: 0 <= i < |entries| && UsesPackageFor(entries[i], name)
  {
    var init := entries[..|entries| - 1];
    var e := entries[|entries| - 1];
    if !UsesPackageFor(e, name) {
      PackageAsPartIdSound(init, render, name);
      var i :| 0 <= i < |init| && UsesPackageFor(init[i], name);
      assert entries[i] == init[i];
    }
  }

  /** Every stored alias key and list entry is upper-case, so lookups with an
      upper-cased footprint name can find them. */
  lemma {:induction false} LoadedKeysUpperCase(entries: seq<Entry>, render: Json -> string)
    ensures var t := Load(entries, render);
            && (forall k :: k in t.aliases ==> Upper(k) == k)
            && (forall k :: k in t.ignored ==> Upper(k) == k)
            && (forall k :: k in t.packageAsPartId ==> Upper(k) == k)
  {
    if entries != [] {
      LoadedKeysUpperCase(entries[..|entries| - 1], render);
      var e := entries[|entries| - 1];
      forall k | k in AliasKeys(e)
        ensures Upper(k) == k
      {
        var i :| 0 <= i < |AliasKeys(e)| && AliasKeys(e)[i] == k;
        UpperOfUpperCase(k);
      }
    }
  }
}
