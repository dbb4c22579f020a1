/**
  * The per-batch normaliser of the relational crawler: one raw telemetry batch becomes
  * a device table, an application table, an IP table and an event table.
  */
module Normalizer {
  import opened Wrappers
  import opened Text
  import opened Dedup
  import opened Records

  const IosMarker: string := " IOS"
  const AndroidMarker: string := " ANDROID"
  const CellularType: string := "CELLULAR"
  const AppIdColumn: string := "AppID"
  const AppNameColumn: string := "AppName"

  // ---------------------------------------------------------------------------
  // Devices

  /** The (DeviceID, AppName, IP) projection of a raw row. */
  datatype Sighting = Sighting(deviceId: string, appName: string, ip: string)

  function SightingOf(r: RawRow): Sighting { Sighting(r.deviceId, r.appName, r.ip) }
  function SightingDevice(s: Sighting): string { s.deviceId }

  /** The batch's distinct (DeviceID, AppName, IP) triples, in first-occurrence order. */
  function Sightings(batch: Batch): seq<Sighting> {
    DedupBy(Project(batch, SightingOf), Id)
  }

  /** The uppercased app name carries a platform marker. */
  predicate Marked(appName: string, marker: string) {
    Contains(Upper(appName), marker)
  }

  /** The per-device sum of the 0/1 marker column. */
  function MarkerHits(rows: seq<Sighting>, deviceId: string, marker: string): nat {
    if rows == [] then 0
    else (if rows[0].deviceId == deviceId && Marked(rows[0].appName, marker) then 1 else 0)
         + MarkerHits(rows[1..], deviceId, marker)
  }

  function Flag(n: nat): Bit { if n > 0 then 1 else 0 }

  /**
    * create_device_master: one row per DeviceID, in first-occurrence order, with the
    * iOS and Android indicators. The most frequent IP the source computes per device is
    * dropped before the result is returned, so it is not part of the model.
    */
  function DeviceMaster(batch: Batch): seq<DeviceRow> {
    var rows := Sightings(batch);
    Project(DedupBy(rows, SightingDevice),
            (s: Sighting) => DeviceRow(s.deviceId,
                                       Flag(MarkerHits(rows, s.deviceId, IosMarker)),
                                       Flag(MarkerHits(rows, s.deviceId, AndroidMarker))))
  }

  /** Some raw row of the device has an app name carrying the marker. */
  predicate DeviceHasMarker(batch: Batch, deviceId: string, marker: string) {
    exists j :: 0 <= j < |batch| && batch[j].deviceId == deviceId && Marked(batch[j].appName, marker)
  }

  lemma {:induction false} MarkerHitsPositive(rows: seq<Sighting>, deviceId: string, marker: string)
    ensures MarkerHits(rows, deviceId, marker) > 0
            <==> exists j :: 0 <= j < |rows| && rows[j].deviceId == deviceId && Marked(rows[j].appName, marker)
  {
    if rows != [] {
      MarkerHitsPositive(rows[1..], deviceId, marker);
      if MarkerHits(rows[1..], deviceId, marker) > 0 {
        var j :| 0 <= j < |rows[1..]| && rows[1..][j].deviceId == deviceId && Marked(rows[1..][j].appName, marker);
        assert rows[j + 1] == rows[1..][j];
      }
      forall j | 0 < j < |rows| && rows[j].deviceId == deviceId && Marked(rows[j].appName, marker)
        ensures MarkerHits(rows[1..], deviceId, marker) > 0
      {
        assert rows[1..][j - 1] == rows[j];
      }
    }
  }

  /** The marker flag of a device over the distinct triples is the flag over the raw rows. */
  lemma MarkerFlagOfBatch(batch: Batch, deviceId: string, marker: string)
    ensures MarkerHits(Sightings(batch), deviceId, marker) > 0 <==> DeviceHasMarker(batch, deviceId, marker)
  {
    var p := Project(batch, SightingOf);
    var rows := Sightings(batch);
    MarkerHitsPositive(rows, deviceId, marker);
    if MarkerHits(rows, deviceId, marker) > 0 {
      var j :| 0 <= j < |rows| && rows[j].deviceId == deviceId && Marked(rows[j].appName, marker);
      DedupSameElements(p, rows[j]);
      var k :| 0 <= k < |p| && p[k] == rows[j];
      assert batch[k].deviceId == deviceId && Marked(batch[k].appName, marker);
    }
    if DeviceHasMarker(batch, deviceId, marker) {
      var k :| 0 <= k < |batch| && batch[k].deviceId == deviceId && Marked(batch[k].appName, marker);
      assert p[k] == SightingOf(batch[k]);
      DedupSameElements(p, p[k]);
      var j :| 0 <= j < |rows| && rows[j] == p[k];
    }
  }

  /** The device table has exactly one row per DeviceID of the batch. */
  lemma DeviceMasterKeys(batch: Batch)
    ensures |DeviceMaster(batch)| <= |batch|
    ensures UniqueKeys(DeviceMaster(batch), DeviceKey)
    ensures KeySet(DeviceMaster(batch), DeviceKey) == KeySet(batch, RawDeviceId)
  {
    var p := Project(batch, SightingOf);
    var firsts := DedupBy(Sightings(batch), SightingDevice);
    var devices := DeviceMaster(batch);
    SameKeyColumn(devices, DeviceKey, firsts, SightingDevice);
    DedupSameKeys(p, SightingDevice);
    SameKeyColumn(p, SightingDevice, batch, RawDeviceId);
  }

  /**
    * A device's iOS (Android) flag is 1 iff one of its app names, uppercased, contains
    * " IOS" (" ANDROID").
    */
  lemma DeviceMasterFlags(batch: Batch, i: int)
    requires 0 <= i < |DeviceMaster(batch)|
    ensures var d := DeviceMaster(batch)[i];
            (d.iOS == 1 <==> DeviceHasMarker(batch, d.deviceId, IosMarker))
            && (d.android == 1 <==> DeviceHasMarker(batch, d.deviceId, AndroidMarker))
  {
    var d := DeviceMaster(batch)[i];
    MarkerFlagOfBatch(batch, d.deviceId, IosMarker);
    MarkerFlagOfBatch(batch, d.deviceId, AndroidMarker);
  }

  /** The device rows come in the order in which their DeviceIDs first occur in the batch. */
  lemma DeviceMasterOrder(batch: Batch)
    ensures Project(DeviceMaster(batch), DeviceKey) == DedupBy(Project(batch, RawDeviceId), Id)
  {
    var p := Project(batch, SightingOf);
    var rows := Sightings(batch);
    DedupRefine(p, Id, SightingDevice, SightingDevice, {}, {});
    DedupProject(p, SightingDevice, {});
    assert Project(p, SightingDevice) == Project(batch, RawDeviceId);
    var firsts := DedupBy(rows, SightingDevice);
    assert Project(DeviceMaster(batch), DeviceKey) == Project(firsts, SightingDevice);
  }

  // ---------------------------------------------------------------------------
  // Application names

  /**
    * The name normalisation shared by the app and event tables: uppercase, remove every
    * " IOS", then every " ANDROID", then strip surrounding whitespace.
    */
  function NormaliseName(name: string): (n: string)
    ensures |n| <= |name|
    ensures n == [] || (!IsSpace(n[0]) && !IsSpace(n[|n| - 1]))
    ensures forall k :: 0 <= k < |n| ==> !IsLowerAscii(n[k])
  {
    var u := Upper(name);
    var noIos := RemoveAll(u, IosMarker);
    var noMarker := RemoveAll(noIos, AndroidMarker);
    NoLowerInherited(u, noIos);
    NoLowerInherited(noIos, noMarker);
    NoLowerInherited(noMarker, Strip(noMarker));
    Strip(noMarker)
  }

  /** Names that differ only in the case of ASCII letters normalise alike. */
  lemma NormaliseNameCaseBlind(x: string, y: string)
    requires Upper(x) == Upper(y)
    ensures NormaliseName(x) == NormaliseName(y)
  {
  }

  /** Normalising an upper-cased name gives the same as normalising the name. */
  lemma NormaliseNameOfUpper(name: string)
    ensures NormaliseName(Upper(name)) == NormaliseName(name)
  {
    UpperIdempotent(name);
  }

  /** A pattern whose first character does not recur in it is border-free. */
  lemma BorderFreeByFirstChar(p: string)
    requires |p| > 0
    requires forall k :: 0 < k < |p| ==> p[k] != p[0]
    ensures BorderFree(p)
  {
    forall k | 0 < k < |p| ensures p[k..] != p[..|p| - k] {
      assert p[k..][0] == p[k];
      assert p[..|p| - k][0] == p[0];
    }
  }

  lemma MarkersBorderFree()
    ensures BorderFree(IosMarker) && BorderFree(AndroidMarker)
  {
    BorderFreeByFirstChar(IosMarker);
    BorderFreeByFirstChar(AndroidMarker);
  }

  /** No " IOS" can overlap a " ANDROID" appended to any text. */
  lemma AndroidSuffixHasNoIos(u: string)
    ensures NoMatchTouching(u, AndroidMarker, IosMarker)
  {
    var t := u + AndroidMarker;
    forall j | |u| < j + |IosMarker|
      ensures !MatchAt(t, IosMarker, j)
    {
      if 0 <= j && j + |IosMarker| <= |t| {
        if j < |u| {
          assert t[j..j + 4][|u| - j] == ' ' != IosMarker[|u| - j];
        } else {
          assert t[j..j + 4][1] == AndroidMarker[j + 1 - |u|] != IosMarker[1];
        }
      }
    }
  }

  /** The markers are the upper-cased platform suffixes. */
  lemma MarkersAreUpper()
    ensures Upper(" iOS") == IosMarker && Upper(" Android") == AndroidMarker
  {
    assert Upper(" iOS") == IosMarker;
    assert Upper(" Android") == AndroidMarker;
  }

  /**
    * The platform variants of an app name normalise to the same name: the " iOS" and
    * " Android" suffixes are removed, whatever the base name.
    */
  lemma PlatformVariantsShareName(base: string)
    ensures NormaliseName(base + " iOS") == NormaliseName(base)
    ensures NormaliseName(base + " Android") == NormaliseName(base)
  {
    var u := Upper(base);
    MarkersBorderFree();
    UpperAppend(base, " iOS");
    UpperAppend(base, " Android");
    MarkersAreUpper();
    RemoveAllTrailing(u, IosMarker);
    AndroidSuffixHasNoIos(u);
    RemoveAllAppendUntouched(u, AndroidMarker, IosMarker);
    RemoveAllTrailing(RemoveAll(u, IosMarker), AndroidMarker);
  }

  // ---------------------------------------------------------------------------
  // Applications

  /** The (AppCategory, AppName) projection of a raw row. */
  datatype Listing = Listing(category: string, appName: string)

  function ListingOf(r: RawRow): Listing { Listing(r.appCategory, r.appName) }
  function ListingName(l: Listing): string { l.appName }
  function ListingNormName(l: Listing): string { NormaliseName(l.appName) }
  function ListingTags(l: Listing): seq<string> { Tags(l.category) }
  function RawNormName(r: RawRow): string { NormaliseName(r.appName) }

  /**
    * The listings the app table is built from: first-wins on the raw AppName, then
    * first-wins on the normalised name.
    */
  function AppListings(batch: Batch): seq<Listing> {
    DedupBy(DedupBy(Project(batch, ListingOf), ListingName), ListingNormName)
  }

  /** The untrimmed category tags of an AppCategory value: uppercase, "|" read as ";", split on ";". */
  function Tags(category: string): (tags: seq<string>)
    ensures |tags| >= 1
    ensures forall k :: 0 <= k < |tags| ==> ';' !in tags[k]
  {
    Split(ReplaceChar(Upper(category), '|', ';'), ';')
  }

  /** The tags are exactly the pieces between the separators of the uppercased category. */
  lemma TagsRejoin(category: string)
    ensures Join(Tags(category), ';') == ReplaceChar(Upper(category), '|', ';')
  {
    JoinSplit(ReplaceChar(Upper(category), '|', ';'), ';');
  }

  /** Every distinct tag of the kept listings: one category column each. */
  function TagUniverse(ls: seq<Listing>): set<string> {
    set i, t | 0 <= i < |ls| && t in Tags(ls[i].category) :: t
  }

  /** One row's 0/1 cells over the category columns. */
  function CategoryCells(tags: seq<string>, universe: set<string>): map<string, Bit> {
    map c | c in universe :: if c in tags then 1 else 0
  }

  /** The IAB mapping applied to one column label; labels it does not hold are kept. */
  function Relabel(iab: map<string, string>, name: string): string {
    if name in iab then iab[name] else name
  }

  function RenameLabels(iab: map<string, string>, labels: set<string>): set<string> {
    set c | c in labels :: Relabel(iab, c)
  }

  /** Renamed cells; where several labels are renamed onto one, the cell is 1 if any of theirs is. */
  function RenameCells(iab: map<string, string>, cells: map<string, Bit>): map<string, Bit> {
    map l | l in RenameLabels(iab, cells.Keys)
      :: if exists c :: c in cells && Relabel(iab, c) == l && cells[c] == 1 then 1 else 0
  }

  /**
    * A row has a renamed cell for each category column, and the cell is 1 iff the row
    * lists a tag renamed onto that label.
    */
  lemma CategoryCellsSpec(iab: map<string, string>, tags: seq<string>, universe: set<string>, lab: string)
    ensures RenameCells(iab, CategoryCells(tags, universe)).Keys == RenameLabels(iab, universe)
    ensures lab in RenameCells(iab, CategoryCells(tags, universe)) ==>
              (RenameCells(iab, CategoryCells(tags, universe))[lab] == 1
               <==> exists c :: c in universe && c in tags && Relabel(iab, c) == lab)
  {
    var cells := CategoryCells(tags, universe);
    assert cells.Keys == universe;
    if lab in RenameCells(iab, cells) {
      if exists c :: c in universe && c in tags && Relabel(iab, c) == lab {
        var c :| c in universe && c in tags && Relabel(iab, c) == lab;
        assert cells[c] == 1;
      }
    }
  }

  /** When no other column is renamed onto the same label, a tag's cell is 1 iff the row lists the tag. */
  lemma CategoryCellOfTag(iab: map<string, string>, tags: seq<string>, universe: set<string>, c: string)
    requires c in universe
    requires forall c2 :: c2 in universe && Relabel(iab, c2) == Relabel(iab, c) ==> c2 == c
    ensures Relabel(iab, c) in RenameCells(iab, CategoryCells(tags, universe))
    ensures RenameCells(iab, CategoryCells(tags, universe))[Relabel(iab, c)] == (if c in tags then 1 else 0)
  {
    CategoryCellsSpec(iab, tags, universe, Relabel(iab, c));
  }

  /** str(hash(name))[1:13]: characters 1 to 12 of the decimal hash of the normalised name. */
  function AppId(hash: string -> int, name: string): (id: string)
    ensures |id| <= 12
    ensures forall k :: 0 <= k < |id| ==> IsDigit(id[k])
  {
    Slice(IntToString(hash(name)), 1, 13)
  }

  /** Truncation makes AppIDs collide: hash values 15 and 25 both give the id "5". */
  lemma AppIdCollision(hash: string -> int, a: string, b: string)
    requires hash(a) == 15 && hash(b) == 25
    ensures AppId(hash, a) == AppId(hash, b) == "5"
  {
    assert DigitChar(1) == '1' && DigitChar(2) == '2' && DigitChar(5) == '5';
    assert IntToString(15) == NatToString(15) == "15";
    assert IntToString(25) == NatToString(25) == "25";
    assert Slice("15", 1, 13) == "5";
    assert Slice("25", 1, 13) == "5";
  }

  function AppRowOf(hash: string -> int, iab: map<string, string>, universe: set<string>, l: Listing): AppRow {
    var name := NormaliseName(l.appName);
    AppRow(AppId(hash, name), name, RenameCells(iab, CategoryCells(Tags(l.category), universe)))
  }

  /** create_app_master as a table expression. */
  function AppMaster(batch: Batch, iab: map<string, string>, hash: string -> int): AppTable {
    var ls := AppListings(batch);
    var universe := TagUniverse(ls);
    AppTable(RenameLabels(iab, universe),
             Project(ls, (l: Listing) => AppRowOf(hash, iab, universe, l)))
  }

  lemma CategoryCellsAdd(tags: seq<string>, done: set<string>, cat: string)
    ensures CategoryCells(tags, done)[cat := if cat in tags then 1 else 0] == CategoryCells(tags, done + {cat})
  {
  }

  /** The inner loop of create_app_master: the 0/1 column of one tag, row by row. */
  method CategoryColumn(tagLists: seq<seq<string>>, cat: string) returns (column: seq<Bit>)
    ensures |column| == |tagLists|
    ensures forall m :: 0 <= m < |tagLists| ==> (column[m] == 1 <==> cat in tagLists[m])
  {
    column := [];
    for k := 0 to |tagLists|
      invariant |column| == k
      invariant forall m :: 0 <= m < k ==> (column[m] == 1 <==> cat in tagLists[m])
    {
      if cat in tagLists[k] {
        column := column + [1];
      } else {
        column := column + [0];
      }
    }
  }

  /** The outer loop of create_app_master: one 0/1 column per tag of the universe, added to every row. */
  method FillCategoryCells(tagLists: seq<seq<string>>, universe: set<string>) returns (cells: seq<map<string, Bit>>)
    ensures |cells| == |tagLists|
    ensures forall k :: 0 <= k < |tagLists| ==> cells[k] == CategoryCells(tagLists[k], universe)
  {
    cells := seq(|tagLists|, k => map[]);
    var remaining, done := universe, {};
    while remaining != {}
      invariant done + remaining == universe
      invariant |cells| == |tagLists|
      invariant forall k :: 0 <= k < |tagLists| ==> cells[k] == CategoryCells(tagLists[k], done)
      decreases remaining
    {
      var cat :| cat in remaining;
      var column := CategoryColumn(tagLists, cat);
      forall k | 0 <= k < |tagLists|
        ensures cells[k][cat := column[k]] == CategoryCells(tagLists[k], done + {cat})
      {
        CategoryCellsAdd(tagLists[k], done, cat);
      }
      cells := seq(|tagLists|, k requires 0 <= k < |tagLists| => cells[k][cat := column[k]]);
      remaining, done := remaining - {cat}, done + {cat};
    }
  }

  /**
    * create_app_master: the category cells are filled column by column, then the AppID
    * and the IAB renaming are applied.
    */
  method CreateAppMaster(batch: Batch, iab: map<string, string>, hash: string -> int) returns (t: AppTable)
    ensures t == AppMaster(batch, iab, hash)
  {
    var ls := AppListings(batch);
    var universe := TagUniverse(ls);
    var cells := FillCategoryCells(Project(ls, ListingTags), universe);
    AppRowsOfCells(batch, iab, hash, cells);
    t := AppTable(RenameLabels(iab, universe), AppRows(hash, iab, ls, cells));
  }

  /** Rows built from the filled cells are the rows of the app table. */
  lemma AppRowsOfCells(batch: Batch, iab: map<string, string>, hash: string -> int, cells: seq<map<string, Bit>>)
    requires |cells| == |AppListings(batch)|
    requires forall k :: 0 <= k < |cells| ==>
               cells[k] == CategoryCells(ListingTags(AppListings(batch)[k]), TagUniverse(AppListings(batch)))
    ensures AppRows(hash, iab, AppListings(batch), cells) == AppMaster(batch, iab, hash).rows
  {
    var ls := AppListings(batch);
    var a := AppRows(hash, iab, ls, cells);
    var b := AppMaster(batch, iab, hash).rows;
    forall k | 0 <= k < |a| ensures a[k] == b[k] {
      assert b[k] == AppRowOf(hash, iab, TagUniverse(ls), ls[k]);
    }
  }

  /** The rows once the category cells are in place: names, AppIDs and renamed cells. */
  function AppRows(hash: string -> int, iab: map<string, string>, ls: seq<Listing>,
                   cells: seq<map<string, Bit>>): (rows: seq<AppRow>)
    requires |cells| == |ls|
    ensures |rows| == |ls|
    ensures forall k :: 0 <= k < |ls| ==>
              rows[k] == AppRow(AppId(hash, NormaliseName(ls[k].appName)), NormaliseName(ls[k].appName),
                                RenameCells(iab, cells[k]))
  {
    seq(|ls|, k requires 0 <= k < |ls| =>
      var name := NormaliseName(ls[k].appName);
      AppRow(AppId(hash, name), name, RenameCells(iab, cells[k])))
  }

  /** The kept listings are the first listing of each normalised name. */
  lemma AppListingsByNormName(batch: Batch)
    ensures AppListings(batch) == DedupBy(Project(batch, ListingOf), ListingNormName)
  {
    DedupRefine(Project(batch, ListingOf), ListingName, NormaliseName, ListingNormName, {}, {});
  }

  /** The app table has one row per normalised name of the batch. */
  lemma AppMasterKeys(batch: Batch, iab: map<string, string>, hash: string -> int)
    ensures |AppMaster(batch, iab, hash).rows| <= |batch|
    ensures UniqueKeys(AppMaster(batch, iab, hash).rows, AppKey)
    ensures KeySet(AppMaster(batch, iab, hash).rows, AppKey) == KeySet(batch, RawNormName)
  {
    var p := Project(batch, ListingOf);
    var ls := AppListings(batch);
    var rows := AppMaster(batch, iab, hash).rows;
    AppListingsByNormName(batch);
    SameKeyColumn(rows, AppKey, ls, ListingNormName);
    SameKeyColumn(p, ListingNormName, batch, RawNormName);
  }

  /** Every app row's AppID is derived from its name alone, and it has a cell for every column. */
  lemma AppMasterRows(batch: Batch, iab: map<string, string>, hash: string -> int, i: int)
    requires 0 <= i < |AppMaster(batch, iab, hash).rows|
    ensures var t := AppMaster(batch, iab, hash);
            t.rows[i].appId == AppId(hash, t.rows[i].appName)
            && t.rows[i].categories.Keys == t.columns
  {
    var ls := AppListings(batch);
    CategoryCellsSpec(iab, Tags(ls[i].category), TagUniverse(ls), "");
  }

  /** Each app row carries the category of the first raw row with its normalised name. */
  lemma AppMasterKeepsFirstCategory(batch: Batch, iab: map<string, string>, hash: string -> int, i: int)
    requires 0 <= i < |AppMaster(batch, iab, hash).rows|
    ensures var row := AppMaster(batch, iab, hash).rows[i];
            row.appName in KeySet(batch, RawNormName)
            && var j := FirstIndex(batch, RawNormName, row.appName);
               row.categories
               == RenameCells(iab, CategoryCells(Tags(batch[j].appCategory), TagUniverse(AppListings(batch))))
  {
    var p := Project(batch, ListingOf);
    var ls := AppListings(batch);
    var row := AppMaster(batch, iab, hash).rows[i];
    assert row == AppRowOf(hash, iab, TagUniverse(ls), ls[i]);
    AppListingsByNormName(batch);
    var name := ListingNormName(ls[i]);
    DedupKeepsFirst(p, ListingNormName, {}, i);
    FirstIndexSameColumn(p, ListingNormName, batch, RawNormName, name);
    var j := FirstIndex(batch, RawNormName, name);
    assert ls[i] == p[j] == ListingOf(batch[j]);
  }

  // ---------------------------------------------------------------------------
  // Events

  /** An event row before the join: normalised AppName, Cellular derived from InternetType. */
  datatype Visit = Visit(timestamp: string, deviceId: string, appName: string,
                         latitude: string, longitude: string, cellular: Bit)

  /** Cellular is 1 iff InternetType is exactly "CELLULAR". */
  function VisitOf(r: RawRow): Visit {
    Visit(r.timestamp, r.deviceId, NormaliseName(r.appName), r.latitude, r.longitude,
          if r.internetType == CellularType then 1 else 0)
  }

  /** The distinct pre-join event rows of the batch, in first-occurrence order. */
  function Visits(batch: Batch): seq<Visit> {
    DedupBy(Project(batch, VisitOf), Id)
  }

  /** The pre-join event rows are the distinct images of the raw rows. */
  lemma VisitsSpec(batch: Batch, x: Visit)
    ensures |Visits(batch)| <= |batch|
    ensures UniqueKeys(Visits(batch), Id)
    ensures x in Visits(batch) <==> exists j :: 0 <= j < |batch| && x == VisitOf(batch[j])
  {
    var p := Project(batch, VisitOf);
    DedupSameElements(p, x);
    if x in p {
      var j :| 0 <= j < |p| && p[j] == x;
      assert x == VisitOf(batch[j]);
    }
    if exists j :: 0 <= j < |batch| && x == VisitOf(batch[j]) {
      var j :| 0 <= j < |batch| && x == VisitOf(batch[j]);
      assert p[j] == x;
    }
  }

  function EventOf(v: Visit, appId: Option<string>): EventRow {
    EventRow(v.timestamp, v.deviceId, appId, v.cellular, v.latitude, v.longitude)
  }

  /** The AppIDs of the app rows with the given name, in table order. */
  function IdsNamed(apps: seq<AppRow>, name: string): seq<string> {
    if apps == [] then []
    else (if apps[0].appName == name then [apps[0].appId] else []) + IdsNamed(apps[1..], name)
  }

  /** One left row joined: once per matching app row, or once with no AppID. */
  function JoinOne(v: Visit, apps: seq<AppRow>): (out: seq<EventRow>)
    ensures |out| >= 1
  {
    var ids := IdsNamed(apps, v.appName);
    if ids == [] then [EventOf(v, None)]
    else Project(ids, (id: string) => EventOf(v, Some(id)))
  }

  /** pandas' left merge on AppName, keeping the left order. */
  function LeftJoin(visits: seq<Visit>, apps: seq<AppRow>): (out: seq<EventRow>)
    ensures |out| >= |visits|
  {
    if visits == [] then [] else JoinOne(visits[0], apps) + LeftJoin(visits[1..], apps)
  }

  /** create_event_master, joined against the app table of the same batch. */
  function EventMaster(batch: Batch, apps: AppTable): seq<EventRow> {
    LeftJoin(Visits(batch), apps.rows)
  }

  /** The AppID of the first app row with the given name, if any. */
  function LookupId(apps: seq<AppRow>, name: string): Option<string> {
    if name in KeySet(apps, AppKey) then Some(apps[FirstIndex(apps, AppKey, name)].appId) else None
  }

  lemma {:induction false} IdsNamedUnique(apps: seq<AppRow>, name: string)
    requires UniqueKeys(apps, AppKey)
    ensures IdsNamed(apps, name) == if LookupId(apps, name).Some? then [LookupId(apps, name).value] else []
  {
    if apps != [] {
      var rest := apps[1..];
      assert UniqueKeys(rest, AppKey) by {
        forall i, j | 0 <= i < j < |rest| ensures AppKey(rest[i]) != AppKey(rest[j]) {
          assert rest[i] == apps[i + 1] && rest[j] == apps[j + 1];
        }
      }
      IdsNamedUnique(rest, name);
      assert apps == [apps[0]] + rest;
      KeySetCons(apps[0], rest, AppKey);
      if apps[0].appName == name {
        forall i | 0 <= i < |rest| ensures AppKey(rest[i]) != name {
          assert rest[i] == apps[i + 1];
        }
        assert name !in KeySet(rest, AppKey);
      } else if name in KeySet(rest, AppKey) {
        FirstIndexTail(apps, AppKey, name);
      }
    }
  }

  /**
    * With unique app names the left join neither drops nor multiplies a row: the i-th
    * event is the i-th pre-join row with the AppID of its name, or none.
    */
  lemma {:induction false} LeftJoinUnique(visits: seq<Visit>, apps: seq<AppRow>)
    requires UniqueKeys(apps, AppKey)
    ensures |LeftJoin(visits, apps)| == |visits|
    ensures forall i :: 0 <= i < |visits| ==>
              LeftJoin(visits, apps)[i] == EventOf(visits[i], LookupId(apps, visits[i].appName))
  {
    if visits != [] {
      IdsNamedUnique(apps, visits[0].appName);
      LeftJoinUnique(visits[1..], apps);
      var out := LeftJoin(visits, apps);
      assert |JoinOne(visits[0], apps)| == 1;
      forall i | 0 < i < |visits|
        ensures out[i] == EventOf(visits[i], LookupId(apps, visits[i].appName))
      {
        assert out[i] == LeftJoin(visits[1..], apps)[i - 1];
        assert visits[1..][i - 1] == visits[i];
      }
    }
  }

  /**
    * Within one batch every event resolves: the event table has one row per distinct
    * pre-join row, carrying the AppID of that row's normalised name.
    */
  lemma EventMasterSpec(batch: Batch, iab: map<string, string>, hash: string -> int)
    ensures var v := Visits(batch);
            var e := EventMaster(batch, AppMaster(batch, iab, hash));
            |e| == |v| && forall i :: 0 <= i < |v| ==> e[i] == EventOf(v[i], Some(AppId(hash, v[i].appName)))
  {
    var t := AppMaster(batch, iab, hash);
    var v := Visits(batch);
    AppMasterKeys(batch, iab, hash);
    LeftJoinUnique(v, t.rows);
    forall i | 0 <= i < |v|
      ensures LookupId(t.rows, v[i].appName) == Some(AppId(hash, v[i].appName))
    {
      VisitsSpec(batch, v[i]);
      var j :| 0 <= j < |batch| && v[i] == VisitOf(batch[j]);
      assert RawNormName(batch[j]) == v[i].appName;
      assert v[i].appName in KeySet(t.rows, AppKey);
      AppMasterRows(batch, iab, hash, FirstIndex(t.rows, AppKey, v[i].appName));
    }
  }

  // ---------------------------------------------------------------------------
  // IPs

  function IpOf(r: RawRow): IpRow { IpRow(r.ip, r.isp) }

  /** create_ip_master: the first (IP, ISP) pair of every IP. */
  function IpMaster(batch: Batch): seq<IpRow> {
    DedupBy(Project(batch, IpOf), IpKey)
  }

  /** One row per IP of the batch, carrying the ISP of the IP's first raw row. */
  lemma IpMasterSpec(batch: Batch)
    ensures |IpMaster(batch)| <= |batch|
    ensures UniqueKeys(IpMaster(batch), IpKey)
    ensures KeySet(IpMaster(batch), IpKey) == KeySet(batch, RawIp)
    ensures forall i :: 0 <= i < |IpMaster(batch)| ==>
              IpMaster(batch)[i].ip in KeySet(batch, RawIp)
              && IpMaster(batch)[i] == IpOf(batch[FirstIndex(batch, RawIp, IpMaster(batch)[i].ip)])
  {
    var p := Project(batch, IpOf);
    SameKeyColumn(p, IpKey, batch, RawIp);
    forall i | 0 <= i < |IpMaster(batch)|
      ensures IpMaster(batch)[i].ip in KeySet(batch, RawIp)
      ensures IpMaster(batch)[i] == IpOf(batch[FirstIndex(batch, RawIp, IpMaster(batch)[i].ip)])
    {
      DedupKeepsFirst(p, IpKey, {}, i);
      FirstIndexSameColumn(p, IpKey, batch, RawIp, IpMaster(batch)[i].ip);
    }
  }

  // ---------------------------------------------------------------------------
  // Partition

  datatype Parts = Parts(devices: seq<DeviceRow>, apps: AppTable, ips: seq<IpRow>, events: seq<EventRow>)

  datatype PartitionError = KeyColumnRenamed

  /**
    * The IAB renaming moves the AppID or AppName column, or renames a category column
    * onto one of them; the event join then finds no unique AppID/AppName pair.
    */
  predicate KeyColumnsClash(iab: map<string, string>, universe: set<string>) {
    Relabel(iab, AppIdColumn) != AppIdColumn || Relabel(iab, AppNameColumn) != AppNameColumn
    || exists c :: c in universe && (Relabel(iab, c) == AppIdColumn || Relabel(iab, c) == AppNameColumn)
  }

  /** partition: the four tables of one batch. */
  function PartitionOf(batch: Batch, iab: map<string, string>, hash: string -> int): Result<Parts, PartitionError> {
    var am := AppMaster(batch, iab, hash);
    if KeyColumnsClash(iab, TagUniverse(AppListings(batch))) then Err(KeyColumnRenamed)
    else Ok(Parts(DeviceMaster(batch), am, IpMaster(batch), EventMaster(batch, am)))
  }

  method Partition(batch: Batch, iab: map<string, string>, hash: string -> int)
    returns (r: Result<Parts, PartitionError>)
    ensures r == PartitionOf(batch, iab, hash)
  {
    var dm := DeviceMaster(batch);
    var am := CreateAppMaster(batch, iab, hash);
    var im := IpMaster(batch);
    if KeyColumnsClash(iab, TagUniverse(AppListings(batch))) {
      return Err(KeyColumnRenamed);
    }
    var em := EventMaster(batch, am);
    r := Ok(Parts(dm, am, im, em));
  }

  /** The keys of the three dimension tables are unique and every event carries an AppID. */
  predicate PartsValid(p: Parts) {
    UniqueKeys(p.devices, DeviceKey) && UniqueKeys(p.apps.rows, AppKey) && UniqueKeys(p.ips, IpKey)
    && CellsInColumns(p.apps) && EventsResolved(p.events)
  }

  /**
    * A batch partitions unless the IAB mapping clashes with the key columns, and then
    * every table has unique keys, at most one row per raw row, and resolved events.
    */
  lemma PartitionSpec(batch: Batch, iab: map<string, string>, hash: string -> int)
    ensures PartitionOf(batch, iab, hash).Ok? <==> !KeyColumnsClash(iab, TagUniverse(AppListings(batch)))
    ensures PartitionOf(batch, iab, hash).Ok? ==>
              var p := PartitionOf(batch, iab, hash).value;
              PartsValid(p)
              && |p.devices| <= |batch| && |p.apps.rows| <= |batch| && |p.ips| <= |batch| && |p.events| <= |batch|
  {
    var am := AppMaster(batch, iab, hash);
    if !KeyColumnsClash(iab, TagUniverse(AppListings(batch))) {
      var p := Parts(DeviceMaster(batch), am, IpMaster(batch), EventMaster(batch, am));
      assert PartitionOf(batch, iab, hash) == Ok(p);
      DeviceMasterKeys(batch);
      AppMasterKeys(batch, iab, hash);
      IpMasterSpec(batch);
      AppMasterCellsInColumns(batch, iab, hash);
      EventMasterResolved(batch, iab, hash);
    }
  }

  /** Every cell of the app table lies in its columns. */
  lemma AppMasterCellsInColumns(batch: Batch, iab: map<string, string>, hash: string -> int)
    ensures CellsInColumns(AppMaster(batch, iab, hash))
  {
    var t := AppMaster(batch, iab, hash);
    forall i | 0 <= i < |t.rows| ensures t.rows[i].categories.Keys <= t.columns {
      AppMasterRows(batch, iab, hash, i);
    }
  }

  /** The event table has at most one row per raw row, each with an AppID. */
  lemma EventMasterResolved(batch: Batch, iab: map<string, string>, hash: string -> int)
    ensures |EventMaster(batch, AppMaster(batch, iab, hash))| <= |batch|
    ensures EventsResolved(EventMaster(batch, AppMaster(batch, iab, hash)))
  {
    EventMasterSpec(batch, iab, hash);
    var x: Visit :| true;
    VisitsSpec(batch, x);
  }
}
