/**
  * The string logic of the S3 helper in aws_etl.py: splitting "s3://bucket/key" paths,
  * the ".txt" guard of get_list, object keys built by the write methods and the bucket
  * each method addresses, the suffix dispatch of multi_read, and the listing table that
  * crawl_size builds from object keys. The object store itself is an oracle: a write is a
  * Put appended to the client's log, a read is a function of bucket and key.
  */
module S3 {
  import opened Wrappers
  import opened Text

  const Scheme := "s3://"
  const DefaultRegion := "us-east-2"
  const CsvExtension := ".csv"
  const DictExtension := ".dict"
  const ParquetExtension := ".parquet"
  const TextSuffix := ".txt"
  const SizeColumn := "Size"

  datatype S3Error =
    | UnpackError    // `bucket, obj = path.split("/", 1)` found no "/"
    | NotTextFile    // get_list's ValueError("Must be .txt file.")
    | ReadFailed     // the object store could not return the object
    | EmptyListing   // crawl_size indexed meta_list[0] of an empty listing
    | ColumnMismatch // a key has more levels than either column list of crawl_size allows

  // ---------------------------------------------------------------------------
  // parse_path and get_list

  /** The path with a leading "s3://" removed, when it has one. */
  function Deprefix(s3Path: string): string {
    if |s3Path| >= |Scheme| && s3Path[..|Scheme|] == Scheme then s3Path[|Scheme|..] else s3Path
  }

  /**
    * parse_path: the bucket is the text before the first "/" of the de-prefixed path and
    * the object key the text after it; without a "/" the tuple unpacking fails.
    */
  function ParsePath(s3Path: string): (r: Result<(string, string), S3Error>)
    ensures r.Ok? <==> '/' in Deprefix(s3Path)
    ensures r.Ok? ==> '/' !in r.value.0 && r.value.0 + "/" + r.value.1 == Deprefix(s3Path)
    ensures r.Err? ==> r.error == UnpackError
  {
    var path := Deprefix(s3Path);
    var i := IndexOf(path, '/');
    if i == |path| then Err(UnpackError)
    else
      assert path == path[..i] + "/" + path[i + 1..];
      Ok((path[..i], path[i + 1..]))
  }

  /** A bucket without "/" and any key, written as an s3:// path, parse back to themselves. */
  lemma ParsePathRoundTrip(bucket: string, key: string)
    requires '/' !in bucket
    ensures ParsePath(Scheme + bucket + "/" + key) == Ok((bucket, key))
  {
    var s := Scheme + bucket + "/" + key;
    assert s[..|Scheme|] == Scheme;
    assert Deprefix(s) == bucket + "/" + key;
    var r := ParsePath(s);
    var b := r.value.0;
    var path := bucket + "/" + key;
    assert path[|bucket|] == '/';
    assert b == path[..|b|] == bucket;
    assert r.value.1 == path[|bucket| + 1..] == key;
  }

  /**
    * get_list: the path is split first, the key must end in ".txt" (its last four
    * characters, compared as Python's obj_path[-4:]), and the object's text is split into
    * lines. `fetch` stands for the object store.
    */
  function GetList(s3Path: string, fetch: (string, string) -> Option<string>)
    : (r: Result<seq<string>, S3Error>)
    ensures ParsePath(s3Path).Err? ==> r == Err(UnpackError)
    ensures (ParsePath(s3Path).Ok? && !EndsWith(ParsePath(s3Path).value.1, TextSuffix))
            ==> r == Err(NotTextFile)
    ensures r.Ok? ==> ParsePath(s3Path).Ok?
                      && EndsWith(ParsePath(s3Path).value.1, TextSuffix)
                      && fetch(ParsePath(s3Path).value.0, ParsePath(s3Path).value.1).Some?
                      && r.value == SplitLines(fetch(ParsePath(s3Path).value.0,
                                                     ParsePath(s3Path).value.1).value)
    ensures ParsePath(s3Path).Ok? && EndsWith(ParsePath(s3Path).value.1, TextSuffix) ==>
              var bucket := ParsePath(s3Path).value.0;
              var key := ParsePath(s3Path).value.1;
              r == if fetch(bucket, key).Some? then Ok(SplitLines(fetch(bucket, key).value))
                   else Err(ReadFailed)
  {
    match ParsePath(s3Path)
    case Err(e) => Err(e)
    case Ok((bucket, objPath)) =>
      TailIsSuffix(objPath, TextSuffix);
      if Tail(objPath, 4) != TextSuffix then Err(NotTextFile)
      else
        match fetch(bucket, objPath)
        case None => Err(ReadFailed)
        case Some(body) => Ok(SplitLines(body))
  }

  // ---------------------------------------------------------------------------
  // Object keys and buckets

  /**
    * The key write_csv, write_dict and write_parquet store under: the path, the object
    * name up to its first ".", and the method's own extension.
    */
  function ObjectKey(path: string, objectName: string, extension: string): (key: string)
    ensures |key| >= |path| + |extension|
    ensures key[..|path|] == path && key[|key| - |extension|..] == extension
    ensures var stem := key[|path|..|key| - |extension|];
            '.' !in stem && |stem| <= |objectName| && stem == objectName[..|stem|]
            && (|stem| < |objectName| ==> objectName[|stem|] == '.')
  {
    var stem := Before(objectName, '.');
    var key := path + stem + extension;
    assert key[|path|..|key| - |extension|] == stem;
    key
  }

  /** An object name without "." is used whole. */
  lemma ObjectKeyOfPlainName(path: string, objectName: string, extension: string)
    requires '.' !in objectName
    ensures ObjectKey(path, objectName, extension) == path + objectName + extension
  {
    var key := ObjectKey(path, objectName, extension);
    var stem := key[|path|..|key| - |extension|];
    assert key == path + stem + extension;
  }

  /**
    * The bucket a write goes to: the client's own bucket, and only when the call names
    * none. A client without a bucket only prints a message; a call that names a bucket
    * writes nothing at all.
    */
  function WriteBucket(ownBucket: Option<string>, bucketArg: Option<string>): (r: Option<string>)
    ensures r.Some? <==> ownBucket.Some? && bucketArg.None?
    ensures r.Some? ==> r == ownBucket
  {
    if ownBucket.None? then None
    else if bucketArg.None? then ownBucket
    else None
  }

  /** One stored object. */
  datatype Put<B> = Put(bucket: string, key: string, body: B)

  /** The objects one write call stores: none, or one under ObjectKey in the write bucket. */
  function WritePuts<B>(ownBucket: Option<string>, bucketArg: Option<string>, path: string,
                        objectName: string, extension: string, body: B): (r: seq<Put<B>>)
    ensures |r| <= 1
    ensures |r| == 1 <==> ownBucket.Some? && bucketArg.None?
    ensures |r| == 1 ==> r[0].bucket == ownBucket.value && r[0].body == body
                         && EndsWith(r[0].key, extension) && path <= r[0].key
  {
    match WriteBucket(ownBucket, bucketArg)
    case None => []
    case Some(bucket) => [Put(bucket, ObjectKey(path, objectName, extension), body)]
  }

  /**
    * The S3 helper object: the bucket and region fixed at construction, and the log of
    * objects its write methods have stored (standing for the object store).
    */
  class Client<B> {
    const bucketName: Option<string>
    const region: string
    var puts: seq<Put<B>>

    constructor (bucketName: Option<string>, region: Option<string>)
      ensures this.bucketName == bucketName
      ensures this.region == if region.Some? then region.value else DefaultRegion
      ensures puts == []
    {
      this.bucketName := bucketName;
      this.region := if region.Some? then region.value else DefaultRegion;
      puts := [];
    }

    /**
      * The bucket read_csv, read_dict and read_parquet address: the argument when given,
      * otherwise the client's own bucket (which may be unset, and then the read fails).
      */
    function ReadBucket(bucketArg: Option<string>): (r: Option<string>)
      ensures bucketArg.Some? ==> r == bucketArg
      ensures bucketArg.None? ==> r == bucketName
      ensures r.None? <==> bucketArg.None? && bucketName.None?
    {
      if bucketArg.None? then bucketName else bucketArg
    }

    method WriteCsv(body: B, objectName: string, path: string, bucketArg: Option<string>)
      modifies this
      ensures puts == old(puts) + WritePuts(bucketName, bucketArg, path, objectName, CsvExtension, body)
    {
      puts := puts + WritePuts(bucketName, bucketArg, path, objectName, CsvExtension, body);
    }

    method WriteDict(body: B, objectName: string, path: string, bucketArg: Option<string>)
      modifies this
      ensures puts == old(puts) + WritePuts(bucketName, bucketArg, path, objectName, DictExtension, body)
    {
      puts := puts + WritePuts(bucketName, bucketArg, path, objectName, DictExtension, body);
    }

    method WriteParquet(body: B, objectName: string, path: string, bucketArg: Option<string>)
      modifies this
      ensures puts == old(puts) + WritePuts(bucketName, bucketArg, path, objectName, ParquetExtension, body)
    {
      puts := puts + WritePuts(bucketName, bucketArg, path, objectName, ParquetExtension, body);
    }
  }

  // ---------------------------------------------------------------------------
  // multi_read

  datatype Format = Csv | Parquet

  /** The reader multi_read picks for a key, or none when it skips the key. */
  function ReadFormat(key: string): (f: Option<Format>)
    ensures f == Some(Csv) <==> EndsWith(key, ".csv")
    ensures f == Some(Parquet) <==>
              (!EndsWith(key, ".csv")
               && (EndsWith(key, ".parquet") || EndsWith(key, ".pq") || EndsWith(key, ".parquet.snappy")))
  {
    if EndsWith(key, ".csv") then Some(Csv)
    else if EndsWith(key, ".parquet") || EndsWith(key, ".pq") || EndsWith(key, ".parquet.snappy")
    then Some(Parquet)
    else None
  }

  /** Whether a key ending in ext ends in another suffix is decided by ext alone. */
  lemma SuffixOfSuffix(key: string, ext: string, suffix: string)
    requires EndsWith(key, ext)
    ensures |suffix| <= |ext| ==> (EndsWith(key, suffix) <==> EndsWith(ext, suffix))
    ensures |ext| <= |suffix| && EndsWith(key, suffix) ==> EndsWith(suffix, ext)
  {
    if |suffix| <= |ext| {
      assert key[|key| - |suffix|..] == ext[|ext| - |suffix|..];
    }
    if |ext| <= |suffix| <= |key| {
      assert key[|key| - |ext|..] == key[|key| - |suffix|..][|suffix| - |ext|..];
    }
  }

  /**
    * What the write methods store, multi_read reads back with the matching reader:
    * ".csv" objects as CSV, ".parquet" objects as Parquet, and ".dict" objects not at all.
    */
  lemma WrittenKeysReadBack(path: string, objectName: string)
    ensures ReadFormat(ObjectKey(path, objectName, CsvExtension)) == Some(Csv)
    ensures ReadFormat(ObjectKey(path, objectName, ParquetExtension)) == Some(Parquet)
    ensures ReadFormat(ObjectKey(path, objectName, DictExtension)) == None
  {
    var pq := ObjectKey(path, objectName, ParquetExtension);
    var dict := ObjectKey(path, objectName, DictExtension);
    SuffixOfSuffix(pq, ParquetExtension, ".csv");
    assert !EndsWith(ParquetExtension, ".csv");
    SuffixOfSuffix(dict, DictExtension, ".csv");
    assert !EndsWith(DictExtension, ".csv");
    SuffixOfSuffix(dict, DictExtension, ".pq");
    assert !EndsWith(DictExtension, ".pq");
    SuffixOfSuffix(dict, DictExtension, ".parquet");
    assert !EndsWith(".parquet", DictExtension);
    SuffixOfSuffix(dict, DictExtension, ".parquet.snappy");
    assert !EndsWith(".parquet.snappy", DictExtension);
  }

  /** The reads multi_read makes over a collection of keys, in order, with their readers. */
  function ReadPlan(keys: seq<string>): seq<(string, Format)> {
    if keys == [] then []
    else
      var last := keys[|keys| - 1];
      ReadPlan(keys[..|keys| - 1]) + match ReadFormat(last) {
        case None => []
        case Some(f) => [(last, f)]
      }
  }

  /** Every read uses a key of the collection with the reader its suffix selects. */
  lemma {:induction false} ReadPlanSound(keys: seq<string>, k: int)
    requires 0 <= k < |ReadPlan(keys)|
    ensures ReadPlan(keys)[k].0 in keys
    ensures ReadFormat(ReadPlan(keys)[k].0) == Some(ReadPlan(keys)[k].1)
  {
    var init := keys[..|keys| - 1];
    if k < |ReadPlan(init)| {
      ReadPlanSound(init, k);
      assert ReadPlan(keys)[k] == ReadPlan(init)[k];
    }
  }

  /** Every key with a recognised suffix is read. */
  lemma {:induction false} ReadPlanComplete(keys: seq<string>, key: string)
    requires key in keys && ReadFormat(key).Some?
    ensures (key, ReadFormat(key).value) in ReadPlan(keys)
  {
    var init := keys[..|keys| - 1];
    if key != keys[|keys| - 1] {
      assert key in init by {
        var j :| 0 <= j < |keys| && keys[j] == key;
        assert j < |keys| - 1 && init[j] == key;
      }
      ReadPlanComplete(init, key);
    }
  }

  /** The object-collection loop of multi_read, reduced to the reads it issues. */
  method MultiRead(keys: seq<string>) returns (planned: seq<(string, Format)>)
    ensures planned == ReadPlan(keys)
  {
    planned := [];
    var i := 0;
    while i < |keys|
      invariant 0 <= i <= |keys|
      invariant planned == ReadPlan(keys[..i])
    {
      assert keys[..i + 1][..i] == keys[..i];
      match ReadFormat(keys[i]) {
        case None =>
        case Some(f) => planned := planned + [(keys[i], f)];
      }
      i := i + 1;
    }
    assert keys[..i] == keys;
  }

  // ---------------------------------------------------------------------------
  // crawl_size

  datatype ObjectInfo = ObjectInfo(key: string, size: int)

  /** One entry of crawl_size's meta_list: a key's "/"-separated levels and its size. */
  datatype MetaRow = MetaRow(levels: seq<string>, size: int)

  /** The returned DataFrame: its column labels and its rows. */
  datatype MetaFrame = MetaFrame(columns: seq<string>, rows: seq<MetaRow>)

  function LevelName(i: nat): string {
    "Level " + NatToString(i)
  }

  function MetaOf(o: ObjectInfo): MetaRow {
    MetaRow(Split(o.key, '/'), o.size)
  }

  /**
    * The width of the DataFrame built from meta_list: the length of the first entry
    * (levels and size) when no entry is longer; otherwise, in the except branch, one more
    * when no entry is longer than that; otherwise both constructions fail.
    */
  function FrameWidth(meta: seq<MetaRow>): (w: Option<nat>)
    requires meta != []
    ensures w.Some? ==> w.value >= 1 && forall k :: 0 <= k < |meta| ==> |meta[k].levels| + 1 <= w.value
    ensures w.Some? ==> w.value == |meta[0].levels| + 1 || w.value == |meta[0].levels| + 2
    ensures w == Some(|meta[0].levels| + 1)
            <==> forall k :: 0 <= k < |meta| ==> |meta[k].levels| <= |meta[0].levels|
    ensures w.None? <==> exists k :: 0 <= k < |meta| && |meta[k].levels| > |meta[0].levels| + 1
  {
    var n := |meta[0].levels| + 1;
    if forall k :: 0 <= k < |meta| ==> |meta[k].levels| + 1 <= n then Some(n)
    else if forall k :: 0 <= k < |meta| ==> |meta[k].levels| + 1 <= n + 1 then Some(n + 1)
    else None
  }

  /** "Level 0" .. "Level w-2" and "Size". */
  function ColumnNames(width: nat): (names: seq<string>)
    requires width >= 1
  {
    seq(width - 1, i requires 0 <= i < width - 1 => LevelName(i)) + [SizeColumn]
  }

  /** The column labels of crawl_size's table are pairwise distinct. */
  lemma ColumnNamesDistinct(width: nat, i: int, j: int)
    requires width >= 1 && 0 <= i < j < width
    ensures ColumnNames(width)[i] != ColumnNames(width)[j]
  {
    var names := ColumnNames(width);
    if j < width - 1 {
      assert names[i] == LevelName(i) && names[j] == LevelName(j);
      if LevelName(i) == LevelName(j) {
        assert NatToString(i) == LevelName(i)[6..] == LevelName(j)[6..] == NatToString(j);
        NatToStringInjective(i, j);
      }
    } else {
      assert names[j] == SizeColumn;
      assert names[i][0] == 'L';
    }
  }

  /** Rows that fill every column (no missing cell for dropna) and have a positive size. */
  function KeptRows(meta: seq<MetaRow>, width: nat): (rows: seq<MetaRow>)
    ensures forall r :: r in rows ==> r in meta && r.size > 0 && |r.levels| + 1 == width
    ensures forall r :: r in meta && r.size > 0 && |r.levels| + 1 == width ==> r in rows
  {
    if meta == [] then []
    else
      var rest := KeptRows(meta[1..], width);
      assert forall r :: r in meta[1..] ==> r in meta;
      if meta[0].size > 0 && |meta[0].levels| + 1 == width then [meta[0]] + rest else rest
  }

  /** The table crawl_size returns for a listing. */
  function MetaTable(objects: seq<ObjectInfo>): Result<MetaFrame, S3Error> {
    if objects == [] then Err(EmptyListing)
    else
      var meta := seq(|objects|, k requires 0 <= k < |objects| => MetaOf(objects[k]));
      match FrameWidth(meta)
      case None => Err(ColumnMismatch)
      case Some(w) => Ok(MetaFrame(ColumnNames(w), KeptRows(meta, w)))
  }

  /**
    * crawl_size over an already listed collection: the levels-and-size table and the
    * list of paths, which rejoins every listed key (not only the kept rows) with "/".
    */
  method CrawlSize(objects: seq<ObjectInfo>) returns (r: Result<(MetaFrame, seq<string>), S3Error>)
    ensures r.Ok? <==> MetaTable(objects).Ok?
    ensures r.Ok? ==> r.value.0 == MetaTable(objects).value
    ensures r.Err? ==> r.error == MetaTable(objects).error
    ensures r.Ok? ==> |r.value.1| == |objects|
                      && forall k :: 0 <= k < |objects| ==> r.value.1[k] == objects[k].key
    ensures r == Err(EmptyListing) <==> objects == []
    ensures r == Err(ColumnMismatch) <==>
              objects != [] && exists k :: 0 <= k < |objects|
                                           && |Split(objects[k].key, '/')| > |Split(objects[0].key, '/')| + 1
    ensures r.Ok? ==> var width := |r.value.0.columns|;
                      width == |Split(objects[0].key, '/')| + 1 || width == |Split(objects[0].key, '/')| + 2
  {
    var meta: seq<MetaRow> := [];
    var i := 0;
    while i < |objects|
      invariant 0 <= i <= |objects|
      invariant meta == seq(i, k requires 0 <= k < i => MetaOf(objects[k]))
    {
      meta := meta + [MetaOf(objects[i])];
      i := i + 1;
    }
    if meta == [] {
      return Err(EmptyListing);
    }
    var width := FrameWidth(meta);
    if width.None? {
      return Err(ColumnMismatch);
    }
    var names: seq<string> := [];
    var j := 0;
    while j < width.value - 1
      invariant 0 <= j <= width.value - 1
      invariant names == seq(j, k requires 0 <= k < j => LevelName(k))
    {
      names := names + [LevelName(j)];
      j := j + 1;
    }
    names := names + [SizeColumn];
    var frame := MetaFrame(names, KeptRows(meta, width.value));
    var paths := seq(|meta|, k requires 0 <= k < |meta| => Join(meta[k].levels, '/'));
    forall k | 0 <= k < |objects|
      ensures paths[k] == objects[k].key
    {
      JoinSplit(objects[k].key, '/');
    }
    r := Ok((frame, paths));
  }
}
