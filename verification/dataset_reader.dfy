/** The construction-time bookkeeping of the BC5CDR dataset reader: resolving
    the train/dev/test document identifiers (pmids) from the manifest files,
    dropping those without a preprocessed document, and giving every mention
    of the kept documents a dense integer id, split by split. */
module DatasetReader {
  import opened PyStr
  import opened Selection

  /** One annotated mention record of a preprocessed document; its schema is
      not looked at. */
  type Mention

  datatype Result<+T, +E> = Ok(value: T) | Err(error: E)

  /** What the reader raises: the failed flag assertion, or a file it tried
      to open that is not there. */
  datatype ReaderError = AssertionFailed | FileNotFound(path: string)

  /** The two configured directories (each used as a plain string prefix). */
  datatype Config = Config(datasetDir: string, preprocessedDocDir: string)

  /** The files the reader can see: text files as their lines, and the
      preprocessed JSON documents as the value of their `lines` field. A
      preprocessed document exists exactly when its path is a key. */
  datatype Disk = Disk(textFiles: map<string, seq<string>>, parsedDocs: map<string, seq<Mention>>)

  // ---------------------------------------------------------------------
  // Split resolver
  // ---------------------------------------------------------------------

  const ManifestPrefix: string := "corpus_pubtator_pmids_"

  /** The flags the manifest reader accepts. */
  predicate IsSplitFlag(flag: string) {
    flag == "train" || flag == "dev" || flag == "test"
  }

  /** The manifest file name tag of a flag: the training manifest is `trng`. */
  function ManifestTag(flag: string): string {
    if flag == "train" then "trng" else flag
  }

  function ManifestPath(datasetDir: string, flag: string): string {
    datasetDir + ManifestPrefix + ManifestTag(flag) + ".txt"
  }

  /** The three splits read three different manifest files. */
  lemma ManifestPathsDistinct(datasetDir: string)
    ensures ManifestPath(datasetDir, "train") != ManifestPath(datasetDir, "dev")
    ensures ManifestPath(datasetDir, "train") != ManifestPath(datasetDir, "test")
    ensures ManifestPath(datasetDir, "dev") != ManifestPath(datasetDir, "test")
  {
    var k := |datasetDir| + |ManifestPrefix|;
    assert ManifestPath(datasetDir, "train")[k] == 't';
    assert ManifestPath(datasetDir, "dev")[k] == 'd';
    assert ManifestPath(datasetDir, "test")[k] == 't';
    assert ManifestPath(datasetDir, "train")[k + 1] == 'r';
    assert ManifestPath(datasetDir, "test")[k + 1] == 'e';
  }

  /** A document identifier as it comes out of a manifest. */
  predicate IsPmid(pmid: string) {
    pmid != "" && !IsSpace(pmid[0]) && !IsSpace(pmid[|pmid| - 1])
  }

  /** The identifiers a manifest lists: each line stripped, blank lines
      dropped, file order kept. */
  function ParseManifest(lines: seq<string>): (pmids: seq<string>)
    ensures |pmids| <= |lines|
    ensures forall k :: 0 <= k < |pmids| ==> IsPmid(pmids[k])
  {
    if lines == [] then []
    else
      var n := |lines| - 1;
      var pmid := Strip(lines[n]);
      ParseManifest(lines[..n]) + (if pmid != "" then [pmid] else [])
  }

  /** Every line, stripped. */
  function StripAll(lines: seq<string>): seq<string> {
    seq(|lines|, i requires 0 <= i < |lines| => Strip(lines[i]))
  }

  predicate IsNonEmpty(s: string) {
    s != ""
  }

  /** Reading a manifest line by line is the comprehension
      `[l.strip() for l in lines if l.strip() != ""]`. */
  lemma {:induction false} ParseManifestIsFilter(lines: seq<string>)
    ensures ParseManifest(lines) == Filter(StripAll(lines), IsNonEmpty)
  {
    if lines != [] {
      var n := |lines| - 1;
      ParseManifestIsFilter(lines[..n]);
      assert StripAll(lines)[..n] == StripAll(lines[..n]);
    }
  }

  /** The k-th identifier of a manifest is the stripped line at the k-th
      position whose line is not blank: no non-blank line is lost, no blank
      one is kept, and the order is that of the file. */
  lemma ParseManifestPositions(lines: seq<string>)
    ensures PicksAt(ParseManifest(lines), StripAll(lines), Positions(StripAll(lines), IsNonEmpty))
  {
    ParseManifestIsFilter(lines);
    FilterAtPositions(StripAll(lines), IsNonEmpty);
  }

  /** An identifier is listed exactly when some line of the manifest strips
      to it and it is not empty. */
  lemma ParseManifestMembership(lines: seq<string>, pmid: string)
    ensures pmid in ParseManifest(lines) <==>
      pmid != "" && exists i :: 0 <= i < |lines| && Strip(lines[i]) == pmid
  {
    ParseManifestIsFilter(lines);
    FilterMembership(StripAll(lines), IsNonEmpty, pmid);
    if pmid in StripAll(lines) {
      var i :| 0 <= i < |lines| && StripAll(lines)[i] == pmid;
    }
    if exists i :: 0 <= i < |lines| && Strip(lines[i]) == pmid {
      var i :| 0 <= i < |lines| && Strip(lines[i]) == pmid;
      assert StripAll(lines)[i] == pmid;
    }
  }

  /** `_pmid_returner`: reads the manifest of one split. An unknown flag fails
      the assertion; a missing manifest fails to open. */
  method PmidReturner(config: Config, disk: Disk, flag: string)
    returns (res: Result<seq<string>, ReaderError>)
    ensures !IsSplitFlag(flag) ==> res == Err(AssertionFailed)
    ensures IsSplitFlag(flag) ==>
      var path := ManifestPath(config.datasetDir, flag);
      res == if path in disk.textFiles then Ok(ParseManifest(disk.textFiles[path]))
             else Err(FileNotFound(path))
  {
    if !IsSplitFlag(flag) {
      return Err(AssertionFailed);
    }
    var path := config.datasetDir + ManifestPrefix;
    if flag == "train" {
      path := path + "trng";
    } else {
      path := path + flag;
    }
    path := path + ".txt";
    if path !in disk.textFiles {
      return Err(FileNotFound(path));
    }
    var lines := disk.textFiles[path];
    var pmids := [];
    var i := 0;
    while i < |lines|
      invariant 0 <= i <= |lines|
      invariant pmids == ParseManifest(lines[..i])
    {
      var line := Strip(lines[i]);
      if line != "" {
        pmids := pmids + [line];
      }
      assert lines[..i + 1][..i] == lines[..i];
      i := i + 1;
    }
    assert lines[..i] == lines;
    return Ok(pmids);
  }

  /** The path of the preprocessed document of `pmid`. */
  function DocPath(docDir: string, pmid: string): string {
    docDir + pmid + ".json"
  }

  /** Different identifiers probe different files. */
  lemma DocPathInjective(docDir: string, p: string, q: string)
    requires DocPath(docDir, p) == DocPath(docDir, q)
    ensures p == q
  {
    var path := DocPath(docDir, p);
    assert p == path[|docDir|..|path| - 5];
    assert q == DocPath(docDir, q)[|docDir|..|path| - 5];
  }

  /** `_is_parsed_doc_exist_per_pmid`: 1 when the preprocessed document of
      `pmid` exists, 0 when it does not. */
  function IsParsedDocExist(config: Config, disk: Disk, pmid: string): (r: int)
    ensures r == 0 || r == 1
    ensures r == 1 <==> DocPath(config.preprocessedDocDir, pmid) in disk.parsedDocs
  {
    if DocPath(config.preprocessedDocDir, pmid) in disk.parsedDocs then 1 else 0
  }

  /** The truth value Python gives the result of the existence check. */
  function ParsedDocExists(config: Config, disk: Disk): string -> bool {
    pmid => IsParsedDocExist(config, disk, pmid) != 0
  }

  /** The list comprehension of `_train_dev_test_pmid_returner`; it only keeps
      identifiers whose preprocessed document exists. */
  function KeepParsed(config: Config, disk: Disk, pmids: seq<string>): (kept: seq<string>)
    ensures AllParsed(config, disk, kept)
  {
    var kept := Filter(pmids, ParsedDocExists(config, disk));
    assert forall k :: 0 <= k < |kept| ==> ParsedDocExists(config, disk)(kept[k]);
    kept
  }

  /** Every identifier the filter keeps has a preprocessed document, and an
      identifier of the manifest is dropped only when it has none. */
  lemma KeepParsedExactly(config: Config, disk: Disk, pmids: seq<string>, pmid: string)
    ensures pmid in KeepParsed(config, disk, pmids) <==>
      pmid in pmids && DocPath(config.preprocessedDocDir, pmid) in disk.parsedDocs
  {
    FilterMembership(pmids, ParsedDocExists(config, disk), pmid);
  }

  /** The filtered identifiers of one split, when its manifest exists. */
  function SplitPmids(config: Config, disk: Disk, flag: string): seq<string>
    requires ManifestPath(config.datasetDir, flag) in disk.textFiles
  {
    KeepParsed(config, disk, ParseManifest(disk.textFiles[ManifestPath(config.datasetDir, flag)]))
  }

  /** The first manifest, in the order train, dev, test, that is missing. */
  function MissingManifest(config: Config, disk: Disk): (r: Result<(), ReaderError>)
    ensures r.Ok? <==> forall flag :: IsSplitFlag(flag) ==> ManifestPath(config.datasetDir, flag) in disk.textFiles
    ensures r.Err? ==>
      exists flag :: IsSplitFlag(flag) && ManifestPath(config.datasetDir, flag) !in disk.textFiles &&
        r.error == FileNotFound(ManifestPath(config.datasetDir, flag))
    ensures r == Err(FileNotFound(ManifestPath(config.datasetDir, "dev"))) ==>
      ManifestPath(config.datasetDir, "train") in disk.textFiles
    ensures r == Err(FileNotFound(ManifestPath(config.datasetDir, "test"))) ==>
      ManifestPath(config.datasetDir, "train") in disk.textFiles && ManifestPath(config.datasetDir, "dev") in disk.textFiles
  {
    var dir := config.datasetDir;
    ManifestPathsDistinct(dir);
    if ManifestPath(dir, "train") !in disk.textFiles then Err(FileNotFound(ManifestPath(dir, "train")))
    else if ManifestPath(dir, "dev") !in disk.textFiles then Err(FileNotFound(ManifestPath(dir, "dev")))
    else if ManifestPath(dir, "test") !in disk.textFiles then Err(FileNotFound(ManifestPath(dir, "test")))
    else Ok(())
  }

  datatype SplitPmidLists = SplitPmidLists(train: seq<string>, dev: seq<string>, test: seq<string>)

  /** `_train_dev_test_pmid_returner`: the three manifests, each filtered to
      the identifiers whose preprocessed document exists. */
  method TrainDevTestPmidReturner(config: Config, disk: Disk)
    returns (res: Result<SplitPmidLists, ReaderError>)
    ensures MissingManifest(config, disk).Err? ==> res == Err(MissingManifest(config, disk).error)
    ensures MissingManifest(config, disk).Ok? ==>
      res == Ok(SplitPmidLists(SplitPmids(config, disk, "train"), SplitPmids(config, disk, "dev"),
                               SplitPmids(config, disk, "test")))
  {
    var train := PmidReturner(config, disk, "train");
    if train.Err? {
      return Err(train.error);
    }
    var dev := PmidReturner(config, disk, "dev");
    if dev.Err? {
      return Err(dev.error);
    }
    var test := PmidReturner(config, disk, "test");
    if test.Err? {
      return Err(test.error);
    }
    var keep := ParsedDocExists(config, disk);
    res := Ok(SplitPmidLists(Filter(train.value, keep), Filter(dev.value, keep), Filter(test.value, keep)));
  }

  // ---------------------------------------------------------------------
  // Mention indexer
  // ---------------------------------------------------------------------

  /** `_pmid2mentions`: the `lines` field of the preprocessed document. */
  function Pmid2Mentions(config: Config, disk: Disk, pmid: string): (r: Result<seq<Mention>, ReaderError>)
    ensures r.Ok? <==> DocPath(config.preprocessedDocDir, pmid) in disk.parsedDocs
    ensures r.Ok? ==> r.value == disk.parsedDocs[DocPath(config.preprocessedDocDir, pmid)]
    ensures r.Err? ==> r.error == FileNotFound(DocPath(config.preprocessedDocDir, pmid))
  {
    var path := DocPath(config.preprocessedDocDir, pmid);
    if path in disk.parsedDocs then Ok(disk.parsedDocs[path]) else Err(FileNotFound(path))
  }

  /** Every identifier of the list has a preprocessed document. */
  predicate AllParsed(config: Config, disk: Disk, pmids: seq<string>) {
    forall k :: 0 <= k < |pmids| ==> DocPath(config.preprocessedDocDir, pmids[k]) in disk.parsedDocs
  }

  /** The mentions of the documents, document after document. */
  function SplitMentions(config: Config, disk: Disk, pmids: seq<string>): seq<Mention>
    requires AllParsed(config, disk, pmids)
  {
    if pmids == [] then []
    else
      var n := |pmids| - 1;
      SplitMentions(config, disk, pmids[..n]) + disk.parsedDocs[DocPath(config.preprocessedDocDir, pmids[n])]
  }

  /** The id-to-mention dictionary that gives the k-th mention the id k. */
  function Indexed(mentions: seq<Mention>): map<int, Mention> {
    map k | 0 <= k < |mentions| :: mentions[k]
  }

  /** Registering one more mention under the next id adds a fresh key and
      leaves every earlier entry as it was. */
  lemma IndexedAppend(mentions: seq<Mention>, m: Mention)
    ensures |mentions| !in Indexed(mentions)
    ensures Indexed(mentions + [m]) == Indexed(mentions)[|mentions| := m]
  {
  }

  /** The dictionary has exactly one entry per mention, so its size is the
      next id to give out. */
  lemma {:induction false} IndexedSize(mentions: seq<Mention>)
    ensures |Indexed(mentions)| == |mentions|
  {
    if mentions != [] {
      var n := |mentions| - 1;
      IndexedSize(mentions[..n]);
      IndexedAppend(mentions[..n], mentions[n]);
      assert mentions[..n] + [mentions[n]] == mentions;
    }
  }

  /** The ids lo, lo + 1, ..., hi - 1. */
  function Range(lo: int, hi: int): seq<int>
    requires lo <= hi
  {
    seq(hi - lo, k => lo + k)
  }

  lemma RangeAppend(lo: int, hi: int)
    requires lo <= hi
    ensures Range(lo, hi) + [hi] == Range(lo, hi + 1)
  {
  }

  /** One more document adds its mentions at the end. */
  lemma SplitMentionsStep(config: Config, disk: Disk, pmids: seq<string>, i: int)
    requires 0 <= i < |pmids| && AllParsed(config, disk, pmids[..i])
    requires DocPath(config.preprocessedDocDir, pmids[i]) in disk.parsedDocs
    ensures AllParsed(config, disk, pmids[..i + 1])
    ensures SplitMentions(config, disk, pmids[..i + 1]) ==
      SplitMentions(config, disk, pmids[..i]) + disk.parsedDocs[DocPath(config.preprocessedDocDir, pmids[i])]
  {
    assert pmids[..i + 1][..i] == pmids[..i];
  }

  /** `id2mention` holds the mentions `all` under their positions, and `ids`
      lists the ids given out since `start`. */
  ghost predicate Registered(id2mention: map<int, Mention>, ids: seq<int>, start: int, all: seq<Mention>) {
    start <= |all| && id2mention == Indexed(all) && ids == Range(start, |all|)
  }

  /** Storing one more mention under `len(id2mention)` registers it under
      the next id. */
  lemma RegisterNext(id2mention: map<int, Mention>, ids: seq<int>, start: int, all: seq<Mention>, m: Mention)
    requires Registered(id2mention, ids, start, all)
    ensures |id2mention| == |all| && |all| !in id2mention
    ensures Registered(id2mention[|all| := m], ids + [|all|], start, all + [m])
  {
    IndexedSize(all);
    IndexedAppend(all, m);
    RangeAppend(start, |all|);
  }

  /** One split of `_mention_id_returner`: every mention of every document
      gets the id `len(id2mention)`, is stored under it, and the id is
      appended to the split's list. */
  method IndexSplit(config: Config, disk: Disk, pmids: seq<string>,
                    id2mention: map<int, Mention>, ghost before: seq<Mention>)
    returns (res: Result<(map<int, Mention>, seq<int>), ReaderError>)
    requires id2mention == Indexed(before)
    ensures res.Ok? <==> AllParsed(config, disk, pmids)
    ensures res.Ok? ==>
      var added := SplitMentions(config, disk, pmids);
      res.value.0 == Indexed(before + added) && res.value.1 == Range(|before|, |before| + |added|)
    ensures res.Err? ==>
      (exists k :: 0 <= k < |pmids| &&
        DocPath(config.preprocessedDocDir, pmids[k]) !in disk.parsedDocs &&
        res.error == FileNotFound(DocPath(config.preprocessedDocDir, pmids[k])))
  {
    var id2m := id2mention;
    var ids: seq<int> := [];
    var i := 0;
    while i < |pmids|
      invariant 0 <= i <= |pmids|
      invariant AllParsed(config, disk, pmids[..i])
      invariant Registered(id2m, ids, |before|, before + SplitMentions(config, disk, pmids[..i]))
    {
      ghost var done := before + SplitMentions(config, disk, pmids[..i]);
      var found := Pmid2Mentions(config, disk, pmids[i]);
      if found.Err? {
        return Err(found.error);
      }
      var mentions := found.value;
      var j := 0;
      while j < |mentions|
        invariant 0 <= j <= |mentions|
        invariant Registered(id2m, ids, |before|, done + mentions[..j])
      {
        RegisterNext(id2m, ids, |before|, done + mentions[..j], mentions[j]);
        var id := |id2m|;
        id2m := id2m[id := mentions[j]];
        ids := ids + [id];
        assert done + mentions[..j + 1] == done + mentions[..j] + [mentions[j]];
        j := j + 1;
      }
      assert mentions[..j] == mentions;
      SplitMentionsStep(config, disk, pmids, i);
      assert done + mentions == before + SplitMentions(config, disk, pmids[..i + 1]);
      i := i + 1;
    }
    assert pmids[..i] == pmids;
    return Ok((id2m, ids));
  }

  /** What `_mention_id_returner` builds. */
  datatype MentionIndex = MentionIndex(id2mention: map<int, Mention>, trainMentionIds: seq<int>,
                                       devMentionIds: seq<int>, testMentionIds: seq<int>)

  /** The index of the train, dev and test mentions: one arena of ids
      0 .. n-1 in train, dev, test order, and each split's range of it. */
  function BuildIndex(train: seq<Mention>, dev: seq<Mention>, test: seq<Mention>): MentionIndex {
    var a, b := |train|, |train| + |dev|;
    MentionIndex(Indexed(train + dev + test), Range(0, a), Range(a, b), Range(b, b + |test|))
  }

  /** `_mention_id_returner`: the three splits in the order train, dev, test,
      one shared dictionary and counter. */
  method MentionIdReturner(config: Config, disk: Disk, trainPmids: seq<string>,
                           devPmids: seq<string>, testPmids: seq<string>)
    returns (res: Result<MentionIndex, ReaderError>)
    ensures res.Ok? <==>
      AllParsed(config, disk, trainPmids) && AllParsed(config, disk, devPmids) && AllParsed(config, disk, testPmids)
    ensures res.Ok? ==>
      res.value == BuildIndex(SplitMentions(config, disk, trainPmids), SplitMentions(config, disk, devPmids),
                              SplitMentions(config, disk, testPmids))
    ensures res.Err? ==>
      (exists pmid :: pmid in trainPmids + devPmids + testPmids &&
        DocPath(config.preprocessedDocDir, pmid) !in disk.parsedDocs &&
        res.error == FileNotFound(DocPath(config.preprocessedDocDir, pmid)))
  {
    var train := IndexSplit(config, disk, trainPmids, map[], []);
    if train.Err? {
      return Err(train.error);
    }
    ghost var a := SplitMentions(config, disk, trainPmids);
    var dev := IndexSplit(config, disk, devPmids, train.value.0, a);
    if dev.Err? {
      return Err(dev.error);
    }
    ghost var b := SplitMentions(config, disk, devPmids);
    var test := IndexSplit(config, disk, testPmids, dev.value.0, a + b);
    if test.Err? {
      return Err(test.error);
    }
    res := Ok(MentionIndex(test.value.0, train.value.1, dev.value.1, test.value.1));
  }

  /** The ids are dense and split into three consecutive runs: the key set of
      `id2mention` is {0, ..., n-1}, the train, dev and test lists
      concatenated are 0, 1, ..., n-1, each list is strictly increasing, no
      id is in two lists, and id k names the k-th mention of train, then dev,
      then test. */
  lemma BuildIndexIsDensePartition(train: seq<Mention>, dev: seq<Mention>, test: seq<Mention>)
    ensures var ix, all := BuildIndex(train, dev, test), train + dev + test;
      && (forall k :: k in ix.id2mention <==> 0 <= k < |all|)
      && ix.trainMentionIds + ix.devMentionIds + ix.testMentionIds == Range(0, |all|)
      && |ix.trainMentionIds| == |train| && |ix.devMentionIds| == |dev| && |ix.testMentionIds| == |test|
      && (forall k :: 0 <= k < |all| ==> ix.id2mention[k] == all[k])
      && (forall x :: x in ix.trainMentionIds ==> x !in ix.devMentionIds && x !in ix.testMentionIds)
      && (forall x :: x in ix.devMentionIds ==> x !in ix.testMentionIds)
      && (forall k, l :: 0 <= k < l < |ix.trainMentionIds| ==> ix.trainMentionIds[k] < ix.trainMentionIds[l])
      && (forall k, l :: 0 <= k < l < |ix.devMentionIds| ==> ix.devMentionIds[k] < ix.devMentionIds[l])
      && (forall k, l :: 0 <= k < l < |ix.testMentionIds| ==> ix.testMentionIds[k] < ix.testMentionIds[l])
  {
  }

  // ---------------------------------------------------------------------
  // Construction
  // ---------------------------------------------------------------------

  /** The state `BC5CDRReader.__init__` leaves behind. */
  datatype Reader = Reader(config: Config, trainPmids: seq<string>, devPmids: seq<string>,
                           testPmids: seq<string>, index: MentionIndex)

  /** `BC5CDRReader.__init__`: resolve the splits, then index their mentions.
      The only failure is a missing manifest; the indexer never fails on the
      filtered lists, since it opens exactly the files the filter saw. */
  method NewReader(config: Config, disk: Disk) returns (res: Result<Reader, ReaderError>)
    ensures MissingManifest(config, disk).Err? ==> res == Err(MissingManifest(config, disk).error)
    ensures MissingManifest(config, disk).Ok? ==>
      var train, dev, test := SplitPmids(config, disk, "train"), SplitPmids(config, disk, "dev"),
                              SplitPmids(config, disk, "test");
      res == Ok(Reader(config, train, dev, test,
                       BuildIndex(SplitMentions(config, disk, train), SplitMentions(config, disk, dev),
                                  SplitMentions(config, disk, test))))
  {
    var splits := TrainDevTestPmidReturner(config, disk);
    if splits.Err? {
      return Err(splits.error);
    }
    var s := splits.value;
    var index := MentionIdReturner(config, disk, s.train, s.dev, s.test);
    if index.Err? {
      assert false;
      return Err(AssertionFailed);
    }
    res := Ok(Reader(config, s.train, s.dev, s.test, index.value));
  }

  /** The disk of the examples: a training manifest with the lines "D1", ""
      and "D2", empty dev and test manifests, and a preprocessed document for
      D1 alone, holding two mentions. */
  function ExampleDisk(m1: Mention, m2: Mention): Disk {
    Disk(map[ManifestPath("data/", "train") := ["D1", "", "D2"],
             ManifestPath("data/", "dev") := [],
             ManifestPath("data/", "test") := []],
         map["parsed/D1.json" := [m1, m2]])
  }

  /** On the example disk the constructor succeeds: the training split keeps
      D1 alone, the other splits are empty, and the two mentions of D1 get the
      ids 0 and 1. */
  lemma ExampleOneParsedDocument(m1: Mention, m2: Mention)
    ensures var config, disk := Config("data/", "parsed/"), ExampleDisk(m1, m2);
      && MissingManifest(config, disk).Ok?
      && SplitPmids(config, disk, "train") == ["D1"]
      && SplitPmids(config, disk, "dev") == []
      && SplitPmids(config, disk, "test") == []
      && BuildIndex(SplitMentions(config, disk, SplitPmids(config, disk, "train")),
                    SplitMentions(config, disk, SplitPmids(config, disk, "dev")),
                    SplitMentions(config, disk, SplitPmids(config, disk, "test")))
         == MentionIndex(map[0 := m1, 1 := m2], [0, 1], [], [])
  {
    var config, disk := Config("data/", "parsed/"), ExampleDisk(m1, m2);
    ManifestPathsDistinct("data/");
    assert disk.textFiles[ManifestPath("data/", "train")] == ["D1", "", "D2"];
    assert disk.textFiles[ManifestPath("data/", "dev")] == [];
    assert disk.textFiles[ManifestPath("data/", "test")] == [];
    ExampleManifestLines();
    ExampleKeepParsed(config, disk);
    assert SplitMentions(config, disk, ["D1"]) == [m1, m2] by {
      assert ["D1"][..0] == [];
    }
    assert Indexed([m1, m2]) == map[0 := m1, 1 := m2];
  }

  /** Stripping keeps an identifier as it is, and the blank line is dropped. */
  lemma ExampleManifestLines()
    ensures ParseManifest(["D1", "", "D2"]) == ["D1", "D2"]
  {
  }

  /** Only the identifier with a preprocessed document passes the filter. */
  lemma ExampleKeepParsed(config: Config, disk: Disk)
    requires config.preprocessedDocDir == "parsed/" && disk.parsedDocs.Keys == {"parsed/D1.json"}
    ensures KeepParsed(config, disk, ["D1", "D2"]) == ["D1"]
  {
    var keep := ParsedDocExists(config, disk);
    assert !keep("D2") by {
      assert DocPath("parsed/", "D2")[8] == '2';
    }
    assert keep("D1") by {
      assert DocPath("parsed/", "D1") == "parsed/D1.json";
    }
    assert Filter(["D1"], keep) == ["D1"] by {
      assert ["D1"][..0] == [];
    }
    assert Filter(["D1", "D2"], keep) == ["D1"] by {
      assert ["D1", "D2"][..1] == ["D1"];
    }
  }
}
