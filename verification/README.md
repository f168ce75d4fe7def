# BC5CDR dataset reader: construction-time bookkeeping

This project models what `BC5CDRReader.__init__` does before any instance is
read. It proceeds in two stages:

- **Resolving the splits.** For each of `train`, `dev` and `test` it opens
  the split's manifest, `<dataset_dir>corpus_pubtator_pmids_<tag>.txt`. The
  tag is `trng` for train and the flag itself otherwise. It strips every
  line and keeps the non-empty ones as document identifiers (pmids). It then
  keeps only the pmids for which `<preprocessed_doc_dir><pmid>.json` exists.
- **Indexing the mentions.** It walks the kept pmids of train, then dev, then
  test. It loads each document's `lines` field and gives every mention the id
  `len(id2mention)`. The mention is stored under that id and the id is
  appended to its split's list.

The model is made of three modules:

- `PyStr` models Python's argument-less `str.strip()` with the whitespace set
  of `str.isspace()`.
- `Selection` models order-preserving list comprehensions
  `[x for x in s if keep(x)]`.
- `DatasetReader` models the reader.

The file system is a value, `Disk`:

- text files map a path to their lines;
- preprocessed documents map a path to their mention list.

A document exists exactly when its path is a key. Opening a file that is not
there gives `Err(FileNotFound(path))`. A flag outside train/dev/test gives
`Err(AssertionFailed)`.

The manifest reader and the indexer change local lists and a dictionary step
by step, so they are methods with loops. Each method is proved equal to a
function:

- `ParseManifest` for the manifest reader;
- `Indexed`, `Range` and `BuildIndex` for the indexer.

The properties are then proved about those functions. The filter and the
existence check are pure functions. The reader's state after construction is
never updated in place, so it is the datatype `Reader`.

## Model

| member | source | states |
|---|---|---|
| PyStr.Strip | dataset_reader.py:114 | The stripped line is no longer than the line, neither starts nor ends with whitespace, and is empty exactly when the line is all whitespace |
| PyStr.StripIsInnerSlice | dataset_reader.py:114 | Stripping only removes whitespace, and only at the two ends: the result is a slice `s[a..b]` with only whitespace before `a` and after `b` |
| Selection.Positions | dataset_reader.py:91-93 | The positions a comprehension keeps are in range, satisfy the condition, are strictly increasing, and include every position that satisfies it |
| Selection.Filter | dataset_reader.py:91-93 | A comprehension's result is no longer than its input, and every element of it satisfies the condition |
| Selection.FilterAtPositions | dataset_reader.py:91-93 | The k-th kept element is the input element at the k-th satisfying position: an order-preserving subsequence that drops nothing that satisfies the condition |
| Selection.FilterMembership | dataset_reader.py:91-93 | An element is kept if and only if it occurs in the input and satisfies the condition |
| DatasetReader.ManifestPathsDistinct | dataset_reader.py:103-109 | The train (`trng`), dev and test manifest paths are pairwise different |
| DatasetReader.ParseManifest | dataset_reader.py:111-116 | The manifest gives at most one pmid per line, and every pmid is non-empty with no whitespace at either end |
| DatasetReader.ParseManifestIsFilter | dataset_reader.py:111-116 | Appending each non-empty stripped line in a loop gives the same list as the comprehension over all stripped lines that keeps the non-empty ones |
| DatasetReader.ParseManifestPositions | dataset_reader.py:111-116 | The k-th pmid is the stripped line at the k-th non-blank line of the file: nothing lost, nothing blank kept, file order kept |
| DatasetReader.ParseManifestMembership | dataset_reader.py:111-116 | A string is a listed pmid if and only if it is non-empty and some line strips to it |
| DatasetReader.PmidReturner | dataset_reader.py:97-118 | A bad flag fails the assertion. Otherwise the path is dataset_dir + `corpus_pubtator_pmids_` + (`trng` for train, else the flag) + `.txt`. A missing file reports that path. An existing file gives exactly `ParseManifest` of its lines |
| DatasetReader.DocPathInjective | dataset_reader.py:125 | Different pmids probe different preprocessed-document paths |
| DatasetReader.IsParsedDocExist | dataset_reader.py:120-128 | Returns 1 or 0, and 1 exactly when preprocessed_doc_dir + pmid + `.json` exists |
| DatasetReader.KeepParsed | dataset_reader.py:91-93 | Every pmid the filter keeps has a preprocessed document |
| DatasetReader.KeepParsedExactly | dataset_reader.py:91-93 | A pmid is kept if and only if it is in the manifest list and its preprocessed document exists |
| DatasetReader.MissingManifest | dataset_reader.py:89-90 | Reports success exactly when all three manifests exist. Otherwise it reports the path of a manifest that is missing: the dev path only when train's exists, the test path only when train's and dev's exist, so it is the first missing one in the order train, dev, test |
| DatasetReader.TrainDevTestPmidReturner | dataset_reader.py:85-95 | Fails with the first missing manifest, in the order train, dev, test. Otherwise it returns each split's parsed manifest filtered to the pmids whose document exists |
| DatasetReader.Pmid2Mentions | dataset_reader.py:155-161 | Succeeds exactly when preprocessed_doc_dir + pmid + `.json` exists, gives that document's mention list, and otherwise reports that path |
| DatasetReader.IndexedAppend | dataset_reader.py:135-136 | The next id `len(id2mention)` is not yet a key, and storing a mention under it leaves every earlier entry unchanged |
| DatasetReader.IndexedSize | dataset_reader.py:135 | The dictionary has one entry per mention registered, so its length is the next free id |
| DatasetReader.RegisterNext | dataset_reader.py:135-137 | One step of the inner loop keeps the invariant: the dictionary maps k to the k-th registered mention, and the split's list is the run of ids given out since the split began |
| DatasetReader.IndexSplit | dataset_reader.py:132-137 | Succeeds exactly when every pmid has a document. It then extends the dictionary with the split's mentions under consecutive fresh ids and returns those ids in order. Otherwise it reports the path of a missing document |
| DatasetReader.MentionIdReturner | dataset_reader.py:130-153 | Succeeds exactly when every pmid of the three lists has a document. The result is then `BuildIndex` of the three splits' mentions. Otherwise it reports the path of a missing document from one of the lists |
| DatasetReader.BuildIndexIsDensePartition | dataset_reader.py:131-153 | The dictionary's keys are exactly 0..n-1, and train ++ dev ++ test ids is exactly [0, ..., n-1]. Each list is as long as its split's mention count and strictly increasing. The lists are pairwise disjoint. Id k names the k-th mention of the three splits concatenated |
| DatasetReader.NewReader | dataset_reader.py:49-51 | Fails only with a missing manifest. Otherwise it holds the three filtered pmid lists and the index built from their mentions; the indexer cannot fail on the filtered lists |
| DatasetReader.ExampleManifestLines | dataset_reader.py:111-116 | The lines "D1", "" and "D2" give the pmids "D1" and "D2" |
| DatasetReader.ExampleKeepParsed | dataset_reader.py:91 | With only `parsed/D1.json` present, the list ["D1", "D2"] is filtered to ["D1"] |
| DatasetReader.ExampleOneParsedDocument | dataset_reader.py:49-51 | With a train manifest "D1", "", "D2", empty dev and test manifests, and only D1 preprocessed (two mentions), construction succeeds: train pmids are ["D1"], dev and test are empty, and the index is ids 0 and 1 for the two mentions, all in train |

## Left out

- `_read` (lines 53-83) is not modelled. For the flags `train`, `dev` and `test` it reads attributes the constructor never sets (`train_mention_id` and friends, not `..._ids`), so it raises at lines 61, 65 or 67; for train this happens before the `random.shuffle` of line 63 is reached. For any other flag no branch is taken and, since every `yield` is commented out, it is a plain function that returns `None` without raising.
- File contents are abstract. A text file is its list of lines, so newline handling and encodings are not modelled. A preprocessed document is the value of its `lines` field, so JSON parsing, malformed JSON and a missing `lines` key are not modelled. `Mention` is an opaque type.
- `os.path.exists` also holds for directories and for files that cannot be read. The model knows only the preprocessed documents, so a path "exists" exactly when it is a key of `parsedDocs`.
- The tokenizer, token indexers, `max_tokens` and the AllenNLP `DatasetReader` base class (lines 44-47) are not modelled, because they do not take part in the bookkeeping.
- `build_dataset_reader`, the `__main__` block and the `Biencoder_params` configuration are not modelled. The configuration enters only as its two directory strings, used as plain string prefixes.
- DatasetReader.IndexSplit: on failure it states only that some pmid of the list lacks its document and that this path is reported. It does not state that it is the first such pmid, which the loop order makes it.
- DatasetReader.MentionIdReturner: on failure it states only that some pmid of the three lists lacks its document, not which one the train-dev-test order reports first.
