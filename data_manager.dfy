/**
 * The backend's dataset store: predefined datasets kept in a datasets
 * directory, user uploads kept in an uploads directory, and an in-memory
 * cache of loaded frames. A directory is a map from file name to what
 * pandas reads from that file: `Some(frame)`, or `None` when reading fails.
 */
module DataManager {
  import opened Common
  import opened Text

  /** The column types `pd.read_csv` infers: numbers, text ("object") or booleans. */
  datatype Dtype = Number | Object | Bool

  /** A data frame, reduced to its column names, their types and its rows of cells. */
  datatype Frame = Frame(columns: seq<string>, dtypes: seq<Dtype>, rows: seq<seq<string>>)

  /** What the start-up loader recorded about a predefined dataset. */
  datatype Stats = Stats(rows: nat, columnsCount: nat)

  /** One entry of `dataset_info`. */
  datatype Info = Info(name: string, description: string, url: string, stats: Option<Stats>)

  /** One entry of the list returned by `list_datasets`. */
  datatype Entry = Entry(id: string, name: string, description: string, predefined: bool, rows: nat, columnsCount: nat)

  /** The predefined dataset ids, in the order `dataset_info` lists them. */
  const PredefinedIds: seq<string> := ["titanic", "iris", "gapminder"]

  const CsvSuffix := ".csv"

  /** The file read for dataset `id`. */
  function CsvName(id: string): (name: string)
    ensures |name| == |id| + 4 && name[..|id|] == id && EndsWith(name, CsvSuffix)
  {
    id + CsvSuffix
  }

  /** The id listed for an uploaded file name: the name without its last four characters. */
  function IdOf(fileName: string): (id: string)
    requires EndsWith(fileName, CsvSuffix)
    ensures CsvName(id) == fileName
  {
    var id := fileName[..|fileName| - 4];
    assert fileName == id + fileName[|fileName| - 4..];
    id
  }

  /** Reading a file that is absent fails like reading a malformed one. */
  function Read(dir: map<string, Option<Frame>>, fileName: string): Option<Frame> {
    if fileName in dir then dir[fileName] else None
  }

  /**
   * Where `get_dataset` reads `id` from: `None` when the id is neither
   * predefined nor an existing upload, otherwise what reading the chosen
   * file gives. Predefined ids are looked up first.
   */
  function Source(id: string, datasets: map<string, Option<Frame>>, uploads: map<string, Option<Frame>>): (r: Option<Option<Frame>>)
    ensures id in PredefinedIds ==> r == Some(Read(datasets, CsvName(id)))
    ensures id !in PredefinedIds ==>
      (r.Some? <==> CsvName(id) in uploads) && (r.Some? ==> r.value == uploads[CsvName(id)])
  {
    if id in PredefinedIds then Some(Read(datasets, CsvName(id)))
    else if CsvName(id) in uploads then Some(uploads[CsvName(id)])
    else None
  }

  /** The column renaming of `preprocess`: lower case, every ' ' replaced by '_'. */
  function NormalizeColumn(name: string): (r: string)
    ensures |r| == |name|
    ensures forall i :: 0 <= i < |r| ==> r[i] == if name[i] == ' ' then '_' else LowerChar(name[i])
    ensures forall i :: 0 <= i < |r| ==> r[i] != ' ' && !IsUpper(r[i])
  {
    ReplaceChar(Lower(name), ' ', '_')
  }

  /** `preprocess`, on the column names. */
  function Preprocess(frame: Frame): (r: Frame)
    ensures |r.columns| == |frame.columns| && r.dtypes == frame.dtypes && r.rows == frame.rows
    ensures forall i :: 0 <= i < |r.columns| ==> r.columns[i] == NormalizeColumn(frame.columns[i])
  {
    Frame(seq(|frame.columns|, i requires 0 <= i < |frame.columns| => NormalizeColumn(frame.columns[i])), frame.dtypes, frame.rows)
  }

  /**
   * Whether the fill loops of `preprocess` raise on the renamed frame: a
   * number or object column whose label another column shares makes
   * `df[col]` a frame, and the `if` on its `isna().any()` is then ambiguous.
   */
  predicate FillRaises(frame: Frame) {
    exists i, j :: 0 <= i < |frame.columns| && 0 <= j < |frame.columns| && i != j &&
      frame.columns[i] == frame.columns[j] && i < |frame.dtypes| && frame.dtypes[i] != Bool
  }

  /** Whether `preprocess` completes on a frame pandas read. */
  predicate Preprocesses(frame: Frame) {
    !FillRaises(Preprocess(frame))
  }

  /** The entry listed for a predefined dataset; counts the loader did not record are 0. */
  function PredefinedEntry(id: string, info: Info): Entry {
    var stats := info.stats.GetOr(Stats(0, 0));
    Entry(id, info.name, info.description, true, stats.rows, stats.columnsCount)
  }

  /** The entries listed for the predefined ids `ids`, in order. */
  function PredefinedEntries(ids: seq<string>, info: map<string, Info>): (entries: seq<Entry>)
    requires forall i :: 0 <= i < |ids| ==> ids[i] in info
    ensures |entries| == |ids|
    ensures forall i :: 0 <= i < |ids| ==> entries[i].id == ids[i] && entries[i].predefined
  {
    if ids == [] then []
    else PredefinedEntries(ids[..|ids| - 1], info) + [PredefinedEntry(ids[|ids| - 1], info[ids[|ids| - 1]])]
  }

  /** Whether `list_datasets` lists the uploaded file `fileName`. */
  predicate Listed(fileName: string, uploads: map<string, Option<Frame>>) {
    EndsWith(fileName, CsvSuffix) && IdOf(fileName) !in PredefinedIds && Read(uploads, fileName).Some?
  }

  /** The entry for a listed upload. */
  function UploadEntry(fileName: string, uploads: map<string, Option<Frame>>): Entry
    requires Listed(fileName, uploads)
  {
    var frame := Read(uploads, fileName).value;
    Entry(IdOf(fileName), "User dataset: " + fileName, "User uploaded dataset", false, |frame.rows|, |frame.columns|)
  }

  /** The entries for the files `names` of the uploads directory, in order. */
  function UploadEntries(names: seq<string>, uploads: map<string, Option<Frame>>): seq<Entry> {
    if names == [] then []
    else
      var last := names[|names| - 1];
      UploadEntries(names[..|names| - 1], uploads) + (if Listed(last, uploads) then [UploadEntry(last, uploads)] else [])
  }

  /** `names` is a listing of the uploads directory: each of its files exactly once, in some order. */
  ghost predicate Lists(names: seq<string>, uploads: map<string, Option<Frame>>) {
    && (forall f :: f in uploads <==> f in names)
    && (forall i, j :: 0 <= i < j < |names| ==> names[i] != names[j])
  }

  /** `DataManager`: the two directories, the metadata table and the frame cache. */
  class DataManager {
    var info: map<string, Info>
    var datasets: map<string, Option<Frame>>
    var uploads: map<string, Option<Frame>>
    var loaded: map<string, Frame>

    /** `dataset_info` holds exactly the predefined ids. */
    predicate Valid()
      reads this
    {
      info.Keys == set id | id in PredefinedIds
    }

    /**
     * A manager over the given directories, with the metadata table after
     * the start-up loader recorded `stats` and an empty cache.
     */
    constructor(datasets: map<string, Option<Frame>>, uploads: map<string, Option<Frame>>, stats: map<string, Stats>)
      ensures Valid()
      ensures this.datasets == datasets && this.uploads == uploads && loaded == map[]
      ensures forall id :: id in info ==> info[id].stats == (if id in stats then Some(stats[id]) else None)
    {
      var known := map[
        "titanic" := Info("Titanic Passenger Data", "Information about passengers aboard the RMS Titanic",
                          "https://raw.githubusercontent.com/datasciencedojo/datasets/master/titanic.csv", None),
        "iris" := Info("Iris Flower Dataset", "Classic dataset containing measurements for three iris flower species",
                       "https://raw.githubusercontent.com/mwaskom/seaborn-data/master/iris.csv", None),
        "gapminder" := Info("Gapminder World Data", "Economic, social and demographic data for countries around the world",
                            "https://raw.githubusercontent.com/plotly/datasets/master/gapminderDataFiveYear.csv", None)];
      info := map id | id in known :: known[id].(stats := if id in stats then Some(stats[id]) else None);
      this.datasets := datasets;
      this.uploads := uploads;
      loaded := map[];
    }

    /**
     * `get_dataset`: a cached frame is returned without reading; otherwise
     * the file `Source` names is read and, when that works, cached.
     */
    method GetDataset(id: string) returns (r: Option<Frame>)
      modifies this`loaded
      ensures Source(id, datasets, uploads).None? ==> r == None && loaded == old(loaded)
      ensures Source(id, datasets, uploads).Some? && id in old(loaded) ==>
        r == Some(old(loaded)[id]) && loaded == old(loaded)
      ensures Source(id, datasets, uploads).Some? && id !in old(loaded) ==>
        r == Source(id, datasets, uploads).value &&
        loaded == (if r.Some? then old(loaded)[id := r.value] else old(loaded))
    {
      if id in PredefinedIds {
        if id !in loaded {
          var read := Read(datasets, CsvName(id));
          if read.None? {
            return None;
          }
          loaded := loaded[id := read.value];
        }
        return Some(loaded[id]);
      }
      var path := CsvName(id);
      if path in uploads {
        if id !in loaded {
          var read := uploads[path];
          if read.None? {
            return None;
          }
          loaded := loaded[id := read.value];
        }
        return Some(loaded[id]);
      }
      return None;
    }

    /**
     * `list_datasets`: every predefined entry, then an entry for every
     * readable ".csv" upload whose id is not predefined, in the order the
     * directory listing `names` gives.
     */
    method ListDatasets(names: seq<string>) returns (entries: seq<Entry>)
      requires Valid()
      ensures entries == PredefinedEntries(PredefinedIds, info) + UploadEntries(names, uploads)
      ensures forall i :: 0 <= i < |entries| ==> (entries[i].predefined <==> i < |PredefinedIds|)
      ensures Lists(names, uploads) ==>
        forall f :: Listed(f, uploads) ==> UploadEntry(f, uploads) in entries[|PredefinedIds|..]
      ensures Lists(names, uploads) ==>
        forall i, j :: 0 <= i < j < |entries| ==> entries[i].id != entries[j].id
    {
      entries := [];
      for i := 0 to |PredefinedIds|
        invariant entries == PredefinedEntries(PredefinedIds[..i], info)
      {
        assert PredefinedIds[..i + 1][..i] == PredefinedIds[..i];
        entries := entries + [PredefinedEntry(PredefinedIds[i], info[PredefinedIds[i]])];
      }
      assert PredefinedIds[..|PredefinedIds|] == PredefinedIds;
      var uploaded: seq<Entry> := [];
      for i := 0 to |names|
        invariant uploaded == UploadEntries(names[..i], uploads)
      {
        assert names[..i + 1][..i] == names[..i];
        var name := names[i];
        if EndsWith(name, CsvSuffix) {
          var id := IdOf(name);
          if id !in PredefinedIds {
            var read := Read(uploads, name);
            if read.Some? {
              uploaded := uploaded + [UploadEntry(name, uploads)];
            }
          }
        }
      }
      assert names[..|names|] == names;
      UploadEntriesNotPredefined(names, uploads);
      if Lists(names, uploads) {
        forall f | Listed(f, uploads)
          ensures UploadEntry(f, uploads) in uploaded
        {
          ListedUploadHasEntry(names, uploads, f);
        }
        UploadIdsDistinct(names, uploads);
      }
      entries := entries + uploaded;
      assert entries[|PredefinedIds|..] == uploaded;
    }

    /**
     * `upload_dataset`: the file is saved as "{id}.csv" under the first
     * eight characters of `uuid`; when pandas reads it and `preprocess`
     * completes, the preprocessed frame replaces it and the cache entry for
     * the id is dropped, otherwise the file is removed and the error is
     * reported.
     */
    method UploadDataset(uuid: string, content: Option<Frame>) returns (r: Result<string, string>)
      requires |uuid| >= 8
      modifies this`uploads, this`loaded
      ensures r.Ok? <==> content.Some? && Preprocesses(content.value)
      ensures r.Ok? ==> (r.value == uuid[..8] &&
        uploads == old(uploads)[CsvName(r.value) := Some(Preprocess(content.value))] &&
        loaded == old(loaded) - {r.value})
      ensures r.Err? ==> uploads == old(uploads) - {CsvName(uuid[..8])} && loaded == old(loaded)
    {
      var id := uuid[..8];
      var path := CsvName(id);
      uploads := uploads[path := content];
      if content.Some? && Preprocesses(content.value) {
        var frame := Preprocess(content.value);
        uploads := uploads[path := Some(frame)];
        if id in loaded {
          loaded := loaded - {id};
        }
        return Ok(id);
      }
      if path in uploads {
        uploads := uploads - {path};
      }
      return Err("Error processing uploaded file");
    }
  }

  /** Upload entries are never marked predefined and never carry a predefined id. */
  lemma {:induction false} UploadEntriesNotPredefined(names: seq<string>, uploads: map<string, Option<Frame>>)
    ensures forall i :: 0 <= i < |UploadEntries(names, uploads)| ==>
      !UploadEntries(names, uploads)[i].predefined && UploadEntries(names, uploads)[i].id !in PredefinedIds
  {
    if names != [] {
      UploadEntriesNotPredefined(names[..|names| - 1], uploads);
    }
  }

  /** Every listed file of `names` gives an entry under its id. */
  lemma {:induction false} ListedFileHasEntry(names: seq<string>, uploads: map<string, Option<Frame>>, k: nat)
    requires k < |names| && Listed(names[k], uploads)
    ensures UploadEntry(names[k], uploads) in UploadEntries(names, uploads)
  {
    var prefix := names[..|names| - 1];
    if k < |names| - 1 {
      assert prefix[k] == names[k];
      ListedFileHasEntry(prefix, uploads, k);
    }
  }

  /** Given the listing of the uploads directory, every readable ".csv" upload with an id that is not predefined gets its entry. */
  lemma ListedUploadHasEntry(names: seq<string>, uploads: map<string, Option<Frame>>, f: string)
    requires Lists(names, uploads) && Listed(f, uploads)
    ensures UploadEntry(f, uploads) in UploadEntries(names, uploads)
  {
    assert f in uploads;
    var k :| 0 <= k < |names| && names[k] == f;
    ListedFileHasEntry(names, uploads, k);
  }

  /** A listing without repeated names gives upload entries with distinct ids. */
  lemma {:induction false} UploadIdsDistinct(names: seq<string>, uploads: map<string, Option<Frame>>)
    requires forall i, j :: 0 <= i < j < |names| ==> names[i] != names[j]
    ensures forall i, j :: 0 <= i < j < |UploadEntries(names, uploads)| ==>
      UploadEntries(names, uploads)[i].id != UploadEntries(names, uploads)[j].id
  {
    if names != [] {
      var prefix, last := names[..|names| - 1], names[|names| - 1];
      UploadIdsDistinct(prefix, uploads);
      if Listed(last, uploads) {
        forall e | e in UploadEntries(prefix, uploads)
          ensures e.id != IdOf(last)
        {
          EntryHasListedFile(prefix, uploads, e);
          var k :| 0 <= k < |prefix| && Listed(prefix[k], uploads) && e == UploadEntry(prefix[k], uploads);
          assert names[k] == prefix[k] != last;
          assert CsvName(IdOf(prefix[k])) == prefix[k];
        }
      }
    }
  }

  /** Every upload entry comes from a listed file of `names`, and `get_dataset` reads that file for its id. */
  lemma {:induction false} EntryHasListedFile(names: seq<string>, uploads: map<string, Option<Frame>>, e: Entry)
    requires e in UploadEntries(names, uploads)
    ensures exists k :: 0 <= k < |names| && Listed(names[k], uploads) && e == UploadEntry(names[k], uploads)
    ensures Source(e.id, map[], uploads).Some?
  {
    var prefix := names[..|names| - 1];
    var last := names[|names| - 1];
    if e in UploadEntries(prefix, uploads) {
      EntryHasListedFile(prefix, uploads, e);
      var k :| 0 <= k < |prefix| && Listed(prefix[k], uploads) && e == UploadEntry(prefix[k], uploads);
      assert names[k] == prefix[k];
    } else {
      assert Listed(last, uploads) && e == UploadEntry(last, uploads);
    }
  }

  /** A predefined id is served from the datasets directory whatever the uploads directory holds. */
  lemma PredefinedShadowsUploads(id: string, datasets: map<string, Option<Frame>>, uploads1: map<string, Option<Frame>>, uploads2: map<string, Option<Frame>>)
    requires id in PredefinedIds
    ensures Source(id, datasets, uploads1) == Source(id, datasets, uploads2)
  {
  }

  /** An eight-character upload id never collides with a predefined id. */
  lemma UploadIdNotPredefined(uuid: string)
    requires |uuid| >= 8
    ensures uuid[..8] !in PredefinedIds
  {
    assert |uuid[..8]| == 8;
  }

  /** After a successful upload, `get_dataset` finds the preprocessed frame in the uploads directory and not in the cache. */
  lemma UploadThenGet(uuid: string, frame: Frame, datasets: map<string, Option<Frame>>, uploads: map<string, Option<Frame>>, loaded: map<string, Frame>)
    requires |uuid| >= 8
    ensures var id := uuid[..8];
      Source(id, datasets, uploads[CsvName(id) := Some(Preprocess(frame))]) == Some(Some(Preprocess(frame))) &&
      id !in loaded - {id}
  {
    UploadIdNotPredefined(uuid);
  }

  /** Renaming a column twice renames it once. */
  lemma NormalizeIdempotent(name: string)
    ensures NormalizeColumn(NormalizeColumn(name)) == NormalizeColumn(name)
  {
    var once := NormalizeColumn(name);
    var twice := NormalizeColumn(once);
    forall i | 0 <= i < |name|
      ensures twice[i] == once[i]
    {
      assert once[i] != ' ' && !IsUpper(once[i]);
    }
  }

  /** Two column names that differ only in case, or in ' ' against '_', are merged by the renaming. */
  lemma NormalizeMerges()
    ensures NormalizeColumn("Home Port") == NormalizeColumn("home_port")
  {
    assert NormalizeColumn("Home Port") == "home_port";
    assert NormalizeColumn("home_port") == "home_port";
  }

  /**
   * `preprocess` completes exactly when no number or object column shares
   * its renamed label with another column.
   */
  lemma PreprocessesIff(frame: Frame)
    ensures Preprocesses(frame) <==>
      forall i, j ::
        (0 <= i < |frame.columns| && 0 <= j < |frame.columns| && i != j && i < |frame.dtypes| && frame.dtypes[i] != Bool) ==>
        NormalizeColumn(frame.columns[i]) != NormalizeColumn(frame.columns[j])
  {
    var r := Preprocess(frame);
    if !Preprocesses(frame) {
      var i, j :| 0 <= i < |r.columns| && 0 <= j < |r.columns| && i != j &&
        r.columns[i] == r.columns[j] && i < |r.dtypes| && r.dtypes[i] != Bool;
      assert NormalizeColumn(frame.columns[i]) == NormalizeColumn(frame.columns[j]);
    }
  }

  /** Column names that stay distinct after renaming never make `preprocess` raise. */
  lemma DistinctLabelsPreprocess(frame: Frame)
    requires forall i, j :: 0 <= i < j < |frame.columns| ==> NormalizeColumn(frame.columns[i]) != NormalizeColumn(frame.columns[j])
    ensures Preprocesses(frame)
  {
    PreprocessesIff(frame);
  }

  /** A "Home Port" text column next to a "home_port" number column makes the upload fail. */
  lemma MergedColumnsFail(rows: seq<seq<string>>)
    ensures !Preprocesses(Frame(["Home Port", "home_port"], [Object, Number], rows))
  {
    var frame := Frame(["Home Port", "home_port"], [Object, Number], rows);
    NormalizeMerges();
    assert Preprocess(frame).columns[0] == Preprocess(frame).columns[1];
  }

  /** Merged labels of two boolean columns are never filled, so `preprocess` completes. */
  lemma MergedBooleansPass(rows: seq<seq<string>>)
    ensures Preprocesses(Frame(["Home Port", "home_port"], [Bool, Bool], rows))
  {
  }
}
