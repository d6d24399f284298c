/** scripts/analyze_alpha_sweep.py: which of the expected result files are
    available, whether the analysis can go on, and one statistics row per
    loaded dataset. Whether a file exists and what reading it yields are
    given by `probe`. */
module SweepStats {
  import opened Common
  import opened Records
  import opened BinomialCi
  import opened DatasetStats

  /** One entry of `data_files`. */
  datatype DataFile = DataFile(file: string, z: real, zLabel: string, alpha: real, required: bool)

  /** The expected files: the three alpha_CE = 0.5 baselines are required,
      the four other alpha_CE values are optional. */
  const DataFiles: seq<DataFile> := [
    DataFile("data/ce_fixed_lambda.h5", 0.014, "Solar", 0.5, true),
    DataFile("data/mid_Z_lambda.h5", 0.006, "Mid", 0.5, true),
    DataFile("data/mid_Z_alpha1p0.h5", 0.006, "Mid", 1.0, false),
    DataFile("data/mid_Z_alpha2p0.h5", 0.006, "Mid", 2.0, false),
    DataFile("data/low_Z_lambda.h5", 0.001, "Low", 0.5, true),
    DataFile("data/low_Z_alpha1p0.h5", 0.001, "Low", 1.0, false),
    DataFile("data/low_Z_alpha2p0.h5", 0.001, "Low", 2.0, false)
  ]

  /** What looking for a file finds: no file, a file `read_hdf` fails on, or
      its results table. */
  datatype Probe = Absent | LoadError(message: string) | Loaded(table: seq<Row>)

  /** One entry of `loaded_data`. */
  datatype Dataset = Dataset(table: seq<Row>, z: real, zLabel: string, alpha: real, file: string)

  /** The datasets loaded from the first entries `files`, in order. */
  function LoadedFrom(files: seq<DataFile>, probe: string -> Probe): seq<Dataset>
  {
    if files == [] then []
    else
      var f := files[|files| - 1];
      var prev := LoadedFrom(files[..|files| - 1], probe);
      match probe(f.file)
      case Loaded(t) => prev + [Dataset(t, f.z, f.zLabel, f.alpha, f.file)]
      case _ => prev
  }

  /** The required files of `files` that are absent or fail to load, in order. */
  function MissingFrom(files: seq<DataFile>, probe: string -> Probe): seq<string>
  {
    if files == [] then []
    else
      var f := files[|files| - 1];
      var prev := MissingFrom(files[..|files| - 1], probe);
      if f.required && !probe(f.file).Loaded? then prev + [f.file] else prev
  }

  /** The availability loop. */
  method CheckFiles(files: seq<DataFile>, probe: string -> Probe)
    returns (loaded: seq<Dataset>, missing: seq<string>)
    ensures loaded == LoadedFrom(files, probe)
    ensures missing == MissingFrom(files, probe)
  {
    loaded := [];
    missing := [];
    for i := 0 to |files|
      invariant loaded == LoadedFrom(files[..i], probe)
      invariant missing == MissingFrom(files[..i], probe)
    {
      assert files[..i + 1][..i] == files[..i];
      var info := files[i];
      match probe(info.file) {
        case Loaded(t) =>
          loaded := loaded + [Dataset(t, info.z, info.zLabel, info.alpha, info.file)];
        case LoadError(_) =>
          if info.required {
            missing := missing + [info.file];
          }
        case Absent =>
          if info.required {
            missing := missing + [info.file];
          }
      }
    }
    assert files[..|files|] == files;
  }

  /** A file is reported missing iff it is required and was not loaded;
      optional files never are. */
  lemma {:induction false} MissingExactly(files: seq<DataFile>, probe: string -> Probe, name: string)
    ensures name in MissingFrom(files, probe) <==>
              exists i :: 0 <= i < |files| && files[i].file == name && files[i].required && !probe(name).Loaded?
  {
    if files != [] {
      var init := files[..|files| - 1];
      MissingExactly(init, probe, name);
      if exists i :: 0 <= i < |init| && init[i].file == name && init[i].required && !probe(name).Loaded? {
        var i :| 0 <= i < |init| && init[i].file == name && init[i].required && !probe(name).Loaded?;
        assert files[i] == init[i];
      }
      if exists i :: 0 <= i < |files| && files[i].file == name && files[i].required && !probe(name).Loaded? {
        var i :| 0 <= i < |files| && files[i].file == name && files[i].required && !probe(name).Loaded?;
        if i < |init| {
          assert init[i] == files[i];
        }
      }
    }
  }

  /** Every loaded dataset carries a loaded file's table and that file's
      metallicity, label and alpha_CE; and every file that loads is there. */
  lemma {:induction false} LoadedExactly(files: seq<DataFile>, probe: string -> Probe)
    ensures forall d :: d in LoadedFrom(files, probe) ==>
              exists i :: 0 <= i < |files| && probe(files[i].file) == Loaded(d.table)
                          && d == Dataset(d.table, files[i].z, files[i].zLabel, files[i].alpha, files[i].file)
    ensures forall i :: 0 <= i < |files| && probe(files[i].file).Loaded? ==>
              Dataset(probe(files[i].file).table, files[i].z, files[i].zLabel, files[i].alpha, files[i].file)
                in LoadedFrom(files, probe)
  {
    if files != [] {
      var init := files[..|files| - 1];
      LoadedExactly(init, probe);
      assert forall i :: 0 <= i < |init| ==> init[i] == files[i];
    }
  }

  /** Nothing is missing iff every required file loaded. */
  lemma {:induction false} NoneMissingIff(files: seq<DataFile>, probe: string -> Probe)
    ensures MissingFrom(files, probe) == [] <==>
              forall i :: 0 <= i < |files| && files[i].required ==> probe(files[i].file).Loaded?
  {
    if files != [] {
      var init := files[..|files| - 1];
      NoneMissingIff(init, probe);
      assert forall i :: 0 <= i < |init| ==> init[i] == files[i];
    }
  }

  /** Entries 0, 1 and 4 of `data_files` are the required ones. */
  lemma RequiredEntries()
    ensures forall i :: 0 <= i < |DataFiles| ==> (DataFiles[i].required <==> i == 0 || i == 1 || i == 4)
  {
    forall i | 0 <= i < |DataFiles|
      ensures DataFiles[i].required <==> i == 0 || i == 1 || i == 4
    {
      if i == 0 {
      } else if i == 1 {
      } else if i == 2 {
      } else if i == 3 {
      } else if i == 4 {
      } else if i == 5 {
      } else {
        assert i == 6;
      }
    }
  }

  /** The script goes on iff all three baseline files loaded. */
  lemma ProceedsIffBaselinesLoad(probe: string -> Probe)
    ensures MissingFrom(DataFiles, probe) == [] <==>
              probe("data/ce_fixed_lambda.h5").Loaded? && probe("data/mid_Z_lambda.h5").Loaded?
              && probe("data/low_Z_lambda.h5").Loaded?
  {
    NoneMissingIff(DataFiles, probe);
    RequiredEntries();
    assert DataFiles[0].file == "data/ce_fixed_lambda.h5";
    assert DataFiles[1].file == "data/mid_Z_lambda.h5";
    assert DataFiles[4].file == "data/low_Z_lambda.h5";
  }

  // ---------------------------------------------------------------------------
  // The statistics rows
  // ---------------------------------------------------------------------------

  /** One row of `alpha_sweep_summary.csv`. */
  datatype SweepRow = SweepRow(zLabel: string, z: real, alpha: real, stats: Stats)

  /** The loop over `loaded_data`: one row per dataset, in order. */
  method SweepRows(loaded: seq<Dataset>, num: Numerics) returns (rows: seq<SweepRow>)
    ensures |rows| == |loaded|
    ensures forall i :: 0 <= i < |loaded| ==>
              rows[i] == SweepRow(loaded[i].zLabel, loaded[i].z, loaded[i].alpha, StatsOf(loaded[i].table, num))
  {
    rows := [];
    for i := 0 to |loaded|
      invariant |rows| == i
      invariant forall j :: 0 <= j < i ==>
                  rows[j] == SweepRow(loaded[j].zLabel, loaded[j].z, loaded[j].alpha, StatsOf(loaded[j].table, num))
    {
      var dataset := loaded[i];
      rows := rows + [SweepRow(dataset.zLabel, dataset.z, dataset.alpha, StatsOf(dataset.table, num))];
    }
  }

  /** The script up to `alpha_sweep_summary.csv`: None when it exits for
      missing required files, otherwise the sweep rows of the loaded
      datasets. */
  method AnalyzeSweep(probe: string -> Probe, num: Numerics) returns (result: Option<seq<SweepRow>>)
    ensures result.None? <==> MissingFrom(DataFiles, probe) != []
    ensures result.Some? ==>
              |result.value| == |LoadedFrom(DataFiles, probe)|
              && forall i :: 0 <= i < |result.value| ==>
                   result.value[i].stats == StatsOf(LoadedFrom(DataFiles, probe)[i].table, num)
  {
    var loaded, missing := CheckFiles(DataFiles, probe);
    if missing != [] {
      return None;
    }
    var rows := SweepRows(loaded, num);
    result := Some(rows);
  }

  /** When the script goes on, the three baselines are among the loaded
      datasets, so it has at least three rows. */
  lemma BaselinesLoaded(probe: string -> Probe)
    requires MissingFrom(DataFiles, probe) == []
    ensures |LoadedFrom(DataFiles, probe)| >= 3
  {
    ProceedsIffBaselinesLoad(probe);
    LoadedExactly(DataFiles, probe);
    var ls := LoadedFrom(DataFiles, probe);
    var d0 := Dataset(probe(DataFiles[0].file).table, DataFiles[0].z, DataFiles[0].zLabel, DataFiles[0].alpha, DataFiles[0].file);
    var d1 := Dataset(probe(DataFiles[1].file).table, DataFiles[1].z, DataFiles[1].zLabel, DataFiles[1].alpha, DataFiles[1].file);
    var d4 := Dataset(probe(DataFiles[4].file).table, DataFiles[4].z, DataFiles[4].zLabel, DataFiles[4].alpha, DataFiles[4].file);
    assert d0 in ls && d1 in ls && d4 in ls;
    assert d0.file != d1.file && d0.file != d4.file && d1.file != d4.file;
    ThreeDistinct(ls, d0, d1, d4);
  }

  lemma ThreeDistinct<T>(s: seq<T>, x: T, y: T, z: T)
    requires x in s && y in s && z in s && x != y && y != z && x != z
    ensures |s| >= 3
  {
    var i :| 0 <= i < |s| && s[i] == x;
    var j :| 0 <= j < |s| && s[j] == y;
    var k :| 0 <= k < |s| && s[k] == z;
  }
}
