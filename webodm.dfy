/** The WebODM façade of handlers.py: submitting the downloaded images as a
    task (which also rewrites the shared option dictionary in place), the
    rule that turns the end of the wait into a status, and the location of
    the fetched mosaic. The WebODM node is replaced by outcomes supplied by
    the caller. */
module WebOdm {

  import opened Common
  import opened Paths
  import Config
  import Settings
  import Storage

  /** One entry of `os.listdir`, and whether `os.path.isfile` holds of it. */
  datatype DirEntry = DirEntry(name: string, isFile: bool)

  /** The suffix test of the submission step: the lower-cased file name ends
      with one of the five extensions written out there. */
  predicate IsImageFileName(name: string)
  {
    exists i :: 0 <= i < |Storage.FallbackExtensions| && EndsWith(Lower(name), Storage.FallbackExtensions[i])
  }

  /** The image list handed to `create_task`: the full path of every regular
      file whose name passes the suffix test, in listing order. */
  function ImageFiles(dir: string, entries: seq<DirEntry>): (r: seq<string>)
    ensures |r| <= |entries|
  {
    if entries == [] then []
    else
      var last := entries[|entries| - 1];
      ImageFiles(dir, entries[..|entries| - 1]) + (if last.isFile && IsImageFileName(last.name) then [Join(dir, last.name)] else [])
  }

  /** Every path in the image list is a regular file of the directory whose
      name passes the suffix test, joined under the directory. */
  lemma {:induction false} ImageFilesSound(dir: string, entries: seq<DirEntry>, p: string)
    requires p in ImageFiles(dir, entries)
    ensures exists e :: e in entries && e.isFile && IsImageFileName(e.name) && p == Join(dir, e.name)
    decreases |entries|
  {
    var init := entries[..|entries| - 1];
    var last := entries[|entries| - 1];
    assert entries == init + [last];
    var added := if last.isFile && IsImageFileName(last.name) then [Join(dir, last.name)] else [];
    assert ImageFiles(dir, entries) == ImageFiles(dir, init) + added;
    if p in ImageFiles(dir, init) {
      ImageFilesSound(dir, init, p);
      var e :| e in init && e.isFile && IsImageFileName(e.name) && p == Join(dir, e.name);
      assert e in entries;
    } else {
      assert p in added;
      assert last in entries && last.isFile && IsImageFileName(last.name) && p == Join(dir, last.name);
    }
  }

  /** Every regular file of the directory whose name passes the suffix test
      is in the image list. */
  lemma {:induction false} ImageFilesComplete(dir: string, entries: seq<DirEntry>, e: DirEntry)
    requires e in entries && e.isFile && IsImageFileName(e.name)
    ensures Join(dir, e.name) in ImageFiles(dir, entries)
    decreases |entries|
  {
    var init := entries[..|entries| - 1];
    var last := entries[|entries| - 1];
    assert entries == init + [last];
    if e != last {
      assert e in init;
      ImageFilesComplete(dir, init, e);
    }
  }

  /** Every file the download step writes (its extension, lower-cased, is
      one of the default five) also passes the suffix test here. */
  lemma DownloadedNamePassesSuffixTest(name: string)
    requires Lower(Ext(name)) in Storage.FallbackExtensions
    ensures IsImageFileName(name)
  {
    var e := Ext(name);
    var i :| 0 <= i < |Storage.FallbackExtensions| && Storage.FallbackExtensions[i] == Lower(e);
    assert e != "";
    var k := |name| - |e|;
    LowerSuffix(name, k);
    assert Lower(name)[k..] == Lower(e);
  }

  /** The two filters differ: a dot-file such as `.jpg` has no extension for
      the download step but passes the suffix test of the submission step. */
  lemma FiltersDiffer()
    ensures IsImageFileName(".jpg")
    ensures Lower(Ext(".jpg")) !in Storage.FallbackExtensions
  {
    ExtOfDotfile("jpg");
    assert ".jpg" == "." + "jpg";
    LowerOfLower(".jpg");
    assert EndsWith(Lower(".jpg"), Storage.FallbackExtensions[0]);
  }

  const ResolutionKey := "orthophoto-resolution"

  /** The default resolution (5 cm/pixel), in tenths. */
  const DefaultResolutionTenths := 50

  /** The job name given to a project's task. */
  function JobName(projectId: string): string
  {
    "Projeto_" + projectId
  }

  /** `float(v)` in tenths; `None` where Python raises. Strings are all
      treated as unconvertible. */
  function ToDecimal(v: Settings.OptValue): (t: Option<int>)
    ensures v.Decimal? ==> t == Some(v.tenths)
    ensures v.Int? ==> t == Some(10 * v.i)
    ensures v.Bool? ==> t == Some(if v.b then 10 else 0)
    ensures v.Str? || v.StrList? || v.Null? ==> t.None?
  {
    match v
    case Int(i) => Some(10 * i)
    case Decimal(t) => Some(t)
    case Bool(b) => Some(if b then 10 else 0)
    case _ => None
  }

  /** `dict.get(key, default)` on an option dictionary. */
  function Get(p: Settings.Preset, key: string, default: Settings.OptValue): Settings.OptValue
  {
    if key in p then p[key] else default
  }

  /** Whether `float(opcoes.get("orthophoto-resolution", 5))` returns. */
  predicate ResolutionConvertible(p: Settings.Preset)
  {
    ToDecimal(Get(p, ResolutionKey, Settings.Int(5))).Some?
  }

  /** The keys the submission step writes. */
  const PreparedKeys: set<string> := {"name", ResolutionKey, "dsm", "dtm", "gcp", "projection"}

  /** The option dictionary after the submission step has rewritten it for
      `projectId`: the job name always; when the resolution converts, also
      the resolution as a float, `dsm`/`dtm` kept or defaulted to False, no
      ground control and the fixed output projection. When the conversion
      raises only the job name has been written. */
  function Prepare(p: Settings.Preset, projectId: string): (r: Settings.Preset)
    ensures Settings.Has(r, "name", Settings.Str(JobName(projectId)))
    ensures !ResolutionConvertible(p) ==> r == p["name" := Settings.Str(JobName(projectId))]
    ensures ResolutionConvertible(p) ==>
              && r.Keys == p.Keys + PreparedKeys
              && r[ResolutionKey] == Settings.Decimal(ToDecimal(Get(p, ResolutionKey, Settings.Int(5))).value)
              && r["dsm"] == Get(p, "dsm", Settings.Bool(false))
              && r["dtm"] == Get(p, "dtm", Settings.Bool(false))
              && r["gcp"] == Settings.Bool(false)
              && r["projection"] == Settings.Str(Settings.OutputCrs)
    ensures forall k :: k in p && k !in PreparedKeys ==> k in r && r[k] == p[k]
  {
    var named := p["name" := Settings.Str(JobName(projectId))];
    var t := ToDecimal(Get(named, ResolutionKey, Settings.Int(5)));
    if t.None? then named
    else
      named[ResolutionKey := Settings.Decimal(t.value)]
           ["dsm" := Get(named, "dsm", Settings.Bool(false))]
           ["dtm" := Get(named, "dtm", Settings.Bool(false))]
           ["gcp" := Settings.Bool(false)]
           ["projection" := Settings.Str(Settings.OutputCrs)]
  }

  /** Rewriting the shared dictionary again for another project gives what
      rewriting the original would: only the job name of the latest run
      survives, so repeated runs do not drift. */
  lemma PrepareTwice(p: Settings.Preset, id1: string, id2: string)
    ensures Prepare(Prepare(p, id1), id2) == Prepare(p, id2)
  {
    var q := Prepare(p, id1);
    if ResolutionConvertible(p) {
      assert q[ResolutionKey].Decimal?;
      assert ResolutionConvertible(q);
      assert Prepare(Prepare(p, id1), id2).Keys == Prepare(p, id2).Keys;
    } else {
      assert Get(q, ResolutionKey, Settings.Int(5)) == Get(p, ResolutionKey, Settings.Int(5));
      assert !ResolutionConvertible(q);
      assert q["name" := Settings.Str(JobName(id2))] == p["name" := Settings.Str(JobName(id2))];
    }
  }

  /** Starting from any of the four presets the rewrite always completes,
      sets the default resolution, and keeps the preset's flags. */
  lemma PreparePreset(name: string, projectId: string)
    requires name in Settings.QualityPresets
    ensures ResolutionConvertible(Settings.QualityPresets[name])
    ensures Prepare(Settings.QualityPresets[name], projectId)[ResolutionKey] == Settings.Decimal(DefaultResolutionTenths)
    ensures Settings.AuxiliaryOutputsOff(Prepare(Settings.QualityPresets[name], projectId))
    ensures Prepare(Settings.QualityPresets[name], projectId)["projection"] == Settings.Str("EPSG:4326")
  {
    Settings.NoPresetSetsResolution(name);
    Settings.EveryPresetDisablesAuxiliaryOutputs(name);
  }

  /** What `node.create_task` does. */
  datatype CreateOutcome = CreateRaised | Created(uuid: string)

  /** `config.ortomosaico_preset`: the one option dictionary of the process,
      shared by every run and rewritten in place by each submission. */
  class SharedPreset {

    var options: Settings.Preset

    /** The dictionary as config.py leaves it at import time. */
    constructor (c: Config.Config)
      ensures options == Config.GetActivePreset(c)
    {
      options := Config.GetActivePreset(c);
    }

    /** `processar_imagens_webodm(dir, id)`. `nodeOk` says whether the node
        could be built (including the conversion of the port) and `listing`
        is the directory listing, `None` when `os.listdir` raises. Returns
        the task id, the success flag and the image list it submitted. */
    method Submit(imageDir: string, projectId: string, nodeOk: bool,
                  listing: Option<seq<DirEntry>>, create: CreateOutcome)
      returns (task: Option<string>, ok: bool, images: seq<string>)
      modifies this
      ensures images == (if nodeOk && listing.Some? then ImageFiles(imageDir, listing.value) else [])
      ensures options == (if images != [] then Prepare(old(options), projectId) else old(options))
      ensures ok <==> task.Some?
      ensures ok <==> images != [] && ResolutionConvertible(old(options)) && create.Created?
      ensures task.Some? ==> task == Some(create.uuid)
    {
      if !nodeOk || listing.None? {
        return None, false, [];
      }
      var entries := listing.value;
      images := [];
      var i := 0;
      while i < |entries|
        invariant 0 <= i <= |entries|
        invariant images == ImageFiles(imageDir, entries[..i])
      {
        var e := entries[i];
        if e.isFile && IsImageFileName(e.name) {
          images := images + [Join(imageDir, e.name)];
        }
        assert entries[..i + 1][..i] == entries[..i];
        i := i + 1;
      }
      assert entries[..i] == entries;
      if images == [] {
        return None, false, images;
      }
      options := options["name" := Settings.Str(JobName(projectId))];
      var t := ToDecimal(Get(options, ResolutionKey, Settings.Int(5)));
      if t.None? {
        return None, false, images;
      }
      options := options[ResolutionKey := Settings.Decimal(t.value)];
      options := options["dsm" := Get(options, "dsm", Settings.Bool(false))];
      options := options["dtm" := Get(options, "dtm", Settings.Bool(false))];
      options := options["gcp" := Settings.Bool(false)];
      options := options["projection" := Settings.Str(Settings.OutputCrs)];
      match create {
        case CreateRaised =>
          return None, false, images;
        case Created(uuid) =>
          return Some(uuid), true, images;
      }
    }
  }

  /** The polling limits of `aguardar_processamento`: 18 hours, polled every
      30 seconds, with 5 seconds between retries of a failed poll. */
  const MaxTimeout := 64800
  const PollInterval := 30
  const MaxRetries := MaxTimeout / PollInterval
  const RetryTimeout := 5

  /** How the wait ends: something raised (the poll timed out, the task
      failed remotely, the node went away), or it returned and the task
      reports a status name. */
  datatype WaitOutcome = WaitRaised | Finished(statusName: string)

  /** `aguardar_processamento`: the status and the success flag. */
  function Await(w: WaitOutcome): (r: (string, bool))
    ensures r.1 <==> w == Finished("COMPLETED")
    ensures w.WaitRaised? ==> r.0 == "FAILED"
    ensures w.Finished? ==> r.0 == w.statusName
  {
    match w
    case WaitRaised => ("FAILED", false)
    case Finished(name) => (name, name == "COMPLETED")
  }

  /** An exception while waiting is reported exactly like a task that the
      node says has failed. */
  lemma RaiseLooksLikeFailure()
    ensures Await(WaitRaised) == Await(Finished("FAILED"))
  {
  }

  /** What fetching the results does: something raised (creating the
      directory, the download, the copy), or the assets arrived and
      `orthophotoPresent` says whether ODM's own file
      `resultados/odm_orthophoto/odm_orthophoto.tif` exists. That file
      decides success; the path returned is the copy made from it. */
  datatype ResultsOutcome = ResultsRaised | Fetched(orthophotoPresent: bool)

  function ResultsDir(c: Config.Config, projectId: string): string
  {
    Join(Config.ProjectTempDir(c, projectId), "resultados")
  }

  /** Where the mosaic is copied: `<scratch>/resultados/odm_orthophoto.tif`. */
  function OrthophotoPath(c: Config.Config, projectId: string): string
  {
    Join(ResultsDir(c, projectId), "odm_orthophoto.tif")
  }

  /** `baixar_resultados`: the mosaic path and the success flag. */
  function RetrieveResults(c: Config.Config, projectId: string, out: ResultsOutcome): (r: (Option<string>, bool))
    ensures r.1 <==> out == Fetched(true)
    ensures r.1 ==> r.0 == Some(OrthophotoPath(c, projectId))
    ensures !r.1 ==> r.0.None?
  {
    match out
    case ResultsRaised => (None, false)
    case Fetched(present) => if present then (Some(OrthophotoPath(c, projectId)), true) else (None, false)
  }

  /** The mosaic lies directly in the results directory, so the metadata
      file written beside it lands there too. */
  lemma OrthophotoInResultsDir(c: Config.Config, projectId: string)
    ensures DirName(OrthophotoPath(c, projectId)) == ResultsDir(c, projectId)
  {
    ResultsDirShape(Config.ProjectTempDir(c, projectId));
    FileBesideDir(ResultsDir(c, projectId), "odm_orthophoto.tif");
  }

  lemma ResultsDirShape(d: string)
    ensures Join(d, "resultados") != ""
    ensures Join(d, "resultados")[|Join(d, "resultados")| - 1] == 's'
  {
    assert !IsAbsolute("resultados");
  }

  /** A plain file name joined under a directory that does not end with a
      separator has that directory as its parent. */
  lemma FileBesideDir(d: string, name: string)
    requires d != "" && d[|d| - 1] != '/'
    requires forall k :: 0 <= k < |name| ==> name[k] != '/'
    ensures DirName(Join(d, name)) == d
  {
    DirNameOfJoin(d, name);
  }
}
