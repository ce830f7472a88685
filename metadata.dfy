/** The metadata report of handlers.py (`gerar_metadados`): the request's
    descriptive fields, the processing facts, and the scalar processing
    options listed in key order. The report is kept as a record of what the
    text file states; the task info, the clock and the file system are
    outcomes supplied by the caller. */
module Metadata {

  import opened Common
  import opened Paths
  import Config
  import Settings
  import WebOdm

  /** The JSON body of a `/processar` request, string values only. */
  type Request = map<string, string>

  /** `dados.get(key, '')` followed by `if value:`: one labelled line when the
      value is present and non-empty. */
  function Attribute(request: Request, key: string, title: string): (r: seq<(string, string)>)
    ensures r == [] <==> key !in request || request[key] == ""
    ensures r != [] ==> r == [(title, request[key])]
  {
    if key in request && request[key] != "" then [(title, request[key])] else []
  }

  /** The "INFORMAÇÕES ADICIONAIS" block, reading the survey date from
      `dateKey`. */
  function AttributeLinesReading(request: Request, dateKey: string): (r: seq<(string, string)>)
    ensures |r| <= 4
    ensures forall i :: 0 <= i < |r| ==> r[i].1 != ""
  {
    Attribute(request, "cliente", "cliente") + Attribute(request, "fazenda", "fazenda")
      + Attribute(request, "talhao", "talhao") + Attribute(request, dateKey, "data_levantamento")
  }

  /** The block as handlers.py writes it: the date is read from the key
      `data_voo`, which a `/processar` request does not carry (it sends
      `data_levantamento`). */
  function AttributeLinesAsWritten(request: Request): seq<(string, string)>
  {
    AttributeLinesReading(request, "data_voo")
  }

  /** The block with the date read from the request's own key. */
  function AttributeLines(request: Request): seq<(string, string)>
  {
    AttributeLinesReading(request, "data_levantamento")
  }

  /** A request that carries a survey date gets no date line as written. */
  lemma SurveyDateDroppedAsWritten()
    ensures AttributeLinesAsWritten(map["id_projeto" := "p1", "data_levantamento" := "2024-05-01"]) == []
    ensures AttributeLines(map["id_projeto" := "p1", "data_levantamento" := "2024-05-01"])
              == [("data_levantamento", "2024-05-01")]
  {
    var req: Request := map["id_projeto" := "p1", "data_levantamento" := "2024-05-01"];
    assert "cliente" !in req && "fazenda" !in req && "talhao" !in req && "data_voo" !in req;
  }

  /** With the corrected key, each descriptive field is reported exactly
      when the request carries it with a non-empty value. */
  lemma AttributeReported(request: Request, key: string)
    requires key in {"cliente", "fazenda", "talhao", "data_levantamento"}
    ensures ((key, if key in request then request[key] else "") in AttributeLines(request))
              <==> (key in request && request[key] != "")
  {
    var a := Attribute(request, "cliente", "cliente");
    var b := Attribute(request, "fazenda", "fazenda");
    var c := Attribute(request, "talhao", "talhao");
    var d := Attribute(request, "data_levantamento", "data_levantamento");
    assert AttributeLines(request) == a + b + c + d;
    assert forall x :: x in a + b + c + d <==> x in a || x in b || x in c || x in d;
  }

  /** The values `isinstance(v, (str, int, float, bool))` accepts. */
  predicate IsScalar(v: Settings.OptValue)
  {
    v.Str? || v.Int? || v.Decimal? || v.Bool?
  }

  /** Whether the option `key` is written to the parameters block. */
  predicate Reported(key: string, v: Settings.OptValue)
  {
    IsScalar(v) && !StartsWith(key, "_")
  }

  function Keys(lines: seq<(string, Settings.OptValue)>): (ks: seq<string>)
    ensures |ks| == |lines|
  {
    seq(|lines|, i requires 0 <= i < |lines| => lines[i].0)
  }

  predicate StrictlySorted(ks: seq<string>)
  {
    forall i, j :: 0 <= i < j < |ks| ==> StrLt(ks[i], ks[j])
  }

  /** `lines` is the parameters block of `options`: the reported options,
      each once with its value, in increasing key order. */
  ghost predicate ListsParameters(lines: seq<(string, Settings.OptValue)>, options: Settings.Preset)
  {
    && StrictlySorted(Keys(lines))
    && (forall k :: k in Keys(lines) <==> k in options && Reported(k, options[k]))
    && (forall i :: 0 <= i < |lines| ==> lines[i].0 in options && lines[i].1 == options[lines[i].0])
  }

  /** Two strictly sorted sequences with the same elements are equal. */
  lemma {:induction false} SortedUnique(a: seq<string>, b: seq<string>)
    requires StrictlySorted(a) && StrictlySorted(b)
    requires forall x :: x in a <==> x in b
    ensures a == b
    decreases |a| + |b|
  {
    assert a != [] ==> a[0] in b;
    assert b != [] ==> b[0] in a;
    if a != [] {
      assert a[0] in b && b[0] in a;
      var i :| 0 <= i < |b| && b[i] == a[0];
      var j :| 0 <= j < |a| && a[j] == b[0];
      if i != 0 && j != 0 {
        StrLtAsymmetric(a[0], b[0]);
      }
      assert a[0] == b[0];
      StrLtIrreflexive(a[0]);
      forall x | x in a[1..]
        ensures x in b[1..]
      {
        var k :| 1 <= k < |a| && a[k] == x;
        assert x in a && x in b;
        var m :| 0 <= m < |b| && b[m] == x;
        assert b[1..][m - 1] == b[m];
      }
      forall x | x in b[1..]
        ensures x in a[1..]
      {
        var k :| 1 <= k < |b| && b[k] == x;
        assert x in b && x in a;
        var m :| 0 <= m < |a| && a[m] == x;
        assert a[1..][m - 1] == a[m];
      }
      SortedUnique(a[1..], b[1..]);
      assert a == [a[0]] + a[1..] && b == [b[0]] + b[1..];
    }
  }

  /** The parameters block is determined by the options: it is what
      `sorted(opcoes.items())` with the filter yields. */
  lemma ParametersUnique(a: seq<(string, Settings.OptValue)>, b: seq<(string, Settings.OptValue)>, options: Settings.Preset)
    requires ListsParameters(a, options) && ListsParameters(b, options)
    ensures a == b
  {
    SortedUnique(Keys(a), Keys(b));
    forall i | 0 <= i < |a|
      ensures a[i] == b[i]
    {
      assert Keys(a)[i] == a[i].0 && Keys(b)[i] == b[i].0;
    }
  }

  /** The loop `for param, valor in sorted(opcoes.items())` with its
      filter, as a selection of the least remaining key. */
  method ParameterLines(options: Settings.Preset) returns (lines: seq<(string, Settings.OptValue)>)
    ensures ListsParameters(lines, options)
  {
    lines := [];
    var remaining := options.Keys;
    while remaining != {}
      invariant remaining <= options.Keys
      invariant StrictlySorted(Keys(lines))
      invariant forall i, r :: 0 <= i < |lines| && r in remaining ==> StrLt(lines[i].0, r)
      invariant forall k :: k in Keys(lines) <==> k in options && k !in remaining && Reported(k, options[k])
      invariant forall i :: 0 <= i < |lines| ==> lines[i].0 in options && lines[i].1 == options[lines[i].0]
      decreases |remaining|
    {
      LeastStringExists(remaining);
      var m :| m in remaining && forall x :: x in remaining && x != m ==> StrLt(m, x);
      if Reported(m, options[m]) {
        assert Keys(lines + [(m, options[m])]) == Keys(lines) + [m];
        lines := lines + [(m, options[m])];
      }
      remaining := remaining - {m};
    }
  }

  /** After a submission, the report lists the job name and the fixed
      projection among its parameters. */
  lemma ReportShowsSubmission(lines: seq<(string, Settings.OptValue)>, p: Settings.Preset, projectId: string)
    requires WebOdm.ResolutionConvertible(p)
    requires ListsParameters(lines, WebOdm.Prepare(p, projectId))
    ensures ("name", Settings.Str(WebOdm.JobName(projectId))) in lines
    ensures ("projection", Settings.Str(Settings.OutputCrs)) in lines
  {
    var q := WebOdm.Prepare(p, projectId);
    assert "name"[..1][0] == 'n' && "projection"[..1][0] == 'p';
    assert "name" in Keys(lines) && "projection" in Keys(lines);
    var i :| 0 <= i < |lines| && Keys(lines)[i] == "name";
    var j :| 0 <= j < |lines| && Keys(lines)[j] == "projection";
    assert lines[i] == ("name", q["name"]);
    assert lines[j] == ("projection", q["projection"]);
  }

  /** What `task.info()` does. */
  datatype InfoOutcome = InfoRaised | Info(processingMillis: int, statusName: string)

  /** What the metadata file states. The host name, operating system and
      interpreter version lines are not part of this record. */
  datatype Report = Report(
    projectId: string,
    processedAt: string,
    attributes: seq<(string, string)>,
    presetName: string,
    imageCount: nat,
    processingMillis: Option<int>,
    taskId: string,
    status: string,
    parameters: seq<(string, Settings.OptValue)>,
    projection: string,
    fileName: string,
    timezone: string)

  const MetadataFileName := "metadados.txt"

  /** The metadata file is written beside the mosaic. */
  function MetadataPath(mosaicPath: string): string
  {
    Join(DirName(mosaicPath), MetadataFileName)
  }

  /** Beside the fetched mosaic means inside the project's results
      directory. */
  lemma MetadataInResultsDir(c: Config.Config, projectId: string)
    ensures MetadataPath(WebOdm.OrthophotoPath(c, projectId)) == Join(WebOdm.ResultsDir(c, projectId), "metadados.txt")
  {
    WebOdm.OrthophotoInResultsDir(c, projectId);
  }

  /** `gerar_metadados`: the path of the file and what it states, or `None`
      when the task info or the file cannot be obtained. `now` is the
      formatted local time of the call. The preset name is the configured
      one, not the one `get_active_preset` fell back to. */
  method GenerateMetadata(c: Config.Config, projectId: string, mosaicPath: string, taskId: string,
                          options: Settings.Preset, imageCount: nat, request: Request, now: string,
                          info: InfoOutcome, writable: bool)
    returns (r: Option<(string, Report)>)
    ensures r.None? <==> info.InfoRaised? || !writable
    ensures r.Some? ==> r.value.0 == MetadataPath(mosaicPath)
    ensures r.Some? ==> ListsParameters(r.value.1.parameters, options)
    ensures r.Some? ==> r.value.1.attributes == AttributeLinesAsWritten(request)
    ensures r.Some? ==> r.value.1.status == Lower(info.statusName)
    ensures r.Some? ==> (r.value.1.processingMillis.Some? <==> info.processingMillis != 0)
    ensures r.Some? ==> r.value.1.processingMillis.Some? ==> r.value.1.processingMillis.value == info.processingMillis
    ensures r.Some? ==> r.value.1.presetName == c.activePreset && r.value.1.timezone == c.timezone
    ensures r.Some? ==> r.value.1.projection == Settings.OutputCrs && r.value.1.fileName == "odm_orthophoto.tif"
    ensures r.Some? ==> r.value.1.projectId == projectId && r.value.1.taskId == taskId
    ensures r.Some? ==> r.value.1.imageCount == imageCount && r.value.1.processedAt == now
  {
    if info.InfoRaised? || !writable {
      return None;
    }
    var parameters := ParameterLines(options);
    var millis := if info.processingMillis != 0 then Some(info.processingMillis) else None;
    var report := Report(projectId, now, AttributeLinesAsWritten(request), c.activePreset, imageCount, millis,
                         taskId, Lower(info.statusName), parameters, Settings.OutputCrs,
                         "odm_orthophoto.tif", c.timezone);
    return Some((MetadataPath(mosaicPath), report));
  }

  /** An unknown configured preset is named in the report although the
      options of the default preset were used. */
  lemma ReportNamesUnknownPreset(c: Config.Config)
    requires c.activePreset !in Settings.QualityPresets
    ensures Config.GetActivePreset(c) == Settings.Padrao
    ensures Config.ResolvedPresetName(c.activePreset) != c.activePreset
  {
  }
}
