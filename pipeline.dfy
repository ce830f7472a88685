/** The job driver of main.py (`processar_projeto`): ten stages, each
    calling one handler and leaving early with an error report when it
    fails. The driver is modelled as a method that records, in order, the
    handler calls that act on the outside world; every outcome of the
    outside world for one run is an input. What the trace must be is given
    separately by `ExitOf` (which way the run leaves) and `ExitTrace` (the
    calls each way out makes), and the ordering rules are lemmas over them. */
module Pipeline {

  import opened Common
  import opened Paths
  import Config
  import Settings
  import Ledger
  import Storage
  import WebOdm
  import Metadata
  import Webhook

  /** A handler call that acts outside the process (or removes the scratch
      directory). */
  datatype Effect =
    | LedgerUpdate(recordId: string, fields: map<string, string>)
    | Notify(status: string, url: Option<string>, message: Option<string>)
    | Submit(imageDir: string)
    | UploadMosaic(localPath: string)
    | UploadMetadata(localPath: string)
    | Cleanup

  /** Everything the outside world decides during one run. */
  datatype World = World(
    tempDirError: Option<string>,       // creating the scratch directory raises
    listing: Storage.ListOutcome,       // the `uploads` bucket listing and downloads
    leftovers: seq<WebOdm.DirEntry>,    // entries already in the scratch directory
    nodeOk: bool,                       // the WebODM node can be built
    create: WebOdm.CreateOutcome,       // `create_task`
    idWrite: Ledger.Reach,              // the `id_wl` update
    wait: WebOdm.WaitOutcome,           // waiting and `task.info()`
    results: WebOdm.ResultsOutcome,     // `download_assets` and the copy
    info: Metadata.InfoOutcome,         // `task.info()` for the report
    metadataWritable: bool,             // the report file can be opened
    mosaicUpload: Storage.UploadOutcome,
    metadataUpload: Storage.UploadOutcome,
    statusWrite: Ledger.Reach,          // the (error or final) status update
    now: string)                        // the formatted local time

  /** The ways a run can end. */
  datatype Exit =
    | Unexpected(message: string)
    | NoImages
    | SubmitFailed
    | ProcessingFailed(taskId: string, status: string)
    | ResultMissing(taskId: string)
    | PublishFailed(taskId: string)
    | CommitFailed(taskId: string, metadata: Option<string>, url: string)
    | Completed(taskId: string, metadata: Option<string>, url: string)
  {
    /** The exits taken after the task was created. */
    predicate Started()
    {
      !Unexpected? && !NoImages? && !SubmitFailed?
    }
  }

  /** The texts the driver writes to the ledger and sends in webhooks. */
  const NoImagesStatus := "Erro: Nenhuma imagem encontrada"
  const NoImagesMessage := "Nenhuma imagem encontrada"
  const SubmitFailedStatus := "Erro: Falha ao iniciar processamento"
  const SubmitFailedMessage := "Falha ao iniciar processamento no WebODM"
  const ResultMissingStatus := "Erro: Falha ao baixar resultados"
  const ResultMissingMessage := "Falha ao baixar resultados"
  const PublishFailedStatus := "Erro: Falha ao enviar ortomosaico"
  const PublishFailedMessage := "Falha ao enviar ortomosaico para o bucket"
  const CommitFailedMessage := "Falha ao atualizar registro no banco de dados"
  const ErrorPrefix := "Erro: "
  const ProcessingFailedPrefix := "Processamento falhou: "
  const SuccessLedgerStatus := "Sucesso"

  function StatusUpdate(status: string): map<string, string>
  {
    Ledger.UpdateFields(None, Some(status), None)
  }

  function TaskIdUpdate(taskId: string): map<string, string>
  {
    Ledger.UpdateFields(Some(taskId), None, None)
  }

  function CommitUpdate(url: string): map<string, string>
  {
    Ledger.UpdateFields(None, Some(SuccessLedgerStatus), Some(url))
  }

  /** The scratch directory as the submission step lists it: what was
      there before, then the files just downloaded. */
  function DirEntries(leftovers: seq<WebOdm.DirEntry>, names: seq<string>): seq<WebOdm.DirEntry>
  {
    leftovers + seq(|names|, i requires 0 <= i < |names| => WebOdm.DirEntry(names[i], true))
  }

  /** The images the submission step finds, given that the download step
      wrote at least one file. */
  function SubmittedImages(cfg: Config.Config, options: Settings.Preset, projectId: string, w: World): seq<string>
  {
    var names := Storage.ListedImages(options, w.listing);
    if w.nodeOk
    then WebOdm.ImageFiles(Config.ProjectTempDir(cfg, projectId), DirEntries(w.leftovers, names))
    else []
  }

  /** Whether the run gets as far as the submission step. */
  predicate Submits(options: Settings.Preset, w: World)
  {
    w.tempDirError.None? && |Storage.ListedImages(options, w.listing)| != 0
  }

  /** Which way a run leaves once its task `taskId` has been created. */
  function LateExit(cfg: Config.Config, projectId: string, taskId: string, w: World): (e: Exit)
    ensures e.Started() && e.taskId == taskId
  {
    var (status, done) := WebOdm.Await(w.wait);
    if !done then ProcessingFailed(taskId, status)
    else if w.results != WebOdm.Fetched(true) then ResultMissing(taskId)
    else
      var mosaic := WebOdm.OrthophotoPath(cfg, projectId);
      var metadata := if w.info.InfoRaised? || !w.metadataWritable then None else Some(Metadata.MetadataPath(mosaic));
      var up := Storage.UploadMosaic(projectId, true, w.mosaicUpload);
      if !up.ok || !Truthy(up.url) then PublishFailed(taskId)
      else if !Ledger.Acknowledged(CommitUpdate(up.url.value), w.statusWrite) then CommitFailed(taskId, metadata, up.url.value)
      else Completed(taskId, metadata, up.url.value)
  }

  /** Which way the run leaves, given the shared options at its start. */
  function ExitOf(cfg: Config.Config, options: Settings.Preset, projectId: string, w: World): Exit
  {
    if w.tempDirError.Some? then Unexpected(w.tempDirError.value)
    else if !Submits(options, w) then NoImages
    else if !(SubmittedImages(cfg, options, projectId, w) != [] && WebOdm.ResolutionConvertible(options) && w.create.Created?)
    then SubmitFailed
    else LateExit(cfg, projectId, w.create.uuid, w)
  }

  /** The shared options after the run. */
  function OptionsAfter(cfg: Config.Config, options: Settings.Preset, projectId: string, w: World): Settings.Preset
  {
    if Submits(options, w) && SubmittedImages(cfg, options, projectId, w) != []
    then WebOdm.Prepare(options, projectId)
    else options
  }

  /** An error report: the status in the ledger, then the "erro" webhook,
      then (except for the no-images exit) the cleanup. */
  function FailTail(recordId: string, status: string, message: string, cleanup: bool): seq<Effect>
  {
    [LedgerUpdate(recordId, StatusUpdate(status)), Notify(Webhook.ErrorStatus, None, Some(message))]
      + (if cleanup then [Cleanup] else [])
  }

  /** The calls up to the recording of the task id. */
  function StartCalls(cfg: Config.Config, projectId: string, recordId: string, taskId: string): seq<Effect>
  {
    [Submit(Config.ProjectTempDir(cfg, projectId))] + [LedgerUpdate(recordId, TaskIdUpdate(taskId))]
  }

  /** The uploads of a run whose mosaic upload succeeded. */
  function Uploads(cfg: Config.Config, projectId: string, metadata: Option<string>): seq<Effect>
  {
    [UploadMosaic(WebOdm.OrthophotoPath(cfg, projectId))]
      + (if metadata.Some? then [UploadMetadata(metadata.value)] else [])
  }

  /** The calls a run makes after recording the task id. */
  function Tail(cfg: Config.Config, projectId: string, recordId: string, e: Exit): seq<Effect>
  {
    match e
    case ProcessingFailed(_, s) => FailTail(recordId, ErrorPrefix + s, ProcessingFailedPrefix + s, true)
    case ResultMissing(_) =>
      FailTail(recordId, ResultMissingStatus, ResultMissingMessage, true)
    case PublishFailed(_) =>
      [UploadMosaic(WebOdm.OrthophotoPath(cfg, projectId))]
        + FailTail(recordId, PublishFailedStatus, PublishFailedMessage, true)
    case CommitFailed(_, md, url) =>
      Uploads(cfg, projectId, md) + [LedgerUpdate(recordId, CommitUpdate(url))]
        + [Notify(Webhook.ErrorStatus, None, Some(CommitFailedMessage)), Cleanup]
    case Completed(_, md, url) =>
      Uploads(cfg, projectId, md) + [LedgerUpdate(recordId, CommitUpdate(url))]
        + [Notify(Webhook.SuccessStatus, Some(url), None), Cleanup]
    case _ => []
  }

  /** The calls each way out makes, in order. */
  function ExitTrace(cfg: Config.Config, projectId: string, recordId: string, e: Exit): seq<Effect>
  {
    match e
    case Unexpected(m) => FailTail(recordId, ErrorPrefix + m, m, true)
    case NoImages =>
      FailTail(recordId, NoImagesStatus, NoImagesMessage, false)
    case SubmitFailed =>
      [Submit(Config.ProjectTempDir(cfg, projectId))]
        + FailTail(recordId, SubmitFailedStatus, SubmitFailedMessage, true)
    case _ => StartCalls(cfg, projectId, recordId, e.taskId) + Tail(cfg, projectId, recordId, e)
  }

  /** The metadata file never has an empty path. */
  lemma MetadataPathNonEmpty(mosaic: string)
    ensures Metadata.MetadataPath(mosaic) != ""
  {
    assert !IsAbsolute(Metadata.MetadataFileName);
  }

  /** Whether a run that leaves by `e` wrote the metadata report: it got
      past fetching the results, and the task info and the file worked. */
  predicate ReportWritten(e: Exit, w: World)
  {
    (e.PublishFailed? || e.CommitFailed? || e.Completed?) && w.info.Info? && w.metadataWritable
  }

  /** `processar_projeto(id, record, request)` on the shared options
      `bundle`. Returns the result, the calls made and the report. */
  method ProcessProject(cfg: Config.Config, bundle: WebOdm.SharedPreset, projectId: string, recordId: string,
                        request: Metadata.Request, w: World)
    returns (ok: bool, trace: seq<Effect>, report: Option<Metadata.Report>)
    modifies bundle
    ensures trace == ExitTrace(cfg, projectId, recordId, ExitOf(cfg, old(bundle.options), projectId, w))
    ensures ok <==> ExitOf(cfg, old(bundle.options), projectId, w).Completed?
    ensures bundle.options == OptionsAfter(cfg, old(bundle.options), projectId, w)
    ensures report.Some? ==> Metadata.ListsParameters(report.value.parameters, bundle.options)
    ensures report.Some? <==> ReportWritten(ExitOf(cfg, old(bundle.options), projectId, w), w)
    ensures report.Some? ==> report.value.attributes == Metadata.AttributeLinesAsWritten(request)
  {
    ghost var opts0 := bundle.options;
    ghost var e := ExitOf(cfg, opts0, projectId, w);
    report := None;
    // 1. download the images
    var d := Storage.DownloadImages(cfg, projectId, bundle.options, w.tempDirError, w.listing);
    if d.Escaped? {
      // the exception handler
      trace := FailTail(recordId, ErrorPrefix + d.message, d.message, true);
      return false, trace, report;
    }
    assert d.names == Storage.ListedImages(opts0, w.listing);
    if d.count == 0 {
      trace := FailTail(recordId, NoImagesStatus, NoImagesMessage, false);
      return false, trace, report;
    }
    // 2. submit the task
    trace := [Submit(d.dir)];
    var task, submitted, images := bundle.Submit(d.dir, projectId, w.nodeOk, Some(DirEntries(w.leftovers, d.names)), w.create);
    assert images == SubmittedImages(cfg, opts0, projectId, w);
    if !submitted || task.None? {
      trace := trace + FailTail(recordId, SubmitFailedStatus, SubmitFailedMessage, true);
      return false, trace, report;
    }
    var taskId := task.value;
    trace := trace + [LedgerUpdate(recordId, TaskIdUpdate(taskId))];
    assert e == LateExit(cfg, projectId, taskId, w);
    // 3.-10.
    var tail;
    ok, tail, report := FollowTask(cfg, bundle, projectId, recordId, taskId, d.count, request, w);
    trace := trace + tail;
  }

  /** Stages 3 to 10 of `processar_projeto`, once the task `taskId` exists
      and its id has been recorded: returns the result, the calls made and
      the report. */
  method FollowTask(cfg: Config.Config, bundle: WebOdm.SharedPreset, projectId: string, recordId: string,
                    taskId: string, imageCount: nat, request: Metadata.Request, w: World)
    returns (ok: bool, trace: seq<Effect>, report: Option<Metadata.Report>)
    ensures trace == Tail(cfg, projectId, recordId, LateExit(cfg, projectId, taskId, w))
    ensures ok <==> LateExit(cfg, projectId, taskId, w).Completed?
    ensures report.Some? ==> Metadata.ListsParameters(report.value.parameters, bundle.options)
    ensures report.Some? <==> ReportWritten(LateExit(cfg, projectId, taskId, w), w)
    ensures report.Some? ==> report.value.attributes == Metadata.AttributeLinesAsWritten(request)
  {
    report := None;
    ghost var e := LateExit(cfg, projectId, taskId, w);
    // 3. wait for the task
    var (status, done) := WebOdm.Await(w.wait);
    if !done {
      trace := FailTail(recordId, ErrorPrefix + status, ProcessingFailedPrefix + status, true);
      return false, trace, report;
    }
    // 4. fetch the results
    var (mosaic, fetched) := WebOdm.RetrieveResults(cfg, projectId, w.results);
    if !fetched || !Truthy(mosaic) {
      trace := FailTail(recordId, ResultMissingStatus, ResultMissingMessage, true);
      return false, trace, report;
    }
    // 5. the metadata report (its failure is not fatal)
    var generated := Metadata.GenerateMetadata(cfg, projectId, mosaic.value, taskId, bundle.options, imageCount, request,
                                               w.now, w.info, w.metadataWritable);
    report := if generated.Some? then Some(generated.value.1) else None;
    MetadataPathNonEmpty(mosaic.value);
    // 6. upload the mosaic; the file was just copied, so it exists
    trace := [UploadMosaic(mosaic.value)];
    var up := Storage.UploadMosaic(projectId, true, w.mosaicUpload);
    if !up.ok || !Truthy(up.url) {
      trace := trace + FailTail(recordId, PublishFailedStatus, PublishFailedMessage, true);
      return false, trace, report;
    }
    var url := up.url.value;
    // 7. upload the metadata if there is a file; the result is ignored
    if generated.Some? && generated.value.0 != "" {
      trace := trace + [UploadMetadata(generated.value.0)];
    }
    // 8. record the success
    var fields := CommitUpdate(url);
    trace := trace + [LedgerUpdate(recordId, fields)];
    var committed := Ledger.Acknowledged(fields, w.statusWrite);
    if !committed {
      trace := trace + [Notify(Webhook.ErrorStatus, None, Some(CommitFailedMessage)), Cleanup];
      return false, trace, report;
    }
    // 9. notify, 10. clean up
    trace := trace + [Notify(Webhook.SuccessStatus, Some(url), None), Cleanup];
    return true, trace, report;
  }

  /** Where the webhook stands in a trace: last after a run without images,
      followed by the cleanup otherwise. */
  function WebhookIndex(e: Exit, t: seq<Effect>): int
  {
    if e.NoImages? then |t| - 1 else |t| - 2
  }

  /** Every trace as a literal list of calls. */
  lemma TraceListed(cfg: Config.Config, projectId: string, recordId: string, e: Exit)
    ensures var t := ExitTrace(cfg, projectId, recordId, e);
            var dir := Config.ProjectTempDir(cfg, projectId);
            var mosaic := WebOdm.OrthophotoPath(cfg, projectId);
            match e
            case Unexpected(m) =>
              t == [LedgerUpdate(recordId, StatusUpdate(ErrorPrefix + m)), Notify(Webhook.ErrorStatus, None, Some(m)), Cleanup]
            case NoImages =>
              t == [LedgerUpdate(recordId, StatusUpdate(NoImagesStatus)), Notify(Webhook.ErrorStatus, None, Some(NoImagesMessage))]
            case SubmitFailed =>
              t == [Submit(dir), LedgerUpdate(recordId, StatusUpdate(SubmitFailedStatus)),
                    Notify(Webhook.ErrorStatus, None, Some(SubmitFailedMessage)), Cleanup]
            case ProcessingFailed(id, s) =>
              t == [Submit(dir), LedgerUpdate(recordId, TaskIdUpdate(id)), LedgerUpdate(recordId, StatusUpdate(ErrorPrefix + s)),
                    Notify(Webhook.ErrorStatus, None, Some(ProcessingFailedPrefix + s)), Cleanup]
            case ResultMissing(id) =>
              t == [Submit(dir), LedgerUpdate(recordId, TaskIdUpdate(id)), LedgerUpdate(recordId, StatusUpdate(ResultMissingStatus)),
                    Notify(Webhook.ErrorStatus, None, Some(ResultMissingMessage)), Cleanup]
            case PublishFailed(id) =>
              t == [Submit(dir), LedgerUpdate(recordId, TaskIdUpdate(id)), UploadMosaic(mosaic),
                    LedgerUpdate(recordId, StatusUpdate(PublishFailedStatus)),
                    Notify(Webhook.ErrorStatus, None, Some(PublishFailedMessage)), Cleanup]
            case CommitFailed(id, md, url) =>
              t == [Submit(dir), LedgerUpdate(recordId, TaskIdUpdate(id)), UploadMosaic(mosaic)]
                     + (if md.Some? then [UploadMetadata(md.value)] else [])
                     + [LedgerUpdate(recordId, CommitUpdate(url)), Notify(Webhook.ErrorStatus, None, Some(CommitFailedMessage)), Cleanup]
            case Completed(id, md, url) =>
              t == [Submit(dir), LedgerUpdate(recordId, TaskIdUpdate(id)), UploadMosaic(mosaic)]
                     + (if md.Some? then [UploadMetadata(md.value)] else [])
                     + [LedgerUpdate(recordId, CommitUpdate(url)), Notify(Webhook.SuccessStatus, Some(url), None), Cleanup]
  {
  }

  /** On every way out exactly one webhook is sent; except after a run
      without images, the cleanup is the last call, and the only one. */
  lemma OneWebhookCleanupLast(cfg: Config.Config, projectId: string, recordId: string, e: Exit)
    ensures var t := ExitTrace(cfg, projectId, recordId, e);
            && 0 <= WebhookIndex(e, t) < |t|
            && (forall i :: 0 <= i < |t| ==> (t[i].Notify? <==> i == WebhookIndex(e, t)))
            && (forall i :: 0 <= i < |t| ==> (t[i] == Cleanup <==> !e.NoImages? && i == |t| - 1))
  {
    TraceListed(cfg, projectId, recordId, e);
  }

  /** Every error report writes a status beginning "Erro: " to the record
      right before the "erro" webhook, which carries a message and no URL.
      After a failed final update the webhook follows that unacknowledged
      "Sucesso" write directly and nothing else is written. */
  lemma LedgerBeforeErrorWebhook(cfg: Config.Config, projectId: string, recordId: string, e: Exit)
    requires !e.Completed?
    ensures var t := ExitTrace(cfg, projectId, recordId, e);
            var k := WebhookIndex(e, t);
            && 1 <= k < |t|
            && t[k].Notify? && t[k].status == Webhook.ErrorStatus && t[k].url.None? && t[k].message.Some?
            && t[k - 1].LedgerUpdate? && t[k - 1].recordId == recordId
            && (e.CommitFailed? ==> t[k - 1].fields == CommitUpdate(e.url))
            && (!e.CommitFailed? ==>
                  t[k - 1].fields.Keys == {"status_orto"} && StartsWith(t[k - 1].fields["status_orto"], ErrorPrefix))
  {
    TraceListed(cfg, projectId, recordId, e);
    var t := ExitTrace(cfg, projectId, recordId, e);
    var k := WebhookIndex(e, t);
    if !e.CommitFailed? {
      var status := t[k - 1].fields["status_orto"];
      assert t[k - 1].fields == StatusUpdate(status);
      assert StatusUpdate(status).Keys == {"status_orto"};
      assert status[..|ErrorPrefix|] == ErrorPrefix;
    }
  }

  /** The "sucesso" webhook is sent only on the completed exit, right after
      the final record update, and it carries the URL written there; the
      completed exit always sends it. */
  lemma SuccessWebhookFollowsCommit(cfg: Config.Config, projectId: string, recordId: string, e: Exit)
    ensures var t := ExitTrace(cfg, projectId, recordId, e);
            && (forall i :: 0 <= i < |t| && t[i].Notify? && t[i].status == Webhook.SuccessStatus ==>
                  && e.Completed? && 1 <= i
                  && t[i - 1] == LedgerUpdate(recordId, CommitUpdate(e.url))
                  && t[i].url == Some(e.url))
            && (e.Completed? ==> |t| >= 2 && t[|t| - 2] == Notify(Webhook.SuccessStatus, Some(e.url), None))
  {
    TraceListed(cfg, projectId, recordId, e);
    assert Webhook.SuccessStatus != Webhook.ErrorStatus;
  }

  /** After the final update the failed-commit exit sends an "erro" webhook
      and cleans up, with no further ledger write. */
  lemma CommitFailureTrace(cfg: Config.Config, projectId: string, recordId: string, e: Exit)
    requires e.CommitFailed?
    ensures var t := ExitTrace(cfg, projectId, recordId, e);
            && |t| >= 3
            && t[|t| - 3] == LedgerUpdate(recordId, CommitUpdate(e.url))
            && t[|t| - 2] == Notify(Webhook.ErrorStatus, None, Some(CommitFailedMessage))
            && t[|t| - 1] == Cleanup
  {
    TraceListed(cfg, projectId, recordId, e);
  }

  /** Once the task exists, its id is the second call, before anything the
      wait leads to, and no other update touches `id_wl`. */
  lemma TaskIdBeforeWaiting(cfg: Config.Config, projectId: string, recordId: string, e: Exit)
    requires e.Started()
    ensures var t := ExitTrace(cfg, projectId, recordId, e);
            && |t| >= 2
            && t[0] == Submit(Config.ProjectTempDir(cfg, projectId))
            && t[1] == LedgerUpdate(recordId, Ledger.UpdateFields(Some(e.taskId), None, None))
            && (forall i :: 0 <= i < |t| && i != 1 && t[i].LedgerUpdate? ==> "id_wl" !in t[i].fields)
  {
    TraceListed(cfg, projectId, recordId, e);
  }

  /** The metadata file is uploaded only when the report was written, and
      then directly after the mosaic. */
  lemma MetadataUploadAfterMosaic(cfg: Config.Config, projectId: string, recordId: string, e: Exit)
    ensures var t := ExitTrace(cfg, projectId, recordId, e);
            && (forall i :: 0 <= i < |t| && t[i].UploadMetadata? ==>
                  && i == 3 && t[2] == UploadMosaic(WebOdm.OrthophotoPath(cfg, projectId))
                  && (e.CommitFailed? || e.Completed?) && e.metadata == Some(t[i].localPath))
            && ((exists i :: 0 <= i < |t| && t[i].UploadMetadata?) <==> (e.CommitFailed? || e.Completed?) && e.metadata.Some?)
  {
    TraceListed(cfg, projectId, recordId, e);
    var t := ExitTrace(cfg, projectId, recordId, e);
    if (e.CommitFailed? || e.Completed?) && e.metadata.Some? {
      assert t[3].UploadMetadata?;
    }
  }

  /** A run that finds no image records the no-images status and sends one
      "erro" webhook; it submits nothing and does not clean up. */
  lemma ZeroImages(cfg: Config.Config, options: Settings.Preset, projectId: string, recordId: string, w: World)
    requires w.tempDirError.None? && Storage.ListedImages(options, w.listing) == []
    ensures ExitOf(cfg, options, projectId, w) == NoImages
    ensures ExitTrace(cfg, projectId, recordId, ExitOf(cfg, options, projectId, w))
              == [LedgerUpdate(recordId, Ledger.UpdateFields(None, Some("Erro: Nenhuma imagem encontrada"), None)),
                  Notify("erro", None, Some("Nenhuma imagem encontrada"))]
  {
    TraceListed(cfg, projectId, recordId, NoImages);
  }

  /** The task is submitted exactly when the download step wrote at least
      one image, and then it is the first call. */
  lemma SubmitOnlyWithImages(cfg: Config.Config, options: Settings.Preset, projectId: string, recordId: string, w: World)
    ensures var t := ExitTrace(cfg, projectId, recordId, ExitOf(cfg, options, projectId, w));
            && ((exists i :: 0 <= i < |t| && t[i].Submit?) <==> Submits(options, w))
            && (Submits(options, w) ==> t[0] == Submit(Config.ProjectTempDir(cfg, projectId)))
  {
    var e := ExitOf(cfg, options, projectId, w);
    TraceListed(cfg, projectId, recordId, e);
    var t := ExitTrace(cfg, projectId, recordId, e);
    if Submits(options, w) {
      assert t[0].Submit?;
    }
  }

  /** Only the scratch-directory error escapes a handler, and it is what
      the exception report carries. */
  lemma UnexpectedOnlyFromTempDir(cfg: Config.Config, options: Settings.Preset, projectId: string, w: World, m: string)
    ensures ExitOf(cfg, options, projectId, w) == Unexpected(m) <==> w.tempDirError == Some(m)
  {
  }

  /** A task exists only for a run that downloaded and found images and
      whose options convert; it is the one `create_task` returned, and the
      rest of the run is decided by the later stages alone. */
  lemma StartedRun(cfg: Config.Config, options: Settings.Preset, projectId: string, w: World)
    requires ExitOf(cfg, options, projectId, w).Started()
    ensures Submits(options, w) && SubmittedImages(cfg, options, projectId, w) != []
    ensures WebOdm.ResolutionConvertible(options) && w.create.Created?
    ensures ExitOf(cfg, options, projectId, w) == LateExit(cfg, projectId, w.create.uuid, w)
    ensures ExitOf(cfg, options, projectId, w).taskId == w.create.uuid
  {
  }

  /** A run completes exactly when every stage succeeds: there are images,
      the task is created and completes, the mosaic is fetched and
      published under a non-empty URL, and the database acknowledges the
      final update. */
  lemma CompletedExactly(cfg: Config.Config, options: Settings.Preset, projectId: string, w: World)
    ensures ExitOf(cfg, options, projectId, w).Completed? <==>
              && w.tempDirError.None? && Submits(options, w) && SubmittedImages(cfg, options, projectId, w) != []
              && WebOdm.ResolutionConvertible(options) && w.create.Created?
              && w.wait == WebOdm.Finished("COMPLETED") && w.results == WebOdm.Fetched(true)
              && w.mosaicUpload.Uploaded? && w.mosaicUpload.publicUrl != ""
              && w.statusWrite.Reachable?
  {
    var e := ExitOf(cfg, options, projectId, w);
    assert forall u :: "status_orto" in CommitUpdate(u);
    if e.Started() {
      StartedRun(cfg, options, projectId, w);
    }
  }

  /** After a published mosaic the acknowledgement of the final update alone
      decides between success and the commit-failure report; both carry the
      URL the upload returned. */
  lemma CommitDecides(cfg: Config.Config, options: Settings.Preset, projectId: string, w: World)
    requires ExitOf(cfg, options, projectId, w).CommitFailed? || ExitOf(cfg, options, projectId, w).Completed?
    ensures w.mosaicUpload.Uploaded? && ExitOf(cfg, options, projectId, w).url == w.mosaicUpload.publicUrl
    ensures (ExitOf(cfg, options, projectId, w).Completed?)
              <==> (Ledger.Acknowledged(CommitUpdate(ExitOf(cfg, options, projectId, w).url), w.statusWrite))
  {
    StartedRun(cfg, options, projectId, w);
  }

  /** A failed wait reports what it observed: the status of a task that
      finished other than completed, or "FAILED" when waiting raised. */
  lemma FailedWaitStatus(cfg: Config.Config, options: Settings.Preset, projectId: string, w: World)
    requires ExitOf(cfg, options, projectId, w).ProcessingFailed?
    ensures w.wait != WebOdm.Finished("COMPLETED")
    ensures ExitOf(cfg, options, projectId, w).status == (if w.wait.WaitRaised? then "FAILED" else w.wait.statusName)
  {
    StartedRun(cfg, options, projectId, w);
  }

  /** The failed-wait exit writes "Erro: <status>" to the record and sends
      "Processamento falhou: <status>" in the webhook, then cleans up. */
  lemma FailedWaitTrace(cfg: Config.Config, projectId: string, recordId: string, taskId: string, status: string)
    ensures var t := ExitTrace(cfg, projectId, recordId, ProcessingFailed(taskId, status));
            && |t| == 5
            && t[2] == LedgerUpdate(recordId, Ledger.UpdateFields(None, Some("Erro: " + status), None))
            && t[3] == Notify("erro", None, Some("Processamento falhou: " + status))
            && t[4] == Cleanup
  {
    TraceListed(cfg, projectId, recordId, ProcessingFailed(taskId, status));
  }

  /** The report is not essential: whether it can be produced, and whether
      its upload works, never changes whether the run completes, and only
      the runs that publish the mosaic notice it at all. */
  lemma MetadataNonFatal(cfg: Config.Config, options: Settings.Preset, projectId: string, w: World,
                         info: Metadata.InfoOutcome, writable: bool, upload: Storage.UploadOutcome)
    ensures var e := ExitOf(cfg, options, projectId, w);
            var e' := ExitOf(cfg, options, projectId, w.(info := info, metadataWritable := writable, metadataUpload := upload));
            && (e'.Completed? <==> e.Completed?)
            && (!(e.CommitFailed? || e.Completed?) ==> e' == e)
  {
    var v := w.(info := info, metadataWritable := writable, metadataUpload := upload);
    assert Submits(options, v) == Submits(options, w);
    assert SubmittedImages(cfg, options, projectId, v) == SubmittedImages(cfg, options, projectId, w);
  }

  /** A run that publishes the mosaic has a report file exactly when the
      task info could be read and the file written, and then it is the one
      beside the mosaic (which is in the results directory, by
      `Metadata.MetadataInResultsDir`). */
  lemma MetadataWhenReported(cfg: Config.Config, options: Settings.Preset, projectId: string, w: World)
    requires ExitOf(cfg, options, projectId, w).CommitFailed? || ExitOf(cfg, options, projectId, w).Completed?
    ensures ExitOf(cfg, options, projectId, w).metadata
              == if w.info.InfoRaised? || !w.metadataWritable then None
                 else Some(Metadata.MetadataPath(WebOdm.OrthophotoPath(cfg, projectId)))
  {
    StartedRun(cfg, options, projectId, w);
    LateExitMetadata(cfg, projectId, w.create.uuid, w);
  }

  /** The report of a publishing late exit, as `MetadataWhenReported`
      states it. */
  lemma LateExitMetadata(cfg: Config.Config, projectId: string, taskId: string, w: World)
    requires LateExit(cfg, projectId, taskId, w).CommitFailed? || LateExit(cfg, projectId, taskId, w).Completed?
    ensures LateExit(cfg, projectId, taskId, w).metadata
              == if w.info.InfoRaised? || !w.metadataWritable then None
                 else Some(Metadata.MetadataPath(WebOdm.OrthophotoPath(cfg, projectId)))
  {
  }

  /** How the `id_wl` update fares never changes the course of the run. */
  lemma TaskIdWriteIgnored(cfg: Config.Config, options: Settings.Preset, projectId: string, w: World, idWrite: Ledger.Reach)
    ensures ExitOf(cfg, options, projectId, w.(idWrite := idWrite)) == ExitOf(cfg, options, projectId, w)
  {
    var v := w.(idWrite := idWrite);
    assert Submits(options, v) == Submits(options, w);
    assert SubmittedImages(cfg, options, projectId, v) == SubmittedImages(cfg, options, projectId, w);
  }

  /** The keys an earlier run wrote into the shared options never change
      the course of a later run. */
  lemma EarlierRunIrrelevant(cfg: Config.Config, p: Settings.Preset, earlierId: string, projectId: string, w: World)
    ensures ExitOf(cfg, WebOdm.Prepare(p, earlierId), projectId, w) == ExitOf(cfg, p, projectId, w)
  {
    var q := WebOdm.Prepare(p, earlierId);
    assert Storage.ExtensionsKey !in WebOdm.PreparedKeys;
    assert Storage.ConfiguredExtensions(q) == Storage.ConfiguredExtensions(p);
    assert Storage.ListedImages(q, w.listing) == Storage.ListedImages(p, w.listing);
    assert WebOdm.ResolutionConvertible(q) == WebOdm.ResolutionConvertible(p);
  }
}
