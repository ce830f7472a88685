# Mosaic job pipeline — a Dafny model

This project models the service that turns a project's uploaded drone
images into an orthomosaic. An HTTP route (`/processar`) validates the
request, inserts a record in the `requisicoes` table and starts the job
driver `processar_projeto`. The driver runs ten stages:

1. download the images from the `uploads` bucket;
2. submit a WebODM task;
3. wait for the task;
4. fetch the results;
5. write the metadata report;
6. upload the mosaic;
7. upload the report;
8. record success in the table;
9. send the success webhook;
10. remove the scratch directory.

Every failing stage leaves early with an error report: a status in the
table, an "erro" webhook and, in most cases, the cleanup.

The model is split by module:

- `Pipeline` (pipeline.dfy) holds the driver. `ProcessProject` and its
  second half `FollowTask` are methods that append every outward call
  (ledger update, webhook, submission, uploads, cleanup) to a trace. Every
  outcome of the outside world for one run is a field of a `World` value.
  Two functions specify the method: `ExitOf` says which way a run leaves,
  and `ExitTrace` gives the calls that way out makes. The ordering rules are
  lemmas over these two functions.
- The handlers (handlers.py) are modelled one module per concern:
  - `Ledger`: creating and partially updating a record;
  - `Storage`: the download loop and the bucket uploads;
  - `WebOdm`: the submission step, the wait rule and the results path;
  - `Metadata`: the report, including the sorted parameter list;
  - `Webhook`: the payload and how the answer is classified.
- `WebOdm.SharedPreset` is a class. It holds the option dictionary that
  config.py builds once, and that the submission step rewrites in place on
  every run.
- `Config` (config.py) and `Settings` (settings.py) hold the configuration
  and the constant preset table.
- `Api` (api.dfy) models the `/processar` decision.
- `Common` and `Paths` hold the Python behaviour the model relies on:
  truthiness, `str` ordering, ASCII lower-casing, and `posixpath`'s `join`,
  `dirname` and `splitext`.

Floats are kept in tenths (`Decimal(tenths)`).

Where the design description and the code differ, the model follows the
code:

- The no-images exit neither cleans up nor submits (main.py:108-112). The
  description says every exit cleans up.
- A failed final update is followed by the "erro" webhook and the cleanup
  only (main.py:176-180). The ledger is not written again; the
  unacknowledged "Sucesso" update is that exit's only status write.
- A failed record creation returns `None`, and the route answers 500
  (handlers.py:100-111, main.py:69-70). It never raises.
- An exception reaches the driver's handler from one place only. When
  creating the scratch directory fails inside the download step's own
  `except` branch, that error is outside any `try` (handlers.py:214-217).
  Every other handler catches its exceptions.

## Model

| member | source | states |
|---|---|---|
| Settings.ExactlyFourPresets | settings.py:11-104 | the preset table has exactly the keys padrao, alta, robusta and rapida |
| Settings.EveryPresetDisablesAuxiliaryOutputs | settings.py:11-104 | every preset has dsm and dtm False, skip-3dmodel and skip-report True, pc-classify False |
| Settings.OnlyRobustaForcesGps | settings.py:78-79 | robusta, and only robusta, sets force-gps True and gps-accuracy 10 |
| Settings.OnlyRapidaLacksMatcherDistance | settings.py:84-103 | rapida has no matcher-distance key; the other three define it |
| Settings.QualityOrdering | settings.py:11-104 | min-num-features and depthmap-resolution are strictly ordered alta > padrao > robusta > rapida |
| Settings.NoPresetSetsResolution | settings.py:11-104 | no preset sets orthophoto-resolution, so the submission default of 5 applies |
| Settings.NoPresetSetsExtensions | settings.py:11-104 | no preset carries SUPPORTED_IMAGE_EXTENSIONS, so the download step's own list applies |
| Settings.NoPresetSetsNameOrProjection | settings.py:11-104 | no preset sets name or projection; the submission step adds both |
| Settings.OutputConstants | settings.py:131-134 | the output CRS is EPSG:4326; the extension list has five distinct, dotted, lower-case entries |
| Config.Load | config.py:37-61 | environment defaults: ACTIVE_PRESET padrao, TIMEZONE America/Sao_Paulo; the temp dir is base/temp |
| Config.EnvDefaults | config.py:39-51 | with no environment the defaults apply and the configuration is invalid |
| Config.ResolvedPresetName | config.py:63-70 | the configured name when the table has it, otherwise padrao |
| Config.GetActivePreset | config.py:63-70 | the named preset when it exists, otherwise the padrao preset; always a table entry with auxiliary outputs off |
| Config.MissingNames | config.py:93 | exactly the names whose value is unset or empty; empty iff all are truthy |
| Config.MissingNamesConcat | config.py:83-93 | the missing list distributes over concatenation, so it keeps the order of the required list |
| Config.ValidateConfig | config.py:81-100 | True iff all required values are truthy |
| Config.ValidateConfigNames | config.py:81-100 | the configuration is invalid iff one of the seven named variables is unset or empty |
| Config.ProjectTempDir | config.py:102-106 | TEMP_DIR/id for a relative id below a directory with no trailing slash; an absolute id replaces it |
| Config.TempDirShape | config.py:60-61 | a loaded temp dir is non-empty and has no trailing separator |
| Config.ProjectTempDirInjective | config.py:102-106 | different relative ids get different scratch directories |
| Config.AbsoluteProjectIdEscapesTempDir | config.py:104 | the scratch directory of an absolute project id is the id itself, not a directory under TEMP_DIR |
| Ledger.NewRecord | handlers.py:45-54 | the inserted row has the seven columns, unset ones NULL, status_orto "Processando" |
| Ledger.CreateRecord | handlers.py:56-111 | the id extracted from the insert's answer, exactly; None when the client raises or no id is found |
| Ledger.UpdateFields | handlers.py:130-136 | id_wl, status_orto and url_ortomosaico are present exactly when given, with the given values, and nothing else |
| Ledger.ApplyFields | handlers.py:139-140 | the given columns are overwritten and every other column is kept |
| Ledger.UpdateRecord | handlers.py:126-154 | True iff there are fields and the client does not raise; nothing changes otherwise; only the named row changes |
| Ledger.UpdateKeepsOtherColumns | handlers.py:130-140 | a partial update never touches a column outside the three updatable ones |
| Ledger.EmptyUpdateFails | handlers.py:147-149 | with no fields nothing is written and the result is False |
| Ledger.UpdateOfUnknownRecordSucceeds | handlers.py:145-146 | an update of an id the table does not hold still reports True |
| Storage.FallbackIsSettingsList | handlers.py:182-183 | the download step's own extension list equals settings' SUPPORTED_IMAGE_EXTENSIONS |
| Storage.ConfiguredExtensions | handlers.py:182-183 | without the key in the options the five-extension list applies |
| Storage.ValidFiles | handlers.py:185-186 | the valid files are at most the listed ones |
| Storage.ValidFilesExactly | handlers.py:185-186 | a file is valid iff it is listed and its lower-cased last extension is supported |
| Storage.DownloadedNamesExactly | handlers.py:191-209 | a name is written iff some valid file of that name downloads |
| Storage.DownloadEach | handlers.py:191-212 | the counter equals the number of successful downloads, is at most the number of valid files, and names them in order |
| Storage.DownloadImages | handlers.py:157-217 | the scratch dir and count; 0 for an empty or failed listing; count at most the valid files; a temp-dir error in the handler escapes |
| Storage.DownloadedNamesAreImages | handlers.py:182-186 | with the default list every downloaded name has one of the five extensions |
| Storage.UploadMosaic | handlers.py:219-281 | a missing local file fails without uploading; success iff the upload works; the target is {id}/odm_ortophoto.tif |
| Storage.UploadMetadata | handlers.py:283-319 | the same guard; the target is {id}/metadados.txt; only a flag is returned |
| Storage.BucketPathsDistinct | handlers.py:261-262 | the mosaic and metadata objects differ; the mosaic object is not named like the ODM file |
| Storage.MosaicBucketPathInjective | handlers.py:261-262 | different projects never share a mosaic object |
| WebOdm.ImageFiles | handlers.py:345-350 | the image list is no longer than the directory listing |
| WebOdm.ImageFilesSound | handlers.py:345-350 | every listed image is a regular file passing the suffix test, joined under the directory |
| WebOdm.ImageFilesComplete | handlers.py:345-350 | every regular file passing the suffix test is in the image list |
| WebOdm.DownloadedNamePassesSuffixTest | handlers.py:348-349 | every name the download filter accepts passes the submission step's suffix test |
| WebOdm.FiltersDiffer | handlers.py:348-349 | the two filters differ: ".jpg" passes the suffix test but has no extension for splitext |
| WebOdm.ToDecimal | handlers.py:363 | float() of an int, a float and a bool (True 1.0, False 0.0) in tenths; strings, lists and None do not convert |
| WebOdm.Prepare | handlers.py:359-369 | name Projeto_{id} always; when the resolution converts also resolution, dsm/dtm kept or False, gcp False, projection EPSG:4326; other keys unchanged |
| WebOdm.PrepareTwice | handlers.py:359-369 | rewriting the shared dict again gives what rewriting the original would: only the last job name survives |
| WebOdm.PreparePreset | handlers.py:359-369 | on a table preset the resolution becomes 5.0, dsm/dtm stay False and the projection is EPSG:4326 |
| WebOdm.SharedPreset.constructor | config.py:110 | the shared dict starts as get_active_preset() |
| WebOdm.SharedPreset.Submit | handlers.py:322-384 | images as listed; the dict rewritten in place iff images exist; the task returned iff images, a converting resolution and a created task |
| WebOdm.Await | handlers.py:397-420 | success iff the final status name is COMPLETED; an exception gives ("FAILED", False) |
| WebOdm.RaiseLooksLikeFailure | handlers.py:417-420 | a raised wait is reported like a task that ended FAILED |
| WebOdm.RetrieveResults | handlers.py:434-463 | success iff the ODM mosaic exists after the download; the path is then resultados/odm_orthophoto.tif |
| WebOdm.OrthophotoInResultsDir | handlers.py:438-452 | the fetched mosaic lies directly in the results directory |
| Metadata.Attribute | handlers.py:521-528 | a line exactly when the value is present and non-empty |
| Metadata.AttributeLinesReading | handlers.py:519-528 | at most four lines, none with an empty value |
| Metadata.SurveyDateDroppedAsWritten | handlers.py:500 | a request carrying data_levantamento gets no date line as written, and gets one with the corrected key |
| Metadata.AttributeReported | handlers.py:521-528 | with the corrected key, each descriptive field is reported iff the request has it non-empty |
| Metadata.ParameterLines | handlers.py:548-551 | the scalar options whose key does not start with "_", each with its value, in strictly increasing key order |
| Metadata.SortedUnique | handlers.py:548 | two strictly sorted key lists with the same elements are equal |
| Metadata.ParametersUnique | handlers.py:548-551 | the parameter block is determined by the options |
| Metadata.ReportShowsSubmission | handlers.py:548-551 | after a submission the block lists name Projeto_{id} and projection EPSG:4326 |
| Metadata.MetadataInResultsDir | handlers.py:486-511 | the report file is results/metadados.txt |
| Metadata.GenerateMetadata | handlers.py:466-574 | None iff the task info or the file fails; otherwise the file beside the mosaic, stating the id, the attribute lines as written (survey date read from data_voo), preset, count, time, status lower-cased and parameters |
| Metadata.ReportNamesUnknownPreset | handlers.py:503 | an unknown configured preset is named in the report although the padrao options were used |
| Webhook.EffectiveUrl | handlers.py:604-614 | the given URL when truthy; a success notification without one takes the stored URL when that is truthy; other notifications never do |
| Webhook.BuildPayload | handlers.py:598-621 | id_projeto, status and timestamp always; url_ortomosaico and mensagem iff truthy |
| Webhook.Send | handlers.py:590-638 | no URL configured: nothing sent, False; otherwise the payload is posted and the flag is True iff the answer is 2xx |
| Webhook.ErrorPayloadShape | handlers.py:604-621 | an error notification carries its message and no URL, whatever the record holds |
| Webhook.SuccessPayloadShape | handlers.py:616-621 | a success notification with a URL carries exactly id, status, timestamp and that URL |
| Webhook.AcceptedRange | handlers.py:633-638 | 200 and 299 are delivered; 199, 300, 500 and an exception are not |
| Pipeline.LateExit | main.py:127-189 | after the task is created, the run leaves through a later stage, carrying that task's id |
| Pipeline.ProcessProject | main.py:95-204 | the calls are those of the exit the world leads to; True iff that exit is success; the shared dict is rewritten iff images were found; a report exists iff the run got past the results and the info and file worked, listing the rewritten options and the attribute lines as written |
| Pipeline.FollowTask | main.py:127-189 | stages 3-10 make the calls of the late exit, in order; True iff it is success; the report exists iff the results arrived and the info and file worked, with the attribute lines as written |
| Pipeline.OneWebhookCleanupLast | main.py:108-204 | every exit sends exactly one webhook; except for no images the cleanup is the last call and the only one |
| Pipeline.LedgerBeforeErrorWebhook | main.py:108-204 | every error exit writes a status starting "Erro: " right before its "erro" webhook, which has a message and no URL; a failed commit is preceded by its own write |
| Pipeline.SuccessWebhookFollowsCommit | main.py:171-183 | the "sucesso" webhook comes only on success, right after the "Sucesso" + URL update, and carries that URL |
| Pipeline.CommitFailureTrace | main.py:176-180 | after the failed final update come the "erro" webhook and the cleanup, with no further ledger write |
| Pipeline.TaskIdBeforeWaiting | main.py:124-128 | once created, the task id is written second, before anything later; no other update touches id_wl |
| Pipeline.MetadataUploadAfterMosaic | main.py:157-169 | the report is uploaded only if it exists, directly after the mosaic |
| Pipeline.ZeroImages | main.py:108-112 | no images: status "Erro: Nenhuma imagem encontrada", one "erro" webhook; no submit and no cleanup |
| Pipeline.SubmitOnlyWithImages | main.py:106-122 | the task is submitted iff the download wrote images, and that is the first call |
| Pipeline.UnexpectedOnlyFromTempDir | main.py:191-204 | the exception exit happens iff creating the scratch directory raised, and carries that message |
| Pipeline.StartedRun | main.py:114-125 | a task exists only with images, a converting resolution and a created task; the rest depends on the later stages |
| Pipeline.CompletedExactly | main.py:104-189 | a run succeeds iff every stage succeeds, including the acknowledged final update |
| Pipeline.CommitDecides | main.py:171-183 | after publishing, success iff the final update is acknowledged; both exits carry the upload's URL |
| Pipeline.FailedWaitStatus | main.py:127-135 | a failed wait carries the observed status, or FAILED when the wait raised |
| Pipeline.FailedWaitTrace | main.py:130-135 | the failure writes "Erro: {status}", sends "Processamento falhou: {status}", then cleans up |
| Pipeline.MetadataNonFatal | main.py:147-169 | the report or its upload failing never changes whether the run succeeds |
| Pipeline.MetadataWhenReported | main.py:147-153 | a publishing run has a report file iff the info and the file work; it is the file beside the mosaic |
| Pipeline.TaskIdWriteIgnored | main.py:124-128 | the outcome of the id_wl update never changes the course of the run |
| Pipeline.EarlierRunIrrelevant | handlers.py:359-369 | keys an earlier run wrote into the shared dict never change the course of a later run |
| Api.Accept | main.py:44-93 | unreadable body 500; no data or no id_projeto 400, with nothing inserted; a falsy record id 500; otherwise 202 and the job starts on the request |
| Api.MissingIdRefused | main.py:53-54 | a request without id_projeto gets 400 with the missing-field message |
| Api.AcceptedRequest | main.py:56-88 | an accepted request answers 202 with both ids, inserts "Processando" and starts the driver |
| Api.FailedInsertRefused | main.py:65-70 | an insert that raises or yields no id or an empty one gives 500 and no job |
| Api.SurveyDateRenamed | main.py:56-67 | the survey date is stored as data_voo, while the job's request keeps it under data_levantamento |

## Left out

- Api.Accept: models a body that is JSON `null` or an object of strings only. A non-string value, an array, a string or a number is left out. The route treats them differently: an object with a numeric `talhao` is accepted with 202; `[1]` or `"abc"` gets the missing-id 400 (`in` on a list or string); `5` gets 500, because `'id_projeto' in 5` raises (main.py:50-54, 89-93).
- The Flask app, `require_apikey`, server start-up and the thread (main.py:19-39, 75-80, 207-220) are left out. The handoff is the `Job` the route returns.
- All external clients are outcomes in `World` or in the handler models: Supabase, pyodm `Node`/`create_task`/`wait_for_completion`/`download_assets`, and `requests.post`. The poll loop inside `wait_for_completion` is not visible in the source. The interval, retry and timeout constants are only recorded.
- The insert's response-shape unwrapping (handlers.py:68-98) is one outcome: an id was found or not.
- File-system effects (writes, `copy2`, `rmtree`, `makedirs`, `listdir`) are outcomes. So is the bucket "folder" creation (handlers.py:239-258), whose failure is ignored.
- `limpar_arquivos_temporarios` appears only as the `Cleanup` call. Its return value is never read.
- Logging, the clock, the timezone object, and the host, system and interpreter lines of the report are left out. The timestamps are inputs.
- The webhook's database lookup of a stored URL is an outcome (`stored`). The driver never uses it, because its success call always passes a truthy URL.
- WebOdm.ToDecimal: treats every string as unconvertible. Python's `float` accepts numeric strings, but no preset holds a string resolution.
- WebOdm.IsImageFileName and Lower: lower-casing is ASCII only.
- Paths.Join and Paths.DirName: follow `posixpath` only (no Windows paths).
- Metadata.GenerateMetadata: the processing time is kept in milliseconds; the division by 1000 and its float are not modelled. The report is a record of what the text states, not the text.
- Pipeline.FollowTask: the mosaic upload is given an existing file. The results step has just copied it, so the missing-file branch of the upload cannot be taken here.
- The unused settings constants (settings.py:109-128, 136-139) and test_supabase.py are not modelled.

## Findings

| source | as written | input that shows it | evidently intended | confidence | as-written member | corrected member |
|---|---|---|---|---|---|---|
| handlers.py:500 | the report reads the survey date from the key `data_voo` | the request {"id_projeto": "p1", "data_levantamento": "2024-05-01"}, which is what main.py:60 expects | read `data_levantamento`, the key the request carries, so the date line appears | medium, not executed | Metadata.AttributeLinesAsWritten | Metadata.AttributeLines |

`Metadata.GenerateMetadata`, and through it the driver, builds the report
as the program does, with `AttributeLinesAsWritten`. The corrected block
`AttributeLines` is proved to report each field iff the request carries
it non-empty (`Metadata.AttributeReported`), and `Metadata.SurveyDateDroppedAsWritten`
shows the two differ on the input above.
