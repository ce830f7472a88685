/** The object-storage façade of handlers.py: downloading a project's images
    from the `uploads` bucket into the scratch directory, and uploading the
    mosaic and the metadata file to the `Ortomosaicos` bucket. The storage
    client is replaced by outcomes supplied by the caller. */
module Storage {

  import opened Common
  import opened Paths
  import Config
  import Settings

  /** The extension list written out in handlers.py, used when the option
      bundle has no `SUPPORTED_IMAGE_EXTENSIONS` entry. */
  const FallbackExtensions: seq<string> := [".jpg", ".jpeg", ".tif", ".tiff", ".png"]

  const ExtensionsKey := "SUPPORTED_IMAGE_EXTENSIONS"

  lemma FallbackIsSettingsList()
    ensures FallbackExtensions == Settings.SupportedImageExtensions
  {
  }

  /** `options.get("SUPPORTED_IMAGE_EXTENSIONS", [...])`. */
  function ConfiguredExtensions(options: Settings.Preset): (v: Settings.OptValue)
    ensures ExtensionsKey !in options ==> v == Settings.StrList(FallbackExtensions)
  {
    if ExtensionsKey in options then options[ExtensionsKey] else Settings.StrList(FallbackExtensions)
  }

  /** A value Python's `in` can search: a list or a string (anything else
      raises TypeError). */
  predicate Searchable(v: Settings.OptValue)
  {
    v.StrList? || v.Str?
  }

  predicate IsSubstring(e: string, s: string)
  {
    exists i :: 0 <= i <= |s| && StartsWith(s[i..], e)
  }

  /** `os.path.splitext(name)[1].lower() in extensions`. */
  predicate IsSupported(extensions: Settings.OptValue, name: string)
    requires Searchable(extensions)
  {
    var e := Lower(Ext(name));
    if extensions.StrList? then e in extensions.items else IsSubstring(e, extensions.s)
  }

  /** One object of the bucket listing, and whether downloading it works. */
  datatype StoredFile = StoredFile(name: string, downloadOk: bool)

  /** What the storage client does when the project folder is listed. */
  datatype ListOutcome = ClientRaised | ListRaised | Listed(files: seq<StoredFile>)

  /** `valid_files`: the listed objects whose extension is supported, in
      listing order. */
  function ValidFiles(extensions: Settings.OptValue, files: seq<StoredFile>): (r: seq<StoredFile>)
    requires Searchable(extensions)
    ensures |r| <= |files|
  {
    if files == [] then []
    else
      var last := files[|files| - 1];
      ValidFiles(extensions, files[..|files| - 1]) + (if IsSupported(extensions, last.name) then [last] else [])
  }

  /** The names of the files whose download succeeded, in order. */
  function DownloadedNames(files: seq<StoredFile>): (r: seq<string>)
    ensures |r| <= |files|
  {
    if files == [] then []
    else
      var last := files[|files| - 1];
      DownloadedNames(files[..|files| - 1]) + (if last.downloadOk then [last.name] else [])
  }

  /** The valid files are exactly the listed ones with a supported
      extension. */
  lemma {:induction false} ValidFilesExactly(extensions: Settings.OptValue, files: seq<StoredFile>, f: StoredFile)
    requires Searchable(extensions)
    ensures f in ValidFiles(extensions, files) <==> f in files && IsSupported(extensions, f.name)
    decreases |files|
  {
    if files != [] {
      var init := files[..|files| - 1];
      ValidFilesExactly(extensions, init, f);
      assert files == init + [files[|files| - 1]];
    }
  }

  /** A name is written exactly when some file of that name downloads. */
  lemma {:induction false} DownloadedNamesExactly(files: seq<StoredFile>, n: string)
    ensures n in DownloadedNames(files) <==> exists f :: f in files && f.downloadOk && f.name == n
    decreases |files|
  {
    if files != [] {
      var init := files[..|files| - 1];
      var last := files[|files| - 1];
      DownloadedNamesExactly(init, n);
      assert files == init + [last];
      assert forall f :: f in files <==> f in init || f == last;
    }
  }

  /** The names `baixar_imagens_projeto` writes into the scratch directory
      when nothing raises before its loop. */
  function ListedImages(options: Settings.Preset, listing: ListOutcome): (r: seq<string>)
  {
    var extensions := ConfiguredExtensions(options);
    if listing.Listed? && listing.files != [] && Searchable(extensions)
    then DownloadedNames(ValidFiles(extensions, listing.files))
    else []
  }

  /** The result of `baixar_imagens_projeto`: the directory and the count it
      returns, with the names it wrote; or the exception that escapes it. */
  datatype DownloadResult = Downloaded(dir: string, count: nat, names: seq<string>) | Escaped(message: string)

  /** `baixar_imagens_projeto`. `tempDirError` is the error that creating the
      scratch directory raises, if any; the call in the `except` branch is
      outside every `try`, so that error escapes to the caller. */
  method DownloadImages(c: Config.Config, projectId: string, options: Settings.Preset,
                        tempDirError: Option<string>, listing: ListOutcome)
    returns (r: DownloadResult)
    ensures tempDirError.Some? ==> r == Escaped(tempDirError.value)
    ensures tempDirError.None? ==> r.Downloaded? && r.dir == Config.ProjectTempDir(c, projectId)
    ensures r.Downloaded? ==> r.count == |r.names| && r.names == ListedImages(options, listing)
    ensures r.Downloaded? && (listing.ClientRaised? || listing.ListRaised? || listing == Listed([])) ==> r.count == 0
    ensures r.Downloaded? && listing.Listed? && Searchable(ConfiguredExtensions(options)) ==>
              r.count <= |ValidFiles(ConfiguredExtensions(options), listing.files)|
  {
    if tempDirError.Some? {
      return Escaped(tempDirError.value);
    }
    var dir := Config.ProjectTempDir(c, projectId);
    if !listing.Listed? || listing.files == [] {
      return Downloaded(dir, 0, []);
    }
    var extensions := ConfiguredExtensions(options);
    if !Searchable(extensions) {
      // the membership test raises TypeError, which the handler catches
      return Downloaded(dir, 0, []);
    }
    var valid := ValidFiles(extensions, listing.files);
    var counter, names := DownloadEach(valid);
    return Downloaded(dir, counter, names);
  }

  /** The download loop of `baixar_imagens_projeto`: the counter goes up once
      per file whose download succeeds; failed downloads are skipped. */
  method DownloadEach(valid: seq<StoredFile>) returns (counter: nat, names: seq<string>)
    ensures names == DownloadedNames(valid)
    ensures counter == |names| <= |valid|
  {
    counter, names := 0, [];
    var i := 0;
    while i < |valid|
      invariant 0 <= i <= |valid|
      invariant names == DownloadedNames(valid[..i])
      invariant counter == |names| <= i
    {
      if valid[i].downloadOk {
        names := names + [valid[i].name];
        counter := counter + 1;
      }
      assert valid[..i + 1][..i] == valid[..i];
      i := i + 1;
    }
    assert valid[..i] == valid;
  }

  /** With the default extension list, every downloaded name has a
      supported extension: a dot followed by one of the five, in any case. */
  lemma DownloadedNamesAreImages(files: seq<StoredFile>, n: string)
    requires n in DownloadedNames(ValidFiles(Settings.StrList(FallbackExtensions), files))
    ensures Lower(Ext(n)) in FallbackExtensions
  {
    DownloadedNamesExactly(ValidFiles(Settings.StrList(FallbackExtensions), files), n);
    var f :| f in ValidFiles(Settings.StrList(FallbackExtensions), files) && f.downloadOk && f.name == n;
    ValidFilesExactly(Settings.StrList(FallbackExtensions), files, f);
  }

  /** Outcome of one upload call on the `Ortomosaicos` bucket. */
  datatype UploadOutcome = UploadClientRaised | UploadRaised | Uploaded(publicUrl: string)

  /** What an upload handler did: the bucket path it sent the file to (if
      it got that far), the public URL it returned and its flag. */
  datatype UploadResult = UploadResult(sentTo: Option<string>, url: Option<string>, ok: bool)

  const MosaicObjectName := "odm_ortophoto.tif"
  const MetadataObjectName := "metadados.txt"

  function MosaicBucketPath(projectId: string): string
  {
    projectId + "/" + MosaicObjectName
  }

  function MetadataBucketPath(projectId: string): string
  {
    projectId + "/" + MetadataObjectName
  }

  /** `enviar_ortomosaico_para_bucket`: a missing local file fails before
      any upload; success returns the public URL of `{id}/odm_ortophoto.tif`. */
  function UploadMosaic(projectId: string, localExists: bool, up: UploadOutcome): (r: UploadResult)
    ensures r.ok <==> localExists && up.Uploaded?
    ensures r.ok ==> r.url == Some(up.publicUrl)
    ensures !r.ok ==> r.url.None?
    ensures r.sentTo.Some? <==> localExists && !up.UploadClientRaised?
    ensures r.sentTo.Some? ==> r.sentTo.value == MosaicBucketPath(projectId)
  {
    if up.UploadClientRaised? || !localExists then UploadResult(None, None, false)
    else if up.UploadRaised? then UploadResult(Some(MosaicBucketPath(projectId)), None, false)
    else UploadResult(Some(MosaicBucketPath(projectId)), Some(up.publicUrl), true)
  }

  /** `enviar_metadados_para_bucket`: the same guard, the object
      `{id}/metadados.txt`, and only a flag as result. */
  function UploadMetadata(projectId: string, localExists: bool, up: UploadOutcome): (r: UploadResult)
    ensures r.ok <==> localExists && up.Uploaded?
    ensures r.url.None?
    ensures r.sentTo.Some? <==> localExists && !up.UploadClientRaised?
    ensures r.sentTo.Some? ==> r.sentTo.value == MetadataBucketPath(projectId)
  {
    if up.UploadClientRaised? || !localExists then UploadResult(None, None, false)
    else UploadResult(Some(MetadataBucketPath(projectId)), None, up.Uploaded?)
  }

  /** The two objects of one project never overwrite each other, and the
      mosaic object is not named like the ODM output file. */
  lemma BucketPathsDistinct(projectId: string)
    ensures MosaicBucketPath(projectId) != MetadataBucketPath(projectId)
    ensures MosaicObjectName != "odm_orthophoto.tif"
  {
    var n := |projectId| + 1;
    assert MosaicBucketPath(projectId)[n..] == MosaicObjectName;
    assert MetadataBucketPath(projectId)[n..] == MetadataObjectName;
    assert |MosaicObjectName| == 17 && |"odm_orthophoto.tif"| == 18;
  }

  /** Objects of different projects never collide. */
  lemma MosaicBucketPathInjective(id1: string, id2: string)
    requires MosaicBucketPath(id1) == MosaicBucketPath(id2)
    ensures id1 == id2
  {
    assert |id1| == |id2|;
    assert id1 == MosaicBucketPath(id1)[..|id1|];
  }
}
