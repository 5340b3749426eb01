/**
 * `ZipService` of the newer snapshot: the backup archive's layout. Every export document
 * is a JSON entry under a fixed name; every asset's binary sits at
 * `files/<first three characters of its id>/<id>/<file name>`, and the reader looks the
 * binary up under exactly that path.
 *
 * The archive is the map from entry paths to contents that JSZip keeps (`zip.files`); the
 * downloads of asset binaries are a parameter, the map from (fixed) URL to bytes.
 */
module ZipService {
  import opened Wrappers
  import opened Json
  import opened CoreModels
  import opened GlobalHelper

  newtype Byte = b: int | 0 <= b < 256

  /** An archive entry: a JSON document, or binary data. */
  datatype Entry = JsonEntry(doc: Json) | BinaryEntry(data: seq<Byte>)

  type Files = map<string, Entry>

  datatype OutputType = NodeBuffer | Blob

  /** `IZipServiceConfig`: the running context, and the optional delay between downloads. */
  datatype ZipConfig = ZipConfig(context: string, delayBetweenAssetDownloadRequestsMs: Option<nat>)

  const ContentTypesName := "contentTypes.json"
  const ContentItemsName := "contentItems.json"
  const TaxonomiesName := "taxonomies.json"
  const AssetsName := "assets.json"
  const LanguageVariantsName := "languageVariants.json"
  const ContentTypeSnippetsName := "contentTypesSnippets.json"
  const MetadataName := "metadata.json"
  const LanguagesName := "languages.json"
  const FilesName := "files"
  const AssetFoldersName := "assetFolders.json"
  const WorkflowStepsName := "workflowSteps.json"
  const ValidationName := "validation.json"

  /** The delay the constructor settles on: the configured one, 150 ms when none is configured. */
  function DelayBetweenAssetRequestsMs(config: ZipConfig): (r: nat)
    ensures config.delayBetweenAssetDownloadRequestsMs.Some? ==> r == config.delayBetweenAssetDownloadRequestsMs.value
    ensures config.delayBetweenAssetDownloadRequestsMs.None? ==> r == 150
  {
    if config.delayBetweenAssetDownloadRequestsMs.Some? then config.delayBetweenAssetDownloadRequestsMs.value else 150
  }

  /** `getZipOutputType`: a blob in the browser, a buffer under node.js, an error anywhere else. */
  function GetZipOutputType(config: ZipConfig): (r: Result<OutputType, string>)
    ensures r == Ok(Blob) <==> config.context == "browser"
    ensures r == Ok(NodeBuffer) <==> config.context == "node.js"
    ensures r.Fail? ==> r.error == "Unsupported context '" + config.context + "'"
  {
    if config.context == "browser" then Ok(Blob)
    else if config.context == "node.js" then Ok(NodeBuffer)
    else Fail("Unsupported context '" + config.context + "'")
  }

  // ---------------------------------------------------------------- asset paths

  /** `id.substr(0, 3)`. */
  function ShortId(id: string): (r: string)
    ensures r == id[..if |id| < 3 then |id| else 3]
  {
    if |id| < 3 then id else id[..3]
  }

  /** `getFullAssetPath`: the template `files/${shortId}/${id}/${filename}`, the four parts joined by `/`. */
  function GetFullAssetPath(assetId: string, filename: string): string {
    Join([FilesName, ShortId(assetId), assetId, filename], "/")
  }

  lemma FullAssetPathSpelled(assetId: string, filename: string)
    ensures GetFullAssetPath(assetId, filename) == FilesName + "/" + ShortId(assetId) + "/" + assetId + "/" + filename
  {
    var p3 := [assetId, filename];
    assert p3[1..] == [filename];
    assert Join(p3, "/") == assetId + "/" + filename;
    var p2 := [ShortId(assetId), assetId, filename];
    assert p2[1..] == p3;
    assert Join(p2, "/") == ShortId(assetId) + "/" + (assetId + "/" + filename);
    var parts := [FilesName, ShortId(assetId), assetId, filename];
    assert parts[1..] == p2;
  }

  /** In `a + "/" + b` with no slash in `a`, the first slash sits right after `a`. */
  lemma FirstSlash(a: string, b: string)
    requires '/' !in a
    ensures (a + "/" + b)[|a|] == '/'
    ensures forall i :: 0 <= i < |a| ==> (a + "/" + b)[i] != '/'
  {
  }

  /** Two strings cut at their first slash agree when the wholes agree. */
  lemma SplitAtSlash(a1: string, b1: string, a2: string, b2: string)
    requires '/' !in a1 && '/' !in a2
    requires a1 + "/" + b1 == a2 + "/" + b2
    ensures a1 == a2 && b1 == b2
  {
    var s := a1 + "/" + b1;
    FirstSlash(a1, b1);
    FirstSlash(a2, b2);
    assert a1 == s[..|a1|] == a2;
    assert b1 == s[|a1| + 1..] == b2;
  }

  /** For ids without a slash, the path tells the asset's id and file name apart from every other's. */
  lemma FullAssetPathInjective(id1: string, f1: string, id2: string, f2: string)
    requires '/' !in id1 && '/' !in id2
    requires GetFullAssetPath(id1, f1) == GetFullAssetPath(id2, f2)
    ensures id1 == id2 && f1 == f2
  {
    FullAssetPathSpelled(id1, f1);
    FullAssetPathSpelled(id2, f2);
    var p1, p2 := ShortId(id1), ShortId(id2);
    assert '/' !in p1 && '/' !in p2;
    var s1 := p1 + "/" + (id1 + "/" + f1);
    var s2 := p2 + "/" + (id2 + "/" + f2);
    assert GetFullAssetPath(id1, f1) == FilesName + "/" + s1;
    assert GetFullAssetPath(id2, f2) == FilesName + "/" + s2;
    assert s1 == GetFullAssetPath(id1, f1)[6..];
    SplitAtSlash(p1, id1 + "/" + f1, p2, id2 + "/" + f2);
    SplitAtSlash(id1, f1, id2, f2);
  }

  /** Asset paths lie in the `files` folder and never coincide with a document's name. */
  lemma AssetPathNotDocument(id: string, f: string, name: string)
    requires name in DocumentNames
    ensures GetFullAssetPath(id, f) != name
  {
    var p := GetFullAssetPath(id, f);
    FullAssetPathSpelled(id, f);
    assert p[0] == 'f';
    assert name[0] != 'f';
  }

  // ---------------------------------------------------------------- createZipAsync

  /** `IExportAllResult`: the exported documents (`data.*`, `validation`, `metadata`). */
  datatype ExportAllResult = ExportAllResult(
    contentTypes: Json, validation: Json, contentItems: Json, taxonomies: Json, assets: seq<Json>,
    languageVariants: Json, metadata: Json, languages: Json, contentTypeSnippets: Json,
    assetFolders: Json, workflowSteps: Json)

  const DocumentNames: set<string> := {
    ContentTypesName, ValidationName, ContentItemsName, TaxonomiesName, AssetsName,
    LanguageVariantsName, MetadataName, LanguagesName, ContentTypeSnippetsName,
    AssetFoldersName, WorkflowStepsName }

  /** The document entries the writer adds first. */
  function DocumentEntries(e: ExportAllResult): (r: Files)
    ensures r.Keys == DocumentNames
  {
    map[ContentTypesName := JsonEntry(e.contentTypes),
        ValidationName := JsonEntry(e.validation),
        ContentItemsName := JsonEntry(e.contentItems),
        TaxonomiesName := JsonEntry(e.taxonomies),
        AssetsName := JsonEntry(JArr(e.assets)),
        LanguageVariantsName := JsonEntry(e.languageVariants),
        MetadataName := JsonEntry(e.metadata),
        LanguagesName := JsonEntry(e.languages),
        ContentTypeSnippetsName := JsonEntry(e.contentTypeSnippets),
        AssetFoldersName := JsonEntry(e.assetFolders),
        WorkflowStepsName := JsonEntry(e.workflowSteps)]
  }

  /** An asset contract with the string fields the archive uses. */
  predicate AssetShape(a: Json) {
    StrField(a, "id").Some? && StrField(a, "file_name").Some? && StrField(a, "url").Some?
  }

  function AssetPath(a: Json): string
    requires AssetShape(a)
  {
    GetFullAssetPath(StrField(a, "id").value, StrField(a, "file_name").value)
  }

  /** `url.replace('#', '%23')`: only the first `#` is encoded. */
  function FixUrl(url: string): (r: string)
    ensures '#' !in url ==> r == url
  {
    if |url| == 0 then ""
    else if url[0] == '#' then "%23" + url[1..]
    else [url[0]] + FixUrl(url[1..])
  }

  /** A second `#` survives the fix, because `replace` with a string pattern replaces once. */
  lemma FixUrlOnce()
    ensures FixUrl("a#b#c") == "a%23b#c"
  {
    assert FixUrl("#c") == "%23c";
    assert FixUrl("b#c") == "b%23c";
  }

  function DownloadUrl(a: Json): string
    requires AssetShape(a)
  {
    FixUrl(StrField(a, "url").value)
  }

  predicate Shaped(assets: seq<Json>) {
    forall i :: 0 <= i < |assets| ==> AssetShape(assets[i])
  }

  /** The first `n` assets could be downloaded. */
  predicate Downloaded(assets: seq<Json>, downloads: map<string, seq<Byte>>, n: nat)
    requires Shaped(assets) && n <= |assets|
  {
    forall i :: 0 <= i < n ==> DownloadUrl(assets[i]) in downloads
  }

  /** `base` with the binaries of the first `n` assets added in order: a later asset with the same path overwrites. */
  function AddAssets(base: Files, assets: seq<Json>, downloads: map<string, seq<Byte>>, n: nat): Files
    requires Shaped(assets) && n <= |assets| && Downloaded(assets, downloads, n)
  {
    if n == 0 then base
    else
      var a := assets[n - 1];
      AddAssets(base, assets, downloads, n - 1)[AssetPath(a) := BinaryEntry(downloads[DownloadUrl(a)])]
  }

  /**
   * `createZipAsync`: the documents, then each asset's downloaded binary at its path; the
   * download of an asset that fails aborts, and so does an unsupported context, when the
   * archive is generated at the end.
   */
  method CreateZipAsync(config: ZipConfig, e: ExportAllResult, downloads: map<string, seq<Byte>>)
    returns (r: Result<Files, string>)
    requires Shaped(e.assets)
    ensures r.Ok? <==> Downloaded(e.assets, downloads, |e.assets|) && GetZipOutputType(config).Ok?
    ensures r.Ok? ==> (Downloaded(e.assets, downloads, |e.assets|)
      && r.value == AddAssets(DocumentEntries(e), e.assets, downloads, |e.assets|))
  {
    var files :- AddDownloadedAssets(DocumentEntries(e), e.assets, downloads);
    var outputType := GetZipOutputType(config);
    if outputType.Fail? {
      return Fail(outputType.error);
    }
    r := Ok(files);
  }

  /** The asset loop of `createZipAsync`: each binary is downloaded and written at the asset's path, in order. */
  method AddDownloadedAssets(base: Files, assets: seq<Json>, downloads: map<string, seq<Byte>>)
    returns (r: Result<Files, string>)
    requires Shaped(assets)
    ensures r.Ok? <==> Downloaded(assets, downloads, |assets|)
    ensures r.Ok? ==> (Downloaded(assets, downloads, |assets|)
      && r.value == AddAssets(base, assets, downloads, |assets|))
  {
    var files := base;
    var i := 0;
    while i < |assets|
      invariant i <= |assets| && Downloaded(assets, downloads, i)
      invariant files == AddAssets(base, assets, downloads, i)
    {
      var asset := assets[i];
      var url := DownloadUrl(asset);
      if url !in downloads {
        NotDownloaded(assets, downloads, i);
        return Fail("Failed to download '" + url + "'");
      }
      AddAssetsStep(base, assets, downloads, i);
      files := files[AssetPath(asset) := BinaryEntry(downloads[url])];
      i := i + 1;
    }
    r := Ok(files);
  }

  /** One more downloaded asset: one more entry, written last. */
  lemma AddAssetsStep(base: Files, assets: seq<Json>, downloads: map<string, seq<Byte>>, i: nat)
    requires Shaped(assets) && i < |assets| && Downloaded(assets, downloads, i)
    requires DownloadUrl(assets[i]) in downloads
    ensures Downloaded(assets, downloads, i + 1)
    ensures AddAssets(base, assets, downloads, i + 1)
      == AddAssets(base, assets, downloads, i)[AssetPath(assets[i]) := BinaryEntry(downloads[DownloadUrl(assets[i])])]
  {
  }

  /** An asset whose download is missing leaves the whole list not downloaded. */
  lemma NotDownloaded(assets: seq<Json>, downloads: map<string, seq<Byte>>, i: nat)
    requires Shaped(assets) && i < |assets| && DownloadUrl(assets[i]) !in downloads
    ensures !Downloaded(assets, downloads, |assets|)
  {
  }

  /** An asset that no later asset shares a path with keeps its own binary. */
  lemma {:induction false} AddAssetsAt(base: Files, assets: seq<Json>, downloads: map<string, seq<Byte>>, n: nat, k: nat)
    requires Shaped(assets) && n <= |assets| && Downloaded(assets, downloads, n) && k < n
    requires forall j :: k < j < n ==> AssetPath(assets[j]) != AssetPath(assets[k])
    ensures AssetPath(assets[k]) in AddAssets(base, assets, downloads, n)
    ensures AddAssets(base, assets, downloads, n)[AssetPath(assets[k])] == BinaryEntry(downloads[DownloadUrl(assets[k])])
  {
    if k < n - 1 {
      AddAssetsAt(base, assets, downloads, n - 1, k);
    }
  }

  /** A path no asset has keeps what `base` holds there. */
  lemma {:induction false} AddAssetsElsewhere(base: Files, assets: seq<Json>, downloads: map<string, seq<Byte>>, n: nat, p: string)
    requires Shaped(assets) && n <= |assets| && Downloaded(assets, downloads, n)
    requires forall k :: 0 <= k < n ==> AssetPath(assets[k]) != p
    ensures p in AddAssets(base, assets, downloads, n) <==> p in base
    ensures p in base ==> AddAssets(base, assets, downloads, n)[p] == base[p]
  {
    if n > 0 {
      AddAssetsElsewhere(base, assets, downloads, n - 1, p);
    }
  }

  /**
   * What the writer leaves in the archive: every document under its name, and every asset's
   * binary under its path whenever no two assets share a path.
   */
  lemma WrittenArchive(e: ExportAllResult, downloads: map<string, seq<Byte>>, name: string, k: nat)
    requires Shaped(e.assets) && Downloaded(e.assets, downloads, |e.assets|)
    requires forall i, j :: 0 <= i < j < |e.assets| ==> AssetPath(e.assets[i]) != AssetPath(e.assets[j])
    requires name in DocumentNames && k < |e.assets|
    ensures name in AddAssets(DocumentEntries(e), e.assets, downloads, |e.assets|)
    ensures AddAssets(DocumentEntries(e), e.assets, downloads, |e.assets|)[name] == DocumentEntries(e)[name]
    ensures AssetPath(e.assets[k]) in AddAssets(DocumentEntries(e), e.assets, downloads, |e.assets|)
    ensures AddAssets(DocumentEntries(e), e.assets, downloads, |e.assets|)[AssetPath(e.assets[k])]
      == BinaryEntry(downloads[DownloadUrl(e.assets[k])])
  {
    forall j | 0 <= j < |e.assets| ensures AssetPath(e.assets[j]) != name {
      AssetPathNotDocument(StrField(e.assets[j], "id").value, StrField(e.assets[j], "file_name").value, name);
    }
    AddAssetsElsewhere(DocumentEntries(e), e.assets, downloads, |e.assets|, name);
    AddAssetsAt(DocumentEntries(e), e.assets, downloads, |e.assets|, k);
  }

  // ---------------------------------------------------------------- reading the archive

  /** `readAndParseJsonFile`: a missing entry is an error; a document entry gives its value. */
  function ReadAndParseJsonFile(files: Files, filename: string): (r: Result<Json, string>)
    ensures filename !in files ==> r == Fail("Invalid file '" + filename + "'")
    ensures r.Ok? <==> filename in files && files[filename].JsonEntry?
    ensures r.Ok? ==> r.value == files[filename].doc
  {
    if filename !in files then Fail("Invalid file '" + filename + "'")
    else if files[filename].BinaryEntry? then Fail("Unexpected token in JSON")
    else Ok(files[filename].doc)
  }

  /** `IBinaryFile`. */
  datatype BinaryFile = Binary(asset: Json, binaryData: Entry)

  /**
   * `extractBinaryFilesAsync`: one binary file per asset, in asset order, read from the
   * asset's path; a missing entry fails (`undefined.async`), and so does an unsupported
   * context, which is checked for each entry read.
   */
  method ExtractBinaryFilesAsync(config: ZipConfig, files: Files, assets: seq<Json>)
    returns (r: Result<seq<BinaryFile>, string>)
    requires Shaped(assets)
    ensures r.Ok? <==> ((forall i :: 0 <= i < |assets| ==> AssetPath(assets[i]) in files)
      && (|assets| == 0 || GetZipOutputType(config).Ok?))
    ensures r.Ok? ==> |r.value| == |assets| && forall i :: 0 <= i < |assets| ==>
      AssetPath(assets[i]) in files && r.value[i] == Binary(assets[i], files[AssetPath(assets[i])])
  {
    var binaryFiles: seq<BinaryFile> := [];
    var i := 0;
    while i < |assets|
      invariant i <= |assets| && |binaryFiles| == i
      invariant forall j :: 0 <= j < i ==> AssetPath(assets[j]) in files
      invariant i > 0 ==> GetZipOutputType(config).Ok?
      invariant forall j :: 0 <= j < i ==> binaryFiles[j] == Binary(assets[j], files[AssetPath(assets[j])])
    {
      var path := AssetPath(assets[i]);
      if path !in files {
        return Fail("Cannot read properties of undefined (reading 'async')");
      }
      var outputType := GetZipOutputType(config);
      if outputType.Fail? {
        return Fail(outputType.error);
      }
      binaryFiles := binaryFiles + [Binary(assets[i], files[path])];
      i := i + 1;
    }
    r := Ok(binaryFiles);
  }

  /** `IImportSource` as the newer reader builds it. */
  datatype ImportSource = ImportSource(
    assets: Json, contentTypes: Json, languageVariants: Json, languages: Json, contentItems: Json,
    contentTypeSnippets: Json, taxonomies: Json, workflowSteps: Json,
    assetFolders: Json, binaryFiles: seq<BinaryFile>, validation: Json, metadata: Json)

  /** The document read under `name`, when it is there. */
  predicate Has(files: Files, name: string) {
    name in files && files[name].JsonEntry?
  }

  predicate AllDocuments(files: Files) {
    && Has(files, AssetsName) && Has(files, ContentTypesName) && Has(files, LanguageVariantsName)
    && Has(files, LanguagesName) && Has(files, ContentItemsName) && Has(files, ContentTypeSnippetsName)
    && Has(files, TaxonomiesName) && Has(files, WorkflowStepsName) && Has(files, AssetFoldersName)
    && Has(files, ValidationName) && Has(files, MetadataName)
  }

  /**
   * `extractZipAsync`: reads assets, the other documents in a fixed order (the workflow
   * steps under `workflowSteps`), then the binaries of the listed assets, then validation and
   * metadata. Any failed read aborts.
   */
  method ExtractZipAsync(config: ZipConfig, files: Files) returns (r: Result<ImportSource, string>)
    ensures r.Ok? ==> AllDocuments(files)
    ensures r.Ok? ==> (AllDocuments(files) && r.value.assets == files[AssetsName].doc
      && r.value.contentTypes == files[ContentTypesName].doc
      && r.value.languageVariants == files[LanguageVariantsName].doc
      && r.value.languages == files[LanguagesName].doc
      && r.value.contentItems == files[ContentItemsName].doc
      && r.value.contentTypeSnippets == files[ContentTypeSnippetsName].doc
      && r.value.taxonomies == files[TaxonomiesName].doc
      && r.value.workflowSteps == files[WorkflowStepsName].doc
      && r.value.assetFolders == files[AssetFoldersName].doc
      && r.value.validation == files[ValidationName].doc
      && r.value.metadata == files[MetadataName].doc)
    ensures r.Ok? ==> (r.value.assets.JArr? && |r.value.binaryFiles| == |r.value.assets.items|
      && forall i :: 0 <= i < |r.value.assets.items| ==> (AssetShape(r.value.assets.items[i])
        && AssetPath(r.value.assets.items[i]) in files
        && r.value.binaryFiles[i] == Binary(r.value.assets.items[i], files[AssetPath(r.value.assets.items[i])])))
    ensures AllDocuments(files)
      && files[AssetsName].doc.JArr?
      && (forall i :: 0 <= i < |files[AssetsName].doc.items| ==>
            AssetShape(files[AssetsName].doc.items[i]) && AssetPath(files[AssetsName].doc.items[i]) in files)
      && (|files[AssetsName].doc.items| == 0 || GetZipOutputType(config).Ok?)
      ==> r.Ok?
  {
    var assets :- ReadAndParseJsonFile(files, AssetsName);
    var contentTypes :- ReadAndParseJsonFile(files, ContentTypesName);
    var languageVariants :- ReadAndParseJsonFile(files, LanguageVariantsName);
    var languages :- ReadAndParseJsonFile(files, LanguagesName);
    var contentItems :- ReadAndParseJsonFile(files, ContentItemsName);
    var contentTypeSnippets :- ReadAndParseJsonFile(files, ContentTypeSnippetsName);
    var taxonomies :- ReadAndParseJsonFile(files, TaxonomiesName);
    var workflowSteps :- ReadAndParseJsonFile(files, WorkflowStepsName);
    var assetFolders :- ReadAndParseJsonFile(files, AssetFoldersName);
    if !assets.JArr? || !Shaped(assets.items) {
      return Fail("assets is not a list of asset contracts");
    }
    var binaryFiles :- ExtractBinaryFilesAsync(config, files, assets.items);
    var validation :- ReadAndParseJsonFile(files, ValidationName);
    var metadata :- ReadAndParseJsonFile(files, MetadataName);
    r := Ok(ImportSource(assets, contentTypes, languageVariants, languages, contentItems,
      contentTypeSnippets, taxonomies, workflowSteps, assetFolders, binaryFiles, validation, metadata));
  }
}
