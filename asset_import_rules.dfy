/**
 * The asset rules of the import services: which binary file an asset is uploaded from,
 * the size ceiling of the newer service, and `getAddAssetModel`, the data an asset is
 * created with (the same in both services).
 */
module AssetImportRules {
  import opened Wrappers
  import opened Json
  import opened CoreModels
  import opened ImportModels
  import opened IdTranslateHelper
  import opened ZipService

  /** `maxAllowedAssetSizeInBytes`: `1e8`, 100 MB. */
  const MaxAllowedAssetSizeInBytes := 100_000_000

  /** `binaryFiles.find((m) => m.asset.id === asset.id)`. */
  function FindBinaryFile(files: seq<BinaryFile>, asset: Json): (r: Option<BinaryFile>)
    ensures r.None? <==> forall i :: 0 <= i < |files| ==> Field(files[i].asset, "id") != Field(asset, "id")
    ensures r.Some? ==> exists i :: (0 <= i < |files| && files[i] == r.value
      && Field(files[i].asset, "id") == Field(asset, "id")
      && forall j :: 0 <= j < i ==> Field(files[j].asset, "id") != Field(asset, "id"))
  {
    if |files| == 0 then None
    else if Field(files[0].asset, "id") == Field(asset, "id") then Some(files[0])
    else
      var r := FindBinaryFile(files[1..], asset);
      assert forall i :: 0 <= i < |files| - 1 ==> files[1..][i] == files[i + 1];
      if r.Some? then
        var i :| (0 <= i < |files| - 1 && files[1..][i] == r.value
          && Field(files[1..][i].asset, "id") == Field(asset, "id")
          && forall j :: 0 <= j < i ==> Field(files[1..][j].asset, "id") != Field(asset, "id"));
        assert forall j :: 0 <= j < i + 1 ==> Field(files[j].asset, "id") != Field(asset, "id");
        r
      else r
  }

  /** `binaryFile.asset.size >= maxAllowedAssetSizeInBytes`, for a numeric size. */
  predicate TooLarge(file: BinaryFile) {
    match Field(file.asset, "size")
    case Some(JNum(n)) => n >= MaxAllowedAssetSizeInBytes
    case _ => false
  }

  /** What the newer service uploads for an asset, and whether it reports the binary file as unsupported. */
  datatype Upload = Upload(file: BinaryFile, data: Entry, unsupported: bool)

  /**
   * The binary part of `importAssetsAsync` in the newer service: an asset without a binary
   * file is refused; a file at or over the ceiling is reported as unsupported and uploaded
   * empty, so that the asset is still created; any other file is uploaded as it is.
   */
  function BinaryToUpload(files: seq<BinaryFile>, asset: Json): (r: Result<Upload, ImportError>)
    ensures r.Fail? <==> FindBinaryFile(files, asset).None?
    ensures r.Fail? ==> r.error == MissingBinaryFile(Field(asset, "id"))
    ensures r.Ok? ==> r.value.file == FindBinaryFile(files, asset).value
    ensures r.Ok? ==> (r.value.unsupported <==> TooLarge(r.value.file))
    ensures r.Ok? && r.value.unsupported ==> r.value.data == BinaryEntry([])
    ensures r.Ok? && !r.value.unsupported ==> r.value.data == r.value.file.binaryData
  {
    match FindBinaryFile(files, asset)
    case None => Fail(MissingBinaryFile(Field(asset, "id")))
    case Some(file) =>
      if TooLarge(file) then Ok(Upload(file, BinaryEntry([]), true))
      else Ok(Upload(file, file.binaryData, false))
  }

  /** The binary part of `importAssetsAsync` in the older service: there is no ceiling. */
  function SrcBinaryToUpload(files: seq<BinaryFile>, asset: Json): (r: Result<Entry, ImportError>)
    ensures r.Fail? <==> FindBinaryFile(files, asset).None?
    ensures r.Fail? ==> r.error == MissingBinaryFile(Field(asset, "id"))
    ensures r.Ok? ==> r.value == FindBinaryFile(files, asset).value.binaryData
  {
    match FindBinaryFile(files, asset)
    case None => Fail(MissingBinaryFile(Field(asset, "id")))
    case Some(file) => Ok(file.binaryData)
  }

  // ---------------------------------------------------------------- getAddAssetModel

  /** A property of an object literal: one whose value is `undefined` is not sent. */
  function Present(k: string, v: Option<Json>): (r: Fields)
    ensures Lookup(r, k) == v
    ensures forall k' :: k' != k ==> Lookup(r, k') == None
  {
    if v.Some? then [(k, v.value)] else []
  }

  /** The properties `getAddAssetModel` copies from the asset contract as they are. */
  predicate Copied(k: string) {
    k == "descriptions" || k == "external_id" || k == "folder" || k == "title"
  }

  /** The file reference of the new asset: the uploaded file's id and the contract's reference type. */
  function FileReference(fileReference: Json, binaryFileId: string): Json {
    JObj([("id", JStr(binaryFileId))] + Present("type", Field(fileReference, "type")))
  }

  /** The object literal `getAddAssetModel` builds, before the ids in it are translated. */
  function AssetFields(asset: Json, fileReference: Json, binaryFileId: string): Fields {
    Present("descriptions", Field(asset, "descriptions"))
    + [("file_reference", FileReference(fileReference, binaryFileId))]
    + Present("external_id", Field(asset, "external_id"))
    + Present("folder", Field(asset, "folder"))
    + Present("title", Field(asset, "title"))
  }

  /**
   * `getAddAssetModel`: the descriptions, external id, folder and title of the contract,
   * and a file reference to the uploaded binary file; then every `id` in it is translated
   * with the import results so far. Reading the reference type throws when the contract
   * has no file reference.
   */
  function GetAddAssetModel(asset: Json, binaryFileId: string, items: seq<ImportItemResult>): (r: Result<Json, ImportError>)
    ensures r.Fail? <==> Field(asset, "file_reference") in {None, Some(JNull)}
    ensures r.Fail? ==> r.error == TypeError("type")
    ensures r.Ok? ==> r.value.JObj?
  {
    var fileReference := Field(asset, "file_reference");
    if fileReference.None? || fileReference.value.JNull? then Fail(TypeError("type"))
    else Ok(NewIds(JObj(AssetFields(asset, fileReference.value, binaryFileId)), items))
  }

  /** `obj[k]` on a concatenation: the first part decides when it has the key. */
  lemma {:induction false} LookupAppend(a: Fields, b: Fields, k: string)
    ensures Lookup(a + b, k) == if Lookup(a, k).Some? then Lookup(a, k) else Lookup(b, k)
  {
    if |a| > 0 {
      assert (a + b)[0] == a[0] && (a + b)[1..] == a[1..] + b;
      if a[0].0 != k {
        LookupAppend(a[1..], b, k);
        assert Lookup(a + b, k) == Lookup(a[1..] + b, k);
        assert Lookup(a, k) == Lookup(a[1..], k);
      }
    } else {
      assert a + b == b;
    }
  }

  lemma LookupAssetFields(asset: Json, fileReference: Json, binaryFileId: string, k: string)
    ensures Lookup(AssetFields(asset, fileReference, binaryFileId), k)
         == if k == "file_reference" then Some(FileReference(fileReference, binaryFileId))
            else if Copied(k) then Field(asset, k)
            else None
  {
    var d := Present("descriptions", Field(asset, "descriptions"));
    var f := [("file_reference", FileReference(fileReference, binaryFileId))];
    var e := Present("external_id", Field(asset, "external_id"));
    var o := Present("folder", Field(asset, "folder"));
    var t := Present("title", Field(asset, "title"));
    LookupAppend(d, f, k);
    LookupAppend(d + f, e, k);
    LookupAppend(d + f + e, o, k);
    LookupAppend(d + f + e + o, t, k);
  }

  /**
   * The new asset has exactly the file reference and the copied properties the contract
   * has; each copied property is the contract's, with its ids translated.
   */
  lemma AddAssetModelProperties(asset: Json, binaryFileId: string, items: seq<ImportItemResult>, k: string)
    requires GetAddAssetModel(asset, binaryFileId, items).Ok?
    ensures var m := GetAddAssetModel(asset, binaryFileId, items).value;
      && (Field(m, k).Some? <==> k == "file_reference" || (Copied(k) && Field(asset, k).Some?))
      && (Copied(k) && Field(asset, k).Some? ==> Field(m, k) == Some(NewIds(Field(asset, k).value, items)))
  {
    var fileReference := Field(asset, "file_reference").value;
    LookupNewIds(AssetFields(asset, fileReference, binaryFileId), items, k);
    LookupAssetFields(asset, fileReference, binaryFileId, k);
  }

  /**
   * The file reference names the uploaded file: its id is the one the upload answered with,
   * unless an import result maps that id to a new one (the translation applies to it too).
   */
  lemma AddAssetModelFileReference(asset: Json, binaryFileId: string, items: seq<ImportItemResult>)
    requires GetAddAssetModel(asset, binaryFileId, items).Ok?
    ensures var m := GetAddAssetModel(asset, binaryFileId, items).value;
      var n := TryFindNewId(items, binaryFileId);
      Field2(m, "file_reference", "id") == Some(JStr(if n.Some? && n.value != "" then n.value else binaryFileId))
    ensures (forall j :: 0 <= j < |items| ==> items[j].originalId != Some(binaryFileId)) ==>
      Field2(GetAddAssetModel(asset, binaryFileId, items).value, "file_reference", "id") == Some(JStr(binaryFileId))
  {
    var fileReference := Field(asset, "file_reference").value;
    var fr := FileReference(fileReference, binaryFileId);
    LookupNewIds(AssetFields(asset, fileReference, binaryFileId), items, "file_reference");
    LookupAssetFields(asset, fileReference, binaryFileId, "file_reference");
    IdTranslation(fr.fields, items, binaryFileId);
  }

  /**
   * A folder reference by id ends up naming the folder's new id, when the folder was
   * imported (its import result comes first): this is what points the new asset at the
   * new folder.
   */
  lemma AddAssetModelFolder(asset: Json, binaryFileId: string, items: seq<ImportItemResult>, folderFields: Fields, x: string)
    requires GetAddAssetModel(asset, binaryFileId, items).Ok?
    requires Field(asset, "folder") == Some(JObj(folderFields)) && Lookup(folderFields, "id") == Some(JStr(x))
    ensures var n := TryFindNewId(items, x);
      Field2(GetAddAssetModel(asset, binaryFileId, items).value, "folder", "id")
        == Some(JStr(if n.Some? && n.value != "" then n.value else x))
  {
    AddAssetModelProperties(asset, binaryFileId, items, "folder");
    IdTranslation(folderFields, items, x);
  }

  // ---------------------------------------------------------------- the contract, shared with the model

  /** The contract's properties, with the ids in `descriptions` and `folder` translated. */
  function SharedFields(fs: Fields, items: seq<ImportItemResult>): (r: Fields)
    ensures |r| == |fs|
  {
    if |fs| == 0 then []
    else
      var v := if fs[0].0 == "descriptions" || fs[0].0 == "folder" then NewIds(fs[0].1, items) else fs[0].1;
      [(fs[0].0, v)] + SharedFields(fs[1..], items)
  }

  /**
   * The asset contract once `getAddAssetModel` has run. The model holds the contract's own
   * `descriptions` and `folder` values, not copies, so translating the model in place
   * translates them in the contract too; this is the asset the import record keeps.
   */
  function SharedWithAddAssetModel(asset: Json, items: seq<ImportItemResult>): (r: Json)
    ensures r.JObj? <==> asset.JObj?
  {
    if asset.JObj? then JObj(SharedFields(asset.fields, items)) else asset
  }

  /** Reading a property of the shared contract reads the contract's, translated when shared. */
  lemma {:induction false} LookupSharedFields(fs: Fields, items: seq<ImportItemResult>, k: string)
    ensures Lookup(SharedFields(fs, items), k)
         == if Lookup(fs, k).Some? && (k == "descriptions" || k == "folder") then Some(NewIds(Lookup(fs, k).value, items))
            else Lookup(fs, k)
  {
    if |fs| > 0 && fs[0].0 != k {
      LookupSharedFields(fs[1..], items, k);
    }
  }

  /**
   * The recorded contract and the model agree on the two shared properties, each present in
   * one exactly when in the other; every other property of the contract, its id among them,
   * is as it was.
   */
  lemma SharedWithAddAssetModelFields(asset: Json, binaryFileId: string, items: seq<ImportItemResult>, k: string)
    requires GetAddAssetModel(asset, binaryFileId, items).Ok?
    ensures var m := GetAddAssetModel(asset, binaryFileId, items).value;
      Field(SharedWithAddAssetModel(asset, items), k) == if k == "descriptions" || k == "folder" then Field(m, k) else Field(asset, k)
  {
    AddAssetModelProperties(asset, binaryFileId, items, k);
    LookupSharedFields(asset.fields, items, k);
  }
}
