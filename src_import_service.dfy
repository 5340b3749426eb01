/**
 * The older import service (`src/import/import.service.ts`). The asset folders go first, in
 * one call; then the prepared items one at a time, in the order the dependency sort gave
 * them, each dispatched by its type and translated with every import result recorded
 * before it. Snippets and content types are recorded here, unlike in the newer service.
 * Every call goes through `handleImportError`, which logs what was thrown and throws a new
 * `Error` made from it, so the first refusal ends the import.
 */
module SrcImportService {
  import opened Wrappers
  import opened Json
  import opened CoreModels
  import opened ImportModels
  import opened GlobalHelper
  import opened ZipService
  import opened AssetFolderHelper
  import opened AssetImportRules
  import opened IdTranslateHelper
  import opened LibWorkflowRules
  import opened LibVariantRules
  import opened LibImportPhases
  import ImportHelper
  import LibImportAssets
  import LibLanguageRules

  /**
   * `IImportConfig`, as far as the decisions go: the step id every variant is given, and
   * `skip.languages === true`.
   */
  datatype SrcImportConfig = SrcImportConfig(workflowIdForImportedItems: string, skipLanguages: bool)

  /** `IImportData`: the ordered prepared items, the folder trees and the binary files. */
  datatype SrcImportData = SrcImportData(
    orderedImportItems: seq<ImportHelper.PreparedItem>, assetFolders: seq<Folder>, binaryFiles: seq<BinaryFile>)

  /** `handleImportError` on a refused call: the refusal is thrown again inside a new `Error`. */
  function Refused(e: ApiError): ImportError {
    Rethrown(ApiFailure(Raised(e)))
  }

  /** The kind of item a call imports; `None` for the calls only the newer service makes. */
  function CallType(c: Call): Option<ItemType> {
    match c
    case AddAssetFolders(_) => Some(AssetFolder)
    case AddLanguage(_) => Some(Language)
    case AddTaxonomy(_) => Some(Taxonomy)
    case AddContentTypeSnippet(_) => Some(ContentTypeSnippet)
    case AddContentType(_) => Some(ContentType)
    case UploadBinaryFile(_, _, _) => Some(Asset)
    case AddAsset(_) => Some(Asset)
    case AddContentItem(_) => Some(ContentItem)
    case UpsertLanguageVariant(_, _, _) => Some(LanguageVariant)
    case _ => None
  }

  // ---------------------------------------------------------------- a refusal ends the run

  /** Every refused call is rethrown by `handleImportError` as what the run throws. */
  predicate RefusalRethrown(respond: Respond, log: seq<Call>, o: Outcome) {
    forall i :: 0 <= i < |o.calls| && respond(log + o.calls[..i], o.calls[i]).Fail? ==>
      o.error == Some(Refused(respond(log + o.calls[..i], o.calls[i]).error))
  }

  /** A refused call is the last one, and what it failed with is what the run throws. */
  predicate TurnOk(respond: Respond, log: seq<Call>, o: Outcome) {
    FailureEnds(respond, log, o) && RefusalRethrown(respond, log, o)
  }

  lemma TurnOkThen(respond: Respond, log: seq<Call>, a: Outcome, b: Outcome)
    requires a.error.None? && TurnOk(respond, log, a) && TurnOk(respond, log + a.calls, b)
    ensures TurnOk(respond, log, Then(a, b))
  {
    FailureEndsThen(respond, log, a, b);
    var c := a.calls + b.calls;
    forall i | 0 <= i < |a.calls|
      ensures respond(log + c[..i], c[i]).Ok?
    {
      assert c[..i] == a.calls[..i] && c[i] == a.calls[i];
    }
    forall i | |a.calls| <= i < |c| && respond(log + c[..i], c[i]).Fail?
      ensures Then(a, b).error == Some(Refused(respond(log + c[..i], c[i]).error))
    {
      var k := i - |a.calls|;
      assert c[..i] == a.calls + b.calls[..k] && c[i] == b.calls[k];
      assert log + c[..i] == (log + a.calls) + b.calls[..k];
    }
  }

  /** A stretch of one call, which throws the rethrown refusal when the call is refused. */
  lemma TurnOkOne(respond: Respond, log: seq<Call>, o: Outcome)
    requires |o.calls| == 1
    requires respond(log, o.calls[0]).Fail? ==> o.error == Some(Refused(respond(log, o.calls[0]).error))
    ensures TurnOk(respond, log, o)
  {
    assert log + o.calls[..0] == log;
  }

  // ---------------------------------------------------------------- one call, one record

  /** A call answered with the new object, recorded against the contract it was made from. */
  function SendTurn(respond: Respond, log: seq<Call>, c: Call, original: Json, originalId: Option<string>): Outcome {
    match respond(log, c)
    case Fail(e) => Outcome([c], [], [], Some(Refused(e)))
    case Ok(resp) => Outcome([c], [ImportItemResult(OJson(original), originalId, Some(resp.id))], [], None)
  }

  /**
   * One call: it is the only call made; answered, it records the contract under the new
   * id; refused, the refusal is rethrown.
   */
  lemma SendTurnShape(respond: Respond, log: seq<Call>, c: Call, original: Json, originalId: Option<string>)
    ensures var o := SendTurn(respond, log, c, original, originalId);
      && o.calls == [c] && o.reported == [] && TurnOk(respond, log, o)
      && (o.error.None? <==> respond(log, c).Ok?)
      && (respond(log, c).Ok? ==> o.results == [ImportItemResult(OJson(original), originalId, Some(respond(log, c).value.id))])
      && (respond(log, c).Fail? ==> o.results == [])
  {
    TurnOkOne(respond, log, SendTurn(respond, log, c, original, originalId));
  }

  // ---------------------------------------------------------------- languages

  /** The id the older service gives the default language: the zero GUID, written out. */
  const ZeroId := "00000000-0000-0000-0000-000000000000"

  /**
   * The data `importLanguagesAsync` adds a language with. Reading the fallback of `null`
   * throws; so does reading the codename of a missing fallback language; a fallback with
   * an unset codename is refused. A language that names itself as its fallback falls back
   * to the language with the zero id, any other to the named language.
   */
  function LanguageData(lang: Json): (r: Result<AddLanguageData, ImportError>)
    ensures lang.JNull? ==> r == Fail(TypeError("fallback_language"))
    ensures !lang.JNull? ==>
      (r.Fail? <==> LibLanguageRules.FallbackCodename(lang).Fail? || !TruthyOpt(LibLanguageRules.FallbackCodename(lang).value))
    ensures !lang.JNull? && LibLanguageRules.FallbackCodename(lang).Fail? ==> r == Fail(TypeError("codename"))
    ensures !lang.JNull? && LibLanguageRules.FallbackCodename(lang).Ok? && !TruthyOpt(LibLanguageRules.FallbackCodename(lang).value) ==>
      r == Fail(UnsetFallbackCodename(Field(lang, "name")))
    ensures r.Ok? ==>
      var d := r.value;
      var fallback := LibLanguageRules.FallbackCodename(lang).value;
      && d.codename == Field(lang, "codename") && d.name == Field(lang, "name")
      && d.externalId == Field(lang, "external_id") && d.isActive == Field(lang, "is_active")
      && (d.fallbackLanguage == FallbackById(ZeroId) <==> Field(lang, "codename") == fallback)
      && (d.fallbackLanguage.FallbackById? ==> d.fallbackLanguage.id == ZeroId)
      && (d.fallbackLanguage.FallbackByCodename? ==>
            Some(d.fallbackLanguage.codename) == fallback && Some(d.fallbackLanguage.codename) != d.codename)
  {
    if lang.JNull? then Fail(TypeError("fallback_language"))
    else
      var fallback :- LibLanguageRules.FallbackCodename(lang);
      if !TruthyOpt(fallback) then Fail(UnsetFallbackCodename(Field(lang, "name")))
      else
        Ok(AddLanguageData(Field(lang, "codename"), Field(lang, "name"), Field(lang, "external_id"),
          if Field(lang, "codename") == fallback then FallbackById(ZeroId) else FallbackByCodename(fallback.value),
          Field(lang, "is_active")))
  }

  /**
   * The two services add a language with the same data: whatever the newer one imports,
   * the older one imports alike, and the older one imports alike whatever the newer one
   * does not skip or refuse on account of the target project's languages.
   */
  lemma LanguageDataAsNewer(current: seq<LanguageModel>, lang: Json)
    ensures LibLanguageRules.TryGetLanguage(current, lang).Ok? && LibLanguageRules.TryGetLanguage(current, lang).value.Import? ==>
      LanguageData(lang) == Ok(LibLanguageRules.TryGetLanguage(current, lang).value.data)
    ensures (LanguageData(lang).Ok? && !LibLanguageRules.CodenameTaken(current, lang)
      && !LibLanguageRules.DefaultCodenameDiffers(current, lang)) ==>
      LibLanguageRules.TryGetLanguage(current, lang) == Ok(LibLanguageRules.Import(LanguageData(lang).value))
  {
    assert LibLanguageRules.DefaultLanguageId == ZeroId;
    if lang.JNull? {
      assert LibLanguageRules.FallbackCodename(lang).Fail?;
    }
  }

  // ---------------------------------------------------------------- language variants

  /** `languageVariant.workflow_step.id = workflowIdForImportedItems`, in place. */
  function WithStep(t: Json, workflowId: string): (r: Result<Json, ImportError>)
    ensures r.Fail? <==> !(Field(t, "workflow_step").Some? && IsContainer(Field(t, "workflow_step").value))
    ensures r.Fail? ==> r.error == TypeError("id")
    ensures r.Ok? ==> forall k :: k != "workflow_step" ==> Field(r.value, k) == Field(t, k)
    ensures r.Ok? && Field(t, "workflow_step").value.JObj? ==>
      && Field2(r.value, "workflow_step", "id") == Some(JStr(workflowId))
      && forall k :: k != "id" ==> Field2(r.value, "workflow_step", k) == Field2(t, "workflow_step", k)
    ensures r.Ok? && Field(t, "workflow_step").value.JArr? ==> Field(r.value, "workflow_step") == Field(t, "workflow_step")
  {
    Touch(t, "workflow_step", (o: Option<Json>) => SetProp(o, "id", JStr(workflowId)))
  }

  /** What `withElements` sends: the elements, and nothing else. */
  function Elements(t: Json): Json {
    JObj(Present("elements", Field(t, "elements")))
  }

  /** Both codenames could be read, and both are set. */
  predicate CodenamesSet(v: Json) {
    && ItemCodename(v).Ok? && LanguageCodename(v).Ok?
    && TruthyOpt(ItemCodename(v).value) && TruthyOpt(LanguageCodename(v).value)
  }

  /**
   * What `importLanguageVariantsAsync` does with one variant: a variant whose item or
   * language codename is not set is refused; the ids of the rest are translated with the
   * import results so far, the configured step id is written into its workflow step, and
   * its elements are upserted by the two codenames. Besides the call, the variant as it
   * was left behind is returned, since that is what is recorded.
   */
  function VariantCall(v: Json, items: seq<ImportItemResult>, workflowId: string): (r: Result<(Call, Json), ImportError>)
    ensures r.Ok? <==> CodenamesSet(v) && WithStep(NewIds(v, items), workflowId).Ok?
    ensures ItemCodename(v).Ok? && LanguageCodename(v).Ok? && !TruthyOpt(ItemCodename(v).value) ==>
      r == Fail(MissingItemCodename(None))
    ensures ItemCodename(v).Ok? && LanguageCodename(v).Ok? && TruthyOpt(ItemCodename(v).value) && !TruthyOpt(LanguageCodename(v).value) ==>
      r == Fail(MissingLanguageCodename(None))
    ensures CodenamesSet(v) && WithStep(NewIds(v, items), workflowId).Fail? ==> r == Fail(TypeError("id"))
    ensures r.Ok? ==>
      && r.value.0 == UpsertLanguageVariant(ItemCodename(v).value.value, LanguageCodename(v).value.value, Elements(NewIds(v, items)))
      && r.value.1 == WithStep(NewIds(v, items), workflowId).value
  {
    var ic :- ItemCodename(v);
    var lc :- LanguageCodename(v);
    if !TruthyOpt(ic) then Fail(MissingItemCodename(None))
    else if !TruthyOpt(lc) then Fail(MissingLanguageCodename(None))
    else
      var t :- WithStep(NewIds(v, items), workflowId);
      Ok((UpsertLanguageVariant(ic.value, lc.value, Elements(t)), t))
  }

  /** A variant whose codenames can be read is an object. */
  lemma CodenamesSetObject(v: Json)
    requires CodenamesSet(v)
    ensures v.JObj?
  {
  }

  /**
   * An upserted variant: the call carries the translated elements and nothing else, so the
   * configured step id never reaches the API and the call is the same whatever id is
   * configured; the variant recorded holds every other property translated, and the
   * configured id in its workflow step.
   */
  lemma VariantTranslated(v: Json, items: seq<ImportItemResult>, workflowId: string, otherId: string)
    requires VariantCall(v, items, workflowId).Ok?
    ensures var (c, t) := VariantCall(v, items, workflowId).value;
      && Field(c.variant, "elements") == (if Field(v, "elements").Some? then Some(NewIds(Field(v, "elements").value, items)) else None)
      && (forall k :: k != "elements" ==> Field(c.variant, k) == None)
      && (forall k :: k != "workflow_step" ==>
            Field(t, k) == if Field(v, k).Some? then Some(NewIdsAt(k, Field(v, k).value, items)) else None)
      && (Field(t, "workflow_step").value.JObj? ==> Field2(t, "workflow_step", "id") == Some(JStr(workflowId)))
      && (VariantCall(v, items, otherId).Ok? ==> VariantCall(v, items, otherId).value.0 == c)
  {
    CodenamesSetObject(v);
    var n := NewIds(v, items);
    forall k ensures Field(n, k) == if Field(v, k).Some? then Some(NewIdsAt(k, Field(v, k).value, items)) else None {
      LookupNewIds(v.fields, items, k);
    }
  }

  // ---------------------------------------------------------------- assets

  /**
   * `importAssetsAsync` for one asset: a `null` asset throws where its id is read; an asset
   * without a binary file throws; the file is uploaded as it is, whatever its size, and the
   * asset is created with `getAddAssetModel` of the upload's id. Both calls go through
   * `handleImportError`; the check for a missing upload result cannot fail, since a refusal
   * has already been rethrown.
   */
  function SrcAssetTurn(respond: Respond, log: seq<Call>, asset: Json, files: seq<BinaryFile>, items: seq<ImportItemResult>): Outcome {
    if asset.JNull? then Stop(TypeError("id"))
    else
      match SrcBinaryToUpload(files, asset)
      case Fail(e) => Stop(e)
      case Ok(data) =>
        var up := UploadBinaryFile(data, Field(asset, "type"), Field(asset, "file_name"));
        match respond(log, up)
        case Fail(e) => Outcome([up], [], [], Some(Refused(e)))
        case Ok(uploaded) =>
          match GetAddAssetModel(asset, uploaded.id, items)
          case Fail(e) => Outcome([up], [], [], Some(e))
          case Ok(m) => Then(Outcome([up], [], [], None), SendTurn(respond, log + [up], AddAsset(m), SharedWithAddAssetModel(asset, items), StrField(asset, "id")))
  }

  /**
   * One asset sends at most the upload and the creation, in that order; the upload is of
   * the binary file found for the asset, unchanged; an asset without one throws before any
   * call; an asset that does not throw is recorded once, under the created asset's id.
   */
  lemma SrcAssetShape(respond: Respond, log: seq<Call>, asset: Json, files: seq<BinaryFile>, items: seq<ImportItemResult>)
    ensures var o := SrcAssetTurn(respond, log, asset, files, items);
      && TurnOk(respond, log, o) && o.reported == [] && |o.calls| <= 2
      && (!asset.JNull? && FindBinaryFile(files, asset).None? ==> o == Stop(MissingBinaryFile(Field(asset, "id"))))
      && (|o.calls| > 0 ==> (FindBinaryFile(files, asset).Some?
            && o.calls[0] == UploadBinaryFile(FindBinaryFile(files, asset).value.binaryData, Field(asset, "type"), Field(asset, "file_name"))))
      && (|o.calls| == 2 ==> (respond(log, o.calls[0]).Ok?
            && GetAddAssetModel(asset, respond(log, o.calls[0]).value.id, items).Ok?
            && o.calls[1] == AddAsset(GetAddAssetModel(asset, respond(log, o.calls[0]).value.id, items).value)))
      && (o.error.None? ==> (|o.calls| == 2
            && o.results == [ImportItemResult(OJson(SharedWithAddAssetModel(asset, items)), StrField(asset, "id"), Some(respond(log + [o.calls[0]], o.calls[1]).value.id))]))
  {
    if !asset.JNull? && SrcBinaryToUpload(files, asset).Ok? {
      var up := UploadBinaryFile(SrcBinaryToUpload(files, asset).value, Field(asset, "type"), Field(asset, "file_name"));
      var head := Outcome([up], [], [], None);
      match respond(log, up)
      case Fail(e) =>
        TurnOkOne(respond, log, Outcome([up], [], [], Some(Refused(e))));
      case Ok(uploaded) =>
        if GetAddAssetModel(asset, uploaded.id, items).Fail? {
          TurnOkOne(respond, log, Outcome([up], [], [], Some(GetAddAssetModel(asset, uploaded.id, items).error)));
        } else {
          var m := GetAddAssetModel(asset, uploaded.id, items).value;
          TurnOkOne(respond, log, head);
          SendTurnShape(respond, log + [up], AddAsset(m), SharedWithAddAssetModel(asset, items), StrField(asset, "id"));
          TurnOkThen(respond, log, head, SendTurn(respond, log + [up], AddAsset(m), SharedWithAddAssetModel(asset, items), StrField(asset, "id")));
        }
    }
  }

  // ---------------------------------------------------------------- asset folders

  /**
   * A folder contract held as JSON, read as a folder tree: its `id` and `name` strings, its
   * `external_id` and its sub-folders. A value that is not such a tree cannot be read.
   */
  function FolderOf(j: Json): (r: Result<Folder, ImportError>)
    ensures r.Fail? ==> r.error == TypeError("folders")
    ensures r.Ok? ==> (Field(j, "id") == Some(JStr(r.value.id)) && Field(j, "name") == Some(JStr(r.value.name))
      && r.value.externalId == StrField(j, "external_id")
      && Field(j, "folders").Some? && Field(j, "folders").value.JArr?
      && |r.value.folders| == |Field(j, "folders").value.items|)
    decreases j
  {
    if !j.JObj? then Fail(TypeError("folders"))
    else
      match (Field(j, "id"), Field(j, "name"), Field(j, "folders"))
      case (Some(JStr(id)), Some(JStr(name)), Some(JArr(xs))) =>
        LookupSmaller(j.fields, "folders");
        if forall i :: 0 <= i < |xs| ==> FolderOf(xs[i]).Ok? then
          Ok(Folder(id, name, StrField(j, "external_id"), seq(|xs|, i requires 0 <= i < |xs| => FolderOf(xs[i]).value)))
        else Fail(TypeError("folders"))
      case _ => Fail(TypeError("folders"))
  }

  /**
   * `importAssetFoldersAsync` of the older service: the same call and matching as in the
   * newer one, but a refusal, or a created folder without an original (thrown inside the
   * answer's handler), is rethrown inside a new `Error`.
   */
  function SrcFoldersRun(respond: Respond, log: seq<Call>, folders: seq<Folder>): Outcome {
    var c := LibImportAssets.FolderRequest(folders);
    match respond(log, c)
    case Fail(e) => Outcome([c], [], [], Some(Refused(e)))
    case Ok(resp) =>
      var nodes := PreOrderAll(resp.folders);
      var originals := PreOrderAll(StampAll(folders));
      if AllMatched(nodes, originals) then Outcome([c], Records(nodes, originals), [], None)
      else Outcome([c], [], [], Some(Rethrown(MissingFolder(MissingFolderMessage(nodes[LibImportAssets.MissIndex(nodes, originals)])))))
  }

  /**
   * The folder phases of the two services send the same call and record the same folders;
   * they differ only in what they throw, the older one wrapping the same error.
   */
  lemma SrcFoldersRunShape(respond: Respond, log: seq<Call>, folders: seq<Folder>)
    ensures var o := SrcFoldersRun(respond, log, folders);
      var l := LibImportAssets.FoldersRun(respond, log, folders);
      && o.calls == l.calls && o.results == l.results && o.reported == l.reported
      && (o.error.None? <==> l.error.None?)
      && (l.error.Some? && l.error.value.MissingFolder? ==> o.error == Some(Rethrown(l.error.value)))
      && TurnOk(respond, log, o)
  {
    TurnOkOne(respond, log, SrcFoldersRun(respond, log, folders));
  }

  /** `importAssetFoldersAsync` of the older service, against the client. */
  method SrcImportAssetFolders(client: Client, folders: seq<Folder>) returns (o: Outcome)
    modifies client
    ensures o == SrcFoldersRun(client.respond, old(client.log), folders)
    ensures client.log == old(client.log) + o.calls
  {
    var stamped := SetExternalIdForFolders(folders);
    var c := AddAssetFolders(seq(|stamped|, i requires 0 <= i < |stamped| => MapAssetFolder(stamped[i])));
    assert c == LibImportAssets.FolderRequest(folders);
    var answer := client.Send(c);
    if answer.Fail? {
      return Outcome([c], [], [], Some(Refused(answer.error)));
    }
    var flattenedContracts := FlattenAssetFolderContracts(stamped, []);
    assert flattenedContracts == PreOrderAll(stamped);
    var flattened := FlattenAssetFolders(answer.value.folders, flattenedContracts, []);
    var nodes := PreOrderAll(answer.value.folders);
    if flattened.Fail? {
      ghost var k :| FirstMiss(nodes, flattenedContracts, k) && flattened.error == MissingFolderMessage(nodes[k]);
      LibImportAssets.FirstMissUnique(nodes, flattenedContracts, k, LibImportAssets.MissIndex(nodes, flattenedContracts));
      return Outcome([c], [], [], Some(Rethrown(MissingFolder(flattened.error))));
    }
    assert flattened.value == Records(nodes, flattenedContracts);
    o := Outcome([c], flattened.value, [], None);
  }

  // ---------------------------------------------------------------- importItemAsync

  /** A content item: its call, or what reading its type throws. */
  function ContentItemTurn(respond: Respond, log: seq<Call>, x: Json): Outcome {
    PreparedTurn(respond, log, ItemCall(x), x, StrField(x, "id"))
  }

  /** A prepared call sent for `original`, or what preparing it threw. */
  function PreparedTurn(respond: Respond, log: seq<Call>, call: Result<Call, ImportError>, original: Json, originalId: Option<string>): Outcome {
    match call
    case Fail(e) => Stop(e)
    case Ok(c) => SendTurn(respond, log, c, original, originalId)
  }

  /** A language variant: upserted, and recorded as it was left, under its item's id. */
  function VariantTurn(respond: Respond, log: seq<Call>, x: Json, items: seq<ImportItemResult>, workflowId: string): Outcome {
    match VariantCall(x, items, workflowId)
    case Fail(e) => Stop(e)
    case Ok(u) => SendTurn(respond, log, u.0, u.1, StrOf(Field2(u.1, "item", "id")))
  }

  /** A language: nothing when languages are skipped, else added with `LanguageData`. */
  function LanguageTurn(respond: Respond, log: seq<Call>, x: Json, skipLanguages: bool): Outcome {
    if skipLanguages then Done()
    else
      match LanguageData(x)
      case Fail(e) => Stop(e)
      case Ok(d) => SendTurn(respond, log, AddLanguage(d), x, StrField(x, "id"))
  }

  /** One asset folder tree, imported as a list of one. */
  function FolderTurn(respond: Respond, log: seq<Call>, x: Json): Outcome {
    match FolderOf(x)
    case Fail(e) => Stop(e)
    case Ok(f) => SrcFoldersRun(respond, log, [f])
  }

  /**
   * `importItemAsync`: the prepared item is imported by the loop for its type, as a list of
   * one, against the import results so far. Taxonomies, snippets and content types are
   * sent as they are. Languages import nothing when `skip.languages` is set. Any other type
   * is not supported and throws.
   */
  function ItemTurn(respond: Respond, log: seq<Call>, config: SrcImportConfig, p: ImportHelper.PreparedItem,
    files: seq<BinaryFile>, items: seq<ImportItemResult>): Outcome
  {
    var x := p.item;
    match p.itemType
    case ContentType => SendTurn(respond, log, AddContentType(x), x, StrField(x, "id"))
    case Taxonomy => SendTurn(respond, log, AddTaxonomy(x), x, StrField(x, "id"))
    case ContentTypeSnippet => SendTurn(respond, log, AddContentTypeSnippet(x), x, StrField(x, "id"))
    case ContentItem => ContentItemTurn(respond, log, x)
    case LanguageVariant => VariantTurn(respond, log, x, items, config.workflowIdForImportedItems)
    case Language => LanguageTurn(respond, log, x, config.skipLanguages)
    case Asset => SrcAssetTurn(respond, log, x, files, items)
    case AssetFolder => FolderTurn(respond, log, x)
    case _ => Stop(NotSupportedType(ImportHelper.TypeName(p.itemType)))
  }

  /** Every call imports an item of type `t`. */
  predicate OfType(calls: seq<Call>, t: ItemType) {
    forall i :: 0 <= i < |calls| ==> CallType(calls[i]) == Some(t)
  }

  /** What every item's turn keeps: a refusal ends it and is rethrown, and its calls are of its type. */
  predicate KindOk(respond: Respond, log: seq<Call>, o: Outcome, t: ItemType) {
    TurnOk(respond, log, o) && o.reported == [] && OfType(o.calls, t)
  }

  lemma SendTurnKind(respond: Respond, log: seq<Call>, c: Call, x: Json, id: Option<string>, t: ItemType)
    requires CallType(c) == Some(t)
    ensures KindOk(respond, log, SendTurn(respond, log, c, x, id), t)
  {
    SendTurnShape(respond, log, c, x, id);
  }

  lemma PreparedTurnKind(respond: Respond, log: seq<Call>, call: Result<Call, ImportError>, original: Json, originalId: Option<string>, t: ItemType)
    requires call.Ok? ==> CallType(call.value) == Some(t)
    ensures KindOk(respond, log, PreparedTurn(respond, log, call, original, originalId), t)
  {
    if call.Ok? {
      SendTurnKind(respond, log, call.value, original, originalId, t);
    }
  }

  lemma ContentItemKind(respond: Respond, log: seq<Call>, x: Json)
    ensures KindOk(respond, log, ContentItemTurn(respond, log, x), ContentItem)
  {
    var call := ItemCall(x);
    assert call.Ok? ==> CallType(call.value) == Some(ContentItem);
    PreparedTurnKind(respond, log, call, x, StrField(x, "id"), ContentItem);
  }

  lemma VariantKind(respond: Respond, log: seq<Call>, x: Json, items: seq<ImportItemResult>, workflowId: string)
    ensures KindOk(respond, log, VariantTurn(respond, log, x, items, workflowId), LanguageVariant)
  {
    var u := VariantCall(x, items, workflowId);
    if u.Ok? {
      SendTurnKind(respond, log, u.value.0, u.value.1, StrOf(Field2(u.value.1, "item", "id")), LanguageVariant);
    }
  }

  lemma LanguageKind(respond: Respond, log: seq<Call>, x: Json, skipLanguages: bool)
    ensures KindOk(respond, log, LanguageTurn(respond, log, x, skipLanguages), Language)
  {
    if !skipLanguages && LanguageData(x).Ok? {
      SendTurnKind(respond, log, AddLanguage(LanguageData(x).value), x, StrField(x, "id"), Language);
    }
  }

  /** An answered call followed by one more, both of type `t`. */
  lemma UploadThenSendKind(respond: Respond, log: seq<Call>, up: Call, c: Call, original: Json, originalId: Option<string>, t: ItemType)
    requires CallType(up) == Some(t) && CallType(c) == Some(t) && respond(log, up).Ok?
    ensures KindOk(respond, log, Then(Outcome([up], [], [], None), SendTurn(respond, log + [up], c, original, originalId)), t)
  {
    var head := Outcome([up], [], [], None);
    var rest := SendTurn(respond, log + [up], c, original, originalId);
    TurnOkOne(respond, log, head);
    SendTurnShape(respond, log + [up], c, original, originalId);
    TurnOkThen(respond, log, head, rest);
    assert Then(head, rest).calls == [up, c];
  }

  lemma AssetKind(respond: Respond, log: seq<Call>, x: Json, files: seq<BinaryFile>, items: seq<ImportItemResult>)
    ensures KindOk(respond, log, SrcAssetTurn(respond, log, x, files, items), Asset)
  {
    if !x.JNull? && SrcBinaryToUpload(files, x).Ok? {
      var up := UploadBinaryFile(SrcBinaryToUpload(files, x).value, Field(x, "type"), Field(x, "file_name"));
      match respond(log, up)
      case Fail(e) =>
        TurnOkOne(respond, log, Outcome([up], [], [], Some(Refused(e))));
      case Ok(uploaded) =>
        if GetAddAssetModel(x, uploaded.id, items).Fail? {
          TurnOkOne(respond, log, Outcome([up], [], [], Some(GetAddAssetModel(x, uploaded.id, items).error)));
        } else {
          UploadThenSendKind(respond, log, up, AddAsset(GetAddAssetModel(x, uploaded.id, items).value),
            SharedWithAddAssetModel(x, items), StrField(x, "id"), Asset);
        }
    }
  }

  lemma FolderKind(respond: Respond, log: seq<Call>, x: Json)
    ensures KindOk(respond, log, FolderTurn(respond, log, x), AssetFolder)
  {
    if FolderOf(x).Ok? {
      SrcFoldersRunShape(respond, log, [FolderOf(x).value]);
      LibImportAssets.FoldersRunShape(respond, log, [FolderOf(x).value]);
    }
  }

  /**
   * The dispatch: every call an item makes imports an item of its own type; a refusal ends
   * the item and is rethrown; skipped languages make no call and record nothing; a type
   * the service does not support throws before any call.
   */
  lemma ItemTurnShape(respond: Respond, log: seq<Call>, config: SrcImportConfig, p: ImportHelper.PreparedItem,
    files: seq<BinaryFile>, items: seq<ImportItemResult>)
    ensures KindOk(respond, log, ItemTurn(respond, log, config, p, files, items), p.itemType)
    ensures p.itemType.Language? && config.skipLanguages ==> ItemTurn(respond, log, config, p, files, items) == Done()
    ensures p.itemType.BinaryFile? || p.itemType.Workflow? ==>
      ItemTurn(respond, log, config, p, files, items) == Stop(NotSupportedType(ImportHelper.TypeName(p.itemType)))
  {
    var x := p.item;
    match p.itemType
    case ContentType => SendTurnKind(respond, log, AddContentType(x), x, StrField(x, "id"), ContentType);
    case Taxonomy => SendTurnKind(respond, log, AddTaxonomy(x), x, StrField(x, "id"), Taxonomy);
    case ContentTypeSnippet => SendTurnKind(respond, log, AddContentTypeSnippet(x), x, StrField(x, "id"), ContentTypeSnippet);
    case ContentItem => ContentItemKind(respond, log, x);
    case LanguageVariant => VariantKind(respond, log, x, items, config.workflowIdForImportedItems);
    case Language => LanguageKind(respond, log, x, config.skipLanguages);
    case Asset => AssetKind(respond, log, x, files, items);
    case AssetFolder => FolderKind(respond, log, x);
    case BinaryFile =>
    case Workflow =>
  }

  // ---------------------------------------------------------------- importAsync

  /**
   * The loop of `importAsync` over the prepared items: each is imported against every
   * import result recorded before it, and the first item that throws ends the import.
   */
  function ItemsRun(respond: Respond, log: seq<Call>, config: SrcImportConfig, ps: seq<ImportHelper.PreparedItem>,
    files: seq<BinaryFile>, seen: seq<ImportItemResult>): Outcome
    decreases |ps|
  {
    if |ps| == 0 then Done()
    else
      var a := ItemTurn(respond, log, config, ps[0], files, seen);
      if a.error.Some? then a
      else Then(a, ItemsRun(respond, log + a.calls, config, ps[1..], files, seen + a.results))
  }

  /** `importAsync`: the folders in one call, then the ordered items against the folders' records. */
  function ImportAsyncRun(respond: Respond, log: seq<Call>, config: SrcImportConfig, data: SrcImportData): Outcome {
    var f := SrcFoldersRun(respond, log, data.assetFolders);
    if f.error.Some? then f
    else Then(f, ItemsRun(respond, log + f.calls, config, data.orderedImportItems, data.binaryFiles, f.results))
  }

  /** The calls the older service makes, and no added language when languages are skipped. */
  predicate Allowed(calls: seq<Call>, config: SrcImportConfig) {
    forall i :: 0 <= i < |calls| ==> CallType(calls[i]).Some? && (config.skipLanguages ==> !calls[i].AddLanguage?)
  }

  lemma AllowedThen(a: seq<Call>, b: seq<Call>, config: SrcImportConfig)
    requires Allowed(a, config) && Allowed(b, config)
    ensures Allowed(a + b, config)
  {
    assert forall i :: 0 <= i < |a + b| ==> (a + b)[i] == if i < |a| then a[i] else b[i - |a|];
  }

  lemma {:induction false} ItemsRunShape(respond: Respond, log: seq<Call>, config: SrcImportConfig,
    ps: seq<ImportHelper.PreparedItem>, files: seq<BinaryFile>, seen: seq<ImportItemResult>)
    ensures var o := ItemsRun(respond, log, config, ps, files, seen);
      TurnOk(respond, log, o) && o.reported == [] && Allowed(o.calls, config)
    decreases |ps|
  {
    if |ps| > 0 {
      var a := ItemTurn(respond, log, config, ps[0], files, seen);
      ItemTurnShape(respond, log, config, ps[0], files, seen);
      assert Allowed(a.calls, config);
      if a.error.None? {
        var b := ItemsRun(respond, log + a.calls, config, ps[1..], files, seen + a.results);
        ItemsRunShape(respond, log + a.calls, config, ps[1..], files, seen + a.results);
        TurnOkThen(respond, log, a, b);
        AllowedThen(a.calls, b.calls, config);
      }
    }
  }

  /**
   * `importAsync` sends the folder request first; every refusal ends the import and is
   * rethrown; it makes only the calls of the older service, and adds no language when
   * languages are skipped.
   */
  lemma ImportAsyncShape(respond: Respond, log: seq<Call>, config: SrcImportConfig, data: SrcImportData)
    ensures var o := ImportAsyncRun(respond, log, config, data);
      && |o.calls| > 0 && o.calls[0] == LibImportAssets.FolderRequest(data.assetFolders)
      && TurnOk(respond, log, o) && o.reported == [] && Allowed(o.calls, config)
  {
    var f := SrcFoldersRun(respond, log, data.assetFolders);
    SrcFoldersRunShape(respond, log, data.assetFolders);
    LibImportAssets.FoldersRunShape(respond, log, data.assetFolders);
    assert Allowed(f.calls, config);
    if f.error.None? {
      var b := ItemsRun(respond, log + f.calls, config, data.orderedImportItems, data.binaryFiles, f.results);
      ItemsRunShape(respond, log + f.calls, config, data.orderedImportItems, data.binaryFiles, f.results);
      TurnOkThen(respond, log, f, b);
      AllowedThen(f.calls, b.calls, config);
    }
  }

  // ---------------------------------------------------------------- against the client

  /** One call, against the client. */
  method SendOne(client: Client, c: Call, original: Json, originalId: Option<string>) returns (o: Outcome)
    modifies client
    ensures o == SendTurn(client.respond, old(client.log), c, original, originalId)
    ensures client.log == old(client.log) + o.calls
  {
    var answer := client.Send(c);
    if answer.Fail? {
      return Outcome([c], [], [], Some(Refused(answer.error)));
    }
    o := Outcome([c], [ImportItemResult(OJson(original), originalId, Some(answer.value.id))], [], None);
  }

  /** `importAssetsAsync` of the older service for one asset, against the client. */
  method SrcImportAsset(client: Client, asset: Json, files: seq<BinaryFile>, items: seq<ImportItemResult>) returns (o: Outcome)
    modifies client
    ensures o == SrcAssetTurn(client.respond, old(client.log), asset, files, items)
    ensures client.log == old(client.log) + o.calls
  {
    if asset.JNull? {
      return Stop(TypeError("id"));
    }
    var data := SrcBinaryToUpload(files, asset);
    if data.Fail? {
      return Stop(data.error);
    }
    var up := UploadBinaryFile(data.value, Field(asset, "type"), Field(asset, "file_name"));
    var uploaded := client.Send(up);
    if uploaded.Fail? {
      return Outcome([up], [], [], Some(Refused(uploaded.error)));
    }
    var m := GetAddAssetModel(asset, uploaded.value.id, items);
    if m.Fail? {
      return Outcome([up], [], [], Some(m.error));
    }
    var created := SendOne(client, AddAsset(m.value), SharedWithAddAssetModel(asset, items), StrField(asset, "id"));
    o := Then(Outcome([up], [], [], None), created);
  }

  /** `importItemAsync`, against the client. */
  method ImportItem(client: Client, config: SrcImportConfig, p: ImportHelper.PreparedItem,
    files: seq<BinaryFile>, items: seq<ImportItemResult>) returns (o: Outcome)
    modifies client
    ensures o == ItemTurn(client.respond, old(client.log), config, p, files, items)
    ensures client.log == old(client.log) + o.calls
  {
    var x := p.item;
    match p.itemType {
      case ContentType =>
        o := SendOne(client, AddContentType(x), x, StrField(x, "id"));
      case Taxonomy =>
        o := SendOne(client, AddTaxonomy(x), x, StrField(x, "id"));
      case ContentTypeSnippet =>
        o := SendOne(client, AddContentTypeSnippet(x), x, StrField(x, "id"));
      case ContentItem =>
        var c := ItemCall(x);
        if c.Fail? {
          return Stop(c.error);
        }
        o := SendOne(client, c.value, x, StrField(x, "id"));
      case LanguageVariant =>
        var u := VariantCall(x, items, config.workflowIdForImportedItems);
        if u.Fail? {
          return Stop(u.error);
        }
        o := SendOne(client, u.value.0, u.value.1, StrOf(Field2(u.value.1, "item", "id")));
      case Language =>
        if config.skipLanguages {
          return Done();
        }
        var d := LanguageData(x);
        if d.Fail? {
          return Stop(d.error);
        }
        o := SendOne(client, AddLanguage(d.value), x, StrField(x, "id"));
      case Asset =>
        o := SrcImportAsset(client, x, files, items);
      case AssetFolder =>
        var f := FolderOf(x);
        if f.Fail? {
          return Stop(f.error);
        }
        o := SrcImportAssetFolders(client, [f.value]);
      case BinaryFile =>
        o := Stop(NotSupportedType(ImportHelper.TypeName(p.itemType)));
      case Workflow =>
        o := Stop(NotSupportedType(ImportHelper.TypeName(p.itemType)));
    }
  }

  lemma ItemsStart(respond: Respond, log0: seq<Call>, config: SrcImportConfig, data: SrcImportData, f: Outcome)
    requires f == SrcFoldersRun(respond, log0, data.assetFolders) && f.error.None?
    ensures ImportAsyncRun(respond, log0, config, data) ==
      Then(f, ItemsRun(respond, log0 + f.calls, config, data.orderedImportItems[0..], data.binaryFiles, f.results))
  {
    assert data.orderedImportItems[0..] == data.orderedImportItems;
  }

  lemma ItemsStep(respond: Respond, log0: seq<Call>, config: SrcImportConfig, whole: Outcome, acc: Outcome,
    ps: seq<ImportHelper.PreparedItem>, files: seq<BinaryFile>, i: nat, a: Outcome)
    requires i < |ps| && a == ItemTurn(respond, log0 + acc.calls, config, ps[i], files, acc.results)
    requires whole == Then(acc, ItemsRun(respond, log0 + acc.calls, config, ps[i..], files, acc.results))
    ensures a.error.Some? ==> whole == Then(acc, a)
    ensures a.error.None? ==>
      whole == Then(Then(acc, a), ItemsRun(respond, log0 + Then(acc, a).calls, config, ps[i + 1..], files, Then(acc, a).results))
  {
    assert ps[i..][0] == ps[i] && ps[i..][1..] == ps[i + 1..];
    if a.error.None? {
      var b := ItemsRun(respond, log0 + acc.calls + a.calls, config, ps[i + 1..], files, acc.results + a.results);
      ThenAssoc(acc, a, b);
      LogAfter(log0, acc, a);
    }
  }

  lemma ItemsEnd(respond: Respond, log0: seq<Call>, config: SrcImportConfig, whole: Outcome, acc: Outcome,
    ps: seq<ImportHelper.PreparedItem>, files: seq<BinaryFile>)
    requires acc.error.None?
    requires whole == Then(acc, ItemsRun(respond, log0 + acc.calls, config, ps[|ps|..], files, acc.results))
    ensures whole == acc
  {
    assert ps[|ps|..] == [];
    assert acc.calls + [] == acc.calls && acc.results + [] == acc.results && acc.reported + [] == acc.reported;
  }

  /**
   * `importAsync`, against the client: `importedItems` starts with the folders' records
   * and grows by each item's records, and every item is imported against all of it.
   */
  method ImportAsync(client: Client, config: SrcImportConfig, data: SrcImportData) returns (o: Outcome)
    modifies client
    ensures o == ImportAsyncRun(client.respond, old(client.log), config, data)
    ensures client.log == old(client.log) + o.calls
  {
    var log0 := client.log;
    ghost var whole := ImportAsyncRun(client.respond, log0, config, data);
    var acc := SrcImportAssetFolders(client, data.assetFolders);
    if acc.error.Some? {
      return acc;
    }
    ItemsStart(client.respond, log0, config, data, acc);
    var ps := data.orderedImportItems;
    var i := 0;
    while i < |ps|
      invariant i <= |ps| && acc.error.None?
      invariant client.log == log0 + acc.calls
      invariant whole == Then(acc, ItemsRun(client.respond, log0 + acc.calls, config, ps[i..], data.binaryFiles, acc.results))
    {
      var a := ImportItem(client, config, ps[i], data.binaryFiles, acc.results);
      ItemsStep(client.respond, log0, config, whole, acc, ps, data.binaryFiles, i, a);
      LogAfter(log0, acc, a);
      if a.error.Some? {
        return Then(acc, a);
      }
      acc := Then(acc, a);
      i := i + 1;
    }
    ItemsEnd(client.respond, log0, config, whole, acc, ps, data.binaryFiles);
    o := acc;
  }
}
