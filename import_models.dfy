/**
 * The records the newer import service works on: the parsed export (`IImportSource`), the
 * import configuration (`IImportConfig`), and the management API as the service sees it.
 *
 * The contracts are kept as JSON values, since the service forwards, translates and
 * partly rewrites them. The `canImport` predicates are pure functions: a predicate
 * returning a promise is always truthy, so it can never reject anything.
 */
module ImportModels {
  import opened Wrappers
  import opened Json
  import opened CoreModels
  import ZipService
  import AssetFolderHelper
  import GlobalHelper

  /** `IImportSource.importData`: the exported contracts, one list per kind. */
  datatype ImportData = ImportData(
    taxonomies: seq<Json>, contentTypeSnippets: seq<Json>, contentTypes: seq<Json>,
    contentItems: seq<Json>, languageVariants: seq<Json>, languages: seq<Json>,
    assets: seq<Json>, workflows: seq<Json>)

  /** `IImportSource`. */
  datatype ImportSource = ImportSource(
    importData: ImportData, assetFolders: seq<Folder>, binaryFiles: seq<ZipService.BinaryFile>)

  /** `IImportConfig.canImport`: an optional predicate per kind. */
  datatype CanImport = CanImport(
    workflow: Option<Json -> bool>, taxonomy: Option<Json -> bool>,
    contentTypeSnippet: Option<Json -> bool>, contentType: Option<Json -> bool>,
    contentItem: Option<Json -> bool>, languageVariant: Option<Json -> bool>,
    language: Option<Json -> bool>, asset: Option<Json -> bool>,
    assetFolder: Option<Folder -> bool>)

  /**
   * `IImportConfig`, as far as the decisions go: the filters, whether languages are fixed
   * first, whether workflow steps are restored, the step every variant is moved to, and
   * whether an unsupported binary file is reported.
   */
  datatype ImportConfig = ImportConfig(
    canImport: Option<CanImport>, fixLanguages: bool, preserveWorkflow: bool,
    workflowIdForImportedItems: Option<string>, onUnsupportedBinaryFile: bool)

  /** `LanguageModels.LanguageModel`: a language of the target project as the API lists it. */
  datatype LanguageModel = LanguageModel(id: string, codename: string, name: string, isActive: bool)

  /** A language modification: one `replace` operation on one property. */
  datatype LanguagePatch = ActivateLanguage | RenameLanguage(codename: Option<Json>)

  /** `fallback_language` of a new language: the default language by its id, or a language by codename. */
  datatype FallbackLanguage = FallbackById(id: string) | FallbackByCodename(codename: Json)

  /** `LanguageModels.IAddLanguageData`: what adding a language sends; an absent property is `None`. */
  datatype AddLanguageData = AddLanguageData(
    codename: Option<Json>, name: Option<Json>, externalId: Option<Json>,
    fallbackLanguage: FallbackLanguage, isActive: Option<Json>)

  /** The management API calls the import makes, with the data each one sends. */
  datatype Call =
    | AddAssetFolders(folders: seq<AssetFolderHelper.AddFolderData>)
    | ListLanguages
    | ModifyLanguage(byCodename: string, patch: LanguagePatch)
    | AddLanguage(language: AddLanguageData)
    | AddTaxonomy(taxonomy: Json)
    | AddContentTypeSnippet(snippet: Json)
    | AddContentType(contentType: Json)
    | UpdateWorkflow(byCodename: string, workflow: Json)
    | AddWorkflow(workflow: Json)
    | UploadBinaryFile(binaryData: ZipService.Entry, mimeType: Option<Json>, filename: Option<Json>)
    | AddAsset(asset: Json)
    | AddContentItem(item: Json)
    | UpsertLanguageVariant(itemCodename: Json, languageCodename: Json, variant: Json)
    | PublishLanguageVariant(itemCodename: Json, languageCodename: Json)
    | ChangeWorkflowOfLanguageVariant(itemCodename: Json, languageCodename: Json, stepCodename: Option<Json>, workflowCodename: Option<Json>)
    | ChangeWorkflowStepOfLanguageVariant(itemCodename: Json, languageCodename: Json, workflowStepId: string)

  /**
   * What a call answers with, as far as the service reads it: the new object's id (for a
   * variant, its item's id), the created folder trees, or the listed languages.
   */
  datatype Response = Response(id: string, folders: seq<Folder>, languages: seq<LanguageModel>)

  /**
   * What the import throws. `TypeError` is JavaScript's own, raised where the code reads or
   * writes `property` of `undefined` or `null`, writes it on a primitive, calls it as a
   * missing method, or iterates over it when it is not an array. `Rethrown` is the new
   * `Error` the older service's `handleImportError` throws in place of what it caught.
   */
  datatype ImportError =
    | ApiFailure(thrown: GlobalHelper.Thrown)
    | DefaultLanguageNotFound(languageId: Option<Json>)
    | DefaultLanguageMismatch(sourceCodename: Option<Json>, targetCodename: string)
    | UnsetFallbackCodename(languageName: Option<Json>)
    | UnsetTypeCodename(itemCodename: Option<Json>)
    | MissingBinaryFile(assetId: Option<Json>)
    | MissingFolder(message: string)
    | MissingItemCodename(itemId: Option<Json>)
    | MissingLanguageCodename(itemCodename: Option<Json>)
    | MissingWorkflowStepCodename(forItem: Json)
    | MissingWorkflow(workflowCodename: Option<Json>)
    | InvalidWorkflowData(forItem: Json)
    | NotSupportedType(itemType: string)
    | TypeError(property: string)
    | Rethrown(cause: ImportError)

  /**
   * The management client: every call is logged, and the target project answers it, or
   * fails, as a function of the calls made before and the call itself.
   */
  class Client {
    var log: seq<Call>
    const respond: (seq<Call>, Call) -> Result<Response, GlobalHelper.ApiError>

    constructor(respond: (seq<Call>, Call) -> Result<Response, GlobalHelper.ApiError>)
      ensures this.respond == respond && log == []
    {
      this.respond := respond;
      log := [];
    }

    /** Sends `c`: the call joins the log, and the answer is the project's. */
    method Send(c: Call) returns (r: Result<Response, GlobalHelper.ApiError>)
      modifies this
      ensures log == old(log) + [c]
      ensures r == respond(old(log), c)
    {
      r := respond(log, c);
      log := log + [c];
    }
  }

  /** `obj.a.b` on a contract, with a missing step read as `undefined`. */
  function Field2(j: Json, a: string, b: string): Option<Json> {
    if Field(j, a).Some? then Field(Field(j, a).value, b) else None
  }

  /** A value whose properties can be read: anything but `undefined` and `null`. */
  predicate Readable(o: Option<Json>) {
    o.Some? && !o.value.JNull?
  }

  /** `o.k` where `o` may be `undefined` or `null`: reading a property of either throws. */
  function Read(o: Option<Json>, k: string): (r: Result<Option<Json>, ImportError>)
    ensures r.Fail? <==> !Readable(o)
    ensures r.Fail? ==> r.error == TypeError(k)
    ensures r.Ok? ==> r.value == Field(o.value, k)
  {
    if Readable(o) then Ok(Field(o.value, k)) else Fail(TypeError(k))
  }
}
