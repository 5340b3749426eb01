# Restore pipeline of the Kontent.ai backup manager, in Dafny

This project models the restore side of `kontent-ai-bot/backup-manager-js`. A backup of a
headless-CMS project is a set of exported JSON documents plus the binary files of its
assets. Restoring it into another project means three things. The references between the
documents are rewritten from ids to external ids and codenames. The items are sent to the
management API in an order that respects their dependencies. The ids the target project
hands back are then substituted for the old ones. The repository carries two snapshots of
this pipeline: the newer one under `lib/` and the older one under `src/`. Both are modelled,
and where both have the same logic it is defined once.

What is modelled, module by module:

- `Json`, `JsonWalk`, `CodenameWalk`: JSON values with objects as key-ordered lists. The
  module also models JavaScript truthiness, `toLowerCase`, property reads, writes and
  `delete`. On top of that it states the rule each tree rewrite applies to one object,
  lifted to whole trees (`Walked`). It also defines the id–codename pairings a document
  offers to the codename search (`Witness`).
- `TranslationHelper` (newer) and `CodenameTranslateHelper` (older): the in-place tree walks.
  - `replaceIdReferencesWithExternalId`.
  - `replaceIdReferencesWithCodenames`, with its default-id hint.
  - `tryFindCodenameForId`, with and without its codename cache.
  - `extractReferencedCodenames`.

  These are methods with loops over the keys of each object. The search root aliases the
  tree being rewritten. The model keeps that aliasing: the search always looks at the
  whole document as rewritten so far, through a zipper (`Ctx`/`Plug`).
- `IdTranslateHelper`: `replaceIdReferencesWithNewId` and `tryFindNewId`. Old ids become
  the ids the target project gave, taken from the first matching import record.
- `ImportHelper`: the older import's preparation.
  - `flattenExportData`.
  - `getDependenciesOfItem`.
  - The comparator of `orderItemsByDeps`. It is not antisymmetric, so the order the
    JavaScript sort settles on is a parameter, and the result is proved a permutation.
  - `prepareImportData`.
- `GlobalHelper`: `getFilenameWithoutExtension` from both snapshots, and `handleError`,
  which never returns normally.
- `ZipService`: the layout of the backup archive.
  - The asset path `files/<first three characters of the id>/<id>/<file name>`.
  - The output type.
  - `createZipAsync`, as a loop over the downloaded binaries.
  - `extractZipAsync`, `extractBinaryFilesAsync` and `readAndParseJsonFile`, which read
    each binary back under the very path the writer used.
- `AssetFolderHelper`: the folder helpers both services share.
  - `setExternalIdForFolders`.
  - The two pre-order flattenings.
  - The match of created folders with their originals by external id.
  - `mapAssetFolder`, which keeps the shape of the tree.
- `AssetImportRules`: the binary-size ceiling and `getAddAssetModel`.
- `SkipFilter`: `removeSkippedItemsFromImport`.
- `LibLanguageRules`: `fixLanguageAsync` and `tryGetLanguage`.
- `LibWorkflowRules`: the role and id clearing of `importWorkflowsAsync`, and its choice
  between update and add.
- `LibVariantRules`: the variant upsert, the workflow-step pass, and the move to a
  configured step.
- `ImportModels`: the management client, as an object that logs every call it is given
  and answers as a function of the calls made before. An answer can be a refusal.
- `LibImportPhases`, `LibImportLanguages`, `LibImportAssets`, `LibTranslateIds`,
  `LibImportService`: the newer `importAsync`. The model covers:
  - the filter;
  - `translateIds`, with its nine rewrites in order;
  - the eleven phases in their fixed order. The first eight are each skipped when their list is empty. The variants always run. Their workflow steps run only when `preserveWorkflow` is set, and the move only when a workflow id for the imported items is configured.

  A run is described by an `Outcome`: the calls it sent, the import records it kept, the
  binary files it reported and what it threw. Each phase is a method against the client,
  proved equal to a function of the client's answers. The properties are proved about
  that function:
  - calls go in import order;
  - nothing is sent after a refusal;
  - a skipped phase sends nothing.
- `SrcImportService`: the older `importAsync`. The folders are sent in one call, and then
  every ordered item is dispatched by its type against all the records made before it.
  - Its language data agrees with the newer `tryGetLanguage`.
  - Its variant upsert sends only the translated elements. The configured step id it
    writes into the variant is recorded but never reaches the API.

Throughout, a refused call ends the run. `handleError` and the older
`handleImportError` always throw, so there is no "continue on error" path.

## Model

| member | source | states |
|---|---|---|
| GlobalHelper.Split | lib/core/global-helper.ts:27 | `split('.')` gives at least one piece, and no piece contains the separator |
| GlobalHelper.JoinSplit | lib/core/global-helper.ts:27 | joining the pieces of a split with the separator gives the original string back |
| GlobalHelper.GetFilenameWithoutExtension | lib/core/global-helper.ts:18-28 | fails with "Invalid filename" exactly when the name is empty; a name without `'.'` comes back unchanged (`src/core/global-helper.ts` has the same function) |
| GlobalHelper.DropsLastSegment | lib/core/global-helper.ts:27 | for a name with a `'.'`, the result, a dot and a dot-free last segment make up the name, and the result is strictly shorter |
| GlobalHelper.HandleError | lib/core/global-helper.ts:30-40 | never returns normally; a Kontent error becomes the summary record (prefixed message, error code, request id, validation messages joined by `", "`); any other error is thrown unchanged |
| GlobalHelper.HandleErrorMessage | lib/core/global-helper.ts:33 | the summary message is the fixed prefix followed by the API's own message |
| CoreModels.TryFindNewId | src/core/id-translate-helper.ts:35-41 | a found id is the `importId` of a result whose `originalId` is the given id; when no result has that `originalId`, nothing is found |
| CoreModels.TryFindNewIdFirst | src/core/id-translate-helper.ts:39 | the first result with a matching `originalId` decides, whatever follows it |
| CoreModels.TryFindNewIdAppend | src/core/id-translate-helper.ts:39 | appending results never changes the answer for an id some earlier result already matches |
| IdTranslateHelper.ReplaceIdReferencesWithNewId | src/core/id-translate-helper.ts:5-33 | the walk leaves exactly `NewIds(data, items)`, the document the lemmas below describe |
| IdTranslateHelper.NewIdsInItems | src/core/id-translate-helper.ts:9-12 | the array loop translates every element, in order |
| IdTranslateHelper.NewIdsInFields | src/core/id-translate-helper.ts:14-30 | the key loop translates the `id` of the object and the value of every key except `"0"` |
| IdTranslateHelper.NewIdsOnlyChangeIds | src/core/id-translate-helper.ts:16-25 | only values stored under `id` change; the same keys stay in the same order, and scalar leaves are untouched |
| IdTranslateHelper.NewIdsNone | src/core/id-translate-helper.ts:22-24 | with an empty list of import results, the data comes back unchanged |
| IdTranslateHelper.LookupNewIds | src/core/id-translate-helper.ts:14-30 | reading a key of a translated object gives the translation of the value stored there, at any depth |
| IdTranslateHelper.IdTakesFirstMatch | src/core/id-translate-helper.ts:16-24 | an `id` becomes the truthy `importId` of the first result whose `originalId` it is; it stays as it was when that result has no `importId` |
| IdTranslateHelper.IdTranslation | src/core/id-translate-helper.ts:16-24 | the translated `id` read back is the first match's truthy new id, or else the old id; an id that no result names stays as it was |
| IdTranslateHelper.NewIdNotRetranslated | src/core/id-translate-helper.ts:17-24 | each `id` is looked up once: given results `a -> b` and `b -> c`, id `a` becomes `b`, not `c` |
| CodenameTranslateHelper.TryFindCodenameForId | src/core/codename-translate-helper.ts:64-88 | answers with a codename paired with `findId` by some object's own `id` (never `external_id`) beside a truthy codename, or with the answer given in; nothing is found exactly when there is no answer given in and no such object |
| CodenameTranslateHelper.FindInItems | src/core/codename-translate-helper.ts:66-69 | the array loop threads the answer through every element, with the same guarantee |
| CodenameTranslateHelper.FindInFields | src/core/codename-translate-helper.ts:71-84 | the key loop returns at the first own match and otherwise searches every object or array value |
| CodenameTranslateHelper.ReplaceIdReferencesWithCodenames | src/core/codename-translate-helper.ts:2-35 | each object with a falsy codename whose `id` is paired with a codename somewhere in the whole document loses its `id` and gets that codename; nothing else changes, at any depth; the rewrite neither adds nor removes a pairing, so later searches see the same answers |
| CodenameTranslateHelper.CodenamesInItems | src/core/codename-translate-helper.ts:4-7 | every array element is rewritten by the same rule |
| CodenameTranslateHelper.CodenamesInFields | src/core/codename-translate-helper.ts:9-32 | the key loop rewrites the object's own `id` and every nested object or array |
| CodenameTranslateHelper.CodenameAtId | src/core/codename-translate-helper.ts:11-26 | the visit of the `id` key: found means the `id` is deleted and the codename set; not found, or a truthy codename already, means the object is unchanged |
| CodenameTranslateHelper.ExtractReferencedCodenames | src/core/codename-translate-helper.ts:37-62 | appends only codenames not already present, keeps the earlier entries, and when done holds exactly the earlier entries plus the truthy codenames of objects with no truthy `id` |
| CodenameTranslateHelper.ExtractInItems | src/core/codename-translate-helper.ts:39-42 | the array loop extracts from every element, with the same guarantee |
| CodenameTranslateHelper.ExtractInFields | src/core/codename-translate-helper.ts:44-59 | the key loop adds the object's own codename once, then extracts from every nested object or array |
| ImportHelper.FlattenExportData | src/import/import.helper.ts:58-85 | all taxonomies, then all snippets, then all content types, each wrapped with its own codename, empty `deps` and its kind; the length is the sum of the three list lengths |
| ImportHelper.Without | src/import/import.helper.ts:53 | `filter(m => m !== codename)` keeps every other element and drops the item's own codename; it adds no duplicates |
| ImportHelper.RefersWrapper | src/import/import.helper.ts:50 | the wrapper the extraction walks refers to its own codename and to what the contract refers to, and to nothing else |
| ImportHelper.GetDependenciesOfItem | src/import/import.helper.ts:43-56 | the dependencies have no duplicates, are never the item's own codename, and are exactly the codenames of objects inside the contract that have a truthy codename and no truthy id |
| ImportHelper.Compare | src/import/import.helper.ts:27-38 | the comparator returns 0 exactly for equal codenames, 1 exactly when `a.deps` holds `b`'s codename, and -1 otherwise |
| ImportHelper.CompareNotAntisymmetric | src/import/import.helper.ts:27-38 | two unrelated items each compare below the other, so the comparator is not an order |
| ImportHelper.CompareResolved | src/import/import.helper.ts:22-38 | after the dependency loop, `a` sorts after `b` exactly when `a`'s contract refers to `b` or `a` already listed `b` |
| ImportHelper.ArrangementPermutes | src/import/import.helper.ts:27 | any arrangement of all positions is a permutation of the items |
| ImportHelper.OrderItemsByDeps | src/import/import.helper.ts:21-41 | every item gets its dependencies appended; the sorted list is the given arrangement of them, and so a permutation |
| ImportHelper.WalkedKeepsShape | src/import/import.helper.ts:8-9 | rewriting ids to codenames keeps the three lists, their lengths and each contract's codename |
| ImportHelper.PrepareImportData | src/import/import.helper.ts:6-19 | ids of the whole export are translated first, with the export as the document searched; then the translated contracts are flattened and ordered, giving a permutation of the flattened items with their dependencies appended |
| ZipService.DelayBetweenAssetRequestsMs | lib/zip/zip.service.ts:26-28 | the configured delay when there is one, 150 ms otherwise |
| ZipService.GetZipOutputType | lib/zip/zip.service.ts:156-166 | `'browser'` gives a blob and `'node.js'` a node buffer, each exactly for that context; any other context fails with "Unsupported context '…'" |
| ZipService.ShortId | lib/zip/zip.service.ts:95 | `substr(0, 3)`: the first three characters, or the whole id when it is shorter |
| ZipService.FullAssetPathSpelled | lib/zip/zip.service.ts:168-174 | the path is `"files/" + first three characters + "/" + id + "/" + file name`, as in the documented example |
| ZipService.FullAssetPathInjective | lib/zip/zip.service.ts:172-174 | for ids without a slash, different (id, file name) pairs get different paths |
| ZipService.AssetPathNotDocument | lib/zip/zip.service.ts:72-84 | an asset path lies under `files/` and never coincides with a document's name |
| ZipService.DocumentEntries | lib/zip/zip.service.ts:72-82 | the writer adds exactly the eleven named documents |
| ZipService.FixUrl | lib/zip/zip.service.ts:191 | a URL without `#` is kept as it is |
| ZipService.FixUrlOnce | lib/zip/zip.service.ts:191 | `replace('#', '%23')` encodes only the first `#`: `"a#b#c"` becomes `"a%23b#c"` |
| ZipService.CreateZipAsync | lib/zip/zip.service.ts:65-129 | succeeds exactly when every asset's download succeeds and the context is supported; the archive then holds the documents plus each asset's binary at its path, added in asset order |
| ZipService.AddDownloadedAssets | lib/zip/zip.service.ts:94-116 | the asset loop fails exactly when some download fails; otherwise it writes each downloaded binary at its asset's path, in order |
| ZipService.AddAssetsAt | lib/zip/zip.service.ts:94-112 | an asset that no later asset shares a path with keeps its own binary in the archive |
| ZipService.AddAssetsElsewhere | lib/zip/zip.service.ts:94-112 | a path that belongs to no asset keeps what was written there before |
| ZipService.WrittenArchive | lib/zip/zip.service.ts:72-112 | every document stays under its name; when no two assets share a path, every asset's binary is under `getFullAssetPath` of it, the path the reader looks up |
| ZipService.ReadAndParseJsonFile | lib/zip/zip.service.ts:176-187 | a missing entry fails with "Invalid file '…'"; a document entry gives its parsed value |
| ZipService.ExtractBinaryFilesAsync | lib/zip/zip.service.ts:135-154 | succeeds exactly when every asset's path is in the archive (and the context is supported); it then gives one binary file per asset, in asset order, read from `getFullAssetPath(asset.id, asset.file_name)` |
| ZipService.ExtractZipAsync | lib/zip/zip.service.ts:30-63 | succeeds only when every document is there, and then returns each document under its field (the workflows under `workflowSteps`) and one binary file per listed asset |
| AssetFolderHelper.PreOrderOf | lib/import/import.service.ts:1153-1158 | a folder's pre-order starts with the folder itself |
| AssetFolderHelper.PreOrderConcat | lib/import/import.service.ts:1153-1158 | flattening two forests one after the other gives their flattenings one after the other |
| AssetFolderHelper.PreOrderAllNodes | lib/import/import.service.ts:1149-1160 | the flattened forest holds exactly the folders of its trees, at every depth |
| AssetFolderHelper.Stamp | lib/import/import.service.ts:1112-1120 | a stamped folder keeps its id and name, gets `external_id = id`, and keeps the number of subfolders |
| AssetFolderHelper.SetExternalIdForFolders | lib/import/import.service.ts:1112-1120 | the loop leaves every folder at every depth stamped (`StampAll`); `src/import/import.service.ts:440-449` is the same helper |
| AssetFolderHelper.StampKeepsTree | lib/import/import.service.ts:1114 | stamping changes only external ids; ids, names and the tree's shape stay |
| AssetFolderHelper.PreOrderStampAll | lib/import/import.service.ts:1112-1160 | flattening the stamped forest gives, position by position, the stamped flattened forest |
| AssetFolderHelper.FlattenAssetFolderContracts | lib/import/import.service.ts:1149-1160 | appends the pre-order of the forest to what `flattened` already held (`src/import/import.service.ts:477-488` is the same) |
| AssetFolderHelper.FindOriginal | lib/import/import.service.ts:1128 | finds nothing exactly when no original has the external id; a found folder is the first original with that external id |
| AssetFolderHelper.Record | lib/import/import.service.ts:1136-1141 | a folder's record has the created folder's id as `importId`, and the matched original, with the same external id, as `original`; the original's id is the `originalId` |
| AssetFolderHelper.RecordsConcat | lib/import/import.service.ts:1127-1146 | the records of two flattened parts are the records of each, in order |
| AssetFolderHelper.FlattenAssetFolders | lib/import/import.service.ts:1122-1147 | succeeds exactly when every created folder, in pre-order, has an original; it then appends their records in pre-order; otherwise it fails with the message for the first folder without one (`src/import/import.service.ts:450-475` is the same) |
| AssetFolderHelper.FlattenFolder | lib/import/import.service.ts:1128-1145 | one round of the loop: the folder's own record, then those of its subfolders, or the first miss among them |
| AssetFolderHelper.MapAssetFolder | lib/import/import.service.ts:1162-1170 | the request keeps the folder's name, external id and number of subfolders |
| AssetFolderHelper.MapAssetFolderKeepsTree | lib/import/import.service.ts:1162-1170 | mapping loses only ids: the shape, names and external ids survive at every depth (`src/import/import.service.ts:490-498` is the same) |
| AssetFolderHelper.StampedFoldersMatch | lib/import/import.service.ts:598-618 | when every created folder's external id is the id of some exported folder, each one finds its original in the stamped flattened export, and its record maps that exported id to the new id |
| AssetImportRules.FindBinaryFile | lib/import/import.service.ts:534 | finds nothing exactly when no file's asset has the asset's id; a found file is the first such file |
| AssetImportRules.BinaryToUpload | lib/import/import.service.ts:533-553 | an asset without a binary file fails with a missing-binary error; a file with `size >= 1e8` is reported as unsupported and uploaded as empty data; any other file is uploaded as it is |
| AssetImportRules.SrcBinaryToUpload | src/import/import.service.ts:138-147 | the older service fails exactly when the binary file is missing, and otherwise uploads the file's data as it is: there is no size ceiling |
| AssetImportRules.Present | lib/import/import.service.ts:1095-1104 | an object-literal property whose value is `undefined` is not sent |
| AssetImportRules.GetAddAssetModel | lib/import/import.service.ts:1090-1110 | fails with a `TypeError` exactly when the contract has no `file_reference`; otherwise it gives an object (`src/import/import.service.ts:418-438` is the same) |
| AssetImportRules.AddAssetModelProperties | lib/import/import.service.ts:1095-1107 | the new asset has exactly `file_reference` and those of descriptions, external id, folder and title that the contract has; each copied property is the contract's, with its ids translated |
| AssetImportRules.AddAssetModelFileReference | lib/import/import.service.ts:1097-1100 | the file reference names the uploaded file by the id the upload answered with, unless an import result maps that id, and it keeps the contract's reference type |
| AssetImportRules.AddAssetModelFolder | lib/import/import.service.ts:1102-1107 | a folder referenced by id ends up naming that folder's new id once the folder has an import result |
| AssetImportRules.SharedWithAddAssetModel | lib/import/import.service.ts:1095-1107 | the asset contract after `getAddAssetModel` is still an object exactly when it was one |
| AssetImportRules.LookupSharedFields | lib/import/import.service.ts:1095-1107 | a property of the contract after `getAddAssetModel` is the contract's own, with its ids translated when it is `descriptions` or `folder`, the two the model shares |
| AssetImportRules.SharedWithAddAssetModelFields | lib/import/import.service.ts:1095-1107 | the contract and the add-asset model agree on `descriptions` and `folder`, the two values they share, each present in one exactly when in the other; every other property of the contract, its id included, is unchanged |
| SkipFilter.Survivors | lib/import/import.service.ts:276 | the kept items are, in order, exactly the items that clash with no rejected item, and there are no more of them than before |
| SkipFilter.Rejected | lib/import/import.service.ts:273-275 | exactly the items `canImport` turns down |
| SkipFilter.SurvivorsSnoc | lib/import/import.service.ts:273-278 | filtering by one more rejected item, after the earlier ones, is filtering by all of them at once |
| SkipFilter.RemoveRejected | lib/import/import.service.ts:273-278 | one kind's loop runs over the original list; for each item turned down it keeps what does not clash with it; the result is `Survivors` of all the rejected items |
| SkipFilter.SurvivorsNone | lib/import/import.service.ts:276 | with nothing rejected the list stays as it is |
| SkipFilter.SurvivorsAccepted | lib/import/import.service.ts:273-278 | every surviving item was accepted by `canImport` (both id comparisons are reflexive) |
| SkipFilter.SurvivorsAllAccepted | lib/import/import.service.ts:273-278 | a predicate that accepts everything removes nothing |
| SkipFilter.SurvivorsInOrder | lib/import/import.service.ts:276 | the survivors keep their relative order: a subsequence of the list |
| SkipFilter.VariantFilterDropsSiblings | lib/import/import.service.ts:341-343 | as written, turning down the variant of item `a` in `l1` also removes the accepted variant of item `a` in `l2`; the intended same-item-and-language filter keeps it |
| SkipFilter.VariantFilterKeeps | lib/import/import.service.ts:337-346 | with the intended clash, a variant goes exactly when it is turned down itself, or shares both item and language with one that is |
| SkipFilter.FilterKind | lib/import/import.service.ts:272-279 | a kind without a predicate stays as it is; a kind with one loses its rejected items and everything that clashes with them |
| SkipFilter.FilterFolders | lib/import/import.service.ts:299-306 | the asset folders without a predicate stay as they are; with one they lose the rejected folders and every folder sharing an id with one |
| SkipFilter.VariantFilterAsWrittenKeeps | lib/import/import.service.ts:337-346 | as written, a variant stays exactly when it differs in both item and language from every variant turned down |
| SkipFilter.FilterSource | lib/import/import.service.ts:271-356 | without `canImport` the source is unchanged; otherwise each of the nine kinds is filtered by its own predicate, if it has one, the variants by the given clash, and the binary files are untouched |
| SkipFilter.RemoveSkippedItemsFromImport | lib/import/import.service.ts:271-356 | without `canImport` the source is unchanged; otherwise each of the nine kinds is filtered by its own predicate, if it has one, and the binary files are untouched; as written, a variant is kept exactly when it differs in both item and language from every rejected variant |
| SkipFilter.RemoveSkippedItemsFromImportIntended | lib/import/import.service.ts:337-346 | the corrected filter: a variant is kept exactly when no rejected variant has both its item and its language; every other kind is filtered as written |
| LibLanguageRules.FindLanguage | lib/import/import.service.ts:363 | `find` gives the first language satisfying the predicate, and nothing exactly when none does |
| LibLanguageRules.ExistingIffTaken | lib/import/import.service.ts:437 | a target language is found by codename exactly when some target language has the export language's codename |
| LibLanguageRules.FallbackCodename | lib/import/import.service.ts:462 | reading the fallback's codename throws exactly when the fallback language is missing or `null` |
| LibLanguageRules.TryGetLanguage | lib/import/import.service.ts:432-478 | `'noImport'` exactly when the codename is taken; a default-language codename mismatch throws exactly when the codename is free and the target's default language has another codename; a missing fallback codename throws; otherwise the data is the language's own, falling back to `{id: defaultLanguageId}` exactly when it names itself, and otherwise to `{codename}` of another language |
| LibLanguageRules.FixLanguage | lib/import/import.service.ts:358-430 | at most two modifications: an activation of the language found by codename exactly when it is inactive; then, for a default language, a rename of the target's same-id language to the export codename exactly when the codenames differ and no target language has that codename; it throws exactly when a default language has no same-id target, and only after the activation |
| LibLanguageRules.Modified | lib/import/import.service.ts:374-384 | a modification keeps the number of target languages |
| LibLanguageRules.ActivationKeepsCodenames | lib/import/import.service.ts:377-383 | an activation renames nothing |
| LibLanguageRules.FixedDefaultLanguageIsNotImported | lib/import/import.service.ts:389-429 | once the target carries out the fix's modifications, a default language that the fix did not refuse is found by codename, so `tryGetLanguage` skips it |
| LibLanguageRules.KeepsCodename | lib/import/import.service.ts:374-384 | modifications that are all activations keep every language's codename |
| LibLanguageRules.FixedLanguageIsActive | lib/import/import.service.ts:363-386 | once the target carries out the fix's modifications, the target language with the export language's codename is active |
| LibLanguageRules.ActivationPlan | lib/import/import.service.ts:365-385 | for a non-default language that the target already has, the fix sends the activation alone, and only when the language is inactive |
| LibWorkflowRules.SetProp | lib/import/import.service.ts:1017-1021 | `o.k = v`: an object gets the property and keeps every other; an array reads the same; `undefined`, `null` or a primitive throws a `TypeError` on `k` |
| LibWorkflowRules.UnsetProp | lib/import/import.service.ts:1027-1036 | `o.k = undefined`: an object loses the property and keeps every other; an array reads the same; anything else throws |
| LibWorkflowRules.Touch | lib/import/import.service.ts:1019-1021 | `j.k.… = …` fails exactly when the update of `j.k` does, and otherwise leaves `j` holding the updated value |
| LibWorkflowRules.MapAll | lib/import/import.service.ts:1016-1018 | every element updated in order; succeeds exactly when each update does, and otherwise throws what the first failing element throws |
| LibWorkflowRules.EachItem | lib/import/import.service.ts:1016 | `for … of` on anything but an array throws; on an array it updates each element |
| LibWorkflowRules.IsDefaultWorkflow | lib/import/import.service.ts:1024 | throws exactly when the codename is not a string; otherwise it is true exactly when the codename is `default` in any letter case |
| LibWorkflowRules.WorkflowCall | lib/import/import.service.ts:1014-1068 | a workflow always leads to an update or an add |
| LibWorkflowRules.ClearRolesField | lib/import/import.service.ts:1016-1021 | role clearing rewrites `steps`, `archived_step` and `published_step` only; every other property is as exported |
| LibWorkflowRules.ClearRolesClears | lib/import/import.service.ts:1016-1021 | role clearing empties every step's role ids, the archived step's role ids, and both role lists of the published step; the number of steps stays |
| LibWorkflowRules.ClearedStepIds | lib/import/import.service.ts:1026-1032 | a default-workflow step ends without an id, and each of its transitions names no step id |
| LibWorkflowRules.ClearIdsField | lib/import/import.service.ts:1026-1036 | the id clearing rewrites `steps` and the archived, published and scheduled steps only |
| LibWorkflowRules.ClearIdsTop | lib/import/import.service.ts:1034-1036 | the archived, published and scheduled steps lose their id and keep every other property |
| LibWorkflowRules.ClearIdsClears | lib/import/import.service.ts:1026-1036 | the id clearing removes every id the default workflow must not send, keeps the roles cleared, and keeps the number of steps and the other properties |
| LibWorkflowRules.WorkflowCallErrors | lib/import/import.service.ts:1014-1036 | everything the preparation of a workflow throws is one of JavaScript's type errors |
| LibWorkflowRules.WorkflowCallProperties | lib/import/import.service.ts:1014-1068 | every workflow is sent with its role lists empty; the one whose codename is `default`, in any case, is updated under its own codename with its ids cleared; any other is added with its steps and other properties as exported |
| LibWorkflowRules.MapAllFirstFailure | lib/import/import.service.ts:1016-1018 | the first element that fails decides what the loop throws |
| LibWorkflowRules.UpdateEach | lib/import/import.service.ts:1016-1018 | the loop applies the update to each element in turn and stops at the first that throws: it computes `MapAll` |
| LibWorkflowRules.UpdateEachItem | lib/import/import.service.ts:1016 | the loop over an array property computes `EachItem` |
| LibWorkflowRules.ClearWorkflowRoles | lib/import/import.service.ts:1016-1021 | the role clearing with its step loop computes `ClearRoles`, and its result has every role list empty |
| LibWorkflowRules.ClearWorkflowStepIds | lib/import/import.service.ts:1027-1031 | the id clearing of one step with its transition loop computes `ClearStepIds` |
| LibWorkflowRules.ClearWorkflowIds | lib/import/import.service.ts:1026-1036 | the id clearing with its step loop computes `ClearIds`, and its result has every id the default workflow must not send removed |
| LibWorkflowRules.PrepareWorkflow | lib/import/import.service.ts:1014-1068 | the preparation with its loops computes `WorkflowCall` |
| LibVariantRules.Scan | lib/import/import.service.ts:799-805 | the search finds an element the test holds of; it finds none exactly when the test is false of every element; what it throws, some element's test throws |
| LibVariantRules.ScanFound | lib/import/import.service.ts:799-805 | the first element the test holds of, with the test false of all before it, is what the search returns |
| LibVariantRules.ScanThrows | lib/import/import.service.ts:799-805 | the first element whose test throws, with the test false of all before it, decides what the search throws |
| LibVariantRules.ScanLoop | lib/import/import.service.ts:799-805 | the `for … of` loop that returns at the first match computes `Scan` |
| LibVariantRules.Read2 | lib/import/import.service.ts:716-718 | `o.a.b` reads the nested property when it succeeds; reading a property of `undefined` or `null` throws a `TypeError` |
| LibVariantRules.SameLower | lib/import/import.service.ts:832 | the case-insensitive comparison is true exactly when both codenames are strings equal up to letter case; what it throws is a type error |
| LibVariantRules.WorkflowSteps | lib/import/import.service.ts:831 | the step loop iterates exactly the workflow's `steps` array; anything but an array throws |
| LibVariantRules.PublishedStepIs | lib/import/import.service.ts:800 | true exactly when the workflow's published step has the variant's step codename |
| LibVariantRules.ArchivedStepIs | lib/import/import.service.ts:813 | true exactly when the workflow's archived step has the variant's step codename |
| LibVariantRules.StepMatches | lib/import/import.service.ts:832 | true exactly when the step's codename equals the variant's step codename up to letter case |
| LibVariantRules.HasMatchingStep | lib/import/import.service.ts:831-838 | true exactly when some step of the workflow has the codename up to letter case |
| LibVariantRules.WorkflowNamed | lib/import/import.service.ts:849 | true only when the workflow's codename equals, up to letter case, the codename of the workflow the variant names |
| LibVariantRules.IsPublished | lib/import/import.service.ts:795-806 | `isLanguageVariantPublished` is true exactly when some workflow's published step has the variant's step codename |
| LibVariantRules.IsArchived | lib/import/import.service.ts:808-819 | `isLanguageVariantArchived` is true exactly when some workflow's archived step has the variant's step codename |
| LibVariantRules.GetWorkflowAndStep | lib/import/import.service.ts:821-842 | the found pair is the first workflow, in order, with a step matching the codename up to letter case, and its first such step; `undefined` exactly when no step of any workflow matches |
| LibVariantRules.GetWorkflow | lib/import/import.service.ts:844-857 | the workflow found is the first whose codename matches the variant's workflow up to letter case; no match throws `Missing workflow` |
| LibVariantRules.FindWorkflowAndStep | lib/import/import.service.ts:821-842 | the two nested loops compute `GetWorkflowAndStep` |
| LibVariantRules.StepCall | lib/import/import.service.ts:715-791 | every variant leads to a publish or a change of workflow |
| LibVariantRules.RestoreStep | lib/import/import.service.ts:731-791 | a published variant is published; an archived one is moved to the archived step of its workflow; any other is moved to the first step matching by codename, and is refused as invalid only when there is none |
| LibVariantRules.ArchiveCall | lib/import/import.service.ts:746-759 | the archive moves the variant to the archived step of the workflow `getWorkflow` finds, under that workflow's codename |
| LibVariantRules.ChangeStepCall | lib/import/import.service.ts:766-781 | the move names the step and workflow `getWorkflowAndStepOfLanguageVariant` finds; none found is `Invalid workflow data` |
| LibVariantRules.SetWorkflowStep | lib/import/import.service.ts:715-791 | the per-variant code with its lookup loops computes `StepCall` |
| LibVariantRules.StepCallChecked | lib/import/import.service.ts:716-729 | a call is made only once the item, language and step codenames are read and all set |
| LibVariantRules.StepCallCodenames | lib/import/import.service.ts:735-738 | the call names the variant by its item and language codenames |
| LibVariantRules.StepCallPublishes | lib/import/import.service.ts:731-745 | a variant is published exactly when some workflow's published step has its step codename |
| LibVariantRules.StepCallArchives | lib/import/import.service.ts:745-764 | a variant in an archived step, and in no published one, is moved to the archived step of the first workflow named as its own up to letter case |
| LibVariantRules.StepCallRestores | lib/import/import.service.ts:765-791 | any other variant is moved to the first step, of the first workflow, whose codename equals its step codename up to letter case |
| LibVariantRules.StepCallInvalid | lib/import/import.service.ts:766-769 | a variant is refused as invalid only when it is neither published nor archived and no workflow has a step with its codename |
| LibVariantRules.StepCallMissingCodenames | lib/import/import.service.ts:720-729 | the checks come in order: a missing item codename first, then a missing language codename, then a missing step codename |
| LibVariantRules.FirstStep | lib/import/import.service.ts:930 | `workflow.steps[0]` is the first step of an array and nothing for an empty one; indexing `undefined` or `null` throws |
| LibVariantRules.CodenameRef | lib/import/import.service.ts:926-931 | the reference carries the codename it was built from |
| LibVariantRules.FirstStepCodename | lib/import/import.service.ts:930 | the first step's codename; a workflow with no steps throws on reading `codename` |
| LibVariantRules.UpsertTranslated | lib/import/import.service.ts:916-934 | the upsert names the workflow `getWorkflow` finds and that workflow's first step |
| LibVariantRules.LookupVariantData | lib/import/import.service.ts:923-933 | the upsert body holds exactly `elements` and `workflow` |
| LibVariantRules.UpsertCallChecked | lib/import/import.service.ts:902-914 | the upsert is made only for a variant with both codenames set, and sends its translation |
| LibVariantRules.UpsertCallPayload | lib/import/import.service.ts:913-933 | the upsert names the variant by its item and language codenames and sends exactly its elements, with ids translated by the results so far |
| LibVariantRules.UpsertCallWorkflow | lib/import/import.service.ts:920-933 | the variant starts in the first workflow named like its own, up to letter case, and in that workflow's first step |
| LibVariantRules.UpsertCallErrors | lib/import/import.service.ts:906-934 | a missing item codename is refused first, then a missing language codename; a workflow without steps throws on its first step |
| LibVariantRules.MoveCall | lib/import/import.service.ts:863-879 | the variant, named by its codenames, is moved to the configured step exactly when both codenames are readable and set; a missing item codename is refused before a missing language codename |
| LibImportPhases.OrderedThen | lib/import/import.service.ts:106-215 | two stretches in import order, the second no earlier than the first ends, are in import order together |
| LibImportPhases.FailureEndsThen | lib/import/import.service.ts:1074-1076 | a stretch that threw nothing, followed by one where a refused call ends the run, is again a run where a refused call ends it |
| LibImportPhases.FailureEndsNext | lib/import/import.service.ts:1074-1076 | the same for a second stretch that runs only when the first did not throw |
| LibImportPhases.FailureEndsNone | lib/import/import.service.ts:1074-1076 | a run that did not throw had every call it sent answered |
| LibImportPhases.Copy | lib/import/import.service.ts:963-968 | the object literal carries exactly the listed properties, each with the value `x` holds |
| LibImportPhases.SnippetCall | lib/import/import.service.ts:959-969 | a snippet is sent with exactly its elements, name, codename and external id; only `null` throws, on reading `elements` |
| LibImportPhases.TypeCall | lib/import/import.service.ts:638-649 | a content type is sent with exactly its elements, name, codename, content groups and external id; only `null` throws |
| LibImportPhases.ItemCall | lib/import/import.service.ts:674-690 | an item is refused exactly when it is `null`, its type is unreadable or its type codename is unset, the last as `unset type codename`; otherwise it is sent with its name, codename, external id and its type by codename |
| LibImportPhases.PrepareRank | lib/import/import.service.ts:106-215 | every call a loop prepares belongs to that loop's place in the import order |
| LibImportPhases.RunEachCalls | lib/import/import.service.ts:638-661 | each loop sends the prepared call of each element of a prefix of its list, and of all of them when it does not throw |
| LibImportPhases.RunEachError | lib/import/import.service.ts:674-679 | what a loop throws is the preparation error of the element after its last call, or the refusal of its last call rethrown by `handleError` |
| LibImportPhases.RunEachRank | lib/import/import.service.ts:106-215 | all of a loop's calls belong to its place in the import order |
| LibImportPhases.RunEachFailureEnds | lib/import/import.service.ts:1074-1076 | within a loop, a refused call is the last call sent, and the loop throws |
| LibImportPhases.SnippetsAndTypesNotRecorded | lib/import/import.service.ts:139-153 | snippets and content types never reach the import results, so no id is ever translated to theirs |
| LibImportPhases.RunEachRecords | lib/import/import.service.ts:986-1005 | a loop that has every call answered records one result per element, for the kinds that record, each with the element's own id and the id the answer gave |
| LibImportPhases.ThenAssoc | lib/import/import.service.ts:106-215 | running stretches one after another does not depend on how they are grouped |
| LibImportPhases.ImportEach | lib/import/import.service.ts:986-1005 | the loop against the client computes `RunEach` and leaves exactly its calls appended to the client's log |
| LibImportLanguages.SendRaw | lib/import/import.service.ts:374-384 | calls awaited without a `catch` send a prefix of the list, all of it when none is refused, and record nothing |
| LibImportLanguages.Decide | lib/import/import.service.ts:500-519 | the decision on one language sends at most one call, an addition, and reports nothing |
| LibImportLanguages.SendRawFailureEnds | lib/import/import.service.ts:410-420 | among calls sent without a `catch`, a refused call is the last one sent |
| LibImportLanguages.DecideShape | lib/import/import.service.ts:500-519 | the decision on a language sends only an addition, ends at a refusal, and records at most the exported language by its id |
| LibImportLanguages.FixAndRelistShape | lib/import/import.service.ts:493-498 | the fixes and the new listing send only language modifications and a listing, and end at a refusal |
| LibImportLanguages.TurnShapeThen | lib/import/import.service.ts:491-520 | the fixes followed by the decision keep the shape of a turn |
| LibImportLanguages.LanguageTurnShape | lib/import/import.service.ts:491-520 | one turn of the language loop sends language calls only, ends at a refusal and records at most its language |
| LibImportLanguages.LoopShapeThen | lib/import/import.service.ts:491-520 | one turn followed by the rest of the loop keeps the shape of the loop |
| LibImportLanguages.LanguagesFromShape | lib/import/import.service.ts:491-520 | the whole loop sends language calls only, ends at a refusal, and records only exported languages by their ids |
| LibImportLanguages.LanguagesRunShape | lib/import/import.service.ts:480-523 | `importLanguagesAsync` sends language calls only; a refused call is the last; every result records an exported language by its id; without `fixLanguages` it lists the languages once, first, and then only adds |
| LibImportLanguages.SendAll | lib/import/import.service.ts:374-384 | sending calls against the client computes `SendRaw` and appends exactly those calls to its log |
| LibImportLanguages.DecideLanguage | lib/import/import.service.ts:500-519 | the decision against the client computes `Decide` and appends exactly its calls |
| LibImportLanguages.FixAndRelistLanguages | lib/import/import.service.ts:493-498 | the fixes and the new listing against the client compute `FixAndRelist` and append exactly their calls |
| LibImportLanguages.ImportLanguage | lib/import/import.service.ts:491-520 | one turn against the client computes `LanguageTurn` and appends exactly its calls |
| LibImportLanguages.ImportLanguageAt | lib/import/import.service.ts:491-520 | one turn against the client is a step of `LanguagesFrom`: it ends the loop when it throws and otherwise leaves the rest of the loop to run |
| LibImportLanguages.ImportLanguages | lib/import/import.service.ts:480-523 | `importLanguagesAsync` against the client computes `LanguagesRun` and appends exactly its calls |
| LibImportAssets.FolderRequest | lib/import/import.service.ts:599-607 | the one folder call carries one tree per exported folder, each the mapped tree of the folder after its external ids are set to its ids |
| LibImportAssets.MissIndex | lib/import/import.service.ts:1127-1134 | the index found is that of the first created folder, in pre-order, without an original |
| LibImportAssets.FirstMissUnique | lib/import/import.service.ts:1127-1134 | there is only one first created folder without an original |
| LibImportAssets.FoldersRunShape | lib/import/import.service.ts:591-628 | the folder phase sends exactly its one call; once answered, it throws exactly when some created folder has no original, and otherwise records every created folder in pre-order under its new id, against the exported folder with the same external id |
| LibImportAssets.ImportAssetFolders | lib/import/import.service.ts:591-628 | the folder phase against the client computes `FoldersRun` and appends exactly its call |
| LibImportAssets.UploadedFileListed | lib/import/import.service.ts:533-540 | the file an asset is uploaded from is one of the exported binary files |
| LibImportAssets.CreateAssetShape | lib/import/import.service.ts:570-585 | the creation sends one asset call, rethrows a refusal, and when answered records the asset under its id, with the descriptions and folder it shares with the add-asset model translated |
| LibImportAssets.UploadAndCreateShape | lib/import/import.service.ts:540-585 | the upload and the creation send at most two asset calls, record at most the asset, with its shared descriptions and folder translated, and report a file only when a report is configured and the file is at or over the ceiling |
| LibImportAssets.AssetTurnShape | lib/import/import.service.ts:533-585 | one asset keeps that shape on every path, the missing binary file included; its record holds the asset with its shared descriptions and folder translated |
| LibImportAssets.AssetTurnCalls | lib/import/import.service.ts:555-574 | one asset sends the upload of the chosen data, with the asset's type and file name, and then the asset built by `getAddAssetModel` from the upload's answer |
| LibImportAssets.ReportedThen | lib/import/import.service.ts:541-553 | two runs of reports, each of listed files at or over the ceiling, are one such run |
| LibImportAssets.AssetsShapeThen | lib/import/import.service.ts:533-586 | one asset followed by the rest of the loop keeps the shape of the loop |
| LibImportAssets.AssetsShapeLast | lib/import/import.service.ts:533-586 | one asset that throws keeps the shape of the loop |
| LibImportAssets.AssetsRunShape | lib/import/import.service.ts:525-589 | the asset loop sends asset calls only, an upload and then a creation per asset; a refused call is the last; without a throw it records every asset, in order, by its id, each with its shared descriptions and folder translated; a binary file is reported only when a report is configured and only at or over the ceiling |
| LibImportAssets.SendCreateAsset | lib/import/import.service.ts:570-585 | the creation against the client computes `CreateAsset` and appends exactly its call |
| LibImportAssets.SendUploadAndCreate | lib/import/import.service.ts:540-585 | the upload and creation against the client compute `UploadAndCreate` and append exactly their calls |
| LibImportAssets.ImportAsset | lib/import/import.service.ts:533-585 | one asset against the client computes `AssetTurn` and appends exactly its calls |
| LibImportAssets.ImportAssetAt | lib/import/import.service.ts:533-586 | one asset against the client is a step of `AssetsRun` |
| LibImportAssets.ImportAssets | lib/import/import.service.ts:525-589 | `importAssetsAsync` against the client computes `AssetsRun` and appends exactly its calls |
| LibTranslateIds.With | lib/import/import.service.ts:233-268 | replacing one list of the import data leaves that list as given |
| LibTranslateIds.CleanDoc | lib/import/import.service.ts:225-268 | the import data as a document is well formed |
| LibTranslateIds.KindIndex | lib/import/import.service.ts:233-268 | each rewritten list sits at its own key of the document |
| LibTranslateIds.KindPlace | lib/import/import.service.ts:233-268 | rewriting a list in place inside the document gives the import data with that list replaced |
| LibTranslateIds.DocClean | lib/import/import.service.ts:225-268 | every list of the import data is well formed |
| LibTranslateIds.DefaultLanguageCodename | lib/import/import.service.ts:225 | what the hint lookup throws is a `TypeError` on `id` |
| LibTranslateIds.FindStop | lib/import/import.service.ts:225 | `find` stops at the first language that is null or has the default id, and passes none such before it |
| LibTranslateIds.DefaultLanguageCodenameFirst | lib/import/import.service.ts:225 | the hint is the codename of the first language with the default id when it is a string; a null met first throws; with neither there is no hint |
| LibTranslateIds.CodenamesOfKind | lib/import/import.service.ts:233-240 | the codename rewrite of one list changes that list only, rewrites it against the document as the rewrite goes, and only ever adds id-codename pairings |
| LibTranslateIds.ProjectedWeaken | lib/import/import.service.ts:243-254 | a projected rewrite stays one under a weaker mode |
| LibTranslateIds.FieldBefore | lib/import/import.service.ts:243-254 | inside the mapped array, the next variant's property sits where the rewrite reaches it |
| LibTranslateIds.FieldAfter | lib/import/import.service.ts:243-254 | rewriting the property of one more variant extends the loop's invariant by one |
| LibTranslateIds.FieldSkip | lib/import/import.service.ts:243-254 | a variant that is not an object, or has no such property, is left and extends the invariant |
| LibTranslateIds.CodenamesOfField | lib/import/import.service.ts:243-254 | the rewrite of `languageVariants.map((m) => m[key])` lands in the variants themselves: each variant has exactly that property rewritten and the rest left |
| LibTranslateIds.ExternalIds | lib/import/import.service.ts:227-230 | taxonomies, snippets and content types get external ids, and nothing else changes |
| LibTranslateIds.VariantField | lib/import/import.service.ts:243-254 | property `key` of every variant gets codenames, and nothing else changes |
| LibTranslateIds.VariantKeysOk | lib/import/import.service.ts:243-254 | `workflow` and `workflow_step` are keys the rewrite does not own |
| LibTranslateIds.FrontRewrites | lib/import/import.service.ts:227-240 | the rewrites before the variants' are applied in order and leave the variants as they were |
| LibTranslateIds.BackRewrites | lib/import/import.service.ts:242-268 | the variants' `workflow`, then `workflow_step`, then the rest of the variants, then the workflows are rewritten in that order with their hints |
| LibTranslateIds.Rewrites | lib/import/import.service.ts:227-268 | all nine rewrites of `translateIds` are applied in its order |
| LibTranslateIds.TranslateIds | lib/import/import.service.ts:224-269 | `translateIds` throws exactly when a null language comes before the default one, a `TypeError` on `id`, or when a variant is null, a `TypeError` on `workflow`; otherwise it applies all nine rewrites in order with the default language's codename as hint |
| LibTranslateIds.DefaultIdGetsHint | lib/import/import.service.ts:243-248 | the workflow pass turns a reference to the default id without a codename into one to the default workflow's codename, without id |
| LibTranslateIds.ResolvedStays | lib/import/import.service.ts:256-261 | a rewrite leaves the id and codename of an object whose codename is already set |
| LibTranslateIds.ChildWalked | lib/import/import.service.ts:256-261 | a rewrite continues into every key it does not own |
| LibTranslateIds.WorkflowPassResolves | lib/import/import.service.ts:243-248 | after the workflow pass, the variant's `workflow` names the default workflow by codename |
| LibTranslateIds.StepPassKeeps | lib/import/import.service.ts:249-254 | the step pass keeps that |
| LibTranslateIds.VariantPassKeeps | lib/import/import.service.ts:256-261 | the pass over the rest of the variants keeps that |
| LibTranslateIds.VariantWorkflowIsDefault | lib/import/import.service.ts:242-261 | a variant whose `workflow` refers to the default id without codename ends with the default workflow's codename there, and not the default language's, which shares that id |
| LibTranslateIds.BackResolves | lib/import/import.service.ts:242-268 | the variant and workflow passes together leave the variant's workflow resolved |
| LibTranslateIds.FrontKeepsVariants | lib/import/import.service.ts:227-240 | the rewrites before the variants' leave the variants as they were |
| LibImportService.Advance | lib/import/import.service.ts:106-215 | a phase that finished adds its results to `importedItems` |
| LibImportService.StageAt | lib/import/import.service.ts:106-215 | the phase at each place of the fixed order is the one of that place |
| LibImportService.PlanFromRanks | lib/import/import.service.ts:106-215 | from each place on, only phases that run are planned, strictly in the fixed order |
| LibImportService.PlanFromComplete | lib/import/import.service.ts:106-215 | from each place on, every phase that runs is planned |
| LibImportService.StageShape | lib/import/import.service.ts:106-215 | each phase sends calls of its own place only, and nothing after a refusal |
| LibImportService.OrderedBefore | lib/import/import.service.ts:106-215 | calls of an earlier place followed by calls of a later one are in import order |
| LibImportService.RunStagesShape | lib/import/import.service.ts:106-215 | phases run in the fixed order send their calls in import order, nothing after a refusal, and only calls of the phases planned |
| LibImportService.ImportRunShape | lib/import/import.service.ts:106-215 | the import sends calls in the fixed order (asset folders, languages, taxonomies, snippets, types, workflows, assets, items, variants, workflow steps, the move), nothing after a refused call, and calls of a kind only when that phase runs |
| LibImportService.ImportRunSkips | lib/import/import.service.ts:109-215 | a skipped kind sends nothing: no folder call without asset folders, no language call without languages, and so on; no publish or workflow change unless `preserveWorkflow` is set; no step change unless a target step is configured |
| LibImportService.ImportStage | lib/import/import.service.ts:106-215 | one phase against the client computes `RunStage` and appends exactly its calls |
| LibImportService.ImportStages | lib/import/import.service.ts:106-215 | the phases in order against the client compute `RunStages` and append exactly their calls |
| LibImportService.ImportFromSource | lib/import/import.service.ts:106-215 | the phases of the import against the client compute `ImportRun` |
| LibImportService.CleanKeep | lib/import/import.service.ts:271-356 | what the filter keeps of a well-formed list is well formed |
| LibImportService.CleanKept | lib/import/import.service.ts:271-356 | the filtered import data is well formed |
| LibImportService.ImportAsync | lib/import/import.service.ts:70-222 | `importAsync` removes the skipped items with the filter as written, variants included, translates the ids and runs the phases on what is left; when the translation throws, nothing is sent |
| SrcImportService.TurnOkThen | src/import/import.service.ts:401-404 | a stretch that threw nothing followed by a well-behaved stretch is well behaved: a refusal ends it and is rethrown |
| SrcImportService.TurnOkOne | src/import/import.service.ts:401-404 | a stretch of one call, which throws the rethrown refusal when refused, is well behaved |
| SrcImportService.SendTurnShape | src/import/import.service.ts:381-395 | one call is the only call made; answered, it records the contract under the new id; refused, `handleImportError` rethrows the refusal inside a new `Error` |
| SrcImportService.LanguageData | src/import/import.service.ts:97-116 | a `null` language throws on `fallback_language`; a missing fallback throws on `codename`; an unset fallback codename is refused; otherwise the language is added with its own codename, name, external id and activity, falling back to the zero id exactly when it names itself and to the named codename otherwise |
| SrcImportService.LanguageDataAsNewer | src/import/import.service.ts:97-116 | the older and the newer service add a language with the same data, whenever the newer one imports it, and whenever the older one does and the newer one is not stopped by the target's languages |
| SrcImportService.WithStep | src/import/import.service.ts:323 | writing the step id fails exactly when `workflow_step` is not an object or array, with a `TypeError` on `id`; otherwise every other property stays and the step's `id` is the configured one |
| SrcImportService.VariantCall | src/import/import.service.ts:308-330 | a variant is upserted exactly when both codenames are set and the step id can be written; an unset item codename is refused before an unset language codename; the call names the variant by its two codenames |
| SrcImportService.CodenamesSetObject | src/import/import.service.ts:309-310 | a variant whose codenames can be read is an object |
| SrcImportService.VariantTranslated | src/import/import.service.ts:319-340 | the upsert carries the translated elements and nothing else, so the configured step id never reaches the API and the call is the same whatever id is configured; the variant recorded holds its other properties translated and the configured id in its workflow step |
| SrcImportService.SrcAssetShape | src/import/import.service.ts:140-177 | one asset sends at most the upload and the creation, in that order; the upload is of the binary file found for the asset, unchanged, whatever its size; an asset without one throws before any call; an asset that does not throw is recorded once, under the created asset's id, with the descriptions and folder it shares with the add-asset model translated |
| SrcImportService.FolderOf | src/import/import.service.ts:183-194 | a folder read from its contract has the contract's id, name, external id and sub-folders; anything else fails on `folders` |
| SrcImportService.SrcFoldersRunShape | src/import/import.service.ts:183-221 | the folder phases of the two services send the same call and record the same folders; the older one wraps what it throws in a new `Error` |
| SrcImportService.SrcImportAssetFolders | src/import/import.service.ts:183-221 | the folder phase against the client computes `SrcFoldersRun` and appends exactly its call |
| SrcImportService.SendTurnKind | src/import/import.service.ts:381-395 | one call of type `t` keeps the per-item rules |
| SrcImportService.ContentItemKind | src/import/import.service.ts:72 | a content item sends only content-item calls, and a refusal ends it and is rethrown |
| SrcImportService.VariantKind | src/import/import.service.ts:73-74 | a variant sends only variant calls, under the same rule |
| SrcImportService.LanguageKind | src/import/import.service.ts:75-79 | a language sends only language calls, under the same rule |
| SrcImportService.AssetKind | src/import/import.service.ts:80-81 | an asset sends only asset calls, under the same rule |
| SrcImportService.FolderKind | src/import/import.service.ts:82-83 | a folder tree sends only folder calls, under the same rule |
| SrcImportService.ItemTurnShape | src/import/import.service.ts:60-87 | every call an item makes imports an item of its own type; a refusal ends the item and is rethrown; skipped languages make no call and record nothing; an unsupported type throws `Not supported import data type` before any call |
| SrcImportService.AllowedThen | src/import/import.service.ts:52-55 | two stretches of allowed calls are allowed together |
| SrcImportService.ItemsRunShape | src/import/import.service.ts:52-55 | the item loop makes only the older service's calls, ends at a refusal and rethrows it, and adds no language when languages are skipped |
| SrcImportService.ImportAsyncShape | src/import/import.service.ts:43-58 | `importAsync` sends the folder request first; every refusal ends the import and is rethrown; it makes only the calls of the older service, and adds no language when languages are skipped |
| SrcImportService.SendOne | src/import/import.service.ts:381-395 | one call against the client computes `SendTurn` and appends exactly it |
| SrcImportService.SrcImportAsset | src/import/import.service.ts:140-177 | one asset against the client computes `SrcAssetTurn` and appends exactly its calls |
| SrcImportService.ImportItem | src/import/import.service.ts:60-87 | `importItemAsync` against the client computes `ItemTurn` and appends exactly its calls |
| SrcImportService.ImportAsync | src/import/import.service.ts:43-58 | `importAsync` against the client computes `ImportAsyncRun`, each item imported against every record made before it |
| TranslationHelper.ReplaceIdReferencesWithExternalId | lib/core/translation-helper.ts:5-29 | every object with a truthy `id` has it moved to `external_id`; the walk descends into every nested object and array, and leaves everything else as it was |
| TranslationHelper.ExternalIdInItems | lib/core/translation-helper.ts:7-10 | the array loop rewrites every element in place, in order |
| TranslationHelper.ExternalIdInFields | lib/core/translation-helper.ts:12-26 | the object loop applies the per-object rule and rewrites every nested value in place |
| TranslationHelper.ExtIdStep | lib/core/translation-helper.ts:14-21 | visiting the `id` key moves a truthy id to `external_id` and keeps the loop's invariant |
| TranslationHelper.ExtChildAfter | lib/core/translation-helper.ts:23-25 | a nested value rewritten in place extends the visited prefix by one key |
| TranslationHelper.ExternalizedHasNoTruthyId | lib/core/translation-helper.ts:5-29 | after the rewrite no object of the document refers to anything by a truthy `id` |
| TranslationHelper.TryFindCodenameForId | lib/core/translation-helper.ts:76-127 | a truthy cached codename answers at once; otherwise the answer is a codename some object of the document pairs with the id through `id` or `external_id`, or the one found earlier; there is no answer exactly when nothing was found earlier, nothing is cached and no object pairs the id; every codename cached on the way is one the document pairs with its id |
| TranslationHelper.FindInItems | lib/core/translation-helper.ts:90-93 | the array loop threads the answer through every element: the answer is a pairing of some element or the earlier one, and none exactly when there is neither |
| TranslationHelper.FindInFields | lib/core/translation-helper.ts:95-123 | the object loop returns the object's own codename as soon as its `id` or `external_id` matches, and otherwise threads the answer through its nested values |
| TranslationHelper.FindEnd | lib/core/translation-helper.ts:95-126 | an object loop that visited every key without returning answers with a pairing of the object or the earlier answer |
| TranslationHelper.ReplaceIdReferencesWithCodenames | lib/core/translation-helper.ts:31-74 | every object whose codename is falsy and whose `id` is the default id with a hint, or is paired with a codename somewhere in the whole document, loses its `id` and gets that codename; every other object keeps its `id`; the walk descends into every nested value; the document only gains id-codename pairings |
| TranslationHelper.CodenamesInItems | lib/core/translation-helper.ts:38-41 | the array loop rewrites every element in place, searching the whole document as it goes |
| TranslationHelper.CodenamesInFields | lib/core/translation-helper.ts:43-71 | the object loop applies the per-object rule and rewrites every nested value in place |
| TranslationHelper.CodenameAtId | lib/core/translation-helper.ts:45-66 | visiting the `id` key of an object without a codename takes the hint for the default id, or searches the document, and replaces the id by what it finds |
| TranslationHelper.CodenamesAtChild | lib/core/translation-helper.ts:68-70 | a nested value is rewritten in place against the whole document |
| JsonWalk.KeyIndex | lib/core/translation-helper.ts:12 | the position found is that of the first occurrence of the key, or the end |
| JsonWalk.SetSplit | lib/core/translation-helper.ts:63 | `data.codename = …` replaces the first occurrence of the key in place, or appends it |
| JsonWalk.MonoIdReplace | lib/core/translation-helper.ts:58-64 | replacing the id of an object without codename by a codename takes away no id-codename pairing the search could find |
| JsonWalk.MonoIdReplaceBack | src/core/codename-translate-helper.ts:2-35 | the older search reads `id` only, so that replacement adds no pairing to it either |
| JsonWalk.WitnessNonEmpty | lib/core/translation-helper.ts:107-118 | every codename the search can answer with is non-empty |
| JsonWalk.MonoPlug | lib/core/translation-helper.ts:54 | growing the pairings of a part of the document grows those of the whole document the search looks at |
| JsonWalk.WalkedWeaken | lib/core/translation-helper.ts:31-74 | a codename rewrite stays one when the document before offers fewer pairings and the document after more |
| CodenameWalk.LearnedTrans | lib/core/translation-helper.ts:111-114 | entries learned by the cache in two stretches of the search are both pairings of the document |
| CodenameWalk.CnIdReplaced | lib/core/translation-helper.ts:58-64 | replacing the id by the found codename keeps the object loop's invariant |
| CodenameWalk.CnIdKept | lib/core/translation-helper.ts:49-65 | an id for which nothing is found stays, and the invariant holds |
| CodenameWalk.CnEnd | lib/core/translation-helper.ts:43-71 | an object loop that visited every key has rewritten the object by the rule, and the document only gained pairings |
| CodenameWalk.WalkedNoNewSrcWitness | src/core/codename-translate-helper.ts:2-35 | a pairing of the older search found after the older rewrite was there before it |
| CodenameWalk.WalkedKeepsSrcWitnesses | src/core/codename-translate-helper.ts:2-35 | the older rewrite never gives the older search a pairing it did not have |
| Json.Lower | lib/core/translation-helper.ts:14 | `toLowerCase` keeps the length and lower-cases each character |
| Json.Lookup | lib/core/translation-helper.ts:13 | a property read finds a value exactly when the key is present |
| Json.Set | lib/core/translation-helper.ts:18 | an assignment keeps the object's size when the key is present and appends the key otherwise |
| Json.LookupSet | lib/core/translation-helper.ts:18 | after `obj[k] = v`, reading `k` gives `v` and every other key is unchanged |
| Json.LookupDel | lib/core/translation-helper.ts:19 | after `delete obj[k]`, `k` is absent and every other key is unchanged |
| Json.KeySetSet | lib/core/translation-helper.ts:18 | an assignment adds exactly its key to the object's keys |
| Json.KeySetDel | lib/core/translation-helper.ts:19 | a deletion removes exactly its key |
| Json.UniqueSet | lib/core/translation-helper.ts:18 | assignments keep an object's keys unique |
| Json.SetAt | lib/core/translation-helper.ts:18 | assigning the key at a position of the loop replaces that position only |
| ImportModels.Read | lib/import/import.service.ts:716 | `o.k` throws a `TypeError` on `k` exactly when `o` is `undefined` or `null`, and otherwise reads the property |
| ImportModels.Client.Send | lib/import/import.service.ts:505-509 | sending a call appends it to the client's log and returns the project's answer to it, given the calls made before |

## Left out

- The HTTP client, its retry strategy and paging are not modelled. The management API is a function from the calls made so far and the next call to an answer or a refusal.
- `printProjectInfoToConsoleAsync` is left out, with its failure path. It sends `environmentInformation` before anything else in the newer `importAsync` (lib/core/global-helper.ts:13, lib/import/import.service.ts:74). A refusal of that call throws and ends the import before the filter. The model starts at the filter, as if that call was answered.
- The read of `sourceData.metadata.version` for the version-mismatch warning is left out. It throws a `TypeError` when the source has no `metadata`, before the filter; the model has no metadata in the import source.
- Console logging, colours and the text of the version-mismatch warning are left out: they are output only.
- `processItem` and the `onImport`/`processItem` callbacks are left out: they only report progress.
- The `onUnsupportedBinaryFile` callback is modelled as the list of reported files.
- The download throttling (`sleepAsync`) is left out. Only the configured delay and its 150 ms default are modelled.
- JSZip and the downloads are left out. The archive is the map from entry paths to contents, and the downloads are a parameter.
- The export, clean and CLI services are not part of this model, and neither are the file services and samples. They are list, delete and argument-parsing code.
- `src/zip/zip.service.ts` is not part of this model. It is a container format only.
- `canImport` predicates that return a `Promise` are left out. A promise is always truthy, so such a predicate never excludes anything; the predicates are plain boolean functions.
- Concurrency and `await` ordering are left out. Every call is awaited before the next one, so the model runs the calls in sequence.
- Aliasing of the mutated objects is not modelled. The walks return the rewritten value instead of updating shared objects in place. Two aliasings the results depend on are modelled explicitly. The codename search reads the document being rewritten, which `Ctx` models. The asset record holds the contract whose `descriptions` and `folder` the add-asset model shares, which `AssetImportRules.SharedWithAddAssetModel` models.
- The in-place update of the variant list in `translateIds` (`languageVariants.map((m) => m.workflow)` holds the very objects) is modelled the same way: the rewritten properties are written back into the variants.
- The JavaScript sort algorithm is left out. The order it produces is a parameter of `ImportHelper.OrderItemsByDeps`, and the result is proved a permutation. The comparator is not antisymmetric, so the sorted order is engine-defined.
- `defaultWorkflowCodename` is taken as `default`, because `lib/core/core-properties.ts` is not part of this model. `defaultObjectId` is the zero GUID the older service writes out.
- Non-ASCII letter case is not modelled: `toLowerCase` is modelled on the ASCII range only.
- The walks require clean documents (`Json.Clean`): unique keys, no other key that lower-cases to `id`, `external_id` or `codename`, and a string under every `id`. The lib codename walk calls `id.toLowerCase()` unguarded (lib/core/translation-helper.ts:51), so a non-string `id` throws there; the model excludes such documents instead. The precondition also excludes documents that other walks accept: the external-id walk, `replaceIdReferencesWithNewId` and the older service's walks take a non-string `id` without throwing, and the model does not say what they do with one.
- LibTranslateIds.TranslateIds: a null variant makes `translateIds` throw part-way through, after its earlier rewrites. The model reports the same error but checks for null variants before rewriting. Nothing reads the partial rewrites, because the import stops.
- LibImportAssets.AssetTurn: the `if (!uploadedBinaryFile)` check is not a separate path. A refused upload has already been rethrown by `handleError`, so that check cannot fail.
- The newer archive reader stores the workflows under `workflowSteps`, while the newer import reads `importData.workflows`. The model keeps both as written and does not connect them.
- LibTranslateIds.DocFields: the import data is one document with its keys in the order `IImportSource` declares them (taxonomies, snippets, content types, content items, variants, languages, assets, workflows). At run time the order is whatever the caller built: the archive reader (lib/zip/zip.service.ts:42-51) and the export (lib/export/export.service.ts:70-81) use other orders. The codename search takes the first match, and the codename cache keeps it, so when two kinds hold objects with the same id the found codename can depend on that order. The default language and the default workflow, for example, share the zero GUID. The model proves its properties for the declared order only.
- `src/import/import.service.ts` `importFromSourceAsync` is left out. `prepareImportData` returns only `orderedImportItems`, so the source hands `undefined` folder and binary lists to `importAsync`, and its argument type does not match.
- SrcImportService.FolderOf: the older service sends folder contracts of any shape. The model reads them into folder trees first and fails on anything else, which is weaker than the source.
- The unused `unsupportedBinaryFiles` array of the newer `importAssetsAsync` is left out. It is filled but never read.
- The integer width of file sizes is left out: sizes are unbounded integers compared with the ceiling of 100000000 bytes.

## Findings

| source | as written | input that shows it | evidently intended | confidence | as-written member | corrected member |
|---|---|---|---|---|---|---|
| lib/import/import.service.ts:341-343 | a rejected variant removes every variant that shares its item id **or** its language id (`m.item.id !== item.item.id && m.language.id !== item.language.id`) | variants (a, l1) and (a, l2), with `canImport` turning down only (a, l1): the accepted (a, l2) is removed too | remove only the variant of the same item in the same language | medium, not executed | SkipFilter.VariantFilterDropsSiblings | SkipFilter.RemoveSkippedItemsFromImportIntended |
