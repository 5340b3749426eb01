/**
 * `importAssetFoldersAsync` and `importAssetsAsync` of the newer import service: the
 * folder trees go in one call, and are matched back to the exported folders; each asset
 * takes two calls, the upload of its binary file and the creation of the asset.
 */
module LibImportAssets {
  import opened Wrappers
  import opened Json
  import opened CoreModels
  import opened ImportModels
  import opened ZipService
  import opened AssetFolderHelper
  import opened AssetImportRules
  import opened LibImportPhases

  // ---------------------------------------------------------------- asset folders

  /** The one call of `importAssetFoldersAsync`: the stamped folder trees, mapped. */
  function FolderRequest(folders: seq<Folder>): (r: Call)
    ensures r.AddAssetFolders? && |r.folders| == |folders|
    ensures forall i :: 0 <= i < |folders| ==> r.folders[i] == MapAssetFolder(Stamp(folders[i]))
  {
    var stamped := StampAll(folders);
    AddAssetFolders(seq(|stamped|, i requires 0 <= i < |stamped| => MapAssetFolder(stamped[i])))
  }

  /** Where the first created folder without an original is. */
  function MissIndex(nodes: seq<Folder>, originals: seq<Folder>): (k: nat)
    requires !AllMatched(nodes, originals)
    ensures FirstMiss(nodes, originals, k)
    decreases |nodes|
  {
    if !Matched(nodes[0], originals) then 0
    else
      assert forall j :: 0 <= j < |nodes| - 1 ==> nodes[1..][j] == nodes[j + 1];
      1 + MissIndex(nodes[1..], originals)
  }

  lemma FirstMissUnique(nodes: seq<Folder>, originals: seq<Folder>, k: int, k': int)
    requires FirstMiss(nodes, originals, k) && FirstMiss(nodes, originals, k')
    ensures k == k'
  {
  }

  /**
   * `importAssetFoldersAsync`: the call goes through `handleImportError`; on an answer the
   * created folders are matched, in pre-order, with the stamped exported folders, and the
   * first that has no original throws (rethrown as it is by `handleError`).
   */
  function FoldersRun(respond: Respond, log: seq<Call>, folders: seq<Folder>): Outcome {
    var c := FolderRequest(folders);
    match respond(log, c)
    case Fail(e) => Outcome([c], [], [], Some(Handled(e)))
    case Ok(resp) =>
      var nodes := PreOrderAll(resp.folders);
      var originals := PreOrderAll(StampAll(folders));
      if AllMatched(nodes, originals) then Outcome([c], Records(nodes, originals), [], None)
      else Outcome([c], [], [], Some(MissingFolder(MissingFolderMessage(nodes[MissIndex(nodes, originals)]))))
  }

  /**
   * The folder phase sends exactly the one call; when it is answered, it throws exactly
   * when some created folder has no original, else it records every created folder in
   * pre-order under its new id, against an exported folder with the same external id.
   */
  lemma FoldersRunShape(respond: Respond, log: seq<Call>, folders: seq<Folder>)
    ensures var o := FoldersRun(respond, log, folders);
      && o.calls == [FolderRequest(folders)] && AtRank(o.calls, 0) && o.reported == []
      && FailureEnds(respond, log, o)
      && (respond(log, FolderRequest(folders)).Ok? ==>
            var nodes := PreOrderAll(respond(log, FolderRequest(folders)).value.folders);
            var originals := PreOrderAll(StampAll(folders));
            && (o.error.None? <==> AllMatched(nodes, originals))
            && (o.error.Some? ==> exists k :: FirstMiss(nodes, originals, k) && o.error.value == MissingFolder(MissingFolderMessage(nodes[k])))
            && |o.results| == (if o.error.None? then |nodes| else 0)
            && forall k :: 0 <= k < |o.results| ==>
                 && o.results[k].importId == Some(nodes[k].id)
                 && o.results[k].original.OFolder? && o.results[k].original.folder in originals
                 && o.results[k].original.folder.externalId == nodes[k].externalId)
  {
    var o := FoldersRun(respond, log, folders);
    assert log + o.calls[..0] == log;
  }

  /** `importAssetFoldersAsync`, against the client. */
  method ImportAssetFolders(client: Client, folders: seq<Folder>) returns (o: Outcome)
    modifies client
    ensures o == FoldersRun(client.respond, old(client.log), folders)
    ensures client.log == old(client.log) + o.calls
  {
    var log0 := client.log;
    var stamped := SetExternalIdForFolders(folders);
    var c := AddAssetFolders(seq(|stamped|, i requires 0 <= i < |stamped| => MapAssetFolder(stamped[i])));
    assert c == FolderRequest(folders);
    var answer := client.Send(c);
    if answer.Fail? {
      return Outcome([c], [], [], Some(Handled(answer.error)));
    }
    var flattenedContracts := FlattenAssetFolderContracts(stamped, []);
    assert flattenedContracts == PreOrderAll(stamped);
    var flattened := FlattenAssetFolders(answer.value.folders, flattenedContracts, []);
    var nodes := PreOrderAll(answer.value.folders);
    if flattened.Fail? {
      ghost var k :| FirstMiss(nodes, flattenedContracts, k) && flattened.error == MissingFolderMessage(nodes[k]);
      FirstMissUnique(nodes, flattenedContracts, k, MissIndex(nodes, flattenedContracts));
      return Outcome([c], [], [], Some(MissingFolder(flattened.error)));
    }
    assert flattened.value == Records(nodes, flattenedContracts);
    o := Outcome([c], flattened.value, [], None);
  }

  // ---------------------------------------------------------------- assets

  /**
   * The import record of a created asset: the contract as `getAddAssetModel` leaves it, with
   * its descriptions and folder translated, recorded under its own id.
   */
  function AssetRecord(asset: Json, items: seq<ImportItemResult>, resp: Response): ImportItemResult {
    ImportItemResult(OJson(SharedWithAddAssetModel(asset, items)), StrField(asset, "id"), Some(resp.id))
  }

  /** The upload of an asset's binary file, with the asset's type and file name. */
  function UploadCall(asset: Json, u: Upload): Call {
    UploadBinaryFile(u.data, Field(asset, "type"), Field(asset, "file_name"))
  }

  /** The creation of an asset after its upload was answered with `uploadedId`. */
  function CreateAsset(respond: Respond, log: seq<Call>, asset: Json, uploadedId: string, items: seq<ImportItemResult>): Outcome {
    match GetAddAssetModel(asset, uploadedId, items)
    case Fail(e) => Stop(e)
    case Ok(m) =>
      match respond(log, AddAsset(m))
      case Fail(e) => Outcome([AddAsset(m)], [], [], Some(Handled(e)))
      case Ok(created) => Outcome([AddAsset(m)], [AssetRecord(asset, items, created)], [], None)
  }

  /** The upload chosen for an asset, then its creation; the report comes before both. */
  function UploadAndCreate(respond: Respond, log: seq<Call>, asset: Json, u: Upload, items: seq<ImportItemResult>, report: bool): Outcome {
    var reported := if u.unsupported && report then [u.file] else [];
    var up := UploadCall(asset, u);
    match respond(log, up)
    case Fail(e) => Outcome([up], [], reported, Some(Handled(e)))
    case Ok(uploaded) => Then(Outcome([up], [], reported, None), CreateAsset(respond, log + [up], asset, uploaded.id, items))
  }

  /**
   * One asset: a `null` asset throws where its id is read; an asset without a binary file
   * throws; a file at or over the ceiling is reported, when a report is configured, and
   * uploaded empty. The upload and the creation both go through `handleImportError`; the
   * creation data is `getAddAssetModel` of the upload's id.
   */
  function AssetTurn(respond: Respond, log: seq<Call>, asset: Json, files: seq<BinaryFile>,
    items: seq<ImportItemResult>, report: bool): Outcome
  {
    if asset.JNull? then Stop(TypeError("id"))
    else
      match BinaryToUpload(files, asset)
      case Fail(e) => Stop(e)
      case Ok(u) => UploadAndCreate(respond, log, asset, u, items, report)
  }

  /** `importAssetsAsync`: the assets in order, every one translated with the same import results. */
  function AssetsRun(respond: Respond, log: seq<Call>, assets: seq<Json>, files: seq<BinaryFile>,
    items: seq<ImportItemResult>, report: bool): Outcome
    decreases |assets|
  {
    if |assets| == 0 then Done()
    else
      var a := AssetTurn(respond, log, assets[0], files, items, report);
      if a.error.Some? then a
      else Then(a, AssetsRun(respond, log + a.calls, assets[1..], files, items, report))
  }

  /** What one asset may send, record, report and throw. */
  predicate AssetShape(respond: Respond, log: seq<Call>, asset: Json, files: seq<BinaryFile>, items: seq<ImportItemResult>, report: bool, a: Outcome) {
    && AtRank(a.calls, 6) && FailureEnds(respond, log, a) && |a.calls| <= 2
    && (|a.calls| > 0 ==> a.calls[0].UploadBinaryFile?) && (|a.calls| == 2 ==> a.calls[1].AddAsset?)
    && (a.error.None? ==> |a.calls| == 2 && |a.results| == 1)
    && (forall i :: 0 <= i < |a.results| ==> a.results[i].original == OJson(SharedWithAddAssetModel(asset, items)) && a.results[i].originalId == StrField(asset, "id"))
    && (|a.reported| > 0 ==> report) && (forall i :: 0 <= i < |a.reported| ==> TooLarge(a.reported[i]) && a.reported[i] in files)
  }

  /** The file an upload is made from is one of the binary files. */
  lemma UploadedFileListed(files: seq<BinaryFile>, asset: Json)
    requires BinaryToUpload(files, asset).Ok?
    ensures BinaryToUpload(files, asset).value.file in files
  {
    var i :| 0 <= i < |files| && files[i] == FindBinaryFile(files, asset).value;
  }

  lemma CreateAssetShape(respond: Respond, log: seq<Call>, asset: Json, uploadedId: string, items: seq<ImportItemResult>)
    ensures var a := CreateAsset(respond, log, asset, uploadedId, items);
      && FailureEnds(respond, log, a) && |a.calls| <= 1 && (|a.calls| == 1 ==> a.calls[0].AddAsset?)
      && a.reported == [] && (a.error.None? ==> |a.calls| == 1 && |a.results| == 1)
      && (forall i :: 0 <= i < |a.results| ==> a.results[i].original == OJson(SharedWithAddAssetModel(asset, items)) && a.results[i].originalId == StrField(asset, "id"))
  {
    var a := CreateAsset(respond, log, asset, uploadedId, items);
    assert log + a.calls[..0] == log;
  }

  lemma UploadAndCreateShape(respond: Respond, log: seq<Call>, asset: Json, files: seq<BinaryFile>, u: Upload, items: seq<ImportItemResult>, report: bool)
    requires u.file in files && (u.unsupported <==> TooLarge(u.file))
    ensures AssetShape(respond, log, asset, files, items, report, UploadAndCreate(respond, log, asset, u, items, report))
  {
    var up := UploadCall(asset, u);
    var reported := if u.unsupported && report then [u.file] else [];
    var head := Outcome([up], [], reported, None);
    assert log + head.calls[..0] == log;
    assert Rank(up) == 6;
    match respond(log, up)
    case Fail(_) =>
    case Ok(uploaded) =>
      var rest := CreateAsset(respond, log + [up], asset, uploaded.id, items);
      CreateAssetShape(respond, log + [up], asset, uploaded.id, items);
      UploadThenCreate(respond, log, asset, files, items, report, head, rest);
  }

  /** An answered upload followed by the creation of its asset. */
  lemma UploadThenCreate(respond: Respond, log: seq<Call>, asset: Json, files: seq<BinaryFile>, items: seq<ImportItemResult>, report: bool, head: Outcome, rest: Outcome)
    requires |head.calls| == 1 && head.calls[0].UploadBinaryFile? && head.results == [] && head.error.None?
    requires respond(log, head.calls[0]).Ok?
    requires |head.reported| > 0 ==> report
    requires forall i :: 0 <= i < |head.reported| ==> TooLarge(head.reported[i]) && head.reported[i] in files
    requires FailureEnds(respond, log + head.calls, rest) && |rest.calls| <= 1 && (|rest.calls| == 1 ==> rest.calls[0].AddAsset?)
    requires rest.reported == [] && (rest.error.None? ==> |rest.calls| == 1 && |rest.results| == 1)
    requires forall i :: 0 <= i < |rest.results| ==> rest.results[i].original == OJson(SharedWithAddAssetModel(asset, items)) && rest.results[i].originalId == StrField(asset, "id")
    ensures AssetShape(respond, log, asset, files, items, report, Then(head, rest))
  {
    assert log + head.calls[..0] == log;
    FailureEndsThen(respond, log, head, rest);
    var o := Then(head, rest);
    assert o.reported == head.reported && o.results == rest.results;
    forall i | 0 <= i < |o.calls| ensures Rank(o.calls[i]) == 6 {
      if i == 1 {
        assert o.calls[1] == rest.calls[0];
      }
    }
  }

  lemma AssetTurnShape(respond: Respond, log: seq<Call>, asset: Json, files: seq<BinaryFile>, items: seq<ImportItemResult>, report: bool)
    ensures AssetShape(respond, log, asset, files, items, report, AssetTurn(respond, log, asset, files, items, report))
  {
    if !asset.JNull? && BinaryToUpload(files, asset).Ok? {
      UploadedFileListed(files, asset);
      UploadAndCreateShape(respond, log, asset, files, BinaryToUpload(files, asset).value, items, report);
    }
  }

  /**
   * What one asset sends: the upload of what `BinaryToUpload` chose, and then the asset made
   * by `getAddAssetModel` from the upload's answer.
   */
  lemma AssetTurnCalls(respond: Respond, log: seq<Call>, asset: Json, files: seq<BinaryFile>, items: seq<ImportItemResult>, report: bool)
    requires !asset.JNull? && BinaryToUpload(files, asset).Ok?
    ensures var a := AssetTurn(respond, log, asset, files, items, report);
      var u := BinaryToUpload(files, asset).value;
      && a.calls[0] == UploadBinaryFile(u.data, Field(asset, "type"), Field(asset, "file_name"))
      && (u.unsupported ==> a.calls[0].binaryData == BinaryEntry([]))
      && (a.reported == if u.unsupported && report then [u.file] else [])
      && (|a.calls| == 2 ==> a.calls[1] == AddAsset(GetAddAssetModel(asset, respond(log, a.calls[0]).value.id, items).value))
  {
    var u := BinaryToUpload(files, asset).value;
    var up := UploadCall(asset, u);
    if respond(log, up).Ok? {
      var rest := CreateAsset(respond, log + [up], asset, respond(log, up).value.id, items);
      assert AssetTurn(respond, log, asset, files, items, report).calls == [up] + rest.calls;
    }
  }

  /** What the asset loop may send, record, report and throw. */
  predicate AssetsShape(respond: Respond, log: seq<Call>, assets: seq<Json>, files: seq<BinaryFile>, items: seq<ImportItemResult>, report: bool, o: Outcome) {
    && AtRank(o.calls, 6) && FailureEnds(respond, log, o)
    && (forall i :: 0 <= i < |o.calls| ==> (o.calls[i].UploadBinaryFile? <==> i % 2 == 0) && (o.calls[i].AddAsset? <==> i % 2 == 1))
    && (o.error.None? ==> |o.calls| == 2 * |assets| && |o.results| == |assets|)
    && (o.error.None? ==> forall j :: 0 <= j < |assets| ==> o.results[j].original == OJson(SharedWithAddAssetModel(assets[j], items)) && o.results[j].originalId == StrField(assets[j], "id"))
    && (|o.reported| > 0 ==> report) && (forall i :: 0 <= i < |o.reported| ==> TooLarge(o.reported[i]) && o.reported[i] in files)
  }

  lemma ReportedThen(files: seq<BinaryFile>, a: seq<BinaryFile>, b: seq<BinaryFile>)
    requires forall i :: 0 <= i < |a| ==> TooLarge(a[i]) && a[i] in files
    requires forall i :: 0 <= i < |b| ==> TooLarge(b[i]) && b[i] in files
    ensures forall i :: 0 <= i < |a + b| ==> TooLarge((a + b)[i]) && (a + b)[i] in files
  {
    forall i | 0 <= i < |a + b|
      ensures TooLarge((a + b)[i]) && (a + b)[i] in files
    {
      if i < |a| {
        assert (a + b)[i] == a[i];
      } else {
        assert (a + b)[i] == b[i - |a|];
      }
    }
  }

  lemma AssetsShapeThen(respond: Respond, log: seq<Call>, assets: seq<Json>, files: seq<BinaryFile>, items: seq<ImportItemResult>, report: bool, a: Outcome, b: Outcome)
    requires |assets| > 0 && a.error.None?
    requires AssetShape(respond, log, assets[0], files, items, report, a)
    requires AssetsShape(respond, log + a.calls, assets[1..], files, items, report, b)
    ensures AssetsShape(respond, log, assets, files, items, report, Then(a, b))
  {
    FailureEndsThen(respond, log, a, b);
    var o := Then(a, b);
    assert forall i :: 0 <= i < |o.calls| ==> o.calls[i] == if i < 2 then a.calls[i] else b.calls[i - 2];
    ReportedThen(files, a.reported, b.reported);
    if o.error.None? {
      forall j | 0 <= j < |assets|
        ensures o.results[j].original == OJson(SharedWithAddAssetModel(assets[j], items)) && o.results[j].originalId == StrField(assets[j], "id")
      {
        if j > 0 {
          assert o.results[j] == b.results[j - 1] && assets[1..][j - 1] == assets[j];
        }
      }
    }
  }

  lemma AssetsShapeLast(respond: Respond, log: seq<Call>, assets: seq<Json>, files: seq<BinaryFile>, items: seq<ImportItemResult>, report: bool, a: Outcome)
    requires |assets| > 0 && a.error.Some? && AssetShape(respond, log, assets[0], files, items, report, a)
    ensures AssetsShape(respond, log, assets, files, items, report, a)
  {
  }

  /** One turn of the asset loop, read off the definition. */
  lemma AssetsRunUnfold(respond: Respond, log: seq<Call>, assets: seq<Json>, files: seq<BinaryFile>,
    items: seq<ImportItemResult>, report: bool, a: Outcome)
    requires |assets| > 0 && a == AssetTurn(respond, log, assets[0], files, items, report)
    ensures a.error.Some? ==> AssetsRun(respond, log, assets, files, items, report) == a
    ensures a.error.None? ==> (AssetsRun(respond, log, assets, files, items, report)
      == Then(a, AssetsRun(respond, log + a.calls, assets[1..], files, items, report)))
  {
  }

  /**
   * The asset loop sends asset calls only, an upload and then a creation per asset; a
   * refused call is the last one; when it does not throw, it records every asset, in
   * order, by its id; and a binary file is reported only when a report is configured, and
   * only when it is at or over the ceiling.
   */
  lemma {:induction false} AssetsRunShape(respond: Respond, log: seq<Call>, assets: seq<Json>, files: seq<BinaryFile>,
    items: seq<ImportItemResult>, report: bool)
    ensures AssetsShape(respond, log, assets, files, items, report, AssetsRun(respond, log, assets, files, items, report))
    decreases |assets|
  {
    if |assets| > 0 {
      var a := AssetTurn(respond, log, assets[0], files, items, report);
      AssetsRunUnfold(respond, log, assets, files, items, report, a);
      AssetTurnShape(respond, log, assets[0], files, items, report);
      if a.error.None? {
        var b := AssetsRun(respond, log + a.calls, assets[1..], files, items, report);
        AssetsRunShape(respond, log + a.calls, assets[1..], files, items, report);
        AssetsShapeThen(respond, log, assets, files, items, report, a, b);
      } else {
        AssetsShapeLast(respond, log, assets, files, items, report, a);
      }
    }
  }

  // ---------------------------------------------------------------- assets, against the client

  method SendCreateAsset(client: Client, asset: Json, uploadedId: string, items: seq<ImportItemResult>) returns (o: Outcome)
    modifies client
    ensures o == CreateAsset(client.respond, old(client.log), asset, uploadedId, items)
    ensures client.log == old(client.log) + o.calls
  {
    var assetData := GetAddAssetModel(asset, uploadedId, items);
    if assetData.Fail? {
      return Stop(assetData.error);
    }
    var c := AddAsset(assetData.value);
    var answer := client.Send(c);
    if answer.Fail? {
      return Outcome([c], [], [], Some(Handled(answer.error)));
    }
    o := Outcome([c], [AssetRecord(asset, items, answer.value)], [], None);
  }

  method SendUploadAndCreate(client: Client, asset: Json, u: Upload, items: seq<ImportItemResult>, report: bool) returns (o: Outcome)
    modifies client
    ensures o == UploadAndCreate(client.respond, old(client.log), asset, u, items, report)
    ensures client.log == old(client.log) + o.calls
  {
    var log0 := client.log;
    var reported := if u.unsupported && report then [u.file] else [];
    var up := UploadCall(asset, u);
    var uploaded := client.Send(up);
    if uploaded.Fail? {
      return Outcome([up], [], reported, Some(Handled(uploaded.error)));
    }
    var head := Outcome([up], [], reported, None);
    var created := SendCreateAsset(client, asset, uploaded.value.id, items);
    LogAfter(log0, head, created);
    o := Then(head, created);
  }

  /** One asset, against the client. */
  method ImportAsset(client: Client, asset: Json, files: seq<BinaryFile>, items: seq<ImportItemResult>, report: bool) returns (o: Outcome)
    modifies client
    ensures o == AssetTurn(client.respond, old(client.log), asset, files, items, report)
    ensures client.log == old(client.log) + o.calls
  {
    if asset.JNull? {
      return Stop(TypeError("id"));
    }
    var u := BinaryToUpload(files, asset);
    if u.Fail? {
      return Stop(u.error);
    }
    o := SendUploadAndCreate(client, asset, u.value, items, report);
  }

  /** One turn of the asset loop, as a step of `AssetsRun`. */
  method ImportAssetAt(client: Client, assets: seq<Json>, i: nat, files: seq<BinaryFile>, items: seq<ImportItemResult>, report: bool)
    returns (a: Outcome)
    requires i < |assets|
    modifies client
    ensures client.log == old(client.log) + a.calls
    ensures a.error.Some? ==> AssetsRun(client.respond, old(client.log), assets[i..], files, items, report) == a
    ensures a.error.None? ==> (AssetsRun(client.respond, old(client.log), assets[i..], files, items, report)
      == Then(a, AssetsRun(client.respond, old(client.log) + a.calls, assets[i + 1..], files, items, report)))
  {
    assert assets[i..][0] == assets[i] && assets[i..][1..] == assets[i + 1..];
    a := ImportAsset(client, assets[i], files, items, report);
    AssetsRunUnfold(client.respond, old(client.log), assets[i..], files, items, report, a);
  }

  lemma AssetsRunEnd(respond: Respond, log0: seq<Call>, acc: Outcome, assets: seq<Json>, files: seq<BinaryFile>,
    items: seq<ImportItemResult>, report: bool)
    requires acc.error.None?
    requires AssetsRun(respond, log0, assets, files, items, report)
      == Then(acc, AssetsRun(respond, log0 + acc.calls, assets[|assets|..], files, items, report))
    ensures AssetsRun(respond, log0, assets, files, items, report) == acc
  {
    assert assets[|assets|..] == [];
    assert acc.calls + [] == acc.calls && acc.results + [] == acc.results && acc.reported + [] == acc.reported;
  }

  lemma AssetsRunStart(respond: Respond, log0: seq<Call>, assets: seq<Json>, files: seq<BinaryFile>,
    items: seq<ImportItemResult>, report: bool)
    ensures AssetsRun(respond, log0, assets, files, items, report)
      == Then(Done(), AssetsRun(respond, log0 + Done().calls, assets[0..], files, items, report))
  {
    assert assets[0..] == assets && log0 + [] == log0;
    var o := AssetsRun(respond, log0, assets, files, items, report);
    assert [] + o.calls == o.calls && [] + o.results == o.results && [] + o.reported == o.reported;
  }

  /** `importAssetsAsync`, against the client. */
  method ImportAssets(client: Client, assets: seq<Json>, files: seq<BinaryFile>, items: seq<ImportItemResult>, report: bool)
    returns (o: Outcome)
    modifies client
    ensures o == AssetsRun(client.respond, old(client.log), assets, files, items, report)
    ensures client.log == old(client.log) + o.calls
  {
    var log0 := client.log;
    o := Done();
    AssetsRunStart(client.respond, log0, assets, files, items, report);
    var i := 0;
    while i < |assets|
      invariant i <= |assets| && o.error.None?
      invariant client.log == log0 + o.calls
      invariant AssetsRun(client.respond, log0, assets, files, items, report)
        == Then(o, AssetsRun(client.respond, log0 + o.calls, assets[i..], files, items, report))
    {
      var a := ImportAssetAt(client, assets, i, files, items, report);
      LogAfter(log0, o, a);
      if a.error.Some? {
        o := Then(o, a);
        return;
      }
      ThenAssoc(o, a, AssetsRun(client.respond, log0 + o.calls + a.calls, assets[i + 1..], files, items, report));
      o := Then(o, a);
      i := i + 1;
    }
    AssetsRunEnd(client.respond, log0, o, assets, files, items, report);
  }
}
