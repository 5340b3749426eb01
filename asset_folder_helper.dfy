/**
 * The asset folder helpers of both import services (the two snapshots share them line for
 * line). Before the folders are created every node gets its own id as external id; the
 * request mirrors the tree; and the folders the API answers with are matched, in pre-order,
 * to the stamped originals by external id, giving one import result per folder.
 *
 * The JavaScript stamps the folder objects in place and the flattened list holds those same
 * objects; here the stamped forest is returned and flattened afterwards, which gives the same
 * list.
 */
module AssetFolderHelper {
  import opened Wrappers
  import opened CoreModels

  // ---------------------------------------------------------------- pre-order

  /** A folder followed by the pre-order of its subfolders. */
  function PreOrderOf(f: Folder): (r: seq<Folder>)
    ensures |r| >= 1 && r[0] == f
    decreases f
  {
    [f] + PreOrderAll(f.folders)
  }

  /** The pre-order of a forest: the trees one after the other. */
  function PreOrderAll(fs: seq<Folder>): seq<Folder>
    decreases fs
  {
    if |fs| == 0 then [] else PreOrderAll(fs[..|fs| - 1]) + PreOrderOf(fs[|fs| - 1])
  }

  /** `x` is `f` or lies somewhere below it. */
  predicate InTree(x: Folder, f: Folder)
    decreases f
  {
    x == f || exists i :: 0 <= i < |f.folders| && InTree(x, f.folders[i])
  }

  /** Flattening a concatenation flattens each part. */
  lemma {:induction false} PreOrderConcat(a: seq<Folder>, b: seq<Folder>)
    ensures PreOrderAll(a + b) == PreOrderAll(a) + PreOrderAll(b)
    decreases |b|
  {
    if |b| == 0 {
      assert a + b == a;
    } else {
      var n := |b|;
      assert (a + b)[..|a + b| - 1] == a + b[..n - 1];
      assert (a + b)[|a + b| - 1] == b[n - 1];
      PreOrderConcat(a, b[..n - 1]);
    }
  }

  /** The flattened forest holds exactly the folders of its trees, at every depth. */
  lemma {:induction false} PreOrderAllNodes(fs: seq<Folder>, x: Folder)
    ensures x in PreOrderAll(fs) <==> exists i :: 0 <= i < |fs| && InTree(x, fs[i])
    decreases fs
  {
    if |fs| > 0 {
      var n := |fs|;
      PreOrderAllNodes(fs[..n - 1], x);
      PreOrderOfNodes(fs[n - 1], x);
      if x in PreOrderAll(fs) {
        if x in PreOrderAll(fs[..n - 1]) {
          var i :| 0 <= i < n - 1 && InTree(x, fs[..n - 1][i]);
          assert InTree(x, fs[i]);
        } else {
          assert InTree(x, fs[n - 1]);
        }
      } else {
        forall i | 0 <= i < n
          ensures !InTree(x, fs[i])
        {
          if i < n - 1 {
            assert fs[..n - 1][i] == fs[i];
          }
        }
      }
    }
  }

  lemma {:induction false} PreOrderOfNodes(f: Folder, x: Folder)
    ensures x in PreOrderOf(f) <==> InTree(x, f)
    decreases f
  {
    PreOrderAllNodes(f.folders, x);
  }

  // ---------------------------------------------------------------- setExternalIdForFolders

  /** A folder whose external id, at every depth, has been set to its own id. */
  function Stamp(f: Folder): (r: Folder)
    ensures r.id == f.id && r.name == f.name && r.externalId == Some(f.id)
    ensures |r.folders| == |f.folders|
    decreases f
  {
    Folder(f.id, f.name, Some(f.id), StampAll(f.folders))
  }

  function StampAll(fs: seq<Folder>): (r: seq<Folder>)
    ensures |r| == |fs|
    decreases fs
  {
    seq(|fs|, i requires 0 <= i < |fs| => Stamp(fs[i]))
  }

  /** `setExternalIdForFolders`: each folder, then its subfolders, gets `external_id = id`. */
  method SetExternalIdForFolders(folders: seq<Folder>) returns (r: seq<Folder>)
    ensures r == StampAll(folders)
    decreases folders
  {
    r := folders;
    var i := 0;
    while i < |folders|
      invariant i <= |folders| && |r| == |folders|
      invariant forall j :: 0 <= j < i ==> r[j] == Stamp(folders[j])
      invariant forall j :: i <= j < |folders| ==> r[j] == folders[j]
    {
      var folder := folders[i];
      var children := folder.folders;
      if |folder.folders| > 0 {
        children := SetExternalIdForFolders(folder.folders);
      }
      r := r[i := Folder(folder.id, folder.name, Some(folder.id), children)];
      i := i + 1;
    }
  }

  /** The folder with every external id at every depth dropped: what stamping must keep. */
  function WithoutExternalIds(f: Folder): Folder
    decreases f
  {
    Folder(f.id, f.name, None, seq(|f.folders|, i requires 0 <= i < |f.folders| => WithoutExternalIds(f.folders[i])))
  }

  /** Stamping changes external ids only: the ids, names and the tree's shape stay. */
  lemma {:induction false} StampKeepsTree(f: Folder)
    ensures WithoutExternalIds(Stamp(f)) == WithoutExternalIds(f)
    decreases f
  {
    forall i | 0 <= i < |f.folders| {
      StampKeepsTree(f.folders[i]);
    }
  }

  /** Flattening the stamped forest stamps the flattened one: position by position, the same folder. */
  lemma {:induction false} PreOrderStampAll(fs: seq<Folder>)
    ensures |PreOrderAll(StampAll(fs))| == |PreOrderAll(fs)|
    ensures forall k :: 0 <= k < |PreOrderAll(fs)| ==> PreOrderAll(StampAll(fs))[k] == Stamp(PreOrderAll(fs)[k])
    decreases fs
  {
    if |fs| > 0 {
      var n := |fs|;
      assert StampAll(fs)[..n - 1] == StampAll(fs[..n - 1]);
      PreOrderStampAll(fs[..n - 1]);
      PreOrderStampOf(fs[n - 1]);
    }
  }

  lemma {:induction false} PreOrderStampOf(f: Folder)
    ensures |PreOrderOf(Stamp(f))| == |PreOrderOf(f)|
    ensures forall k :: 0 <= k < |PreOrderOf(f)| ==> PreOrderOf(Stamp(f))[k] == Stamp(PreOrderOf(f)[k])
    decreases f
  {
    PreOrderStampAll(f.folders);
  }

  // ---------------------------------------------------------------- flattenAssetFolderContracts

  /** `flattenAssetFolderContracts`: appends every folder, then its subfolders, to `flattened`. */
  method FlattenAssetFolderContracts(assetFolders: seq<Folder>, flattened: seq<Folder>) returns (r: seq<Folder>)
    ensures r == flattened + PreOrderAll(assetFolders)
    decreases assetFolders
  {
    r := flattened;
    var i := 0;
    while i < |assetFolders|
      invariant i <= |assetFolders|
      invariant r == flattened + PreOrderAll(assetFolders[..i])
    {
      var folder := assetFolders[i];
      assert assetFolders[..i + 1][..i] == assetFolders[..i];
      r := r + [folder];
      if |folder.folders| > 0 {
        r := FlattenAssetFolderContracts(folder.folders, r);
      }
      i := i + 1;
    }
    assert assetFolders[..i] == assetFolders;
  }

  // ---------------------------------------------------------------- flattenAssetFolders

  /** `originalItems.find(m => m.external_id === externalId)`. */
  function FindOriginal(originals: seq<Folder>, externalId: Option<string>): (r: Option<Folder>)
    ensures r.None? <==> forall j :: 0 <= j < |originals| ==> originals[j].externalId != externalId
    ensures r.Some? ==> exists j :: (0 <= j < |originals| && originals[j] == r.value
      && originals[j].externalId == externalId
      && forall j' :: 0 <= j' < j ==> originals[j'].externalId != externalId)
  {
    if |originals| == 0 then None
    else if originals[0].externalId == externalId then Some(originals[0])
    else
      var r := FindOriginal(originals[1..], externalId);
      assert forall j :: 0 < j < |originals| ==> originals[j] == originals[1..][j - 1];
      if r.Some? then
        var j :| (0 <= j < |originals[1..]| && originals[1..][j] == r.value
          && originals[1..][j].externalId == externalId
          && forall j' :: 0 <= j' < j ==> originals[1..][j'].externalId != externalId);
        assert originals[j + 1] == r.value;
        r
      else r
  }

  predicate Matched(f: Folder, originals: seq<Folder>) {
    FindOriginal(originals, f.externalId).Some?
  }

  predicate AllMatched(nodes: seq<Folder>, originals: seq<Folder>) {
    forall k :: 0 <= k < |nodes| ==> Matched(nodes[k], originals)
  }

  /** Position `k` holds the first folder that has no original. */
  predicate FirstMiss(nodes: seq<Folder>, originals: seq<Folder>, k: int) {
    && 0 <= k < |nodes| && !Matched(nodes[k], originals)
    && forall j :: 0 <= j < k ==> Matched(nodes[j], originals)
  }

  /** The import result of one created folder: the matched original, its id, and the new id. */
  function Record(f: Folder, originals: seq<Folder>): (r: ImportItemResult)
    requires Matched(f, originals)
    ensures r.importId == Some(f.id)
    ensures r.original.OFolder? && r.original.folder in originals
    ensures r.original.folder.externalId == f.externalId && r.originalId == Some(r.original.folder.id)
  {
    var original := FindOriginal(originals, f.externalId).value;
    ImportItemResult(OFolder(original), Some(original.id), Some(f.id))
  }

  function Records(nodes: seq<Folder>, originals: seq<Folder>): (r: seq<ImportItemResult>)
    requires AllMatched(nodes, originals)
    ensures |r| == |nodes|
  {
    seq(|nodes|, k requires 0 <= k < |nodes| => Record(nodes[k], originals))
  }

  /** The value of `${x}` for a possibly undefined string. */
  function Shown(o: Option<string>): string {
    if o.Some? then o.value else "undefined"
  }

  function MissingFolderMessage(f: Folder): string {
    "Could not find original folder with id '" + Shown(f.externalId) + "' with name '" + f.name + "'"
  }

  lemma RecordsConcat(a: seq<Folder>, b: seq<Folder>, originals: seq<Folder>)
    requires AllMatched(a, originals) && AllMatched(b, originals)
    ensures AllMatched(a + b, originals)
    ensures Records(a + b, originals) == Records(a, originals) + Records(b, originals)
  {
    assert forall k :: 0 <= k < |a + b| ==> (a + b)[k] == if k < |a| then a[k] else b[k - |a|];
  }

  lemma FirstMissShift(a: seq<Folder>, b: seq<Folder>, c: seq<Folder>, originals: seq<Folder>, k: int)
    requires AllMatched(a, originals) && FirstMiss(b, originals, k)
    ensures FirstMiss(a + b + c, originals, |a| + k)
  {
    assert forall j :: 0 <= j < |a| ==> (a + b + c)[j] == a[j];
    assert forall j :: |a| <= j < |a| + |b| ==> (a + b + c)[j] == b[j - |a|];
  }

  /**
   * `flattenAssetFolders`: walks the created folders in pre-order, appending for each the
   * record of the first original with the same external id, and throws at the first
   * folder that has none.
   */
  method FlattenAssetFolders(imported: seq<Folder>, originals: seq<Folder>, items: seq<ImportItemResult>)
    returns (r: Result<seq<ImportItemResult>, string>)
    ensures r.Ok? <==> AllMatched(PreOrderAll(imported), originals)
    ensures r.Ok? ==> r.value == items + Records(PreOrderAll(imported), originals)
    ensures r.Fail? ==> exists k :: (FirstMiss(PreOrderAll(imported), originals, k)
      && r.error == MissingFolderMessage(PreOrderAll(imported)[k]))
    decreases imported, 1
  {
    var acc := items;
    var i := 0;
    while i < |imported|
      invariant i <= |imported| && AllMatched(PreOrderAll(imported[..i]), originals)
      invariant acc == items + Records(PreOrderAll(imported[..i]), originals)
    {
      var one := FlattenFolder(imported[i], originals, acc);
      if one.Fail? {
        var k :| FirstMiss(PreOrderOf(imported[i]), originals, k)
          && one.error == MissingFolderMessage(PreOrderOf(imported[i])[k]);
        MissInForest(imported, originals, i, k);
        return Fail(one.error);
      }
      MatchedInForest(imported, originals, i);
      acc := one.value;
      i := i + 1;
    }
    assert imported[..i] == imported;
    r := Ok(acc);
  }

  /** One turn of the loop: the record of `folder` itself, then those of its subfolders. */
  method FlattenFolder(folder: Folder, originals: seq<Folder>, items: seq<ImportItemResult>)
    returns (r: Result<seq<ImportItemResult>, string>)
    ensures r.Ok? <==> AllMatched(PreOrderOf(folder), originals)
    ensures r.Ok? ==> r.value == items + Records(PreOrderOf(folder), originals)
    ensures r.Fail? ==> exists k :: (FirstMiss(PreOrderOf(folder), originals, k)
      && r.error == MissingFolderMessage(PreOrderOf(folder)[k]))
    decreases folder, 0
  {
    var original := FindOriginal(originals, folder.externalId);
    if original.None? {
      assert FirstMiss(PreOrderOf(folder), originals, 0);
      return Fail(MissingFolderMessage(folder));
    }
    var acc := items + [ImportItemResult(OFolder(original.value), Some(original.value.id), Some(folder.id))];
    assert acc == items + [Record(folder, originals)];
    var rest := Ok(acc);
    if |folder.folders| > 0 {
      rest := FlattenAssetFolders(folder.folders, originals, acc);
    }
    if rest.Fail? {
      var k :| FirstMiss(PreOrderAll(folder.folders), originals, k)
        && rest.error == MissingFolderMessage(PreOrderAll(folder.folders)[k]);
      MissBelow(folder, originals, k);
      return Fail(rest.error);
    }
    MatchedBelow(folder, originals);
    r := rest;
  }

  /** A miss among the subfolders of a matched folder is the first miss of its tree. */
  lemma MissBelow(folder: Folder, originals: seq<Folder>, k: int)
    requires Matched(folder, originals) && FirstMiss(PreOrderAll(folder.folders), originals, k)
    ensures FirstMiss(PreOrderOf(folder), originals, 1 + k)
    ensures PreOrderOf(folder)[1 + k] == PreOrderAll(folder.folders)[k]
    ensures !AllMatched(PreOrderOf(folder), originals)
  {
    FirstMissShift([folder], PreOrderAll(folder.folders), [], originals, k);
    assert [folder] + PreOrderAll(folder.folders) + [] == PreOrderOf(folder);
  }

  /** A matched folder over matched subfolders: its records are its own, then theirs. */
  lemma MatchedBelow(folder: Folder, originals: seq<Folder>)
    requires Matched(folder, originals) && AllMatched(PreOrderAll(folder.folders), originals)
    ensures AllMatched(PreOrderOf(folder), originals)
    ensures Records(PreOrderOf(folder), originals) == [Record(folder, originals)] + Records(PreOrderAll(folder.folders), originals)
  {
    var sub := PreOrderAll(folder.folders);
    assert PreOrderOf(folder) == [folder] + sub;
    assert AllMatched([folder], originals) by { assert [folder][0] == folder; }
    RecordsConcat([folder], sub, originals);
    assert Records([folder], originals) == [Record(folder, originals)];
  }

  /** A miss in the `i`-th tree, after a matched prefix, is the first miss of the forest. */
  lemma MissInForest(fs: seq<Folder>, originals: seq<Folder>, i: nat, k: int)
    requires i < |fs| && AllMatched(PreOrderAll(fs[..i]), originals)
    requires FirstMiss(PreOrderOf(fs[i]), originals, k)
    ensures FirstMiss(PreOrderAll(fs), originals, |PreOrderAll(fs[..i])| + k)
    ensures PreOrderAll(fs)[|PreOrderAll(fs[..i])| + k] == PreOrderOf(fs[i])[k]
  {
    FlattenStep(fs, i);
    FirstMissShift(PreOrderAll(fs[..i]), PreOrderOf(fs[i]), PreOrderAll(fs[i + 1..]), originals, k);
  }

  /** A matched `i`-th tree extends the matched prefix and its records by its own. */
  lemma MatchedInForest(fs: seq<Folder>, originals: seq<Folder>, i: nat)
    requires i < |fs| && AllMatched(PreOrderAll(fs[..i]), originals)
    requires AllMatched(PreOrderOf(fs[i]), originals)
    ensures AllMatched(PreOrderAll(fs[..i + 1]), originals)
    ensures Records(PreOrderAll(fs[..i + 1]), originals)
      == Records(PreOrderAll(fs[..i]), originals) + Records(PreOrderOf(fs[i]), originals)
  {
    PrefixStep(fs, i);
    RecordsConcat(PreOrderAll(fs[..i]), PreOrderOf(fs[i]), originals);
  }

  /** The forest splits around position `i`, and so does its pre-order. */
  lemma FlattenStep(fs: seq<Folder>, i: nat)
    requires i < |fs|
    ensures PreOrderAll(fs[..i + 1]) == PreOrderAll(fs[..i]) + PreOrderOf(fs[i])
    ensures PreOrderAll(fs) == PreOrderAll(fs[..i]) + PreOrderOf(fs[i]) + PreOrderAll(fs[i + 1..])
  {
    PrefixStep(fs, i);
    SplitAt(fs, i);
  }

  lemma PrefixStep(fs: seq<Folder>, i: nat)
    requires i < |fs|
    ensures PreOrderAll(fs[..i + 1]) == PreOrderAll(fs[..i]) + PreOrderOf(fs[i])
  {
    PreOrderSnoc(fs[..i + 1]);
    assert fs[..i + 1][..i] == fs[..i];
  }

  lemma SplitAt(fs: seq<Folder>, i: nat)
    requires i < |fs|
    ensures PreOrderAll(fs) == PreOrderAll(fs[..i + 1]) + PreOrderAll(fs[i + 1..])
  {
    assert fs == fs[..i + 1] + fs[i + 1..];
    PreOrderConcat(fs[..i + 1], fs[i + 1..]);
  }

  /** The last tree's pre-order comes last. */
  lemma PreOrderSnoc(fs: seq<Folder>)
    requires |fs| > 0
    ensures PreOrderAll(fs) == PreOrderAll(fs[..|fs| - 1]) + PreOrderOf(fs[|fs| - 1])
  {
  }

  // ---------------------------------------------------------------- mapAssetFolder

  /** `IAddOrModifyAssetFolderData`: what the request to create a folder tree carries. */
  datatype AddFolderData = AddFolderData(name: string, externalId: Option<string>, folders: seq<AddFolderData>)

  /** `mapAssetFolder`: the name, the external id and the mapped subfolders. */
  function MapAssetFolder(f: Folder): (r: AddFolderData)
    ensures r.name == f.name && r.externalId == f.externalId && |r.folders| == |f.folders|
    decreases f
  {
    AddFolderData(f.name, f.externalId, seq(|f.folders|, i requires 0 <= i < |f.folders| => MapAssetFolder(f.folders[i])))
  }

  /** A request tree read back as folders that have no id yet. */
  function Unmapped(d: AddFolderData): Folder
    decreases d
  {
    Folder("", d.name, d.externalId, seq(|d.folders|, i requires 0 <= i < |d.folders| => Unmapped(d.folders[i])))
  }

  /** The folder with every id at every depth blanked: what the request must keep. */
  function WithoutIds(f: Folder): Folder
    decreases f
  {
    Folder("", f.name, f.externalId, seq(|f.folders|, i requires 0 <= i < |f.folders| => WithoutIds(f.folders[i])))
  }

  /** Mapping loses only the ids: shape, names and external ids at every depth survive. */
  lemma {:induction false} MapAssetFolderKeepsTree(f: Folder)
    ensures Unmapped(MapAssetFolder(f)) == WithoutIds(f)
    decreases f
  {
    forall i | 0 <= i < |f.folders| {
      MapAssetFolderKeepsTree(f.folders[i]);
    }
  }

  // ---------------------------------------------------------------- stamping and matching together

  /**
   * Why the folders are stamped first: when every created folder carries, as external id,
   * the id of some exported folder, every one of them finds its original in the stamped,
   * flattened export, and its record maps that exported id to the new one.
   */
  lemma StampedFoldersMatch(fs: seq<Folder>, imported: seq<Folder>)
    requires forall k :: 0 <= k < |PreOrderAll(imported)| ==>
      exists j :: 0 <= j < |PreOrderAll(fs)| && PreOrderAll(imported)[k].externalId == Some(PreOrderAll(fs)[j].id)
    ensures AllMatched(PreOrderAll(imported), PreOrderAll(StampAll(fs)))
    ensures forall k :: 0 <= k < |PreOrderAll(imported)| ==>
      && Records(PreOrderAll(imported), PreOrderAll(StampAll(fs)))[k].originalId == PreOrderAll(imported)[k].externalId
      && Records(PreOrderAll(imported), PreOrderAll(StampAll(fs)))[k].importId == Some(PreOrderAll(imported)[k].id)
  {
    var P, S := PreOrderAll(imported), PreOrderAll(StampAll(fs));
    PreOrderStampAll(fs);
    forall k | 0 <= k < |P|
      ensures Matched(P[k], S)
    {
      var j :| 0 <= j < |PreOrderAll(fs)| && P[k].externalId == Some(PreOrderAll(fs)[j].id);
      assert S[j].externalId == P[k].externalId;
    }
    forall k | 0 <= k < |P|
      ensures Records(P, S)[k].originalId == P[k].externalId
    {
      var o := Record(P[k], S).original.folder;
      var j :| 0 <= j < |S| && S[j] == o;
      assert o == Stamp(PreOrderAll(fs)[j]);
    }
  }
}
