/**
 * The records shared by the import services: the kinds of imported objects, asset folder
 * trees, and the result list the services grow as they import (original id to new id).
 */
module CoreModels {
  import opened Wrappers
  import opened Json

  /** `obj.k` on a contract: the value under `k` when `j` is an object that has it. */
  function Field(j: Json, k: string): Option<Json> {
    if j.JObj? then Lookup(j.fields, k) else None
  }

  /** `obj.k` when it holds a string. */
  function StrField(j: Json, k: string): Option<string> {
    StrOf(Field(j, k))
  }

  /** `ItemType`: the kind tag carried by prepared items and by progress notifications. */
  datatype ItemType =
    | Taxonomy
    | ContentType
    | ContentTypeSnippet
    | ContentItem
    | LanguageVariant
    | Language
    | Asset
    | AssetFolder
    | BinaryFile
    | Workflow

  /**
   * An asset folder as the management API exchanges it: the exported contract and the
   * folder the API answers with have the same shape.
   */
  datatype Folder = Folder(id: string, name: string, externalId: Option<string>, folders: seq<Folder>)

  /** What an import result was made from: a JSON contract, or an asset folder. */
  datatype Original = OJson(json: Json) | OFolder(folder: Folder)

  /** `IImportItemResult`: the exported object, its id in the source project, and its id in the target. */
  datatype ImportItemResult = ImportItemResult(original: Original, originalId: Option<string>, importId: Option<string>)

  /** `items.find(m => m.originalId === id)?.importId`. */
  function TryFindNewId(items: seq<ImportItemResult>, id: string): (r: Option<string>)
    ensures r.Some? ==> exists i :: 0 <= i < |items| && items[i].originalId == Some(id) && items[i].importId == r
    ensures (forall i :: 0 <= i < |items| ==> items[i].originalId != Some(id)) ==> r.None?
  {
    if |items| == 0 then None
    else if items[0].originalId == Some(id) then items[0].importId
    else
      var r := TryFindNewId(items[1..], id);
      assert r.Some? ==> exists i :: 0 <= i < |items[1..]| && items[1..][i].originalId == Some(id) && items[1..][i].importId == r;
      assert forall i :: 0 <= i < |items[1..]| ==> items[1..][i] == items[i + 1];
      r
  }

  /** The first result with a matching original id decides; later ones are ignored. */
  lemma {:induction false} TryFindNewIdFirst(items: seq<ImportItemResult>, id: string, i: nat)
    requires i < |items| && items[i].originalId == Some(id)
    requires forall j :: 0 <= j < i ==> items[j].originalId != Some(id)
    ensures TryFindNewId(items, id) == items[i].importId
  {
    if i > 0 {
      TryFindNewIdFirst(items[1..], id, i - 1);
    }
  }

  /** Appending results never changes the answer for an id that already had one. */
  lemma {:induction false} TryFindNewIdAppend(items: seq<ImportItemResult>, more: seq<ImportItemResult>, id: string)
    requires exists i :: 0 <= i < |items| && items[i].originalId == Some(id)
    ensures TryFindNewId(items + more, id) == TryFindNewId(items, id)
  {
    if items[0].originalId != Some(id) {
      var i :| 0 <= i < |items| && items[i].originalId == Some(id);
      assert items[1..][i - 1] == items[i];
      assert (items + more)[1..] == items[1..] + more;
      TryFindNewIdAppend(items[1..], more, id);
    }
  }
}
