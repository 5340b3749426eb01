/**
 * `removeSkippedItemsFromImport` of the newer import service: before any id is translated,
 * each kind that has a `canImport` predicate is filtered. The loop runs over the list as it
 * was before filtering, and every rejected item removes, from the list as it is by then,
 * every item that clashes with it: for most kinds the items with the same `id`.
 */
module SkipFilter {
  import opened Wrappers
  import opened Json
  import opened CoreModels
  import opened ImportModels

  // ---------------------------------------------------------------- the generic filter

  /** The items of `xs`, in order, that clash with none of `rejected`. */
  function Survivors<T(==,!new)>(xs: seq<T>, rejected: seq<T>, clash: (T, T) -> bool): (r: seq<T>)
    ensures |r| <= |xs|
    ensures forall x :: x in r <==> (x in xs && forall y :: y in rejected ==> !clash(x, y))
  {
    if |xs| == 0 then []
    else
      var rest := Survivors(xs[1..], rejected, clash);
      assert forall x :: x in xs <==> x == xs[0] || x in xs[1..];
      if forall y :: y in rejected ==> !clash(xs[0], y) then [xs[0]] + rest else rest
  }

  /** The items `canImport` turns down, in order. */
  function Rejected<T(==,!new)>(xs: seq<T>, canImport: T -> bool): (r: seq<T>)
    ensures forall y :: y in r <==> y in xs && !canImport(y)
  {
    if |xs| == 0 then []
    else
      var n := |xs|;
      assert forall y :: y in xs <==> y in xs[..n - 1] || y == xs[n - 1];
      Rejected(xs[..n - 1], canImport) + (if canImport(xs[n - 1]) then [] else [xs[n - 1]])
  }

  /** Filtering the survivors by one more rejected item is filtering by all of them at once. */
  lemma {:induction false} SurvivorsSnoc<T(!new)>(xs: seq<T>, rejected: seq<T>, y: T, clash: (T, T) -> bool)
    ensures Survivors(Survivors(xs, rejected, clash), [y], clash) == Survivors(xs, rejected + [y], clash)
  {
    if |xs| > 0 {
      SurvivorsSnoc(xs[1..], rejected, y, clash);
      assert forall z :: z in rejected + [y] <==> z in rejected || z == y;
    }
  }

  /**
   * One kind's loop: for each item of the original list that `canImport` turns down, keep
   * only the items that do not clash with it.
   */
  method RemoveRejected<T(==,!new)>(items: seq<T>, canImport: T -> bool, clash: (T, T) -> bool) returns (r: seq<T>)
    ensures r == Survivors(items, Rejected(items, canImport), clash)
  {
    r := items;
    var i := 0;
    SurvivorsNone(items, clash);
    while i < |items|
      invariant i <= |items|
      invariant r == Survivors(items, Rejected(items[..i], canImport), clash)
    {
      var item := items[i];
      assert items[..i + 1][..i] == items[..i];
      assert Rejected(items[..i + 1], canImport)
        == Rejected(items[..i], canImport) + (if canImport(item) then [] else [item]);
      if !canImport(item) {
        SurvivorsSnoc(items, Rejected(items[..i], canImport), item, clash);
        r := Survivors(r, [item], clash);
      } else {
        assert Rejected(items[..i], canImport) + [] == Rejected(items[..i], canImport);
      }
      i := i + 1;
    }
    assert items[..i] == items;
  }

  /** `xs.filter(m => !clash(m, item))`, the filter the loop applies per rejected item. */
  lemma {:induction false} SurvivorsNone<T(!new)>(xs: seq<T>, clash: (T, T) -> bool)
    ensures Survivors(xs, [], clash) == xs
  {
    if |xs| > 0 {
      SurvivorsNone(xs[1..], clash);
    }
  }

  /** With a reflexive clash (as both id comparisons are), every surviving item was accepted. */
  lemma SurvivorsAccepted<T(!new)>(items: seq<T>, canImport: T -> bool, clash: (T, T) -> bool)
    requires forall x :: x in items ==> clash(x, x)
    ensures forall x :: x in Survivors(items, Rejected(items, canImport), clash) ==> canImport(x)
  {
    forall x | x in Survivors(items, Rejected(items, canImport), clash)
      ensures canImport(x)
    {
      if !canImport(x) {
        assert false;
      }
    }
  }

  /** A predicate that accepts every item removes none. */
  lemma SurvivorsAllAccepted<T(!new)>(items: seq<T>, canImport: T -> bool, clash: (T, T) -> bool)
    requires forall x :: x in items ==> canImport(x)
    ensures Survivors(items, Rejected(items, canImport), clash) == items
  {
    assert Rejected(items, canImport) == [] by {
      if Rejected(items, canImport) != [] {
        assert Rejected(items, canImport)[0] in Rejected(items, canImport);
      }
    }
    SurvivorsNone(items, clash);
  }

  /** The survivors keep their order: they are exactly the items one filter keeps. */
  lemma {:induction false} SurvivorsInOrder<T(!new)>(xs: seq<T>, rejected: seq<T>, clash: (T, T) -> bool, i: nat, j: nat)
    requires i < j < |Survivors(xs, rejected, clash)|
    ensures exists a, b :: (0 <= a < b < |xs| && xs[a] == Survivors(xs, rejected, clash)[i]
      && xs[b] == Survivors(xs, rejected, clash)[j])
  {
    var rest := Survivors(xs[1..], rejected, clash);
    if forall y :: y in rejected ==> !clash(xs[0], y) {
      if i == 0 {
        assert rest[j - 1] in xs[1..];
        var b :| 0 <= b < |xs[1..]| && xs[1..][b] == rest[j - 1];
        assert xs[0] == Survivors(xs, rejected, clash)[i] && xs[b + 1] == rest[j - 1];
      } else {
        SurvivorsInOrder(xs[1..], rejected, clash, i - 1, j - 1);
        var a, b :| 0 <= a < b < |xs[1..]| && xs[1..][a] == rest[i - 1] && xs[1..][b] == rest[j - 1];
        assert xs[a + 1] == rest[i - 1] && xs[b + 1] == rest[j - 1];
      }
    } else {
      SurvivorsInOrder(xs[1..], rejected, clash, i, j);
      var a, b :| 0 <= a < b < |xs[1..]| && xs[1..][a] == rest[i] && xs[1..][b] == rest[j];
      assert xs[a + 1] == rest[i] && xs[b + 1] == rest[j];
    }
  }

  // ---------------------------------------------------------------- the clashes

  /** `m.id === item.id`: two contracts clash when their ids agree (both absent included). */
  predicate SameId(m: Json, item: Json) {
    Field(m, "id") == Field(item, "id")
  }

  predicate SameFolderId(m: Folder, item: Folder) {
    m.id == item.id
  }

  function ItemId(v: Json): Option<Json> {
    Field2(v, "item", "id")
  }

  function LanguageId(v: Json): Option<Json> {
    Field2(v, "language", "id")
  }

  /**
   * The variant filter as written keeps `m` only when it differs from the rejected variant
   * in both item and language, so a variant clashes when it shares either.
   */
  predicate VariantClashAsWritten(m: Json, item: Json) {
    !(ItemId(m) != ItemId(item) && LanguageId(m) != LanguageId(item))
  }

  /** The evidently intended clash: the same item in the same language, the rejected variant itself. */
  predicate VariantClash(m: Json, item: Json) {
    ItemId(m) == ItemId(item) && LanguageId(m) == LanguageId(item)
  }

  /** A language variant of item `itemId` in language `languageId`. */
  function Variant(itemId: string, languageId: string): Json {
    JObj([("item", JObj([("id", JStr(itemId))])), ("language", JObj([("id", JStr(languageId))]))])
  }

  /**
   * Turning down the variant of item `a` in language `l1` also removes, as written, the
   * accepted variant of item `a` in `l2`; the intended filter keeps it.
   */
  lemma VariantFilterDropsSiblings(canImport: Json -> bool)
    requires !canImport(Variant("a", "l1")) && canImport(Variant("a", "l2"))
    ensures Variant("a", "l2") !in
      Survivors([Variant("a", "l1"), Variant("a", "l2")], Rejected([Variant("a", "l1"), Variant("a", "l2")], canImport), VariantClashAsWritten)
    ensures Variant("a", "l2") in
      Survivors([Variant("a", "l1"), Variant("a", "l2")], Rejected([Variant("a", "l1"), Variant("a", "l2")], canImport), VariantClash)
  {
    var v1, v2 := Variant("a", "l1"), Variant("a", "l2");
    assert ItemId(v1) == Some(JStr("a")) && ItemId(v2) == Some(JStr("a"));
    assert LanguageId(v1) == Some(JStr("l1")) && LanguageId(v2) == Some(JStr("l2"));
    assert v1 in Rejected([v1, v2], canImport);
    assert v2 !in Rejected([v1, v2], canImport);
    assert LanguageId(v1) != LanguageId(v2) by {
      assert "l1"[1] != "l2"[1];
    }
    assert forall y :: y in Rejected([v1, v2], canImport) ==> y == v1;
  }

  /** With the intended clash, a variant goes exactly when it is turned down itself or shares item and language with one that is. */
  lemma VariantFilterKeeps(items: seq<Json>, canImport: Json -> bool, v: Json)
    requires v in items
    ensures v in Survivors(items, Rejected(items, canImport), VariantClash) <==>
      forall y :: y in items && !canImport(y) ==> (ItemId(v), LanguageId(v)) != (ItemId(y), LanguageId(y))
  {
  }

  /** As written, a variant stays exactly when it differs in both item and language from every variant turned down. */
  lemma VariantFilterAsWrittenKeeps(items: seq<Json>, canImport: Json -> bool, v: Json)
    requires v in items
    ensures v in Survivors(items, Rejected(items, canImport), VariantClashAsWritten) <==>
      forall y :: y in items && !canImport(y) ==> ItemId(v) != ItemId(y) && LanguageId(v) != LanguageId(y)
  {
  }

  // ---------------------------------------------------------------- removeSkippedItemsFromImport

  /** One kind filtered by its optional predicate; without one the list stays as it is. */
  method FilterKind(items: seq<Json>, canImport: Option<Json -> bool>, clash: (Json, Json) -> bool) returns (r: seq<Json>)
    ensures canImport.None? ==> r == items
    ensures canImport.Some? ==> r == Survivors(items, Rejected(items, canImport.value), clash)
    ensures r == Keep(items, canImport, clash)
  {
    r := items;
    if canImport.Some? {
      r := RemoveRejected(items, canImport.value, clash);
    }
  }

  /** The asset folders filtered by their optional predicate. */
  method FilterFolders(folders: seq<Folder>, canImport: Option<Folder -> bool>) returns (r: seq<Folder>)
    ensures canImport.None? ==> r == folders
    ensures canImport.Some? ==> r == Survivors(folders, Rejected(folders, canImport.value), SameFolderId)
  {
    r := folders;
    if canImport.Some? {
      r := RemoveRejected(folders, canImport.value, SameFolderId);
    }
  }

  /**
   * The source with every kind filtered, the variants by `variantClash`; the binary files
   * stay as they are.
   */
  function FilteredBy(source: ImportSource, c: CanImport, variantClash: (Json, Json) -> bool): ImportSource {
    var d := source.importData;
    ImportSource(
      ImportData(
        Keep(d.taxonomies, c.taxonomy, SameId), Keep(d.contentTypeSnippets, c.contentTypeSnippet, SameId),
        Keep(d.contentTypes, c.contentType, SameId), Keep(d.contentItems, c.contentItem, SameId),
        Keep(d.languageVariants, c.languageVariant, variantClash), Keep(d.languages, c.language, SameId),
        Keep(d.assets, c.asset, SameId), Keep(d.workflows, c.workflow, SameId)),
      if c.assetFolder.Some? then Survivors(source.assetFolders, Rejected(source.assetFolders, c.assetFolder.value), SameFolderId)
      else source.assetFolders,
      source.binaryFiles)
  }

  /** The source filtered as `removeSkippedItemsFromImport` is written. */
  function Filtered(source: ImportSource, c: CanImport): ImportSource {
    FilteredBy(source, c, VariantClashAsWritten)
  }

  /** The source filtered with the intended variant clash. */
  function FilteredIntended(source: ImportSource, c: CanImport): ImportSource {
    FilteredBy(source, c, VariantClash)
  }

  function Keep(items: seq<Json>, canImport: Option<Json -> bool>, clash: (Json, Json) -> bool): seq<Json> {
    if canImport.Some? then Survivors(items, Rejected(items, canImport.value), clash) else items
  }

  /** Every kind filtered, the variants by `variantClash`. */
  method FilterSource(source: ImportSource, canImport: Option<CanImport>, variantClash: (Json, Json) -> bool) returns (r: ImportSource)
    ensures canImport.None? ==> r == source
    ensures canImport.Some? ==> r == FilteredBy(source, canImport.value, variantClash)
  {
    r := source;
    if canImport.None? {
      return;
    }
    var c := canImport.value;
    var d := source.importData;
    var assets := FilterKind(d.assets, c.asset, SameId);
    var workflows := FilterKind(d.workflows, c.workflow, SameId);
    var languages := FilterKind(d.languages, c.language, SameId);
    var folders := FilterFolders(source.assetFolders, c.assetFolder);
    var contentTypes := FilterKind(d.contentTypes, c.contentType, SameId);
    var contentItems := FilterKind(d.contentItems, c.contentItem, SameId);
    var snippets := FilterKind(d.contentTypeSnippets, c.contentTypeSnippet, SameId);
    var variants := FilterKind(d.languageVariants, c.languageVariant, variantClash);
    var taxonomies := FilterKind(d.taxonomies, c.taxonomy, SameId);
    r := ImportSource(
      ImportData(taxonomies, snippets, contentTypes, contentItems, variants, languages, assets, workflows),
      folders, source.binaryFiles);
  }

  /**
   * `removeSkippedItemsFromImport`, as written: without `canImport` nothing changes;
   * otherwise each kind with a predicate loses its rejected items and every item sharing an
   * id with one, and a variant goes when it shares its item or its language with a rejected
   * variant (see `VariantFilterDropsSiblings`).
   */
  method RemoveSkippedItemsFromImport(source: ImportSource, canImport: Option<CanImport>) returns (r: ImportSource)
    ensures canImport.None? ==> r == source
    ensures canImport.Some? ==> r == Filtered(source, canImport.value)
    ensures canImport.Some? && canImport.value.languageVariant.Some? ==> forall v :: v in source.importData.languageVariants ==>
      (v in r.importData.languageVariants <==>
        forall y :: y in source.importData.languageVariants && !canImport.value.languageVariant.value(y) ==>
          ItemId(v) != ItemId(y) && LanguageId(v) != LanguageId(y))
  {
    r := FilterSource(source, canImport, VariantClashAsWritten);
    if canImport.Some? && canImport.value.languageVariant.Some? {
      forall v | v in source.importData.languageVariants {
        VariantFilterAsWrittenKeeps(source.importData.languageVariants, canImport.value.languageVariant.value, v);
      }
    }
  }

  /**
   * `removeSkippedItemsFromImport` with the variant filter corrected: a variant goes only
   * when it is turned down itself or shares both item and language with one that is, so
   * the accepted variants of a rejected variant's item in other languages stay.
   */
  method RemoveSkippedItemsFromImportIntended(source: ImportSource, canImport: Option<CanImport>) returns (r: ImportSource)
    ensures canImport.None? ==> r == source
    ensures canImport.Some? ==> r == FilteredIntended(source, canImport.value)
    ensures canImport.Some? && canImport.value.languageVariant.Some? ==> forall v :: v in source.importData.languageVariants ==>
      (v in r.importData.languageVariants <==>
        forall y :: y in source.importData.languageVariants && !canImport.value.languageVariant.value(y) ==>
          (ItemId(v), LanguageId(v)) != (ItemId(y), LanguageId(y)))
  {
    r := FilterSource(source, canImport, VariantClash);
    if canImport.Some? && canImport.value.languageVariant.Some? {
      forall v | v in source.importData.languageVariants {
        VariantFilterKeeps(source.importData.languageVariants, canImport.value.languageVariant.value, v);
      }
    }
  }
}
