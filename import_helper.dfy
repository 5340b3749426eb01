/**
 * `ImportHelper` of the older import service: the export's ids are replaced by codenames,
 * taxonomies, snippets and content types are wrapped into prepared items, each item learns
 * the codenames it refers to, and the list is sorted with a comparator over those
 * dependencies.
 *
 * JavaScript's `Array.prototype.sort` picks its own arrangement (and the comparator is not
 * an order, see `CompareNotAntisymmetric`), so the arrangement the engine produces is a
 * parameter `order`: a rearrangement of the positions `0 .. n-1`.
 */
module ImportHelper {
  import opened Wrappers
  import opened Json
  import opened JsonWalk
  import opened CoreModels
  import CodenameTranslateHelper

  /** `IPreparedImportItem`. */
  datatype PreparedItem = PreparedItem(itemType: ItemType, codename: string, item: Json, deps: seq<string>)

  /** The string a type tag has in JavaScript. */
  function TypeName(t: ItemType): string {
    match t
    case Taxonomy => "taxonomy"
    case ContentType => "contentType"
    case ContentTypeSnippet => "contentTypeSnippet"
    case ContentItem => "contentItem"
    case LanguageVariant => "languageVariant"
    case Language => "language"
    case Asset => "asset"
    case AssetFolder => "assetFolder"
    case BinaryFile => "binaryFile"
    case Workflow => "workflow"
  }

  function StrItems(s: seq<string>): (r: seq<Json>)
    ensures |r| == |s| && forall i :: 0 <= i < |s| ==> r[i] == JStr(s[i])
  {
    seq(|s|, i requires 0 <= i < |s| => JStr(s[i]))
  }

  /** The prepared item as the object the codename walk is given. */
  function WrapperJson(p: PreparedItem): Json {
    JObj([("codename", JStr(p.codename)), ("deps", JArr(StrItems(p.deps))),
          ("item", p.item), ("type", JStr(TypeName(p.itemType)))])
  }

  // ---------------------------------------------------------------- flattenExportData

  /** A contract as the typings describe it: an object with a string codename. */
  predicate ItemShape(j: Json) {
    j.JObj? && StrOf(Lookup(j.fields, "codename")).Some?
  }

  function CodenameOf(j: Json): string
    requires ItemShape(j)
  {
    StrOf(Lookup(j.fields, "codename")).value
  }

  predicate ListShape(o: Option<Json>) {
    o.Some? && o.value.JArr? && forall i :: 0 <= i < |o.value.items| ==> ItemShape(o.value.items[i])
  }

  /** `IExportData` as far as preparing reads it: the three lists of contracts. */
  predicate ExportShape(e: Json) {
    && e.JObj?
    && ListShape(Lookup(e.fields, "taxonomies"))
    && ListShape(Lookup(e.fields, "contentTypeSnippets"))
    && ListShape(Lookup(e.fields, "contentTypes"))
  }

  function ListOf(e: Json, k: string): seq<Json>
    requires e.JObj? && ListShape(Lookup(e.fields, k))
  {
    Lookup(e.fields, k).value.items
  }

  function Taxonomies(e: Json): seq<Json> requires ExportShape(e) { ListOf(e, "taxonomies") }
  function Snippets(e: Json): seq<Json> requires ExportShape(e) { ListOf(e, "contentTypeSnippets") }
  function ContentTypes(e: Json): seq<Json> requires ExportShape(e) { ListOf(e, "contentTypes") }

  function ExportSize(e: Json): nat
    requires ExportShape(e)
  {
    |Taxonomies(e)| + |Snippets(e)| + |ContentTypes(e)|
  }

  function Wrap(ms: seq<Json>, t: ItemType): (r: seq<PreparedItem>)
    requires forall i :: 0 <= i < |ms| ==> ItemShape(ms[i])
    ensures |r| == |ms|
  {
    seq(|ms|, i requires 0 <= i < |ms| => PreparedItem(t, CodenameOf(ms[i]), ms[i], []))
  }

  /** `p` wraps contract `m` with tag `t` and no dependencies yet. */
  predicate Wraps(p: PreparedItem, m: Json, t: ItemType)
    requires ItemShape(m)
  {
    p.codename == CodenameOf(m) && p.deps == [] && p.item == m && p.itemType == t
  }

  /**
   * `flattenExportData`: all taxonomies, then all snippets, then all content types, each
   * wrapped with its own codename, empty `deps` and its kind.
   */
  function FlattenExportData(e: Json): (r: seq<PreparedItem>)
    requires ExportShape(e)
    ensures |r| == ExportSize(e)
    ensures forall i :: 0 <= i < |Taxonomies(e)| ==> Wraps(r[i], Taxonomies(e)[i], Taxonomy)
    ensures forall i :: 0 <= i < |Snippets(e)| ==>
      Wraps(r[|Taxonomies(e)| + i], Snippets(e)[i], ContentTypeSnippet)
    ensures forall i :: 0 <= i < |ContentTypes(e)| ==>
      Wraps(r[|Taxonomies(e)| + |Snippets(e)| + i], ContentTypes(e)[i], ContentType)
  {
    Wrap(Taxonomies(e), Taxonomy) + Wrap(Snippets(e), ContentTypeSnippet) + Wrap(ContentTypes(e), ContentType)
  }

  // ---------------------------------------------------------------- getDependenciesOfItem

  /** `deps.filter(m => m !== x)`. */
  function Without(s: seq<string>, x: string): (r: seq<string>)
    ensures |r| <= |s|
    ensures forall c :: c in r <==> c in s && c != x
    ensures CodenameTranslateHelper.NoDuplicates(s) ==> CodenameTranslateHelper.NoDuplicates(r)
  {
    if |s| == 0 then []
    else
      var rest := Without(s[1..], x);
      assert CodenameTranslateHelper.NoDuplicates(s) ==> s[0] !in s[1..];
      if s[0] == x then rest else [s[0]] + rest
  }

  lemma CleanWrapper(p: PreparedItem)
    requires Clean(p.item)
    ensures Clean(WrapperJson(p))
  {
    assert Lower("deps") == "deps" && Lower("item") == "item" && Lower("type") == "type";
    LowerKeys();
  }

  /** The wrapper refers to its own codename and to what the contract refers to, nothing else. */
  lemma RefersWrapper(p: PreparedItem, c: string)
    ensures CodenameTranslateHelper.Refers(WrapperJson(p), c) <==>
      (c == p.codename && c != "") || CodenameTranslateHelper.Refers(p.item, c)
  {
    var fs := WrapperJson(p).fields;
    assert Lookup(fs, "codename") == Some(JStr(p.codename));
    assert Lookup(fs, "id") == None;
    var ds := StrItems(p.deps);
    assert !CodenameTranslateHelper.Refers(JArr(ds), c) by {
      forall i | 0 <= i < |ds| ensures !CodenameTranslateHelper.Refers(ds[i], c) {
        assert ds[i].JStr?;
      }
    }
    assert !CodenameTranslateHelper.Refers(fs[0].1, c);
    assert !CodenameTranslateHelper.Refers(fs[3].1, c);
    assert fs[1].1 == JArr(ds) && fs[2].1 == p.item;
  }

  /**
   * `getDependenciesOfItem`: the codenames the walk finds in the wrapper, without the item's
   * own, each once. They are exactly the codenames of the objects inside the contract that
   * have a truthy codename and no truthy id.
   */
  method GetDependenciesOfItem(p: PreparedItem) returns (deps: seq<string>)
    requires Clean(p.item)
    ensures CodenameTranslateHelper.NoDuplicates(deps)
    ensures forall c :: c in deps <==> c != p.codename && CodenameTranslateHelper.Refers(p.item, c)
  {
    CleanWrapper(p);
    var found := CodenameTranslateHelper.ExtractReferencedCodenames(WrapperJson(p), []);
    forall c ensures c in found <==> (c == p.codename && c != "") || CodenameTranslateHelper.Refers(p.item, c) {
      RefersWrapper(p, c);
    }
    deps := Without(found, p.codename);
  }

  // ---------------------------------------------------------------- orderItemsByDeps

  /** The sort comparator: 0 for the same codename, 1 when `a` depends on `b`, -1 otherwise. */
  function Compare(a: PreparedItem, b: PreparedItem): (r: int)
    ensures r == 0 <==> a.codename == b.codename
    ensures r == 1 <==> a.codename != b.codename && b.codename in a.deps
    ensures r == -1 <==> a.codename != b.codename && b.codename !in a.deps
  {
    if a.codename == b.codename then 0
    else if b.codename in a.deps then 1
    else -1
  }

  /** Two unrelated items each compare below the other: the comparator is no order. */
  lemma CompareNotAntisymmetric()
    ensures exists a, b :: Compare(a, b) == -1 && Compare(b, a) == -1
  {
    var a := PreparedItem(Taxonomy, "a", JNull, []);
    var b := PreparedItem(Taxonomy, "b", JNull, []);
    assert Compare(a, b) == -1 && Compare(b, a) == -1;
  }

  /** `q` is `p` after the dependency loop: the found dependencies appended to its `deps`. */
  ghost predicate DepsResolved(p: PreparedItem, q: PreparedItem) {
    && q.itemType == p.itemType && q.codename == p.codename && q.item == p.item
    && |p.deps| <= |q.deps| && q.deps[..|p.deps|] == p.deps
    && CodenameTranslateHelper.NoDuplicates(q.deps[|p.deps|..])
    && forall c :: c in q.deps[|p.deps|..] <==> c != p.codename && CodenameTranslateHelper.Refers(p.item, c)
  }

  /** After the loop, `a` sorts after `b` exactly when `a` refers to `b` or listed it already. */
  lemma CompareResolved(p: PreparedItem, a: PreparedItem, b: PreparedItem)
    requires DepsResolved(p, a)
    ensures Compare(a, b) == 1 <==>
      a.codename != b.codename && (b.codename in p.deps || CodenameTranslateHelper.Refers(p.item, b.codename))
  {
    assert a.deps == p.deps + a.deps[|p.deps|..];
  }

  function Range(n: nat): (r: seq<nat>)
    ensures |r| == n && forall i :: 0 <= i < n ==> r[i] == i
  {
    seq(n, i requires 0 <= i < n => i)
  }

  /** `order` lists every position below `n` exactly once. */
  predicate IsArrangement(order: seq<nat>, n: nat) {
    && |order| == n
    && (forall k :: 0 <= k < |order| ==> order[k] < n)
    && multiset(order) == multiset(Range(n))
  }

  function Arrange<T>(s: seq<T>, order: seq<nat>): (r: seq<T>)
    requires forall k :: 0 <= k < |order| ==> order[k] < |s|
    ensures |r| == |order| && forall k :: 0 <= k < |order| ==> r[k] == s[order[k]]
  {
    seq(|order|, k requires 0 <= k < |order| => s[order[k]])
  }

  lemma ArrangeSplit<T>(s: seq<T>, p: seq<nat>, q: seq<nat>)
    requires forall k :: 0 <= k < |p| ==> p[k] < |s|
    requires forall k :: 0 <= k < |q| ==> q[k] < |s|
    ensures Arrange(s, p + q) == Arrange(s, p) + Arrange(s, q)
  {
  }

  lemma MultisetRemove(q: seq<nat>, j: nat)
    requires j < |q|
    ensures q == q[..j] + [q[j]] + q[j + 1..]
    ensures multiset(q[..j] + q[j + 1..]) == multiset(q) - multiset{q[j]}
  {
    assert q == q[..j] + [q[j]] + q[j + 1..];
  }

  /** The first position of `p` occurs in `q`; without it the two still agree. */
  lemma PickFirst(p: seq<nat>, q: seq<nat>) returns (j: nat)
    requires |p| > 0 && multiset(p) == multiset(q)
    ensures j < |q| && q[j] == p[0] && q == q[..j] + [p[0]] + q[j + 1..]
    ensures multiset(p[1..]) == multiset(DropAt(q, j))
  {
    assert p[0] in multiset(q);
    assert p[0] in q;
    j :| 0 <= j < |q| && q[j] == p[0];
    MultisetRemove(q, j);
    MultisetRemove(p, 0);
    assert p[..0] + p[1..] == p[1..];
  }

  /** Arrangements with the same positions, counted with multiplicity, hold the same elements. */
  lemma {:induction false} ArrangeSameMultiset<T>(s: seq<T>, p: seq<nat>, q: seq<nat>)
    requires forall k :: 0 <= k < |p| ==> p[k] < |s|
    requires forall k :: 0 <= k < |q| ==> q[k] < |s|
    requires multiset(p) == multiset(q)
    ensures multiset(Arrange(s, p)) == multiset(Arrange(s, q))
    decreases |p|
  {
    if |p| == 0 {
      assert |multiset(q)| == 0;
      assert q == [];
    } else {
      var j := PickFirst(p, q);
      ArrangeAt(s, q, j);
      ArrangeAt(s, p, 0);
      assert DropAt(p, 0) == p[1..];
      ArrangeSameMultiset(s, p[1..], DropAt(q, j));
    }
  }

  /** `q` without its `j`th position. */
  function DropAt(q: seq<nat>, j: nat): (r: seq<nat>)
    requires j < |q|
    ensures |r| == |q| - 1
  {
    q[..j] + q[j + 1..]
  }

  /** An arrangement holds the element at position `q[j]` and the arrangement of the other positions. */
  lemma ArrangeAt<T>(s: seq<T>, q: seq<nat>, j: nat)
    requires forall k :: 0 <= k < |q| ==> q[k] < |s|
    requires j < |q|
    ensures forall k :: 0 <= k < |DropAt(q, j)| ==> DropAt(q, j)[k] < |s|
    ensures multiset(Arrange(s, q)) == multiset{s[q[j]]} + multiset(Arrange(s, DropAt(q, j)))
  {
    assert q == q[..j] + [q[j]] + q[j + 1..];
    ArrangeMiddle(s, q[..j], q[j], q[j + 1..]);
  }

  lemma ArrangeMiddle<T>(s: seq<T>, q1: seq<nat>, x: nat, q2: seq<nat>)
    requires forall k :: 0 <= k < |q1| ==> q1[k] < |s|
    requires forall k :: 0 <= k < |q2| ==> q2[k] < |s|
    requires x < |s|
    ensures multiset(Arrange(s, q1 + [x] + q2)) == multiset{s[x]} + multiset(Arrange(s, q1 + q2))
  {
    ArrangeSplit(s, q1 + [x], q2);
    ArrangeSplit(s, q1, [x]);
    ArrangeSplit(s, q1, q2);
  }

  /** Any arrangement of all positions is a permutation. */
  lemma ArrangementPermutes<T>(s: seq<T>, order: seq<nat>)
    requires IsArrangement(order, |s|)
    ensures multiset(Arrange(s, order)) == multiset(s)
  {
    ArrangeSameMultiset(s, order, Range(|s|));
    assert Arrange(s, Range(|s|)) == s;
  }

  /**
   * `orderItemsByDeps`: every item gets its dependencies appended (`resolved`, the items
   * after the loop), then the engine rearranges them (`sorted`), a permutation of `resolved`.
   */
  method OrderItemsByDeps(items: seq<PreparedItem>, order: seq<nat>) returns (resolved: seq<PreparedItem>, sorted: seq<PreparedItem>)
    requires forall i :: 0 <= i < |items| ==> Clean(items[i].item)
    requires IsArrangement(order, |items|)
    ensures |resolved| == |items| && forall i :: 0 <= i < |items| ==> DepsResolved(items[i], resolved[i])
    ensures |sorted| == |items| && forall k :: 0 <= k < |items| ==> sorted[k] == resolved[order[k]]
    ensures multiset(sorted) == multiset(resolved)
  {
    resolved := items;
    var i := 0;
    while i < |items|
      invariant i <= |items| && |resolved| == |items|
      invariant forall j :: 0 <= j < i ==> DepsResolved(items[j], resolved[j])
      invariant forall j :: i <= j < |items| ==> resolved[j] == items[j]
    {
      var d := GetDependenciesOfItem(resolved[i]);
      var p := resolved[i];
      resolved := resolved[i := p.(deps := p.deps + d)];
      assert resolved[i].deps[|p.deps|..] == d;
      i := i + 1;
    }
    sorted := Arrange(resolved, order);
    ArrangementPermutes(resolved, order);
  }

  // ---------------------------------------------------------------- prepareImportData

  /** A walk of the codename rewrite keeps the three lists and each contract's string codename. */
  lemma WalkedKeepsShape(a: Json, b: Json, m: Mode)
    requires Clean(a) && ExportShape(a) && m.CnMode? && Walked(a, b, m)
    ensures ExportShape(b)
    ensures ExportSize(b) == ExportSize(a)
  {
    WalkedKeepsList(a, b, m, "taxonomies");
    WalkedKeepsList(a, b, m, "contentTypeSnippets");
    WalkedKeepsList(a, b, m, "contentTypes");
  }

  lemma WalkedKeepsList(a: Json, b: Json, m: Mode, k: string)
    requires Clean(a) && a.JObj? && ListShape(Lookup(a.fields, k)) && m.CnMode? && Walked(a, b, m)
    requires k !in Reserved(m)
    ensures b.JObj? && ListShape(Lookup(b.fields, k))
    ensures |Lookup(b.fields, k).value.items| == |Lookup(a.fields, k).value.items|
  {
    var fa := a.fields;
    assert k in KeySet(fa);
    var i :| 0 <= i < |fa| && fa[i].0 == k;
    LookupAt(fa, i);
    var xs := fa[i].1.items;
    var ys := Lookup(b.fields, k).value.items;
    forall j | 0 <= j < |xs| ensures ItemShape(ys[j]) {
      assert Walked(xs[j], ys[j], m);
      assert Local(m, xs[j].fields, ys[j].fields);
    }
  }

  /**
   * `prepareImportData`: ids of the whole export are replaced by codenames first (the export
   * is the document searched), then the rewritten contracts are flattened and ordered.
   */
  method PrepareImportData(exportData: Json, order: seq<nat>) returns (translated: Json, ordered: seq<PreparedItem>)
    requires Clean(exportData) && ExportShape(exportData)
    requires IsArrangement(order, ExportSize(exportData))
    ensures Clean(translated) && Walked(exportData, translated, CnMode(false, exportData, translated, None))
    ensures ExportShape(translated) && ExportSize(translated) == ExportSize(exportData)
    ensures |ordered| == ExportSize(exportData)
    ensures forall k :: 0 <= k < |ordered| ==> DepsResolved(FlattenExportData(translated)[order[k]], ordered[k])
    ensures exists resolved: seq<PreparedItem> :: (|resolved| == |ordered| && multiset(ordered) == multiset(resolved)
      && forall i :: 0 <= i < |resolved| ==> DepsResolved(FlattenExportData(translated)[i], resolved[i]))
  {
    translated := CodenameTranslateHelper.ReplaceIdReferencesWithCodenames(Top, exportData);
    WalkedKeepsShape(exportData, translated, CnMode(false, exportData, translated, None));
    var items := FlattenExportData(translated);
    forall i | 0 <= i < |items| ensures Clean(items[i].item) {
      FlattenedClean(translated, i);
    }
    var resolved;
    resolved, ordered := OrderItemsByDeps(items, order);
  }

  /** The contracts a clean exportData lists are clean. */
  lemma FlattenedClean(e: Json, i: nat)
    requires Clean(e) && ExportShape(e) && i < ExportSize(e)
    ensures Clean(FlattenExportData(e)[i].item)
  {
    WrappedClean(e, FlattenExportData(e), i);
  }

  /** What wraps the three lists of a clean exportData holds clean contracts. */
  lemma WrappedClean(e: Json, r: seq<PreparedItem>, i: nat)
    requires Clean(e) && ExportShape(e) && i < ExportSize(e) && |r| == ExportSize(e)
    requires forall i :: 0 <= i < |Taxonomies(e)| ==> Wraps(r[i], Taxonomies(e)[i], Taxonomy)
    requires forall i :: 0 <= i < |Snippets(e)| ==>
      Wraps(r[|Taxonomies(e)| + i], Snippets(e)[i], ContentTypeSnippet)
    requires forall i :: 0 <= i < |ContentTypes(e)| ==>
      Wraps(r[|Taxonomies(e)| + |Snippets(e)| + i], ContentTypes(e)[i], ContentType)
    ensures Clean(r[i].item)
  {
    var t, s := |Taxonomies(e)|, |Snippets(e)|;
    if i < t {
      ListClean(e, "taxonomies", i);
    } else if i < t + s {
      ListClean(e, "contentTypeSnippets", i - t);
      assert Wraps(r[t + (i - t)], Snippets(e)[i - t], ContentTypeSnippet);
    } else {
      ListClean(e, "contentTypes", i - t - s);
      assert Wraps(r[t + s + (i - t - s)], ContentTypes(e)[i - t - s], ContentType);
    }
  }

  lemma ListClean(e: Json, k: string, i: nat)
    requires Clean(e) && e.JObj? && ListShape(Lookup(e.fields, k)) && i < |ListOf(e, k)|
    ensures Clean(ListOf(e, k)[i])
  {
    CleanLookup(e.fields, k);
  }
}
