/**
 * `IdTranslateHelper`: once an object has been created in the target project, references to
 * it by its source id are rewritten to its new id, looked up in the list of import results.
 */
module IdTranslateHelper {
  import opened Wrappers
  import opened Json
  import opened CoreModels

  /** The value stored under an `id` key after translation: the first matching result's truthy new id, or the old value. */
  function NewId(v: Json, items: seq<ImportItemResult>): Json {
    if v.JStr? && TryFindNewId(items, v.s).Some? && TryFindNewId(items, v.s).value != ""
    then JStr(TryFindNewId(items, v.s).value)
    else v
  }

  /** The translation of the value stored under key `k`: the walk does not descend under `"0"`. */
  function NewIdsAt(k: string, v: Json, items: seq<ImportItemResult>): Json
    decreases v, 2
  {
    if k == "0" then v
    else if k == "id" then NewId(v, items)
    else NewIds(v, items)
  }

  /** The document `replaceIdReferencesWithNewId` leaves behind. */
  function NewIds(j: Json, items: seq<ImportItemResult>): Json
    decreases j, 1
  {
    match j
    case JArr(xs) => JArr(seq(|xs|, i requires 0 <= i < |xs| => NewIds(xs[i], items)))
    case JObj(fs) => JObj(seq(|fs|, i requires 0 <= i < |fs| => (fs[i].0, NewIdsAt(fs[i].0, fs[i].1, items))))
    case _ => j
  }

  /**
   * `replaceIdReferencesWithNewId`: every `id` at any depth whose first matching import result
   * has a truthy new id gets that id; nothing else changes. The walk recurses into the value
   * of every key except `"0"` (for a string value the JavaScript recursion finds only digit
   * keys and stops, so it changes nothing).
   */
  method ReplaceIdReferencesWithNewId(data: Json, items: seq<ImportItemResult>) returns (r: Json)
    requires Clean(data)
    ensures r == NewIds(data, items)
    decreases data, 1
  {
    match data {
      case JArr(xs) =>
        r := NewIdsInItems(xs, items);
      case JObj(fs) =>
        r := NewIdsInFields(fs, items);
      case _ =>
        r := data;
    }
  }

  method NewIdsInItems(xs: seq<Json>, items: seq<ImportItemResult>) returns (r: Json)
    requires Clean(JArr(xs))
    ensures r == NewIds(JArr(xs), items)
    decreases JArr(xs), 0
  {
    var ys := xs;
    var i := 0;
    while i < |xs|
      invariant i <= |xs| && |ys| == |xs|
      invariant forall j :: 0 <= j < i ==> ys[j] == NewIds(xs[j], items)
      invariant forall j :: i <= j < |xs| ==> ys[j] == xs[j]
    {
      var y := ReplaceIdReferencesWithNewId(xs[i], items);
      ys := ys[i := y];
      i := i + 1;
    }
    r := JArr(ys);
  }

  method NewIdsInFields(fs: Fields, items: seq<ImportItemResult>) returns (r: Json)
    requires Clean(JObj(fs))
    ensures r == NewIds(JObj(fs), items)
    decreases JObj(fs), 0
  {
    var cur := fs;
    var i := 0;
    while i < |fs|
      invariant i <= |fs| && |cur| == |fs|
      invariant forall j :: 0 <= j < i ==> cur[j] == (fs[j].0, NewIdsAt(fs[j].0, fs[j].1, items))
      invariant forall j :: i <= j < |fs| ==> cur[j] == fs[j]
    {
      var k := fs[i].0;
      assert UniqueKeys(cur) && cur[i] == fs[i];
      LookupAt(cur, i);
      var val := Lookup(cur, k);
      assert KeyOk(k, fs[i].1);
      if Lower(k) == "id" {
        var id := Lookup(cur, "id");
        var newId := TryFindNewId(items, id.value.s);
        if newId.Some? && newId.value != "" {
          SetAt(cur, i, JStr(newId.value));
          cur := Set(cur, "id", JStr(newId.value));
        }
      } else if k != "0" {
        assert k != "id" by {
          LowerKeys();
        }
        var child := ReplaceIdReferencesWithNewId(val.value, items);
        SetAt(cur, i, child);
        cur := Set(cur, k, child);
      }
      i := i + 1;
    }
    r := JObj(cur);
  }

  // ---------------------------------------------------------------- what the translation keeps

  /** `b` is `a` with, at most, other strings stored under `id` keys: same keys in the same order, same leaves. */
  predicate OnlyIdsDiffer(a: Json, b: Json) {
    match a
    case JArr(xs) =>
      && b.JArr? && |b.items| == |xs|
      && forall i :: 0 <= i < |xs| ==> OnlyIdsDiffer(xs[i], b.items[i])
    case JObj(fs) =>
      && b.JObj? && |b.fields| == |fs|
      && forall i :: 0 <= i < |fs| ==>
           && b.fields[i].0 == fs[i].0
           && if fs[i].0 == "id" then b.fields[i].1 == fs[i].1 || (fs[i].1.JStr? && b.fields[i].1.JStr?)
              else OnlyIdsDiffer(fs[i].1, b.fields[i].1)
    case _ => b == a
  }

  /** Only values stored under `id` change, no key is added or removed, and scalar leaves stay as they are. */
  lemma {:induction false} NewIdsOnlyChangeIds(j: Json, items: seq<ImportItemResult>)
    ensures OnlyIdsDiffer(j, NewIds(j, items))
    decreases j
  {
    match j
    case JArr(xs) =>
      forall i | 0 <= i < |xs| ensures OnlyIdsDiffer(xs[i], NewIds(j, items).items[i]) {
        NewIdsOnlyChangeIds(xs[i], items);
      }
    case JObj(fs) =>
      forall i | 0 <= i < |fs| && fs[i].0 != "id" && fs[i].0 != "0"
        ensures OnlyIdsDiffer(fs[i].1, NewIds(j, items).fields[i].1)
      {
        NewIdsOnlyChangeIds(fs[i].1, items);
      }
      forall i | 0 <= i < |fs| && fs[i].0 == "0" ensures OnlyIdsDiffer(fs[i].1, fs[i].1) {
        OnlyIdsDifferRefl(fs[i].1);
      }
    case _ =>
  }

  lemma {:induction false} OnlyIdsDifferRefl(j: Json)
    ensures OnlyIdsDiffer(j, j)
  {
    match j
    case JArr(xs) =>
      forall i | 0 <= i < |xs| ensures OnlyIdsDiffer(xs[i], xs[i]) {
        OnlyIdsDifferRefl(xs[i]);
      }
    case JObj(fs) =>
      forall i | 0 <= i < |fs| ensures OnlyIdsDiffer(fs[i].1, fs[i].1) {
        OnlyIdsDifferRefl(fs[i].1);
      }
    case _ =>
  }

  /** With an empty list of import results the data is left as it was. */
  lemma {:induction false} NewIdsNone(j: Json)
    ensures NewIds(j, []) == j
    decreases j
  {
    match j
    case JArr(xs) =>
      forall i | 0 <= i < |xs| ensures NewIds(xs[i], []) == xs[i] {
        NewIdsNone(xs[i]);
      }
      assert NewIds(j, []).items == xs;
    case JObj(fs) =>
      forall i | 0 <= i < |fs| ensures NewIdsAt(fs[i].0, fs[i].1, []) == fs[i].1 {
        if fs[i].0 != "0" && fs[i].0 != "id" {
          NewIdsNone(fs[i].1);
        }
      }
      assert NewIds(j, []).fields == fs;
    case _ =>
  }

  /** Reading a key of a translated object reads the translation of what was stored there. */
  lemma {:induction false} LookupNewIds(fs: Fields, items: seq<ImportItemResult>, k: string)
    ensures Lookup(NewIds(JObj(fs), items).fields, k)
         == if Lookup(fs, k).Some? then Some(NewIdsAt(k, Lookup(fs, k).value, items)) else None
  {
    if |fs| > 0 && fs[0].0 != k {
      LookupNewIds(fs[1..], items, k);
      assert NewIds(JObj(fs), items).fields[1..] == NewIds(JObj(fs[1..]), items).fields;
    }
  }

  /**
   * An `id` becomes the new id of the first import result whose original id it is, when that
   * new id is truthy, and stays as it was when that result has none or no result matches.
   */
  lemma IdTakesFirstMatch(fs: Fields, items: seq<ImportItemResult>, x: string, i: nat)
    requires Lookup(fs, "id") == Some(JStr(x))
    requires i < |items| && items[i].originalId == Some(x)
    requires forall j :: 0 <= j < i ==> items[j].originalId != Some(x)
    ensures var out := Lookup(NewIds(JObj(fs), items).fields, "id");
      if items[i].importId.Some? && items[i].importId.value != "" then out == Some(JStr(items[i].importId.value))
      else out == Some(JStr(x))
  {
    LookupNewIds(fs, items, "id");
    TryFindNewIdFirst(items, x, i);
  }

  /**
   * The `id` of a translated object, read back: the first matching result's truthy new id,
   * else the old id; in particular an id no result names stays as it was.
   */
  lemma IdTranslation(fs: Fields, items: seq<ImportItemResult>, x: string)
    requires Lookup(fs, "id") == Some(JStr(x))
    ensures var n := TryFindNewId(items, x);
      Lookup(NewIds(JObj(fs), items).fields, "id") == Some(JStr(if n.Some? && n.value != "" then n.value else x))
    ensures (forall j :: 0 <= j < |items| ==> items[j].originalId != Some(x)) ==>
      Lookup(NewIds(JObj(fs), items).fields, "id") == Some(JStr(x))
  {
    LookupNewIds(fs, items, "id");
  }

  /** A new id is not looked up again: with results `a -> b` and `b -> c`, id `a` becomes `b`. */
  lemma NewIdNotRetranslated(a: Json, b: Json)
    ensures var items := [ImportItemResult(OJson(a), Some("a"), Some("b")), ImportItemResult(OJson(b), Some("b"), Some("c"))];
      NewIds(JObj([("id", JStr("a"))]), items) == JObj([("id", JStr("b"))])
  {
    var items := [ImportItemResult(OJson(a), Some("a"), Some("b")), ImportItemResult(OJson(b), Some("b"), Some("c"))];
    assert TryFindNewId(items, "a") == Some("b");
    assert NewIds(JObj([("id", JStr("a"))]), items).fields[0] == ("id", JStr("b"));
  }
}
