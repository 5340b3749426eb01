/**
 * JSON-like values as the restore pipeline sees them: the parsed export documents.
 * Objects keep their keys in insertion order (the order `Object.keys` reports), because
 * first-match searches and the codename cache depend on it. An absent key is JavaScript's
 * `undefined`; `Lookup` returns `None` for it.
 */
module Json {
  import opened Wrappers

  datatype Json =
    | JNull
    | JBool(b: bool)
    | JNum(n: int)
    | JStr(s: string)
    | JArr(items: seq<Json>)
    | JObj(fields: seq<(string, Json)>)

  type Fields = seq<(string, Json)>

  /** JavaScript truthiness: null, false, 0 and "" are falsy; every array and object is truthy. */
  predicate Truthy(j: Json) {
    match j
    case JNull => false
    case JBool(b) => b
    case JNum(n) => n != 0
    case JStr(s) => s != ""
    case _ => true
  }

  /** Truthiness of a property read, where an absent key reads as `undefined`. */
  predicate TruthyOpt(o: Option<Json>) {
    o.Some? && Truthy(o.value)
  }

  /** `typeof v === 'object' && v !== null`: the values a walk descends into. */
  predicate IsContainer(j: Json) {
    j.JArr? || j.JObj?
  }

  /** A string value read from a property, if it is one. */
  function StrOf(o: Option<Json>): Option<string> {
    if o.Some? && o.value.JStr? then Some(o.value.s) else None
  }

  // ---------------------------------------------------------------- case folding

  function LowerChar(c: char): char {
    if 'A' <= c <= 'Z' then (c as int + 32) as char else c
  }

  /** `toLowerCase` on the ASCII range; other characters are left as they are. */
  function Lower(s: string): (r: string)
    ensures |r| == |s|
    ensures forall i :: 0 <= i < |s| ==> r[i] == LowerChar(s[i])
  {
    seq(|s|, i requires 0 <= i < |s| => LowerChar(s[i]))
  }

  // ---------------------------------------------------------------- object fields

  function KeySet(fs: Fields): set<string> {
    set i | 0 <= i < |fs| :: fs[i].0
  }

  function Keys(fs: Fields): (ks: seq<string>)
    ensures |ks| == |fs|
    ensures forall i :: 0 <= i < |fs| ==> ks[i] == fs[i].0
  {
    seq(|fs|, i requires 0 <= i < |fs| => fs[i].0)
  }

  predicate HasKey(fs: Fields, k: string) {
    k in KeySet(fs)
  }

  /** JSON objects never repeat a key. */
  predicate UniqueKeys(fs: Fields) {
    forall i, j :: 0 <= i < j < |fs| ==> fs[i].0 != fs[j].0
  }

  /** `obj[k]`: the value stored under `k`, or `None` when the key is absent. */
  function Lookup(fs: Fields, k: string): (r: Option<Json>)
    ensures r.Some? <==> HasKey(fs, k)
  {
    if |fs| == 0 then None
    else if fs[0].0 == k then Some(fs[0].1)
    else (assert KeySet(fs) == {fs[0].0} + KeySet(fs[1..]); Lookup(fs[1..], k))
  }

  /** `obj[k] = v`: replaces the value in place when `k` is present, appends `(k, v)` otherwise. */
  function Set(fs: Fields, k: string, v: Json): (r: Fields)
    ensures HasKey(fs, k) ==> |r| == |fs|
    ensures !HasKey(fs, k) ==> r == fs + [(k, v)]
  {
    if |fs| == 0 then [(k, v)]
    else if fs[0].0 == k then [(k, v)] + fs[1..]
    else (assert KeySet(fs) == {fs[0].0} + KeySet(fs[1..]); [fs[0]] + Set(fs[1..], k, v))
  }

  /** `delete obj[k]`. */
  function Del(fs: Fields, k: string): (r: Fields)
    ensures |r| <= |fs|
  {
    if |fs| == 0 then []
    else if fs[0].0 == k then Del(fs[1..], k)
    else [fs[0]] + Del(fs[1..], k)
  }

  lemma KeySetCons(fs: Fields)
    requires |fs| > 0
    ensures KeySet(fs) == {fs[0].0} + KeySet(fs[1..])
  {
  }

  lemma LookupSet(fs: Fields, k: string, v: Json, k': string)
    ensures Lookup(Set(fs, k, v), k') == if k' == k then Some(v) else Lookup(fs, k')
  {
    if |fs| > 0 && fs[0].0 != k {
      LookupSet(fs[1..], k, v, k');
    }
  }

  lemma LookupDel(fs: Fields, k: string, k': string)
    ensures Lookup(Del(fs, k), k') == if k' == k then None else Lookup(fs, k')
  {
    if |fs| > 0 {
      LookupDel(fs[1..], k, k');
    }
  }

  lemma LookupSetAll(fs: Fields, k: string, v: Json)
    ensures forall k' :: Lookup(Set(fs, k, v), k') == if k' == k then Some(v) else Lookup(fs, k')
  {
    forall k' ensures Lookup(Set(fs, k, v), k') == if k' == k then Some(v) else Lookup(fs, k') {
      LookupSet(fs, k, v, k');
    }
  }

  lemma LookupDelAll(fs: Fields, k: string)
    ensures forall k' :: Lookup(Del(fs, k), k') == if k' == k then None else Lookup(fs, k')
  {
    forall k' ensures Lookup(Del(fs, k), k') == if k' == k then None else Lookup(fs, k') {
      LookupDel(fs, k, k');
    }
  }

  lemma KeySetSet(fs: Fields, k: string, v: Json)
    ensures KeySet(Set(fs, k, v)) == KeySet(fs) + {k}
  {
    if |fs| == 0 {
      assert Set(fs, k, v)[0].0 == k;
    } else {
      KeySetCons(fs);
      KeySetCons(Set(fs, k, v));
      if fs[0].0 != k {
        KeySetSet(fs[1..], k, v);
      }
    }
  }

  lemma KeySetDel(fs: Fields, k: string)
    ensures KeySet(Del(fs, k)) == KeySet(fs) - {k}
  {
    if |fs| > 0 {
      KeySetCons(fs);
      KeySetDel(fs[1..], k);
      if fs[0].0 != k {
        KeySetCons(Del(fs, k));
      }
    }
  }

  /** A unique head key does not occur again in the tail. */
  lemma HeadNotInTail(fs: Fields)
    requires UniqueKeys(fs) && |fs| > 0
    ensures fs[0].0 !in KeySet(fs[1..])
  {
    forall m | 0 <= m < |fs[1..]| ensures fs[1..][m].0 != fs[0].0 {
      assert fs[1..][m] == fs[m + 1];
    }
  }

  /** Prepending a key that the rest does not hold keeps the keys unique. */
  lemma UniqueCons(p: (string, Json), fs: Fields)
    requires UniqueKeys(fs) && p.0 !in KeySet(fs)
    ensures UniqueKeys([p] + fs)
  {
    var r := [p] + fs;
    forall i, j | 0 <= i < j < |r| ensures r[i].0 != r[j].0 {
      if i == 0 {
        assert r[j] == fs[j - 1];
      } else {
        assert r[i] == fs[i - 1] && r[j] == fs[j - 1];
      }
    }
  }

  lemma UniqueTail(fs: Fields)
    requires UniqueKeys(fs) && |fs| > 0
    ensures UniqueKeys(fs[1..])
  {
    forall i, j | 0 <= i < j < |fs[1..]| ensures fs[1..][i].0 != fs[1..][j].0 {
      assert fs[1..][i] == fs[i + 1] && fs[1..][j] == fs[j + 1];
    }
  }

  lemma UniqueSet(fs: Fields, k: string, v: Json)
    requires UniqueKeys(fs)
    ensures UniqueKeys(Set(fs, k, v))
  {
    if |fs| > 0 {
      HeadNotInTail(fs);
      UniqueTail(fs);
      if fs[0].0 != k {
        UniqueSet(fs[1..], k, v);
        KeySetSet(fs[1..], k, v);
        UniqueCons(fs[0], Set(fs[1..], k, v));
      } else {
        UniqueCons((k, v), fs[1..]);
      }
    }
  }

  lemma UniqueDel(fs: Fields, k: string)
    requires UniqueKeys(fs)
    ensures UniqueKeys(Del(fs, k))
  {
    if |fs| > 0 {
      HeadNotInTail(fs);
      UniqueTail(fs);
      UniqueDel(fs[1..], k);
      KeySetDel(fs[1..], k);
      if fs[0].0 != k {
        UniqueCons(fs[0], Del(fs[1..], k));
      }
    }
  }

  /** With unique keys, the value at position `i` is the one `Lookup` finds. */
  lemma LookupAt(fs: Fields, i: nat)
    requires UniqueKeys(fs) && i < |fs|
    ensures Lookup(fs, fs[i].0) == Some(fs[i].1)
  {
    if i > 0 {
      LookupAt(fs[1..], i - 1);
    }
  }

  /** With unique keys, setting the key at position `i` replaces that position. */
  lemma {:induction false} SetAt(fs: Fields, i: nat, v: Json)
    requires UniqueKeys(fs) && i < |fs|
    ensures Set(fs, fs[i].0, v) == fs[i := (fs[i].0, v)]
  {
    if i > 0 {
      var k := fs[i].0;
      assert fs[0].0 != k;
      assert fs[1..][i - 1] == fs[i];
      SetAt(fs[1..], i - 1, v);
      assert Set(fs, k, v) == [fs[0]] + fs[1..][i - 1 := (k, v)];
      assert [fs[0]] + fs[1..][i - 1 := (k, v)] == fs[i := (k, v)];
    }
  }

  lemma LookupAtAll(fs: Fields)
    requires UniqueKeys(fs)
    ensures forall i :: 0 <= i < |fs| ==> Lookup(fs, fs[i].0) == Some(fs[i].1)
  {
    forall i | 0 <= i < |fs| ensures Lookup(fs, fs[i].0) == Some(fs[i].1) {
      LookupAt(fs, i);
    }
  }

  /** Whatever `Lookup` finds is a proper part of the object. */
  lemma LookupSmaller(fs: Fields, k: string)
    requires HasKey(fs, k)
    ensures Lookup(fs, k).value < JObj(fs)
    ensures exists i :: 0 <= i < |fs| && fs[i] == (k, Lookup(fs, k).value)
  {
    if fs[0].0 != k {
      KeySetCons(fs);
      LookupSmaller(fs[1..], k);
      var i :| 0 <= i < |fs[1..]| && fs[1..][i] == (k, Lookup(fs[1..], k).value);
      assert fs[i + 1] == fs[1..][i];
    }
  }

  /** The identity keys are already lower case. */
  lemma LowerKeys()
    ensures Lower("id") == "id" && Lower("external_id") == "external_id" && Lower("codename") == "codename"
  {
    assert Lower("id") == "id";
    assert Lower("external_id") == "external_id";
    assert Lower("codename") == "codename";
  }

  // ---------------------------------------------------------------- well-formed export data

  predicate CaseOk(k: string) {
    && (Lower(k) == "id" ==> k == "id")
    && (Lower(k) == "external_id" ==> k == "external_id")
    && (Lower(k) == "codename" ==> k == "codename")
  }

  /** The values the export documents hold under the three identity keys. */
  predicate KeyOk(k: string, v: Json) {
    && CaseOk(k)
    && (k == "id" ==> v.JStr?)
    && (k == "external_id" ==> v.JStr? || v.JNull?)
    && (k == "codename" ==> v.JStr? || v.JNull?)
  }

  /**
   * The export documents the mutating walks are given: keys are unique, no key other than
   * `id`, `external_id` and `codename` themselves lower-cases to one of them, every `id` is a
   * string and every `external_id` and `codename` is a string or null.
   */
  predicate Clean(j: Json) {
    match j
    case JArr(xs) => forall i :: 0 <= i < |xs| ==> Clean(xs[i])
    case JObj(fs) =>
      && UniqueKeys(fs)
      && (forall i :: 0 <= i < |fs| ==> KeyOk(fs[i].0, fs[i].1))
      && (forall i :: 0 <= i < |fs| ==> Clean(fs[i].1))
    case _ => true
  }

  lemma CleanLookup(fs: Fields, k: string)
    requires Clean(JObj(fs)) && HasKey(fs, k)
    ensures KeyOk(k, Lookup(fs, k).value) && Clean(Lookup(fs, k).value)
  {
    LookupSmaller(fs, k);
  }

  lemma CleanSet(fs: Fields, k: string, v: Json)
    requires Clean(JObj(fs)) && KeyOk(k, v) && Clean(v)
    ensures Clean(JObj(Set(fs, k, v)))
  {
    UniqueSet(fs, k, v);
    var r := Set(fs, k, v);
    KeySetSet(fs, k, v);
    forall i | 0 <= i < |r| ensures KeyOk(r[i].0, r[i].1) && Clean(r[i].1) {
      LookupAt(r, i);
      LookupSet(fs, k, v, r[i].0);
      if r[i].0 != k {
        CleanLookup(fs, r[i].0);
      }
    }
  }

  lemma CleanDel(fs: Fields, k: string)
    requires Clean(JObj(fs))
    ensures Clean(JObj(Del(fs, k)))
  {
    UniqueDel(fs, k);
    var r := Del(fs, k);
    KeySetDel(fs, k);
    forall i | 0 <= i < |r| ensures KeyOk(r[i].0, r[i].1) && Clean(r[i].1) {
      LookupAt(r, i);
      LookupDel(fs, k, r[i].0);
      assert r[i].0 in KeySet(r);
      CleanLookup(fs, r[i].0);
    }
  }
}
