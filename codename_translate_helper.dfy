/**
 * `CodenameTranslateHelper`, the older snapshot of the reference rewriting: before anything
 * is imported, ids of the export are replaced by codenames searched for in the export itself
 * (through `id` only, without a memo), and the codenames an exported item refers to are
 * collected so that the items can be ordered by their dependencies.
 *
 * The JavaScript functions update the parsed export and the result list in place; here each
 * returns the rewritten value or the grown list.
 */
module CodenameTranslateHelper {
  import opened Wrappers
  import opened Json
  import opened JsonWalk
  import opened CodenameWalk

  // ---------------------------------------------------------------- tryFindCodenameForId

  /** Object position `j` is its `id`, equal to `x`, in an object with a codename. */
  predicate IdMatchAt(fs: Fields, j: nat, x: string)
    requires j < |fs|
  {
    && fs[j].0 == "id"
    && Lookup(fs, "id") == Some(JStr(x))
    && TruthyOpt(Lookup(fs, "codename")) && Lookup(fs, "codename").value.JStr?
  }

  /**
   * `tryFindCodenameForId`: the walk visits the document in order and answers with the
   * codename of the first object whose own `id` is `findId` and whose codename is truthy;
   * `found` is the answer so far, which a match in a later array item or key replaces.
   */
  method TryFindCodenameForId(findId: string, data: Json, found: Option<string>) returns (r: Option<string>)
    requires Clean(data)
    ensures r.Some? ==> r == found || Witness(false, data, findId, r.value)
    ensures r.None? <==> found.None? && !HasWitness(false, data, findId)
    decreases data, 1
  {
    match data {
      case JArr(xs) =>
        r := FindInItems(findId, xs, found);
      case JObj(fs) =>
        r := FindInFields(findId, fs, found);
      case _ =>
        r := found;
    }
  }

  method FindInItems(findId: string, xs: seq<Json>, found: Option<string>) returns (r: Option<string>)
    requires Clean(JArr(xs))
    ensures r.Some? ==> r == found || Witness(false, JArr(xs), findId, r.value)
    ensures r.None? <==> found.None? && !HasWitness(false, JArr(xs), findId)
    decreases JArr(xs), 0
  {
    var f := found;
    var i := 0;
    while i < |xs|
      invariant i <= |xs|
      invariant f.Some? ==> f == found || Witness(false, JArr(xs), findId, f.value)
      invariant f.None? ==> found.None? && forall j :: 0 <= j < i ==> !HasWitness(false, xs[j], findId)
      invariant found.None? && !HasWitness(false, JArr(xs), findId) ==> f.None?
    {
      f := TryFindCodenameForId(findId, xs[i], f);
      WitnessItemAll(false, xs, i);
      i := i + 1;
    }
    if f.None? {
      NoWitnessItems(false, xs, findId);
    }
    r := f;
  }

  method FindInFields(findId: string, fs: Fields, found: Option<string>) returns (r: Option<string>)
    requires Clean(JObj(fs))
    ensures r.Some? ==> r == found || Witness(false, JObj(fs), findId, r.value)
    ensures r.None? <==> found.None? && !HasWitness(false, JObj(fs), findId)
    decreases JObj(fs), 0
  {
    var f := found;
    var i := 0;
    while i < |fs|
      invariant i <= |fs| && SrcFindInv(findId, fs, found, f, i)
    {
      if Lower(fs[i].0) == "id" {
        var id := Lookup(fs, "id");
        var codename := Lookup(fs, "codename");
        if TruthyOpt(codename) && codename.value.JStr? && id == Some(JStr(findId)) {
          SrcFindReturns(findId, fs, found, f, i);
          return Some(codename.value.s);
        }
        SrcFindNoMatch(findId, fs, found, f, i);
      } else {
        SrcFindOtherKey(findId, fs, found, f, i);
      }
      if IsContainer(fs[i].1) {
        var f' := TryFindCodenameForId(findId, fs[i].1, f);
        SrcFindChildStep(findId, fs, found, f, f', i);
        f := f';
      } else {
        SrcFindSkipStep(findId, fs, found, f, i);
      }
      i := i + 1;
    }
    SrcFindEnd(findId, fs, found, f);
    r := f;
  }

  /** The object loop of `tryFindCodenameForId` has searched the first `i` keys and their values. */
  ghost predicate SrcFindInv(findId: string, fs: Fields, found: Option<string>, f: Option<string>, i: nat) {
    SrcFindPart(findId, fs, found, f, i, i)
  }

  /** The values of the first `wi` keys have been searched, and the keys themselves up to `mi`. */
  ghost predicate SrcFindPart(findId: string, fs: Fields, found: Option<string>, f: Option<string>, wi: nat, mi: nat) {
    && wi <= mi <= |fs|
    && Clean(JObj(fs))
    && (f.Some? ==> f == found || Witness(false, JObj(fs), findId, f.value))
    && (f.None? ==> found.None?)
    && (f.None? ==> forall j :: 0 <= j < wi ==> !HasWitness(false, fs[j].1, findId))
    && (f.None? ==> forall j :: 0 <= j < mi ==> !IdMatchAt(fs, j, findId))
    && (found.None? && !HasWitness(false, JObj(fs), findId) ==> f.None?)
  }

  lemma SrcFindReturns(findId: string, fs: Fields, found: Option<string>, f: Option<string>, i: nat)
    requires SrcFindInv(findId, fs, found, f, i) && i < |fs| && Lower(fs[i].0) == "id"
    requires Lookup(fs, "id") == Some(JStr(findId))
    requires TruthyOpt(Lookup(fs, "codename")) && Lookup(fs, "codename").value.JStr?
    ensures Witness(false, JObj(fs), findId, Lookup(fs, "codename").value.s)
  {
    assert LocalWitness(false, fs, findId, Lookup(fs, "codename").value.s);
  }

  lemma SrcFindNoMatch(findId: string, fs: Fields, found: Option<string>, f: Option<string>, i: nat)
    requires SrcFindInv(findId, fs, found, f, i) && i < |fs| && Lower(fs[i].0) == "id"
    requires var cn := Lookup(fs, "codename");
      !(TruthyOpt(cn) && cn.value.JStr? && Lookup(fs, "id") == Some(JStr(findId)))
    ensures SrcFindPart(findId, fs, found, f, i, i + 1)
  {
  }

  lemma SrcFindOtherKey(findId: string, fs: Fields, found: Option<string>, f: Option<string>, i: nat)
    requires SrcFindInv(findId, fs, found, f, i) && i < |fs| && Lower(fs[i].0) != "id"
    ensures SrcFindPart(findId, fs, found, f, i, i + 1)
  {
    assert fs[i].0 != "id" by {
      LowerKeys();
    }
  }

  lemma SrcFindChildStep(findId: string, fs: Fields, found: Option<string>, f: Option<string>, f': Option<string>, i: nat)
    requires SrcFindPart(findId, fs, found, f, i, i + 1) && i < |fs|
    requires f'.Some? ==> f' == f || Witness(false, fs[i].1, findId, f'.value)
    requires f'.None? <==> f.None? && !HasWitness(false, fs[i].1, findId)
    ensures SrcFindInv(findId, fs, found, f', i + 1)
  {
    WitnessFieldAll(false, fs, i);
    if found.None? && !HasWitness(false, JObj(fs), findId) {
      assert !HasWitness(false, fs[i].1, findId);
    }
  }

  lemma SrcFindSkipStep(findId: string, fs: Fields, found: Option<string>, f: Option<string>, i: nat)
    requires SrcFindPart(findId, fs, found, f, i, i + 1) && i < |fs|
    requires !IsContainer(fs[i].1)
    ensures SrcFindInv(findId, fs, found, f, i + 1)
  {
    assert !HasWitness(false, fs[i].1, findId) by {
      match fs[i].1
      case JArr(_) =>
      case JObj(_) =>
      case _ =>
    }
  }

  lemma SrcFindEnd(findId: string, fs: Fields, found: Option<string>, f: Option<string>)
    requires SrcFindInv(findId, fs, found, f, |fs|)
    ensures f.Some? ==> f == found || Witness(false, JObj(fs), findId, f.value)
    ensures f.None? <==> found.None? && !HasWitness(false, JObj(fs), findId)
  {
    if f.None? {
      forall cn | Witness(false, JObj(fs), findId, cn) ensures false {
        if LocalWitness(false, fs, findId, cn) {
          assert "id" in KeySet(fs);
          var j :| 0 <= j < |fs| && fs[j].0 == "id";
          assert IdMatchAt(fs, j, findId);
        } else {
          var j :| 0 <= j < |fs| && Witness(false, fs[j].1, findId, cn);
        }
      }
    }
  }

  // ---------------------------------------------------------------- replaceIdReferencesWithCodenames

  /**
   * `replaceIdReferencesWithCodenames`: every object whose codename is falsy and whose `id`
   * is the `id` of an object of the whole document with a codename loses its `id` and gets that
   * codename; the walk continues into every nested object and array. `ctx` places `data`
   * inside the whole document the search looks at. The rewrite neither adds nor removes a
   * pairing of `id` and codename, so the rewrites done so far never change what a search finds.
   */
  method ReplaceIdReferencesWithCodenames(ctx: Ctx, data: Json) returns (r: Json)
    requires CtxOk(ctx) && Clean(data)
    ensures Clean(r) && Mono(false, data, r) && Mono(false, r, data)
    ensures Walked(data, r, CnMode(false, Plug(ctx, data), Plug(ctx, r), None))
    decreases data, 5
  {
    match data {
      case JArr(xs) =>
        r := CodenamesInItems(ctx, xs);
      case JObj(fs) =>
        r := CodenamesInFields(ctx, fs);
      case _ =>
        r := data;
    }
    WalkedKeepsSrcWitnesses(data, r, CnMode(false, Plug(ctx, data), Plug(ctx, r), None));
  }

  method CodenamesInItems(ctx: Ctx, xs: seq<Json>) returns (r: Json)
    requires CtxOk(ctx) && Clean(JArr(xs))
    ensures Clean(r) && Mono(false, JArr(xs), r)
    ensures Walked(JArr(xs), r, CnMode(false, Plug(ctx, JArr(xs)), Plug(ctx, r), None))
    decreases JArr(xs), 0
  {
    var ys := xs;
    var i := 0;
    while i < |xs|
      invariant CnItemsInv(false, ctx, xs, ys, i, map[], None)
    {
      CnItemBefore(false, ctx, xs, ys, i, map[], None);
      var y := ReplaceIdReferencesWithCodenames(InArr(ctx, ys, i), xs[i]);
      CnItemAfter(false, ctx, xs, ys, i, map[], map[], y, None);
      ys := ys[i := y];
      i := i + 1;
    }
    r := JArr(ys);
  }

  method CodenamesInFields(ctx: Ctx, fs: Fields) returns (r: Json)
    requires CtxOk(ctx) && Clean(JObj(fs))
    ensures Clean(r) && Mono(false, JObj(fs), r)
    ensures Walked(JObj(fs), r, CnMode(false, Plug(ctx, JObj(fs)), Plug(ctx, r), None))
    decreases JObj(fs), 4
  {
    var cur := VisitKeys(ctx, fs);
    CnEnd(false, ctx, fs, cur, map[], None);
    r := JObj(cur);
  }

  /** The key loop of the object case: every key of `fs` is visited in order. */
  method VisitKeys(ctx: Ctx, fs: Fields) returns (cur: Fields)
    requires CtxOk(ctx) && Clean(JObj(fs))
    ensures CnInv(false, ctx, fs, cur, |fs|, map[], None)
    decreases JObj(fs), 3
  {
    cur := fs;
    var i := 0;
    CnStart(false, ctx, fs, map[], None);
    while i < |fs|
      invariant i <= |fs| && CnInv(false, ctx, fs, cur, i, map[], None)
    {
      cur := CodenamesAtKey(ctx, fs, cur, i);
      i := i + 1;
    }
  }

  /** One round of the object loop: the key `fs[i].0` is visited. */
  method CodenamesAtKey(ctx: Ctx, fs: Fields, cur: Fields, i: nat) returns (cur': Fields)
    requires CnInv(false, ctx, fs, cur, i, map[], None) && i < |fs|
    ensures CnInv(false, ctx, fs, cur', i + 1, map[], None)
    decreases JObj(fs), 2
  {
    var k := fs[i].0;
    var val := Lookup(cur, k);
    if Lower(k) == "id" {
      cur' := CodenameAtId(ctx, fs, cur, i);
    } else if val.Some? && IsContainer(val.value) {
      cur' := CodenamesAtChild(ctx, fs, cur, i);
    } else {
      CnSkipStep(false, ctx, fs, cur, i, map[], None);
      cur' := cur;
    }
  }

  /** The visit of the `id` key: translate the id when the object has no codename. */
  method CodenameAtId(ctx: Ctx, fs: Fields, cur: Fields, i: nat) returns (cur': Fields)
    requires CnInv(false, ctx, fs, cur, i, map[], None) && i < |fs| && Lower(fs[i].0) == "id"
    ensures CnInv(false, ctx, fs, cur', i + 1, map[], None)
  {
    var id := Lookup(cur, "id");
    var codename := Lookup(cur, "codename");
    cur' := cur;
    if !TruthyOpt(codename) {
      CnIdIsString(false, ctx, fs, cur, i, map[], None);
      CleanPlug(ctx, JObj(cur));
      var foundCodename := TryFindCodenameForId(id.value.s, Plug(ctx, JObj(cur)), None);
      if foundCodename.Some? && foundCodename.value != "" {
        cur' := Set(Del(cur, "id"), "codename", JStr(foundCodename.value));
        CnIdReplaced(false, ctx, fs, cur, i, map[], map[], None, foundCodename.value);
      } else {
        CnIdKept(false, ctx, fs, cur, i, map[], map[], None, foundCodename);
      }
    } else {
      CnIdKeep(false, ctx, fs, cur, i, map[], None);
    }
  }

  /** The visit of a key holding an object or an array: rewrite it in place. */
  method CodenamesAtChild(ctx: Ctx, fs: Fields, cur: Fields, i: nat) returns (cur': Fields)
    requires CnInv(false, ctx, fs, cur, i, map[], None) && i < |fs| && Lower(fs[i].0) != "id"
    requires Lookup(cur, fs[i].0).Some? && IsContainer(Lookup(cur, fs[i].0).value)
    ensures CnInv(false, ctx, fs, cur', i + 1, map[], None)
    decreases JObj(fs), 1
  {
    CnChildBefore(false, ctx, fs, cur, i, map[], None);
    var child := ReplaceIdReferencesWithCodenames(InObj(ctx, cur, fs[i].0), fs[i].1);
    CnChildAfter(false, ctx, fs, cur, i, map[], map[], child, None);
    cur' := Set(cur, fs[i].0, child);
  }

  // ---------------------------------------------------------------- extractReferencedCodenames

  /** An object refers by codename: its codename is truthy and its `id` is not. */
  predicate LocalRef(fs: Fields, c: string) {
    && c != ""
    && Lookup(fs, "codename") == Some(JStr(c))
    && !TruthyOpt(Lookup(fs, "id"))
  }

  /** Some object anywhere in `j` refers to codename `c`. */
  predicate Refers(j: Json, c: string) {
    match j
    case JArr(xs) => exists i :: 0 <= i < |xs| && Refers(xs[i], c)
    case JObj(fs) => LocalRef(fs, c) || exists i :: 0 <= i < |fs| && Refers(fs[i].1, c)
    case _ => false
  }

  predicate NoDuplicates(s: seq<string>) {
    forall a, b :: 0 <= a < b < |s| ==> s[a] != s[b]
  }

  /** `found` grew out of `prior` by appending codenames not already there. */
  predicate Grown(prior: seq<string>, found: seq<string>) {
    && |prior| <= |found| && found[..|prior|] == prior
    && (NoDuplicates(prior) ==> NoDuplicates(found))
  }

  lemma GrownTrans(a: seq<string>, b: seq<string>, c: seq<string>)
    requires Grown(a, b) && Grown(b, c)
    ensures Grown(a, c)
  {
    assert c[..|a|] == c[..|b|][..|a|];
  }

  /**
   * `extractReferencedCodenames`: appends to `found`, in the order the walk meets them, the
   * codenames of the objects of `data` that have a truthy codename and no truthy `id`, each at
   * most once; exactly those codenames are added.
   */
  method ExtractReferencedCodenames(data: Json, found: seq<string>) returns (found': seq<string>)
    requires Clean(data)
    ensures Grown(found, found')
    ensures forall c :: c in found' <==> c in found || Refers(data, c)
    decreases data, 1
  {
    match data {
      case JArr(xs) =>
        found' := ExtractInItems(xs, found);
      case JObj(fs) =>
        found' := ExtractInFields(fs, found);
      case _ =>
        found' := found;
    }
  }

  method ExtractInItems(xs: seq<Json>, found: seq<string>) returns (found': seq<string>)
    requires Clean(JArr(xs))
    ensures Grown(found, found')
    ensures forall c :: c in found' <==> c in found || Refers(JArr(xs), c)
    decreases JArr(xs), 0
  {
    var f := found;
    var i := 0;
    while i < |xs|
      invariant i <= |xs| && Grown(found, f)
      invariant forall c :: c in f ==> c in found || Refers(JArr(xs), c)
      invariant forall c, j :: 0 <= j < i && Refers(xs[j], c) ==> c in f
    {
      var f' := ExtractReferencedCodenames(xs[i], f);
      GrownTrans(found, f, f');
      f := f';
      i := i + 1;
    }
    found' := f;
  }

  method ExtractInFields(fs: Fields, found: seq<string>) returns (found': seq<string>)
    requires Clean(JObj(fs))
    ensures Grown(found, found')
    ensures forall c :: c in found' <==> c in found || Refers(JObj(fs), c)
    decreases JObj(fs), 0
  {
    var f := found;
    var i := 0;
    while i < |fs|
      invariant i <= |fs| && ExtractInv(fs, found, f, i)
    {
      if Lower(fs[i].0) == "codename" {
        var id := Lookup(fs, "id");
        var codename := Lookup(fs, "codename");
        if TruthyOpt(codename) && !TruthyOpt(id) {
          ExtractLocalIsString(fs, i);
          var c := codename.value.s;
          ghost var f0 := f;
          if c !in f {
            f := f + [c];
          }
          ExtractLocalStep(fs, found, f0, f, i, c);
        } else {
          ExtractNoLocalStep(fs, found, f, i);
        }
      } else {
        ExtractOtherKeyStep(fs, found, f, i);
      }
      if IsContainer(fs[i].1) {
        var f' := ExtractReferencedCodenames(fs[i].1, f);
        ExtractChildStep(fs, found, f, f', i);
        f := f';
      } else {
        ExtractSkipStep(fs, found, f, i);
      }
      i := i + 1;
    }
    ExtractEnd(fs, found, f);
    found' := f;
  }

  /** The object loop of `extractReferencedCodenames` has visited the first `i` keys. */
  ghost predicate ExtractInv(fs: Fields, found: seq<string>, f: seq<string>, i: nat) {
    ExtractPart(fs, found, f, i, i)
  }

  /** The values of the first `wi` keys have been searched, and the keys themselves up to `mi`. */
  ghost predicate ExtractPart(fs: Fields, found: seq<string>, f: seq<string>, wi: nat, mi: nat) {
    && wi <= mi <= |fs| && Clean(JObj(fs)) && Grown(found, f)
    && (forall c :: c in f ==> c in found || Refers(JObj(fs), c))
    && (forall c, j :: 0 <= j < wi && Refers(fs[j].1, c) ==> c in f)
    && (KeyIndex(fs, "codename") < mi ==> forall c :: LocalRef(fs, c) ==> c in f)
  }

  lemma ExtractLocalIsString(fs: Fields, i: nat)
    requires Clean(JObj(fs)) && i < |fs| && Lower(fs[i].0) == "codename"
    requires TruthyOpt(Lookup(fs, "codename")) && !TruthyOpt(Lookup(fs, "id"))
    ensures Lookup(fs, "codename").Some? && Lookup(fs, "codename").value.JStr?
    ensures LocalRef(fs, Lookup(fs, "codename").value.s)
  {
    assert KeyOk(fs[i].0, fs[i].1);
    LookupAt(fs, i);
  }

  lemma ExtractLocalStep(fs: Fields, found: seq<string>, f: seq<string>, f': seq<string>, i: nat, c: string)
    requires ExtractInv(fs, found, f, i) && i < |fs| && Lower(fs[i].0) == "codename"
    requires LocalRef(fs, c)
    requires f' == if c in f then f else f + [c]
    ensures ExtractPart(fs, found, f', i, i + 1)
  {
    assert Grown(f, f');
    GrownTrans(found, f, f');
    assert Refers(JObj(fs), c);
  }

  lemma ExtractNoLocalStep(fs: Fields, found: seq<string>, f: seq<string>, i: nat)
    requires ExtractInv(fs, found, f, i) && i < |fs| && Lower(fs[i].0) == "codename"
    requires !(TruthyOpt(Lookup(fs, "codename")) && !TruthyOpt(Lookup(fs, "id")))
    ensures ExtractPart(fs, found, f, i, i + 1)
  {
  }

  lemma ExtractOtherKeyStep(fs: Fields, found: seq<string>, f: seq<string>, i: nat)
    requires ExtractInv(fs, found, f, i) && i < |fs| && Lower(fs[i].0) != "codename"
    ensures ExtractPart(fs, found, f, i, i + 1)
  {
    assert fs[i].0 != "codename" by {
      LowerKeys();
    }
  }

  lemma ExtractChildStep(fs: Fields, found: seq<string>, f: seq<string>, f': seq<string>, i: nat)
    requires ExtractPart(fs, found, f, i, i + 1) && i < |fs|
    requires Grown(f, f') && forall c :: c in f' <==> c in f || Refers(fs[i].1, c)
    ensures ExtractInv(fs, found, f', i + 1)
  {
    GrownTrans(found, f, f');
    forall c | Refers(fs[i].1, c) ensures Refers(JObj(fs), c) {
    }
  }

  lemma ExtractSkipStep(fs: Fields, found: seq<string>, f: seq<string>, i: nat)
    requires ExtractPart(fs, found, f, i, i + 1) && i < |fs|
    requires !IsContainer(fs[i].1)
    ensures ExtractInv(fs, found, f, i + 1)
  {
    forall c ensures !Refers(fs[i].1, c) {
      ScalarRefersNothing(fs[i].1, c);
    }
  }

  lemma ScalarRefersNothing(j: Json, c: string)
    requires !IsContainer(j)
    ensures !Refers(j, c)
  {
  }

  lemma ExtractEnd(fs: Fields, found: seq<string>, f: seq<string>)
    requires ExtractInv(fs, found, f, |fs|)
    ensures Grown(found, f)
    ensures forall c :: c in f <==> c in found || Refers(JObj(fs), c)
  {
    forall c | Refers(JObj(fs), c) ensures c in f {
      if LocalRef(fs, c) {
        assert "codename" in KeySet(fs);
        assert KeyIndex(fs, "codename") < |fs|;
      }
    }
  }
}
