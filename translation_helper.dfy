/**
 * `TranslationHelper` of the library: the rewrites `importAsync` applies to the export
 * before it imports anything. Ids of the source project mean nothing in the target project,
 * so references by id become references by external id (taxonomies, snippets, types) or
 * by codename (everything else), the codename being searched for in the export itself.
 *
 * The JavaScript functions update the parsed export in place; here each returns the
 * rewritten value, and `Plug` keeps track of the whole document the search looks at.
 */
module TranslationHelper {
  import opened Wrappers
  import opened Json
  import opened JsonWalk
  import opened CodenameWalk

  /** `replaceIdReferencesWithExternalId`: every truthy `id` moves to `external_id`, the walk continues into every nested object and array. */
  method ReplaceIdReferencesWithExternalId(data: Json) returns (r: Json)
    requires Clean(data)
    ensures Clean(r)
    ensures Walked(data, r, ExtMode)
    decreases data, 2
  {
    match data {
      case JArr(xs) =>
        r := ExternalIdInItems(xs);
      case JObj(fs) =>
        r := ExternalIdInFields(fs);
      case _ =>
        r := data;
    }
  }

  method ExternalIdInItems(xs: seq<Json>) returns (r: Json)
    requires Clean(JArr(xs))
    ensures Clean(r)
    ensures Walked(JArr(xs), r, ExtMode)
    decreases JArr(xs), 1
  {
        var ys := xs;
        var i := 0;
        while i < |xs|
          invariant 0 <= i <= |xs| && |ys| == |xs|
          invariant forall j :: 0 <= j < i ==> Clean(ys[j]) && Walked(xs[j], ys[j], ExtMode)
          invariant forall j :: i <= j < |xs| ==> ys[j] == xs[j]
        {
          var y := ReplaceIdReferencesWithExternalId(xs[i]);
          ys := ys[i := y];
          i := i + 1;
        }
        r := JArr(ys);
  }

  method ExternalIdInFields(fs: Fields) returns (r: Json)
    requires Clean(JObj(fs))
    ensures Clean(r)
    ensures Walked(JObj(fs), r, ExtMode)
    decreases JObj(fs), 1
  {
    var cur := fs;
    var i := 0;
    PartialStart(fs, ExtMode);
    while i < |fs|
      invariant i <= |fs| && ExtInv(fs, cur, i)
    {
      cur := ExternalIdAtKey(fs, cur, i);
      i := i + 1;
    }
    ExtEnd(fs, cur);
    r := JObj(cur);
  }

  /** One turn of the loop over the keys of an object: the `i`th key of the original. */
  method ExternalIdAtKey(fs: Fields, cur: Fields, i: nat) returns (cur': Fields)
    requires i < |fs| && ExtInv(fs, cur, i)
    ensures ExtInv(fs, cur', i + 1)
    decreases JObj(fs), 0
  {
    var k := fs[i].0;
    var val := Lookup(cur, k);
    if Lower(k) == "id" {
      var id := Lookup(cur, "id");
      cur' := cur;
      if TruthyOpt(id) {
        cur' := Del(Set(cur, "external_id", id.value), "id");
      }
      ExtIdStep(fs, cur, cur', i);
    } else if val.Some? && IsContainer(val.value) {
      ExtChildBefore(fs, cur, i);
      var child := ReplaceIdReferencesWithExternalId(fs[i].1);
      ExtChildAfter(fs, cur, i, child);
      cur' := Set(cur, k, child);
    } else {
      ExtSkipStep(fs, cur, i);
      cur' := cur;
    }
  }

  lemma ExtEnd(fs: Fields, cur: Fields)
    requires ExtInv(fs, cur, |fs|)
    ensures Clean(JObj(cur)) && Walked(JObj(fs), JObj(cur), ExtMode)
  {
    if !HasKey(fs, "id") {
      assert forall j :: 0 <= j < |fs| ==> fs[j].0 != "id";
    } else {
      var j :| 0 <= j < |fs| && fs[j].0 == "id";
    }
    PartialEnd(fs, cur, ExtMode);
  }

  /** The loop of `replaceIdReferencesWithExternalId` has visited the first `i` keys. */
  ghost predicate ExtInv(fs: Fields, cur: Fields, i: nat) {
    && Clean(JObj(fs)) && Clean(JObj(cur)) && Partial(fs, cur, i, ExtMode)
    && ((forall j :: 0 <= j < i ==> fs[j].0 != "id") ==> SameAt(fs, cur, "id") && SameAt(fs, cur, "external_id"))
    && ((exists j :: 0 <= j < i && fs[j].0 == "id") ==> Local(ExtMode, fs, cur))
  }

  lemma ExtIdStep(fs: Fields, cur: Fields, cur': Fields, i: nat)
    requires ExtInv(fs, cur, i) && i < |fs| && Lower(fs[i].0) == "id"
    requires cur' == if TruthyOpt(Lookup(cur, "id")) then Del(Set(cur, "external_id", Lookup(cur, "id").value), "id") else cur
    ensures ExtInv(fs, cur', i + 1)
  {
    assert KeyOk(fs[i].0, fs[i].1);
    LookupAt(fs, i);
    assert forall j :: 0 <= j < i ==> fs[j].0 != "id";
    if TruthyOpt(Lookup(cur, "id")) {
      ExtIdMoves(fs, cur, i);
    }
    PartialSkip(fs, cur', i, ExtMode);
  }

  /** A truthy `id` moves to `external_id`, and only those two keys change. */
  lemma ExtIdMoves(fs: Fields, cur: Fields, i: nat)
    requires Clean(JObj(cur)) && Partial(fs, cur, i, ExtMode) && i < |fs| && fs[i].0 == "id"
    requires TruthyOpt(Lookup(cur, "id"))
    ensures var cur' := Del(Set(cur, "external_id", Lookup(cur, "id").value), "id");
      && Clean(JObj(cur')) && Partial(fs, cur', i, ExtMode)
      && !HasKey(cur', "id") && Lookup(cur', "external_id") == Lookup(cur, "id")
  {
    var id := Lookup(cur, "id");
    var c1 := Set(cur, "external_id", id.value);
    var cur' := Del(c1, "id");
    CleanLookup(cur, "id");
    CleanSet(cur, "external_id", id.value);
    CleanDel(c1, "id");
    LookupSetAll(cur, "external_id", id.value);
    LookupDelAll(c1, "id");
    KeySetSet(cur, "external_id", id.value);
    KeySetDel(c1, "id");
    PartialOwned(fs, cur, cur', i, ExtMode);
  }

  lemma ExtChildBefore(fs: Fields, cur: Fields, i: nat)
    requires ExtInv(fs, cur, i) && i < |fs| && Lower(fs[i].0) != "id"
    requires Lookup(cur, fs[i].0).Some? && IsContainer(Lookup(cur, fs[i].0).value)
    ensures Lookup(cur, fs[i].0) == Some(fs[i].1) && Clean(fs[i].1)
    ensures fs[i].0 !in {"id", "external_id", "codename"}
  {
    assert KeyOk(fs[i].0, fs[i].1);
    CleanLookup(cur, fs[i].0);
  }

  lemma ExtChildAfter(fs: Fields, cur: Fields, i: nat, child: Json)
    requires ExtInv(fs, cur, i) && i < |fs|
    requires fs[i].0 !in {"id", "external_id", "codename"}
    requires Clean(child) && Walked(fs[i].1, child, ExtMode)
    ensures ExtInv(fs, Set(cur, fs[i].0, child), i + 1)
  {
    assert KeyOk(fs[i].0, fs[i].1);
    CleanSet(cur, fs[i].0, child);
    LookupSetAll(cur, fs[i].0, child);
    LocalFrame(ExtMode, fs, cur, Set(cur, fs[i].0, child));
    PartialChild(fs, cur, i, ExtMode, child);
  }

  lemma ExtSkipStep(fs: Fields, cur: Fields, i: nat)
    requires ExtInv(fs, cur, i) && i < |fs| && Lower(fs[i].0) != "id"
    requires !(Lookup(cur, fs[i].0).Some? && IsContainer(Lookup(cur, fs[i].0).value))
    ensures ExtInv(fs, cur, i + 1)
  {
    assert KeyOk(fs[i].0, fs[i].1);
    PartialSkip(fs, cur, i, ExtMode);
  }

  /** No object anywhere in `j` has a truthy `id`. */
  predicate NoTruthyId(j: Json) {
    match j
    case JArr(xs) => forall i :: 0 <= i < |xs| ==> NoTruthyId(xs[i])
    case JObj(fs) => !TruthyOpt(Lookup(fs, "id")) && forall i :: 0 <= i < |fs| ==> NoTruthyId(fs[i].1)
    case _ => true
  }

  /** After `replaceIdReferencesWithExternalId` no object of the document refers by id any more. */
  lemma {:induction false} ExternalizedHasNoTruthyId(a: Json, b: Json)
    requires Clean(b) && Walked(a, b, ExtMode)
    ensures NoTruthyId(b)
    decreases a
  {
    match a
    case JArr(xs) =>
      forall i | 0 <= i < |xs| ensures NoTruthyId(b.items[i]) {
        ExternalizedHasNoTruthyId(xs[i], b.items[i]);
      }
    case JObj(fa) =>
      var fb := b.fields;
      forall i | 0 <= i < |fb| ensures NoTruthyId(fb[i].1) {
        var key := fb[i].0;
        assert KeyOk(key, fb[i].1);
        if key != "id" && key != "external_id" {
          LookupAt(fb, i);
          assert key in KeySet(fb);
          var j :| 0 <= j < |fa| && fa[j].0 == key;
          ExternalizedHasNoTruthyId(fa[j].1, fb[i].1);
        }
      }
    case _ =>
  }

  // ---------------------------------------------------------------- tryFindCodenameForId




  /** Object position `j` holds `id` or `external_id` equal to `x`, in an object with a codename. */
  predicate MatchAt(fs: Fields, j: nat, x: string)
    requires j < |fs|
  {
    && (fs[j].0 == "id" || fs[j].0 == "external_id")
    && x != ""
    && Lookup(fs, fs[j].0) == Some(JStr(x))
    && TruthyOpt(Lookup(fs, "codename")) && Lookup(fs, "codename").value.JStr?
  }

  /**
   * `tryFindCodenameForId`: a cached codename answers at once; otherwise the walk visits
   * the document in order, caches the codename of every object with a truthy `id` or
   * `external_id`, and answers as soon as it meets `findId`. `found` is the answer so far,
   * which a later match replaces.
   */
  method TryFindCodenameForId(findId: string, data: Json, cache: map<string, string>, found: Option<string>)
    returns (r: Option<string>, cache': map<string, string>)
    requires Clean(data)
    ensures Learned(cache, cache', data)
    ensures Hit(cache, findId) ==> r == Some(cache[findId]) && cache' == cache
    ensures r.Some? ==> r == found || (Hit(cache, findId) && r.value == cache[findId]) || Witness(true, data, findId, r.value)
    ensures r.None? <==> found.None? && !Hit(cache, findId) && !HasWitness(true, data, findId)
    ensures r.None? ==> !Hit(cache', findId)
    decreases data, 1
  {
    if Hit(cache, findId) {
      return Some(cache[findId]), cache;
    }
    match data {
      case JArr(xs) =>
        r, cache' := FindInItems(findId, xs, cache, found);
      case JObj(fs) =>
        r, cache' := FindInFields(findId, fs, cache, found);
      case _ =>
        r, cache' := found, cache;
    }
  }

  method FindInItems(findId: string, xs: seq<Json>, cache: map<string, string>, found: Option<string>)
    returns (r: Option<string>, cache': map<string, string>)
    requires Clean(JArr(xs)) && !Hit(cache, findId)
    ensures Learned(cache, cache', JArr(xs))
    ensures r.Some? ==> r == found || Witness(true, JArr(xs), findId, r.value)
    ensures r.None? <==> found.None? && !HasWitness(true, JArr(xs), findId)
    ensures r.None? ==> !Hit(cache', findId)
    decreases JArr(xs), 0
  {
    var c := cache;
    var f := found;
    var i := 0;
    while i < |xs|
      invariant i <= |xs|
      invariant Learned(cache, c, JArr(xs))
      invariant f.Some? ==> f == found || Witness(true, JArr(xs), findId, f.value)
      invariant f.None? ==> found.None? && !Hit(c, findId) && forall j :: 0 <= j < i ==> !HasWitness(true, xs[j], findId)
      invariant found.None? && !HasWitness(true, JArr(xs), findId) ==> f.None?
    {
      ghost var c1 := c;
      ghost var f1 := f;
      f, c := TryFindCodenameForId(findId, xs[i], c, f);
      WitnessItemAll(true, xs, i);
      LearnedTrans(cache, c1, c, xs[i], JArr(xs));
      if f.Some? && !(f == found) && Hit(c1, findId) && f.value == c1[findId] {
        assert Witness(true, JArr(xs), findId, f.value);
      }
      i := i + 1;
    }
    if f.Some? {
      return f, c;
    }
    NoWitnessItems(true, xs, findId);
    return f, c;
  }

  method FindInFields(findId: string, fs: Fields, cache: map<string, string>, found: Option<string>)
    returns (r: Option<string>, cache': map<string, string>)
    requires Clean(JObj(fs)) && !Hit(cache, findId)
    ensures Learned(cache, cache', JObj(fs))
    ensures r.Some? ==> r == found || Witness(true, JObj(fs), findId, r.value)
    ensures r.None? <==> found.None? && !HasWitness(true, JObj(fs), findId)
    ensures r.None? ==> !Hit(cache', findId)
    decreases JObj(fs), 0
  {
    var c := cache;
    var f := found;
    var i := 0;
    while i < |fs|
      invariant i <= |fs| && FindInv(findId, fs, cache, found, c, f, i, i)
    {
      var k := fs[i].0;
      var candidate: Option<Json> := None;
      if Lower(k) == "id" {
        candidate := Lookup(fs, "id");
      }
      if Lower(k) == "external_id" {
        candidate := Lookup(fs, "external_id");
      }
      ghost var c0 := c;
      assert candidate == CandidateAt(fs, i) by {
        assert KeyOk(k, fs[i].1);
      }
      var codename := Lookup(fs, "codename");
      if TruthyOpt(candidate) && candidate.value.JStr? && TruthyOpt(codename) && codename.value.JStr? {
        var x := candidate.value.s;
        c := c[x := codename.value.s];
        if x == findId {
          FindReturns(findId, fs, cache, found, c0, f, i);
          return Some(codename.value.s), c;
        }
        FindLocalStore(findId, fs, cache, found, c0, f, i, x, codename.value.s);
      } else {
        FindLocalNone(findId, fs, cache, found, c, f, i);
      }
      if IsContainer(fs[i].1) {
        ghost var c1, f1 := c, f;
        f, c := TryFindCodenameForId(findId, fs[i].1, c, f);
        FindChildStep(findId, fs, cache, found, c1, c, f1, f, i);
      } else {
        FindSkipStep(findId, fs, cache, found, c, f, i);
      }
      i := i + 1;
    }
    FindEnd(findId, fs, cache, found, c, f);
    return f, c;
  }

  /**
   * The object loop of `tryFindCodenameForId` has searched the values of the first `wi` keys
   * and the keys themselves up to `mi`.
   */
  ghost predicate FindInv(findId: string, fs: Fields, cache: map<string, string>, found: Option<string>,
                          c: map<string, string>, f: Option<string>, wi: nat, mi: nat)
  {
    && wi <= mi <= |fs|
    && Clean(JObj(fs)) && !Hit(cache, findId)
    && Learned(cache, c, JObj(fs))
    && (f.Some? ==> f == found || Witness(true, JObj(fs), findId, f.value))
    && (f.None? ==> found.None? && !Hit(c, findId))
    && (f.None? ==> forall j :: 0 <= j < wi ==> !HasWitness(true, fs[j].1, findId))
    && (f.None? ==> forall j :: 0 <= j < mi ==> !MatchAt(fs, j, findId))
    && (found.None? && !HasWitness(true, JObj(fs), findId) ==> f.None?)
  }

  /** The candidate the loop reads at position `i`. */
  function CandidateAt(fs: Fields, i: nat): Option<Json>
    requires i < |fs|
  {
    if Lower(fs[i].0) == "external_id" then Lookup(fs, "external_id")
    else if Lower(fs[i].0) == "id" then Lookup(fs, "id")
    else None
  }

  lemma FindReturns(findId: string, fs: Fields, cache: map<string, string>, found: Option<string>,
                    c: map<string, string>, f: Option<string>, i: nat)
    requires FindInv(findId, fs, cache, found, c, f, i, i) && i < |fs|
    requires CandidateAt(fs, i) == Some(JStr(findId)) && findId != ""
    requires TruthyOpt(Lookup(fs, "codename")) && Lookup(fs, "codename").value.JStr?
    ensures var cn := Lookup(fs, "codename").value.s;
      && Learned(cache, c[findId := cn], JObj(fs))
      && Witness(true, JObj(fs), findId, cn)
      && HasWitness(true, JObj(fs), findId)
  {
    assert KeyOk(fs[i].0, fs[i].1);
    var cn := Lookup(fs, "codename").value.s;
    assert LocalWitness(true, fs, findId, cn);
  }

  lemma FindLocalStore(findId: string, fs: Fields, cache: map<string, string>, found: Option<string>,
                       c: map<string, string>, f: Option<string>, i: nat, x: string, cn: string)
    requires FindInv(findId, fs, cache, found, c, f, i, i) && i < |fs|
    requires CandidateAt(fs, i) == Some(JStr(x)) && x != "" && x != findId
    requires Lookup(fs, "codename") == Some(JStr(cn)) && cn != ""
    ensures FindInv(findId, fs, cache, found, c[x := cn], f, i, i + 1)
  {
    assert KeyOk(fs[i].0, fs[i].1);
    assert LocalWitness(true, fs, x, cn);
    assert !MatchAt(fs, i, findId) by {
      LookupAt(fs, i);
    }
  }

  lemma FindLocalNone(findId: string, fs: Fields, cache: map<string, string>, found: Option<string>,
                      c: map<string, string>, f: Option<string>, i: nat)
    requires FindInv(findId, fs, cache, found, c, f, i, i) && i < |fs|
    requires var cand := CandidateAt(fs, i);
      var cn := Lookup(fs, "codename");
      !(TruthyOpt(cand) && cand.value.JStr? && TruthyOpt(cn) && cn.value.JStr?)
    ensures FindInv(findId, fs, cache, found, c, f, i, i + 1)
  {
    assert !MatchAt(fs, i, findId) by {
      assert KeyOk(fs[i].0, fs[i].1);
      LowerKeys();
      LookupAt(fs, i);
    }
  }

  lemma FindChildStep(findId: string, fs: Fields, cache: map<string, string>, found: Option<string>,
                      c: map<string, string>, c': map<string, string>, f: Option<string>, f': Option<string>, i: nat)
    requires FindInv(findId, fs, cache, found, c, f, i, i + 1) && i < |fs|
    requires Learned(c, c', fs[i].1)
    requires Hit(c, findId) ==> f' == Some(c[findId]) && c' == c
    requires f'.Some? ==> f' == f || (Hit(c, findId) && f'.value == c[findId]) || Witness(true, fs[i].1, findId, f'.value)
    requires f'.None? <==> f.None? && !Hit(c, findId) && !HasWitness(true, fs[i].1, findId)
    requires f'.None? ==> !Hit(c', findId)
    ensures FindInv(findId, fs, cache, found, c', f', i + 1, i + 1)
  {
    WitnessFieldAll(true, fs, i);
    LearnedTrans(cache, c, c', fs[i].1, JObj(fs));
    if f'.Some? && f' != f && Hit(c, findId) && f'.value == c[findId] {
      assert Witness(true, JObj(fs), findId, f'.value);
    }
    if found.None? && !HasWitness(true, JObj(fs), findId) {
      assert !HasWitness(true, fs[i].1, findId);
    }
  }

  lemma FindSkipStep(findId: string, fs: Fields, cache: map<string, string>, found: Option<string>,
                     c: map<string, string>, f: Option<string>, i: nat)
    requires FindInv(findId, fs, cache, found, c, f, i, i + 1) && i < |fs|
    requires !IsContainer(fs[i].1)
    ensures FindInv(findId, fs, cache, found, c, f, i + 1, i + 1)
  {
    assert !HasWitness(true, fs[i].1, findId) by {
      match fs[i].1
      case JArr(_) =>
      case JObj(_) =>
      case _ =>
    }
  }

  lemma FindEnd(findId: string, fs: Fields, cache: map<string, string>, found: Option<string>,
                c: map<string, string>, f: Option<string>)
    requires FindInv(findId, fs, cache, found, c, f, |fs|, |fs|)
    ensures Learned(cache, c, JObj(fs))
    ensures f.Some? ==> f == found || Witness(true, JObj(fs), findId, f.value)
    ensures f.None? <==> found.None? && !HasWitness(true, JObj(fs), findId)
    ensures f.None? ==> !Hit(c, findId)
  {
    if f.None? {
      forall cn | Witness(true, JObj(fs), findId, cn) ensures false {
        if LocalWitness(true, fs, findId, cn) {
          var key := if Lookup(fs, "id") == Some(JStr(findId)) then "id" else "external_id";
          assert key in KeySet(fs);
          var j :| 0 <= j < |fs| && fs[j].0 == key;
          assert MatchAt(fs, j, findId);
        } else {
          var j :| 0 <= j < |fs| && Witness(true, fs[j].1, findId, cn);
        }
      }
    }
  }

  // ---------------------------------------------------------------- replaceIdReferencesWithCodenames


  /**
   * `replaceIdReferencesWithCodenames`: every object whose codename is falsy and whose `id`
   * names an object of the whole document with a codename (or is the default object's id,
   * when a hint is given) loses its `id` and gets that codename; the walk continues into
   * every nested object and array. `ctx` places `data` inside the whole document, which is
   * what the search looks at, rewrites done so far included; `cache` is the id to codename
   * memo the searches share.
   */
  method ReplaceIdReferencesWithCodenames(ctx: Ctx, data: Json, cache: map<string, string>, hint: Option<string>)
    returns (r: Json, cache': map<string, string>)
    requires CtxOk(ctx) && Clean(data) && CacheOk(cache, Plug(ctx, data))
    ensures Clean(r) && Mono(true, data, r) && CacheOk(cache', Plug(ctx, r))
    ensures Walked(data, r, CnMode(true, Plug(ctx, data), Plug(ctx, r), hint))
    decreases data, 5
  {
    match data {
      case JArr(xs) =>
        r, cache' := CodenamesInItems(ctx, xs, cache, hint);
      case JObj(fs) =>
        r, cache' := CodenamesInFields(ctx, fs, cache, hint);
      case _ =>
        r, cache' := data, cache;
    }
  }

  method CodenamesInItems(ctx: Ctx, xs: seq<Json>, cache: map<string, string>, hint: Option<string>)
    returns (r: Json, cache': map<string, string>)
    requires CtxOk(ctx) && Clean(JArr(xs)) && CacheOk(cache, Plug(ctx, JArr(xs)))
    ensures Clean(r) && Mono(true, JArr(xs), r) && CacheOk(cache', Plug(ctx, r))
    ensures Walked(JArr(xs), r, CnMode(true, Plug(ctx, JArr(xs)), Plug(ctx, r), hint))
    decreases JArr(xs), 0
  {
    var ys := xs;
    var c := cache;
    var i := 0;
    while i < |xs|
      invariant CnItemsInv(true, ctx, xs, ys, i, c, hint)
    {
      CnItemBefore(true, ctx, xs, ys, i, c, hint);
      var y, c' := ReplaceIdReferencesWithCodenames(InArr(ctx, ys, i), xs[i], c, hint);
      CnItemAfter(true, ctx, xs, ys, i, c, c', y, hint);
      ys := ys[i := y];
      c := c';
      i := i + 1;
    }
    r, cache' := JArr(ys), c;
  }

  method CodenamesInFields(ctx: Ctx, fs: Fields, cache: map<string, string>, hint: Option<string>)
    returns (r: Json, cache': map<string, string>)
    requires CtxOk(ctx) && Clean(JObj(fs)) && CacheOk(cache, Plug(ctx, JObj(fs)))
    ensures Clean(r) && Mono(true, JObj(fs), r) && CacheOk(cache', Plug(ctx, r))
    ensures Walked(JObj(fs), r, CnMode(true, Plug(ctx, JObj(fs)), Plug(ctx, r), hint))
    decreases JObj(fs), 4
  {
    var cur, c := VisitKeys(ctx, fs, cache, hint);
    CnEnd(true, ctx, fs, cur, c, hint);
    r, cache' := JObj(cur), c;
  }

  /** The key loop of the object case: every key of `fs` is visited in order, sharing the memo. */
  method VisitKeys(ctx: Ctx, fs: Fields, cache: map<string, string>, hint: Option<string>)
    returns (cur: Fields, c: map<string, string>)
    requires CtxOk(ctx) && Clean(JObj(fs)) && CacheOk(cache, Plug(ctx, JObj(fs)))
    ensures CnInv(true, ctx, fs, cur, |fs|, c, hint)
    decreases JObj(fs), 3
  {
    cur, c := fs, cache;
    var i := 0;
    CnStart(true, ctx, fs, cache, hint);
    while i < |fs|
      invariant i <= |fs| && CnInv(true, ctx, fs, cur, i, c, hint)
    {
      cur, c := CodenamesAtKey(ctx, fs, cur, i, c, hint);
      i := i + 1;
    }
  }

  /** One round of the object loop: the key `fs[i].0` is visited. */
  method CodenamesAtKey(ctx: Ctx, fs: Fields, cur: Fields, i: nat, c: map<string, string>, hint: Option<string>)
    returns (cur': Fields, c': map<string, string>)
    requires CnInv(true, ctx, fs, cur, i, c, hint) && i < |fs|
    ensures CnInv(true, ctx, fs, cur', i + 1, c', hint)
    decreases JObj(fs), 2
  {
    var k := fs[i].0;
    var val := Lookup(cur, k);
    if Lower(k) == "id" {
      cur', c' := CodenameAtId(ctx, fs, cur, i, c, hint);
    } else if val.Some? && IsContainer(val.value) {
      cur', c' := CodenamesAtChild(ctx, fs, cur, i, c, hint);
    } else {
      CnSkipStep(true, ctx, fs, cur, i, c, hint);
      cur', c' := cur, c;
    }
  }

  /** The visit of the `id` key: translate the id when the object has no codename. */
  method CodenameAtId(ctx: Ctx, fs: Fields, cur: Fields, i: nat, c: map<string, string>, hint: Option<string>)
    returns (cur': Fields, c': map<string, string>)
    requires CnInv(true, ctx, fs, cur, i, c, hint) && i < |fs| && Lower(fs[i].0) == "id"
    ensures CnInv(true, ctx, fs, cur', i + 1, c', hint)
  {
    var id := Lookup(cur, "id");
    var codename := Lookup(cur, "codename");
    cur', c' := cur, c;
    if !TruthyOpt(codename) {
      CnIdIsString(true, ctx, fs, cur, i, c, hint);
      var x := id.value.s;
      var foundCodename: Option<string>;
      if Lower(x) == Lower(DefaultObjectId) && hint.Some? && hint.value != "" {
        foundCodename := hint;
      } else {
        CleanPlug(ctx, JObj(cur));
        foundCodename, c' := TryFindCodenameForId(x, Plug(ctx, JObj(cur)), c, None);
      }
      if foundCodename.Some? && foundCodename.value != "" {
        cur' := Set(Del(cur, "id"), "codename", JStr(foundCodename.value));
        CnIdReplaced(true, ctx, fs, cur, i, c, c', hint, foundCodename.value);
      } else {
        CnIdKept(true, ctx, fs, cur, i, c, c', hint, foundCodename);
      }
    } else {
      CnIdKeep(true, ctx, fs, cur, i, c, hint);
    }
  }

  /** The visit of a key holding an object or an array: rewrite it in place. */
  method CodenamesAtChild(ctx: Ctx, fs: Fields, cur: Fields, i: nat, c: map<string, string>, hint: Option<string>)
    returns (cur': Fields, c': map<string, string>)
    requires CnInv(true, ctx, fs, cur, i, c, hint) && i < |fs| && Lower(fs[i].0) != "id"
    requires Lookup(cur, fs[i].0).Some? && IsContainer(Lookup(cur, fs[i].0).value)
    ensures CnInv(true, ctx, fs, cur', i + 1, c', hint)
    decreases JObj(fs), 1
  {
    CnChildBefore(true, ctx, fs, cur, i, c, hint);
    var child;
    child, c' := ReplaceIdReferencesWithCodenames(InObj(ctx, cur, fs[i].0), fs[i].1, c, hint);
    CnChildAfter(true, ctx, fs, cur, i, c, c', child, hint);
    cur' := Set(cur, fs[i].0, child);
  }













}
