/**
 * The loop invariants and step lemmas shared by the two `replaceIdReferencesWithCodenames`
 * walks: the library's (`lib` true: ids found through `id` or `external_id`, with a codename
 * cache) and the older one (`lib` false: ids found through `id` only, no cache, so the cache
 * stays empty).
 */
module CodenameWalk {
  import opened Wrappers
  import opened Json
  import opened JsonWalk

  /** A cached codename counts only when it is truthy. */
  predicate Hit(cache: map<string, string>, k: string) {
    k in cache && cache[k] != ""
  }

  /** Every entry `c1` added or changed over `c0` pairs an id with its codename inside `data`. */
  ghost predicate Learned(c0: map<string, string>, c1: map<string, string>, data: Json) {
    && c0.Keys <= c1.Keys
    && forall k :: k in c1 && !(k in c0 && c1[k] == c0[k]) ==> Witness(true, data, k, c1[k])
  }

  lemma LearnedTrans(c0: map<string, string>, c1: map<string, string>, c2: map<string, string>, part: Json, data: Json)
    requires Learned(c0, c1, data) && Learned(c1, c2, part)
    requires forall k, c :: Witness(true, part, k, c) ==> Witness(true, data, k, c)
    ensures Learned(c0, c2, data)
  {
  }

  /** Every truthy cached codename is one the document `root` offers for its id. */
  ghost predicate CacheOk(cache: map<string, string>, root: Json) {
    forall k :: Hit(cache, k) ==> Witness(true, root, k, cache[k])
  }

  /** The array loop of `replaceIdReferencesWithCodenames` has rewritten the first `i` items. */
  ghost predicate CnItemsInv(lib: bool, ctx: Ctx, xs: seq<Json>, ys: seq<Json>, i: nat, c: map<string, string>, hint: Option<string>) {
    var r0, root := Plug(ctx, JArr(xs)), Plug(ctx, JArr(ys));
    && i <= |xs| && |ys| == |xs| && CtxOk(ctx) && Clean(JArr(xs)) && Clean(JArr(ys))
    && (forall j :: i <= j < |xs| ==> ys[j] == xs[j])
    && (forall j :: 0 <= j < i ==> Walked(xs[j], ys[j], CnMode(lib, r0, root, hint)))
    && Mono(lib, JArr(xs), JArr(ys)) && Mono(lib, r0, root)
    && CacheOk(c, root) && (lib || c == map[])
  }

  lemma CnItemBefore(lib: bool, ctx: Ctx, xs: seq<Json>, ys: seq<Json>, i: nat, c: map<string, string>, hint: Option<string>)
    requires CnItemsInv(lib, ctx, xs, ys, i, c, hint) && i < |xs|
    ensures CtxOk(InArr(ctx, ys, i)) && Clean(xs[i])
    ensures Plug(InArr(ctx, ys, i), xs[i]) == Plug(ctx, JArr(ys))
    ensures CacheOk(c, Plug(InArr(ctx, ys, i), xs[i]))
  {
    assert ys[i := xs[i]] == ys;
  }

  lemma CnItemAfter(lib: bool, ctx: Ctx, xs: seq<Json>, ys: seq<Json>, i: nat, c: map<string, string>, c': map<string, string>,
                    y: Json, hint: Option<string>)
    requires CnItemsInv(lib, ctx, xs, ys, i, c, hint) && i < |xs|
    requires Clean(y) && Mono(lib, xs[i], y) && CacheOk(c', Plug(InArr(ctx, ys, i), y)) && (lib || c' == map[])
    requires Walked(xs[i], y, CnMode(lib, Plug(InArr(ctx, ys, i), xs[i]), Plug(InArr(ctx, ys, i), y), hint))
    ensures CnItemsInv(lib, ctx, xs, ys[i := y], i + 1, c', hint)
  {
    var r0, root, ys' := Plug(ctx, JArr(xs)), Plug(ctx, JArr(ys)), ys[i := y];
    var root' := Plug(ctx, JArr(ys'));
    assert ys[i := xs[i]] == ys;
    MonoSetItem(lib, ys, i, xs[i], y);
    MonoPlug(lib, ctx, JArr(ys), JArr(ys'));
    var m, m' := CnMode(lib, r0, root, hint), CnMode(lib, r0, root', hint);
    forall j | 0 <= j < i ensures Walked(xs[j], ys'[j], m') {
      WalkedWeaken(xs[j], ys[j], m, m');
    }
    WalkedWeaken(xs[i], y, CnMode(lib, root, root', hint), m');
  }

  /** The object loop of `replaceIdReferencesWithCodenames` has visited the first `i` keys. */
  ghost predicate CnInv(lib: bool, ctx: Ctx, fs: Fields, cur: Fields, i: nat, c: map<string, string>, hint: Option<string>) {
    var r0, root := Plug(ctx, JObj(fs)), Plug(ctx, JObj(cur));
    var m := CnMode(lib, r0, root, hint);
    && CtxOk(ctx) && Clean(JObj(fs)) && Clean(JObj(cur)) && Partial(fs, cur, i, m)
    && ((forall j :: 0 <= j < i ==> fs[j].0 != "id") ==> SameAt(fs, cur, "id") && SameAt(fs, cur, "codename"))
    && ((exists j :: 0 <= j < i && fs[j].0 == "id") ==> Local(m, fs, cur))
    && Mono(lib, JObj(fs), JObj(cur)) && Mono(lib, r0, root)
    && CacheOk(c, root) && (lib || c == map[])
  }

  lemma CnStart(lib: bool, ctx: Ctx, fs: Fields, c: map<string, string>, hint: Option<string>)
    requires CtxOk(ctx) && Clean(JObj(fs)) && CacheOk(c, Plug(ctx, JObj(fs))) && (lib || c == map[])
    ensures CnInv(lib, ctx, fs, fs, 0, c, hint)
  {
    PartialStart(fs, CnMode(lib, Plug(ctx, JObj(fs)), Plug(ctx, JObj(fs)), hint));
  }

  lemma CnIdIsString(lib: bool, ctx: Ctx, fs: Fields, cur: Fields, i: nat, c: map<string, string>, hint: Option<string>)
    requires CnInv(lib, ctx, fs, cur, i, c, hint) && i < |fs| && Lower(fs[i].0) == "id"
    ensures Lookup(cur, "id") == Some(fs[i].1) && fs[i].1.JStr?
    ensures forall j :: 0 <= j < i ==> fs[j].0 != "id"
  {
    assert KeyOk(fs[i].0, fs[i].1);
    LookupAt(fs, i);
  }

  lemma CnIdReplaced(lib: bool, ctx: Ctx, fs: Fields, cur: Fields, i: nat, c: map<string, string>, c': map<string, string>,
                     hint: Option<string>, cn: string)
    requires lib || c' == c
    requires CnInv(lib, ctx, fs, cur, i, c, hint) && i < |fs| && Lower(fs[i].0) == "id"
    requires !TruthyOpt(Lookup(cur, "codename"))
    requires Lookup(cur, "id") == Some(fs[i].1) && fs[i].1.JStr? && cn != ""
    requires forall j :: 0 <= j < i ==> fs[j].0 != "id"
    requires var x, root := fs[i].1.s, Plug(ctx, JObj(cur));
      if DefaultHint(x, hint) then cn == hint.value && c' == c
      else Learned(c, c', root) && ((Hit(c, x) && cn == c[x]) || Witness(lib, root, x, cn))
    ensures CnInv(lib, ctx, fs, Set(Del(cur, "id"), "codename", JStr(cn)), i + 1, c', hint)
  {
    var cur' := Set(Del(cur, "id"), "codename", JStr(cn));
    var x, r0, root, root' := fs[i].1.s, Plug(ctx, JObj(fs)), Plug(ctx, JObj(cur)), Plug(ctx, JObj(cur'));
    var m, m' := CnMode(lib, r0, root, hint), CnMode(lib, r0, root', hint);
    CnReplaceShape(lib, ctx, fs, cur, i, cn, hint, m, m');
    assert Found(m', x, cn) by {
      if !DefaultHint(x, hint) {
        assert Witness(lib, root, x, cn);
      }
    }
    assert Translatable(fs) && IdOf(fs) == x by {
      assert KeyOk(fs[i].0, fs[i].1);
    }
    assert Replaced(m', fs, cur');
    assert CacheOk(c', root');
  }

  /** What replacing the id of the object at hand does to everything but its translation. */
  lemma CnReplaceShape(lib: bool, ctx: Ctx, fs: Fields, cur: Fields, i: nat, cn: string, hint: Option<string>, m: Mode, m': Mode)
    requires CtxOk(ctx) && Clean(JObj(cur)) && i < |fs| && fs[i].0 == "id"
    requires !TruthyOpt(Lookup(cur, "codename"))
    requires m == CnMode(lib, Plug(ctx, JObj(fs)), Plug(ctx, JObj(cur)), hint)
    requires m' == CnMode(lib, Plug(ctx, JObj(fs)), Plug(ctx, JObj(Set(Del(cur, "id"), "codename", JStr(cn)))), hint)
    requires Partial(fs, cur, i, m)
    requires Mono(lib, JObj(fs), JObj(cur)) && Mono(lib, Plug(ctx, JObj(fs)), Plug(ctx, JObj(cur)))
    ensures var cur' := Set(Del(cur, "id"), "codename", JStr(cn));
      && Clean(JObj(cur')) && Partial(fs, cur', i + 1, m')
      && Lookup(cur', "codename") == Some(JStr(cn)) && !HasKey(cur', "id")
      && Mono(lib, JObj(cur), JObj(cur')) && Mono(lib, Plug(ctx, JObj(cur)), Plug(ctx, JObj(cur')))
      && Mono(lib, JObj(fs), JObj(cur')) && Mono(lib, Plug(ctx, JObj(fs)), Plug(ctx, JObj(cur')))
  {
    var d := Del(cur, "id");
    var cur' := Set(d, "codename", JStr(cn));
    CleanDel(cur, "id");
    CleanSet(d, "codename", JStr(cn));
    LookupDelAll(cur, "id");
    LookupSetAll(d, "codename", JStr(cn));
    KeySetDel(cur, "id");
    KeySetSet(d, "codename", JStr(cn));
    MonoIdReplace(lib, cur, cn);
    MonoPlug(lib, ctx, JObj(cur), JObj(cur'));
    PartialWeaken(fs, cur, i, m, m');
    PartialOwned(fs, cur, cur', i, m');
    PartialSkip(fs, cur', i, m');
  }

  lemma CnIdKept(lib: bool, ctx: Ctx, fs: Fields, cur: Fields, i: nat, c: map<string, string>, c': map<string, string>,
                 hint: Option<string>, found: Option<string>)
    requires lib || c' == c
    requires CnInv(lib, ctx, fs, cur, i, c, hint) && i < |fs| && Lower(fs[i].0) == "id"
    requires !TruthyOpt(Lookup(cur, "codename"))
    requires Lookup(cur, "id") == Some(fs[i].1) && fs[i].1.JStr?
    requires forall j :: 0 <= j < i ==> fs[j].0 != "id"
    requires !(found.Some? && found.value != "")
    requires var x, root := fs[i].1.s, Plug(ctx, JObj(cur));
      if DefaultHint(x, hint) then found == hint
      else
        && Learned(c, c', root)
        && (found.Some? ==> (Hit(c, x) && found.value == c[x]) || Witness(lib, root, x, found.value))
        && (found.None? <==> !Hit(c, x) && !HasWitness(lib, root, x))
    ensures CnInv(lib, ctx, fs, cur, i + 1, c', hint)
  {
    var x, r0, root := fs[i].1.s, Plug(ctx, JObj(fs)), Plug(ctx, JObj(cur));
    var m := CnMode(lib, r0, root, hint);
    assert !DefaultHint(x, hint);
    if found.Some? && !(Hit(c, x) && found.value == c[x]) {
      WitnessNonEmpty(lib, root, x, found.value);
    }
    assert found.None?;
    MonoNoWitness(lib, r0, root, x);
    assert Translatable(fs) && IdOf(fs) == x by {
      assert KeyOk(fs[i].0, fs[i].1);
    }
    assert NotFound(m, x);
    assert Local(m, fs, cur);
    PartialSkip(fs, cur, i, m);
  }

  lemma CnIdKeep(lib: bool, ctx: Ctx, fs: Fields, cur: Fields, i: nat, c: map<string, string>, hint: Option<string>)
    requires CnInv(lib, ctx, fs, cur, i, c, hint) && i < |fs| && Lower(fs[i].0) == "id"
    requires TruthyOpt(Lookup(cur, "codename"))
    ensures CnInv(lib, ctx, fs, cur, i + 1, c, hint)
  {
    assert KeyOk(fs[i].0, fs[i].1);
    LookupAt(fs, i);
    assert forall j :: 0 <= j < i ==> fs[j].0 != "id";
    PartialSkip(fs, cur, i, CnMode(lib, Plug(ctx, JObj(fs)), Plug(ctx, JObj(cur)), hint));
  }

  lemma CnChildBefore(lib: bool, ctx: Ctx, fs: Fields, cur: Fields, i: nat, c: map<string, string>, hint: Option<string>)
    requires CnInv(lib, ctx, fs, cur, i, c, hint) && i < |fs| && Lower(fs[i].0) != "id"
    requires Lookup(cur, fs[i].0).Some? && IsContainer(Lookup(cur, fs[i].0).value)
    ensures fs[i].0 !in {"id", "external_id", "codename"}
    ensures Lookup(cur, fs[i].0) == Some(fs[i].1) && Clean(fs[i].1)
    ensures CtxOk(InObj(ctx, cur, fs[i].0))
    ensures Plug(InObj(ctx, cur, fs[i].0), fs[i].1) == Plug(ctx, JObj(cur))
    ensures CacheOk(c, Plug(InObj(ctx, cur, fs[i].0), fs[i].1))
  {
    assert KeyOk(fs[i].0, fs[i].1);
    CleanLookup(cur, fs[i].0);
    SetSame(cur, fs[i].0, fs[i].1);
  }

  lemma CnChildAfter(lib: bool, ctx: Ctx, fs: Fields, cur: Fields, i: nat, c: map<string, string>, c': map<string, string>,
                     child: Json, hint: Option<string>)
    requires CnInv(lib, ctx, fs, cur, i, c, hint) && i < |fs|
    requires fs[i].0 !in {"id", "external_id", "codename"} && Lookup(cur, fs[i].0) == Some(fs[i].1)
    requires var inner := InObj(ctx, cur, fs[i].0);
      && Clean(child) && Mono(lib, fs[i].1, child) && CacheOk(c', Plug(inner, child)) && (lib || c' == map[])
      && Walked(fs[i].1, child, CnMode(lib, Plug(inner, fs[i].1), Plug(inner, child), hint))
    ensures CnInv(lib, ctx, fs, Set(cur, fs[i].0, child), i + 1, c', hint)
  {
    var k := fs[i].0;
    var cur' := Set(cur, k, child);
    var r0, root, root' := Plug(ctx, JObj(fs)), Plug(ctx, JObj(cur)), Plug(ctx, JObj(cur'));
    var m, m' := CnMode(lib, r0, root, hint), CnMode(lib, r0, root', hint);
    assert KeyOk(k, fs[i].1);
    CnChildShape(lib, ctx, fs, cur, i, child, hint);
    CnChildPartial(lib, ctx, fs, cur, i, child, hint);
    if exists j :: 0 <= j < i && fs[j].0 == "id" {
      LocalWeaken(m, m', fs, cur);
      LocalFrame(m', fs, cur, cur');
    }
  }

  /** Storing a rewritten child keeps the object clean and its pairings. */
  lemma CnChildShape(lib: bool, ctx: Ctx, fs: Fields, cur: Fields, i: nat, child: Json, hint: Option<string>)
    requires CtxOk(ctx) && Clean(JObj(cur)) && i < |fs|
    requires fs[i].0 !in {"id", "external_id", "codename"} && Lookup(cur, fs[i].0) == Some(fs[i].1)
    requires Clean(child) && Mono(lib, fs[i].1, child)
    requires Mono(lib, JObj(fs), JObj(cur)) && Mono(lib, Plug(ctx, JObj(fs)), Plug(ctx, JObj(cur)))
    ensures var cur' := Set(cur, fs[i].0, child);
      && Clean(JObj(cur'))
      && SameAt(cur, cur', "id") && SameAt(cur, cur', "codename")
      && Mono(lib, JObj(fs), JObj(cur')) && Mono(lib, Plug(ctx, JObj(fs)), Plug(ctx, JObj(cur')))
      && Mono(lib, Plug(ctx, JObj(cur)), Plug(ctx, JObj(cur')))
  {
    var k := fs[i].0;
    var cur' := Set(cur, k, child);
    assert KeyOk(k, fs[i].1);
    SetSame(cur, k, fs[i].1);
    CleanSet(cur, k, child);
    LookupSetAll(cur, k, child);
    MonoSetChild(lib, cur, k, fs[i].1, child);
    MonoPlug(lib, ctx, JObj(cur), JObj(cur'));
    MonoTrans(lib, JObj(fs), JObj(cur), JObj(cur'));
    MonoTrans(lib, Plug(ctx, JObj(fs)), Plug(ctx, JObj(cur)), Plug(ctx, JObj(cur')));
  }

  /** Storing a rewritten child extends the visited prefix by one key. */
  lemma CnChildPartial(lib: bool, ctx: Ctx, fs: Fields, cur: Fields, i: nat, child: Json, hint: Option<string>)
    requires Clean(JObj(fs)) && i < |fs|
    requires fs[i].0 !in {"id", "external_id", "codename"} && Lookup(cur, fs[i].0) == Some(fs[i].1)
    requires var r0, root := Plug(ctx, JObj(fs)), Plug(ctx, JObj(cur));
      Partial(fs, cur, i, CnMode(lib, r0, root, hint)) && Mono(lib, r0, root)
    requires Mono(lib, Plug(ctx, JObj(cur)), Plug(ctx, JObj(Set(cur, fs[i].0, child))))
    requires var inner := InObj(ctx, cur, fs[i].0);
      Walked(fs[i].1, child, CnMode(lib, Plug(inner, fs[i].1), Plug(inner, child), hint))
    ensures var cur' := Set(cur, fs[i].0, child);
      Partial(fs, cur', i + 1, CnMode(lib, Plug(ctx, JObj(fs)), Plug(ctx, JObj(cur')), hint))
  {
    var k := fs[i].0;
    var cur' := Set(cur, k, child);
    var r0, root, root' := Plug(ctx, JObj(fs)), Plug(ctx, JObj(cur)), Plug(ctx, JObj(cur'));
    var m, m' := CnMode(lib, r0, root, hint), CnMode(lib, r0, root', hint);
    SetSame(cur, k, fs[i].1);
    MonoRefl(lib, r0);
    MonoRefl(lib, root');
    WalkedWeaken(fs[i].1, child, CnMode(lib, root, root', hint), m');
    PartialWeaken(fs, cur, i, m, m');
    PartialChild(fs, cur, i, m', child);
  }

  lemma CnSkipStep(lib: bool, ctx: Ctx, fs: Fields, cur: Fields, i: nat, c: map<string, string>, hint: Option<string>)
    requires CnInv(lib, ctx, fs, cur, i, c, hint) && i < |fs| && Lower(fs[i].0) != "id"
    requires !(Lookup(cur, fs[i].0).Some? && IsContainer(Lookup(cur, fs[i].0).value))
    ensures CnInv(lib, ctx, fs, cur, i + 1, c, hint)
  {
    assert KeyOk(fs[i].0, fs[i].1);
    PartialSkip(fs, cur, i, CnMode(lib, Plug(ctx, JObj(fs)), Plug(ctx, JObj(cur)), hint));
  }

  lemma CnEnd(lib: bool, ctx: Ctx, fs: Fields, cur: Fields, c: map<string, string>, hint: Option<string>)
    requires CnInv(lib, ctx, fs, cur, |fs|, c, hint)
    ensures Clean(JObj(cur)) && Mono(lib, JObj(fs), JObj(cur)) && CacheOk(c, Plug(ctx, JObj(cur)))
    ensures Walked(JObj(fs), JObj(cur), CnMode(lib, Plug(ctx, JObj(fs)), Plug(ctx, JObj(cur)), hint))
  {
    var m := CnMode(lib, Plug(ctx, JObj(fs)), Plug(ctx, JObj(cur)), hint);
    if !HasKey(fs, "id") {
      assert forall j :: 0 <= j < |fs| ==> fs[j].0 != "id";
      assert !Translatable(fs);
    } else {
      var j :| 0 <= j < |fs| && fs[j].0 == "id";
    }
    PartialEnd(fs, cur, m);
  }

  // ---------------------------------------------------------------- the older walk keeps its pairings

  /**
   * A pairing of the older search (`id` and codename side by side) found after the older
   * rewrite was there before it: the rewrite only ever gives a codename to an object it takes
   * the `id` from.
   */
  lemma {:induction false} WalkedNoNewSrcWitness(a: Json, b: Json, m: Mode, k: string, c: string)
    requires m.CnMode? && !m.lib && Clean(b) && Walked(a, b, m) && Witness(false, b, k, c)
    ensures Witness(false, a, k, c)
    decreases a
  {
    match a
    case JArr(xs) =>
      var ys := b.items;
      var i :| 0 <= i < |ys| && Witness(false, ys[i], k, c);
      WalkedNoNewSrcWitness(xs[i], ys[i], m, k, c);
    case JObj(fa) =>
      var fb := b.fields;
      if LocalWitness(false, fb, k, c) {
        assert LocalWitness(false, fa, k, c);
      } else {
        var i :| 0 <= i < |fb| && Witness(false, fb[i].1, k, c);
        var key := fb[i].0;
        assert KeyOk(key, fb[i].1);
        assert key !in Reserved(m) by {
          assert !(fb[i].1.JStr? || fb[i].1.JNull?);
        }
        LookupAt(fb, i);
        assert key in KeySet(fb);
        var j :| 0 <= j < |fa| && fa[j].0 == key;
        WalkedNoNewSrcWitness(fa[j].1, fb[i].1, m, k, c);
      }
  }

  lemma WalkedKeepsSrcWitnesses(a: Json, b: Json, m: Mode)
    requires m.CnMode? && !m.lib && Clean(b) && Walked(a, b, m)
    ensures Mono(false, b, a)
  {
    forall k, c | Witness(false, b, k, c) ensures Witness(false, a, k, c) {
      WalkedNoNewSrcWitness(a, b, m, k, c);
    }
  }
}
