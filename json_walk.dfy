/**
 * What the recursive rewrites of the translation helpers promise, stated once for all of
 * them: a rewrite keeps the shape of the document (arrays keep their length, an object keeps
 * every key it does not own), rewrites each object only through its identity keys, and
 * the per-object rule of each rewrite is `Local`.
 *
 * It also defines the search the codename rewrites perform (`Witness`), and `Plug`, which
 * puts a rewritten part back into the whole document: a rewrite in progress searches the
 * whole document, and the whole document already holds its earlier rewrites.
 */
module JsonWalk {
  import opened Wrappers
  import opened Json

  /** `defaultObjectId`, the id of the default language and of the default workflow. */
  const DefaultObjectId: string := "00000000-0000-0000-0000-000000000000"

  // ---------------------------------------------------------------- the codename search

  /**
   * Object `fs` tells the search that `k` is the id of the object with codename `c`.
   * The library search (`lib`) reads `id` and `external_id` and ignores empty ids; the
   * older search reads `id` only, compared with `===`.
   */
  predicate LocalWitness(lib: bool, fs: Fields, k: string, c: string) {
    && c != ""
    && Lookup(fs, "codename") == Some(JStr(c))
    && if lib then k != "" && (Lookup(fs, "id") == Some(JStr(k)) || Lookup(fs, "external_id") == Some(JStr(k)))
       else Lookup(fs, "id") == Some(JStr(k))
  }

  /** Some object anywhere in `j` pairs id `k` with codename `c`. */
  predicate Witness(lib: bool, j: Json, k: string, c: string) {
    match j
    case JArr(xs) => exists i :: 0 <= i < |xs| && Witness(lib, xs[i], k, c)
    case JObj(fs) => LocalWitness(lib, fs, k, c) || exists i :: 0 <= i < |fs| && Witness(lib, fs[i].1, k, c)
    case _ => false
  }

  ghost predicate HasWitness(lib: bool, j: Json, k: string) {
    exists c :: Witness(lib, j, k, c)
  }

  /** Every pairing `a` offers, `b` offers too. */
  ghost predicate Mono(lib: bool, a: Json, b: Json) {
    forall k, c :: Witness(lib, a, k, c) ==> Witness(lib, b, k, c)
  }

  // ---------------------------------------------------------------- rewrite relations

  /** Which rewrite, with what it depends on. */
  datatype Mode =
    | ExtMode
      // replaceIdReferencesWithExternalId: a truthy `id` moves to `external_id`
    | CnMode(lib: bool, r0: Json, rF: Json, hint: Option<string>)
      // replaceIdReferencesWithCodenames: an `id` without codename becomes a codename
      // found in the document, which was `r0` before the rewrite and is `rF` after it

  /** The keys a rewrite owns; every other key keeps a rewritten value. */
  function Reserved(m: Mode): set<string> {
    match m
    case ExtMode => {"id", "external_id"}
    case CnMode(_, _, _, _) => {"id", "codename"}
  }

  predicate SameAt(fa: Fields, fb: Fields, k: string) {
    Lookup(fb, k) == Lookup(fa, k)
  }

  /** The codename hint applies: the id is the default object's id and a hint was given. */
  predicate DefaultHint(x: string, hint: Option<string>) {
    Lower(x) == Lower(DefaultObjectId) && hint.Some? && hint.value != ""
  }

  /** An object that `replaceIdReferencesWithCodenames` tries to translate: a string id, no codename. */
  predicate Translatable(fa: Fields) {
    Lookup(fa, "id").Some? && Lookup(fa, "id").value.JStr? && !TruthyOpt(Lookup(fa, "codename"))
  }

  function IdOf(fa: Fields): string
    requires Translatable(fa)
  {
    Lookup(fa, "id").value.s
  }

  /** Where the codename for `x` may come from. */
  ghost predicate Found(m: Mode, x: string, c: string)
    requires m.CnMode?
  {
    if DefaultHint(x, m.hint) then c == m.hint.value else Witness(m.lib, m.rF, x, c)
  }

  /** Why `x` stays an id: no hint applies and the document offered no codename for it. */
  ghost predicate NotFound(m: Mode, x: string)
    requires m.CnMode?
  {
    !DefaultHint(x, m.hint) && !HasWitness(m.lib, m.r0, x)
  }

  ghost predicate Replaced(m: Mode, fa: Fields, fb: Fields)
    requires m.CnMode? && Translatable(fa)
  {
    && !HasKey(fb, "id")
    && Lookup(fb, "codename").Some?
    && Lookup(fb, "codename").value.JStr?
    && Lookup(fb, "codename").value.s != ""
    && Found(m, IdOf(fa), Lookup(fb, "codename").value.s)
  }

  /** The per-object rule of each rewrite, on the keys it owns. */
  ghost predicate Local(m: Mode, fa: Fields, fb: Fields) {
    match m
    case ExtMode =>
      if TruthyOpt(Lookup(fa, "id")) then !HasKey(fb, "id") && Lookup(fb, "external_id") == Lookup(fa, "id")
      else SameAt(fa, fb, "id") && SameAt(fa, fb, "external_id")
    case CnMode(_, _, _, _) =>
      if Translatable(fa) then
        (SameAt(fa, fb, "id") && SameAt(fa, fb, "codename") && NotFound(m, IdOf(fa))) || Replaced(m, fa, fb)
      else SameAt(fa, fb, "id") && SameAt(fa, fb, "codename")
  }

  /** `b` is what rewrite `m` makes of `a`. */
  ghost predicate Walked(a: Json, b: Json, m: Mode) {
    match a
    case JArr(xs) =>
      && b.JArr?
      && |b.items| == |xs|
      && forall i :: 0 <= i < |xs| ==> Walked(xs[i], b.items[i], m)
    case JObj(fa) =>
      && b.JObj?
      && Local(m, fa, b.fields)
      && (forall i :: 0 <= i < |fa| && fa[i].0 !in Reserved(m) ==>
            HasKey(b.fields, fa[i].0) && Walked(fa[i].1, Lookup(b.fields, fa[i].0).value, m))
      && KeySet(b.fields) <= KeySet(fa) + Reserved(m)
    case _ => b == a
  }

  // ---------------------------------------------------------------- the document around a part

  /** The position of a part inside the whole document. */
  datatype Ctx =
    | Top
    | InObj(up: Ctx, fields: Fields, key: string)
    | InArr(up: Ctx, items: seq<Json>, index: nat)

  /** The whole document, with `v` at the position `ctx` describes. */
  function Plug(ctx: Ctx, v: Json): Json {
    match ctx
    case Top => v
    case InObj(up, fs, k) => Plug(up, JObj(Set(fs, k, v)))
    case InArr(up, xs, i) => Plug(up, JArr(if i < |xs| then xs[i := v] else xs))
  }

  /** The object keys on the way down are none of the identity keys, and the whole stays clean. */
  predicate CtxOk(ctx: Ctx) {
    match ctx
    case Top => true
    case InObj(up, fs, k) =>
      && CtxOk(up) && Clean(JObj(fs)) && CaseOk(k)
      && k !in {"id", "external_id", "codename"}
    case InArr(up, xs, i) => CtxOk(up) && i < |xs| && Clean(JArr(xs))
  }

  // ---------------------------------------------------------------- lemmas

  lemma SetSame(fs: Fields, k: string, v: Json)
    requires Lookup(fs, k) == Some(v)
    ensures Set(fs, k, v) == fs
  {
  }

  /** The position of the first `k` in `fs`, or `|fs|` when there is none. */
  function KeyIndex(fs: Fields, k: string): (p: nat)
    ensures p <= |fs|
    ensures p < |fs| ==> fs[p].0 == k
    ensures forall j :: 0 <= j < p ==> fs[j].0 != k
  {
    if |fs| == 0 then 0 else if fs[0].0 == k then 0 else 1 + KeyIndex(fs[1..], k)
  }

  /** `Set` replaces the first `k`, or appends. */
  lemma {:induction false} SetSplit(fs: Fields, k: string, v: Json)
    ensures var p := KeyIndex(fs, k);
      Set(fs, k, v) == fs[..p] + [(k, v)] + (if p < |fs| then fs[p + 1..] else [])
  {
    if |fs| > 0 && fs[0].0 != k {
      var tl := fs[1..];
      SetSplit(tl, k, v);
      var p := KeyIndex(tl, k);
      var rest := if p < |tl| then tl[p + 1..] else [];
      assert KeyIndex(fs, k) == p + 1;
      assert Set(fs, k, v) == [fs[0]] + (tl[..p] + [(k, v)] + rest);
      assert [fs[0]] + tl[..p] == fs[..p + 1];
      assert rest == if p + 1 < |fs| then fs[p + 2..] else [];
    }
  }

  /** Setting one key to two values gives two objects that agree everywhere else. */
  lemma SetParallel(fs: Fields, k: string, a: Json, b: Json)
    ensures |Set(fs, k, a)| == |Set(fs, k, b)|
    ensures forall i :: 0 <= i < |Set(fs, k, a)| ==>
      Set(fs, k, a)[i] == Set(fs, k, b)[i] || (Set(fs, k, a)[i] == (k, a) && Set(fs, k, b)[i] == (k, b))
  {
    SetSplit(fs, k, a);
    SetSplit(fs, k, b);
  }

  /** A part that offers more pairings makes the object holding it offer more. */
  lemma MonoSetChild(lib: bool, fs: Fields, k: string, a: Json, b: Json)
    requires k !in {"id", "external_id", "codename"}
    requires Mono(lib, a, b)
    ensures Mono(lib, JObj(Set(fs, k, a)), JObj(Set(fs, k, b)))
  {
    var ra, rb := Set(fs, k, a), Set(fs, k, b);
    SetParallel(fs, k, a, b);
    LookupSet(fs, k, a, "id");
    LookupSet(fs, k, b, "id");
    LookupSet(fs, k, a, "external_id");
    LookupSet(fs, k, b, "external_id");
    LookupSet(fs, k, a, "codename");
    LookupSet(fs, k, b, "codename");
    forall x, c | Witness(lib, JObj(ra), x, c) ensures Witness(lib, JObj(rb), x, c) {
      if !LocalWitness(lib, ra, x, c) {
        var i :| 0 <= i < |ra| && Witness(lib, ra[i].1, x, c);
        assert Witness(lib, rb[i].1, x, c);
      }
    }
  }

  lemma MonoSetItem(lib: bool, xs: seq<Json>, i: nat, a: Json, b: Json)
    requires i < |xs| && Mono(lib, a, b)
    ensures Mono(lib, JArr(xs[i := a]), JArr(xs[i := b]))
  {
    var ya, yb := xs[i := a], xs[i := b];
    forall x, c | Witness(lib, JArr(ya), x, c) ensures Witness(lib, JArr(yb), x, c) {
      var j :| 0 <= j < |ya| && Witness(lib, ya[j], x, c);
      assert Witness(lib, yb[j], x, c);
    }
  }

  /** Growing the pairings of a part grows those of the whole document. */
  lemma {:induction false} MonoPlug(lib: bool, ctx: Ctx, a: Json, b: Json)
    requires CtxOk(ctx) && Mono(lib, a, b)
    ensures Mono(lib, Plug(ctx, a), Plug(ctx, b))
  {
    match ctx
    case Top =>
    case InObj(up, fs, k) =>
      MonoSetChild(lib, fs, k, a, b);
      MonoPlug(lib, up, JObj(Set(fs, k, a)), JObj(Set(fs, k, b)));
    case InArr(up, xs, i) =>
      MonoSetItem(lib, xs, i, a, b);
      MonoPlug(lib, up, JArr(xs[i := a]), JArr(xs[i := b]));
  }

  /** A clean part in a clean position gives a clean document. */
  lemma {:induction false} CleanPlug(ctx: Ctx, v: Json)
    requires CtxOk(ctx) && Clean(v)
    ensures Clean(Plug(ctx, v))
  {
    match ctx
    case Top =>
    case InObj(up, fs, k) =>
      CleanSet(fs, k, v);
      CleanPlug(up, JObj(Set(fs, k, v)));
    case InArr(up, xs, i) =>
      CleanPlug(up, JArr(xs[i := v]));
  }

  lemma MonoRefl(lib: bool, a: Json)
    ensures Mono(lib, a, a)
  {
  }

  lemma MonoTrans(lib: bool, a: Json, b: Json, c: Json)
    requires Mono(lib, a, b) && Mono(lib, b, c)
    ensures Mono(lib, a, c)
  {
  }

  lemma WitnessItemAll(lib: bool, xs: seq<Json>, i: nat)
    requires i < |xs|
    ensures forall k, c :: Witness(lib, xs[i], k, c) ==> Witness(lib, JArr(xs), k, c)
  {
  }

  lemma WitnessFieldAll(lib: bool, fs: Fields, i: nat)
    requires i < |fs|
    ensures forall k, c :: Witness(lib, fs[i].1, k, c) ==> Witness(lib, JObj(fs), k, c)
  {
  }

  lemma NoWitnessItems(lib: bool, xs: seq<Json>, k: string)
    requires forall j :: 0 <= j < |xs| ==> !HasWitness(lib, xs[j], k)
    ensures !HasWitness(lib, JArr(xs), k)
  {
    forall c | Witness(lib, JArr(xs), k, c) ensures false {
      var j :| 0 <= j < |xs| && Witness(lib, xs[j], k, c);
      assert HasWitness(lib, xs[j], k);
    }
  }

  /** Every pairing names a non-empty codename. */
  lemma {:induction false} WitnessNonEmpty(lib: bool, j: Json, k: string, c: string)
    requires Witness(lib, j, k, c)
    ensures c != ""
  {
    match j
    case JArr(xs) =>
      var i :| 0 <= i < |xs| && Witness(lib, xs[i], k, c);
      WitnessNonEmpty(lib, xs[i], k, c);
    case JObj(fs) =>
      if !LocalWitness(lib, fs, k, c) {
        var i :| 0 <= i < |fs| && Witness(lib, fs[i].1, k, c);
        WitnessNonEmpty(lib, fs[i].1, k, c);
      }
  }

  lemma MonoNoWitness(lib: bool, a: Json, b: Json, k: string)
    requires Mono(lib, a, b) && !HasWitness(lib, b, k)
    ensures !HasWitness(lib, a, k)
  {
  }

  /** A value that is not an array or an object offers no pairing. */
  lemma NoWitnessScalar(lib: bool, a: Json)
    requires !IsContainer(a)
    ensures forall k, c :: !Witness(lib, a, k, c)
  {
    match a
    case JArr(_) =>
    case JObj(_) =>
    case _ =>
  }

  /** A pairing found under some key of the object. */
  lemma WitnessUnderKey(lib: bool, fs: Fields, key: string, k: string, c: string)
    requires HasKey(fs, key) && Witness(lib, Lookup(fs, key).value, k, c)
    ensures Witness(lib, JObj(fs), k, c)
  {
    LookupSmaller(fs, key);
    var i :| 0 <= i < |fs| && fs[i] == (key, Lookup(fs, key).value);
    assert Witness(lib, fs[i].1, k, c);
  }

  /**
   * Replacing an id by a codename, in an object that had no codename, takes no pairing
   * away: the object offered none itself.
   */
  lemma MonoIdReplace(lib: bool, fs: Fields, cn: string)
    requires Clean(JObj(fs)) && !TruthyOpt(Lookup(fs, "codename"))
    ensures Mono(lib, JObj(fs), JObj(Set(Del(fs, "id"), "codename", JStr(cn))))
  {
    var d := Del(fs, "id");
    var nf := Set(d, "codename", JStr(cn));
    LookupDelAll(fs, "id");
    LookupSetAll(d, "codename", JStr(cn));
    LookupAtAll(fs);
    forall k, c | Witness(lib, JObj(fs), k, c) ensures Witness(lib, JObj(nf), k, c) {
      var i :| 0 <= i < |fs| && Witness(lib, fs[i].1, k, c);
      assert KeyOk(fs[i].0, fs[i].1);
      assert Lookup(nf, fs[i].0) == Some(fs[i].1);
      WitnessUnderKey(lib, nf, fs[i].0, k, c);
    }
  }

  /** The older search reads `id` only, so the same replacement adds no pairing either. */
  lemma MonoIdReplaceBack(fs: Fields, cn: string)
    requires Clean(JObj(fs)) && !TruthyOpt(Lookup(fs, "codename"))
    ensures Mono(false, JObj(Set(Del(fs, "id"), "codename", JStr(cn))), JObj(fs))
  {
    var nf := Set(Del(fs, "id"), "codename", JStr(cn));
    forall k, c | Witness(false, JObj(nf), k, c) ensures Witness(false, JObj(fs), k, c) {
      ReplaceBackWitness(fs, cn, k, c);
    }
  }

  /** One pairing of the object after the replacement, found in the object before it. */
  lemma ReplaceBackWitness(fs: Fields, cn: string, k: string, c: string)
    requires Clean(JObj(fs)) && !TruthyOpt(Lookup(fs, "codename"))
    requires Witness(false, JObj(Set(Del(fs, "id"), "codename", JStr(cn))), k, c)
    ensures Witness(false, JObj(fs), k, c)
  {
    var d := Del(fs, "id");
    var nf := Set(d, "codename", JStr(cn));
    LookupDel(fs, "id", "id");
    LookupSet(d, "codename", JStr(cn), "id");
    assert !LocalWitness(false, nf, k, c);
    var j :| 0 <= j < |nf| && Witness(false, nf[j].1, k, c);
    var key := nf[j].0;
    UniqueDel(fs, "id");
    UniqueSet(d, "codename", JStr(cn));
    LookupAt(nf, j);
    LookupSet(d, "codename", JStr(cn), key);
    LookupDel(fs, "id", key);
    WitnessUnderKey(false, fs, key, k, c);
  }

  /** A codename rewrite stays one when its document before grows smaller and after grows larger. */
  lemma LocalWeaken(m: Mode, m': Mode, fa: Fields, fb: Fields)
    requires m.CnMode? && m'.CnMode? && m'.lib == m.lib && m'.hint == m.hint
    requires Mono(m.lib, m'.r0, m.r0) && Mono(m.lib, m.rF, m'.rF)
    requires Local(m, fa, fb)
    ensures Local(m', fa, fb)
  {
    if Translatable(fa) {
      var x := IdOf(fa);
      if SameAt(fa, fb, "id") && SameAt(fa, fb, "codename") && NotFound(m, x) {
        assert NotFound(m', x);
      } else {
        assert Replaced(m', fa, fb);
      }
    }
  }

  lemma {:induction false} WalkedWeaken(a: Json, b: Json, m: Mode, m': Mode)
    requires m.CnMode? && m'.CnMode? && m'.lib == m.lib && m'.hint == m.hint
    requires Mono(m.lib, m'.r0, m.r0) && Mono(m.lib, m.rF, m'.rF)
    requires Walked(a, b, m)
    ensures Walked(a, b, m')
    decreases a
  {
    match a
    case JArr(xs) =>
      forall i | 0 <= i < |xs| ensures Walked(xs[i], b.items[i], m') {
        WalkedWeaken(xs[i], b.items[i], m, m');
      }
    case JObj(fa) =>
      LocalWeaken(m, m', fa, b.fields);
      forall i | 0 <= i < |fa| && fa[i].0 !in Reserved(m')
        ensures HasKey(b.fields, fa[i].0) && Walked(fa[i].1, Lookup(b.fields, fa[i].0).value, m')
      {
        WalkedWeaken(fa[i].1, Lookup(b.fields, fa[i].0).value, m, m');
      }
    case _ =>
  }

  // ---------------------------------------------------------------- an object loop half done

  /**
   * An object loop that has visited the first `i` keys of `fs`: the keys it owns aside,
   * visited keys hold rewritten values and keys still to visit hold their first values.
   */
  ghost predicate Partial(fs: Fields, cur: Fields, i: nat, m: Mode) {
    && i <= |fs|
    && KeySet(cur) <= KeySet(fs) + Reserved(m)
    && (forall j :: i <= j < |fs| && fs[j].0 !in Reserved(m) ==> Lookup(cur, fs[j].0) == Some(fs[j].1))
    && (forall j :: 0 <= j < i && fs[j].0 !in Reserved(m) ==>
          HasKey(cur, fs[j].0) && Walked(fs[j].1, Lookup(cur, fs[j].0).value, m))
  }

  lemma PartialStart(fs: Fields, m: Mode)
    requires UniqueKeys(fs)
    ensures Partial(fs, fs, 0, m)
  {
    LookupAtAll(fs);
  }

  lemma PartialEnd(fs: Fields, cur: Fields, m: Mode)
    requires Partial(fs, cur, |fs|, m) && Local(m, fs, cur)
    ensures Walked(JObj(fs), JObj(cur), m)
  {
  }

  /** Visiting a key whose value the loop leaves alone. */
  lemma PartialSkip(fs: Fields, cur: Fields, i: nat, m: Mode)
    requires Partial(fs, cur, i, m) && i < |fs|
    requires fs[i].0 in Reserved(m) || !IsContainer(fs[i].1)
    ensures Partial(fs, cur, i + 1, m)
  {
    if fs[i].0 !in Reserved(m) {
      assert Lookup(cur, fs[i].0) == Some(fs[i].1);
      match fs[i].1
      case JArr(_) =>
      case JObj(_) =>
      case _ =>
    }
  }

  /** Visiting a key whose value the loop rewrites. */
  lemma PartialChild(fs: Fields, cur: Fields, i: nat, m: Mode, child: Json)
    requires UniqueKeys(fs) && Partial(fs, cur, i, m) && i < |fs|
    requires fs[i].0 !in Reserved(m) && Walked(fs[i].1, child, m)
    ensures Partial(fs, Set(cur, fs[i].0, child), i + 1, m)
  {
    LookupSetAll(cur, fs[i].0, child);
    KeySetSet(cur, fs[i].0, child);
    assert fs[i].0 in KeySet(fs);
  }

  /** Changing only the keys the rewrite owns. */
  lemma PartialOwned(fs: Fields, cur: Fields, cur': Fields, i: nat, m: Mode)
    requires Partial(fs, cur, i, m)
    requires forall k :: k !in Reserved(m) ==> Lookup(cur', k) == Lookup(cur, k)
    requires KeySet(cur') <= KeySet(cur) + Reserved(m)
    ensures Partial(fs, cur', i, m)
  {
  }

  /** `Local` reads only the keys the rewrite owns. */
  lemma LocalFrame(m: Mode, fs: Fields, cur: Fields, cur': Fields)
    requires forall k :: k in Reserved(m) ==> Lookup(cur', k) == Lookup(cur, k)
    ensures Local(m, fs, cur') == Local(m, fs, cur)
  {
    match m
    case ExtMode =>
      assert Lookup(cur', "id") == Lookup(cur, "id") && Lookup(cur', "external_id") == Lookup(cur, "external_id");
    case CnMode(_, _, _, _) =>
      assert Lookup(cur', "id") == Lookup(cur, "id") && Lookup(cur', "codename") == Lookup(cur, "codename");
  }

  /** A value the walks do not descend into is its own rewrite. */
  lemma WalkedScalar(a: Json, m: Mode)
    requires !IsContainer(a)
    ensures Walked(a, a, m)
  {
    match a
    case JArr(_) =>
    case JObj(_) =>
    case _ =>
  }

  lemma PartialWeaken(fs: Fields, cur: Fields, i: nat, m: Mode, m': Mode)
    requires m.CnMode? && m'.CnMode? && m'.lib == m.lib && m'.hint == m.hint
    requires Mono(m.lib, m'.r0, m.r0) && Mono(m.lib, m.rF, m'.rF)
    requires Partial(fs, cur, i, m)
    ensures Partial(fs, cur, i, m')
  {
    forall j | 0 <= j < i && fs[j].0 !in Reserved(m')
      ensures HasKey(cur, fs[j].0) && Walked(fs[j].1, Lookup(cur, fs[j].0).value, m')
    {
      WalkedWeaken(fs[j].1, Lookup(cur, fs[j].0).value, m, m');
    }
  }
}
