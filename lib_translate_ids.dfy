/**
 * `translateIds` of the newer import service: before anything is imported, the ids in the
 * export are rewritten so that they mean something in the target project. Taxonomies,
 * snippets and content types get external ids; languages, assets, content items, the
 * variants and the workflows get codenames, searched for in the whole import data.
 *
 * The whole import data is one document (`Doc`), and every rewrite searches the document
 * as the earlier rewrites left it: the searches of a later kind see the codenames an
 * earlier kind gained and no longer see the ids it lost.
 */
module LibTranslateIds {
  import opened Wrappers
  import opened Json
  import opened CoreModels
  import opened JsonWalk
  import opened CodenameWalk
  import opened TranslationHelper
  import opened ImportModels
  import opened LibWorkflowRules

  // ---------------------------------------------------------------- the import data as one document

  /** `source.importData` as a JSON object, its keys in the order `IImportSource` declares them. */
  function DocFields(d: ImportData): Fields {
    [ ("taxonomies", JArr(d.taxonomies)), ("contentTypeSnippets", JArr(d.contentTypeSnippets)),
      ("contentTypes", JArr(d.contentTypes)), ("contentItems", JArr(d.contentItems)),
      ("languageVariants", JArr(d.languageVariants)), ("languages", JArr(d.languages)),
      ("assets", JArr(d.assets)), ("workflows", JArr(d.workflows)) ]
  }

  function Doc(d: ImportData): Json {
    JObj(DocFields(d))
  }

  /** The kinds the codename rewrite is applied to as a whole list. */
  datatype Kind = Languages | Assets | ContentItems | Variants | Workflows

  function KeyOf(k: Kind): string {
    match k
    case Languages => "languages"
    case Assets => "assets"
    case ContentItems => "contentItems"
    case Variants => "languageVariants"
    case Workflows => "workflows"
  }

  function Get(d: ImportData, k: Kind): seq<Json> {
    match k
    case Languages => d.languages
    case Assets => d.assets
    case ContentItems => d.contentItems
    case Variants => d.languageVariants
    case Workflows => d.workflows
  }

  function With(d: ImportData, k: Kind, xs: seq<Json>): (r: ImportData)
    ensures Get(r, k) == xs
  {
    match k
    case Languages => d.(languages := xs)
    case Assets => d.(assets := xs)
    case ContentItems => d.(contentItems := xs)
    case Variants => d.(languageVariants := xs)
    case Workflows => d.(workflows := xs)
  }

  /** Every list of the import data is clean. */
  predicate CleanData(d: ImportData) {
    && Clean(JArr(d.taxonomies)) && Clean(JArr(d.contentTypeSnippets)) && Clean(JArr(d.contentTypes))
    && Clean(JArr(d.contentItems)) && Clean(JArr(d.languageVariants)) && Clean(JArr(d.languages))
    && Clean(JArr(d.assets)) && Clean(JArr(d.workflows))
  }

  lemma CleanDoc(d: ImportData)
    requires CleanData(d)
    ensures Clean(Doc(d))
  {
    var fs := DocFields(d);
    forall i | 0 <= i < |fs| ensures KeyOk(fs[i].0, fs[i].1) {
      LongKeyOk(fs[i].0, fs[i].1);
    }
    forall i, j | 0 <= i < j < |fs| ensures fs[i].0 != fs[j].0 {
      if i == 2 && j == 3 {
        assert fs[i].0[7] != fs[j].0[7];
      } else if i == 5 && j == 7 {
        assert fs[i].0[0] != fs[j].0[0];
      } else {
        assert |fs[i].0| != |fs[j].0|;
      }
    }
  }

  /** A key of none of the identity keys' lengths is none of them in any letter case. */
  lemma LongKeyOk(k: string, v: Json)
    requires |k| >= 6 && |k| != 8 && |k| != 11
    ensures KeyOk(k, v)
  {
    assert |Lower(k)| == |k|;
  }

  /** Where the list of kind `k` sits in the document. */
  function Slot(k: Kind): nat {
    match k
    case Languages => 5
    case Assets => 6
    case ContentItems => 3
    case Variants => 4
    case Workflows => 7
  }

  lemma KindIndex(d: ImportData, k: Kind)
    ensures KeyIndex(DocFields(d), KeyOf(k)) == Slot(k)
  {
    var fs := DocFields(d);
    var p := KeyIndex(fs, KeyOf(k));
    assert fs[Slot(k)].0 == KeyOf(k);
    match k
    case Languages =>
      assert fs[3].0 != "languages" && fs[4].0 != "languages";
    case Assets =>
      assert fs[3].0 != "assets" && fs[4].0 != "assets" && fs[5].0 != "assets";
    case ContentItems =>
    case Variants =>
      assert fs[3].0 != "languageVariants";
    case Workflows =>
      assert fs[5].0[0] != "workflows"[0];
  }

  /** The list of kind `k` sits at key `KeyOf(k)`, the root of a well-placed rewrite. */
  lemma KindPlace(d: ImportData, k: Kind, xs: seq<Json>)
    requires CleanData(d)
    ensures CtxOk(InObj(Top, DocFields(d), KeyOf(k)))
    ensures Plug(InObj(Top, DocFields(d), KeyOf(k)), JArr(xs)) == Doc(With(d, k, xs))
  {
    CleanDoc(d);
    assert |Lower(KeyOf(k))| == |KeyOf(k)|;
    DocSet(d, k, xs);
  }

  /** Setting the key of kind `k` in the document replaces that list and nothing else. */
  lemma DocSet(d: ImportData, k: Kind, xs: seq<Json>)
    ensures Set(DocFields(d), KeyOf(k), JArr(xs)) == DocFields(With(d, k, xs))
  {
    var fs := DocFields(d);
    SetSplit(fs, KeyOf(k), JArr(xs));
    KindIndex(d, k);
    assert fs[..Slot(k)] + [(KeyOf(k), JArr(xs))] + fs[Slot(k) + 1..] == DocFields(With(d, k, xs));
  }

  lemma DocClean(d: ImportData)
    requires Clean(Doc(d))
    ensures CleanData(d)
  {
    var fs := DocFields(d);
    assert Clean(fs[0].1) && Clean(fs[1].1) && Clean(fs[2].1) && Clean(fs[3].1);
    assert Clean(fs[4].1) && Clean(fs[5].1) && Clean(fs[6].1) && Clean(fs[7].1);
  }

  // ---------------------------------------------------------------- the default language's codename

  /** `m.id === defaultObjectId`. */
  predicate IsDefaultLanguage(m: Json) {
    Field(m, "id") == Some(JStr(DefaultObjectId))
  }

  /**
   * `languages.find((m) => m.id === defaultObjectId)?.codename`, as a hint: the codename of
   * the first language with the default id, when it is a string. Reading `id` of a null
   * element before that one throws.
   */
  function DefaultLanguageCodename(langs: seq<Json>): (r: Result<Option<string>, ImportError>)
    ensures r.Fail? ==> r.error == TypeError("id")
    decreases |langs|
  {
    if |langs| == 0 then Ok(None)
    else if langs[0].JNull? then Fail(TypeError("id"))
    else if IsDefaultLanguage(langs[0]) then Ok(StrField(langs[0], "codename"))
    else DefaultLanguageCodename(langs[1..])
  }

  /** Where `find` stops: the first language that is null or has the default id, `|langs|` when there is none. */
  function FindStop(langs: seq<Json>): (k: nat)
    ensures k <= |langs|
    ensures forall j :: 0 <= j < k ==> !langs[j].JNull? && !IsDefaultLanguage(langs[j])
    ensures k < |langs| ==> langs[k].JNull? || IsDefaultLanguage(langs[k])
  {
    if |langs| == 0 || langs[0].JNull? || IsDefaultLanguage(langs[0]) then 0 else 1 + FindStop(langs[1..])
  }

  /**
   * The hint is the codename of the first language with the default id, when it is a
   * string; `find` throws when it meets a null first; with neither there is no hint.
   */
  lemma {:induction false} DefaultLanguageCodenameFirst(langs: seq<Json>)
    ensures var k := FindStop(langs);
      DefaultLanguageCodename(langs) ==
        if k == |langs| then Ok(None)
        else if langs[k].JNull? then Fail(TypeError("id"))
        else Ok(StrField(langs[k], "codename"))
    decreases |langs|
  {
    if |langs| > 0 && !langs[0].JNull? && !IsDefaultLanguage(langs[0]) {
      DefaultLanguageCodenameFirst(langs[1..]);
      assert langs[1..][FindStop(langs[1..])..] == langs[FindStop(langs)..];
    }
  }

  // ---------------------------------------------------------------- one rewrite of one kind

  /** The codename rewrite took list `xs` of `d0` to list `ys` of `d1`, searching the document as it went from `d0` to `d1`. */
  ghost predicate CnPass(xs: seq<Json>, ys: seq<Json>, d0: ImportData, d1: ImportData, hint: Option<string>) {
    Walked(JArr(xs), JArr(ys), CnMode(true, Doc(d0), Doc(d1), hint))
  }

  /** `replaceIdReferencesWithCodenames(<the list of kind k>, source.importData, {}, hint)`. */
  method CodenamesOfKind(d: ImportData, k: Kind, hint: Option<string>) returns (d': ImportData)
    requires CleanData(d)
    ensures CleanData(d') && d' == With(d, k, Get(d', k))
    ensures CnPass(Get(d, k), Get(d', k), d, d', hint)
    ensures Mono(true, Doc(d), Doc(d'))
  {
    var ctx := InObj(Top, DocFields(d), KeyOf(k));
    var xs := Get(d, k);
    KindPlace(d, k, xs);
    assert With(d, k, xs) == d;
    CleanDoc(d);
    assert Clean(JArr(xs));
    var r, _ := ReplaceIdReferencesWithCodenames(ctx, JArr(xs), map[], hint);
    d' := With(d, k, r.items);
    KindPlace(d, k, r.items);
    CleanPlug(ctx, r);
    DocClean(d');
    MonoPlug(true, ctx, JArr(xs), r);
  }

  // ---------------------------------------------------------------- one rewrite of one property of the variants

  /** The walk `m` rewrote `v[key]` into `y[key]` and left the rest of `v`; a non-object or an object without `key` stays as it is. */
  ghost predicate Projected(v: Json, y: Json, key: string, m: Mode) {
    if v.JObj? && HasKey(v.fields, key) then
      && y.JObj? && HasKey(y.fields, key)
      && y.fields == Set(v.fields, key, Lookup(y.fields, key).value)
      && Walked(Lookup(v.fields, key).value, Lookup(y.fields, key).value, m)
    else y == v
  }

  lemma ProjectedWeaken(v: Json, y: Json, key: string, m: Mode, m': Mode)
    requires m.CnMode? && m'.CnMode? && m'.lib == m.lib && m'.hint == m.hint
    requires Mono(m.lib, m'.r0, m.r0) && Mono(m.lib, m.rF, m'.rF)
    requires Projected(v, y, key, m)
    ensures Projected(v, y, key, m')
  {
    if v.JObj? && HasKey(v.fields, key) {
      WalkedWeaken(Lookup(v.fields, key).value, Lookup(y.fields, key).value, m, m');
    }
  }

  /** The loop over `vs.map((m) => m[key])` has rewritten the first `i` of them, searching the document around `vs`. */
  ghost predicate FieldInv(ctx: Ctx, vs: seq<Json>, ys: seq<Json>, key: string, i: nat, c: map<string, string>, hint: Option<string>) {
    var r0, root := Plug(ctx, JArr(vs)), Plug(ctx, JArr(ys));
    && i <= |vs| && |ys| == |vs| && CtxOk(ctx) && Clean(JArr(vs)) && Clean(JArr(ys))
    && CaseOk(key) && key !in {"id", "external_id", "codename"}
    && (forall j :: i <= j < |vs| ==> ys[j] == vs[j])
    && (forall j :: 0 <= j < i ==> Projected(vs[j], ys[j], key, CnMode(true, r0, root, hint)))
    && Mono(true, r0, root) && CacheOk(c, root)
  }

  lemma FieldBefore(ctx: Ctx, vs: seq<Json>, ys: seq<Json>, key: string, i: nat, c: map<string, string>, hint: Option<string>)
    requires FieldInv(ctx, vs, ys, key, i, c, hint) && i < |vs| && vs[i].JObj? && HasKey(vs[i].fields, key)
    ensures var inner := InObj(InArr(ctx, ys, i), vs[i].fields, key);
      var w := Lookup(vs[i].fields, key).value;
      && CtxOk(inner) && Clean(w) && Plug(inner, w) == Plug(ctx, JArr(ys)) && CacheOk(c, Plug(inner, w))
  {
    var vf := vs[i].fields;
    assert ys[i] == vs[i];
    CleanLookup(vf, key);
    SetSame(vf, key, Lookup(vf, key).value);
    assert ys[i := JObj(vf)] == ys;
  }

  lemma FieldAfter(ctx: Ctx, vs: seq<Json>, ys: seq<Json>, key: string, i: nat, c: map<string, string>, c': map<string, string>,
                   w': Json, hint: Option<string>)
    requires FieldInv(ctx, vs, ys, key, i, c, hint) && i < |vs| && vs[i].JObj? && HasKey(vs[i].fields, key)
    requires var inner := InObj(InArr(ctx, ys, i), vs[i].fields, key);
      var w := Lookup(vs[i].fields, key).value;
      && Plug(inner, w) == Plug(ctx, JArr(ys))
      && Clean(w') && Mono(true, w, w') && CacheOk(c', Plug(inner, w'))
      && Walked(w, w', CnMode(true, Plug(inner, w), Plug(inner, w'), hint))
    ensures FieldInv(ctx, vs, ys[i := JObj(Set(vs[i].fields, key, w'))], key, i + 1, c', hint)
  {
    var vf := vs[i].fields;
    var w := Lookup(vf, key).value;
    var ys' := ys[i := JObj(Set(vf, key, w'))];
    var r0, root, root' := Plug(ctx, JArr(vs)), Plug(ctx, JArr(ys)), Plug(ctx, JArr(ys'));
    FieldAfterRoot(ctx, vs, ys, key, i, c, c', w', hint);
    var m, m' := CnMode(true, r0, root, hint), CnMode(true, r0, root', hint);
    forall j | 0 <= j < i ensures Projected(vs[j], ys'[j], key, m') {
      ProjectedWeaken(vs[j], ys[j], key, m, m');
    }
    WalkedWeaken(w, w', CnMode(true, root, root', hint), m');
    ProjectedSet(vf, key, w', m');
  }

  /** After one rewritten element, the whole is clean, pairs up more, and the memo still fits it. */
  lemma FieldAfterRoot(ctx: Ctx, vs: seq<Json>, ys: seq<Json>, key: string, i: nat, c: map<string, string>, c': map<string, string>,
                       w': Json, hint: Option<string>)
    requires FieldInv(ctx, vs, ys, key, i, c, hint) && i < |vs| && vs[i].JObj? && HasKey(vs[i].fields, key)
    requires var inner := InObj(InArr(ctx, ys, i), vs[i].fields, key);
      var w := Lookup(vs[i].fields, key).value;
      && Plug(inner, w) == Plug(ctx, JArr(ys))
      && Clean(w') && Mono(true, w, w') && CacheOk(c', Plug(inner, w'))
    ensures var ys' := ys[i := JObj(Set(vs[i].fields, key, w'))];
      && Clean(JArr(ys')) && Plug(InObj(InArr(ctx, ys, i), vs[i].fields, key), w') == Plug(ctx, JArr(ys'))
      && Mono(true, Plug(ctx, JArr(ys)), Plug(ctx, JArr(ys'))) && Mono(true, Plug(ctx, JArr(vs)), Plug(ctx, JArr(ys')))
      && CacheOk(c', Plug(ctx, JArr(ys')))
  {
    var vf := vs[i].fields;
    var inner := InObj(InArr(ctx, ys, i), vf, key);
    var w := Lookup(vf, key).value;
    var ys' := ys[i := JObj(Set(vf, key, w'))];
    var r0, root, root' := Plug(ctx, JArr(vs)), Plug(ctx, JArr(ys)), Plug(ctx, JArr(ys'));
    assert Plug(inner, w') == root';
    assert ys[i] == vs[i];
    CleanSet(vf, key, w');
    assert Clean(JArr(ys'));
    assert CtxOk(inner) by {
      assert ys[i] == vs[i];
    }
    MonoPlug(true, inner, w, w');
    MonoTrans(true, r0, root, root');
    MonoRefl(true, root');
  }

  /** An object whose value under `key` was walked to `w'` is projected onto it. */
  lemma ProjectedSet(vf: Fields, key: string, w': Json, m: Mode)
    requires HasKey(vf, key) && Walked(Lookup(vf, key).value, w', m)
    ensures Projected(JObj(vf), JObj(Set(vf, key, w')), key, m)
  {
    LookupSet(vf, key, w', key);
    KeySetSet(vf, key, w');
  }

  lemma FieldSkip(ctx: Ctx, vs: seq<Json>, ys: seq<Json>, key: string, i: nat, c: map<string, string>, hint: Option<string>)
    requires FieldInv(ctx, vs, ys, key, i, c, hint) && i < |vs| && !(vs[i].JObj? && HasKey(vs[i].fields, key))
    ensures FieldInv(ctx, vs, ys, key, i + 1, c, hint)
  {
  }

  /**
   * `replaceIdReferencesWithCodenames(vs.map((m) => m[key]), source.importData, {}, hint)`:
   * the mapped array holds the very objects of the variants, so the rewrite lands in them.
   */
  method CodenamesOfField(ctx: Ctx, vs: seq<Json>, key: string, hint: Option<string>) returns (ys: seq<Json>)
    requires CtxOk(ctx) && Clean(JArr(vs)) && CaseOk(key) && key !in {"id", "external_id", "codename"}
    ensures |ys| == |vs| && Clean(JArr(ys)) && Mono(true, Plug(ctx, JArr(vs)), Plug(ctx, JArr(ys)))
    ensures forall j :: 0 <= j < |vs| ==> Projected(vs[j], ys[j], key, CnMode(true, Plug(ctx, JArr(vs)), Plug(ctx, JArr(ys)), hint))
  {
    ys := vs;
    var c: map<string, string> := map[];
    var i := 0;
    MonoRefl(true, Plug(ctx, JArr(vs)));
    while i < |vs|
      invariant FieldInv(ctx, vs, ys, key, i, c, hint)
    {
      if vs[i].JObj? && HasKey(vs[i].fields, key) {
        var vf := vs[i].fields;
        FieldBefore(ctx, vs, ys, key, i, c, hint);
        var w', c' := ReplaceIdReferencesWithCodenames(InObj(InArr(ctx, ys, i), vf, key), Lookup(vf, key).value, c, hint);
        FieldAfter(ctx, vs, ys, key, i, c, c', w', hint);
        ys := ys[i := JObj(Set(vf, key, w'))];
        c := c';
      } else {
        FieldSkip(ctx, vs, ys, key, i, c, hint);
      }
      i := i + 1;
    }
  }

  // ---------------------------------------------------------------- translateIds

  /** Taxonomies, snippets and content types got external ids; nothing else changed. */
  ghost predicate Externalized(d: ImportData, e: ImportData) {
    && e == d.(taxonomies := e.taxonomies, contentTypeSnippets := e.contentTypeSnippets, contentTypes := e.contentTypes)
    && Walked(JArr(d.taxonomies), JArr(e.taxonomies), ExtMode)
    && Walked(JArr(d.contentTypeSnippets), JArr(e.contentTypeSnippets), ExtMode)
    && Walked(JArr(d.contentTypes), JArr(e.contentTypes), ExtMode)
  }

  /** The list of kind `k` got codenames, found in the document as it went from `d0` to `d1`; nothing else changed. */
  ghost predicate KindStep(d0: ImportData, d1: ImportData, k: Kind, hint: Option<string>) {
    d1 == With(d0, k, Get(d1, k)) && CnPass(Get(d0, k), Get(d1, k), d0, d1, hint)
  }

  /** Property `key` of every variant got codenames; nothing else changed. */
  ghost predicate FieldStep(d0: ImportData, d1: ImportData, key: string, hint: Option<string>) {
    && d1 == d0.(languageVariants := d1.languageVariants)
    && |d1.languageVariants| == |d0.languageVariants|
    && forall j :: 0 <= j < |d0.languageVariants| ==>
         Projected(d0.languageVariants[j], d1.languageVariants[j], key, CnMode(true, Doc(d0), Doc(d1), hint))
  }

  /**
   * The rewrites of `translateIds`, in its order, from `s[0]` to `s[8]`: external ids for
   * taxonomies, snippets and types; codenames for languages, for assets (with the default
   * language's codename as hint), for content items; then the variants' `workflow` and
   * `workflow_step` (with the default workflow's codename as hint) before the rest of the
   * variants (with the language hint); last the workflows (with the workflow hint).
   */
  ghost predicate TranslatedVia(d: ImportData, hint: Option<string>, s: seq<ImportData>) {
    && |s| == 9 && s[0] == d
    && FrontVia(s[0], hint, s[1], s[2], s[3], s[4])
    && BackVia(s[4], hint, s[5], s[6], s[7], s[8])
  }

  ghost predicate FrontVia(d: ImportData, hint: Option<string>, d1: ImportData, d2: ImportData, d3: ImportData, d4: ImportData) {
    && Externalized(d, d1)
    && KindStep(d1, d2, Languages, None)
    && KindStep(d2, d3, Assets, hint)
    && KindStep(d3, d4, ContentItems, None)
  }

  ghost predicate BackVia(d4: ImportData, hint: Option<string>, d5: ImportData, d6: ImportData, d7: ImportData, d8: ImportData) {
    && FieldStep(d4, d5, "workflow", Some(DefaultWorkflowCodename))
    && FieldStep(d5, d6, "workflow_step", Some(DefaultWorkflowCodename))
    && KindStep(d6, d7, Variants, hint)
    && KindStep(d7, d8, Workflows, Some(DefaultWorkflowCodename))
  }

  /** Some variant is null: `languageVariants.map((m) => m.workflow)` reads a property of it. */
  predicate NullVariant(d: ImportData) {
    exists i :: 0 <= i < |d.languageVariants| && d.languageVariants[i].JNull?
  }

  /** The three `replaceIdReferencesWithExternalId` calls: each works on its own list and searches nothing. */
  method ExternalIds(d: ImportData) returns (e: ImportData)
    requires CleanData(d)
    ensures CleanData(e) && Externalized(d, e)
  {
    var t := ReplaceIdReferencesWithExternalId(JArr(d.taxonomies));
    var sn := ReplaceIdReferencesWithExternalId(JArr(d.contentTypeSnippets));
    var ty := ReplaceIdReferencesWithExternalId(JArr(d.contentTypes));
    e := d.(taxonomies := t.items, contentTypeSnippets := sn.items, contentTypes := ty.items);
  }

  /** One of the calls on `languageVariants.map((m) => m[key])`. */
  method VariantField(d: ImportData, key: string, hint: Option<string>) returns (d': ImportData)
    requires CleanData(d) && CaseOk(key) && key !in {"id", "external_id", "codename"}
    ensures CleanData(d') && FieldStep(d, d', key, hint)
  {
    var ctx := InObj(Top, DocFields(d), KeyOf(Variants));
    KindPlace(d, Variants, d.languageVariants);
    assert With(d, Variants, d.languageVariants) == d;
    var ys := CodenamesOfField(ctx, d.languageVariants, key, hint);
    d' := d.(languageVariants := ys);
    KindPlace(d, Variants, ys);
    assert With(d, Variants, ys) == d';
  }

  lemma VariantKeysOk()
    ensures CaseOk("workflow") && "workflow" !in {"id", "external_id", "codename"}
    ensures CaseOk("workflow_step") && "workflow_step" !in {"id", "external_id", "codename"}
  {
    assert Lower("workflow")[0] == 'w';
    assert "codename"[0] == 'c';
    assert "workflow"[0] != "codename"[0];
    assert |Lower("workflow_step")| == 13;
  }

  /** The rewrites before the variants'. */
  method FrontRewrites(d: ImportData, hint: Option<string>) returns (d1: ImportData, d2: ImportData, d3: ImportData, d4: ImportData)
    requires CleanData(d)
    ensures CleanData(d4) && d4.languageVariants == d.languageVariants
    ensures FrontVia(d, hint, d1, d2, d3, d4)
  {
    d1 := ExternalIds(d);
    d2 := CodenamesOfKind(d1, Languages, None);
    d3 := CodenamesOfKind(d2, Assets, hint);
    d4 := CodenamesOfKind(d3, ContentItems, None);
  }

  /** The rewrites of the variants and the workflows. */
  method BackRewrites(d4: ImportData, hint: Option<string>) returns (d5: ImportData, d6: ImportData, d7: ImportData, d8: ImportData)
    requires CleanData(d4)
    ensures CleanData(d8)
    ensures BackVia(d4, hint, d5, d6, d7, d8)
  {
    VariantKeysOk();
    d5 := VariantField(d4, "workflow", Some(DefaultWorkflowCodename));
    d6 := VariantField(d5, "workflow_step", Some(DefaultWorkflowCodename));
    d7 := CodenamesOfKind(d6, Variants, hint);
    d8 := CodenamesOfKind(d7, Workflows, Some(DefaultWorkflowCodename));
  }

  /** Every rewrite of `translateIds`, in order, with the hint already read. */
  method Rewrites(d: ImportData, hint: Option<string>) returns (r: ImportData, ghost steps: seq<ImportData>)
    requires CleanData(d)
    ensures CleanData(r) && TranslatedVia(d, hint, steps) && r == steps[8]
  {
    var d1, d2, d3, d4 := FrontRewrites(d, hint);
    var d5, d6, d7, d8 := BackRewrites(d4, hint);
    steps := [d, d1, d2, d3, d4, d5, d6, d7, d8];
    r := d8;
  }

  /**
   * `translateIds`: the hint is read from the languages before anything is rewritten; a
   * null language met before the default one, or a null variant, throws. The rewrites
   * before the one that throws change nothing anyone reads afterwards, so the variants
   * are looked at first here.
   */
  method TranslateIds(d: ImportData) returns (r: Result<ImportData, ImportError>, ghost steps: seq<ImportData>)
    requires CleanData(d)
    ensures r.Fail? <==> DefaultLanguageCodename(d.languages).Fail? || NullVariant(d)
    ensures r.Fail? ==> r.error == if DefaultLanguageCodename(d.languages).Fail? then TypeError("id") else TypeError("workflow")
    ensures r.Ok? ==> CleanData(r.value) && TranslatedVia(d, DefaultLanguageCodename(d.languages).value, steps) && r.value == steps[8]
  {
    steps := [];
    var found := DefaultLanguageCodename(d.languages);
    if found.Fail? {
      return Fail(found.error), steps;
    }
    if exists i :: 0 <= i < |d.languageVariants| && d.languageVariants[i].JNull? {
      return Fail(TypeError("workflow")), steps;
    }
    var t;
    t, steps := Rewrites(d, found.value);
    r := Ok(t);
  }

  // ---------------------------------------------------------------- why the variants' workflows go first

  /** The workflow pass gives a reference to the default id, without codename, the default workflow's codename. */
  lemma DefaultIdGetsHint(w: Json, w': Json, m: Mode)
    requires m.CnMode? && m.hint == Some(DefaultWorkflowCodename)
    requires w.JObj? && Lookup(w.fields, "id") == Some(JStr(DefaultObjectId)) && !TruthyOpt(Lookup(w.fields, "codename"))
    requires Walked(w, w', m)
    ensures w'.JObj? && !HasKey(w'.fields, "id") && Lookup(w'.fields, "codename") == Some(JStr(DefaultWorkflowCodename))
  {
    assert DefaultHint(DefaultObjectId, m.hint);
  }

  /** A codename rewrite leaves the `id` and `codename` of an object whose codename is truthy. */
  lemma ResolvedStays(w: Json, w': Json, m: Mode)
    requires m.CnMode? && w.JObj? && TruthyOpt(Lookup(w.fields, "codename"))
    requires Walked(w, w', m)
    ensures w'.JObj? && Lookup(w'.fields, "codename") == Lookup(w.fields, "codename") && Lookup(w'.fields, "id") == Lookup(w.fields, "id")
  {
  }

  /** A rewrite continues into every key it does not own. */
  lemma ChildWalked(fs: Fields, b: Json, key: string, m: Mode)
    requires Walked(JObj(fs), b, m) && HasKey(fs, key) && key !in Reserved(m)
    ensures b.JObj? && HasKey(b.fields, key) && Walked(Lookup(fs, key).value, Lookup(b.fields, key).value, m)
  {
    LookupSmaller(fs, key);
  }

  /** The variant's `workflow` is given by the default workflow's codename, and its id is gone. */
  predicate WorkflowResolved(v: Json) {
    && Field(v, "workflow").Some?
    && Field(Field(v, "workflow").value, "codename") == Some(JStr(DefaultWorkflowCodename))
    && Field(Field(v, "workflow").value, "id") == None
  }

  lemma WorkflowPassResolves(d4: ImportData, d5: ImportData, i: nat, wf: Fields)
    requires FieldStep(d4, d5, "workflow", Some(DefaultWorkflowCodename)) && i < |d4.languageVariants|
    requires d4.languageVariants[i].JObj? && Lookup(d4.languageVariants[i].fields, "workflow") == Some(JObj(wf))
    requires Lookup(wf, "id") == Some(JStr(DefaultObjectId)) && !TruthyOpt(Lookup(wf, "codename"))
    ensures i < |d5.languageVariants| && WorkflowResolved(d5.languageVariants[i])
  {
    var m5 := CnMode(true, Doc(d4), Doc(d5), Some(DefaultWorkflowCodename));
    assert Projected(d4.languageVariants[i], d5.languageVariants[i], "workflow", m5);
    var y5 := d5.languageVariants[i];
    DefaultIdGetsHint(JObj(wf), Lookup(y5.fields, "workflow").value, m5);
  }

  lemma StepPassKeeps(d5: ImportData, d6: ImportData, i: nat)
    requires FieldStep(d5, d6, "workflow_step", Some(DefaultWorkflowCodename)) && i < |d5.languageVariants|
    requires WorkflowResolved(d5.languageVariants[i])
    ensures i < |d6.languageVariants| && WorkflowResolved(d6.languageVariants[i])
  {
    var m6 := CnMode(true, Doc(d5), Doc(d6), Some(DefaultWorkflowCodename));
    var y5, y6 := d5.languageVariants[i], d6.languageVariants[i];
    assert Projected(y5, y6, "workflow_step", m6);
    if HasKey(y5.fields, "workflow_step") {
      LookupSet(y5.fields, "workflow_step", Lookup(y6.fields, "workflow_step").value, "workflow");
      assert "workflow" != "workflow_step";
    }
  }

  lemma VariantPassKeeps(d6: ImportData, d7: ImportData, i: nat, hint: Option<string>)
    requires KindStep(d6, d7, Variants, hint) && i < |d6.languageVariants|
    requires WorkflowResolved(d6.languageVariants[i])
    ensures i < |d7.languageVariants| && WorkflowResolved(d7.languageVariants[i])
  {
    VariantKeysOk();
    var m7 := CnMode(true, Doc(d6), Doc(d7), hint);
    var y6, y7 := d6.languageVariants[i], d7.languageVariants[i];
    assert Walked(JArr(d6.languageVariants), JArr(d7.languageVariants), m7);
    assert Walked(y6, y7, m7);
    ChildWalked(y6.fields, y7, "workflow", m7);
    ResolvedStays(Lookup(y6.fields, "workflow").value, Lookup(y7.fields, "workflow").value, m7);
  }

  /**
   * A variant whose `workflow` refers to the default id without a codename ends with the
   * default workflow's codename there. The rest of the variant is rewritten later with the
   * default language's codename as hint, which would otherwise have gone there: the default
   * language and the default workflow share that id.
   */
  lemma VariantWorkflowIsDefault(d: ImportData, hint: Option<string>, s: seq<ImportData>, i: nat, wf: Fields)
    requires TranslatedVia(d, hint, s) && i < |d.languageVariants|
    requires d.languageVariants[i].JObj? && Lookup(d.languageVariants[i].fields, "workflow") == Some(JObj(wf))
    requires Lookup(wf, "id") == Some(JStr(DefaultObjectId)) && !TruthyOpt(Lookup(wf, "codename"))
    ensures i < |s[8].languageVariants| && WorkflowResolved(s[8].languageVariants[i])
  {
    FrontKeepsVariants(d, hint, s[1], s[2], s[3], s[4]);
    BackResolves(s[4], hint, s[5], s[6], s[7], s[8], i, wf);
  }

  lemma BackResolves(d4: ImportData, hint: Option<string>, d5: ImportData, d6: ImportData, d7: ImportData, d8: ImportData, i: nat, wf: Fields)
    requires BackVia(d4, hint, d5, d6, d7, d8) && i < |d4.languageVariants|
    requires d4.languageVariants[i].JObj? && Lookup(d4.languageVariants[i].fields, "workflow") == Some(JObj(wf))
    requires Lookup(wf, "id") == Some(JStr(DefaultObjectId)) && !TruthyOpt(Lookup(wf, "codename"))
    ensures i < |d8.languageVariants| && WorkflowResolved(d8.languageVariants[i])
  {
    WorkflowPassResolves(d4, d5, i, wf);
    StepPassKeeps(d5, d6, i);
    VariantPassKeeps(d6, d7, i, hint);
    WorkflowPassKeepsVariants(d7, d8);
  }

  /** The workflow pass changes only the workflows. */
  lemma WorkflowPassKeepsVariants(d7: ImportData, d8: ImportData)
    requires d8 == With(d7, Workflows, Get(d8, Workflows))
    ensures d8.languageVariants == d7.languageVariants
  {
  }

  lemma FrontKeepsVariants(d: ImportData, hint: Option<string>, d1: ImportData, d2: ImportData, d3: ImportData, d4: ImportData)
    requires FrontVia(d, hint, d1, d2, d3, d4)
    ensures d4.languageVariants == d.languageVariants
  {
    assert Externalized(d, d1);
    assert KindStep(d1, d2, Languages, None);
    assert KindStep(d2, d3, Assets, hint);
    assert KindStep(d3, d4, ContentItems, None);
  }
}
