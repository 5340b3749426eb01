/**
 * The language rules of the newer import service: `fixLanguageAsync`, which aligns the
 * target project's languages with the export before the import compares them, and
 * `tryGetLanguage`, which decides whether a language is created and with which fallback.
 *
 * `fixLanguageAsync` is a plan here: the modifications it sends, in order, and the error
 * it throws after them. The service sends the calls; `Modified` says what a target project
 * that carries the modifications out lists afterwards.
 */
module LibLanguageRules {
  import opened Wrappers
  import opened Json
  import opened CoreModels
  import opened ImportModels

  /** `defaultObjectId`: the id both projects give their default language. */
  const DefaultLanguageId := "00000000-0000-0000-0000-000000000000"

  /** `m.codename === importLanguage.codename`. */
  predicate HasCodename(m: LanguageModel, codename: Option<Json>) {
    codename == Some(JStr(m.codename))
  }

  /** `m.id === importLanguage.id`. */
  predicate HasId(m: LanguageModel, id: Option<Json>) {
    id == Some(JStr(m.id))
  }

  /** `languages.find(p)`: the first language satisfying `p`. */
  function FindLanguage(ls: seq<LanguageModel>, p: LanguageModel -> bool): (r: Option<LanguageModel>)
    ensures r.None? <==> forall i :: 0 <= i < |ls| ==> !p(ls[i])
    ensures r.Some? ==> exists i :: (0 <= i < |ls| && ls[i] == r.value && p(ls[i])
      && forall j :: 0 <= j < i ==> !p(ls[j]))
  {
    if |ls| == 0 then None
    else if p(ls[0]) then Some(ls[0])
    else
      var r := FindLanguage(ls[1..], p);
      assert forall i :: 0 <= i < |ls| - 1 ==> ls[1..][i] == ls[i + 1];
      if r.Some? then
        var i :| (0 <= i < |ls| - 1 && ls[1..][i] == r.value && p(ls[1..][i])
          && forall j :: 0 <= j < i ==> !p(ls[1..][j]));
        assert forall j :: 0 <= j < i + 1 ==> !p(ls[j]);
        r
      else r
  }

  function Codename(lang: Json): Option<Json> {
    Field(lang, "codename")
  }

  /** The target language with the export language's codename, the one `find` returns. */
  function Existing(current: seq<LanguageModel>, lang: Json): Option<LanguageModel> {
    FindLanguage(current, m => HasCodename(m, Codename(lang)))
  }

  /** The target language with the export language's id. */
  function SameIdTarget(current: seq<LanguageModel>, lang: Json): Option<LanguageModel> {
    FindLanguage(current, m => HasId(m, Field(lang, "id")))
  }

  lemma ExistingIffTaken(current: seq<LanguageModel>, lang: Json)
    ensures Existing(current, lang).Some? <==> CodenameTaken(current, lang)
    ensures Existing(current, lang).Some? ==> HasCodename(Existing(current, lang).value, Codename(lang))
  {
  }

  /** Some target language already has the export language's codename. */
  predicate CodenameTaken(current: seq<LanguageModel>, lang: Json) {
    exists i :: 0 <= i < |current| && HasCodename(current[i], Codename(lang))
  }

  /** The export language is the default one and the target has a default language under another codename. */
  predicate DefaultCodenameDiffers(current: seq<LanguageModel>, lang: Json) {
    Field(lang, "id") == Some(JStr(DefaultLanguageId))
    && exists i :: 0 <= i < |current| && current[i].id == DefaultLanguageId && !HasCodename(current[i], Codename(lang))
  }

  // ---------------------------------------------------------------- tryGetLanguage

  /**
   * `(importLanguage.fallback_language as any).codename`: reading it throws when there is
   * no fallback language object at all.
   */
  function FallbackCodename(lang: Json): (r: Result<Option<Json>, ImportError>)
    ensures r.Fail? <==> Field(lang, "fallback_language") in {None, Some(JNull)}
  {
    var fb := Field(lang, "fallback_language");
    if fb.None? || fb.value.JNull? then Fail(TypeError("codename"))
    else Ok(Field(fb.value, "codename"))
  }

  /** What `tryGetLanguage` returns: `'noImport'`, or the data of the language to add. */
  datatype LanguageDecision = NoImport | Import(data: AddLanguageData)

  /**
   * `tryGetLanguage`. A language whose codename the target already has is not imported. The
   * default language is refused when the target's default language has another codename.
   * A language without a fallback codename is refused. Otherwise the language is added with
   * its own properties, and with the default language as its fallback when it names itself
   * as its fallback (a language cannot fall back to itself), else the named fallback.
   */
  function TryGetLanguage(current: seq<LanguageModel>, lang: Json): (r: Result<LanguageDecision, ImportError>)
    ensures r == Ok(NoImport) <==> CodenameTaken(current, lang)
    ensures (r.Fail? && r.error.DefaultLanguageMismatch?)
      <==> !CodenameTaken(current, lang) && DefaultCodenameDiffers(current, lang)
    ensures r.Fail? && r.error.DefaultLanguageMismatch? ==> r.error.sourceCodename == Codename(lang)
    ensures r.Fail? && !r.error.DefaultLanguageMismatch? ==>
      (FallbackCodename(lang).Fail? && r.error == TypeError("codename"))
      || (FallbackCodename(lang).Ok? && !TruthyOpt(FallbackCodename(lang).value)
          && r.error == UnsetFallbackCodename(Field(lang, "name")))
    ensures (r.Ok? && r.value.Import?) <==>
      (!CodenameTaken(current, lang) && !DefaultCodenameDiffers(current, lang)
       && FallbackCodename(lang).Ok? && TruthyOpt(FallbackCodename(lang).value))
    ensures r.Ok? && r.value.Import? ==>
      var d := r.value.data;
      && d.codename == Codename(lang) && d.name == Field(lang, "name")
      && d.externalId == Field(lang, "external_id") && d.isActive == Field(lang, "is_active")
      && (d.fallbackLanguage.FallbackById? <==> Codename(lang) == FallbackCodename(lang).value)
      && (d.fallbackLanguage.FallbackById? ==> d.fallbackLanguage.id == DefaultLanguageId)
      && (d.fallbackLanguage.FallbackByCodename? ==>
            Some(d.fallbackLanguage.codename) == FallbackCodename(lang).value
            && Some(d.fallbackLanguage.codename) != d.codename)
  {
    var existing := Existing(current, lang);
    if existing.Some? then Ok(NoImport)
    else
      var defaultCurrent := FindLanguage(current, (m: LanguageModel) => m.id == DefaultLanguageId);
      if Field(lang, "id") == Some(JStr(DefaultLanguageId)) && defaultCurrent.Some?
         && !HasCodename(defaultCurrent.value, Codename(lang))
      then Fail(DefaultLanguageMismatch(Codename(lang), defaultCurrent.value.codename))
      else
        match FallbackCodename(lang)
        case Fail(e) => Fail(e)
        case Ok(fallback) =>
          if !TruthyOpt(fallback) then Fail(UnsetFallbackCodename(Field(lang, "name")))
          else
            Ok(Import(AddLanguageData(
              Codename(lang), Field(lang, "name"), Field(lang, "external_id"),
              if Codename(lang) == fallback then FallbackById(DefaultLanguageId) else FallbackByCodename(fallback.value),
              Field(lang, "is_active"))))
  }

  // ---------------------------------------------------------------- fixLanguageAsync

  /** What `fixLanguageAsync` does: the modifications it sends in order, then what it throws, if anything. */
  datatype FixPlan = FixPlan(calls: seq<Call>, error: Option<ImportError>)

  predicate IsActivation(c: Call) {
    c.ModifyLanguage? && c.patch.ActivateLanguage?
  }

  predicate IsRename(c: Call) {
    c.ModifyLanguage? && c.patch.RenameLanguage?
  }

  /**
   * `fixLanguageAsync`. The target language with the export language's codename is
   * activated when it is inactive. For the default language (`is_default` truthy), the
   * target language with the same id must exist, or the fix throws, after the activation;
   * when no target language has the export language's codename, the target default
   * language is renamed to it.
   */
  function FixLanguage(current: seq<LanguageModel>, lang: Json): (r: FixPlan)
    ensures |r.calls| <= 2
    ensures forall c :: c in r.calls ==> IsActivation(c) || IsRename(c)
    ensures (exists c :: c in r.calls && IsActivation(c))
      <==> Existing(current, lang).Some? && !Existing(current, lang).value.isActive
    ensures forall c :: c in r.calls && IsActivation(c) ==> c.byCodename == Existing(current, lang).value.codename
    ensures (exists c :: c in r.calls && IsRename(c))
      <==> TruthyOpt(Field(lang, "is_default")) && SameIdTarget(current, lang).Some? && !CodenameTaken(current, lang)
    ensures forall c :: c in r.calls && IsRename(c) ==>
      c == ModifyLanguage(SameIdTarget(current, lang).value.codename, RenameLanguage(Codename(lang)))
    ensures |r.calls| == 2 ==> IsActivation(r.calls[0]) && IsRename(r.calls[1])
    ensures r.error.Some? <==> TruthyOpt(Field(lang, "is_default")) && SameIdTarget(current, lang).None?
    ensures r.error.Some? ==> r.error.value == DefaultLanguageNotFound(Field(lang, "id"))
  {
    var existing := Existing(current, lang);
    var activation := if existing.Some? && !existing.value.isActive
      then [ModifyLanguage(existing.value.codename, ActivateLanguage)] else [];
    ExistingIffTaken(current, lang);
    assert activation != [] ==> activation[0] in activation;
    if !TruthyOpt(Field(lang, "is_default")) then FixPlan(activation, None)
    else
      var defaultExisting := SameIdTarget(current, lang);
      if defaultExisting.None? then FixPlan(activation, Some(DefaultLanguageNotFound(Field(lang, "id"))))
      else if !HasCodename(defaultExisting.value, Codename(lang)) && existing.None? then
        var rename := ModifyLanguage(defaultExisting.value.codename, RenameLanguage(Codename(lang)));
        assert rename in activation + [rename];
        FixPlan(activation + [rename], None)
      else
        TargetTaken(current, lang);
        FixPlan(activation, None)
  }

  /** The target language with the export language's id, when it has the export language's codename, takes it. */
  lemma TargetTaken(current: seq<LanguageModel>, lang: Json)
    requires SameIdTarget(current, lang).Some?
    ensures HasCodename(SameIdTarget(current, lang).value, Codename(lang)) ==> CodenameTaken(current, lang)
  {
    var i :| 0 <= i < |current| && current[i] == SameIdTarget(current, lang).value;
  }

  /** One language after a modification the target carries out; a rename to a non-string changes nothing. */
  function Patched(m: LanguageModel, patch: LanguagePatch): LanguageModel {
    match patch
    case ActivateLanguage => m.(isActive := true)
    case RenameLanguage(c) => if c.Some? && c.value.JStr? then m.(codename := c.value.s) else m
  }

  /** The target's languages after a call: a modification applies to the languages with the codename it names. */
  function Modified(ls: seq<LanguageModel>, c: Call): (r: seq<LanguageModel>)
    ensures |r| == |ls|
  {
    if c.ModifyLanguage? then
      seq(|ls|, i requires 0 <= i < |ls| => if ls[i].codename == c.byCodename then Patched(ls[i], c.patch) else ls[i])
    else ls
  }

  function ModifiedAll(ls: seq<LanguageModel>, calls: seq<Call>): (r: seq<LanguageModel>)
    ensures |r| == |ls|
    decreases calls
  {
    if |calls| == 0 then ls else ModifiedAll(Modified(ls, calls[0]), calls[1..])
  }

  /** An activation renames nothing and leaves the codenames where they were. */
  lemma ActivationKeepsCodenames(ls: seq<LanguageModel>, c: Call)
    requires IsActivation(c)
    ensures forall i :: 0 <= i < |ls| ==> Modified(ls, c)[i].codename == ls[i].codename
  {
  }

  /**
   * Once the target carries out the modifications the fix sends, the default language the
   * fix did not refuse is found by codename: `tryGetLanguage` skips it.
   */
  lemma FixedDefaultLanguageIsNotImported(current: seq<LanguageModel>, lang: Json)
    requires TruthyOpt(Field(lang, "is_default")) && SameIdTarget(current, lang).Some?
    requires Codename(lang).Some? && Codename(lang).value.JStr?
    ensures TryGetLanguage(ModifiedAll(current, FixLanguage(current, lang).calls), lang) == Ok(NoImport)
  {
    var calls := FixLanguage(current, lang).calls;
    var after := ModifiedAll(current, calls);
    if CodenameTaken(current, lang) {
      var i :| 0 <= i < |current| && HasCodename(current[i], Codename(lang));
      assert forall c :: c in calls ==> IsActivation(c);
      KeepsCodename(current, calls, i);
      assert HasCodename(after[i], Codename(lang));
    } else {
      var d := SameIdTarget(current, lang).value;
      var i :| 0 <= i < |current| && current[i] == d && HasId(current[i], Field(lang, "id"));
      var rename := ModifyLanguage(d.codename, RenameLanguage(Codename(lang)));
      ExistingIffTaken(current, lang);
      assert calls == [rename];
      assert after == ModifiedAll(Modified(current, rename), []) by { assert calls[1..] == []; }
      assert current[i].codename == rename.byCodename;
      assert HasCodename(after[i], Codename(lang));
    }
  }

  lemma ModifiedOne(ls: seq<LanguageModel>, c: Call)
    ensures ModifiedAll(ls, [c]) == Modified(ls, c)
  {
    assert [c][1..] == [];
  }

  /** Modifications that are all activations keep every language's codename. */
  lemma {:induction false} KeepsCodename(ls: seq<LanguageModel>, calls: seq<Call>, i: nat)
    requires i < |ls|
    requires forall c :: c in calls ==> IsActivation(c)
    ensures ModifiedAll(ls, calls)[i].codename == ls[i].codename
    decreases |calls|
  {
    if |calls| > 0 {
      assert calls[0] in calls;
      ActivationKeepsCodenames(ls, calls[0]);
      assert forall c :: c in calls[1..] ==> c in calls;
      KeepsCodename(Modified(ls, calls[0]), calls[1..], i);
    }
  }

  /** Once the target carries out the fix's modifications, the language with the export language's codename is active. */
  lemma FixedLanguageIsActive(current: seq<LanguageModel>, lang: Json) returns (i: nat)
    requires CodenameTaken(current, lang)
    ensures i < |current| && current[i] == Existing(current, lang).value
    ensures HasCodename(ModifiedAll(current, FixLanguage(current, lang).calls)[i], Codename(lang))
    ensures ModifiedAll(current, FixLanguage(current, lang).calls)[i].isActive
  {
    ExistingIffTaken(current, lang);
    var e := Existing(current, lang).value;
    i :| i < |current| && current[i] == e && HasCodename(current[i], Codename(lang));
    ActivationPlan(current, lang);
    if !e.isActive {
      ModifiedOne(current, ModifyLanguage(e.codename, ActivateLanguage));
    }
  }

  /** For a language the target has by codename, the fix sends the activation alone, and only if it is needed. */
  lemma ActivationPlan(current: seq<LanguageModel>, lang: Json)
    requires CodenameTaken(current, lang)
    ensures var e := Existing(current, lang).value;
      FixLanguage(current, lang).calls == if e.isActive then [] else [ModifyLanguage(e.codename, ActivateLanguage)]
  {
    ExistingIffTaken(current, lang);
  }
}
