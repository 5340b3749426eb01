/**
 * The language variant rules of the newer import service: the upsert of each variant
 * (`importLanguageVariantsAsync`), the pass that restores each variant's workflow step
 * (`setWorkflowStepsOfLanguageVariantsAsync`), and the pass that moves every variant to
 * one configured step (`moveLanguageVariantsToCustomWorkflowStepAsync`).
 *
 * Each rule yields the management API call the service makes for one variant, or what it
 * throws before making it. A comparison with `===` compares the values read.
 */
module LibVariantRules {
  import opened Wrappers
  import opened Json
  import opened CoreModels
  import opened ImportModels
  import opened IdTranslateHelper
  import AssetImportRules

  // ---------------------------------------------------------------- first-match searches

  /**
   * A search over `xs` with a test that may throw: the index of the first element the test
   * holds of, `None` when it holds of none, or what the test throws first.
   */
  function Scan<K>(xs: seq<Json>, test: (Json, K) -> Result<bool, ImportError>, key: K): (r: Result<Option<nat>, ImportError>)
    ensures r.Ok? && r.value.Some? ==> (r.value.value < |xs| && test(xs[r.value.value], key) == Ok(true)
      && forall j :: 0 <= j < r.value.value ==> test(xs[j], key) == Ok(false))
    ensures r == Ok(None) <==> forall j :: 0 <= j < |xs| ==> test(xs[j], key) == Ok(false)
    ensures r.Fail? ==> exists i :: (0 <= i < |xs| && test(xs[i], key) == Fail(r.error)
      && forall j :: 0 <= j < i ==> test(xs[j], key) == Ok(false))
  {
    ScanFrom(xs, test, key, 0)
  }

  function ScanFrom<K>(xs: seq<Json>, test: (Json, K) -> Result<bool, ImportError>, key: K, from: nat): (r: Result<Option<nat>, ImportError>)
    requires from <= |xs|
    ensures r.Ok? && r.value.Some? ==> (from <= r.value.value < |xs| && test(xs[r.value.value], key) == Ok(true)
      && forall j :: from <= j < r.value.value ==> test(xs[j], key) == Ok(false))
    ensures r == Ok(None) <==> forall j :: from <= j < |xs| ==> test(xs[j], key) == Ok(false)
    ensures r.Fail? ==> exists i :: (from <= i < |xs| && test(xs[i], key) == Fail(r.error)
      && forall j :: from <= j < i ==> test(xs[j], key) == Ok(false))
    decreases |xs| - from
  {
    if from == |xs| then Ok(None)
    else
      match test(xs[from], key)
      case Fail(e) => Fail(e)
      case Ok(true) => Ok(Some(from))
      case Ok(false) => ScanFrom(xs, test, key, from + 1)
  }

  /** The first element the test holds of, with the test false of all before it, is what the search finds. */
  lemma {:induction false} ScanFound<K>(xs: seq<Json>, test: (Json, K) -> Result<bool, ImportError>, key: K, from: nat, i: nat)
    requires from <= i < |xs| && test(xs[i], key) == Ok(true)
    requires forall j :: from <= j < i ==> test(xs[j], key) == Ok(false)
    ensures ScanFrom(xs, test, key, from) == Ok(Some(i))
    decreases i - from
  {
    if from < i {
      ScanFound(xs, test, key, from + 1, i);
    }
  }

  /** The first element the test throws on, with the test false of all before it, decides what the search throws. */
  lemma {:induction false} ScanThrows<K>(xs: seq<Json>, test: (Json, K) -> Result<bool, ImportError>, key: K, from: nat, i: nat)
    requires from <= i < |xs| && test(xs[i], key).Fail?
    requires forall j :: from <= j < i ==> test(xs[j], key) == Ok(false)
    ensures ScanFrom(xs, test, key, from) == Fail(test(xs[i], key).error)
    decreases i - from
  {
    if from < i {
      ScanThrows(xs, test, key, from + 1, i);
    }
  }

  /** The search as the service writes it: a `for … of` loop that returns at the first match. */
  method ScanLoop<K>(xs: seq<Json>, test: (Json, K) -> Result<bool, ImportError>, key: K) returns (r: Result<Option<nat>, ImportError>)
    ensures r == Scan(xs, test, key)
  {
    var i := 0;
    while i < |xs|
      invariant 0 <= i <= |xs|
      invariant forall j :: 0 <= j < i ==> test(xs[j], key) == Ok(false)
    {
      var t := test(xs[i], key);
      if t.Fail? {
        ScanThrows(xs, test, key, 0, i);
        return Fail(t.error);
      }
      if t.value {
        ScanFound(xs, test, key, 0, i);
        return Ok(Some(i));
      }
      i := i + 1;
    }
    return Ok(None);
  }

  // ---------------------------------------------------------------- reading the variant

  /** `o.a.b`, where reading a property of `undefined` or `null` throws. */
  function Read2(o: Json, a: string, b: string): (r: Result<Option<Json>, ImportError>)
    ensures r.Ok? ==> r.value == Field2(o, a, b)
    ensures r.Fail? ==> r.error.TypeError?
  {
    var x :- Read(Some(o), a);
    Read(x, b)
  }

  /** `languageVariant.workflow.workflow_identifier.codename`: the workflow a variant names. */
  function WorkflowKey(v: Json): (r: Result<Option<Json>, ImportError>)
    ensures r.Fail? ==> r.error.TypeError?
  {
    var wf :- Read(Some(v), "workflow");
    var wi :- Read(wf, "workflow_identifier");
    Read(wi, "codename")
  }

  /**
   * `a.toLowerCase() === b?.toLowerCase()`: `a` must be a string; `b` may be `undefined` or
   * `null`, which matches nothing; anything else has no `toLowerCase` to call.
   */
  function SameLower(a: Option<Json>, b: Option<Json>): (r: Result<bool, ImportError>)
    ensures r == Ok(true) <==> SameCodename(a, b)
    ensures r.Fail? ==> r.error.TypeError?
  {
    if !(a.Some? && a.value.JStr?) then Fail(TypeError("toLowerCase"))
    else match b
      case None => Ok(false)
      case Some(JNull) => Ok(false)
      case Some(JStr(t)) => Ok(Lower(a.value.s) == Lower(t))
      case _ => Fail(TypeError("toLowerCase"))
  }

  /** Two codenames equal up to letter case. */
  predicate SameCodename(a: Option<Json>, b: Option<Json>) {
    a.Some? && a.value.JStr? && b.Some? && b.value.JStr? && Lower(a.value.s) == Lower(b.value.s)
  }

  /** The steps of a workflow as a loop reads them: only an array can be iterated. */
  function WorkflowSteps(w: Json): (r: Result<seq<Json>, ImportError>)
    ensures r.Ok? ==> r.value == StepList(w)
    ensures r.Fail? ==> r.error.TypeError?
  {
    var st :- Read(Some(w), "steps");
    if st.Some? && st.value.JArr? then Ok(st.value.items) else Fail(TypeError("steps"))
  }

  function StepList(w: Json): seq<Json> {
    match Field(w, "steps")
    case Some(JArr(xs)) => xs
    case _ => []
  }

  // ---------------------------------------------------------------- the tests of the searches

  /** `workflow.published_step.codename === languageVariant.workflow_step.codename`. */
  function PublishedStepIs(w: Json, stepCodename: Option<Json>): (r: Result<bool, ImportError>)
    ensures r.Ok? ==> (r.value <==> Field2(w, "published_step", "codename") == stepCodename)
    ensures r.Fail? ==> r.error.TypeError?
  {
    var c :- Read2(w, "published_step", "codename");
    Ok(c == stepCodename)
  }

  /** `workflow.archived_step.codename === languageVariant.workflow_step.codename`. */
  function ArchivedStepIs(w: Json, stepCodename: Option<Json>): (r: Result<bool, ImportError>)
    ensures r.Ok? ==> (r.value <==> Field2(w, "archived_step", "codename") == stepCodename)
    ensures r.Fail? ==> r.error.TypeError?
  {
    var c :- Read2(w, "archived_step", "codename");
    Ok(c == stepCodename)
  }

  /** `workflowStep.codename.toLowerCase() === languageVariant.workflow_step.codename?.toLowerCase()`. */
  function StepMatches(step: Json, stepCodename: Option<Json>): (r: Result<bool, ImportError>)
    ensures r == Ok(true) <==> SameCodename(Field(step, "codename"), stepCodename)
    ensures r.Fail? ==> r.error.TypeError?
  {
    var c :- Read(Some(step), "codename");
    SameLower(c, stepCodename)
  }

  /** Whether the inner loop of `getWorkflowAndStepOfLanguageVariant` finds a step of `w`. */
  function HasMatchingStep(w: Json, stepCodename: Option<Json>): (r: Result<bool, ImportError>)
    ensures r.Ok? ==> (r.value <==> exists j :: 0 <= j < |StepList(w)| && SameCodename(Field(StepList(w)[j], "codename"), stepCodename))
    ensures r.Fail? ==> r.error.TypeError?
  {
    var steps :- WorkflowSteps(w);
    var j :- Scan(steps, StepMatches, stepCodename);
    Ok(j.Some?)
  }

  /** `m.codename.toLowerCase() === languageVariant.workflow.workflow_identifier.codename?.toLowerCase()`. */
  function WorkflowNamed(m: Json, v: Json): (r: Result<bool, ImportError>)
    ensures r == Ok(true) ==> WorkflowKey(v).Ok? && SameCodename(Field(m, "codename"), WorkflowKey(v).value)
    ensures r.Fail? ==> r.error.TypeError?
  {
    var c :- Read(Some(m), "codename");
    if !(c.Some? && c.value.JStr?) then Fail(TypeError("toLowerCase"))
    else
      var key :- WorkflowKey(v);
      SameLower(c, key)
  }

  // ---------------------------------------------------------------- the lookups

  /**
   * `isLanguageVariantPublished`: some workflow's published step has the variant's step
   * codename (every workflow up to the first such one must have a published step).
   */
  function IsPublished(ws: seq<Json>, stepCodename: Option<Json>): (r: Result<bool, ImportError>)
    ensures r.Ok? ==> (r.value <==> exists i :: 0 <= i < |ws| && Field2(ws[i], "published_step", "codename") == stepCodename)
    ensures r.Fail? ==> r.error.TypeError?
  {
    var i :- Scan(ws, PublishedStepIs, stepCodename);
    Ok(i.Some?)
  }

  /** `isLanguageVariantArchived`: the same, for the archived step. */
  function IsArchived(ws: seq<Json>, stepCodename: Option<Json>): (r: Result<bool, ImportError>)
    ensures r.Ok? ==> (r.value <==> exists i :: 0 <= i < |ws| && Field2(ws[i], "archived_step", "codename") == stepCodename)
    ensures r.Fail? ==> r.error.TypeError?
  {
    var i :- Scan(ws, ArchivedStepIs, stepCodename);
    Ok(i.Some?)
  }

  /**
   * `getWorkflowAndStepOfLanguageVariant`: the first workflow, in order, with a step whose
   * codename equals the variant's step codename up to letter case, and the first such step.
   */
  function GetWorkflowAndStep(ws: seq<Json>, stepCodename: Option<Json>): (r: Result<Option<(nat, nat)>, ImportError>)
    ensures r.Ok? && r.value.Some? ==> (r.value.value.0 < |ws| && r.value.value.1 < |StepList(ws[r.value.value.0])|
      && SameCodename(Field(StepList(ws[r.value.value.0])[r.value.value.1], "codename"), stepCodename))
    ensures r.Ok? && r.value.Some? ==> forall k, m :: (0 <= k < r.value.value.0 && 0 <= m < |StepList(ws[k])| ==>
      !SameCodename(Field(StepList(ws[k])[m], "codename"), stepCodename))
    ensures r == Ok(None) ==> forall i, j :: 0 <= i < |ws| && 0 <= j < |StepList(ws[i])| ==> !SameCodename(Field(StepList(ws[i])[j], "codename"), stepCodename)
    ensures r.Fail? ==> r.error.TypeError?
  {
    var i :- Scan(ws, HasMatchingStep, stepCodename);
    if i.None? then
      assert forall k :: 0 <= k < |ws| ==> HasMatchingStep(ws[k], stepCodename) == Ok(false);
      Ok(None)
    else
      var steps := WorkflowSteps(ws[i.value]).value;
      var j := Scan(steps, StepMatches, stepCodename).value;
      Ok(Some((i.value, j.value)))
  }

  /**
   * `getWorkflow`: the first workflow whose codename equals, up to letter case, the codename
   * of the workflow the variant is in; none such is an error.
   */
  function GetWorkflow(v: Json, ws: seq<Json>): (r: Result<nat, ImportError>)
    ensures r.Fail? ==> r.error.TypeError? || r.error.MissingWorkflow?
    ensures r.Ok? ==> r.value < |ws| && WorkflowKey(v).Ok? && SameCodename(Field(ws[r.value], "codename"), WorkflowKey(v).value)
    ensures r.Ok? ==> forall j :: 0 <= j < r.value ==> WorkflowNamed(ws[j], v) == Ok(false)
  {
    var i :- Scan(ws, WorkflowNamed, v);
    if i.Some? then Ok(i.value)
    else
      var key :- WorkflowKey(v);
      Fail(MissingWorkflow(key))
  }

  /** `getWorkflowAndStepOfLanguageVariant` as written: a loop over the workflows around a loop over their steps. */
  method FindWorkflowAndStep(ws: seq<Json>, stepCodename: Option<Json>) returns (r: Result<Option<(nat, nat)>, ImportError>)
    ensures r == GetWorkflowAndStep(ws, stepCodename)
  {
    var i := 0;
    while i < |ws|
      invariant 0 <= i <= |ws|
      invariant forall k :: 0 <= k < i ==> HasMatchingStep(ws[k], stepCodename) == Ok(false)
    {
      FindRound(ws, stepCodename, i);
      var steps := WorkflowSteps(ws[i]);
      if steps.Fail? {
        return Fail(steps.error);
      }
      var j := ScanLoop(steps.value, StepMatches, stepCodename);
      if j.Fail? {
        return Fail(j.error);
      }
      if j.value.Some? {
        return Ok(Some((i, j.value.value)));
      }
      i := i + 1;
    }
    FindNone(ws, stepCodename);
    return Ok(None);
  }

  /** What one round of the workflow loop decides, once no earlier workflow has a matching step. */
  lemma FindRound(ws: seq<Json>, sc: Option<Json>, i: nat)
    requires i < |ws| && forall k :: 0 <= k < i ==> HasMatchingStep(ws[k], sc) == Ok(false)
    ensures WorkflowSteps(ws[i]).Fail? ==> GetWorkflowAndStep(ws, sc) == Fail(WorkflowSteps(ws[i]).error)
    ensures WorkflowSteps(ws[i]).Ok? && Scan(WorkflowSteps(ws[i]).value, StepMatches, sc).Fail? ==>
      GetWorkflowAndStep(ws, sc) == Fail(Scan(WorkflowSteps(ws[i]).value, StepMatches, sc).error)
    ensures (WorkflowSteps(ws[i]).Ok? && Scan(WorkflowSteps(ws[i]).value, StepMatches, sc).Ok?
      && Scan(WorkflowSteps(ws[i]).value, StepMatches, sc).value.Some?) ==>
      GetWorkflowAndStep(ws, sc) == Ok(Some((i, Scan(WorkflowSteps(ws[i]).value, StepMatches, sc).value.value)))
    ensures WorkflowSteps(ws[i]).Ok? && Scan(WorkflowSteps(ws[i]).value, StepMatches, sc) == Ok(None) ==>
      HasMatchingStep(ws[i], sc) == Ok(false)
  {
    var t := HasMatchingStep(ws[i], sc);
    if t.Fail? {
      ScanThrows(ws, HasMatchingStep, sc, 0, i);
    } else if t.value {
      ScanFound(ws, HasMatchingStep, sc, 0, i);
    }
  }

  /** No workflow has a matching step: there is nothing to find. */
  lemma FindNone(ws: seq<Json>, sc: Option<Json>)
    requires forall k :: 0 <= k < |ws| ==> HasMatchingStep(ws[k], sc) == Ok(false)
    ensures GetWorkflowAndStep(ws, sc) == Ok(None)
  {
  }

  // ---------------------------------------------------------------- the calls

  /** `languageVariant.item.codename` and `languageVariant.language.codename`, read before any check. */
  function ItemCodename(v: Json): Result<Option<Json>, ImportError> {
    Read2(v, "item", "codename")
  }

  function LanguageCodename(v: Json): Result<Option<Json>, ImportError> {
    Read2(v, "language", "codename")
  }

  function StepCodename(v: Json): Result<Option<Json>, ImportError> {
    Read2(v, "workflow_step", "codename")
  }

  /**
   * The call `setWorkflowStepsOfLanguageVariantsAsync` makes for one variant: the codenames
   * are read and checked first; a variant in some workflow's published step is published;
   * one in an archived step is moved to the archived step of the workflow it names; any
   * other is moved to the first step, of the first workflow, that has its step codename.
   */
  function StepCall(v: Json, ws: seq<Json>): (r: Result<Call, ImportError>)
    ensures r.Ok? ==> r.value.PublishLanguageVariant? || r.value.ChangeWorkflowOfLanguageVariant?
  {
    var ic :- ItemCodename(v);
    var lc :- LanguageCodename(v);
    var sc :- StepCodename(v);
    if !TruthyOpt(ic) then Fail(MissingItemCodename(Field2(v, "item", "id")))
    else if !TruthyOpt(lc) then Fail(MissingLanguageCodename(ic))
    else if !TruthyOpt(sc) then Fail(MissingWorkflowStepCodename(ic.value))
    else RestoreStep(v, ws, ic.value, lc.value, sc)
  }

  /** The step a checked variant is given: published, archived, or moved to a step by codename. */
  function RestoreStep(v: Json, ws: seq<Json>, ic: Json, lc: Json, sc: Option<Json>): (r: Result<Call, ImportError>)
    ensures r.Ok? ==> IsPublished(ws, sc).Ok? && IsArchived(ws, sc).Ok?
    ensures r.Ok? && IsPublished(ws, sc).value ==> r.value == PublishLanguageVariant(ic, lc)
    ensures r.Ok? && !IsPublished(ws, sc).value ==> (r.value.ChangeWorkflowOfLanguageVariant?
      && r.value.itemCodename == ic && r.value.languageCodename == lc)
    ensures IsPublished(ws, sc) == Ok(false) && IsArchived(ws, sc) == Ok(true) ==> r == ArchiveCall(v, ws, ic, lc)
    ensures IsPublished(ws, sc) == Ok(false) && IsArchived(ws, sc) == Ok(false) ==> r == ChangeStepCall(ws, ic, lc, sc)
    ensures r.Fail? && r.error.InvalidWorkflowData? ==> (IsPublished(ws, sc) == Ok(false) && IsArchived(ws, sc) == Ok(false)
      && ChangeStepCall(ws, ic, lc, sc) == r)
  {
    var published :- IsPublished(ws, sc);
    var archived :- IsArchived(ws, sc);
    if published then Ok(PublishLanguageVariant(ic, lc))
    else if archived then ArchiveCall(v, ws, ic, lc)
    else ChangeStepCall(ws, ic, lc, sc)
  }

  /** The move of an archived variant to the archived step of the workflow it names. */
  function ArchiveCall(v: Json, ws: seq<Json>, ic: Json, lc: Json): (r: Result<Call, ImportError>)
    ensures r.Ok? ==> (GetWorkflow(v, ws).Ok? && r.value == ChangeWorkflowOfLanguageVariant(ic, lc,
      Field2(ws[GetWorkflow(v, ws).value], "archived_step", "codename"), Field(ws[GetWorkflow(v, ws).value], "codename")))
    ensures r.Fail? ==> r.error.TypeError? || r.error.MissingWorkflow?
  {
    var i :- GetWorkflow(v, ws);
    var a :- Read2(ws[i], "archived_step", "codename");
    Ok(ChangeWorkflowOfLanguageVariant(ic, lc, a, Field(ws[i], "codename")))
  }

  /** The move of any other variant to the first step with its step codename. */
  function ChangeStepCall(ws: seq<Json>, ic: Json, lc: Json, sc: Option<Json>): (r: Result<Call, ImportError>)
    ensures r.Ok? ==> (GetWorkflowAndStep(ws, sc).Ok? && GetWorkflowAndStep(ws, sc).value.Some?
      && var (i, j) := GetWorkflowAndStep(ws, sc).value.value;
      r.value == ChangeWorkflowOfLanguageVariant(ic, lc, Field(StepList(ws[i])[j], "codename"), Field(ws[i], "codename")))
    ensures r.Fail? ==> (r.error.TypeError? || (r.error == InvalidWorkflowData(ic) && GetWorkflowAndStep(ws, sc) == Ok(None)))
  {
    var found :- GetWorkflowAndStep(ws, sc);
    if found.None? then Fail(InvalidWorkflowData(ic))
    else
      var (i, j) := found.value;
      Ok(ChangeWorkflowOfLanguageVariant(ic, lc, Field(StepList(ws[i])[j], "codename"), Field(ws[i], "codename")))
  }

  /** The call for one variant, with the loops of the lookups. */
  method SetWorkflowStep(v: Json, ws: seq<Json>) returns (r: Result<Call, ImportError>)
    ensures r == StepCall(v, ws)
  {
    var ic :- ItemCodename(v);
    var lc :- LanguageCodename(v);
    var sc :- StepCodename(v);
    if !TruthyOpt(ic) {
      return Fail(MissingItemCodename(Field2(v, "item", "id")));
    }
    if !TruthyOpt(lc) {
      return Fail(MissingLanguageCodename(ic));
    }
    if !TruthyOpt(sc) {
      return Fail(MissingWorkflowStepCodename(ic.value));
    }
    var published :- ScanLoop(ws, PublishedStepIs, sc);
    var archived :- ScanLoop(ws, ArchivedStepIs, sc);
    if published.Some? {
      return Ok(PublishLanguageVariant(ic.value, lc.value));
    }
    if archived.Some? {
      var found :- ScanLoop(ws, WorkflowNamed, v);
      if found.None? {
        var key :- WorkflowKey(v);
        return Fail(MissingWorkflow(key));
      }
      var a :- Read2(ws[found.value], "archived_step", "codename");
      return Ok(ChangeWorkflowOfLanguageVariant(ic.value, lc.value, a, Field(ws[found.value], "codename")));
    }
    var data :- FindWorkflowAndStep(ws, sc);
    if data.None? {
      return Fail(InvalidWorkflowData(ic.value));
    }
    var (i, j) := data.value;
    return Ok(ChangeWorkflowOfLanguageVariant(ic.value, lc.value, Field(StepList(ws[i])[j], "codename"), Field(ws[i], "codename")));
  }

  /** Some workflow's published step has the codename. */
  predicate PublishedIn(ws: seq<Json>, stepCodename: Option<Json>) {
    exists i :: 0 <= i < |ws| && Field2(ws[i], "published_step", "codename") == stepCodename
  }

  /** Some workflow's archived step has the codename. */
  predicate ArchivedIn(ws: seq<Json>, stepCodename: Option<Json>) {
    exists i :: 0 <= i < |ws| && Field2(ws[i], "archived_step", "codename") == stepCodename
  }

  /** What `StepCall` is, once the three codenames are read and set. */
  lemma StepCallChecked(v: Json, ws: seq<Json>)
    requires StepCall(v, ws).Ok? || (StepCall(v, ws).Fail? && StepCall(v, ws).error.InvalidWorkflowData?)
    ensures ItemCodename(v).Ok? && LanguageCodename(v).Ok? && StepCodename(v).Ok?
    ensures TruthyOpt(Field2(v, "item", "codename")) && TruthyOpt(Field2(v, "language", "codename"))
      && TruthyOpt(Field2(v, "workflow_step", "codename"))
    ensures StepCall(v, ws) == RestoreStep(v, ws, Field2(v, "item", "codename").value,
      Field2(v, "language", "codename").value, Field2(v, "workflow_step", "codename"))
  {
  }

  /** A call is made only for a variant whose item, language and step codenames are all set; it names the variant by them. */
  lemma StepCallCodenames(v: Json, ws: seq<Json>)
    requires StepCall(v, ws).Ok?
    ensures var c := StepCall(v, ws).value;
      && (c.PublishLanguageVariant? || c.ChangeWorkflowOfLanguageVariant?)
      && TruthyOpt(Field2(v, "item", "codename")) && c.itemCodename == Field2(v, "item", "codename").value
      && TruthyOpt(Field2(v, "language", "codename")) && c.languageCodename == Field2(v, "language", "codename").value
      && TruthyOpt(Field2(v, "workflow_step", "codename"))
  {
    StepCallChecked(v, ws);
  }

  /** A variant is published exactly when some workflow's published step has its step codename. */
  lemma StepCallPublishes(v: Json, ws: seq<Json>)
    requires StepCall(v, ws).Ok?
    ensures StepCall(v, ws).value.PublishLanguageVariant? <==> PublishedIn(ws, Field2(v, "workflow_step", "codename"))
  {
    StepCallChecked(v, ws);
  }

  /**
   * A variant in an archived step, and in no published one, is moved to the archived step of
   * the first workflow whose codename is, up to letter case, that of the workflow it names.
   */
  lemma StepCallArchives(v: Json, ws: seq<Json>) returns (i: nat)
    requires StepCall(v, ws).Ok?
    requires ArchivedIn(ws, Field2(v, "workflow_step", "codename"))
    requires !PublishedIn(ws, Field2(v, "workflow_step", "codename"))
    ensures var c := StepCall(v, ws).value;
      && c.ChangeWorkflowOfLanguageVariant?
      && i < |ws| && WorkflowKey(v).Ok? && SameCodename(Field(ws[i], "codename"), WorkflowKey(v).value)
      && (forall j :: 0 <= j < i ==> WorkflowNamed(ws[j], v) == Ok(false))
      && c.stepCodename == Field2(ws[i], "archived_step", "codename")
      && c.workflowCodename == Field(ws[i], "codename")
  {
    StepCallChecked(v, ws);
    i := GetWorkflow(v, ws).value;
  }

  /**
   * Any other variant is moved to the first step, of the first workflow, whose codename
   * equals its step codename up to letter case, and under that workflow's codename.
   */
  lemma StepCallRestores(v: Json, ws: seq<Json>) returns (i: nat, j: nat)
    requires StepCall(v, ws).Ok?
    requires !ArchivedIn(ws, Field2(v, "workflow_step", "codename"))
    requires !PublishedIn(ws, Field2(v, "workflow_step", "codename"))
    ensures var c := StepCall(v, ws).value; var sc := Field2(v, "workflow_step", "codename");
      && c.ChangeWorkflowOfLanguageVariant?
      && i < |ws| && j < |StepList(ws[i])|
      && SameCodename(Field(StepList(ws[i])[j], "codename"), sc)
      && (forall k, m :: 0 <= k < i && 0 <= m < |StepList(ws[k])| ==> !SameCodename(Field(StepList(ws[k])[m], "codename"), sc))
      && c.stepCodename == Field(StepList(ws[i])[j], "codename")
      && c.workflowCodename == Field(ws[i], "codename")
  {
    StepCallChecked(v, ws);
    var sc := Field2(v, "workflow_step", "codename");
    i := GetWorkflowAndStep(ws, sc).value.value.0;
    j := GetWorkflowAndStep(ws, sc).value.value.1;
  }

  /** A variant is refused as invalid only when no workflow has a step, published, archived or other, with its codename. */
  lemma StepCallInvalid(v: Json, ws: seq<Json>)
    requires StepCall(v, ws).Fail? && StepCall(v, ws).error.InvalidWorkflowData?
    ensures var sc := Field2(v, "workflow_step", "codename");
      && !PublishedIn(ws, sc) && !ArchivedIn(ws, sc)
      && (forall i, j :: 0 <= i < |ws| && 0 <= j < |StepList(ws[i])| ==> !SameCodename(Field(StepList(ws[i])[j], "codename"), sc))
      && StepCall(v, ws).error.forItem == Field2(v, "item", "codename").value
  {
    StepCallChecked(v, ws);
  }

  /** The checks come in order: the item codename, then the language codename, then the step codename. */
  lemma StepCallMissingCodenames(v: Json, ws: seq<Json>)
    requires ItemCodename(v).Ok? && LanguageCodename(v).Ok? && StepCodename(v).Ok?
    ensures !TruthyOpt(Field2(v, "item", "codename")) ==>
      StepCall(v, ws) == Fail(MissingItemCodename(Field2(v, "item", "id")))
    ensures TruthyOpt(Field2(v, "item", "codename")) && !TruthyOpt(Field2(v, "language", "codename")) ==>
      StepCall(v, ws) == Fail(MissingLanguageCodename(Field2(v, "item", "codename")))
    ensures (TruthyOpt(Field2(v, "item", "codename")) && TruthyOpt(Field2(v, "language", "codename"))
      && !TruthyOpt(Field2(v, "workflow_step", "codename"))) ==>
      StepCall(v, ws) == Fail(MissingWorkflowStepCodename(Field2(v, "item", "codename").value))
  {
  }

  // ---------------------------------------------------------------- the upsert of a variant

  /** `workflow.steps[0]`: indexing `undefined` or `null` throws; an empty array has no element 0. */
  function FirstStep(w: Json): (r: Result<Option<Json>, ImportError>)
    ensures r.Fail? ==> r.error.TypeError?
    ensures r.Ok? && Field(w, "steps").Some? && Field(w, "steps").value.JArr? ==> r.value == if |StepList(w)| > 0 then Some(StepList(w)[0]) else None
  {
    var steps :- Read(Some(w), "steps");
    if !Readable(steps) then Fail(TypeError("0"))
    else if steps.value.JArr? then Ok(if |steps.value.items| > 0 then Some(steps.value.items[0]) else None)
    else Ok(Field(steps.value, "0"))
  }

  /** `{ codename: c }`. */
  function CodenameRef(c: Option<Json>): (r: Json)
    ensures Field(r, "codename") == c
  {
    JObj(AssetImportRules.Present("codename", c))
  }

  /** What the upsert sends: the variant's elements, and the workflow and step it starts in. */
  function VariantData(t: Json, workflowCodename: Option<Json>, stepCodename: Option<Json>): Json {
    JObj(AssetImportRules.Present("elements", Field(t, "elements"))
      + [("workflow", JObj([("workflow_identifier", CodenameRef(workflowCodename)), ("step_identifier", CodenameRef(stepCodename))]))])
  }

  /**
   * The call `importLanguageVariantsAsync` makes for one variant, and the variant as it is
   * left: the codenames are checked; every id the variant holds is translated with the
   * import results so far; the variant is upserted with its elements, in the first step of
   * the workflow it names.
   */
  function UpsertCall(v: Json, items: seq<ImportItemResult>, ws: seq<Json>): Result<(Call, Json), ImportError> {
    var ic :- ItemCodename(v);
    var lc :- LanguageCodename(v);
    if !TruthyOpt(ic) then Fail(MissingItemCodename(Field2(v, "item", "id")))
    else if !TruthyOpt(lc) then Fail(MissingLanguageCodename(ic))
    else UpsertTranslated(NewIds(v, items), ic.value, lc.value, ws)
  }

  /** `workflow.steps[0].codename`. */
  function FirstStepCodename(w: Json): (r: Result<Option<Json>, ImportError>)
    ensures r.Fail? ==> r.error.TypeError?
    ensures r.Ok? && Field(w, "steps").Some? && Field(w, "steps").value.JArr? ==>
      |StepList(w)| > 0 && r.value == Field(StepList(w)[0], "codename")
    ensures Field(w, "steps") == Some(JArr([])) ==> r == Fail(TypeError("codename"))
  {
    var first :- FirstStep(w);
    Read(first, "codename")
  }

  /** The upsert of the translated variant `t`, in the first step of the workflow it names. */
  function UpsertTranslated(t: Json, ic: Json, lc: Json, ws: seq<Json>): (r: Result<(Call, Json), ImportError>)
    ensures r.Ok? ==> (GetWorkflow(t, ws).Ok? && FirstStepCodename(ws[GetWorkflow(t, ws).value]).Ok?
      && r.value == (UpsertLanguageVariant(ic, lc, VariantData(t, Field(ws[GetWorkflow(t, ws).value], "codename"),
        FirstStepCodename(ws[GetWorkflow(t, ws).value]).value)), t))
  {
    var i :- GetWorkflow(t, ws);
    var sc :- FirstStepCodename(ws[i]);
    Ok((UpsertLanguageVariant(ic, lc, VariantData(t, Field(ws[i], "codename"), sc)), t))
  }

  lemma LookupVariantData(t: Json, wc: Option<Json>, sc: Option<Json>, k: string)
    ensures Field(VariantData(t, wc, sc), k) == if k == "workflow" then
      Some(JObj([("workflow_identifier", CodenameRef(wc)), ("step_identifier", CodenameRef(sc))]))
      else if k == "elements" then Field(t, "elements") else None
  {
    AssetImportRules.LookupAppend(AssetImportRules.Present("elements", Field(t, "elements")),
      [("workflow", JObj([("workflow_identifier", CodenameRef(wc)), ("step_identifier", CodenameRef(sc))]))], k);
  }

  /** The upsert is made only for a variant with both codenames set, and is that of its translation. */
  lemma UpsertCallChecked(v: Json, items: seq<ImportItemResult>, ws: seq<Json>)
    requires UpsertCall(v, items, ws).Ok?
    ensures ItemCodename(v).Ok? && LanguageCodename(v).Ok?
    ensures TruthyOpt(Field2(v, "item", "codename")) && TruthyOpt(Field2(v, "language", "codename"))
    ensures UpsertCall(v, items, ws) == UpsertTranslated(NewIds(v, items), Field2(v, "item", "codename").value,
      Field2(v, "language", "codename").value, ws)
  {
  }

  /**
   * The upsert names the variant by its item and language codenames and sends exactly its
   * elements, with their ids translated, and a workflow.
   */
  lemma UpsertCallPayload(v: Json, items: seq<ImportItemResult>, ws: seq<Json>, k: string)
    requires UpsertCall(v, items, ws).Ok?
    ensures var (c, t) := UpsertCall(v, items, ws).value;
      && t == NewIds(v, items)
      && c.UpsertLanguageVariant?
      && c.itemCodename == Field2(v, "item", "codename").value
      && c.languageCodename == Field2(v, "language", "codename").value
      && (Field(c.variant, k).Some? <==> k == "workflow" || (k == "elements" && Field(v, "elements").Some?))
      && (Field(v, "elements").Some? ==> Field(c.variant, "elements") == Some(NewIds(Field(v, "elements").value, items)))
  {
    UpsertCallChecked(v, items, ws);
    var t := NewIds(v, items);
    var i := GetWorkflow(t, ws).value;
    var sc := FirstStepCodename(ws[i]).value;
    LookupVariantData(t, Field(ws[i], "codename"), sc, k);
    LookupVariantData(t, Field(ws[i], "codename"), sc, "elements");
    if v.JObj? {
      LookupNewIds(v.fields, items, "elements");
    }
  }

  /**
   * The workflow the upsert starts the variant in: the first workflow named like the
   * variant's, up to letter case, and that workflow's first step.
   */
  lemma UpsertCallWorkflow(v: Json, items: seq<ImportItemResult>, ws: seq<Json>) returns (i: nat)
    requires UpsertCall(v, items, ws).Ok?
    ensures var (c, t) := UpsertCall(v, items, ws).value;
      && c.UpsertLanguageVariant?
      && i < |ws| && WorkflowKey(t).Ok? && SameCodename(Field(ws[i], "codename"), WorkflowKey(t).value)
      && (forall j :: 0 <= j < i ==> WorkflowNamed(ws[j], t) == Ok(false))
      && Field(c.variant, "workflow").Some?
      && Field2(Field(c.variant, "workflow").value, "workflow_identifier", "codename") == Field(ws[i], "codename")
      && (Field(ws[i], "steps").Some? && Field(ws[i], "steps").value.JArr? ==> (|StepList(ws[i])| > 0
          && Field2(Field(c.variant, "workflow").value, "step_identifier", "codename") == Field(StepList(ws[i])[0], "codename")))
  {
    UpsertCallChecked(v, items, ws);
    var t := NewIds(v, items);
    i := GetWorkflow(t, ws).value;
    var wc := Field(ws[i], "codename");
    var sc := FirstStepCodename(ws[i]).value;
    var w := JObj([("workflow_identifier", CodenameRef(wc)), ("step_identifier", CodenameRef(sc))]);
    LookupVariantData(t, wc, sc, "workflow");
    assert Field(w, "workflow_identifier") == Some(CodenameRef(wc));
    assert w.fields[1..] == [("step_identifier", CodenameRef(sc))];
    assert "workflow_identifier"[0] != "step_identifier"[0];
    assert Lookup(w.fields[1..], "step_identifier") == Some(CodenameRef(sc));
    assert Field(w, "step_identifier") == Some(CodenameRef(sc));
  }

  /**
   * The upsert checks the item codename, then the language codename; a workflow without
   * steps has no first step to read a codename from.
   */
  lemma UpsertCallErrors(v: Json, items: seq<ImportItemResult>, ws: seq<Json>)
    requires ItemCodename(v).Ok? && LanguageCodename(v).Ok?
    ensures !TruthyOpt(Field2(v, "item", "codename")) ==>
      UpsertCall(v, items, ws) == Fail(MissingItemCodename(Field2(v, "item", "id")))
    ensures TruthyOpt(Field2(v, "item", "codename")) && !TruthyOpt(Field2(v, "language", "codename")) ==>
      UpsertCall(v, items, ws) == Fail(MissingLanguageCodename(Field2(v, "item", "codename")))
    ensures (TruthyOpt(Field2(v, "item", "codename")) && TruthyOpt(Field2(v, "language", "codename"))
      && GetWorkflow(NewIds(v, items), ws).Ok? && Field(ws[GetWorkflow(NewIds(v, items), ws).value], "steps") == Some(JArr([]))) ==>
      UpsertCall(v, items, ws) == Fail(TypeError("codename"))
  {
  }

  // ---------------------------------------------------------------- the move to a custom step

  /**
   * The call `moveLanguageVariantsToCustomWorkflowStepAsync` makes for one variant: it moves
   * the variant, named by its item and language codenames, to the configured step; a
   * variant without either codename is refused.
   */
  function MoveCall(v: Json, workflowStepId: string): (r: Result<Call, ImportError>)
    ensures r.Ok? <==> (ItemCodename(v).Ok? && LanguageCodename(v).Ok?
      && TruthyOpt(Field2(v, "item", "codename")) && TruthyOpt(Field2(v, "language", "codename")))
    ensures r.Ok? ==> r.value == ChangeWorkflowStepOfLanguageVariant(Field2(v, "item", "codename").value,
      Field2(v, "language", "codename").value, workflowStepId)
    ensures r.Fail? ==> r.error.TypeError? || r.error == MissingItemCodename(None) || r.error == MissingLanguageCodename(None)
    ensures r.Fail? && ItemCodename(v).Ok? && LanguageCodename(v).Ok? && !TruthyOpt(Field2(v, "item", "codename")) ==> r.error == MissingItemCodename(None)
  {
    var ic :- ItemCodename(v);
    var lc :- LanguageCodename(v);
    if !TruthyOpt(ic) then Fail(MissingItemCodename(None))
    else if !TruthyOpt(lc) then Fail(MissingLanguageCodename(None))
    else Ok(ChangeWorkflowStepOfLanguageVariant(ic.value, lc.value, workflowStepId))
  }
}
