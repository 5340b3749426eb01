/**
 * How the newer import service prepares a workflow before sending it: role ids cannot be
 * imported, so every role list is emptied; the default workflow already exists in every
 * project, so it is updated instead of created, and the ids of its steps are dropped.
 *
 * The service assigns the properties in place; here each step returns the workflow it
 * leaves behind. A property set to `undefined` is not part of the JSON sent, so it is
 * deleted.
 */
module LibWorkflowRules {
  import opened Wrappers
  import opened Json
  import opened CoreModels
  import opened ImportModels

  /** `defaultWorkflowCodename`. */
  const DefaultWorkflowCodename := "default"

  // ---------------------------------------------------------------- property writes

  /**
   * `o.k = v` in strict mode: an object gets the property; a property of an array is not
   * part of its JSON, so the array reads the same; on `undefined`, `null` or a primitive
   * the assignment throws.
   */
  function SetProp(o: Option<Json>, k: string, v: Json): (r: Result<Json, ImportError>)
    ensures r.Fail? <==> !(o.Some? && IsContainer(o.value))
    ensures r.Fail? ==> r.error == TypeError(k)
    ensures r.Ok? && o.value.JArr? ==> r.value == o.value
    ensures r.Ok? && o.value.JObj? ==> (r.value.JObj? && Lookup(r.value.fields, k) == Some(v)
      && forall k' :: k' != k ==> Lookup(r.value.fields, k') == Lookup(o.value.fields, k'))
  {
    match o
    case Some(JObj(fs)) => LookupSetAll(fs, k, v); Ok(JObj(Set(fs, k, v)))
    case Some(JArr(_)) => Ok(o.value)
    case _ => Fail(TypeError(k))
  }

  /** `o.k = undefined`: as `SetProp`, with the property removed from an object. */
  function UnsetProp(o: Option<Json>, k: string): (r: Result<Json, ImportError>)
    ensures r.Fail? <==> !(o.Some? && IsContainer(o.value))
    ensures r.Fail? ==> r.error == TypeError(k)
    ensures r.Ok? && o.value.JArr? ==> r.value == o.value
    ensures r.Ok? && o.value.JObj? ==> (r.value.JObj? && Lookup(r.value.fields, k) == None
      && forall k' :: k' != k ==> Lookup(r.value.fields, k') == Lookup(o.value.fields, k'))
  {
    match o
    case Some(JObj(fs)) => LookupDelAll(fs, k); Ok(JObj(Del(fs, k)))
    case Some(JArr(_)) => Ok(o.value)
    case _ => Fail(TypeError(k))
  }

  /** Writes back the value an object holds under `k` after it was updated in place. */
  function Put(j: Json, k: string, v: Json): (r: Json)
    ensures j.JObj? ==> (r.JObj? && Lookup(r.fields, k) == Some(v)
      && forall k' :: k' != k ==> Lookup(r.fields, k') == Lookup(j.fields, k'))
    ensures !j.JObj? ==> r == j
  {
    if j.JObj? then LookupSetAll(j.fields, k, v); JObj(Set(j.fields, k, v)) else j
  }

  /** `j.k.… = …`: `f` updates the value under `k` in place, which `j` then holds. */
  function Touch(j: Json, k: string, f: Option<Json> -> Result<Json, ImportError>): (r: Result<Json, ImportError>)
    ensures r.Fail? <==> f(Field(j, k)).Fail?
    ensures r.Ok? && Field(j, k).Some? ==> r.value == Put(j, k, f(Field(j, k)).value)
    ensures r.Ok? && Field(j, k).None? ==> r.value == j
  {
    var n :- f(Field(j, k));
    Ok(if Field(j, k).Some? then Put(j, k, n) else j)
  }

  /** `f` applied to every element, in order; the first failure is what is thrown. */
  function MapAll(xs: seq<Json>, f: Json -> Result<Json, ImportError>): (r: Result<seq<Json>, ImportError>)
    ensures r.Ok? <==> forall i :: 0 <= i < |xs| ==> f(xs[i]).Ok?
    ensures r.Ok? ==> |r.value| == |xs| && forall i :: 0 <= i < |xs| ==> f(xs[i]) == Ok(r.value[i])
    ensures r.Fail? ==> exists i :: (0 <= i < |xs| && f(xs[i]) == Fail(r.error)
      && forall j :: 0 <= j < i ==> f(xs[j]).Ok?)
  {
    if |xs| == 0 then Ok([])
    else
      match f(xs[0])
      case Fail(e) => Fail(e)
      case Ok(y) =>
        var rest := MapAll(xs[1..], f);
        assert forall i :: 0 <= i < |xs| - 1 ==> xs[1..][i] == xs[i + 1];
        match rest
        case Fail(e) =>
          var i :| (0 <= i < |xs| - 1 && f(xs[1..][i]) == Fail(e)
            && forall j :: 0 <= j < i ==> f(xs[1..][j]).Ok?);
          assert forall j :: 0 <= j < i + 1 ==> f(xs[j]).Ok?;
          Fail(e)
        case Ok(ys) => Ok([y] + ys)
  }

  /** `for (const x of o) …`, with `f` updating each element in place: only an array can be iterated. */
  function EachItem(o: Option<Json>, prop: string, f: Json -> Result<Json, ImportError>): (r: Result<Json, ImportError>)
    ensures !(o.Some? && o.value.JArr?) ==> r == Fail(TypeError(prop))
    ensures o.Some? && o.value.JArr? ==> r == (match MapAll(o.value.items, f)
      case Ok(ys) => Ok(JArr(ys))
      case Fail(e) => Fail(e))
  {
    if o.Some? && o.value.JArr? then
      var ys :- MapAll(o.value.items, f);
      Ok(JArr(ys))
    else Fail(TypeError(prop))
  }

  // ---------------------------------------------------------------- the workflow

  function ClearStepRoles(step: Json): Result<Json, ImportError> {
    SetProp(Some(step), "role_ids", JArr([]))
  }

  function ClearRoleIds(o: Option<Json>): Result<Json, ImportError> {
    SetProp(o, "role_ids", JArr([]))
  }

  function ClearNewVersionRoleIds(o: Option<Json>): Result<Json, ImportError> {
    SetProp(o, "create_new_version_role_ids", JArr([]))
  }

  function ClearUnpublishRoleIds(o: Option<Json>): Result<Json, ImportError> {
    SetProp(o, "unpublish_role_ids", JArr([]))
  }

  function ClearId(o: Option<Json>): Result<Json, ImportError> {
    UnsetProp(o, "id")
  }

  /**
   * The role clearing every workflow goes through: the role ids of every step and of the
   * archived step, and both role lists of the published step, become `[]`.
   */
  function ClearRoles(w: Json): Result<Json, ImportError> {
    var steps :- EachItem(Field(w, "steps"), "steps", ClearStepRoles);
    var w1 := Put(w, "steps", steps);
    var w2 :- Touch(w1, "archived_step", ClearRoleIds);
    var w3 :- Touch(w2, "published_step", ClearNewVersionRoleIds);
    Touch(w3, "published_step", ClearUnpublishRoleIds)
  }

  function ClearTransitionId(t: Json): Result<Json, ImportError> {
    Touch(t, "step", ClearId)
  }

  /** A step of the default workflow loses its id, and every transition of it loses the id of its target step. */
  function ClearStepIds(step: Json): Result<Json, ImportError> {
    var s1 :- UnsetProp(Some(step), "id");
    var transitions :- EachItem(Field(s1, "transitions_to"), "transitions_to", ClearTransitionId);
    Ok(Put(s1, "transitions_to", transitions))
  }

  /** The id clearing of the default workflow: its steps, their transitions, and the archived, published and scheduled steps. */
  function ClearIds(w: Json): Result<Json, ImportError> {
    var steps :- EachItem(Field(w, "steps"), "steps", ClearStepIds);
    var w1 := Put(w, "steps", steps);
    var w2 :- Touch(w1, "archived_step", ClearId);
    var w3 :- Touch(w2, "published_step", ClearId);
    Touch(w3, "scheduled_step", ClearId)
  }

  /** `workflow.codename.toLowerCase() === defaultWorkflowCodename.toLowerCase()`. */
  function IsDefaultWorkflow(w: Json): (r: Result<bool, ImportError>)
    ensures r.Fail? <==> StrField(w, "codename").None?
    ensures r.Ok? ==> (r.value <==> Lower(StrField(w, "codename").value) == Lower(DefaultWorkflowCodename))
  {
    match StrField(w, "codename")
    case Some(c) => Ok(Lower(c) == Lower(DefaultWorkflowCodename))
    case None => Fail(TypeError("toLowerCase"))
  }

  /**
   * The call `importWorkflowsAsync` makes for a workflow: it clears the roles, then updates
   * the default workflow by codename, its ids cleared, or adds any other workflow.
   */
  function WorkflowCall(w: Json): (r: Result<Call, ImportError>)
    ensures r.Ok? ==> r.value.UpdateWorkflow? || r.value.AddWorkflow?
  {
    var cleared :- ClearRoles(w);
    var isDefault :- IsDefaultWorkflow(cleared);
    if isDefault then
      var p :- ClearIds(cleared);
      Ok(UpdateWorkflow(StrField(cleared, "codename").value, p))
    else Ok(AddWorkflow(cleared))
  }

  // ---------------------------------------------------------------- what the preparation guarantees

  /** A workflow whose every role list that the API would reject is empty. */
  predicate RolesCleared(p: Json) {
    && (forall s :: s in StepsOf(p) && s.JObj? ==> Field(s, "role_ids") == Some(JArr([])))
    && (IsObject(Field(p, "archived_step")) ==> Field2(p, "archived_step", "role_ids") == Some(JArr([])))
    && (IsObject(Field(p, "published_step")) ==>
          Field2(p, "published_step", "create_new_version_role_ids") == Some(JArr([]))
          && Field2(p, "published_step", "unpublish_role_ids") == Some(JArr([])))
  }

  predicate IsObject(o: Option<Json>) {
    o.Some? && o.value.JObj?
  }

  function StepsOf(p: Json): seq<Json> {
    match Field(p, "steps")
    case Some(JArr(xs)) => xs
    case _ => []
  }

  /** A workflow without the ids the default workflow must not send. */
  predicate IdsCleared(p: Json) {
    && (forall s :: s in StepsOf(p) && s.JObj? ==> (Field(s, "id").None?
          && forall t :: t in TransitionsOf(s) && IsObject(Field(t, "step")) ==> Field2(t, "step", "id").None?))
    && (IsObject(Field(p, "archived_step")) ==> Field2(p, "archived_step", "id").None?)
    && (IsObject(Field(p, "published_step")) ==> Field2(p, "published_step", "id").None?)
    && (IsObject(Field(p, "scheduled_step")) ==> Field2(p, "scheduled_step", "id").None?)
  }

  function TransitionsOf(s: Json): seq<Json> {
    match Field(s, "transitions_to")
    case Some(JArr(xs)) => xs
    case _ => []
  }

  /** `Put` leaves the other properties as they were. */
  lemma FieldPut(j: Json, k: string, v: Json, k': string)
    requires j.JObj?
    ensures Field(Put(j, k, v), k') == if k' == k then Some(v) else Field(j, k')
  {
  }

  /** Every step that role clearing leaves as an object has empty role ids, and the step list keeps its length. */
  lemma ClearedStepRoles(o: Option<Json>)
    requires EachItem(o, "steps", ClearStepRoles).Ok?
    ensures var ys := EachItem(o, "steps", ClearStepRoles).value;
      && ys.JArr? && |ys.items| == |o.value.items|
      && forall i :: 0 <= i < |ys.items| && ys.items[i].JObj? ==> Field(ys.items[i], "role_ids") == Some(JArr([]))
  {
    var ys := EachItem(o, "steps", ClearStepRoles).value;
    forall i | 0 <= i < |ys.items| && ys.items[i].JObj?
      ensures Field(ys.items[i], "role_ids") == Some(JArr([]))
    {
      assert ClearStepRoles(o.value.items[i]) == Ok(ys.items[i]);
    }
  }

  /** What `Touch` leaves on an object: the updated value under `k`, every other property as it was. */
  lemma TouchField(j: Json, k: string, f: Option<Json> -> Result<Json, ImportError>, k': string)
    requires j.JObj? && Touch(j, k, f).Ok?
    ensures Touch(j, k, f).value.JObj?
    ensures Field(Touch(j, k, f).value, k')
         == if k' == k && Field(j, k).Some? then Some(f(Field(j, k)).value) else Field(j, k')
  {
  }

  /** The workflow role clearing leaves, property by property. */
  lemma ClearRolesField(w: Json, k: string)
    requires ClearRoles(w).Ok?
    ensures w.JObj? && ClearRoles(w).value.JObj?
    ensures k == "steps" ==> Field(ClearRoles(w).value, k) == Some(EachItem(Field(w, "steps"), "steps", ClearStepRoles).value)
    ensures k == "archived_step" ==> (Field(ClearRoles(w).value, k) ==
      if Field(w, k).Some? then Some(ClearRoleIds(Field(w, k)).value) else None)
    ensures k == "published_step" ==> (Field(ClearRoles(w).value, k) ==
      if Field(w, k).Some? then Some(ClearUnpublishRoleIds(Some(ClearNewVersionRoleIds(Field(w, k)).value)).value) else None)
    ensures k !in {"steps", "archived_step", "published_step"} ==> Field(ClearRoles(w).value, k) == Field(w, k)
  {
    var steps := EachItem(Field(w, "steps"), "steps", ClearStepRoles).value;
    var w1 := Put(w, "steps", steps);
    var w2 := Touch(w1, "archived_step", ClearRoleIds).value;
    var w3 := Touch(w2, "published_step", ClearNewVersionRoleIds).value;
    assert ClearRoles(w) == Touch(w3, "published_step", ClearUnpublishRoleIds);
    FieldPut(w, "steps", steps, k);
    TouchField(w1, "archived_step", ClearRoleIds, k);
    TouchField(w2, "published_step", ClearNewVersionRoleIds, k);
    TouchField(w3, "published_step", ClearUnpublishRoleIds, k);
  }

  /** Role clearing empties every role list it names: `RolesCleared` holds of what it leaves. */
  lemma ClearRolesClears(w: Json)
    requires ClearRoles(w).Ok?
    ensures RolesCleared(ClearRoles(w).value)
    ensures Field(ClearRoles(w).value, "steps").Some? && Field(ClearRoles(w).value, "steps").value.JArr?
    ensures |StepsOf(ClearRoles(w).value)| == |StepsOf(w)|
    ensures forall k :: k !in {"steps", "archived_step", "published_step"} ==> Field(ClearRoles(w).value, k) == Field(w, k)
  {
    ClearRolesSteps(w);
    ClearRolesTop(w);
    ClearRolesKeeps(w);
  }

  /** The steps role clearing leaves: as many as before, and each object among them without role ids. */
  lemma ClearRolesSteps(w: Json)
    requires ClearRoles(w).Ok?
    ensures var c := ClearRoles(w).value;
      && Field(c, "steps").Some? && Field(c, "steps").value.JArr? && |StepsOf(c)| == |StepsOf(w)|
      && forall s :: s in StepsOf(c) && s.JObj? ==> Field(s, "role_ids") == Some(JArr([]))
  {
    var c := ClearRoles(w).value;
    ClearedStepRoles(Field(w, "steps"));
    ClearRolesField(w, "steps");
    forall s | s in StepsOf(c) && s.JObj? ensures Field(s, "role_ids") == Some(JArr([])) {
      var i :| 0 <= i < |StepsOf(c)| && StepsOf(c)[i] == s;
    }
  }

  /** The archived and published steps role clearing leaves. */
  lemma ClearRolesTop(w: Json)
    requires ClearRoles(w).Ok?
    ensures var c := ClearRoles(w).value;
      && (IsObject(Field(c, "archived_step")) ==> Field2(c, "archived_step", "role_ids") == Some(JArr([])))
      && (IsObject(Field(c, "published_step")) ==>
            Field2(c, "published_step", "create_new_version_role_ids") == Some(JArr([]))
            && Field2(c, "published_step", "unpublish_role_ids") == Some(JArr([])))
  {
    ClearRolesField(w, "archived_step");
    ClearRolesField(w, "published_step");
  }

  lemma ClearRolesKeeps(w: Json)
    requires ClearRoles(w).Ok?
    ensures forall k :: k !in {"steps", "archived_step", "published_step"} ==> Field(ClearRoles(w).value, k) == Field(w, k)
  {
    forall k | k !in {"steps", "archived_step", "published_step"} ensures Field(ClearRoles(w).value, k) == Field(w, k) {
      ClearRolesField(w, k);
    }
  }

  /** A transition whose target step loses its id. */
  lemma ClearedTransition(t: Json)
    requires ClearTransitionId(t).Ok?
    ensures IsObject(Field(ClearTransitionId(t).value, "step")) ==> Field2(ClearTransitionId(t).value, "step", "id").None?
  {
    TouchField(t, "step", ClearId, "step");
  }

  /** A step of the default workflow after the id clearing: an object without an id, whose transitions name no step id. */
  lemma ClearedStepIds(st: Json)
    requires ClearStepIds(st).Ok?
    ensures var r := ClearStepIds(st).value;
      && st.JObj? && r.JObj? && Field(r, "id").None?
      && (forall k :: k != "id" && k != "transitions_to" ==> Field(r, k) == Field(st, k))
      && (forall t :: t in TransitionsOf(r) && IsObject(Field(t, "step")) ==> Field2(t, "step", "id").None?)
  {
    var s1 := UnsetProp(Some(st), "id").value;
    var ts := EachItem(Field(s1, "transitions_to"), "transitions_to", ClearTransitionId).value;
    assert ClearStepIds(st) == Ok(Put(s1, "transitions_to", ts));
    var r := Put(s1, "transitions_to", ts);
    forall t | t in TransitionsOf(r) && IsObject(Field(t, "step")) ensures Field2(t, "step", "id").None? {
      var i :| 0 <= i < |ts.items| && ts.items[i] == t;
      var xs := Field(s1, "transitions_to").value.items;
      assert ClearTransitionId(xs[i]) == Ok(t);
      ClearedTransition(xs[i]);
    }
  }

  /** The workflow the id clearing leaves, property by property. */
  lemma ClearIdsField(w: Json, k: string)
    requires ClearIds(w).Ok?
    ensures w.JObj? && ClearIds(w).value.JObj?
    ensures k == "steps" ==> Field(ClearIds(w).value, k) == Some(EachItem(Field(w, "steps"), "steps", ClearStepIds).value)
    ensures k in {"archived_step", "published_step", "scheduled_step"} ==> (Field(ClearIds(w).value, k) ==
      if Field(w, k).Some? then Some(ClearId(Field(w, k)).value) else None)
    ensures k !in {"steps", "archived_step", "published_step", "scheduled_step"} ==> Field(ClearIds(w).value, k) == Field(w, k)
  {
    var steps := EachItem(Field(w, "steps"), "steps", ClearStepIds).value;
    var w1 := Put(w, "steps", steps);
    var w2 := Touch(w1, "archived_step", ClearId).value;
    var w3 := Touch(w2, "published_step", ClearId).value;
    assert ClearIds(w) == Touch(w3, "scheduled_step", ClearId);
    FieldPut(w, "steps", steps, k);
    TouchField(w1, "archived_step", ClearId, k);
    TouchField(w2, "published_step", ClearId, k);
    TouchField(w3, "scheduled_step", ClearId, k);
  }

  /** The steps the id clearing leaves: objects without ids, with the role ids they had. */
  lemma ClearIdsSteps(w: Json)
    requires ClearIds(w).Ok?
    ensures |StepsOf(ClearIds(w).value)| == |StepsOf(w)|
    ensures forall i :: 0 <= i < |StepsOf(w)| ==> ClearStepIds(StepsOf(w)[i]) == Ok(StepsOf(ClearIds(w).value)[i])
  {
    ClearIdsField(w, "steps");
  }

  lemma ClearIdsStep(w: Json, s: Json)
    requires ClearIds(w).Ok? && s in StepsOf(ClearIds(w).value)
    ensures s.JObj? && Field(s, "id").None?
    ensures forall t :: t in TransitionsOf(s) && IsObject(Field(t, "step")) ==> Field2(t, "step", "id").None?
    ensures RolesCleared(w) ==> Field(s, "role_ids") == Some(JArr([]))
  {
    ClearIdsSteps(w);
    var i :| 0 <= i < |StepsOf(ClearIds(w).value)| && StepsOf(ClearIds(w).value)[i] == s;
    ClearedStepIds(StepsOf(w)[i]);
    assert StepsOf(w)[i] in StepsOf(w);
  }

  /** The id clearing touches the steps and the archived, published and scheduled steps only. */
  lemma ClearIdsKeeps(w: Json)
    requires ClearIds(w).Ok?
    ensures |StepsOf(ClearIds(w).value)| == |StepsOf(w)|
    ensures forall k :: k !in {"steps", "archived_step", "published_step", "scheduled_step"} ==> Field(ClearIds(w).value, k) == Field(w, k)
  {
    ClearIdsSteps(w);
    forall k | k !in {"steps", "archived_step", "published_step", "scheduled_step"} ensures Field(ClearIds(w).value, k) == Field(w, k) {
      ClearIdsField(w, k);
    }
  }

  lemma ClearIdsStepsCleared(w: Json)
    requires ClearIds(w).Ok?
    ensures forall s :: s in StepsOf(ClearIds(w).value) ==> (s.JObj? && Field(s, "id").None?
      && (forall t :: t in TransitionsOf(s) && IsObject(Field(t, "step")) ==> Field2(t, "step", "id").None?)
      && (RolesCleared(w) ==> Field(s, "role_ids") == Some(JArr([]))))
  {
    forall s | s in StepsOf(ClearIds(w).value) ensures s.JObj? && Field(s, "id").None?
      && (forall t :: t in TransitionsOf(s) && IsObject(Field(t, "step")) ==> Field2(t, "step", "id").None?)
      && (RolesCleared(w) ==> Field(s, "role_ids") == Some(JArr([])))
    {
      ClearIdsStep(w, s);
    }
  }

  /** An archived, published or scheduled step after the id clearing: without an id, all else kept. */
  lemma ClearIdsTop(w: Json, k: string)
    requires ClearIds(w).Ok? && k in {"archived_step", "published_step", "scheduled_step"}
    ensures IsObject(Field(ClearIds(w).value, k)) ==> Field2(ClearIds(w).value, k, "id").None?
    ensures IsObject(Field(ClearIds(w).value, k)) ==> IsObject(Field(w, k))
    ensures forall k' :: k' != "id" ==> Field2(ClearIds(w).value, k, k') == Field2(w, k, k')
  {
    ClearIdsField(w, k);
  }

  /** The id clearing removes every id the default workflow must not send, and keeps the roles cleared. */
  lemma ClearIdsClears(w: Json)
    requires ClearIds(w).Ok?
    ensures IdsCleared(ClearIds(w).value)
    ensures RolesCleared(w) ==> RolesCleared(ClearIds(w).value)
    ensures |StepsOf(ClearIds(w).value)| == |StepsOf(w)|
    ensures forall k :: k !in {"steps", "archived_step", "published_step", "scheduled_step"} ==> Field(ClearIds(w).value, k) == Field(w, k)
  {
    ClearIdsKeeps(w);
    ClearIdsStepsCleared(w);
    ClearIdsTop(w, "archived_step");
    ClearIdsTop(w, "published_step");
    ClearIdsTop(w, "scheduled_step");
  }

  /** Everything the preparation of a workflow throws is one of JavaScript's type errors. */
  lemma WorkflowCallErrors(w: Json)
    requires WorkflowCall(w).Fail?
    ensures WorkflowCall(w).error.TypeError?
  {
    if ClearRoles(w).Fail? {
      ClearRolesErrors(w);
    } else if IsDefaultWorkflow(ClearRoles(w).value).Ok? {
      ClearIdsErrors(ClearRoles(w).value);
    }
  }

  lemma MapAllErrors(xs: seq<Json>, f: Json -> Result<Json, ImportError>)
    requires MapAll(xs, f).Fail?
    requires forall i :: 0 <= i < |xs| && f(xs[i]).Fail? ==> f(xs[i]).error.TypeError?
    ensures MapAll(xs, f).error.TypeError?
  {
  }

  lemma ClearRolesErrors(w: Json)
    requires ClearRoles(w).Fail?
    ensures ClearRoles(w).error.TypeError?
  {
    if Field(w, "steps").Some? && Field(w, "steps").value.JArr? {
      var xs := Field(w, "steps").value.items;
      forall i | 0 <= i < |xs| && ClearStepRoles(xs[i]).Fail? ensures ClearStepRoles(xs[i]).error.TypeError? { }
      if MapAll(xs, ClearStepRoles).Fail? {
        MapAllErrors(xs, ClearStepRoles);
      }
    }
  }

  lemma ClearStepIdsErrors(st: Json)
    requires ClearStepIds(st).Fail?
    ensures ClearStepIds(st).error.TypeError?
  {
    var s1 := UnsetProp(Some(st), "id");
    if s1.Ok? && Field(s1.value, "transitions_to").Some? && Field(s1.value, "transitions_to").value.JArr? {
      var xs := Field(s1.value, "transitions_to").value.items;
      forall i | 0 <= i < |xs| && ClearTransitionId(xs[i]).Fail? ensures ClearTransitionId(xs[i]).error.TypeError? { }
      if MapAll(xs, ClearTransitionId).Fail? {
        MapAllErrors(xs, ClearTransitionId);
      }
    }
  }

  lemma ClearIdsErrors(w: Json)
    requires ClearIds(w).Fail?
    ensures ClearIds(w).error.TypeError?
  {
    if Field(w, "steps").Some? && Field(w, "steps").value.JArr? {
      var xs := Field(w, "steps").value.items;
      forall i | 0 <= i < |xs| && ClearStepIds(xs[i]).Fail? ensures ClearStepIds(xs[i]).error.TypeError? {
        ClearStepIdsErrors(xs[i]);
      }
      if MapAll(xs, ClearStepIds).Fail? {
        MapAllErrors(xs, ClearStepIds);
      }
    }
  }

  /**
   * The call `importWorkflowsAsync` makes: every workflow is sent with its role lists empty;
   * the one whose codename is `default` in any letter case is updated under its own codename,
   * with its ids cleared; any other is added, with its steps and other properties as exported.
   */
  lemma WorkflowCallProperties(w: Json)
    requires WorkflowCall(w).Ok?
    ensures var c := WorkflowCall(w).value;
      && (c.UpdateWorkflow? || c.AddWorkflow?)
      && RolesCleared(c.workflow)
      && StrField(w, "codename").Some?
      && (c.UpdateWorkflow? <==> Lower(StrField(w, "codename").value) == Lower(DefaultWorkflowCodename))
      && (c.UpdateWorkflow? ==> c.byCodename == StrField(w, "codename").value && IdsCleared(c.workflow))
      && |StepsOf(c.workflow)| == |StepsOf(w)|
      && (forall k :: k !in {"steps", "archived_step", "published_step", "scheduled_step"} ==> Field(c.workflow, k) == Field(w, k))
      && (c.AddWorkflow? ==> Field(c.workflow, "scheduled_step") == Field(w, "scheduled_step"))
  {
    var cleared := ClearRoles(w).value;
    ClearRolesClears(w);
    if IsDefaultWorkflow(cleared).value {
      ClearIdsClears(cleared);
    }
  }

  // ---------------------------------------------------------------- the loops over steps and transitions

  /** The first element `f` fails on decides what `MapAll` throws. */
  lemma MapAllFirstFailure(xs: seq<Json>, f: Json -> Result<Json, ImportError>, i: nat)
    requires i < |xs| && f(xs[i]).Fail?
    requires forall j :: 0 <= j < i ==> f(xs[j]).Ok?
    ensures MapAll(xs, f) == Fail(f(xs[i]).error)
  {
    var r := MapAll(xs, f);
    var k :| (0 <= k < |xs| && f(xs[k]) == Fail(r.error) && forall j :: 0 <= j < k ==> f(xs[j]).Ok?);
    assert k == i;
  }

  /**
   * `for (const x of xs) …`: `f` is applied to each element in turn, and the loop stops at
   * the first element it throws on.
   */
  method UpdateEach(xs: seq<Json>, f: Json -> Result<Json, ImportError>) returns (r: Result<seq<Json>, ImportError>)
    ensures r == MapAll(xs, f)
  {
    var ys := [];
    var i := 0;
    while i < |xs|
      invariant 0 <= i <= |xs| && |ys| == i
      invariant forall j :: 0 <= j < i ==> f(xs[j]) == Ok(ys[j])
    {
      var y := f(xs[i]);
      if y.Fail? {
        MapAllFirstFailure(xs, f, i);
        return Fail(y.error);
      }
      ys := ys + [y.value];
      i := i + 1;
    }
    assert MapAll(xs, f).value == ys;
    return Ok(ys);
  }

  /** The loop over an array property: anything but an array cannot be iterated. */
  method UpdateEachItem(o: Option<Json>, prop: string, f: Json -> Result<Json, ImportError>) returns (r: Result<Json, ImportError>)
    ensures r == EachItem(o, prop, f)
  {
    if !(o.Some? && o.value.JArr?) {
      return Fail(TypeError(prop));
    }
    var ys :- UpdateEach(o.value.items, f);
    return Ok(JArr(ys));
  }

  /** The role clearing of `importWorkflowsAsync`, with its loop over the steps. */
  method ClearWorkflowRoles(w: Json) returns (r: Result<Json, ImportError>)
    ensures r == ClearRoles(w)
    ensures r.Ok? ==> RolesCleared(r.value)
  {
    var steps :- UpdateEachItem(Field(w, "steps"), "steps", ClearStepRoles);
    var w1 := Put(w, "steps", steps);
    var w2 :- Touch(w1, "archived_step", ClearRoleIds);
    var w3 :- Touch(w2, "published_step", ClearNewVersionRoleIds);
    r := Touch(w3, "published_step", ClearUnpublishRoleIds);
    if r.Ok? {
      ClearRolesClears(w);
    }
  }

  /** The id clearing of one step, with its loop over the transitions. */
  method ClearWorkflowStepIds(step: Json) returns (r: Result<Json, ImportError>)
    ensures r == ClearStepIds(step)
  {
    var s1 :- UnsetProp(Some(step), "id");
    var transitions :- UpdateEachItem(Field(s1, "transitions_to"), "transitions_to", ClearTransitionId);
    return Ok(Put(s1, "transitions_to", transitions));
  }

  /** The id clearing of the default workflow, with its loop over the steps. */
  method ClearWorkflowIds(w: Json) returns (r: Result<Json, ImportError>)
    ensures r == ClearIds(w)
    ensures r.Ok? ==> IdsCleared(r.value)
  {
    var xs := Field(w, "steps");
    if !(xs.Some? && xs.value.JArr?) {
      return Fail(TypeError("steps"));
    }
    var ys := [];
    var i := 0;
    while i < |xs.value.items|
      invariant 0 <= i <= |xs.value.items| && |ys| == i
      invariant forall j :: 0 <= j < i ==> ClearStepIds(xs.value.items[j]) == Ok(ys[j])
    {
      var y := ClearWorkflowStepIds(xs.value.items[i]);
      if y.Fail? {
        MapAllFirstFailure(xs.value.items, ClearStepIds, i);
        return Fail(y.error);
      }
      ys := ys + [y.value];
      i := i + 1;
    }
    assert MapAll(xs.value.items, ClearStepIds).value == ys;
    var w1 := Put(w, "steps", JArr(ys));
    var w2 :- Touch(w1, "archived_step", ClearId);
    var w3 :- Touch(w2, "published_step", ClearId);
    r := Touch(w3, "scheduled_step", ClearId);
    if r.Ok? {
      ClearIdsClears(w);
    }
  }

  /** The call `importWorkflowsAsync` makes for one workflow, with the loops of its preparation. */
  method PrepareWorkflow(w: Json) returns (r: Result<Call, ImportError>)
    ensures r == WorkflowCall(w)
  {
    var cleared :- ClearWorkflowRoles(w);
    var isDefault :- IsDefaultWorkflow(cleared);
    if isDefault {
      var p :- ClearWorkflowIds(cleared);
      return Ok(UpdateWorkflow(StrField(cleared, "codename").value, p));
    }
    return Ok(AddWorkflow(cleared));
  }
}
