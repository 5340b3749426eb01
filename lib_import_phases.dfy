/**
 * The per-kind import loops of the newer import service, as what they send and what they
 * record. A loop goes through its list in order; for each element it works out the call,
 * sends it, and on an answer records the import result. The first thing that throws ends
 * the loop: a preparation that fails, or a call the target project refuses (`handleError`
 * never returns normally). Under each loop is a function of the project's answers that
 * says exactly what the loop does; the methods are proved equal to it.
 */
module LibImportPhases {
  import opened Wrappers
  import opened Json
  import opened CoreModels
  import opened ImportModels
  import opened GlobalHelper
  import opened LibWorkflowRules
  import opened LibVariantRules
  import opened IdTranslateHelper
  import AssetImportRules

  /** How the target project answers: the answer to a call, given the calls made before it. */
  type Respond = (seq<Call>, Call) -> Result<Response, ApiError>

  /**
   * What a stretch of the import did: the calls it sent, the import results it recorded,
   * the binary files it reported as unsupported, and what it threw, if it threw.
   */
  datatype Outcome = Outcome(calls: seq<Call>, results: seq<ImportItemResult>,
    reported: seq<ZipService.BinaryFile>, error: Option<ImportError>)

  /** Nothing done yet. */
  function Done(): Outcome {
    Outcome([], [], [], None)
  }

  /** A stretch that throws `e` before sending anything. */
  function Stop(e: ImportError): Outcome {
    Outcome([], [], [], Some(e))
  }

  /** `a` and then `b`, where `b` ran after `a` finished normally. */
  function Then(a: Outcome, b: Outcome): Outcome {
    Outcome(a.calls + b.calls, a.results + b.results, a.reported + b.reported, b.error)
  }

  /** `a`, and then `b` if `a` did not throw. */
  function Next(a: Outcome, b: Outcome): Outcome {
    if a.error.Some? then a else Then(a, b)
  }

  /** A call the code sends through `handleImportError`: the refusal is rethrown by `handleError`. */
  function Handled(e: ApiError): ImportError {
    ApiFailure(HandleError(e).error)
  }

  /** A call sent without a `catch`: the refusal propagates as it is. */
  function Unhandled(e: ApiError): ImportError {
    ApiFailure(Raised(e))
  }

  // ---------------------------------------------------------------- phase order

  /** The place of a call in the import order of `importAsync`. */
  function Rank(c: Call): nat {
    match c
    case AddAssetFolders(_) => 0
    case ListLanguages => 1
    case ModifyLanguage(_, _) => 1
    case AddLanguage(_) => 1
    case AddTaxonomy(_) => 2
    case AddContentTypeSnippet(_) => 3
    case AddContentType(_) => 4
    case UpdateWorkflow(_, _) => 5
    case AddWorkflow(_) => 5
    case UploadBinaryFile(_, _, _) => 6
    case AddAsset(_) => 6
    case AddContentItem(_) => 7
    case UpsertLanguageVariant(_, _, _) => 8
    case PublishLanguageVariant(_, _) => 9
    case ChangeWorkflowOfLanguageVariant(_, _, _, _) => 9
    case ChangeWorkflowStepOfLanguageVariant(_, _, _) => 10
  }

  predicate AtRank(calls: seq<Call>, k: nat) {
    forall i :: 0 <= i < |calls| ==> Rank(calls[i]) == k
  }

  predicate AtMost(calls: seq<Call>, k: nat) {
    forall i :: 0 <= i < |calls| ==> Rank(calls[i]) <= k
  }

  /** The calls go in import order. */
  predicate Ordered(calls: seq<Call>) {
    forall i, j :: 0 <= i <= j < |calls| ==> Rank(calls[i]) <= Rank(calls[j])
  }

  lemma OrderedThen(a: seq<Call>, b: seq<Call>, k: nat)
    requires Ordered(a) && AtMost(a, k) && AtRank(b, k)
    ensures Ordered(a + b) && AtMost(a + b, k)
  {
    assert forall i :: 0 <= i < |a + b| ==> (a + b)[i] == if i < |a| then a[i] else b[i - |a|];
  }

  // ---------------------------------------------------------------- a failed call ends the run

  /**
   * Every call the project refused is the last call made, and the run threw: no call is
   * sent after a refusal.
   */
  predicate FailureEnds(respond: Respond, log: seq<Call>, o: Outcome) {
    forall i :: 0 <= i < |o.calls| && respond(log + o.calls[..i], o.calls[i]).Fail? ==>
      i == |o.calls| - 1 && o.error.Some?
  }

  lemma FailureEndsThen(respond: Respond, log: seq<Call>, a: Outcome, b: Outcome)
    requires a.error.None? && FailureEnds(respond, log, a) && FailureEnds(respond, log + a.calls, b)
    ensures FailureEnds(respond, log, Then(a, b))
  {
    var c := a.calls + b.calls;
    forall i | 0 <= i < |a.calls|
      ensures respond(log + c[..i], c[i]).Ok?
    {
      assert c[..i] == a.calls[..i] && c[i] == a.calls[i];
    }
    forall i | |a.calls| <= i < |c| && respond(log + c[..i], c[i]).Fail?
      ensures i == |c| - 1 && b.error.Some?
    {
      var k := i - |a.calls|;
      assert c[..i] == a.calls + b.calls[..k] && c[i] == b.calls[k];
      assert log + c[..i] == (log + a.calls) + b.calls[..k];
    }
  }

  lemma FailureEndsNext(respond: Respond, log: seq<Call>, a: Outcome, b: Outcome)
    requires FailureEnds(respond, log, a) && (a.error.None? ==> FailureEnds(respond, log + a.calls, b))
    ensures FailureEnds(respond, log, Next(a, b))
  {
    if a.error.None? {
      FailureEndsThen(respond, log, a, b);
    }
  }

  /** A run that did not throw had every call answered. */
  lemma FailureEndsNone(respond: Respond, log: seq<Call>, o: Outcome, i: nat)
    requires FailureEnds(respond, log, o) && o.error.None? && i < |o.calls|
    ensures respond(log + o.calls[..i], o.calls[i]).Ok?
  {
  }

  // ---------------------------------------------------------------- the one-call-per-element loops

  /** The loops that send one call per element. */
  datatype Phase =
    | Taxonomies
    | Snippets
    | Types
    | Workflows
    | Items
    | Variants(currentItems: seq<ImportItemResult>, workflows: seq<Json>)
    | Steps(workflows: seq<Json>)
    | Moves(workflowStepId: string)

  function PhaseRank(p: Phase): nat {
    match p
    case Taxonomies => 2
    case Snippets => 3
    case Types => 4
    case Workflows => 5
    case Items => 7
    case Variants(_, _) => 8
    case Steps(_) => 9
    case Moves(_) => 10
  }

  /** `obj[k]` on a concatenation, for every key at once. */
  lemma LookupAppendAll(a: Fields, b: Fields)
    ensures forall k :: Lookup(a + b, k) == if Lookup(a, k).Some? then Lookup(a, k) else Lookup(b, k)
  {
    forall k ensures Lookup(a + b, k) == if Lookup(a, k).Some? then Lookup(a, k) else Lookup(b, k) {
      AssetImportRules.LookupAppend(a, b, k);
    }
  }

  /** The properties `keys` of `x`, as an object literal whose `undefined` values are not sent. */
  function Copy(x: Json, keys: seq<string>): (r: Fields)
    ensures forall k :: k in keys ==> Lookup(r, k) == Field(x, k)
    ensures forall k :: k !in keys ==> Lookup(r, k) == None
  {
    if |keys| == 0 then []
    else
      LookupAppendAll(AssetImportRules.Present(keys[0], Field(x, keys[0])), Copy(x, keys[1..]));
      AssetImportRules.Present(keys[0], Field(x, keys[0])) + Copy(x, keys[1..])
  }

  /** What `importContentTypeSnippetsAsync` sends for a snippet; reading a property of `null` throws. */
  function SnippetCall(x: Json): (r: Result<Call, ImportError>)
    ensures r.Fail? <==> x.JNull?
    ensures r.Fail? ==> r.error == TypeError("elements")
    ensures r.Ok? ==> (r.value.AddContentTypeSnippet? && r.value.snippet.JObj?
      && forall k :: Field(r.value.snippet, k) == if k in ["elements", "name", "codename", "external_id"] then Field(x, k) else None)
  {
    if x.JNull? then Fail(TypeError("elements"))
    else Ok(AddContentTypeSnippet(JObj(Copy(x, ["elements", "name", "codename", "external_id"]))))
  }

  /** What `importContentTypesAsync` sends for a content type. */
  function TypeCall(x: Json): (r: Result<Call, ImportError>)
    ensures r.Fail? <==> x.JNull?
    ensures r.Fail? ==> r.error == TypeError("elements")
    ensures r.Ok? ==> (r.value.AddContentType? && r.value.contentType.JObj?
      && forall k :: (Field(r.value.contentType, k)
        == if k in ["elements", "name", "codename", "content_groups", "external_id"] then Field(x, k) else None))
  {
    if x.JNull? then Fail(TypeError("elements"))
    else Ok(AddContentType(JObj(Copy(x, ["elements", "name", "codename", "content_groups", "external_id"]))))
  }

  /**
   * What `importContentItemAsync` sends for an item: its name, codename and external id, and
   * its type by codename; an item whose type codename is not set is refused.
   */
  function ItemCall(x: Json): (r: Result<Call, ImportError>)
    ensures r.Fail? <==> (x.JNull? || !Readable(Field(x, "type")) || !TruthyOpt(Field2(x, "type", "codename")))
    ensures r.Fail? && !x.JNull? && Readable(Field(x, "type")) ==> r.error == UnsetTypeCodename(Field(x, "codename"))
    ensures r.Ok? ==> (r.value.AddContentItem? && r.value.item.JObj?
      && Field(r.value.item, "type") == Some(JObj([("codename", Field2(x, "type", "codename").value)]))
      && forall k :: k != "type" ==> Field(r.value.item, k) == if k in ["name", "codename", "external_id"] then Field(x, k) else None)
  {
    var ty :- Read(Some(x), "type");
    var tc :- Read(ty, "codename");
    if !TruthyOpt(tc) then Fail(UnsetTypeCodename(Field(x, "codename")))
    else
      var fs := Copy(x, ["name"]) + [("type", JObj([("codename", tc.value)]))] + Copy(x, ["codename", "external_id"]);
      LookupAppendAll(Copy(x, ["name"]), [("type", JObj([("codename", tc.value)]))]);
      LookupAppendAll(Copy(x, ["name"]) + [("type", JObj([("codename", tc.value)]))], Copy(x, ["codename", "external_id"]));
      Ok(AddContentItem(JObj(fs)))
  }

  /** The call a loop makes for element `x`, or what it throws first. */
  function Prepare(p: Phase, x: Json): Result<Call, ImportError> {
    match p
    case Taxonomies => Ok(AddTaxonomy(x))
    case Snippets => SnippetCall(x)
    case Types => TypeCall(x)
    case Workflows => WorkflowCall(x)
    case Items => ItemCall(x)
    case Variants(currentItems, ws) =>
      var u :- UpsertCall(x, currentItems, ws);
      Ok(u.0)
    case Steps(ws) => StepCall(x, ws)
    case Moves(id) => MoveCall(x, id)
  }

  /** Every call a loop prepares belongs to that loop's place in the import order. */
  lemma PrepareRank(p: Phase, x: Json)
    requires Prepare(p, x).Ok?
    ensures Rank(Prepare(p, x).value) == PhaseRank(p)
  {
    match p
    case Taxonomies =>
    case Snippets =>
      RankCases(SnippetCall(x).value);
    case Types =>
      RankCases(TypeCall(x).value);
    case Workflows =>
      WorkflowRank(x);
    case Items =>
      RankCases(ItemCall(x).value);
    case Variants(currentItems, ws) =>
      UpsertRank(x, currentItems, ws);
    case Steps(ws) =>
      StepRank(x, ws);
    case Moves(id) =>
      RankCases(MoveCall(x, id).value);
  }

  /**
   * The import record of `x`, sent as `c` and answered with `resp`. Snippets and content
   * types are recorded in a list that `importAsync` drops, so they record nothing; a
   * workflow is recorded as it was sent; a variant as its ids were translated, so its
   * `originalId` is the id its item has after the translation.
   */
  function Recorded(p: Phase, x: Json, c: Call, resp: Response): seq<ImportItemResult> {
    match p
    case Taxonomies => [ImportItemResult(OJson(x), StrField(x, "id"), Some(resp.id))]
    case Items => [ImportItemResult(OJson(x), StrField(x, "id"), Some(resp.id))]
    case Workflows =>
      var w := if c.UpdateWorkflow? || c.AddWorkflow? then c.workflow else x;
      [ImportItemResult(OJson(w), StrField(w, "id"), Some(resp.id))]
    case Variants(currentItems, _) =>
      var t := NewIds(x, currentItems);
      [ImportItemResult(OJson(t), StrOf(Field2(t, "item", "id")), Some(resp.id))]
    case _ => []
  }

  /** One turn of the loop of phase `p`: prepare the call for `x`, send it, record the answer. */
  function Turn(respond: Respond, log: seq<Call>, p: Phase, x: Json): Outcome {
    match Prepare(p, x)
    case Fail(e) => Stop(e)
    case Ok(c) =>
      match respond(log, c)
      case Fail(e) => Outcome([c], [], [], Some(Handled(e)))
      case Ok(resp) => Outcome([c], Recorded(p, x, c, resp), [], None)
  }

  /** What the loop of phase `p` does with `xs`, when the project answers as `respond` says. */
  function RunEach(respond: Respond, log: seq<Call>, p: Phase, xs: seq<Json>): Outcome
    decreases |xs|
  {
    if |xs| == 0 then Done()
    else
      var t := Turn(respond, log, p, xs[0]);
      if t.error.Some? then t
      else Then(t, RunEach(respond, log + t.calls, p, xs[1..]))
  }

  lemma UpsertRank(x: Json, currentItems: seq<ImportItemResult>, ws: seq<Json>)
    requires UpsertCall(x, currentItems, ws).Ok?
    ensures Rank(UpsertCall(x, currentItems, ws).value.0) == 8
  {
    UpsertCallChecked(x, currentItems, ws);
    var c := UpsertCall(x, currentItems, ws).value.0;
    assert c.UpsertLanguageVariant?;
    RankCases(c);
  }

  lemma RankCases(c: Call)
    ensures c.UpdateWorkflow? || c.AddWorkflow? ==> Rank(c) == 5
    ensures c.PublishLanguageVariant? || c.ChangeWorkflowOfLanguageVariant? ==> Rank(c) == 9
    ensures c.UpsertLanguageVariant? ==> Rank(c) == 8
    ensures c.AddContentTypeSnippet? ==> Rank(c) == 3
    ensures c.AddContentType? ==> Rank(c) == 4
    ensures c.AddContentItem? ==> Rank(c) == 7
    ensures c.ChangeWorkflowStepOfLanguageVariant? ==> Rank(c) == 10
  {
  }

  lemma WorkflowRank(x: Json)
    requires WorkflowCall(x).Ok?
    ensures Rank(WorkflowCall(x).value) == 5
  {
    RankCases(WorkflowCall(x).value);
  }

  lemma StepRank(x: Json, ws: seq<Json>)
    requires StepCall(x, ws).Ok?
    ensures Rank(StepCall(x, ws).value) == 9
  {
    RankCases(StepCall(x, ws).value);
  }

  /** An answered turn of a loop, read off the definition. */
  lemma RunEachAnswered(respond: Respond, log: seq<Call>, p: Phase, xs: seq<Json>, c: Call, resp: Response)
    requires |xs| > 0 && Prepare(p, xs[0]) == Ok(c) && respond(log, c) == Ok(resp)
    ensures RunEach(respond, log, p, xs) == Then(Outcome([c], Recorded(p, xs[0], c, resp), [], None), RunEach(respond, log + [c], p, xs[1..]))
  {
  }

  /** One turn of a loop, read off the definition. */
  lemma RunEachUnfold(respond: Respond, log: seq<Call>, p: Phase, xs: seq<Json>)
    requires |xs| > 0
    ensures Prepare(p, xs[0]).Fail? ==> RunEach(respond, log, p, xs) == Stop(Prepare(p, xs[0]).error)
    ensures Prepare(p, xs[0]).Ok? && respond(log, Prepare(p, xs[0]).value).Fail? ==>
      RunEach(respond, log, p, xs) == Outcome([Prepare(p, xs[0]).value], [], [], Some(Handled(respond(log, Prepare(p, xs[0]).value).error)))
    ensures Prepare(p, xs[0]).Ok? && respond(log, Prepare(p, xs[0]).value).Ok? ==>
      var c := Prepare(p, xs[0]).value;
      RunEach(respond, log, p, xs) == Then(Outcome([c], Recorded(p, xs[0], c, respond(log, c).value), [], None),
        RunEach(respond, log + [c], p, xs[1..]))
  {
  }

  /** The loop sends the prepared call of each element of a prefix of the list, all of them when it does not throw. */
  /** A turn sends at most the call prepared for its element, and all of it when it does not throw. */
  lemma TurnCalls(respond: Respond, log: seq<Call>, p: Phase, x: Json)
    ensures var t := Turn(respond, log, p, x);
      && |t.calls| <= 1
      && (|t.calls| == 1 ==> Prepare(p, x) == Ok(t.calls[0]))
      && (t.error.None? ==> |t.calls| == 1)
      && t.reported == []
  {
  }

  lemma {:induction false} RunEachCalls(respond: Respond, log: seq<Call>, p: Phase, xs: seq<Json>)
    ensures PreparedCalls(Preparer(p), xs, RunEach(respond, log, p, xs))
    decreases |xs|
  {
    if |xs| > 0 {
      var t := Turn(respond, log, p, xs[0]);
      TurnCalls(respond, log, p, xs[0]);
      if t.error.None? {
        var rest := RunEach(respond, log + t.calls, p, xs[1..]);
        RunEachCalls(respond, log + t.calls, p, xs[1..]);
        assert Preparer(p)(xs[0]) == Prepare(p, xs[0]);
        ThenCalls(Preparer(p), xs, t, rest);
        assert RunEach(respond, log, p, xs) == Then(t, rest);
      }
    }
  }

  /** The preparation of phase `p`, as a function of the element. */
  function Preparer(p: Phase): Json -> Result<Call, ImportError> {
    x => Prepare(p, x)
  }

  /** `o` sends the call `f` prepares for each element of a prefix of `xs`, for all of them unless it throws, and reports nothing. */
  predicate PreparedCalls(f: Json -> Result<Call, ImportError>, xs: seq<Json>, o: Outcome) {
    && |o.calls| <= |xs|
    && (forall i :: 0 <= i < |o.calls| ==> f(xs[i]) == Ok(o.calls[i]))
    && (o.error.None? ==> |o.calls| == |xs|)
    && o.reported == []
  }

  /** The call of the first element, then the calls of the rest. */
  lemma ThenCalls(f: Json -> Result<Call, ImportError>, xs: seq<Json>, t: Outcome, rest: Outcome)
    requires |xs| > 0 && |t.calls| == 1 && f(xs[0]) == Ok(t.calls[0]) && t.reported == []
    requires PreparedCalls(f, xs[1..], rest)
    ensures PreparedCalls(f, xs, Then(t, rest))
  {
    var o := Then(t, rest);
    forall i | 0 <= i < |o.calls| ensures f(xs[i]) == Ok(o.calls[i]) {
      if i > 0 {
        assert o.calls[i] == rest.calls[i - 1] && xs[1..][i - 1] == xs[i];
      }
    }
  }

  /**
   * What a loop throws: the preparation error of the element after the calls it made, or the
   * refusal of its last call, rethrown by `handleError`.
   */
  predicate ThrownBy(respond: Respond, log: seq<Call>, p: Phase, xs: seq<Json>, o: Outcome)
    requires o.error.Some?
  {
    || (|o.calls| < |xs| && Prepare(p, xs[|o.calls|]) == Fail(o.error.value))
    || (|o.calls| > 0 && respond(log + o.calls[..|o.calls| - 1], o.calls[|o.calls| - 1]).Fail?
        && o.error.value == Handled(respond(log + o.calls[..|o.calls| - 1], o.calls[|o.calls| - 1]).error))
  }

  /** An error of the rest of a loop, thrown after one answered call. */
  lemma ThrownByShift(respond: Respond, log: seq<Call>, p: Phase, xs: seq<Json>, c: Call, head: seq<ImportItemResult>, rest: Outcome)
    requires |xs| > 0 && rest.error.Some?
    requires ThrownBy(respond, log + [c], p, xs[1..], rest)
    ensures ThrownBy(respond, log, p, xs, Then(Outcome([c], head, [], None), rest))
  {
    var o := Then(Outcome([c], head, [], None), rest);
    var n := |rest.calls|;
    assert o.calls == [c] + rest.calls;
    if n < |xs| - 1 && Prepare(p, xs[1..][n]) == Fail(rest.error.value) {
      assert xs[1..][n] == xs[|o.calls|];
    } else {
      assert o.calls[..|o.calls| - 1] == [c] + rest.calls[..n - 1];
      assert log + o.calls[..|o.calls| - 1] == (log + [c]) + rest.calls[..n - 1];
    }
  }

  lemma {:induction false} RunEachError(respond: Respond, log: seq<Call>, p: Phase, xs: seq<Json>)
    requires RunEach(respond, log, p, xs).error.Some?
    ensures ThrownBy(respond, log, p, xs, RunEach(respond, log, p, xs))
    decreases |xs|
  {
    match Prepare(p, xs[0])
    case Fail(e) =>
    case Ok(c) =>
      match respond(log, c)
      case Fail(e) =>
        assert log + [c][..0] == log;
      case Ok(resp) =>
        RunEachAnswered(respond, log, p, xs, c, resp);
        RunEachError(respond, log + [c], p, xs[1..]);
        ThrownByShift(respond, log, p, xs, c, Recorded(p, xs[0], c, resp), RunEach(respond, log + [c], p, xs[1..]));
  }

  /** The loop's calls all belong to its phase. */
  lemma RunEachRank(respond: Respond, log: seq<Call>, p: Phase, xs: seq<Json>)
    ensures AtRank(RunEach(respond, log, p, xs).calls, PhaseRank(p))
  {
    RunEachCalls(respond, log, p, xs);
    var o := RunEach(respond, log, p, xs);
    forall i | 0 <= i < |o.calls| ensures Rank(o.calls[i]) == PhaseRank(p) {
      assert Preparer(p)(xs[i]) == Ok(o.calls[i]);
      PrepareRank(p, xs[i]);
    }
  }

  /** Within a loop, a refused call is the last one made. */
  lemma {:induction false} RunEachFailureEnds(respond: Respond, log: seq<Call>, p: Phase, xs: seq<Json>)
    ensures FailureEnds(respond, log, RunEach(respond, log, p, xs))
    decreases |xs|
  {
    if |xs| > 0 && Prepare(p, xs[0]).Ok? {
      var c := Prepare(p, xs[0]).value;
      if respond(log, c).Ok? {
        RunEachFailureEnds(respond, log + [c], p, xs[1..]);
        var head := Outcome([c], Recorded(p, xs[0], c, respond(log, c).value), [], None);
        assert log + head.calls[..0] == log;
        FailureEndsThen(respond, log, head, RunEach(respond, log + [c], p, xs[1..]));
      } else {
        assert log + [c][..0] == log;
      }
    }
  }

  /** Snippets and content types never reach the import results, so their ids are never translated. */
  lemma {:induction false} SnippetsAndTypesNotRecorded(respond: Respond, log: seq<Call>, xs: seq<Json>)
    ensures RunEach(respond, log, Snippets, xs).results == []
    ensures RunEach(respond, log, Types, xs).results == []
    decreases |xs|
  {
    if |xs| > 0 {
      if Prepare(Snippets, xs[0]).Ok? && respond(log, Prepare(Snippets, xs[0]).value).Ok? {
        SnippetsAndTypesNotRecorded(respond, log + [Prepare(Snippets, xs[0]).value], xs[1..]);
      }
      if Prepare(Types, xs[0]).Ok? && respond(log, Prepare(Types, xs[0]).value).Ok? {
        SnippetsAndTypesNotRecorded(respond, log + [Prepare(Types, xs[0]).value], xs[1..]);
      }
    }
  }

  /** A turn of a recording kind records one result with its new id, or nothing when it throws. */
  lemma TurnRecords(respond: Respond, log: seq<Call>, p: Phase, x: Json)
    requires p.Taxonomies? || p.Items? || p.Workflows? || p.Variants?
    ensures var t := Turn(respond, log, p, x);
      && (t.error.None? ==> |t.results| == 1)
      && (forall i :: 0 <= i < |t.results| ==> t.results[i].importId.Some?)
  {
  }

  /** A loop that answers every call records one result per element, for the kinds that record. */
  lemma {:induction false} RunEachRecords(respond: Respond, log: seq<Call>, p: Phase, xs: seq<Json>)
    requires p.Taxonomies? || p.Items? || p.Workflows? || p.Variants?
    ensures var o := RunEach(respond, log, p, xs);
      o.error.None? ==> |o.results| == |xs|
    ensures var o := RunEach(respond, log, p, xs);
      forall i :: 0 <= i < |o.results| ==> o.results[i].importId.Some?
    decreases |xs|
  {
    if |xs| > 0 {
      var t := Turn(respond, log, p, xs[0]);
      TurnRecords(respond, log, p, xs[0]);
      if t.error.None? {
        var rest := RunEach(respond, log + t.calls, p, xs[1..]);
        RunEachRecords(respond, log + t.calls, p, xs[1..]);
        ThenRecords(t, rest);
        assert RunEach(respond, log, p, xs) == Then(t, rest);
      }
    }
  }

  /** Results carrying their new ids stay so when two stretches are put together. */
  lemma ThenRecords(a: Outcome, b: Outcome)
    requires forall i :: 0 <= i < |a.results| ==> a.results[i].importId.Some?
    requires forall i :: 0 <= i < |b.results| ==> b.results[i].importId.Some?
    ensures forall i :: 0 <= i < |Then(a, b).results| ==> Then(a, b).results[i].importId.Some?
  {
    var o := Then(a, b);
    forall i | 0 <= i < |o.results| ensures o.results[i].importId.Some? {
      if i >= |a.results| {
        assert o.results[i] == b.results[i - |a.results|];
      }
    }
  }

  // ---------------------------------------------------------------- the loop itself

  lemma ThenAssoc(a: Outcome, b: Outcome, c: Outcome)
    ensures Then(Then(a, b), c) == Then(a, Then(b, c))
  {
    assert (a.calls + b.calls) + c.calls == a.calls + (b.calls + c.calls);
    assert (a.results + b.results) + c.results == a.results + (b.results + c.results);
    assert (a.reported + b.reported) + c.reported == a.reported + (b.reported + c.reported);
  }

  /** The log after two stretches. */
  lemma LogAfter(log0: seq<Call>, o: Outcome, a: Outcome)
    ensures log0 + o.calls + a.calls == log0 + Then(o, a).calls
  {
  }

  /** A turn of the loop, in the middle of the list. */
  lemma LoopTurn(respond: Respond, log0: seq<Call>, acc: Outcome, p: Phase, xs: seq<Json>, i: nat)
    requires i < |xs|
    requires RunEach(respond, log0, p, xs) == Then(acc, RunEach(respond, log0 + acc.calls, p, xs[i..]))
    ensures var t := Turn(respond, log0 + acc.calls, p, xs[i]);
      if t.error.Some? then RunEach(respond, log0, p, xs) == Then(acc, t)
      else RunEach(respond, log0, p, xs) == Then(Then(acc, t), RunEach(respond, log0 + Then(acc, t).calls, p, xs[i + 1..]))
  {
    var t := Turn(respond, log0 + acc.calls, p, xs[i]);
    assert xs[i..][0] == xs[i] && xs[i..][1..] == xs[i + 1..];
    if t.error.None? {
      ThenAssoc(acc, t, RunEach(respond, log0 + acc.calls + t.calls, p, xs[i + 1..]));
      LogAfter(log0, acc, t);
    }
  }

  lemma StartLoop(respond: Respond, log0: seq<Call>, p: Phase, xs: seq<Json>)
    ensures RunEach(respond, log0, p, xs) == Then(Done(), RunEach(respond, log0 + Done().calls, p, xs[0..]))
  {
    assert xs[0..] == xs && log0 + [] == log0;
    var o := RunEach(respond, log0, p, xs);
    assert [] + o.calls == o.calls && [] + o.results == o.results && [] + o.reported == o.reported;
  }

  lemma EndLoop(respond: Respond, log0: seq<Call>, acc: Outcome, p: Phase, xs: seq<Json>)
    requires acc.error.None?
    requires RunEach(respond, log0, p, xs) == Then(acc, RunEach(respond, log0 + acc.calls, p, xs[|xs|..]))
    ensures RunEach(respond, log0, p, xs) == acc
  {
    assert xs[|xs|..] == [];
    assert acc.calls + [] == acc.calls && acc.results + [] == acc.results && acc.reported + [] == acc.reported;
  }

  /** One turn of the loop, against the client. */
  method ImportOne(client: Client, p: Phase, x: Json) returns (t: Outcome)
    modifies client
    ensures t == Turn(client.respond, old(client.log), p, x)
    ensures client.log == old(client.log) + t.calls
  {
    var prepared := Prepare(p, x);
    if prepared.Fail? {
      return Stop(prepared.error);
    }
    var c := prepared.value;
    var answer := client.Send(c);
    if answer.Fail? {
      return Outcome([c], [], [], Some(Handled(answer.error)));
    }
    t := Outcome([c], Recorded(p, x, c, answer.value), [], None);
  }

  /** The loop of phase `p` over `xs`, against the client. */
  method ImportEach(client: Client, p: Phase, xs: seq<Json>) returns (o: Outcome)
    modifies client
    ensures o == RunEach(client.respond, old(client.log), p, xs)
    ensures client.log == old(client.log) + o.calls
  {
    var log0 := client.log;
    var acc := Done();
    var i := 0;
    StartLoop(client.respond, log0, p, xs);
    while i < |xs|
      invariant i <= |xs| && acc.error.None?
      invariant client.log == log0 + acc.calls
      invariant RunEach(client.respond, log0, p, xs) == Then(acc, RunEach(client.respond, log0 + acc.calls, p, xs[i..]))
    {
      LoopTurn(client.respond, log0, acc, p, xs, i);
      var t := ImportOne(client, p, xs[i]);
      LogAfter(log0, acc, t);
      if t.error.Some? {
        o := Then(acc, t);
        return;
      }
      acc := Then(acc, t);
      i := i + 1;
    }
    EndLoop(client.respond, log0, acc, p, xs);
    o := acc;
  }
}
