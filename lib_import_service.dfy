/**
 * The order of `importAsync` in the newer import service: asset folders,
 * languages, taxonomies, snippets, content types, workflows, assets, content items, then
 * the variants, their workflow steps and the move to a configured step. Each of the
 * first eight is skipped when its list is empty; the variants always run, the workflow
 * steps only when workflows are preserved, and the move only when a workflow id for the
 * imported items is configured. What the phases change as they go is
 * carried along: the import results so far, the variants (whose ids the variant phase
 * translates in place) and the workflows (which the workflow phase strips in place).
 */
module LibImportService {
  import opened Wrappers
  import opened Json
  import opened CoreModels
  import opened ImportModels
  import opened LibWorkflowRules
  import opened IdTranslateHelper
  import opened LibImportPhases
  import opened LibImportLanguages
  import opened LibImportAssets
  import SkipFilter
  import LibTranslateIds

  /** What the phases leave for the later ones: `importedItems`, and the variants and workflows as they now are. */
  datatype Progress = Progress(items: seq<ImportItemResult>, variants: seq<Json>, workflows: seq<Json>)

  /** One phase of the import, with the data it is given. */
  datatype Stage =
    | FoldersStage(folders: seq<Folder>)
    | LanguagesStage(languages: seq<Json>, fix: bool)
    | EachStage(phase: Phase, xs: seq<Json>)
    | WorkflowsStage
    | AssetsStage(assets: seq<Json>, files: seq<ZipService.BinaryFile>, report: bool)
    | VariantsStage
    | StepsStage
    | MovesStage(workflowStepId: string)

  function StageRank(st: Stage): nat {
    match st
    case FoldersStage(_) => 0
    case LanguagesStage(_, _) => 1
    case EachStage(p, _) => PhaseRank(p)
    case WorkflowsStage => 5
    case AssetsStage(_, _, _) => 6
    case VariantsStage => 8
    case StepsStage => 9
    case MovesStage(_) => 10
  }

  /** A workflow after `importWorkflowsAsync` prepared it: as it was sent. */
  function PreparedWorkflow(w: Json): Json {
    if WorkflowCall(w).Ok? then WorkflowCall(w).value.workflow else w
  }

  /** What a phase does, given what the earlier phases left. */
  function RunStage(respond: Respond, log: seq<Call>, g: Progress, st: Stage): Outcome {
    match st
    case FoldersStage(fs) => FoldersRun(respond, log, fs)
    case LanguagesStage(ls, fix) => LanguagesRun(respond, log, ls, fix)
    case EachStage(p, xs) => RunEach(respond, log, p, xs)
    case WorkflowsStage => RunEach(respond, log, Workflows, g.workflows)
    case AssetsStage(assets, files, report) => AssetsRun(respond, log, assets, files, g.items, report)
    case VariantsStage => RunEach(respond, log, Variants(g.items, g.workflows), g.variants)
    case StepsStage => RunEach(respond, log, Steps(g.workflows), g.variants)
    case MovesStage(id) => RunEach(respond, log, Moves(id), g.variants)
  }

  /**
   * What a phase that finished leaves: its results join `importedItems`; the workflow phase
   * leaves every workflow as it sent it; the variant phase leaves every variant with its
   * ids translated by the results it was given.
   */
  function Advance(g: Progress, st: Stage, o: Outcome): (r: Progress)
    ensures r.items == g.items + o.results
  {
    var items := g.items + o.results;
    match st
    case WorkflowsStage => Progress(items, g.variants, seq(|g.workflows|, i requires 0 <= i < |g.workflows| => PreparedWorkflow(g.workflows[i])))
    case VariantsStage => Progress(items, seq(|g.variants|, i requires 0 <= i < |g.variants| => NewIds(g.variants[i], g.items)), g.workflows)
    case _ => g.(items := items)
  }

  /** The phases in order; the first that throws ends the import. */
  function RunStages(respond: Respond, log: seq<Call>, g: Progress, sts: seq<Stage>): Outcome
    decreases |sts|
  {
    if |sts| == 0 then Done()
    else
      var a := RunStage(respond, log, g, sts[0]);
      if a.error.Some? then a
      else Then(a, RunStages(respond, log + a.calls, Advance(g, sts[0], a), sts[1..]))
  }

  /** `config.workflowIdForImportedItems` is truthy. */
  predicate MovesVariants(config: ImportConfig) {
    config.workflowIdForImportedItems.Some? && config.workflowIdForImportedItems.value != ""
  }

  /**
   * The phase at place `k` of the fixed order of `importAsync`, with the part of
   * the source it is given.
   */
  function StageAt(s: ImportSource, config: ImportConfig, k: nat): (r: Stage)
    requires k <= 10
    ensures StageRank(r) == k
  {
    var d := s.importData;
    match k
    case 0 => FoldersStage(s.assetFolders)
    case 1 => LanguagesStage(d.languages, config.fixLanguages)
    case 2 => EachStage(Taxonomies, d.taxonomies)
    case 3 => EachStage(Snippets, d.contentTypeSnippets)
    case 4 => EachStage(Types, d.contentTypes)
    case 5 => WorkflowsStage
    case 6 => AssetsStage(d.assets, s.binaryFiles, config.onUnsupportedBinaryFile)
    case 7 => EachStage(Items, d.contentItems)
    case 8 => VariantsStage
    case 9 => StepsStage
    case _ => MovesStage(if config.workflowIdForImportedItems.Some? then config.workflowIdForImportedItems.value else "")
  }

  /**
   * Whether the phase at place `k` runs: a kind whose list is empty is skipped; the variant
   * phase always runs (its guard tests the array itself, which is always truthy); the
   * workflow steps run when `preserveWorkflow` is set; the move when a target step is set.
   */
  predicate Runs(s: ImportSource, config: ImportConfig, k: nat) {
    var d := s.importData;
    match k
    case 0 => |s.assetFolders| > 0
    case 1 => |d.languages| > 0
    case 2 => |d.taxonomies| > 0
    case 3 => |d.contentTypeSnippets| > 0
    case 4 => |d.contentTypes| > 0
    case 5 => |d.workflows| > 0
    case 6 => |d.assets| > 0
    case 7 => |d.contentItems| > 0
    case 8 => true
    case 9 => config.preserveWorkflow
    case 10 => MovesVariants(config)
    case _ => false
  }

  /** The phases from place `k` on that run, in order. */
  function PlanFrom(s: ImportSource, config: ImportConfig, k: nat): seq<Stage>
    decreases 11 - k
  {
    if k > 10 then []
    else if Runs(s, config, k) then [StageAt(s, config, k)] + PlanFrom(s, config, k + 1)
    else PlanFrom(s, config, k + 1)
  }

  /** The phases `importAsync` runs. */
  function Plan(s: ImportSource, config: ImportConfig): seq<Stage> {
    PlanFrom(s, config, 0)
  }

  /** `importAsync` after the filter and the id translation, when the project answers as `respond` says. */
  function ImportRun(respond: Respond, log: seq<Call>, s: ImportSource, config: ImportConfig): Outcome {
    RunStages(respond, log, Progress([], s.importData.languageVariants, s.importData.workflows), Plan(s, config))
  }

  // ---------------------------------------------------------------- the order of the phases

  /** The phases strictly follow the fixed order. */
  predicate Ascending(sts: seq<Stage>) {
    forall i, j :: 0 <= i < j < |sts| ==> StageRank(sts[i]) < StageRank(sts[j])
  }

  /** From place `k` on, only phases that run are planned, in order. */
  lemma {:induction false} PlanFromRanks(s: ImportSource, config: ImportConfig, k: nat)
    ensures var p := PlanFrom(s, config, k);
      && Ascending(p)
      && (forall i :: 0 <= i < |p| ==> k <= StageRank(p[i]) <= 10 && Runs(s, config, StageRank(p[i])))
    decreases 11 - k
  {
    if k <= 10 {
      PlanFromRanks(s, config, k + 1);
      if Runs(s, config, k) {
        var rest := PlanFrom(s, config, k + 1);
        var p := [StageAt(s, config, k)] + rest;
        assert PlanFrom(s, config, k) == p;
        assert forall i :: 0 < i < |p| ==> p[i] == rest[i - 1];
      }
    }
  }

  /** From place `k` on, every phase that runs is planned. */
  lemma {:induction false} PlanFromComplete(s: ImportSource, config: ImportConfig, k: nat, r: nat)
    requires k <= r <= 10 && Runs(s, config, r)
    ensures exists i :: 0 <= i < |PlanFrom(s, config, k)| && StageRank(PlanFrom(s, config, k)[i]) == r
    decreases 11 - k
  {
    var rest := PlanFrom(s, config, k + 1);
    if r == k {
      assert PlanFrom(s, config, k)[0] == StageAt(s, config, k);
    } else {
      PlanFromComplete(s, config, k + 1, r);
      var i :| 0 <= i < |rest| && StageRank(rest[i]) == r;
      if Runs(s, config, k) {
        assert PlanFrom(s, config, k)[i + 1] == rest[i];
      } else {
        assert PlanFrom(s, config, k) == rest;
      }
    }
  }

  /** Each phase's calls are of its own rank, and it sends nothing after a refusal. */
  lemma StageShape(respond: Respond, log: seq<Call>, g: Progress, st: Stage)
    ensures var o := RunStage(respond, log, g, st);
      AtRank(o.calls, StageRank(st)) && FailureEnds(respond, log, o)
  {
    StageRanks(respond, log, g, st);
    StageFailureEnds(respond, log, g, st);
  }

  /** Each phase's calls are of its own rank. */
  lemma StageRanks(respond: Respond, log: seq<Call>, g: Progress, st: Stage)
    ensures AtRank(RunStage(respond, log, g, st).calls, StageRank(st))
  {
    match st
    case FoldersStage(fs) => FoldersRunShape(respond, log, fs);
    case LanguagesStage(ls, fix) => LanguagesRunShape(respond, log, ls, fix);
    case EachStage(p, xs) => RunEachRank(respond, log, p, xs);
    case WorkflowsStage => RunEachRank(respond, log, Workflows, g.workflows);
    case AssetsStage(assets, files, report) => AssetsRunShape(respond, log, assets, files, g.items, report);
    case VariantsStage => RunEachRank(respond, log, Variants(g.items, g.workflows), g.variants);
    case StepsStage => RunEachRank(respond, log, Steps(g.workflows), g.variants);
    case MovesStage(id) => RunEachRank(respond, log, Moves(id), g.variants);
  }

  /** No phase sends anything after a refusal. */
  lemma StageFailureEnds(respond: Respond, log: seq<Call>, g: Progress, st: Stage)
    ensures FailureEnds(respond, log, RunStage(respond, log, g, st))
  {
    match st
    case FoldersStage(fs) => FoldersRunShape(respond, log, fs);
    case LanguagesStage(ls, fix) => LanguagesRunShape(respond, log, ls, fix);
    case EachStage(p, xs) => RunEachFailureEnds(respond, log, p, xs);
    case WorkflowsStage => RunEachFailureEnds(respond, log, Workflows, g.workflows);
    case AssetsStage(assets, files, report) => AssetsRunShape(respond, log, assets, files, g.items, report);
    case VariantsStage => RunEachFailureEnds(respond, log, Variants(g.items, g.workflows), g.variants);
    case StepsStage => RunEachFailureEnds(respond, log, Steps(g.workflows), g.variants);
    case MovesStage(id) => RunEachFailureEnds(respond, log, Moves(id), g.variants);
  }

  lemma OrderedBefore(a: seq<Call>, b: seq<Call>, k: nat)
    requires AtRank(a, k) && Ordered(b) && forall i :: 0 <= i < |b| ==> k <= Rank(b[i])
    ensures Ordered(a + b)
  {
    assert forall i :: 0 <= i < |a + b| ==> (a + b)[i] == if i < |a| then a[i] else b[i - |a|];
  }

  /** The call is of the rank of one of the phases. */
  predicate RankedIn(c: Call, sts: seq<Stage>) {
    exists j :: 0 <= j < |sts| && Rank(c) == StageRank(sts[j])
  }

  /**
   * Phases run in the fixed order send their calls in import order, nothing after a
   * refusal, and every call is of the rank of one of the phases.
   */
  lemma {:induction false} RunStagesShape(respond: Respond, log: seq<Call>, g: Progress, sts: seq<Stage>)
    requires Ascending(sts)
    ensures var o := RunStages(respond, log, g, sts);
      && Ordered(o.calls) && FailureEnds(respond, log, o)
      && forall i :: 0 <= i < |o.calls| ==> RankedIn(o.calls[i], sts)
    decreases |sts|
  {
    if |sts| > 0 {
      var a := RunStage(respond, log, g, sts[0]);
      StageShape(respond, log, g, sts[0]);
      if a.error.None? {
        var b := RunStages(respond, log + a.calls, Advance(g, sts[0], a), sts[1..]);
        RunStagesShape(respond, log + a.calls, Advance(g, sts[0], a), sts[1..]);
        StagesThen(respond, log, sts, sts[1..], a, b);
      } else {
        assert forall i :: 0 <= i < |a.calls| ==> Rank(a.calls[i]) == StageRank(sts[0]);
      }
    }
  }

  /** A first phase of the lowest rank, followed by the later phases' shape. */
  lemma StagesThen(respond: Respond, log: seq<Call>, sts: seq<Stage>, rest: seq<Stage>, a: Outcome, b: Outcome)
    requires |sts| > 0 && rest == sts[1..] && Ascending(sts) && a.error.None?
    requires AtRank(a.calls, StageRank(sts[0])) && FailureEnds(respond, log, a)
    requires Ordered(b.calls) && FailureEnds(respond, log + a.calls, b)
    requires forall i :: 0 <= i < |b.calls| ==> RankedIn(b.calls[i], rest)
    ensures var o := Then(a, b);
      && Ordered(o.calls) && FailureEnds(respond, log, o)
      && forall i :: 0 <= i < |o.calls| ==> RankedIn(o.calls[i], sts)
  {
    FailureEndsThen(respond, log, a, b);
    forall i | 0 <= i < |b.calls| ensures StageRank(sts[0]) <= Rank(b.calls[i]) {
      assert RankedIn(b.calls[i], rest);
      var j :| 0 <= j < |rest| && Rank(b.calls[i]) == StageRank(rest[j]);
      assert rest[j] == sts[j + 1];
    }
    OrderedBefore(a.calls, b.calls, StageRank(sts[0]));
    var c := a.calls + b.calls;
    forall i | 0 <= i < |c| ensures RankedIn(c[i], sts) {
      if i < |a.calls| {
        assert c[i] == a.calls[i];
        assert Rank(c[i]) == StageRank(sts[0]);
      } else {
        assert c[i] == b.calls[i - |a.calls|];
        assert RankedIn(b.calls[i - |a.calls|], rest);
        var j :| 0 <= j < |rest| && Rank(c[i]) == StageRank(rest[j]);
        assert rest[j] == sts[j + 1];
      }
    }
  }

  /**
   * The import sends its calls in the fixed order (asset folders, languages, taxonomies,
   * snippets, types, workflows, assets, items, variants, workflow steps, the move), sends
   * nothing after a refused call, and sends calls of a kind only when that phase runs.
   */
  lemma ImportRunShape(respond: Respond, log: seq<Call>, s: ImportSource, config: ImportConfig)
    ensures var o := ImportRun(respond, log, s, config);
      && Ordered(o.calls) && FailureEnds(respond, log, o)
      && forall i :: 0 <= i < |o.calls| ==> Runs(s, config, Rank(o.calls[i]))
  {
    var o := ImportRun(respond, log, s, config);
    var p := Plan(s, config);
    PlanFromRanks(s, config, 0);
    RunStagesShape(respond, log, Progress([], s.importData.languageVariants, s.importData.workflows), p);
    forall i | 0 <= i < |o.calls| ensures Runs(s, config, Rank(o.calls[i])) {
      assert RankedIn(o.calls[i], p);
      var j :| 0 <= j < |p| && Rank(o.calls[i]) == StageRank(p[j]);
    }
  }

  /**
   * What is skipped sends nothing: no folder call without asset folders, no language call
   * without languages, and so on for every kind; no publish or workflow change unless
   * `preserveWorkflow` is set; no step change unless a target step is configured.
   */
  lemma ImportRunSkips(respond: Respond, log: seq<Call>, s: ImportSource, config: ImportConfig, i: nat)
    requires i < |ImportRun(respond, log, s, config).calls|
    ensures var c := ImportRun(respond, log, s, config).calls[i]; var d := s.importData;
      && (c.AddAssetFolders? ==> |s.assetFolders| > 0)
      && (c.ListLanguages? || c.ModifyLanguage? || c.AddLanguage? ==> |d.languages| > 0)
      && (c.AddTaxonomy? ==> |d.taxonomies| > 0)
      && (c.AddContentTypeSnippet? ==> |d.contentTypeSnippets| > 0)
      && (c.AddContentType? ==> |d.contentTypes| > 0)
      && (c.UpdateWorkflow? || c.AddWorkflow? ==> |d.workflows| > 0)
      && (c.UploadBinaryFile? || c.AddAsset? ==> |d.assets| > 0)
      && (c.AddContentItem? ==> |d.contentItems| > 0)
      && (c.PublishLanguageVariant? || c.ChangeWorkflowOfLanguageVariant? ==> config.preserveWorkflow)
      && (c.ChangeWorkflowStepOfLanguageVariant? ==> MovesVariants(config))
  {
    ImportRunShape(respond, log, s, config);
    var c := ImportRun(respond, log, s, config).calls[i];
    assert Runs(s, config, Rank(c));
    RunsByKind(s, config, c);
  }

  /** A call whose phase runs is of a kind that the source has data or a setting for. */
  lemma RunsByKind(s: ImportSource, config: ImportConfig, c: Call)
    requires Runs(s, config, Rank(c))
    ensures var d := s.importData;
      && (c.AddAssetFolders? ==> |s.assetFolders| > 0)
      && (c.ListLanguages? || c.ModifyLanguage? || c.AddLanguage? ==> |d.languages| > 0)
      && (c.AddTaxonomy? ==> |d.taxonomies| > 0)
      && (c.AddContentTypeSnippet? ==> |d.contentTypeSnippets| > 0)
      && (c.AddContentType? ==> |d.contentTypes| > 0)
      && (c.UpdateWorkflow? || c.AddWorkflow? ==> |d.workflows| > 0)
      && (c.UploadBinaryFile? || c.AddAsset? ==> |d.assets| > 0)
      && (c.AddContentItem? ==> |d.contentItems| > 0)
      && (c.PublishLanguageVariant? || c.ChangeWorkflowOfLanguageVariant? ==> config.preserveWorkflow)
      && (c.ChangeWorkflowStepOfLanguageVariant? ==> MovesVariants(config))
  {
  }

  // ---------------------------------------------------------------- against the client

  /** One phase, against the client. */
  method ImportStage(client: Client, g: Progress, st: Stage) returns (o: Outcome)
    modifies client
    ensures o == RunStage(client.respond, old(client.log), g, st)
    ensures client.log == old(client.log) + o.calls
  {
    match st
    case FoldersStage(fs) => o := ImportAssetFolders(client, fs);
    case LanguagesStage(ls, fix) => o := ImportLanguages(client, ls, fix);
    case EachStage(p, xs) => o := ImportEach(client, p, xs);
    case WorkflowsStage => o := ImportEach(client, Workflows, g.workflows);
    case AssetsStage(assets, files, report) => o := ImportAssets(client, assets, files, g.items, report);
    case VariantsStage => o := ImportEach(client, Variants(g.items, g.workflows), g.variants);
    case StepsStage => o := ImportEach(client, Steps(g.workflows), g.variants);
    case MovesStage(id) => o := ImportEach(client, Moves(id), g.variants);
  }

  lemma StagesStart(respond: Respond, log0: seq<Call>, g: Progress, sts: seq<Stage>)
    ensures RunStages(respond, log0, g, sts) == Then(Done(), RunStages(respond, log0 + Done().calls, g, sts[0..]))
  {
    var o := RunStages(respond, log0, g, sts);
    assert sts[0..] == sts && log0 + [] == log0;
    assert [] + o.calls == o.calls && [] + o.results == o.results && [] + o.reported == o.reported;
  }

  lemma StagesStep(respond: Respond, log0: seq<Call>, g0: Progress, acc: Outcome, g: Progress, sts: seq<Stage>, i: nat, a: Outcome)
    requires i < |sts| && a == RunStage(respond, log0 + acc.calls, g, sts[i])
    requires RunStages(respond, log0, g0, sts) == Then(acc, RunStages(respond, log0 + acc.calls, g, sts[i..]))
    ensures a.error.Some? ==> RunStages(respond, log0, g0, sts) == Then(acc, a)
    ensures a.error.None? ==> (RunStages(respond, log0, g0, sts) ==
      Then(Then(acc, a), RunStages(respond, log0 + Then(acc, a).calls, Advance(g, sts[i], a), sts[i + 1..])))
  {
    assert sts[i..][0] == sts[i] && sts[i..][1..] == sts[i + 1..];
    if a.error.None? {
      var b := RunStages(respond, log0 + acc.calls + a.calls, Advance(g, sts[i], a), sts[i + 1..]);
      ThenAssoc(acc, a, b);
      LogAfter(log0, acc, a);
    }
  }

  lemma StagesEnd(respond: Respond, log0: seq<Call>, g0: Progress, acc: Outcome, g: Progress, sts: seq<Stage>)
    requires acc.error.None?
    requires RunStages(respond, log0, g0, sts) == Then(acc, RunStages(respond, log0 + acc.calls, g, sts[|sts|..]))
    ensures RunStages(respond, log0, g0, sts) == acc
  {
    assert sts[|sts|..] == [];
    assert acc.calls + [] == acc.calls && acc.results + [] == acc.results && acc.reported + [] == acc.reported;
  }

  /** The phases in order against the client, each given what the earlier ones left. */
  method ImportStages(client: Client, g0: Progress, sts: seq<Stage>) returns (o: Outcome)
    modifies client
    ensures o == RunStages(client.respond, old(client.log), g0, sts)
    ensures client.log == old(client.log) + o.calls
  {
    var log0 := client.log;
    var acc := Done();
    var g := g0;
    var i := 0;
    StagesStart(client.respond, log0, g0, sts);
    while i < |sts|
      invariant i <= |sts| && acc.error.None?
      invariant client.log == log0 + acc.calls
      invariant RunStages(client.respond, log0, g0, sts) == Then(acc, RunStages(client.respond, log0 + acc.calls, g, sts[i..]))
    {
      var a := ImportStage(client, g, sts[i]);
      StagesStep(client.respond, log0, g0, acc, g, sts, i, a);
      LogAfter(log0, acc, a);
      if a.error.Some? {
        o := Then(acc, a);
        return;
      }
      g := Advance(g, sts[i], a);
      acc := Then(acc, a);
      i := i + 1;
    }
    StagesEnd(client.respond, log0, g0, acc, g, sts);
    o := acc;
  }

  /** `importAsync` after the filter and the id translation, against the client. */
  method ImportFromSource(client: Client, s: ImportSource, config: ImportConfig) returns (o: Outcome)
    modifies client
    ensures o == ImportRun(client.respond, old(client.log), s, config)
    ensures client.log == old(client.log) + o.calls
  {
    o := ImportStages(client, Progress([], s.importData.languageVariants, s.importData.workflows), Plan(s, config));
  }

  // ---------------------------------------------------------------- importAsync

  /** What `removeSkippedItemsFromImport` leaves. */
  function Kept(s: ImportSource, config: ImportConfig): ImportSource {
    if config.canImport.Some? then SkipFilter.Filtered(s, config.canImport.value) else s
  }

  lemma CleanKeep(xs: seq<Json>, canImport: Option<Json -> bool>, clash: (Json, Json) -> bool)
    requires Clean(JArr(xs))
    ensures Clean(JArr(SkipFilter.Keep(xs, canImport, clash)))
  {
    var r := SkipFilter.Keep(xs, canImport, clash);
    forall i | 0 <= i < |r| ensures Clean(r[i]) {
      assert r[i] in xs;
    }
  }

  lemma CleanKept(s: ImportSource, config: ImportConfig)
    requires LibTranslateIds.CleanData(s.importData)
    ensures LibTranslateIds.CleanData(Kept(s, config).importData)
  {
    if config.canImport.Some? {
      var d, c := s.importData, config.canImport.value;
      CleanKeep(d.taxonomies, c.taxonomy, SkipFilter.SameId);
      CleanKeep(d.contentTypeSnippets, c.contentTypeSnippet, SkipFilter.SameId);
      CleanKeep(d.contentTypes, c.contentType, SkipFilter.SameId);
      CleanKeep(d.contentItems, c.contentItem, SkipFilter.SameId);
      CleanKeep(d.languageVariants, c.languageVariant, SkipFilter.VariantClashAsWritten);
      CleanKeep(d.languages, c.language, SkipFilter.SameId);
      CleanKeep(d.assets, c.asset, SkipFilter.SameId);
      CleanKeep(d.workflows, c.workflow, SkipFilter.SameId);
    }
  }

  /**
   * `importAsync`: the skipped items are removed, the ids are translated, and the phases
   * run on what is left. When the translation throws, nothing is sent.
   */
  method ImportAsync(client: Client, source: ImportSource, config: ImportConfig) returns (o: Outcome, ghost steps: seq<ImportData>)
    requires LibTranslateIds.CleanData(source.importData)
    modifies client
    ensures var d := Kept(source, config).importData;
      var hint := LibTranslateIds.DefaultLanguageCodename(d.languages);
      if hint.Fail? || LibTranslateIds.NullVariant(d) then
        o == Stop(if hint.Fail? then TypeError("id") else TypeError("workflow")) && client.log == old(client.log)
      else
        && LibTranslateIds.TranslatedVia(d, hint.value, steps)
        && o == ImportRun(client.respond, old(client.log), Kept(source, config).(importData := steps[8]), config)
        && client.log == old(client.log) + o.calls
  {
    var kept := SkipFilter.RemoveSkippedItemsFromImport(source, config.canImport);
    CleanKept(source, config);
    var translated;
    translated, steps := LibTranslateIds.TranslateIds(kept.importData);
    if translated.Fail? {
      o := Stop(translated.error);
      return;
    }
    o := ImportFromSource(client, kept.(importData := translated.value), config);
  }
}
