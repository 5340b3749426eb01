/**
 * `importLanguagesAsync` of the newer import service: the target's languages are listed
 * once; each exported language is then, when `fixLanguages` is set, fixed in the target
 * (activation, renaming of the default language) and the languages listed again; and is
 * added unless `tryGetLanguage` says it is already there.
 */
module LibImportLanguages {
  import opened Wrappers
  import opened Json
  import opened CoreModels
  import opened ImportModels
  import opened LibLanguageRules
  import opened LibImportPhases

  /** Calls sent one after the other without a `catch`: the first refusal propagates as it is. */
  function SendRaw(respond: Respond, log: seq<Call>, calls: seq<Call>): (r: Outcome)
    ensures r.results == [] && r.reported == []
    ensures |r.calls| <= |calls| && r.calls == calls[..|r.calls|]
    ensures r.error.None? ==> r.calls == calls
    ensures r.error.Some? ==> |r.calls| > 0
    decreases |calls|
  {
    if |calls| == 0 then Done()
    else
      match respond(log, calls[0])
      case Fail(e) => Outcome([calls[0]], [], [], Some(Unhandled(e)))
      case Ok(_) =>
        var rest := SendRaw(respond, log + [calls[0]], calls[1..]);
        assert [calls[0]] + calls[1..] == calls;
        Then(Outcome([calls[0]], [], [], None), rest)
  }

  /**
   * What a `null` language throws: the codename lookup reads it when the target has any
   * language, and otherwise the next property the code reads does.
   */
  function NullLanguageError(current: seq<LanguageModel>, fix: bool): ImportError {
    if |current| > 0 then TypeError("codename")
    else if fix then TypeError("is_default")
    else TypeError("id")
  }

  /** The import record of an added language. */
  function LanguageRecord(lang: Json, resp: Response): ImportItemResult {
    ImportItemResult(OJson(lang), StrField(lang, "id"), Some(resp.id))
  }

  /** `tryGetLanguage`, then adding the language through `handleImportError` unless it is not to be imported. */
  function Decide(respond: Respond, log: seq<Call>, current: seq<LanguageModel>, lang: Json): (r: Outcome)
    ensures r.reported == [] && |r.calls| <= 1
    ensures forall i :: 0 <= i < |r.calls| ==> r.calls[i].AddLanguage?
  {
    match TryGetLanguage(current, lang)
    case Fail(e) => Stop(e)
    case Ok(NoImport) => Done()
    case Ok(Import(data)) =>
      match respond(log, AddLanguage(data))
      case Fail(e) => Outcome([AddLanguage(data)], [], [], Some(Handled(e)))
      case Ok(resp) => Outcome([AddLanguage(data)], [LanguageRecord(lang, resp)], [], None)
  }

  /** The calls before the decision on a language, when the languages are fixed: the fixes and the new listing. */
  function FixAndRelist(respond: Respond, log: seq<Call>, current: seq<LanguageModel>, lang: Json): (Outcome, seq<LanguageModel>)
  {
    var plan := FixLanguage(current, lang);
    var sent := SendRaw(respond, log, plan.calls);
    if sent.error.Some? then (sent, current)
    else if plan.error.Some? then (Then(sent, Stop(plan.error.value)), current)
    else
      match respond(log + sent.calls, ListLanguages)
      case Fail(e) => (Then(sent, Outcome([ListLanguages], [], [], Some(Unhandled(e)))), current)
      case Ok(resp) => (Then(sent, Outcome([ListLanguages], [], [], None)), resp.languages)
  }

  /**
   * One turn of the loop over the exported languages: what it does with `lang`, and the
   * target's languages as the code knows them afterwards.
   */
  function LanguageTurn(respond: Respond, log: seq<Call>, current: seq<LanguageModel>, lang: Json, fix: bool): (Outcome, seq<LanguageModel>)
  {
    if lang.JNull? then (Stop(NullLanguageError(current, fix)), current)
    else if !fix then (Decide(respond, log, current, lang), current)
    else
      var (head, current') := FixAndRelist(respond, log, current, lang);
      if head.error.Some? then (head, current')
      else (Then(head, Decide(respond, log + head.calls, current', lang)), current')
  }

  /** The loop over the exported languages, from a given knowledge of the target's languages. */
  function LanguagesFrom(respond: Respond, log: seq<Call>, current: seq<LanguageModel>, langs: seq<Json>, fix: bool): Outcome
    decreases |langs|
  {
    if |langs| == 0 then Done()
    else
      var (a, current') := LanguageTurn(respond, log, current, langs[0], fix);
      if a.error.Some? then a
      else Then(a, LanguagesFrom(respond, log + a.calls, current', langs[1..], fix))
  }

  /** `importLanguagesAsync`: the listing is sent without a `catch`. */
  function LanguagesRun(respond: Respond, log: seq<Call>, langs: seq<Json>, fix: bool): Outcome {
    match respond(log, ListLanguages)
    case Fail(e) => Outcome([ListLanguages], [], [], Some(Unhandled(e)))
    case Ok(resp) => Then(Outcome([ListLanguages], [], [], None), LanguagesFrom(respond, log + [ListLanguages], resp.languages, langs, fix))
  }

  // ---------------------------------------------------------------- properties

  /** A call that was refused is the last one sent. */
  lemma {:induction false} SendRawFailureEnds(respond: Respond, log: seq<Call>, calls: seq<Call>)
    ensures FailureEnds(respond, log, SendRaw(respond, log, calls))
    decreases |calls|
  {
    if |calls| > 0 {
      var head := Outcome([calls[0]], [], [], None);
      assert log + head.calls[..0] == log;
      if respond(log, calls[0]).Ok? {
        SendRawFailureEnds(respond, log + [calls[0]], calls[1..]);
        FailureEndsThen(respond, log, head, SendRaw(respond, log + [calls[0]], calls[1..]));
      }
    }
  }

  /** What one turn of the language loop may send, record and throw. */
  predicate TurnShape(respond: Respond, log: seq<Call>, lang: Json, fix: bool, a: Outcome) {
    && AtRank(a.calls, 1) && a.reported == [] && FailureEnds(respond, log, a)
    && (!fix ==> forall i :: 0 <= i < |a.calls| ==> a.calls[i].AddLanguage?)
    && (forall i :: 0 <= i < |a.results| ==> a.results[i].original == OJson(lang) && a.results[i].originalId == StrField(lang, "id"))
  }

  lemma DecideShape(respond: Respond, log: seq<Call>, current: seq<LanguageModel>, lang: Json, fix: bool)
    ensures TurnShape(respond, log, lang, fix, Decide(respond, log, current, lang))
  {
    var a := Decide(respond, log, current, lang);
    assert |a.calls| == 1 ==> log + a.calls[..0] == log;
  }

  /** A stretch of language calls that records and reports nothing. */
  predicate Plain(respond: Respond, log: seq<Call>, a: Outcome) {
    AtRank(a.calls, 1) && a.reported == [] && a.results == [] && FailureEnds(respond, log, a)
  }

  lemma PlainThen(respond: Respond, log: seq<Call>, a: Outcome, b: Outcome)
    requires a.error.None? && Plain(respond, log, a) && Plain(respond, log + a.calls, b)
    ensures Plain(respond, log, Then(a, b))
  {
    FailureEndsThen(respond, log, a, b);
    var o := Then(a, b);
    forall i | 0 <= i < |o.calls| ensures Rank(o.calls[i]) == 1 {
      if i >= |a.calls| {
        assert o.calls[i] == b.calls[i - |a.calls|];
      }
    }
  }

  /** The fixes of one language are sent as plain language calls. */
  lemma FixesPlain(respond: Respond, log: seq<Call>, current: seq<LanguageModel>, lang: Json)
    ensures Plain(respond, log, SendRaw(respond, log, FixLanguage(current, lang).calls))
  {
    var plan := FixLanguage(current, lang);
    var sent := SendRaw(respond, log, plan.calls);
    SendRawFailureEnds(respond, log, plan.calls);
    forall i | 0 <= i < |sent.calls| ensures Rank(sent.calls[i]) == 1 {
      assert sent.calls[i] == plan.calls[i] && plan.calls[i] in plan.calls;
    }
  }

  /** The new listing after the fixes. */
  lemma RelistPlain(respond: Respond, log: seq<Call>)
    ensures var relist := match respond(log, ListLanguages)
        case Fail(e) => Outcome([ListLanguages], [], [], Some(Unhandled(e)))
        case Ok(_) => Outcome([ListLanguages], [], [], None);
      Plain(respond, log, relist)
  {
    assert log + [ListLanguages][..0] == log;
  }

  lemma FixAndRelistShape(respond: Respond, log: seq<Call>, current: seq<LanguageModel>, lang: Json)
    ensures Plain(respond, log, FixAndRelist(respond, log, current, lang).0)
  {
    var plan := FixLanguage(current, lang);
    var sent := SendRaw(respond, log, plan.calls);
    FixesPlain(respond, log, current, lang);
    if sent.error.None? {
      if plan.error.Some? {
        PlainThen(respond, log, sent, Stop(plan.error.value));
      } else {
        RelistPlain(respond, log + sent.calls);
        var relist := match respond(log + sent.calls, ListLanguages)
          case Fail(e) => Outcome([ListLanguages], [], [], Some(Unhandled(e)))
          case Ok(_) => Outcome([ListLanguages], [], [], None);
        PlainThen(respond, log, sent, relist);
      }
    }
  }

  lemma TurnShapeThen(respond: Respond, log: seq<Call>, lang: Json, a: Outcome, b: Outcome)
    requires a.error.None? && Plain(respond, log, a)
    requires TurnShape(respond, log + a.calls, lang, true, b)
    ensures TurnShape(respond, log, lang, true, Then(a, b))
  {
    FailureEndsThen(respond, log, a, b);
    assert forall i :: 0 <= i < |a.calls + b.calls| ==> (a.calls + b.calls)[i] == if i < |a.calls| then a.calls[i] else b.calls[i - |a.calls|];
    assert a.results + b.results == b.results;
  }

  lemma LanguageTurnShape(respond: Respond, log: seq<Call>, current: seq<LanguageModel>, lang: Json, fix: bool)
    ensures TurnShape(respond, log, lang, fix, LanguageTurn(respond, log, current, lang, fix).0)
  {
    if !lang.JNull? {
      if !fix {
        DecideShape(respond, log, current, lang, fix);
      } else {
        var (head, current') := FixAndRelist(respond, log, current, lang);
        FixAndRelistShape(respond, log, current, lang);
        if head.error.None? {
          DecideShape(respond, log + head.calls, current', lang, true);
          TurnShapeThen(respond, log, lang, head, Decide(respond, log + head.calls, current', lang));
        }
      }
    }
  }

  /** What the loop over the exported languages may send, record and throw. */
  predicate LoopShape(respond: Respond, log: seq<Call>, langs: seq<Json>, fix: bool, o: Outcome) {
    && AtRank(o.calls, 1) && o.reported == [] && FailureEnds(respond, log, o)
    && (!fix ==> forall i :: 0 <= i < |o.calls| ==> o.calls[i].AddLanguage?)
    && (forall i :: 0 <= i < |o.results| ==>
          exists j :: 0 <= j < |langs| && o.results[i].original == OJson(langs[j]) && o.results[i].originalId == StrField(langs[j], "id"))
  }

  lemma LoopShapeThen(respond: Respond, log: seq<Call>, langs: seq<Json>, fix: bool, a: Outcome, b: Outcome)
    requires |langs| > 0 && a.error.None?
    requires TurnShape(respond, log, langs[0], fix, a)
    requires LoopShape(respond, log + a.calls, langs[1..], fix, b)
    ensures LoopShape(respond, log, langs, fix, Then(a, b))
  {
    FailureEndsThen(respond, log, a, b);
    var o := Then(a, b);
    assert forall i :: 0 <= i < |o.calls| ==> o.calls[i] == if i < |a.calls| then a.calls[i] else b.calls[i - |a.calls|];
    forall i | 0 <= i < |o.results|
      ensures exists j :: 0 <= j < |langs| && o.results[i].original == OJson(langs[j]) && o.results[i].originalId == StrField(langs[j], "id")
    {
      if i < |a.results| {
        assert o.results[i] == a.results[i];
        assert o.results[i].original == OJson(langs[0]) && o.results[i].originalId == StrField(langs[0], "id");
      } else {
        assert o.results[i] == b.results[i - |a.results|];
        var j :| 0 <= j < |langs[1..]| && b.results[i - |a.results|].original == OJson(langs[1..][j])
          && b.results[i - |a.results|].originalId == StrField(langs[1..][j], "id");
        assert langs[1..][j] == langs[j + 1];
      }
    }
  }

  lemma {:induction false} LanguagesFromShape(respond: Respond, log: seq<Call>, current: seq<LanguageModel>, langs: seq<Json>, fix: bool)
    ensures LoopShape(respond, log, langs, fix, LanguagesFrom(respond, log, current, langs, fix))
    decreases |langs|
  {
    if |langs| > 0 {
      var (a, current') := LanguageTurn(respond, log, current, langs[0], fix);
      LanguageTurnShape(respond, log, current, langs[0], fix);
      if a.error.None? {
        LanguagesFromShape(respond, log + a.calls, current', langs[1..], fix);
        LoopShapeThen(respond, log, langs, fix, a, LanguagesFrom(respond, log + a.calls, current', langs[1..], fix));
      } else {
        forall i | 0 <= i < |a.results|
          ensures exists j :: 0 <= j < |langs| && a.results[i].original == OJson(langs[j]) && a.results[i].originalId == StrField(langs[j], "id")
        {
          assert a.results[i].original == OJson(langs[0]);
        }
      }
    }
  }

  /**
   * `importLanguagesAsync` sends language calls only; a refused call is the last one; every
   * result records one of the exported languages by its id; and without `fixLanguages` it
   * lists the languages once, first, and then only adds languages.
   */
  lemma LanguagesRunShape(respond: Respond, log: seq<Call>, langs: seq<Json>, fix: bool)
    ensures var o := LanguagesRun(respond, log, langs, fix);
      && AtRank(o.calls, 1) && o.reported == [] && FailureEnds(respond, log, o)
      && |o.calls| > 0 && o.calls[0] == ListLanguages
      && (!fix ==> forall i :: 0 < i < |o.calls| ==> o.calls[i].AddLanguage?)
      && (forall i :: 0 <= i < |o.results| ==>
            exists j :: 0 <= j < |langs| && o.results[i].original == OJson(langs[j]) && o.results[i].originalId == StrField(langs[j], "id"))
  {
    var head := Outcome([ListLanguages], [], [], None);
    assert log + head.calls[..0] == log;
    match respond(log, ListLanguages)
    case Fail(e) =>
    case Ok(resp) =>
      var rest := LanguagesFrom(respond, log + [ListLanguages], resp.languages, langs, fix);
      LanguagesFromShape(respond, log + [ListLanguages], resp.languages, langs, fix);
      ListingThen(respond, log, langs, fix, rest);
  }

  /** The answered listing, and then the loop. */
  lemma ListingThen(respond: Respond, log: seq<Call>, langs: seq<Json>, fix: bool, rest: Outcome)
    requires respond(log, ListLanguages).Ok?
    requires LoopShape(respond, log + [ListLanguages], langs, fix, rest)
    ensures var o := Then(Outcome([ListLanguages], [], [], None), rest);
      && AtRank(o.calls, 1) && o.reported == [] && FailureEnds(respond, log, o)
      && |o.calls| > 0 && o.calls[0] == ListLanguages
      && (!fix ==> forall i :: 0 < i < |o.calls| ==> o.calls[i].AddLanguage?)
      && (forall i :: 0 <= i < |o.results| ==>
            exists j :: 0 <= j < |langs| && o.results[i].original == OJson(langs[j]) && o.results[i].originalId == StrField(langs[j], "id"))
  {
    var head := Outcome([ListLanguages], [], [], None);
    assert log + head.calls[..0] == log;
    FailureEndsThen(respond, log, head, rest);
    var o := Then(head, rest);
    assert forall i :: 0 < i < |o.calls| ==> o.calls[i] == rest.calls[i - 1];
    assert o.results == rest.results;
    assert forall i :: 0 <= i < |rest.results| ==>
      exists j :: 0 <= j < |langs| && rest.results[i].original == OJson(langs[j]) && rest.results[i].originalId == StrField(langs[j], "id");
    forall i | 0 <= i < |o.results|
      ensures exists j :: 0 <= j < |langs| && o.results[i].original == OJson(langs[j]) && o.results[i].originalId == StrField(langs[j], "id")
    {
      var j :| 0 <= j < |langs| && rest.results[i].original == OJson(langs[j]) && rest.results[i].originalId == StrField(langs[j], "id");
    }
  }

  // ---------------------------------------------------------------- against the client

  /** One turn of the sending loop, in the middle of the list. */
  lemma SendRawTurn(respond: Respond, log0: seq<Call>, o: Outcome, calls: seq<Call>, i: nat)
    requires i < |calls|
    requires SendRaw(respond, log0, calls) == Then(o, SendRaw(respond, log0 + o.calls, calls[i..]))
    ensures var head := Outcome([calls[i]], [], [], None);
      match respond(log0 + o.calls, calls[i])
      case Fail(e) => SendRaw(respond, log0, calls) == Then(o, Outcome([calls[i]], [], [], Some(Unhandled(e))))
      case Ok(_) => SendRaw(respond, log0, calls) == Then(Then(o, head), SendRaw(respond, log0 + Then(o, head).calls, calls[i + 1..]))
  {
    var head := Outcome([calls[i]], [], [], None);
    assert calls[i..][0] == calls[i] && calls[i..][1..] == calls[i + 1..];
    if respond(log0 + o.calls, calls[i]).Ok? {
      ThenAssoc(o, head, SendRaw(respond, log0 + o.calls + [calls[i]], calls[i + 1..]));
      LogAfter(log0, o, head);
    }
  }

  /** Sends `calls` in order, stopping at the first refusal. */
  method SendAll(client: Client, calls: seq<Call>) returns (o: Outcome)
    modifies client
    ensures o == SendRaw(client.respond, old(client.log), calls)
    ensures client.log == old(client.log) + o.calls
  {
    var log0 := client.log;
    o := Done();
    var i := 0;
    while i < |calls|
      invariant i <= |calls| && o.error.None? && o.results == [] && o.reported == []
      invariant o.calls == calls[..i] && client.log == log0 + o.calls
      invariant SendRaw(client.respond, log0, calls) == Then(o, SendRaw(client.respond, log0 + o.calls, calls[i..]))
    {
      SendRawTurn(client.respond, log0, o, calls, i);
      var head := Outcome([calls[i]], [], [], None);
      var answer := client.Send(calls[i]);
      LogAfter(log0, o, head);
      if answer.Fail? {
        o := Then(o, Outcome([calls[i]], [], [], Some(Unhandled(answer.error))));
        return;
      }
      assert calls[..i + 1] == calls[..i] + [calls[i]];
      o := Then(o, head);
      i := i + 1;
    }
    assert calls[i..] == [] && calls[..i] == calls;
  }

  /** `tryGetLanguage` and the addition, against the client. */
  method DecideLanguage(client: Client, current: seq<LanguageModel>, lang: Json) returns (o: Outcome)
    modifies client
    ensures o == Decide(client.respond, old(client.log), current, lang)
    ensures client.log == old(client.log) + o.calls
  {
    var decision := TryGetLanguage(current, lang);
    if decision.Fail? {
      return Stop(decision.error);
    }
    if decision.value.NoImport? {
      return Done();
    }
    var c := AddLanguage(decision.value.data);
    var answer := client.Send(c);
    if answer.Fail? {
      return Outcome([c], [], [], Some(Handled(answer.error)));
    }
    o := Outcome([c], [LanguageRecord(lang, answer.value)], [], None);
  }

  /** The fixes of one language and the new listing, against the client. */
  method FixAndRelistLanguages(client: Client, current: seq<LanguageModel>, lang: Json) returns (o: Outcome, current': seq<LanguageModel>)
    modifies client
    ensures (o, current') == FixAndRelist(client.respond, old(client.log), current, lang)
    ensures client.log == old(client.log) + o.calls
  {
    var plan := FixLanguage(current, lang);
    var sent := SendAll(client, plan.calls);
    if sent.error.Some? {
      return sent, current;
    }
    if plan.error.Some? {
      return Then(sent, Stop(plan.error.value)), current;
    }
    var relist := client.Send(ListLanguages);
    if relist.Fail? {
      return Then(sent, Outcome([ListLanguages], [], [], Some(Unhandled(relist.error)))), current;
    }
    o, current' := Then(sent, Outcome([ListLanguages], [], [], None)), relist.value.languages;
  }

  /** One turn of the language loop, against the client. */
  method ImportLanguage(client: Client, current: seq<LanguageModel>, lang: Json, fix: bool) returns (o: Outcome, current': seq<LanguageModel>)
    modifies client
    ensures (o, current') == LanguageTurn(client.respond, old(client.log), current, lang, fix)
    ensures client.log == old(client.log) + o.calls
  {
    var log0 := client.log;
    current' := current;
    if lang.JNull? {
      o := Stop(NullLanguageError(current, fix));
      return;
    }
    if !fix {
      o := DecideLanguage(client, current, lang);
      return;
    }
    var head;
    head, current' := FixAndRelistLanguages(client, current, lang);
    if head.error.Some? {
      o := head;
      return;
    }
    var decided := DecideLanguage(client, current', lang);
    TurnFixed(client.respond, log0, current, lang, head, current', decided);
    LogAfter(log0, head, decided);
    o := Then(head, decided);
  }

  lemma TurnFixed(respond: Respond, log: seq<Call>, current: seq<LanguageModel>, lang: Json,
    head: Outcome, current': seq<LanguageModel>, decided: Outcome)
    requires !lang.JNull? && (head, current') == FixAndRelist(respond, log, current, lang) && head.error.None?
    requires decided == Decide(respond, log + head.calls, current', lang)
    ensures LanguageTurn(respond, log, current, lang, true) == (Then(head, decided), current')
  {
  }

  /** One turn of the language loop, as a step of `LanguagesFrom`. */
  method ImportLanguageAt(client: Client, current: seq<LanguageModel>, langs: seq<Json>, i: nat, fix: bool)
    returns (a: Outcome, current': seq<LanguageModel>)
    requires i < |langs|
    modifies client
    ensures client.log == old(client.log) + a.calls
    ensures a.error.Some? ==> LanguagesFrom(client.respond, old(client.log), current, langs[i..], fix) == a
    ensures a.error.None? ==> (LanguagesFrom(client.respond, old(client.log), current, langs[i..], fix)
      == Then(a, LanguagesFrom(client.respond, old(client.log) + a.calls, current', langs[i + 1..], fix)))
  {
    assert langs[i..][0] == langs[i] && langs[i..][1..] == langs[i + 1..];
    a, current' := ImportLanguage(client, current, langs[i], fix);
  }

  lemma LanguagesFromEnd(respond: Respond, log0: seq<Call>, acc: Outcome, current: seq<LanguageModel>, langs: seq<Json>, fix: bool)
    requires acc.error.None?
    requires LanguagesRun(respond, log0, langs, fix) == Then(acc, LanguagesFrom(respond, log0 + acc.calls, current, langs[|langs|..], fix))
    ensures LanguagesRun(respond, log0, langs, fix) == acc
  {
    assert langs[|langs|..] == [];
    assert acc.calls + [] == acc.calls && acc.results + [] == acc.results && acc.reported + [] == acc.reported;
  }

  lemma LanguagesRunStart(respond: Respond, log0: seq<Call>, langs: seq<Json>, fix: bool, resp: Response)
    requires respond(log0, ListLanguages) == Ok(resp)
    ensures LanguagesRun(respond, log0, langs, fix)
      == Then(Outcome([ListLanguages], [], [], None), LanguagesFrom(respond, log0 + [ListLanguages], resp.languages, langs[0..], fix))
  {
    assert langs[0..] == langs;
  }

  /** `importLanguagesAsync`, against the client. */
  method ImportLanguages(client: Client, langs: seq<Json>, fix: bool) returns (o: Outcome)
    modifies client
    ensures o == LanguagesRun(client.respond, old(client.log), langs, fix)
    ensures client.log == old(client.log) + o.calls
  {
    var log0 := client.log;
    var listed := client.Send(ListLanguages);
    if listed.Fail? {
      return Outcome([ListLanguages], [], [], Some(Unhandled(listed.error)));
    }
    var current := listed.value.languages;
    o := Outcome([ListLanguages], [], [], None);
    LanguagesRunStart(client.respond, log0, langs, fix, listed.value);
    var i := 0;
    while i < |langs|
      invariant i <= |langs| && o.error.None?
      invariant client.log == log0 + o.calls
      invariant LanguagesRun(client.respond, log0, langs, fix) == Then(o, LanguagesFrom(client.respond, log0 + o.calls, current, langs[i..], fix))
    {
      var a, current' := ImportLanguageAt(client, current, langs, i, fix);
      LogAfter(log0, o, a);
      if a.error.Some? {
        o := Then(o, a);
        return;
      }
      ThenAssoc(o, a, LanguagesFrom(client.respond, log0 + o.calls + a.calls, current', langs[i + 1..], fix));
      o := Then(o, a);
      current := current';
      i := i + 1;
    }
    LanguagesFromEnd(client.respond, log0, o, current, langs, fix);
  }
}
