/**
 * Properties of one invocation of the story-analysis handler (StoryWorker.Run):
 * validation, the lifecycle order of the row's status, agreement between the reply and
 * the final row, and the outcome when a job-log call fails after the result is stored.
 */
module StoryWorkerProofs {
  import opened Wrappers
  import opened Text
  import opened Json
  import opened StoryWorker

  /** A call that touches neither the analysis row nor the model: a job-log call. */
  predicate Neutral(e: Event) {
    !e.UpdateStory? && !e.GenerateContent?
  }

  /** The lifecycle stage and the row are as before `w1`'s extra calls. */
  ghost predicate SameState(w: World, w1: World) {
    Monitor(w1.events) == Monitor(w.events) && forall r :: ApplyAll(r, w1.events) == ApplyAll(r, w.events)
  }

  /** The row after an update aimed at `target`: written only when `target` is a number. */
  function Aimed(target: Option<int>, r: Row, u: StoryUpdate): Row {
    if target.Some? then Updated(r, u) else r
  }

  lemma Snoc(es: seq<Event>, e: Event)
    ensures Monitor(es + [e]) == (if Monitor(es).Some? then Advance(Monitor(es).value, e) else None)
    ensures forall r :: ApplyAll(r, es + [e]) == ApplyEvent(ApplyAll(r, es), e)
  {
    assert (es + [e])[..|es|] == es;
  }

  /** `Snoc` for one starting row. */
  lemma SnocRow(es: seq<Event>, e: Event, r: Row)
    ensures Monitor(es + [e]) == (if Monitor(es).Some? then Advance(Monitor(es).value, e) else None)
    ensures ApplyAll(r, es + [e]) == ApplyEvent(ApplyAll(r, es), e)
  {
    assert (es + [e])[..|es|] == es;
  }

  lemma AttemptNeutral(cond: bool, w: World, e: Event, faults: map<nat, string>)
    requires Neutral(e)
    ensures SameState(w, AttemptIf(cond, w, e, faults).0)
  {
    if cond && w.calls !in faults {
      Snoc(w.events, e);
    }
  }

  lemma AttemptBothNeutral(cond: bool, w: World, e1: Event, e2: Event, faults: map<nat, string>)
    requires Neutral(e1) && Neutral(e2)
    ensures SameState(w, AttemptBoth(cond, w, e1, e2, faults).0)
  {
    var (w1, err) := AttemptIf(cond, w, e1, faults);
    AttemptNeutral(cond, w, e1, faults);
    if err.None? {
      var w2 := AttemptIf(cond, w1, e2, faults).0;
      AttemptNeutral(cond, w1, e2, faults);
      assert AttemptBoth(cond, w, e1, e2, faults).0 == w2;
      SameStateTrans(w, w1, w2);
    }
  }

  lemma SameStateTrans(w: World, w1: World, w2: World)
    requires SameState(w, w1) && SameState(w1, w2)
    ensures SameState(w, w2)
  {
  }

  lemma OpenLogStepFacts(w: World, emiten: string, sv: Services)
    ensures SameState(w, OpenLogStep(w, emiten, sv).0)
  {
    var (w1, err) := Attempt(w, CreateJobLog("analyze-story", 1), sv.faults);
    AttemptNeutral(true, w, CreateJobLog("analyze-story", 1), sv.faults);
    if err.None? {
      AttemptNeutral(LogOn(Some(sv.jobLogId)), w1,
        AppendJobLog(sv.jobLogId, Info, Starting, emiten, None, None), sv.faults);
    }
  }

  lemma NoKeyStepFacts(w: World, target: Option<int>, jobLogId: Option<int>, faults: map<nat, string>)
    requires Monitor(w.events).Some?
    ensures var (w1, s) := NoKeyStep(w, target, jobLogId, faults);
      && Monitor(w1.events).Some?
      && (s.Returned? ==>
            && s.reply == ApiKeyMissing
            && Monitor(w1.events) == Some(Concluded)
            && (forall r :: ApplyAll(r, w1.events)
                  == Aimed(target, ApplyAll(r, w.events), MarkError(NoKeyRecordMessage))))
  {
    var e := UpdateStory(target, MarkError(NoKeyRecordMessage));
    var (w1, e1) := Attempt(w, e, faults);
    if e1.None? {
      Snoc(w.events, e);
      AttemptNeutral(LogOn(jobLogId), w1,
        CloseJobLog(jobLogId.GetOr(0), LogFailed, Some(NoKeyRecordMessage), None, None), faults);
    }
  }

  lemma GenerateStepFacts(w: World, emiten: string, target: Option<int>, jobLogId: Option<int>,
                          sourceCount: nat, faults: map<nat, string>)
    requires Monitor(w.events) == Some(Untouched)
    ensures var (w1, err) := GenerateStep(w, emiten, target, jobLogId, sourceCount, faults);
      && Monitor(w1.events).Some?
      && (err.None? ==>
            && Monitor(w1.events) == Some(Called)
            && (forall r :: ApplyAll(r, w1.events) == Aimed(target, ApplyAll(r, w.events), MarkProcessing)))
  {
    var (w1, e1) := MarkStep(w, emiten, target, jobLogId, faults);
    MarkStepFacts(w, emiten, target, jobLogId, faults);
    if e1.None? {
      CallModelStepFacts(w1, emiten, jobLogId, sourceCount, faults);
    }
  }

  lemma MarkStepFacts(w: World, emiten: string, target: Option<int>, jobLogId: Option<int>,
                      faults: map<nat, string>)
    requires Monitor(w.events) == Some(Untouched)
    ensures var (w1, err) := MarkStep(w, emiten, target, jobLogId, faults);
      && Monitor(w1.events).Some?
      && (err.None? ==>
            && Monitor(w1.events) == Some(Marked)
            && (forall r :: ApplyAll(r, w1.events) == Aimed(target, ApplyAll(r, w.events), MarkProcessing)))
  {
    var mark := UpdateStory(target, MarkProcessing);
    var (w1, e1) := Attempt(w, mark, faults);
    if e1.None? {
      Snoc(w.events, mark);
      AttemptNeutral(LogOn(jobLogId), w1, AppendJobLog(jobLogId.GetOr(0), Info, Analyzing, emiten, None, None), faults);
    }
  }

  lemma CallModelStepFacts(w: World, emiten: string, jobLogId: Option<int>, sourceCount: nat,
                           faults: map<nat, string>)
    requires Monitor(w.events) == Some(Marked)
    ensures var (w1, err) := CallModelStep(w, emiten, jobLogId, sourceCount, faults);
      && Monitor(w1.events).Some?
      && (err.None? ==> Monitor(w1.events) == Some(Called))
      && (forall r :: ApplyAll(r, w1.events) == ApplyAll(r, w.events))
  {
    var (w1, e1) := Attempt(w, GenerateContent(emiten), faults);
    if e1.None? {
      Snoc(w.events, GenerateContent(emiten));
      AttemptNeutral(LogOn(jobLogId), w1,
        AppendJobLog(jobLogId.GetOr(0), Info, ResponseReceived(sourceCount), emiten, None, None), faults);
    }
  }

  /** The reply the conclusion returns when none of its calls throws. */
  function ConcludedReply(emiten: string, text: string, sv: Services): Reply {
    if ParsedPayload(text, sv.parse).None? then ParseFailed else Succeeded(emiten)
  }

  lemma ConcludeStepFacts(w: World, emiten: string, target: Option<int>, jobLogId: Option<int>,
                          sources: seq<Citation>, text: string, sv: Services)
    requires Monitor(w.events) == Some(Called)
    ensures var (w1, s) := ConcludeStep(w, emiten, target, jobLogId, sources, text, sv);
      && Monitor(w1.events).Some?
      && (s.Returned? ==> s.reply == ConcludedReply(emiten, text, sv) && Monitor(w1.events) == Some(Concluded))
      && (s.Returned? && s.reply == ParseFailed ==>
            forall r :: ApplyAll(r, w1.events)
              == Aimed(target, ApplyAll(r, w.events), MarkError(ParseFailureMessage)))
      && (s.Returned? && s.reply.Succeeded? ==>
            forall r :: ApplyAll(r, w1.events)
              == Aimed(target, ApplyAll(r, w.events),
                   MarkCompleted(Defaulted(ParsedPayload(text, sv.parse).value, sources))))
  {
    match ParsedPayload(text, sv.parse)
    case None =>
      ParseFailureStepFacts(w, emiten, target, jobLogId, text, sv.faults);
    case Some(obj) =>
      StoreStepFacts(w, emiten, target, jobLogId, Defaulted(obj, sources), |sources|, sv.faults);
  }

  lemma ParseFailureStepFacts(w: World, emiten: string, target: Option<int>, jobLogId: Option<int>,
                              text: string, faults: map<nat, string>)
    requires Monitor(w.events).Some?
    ensures var (w1, s) := ParseFailureStep(w, emiten, target, jobLogId, text, faults);
      && Monitor(w1.events).Some?
      && (s.Returned? ==>
            && s.reply == ParseFailed
            && Monitor(w1.events) == Some(Concluded)
            && (forall r :: ApplyAll(r, w1.events)
                  == Aimed(target, ApplyAll(r, w.events), MarkError(ParseFailureMessage))))
  {
    var jid := jobLogId.GetOr(0);
    var e := UpdateStory(target, MarkError(ParseFailureMessage));
    var (w1, e1) := Attempt(w, e, faults);
    if e1.None? {
      Snoc(w.events, e);
      AttemptBothNeutral(LogOn(jobLogId), w1,
        AppendJobLog(jid, ErrorLevel, ParseFailure, emiten, Some(RawPrefix(text)), None),
        CloseJobLog(jid, LogFailed, Some(ParseFailureMessage), None, None), faults);
    }
  }

  lemma StoreStepFacts(w: World, emiten: string, target: Option<int>, jobLogId: Option<int>,
                       analysis: Analysis, sourceCount: nat, faults: map<nat, string>)
    requires Monitor(w.events) == Some(Called)
    ensures var (w1, s) := StoreStep(w, emiten, target, jobLogId, analysis, sourceCount, faults);
      && Monitor(w1.events).Some?
      && (s.Returned? ==>
            && s.reply == Succeeded(emiten)
            && Monitor(w1.events) == Some(Concluded)
            && (forall r :: ApplyAll(r, w1.events)
                  == Aimed(target, ApplyAll(r, w.events), MarkCompleted(analysis))))
  {
    var jid := jobLogId.GetOr(0);
    var e := UpdateStory(target, MarkCompleted(analysis));
    var (w1, e1) := Attempt(w, e, faults);
    if e1.None? {
      Snoc(w.events, e);
      AttemptBothNeutral(LogOn(jobLogId), w1,
        AppendJobLog(jid, Info, Finished, emiten, None, Some(sourceCount)),
        CloseJobLog(jid, LogCompleted, None, Some(1), Some(sourceCount)), faults);
    }
  }

  lemma RecoverStepFacts(w: World, emiten: string, target: Option<int>, jobLogId: Option<int>,
                         msg: string, faults: map<nat, string>, r: Row)
    requires Monitor(w.events).Some?
    ensures var (w1, out) := RecoverStep(w, emiten, true, target, jobLogId, msg, faults);
      && Monitor(w1.events).Some?
      && (out.Respond? ==>
            && out.reply == Failed(msg)
            && Monitor(w1.events) == Some(Concluded)
            && ApplyAll(r, w1.events) == Aimed(target, ApplyAll(r, w.events), MarkError(msg)))
  {
    var jid := jobLogId.GetOr(0);
    var log := AppendJobLog(jid, ErrorLevel, AnalysisFailed(msg), emiten, None, None);
    var close := CloseJobLog(jid, LogFailed, Some(msg), None, None);
    var (w2, e2) := AttemptBoth(LogOn(jobLogId), w, log, close, faults);
    AttemptBothNeutral(LogOn(jobLogId), w, log, close, faults);
    assert ApplyAll(r, w2.events) == ApplyAll(r, w.events);
    if e2.None? && w2.calls !in faults {
      var e := UpdateStory(target, MarkError(msg));
      SnocRow(w2.events, e, r);
      assert RecoverStep(w, emiten, true, target, jobLogId, msg, faults) == (World(w2.calls + 1, w2.events + [e]), Respond(Failed(msg)));
    }
  }

  lemma SymbolPresent(req: Request)
    ensures Present(Symbol(req)) <==> Present(req.emiten)
  {
    if req.emiten.Some? {
      assert |ToUpper(req.emiten.value)| == |req.emiten.value|;
    }
  }

  /**
   * The handler answers 400 exactly when `emiten` or `id` is missing or empty, and then
   * it makes no external call at all.
   */
  lemma MissingParamsIff(req: Request, sv: Services)
    ensures Run(req, sv).1 == Respond(MissingParams) <==> !Present(req.emiten) || !Present(req.id)
    ensures Run(req, sv).1 == Respond(MissingParams) ==> Run(req, sv).0 == World(0, [])
  {
    SymbolPresent(req);
    if Present(req.emiten) && Present(req.id) {
      var emiten := Symbol(req).value;
      var target := StoryTarget(req);
      var (w1, jobLogId) := OpenLogStep(World(0, []), emiten, sv);
      OpenLogStepFacts(World(0, []), emiten, sv);
      AnalyzeStepFacts(w1, emiten, target, jobLogId, sv, Row(Pending, None, None));
    }
  }

  /** The failure message each 500 reply leaves on the row (`None` for the other replies). */
  function RecordedMessage(reply: Reply): Option<string> {
    match reply
    case ApiKeyMissing => Some(NoKeyRecordMessage)
    case ParseFailed => Some(ParseFailureMessage)
    case Failed(m) => Some(m)
    case _ => None
  }

  /** The analysis the handler stores when the model's text parses. */
  function StoredAnalysis(sv: Services): Analysis {
    Defaulted(ParsedPayload(FullText(sv.response), sv.parse).GetOr(map[]), BuildSources(GroundingChunks(sv.response)))
  }

  /**
   * The row as a reply of the main `try` reports it, from the row before the invocation;
   * unchanged when the id is not a number.
   */
  function Settled(r: Row, target: Option<int>, reply: Reply, stored: Analysis): Row {
    if target.None? then r
    else if reply.Succeeded? then r.(status := Completed, analysis := Some(stored))
    else r.(status := Error, errorMessage := RecordedMessage(reply))
  }

  lemma AnalyzeStepFacts(w: World, emiten: string, target: Option<int>, jobLogId: Option<int>, sv: Services,
                         r: Row)
    requires Monitor(w.events) == Some(Untouched)
    ensures var (w1, s) := AnalyzeStep(w, emiten, target, jobLogId, sv);
      && Monitor(w1.events).Some?
      && (s.Returned? ==>
            && Monitor(w1.events) == Some(Concluded)
            && (s.reply.ApiKeyMissing? || s.reply.ParseFailed? || s.reply.Succeeded?)
            && ApplyAll(r, w1.events) == Settled(ApplyAll(r, w.events), target, s.reply, StoredAnalysis(sv)))
  {
    if !Present(sv.apiKey) {
      NoKeyStepFacts(w, target, jobLogId, sv.faults);
    } else {
      var sources := BuildSources(GroundingChunks(sv.response));
      var (wg, err) := GenerateStep(w, emiten, target, jobLogId, |sources|, sv.faults);
      GenerateStepFacts(w, emiten, target, jobLogId, |sources|, sv.faults);
      if err.None? {
        ConcludeStepFacts(wg, emiten, target, jobLogId, sources, FullText(sv.response), sv);
      }
    }
  }

  /**
   * Every invocation calls in lifecycle order (`processing` before the model, the model
   * before `completed`; an `error` may come at any point), and every reply other than
   * 400 is sent only once the row named by a numeric id holds the matching terminal
   * status: `completed` with the defaulted analysis for 200, `error` with the recorded
   * message for 500 (for a thrown error, `String(error)`).
   */
  lemma ReplyAgreesWithRow(req: Request, sv: Services, initial: Row)
    ensures Monitor(Run(req, sv).0.events).Some?
    ensures var (w, out) := Run(req, sv);
      var row := ApplyAll(initial, w.events);
      out.Respond? && out.reply != MissingParams ==>
        && Monitor(w.events) == Some(Concluded)
        && (StoryTarget(req).Some? && RecordedMessage(out.reply).Some? ==>
              row.status == Error && row.errorMessage == RecordedMessage(out.reply))
        && (StoryTarget(req).Some? && out.reply.Succeeded? ==>
              row == initial.(status := Completed, analysis := Some(StoredAnalysis(sv))))
  {
    var emiten := Symbol(req);
    if Present(emiten) && Present(req.id) {
      var target := StoryTarget(req);
      var w0 := World(0, []);
      var (w1, jobLogId) := OpenLogStep(w0, emiten.value, sv);
      OpenLogStepFacts(w0, emiten.value, sv);
      assert ApplyAll(initial, w1.events) == initial;
      TryAnalyzeFacts(w1, emiten.value, target, jobLogId, sv, initial);
    }
  }

  /** The main `try` and its `catch` settle the row as the reply reports. */
  lemma TryAnalyzeFacts(w: World, emiten: string, target: Option<int>, jobLogId: Option<int>, sv: Services,
                        initial: Row)
    requires Monitor(w.events) == Some(Untouched) && ApplyAll(initial, w.events) == initial
    ensures var (w1, out) := TryAnalyze(w, emiten, true, target, jobLogId, sv);
      var row := ApplyAll(initial, w1.events);
      && Monitor(w1.events).Some?
      && (out.Respond? ==>
            && out.reply != MissingParams
            && Monitor(w1.events) == Some(Concluded)
            && (target.Some? && RecordedMessage(out.reply).Some? ==>
                  row.status == Error && row.errorMessage == RecordedMessage(out.reply))
            && (target.Some? && out.reply.Succeeded? ==>
                  row == initial.(status := Completed, analysis := Some(StoredAnalysis(sv)))))
  {
    var (w1, step) := AnalyzeStep(w, emiten, target, jobLogId, sv);
    AnalyzeStepFacts(w, emiten, target, jobLogId, sv, initial);
    if step.Raised? {
      assert TryAnalyze(w, emiten, true, target, jobLogId, sv)
        == RecoverStep(w1, emiten, true, target, jobLogId, step.error, sv.faults);
      RecoverSettles(w1, emiten, target, jobLogId, step.error, sv.faults, initial);
    } else {
      assert TryAnalyze(w, emiten, true, target, jobLogId, sv) == (w1, Respond(step.reply));
      if target.Some? {
        SettledFields(initial, ApplyAll(initial, w1.events), target, step.reply, StoredAnalysis(sv));
      }
    }
  }

  lemma RecoverSettles(w: World, emiten: string, target: Option<int>, jobLogId: Option<int>,
                       msg: string, faults: map<nat, string>, initial: Row)
    requires Monitor(w.events).Some?
    ensures var (w1, out) := RecoverStep(w, emiten, true, target, jobLogId, msg, faults);
      && Monitor(w1.events).Some?
      && (out.Respond? ==>
            && out.reply == Failed(msg)
            && Monitor(w1.events) == Some(Concluded)
            && (target.Some? ==> ApplyAll(initial, w1.events).status == Error)
            && (target.Some? ==> ApplyAll(initial, w1.events).errorMessage == Some(msg)))
  {
    RecoverStepFacts(w, emiten, target, jobLogId, msg, faults, initial);
  }

  lemma SettledFields(initial: Row, row: Row, target: Option<int>, reply: Reply, stored: Analysis)
    requires row == Settled(initial, target, reply, stored) && target.Some?
    ensures RecordedMessage(reply).Some? ==> row.status == Error && row.errorMessage == RecordedMessage(reply)
    ensures reply.Succeeded? ==> row == initial.(status := Completed, analysis := Some(stored))
  {
  }

  /** Without an API key the model is never called. */
  lemma NoModelCallWithoutKey(req: Request, sv: Services)
    requires !Present(sv.apiKey)
    ensures NoModelCall(Run(req, sv).0.events)
  {
    var emiten := Symbol(req);
    if Present(emiten) && Present(req.id) {
      var target := StoryTarget(req);
      var w0 := World(0, []);
      var (w1, jobLogId) := OpenLogStep(w0, emiten.value, sv);
      OpenLogStepKeeps(w0, emiten.value, sv);
      var (w2, step) := NoKeyStep(w1, target, jobLogId, sv.faults);
      NoKeyStepKeeps(w1, target, jobLogId, sv.faults);
      if step.Raised? {
        RecoverStepKeeps(w2, emiten.value, target, jobLogId, step.error, sv.faults);
      }
    }
  }

  /** No event of `es` is a call to the model. */
  ghost predicate NoModelCall(es: seq<Event>) {
    forall x :: x in es ==> !x.GenerateContent?
  }

  lemma AttemptKeeps(cond: bool, w: World, e: Event, faults: map<nat, string>)
    requires NoModelCall(w.events) && !e.GenerateContent?
    ensures NoModelCall(AttemptIf(cond, w, e, faults).0.events)
  {
  }

  lemma OpenLogStepKeeps(w: World, emiten: string, sv: Services)
    requires NoModelCall(w.events)
    ensures NoModelCall(OpenLogStep(w, emiten, sv).0.events)
  {
    var (w1, err) := Attempt(w, CreateJobLog("analyze-story", 1), sv.faults);
    AttemptKeeps(true, w, CreateJobLog("analyze-story", 1), sv.faults);
    AttemptKeeps(LogOn(Some(sv.jobLogId)), w1,
      AppendJobLog(sv.jobLogId, Info, Starting, emiten, None, None), sv.faults);
  }

  lemma NoKeyStepKeeps(w: World, target: Option<int>, jobLogId: Option<int>, faults: map<nat, string>)
    requires NoModelCall(w.events)
    ensures NoModelCall(NoKeyStep(w, target, jobLogId, faults).0.events)
  {
    var (w1, e1) := Attempt(w, UpdateStory(target, MarkError(NoKeyRecordMessage)), faults);
    AttemptKeeps(true, w, UpdateStory(target, MarkError(NoKeyRecordMessage)), faults);
    AttemptKeeps(LogOn(jobLogId), w1,
      CloseJobLog(jobLogId.GetOr(0), LogFailed, Some(NoKeyRecordMessage), None, None), faults);
  }

  lemma RecoverStepKeeps(w: World, emiten: string, target: Option<int>, jobLogId: Option<int>,
                         msg: string, faults: map<nat, string>)
    requires NoModelCall(w.events)
    ensures NoModelCall(RecoverStep(w, emiten, true, target, jobLogId, msg, faults).0.events)
  {
    var jid := jobLogId.GetOr(0);
    var log := AppendJobLog(jid, ErrorLevel, AnalysisFailed(msg), emiten, None, None);
    var close := CloseJobLog(jid, LogFailed, Some(msg), None, None);
    var (w1, e1) := AttemptIf(LogOn(jobLogId), w, log, faults);
    AttemptKeeps(LogOn(jobLogId), w, log, faults);
    AttemptKeeps(LogOn(jobLogId), w1, close, faults);
    var (w2, e2) := AttemptBoth(LogOn(jobLogId), w, log, close, faults);
    AttemptKeeps(true, w2, UpdateStory(target, MarkError(msg)), faults);
  }

  /** Every story update of `es` selects the row `target`. */
  ghost predicate AimedAt(es: seq<Event>, target: Option<int>) {
    forall x :: x in es && x.UpdateStory? ==> x.storyId == target
  }

  lemma AttemptAims(cond: bool, w: World, e: Event, faults: map<nat, string>, target: Option<int>)
    requires AimedAt(w.events, target) && (e.UpdateStory? ==> e.storyId == target)
    ensures AimedAt(AttemptIf(cond, w, e, faults).0.events, target)
  {
  }

  lemma AttemptBothAims(cond: bool, w: World, e1: Event, e2: Event, faults: map<nat, string>, target: Option<int>)
    requires AimedAt(w.events, target) && !e1.UpdateStory? && !e2.UpdateStory?
    ensures AimedAt(AttemptBoth(cond, w, e1, e2, faults).0.events, target)
  {
    var (w1, err) := AttemptIf(cond, w, e1, faults);
    AttemptAims(cond, w, e1, faults, target);
    AttemptAims(cond, w1, e2, faults, target);
  }

  lemma OpenLogStepAims(w: World, emiten: string, sv: Services, target: Option<int>)
    requires AimedAt(w.events, target)
    ensures AimedAt(OpenLogStep(w, emiten, sv).0.events, target)
  {
    var (w1, err) := Attempt(w, CreateJobLog("analyze-story", 1), sv.faults);
    AttemptAims(true, w, CreateJobLog("analyze-story", 1), sv.faults, target);
    AttemptAims(LogOn(Some(sv.jobLogId)), w1,
      AppendJobLog(sv.jobLogId, Info, Starting, emiten, None, None), sv.faults, target);
  }

  lemma AnalyzeStepAims(w: World, emiten: string, target: Option<int>, jobLogId: Option<int>, sv: Services)
    requires AimedAt(w.events, target)
    ensures AimedAt(AnalyzeStep(w, emiten, target, jobLogId, sv).0.events, target)
  {
    var jid := jobLogId.GetOr(0);
    if !Present(sv.apiKey) {
      var (w1, e1) := Attempt(w, UpdateStory(target, MarkError(NoKeyRecordMessage)), sv.faults);
      AttemptAims(true, w, UpdateStory(target, MarkError(NoKeyRecordMessage)), sv.faults, target);
      AttemptAims(LogOn(jobLogId), w1, CloseJobLog(jid, LogFailed, Some(NoKeyRecordMessage), None, None), sv.faults, target);
    } else {
      var sources := BuildSources(GroundingChunks(sv.response));
      var (wg, err) := GenerateStep(w, emiten, target, jobLogId, |sources|, sv.faults);
      GenerateStepAims(w, emiten, target, jobLogId, |sources|, sv.faults);
      if err.None? {
        ConcludeStepAims(wg, emiten, target, jobLogId, sources, FullText(sv.response), sv);
      }
    }
  }

  lemma GenerateStepAims(w: World, emiten: string, target: Option<int>, jobLogId: Option<int>,
                         sourceCount: nat, faults: map<nat, string>)
    requires AimedAt(w.events, target)
    ensures AimedAt(GenerateStep(w, emiten, target, jobLogId, sourceCount, faults).0.events, target)
  {
    var jid := jobLogId.GetOr(0);
    var (w1, e1) := Attempt(w, UpdateStory(target, MarkProcessing), faults);
    AttemptAims(true, w, UpdateStory(target, MarkProcessing), faults, target);
    var (w2, e2) := AttemptIf(LogOn(jobLogId), w1, AppendJobLog(jid, Info, Analyzing, emiten, None, None), faults);
    AttemptAims(LogOn(jobLogId), w1, AppendJobLog(jid, Info, Analyzing, emiten, None, None), faults, target);
    var (w3, e3) := Attempt(w2, GenerateContent(emiten), faults);
    AttemptAims(true, w2, GenerateContent(emiten), faults, target);
    AttemptAims(LogOn(jobLogId), w3,
      AppendJobLog(jid, Info, ResponseReceived(sourceCount), emiten, None, None), faults, target);
  }

  lemma ConcludeStepAims(w: World, emiten: string, target: Option<int>, jobLogId: Option<int>,
                         sources: seq<Citation>, text: string, sv: Services)
    requires AimedAt(w.events, target)
    ensures AimedAt(ConcludeStep(w, emiten, target, jobLogId, sources, text, sv).0.events, target)
  {
    var jid := jobLogId.GetOr(0);
    var e := match ParsedPayload(text, sv.parse)
      case None => UpdateStory(target, MarkError(ParseFailureMessage))
      case Some(obj) => UpdateStory(target, MarkCompleted(Defaulted(obj, sources)));
    var (w1, e1) := Attempt(w, e, sv.faults);
    AttemptAims(true, w, e, sv.faults, target);
    match ParsedPayload(text, sv.parse)
    case None =>
      AttemptBothAims(LogOn(jobLogId), w1,
        AppendJobLog(jid, ErrorLevel, ParseFailure, emiten, Some(RawPrefix(text)), None),
        CloseJobLog(jid, LogFailed, Some(ParseFailureMessage), None, None), sv.faults, target);
    case Some(obj) =>
      AttemptBothAims(LogOn(jobLogId), w1,
        AppendJobLog(jid, Info, Finished, emiten, None, Some(|sources|)),
        CloseJobLog(jid, LogCompleted, None, Some(1), Some(|sources|)), sv.faults, target);
  }

  lemma RecoverStepAims(w: World, emiten: string, hasId: bool, target: Option<int>, jobLogId: Option<int>,
                        msg: string, faults: map<nat, string>)
    requires AimedAt(w.events, target)
    ensures AimedAt(RecoverStep(w, emiten, hasId, target, jobLogId, msg, faults).0.events, target)
  {
    var jid := jobLogId.GetOr(0);
    var log := AppendJobLog(jid, ErrorLevel, AnalysisFailed(msg), emiten, None, None);
    var close := CloseJobLog(jid, LogFailed, Some(msg), None, None);
    var (w2, e2) := AttemptBoth(LogOn(jobLogId), w, log, close, faults);
    AttemptBothAims(LogOn(jobLogId), w, log, close, faults, target);
    AttemptAims(hasId, w2, UpdateStory(target, MarkError(msg)), faults, target);
  }

  /** Every `updateAgentStory` call of an invocation selects the row `parseInt(id)`. */
  lemma UpdatesSelectStoryTarget(req: Request, sv: Services)
    ensures AimedAt(Run(req, sv).0.events, StoryTarget(req))
  {
    var emiten := Symbol(req);
    if Present(emiten) && Present(req.id) {
      var target := StoryTarget(req);
      var (w1, jobLogId) := OpenLogStep(World(0, []), emiten.value, sv);
      OpenLogStepAims(World(0, []), emiten.value, sv, target);
      var (w2, step) := AnalyzeStep(w1, emiten.value, target, jobLogId, sv);
      AnalyzeStepAims(w1, emiten.value, target, jobLogId, sv);
      if step.Raised? {
        RecoverStepAims(w2, emiten.value, true, target, jobLogId, step.error, sv.faults);
      }
    }
  }

  /** Updates that select no row leave it as it was. */
  lemma {:induction false} UnaimedLeavesRow(r: Row, es: seq<Event>)
    requires AimedAt(es, None)
    ensures ApplyAll(r, es) == r
  {
    if es != [] {
      var init := es[..|es| - 1];
      assert forall x :: x in init ==> x in es;
      UnaimedLeavesRow(r, init);
    }
  }

  /**
   * An `id` that `parseInt` reads as `NaN` selects no row: the handler runs (and may reply
   * 200) but the row is left exactly as it was.
   */
  lemma NaNIdLeavesRow(req: Request, sv: Services, initial: Row)
    requires StoryTarget(req).None?
    ensures ApplyAll(initial, Run(req, sv).0.events) == initial
  {
    UpdatesSelectStoryTarget(req, sv);
    UnaimedLeavesRow(initial, Run(req, sv).0.events);
  }

  /** `?emiten=X&id=abc`: no decimal digit, so `parseInt` gives `NaN` and no row changes. */
  lemma NonNumericIdExample(sv: Services, initial: Row)
    ensures var req := Request(Some("X"), Some("abc"));
      StoryTarget(req) == None && ApplyAll(initial, Run(req, sv).0.events) == initial
  {
    var req := Request(Some("X"), Some("abc"));
    assert forall k :: 0 <= k < |"abc"| ==> !('0' <= "abc"[k] <= '9');
    NaNIdLeavesRow(req, sv, initial);
  }

  /**
   * When no external call throws, a valid request gets 500 "API key not configured"
   * without a key, 500 "Parse error" when the model's text holds no parseable JSON object,
   * and 200 otherwise; the model is called exactly when the key is set.
   */
  lemma FaultFreeReply(req: Request, sv: Services)
    requires Present(req.emiten) && Present(req.id) && sv.faults == map[]
    ensures Run(req, sv).1 == Respond(
      if !Present(sv.apiKey) then ApiKeyMissing
      else ConcludedReply(Symbol(req).value, FullText(sv.response), sv))
    ensures GenerateContent(Symbol(req).value) in Run(req, sv).0.events <==> Present(sv.apiKey)
  {
    SymbolPresent(req);
    var emiten := Symbol(req).value;
    var target := StoryTarget(req);
    var (w1, jobLogId) := OpenLogStep(World(0, []), emiten, sv);
    if !Present(sv.apiKey) {
      NoKeyWithoutFault(w1, target, jobLogId);
      NoModelCallWithoutKey(req, sv);
    } else {
      var sources := BuildSources(GroundingChunks(sv.response));
      var (wg, err) := GenerateStep(w1, emiten, target, jobLogId, |sources|, sv.faults);
      GenerateCallsModel(w1, emiten, target, jobLogId, |sources|);
      var (wc, step) := ConcludeStep(wg, emiten, target, jobLogId, sources, FullText(sv.response), sv);
      ConcludeWithoutFault(wg, emiten, target, jobLogId, sources, FullText(sv.response), sv);
      assert GenerateContent(emiten) in wc.events by {
        assert wc.events[..|wg.events|] == wg.events;
      }
    }
  }

  lemma NoKeyWithoutFault(w: World, target: Option<int>, jobLogId: Option<int>)
    ensures NoKeyStep(w, target, jobLogId, map[]).1 == Returned(ApiKeyMissing)
  {
  }

  lemma GenerateCallsModel(w: World, emiten: string, target: Option<int>, jobLogId: Option<int>, sourceCount: nat)
    ensures var (w1, err) := GenerateStep(w, emiten, target, jobLogId, sourceCount, map[]);
      err.None? && GenerateContent(emiten) in w1.events
  {
    var (wm, _) := MarkStep(w, emiten, target, jobLogId, map[]);
    var (w1, _) := Attempt(wm, GenerateContent(emiten), map[]);
    assert GenerateContent(emiten) in w1.events;
    var (w2, _) := AttemptIf(LogOn(jobLogId), w1,
      AppendJobLog(jobLogId.GetOr(0), Info, ResponseReceived(sourceCount), emiten, None, None), map[]);
    assert w2.events[..|w1.events|] == w1.events;
  }

  lemma ConcludeWithoutFault(w: World, emiten: string, target: Option<int>, jobLogId: Option<int>,
                             sources: seq<Citation>, text: string, sv: Services)
    requires sv.faults == map[]
    ensures var (w1, s) := ConcludeStep(w, emiten, target, jobLogId, sources, text, sv);
      s == Returned(ConcludedReply(emiten, text, sv)) && w.events <= w1.events
  {
  }

  /**
   * A job-log call that throws after the row was written as `completed` sends the
   * handler into its `catch`, which overwrites the status with `error` and the thrown
   * message while the stored analysis stays: the row (for a numeric id) ends `error`
   * with results in it, and the caller gets 500. With a job log (id not 0) the calls are numbered: create 0,
   * first entry 1, `processing` 2, entry 3, model 4, entry 5, `completed` 6, entry 7.
   */
  lemma LogFailureAfterCompletion(req: Request, sv: Services, initial: Row, m: string)
    requires Present(req.emiten) && Present(req.id) && Present(sv.apiKey) && sv.jobLogId != 0
    requires ParsedPayload(FullText(sv.response), sv.parse).Some?
    requires sv.faults == map[7 := m]
    ensures var (w, out) := Run(req, sv);
      var row := ApplyAll(initial, w.events);
      && out == Respond(Failed(m))
      && UpdateStory(StoryTarget(req), MarkCompleted(StoredAnalysis(sv))) in w.events
      && (StoryTarget(req).Some? ==>
            row == initial.(status := Error, errorMessage := Some(m), analysis := Some(StoredAnalysis(sv))))
  {
    SymbolPresent(req);
    var emiten := Symbol(req).value;
    var target := StoryTarget(req);
    var jobLogId := Some(sv.jobLogId);
    var w0 := World(0, []);
    var (w1, j) := OpenLogStep(w0, emiten, sv);
    assert j == jobLogId && w1.calls == 2;
    OpenLogStepFacts(w0, emiten, sv);
    assert ApplyAll(initial, w1.events) == initial;
    var (wc, step) := AnalyzeStep(w1, emiten, target, jobLogId, sv);
    var done := UpdateStory(target, MarkCompleted(StoredAnalysis(sv)));
    CompletionRaises(w1, emiten, target, sv, m, initial);
    RecoverStepFacts(wc, emiten, target, jobLogId, m, sv.faults, initial);
    RecoverWithoutFault(wc, emiten, target, jobLogId, m, sv.faults);
    var wr := RecoverStep(wc, emiten, true, target, jobLogId, m, sv.faults).0;
    assert Run(req, sv) == TryAnalyze(w1, emiten, true, target, jobLogId, sv);
    assert done in wr.events by {
      assert wc.events[|wc.events| - 1] == done;
      assert wc.events <= wr.events;
    }
    CompletionOverwritten(initial, target, Aimed(target, initial, MarkProcessing), ApplyAll(initial, wc.events),
      ApplyAll(initial, wr.events), StoredAnalysis(sv), m);
  }

  /** The main `try` of `LogFailureAfterCompletion`: it stores the result, then call 7 throws. */
  lemma CompletionRaises(w: World, emiten: string, target: Option<int>, sv: Services, m: string, r: Row)
    requires w.calls == 2 && Monitor(w.events) == Some(Untouched) && Present(sv.apiKey) && sv.jobLogId != 0
    requires ParsedPayload(FullText(sv.response), sv.parse).Some? && sv.faults == map[7 := m]
    ensures var (w1, s) := AnalyzeStep(w, emiten, target, Some(sv.jobLogId), sv);
      && s == Raised(m) && w1.calls == 8 && Monitor(w1.events).Some?
      && |w1.events| > 0 && w1.events[|w1.events| - 1] == UpdateStory(target, MarkCompleted(StoredAnalysis(sv)))
      && ApplyAll(r, w1.events)
           == Aimed(target, Aimed(target, ApplyAll(r, w.events), MarkProcessing), MarkCompleted(StoredAnalysis(sv)))
  {
    var jobLogId := Some(sv.jobLogId);
    var sources := BuildSources(GroundingChunks(sv.response));
    var (wg, err) := GenerateStep(w, emiten, target, jobLogId, |sources|, sv.faults);
    GenerateWithoutFault(w, emiten, target, jobLogId, |sources|, sv.faults);
    GenerateStepFacts(w, emiten, target, jobLogId, |sources|, sv.faults);
    var done := UpdateStory(target, MarkCompleted(StoredAnalysis(sv)));
    CompletedThenEntryThrows(wg, emiten, target, jobLogId, sources, FullText(sv.response), sv, m);
    SnocRow(wg.events, done, r);
  }

  /** `processing`, then `completed`, then `error`: the last status wins, the analysis stays. */
  lemma CompletionOverwritten(initial: Row, target: Option<int>, marked: Row, done: Row, last: Row,
                              a: Analysis, m: string)
    requires marked == Aimed(target, initial, MarkProcessing)
    requires done == Aimed(target, marked, MarkCompleted(a))
    requires last == Aimed(target, done, MarkError(m))
    ensures target.Some? ==> last == initial.(status := Error, errorMessage := Some(m), analysis := Some(a))
  {
  }

  lemma GenerateWithoutFault(w: World, emiten: string, target: Option<int>, jobLogId: Option<int>,
                             sourceCount: nat, faults: map<nat, string>)
    requires LogOn(jobLogId) && w.calls == 2 && faults.Keys == {7}
    ensures var (w1, err) := GenerateStep(w, emiten, target, jobLogId, sourceCount, faults);
      err.None? && w1.calls == 6
  {
  }

  lemma CompletedThenEntryThrows(w: World, emiten: string, target: Option<int>, jobLogId: Option<int>,
                                 sources: seq<Citation>, text: string, sv: Services, m: string)
    requires LogOn(jobLogId) && w.calls == 6 && sv.faults == map[7 := m]
    requires ParsedPayload(text, sv.parse).Some?
    ensures ConcludeStep(w, emiten, target, jobLogId, sources, text, sv)
      == (World(8, w.events + [UpdateStory(target, MarkCompleted(Defaulted(ParsedPayload(text, sv.parse).value, sources)))]), Raised(m))
  {
  }

  lemma RecoverWithoutFault(w: World, emiten: string, target: Option<int>, jobLogId: Option<int>,
                            msg: string, faults: map<nat, string>)
    requires w.calls == 8 && faults.Keys == {7}
    ensures var (w1, out) := RecoverStep(w, emiten, true, target, jobLogId, msg, faults);
      out.Respond? && w.events <= w1.events
  {
  }
}
