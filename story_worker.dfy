/**
 * netlify/functions/analyze-story-background.ts: the background handler that asks the
 * language model for a story analysis of one ticker and records the outcome on a
 * pre-created analysis row, with a best-effort job log on the side.
 *
 * The external calls (job-log store, analysis-row store, model) are not modelled;
 * their outcomes are inputs. Every call made is numbered from 0 in order; a call whose
 * number is a key of `faults` throws, with `faults[n]` as the text of `String(error)`,
 * and leaves no effect. `JSON.parse` is the opaque partial function `parse`.
 */
module StoryWorker {
  import opened Wrappers
  import opened Text
  import opened Json

  // ---------------------------------------------------------------------------
  // Data

  datatype StoryStatus = Pending | Processing | Completed | Error

  /** One stored source: the `SourceCitation` of the handler. */
  datatype Citation = Citation(title: string, uri: string)

  /** `GroundingChunk.web`; both fields may be missing in what the model returns. */
  datatype WebSource = WebSource(uri: Option<string>, title: Option<string>)
  datatype GroundingChunk = GroundingChunk(web: Option<WebSource>)
  datatype GroundingMetadata = GroundingMetadata(groundingChunks: Option<seq<GroundingChunk>>)

  /** What `generateContent` resolves to, as far as the handler reads it. */
  datatype ModelResponse = ModelResponse(
    text: Option<string>,
    candidateMetadata: Option<GroundingMetadata>,  // response.candidates[0].groundingMetadata
    responseMetadata: Option<GroundingMetadata>)   // response.groundingMetadata

  /** The analysis fields written with `status: 'completed'`. */
  datatype Analysis = Analysis(
    matriksStory: Json,
    swotAnalysis: Json,
    checklistKatalis: Json,
    keystatSignal: Json,
    strategiTrading: Json,
    kesimpulan: Json,
    sources: seq<Citation>)

  /** The analysis row as far as this handler writes it. */
  datatype Row = Row(status: StoryStatus, errorMessage: Option<string>, analysis: Option<Analysis>)

  /** The three kinds of `updateAgentStory` call the handler makes. */
  datatype StoryUpdate = MarkProcessing | MarkError(message: string) | MarkCompleted(analysis: Analysis)

  datatype LogLevel = Info | ErrorLevel
  datatype LogStatus = LogCompleted | LogFailed

  /** The entries the handler appends to the job log, by what they report. */
  datatype Note = Starting | Analyzing | ResponseReceived(sourceCount: nat) | ParseFailure | Finished
                | AnalysisFailed(error: string)

  /** The wording of each job-log entry. */
  function NoteText(n: Note): string {
    match n
    case Starting => "Starting AI Story Analysis"
    case Analyzing => "Analyzing using Gemini 3 Flash Preview (Thinking HIGH)..."
    case ResponseReceived(k) => "Gemini response received, parsing results... (" + NatToString(k) + " sources found)"
    case ParseFailure => ParseFailureMessage
    case Finished => "Analysis completed successfully"
    case AnalysisFailed(e) => "Analysis failed: " + e
  }

  /** One external call that took effect. */
  datatype Event =
    | CreateJobLog(kind: string, total: nat)
    | AppendJobLog(jobId: int, level: LogLevel, note: Note, emiten: string,
                   raw: Option<string>, sourcesCount: Option<nat>)
    | CloseJobLog(jobId: int, status: LogStatus, errorMessage: Option<string>,
                  successCount: Option<nat>, sourcesCount: Option<nat>)
    | UpdateStory(storyId: Option<int>, update: StoryUpdate)
    | GenerateContent(emiten: string)

  /** The replies the handler builds. */
  datatype Reply = MissingParams | ApiKeyMissing | ParseFailed | Failed(error: string) | Succeeded(emiten: string)

  /** The handler answers with a reply, or the promise rejects (a throw inside its `catch`). */
  datatype Outcome = Respond(reply: Reply) | Escaped(error: string)

  function StatusCode(r: Reply): int {
    match r
    case MissingParams => 400
    case Succeeded(_) => 200
    case _ => 500
  }

  /** The JSON body of each reply. */
  function Body(r: Reply): Json {
    match r
    case MissingParams => JObject(map["error" := JString("Missing emiten or id")])
    case ApiKeyMissing => JObject(map["error" := JString("API key not configured")])
    case ParseFailed => JObject(map["error" := JString("Parse error")])
    case Failed(e) => JObject(map["error" := JString(e)])
    case Succeeded(e) => JObject(map["success" := JBool(true), "emiten" := JString(e)])
  }

  /** The query string and the handler's environment. */
  datatype Request = Request(emiten: Option<string>, id: Option<string>)

  datatype Services = Services(
    apiKey: Option<string>,                    // GEMINI_API_KEY
    jobLogId: int,                             // id returned by createBackgroundJobLog
    response: ModelResponse,                   // what generateContent resolves to
    parse: string -> Option<map<string, Json>>, // JSON.parse of the extracted span
    faults: map<nat, string>)                  // which calls throw, and String(error)

  const NoKeyRecordMessage := "GEMINI_API_KEY not configured"
  const ParseFailureMessage := "Failed to parse AI response"
  const DefaultSourceTitle := "Sumber Berita"
  const RawLimit := 500

  // ---------------------------------------------------------------------------
  // Sources: the filter / map / filter chain over grounding chunks

  /** `response.candidates?.[0]?.groundingMetadata || response.groundingMetadata || {}`, then `.groundingChunks || []`. */
  function GroundingChunks(r: ModelResponse): seq<GroundingChunk> {
    var meta := if r.candidateMetadata.Some? then r.candidateMetadata
                else r.responseMetadata;
    if meta.Some? && meta.value.groundingChunks.Some? then meta.value.groundingChunks.value else []
  }

  /** `chunk.web?.uri` is truthy. */
  predicate HasUri(c: GroundingChunk) {
    c.web.Some? && Present(c.web.value.uri)
  }

  /** `{ title: chunk.web?.title || 'Sumber Berita', uri: chunk.web?.uri || '' }`. */
  function ToCitation(c: GroundingChunk): Citation {
    var title := if c.web.Some? && Present(c.web.value.title) then c.web.value.title.value else DefaultSourceTitle;
    var uri := if c.web.Some? && Present(c.web.value.uri) then c.web.value.uri.value else "";
    Citation(title, uri)
  }

  function KeepChunksWithUri(cs: seq<GroundingChunk>): seq<GroundingChunk> {
    if cs == [] then []
    else (if HasUri(cs[0]) then [cs[0]] else []) + KeepChunksWithUri(cs[1..])
  }

  function MapToCitations(cs: seq<GroundingChunk>): seq<Citation> {
    seq(|cs|, i requires 0 <= i < |cs| => ToCitation(cs[i]))
  }

  function KeepNonEmptyUri(cs: seq<Citation>): seq<Citation> {
    if cs == [] then []
    else (if |cs[0].uri| > 0 then [cs[0]] else []) + KeepNonEmptyUri(cs[1..])
  }

  /** The `sources` array: filter, map, filter. */
  function BuildSources(chunks: seq<GroundingChunk>): (r: seq<Citation>)
    ensures |r| <= |chunks|
    ensures forall i :: 0 <= i < |r| ==> |r[i].uri| > 0
  {
    MapOfKept(chunks);
    CitedUrisNonEmpty(chunks);
    KeepNonEmptyUriOfAllNonEmpty(CitedSources(chunks));
    KeepNonEmptyUri(MapToCitations(KeepChunksWithUri(chunks)))
  }

  /** One-pass reference: a citation for each chunk that has a URI, in order. */
  function CitedSources(chunks: seq<GroundingChunk>): seq<Citation> {
    if chunks == [] then []
    else if HasUri(chunks[0]) then
      [Citation(if Present(chunks[0].web.value.title) then chunks[0].web.value.title.value else DefaultSourceTitle,
                chunks[0].web.value.uri.value)] + CitedSources(chunks[1..])
    else CitedSources(chunks[1..])
  }

  lemma {:induction false} KeepNonEmptyUriOfAllNonEmpty(cs: seq<Citation>)
    requires forall i :: 0 <= i < |cs| ==> |cs[i].uri| > 0
    ensures KeepNonEmptyUri(cs) == cs
  {
    if cs != [] {
      KeepNonEmptyUriOfAllNonEmpty(cs[1..]);
    }
  }

  lemma {:induction false} MapOfKept(chunks: seq<GroundingChunk>)
    ensures MapToCitations(KeepChunksWithUri(chunks)) == CitedSources(chunks)
  {
    if chunks != [] {
      var rest := KeepChunksWithUri(chunks[1..]);
      MapOfKept(chunks[1..]);
      if HasUri(chunks[0]) {
        MapToCitationsCons(chunks[0], rest);
      }
    }
  }

  lemma MapToCitationsCons(c: GroundingChunk, cs: seq<GroundingChunk>)
    ensures MapToCitations([c] + cs) == [ToCitation(c)] + MapToCitations(cs)
  {
    assert forall i :: 1 <= i <= |cs| ==> ([c] + cs)[i] == cs[i - 1];
  }

  /**
   * The chain keeps exactly the chunks with a non-empty URI, in their order, with a
   * missing or empty title replaced by 'Sumber Berita'; the final filter removes nothing.
   */
  lemma SourcesAreCitedChunks(chunks: seq<GroundingChunk>)
    ensures BuildSources(chunks) == CitedSources(chunks)
  {
    MapOfKept(chunks);
    CitedUrisNonEmpty(chunks);
    KeepNonEmptyUriOfAllNonEmpty(CitedSources(chunks));
  }

  /** Every stored source has a non-empty URI and at most one source comes from each chunk. */
  lemma {:induction false} CitedUrisNonEmpty(chunks: seq<GroundingChunk>)
    ensures forall i :: 0 <= i < |CitedSources(chunks)| ==> |CitedSources(chunks)[i].uri| > 0
    ensures |CitedSources(chunks)| <= |chunks|
  {
    if chunks != [] {
      CitedUrisNonEmpty(chunks[1..]);
    }
  }

  /** A chunk without a usable URI is dropped and the order of the others is kept. */
  lemma SourcesExample()
    ensures BuildSources([
        GroundingChunk(Some(WebSource(Some(""), Some("A")))),
        GroundingChunk(Some(WebSource(Some("http://x"), Some("B"))))])
      == [Citation("B", "http://x")]
  {
    var chunks := [
        GroundingChunk(Some(WebSource(Some(""), Some("A")))),
        GroundingChunk(Some(WebSource(Some("http://x"), Some("B"))))];
    SourcesAreCitedChunks(chunks);
    assert chunks[1..][1..] == [];
  }

  // ---------------------------------------------------------------------------
  // JSON span: /\{[\s\S]*\}/

  function IndexOf(s: string, c: char): (r: Option<nat>)
    ensures r.Some? ==> r.value < |s| && s[r.value] == c && forall k :: 0 <= k < r.value ==> s[k] != c
    ensures r.None? ==> forall k :: 0 <= k < |s| ==> s[k] != c
  {
    if s == [] then None
    else if s[0] == c then Some(0)
    else match IndexOf(s[1..], c)
      case None => None
      case Some(k) => Some(k + 1)
  }

  function LastIndexOf(s: string, c: char): (r: Option<nat>)
    ensures r.Some? ==> r.value < |s| && s[r.value] == c && forall k :: r.value < k < |s| ==> s[k] != c
    ensures r.None? ==> forall k :: 0 <= k < |s| ==> s[k] != c
  {
    if s == [] then None
    else if s[|s| - 1] == c then Some(|s| - 1)
    else LastIndexOf(s[..|s| - 1], c)
  }

  /**
   * The greedy match of `\{[\s\S]*\}`: from the first `{` to the last `}`, provided
   * that `}` comes after that `{`.
   */
  function ExtractJsonSpan(text: string): (r: Option<string>)
    ensures r.Some? ==> 2 <= |r.value| <= |text| && r.value[0] == '{' && r.value[|r.value| - 1] == '}'
  {
    match IndexOf(text, '{')
    case None => None
    case Some(i) =>
      match LastIndexOf(text, '}')
      case None => None
      case Some(j) => if i < j then Some(text[i..j + 1]) else None
  }

  /** There is a span exactly when some `{` is followed, later, by some `}`. */
  lemma ExtractFindsSpanIff(text: string)
    ensures ExtractJsonSpan(text).Some? <==>
      exists i, j :: 0 <= i < j < |text| && text[i] == '{' && text[j] == '}'
  {
    if ExtractJsonSpan(text).Some? {
      var i, j := IndexOf(text, '{').value, LastIndexOf(text, '}').value;
      assert text[i] == '{' && text[j] == '}';
    }
  }

  /** The span starts at the first `{`, ends at the last `}`. */
  lemma ExtractSpanBounds(text: string)
    requires ExtractJsonSpan(text).Some?
    ensures var span := ExtractJsonSpan(text).value;
      exists i, j :: 0 <= i < j < |text| && span == text[i..j + 1]
        && text[i] == '{' && text[j] == '}'
        && (forall k :: 0 <= k < i ==> text[k] != '{')
        && (forall k :: j < k < |text| ==> text[k] != '}')
  {
    var i, j := IndexOf(text, '{').value, LastIndexOf(text, '}').value;
    assert ExtractJsonSpan(text).value == text[i..j + 1];
  }

  /**
   * A JSON object wrapped in prose or code fences is recovered: text before it holds no
   * `{` and text after it holds no `}`.
   */
  lemma ExtractRecoversWrappedObject(before: string, obj: string, after: string)
    requires |obj| >= 2 && obj[0] == '{' && obj[|obj| - 1] == '}'
    requires forall k :: 0 <= k < |before| ==> before[k] != '{'
    requires forall k :: 0 <= k < |after| ==> after[k] != '}'
    ensures ExtractJsonSpan(before + obj + after) == Some(obj)
  {
    var text := before + obj + after;
    var i, j := |before|, |before| + |obj| - 1;
    assert text[i] == '{' && text[j] == '}';
    assert forall k :: 0 <= k < i ==> text[k] == before[k];
    assert forall k :: j < k < |text| ==> text[k] == after[k - |before| - |obj|];
    IndexOfIsFirst(text, '{', i);
    LastIndexOfIsLast(text, '}', j);
    assert text[i..j + 1] == obj;
  }

  lemma IndexOfIsFirst(s: string, c: char, i: nat)
    requires i < |s| && s[i] == c && forall k :: 0 <= k < i ==> s[k] != c
    ensures IndexOf(s, c) == Some(i)
  {
  }

  lemma LastIndexOfIsLast(s: string, c: char, j: nat)
    requires j < |s| && s[j] == c && forall k :: j < k < |s| ==> s[k] != c
    ensures LastIndexOf(s, c) == Some(j)
  {
  }

  // ---------------------------------------------------------------------------
  // Defaulting of the parsed payload

  /** The analysis fields written on success: each falsy or missing field becomes `[]`, `{}` or `''`. */
  function Defaulted(obj: map<string, Json>, sources: seq<Citation>): (a: Analysis)
    ensures a.sources == sources
    ensures Truthy(a.matriksStory) && Truthy(a.swotAnalysis) && Truthy(a.checklistKatalis) && Truthy(a.strategiTrading)
  {
    Analysis(
      FieldOr(obj, "matriks_story", JArray([])),
      FieldOr(obj, "swot_analysis", JObject(map[])),
      FieldOr(obj, "checklist_katalis", JArray([])),
      FieldOr(obj, "keystat_signal", JString("")),
      FieldOr(obj, "strategi_trading", JObject(map[])),
      FieldOr(obj, "kesimpulan", JString("")),
      sources)
  }

  /** A field kept from the payload is truthy; a field not kept is its default. */
  predicate KeptOrDefault(obj: map<string, Json>, key: string, v: Json, fallback: Json) {
    (key in obj && Truthy(obj[key]) && v == obj[key]) || (!(key in obj && Truthy(obj[key])) && v == fallback)
  }

  /**
   * No field is left undefined: each is the payload's truthy value under its key or the
   * empty default of its kind; the sources are the grounding citations.
   */
  lemma DefaultedFields(obj: map<string, Json>, sources: seq<Citation>)
    ensures var a := Defaulted(obj, sources);
      && KeptOrDefault(obj, "matriks_story", a.matriksStory, JArray([]))
      && KeptOrDefault(obj, "swot_analysis", a.swotAnalysis, JObject(map[]))
      && KeptOrDefault(obj, "checklist_katalis", a.checklistKatalis, JArray([]))
      && KeptOrDefault(obj, "keystat_signal", a.keystatSignal, JString(""))
      && KeptOrDefault(obj, "strategi_trading", a.strategiTrading, JObject(map[]))
      && KeptOrDefault(obj, "kesimpulan", a.kesimpulan, JString(""))
      && a.sources == sources
  {
  }

  /**
   * The prompt's template names the SWOT field `swat_analysis` but the handler reads
   * `swot_analysis`: a payload that follows the template stores an empty SWOT object.
   */
  lemma TemplateSwotKeyIsDropped(obj: map<string, Json>, sources: seq<Citation>)
    requires "swat_analysis" in obj && "swot_analysis" !in obj
    ensures Defaulted(obj, sources).swotAnalysis == JObject(map[])
  {
  }

  // ---------------------------------------------------------------------------
  // The row and the lifecycle of its status

  /** The fields one story update writes. */
  function Updated(r: Row, u: StoryUpdate): Row {
    match u
    case MarkProcessing => r.(status := Processing)
    case MarkError(m) => r.(status := Error, errorMessage := Some(m))
    case MarkCompleted(a) => r.(status := Completed, analysis := Some(a))
  }

  /**
   * The row after one effective call. `updateAgentStory(parseInt(id), …)` selects the row
   * by `id`, and a `NaN` id selects no row: an update without a numeric target writes nothing.
   */
  function ApplyEvent(r: Row, e: Event): Row {
    match e
    case UpdateStory(Some(_), u) => Updated(r, u)
    case _ => r
  }

  /** The row after the effective calls `es`, each story update overwriting only the fields it names. */
  function ApplyAll(r: Row, es: seq<Event>): Row {
    if es == [] then r else ApplyEvent(ApplyAll(r, es[..|es| - 1]), es[|es| - 1])
  }

  /**
   * How far one invocation has taken the row: untouched, marked `processing`, the model
   * called, or concluded with a terminal status.
   */
  datatype Stage = Untouched | Marked | Called | Concluded

  /** The calls the lifecycle allows at each stage (`None` is a violation). */
  function Advance(st: Stage, e: Event): Option<Stage> {
    match e
    case UpdateStory(_, MarkProcessing) => if st == Untouched then Some(Marked) else None
    case GenerateContent(_) => if st == Marked then Some(Called) else None
    case UpdateStory(_, MarkCompleted(_)) => if st == Called then Some(Concluded) else None
    case UpdateStory(_, MarkError(_)) => Some(Concluded)
    case _ => Some(st)
  }

  /** The lifecycle stage after `es`, or `None` if some call came out of order. */
  function Monitor(es: seq<Event>): Option<Stage> {
    if es == [] then Some(Untouched)
    else match Monitor(es[..|es| - 1])
      case None => None
      case Some(st) => Advance(st, es[|es| - 1])
  }

  // ---------------------------------------------------------------------------
  // The handler as a function of its inputs

  /** The calls made so far (`calls` attempted, `events` the ones that took effect). */
  datatype World = World(calls: nat, events: seq<Event>)

  /** One external call: it throws when its number is in `faults`, else it takes effect. */
  function Attempt(w: World, e: Event, faults: map<nat, string>): (World, Option<string>) {
    if w.calls in faults then (World(w.calls + 1, w.events), Some(faults[w.calls]))
    else (World(w.calls + 1, w.events + [e]), None)
  }

  /** A call made only when `cond` holds (the `if (jobLogId)` guards). */
  function AttemptIf(cond: bool, w: World, e: Event, faults: map<nat, string>): (World, Option<string>) {
    if cond then Attempt(w, e, faults) else (w, None)
  }

  /**
   * Two job-log calls under the same guard (an entry, then closing the log); the second
   * is not made when the first throws.
   */
  function AttemptBoth(cond: bool, w: World, e1: Event, e2: Event, faults: map<nat, string>): (World, Option<string>) {
    var (w1, err) := AttemptIf(cond, w, e1, faults);
    if err.Some? then (w1, err) else AttemptIf(cond, w1, e2, faults)
  }

  /** `if (jobLogId)`: a job log exists and its id is not 0. */
  predicate LogOn(jobLogId: Option<int>) {
    jobLogId.Some? && jobLogId.value != 0
  }

  /** The main `try` either returns a reply or throws. */
  datatype Step = Returned(reply: Reply) | Raised(error: string)

  /** Lines 44-56: create the job log and its first entry; every failure here is swallowed. */
  function OpenLogStep(w: World, emiten: string, sv: Services): (World, Option<int>) {
    var (w1, err) := Attempt(w, CreateJobLog("analyze-story", 1), sv.faults);
    if err.Some? then (w1, None)
    else
      var jobLogId := Some(sv.jobLogId);
      var (w2, _) := AttemptIf(LogOn(jobLogId), w1,
        AppendJobLog(sv.jobLogId, Info, Starting, emiten, None, None), sv.faults);
      (w2, jobLogId)
  }

  /** Lines 66-81: no API key. */
  function NoKeyStep(w: World, target: Option<int>, jobLogId: Option<int>, faults: map<nat, string>): (World, Step) {
    var (w1, e1) := Attempt(w, UpdateStory(target, MarkError(NoKeyRecordMessage)), faults);
    if e1.Some? then (w1, Raised(e1.value))
    else
      var (w2, e2) := AttemptIf(LogOn(jobLogId), w1,
        CloseJobLog(jobLogId.GetOr(0), LogFailed, Some(NoKeyRecordMessage), None, None), faults);
      if e2.Some? then (w2, Raised(e2.value))
      else (w2, Returned(ApiKeyMissing))
  }

  /** Lines 84-198: mark `processing`, call the model, log the number of sources. */
  function GenerateStep(w: World, emiten: string, target: Option<int>, jobLogId: Option<int>,
                        sourceCount: nat, faults: map<nat, string>): (World, Option<string>)
  {
    var (w1, e1) := MarkStep(w, emiten, target, jobLogId, faults);
    if e1.Some? then (w1, e1)
    else CallModelStep(w1, emiten, jobLogId, sourceCount, faults)
  }

  /** Lines 84-92: the row becomes `processing`, and the job log says so. */
  function MarkStep(w: World, emiten: string, target: Option<int>, jobLogId: Option<int>,
                    faults: map<nat, string>): (World, Option<string>)
  {
    var (w1, e1) := Attempt(w, UpdateStory(target, MarkProcessing), faults);
    if e1.Some? then (w1, e1)
    else AttemptIf(LogOn(jobLogId), w1, AppendJobLog(jobLogId.GetOr(0), Info, Analyzing, emiten, None, None), faults)
  }

  /** Lines 167-198: the model call and the entry counting its sources. */
  function CallModelStep(w: World, emiten: string, jobLogId: Option<int>, sourceCount: nat,
                         faults: map<nat, string>): (World, Option<string>)
  {
    var (w1, e1) := Attempt(w, GenerateContent(emiten), faults);
    if e1.Some? then (w1, e1)
    else AttemptIf(LogOn(jobLogId), w1, AppendJobLog(jobLogId.GetOr(0), Info, ResponseReceived(sourceCount), emiten, None, None), faults)
  }

  /** `fullText.substring(0, 500)`. */
  function RawPrefix(text: string): (raw: string)
    ensures |raw| <= RawLimit && |raw| <= |text| && raw == text[..|raw|]
    ensures |text| <= RawLimit ==> raw == text
  {
    if |text| <= RawLimit then text else text[..RawLimit]
  }

  /** The parsed payload: `None` when no span was found or `JSON.parse` threw. */
  function ParsedPayload(text: string, parse: string -> Option<map<string, Json>>): Option<map<string, Json>> {
    match ExtractJsonSpan(text)
    case None => None
    case Some(span) => parse(span)
  }

  /** `response.text || ''`. */
  function FullText(r: ModelResponse): string {
    r.text.GetOr("")
  }

  /** Lines 200-263: parse, then record the failure or the result. */
  function ConcludeStep(w: World, emiten: string, target: Option<int>, jobLogId: Option<int>,
                        sources: seq<Citation>, text: string, sv: Services): (World, Step)
  {
    match ParsedPayload(text, sv.parse)
    case None => ParseFailureStep(w, emiten, target, jobLogId, text, sv.faults)
    case Some(obj) => StoreStep(w, emiten, target, jobLogId, Defaulted(obj, sources), |sources|, sv.faults)
  }

  /** Lines 209-231: no parseable object; the row becomes `error` and the log keeps the raw text. */
  function ParseFailureStep(w: World, emiten: string, target: Option<int>, jobLogId: Option<int>,
                            text: string, faults: map<nat, string>): (World, Step)
  {
    var (w1, e1) := Attempt(w, UpdateStory(target, MarkError(ParseFailureMessage)), faults);
    if e1.Some? then (w1, Raised(e1.value))
    else
      var (w2, e2) := AttemptBoth(LogOn(jobLogId), w1,
        AppendJobLog(jobLogId.GetOr(0), ErrorLevel, ParseFailure, emiten, Some(RawPrefix(text)), None),
        CloseJobLog(jobLogId.GetOr(0), LogFailed, Some(ParseFailureMessage), None, None), faults);
      if e2.Some? then (w2, Raised(e2.value)) else (w2, Returned(ParseFailed))
  }

  /** Lines 235-263: the row becomes `completed` with the analysis, then the log is closed. */
  function StoreStep(w: World, emiten: string, target: Option<int>, jobLogId: Option<int>,
                     analysis: Analysis, sourceCount: nat, faults: map<nat, string>): (World, Step)
  {
    var (w1, e1) := Attempt(w, UpdateStory(target, MarkCompleted(analysis)), faults);
    if e1.Some? then (w1, Raised(e1.value))
    else
      var (w2, e2) := AttemptBoth(LogOn(jobLogId), w1,
        AppendJobLog(jobLogId.GetOr(0), Info, Finished, emiten, None, Some(sourceCount)),
        CloseJobLog(jobLogId.GetOr(0), LogCompleted, None, Some(1), Some(sourceCount)), faults);
      if e2.Some? then (w2, Raised(e2.value)) else (w2, Returned(Succeeded(emiten)))
  }

  /** Lines 66-263: the main `try` after the job log is open. */
  function AnalyzeStep(w: World, emiten: string, target: Option<int>, jobLogId: Option<int>, sv: Services): (World, Step) {
    if !Present(sv.apiKey) then NoKeyStep(w, target, jobLogId, sv.faults)
    else
      var sources := BuildSources(GroundingChunks(sv.response));
      var (w1, err) := GenerateStep(w, emiten, target, jobLogId, |sources|, sv.faults);
      if err.Some? then (w1, Raised(err.value))
      else ConcludeStep(w1, emiten, target, jobLogId, sources, FullText(sv.response), sv)
  }

  /** Lines 265-288: the outer `catch`; a throw here rejects the handler's promise. */
  function RecoverStep(w: World, emiten: string, hasId: bool, target: Option<int>, jobLogId: Option<int>,
                       msg: string, faults: map<nat, string>): (World, Outcome)
  {
    var (w2, e2) := AttemptBoth(LogOn(jobLogId), w,
      AppendJobLog(jobLogId.GetOr(0), ErrorLevel, AnalysisFailed(msg), emiten, None, None),
      CloseJobLog(jobLogId.GetOr(0), LogFailed, Some(msg), None, None), faults);
    if e2.Some? then (w2, Escaped(e2.value))
    else
      var (w3, e3) := AttemptIf(hasId, w2, UpdateStory(target, MarkError(msg)), faults);
      if e3.Some? then (w3, Escaped(e3.value))
      else (w3, Respond(Failed(msg)))
  }

  /** `url.searchParams.get('emiten')?.toUpperCase()`. */
  function Symbol(req: Request): Option<string> {
    if req.emiten.Some? then Some(ToUpper(req.emiten.value)) else None
  }

  /** `parseInt(storyId)`: the row the updates select, `None` when the id is not a number. */
  function StoryTarget(req: Request): Option<int> {
    if req.id.Some? then ParseInt(req.id.value, 0) else None
  }

  /** The whole invocation: the calls that took effect and how the handler ends. */
  function Run(req: Request, sv: Services): (World, Outcome) {
    var emiten := Symbol(req);
    if !Present(emiten) || !Present(req.id) then (World(0, []), Respond(MissingParams))
    else
      var target := StoryTarget(req);
      var (w1, jobLogId) := OpenLogStep(World(0, []), emiten.value, sv);
      TryAnalyze(w1, emiten.value, Present(req.id), target, jobLogId, sv)
  }

  /** Lines 66-288: the main `try` and, when it throws, the outer `catch`. */
  function TryAnalyze(w: World, emiten: string, hasId: bool, target: Option<int>, jobLogId: Option<int>,
                      sv: Services): (World, Outcome)
  {
    var (w1, step) := AnalyzeStep(w, emiten, target, jobLogId, sv);
    match step
    case Returned(reply) => (w1, Respond(reply))
    case Raised(msg) => RecoverStep(w1, emiten, hasId, target, jobLogId, msg, sv.faults)
  }

  // ---------------------------------------------------------------------------
  // The handler, step by step, over the row and its trace of calls

  class StoryJob {
    /** The analysis row the request's `id` names; untouched when `parseInt(id)` is `NaN`. */
    var row: Row
    /** The external calls of the current invocation that took effect, in order. */
    var trace: seq<Event>
    /** How many external calls the current invocation has made. */
    var calls: nat

    constructor(initial: Row)
      ensures row == initial && trace == [] && calls == 0
    {
      row := initial;
      trace := [];
      calls := 0;
    }

    /** Make one external call; it throws (returns the error text) when its number is a fault. */
    method Call(e: Event, faults: map<nat, string>, ghost start: Row) returns (err: Option<string>)
      requires row == ApplyAll(start, trace)
      modifies this
      ensures (World(calls, trace), err) == Attempt(World(old(calls), old(trace)), e, faults)
      ensures row == ApplyAll(start, trace)
    {
      if calls in faults {
        err := Some(faults[calls]);
      } else {
        err := None;
        trace := trace + [e];
        assert trace[..|trace| - 1] == old(trace);
        row := ApplyEvent(row, e);
      }
      calls := calls + 1;
    }

    method OpenJobLog(emiten: string, sv: Services, ghost start: Row) returns (jobLogId: Option<int>)
      requires row == ApplyAll(start, trace)
      modifies this
      ensures (World(calls, trace), jobLogId) == OpenLogStep(World(old(calls), old(trace)), emiten, sv)
      ensures row == ApplyAll(start, trace)
    {
      jobLogId := None;
      var err := Call(CreateJobLog("analyze-story", 1), sv.faults, start);
      if err.None? {
        jobLogId := Some(sv.jobLogId);
        if LogOn(jobLogId) {
          err := Call(AppendJobLog(sv.jobLogId, Info, Starting, emiten, None, None), sv.faults, start);
        }
      }
    }

    method FailWithoutKey(target: Option<int>, jobLogId: Option<int>, faults: map<nat, string>, ghost start: Row)
      returns (step: Step)
      requires row == ApplyAll(start, trace)
      modifies this
      ensures (World(calls, trace), step) == NoKeyStep(World(old(calls), old(trace)), target, jobLogId, faults)
      ensures row == ApplyAll(start, trace)
    {
      var err := Call(UpdateStory(target, MarkError(NoKeyRecordMessage)), faults, start);
      if err.Some? {
        return Raised(err.value);
      }
      if LogOn(jobLogId) {
        err := Call(CloseJobLog(jobLogId.value, LogFailed, Some(NoKeyRecordMessage), None, None), faults, start);
        if err.Some? {
          return Raised(err.value);
        }
      }
      step := Returned(ApiKeyMissing);
    }

    method Generate(emiten: string, target: Option<int>, jobLogId: Option<int>, sourceCount: nat,
                    faults: map<nat, string>, ghost start: Row) returns (err: Option<string>)
      requires row == ApplyAll(start, trace)
      modifies this
      ensures (World(calls, trace), err) == GenerateStep(World(old(calls), old(trace)), emiten, target, jobLogId, sourceCount, faults)
      ensures row == ApplyAll(start, trace)
    {
      err := Call(UpdateStory(target, MarkProcessing), faults, start);
      if err.Some? {
        return;
      }
      if LogOn(jobLogId) {
        err := Call(AppendJobLog(jobLogId.value, Info, Analyzing, emiten, None, None), faults, start);
        if err.Some? {
          return;
        }
      }
      err := Call(GenerateContent(emiten), faults, start);
      if err.Some? {
        return;
      }
      if LogOn(jobLogId) {
        err := Call(AppendJobLog(jobLogId.value, Info, ResponseReceived(sourceCount), emiten, None, None), faults, start);
      }
    }

    method Conclude(emiten: string, target: Option<int>, jobLogId: Option<int>, sources: seq<Citation>,
                    text: string, sv: Services, ghost start: Row) returns (step: Step)
      requires row == ApplyAll(start, trace)
      modifies this
      ensures (World(calls, trace), step) == ConcludeStep(World(old(calls), old(trace)), emiten, target, jobLogId, sources, text, sv)
      ensures row == ApplyAll(start, trace)
    {
      var analysisResult := ParsedPayload(text, sv.parse);
      var err;
      if analysisResult.None? {
        err := Call(UpdateStory(target, MarkError(ParseFailureMessage)), sv.faults, start);
        if err.Some? {
          return Raised(err.value);
        }
        if LogOn(jobLogId) {
          err := Call(AppendJobLog(jobLogId.value, ErrorLevel, ParseFailure, emiten,
            Some(RawPrefix(text)), None), sv.faults, start);
          if err.Some? {
            return Raised(err.value);
          }
          err := Call(CloseJobLog(jobLogId.value, LogFailed, Some(ParseFailureMessage), None, None), sv.faults, start);
          if err.Some? {
            return Raised(err.value);
          }
        }
        return Returned(ParseFailed);
      }
      err := Call(UpdateStory(target, MarkCompleted(Defaulted(analysisResult.value, sources))), sv.faults, start);
      if err.Some? {
        return Raised(err.value);
      }
      if LogOn(jobLogId) {
        err := Call(AppendJobLog(jobLogId.value, Info, Finished, emiten,
          None, Some(|sources|)), sv.faults, start);
        if err.Some? {
          return Raised(err.value);
        }
        err := Call(CloseJobLog(jobLogId.value, LogCompleted, None, Some(1), Some(|sources|)), sv.faults, start);
        if err.Some? {
          return Raised(err.value);
        }
      }
      step := Returned(Succeeded(emiten));
    }

    method Recover(emiten: string, hasId: bool, target: Option<int>, jobLogId: Option<int>, msg: string,
                   faults: map<nat, string>, ghost start: Row) returns (out: Outcome)
      requires row == ApplyAll(start, trace)
      modifies this
      ensures (World(calls, trace), out) == RecoverStep(World(old(calls), old(trace)), emiten, hasId, target, jobLogId, msg, faults)
      ensures row == ApplyAll(start, trace)
    {
      var err;
      if LogOn(jobLogId) {
        err := Call(AppendJobLog(jobLogId.value, ErrorLevel, AnalysisFailed(msg), emiten, None, None), faults, start);
        if err.Some? {
          return Escaped(err.value);
        }
        err := Call(CloseJobLog(jobLogId.value, LogFailed, Some(msg), None, None), faults, start);
        if err.Some? {
          return Escaped(err.value);
        }
      }
      if hasId {
        err := Call(UpdateStory(target, MarkError(msg)), faults, start);
        if err.Some? {
          return Escaped(err.value);
        }
      }
      out := Respond(Failed(msg));
    }

    /** One invocation of the handler. */
    method Handle(req: Request, sv: Services) returns (out: Outcome)
      modifies this
      ensures (World(calls, trace), out) == Run(req, sv)
      ensures row == ApplyAll(old(row), trace)
    {
      ghost var start := row;
      trace, calls := [], 0;
      var emiten := if req.emiten.Some? then Some(ToUpper(req.emiten.value)) else None;
      var storyId := req.id;
      if !Present(emiten) || !Present(storyId) {
        return Respond(MissingParams);
      }
      var target := ParseInt(storyId.value, 0);
      var jobLogId := OpenJobLog(emiten.value, sv, start);
      var step;
      if !Present(sv.apiKey) {
        step := FailWithoutKey(target, jobLogId, sv.faults, start);
      } else {
        var sources := BuildSources(GroundingChunks(sv.response));
        var err := Generate(emiten.value, target, jobLogId, |sources|, sv.faults, start);
        if err.Some? {
          step := Raised(err.value);
        } else {
          step := Conclude(emiten.value, target, jobLogId, sources, FullText(sv.response), sv, start);
        }
      }
      match step {
        case Returned(reply) =>
          out := Respond(reply);
        case Raised(msg) =>
          out := Recover(emiten.value, Present(storyId), target, jobLogId, msg, sv.faults, start);
      }
    }
  }
}
