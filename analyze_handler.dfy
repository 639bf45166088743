/**
 * The `POST /api/analyze` handler of backend/server.js as a function from
 * the request body, the configured API key, the upstream Gemini call and
 * `JSON.parse` to the HTTP response it sends, together with the upstream
 * request it made, if any.
 */
module AnalyzeHandler {
  import opened Wrappers
  import opened JsString
  import opened Json
  import opened Seqs
  import opened Schema
  import AnalysisSchema

  const GeminiModel := "gemini-2.5-flash-preview-09-2025"
  const MaxResumeChars := 5000
  const TimeoutMs := 60000
  const SystemPrompt := "You are a world-class AI Career Coach named CareerLift AI. Your task is to analyze a student's resume against their specified career goal. You must generate a score (out of 100), identify 3 crucial missing skills, and suggest 3 real-world opportunities and 3 certifications, all based on current industry standards and the user's career goal. Use Google Search to ensure your advice is grounded in current, relevant data. Respond ONLY with a valid JSON object matching the provided schema."

  const MissingInputError := "resumeText and careerGoal are required."
  const MissingKeyError := "GEMINI_API_KEY is not configured on the server."
  const EmptyReplyError := "Gemini response was empty or malformed."
  const ParseFailedError := "Failed to parse Gemini JSON response."
  const UpstreamFailedError := "Failed to analyze resume with Gemini."

  /** The messages of the TypeErrors the handler's own code raises on ill-typed values (V8 wording). */
  const SubstringTypeError := "resumeText.substring is not a function"
  const MapTypeError := "groundingMetadata.groundingAttributions.map is not a function"
  const NullAttributionTypeError := "Cannot read properties of null (reading 'web')"
  const ToPrimitiveTypeError := "Cannot convert object to primitive value"

  /** The schema literal written inline in server.js (a second copy of analysisSchema.js). */
  const InlineAnalysisSchema: Schema := SObject(
    [ ("resumeScore", SInteger(Some("The resume score out of 100, focusing on the career goal."))),
      ("missingSkills", SArray(SString(None), Some("3 crucial skills missing for the target role, grounded in current industry needs."))),
      ("recommendations", SObject(
         [ ("certifications", SArray(SString(None), Some("3 highly relevant certifications or courses (e.g., Coursera, AWS, Google) to bridge the skill gap."))),
           ("opportunities", SArray(SString(None), Some("3 real-world opportunities (e.g., hackathons, open-source projects, specialized internships) to gain experience."))) ],
         [], None)),
      ("summary", SString(Some("A concise, 3-sentence summary of the resume's strengths and weaknesses against the career goal."))) ],
    ["resumeScore", "missingSkills", "recommendations", "summary"], None)

  datatype Part = Part(text: string)
  datatype GenerationConfig = GenerationConfig(responseMimeType: string, responseSchema: Schema)
  /** The `generateContent` payload; `tools` lists the names of the enabled tools. */
  datatype Payload = Payload(
    contents: seq<seq<Part>>,
    tools: seq<string>,
    systemInstruction: seq<Part>,
    generationConfig: GenerationConfig)
  datatype GeminiRequest = GeminiRequest(url: string, payload: Payload, timeoutMs: nat)

  /**
   * What the awaited `axios.post` gives: the parsed response body, or an
   * exception carrying `error.response?.data` and `error.message`.
   */
  datatype Upstream = Replied(data: Json) | Threw(responseData: Value, message: string)

  datatype Response = Response(status: nat, body: Json)
  /** The response sent, and the upstream request made on the way (None: no call). */
  datatype Outcome = Outcome(response: Response, sent: Option<GeminiRequest>)

  /** One `{uri, title}` built from a grounding attribution; either may be `undefined`. */
  datatype Source = Source(uri: Value, title: Value)

  datatype SourcesOutcome = Sources(list: seq<Source>) | SourcesThrew(message: string)

  function Min(a: int, b: int): int {
    if a <= b then a else b
  }

  /** `s` contains `needle` as a contiguous piece. */
  ghost predicate Contains(s: string, needle: string) {
    exists before: string, after: string :: s == before + needle + after
  }

  lemma ContainsPiece(s: string, before: string, needle: string, after: string)
    requires s == before + needle + after
    ensures Contains(s, needle)
  {
  }

  // ---------------------------------------------------------------- reading the request

  /** `req.body || {}`. */
  function BodyOrEmpty(body: Value): Value {
    if Truthy(body) then body else Some(JObject(map[]))
  }

  function ResumeTextOf(body: Value): Value {
    Get(BodyOrEmpty(body), "resumeText")
  }

  function CareerGoalOf(body: Value): Value {
    Get(BodyOrEmpty(body), "careerGoal")
  }

  /** `GEMINI_API_KEY` is set to a non-empty string. */
  predicate KeyConfigured(apiKey: Option<string>) {
    apiKey.Some? && apiKey.value != ""
  }

  // ---------------------------------------------------------------- composing the request

  function ApiUrl(apiKey: string): string {
    "https://generativelanguage.googleapis.com/v1beta/models/" + GeminiModel + ":generateContent?key=" + apiKey
  }

  /** `resumeText.substring(0, 5000)`: the longest prefix of at most 5000 characters. */
  function Truncate(s: string): (r: string)
    ensures |r| == Min(|s|, MaxResumeChars)
    ensures r == s[..|r|]
  {
    if |s| <= MaxResumeChars then s else s[..MaxResumeChars]
  }

  const QueryHead := "Analyze the following resume content for the career goal: \""
  const QueryMiddle := "\". Resume content: \""
  const QueryTail := "\"."

  function UserQuery(goal: string, resume: string): string {
    QueryHead + goal + QueryMiddle + resume + QueryTail
  }

  function BuildPayload(query: string): Payload {
    Payload(
      [[Part(query)]],
      ["google_search"],
      [Part(SystemPrompt)],
      GenerationConfig("application/json", InlineAnalysisSchema))
  }

  /** The request the handler sends once the guards have passed. */
  function ComposeRequest(apiKey: string, careerGoal: Json, resumeText: string): GeminiRequest {
    GeminiRequest(ApiUrl(apiKey), BuildPayload(UserQuery(JsToString(careerGoal), Truncate(resumeText))), TimeoutMs)
  }

  // ---------------------------------------------------------------- reading the reply

  /** `result?.candidates?.[0]?.content?.parts?.[0]?.text`. */
  function ReplyText(data: Json): Value {
    Get(Get(Get(Get(Get(Get(Some(data), "candidates"), "0"), "content"), "parts"), "0"), "text")
  }

  /** `result.candidates?.[0]?.groundingMetadata`. */
  function GroundingMetadata(data: Json): Value {
    Get(Get(Get(Some(data), "candidates"), "0"), "groundingMetadata")
  }

  /** `{ uri: attr.web?.uri, title: attr.web?.title }` for an attribution that is not null. */
  function SourceOf(attr: Json): Source {
    Source(Get(Get(Some(attr), "web"), "uri"), Get(Get(Some(attr), "web"), "title"))
  }

  predicate HasBoth(s: Source) {
    Truthy(s.uri) && Truthy(s.title)
  }

  /**
   * The grounding sources: none without metadata or attributions; the
   * TypeError `.map` raises on a non-array, or the mapper raises on a null
   * attribution; otherwise the attributions mapped and filtered.
   */
  function ExtractSources(metadata: Value): SourcesOutcome {
    var attributions := Get(metadata, "groundingAttributions");
    if !(Truthy(metadata) && Truthy(attributions)) then Sources([])
    else if !attributions.value.JArray? then SourcesThrew(MapTypeError)
    else
      var items := attributions.value.items;
      if exists i :: 0 <= i < |items| && items[i].JNull? then SourcesThrew(NullAttributionTypeError)
      else Sources(Filter(seq(|items|, i requires 0 <= i < |items| => SourceOf(items[i])), HasBoth))
  }

  function SourceJson(s: Source): Json
    requires HasBoth(s)
  {
    JObject(map["uri" := s.uri.value, "title" := s.title.value])
  }

  function SourcesJson(list: seq<Source>): Json
    requires forall i :: 0 <= i < |list| ==> HasBoth(list[i])
  {
    JArray(seq(|list|, i requires 0 <= i < |list| => SourceJson(list[i])))
  }

  /** `{ ...analysisResult, timestamp, careerGoal, sources }`. */
  function Merge(parsed: Json, now: string, careerGoal: Json, list: seq<Source>): Json
    requires forall i :: 0 <= i < |list| ==> HasBoth(list[i])
  {
    JObject(Spread(Some(parsed)) + map[
      "timestamp" := JString(now),
      "careerGoal" := careerGoal,
      "sources" := SourcesJson(list)])
  }

  function ErrorBody(message: string): Json {
    JObject(map["error" := JString(message)])
  }

  function FailureBody(details: Json): Json {
    JObject(map["error" := JString(UpstreamFailedError), "details" := details])
  }

  // ---------------------------------------------------------------- the handler

  /** The response to an upstream outcome, once the request has been sent. */
  function Respond(upstream: Upstream, careerGoal: Json, parse: string -> Option<Json>, now: string): Response {
    match upstream
    case Threw(responseData, message) =>
      Response(500, FailureBody(if Truthy(responseData) then responseData.value else JString(message)))
    case Replied(data) =>
      var text := ReplyText(data);
      if !Truthy(text) then Response(500, ErrorBody(EmptyReplyError))
      // `JSON.parse` converts its argument to a string inside the same `try`
      else if ToStringThrows(text.value) then Response(500, ErrorBody(ParseFailedError))
      else
        match parse(JsToString(text.value))
        case None => Response(500, ErrorBody(ParseFailedError))
        case Some(parsed) =>
          match ExtractSources(GroundingMetadata(data))
          case SourcesThrew(message) => Response(500, FailureBody(JString(message)))
          case Sources(list) => Response(200, Merge(parsed, now, careerGoal, list))
  }

  /**
   * `POST /api/analyze`. `call` stands for the upstream service, `parse` for
   * `JSON.parse` (None: it throws) and `now` for `new Date().toISOString()`.
   */
  function Analyze(body: Value, apiKey: Option<string>, call: GeminiRequest -> Upstream,
                   parse: string -> Option<Json>, now: string): Outcome
  {
    var resumeText := ResumeTextOf(body);
    var careerGoal := CareerGoalOf(body);
    if !Truthy(resumeText) || !Truthy(careerGoal) then
      Outcome(Response(400, ErrorBody(MissingInputError)), None)
    else if !KeyConfigured(apiKey) then
      Outcome(Response(500, ErrorBody(MissingKeyError)), None)
    else if !resumeText.value.JString? then
      Outcome(Response(500, FailureBody(JString(SubstringTypeError))), None)
    // the template literal of the user query converts the goal to a string
    else if ToStringThrows(careerGoal.value) then
      Outcome(Response(500, FailureBody(JString(ToPrimitiveTypeError))), None)
    else
      var request := ComposeRequest(apiKey.value, careerGoal.value, resumeText.value.s);
      Outcome(Respond(call(request), careerGoal.value, parse, now), Some(request))
  }

  // ---------------------------------------------------------------- properties

  /** The inline schema is the one declared in analysisSchema.js. */
  lemma InlineSchemaIsAnalysisSchema()
    ensures InlineAnalysisSchema == AnalysisSchema.Analysis
  {
  }

  /**
   * The input guard comes first: the response is 400 exactly when
   * `resumeText` or `careerGoal` is falsy, and then no upstream call is made,
   * whatever the key.
   */
  lemma InputGuard(body: Value, apiKey: Option<string>, call: GeminiRequest -> Upstream,
                   parse: string -> Option<Json>, now: string)
    ensures var o := Analyze(body, apiKey, call, parse, now);
      (o.response.status == 400 <==> !Truthy(ResumeTextOf(body)) || !Truthy(CareerGoalOf(body)))
      && (o.response.status == 400 ==> o == Outcome(Response(400, ErrorBody(MissingInputError)), None))
  {
    var o := Analyze(body, apiKey, call, parse, now);
    if && Truthy(ResumeTextOf(body)) && Truthy(CareerGoalOf(body)) && KeyConfigured(apiKey)
       && ResumeTextOf(body).value.JString? && !ToStringThrows(CareerGoalOf(body).value) {
      RespondStatus(call(o.sent.value), CareerGoalOf(body).value, parse, now);
    }
  }

  /** Every response the handler returns after the call has status 200 or 500. */
  lemma RespondStatus(upstream: Upstream, careerGoal: Json, parse: string -> Option<Json>, now: string)
    ensures Respond(upstream, careerGoal, parse, now).status in {200, 500}
  {
  }

  /** With both inputs present and no key, the answer is the configuration error, and nothing is sent. */
  lemma KeyGuard(body: Value, apiKey: Option<string>, call: GeminiRequest -> Upstream,
                 parse: string -> Option<Json>, now: string)
    requires Truthy(ResumeTextOf(body)) && Truthy(CareerGoalOf(body))
    requires !KeyConfigured(apiKey)
    ensures Analyze(body, apiKey, call, parse, now) == Outcome(Response(500, ErrorBody(MissingKeyError)), None)
  {
  }

  /**
   * The upstream is called exactly when both inputs are truthy, the key is
   * configured, `resumeText` is a string and `careerGoal` converts to a
   * string, and then with the composed request.
   */
  lemma CallOnlyPastGuards(body: Value, apiKey: Option<string>, call: GeminiRequest -> Upstream,
                           parse: string -> Option<Json>, now: string)
    ensures var o := Analyze(body, apiKey, call, parse, now);
      && (o.sent.Some? <==>
            Truthy(ResumeTextOf(body)) && Truthy(CareerGoalOf(body)) && KeyConfigured(apiKey)
            && ResumeTextOf(body).value.JString? && !ToStringThrows(CareerGoalOf(body).value))
      && (o.sent.Some? ==>
            o.sent.value == ComposeRequest(apiKey.value, CareerGoalOf(body).value, ResumeTextOf(body).value.s)
            && o.response == Respond(call(o.sent.value), CareerGoalOf(body).value, parse, now))
  {
  }

  /** When no call is made, neither the upstream, `JSON.parse` nor the clock affects the response. */
  lemma NoCallNoInfluence(body: Value, apiKey: Option<string>,
                          call: GeminiRequest -> Upstream, otherCall: GeminiRequest -> Upstream,
                          parse: string -> Option<Json>, otherParse: string -> Option<Json>,
                          now: string, otherNow: string)
    requires Analyze(body, apiKey, call, parse, now).sent.None?
    ensures Analyze(body, apiKey, call, parse, now) == Analyze(body, apiKey, otherCall, otherParse, otherNow)
  {
  }

  /** A truthy `resumeText` that is not a string makes `substring` throw: the generic 500, no call. */
  lemma NonStringResumeFails(body: Value, apiKey: Option<string>, call: GeminiRequest -> Upstream,
                             parse: string -> Option<Json>, now: string)
    requires Truthy(ResumeTextOf(body)) && Truthy(CareerGoalOf(body)) && KeyConfigured(apiKey)
    requires !ResumeTextOf(body).value.JString?
    ensures Analyze(body, apiKey, call, parse, now)
         == Outcome(Response(500, FailureBody(JString(SubstringTypeError))), None)
  {
  }

  /**
   * A goal that `String()` cannot convert (an object with its own
   * `toString` key, or an array holding one) makes the query's template
   * literal throw before the call: the generic 500, nothing sent.
   */
  lemma UnconvertibleGoalFails(body: Value, apiKey: Option<string>, call: GeminiRequest -> Upstream,
                               parse: string -> Option<Json>, now: string)
    requires Truthy(ResumeTextOf(body)) && Truthy(CareerGoalOf(body)) && KeyConfigured(apiKey)
    requires ResumeTextOf(body).value.JString? && ToStringThrows(CareerGoalOf(body).value)
    ensures Analyze(body, apiKey, call, parse, now)
         == Outcome(Response(500, FailureBody(JString(ToPrimitiveTypeError))), None)
  {
  }

  /**
   * The user query embeds the career goal and the truncated resume, and its
   * length is theirs plus a fixed overhead, so it is bounded by the goal's
   * length plus 5000 plus that overhead.
   */
  lemma {:induction false} QueryEmbedsInputs(careerGoal: Json, resumeText: string)
    ensures var q := UserQuery(JsToString(careerGoal), Truncate(resumeText));
      && Contains(q, JsToString(careerGoal))
      && Contains(q, Truncate(resumeText))
      && |q| == |QueryHead| + |JsToString(careerGoal)| + |QueryMiddle| + |Truncate(resumeText)| + |QueryTail|
      && |q| <= |QueryHead| + |JsToString(careerGoal)| + |QueryMiddle| + MaxResumeChars + |QueryTail|
  {
    var g := JsToString(careerGoal);
    var r := Truncate(resumeText);
    var q := UserQuery(g, r);
    ContainsPiece(q, QueryHead, g, QueryMiddle + r + QueryTail);
    ContainsPiece(q, QueryHead + g + QueryMiddle, r, QueryTail);
  }

  /**
   * Every request sent carries the user query as its only content, the
   * system prompt, the `google_search` tool, JSON as response type, the
   * analysis schema, the key in the URL and the 60 s timeout.
   */
  lemma SentRequestShape(apiKey: string, careerGoal: Json, resumeText: string)
    ensures var r := ComposeRequest(apiKey, careerGoal, resumeText);
      && r.payload.contents == [[Part(UserQuery(JsToString(careerGoal), Truncate(resumeText)))]]
      && r.payload.systemInstruction == [Part(SystemPrompt)]
      && r.payload.tools == ["google_search"]
      && r.payload.generationConfig.responseMimeType == "application/json"
      && r.payload.generationConfig.responseSchema == AnalysisSchema.Analysis
      && r.url == ApiUrl(apiKey) && Contains(r.url, apiKey)
      && r.timeoutMs == 60000
  {
    var before := "https://generativelanguage.googleapis.com/v1beta/models/" + GeminiModel + ":generateContent?key=";
    ContainsPiece(ApiUrl(apiKey), before, apiKey, "");
  }

  /** An upstream exception is reported as the generic 500, with the response data or else the message as details. */
  lemma UpstreamFailureReported(responseData: Value, message: string, careerGoal: Json,
                                parse: string -> Option<Json>, now: string)
    ensures Respond(Threw(responseData, message), careerGoal, parse, now)
         == Response(500, FailureBody(if Truthy(responseData) then responseData.value else JString(message)))
  {
  }

  /** A reply without a truthy `candidates[0].content.parts[0].text` is the "empty or malformed" 500. */
  lemma EmptyReplyRejected(data: Json, careerGoal: Json, parse: string -> Option<Json>, now: string)
    requires !Truthy(ReplyText(data))
    ensures Respond(Replied(data), careerGoal, parse, now) == Response(500, ErrorBody(EmptyReplyError))
  {
  }

  /**
   * Text that `JSON.parse` rejects, or cannot even convert to a string, is
   * the parse-failure 500, without a second attempt.
   */
  lemma UnparsableReplyRejected(data: Json, careerGoal: Json, parse: string -> Option<Json>, now: string)
    requires Truthy(ReplyText(data))
    requires ToStringThrows(ReplyText(data).value) || parse(JsToString(ReplyText(data).value)).None?
    ensures Respond(Replied(data), careerGoal, parse, now) == Response(500, ErrorBody(ParseFailedError))
  {
  }

  /**
   * The sources: none when the metadata or its attributions are falsy; a
   * TypeError when the attributions are not an array, or when they hold a
   * null (and only then, for an array); otherwise exactly the `{uri, title}` of the attributions whose `web.uri`
   * and `web.title` are both truthy, each as often as it occurs, in the
   * original order.
   */
  lemma SourcesFiltered(metadata: Value)
    ensures var attributions := Get(metadata, "groundingAttributions");
      && (!Truthy(metadata) || !Truthy(attributions) ==> ExtractSources(metadata) == Sources([]))
      && (Truthy(metadata) && Truthy(attributions) && !attributions.value.JArray? ==>
            ExtractSources(metadata) == SourcesThrew(MapTypeError))
    ensures var attributions := Get(metadata, "groundingAttributions");
      Truthy(metadata) && Truthy(attributions) && attributions.value.JArray? ==>
        var items := attributions.value.items;
        && (ExtractSources(metadata).Sources? <==> forall i :: 0 <= i < |items| ==> !items[i].JNull?)
        && (!ExtractSources(metadata).Sources? ==> ExtractSources(metadata) == SourcesThrew(NullAttributionTypeError))
    ensures ExtractSources(metadata).Sources? ==>
      var list := ExtractSources(metadata).list;
      && (forall i :: 0 <= i < |list| ==> HasBoth(list[i]))
      && (Truthy(metadata) && Truthy(Get(metadata, "groundingAttributions")) ==>
            var items := Get(metadata, "groundingAttributions").value.items;
            var mapped := seq(|items|, i requires 0 <= i < |items| => SourceOf(items[i]));
            && IsSubsequence(list, mapped)
            && (forall s :: multiset(list)[s] == if HasBoth(s) then multiset(mapped)[s] else 0))
  {
    var attributions := Get(metadata, "groundingAttributions");
    if ExtractSources(metadata).Sources? && Truthy(metadata) && Truthy(attributions) {
      var items := attributions.value.items;
      var mapped := seq(|items|, i requires 0 <= i < |items| => SourceOf(items[i]));
      assert ExtractSources(metadata).list == Filter(mapped, HasBoth);
      FilterIsSubsequence(mapped, HasBoth);
      forall s ensures multiset(Filter(mapped, HasBoth))[s] == if HasBoth(s) then multiset(mapped)[s] else 0 {
        FilterCount(mapped, HasBoth, s);
      }
    }
  }

  /**
   * On success the body is the parsed value spread out, with `timestamp`,
   * `careerGoal` and `sources` set by the server (the request's goal wins
   * over the model's), and every other key as the parsed value has it. No
   * premise is made on the parsed value: score and arrays are not checked.
   */
  lemma SuccessMerge(data: Json, careerGoal: Json, parse: string -> Option<Json>, now: string, key: string)
    requires Truthy(ReplyText(data)) && !ToStringThrows(ReplyText(data).value)
    requires parse(JsToString(ReplyText(data).value)).Some?
    requires ExtractSources(GroundingMetadata(data)).Sources?
    ensures var parsed := parse(JsToString(ReplyText(data).value)).value;
      var r := Respond(Replied(data), careerGoal, parse, now);
      && r.status == 200 && r.body.JObject?
      && r.body.fields["timestamp"] == JString(now)
      && r.body.fields["careerGoal"] == careerGoal
      && r.body.fields["sources"] == SourcesJson(ExtractSources(GroundingMetadata(data)).list)
      && (key != "timestamp" && key != "careerGoal" && key != "sources" ==>
            (key in r.body.fields <==> Get(Some(parsed), key).Some?)
            && (key in r.body.fields ==> Some(r.body.fields[key]) == Get(Some(parsed), key)))
  {
    var parsed := parse(JsToString(ReplyText(data).value)).value;
    SpreadAgreesWithGet(Some(parsed), key);
  }

  /**
   * The handler answers 200 exactly when the reply has text, the text
   * converts to a string and parses, and the sources can be built; every other upstream outcome is a
   * 500.
   */
  lemma SuccessExactly(upstream: Upstream, careerGoal: Json, parse: string -> Option<Json>, now: string)
    ensures Respond(upstream, careerGoal, parse, now).status == 200 <==>
      && upstream.Replied?
      && Truthy(ReplyText(upstream.data))
      && !ToStringThrows(ReplyText(upstream.data).value)
      && parse(JsToString(ReplyText(upstream.data).value)).Some?
      && ExtractSources(GroundingMetadata(upstream.data)).Sources?
    ensures Respond(upstream, careerGoal, parse, now).status != 200 ==>
      Respond(upstream, careerGoal, parse, now).status == 500
  {
  }

  /**
   * A reply that conforms to the analysis schema still conforms once the
   * server has added its three fields, none of which the schema lists.
   */
  lemma MergeKeepsConformance(parsed: Json, now: string, careerGoal: Json, list: seq<Source>)
    requires forall i :: 0 <= i < |list| ==> HasBoth(list[i])
    requires Conforms(parsed, AnalysisSchema.Analysis)
    ensures Conforms(Merge(parsed, now, careerGoal, list), AnalysisSchema.Analysis)
  {
    var merged := Merge(parsed, now, careerGoal, list);
    AnalysisSchema.AnalysisConformance(parsed);
    assert merged.fields == parsed.fields + map["timestamp" := JString(now), "careerGoal" := careerGoal, "sources" := SourcesJson(list)];
    AnalysisSchema.AnalysisConformance(merged);
  }
}
