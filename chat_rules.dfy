/**
 * The pure rules of the chat route (src/app/api/chat/route.ts): request
 * validation, reply sanitizing, the summarize trigger, the title candidate
 * and the summary-schema parse with its fallback.
 */
module ChatRules {
  import opened Wrappers
  import opened JsText

  /** Bounds of `requestSchema.content`: `z.string().min(1).max(2000)`. */
  const MinContentLength := 1
  const MaxContentLength := 2000

  /** `MAX_ASSISTANT_MESSAGES`; the route summarizes at one below it. */
  const MaxAssistantMessages := 3

  /** Titles are the first 32 code units of a text (`slice(0, 32)`). */
  const TitleLength := 32

  datatype Role = User | Assistant | System

  datatype ChatMessage = ChatMessage(role: Role, content: JsString)

  /** The JSON body of a turn request, when it has the two string fields. */
  datatype ChatRequest = ChatRequest(sessionId: JsString, content: JsString)

  predicate ContentLengthOk(content: JsString) {
    MinContentLength <= |content| <= MaxContentLength
  }

  /**
   * `requestSchema.safeParse(body).success`. `None` is a body that is not
   * JSON or lacks string fields; `isUuid` stands for zod's `uuid()` format.
   */
  predicate RequestValid(body: Option<ChatRequest>, isUuid: JsString -> bool) {
    body.Some? && isUuid(body.value.sessionId) && ContentLengthOk(body.value.content)
  }

  /** `text.replace(/\s+$/g, "")`: drop the trailing run of white space. */
  function SanitizeContent(text: JsString): (r: JsString)
    ensures r <= text
    ensures r == [] || !IsSpace(r[|r| - 1])
    ensures forall i :: |r| <= i < |text| ==> IsSpace(text[i])
  {
    if text != [] && IsSpace(text[|text| - 1]) then SanitizeContent(text[..|text| - 1]) else text
  }

  /** Sanitizing is idempotent. */
  lemma SanitizeIdempotent(text: JsString)
    ensures SanitizeContent(SanitizeContent(text)) == SanitizeContent(text)
  {
  }

  /**
   * The sanitized text is THE split of `p + w` into a part not ending in
   * white space and a white-space tail: the regex removes exactly that tail.
   */
  lemma {:induction false} SanitizeUnique(p: JsString, w: JsString)
    requires p == [] || !IsSpace(p[|p| - 1])
    requires forall i :: 0 <= i < |w| ==> IsSpace(w[i])
    ensures SanitizeContent(p + w) == p
  {
    if w == [] {
      assert p + w == p;
    } else {
      var w' := w[..|w| - 1];
      assert (p + w)[..|p + w| - 1] == p + w';
      SanitizeUnique(p, w');
    }
  }

  /** `allMessages.filter(m => m.role === "assistant").length`. */
  function AssistantCount(history: seq<ChatMessage>): (n: nat)
    ensures n <= |history|
  {
    if history == [] then 0
    else AssistantCount(history[..|history| - 1]) + (if history[|history| - 1].role == Assistant then 1 else 0)
  }

  /** The positions of the assistant messages: an independent reading of the count. */
  ghost function AssistantPositions(history: seq<ChatMessage>): set<nat> {
    set i: nat | i < |history| && history[i].role == Assistant
  }

  /** The recursive count is the number of assistant positions. */
  lemma {:induction false} AssistantCountIsPositions(history: seq<ChatMessage>)
    ensures AssistantCount(history) == |AssistantPositions(history)|
  {
    if history != [] {
      var n := |history| - 1;
      var front := history[..n];
      AssistantCountIsPositions(front);
      var extra: set<nat> := if history[n].role == Assistant then {n} else {};
      assert AssistantPositions(history) == AssistantPositions(front) + extra;
      assert AssistantPositions(front) !! extra;
    }
  }

  /** Appending one message raises the count by one exactly when it is an assistant's. */
  lemma AssistantCountAppend(history: seq<ChatMessage>, m: ChatMessage)
    ensures AssistantCount(history + [m]) == AssistantCount(history) + (if m.role == Assistant then 1 else 0)
  {
    assert (history + [m])[..|history|] == history;
  }

  /**
   * `shouldSummarize`: the count is known (`assistantCount !== undefined`)
   * and has reached `MAX_ASSISTANT_MESSAGES - 1`.
   */
  predicate ShouldSummarize(assistantCount: Option<nat>) {
    assistantCount.Some? && assistantCount.value >= MaxAssistantMessages - 1
  }

  /** `!session.title`: the title is null or the empty string. */
  predicate NeedsTitle(title: Option<JsString>) {
    title.None? || title.value == []
  }

  /** `content.slice(0, 32)`. */
  function TitleCandidate(content: JsString): (t: JsString)
    ensures t <= content
    ensures |t| == if |content| < TitleLength then |content| else TitleLength
  {
    if |content| <= TitleLength then content else content[..TitleLength]
  }

  /** A non-empty text always yields a non-empty, hence truthy, title: a back-filled title is never filled again. */
  lemma TitleCandidateNonEmpty(content: JsString)
    requires content != []
    ensures !NeedsTitle(Some(TitleCandidate(content)))
  {
  }

  /** The structured summary stored on a session. */
  datatype SummaryPayload = SummaryPayload(summary: JsString, keyPoints: seq<JsString>, nextQuestions: seq<JsString>)

  /**
   * What `JSON.parse` gives for a reply that is an object whose `summary`,
   * `key_points` and `next_questions` have the expected JSON types; an
   * absent (undefined) field is `None`.
   */
  datatype SummaryJson = SummaryJson(summary: Option<JsString>, keyPoints: Option<seq<JsString>>, nextQuestions: Option<seq<JsString>>)

  predicate AllNonEmpty(items: seq<JsString>) {
    forall i :: 0 <= i < |items| ==> items[i] != []
  }

  /** What `summarySchema` guarantees of a payload it accepts. */
  predicate WellFormedPayload(p: SummaryPayload) {
    p.summary != [] && AllNonEmpty(p.keyPoints) && AllNonEmpty(p.nextQuestions)
  }

  /**
   * `summarySchema.parse`: `summary` required with `min(1)`, each list item
   * `min(1)`, an absent list defaulting to `[]`.
   */
  function ParseSummarySchema(json: SummaryJson): (r: Option<SummaryPayload>)
    ensures r.Some? ==> WellFormedPayload(r.value) && Some(r.value.summary) == json.summary
  {
    var keyPoints := json.keyPoints.GetOr([]);
    var nextQuestions := json.nextQuestions.GetOr([]);
    if json.summary.Some? && json.summary.value != [] && AllNonEmpty(keyPoints) && AllNonEmpty(nextQuestions)
    then Some(SummaryPayload(json.summary.value, keyPoints, nextQuestions))
    else None
  }

  /** The JSON that spells a payload out in full. */
  function PayloadJson(p: SummaryPayload): SummaryJson {
    SummaryJson(Some(p.summary), Some(p.keyPoints), Some(p.nextQuestions))
  }

  /**
   * A payload written out in full is accepted back unchanged when it is well
   * formed, and rejected outright (never repaired) when it is not.
   */
  lemma SchemaRoundTrip(p: SummaryPayload)
    ensures ParseSummarySchema(PayloadJson(p)) == if WellFormedPayload(p) then Some(p) else None
  {
  }

  /**
   * `default([])`: an absent list reads as an empty one; an absent summary
   * is rejected.
   */
  lemma SchemaAbsentFields(json: SummaryJson)
    ensures ParseSummarySchema(json.(keyPoints := None)) == ParseSummarySchema(json.(keyPoints := Some([])))
    ensures ParseSummarySchema(json.(nextQuestions := None)) == ParseSummarySchema(json.(nextQuestions := Some([])))
    ensures ParseSummarySchema(json.(summary := None)) == None
  {
  }

  /**
   * The payload the route stores: the schema-checked parse of the reply, or,
   * when `JSON.parse` or the schema fails, the raw reply with empty lists.
   */
  function ResolveSummary(reply: JsString, json: Option<SummaryJson>): (p: SummaryPayload)
    ensures reply != [] ==> WellFormedPayload(p)
    ensures (json.None? || ParseSummarySchema(json.value).None?) ==>
              p.summary == reply && p.keyPoints == [] && p.nextQuestions == []
    ensures json.Some? && ParseSummarySchema(json.value).Some? ==> Some(p.summary) == json.value.summary
    ensures json.Some? && ParseSummarySchema(json.value).Some? ==> Some(p) == ParseSummarySchema(json.value)
  {
    if json.Some? && ParseSummarySchema(json.value).Some? then ParseSummarySchema(json.value).value
    else SummaryPayload(reply, [], [])
  }

  /** `セッションのまとめです。\n\n` in UTF-16, the head of the summary announcement. */
  const AnnouncementHead: JsString :=
    [0x30BB, 0x30C3, 0x30B7, 0x30E7, 0x30F3, 0x306E, 0x307E, 0x3068, 0x3081, 0x3067, 0x3059, 0x3002, 0x0A, 0x0A]

  /** The assistant message that announces a summary; the summary can be read back from it. */
  function Announcement(summary: JsString): (a: JsString)
    ensures AnnouncementHead <= a && a[|AnnouncementHead|..] == summary
  {
    AnnouncementHead + summary
  }
}
