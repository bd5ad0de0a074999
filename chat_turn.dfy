/**
 * One turn of the chat route (`POST` in src/app/api/chat/route.ts) as a
 * function from the store's state and the outside world's answers to the
 * response and the new state; the properties of a turn are lemmas about it.
 */
module ChatTurn {
  import opened Wrappers
  import opened JsText
  import opened ChatRules

  type UserId = JsString
  type SessionId = JsString

  /** A row of the `sessions` table. */
  datatype Session = Session(
    owner: UserId,
    title: Option<JsString>,
    summary: Option<JsString>,
    keyPoints: Option<seq<JsString>>,
    nextQuestions: Option<seq<JsString>>)

  /** `session.summary` is truthy: the session is complete. */
  predicate Closed(s: Session) {
    s.summary.Some? && s.summary.value != []
  }

  /** A row of the `messages` table. */
  datatype MessageRow = MessageRow(sessionId: SessionId, role: Role, content: JsString)

  /** Both tables; rows of `messages` are in insertion (= `created_at`) order. */
  datatype StoreState = StoreState(sessions: map<SessionId, Session>, messages: seq<MessageRow>)

  /** Every message belongs to an existing session. */
  predicate Consistent(st: StoreState) {
    forall i :: 0 <= i < |st.messages| ==> st.messages[i].sessionId in st.sessions
  }

  /** The messages of one session in ascending order (the `allMessages` query). */
  function History(rows: seq<MessageRow>, id: SessionId): (h: seq<ChatMessage>)
    ensures |h| <= |rows|
  {
    if rows == [] then []
    else
      var last := rows[|rows| - 1];
      History(rows[..|rows| - 1], id) + (if last.sessionId == id then [ChatMessage(last.role, last.content)] else [])
  }

  lemma HistoryAppend(rows: seq<MessageRow>, r: MessageRow, id: SessionId)
    ensures History(rows + [r], id)
            == History(rows, id) + (if r.sessionId == id then [ChatMessage(r.role, r.content)] else [])
  {
    assert (rows + [r])[..|rows|] == rows;
  }

  /** The positions in the table of one session's rows, and of its assistant rows. */
  ghost function SessionPositions(rows: seq<MessageRow>, id: SessionId): set<int> {
    set i | 0 <= i < |rows| && rows[i].sessionId == id
  }

  ghost function SessionAssistantPositions(rows: seq<MessageRow>, id: SessionId): set<int> {
    set i | 0 <= i < |rows| && rows[i].sessionId == id && rows[i].role == Assistant
  }

  /** The history holds exactly one message per row of the session. */
  lemma {:induction false} HistoryIsSessionRows(rows: seq<MessageRow>, id: SessionId)
    ensures |History(rows, id)| == |SessionPositions(rows, id)|
  {
    if rows != [] {
      var n := |rows| - 1;
      var front := rows[..n];
      HistoryIsSessionRows(front, id);
      var mine: set<int> := if rows[n].sessionId == id then {n} else {};
      forall i ensures i in SessionPositions(rows, id) <==> i in SessionPositions(front, id) + mine {
        if 0 <= i < n { assert rows[i] == front[i]; }
      }
      assert SessionPositions(rows, id) == SessionPositions(front, id) + mine;
      assert SessionPositions(front, id) !! mine;
    }
  }

  /** The route's assistant count is the number of the session's assistant rows. */
  lemma {:induction false} AssistantCountIsSessionRows(rows: seq<MessageRow>, id: SessionId)
    ensures AssistantCount(History(rows, id)) == |SessionAssistantPositions(rows, id)|
  {
    if rows != [] {
      var n := |rows| - 1;
      var front := rows[..n];
      var last := rows[n];
      AssistantCountIsSessionRows(front, id);
      AssistantPositionsStep(rows, id);
      assert rows == front + [last];
      HistoryAppend(front, last, id);
      if last.sessionId == id {
        AssistantCountAppend(History(front, id), ChatMessage(last.role, last.content));
      } else {
        assert History(rows, id) == History(front, id) + [];
        assert History(front, id) + [] == History(front, id);
      }
    }
  }

  lemma AssistantPositionsStep(rows: seq<MessageRow>, id: SessionId)
    requires rows != []
    ensures var last := rows[|rows| - 1];
            |SessionAssistantPositions(rows, id)|
            == |SessionAssistantPositions(rows[..|rows| - 1], id)| + (if last.sessionId == id && last.role == Assistant then 1 else 0)
  {
    var n := |rows| - 1;
    var front := rows[..n];
    var mine: set<int> := if rows[n].sessionId == id && rows[n].role == Assistant then {n} else {};
    forall i ensures i in SessionAssistantPositions(rows, id) <==> i in SessionAssistantPositions(front, id) + mine {
      if 0 <= i < n { assert rows[i] == front[i]; }
    }
    assert SessionAssistantPositions(rows, id) == SessionAssistantPositions(front, id) + mine;
    assert SessionAssistantPositions(front, id) !! mine;
  }

  const BadRequest := 400
  const Unauthorized := 401
  const NotFound := 404
  const ServerError := 500

  /** `{status: "ok"}`, `{status: "summarized"}` or an error with its HTTP status. */
  datatype Response = Ok | Summarized | Error(status: nat)

  /** Which of the route's store calls report an error in this turn. */
  datatype StoreFaults = StoreFaults(
    userInsertFails: bool,
    historyReadFails: bool,
    assistantInsertFails: bool,
    sessionUpdateFails: bool,
    titleUpdateFails: bool)

  const NoFaults := StoreFaults(false, false, false, false, false)

  /**
   * Everything a turn learns from outside the route: the signed-in user, the
   * store's failures, the language model's reply (`None` when the call throws
   * or carries no content) and what `JSON.parse` makes of that reply.
   */
  datatype Outside = Outside(caller: Option<UserId>, faults: StoreFaults, reply: Option<JsString>, json: Option<SummaryJson>)

  datatype Outcome = Outcome(response: Response, state: StoreState)

  /** The reply passes `if (!summaryContent)` / `if (!assistantContent)`. */
  predicate ReplyUsable(reply: Option<JsString>) {
    reply.Some? && reply.value != []
  }

  predicate OwnedBy(st: StoreState, id: SessionId, user: UserId) {
    id in st.sessions && st.sessions[id].owner == user
  }

  /** The request gets past validation, auth, lookup and the closed check. */
  predicate Admitted(st: StoreState, body: Option<ChatRequest>, isUuid: JsString -> bool, out: Outside) {
    RequestValid(body, isUuid) && out.caller.Some? && OwnedBy(st, body.value.sessionId, out.caller.value)
    && !Closed(st.sessions[body.value.sessionId])
  }

  /** The known assistant count after the user message is stored, or `None` when the read failed. */
  function CountAfter(st: StoreState, id: SessionId, faults: StoreFaults): Option<nat> {
    if faults.historyReadFails then None else Some(AssistantCount(History(st.messages, id)))
  }

  /**
   * `st'` extends `st`'s message log by at most `n` rows, all of session
   * `id`, and keeps the set of sessions.
   */
  predicate AppendsAtMost(st: StoreState, st': StoreState, id: SessionId, n: nat) {
    id in st.sessions && st'.sessions.Keys == st.sessions.Keys
    && st.messages <= st'.messages && |st'.messages| <= |st.messages| + n
    && forall i :: |st.messages| <= i < |st'.messages| ==> st'.messages[i].sessionId == id
  }

  /**
   * A session row with the summary fields written (lines 172-179): it is
   * closed exactly when the summary written is non-empty, and keeps its
   * owner and title.
   */
  function CloseWith(s: Session, p: SummaryPayload): (c: Session)
    ensures Closed(c) <==> p.summary != []
    ensures c.owner == s.owner && c.title == s.title
  {
    s.(summary := Some(p.summary), keyPoints := Some(p.keyPoints), nextQuestions := Some(p.nextQuestions))
  }

  /** Summarization mode, once the user message is stored. */
  function SummarizeStep(st: StoreState, id: SessionId, out: Outside): (r: Outcome)
    requires id in st.sessions
    ensures AppendsAtMost(st, r.state, id, 1)
    ensures r.response in {Summarized, Error(ServerError)}
    ensures r.response == Summarized <==>
              ReplyUsable(out.reply) && !out.faults.assistantInsertFails && !out.faults.sessionUpdateFails
    ensures r.response.Error? ==> r.state.sessions == st.sessions
    ensures |r.state.messages| == |st.messages| + 1 <==> ReplyUsable(out.reply) && !out.faults.assistantInsertFails
    ensures |r.state.messages| == |st.messages| + 1 ==>
              r.state.messages[|st.messages|]
              == MessageRow(id, Assistant, Announcement(ResolveSummary(out.reply.value, out.json).summary))
    ensures r.response == Summarized ==>
              r.state.sessions == st.sessions[id := CloseWith(st.sessions[id], ResolveSummary(out.reply.value, out.json))]
              && Closed(r.state.sessions[id])
  {
    if !ReplyUsable(out.reply) then Outcome(Error(ServerError), st)
    else
      var payload := ResolveSummary(out.reply.value, out.json);
      if out.faults.assistantInsertFails then Outcome(Error(ServerError), st)
      else
        var st' := st.(messages := st.messages + [MessageRow(id, Assistant, Announcement(payload.summary))]);
        if out.faults.sessionUpdateFails then Outcome(Error(ServerError), st')
        else Outcome(Summarized, st'.(sessions := st.sessions[id := CloseWith(st.sessions[id], payload)]))
  }

  /** Continuation mode, once the user message is stored. */
  function ContinueStep(st: StoreState, id: SessionId, content: JsString, out: Outside): (r: Outcome)
    requires id in st.sessions
    ensures AppendsAtMost(st, r.state, id, 1)
    ensures r.response in {Ok, Error(ServerError)}
    ensures r.response == Ok <==> ReplyUsable(out.reply) && !out.faults.assistantInsertFails
    ensures r.response.Error? ==> r.state == st
    ensures r.response == Ok ==>
              r.state.messages == st.messages + [MessageRow(id, Assistant, SanitizeContent(out.reply.value))]
              && r.state.sessions == st.sessions[id := st.sessions[id].(title := r.state.sessions[id].title)]
  {
    if !ReplyUsable(out.reply) then Outcome(Error(ServerError), st)
    else if out.faults.assistantInsertFails then Outcome(Error(ServerError), st)
    else
      var st' := st.(messages := st.messages + [MessageRow(id, Assistant, SanitizeContent(out.reply.value))]);
      var session := st.sessions[id];
      if NeedsTitle(session.title) && !out.faults.titleUpdateFails
      then Outcome(Ok, st'.(sessions := st.sessions[id := session.(title := Some(TitleCandidate(content)))]))
      else Outcome(Ok, st')
  }

  /** One call of the route. */
  function Turn(st: StoreState, body: Option<ChatRequest>, isUuid: JsString -> bool, out: Outside): (r: Outcome)
    ensures r.response.Error? ==> r.response.status in {BadRequest, Unauthorized, NotFound, ServerError}
    ensures r.state == st || (RequestValid(body, isUuid) && AppendsAtMost(st, r.state, body.value.sessionId, 2))
    ensures r.response.Error? ==> r.state.sessions == st.sessions
  {
    if !RequestValid(body, isUuid) then Outcome(Error(BadRequest), st)
    else if out.caller.None? then Outcome(Error(Unauthorized), st)
    else
      var id := body.value.sessionId;
      if !OwnedBy(st, id, out.caller.value) then Outcome(Error(NotFound), st)
      else if Closed(st.sessions[id]) then Outcome(Error(BadRequest), st)
      else if out.faults.userInsertFails then Outcome(Error(ServerError), st)
      else
        var st' := st.(messages := st.messages + [MessageRow(id, User, body.value.content)]);
        if ShouldSummarize(CountAfter(st', id, out.faults)) then SummarizeStep(st', id, out)
        else ContinueStep(st', id, body.value.content, out)
  }
}
