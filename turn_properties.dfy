/** What one turn, and a short run of turns, of the chat route guarantee. */
module TurnProperties {
  import opened Wrappers
  import opened JsText
  import opened ChatRules
  import opened ChatTurn

  /** Rows of other sessions leave a session's history as it was. */
  lemma {:induction false} HistoryIgnoresOtherRows(rows: seq<MessageRow>, extra: seq<MessageRow>, k: SessionId)
    requires forall i :: 0 <= i < |extra| ==> extra[i].sessionId != k
    ensures History(rows + extra, k) == History(rows, k)
  {
    if extra == [] {
      assert rows + extra == rows;
    } else {
      var front := extra[..|extra| - 1];
      HistoryIgnoresOtherRows(rows, front, k);
      assert rows + extra == (rows + front) + [extra[|extra| - 1]];
      HistoryAppend(rows + front, extra[|extra| - 1], k);
    }
  }

  /** A turn never leaves a message without its session. */
  lemma TurnKeepsConsistent(st: StoreState, body: Option<ChatRequest>, isUuid: JsString -> bool, out: Outside)
    requires Consistent(st)
    ensures Consistent(Turn(st, body, isUuid, out).state)
  {
    var r := Turn(st, body, isUuid, out);
    if r.state != st {
      forall i | 0 <= i < |r.state.messages|
        ensures r.state.messages[i].sessionId in r.state.sessions
      {
        if i < |st.messages| {
          assert r.state.messages[i] == st.messages[i];
        }
      }
    }
  }

  /** A body outside the request schema (bad JSON, bad id, content not 1..2000 long) gets 400 and changes nothing. */
  lemma InvalidRequestRejected(st: StoreState, body: Option<ChatRequest>, isUuid: JsString -> bool, out: Outside)
    requires !RequestValid(body, isUuid)
    ensures Turn(st, body, isUuid, out) == Outcome(Error(BadRequest), st)
  {
  }

  /** No signed-in user: 401, nothing changes. */
  lemma UnauthenticatedRejected(st: StoreState, body: Option<ChatRequest>, isUuid: JsString -> bool, out: Outside)
    requires RequestValid(body, isUuid) && out.caller.None?
    ensures Turn(st, body, isUuid, out) == Outcome(Error(Unauthorized), st)
  {
  }

  /** A session that does not exist or belongs to someone else: 404, nothing appended. */
  lemma UnknownSessionRejected(st: StoreState, body: Option<ChatRequest>, isUuid: JsString -> bool, out: Outside)
    requires RequestValid(body, isUuid) && out.caller.Some?
    requires !OwnedBy(st, body.value.sessionId, out.caller.value)
    ensures Turn(st, body, isUuid, out) == Outcome(Error(NotFound), st)
  {
  }

  /** A completed session: 400, nothing appended. */
  lemma ClosedSessionRejected(st: StoreState, body: Option<ChatRequest>, isUuid: JsString -> bool, out: Outside)
    requires RequestValid(body, isUuid) && out.caller.Some?
    requires OwnedBy(st, body.value.sessionId, out.caller.value)
    requires Closed(st.sessions[body.value.sessionId])
    ensures Turn(st, body, isUuid, out) == Outcome(Error(BadRequest), st)
  {
  }

  /**
   * With the store and the model answering, an admitted turn summarizes
   * exactly when the history was read and already held at least
   * `MAX_ASSISTANT_MESSAGES - 1` assistant messages; otherwise it continues.
   */
  lemma ModeFollowsAssistantCount(st: StoreState, body: Option<ChatRequest>, isUuid: JsString -> bool, out: Outside)
    requires Admitted(st, body, isUuid, out)
    requires !out.faults.userInsertFails && !out.faults.assistantInsertFails && !out.faults.sessionUpdateFails
    requires ReplyUsable(out.reply)
    ensures var n := AssistantCount(History(st.messages, body.value.sessionId));
            var r := Turn(st, body, isUuid, out);
            (r.response == Summarized <==> !out.faults.historyReadFails && n >= MaxAssistantMessages - 1)
            && (r.response == Ok <==> out.faults.historyReadFails || n < MaxAssistantMessages - 1)
  {
    var id := body.value.sessionId;
    var userRow := MessageRow(id, User, body.value.content);
    HistoryAppend(st.messages, userRow, id);
    AssistantCountAppend(History(st.messages, id), ChatMessage(User, body.value.content));
  }

  /**
   * Store and model failures after admission give 500: a failed user insert
   * leaves the store as it was; a failed or empty model reply leaves exactly
   * the stored user message behind.
   */
  lemma ServerErrorsKeepUserMessage(st: StoreState, body: Option<ChatRequest>, isUuid: JsString -> bool, out: Outside)
    requires Admitted(st, body, isUuid, out)
    ensures out.faults.userInsertFails ==> Turn(st, body, isUuid, out) == Outcome(Error(ServerError), st)
    ensures !out.faults.userInsertFails && !ReplyUsable(out.reply) ==>
              Turn(st, body, isUuid, out)
              == Outcome(Error(ServerError), st.(messages := st.messages + [MessageRow(body.value.sessionId, User, body.value.content)]))
    ensures !out.faults.userInsertFails && ReplyUsable(out.reply) && out.faults.assistantInsertFails ==>
              Turn(st, body, isUuid, out)
              == Outcome(Error(ServerError), st.(messages := st.messages + [MessageRow(body.value.sessionId, User, body.value.content)]))
  {
  }

  /**
   * When the announcement is stored but the session update fails, the turn
   * answers 500 with both the user message and the announcement kept and the
   * session still open; the next working turn on it summarizes again and
   * stores a second announcement.
   */
  lemma FailedCloseSummarizesAgain(st: StoreState, body: Option<ChatRequest>, isUuid: JsString -> bool, out: Outside,
                                   content2: JsString, reply2: JsString, json2: Option<SummaryJson>)
    requires Admitted(st, body, isUuid, out)
    requires !out.faults.userInsertFails && !out.faults.historyReadFails && !out.faults.assistantInsertFails
    requires out.faults.sessionUpdateFails && ReplyUsable(out.reply)
    requires AssistantCount(History(st.messages, body.value.sessionId)) >= MaxAssistantMessages - 1
    requires ContentLengthOk(content2) && reply2 != []
    ensures var id := body.value.sessionId;
            var o := Turn(st, body, isUuid, out);
            var announcement := Announcement(ResolveSummary(out.reply.value, out.json).summary);
            o.response == Error(ServerError)
            && o.state.messages == st.messages + [MessageRow(id, User, body.value.content), MessageRow(id, Assistant, announcement)]
            && o.state.sessions == st.sessions
            && !Closed(o.state.sessions[id])
            && Turn(o.state, Some(ChatRequest(id, content2)), isUuid, Outside(out.caller, NoFaults, Some(reply2), json2)).response
               == Summarized
  {
    var id := body.value.sessionId;
    var userRow := MessageRow(id, User, body.value.content);
    var st' := st.(messages := st.messages + [userRow]);
    HistoryAppend(st.messages, userRow, id);
    AssistantCountAppend(History(st.messages, id), ChatMessage(User, body.value.content));
    assert ShouldSummarize(CountAfter(st', id, out.faults));
    var o := Turn(st, body, isUuid, out);
    assert o == SummarizeStep(st', id, out);
    var announcementRow := MessageRow(id, Assistant, Announcement(ResolveSummary(out.reply.value, out.json).summary));
    assert o.state.messages == st'.messages + [announcementRow];
    assert st'.messages + [announcementRow] == st.messages + [userRow, announcementRow];
    HistoryAppend(st'.messages, announcementRow, id);
    AssistantCountAppend(History(st'.messages, id), ChatMessage(Assistant, announcementRow.content));
    ModeFollowsAssistantCount(o.state, Some(ChatRequest(id, content2)), isUuid, Outside(out.caller, NoFaults, Some(reply2), json2));
  }

  /** A turn that answers `ok` or `summarized` was admitted and its user message stored. */
  lemma AdmittedWhenAnswered(st: StoreState, body: Option<ChatRequest>, isUuid: JsString -> bool, out: Outside)
    requires !Turn(st, body, isUuid, out).response.Error?
    ensures Admitted(st, body, isUuid, out) && !out.faults.userInsertFails
  {
  }

  /**
   * A `summarized` turn closes a session that was open: it stores the user
   * message and the announcement of the resolved summary, writes the summary
   * fields and leaves the title and every other session alone.
   */
  lemma SummarizedTurn(st: StoreState, body: Option<ChatRequest>, isUuid: JsString -> bool, out: Outside)
    requires Turn(st, body, isUuid, out).response == Summarized
    ensures Admitted(st, body, isUuid, out) && ReplyUsable(out.reply)
    ensures var id := body.value.sessionId;
            var p := ResolveSummary(out.reply.value, out.json);
            var r := Turn(st, body, isUuid, out);
            r.state.messages == st.messages + [MessageRow(id, User, body.value.content), MessageRow(id, Assistant, Announcement(p.summary))]
            && r.state.sessions == st.sessions[id := CloseWith(st.sessions[id], p)]
            && r.state.sessions[id].summary == Some(p.summary)
            && r.state.sessions[id].keyPoints == Some(p.keyPoints)
            && r.state.sessions[id].nextQuestions == Some(p.nextQuestions)
            && r.state.sessions[id].owner == st.sessions[id].owner
            && r.state.sessions[id].title == st.sessions[id].title
            && Closed(r.state.sessions[id])
  {
    AdmittedWhenAnswered(st, body, isUuid, out);
    var id := body.value.sessionId;
    var st' := st.(messages := st.messages + [MessageRow(id, User, body.value.content)]);
    assert Turn(st, body, isUuid, out) == SummarizeStep(st', id, out);
    SummarizeStepEffect(st', id, out);
    var p := ResolveSummary(out.reply.value, out.json);
    var announcement := MessageRow(id, Assistant, Announcement(p.summary));
    assert st'.messages + [announcement] == st.messages + [MessageRow(id, User, body.value.content), announcement];
  }

  /** The summarization step, when it succeeds, appends the announcement and closes the session. */
  lemma SummarizeStepEffect(st: StoreState, id: SessionId, out: Outside)
    requires id in st.sessions && SummarizeStep(st, id, out).response == Summarized
    ensures ReplyUsable(out.reply)
    ensures var p := ResolveSummary(out.reply.value, out.json);
            SummarizeStep(st, id, out).state
            == StoreState(st.sessions[id := CloseWith(st.sessions[id], p)], st.messages + [MessageRow(id, Assistant, Announcement(p.summary))])
            && Closed(CloseWith(st.sessions[id], p))
  {
  }

  /**
   * When the reply is not schema-valid JSON, the session is still closed,
   * with the raw reply as its summary and empty lists.
   */
  lemma SummaryFallback(st: StoreState, body: Option<ChatRequest>, isUuid: JsString -> bool, out: Outside)
    requires Turn(st, body, isUuid, out).response == Summarized
    requires out.json.None? || ParseSummarySchema(out.json.value).None?
    ensures RequestValid(body, isUuid)
    ensures var s := Turn(st, body, isUuid, out).state.sessions[body.value.sessionId];
            s.summary == out.reply && s.keyPoints == Some([]) && s.nextQuestions == Some([]) && Closed(s)
  {
    SummarizedTurn(st, body, isUuid, out);
  }

  /**
   * A reply that parses as a well-formed summary payload is stored field by
   * field: the summary, the key points and the next questions all reach the
   * closed session unchanged.
   */
  lemma ParsedSummaryStored(st: StoreState, body: Option<ChatRequest>, isUuid: JsString -> bool, out: Outside, p: SummaryPayload)
    requires Turn(st, body, isUuid, out).response == Summarized
    requires out.json == Some(PayloadJson(p)) && WellFormedPayload(p)
    ensures RequestValid(body, isUuid)
    ensures var s := Turn(st, body, isUuid, out).state.sessions[body.value.sessionId];
            s.summary == Some(p.summary) && s.keyPoints == Some(p.keyPoints) && s.nextQuestions == Some(p.nextQuestions) && Closed(s)
  {
    SummarizedTurn(st, body, isUuid, out);
    SchemaRoundTrip(p);
  }

  /**
   * An `ok` turn stores the user message and the sanitized reply, keeps the
   * session open, and changes at most its title: an empty title becomes the
   * first 32 code units of the user text, a present title is never changed.
   */
  lemma ContinuedTurn(st: StoreState, body: Option<ChatRequest>, isUuid: JsString -> bool, out: Outside)
    requires Turn(st, body, isUuid, out).response == Ok
    ensures Admitted(st, body, isUuid, out) && ReplyUsable(out.reply)
    ensures var id := body.value.sessionId;
            var old_ := st.sessions[id];
            var r := Turn(st, body, isUuid, out);
            r.state.messages == st.messages + [MessageRow(id, User, body.value.content), MessageRow(id, Assistant, SanitizeContent(out.reply.value))]
            && r.state.sessions == st.sessions[id := old_.(title := r.state.sessions[id].title)]
            && (NeedsTitle(old_.title) && !out.faults.titleUpdateFails ==> r.state.sessions[id].title == Some(TitleCandidate(body.value.content)))
            && (!NeedsTitle(old_.title) || out.faults.titleUpdateFails ==> r.state.sessions[id].title == old_.title)
            && !Closed(r.state.sessions[id])
  {
    AdmittedWhenAnswered(st, body, isUuid, out);
    var id := body.value.sessionId;
    var st' := st.(messages := st.messages + [MessageRow(id, User, body.value.content)]);
    assert !ShouldSummarize(CountAfter(st', id, out.faults));
    assert Turn(st, body, isUuid, out) == ContinueStep(st', id, body.value.content, out);
  }

  /** A turn on one session leaves every other session, and its messages, as they were. */
  lemma {:induction false} OtherSessionsUntouched(st: StoreState, body: Option<ChatRequest>, isUuid: JsString -> bool, out: Outside, k: SessionId)
    requires k in st.sessions
    requires !RequestValid(body, isUuid) || k != body.value.sessionId
    ensures Turn(st, body, isUuid, out).state.sessions[k] == st.sessions[k]
    ensures History(Turn(st, body, isUuid, out).state.messages, k) == History(st.messages, k)
  {
    var r := Turn(st, body, isUuid, out);
    if r.state != st {
      var extra := r.state.messages[|st.messages|..];
      assert r.state.messages == st.messages + extra;
      HistoryIgnoresOtherRows(st.messages, extra, k);
    }
  }

  /** A closed session stays exactly as it is: a session is closed at most once. */
  lemma ClosesAtMostOnce(st: StoreState, body: Option<ChatRequest>, isUuid: JsString -> bool, out: Outside, k: SessionId)
    requires k in st.sessions && Closed(st.sessions[k])
    ensures Turn(st, body, isUuid, out).state.sessions[k] == st.sessions[k]
    ensures History(Turn(st, body, isUuid, out).state.messages, k) == History(st.messages, k)
  {
    if RequestValid(body, isUuid) && k == body.value.sessionId {
      assert Turn(st, body, isUuid, out).state == st;
    } else {
      OtherSessionsUntouched(st, body, isUuid, out, k);
    }
  }

  /**
   * Under a working store and model, a turn on an open session with fewer
   * than `MAX_ASSISTANT_MESSAGES - 1` assistant messages continues, keeps the
   * session open and adds exactly one assistant message to its history.
   */
  lemma ContinuationAddsOneReply(st: StoreState, id: SessionId, user: UserId, isUuid: JsString -> bool,
                                 content: JsString, reply: JsString, json: Option<SummaryJson>)
    requires OwnedBy(st, id, user) && !Closed(st.sessions[id])
    requires isUuid(id) && ContentLengthOk(content) && reply != []
    requires AssistantCount(History(st.messages, id)) < MaxAssistantMessages - 1
    ensures var o := Turn(st, Some(ChatRequest(id, content)), isUuid, Outside(Some(user), NoFaults, Some(reply), json));
            o.response == Ok && OwnedBy(o.state, id, user) && !Closed(o.state.sessions[id])
            && AssistantCount(History(o.state.messages, id)) == AssistantCount(History(st.messages, id)) + 1
  {
    var body := Some(ChatRequest(id, content));
    var out := Outside(Some(user), NoFaults, Some(reply), json);
    ModeFollowsAssistantCount(st, body, isUuid, out);
    ContinuedTurn(st, body, isUuid, out);
    var o := Turn(st, body, isUuid, out);
    var userRow := MessageRow(id, User, content);
    var replyRow := MessageRow(id, Assistant, SanitizeContent(reply));
    var h := History(st.messages, id);
    assert o.state.messages == (st.messages + [userRow]) + [replyRow];
    HistoryAppend(st.messages, userRow, id);
    HistoryAppend(st.messages + [userRow], replyRow, id);
    AssistantCountAppend(h, ChatMessage(User, content));
    AssistantCountAppend(h + [ChatMessage(User, content)], ChatMessage(Assistant, SanitizeContent(reply)));
  }

  /**
   * A fresh session under a working store and model: the first two turns get
   * coaching replies, the third summarizes and closes it, and a fourth is
   * rejected with 400.
   */
  lemma ThreeTurnDialogue(st: StoreState, id: SessionId, user: UserId, isUuid: JsString -> bool,
                          c1: JsString, c2: JsString, c3: JsString, c4: JsString,
                          r1: JsString, r2: JsString, r3: JsString, json: Option<SummaryJson>, out4: Outside)
    requires OwnedBy(st, id, user) && !Closed(st.sessions[id]) && History(st.messages, id) == []
    requires isUuid(id) && ContentLengthOk(c1) && ContentLengthOk(c2) && ContentLengthOk(c3) && ContentLengthOk(c4)
    requires r1 != [] && r2 != [] && r3 != []
    requires out4.caller == Some(user)
    ensures var o1 := Turn(st, Some(ChatRequest(id, c1)), isUuid, Outside(Some(user), NoFaults, Some(r1), None));
            var o2 := Turn(o1.state, Some(ChatRequest(id, c2)), isUuid, Outside(Some(user), NoFaults, Some(r2), None));
            var o3 := Turn(o2.state, Some(ChatRequest(id, c3)), isUuid, Outside(Some(user), NoFaults, Some(r3), json));
            var o4 := Turn(o3.state, Some(ChatRequest(id, c4)), isUuid, out4);
            o1.response == Ok && o2.response == Ok && o3.response == Summarized
            && Closed(o3.state.sessions[id]) && o4 == Outcome(Error(BadRequest), o3.state)
  {
    var o1 := Turn(st, Some(ChatRequest(id, c1)), isUuid, Outside(Some(user), NoFaults, Some(r1), None));
    assert o1.response == Ok && OwnedBy(o1.state, id, user) && !Closed(o1.state.sessions[id])
           && AssistantCount(History(o1.state.messages, id)) == 1 by {
      assert AssistantCount(History(st.messages, id)) == 0;
      ContinuationAddsOneReply(st, id, user, isUuid, c1, r1, None);
    }
    var o2 := Turn(o1.state, Some(ChatRequest(id, c2)), isUuid, Outside(Some(user), NoFaults, Some(r2), None));
    assert o2.response == Ok && OwnedBy(o2.state, id, user) && !Closed(o2.state.sessions[id])
           && AssistantCount(History(o2.state.messages, id)) == 2 by {
      ContinuationAddsOneReply(o1.state, id, user, isUuid, c2, r2, None);
    }
    var out3 := Outside(Some(user), NoFaults, Some(r3), json);
    var o3 := Turn(o2.state, Some(ChatRequest(id, c3)), isUuid, out3);
    assert o3.response == Summarized by {
      ModeFollowsAssistantCount(o2.state, Some(ChatRequest(id, c3)), isUuid, out3);
    }
    assert OwnedBy(o3.state, id, user) && Closed(o3.state.sessions[id]) by {
      SummarizedTurn(o2.state, Some(ChatRequest(id, c3)), isUuid, out3);
    }
    ClosedSessionRejected(o3.state, Some(ChatRequest(id, c4)), isUuid, out4);
  }
}
