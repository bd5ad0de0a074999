/**
 * The `sessions` and `messages` tables as an in-memory store, with the chat
 * route's `POST` as a step-by-step method over it.
 */
module SessionStore {
  import opened Wrappers
  import opened JsText
  import opened ChatRules
  import opened ChatTurn
  import TurnProperties

  class Store {
    var sessions: map<SessionId, Session>
    var messages: seq<MessageRow>

    function State(): StoreState
      reads this
    {
      StoreState(sessions, messages)
    }

    /**
     * The tables' foreign-key invariant: every message row belongs to an
     * existing session. `Post` only preserves it; its equation to `Turn` does
     * not depend on it.
     */
    ghost predicate Valid()
      reads this
    {
      Consistent(State())
    }

    /** The tables as they stand when a request arrives. */
    constructor (sessions0: map<SessionId, Session>, messages0: seq<MessageRow>)
      requires Consistent(StoreState(sessions0, messages0))
      ensures Valid() && sessions == sessions0 && messages == messages0
    {
      sessions := sessions0;
      messages := messages0;
    }

    /**
     * `POST /api/chat`: validate, authorize, look the session up, refuse a
     * closed one, store the user message, count the assistant messages, then
     * summarize and close, or store a coaching reply and back-fill the title.
     */
    method Post(body: Option<ChatRequest>, isUuid: JsString -> bool, out: Outside) returns (response: Response)
      requires Valid()
      modifies this
      ensures Valid()
      ensures Outcome(response, State()) == Turn(old(State()), body, isUuid, out)
    {
      ghost var st := State();
      TurnProperties.TurnKeepsConsistent(st, body, isUuid, out);
      if !RequestValid(body, isUuid) {
        return Error(BadRequest);
      }
      if out.caller.None? {
        return Error(Unauthorized);
      }
      var id := body.value.sessionId;
      var content := body.value.content;
      if !(id in sessions && sessions[id].owner == out.caller.value) {
        return Error(NotFound);
      }
      var session := sessions[id];
      if Closed(session) {
        return Error(BadRequest);
      }

      if out.faults.userInsertFails {
        return Error(ServerError);
      }
      messages := messages + [MessageRow(id, User, content)];

      var assistantCount: Option<nat> := None;
      if !out.faults.historyReadFails {
        assistantCount := Some(AssistantCount(History(messages, id)));
      }

      if ShouldSummarize(assistantCount) {
        if !ReplyUsable(out.reply) {
          return Error(ServerError);
        }
        var payload := ResolveSummary(out.reply.value, out.json);
        if out.faults.assistantInsertFails {
          return Error(ServerError);
        }
        messages := messages + [MessageRow(id, Assistant, Announcement(payload.summary))];
        if out.faults.sessionUpdateFails {
          return Error(ServerError);
        }
        sessions := sessions[id := CloseWith(session, payload)];
        return Summarized;
      }

      if !ReplyUsable(out.reply) {
        return Error(ServerError);
      }
      if out.faults.assistantInsertFails {
        return Error(ServerError);
      }
      messages := messages + [MessageRow(id, Assistant, SanitizeContent(out.reply.value))];
      if NeedsTitle(session.title) && !out.faults.titleUpdateFails {
        sessions := sessions[id := session.(title := Some(TitleCandidate(content)))];
      }
      return Ok;
    }
  }
}
