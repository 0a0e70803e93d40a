/** The chat-session table kept in a Notion database: one row per LINE
    user, holding the conversation mode, the last-activity time and the
    Notion page id of the row. Times are ISO strings supplied by the caller
    (the source reads the clock); a newly created row's page id is the one
    Notion assigns, also supplied by the caller. */
module NotionSessions {
  import opened Wrappers

  datatype Mode = AI | Human

  /** A stored row; `mode` and `lastActive` are `None` when the property is
      empty in Notion. */
  datatype SessionRow = SessionRow(pageId: string, mode: Option<Mode>, lastActive: Option<string>)

  /** What `getChatSession` returns. */
  datatype ChatSession = ChatSession(lineUserId: string, mode: Mode, lastActive: string, pageId: Option<string>)

  /** A row without a mode is in AI mode. */
  function ResolveMode(stored: Option<Mode>): (m: Mode)
    ensures stored.None? ==> m == AI
    ensures stored.Some? ==> m == stored.value
  {
    match stored
    case None => AI
    case Some(m) => m
  }

  /** The rows after the upsert of `updateChatSession` with a configured
      database: the user's existing row keeps its page id and takes the new
      mode and time; a missing row, or one whose page id is empty (falsy in
      the source), is written with `newPageId`. */
  function Upserted(rows: map<string, SessionRow>, lineUserId: string, mode: Mode, now: string,
                    newPageId: string): (after: map<string, SessionRow>)
    ensures after.Keys == rows.Keys + {lineUserId}
    ensures after[lineUserId].mode == Some(mode) && after[lineUserId].lastActive == Some(now)
    ensures forall other :: other in rows && other != lineUserId ==> after[other] == rows[other]
  {
    var pageId := if lineUserId in rows && rows[lineUserId].pageId != "" then rows[lineUserId].pageId else newPageId;
    rows[lineUserId := SessionRow(pageId, Some(mode), Some(now))]
  }

  class SessionStore {
    /** NOTION_SESSION_DB_ID, "" when unset. */
    const sessionDbId: string
    /** The table, keyed by LINE user id. */
    var rows: map<string, SessionRow>

    constructor (sessionDbId: string, rows: map<string, SessionRow>)
      ensures this.sessionDbId == sessionDbId && this.rows == rows
    {
      this.sessionDbId := sessionDbId;
      this.rows := rows;
    }

    /** `getChatSession`: `None` when the database is not configured or the
        user has no row; otherwise the row with a missing mode read as AI
        and a missing time read as `now`. Reading creates nothing. */
    method GetChatSession(lineUserId: string, now: string) returns (s: Option<ChatSession>)
      ensures sessionDbId == "" || lineUserId !in rows ==> s == None
      ensures sessionDbId != "" && lineUserId in rows ==>
                s.Some? && s.value.lineUserId == lineUserId &&
                s.value.mode == ResolveMode(rows[lineUserId].mode) &&
                s.value.pageId == Some(rows[lineUserId].pageId) &&
                s.value.lastActive == (match rows[lineUserId].lastActive
                                       case Some(t) => if t != "" then t else now
                                       case None => now)
    {
      if sessionDbId == "" {
        return None;
      }
      if lineUserId !in rows {
        return None;
      }
      var row := rows[lineUserId];
      var mode := AI;
      if row.mode.Some? {
        mode := row.mode.value;
      }
      var lastActive := now;
      if row.lastActive.Some? && row.lastActive.value != "" {
        lastActive := row.lastActive.value;
      }
      s := Some(ChatSession(lineUserId, mode, lastActive, Some(row.pageId)));
    }

    /** `updateChatSession`: nothing when the database is not configured;
        otherwise update the user's row in place or create exactly one. */
    method UpdateChatSession(lineUserId: string, mode: Mode, now: string, newPageId: string)
      modifies this
      ensures sessionDbId == "" ==> rows == old(rows)
      ensures sessionDbId != "" ==> rows == Upserted(old(rows), lineUserId, mode, now, newPageId)
    {
      if sessionDbId == "" {
        return;
      }
      var existing := GetChatSession(lineUserId, now);
      if existing.Some? && existing.value.pageId.Some? && existing.value.pageId.value != "" {
        rows := rows[lineUserId := SessionRow(existing.value.pageId.value, Some(mode), Some(now))];
      } else {
        rows := rows[lineUserId := SessionRow(newPageId, Some(mode), Some(now))];
      }
    }
  }

  // ---------------------------------------------------------------------
  // Properties of the upsert
  // ---------------------------------------------------------------------

  /** No other user's row changes. */
  lemma UpsertKeepsOthers(rows: map<string, SessionRow>, lineUserId: string, mode: Mode, now: string,
                          newPageId: string, other: string)
    requires other != lineUserId
    ensures other in Upserted(rows, lineUserId, mode, now, newPageId) <==> other in rows
    ensures other in rows ==> Upserted(rows, lineUserId, mode, now, newPageId)[other] == rows[other]
  {
  }

  /** The user ends with a row in the new mode; an existing row with a page
      id keeps it, so it is the same row updated in place. */
  lemma UpsertWritesMode(rows: map<string, SessionRow>, lineUserId: string, mode: Mode, now: string,
                         newPageId: string)
    ensures lineUserId in Upserted(rows, lineUserId, mode, now, newPageId)
    ensures ResolveMode(Upserted(rows, lineUserId, mode, now, newPageId)[lineUserId].mode) == mode
    ensures lineUserId in rows && rows[lineUserId].pageId != "" ==>
              Upserted(rows, lineUserId, mode, now, newPageId)[lineUserId].pageId == rows[lineUserId].pageId
    ensures lineUserId !in rows || rows[lineUserId].pageId == "" ==>
              Upserted(rows, lineUserId, mode, now, newPageId)[lineUserId].pageId == newPageId
  {
  }

  /** An update adds no row; a creation adds exactly one. */
  lemma UpsertRowCount(rows: map<string, SessionRow>, lineUserId: string, mode: Mode, now: string,
                       newPageId: string)
    ensures |Upserted(rows, lineUserId, mode, now, newPageId)| == |rows| + (if lineUserId in rows then 0 else 1)
  {
    var after := Upserted(rows, lineUserId, mode, now, newPageId);
    assert after.Keys == rows.Keys + {lineUserId};
    if lineUserId !in rows {
      assert |rows.Keys + {lineUserId}| == |rows.Keys| + 1;
    } else {
      assert rows.Keys + {lineUserId} == rows.Keys;
    }
  }

  /** Setting the same mode twice leaves the same single row as setting it
      once (apart from the later time); the row's page id is the first write's
      unless that write left it empty. */
  lemma UpsertIdempotent(rows: map<string, SessionRow>, lineUserId: string, mode: Mode, now1: string,
                         now2: string, newPageId1: string, newPageId2: string)
    ensures Upserted(Upserted(rows, lineUserId, mode, now1, newPageId1), lineUserId, mode, now2, newPageId2) ==
            Upserted(rows, lineUserId, mode, now2, if newPageId1 != "" then newPageId1 else newPageId2)
  {
  }
}
