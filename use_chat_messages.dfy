/**
 * The chat-messages hook of the front end: fetching the messages of the
 * selected chat, inserting one message, and the user-message / AI-reply /
 * assistant-message sequence. The `chat_messages` table is a field of the
 * hook's object; every insert stamps its row with a database clock that
 * never runs backwards, and `log` records the effects in the order they
 * happen.
 */
module UseChatMessages {
  import opened Common
  import Text

  datatype Role = User | Assistant

  /** A row of `chat_messages`. */
  datatype Row = Row(chatId: string, role: Role, content: string, userId: string, createdAt: int)

  /** What the hook does to the outside world. */
  datatype Event =
    | Inserted(row: Row)
    | Invalidated(chatId: string)
    | Invoked(query: string, dataProfile: string)

  /** How the `ai-chat` function call ends. */
  datatype AiOutcome =
    | ReturnedError
    | Threw
    | Returned(content: Option<string>)

  const ChatNotSelected := "Chat not selected"
  const ErrorReply := "Sorry, there was an error getting a response from the AI assistant."
  const InternalErrorReply := "Sorry, there was an internal error getting a response from the AI assistant."
  const NoResponseReply := "No response from AI assistant."

  /** The assistant text stored for each way the AI call can end. */
  function AiReply(outcome: AiOutcome): (reply: string)
    ensures outcome.ReturnedError? ==> reply == ErrorReply
    ensures outcome.Threw? ==> reply == InternalErrorReply
    ensures outcome.Returned? && outcome.content.None? ==> reply == NoResponseReply
    ensures outcome.Returned? && outcome.content.Some? ==> reply == outcome.content.value
  {
    match outcome
    case ReturnedError => ErrorReply
    case Threw => InternalErrorReply
    case Returned(content) => content.GetOr(NoResponseReply)
  }

  /** Rows in ascending `created_at` order. */
  predicate Ascending(rows: seq<Row>) {
    forall i, j :: 0 <= i < j < |rows| ==> rows[i].createdAt <= rows[j].createdAt
  }

  /** The rows of `table` belonging to chat `chat`, in table order. */
  function ChatRows(table: seq<Row>, chat: string): (rows: seq<Row>)
    ensures |rows| <= |table|
  {
    if table == [] then []
    else
      var last := table[|table| - 1];
      ChatRows(table[..|table| - 1], chat) + (if last.chatId == chat then [last] else [])
  }

  /** A row is selected exactly when it is in the table and belongs to the chat. */
  lemma {:induction false} ChatRowsMembers(table: seq<Row>, chat: string)
    ensures forall r :: r in ChatRows(table, chat) <==> r in table && r.chatId == chat
  {
    if table != [] {
      var front := table[..|table| - 1];
      ChatRowsMembers(front, chat);
      assert table == front + [table[|table| - 1]];
    }
  }

  /** Selecting the rows of one chat keeps an ascending table ascending. */
  lemma {:induction false} ChatRowsAscending(table: seq<Row>, chat: string)
    requires Ascending(table)
    ensures Ascending(ChatRows(table, chat))
  {
    if table != [] {
      var front := table[..|table| - 1];
      var last := table[|table| - 1];
      assert Ascending(front);
      ChatRowsAscending(front, chat);
      ChatRowsMembers(front, chat);
      forall r | r in ChatRows(front, chat)
        ensures r.createdAt <= last.createdAt
      {
        var k :| 0 <= k < |front| && front[k] == r;
        assert table[k] == r;
      }
    }
  }

  /** Appending a row stamped no earlier than every row keeps the table ascending. */
  lemma AppendAscending(table: seq<Row>, row: Row)
    requires Ascending(table)
    requires forall i :: 0 <= i < |table| ==> table[i].createdAt <= row.createdAt
    ensures Ascending(table + [row])
  {
  }

  /**
   * `row` placed into the ascending `rows` after every row stamped no later
   * than it, as a stable sort on `created_at` places it.
   */
  function InsertByTime(row: Row, rows: seq<Row>): seq<Row> {
    if rows == [] || rows[|rows| - 1].createdAt <= row.createdAt then rows + [row]
    else InsertByTime(row, rows[..|rows| - 1]) + [rows[|rows| - 1]]
  }

  /** `.order("created_at", { ascending: true })`: a stable insertion sort of `rows`. */
  function SortByTime(rows: seq<Row>): seq<Row> {
    if rows == [] then []
    else InsertByTime(rows[|rows| - 1], SortByTime(rows[..|rows| - 1]))
  }

  /** Dropping the last row of an ascending list keeps it ascending, and that row is stamped last. */
  lemma AscendingInit(rows: seq<Row>)
    requires Ascending(rows) && rows != []
    ensures Ascending(rows[..|rows| - 1])
    ensures forall i :: 0 <= i < |rows| - 1 ==> rows[i].createdAt <= rows[|rows| - 1].createdAt
  {
  }

  /** A rearrangement of rows stamped no later than `bound` has no row stamped later either. */
  lemma StampsBounded(rows: seq<Row>, original: seq<Row>, bound: int)
    requires multiset(rows) == multiset(original)
    requires forall i :: 0 <= i < |original| ==> original[i].createdAt <= bound
    ensures forall i :: 0 <= i < |rows| ==> rows[i].createdAt <= bound
  {
    forall i | 0 <= i < |rows|
      ensures rows[i].createdAt <= bound
    {
      assert rows[i] in multiset(original);
    }
  }

  /** Inserting into an ascending list keeps it ascending and adds exactly the one row. */
  lemma {:induction false} InsertByTimeSorts(row: Row, rows: seq<Row>)
    requires Ascending(rows)
    ensures Ascending(InsertByTime(row, rows))
    ensures multiset(InsertByTime(row, rows)) == multiset(rows) + multiset{row}
    decreases |rows|
  {
    if rows == [] {
      AppendAscending(rows, row);
    } else {
      var init, last := rows[..|rows| - 1], rows[|rows| - 1];
      assert rows == init + [last];
      AscendingInit(rows);
      if last.createdAt <= row.createdAt {
        AppendAscending(rows, row);
      } else {
        InsertByTimeSorts(row, init);
        var placed := InsertByTime(row, init);
        StampsBounded(placed, init + [row], last.createdAt);
        AppendAscending(placed, last);
      }
    }
  }

  /** The sort gives an ascending permutation of its input. */
  lemma {:induction false} SortByTimeSorts(rows: seq<Row>)
    ensures Ascending(SortByTime(rows))
    ensures multiset(SortByTime(rows)) == multiset(rows)
  {
    if rows != [] {
      var init, last := rows[..|rows| - 1], rows[|rows| - 1];
      assert rows == init + [last];
      SortByTimeSorts(init);
      InsertByTimeSorts(last, SortByTime(init));
    }
  }

  /** The sort leaves rows that are already ascending as they are. */
  lemma {:induction false} SortByTimeKeepsAscending(rows: seq<Row>)
    requires Ascending(rows)
    ensures SortByTime(rows) == rows
  {
    if rows != [] {
      var init, last := rows[..|rows| - 1], rows[|rows| - 1];
      AscendingInit(rows);
      assert init == [] || init[|init| - 1].createdAt <= last.createdAt;
      calc {
        SortByTime(rows);
        InsertByTime(last, SortByTime(init));
        { SortByTimeKeepsAscending(init); }
        InsertByTime(last, init);
        init + [last];
      }
      assert rows == init + [last];
    }
  }

  /** `useChatMessages(chatId)`: the hook bound to one (possibly unselected) chat. */
  class ChatMessages {
    const chatId: Option<string>
    var table: seq<Row>
    var clock: int
    var log: seq<Event>

    /** Rows are stamped in ascending order, none later than the clock. */
    predicate Valid()
      reads this
    {
      Ascending(table) && forall i :: 0 <= i < |table| ==> table[i].createdAt <= clock
    }

    constructor(chatId: Option<string>, table: seq<Row>, clock: int)
      requires Ascending(table) && forall i :: 0 <= i < |table| ==> table[i].createdAt <= clock
      ensures Valid()
      ensures this.chatId == chatId && this.table == table && this.clock == clock && log == []
    {
      this.chatId := chatId;
      this.table := table;
      this.clock := clock;
      log := [];
    }

    /**
     * The query function: [] without a chat, otherwise the rows of the
     * chat sorted by `created_at`, or the database's error. As the table is
     * kept in stamp order, the sorted rows are the chat's rows in table order.
     */
    method Fetch(failure: Option<string>) returns (r: Result<seq<Row>, string>)
      requires Valid()
      ensures !Truthy(chatId) ==> r == Ok([])
      ensures Truthy(chatId) && failure.Some? ==> r == Err(failure.value)
      ensures Truthy(chatId) && failure.None? ==>
        r.Ok? && Ascending(r.value) && multiset(r.value) == multiset(ChatRows(table, chatId.value))
      ensures Truthy(chatId) && failure.None? ==> r == Ok(ChatRows(table, chatId.value))
      ensures Truthy(chatId) && failure.None? ==>
        forall row :: row in r.value <==> row in table && row.chatId == chatId.value
    {
      if !Truthy(chatId) {
        return Ok([]);
      }
      if failure.Some? {
        return Err(failure.value);
      }
      var selected := ChatRows(table, chatId.value);
      var ordered := SortByTime(selected);
      SortByTimeSorts(selected);
      ChatRowsAscending(table, chatId.value);
      SortByTimeKeepsAscending(selected);
      ChatRowsMembers(table, chatId.value);
      return Ok(ordered);
    }

    /**
     * `sendMessage`: without a chat it fails before inserting; otherwise the
     * row is inserted, stamped `elapsed` after the clock, and the chat's
     * cached list is invalidated, unless the database reports `failure`.
     */
    method SendMessage(role: Role, content: string, userId: string, failure: Option<string>, elapsed: nat)
      returns (r: Result<Row, string>)
      requires Valid()
      modifies this
      ensures Valid()
      ensures !Truthy(chatId) ==> r == Err(ChatNotSelected)
      ensures Truthy(chatId) && failure.Some? ==> r == Err(failure.value)
      ensures r.Err? ==> table == old(table) && clock == old(clock) && log == old(log)
      ensures Truthy(chatId) && failure.None? ==>
        r == Ok(Row(chatId.value, role, content, userId, old(clock) + elapsed)) &&
        table == old(table) + [r.value] && clock == old(clock) + elapsed &&
        log == old(log) + [Inserted(r.value), Invalidated(chatId.value)]
    {
      if !Truthy(chatId) {
        return Err(ChatNotSelected);
      }
      if failure.Some? {
        return Err(failure.value);
      }
      var row := Row(chatId.value, role, content, userId, clock + elapsed);
      AppendAscending(table, row);
      table := table + [row];
      clock := clock + elapsed;
      log := log + [Inserted(row), Invalidated(chatId.value)];
      return Ok(row);
    }

    /**
     * `sendUserMessageWithAIReply`: insert the user's message, call the AI
     * function, then insert the assistant's reply, whatever the call gave.
     * `userFailure` and `replyFailure` are the database's answers to the two
     * inserts, `outcome` the AI call's.
     */
    method SendUserMessageWithAIReply(userId: string, userContent: string, dataProfile: string,
                                      userFailure: Option<string>, outcome: AiOutcome, replyFailure: Option<string>,
                                      elapsed1: nat, elapsed2: nat)
      returns (r: Result<(), string>)
      requires Valid()
      modifies this
      ensures Valid()
      ensures !Truthy(chatId) ==> r == Err(ChatNotSelected) && table == old(table) && log == old(log)
      ensures Truthy(chatId) && userFailure.Some? ==>
        r == Err(userFailure.value) && table == old(table) && log == old(log)
      ensures Truthy(chatId) && userFailure.None? ==>
        var chat := chatId.value;
        var asked := Row(chat, User, userContent, userId, old(clock) + elapsed1);
        var answered := Row(chat, Assistant, AiReply(outcome), userId, old(clock) + elapsed1 + elapsed2);
        var first := [Inserted(asked), Invalidated(chat), Invoked(userContent, dataProfile)];
        (replyFailure.None? ==>
          r == Ok(()) && table == old(table) + [asked, answered] &&
          log == old(log) + first + [Inserted(answered), Invalidated(chat)]) &&
        (replyFailure.Some? ==>
          r == Err(replyFailure.value) && table == old(table) + [asked] && log == old(log) + first)
    {
      if !Truthy(chatId) {
        return Err(ChatNotSelected);
      }
      var sent := SendMessage(User, userContent, userId, userFailure, elapsed1);
      if sent.Err? {
        return Err(sent.error);
      }
      log := log + [Invoked(userContent, dataProfile)];
      var reply := AiReply(outcome);
      var saved := SendMessage(Assistant, reply, userId, replyFailure, elapsed2);
      if saved.Err? {
        return Err(saved.error);
      }
      return Ok(());
    }
  }

  /** Rows inserted for the chat come last in its message list, in insertion order. */
  lemma {:induction false} NewRowsListedLast(table: seq<Row>, added: seq<Row>, chat: string)
    requires forall i :: 0 <= i < |added| ==> added[i].chatId == chat
    ensures ChatRows(table + added, chat) == ChatRows(table, chat) + added
    decreases |added|
  {
    if added == [] {
      assert table + added == table;
    } else {
      var front := added[..|added| - 1];
      var last := added[|added| - 1];
      calc {
        ChatRows(table + added, chat);
      == { assert table + added == (table + front) + [last]; }
        ChatRows((table + front) + [last], chat);
      == { AppendOne(table + front, last, chat); }
        ChatRows(table + front, chat) + [last];
      == { NewRowsListedLast(table, front, chat); }
        (ChatRows(table, chat) + front) + [last];
      == { Text.AppendAssoc(ChatRows(table, chat), front, [last]); assert front + [last] == added; }
        ChatRows(table, chat) + added;
      }
    }
  }

  /** The selection of a table with one more row. */
  lemma AppendOne(table: seq<Row>, row: Row, chat: string)
    ensures ChatRows(table + [row], chat) == ChatRows(table, chat) + (if row.chatId == chat then [row] else [])
  {
    assert (table + [row])[..|table|] == table;
  }

  /** The three placeholder replies are distinct, so the stored text tells the failures apart. */
  lemma PlaceholdersDistinct()
    ensures AiReply(ReturnedError) != AiReply(Threw)
    ensures AiReply(ReturnedError) != AiReply(Returned(None))
    ensures AiReply(Threw) != AiReply(Returned(None))
  {
    assert |ErrorReply| == 67 && |InternalErrorReply| == 76 && |NoResponseReply| == 30;
  }

  /** An empty reply from the AI function is stored as the empty text, not as the fallback. */
  lemma EmptyContentKept()
    ensures AiReply(Returned(Some(""))) == ""
  {
  }
}
