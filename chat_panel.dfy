/**
 * The chat panel of the analysis page: its list of messages, the submit
 * handler that appends the user's query and a "Thinking..." placeholder,
 * the effect that replaces that placeholder once loading ends, and the
 * example queries offered per dataset. Message ids come from the clock and
 * are parameters here; `isLoading` is the parent's prop.
 */
module ChatPanel {
  import opened Text

  datatype Role = User | Assistant

  datatype Message = Message(id: string, role: Role, content: string)

  const Greeting := "Hi! I'm your data analysis assistant. Select a dataset and ask me a question about it."
  const Thinking := "Thinking..."
  const Completion := "Here's the analysis you requested. Check the visualization tab to see the results."

  /** Whether the list ends with the "Thinking..." placeholder. */
  predicate EndsThinking(messages: seq<Message>) {
    |messages| > 0 && messages[|messages| - 1].content == Thinking
  }

  /** The list after a submit of `input` that passes the guard. */
  function Submitted(messages: seq<Message>, input: string, userId: string, thinkingId: string): (r: seq<Message>)
    ensures |r| == |messages| + 2 && r[..|messages|] == messages
    ensures r[|messages|] == Message(userId, User, input)
    ensures r[|messages| + 1] == Message(thinkingId, Assistant, Thinking)
  {
    messages + [Message(userId, User, input)] + [Message(thinkingId, Assistant, Thinking)]
  }

  /** The list after the placeholder effect runs while not loading. */
  function Completed(messages: seq<Message>, id: string): (r: seq<Message>)
    ensures |r| == |messages|
    ensures EndsThinking(messages) ==>
      r[..|r| - 1] == messages[..|messages| - 1] && r[|r| - 1] == Message(id, Assistant, Completion)
    ensures !EndsThinking(messages) ==> r == messages
  {
    if EndsThinking(messages) then messages[..|messages| - 1] + [Message(id, Assistant, Completion)]
    else messages
  }

  const DefaultQueries := [
    "Show data distribution",
    "Plot correlation between columns",
    "Create a histogram of numerical values"]

  /** The example queries shown for a dataset. */
  function ExampleQueries(datasetId: string): (queries: seq<string>)
    ensures |queries| == 3
    ensures datasetId == "titanic" ==> queries[0] == "Plot survival rate by passenger class"
    ensures datasetId == "iris" ==> queries[0] == "Plot sepal length vs sepal width colored by species"
    ensures datasetId != "titanic" && datasetId != "iris" ==> queries == DefaultQueries
  {
    match datasetId
    case "titanic" => [
      "Plot survival rate by passenger class",
      "Create a histogram of passenger ages",
      "Show correlation between fare and survival"]
    case "iris" => [
      "Plot sepal length vs sepal width colored by species",
      "Create a histogram of petal lengths",
      "Show a boxplot of measurements by species"]
    case _ => DefaultQueries
  }

  /** `ChatPanel`'s state: the input box, the message list and the queries handed to the parent. */
  class ChatPanel {
    var input: string
    var messages: seq<Message>
    var submitted: seq<string>

    /** The panel starts with exactly one assistant greeting. */
    constructor()
      ensures input == "" && submitted == []
      ensures messages == [Message("1", Assistant, Greeting)]
    {
      input := "";
      messages := [Message("1", Assistant, Greeting)];
      submitted := [];
    }

    /** The user types into the input box. */
    method Type(text: string)
      modifies this`input
      ensures input == text
    {
      input := text;
    }

    /**
     * `handleSubmit`: blank input or a pending query changes nothing;
     * otherwise the user's message (untrimmed) and the placeholder are
     * appended, the query goes to the parent and the input is cleared.
     */
    method HandleSubmit(isLoading: bool, userId: string, thinkingId: string)
      modifies this
      ensures Blank(old(input)) || isLoading ==>
        input == old(input) && messages == old(messages) && submitted == old(submitted)
      ensures !(Blank(old(input)) || isLoading) ==>
        messages == Submitted(old(messages), old(input), userId, thinkingId) &&
        submitted == old(submitted) + [old(input)] && input == ""
    {
      if Trim(input) == "" || isLoading {
        return;
      }
      var userMessage := Message(userId, User, input);
      messages := messages + [userMessage];
      var thinkingMessage := Message(thinkingId, Assistant, Thinking);
      messages := messages + [thinkingMessage];
      submitted := submitted + [input];
      input := "";
    }

    /** The effect that swaps the placeholder for the completion message when loading has ended. */
    method ReplaceThinking(isLoading: bool, id: string)
      modifies this`messages
      ensures isLoading ==> messages == old(messages)
      ensures !isLoading ==> messages == Completed(old(messages), id)
    {
      if !isLoading && |messages| > 0 && messages[|messages| - 1].content == Thinking {
        var newMessages := messages;
        newMessages := newMessages[..|newMessages| - 1];
        newMessages := newMessages + [Message(id, Assistant, Completion)];
        messages := newMessages;
      }
    }
  }

  /** A submit followed by the effect leaves the user's message and one completion message. */
  lemma SubmitThenComplete(messages: seq<Message>, input: string, userId: string, thinkingId: string, id: string)
    ensures Completed(Submitted(messages, input, userId, thinkingId), id) ==
      messages + [Message(userId, User, input), Message(id, Assistant, Completion)]
  {
    var s := Submitted(messages, input, userId, thinkingId);
    assert EndsThinking(s);
    assert s[..|s| - 1] == messages + [Message(userId, User, input)];
  }

  /** Once the placeholder is replaced, running the effect again changes nothing. */
  lemma CompletedStable(messages: seq<Message>, id1: string, id2: string)
    requires EndsThinking(messages)
    ensures Completed(Completed(messages, id1), id2) == Completed(messages, id1)
  {
    var once := Completed(messages, id1);
    assert once[|once| - 1].content == Completion;
    assert |Completion| != |Thinking|;
  }
}
