/**
 * The `ai-chat` edge function: it checks that the request names a query
 * and a data profile, builds a fixed prompt around them, sends it to the
 * chat completion API and answers with the reply's content. The API key,
 * the request body and the API's reply are parameters.
 */
module AiChat {
  import opened Common
  import opened Text

  /** The request body, once `req.json()` has run: its two fields, either of which may be absent. */
  datatype Body = Unreadable(message: string) | Fields(query: Option<string>, dataProfile: Option<string>)

  /** The chat completion reply: not OK (with its text), a JSON body (with the first choice's content, if any), or a thrown error. */
  datatype Reply = NotOk(text: string) | Json(content: Option<string>) | Threw(message: string)

  /** The request sent to the chat completion API. */
  datatype Call = Call(authorization: string, model: string, prompt: string, temperature: real, maxTokens: nat)

  datatype ResponseBody = Preflight | Content(content: string) | Failure(error: string)

  datatype Response = Response(status: int, body: ResponseBody)

  const Preamble := @"
Task: Analyze dataset
Data Profile: "
  const QueryLabel := @"
User Query: "
  const Requirements := @"

Requirements:
1. Generate Python code using df, plt, sns these functions already imported DO NOT import again
2. Store numerical results in 'analysis_result'
3. Create publication-quality visualization
4. Never use unsafe functions, 

Follow these Examples = 

Example 1 (Titanic):
Query: ""Analyze survival rates by passenger class""
Hypothesis: First-class passengers had higher survival rates
Code: ```python
plt.figure(figsize=(10,6))
class_survival = df.groupby('Pclass')['Survived'].mean()
sns.barplot(x=class_survival.index, y=class_survival.values, palette=""viridis"")
plt.ylabel(""Survival Rate"")
plt.title(""Survival Rates by Passenger Class"")
analysis_result = class_survival
```

Example 2 (Boston Housing):
Query: ""Show relationship between crime rate and home prices""
Hypothesis: Higher crime rates correlate with lower median home values
Code: ```python
plt.figure(figsize=(10,6))
sns.scatterplot(x='CRIM', y='MEDV', data=df, alpha=0.6)
plt.xlabel(""Crime Rate per Capita"")
plt.ylabel(""Median Home Value ($1000s)"")
plt.title(""Crime Rate vs. Home Value"")
analysis_result = df[['CRIM', 'MEDV']].corr().iloc[0,1] # Pearson's 
```

Response Format:
Hypothesis: [Your initial prediction]
Code: ```python
# Your code
```
"

  /** `buildPrompt`: the fixed text with the data profile and then the query inserted. */
  function BuildPrompt(query: string, dataProfile: string): (prompt: string)
    ensures StartsWith(prompt, Preamble + dataProfile + QueryLabel + query)
    ensures EndsWith(prompt, Requirements)
    ensures |prompt| == |Preamble| + |dataProfile| + |QueryLabel| + |query| + |Requirements|
  {
    var head := Preamble + dataProfile + QueryLabel + query;
    var prompt := head + Requirements;
    assert prompt[..|head|] == head;
    assert prompt[|head|..] == Requirements;
    prompt
  }

  /** The profile follows "Data Profile: " and the query follows "User Query: " on the next line. */
  lemma PromptLabels()
    ensures EndsWith(Preamble, "Data Profile: ")
    ensures QueryLabel == "\nUser Query: "
  {
    assert Preamble[|Preamble| - 14..] == "Data Profile: ";
  }

  /** Two prompts with profiles of equal length are equal only for equal profiles and queries. */
  lemma BuildPromptInjective(query1: string, profile1: string, query2: string, profile2: string)
    requires |profile1| == |profile2|
    requires BuildPrompt(query1, profile1) == BuildPrompt(query2, profile2)
    ensures query1 == query2 && profile1 == profile2
  {
    var p1 := BuildPrompt(query1, profile1);
    var p2 := BuildPrompt(query2, profile2);
    var k := |Preamble|;
    assert |query1| == |query2|;
    assert p1[..k + |profile1| + |QueryLabel| + |query1|] == Preamble + profile1 + QueryLabel + query1;
    assert p2[..k + |profile2| + |QueryLabel| + |query2|] == Preamble + profile2 + QueryLabel + query2;
    var h1 := Preamble + profile1 + QueryLabel + query1;
    var h2 := Preamble + profile2 + QueryLabel + query2;
    assert h1 == h2;
    assert profile1 == h1[k..k + |profile1|];
    assert profile2 == h2[k..k + |profile2|];
    assert query1 == h1[k + |profile1| + |QueryLabel|..];
    assert query2 == h2[k + |profile2| + |QueryLabel|..];
  }

  /** The header value sent: an absent key is rendered as "undefined", as the template literal does. */
  function Authorization(apiKey: Option<string>): (header: string)
    ensures apiKey.Some? ==> header == "Bearer " + apiKey.value
  {
    "Bearer " + apiKey.GetOr("undefined")
  }

  /** `error.message || "Internal error"`. */
  function ErrorText(message: string): (text: string)
    ensures text != ""
    ensures message != "" ==> text == message
  {
    if message != "" then message else "Internal error"
  }

  /** The handler: validation, one API call, the reply's content or "". */
  method Handle(requestMethod: string, apiKey: Option<string>, body: Body, reply: Reply)
    returns (response: Response, calls: seq<Call>)
    ensures requestMethod == "OPTIONS" ==> response == Response(200, Preflight) && calls == []
    ensures requestMethod != "OPTIONS" && body.Fields? && !(Truthy(body.query) && Truthy(body.dataProfile)) ==>
      response == Response(400, Failure("Missing query or data_profile")) && calls == []
    ensures calls != [] ==>
      body.Fields? && Truthy(body.query) && Truthy(body.dataProfile) &&
      calls == [Call(Authorization(apiKey), "gpt-4", BuildPrompt(body.query.value, body.dataProfile.value), 0.2, 1200)]
    ensures requestMethod != "OPTIONS" && body.Fields? && Truthy(body.query) && Truthy(body.dataProfile) ==>
      calls != [] &&
      (reply.NotOk? ==> response == Response(500, Failure("OpenAI error: " + reply.text))) &&
      (reply.Json? ==> response == Response(200, Content(reply.content.GetOr("")))) &&
      (reply.Threw? ==> response == Response(500, Failure(ErrorText(reply.message))))
    ensures requestMethod != "OPTIONS" && body.Unreadable? ==>
      response == Response(500, Failure(ErrorText(body.message))) && calls == []
  {
    calls := [];
    if requestMethod == "OPTIONS" {
      return Response(200, Preflight), calls;
    }
    if body.Unreadable? {
      return Response(500, Failure(ErrorText(body.message))), calls;
    }
    if !Truthy(body.query) || !Truthy(body.dataProfile) {
      return Response(400, Failure("Missing query or data_profile")), calls;
    }
    var prompt := BuildPrompt(body.query.value, body.dataProfile.value);
    calls := calls + [Call(Authorization(apiKey), "gpt-4", prompt, 0.2, 1200)];
    match reply {
      case NotOk(text) =>
        return Response(500, Failure("OpenAI error: " + text)), calls;
      case Threw(message) =>
        return Response(500, Failure(ErrorText(message))), calls;
      case Json(content) =>
        return Response(200, Content(content.GetOr(""))), calls;
    }
  }
}
