/**
 * The `analyze` edge function: it looks the dataset up, asks the chat
 * completion API for code and then for an explanation of it, picks a
 * canned image, records the query and answers with all three. The
 * environment, the request body, the database and the two API replies are
 * parameters; `effects` lists the outside calls in the order they happen.
 */
module Analyze {
  import opened Common
  import opened Text

  /** The request body, once `req.json()` has run. */
  datatype Body = Unreadable(message: string) | Fields(datasetId: string, query: string)

  /** What `JSON.parse(datasetData.columns)` gives. */
  datatype ColumnsJson = ParsedColumns(columns: seq<string>) | Unparseable

  /** The `datasets` lookup: the row's name and columns, or the database's error (with its message, if any). */
  datatype Lookup = Found(name: string, columns: ColumnsJson) | NotFound(message: Option<string>)

  /** A chat completion reply: not OK (with its text), a message content, or a body without one (the TypeError's message). */
  datatype Reply = NotOk(text: string) | Content(content: string) | NoContent(message: string)

  /** A row of `queries`. */
  datatype QueryRow = QueryRow(datasetId: string, queryText: string, generatedCode: string, explanation: string,
                               executionTime: real, success: bool)

  datatype Effect =
    | ReadDataset(id: string)
    | Complete(system: string, user: string, temperature: real)
    | InsertQuery(row: QueryRow)

  datatype ResponseBody = Preflight | Answer(code: string, explanation: string, image: string) | Failure(error: string)

  datatype Response = Response(status: int, body: ResponseBody)

  const NoKey := "OpenAI API key is not configured"
  const ExplainerRole := "You are an expert at explaining data visualizations in simple terms."

  /** The columns used in the prompt: the parsed list, or [] when parsing fails. */
  function ColumnsOf(json: ColumnsJson): (columns: seq<string>)
    ensures json.Unparseable? ==> columns == []
    ensures json.ParsedColumns? ==> columns == json.columns
  {
    match json
    case ParsedColumns(columns) => columns
    case Unparseable => []
  }

  const SystemStart := @"You are a data science assistant that generates Python visualization code.
    The data is in a pandas DataFrame named 'df' with columns: "
  const SystemEnd := @".
    Generate high-quality Python code using pandas and matplotlib/seaborn to answer the query.
    Focus only on the visualization code, with no explanations or comments."

  /** The system prompt for code generation, naming the columns joined by ", ". */
  function SystemPrompt(columns: seq<string>): (prompt: string)
    ensures StartsWith(prompt, SystemStart + Join(columns, ", "))
    ensures EndsWith(prompt, SystemEnd)
  {
    var head := SystemStart + Join(columns, ", ");
    var prompt := head + SystemEnd;
    assert prompt[..|head|] == head;
    assert prompt[|head|..] == SystemEnd;
    prompt
  }

  const ExplainStart := @"Explain this data visualization in simple terms:
    
    Query: """
  const ExplainMiddle := @"""
    
    Code:
    "
  const ExplainEnd := @"
    
    Explain what insights can be drawn from this visualization in 3-4 sentences."

  /** The explanation prompt: the query in quotes, then the generated code. */
  function ExplanationPrompt(query: string, code: string): (prompt: string)
    ensures StartsWith(prompt, ExplainStart + query + ExplainMiddle + code)
    ensures EndsWith(prompt, ExplainEnd)
  {
    var head := ExplainStart + query + ExplainMiddle + code;
    var prompt := head + ExplainEnd;
    assert prompt[..|head|] == head;
    assert prompt[|head|..] == ExplainEnd;
    prompt
  }

  /** Whether the lowercased text contains `word`. */
  predicate Has(text: string, word: string) {
    Contains(Lower(text), word)
  }

  /** The canned images the handler can pick. */
  datatype Picture =
    | AgeHistogram | ClassSurvival | GenderSurvival | TitanicDefault
    | PetalHistogram | SepalScatter | Boxplot | IrisDefault

  /** The keyword test that selects each image; a default image is always selectable. */
  predicate Shows(p: Picture, query: string) {
    match p
    case AgeHistogram => Has(query, "age")
    case ClassSurvival => Has(query, "class") || Has(query, "survival")
    case GenderSurvival => Has(query, "gender")
    case PetalHistogram => Has(query, "petal")
    case SepalScatter => Has(query, "sepal") && Has(query, "scatter")
    case Boxplot => Has(query, "box")
    case TitanicDefault | IrisDefault => true
  }

  /** Each dataset's images, in the order their tests are tried, ending with its default. */
  const TitanicOrder: seq<Picture> := [AgeHistogram, ClassSurvival, GenderSurvival, TitanicDefault]
  const IrisOrder: seq<Picture> := [PetalHistogram, SepalScatter, Boxplot, IrisDefault]

  /** The URL of each image. */
  function PictureUrl(p: Picture): string {
    match p
    case AgeHistogram => "/titanic-age-histogram.png"
    case ClassSurvival => "/titanic-class-survival.png"
    case GenderSurvival => "/titanic-gender-survival.png"
    case TitanicDefault => "/titanic-default.png"
    case PetalHistogram => "/iris-petal-histogram.png"
    case SepalScatter => "/iris-sepal-scatter.png"
    case Boxplot => "/iris-boxplot.png"
    case IrisDefault => "/iris-default.png"
  }

  /** The titanic images: the first of `TitanicOrder` whose test holds. */
  function TitanicImage(query: string): (url: string)
    ensures StartsWith(url, "/titanic-")
    ensures url == PictureUrl(TitanicOrder[FirstShown(TitanicOrder, p => Shows(p, query))])
  {
    var k := FirstShown(TitanicOrder, p => Shows(p, query));
    if Has(query, "age") then
      assert k == 0;
      "/titanic-age-histogram.png"
    else if Has(query, "class") || Has(query, "survival") then
      assert k == 1 by { assert !Shows(TitanicOrder[0], query) && Shows(TitanicOrder[1], query); }
      "/titanic-class-survival.png"
    else if Has(query, "gender") then
      assert k == 2 by { assert !Shows(TitanicOrder[0], query) && !Shows(TitanicOrder[1], query) && Shows(TitanicOrder[2], query); }
      "/titanic-gender-survival.png"
    else
      assert k == 3 by { assert !Shows(TitanicOrder[0], query) && !Shows(TitanicOrder[1], query) && !Shows(TitanicOrder[2], query); }
      "/titanic-default.png"
  }

  /** The iris images: the first of `IrisOrder` whose test holds. */
  function IrisImage(query: string): (url: string)
    ensures StartsWith(url, "/iris-")
    ensures url == PictureUrl(IrisOrder[FirstShown(IrisOrder, p => Shows(p, query))])
  {
    var k := FirstShown(IrisOrder, p => Shows(p, query));
    if Has(query, "petal") then
      assert k == 0;
      "/iris-petal-histogram.png"
    else if Has(query, "sepal") && Has(query, "scatter") then
      assert k == 1 by { assert !Shows(IrisOrder[0], query) && Shows(IrisOrder[1], query); }
      "/iris-sepal-scatter.png"
    else if Has(query, "box") then
      assert k == 2 by { assert !Shows(IrisOrder[0], query) && !Shows(IrisOrder[1], query) && Shows(IrisOrder[2], query); }
      "/iris-boxplot.png"
    else
      assert k == 3 by { assert !Shows(IrisOrder[0], query) && !Shows(IrisOrder[1], query) && !Shows(IrisOrder[2], query); }
      "/iris-default.png"
  }

  /** The image picked by the dataset's name (case-insensitively) and the query. */
  function ImageUrl(datasetName: string, query: string): (url: string)
    ensures Has(datasetName, "titanic") ==> StartsWith(url, "/titanic-")
    ensures Has(datasetName, "titanic") ==> url == PictureUrl(TitanicOrder[FirstShown(TitanicOrder, p => Shows(p, query))])
    ensures !Has(datasetName, "titanic") && Has(datasetName, "iris") ==> StartsWith(url, "/iris-")
    ensures !Has(datasetName, "titanic") && Has(datasetName, "iris") ==>
      url == PictureUrl(IrisOrder[FirstShown(IrisOrder, p => Shows(p, query))])
    ensures !Has(datasetName, "titanic") && !Has(datasetName, "iris") ==> url == "/default-chart.png"
  {
    if Has(datasetName, "titanic") then TitanicImage(query)
    else if Has(datasetName, "iris") then IrisImage(query)
    else "/default-chart.png"
  }

  /** `error.message || 'An unknown error occurred'`. */
  function ErrorText(message: string): (text: string)
    ensures text != ""
    ensures message != "" ==> text == message
  {
    if message != "" then message else "An unknown error occurred"
  }

  /** The message of the lookup error. */
  function NotFoundMessage(message: Option<string>): (text: string)
    ensures StartsWith(text, "Dataset not found: ")
  {
    var text := "Dataset not found: " + (if Truthy(message) then message.value else "Unknown error");
    assert text[..19] == "Dataset not found: ";
    text
  }

  function Failed(message: string): Response {
    Response(500, Failure(ErrorText(message)))
  }

  /** The handler, step by step; each thrown error becomes a 500 response. */
  method Handle(requestMethod: string, apiKey: Option<string>, body: Body, lookup: Lookup, codeReply: Reply, explanationReply: Reply)
    returns (response: Response, effects: seq<Effect>)
    ensures requestMethod == "OPTIONS" ==> response == Response(200, Preflight) && effects == []
    ensures requestMethod != "OPTIONS" && !Truthy(apiKey) ==> response == Failed(NoKey) && effects == []
    ensures requestMethod != "OPTIONS" && Truthy(apiKey) && body.Unreadable? ==>
      response == Failed(body.message) && effects == []
    ensures requestMethod != "OPTIONS" && Truthy(apiKey) && body.Fields? && lookup.NotFound? ==>
      response == Failed(NotFoundMessage(lookup.message)) && effects == [ReadDataset(body.datasetId)]
    ensures requestMethod != "OPTIONS" && Truthy(apiKey) && body.Fields? && lookup.Found? ==>
      |effects| >= 2 && effects[..2] ==
        [ReadDataset(body.datasetId), Complete(SystemPrompt(ColumnsOf(lookup.columns)), body.query, 0.2)]
    ensures requestMethod != "OPTIONS" && Truthy(apiKey) && body.Fields? && lookup.Found? && codeReply.NotOk? ==>
      response == Failed("OpenAI API error: " + codeReply.text) && |effects| == 2
    ensures requestMethod != "OPTIONS" && Truthy(apiKey) && body.Fields? && lookup.Found? && codeReply.NoContent? ==>
      response == Failed(codeReply.message) && |effects| == 2
    ensures (requestMethod != "OPTIONS" && Truthy(apiKey) && body.Fields? && lookup.Found? && codeReply.Content? &&
             explanationReply.NotOk?) ==>
      response == Failed("OpenAI API error (explanation): " + explanationReply.text) && |effects| == 3
    ensures (requestMethod != "OPTIONS" && Truthy(apiKey) && body.Fields? && lookup.Found? && codeReply.Content? &&
             explanationReply.NoContent?) ==>
      response == Failed(explanationReply.message) && |effects| == 3
    ensures (requestMethod != "OPTIONS" && Truthy(apiKey) && body.Fields? && lookup.Found? && codeReply.Content? &&
             explanationReply.Content?) ==>
      response.status == 200
    ensures |effects| > 2 ==>
      body.Fields? && codeReply.Content? &&
      effects[2] == Complete(ExplainerRole, ExplanationPrompt(body.query, codeReply.content), 0.7)
    ensures response.status == 200 && requestMethod != "OPTIONS" ==>
      body.Fields? && lookup.Found? && codeReply.Content? && explanationReply.Content? &&
      response.body == Answer(codeReply.content, explanationReply.content, ImageUrl(lookup.name, body.query)) &&
      effects == [ReadDataset(body.datasetId),
                  Complete(SystemPrompt(ColumnsOf(lookup.columns)), body.query, 0.2),
                  Complete(ExplainerRole, ExplanationPrompt(body.query, codeReply.content), 0.7),
                  InsertQuery(QueryRow(body.datasetId, body.query, codeReply.content, explanationReply.content, 0.5, true))]
    ensures response.status == 200 || response.status == 500
  {
    effects := [];
    if requestMethod == "OPTIONS" {
      return Response(200, Preflight), effects;
    }
    if !Truthy(apiKey) {
      return Failed(NoKey), effects;
    }
    if body.Unreadable? {
      return Failed(body.message), effects;
    }
    var datasetId, query := body.datasetId, body.query;
    effects := effects + [ReadDataset(datasetId)];
    if lookup.NotFound? {
      return Failed(NotFoundMessage(lookup.message)), effects;
    }
    var columns := ColumnsOf(lookup.columns);
    var systemPrompt := SystemPrompt(columns);
    effects := effects + [Complete(systemPrompt, query, 0.2)];
    match codeReply {
      case NotOk(text) => return Failed("OpenAI API error: " + text), effects;
      case NoContent(message) => return Failed(message), effects;
      case Content(_) =>
    }
    var generatedCode := codeReply.content;
    var explanationPrompt := ExplanationPrompt(query, generatedCode);
    effects := effects + [Complete(ExplainerRole, explanationPrompt, 0.7)];
    match explanationReply {
      case NotOk(text) => return Failed("OpenAI API error (explanation): " + text), effects;
      case NoContent(message) => return Failed(message), effects;
      case Content(_) =>
    }
    var explanation := explanationReply.content;
    var imageUrl := ImageUrl(lookup.name, query);
    effects := effects + [InsertQuery(QueryRow(datasetId, query, generatedCode, explanation, 0.5, true))];
    return Response(200, Answer(generatedCode, explanation, imageUrl)), effects;
  }

  /** A titanic query naming survival and gender (and not age) gets the class-survival image, as "survival" is tested before "gender". */
  lemma SurvivalBeforeGender(datasetName: string, query: string)
    requires Has(datasetName, "titanic") && Has(query, "survival") && Has(query, "gender") && !Has(query, "age")
    ensures ImageUrl(datasetName, query) == "/titanic-class-survival.png"
  {
  }

  /** Unparseable columns are prompted as an empty list. */
  lemma UnparseableColumnsEmpty()
    ensures SystemPrompt(ColumnsOf(Unparseable)) == SystemStart + SystemEnd
  {
    assert Join(ColumnsOf(Unparseable), ", ") == [];
    assert SystemStart + [] == SystemStart;
  }
}
