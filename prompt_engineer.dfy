/**
 * The prompt builders of the Python backend: the zero-shot template, the
 * few-shot prompt that appends worked examples from a fixed table, and the
 * prompt specialised by chart type.
 */
module PromptEngineer {
  import opened Common
  import opened Text

  /** One worked example: a query and the code answering it. */
  datatype Example = Example(query: string, code: string)

  /** `_load_examples`: the example sets by dataset type, in the table's order. */
  const ExampleTable: seq<(string, seq<Example>)> := [
    ("titanic", [
      Example("Plot survival rate by passenger class", @"
# Calculate survival rate by passenger class
survival_by_class = df.groupby('pclass')['survived'].mean() * 100

# Create bar plot
plt.figure(figsize=(10, 6))
ax = survival_by_class.plot(kind='bar', color='skyblue')
plt.title('Survival Rate by Passenger Class')
plt.xlabel('Passenger Class')
plt.ylabel('Survival Rate (%)')
plt.xticks(rotation=0)

# Add percentage labels on bars
for i, v in enumerate(survival_by_class):
    ax.text(i, v + 1, f""{v:.1f}%"", ha='center')

plt.grid(axis='y', linestyle='--', alpha=0.7)
plt.tight_layout()
"),
      Example("Create a histogram of passenger ages", @"
# Create histogram of passenger ages
plt.figure(figsize=(12, 6))
plt.hist(df['age'].dropna(), bins=30, color='skyblue', edgecolor='black', alpha=0.7)
plt.title('Distribution of Passenger Ages on Titanic')
plt.xlabel('Age (years)')
plt.ylabel('Count')
plt.grid(True, alpha=0.3, linestyle='--')
plt.axvline(df['age'].mean(), color='red', linestyle='dashed', linewidth=2, label=f'Mean Age: {df[""age""].mean():.1f} years')
plt.legend()
plt.tight_layout()
")]),
    ("iris", [
      Example("Plot sepal length vs sepal width colored by species", @"
# Create scatter plot of sepal dimensions colored by species
plt.figure(figsize=(10, 6))
species_colors = {'setosa': 'red', 'versicolor': 'green', 'virginica': 'blue'}

for species in df['species'].unique():
    subset = df[df['species'] == species]
    plt.scatter(subset['sepal_length'], subset['sepal_width'], 
                label=species, color=species_colors[species], alpha=0.7)

plt.title('Sepal Length vs Sepal Width by Species')
plt.xlabel('Sepal Length (cm)')
plt.ylabel('Sepal Width (cm)')
plt.grid(True, alpha=0.3, linestyle='--')
plt.legend()
plt.tight_layout()
")])]

  /** The example set stored under `key`: the first entry with that key. */
  function Lookup(table: seq<(string, seq<Example>)>, key: string): (r: Option<seq<Example>>)
    ensures r.None? <==> forall i :: 0 <= i < |table| ==> table[i].0 != key
    ensures r.Some? ==> exists i :: 0 <= i < |table| && table[i] == (key, r.value)
  {
    if table == [] then None
    else if table[0].0 == key then Some(table[0].1)
    else
      var r := Lookup(table[1..], key);
      assert forall i :: 1 <= i < |table| ==> table[i] == table[1..][i - 1];
      if r.Some? then
        var j :| 0 <= j < |table[1..]| && table[1..][j] == (key, r.value);
        assert table[j + 1] == (key, r.value);
        r
      else r
  }

  const ZeroShotStart := @"Generate Python code to "
  const ZeroShotMiddle := @" using pandas and matplotlib.
        The data is in a pandas DataFrame named 'df' with columns: "
  const ZeroShotEnd := @".
        Only include the Python code needed to create the visualization, nothing else.
        Use matplotlib or seaborn with clear labels, titles, and styling for the plot.
        The code should be complete and ready to execute with no imports needed.
        "

  /** `zero_shot_prompt`: the fixed template around the query and the comma-joined columns. */
  function ZeroShotPrompt(query: string, columns: seq<string>): (prompt: string)
    ensures StartsWith(prompt, ZeroShotStart + query)
    ensures EndsWith(prompt, Join(columns, ", ") + ZeroShotEnd)
    ensures |prompt| == |ZeroShotStart| + |query| + |ZeroShotMiddle| + |Join(columns, ", ")| + |ZeroShotEnd|
  {
    var columnsStr := Join(columns, ", ");
    var head := ZeroShotStart + query;
    var prompt := head + ZeroShotMiddle + columnsStr + ZeroShotEnd;
    PrefixOfConcat(head, ZeroShotMiddle, head);
    PrefixOfConcat(head + ZeroShotMiddle, columnsStr, head);
    PrefixOfConcat(head + ZeroShotMiddle + columnsStr, ZeroShotEnd, head);
    AppendAssoc(head + ZeroShotMiddle, columnsStr, ZeroShotEnd);
    SuffixOfConcat(head + ZeroShotMiddle, columnsStr + ZeroShotEnd);
    prompt
  }

  /**
   * The example set `few_shot_prompt` uses: the one stored for a non-empty
   * known dataset type, otherwise the table's first set, if any.
   */
  function SelectExamples(table: seq<(string, seq<Example>)>, datasetType: Option<string>): (examples: seq<Example>)
    ensures Truthy(datasetType) && Lookup(table, datasetType.value).Some? ==>
      examples == Lookup(table, datasetType.value).value
    ensures !(Truthy(datasetType) && Lookup(table, datasetType.value).Some?) ==>
      examples == if |table| > 0 then table[0].1 else []
  {
    if Truthy(datasetType) && Lookup(table, datasetType.value).Some? then
      Lookup(table, datasetType.value).value
    else if |table| > 0 then table[0].1
    else []
  }

  const ExamplesHeader := "\n\nHere are some examples of queries and their corresponding code:\n"

  /** The text appended for the example at index `i`, numbered from 1. */
  function ExampleText(i: nat, example: Example): string {
    "\nExample " + NatToString(i + 1) + ":\nQuery: " + example.query + "\nCode:\n" + example.code + "\n"
  }

  /** The texts of `examples[..n]`, one after the other. */
  function ExampleTexts(examples: seq<Example>, n: nat): string
    requires n <= |examples|
  {
    if n == 0 then "" else ExampleTexts(examples, n - 1) + ExampleText(n - 1, examples[n - 1])
  }

  function Closing(query: string): string {
    "\nNow, generate code for the query: " + query
  }

  /** The few-shot prompt as a text: base, header, every example in order, closing line. */
  function FewShotText(query: string, columns: seq<string>, examples: seq<Example>): string {
    if examples == [] then ZeroShotPrompt(query, columns)
    else ZeroShotPrompt(query, columns) + ExamplesHeader + ExampleTexts(examples, |examples|) + Closing(query)
  }

  /** The prompt builder, holding the example table it was created with. */
  class PromptEngineer {
    const examples: seq<(string, seq<Example>)>

    constructor()
      ensures examples == ExampleTable
    {
      examples := ExampleTable;
    }

    /** `few_shot_prompt`, appending to `prompt` as it goes. */
    method FewShotPrompt(query: string, columns: seq<string>, datasetType: Option<string>) returns (prompt: string)
      ensures prompt == FewShotText(query, columns, SelectExamples(examples, datasetType))
      ensures StartsWith(prompt, ZeroShotPrompt(query, columns))
      ensures SelectExamples(examples, datasetType) != [] ==> EndsWith(prompt, Closing(query))
    {
      prompt := ZeroShotPrompt(query, columns);
      var selected := SelectExamples(examples, datasetType);
      if selected != [] {
        prompt := prompt + ExamplesHeader;
        for i := 0 to |selected|
          invariant prompt == ZeroShotPrompt(query, columns) + ExamplesHeader + ExampleTexts(selected, i)
        {
          AppendAssoc(ZeroShotPrompt(query, columns) + ExamplesHeader, ExampleTexts(selected, i), ExampleText(i, selected[i]));
          prompt := prompt + ExampleText(i, selected[i]);
        }
        prompt := prompt + Closing(query);
      }
      FewShotShape(query, columns, selected);
    }
  }

  /** `specialized_prompt`'s instructions by chart type. */
  const ChartInstructions: map<string, string> := map[
    "histogram" := @"
            Create a histogram with appropriate bins. Include:
            - A title describing what is being shown
            - Labeled axes with units if applicable
            - Grid lines for better readability
            - Statistics like mean or median shown as vertical lines
            ",
    "scatter" := @"
            Create a scatter plot with clear point markers. Include:
            - A title describing the relationship being explored
            - Labeled axes with units if applicable
            - A legend if using colors to represent categories
            - Consider adding a trend line if appropriate
            ",
    "bar" := @"
            Create a bar chart with clear bars. Include:
            - A descriptive title
            - Labeled axes with units if applicable
            - Value labels on top of each bar
            - Organized bars (consider sorting if appropriate)
            ",
    "box" := @"
            Create a box plot that shows the distribution. Include:
            - A descriptive title
            - Labeled axes with units if applicable
            - Clear labels for each category being compared
            - Consider adding individual data points with jitter
            "]

  /**
   * `specialized_prompt`: the zero-shot prompt, followed by the instructions
   * of a known chart type looked up case-insensitively.
   */
  function SpecializedPrompt(query: string, columns: seq<string>, chartType: Option<string>): (prompt: string)
    ensures !Truthy(chartType) ==> prompt == ZeroShotPrompt(query, columns)
    ensures Truthy(chartType) && Lower(chartType.value) in ChartInstructions ==>
      prompt == ZeroShotPrompt(query, columns) + ChartInstructions[Lower(chartType.value)]
    ensures Truthy(chartType) && Lower(chartType.value) !in ChartInstructions ==>
      prompt == ZeroShotPrompt(query, columns)
  {
    var basePrompt := ZeroShotPrompt(query, columns);
    if !Truthy(chartType) then basePrompt
    else if Lower(chartType.value) in ChartInstructions then basePrompt + ChartInstructions[Lower(chartType.value)]
    else basePrompt
  }

  // ---------------------------------------------------------------------
  // Properties
  // ---------------------------------------------------------------------

  /** Every key of the table holds a non-empty example set. */
  predicate AllSetsFilled(table: seq<(string, seq<Example>)>) {
    forall i :: 0 <= i < |table| ==> table[i].1 != []
  }

  /** With a non-empty table of non-empty sets, some examples are always selected. */
  lemma ExamplesAlwaysSelected(table: seq<(string, seq<Example>)>, datasetType: Option<string>)
    requires |table| > 0 && AllSetsFilled(table)
    ensures SelectExamples(table, datasetType) != []
  {
    if Truthy(datasetType) && Lookup(table, datasetType.value).Some? {
      var examples := SelectExamples(table, datasetType);
      var i :| 0 <= i < |table| && table[i] == (datasetType.value, examples);
    } else {
      assert table[0].1 != [];
    }
  }

  /** The table holds titanic first, then iris, each with examples. */
  lemma ExampleTableShape()
    ensures |ExampleTable| == 2 && AllSetsFilled(ExampleTable)
    ensures ExampleTable[0].0 == "titanic" && |ExampleTable[0].1| == 2
    ensures ExampleTable[1].0 == "iris" && |ExampleTable[1].1| == 1
  {
  }

  /** A missing, empty or unknown dataset type falls back to the first (titanic) examples. */
  lemma FallbackToFirst(table: seq<(string, seq<Example>)>, datasetType: Option<string>)
    requires |table| > 0
    requires datasetType.Some? ==> forall i :: 0 <= i < |table| ==> table[i].0 != datasetType.value
    ensures SelectExamples(table, datasetType) == table[0].1
  {
  }

  /** A known dataset type uses its own examples. */
  lemma KnownTypeUsesOwnExamples(table: seq<(string, seq<Example>)>, i: nat)
    requires i < |table| && table[i].0 != ""
    requires forall j :: 0 <= j < |table| && j != i ==> table[j].0 != table[i].0
    ensures SelectExamples(table, Some(table[i].0)) == table[i].1
  {
    var r := Lookup(table, table[i].0);
    assert r.Some?;
    var j :| 0 <= j < |table| && table[j] == (table[i].0, r.value);
  }

  /** The text of each example lies within the examples' texts, in order. */
  lemma {:induction false} ExampleTextsSplit(examples: seq<Example>, n: nat, i: nat)
    requires i < n <= |examples|
    ensures exists before, after ::
      ExampleTexts(examples, n) == before + ExampleText(i, examples[i]) + after &&
      before == ExampleTexts(examples, i)
  {
    if i == n - 1 {
      assert ExampleTexts(examples, n) == ExampleTexts(examples, i) + ExampleText(i, examples[i]) + "";
    } else {
      ExampleTextsSplit(examples, n - 1, i);
      var before, after :| ExampleTexts(examples, n - 1) == before + ExampleText(i, examples[i]) + after &&
        before == ExampleTexts(examples, i);
      var last := ExampleText(n - 1, examples[n - 1]);
      AppendAssoc(before + ExampleText(i, examples[i]), after, last);
      assert ExampleTexts(examples, n) == before + ExampleText(i, examples[i]) + (after + last);
    }
  }

  /** Regrouping a five-part concatenation around its middle part. */
  lemma Regroup<T>(a: seq<T>, b: seq<T>, c: seq<T>, d: seq<T>, e: seq<T>)
    ensures a + (b + c + d) + e == (a + b) + c + (d + e)
  {
  }

  /** The few-shot prompt extends the zero-shot one and, with examples, ends with the closing line. */
  lemma FewShotShape(query: string, columns: seq<string>, examples: seq<Example>)
    ensures StartsWith(FewShotText(query, columns, examples), ZeroShotPrompt(query, columns))
    ensures examples != [] ==> EndsWith(FewShotText(query, columns, examples), Closing(query))
  {
    var base := ZeroShotPrompt(query, columns);
    var p := FewShotText(query, columns, examples);
    if examples != [] {
      var middle := ExamplesHeader + ExampleTexts(examples, |examples|);
      assert p == base + middle + Closing(query);
      assert p[..|base|] == base;
      assert p[|p| - |Closing(query)|..] == Closing(query);
    } else {
      assert p[..|base|] == base;
    }
  }

  /** Every selected example appears in the few-shot prompt under its number. */
  lemma EveryExampleIncluded(query: string, columns: seq<string>, examples: seq<Example>, i: nat)
    requires i < |examples|
    ensures Contains(FewShotText(query, columns, examples), ExampleText(i, examples[i]))
  {
    ExampleTextsSplit(examples, |examples|, i);
    var before, after :| ExampleTexts(examples, |examples|) == before + ExampleText(i, examples[i]) + after &&
      before == ExampleTexts(examples, i);
    var front := ZeroShotPrompt(query, columns) + ExamplesHeader;
    Regroup(front, before, ExampleText(i, examples[i]), after, Closing(query));
    ContainsMiddle(front + before, ExampleText(i, examples[i]), after + Closing(query));
  }

  /** Chart types are looked up case-insensitively. */
  lemma ChartTypeCaseInsensitive(query: string, columns: seq<string>, chartType: string)
    ensures SpecializedPrompt(query, columns, Some(chartType)) ==
            SpecializedPrompt(query, columns, Some(Lower(chartType)))
  {
    LowerIdempotent(chartType);
    assert chartType != "" <==> Lower(chartType) != "";
  }

  /** The specialised prompt always starts with the unchanged zero-shot prompt. */
  lemma SpecializedExtendsBase(query: string, columns: seq<string>, chartType: Option<string>)
    ensures StartsWith(SpecializedPrompt(query, columns, chartType), ZeroShotPrompt(query, columns))
  {
    var base := ZeroShotPrompt(query, columns);
    var p := SpecializedPrompt(query, columns, chartType);
    assert p[..|base|] == base;
  }
}
