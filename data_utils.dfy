/**
 * The front end's offline stand-ins for the backend: the sample queries per
 * dataset, the canned code picked by keywords of the query, and the canned
 * chart image picked by dataset and keywords. Keyword tests look at the
 * lowercased query; dataset tests compare the id exactly.
 */
module DataUtils {
  import opened Common
  import opened Text

  /** `sampleQueries`. */
  const SampleQueries: map<string, seq<string>> := map[
    "titanic" := [
      "Plot survival rate by passenger class",
      "Create a histogram of passenger ages",
      "Show survival rate by gender",
      "Create a scatter plot of age vs fare",
      "Plot passenger count by embarkation point"],
    "iris" := [
      "Plot sepal length vs sepal width colored by species",
      "Create a histogram of petal length",
      "Show box plots of petal dimensions by species",
      "Create pair plots of all features",
      "Calculate mean measurements by species"],
    "gapminder" := [
      "Plot life expectancy vs GDP per capita for 2007",
      "Show population growth over time for top 5 countries",
      "Create a bar chart of life expectancy by continent",
      "Plot GDP per capita trends over time by continent",
      "Create a bubble chart of population vs GDP with life expectancy as size"]]

  /** Whether the lowercased query contains `word`. */
  predicate Has(query: string, word: string) {
    Contains(Lower(query), word)
  }

  /** The canned programs of `generateSampleCode`, in the order it tests for them. */
  datatype CodeBranch = TitanicHistogram | SurvivalByGender | AgeFareScatter | IrisScatter | GapminderScatter | Fallback

  function Rank(b: CodeBranch): nat {
    match b
    case TitanicHistogram => 0
    case SurvivalByGender => 1
    case AgeFareScatter => 2
    case IrisScatter => 3
    case GapminderScatter => 4
    case Fallback => 5
  }

  /** The test guarding each program; the last one always holds. */
  predicate Applies(b: CodeBranch, dataset: string, query: string) {
    match b
    case TitanicHistogram => Has(query, "histogram") && dataset == "titanic"
    case SurvivalByGender => Has(query, "survival") && Has(query, "gender")
    case AgeFareScatter => Has(query, "scatter") || (Has(query, "age") && Has(query, "fare"))
    case IrisScatter => dataset == "iris"
    case GapminderScatter => dataset == "gapminder"
    case Fallback => true
  }

  /** The program `generateSampleCode` picks: the first whose test holds. */
  function CodeBranchOf(dataset: string, query: string): (b: CodeBranch)
    ensures Applies(b, dataset, query)
    ensures forall e: CodeBranch :: Rank(e) < Rank(b) ==> !Applies(e, dataset, query)
  {
    if Has(query, "histogram") && dataset == "titanic" then TitanicHistogram
    else if Has(query, "survival") && Has(query, "gender") then SurvivalByGender
    else if Has(query, "scatter") || (Has(query, "age") && Has(query, "fare")) then AgeFareScatter
    else if dataset == "iris" then IrisScatter
    else if dataset == "gapminder" then GapminderScatter
    else Fallback
  }

  const HistogramCode := @"import pandas as pd
import matplotlib.pyplot as plt
import seaborn as sns

# Load the Titanic dataset
df = pd.read_csv('titanic.csv')

# Create histogram of passenger ages
plt.figure(figsize=(10, 6))
sns.histplot(data=df, x='Age', bins=20, kde=True)
plt.title('Distribution of Passenger Ages on Titanic')
plt.xlabel('Age')
plt.ylabel('Count')
plt.grid(True, alpha=0.3)
plt.show()"
  const GenderCode := @"import pandas as pd
import matplotlib.pyplot as plt
import seaborn as sns

# Load the Titanic dataset
df = pd.read_csv('titanic.csv')

# Calculate survival rate by gender
survival_by_gender = df.groupby('Sex')['Survived'].mean() * 100

# Create bar plot
plt.figure(figsize=(8, 6))
sns.barplot(x=survival_by_gender.index, y=survival_by_gender.values)
plt.title('Survival Rate by Gender on Titanic')
plt.xlabel('Gender')
plt.ylabel('Survival Rate (%)')
plt.grid(True, alpha=0.3)
plt.show()"
  const ScatterCode := @"import pandas as pd
import matplotlib.pyplot as plt
import seaborn as sns

# Load the Titanic dataset
df = pd.read_csv('titanic.csv')

# Create scatter plot of Age vs Fare
plt.figure(figsize=(10, 8))
sns.scatterplot(data=df, x='Age', y='Fare', hue='Survived', size='Pclass',
                sizes=(50, 200), alpha=0.7)
plt.title('Age vs Fare with Survival Status')
plt.xlabel('Age (years)')
plt.ylabel('Fare (£)')
plt.grid(True, alpha=0.3)
plt.legend(title='Survived')
plt.show()"
  const IrisCode := @"import pandas as pd
import matplotlib.pyplot as plt
import seaborn as sns

# Load the iris dataset
df = pd.read_csv('iris.csv')

# Create a scatter plot of sepal dimensions colored by species
plt.figure(figsize=(10, 8))
sns.scatterplot(data=df, x='sepal_length', y='sepal_width', hue='species')
plt.title('Sepal Length vs Sepal Width by Species')
plt.xlabel('Sepal Length (cm)')
plt.ylabel('Sepal Width (cm)')
plt.grid(True, alpha=0.3)
plt.legend(title='Species')
plt.show()"
  const GapminderCode := @"import pandas as pd
import matplotlib.pyplot as plt
import seaborn as sns

# Load the gapminder dataset
df = pd.read_csv('gapminder.csv')

# Filter for the year 2007
df_2007 = df[df['year'] == 2007]

# Create scatter plot of GDP per capita vs life expectancy
plt.figure(figsize=(12, 8))
sns.scatterplot(data=df_2007, x='gdpPercap', y='lifeExp', 
                hue='continent', size='pop', sizes=(20, 500),
                alpha=0.7)

plt.title('GDP per Capita vs Life Expectancy by Country (2007)')
plt.xlabel('GDP per Capita (USD)')
plt.ylabel('Life Expectancy (years)')
plt.grid(True, alpha=0.3)
plt.xscale('log')
plt.legend(title='Continent')
plt.show()"

  const FallbackStart := @"import pandas as pd
import matplotlib.pyplot as plt
import seaborn as sns

# Load the dataset
df = pd.read_csv('"
  const FallbackAfterDataset := @".csv')

# Explore the data
print(df.head())
print(df.info())
print(df.describe())

# Create a visualization based on the query: """
  const FallbackAfterComment := @"""
plt.figure(figsize=(10, 6))
# [Generated code would appear here in a real implementation]
plt.title('"
  const FallbackEnd := @"')
plt.grid(True, alpha=0.3)
plt.show()"

  /** The default program: it loads '{dataset}.csv' and quotes the raw query in a comment and in the title. */
  function FallbackCode(dataset: string, query: string): (code: string)
    ensures StartsWith(code, FallbackStart + dataset + FallbackAfterDataset + query + FallbackAfterComment)
    ensures Contains(code, FallbackAfterComment + query + FallbackEnd)
  {
    var head := FallbackStart + dataset + FallbackAfterDataset;
    var commented := head + query + FallbackAfterComment;
    var code := head + query + FallbackAfterComment + query + FallbackEnd;
    assert code[..|commented|] == commented;
    assert code == (head + query) + (FallbackAfterComment + query + FallbackEnd) + "";
    ContainsMiddle(head + query, FallbackAfterComment + query + FallbackEnd, "");
    code
  }

  /** The text of each program. */
  function CodeText(b: CodeBranch, dataset: string, query: string): string {
    match b
    case TitanicHistogram => HistogramCode
    case SurvivalByGender => GenderCode
    case AgeFareScatter => ScatterCode
    case IrisScatter => IrisCode
    case GapminderScatter => GapminderCode
    case Fallback => FallbackCode(dataset, query)
  }

  /** `generateSampleCode`: the program of the first matching test. */
  function GenerateSampleCode(dataset: string, query: string): (code: string)
    ensures code == CodeText(CodeBranchOf(dataset, query), dataset, query)
  {
    if Has(query, "histogram") && dataset == "titanic" then HistogramCode
    else if Has(query, "survival") && Has(query, "gender") then GenderCode
    else if Has(query, "scatter") || (Has(query, "age") && Has(query, "fare")) then ScatterCode
    else if dataset == "iris" then IrisCode
    else if dataset == "gapminder" then GapminderCode
    else FallbackCode(dataset, query)
  }

  /** The prefix shared by the images of a known dataset. */
  function ImagePrefix(dataset: string): string {
    "/" + dataset + "-"
  }

  predicate Known(dataset: string) {
    dataset == "titanic" || dataset == "iris" || dataset == "gapminder"
  }

  /** A canned image of dataset `dataset`: under its prefix, a ".png", never the generic chart. */
  predicate ImageOf(path: string, dataset: string) {
    StartsWith(path, ImagePrefix(dataset)) && EndsWith(path, ".png") && path != "/default-chart.png"
  }

  /** The path of the canned image `name` of a known dataset. */
  function ImagePath(dataset: string, name: string): (path: string)
    requires Known(dataset)
    ensures ImageOf(path, dataset)
    ensures |path| == |dataset| + |name| + 6
  {
    var prefix := ImagePrefix(dataset);
    var path := prefix + name + ".png";
    assert path[..|prefix|] == prefix;
    assert path[|path| - 4..] == ".png";
    assert path[1] != "/default-chart.png"[1];
    path
  }

  /** The canned images of the known datasets. */
  datatype Picture =
    | TitanicAgeHistogram | TitanicGenderSurvival | TitanicAgeFareScatter | TitanicClassSurvival | TitanicDefault
    | IrisSepalScatter | IrisPetalHistogram | IrisBoxplot | IrisDefault
    | GapminderGdpLife | GapminderPopulation | GapminderContinent | GapminderDefault

  /** The keyword test that selects each image; a default image is always selectable. */
  predicate Shows(p: Picture, query: string) {
    match p
    case TitanicAgeHistogram => Has(query, "histogram") && Has(query, "age")
    case TitanicGenderSurvival => Has(query, "survival") && Has(query, "gender")
    case TitanicAgeFareScatter => Has(query, "scatter")
    case TitanicClassSurvival => Has(query, "class")
    case IrisSepalScatter => Has(query, "sepal")
    case IrisPetalHistogram => Has(query, "histogram")
    case IrisBoxplot => Has(query, "box")
    case GapminderGdpLife => Has(query, "life") && Has(query, "gdp")
    case GapminderPopulation => Has(query, "population")
    case GapminderContinent => Has(query, "continent")
    case TitanicDefault | IrisDefault | GapminderDefault => true
  }

  /** Each dataset's images, in the order their tests are tried, ending with its default. */
  const TitanicOrder: seq<Picture> := [TitanicAgeHistogram, TitanicGenderSurvival, TitanicAgeFareScatter, TitanicClassSurvival, TitanicDefault]
  const IrisOrder: seq<Picture> := [IrisSepalScatter, IrisPetalHistogram, IrisBoxplot, IrisDefault]
  const GapminderOrder: seq<Picture> := [GapminderGdpLife, GapminderPopulation, GapminderContinent, GapminderDefault]

  /** The path of each image. */
  function PicturePath(p: Picture): string {
    match p
    case TitanicAgeHistogram => ImagePath("titanic", "age-histogram")
    case TitanicGenderSurvival => ImagePath("titanic", "gender-survival")
    case TitanicAgeFareScatter => ImagePath("titanic", "age-fare-scatter")
    case TitanicClassSurvival => ImagePath("titanic", "class-survival")
    case TitanicDefault => ImagePath("titanic", "default")
    case IrisSepalScatter => ImagePath("iris", "sepal-scatter")
    case IrisPetalHistogram => ImagePath("iris", "petal-histogram")
    case IrisBoxplot => ImagePath("iris", "boxplot")
    case IrisDefault => ImagePath("iris", "default")
    case GapminderGdpLife => ImagePath("gapminder", "gdp-life")
    case GapminderPopulation => ImagePath("gapminder", "population")
    case GapminderContinent => ImagePath("gapminder", "continent")
    case GapminderDefault => ImagePath("gapminder", "default")
  }

  /** The titanic images: the first of `TitanicOrder` whose test holds. */
  function TitanicImage(query: string): (path: string)
    ensures ImageOf(path, "titanic")
    ensures path == PicturePath(TitanicOrder[FirstShown(TitanicOrder, p => Shows(p, query))])
  {
    var k := FirstShown(TitanicOrder, p => Shows(p, query));
    if Has(query, "histogram") && Has(query, "age") then
      assert k == 0;
      ImagePath("titanic", "age-histogram")
    else if Has(query, "survival") && Has(query, "gender") then
      assert k == 1 by { assert !Shows(TitanicOrder[0], query) && Shows(TitanicOrder[1], query); }
      ImagePath("titanic", "gender-survival")
    else if Has(query, "scatter") then
      assert k == 2 by { assert !Shows(TitanicOrder[0], query) && !Shows(TitanicOrder[1], query) && Shows(TitanicOrder[2], query); }
      ImagePath("titanic", "age-fare-scatter")
    else if Has(query, "class") then
      assert k == 3 by { assert !Shows(TitanicOrder[0], query) && !Shows(TitanicOrder[1], query) && !Shows(TitanicOrder[2], query) && Shows(TitanicOrder[3], query); }
      ImagePath("titanic", "class-survival")
    else
      assert k == 4 by { assert !Shows(TitanicOrder[0], query) && !Shows(TitanicOrder[1], query) && !Shows(TitanicOrder[2], query) && !Shows(TitanicOrder[3], query) && Shows(TitanicOrder[4], query); }
      ImagePath("titanic", "default")
  }

  /** The iris images: the first of `IrisOrder` whose test holds. */
  function IrisImage(query: string): (path: string)
    ensures ImageOf(path, "iris")
    ensures path == PicturePath(IrisOrder[FirstShown(IrisOrder, p => Shows(p, query))])
  {
    var k := FirstShown(IrisOrder, p => Shows(p, query));
    if Has(query, "sepal") then
      assert k == 0;
      ImagePath("iris", "sepal-scatter")
    else if Has(query, "histogram") then
      assert k == 1 by { assert !Shows(IrisOrder[0], query) && Shows(IrisOrder[1], query); }
      ImagePath("iris", "petal-histogram")
    else if Has(query, "box") then
      assert k == 2 by { assert !Shows(IrisOrder[0], query) && !Shows(IrisOrder[1], query) && Shows(IrisOrder[2], query); }
      ImagePath("iris", "boxplot")
    else
      assert k == 3 by { assert !Shows(IrisOrder[0], query) && !Shows(IrisOrder[1], query) && !Shows(IrisOrder[2], query) && Shows(IrisOrder[3], query); }
      ImagePath("iris", "default")
  }

  /** The gapminder images: the first of `GapminderOrder` whose test holds. */
  function GapminderImage(query: string): (path: string)
    ensures ImageOf(path, "gapminder")
    ensures path == PicturePath(GapminderOrder[FirstShown(GapminderOrder, p => Shows(p, query))])
  {
    var k := FirstShown(GapminderOrder, p => Shows(p, query));
    if Has(query, "life") && Has(query, "gdp") then
      assert k == 0;
      ImagePath("gapminder", "gdp-life")
    else if Has(query, "population") then
      assert k == 1 by { assert !Shows(GapminderOrder[0], query) && Shows(GapminderOrder[1], query); }
      ImagePath("gapminder", "population")
    else if Has(query, "continent") then
      assert k == 2 by { assert !Shows(GapminderOrder[0], query) && !Shows(GapminderOrder[1], query) && Shows(GapminderOrder[2], query); }
      ImagePath("gapminder", "continent")
    else
      assert k == 3 by { assert !Shows(GapminderOrder[0], query) && !Shows(GapminderOrder[1], query) && !Shows(GapminderOrder[2], query) && Shows(GapminderOrder[3], query); }
      ImagePath("gapminder", "default")
  }

  /** `getVisualizationImage`: a known dataset's own image, otherwise the generic chart. */
  function VisualizationImage(dataset: string, query: string): (path: string)
    ensures Known(dataset) ==> ImageOf(path, dataset)
    ensures !Known(dataset) <==> path == "/default-chart.png"
    ensures dataset == "titanic" ==> path == PicturePath(TitanicOrder[FirstShown(TitanicOrder, p => Shows(p, query))])
    ensures dataset == "iris" ==> path == PicturePath(IrisOrder[FirstShown(IrisOrder, p => Shows(p, query))])
    ensures dataset == "gapminder" ==> path == PicturePath(GapminderOrder[FirstShown(GapminderOrder, p => Shows(p, query))])
  {
    if dataset == "titanic" then TitanicImage(query)
    else if dataset == "iris" then IrisImage(query)
    else if dataset == "gapminder" then GapminderImage(query)
    else "/default-chart.png"
  }

  /** A titanic query gets the titanic default image exactly when none of its four keyword tests holds. */
  lemma TitanicDefaultIff(query: string)
    ensures VisualizationImage("titanic", query) == ImagePath("titanic", "default") <==>
      !(Has(query, "histogram") && Has(query, "age")) && !(Has(query, "survival") && Has(query, "gender")) &&
      !Has(query, "scatter") && !Has(query, "class")
  {
  }

  /** Keyword tests ignore case; dataset tests do not. */
  lemma KeywordsIgnoreCase(dataset: string, query: string)
    ensures CodeBranchOf(dataset, query) == CodeBranchOf(dataset, Lower(query))
    ensures VisualizationImage(dataset, query) == VisualizationImage(dataset, Lower(query))
  {
    LowerIdempotent(query);
    var lower := Lower(query);
    assert CodeBranchOf(dataset, query) == CodeBranchOf(dataset, lower);
    ImagesIgnoreCase(query);
  }

  /** Each dataset's image test looks only at the lowercased query. */
  lemma ImagesIgnoreCase(query: string)
    ensures TitanicImage(query) == TitanicImage(Lower(query))
    ensures IrisImage(query) == IrisImage(Lower(query))
    ensures GapminderImage(query) == GapminderImage(Lower(query))
  {
    var lower := Lower(query);
    forall p: Picture
      ensures Shows(p, lower) == Shows(p, query)
    {
      LowerIdempotent(query);
    }
    FirstShownAgrees(TitanicOrder, p => Shows(p, query), p => Shows(p, lower));
    FirstShownAgrees(IrisOrder, p => Shows(p, query), p => Shows(p, lower));
    FirstShownAgrees(GapminderOrder, p => Shows(p, query), p => Shows(p, lower));
  }

  /** The survival-by-gender and scatter tests ignore the dataset, so an iris scatter query gets the titanic program. */
  lemma IrisScatterGetsTitanicCode(query: string)
    requires Has(query, "scatter") && !(Has(query, "survival") && Has(query, "gender"))
    ensures GenerateSampleCode("iris", query) == ScatterCode
  {
  }

  /** A dataset id that differs from "iris" only in case falls through to the default program. */
  lemma DatasetIsCaseSensitive()
    ensures CodeBranchOf("Iris", "") == Fallback
  {
    assert !Contains("", "histogram") && !Contains("", "survival") && !Contains("", "scatter") && !Contains("", "age");
  }

  /** Every dataset has five sample queries. */
  lemma FiveSampleQueries(dataset: string)
    requires dataset in SampleQueries
    ensures Known(dataset) && |SampleQueries[dataset]| == 5
  {
  }
}
