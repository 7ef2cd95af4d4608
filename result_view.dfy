/**
 * The recipe result view: a pure function from a recipe to what is shown. The ingredient
 * and step lists come from an external service, so either may be missing or not a list;
 * the view then shows a fallback notice instead of a list.
 */
module ResultView {

  import opened Wrappers
  import opened JsText

  datatype Ingredient = Ingredient(name: string, quantity: string)
  datatype Step = Step(step: string)

  /** A list-typed field as it arrives: a list, or something else (absent or not an array). */
  datatype ListField<T> = List(items: seq<T>) | NotAList

  datatype Recipe = Recipe(
    title: string,
    description: string,
    ingredients: ListField<Ingredient>,
    steps: ListField<Step>)

  /** A section body: a bulleted list of lines, or a single notice paragraph. */
  datatype Section = Lines(lines: seq<string>) | Notice(text: string)

  datatype View = View(title: string, description: string, ingredients: Section, steps: Section)

  const NoIngredients := "No ingredients specified."
  const NoSteps := "No steps provided."

  /** `{ingredient.quantity} {ingredient.name}` */
  function IngredientLine(i: Ingredient): string {
    i.quantity + " " + i.name
  }

  /** `ingredients.map(...)`: one line per ingredient, in order. */
  function IngredientLines(xs: seq<Ingredient>): (r: seq<string>)
    ensures |r| == |xs|
    ensures forall k :: 0 <= k < |xs| ==> r[k] == IngredientLine(xs[k])
  {
    if xs == [] then []
    else IngredientLines(xs[..|xs| - 1]) + [IngredientLine(xs[|xs| - 1])]
  }

  /** `<strong>Step {n}:</strong> {text}` */
  function StepLine(n: nat, s: Step): string {
    "Step " + Decimal(n) + ": " + s.step
  }

  /** `steps.map((stepObj, index) => ...)`: line `k` is numbered `k + 1`. */
  function StepLines(xs: seq<Step>): (r: seq<string>)
    ensures |r| == |xs|
    ensures forall k :: 0 <= k < |xs| ==> r[k] == StepLine(k + 1, xs[k])
  {
    if xs == [] then []
    else StepLines(xs[..|xs| - 1]) + [StepLine(|xs|, xs[|xs| - 1])]
  }

  /** `Array.isArray(ingredients) && ingredients.length > 0 ? <ul>...</ul> : <p>...</p>` */
  function IngredientsSection(f: ListField<Ingredient>): (s: Section)
    ensures s.Notice? <==> f.NotAList? || f.items == []
    ensures s.Notice? ==> s.text == NoIngredients
    ensures s.Lines? ==> s.lines == IngredientLines(f.items) && |s.lines| == |f.items| > 0
  {
    if f.List? && |f.items| > 0 then Lines(IngredientLines(f.items)) else Notice(NoIngredients)
  }

  /** The same decision for the steps. */
  function StepsSection(f: ListField<Step>): (s: Section)
    ensures s.Notice? <==> f.NotAList? || f.items == []
    ensures s.Notice? ==> s.text == NoSteps
    ensures s.Lines? ==> s.lines == StepLines(f.items) && |s.lines| == |f.items| > 0
  {
    if f.List? && |f.items| > 0 then Lines(StepLines(f.items)) else Notice(NoSteps)
  }

  /** The whole view: title and description as given, then the two sections. */
  function Render(recipe: Recipe): (v: View)
    ensures v.title == recipe.title && v.description == recipe.description
    ensures v.ingredients == IngredientsSection(recipe.ingredients)
    ensures v.steps == StepsSection(recipe.steps)
  {
    View(recipe.title, recipe.description, IngredientsSection(recipe.ingredients), StepsSection(recipe.steps))
  }

  /** Reads a step line back into its number and its text. */
  function ParseStepLine(line: string): Option<(nat, string)> {
    if |line| < 5 || line[..5] != "Step " then None
    else
      var rest := line[5..];
      var n := DigitPrefixLength(rest);
      if n == 0 || |rest| < n + 2 || rest[n..n + 2] != ": " then None
      else Some((ParseDecimal(rest[..n]), rest[n + 2..]))
  }

  /** A step line carries its 1-based number and the step's text, both recoverable. */
  lemma StepLineRoundTrip(n: nat, s: Step)
    ensures ParseStepLine(StepLine(n, s)) == Some((n, s.step))
  {
    var digits := Decimal(n);
    var line := StepLine(n, s);
    var rest := digits + ": " + s.step;
    assert line == "Step " + rest;
    assert line[..5] == "Step " && line[5..] == rest;
    var k := DigitPrefixLength(rest);
    assert rest[|digits|] == ':';
    assert forall i :: 0 <= i < |digits| ==> rest[i] == digits[i];
    assert k == |digits|;
    assert rest[..k] == digits;
    assert rest[k..k + 2] == ": ";
    assert rest[k + 2..] == s.step;
    ParseDecimalOfDecimal(n);
  }

  /** The `k`-th step line of a rendered list is labelled with `k + 1` and shows that step. */
  lemma StepsAreNumberedFromOne(steps: seq<Step>, k: nat)
    requires k < |steps|
    ensures StepsSection(List(steps)).Lines?
    ensures ParseStepLine(StepsSection(List(steps)).lines[k]) == Some((k + 1, steps[k].step))
  {
    StepLineRoundTrip(k + 1, steps[k]);
  }
}
