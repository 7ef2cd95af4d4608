# Recipe form front end — a Dafny model

This project models the logic of a small browser front end that collects ingredients and an
optional diet, asks a remote recipe service for a recipe, and shows either the recipe or a
list of errors. Three components are modelled:

- **The recipe form** (`form.dfy`, module `Form`): the ingredient slots (at most 10; add,
  remove, edit in place), the diet selector, the rule that enables the submit control (not
  loading and at least two non-blank ingredients), the request body (the non-blank
  ingredients in order and the diet label or `null`), and the submit handler. The handler
  calls `onReset`, sets `loading`, classifies the outcome of the request into exactly one of
  `onResult(recipe)` or `onError(errors)`, and clears `loading` on every path. The form is a
  class whose fields are the component's three state slots.
- **The application shell** (`shell.dfy`, module `Shell`): a class with the two display slots
  (recipe or `null`, error list), the reset and the two callbacks, and the conditions under
  which the error panel and the result view are on screen. A ghost event history on the
  shell records every reset, every callback and every write to the form's `loading` flag,
  so that the order of a submission's effects is stated over what actually ran.
- **The result view** (`result_view.dfy`, module `ResultView`): a pure function from a
  recipe whose ingredient and step lists may be missing to what is shown. The output is a
  fallback notice or one line per ingredient (`quantity name`), and one line per step
  numbered from 1.

Supporting modules: `JsonValue` (`json_value.dfy`) holds JSON values with JavaScript
truthiness and property reads; a read on `null` throws. `JsText` (`js_text.dfy`) holds
`String.prototype.trim` over ECMAScript's whitespace set and the decimal text of a number.
`Wrappers` (`wrappers.dfy`) holds `Option`.

The outcome of the request is an input, `Outcome = NetworkFailure | Responded(ok, body)`.
The body is `Malformed` (when `response.json()` rejects) or `Parsed(json)`. `JSON.parse`
of an `errors` string is a parameter `parse: string -> Option<Json>`.

The model follows the code as written, including these less obvious paths:

- A non-ok response whose body is not JSON ends in the catch block. It therefore reports
  `"Server/Network error"`, not the `"Something went wrong"` default.
- A non-ok response whose body is JSON `null` also ends in the catch block, because reading
  `errors` of `null` throws. So does an ok response whose body is `null`.
- A string `errors` value is handed to `JSON.parse` whatever it encodes. Whatever value comes
  out is passed to `onError`, so it need not be an array. `Form.EncodedNonListIsPassedOn`
  shows two consequences: `"404"` hides the error panel, and `"\"text\""` reaches a panel
  that cannot list it.
- An empty `errors` array is truthy. It is passed on, and the shell then shows neither a
  recipe nor an error.

## Model

| member | source | states |
|---|---|---|
| `JsonValue.Get` | src/components/Recipe/RecipeForm.tsx:64 | reading a property throws exactly on `null`, is defined exactly for an object that has the key, and then yields that key's value |
| `JsText.TrimStart` | src/components/Recipe/RecipeForm.tsx:37 | the result is a suffix of the input, the removed prefix is all whitespace, and what remains does not start with whitespace |
| `JsText.TrimEnd` | src/components/Recipe/RecipeForm.tsx:37 | the result is a prefix of the input, the removed suffix is all whitespace, and what remains does not end with whitespace |
| `JsText.BlankIffAllWhitespace` | src/components/Recipe/RecipeForm.tsx:37 | `f.trim() !== ""` fails exactly when every character of `f` is whitespace, the empty field included |
| `JsText.Decimal` | src/components/Recipe/RecipeResult.tsx:54 | the rendered step number is non-empty, all decimal digits, and has no leading zero unless it is the single digit `0` |
| `JsText.ParseDecimalOfDecimal` | src/components/Recipe/RecipeResult.tsx:54 | the decimal text of a step number reads back as that number |
| `Shell.ErrorPanel` | recipe_app_fe/src/App.tsx:32-41 | the error panel is shown exactly when the error list is a non-empty array every item of which React can render as a child, and its items are that array's items in order. Rendering fails exactly for `null` (reading `length` throws), for a non-empty string (it has no `map`) and for an array holding an object at any depth |
| `Shell.ResultShown` | recipe_app_fe/src/App.tsx:43-47 | the result view is never shown for `null` and is always shown for a recipe object |
| `Shell.App.constructor` | recipe_app_fe/src/App.tsx:9-10 | the shell starts with no recipe and an empty error list |
| `Shell.App.HandleReset` | recipe_app_fe/src/App.tsx:12-15 | reset clears the recipe and empties the error list, so neither panel is shown, and records itself in the page's event history |
| `Shell.App.OnResult` | recipe_app_fe/src/App.tsx:27 | `onResult` overwrites the recipe slot, leaves the error list unchanged and records itself in the event history |
| `Shell.App.OnError` | recipe_app_fe/src/App.tsx:28 | `onError` overwrites the error list, leaves the recipe slot unchanged and records itself in the event history |
| `Shell.App.RecordLoading` | src/components/Recipe/RecipeForm.tsx:42 | a write to the form's `loading` flag appends exactly one entry to the event history, so only the shell's own methods extend it |
| `Form.DropIndex` | src/components/Recipe/RecipeForm.tsx:27-29 | filtering out index `idx` shortens the list by one exactly when `idx` is a position of the list |
| `Form.DropIndexRemovesExactlyOne` | src/components/Recipe/RecipeForm.tsx:27-29 | removal drops exactly position `idx` and keeps the others in their order; an index outside the list changes nothing |
| `Form.NonBlank` | src/components/Recipe/RecipeForm.tsx:44 | the filtered list is no longer than the slots and holds no blank entry |
| `Form.Filter` | src/components/Recipe/RecipeForm.tsx:44 | `filter` returns a list no longer than its input whose every entry satisfies the predicate |
| `Form.FilterIsSubsequence` | src/components/Recipe/RecipeForm.tsx:44 | the filtered list is a subsequence of the input, in the input's order |
| `Form.FilterKeepsEveryEntry` | src/components/Recipe/RecipeForm.tsx:44 | every value that satisfies the predicate occurs in the result as often as in the input, and no other value occurs |
| `Form.FilterSnoc` | src/components/Recipe/RecipeForm.tsx:44 | filtering a list with one more entry at the end appends that entry exactly when it satisfies the predicate |
| `Form.FilterAppend` | src/components/Recipe/RecipeForm.tsx:44 | filtering distributes over concatenation, so relative order is kept |
| `Form.FilterCount` | src/components/Recipe/RecipeForm.tsx:44 | the length of the filtered list equals the number of input positions whose entry satisfies the predicate |
| `Form.NonBlankIsTheFilledSlots` | src/components/Recipe/RecipeForm.tsx:37-44 | the submitted ingredients are the slots in order with the blank ones removed: each non-blank entry as often as it occurs, no blank entry, and as many as the count behind the submit rule |
| `Form.SubmitEnabledIff` | src/components/Recipe/RecipeForm.tsx:149 | the submit control is enabled exactly when not loading and at least two slots are non-blank |
| `Form.DietType` | src/components/Recipe/RecipeForm.tsx:49 | the diet sent is `null` exactly when the selection is empty, and otherwise the selected label |
| `Form.DietOnTheWire` | src/components/Recipe/RecipeForm.tsx:46-51 | the request body holds the filtered ingredients, `null` for the empty option, and the literal "Keto" or "Vegan" for those options |
| `Form.PayloadRoundTrip` | src/components/Recipe/RecipeForm.tsx:46-51 | the request body carries the ingredients and the diet without loss: reading it back gives the payload |
| `Form.NotOkErrors` | src/components/Recipe/RecipeForm.tsx:62-73 | for a non-ok body: a falsy or missing `errors` gives `["Something went wrong"]`; a string that parses gives the parsed value; one that does not gives `[string]`; another truthy value passes through; a `null` body throws |
| `Form.Classify` | src/components/Recipe/RecipeForm.tsx:53-88 | transport failure or unparseable body gives `["Server/Network error"]`; non-ok never gives a result; a result is given exactly for an ok body with a truthy `recipe` and is that value; otherwise `errors` if truthy, else `["No recipe found."]` |
| `Form.ReadOutcome` | src/components/Recipe/RecipeForm.tsx:53-85 | the try/catch block, with its local `errors` rewritten step by step, chooses the callback the decision function prescribes |
| `Form.EncodedErrorListIsDecoded` | src/components/Recipe/RecipeForm.tsx:65-67 | a JSON-encoded error list sent as a string reaches `onError` decoded |
| `Form.ServerErrorListShownVerbatim` | src/components/Recipe/RecipeForm.tsx:62-73 | a non-empty error array sent with a non-ok status reaches the panel item by item, with no recipe |
| `Form.UnreadableOutcomesShowNetworkError` | src/components/Recipe/RecipeForm.tsx:84-85 | a transport failure or a non-JSON body shows the single network message |
| `Form.EncodedNonListIsPassedOn` | src/components/Recipe/RecipeForm.tsx:65-72 | a string that decodes to a non-array is passed on decoded: a number hides the panel, a string cannot be listed |
| `Form.ExactlyOneCallback` | src/components/Recipe/RecipeForm.tsx:39-89 | the history one submission leaves starts with the reset, then `loading` set, holds exactly one callback (the one chosen) and ends with `loading` cleared |
| `Form.Deliver` | src/components/Recipe/RecipeForm.tsx:72-85 | exactly the named callback runs: the history gains its one entry, and it changes only its own display slot |
| `Form.RecipeForm.constructor` | src/components/Recipe/RecipeForm.tsx:16-18 | the form starts with one empty slot, no diet and not loading |
| `Form.RecipeForm.NonEmptyIngredientCount` | src/components/Recipe/RecipeForm.tsx:37 | the count is at most the number of slots and equals the number of non-blank positions |
| `Form.RecipeForm.AddIncludeField` | src/components/Recipe/RecipeForm.tsx:20-24 | below 10 slots one empty slot is appended, at 10 nothing changes; the cap of 10 is kept |
| `Form.RecipeForm.RemoveIncludeField` | src/components/Recipe/RecipeForm.tsx:27-29 | exactly slot `idx` is dropped, the rest keep their order, and the list may become empty |
| `Form.RecipeForm.HandleIngredientChange` | src/components/Recipe/RecipeForm.tsx:31-35 | slot `idx` takes the new value; the length and every other slot are unchanged |
| `Form.RecipeForm.SelectDiet` | src/components/Recipe/RecipeForm.tsx:95-105 | the selection becomes one of the options: empty, "Keto" or "Vegan" |
| `Form.RecipeForm.Begin` | src/components/Recipe/RecipeForm.tsx:41-42 | a submission starts with `onReset()` then `setLoading(true)`: both display slots are cleared, `loading` is on, and the history gains exactly those two entries in that order |
| `Form.RecipeForm.Settle` | src/components/Recipe/RecipeForm.tsx:72-87 | a submission ends with the chosen callback then `setLoading(false)` from `finally`: the history gains exactly those two entries, and only the callback's own display slot changes |
| `Form.RecipeForm.SetLoading` | src/components/Recipe/RecipeForm.tsx:42 | `setLoading` stores the flag and records the write in the event history |
| `Form.RecipeForm.HandleSubmit` | src/components/Recipe/RecipeForm.tsx:39-89 | the event history that the shell's callbacks and the `loading` writes append to grows by exactly reset, loading on, the classified callback, loading off; the request holds the filtered slots (at least two). Afterwards the shell holds (recipe, []) or (none, errors), and the result view is shown exactly on a result |
| `ResultView.IngredientLines` | src/components/Recipe/RecipeResult.tsx:37-41 | one line per ingredient, in order, each `quantity + " " + name` |
| `ResultView.StepLines` | src/components/Recipe/RecipeResult.tsx:52-56 | one line per step, the line at index `k` labelled `Step k+1:` followed by that step's text |
| `ResultView.IngredientsSection` | src/components/Recipe/RecipeResult.tsx:34-45 | the fallback "No ingredients specified." exactly when the list is missing, not a list, or empty; otherwise the ingredient lines |
| `ResultView.StepsSection` | src/components/Recipe/RecipeResult.tsx:50-60 | the fallback "No steps provided." exactly when the list is missing, not a list, or empty; otherwise the numbered step lines |
| `ResultView.Render` | src/components/Recipe/RecipeResult.tsx:23-64 | title and description are shown as given, and the two sections follow the rules above |
| `ResultView.StepLineRoundTrip` | src/components/Recipe/RecipeResult.tsx:54 | a step line can be read back into its number and its text |
| `ResultView.StepsAreNumberedFromOne` | src/components/Recipe/RecipeResult.tsx:52-56 | the `k`-th rendered step line carries number `k + 1` and the `k`-th step's text |

## Left out

- The HTTP request itself and its fixed endpoint are not modelled. The outcome of the call is
  an input, and the request body is returned as a `Payload` value.
- The internals of `JSON.stringify`, `response.json()` and `JSON.parse` are not modelled.
  JSON is an abstract datatype, and parsing a string is a function parameter.
- Several submissions in flight at once, where the last to settle wins, are not modelled.
  That behaviour is about the timing of asynchronous settlements. `HandleSubmit` runs one
  submission from start to end, and its precondition (the submit control is enabled) excludes
  a second submission while `loading` is true.
- Rendering is not modelled: JSX, icons, the progress spinner, CSS classes and the page
  layout. Only which panels are visible and the text of their lines are modelled.
- A thrown exception from an `onResult`/`onError` callback would itself be caught. The shell's
  callbacks are state setters that do not throw, so this is not modelled.
- `Form.RecipeForm.HandleIngredientChange` requires an existing index. The inputs pass their
  own index, and assigning past the end of a JavaScript array (which grows it with holes) is
  not modelled.
- `JsonValue.Get` reads own properties of parsed values only. The array `length` and
  inherited properties are not modelled; the keys the form reads (`errors`, `recipe`) never
  reach them.
- `Shell.ErrorPanel` treats a number, a boolean or an object as hidden (`null`, a non-empty
  string and an array that React cannot render give `RenderFails`); an object carrying its
  own numeric `length` property is not modelled. Nested arrays are
  rendered by React as fragments; the model accepts them when all their items render.
- `ResultView.Render` takes the declared recipe shape, with the two lists optional.
  The shell stores the recipe as untyped JSON, and the form casts it without a check. Values
  whose run-time type differs from the declared field types (a numeric title, a step that is
  not an object) are not modelled.
- JavaScript strings are UTF-16 code units; the model's strings are Unicode scalar values.
  The whitespace set of `trim` is modelled in full.
