/**
 * The application shell: the page that owns the currently displayed recipe (or none) and
 * the current error list, hands the recipe form its three callbacks, and decides which of
 * the two panels are on screen.
 */
module Shell {

  import opened JsonValue

  /** React's rule for a value placed as a child (`<li>{err}</li>`): `null` and booleans render
      nothing, numbers and strings render as text, arrays render their items, and a plain
      object makes rendering throw. */
  predicate Renderable(j: Json) {
    match j
    case JObject(_) => false
    case JArray(items) => forall i :: 0 <= i < |items| ==> Renderable(items[i])
    case _ => true
  }

  /** What the error panel shows for a given error list. `errorList.length > 0` guards the
      panel and `errorList.map(err => <li>{err}</li>)` lists its items. */
  datatype Panel =
    | Hidden
    | Shown(items: seq<Json>)
    | RenderFails  // `null.length` throws, a string has no `map`, an object item cannot be a child

  /** The error panel for an error list. The form always sends an array of strings on its own
      account, but it passes server-supplied values on as they are, so any JSON value can
      arrive here. */
  function ErrorPanel(errorList: Json): (p: Panel)
    ensures p.Shown? <==> errorList.JArray? && errorList.items != [] && Renderable(errorList)
    ensures p.Shown? ==> p.items == errorList.items
    ensures p.RenderFails? <==>
      || errorList == JNull
      || (errorList.JString? && errorList.s != [])
      || (errorList.JArray? && !Renderable(errorList))
  {
    match errorList
    case JNull => RenderFails
    case JArray(items) =>
      if |items| == 0 then Hidden
      else if Renderable(errorList) then Shown(items)
      else RenderFails
    case JString(s) => if |s| > 0 then RenderFails else Hidden
    case _ => Hidden
  }

  /** `recipe && <RecipeResult .../>`: the result view is on screen when the slot is truthy. */
  predicate ResultShown(recipe: Json)
    ensures ResultShown(recipe) ==> recipe != JNull
    ensures recipe.JObject? ==> ResultShown(recipe)
  {
    Truthy(recipe)
  }

  /** What the page's components do to each other, in the order it happens: the three
      callbacks the shell hands to the form, and the form's writes to its `loading` flag. */
  datatype Event = Reset | ResultGiven(recipe: Json) | ErrorsGiven(errors: Json) | LoadingSet(on: bool)

  /** The shell's two state slots. `recipe` is `JNull` when no recipe is held. `events` is
      the history of what happened on the page; every callback appends its own entry. */
  class App {
    var recipe: Json
    var errorList: Json
    ghost var events: seq<Event>

    constructor ()
      ensures recipe == JNull && errorList == JArray([]) && events == []
    {
      recipe := JNull;
      errorList := JArray([]);
      events := [];
    }

    /** `handleReset`, the form's `onReset`: clears both slots. */
    method HandleReset()
      modifies this
      ensures recipe == JNull && errorList == JArray([])
      ensures !ResultShown(recipe) && ErrorPanel(errorList) == Hidden
      ensures events == old(events) + [Reset]
    {
      recipe := JNull;
      errorList := JArray([]);
      events := events + [Reset];
    }

    /** The form's `onResult`: overwrites the recipe slot only. */
    method OnResult(recipeData: Json)
      modifies this`recipe, this`events
      ensures recipe == recipeData && errorList == old(errorList)
      ensures events == old(events) + [ResultGiven(recipeData)]
    {
      recipe := recipeData;
      events := events + [ResultGiven(recipeData)];
    }

    /** The form's `onError`: overwrites the error list only. */
    method OnError(errors: Json)
      modifies this`errorList, this`events
      ensures errorList == errors && recipe == old(recipe)
      ensures events == old(events) + [ErrorsGiven(errors)]
    {
      errorList := errors;
      events := events + [ErrorsGiven(errors)];
    }

    /** Records a write to the form's `loading` flag, so that the history has one writer. */
    ghost method RecordLoading(on: bool)
      modifies this`events
      ensures events == old(events) + [LoadingSet(on)]
    {
      events := events + [LoadingSet(on)];
    }
  }
}
