/**
 * The recipe form controller: the ingredient slots and the diet selection the user edits,
 * the rule that enables the submit control, the request it sends, and how it turns the
 * outcome of the request into exactly one of its `onResult` / `onError` callbacks.
 *
 * The network call and the parsing of the response body are not modelled: the outcome of
 * the call is an input (`Outcome`), and `JSON.parse` is a parameter `parse`.
 */
module Form {

  import opened Wrappers
  import opened JsonValue
  import opened JsText
  import Shell

  /** The add control disappears, and adding does nothing, once this many slots exist. */
  const MaxIngredientFields := 10
  /** The submit control needs at least this many non-blank ingredients. */
  const MinIngredients := 2
  /** The diet labels offered besides the empty "no specific diet" option. */
  const DietTypes: seq<string> := ["Keto", "Vegan"]

  const SomethingWentWrong := "Something went wrong"
  const NoRecipeFound := "No recipe found."
  const NetworkError := "Server/Network error"

  /** A one-message error list, `["..."]`. */
  function Messages(message: string): (j: Json)
    ensures j == StringArray([message])
  {
    JArray([JString(message)])
  }

  // ---------------------------------------------------------------------------------------
  // Ingredient slots
  // ---------------------------------------------------------------------------------------

  /** `prev.filter((_, i) => i !== idx)`: keeps every slot whose index differs from `idx`. */
  function DropIndex<T>(s: seq<T>, idx: int): (r: seq<T>)
    ensures |r| == if 0 <= idx < |s| then |s| - 1 else |s|
  {
    if s == [] then []
    else if idx == |s| - 1 then DropIndex(s[..|s| - 1], idx)
    else DropIndex(s[..|s| - 1], idx) + [s[|s| - 1]]
  }

  /** Removing drops exactly position `idx` and keeps the others in their order; an index
      outside the list removes nothing. */
  lemma {:induction false} DropIndexRemovesExactlyOne<T>(s: seq<T>, idx: int)
    ensures DropIndex(s, idx) == if 0 <= idx < |s| then s[..idx] + s[idx + 1..] else s
  {
    if s != [] {
      var init := s[..|s| - 1];
      DropIndexRemovesExactlyOne(init, idx);
      if idx == |s| - 1 {
        assert s[..idx] + s[idx + 1..] == init;
      } else if 0 <= idx < |s| - 1 {
        assert init[..idx] + init[idx + 1..] + [s[|s| - 1]] == s[..idx] + s[idx + 1..];
      } else {
        assert init + [s[|s| - 1]] == s;
      }
    }
  }

  /** `s.filter(keep)`: the entries that satisfy `keep`, in their order. */
  function Filter<T>(keep: T -> bool, s: seq<T>): (r: seq<T>)
    ensures |r| <= |s|
    ensures forall i :: 0 <= i < |r| ==> keep(r[i])
  {
    if s == [] then []
    else if keep(s[|s| - 1]) then Filter(keep, s[..|s| - 1]) + [s[|s| - 1]]
    else Filter(keep, s[..|s| - 1])
  }

  /** `a` is obtained from `b` by deleting entries (matching from the back). */
  predicate IsSubsequence<T(==)>(a: seq<T>, b: seq<T>)
    decreases |b|
  {
    if a == [] then true
    else if b == [] then false
    else if a[|a| - 1] == b[|b| - 1] then IsSubsequence(a[..|a| - 1], b[..|b| - 1])
    else IsSubsequence(a, b[..|b| - 1])
  }

  /** The filtered entries keep the order they had. */
  lemma {:induction false} FilterIsSubsequence<T>(keep: T -> bool, s: seq<T>)
    ensures IsSubsequence(Filter(keep, s), s)
  {
    if s != [] {
      var init := s[..|s| - 1];
      FilterIsSubsequence(keep, init);
      var r := Filter(keep, init);
      if keep(s[|s| - 1]) {
        var r' := Filter(keep, s);
        assert r'[..|r'| - 1] == r;
      } else if r != [] {
        assert r[|r| - 1] != s[|s| - 1];
      }
    }
  }

  /** Every kept value appears in the result as often as in the input; nothing else does. */
  lemma {:induction false} FilterKeepsEveryEntry<T>(keep: T -> bool, s: seq<T>)
    ensures forall x :: keep(x) ==> multiset(Filter(keep, s))[x] == multiset(s)[x]
    ensures forall x :: !keep(x) ==> multiset(Filter(keep, s))[x] == 0
  {
    if s != [] {
      var init := s[..|s| - 1];
      var last := s[|s| - 1];
      FilterKeepsEveryEntry(keep, init);
      assert s == init + [last];
    }
  }

  /** Filtering a list with one more entry at the end. */
  lemma FilterSnoc<T>(keep: T -> bool, s: seq<T>, x: T)
    ensures Filter(keep, s + [x]) == if keep(x) then Filter(keep, s) + [x] else Filter(keep, s)
  {
    assert (s + [x])[..|s|] == s;
  }

  /** Filtering a concatenation filters each part: the relative order of the entries is kept. */
  lemma {:induction false} FilterAppend<T>(keep: T -> bool, a: seq<T>, b: seq<T>)
    ensures Filter(keep, a + b) == Filter(keep, a) + Filter(keep, b)
  {
    if b == [] {
      assert a + b == a;
    } else {
      var init, x := b[..|b| - 1], b[|b| - 1];
      assert b == init + [x];
      assert a + b == (a + init) + [x];
      var left, right := Filter(keep, a), Filter(keep, init);
      FilterAppend(keep, a, init);
      FilterSnoc(keep, init, x);
      FilterSnoc(keep, a + init, x);
      if keep(x) {
        assert Filter(keep, a + b) == (left + right) + [x];
        assert Filter(keep, b) == right + [x];
        assert (left + right) + [x] == left + (right + [x]);
      } else {
        assert Filter(keep, a + b) == left + right;
        assert Filter(keep, b) == right;
      }
    }
  }

  /** The positions of the kept entries: an independent way to count them. */
  function KeptPositions<T>(keep: T -> bool, s: seq<T>): set<int> {
    set i | 0 <= i < |s| && keep(s[i])
  }

  /** The last entry adds its position exactly when it is kept. */
  lemma PositionsOfLast<T>(keep: T -> bool, s: seq<T>)
    requires s != []
    ensures var n := |s| - 1;
      KeptPositions(keep, s) == KeptPositions(keep, s[..n]) + (if keep(s[n]) then {n} else {})
  {
    var n := |s| - 1;
    var init := s[..n];
    var rhs := KeptPositions(keep, init) + (if keep(s[n]) then {n} else {});
    forall i | i in KeptPositions(keep, s)
      ensures i in rhs
    {
      if i < n {
        assert s[i] == init[i];
      }
    }
    forall i | i in rhs
      ensures i in KeptPositions(keep, s)
    {
      if i < n {
        assert s[i] == init[i];
      }
    }
  }

  /** The length of the filtered list is the number of positions holding a kept entry. */
  lemma {:induction false} FilterCount<T>(keep: T -> bool, s: seq<T>)
    ensures |Filter(keep, s)| == |KeptPositions(keep, s)|
  {
    if s != [] {
      var n := |s| - 1;
      var before := KeptPositions(keep, s[..n]);
      FilterCount(keep, s[..n]);
      PositionsOfLast(keep, s);
      assert n !in before;
      if keep(s[n]) {
        assert |before + {n}| == |before| + 1;
      }
    }
  }

  /** `(f) => f.trim() !== ""` */
  predicate Filled(f: string) {
    !IsBlank(f)
  }

  /** `fields.filter((f) => f.trim() !== "")`: the non-blank entries. */
  function NonBlank(fields: seq<string>): (r: seq<string>)
    ensures |r| <= |fields|
    ensures forall i :: 0 <= i < |r| ==> !IsBlank(r[i])
  {
    Filter(Filled, fields)
  }

  /** The positions of the non-blank slots. */
  function NonBlankPositions(fields: seq<string>): set<int> {
    KeptPositions(Filled, fields)
  }

  /** The submitted ingredients are the non-blank slots in the order entered, each as often
      as it was entered and nothing blank, and there are `nonEmptyIngredientCount` of them,
      the number of non-blank positions. */
  lemma NonBlankIsTheFilledSlots(fields: seq<string>)
    ensures IsSubsequence(NonBlank(fields), fields)
    ensures forall x :: !IsBlank(x) ==> multiset(NonBlank(fields))[x] == multiset(fields)[x]
    ensures forall x :: IsBlank(x) ==> multiset(NonBlank(fields))[x] == 0
    ensures |NonBlank(fields)| == |NonBlankPositions(fields)|
  {
    FilterIsSubsequence(Filled, fields);
    FilterKeepsEveryEntry(Filled, fields);
    FilterCount(Filled, fields);
  }

  /** `disabled={loading || nonEmptyIngredientCount < 2}` */
  predicate SubmitDisabled(loading: bool, fields: seq<string>) {
    loading || |NonBlank(fields)| < MinIngredients
  }

  /** The submit control is enabled exactly when no request is in flight and at least two
      slots hold a non-blank entry. */
  lemma SubmitEnabledIff(loading: bool, fields: seq<string>)
    ensures !SubmitDisabled(loading, fields) <==> !loading && |NonBlankPositions(fields)| >= MinIngredients
  {
    FilterCount(Filled, fields);
  }

  // ---------------------------------------------------------------------------------------
  // The request
  // ---------------------------------------------------------------------------------------

  /** `{ recipe: { ingredients, diet_type } }` */
  datatype Payload = Payload(ingredients: seq<string>, dietType: Option<string>)

  /** `selectedDiet || null`: the empty selection is sent as `null`, a label as itself. */
  function DietType(selectedDiet: string): (d: Option<string>)
    ensures d.None? <==> selectedDiet == ""
    ensures d.Some? ==> d.value == selectedDiet
  {
    if selectedDiet == "" then None else Some(selectedDiet)
  }

  function BuildPayload(fields: seq<string>, selectedDiet: string): Payload {
    Payload(NonBlank(fields), DietType(selectedDiet))
  }

  /** The request body as JSON. */
  function PayloadJson(p: Payload): Json {
    var diet := if p.dietType.Some? then JString(p.dietType.value) else JNull;
    JObject(map["recipe" := JObject(map["ingredients" := StringArray(p.ingredients), "diet_type" := diet])])
  }

  /** What a receiver reads out of the request body. */
  function ReadPayload(j: Json): Option<Payload> {
    var recipe := Get(j, "recipe");
    if recipe.Defined? && recipe.value.JObject? then
      var r := recipe.value.fields;
      if "ingredients" in r && "diet_type" in r && r["ingredients"].JArray? then
        var ingredients := AsStrings(r["ingredients"].items);
        var diet := r["diet_type"];
        if ingredients.None? then None
        else if diet == JNull then Some(Payload(ingredients.value, None))
        else if diet.JString? then Some(Payload(ingredients.value, Some(diet.s)))
        else None
      else None
    else None
  }

  /** The request carries the filtered ingredients and the diet (or `null`) without loss. */
  lemma PayloadRoundTrip(p: Payload)
    ensures ReadPayload(PayloadJson(p)) == Some(p)
  {
    AsStringsOfStringArray(p.ingredients);
  }

  /** What the form sends for each choice of the diet selector: `null` for the empty option,
      the literal label otherwise. */
  lemma DietOnTheWire(fields: seq<string>, selectedDiet: string)
    requires selectedDiet == "" || selectedDiet in DietTypes
    ensures var body := PayloadJson(BuildPayload(fields, selectedDiet)).fields["recipe"].fields;
      && body["ingredients"] == StringArray(NonBlank(fields))
      && (body["diet_type"] == JNull <==> selectedDiet == "")
      && (selectedDiet == "Keto" ==> body["diet_type"] == JString("Keto"))
      && (selectedDiet == "Vegan" ==> body["diet_type"] == JString("Vegan"))
  {
  }

  // ---------------------------------------------------------------------------------------
  // The response
  // ---------------------------------------------------------------------------------------

  /** The body of a response as `response.json()` sees it. */
  datatype Body = Malformed | Parsed(data: Json)

  /** How the request settled: the transport failed, or a response arrived with or without
      an ok status. */
  datatype Outcome = NetworkFailure | Responded(ok: bool, body: Body)

  /** The one callback a submission ends in. */
  datatype Callback = OnResult(recipe: Json) | OnError(errors: Json)

  /** The error list reported for a non-ok response whose body parsed to `errorData`, or
      None when reading `errorData["errors"]` throws (a `null` body). */
  function NotOkErrors(errorData: Json, parse: string -> Option<Json>): (r: Option<Json>)
    ensures r.None? <==> errorData == JNull
    ensures errorData != JNull && !PresentAndTruthy(Get(errorData, "errors")) ==>
      r == Some(Messages(SomethingWentWrong))
    ensures PresentAndTruthy(Get(errorData, "errors")) ==>
      var errors := Get(errorData, "errors").value;
      && (errors.JString? && parse(errors.s).Some? ==> r == parse(errors.s))
      && (errors.JString? && parse(errors.s).None? ==> r == Some(StringArray([errors.s])))
      && (!errors.JString? ==> r == Some(errors))
  {
    var field := Get(errorData, "errors");
    if field.Throws? then None
    else
      var errors := if PresentAndTruthy(field) then field.value else Messages(SomethingWentWrong);
      if errors.JString? then
        match parse(errors.s)
        case Some(parsed) => Some(parsed)
        case None =>
          assert JArray([errors]) == StringArray([errors.s]);
          Some(JArray([errors]))
      else Some(errors)
  }

  /** The decision the submit handler makes, from the outcome of the request to the callback
      it invokes. */
  function Classify(outcome: Outcome, parse: string -> Option<Json>): (r: Callback)
    // a transport failure, or a body that is not JSON, is caught and reported generically
    ensures outcome.NetworkFailure? || outcome.body.Malformed? ==> r == OnError(Messages(NetworkError))
    // a non-ok status never produces a result
    ensures outcome.Responded? && !outcome.ok ==> r.OnError?
    ensures outcome.Responded? && !outcome.ok && outcome.body.Parsed? && outcome.body.data != JNull ==>
      r == OnError(NotOkErrors(outcome.body.data, parse).value)
    // a result is reported only for an ok response with a truthy `recipe`, and is that value
    ensures r.OnResult? <==>
      outcome.Responded? && outcome.ok && outcome.body.Parsed? &&
      PresentAndTruthy(Get(outcome.body.data, "recipe"))
    ensures r.OnResult? ==> r.recipe == Get(outcome.body.data, "recipe").value && Truthy(r.recipe)
    // an ok response without a recipe reports its `errors`, or "No recipe found."
    ensures outcome.Responded? && outcome.ok && outcome.body.Parsed? && outcome.body.data != JNull &&
            !PresentAndTruthy(Get(outcome.body.data, "recipe")) ==>
      var errors := Get(outcome.body.data, "errors");
      r == if PresentAndTruthy(errors) then OnError(errors.value) else OnError(Messages(NoRecipeFound))
    // reading a property of a `null` body throws and is caught
    ensures outcome.Responded? && outcome.body == Parsed(JNull) ==> r == OnError(Messages(NetworkError))
  {
    match outcome
    case NetworkFailure => OnError(Messages(NetworkError))
    case Responded(_, Malformed) => OnError(Messages(NetworkError))
    case Responded(ok, Parsed(data)) =>
      if data == JNull then OnError(Messages(NetworkError))
      else if !ok then OnError(NotOkErrors(data, parse).value)
      else if PresentAndTruthy(Get(data, "recipe")) then OnResult(Get(data, "recipe").value)
      else if PresentAndTruthy(Get(data, "errors")) then OnError(Get(data, "errors").value)
      else OnError(Messages(NoRecipeFound))
  }

  /** The `try` block of the submit handler together with its `catch`: reads the outcome of
      the request and picks the callback, mutating the local `errors` on the non-ok path. */
  method ReadOutcome(outcome: Outcome, parse: string -> Option<Json>) returns (callback: Callback)
    ensures callback == Classify(outcome, parse)
  {
    // try: every path that throws leaves this default for the catch block
    callback := OnError(Messages(NetworkError));
    if outcome.Responded? && outcome.body.Parsed? {
      var data := outcome.body.data;
      if !outcome.ok {
        var errorsField := Get(data, "errors");
        if !errorsField.Throws? {
          var errors := if PresentAndTruthy(errorsField) then errorsField.value else Messages(SomethingWentWrong);
          if errors.JString? {
            match parse(errors.s) {
              case Some(parsed) => errors := parsed;
              case None => errors := JArray([errors]);
            }
          }
          callback := OnError(errors);
        }
      } else {
        var recipe := Get(data, "recipe");
        if PresentAndTruthy(recipe) {
          callback := OnResult(recipe.value);
        } else if !recipe.Throws? {
          var errors := Get(data, "errors");
          if PresentAndTruthy(errors) {
            callback := OnError(errors.value);
          } else {
            callback := OnError(Messages(NoRecipeFound));
          }
        }
      }
    }
  }

  /** A server error list that is a JSON-encoded string is decoded before it is shown: an
      encoded array of messages reaches the shell as that array. */
  lemma EncodedErrorListIsDecoded(encoded: string, messages: seq<string>, parse: string -> Option<Json>)
    requires encoded != ""
    requires parse(encoded) == Some(StringArray(messages))
    ensures Classify(Responded(false, Parsed(JObject(map["errors" := JString(encoded)]))), parse)
      == OnError(StringArray(messages))
  {
  }

  /** An error list sent with a non-ok status is shown as it is, item by item, with no recipe. */
  lemma ServerErrorListShownVerbatim(messages: seq<string>, parse: string -> Option<Json>)
    requires messages != []
    ensures var c := Classify(Responded(false, Parsed(JObject(map["errors" := StringArray(messages)]))), parse);
      && c == OnError(StringArray(messages))
      && Shell.ErrorPanel(c.errors) == Shell.Shown(StringArray(messages).items)
  {
    var items := StringArray(messages).items;
    assert forall i :: 0 <= i < |items| ==> items[i].JString? && Shell.Renderable(items[i]);
  }

  /** A transport failure, and a response body that is not JSON whatever the status, show the
      single network message. */
  lemma UnreadableOutcomesShowNetworkError(outcome: Outcome, parse: string -> Option<Json>)
    requires outcome.NetworkFailure? || outcome.body.Malformed?
    ensures var c := Classify(outcome, parse);
      c.OnError? && Shell.ErrorPanel(c.errors) == Shell.Shown([JString(NetworkError)])
  {
  }

  /** A string that decodes to something other than an array of messages is passed on as it
      is decoded: `"404"` hides the error panel, and `"\"text\""` reaches the panel as a
      string, which it cannot list. */
  lemma EncodedNonListIsPassedOn(parse: string -> Option<Json>)
    requires parse("404") == Some(JNumber(404.0))
    requires parse("\"text\"") == Some(JString("text"))
    ensures var e := Classify(Responded(false, Parsed(JObject(map["errors" := JString("404")]))), parse);
      e == OnError(JNumber(404.0)) && Shell.ErrorPanel(e.errors) == Shell.Hidden
    ensures var e := Classify(Responded(false, Parsed(JObject(map["errors" := JString("\"text\"")]))), parse);
      e == OnError(JString("text")) && Shell.ErrorPanel(e.errors) == Shell.RenderFails
  {
  }

  /** The entry a callback leaves in the page's event history. */
  function CallbackEvent(callback: Callback): Shell.Event {
    match callback
    case OnResult(recipe) => Shell.ResultGiven(recipe)
    case OnError(errors) => Shell.ErrorsGiven(errors)
  }

  predicate IsCallback(e: Shell.Event) {
    e.ResultGiven? || e.ErrorsGiven?
  }

  /** The number of callback invocations in a stretch of the event history. */
  function CallbackCount(events: seq<Shell.Event>): nat {
    if events == [] then 0
    else CallbackCount(events[..|events| - 1]) + (if IsCallback(events[|events| - 1]) then 1 else 0)
  }

  /** What one submission appends to the event history. */
  function SubmitEvents(callback: Callback): seq<Shell.Event> {
    [Shell.Reset, Shell.LoadingSet(true), CallbackEvent(callback), Shell.LoadingSet(false)]
  }

  /** What `Begin` appends followed by what `Settle` appends is one submission's history. */
  lemma SubmitEventsInTwoParts(before: seq<Shell.Event>, callback: Callback)
    ensures before + [Shell.Reset, Shell.LoadingSet(true)] + [CallbackEvent(callback), Shell.LoadingSet(false)]
      == before + SubmitEvents(callback)
  {
  }

  /** A submission resets first, then sets `loading`, then invokes exactly one callback (the
      classified one, so an `onResult` is never accompanied by an `onError`), and clears
      `loading` last. */
  lemma ExactlyOneCallback(callback: Callback)
    ensures var e := SubmitEvents(callback);
      && CallbackCount(e) == 1
      && e[0] == Shell.Reset && e[1] == Shell.LoadingSet(true) && e[|e| - 1] == Shell.LoadingSet(false)
      && (forall i :: 0 <= i < |e| && IsCallback(e[i]) ==> i == 2 && e[i] == CallbackEvent(callback))
  {
    var reset := [Shell.Reset];
    var started := reset + [Shell.LoadingSet(true)];
    var called := started + [CallbackEvent(callback)];
    var finished := called + [Shell.LoadingSet(false)];
    assert reset[..0] == [] && started[..1] == reset;
    assert called[..2] == started && finished[..3] == called;
    assert CallbackCount(reset) == 0 by { assert CallbackCount(reset[..0]) == 0; }
    assert CallbackCount(started) == 0;
    assert CallbackCount(called) == 1;
    assert finished == SubmitEvents(callback);
  }

  // ---------------------------------------------------------------------------------------
  // The component's state
  // ---------------------------------------------------------------------------------------

  /** Hands the outcome to the parent: `onResult` or `onError`, whichever `callback` names. */
  method Deliver(shell: Shell.App, callback: Callback)
    modifies shell`recipe, shell`errorList, shell`events
    ensures shell.events == old(shell.events) + [CallbackEvent(callback)]
    ensures callback.OnResult? ==> shell.recipe == callback.recipe && shell.errorList == old(shell.errorList)
    ensures callback.OnError? ==> shell.errorList == callback.errors && shell.recipe == old(shell.recipe)
  {
    match callback {
      case OnResult(r) => shell.OnResult(r);
      case OnError(es) => shell.OnError(es);
    }
  }

  class RecipeForm {
    var ingredientFields: seq<string>
    var selectedDiet: string
    var loading: bool

    /** The slot count stays within the cap, and the diet is one of the selector's options. */
    ghost predicate Valid()
      reads this
    {
      && |ingredientFields| <= MaxIngredientFields
      && (selectedDiet == "" || selectedDiet in DietTypes)
    }

    /** One empty slot, no diet, not loading. */
    constructor ()
      ensures Valid()
      ensures ingredientFields == [""] && selectedDiet == "" && !loading
    {
      ingredientFields := [""];
      selectedDiet := "";
      loading := false;
    }

    /** `nonEmptyIngredientCount` */
    function NonEmptyIngredientCount(): (n: nat)
      reads this
      ensures n <= |ingredientFields|
      ensures n == |NonBlankPositions(ingredientFields)|
    {
      FilterCount(Filled, ingredientFields);
      |NonBlank(ingredientFields)|
    }

    /** `addIncludeField`: appends one empty slot below the cap, does nothing at it. */
    method AddIncludeField()
      requires Valid()
      modifies this`ingredientFields
      ensures Valid()
      ensures ingredientFields ==
        if |old(ingredientFields)| < MaxIngredientFields then old(ingredientFields) + [""]
        else old(ingredientFields)
    {
      if |ingredientFields| < MaxIngredientFields {
        ingredientFields := ingredientFields + [""];
      }
    }

    /** `removeIncludeField(idx)`: drops the slot at `idx`; the list may become empty. */
    method RemoveIncludeField(idx: int)
      requires Valid()
      modifies this`ingredientFields
      ensures Valid()
      ensures ingredientFields == DropIndex(old(ingredientFields), idx)
      ensures ingredientFields ==
        if 0 <= idx < |old(ingredientFields)| then old(ingredientFields)[..idx] + old(ingredientFields)[idx + 1..]
        else old(ingredientFields)
    {
      DropIndexRemovesExactlyOne(ingredientFields, idx);
      ingredientFields := DropIndex(ingredientFields, idx);
    }

    /** `handleIngredientChange(value, idx)`: a copy of the slots with position `idx`
        overwritten. The inputs call it with the index of an existing slot. */
    method HandleIngredientChange(value: string, idx: int)
      requires Valid()
      requires 0 <= idx < |ingredientFields|
      modifies this`ingredientFields
      ensures Valid()
      ensures |ingredientFields| == |old(ingredientFields)| && ingredientFields[idx] == value
      ensures forall j :: 0 <= j < |ingredientFields| && j != idx ==> ingredientFields[j] == old(ingredientFields)[j]
    {
      var updated := ingredientFields;
      updated := updated[idx := value];
      ingredientFields := updated;
    }

    /** The selector's `onChange`: the value is one of its options. */
    method SelectDiet(value: string)
      requires Valid()
      requires value == "" || value in DietTypes
      modifies this`selectedDiet
      ensures Valid() && selectedDiet == value
    {
      selectedDiet := value;
    }

    /** `handleSubmit`, run when the submit control is enabled (not loading, at least two
        non-blank slots; see SubmitEnabledIff). `shell` receives the three callbacks, whose
        methods log themselves in `shell.events`; each write to `loading` is logged there
        too. The returned values are the request sent and the callback invoked. */
    method HandleSubmit(shell: Shell.App, outcome: Outcome, parse: string -> Option<Json>)
      returns (request: Payload, callback: Callback)
      requires Valid() && !loading && NonEmptyIngredientCount() >= MinIngredients
      modifies this`loading, shell
      ensures Valid() && !loading
      ensures ingredientFields == old(ingredientFields) && selectedDiet == old(selectedDiet)
      ensures request == BuildPayload(ingredientFields, selectedDiet)
      ensures |request.ingredients| >= MinIngredients
      ensures callback == Classify(outcome, parse)
      // reset first, then loading, then exactly one callback, and loading cleared last
      ensures shell.events == old(shell.events) + SubmitEvents(callback)
      ensures callback.OnResult? ==> shell.recipe == callback.recipe && shell.errorList == JArray([])
      ensures Shell.ResultShown(shell.recipe) <==> callback.OnResult?
      ensures callback.OnError? ==> shell.recipe == JNull && shell.errorList == callback.errors
    {
      Begin(shell);
      request := BuildPayload(ingredientFields, selectedDiet);

      callback := ReadOutcome(outcome, parse);
      Settle(shell, callback);
      SubmitEventsInTwoParts(old(shell.events), callback);
    }

    /** The start of a submission: `onReset()`, then `setLoading(true)`. */
    method Begin(shell: Shell.App)
      modifies this`loading, shell
      ensures loading
      ensures shell.recipe == JNull && shell.errorList == JArray([])
      ensures shell.events == old(shell.events) + [Shell.Reset, Shell.LoadingSet(true)]
    {
      shell.HandleReset();
      SetLoading(shell, true);
    }

    /** The end of a submission: the chosen callback, then `setLoading(false)` in `finally`. */
    method Settle(shell: Shell.App, callback: Callback)
      modifies this`loading, shell`recipe, shell`errorList, shell`events
      ensures !loading
      ensures shell.events == old(shell.events) + [CallbackEvent(callback), Shell.LoadingSet(false)]
      ensures callback.OnResult? ==> shell.recipe == callback.recipe && shell.errorList == old(shell.errorList)
      ensures callback.OnError? ==> shell.errorList == callback.errors && shell.recipe == old(shell.recipe)
    {
      Deliver(shell, callback);
      SetLoading(shell, false);
    }

    /** `setLoading(on)`, with the write recorded in the page's event history. */
    method SetLoading(shell: Shell.App, on: bool)
      modifies this`loading, shell`events
      ensures loading == on
      ensures shell.events == old(shell.events) + [Shell.LoadingSet(on)]
    {
      loading := on;
      shell.RecordLoading(on);
    }
  }
}
