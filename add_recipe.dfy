/**
 * The add-recipe form: the editors for its ingredient, instruction, tag and
 * allergen lists, the validation and payload of a submission, and the submit
 * handler with its post-success reset.
 */
module AddRecipe {
  import opened Options
  import opened Text
  import opened Thunks
  import Lists
  import CommaList

  /** One ingredient row of the form. */
  datatype Ingredient = Ingredient(name: string, quantity: string, unit: string)

  /** `{ name: '', quantity: '', unit: '' }`. */
  const Blank := Ingredient("", "", "")

  /** The fields of an ingredient row the inputs edit. */
  datatype Field = Name | Quantity | Unit

  function FieldOf(ing: Ingredient, f: Field): string
  {
    match f
    case Name => ing.name
    case Quantity => ing.quantity
    case Unit => ing.unit
  }

  /** `{ ...ing, [field]: value }`: that field holds the value and the other two are kept. */
  function WithField(ing: Ingredient, f: Field, v: string): (r: Ingredient)
    ensures FieldOf(r, f) == v
    ensures forall g :: g != f ==> FieldOf(r, g) == FieldOf(ing, g)
  {
    match f
    case Name => ing.(name := v)
    case Quantity => ing.(quantity := v)
    case Unit => ing.(unit := v)
  }

  /** `addIngredientField`: one blank row at the end, the earlier rows as they were. */
  function AddIngredientField(xs: seq<Ingredient>): (r: seq<Ingredient>)
    ensures |r| == |xs| + 1 && r[..|xs|] == xs && r[|xs|] == Blank
  {
    xs + [Blank]
  }

  /** `removeIngredientField(index)`: that row goes, the others keep their order. */
  function RemoveIngredientField(xs: seq<Ingredient>, index: int): (r: seq<Ingredient>)
    ensures 0 <= index < |xs| ==> |r| == |xs| - 1 && r == xs[..index] + xs[index + 1..]
    ensures !(0 <= index < |xs|) ==> r == xs
  {
    var r := Lists.RemoveAt(xs, index);
    assert 0 <= index < |xs| ==> r == r[..index] + r[index..];
    r
  }

  /** `updateIngredient(index, field, value)`: only that field of that row changes. */
  function UpdateIngredient(xs: seq<Ingredient>, index: int, f: Field, v: string): (r: seq<Ingredient>)
    ensures |r| == |xs|
    ensures forall j :: 0 <= j < |xs| && j != index ==> r[j] == xs[j]
    ensures 0 <= index < |xs| ==>
      (FieldOf(r[index], f) == v && forall g :: g != f ==> FieldOf(r[index], g) == FieldOf(xs[index], g))
  {
    if 0 <= index < |xs| then Lists.UpdateAt(xs, index, WithField(xs[index], f, v)) else xs
  }

  /** `addInstruction`: one empty step at the end. */
  function AddInstruction(steps: seq<string>): (r: seq<string>)
    ensures |r| == |steps| + 1 && r[..|steps|] == steps && r[|steps|] == ""
  {
    steps + [""]
  }

  /** `updateInstruction(index, value)`: only that step changes. */
  function UpdateInstruction(steps: seq<string>, index: int, v: string): (r: seq<string>)
    ensures |r| == |steps|
    ensures forall j :: 0 <= j < |steps| && j != index ==> r[j] == steps[j]
    ensures 0 <= index < |steps| ==> r[index] == v
  {
    Lists.UpdateAt(steps, index, v)
  }

  /** `removeInstruction(index)`: that step goes, the others keep their order. */
  function RemoveInstruction(steps: seq<string>, index: int): (r: seq<string>)
    ensures 0 <= index < |steps| ==> |r| == |steps| - 1 && r == steps[..index] + steps[index + 1..]
    ensures !(0 <= index < |steps|) ==> r == steps
  {
    var r := Lists.RemoveAt(steps, index);
    assert 0 <= index < |steps| ==> r == r[..index] + r[index..];
    r
  }

  /** Removing a row that was just added gives the rows back. */
  lemma RemoveAddedIngredient(xs: seq<Ingredient>)
    ensures RemoveIngredientField(AddIngredientField(xs), |xs|) == xs
  {
    assert AddIngredientField(xs)[..|xs|] == xs;
  }

  /** What the form holds. */
  datatype Form = Form(
    title: string,
    ingredients: seq<Ingredient>,
    instructions: seq<string>,
    cuisine: string,
    dietaryTags: seq<string>,
    allergens: seq<string>,
    imageFile: Option<string>,
    imagePreview: Option<string>,
    sharingPublic: bool,
    submitting: bool,
    message: string)

  /** The form as it first renders and as a successful submission leaves it, apart from the message. */
  const Initial := Form("", [Blank], [""], "", [], [], None, None, true, false, "")

  /** `toggleDietaryTag`: the tag's membership flips, nothing else in the form changes. */
  function ToggleDietaryTag(s: Form, tag: string): (r: Form)
    ensures tag in r.dietaryTags <==> tag !in s.dietaryTags
    ensures forall t :: t != tag ==> (t in r.dietaryTags <==> t in s.dietaryTags)
    ensures r == s.(dietaryTags := r.dietaryTags)
  {
    s.(dietaryTags := Lists.Toggle(s.dietaryTags, tag))
  }

  /** `toggleAllergen`: the allergen's membership flips, nothing else in the form changes. */
  function ToggleAllergen(s: Form, allergen: string): (r: Form)
    ensures allergen in r.allergens <==> allergen !in s.allergens
    ensures forall a :: a != allergen ==> (a in r.allergens <==> a in s.allergens)
    ensures r == s.(allergens := r.allergens)
  {
    s.(allergens := Lists.Toggle(s.allergens, allergen))
  }

  /** Typing into the allergens field: it stores the parsed entries. */
  function EditAllergens(s: Form, text: string): (r: Form)
    ensures forall k :: 0 <= k < |r.allergens| ==> CommaList.IsEntry(r.allergens[k])
    ensures r == s.(allergens := r.allergens)
  {
    s.(allergens := CommaList.Parse(text))
  }

  /** The allergens field shows the list so that leaving it untouched keeps the list. */
  lemma AllergensFieldRoundTrip(s: Form)
    requires forall k :: 0 <= k < |s.allergens| ==> CommaList.IsEntry(s.allergens[k])
    ensures EditAllergens(s, CommaList.Display(s.allergens)) == s
  {
    CommaList.ParseDisplay(s.allergens);
  }

  /** Toggling a dietary tag that is not there twice gives the form back. */
  lemma ToggleDietaryTagTwice(s: Form, tag: string)
    requires tag !in s.dietaryTags
    ensures ToggleDietaryTag(ToggleDietaryTag(s, tag), tag) == s
  {
    Lists.ToggleTwice(s.dietaryTags, tag);
  }

  /** `title.trim()` is non-empty. */
  predicate HasTitle(s: Form)
  {
    Trim(s.title) != ""
  }

  /** There is an ingredient row and every row has a name once trimmed. */
  predicate HasNamedIngredients(s: Form)
  {
    |s.ingredients| > 0 && AllNamed(s.ingredients)
  }

  /** Every ingredient's name is non-blank once trimmed. */
  predicate AllNamed(xs: seq<Ingredient>)
  {
    forall j :: 0 <= j < |xs| ==> Trim(xs[j].name) != ""
  }

  /** There is a step and every step is non-blank once trimmed. */
  predicate HasSteps(s: Form)
  {
    |s.instructions| > 0 && AllNonBlank(s.instructions)
  }

  /** Every step is non-blank once trimmed. */
  predicate AllNonBlank(xs: seq<string>)
  {
    forall j :: 0 <= j < |xs| ==> Trim(xs[j]) != ""
  }

  const TitleRequired := "Title is required"
  const IngredientRequired := "At least one ingredient with name is required"
  const InstructionRequired := "At least one instruction step is required"
  const CuisineRequired := "Cuisine type is required"

  /** The message of the first check the form fails, in the order the handler checks them. */
  function Validate(s: Form): (r: Option<string>)
    ensures r.None? <==> HasTitle(s) && HasNamedIngredients(s) && HasSteps(s) && s.cuisine != ""
    ensures r == Some(TitleRequired) <==> !HasTitle(s)
    ensures r == Some(IngredientRequired) <==> HasTitle(s) && !HasNamedIngredients(s)
    ensures r == Some(InstructionRequired) <==> HasTitle(s) && HasNamedIngredients(s) && !HasSteps(s)
    ensures r == Some(CuisineRequired) <==>
      HasTitle(s) && HasNamedIngredients(s) && HasSteps(s) && s.cuisine == ""
  {
    if !HasTitle(s) then Some(TitleRequired)
    else if !HasNamedIngredients(s) then Some(IngredientRequired)
    else if !HasSteps(s) then Some(InstructionRequired)
    else if s.cuisine == "" then Some(CuisineRequired)
    else None
  }

  /** The recipe a submission posts. */
  datatype Payload = Payload(
    title: string,
    ingredients: seq<Ingredient>,
    instructions: seq<string>,
    cuisine: string,
    dietaryTags: seq<string>,
    allergens: seq<string>,
    imageUrl: string,
    isPublic: bool)

  /** An ingredient row with its three fields trimmed. */
  function TrimIngredient(ing: Ingredient): Ingredient
  {
    Ingredient(Trim(ing.name), Trim(ing.quantity), Trim(ing.unit))
  }

  /** `ingredients.map(...)` trimming every field of every row. */
  function TrimRows(xs: seq<Ingredient>): (r: seq<Ingredient>)
    ensures |r| == |xs|
    ensures forall j :: 0 <= j < |xs| ==> r[j] == TrimIngredient(xs[j])
  {
    seq(|xs|, j requires 0 <= j < |xs| => TrimIngredient(xs[j]))
  }

  /** `instructions.map((step) => step.trim())`. */
  function TrimSteps(steps: seq<string>): (r: seq<string>)
    ensures |r| == |steps|
    ensures forall j :: 0 <= j < |steps| ==> r[j] == Trim(steps[j])
  {
    seq(|steps|, j requires 0 <= j < |steps| => Trim(steps[j]))
  }

  lemma TrimRowsStable(xs: seq<Ingredient>)
    ensures TrimRows(TrimRows(xs)) == TrimRows(xs)
  {
    forall j | 0 <= j < |xs| ensures TrimRows(TrimRows(xs))[j] == TrimRows(xs)[j] {
      TrimIngredientStable(xs[j]);
    }
  }

  lemma TrimStepsStable(steps: seq<string>)
    ensures TrimSteps(TrimSteps(steps)) == TrimSteps(steps)
  {
    forall j | 0 <= j < |steps| ensures TrimSteps(TrimSteps(steps))[j] == TrimSteps(steps)[j] {
      TrimIdempotent(steps[j]);
    }
  }

  /** The payload: title, ingredient fields and steps trimmed, the rest passed through. */
  function BuildPayload(s: Form, imageUrl: string): (p: Payload)
    ensures p.title == Trim(s.title)
    ensures |p.ingredients| == |s.ingredients|
    ensures forall j :: 0 <= j < |s.ingredients| ==> p.ingredients[j] == TrimIngredient(s.ingredients[j])
    ensures |p.instructions| == |s.instructions|
    ensures forall j :: 0 <= j < |s.instructions| ==> p.instructions[j] == Trim(s.instructions[j])
    ensures p.cuisine == s.cuisine && p.dietaryTags == s.dietaryTags && p.allergens == s.allergens
    ensures p.imageUrl == imageUrl && p.isPublic == s.sharingPublic
  {
    Payload(
      Trim(s.title),
      TrimRows(s.ingredients),
      TrimSteps(s.instructions),
      s.cuisine, s.dietaryTags, s.allergens, imageUrl, s.sharingPublic)
  }

  /** A payload that passed validation has a title, named ingredients, filled steps and a cuisine, all trimmed. */
  lemma ValidPayloadIsClean(s: Form, imageUrl: string)
    requires Validate(s).None?
    ensures var p := BuildPayload(s, imageUrl);
      && p.title != "" && IsTrimmed(p.title)
      && |p.ingredients| > 0
      && (forall j :: 0 <= j < |p.ingredients| ==> p.ingredients[j].name != "" && IsTrimmed(p.ingredients[j].name))
      && |p.instructions| > 0
      && (forall j :: 0 <= j < |p.instructions| ==> p.instructions[j] != "" && IsTrimmed(p.instructions[j]))
      && p.cuisine != ""
  {
    var p := BuildPayload(s, imageUrl);
    assert AllNamed(s.ingredients) && AllNonBlank(s.instructions);
    forall j | 0 <= j < |p.ingredients| ensures p.ingredients[j].name != "" && IsTrimmed(p.ingredients[j].name) {
      assert p.ingredients[j].name == Trim(s.ingredients[j].name);
    }
    forall j | 0 <= j < |p.instructions| ensures p.instructions[j] != "" && IsTrimmed(p.instructions[j]) {
      assert p.instructions[j] == Trim(s.instructions[j]);
    }
  }

  /** The form a payload describes, fields already trimmed. */
  function FormOf(p: Payload): Form
  {
    Initial.(title := p.title, ingredients := p.ingredients, instructions := p.instructions,
             cuisine := p.cuisine, dietaryTags := p.dietaryTags, allergens := p.allergens,
             sharingPublic := p.isPublic)
  }

  /** Trimming is settled once: building a payload from a payload's own values changes nothing. */
  lemma PayloadStable(s: Form, imageUrl: string)
    ensures var p := BuildPayload(s, imageUrl); BuildPayload(FormOf(p), imageUrl) == p
  {
    TrimIdempotent(s.title);
    TrimRowsStable(s.ingredients);
    TrimStepsStable(s.instructions);
  }

  lemma TrimIngredientStable(ing: Ingredient)
    ensures TrimIngredient(TrimIngredient(ing)) == TrimIngredient(ing)
  {
    TrimIdempotent(ing.name);
    TrimIdempotent(ing.quantity);
    TrimIdempotent(ing.unit);
  }

  /** What an HTTP call answered: the data, or an axios error with the body's `message` and the error's own message. */
  datatype Response<+T> = Ok(data: T) | HttpError(serverMessage: Option<string>, errorMessage: string)

  /** `err.response?.data?.message || err.message || 'Failed to submit recipe'`. */
  function CatchMessage(serverMessage: Option<string>, errorMessage: string): (r: string)
    ensures r != ""
    ensures serverMessage.Some? && serverMessage.value != "" ==> r == serverMessage.value
    ensures (serverMessage.None? || serverMessage.value == "") && errorMessage != "" ==> r == errorMessage
    ensures (serverMessage.None? || serverMessage.value == "") && errorMessage == "" ==> r == "Failed to submit recipe"
  {
    var fromServer := RejectValue(serverMessage, "");
    if fromServer != "" then fromServer
    else if errorMessage != "" then errorMessage
    else "Failed to submit recipe"
  }

  /** A validation failure is thrown as `new Error(message)`, which reaches the catch with no response. */
  lemma ValidationMessageShown(s: Form)
    requires Validate(s).Some?
    ensures CatchMessage(None, Validate(s).value) == Validate(s).value
  {
  }

  const Submitted := "Recipe submitted successfully!"

  /** The uploaded image's URL, or '' when no image is chosen. */
  function ImageUrl(s: Form, upload: Response<string>): string
  {
    if s.imageFile.Some? && upload.Ok? then upload.data else ""
  }

  /** What a submission leaves behind: the form, and the payload posted if it got that far. */
  datatype Submission = Submission(after: Form, sent: Option<Payload>)

  /**
   * `handleSubmit` on values. The image is uploaded first when one is chosen, then
   * the checks throw their message, then the payload is posted; `upload` and
   * `post` are what the two calls answer. Any throw ends in the catch, which
   * shows its message and leaves the entries as they were.
   */
  function Submit(s: Form, upload: Response<string>, post: Response<()>): (r: Submission)
    ensures !r.after.submitting && r.after.message != ""
    ensures r.sent.Some? ==> r.sent.value == BuildPayload(s, ImageUrl(s, upload))
    ensures s.imageFile.Some? && upload.HttpError? ==> r.sent.None?
  {
    if s.imageFile.Some? && upload.HttpError? then
      Submission(s.(submitting := false, message := CatchMessage(upload.serverMessage, upload.errorMessage)), None)
    else if Validate(s).Some? then
      Submission(s.(submitting := false, message := CatchMessage(None, Validate(s).value)), None)
    else
      var p := BuildPayload(s, ImageUrl(s, upload));
      match post
      case Ok(_) => Submission(Initial.(message := Submitted), Some(p))
      case HttpError(sm, em) => Submission(s.(submitting := false, message := CatchMessage(sm, em)), Some(p))
  }

  /** The entries of the form: everything but the submitting flag and the message. */
  predicate SameEntries(a: Form, b: Form)
  {
    a.(submitting := false, message := "") == b.(submitting := false, message := "")
  }

  /** A submission posts exactly when the upload, if any, went through and the form is valid. */
  lemma SubmitPostsOnlyValid(s: Form, upload: Response<string>, post: Response<()>)
    ensures var r := Submit(s, upload, post);
      && (r.sent.Some? <==> (s.imageFile.None? || upload.Ok?) && Validate(s).None?)
      && (r.sent.Some? ==> r.sent.value == BuildPayload(s, ImageUrl(s, upload)))
  {
  }

  /** The form as it opens is rejected for its missing title: nothing is posted and the title message shows. */
  lemma UntouchedFormRejected(upload: Response<string>, post: Response<()>)
    ensures Validate(Initial) == Some(TitleRequired)
    ensures Submit(Initial, upload, post) == Submission(Initial.(message := TitleRequired), None)
  {
    EmptyTitleRejected(Initial, upload, post);
  }

  /** A form with an empty title and no image is rejected before anything is posted. */
  lemma EmptyTitleRejected(s: Form, upload: Response<string>, post: Response<()>)
    requires s.title == [] && s.imageFile.None?
    ensures Validate(s) == Some(TitleRequired)
    ensures Submit(s, upload, post) == Submission(s.(submitting := false, message := TitleRequired), None)
  {
    assert AllSpace(s.title);
    ValidationMessageShown(s);
  }

  /** What a submission posts has a title, ingredients and a cuisine. */
  lemma SubmitPostsClean(s: Form, upload: Response<string>, post: Response<()>)
    requires Submit(s, upload, post).sent.Some?
    ensures var p := Submit(s, upload, post).sent.value;
      p.title != "" && IsTrimmed(p.title) && |p.ingredients| > 0 && |p.instructions| > 0 && p.cuisine != ""
  {
    assert Validate(s).None?;
    ValidPayloadIsClean(s, ImageUrl(s, upload));
  }

  /**
   * Only an accepted post resets the form, and then every field is back to its
   * initial value; every failure keeps the entries and shows a non-empty message,
   * the failed check's own message when validation is what failed.
   */
  lemma SubmitOutcome(s: Form, upload: Response<string>, post: Response<()>)
    ensures var r := Submit(s, upload, post);
      && !r.after.submitting
      && (r.sent.Some? && post.Ok? ==> r.after == Initial.(message := Submitted))
      && (!(r.sent.Some? && post.Ok?) ==> SameEntries(r.after, s) && r.after.message != "")
      && ((s.imageFile.None? || upload.Ok?) && Validate(s).Some? ==> r.after.message == Validate(s).value)
  {
    if Validate(s).Some? {
      ValidationMessageShown(s);
    }
  }

  /** The component's state. */
  class AddRecipePage {
    var title: string
    var ingredients: seq<Ingredient>
    var instructions: seq<string>
    var cuisine: string
    var dietaryTags: seq<string>
    var allergens: seq<string>
    var imageFile: Option<string>
    var imagePreview: Option<string>
    var sharingPublic: bool
    var submitting: bool
    var message: string

    function Snapshot(): Form
      reads this
    {
      Form(title, ingredients, instructions, cuisine, dietaryTags, allergens,
           imageFile, imagePreview, sharingPublic, submitting, message)
    }

    constructor ()
      ensures Snapshot() == Initial
    {
      title := "";
      ingredients := [Blank];
      instructions := [""];
      cuisine := "";
      dietaryTags := [];
      allergens := [];
      imageFile := None;
      imagePreview := None;
      sharingPublic := true;
      submitting := false;
      message := "";
    }

    /** The checks of `handleSubmit`, in order: the message of the first one that throws. */
    method CheckFields() returns (failure: Option<string>)
      ensures failure == Validate(Snapshot())
    {
      ghost var s := Snapshot();
      failure := None;
      if Trim(title) == "" {
        assert !HasTitle(s);
        failure := Some(TitleRequired);
      } else if |ingredients| == 0 || !AllNamed(ingredients) {
        assert HasTitle(s) && !HasNamedIngredients(s);
        failure := Some(IngredientRequired);
      } else if |instructions| == 0 || !AllNonBlank(instructions) {
        assert HasTitle(s) && HasNamedIngredients(s) && !HasSteps(s);
        failure := Some(InstructionRequired);
      } else if cuisine == "" {
        assert HasTitle(s) && HasNamedIngredients(s) && HasSteps(s);
        failure := Some(CuisineRequired);
      } else {
        assert HasTitle(s) && HasNamedIngredients(s) && HasSteps(s);
      }
    }

    /** The reset after a successful submission: every field back to its initial value. */
    method ResetForm()
      modifies this
      ensures Snapshot() == Initial.(submitting := old(submitting), message := old(message))
    {
      title := "";
      ingredients := [Blank];
      instructions := [""];
      cuisine := "";
      dietaryTags := [];
      allergens := [];
      imageFile := None;
      imagePreview := None;
      sharingPublic := true;
    }

    /**
     * `handleSubmit`: the component reaches the state `Submit` describes, posting
     * what it says. The caught failure, if any, is kept in `failure` until the
     * `finally` step.
     */
    method HandleSubmit(upload: Response<string>, post: Response<()>) returns (sent: Option<Payload>)
      modifies this
      ensures Submit(old(Snapshot()), upload, post) == Submission(Snapshot(), sent)
    {
      ghost var before := Snapshot();
      sent := None;
      var failure: Option<string> := None;
      var imageUrl := "";
      if imageFile.Some? {
        match upload
        case Ok(url) => imageUrl := url;
        case HttpError(sm, em) => failure := Some(CatchMessage(sm, em));
      }
      if failure.None? {
        var invalid := CheckFields();
        if invalid.Some? {
          failure := Some(CatchMessage(None, invalid.value));
        }
      }
      if failure.None? {
        sent := Some(BuildPayload(Snapshot(), imageUrl));
        if post.HttpError? {
          failure := Some(CatchMessage(post.serverMessage, post.errorMessage));
        }
      }
      assert Submit(before, upload, post) ==
        if failure.None? then Submission(Initial.(message := Submitted), sent)
        else Submission(before.(submitting := false, message := failure.value), sent);
      if failure.None? {
        ResetForm();
        message := Submitted;
      } else {
        message := failure.value;
      }
      submitting := false;
    }
  }
}
