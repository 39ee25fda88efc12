/**
 * The profile page: loading the signed-in user's profile, the edits its
 * controls make, and the body it sends on save. Every edit is a functional
 * update of the profile record.
 */
module Profile {
  import opened Options
  import opened Thunks
  import Lists
  import CommaList

  /** The page's `profileData`. */
  datatype ProfileData = ProfileData(
    username: string,
    email: string,
    dietaryPreferences: seq<string>,
    allergies: seq<string>,
    cuisineLikes: seq<string>,
    cuisineDislikes: seq<string>,
    fitnessGoals: string)

  const Empty := ProfileData("", "", [], [], [], [], "")

  /** The array fields a checkbox group or the allergy box edits. */
  datatype ArrayField = DietaryPreferences | Allergies | CuisineLikes | CuisineDislikes

  /** `prev[field]`. */
  function Values(p: ProfileData, f: ArrayField): seq<string>
  {
    match f
    case DietaryPreferences => p.dietaryPreferences
    case Allergies => p.allergies
    case CuisineLikes => p.cuisineLikes
    case CuisineDislikes => p.cuisineDislikes
  }

  /** `{ ...prev, [field]: xs }`. */
  function WithValues(p: ProfileData, f: ArrayField, xs: seq<string>): (r: ProfileData)
    ensures Values(r, f) == xs
    ensures forall g :: g != f ==> Values(r, g) == Values(p, g)
    ensures r.username == p.username && r.email == p.email && r.fitnessGoals == p.fitnessGoals
  {
    match f
    case DietaryPreferences => p.(dietaryPreferences := xs)
    case Allergies => p.(allergies := xs)
    case CuisineLikes => p.(cuisineLikes := xs)
    case CuisineDislikes => p.(cuisineDislikes := xs)
  }

  /**
   * `toggleArrayValue(field, value)`: the value leaves the field when it is there
   * and is appended otherwise; every other field stays as it was.
   */
  function ToggleArrayValue(p: ProfileData, f: ArrayField, v: string): (r: ProfileData)
    ensures v in Values(r, f) <==> v !in Values(p, f)
    ensures forall y :: y != v ==> (y in Values(r, f) <==> y in Values(p, f))
    ensures forall g :: g != f ==> Values(r, g) == Values(p, g)
    ensures r.username == p.username && r.email == p.email && r.fitnessGoals == p.fitnessGoals
  {
    WithValues(p, f, Lists.Toggle(Values(p, f), v))
  }

  /** Two clicks on a box that was clear leave the profile as it was. */
  lemma ToggleTwiceRestores(p: ProfileData, f: ArrayField, v: string)
    requires v !in Values(p, f)
    ensures ToggleArrayValue(ToggleArrayValue(p, f, v), f, v) == p
  {
    Lists.ToggleTwice(Values(p, f), v);
  }

  /** Toggling keeps a field free of duplicates. */
  lemma ToggleKeepsDistinct(p: ProfileData, f: ArrayField, v: string)
    requires Lists.Distinct(Values(p, f))
    ensures Lists.Distinct(Values(ToggleArrayValue(p, f, v), f))
  {
    Lists.ToggleKeepsDistinct(Values(p, f), v);
  }

  /** What the allergy box shows: `allergies.join(', ')`. */
  function AllergiesText(p: ProfileData): string
  {
    CommaList.Display(p.allergies)
  }

  /** Typing in the allergy box: the text is split on ',', trimmed, and blanks dropped. */
  function SetAllergiesText(p: ProfileData, text: string): (r: ProfileData)
    ensures forall k :: 0 <= k < |r.allergies| ==> CommaList.IsEntry(r.allergies[k])
    ensures r.(allergies := p.allergies) == p
  {
    p.(allergies := CommaList.Parse(text))
  }

  /** A list of trimmed, non-empty, comma-free allergies survives being shown and read back. */
  lemma AllergiesRoundTrip(p: ProfileData)
    requires forall k :: 0 <= k < |p.allergies| ==> CommaList.IsEntry(p.allergies[k])
    ensures SetAllergiesText(p, AllergiesText(p)) == p
  {
    CommaList.ParseDisplay(p.allergies);
  }

  /** Once the box has been typed in, showing and reading back changes nothing more. */
  lemma AllergiesTextStable(p: ProfileData, text: string)
    ensures var q := SetAllergiesText(p, text); SetAllergiesText(q, AllergiesText(q)) == q
  {
    AllergiesRoundTrip(SetAllergiesText(p, text));
  }

  /** Typing in the fitness goals box. */
  function SetFitnessGoals(p: ProfileData, text: string): (r: ProfileData)
    ensures r.fitnessGoals == text
    ensures forall f :: Values(r, f) == Values(p, f)
    ensures r.username == p.username && r.email == p.email
  {
    p.(fitnessGoals := text)
  }

  /** Only the last text typed into the goals box counts. */
  lemma FitnessGoalsLastWins(p: ProfileData, a: string, b: string)
    ensures SetFitnessGoals(SetFitnessGoals(p, a), b) == SetFitnessGoals(p, b)
    ensures SetFitnessGoals(p, p.fitnessGoals) == p
  {
  }

  /** The body of `GET /users/me`; each field the server may leave out is optional. */
  datatype Fetched = Fetched(
    username: string,
    email: string,
    dietaryPreferences: Option<seq<string>>,
    allergies: Option<seq<string>>,
    cuisineLikes: Option<seq<string>>,
    cuisineDislikes: Option<seq<string>>,
    fitnessGoals: Option<string>)

  /** The profile built from a response: missing arrays become `[]`, missing goals `''`. */
  function LoadProfile(d: Fetched): (r: ProfileData)
    ensures r.username == d.username && r.email == d.email
    ensures r.dietaryPreferences == d.dietaryPreferences.GetOr([])
    ensures r.allergies == d.allergies.GetOr([])
    ensures r.cuisineLikes == d.cuisineLikes.GetOr([])
    ensures r.cuisineDislikes == d.cuisineDislikes.GetOr([])
    ensures r.fitnessGoals == d.fitnessGoals.GetOr("")
  {
    ProfileData(d.username, d.email,
      d.dietaryPreferences.GetOr([]), d.allergies.GetOr([]),
      d.cuisineLikes.GetOr([]), d.cuisineDislikes.GetOr([]),
      d.fitnessGoals.GetOr(""))
  }

  /** A response with only the account fields loads as the empty profile for that account. */
  lemma LoadBareAccount(u: string, e: string)
    ensures LoadProfile(Fetched(u, e, None, None, None, None, None)) == Empty.(username := u, email := e)
  {
  }

  /** A stored profile sent back whole loads as itself. */
  lemma LoadFullProfile(p: ProfileData)
    ensures LoadProfile(Fetched(p.username, p.email, Some(p.dietaryPreferences), Some(p.allergies),
      Some(p.cuisineLikes), Some(p.cuisineDislikes), Some(p.fitnessGoals))) == p
  {
  }

  /** The page state besides the profile. */
  datatype Page = Page(data: ProfileData, loading: bool, saving: bool, message: string)

  const InitialPage := Page(Empty, true, false, "")

  const LoadFailed := "Failed to load profile info"
  const Saved := "Profile saved successfully!"
  const SaveFailed := "Failed to save profile."

  /** What the mount effect does: send a visitor without a token to the login page, or load the profile. */
  datatype Mount = ToLogin | Shown(page: Page)

  /** The mount effect with the token from the store and the answer of the profile request. */
  function OnMount(page: Page, token: Option<string>, reply: Reply<Fetched>): (r: Mount)
    ensures r.ToLogin? <==> token.None? || token.value == ""
    ensures r.Shown? ==> !r.page.loading && r.page.saving == page.saving
    ensures r.Shown? && reply.Answered? ==> r.page.data == LoadProfile(reply.data) && r.page.message == page.message
    ensures r.Shown? && reply.Failed? ==> r.page.data == page.data && r.page.message == LoadFailed
  {
    if token.None? || token.value == "" then ToLogin
    else match reply
      case Answered(d) => Shown(page.(data := LoadProfile(d), loading := false))
      case Failed(_) => Shown(page.(message := LoadFailed, loading := false))
  }

  /** The body of `PUT /users/me`: the five editable fields, and no account field. */
  datatype SavePayload = SavePayload(
    dietaryPreferences: seq<string>,
    allergies: seq<string>,
    cuisineLikes: seq<string>,
    cuisineDislikes: seq<string>,
    fitnessGoals: string)

  /** The body `handleSave` sends. */
  function SaveBody(p: ProfileData): (r: SavePayload)
    ensures r.dietaryPreferences == p.dietaryPreferences && r.allergies == p.allergies
    ensures r.cuisineLikes == p.cuisineLikes && r.cuisineDislikes == p.cuisineDislikes
    ensures r.fitnessGoals == p.fitnessGoals
  {
    SavePayload(p.dietaryPreferences, p.allergies, p.cuisineLikes, p.cuisineDislikes, p.fitnessGoals)
  }

  /**
   * The account fields never reach the body, and the body determines every
   * other field: two profiles send the same body exactly when they differ at
   * most in username and email.
   */
  lemma SaveBodyIgnoresAccount(p: ProfileData, q: ProfileData)
    ensures SaveBody(p) == SaveBody(q) <==> p.(username := q.username, email := q.email) == q
  {
  }

  /** No edit of the page changes what the account fields are. */
  lemma EditsKeepAccount(p: ProfileData, f: ArrayField, v: string, text: string)
    ensures ToggleArrayValue(p, f, v).username == p.username && ToggleArrayValue(p, f, v).email == p.email
    ensures SetAllergiesText(p, text).username == p.username && SetAllergiesText(p, text).email == p.email
    ensures SetFitnessGoals(p, text).username == p.username && SetFitnessGoals(p, text).email == p.email
  {
  }

  /** `handleSave` once the request has finished; `failed` says whether it threw. */
  function OnSaved(page: Page, failed: bool): (r: Page)
    ensures r.data == page.data && r.loading == page.loading && !r.saving
    ensures r.message == if failed then SaveFailed else Saved
  {
    page.(saving := false, message := if failed then SaveFailed else Saved)
  }
}
