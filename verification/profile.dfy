/**
  The profile page: a draft of the six editable fields seeded from the session's
  user, edits to the draft, and the submission of the draft as
  `PUT /api/users/profile` after client-side validation.
  The page receives the session's `isAuthenticated`, `user` and stored token as
  inputs, the number syntax as a parameter, and the reply to its request as a
  `ProfileApi` parameter.
 */
module Profile {
  import opened Js
  import Session

  datatype Field = Username | Email | Height | Weight | Gender | Age

  datatype Draft = Draft(username: Value, email: Value, height: Value, weight: Value, gender: Value, age: Value)

  function Get(d: Draft, f: Field): Value {
    match f
    case Username => d.username
    case Email => d.email
    case Height => d.height
    case Weight => d.weight
    case Gender => d.gender
    case Age => d.age
  }

  const EmptyDraft: Draft := Draft(Str(""), Str(""), Str(""), Str(""), Str(""), Str(""))

  datatype Page = Page(draft: Draft, loading: bool, editing: bool)

  const InitialPage: Page := Page(EmptyDraft, true, false)

  /** The field of the user record a draft field is seeded from. */
  function UserField(u: Session.User, f: Field): Value {
    match f
    case Username => u.username
    case Email => u.email
    case Height => u.height
    case Weight => u.weight
    case Gender => u.gender
    case Age => u.age
  }

  /** The seeding effect: logged out, only the loading flag drops; logged in with a
      user, each draft field becomes the user's value or `""` when that is falsy. */
  function Seed(p: Page, isAuthenticated: bool, user: Option<Session.User>): (r: Page)
    ensures !r.loading && r.editing == p.editing
    ensures !isAuthenticated || user.None? ==> r.draft == p.draft
    ensures isAuthenticated && user.Some? ==>
              forall f :: Get(r.draft, f) == (if Falsy(UserField(user.value, f)) then Str("") else UserField(user.value, f))
  {
    if isAuthenticated && user.Some? then
      var u := user.value;
      p.(draft := Draft(Or(u.username, Str("")), Or(u.email, Str("")), Or(u.height, Str("")),
                        Or(u.weight, Str("")), Or(u.gender, Str("")), Or(u.age, Str(""))),
         loading := false)
    else p.(loading := false)
  }

  /** `handleInputChange`: the named field takes the typed text, the others stay. */
  function HandleInputChange(p: Page, field: Field, value: string): (r: Page)
    ensures Get(r.draft, field) == Str(value)
    ensures forall g :: g != field ==> Get(r.draft, g) == Get(p.draft, g)
    ensures r.loading == p.loading && r.editing == p.editing
  {
    var d := p.draft;
    var d' := match field
      case Username => d.(username := Str(value))
      case Email => d.(email := Str(value))
      case Height => d.(height := Str(value))
      case Weight => d.(weight := Str(value))
      case Gender => d.(gender := Str(value))
      case Age => d.(age := Str(value));
    p.(draft := d')
  }

  /** The Edit Profile button. */
  function StartEditing(p: Page): (r: Page)
    ensures r.editing && r.draft == p.draft
  {
    p.(editing := true)
  }

  // ---------------------------------------------------------------------------
  // handleSubmit

  /** The body of `PUT /api/users/profile`; `None` stands for `NaN`. */
  datatype Payload = Payload(
    userId: Value, username: Value, email: Value,
    height: Option<real>, weight: Option<real>, gender: string, age: Option<int>)

  datatype Request = Request(payload: Payload, token: Value)

  /** The reply to the request: a success with its message, an error response with
      the message of its body, or no response at all. */
  datatype Reply = Accepted(message: Value) | ErrorResponse(message: Value) | NoResponse

  type ProfileApi = Request -> Reply

  /** The toast shown after a submission. */
  datatype Notice = Success(text: Value) | Failure(text: Value)

  datatype Outcome = Outcome(page: Page, request: Option<Request>, notice: Notice)

  const LoginFirst: string := "Please log in first"
  const AllRequired: string := "All fields are required"
  const MustBeNumbers: string := "Height, weight, and age must be numbers"
  const UpdateFailed: string := "Failed to update profile"

  predicate AnyEmpty(d: Draft) {
    Falsy(d.username) || Falsy(d.email) || Falsy(d.height) || Falsy(d.weight) || Falsy(d.gender) || Falsy(d.age)
  }

  predicate AnyNaN(d: Draft, num: NumberSyntax) {
    IsNaN(d.height, num) || IsNaN(d.weight, num) || IsNaN(d.age, num)
  }

  /** `parseFloat(v)` on a draft field; a number is read back as itself. */
  function ParseFloatValue(v: Value, num: NumberSyntax): Option<real> {
    match v
    case Str(s) => num.parseFloat(s)
    case Num(n) => Some(n)
    case Missing => None
  }

  /** `parseInt(v)` on a draft field; a number is truncated toward zero. */
  function ParseIntValue(v: Value): Option<int> {
    match v
    case Str(s) => ParseInt(s)
    case Num(n) => Some(if n >= 0.0 then n.Floor else -((-n).Floor))
    case Missing => None
  }

  /** The payload of a validated draft; `gender` must be a string to be lower-cased. */
  function BuildPayload(d: Draft, user: Session.User, num: NumberSyntax): (p: Payload)
    requires d.gender.Str?
    ensures p.userId == user.id && p.username == d.username && p.email == d.email
    ensures p.gender == Lower(d.gender.s)
    ensures p.height == ParseFloatValue(d.height, num) && p.weight == ParseFloatValue(d.weight, num)
    ensures p.age == ParseIntValue(d.age)
  {
    Payload(user.id, d.username, d.email, ParseFloatValue(d.height, num), ParseFloatValue(d.weight, num),
            Lower(d.gender.s), ParseIntValue(d.age))
  }

  /** The token the request carries: the user's own, else the stored one. */
  function RequestToken(user: Session.User, stored: Option<string>): (t: Value)
    ensures !Falsy(user.token) ==> t == user.token
    ensures Falsy(user.token) && stored.Some? ==> t == Str(stored.value)
    ensures Falsy(user.token) && stored.None? ==> t == Missing
    ensures Falsy(t) <==> Falsy(user.token) && (stored.None? || stored == Some(""))
  {
    Or(user.token, match stored case None => Missing case Some(t) => Str(t))
  }

  /** The failure toast: the server's message when it sent a truthy one. */
  function FailureText(reply: Reply): (t: Value)
    ensures !Falsy(t)
    ensures reply.ErrorResponse? && !Falsy(reply.message) ==> t == reply.message
    ensures !(reply.ErrorResponse? && !Falsy(reply.message)) ==> t == Str(UpdateFailed)
  {
    if reply.ErrorResponse? && !Falsy(reply.message) then reply.message else Str(UpdateFailed)
  }

  /** Everything the request needs before it can be sent. */
  predicate Sendable(d: Draft, isAuthenticated: bool, user: Option<Session.User>, stored: Option<string>, num: NumberSyntax) {
    && isAuthenticated && !AnyEmpty(d) && !AnyNaN(d, num)
    && user.Some? && d.gender.Str? && !Falsy(RequestToken(user.value, stored))
  }

  /** `handleSubmit`: the login check, then the emptiness check, then the numeric
      check, each ending the submission with its own message; then, inside the
      `try`, the payload (a missing user or a non-string gender throws) and the token
      (none throws); then the request, whose success leaves edit mode. Every failure
      inside the `try` keeps the page as it was. */
  function Submit(p: Page, isAuthenticated: bool, user: Option<Session.User>, stored: Option<string>,
                  num: NumberSyntax, api: ProfileApi): (r: Outcome)
    ensures r.page.draft == p.draft && r.page.loading == p.loading
    ensures !isAuthenticated ==> r == Outcome(p, None, Failure(Str(LoginFirst)))
    ensures isAuthenticated && AnyEmpty(p.draft) ==> r == Outcome(p, None, Failure(Str(AllRequired)))
    ensures isAuthenticated && !AnyEmpty(p.draft) && AnyNaN(p.draft, num) ==>
              r == Outcome(p, None, Failure(Str(MustBeNumbers)))
    ensures isAuthenticated && !AnyEmpty(p.draft) && !AnyNaN(p.draft, num) && r.request.None? ==>
              r == Outcome(p, None, Failure(Str(UpdateFailed)))
    ensures r.request.Some? <==> Sendable(p.draft, isAuthenticated, user, stored, num)
    ensures r.request.Some? ==>
              && r.request.value.payload == BuildPayload(p.draft, user.value, num)
              && r.request.value.token == RequestToken(user.value, stored)
    ensures r.page.editing == (p.editing && !(r.request.Some? && api(r.request.value).Accepted?))
    ensures r.notice.Success? <==> r.request.Some? && api(r.request.value).Accepted?
    ensures r.notice.Failure? && r.request.Some? ==> r.notice.text == FailureText(api(r.request.value))
  {
    var d := p.draft;
    if !isAuthenticated then Outcome(p, None, Failure(Str(LoginFirst)))
    else if AnyEmpty(d) then Outcome(p, None, Failure(Str(AllRequired)))
    else if AnyNaN(d, num) then Outcome(p, None, Failure(Str(MustBeNumbers)))
    else if user.None? || !d.gender.Str? then Outcome(p, None, Failure(Str(UpdateFailed)))
    else
      var token := RequestToken(user.value, stored);
      if Falsy(token) then Outcome(p, None, Failure(Str(UpdateFailed)))
      else
        var request := Request(BuildPayload(d, user.value, num), token);
        match api(request)
        case Accepted(message) => Outcome(p.(editing := false), Some(request), Success(message))
        case ErrorResponse(_) => Outcome(p, Some(request), Failure(FailureText(api(request))))
        case NoResponse => Outcome(p, Some(request), Failure(FailureText(api(request))))
  }

  // ---------------------------------------------------------------------------
  // Properties

  /** The login check comes first: a logged-out submission is refused whatever the
      draft holds, and nothing is sent. */
  lemma LoggedOutRefusedFirst(p: Page, user: Option<Session.User>, stored: Option<string>, num: NumberSyntax, api: ProfileApi)
    ensures var r := Submit(p, false, user, stored, num, api);
            r.request.None? && r.notice == Failure(Str(LoginFirst)) && r.page == p
  {
  }

  /** The numeric check is reached only with every field filled in: an empty field is
      reported as missing even when another field is not a number. */
  lemma EmptinessBeforeNumbers(p: Page, user: Option<Session.User>, stored: Option<string>, num: NumberSyntax, api: ProfileApi)
    requires AnyEmpty(p.draft) && AnyNaN(p.draft, num)
    ensures Submit(p, true, user, stored, num, api).notice == Failure(Str(AllRequired))
  {
  }

  /** A user with no height, weight or age on the server gets "N/A" defaults; the
      draft seeded from that user is not empty there, but saving it unchanged is
      refused as not numeric (`Number("N/A")` is `NaN`), and nothing is sent. */
  lemma DefaultsFailNumericCheck(u: Session.User, stored: Option<string>, num: NumberSyntax, api: ProfileApi)
    requires num.toNumber(Session.NotAvailable).None?
    requires !Falsy(u.username) && !Falsy(u.email)
    requires Falsy(u.height) || Falsy(u.weight) || Falsy(u.age)
    ensures var fetched := Session.WithDefaults(u);
            var seeded := Seed(InitialPage, true, Some(fetched));
            && !AnyEmpty(seeded.draft)
            && Submit(seeded, true, Some(fetched), stored, num, api) == Outcome(seeded, None, Failure(Str(MustBeNumbers)))
  {
  }

  /** A valid draft sends the lower-cased gender and the user's id, and on success
      leaves edit mode; a refused or failed request leaves the page as it was. */
  lemma ValidSubmitSends(p: Page, u: Session.User, stored: Option<string>, num: NumberSyntax, api: ProfileApi)
    requires Sendable(p.draft, true, Some(u), stored, num)
    ensures var r := Submit(p, true, Some(u), stored, num, api);
            && r.request.Some?
            && r.request.value.payload.userId == u.id
            && r.request.value.payload.gender == Lower(p.draft.gender.s)
            && (api(r.request.value).Accepted? ==> !r.page.editing && r.notice == Success(api(r.request.value).message))
            && (!api(r.request.value).Accepted? ==> r.page == p && r.notice.Failure?)
  {
  }

  /** With no token in the user record and none stored, the submission fails with the
      generic message before any request. */
  lemma MissingTokenFails(p: Page, u: Session.User, num: NumberSyntax, api: ProfileApi)
    requires Falsy(u.token)
    requires !AnyEmpty(p.draft) && !AnyNaN(p.draft, num)
    ensures Submit(p, true, Some(u), None, num, api) == Outcome(p, None, Failure(Str(UpdateFailed)))
  {
  }

  /** Seeding from the user and reading a field back gives the user's value, never a
      missing one. */
  lemma SeedNeverMissing(p: Page, u: Session.User, f: Field)
    ensures Get(Seed(p, true, Some(u)).draft, f) != Missing
  {
  }
}
