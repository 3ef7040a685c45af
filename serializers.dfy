/**
 * Input validation of the API: the field checks each serializer runs on a
 * request body, the username rule they share, the review pre-flight for
 * the one-review-per-title rule, and the profile serializer that ignores
 * the role.
 */
module Serializers {
  import opened Wrappers
  import opened Validators
  import opened Settings
  import opened Models
  import opened Permissions

  /** The first failing check of one field. */
  datatype FieldError =
    | Blank                          // a required text field left empty
    | TooLong(limit: nat)            // over the field's max_length
    | BadUsername(error: UsernameError)
    | Taken                          // a UniqueValidator: another user has this value
    | OutOfRange                     // the score validators

  /** `serializer.errors`: the failing fields, each with its error. */
  type FieldErrors = map<string, FieldError>

  const UsernameField: string := "username"
  const EmailField: string := "email"
  const CodeField: string := "confirmation_code"
  const FirstNameField: string := "first_name"
  const LastNameField: string := "last_name"
  const TextField: string := "text"
  const ScoreField: string := "score"

  /** max_length of first_name and last_name on the user model. */
  const MaxLenName: nat := 150

  /** A CharField with a max_length and blank values refused. */
  function CharFieldError(value: string, limit: nat): (e: Option<FieldError>)
    ensures e.None? <==> value != "" && |value| <= limit
    ensures e.Some? ==> e.value == Blank || e.value == TooLong(limit)
  {
    if value == "" then Some(Blank)
    else if |value| > limit then Some(TooLong(limit))
    else None
  }

  /**
   * The username field of every serializer with UsernameValidationMixin:
   * the CharField checks, then validate_username.
   */
  function UsernameFieldError(cfg: Config, value: string): (e: Option<FieldError>)
    ensures e.None? <==>
              value != "" && |value| <= cfg.maxLenUsername
              && ValidateUsername(cfg.usernamePattern, value) == Ok(value)
    ensures value == Me ==> e.Some?
  {
    match CharFieldError(value, cfg.maxLenUsername)
    case Some(err) => Some(err)
    case None =>
      match ValidateUsername(cfg.usernamePattern, value)
      case Ok(_) => None
      case Err(u) => Some(BadUsername(u))
  }

  /** Adds a field's error, if it has one. */
  function Report(errors: FieldErrors, field: string, e: Option<FieldError>): (r: FieldErrors)
    ensures r.Keys == if e.Some? then errors.Keys + {field} else errors.Keys
    ensures e.Some? ==> r[field] == e.value
    ensures forall f :: f in errors && f != field ==> r[f] == errors[f]
  {
    if e.Some? then errors[field := e.value] else errors
  }

  /** SignUpSerializer.is_valid: a username and an email. */
  function ValidateSignUp(cfg: Config, username: string, email: string): (errors: FieldErrors)
    ensures errors.Keys <= {UsernameField, EmailField}
    ensures UsernameField in errors <==> UsernameFieldError(cfg, username).Some?
    ensures EmailField in errors <==> CharFieldError(email, cfg.maxLenEmail).Some?
    ensures username == Me ==> errors != map[]
  {
    var e := Report(map[], UsernameField, UsernameFieldError(cfg, username));
    Report(e, EmailField, CharFieldError(email, cfg.maxLenEmail))
  }

  /** TokenSerializer.is_valid: a username and a confirmation code. */
  function ValidateToken(cfg: Config, username: string, code: string): (errors: FieldErrors)
    ensures errors.Keys <= {UsernameField, CodeField}
    ensures UsernameField in errors <==> UsernameFieldError(cfg, username).Some?
    ensures CodeField in errors <==> code == "" || |code| > cfg.maxLenCode
    ensures username == Me ==> errors != map[]
  {
    var e := Report(map[], UsernameField, UsernameFieldError(cfg, username));
    Report(e, CodeField, CharFieldError(code, cfg.maxLenCode))
  }

  /**
   * A PATCH body for /users/me/. It may carry a role; the profile serializer
   * lists role as read-only, so that part is never validated or applied.
   */
  datatype ProfilePatch = ProfilePatch(
    username: Option<string>,
    email: Option<string>,
    firstName: Option<string>,
    lastName: Option<string>,
    bio: Option<string>,
    role: Option<string>)

  /** A user other than the one with primary key `id` has this username. */
  predicate UsernameTakenByOther(users: map<string, User>, username: string, id: nat)
  {
    username in users && users[username].id != id
  }

  /** A user other than the one with primary key `id` has this email. */
  predicate EmailTakenByOther(users: map<string, User>, email: string, id: nat)
  {
    exists name :: name in users && users[name].email == email && users[name].id != id
  }

  /** The username of a partial update: the field checks, validate_username, uniqueness. */
  function ProfileUsernameError(cfg: Config, users: map<string, User>, me: User, value: string): (e: Option<FieldError>)
    ensures e.None? <==> UsernameFieldError(cfg, value).None? && !UsernameTakenByOther(users, value, me.id)
  {
    match UsernameFieldError(cfg, value)
    case Some(err) => Some(err)
    case None => if UsernameTakenByOther(users, value, me.id) then Some(Taken) else None
  }

  /** The email of a partial update: the field checks and uniqueness. */
  function ProfileEmailError(cfg: Config, users: map<string, User>, me: User, value: string): (e: Option<FieldError>)
    ensures e.None? <==> CharFieldError(value, cfg.maxLenEmail).None? && !EmailTakenByOther(users, value, me.id)
  {
    match CharFieldError(value, cfg.maxLenEmail)
    case Some(err) => Some(err)
    case None => if EmailTakenByOther(users, value, me.id) then Some(Taken) else None
  }

  /** A name column: blank allowed, at most MaxLenName characters. */
  function NameError(value: string): (e: Option<FieldError>)
    ensures e.None? <==> |value| <= MaxLenName
  {
    if |value| > MaxLenName then Some(TooLong(MaxLenName)) else None
  }

  /** The error of an optional field of a partial update: an absent field is not checked. */
  function Partial(value: Option<string>, check: string -> Option<FieldError>): Option<FieldError>
  {
    match value
    case None => None
    case Some(v) => check(v)
  }

  /** UserProfileSerializer(user, data, partial=True).is_valid. */
  function ValidateProfile(cfg: Config, users: map<string, User>, me: User, patch: ProfilePatch): (errors: FieldErrors)
    ensures errors.Keys <= {UsernameField, EmailField, FirstNameField, LastNameField}
    ensures errors == map[] <==>
              && (patch.username.Some? ==> ProfileUsernameError(cfg, users, me, patch.username.value).None?)
              && (patch.email.Some? ==> ProfileEmailError(cfg, users, me, patch.email.value).None?)
              && (patch.firstName.Some? ==> |patch.firstName.value| <= MaxLenName)
              && (patch.lastName.Some? ==> |patch.lastName.value| <= MaxLenName)
    ensures patch.username == Some(Me) ==> UsernameField in errors
  {
    var e := Report(map[], UsernameField, Partial(patch.username, v => ProfileUsernameError(cfg, users, me, v)));
    var e := Report(e, EmailField, Partial(patch.email, v => ProfileEmailError(cfg, users, me, v)));
    var e := Report(e, FirstNameField, Partial(patch.firstName, NameError));
    Report(e, LastNameField, Partial(patch.lastName, NameError))
  }

  /** A review body. `author` is declared read-only, so whatever it holds is dropped. */
  datatype ReviewData = ReviewData(text: string, score: int, author: Option<nat>)

  /** A comment body, with the same read-only author. */
  datatype CommentData = CommentData(text: string, author: Option<nat>)

  /** ReviewSerializer's field checks: a non-blank text and a score from 1 to 10. */
  function ReviewFieldErrors(data: ReviewData): (errors: FieldErrors)
    ensures errors == map[] <==> data.text != "" && ValidScore(data.score)
    ensures ScoreField in errors <==> data.score < MinScore || data.score > MaxScore
  {
    var e := Report(map[], TextField, if data.text == "" then Some(Blank) else None);
    Report(e, ScoreField, if ValidScore(data.score) then None else Some(OutOfRange))
  }

  /** CommentSerializer's field check: a non-blank text. */
  function CommentFieldErrors(data: CommentData): (errors: FieldErrors)
    ensures errors == map[] <==> data.text != ""
  {
    Report(map[], TextField, if data.text == "" then Some(Blank) else None)
  }

  datatype ReviewRejection =
    | TitleNotFound    // get_object_or_404 on the URL's title
    | AlreadyReviewed  // UNIQUE_REVIEW_MSG

  /**
   * ReviewSerializer.validate: on POST, the URL's title must exist and the
   * requester must not have reviewed it yet; other methods pass unchecked.
   */
  function ValidateReview(m: Method, c: Catalog, titleId: nat, requester: User, data: ReviewData)
    : (r: Result<ReviewData, ReviewRejection>)
    ensures r.Ok? ==> r.value == data
    ensures m != POST ==> r == Ok(data)
    ensures m == POST && titleId !in c.titles ==> r == Err(TitleNotFound)
    ensures m == POST && titleId in c.titles ==>
              (r == Err(AlreadyReviewed) <==> HasReview(c.reviews, titleId, requester.id))
    ensures m == POST && r.Ok? ==> titleId in c.titles && !HasReview(c.reviews, titleId, requester.id)
  {
    if m != POST then Ok(data)
    else if titleId !in c.titles then Err(TitleNotFound)
    else if HasReview(c.reviews, titleId, requester.id) then Err(AlreadyReviewed)
    else Ok(data)
  }
}
