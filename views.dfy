/**
 * The API views: the permission classes each viewset combines, the
 * sign-up / token exchange over the user store (the only state the core
 * changes step by step), the /users/me/ profile update, and the review and
 * comment handlers.
 */
module Views {
  import opened Wrappers
  import opened Validators
  import opened Settings
  import opened Models
  import opened Permissions
  import opened Serializers

  // ---------------------------------------------------------------------
  // permission_classes of the viewsets

  /** What a request addresses: a list/create route, or one existing object and its author. */
  datatype Target = Collection | Item(author: nat)

  /**
   * Categories, genres and titles: `(IsAdmin | IsReadOnly,)`. Neither class
   * has an object-level rule, so the target never matters.
   */
  function CatalogAccess(m: Method, p: Principal, t: Target): (granted: bool)
    ensures granted <==> m in SafeMethods || (p.Authenticated? && p.user.IsAdmin())
    ensures p.Anonymous? ==> (granted <==> m in SafeMethods)
  {
    IsAdmin(m, p) || IsReadOnly(m, p)
  }

  /**
   * Reviews and comments: `(IsAdminOrModeratorOrAuthorOrReadOnly,
   * IsAuthenticatedOrReadOnly)`. Every request passes each class's
   * has_permission (the first class keeps the default, which grants); a
   * request for an object also passes each class's has_object_permission
   * (the second class keeps the default).
   */
  function OpinionAccess(m: Method, p: Principal, t: Target): (granted: bool)
    ensures t.Collection? ==> (granted <==> m in SafeMethods || p.Authenticated?)
    ensures t.Item? ==> (granted <==> IsAdminOrModeratorOrAuthorOrReadOnly(m, p, t.author))
    ensures p.Anonymous? ==> (granted <==> m in SafeMethods)
  {
    && IsAuthenticatedOrReadOnly(m, p)
    && match t
       case Collection => true
       case Item(author) => IsAdminOrModeratorOrAuthorOrReadOnly(m, p, author)
  }

  /** The users viewset: `(IsAdmin,)`. */
  function UsersAccess(m: Method, p: Principal): (granted: bool)
    ensures granted ==> p.Authenticated?
    ensures granted <==> p.Authenticated? && p.user.IsAdmin()
  {
    IsAdmin(m, p)
  }

  /**
   * The `me` action: `(IsAuthenticated,)`. The route serves GET and PATCH,
   * with HEAD and OPTIONS added by the framework; the permission is the same
   * for every method.
   */
  function MeAccess(m: Method, p: Principal): (granted: bool)
    ensures granted <==> p.Authenticated?
  {
    IsAuthenticated(m, p)
  }

  /** Whoever may write the catalog may change any review or comment. */
  lemma CatalogWritersModerateOpinions(m: Method, p: Principal, author: nat)
    requires CatalogAccess(m, p, Collection)
    ensures OpinionAccess(m, p, Item(author))
  {
  }

  /** A plain user may change exactly the reviews and comments they wrote. */
  lemma PlainUsersChangeOwnOpinionsOnly(m: Method, u: User, author: nat)
    requires m !in SafeMethods && u.role == UserRole && !u.isStaff
    ensures OpinionAccess(m, Authenticated(u), Item(author)) <==> u.id == author
  {
  }

  // ---------------------------------------------------------------------
  // Confirmation codes and access tokens

  /** The value a consumed code is overwritten with. */
  const Sentinel: string := " "

  /** What get_random_string(length=MAX_LEN_CODE, allowed_chars='0123456789') returns. */
  predicate IsDigitCode(s: string, length: nat)
  {
    |s| == length && forall i :: 0 <= i < |s| ==> '0' <= s[i] <= '9'
  }

  function Zeros(length: nat): (s: string)
    ensures IsDigitCode(s, length)
  {
    seq(length, _ => '0')
  }

  /** The lifecycle of a user's confirmation code. */
  datatype CodeState = NeverIssued | Pending(code: string) | Consumed

  function CodeStateOf(code: Option<string>): CodeState
  {
    match code
    case None => NeverIssued
    case Some(c) => if c == Sentinel then Consumed else Pending(c)
  }

  /** The only values a stored code takes: none yet, a digit code, or the sentinel. */
  predicate CodeWellFormed(config: Config, code: Option<string>)
  {
    code.None? || code == Some(Sentinel) || IsDigitCode(code.value, config.maxLenCode)
  }

  /** A digit code is never the sentinel, so issuing one always leaves the code pending. */
  lemma DigitCodeIsPending(code: string, length: nat)
    requires IsDigitCode(code, length)
    ensures code != Sentinel
    ensures CodeStateOf(Some(code)) == Pending(code)
  {
    if |code| == 1 {
      assert code[0] != Sentinel[0];
    }
  }

  /** An access token, minted for one user (AccessToken.for_user). */
  datatype AccessToken = AccessToken(userId: nat)

  function MintToken(u: User): AccessToken
  {
    AccessToken(u.id)
  }

  // ---------------------------------------------------------------------
  // The user store and the steps of the sign-up / token flow

  /** The constraints of the user table plus the auto-increment counter and the code values. */
  ghost predicate StoreValid(config: Config, users: map<string, User>, nextId: nat)
  {
    && UsersUnique(users)
    && (forall name :: name in users ==> users[name].id < nextId)
    && (forall name :: name in users ==> CodeWellFormed(config, users[name].confirmationCode))
  }

  /** The store after one request, with the response. */
  datatype Step<R> = Step(response: R, users: map<string, User>, nextId: nat)

  datatype SignUpResponse =
    | SignedUp(username: string, email: string)         // 200, the echoed data
    | SignUpRejected(errors: FieldErrors)               // 400, serializer errors
    | SignUpConflict(username: string, email: string)   // 400, UNIQUE_USERNAME_EMAIL_MSG

  predicate EmailInUse(users: map<string, User>, email: string)
  {
    exists name :: name in users && users[name].email == email
  }

  /**
   * signup, with `code` the value get_random_string returned: validate the
   * body, get_or_create the user by (username, email) (a create that breaks
   * a unique constraint is the conflict), then store the new code.
   */
  function SignUpOutcome(config: Config, users: map<string, User>, nextId: nat,
                         username: string, email: string, code: string): Step<SignUpResponse>
  {
    var errors := ValidateSignUp(config, username, email);
    if errors != map[] then Step(SignUpRejected(errors), users, nextId)
    else if username in users && users[username].email == email then
      Step(SignedUp(username, email),
           users[username := users[username].(confirmationCode := Some(code))], nextId)
    else if username in users || EmailInUse(users, email) then
      Step(SignUpConflict(username, email), users, nextId)
    else
      Step(SignedUp(username, email),
           users[username := NewUser(nextId, username, email).(confirmationCode := Some(code))],
           nextId + 1)
  }

  datatype TokenResponse =
    | TokenIssued(token: AccessToken)       // 200
    | TokenRejected(errors: FieldErrors)    // 400, serializer errors
    | UserNotFound                          // 404
    | CodeMismatch                          // 400

  /**
   * token: validate the body, look the user up, compare the codes; the
   * stored code is overwritten with the sentinel whether or not it matched.
   */
  function TokenOutcome(config: Config, users: map<string, User>, nextId: nat,
                        username: string, code: string): Step<TokenResponse>
  {
    var errors := ValidateToken(config, username, code);
    if errors != map[] then Step(TokenRejected(errors), users, nextId)
    else if username !in users then Step(UserNotFound, users, nextId)
    else
      var user := users[username];
      var consumed := users[username := user.(confirmationCode := Some(Sentinel))];
      if code != Sentinel && Some(code) == user.confirmationCode then
        Step(TokenIssued(MintToken(user)), consumed, nextId)
      else
        Step(CodeMismatch, consumed, nextId)
  }

  datatype ProfileResponse =
    | ProfileUpdated(user: User)           // 200
    | ProfileRejected(errors: FieldErrors) // 400

  function Or(value: Option<string>, otherwise: string): string
  {
    match value
    case None => otherwise
    case Some(v) => v
  }

  /** The serializer's update: each supplied writable field is set, the role is not. */
  function Patched(u: User, patch: ProfilePatch): (r: User)
    ensures r.id == u.id && r.role == u.role && r.isStaff == u.isStaff
    ensures r.confirmationCode == u.confirmationCode
    ensures r.username == (if patch.username.Some? then patch.username.value else u.username)
    ensures r.email == (if patch.email.Some? then patch.email.value else u.email)
    ensures r.firstName == (if patch.firstName.Some? then patch.firstName.value else u.firstName)
    ensures r.lastName == (if patch.lastName.Some? then patch.lastName.value else u.lastName)
    ensures r.bio == (if patch.bio.Some? then patch.bio.value else u.bio)
  {
    u.(username := Or(patch.username, u.username),
       email := Or(patch.email, u.email),
       firstName := Or(patch.firstName, u.firstName),
       lastName := Or(patch.lastName, u.lastName),
       bio := Or(patch.bio, u.bio))
  }

  /** PATCH /users/me/ for the user stored under `me`. */
  function ProfileOutcome(config: Config, users: map<string, User>, nextId: nat,
                          me: string, patch: ProfilePatch): Step<ProfileResponse>
    requires me in users
  {
    var errors := ValidateProfile(config, users, users[me], patch);
    if errors != map[] then Step(ProfileRejected(errors), users, nextId)
    else
      var updated := Patched(users[me], patch);
      Step(ProfileUpdated(updated), (users - {me})[updated.username := updated], nextId)
  }

  // ---------------------------------------------------------------------
  // Properties of the flow

  /** A sign-up that succeeds leaves the user with the freshly drawn digit code pending. */
  lemma SignUpIssuesDigitCode(config: Config, users: map<string, User>, nextId: nat,
                              username: string, email: string, code: string)
    requires IsDigitCode(code, config.maxLenCode)
    requires SignUpOutcome(config, users, nextId, username, email, code).response.SignedUp?
    ensures var s := SignUpOutcome(config, users, nextId, username, email, code);
            && username in s.users
            && s.users[username].confirmationCode == Some(code)
            && |code| == config.maxLenCode
            && CodeStateOf(s.users[username].confirmationCode) == Pending(code)
  {
    DigitCodeIsPending(code, config.maxLenCode);
  }

  /**
   * A valid body that is not an existing (username, email) pair but shares
   * the username or the email of some user is a conflict, and a conflict or
   * an invalid body changes no user.
   */
  lemma SignUpConflictChangesNothing(config: Config, users: map<string, User>, nextId: nat,
                                     username: string, email: string, code: string)
    ensures var s := SignUpOutcome(config, users, nextId, username, email, code);
            && (s.response.SignUpConflict? <==>
                  && ValidateSignUp(config, username, email) == map[]
                  && !(username in users && users[username].email == email)
                  && (username in users || EmailInUse(users, email)))
            && (!s.response.SignedUp? ==> s.users == users && s.nextId == nextId)
  {
  }

  /** Signing up again with an existing pair fetches the same user and only replaces its code. */
  lemma SignUpAgainReplacesCode(config: Config, users: map<string, User>, nextId: nat,
                                username: string, email: string, code: string)
    requires ValidateSignUp(config, username, email) == map[]
    requires username in users && users[username].email == email
    ensures var s := SignUpOutcome(config, users, nextId, username, email, code);
            && s.response == SignedUp(username, email)
            && s.nextId == nextId
            && s.users == users[username := users[username].(confirmationCode := Some(code))]
  {
  }

  /** A first sign-up creates a plain user with the next primary key. */
  lemma SignUpCreatesPlainUser(config: Config, users: map<string, User>, nextId: nat,
                               username: string, email: string, code: string)
    requires ValidateSignUp(config, username, email) == map[]
    requires username !in users && !EmailInUse(users, email)
    ensures var s := SignUpOutcome(config, users, nextId, username, email, code);
            && s.response == SignedUp(username, email)
            && s.users.Keys == users.Keys + {username}
            && s.users[username].id == nextId && s.nextId == nextId + 1
            && s.users[username].role == DefaultRole && !s.users[username].IsAdmin()
  {
  }

  /** "me" can neither sign up nor exchange a code. */
  lemma MeIsRejected(config: Config, users: map<string, User>, nextId: nat, email: string, code: string)
    ensures SignUpOutcome(config, users, nextId, Me, email, code).response.SignUpRejected?
    ensures TokenOutcome(config, users, nextId, Me, code).response.TokenRejected?
  {
  }

  /** Storing a well-formed code for an existing user keeps the store valid. */
  lemma StoreCodePreservesStore(config: Config, users: map<string, User>, nextId: nat,
                                name: string, code: Option<string>)
    requires StoreValid(config, users, nextId) && name in users && CodeWellFormed(config, code)
    ensures StoreValid(config, users[name := users[name].(confirmationCode := code)], nextId)
  {
    var after := users[name := users[name].(confirmationCode := code)];
    assert forall other :: other in after ==>
             other in users && after[other].id == users[other].id && after[other].email == users[other].email;
  }

  /** Adding a user under a new username, with an unused email and the next key, keeps the store valid. */
  lemma AddUserPreservesStore(config: Config, users: map<string, User>, nextId: nat, user: User)
    requires StoreValid(config, users, nextId)
    requires user.username !in users && !EmailInUse(users, user.email) && user.id == nextId
    requires CodeWellFormed(config, user.confirmationCode)
    ensures StoreValid(config, users[user.username := user], nextId + 1)
  {
    assert forall name :: name in users ==> users[name].email != user.email;
  }

  lemma SignUpPreservesStore(config: Config, users: map<string, User>, nextId: nat,
                             username: string, email: string, code: string)
    requires StoreValid(config, users, nextId) && IsDigitCode(code, config.maxLenCode)
    ensures var s := SignUpOutcome(config, users, nextId, username, email, code);
            StoreValid(config, s.users, s.nextId)
  {
    if ValidateSignUp(config, username, email) == map[] {
      if username in users && users[username].email == email {
        StoreCodePreservesStore(config, users, nextId, username, Some(code));
      } else if !(username in users || EmailInUse(users, email)) {
        AddUserPreservesStore(config, users, nextId, NewUser(nextId, username, email).(confirmationCode := Some(code)));
      }
    }
  }

  /** A token is issued exactly for a valid body whose code is not the sentinel and equals the stored one. */
  lemma TokenSucceedsIff(config: Config, users: map<string, User>, nextId: nat,
                         username: string, code: string)
    ensures TokenOutcome(config, users, nextId, username, code).response.TokenIssued? <==>
              && ValidateToken(config, username, code) == map[]
              && username in users
              && code != Sentinel
              && users[username].confirmationCode == Some(code)
    ensures TokenOutcome(config, users, nextId, username, code).response.TokenIssued? ==>
              TokenOutcome(config, users, nextId, username, code).response.token == MintToken(users[username])
  {
  }

  /** Matched or not, an exchange for an existing user consumes the code and touches nothing else. */
  lemma TokenAlwaysConsumes(config: Config, users: map<string, User>, nextId: nat,
                            username: string, code: string)
    requires ValidateToken(config, username, code) == map[] && username in users
    ensures var s := TokenOutcome(config, users, nextId, username, code);
            && s.users.Keys == users.Keys
            && s.users[username] == users[username].(confirmationCode := Some(Sentinel))
            && CodeStateOf(s.users[username].confirmationCode) == Consumed
            && (forall other :: other in users && other != username ==> s.users[other] == users[other])
            && s.nextId == nextId
  {
  }

  /** An unknown username is NotFound and changes nothing; so is an invalid body rejected without change. */
  lemma TokenUnknownUserChangesNothing(config: Config, users: map<string, User>, nextId: nat,
                                       username: string, code: string)
    requires username !in users || ValidateToken(config, username, code) != map[]
    ensures var s := TokenOutcome(config, users, nextId, username, code);
            && s.users == users && s.nextId == nextId
            && (ValidateToken(config, username, code) == map[] ==> s.response == UserNotFound)
  {
  }

  /** The sentinel is never accepted, even when it is what is stored. */
  lemma SentinelNeverMatches(config: Config, users: map<string, User>, nextId: nat, username: string)
    ensures !TokenOutcome(config, users, nextId, username, Sentinel).response.TokenIssued?
  {
  }

  /**
   * Single use: once an exchange has reached the user, the next exchange for
   * that user fails whatever code it brings; in particular two exchanges in
   * a row with the same code never both succeed.
   */
  lemma TokenSingleUse(config: Config, users: map<string, User>, nextId: nat,
                       username: string, code: string, again: string)
    requires (ValidateToken(config, username, code) == map[] && username in users) || again == code
    ensures var first := TokenOutcome(config, users, nextId, username, code);
            var second := TokenOutcome(config, first.users, first.nextId, username, again);
            !second.response.TokenIssued?
  {
    var first := TokenOutcome(config, users, nextId, username, code);
    if ValidateToken(config, username, code) == map[] && username in users {
      assert first.users[username].confirmationCode == Some(Sentinel);
    }
  }

  lemma TokenPreservesStore(config: Config, users: map<string, User>, nextId: nat,
                            username: string, code: string)
    requires StoreValid(config, users, nextId)
    ensures var s := TokenOutcome(config, users, nextId, username, code);
            StoreValid(config, s.users, s.nextId)
  {
    if ValidateToken(config, username, code) == map[] && username in users {
      StoreCodePreservesStore(config, users, nextId, username, Some(Sentinel));
    }
  }

  /**
   * The exchange the sign-up is for: after a successful sign-up, the code
   * sent buys one token for that user, and the same code then fails.
   */
  lemma SignUpThenToken(config: Config, users: map<string, User>, nextId: nat,
                        username: string, email: string, code: string)
    requires config.maxLenCode > 0 && IsDigitCode(code, config.maxLenCode)
    requires SignUpOutcome(config, users, nextId, username, email, code).response.SignedUp?
    ensures var s := SignUpOutcome(config, users, nextId, username, email, code);
            var t1 := TokenOutcome(config, s.users, s.nextId, username, code);
            var t2 := TokenOutcome(config, t1.users, t1.nextId, username, code);
            && t1.response == TokenIssued(MintToken(s.users[username]))
            && t2.response == CodeMismatch
  {
    var s := SignUpOutcome(config, users, nextId, username, email, code);
    DigitCodeIsPending(code, config.maxLenCode);
    assert ValidateToken(config, username, code) == map[];
  }

  /** The profile update never changes anybody's role, staff flag or code, and ignores a supplied role. */
  lemma ProfileKeepsRole(config: Config, users: map<string, User>, nextId: nat,
                         me: string, patch: ProfilePatch, role: Option<string>)
    requires me in users
    ensures var s := ProfileOutcome(config, users, nextId, me, patch);
            && s == ProfileOutcome(config, users, nextId, me, patch.(role := role))
            && s.nextId == nextId
            && (s.response.ProfileUpdated? ==>
                  && s.response.user == Patched(users[me], patch)
                  && s.response.user.role == users[me].role
                  && s.response.user.isStaff == users[me].isStaff
                  && s.response.user.confirmationCode == users[me].confirmationCode
                  && s.response.user.id == users[me].id
                  && s.users.Keys == users.Keys - {me} + {s.response.user.username}
                  && s.users[s.response.user.username] == s.response.user
                  && forall name :: name in s.users && name != s.response.user.username ==>
                                      name in users && s.users[name] == users[name])
            && (s.response.ProfileRejected? ==> s.users == users)
  {
  }

  /** Replacing a user by an updated copy, filed under its possibly new username, keeps the store valid. */
  lemma ReplaceUserPreservesStore(config: Config, users: map<string, User>, nextId: nat,
                                  me: string, updated: User)
    requires StoreValid(config, users, nextId) && me in users
    requires updated.id == users[me].id && updated.confirmationCode == users[me].confirmationCode
    requires !UsernameTakenByOther(users, updated.username, updated.id)
    requires !EmailTakenByOther(users, updated.email, updated.id)
    ensures StoreValid(config, (users - {me})[updated.username := updated], nextId)
  {
    var after := (users - {me})[updated.username := updated];
    forall name | name in after && name != updated.username
      ensures name in users && name != me && after[name] == users[name]
    {
    }
  }

  lemma ProfilePreservesStore(config: Config, users: map<string, User>, nextId: nat,
                              me: string, patch: ProfilePatch)
    requires StoreValid(config, users, nextId) && me in users
    ensures var s := ProfileOutcome(config, users, nextId, me, patch);
            StoreValid(config, s.users, s.nextId)
  {
    var u := users[me];
    if ValidateProfile(config, users, u, patch) == map[] {
      var updated := Patched(u, patch);
      assert !UsernameTakenByOther(users, updated.username, u.id) by {
        if patch.username.Some? {
          assert ProfileUsernameError(config, users, u, patch.username.value).None?;
        }
      }
      assert !EmailTakenByOther(users, updated.email, u.id) by {
        if patch.email.Some? {
          assert ProfileEmailError(config, users, u, patch.email.value).None?;
        }
      }
      ReplaceUserPreservesStore(config, users, nextId, me, updated);
    }
  }

  /** The user store: username -> user, as the sign-up, token and profile views change it. */
  class Store {
    const config: Config
    var users: map<string, User>
    var nextId: nat

    ghost predicate Valid()
      reads this
    {
      StoreValid(config, users, nextId)
    }

    constructor (config: Config)
      ensures Valid()
      ensures this.config == config && users == map[] && nextId == 1
    {
      this.config := config;
      users := map[];
      nextId := 1;
    }

    /** POST /auth/signup/. `code` is the random code drawn, which is mailed to the user. */
    method SignUp(username: string, email: string) returns (response: SignUpResponse, ghost code: string)
      requires Valid()
      modifies this
      ensures Valid()
      ensures IsDigitCode(code, config.maxLenCode)
      ensures Step(response, users, nextId) == SignUpOutcome(config, old(users), old(nextId), username, email, code)
    {
      code := Zeros(config.maxLenCode);
      var errors := ValidateSignUp(config, username, email);
      if errors != map[] {
        response := SignUpRejected(errors);
        return;
      }
      var user: User;
      if username in users && users[username].email == email {
        user := users[username];
      } else if username in users || EmailInUse(users, email) {
        response := SignUpConflict(username, email);
        return;
      } else {
        user := NewUser(nextId, username, email);
        users := users[username := user];
        nextId := nextId + 1;
      }
      var drawn: string :| IsDigitCode(drawn, config.maxLenCode);
      user := user.(confirmationCode := Some(drawn));
      users := users[username := user];
      code := drawn;
      response := SignedUp(username, email);
      assert users == old(users)[username := user];
      SignUpPreservesStore(config, old(users), old(nextId), username, email, code);
    }

    /** POST /auth/token/. */
    method Token(username: string, code: string) returns (response: TokenResponse)
      requires Valid()
      modifies this
      ensures Valid()
      ensures Step(response, users, nextId) == TokenOutcome(config, old(users), old(nextId), username, code)
    {
      var errors := ValidateToken(config, username, code);
      if errors != map[] {
        response := TokenRejected(errors);
        return;
      }
      if username !in users {
        response := UserNotFound;
        return;
      }
      var user := users[username];
      if code != Sentinel && Some(code) == user.confirmationCode {
        var token := MintToken(user);
        user := user.(confirmationCode := Some(Sentinel));
        users := users[username := user];
        response := TokenIssued(token);
      } else {
        user := user.(confirmationCode := Some(Sentinel));
        users := users[username := user];
        response := CodeMismatch;
      }
      TokenPreservesStore(config, old(users), old(nextId), username, code);
    }

    /** PATCH /users/me/ by the authenticated user stored under `me`. */
    method UpdateProfile(me: string, patch: ProfilePatch) returns (response: ProfileResponse)
      requires Valid() && me in users
      modifies this
      ensures Valid()
      ensures Step(response, users, nextId) == ProfileOutcome(config, old(users), old(nextId), me, patch)
    {
      var user := users[me];
      var errors := ValidateProfile(config, users, user, patch);
      if errors != map[] {
        response := ProfileRejected(errors);
        return;
      }
      if patch.username.Some? { user := user.(username := patch.username.value); }
      if patch.email.Some? { user := user.(email := patch.email.value); }
      if patch.firstName.Some? { user := user.(firstName := patch.firstName.value); }
      if patch.lastName.Some? { user := user.(lastName := patch.lastName.value); }
      if patch.bio.Some? { user := user.(bio := patch.bio.value); }
      assert user == Patched(users[me], patch);
      users := (users - {me})[user.username := user];
      response := ProfileUpdated(user);
      ProfilePreservesStore(config, old(users), old(nextId), me, patch);
    }
  }
  // ---------------------------------------------------------------------
  // Reviews and comments, over a snapshot of the database

  function ReviewDate(r: Review): int { r.pubDate }

  function CommentDate(c: Comment): int { c.pubDate }

  /** `title.reviews.all()`: the reviews of one title. */
  function ReviewsOf(reviews: seq<Review>, titleId: nat): (r: seq<Review>)
    ensures forall x :: x in r <==> x in reviews && x.title == titleId
  {
    if reviews == [] then []
    else (if reviews[0].title == titleId then [reviews[0]] else []) + ReviewsOf(reviews[1..], titleId)
  }

  /** `review.comments.all()`: the comments of one review. */
  function CommentsOf(comments: seq<Comment>, reviewId: nat): (r: seq<Comment>)
    ensures forall x :: x in r <==> x in comments && x.review == reviewId
  {
    if comments == [] then []
    else (if comments[0].review == reviewId then [comments[0]] else []) + CommentsOf(comments[1..], reviewId)
  }

  /** What a create request answers. */
  datatype CreateResponse<T> =
    | Created(item: T)                 // 201
    | BadRequest(errors: FieldErrors)  // 400, field errors
    | UniqueReviewViolation            // 400, UNIQUE_REVIEW_MSG
    | NotFound                         // 404

  /** ReviewViewSet.get_queryset: the title's reviews, newest first; 404 for an unknown title. */
  function ListReviews(c: Catalog, titleId: nat): (r: Option<seq<Review>>)
    ensures r.None? <==> titleId !in c.titles
    ensures r.Some? ==> NewestFirst(r.value, ReviewDate)
    ensures r.Some? ==> multiset(r.value) == multiset(ReviewsOf(c.reviews, titleId))
    ensures r.Some? ==> forall x :: x in r.value <==> x in c.reviews && x.title == titleId
  {
    if titleId !in c.titles then None
    else
      var listed := OrderNewestFirst(ReviewsOf(c.reviews, titleId), ReviewDate);
      assert forall x :: x in listed <==> x in multiset(ReviewsOf(c.reviews, titleId));
      Some(listed)
  }

  /**
   * POST /titles/{title_id}/reviews/ by an authenticated requester: the
   * field checks, ReviewSerializer.validate, then perform_create with the
   * requester as author and the URL's title, stamped with `now`.
   */
  function CreateReview(c: Catalog, titleId: nat, requester: User, data: ReviewData, now: int)
    : (s: (CreateResponse<Review>, Catalog))
    ensures s.0.Created? <==>
              ReviewFieldErrors(data) == map[] && titleId in c.titles
              && !HasReview(c.reviews, titleId, requester.id)
    ensures s.0 == NotFound <==> ReviewFieldErrors(data) == map[] && titleId !in c.titles
    ensures s.0 == UniqueReviewViolation <==>
              ReviewFieldErrors(data) == map[] && titleId in c.titles
              && HasReview(c.reviews, titleId, requester.id)
    ensures s.0.Created? ==>
              && s.0.item.author == requester.id && s.0.item.title == titleId
              && s.0.item.text == data.text && s.0.item.score == data.score && s.0.item.pubDate == now
              && s.1 == c.(reviews := c.reviews + [s.0.item])
    ensures !s.0.Created? ==> s.1 == c
    ensures CatalogValid(c) ==> CatalogValid(s.1)
  {
    var errors := ReviewFieldErrors(data);
    if errors != map[] then (BadRequest(errors), c)
    else
      match ValidateReview(POST, c, titleId, requester, data)
      case Err(TitleNotFound) => (NotFound, c)
      case Err(AlreadyReviewed) => (UniqueReviewViolation, c)
      case Ok(valid) =>
        var review := Review(NextId(c.reviews, (x: Review) => x.id), titleId, requester.id, valid.text, valid.score, now);
        (Created(review), c.(reviews := c.reviews + [review]))
  }

  /** For every (title, author) pair the first review is created and a second one is refused. */
  lemma SecondReviewRefused(c: Catalog, titleId: nat, requester: User,
                            data: ReviewData, again: ReviewData, now: int, later: int)
    requires CreateReview(c, titleId, requester, data, now).0.Created?
    requires ReviewFieldErrors(again) == map[]
    ensures var after := CreateReview(c, titleId, requester, data, now).1;
            CreateReview(after, titleId, requester, again, later).0 == UniqueReviewViolation
  {
    var (response, after) := CreateReview(c, titleId, requester, data, now);
    assert after.reviews[|c.reviews|] == response.item;
  }

  /** A created review is listed under its title. */
  lemma CreatedReviewIsListed(c: Catalog, titleId: nat, requester: User, data: ReviewData, now: int)
    requires CreateReview(c, titleId, requester, data, now).0.Created?
    ensures var (response, after) := CreateReview(c, titleId, requester, data, now);
            ListReviews(after, titleId).Some? && response.item in ListReviews(after, titleId).value
  {
    var (response, after) := CreateReview(c, titleId, requester, data, now);
    assert response.item in after.reviews by {
      assert after.reviews[|c.reviews|] == response.item;
    }
  }

  /** The first review satisfying `matches`. */
  function FindReview(reviews: seq<Review>, matches: Review -> bool): (r: Option<Review>)
    ensures r.Some? ==> exists i :: 0 <= i < |reviews| && reviews[i] == r.value && matches(r.value)
                                    && forall j :: 0 <= j < i ==> !matches(reviews[j])
    ensures r.Some? ==> r.value in reviews
    ensures r.None? ==> forall x :: x in reviews ==> !matches(x)
  {
    if reviews == [] then None
    else if matches(reviews[0]) then Some(reviews[0])
    else
      var r := FindReview(reviews[1..], matches);
      if r.Some? then
        var i :| 0 <= i < |reviews[1..]| && reviews[1..][i] == r.value && matches(r.value)
                 && forall j :: 0 <= j < i ==> !matches(reviews[1..][j]);
        assert reviews[i + 1] == r.value;
        assert forall j :: 0 <= j < i + 1 ==> !matches(reviews[j]) by {
          forall j | 0 <= j < i + 1 ensures !matches(reviews[j]) {
            if j > 0 { assert reviews[j] == reviews[1..][j - 1]; }
          }
        }
        r
      else r
  }

  /**
   * CommentViewSet.get_review as written: the review is looked up by its id
   * alone, and the title in the URL is not consulted.
   */
  function GetReviewAsWritten(c: Catalog, titleId: nat, reviewId: nat): (r: Option<Review>)
    ensures r.Some? ==> r.value in c.reviews && r.value.id == reviewId
    ensures r.None? <==> forall x :: x in c.reviews ==> x.id != reviewId
  {
    FindReview(c.reviews, (x: Review) => x.id == reviewId)
  }

  /** Under a title that does not exist, the as-written lookup still finds another title's review. */
  lemma GetReviewIgnoresTitle()
    ensures var c := Catalog({3}, [Review(5, 3, 1, "fine", 7, 0)], []);
            && 7 !in c.titles
            && GetReviewAsWritten(c, 7, 5) == Some(c.reviews[0])
            && c.reviews[0].title != 7
  {
    var c := Catalog({3}, [Review(5, 3, 1, "fine", 7, 0)], []);
    assert c.reviews[1..] == [];
  }

  /** The review lookup resolved through the whole parent chain: the title, then its review. */
  function GetReviewInTitle(c: Catalog, titleId: nat, reviewId: nat): (r: Option<Review>)
    ensures r.Some? ==> titleId in c.titles && r.value in c.reviews
                        && r.value.id == reviewId && r.value.title == titleId
    ensures r.None? <==>
              titleId !in c.titles || forall x :: x in c.reviews && x.id == reviewId ==> x.title != titleId
  {
    if titleId !in c.titles then None
    else FindReview(c.reviews, (x: Review) => x.id == reviewId && x.title == titleId)
  }

  /**
   * How the comment handlers resolve the review in their URL: by its id
   * alone, as the code does, or through its title, as the route means.
   */
  datatype ReviewLookup = ById | InTitle

  function GetReview(lookup: ReviewLookup, c: Catalog, titleId: nat, reviewId: nat): Option<Review>
  {
    match lookup
    case ById => GetReviewAsWritten(c, titleId, reviewId)
    case InTitle => GetReviewInTitle(c, titleId, reviewId)
  }

  /** GET /titles/{title_id}/reviews/{review_id}/comments/: the review's comments, newest first. */
  function ListComments(lookup: ReviewLookup, c: Catalog, titleId: nat, reviewId: nat): (r: Option<seq<Comment>>)
    ensures r.None? <==> GetReview(lookup, c, titleId, reviewId).None?
    ensures r.Some? ==> NewestFirst(r.value, CommentDate)
    ensures r.Some? ==> multiset(r.value) == multiset(CommentsOf(c.comments, reviewId))
  {
    match GetReview(lookup, c, titleId, reviewId)
    case None => None
    case Some(_) => Some(OrderNewestFirst(CommentsOf(c.comments, reviewId), CommentDate))
  }

  /**
   * POST /titles/{title_id}/reviews/{review_id}/comments/ by an
   * authenticated requester: the field check, then perform_create with the
   * requester as author and the review the URL resolves to.
   */
  function CreateComment(lookup: ReviewLookup, c: Catalog, titleId: nat, reviewId: nat,
                         requester: User, data: CommentData, now: int)
    : (s: (CreateResponse<Comment>, Catalog))
    ensures s.0.Created? <==> data.text != "" && GetReview(lookup, c, titleId, reviewId).Some?
    ensures s.0 == NotFound <==> data.text != "" && GetReview(lookup, c, titleId, reviewId).None?
    ensures s.0.Created? ==>
              && s.0.item.author == requester.id && s.0.item.review == reviewId
              && s.0.item.text == data.text && s.0.item.pubDate == now
              && s.1 == c.(comments := c.comments + [s.0.item])
    ensures !s.0.Created? ==> s.1 == c
    ensures CatalogValid(c) ==> CatalogValid(s.1)
  {
    var errors := CommentFieldErrors(data);
    if errors != map[] then (BadRequest(errors), c)
    else
      match GetReview(lookup, c, titleId, reviewId)
      case None => (NotFound, c)
      case Some(review) =>
        var comment := Comment(NextId(c.comments, (x: Comment) => x.id), review.id, requester.id, data.text, now);
        (Created(comment), c.(comments := c.comments + [comment]))
  }

  /**
   * Under a title that does not exist, the handlers as written list and
   * accept comments on another title's review; resolved through the title,
   * both answer NotFound.
   */
  lemma CommentsUnderMissingTitle(requester: User)
    ensures var c := Catalog({3}, [Review(5, 3, 1, "fine", 7, 0)], [Comment(9, 5, 2, "agreed", 1)]);
            && 7 !in c.titles
            && ListComments(ById, c, 7, 5) == Some(c.comments)
            && ListComments(InTitle, c, 7, 5) == None
            && CreateComment(ById, c, 7, 5, requester, CommentData("me too", None), 2).0.Created?
            && CreateComment(InTitle, c, 7, 5, requester, CommentData("me too", None), 2).0 == NotFound
  {
    var c := Catalog({3}, [Review(5, 3, 1, "fine", 7, 0)], [Comment(9, 5, 2, "agreed", 1)]);
    GetReviewIgnoresTitle();
    var listed := ListComments(ById, c, 7, 5);
    assert CommentsOf(c.comments, 5) == c.comments;
    assert multiset(listed.value) == multiset(c.comments);
    assert |listed.value| == 1 by {
      assert |multiset(listed.value)| == |listed.value|;
    }
    assert listed.value[0] in multiset(c.comments);
    assert listed.value == [listed.value[0]] == c.comments;
  }
}
