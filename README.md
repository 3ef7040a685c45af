# Authorization and confirmation codes of the YaMDb review API

This project models the authorization layer of the YaMDb review platform in Dafny. YaMDb is a REST backend where users review titles (works), which are grouped into categories and genres, and comment on reviews. The model covers five parts:

- **Permission rules** (`Permissions`): `IsAdmin`, `IsReadOnly` and the object rule `IsAdminOrModeratorOrAuthorOrReadOnly`. Each is a function of the HTTP method, the principal (anonymous, or an authenticated user) and the object's author. The `Views` module holds the combinations each viewset declares.
- **Validators** (`Validators`): the username rule and the release-year rule. The current year is a parameter.
- **Records and their constraints** (`Models`): the role enum and the derived `is_admin` / `is_moderator` properties, the width of the role column, the default role, score bounds, uniqueness of usernames, emails and (title, author) reviews, and newest-first ordering.
- **Sign-up and token exchange** (`Views.Store`): a class whose `users` field is a map from username to user. `SignUp`, `Token` and `UpdateProfile` change that map step by step, as the view functions do. Each method is proved equal to a specification function (`SignUpOutcome`, `TokenOutcome`, `ProfileOutcome`), and the lemmas about the flow are stated over those functions. The confirmation code goes through three states: never issued (`None`), pending (a digit string), and consumed (the one-space sentinel `" "`).
- **Serializers** (`Serializers`): the field checks of each request body, the username rule that three serializers share, the pre-flight check for one review per title and author, and the `/users/me/` serializer, which ignores `role`.

How the outside world is modelled:
- The settings `MAX_LEN_USERNAME`, `MAX_LEN_EMAIL`, `MAX_LEN_CODE` and `USERNAME_REGEX` are not part of this model. They form the `Settings.Config` parameter.
- `USERNAME_REGEX` is modelled as a character class `C` (the `allowed` predicate) repeated one or more times. It has one of two shapes: `C+` (`Bare`) or `^C+\Z` (`Full`). For each shape, `re.match` and `re.sub` have their Python meaning. The two shapes behave differently, and lemmas state both:
  - With `Bare`, `match` checks only the first character. The error then lists exactly the offending characters.
  - With `Full`, `sub` removes nothing from a value that fails the match. The error then lists every distinct character of the value.
- The random code from `get_random_string` is a nondeterministic choice (`:|`) of a digit string of length `MAX_LEN_CODE`.
- The token that `AccessToken.for_user` mints is modelled only as naming the user's primary key. The issue time and the unique `jti` identifier that make two real tokens for one user differ are not modelled.
- Review and comment handlers are pure functions over a snapshot of the database (`Models.Catalog`). The publication time is a parameter.

## Model

| member | source | states |
|---|---|---|
| Validators.ValidateUsername | api_yamdb/reviews/validators.py:17-26 | accepted iff the pattern matches and the value is not "me"; an accepted value comes back unchanged; the pattern is checked first, so a value failing it gets the character error, which carries the distinct characters (`CharSet`, the `set(...)` of line 21) of `re.sub`'s result; only a matching "me" gets the "me" error |
| Validators.Disallowed | api_yamdb/reviews/validators.py:21 | what remains after removing the matches of a bare pattern: exactly the characters outside the allowed class, never longer than the value, and the whole value when no character is allowed |
| Validators.DisallowedAppend | api_yamdb/reviews/validators.py:21 | removal works piece by piece: the leftover of `s + t` is the leftover of `s` followed by that of `t`, so the leftover characters keep their order |
| Validators.MeAlwaysRejected | api_yamdb/reviews/validators.py:24-25 | "me" is rejected under every pattern; it gets the "me" error exactly when the pattern admits "m" (and "e" when anchored) |
| Validators.ListedCharacters | api_yamdb/reviews/validators.py:18-23 | a failing value's error lists every offending character; bare pattern: exactly the offending ones; anchored pattern: all characters of the value |
| Validators.BarePatternChecksFirstCharacterOnly | api_yamdb/reviews/validators.py:18 | with a bare pattern any value whose first character is allowed (and that is not "me") passes, whatever follows |
| Validators.FullPatternAcceptsAllowedCharactersOnly | api_yamdb/reviews/validators.py:18 | with an anchored pattern a username passes iff it is non-empty, not "me", and made of allowed characters only |
| Validators.ValidateYear | api_yamdb/reviews/validators.py:29-33 | returns the value iff it is at most the current year; otherwise the error names the current year |
| Validators.AcceptedYearsDownClosed | api_yamdb/reviews/validators.py:31-33 | accepted years are closed downwards; the current year is accepted and the next one refused |
| Models.RoleFromName | api_yamdb/reviews/models.py:53-57 | the role choices: a name is a role iff it is one of "user", "moderator", "admin", and parses back to that role |
| Models.MaxNameLength | api_yamdb/reviews/models.py:72 | `max(len(...))` over the names: no name is longer and some name has that length |
| Models.RoleNames | api_yamdb/reviews/models.py:53-57 | the names of ROLES are exactly "user", "moderator", "admin", in that order |
| Models.RoleMaxLengthIsModerator | api_yamdb/reviews/models.py:72 | the role column's max_length is 9, the length of "moderator", and every role name fits |
| Models.NewUser | api_yamdb/reviews/models.py:71-80 | a user created from username and email has role `user` (the default), no staff flag, no code, and is neither admin nor moderator |
| Models.RoleClassification | api_yamdb/reviews/models.py:102-108 | `is_admin` iff role admin or staff; `is_moderator` iff role moderator; a staff moderator is both |
| Models.UsernameEmailPairsUnique | api_yamdb/reviews/models.py:86-91 | in a store with unique usernames and emails, (username, email) pairs are unique too |
| Models.NewerThanHead | api_yamdb/reviews/models.py:29 | nothing in a newest-first sequence is newer than an element at least as new as its head |
| Models.PrependNewest | api_yamdb/reviews/models.py:29 | an element at least as new as everything in a newest-first sequence can go in front of it |
| Models.Insert | api_yamdb/reviews/models.py:29 | inserting into a newest-first sequence keeps it newest-first and adds exactly that element |
| Models.InsertKeepsBound | api_yamdb/reviews/models.py:29 | inserting keeps "nothing newer than d" when the inserted element is not newer than d |
| Models.OrderNewestFirst | api_yamdb/reviews/models.py:28-29 | `ordering = ('-pub_date',)`: the result is newest first and a permutation of the rows |
| Models.NextId | api_yamdb/reviews/models.py:184-215 | the auto-increment key of a new review or comment is above every key in use |
| Permissions.IsAdmin | api_yamdb/api/permissions.py:4-6 | granted iff the principal is authenticated and has role admin or the staff flag; anonymous is always refused |
| Permissions.IsReadOnly | api_yamdb/api/permissions.py:21-23 | granted iff the method is GET, HEAD or OPTIONS |
| Permissions.IsAdminOrModeratorOrAuthorOrReadOnly | api_yamdb/api/permissions.py:9-18 | safe methods always granted; unsafe ones refused to anonymous, granted to admins and moderators whoever the author, granted to a plain user iff that user is the author |
| Permissions.IsAuthenticatedOrReadOnly | api_yamdb/api/views.py:162-165 | the framework rule used in the review and comment viewsets: authenticated always, anonymous only for safe methods |
| Permissions.IsAuthenticated | api_yamdb/api/views.py:116 | the framework rule on the `me` action: granted iff not anonymous |
| Permissions.RulesIgnoreIrrelevantInputs | api_yamdb/api/permissions.py:5-23 | `IsAdmin` does not depend on the method, `IsReadOnly` does not depend on the principal |
| Permissions.AdminPassesObjectRule | api_yamdb/api/permissions.py:5-16 | whenever `IsAdmin` holds, the object rule holds for every method and object |
| Permissions.ReadOnlyPassesObjectRule | api_yamdb/api/permissions.py:13-23 | whatever `IsReadOnly` grants, the object rule grants |
| Permissions.ObjectRuleImpliesAuthenticatedOrReadOnly | api_yamdb/api/permissions.py:12-17 | an unsafe method passes the object rule only for an authenticated principal |
| Serializers.CharFieldError | api_yamdb/api/serializers.py:35-36 | a CharField with max_length accepts exactly a non-blank value within the limit |
| Serializers.UsernameFieldError | api_yamdb/api/serializers.py:11-15 | the username field accepts exactly a non-blank value within MAX_LEN_USERNAME that `validate_username` accepts; "me" never passes |
| Serializers.ValidateSignUp | api_yamdb/api/serializers.py:32-36 | errors only on username and email; username in error iff its field check fails; email iff blank or too long; "me" is refused |
| Serializers.ValidateToken | api_yamdb/api/serializers.py:39-46 | errors only on username and code; the code is in error iff blank or longer than MAX_LEN_CODE; "me" is refused |
| Serializers.ProfileUsernameError | api_yamdb/reviews/models.py:59-63 | a new username passes iff its field checks pass and no other user has it |
| Serializers.ProfileEmailError | api_yamdb/reviews/models.py:64-67 | a new email passes iff it is non-blank, within MAX_LEN_EMAIL, and no other user has it |
| Serializers.NameError | api_yamdb/reviews/models.py:68-69 | first and last names pass iff at most 150 characters (blank allowed) |
| Serializers.ValidateProfile | api_yamdb/api/serializers.py:49-53 | a partial update is valid iff every supplied writable field passes; the role is never checked; "me" as new username is refused |
| Serializers.ReviewFieldErrors | api_yamdb/reviews/models.py:190-196 | a review body passes iff its text is non-blank and its score is in [1, 10] |
| Serializers.CommentFieldErrors | api_yamdb/api/serializers.py:141-149 | a comment body passes iff its text is non-blank |
| Serializers.ValidateReview | api_yamdb/api/serializers.py:128-138 | non-POST: the data unchanged, no check; POST: NotFound for an unknown title before anything else, then `UNIQUE_REVIEW_MSG` iff the requester already reviewed that title |
| Views.CatalogAccess | api_yamdb/api/views.py:48 | categories, genres and titles (also line 149): granted iff the method is safe or the principal is an authenticated admin, whatever the target |
| Views.OpinionAccess | api_yamdb/api/views.py:162-165 | reviews and comments (also lines 179-182): list/create: safe or authenticated; one object: exactly the object rule, because the second class adds nothing there |
| Views.UsersAccess | api_yamdb/api/views.py:110 | the users viewset is granted iff the principal is an authenticated admin |
| Views.MeAccess | api_yamdb/api/views.py:112-117 | `/users/me/` is granted iff the principal is authenticated, whatever the method (the route serves GET and PATCH, and the framework adds HEAD and OPTIONS) |
| Views.CatalogWritersModerateOpinions | api_yamdb/api/views.py:160-165 | whoever may write the catalog may change any review or comment |
| Views.PlainUsersChangeOwnOpinionsOnly | api_yamdb/api/views.py:179-182 | a plain user may change a review or comment iff they wrote it |
| Views.Zeros | api_yamdb/api/views.py:70-73 | a digit string of every length exists (the random choice always has a value) |
| Views.DigitCodeIsPending | api_yamdb/api/views.py:70-73 | a digit code is never the sentinel, so a code just issued is pending |
| Views.StoreCodePreservesStore | api_yamdb/api/views.py:74 | saving a well-formed code keeps every constraint of the store |
| Views.AddUserPreservesStore | api_yamdb/api/views.py:61-64 | creating a user under a free username and email with the next key keeps every constraint |
| Views.SignUpPreservesStore | api_yamdb/api/views.py:54-82 | sign-up keeps unique usernames, emails and keys, and well-formed codes |
| Views.SignUpIssuesDigitCode | api_yamdb/api/views.py:70-74 | after a successful sign-up the user's code is the drawn string of MAX_LEN_CODE digits, pending |
| Views.SignUpConflictChangesNothing | api_yamdb/api/views.py:60-69 | a conflict happens iff the body is valid, is not an existing pair, and shares the username or the email of some user; a conflict or an invalid body changes no user |
| Views.SignUpAgainReplacesCode | api_yamdb/api/views.py:61-74 | signing up again with an existing pair fetches that user and only overwrites its code |
| Views.SignUpCreatesPlainUser | api_yamdb/api/views.py:61-64 | a first sign-up adds one user with the next key and the default role, not admin |
| Views.MeIsRejected | api_yamdb/api/serializers.py:14-15 | "me" is refused both at sign-up and at token exchange |
| Views.TokenSucceedsIff | api_yamdb/api/views.py:92-97 | a token is issued iff the body is valid, the user exists, the code is not " " and equals the stored code; the token is the user's |
| Views.TokenAlwaysConsumes | api_yamdb/api/views.py:92-99 | for an existing user, success or failure, the stored code becomes " " (consumed) and nothing else changes |
| Views.TokenUnknownUserChangesNothing | api_yamdb/api/views.py:87-91 | an unknown username gives NotFound and an invalid body is refused, both without any change |
| Views.SentinelNeverMatches | api_yamdb/api/views.py:92 | the code " " never buys a token, even when it is what is stored |
| Views.TokenSingleUse | api_yamdb/api/views.py:92-99 | once an exchange reaches the user, the next exchange fails whatever code it brings; two exchanges in a row with one code never both succeed |
| Views.TokenPreservesStore | api_yamdb/api/views.py:85-100 | the token exchange keeps every constraint of the store |
| Views.SignUpThenToken | api_yamdb/api/views.py:54-100 | after a sign-up the drawn code buys one token for that user, and the same code then fails |
| Views.Patched | api_yamdb/api/serializers.py:49-53 | each supplied username, email, first name, last name and bio becomes the user's value, each omitted one stays; key, role, staff flag and code never change |
| Views.ProfileKeepsRole | api_yamdb/api/serializers.py:49-53 | the /me PATCH gives the same outcome whatever role the body carries; an accepted PATCH stores and returns the patched user (the supplied fields written), never changes role, staff flag, code or key, refiles the user under its username and leaves others alone; a refused one changes nothing |
| Views.ReplaceUserPreservesStore | api_yamdb/api/views.py:124-130 | replacing a user by an updated copy under a free username and email keeps every constraint |
| Views.ProfilePreservesStore | api_yamdb/api/views.py:124-130 | the /me PATCH keeps unique usernames, emails and keys |
| Views.Store.SignUp | api_yamdb/api/views.py:54-82 | the issued code is MAX_LEN_CODE digits and the new store and response are those of the sign-up specification; the store stays valid |
| Views.Store.Token | api_yamdb/api/views.py:85-100 | the new store and response are those of the token specification; the store stays valid |
| Views.Store.UpdateProfile | api_yamdb/api/views.py:118-131 | the new store and response are those of the profile specification; the store stays valid |
| Views.ReviewsOf | api_yamdb/api/views.py:173-174 | exactly the reviews of the title |
| Views.ListReviews | api_yamdb/api/views.py:167-174 | NotFound iff the title is unknown; otherwise exactly the title's reviews, newest first |
| Views.CreateReview | api_yamdb/api/views.py:170-171 | created iff the fields pass, the title exists and the requester has no review of it; the author is the requester whatever the body says, the title is the URL's; nothing changes otherwise; the catalog constraints are kept |
| Views.SecondReviewRefused | api_yamdb/reviews/models.py:200-205 | after a first review of a title by an author, a second one by the same author is refused with the uniqueness message |
| Views.CreatedReviewIsListed | api_yamdb/api/views.py:170-174 | a created review is listed under its title |
| Views.CommentsOf | api_yamdb/api/views.py:187-188 | exactly the comments of the review |
| Views.FindReview | api_yamdb/api/views.py:184-185 | the first review matching the lookup, or none when none matches |
| Views.GetReviewAsWritten | api_yamdb/api/views.py:184-185 | the review is found by id alone; the title in the URL plays no part |
| Views.GetReviewIgnoresTitle | api_yamdb/api/views.py:184-185 | under a title that does not exist, the as-written lookup still returns another title's review |
| Views.GetReviewInTitle | api_yamdb/api/views.py:184-185 | corrected lookup: a review is found iff the title exists and has a review with that id |
| Views.ListComments | api_yamdb/api/views.py:184-188 | NotFound iff the review does not resolve; otherwise exactly the review's comments, newest first. With `ById` the review resolves as the code does (by id alone), with `InTitle` as corrected (through the title) |
| Views.CreateComment | api_yamdb/api/views.py:184-191 | created iff the text is non-blank and the review resolves (`ById` as written, `InTitle` corrected); the author is the requester whatever the body says; nothing changes otherwise; the catalog constraints are kept |
| Views.CommentsUnderMissingTitle | api_yamdb/api/views.py:184-191 | with title 3 owning review 5, `/titles/7/reviews/5/comments/` lists review 5's comments and accepts a new one as written, and answers NotFound to both when corrected |

## Left out

- Sending the confirmation email (`send_mail`) is outbound I/O. Sign-up ends once the code is saved, and a failed send is not modelled.
- Inside `get_random_string` and `AccessToken.for_user`: both are foreign calls. The first is a nondeterministic choice of digits; the second is an opaque token naming the user.
- Pagination, search and `TitleFilter`: `filters.py` is not part of this model.
- The title rating (`Avg('reviews__score')`), a framework aggregate with a non-integer mean.
- Database races: a unique-constraint conflict is modelled only as "the conflicting request changes nothing", and the concurrent token-exchange race is a concurrency concern.
- Admin user CRUD, the category, genre and title CRUD, and review and comment update and delete. These are the framework's generic handlers; only their permission rules are modelled.
- The orderings by username (users) and by name (categories, genres, titles), which compare strings.
- Serializers.ValidateSignUp: does not model the email address format check, the framework's trimming of surrounding whitespace, the null-character check, or the "required" error for a missing field, because these come from the framework. It keeps only the first failing check of each field, while the framework reports every failing validator of one stage.
- Serializers.ValidateToken: the same simplifications as ValidateSignUp.
- Serializers.ValidateProfile: the same simplifications as ValidateSignUp.
- Serializers.CharFieldError: does not model the framework's trimming of surrounding whitespace, so its blank and length checks apply to the untrimmed value: a value of spaces only passes here, and a padded value can be refused as too long, where the source trims first. It does not model the framework's null-character check either: a value containing U+0000 passes here, where the source refuses it.
- Serializers.UsernameFieldError: the same untrimmed CharField check as CharFieldError, so a padded username that the source trims and accepts can be refused here. It does not model the framework's null-character check either: a value containing U+0000 passes here, where the source refuses it.
- Serializers.ProfileUsernameError: the same untrimmed CharField check as CharFieldError, before the uniqueness check. It does not model the framework's null-character check either: a value containing U+0000 passes here, where the source refuses it.
- Serializers.ProfileEmailError: does not model the EmailField address format check or whitespace trimming, so a value of spaces only passes here, where the source refuses it as blank and as not an email address.
- Serializers.NameError: counts the untrimmed length, so 150 letters plus a trailing space are refused here, where the source trims and stores the 150 letters. It does not model the framework's null-character check either: a value containing U+0000 passes here, where the source refuses it.
- Serializers.ReviewFieldErrors: does not model the framework's trimming of surrounding whitespace, so a text of spaces only passes here, while the source trims it to blank and refuses it. It does not model the framework's null-character check either: a value containing U+0000 passes here, where the source refuses it.
- Serializers.CommentFieldErrors: the same as ReviewFieldErrors: a text of spaces only passes here, while the source refuses it. It does not model the framework's null-character check either: a value containing U+0000 passes here, where the source refuses it.
- Views.TokenAlwaysConsumes: because whitespace is not trimmed, a supplied code of " " reaches the user here and consumes the stored code; in the source it is trimmed to blank and refused before the lookup at views.py:88, and nothing is consumed. The same holds for a code containing U+0000: the framework's null-character check refuses it at views.py:88 in the source, but here it reaches the user and consumes the stored code.
- Views.MeAccess: states the permission only; the 405 answer the route gives an authenticated user for POST, PUT or DELETE is not modelled.

Three behaviours worth knowing:
- `UserProfileSerializer` makes `role` read-only for every caller of `/users/me/`, admins included.
- With an anchored `USERNAME_REGEX` (`^C+\Z`), the character error lists every distinct character of a refused value, allowed ones included, because `re.sub` removes nothing from a value that does not match as a whole. Only with the bare shape does it list exactly the offending characters (`ListedCharacters`).
- The comment handlers resolve their review by id alone, ignoring the title in the URL. Both this behaviour (`ById`) and a lookup through the title (`InTitle`) are modelled; see Findings.

## Findings

| source | as written | input that shows it | evidently intended | confidence | as-written member | corrected member |
|---|---|---|---|---|---|---|
| api_yamdb/api/views.py:184-185 | `get_review` looks the review up by `review_id` alone. Comments are listed and created under any `title_id`, even one that does not exist or does not own the review | catalog with title 3 and review 5 of title 3; request to `/titles/7/reviews/5/comments/` | resolve the review through its title, giving NotFound when the title is missing or does not own the review | medium, not executed | Views.GetReviewAsWritten, used by Views.ListComments and Views.CreateComment with `ById` (shown by Views.GetReviewIgnoresTitle and Views.CommentsUnderMissingTitle) | Views.GetReviewInTitle, used by Views.ListComments and Views.CreateComment with `InTitle` |
