/**
 * The records of the review app: users with their role, reviews and
 * comments, and the constraints the database keeps over them (unique
 * usernames and emails, one review per title and author, scores from 1 to
 * 10, newest-first ordering of reviews and comments).
 */
module Models {
  import opened Wrappers

  datatype Role = UserRole | ModeratorRole | AdminRole

  /** User.ROLES, in declaration order. */
  const Roles: seq<Role> := [UserRole, ModeratorRole, AdminRole]

  /** The value stored in the role column. */
  function RoleName(r: Role): string
  {
    match r
    case UserRole => "user"
    case ModeratorRole => "moderator"
    case AdminRole => "admin"
  }

  /** The `choices` check on the role column: only a listed name is a role. */
  function RoleFromName(name: string): (r: Option<Role>)
    ensures r.Some? ==> RoleName(r.value) == name
    ensures forall role :: RoleName(role) == name ==> r == Some(role)
  {
    if name == "user" then Some(UserRole)
    else if name == "moderator" then Some(ModeratorRole)
    else if name == "admin" then Some(AdminRole)
    else None
  }

  const DefaultRole: Role := UserRole

  /** `max(len(name) for name in names)`, taken as 0 for no names. */
  function MaxNameLength(names: seq<string>): (m: nat)
    ensures forall i :: 0 <= i < |names| ==> |names[i]| <= m
    ensures names != [] ==> exists i :: 0 <= i < |names| && |names[i]| == m
  {
    if names == [] then 0
    else
      var rest := MaxNameLength(names[1..]);
      if |names[0]| >= rest then |names[0]| else rest
  }

  /** The first member of each ROLES pair, in declaration order. */
  function RoleNames(): (names: seq<string>)
    ensures names == ["user", "moderator", "admin"]
  {
    seq(|Roles|, i requires 0 <= i < |Roles| => RoleName(Roles[i]))
  }

  /** The max_length of the role column. */
  function RoleMaxLength(): nat
  {
    MaxNameLength(RoleNames())
  }

  /** The role column is exactly as wide as its longest name, "moderator". */
  lemma RoleMaxLengthIsModerator()
    ensures RoleMaxLength() == |RoleName(ModeratorRole)| == 9
    ensures forall r :: |RoleName(r)| <= RoleMaxLength()
  {
    var names := RoleNames();
    assert names[0] == "user" && names[1] == "moderator" && names[2] == "admin";
    var i :| 0 <= i < |names| && |names[i]| == RoleMaxLength();
    assert |names[1]| <= RoleMaxLength();
    forall r ensures |RoleName(r)| <= RoleMaxLength() {
      match r
      case UserRole => assert RoleName(r) == names[0];
      case ModeratorRole => assert RoleName(r) == names[1];
      case AdminRole => assert RoleName(r) == names[2];
    }
  }

  /** A user account. `id` is the primary key that authors refer to. */
  datatype User = User(
    id: nat,
    username: string,
    email: string,
    firstName: string,
    lastName: string,
    bio: string,
    role: Role,
    isStaff: bool,
    confirmationCode: Option<string>)
  {
    /** The is_admin property: the admin role or the staff flag. */
    predicate IsAdmin()
    {
      role == AdminRole || isStaff
    }

    /** The is_moderator property: the moderator role, whatever the staff flag. */
    predicate IsModerator()
    {
      role == ModeratorRole
    }
  }

  /** A user as created from a username and an email: every other column at its default. */
  function NewUser(id: nat, username: string, email: string): (u: User)
    ensures u.id == id && u.username == username && u.email == email
    ensures u.role == DefaultRole && !u.isStaff && u.confirmationCode == None
    ensures !u.IsAdmin() && !u.IsModerator()
  {
    User(id, username, email, "", "", "", DefaultRole, false, None)
  }

  /** How the two derived properties classify every role and staff flag. */
  lemma RoleClassification(u: User)
    ensures u.IsAdmin() <==> u.role == AdminRole || u.isStaff
    ensures u.IsModerator() <==> u.role == ModeratorRole
    ensures u.role == ModeratorRole && u.isStaff ==> u.IsAdmin() && u.IsModerator()
    ensures u.role == AdminRole ==> u.IsAdmin() && !u.IsModerator()
    ensures u.role == UserRole ==> !u.IsModerator() && (u.IsAdmin() <==> u.isStaff)
  {
  }

  /**
   * The user table's constraints over a store keyed by username: the key is
   * the username (unique=True), emails are unique (unique=True), and so are
   * primary keys.
   */
  ghost predicate UsersUnique(users: map<string, User>)
  {
    && (forall name :: name in users ==> users[name].username == name)
    && (forall a, b :: a in users && b in users && a != b ==> users[a].email != users[b].email)
    && (forall a, b :: a in users && b in users && a != b ==> users[a].id != users[b].id)
  }

  /** The (username, email) UniqueConstraint follows from the two column constraints. */
  lemma UsernameEmailPairsUnique(users: map<string, User>, a: string, b: string)
    requires UsersUnique(users) && a in users && b in users && a != b
    ensures users[a].username != users[b].username && users[a].email != users[b].email
    ensures (users[a].username, users[a].email) != (users[b].username, users[b].email)
  {
  }

  const MinScore: int := 1
  const MaxScore: int := 10

  /** The Min/MaxValueValidator pair on Review.score. */
  predicate ValidScore(score: int)
  {
    MinScore <= score <= MaxScore
  }

  /** A review; `title` and `author` are primary keys, `pubDate` is auto_now_add. */
  datatype Review = Review(id: nat, title: nat, author: nat, text: string, score: int, pubDate: int)

  /** A comment on a review. */
  datatype Comment = Comment(id: nat, review: nat, author: nat, text: string, pubDate: int)

  /** The part of the database the review and comment handlers read and write. */
  datatype Catalog = Catalog(titles: set<nat>, reviews: seq<Review>, comments: seq<Comment>)

  /** Some review of `title` by `author` exists. */
  predicate HasReview(reviews: seq<Review>, title: nat, author: nat)
  {
    exists i :: 0 <= i < |reviews| && reviews[i].title == title && reviews[i].author == author
  }

  /** The UniqueConstraint on (title, author). */
  ghost predicate ReviewsUnique(reviews: seq<Review>)
  {
    forall i, j :: 0 <= i < |reviews| && 0 <= j < |reviews| && i != j ==>
      reviews[i].title != reviews[j].title || reviews[i].author != reviews[j].author
  }

  /** The constraints the database keeps over reviews and comments. */
  ghost predicate CatalogValid(c: Catalog)
  {
    && ReviewsUnique(c.reviews)
    && (forall i :: 0 <= i < |c.reviews| ==> ValidScore(c.reviews[i].score))
    && (forall i :: 0 <= i < |c.reviews| ==> c.reviews[i].title in c.titles)
    && (forall i, j :: 0 <= i < |c.reviews| && 0 <= j < |c.reviews| && i != j ==>
          c.reviews[i].id != c.reviews[j].id)
    && (forall i, j :: 0 <= i < |c.comments| && 0 <= j < |c.comments| && i != j ==>
          c.comments[i].id != c.comments[j].id)
  }

  /** The id an auto-increment key gives the next row: above every id in use. */
  function NextId<T>(rows: seq<T>, id: T -> nat): (next: nat)
    ensures forall i :: 0 <= i < |rows| ==> id(rows[i]) < next
  {
    if rows == [] then 1
    else
      var rest := NextId(rows[1..], id);
      if id(rows[0]) >= rest then id(rows[0]) + 1 else rest
  }

  /** Sorted by `ordering = ('-pub_date',)`: newer before older. */
  ghost predicate NewestFirst<T>(s: seq<T>, pubDate: T -> int)
  {
    forall i, j :: 0 <= i < j < |s| ==> pubDate(s[i]) >= pubDate(s[j])
  }

  /** No element of `s` is newer than `date`. */
  ghost predicate NoneNewerThan<T>(s: seq<T>, date: int, pubDate: T -> int)
  {
    forall k :: 0 <= k < |s| ==> pubDate(s[k]) <= date
  }

  /** Nothing in a sorted sequence is newer than an element at least as new as its head. */
  lemma NewerThanHead<T>(x: T, s: seq<T>, pubDate: T -> int)
    requires NewestFirst(s, pubDate) && (s == [] || pubDate(x) >= pubDate(s[0]))
    ensures NoneNewerThan(s, pubDate(x), pubDate)
  {
  }

  /** An element at least as new as everything in a sorted sequence can go in front of it. */
  lemma PrependNewest<T>(y: T, r: seq<T>, pubDate: T -> int)
    requires NewestFirst(r, pubDate) && NoneNewerThan(r, pubDate(y), pubDate)
    ensures NewestFirst([y] + r, pubDate)
  {
    var s := [y] + r;
    forall i, j | 0 <= i < j < |s| ensures pubDate(s[i]) >= pubDate(s[j]) {
      assert s[j] == r[j - 1];
      if i > 0 { assert s[i] == r[i - 1]; }
    }
  }

  function Insert<T>(x: T, s: seq<T>, pubDate: T -> int): (r: seq<T>)
    requires NewestFirst(s, pubDate)
    ensures NewestFirst(r, pubDate)
    ensures multiset(r) == multiset(s) + multiset{x}
    decreases |s|, 0
  {
    if s == [] || pubDate(x) >= pubDate(s[0]) then
      NewerThanHead(x, s, pubDate);
      PrependNewest(x, s, pubDate);
      [x] + s
    else
      assert s == [s[0]] + s[1..];
      var rest := Insert(x, s[1..], pubDate);
      InsertKeepsBound(x, s[1..], pubDate(s[0]), pubDate);
      PrependNewest(s[0], rest, pubDate);
      [s[0]] + rest
  }

  /** Inserting an element no newer than `date` keeps everything no newer than `date`. */
  lemma {:induction false} InsertKeepsBound<T>(x: T, s: seq<T>, date: int, pubDate: T -> int)
    requires NewestFirst(s, pubDate) && NoneNewerThan(s, date, pubDate) && pubDate(x) <= date
    ensures NoneNewerThan(Insert(x, s, pubDate), date, pubDate)
    decreases |s|, 1
  {
    if s != [] && pubDate(x) < pubDate(s[0]) {
      InsertKeepsBound(x, s[1..], date, pubDate);
    }
  }

  /** The rows of a query in the model's default ordering. */
  function OrderNewestFirst<T>(s: seq<T>, pubDate: T -> int): (r: seq<T>)
    ensures NewestFirst(r, pubDate)
    ensures multiset(r) == multiset(s)
  {
    if s == [] then []
    else
      assert s == [s[0]] + s[1..];
      Insert(s[0], OrderNewestFirst(s[1..], pubDate), pubDate)
  }
}
