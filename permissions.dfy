/**
 * The permission rules of the API: who may read and who may write. Each
 * rule is a question about the request method, the requesting principal
 * and, for object-level rules, the author of the object.
 */
module Permissions {
  import opened Models

  datatype Method = GET | HEAD | OPTIONS | POST | PUT | PATCH | DELETE

  /** The read-only methods of the framework (SAFE_METHODS). */
  const SafeMethods: set<Method> := {GET, HEAD, OPTIONS}

  /** The requester: anonymous, or an authenticated user. */
  datatype Principal = Anonymous | Authenticated(user: User)

  /** IsAdmin.has_permission. */
  function IsAdmin(m: Method, p: Principal): (granted: bool)
    ensures p.Anonymous? ==> !granted
    ensures granted <==> p.Authenticated? && (p.user.role == AdminRole || p.user.isStaff)
  {
    p.Authenticated? && p.user.IsAdmin()
  }

  /** IsReadOnly.has_permission. */
  function IsReadOnly(m: Method, p: Principal): (granted: bool)
    ensures granted <==> m == GET || m == HEAD || m == OPTIONS
  {
    m in SafeMethods
  }

  /** IsAdminOrModeratorOrAuthorOrReadOnly.has_object_permission; `author` is the object's author. */
  function IsAdminOrModeratorOrAuthorOrReadOnly(m: Method, p: Principal, author: nat): (granted: bool)
    ensures m in SafeMethods ==> granted
    ensures m !in SafeMethods && p.Anonymous? ==> !granted
    ensures m !in SafeMethods && p.Authenticated? && (p.user.IsAdmin() || p.user.IsModerator()) ==> granted
    ensures m !in SafeMethods && p.Authenticated? && p.user.role == UserRole && !p.user.isStaff ==>
              (granted <==> p.user.id == author)
  {
    m in SafeMethods
    || (p.Authenticated? && (p.user.IsAdmin() || p.user.IsModerator() || p.user.id == author))
  }

  /** The framework's IsAuthenticatedOrReadOnly.has_permission. */
  function IsAuthenticatedOrReadOnly(m: Method, p: Principal): (granted: bool)
    ensures p.Authenticated? ==> granted
    ensures p.Anonymous? ==> (granted <==> m in SafeMethods)
  {
    m in SafeMethods || p.Authenticated?
  }

  /** The framework's IsAuthenticated.has_permission. */
  function IsAuthenticated(m: Method, p: Principal): (granted: bool)
    ensures granted <==> p != Anonymous
  {
    p.Authenticated?
  }

  /** Neither IsAdmin nor IsReadOnly looks past what it is documented to look at. */
  lemma RulesIgnoreIrrelevantInputs(m1: Method, m2: Method, p1: Principal, p2: Principal)
    ensures IsAdmin(m1, p1) == IsAdmin(m2, p1)
    ensures IsReadOnly(m1, p1) == IsReadOnly(m1, p2)
  {
  }

  /** Whoever passes IsAdmin passes the object rule, for every method and every object. */
  lemma AdminPassesObjectRule(m: Method, p: Principal, author: nat)
    requires IsAdmin(m, p)
    ensures IsAdminOrModeratorOrAuthorOrReadOnly(m, p, author)
  {
  }

  /** The object rule is IsReadOnly extended: whatever IsReadOnly grants, it grants too. */
  lemma ReadOnlyPassesObjectRule(m: Method, p: Principal, author: nat)
    requires IsReadOnly(m, p)
    ensures IsAdminOrModeratorOrAuthorOrReadOnly(m, p, author)
  {
  }

  /** An unsafe method passes the object rule only for an authenticated principal. */
  lemma ObjectRuleImpliesAuthenticatedOrReadOnly(m: Method, p: Principal, author: nat)
    requires IsAdminOrModeratorOrAuthorOrReadOnly(m, p, author)
    ensures IsAuthenticatedOrReadOnly(m, p)
  {
  }
}
