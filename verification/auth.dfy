/** The authentication middleware: `protectRoute` (find or create the user for the
    session's clerk id) and `adminOnly` (normalised email comparison). */
module Auth {
  import opened Wrappers
  import opened Text
  import opened Db

  /** The session claims the identity provider supplies; any of them may be missing. */
  datatype Claims = Claims(
    email: Option<string>,
    primaryEmail: Option<string>,
    fullName: Option<string>,
    name: Option<string>,
    imageUrl: Option<string>,
    image: Option<string>)

  /** Missing session claims read like claims with every field missing (`claims?.email`). */
  const NoClaims: Claims := Claims(None, None, None, None, None, None)

  datatype Session = Session(userId: Option<string>, claims: Claims)

  /** A middleware either answers the request or passes it on (`next()`). */
  datatype Gate = Reject(response: Response) | Next(user: User)

  datatype Guarded = Guarded(gate: Gate, store: Store)

  const NoSession: string := "Unauthorized: No valid session found."

  /** The user `protectRoute` creates for a clerk id seen for the first time. */
  function NewUser(clerkId: string, claims: Claims, userId: Id): (u: User)
    ensures u.id == userId && u.clerkId == clerkId
    ensures u.addresses == [] && u.wishlist == [] && u.stripeCustomerId == ""
    // email: claims.email, else primary_email, else a placeholder address
    ensures Truthy(claims.email) ==> u.email == claims.email
    ensures !Truthy(claims.email) && Truthy(claims.primaryEmail) ==> u.email == claims.primaryEmail
    ensures !Truthy(claims.email) && !Truthy(claims.primaryEmail) ==>
      u.email == Some("user_" + clerkId + "@temp.com")
    // name: full_name, else name, else "Sokoni User"
    ensures Truthy(claims.fullName) ==> u.name == claims.fullName.value
    ensures !Truthy(claims.fullName) && Truthy(claims.name) ==> u.name == claims.name.value
    ensures !Truthy(claims.fullName) && !Truthy(claims.name) ==> u.name == "Sokoni User"
  {
    User(
      userId,
      clerkId,
      Some(OrElse(claims.email, OrElse(claims.primaryEmail, "user_" + clerkId + "@temp.com"))),
      OrElse(claims.fullName, OrElse(claims.name, "Sokoni User")),
      OrElse(claims.imageUrl, OrElse(claims.image, "")),
      [], [], "")
  }

  /** `protectRoute`: no clerk id is a 401 with nothing created; a known clerk id reuses its
      user; an unknown one creates exactly one user under that id. */
  function ProtectRoute(s: Store, session: Session, userId: Id): (g: Guarded)
    ensures !Truthy(session.userId) ==> g == Guarded(Reject(Response(401, SessionJson(NoSession))), s)
    ensures Truthy(session.userId) && session.userId.value in s.users ==>
      g == Guarded(Next(s.users[session.userId.value]), s)
    ensures Truthy(session.userId) && session.userId.value !in s.users ==>
      && g.gate == Next(NewUser(session.userId.value, session.claims, userId))
      && g.store == s.(users := s.users[session.userId.value := g.gate.user])
    ensures g.store.products == s.products && g.store.orders == s.orders
    ensures g.gate.Next? ==>
      (Truthy(session.userId) && session.userId.value in g.store.users
       && g.store.users[session.userId.value] == g.gate.user)
  {
    if session.userId.None? || session.userId.value == "" then
      Guarded(Reject(Response(401, SessionJson(NoSession))), s)
    else
      var clerkId := session.userId.value;
      if clerkId in s.users then Guarded(Next(s.users[clerkId]), s)
      else
        var u := NewUser(clerkId, session.claims, userId);
        Guarded(Next(u), s.(users := s.users[clerkId := u]))
  }

  /** Sequential requests of one session create at most one user: the second finds the
      first's user and changes nothing. */
  lemma ProtectRouteCreatesOnce(s: Store, session: Session, id1: Id, id2: Id)
    ensures
      var g1 := ProtectRoute(s, session, id1);
      var g2 := ProtectRoute(g1.store, session, id2);
      g2 == Guarded(g1.gate, g1.store) && |g1.store.users| <= |s.users| + 1
  {
  }

  /** `x?.toLowerCase().trim()`. */
  function Normalize(e: Option<string>): Option<string> {
    match e
    case Some(v) => Some(Trim(Lower(v)))
    case None => None
  }

  datatype AdminGate = Forbid(response: Response) | Pass

  /** `adminOnly`: 401 without a user, otherwise pass iff the normalised emails are equal
      (two missing emails are equal), else 403. */
  function AdminOnly(user: Option<User>, adminEmail: Option<string>): (r: AdminGate)
    ensures user.None? ==> r == Forbid(Response(401, MessageJson("Unauthorized - user not found")))
    ensures user.Some? ==> (r == Pass <==> Normalize(user.value.email) == Normalize(adminEmail))
    ensures user.Some? && r != Pass ==> r == Forbid(Response(403, MessageJson("Forbidden - admin access only")))
  {
    if user.None? then Forbid(Response(401, MessageJson("Unauthorized - user not found")))
    else if Normalize(user.value.email) != Normalize(adminEmail) then
      Forbid(Response(403, MessageJson("Forbidden - admin access only")))
    else Pass
  }

  lemma LowerAppend(a: string, b: string)
    ensures Lower(a + b) == Lower(a) + Lower(b)
  {
  }

  lemma LowerKeepsSpace(w: string)
    requires AllSpace(w)
    ensures AllSpace(Lower(w))
  {
  }

  /** Normalising ignores whitespace padding around an email. */
  lemma NormalizeIgnoresPadding(pre: string, core: string, post: string)
    requires AllSpace(pre) && AllSpace(post)
    ensures Normalize(Some(pre + core + post)) == Some(Trim(Lower(core)))
  {
    calc {
      Lower(pre + core + post);
    == { LowerAppend(pre + core, post); }
      Lower(pre + core) + Lower(post);
    == { LowerAppend(pre, core); }
      Lower(pre) + Lower(core) + Lower(post);
    }
    LowerKeepsSpace(pre);
    LowerKeepsSpace(post);
    TrimIgnoresPadding(Lower(pre), Lower(core), Lower(post));
  }

  /** An email differing from ADMIN_EMAIL only in letter case and in whitespace around
      either of them is admitted. */
  lemma AdminIgnoresCaseAndPadding(user: User, pre: string, email: string, post: string,
                                   adminPre: string, admin: string, adminPost: string)
    requires AllSpace(pre) && AllSpace(post) && AllSpace(adminPre) && AllSpace(adminPost)
    requires Lower(email) == Lower(admin)
    requires user.email == Some(pre + email + post)
    ensures AdminOnly(Some(user), Some(adminPre + admin + adminPost)) == Pass
  {
    NormalizeIgnoresPadding(pre, email, post);
    NormalizeIgnoresPadding(adminPre, admin, adminPost);
  }

  /** Spelling ADMIN_EMAIL in capitals changes nothing. */
  lemma AdminCapitals(user: User, admin: string)
    requires user.email == Some(Upper(admin))
    ensures AdminOnly(Some(user), Some(admin)) == Pass
  {
    LowerForgetsCase(admin);
    assert "" + Upper(admin) + "" == Upper(admin);
    assert "" + admin + "" == admin;
    AdminIgnoresCaseAndPadding(user, "", Upper(admin), "", "", admin, "");
  }

  /** With ADMIN_EMAIL unset, any user without an email passes. */
  lemma AdminBothMissing(user: User)
    requires user.email.None?
    ensures AdminOnly(Some(user), None) == Pass
  {
  }
}
