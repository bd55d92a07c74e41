/** The mobile root layout: the authentication redirect, the missing-key guard, and the
    token cache's read. */
module MobileLayout {
  import opened Wrappers
  import opened Text
  import opened Arrays

  const AuthGroup: string := "(auth)"

  datatype Redirect = Stay | ToTabs | ToAuth

  /** `!!userId || isSignedIn`. */
  function Authenticated(userId: Option<string>, isSignedIn: bool): (b: bool)
    ensures b <==> Truthy(userId) || isSignedIn
  {
    (userId.Some? && userId.value != "") || isSignedIn
  }

  /** The effect in `AuthProtectedStack`: at most one `router.replace` per evaluation. */
  function RedirectFor(isLoaded: bool, userId: Option<string>, isSignedIn: bool, segments: seq<string>): (r: Redirect)
    ensures !isLoaded ==> r == Stay
    ensures r == ToTabs <==> isLoaded && (Truthy(userId) || isSignedIn) && AuthGroup in segments
    ensures r == ToAuth <==>
      isLoaded && !(Truthy(userId) || isSignedIn) && AuthGroup !in segments && |segments| > 0
  {
    if !isLoaded then Stay
    else
      var inAuthGroup := Includes(segments, AuthGroup);
      var authenticated := Authenticated(userId, isSignedIn);
      if authenticated && inAuthGroup then ToTabs
      else if !authenticated && !inAuthGroup && |segments| > 0 then ToAuth
      else Stay
  }

  /** The redirects settle: after either one, evaluating again on the target group asks
      for nothing more; the unauthenticated root and authenticated screens outside the
      auth group never redirect. */
  lemma RedirectsSettle(userId: Option<string>, isSignedIn: bool, segments: seq<string>)
    ensures RedirectFor(true, userId, isSignedIn, segments) == ToTabs ==>
      RedirectFor(true, userId, isSignedIn, ["(tabs)"]) == Stay
    ensures RedirectFor(true, userId, isSignedIn, segments) == ToAuth ==>
      RedirectFor(true, userId, isSignedIn, [AuthGroup]) == Stay
    ensures !(Truthy(userId) || isSignedIn) ==> RedirectFor(true, userId, isSignedIn, []) == Stay
    ensures (Truthy(userId) || isSignedIn) && AuthGroup !in segments ==>
      RedirectFor(true, userId, isSignedIn, segments) == Stay
  {
    assert AuthGroup != "(tabs)";
  }

  /** `AuthProtectedStack` renders nothing until authentication has loaded. */
  function RendersStack(isLoaded: bool): (b: bool)
    ensures b <==> isLoaded
  {
    isLoaded
  }

  /** `RootLayout` renders null without a publishable key. */
  function RendersRoot(publishableKey: Option<string>): (b: bool)
    ensures b <==> Truthy(publishableKey)
  {
    publishableKey.Some? && publishableKey.value != ""
  }

  /** What secure storage does on a read: return a value (or nothing), or throw. */
  datatype StorageRead = Value(stored: Option<string>) | Throws

  /** `tokenCache.getToken`: the stored value, or null when storage throws. */
  function GetToken(read: StorageRead): (r: Option<string>)
    ensures read.Throws? ==> r.None?
    ensures read.Value? ==> r == read.stored
  {
    match read
    case Value(v) => v
    case Throws => None
  }

  /** Before authentication loads, nothing is rendered and no redirect is asked for; the
      root renders exactly when the publishable key is a non-empty string. */
  lemma NothingBeforeLoad(publishableKey: Option<string>, userId: Option<string>, isSignedIn: bool, segments: seq<string>)
    ensures !RendersStack(false) && RedirectFor(false, userId, isSignedIn, segments) == Stay
    ensures RendersRoot(publishableKey) <==> |publishableKey.GetOr("")| > 0
  {
  }

  /** Secure storage: the strings stored under each key. */
  type Storage = map<string, string>

  /** `tokenCache.saveToken`: a write storage refuses is logged and swallowed. */
  function SaveToken(st: Storage, key: string, value: string, accepted: bool): Storage {
    if accepted then st[key := value] else st
  }

  /** A read of `key`, which throws when storage is unavailable. */
  function ReadStorage(st: Storage, key: string, available: bool): StorageRead {
    if !available then Throws else Value(if key in st then Some(st[key]) else None)
  }

  /** A saved token reads back, other keys are untouched, a refused save leaves the old
      value readable, and an unavailable storage reads as no token rather than an error. */
  lemma TokenRoundTrip(st: Storage, key: string, value: string, other: string)
    ensures GetToken(ReadStorage(SaveToken(st, key, value, true), key, true)) == Some(value)
    ensures other != key ==>
      GetToken(ReadStorage(SaveToken(st, key, value, true), other, true)) == GetToken(ReadStorage(st, other, true))
    ensures GetToken(ReadStorage(SaveToken(st, key, value, false), key, true)) == GetToken(ReadStorage(st, key, true))
    ensures GetToken(ReadStorage(st, key, false)) == None
  {
  }
}
