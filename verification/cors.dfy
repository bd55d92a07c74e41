/** The CORS `origin` callback over the allowed-origins list: CLIENT_URL, the production
    front end, and a pattern for preview deployments. */
module Cors {
  import opened Wrappers
  import opened Text

  const ProductionOrigin: string := "https://sokoni-mobile-app.vercel.app"
  const PreviewSuffix: string := ".vercel.app"

  /** An entry of the list: a string, an unset CLIENT_URL (not a string, and without a
      `test` method), or the regular expression `/\.vercel\.app$/`. */
  datatype Entry = Literal(s: string) | Unset | PreviewPattern

  function AllowedOrigins(clientUrl: Option<string>): seq<Entry> {
    [if clientUrl.Some? then Literal(clientUrl.value) else Unset, Literal(ProductionOrigin), PreviewPattern]
  }

  /** Regular-expression search semantics: a match of `.vercel.app` that ends at the end
      of the input (`$` without the multiline flag). */
  predicate PatternMatches(origin: string) {
    exists i :: 0 <= i <= |origin| && origin[i..] == PreviewSuffix
  }

  lemma PatternIsSuffix(origin: string)
    ensures PatternMatches(origin) <==> EndsWith(origin, PreviewSuffix)
  {
  }

  datatype Test = Match | NoMatch | Throws

  function TestEntry(e: Entry, origin: string): Test {
    match e
    case Literal(s) => if s == origin then Match else NoMatch
    case Unset => Throws                 // `undefined.test(origin)` throws a TypeError
    case PreviewPattern => if PatternMatches(origin) then Match else NoMatch
  }

  /** `Array.prototype.some`: stops at the first match; an exception escapes. */
  function AnyEntry(entries: seq<Entry>, origin: string): (t: Test)
    ensures t == Match <==>
      exists i :: (0 <= i < |entries| && TestEntry(entries[i], origin) == Match
                   && forall j :: 0 <= j < i ==> TestEntry(entries[j], origin) == NoMatch)
    ensures t == NoMatch <==> forall i :: 0 <= i < |entries| ==> TestEntry(entries[i], origin) == NoMatch
  {
    if entries == [] then NoMatch
    else
      var t := TestEntry(entries[0], origin);
      if t != NoMatch then t
      else
        var r := AnyEntry(entries[1..], origin);
        assert forall i :: 1 <= i < |entries| ==> entries[i] == entries[1..][i - 1];
        r
  }

  /** The callback's verdict: allowed, refused with an error, or the callback itself throws. */
  datatype Decision = Allow | Deny(message: string) | Fault

  function OriginCheck(clientUrl: Option<string>, origin: Option<string>): (d: Decision)
    // no Origin header (or an empty one) is allowed
    ensures !Truthy(origin) ==> d == Allow
    // with CLIENT_URL unset every present origin makes the first test throw
    ensures clientUrl.None? && Truthy(origin) ==> d == Fault
    // otherwise: exact match of either string entry, or the preview suffix
    ensures clientUrl.Some? && Truthy(origin) ==>
      (d == Allow <==> (origin.value == clientUrl.value || origin.value == ProductionOrigin
                        || EndsWith(origin.value, PreviewSuffix)))
    ensures d != Allow && d != Fault ==> d == Deny("Not allowed by CORS")
  {
    if origin.None? || origin.value == "" then Allow
    else
      var entries := AllowedOrigins(clientUrl);
      PatternIsSuffix(origin.value);
      match AnyEntry(entries, origin.value)
      case Match => Allow
      case NoMatch =>
        assert TestEntry(entries[0], origin.value) == NoMatch;
        assert TestEntry(entries[1], origin.value) == NoMatch;
        assert TestEntry(entries[2], origin.value) == NoMatch;
        Deny("Not allowed by CORS")
      case Throws => Fault
  }
}
