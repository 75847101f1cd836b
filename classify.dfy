/** Classification of an upstream error by the text of the exception (server.py lines 499-531):
    a hard rate limit, an authentication or connection failure worth a credential refresh,
    or anything else, which is passed through untouched. */
module ErrorClass {
  import opened Text

  datatype ErrorKind = RateLimited | AuthFailure | Unclassified

  /** The marker of a hard rate limit; it is tested before every authentication marker. */
  const RateLimitMarker: string := "429"

  /** The markers of an authentication or connection-reset failure, in source order. */
  const AuthMarkers: seq<string> := [
    "401", "403", "cookie", "unauthenticated", "invalid response",
    "failed to generate", "server disconnected", "remoteprotocolerror", "connection closed"
  ]

  /** Some authentication marker occurs in the (already lower-cased) text. */
  ghost predicate HasAuthMarker(lowered: string)
  {
    exists k :: 0 <= k < |AuthMarkers| && Occurs(AuthMarkers[k], lowered)
  }

  /** Some marker of the list occurs in `e`: the `or` chain of lines 521-531 over the list. */
  function ContainsAny(e: string, markers: seq<string>): (r: bool)
    ensures r <==> exists k :: 0 <= k < |markers| && Occurs(markers[k], e)
  {
    if markers == [] then false
    else
      var r := Contains(e, markers[0]) || ContainsAny(e, markers[1..]);
      assert forall k :: 1 <= k < |markers| ==> markers[k] == markers[1..][k - 1];
      r
  }

  /** `str(e).lower()` tested first for "429", then for the authentication markers. */
  function Classify(error: string): (r: ErrorKind)
    ensures r == RateLimited <==> Occurs(RateLimitMarker, Lower(error))
    ensures r == AuthFailure <==> !Occurs(RateLimitMarker, Lower(error)) && HasAuthMarker(Lower(error))
    ensures r == Unclassified <==> !Occurs(RateLimitMarker, Lower(error)) && !HasAuthMarker(Lower(error))
  {
    var e := Lower(error);
    if Contains(e, RateLimitMarker) then RateLimited
    else if ContainsAny(e, AuthMarkers) then AuthFailure
    else Unclassified
  }

  /** Classification does not depend on letter case: the text is lower-cased first. */
  lemma ClassifyIgnoresCase(error: string)
    ensures Classify(Lower(error)) == Classify(error)
  {
    LowerIdempotent(error);
  }

  /** A text carrying both the rate-limit marker and an authentication marker is a rate limit. */
  lemma RateLimitTakesPrecedence(error: string, k: nat)
    requires k < |AuthMarkers|
    requires Occurs(AuthMarkers[k], Lower(error))
    requires Occurs(RateLimitMarker, Lower(error))
    ensures Classify(error) == RateLimited
  {
  }
}
