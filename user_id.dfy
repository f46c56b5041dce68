/**
  The advisory user id of a request (yente/app.py, `get_user_id`).

  The value is telemetry only: it is read from the `authorization` header,
  a scheme prefix such as `Bearer ` is dropped, the remainder is handed to a
  slugifier and the slug is cut to at most 40 characters. The slugifier is a
  foreign library call (`normality.slugify`); it is a parameter here, and
  every property below is stated relative to whatever it returns.
*/
module UserId {
  import opened Wrappers

  /** Request headers, keyed by lower-case header name. */
  type Headers = map<string, string>

  /** The slugifier: may decline to produce a slug. */
  type Slugifier = string -> Option<string>

  const AuthorizationHeader: string := "authorization"
  const MaxUserIdLength: nat := 40

  /** Position of the first space of `s`, if `s` has one. */
  function FirstSpace(s: string): (r: Option<nat>)
    ensures r.None? <==> ' ' !in s
    ensures r.Some? ==> r.value < |s| && s[r.value] == ' ' && ' ' !in s[..r.value]
  {
    if s == [] then None
    else if s[0] == ' ' then Some(0)
    else
      match FirstSpace(s[1..])
      case None => None
      case Some(i) =>
        assert s[..i + 1] == [s[0]] + s[1..][..i];
        Some(i + 1)
  }

  /**
    What `split(" ", 1)` keeps of the header: everything after the first
    space, or the whole header when it has no space.
  */
  function SchemeRemainder(auth: string): (r: string)
    ensures ' ' !in auth ==> r == auth
    ensures ' ' in auth ==>
      exists i :: 0 <= i < |auth| && auth[i] == ' ' && ' ' !in auth[..i] && r == auth[i + 1..]
  {
    match FirstSpace(auth)
    case None => auth
    case Some(i) => auth[i + 1..]
  }

  /**
    The converse of SchemeRemainder: a space-free prefix and the first space
    are discarded, and everything after them, later spaces included, is kept.
  */
  lemma RemainderAfterScheme(scheme: string, rest: string)
    requires ' ' !in scheme
    ensures SchemeRemainder(scheme + " " + rest) == rest
  {
    var auth := scheme + " " + rest;
    assert auth[|scheme|] == ' ';
    assert auth[..|scheme|] == scheme;
    var i := FirstSpace(auth).value;
    assert i == |scheme|;
    assert auth[i + 1..] == rest;
  }

  /** Example: the header `Bearer John Doe!!` hands `John Doe!!` to the slugifier. */
  lemma BearerExample()
    ensures SchemeRemainder("Bearer John Doe!!") == "John Doe!!"
  {
    RemainderAfterScheme("Bearer", "John Doe!!");
    assert "Bearer" + " " + "John Doe!!" == "Bearer John Doe!!";
  }

  /** Python's `s[:n]`: the longest prefix of `s` of length at most `n`. */
  function Truncate(s: string, n: nat): (r: string)
    ensures |r| <= n && r <= s
    ensures |s| <= n ==> r == s
    ensures |s| > n ==> |r| == n
  {
    if |s| <= n then s else s[..n]
  }

  /**
    The advisory user id: `None` without an `authorization` header or when
    the slugifier declines; otherwise the slug of the header's remainder,
    cut to MaxUserIdLength characters.
  */
  function GetUserId(headers: Headers, slugify: Slugifier): (r: Option<string>)
    ensures AuthorizationHeader !in headers ==> r == None
    ensures AuthorizationHeader in headers ==>
      (slugify(SchemeRemainder(headers[AuthorizationHeader])).None? <==> r.None?)
    ensures r.Some? ==>
      AuthorizationHeader in headers &&
      var slug := slugify(SchemeRemainder(headers[AuthorizationHeader]));
      slug.Some? && |r.value| <= MaxUserIdLength && r.value <= slug.value &&
      (|slug.value| <= MaxUserIdLength ==> r.value == slug.value) &&
      (|slug.value| > MaxUserIdLength ==> |r.value| == MaxUserIdLength)
  {
    if AuthorizationHeader !in headers then None
    else
      match slugify(SchemeRemainder(headers[AuthorizationHeader]))
      case None => None
      case Some(slug) => Some(Truncate(slug, MaxUserIdLength))
  }
}
