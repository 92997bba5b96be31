/** middlewares/auth.js: which token `protect` verifies, taken from the
    Authorization header or the `token` cookie. */
module Auth {
  import opened Common

  const NotAuthorized: string := "Not authorized to access this route"

  /** The index of the first space in s, or |s|. */
  function FirstSpace(s: string): (k: nat)
    ensures k <= |s|
    ensures k < |s| ==> s[k] == ' '
    ensures forall j :: 0 <= j < k ==> s[j] != ' '
  {
    if |s| == 0 then 0
    else if s[0] == ' ' then 0
    else 1 + FirstSpace(s[1..])
  }

  /** `s.split(" ")[1]`: the text between the first and the second space (or
      the end), None when s has no space. */
  function SecondPiece(s: string): (r: Option<string>)
    ensures r.None? <==> forall j :: 0 <= j < |s| ==> s[j] != ' '
    ensures r.Some? ==> ' ' !in r.value
    ensures r.Some? ==>
              var i := FirstSpace(s);
              i < |s| && i + 1 + |r.value| <= |s| && r.value == s[i + 1..i + 1 + |r.value|] &&
              (i + 1 + |r.value| == |s| || s[i + 1 + |r.value|] == ' ')
  {
    var i := FirstSpace(s);
    if i == |s| then None
    else
      var rest := s[i + 1..];
      Some(rest[..FirstSpace(rest)])
  }

  /** `authorization.startsWith("Bearer")`. */
  predicate StartsWithBearer(h: string) {
    |h| >= 6 && h[..6] == "Bearer"
  }

  /** The token `protect` picks: from a non-empty header that starts with
      "Bearer", its second space-separated piece (the cookie is then never
      looked at); otherwise a non-empty cookie. None, or an empty piece,
      means no token. */
  function SelectToken(header: Option<string>, cookie: Option<string>): (t: Option<string>)
    ensures header.Some? && StartsWithBearer(header.value) ==> t == SecondPiece(header.value)
    ensures !(header.Some? && StartsWithBearer(header.value)) ==>
              t == (if cookie.Some? && cookie.value != "" then cookie else None)
  {
    if header.Some? && header.value != "" && StartsWithBearer(header.value) then SecondPiece(header.value)
    else if cookie.Some? && cookie.value != "" then cookie
    else None
  }

  /** protect. `decoded` is the user id the token verifies to, None when
      verification fails. */
  function Protect(header: Option<string>, cookie: Option<string>, decoded: Option<Id>): (r: Result<Id>)
    ensures r.Ok? <==> SelectToken(header, cookie).Some? && SelectToken(header, cookie).value != "" && decoded.Some?
    ensures r.Ok? ==> r.value == decoded.value
    ensures r.Err? ==> r == Err(401, NotAuthorized)
  {
    var t := SelectToken(header, cookie);
    if t.None? || t.value == "" then Err(401, NotAuthorized)
    else if decoded.None? then Err(401, NotAuthorized)
    else Ok(decoded.value)
  }

  /** "Bearer " followed by a token without spaces yields that token,
      whatever the cookie holds. */
  lemma {:induction false} BearerHeaderToken(t: string, cookie: Option<string>)
    requires t != "" && ' ' !in t
    ensures SelectToken(Some("Bearer " + t), cookie) == Some(t)
  {
    var h := "Bearer " + t;
    assert h[..6] == "Bearer";
    assert FirstSpace(h) == 6 by {
      assert h[6] == ' ';
      assert forall j :: 0 <= j < 6 ==> h[j] != ' ';
    }
    assert h[7..] == t;
    assert FirstSpace(t) == |t| by {
      assert forall j :: 0 <= j < |t| ==> t[j] != ' ';
    }
    assert t[..|t|] == t;
  }

  /** A "Bearer" header without a usable second piece rejects the request
      even when the cookie carries a token. */
  lemma BearerWithoutToken(cookieToken: string, decoded: Option<Id>)
    ensures Protect(Some("Bearer"), Some(cookieToken), decoded) == Err(401, NotAuthorized)
    ensures Protect(Some("Bearer  x"), Some(cookieToken), decoded) == Err(401, NotAuthorized)
  {
    assert "Bearer"[..6] == "Bearer";
    assert FirstSpace("Bearer") == 6;
    var h := "Bearer  x";
    assert h[..6] == "Bearer";
    assert h[6] == ' ';
    assert FirstSpace(h) == 6;
    assert h[7..][0] == ' ';
    assert FirstSpace(h[7..]) == 0;
  }

  /** Any header that does not start with "Bearer" leaves the choice to the
      cookie. */
  lemma OtherHeaderUsesCookie(header: string, cookieToken: string)
    requires !StartsWithBearer(header) && cookieToken != ""
    ensures SelectToken(Some(header), Some(cookieToken)) == Some(cookieToken)
  {
  }
}
