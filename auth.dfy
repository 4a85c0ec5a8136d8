/** `get_api_key` in app/main.py: turns the `Authorization` header into the
    caller's API token, or into a 401/403 error reply. */
module Auth {
  import opened Wrappers
  import opened Strings
  import opened Errors

  /** `parts[0].lower() == "bearer"`. */
  predicate IsBearerScheme(s: string) {
    LowerEquals(s, "bearer")
  }

  /** The header is well formed: exactly two whitespace-separated parts, the
      first of them `bearer` in any letter case. */
  predicate WellFormed(header: string) {
    var parts := Words(header);
    |parts| == 2 && IsBearerScheme(parts[0])
  }

  /** Checked in order: header missing or empty (401), not `Bearer <token>`
      (401), token not in the allow-list (403); otherwise the token. */
  function GetApiKey(header: Option<string>, allowed: seq<string>): (r: Result<string, ErrorReply>)
    ensures r.Success? <==> header.Some? && WellFormed(header.value) && Words(header.value)[1] in allowed
    ensures r.Success? ==> r.value == Words(header.value)[1] && r.value in allowed && IsWord(r.value)
    ensures r == Failure(MissingAuthorization) <==> header.None? || header.value == ""
    ensures r == Failure(InvalidAuthorizationFormat) <==> header.Some? && header.value != "" && !WellFormed(header.value)
    ensures r == Failure(InvalidApiKey) <==> header.Some? && WellFormed(header.value) && Words(header.value)[1] !in allowed
  {
    if header.None? || header.value == "" then Failure(MissingAuthorization)
    else
      var parts := Words(header.value);
      if |parts| != 2 || !IsBearerScheme(parts[0]) then Failure(InvalidAuthorizationFormat)
      else
        var token := parts[1];
        if token !in allowed then Failure(InvalidApiKey)
        else Success(token)
  }

  /** `Bearer <token>` with an allowed whitespace-free token is accepted and
      yields exactly that token, whatever the letter case of the scheme. */
  lemma AcceptsBearerToken(scheme: string, token: string, allowed: seq<string>)
    requires IsBearerScheme(scheme)
    requires IsWord(token) && token in allowed
    ensures GetApiKey(Some(scheme + " " + token), allowed) == Success(token)
  {
    var ws := [scheme, token];
    assert IsWord(scheme) by {
      forall i | 0 <= i < |scheme| ensures !IsSpace(scheme[i]) {
        assert LowerAscii(scheme[i]) == "bearer"[i];
      }
    }
    assert Join(ws, " ") == scheme + " " + token by {
      assert ws[1..] == [token];
    }
    WordsOfJoin(ws);
  }

  /** A header that is present but only whitespace is a format error, not a
      missing header. */
  lemma BlankHeaderIsFormatError(header: string, allowed: seq<string>)
    requires header != [] && AllSpace(header)
    ensures GetApiKey(Some(header), allowed) == Failure(InvalidAuthorizationFormat)
  {
    WordsEmptyIff(header);
  }
}
