/**
 * The account checks of CSoftwareAuth, which do not use the WMI session:
 * AuthUserAccountSID compares the current user's SID string with the candidates,
 * and the two AuthUserAccount overloads wrap LogonUser. GetUserName,
 * LookupAccountName, ConvertSidToStringSid and LogonUser are reduced to their
 * outcomes; an outcome that yields data carries it in `Some`.
 */
module Account {
  import opened Wrappers
  import opened Matching

  /** A token HANDLE: NULL, or a token LogonUser returned. */
  datatype Handle = Null | Token(id: nat)

  /**
   * AuthUserAccountSID: FALSE with bResult FALSE as soon as one of the three
   * platform steps fails; otherwise TRUE, with bResult telling whether the SID
   * string is among the first iCount candidates, and the SID buffer freed once.
   */
  method AuthUserAccountSid(getUserName: bool, lookupAccountName: bool,
                            sidString: Option<string>, candidates: seq<string>, iCount: int)
    returns (ok: bool, bResult: bool, sidBuffersFreed: nat)
    requires iCount <= |candidates|
    ensures ok <==> getUserName && lookupAccountName && sidString.Some?
    ensures bResult <==> ok && sidString.value in Allowed(candidates, iCount)
    ensures sidBuffersFreed == if ok then 1 else 0
  {
    bResult := false;
    sidBuffersFreed := 0;
    if !getUserName {
      return false, bResult, sidBuffersFreed;
    }
    if !lookupAccountName {
      return false, bResult, sidBuffersFreed;
    }
    if sidString.None? {
      return false, bResult, sidBuffersFreed;
    }
    bResult := MatchCandidates(sidString.value, candidates, iCount);
    sidBuffersFreed := sidBuffersFreed + 1;  // LocalFree
    ok := true;
  }

  /**
   * AuthUserAccount with a token out-parameter: the LogonUser result, and the
   * token it produced; on failure the caller's handle is left as it was.
   */
  method AuthUserAccountToken(logonUser: Option<nat>, hTokenIn: Handle)
    returns (ok: bool, hToken: Handle)
    ensures ok <==> logonUser.Some?
    ensures ok ==> hToken == Token(logonUser.value)
    ensures !ok ==> hToken == hTokenIn
  {
    match logonUser
    case Some(id) =>
      ok, hToken := true, Token(id);
    case None =>
      ok, hToken := false, hTokenIn;
  }

  /**
   * AuthUserAccount without a token: the LogonUser result, with CloseHandle called
   * exactly once, on the token after a successful logon and on NULL after a
   * failed one; `closed` lists the handles passed to CloseHandle.
   */
  method AuthUserAccount(logonUser: Option<nat>) returns (ok: bool, closed: seq<Handle>)
    ensures ok <==> logonUser.Some?
    ensures |closed| == 1
    ensures closed[0] == if ok then Token(logonUser.value) else Null
  {
    var hToken := Null;
    ok, hToken := AuthUserAccountToken(logonUser, hToken);
    closed := [hToken];
  }
}
