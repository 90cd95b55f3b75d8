/**
 * The cloud session: the access and refresh tokens, the moment the access
 * token expires, and the base URL of the account's region. The clock is a
 * parameter, `nowMs`, in milliseconds.
 */
module Sessions {
  import opened JsValue

  const ChinaUrl := "https://px1.tuyacn.com"
  const EuropeUrl := "https://px1.tuyaeu.com"
  const AmericaUrl := "https://px1.tuyaus.com"

  /** The region lookup of the `areaCode` setter: unknown codes fall back to the US URL. */
  function AreaBaseUrl(code: string): string
  {
    if code == "AY" then ChinaUrl
    else if code == "EU" then EuropeUrl
    else if code == "US" then AmericaUrl
    else AmericaUrl
  }

  /** `Math.round(ms / 1000)`: the current time in whole seconds, halves rounded up. */
  function CurrentEpoch(nowMs: nat): (s: nat)
    ensures s * 1000 - 500 <= nowMs < s * 1000 + 500
  {
    (nowMs + 500) / 1000
  }

  /** The fields a session holds. */
  datatype SessionState = SessionState(
    accessToken: string,
    refreshToken: string,
    expiresIn: int,
    expiresOn: int,
    areaCode: string,
    areaBaseUrl: string)

  function AfterAreaCode(s: SessionState, code: string): SessionState
  {
    s.(areaCode := code, areaBaseUrl := AreaBaseUrl(code))
  }

  function AfterReset(s: SessionState, accessToken: string, refreshToken: string, expiresIn: int, nowMs: nat): SessionState
  {
    s.(accessToken := accessToken, refreshToken := refreshToken, expiresOn := CurrentEpoch(nowMs) + expiresIn)
  }

  predicate HasToken(s: SessionState)
  {
    s.accessToken != ""
  }

  predicate IsTokenExpired(s: SessionState, nowMs: nat)
  {
    s.expiresOn < CurrentEpoch(nowMs)
  }

  predicate HasValidToken(s: SessionState, nowMs: nat)
  {
    HasToken(s) && !IsTokenExpired(s, nowMs)
  }

  class Session {
    var accessToken: string
    var refreshToken: string
    /** The lifetime given to the constructor; `resetToken` does not update it. */
    var expiresIn: int
    var expiresOn: int
    var areaCode: string
    var areaBaseUrl: string

    function State(): SessionState
      reads this
    {
      SessionState(accessToken, refreshToken, expiresIn, expiresOn, areaCode, areaBaseUrl)
    }

    /** Store the parameters, then run the `areaCode` setter and `resetToken`. */
    constructor(accessToken: string, refreshToken: string, expiresIn: int, areaCode: string, nowMs: nat)
      ensures State() == AfterReset(AfterAreaCode(SessionState(accessToken, refreshToken, expiresIn, 0, areaCode, ""), areaCode),
                                    accessToken, refreshToken, expiresIn, nowMs)
    {
      this.accessToken := accessToken;
      this.refreshToken := refreshToken;
      this.expiresIn := expiresIn;
      this.expiresOn := 0;
      this.areaCode := areaCode;
      this.areaBaseUrl := "";
      new;
      SetAreaCode(areaCode);
      ResetToken(accessToken, refreshToken, expiresIn, nowMs);
    }

    /** The `areaCode` setter. */
    method SetAreaCode(code: string)
      modifies this
      ensures State() == AfterAreaCode(old(State()), code)
    {
      areaCode := code;
      areaBaseUrl := AreaBaseUrl(code);
    }

    method ResetToken(newAccessToken: string, newRefreshToken: string, newExpiresIn: int, nowMs: nat)
      modifies this
      ensures State() == AfterReset(old(State()), newAccessToken, newRefreshToken, newExpiresIn, nowMs)
    {
      accessToken := newAccessToken;
      refreshToken := newRefreshToken;
      expiresOn := CurrentEpoch(nowMs) + newExpiresIn;
    }

    method HasValid(nowMs: nat) returns (b: bool)
      ensures b <==> HasValidToken(State(), nowMs)
    {
      b := accessToken != "" && !(expiresOn < CurrentEpoch(nowMs));
    }
  }

  // ---------------------------------------------------------------------
  // Properties

  /** The three known regions get their own URL; every other code gets the US one. */
  lemma AreaLookup(code: string)
    ensures code == "AY" ==> AreaBaseUrl(code) == ChinaUrl
    ensures code == "EU" ==> AreaBaseUrl(code) == EuropeUrl
    ensures code !in {"AY", "EU"} ==> AreaBaseUrl(code) == AmericaUrl
    ensures AreaBaseUrl(code) in {ChinaUrl, EuropeUrl, AmericaUrl}
  {
  }

  /** Setting the area code touches the region only; resetting the token touches the tokens only. */
  lemma UpdatesAreIndependent(s: SessionState, code: string, a: string, r: string, e: int, nowMs: nat)
    ensures AfterReset(s, a, r, e, nowMs).areaBaseUrl == s.areaBaseUrl
    ensures AfterReset(s, a, r, e, nowMs).areaCode == s.areaCode
    ensures AfterAreaCode(s, code).accessToken == s.accessToken && AfterAreaCode(s, code).expiresOn == s.expiresOn
    ensures AfterReset(AfterAreaCode(s, code), a, r, e, nowMs) == AfterAreaCode(AfterReset(s, a, r, e, nowMs), code)
  {
  }

  /**
   * A token reset at `t0` with lifetime `e` is valid exactly until the
   * rounded clock passes `expiresOn`: it is still valid in the second
   * `expiresOn` itself, that is before `expiresOn * 1000 + 500` ms.
   */
  lemma ValidityWindow(s: SessionState, a: string, r: string, e: int, t0: nat, nowMs: nat)
    requires a != ""
    ensures var s' := AfterReset(s, a, r, e, t0);
      HasValidToken(s', nowMs) <==> nowMs < (CurrentEpoch(t0) + e) * 1000 + 500
  {
    var s' := AfterReset(s, a, r, e, t0);
    var n := CurrentEpoch(nowMs);
    var on := CurrentEpoch(t0) + e;
    if n <= on {
      assert n * 1000 <= on * 1000;
    } else {
      assert (on + 1) * 1000 <= n * 1000;
    }
  }

  /** An empty access token is never valid, whatever the clock says. */
  lemma EmptyTokenNeverValid(s: SessionState, nowMs: nat)
    requires s.accessToken == ""
    ensures !HasValidToken(s, nowMs)
  {
  }

  /** Once expired, a token stays expired as the clock moves on. */
  lemma ExpiryIsFinal(s: SessionState, t1: nat, t2: nat)
    requires t1 <= t2 && IsTokenExpired(s, t1)
    ensures IsTokenExpired(s, t2) && !HasValidToken(s, t2)
  {
    assert CurrentEpoch(t1) <= CurrentEpoch(t2) by {
      assert t1 + 500 <= t2 + 500;
    }
  }

  /** A session with lifetime 0, made at 10.4 s, is valid until 10.5 s. */
  lemma HalfSecondExample(s: SessionState)
    ensures HasValidToken(AfterReset(s, "token", "refresh", 0, 10400), 10499)
    ensures !HasValidToken(AfterReset(s, "token", "refresh", 0, 10400), 10500)
  {
  }
}
