/**
 * The authentication sagas (src/sagas/auth.ts): the OAuth redirect check and the first login
 * notification at start-up, provider linking, and the periodic forced token refresh.
 *
 * Firebase's answers are inputs: the redirect result, the link result, the signed-in user and
 * the outcome of each token refresh attempt. What a saga does is its sequence of effects.
 */
module AuthSagas {
  import opened Wrappers
  import opened Actions

  const CredentialAlreadyInUse := "auth/credential-already-in-use"
  const WebStorageUnsupported := "auth/web-storage-unsupported"
  const ProviderAlreadyLinked := "auth/provider-already-linked"
  const UnsupportedBrowserMessage := "Your browser is not supported or has " + "third party cookies disabled."
  const RedirectFailurePrefix := "Failed to perform OAuth "
  const AlreadyLinkedPrefix := "Failed to start OAuth because the account is already linked with an account from "
  const LinkFailurePrefix := "Failed to start OAuth with code "

  /** The error an auth call throws: its code, message and, for some codes, a credential. */
  datatype AuthError = AuthError(code: string, message: string, credential: Option<Credential>)

  datatype RedirectResult = RedirectOk | RedirectFailed(error: AuthError)

  /** The outcome of requireAuth followed by linkWithRedirect. */
  datatype LinkResult = LinkStarted | LinkFailed(error: AuthError)

  // ---------------------------------------------------------------------------
  // checkInitialLogin: the provider id loses its first ".com"

  predicate OccursAt(s: string, pat: string, i: nat) {
    i + |pat| <= |s| && s[i..i + |pat|] == pat
  }

  /** The first position at or after `from` where `pat` occurs in `s`. */
  function IndexOfFrom(s: string, pat: string, from: nat): (r: Option<nat>)
    ensures r.Some? ==> from <= r.value && OccursAt(s, pat, r.value)
    ensures r.Some? ==> forall j: nat :: from <= j < r.value ==> !OccursAt(s, pat, j)
    ensures r.None? ==> forall j: nat :: from <= j ==> !OccursAt(s, pat, j)
    decreases |s| - from
  {
    if from + |pat| > |s| then None
    else if s[from..from + |pat|] == pat then Some(from)
    else IndexOfFrom(s, pat, from + 1)
  }

  /** `s.replace(pat, replacement)` with a string pattern: only the first occurrence is replaced. */
  function ReplaceFirst(s: string, pat: string, replacement: string): (r: string)
    ensures r == s || |r| == |s| - |pat| + |replacement|
    ensures (forall j: nat :: !OccursAt(s, pat, j)) ==> r == s
    ensures forall i: nat :: OccursAt(s, pat, i) && (forall j: nat :: j < i ==> !OccursAt(s, pat, j))
                        ==> r == s[..i] + replacement + s[i + |pat|..]
  {
    match IndexOfFrom(s, pat, 0)
    case None => s
    case Some(i) => s[..i] + replacement + s[i + |pat|..]
  }

  /** The provider id with its first ".com" removed: unchanged, or exactly four characters shorter. */
  function StripProviderId(providerId: string): (r: string)
    ensures r == providerId || |r| + 4 == |providerId|
    ensures (forall j: nat :: !OccursAt(providerId, ".com", j)) ==> r == providerId
  {
    ReplaceFirst(providerId, ".com", "")
  }

  /** A provider id of the form `<name>.com`, with no dot in the name, strips to the name. */
  lemma StripDotCom(name: string)
    requires '.' !in name
    ensures StripProviderId(name + ".com") == name
  {
    var s := name + ".com";
    forall j: nat | j < |name| ensures !OccursAt(s, ".com", j) {
      assert s[j] == name[j] != '.';
      if j + 4 <= |s| {
        assert s[j..j + 4][0] == s[j];
      }
    }
    assert s[|name|..|name| + 4] == ".com";
    assert s[..|name|] == name;
  }

  /** For example 'google.com' becomes 'google', and only the first ".com" goes. */
  lemma StripExamples()
    ensures StripProviderId("google" + ".com") == "google"
    ensures StripProviderId("facebook" + ".com") == "facebook"
    ensures StripProviderId("password") == "password"
  {
    StripDotCom("google");
    StripDotCom("facebook");
    NoDotNoDotCom("password");
  }

  /** Without a dot, there is no ".com" to strip. */
  lemma NoDotNoDotCom(s: string)
    requires '.' !in s
    ensures StripProviderId(s) == s
  {
    forall j: nat ensures !OccursAt(s, ".com", j) {
      if j + 4 <= |s| {
        assert s[j..j + 4][0] == s[j] != '.';
      }
    }
  }

  /** checkInitialLogin: nothing for an anonymous user, else the stripped provider and the user. */
  function InitialLoginEffects(user: User): (es: seq<Effect>)
    ensures es == [] <==> user.isAnonymous
    ensures |es| <= 1
    ensures forall e :: e in es ==>
      e.Put? && e.action.NotifyAuthStatusKnown? && e.action.user == user && |e.action.provider| <= |user.providerId|
  {
    if user.isAnonymous then []
    else [Put(NotifyAuthStatusKnown(StripProviderId(user.providerId), user))]
  }

  /** An anonymous user is not announced; any other user is announced once, with its stripped provider id. */
  lemma InitialLoginAnnouncesSignedInUsers(user: User)
    ensures user.isAnonymous <==> InitialLoginEffects(user) == []
    ensures !user.isAnonymous && user.providerId == "google" + ".com" ==>
      InitialLoginEffects(user) == [Put(NotifyAuthStatusKnown("google", user))]
  {
    StripExamples();
  }

  // ---------------------------------------------------------------------------
  // handleOAuthRedirect

  /** The provider a redirect failure is tagged with: the credential's, else 'firebase'. */
  function FailureProvider(err: AuthError): (p: string)
    ensures p != ""
    ensures p == "firebase" || (err.credential.Some? && p == err.credential.value.providerId)
    ensures err.credential.None? ==> p == "firebase"
  {
    if err.credential.Some? && err.credential.value.providerId != "" then err.credential.value.providerId
    else "firebase"
  }

  function RedirectFailureMessage(err: AuthError): (m: string)
    ensures m != ""
    ensures err.code != WebStorageUnsupported ==>
      && |RedirectFailurePrefix| + |err.code| <= |m|
      && m[..|RedirectFailurePrefix|] == RedirectFailurePrefix
      && m[|RedirectFailurePrefix|..|RedirectFailurePrefix| + |err.code|] == err.code
      && m[|RedirectFailurePrefix| + |err.code|..] == ": " + err.message
  {
    if err.code == WebStorageUnsupported then UnsupportedBrowserMessage
    else RedirectFailurePrefix + err.code + ": " + err.message
  }

  /** The effects of handleOAuthRedirect for the redirect result Firebase gives back. */
  function OAuthRedirectEffects(result: RedirectResult): (es: seq<Effect>)
    ensures |es| <= 1
    ensures es == [] <==> result.RedirectOk?
    ensures forall e :: e in es ==> e.SignInWithCredential? || (e.Put? && e.action.ExchangeCodeFail?)
  {
    match result
    case RedirectOk => []
    case RedirectFailed(err) =>
      if err.code == CredentialAlreadyInUse then [SignInWithCredential(err.credential)]
      else [Put(ExchangeCodeFail(FailureProvider(err), RedirectFailureMessage(err)))]
  }

  /** A redirect failure is reported exactly when it is not a credential conflict; a conflict signs in with the credential instead. */
  lemma RedirectFailureReportedIff(result: RedirectResult)
    ensures (exists e :: e in OAuthRedirectEffects(result) && e.Put? && e.action.ExchangeCodeFail?)
        <==> result.RedirectFailed? && result.error.code != CredentialAlreadyInUse
    ensures result.RedirectFailed? && result.error.code == CredentialAlreadyInUse ==>
      OAuthRedirectEffects(result) == [SignInWithCredential(result.error.credential)]
    ensures |OAuthRedirectEffects(result)| <= 1
  {
    if result.RedirectFailed? && result.error.code != CredentialAlreadyInUse {
      assert OAuthRedirectEffects(result)[0] in OAuthRedirectEffects(result);
    }
  }

  /** A reported redirect failure names the credential's provider when it has one, else 'firebase'. */
  lemma RedirectFailureProvider(err: AuthError)
    requires err.code != CredentialAlreadyInUse
    ensures var e := OAuthRedirectEffects(RedirectFailed(err))[0].action;
      && (err.credential.Some? && err.credential.value.providerId != "" ==> e.provider == err.credential.value.providerId)
      && (err.credential.None? || err.credential.value.providerId == "" ==> e.provider == "firebase")
  {
  }

  /** The unsupported-browser message is given exactly for the web-storage code; every other code is quoted in a generic message. */
  lemma RedirectMessageClassifies(err: AuthError)
    ensures RedirectFailureMessage(err) == UnsupportedBrowserMessage <==> err.code == WebStorageUnsupported
    ensures err.code != WebStorageUnsupported ==>
      var m := RedirectFailureMessage(err);
      && m[..|RedirectFailurePrefix|] == RedirectFailurePrefix
      && m[|RedirectFailurePrefix|..|RedirectFailurePrefix| + |err.code|] == err.code
      && m[|RedirectFailurePrefix| + |err.code|..] == ": " + err.message
  {
    if err.code != WebStorageUnsupported {
      var m := RedirectFailureMessage(err);
      assert m[0] == RedirectFailurePrefix[0] == 'F';
      assert UnsupportedBrowserMessage[0] == "Your browser is not supported or has "[0] == 'Y';
    }
  }

  /** The start-up part of the root saga: the redirect check, then checkInitialLogin. */
  function StartupEffects(redirect: RedirectResult, user: User): (es: seq<Effect>)
    ensures |es| <= 2
    ensures user.isAnonymous ==> es == OAuthRedirectEffects(redirect)
    ensures redirect.RedirectOk? ==> es == InitialLoginEffects(user)
  {
    OAuthRedirectEffects(redirect) + InitialLoginEffects(user)
  }

  /** Credential-conflict recovery: the session is recovered with the conflicting credential and no failure is reported. */
  lemma CredentialConflictRecovers(err: AuthError, user: User)
    requires err.code == CredentialAlreadyInUse
    ensures var es := StartupEffects(RedirectFailed(err), user);
      && es[0] == SignInWithCredential(err.credential)
      && forall e :: e in es ==> !(e.Put? && e.action.ExchangeCodeFail?)
  {
  }

  // ---------------------------------------------------------------------------
  // triggerOAuthLogin

  function LinkFailureMessage(provider: string, err: AuthError): (m: string)
    ensures err.code == ProviderAlreadyLinked ==>
      |AlreadyLinkedPrefix| <= |m| && m[..|AlreadyLinkedPrefix|] == AlreadyLinkedPrefix
    ensures err.code != ProviderAlreadyLinked ==>
      && |LinkFailurePrefix| + |err.code| <= |m|
      && m[..|LinkFailurePrefix|] == LinkFailurePrefix
      && m[|LinkFailurePrefix|..|LinkFailurePrefix| + |err.code|] == err.code
      && m[|LinkFailurePrefix| + |err.code|..] == ": " + err.message
  {
    if err.code == ProviderAlreadyLinked then AlreadyLinkedPrefix + provider + "."
    else LinkFailurePrefix + err.code + ": " + err.message
  }

  /** The effects of triggerOAuthLogin for the requested provider; 'spotify' is handled elsewhere. */
  function OAuthLoginEffects(provider: string, link: LinkResult): (es: seq<Effect>)
    ensures |es| <= 1
    ensures link.LinkStarted? ==> es == []
    ensures forall e :: e in es ==> e.Put? && e.action.ExchangeCodeFail?
  {
    if provider == "spotify" then []
    else match link
      case LinkStarted => []
      case LinkFailed(err) => [Put(ExchangeCodeFail(provider, LinkFailureMessage(provider, err)))]
  }

  /** 'spotify' does nothing; otherwise a failure is reported exactly when linking fails, tagged with the requested provider. */
  lemma LinkFailureReportedIff(provider: string, link: LinkResult)
    ensures provider == "spotify" ==> OAuthLoginEffects(provider, link) == []
    ensures OAuthLoginEffects(provider, link) != [] <==> provider != "spotify" && link.LinkFailed?
    ensures forall e :: e in OAuthLoginEffects(provider, link) ==>
      e.Put? && e.action.ExchangeCodeFail? && e.action.provider == provider
  {
  }

  /** An already-linked failure names the requested provider; any other code is quoted. */
  lemma LinkMessageClassifies(provider: string, err: AuthError)
    ensures err.code == ProviderAlreadyLinked ==>
      var m := LinkFailureMessage(provider, err);
      m[|AlreadyLinkedPrefix|..|AlreadyLinkedPrefix| + |provider|] == provider
    ensures err.code != ProviderAlreadyLinked ==>
      var m := LinkFailureMessage(provider, err);
      && m[..|LinkFailurePrefix|] == LinkFailurePrefix
      && m[|LinkFailurePrefix|..|LinkFailurePrefix| + |err.code|] == err.code
      && m[|LinkFailurePrefix| + |err.code|..] == ": " + err.message
  {
  }

  // ---------------------------------------------------------------------------
  // refreshFirebaseAuth: one interval of the loop

  /** 55 minutes between forced refreshes. */
  const RefreshIntervalMs: nat := 1000 * 60 * 55
  const MaxAttempts: nat := 5

  /** The wait after failed attempt i (counting from 0). */
  function BackoffMs(i: nat): nat {
    5000 * i
  }

  datatype RefreshStep = Wait(ms: nat) | GetIdToken(attempt: nat, succeeded: bool)

  /** The retry loop from attempt i on, given the outcome of every attempt. */
  function RetryTrace(outcomes: seq<bool>, i: nat): (t: seq<RefreshStep>)
    requires |outcomes| >= MaxAttempts
    ensures i <= MaxAttempts ==> |t| <= 2 * (MaxAttempts - i)
    ensures i >= MaxAttempts ==> t == []
    ensures i < MaxAttempts ==> |t| >= 1 && t[0] == GetIdToken(i, outcomes[i])
    decreases MaxAttempts - i
  {
    if i >= MaxAttempts then []
    else if outcomes[i] then [GetIdToken(i, true)]
    else [GetIdToken(i, false), Wait(BackoffMs(i))] + RetryTrace(outcomes, i + 1)
  }

  /** One interval: the 55-minute wait, then the retries if there is a current user. */
  function IntervalTrace(hasCurrentUser: bool, outcomes: seq<bool>): (t: seq<RefreshStep>)
    requires |outcomes| >= MaxAttempts
    ensures 1 <= |t| <= 1 + 2 * MaxAttempts
    ensures t[0] == Wait(RefreshIntervalMs)
    ensures !hasCurrentUser ==> |t| == 1
  {
    [Wait(RefreshIntervalMs)] + (if hasCurrentUser then RetryTrace(outcomes, 0) else [])
  }

  /** The first attempt from i on that succeeds, or MaxAttempts when none does. */
  function FirstSuccess(outcomes: seq<bool>, i: nat): (k: nat)
    requires |outcomes| >= MaxAttempts && i <= MaxAttempts
    ensures i <= k <= MaxAttempts
    ensures k < MaxAttempts ==> outcomes[k]
    ensures forall j :: i <= j < k ==> !outcomes[j]
    decreases MaxAttempts - i
  {
    if i == MaxAttempts || outcomes[i] then i else FirstSuccess(outcomes, i + 1)
  }

  /**
   * The retries alternate attempt, wait: attempt i is followed by a wait of 5000*i ms when it
   * fails; they stop after the first success, or after five attempts.
   */
  lemma {:induction false} RetryTraceShape(outcomes: seq<bool>, i: nat)
    requires |outcomes| >= MaxAttempts && i <= MaxAttempts
    ensures var t, k := RetryTrace(outcomes, i), FirstSuccess(outcomes, i);
      && |t| == (if k < MaxAttempts then 2 * (k - i) + 1 else 2 * (k - i))
      && (forall a: nat :: 2 * a < |t| ==> t[2 * a] == GetIdToken(i + a, outcomes[i + a]))
      && (forall a: nat :: 2 * a + 1 < |t| ==> t[2 * a + 1] == Wait(BackoffMs(i + a)))
    decreases MaxAttempts - i
  {
    if i < MaxAttempts && !outcomes[i] {
      RetryTraceShape(outcomes, i + 1);
      var t, t' := RetryTrace(outcomes, i), RetryTrace(outcomes, i + 1);
      assert t == [GetIdToken(i, false), Wait(BackoffMs(i))] + t';
      forall a: nat | 1 <= a && 2 * a < |t| ensures t[2 * a] == GetIdToken(i + a, outcomes[i + a]) {
        assert t[2 * a] == t'[2 * (a - 1)];
      }
      forall a: nat | 1 <= a && 2 * a + 1 < |t| ensures t[2 * a + 1] == Wait(BackoffMs(i + a)) {
        assert t[2 * a + 1] == t'[2 * (a - 1) + 1];
      }
    }
  }

  /** At most five attempts per interval, and the first success is the last attempt. */
  lemma AttemptsPerInterval(outcomes: seq<bool>)
    requires |outcomes| >= MaxAttempts
    ensures var t, k := RetryTrace(outcomes, 0), FirstSuccess(outcomes, 0);
      && |t| <= 2 * MaxAttempts
      && (k < MaxAttempts ==> t[|t| - 1] == GetIdToken(k, true))
      && (forall a: nat :: 2 * a < |t| - 1 ==> t[2 * a] == GetIdToken(a, false))
  {
    RetryTraceShape(outcomes, 0);
    var t, k := RetryTrace(outcomes, 0), FirstSuccess(outcomes, 0);
    if k < MaxAttempts {
      assert t[2 * k] == GetIdToken(k, true);
    }
  }

  /** A failed attempt i is followed by its wait and the retries from i + 1. */
  lemma RetryAfterFailure(outcomes: seq<bool>, i: nat)
    requires |outcomes| >= MaxAttempts && i < MaxAttempts && !outcomes[i]
    ensures RetryTrace(outcomes, i) == [GetIdToken(i, false), Wait(5000 * i)] + RetryTrace(outcomes, i + 1)
  {
  }

  /** Five failures: waits of 0, 5, 10, 15 and 20 seconds, then nothing until the next interval. */
  lemma AllFailuresBackOffLinearly(outcomes: seq<bool>)
    requires |outcomes| >= MaxAttempts
    requires forall i :: 0 <= i < MaxAttempts ==> !outcomes[i]
    ensures RetryTrace(outcomes, 0) == [
      GetIdToken(0, false), Wait(0), GetIdToken(1, false), Wait(5000), GetIdToken(2, false), Wait(10000),
      GetIdToken(3, false), Wait(15000), GetIdToken(4, false), Wait(20000)]
  {
    RetryAfterFailure(outcomes, 4);
    RetryAfterFailure(outcomes, 3);
    RetryAfterFailure(outcomes, 2);
    RetryAfterFailure(outcomes, 1);
    RetryAfterFailure(outcomes, 0);
  }

  /** Three failures and a success: waits of 0, 5 and 10 seconds, then the fourth attempt succeeds. */
  lemma ThreeFailuresThenSuccess(outcomes: seq<bool>)
    requires |outcomes| >= MaxAttempts
    requires !outcomes[0] && !outcomes[1] && !outcomes[2] && outcomes[3]
    ensures RetryTrace(outcomes, 0) == [
      GetIdToken(0, false), Wait(0), GetIdToken(1, false), Wait(5000), GetIdToken(2, false), Wait(10000),
      GetIdToken(3, true)]
  {
    RetryAfterFailure(outcomes, 2);
    RetryAfterFailure(outcomes, 1);
    RetryAfterFailure(outcomes, 0);
  }

  /** One interval of refreshFirebaseAuth, the retry loop included. */
  method RefreshInterval(hasCurrentUser: bool, outcomes: seq<bool>) returns (trace: seq<RefreshStep>)
    requires |outcomes| >= MaxAttempts
    ensures trace == IntervalTrace(hasCurrentUser, outcomes)
    ensures !hasCurrentUser ==> trace == [Wait(RefreshIntervalMs)]
  {
    trace := [Wait(RefreshIntervalMs)];
    if !hasCurrentUser {
      return;
    }
    for i := 0 to MaxAttempts
      invariant trace + RetryTrace(outcomes, i) == IntervalTrace(true, outcomes)
    {
      if outcomes[i] {
        trace := trace + [GetIdToken(i, true)];
        break;
      }
      var duration := BackoffMs(i);
      trace := trace + [GetIdToken(i, false), Wait(duration)];
    }
  }
}
