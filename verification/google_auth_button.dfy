/** The Google sign-in button (`src/components/GoogleAuthButton.tsx`): it
    starts a Google OAuth sign-in towards a redirect target, and its label
    depends on its mode. */
module GoogleAuthButton {
  import opened Supabase

  const CallbackPath: string := "/api/auth/callback"

  datatype Mode = SignIn | SignUp

  /** The arguments handed to `auth.signInWithOAuth`. */
  datatype OAuthRequest = OAuthRequest(provider: string, redirectTo: string)

  /** `redirectTo || `${window.location.origin}/api/auth/callback``: a truthy
      prop wins, an absent or empty one falls back to this site's callback. */
  function OAuthTarget(redirectTo: Option<string>, windowOrigin: string): (url: string)
    ensures |url| > 0
    ensures redirectTo.Some? && redirectTo.value != "" ==> url == redirectTo.value
    ensures redirectTo.None? || redirectTo.value == "" ==>
              |url| == |windowOrigin| + |CallbackPath| && url[..|windowOrigin|] == windowOrigin
              && url[|windowOrigin|..] == CallbackPath
  {
    if redirectTo.Some? && redirectTo.value != "" then redirectTo.value
    else
      assert (windowOrigin + CallbackPath)[..|windowOrigin|] == windowOrigin;
      assert (windowOrigin + CallbackPath)[|windowOrigin|..] == CallbackPath;
      windowOrigin + CallbackPath
  }

  /** `handleGoogleAuth`: always the `google` provider, towards `OAuthTarget`. */
  function HandleGoogleAuth(redirectTo: Option<string>, windowOrigin: string): (req: OAuthRequest)
    ensures req.provider == "google"
    ensures req.redirectTo == OAuthTarget(redirectTo, windowOrigin)
  {
    OAuthRequest("google", OAuthTarget(redirectTo, windowOrigin))
  }

  /** The button's label. */
  function Label(mode: Mode): (caption: string)
    ensures caption == "Sign in with Google" <==> mode.SignIn?
    ensures caption == "Sign up with Google" <==> mode.SignUp?
  {
    assert "Sign in with Google"[5] != "Sign up with Google"[5];
    match mode
    case SignIn => "Sign in with Google"
    case SignUp => "Sign up with Google"
  }
}
