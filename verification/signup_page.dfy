/** The sign-up page (`src/app/signup/page.tsx`): its `signUp` server action
    forwards the form to the identity provider and redirects according to the
    result; the page shows the `message` search parameter as a banner and
    renders the Google button in sign-up mode. */
module SignupPage {
  import opened Supabase
  import GoogleAuthButton

  const SignupFailedUrl: string := "/signup?message=Could not create account"
  const CheckEmailUrl: string := "/login?message=Check email to continue sign in process"

  /** `${origin}` for `headers().get('origin')`: a missing header is `null`,
      which a template literal renders as the text "null". */
  function OriginText(origin: Option<string>): (text: string)
    ensures origin.Some? ==> text == origin.value
    ensures origin.None? ==> text == "null"
  {
    if origin.Some? then origin.value else "null"
  }

  /** `${origin}/api/auth/callback`: the origin's text, then the callback path. */
  function CallbackUrl(origin: Option<string>): (url: string)
    ensures |url| == |OriginText(origin)| + |GoogleAuthButton.CallbackPath|
    ensures url[..|OriginText(origin)|] == OriginText(origin)
    ensures url[|OriginText(origin)|..] == GoogleAuthButton.CallbackPath
  {
    var prefix := OriginText(origin);
    assert (prefix + GoogleAuthButton.CallbackPath)[..|prefix|] == prefix;
    assert (prefix + GoogleAuthButton.CallbackPath)[|prefix|..] == GoogleAuthButton.CallbackPath;
    prefix + GoogleAuthButton.CallbackPath
  }

  /** The arguments of `auth.signUp`. */
  datatype SignUpRequest = SignUpRequest(email: string, password: string, emailRedirectTo: string)

  /** What one submission does: the request it sends and where it redirects. */
  datatype Submission = Submission(request: SignUpRequest, redirect: string)

  /** `signUp`, given the form fields, the request's origin header and
      whether the provider reported an error. */
  function SignUp(email: string, password: string, origin: Option<string>, signUpFailed: bool): (r: Submission)
    // the form fields are forwarded unchanged, with the callback on the request's origin
    ensures r.request.email == email && r.request.password == password
    ensures r.request.emailRedirectTo == CallbackUrl(origin)
    // exactly one of the two redirects, chosen by the error
    ensures r.redirect == SignupFailedUrl <==> signUpFailed
    ensures r.redirect == CheckEmailUrl <==> !signUpFailed
  {
    assert |SignupFailedUrl| != |CheckEmailUrl|;
    var request := SignUpRequest(email, password, CallbackUrl(origin));
    if signUpFailed then Submission(request, SignupFailedUrl)
    else Submission(request, CheckEmailUrl)
  }

  /** `searchParams?.message && ...`: the banner shows for a present,
      non-empty message only. */
  function ShowsMessageBanner(message: Option<string>): (shown: bool)
    ensures shown <==> message.Some? && |message.value| > 0
  {
    match message
    case None => false
    case Some(text) => text != ""
  }

  /** AS WRITTEN: the target the page's Google button signs in towards. The
      page passes `${headers().get('origin')}/api/auth/callback` as the
      button's `redirectTo`, and the button falls back to its own window's
      origin only for a falsy prop. */
  function GoogleButtonTargetAsWritten(origin: Option<string>, windowOrigin: string): (url: string)
    ensures url == CallbackUrl(origin)
  {
    GoogleAuthButton.OAuthTarget(Some(CallbackUrl(origin)), windowOrigin)
  }

  /** Without an origin header the prop is the text "null/api/auth/callback",
      which is truthy, so the button's fallback never runs and the OAuth
      provider is sent back to a path that is not on this site. */
  lemma MissingOriginDefeatsFallback(windowOrigin: string)
    requires windowOrigin != "null"
    ensures GoogleButtonTargetAsWritten(None, windowOrigin) == "null" + GoogleAuthButton.CallbackPath
    ensures GoogleButtonTargetAsWritten(None, windowOrigin) != windowOrigin + GoogleAuthButton.CallbackPath
  {
    var asWritten := GoogleButtonTargetAsWritten(None, windowOrigin);
    assert asWritten == "null" + GoogleAuthButton.CallbackPath;
  }

  /** CORRECTED: the `redirectTo` prop the page evidently means to pass --
      its origin's callback when the header is present, and nothing (so the
      button falls back to its window's origin) when it is absent. */
  function GoogleButtonRedirectTo(origin: Option<string>): (prop: Option<string>)
    ensures origin.Some? ==> prop == Some(CallbackUrl(origin))
    ensures origin.None? ==> prop.None?
  {
    if origin.Some? then Some(CallbackUrl(origin)) else None
  }

  /** With the corrected prop the button always signs in towards the
      callback path on an actual origin: the request's when it has one,
      otherwise the window's. */
  lemma GoogleButtonTargetIsOnAnOrigin(origin: Option<string>, windowOrigin: string)
    ensures var url := GoogleAuthButton.OAuthTarget(GoogleButtonRedirectTo(origin), windowOrigin);
            var base := if origin.Some? then origin.value else windowOrigin;
            |url| == |base| + |GoogleAuthButton.CallbackPath| && url[..|base|] == base
            && url[|base|..] == GoogleAuthButton.CallbackPath
  {
    if origin.Some? {
      var url := CallbackUrl(origin);
      assert url != "";
    }
  }
}
