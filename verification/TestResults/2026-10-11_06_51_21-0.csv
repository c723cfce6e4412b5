TestResult.DisplayName,TestResult.Outcome,TestResult.Duration,TestResult.ResourceCount,RandomSeed
DashboardLayout.AfterFetch (well-formedness),Passed,00:00:00.2678050,421913,0
DashboardLayout.LatchedSignalPushesNothing (correctness),Passed,00:00:00.2444671,388668,0
HomePage.CheckSession (well-formedness),Passed,00:00:00.1730241,43354,0
DashboardLayout.DashboardLayoutView.FetchUserData (correctness),Passed,00:00:00.1684632,308049,0
HomePage.OnlyPresenceMatters (correctness),Passed,00:00:00.1607088,39120,0
LoginPage.OnlyDashboard (correctness),Passed,00:00:00.1424184,169258,0
LoginPage.ReleasedListenerIsSilent (correctness),Passed,00:00:00.1354587,128362,0
GoogleAuthButton.OAuthTarget (well-formedness),Passed,00:00:00.1336729,37413,0
DashboardPage.AfterFetchTeams (well-formedness),Passed,00:00:00.1093697,68554,0
SignupPage.MissingOriginDefeatsFallback (correctness),Passed,00:00:00.1049899,31811,0
DashboardLayout.RepeatedSignOut (correctness),Passed,00:00:00.0894364,64453,0
LoginPage.RedirectToStaysNonEmpty (correctness),Passed,00:00:00.0892380,75982,0
DashboardPage.View (well-formedness),Passed,00:00:00.0741008,18486,0
DashboardLayout.DashboardLayoutView.HandleSignOut (correctness),Passed,00:00:00.0699478,132267,0
DashboardLayout.LatchNeverResets (correctness),Passed,00:00:00.0685013,102397,0
DashboardLayout.RunKeepsConsistent (correctness),Passed,00:00:00.0626209,91580,0
LoginPage.ProbeAndListenerBothPush (correctness),Passed,00:00:00.0552807,127210,0
DashboardPage.DashboardPageView.FetchTeams (correctness),Passed,00:00:00.0532420,85265,0
LoginPage.ReleasedListenerIsSilent (well-formedness),Passed,00:00:00.0519404,71144,0
DashboardLayout.AtMostOneNavigation (correctness),Passed,00:00:00.0505741,85044,0
SignupPage.SignUp (well-formedness),Passed,00:00:00.0479958,70734,0
LoginPage.LoginPageView.ComputeRedirectTo (correctness),Passed,00:00:00.0451476,109031,0
DashboardLayout.Run (well-formedness),Passed,00:00:00.0431252,76234,0
LoginPage.OnlyDashboard (well-formedness),Passed,00:00:00.0407347,57182,0
DashboardLayout.DashboardLayoutView.FetchUserData (well-formedness),Passed,00:00:00.0407139,68604,0
LoginPage.LoginPageView.CheckSession (correctness),Passed,00:00:00.0397409,64211,0
LoginPage.Run (well-formedness),Passed,00:00:00.0390382,56954,0
DashboardPage.NoSessionShowsPrompt (correctness),Passed,00:00:00.0378528,60672,0
DashboardLayout.DashboardLayoutView._ctor (correctness),Passed,00:00:00.0374030,67109,0
LoginPage.LoginPageView.OnAuthStateChange (correctness),Passed,00:00:00.0353509,44897,0
DashboardLayout.DashboardLayoutView.HandleSignOut (well-formedness),Passed,00:00:00.0351139,50210,0
DashboardPage.DashboardPageView.FetchTeams (well-formedness),Passed,00:00:00.0302640,48964,0
LoginPage.LoginPageView.CheckSession (well-formedness),Passed,00:00:00.0290658,33986,0
DashboardLayout.Pushes (well-formedness),Passed,00:00:00.0290618,30219,0
Supabase.TeamsOf (well-formedness),Passed,00:00:00.0290336,40765,0
LoginPage.LoginPageView._ctor (correctness),Passed,00:00:00.0285207,28737,0
DashboardLayout.AfterSignOut (well-formedness),Passed,00:00:00.0284652,62059,0
ServerIndex.Index (well-formedness),Passed,00:00:00.0283818,45092,0
GoogleAuthButton.Label (well-formedness),Passed,00:00:00.0281290,54303,0
SignupPage.CallbackUrl (well-formedness),Passed,00:00:00.0279424,28876,0
GoogleAuthButton.HandleGoogleAuth (well-formedness),Passed,00:00:00.0277854,31874,0
LoginPage.LoginPageView.SetupAuthListener (correctness),Passed,00:00:00.0270532,33259,0
LoginPage.LoginPageView.OnAuthStateChange (well-formedness),Passed,00:00:00.0264992,31842,0
LoginPage.LoginPageView.Cleanup (correctness),Passed,00:00:00.0258755,33769,0
SignupPage.GoogleButtonTargetAsWritten (well-formedness),Passed,00:00:00.0246486,30592,0
DashboardLayout.AnyWantsLogin (well-formedness),Passed,00:00:00.0246173,25364,0
DashboardLayout.RedirectOnce (well-formedness),Passed,00:00:00.0241101,53288,0
DashboardLayout.WantsLogin (well-formedness),Passed,00:00:00.0234729,18708,0
DashboardLayout.PushesSnoc (correctness),Passed,00:00:00.0232867,23767,0
LoginPage.AfterCheckSession (well-formedness),Passed,00:00:00.0229352,37917,0
LoginPage.AfterSearchParams (well-formedness),Passed,00:00:00.0222828,32774,0
DashboardLayout.Mounted (well-formedness),Passed,00:00:00.0215928,40007,0
DashboardPage.DashboardPageView._ctor (correctness),Passed,00:00:00.0212343,26355,0
LoginPage.RedirectTarget (well-formedness),Passed,00:00:00.0211849,31803,0
LoginPage.AfterAuthEvent (well-formedness),Passed,00:00:00.0210119,31330,0
SignupPage.OriginText (well-formedness),Passed,00:00:00.0209002,14616,0
SignupPage.GoogleButtonTargetIsOnAnOrigin (well-formedness),Passed,00:00:00.0206072,38619,0
LoginPage.LoginPageView.ComputeRedirectTo (well-formedness),Passed,00:00:00.0201446,35281,0
DashboardLayout.DashboardLayoutView.Valid (well-formedness),Passed,00:00:00.0196259,37396,0
LoginPage.LoginPageView.Cleanup (well-formedness),Passed,00:00:00.0194870,20342,0
SignupPage.GoogleButtonTargetIsOnAnOrigin (correctness),Passed,00:00:00.0176476,35085,0
LoginPage.Mounted (well-formedness),Passed,00:00:00.0170890,13123,0
DashboardPage.DashboardPageView.State (well-formedness),Passed,00:00:00.0157877,16764,0
SignupPage.GoogleButtonRedirectTo (well-formedness),Passed,00:00:00.0152507,27891,0
LoginPage.LoginPageView.SetupAuthListener (well-formedness),Passed,00:00:00.0149805,20340,0
SignupPage.ShowsMessageBanner (well-formedness),Passed,00:00:00.0147947,11195,0
DashboardLayout.QueryOf (well-formedness),Passed,00:00:00.0145391,22364,0
DashboardLayout.DashboardLayoutView.State (well-formedness),Passed,00:00:00.0142094,21569,0
LoginPage.AfterSubscribe (well-formedness),Passed,00:00:00.0134941,14377,0
LoginPage.LoginPageView.State (well-formedness),Passed,00:00:00.0133362,17976,0
LoginPage.AlreadySignedIn (well-formedness),Passed,00:00:00.0124322,8367,0
ServerIndex.SignOutAction (well-formedness),Passed,00:00:00.0116791,20914,0
DashboardPage.Mounted (well-formedness),Passed,00:00:00.0115914,12833,0
DashboardPage.RowsArrived (well-formedness),Passed,00:00:00.0106313,15334,0
DashboardLayout.PushOf (well-formedness),Passed,00:00:00.0096075,10130,0
Supabase.HasSession (well-formedness),Passed,00:00:00.0094878,8110,0
LoginPage.AfterCleanup (well-formedness),Passed,00:00:00.0093213,14402,0
LoginPage.BaseUrl (well-formedness),Passed,00:00:00.0092616,10714,0
ServerIndex.CanInitSupabaseClient (well-formedness),Passed,00:00:00.0069795,6595,0
DashboardPage.DashboardPageView.OnCreateTeam (well-formedness),Passed,00:00:00.0064413,4316,0
DashboardPage.DashboardPageView.OnCreateTeam (correctness),Passed,00:00:00.0060652,3412,0
