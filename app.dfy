/**
 * The app shell: whether someone is signed in, who, which sign-in screen or
 * which app screen is current, and whether a sign-in is in progress; the
 * login, registration, Google login and logout handlers that update them;
 * and the choice of the screen to render.
 */
module App {
  import opened Prelude
  import RS = RegisterScreen

  /** The signed-in user's profile; it has no password field. */
  datatype User = User(name: string, email: string, phone: string)

  datatype AuthScreen = Welcome | Login | Register
  datatype AppScreen = Home | Video | Records | Medicine | Symptoms

  /** The screens as rendered components. */
  datatype View =
    | WelcomeView | LoginView | RegisterView
    | HomeView | VideoView | RecordsView | MedicineView | SymptomsView
  {
    predicate IsAuthView() { WelcomeView? || LoginView? || RegisterView? }
  }

  /** The string value a navigation callback stores for a sign-in screen. */
  function AuthScreenName(s: AuthScreen): string {
    match s
    case Welcome => "welcome"
    case Login => "login"
    case Register => "register"
  }

  function AppScreenName(s: AppScreen): string {
    match s
    case Home => "home"
    case Video => "video"
    case Records => "records"
    case Medicine => "medicine"
    case Symptoms => "symptoms"
  }

  function AuthView(s: AuthScreen): View {
    match s
    case Welcome => WelcomeView
    case Login => LoginView
    case Register => RegisterView
  }

  function AppView(s: AppScreen): View {
    match s
    case Home => HomeView
    case Video => VideoView
    case Records => RecordsView
    case Medicine => MedicineView
    case Symptoms => SymptomsView
  }

  /** `renderAuthScreen`: the switch on the stored value, falling back to the welcome screen. */
  function RenderAuthScreen(screen: string): (v: View)
    ensures v.IsAuthView()
    ensures forall s :: screen == AuthScreenName(s) ==> v == AuthView(s)
    ensures (forall s :: screen != AuthScreenName(s)) ==> v == WelcomeView
  {
    assert AuthScreenName(Login) == "login" && AuthScreenName(Register) == "register";
    if screen == "welcome" then WelcomeView
    else if screen == "login" then LoginView
    else if screen == "register" then RegisterView
    else WelcomeView
  }

  /** `renderAppScreen`: the switch on the stored value, falling back to the home screen. */
  function RenderAppScreen(screen: string): (v: View)
    ensures !v.IsAuthView()
    ensures forall s :: screen == AppScreenName(s) ==> v == AppView(s)
    ensures (forall s :: screen != AppScreenName(s)) ==> v == HomeView
  {
    assert AppScreenName(Video) == "video" && AppScreenName(Records) == "records";
    assert AppScreenName(Medicine) == "medicine" && AppScreenName(Symptoms) == "symptoms";
    if screen == "home" then HomeView
    else if screen == "video" then VideoView
    else if screen == "records" then RecordsView
    else if screen == "medicine" then MedicineView
    else if screen == "symptoms" then SymptomsView
    else HomeView
  }

  /**
   * `email.split('@')[0]`: the longest prefix of the address without an `@`,
   * which is the part before the first `@`, or the whole string if there is none.
   */
  function EmailPrefix(email: string): (r: string)
    ensures |r| <= |email| && r == email[..|r|]
    ensures '@' !in r
    ensures |r| < |email| ==> email[|r|] == '@'
  {
    if email == [] || email[0] == '@' then ""
    else
      var rest := EmailPrefix(email[1..]);
      assert email == [email[0]] + email[1..];
      [email[0]] + rest
  }

  /** For a local part without `@`, the name is exactly that local part, whatever follows the `@`. */
  lemma EmailPrefixOfAddress(local: string, domain: string)
    requires '@' !in local
    ensures EmailPrefix(local + "@" + domain) == local
  {
    var email := local + "@" + domain;
    assert email[|local|] == '@';
    assert email[..|local|] == local;
  }

  /** An address without `@` is its own name. */
  lemma EmailPrefixWithoutAt(email: string)
    requires '@' !in email
    ensures EmailPrefix(email) == email
  {
  }

  /** The phone number every login by email is given. */
  const LoginPhone := "+91 98765 43210"

  /** The profile every Google login is given. */
  const GoogleUser := User("ਗੁਰਪ੍ਰੀਤ ਸਿੰਘ", "google.user@gmail.com", "+91 99999 88888")

  /** The state cells of `App`. Screen values are kept as the strings the switches test. */
  class AppState {
    var isAuthenticated: bool
    var currentAuthScreen: string
    var currentAppScreen: string
    var user: Option<User>
    var authLoading: bool

    /** A user is present exactly when the app is authenticated. */
    predicate Valid()
      reads this
    {
      isAuthenticated <==> user.Some?
    }

    constructor ()
      ensures Valid()
      ensures !isAuthenticated && user == None && !authLoading
      ensures currentAuthScreen == "welcome" && currentAppScreen == "home"
    {
      isAuthenticated := false;
      currentAuthScreen := "welcome";
      currentAppScreen := "home";
      user := None;
      authLoading := false;
    }

    /** The first step of every sign-in handler: loading is shown while the request is simulated. */
    method BeginAuth()
      requires Valid()
      modifies this
      ensures Valid() && authLoading
      ensures isAuthenticated == old(isAuthenticated) && user == old(user)
      ensures currentAuthScreen == old(currentAuthScreen) && currentAppScreen == old(currentAppScreen)
    {
      authLoading := true;
    }

    /** The completion of every sign-in: the profile is set, the app is authenticated, loading ends. */
    method CompleteAuth(u: User)
      modifies this
      ensures Valid() && isAuthenticated && user == Some(u) && !authLoading
      ensures currentAuthScreen == old(currentAuthScreen) && currentAppScreen == old(currentAppScreen)
    {
      user := Some(u);
      isAuthenticated := true;
      authLoading := false;
    }

    /**
     * `handleLogin`: any credentials are accepted; the name is the part of
     * the email before the first `@`. The password is not consulted.
     */
    method HandleLogin(email: string, password: string)
      requires Valid()
      modifies this
      ensures Valid() && isAuthenticated && !authLoading
      ensures user == Some(User(EmailPrefix(email), email, LoginPhone))
      ensures currentAuthScreen == old(currentAuthScreen) && currentAppScreen == old(currentAppScreen)
    {
      BeginAuth();
      var userData := User(EmailPrefix(email), email, LoginPhone);
      CompleteAuth(userData);
    }

    /** `handleRegister`: keeps name, email and phone, drops the password, and signs in. */
    method HandleRegister(userData: RS.Registration)
      requires Valid()
      modifies this
      ensures Valid() && isAuthenticated && !authLoading
      ensures user == Some(User(userData.name, userData.email, userData.phone))
      ensures currentAuthScreen == old(currentAuthScreen) && currentAppScreen == old(currentAppScreen)
    {
      BeginAuth();
      var newUser := User(userData.name, userData.email, userData.phone);
      CompleteAuth(newUser);
    }

    /** `handleGoogleLogin`: signs in with the fixed Google profile. */
    method HandleGoogleLogin()
      requires Valid()
      modifies this
      ensures Valid() && isAuthenticated && !authLoading
      ensures user == Some(GoogleUser)
      ensures currentAuthScreen == old(currentAuthScreen) && currentAppScreen == old(currentAppScreen)
    {
      BeginAuth();
      CompleteAuth(GoogleUser);
    }

    /** `handleLogout`: no user, not authenticated, and both screens back to their starting values. */
    method HandleLogout()
      modifies this
      ensures Valid() && !isAuthenticated && user == None
      ensures currentAppScreen == "home" && currentAuthScreen == "welcome"
      ensures authLoading == old(authLoading)
    {
      user := None;
      isAuthenticated := false;
      currentAppScreen := "home";
      currentAuthScreen := "welcome";
    }

    /** `setCurrentAuthScreen`, as called by the sign-in screens' links and back buttons. */
    method ShowAuthScreen(s: AuthScreen)
      modifies this
      ensures currentAuthScreen == AuthScreenName(s)
      ensures isAuthenticated == old(isAuthenticated) && user == old(user) && authLoading == old(authLoading)
      ensures currentAppScreen == old(currentAppScreen)
      ensures old(Valid()) ==> Valid()
    {
      currentAuthScreen := AuthScreenName(s);
    }

    /** `setCurrentAppScreen`, the `onNavigate` callback of the app screens. */
    method Navigate(s: AppScreen)
      modifies this
      ensures currentAppScreen == AppScreenName(s)
      ensures isAuthenticated == old(isAuthenticated) && user == old(user) && authLoading == old(authLoading)
      ensures currentAuthScreen == old(currentAuthScreen)
      ensures old(Valid()) ==> Valid()
    {
      currentAppScreen := AppScreenName(s);
    }

    /**
     * The rendered screen: the current app screen when authenticated, the
     * current sign-in screen otherwise, each switch with its own fallback.
     */
    function Render(): (v: View)
      reads this
      ensures v.IsAuthView() <==> !isAuthenticated
      ensures isAuthenticated ==> forall s :: currentAppScreen == AppScreenName(s) ==> v == AppView(s)
      ensures !isAuthenticated ==> forall s :: currentAuthScreen == AuthScreenName(s) ==> v == AuthView(s)
      ensures isAuthenticated && (forall s :: currentAppScreen != AppScreenName(s)) ==> v == HomeView
      ensures !isAuthenticated && (forall s :: currentAuthScreen != AuthScreenName(s)) ==> v == WelcomeView
      ensures Valid() && !v.IsAuthView() ==> user.Some?
    {
      if isAuthenticated then RenderAppScreen(currentAppScreen) else RenderAuthScreen(currentAuthScreen)
    }
  }

  /** Logging in from the login screen lands on the home screen; logging out returns to welcome. */
  method LoginThenLogout(email: string, password: string)
  {
    var app := new AppState();
    app.ShowAuthScreen(Login);
    assert app.Render() == LoginView;
    app.HandleLogin(email, password);
    assert app.Render() == HomeView;
    app.Navigate(Symptoms);
    assert app.Render() == SymptomsView;
    app.HandleLogout();
    assert app.Render() == WelcomeView && app.user == None;
  }
}
