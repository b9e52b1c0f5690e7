/** `st.session_state` of BriefMe.py as an object whose keys the handlers
    update in place. Each method does what the corresponding Python code does to
    the store, and its contract ties the new contents to the transition of
    `SessionModel` that it performs. */
module SessionStore {
  import opened Wrappers
  import opened Json
  import SM = SessionModel
  import Extraction

  class SessionState {
    // One field per key; `None` while the key is missing.
    var messages: Option<seq<SM.Message>>
    var loggedIn: Option<bool>
    var apiUrl: Option<string>
    var bearerToken: Option<string>
    var showWelcome: Option<bool>

    /** The keys and values currently stored. */
    function Stored(): SM.Store
      reads this
    {
      SM.Store(messages, loggedIn, apiUrl, bearerToken, showWelcome)
    }

    /** Every key is present, as it is after `initialize_session_state`. */
    predicate Initialized()
      reads this
    {
      messages.Some? && loggedIn.Some? && apiUrl.Some? && bearerToken.Some? && showWelcome.Some?
    }

    /** The contents of a complete store. */
    function Snapshot(): SM.State
      reads this
      requires Initialized()
    {
      SM.State(messages.value, loggedIn.value, apiUrl.value, bearerToken.value, showWelcome.value)
    }

    /** The store of a new browser session: no key is present yet. */
    constructor ()
      ensures Stored() == SM.EmptyStore
    {
      messages, loggedIn, apiUrl, bearerToken, showWelcome := None, None, None, None, None;
    }

    /** `initialize_session_state`: stores the default of each missing key and
        leaves the keys that are present untouched. */
    method InitializeSessionState()
      modifies this
      ensures Initialized() && Snapshot() == SM.InitializeSessionState(old(Stored()))
      ensures old(Initialized()) ==> Snapshot() == old(Snapshot())
    {
      if messages.None? {
        messages := Some([]);
      }
      if loggedIn.None? {
        loggedIn := Some(false);
      }
      if apiUrl.None? {
        apiUrl := Some("");
      }
      if bearerToken.None? {
        bearerToken := Some("");
      }
      if showWelcome.None? {
        showWelcome := Some(true);
      }
      SM.InitializeIdempotent(old(Stored()));
    }

    /** The login form's submit handler. `accepted` is false when the error
        "Please enter both API URL and Bearer Token" is shown instead. */
    method SubmitLogin(url: string, token: string) returns (accepted: bool)
      requires Initialized()
      modifies this
      ensures accepted <==> url != "" && token != ""
      ensures Initialized() && Snapshot() == SM.SubmitLogin(old(Snapshot()), url, token)
      ensures messages == old(messages) && showWelcome == old(showWelcome)
      ensures !accepted ==> unchanged(this)
    {
      if url == "" || token == "" {
        accepted := false;
      } else {
        apiUrl := Some(url);
        bearerToken := Some(token);
        loggedIn := Some(true);
        accepted := true;
      }
    }

    /** The welcome page's "Let's Get Started!" button. */
    method DismissWelcome()
      requires Initialized()
      modifies this`showWelcome
      ensures Initialized() && Snapshot() == SM.DismissWelcome(old(Snapshot()))
    {
      showWelcome := Some(false);
    }

    /** The sidebar's "Show Welcome Page" button. */
    method ShowWelcome()
      requires Initialized()
      modifies this`showWelcome
      ensures Initialized() && Snapshot() == SM.ShowWelcome(old(Snapshot()))
    {
      showWelcome := Some(true);
    }

    /** The sidebar's "Logout" button: only `logged_in` is written. */
    method LogOut()
      requires Initialized()
      modifies this`loggedIn
      ensures Initialized() && Snapshot() == SM.LogOut(old(Snapshot()))
    {
      loggedIn := Some(false);
    }

    /** The chat input's handler: append the user's message, then, if the API's
        answer is truthy, the assistant's message with the extracted text. Only
        `messages` is written. */
    method SubmitPrompt(prompt: string, reply: Option<Json>)
      requires Initialized()
      modifies this`messages
      ensures Initialized() && Snapshot() == SM.SubmitPrompt(old(Snapshot()), prompt, reply)
      ensures old(messages.value) <= messages.value
    {
      if prompt != "" {
        messages := Some(messages.value + [SM.Message(SM.User, JString(prompt))]);
        if reply.Some? && Truthy(reply.value) {
          var responseText := Extraction.ExtractLastMessageText(reply.value);
          messages := Some(messages.value + [SM.Message(SM.Assistant, responseText)]);
        }
      }
    }

    /** One run of `main`: initialise the store, draw the screen its contents
        select, and let that screen's widget handle the user's action, if it is
        one the screen offers. Returns the screen that was drawn. */
    method Run(action: SM.Action) returns (screen: SM.Screen)
      modifies this
      ensures screen == SM.SelectScreen(SM.InitializeSessionState(old(Stored())))
      ensures Initialized() && Snapshot() == SM.Step(SM.InitializeSessionState(old(Stored())), action)
      ensures SM.Consistent(SM.InitializeSessionState(old(Stored()))) ==> SM.Consistent(Snapshot())
    {
      InitializeSessionState();
      ghost var start := Snapshot();
      if SM.Consistent(start) {
        SM.StepKeepsConsistent(start, action);
      }
      if !loggedIn.value {
        screen := SM.Login;
        if action.LoginPressed? {
          var _ := SubmitLogin(action.apiUrl, action.bearerToken);
        }
        return;
      }
      if showWelcome.value {
        screen := SM.Welcome;
        if action.GetStartedPressed? {
          DismissWelcome();
        }
        return;
      }
      screen := SM.Chat;
      match action {
        case LogoutPressed => LogOut();
        case ShowWelcomePressed => ShowWelcome();
        case PromptEntered(prompt, reply) => SubmitPrompt(prompt, reply);
        case _ =>
      }
    }
  }
}
