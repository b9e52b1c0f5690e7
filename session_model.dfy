/** The session of BriefMe.py as values: what `st.session_state` holds, which
    screen `main` draws for it, and how each user action on that screen changes
    it. `SessionStore.SessionState` performs these transitions in place. */
module SessionModel {
  import opened Wrappers
  import opened Json
  import Extraction

  datatype Role = User | Assistant

  /** One entry of the chat history, `{"role": ..., "content": ...}`. The user's
      content is the prompt string; the assistant's is whatever
      `extract_last_message_text` returned, which is a JSON value. */
  datatype Message = Message(role: Role, content: Json)

  /** `st.session_state` as a dictionary: every key may still be missing. */
  datatype Store = Store(messages: Option<seq<Message>>, loggedIn: Option<bool>, apiUrl: Option<string>,
                         bearerToken: Option<string>, showWelcome: Option<bool>)

  /** The store of a brand-new browser session. */
  const EmptyStore := Store(None, None, None, None, None)

  /** `st.session_state` once every key is present. */
  datatype State = State(messages: seq<Message>, loggedIn: bool, apiUrl: string, bearerToken: string,
                         showWelcome: bool)

  /** The store that holds exactly the keys and values of `s`. */
  function Stored(s: State): Store
  {
    Store(Some(s.messages), Some(s.loggedIn), Some(s.apiUrl), Some(s.bearerToken), Some(s.showWelcome))
  }

  /** `initialize_session_state`: each missing key gets its default (no
      messages, logged out, empty URL and token, welcome shown); a key that is
      present keeps its value. */
  function InitializeSessionState(st: Store): (s: State)
    ensures st.messages.Some? ==> s.messages == st.messages.value
    ensures st.loggedIn.Some? ==> s.loggedIn == st.loggedIn.value
    ensures st.apiUrl.Some? ==> s.apiUrl == st.apiUrl.value
    ensures st.bearerToken.Some? ==> s.bearerToken == st.bearerToken.value
    ensures st.showWelcome.Some? ==> s.showWelcome == st.showWelcome.value
    ensures st.messages.None? ==> s.messages == []
    ensures st.loggedIn.None? ==> !s.loggedIn
    ensures st.apiUrl.None? ==> s.apiUrl == ""
    ensures st.bearerToken.None? ==> s.bearerToken == ""
    ensures st.showWelcome.None? ==> s.showWelcome
  {
    State(st.messages.GetOr([]), st.loggedIn.GetOr(false), st.apiUrl.GetOr(""), st.bearerToken.GetOr(""),
          st.showWelcome.GetOr(true))
  }

  /** Initialising a complete store changes nothing, so initialising twice is
      the same as initialising once. */
  lemma InitializeIdempotent(st: Store)
    ensures InitializeSessionState(Stored(InitializeSessionState(st))) == InitializeSessionState(st)
    ensures forall s: State :: InitializeSessionState(Stored(s)) == s
  {
  }

  datatype Screen = Login | Welcome | Chat

  /** The screen `main` draws: the login form when not logged in, otherwise the
      welcome page while `show_welcome` is set, otherwise the chat. */
  function SelectScreen(s: State): (r: Screen)
    ensures r == Login <==> !s.loggedIn
    ensures r == Welcome <==> s.loggedIn && s.showWelcome
    ensures r == Chat <==> s.loggedIn && !s.showWelcome
  {
    if !s.loggedIn then Login else if s.showWelcome then Welcome else Chat
  }

  /** The login form's submit handler, with the two values typed into the form.
      With either field empty it only shows an error; otherwise it stores both
      and logs in, leaving the history and the welcome flag alone. */
  function SubmitLogin(s: State, apiUrl: string, bearerToken: string): (r: State)
    ensures apiUrl == "" || bearerToken == "" ==> r == s
    ensures apiUrl != "" && bearerToken != "" ==>
      r.loggedIn && r.apiUrl == apiUrl && r.bearerToken == bearerToken &&
      r.messages == s.messages && r.showWelcome == s.showWelcome
    ensures SelectScreen(r) != Login <==> s.loggedIn || (apiUrl != "" && bearerToken != "")
  {
    if apiUrl == "" || bearerToken == "" then s
    else s.(apiUrl := apiUrl, bearerToken := bearerToken, loggedIn := true)
  }

  /** The welcome page's "Let's Get Started!" button: the welcome page is
      dismissed and nothing else changes. */
  function DismissWelcome(s: State): (r: State)
    ensures !r.showWelcome && r.(showWelcome := s.showWelcome) == s
    ensures s.loggedIn ==> SelectScreen(r) == Chat
  {
    s.(showWelcome := false)
  }

  /** The sidebar's "Show Welcome Page" button: the welcome page comes back and
      nothing else changes. */
  function ShowWelcome(s: State): (r: State)
    ensures r.showWelcome && r.(showWelcome := s.showWelcome) == s
    ensures s.loggedIn ==> SelectScreen(r) == Welcome
  {
    s.(showWelcome := true)
  }

  /** The sidebar's "Logout" button: only the login flag is cleared; the URL,
      the token, the history and the welcome flag stay as they were. */
  function LogOut(s: State): (r: State)
    ensures !r.loggedIn && r.(loggedIn := s.loggedIn) == s
    ensures SelectScreen(r) == Login
  {
    s.(loggedIn := false)
  }

  /** Python's `if api_response:` on what `make_api_request` returned: `None`
      (the request failed) and falsy JSON are both false. */
  predicate Answered(reply: Option<Json>)
    ensures !Answered(reply) <==> reply.None? || !Truthy(reply.value)
  {
    reply.Some? && Truthy(reply.value)
  }

  /** The chat input's handler, given the prompt and what the API returned for
      it. An empty prompt is falsy and does nothing. Otherwise the user's message
      is appended, and then an assistant message holding the extracted text, but
      only when the API answered with a truthy value. */
  function SubmitPrompt(s: State, prompt: string, reply: Option<Json>): (r: State)
    ensures r.(messages := s.messages) == s
    ensures prompt == "" ==> r == s
    ensures prompt != "" && !Answered(reply) ==> r.messages == s.messages + [Message(User, JString(prompt))]
    ensures prompt != "" && Answered(reply) ==>
      r.messages == s.messages + [Message(User, JString(prompt)),
                                  Message(Assistant, Extraction.ExtractLastMessageText(reply.value))]
  {
    if prompt == "" then s
    else
      var withPrompt := s.messages + [Message(User, JString(prompt))];
      if Answered(reply) then
        s.(messages := withPrompt + [Message(Assistant, Extraction.ExtractLastMessageText(reply.value))])
      else s.(messages := withPrompt)
  }

  /** What the user does during one run of the script. Streamlit reruns the
      script after each interaction, and each run handles at most one widget. The
      chat input carries the API's answer to the prompt (`None` when the request
      failed), which depends on the network and is taken as given. */
  datatype Action =
    | NoInteraction
    | LoginPressed(apiUrl: string, bearerToken: string)
    | GetStartedPressed
    | LogoutPressed
    | ShowWelcomePressed
    | PromptEntered(prompt: string, reply: Option<Json>)

  /** Whether the screen draws the widget the action uses. */
  predicate Offered(screen: Screen, a: Action)
    ensures a.NoInteraction? ==> Offered(screen, a)
    ensures screen == Login ==> (Offered(screen, a) <==> a.NoInteraction? || a.LoginPressed?)
    ensures screen == Welcome ==> (Offered(screen, a) <==> a.NoInteraction? || a.GetStartedPressed?)
    ensures screen == Chat ==>
      (Offered(screen, a) <==> a.NoInteraction? || a.LogoutPressed? || a.ShowWelcomePressed? || a.PromptEntered?)
  {
    match a
    case NoInteraction => true
    case LoginPressed(_, _) => screen == Login
    case GetStartedPressed => screen == Welcome
    case LogoutPressed | ShowWelcomePressed | PromptEntered(_, _) => screen == Chat
  }

  /** One run of `main` after initialisation: the screen is chosen, and only
      the widgets on that screen can act. */
  function Step(s: State, a: Action): (r: State)
    ensures !Offered(SelectScreen(s), a) ==> r == s
    ensures |s.messages| <= |r.messages| <= |s.messages| + 2
    ensures r.messages[..|s.messages|] == s.messages
  {
    if !Offered(SelectScreen(s), a) then s
    else
      match a
      case NoInteraction => s
      case LoginPressed(apiUrl, bearerToken) => SubmitLogin(s, apiUrl, bearerToken)
      case GetStartedPressed => DismissWelcome(s)
      case LogoutPressed => LogOut(s)
      case ShowWelcomePressed => ShowWelcome(s)
      case PromptEntered(prompt, reply) => SubmitPrompt(s, prompt, reply)
  }

  /** The state after a series of runs. */
  function Replay(s: State, actions: seq<Action>): State
    decreases |actions|
  {
    if actions == [] then s else Replay(Step(s, actions[0]), actions[1..])
  }

  /** The history is append-only: whatever happens, the earlier messages stay
      where they were, and each run adds at most two. */
  lemma {:induction false} ReplayKeepsHistory(s: State, actions: seq<Action>)
    ensures |s.messages| <= |Replay(s, actions).messages| <= |s.messages| + 2 * |actions|
    ensures Replay(s, actions).messages[..|s.messages|] == s.messages
    decreases |actions|
  {
    if actions != [] {
      var next := Step(s, actions[0]);
      assert |next.messages| <= |s.messages| + 2;
      ReplayKeepsHistory(next, actions[1..]);
      var final := Replay(next, actions[1..]).messages;
      assert final[..|s.messages|] == final[..|next.messages|][..|s.messages|];
    }
  }

  /** A logged-in session always holds a non-empty URL and token. */
  predicate CredentialsPresent(s: State)
  {
    s.loggedIn ==> s.apiUrl != "" && s.bearerToken != ""
  }

  /** A history in which every assistant message answers the user message
      right before it. */
  predicate Alternating(messages: seq<Message>)
  {
    forall i :: 0 <= i < |messages| && messages[i].role == Assistant ==> 0 < i && messages[i - 1].role == User
  }

  /** An invariant that every reachable state satisfies: the state of a new
      session's first run, and every state that follows from it. */
  predicate Consistent(s: State)
  {
    CredentialsPresent(s) && Alternating(s.messages)
  }

  lemma StepKeepsConsistent(s: State, a: Action)
    requires Consistent(s)
    ensures Consistent(Step(s, a))
  {
  }

  /** Every session that starts empty stays consistent: one can only be logged
      in with both credentials, and assistant replies follow user prompts. */
  lemma {:induction false} ReplayKeepsConsistent(s: State, actions: seq<Action>)
    requires Consistent(s)
    ensures Consistent(Replay(s, actions))
    decreases |actions|
  {
    if actions != [] {
      StepKeepsConsistent(s, actions[0]);
      ReplayKeepsConsistent(Step(s, actions[0]), actions[1..]);
    }
  }

  /** A new browser session starts consistent, on the login screen. */
  lemma NewSessionConsistent()
    ensures Consistent(InitializeSessionState(EmptyStore))
    ensures SelectScreen(InitializeSessionState(EmptyStore)) == Login
  {
  }

  /** An incomplete login form never gets past the login screen. */
  lemma IncompleteLoginStaysOnLogin(s: State, apiUrl: string, bearerToken: string)
    requires SelectScreen(s) == Login
    requires apiUrl == "" || bearerToken == ""
    ensures Step(s, LoginPressed(apiUrl, bearerToken)) == s
    ensures SelectScreen(Step(s, LoginPressed(apiUrl, bearerToken))) == Login
  {
  }

  /** A prompt grows the history by two messages when the API answered and by
      one when it did not. */
  lemma PromptGrowth(s: State, prompt: string, reply: Option<Json>)
    requires SelectScreen(s) == Chat && prompt != ""
    ensures |Step(s, PromptEntered(prompt, reply)).messages| == |s.messages| + (if Answered(reply) then 2 else 1)
    ensures Step(s, PromptEntered(prompt, reply)).messages[|s.messages|] == Message(User, JString(prompt))
  {
  }
}
