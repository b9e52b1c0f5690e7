# BriefMe Brilliantly — session and response-extraction model

BriefMe Brilliantly is a Streamlit chat front end. The user logs in with an API
URL and a bearer token, reads a welcome page, and then sends prompts to a
briefing API. The text of each reply is appended to the chat history. This
project models the logic of `BriefMe.py` with the rendering and the HTTP call
taken out. It has two parts.

- **Response extraction** (`extract_last_message_text`). The reply's JSON is
  a `Json.Json` value: null, bool, number, string, array, or object with
  string keys. Python's `key in v` and `v[key]` are modelled together with the
  exceptions they raise (`PyOps`). The function is evaluated step by step as
  Python runs it (`Extraction.TryBlock`), and every exception is caught, as the
  `except Exception` clause does. The proofs check this evaluation against an
  independent JSON-path lookup, `Extraction.Follow`, along
  `response[0].output.message.content[0].text`. The result is that text value
  unchanged, or the literal `"No response text available."`.
- **Session state**. `st.session_state` is a class, `SessionStore.SessionState`.
  It has one `Option` field per key (`messages`, `logged_in`, `api_url`,
  `bearer_token`, `show_welcome`), and `None` means the key is missing. Each
  handler that writes the store in `BriefMe.py` is a method of that class with
  a `modifies` frame. Its postcondition equates the new contents with a
  transition function over values in `SessionModel`. `main` is
  `SessionState.Run`: it initialises the store, selects the screen, and
  dispatches one user action to that screen's widgets. `SessionModel.Replay`
  runs a series of such reruns. The lemmas prove two things over any series
  starting from a new session. First, the history is append-only. Second, the
  session can only be logged in when both credentials are non-empty, and every
  assistant message directly follows a user message.

Streamlit reruns the whole script after each interaction. The model therefore
treats one run of `main` as one step, and each step handles at most one widget.
A run that a new interaction cuts short is not modelled (see "Left out").

The API's answer is an input of type `Option<Json>`. `None` means the request
failed: `make_api_request` catches the exception and returns `None`. An
assistant message is appended only when the answer is Python-truthy. So a
failed request, `null`, `[]`, `{}`, `""`, `0` and `false` add no assistant
message; the user's message is still appended (BriefMe.py:174).

Two consequences of the code:
- Logout only sets `logged_in` to false (BriefMe.py:159). The URL, the token
  and the history are kept.
- Login leaves `show_welcome` alone (BriefMe.py:84-86). If the welcome page was
  dismissed earlier in the session, a login leads straight to the chat screen.

## Model

| member | source | states |
|---|---|---|
| Json.FalsyValues | BriefMe.py:186 | Under Python truthiness, exactly `None`, `False`, zero, `""`, `[]` and `{}` are falsy. |
| PyOps.IsSubstringIff | BriefMe.py:48 | `key in s` on a string is true exactly when `key` occurs in `s` at some position. |
| PyOps.Contains | BriefMe.py:48-50 | `key in v` tests dict keys, list elements or substrings. On `None`, booleans and numbers it raises `TypeError`, and only there. |
| PyOps.GetItem | BriefMe.py:49-52 | `v[key]` succeeds exactly on a dict that has the key, and then yields that key's value. It raises `KeyError` on a dict without the key and `TypeError` on any other kind of value. |
| PyOps.GetIndex | BriefMe.py:48-52 | `v[i]` on a list with more than `i` elements yields element `i`. It succeeds only on a list or string that is long enough. |
| Extraction.TryBlock | BriefMe.py:44-52 | The `try` block, check by check. A falsy, non-list or empty response falls through at line 46. A text is returned only from a non-empty list whose first element is an object. Indexing never raises, because the length checks come first. |
| Extraction.ExtractLastMessageText | BriefMe.py:37-56 | Any result other than the fallback comes from a non-empty list response. |
| Extraction.ExtractFollowsTextPath | BriefMe.py:44-56 | The result is the value at `response[0].output.message.content[0].text` when that whole path exists. Otherwise it is the fallback literal, including every case where Python raises. |
| Extraction.ExtractNotAListGivesFallback | BriefMe.py:46-56 | A falsy response, a response that is not a list, and an empty list all give the fallback. |
| Extraction.ExtractWellShaped | BriefMe.py:46-52 | A response of the expected shape yields its `text` value unchanged, whatever its content and whatever other keys or items it carries. |
| Extraction.ExtractIgnoresLaterResponses | BriefMe.py:48-49 | Only `response[0]` matters: changing the later elements never changes the result. |
| Extraction.ExtractIgnoresLaterContent | BriefMe.py:50-52 | Only `content[0]` matters: changing the later content items never changes the result. |
| Extraction.ExtractFallbackExamples | BriefMe.py:44-56 | `None`, `[]`, `[{}]`, `[{"output": {}}]` and `["output"]` all give the fallback. |
| Extraction.ExtractContentExamples | BriefMe.py:50-52 | The content item `{"type": "text"}`, which has no `text` key, gives the fallback. A reply whose first content item is `{"text": "Hi"}` gives `"Hi"`. |
| SessionModel.InitializeSessionState | BriefMe.py:9-19 | A present key keeps its value. A missing key gets its default: `[]`, `False`, `""`, `""`, `True`. |
| SessionModel.InitializeIdempotent | BriefMe.py:9-19 | Initialising a complete store changes nothing, so applying it twice equals applying it once. |
| SessionModel.SelectScreen | BriefMe.py:144-151 | Not logged in gives LOGIN. Logged in with `show_welcome` set gives WELCOME. Otherwise the screen is CHAT. |
| SessionModel.SubmitLogin | BriefMe.py:80-88 | With an empty URL or token the state is unchanged. Otherwise both are stored and `logged_in` is set, with the history and welcome flag untouched. The login screen is left exactly in the second case. |
| SessionModel.DismissWelcome | BriefMe.py:128-130 | Only `show_welcome` changes, to false. A logged-in session then shows CHAT. |
| SessionModel.ShowWelcome | BriefMe.py:162-164 | Only `show_welcome` changes, to true. A logged-in session then shows WELCOME. |
| SessionModel.LogOut | BriefMe.py:158-160 | Only `logged_in` changes, to false. Credentials and history are kept, and the screen becomes LOGIN. |
| SessionModel.Answered | BriefMe.py:186 | `if api_response:` is false exactly for a failed request (`None`) and for a falsy JSON value (the six listed by `Json.FalsyValues`). |
| SessionModel.SubmitPrompt | BriefMe.py:172-194 | An empty prompt does nothing. Otherwise the user message is appended. The assistant message with the extracted text follows exactly when the API answer is truthy. Nothing else changes. |
| SessionModel.Offered | BriefMe.py:143-172 | The widgets each screen draws: the login screen has only the login form, the welcome screen only "Let's Get Started!", and the chat screen the two sidebar buttons and the chat input. |
| SessionModel.Step | BriefMe.py:141-194 | An action whose widget the current screen does not draw changes nothing. The history keeps its prefix and grows by at most two. |
| SessionModel.ReplayKeepsHistory | BriefMe.py:174-194 | Over any series of runs, earlier messages are never altered or removed, and each run adds at most two. |
| SessionModel.StepKeepsConsistent | BriefMe.py:80-194 | One run keeps two facts. A logged-in session has a non-empty URL and token. Every assistant message directly follows a user message. |
| SessionModel.ReplayKeepsConsistent | BriefMe.py:80-194 | A consistent session stays consistent over any series of runs. |
| SessionModel.NewSessionConsistent | BriefMe.py:9-19 | A new session starts consistent, on the LOGIN screen. |
| SessionModel.IncompleteLoginStaysOnLogin | BriefMe.py:80-82 | Submitting the login form with a field empty leaves the state unchanged and the user on LOGIN. |
| SessionModel.PromptGrowth | BriefMe.py:172-194 | A prompt in the chat grows the history by two when the API answered truthily and by one otherwise. The first new entry is the user's prompt. |
| SessionStore.SessionState.constructor | BriefMe.py:9-19 | A new browser session's store holds no key at all, so every key gets its default on the first run. |
| SessionStore.SessionState.InitializeSessionState | BriefMe.py:9-19 | The store becomes complete, with its contents given by `SessionModel.InitializeSessionState`. An already complete store is left as it was. |
| SessionStore.SessionState.SubmitLogin | BriefMe.py:80-88 | The login is accepted exactly when both fields are non-empty. The new contents follow `SessionModel.SubmitLogin`, and `messages` and `show_welcome` are untouched. A rejected login writes nothing. |
| SessionStore.SessionState.DismissWelcome | BriefMe.py:128-130 | Only `show_welcome` is written. The new contents follow `SessionModel.DismissWelcome`. |
| SessionStore.SessionState.ShowWelcome | BriefMe.py:162-164 | Only `show_welcome` is written. The new contents follow `SessionModel.ShowWelcome`. |
| SessionStore.SessionState.LogOut | BriefMe.py:158-160 | Only `logged_in` is written. The new contents follow `SessionModel.LogOut`. |
| SessionStore.SessionState.SubmitPrompt | BriefMe.py:172-194 | Only `messages` is written, and its old value stays a prefix of the new one. The new contents follow `SessionModel.SubmitPrompt`. |
| SessionStore.SessionState.Run | BriefMe.py:133-198 | One run of `main` returns the screen selected after initialisation. The new contents are `SessionModel.Step` of the initialised store. Consistency is preserved. |

## Left out

- A run cut short by a new interaction is not modelled. Streamlit stops a
  running script when the user uses a widget during that run, and the stop
  takes effect at the script's next `st` call. On the chat screen, the sidebar
  buttons and the chat input are already drawn while the API call blocks
  (BriefMe.py:157-184). A click there ends the run before the assistant message
  is appended at line 191. The store then holds the user message only, as
  after a failed request, or it is left as no action leaves it. Every proved
  invariant still holds for such a store. But `SessionModel.SubmitPrompt`'s
  promise that the assistant message follows whenever the answer is truthy
  describes only a run that finishes.
- Rendering: page configuration, titles, captions, the welcome text, forms, the
  spinner, chat bubbles, the history display loop and `st.rerun`. These are
  presentation with no effect on the store. Because each `st.rerun` ends its run,
  the model handles at most one action per run.
- `make_api_request` (BriefMe.py:22-34): the header and body construction, the
  HTTP POST, `raise_for_status` and the error banner. This is network I/O. Its
  result is an input of type `Option<Json>`, with `None` for a failed request.
- Logging (BriefMe.py:32, 54): side effects with no behavioural contract.
- Numbers are exact reals. Floating-point rounding and the int/float
  distinction do not affect any branch of the modelled code, so they are not
  modelled.
- The values Streamlit's widgets return (the text inputs, buttons and chat
  input) arrive as the fields of `SessionModel.Action`. How the widgets
  produce them is not modelled.
