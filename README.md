# PushGPT chat session controller, modelled in Dafny

This project models the session-state logic of the PushGPT chat page (`chat.py`). Streamlit keeps one key/value bag per browser session, `st.session_state`. On every render pass the page seeds that bag from three sources:

- a token decoded from the query string;
- a `model` query parameter;
- a conversation looked up by the session's conversation id.

User actions then change the bag:

- the new-chat buttons;
- the profile menu's sign-out and clear-history buttons;
- the saved-question list.

Files:

- `values.dfy` (module `Values`) models the Python values the bag holds. It has `Value`, Python truthiness (`Truthy`), and `Slot`, which tells a missing key apart from a key that holds `None`.
- `chat.dfy` (module `Chat`) models `chat.py`.
  - The bag is the class `Chat.Session`: one field per session key, plus the page's query string. Its methods change those fields in place, as the source does.
  - Each method is specified by a pure function over a `Snapshot` of the fields (`Loaded`, `Seed`, `Reinitialized`, `Profile`, `SavedQuestionsAfter`). Each method ensures `State() == F(old(State()), …)`, and the function's own contract states what the source promises.
  - The two loops in the source are methods with loop invariants: `NewChatButtons` (the loop in `render_new_chat`) and `PickSavedQuestion` (the saved-question buttons).

Collaborators are inputs, not implementations:

- The decoded token, the `model` parameter and the conversation id are values in `Chat.Sources`.
- The Firestore store is a map from id to document (`Chat.Store`). `load_conversation_by_id(cid).to_dict()` is a dict for a stored id and `None` otherwise (`FetchConversation`).
- Button presses and text inputs are method parameters.
- Clearing a user's history only reports the user id it would pass to the store (`clearedFor`).

Write order decides the model: the `model` parameter is written at chat.py:33-35, before the conversation is loaded at chat.py:37-39. So a found conversation's `model_name` wins over the parameter (`Seed`; `ConversationModelBeatsParameter`).

Quirks kept from the code:

- A conversation without `model_name` stores `None` under `model`. The key then exists, so the default model is not applied, and no new-chat button is highlighted.
- Sign-out clears the query string before it deletes `token`. If `token` is missing, `del` raises `KeyError`. In that case `user_info` and the status stay as they were, but the query string is already cleared.
- Clear history leaves the open conversation as it is.

## Model

| member | source | states |
|---|---|---|
| `Chat.ModelFromConversation` | chat.py:22-23 | the conversation's `model_name`, or None when the document has none |
| `Chat.FetchConversation` | chat.py:16 | a dict with the stored document for a stored id, None for any other id |
| `Chat.Loaded` | chat.py:15-19 | a non-empty document replaces `conversation` and sets `model` from it; a missing or empty document leaves the session unchanged |
| `Chat.Session.LoadAndStoreConversation` | chat.py:15-19 | the new session state is `Loaded` of the old one |
| `Chat.Seed` | chat.py:26-44 | after seeding, `conversation_expanded` is true and `model` and `saved_questions` exist. `token` is replaced only by a truthy decoded token. A found conversation sets `conversation` and `model`, even when a `model` parameter is given, and a missing `model_name` leaves `model` holding None. With no conversation found, `conversation` is unchanged and a truthy parameter sets `model`. With neither, an existing `model` (None included) is kept and only a missing one becomes "gpt-3.5-turbo". `saved_questions` becomes `[]` only when missing. No other key changes |
| `Chat.Session.Controller` | chat.py:26-44 | the new session state is `Seed` of the old one and the sources |
| `Chat.SeedIsIdempotent` | chat.py:26-44 | a second render pass with the same sources leaves the seeded session unchanged |
| `Chat.ConversationModelBeatsParameter` | chat.py:33-39 | with `model=gpt-3.5-turbo` and a cid whose document names gpt-4, the seeded model is gpt-4 |
| `Chat.Reinitialized` | chat.py:91-94 | whatever the prior state, `model` is the chosen model, `cid` is None and `conversation` is the default conversation; no other key changes; a seeded session stays seeded |
| `Chat.Session.ReinitializeChat` | chat.py:91-94 | the new session state is `Reinitialized` of the old one |
| `Chat.ReinitializeAsWritten` | chat.py:92 | as written, the statement raises NameError on DEFAULT_CONVERSATION and no key changes |
| `Chat.NewChatAsWrittenKeepsOldModel` | chat.py:91-93 | as written, pressing "GPT-3.5 Chat" in a gpt-4 session leaves gpt-4; the intended definition switches the model |
| `Chat.NewChatButtons` | chat.py:73-80 | one button per entry of the button dict, in order; a button is "primary" with a "✓ " prefix exactly when the session model is its model, otherwise "secondary" with the plain text; at most one button is primary |
| `Chat.NewChatHighlightsChosenButton` | chat.py:73-93 | after a new chat on button i, the highlight rule selects button i and no other |
| `Chat.Session.RenderNewChat` | chat.py:72-88 | one button per entry of the button dict, in order, with its model; from the model held before the press, a button is primary with a "✓ " prefix exactly when that model is its model, and at most one is primary; pressing a button runs `Reinitialized` with its model; with no press the session is unchanged |
| `Chat.SignOut` | chat.py:143-148 | the query string is cleared and `token` is gone. On success exactly `token` and `user_info` are removed and the status becomes "Not Authenticated", nothing else changes. A missing `token` raises KeyError with only the query string cleared. A missing `user_info` raises KeyError after `token` was removed |
| `Chat.SignOutThenSeedFindsNoToken` | chat.py:143-148 | after sign-out the query string has no `token` parameter, so the next seeding leaves `token` absent |
| `Chat.Profile` | chat.py:114-148 | without "Authenticated" status and a truthy `user_info`, nothing happens. Without sign-out, no session key changes, whether or not clear history was pressed. The store is asked to clear the user's history exactly when clear history is pressed and `user_info` has an `id`, and it is given that id. A truthy `user_info` that is not a dict raises AttributeError (chat.py:123) with nothing changed. Clear history on a `user_info` without `id` raises KeyError (chat.py:136) before the store call and before sign-out, with nothing changed. Without sign-out no other path raises. A sign-out that runs has the effect of `SignOut`, including its KeyError paths. A seeded session stays seeded |
| `Chat.Session.RenderProfile` | chat.py:114-148 | the new session state, the clear-history request and the exception are those of `Profile` |
| `Chat.SavedQuestionsAfter` | chat.py:53-56 | with the box ticked and a non-empty question, the question is appended at the end; otherwise the list is unchanged; the old list is always a prefix of the new one |
| `Chat.SavingTwiceKeepsDuplicates` | chat.py:53-56 | saving the same question twice leaves two copies at the end (no deduplication) |
| `Chat.PickSavedQuestion` | chat.py:58-62 | a pressed saved question becomes the draft; with no press on a listed question the draft is unchanged; the list is not changed |
| `Chat.Session.SaveQuestions` | chat.py:47-62 | a missing `saved_questions` key raises KeyError and nothing changes. Otherwise only `saved_questions` changes, to `SavedQuestionsAfter`, and the draft is the pressed saved question, or "" after a save, or else the typed text. After seeding this step never raises and the session stays seeded |

## Findings

| source | as written | input that shows it | evidently intended | confidence | as-written member | corrected member |
|---|---|---|---|---|---|---|
| chat.py:92 | `reinitialize_chat` assigns `DEFAULT_CONVERSATION`, a name chat.py neither defines nor imports, so the call raises NameError before model or cid are written | press "GPT-3.5 Chat" in a session whose model is gpt-4 | conversation reset to a default conversation, model set to the chosen one, cid cleared | high, from reading the code; not executed | `Chat.ReinitializeAsWritten` (with `Chat.NewChatAsWrittenKeepsOldModel`) | `Chat.Reinitialized` (used by `Chat.Session.ReinitializeChat`) |

## Left out

- The Streamlit rendering is left out because it is UI with no decision logic. This covers page config, titles, checkboxes and text inputs as widgets, expanders, images, `st.snow`, the CSS/HTML markdown, the status notice and the Debug expander at chat.py:172-181.
- `st.experimental_rerun` (chat.py:95) is left out because it is framework control flow. It ends the render pass after a new-chat press. So the buttons after the pressed one are not drawn in that pass, and `RenderNewChat` does not model that.
- The default conversation has no definition in chat.py. `Chat.Reinitialized` takes it as a parameter (see Findings).
- Firestore (`load_conversation_by_id`, `clear_user_history`) and Google sign-in (`decode_token_from_params`, `sign_out_google`) are foreign I/O.
  - Only their results are inputs: `Chat.Sources` and `Chat.Store`.
  - A clear-history request is returned as the user id. Whether the store call succeeds is not modelled.
  - Any change that `sign_out_google` (chat.py:144) or `decode_token_from_params` (chat.py:29) makes to the session itself is not modelled; both receive `st`. So `Chat.Seed`'s promise that `user_info` and `authentication_status` are unchanged covers only chat.py's own statements.
- `Chat.SignOutThenSeedFindsNoToken` assumes that the token decoder returns a falsy value (such as None) when the `token` parameter is missing. This is stated as `requires !Truthy(decode(None))`, because google_utils is not part of this model.
- `render_auth`, `render_body`, `render_my_conversations`, `get_key_from_params` and `get_cid_from_session` come from modules that are not part of this model. Their results are opaque inputs (`Sources.modelParam`, `Sources.cid`). Nothing in chat.py writes `user_info` or `authentication_status` except sign-out; the model treats them as fields any state may hold.
- `load_dotenv` is left out because it is environment I/O.
- `Chat.PickSavedQuestion` does not model Streamlit's duplicate-widget error. Two equal saved questions make two buttons with the same label, which Streamlit refuses. The model treats the press as picking that text.
- The first `render_sidebar` (chat.py:47) is replaced by the second (chat.py:151), so `main` never runs the saved-question logic. `Chat.Session.SaveQuestions` models it from the function text as its own operation.
- `Chat.Profile` models the exceptions raised by chat.py's own statements: AttributeError for a non-dict `user_info` (chat.py:123), KeyError for a missing `id` (chat.py:136), and, through `Chat.SignOut`, KeyError for a missing `token` or `user_info` (chat.py:146-147). Errors raised inside the image and widget calls are left out.
