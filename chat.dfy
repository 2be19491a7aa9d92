/** The session-state controller of the chat front end: how each render pass
    seeds the session bag from the decoded token, the `model` query parameter
    and the stored conversation, and how the new-chat buttons, the profile
    menu (sign-out, clear history) and the saved-question list change it. */
module Chat {
  import opened Values

  /** The model used when no source names one. */
  const DefaultModel: string := "gpt-3.5-turbo"

  const AuthenticatedStatus: string := "Authenticated"
  const NotAuthenticatedStatus: string := "Not Authenticated"

  /** The page's query string: each parameter name with its values. */
  type QueryParams = map<string, seq<string>>

  /** A stored conversation document, as `to_dict()` returns it. */
  type Document = map<string, Value>

  /** The conversation store, seen through `load_conversation_by_id`: the ids
      that have a document, each with that document's fields. */
  type Store = map<Value, Document>

  /** Python exceptions the modelled code can raise; each one ends the render
      pass at the statement that raised it. */
  datatype Fault = KeyError(key: string) | AttributeError(name: string) | NameError(name: string)

  /** The session keys the controller reads or writes, plus the query string. */
  datatype Snapshot = Snapshot(
    conversationExpanded: Slot<bool>,
    token: Slot<Value>,
    model: Slot<Value>,
    conversation: Slot<Value>,
    savedQuestions: Slot<seq<string>>,
    cid: Slot<Value>,
    userInfo: Slot<Value>,
    authenticationStatus: Slot<Value>,
    queryParams: QueryParams)

  /** The results of the collaborators that seeding consults: the decoded
      `token` parameter, the `model` parameter, the conversation id kept by the
      session, and the conversation store. */
  datatype Sources = Sources(decodedToken: Value, modelParam: Value, cid: Value, store: Store)

  /** The session after an operation that may raise, and what it raised. */
  datatype Run = Run(after: Snapshot, fault: Option<Fault>)

  /** The outcome of one pass through the profile menu: the new session, the
      user id passed to the store's clear-history call, if any, and the
      exception raised, if any. */
  datatype ProfileRun = ProfileRun(after: Snapshot, clearedFor: Option<Value>, fault: Option<Fault>)

  /** A freshly activated session: no key set yet. */
  function EmptySession(queryParams: QueryParams): Snapshot {
    Snapshot(Absent, Absent, Absent, Absent, Absent, Absent, Absent, Absent, queryParams)
  }

  /** What every later operation relies on once seeding has run. */
  predicate IsSeeded(s: Snapshot) {
    s.conversationExpanded == Present(true) && s.model.Present? && s.savedQuestions.Present?
  }

  // ---------------------------------------------------------------------------
  // Loading a conversation

  /** `conversation.get("model_name")`: the recorded model, or None when the
      document has no such field. */
  function ModelFromConversation(conversation: Document): (r: Value)
    ensures "model_name" in conversation ==> r == conversation["model_name"]
    ensures "model_name" !in conversation ==> r == Null
  {
    if "model_name" in conversation then conversation["model_name"] else Null
  }

  /** `load_conversation_by_id(cid).to_dict()`: a dict for a stored id, None
      for any other. */
  function FetchConversation(store: Store, id: Value): (r: Value)
    ensures r == Null || r.Dict?
    ensures r.Dict? <==> id in store
    ensures r.Dict? ==> r.entries == store[id]
  {
    if id in store then Dict(store[id]) else Null
  }

  /** The store holds a non-empty document under `id`. */
  predicate Found(store: Store, id: Value) {
    id in store && store[id] != map[]
  }

  /** `load_and_store_conversation`: a hit replaces the conversation and the
      model (even with None when the document has no model name); a miss or an
      empty document leaves the session unchanged. */
  function Loaded(s: Snapshot, store: Store, id: Value): (r: Snapshot)
    ensures Found(store, id) ==>
      r == s.(conversation := Present(Dict(store[id])), model := Present(ModelFromConversation(store[id])))
    ensures !Found(store, id) ==> r == s
  {
    var conversation := FetchConversation(store, id);
    if Truthy(conversation) then
      s.(conversation := Present(conversation), model := Present(ModelFromConversation(conversation.entries)))
    else
      s
  }

  // ---------------------------------------------------------------------------
  // Seeding

  /** `controller`, step by step: expand the conversation, take a non-empty
      decoded token, take a non-empty model parameter, load the conversation
      of a non-empty id, then fill in `model` and `saved_questions` where they
      are still missing. */
  function Seed(s: Snapshot, src: Sources): (r: Snapshot)
    ensures IsSeeded(r)
    ensures r.conversationExpanded == Present(true)
    // the token is replaced only by a non-empty decoded token
    ensures r.token == (if Truthy(src.decodedToken) then Present(src.decodedToken) else s.token)
    // a found conversation wins over the model parameter
    ensures Truthy(src.cid) && Found(src.store, src.cid) ==>
      r.conversation == Present(Dict(src.store[src.cid])) &&
      r.model == Present(ModelFromConversation(src.store[src.cid]))
    // ... including a document without a model name, whose None is kept
    ensures Truthy(src.cid) && Found(src.store, src.cid) && "model_name" !in src.store[src.cid] ==>
      r.model == Present(Null)
    // no conversation found: the conversation is untouched, the parameter wins
    ensures !(Truthy(src.cid) && Found(src.store, src.cid)) ==> r.conversation == s.conversation
    ensures !(Truthy(src.cid) && Found(src.store, src.cid)) && Truthy(src.modelParam) ==>
      r.model == Present(src.modelParam)
    // no source at all: an existing model (None included) is kept, a missing one defaulted
    ensures !(Truthy(src.cid) && Found(src.store, src.cid)) && !Truthy(src.modelParam) ==>
      r.model == (if s.model.Present? then s.model else Present(Str(DefaultModel)))
    // the saved list is created empty only when missing
    ensures r.savedQuestions == (if s.savedQuestions.Present? then s.savedQuestions else Present([]))
    // nothing else is touched
    ensures r.cid == s.cid && r.userInfo == s.userInfo
    ensures r.authenticationStatus == s.authenticationStatus && r.queryParams == s.queryParams
  {
    var expanded := s.(conversationExpanded := Present(true));
    var withToken := if Truthy(src.decodedToken) then expanded.(token := Present(src.decodedToken)) else expanded;
    var withParam := if Truthy(src.modelParam) then withToken.(model := Present(src.modelParam)) else withToken;
    var withConversation := if Truthy(src.cid) then Loaded(withParam, src.store, src.cid) else withParam;
    var withModel :=
      if withConversation.model.Absent? then withConversation.(model := Present(Str(DefaultModel)))
      else withConversation;
    if withModel.savedQuestions.Absent? then withModel.(savedQuestions := Present([])) else withModel
  }

  /** Seeding runs on every render pass; a second pass with the same sources
      changes nothing. */
  lemma SeedIsIdempotent(s: Snapshot, src: Sources)
    ensures Seed(Seed(s, src), src) == Seed(s, src)
  {
  }

  /** The model parameter does not override a found conversation's model. */
  lemma ConversationModelBeatsParameter(s: Snapshot)
    ensures var src := Sources(Null, Str("gpt-3.5-turbo"), Str("abc"),
                               map[Str("abc") := map["model_name" := Str("gpt-4")]]);
            Seed(s, src).model == Present(Str("gpt-4"))
  {
    var document := map["model_name" := Str("gpt-4")];
    assert "model_name" in document;
    assert Found(map[Str("abc") := document], Str("abc"));
  }

  // ---------------------------------------------------------------------------
  // New chat

  /** `reinitialize_chat` with the default conversation it intends to assign:
      whatever the prior session, the chosen model, no conversation id and the
      default conversation; no other key changes. */
  function Reinitialized(s: Snapshot, newModel: string, defaultConversation: Value): (r: Snapshot)
    ensures r.model == Present(Str(newModel))
    ensures r.cid == Present(Null)
    ensures r.conversation == Present(defaultConversation)
    ensures r.(model := s.model, cid := s.cid, conversation := s.conversation) == s
    ensures IsSeeded(s) ==> IsSeeded(r)
  {
    s.(conversation := Present(defaultConversation), model := Present(Str(newModel)), cid := Present(Null))
  }

  /** `reinitialize_chat` as written: its first statement reads the name
      DEFAULT_CONVERSATION, which chat.py never defines or imports, so it
      raises before any key is written. */
  function ReinitializeAsWritten(s: Snapshot, newModel: string): (r: Run)
    ensures r.after == s
    ensures r.fault == Some(NameError("DEFAULT_CONVERSATION"))
  {
    Run(s, Some(NameError("DEFAULT_CONVERSATION")))
  }

  /** As written, pressing "GPT-3.5 Chat" in a gpt-4 session leaves the model
      at gpt-4; the intended definition switches it. */
  lemma NewChatAsWrittenKeepsOldModel(s: Snapshot, defaultConversation: Value)
    requires s.model == Present(Str("gpt-4"))
    ensures ReinitializeAsWritten(s, "gpt-3.5-turbo").after.model == Present(Str("gpt-4"))
    ensures ReinitializeAsWritten(s, "gpt-3.5-turbo").fault.Some?
    ensures Reinitialized(s, "gpt-3.5-turbo", defaultConversation).model == Present(Str("gpt-3.5-turbo"))
  {
  }

  /** The new-chat buttons in display order: label and model. */
  const NewChatChoices: seq<(string, string)> := [("GPT-3.5 Chat", "gpt-3.5-turbo"), ("GPT-4 Chat", "gpt-4")]

  datatype ButtonKind = Primary | Secondary

  datatype Button = Button(caption: string, kind: ButtonKind, model: string)

  /** `st.session_state.get("model")`: the stored model, or None when the key
      is missing. */
  function CurrentModel(s: Snapshot): Value {
    if s.model.Present? then s.model.value else Null
  }

  /** The highlight rule: a button is highlighted when the session's model is
      its model. */
  predicate Highlighted(current: Value, choice: (string, string)) {
    current == Str(choice.1)
  }

  /** The loop of `render_new_chat`: one button per choice, highlighted (as
      "primary", with a check-mark prefix) exactly when the session's model is
      the button's model; at most one is highlighted. */
  method NewChatButtons(current: Value) returns (buttons: seq<Button>)
    ensures |buttons| == |NewChatChoices|
    ensures forall i :: 0 <= i < |buttons| ==>
      buttons[i].model == NewChatChoices[i].1 &&
      (buttons[i].kind == Primary <==> Highlighted(current, NewChatChoices[i])) &&
      buttons[i].caption == (if Highlighted(current, NewChatChoices[i]) then "✓ " + NewChatChoices[i].0
                           else NewChatChoices[i].0)
    ensures forall i, j :: 0 <= i < j < |buttons| ==> !(buttons[i].kind == Primary && buttons[j].kind == Primary)
  {
    buttons := [];
    for k := 0 to |NewChatChoices|
      invariant |buttons| == k
      invariant forall i :: 0 <= i < k ==>
        buttons[i].model == NewChatChoices[i].1 &&
        (buttons[i].kind == Primary <==> Highlighted(current, NewChatChoices[i])) &&
        buttons[i].caption == (if Highlighted(current, NewChatChoices[i]) then "✓ " + NewChatChoices[i].0
                             else NewChatChoices[i].0)
    {
      var (text, modelType) := NewChatChoices[k];
      var caption, kind := text, Secondary;
      if current == Str(modelType) {
        caption, kind := "✓ " + text, Primary;
      }
      buttons := buttons + [Button(caption, kind, modelType)];
    }
  }

  /** After a new chat on choice `i`, the next render highlights choice `i`
      and no other. */
  lemma NewChatHighlightsChosenButton(s: Snapshot, i: nat, j: nat, defaultConversation: Value)
    requires i < |NewChatChoices| && j < |NewChatChoices|
    ensures Highlighted(CurrentModel(Reinitialized(s, NewChatChoices[i].1, defaultConversation)), NewChatChoices[j])
            <==> i == j
  {
  }

  // ---------------------------------------------------------------------------
  // Profile menu: sign-out and clear history

  /** The `token` query parameter, as the token decoder reads it. */
  function TokenParam(params: QueryParams): Option<seq<string>> {
    if "token" in params then Some(params["token"]) else None
  }

  /** The sign-out branch of `render_profile`: the query string is cleared,
      then `token` and `user_info` are deleted and the status reset. A missing
      key makes `del` raise, and what follows it does not run. */
  function SignOut(s: Snapshot): (r: Run)
    ensures r.after.queryParams == map[] && r.after.token == Absent
    ensures r.fault.None? <==> s.token.Present? && s.userInfo.Present?
    // on success exactly the credential keys go and the status is reset
    ensures r.fault.None? ==>
      r.after == s.(queryParams := map[], token := Absent, userInfo := Absent,
                    authenticationStatus := Present(Str(NotAuthenticatedStatus)))
    ensures s.token.Absent? ==> r == Run(s.(queryParams := map[]), Some(KeyError("token")))
    ensures s.token.Present? && s.userInfo.Absent? ==>
      r == Run(s.(queryParams := map[], token := Absent), Some(KeyError("user_info")))
    ensures IsSeeded(s) ==> IsSeeded(r.after)
  {
    var cleared := s.(queryParams := map[]);
    if cleared.token.Absent? then Run(cleared, Some(KeyError("token")))
    else
      var noToken := cleared.(token := Absent);
      if noToken.userInfo.Absent? then Run(noToken, Some(KeyError("user_info")))
      else Run(noToken.(userInfo := Absent, authenticationStatus := Present(Str(NotAuthenticatedStatus))), None)
  }

  /** After sign-out the next render pass finds no token: the query string
      has no `token` parameter, so a decoder that yields nothing for a missing
      parameter yields nothing, and seeding leaves `token` absent. */
  lemma SignOutThenSeedFindsNoToken(s: Snapshot, decode: Option<seq<string>> -> Value,
                                    modelParam: Value, id: Value, store: Store)
    requires !Truthy(decode(None))
    ensures var after := SignOut(s).after;
            TokenParam(after.queryParams) == None &&
            Seed(after, Sources(decode(TokenParam(after.queryParams)), modelParam, id, store)).token == Absent
  {
  }

  /** The profile menu is shown: the status is "Authenticated" and a truthy
      `user_info` is stored. */
  predicate ProfileShown(s: Snapshot) {
    s.authenticationStatus == Present(Str(AuthenticatedStatus)) && s.userInfo.Present? && Truthy(s.userInfo.value)
  }

  /** The state effects of `render_profile`. Hidden menu: nothing happens.
      Clear history: the store is asked to clear the user's history and no
      session key changes. Sign out: `SignOut`. */
  function Profile(s: Snapshot, signOutPressed: bool, clearPressed: bool): (r: ProfileRun)
    ensures !ProfileShown(s) ==> r == ProfileRun(s, None, None)
    // clear history leaves the session, the open conversation included, as it was
    ensures !signOutPressed ==> r.after == s
    ensures r.clearedFor.Some? <==>
      clearPressed && ProfileShown(s) && s.userInfo.value.Dict? && "id" in s.userInfo.value.entries
    ensures r.clearedFor.Some? ==> r.clearedFor.value == s.userInfo.value.entries["id"]
    ensures ProfileShown(s) && s.userInfo.value.Dict? && signOutPressed &&
            (clearPressed ==> "id" in s.userInfo.value.entries) ==>
      r.after == SignOut(s).after && r.fault == SignOut(s).fault
    // a truthy `user_info` that is not a dict: `.get` raises, and nothing changes
    ensures ProfileShown(s) && !s.userInfo.value.Dict? ==>
      r == ProfileRun(s, None, Some(AttributeError("get")))
    // clear history without an `id`: the lookup raises before the store call and sign-out
    ensures ProfileShown(s) && s.userInfo.value.Dict? && clearPressed && "id" !in s.userInfo.value.entries ==>
      r == ProfileRun(s, None, Some(KeyError("id")))
    // without sign-out, only these two paths raise
    ensures !signOutPressed && r.fault.Some? ==>
      ProfileShown(s) && (!s.userInfo.value.Dict? || (clearPressed && "id" !in s.userInfo.value.entries))
    ensures IsSeeded(s) ==> IsSeeded(r.after)
  {
    var status := if s.authenticationStatus.Present? then s.authenticationStatus.value else Str(NotAuthenticatedStatus);
    if status != Str(AuthenticatedStatus) then ProfileRun(s, None, None)
    else
      var info := if s.userInfo.Present? then s.userInfo.value else Null;
      if !Truthy(info) then ProfileRun(s, None, None)
      else if !info.Dict? then ProfileRun(s, None, Some(AttributeError("get")))
      else if clearPressed && "id" !in info.entries then ProfileRun(s, None, Some(KeyError("id")))
      else
        var cleared := if clearPressed then Some(info.entries["id"]) else None;
        if signOutPressed then ProfileRun(SignOut(s).after, cleared, SignOut(s).fault)
        else ProfileRun(s, cleared, None)
  }

  // ---------------------------------------------------------------------------
  // Saved questions

  /** The save step of the first `render_sidebar`: with the box ticked, a
      non-empty question is appended at the end, duplicates included; the
      list otherwise stays as it was, and nothing is ever removed. */
  function SavedQuestionsAfter(saved: seq<string>, checkbox: bool, question: string): (r: seq<string>)
    ensures |r| == |saved| + (if checkbox && question != "" then 1 else 0)
    ensures r[..|saved|] == saved
    ensures |r| > |saved| ==> r[|saved|] == question && question != ""
  {
    if checkbox && question != "" then saved + [question] else saved
  }

  /** Saving the same question twice keeps both copies. */
  lemma SavingTwiceKeepsDuplicates(saved: seq<string>, question: string)
    requires question != ""
    ensures SavedQuestionsAfter(SavedQuestionsAfter(saved, true, question), true, question) == saved + [question, question]
  {
  }

  /** The saved-question buttons of the first `render_sidebar`: clicking one
      makes it the local draft; the list itself is only read. */
  method PickSavedQuestion(saved: seq<string>, pressed: Option<string>, draft: string) returns (d: string)
    ensures pressed.Some? && pressed.value in saved ==> d == pressed.value
    ensures !(pressed.Some? && pressed.value in saved) ==> d == draft
  {
    d := draft;
    for k := 0 to |saved|
      invariant d == (if pressed.Some? && pressed.value in saved[..k] then pressed.value else draft)
    {
      if pressed == Some(saved[k]) {
        d := saved[k];
      }
      assert saved[..k + 1] == saved[..k] + [saved[k]];
    }
    assert saved[..|saved|] == saved;
  }

  // ---------------------------------------------------------------------------
  // The session bag

  /** `st.session_state` (the keys above) and the page's query string. */
  class Session {
    var conversationExpanded: Slot<bool>
    var token: Slot<Value>
    var model: Slot<Value>
    var conversation: Slot<Value>
    var savedQuestions: Slot<seq<string>>
    var cid: Slot<Value>
    var userInfo: Slot<Value>
    var authenticationStatus: Slot<Value>
    var queryParams: QueryParams

    function State(): Snapshot
      reads this
    {
      Snapshot(conversationExpanded, token, model, conversation, savedQuestions, cid, userInfo,
               authenticationStatus, queryParams)
    }

    /** A fresh activation: an empty session bag and the page's query string. */
    constructor (params: QueryParams)
      ensures State() == EmptySession(params)
    {
      conversationExpanded, token, model, conversation := Absent, Absent, Absent, Absent;
      savedQuestions, cid, userInfo, authenticationStatus := Absent, Absent, Absent, Absent;
      queryParams := params;
    }

    method LoadAndStoreConversation(store: Store, id: Value)
      modifies this
      ensures State() == Loaded(old(State()), store, id)
    {
      var found := FetchConversation(store, id);
      if Truthy(found) {
        conversation := Present(found);
        model := Present(ModelFromConversation(found.entries));
      }
    }

    method Controller(src: Sources)
      modifies this
      ensures State() == Seed(old(State()), src)
    {
      conversationExpanded := Present(true);
      if Truthy(src.decodedToken) {
        token := Present(src.decodedToken);
      }
      if Truthy(src.modelParam) {
        model := Present(src.modelParam);
      }
      if Truthy(src.cid) {
        LoadAndStoreConversation(src.store, src.cid);
      }
      if model.Absent? {
        model := Present(Str(DefaultModel));
      }
      if savedQuestions.Absent? {
        savedQuestions := Present([]);
      }
    }

    method ReinitializeChat(newModel: string, defaultConversation: Value)
      modifies this
      ensures State() == Reinitialized(old(State()), newModel, defaultConversation)
    {
      conversation := Present(defaultConversation);
      model := Present(Str(newModel));
      cid := Present(Null);
    }

    /** `render_new_chat`: draws the buttons for the current model and starts
        a new chat on the pressed one, if any. */
    method RenderNewChat(pressed: Option<nat>, defaultConversation: Value) returns (buttons: seq<Button>)
      modifies this
      ensures |buttons| == |NewChatChoices|
      ensures forall i :: 0 <= i < |buttons| ==>
        buttons[i].model == NewChatChoices[i].1 &&
        (buttons[i].kind == Primary <==> Highlighted(CurrentModel(old(State())), NewChatChoices[i])) &&
        buttons[i].caption == (if Highlighted(CurrentModel(old(State())), NewChatChoices[i])
                               then "✓ " + NewChatChoices[i].0 else NewChatChoices[i].0)
      ensures forall i, j :: 0 <= i < j < |buttons| ==> !(buttons[i].kind == Primary && buttons[j].kind == Primary)
      ensures pressed.Some? && pressed.value < |NewChatChoices| ==>
        State() == Reinitialized(old(State()), NewChatChoices[pressed.value].1, defaultConversation)
      ensures !(pressed.Some? && pressed.value < |NewChatChoices|) ==> State() == old(State())
    {
      buttons := NewChatButtons(CurrentModel(State()));
      if pressed.Some? && pressed.value < |NewChatChoices| {
        ReinitializeChat(NewChatChoices[pressed.value].1, defaultConversation);
      }
    }

    /** `render_profile`, with the two button presses as inputs. */
    method RenderProfile(signOutPressed: bool, clearPressed: bool) returns (clearedFor: Option<Value>, fault: Option<Fault>)
      modifies this
      ensures ProfileRun(State(), clearedFor, fault) == Profile(old(State()), signOutPressed, clearPressed)
    {
      clearedFor, fault := None, None;
      var status := if authenticationStatus.Present? then authenticationStatus.value else Str(NotAuthenticatedStatus);
      if status != Str(AuthenticatedStatus) {
        return;
      }
      var info := if userInfo.Present? then userInfo.value else Null;
      if !Truthy(info) {
        return;
      }
      if !info.Dict? {
        fault := Some(AttributeError("get"));
        return;
      }
      if clearPressed {
        if "id" !in info.entries {
          fault := Some(KeyError("id"));
          return;
        }
        clearedFor := Some(info.entries["id"]);
      }
      if signOutPressed {
        queryParams := map[];
        if token.Absent? {
          fault := Some(KeyError("token"));
          return;
        }
        token := Absent;
        userInfo := Absent;
        authenticationStatus := Present(Str(NotAuthenticatedStatus));
      }
    }

    /** The saved-question part of the first `render_sidebar`: save the typed
        question if the box is ticked, then let a pressed saved question become
        the draft. A missing `saved_questions` key raises before anything
        changes. */
    method SaveQuestions(checkbox: bool, question: string, pressed: Option<string>) returns (draft: string, fault: Option<Fault>)
      modifies this
      ensures old(savedQuestions).Absent? ==>
        State() == old(State()) && fault == Some(KeyError("saved_questions")) && draft == question
      // after seeding the list exists, so this step never raises and the session stays seeded
      ensures IsSeeded(old(State())) ==> fault.None? && IsSeeded(State())
      ensures old(savedQuestions).Present? ==>
        fault.None? &&
        State() == old(State()).(savedQuestions := Present(SavedQuestionsAfter(old(savedQuestions).value, checkbox, question)))
      ensures old(savedQuestions).Present? ==>
        draft == (if pressed.Some? && pressed.value in savedQuestions.value then pressed.value
                  else if checkbox && question != "" then ""
                  else question)
    {
      draft, fault := question, None;
      if savedQuestions.Absent? {
        fault := Some(KeyError("saved_questions"));
        return;
      }
      if checkbox && question != "" {
        savedQuestions := Present(savedQuestions.value + [question]);
        draft := "";
      }
      draft := PickSavedQuestion(savedQuestions.value, pressed, draft);
    }
  }
}
