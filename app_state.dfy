/** The per-browser-session state of the application (`st.session_state`) and
    the handlers that change it: starting, continuing, saving, closing,
    resuming and deleting chats, the autosave gates, emotion selection with
    goal tracking, sign-in and logout. The durable store is an
    `Auth.UserStore`; clocks, the model reply and Python's `hash` are
    parameters. */
module AppState {
  import opened Types
  import opened ChatSessions
  import Chatbot
  import Goals
  import Auth

  const ChatIdPrefix := "chat_"

  /** `active_tab` of the signed-out sidebar: "로그인" or "회원가입". */
  datatype Tab = LoginTab | SignUpTab

  /** `active_page`: "chat", "history" or "analysis". */
  datatype Page = ChatPage | HistoryPage | AnalysisPage

  /** Seconds between periodic saves (app.py:785). */
  const SaveInterval: real := 300.0

  /** The id a save or an emotion selection uses: the one already held, or a
      new one made from the current timestamp. */
  function CurrentOrNew(id: Option<string>, now: string): string
  {
    if id.Some? then id.value else ChatIdPrefix + now
  }

  /** `user_data['chat_sessions']`, with a missing key read as the empty list. */
  function StoredSessions(r: UserRecord): seq<Session>
  {
    if r.chatSessions.Some? then r.chatSessions.value else []
  }

  /** The record after a successful save of `ms` under `id`. */
  function AfterSave(r: UserRecord, id: string, now: string, ms: seq<Message>, sel: Emotion): UserRecord
    requires HasUserMessage(ChatMessages(ms))
  {
    r.(chatSessions := Some(Upsert(StoredSessions(r), SessionToStore(id, now, ms, sel))))
  }

  /** The record after `save_current_chat`, whether or not its guards pass. */
  function SavedRecord(r: UserRecord, current: Option<string>, now: string, ms: seq<Message>, sel: Emotion): UserRecord
  {
    if SaveGuard(Some(ms), sel) then AfterSave(r, CurrentOrNew(current, now), now, ms, sel) else r
  }

  /** A save keeps the session ids of a record unique. */
  lemma AfterSaveKeepsUniqueIds(r: UserRecord, id: string, now: string, ms: seq<Message>, sel: Emotion)
    requires HasUserMessage(ChatMessages(ms))
    requires r.chatSessions.Some? ==> UniqueIds(r.chatSessions.value)
    ensures AfterSave(r, id, now, ms, sel).chatSessions.Some?
    ensures UniqueIds(AfterSave(r, id, now, ms, sel).chatSessions.value)
  {
    UpsertKeepsUniqueIds(StoredSessions(r), SessionToStore(id, now, ms, sel));
  }

  /** A save touches nothing but the session list, stores the session under
      `id`, keeps ids unique and grows the list by at most one; saving again
      under the same id replaces the earlier save rather than adding to it. */
  lemma AfterSaveUpserts(r: UserRecord, id: string, t1: string, t2: string,
                         ms1: seq<Message>, ms2: seq<Message>, s1: Emotion, s2: Emotion)
    requires HasUserMessage(ChatMessages(ms1)) && HasUserMessage(ChatMessages(ms2))
    requires UniqueIds(StoredSessions(r))
    ensures var r1 := AfterSave(r, id, t1, ms1, s1);
      && r1 == r.(chatSessions := r1.chatSessions)
      && UniqueIds(StoredSessions(r1))
      && SessionToStore(id, t1, ms1, s1) in StoredSessions(r1)
      && |StoredSessions(r1)| <= |StoredSessions(r)| + 1
      && AfterSave(r1, id, t2, ms2, s2) == AfterSave(r, id, t2, ms2, s2)
  {
    var ss := StoredSessions(r);
    UpsertKeepsUniqueIds(ss, SessionToStore(id, t1, ms1, s1));
    UpsertTwice(ss, SessionToStore(id, t1, ms1, s1), SessionToStore(id, t2, ms2, s2));
  }

  /** The first exchange of a chat started with a chosen emotion always passes
      the save guards, so it is stored by the save that follows it. */
  lemma FirstExchangeIsSaved(e: Emotion, text: string, reply: string)
    requires IsSet(e)
    ensures SaveGuard(Some(StartedMessages(e) + [Message(User, text), Message(Assistant, reply)]), e)
  {
    var ms := StartedMessages(e) + [Message(User, text), Message(Assistant, reply)];
    assert ms == [ms[0], ms[1]] + [Message(User, text), Message(Assistant, reply)];
    ChatMessagesAppend([ms[0], ms[1]], [Message(User, text), Message(Assistant, reply)]);
    assert ChatMessages(ms)[1] == Message(User, text);
  }

  /** The transcript `start_new_chat` leaves: the system prompt, then the greeting. */
  function StartedMessages(e: Emotion): seq<Message>
  {
    [Message(System, Chatbot.SystemPrompt(e)), Message(Assistant, Chatbot.Greeting(e))]
  }

  predicate HasActiveGoal(r: UserRecord)
  {
    r.emotionGoals.Some? && r.emotionGoals.value.activeGoal.Some?
  }

  /** The record after `update_emotion_goal` observed `emotion`. */
  function ObserveIn(r: UserRecord, emotion: string, today: string): UserRecord
    requires HasActiveGoal(r)
  {
    r.(emotionGoals := Some(Goals.Observe(r.emotionGoals.value, emotion, today)))
  }

  /** The record after `handle_emotion_selection` found a session list. */
  function Selected(r: UserRecord, id: string, emotion: string, now: string, today: string): UserRecord
    requires r.chatSessions.Some?
  {
    var r1 := r.(chatSessions := Some(Relabel(r.chatSessions.value, id, emotion, now)));
    if HasActiveGoal(r1) then ObserveIn(r1, emotion, today) else r1
  }

  /** Every stored record with a session list has unique session ids. */
  predicate StoreValid(files: map<string, UserRecord>)
  {
    forall u :: u in files && files[u].chatSessions.Some? ==> UniqueIds(files[u].chatSessions.value)
  }

  /** Writing a record with unique ids keeps the store valid. */
  lemma SaveKeepsStoreValid(files: map<string, UserRecord>, u: string, r: UserRecord)
    requires StoreValid(files)
    requires r.chatSessions.Some? ==> UniqueIds(r.chatSessions.value)
    ensures StoreValid(files[u := r])
  {
  }

  /** Loading keeps ids unique: the migration adds at most one session to an
      empty list, and a new file starts empty. */
  lemma LoadKeepsUniqueIds(files: map<string, UserRecord>, u: string, now: string)
    requires StoreValid(files)
    ensures UniqueIds(Auth.Loaded(files, u, now).chatSessions.value)
    ensures StoreValid(Auth.AfterLoad(files, u))
  {
  }

  /** The record a save writes (app.py:722-760): a missing session list
      starts empty, the preview is the first user turn and the session is
      upserted under `id`. */
  method SessionRecord(data: UserRecord, id: string, now: string, ms: seq<Message>,
                       chatMessages: seq<Message>, selectedEmotion: Emotion)
    returns (out: UserRecord)
    requires chatMessages == ChatMessages(ms) && HasUserMessage(chatMessages)
    ensures out == AfterSave(data, id, now, ms, selectedEmotion)
  {
    var sessions := if data.chatSessions.Some? then data.chatSessions.value else [];
    var preview := FirstUserPreview(chatMessages);
    var chatSession := Session(id, now, selectedEmotion, preview, chatMessages);
    sessions := UpsertSession(sessions, chatSession);
    out := data.(chatSessions := Some(sessions));
  }

  /** The replace-or-append step of a save (app.py:750-760). */
  method UpsertSession(chatSessions: seq<Session>, chatSession: Session) returns (out: seq<Session>)
    ensures out == Upsert(chatSessions, chatSession)
  {
    var existing := LocateSession(chatSessions, chatSession.id);
    if existing.Some? {
      out := chatSessions[existing.value := chatSession];
    } else {
      out := chatSessions + [chatSession];
    }
  }

  /** The search-and-relabel loop of emotion selection (app.py:108-124). */
  method RelabelSessions(chatSessions: seq<Session>, id: string, emotion: string, now: string)
    returns (out: seq<Session>)
    ensures out == Relabel(chatSessions, id, emotion, now)
  {
    var found := LocateSession(chatSessions, id);
    if found.Some? {
      out := chatSessions[found.value := chatSessions[found.value].(emotion := Some(emotion))];
    } else {
      out := chatSessions + [Placeholder(id, now, emotion)];
    }
  }

  // ---------------------------------------------------------------------------
  // Display bookkeeping (chatbot.py:89-117)

  /** `f"{role}_{hash(content)}"`: the role names contain no '_', so the text
      is determined by, and determines, the pair. */
  datatype MsgId = MsgId(role: Role, hash: int)

  function IdOf(m: Message, hash: string -> int): MsgId
  {
    MsgId(m.role, hash(m.content))
  }

  predicate NoRepeats(ids: seq<MsgId>)
  {
    forall i, j :: 0 <= i < j < |ids| ==> ids[i] != ids[j]
  }

  /** The displayed-id list after rendering `ms` on top of `prev`. */
  function Displayed(prev: seq<MsgId>, ms: seq<Message>, hash: string -> int): seq<MsgId>
    decreases |ms|
  {
    if ms == [] then prev
    else
      var id := IdOf(ms[0], hash);
      Displayed(if id in prev then prev else prev + [id], ms[1..], hash)
  }

  /** Rendering only appends: earlier ids stay in place, and every new id is
      the id of a rendered message. */
  lemma {:induction false} DisplayedExtends(prev: seq<MsgId>, ms: seq<Message>, hash: string -> int)
    ensures prev <= Displayed(prev, ms, hash)
    ensures forall id :: id in Displayed(prev, ms, hash) ==>
              id in prev || exists m :: m in ms && IdOf(m, hash) == id
    decreases |ms|
  {
    if ms != [] {
      var id := IdOf(ms[0], hash);
      var next := if id in prev then prev else prev + [id];
      DisplayedExtends(next, ms[1..], hash);
      assert forall m :: m in ms[1..] ==> m in ms;
    }
  }

  /** The list never gains a duplicate. */
  lemma {:induction false} DisplayedNoRepeats(prev: seq<MsgId>, ms: seq<Message>, hash: string -> int)
    requires NoRepeats(prev)
    ensures NoRepeats(Displayed(prev, ms, hash))
    decreases |ms|
  {
    if ms != [] {
      var id := IdOf(ms[0], hash);
      var next := if id in prev then prev else prev + [id];
      DisplayedNoRepeats(next, ms[1..], hash);
    }
  }

  /** Afterwards every rendered message's id is recorded. */
  lemma {:induction false} DisplayedCovers(prev: seq<MsgId>, ms: seq<Message>, hash: string -> int)
    ensures forall m :: m in ms ==> IdOf(m, hash) in Displayed(prev, ms, hash)
    decreases |ms|
  {
    if ms != [] {
      var id := IdOf(ms[0], hash);
      var next := if id in prev then prev else prev + [id];
      DisplayedCovers(next, ms[1..], hash);
      DisplayedExtends(next, ms[1..], hash);
      assert id in next;
      assert forall m :: m in ms ==> m == ms[0] || m in ms[1..];
    }
  }

  lemma {:induction false} DisplayedNothingNew(prev: seq<MsgId>, ms: seq<Message>, hash: string -> int)
    requires forall m :: m in ms ==> IdOf(m, hash) in prev
    ensures Displayed(prev, ms, hash) == prev
    decreases |ms|
  {
    if ms != [] {
      assert ms[0] in ms;
      assert forall m :: m in ms[1..] ==> m in ms;
      DisplayedNothingNew(prev, ms[1..], hash);
    }
  }

  /** Rendering the same transcript a second time records nothing new, so no
      message is shown twice. */
  lemma DisplayedIdempotent(prev: seq<MsgId>, ms: seq<Message>, hash: string -> int)
    ensures Displayed(Displayed(prev, ms, hash), ms, hash) == Displayed(prev, ms, hash)
  {
    DisplayedCovers(prev, ms, hash);
    DisplayedNothingNew(Displayed(prev, ms, hash), ms, hash);
  }

  /** The first loop of `display_chat_history` (chatbot.py:94-99): the user
      and assistant messages, in order. */
  method MessagesToDisplay(ms: seq<Message>) returns (toDisplay: seq<Message>)
    ensures toDisplay == ChatMessages(ms)
  {
    toDisplay := [];
    var k := 0;
    while k < |ms|
      invariant 0 <= k <= |ms|
      invariant toDisplay == ChatMessages(ms[..k])
    {
      var m := ms[k];
      ChatMessagesAppend(ms[..k], [m]);
      assert [m][1..] == [];
      assert ms[..k + 1] == ms[..k] + [m];
      if m.role == User || m.role == Assistant {
        toDisplay := toDisplay + [m];
      }
      k := k + 1;
    }
    assert ms[..k] == ms;
  }

  /** The second loop of `display_chat_history` (chatbot.py:105-117): each
      message's id is appended unless already recorded. */
  method RecordDisplayed(prev: seq<MsgId>, toDisplay: seq<Message>, hash: string -> int) returns (ids: seq<MsgId>)
    ensures ids == Displayed(prev, toDisplay, hash)
  {
    ids := prev;
    var j := 0;
    while j < |toDisplay|
      invariant 0 <= j <= |toDisplay|
      invariant Displayed(ids, toDisplay[j..], hash) == Displayed(prev, toDisplay, hash)
    {
      var id := IdOf(toDisplay[j], hash);
      assert toDisplay[j..][1..] == toDisplay[j + 1..];
      if id !in ids {
        ids := ids + [id];
      }
      j := j + 1;
    }
  }

  /** The `has_user_message` loop of a save (app.py:708-712). */
  method ContainsUserMessage(chatMessages: seq<Message>) returns (hasUserMessage: bool)
    ensures hasUserMessage == HasUserMessage(chatMessages)
  {
    hasUserMessage := false;
    var k := 0;
    while k < |chatMessages|
      invariant 0 <= k <= |chatMessages| && !hasUserMessage
      invariant forall j :: 0 <= j < k ==> chatMessages[j].role != User
    {
      if chatMessages[k].role == User {
        hasUserMessage := true;
        break;
      }
      k := k + 1;
    }
  }

  /** The preview loop of a save (app.py:735-739). */
  method FirstUserPreview(chatMessages: seq<Message>) returns (preview: string)
    ensures preview == Preview(chatMessages)
  {
    preview := NewChatPreview;
    var j := 0;
    while j < |chatMessages|
      invariant 0 <= j <= |chatMessages| && preview == NewChatPreview
      invariant forall t :: 0 <= t < j ==> chatMessages[t].role != User
    {
      if chatMessages[j].role == User {
        preview := chatMessages[j].content;
        PreviewIsFirstUser(chatMessages, j);
        break;
      }
      j := j + 1;
    }
  }

  // ---------------------------------------------------------------------------

  /** The keys of `st.session_state` this model tracks; a key that may be
      absent is an Option. */
  class SessionState {
    var loggedIn: bool
    var username: Option<string>
    var userData: Option<UserRecord>
    var messages: Option<seq<Message>>
    var displayedMessages: Option<seq<MsgId>>
    var selectedEmotion: Emotion
    var chatStarted: bool
    /** `chat_id`, used by emotion selection. */
    var chatId: Option<string>
    /** `current_chat_id`, used by saves. */
    var currentChatId: Option<string>
    var selectedChatId: Option<string>
    var confirmDelete: bool
    var activeTab: Tab
    var activePage: Page
    var apiKey: string
    var lastSaveTime: Option<real>
    /** Presence of the `auto_save` key. */
    var autoSaveDone: bool

    /** Logged in exactly when a record is loaded, a logged-in state knows its
        user name, and the loaded session list has unique ids. */
    predicate Valid()
      reads this
    {
      && (loggedIn <==> userData.Some?)
      && (loggedIn ==> username.Some?)
      && (userData.Some? && userData.value.chatSessions.Some? ==> UniqueIds(userData.value.chatSessions.value))
    }

    /** The state a fresh browser session starts in (app.py:685-698). */
    predicate Fresh(envKey: string)
      reads this
    {
      && !loggedIn && username.None? && userData.None?
      && messages.None? && displayedMessages.None?
      && selectedEmotion.None? && !chatStarted
      && chatId.None? && currentChatId.None? && selectedChatId.None?
      && !confirmDelete && activeTab == LoginTab && activePage == ChatPage
      && apiKey == envKey && lastSaveTime.None? && !autoSaveDone
    }

    lemma FreshIsValid(envKey: string)
      requires Fresh(envKey)
      ensures Valid()
    {
    }

    constructor (envKey: string)
      ensures Fresh(envKey) && Valid()
    {
      loggedIn := false;
      username := None;
      userData := None;
      messages := None;
      displayedMessages := None;
      selectedEmotion := None;
      chatStarted := false;
      chatId := None;
      currentChatId := None;
      selectedChatId := None;
      confirmDelete := false;
      activeTab := LoginTab;
      activePage := ChatPage;
      apiKey := envKey;
      lastSaveTime := None;
      autoSaveDone := false;
    }

    /** What a call that may save leaves behind: on a save, the record holds
        `ms` upserted under the current (or new) id and the store holds the
        record; otherwise neither changed. */
    twostate predicate Stored(store: Auth.UserStore, now: string, saved: bool, ms: Option<seq<Message>>, sel: Emotion)
      reads this, store
    {
      if saved then
        && old(userData).Some? && username.Some? && ms.Some? && HasUserMessage(ChatMessages(ms.value))
        && userData == Some(AfterSave(old(userData).value, CurrentOrNew(old(currentChatId), now), now, ms.value, sel))
        && store.files == old(store.files)[username.value := userData.value]
      else
        userData == old(userData) && store.files == old(store.files)
    }

    twostate predicate IdAfterSave(now: string, saved: bool)
      reads this
    {
      currentChatId == if saved then Some(CurrentOrNew(old(currentChatId), now)) else old(currentChatId)
    }

    // -------------------------------------------------------------------------
    // chatbot.py

    /** `initialize_chat_history` (chatbot.py:72-81). */
    method InitializeChatHistory()
      modifies this`messages, this`displayedMessages
      ensures messages == if old(messages).Some? then old(messages) else Some([])
      ensures displayedMessages ==
                if activePage == ChatPage && old(displayedMessages).None? then Some([]) else old(displayedMessages)
    {
      if messages.None? {
        messages := Some([]);
      }
      if activePage == ChatPage && displayedMessages.None? {
        displayedMessages := Some([]);
      }
    }

    /** `add_message` (chatbot.py:83-87). */
    method AddMessage(role: Role, content: string)
      requires messages.Some?
      modifies this`messages
      ensures messages == Some(old(messages).value + [Message(role, content)])
    {
      messages := Some(messages.value + [Message(role, content)]);
    }

    /** Appends each of `ms` in turn, as the resume loop does (app.py:1163-1164). */
    method AddMessages(ms: seq<Message>)
      requires messages.Some?
      modifies this`messages
      ensures messages == Some(old(messages).value + ms)
    {
      var start := messages.value;
      var k := 0;
      assert start + ms[..0] == start;
      while k < |ms|
        invariant 0 <= k <= |ms|
        invariant messages == Some(start + ms[..k])
      {
        assert start + ms[..k + 1] == (start + ms[..k]) + [ms[k]];
        messages := Some(messages.value + [ms[k]]);
        k := k + 1;
      }
      assert ms[..k] == ms;
    }

    /** `start_new_chat` (chatbot.py:119-134): the previous transcript is
        dropped and exactly the system prompt and the greeting remain. */
    method StartNewChat(emotion: Emotion) returns (greeting: string)
      modifies this`messages
      ensures greeting == Chatbot.Greeting(emotion)
      ensures messages == Some(StartedMessages(emotion))
    {
      messages := Some([]);
      var systemPrompt := Chatbot.SystemPrompt(emotion);
      messages := Some(messages.value + [Message(System, systemPrompt)]);
      if IsSet(emotion) {
        greeting := Chatbot.GreetingHead + emotion.value + Chatbot.GreetingTail;
      } else {
        greeting := Chatbot.NeutralGreeting;
      }
      AddMessage(Assistant, greeting);
      assert messages.value == [Message(System, systemPrompt), Message(Assistant, greeting)];
    }

    /** `display_chat_history` (chatbot.py:89-117): the user and assistant
        messages are rendered unless their id was recorded, and each newly
        rendered id is recorded. */
    method DisplayChatHistory(hash: string -> int)
      requires messages.Some?
      modifies this`displayedMessages
      ensures displayedMessages ==
                Some(Displayed(if old(displayedMessages).Some? then old(displayedMessages).value else [],
                               ChatMessages(messages.value), hash))
    {
      var toDisplay := MessagesToDisplay(messages.value);
      var prev := if displayedMessages.Some? then displayedMessages.value else [];
      var ids := RecordDisplayed(prev, toDisplay, hash);
      displayedMessages := Some(ids);
    }

    // -------------------------------------------------------------------------
    // Saving (app.py:701-789, 1723-1730)

    /** `save_current_chat` (app.py:701-767). */
    method SaveCurrentChat(store: Auth.UserStore, now: string) returns (saved: bool)
      requires Valid() && StoreValid(store.files)
      requires SaveGuard(messages, selectedEmotion) ==> loggedIn
      modifies this`userData, this`currentChatId, store`files
      ensures Valid() && StoreValid(store.files)
      ensures saved == SaveGuard(messages, selectedEmotion)
      ensures Stored(store, now, saved, messages, selectedEmotion) && IdAfterSave(now, saved)
    {
      if messages.Some? && |messages.value| > 1 {
        var chatMessages := ChatMessages(messages.value);
        if |chatMessages| == 0 {
          return false;
        }
        var hasUserMessage := ContainsUserMessage(chatMessages);
        if !hasUserMessage {
          return false;
        }
        if !IsSet(selectedEmotion) {
          return false;
        }
        StoreChat(store, now, chatMessages);
        return true;
      }
      return false;
    }

    /** The writing half of a save that passed its guards (app.py:722-767):
        the id is fixed, the session upserted and the record written. */
    method StoreChat(store: Auth.UserStore, now: string, chatMessages: seq<Message>)
      requires Valid() && StoreValid(store.files) && loggedIn
      requires SaveGuard(messages, selectedEmotion) && chatMessages == ChatMessages(messages.value)
      modifies this`userData, this`currentChatId, store`files
      ensures Valid() && StoreValid(store.files)
      ensures currentChatId == Some(CurrentOrNew(old(currentChatId), now))
      ensures userData == Some(AfterSave(old(userData).value, currentChatId.value, now, messages.value, selectedEmotion))
      ensures store.files == old(store.files)[username.value := userData.value]
    {
      var id := EnsureCurrentChatId(now);
      var data := SessionRecord(userData.value, id, now, messages.value, chatMessages, selectedEmotion);
      AfterSaveKeepsUniqueIds(userData.value, id, now, messages.value, selectedEmotion);
      SaveKeepsStoreValid(store.files, username.value, data);
      userData := Some(data);
      store.Save(username.value, data);
    }

    /** The id a save files under (app.py:726-731): `current_chat_id`, made
        from the current timestamp when there is none yet. */
    method EnsureCurrentChatId(now: string) returns (id: string)
      modifies this`currentChatId
      ensures currentChatId == Some(id) && id == CurrentOrNew(old(currentChatId), now)
    {
      if currentChatId.None? {
        currentChatId := Some(ChatIdPrefix + now);
      }
      id := currentChatId.value;
    }

    /** `auto_save` (app.py:770-777). */
    method AutoSave(store: Auth.UserStore, now: string) returns (saved: bool)
      requires Valid() && StoreValid(store.files)
      modifies this`userData, this`currentChatId, store`files
      ensures Valid() && StoreValid(store.files)
      ensures saved == (loggedIn && SaveGuard(messages, selectedEmotion))
      ensures Stored(store, now, saved, messages, selectedEmotion) && IdAfterSave(now, saved)
    {
      saved := false;
      if loggedIn && userData.Some? && username.Some? && IsSet(selectedEmotion) {
        if messages.Some? && |messages.value| > 1 {
          saved := SaveCurrentChat(store, now);
        }
      }
    }

    /** The five-minute save (app.py:780-789): `clock` is `time.time()`. The
        first run only records the time; later runs save once strictly more
        than 300 s have passed and then restart the interval. */
    method PeriodicAutoSave(store: Auth.UserStore, clock: real, now: string) returns (fired: bool, saved: bool)
      requires Valid() && StoreValid(store.files)
      modifies this`lastSaveTime, this`userData, this`currentChatId, store`files
      ensures Valid() && StoreValid(store.files)
      ensures var last := if old(lastSaveTime).Some? then old(lastSaveTime).value else clock;
        && fired == (clock - last > SaveInterval && loggedIn && IsSet(selectedEmotion))
        && lastSaveTime == Some(if fired then clock else last)
      ensures old(lastSaveTime).None? ==> !fired
      ensures saved ==> fired
      ensures fired ==> saved == SaveGuard(messages, selectedEmotion)
      ensures Stored(store, now, saved, messages, selectedEmotion) && IdAfterSave(now, saved)
    {
      if lastSaveTime.None? {
        lastSaveTime := Some(clock);
      }
      var currentTime := clock;
      fired, saved := false, false;
      if currentTime - lastSaveTime.value > SaveInterval && loggedIn && IsSet(selectedEmotion) {
        fired := true;
        saved := AutoSave(store, now);
        lastSaveTime := Some(currentTime);
      }
    }

    /** The save at the end of a run (app.py:1723-1730), made at most once
        until logout deletes the `auto_save` key. */
    method FirstRunAutoSave(store: Auth.UserStore, now: string) returns (fired: bool, saved: bool)
      requires Valid() && StoreValid(store.files)
      modifies this`autoSaveDone, this`userData, this`currentChatId, store`files
      ensures Valid() && StoreValid(store.files)
      ensures fired == (!old(autoSaveDone) && loggedIn && messages.Some? && |messages.value| > 1 && IsSet(selectedEmotion))
      ensures autoSaveDone == (old(autoSaveDone) || fired)
      ensures saved ==> fired
      ensures fired ==> saved == SaveGuard(messages, selectedEmotion)
      ensures Stored(store, now, saved, messages, selectedEmotion) && IdAfterSave(now, saved)
    {
      fired, saved := false, false;
      if loggedIn && messages.Some? && |messages.value| > 1 && IsSet(selectedEmotion) && !autoSaveDone {
        autoSaveDone := true;
        fired := true;
        saved := AutoSave(store, now);
      }
    }

    /** The sidebar menu (app.py:919-936): leaving for the history or analysis
        page first autosaves when an emotion is chosen; the chat entry clears
        the selected history item. */
    method Navigate(page: Page, store: Auth.UserStore, now: string) returns (saved: bool)
      requires Valid() && StoreValid(store.files) && loggedIn
      modifies this`activePage, this`selectedChatId, this`userData, this`currentChatId, store`files
      ensures Valid() && StoreValid(store.files)
      ensures activePage == page
      ensures page == ChatPage ==> selectedChatId.None? && !saved
      ensures page != ChatPage ==> selectedChatId == old(selectedChatId)
                                   && saved == SaveGuard(messages, selectedEmotion)
      ensures Stored(store, now, saved, messages, selectedEmotion) && IdAfterSave(now, saved)
    {
      saved := false;
      if page == ChatPage {
        activePage := ChatPage;
        selectedChatId := None;
      } else {
        if IsSet(selectedEmotion) {
          saved := AutoSave(store, now);
        }
        activePage := page;
      }
    }

    // -------------------------------------------------------------------------
    // Emotion selection and goals (app.py:44-140)

    /** `update_emotion_goal` (app.py:44-89): with an active goal, the goals
        are advanced and the record is saved, even for another emotion;
        otherwise nothing happens. */
    method UpdateEmotionGoal(store: Auth.UserStore, emotion: string, today: string)
      requires Valid() && StoreValid(store.files)
      modifies this`userData, store`files
      ensures Valid() && StoreValid(store.files)
      ensures loggedIn && HasActiveGoal(old(userData).value) ==>
                && userData == Some(ObserveIn(old(userData).value, emotion, today))
                && store.files == old(store.files)[username.value := userData.value]
      ensures !(loggedIn && HasActiveGoal(old(userData).value)) ==>
                userData == old(userData) && store.files == old(store.files)
    {
      if !loggedIn {
        return;
      }
      var data := userData.value;
      var goals := if data.emotionGoals.Some? then data.emotionGoals.value else EmotionGoals(None, []);
      if goals.activeGoal.None? {
        return;
      }
      var goal := goals.activeGoal.value;
      if goal.targetEmotion == Some(emotion) {
        var progress := goal.progress;
        progress := Goals.Min(progress + Goals.Step, Goals.Full);
        goal := goal.(progress := progress);
        goal := goal.(achievements := goal.achievements + [Achievement(today, Goals.AchievementText(emotion))]);
        goals := goals.(activeGoal := Some(goal));
        if progress >= Goals.Full {
          goal := goal.(completed := true, completionDate := Some(today));
          goals := goals.(history := goals.history + [goal], activeGoal := None);
        }
      }
      data := data.(emotionGoals := Some(goals));
      SaveKeepsStoreValid(store.files, username.value, data);
      userData := Some(data);
      store.Save(username.value, data);
    }

    /** The record part of an emotion selection (app.py:107-133): relabel
        or append a placeholder under `id`, save, then update the goal. */
    method RecordSelection(store: Auth.UserStore, id: string, emotion: string, now: string, today: string)
      requires Valid() && StoreValid(store.files)
      requires userData.Some? && userData.value.chatSessions.Some?
      modifies this`userData, store`files
      ensures Valid() && StoreValid(store.files)
      ensures userData == Some(Selected(old(userData).value, id, emotion, now, today))
      ensures store.files == old(store.files)[username.value := userData.value]
    {
      var sessions := RelabelSessions(userData.value.chatSessions.value, id, emotion, now);
      RelabelAgain(userData.value.chatSessions.value, id, emotion, emotion, now, now);
      var relabelled := userData.value.(chatSessions := Some(sessions));
      userData := Some(relabelled);
      SaveKeepsStoreValid(store.files, username.value, relabelled);
      store.Save(username.value, relabelled);
      UpdateEmotionGoal(store, emotion, today);
      assert userData.value == Selected(old(userData).value, id, emotion, now, today);
    }

    /** The `chat_id` an emotion selection files under (app.py:100-104): the
        one held, or a new one from the current timestamp. */
    method EnsureChatId(now: string) returns (id: string)
      modifies this`chatId
      ensures chatId == Some(id) && id == CurrentOrNew(old(chatId), now)
    {
      if chatId.None? {
        chatId := Some(ChatIdPrefix + now);
      }
      id := chatId.value;
    }

    /** The session-list guard of an emotion selection (app.py:107): without a
        loaded session list nothing is recorded or saved. */
    method RecordIfTracked(store: Auth.UserStore, id: string, emotion: string, now: string, today: string)
      requires Valid() && StoreValid(store.files)
      modifies this`userData, store`files
      ensures Valid() && StoreValid(store.files)
      ensures old(userData).Some? && old(userData).value.chatSessions.Some? ==>
                && userData == Some(Selected(old(userData).value, id, emotion, now, today))
                && store.files == old(store.files)[username.value := userData.value]
      ensures !(old(userData).Some? && old(userData).value.chatSessions.Some?) ==>
                userData == old(userData) && store.files == old(store.files)
    {
      if userData.Some? && userData.value.chatSessions.Some? {
        RecordSelection(store, id, emotion, now, today);
      }
    }

    /** `handle_emotion_selection` (app.py:92-140): keyed by `chat_id`, not by
        `current_chat_id`. */
    method HandleEmotionSelection(store: Auth.UserStore, emotion: string, now: string, today: string)
      requires Valid() && StoreValid(store.files)
      modifies this`selectedEmotion, this`chatId, this`userData, this`chatStarted, this`messages, store`files
      ensures Valid() && StoreValid(store.files)
      ensures selectedEmotion == Some(emotion) && chatStarted
      ensures chatId == Some(CurrentOrNew(old(chatId), now))
      ensures messages == Some(StartedMessages(Some(emotion)))
      ensures old(userData).Some? && old(userData).value.chatSessions.Some? ==>
                && userData == Some(Selected(old(userData).value, chatId.value, emotion, now, today))
                && store.files == old(store.files)[username.value := userData.value]
      ensures !(old(userData).Some? && old(userData).value.chatSessions.Some?) ==>
                userData == old(userData) && store.files == old(store.files)
    {
      selectedEmotion := Some(emotion);
      var id := EnsureChatId(now);
      RecordIfTracked(store, id, emotion, now, today);
      chatStarted := true;
      var _ := StartNewChat(Some(emotion));
    }

    // -------------------------------------------------------------------------
    // The chat page (app.py:1022-1066)

    /** Sending a message (app.py:1022-1047): nothing without text or without
        an API key; otherwise the user turn is appended, the context sent to
        the model is `sent`, the reply (or the apology) is appended, and the
        chat is saved. */
    method PostUserMessage(store: Auth.UserStore, text: string, reply: Option<string>, now: string)
      returns (sent: seq<Message>, saved: bool)
      requires Valid() && StoreValid(store.files) && loggedIn && messages.Some?
      modifies this`messages, this`userData, this`currentChatId, store`files
      ensures Valid() && StoreValid(store.files)
      ensures text == "" || apiKey == "" ==> messages == old(messages) && sent == [] && !saved
      ensures text != "" && apiKey != "" ==>
                && sent == ApiContext(old(messages).value + [Message(User, text)])
                && messages == Some(old(messages).value + [Message(User, text), Message(Assistant, Chatbot.AiResponse(reply))])
                && saved == SaveGuard(messages, selectedEmotion)
      ensures Stored(store, now, saved, messages, selectedEmotion) && IdAfterSave(now, saved)
    {
      sent, saved := [], false;
      if text == "" || apiKey == "" {
        return;
      }
      sent := AppendExchange(text, reply);
      saved := SaveCurrentChat(store, now);
    }

    /** The two turns of one exchange: the user's text, then the reply or the
        apology; the model sees the transcript up to the user's turn. */
    method AppendExchange(text: string, reply: Option<string>) returns (sent: seq<Message>)
      requires messages.Some?
      modifies this`messages
      ensures sent == ApiContext(old(messages).value + [Message(User, text)])
      ensures messages == Some(old(messages).value + [Message(User, text), Message(Assistant, Chatbot.AiResponse(reply))])
    {
      AddMessage(User, text);
      sent := ApiContext(messages.value);
      var aiResponse := Chatbot.AiResponse(reply);
      AddMessage(Assistant, aiResponse);
      assert messages.value == old(messages).value + [Message(User, text), Message(Assistant, aiResponse)];
    }

    /** "다른 감정 선택하기" (app.py:1050-1066): save, then forget the current
        id, the displayed ids and the emotion. The transcript is kept. */
    method CloseChat(store: Auth.UserStore, now: string) returns (saved: bool)
      requires Valid() && StoreValid(store.files) && loggedIn
      modifies this`userData, this`currentChatId, this`displayedMessages, this`selectedEmotion, this`chatStarted, store`files
      ensures Valid() && StoreValid(store.files)
      ensures saved == SaveGuard(messages, old(selectedEmotion))
      ensures Stored(store, now, saved, messages, old(selectedEmotion))
      ensures currentChatId.None? && displayedMessages.None? && selectedEmotion.None? && !chatStarted
      ensures messages == old(messages)
    {
      saved := SaveCurrentChat(store, now);
      currentChatId := None;
      displayedMessages := None;
      selectedEmotion := None;
      chatStarted := false;
    }

    // -------------------------------------------------------------------------
    // The history page (app.py:1076-1169)

    /** The lookup of the selected history item (app.py:1076-1086); an id that
        is not found is cleared (app.py:1167-1169). */
    method FindSelected() returns (found: Option<nat>)
      requires userData.Some? && userData.value.chatSessions.Some? && selectedChatId.Some?
      modifies this`selectedChatId
      ensures found == FindSession(userData.value.chatSessions.value, old(selectedChatId).value)
      ensures selectedChatId == if found.None? then None else old(selectedChatId)
    {
      found := LocateSession(userData.value.chatSessions.value, selectedChatId.value);
      if found.None? {
        selectedChatId := None;
      }
    }

    /** "이 대화 계속하기" (app.py:1143-1166): the stored session at `i` becomes
        the current chat again, under its own id. */
    method ResumeChat(i: nat)
      requires userData.Some? && userData.value.chatSessions.Some? && i < |userData.value.chatSessions.value|
      modifies this`activePage, this`selectedEmotion, this`chatStarted, this`currentChatId,
               this`displayedMessages, this`messages
      ensures var s := userData.value.chatSessions.value[i];
        && messages == Some(ResumedMessages(s))
        && currentChatId == Some(s.id)
        && selectedEmotion == s.emotion
        && chatStarted && displayedMessages.None? && activePage == ChatPage
    {
      var selectedChat := userData.value.chatSessions.value[i];
      activePage := ChatPage;
      selectedEmotion := selectedChat.emotion;
      chatStarted := true;
      currentChatId := Some(selectedChat.id);
      displayedMessages := None;
      messages := Some([]);
      var systemPrompt := Chatbot.SystemPrompt(selectedChat.emotion);
      AddMessage(System, systemPrompt);
      assert messages.value == [Message(System, systemPrompt)];
      AddMessages(selectedChat.messages);
    }

    /** "예, 삭제합니다" (app.py:1109-1116): the session found at `i` is popped
        and the record saved. */
    method DeleteChat(store: Auth.UserStore, i: nat)
      requires Valid() && StoreValid(store.files) && loggedIn
      requires userData.value.chatSessions.Some? && i < |userData.value.chatSessions.value|
      modifies this`userData, this`selectedChatId, this`confirmDelete, store`files
      ensures Valid() && StoreValid(store.files)
      ensures userData == Some(old(userData).value.(chatSessions :=
                Some(RemoveAt(old(userData).value.chatSessions.value, i))))
      ensures FindSession(userData.value.chatSessions.value, old(userData).value.chatSessions.value[i].id).None?
      ensures store.files == old(store.files)[username.value := userData.value]
      ensures selectedChatId.None? && !confirmDelete
    {
      var sessions := userData.value.chatSessions.value;
      RemoveAtForgetsId(sessions, i);
      sessions := sessions[..i] + sessions[i + 1..];
      userData := Some(userData.value.(chatSessions := Some(sessions)));
      SaveKeepsStoreValid(store.files, username.value, userData.value);
      store.Save(username.value, userData.value);
      selectedChatId := None;
      confirmDelete := false;
    }

    // -------------------------------------------------------------------------
    // Sign-in and logout (app.py:823-839, 939-957; auth.py:71-76)

    /** The login button (app.py:823-839): on success the user's record is
        loaded (and created when missing), the current id is dropped and the
        transcript initialised; otherwise, including a malformed stored hash,
        nothing changes. */
    method SignIn(store: Auth.UserStore, creds: map<string, Auth.Credential>, user: string,
                  password: string, digest: string -> string, now: string)
      returns (outcome: Auth.LoginOutcome)
      requires Valid() && StoreValid(store.files) && !loggedIn
      modifies this`loggedIn, this`username, this`userData, this`currentChatId,
               this`messages, this`displayedMessages, store`files
      ensures Valid() && StoreValid(store.files)
      ensures outcome == Auth.Login(creds, user, password, digest)
      ensures !outcome.Granted? ==>
                && !loggedIn && username == old(username) && userData == old(userData)
                && currentChatId == old(currentChatId) && messages == old(messages)
                && displayedMessages == old(displayedMessages) && store.files == old(store.files)
      ensures outcome.Granted? ==>
                && loggedIn && username == Some(user)
                && userData == Some(Auth.Loaded(old(store.files), user, now))
                && store.files == Auth.AfterLoad(old(store.files), user)
                && currentChatId.None?
                && messages == (if old(messages).Some? then old(messages) else Some([]))
                && displayedMessages ==
                     (if activePage == ChatPage && old(displayedMessages).None? then Some([]) else old(displayedMessages))
    {
      outcome := Auth.Login(creds, user, password, digest);
      if outcome.Granted? {
        loggedIn := true;
        username := Some(user);
        LoadKeepsUniqueIds(store.files, user, now);
        var data := store.Load(user, now);
        userData := Some(data);
        currentChatId := None;
        InitializeChatHistory();
      }
    }

    /** The saving half of the logout button (app.py:941-949). */
    method SaveBeforeLogout(store: Auth.UserStore, now: string)
      requires Valid() && StoreValid(store.files) && loggedIn
      modifies this`userData, this`currentChatId, store`files
      ensures StoreValid(store.files)
      ensures messages.None? ==> store.files == old(store.files)
      ensures messages.Some? ==>
                store.files == old(store.files)[username.value :=
                  SavedRecord(old(userData).value, old(currentChatId), now, messages.value, selectedEmotion)]
    {
      // The default record for a missing `user_data` (app.py:942-943) cannot
      // be needed: a logged-in state always holds one.
      if messages.Some? {
        SaveChatIfReady(store, now);
        SaveKeepsStoreValid(store.files, username.value, userData.value);
        store.Save(username.value, userData.value);
      }
    }

    /** The guarded `save_current_chat` call of the logout button
        (app.py:946-947): the record becomes `SavedRecord` of the transcript. */
    method SaveChatIfReady(store: Auth.UserStore, now: string)
      requires Valid() && StoreValid(store.files) && loggedIn && messages.Some?
      modifies this`userData, this`currentChatId, store`files
      ensures Valid() && StoreValid(store.files)
      ensures userData == Some(SavedRecord(old(userData).value, old(currentChatId), now, messages.value, selectedEmotion))
      ensures store.files == if SaveGuard(messages, selectedEmotion)
                             then old(store.files)[username.value := userData.value] else old(store.files)
    {
      if |messages.value| > 1 && IsSet(selectedEmotion) {
        var saved := SaveCurrentChat(store, now);
        if saved {
          assert userData.value == AfterSave(old(userData).value, CurrentOrNew(old(currentChatId), now),
                                             now, messages.value, selectedEmotion);
        }
      }
    }

    /** The sign-in keys of a fresh session; the API key comes back from the
        environment. */
    method ResetAccount(envKey: string)
      modifies this`loggedIn, this`username, this`userData, this`activeTab, this`activePage,
               this`apiKey, this`lastSaveTime, this`autoSaveDone
      ensures !loggedIn && username.None? && userData.None?
      ensures activeTab == LoginTab && activePage == ChatPage
      ensures apiKey == envKey && lastSaveTime.None? && !autoSaveDone
    {
      loggedIn := false;
      username := None;
      userData := None;
      activeTab := LoginTab;
      activePage := ChatPage;
      apiKey := envKey;
      lastSaveTime := None;
      autoSaveDone := false;
    }

    /** Drops the conversation keys. */
    method ResetChat()
      modifies this`messages, this`displayedMessages, this`selectedEmotion, this`chatStarted,
               this`chatId, this`currentChatId, this`selectedChatId, this`confirmDelete
      ensures messages.None? && displayedMessages.None? && selectedEmotion.None? && !chatStarted
      ensures chatId.None? && currentChatId.None? && selectedChatId.None? && !confirmDelete
    {
      messages := None;
      displayedMessages := None;
      selectedEmotion := None;
      chatStarted := false;
      chatId := None;
      currentChatId := None;
      selectedChatId := None;
      confirmDelete := false;
    }

    /** The logout button (app.py:939-957) followed by `logout`
        (auth.py:71-76): the record is saved, with the current chat when the
        guards pass; then every key but the login tab is dropped, and the
        next run re-creates the defaults, so the state is that of a fresh
        session. */
    method Logout(store: Auth.UserStore, envKey: string, now: string)
      requires Valid() && StoreValid(store.files) && loggedIn
      modifies this, store`files
      ensures Fresh(envKey) && Valid() && StoreValid(store.files)
      ensures old(messages).None? ==> store.files == old(store.files)
      ensures old(messages).Some? ==>
                store.files == old(store.files)[old(username).value :=
                  SavedRecord(old(userData).value, old(currentChatId), now, old(messages).value, old(selectedEmotion))]
    {
      SaveBeforeLogout(store, now);
      ResetAccount(envKey);
      ResetChat();
      FreshIsValid(envKey);
    }
  }
}
