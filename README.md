# TherapyChat: chat-session persistence and lifecycle, in Dafny

This project models the core of an emotion-journaling counselling chatbot
built on Streamlit. A signed-in user picks one of ten emotions and chats
with a language model. Each conversation is saved as a *session*: id, date,
emotion, preview and non-system messages. Sessions go into the user's
record, under `chat_sessions`. Later the user can browse, resume, delete and
analyse the stored sessions.

The model covers these parts:

- **`types.dfy`, module `Types`.** Messages, sessions, the emotion-goal
  records, the per-user record with its optional keys, and the top-level
  key set of that record.
- **`chatbot.dfy`, module `Chatbot`.** The emotion table, the system prompt,
  the greeting, the reply fallback, and the keyword match that maps a model
  reply onto an emotion.
- **`chat_sessions.dfy`, module `ChatSessions`.** The pure rules of the
  session list:
  - what a save stores (non-system messages, preview, guards);
  - find, upsert, relabel-or-append and `pop` by index;
  - the context sent to the model;
  - the transcript rebuilt on resume.
- **`goals.dfy`, module `Goals`.** The emotion-goal tracker: +5 per matching
  emotion, capped at 100, then completed and moved to the history.
- **`auth.dfy`, module `Auth`.** Salted password hashes and their check,
  login, the legacy-schema migration on load, and account creation. The
  durable store is the class `UserStore`: a map from user name to record
  that the save and load methods update.
- **`analytics.dfy`, module `Analytics`.** The read-only reports:
  - the history filter and the newest-first stable sort;
  - emotion-event extraction, frequency counts and the dominant emotion;
  - the monthly table and the time-of-day buckets;
  - the paging arithmetic of the tables.
- **`app_state.dfy`, module `AppState`.** `st.session_state` as the class
  `SessionState`, whose fields are the state keys. A key that may be absent
  is an `Option`. Its methods are the handlers that change the state:
  - start, display, send, save and the three autosave gates;
  - emotion selection with goal tracking;
  - close, resume and delete;
  - sign-in and logout.

  Every handler keeps `Valid()` and the store invariant `StoreValid`: each
  stored session list has unique ids. The loops of the source are methods
  with loop invariants, each proved equal to a specification function.

The following are parameters:

| primitive | stands for |
|---|---|
| `digest` | sha256-hex |
| `salt` | uuid4 hex |
| `hash` | Python's `hash` |
| `now` | the ISO timestamp |
| `clock` | `time.time()` |
| `today` | the date text |
| `reply` | the model reply; `None` when the call raised |

Two behaviours of the code are easy to misread, and the model follows the
code in both:

- Closing a chat ("다른 감정 선택하기") keeps `messages`. It only drops
  `current_chat_id`, the displayed ids and the emotion.
- The time-of-day labels read 0-6, 6-12, 12-18 and 18-24. The bins are
  right-closed with the lowest included, so the buckets hold hours 0-6, 7-12,
  13-18 and 19-23.

## Model

| member | source | states |
|---|---|---|
| Types.Keys | auth.py:150 | The top-level keys that `username in user_data` tests: exactly the account names plus each of `chat_sessions`, `chat_history`, `emotions`, `emotion_goals` and `profile` that the record has. |
| Chatbot.EmotionTableShape | chatbot.py:10-21 | The table has exactly ten emotions with pairwise distinct names, in declared order. |
| Chatbot.Describe | chatbot.py:47 | `EMOTIONS.get(emotion, '')`: the description of a known emotion, and the empty text for any other name. |
| Chatbot.SystemPrompt | chatbot.py:32-50 | The base prompt is always a prefix. The prompt equals the base exactly when the emotion is falsy. Otherwise the rest is "\n\n" plus the emotion context. |
| Chatbot.SystemPromptMentions | chatbot.py:46-48 | The prompt for a chosen emotion contains the quoted emotion name and its table description. |
| Chatbot.Greeting | chatbot.py:128-131 | For a truthy emotion the greeting is the fixed head, the emotion name, then the fixed tail. Otherwise it is the fixed neutral text. |
| Chatbot.GreetingDeterminesEmotion | chatbot.py:128-131 | Different emotions get different greetings, and no emotion greeting equals the neutral one. |
| Chatbot.AiResponse | chatbot.py:52-70 | The reply text when the call succeeded, the fixed apology when it raised; no failure propagates. |
| Chatbot.MatchEmotion | chatbot.py:160-164 | Returns the first emotion name, in declared order, that occurs in the text. It returns None exactly when no name occurs. |
| Chatbot.AnalyzeEmotion | chatbot.py:136-167 | None when the call raised. A result is the first of the ten names, in declared order, that occurs in the reply. None on success means no name occurs. |
| ChatSessions.ChatMessages | app.py:703 | The stored messages are exactly the non-system messages of the transcript, never more. |
| ChatSessions.ChatMessagesAppend | app.py:703 | The system-message filter distributes over concatenation, so it keeps the relative order. |
| ChatSessions.ChatMessagesNoSystem | app.py:703 | A transcript without system messages passes the filter unchanged. |
| ChatSessions.Preview | app.py:735-739 | The preview is the content of the first user message, or "새로운 대화" when there is none. |
| ChatSessions.PreviewIsFirstUser | app.py:735-739 | Whichever index holds the first user message, the preview is its content. |
| ChatSessions.SessionToStore | app.py:742-748 | The saved session carries the given id, the save time and the selected emotion. Its messages are the non-system ones. Its preview is the text of the first user message. |
| ChatSessions.FindSession | app.py:751-755 | The index found is the first one whose id matches. None means no session has that id. |
| ChatSessions.LocateSession | app.py:751-755 | The `for`/`break` search loop returns exactly `FindSession`. |
| ChatSessions.Upsert | app.py:750-762 | A session with the same id is replaced, so the length is unchanged. With no such id the session is appended. Sessions with other ids keep their index and value. The saved session is in the result. |
| ChatSessions.UpsertAtExisting | app.py:757-759 | With unique ids, the session at `i` is replaced exactly at `i`. |
| ChatSessions.UpsertKeepsUniqueIds | app.py:750-762 | Upserting keeps ids unique, and the id is then found at the new session. |
| ChatSessions.UpsertTwice | app.py:750-762 | Saving twice under one id equals saving the second version once. A repeated save does not grow the list. |
| ChatSessions.Relabel | app.py:108-124 | For a known id only that session's emotion changes, and everything else stays in place. Otherwise exactly one placeholder is appended, with empty messages and preview "새로운 대화". |
| ChatSessions.RelabelAgain | app.py:108-124 | Relabelling keeps ids unique. Choosing again under the same id adds no second placeholder. |
| ChatSessions.SelectThenFirstSaveStoresTwo | app.py:100-124 | `chat_id` and `current_chat_id` are separate keys. After choosing an emotion and then making the first save, under a different timestamp, the list has two new entries: a placeholder without messages, and the saved session. |
| ChatSessions.RemoveAt | app.py:1111 | `pop(i)`: one fewer session. Those before `i` are unchanged; those after shift down by one. |
| ChatSessions.RemoveAtForgetsId | app.py:1111 | With unique ids, the deleted session's id is gone afterwards and the remaining ids stay unique. |
| ChatSessions.NonAssistant | app.py:1033 | Exactly the non-assistant messages of the transcript. |
| ChatSessions.ApiContextIsNonAssistant | app.py:1033 | When the system message comes first, the comprehension with `index(m) == 0` keeps exactly the non-assistant messages in order. |
| ChatSessions.ResumedMessages | app.py:1156-1164 | The resumed transcript is a fresh system prompt followed by the stored messages verbatim. |
| ChatSessions.ResumedChatMessages | app.py:1156-1164 | The next save strips the system prompt again and stores the old messages followed by the new ones. |
| ChatSessions.ResumeThenSaveReplacesInPlace | app.py:1149-1164 | A resumed session, continued so that a user turn is among its old or new messages, passes the save guards again. It is saved with its old messages plus the new ones, and it replaces itself at its own index. |
| Goals.ObserveOtherEmotion | app.py:58-63 | Without an active goal, or for another emotion, the goals are unchanged. |
| Goals.ObserveTarget | app.py:63-82 | For the target emotion: progress becomes min(progress + 5, 100) and exactly one achievement is appended. Below 100 the goal stays active. At 100 it is completed, stamped, appended to the history and no longer active. |
| Goals.ObservePreservesBounded | app.py:63-82 | No progress exceeds 100, an active goal is below 100, and the history only grows. |
| Goals.CompletesAfterSteps | app.py:63-82 | A goal at progress p is completed after exactly ceil((100 - p) / 5) matching emotions, and is still active one step before. |
| Auth.FirstColon | auth.py:28 | The position of the first ':'; no ':' occurs before it. |
| Auth.Split | auth.py:28 | `split(':')` yields at least one part. |
| Auth.SplitCount | auth.py:28 | `split(':')` yields one more part than there are colons. |
| Auth.SplitPair | auth.py:28 | Splitting `a:b` with colon-free halves gives back `[a, b]`. |
| Auth.CheckPassword | auth.py:26-29 | The two-name unpacking fails, modelled as None, exactly when the stored text does not have exactly one ':'. |
| Auth.HashThenCheck | auth.py:21-29 | With a colon-free salt and digest, `check_password(hash_password(p), p)` holds. Any other attempt is accepted exactly when its salted digest equals that of `p`. |
| Auth.Login | auth.py:63-68 | Granted, with the stored display name, exactly for a known user whose password checks. An unknown user or a wrong password is denied. A malformed stored hash raises. |
| Auth.RegisteredUserLogsIn | auth.py:63-68 | After registering, the password logs in with the display name. A password whose salted digest differs is denied. |
| Auth.LegacySession | auth.py:199-215 | The legacy session: id "chat_legacy_"+ts and date ts. The emotion is the last recorded emotion, or None. The preview is the first message. The messages are the legacy history verbatim. |
| Auth.MigrateKeepsCurrent | auth.py:194-219 | A record that has `chat_sessions` is returned unchanged. |
| Auth.MigrateLegacy | auth.py:194-217 | A record without `chat_sessions` always gets it, and no other key changes. It is empty without legacy history. Otherwise it holds exactly the one legacy session. |
| Auth.MigrateIdempotent | auth.py:194-219 | Loading a migrated record migrates nothing more. |
| Auth.Loaded | auth.py:186-224 | A loaded record always has `chat_sessions`. |
| Auth.AfterLoad | auth.py:220-224 | Loading adds only the initial record of a missing user and changes no existing file. |
| Auth.NewAccount | auth.py:154-169 | The new entry: name, email and hash as given, no sessions, nickname = name, no active goal and an empty history. |
| Auth.UserStore.constructor | auth.py:180-184 | The store starts with the given files. |
| Auth.UserStore.Save | auth.py:180-184 | The user's file becomes the record; no other file changes. |
| Auth.UserStore.Load | auth.py:186-224 | Returns the migrated record, and migration is not written back. A missing file becomes the initial record, which is written and returned. |
| Auth.UserStore.CreateNewUser | auth.py:143-177 | Refused exactly when the name is already a key of the loaded record; then only the load's own write happens. Otherwise the loaded record gains one nested account and is saved. |
| Auth.CreateOnExistingFile | auth.py:147-172 | For an existing file, loading writes nothing. A new name adds exactly one key and keeps the record's keys distinct. |
| Analytics.LexLeTotal | app.py:1296 | String order on dates is total. |
| Analytics.LexLeAntisym | app.py:1296 | String order on dates is antisymmetric. |
| Analytics.LexLeTrans | app.py:1296 | String order on dates is transitive. |
| Analytics.Filtered | app.py:1241-1263 | A session is kept iff it matches both tests: the emotion filter is empty or contains its emotion, and its date lies within each set bound, inclusive. The result is never longer than the input. |
| Analytics.FilteredAppend | app.py:1241-1263 | The filter is order-preserving: it distributes over concatenation. |
| Analytics.NoFilterKeepsAll | app.py:1241-1263 | With no filter set every session is kept, in order. |
| Analytics.MatchesFilter | app.py:1244-1262 | The per-session tests compute exactly the filter predicate. The date test is skipped when no bound is set. |
| Analytics.FilterSessions | app.py:1241-1263 | The collecting loop returns exactly `Filtered`. |
| Analytics.Insert | app.py:1296 | One insertion step is a permutation that adds exactly the inserted session. |
| Analytics.SortNewestFirst | app.py:1296 | The sort is a permutation of its input. |
| Analytics.InsertKeepsOrder | app.py:1296 | Inserting into a newest-first list keeps it newest-first. |
| Analytics.SortIsNewestFirst | app.py:1296 | The sorted list is a permutation of the input and its dates never increase. |
| Analytics.InsertStable | app.py:1296 | An insertion step keeps the relative order of sessions with equal dates. |
| Analytics.SortIsStable | app.py:1296 | `sort(reverse=True)` is stable: sessions with equal dates keep their stored order. |
| Analytics.EmotionEvents | app.py:1348-1361 | No more events than sessions. An event occurs exactly when some session has that date and that truthy emotion. |
| Analytics.EmotionEventsAppend | app.py:1348-1361 | Extraction goes session by session: the events of two lists joined are the events of each, in order. |
| Analytics.EmotionEventsSnoc | app.py:1349-1361 | Each further session adds exactly one event, with its date and emotion, when its emotion is truthy, and none otherwise. |
| Analytics.Emotions | app.py:1348-1361 | The emotion column of the events, position by position. |
| Analytics.First | app.py:1499 | The position of an emotion's first occurrence. |
| Analytics.FirstOfExtended | app.py:1499 | Appending an element does not move the first occurrences before it. |
| Analytics.Distinct | app.py:1499 | The keys of `Counter(emotions)` are the distinct emotions, each once, ordered by first occurrence. |
| Analytics.CountsSumToTotal | app.py:1467 | The counts add up to the number of events. |
| Analytics.ArgMaxFirst | app.py:1468 | `max(keys, key=count)`: a key of highest count, with every earlier key strictly lower. |
| Analytics.Dominant | app.py:1468 | The most felt emotion occurs, and no emotion has a higher count. Any other emotion with the same count first occurs later. |
| Analytics.TieGoesToFirst | app.py:1468 | An emotion as frequent as the maximum but after it among the counter's keys first occurs later. |
| Analytics.RowsInOrder | app.py:1505-1506 | A row is listed exactly for each emotion of the table that occurs, with its count. |
| Analytics.RowsFollowNames | app.py:1505-1506 | Over names without repeats, the rows follow the names' order, so no emotion gets two rows. |
| Analytics.RowsOrderedTail | app.py:1505-1506 | Rows ordered by the tail of a list without repeats are ordered by the whole list and skip its head. |
| Analytics.RowsOrderedCons | app.py:1505-1506 | A row for the head of the list may go in front of rows ordered by the list. |
| Analytics.FirstOfTail | app.py:1505 | Without repeats, a name after the head first occurs one past its position in the tail. |
| Analytics.MonthlyRowsInTableOrder | app.py:1505-1506 | The monthly table lists the occurring emotions in the table's declared order, one row each. |
| Analytics.SumRowsIsSumCounts | app.py:1505-1506 | The monthly rows sum to the table's counts. |
| Analytics.MonthlyRowsCoverAll | app.py:1505-1506 | When every event carries one of the ten emotions, the monthly rows add up to the number of events. |
| Analytics.TimeBucket | app.py:1566-1571 | Bucket 0 holds hours 0-6, and bucket b > 0 holds hours 6b+1 to 6b+6; there are four buckets. |
| Analytics.Cell | app.py:1574-1577 | A cell never exceeds its row total. |
| Analytics.HourEmotions | app.py:1574 | The emotion column of the hour events, position by position. |
| Analytics.SumCellsCons | app.py:1574-1577 | The first event adds one to a bucket's cell sum exactly when it lies in that bucket and its emotion is a column. |
| Analytics.SumCellsOverCover | app.py:1574-1577 | Over duplicate-free columns covering every event's emotion, a bucket's cells add up to its row total. |
| Analytics.RowTotalIsSumOfCells | app.py:1574-1577 | The 합계 column: for every bucket, the sum of its cells over the crosstab's columns (the distinct emotions) equals its row total. |
| Analytics.BucketTotalsAddUp | app.py:1574-1577 | Every event lands in exactly one bucket, so the four row totals add up to the number of events. |
| Analytics.TotalPages | app.py:152 | `max(len // size, 1)`: at least one page, and the full pages never exceed the rows. |
| Analytics.PagesStayInRange | app.py:164-176 | The previous and next buttons keep the page within the page count. |
| Analytics.TrailingRowsHidden | app.py:152-157 | As written, the rows past the last full page are on no reachable page. |
| Analytics.FifteenRowsExample | app.py:152-157 | 15 rows at 10 per page give one page, and row 10 is not shown. |
| Analytics.TotalPagesCeil | app.py:152 | The corrected page count: at least one page, and enough pages for every row. |
| Analytics.EveryRowShown | app.py:152-157 | With the corrected count every row is on the reachable page `row / size`. |
| AppState.AfterSaveKeepsUniqueIds | app.py:722-762 | A save leaves a session list with unique ids. |
| AppState.AfterSaveUpserts | app.py:722-765 | A save changes only `chat_sessions`. It stores the session under its id and grows the list by at most one. Saving again under the same id replaces the earlier save. |
| AppState.FirstExchangeIsSaved | app.py:1029-1047 | The first exchange after choosing an emotion passes all three save guards. |
| AppState.SaveKeepsStoreValid | app.py:765 | Writing a record with unique ids keeps every stored session list unique. |
| AppState.LoadKeepsUniqueIds | auth.py:186-224 | Loading and migrating keep session ids unique. |
| AppState.SessionRecord | app.py:722-762 | The record built by a save is exactly `AfterSave`: the session is upserted, with a missing list starting empty. |
| AppState.UpsertSession | app.py:750-762 | The replace-or-append code computes exactly `Upsert`. |
| AppState.RelabelSessions | app.py:108-124 | The relabel-or-append loop computes exactly `Relabel`. |
| AppState.DisplayedExtends | chatbot.py:105-117 | Rendering only appends ids, and each new id is that of a rendered message. |
| AppState.DisplayedNoRepeats | chatbot.py:105-117 | `displayed_messages` never gains a duplicate. |
| AppState.DisplayedCovers | chatbot.py:105-117 | Afterwards every rendered message's id is recorded. |
| AppState.DisplayedNothingNew | chatbot.py:105-117 | If every id is already recorded, rendering records nothing. |
| AppState.DisplayedIdempotent | chatbot.py:105-117 | Rendering the same transcript twice records nothing new the second time. |
| AppState.MessagesToDisplay | chatbot.py:94-99 | The first loop selects exactly the user and assistant messages, in order. |
| AppState.RecordDisplayed | chatbot.py:105-117 | The second loop computes exactly the displayed-id list `Displayed`. |
| AppState.ContainsUserMessage | app.py:708-712 | The search loop returns true exactly when some message is a user turn. |
| AppState.FirstUserPreview | app.py:735-739 | The preview loop returns exactly `Preview`. |
| AppState.SessionState.FreshIsValid | app.py:685-698 | A fresh session state satisfies the state invariant. |
| AppState.SessionState.constructor | app.py:685-698 | The defaults: not logged in, no emotion, chat not started, login tab, chat page, API key from the environment, no selected chat. |
| AppState.SessionState.InitializeChatHistory | chatbot.py:72-81 | An existing `messages` list is left unchanged and a missing one becomes empty. `displayed_messages` is created only on the chat page. |
| AppState.SessionState.AddMessage | chatbot.py:83-87 | Exactly one message is appended; earlier ones are untouched. |
| AppState.SessionState.AddMessages | app.py:1163-1164 | The resume loop appends the stored messages in order. |
| AppState.SessionState.StartNewChat | chatbot.py:119-134 | The previous transcript is dropped, leaving exactly the system prompt and then the greeting. The greeting is returned. |
| AppState.SessionState.DisplayChatHistory | chatbot.py:89-117 | `displayed_messages` becomes the displayed-id list of the transcript's user and assistant messages. |
| AppState.SessionState.SaveCurrentChat | app.py:701-767 | Saves exactly when all three guards pass. Then the id is fixed, the session is upserted and the record is written. Otherwise the record, the store and `current_chat_id` are untouched. Ids stay unique. |
| AppState.SessionState.StoreChat | app.py:722-765 | The writing half of a save: the id is the current one or a new one, the record becomes `AfterSave`, and the user's file becomes the record. |
| AppState.SessionState.EnsureCurrentChatId | app.py:727-732 | `current_chat_id` is kept if present, otherwise made as "chat_"+timestamp. |
| AppState.SessionState.AutoSave | app.py:770-777 | Saves exactly when logged in and the save guards pass; otherwise nothing changes. |
| AppState.SessionState.PeriodicAutoSave | app.py:780-789 | The first run only records the time. A later run fires when strictly more than 300 s have passed and then restarts the interval. It saves only when it fires and the guards pass. |
| AppState.SessionState.FirstRunAutoSave | app.py:1723-1730 | Fires when its conditions hold and it has not fired since sign-in (logout deletes the `auto_save` key). It sets the `auto_save` flag and saves when the guards pass. |
| AppState.SessionState.Navigate | app.py:919-936 | The chat entry clears the selected history item and saves nothing. History and analysis first autosave, when an emotion is chosen. |
| AppState.SessionState.UpdateEmotionGoal | app.py:44-89 | With an active goal, the record's goals are advanced and saved, even for another emotion. Otherwise neither the record nor the store changes. |
| AppState.SessionState.RecordSelection | app.py:107-133 | Relabel or append under the id, save, then update the goal. The record becomes `Selected` and is written. |
| AppState.SessionState.EnsureChatId | app.py:100-104 | `chat_id` is reused if present, otherwise made as "chat_"+timestamp. |
| AppState.SessionState.RecordIfTracked | app.py:107-133 | Without a loaded session list nothing is recorded or saved. |
| AppState.SessionState.HandleEmotionSelection | app.py:92-140 | The emotion is set and `chat_id` is reused or created. The session list is relabelled or extended, the goal is updated, and a new chat is started with the prompt and the greeting. |
| AppState.SessionState.PostUserMessage | app.py:1022-1047 | Without text or an API key nothing happens. Otherwise the user turn and then the reply (or the apology) are appended. The model sees the non-assistant context up to the user turn, and the chat is saved when the guards pass. |
| AppState.SessionState.AppendExchange | app.py:1029-1043 | Appends the user turn and the reply in that order; the context sent is taken after the user turn. |
| AppState.SessionState.CloseChat | app.py:1050-1066 | Saves under the emotion held before closing. Then it drops `current_chat_id` and the displayed ids, clears the emotion and keeps the transcript. |
| AppState.SessionState.FindSelected | app.py:1076-1169 | Finds the first session with the selected id. An id that is not found clears the selection. |
| AppState.SessionState.ResumeChat | app.py:1143-1166 | Resuming: the messages become the resumed transcript and `current_chat_id` becomes the stored id. The emotion becomes the stored one, the chat page is shown and the displayed ids are dropped. |
| AppState.SessionState.DeleteChat | app.py:1109-1116 | Deleting: the session at its found index is popped and its id is gone. The record is saved, and the selection and confirmation are cleared. |
| AppState.SessionState.SignIn | app.py:823-839 | On success the record is loaded or created, `current_chat_id` is dropped and the transcript initialised: `messages` is created if missing, and `displayed_messages` if missing on the chat page. On failure, a malformed stored hash included, nothing changes. |
| AppState.SessionState.SaveBeforeLogout | app.py:941-949 | With a transcript, the record is saved (with the current chat when the guards pass); without one nothing is written. |
| AppState.SessionState.SaveChatIfReady | app.py:946-947 | The guarded save of logout: the record becomes `SavedRecord`, and the store changes only when the guards pass. |
| AppState.SessionState.ResetAccount | auth.py:71-76 | The account keys are back at their defaults, and the tab is the login tab. |
| AppState.SessionState.ResetChat | auth.py:71-76 | The conversation keys are gone. |
| AppState.SessionState.Logout | app.py:939-957 | After the save, the state is that of a fresh session. The store holds `SavedRecord` of the transcript, or is unchanged without one. |

## Left out

- UI: rendering, widgets, `st.rerun`, the CSS and script block, charts, and the sign-up form (app.py:863-905, with `register_user`, auth.py:79 onwards). They only display or collect input.
- OpenAI calls: the reply is an `Option<string>` parameter, with `None` when the call raised. The `strip()` of the analysed reply is not modelled: it cannot change whether an emotion name occurs inside the text.
- File I/O: pickle and YAML reads and writes. The record store is a map from user name to record (`UserStore`), and the credentials are a map.
- `create_new_user` catches every exception and returns False. The model has no exceptions on that path, since loading cannot fail in it.
- Primitives: sha256, uuid4, Python's `hash`, `datetime.now()` and `time.time()` are parameters, not implementations.
- A save reads `datetime.now()` twice, once for the id and once for the date. Emotion selection also reads it twice, once for a new `chat_id` (app.py:101) and once for the placeholder's date (app.py:120). In both cases the model uses one `now` for the two readings.
- Floating point: percentages and `round(1)` in the reports. Only the integer counts are modelled.
- Time zones and calendars: the UTC-to-KST conversion and the `isocalendar` week grouping. Dates are ISO strings compared as text, and the filter bounds are timestamps in the same format.
- pandas internals: the tie order of `idxmax`/`nlargest` and the layout of `crosstab`. The hour table is modelled as counts per bucket and emotion.
- `_AI_PRINCIPLES` (chatbot.py:24-30) is never used by the prompt and is not modelled.
- Key presence: `selected_emotion` is `None` whether the key is absent or set to None. Both are falsy in every guard that reads it.
- Goal defaults: a missing `progress` (read as 0) and a missing `achievements` list are not modelled. Goals always carry both.
- AppState.SessionState.SaveBeforeLogout: the default record that logout writes when `user_data` is missing (app.py:942-943) is not modelled. A signed-in state always holds a record.
- AppState.SessionState.Logout: `logout` deletes every key except `active_tab`, and the next run re-creates the defaults. The model goes straight to that re-initialised state and does not keep the key-deleted state in between.
- AppState.SessionState.SessionRecord: the record is built as a value and then assigned. The in-place mutation of the shared `user_data` dict, and the aliasing it implies, are not modelled.
- Paging: the page number is a plain parameter. The `{key}_page` session keys are not part of `SessionState`.
- Analytics.RowsInOrder: the monthly and weekly tables are re-sorted by count, descending (app.py:1455, app.py:1519). That re-sort is not modelled; the model states the table order before it.
- Analytics.Distinct: the event list is sorted by date (app.py:1368) and grouped by (year, month) (app.py:1479) before `Counter` sees it. Both fix the first-occurrence order that `Distinct` and the tie-break of `Dominant` depend on. The model takes the period's emotions in the order given and does not model the sort or the grouping.
- AppState: `StoreValid` (unique session ids in every stored file) is an assumption about files already in the store, not something the code checks on read. Every handler requires it and keeps it.
- Auth.UserStore.CreateNewUser: a user name equal to a field key the record lacks (such as "profile" in a fresh record) would overwrite that field in Python. The model files the new account under `accounts` instead, and does not model that collision.

## Findings

| source | as written | input that shows it | evidently intended | confidence | as-written member | corrected member |
|---|---|---|---|---|---|---|
| app.py:152 | `total_pages = max(len(df) // page_size, 1)` rounds the page count down | 15 rows at page size 10: one page, so rows 10-14 can never be shown | round up, `ceil(len / page_size)`, so a trailing partial page is reachable | not executed | Analytics.TrailingRowsHidden | Analytics.EveryRowShown |
