/** Value types shared by the whole model: messages, chat sessions, emotion
    goals and the per-user record that is persisted as one document. */
module Types {

  datatype Option<+T> = None | Some(value: T)

  /** The three message roles of an OpenAI-style chat transcript. */
  datatype Role = System | User | Assistant

  datatype Message = Message(role: Role, content: string)

  /** An emotion value as the application holds it: absent/None, or a string.
      Python treats None and "" alike ("falsy"). */
  type Emotion = Option<string>

  predicate IsSet(e: Emotion)
  {
    e.Some? && e.value != ""
  }

  /** One stored conversation: `id`, `date` (last modification, ISO text),
      `emotion`, `preview` and the transcript without its system message. */
  datatype Session = Session(
    id: string,
    date: string,
    emotion: Emotion,
    preview: string,
    messages: seq<Message>)

  datatype Achievement = Achievement(date: string, description: string)

  /** An emotion goal. A missing `progress` key reads as 0 in the source and
      `achievements` is created on first use; here both are always present. */
  datatype Goal = Goal(
    targetEmotion: Emotion,
    startDate: string,
    endDate: string,
    description: string,
    progress: int,
    completed: bool,
    completionDate: Option<string>,
    achievements: seq<Achievement>)

  datatype EmotionGoals = EmotionGoals(activeGoal: Option<Goal>, history: seq<Goal>)

  datatype Profile = Profile(nickname: string, image: string, bio: string, theme: string)

  /** The entry that account creation nests under the user name inside that
      user's own record. */
  datatype Account = Account(
    name: string,
    email: string,
    passwordHash: string,
    chatSessions: seq<Session>,
    profile: Profile,
    emotionGoals: EmotionGoals)

  /** The schema-less per-user document: every top-level key may be missing,
      hence the Options; `accounts` holds the keys that are user names. */
  datatype UserRecord = UserRecord(
    chatSessions: Option<seq<Session>>,
    chatHistory: Option<seq<Message>>,
    emotions: Option<seq<string>>,
    emotionGoals: Option<EmotionGoals>,
    profile: Option<Profile>,
    accounts: map<string, Account>)

  const ChatSessionsKey := "chat_sessions"
  const ChatHistoryKey := "chat_history"
  const EmotionsKey := "emotions"
  const EmotionGoalsKey := "emotion_goals"
  const ProfileKey := "profile"

  const ReservedKeys: set<string> := {ChatSessionsKey, ChatHistoryKey, EmotionsKey, EmotionGoalsKey, ProfileKey}

  /** A Python dict has each key once: no user name may coincide with a field key. */
  predicate WellFormed(r: UserRecord)
  {
    r.accounts.Keys !! ReservedKeys
  }

  /** The set of top-level keys of the document, as Python's `in` sees them. */
  function Keys(r: UserRecord): (ks: set<string>)
    ensures r.accounts.Keys <= ks
    ensures r.chatSessions.Some? ==> ChatSessionsKey in ks
    ensures forall k :: k in ks ==> k in r.accounts || k in ReservedKeys
    ensures forall k :: k !in r.accounts ==>
              (k in ks <==> || (k == ChatSessionsKey && r.chatSessions.Some?)
                            || (k == ChatHistoryKey && r.chatHistory.Some?)
                            || (k == EmotionsKey && r.emotions.Some?)
                            || (k == EmotionGoalsKey && r.emotionGoals.Some?)
                            || (k == ProfileKey && r.profile.Some?))
  {
    (if r.chatSessions.Some? then {ChatSessionsKey} else {})
    + (if r.chatHistory.Some? then {ChatHistoryKey} else {})
    + (if r.emotions.Some? then {EmotionsKey} else {})
    + (if r.emotionGoals.Some? then {EmotionGoalsKey} else {})
    + (if r.profile.Some? then {ProfileKey} else {})
    + r.accounts.Keys
  }
}
