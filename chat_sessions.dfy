/** The pure rules behind saving, relabelling, resuming and deleting chat
    sessions: what a save stores, where it goes in the session list, and what
    is sent to the language model. The state that these rules update lives in
    `AppState.SessionState`. */
module ChatSessions {
  import opened Types
  import Chatbot

  /** The preview of a conversation that has no user message yet. */
  const NewChatPreview: string := "새로운 대화"

  // ---------------------------------------------------------------------------
  // What a save stores

  /** The transcript without its system messages, in conversation order. */
  function ChatMessages(ms: seq<Message>): (r: seq<Message>)
    ensures |r| <= |ms|
    ensures forall m :: m in r <==> m in ms && m.role != System
  {
    if ms == [] then []
    else (if ms[0].role == System then [] else [ms[0]]) + ChatMessages(ms[1..])
  }

  /** Dropping system messages commutes with concatenation, so the filter keeps
      the relative order of everything it keeps. */
  lemma {:induction false} ChatMessagesAppend(a: seq<Message>, b: seq<Message>)
    ensures ChatMessages(a + b) == ChatMessages(a) + ChatMessages(b)
  {
    if a == [] {
      assert a + b == b;
    } else {
      assert (a + b)[0] == a[0];
      assert (a + b)[1..] == a[1..] + b;
      ChatMessagesAppend(a[1..], b);
    }
  }

  /** A transcript with no system message is stored verbatim. */
  lemma {:induction false} ChatMessagesNoSystem(ms: seq<Message>)
    requires forall i :: 0 <= i < |ms| ==> ms[i].role != System
    ensures ChatMessages(ms) == ms
  {
    if ms != [] {
      ChatMessagesNoSystem(ms[1..]);
    }
  }

  predicate HasUserMessage(ms: seq<Message>)
  {
    exists i :: 0 <= i < |ms| && ms[i].role == User
  }

  /** The content of the first user message, or the placeholder text. */
  function Preview(ms: seq<Message>): (p: string)
    ensures HasUserMessage(ms) ==>
      exists i :: 0 <= i < |ms| && ms[i].role == User && p == ms[i].content
                  && forall j :: 0 <= j < i ==> ms[j].role != User
    ensures !HasUserMessage(ms) ==> p == NewChatPreview
  {
    if ms == [] then NewChatPreview
    else if ms[0].role == User then ms[0].content
    else
      var p := Preview(ms[1..]);
      assert HasUserMessage(ms) ==> HasUserMessage(ms[1..]) by {
        if HasUserMessage(ms) {
          var i :| 0 <= i < |ms| && ms[i].role == User;
          assert ms[1..][i - 1].role == User;
        }
      }
      assert HasUserMessage(ms[1..]) ==>
        exists i :: 0 <= i < |ms| && ms[i].role == User && p == ms[i].content
                    && forall j :: 0 <= j < i ==> ms[j].role != User
      by {
        if HasUserMessage(ms[1..]) {
          var k :| 0 <= k < |ms[1..]| && ms[1..][k].role == User && p == ms[1..][k].content
                   && forall j :: 0 <= j < k ==> ms[1..][j].role != User;
          assert forall j :: 0 <= j < k + 1 ==> ms[j].role != User by {
            forall j | 0 <= j < k + 1 ensures ms[j].role != User {
              if j > 0 { assert ms[j] == ms[1..][j - 1]; }
            }
          }
        }
      }
      p
  }

  /** The preview is the content of the first user message, wherever that is. */
  lemma {:induction false} PreviewIsFirstUser(ms: seq<Message>, k: nat)
    requires k < |ms| && ms[k].role == User
    requires forall j :: 0 <= j < k ==> ms[j].role != User
    ensures Preview(ms) == ms[k].content
  {
    if k > 0 {
      assert ms[1..][k - 1] == ms[k];
      PreviewIsFirstUser(ms[1..], k - 1);
    }
  }

  /** The three guards of a save: more than one message, some user message
      among the non-system ones, and a truthy selected emotion. */
  predicate SaveGuard(messages: Option<seq<Message>>, selected: Emotion)
  {
    && messages.Some?
    && |messages.value| > 1
    && HasUserMessage(ChatMessages(messages.value))
    && IsSet(selected)
  }

  /** The session a successful save writes. */
  function SessionToStore(id: string, now: string, messages: seq<Message>, selected: Emotion): (s: Session)
    requires HasUserMessage(ChatMessages(messages))
    ensures s.id == id && s.date == now && s.emotion == selected
    ensures s.messages == ChatMessages(messages)
    ensures exists i :: 0 <= i < |s.messages| && s.messages[i].role == User && s.preview == s.messages[i].content
                        && forall j :: 0 <= j < i ==> s.messages[j].role != User
  {
    var cm := ChatMessages(messages);
    Session(id, now, selected, Preview(cm), cm)
  }

  /** The placeholder that selecting an emotion appends for an unknown chat id. */
  function Placeholder(id: string, now: string, emotion: string): Session
  {
    Session(id, now, Some(emotion), NewChatPreview, [])
  }

  // ---------------------------------------------------------------------------
  // Lookup and update by id

  predicate UniqueIds(ss: seq<Session>)
  {
    forall i, j :: 0 <= i < j < |ss| ==> ss[i].id != ss[j].id
  }

  /** The index of the first session with the given id, as the `for ... break`
      searches find it. */
  function FindSession(ss: seq<Session>, id: string): (r: Option<nat>)
    ensures r.Some? ==> r.value < |ss| && ss[r.value].id == id
                        && forall j :: 0 <= j < r.value ==> ss[j].id != id
    ensures r.None? <==> forall j :: 0 <= j < |ss| ==> ss[j].id != id
  {
    if ss == [] then None
    else if ss[0].id == id then Some(0)
    else
      match FindSession(ss[1..], id)
      case None => None
      case Some(k) => Some(k + 1)
  }

  /** The search loop over the stored sessions (app.py:751-755, 1080-1084). */
  method LocateSession(ss: seq<Session>, id: string) returns (found: Option<nat>)
    ensures found == FindSession(ss, id)
  {
    var i := 0;
    while i < |ss|
      invariant 0 <= i <= |ss|
      invariant forall j :: 0 <= j < i ==> ss[j].id != id
    {
      if ss[i].id == id {
        return Some(i);
      }
      i := i + 1;
    }
    return None;
  }

  /** The upsert of a save: replace the session with the same id in place, or
      append when there is none. */
  function Upsert(ss: seq<Session>, s: Session): (r: seq<Session>)
    ensures (exists i :: 0 <= i < |ss| && ss[i].id == s.id) ==> |r| == |ss|
    ensures (forall i :: 0 <= i < |ss| ==> ss[i].id != s.id) ==> r == ss + [s]
    ensures forall j :: 0 <= j < |ss| && ss[j].id != s.id ==> r[j] == ss[j]
    ensures s in r
  {
    match FindSession(ss, s.id)
    case Some(i) =>
      assert ss[i := s][i] == s;
      ss[i := s]
    case None => ss + [s]
  }

  /** The first match is where the search stops. */
  lemma FindSessionAt(ss: seq<Session>, id: string, i: nat)
    requires i < |ss| && ss[i].id == id
    requires forall j :: 0 <= j < i ==> ss[j].id != id
    ensures FindSession(ss, id) == Some(i)
  {
  }

  /** With unique ids, a session with the same id as the one at `i` replaces it
      there. */
  lemma UpsertAtExisting(ss: seq<Session>, i: nat, t: Session)
    requires UniqueIds(ss) && i < |ss| && t.id == ss[i].id
    ensures Upsert(ss, t) == ss[i := t]
  {
    FindSessionAt(ss, t.id, i);
  }

  /** Upserting keeps ids unique, and afterwards the id is found exactly where
      the new session sits. */
  lemma UpsertKeepsUniqueIds(ss: seq<Session>, s: Session)
    requires UniqueIds(ss)
    ensures UniqueIds(Upsert(ss, s))
    ensures var r := Upsert(ss, s); FindSession(r, s.id).Some? && r[FindSession(r, s.id).value] == s
  {
    var r := Upsert(ss, s);
    match FindSession(ss, s.id)
    case Some(i) =>
      assert r == ss[i := s];
      assert forall j :: 0 <= j < |r| && j != i ==> r[j].id == ss[j].id && ss[j].id != s.id;
    case None =>
      assert r == ss + [s];
  }

  /** Saving twice under one id is the same as saving the second version once:
      a repeated save never grows the list and the later content wins. */
  lemma UpsertTwice(ss: seq<Session>, s: Session, t: Session)
    requires s.id == t.id
    ensures Upsert(Upsert(ss, s), t) == Upsert(ss, t)
    ensures |Upsert(Upsert(ss, s), t)| == |Upsert(ss, s)|
  {
    var r := Upsert(ss, s);
    match FindSession(ss, s.id)
    case Some(i) =>
      assert r == ss[i := s];
      FindSessionAt(r, t.id, i);
    case None =>
      assert r == ss + [s];
      FindSessionAt(r, t.id, |ss|);
  }

  /** The relabel-or-append step of emotion selection (app.py:108-124): the
      session with that id only gets its emotion replaced; otherwise one
      placeholder is appended. */
  function Relabel(ss: seq<Session>, id: string, emotion: string, now: string): (r: seq<Session>)
    ensures FindSession(ss, id).Some? ==>
      var i := FindSession(ss, id).value;
      |r| == |ss| && r[i] == ss[i].(emotion := Some(emotion))
      && forall j :: 0 <= j < |ss| && j != i ==> r[j] == ss[j]
    ensures FindSession(ss, id).None? ==> r == ss + [Placeholder(id, now, emotion)]
  {
    match FindSession(ss, id)
    case Some(i) => ss[i := ss[i].(emotion := Some(emotion))]
    case None => ss + [Placeholder(id, now, emotion)]
  }

  /** However many times the emotion is chosen under one chat id, at most one
      placeholder is ever added, and ids stay unique. */
  lemma RelabelAgain(ss: seq<Session>, id: string, e1: string, e2: string, n1: string, n2: string)
    requires UniqueIds(ss)
    ensures UniqueIds(Relabel(ss, id, e1, n1))
    ensures |Relabel(Relabel(ss, id, e1, n1), id, e2, n2)| == |Relabel(ss, id, e1, n1)| <= |ss| + 1
  {
    var r := Relabel(ss, id, e1, n1);
    match FindSession(ss, id)
    case Some(i) =>
      assert forall j :: 0 <= j < |r| ==> r[j].id == ss[j].id;
      FindSessionAt(r, id, i);
    case None =>
      FindSessionAt(r, id, |ss|);
  }

  /** The two id keys in action: choosing an emotion under `chat_id` appends a
      placeholder, and the first save under a `current_chat_id` made from a
      different timestamp appends a second session, so one conversation leaves
      two stored entries, one of them without messages. */
  lemma SelectThenFirstSaveStoresTwo(ss: seq<Session>, t1: string, t2: string, emotion: string,
                                     ms: seq<Message>, sel: Emotion)
    requires t1 != t2 && HasUserMessage(ChatMessages(ms))
    requires forall j :: 0 <= j < |ss| ==> ss[j].id != "chat_" + t1 && ss[j].id != "chat_" + t2
    ensures var r := Upsert(Relabel(ss, "chat_" + t1, emotion, t1), SessionToStore("chat_" + t2, t2, ms, sel));
      && |r| == |ss| + 2
      && r[|ss|] == Placeholder("chat_" + t1, t1, emotion) && r[|ss|].messages == []
      && r[|ss| + 1].messages == ChatMessages(ms) && r[|ss| + 1].messages != []
  {
    var id1 := "chat_" + t1;
    var id2 := "chat_" + t2;
    assert id1[5..] == t1 && id2[5..] == t2;
    var r1 := Relabel(ss, id1, emotion, t1);
    assert FindSession(ss, id1).None?;
    assert r1 == ss + [Placeholder(id1, t1, emotion)];
    forall j | 0 <= j < |r1| ensures r1[j].id != id2 {
      if j < |ss| { assert r1[j] == ss[j]; }
    }
    var s := SessionToStore(id2, t2, ms, sel);
    assert Upsert(r1, s) == r1 + [s];
  }

  /** `list.pop(i)`. */
  function RemoveAt(ss: seq<Session>, i: nat): (r: seq<Session>)
    requires i < |ss|
    ensures |r| == |ss| - 1
    ensures forall j :: 0 <= j < i ==> r[j] == ss[j]
    ensures forall j :: i <= j < |r| ==> r[j] == ss[j + 1]
  {
    ss[..i] + ss[i + 1..]
  }

  /** With unique ids, deleting the session at `i` removes its id from the list
      and keeps the remaining ids unique. */
  lemma RemoveAtForgetsId(ss: seq<Session>, i: nat)
    requires UniqueIds(ss) && i < |ss|
    ensures UniqueIds(RemoveAt(ss, i))
    ensures FindSession(RemoveAt(ss, i), ss[i].id).None?
  {
    var r := RemoveAt(ss, i);
    forall a, b | 0 <= a < b < |r| ensures r[a].id != r[b].id {
      var a' := if a < i then a else a + 1;
      var b' := if b < i then b else b + 1;
      assert r[a] == ss[a'] && r[b] == ss[b'] && a' < b';
    }
    forall j | 0 <= j < |r| ensures r[j].id != ss[i].id {
      var j' := if j < i then j else j + 1;
      assert r[j] == ss[j'] && j' != i;
    }
  }

  // ---------------------------------------------------------------------------
  // The context sent to the language model (app.py:1033)

  /** `messages.index(m)`: the first position holding a message equal to `m`. */
  function IndexOf(ms: seq<Message>, m: Message): (k: nat)
    requires m in ms
    ensures k < |ms| && ms[k] == m
    ensures forall j :: 0 <= j < k ==> ms[j] != m
  {
    if ms[0] == m then 0 else 1 + IndexOf(ms[1..], m)
  }

  /** The comprehension's condition for the message at position `i`. */
  predicate KeptForApi(ms: seq<Message>, i: nat)
    requires i < |ms|
  {
    ms[i].role != Assistant || IndexOf(ms, ms[i]) == 0
  }

  function ApiContextFrom(ms: seq<Message>, k: nat): seq<Message>
    requires k <= |ms|
    decreases |ms| - k
  {
    if k == |ms| then []
    else (if KeptForApi(ms, k) then [ms[k]] else []) + ApiContextFrom(ms, k + 1)
  }

  /** `[m for m in messages if m["role"] != "assistant" or messages.index(m) == 0]` */
  function ApiContext(ms: seq<Message>): seq<Message>
  {
    ApiContextFrom(ms, 0)
  }

  /** The messages that are not assistant turns, in order. */
  function NonAssistant(ms: seq<Message>): (r: seq<Message>)
    ensures forall m :: m in r <==> m in ms && m.role != Assistant
  {
    if ms == [] then []
    else (if ms[0].role == Assistant then [] else [ms[0]]) + NonAssistant(ms[1..])
  }

  lemma {:induction false} ApiContextFromIsNonAssistant(ms: seq<Message>, k: nat)
    requires |ms| > 0 && ms[0].role == System && k <= |ms|
    ensures ApiContextFrom(ms, k) == NonAssistant(ms[k..])
    decreases |ms| - k
  {
    if k < |ms| {
      ApiContextFromIsNonAssistant(ms, k + 1);
      assert ms[k..][0] == ms[k] && ms[k..][1..] == ms[k + 1..];
      if ms[k].role == Assistant {
        assert IndexOf(ms, ms[k]) != 0;
      }
    }
  }

  /** With the system message first, as every transcript here begins, the
      context is exactly the non-assistant messages in order: every user turn
      is sent and every assistant turn, the greeting included, is withheld. */
  lemma ApiContextIsNonAssistant(ms: seq<Message>)
    requires |ms| > 0 && ms[0].role == System
    ensures ApiContext(ms) == NonAssistant(ms)
  {
    ApiContextFromIsNonAssistant(ms, 0);
    assert ms[0..] == ms;
  }

  // ---------------------------------------------------------------------------
  // Resuming a stored session (app.py:1155-1164)

  /** The transcript rebuilt on resume: a fresh system prompt, then the stored
      messages verbatim. */
  function ResumedMessages(s: Session): (ms: seq<Message>)
    ensures |ms| == |s.messages| + 1 && ms[0].role == System && ms[1..] == s.messages
  {
    [Message(System, Chatbot.SystemPrompt(s.emotion))] + s.messages
  }

  /** Resuming re-derives the system message and the next save strips it
      again: the stored messages come back verbatim, followed by the new ones. */
  lemma ResumedChatMessages(s: Session, more: seq<Message>)
    requires forall k :: 0 <= k < |s.messages| ==> s.messages[k].role != System
    ensures ChatMessages(ResumedMessages(s) + more) == s.messages + ChatMessages(more)
  {
    var ms := ResumedMessages(s);
    var sys := ms[..1];
    assert ms == sys + s.messages;
    assert ms + more == sys + (s.messages + more);
    ChatMessagesAppend(sys, s.messages + more);
    ChatMessagesAppend(s.messages, more);
    ChatMessagesNoSystem(s.messages);
    assert ChatMessages(sys) == [];
  }

  /** A resumed session, continued with further turns so that some user turn
      is among the old or the new messages (a resumed placeholder needs a new
      one), passes the save guards again, is stored with its old messages
      followed by the new ones, and replaces itself in place: the list keeps
      its length and no duplicate appears. */
  lemma ResumeThenSaveReplacesInPlace(ss: seq<Session>, i: nat, more: seq<Message>, now: string)
    requires UniqueIds(ss) && i < |ss|
    requires HasUserMessage(ss[i].messages + ChatMessages(more)) && IsSet(ss[i].emotion)
    requires forall k :: 0 <= k < |ss[i].messages| ==> ss[i].messages[k].role != System
    ensures var ms := ResumedMessages(ss[i]) + more;
      && SaveGuard(Some(ms), ss[i].emotion)
      && ChatMessages(ms) == ss[i].messages + ChatMessages(more)
      && Upsert(ss, SessionToStore(ss[i].id, now, ms, ss[i].emotion))
         == ss[i := SessionToStore(ss[i].id, now, ms, ss[i].emotion)]
  {
    var s := ss[i];
    var ms := ResumedMessages(s) + more;
    ResumedChatMessages(s, more);
    assert HasUserMessage(ChatMessages(ms));
    UpsertAtExisting(ss, i, SessionToStore(s.id, now, ms, s.emotion));
  }
}
