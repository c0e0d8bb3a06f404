/** Identity and the per-user record store: salted password hashes, login,
    the legacy-schema migration applied on load, and account creation. The
    digest function stands for sha256-hex and the salt for a fresh uuid4 hex;
    both are parameters. The pickle files are a map from user name to record. */
module Auth {
  import opened Types

  // ---------------------------------------------------------------------------
  // Salted hashes (auth.py:21-29)

  predicate ColonFree(s: string)
  {
    ':' !in s
  }

  /** The position of the first ':' in `s`. */
  function FirstColon(s: string): (i: nat)
    requires ':' in s
    ensures i < |s| && s[i] == ':' && ColonFree(s[..i])
  {
    if s[0] == ':' then 0
    else
      var k := FirstColon(s[1..]);
      assert s[..k + 1] == [s[0]] + s[1..][..k];
      k + 1
  }

  /** Python's `s.split(':')`. */
  function Split(s: string): (parts: seq<string>)
    ensures |parts| >= 1
    decreases |s|
  {
    if ColonFree(s) then [s]
    else
      var i := FirstColon(s);
      [s[..i]] + Split(s[i + 1..])
  }

  /** `split` yields one more part than there are colons, so unpacking into
      two names succeeds exactly when the text has a single ':'. */
  lemma {:induction false} SplitCount(s: string)
    ensures |Split(s)| == multiset(s)[':'] + 1
    decreases |s|
  {
    if !ColonFree(s) {
      var i := FirstColon(s);
      assert s == s[..i] + [s[i]] + s[i + 1..];
      assert multiset(s) == multiset(s[..i]) + multiset{':'} + multiset(s[i + 1..]);
      SplitCount(s[i + 1..]);
    } else {
      assert multiset(s)[':'] == 0;
    }
  }

  /** Splitting `a:b` with colon-free halves gives back the two halves. */
  lemma SplitPair(a: string, b: string)
    requires ColonFree(a) && ColonFree(b)
    ensures Split(a + ":" + b) == [a, b]
  {
    var s := a + ":" + b;
    assert s[|a|] == ':';
    var i := FirstColon(s);
    assert s[..i] == a;
    assert s[i + 1..] == b;
  }

  /** `hash_password`: digest(salt ++ password) ++ ":" ++ salt. */
  function HashPassword(digest: string -> string, salt: string, password: string): string
  {
    digest(salt + password) + ":" + salt
  }

  /** `check_password`: None when the stored text does not split into exactly
      two parts (the unpacking raises), otherwise whether the recomputed digest
      matches. */
  function CheckPassword(digest: string -> string, stored: string, password: string): (r: Option<bool>)
    ensures r.None? <==> multiset(stored)[':'] != 1
  {
    SplitCount(stored);
    var parts := Split(stored);
    if |parts| != 2 then None
    else Some(parts[0] == digest(parts[1] + password))
  }

  /** The round trip: a hash made with a colon-free salt (uuid hex) and a
      colon-free digest (hex) accepts a password exactly when its salted digest
      equals that of the original, so always for the original itself. */
  lemma HashThenCheck(digest: string -> string, salt: string, password: string, attempt: string)
    requires ColonFree(salt) && ColonFree(digest(salt + password))
    ensures CheckPassword(digest, HashPassword(digest, salt, password), attempt)
            == Some(digest(salt + attempt) == digest(salt + password))
    ensures CheckPassword(digest, HashPassword(digest, salt, password), password) == Some(true)
  {
    SplitPair(digest(salt + password), salt);
  }

  // ---------------------------------------------------------------------------
  // Login (auth.py:63-68)

  datatype Credential = Credential(name: string, passwordHash: string, email: string)

  /** `Granted(name)` is `(True, name)`, `Denied` is `(False, None)`, and
      `Malformed` is the exception a stored hash without exactly one ':' raises. */
  datatype LoginOutcome = Granted(name: string) | Denied | Malformed

  function Login(creds: map<string, Credential>, username: string, password: string,
                 digest: string -> string): (r: LoginOutcome)
    ensures r.Granted? <==> username in creds
                            && CheckPassword(digest, creds[username].passwordHash, password) == Some(true)
    ensures r.Granted? ==> r.name == creds[username].name
    ensures r.Malformed? <==> username in creds
                              && CheckPassword(digest, creds[username].passwordHash, password).None?
    ensures username !in creds ==> r == Denied
  {
    if username !in creds then Denied
    else
      match CheckPassword(digest, creds[username].passwordHash, password)
      case None => Malformed
      case Some(ok) => if ok then Granted(creds[username].name) else Denied
  }

  /** After registering with a hashed password, logging in with that password
      yields the display name, and with a password whose salted digest differs
      is refused just like an unknown user. */
  lemma RegisteredUserLogsIn(creds: map<string, Credential>, username: string, name: string,
                             email: string, digest: string -> string, salt: string,
                             password: string, attempt: string)
    requires ColonFree(salt) && ColonFree(digest(salt + password))
    ensures var creds' := creds[username := Credential(name, HashPassword(digest, salt, password), email)];
      && Login(creds', username, password, digest) == Granted(name)
      && (digest(salt + attempt) != digest(salt + password) ==> Login(creds', username, attempt, digest) == Denied)
  {
    HashThenCheck(digest, salt, password, attempt);
  }

  // ---------------------------------------------------------------------------
  // Loading a record, with the legacy migration (auth.py:186-224)

  const LegacyIdPrefix := "chat_legacy_"

  /** The record written for a user name that has no file yet. */
  const InitialRecord := UserRecord(Some([]), Some([]), Some([]), None, None, map[])

  /** The single session synthesised from a non-empty legacy transcript. */
  function LegacySession(history: seq<Message>, emotions: Option<seq<string>>, now: string): (s: Session)
    requires |history| > 0
    ensures s.id == LegacyIdPrefix + now && s.date == now
    ensures s.messages == history && s.preview == history[0].content
    ensures emotions.Some? && |emotions.value| > 0 ==> s.emotion == Some(emotions.value[|emotions.value| - 1])
    ensures emotions.None? || |emotions.value| == 0 ==> s.emotion == None
  {
    var emotion := if emotions.Some? && |emotions.value| > 0
                   then Some(emotions.value[|emotions.value| - 1]) else None;
    Session(LegacyIdPrefix + now, now, emotion, history[0].content, history)
  }

  /** The in-place upgrade of a loaded record that lacks `chat_sessions`. */
  function Migrate(data: UserRecord, now: string): UserRecord
  {
    if data.chatSessions.Some? then data
    else if data.chatHistory.Some? && |data.chatHistory.value| > 0 then
      data.(chatSessions := Some([LegacySession(data.chatHistory.value, data.emotions, now)]))
    else
      data.(chatSessions := Some([]))
  }

  /** A record that already has `chat_sessions` is returned unchanged. */
  lemma MigrateKeepsCurrent(data: UserRecord, now: string)
    requires data.chatSessions.Some?
    ensures Migrate(data, now) == data
  {
  }

  /** A record without `chat_sessions` always gets one: empty without legacy
      history, otherwise holding exactly the one legacy session. Every other key,
      the legacy ones included, is left as it was. */
  lemma MigrateLegacy(data: UserRecord, now: string)
    requires data.chatSessions.None?
    ensures var r := Migrate(data, now);
      && r.chatSessions.Some?
      && r == data.(chatSessions := r.chatSessions)
      && ((data.chatHistory.None? || data.chatHistory.value == []) ==> r.chatSessions.value == [])
      && ((data.chatHistory.Some? && data.chatHistory.value != []) ==>
            && |r.chatSessions.value| == 1
            && r.chatSessions.value[0] == LegacySession(data.chatHistory.value, data.emotions, now))
  {
  }

  /** Migration never applies twice to the same value: once a record carries
      `chat_sessions` (after migrating, or after it is saved back) loading it
      again adds no second legacy session. */
  lemma MigrateIdempotent(data: UserRecord, t1: string, t2: string)
    ensures Migrate(Migrate(data, t1), t2) == Migrate(data, t1)
  {
  }

  /** What `load_user_data` returns for a store holding `files`. */
  function Loaded(files: map<string, UserRecord>, username: string, now: string): (r: UserRecord)
    ensures r.chatSessions.Some?
  {
    if username in files then Migrate(files[username], now) else InitialRecord
  }

  /** The store after `load_user_data`: a missing file is created as the initial record. */
  function AfterLoad(files: map<string, UserRecord>, username: string): (r: map<string, UserRecord>)
    ensures username in r && r.Keys == files.Keys + {username}
    ensures forall u :: u in files ==> u in r && r[u] == files[u]
  {
    if username in files then files else files[username := InitialRecord]
  }

  /** The nested entry `create_new_user` adds under the new user name. */
  function NewAccount(name: string, email: string, passwordHash: string): (a: Account)
    ensures a.chatSessions == [] && a.profile.nickname == name
    ensures a.emotionGoals == EmotionGoals(None, [])
    ensures a.name == name && a.email == email && a.passwordHash == passwordHash
  {
    Account(name, email, passwordHash, [], Profile(name, "", "", "light"), EmotionGoals(None, []))
  }

  /** Durable storage of user records, one document per user name. */
  class UserStore {
    var files: map<string, UserRecord>

    constructor (initial: map<string, UserRecord>)
      ensures files == initial
    {
      files := initial;
    }

    /** `save_user_data`: last write wins for the whole record. */
    method Save(username: string, data: UserRecord)
      modifies this`files
      ensures files == old(files)[username := data]
    {
      files := files[username := data];
    }

    /** `load_user_data`: a stored record comes back migrated but is not written
        back; a missing one is created, persisted and returned. */
    method Load(username: string, now: string) returns (data: UserRecord)
      modifies this`files
      ensures data == Loaded(old(files), username, now)
      ensures files == AfterLoad(old(files), username)
      ensures data.chatSessions.Some?
    {
      if username in files {
        data := files[username];
        if data.chatSessions.None? {
          data := data.(chatSessions := Some([]));
          if data.chatHistory.Some? && |data.chatHistory.value| > 0 {
            var legacy := LegacySession(data.chatHistory.value, data.emotions, now);
            assert data.chatSessions.value + [legacy] == [legacy];
            data := data.(chatSessions := Some(data.chatSessions.value + [legacy]));
          }
        }
      } else {
        data := InitialRecord;
        Save(username, data);
      }
    }

    /** `create_new_user`: refuse when the user name is already a key of the
        loaded record; otherwise nest a fresh account under it and save. The
        load itself may already have written the initial record. */
    method CreateNewUser(username: string, name: string, email: string, passwordHash: string, now: string)
      returns (ok: bool)
      modifies this`files
      ensures var loaded := Loaded(old(files), username, now);
        && (ok <==> username !in Keys(loaded))
        && (ok ==> files == AfterLoad(old(files), username)[username :=
                     loaded.(accounts := loaded.accounts[username := NewAccount(name, email, passwordHash)])])
        && (!ok ==> files == AfterLoad(old(files), username))
    {
      var data := Load(username, now);
      if username in Keys(data) {
        return false;
      }
      data := data.(accounts := data.accounts[username := NewAccount(name, email, passwordHash)]);
      Save(username, data);
      return true;
    }
  }

  /** Creating an account for a user who already has a file and whose name is
      already a key of it writes nothing; a name that is not yet a key of a
      well-formed record gets exactly one new entry and keeps the record
      well-formed. */
  lemma CreateOnExistingFile(files: map<string, UserRecord>, username: string, now: string,
                             name: string, email: string, hash: string)
    requires username in files && WellFormed(files[username]) && username !in ReservedKeys
    ensures AfterLoad(files, username) == files
    ensures var loaded := Loaded(files, username, now);
      username !in Keys(loaded) ==>
        && WellFormed(loaded.(accounts := loaded.accounts[username := NewAccount(name, email, hash)]))
        && loaded.accounts.Keys + {username} == loaded.(accounts := loaded.accounts[username := NewAccount(name, email, hash)]).accounts.Keys
  {
  }
}
