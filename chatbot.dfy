/** The stateless parts of the counselling chatbot: the fixed emotion table,
    the system prompt, the greeting, the reply fallback and the keyword match
    that maps a model reply onto one of the ten emotions. */
module Chatbot {
  import opened Types

  /** The emotion table, in its declared order: name and description. */
  const Emotions: seq<(string, string)> := [
    ("기쁨", "행복하고 즐거운 상태"),
    ("슬픔", "마음이 아프고 우울한 상태"),
    ("분노", "화가 나고 짜증이 나는 상태"),
    ("불안", "걱정이 많고 초조한 상태"),
    ("스트레스", "압박감과 중압감을 느끼는 상태"),
    ("외로움", "혼자라고 느끼는 상태"),
    ("후회", "과거의 선택이나 행동에 대해 아쉬움을 느끼는 상태"),
    ("좌절", "목표 달성에 실패하고 실망한 상태"),
    ("혼란", "명확한 방향이나 생각을 잡지 못하는 상태"),
    ("감사", "고마움을 느끼는 상태")
  ]

  /** The emotion names in declared order (the iteration order of the table's keys). */
  const EmotionNames: seq<string> :=
    ["기쁨", "슬픔", "분노", "불안", "스트레스", "외로움", "후회", "좌절", "혼란", "감사"]

  lemma EmotionTableShape()
    ensures |Emotions| == |EmotionNames| == 10
    ensures forall i :: 0 <= i < 10 ==> Emotions[i].0 == EmotionNames[i]
    ensures forall i, j :: 0 <= i < j < 10 ==> EmotionNames[i] != EmotionNames[j]
  {
  }

  /** Dictionary lookup in an association list; the first entry wins. */
  function Lookup(table: seq<(string, string)>, key: string): (r: Option<string>)
    ensures r.None? <==> forall i :: 0 <= i < |table| ==> table[i].0 != key
    ensures r.Some? ==> exists i :: 0 <= i < |table| && table[i] == (key, r.value)
  {
    if table == [] then None
    else if table[0].0 == key then Some(table[0].1)
    else
      var r := Lookup(table[1..], key);
      assert r.Some? ==> table[1..][0] == table[1];
      r
  }

  /** `EMOTIONS.get(emotion, '')`. */
  function Describe(emotion: string): (d: string)
    ensures (forall i :: 0 <= i < |Emotions| ==> Emotions[i].0 != emotion) ==> d == ""
    ensures forall i :: 0 <= i < |Emotions| && Emotions[i].0 == emotion ==> d == Emotions[i].1
  {
    EmotionTableShape();
    match Lookup(Emotions, emotion)
    case Some(d) => d
    case None => ""
  }

  const BasePrompt: string :=
    "\n    당신은 감정 치유를 도와주는 공감적이고 따뜻한 상담사입니다. "
    + "\n    사용자의 감정과 상황에 공감하고, 이해하며, 적절한 위로와 조언을 제공해주세요."
    + "\n    대화는 한국어로 진행합니다."
    + "\n    "
    + "\n    항상 공감하는 태도로 경청하며, 사용자의 감정을 인정하고 존중해주세요."
    + "\n    판단하지 말고 이해하려 노력하며, 필요시 전문적 도움을 권유하세요."
    + "\n    "

  /** The sentence appended to the base prompt for a chosen emotion with the
      given description. */
  function EmotionContext(emotion: string, description: string): string
  {
    "사용자는 현재 '" + emotion + "' 감정을 느끼고 있습니다. "
    + description + "에 대한 이해와 공감이 필요합니다."
  }

  /** `k` occurs in `s` starting at position `i`. */
  predicate OccursAt(k: string, s: string, i: nat)
  {
    i + |k| <= |s| && s[i..i + |k|] == k
  }

  /** True iff `k` occurs in `s` as a contiguous substring (Python's `k in s`). */
  predicate IsInfix(k: string, s: string)
  {
    exists i: nat :: i <= |s| && OccursAt(k, s, i)
  }

  lemma InfixOfConcat(a: string, b: string, c: string)
    ensures IsInfix(b, a + b + c)
  {
    assert OccursAt(b, a + b + c, |a|);
  }

  lemma InfixAfter(k: string, s: string, a: string)
    requires IsInfix(k, s)
    ensures IsInfix(k, a + s)
  {
    var i: nat :| i <= |s| && OccursAt(k, s, i);
    assert (a + s)[|a| + i..|a| + i + |k|] == s[i..i + |k|];
    assert OccursAt(k, a + s, |a| + i);
  }

  /** `get_system_prompt`: the base prompt, extended with an emotion context
      exactly when the emotion is truthy. */
  function SystemPrompt(emotion: Emotion): (r: string)
    ensures BasePrompt <= r
    ensures r == BasePrompt <==> !IsSet(emotion)
    ensures IsSet(emotion) ==> r[|BasePrompt|..] == "\n\n" + EmotionContext(emotion.value, Describe(emotion.value))
  {
    if IsSet(emotion) then
      var extra := "\n\n" + EmotionContext(emotion.value, Describe(emotion.value));
      Extend(BasePrompt, extra);
      BasePrompt + extra
    else BasePrompt
  }

  /** Appending a non-empty text keeps the original as a prefix and changes it. */
  lemma Extend(a: string, b: string)
    requires b != []
    ensures a <= a + b && (a + b)[|a|..] == b && a + b != a
  {
    assert |a + b| > |a|;
  }

  lemma ContextMentions(e: string, d: string)
    ensures IsInfix("'" + e + "'", EmotionContext(e, d))
    ensures IsInfix(d, EmotionContext(e, d))
  {
    var head := "사용자는 현재 ";
    var quoted := "'" + e + "'";
    var mid := " 감정을 느끼고 있습니다. ";
    var tail := "에 대한 이해와 공감이 필요합니다.";
    assert EmotionContext(e, d) == head + quoted + (mid + d + tail);
    InfixOfConcat(head, quoted, mid + d + tail);
    assert EmotionContext(e, d) == (head + quoted + mid) + d + tail;
    InfixOfConcat(head + quoted + mid, d, tail);
  }

  /** The prompt for a chosen emotion quotes the emotion's name and carries its
      description (empty for a name outside the table). */
  lemma SystemPromptMentions(e: string)
    requires e != ""
    ensures IsInfix("'" + e + "'", SystemPrompt(Some(e)))
    ensures IsInfix(Describe(e), SystemPrompt(Some(e)))
  {
    var ctx := EmotionContext(e, Describe(e));
    ContextMentions(e, Describe(e));
    var extra := "\n\n" + ctx;
    InfixAfter("'" + e + "'", ctx, "\n\n");
    InfixAfter(Describe(e), ctx, "\n\n");
    assert SystemPrompt(Some(e)) == BasePrompt + extra;
    InfixAfter("'" + e + "'", extra, BasePrompt);
    InfixAfter(Describe(e), extra, BasePrompt);
  }

  const GreetingHead: string := "안녕하세요. 오늘 '"
  const GreetingTail: string := "'을(를) 느끼고 계시는군요. 어떤 일이 있으셨나요? 저에게 편하게 말씀해주세요."
  const NeutralGreeting: string := "안녕하세요. 오늘은 어떤 감정을 느끼고 계신가요? 저에게 편하게 말씀해주세요."

  /** The fixed, templated first assistant turn of a new chat. */
  function Greeting(emotion: Emotion): (g: string)
    ensures IsSet(emotion) ==> |g| == |GreetingHead| + |emotion.value| + |GreetingTail|
    ensures IsSet(emotion) ==> GreetingHead <= g && g[|GreetingHead|..|GreetingHead| + |emotion.value|] == emotion.value
    ensures IsSet(emotion) ==> g[|g| - |GreetingTail|..] == GreetingTail
    ensures !IsSet(emotion) ==> g == NeutralGreeting
  {
    if IsSet(emotion) then GreetingHead + emotion.value + GreetingTail else NeutralGreeting
  }

  /** The greeting names the emotion it was made for, so two emotions never
      share a greeting, and no emotion-specific greeting is the neutral one. */
  lemma GreetingDeterminesEmotion(e1: string, e2: string)
    requires e1 != "" && e2 != ""
    ensures Greeting(Some(e1)) == Greeting(Some(e2)) ==> e1 == e2
    ensures Greeting(Some(e1)) != NeutralGreeting
  {
    var g := Greeting(Some(e1));
    assert g[9] == ' ';
    assert NeutralGreeting[9] == '은';
  }

  const Apology: string := "죄송합니다. 응답을 생성하는 중에 문제가 발생했습니다. 잠시 후 다시 시도해주세요."

  /** `get_ai_response`: `reply` is what the model call produced, None when the
      call raised; a failure never propagates and becomes the apology. */
  function AiResponse(reply: Option<string>): (r: string)
    ensures reply.Some? ==> r == reply.value
    ensures reply.None? ==> r == Apology
  {
    match reply
    case Some(text) => text
    case None => Apology
  }

  /** The match loop of `analyze_emotion`: the first name, in declared order,
      that occurs in the reply, or None. */
  method MatchEmotion(detected: string) returns (r: Option<string>)
    ensures r.Some? ==> exists k :: 0 <= k < |EmotionNames| && r.value == EmotionNames[k]
                          && IsInfix(EmotionNames[k], detected)
                          && forall j :: 0 <= j < k ==> !IsInfix(EmotionNames[j], detected)
    ensures r.None? <==> forall j :: 0 <= j < |EmotionNames| ==> !IsInfix(EmotionNames[j], detected)
  {
    var i := 0;
    while i < |EmotionNames|
      invariant 0 <= i <= |EmotionNames|
      invariant forall j :: 0 <= j < i ==> !IsInfix(EmotionNames[j], detected)
    {
      if IsInfix(EmotionNames[i], detected) {
        return Some(EmotionNames[i]);
      }
      i := i + 1;
    }
    return None;
  }

  /** `analyze_emotion` with the model call as a parameter: None when the call
      raised, otherwise the reply text is matched against the table. */
  method AnalyzeEmotion(reply: Option<string>) returns (r: Option<string>)
    ensures reply.None? ==> r.None?
    ensures r.Some? ==> r.value in EmotionNames && IsInfix(r.value, reply.value)
    ensures r.Some? ==> exists k :: 0 <= k < |EmotionNames| && r.value == EmotionNames[k]
                          && forall j :: 0 <= j < k ==> !IsInfix(EmotionNames[j], reply.value)
    ensures reply.Some? && r.None? ==> forall e :: e in EmotionNames ==> !IsInfix(e, reply.value)
  {
    if reply.None? {
      return None;
    }
    r := MatchEmotion(reply.value);
  }
}
