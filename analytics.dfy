/** Read-only reporting over the stored sessions: the history filter and
    newest-first ordering, the extraction of emotion events, frequency counts,
    the dominant emotion, the monthly table, time-of-day buckets and the
    paging arithmetic of the tables. */
module Analytics {
  import opened Types
  import Chatbot

  // ---------------------------------------------------------------------------
  // Dates are ISO-8601 strings; Python compares them code point by code point.

  /** `a <= b` on strings. */
  predicate LexLe(a: string, b: string)
  {
    if a == [] then true
    else if b == [] then false
    else if a[0] != b[0] then a[0] < b[0]
    else LexLe(a[1..], b[1..])
  }

  lemma {:induction false} LexLeRefl(a: string)
    ensures LexLe(a, a)
  {
    if a != [] { LexLeRefl(a[1..]); }
  }

  lemma {:induction false} LexLeTotal(a: string, b: string)
    ensures LexLe(a, b) || LexLe(b, a)
  {
    if a != [] && b != [] && a[0] == b[0] { LexLeTotal(a[1..], b[1..]); }
  }

  lemma {:induction false} LexLeAntisym(a: string, b: string)
    requires LexLe(a, b) && LexLe(b, a)
    ensures a == b
  {
    if a != [] && b != [] {
      LexLeAntisym(a[1..], b[1..]);
      assert a == [a[0]] + a[1..] && b == [b[0]] + b[1..];
    }
  }

  lemma {:induction false} LexLeTrans(a: string, b: string, c: string)
    requires LexLe(a, b) && LexLe(b, c)
    ensures LexLe(a, c)
  {
    if a != [] && b != [] && c != [] && a[0] == b[0] && b[0] == c[0] {
      LexLeTrans(a[1..], b[1..], c[1..]);
    }
  }

  // ---------------------------------------------------------------------------
  // The history filter (app.py:1241-1263)

  /** The filter settings: chosen emotions (empty: no emotion filter) and the
      optional inclusive date bounds, as timestamps of the same ISO format. */
  datatype HistoryFilter = HistoryFilter(emotions: seq<string>, start: Option<string>, end: Option<string>)

  const NoFilter := HistoryFilter([], None, None)

  predicate Matches(f: HistoryFilter, s: Session)
  {
    && (|f.emotions| == 0 || (s.emotion.Some? && s.emotion.value in f.emotions))
    && (f.start.None? || LexLe(f.start.value, s.date))
    && (f.end.None? || LexLe(s.date, f.end.value))
  }

  /** The sessions that pass the filter, in their stored order. */
  function Filtered(ss: seq<Session>, f: HistoryFilter): (r: seq<Session>)
    ensures forall s :: s in r <==> s in ss && Matches(f, s)
    ensures |r| <= |ss|
  {
    if ss == [] then []
    else (if Matches(f, ss[0]) then [ss[0]] else []) + Filtered(ss[1..], f)
  }

  /** Filtering distributes over concatenation: it keeps the relative order. */
  lemma {:induction false} FilteredAppend(a: seq<Session>, b: seq<Session>, f: HistoryFilter)
    ensures Filtered(a + b, f) == Filtered(a, f) + Filtered(b, f)
  {
    if a == [] {
      assert a + b == b;
    } else {
      assert (a + b)[0] == a[0] && (a + b)[1..] == a[1..] + b;
      FilteredAppend(a[1..], b, f);
    }
  }

  /** With no emotion chosen and no date bound, every session is kept as is. */
  lemma {:induction false} NoFilterKeepsAll(ss: seq<Session>)
    ensures Filtered(ss, NoFilter) == ss
  {
    if ss != [] { NoFilterKeepsAll(ss[1..]); }
  }

  /** The emotion and date tests applied to one session: the date test is
      skipped when neither bound is set. */
  method MatchesFilter(f: HistoryFilter, chat: Session) returns (keep: bool)
    ensures keep == Matches(f, chat)
  {
    var emotionMatch := true;
    if |f.emotions| > 0 {
      if !(chat.emotion.Some? && chat.emotion.value in f.emotions) {
        emotionMatch := false;
      }
    }
    var dateMatch := true;
    if f.start.Some? || f.end.Some? {
      if f.start.Some? && !LexLe(f.start.value, chat.date) {
        dateMatch := false;
      }
      if f.end.Some? && !LexLe(chat.date, f.end.value) {
        dateMatch := false;
      }
    }
    keep := emotionMatch && dateMatch;
  }

  /** The collecting loop of the history page. */
  method FilterSessions(ss: seq<Session>, f: HistoryFilter) returns (out: seq<Session>)
    ensures out == Filtered(ss, f)
  {
    out := [];
    var i := 0;
    while i < |ss|
      invariant 0 <= i <= |ss|
      invariant out == Filtered(ss[..i], f)
    {
      var chat := ss[i];
      var keep := MatchesFilter(f, chat);
      FilteredAppend(ss[..i], [chat], f);
      assert ss[..i + 1] == ss[..i] + [chat];
      if keep {
        out := out + [chat];
      }
      i := i + 1;
    }
    assert ss[..i] == ss;
  }

  // ---------------------------------------------------------------------------
  // Newest first (app.py:1296): a stable sort on the date text, reversed

  /** Insert `x` before the first session whose date is not later than its own. */
  function Insert(x: Session, t: seq<Session>): (r: seq<Session>)
    ensures multiset(r) == multiset(t) + multiset{x}
    ensures |r| == |t| + 1
  {
    if t == [] then [x]
    else if LexLe(t[0].date, x.date) then [x] + t
    else
      assert t == [t[0]] + t[1..];
      [t[0]] + Insert(x, t[1..])
  }

  function SortNewestFirst(ss: seq<Session>): (r: seq<Session>)
    ensures multiset(r) == multiset(ss)
    ensures |r| == |ss|
  {
    if ss == [] then []
    else
      assert ss == [ss[0]] + ss[1..];
      Insert(ss[0], SortNewestFirst(ss[1..]))
  }

  predicate NewestFirst(ss: seq<Session>)
  {
    forall i, j :: 0 <= i < j < |ss| ==> LexLe(ss[j].date, ss[i].date)
  }

  lemma {:induction false} InsertKeepsOrder(x: Session, t: seq<Session>)
    requires NewestFirst(t)
    ensures NewestFirst(Insert(x, t))
  {
    if t == [] {
    } else if LexLe(t[0].date, x.date) {
      var r := [x] + t;
      forall i, j | 0 <= i < j < |r| ensures LexLe(r[j].date, r[i].date) {
        if i == 0 {
          if j > 1 { LexLeTrans(t[j - 1].date, t[0].date, x.date); }
        }
      }
    } else {
      LexLeTotal(t[0].date, x.date);
      InsertKeepsOrder(x, t[1..]);
      var rest := Insert(x, t[1..]);
      var r := [t[0]] + rest;
      InsertBelow(x, t[1..], t[0].date);
      forall i, j | 0 <= i < j < |r| ensures LexLe(r[j].date, r[i].date) {
        if i == 0 { assert r[j] == rest[j - 1]; }
        else { assert r[i] == rest[i - 1] && r[j] == rest[j - 1]; }
      }
    }
  }

  /** Inserting below a bound every element already respects keeps the bound. */
  lemma {:induction false} InsertBelow(x: Session, t: seq<Session>, b: string)
    requires LexLe(x.date, b)
    requires forall k :: 0 <= k < |t| ==> LexLe(t[k].date, b)
    ensures forall k :: 0 <= k < |Insert(x, t)| ==> LexLe(Insert(x, t)[k].date, b)
  {
    if t != [] && !LexLe(t[0].date, x.date) {
      InsertBelow(x, t[1..], b);
      assert Insert(x, t) == [t[0]] + Insert(x, t[1..]);
    }
  }

  /** The sorted list is a permutation of the input whose dates never increase. */
  lemma {:induction false} SortIsNewestFirst(ss: seq<Session>)
    ensures NewestFirst(SortNewestFirst(ss))
    ensures multiset(SortNewestFirst(ss)) == multiset(ss)
  {
    if ss != [] {
      SortIsNewestFirst(ss[1..]);
      InsertKeepsOrder(ss[0], SortNewestFirst(ss[1..]));
    }
  }

  /** The sessions carrying date `d`, in order. */
  function WithDate(ss: seq<Session>, d: string): seq<Session>
  {
    if ss == [] then []
    else (if ss[0].date == d then [ss[0]] else []) + WithDate(ss[1..], d)
  }

  lemma {:induction false} InsertStable(x: Session, t: seq<Session>, d: string)
    ensures WithDate(Insert(x, t), d) == (if x.date == d then [x] else []) + WithDate(t, d)
  {
    if t == [] {
      assert WithDate(Insert(x, t), d) == (if x.date == d then [x] else []) + WithDate(t, d);
    } else if LexLe(t[0].date, x.date) {
      WithDateCons(x, t, d);
      assert WithDate(Insert(x, t), d) == (if x.date == d then [x] else []) + WithDate(t, d);
    } else {
      var rest := Insert(x, t[1..]);
      InsertStable(x, t[1..], d);
      WithDateCons(t[0], rest, d);
      if x.date == d {
        if t[0].date == d { LexLeRefl(d); }
        assert WithDate(rest, d) == [x] + WithDate(t[1..], d);
        assert WithDate(t, d) == WithDate(t[1..], d);
      } else {
        assert WithDate(rest, d) == WithDate(t[1..], d);
      }
      assert WithDate(Insert(x, t), d) == (if x.date == d then [x] else []) + WithDate(t, d);
    }
  }

  lemma WithDateCons(y: Session, u: seq<Session>, d: string)
    ensures WithDate([y] + u, d) == (if y.date == d then [y] else []) + WithDate(u, d)
  {
    assert ([y] + u)[0] == y && ([y] + u)[1..] == u;
  }

  /** Stability: sessions with equal dates keep their stored relative order. */
  lemma {:induction false} SortIsStable(ss: seq<Session>, d: string)
    ensures WithDate(SortNewestFirst(ss), d) == WithDate(ss, d)
  {
    if ss != [] {
      SortIsStable(ss[1..], d);
      InsertStable(ss[0], SortNewestFirst(ss[1..]), d);
    }
  }

  // ---------------------------------------------------------------------------
  // Emotion events (app.py:1348-1361)

  datatype EmotionEvent = EmotionEvent(date: string, emotion: string)

  /** One event per session with a truthy emotion, in stored order. */
  function EmotionEvents(ss: seq<Session>): (r: seq<EmotionEvent>)
    ensures |r| <= |ss|
    ensures forall ev :: ev in r <==> ev.emotion != "" && exists s :: s in ss && s.date == ev.date && s.emotion == Some(ev.emotion)
  {
    if ss == [] then []
    else
      var rest := EmotionEvents(ss[1..]);
      assert forall s :: s in ss <==> s == ss[0] || s in ss[1..];
      (if IsSet(ss[0].emotion) then [EmotionEvent(ss[0].date, ss[0].emotion.value)] else []) + rest
  }

  /** Extraction works session by session: the events of a concatenation are
      the events of each part, in order. */
  lemma {:induction false} EmotionEventsAppend(a: seq<Session>, b: seq<Session>)
    ensures EmotionEvents(a + b) == EmotionEvents(a) + EmotionEvents(b)
  {
    if a == [] {
      assert a + b == b;
    } else {
      assert (a + b)[0] == a[0] && (a + b)[1..] == a[1..] + b;
      EmotionEventsAppend(a[1..], b);
    }
  }

  /** One step of the extraction loop: a further session contributes exactly
      one event (its date and emotion) when its emotion is truthy, else none. */
  lemma EmotionEventsSnoc(ss: seq<Session>, s: Session)
    ensures EmotionEvents(ss + [s]) ==
              EmotionEvents(ss) + (if IsSet(s.emotion) then [EmotionEvent(s.date, s.emotion.value)] else [])
  {
    EmotionEventsAppend(ss, [s]);
    assert [s][1..] == [];
  }

  function Emotions(evs: seq<EmotionEvent>): (es: seq<string>)
    ensures |es| == |evs| && forall i :: 0 <= i < |evs| ==> es[i] == evs[i].emotion
  {
    if evs == [] then [] else [evs[0].emotion] + Emotions(evs[1..])
  }

  // ---------------------------------------------------------------------------
  // Counts (collections.Counter) and the dominant emotion

  predicate NoDup(ks: seq<string>)
  {
    forall i, j :: 0 <= i < j < |ks| ==> ks[i] != ks[j]
  }

  /** The position of the first occurrence of `e` in `s`. */
  function First(s: seq<string>, e: string): (k: nat)
    requires e in s
    ensures k < |s| && s[k] == e
    ensures forall j :: 0 <= j < k ==> s[j] != e
  {
    if s[0] == e then 0
    else
      assert e in s[1..];
      First(s[1..], e) + 1
  }

  /** Appending an element leaves the first occurrences before it in place. */
  lemma FirstOfExtended(p: seq<string>, x: string, e: string)
    requires e in p
    ensures First(p + [x], e) == First(p, e)
  {
    var k := First(p, e);
    assert (p + [x])[k] == e;
  }

  /** The keys of `Counter(es)` in iteration order: each distinct value once,
      ordered by its first occurrence in `es`. */
  function Distinct(es: seq<string>): (ks: seq<string>)
    ensures forall k :: k in ks <==> k in es
    ensures NoDup(ks)
    ensures forall i, j :: 0 <= i < j < |ks| ==> First(es, ks[i]) < First(es, ks[j])
    decreases |es|
  {
    if es == [] then []
    else
      var p := es[..|es| - 1];
      var x := es[|es| - 1];
      assert es == p + [x];
      var d := Distinct(p);
      assert forall k :: k in d ==> First(es, k) == First(p, k) by {
        forall k | k in d ensures First(es, k) == First(p, k) {
          FirstOfExtended(p, x, k);
        }
      }
      if x in d then d
      else
        assert First(es, x) == |p| by {
          assert es[|p|] == x;
        }
        d + [x]
  }

  /** The sum of the counts of the keys `ks`. */
  function SumCounts(ks: seq<string>, m: multiset<string>): nat
  {
    if ks == [] then 0 else m[ks[0]] + SumCounts(ks[1..], m)
  }

  lemma {:induction false} SumAddOne(ks: seq<string>, m: multiset<string>, x: string)
    requires NoDup(ks)
    ensures SumCounts(ks, m + multiset{x}) == SumCounts(ks, m) + (if x in ks then 1 else 0)
  {
    if ks != [] {
      SumAddOne(ks[1..], m, x);
      assert x in ks <==> x == ks[0] || x in ks[1..];
    }
  }

  /** Summing the counts over any duplicate-free list of keys covering every
      element gives the number of elements. */
  lemma {:induction false} SumOverCover(ks: seq<string>, es: seq<string>)
    requires NoDup(ks) && forall e :: e in es ==> e in ks
    ensures SumCounts(ks, multiset(es)) == |es|
    decreases |es|
  {
    if es == [] {
      SumZero(ks);
    } else {
      var p := es[..|es| - 1];
      var x := es[|es| - 1];
      assert es == p + [x];
      assert multiset(es) == multiset(p) + multiset{x};
      SumOverCover(ks, p);
      SumAddOne(ks, multiset(p), x);
    }
  }

  lemma {:induction false} SumZero(ks: seq<string>)
    ensures SumCounts(ks, multiset{}) == 0
  {
    if ks != [] { SumZero(ks[1..]); }
  }

  /** The frequency table accounts for every observation exactly once. */
  lemma CountsSumToTotal(es: seq<string>)
    ensures SumCounts(Distinct(es), multiset(es)) == |es|
  {
    SumOverCover(Distinct(es), es);
  }

  /** `max(keys, key=count)`: the first key, in iteration order, with the
      highest count. */
  function ArgMaxFirst(ks: seq<string>, m: multiset<string>): (r: nat)
    requires |ks| > 0
    ensures r < |ks|
    ensures forall j :: 0 <= j < |ks| ==> m[ks[j]] <= m[ks[r]]
    ensures forall j :: 0 <= j < r ==> m[ks[j]] < m[ks[r]]
  {
    if |ks| == 1 then 0
    else
      var r := ArgMaxFirst(ks[1..], m) + 1;
      assert forall j :: 1 <= j < |ks| ==> ks[j] == ks[1..][j - 1];
      if m[ks[0]] >= m[ks[r]] then 0 else r
  }

  /** The "most felt emotion" of a report (app.py:1468): an emotion of the
      period with the highest count, ties going to the one that appeared first. */
  function Dominant(es: seq<string>): (d: string)
    requires |es| > 0
    ensures d in es
    ensures forall e :: multiset(es)[e] <= multiset(es)[d]
    ensures forall e :: e in es && e != d && multiset(es)[e] == multiset(es)[d] ==>
              First(es, d) < First(es, e)
  {
    var ks := Distinct(es);
    assert es[0] in ks;
    var r := ArgMaxFirst(ks, multiset(es));
    assert forall e :: e !in es ==> multiset(es)[e] == 0;
    assert forall e :: e in es ==> exists j :: 0 <= j < |ks| && ks[j] == e;
    assert forall e :: e in es && e != ks[r] && multiset(es)[e] == multiset(es)[ks[r]] ==>
             First(es, ks[r]) < First(es, e) by {
      forall e | e in es && e != ks[r] && multiset(es)[e] == multiset(es)[ks[r]]
        ensures First(es, ks[r]) < First(es, e)
      {
        TieGoesToFirst(es, r, e);
      }
    }
    ks[r]
  }

  /** An equally frequent value placed after the maximum in `Distinct(es)`
      first occurs later in `es`. */
  lemma TieGoesToFirst(es: seq<string>, r: nat, e: string)
    requires r < |Distinct(es)|
    requires forall j :: 0 <= j < r ==> multiset(es)[Distinct(es)[j]] < multiset(es)[Distinct(es)[r]]
    requires e in es && e != Distinct(es)[r] && multiset(es)[e] == multiset(es)[Distinct(es)[r]]
    ensures First(es, Distinct(es)[r]) < First(es, e)
  {
    var ks := Distinct(es);
    assert e in ks;
    var i :| 0 <= i < |ks| && ks[i] == e;
    assert i != r;
  }

  /** The monthly table (app.py:1505-1506): one row per emotion of the table
      that occurs, in the table's declared order, with its count. */
  function RowsInOrder(names: seq<string>, m: multiset<string>): (rows: seq<(string, nat)>)
    ensures forall row :: row in rows ==> row.0 in names && row.1 == m[row.0] > 0
    ensures forall e :: e in names && m[e] > 0 ==> (e, m[e]) in rows
  {
    if names == [] then []
    else
      var rest := RowsInOrder(names[1..], m);
      assert forall e :: e in names[1..] ==> e in names;
      assert forall e :: e in names ==> e == names[0] || e in names[1..];
      (if m[names[0]] > 0 then [(names[0], m[names[0]])] else []) + rest
  }

  /** The rows name values of `names`, in the order of their first occurrence. */
  predicate RowsOrdered(rows: seq<(string, nat)>, names: seq<string>)
  {
    && (forall i :: 0 <= i < |rows| ==> rows[i].0 in names)
    && forall i, j :: 0 <= i < j < |rows| ==> First(names, rows[i].0) < First(names, rows[j].0)
  }

  /** Over a list of names without repeats, the rows follow the list's order,
      so no emotion gets two rows. */
  lemma {:induction false} RowsFollowNames(names: seq<string>, m: multiset<string>)
    requires NoDup(names)
    ensures RowsOrdered(RowsInOrder(names, m), names)
  {
    if names != [] {
      var rest := RowsInOrder(names[1..], m);
      RowsFollowNames(names[1..], m);
      RowsOrderedTail(names, rest);
      if m[names[0]] > 0 {
        RowsOrderedCons(names, m[names[0]], rest);
      }
    }
  }

  /** Rows ordered by the tail of a list without repeats are ordered by the list. */
  lemma RowsOrderedTail(names: seq<string>, rows: seq<(string, nat)>)
    requires |names| > 0 && NoDup(names) && RowsOrdered(rows, names[1..])
    ensures RowsOrdered(rows, names)
    ensures forall i :: 0 <= i < |rows| ==> rows[i].0 != names[0]
  {
    forall i | 0 <= i < |rows| ensures rows[i].0 in names && First(names, rows[i].0) == First(names[1..], rows[i].0) + 1 {
      FirstOfTail(names, rows[i].0);
    }
  }

  /** A row for the head of the list goes in front of rows for its tail. */
  lemma RowsOrderedCons(names: seq<string>, c: nat, rows: seq<(string, nat)>)
    requires |names| > 0 && RowsOrdered(rows, names)
    requires forall i :: 0 <= i < |rows| ==> rows[i].0 != names[0]
    ensures RowsOrdered([(names[0], c)] + rows, names)
  {
    var r := [(names[0], c)] + rows;
    assert First(names, names[0]) == 0;
    forall i, j | 0 <= i < j < |r| ensures First(names, r[i].0) < First(names, r[j].0) {
      assert r[j] == rows[j - 1];
      if i > 0 { assert r[i] == rows[i - 1]; }
    }
  }

  /** Without repeats, a later name's first occurrence is one past its first
      occurrence in the tail. */
  lemma FirstOfTail(names: seq<string>, e: string)
    requires |names| > 0 && NoDup(names) && e in names[1..]
    ensures First(names, e) == First(names[1..], e) + 1
  {
    var k := First(names[1..], e);
    assert names[k + 1] == e;
  }

  function MonthlyRows(es: seq<string>): seq<(string, nat)>
  {
    RowsInOrder(Chatbot.EmotionNames, multiset(es))
  }

  /** The monthly table lists the emotions in the table's declared order, one
      row each. */
  lemma MonthlyRowsInTableOrder(es: seq<string>)
    ensures RowsOrdered(MonthlyRows(es), Chatbot.EmotionNames)
  {
    Chatbot.EmotionTableShape();
    RowsFollowNames(Chatbot.EmotionNames, multiset(es));
  }

  function SumRows(rows: seq<(string, nat)>): nat
  {
    if rows == [] then 0 else rows[0].1 + SumRows(rows[1..])
  }

  lemma {:induction false} SumRowsIsSumCounts(names: seq<string>, m: multiset<string>)
    ensures SumRows(RowsInOrder(names, m)) == SumCounts(names, m)
  {
    if names != [] {
      SumRowsIsSumCounts(names[1..], m);
      var rest := RowsInOrder(names[1..], m);
      if m[names[0]] > 0 {
        assert RowsInOrder(names, m) == [(names[0], m[names[0]])] + rest;
        assert ([(names[0], m[names[0]])] + rest)[1..] == rest;
      } else {
        assert RowsInOrder(names, m) == rest;
      }
    }
  }

  /** When every event carries one of the ten emotions, the monthly table's
      counts add up to the number of events; an emotion outside the table
      would be dropped from it. */
  lemma MonthlyRowsCoverAll(es: seq<string>)
    requires forall e :: e in es ==> e in Chatbot.EmotionNames
    ensures SumRows(MonthlyRows(es)) == |es|
  {
    Chatbot.EmotionTableShape();
    SumRowsIsSumCounts(Chatbot.EmotionNames, multiset(es));
    SumOverCover(Chatbot.EmotionNames, es);
  }

  // ---------------------------------------------------------------------------
  // Time of day (app.py:1565-1577)

  const BucketLabels: seq<string> := ["새벽 (0-6시)", "오전 (6-12시)", "오후 (12-18시)", "저녁 (18-24시)"]

  /** `pd.cut(hour, [0, 6, 12, 18, 24], include_lowest=True)`: right-closed
      bins, the first one also closed on the left, so hours 0-6, 7-12, 13-18
      and 19-23. */
  function TimeBucket(hour: int): (b: nat)
    requires 0 <= hour <= 23
    ensures b < |BucketLabels|
    ensures (b == 0 && hour <= 6) || (b > 0 && 6 * b < hour <= 6 * b + 6)
  {
    if hour <= 6 then 0 else (hour - 1) / 6
  }

  predicate ValidHours(evs: seq<(int, string)>)
  {
    forall i :: 0 <= i < |evs| ==> 0 <= evs[i].0 <= 23
  }

  /** The row total of bucket `b` of the hour-by-emotion table. */
  function BucketTotal(evs: seq<(int, string)>, b: nat): nat
    requires ValidHours(evs)
  {
    if evs == [] then 0
    else (if TimeBucket(evs[0].0) == b then 1 else 0) + BucketTotal(evs[1..], b)
  }

  /** The table cell for bucket `b` and emotion `e`. */
  function Cell(evs: seq<(int, string)>, b: nat, e: string): (c: nat)
    requires ValidHours(evs)
    ensures c <= BucketTotal(evs, b)
  {
    if evs == [] then 0
    else (if TimeBucket(evs[0].0) == b && evs[0].1 == e then 1 else 0) + Cell(evs[1..], b, e)
  }

  /** The emotion column of the hour events. */
  function HourEmotions(evs: seq<(int, string)>): (es: seq<string>)
    ensures |es| == |evs| && forall i :: 0 <= i < |evs| ==> es[i] == evs[i].1
  {
    if evs == [] then [] else [evs[0].1] + HourEmotions(evs[1..])
  }

  /** The sum of the cells of bucket `b` over the emotion columns `ks`. */
  function SumCells(evs: seq<(int, string)>, b: nat, ks: seq<string>): nat
    requires ValidHours(evs)
  {
    if ks == [] then 0 else Cell(evs, b, ks[0]) + SumCells(evs, b, ks[1..])
  }

  lemma {:induction false} SumCellsNoEvents(b: nat, ks: seq<string>)
    ensures SumCells([], b, ks) == 0
  {
    if ks != [] { SumCellsNoEvents(b, ks[1..]); }
  }

  /** Peeling off the first event: it adds one to the sum exactly when it lies
      in bucket `b` and its emotion is one of the columns. */
  lemma {:induction false} SumCellsCons(evs: seq<(int, string)>, b: nat, ks: seq<string>)
    requires ValidHours(evs) && evs != [] && NoDup(ks)
    ensures SumCells(evs, b, ks) ==
              SumCells(evs[1..], b, ks) + (if TimeBucket(evs[0].0) == b && evs[0].1 in ks then 1 else 0)
  {
    if ks != [] {
      SumCellsCons(evs, b, ks[1..]);
      assert evs[0].1 in ks <==> evs[0].1 == ks[0] || evs[0].1 in ks[1..];
    }
  }

  /** Summing a bucket's cells over duplicate-free columns that cover every
      event's emotion gives the bucket's row total. */
  lemma {:induction false} SumCellsOverCover(evs: seq<(int, string)>, b: nat, ks: seq<string>)
    requires ValidHours(evs) && NoDup(ks)
    requires forall i :: 0 <= i < |evs| ==> evs[i].1 in ks
    ensures SumCells(evs, b, ks) == BucketTotal(evs, b)
  {
    if evs == [] {
      SumCellsNoEvents(b, ks);
    } else {
      SumCellsCons(evs, b, ks);
      SumCellsOverCover(evs[1..], b, ks);
    }
  }

  /** The 합계 column: each row total is the sum of that row's cells over the
      crosstab's emotion columns, the distinct emotions of the events. */
  lemma RowTotalIsSumOfCells(evs: seq<(int, string)>, b: nat)
    requires ValidHours(evs)
    ensures SumCells(evs, b, Distinct(HourEmotions(evs))) == BucketTotal(evs, b)
  {
    var es := HourEmotions(evs);
    forall i | 0 <= i < |evs| ensures evs[i].1 in Distinct(es) {
      assert es[i] in es;
    }
    SumCellsOverCover(evs, b, Distinct(es));
  }

  /** Every event lands in exactly one of the four buckets, so the row totals
      add up to the number of events (all zero for no events). */
  lemma {:induction false} BucketTotalsAddUp(evs: seq<(int, string)>)
    requires ValidHours(evs)
    ensures BucketTotal(evs, 0) + BucketTotal(evs, 1) + BucketTotal(evs, 2) + BucketTotal(evs, 3) == |evs|
  {
    if evs != [] {
      BucketTotalsAddUp(evs[1..]);
    }
  }

  // ---------------------------------------------------------------------------
  // Paging (app.py:152-176)

  /** `max(len(df) // page_size, 1)` as written. */
  function TotalPages(n: nat, size: nat): (t: nat)
    requires size > 0
    ensures t >= 1 && t * size <= if n < size then size else n
  {
    if n / size > 1 then n / size else 1
  }

  /** The rows `[start, end)` shown on `page`. */
  function PageRange(page: nat, size: nat, n: nat): (nat, nat)
  {
    var start := page * size;
    (start, if start + size <= n then start + size else n)
  }

  predicate Shown(row: nat, page: nat, size: nat, n: nat)
  {
    var (lo, hi) := PageRange(page, size, n);
    lo <= row < hi
  }

  /** The page buttons: previous and next, clamped to the page range. */
  function NextPage(page: nat, total: nat): nat
    requires total >= 1
  {
    if page + 1 <= total - 1 then page + 1 else total - 1
  }

  function PrevPage(page: nat): nat
  {
    if page == 0 then 0 else page - 1
  }

  /** Starting from page 0, the buttons keep the page within [0, total). */
  lemma PagesStayInRange(page: nat, total: nat)
    requires total >= 1 && page < total
    ensures NextPage(page, total) < total && PrevPage(page) < total
    ensures page < total - 1 ==> NextPage(page, total) == page + 1
  {
  }

  /** As written, the rows past the last full page are never shown: with 15
      rows of 10 per page there is one page and rows 10-14 are unreachable. */
  lemma TrailingRowsHidden(n: nat, size: nat, row: nat)
    requires size > 0 && n > size && n % size != 0 && (n / size) * size <= row < n
    ensures forall page :: 0 <= page < TotalPages(n, size) ==> !Shown(row, page, size, n)
  {
    assert TotalPages(n, size) == n / size;
    forall page | 0 <= page < TotalPages(n, size) ensures !Shown(row, page, size, n) {
      MulLe(page + 1, n / size, size);
      assert page * size + size == (page + 1) * size;
    }
  }

  lemma MulLe(a: nat, b: nat, c: nat)
    requires a <= b
    ensures a * c <= b * c
  {
    assert b * c == a * c + (b - a) * c;
  }

  lemma FifteenRowsExample()
    ensures TotalPages(15, 10) == 1 && !Shown(10, 0, 10, 15)
  {
  }

  /** The evidently intended page count: a trailing partial page counts. */
  function TotalPagesCeil(n: nat, size: nat): (t: nat)
    requires size > 0
    ensures t >= 1 && n <= t * size
  {
    var c := (n + size - 1) / size;
    assert c * size >= n;
    if c > 1 then c else 1
  }

  /** With the ceiling, every row is on exactly the reachable page `row / size`. */
  lemma EveryRowShown(n: nat, size: nat, row: nat)
    requires size > 0 && row < n
    ensures row / size < TotalPagesCeil(n, size) && Shown(row, row / size, size, n)
  {
    var p := row / size;
    assert p * size <= row < p * size + size;
  }
}
