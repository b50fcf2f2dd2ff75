/**
 * The transcript updater of the capture hook: each data-channel message that
 * decodes to an object with a truthy `text` becomes one entry, appended to the
 * list, and the list is then re-sorted by ascending timestamp with the
 * engine's stable `Array.prototype.sort`.
 */
module Transcript {
  import opened Wrappers

  /** A transcript entry (the `Transcription` interface); `speaker` is optional there. */
  datatype Entry = Entry(speaker: Option<string>, text: string, timestamp: int)

  /**
   * The fields the updater reads from the decoded JSON object; a field that is
   * absent (or `null`) is None.
   */
  datatype Message = Message(speaker: Option<string>, text: Option<string>, timestamp: Option<int>)

  /** The speaker written into an entry whose message names none. */
  const DefaultSpeaker: string := "Modelo"

  /** JavaScript truthiness of an optional string: present and not empty. */
  predicate TruthyString(s: Option<string>) {
    s.Some? && s.value != ""
  }

  /** JavaScript truthiness of an optional number: present and not zero. */
  predicate TruthyNumber(n: Option<int>) {
    n.Some? && n.value != 0
  }

  /** The message decoded (JSON.parse did not throw) and carries a truthy `text`. */
  predicate HasText(parsed: Option<Message>) {
    parsed.Some? && TruthyString(parsed.value.text)
  }

  /** The entry built from a message: `speaker || "Modelo"`, `text`, `timestamp || now`. */
  function NewEntry(m: Message, now: int): (e: Entry)
    requires TruthyString(m.text)
    ensures e.text == m.text.value
    ensures e.speaker.Some? && e.speaker.value != ""
    ensures TruthyString(m.speaker) ==> e.speaker == m.speaker
    ensures !TruthyString(m.speaker) ==> e.speaker == Some(DefaultSpeaker)
    ensures TruthyNumber(m.timestamp) ==> e.timestamp == m.timestamp.value
    ensures !TruthyNumber(m.timestamp) ==> e.timestamp == now
  {
    Entry(if TruthyString(m.speaker) then m.speaker else Some(DefaultSpeaker),
          m.text.value,
          if TruthyNumber(m.timestamp) then m.timestamp.value else now)
  }

  /** Ascending by timestamp (equal timestamps allowed). */
  ghost predicate Sorted(s: seq<Entry>) {
    forall i, j :: 0 <= i < j < |s| ==> s[i].timestamp <= s[j].timestamp
  }

  /** The entries of `s` whose timestamp is `t`, in their order in `s`. */
  function WithTimestamp(s: seq<Entry>, t: int): seq<Entry> {
    if s == [] then []
    else (if s[0].timestamp == t then [s[0]] else []) + WithTimestamp(s[1..], t)
  }

  /** The number of leading entries whose timestamp is at most `t`. */
  function Position(s: seq<Entry>, t: int): (k: nat)
    ensures k <= |s|
  {
    if s == [] || s[0].timestamp > t then 0 else 1 + Position(s[1..], t)
  }

  /** Every entry before `Position` is not later than `t`; the one at `Position`, if any, is later. */
  lemma {:induction false} PositionBounds(s: seq<Entry>, t: int)
    ensures forall i :: 0 <= i < Position(s, t) ==> s[i].timestamp <= t
    ensures Position(s, t) < |s| ==> s[Position(s, t)].timestamp > t
  {
    if s != [] && s[0].timestamp <= t {
      PositionBounds(s[1..], t);
    }
  }

  /**
   * One step of a stable insertion sort: `e` goes in front of the first entry
   * with a greater timestamp, so after every leading entry that is not greater.
   */
  function Insert(s: seq<Entry>, e: Entry): seq<Entry> {
    if s == [] then [e]
    else if e.timestamp < s[0].timestamp then [e] + s
    else [s[0]] + Insert(s[1..], e)
  }

  /** Inserting adds exactly `e` to the entries. */
  lemma {:induction false} InsertPermutes(s: seq<Entry>, e: Entry)
    ensures multiset(Insert(s, e)) == multiset(s) + multiset{e}
  {
    if s != [] && e.timestamp >= s[0].timestamp {
      InsertPermutes(s[1..], e);
      assert s == [s[0]] + s[1..];
    }
  }

  /** Inserting into a sorted list keeps it sorted. */
  lemma {:induction false} InsertSorted(s: seq<Entry>, e: Entry)
    requires Sorted(s)
    ensures Sorted(Insert(s, e))
  {
    if s == [] {
    } else if e.timestamp < s[0].timestamp {
      ConsSorted(e, s);
    } else {
      var rest := Insert(s[1..], e);
      InsertPermutes(s[1..], e);
      TailBound(s, e, rest);
      InsertSorted(s[1..], e);
      ConsSorted(s[0], rest);
    }
  }

  /** The tail of a sorted list is sorted. */
  lemma SortedTail(s: seq<Entry>)
    requires Sorted(s) && s != []
    ensures Sorted(s[1..])
  {
  }

  /** An entry not later than any entry of a sorted list can go in front of it. */
  lemma ConsSorted(x: Entry, r: seq<Entry>)
    requires Sorted(r) && forall i :: 0 <= i < |r| ==> x.timestamp <= r[i].timestamp
    ensures Sorted([x] + r)
  {
  }

  /** The entries that follow the head of a sorted list, plus a later `e`, are not earlier than the head. */
  lemma TailBound(s: seq<Entry>, e: Entry, rest: seq<Entry>)
    requires Sorted(s) && s != [] && s[0].timestamp <= e.timestamp
    requires multiset(rest) == multiset(s[1..]) + multiset{e}
    ensures Sorted(s[1..]) && forall i :: 0 <= i < |rest| ==> s[0].timestamp <= rest[i].timestamp
  {
    forall i | 0 <= i < |rest| ensures s[0].timestamp <= rest[i].timestamp {
      assert rest[i] in multiset(rest);
      if rest[i] != e {
        assert rest[i] in multiset(s[1..]);
        var j :| 0 <= j < |s[1..]| && s[1..][j] == rest[i];
        assert s[j + 1] == rest[i];
      }
    }
  }

  /**
   * The sort `newT.sort((a, b) => a.timestamp - b.timestamp)`: stable, ascending.
   * Written as insertion of each element in turn; `StableSortUnique` shows that
   * every stable sort by timestamp yields this same list.
   */
  function SortByTimestamp(s: seq<Entry>): seq<Entry> {
    if s == [] then [] else Insert(SortByTimestamp(s[..|s| - 1]), s[|s| - 1])
  }

  /** The sort's result is sorted. */
  lemma {:induction false} SortSorted(s: seq<Entry>)
    ensures Sorted(SortByTimestamp(s))
  {
    if s != [] {
      SortSorted(s[..|s| - 1]);
      InsertSorted(SortByTimestamp(s[..|s| - 1]), s[|s| - 1]);
    }
  }

  /** The sort's result is a permutation of its input. */
  lemma {:induction false} SortPermutes(s: seq<Entry>)
    ensures multiset(SortByTimestamp(s)) == multiset(s)
  {
    if s != [] {
      var init, last := s[..|s| - 1], s[|s| - 1];
      SortPermutes(init);
      InsertPermutes(SortByTimestamp(init), last);
      assert s == init + [last];
    }
  }

  /**
   * The functional updater handed to `setTranscriptions` for one message:
   * `parsed` is None when JSON.parse threw (the catch logs and drops it), and
   * `now` stands for `Date.now()`.
   */
  function Ingest(prev: seq<Entry>, parsed: Option<Message>, now: int): (r: seq<Entry>)
    ensures !HasText(parsed) ==> r == prev
    ensures HasText(parsed) ==> |r| == |prev| + 1
    ensures HasText(parsed) ==> Sorted(r)
    ensures HasText(parsed) ==> multiset(r) == multiset(prev) + multiset{NewEntry(parsed.value, now)}
  {
    if HasText(parsed) then
      var appended := prev + [NewEntry(parsed.value, now)];
      SortSorted(appended);
      SortPermutes(appended);
      assert |SortByTimestamp(appended)| == |multiset(SortByTimestamp(appended))|;
      SortByTimestamp(appended)
    else prev
  }

  // ---------------------------------------------------------------------------
  // Stability: the sort keeps, for every timestamp, the arrival order of the
  // entries that share it, and that determines the sorted list uniquely.
  // ---------------------------------------------------------------------------

  /** `r` is what a stable sort of `s` by ascending timestamp returns. */
  ghost predicate StableSortOf(s: seq<Entry>, r: seq<Entry>) {
    Sorted(r) && forall t :: WithTimestamp(r, t) == WithTimestamp(s, t)
  }

  lemma {:induction false} WithTimestampConcat(a: seq<Entry>, b: seq<Entry>, t: int)
    ensures WithTimestamp(a + b, t) == WithTimestamp(a, t) + WithTimestamp(b, t)
  {
    if a != [] {
      var head := if a[0].timestamp == t then [a[0]] else [];
      assert (a + b)[0] == a[0];
      assert (a + b)[1..] == a[1..] + b;
      WithTimestampConcat(a[1..], b, t);
      calc {
        WithTimestamp(a + b, t);
        head + WithTimestamp(a[1..] + b, t);
        head + (WithTimestamp(a[1..], t) + WithTimestamp(b, t));
        (head + WithTimestamp(a[1..], t)) + WithTimestamp(b, t);
      }
    } else {
      assert a + b == b;
    }
  }

  lemma {:induction false} WithTimestampNone(s: seq<Entry>, t: int)
    requires forall i :: 0 <= i < |s| ==> s[i].timestamp != t
    ensures WithTimestamp(s, t) == []
  {
    if s != [] {
      WithTimestampNone(s[1..], t);
    }
  }

  /** Filtering a list with one entry in front of it. */
  lemma WithTimestampCons(x: Entry, r: seq<Entry>, t: int)
    ensures WithTimestamp([x] + r, t) == (if x.timestamp == t then [x] else []) + WithTimestamp(r, t)
  {
    assert ([x] + r)[0] == x;
    assert ([x] + r)[1..] == r;
  }

  /** An entry earlier than every entry of a sorted list is the first of its timestamp. */
  lemma InsertFrontWithTimestamp(s: seq<Entry>, e: Entry, t: int)
    requires Sorted(s) && s != [] && e.timestamp < s[0].timestamp
    ensures WithTimestamp([e] + s, t) == WithTimestamp(s, t) + (if e.timestamp == t then [e] else [])
  {
    WithTimestampCons(e, s, t);
    if e.timestamp == t {
      WithTimestampNone(s, t);
    }
  }

  /** Inserting into a sorted list puts `e` after every entry that shares its timestamp. */
  lemma {:induction false} InsertWithTimestamp(s: seq<Entry>, e: Entry, t: int)
    requires Sorted(s)
    ensures WithTimestamp(Insert(s, e), t) == WithTimestamp(s, t) + (if e.timestamp == t then [e] else [])
  {
    if s == [] {
      WithTimestampCons(e, [], t);
      assert [e] + [] == [e];
    } else if e.timestamp < s[0].timestamp {
      InsertFrontWithTimestamp(s, e, t);
    } else {
      var rest := Insert(s[1..], e);
      assert Insert(s, e) == [s[0]] + rest;
      SortedTail(s);
      InsertWithTimestamp(s[1..], e, t);
      WithTimestampCons(s[0], rest, t);
      WithTimestampCons(s[0], s[1..], t);
      assert [s[0]] + s[1..] == s;
    }
  }

  /** The sort is stable: for each timestamp, the entries sharing it keep their order. */
  lemma {:induction false} SortStable(s: seq<Entry>, t: int)
    ensures WithTimestamp(SortByTimestamp(s), t) == WithTimestamp(s, t)
  {
    if s != [] {
      var init, last := s[..|s| - 1], s[|s| - 1];
      assert s == init + [last];
      SortStable(init, t);
      SortSorted(init);
      InsertWithTimestamp(SortByTimestamp(init), last, t);
      WithTimestampConcat(init, [last], t);
      assert [last][1..] == [];
    }
  }

  lemma SortIsStableSort(s: seq<Entry>)
    ensures StableSortOf(s, SortByTimestamp(s))
  {
    SortSorted(s);
    forall t ensures WithTimestamp(SortByTimestamp(s), t) == WithTimestamp(s, t) {
      SortStable(s, t);
    }
  }

  /** Two sorted lists with the same entries per timestamp, in the same order, are equal. */
  lemma {:induction false} SortedByClassesUnique(r1: seq<Entry>, r2: seq<Entry>)
    requires Sorted(r1) && Sorted(r2)
    requires forall t :: WithTimestamp(r1, t) == WithTimestamp(r2, t)
    ensures r1 == r2
  {
    if r1 == [] && r2 == [] {
    } else if r1 == [] {
      HeadInClass(r2);
      assert false;
    } else if r2 == [] {
      HeadInClass(r1);
      assert false;
    } else {
      var a, b := r1[0], r2[0];
      if b.timestamp < a.timestamp {
        FirstOfClass(r1, b.timestamp);
        assert false;
      }
      if a.timestamp < b.timestamp {
        FirstOfClass(r2, a.timestamp);
        assert false;
      }
      assert WithTimestamp(r1, a.timestamp)[0] == a;
      assert WithTimestamp(r2, a.timestamp)[0] == b;
      forall t ensures WithTimestamp(r1[1..], t) == WithTimestamp(r2[1..], t) {
        var h := if a.timestamp == t then [a] else [];
        assert WithTimestamp(r1, t) == h + WithTimestamp(r1[1..], t);
        assert WithTimestamp(r2, t) == h + WithTimestamp(r2[1..], t);
        assert WithTimestamp(r1[1..], t) == (h + WithTimestamp(r1[1..], t))[|h|..];
        assert WithTimestamp(r2[1..], t) == (h + WithTimestamp(r2[1..], t))[|h|..];
      }
      SortedByClassesUnique(r1[1..], r2[1..]);
      assert r1 == [a] + r1[1..] && r2 == [b] + r2[1..];
    }
  }

  lemma HeadInClass(s: seq<Entry>)
    requires s != []
    ensures WithTimestamp(s, s[0].timestamp) != []
  {
  }

  /** In a sorted list, an entry with timestamp `t` exists only if the head's is at most `t`. */
  lemma {:induction false} FirstOfClass(s: seq<Entry>, t: int)
    requires Sorted(s) && s != []
    requires t < s[0].timestamp
    ensures WithTimestamp(s, t) == []
  {
    WithTimestampNone(s, t);
  }

  /** Whatever stable algorithm the engine uses, its result is `SortByTimestamp`. */
  lemma StableSortUnique(s: seq<Entry>, r: seq<Entry>)
    requires StableSortOf(s, r)
    ensures r == SortByTimestamp(s)
  {
    SortIsStableSort(s);
    SortedByClassesUnique(r, SortByTimestamp(s));
  }

  // ---------------------------------------------------------------------------
  // Where the new entry lands.
  // ---------------------------------------------------------------------------

  /** An entry not earlier than every entry of the list goes at its end. */
  lemma {:induction false} InsertAtEnd(s: seq<Entry>, e: Entry)
    requires forall i :: 0 <= i < |s| ==> s[i].timestamp <= e.timestamp
    ensures Insert(s, e) == s + [e]
  {
    if s != [] {
      InsertAtEnd(s[1..], e);
      assert s == [s[0]] + s[1..];
    }
  }

  /** Sorting a sorted list changes nothing. */
  lemma {:induction false} SortOfSorted(s: seq<Entry>)
    requires Sorted(s)
    ensures SortByTimestamp(s) == s
  {
    if s != [] {
      var init, last := s[..|s| - 1], s[|s| - 1];
      SortedInit(s);
      SortOfSorted(init);
      InsertAtEnd(init, last);
      assert SortByTimestamp(s) == Insert(SortByTimestamp(init), last);
      assert s == init + [last];
    }
  }

  /** Dropping the last entry of a sorted list leaves a sorted list, none of it later than that entry. */
  lemma SortedInit(s: seq<Entry>)
    requires Sorted(s) && s != []
    ensures Sorted(s[..|s| - 1])
    ensures forall i :: 0 <= i < |s| - 1 ==> s[i].timestamp <= s[|s| - 1].timestamp
  {
  }

  /** `Insert` splits the list at `Position`: everything before is not later than `e`. */
  lemma {:induction false} InsertSplit(s: seq<Entry>, e: Entry)
    ensures Insert(s, e) == s[..Position(s, e.timestamp)] + [e] + s[Position(s, e.timestamp)..]
  {
    if s != [] && e.timestamp >= s[0].timestamp {
      var u := s[1..];
      InsertSplit(u, e);
      InsertCons(s, e);
      ConsSplit(s[0], u, e, Position(u, e.timestamp));
      assert [s[0]] + u == s;
    } else {
      assert Position(s, e.timestamp) == 0;
      assert s[..0] == [] && s[0..] == s;
      assert Insert(s, e) == [e] + s;
    }
  }

  lemma InsertCons(s: seq<Entry>, e: Entry)
    requires s != [] && e.timestamp >= s[0].timestamp
    ensures Insert(s, e) == [s[0]] + Insert(s[1..], e)
    ensures Position(s, e.timestamp) == Position(s[1..], e.timestamp) + 1
  {
  }

  lemma ConsSplit(x: Entry, u: seq<Entry>, e: Entry, k: nat)
    requires k <= |u|
    ensures [x] + (u[..k] + [e] + u[k..]) == ([x] + u)[..k + 1] + [e] + ([x] + u)[k + 1..]
  {
    assert ([x] + u)[..k + 1] == [x] + u[..k];
    assert ([x] + u)[k + 1..] == u[k..];
  }

  /** Appending then sorting is inserting into the sorted old list. */
  lemma IngestIsInsert(prev: seq<Entry>, parsed: Option<Message>, now: int)
    requires HasText(parsed)
    ensures Ingest(prev, parsed, now) == Insert(SortByTimestamp(prev), NewEntry(parsed.value, now))
  {
    var s := prev + [NewEntry(parsed.value, now)];
    assert s[..|s| - 1] == prev;
  }

  /**
   * Into a sorted list, the new entry is placed after every old entry whose
   * timestamp is equal or smaller and before every later one; the old entries
   * keep their order.
   */
  lemma IngestIntoSorted(prev: seq<Entry>, parsed: Option<Message>, now: int)
    requires Sorted(prev) && HasText(parsed)
    ensures var e, k := NewEntry(parsed.value, now), Position(prev, NewEntry(parsed.value, now).timestamp);
      && Ingest(prev, parsed, now) == prev[..k] + [e] + prev[k..]
      && (forall i :: 0 <= i < k ==> prev[i].timestamp <= e.timestamp)
      && (forall i :: k <= i < |prev| ==> prev[i].timestamp > e.timestamp)
  {
    IngestIsInsert(prev, parsed, now);
    SortOfSorted(prev);
    InsertSplit(prev, NewEntry(parsed.value, now));
    PositionBounds(prev, NewEntry(parsed.value, now).timestamp);
  }

  /**
   * For any previous list, among the entries that share the new entry's
   * timestamp the new one comes last; other timestamps are untouched.
   */
  lemma IngestStable(prev: seq<Entry>, parsed: Option<Message>, now: int, t: int)
    requires HasText(parsed)
    ensures var e := NewEntry(parsed.value, now);
      WithTimestamp(Ingest(prev, parsed, now), t) == WithTimestamp(prev, t) + (if e.timestamp == t then [e] else [])
  {
    var e := NewEntry(parsed.value, now);
    SortStable(prev + [e], t);
    WithTimestampConcat(prev, [e], t);
    assert [e][1..] == [];
  }

  // ---------------------------------------------------------------------------
  // Arrival order.
  // ---------------------------------------------------------------------------

  lemma {:induction false} InsertCommutes(s: seq<Entry>, a: Entry, b: Entry)
    requires a.timestamp != b.timestamp
    ensures Insert(Insert(s, a), b) == Insert(Insert(s, b), a)
  {
    if s != [] && a.timestamp >= s[0].timestamp && b.timestamp >= s[0].timestamp {
      InsertCommutes(s[1..], a, b);
      assert Insert(s, a) == [s[0]] + Insert(s[1..], a);
      assert Insert(s, b) == [s[0]] + Insert(s[1..], b);
      assert ([s[0]] + Insert(s[1..], a))[1..] == Insert(s[1..], a);
      assert ([s[0]] + Insert(s[1..], b))[1..] == Insert(s[1..], b);
    } else if s != [] && a.timestamp < s[0].timestamp && b.timestamp >= s[0].timestamp {
      assert ([a] + s)[1..] == s;
      assert Insert(s, b)[0] == s[0];
    } else if s != [] && b.timestamp < s[0].timestamp && a.timestamp >= s[0].timestamp {
      assert ([b] + s)[1..] == s;
      assert Insert(s, a)[0] == s[0];
    } else if s != [] {
      assert ([a] + s)[1..] == s;
      assert ([b] + s)[1..] == s;
    }
  }

  /**
   * Two messages whose entries have different timestamps give the same list
   * whichever of them arrives first.
   */
  lemma ArrivalOrderIrrelevant(prev: seq<Entry>, p1: Option<Message>, n1: int, p2: Option<Message>, n2: int)
    requires HasText(p1) && HasText(p2)
    requires NewEntry(p1.value, n1).timestamp != NewEntry(p2.value, n2).timestamp
    ensures Ingest(Ingest(prev, p1, n1), p2, n2) == Ingest(Ingest(prev, p2, n2), p1, n1)
  {
    var e1, e2 := NewEntry(p1.value, n1), NewEntry(p2.value, n2);
    var base := SortByTimestamp(prev);
    IngestIsInsert(prev, p1, n1);
    IngestIsInsert(prev, p2, n2);
    IngestIsInsert(Ingest(prev, p1, n1), p2, n2);
    IngestIsInsert(Ingest(prev, p2, n2), p1, n1);
    SortOfSorted(Ingest(prev, p1, n1));
    SortOfSorted(Ingest(prev, p2, n2));
    InsertCommutes(base, e1, e2);
  }

  /** Inserting into a one-entry list: before it when strictly earlier, after it otherwise. */
  lemma InsertPair(x: Entry, e: Entry)
    ensures Insert([x], e) == if e.timestamp < x.timestamp then [e, x] else [x, e]
  {
    if e.timestamp >= x.timestamp {
      assert [x][1..] == [];
      assert Insert([x], e) == [x] + Insert([], e);
    }
  }

  /**
   * Two messages with text into an empty transcript: the second goes first
   * only when its timestamp is strictly earlier.
   */
  lemma TwoMessages(p1: Option<Message>, n1: int, p2: Option<Message>, n2: int)
    requires HasText(p1) && HasText(p2)
    ensures var e1, e2 := NewEntry(p1.value, n1), NewEntry(p2.value, n2);
      Ingest(Ingest([], p1, n1), p2, n2) == if e2.timestamp < e1.timestamp then [e2, e1] else [e1, e2]
  {
    var e1, e2 := NewEntry(p1.value, n1), NewEntry(p2.value, n2);
    OneEntry(p1, n1);
    IngestIsInsert([e1], p2, n2);
    SortOfSorted([e1]);
    InsertPair(e1, e2);
  }

  /** On a timestamp tie the arrival order shows: the same two messages, swapped, give a different list. */
  lemma TiesKeepArrivalOrder()
    ensures var a, b := Some(Message(Some("A"), Some("x"), Some(5))), Some(Message(Some("B"), Some("y"), Some(5)));
      && Ingest(Ingest([], a, 0), b, 0) == [Entry(Some("A"), "x", 5), Entry(Some("B"), "y", 5)]
      && Ingest(Ingest([], b, 0), a, 0) == [Entry(Some("B"), "y", 5), Entry(Some("A"), "x", 5)]
  {
    var a, b := Some(Message(Some("A"), Some("x"), Some(5))), Some(Message(Some("B"), Some("y"), Some(5)));
    assert NewEntry(a.value, 0) == Entry(Some("A"), "x", 5);
    assert NewEntry(b.value, 0) == Entry(Some("B"), "y", 5);
    TwoMessages(a, 0, b, 0);
    TwoMessages(b, 0, a, 0);
  }

  /** The first message into an empty transcript gives a one-entry list. */
  lemma OneEntry(p: Option<Message>, now: int)
    requires HasText(p)
    ensures Ingest([], p, now) == [NewEntry(p.value, now)]
  {
    IngestIsInsert([], p, now);
  }

  /** Messages arriving as 100 then 50 are listed as 50 then 100. */
  lemma EarlierTimestampListedFirst()
    ensures Ingest(Ingest([], Some(Message(Some("A"), Some("hola"), Some(100))), 0),
                   Some(Message(Some("B"), Some("qué tal"), Some(50))), 0)
         == [Entry(Some("B"), "qué tal", 50), Entry(Some("A"), "hola", 100)]
  {
    var pa, pb := Some(Message(Some("A"), Some("hola"), Some(100))), Some(Message(Some("B"), Some("qué tal"), Some(50)));
    assert NewEntry(pa.value, 0) == Entry(Some("A"), "hola", 100);
    assert NewEntry(pb.value, 0) == Entry(Some("B"), "qué tal", 50);
    TwoMessages(pa, 0, pb, 0);
  }
}
