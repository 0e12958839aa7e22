/**
 * The chord-matching rule shared, line for line, by `analyze_audio` in
 * live_record_analyzer.py and the script analyse.py: score every entry of a
 * chord table by how many of its pitch classes were detected, drop the zero
 * scores, sort by descending score with Python's stable `sorted`, and report
 * every chord tied with the first one.
 */
module ChordMatching {
  import opened ChordTables

  /** A `(chord, match_count)` pair of `chord_matches`. */
  type Match = (string, nat)

  /** `sum(1 for note in chord_notes if note in unique_notes)`. */
  function MatchCount(fingerprint: set<string>, detected: set<string>): nat {
    |fingerprint * detected|
  }

  /** The score is at most the chord's size, and zero exactly when nothing of the chord was detected. */
  lemma MatchCountBounds(fingerprint: set<string>, detected: set<string>)
    ensures MatchCount(fingerprint, detected) <= |fingerprint|
    ensures MatchCount(fingerprint, detected) <= |detected|
    ensures MatchCount(fingerprint, detected) == 0 <==> forall m | m in fingerprint :: m !in detected
  {
    assert fingerprint == (fingerprint * detected) + (fingerprint - detected);
    assert detected == (fingerprint * detected) + (detected - fingerprint);
    if MatchCount(fingerprint, detected) != 0 {
      var m :| m in fingerprint * detected;
    }
  }

  /** Moving one pitch class from `remaining` to the counted part adds one exactly when it was detected. */
  lemma CountStep(fingerprint: set<string>, remaining: set<string>, note: string, detected: set<string>)
    requires note in remaining && remaining <= fingerprint
    ensures |(fingerprint - (remaining - {note})) * detected|
      == |(fingerprint - remaining) * detected| + (if note in detected then 1 else 0)
  {
    var before := (fingerprint - remaining) * detected;
    var after := (fingerprint - (remaining - {note})) * detected;
    if note in detected {
      assert after == before + {note} && note !in before;
    } else {
      assert after == before;
    }
  }

  /** The generator sum, one pitch class at a time, in whatever order the set is iterated. */
  method CountMatches(fingerprint: set<string>, detected: set<string>) returns (count: nat)
    ensures count == MatchCount(fingerprint, detected)
  {
    count := 0;
    var remaining := fingerprint;
    while remaining != {}
      invariant remaining <= fingerprint
      invariant count == |(fingerprint - remaining) * detected|
      decreases |remaining|
    {
      var note :| note in remaining;
      CountStep(fingerprint, remaining, note, detected);
      if note in detected {
        count := count + 1;
      }
      remaining := remaining - {note};
    }
    assert fingerprint - remaining == fingerprint;
  }

  /** `chord_matches` before sorting: the positive scores, in table order. */
  function Scored(table: ChordTable, detected: set<string>): (r: seq<Match>)
    ensures forall p | 0 <= p < |r| :: r[p].1 > 0
  {
    if table == [] then []
    else
      var last := table[|table| - 1];
      var count := MatchCount(last.1, detected);
      Scored(table[..|table| - 1], detected) + (if count > 0 then [(last.0, count)] else [])
  }

  /** The pairs of `s` whose count is `k`, in the order of `s`. */
  function Keyed(s: seq<Match>, k: nat): seq<Match> {
    if s == [] then []
    else (if s[0].1 == k then [s[0]] else []) + Keyed(s[1..], k)
  }

  /** The chord names of `s`, in order. */
  function Names(s: seq<Match>): (r: seq<string>)
    ensures |r| == |s|
  {
    if s == [] then [] else [s[0].0] + Names(s[1..])
  }

  predicate Descending(s: seq<Match>) {
    forall i, j | 0 <= i < j < |s| :: s[i].1 >= s[j].1
  }

  /**
   * `sorted` is a stable sort of `original` by descending count: it is
   * descending, and the pairs of any one count come in the order `original`
   * has them.
   */
  ghost predicate StablyDescending(sorted: seq<Match>, original: seq<Match>) {
    Descending(sorted) && forall k: nat :: Keyed(sorted, k) == Keyed(original, k)
  }

  /** Puts `m` after every pair of `s` whose count is at least its own. */
  function Insert(m: Match, s: seq<Match>): seq<Match> {
    if s == [] then [m]
    else if s[0].1 >= m.1 then [s[0]] + Insert(m, s[1..])
    else [m] + s
  }

  /** `sorted(chord_matches, key=lambda x: -x[1])`, as an insertion sort. */
  function SortByCount(s: seq<Match>): seq<Match> {
    if s == [] then [] else Insert(s[|s| - 1], SortByCount(s[..|s| - 1]))
  }

  /** Inserting adds exactly one pair. */
  lemma {:induction false} InsertPermutes(m: Match, s: seq<Match>)
    ensures multiset(Insert(m, s)) == multiset(s) + multiset{m}
  {
    if s != [] && s[0].1 >= m.1 {
      InsertPermutes(m, s[1..]);
      assert s == [s[0]] + s[1..];
    }
  }

  lemma {:induction false} KeyedAppend(a: seq<Match>, b: seq<Match>, k: nat)
    ensures Keyed(a + b, k) == Keyed(a, k) + Keyed(b, k)
  {
    if a != [] {
      assert (a + b)[1..] == a[1..] + b;
      KeyedAppend(a[1..], b, k);
    } else {
      assert a + b == b;
    }
  }

  lemma {:induction false} NamesAppend(a: seq<Match>, b: seq<Match>)
    ensures Names(a + b) == Names(a) + Names(b)
  {
    if a != [] {
      assert (a + b)[1..] == a[1..] + b;
      NamesAppend(a[1..], b);
    } else {
      assert a + b == b;
    }
  }

  lemma {:induction false} KeyedNonEmpty(s: seq<Match>, k: nat)
    ensures Keyed(s, k) != [] <==> exists i | 0 <= i < |s| :: s[i].1 == k
  {
    if s != [] {
      KeyedNonEmpty(s[1..], k);
      if exists i | 0 <= i < |s| :: s[i].1 == k {
        var i :| 0 <= i < |s| && s[i].1 == k;
        if i > 0 {
          assert s[1..][i - 1].1 == k;
        }
      }
      if exists i | 0 <= i < |s[1..]| :: s[1..][i].1 == k {
        var i :| 0 <= i < |s[1..]| && s[1..][i].1 == k;
        assert s[i + 1].1 == k;
      }
    }
  }

  /** No pair of `s` counts more than `b`. */
  predicate AtMost(s: seq<Match>, b: nat) {
    forall i | 0 <= i < |s| :: s[i].1 <= b
  }

  lemma AtMostCons(x: Match, t: seq<Match>, b: nat)
    requires x.1 <= b && AtMost(t, b)
    ensures AtMost([x] + t, b)
  {
    assert forall i | 1 <= i < |[x] + t| :: ([x] + t)[i] == t[i - 1];
  }

  /** Inserting keeps every count at most `b` when `m` and all of `s` are. */
  lemma {:induction false} InsertBounded(m: Match, s: seq<Match>, b: nat)
    requires m.1 <= b && AtMost(s, b)
    ensures AtMost(Insert(m, s), b)
  {
    if s == [] {
      assert Insert(m, s) == [m];
    } else if s[0].1 >= m.1 {
      assert AtMost(s[1..], b) by {
        assert forall i | 0 <= i < |s[1..]| :: s[1..][i] == s[i + 1];
      }
      InsertBounded(m, s[1..], b);
      AtMostCons(s[0], Insert(m, s[1..]), b);
    } else {
      AtMostCons(m, s, b);
    }
  }

  lemma DescendingCons(x: Match, t: seq<Match>)
    requires Descending(t) && AtMost(t, x.1)
    ensures Descending([x] + t)
  {
    assert forall i | 1 <= i < |[x] + t| :: ([x] + t)[i] == t[i - 1];
  }

  lemma DescendingTail(s: seq<Match>)
    requires s != [] && Descending(s)
    ensures Descending(s[1..])
  {
    assert forall i | 0 <= i < |s[1..]| :: s[1..][i] == s[i + 1];
  }

  /** The tail of a descending sequence counts at most its head. */
  lemma DescendingHead(s: seq<Match>)
    requires s != [] && Descending(s)
    ensures AtMost(s[1..], s[0].1)
  {
    assert forall i | 0 <= i < |s[1..]| :: s[1..][i] == s[i + 1];
  }

  lemma {:induction false} InsertDescending(m: Match, s: seq<Match>)
    requires Descending(s)
    ensures Descending(Insert(m, s))
  {
    if s != [] && s[0].1 >= m.1 {
      DescendingTail(s);
      InsertDescending(m, s[1..]);
      DescendingHead(s);
      InsertBounded(m, s[1..], s[0].1);
      DescendingCons(s[0], Insert(m, s[1..]));
    } else if s != [] {
      DescendingCons(m, s);
    }
  }

  /** Inserting into a descending sequence puts `m` last among the pairs of its count. */
  lemma {:induction false} InsertKeyed(m: Match, s: seq<Match>, k: nat)
    requires Descending(s)
    ensures Keyed(Insert(m, s), k) == Keyed(s, k) + (if m.1 == k then [m] else [])
  {
    if s == [] {
    } else if s[0].1 >= m.1 {
      DescendingTail(s);
      InsertKeyed(m, s[1..], k);
      InsertKeyedBehindHead(m, s, k);
    } else {
      InsertKeyedFirst(m, s, k);
    }
  }

  /** Behind the head, inserting into the tail decides where `m` lands. */
  lemma InsertKeyedBehindHead(m: Match, s: seq<Match>, k: nat)
    requires s != [] && s[0].1 >= m.1
    requires Keyed(Insert(m, s[1..]), k) == Keyed(s[1..], k) + (if m.1 == k then [m] else [])
    ensures Keyed(Insert(m, s), k) == Keyed(s, k) + (if m.1 == k then [m] else [])
  {
    var rest := Insert(m, s[1..]);
    var head := if s[0].1 == k then [s[0]] else [];
    var tail := if m.1 == k then [m] else [];
    assert Keyed(Insert(m, s), k) == head + Keyed(rest, k) by {
      assert Insert(m, s) == [s[0]] + rest;
      assert ([s[0]] + rest)[1..] == rest;
    }
    assert Keyed(s, k) == head + Keyed(s[1..], k);
    assert head + (Keyed(s[1..], k) + tail) == (head + Keyed(s[1..], k)) + tail;
  }

  /** A pair counting more than the head of a descending sequence goes first, before any pair of its count. */
  lemma InsertKeyedFirst(m: Match, s: seq<Match>, k: nat)
    requires s != [] && Descending(s) && s[0].1 < m.1
    ensures Keyed(Insert(m, s), k) == Keyed(s, k) + (if m.1 == k then [m] else [])
  {
    KeyedAppend([m], s, k);
    if m.1 == k {
      assert forall i | 0 <= i < |s| :: s[i].1 <= s[0].1;
      KeyedNonEmpty(s, k);
    }
  }

  /** The insertion sort is a stable sort by descending count and a permutation. */
  lemma {:induction false} SortByCountIsStable(s: seq<Match>)
    ensures StablyDescending(SortByCount(s), s)
    ensures multiset(SortByCount(s)) == multiset(s)
  {
    if s != [] {
      var init, last := s[..|s| - 1], s[|s| - 1];
      assert s == init + [last];
      SortByCountIsStable(init);
      InsertPermutes(last, SortByCount(init));
      InsertDescending(last, SortByCount(init));
      forall k: nat
        ensures Keyed(SortByCount(s), k) == Keyed(s, k)
      {
        InsertKeyed(last, SortByCount(init), k);
        KeyedAppend(init, [last], k);
      }
    }
  }

  /** The best score of the table, zero for an empty table. */
  function TopScore(table: ChordTable, detected: set<string>): (top: nat)
    ensures forall i | 0 <= i < |table| :: MatchCount(table[i].1, detected) <= top
    ensures table != [] ==> exists i | 0 <= i < |table| :: MatchCount(table[i].1, detected) == top
    ensures table == [] ==> top == 0
  {
    if table == [] then 0
    else
      var init := table[..|table| - 1];
      var count := MatchCount(table[|table| - 1].1, detected);
      var before := TopScore(init, detected);
      assert forall i | 0 <= i < |init| :: table[i] == init[i];
      if count > before then count else before
  }

  /** The names of the entries scoring exactly `k`, in table order. */
  function WithScore(table: ChordTable, detected: set<string>, k: nat): seq<string> {
    if table == [] then []
    else
      var last := table[|table| - 1];
      WithScore(table[..|table| - 1], detected, k) + (if MatchCount(last.1, detected) == k then [last.0] else [])
  }

  /** What the scripts report: every chord with the top score, none when that score is zero. */
  function BestChords(table: ChordTable, detected: set<string>): seq<string> {
    var top := TopScore(table, detected);
    if top == 0 then [] else WithScore(table, detected, top)
  }

  /** The indices of the entries scoring exactly `k`, increasing. */
  function Positions(table: ChordTable, detected: set<string>, k: nat): (r: seq<nat>)
    ensures forall p, q | 0 <= p < q < |r| :: r[p] < r[q]
    ensures forall p | 0 <= p < |r| :: r[p] < |table| && MatchCount(table[r[p]].1, detected) == k
    ensures forall i | 0 <= i < |table| && MatchCount(table[i].1, detected) == k :: i in r
  {
    if table == [] then []
    else
      var n := |table| - 1;
      var init := table[..n];
      assert forall i | 0 <= i < n :: table[i] == init[i];
      Positions(init, detected, k) + (if MatchCount(table[n].1, detected) == k then [n] else [])
  }

  /**
   * The chords scoring `k` are listed in table declaration order: the p-th
   * name is the name of the entry at the p-th position scoring `k`.
   */
  lemma {:induction false} WithScoreInTableOrder(table: ChordTable, detected: set<string>, k: nat)
    ensures |WithScore(table, detected, k)| == |Positions(table, detected, k)|
    ensures forall p | 0 <= p < |Positions(table, detected, k)| ::
      WithScore(table, detected, k)[p] == table[Positions(table, detected, k)[p]].0
  {
    if table != [] {
      var n := |table| - 1;
      var init := table[..n];
      WithScoreInTableOrder(init, detected, k);
      var w, r := WithScore(init, detected, k), Positions(init, detected, k);
      var hit := MatchCount(table[n].1, detected) == k;
      var names, positions := w + (if hit then [table[n].0] else []), r + (if hit then [n] else []);
      assert WithScore(table, detected, k) == names;
      assert Positions(table, detected, k) == positions;
      forall p | 0 <= p < |positions|
        ensures names[p] == table[positions[p]].0
      {
        if p < |r| {
          assert names[p] == w[p] && positions[p] == r[p];
          assert table[r[p]] == init[r[p]];
        }
      }
    }
  }

  /** The names among the positive scores with count `k` are the chords scoring `k`. */
  lemma {:induction false} ScoredKeyed(table: ChordTable, detected: set<string>, k: nat)
    requires k > 0
    ensures Names(Keyed(Scored(table, detected), k)) == WithScore(table, detected, k)
  {
    if table != [] {
      var init, last := table[..|table| - 1], table[|table| - 1];
      var count := MatchCount(last.1, detected);
      var tail: seq<Match> := if count > 0 then [(last.0, count)] else [];
      ScoredKeyed(init, detected, k);
      KeyedAppend(Scored(init, detected), tail, k);
      NamesAppend(Keyed(Scored(init, detected), k), Keyed(tail, k));
    }
  }

  lemma {:induction false} WithScoreNonEmpty(table: ChordTable, detected: set<string>, k: nat)
    ensures WithScore(table, detected, k) != [] <==>
      exists i | 0 <= i < |table| :: MatchCount(table[i].1, detected) == k
  {
    WithScoreInTableOrder(table, detected, k);
    var r := Positions(table, detected, k);
    if exists i | 0 <= i < |table| :: MatchCount(table[i].1, detected) == k {
      var i :| 0 <= i < |table| && MatchCount(table[i].1, detected) == k;
      assert i in r;
    }
    if r != [] {
      assert MatchCount(table[r[0]].1, detected) == k;
    }
  }

  /**
   * Taking the chords whose count equals the first count of any stable
   * descending sort of the positive scores gives exactly the best chords.
   */
  lemma TiesWithFirstAreBest(table: ChordTable, detected: set<string>, sorted: seq<Match>)
    requires StablyDescending(sorted, Scored(table, detected))
    ensures (if sorted == [] then [] else Names(Keyed(sorted, sorted[0].1))) == BestChords(table, detected)
  {
    var scores := Scored(table, detected);
    var top := TopScore(table, detected);
    if top > 0 {
      WithScoreNonEmpty(table, detected, top);
      ScoredKeyed(table, detected, top);
      assert Keyed(sorted, top) == Keyed(scores, top);
      KeyedNonEmpty(sorted, top);
    }
    if sorted != [] {
      var c := sorted[0].1;
      KeyedNonEmpty(sorted, c);
      assert Keyed(sorted, c) == Keyed(scores, c);
      KeyedNonEmpty(scores, c);
      ScoredKeyed(table, detected, c);
      WithScoreNonEmpty(table, detected, c);
      var q :| 0 <= q < |sorted| && sorted[q].1 == top;
      assert c >= top;
    }
  }

  /** The matching block of both scripts, from the detected pitch classes to the reported chords. */
  method MatchChords(table: ChordTable, detected: set<string>) returns (best: seq<string>)
    ensures best == BestChords(table, detected)
  {
    var matches: seq<Match> := [];
    var i := 0;
    while i < |table|
      invariant 0 <= i <= |table|
      invariant matches == Scored(table[..i], detected)
    {
      var count := CountMatches(table[i].1, detected);
      if count > 0 {
        matches := matches + [(table[i].0, count)];
      }
      assert table[..i + 1][..i] == table[..i];
      i := i + 1;
    }
    assert table[..i] == table;
    var sorted := SortByCount(matches);
    SortByCountIsStable(matches);
    if sorted != [] {
      best := Names(Keyed(sorted, sorted[0].1));
    } else {
      best := [];
    }
    TiesWithFirstAreBest(table, detected, sorted);
  }

  /** A chord is listed with score `k` exactly when some entry of that name scores `k`. */
  lemma WithScoreMembership(table: ChordTable, detected: set<string>, k: nat, name: string)
    ensures name in WithScore(table, detected, k) <==>
      exists i | 0 <= i < |table| :: table[i].0 == name && MatchCount(table[i].1, detected) == k
  {
    WithScoreInTableOrder(table, detected, k);
    var r := Positions(table, detected, k);
    var w := WithScore(table, detected, k);
    if name in w {
      var p :| 0 <= p < |w| && w[p] == name;
      assert table[r[p]].0 == name;
    }
    if exists i | 0 <= i < |table| :: table[i].0 == name && MatchCount(table[i].1, detected) == k {
      var i :| 0 <= i < |table| && table[i].0 == name && MatchCount(table[i].1, detected) == k;
      assert i in r;
      var p :| 0 <= p < |r| && r[p] == i;
      assert w[p] == name;
    }
  }

  /**
   * Every reported chord overlaps the detected set and has the maximum score
   * of the table, and every chord with that positive maximum is reported.
   */
  lemma BestChordsMembership(table: ChordTable, detected: set<string>, name: string)
    ensures name in BestChords(table, detected) <==>
      exists i | 0 <= i < |table| ::
        && table[i].0 == name
        && MatchCount(table[i].1, detected) > 0
        && forall j | 0 <= j < |table| :: MatchCount(table[j].1, detected) <= MatchCount(table[i].1, detected)
  {
    var top := TopScore(table, detected);
    WithScoreMembership(table, detected, top, name);
    if exists i | 0 <= i < |table| ::
        && table[i].0 == name
        && MatchCount(table[i].1, detected) > 0
        && forall j | 0 <= j < |table| :: MatchCount(table[j].1, detected) <= MatchCount(table[i].1, detected)
    {
      var i :| 0 <= i < |table| && table[i].0 == name && MatchCount(table[i].1, detected) > 0 &&
        forall j | 0 <= j < |table| :: MatchCount(table[j].1, detected) <= MatchCount(table[i].1, detected);
      var j :| 0 <= j < |table| && MatchCount(table[j].1, detected) == top;
      assert MatchCount(table[i].1, detected) == top;
    }
  }

  /** Nothing is reported exactly when no chord shares a pitch class with the detected set. */
  lemma BestChordsEmpty(table: ChordTable, detected: set<string>)
    ensures BestChords(table, detected) == [] <==>
      forall i | 0 <= i < |table| :: table[i].1 * detected == {}
  {
    var top := TopScore(table, detected);
    if top > 0 {
      WithScoreNonEmpty(table, detected, top);
      var i :| 0 <= i < |table| && MatchCount(table[i].1, detected) == top;
      assert table[i].1 * detected != {};
    }
  }

  /** With nothing detected, no chord is reported. */
  lemma NothingDetected(table: ChordTable)
    ensures BestChords(table, {}) == []
  {
    BestChordsEmpty(table, {});
  }

  /** The names of the chords containing every detected pitch class, in table order. */
  function Containing(table: ChordTable, detected: set<string>): seq<string> {
    if table == [] then []
    else (if detected <= table[0].1 then [table[0].0] else []) + Containing(table[1..], detected)
  }

  lemma {:induction false} ContainingAppend(a: ChordTable, b: ChordTable, detected: set<string>)
    ensures Containing(a + b, detected) == Containing(a, detected) + Containing(b, detected)
  {
    if a != [] {
      assert (a + b)[1..] == a[1..] + b;
      ContainingAppend(a[1..], b, detected);
    } else {
      assert a + b == b;
    }
  }

  /** A chord scores the size of the detected set exactly when it contains all of it. */
  lemma FullScore(fingerprint: set<string>, detected: set<string>)
    ensures MatchCount(fingerprint, detected) <= |detected|
    ensures MatchCount(fingerprint, detected) == |detected| <==> detected <= fingerprint
  {
    MatchCountBounds(fingerprint, detected);
    if !(detected <= fingerprint) {
      var m :| m in detected && m !in fingerprint;
      assert detected == (fingerprint * detected) + (detected - fingerprint);
      assert (fingerprint * detected) !! (detected - fingerprint);
      assert m in detected - fingerprint;
    } else {
      assert fingerprint * detected == detected;
    }
  }

  lemma {:induction false} WithFullScore(table: ChordTable, detected: set<string>)
    ensures WithScore(table, detected, |detected|) == Containing(table, detected)
  {
    if table != [] {
      var init, last := table[..|table| - 1], table[|table| - 1];
      FullScore(last.1, detected);
      WithFullScore(init, detected);
      assert table == init + [last];
      ContainingAppend(init, [last], detected);
    }
  }

  /**
   * When some chord holds every detected pitch class, the scripts report
   * exactly the chords that do, in table order.
   */
  lemma FullMatch(table: ChordTable, detected: set<string>, i: nat)
    requires i < |table| && detected != {} && detected <= table[i].1
    ensures BestChords(table, detected) == Containing(table, detected)
  {
    FullScore(table[i].1, detected);
    var top := TopScore(table, detected);
    var j :| 0 <= j < |table| && MatchCount(table[j].1, detected) == top;
    FullScore(table[j].1, detected);
    WithFullScore(table, detected);
  }
}
