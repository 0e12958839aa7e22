/**
 * analyse.py: the script that names the chord of one recording. Its table
 * holds only the major and minor triad of each natural root; the FFT of the
 * file and the pitch naming are not part of this model.
 */
module Analyse {
  import opened Wrappers
  import opened ChordTables
  import opened ChordMatching
  import opened FrequencySelection
  import Core

  const CTriads: ChordTable := [
    ("C", {"C", "E", "G"}),
    ("Cm", {"C", "D\U{266F}", "G"})
  ]

  const DTriads: ChordTable := [
    ("D", {"D", "F\U{266F}", "A"}),
    ("Dm", {"D", "F", "A"})
  ]

  const ETriads: ChordTable := [
    ("E", {"E", "G\U{266F}", "B"}),
    ("Em", {"E", "G", "B"})
  ]

  const FTriads: ChordTable := [
    ("F", {"F", "A", "C"}),
    ("Fm", {"F", "G\U{266F}", "C"})
  ]

  const GTriads: ChordTable := [
    ("G", {"G", "B", "D"}),
    ("Gm", {"G", "A\U{266F}", "D"})
  ]

  const ATriads: ChordTable := [
    ("A", {"A", "C\U{266F}", "E"}),
    ("Am", {"A", "C", "E"})
  ]

  const BTriads: ChordTable := [
    ("B", {"B", "D\U{266F}", "F\U{266F}"}),
    ("Bm", {"B", "D", "F\U{266F}"})
  ]

  /** `chord_dictionary` of analyse.py, in declaration order. */
  const TriadDictionary: ChordTable := CTriads + DTriads + ETriads + FTriads + GTriads + ATriads + BTriads

  /**
   * The script from the FFT bins on: `None` where `np.max` raises because no
   * bin has a positive frequency, otherwise `best_chords`. The pitch naming of
   * `librosa.hz_to_note` is the parameter `noteOf`.
   */
  method Run(bins: seq<Bin>, noteOf: real -> string) returns (best: Option<seq<string>>)
    ensures best.None? <==> forall i | 0 <= i < |bins| :: bins[i].0 <= 0.0
    ensures SelectFrequencies(bins).Some? ==>
      best == Some(BestChords(TriadDictionary, DetectedNotes(SelectFrequencies(bins).value, noteOf)))
  {
    NoPositiveBin(bins);
    var filtered := SelectFrequencies(bins);
    if filtered.None? {
      return None;
    }
    var uniqueNotes := DetectedNotes(filtered.value, noteOf);
    var chords := MatchChords(TriadDictionary, uniqueNotes);
    best := Some(chords);
  }

  /**
   * The table is, root by root, the first two entries of core.py's
   * dictionary for that root: its major and its minor triad, with the same
   * pitch classes, in the same order.
   */
  lemma TriadsOfCore()
    ensures TriadDictionary ==
      Core.CChords[..2] + Core.DChords[..2] + Core.EChords[..2] + Core.FChords[..2]
      + Core.GChords[..2] + Core.AChords[..2] + Core.BChords[..2]
  {
    assert CTriads == Core.CChords[..2];
    assert DTriads == Core.DChords[..2];
    assert ETriads == Core.EChords[..2];
    assert FTriads == Core.FChords[..2];
    assert GTriads == Core.GChords[..2];
    assert ATriads == Core.AChords[..2];
    assert BTriads == Core.BChords[..2];
  }

  /** Every chord of `t` has three pitch classes. */
  predicate Triads(t: ChordTable) {
    forall i | 0 <= i < |t| :: |t[i].1| == 3
  }

  lemma LowerTriadBlocks()
    ensures Triads(CTriads) && Triads(DTriads) && Triads(ETriads)
  {
    assert |CTriads[0].1| == 3 && |CTriads[1].1| == 3;
    assert |DTriads[0].1| == 3 && |DTriads[1].1| == 3;
    assert |ETriads[0].1| == 3 && |ETriads[1].1| == 3;
  }

  lemma UpperTriadBlocks()
    ensures Triads(FTriads) && Triads(GTriads) && Triads(ATriads) && Triads(BTriads)
  {
    assert |FTriads[0].1| == 3 && |FTriads[1].1| == 3;
    assert |GTriads[0].1| == 3 && |GTriads[1].1| == 3;
    assert |ATriads[0].1| == 3 && |ATriads[1].1| == 3;
    assert |BTriads[0].1| == 3 && |BTriads[1].1| == 3;
  }

  lemma TriadsAppend(a: ChordTable, b: ChordTable)
    requires Triads(a) && Triads(b)
    ensures Triads(a + b)
  {
    assert forall i | |a| <= i < |a + b| :: (a + b)[i] == b[i - |a|];
  }

  /** Every chord of the table has three pitch classes, so a score is at most three. */
  lemma TriadSizes(i: nat, detected: set<string>)
    requires i < |TriadDictionary|
    ensures |TriadDictionary[i].1| == 3
    ensures MatchCount(TriadDictionary[i].1, detected) <= 3
  {
    LowerTriadBlocks();
    UpperTriadBlocks();
    TriadsAppend(CTriads, DTriads);
    TriadsAppend(CTriads + DTriads, ETriads);
    TriadsAppend(CTriads + DTriads + ETriads, FTriads);
    TriadsAppend(CTriads + DTriads + ETriads + FTriads, GTriads);
    TriadsAppend(CTriads + DTriads + ETriads + FTriads + GTriads, ATriads);
    TriadsAppend(CTriads + DTriads + ETriads + FTriads + GTriads + ATriads, BTriads);
    MatchCountBounds(TriadDictionary[i].1, detected);
  }

  lemma GMajorLowerBlocks()
    ensures Containing(CTriads, {"G", "B", "D"}) == []
    ensures Containing(DTriads, {"G", "B", "D"}) == []
    ensures Containing(ETriads, {"G", "B", "D"}) == []
  {
  }

  lemma GMajorUpperBlocks()
    ensures Containing(FTriads, {"G", "B", "D"}) == []
    ensures Containing(GTriads, {"G", "B", "D"}) == ["G"]
    ensures Containing(ATriads, {"G", "B", "D"}) == []
    ensures Containing(BTriads, {"G", "B", "D"}) == []
  {
  }

  /** Detected {G, B, D}: only G major holds all three; Em and Bm score two. */
  lemma GMajorDetected(detected: set<string>)
    requires detected == {"G", "B", "D"}
    ensures BestChords(TriadDictionary, detected) == ["G"]
  {
    assert TriadDictionary[8] == GTriads[0];
    FullMatch(TriadDictionary, detected, 8);
    GMajorLowerBlocks();
    GMajorUpperBlocks();
    var table := CTriads;
    ContainingAppend(table, DTriads, detected);
    table := table + DTriads;
    ContainingAppend(table, ETriads, detected);
    table := table + ETriads;
    ContainingAppend(table, FTriads, detected);
    table := table + FTriads;
    ContainingAppend(table, GTriads, detected);
    table := table + GTriads;
    ContainingAppend(table, ATriads, detected);
    table := table + ATriads;
    ContainingAppend(table, BTriads, detected);
    table := table + BTriads;
  }

  lemma CMajorLowerBlocks()
    ensures Containing(CTriads, {"C", "E", "G"}) == ["C"]
    ensures Containing(DTriads, {"C", "E", "G"}) == []
    ensures Containing(ETriads, {"C", "E", "G"}) == []
  {
  }

  lemma CMajorUpperBlocks()
    ensures Containing(FTriads, {"C", "E", "G"}) == []
    ensures Containing(GTriads, {"C", "E", "G"}) == []
    ensures Containing(ATriads, {"C", "E", "G"}) == []
    ensures Containing(BTriads, {"C", "E", "G"}) == []
  {
  }

  /** Detected {C, E, G}: only C major holds all three; Am and Em score two. */
  lemma CMajorDetected(detected: set<string>)
    requires detected == {"C", "E", "G"}
    ensures BestChords(TriadDictionary, detected) == ["C"]
  {
    assert TriadDictionary[0] == CTriads[0];
    FullMatch(TriadDictionary, detected, 0);
    CMajorLowerBlocks();
    CMajorUpperBlocks();
    var table := CTriads;
    ContainingAppend(table, DTriads, detected);
    table := table + DTriads;
    ContainingAppend(table, ETriads, detected);
    table := table + ETriads;
    ContainingAppend(table, FTriads, detected);
    table := table + FTriads;
    ContainingAppend(table, GTriads, detected);
    table := table + GTriads;
    ContainingAppend(table, ATriads, detected);
    table := table + ATriads;
    ContainingAppend(table, BTriads, detected);
    table := table + BTriads;
  }
}
