/**
 * live_record_analyzer.py: the 63-chord table as that file stores it and the
 * body of `analyze_audio`, from the FFT bins to the reported chords. The
 * capture loop around it is not part of this model.
 */
module LiveRecordAnalyzer {
  import opened Wrappers
  import opened ChordTables
  import opened ChordMatching
  import opened FrequencySelection
  import Core

  /**
   * The three characters every sharp of this file's table is written with:
   * the UTF-8 bytes of U+266F read back as Mac Roman. The table is copied as
   * stored, so these pitch classes never equal the names the pitch detector
   * produces.
   */
  const Mojibake: string := "\U{201A}\U{00F4}\U{00D8}"

  const CChords: ChordTable := [
    ("C", {"C", "E", "G"}),
    ("Cm", {"C", "D\U{201A}\U{00F4}\U{00D8}", "G"}),
    ("C7", {"C", "E", "G", "A\U{201A}\U{00F4}\U{00D8}"}),
    ("Cm7", {"C", "D\U{201A}\U{00F4}\U{00D8}", "G", "A\U{201A}\U{00F4}\U{00D8}"}),
    ("Cmaj7", {"C", "E", "G", "B"}),
    ("Cdim", {"C", "D\U{201A}\U{00F4}\U{00D8}", "F\U{201A}\U{00F4}\U{00D8}"}),
    ("Caug", {"C", "E", "G\U{201A}\U{00F4}\U{00D8}"}),
    ("C6", {"C", "E", "G", "A"}),
    ("C9", {"C", "E", "G", "A\U{201A}\U{00F4}\U{00D8}", "D"})
  ]

  const DChords: ChordTable := [
    ("D", {"D", "F\U{201A}\U{00F4}\U{00D8}", "A"}),
    ("Dm", {"D", "F", "A"}),
    ("D7", {"D", "F\U{201A}\U{00F4}\U{00D8}", "A", "C"}),
    ("Dm7", {"D", "F", "A", "C"}),
    ("Dmaj7", {"D", "F\U{201A}\U{00F4}\U{00D8}", "A", "C\U{201A}\U{00F4}\U{00D8}"}),
    ("Ddim", {"D", "F", "G\U{201A}\U{00F4}\U{00D8}"}),
    ("Daug", {"D", "F\U{201A}\U{00F4}\U{00D8}", "A\U{201A}\U{00F4}\U{00D8}"}),
    ("D6", {"D", "F\U{201A}\U{00F4}\U{00D8}", "A", "B"}),
    ("D9", {"D", "F\U{201A}\U{00F4}\U{00D8}", "A", "C", "E"})
  ]

  const EChords: ChordTable := [
    ("E", {"E", "G\U{201A}\U{00F4}\U{00D8}", "B"}),
    ("Em", {"E", "G", "B"}),
    ("E7", {"E", "G\U{201A}\U{00F4}\U{00D8}", "B", "D"}),
    ("Em7", {"E", "G", "B", "D"}),
    ("Emaj7", {"E", "G\U{201A}\U{00F4}\U{00D8}", "B", "D\U{201A}\U{00F4}\U{00D8}"}),
    ("Edim", {"E", "G", "A\U{201A}\U{00F4}\U{00D8}"}),
    ("Eaug", {"E", "G\U{201A}\U{00F4}\U{00D8}", "C"}),
    ("E6", {"E", "G\U{201A}\U{00F4}\U{00D8}", "B", "C\U{201A}\U{00F4}\U{00D8}"}),
    ("E9", {"E", "G\U{201A}\U{00F4}\U{00D8}", "B", "D", "F\U{201A}\U{00F4}\U{00D8}"})
  ]

  const FChords: ChordTable := [
    ("F", {"F", "A", "C"}),
    ("Fm", {"F", "G\U{201A}\U{00F4}\U{00D8}", "C"}),
    ("F7", {"F", "A", "C", "D\U{201A}\U{00F4}\U{00D8}"}),
    ("Fm7", {"F", "G\U{201A}\U{00F4}\U{00D8}", "C", "D\U{201A}\U{00F4}\U{00D8}"}),
    ("Fmaj7", {"F", "A", "C", "E"}),
    ("Fdim", {"F", "G\U{201A}\U{00F4}\U{00D8}", "B"}),
    ("Faug", {"F", "A", "C\U{201A}\U{00F4}\U{00D8}"}),
    ("F6", {"F", "A", "C", "D"}),
    ("F9", {"F", "A", "C", "D\U{201A}\U{00F4}\U{00D8}", "G"})
  ]

  const GChords: ChordTable := [
    ("G", {"G", "B", "D"}),
    ("Gm", {"G", "A\U{201A}\U{00F4}\U{00D8}", "D"}),
    ("G7", {"G", "B", "D", "F"}),
    ("Gm7", {"G", "A\U{201A}\U{00F4}\U{00D8}", "D", "F"}),
    ("Gmaj7", {"G", "B", "D", "F\U{201A}\U{00F4}\U{00D8}"}),
    ("Gdim", {"G", "A\U{201A}\U{00F4}\U{00D8}", "C\U{201A}\U{00F4}\U{00D8}"}),
    ("Gaug", {"G", "B", "D\U{201A}\U{00F4}\U{00D8}"}),
    ("G6", {"G", "B", "D", "E"}),
    ("G9", {"G", "B", "D", "F", "A"})
  ]

  const AChords: ChordTable := [
    ("A", {"A", "C\U{201A}\U{00F4}\U{00D8}", "E"}),
    ("Am", {"A", "C", "E"}),
    ("A7", {"A", "C\U{201A}\U{00F4}\U{00D8}", "E", "G"}),
    ("Am7", {"A", "C", "E", "G"}),
    ("Amaj7", {"A", "C\U{201A}\U{00F4}\U{00D8}", "E", "G\U{201A}\U{00F4}\U{00D8}"}),
    ("Adim", {"A", "C", "D\U{201A}\U{00F4}\U{00D8}"}),
    ("Aaug", {"A", "C\U{201A}\U{00F4}\U{00D8}", "F"}),
    ("A6", {"A", "C\U{201A}\U{00F4}\U{00D8}", "E", "F\U{201A}\U{00F4}\U{00D8}"}),
    ("A9", {"A", "C\U{201A}\U{00F4}\U{00D8}", "E", "G", "B"})
  ]

  const BChords: ChordTable := [
    ("B", {"B", "D\U{201A}\U{00F4}\U{00D8}", "F\U{201A}\U{00F4}\U{00D8}"}),
    ("Bm", {"B", "D", "F\U{201A}\U{00F4}\U{00D8}"}),
    ("B7", {"B", "D\U{201A}\U{00F4}\U{00D8}", "F\U{201A}\U{00F4}\U{00D8}", "A"}),
    ("Bm7", {"B", "D", "F\U{201A}\U{00F4}\U{00D8}", "A"}),
    ("Bmaj7", {"B", "D\U{201A}\U{00F4}\U{00D8}", "F\U{201A}\U{00F4}\U{00D8}", "A\U{201A}\U{00F4}\U{00D8}"}),
    ("Bdim", {"B", "D", "F"}),
    ("Baug", {"B", "D\U{201A}\U{00F4}\U{00D8}", "G"}),
    ("B6", {"B", "D\U{201A}\U{00F4}\U{00D8}", "F\U{201A}\U{00F4}\U{00D8}", "G\U{201A}\U{00F4}\U{00D8}"}),
    ("B9", {"B", "D\U{201A}\U{00F4}\U{00D8}", "F\U{201A}\U{00F4}\U{00D8}", "A", "C\U{201A}\U{00F4}\U{00D8}"})
  ]

  /** `chord_dictionary` of live_record_analyzer.py, in declaration order. */
  const ChordDictionary: ChordTable := CChords + DChords + EChords + FChords + GChords + AChords + BChords

  /**
   * `analyze_audio` without its prints: `None` where `np.max` raises because
   * no bin has a positive frequency, otherwise the chords it reports. The
   * pitch naming of `librosa.hz_to_note` is the parameter `noteOf`.
   */
  method AnalyzeAudio(bins: seq<Bin>, noteOf: real -> string) returns (best: Option<seq<string>>)
    ensures best.None? <==> forall i | 0 <= i < |bins| :: bins[i].0 <= 0.0
    ensures SelectFrequencies(bins).Some? ==>
      best == Some(BestChords(ChordDictionary, DetectedNotes(SelectFrequencies(bins).value, noteOf)))
  {
    NoPositiveBin(bins);
    var filtered := SelectFrequencies(bins);
    if filtered.None? {
      return None;
    }
    var uniqueNotes := DetectedNotes(filtered.value, noteOf);
    var chords := MatchChords(ChordDictionary, uniqueNotes);
    best := Some(chords);
  }

  lemma CChordsSpelling()
    ensures |CChords| == 9
    ensures forall j | 0 <= j < 9 :: CChords[j].0 == Core.CChords[j].0
    ensures forall j, m | 0 <= j < 9 && m in CChords[j].1 :: MisspelledPitch(m)
  {
    forall j | 0 <= j < 9
      ensures CChords[j].0 == Core.CChords[j].0
      ensures forall m | m in CChords[j].1 :: MisspelledPitch(m)
    {
      assert j == 0 || j == 1 || j == 2 || j == 3 || j == 4 || j == 5 || j == 6 || j == 7 || j == 8;
    }
  }

  lemma DChordsSpelling()
    ensures |DChords| == 9
    ensures forall j | 0 <= j < 9 :: DChords[j].0 == Core.DChords[j].0
    ensures forall j, m | 0 <= j < 9 && m in DChords[j].1 :: MisspelledPitch(m)
  {
    forall j | 0 <= j < 9
      ensures DChords[j].0 == Core.DChords[j].0
      ensures forall m | m in DChords[j].1 :: MisspelledPitch(m)
    {
      assert j == 0 || j == 1 || j == 2 || j == 3 || j == 4 || j == 5 || j == 6 || j == 7 || j == 8;
    }
  }

  lemma EChordsSpelling()
    ensures |EChords| == 9
    ensures forall j | 0 <= j < 9 :: EChords[j].0 == Core.EChords[j].0
    ensures forall j, m | 0 <= j < 9 && m in EChords[j].1 :: MisspelledPitch(m)
  {
    forall j | 0 <= j < 9
      ensures EChords[j].0 == Core.EChords[j].0
      ensures forall m | m in EChords[j].1 :: MisspelledPitch(m)
    {
      assert j == 0 || j == 1 || j == 2 || j == 3 || j == 4 || j == 5 || j == 6 || j == 7 || j == 8;
    }
  }

  lemma FChordsSpelling()
    ensures |FChords| == 9
    ensures forall j | 0 <= j < 9 :: FChords[j].0 == Core.FChords[j].0
    ensures forall j, m | 0 <= j < 9 && m in FChords[j].1 :: MisspelledPitch(m)
  {
    forall j | 0 <= j < 9
      ensures FChords[j].0 == Core.FChords[j].0
      ensures forall m | m in FChords[j].1 :: MisspelledPitch(m)
    {
      assert j == 0 || j == 1 || j == 2 || j == 3 || j == 4 || j == 5 || j == 6 || j == 7 || j == 8;
    }
  }

  lemma GChordsSpelling()
    ensures |GChords| == 9
    ensures forall j | 0 <= j < 9 :: GChords[j].0 == Core.GChords[j].0
    ensures forall j, m | 0 <= j < 9 && m in GChords[j].1 :: MisspelledPitch(m)
  {
    forall j | 0 <= j < 9
      ensures GChords[j].0 == Core.GChords[j].0
      ensures forall m | m in GChords[j].1 :: MisspelledPitch(m)
    {
      assert j == 0 || j == 1 || j == 2 || j == 3 || j == 4 || j == 5 || j == 6 || j == 7 || j == 8;
    }
  }

  lemma AChordsSpelling()
    ensures |AChords| == 9
    ensures forall j | 0 <= j < 9 :: AChords[j].0 == Core.AChords[j].0
    ensures forall j, m | 0 <= j < 9 && m in AChords[j].1 :: MisspelledPitch(m)
  {
    forall j | 0 <= j < 9
      ensures AChords[j].0 == Core.AChords[j].0
      ensures forall m | m in AChords[j].1 :: MisspelledPitch(m)
    {
      assert j == 0 || j == 1 || j == 2 || j == 3 || j == 4 || j == 5 || j == 6 || j == 7 || j == 8;
    }
  }

  lemma BChordsSpelling()
    ensures |BChords| == 9
    ensures forall j | 0 <= j < 9 :: BChords[j].0 == Core.BChords[j].0
    ensures forall j, m | 0 <= j < 9 && m in BChords[j].1 :: MisspelledPitch(m)
  {
    forall j | 0 <= j < 9
      ensures BChords[j].0 == Core.BChords[j].0
      ensures forall m | m in BChords[j].1 :: MisspelledPitch(m)
    {
      assert j == 0 || j == 1 || j == 2 || j == 3 || j == 4 || j == 5 || j == 6 || j == 7 || j == 8;
    }
  }

  /** `a` and `b` list the same chord names in the same order. */
  predicate SameNames(a: ChordTable, b: ChordTable) {
    |a| == |b| && forall i | 0 <= i < |a| :: a[i].0 == b[i].0
  }

  /** A natural letter, or a letter followed by the misread sharp. */
  predicate MisspelledPitch(m: string) {
    |m| == 1 || (|m| == 4 && m[1..] == Mojibake)
  }

  /** Every pitch class of `t` is a natural letter or a letter followed by the misread sharp. */
  predicate SharpsMisspelled(t: ChordTable) {
    forall i, m | 0 <= i < |t| && m in t[i].1 :: MisspelledPitch(m)
  }

  lemma {:induction false} SpellingAppend(a: ChordTable, b: ChordTable, coreA: ChordTable, coreB: ChordTable)
    requires SameNames(a, coreA) && SameNames(b, coreB)
    requires SharpsMisspelled(a) && SharpsMisspelled(b)
    ensures SameNames(a + b, coreA + coreB)
    ensures SharpsMisspelled(a + b)
  {
    forall i | 0 <= i < |a + b|
      ensures (a + b)[i].0 == (coreA + coreB)[i].0
      ensures forall m | m in (a + b)[i].1 :: MisspelledPitch(m)
    {
      if i < |a| {
        assert (a + b)[i] == a[i] && (coreA + coreB)[i] == coreA[i];
      } else {
        assert (a + b)[i] == b[i - |a|] && (coreA + coreB)[i] == coreB[i - |a|];
      }
    }
  }

  /**
   * The table lists the chords of core.py's dictionary, name for name and in
   * the same order, but every sharp in it is spelled with the three misread
   * characters.
   */
  lemma DictionarySpelling()
    ensures |ChordDictionary| == 63
    ensures SameNames(ChordDictionary, Core.ChordDictionary)
    ensures SharpsMisspelled(ChordDictionary)
  {
    CChordsSpelling();
    DChordsSpelling();
    EChordsSpelling();
    FChordsSpelling();
    GChordsSpelling();
    AChordsSpelling();
    BChordsSpelling();
    var live, core := CChords, Core.CChords;
    SpellingAppend(live, DChords, core, Core.DChords);
    live, core := live + DChords, core + Core.DChords;
    SpellingAppend(live, EChords, core, Core.EChords);
    live, core := live + EChords, core + Core.EChords;
    SpellingAppend(live, FChords, core, Core.FChords);
    live, core := live + FChords, core + Core.FChords;
    SpellingAppend(live, GChords, core, Core.GChords);
    live, core := live + GChords, core + Core.GChords;
    SpellingAppend(live, AChords, core, Core.AChords);
    live, core := live + AChords, core + Core.AChords;
    SpellingAppend(live, BChords, core, Core.BChords);
    live, core := live + BChords, core + Core.BChords;
  }

  /**
   * Whatever the detector reports, spelled with U+266F as librosa spells it,
   * only natural pitch classes of this table can match: its sharps never do.
   */
  lemma SharpsNeverMatch(i: nat, detected: set<string>)
    requires i < |ChordDictionary|
    requires forall n | n in detected :: n in Core.NoteNames
    ensures forall m | m in ChordDictionary[i].1 * detected :: |m| == 1
  {
    DictionarySpelling();
    Core.NoteNameLengths();
    forall m | m in ChordDictionary[i].1 * detected
      ensures |m| == 1
    {
      assert MisspelledPitch(m);
    }
  }

  lemma CChordsContainingCMajor()
    ensures Containing(CChords, {"C", "E", "G"}) == ["C", "C7", "Cmaj7", "C6", "C9"]
  {
  }

  lemma DChordsContainingCMajor()
    ensures Containing(DChords, {"C", "E", "G"}) == []
  {
  }

  lemma EChordsContainingCMajor()
    ensures Containing(EChords, {"C", "E", "G"}) == []
  {
  }

  lemma FChordsContainingCMajor()
    ensures Containing(FChords, {"C", "E", "G"}) == []
  {
  }

  lemma GChordsContainingCMajor()
    ensures Containing(GChords, {"C", "E", "G"}) == []
  {
  }

  lemma AChordsContainingCMajor()
    ensures Containing(AChords, {"C", "E", "G"}) == ["Am7"]
  {
  }

  lemma BChordsContainingCMajor()
    ensures Containing(BChords, {"C", "E", "G"}) == []
  {
    assert forall j | 0 <= j < 9 :: "C" !in BChords[j].1;
  }

  /** The chords of the table that contain C, E and G, in declaration order. */
  lemma ContainingCMajor(detected: set<string>)
    requires detected == {"C", "E", "G"}
    ensures Containing(ChordDictionary, detected) == ["C", "C7", "Cmaj7", "C6", "C9", "Am7"]
  {
    var c := ["C", "C7", "Cmaj7", "C6", "C9"];
    assert Containing(CChords + DChords, detected) == c by {
      CChordsContainingCMajor();
      DChordsContainingCMajor();
      ContainingAppend(CChords, DChords, detected);
    }
    var live := CChords + DChords;
    assert Containing(live + EChords, detected) == c by {
      EChordsContainingCMajor();
      ContainingAppend(live, EChords, detected);
    }
    live := live + EChords;
    assert Containing(live + FChords, detected) == c by {
      FChordsContainingCMajor();
      ContainingAppend(live, FChords, detected);
    }
    live := live + FChords;
    assert Containing(live + GChords, detected) == c by {
      GChordsContainingCMajor();
      ContainingAppend(live, GChords, detected);
    }
    live := live + GChords;
    assert Containing(live + AChords, detected) == c + ["Am7"] by {
      AChordsContainingCMajor();
      ContainingAppend(live, AChords, detected);
    }
    live := live + AChords;
    assert Containing(live + BChords, detected) == c + ["Am7"] by {
      BChordsContainingCMajor();
      ContainingAppend(live, BChords, detected);
    }
    assert live + BChords == ChordDictionary;
  }

  /**
   * Detected {C, E, G}: every chord containing the triad ties at three matches
   * and is reported in declaration order.
   */
  lemma CMajorDetected(detected: set<string>)
    requires detected == {"C", "E", "G"}
    ensures BestChords(ChordDictionary, detected) == ["C", "C7", "Cmaj7", "C6", "C9", "Am7"]
  {
    assert ChordDictionary[0] == CChords[0];
    FullMatch(ChordDictionary, detected, 0);
    ContainingCMajor(detected);
  }
}
