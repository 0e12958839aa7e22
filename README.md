# ilovenotes in Dafny

A Dafny model of the chord-recognition core of ilovenotes. The model covers three parts:

- **The note and chord value model of `core.py`.**
  - Octaves are objects compared by identity.
  - Notes are parsed from text such as `"C♯4"`, rendered back with `to_notation`, or derived from a semitone offset to A4 (`Note.from_hz`).
  - `Note.__eq__` compares octave objects, not octave numbers.
  - Chords are built from the static 63-entry `chord_dictionary`, counted against a list of notes, and rendered in Russian.
- **The chord-matching rule shared by `live_record_analyzer.py` and `analyse.py`.**
  - Each table entry is scored by how many of its pitch classes were detected.
  - Zero scores are dropped and the rest go through Python's stable `sorted` by descending score.
  - Every chord tied with the first is reported.
- **The frequency selection both scripts run before matching.**
  - Keep the positive-frequency bins.
  - Of those, keep the bins whose magnitude is strictly above a tenth of the largest positive-bin magnitude.
  - Of those, keep the frequencies in the inclusive band [41, 660] Hz.

Files and modules:

| file | module | models |
|---|---|---|
| `wrappers.dfy` | `Wrappers` | `Option` and `Result` |
| `python_text.dfy` | `PythonText` | the Python built-ins the core relies on: `str.rstrip(chars)`, `str.strip()`, `int(text)` in base 10, `str(n)` |
| `chord_table.dfy` | `ChordTables` | the shape shared by the three chord tables: names with pitch-class sets, in declaration order |
| `core.dfy` | `Core` | core.py |
| `chord_matching.dfy` | `ChordMatching` | the matching block (live_record_analyzer.py:110-122, analyse.py:51-65) |
| `frequency_selection.dfy` | `FrequencySelection` | the selection block (live_record_analyzer.py:97-108, analyse.py:14-30) |
| `live_record_analyzer.dfy` | `LiveRecordAnalyzer` | the 63-entry table as that file stores it, and `analyze_audio` |
| `analyse.dfy` | `Analyse` | the 14-triad table and the script body |

Representation choices:

- **`Octave` is a class and `Note` is a datatype that holds an `Octave` reference.**
  - Datatype equality on `Note` is therefore exactly `Note.__eq__`: same name, same alteration, same octave object.
  - Each `from_notation` and `from_hz` call makes a `fresh` octave.
  - The one `Octave()` that Python evaluates as `Note.__init__`'s default argument is the object held by `NoteDefaults`.
- **Chord tables are ordered sequences of `(name, set of pitch classes)` pairs.**
  - Python dictionaries iterate in insertion order, and that order decides how tied chords are reported.
- **A Python exception is modelled as an error value.**
  - `Note.from_hz` on a frequency ≤ 0 returns `Failure` with the exception's message.
  - `int()` returns `None`, which `Octave.from_notation` turns into octave 4.
  - `np.max` over an empty array returns `None`.

What the code does in cases worth spelling out:

- **{C, E, G} on the live table.** On the 63-entry table of `live_record_analyzer.py`, six chords contain all three pitch classes, and all of them are reported: `["C", "C7", "Cmaj7", "C6", "C9", "Am7"]` (`LiveRecordAnalyzer.CMajorDetected`). On the 14-triad table of `analyse.py` the same input reports `["C"]` (`Analyse.CMajorDetected`).
- **Input with no positive-frequency bin.** `np.max` is then called on an empty array and raises. `SelectFrequencies` returns `None` for this case, and `AnalyzeAudio` and `Run` pass it on.
- **Which maximum sets the threshold.** The threshold is a tenth of the largest magnitude over all positive-frequency bins, taken before the band filter. A loud bin outside the band therefore raises the threshold for the bins inside it (`FrequencySelection.LoudOutOfBandBin`).
- **Sharps in the live table.** In the table of `live_record_analyzer.py`, every sharp is stored as the three characters `‚ôØ` (U+201A U+00F4 U+00D8): the UTF-8 bytes of `♯` read back as Mac Roman. The table is modelled as stored. Its sharps never equal the `♯`-spelled names that `librosa.hz_to_note` produces (`LiveRecordAnalyzer.SharpsNeverMatch`).
- **Sharps in the human-readable rendering.** `notation_dictionary` knows only the seven natural names, so a sharp note made by `Note.from_hz`, such as `C♯`, is rendered untranslated: `"C♯  4"` (`Core.SharpNameUntranslated`).

## Model

| member | source | states |
|---|---|---|
| PythonText.RStrip | core.py:120 | `rstrip` removes the longest suffix of stripped characters: the result is a prefix, everything removed is stripped, and the result's last character is not |
| PythonText.LStrip | core.py:116 | `strip` drops the longest prefix of stripped characters: the result is a suffix of the text, everything dropped is stripped, and its first character is not |
| PythonText.StripNothing | core.py:116 | a text that neither starts nor ends with whitespace is unchanged by `strip()` |
| PythonText.RStripDigitsAfter | core.py:120 | after a non-digit, `rstrip("0123456789")` removes exactly the trailing run of digits |
| PythonText.NatToString | core.py:86 | `str(n)` of a natural number is a non-empty string of digits, without a leading zero, that denotes `n` |
| PythonText.ParseIntOfIntToString | core.py:91 | `int(str(n)) == n` for every integer, negative ones included |
| PythonText.ParseIntOfDigits | core.py:91 | `int` of a non-empty run of ASCII digits is the number the digits denote |
| PythonText.ParseIntOfNegative | core.py:91 | `int` of a minus sign followed by digits is the negated value of the digits |
| PythonText.ParseIntRejectsTrailingUnderscore | core.py:90-93 | `int` raises on every text ending in an underscore: an underscore must sit between digits |
| PythonText.ParseIntRejectsLetter | core.py:90-93 | `int` raises on every text whose first non-blank character is neither a sign nor a digit, and on a blank text, so `from_notation` falls back to octave 4 |
| PythonText.ParseInt | core.py:91 | `int(text)` in base 10; its behaviour is stated by `ParseIntOfDigits`, `ParseIntOfNegative`, `ParseIntOfIntToString` and the two `ParseIntRejects` lemmas |
| PythonText.IntToString | core.py:86 | `str(n)`; `ParseIntOfIntToString` proves `int` inverts it, and `Core.IntToStringEnds` that it ends in a digit and starts with a digit or a minus sign |
| PythonText.StripLeadingSpace | core.py:116 | a leading space makes no difference to `strip()` |
| Core.Octave.constructor | core.py:82-83 | `Octave(number)` stores the number it is given |
| Core.OctaveNumberFromNotation | core.py:89-93 | the number `Octave.from_notation` stores; `OctaveNotationRoundTrip` proves it restores every `str(n)` and gives 4 for text that is no integer |
| Core.Octave.FromNotation | core.py:89-93 | `Octave.from_notation` stores `int(notation)`, or 4 when `int` raises; it never fails |
| Core.OctaveNotationRoundTrip | core.py:89-93 | `from_notation(str(n))` restores every integer `n`; text that is no integer gives octave 4 |
| Core.ToNotation | core.py:110-111 | `to_notation`; `NotationRoundTrip` proves `from_notation` inverts it for one-letter names and octaves ≥ 0, `NegativeOctaveRoundTrip` how it fails for negative octaves |
| Core.ParseNotation | core.py:119-129 | the parsed alteration is empty, `♯` or `b`, and name followed by alteration is a prefix of the text; `ParseNotationName` and `ParseNotationOctave` give the exact split |
| Core.ParseNotationName | core.py:120-127 | for a base without trailing digit followed by digits: when the base's second character is `♯` or `b` the name is its first character, the alteration that accidental and the rest of the base is dropped; otherwise the name is the whole base and the alteration empty; the octave is the digits' value, or 4 when there are none |
| Core.ParseNotationUnknownSecond | core.py:120-127 | a letter, a second character that is neither a digit nor an accidental, then a digit: both characters form the name, there is no alteration, and the digit is the octave (`"Cx4"` is `"Cx"` in octave 4) |
| Core.ParseNotationCutAfterAccidental | core.py:120-125 | a letter, an accidental, any non-digit, then a digit: the name is the letter, the alteration is the accidental, the third character is dropped and the digit is the octave (`"C♯x4"` is `C♯` in octave 4) |
| Core.NoteFromNotation | core.py:118-129 | `Note.from_notation` returns a note with a fresh octave object whose fields are those `ParseNotation` describes |
| Core.ParseNotationOctave | core.py:120-122 | the octave is the value of the trailing run of digits, or 4 when there is none |
| Core.ParseEmptyNotation | core.py:119-129 | an empty text parses without error to an empty name in octave 4 |
| Core.NotationRoundTrip | core.py:110-129 | `from_notation(to_notation(n))` restores name, alteration and octave number for a one-letter non-digit name, an alteration of `""`, `♯` or `b`, and an octave ≥ 0 |
| Core.NegativeOctaveRoundTrip | core.py:110-129 | with a negative octave the round trip fails: the octave comes back negated, and with no alteration the minus sign joins the name |
| Core.ParsePitchClass | core.py:119-129 | a pitch-class spelling such as `"C♯"` parses to its letter and accidental in octave 4 |
| Core.PitchFromSemitones | core.py:137-139 | for semitone offset `s` to A4, `note_index` lies in [0, 12) and `12 * (octave - 4) + note_index - 9 == s` |
| Core.PitchFromSemitonesUnique | core.py:137-138 | any index in [0, 12) and octave that place `s` that way are the ones computed |
| Core.PitchOctaveUp | core.py:137-138 | twelve semitones up keep the pitch class and raise the octave by one |
| Core.PitchExamples | core.py:136-139 | offset 0 gives `"A"` in octave 4; offset −9 gives `"C"` in octave 4 |
| Core.NoteFromHz | core.py:132-141 | `from_hz` raises `ValueError("Frequency must be greater than zero.")` exactly when the frequency is ≤ 0; otherwise it returns the note `note_names[note_index]`, without alteration, in a fresh octave object |
| Core.NoteEquals | core.py:143-149 | `Note.__eq__` holds exactly when name, alteration and octave object agree, and equal notes share the octave number |
| Core.SeparateParsesDiffer | core.py:119-149 | two parses of the same text both carry the fields `from_notation` reads from it, yet they are distinct notes and `__eq__` on them is false |
| Core.NoteDefaults.constructor | core.py:102 | the shared default octave object has number 4, which `Valid` records |
| Core.NoteDefaults.NewNote | core.py:102-105 | a note built without an octave argument holds the one shared default octave object, so its octave number is 4 |
| Core.DefaultOctaveNotesEqual | core.py:102-105 | notes built with the default octave are equal exactly when name and alteration agree |
| Core.DistinctOctavesNeverEqual | core.py:143-149 | notes holding different octave objects are never equal, whatever their octave numbers |
| Core.NoteToHumanReadable | core.py:113-116 | `Note.to_human_readable`; stated by `NoteHumanReadableUnstripped`, `SharpNameUntranslated` and `EmptyNameRendering` |
| Core.IntToStringEnds | core.py:116 | the octave's text ends in a digit and starts with a digit or a minus sign, so `strip()` never cuts into it |
| Core.NoteHumanReadableUnstripped | core.py:113-116 | for a name not starting with whitespace, `strip()` removes nothing: the solfège name for the seven naturals or the name itself otherwise, a space, the mapped alteration or the alteration itself, a space, the octave |
| Core.UntranslatedRendering | core.py:113-116 | a name that does not start with whitespace and is not in the solfège dictionary, with no alteration, renders as the name itself, two spaces and the octave |
| Core.SharpNameUntranslated | core.py:113-116 | a sharp name of `note_names` without alteration, as `from_hz` makes, is rendered untranslated: the name, two spaces, the octave |
| Core.EmptyNameRendering | core.py:113-116 | a note with empty name and alteration, as `from_notation("4")` makes, renders as its octave alone: `strip()` removes the two spaces |
| Core.ChordNotes | core.py:193 | `chord_dictionary.get(name, [])`; `DictionaryLookup` proves it returns a dictionary entry's pitch classes, `UnknownChordHasNoNotes` that an unknown name has none |
| Core.Lookup | core.py:193 | `get` finds nothing exactly when no entry has the name, and what it finds is an entry of the table |
| Core.Enumerate | core.py:194 | iterating a set visits every member exactly once: as many entries as members, and the same members |
| Core.ChordFromNotation | core.py:192-195 | `Chord.from_notation` keeps the name and builds one note per pitch class of the name's fingerprint (none for an unknown name), each parsed from its pitch class with its own fresh octave object |
| Core.NotesFromPitches | core.py:194 | the comprehension returns one note per text, holding what `Note.from_notation` stores for the text at the same position (`AllParsed`, turned into a per-index statement by `AllParsedAt`), each with its own fresh octave object, no two sharing one |
| Core.ContainsNotes | core.py:188-189 | `contains_notes` lies between 0 and the number of notes given |
| Core.ContainsNotesAppend | core.py:188-189 | the count adds up over concatenation, so a repeated note counts each time |
| Core.ContainsNotesOfMembers | core.py:188-189 | when every given note is one of the chord's, all are counted |
| Core.ContainsNotesForeignOctaves | core.py:188-189 | notes sharing no octave object with the chord's notes count zero, even when their fields agree |
| Core.SplitName | core.py:174-180 | tonic followed by suffix is the name, no tonic character starts a suffix, and the suffix is empty or starts with a digit or one of `maugdim` |
| Core.SplitNameUnique | core.py:174-180 | any split with those three properties is that split |
| Core.SplitChordName | core.py:171-180 | the for/break loop computes exactly that split |
| Core.ChordToHumanReadable | core.py:170-186 | the rendering is the tonic's and the suffix's lookups, each defaulting to itself, then the notes' renderings joined by `", "` |
| Core.CChordsWellFormed | core.py:5-13 | the C entries are C plus each quality in order; each contains C, has the quality's size and uses only the twelve note names |
| Core.DChordsWellFormed | core.py:14-22 | the same for the D entries |
| Core.EChordsWellFormed | core.py:23-31 | the same for the E entries |
| Core.FChordsWellFormed | core.py:32-40 | the same for the F entries |
| Core.GChordsWellFormed | core.py:41-49 | the same for the G entries |
| Core.AChordsWellFormed | core.py:50-58 | the same for the A entries |
| Core.BChordsWellFormed | core.py:59-67 | the same for the B entries |
| Core.CChordsInDictionary | core.py:5-13 | entries 0-8 of the dictionary are the well-formed C entries |
| Core.DChordsInDictionary | core.py:14-22 | entries 9-17 are the D entries |
| Core.EChordsInDictionary | core.py:23-31 | entries 18-26 are the E entries |
| Core.FChordsInDictionary | core.py:32-40 | entries 27-35 are the F entries |
| Core.GChordsInDictionary | core.py:41-49 | entries 36-44 are the G entries |
| Core.AChordsInDictionary | core.py:50-58 | entries 45-53 are the A entries |
| Core.BChordsInDictionary | core.py:59-67 | entries 54-62 are the B entries |
| Core.ChordDictionaryWellFormed | core.py:4-68 | 63 entries, 7 roots times 9 qualities. Each is named root + quality, contains its root, has 3 members (major, minor, dim, aug), 4 (7, m7, maj7, 6) or 5 (9), and uses only the twelve note names |
| Core.RootsAndQualitiesDistinct | core.py:4-68 | the seven roots start with different letters and the nine qualities differ |
| Core.ChordNamesDistinct | core.py:4-68 | the 63 chord names are pairwise distinct, as dictionary keys are |
| Core.LookupDistinct | core.py:193 | in a table with distinct names, looking up an entry's name finds that entry |
| Core.NoteNameLengths | core.py:100 | every note name has one or two characters |
| Core.NoteNamesParse | core.py:100 | each of the twelve note names parses to its letter and accidental in octave 4 |
| Core.DictionaryLookup | core.py:193 | `chord_dictionary.get` on a dictionary name returns that entry's pitch classes |
| Core.FingerprintsAreNoteNames | core.py:4-68 | every pitch class in the dictionary is one of the twelve note names |
| Core.DictionaryChordNotes | core.py:192-195 | `from_notation` of a dictionary name uses its entry's pitch classes, and every one of them parses to its letter and accidental in octave 4 |
| Core.UnknownChordHasNoNotes | core.py:193 | a name missing from the dictionary yields no notes |
| Core.DictionaryNamesSplit | core.py:174-180 | `to_human_readable` splits every dictionary name into its root and its quality |
| Core.SuffixRendering | core.py:153-161 | the suffixes `maj7` and `m7` are missing from the mapping and are rendered unchanged; `dim` is translated |
| ChordMatching.MatchCount | live_record_analyzer.py:112 | the score of one chord; `CountMatches` proves the generator sum computes it, `MatchCountBounds` and `FullScore` bound and characterise it |
| ChordMatching.MatchCountBounds | live_record_analyzer.py:112 | a score is at most the chord's size and the number detected, and zero exactly when nothing of the chord was detected |
| ChordMatching.CountMatches | live_record_analyzer.py:112 | the generator sum over the chord's set counts its detected pitch classes: the size of the intersection |
| ChordMatching.Scored | live_record_analyzer.py:110-114 | every pair kept in `chord_matches` has a positive score |
| ChordMatching.InsertPermutes | live_record_analyzer.py:116 | inserting adds exactly one pair: the multiset grows by it |
| ChordMatching.InsertDescending | live_record_analyzer.py:116 | inserting into a descending list keeps it descending |
| ChordMatching.InsertKeyed | live_record_analyzer.py:116 | an inserted pair lands after all earlier pairs with the same score |
| ChordMatching.SortByCount | live_record_analyzer.py:116 | the `sorted` call; `SortByCountIsStable` proves it is a stable descending permutation of its input |
| ChordMatching.SortByCountIsStable | live_record_analyzer.py:116 | `sorted(..., key=lambda x: -x[1])` is descending, keeps the input order within each score, and is a permutation |
| ChordMatching.TopScore | live_record_analyzer.py:118-122 | the best score bounds every entry's score and some entry attains it; an empty table's is 0 |
| ChordMatching.Positions | live_record_analyzer.py:111-119 | the indices of the entries with a given score, increasing, with every such index present |
| ChordMatching.WithScoreInTableOrder | live_record_analyzer.py:111-119 | the chords with a given score are listed in table declaration order: the p-th name is that of the p-th such entry |
| ChordMatching.ScoredKeyed | live_record_analyzer.py:110-119 | the names of the kept pairs with a positive score `k` are the table's chords scoring `k`, in order |
| ChordMatching.WithScoreNonEmpty | live_record_analyzer.py:119 | some chord is listed with score `k` exactly when some entry scores `k` |
| ChordMatching.TiesWithFirstAreBest | live_record_analyzer.py:116-122 | for any stable descending sort of the kept pairs, the chords tied with the first one are exactly the best chords, and an empty list gives none |
| ChordMatching.BestChords | live_record_analyzer.py:118-122 | what is reported; `BestChordsMembership`, `BestChordsEmpty` and `FullMatch` characterise it, `MatchChords` proves the script's loop computes it |
| ChordMatching.MatchChords | live_record_analyzer.py:110-122 | the scoring loop, the sort and the tie filter compute the best chords |
| ChordMatching.WithScoreMembership | live_record_analyzer.py:119 | a name is listed with score `k` exactly when an entry of that name scores `k` |
| ChordMatching.BestChordsMembership | live_record_analyzer.py:110-122 | a chord is reported exactly when it overlaps the detected set and has the table's maximum score |
| ChordMatching.BestChordsEmpty | live_record_analyzer.py:113-122 | nothing is reported exactly when no chord shares a pitch class with the detected set |
| ChordMatching.NothingDetected | live_record_analyzer.py:110-122 | with nothing detected, nothing is reported |
| ChordMatching.ContainingAppend | live_record_analyzer.py:111 | the chords containing the detected set, listed for a table split in two, are those of each part in turn |
| ChordMatching.FullScore | live_record_analyzer.py:112 | a chord scores the number of detected pitch classes exactly when it contains all of them |
| ChordMatching.WithFullScore | live_record_analyzer.py:112-119 | the chords scoring that full number are the chords containing the detected set |
| ChordMatching.FullMatch | live_record_analyzer.py:110-122 | for a non-empty detected set that some chord holds in full, exactly the chords that hold it are reported, in table order |
| FrequencySelection.PositiveBins | live_record_analyzer.py:97-98 | only bins of positive frequency are kept, and only bins of the input |
| FrequencySelection.MaxMagnitude | live_record_analyzer.py:100 | `np.max` bounds every magnitude and is one of them |
| FrequencySelection.PositiveBinsMembers | live_record_analyzer.py:97-98 | every positive-frequency bin is kept; none is kept exactly when no bin has a positive frequency |
| FrequencySelection.KeptInPasses | live_record_analyzer.py:97-105 | the three filters in a row equal one pass with all three conditions |
| FrequencySelection.KeptMembership | live_record_analyzer.py:97-105 | one pass keeps a frequency exactly when some bin has it with all three conditions met |
| FrequencySelection.PositiveMaxIsMaxMagnitude | live_record_analyzer.py:97-100 | `np.max` over the positive-frequency magnitudes is the largest magnitude among the bins of positive frequency |
| FrequencySelection.SelectFrequencies | live_record_analyzer.py:97-105 | the selection; `NoPositiveBin`, `SelectionIsOnePass` and `SelectionMembership` state what it keeps and when it fails |
| FrequencySelection.SelectionIsOnePass | live_record_analyzer.py:97-105 | with `m` the largest positive-bin magnitude, the selection is the one-pass filter at threshold `m * 0.1` |
| FrequencySelection.NoPositiveBin | live_record_analyzer.py:97-100 | the selection fails (`np.max` of an empty array) exactly when no bin has a positive frequency |
| FrequencySelection.SelectionMembership | live_record_analyzer.py:97-105 | a frequency is kept exactly when it is positive, its magnitude is strictly above a tenth of the positive maximum, and it lies in [41, 660] |
| FrequencySelection.SilenceKeepsNothing | live_record_analyzer.py:100-101 | with all magnitudes zero the threshold is zero and nothing is kept |
| FrequencySelection.KeptNothingAboveMax | live_record_analyzer.py:101 | no bin passes a threshold at or above every magnitude |
| FrequencySelection.BandEdges | live_record_analyzer.py:97-105 | 41 and 660 are kept and 40.9 and 660.1 are not; a magnitude equal to the threshold is dropped; a louder negative-frequency bin does not raise the threshold |
| FrequencySelection.LoudOutOfBandBin | live_record_analyzer.py:100-105 | the maximum is taken before the band filter: a bin of magnitude 20 at 700 Hz makes the threshold 2.0, and the in-band bin of magnitude 1 at 100 Hz is dropped |
| LiveRecordAnalyzer.AnalyzeAudio | live_record_analyzer.py:92-122 | `analyze_audio` fails exactly when no bin has a positive frequency, and otherwise reports the best chords of its table for the pitch names of the selected frequencies |
| LiveRecordAnalyzer.CChordsSpelling | live_record_analyzer.py:20-28 | the C entries carry core.py's names, and every member is a natural or a letter with the misread sharp |
| LiveRecordAnalyzer.DChordsSpelling | live_record_analyzer.py:30-38 | the same for the D entries |
| LiveRecordAnalyzer.EChordsSpelling | live_record_analyzer.py:40-48 | the same for the E entries |
| LiveRecordAnalyzer.FChordsSpelling | live_record_analyzer.py:50-58 | the same for the F entries |
| LiveRecordAnalyzer.GChordsSpelling | live_record_analyzer.py:60-68 | the same for the G entries |
| LiveRecordAnalyzer.AChordsSpelling | live_record_analyzer.py:70-78 | the same for the A entries |
| LiveRecordAnalyzer.BChordsSpelling | live_record_analyzer.py:80-88 | the same for the B entries |
| LiveRecordAnalyzer.SpellingAppend | live_record_analyzer.py:19-89 | both properties carry over to concatenated tables |
| LiveRecordAnalyzer.DictionarySpelling | live_record_analyzer.py:19-89 | 63 entries with core.py's chord names in core.py's order, every sharp spelled with the three misread characters |
| LiveRecordAnalyzer.SharpsNeverMatch | live_record_analyzer.py:107-112 | for detected names spelled as core.py's note names, only natural pitch classes of this table can match |
| LiveRecordAnalyzer.ContainingCMajor | live_record_analyzer.py:19-89 | the chords of this table containing C, E and G are C, C7, Cmaj7, C6, C9 and Am7, in that order |
| LiveRecordAnalyzer.CMajorDetected | live_record_analyzer.py:110-122 | detected {C, E, G} reports `["C", "C7", "Cmaj7", "C6", "C9", "Am7"]` |
| Analyse.Run | analyse.py:14-65 | the script fails exactly when no bin has a positive frequency, and otherwise reports the best chords of its triad table for the pitch names of the selected frequencies |
| Analyse.TriadsOfCore | analyse.py:33-48 | the table is, root by root, the first two entries of core.py's block for that root: its major and minor triad |
| Analyse.TriadSizes | analyse.py:33-53 | every chord has three pitch classes, so a score is at most three |
| Analyse.GMajorDetected | analyse.py:51-65 | detected {G, B, D} reports `["G"]` |
| Analyse.CMajorDetected | analyse.py:51-65 | detected {C, E, G} reports `["C"]` |

## Left out

- The FFT (`np.fft.fft`, `np.fft.fftfreq`, `np.abs`) and `librosa.load` are not modelled. The selection takes the (frequency, magnitude) bins as input.
- `librosa.hz_to_note` is a foreign library call. It is the function parameter `noteOf`, and `np.unique` of its results is the set of their values.
- `round(12 * math.log2(frequency / 440))` in `Note.from_hz` is floating point. It is the function parameter `semitonesFromA4`; the model starts from the integer offset.
- Frequencies and magnitudes are real numbers, not IEEE doubles. The factor 0.1 is the exact tenth, not the nearest double.
- The live capture is concurrency and I/O: the `sounddevice` stream, the `deque` filled from the callback thread, the polling loop with `time.sleep`, and the keyboard interrupt.
- Every `print` is left out. `Note.__str__` and `Chord.__str__` are used only for printing and are left out too; `Note.__str__` equals `to_notation`, which is modelled. `Octave.__str__` is different: it writes the octave inside `to_notation` and `to_human_readable`, and is modelled as `PythonText.IntToString`.
- old/, learn.py and the plotting scripts are glue around the same selection, or plotting and I/O.
- Core.ChordFromNotation: Python iterates the fingerprint set in hash order. The model proves the result for whichever enumeration of the set is used, which is returned as the ghost `spelled`, and does not fix one.
- `Note.__eq__` against an object that is not a `Note` (the `isinstance` test) is not modelled: only notes are compared.
- PythonText.IntToString: `str()` of an integer with more than 4300 digits raises `ValueError` in Python. The model writes every integer out.
- PythonText.ParseInt: `int()` also accepts non-ASCII Unicode decimal digits and refuses texts longer than 4300 digits. Neither is modelled; the model accepts ASCII digits, a sign, single underscores between digits and surrounding whitespace.
- Core.SplitName: only ASCII `0`-`9` are treated as digits, whereas `str.isdigit` also accepts other Unicode digits. Chord names in the dictionary are ASCII.
- ChordMatching.SortByCount: Python's `sorted` is Timsort. The model sorts by insertion and proves the result is a stable descending sort. `ChordMatching.TiesWithFirstAreBest` holds for every stable descending sort, so the reported chords do not depend on that choice.
