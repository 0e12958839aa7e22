/**
 * The note and chord value model of core.py: pitch-class names, octaves, notes
 * parsed from text, rendered to text or derived from a semitone offset, and
 * chords looked up in the static fingerprint dictionary.
 */
module Core {
  import opened Wrappers
  import opened PythonText
  import opened ChordTables

  const Sharp: char := '\U{266F}'

  /** `Note.note_names`: the twelve pitch classes of equal temperament, upwards from C. */
  const NoteNames: seq<string> :=
    ["C", "C\U{266F}", "D", "D\U{266F}", "E", "F", "F\U{266F}", "G", "G\U{266F}", "A", "A\U{266F}", "B"]

  const DefaultOctaveNumber: int := 4

  /** The message of the `ValueError` that `Note.from_hz` raises. */
  const NonPositiveFrequency: string := "Frequency must be greater than zero."

  // ---------------------------------------------------------------------------
  // Octave

  /** An octave. Python gives it no `__eq__`, so two octaves are equal only when they are the same object. */
  class Octave {
    const number: int

    /** `Octave(number)`; `Octave()` is `Octave(DefaultOctaveNumber)`. */
    constructor (number: int)
      ensures this.number == number
    {
      this.number := number;
    }

    /** `Octave.from_notation`: never raises. */
    constructor FromNotation(notation: string)
      ensures number == OctaveNumberFromNotation(notation)
    {
      number := OctaveNumberFromNotation(notation);
    }
  }

  /** The number `Octave.from_notation` stores: `int(notation)`, or the default when that raises. */
  function OctaveNumberFromNotation(notation: string): int {
    match ParseInt(notation)
    case Some(v) => v
    case None => DefaultOctaveNumber
  }

  /** `Octave.from_notation(str(o))` restores the number, and text that is no integer gives octave 4. */
  lemma OctaveNotationRoundTrip(n: int, notInteger: string)
    requires ParseInt(notInteger).None?
    ensures OctaveNumberFromNotation(IntToString(n)) == n
    ensures OctaveNumberFromNotation(notInteger) == DefaultOctaveNumber
  {
    ParseIntOfIntToString(n);
  }

  // ---------------------------------------------------------------------------
  // Note

  /**
   * A note. Its fields are set once, so it is a value; but its octave is an
   * object, and `Note.__eq__` compares octaves by identity, which datatype
   * equality on an object reference does too.
   */
  datatype Note = Note(name: string, octave: Octave, alteration: string)

  /** The observable contents of a note, with the octave object replaced by its number. */
  datatype NoteFields = NoteFields(name: string, alteration: string, octave: int)

  function Fields(n: Note): NoteFields {
    NoteFields(n.name, n.alteration, n.octave.number)
  }

  predicate IsAccidental(c: char) {
    c == Sharp || c == 'b'
  }

  predicate IsAlteration(a: string) {
    a == [] || (|a| == 1 && IsAccidental(a[0]))
  }

  /** `Note.to_notation`: name, alteration, then `str(octave)`. */
  function ToNotation(n: Note): string {
    n.name + n.alteration + IntToString(n.octave.number)
  }

  /**
   * What `Note.from_notation` stores: the trailing ASCII digits are the octave;
   * of the rest, a second character that is an accidental splits off as the
   * alteration and anything after it is dropped.
   */
  function ParseNotation(note: string): (r: NoteFields)
    ensures IsAlteration(r.alteration)
    ensures r.name + r.alteration <= note
  {
    var base := RStrip(note, IsDigit);
    var octavePart := note[|base|..];
    var octave := if octavePart != [] then OctaveNumberFromNotation(octavePart) else DefaultOctaveNumber;
    if |base| > 1 && IsAccidental(base[1]) then
      assert base[..1] + base[1..2] == base[..2] <= base <= note;
      NoteFields(base[..1], base[1..2], octave)
    else
      NoteFields(base, "", octave)
  }

  /** `Note.from_notation`: every call makes a new octave object. */
  method NoteFromNotation(note: string) returns (n: Note)
    ensures fresh(n.octave)
    ensures Fields(n) == ParseNotation(note)
  {
    var base := RStrip(note, IsDigit);
    var octavePart := note[|base|..];
    var octave: Octave;
    if octavePart != [] {
      octave := new Octave.FromNotation(octavePart);
    } else {
      octave := new Octave(DefaultOctaveNumber);
    }
    if |base| > 1 && IsAccidental(base[1]) {
      n := Note(base[..1], octave, base[1..2]);
    } else {
      n := Note(base, octave, "");
    }
  }

  /**
   * The octave `from_notation` finds: the value of the trailing run of digits,
   * or the default when the text has none.
   */
  lemma ParseNotationOctave(prefix: string, digits: string)
    requires prefix == [] || !IsDigit(prefix[|prefix| - 1])
    requires AllDigits(digits)
    ensures ParseNotation(prefix + digits).octave == if digits == [] then DefaultOctaveNumber else DigitsValue(digits)
  {
    var note := prefix + digits;
    if prefix == [] {
      assert note == digits;
      assert RStrip(note, IsDigit) == [];
    } else {
      RStripDigitsAfter(prefix, digits);
    }
    assert note[|RStrip(note, IsDigit)|..] == digits;
    if digits != [] {
      ParseIntOfDigits(digits);
    }
  }

  /**
   * What `from_notation` stores for a base without a trailing digit followed
   * by a run of digits: when the second character of the base is `♯` or `b`,
   * the name is the first character, the alteration is that accidental and
   * the rest of the base is dropped; otherwise the whole base is the name and
   * there is no alteration. The octave is the value of the digits, or 4.
   */
  lemma ParseNotationName(base: string, digits: string)
    requires base == [] || !IsDigit(base[|base| - 1])
    requires AllDigits(digits)
    ensures ParseNotation(base + digits) ==
      var octave := if digits == [] then DefaultOctaveNumber else DigitsValue(digits);
      if |base| > 1 && IsAccidental(base[1]) then NoteFields(base[..1], base[1..2], octave)
      else NoteFields(base, "", octave)
  {
    ParseNotationOctave(base, digits);
    if base == [] {
      assert base + digits == digits;
      assert RStrip(digits, IsDigit) == [];
    } else {
      RStripDigitsAfter(base, digits);
    }
  }

  /** A second character that is no accidental stays in the name: "Cx4" is note "Cx" in octave 4. */
  lemma ParseNotationUnknownSecond(letter: char, second: char, digit: char)
    requires !IsDigit(second) && !IsAccidental(second) && IsDigit(digit)
    ensures ParseNotation([letter, second, digit]) == NoteFields([letter, second], "", DigitValue(digit))
  {
    var base, digits := [letter, second], [digit];
    assert base + digits == [letter, second, digit];
    assert DigitsValue(digits) == DigitValue(digit) by {
      assert digits[..0] == [];
    }
    ParseNotationName(base, digits);
  }

  /** A second character that is an accidental cuts the rest of the base off: "C♯x4" is C♯ in octave 4. */
  lemma ParseNotationCutAfterAccidental(letter: char, accidental: char, rest: char, digit: char)
    requires IsAccidental(accidental) && !IsDigit(rest) && IsDigit(digit)
    ensures ParseNotation([letter, accidental, rest, digit]) == NoteFields([letter], [accidental], DigitValue(digit))
  {
    var base, digits := [letter, accidental, rest], [digit];
    assert base + digits == [letter, accidental, rest, digit];
    assert base[..1] == [letter] && base[1..2] == [accidental];
    assert DigitsValue(digits) == DigitValue(digit) by {
      assert digits[..0] == [];
    }
    ParseNotationName(base, digits);
  }

  /** Parsing an empty text is not an error: it yields an empty name at octave 4. */
  lemma ParseEmptyNotation()
    ensures ParseNotation("") == NoteFields("", "", DefaultOctaveNumber)
  {
  }

  /**
   * `from_notation(to_notation(n))` restores name, alteration and octave number
   * of a note with a one-letter name, a valid alteration and an octave >= 0.
   */
  lemma NotationRoundTrip(n: Note)
    requires |n.name| == 1 && !IsDigit(n.name[0])
    requires IsAlteration(n.alteration)
    requires n.octave.number >= 0
    ensures ParseNotation(ToNotation(n)) == Fields(n)
  {
    var prefix := n.name + n.alteration;
    var digits := NatToString(n.octave.number);
    assert ToNotation(n) == prefix + digits;
    assert !IsDigit(prefix[|prefix| - 1]);
    RStripDigitsAfter(prefix, digits);
    ParseNotationOctave(prefix, digits);
    assert (prefix + digits)[..|prefix|] == prefix;
    if n.alteration != [] {
      assert prefix[..1] == n.name && prefix[1..2] == n.alteration;
    }
  }

  /**
   * A negative octave does not survive the round trip: the minus sign is not a
   * digit, so it stays in the base; the octave comes back negated and, without
   * an alteration, the sign is appended to the name.
   */
  lemma NegativeOctaveRoundTrip(n: Note)
    requires |n.name| == 1 && !IsDigit(n.name[0])
    requires IsAlteration(n.alteration)
    requires n.octave.number < 0
    ensures ParseNotation(ToNotation(n)).octave == -n.octave.number != n.octave.number
    ensures n.alteration == "" ==> ParseNotation(ToNotation(n)).name == n.name + "-"
    ensures ParseNotation(ToNotation(n)).alteration == n.alteration
  {
    var prefix := n.name + n.alteration + "-";
    var digits := NatToString(-n.octave.number);
    assert ToNotation(n) == prefix + digits;
    RStripDigitsAfter(prefix, digits);
    ParseNotationOctave(prefix, digits);
    assert (prefix + digits)[..|prefix|] == prefix;
    if n.alteration != [] {
      assert prefix[..1] == n.name && prefix[1..2] == n.alteration;
    }
  }

  /** A digit-free pitch-class spelling of at most two characters parses to itself at octave 4. */
  lemma ParsePitchClass(m: string)
    requires 1 <= |m| <= 2 && !IsDigit(m[|m| - 1])
    requires IsAlteration(m[1..])
    ensures ParseNotation(m) == NoteFields(m[..1], m[1..], DefaultOctaveNumber)
  {
    ParseNotationOctave(m, []);
    assert m + [] == m;
  }

  /** `note_index` and `octave` of `Note.from_hz`, from the rounded semitone offset to A4. */
  function PitchFromSemitones(semitones: int): (p: (nat, int))
    ensures p.0 < 12
    ensures 12 * (p.1 - 4) + p.0 - 9 == semitones
  {
    ((semitones + 9) % 12, 4 + (semitones + 9) / 12)
  }

  /** The pitch class and octave are the only ones that place the offset. */
  lemma PitchFromSemitonesUnique(semitones: int, index: int, octave: int)
    requires 0 <= index < 12
    requires 12 * (octave - 4) + index - 9 == semitones
    ensures PitchFromSemitones(semitones) == (index, octave)
  {
    var p := PitchFromSemitones(semitones);
    assert 12 * (p.1 - octave) == index - p.0;
  }

  /** Twelve semitones up keep the pitch class and raise the octave by one. */
  lemma PitchOctaveUp(semitones: int)
    ensures PitchFromSemitones(semitones + 12).0 == PitchFromSemitones(semitones).0
    ensures PitchFromSemitones(semitones + 12).1 == PitchFromSemitones(semitones).1 + 1
  {
    var p := PitchFromSemitones(semitones);
    PitchFromSemitonesUnique(semitones + 12, p.0, p.1 + 1);
  }

  /** A4 itself is "A" in octave 4; nine semitones below it is "C" in octave 4. */
  lemma PitchExamples()
    ensures var p := PitchFromSemitones(0); NoteNames[p.0] == "A" && p.1 == 4
    ensures var p := PitchFromSemitones(-9); NoteNames[p.0] == "C" && p.1 == 4
  {
  }

  /**
   * `Note.from_hz`. `semitonesFromA4` stands for `round(12 * log2(f / 440))`,
   * which is left unmodelled.
   */
  method NoteFromHz(frequency: real, semitonesFromA4: real -> int) returns (r: Result<Note, string>)
    ensures r.Failure? <==> frequency <= 0.0
    ensures r.Failure? ==> r.error == NonPositiveFrequency
    ensures r.Success? ==>
      var p := PitchFromSemitones(semitonesFromA4(frequency));
      fresh(r.value.octave) && Fields(r.value) == NoteFields(NoteNames[p.0], "", p.1)
  {
    if frequency <= 0.0 {
      return Failure(NonPositiveFrequency);
    }
    var semitones := semitonesFromA4(frequency);
    var noteIndex := (semitones + 9) % 12;
    var octave := 4 + (semitones + 9) / 12;
    var noteName := NoteNames[noteIndex];
    var o := new Octave(octave);
    r := Success(Note(noteName, o, ""));
  }

  /** `Note.__eq__`: name, octave object and alteration all agree. */
  function NoteEquals(a: Note, b: Note): (r: bool)
    ensures r <==> a == b
    ensures r ==> a.octave.number == b.octave.number
  {
    a.name == b.name && a.octave == b.octave && a.alteration == b.alteration
  }

  /**
   * Two parses of the same text agree in every field, yet are never equal notes:
   * each holds an octave object of its own.
   */
  method SeparateParsesDiffer(note: string) returns (first: Note, second: Note, equal: bool)
    ensures Fields(first) == ParseNotation(note) && Fields(second) == ParseNotation(note)
    ensures equal == NoteEquals(first, second)
    ensures first != second && !equal
  {
    first := NoteFromNotation(note);
    second := NoteFromNotation(note);
    equal := NoteEquals(first, second);
  }

  /** The one `Octave()` object evaluated as `Note.__init__`'s default argument when core.py is loaded. */
  class NoteDefaults {
    const octave: Octave

    /** The shared default octave is octave 4. */
    ghost predicate Valid() {
      octave.number == DefaultOctaveNumber
    }

    constructor ()
      ensures Valid()
    {
      octave := new Octave(DefaultOctaveNumber);
    }

    /**
     * `Note(name, alteration=alteration)`, with the octave argument omitted:
     * every such note holds the one shared octave object, which is octave 4.
     */
    function NewNote(name: string, alteration: string): (n: Note)
      requires Valid()
      ensures n.octave == octave
      ensures Fields(n) == NoteFields(name, alteration, DefaultOctaveNumber)
    {
      Note(name, octave, alteration)
    }
  }

  /** Notes built with the shared default octave are equal exactly when name and alteration agree. */
  lemma DefaultOctaveNotesEqual(d: NoteDefaults, name1: string, alteration1: string, name2: string, alteration2: string)
    requires d.Valid()
    ensures NoteEquals(d.NewNote(name1, alteration1), d.NewNote(name2, alteration2))
        <==> name1 == name2 && alteration1 == alteration2
  {
  }

  /** Notes whose octaves are different objects are never equal, whatever their numbers. */
  lemma DistinctOctavesNeverEqual(a: Note, b: Note)
    requires a.octave != b.octave
    ensures !NoteEquals(a, b)
  {
  }

  // ---------------------------------------------------------------------------
  // Human-readable rendering

  /** `notation_dictionary`: the seven natural note names in solfège. */
  const NotationDictionary: map<string, string> :=
    map["C" := "До", "D" := "Ре", "E" := "Ми", "F" := "Фа", "G" := "Соль", "A" := "Ля", "B" := "Си"]

  /** `Note.alteration_mapping`. */
  const AlterationMapping: map<string, string> :=
    map["\U{266F}" := "диез", "b" := "бемоль", "" := ""]

  /** `Chord.suffix_mapping`. */
  const SuffixMapping: map<string, string> :=
    map["m" := "минор", "" := "мажор", "dim" := "уменьшённый", "aug" := "увеличенный",
        "7" := "септаккорд", "6" := "секстаккорд", "9" := "нон-аккорд"]

  /** `mapping.get(key, key)`: a key the mapping lacks is rendered as itself. */
  function GetOrKey(mapping: map<string, string>, key: string): string {
    if key in mapping then mapping[key] else key
  }

  /** `Note.to_human_readable`. */
  function NoteToHumanReadable(n: Note): string {
    var humanAlteration := GetOrKey(AlterationMapping, n.alteration);
    var humanName := GetOrKey(NotationDictionary, n.name);
    Strip(humanName + " " + humanAlteration + " " + IntToString(n.octave.number), IsSpace)
  }

  /** `str(octave)` ends in a digit and starts with a digit or a minus sign. */
  lemma IntToStringEnds(n: int)
    ensures var s := IntToString(n); s != [] && IsDigit(s[|s| - 1]) && (IsDigit(s[0]) || s[0] == '-')
  {
    var digits := NatToString(if n < 0 then -n else n);
    assert IntToString(n)[|IntToString(n)| - 1] == digits[|digits| - 1];
  }

  /**
   * When the name does not start with whitespace `strip()` removes nothing:
   * the text is the looked-up name (solfège for the seven natural names, the
   * name itself otherwise), a space, the looked-up alteration, a space and the
   * octave, so a note without alteration keeps two spaces in the middle.
   */
  lemma NoteHumanReadableUnstripped(n: Note)
    requires n.name != [] && !IsSpace(n.name[0])
    ensures NoteToHumanReadable(n) ==
      (if n.name in NotationDictionary then NotationDictionary[n.name] else n.name) + " "
      + (if n.alteration in AlterationMapping then AlterationMapping[n.alteration] else n.alteration) + " "
      + IntToString(n.octave.number)
  {
    var human := GetOrKey(NotationDictionary, n.name);
    var number := IntToString(n.octave.number);
    var text := human + " " + GetOrKey(AlterationMapping, n.alteration) + " " + number;
    assert human != [] && !IsSpace(human[0]) by {
      if n.name in NotationDictionary {
        assert n.name in {"C", "D", "E", "F", "G", "A", "B"};
      }
    }
    assert !IsSpace(text[|text| - 1]) by {
      IntToStringEnds(n.octave.number);
      assert text[|text| - 1] == number[|number| - 1];
      DigitOrSignNotSpace(number[|number| - 1]);
    }
    assert text[0] == human[0];
    StripNothing(text, IsSpace);
  }

  /**
   * A sharp that `Note.from_hz` names, such as "C♯", is not in the solfège
   * dictionary and is rendered as itself, followed by two spaces and the octave.
   */
  lemma SharpNameUntranslated(n: Note)
    requires n.name in NoteNames && |n.name| == 2 && n.alteration == ""
    ensures NoteToHumanReadable(n) == n.name + "  " + IntToString(n.octave.number)
  {
    assert n.name[0] in "ABCDEFG";
    assert n.name !in NotationDictionary;
    UntranslatedRendering(n);
  }

  /** A name outside the solfège dictionary and no alteration: the name, two spaces, the octave. */
  lemma UntranslatedRendering(n: Note)
    requires n.name != [] && !IsSpace(n.name[0]) && n.name !in NotationDictionary
    requires n.alteration == ""
    ensures NoteToHumanReadable(n) == n.name + "  " + IntToString(n.octave.number)
  {
    var number := IntToString(n.octave.number);
    assert NoteToHumanReadable(n) == n.name + " " + "" + " " + number by {
      assert AlterationMapping[""] == "";
      NoteHumanReadableUnstripped(n);
    }
    EmptyMiddle(n.name, number);
  }

  /** An empty text between the two separating spaces leaves the spaces side by side. */
  lemma EmptyMiddle(name: string, number: string)
    ensures name + " " + "" + " " + number == name + "  " + number
  {
  }

  /** A note with neither name nor alteration, as `from_notation("4")` makes, renders as its octave alone. */
  lemma EmptyNameRendering(n: Note)
    requires n.name == "" && n.alteration == ""
    ensures NoteToHumanReadable(n) == IntToString(n.octave.number)
  {
    EmptyFieldsText(n);
    StripBeforeOctave(n.octave.number);
  }

  /** Both lookups of an empty name and alteration give empty texts, so two spaces precede the octave. */
  lemma EmptyFieldsText(n: Note)
    requires n.name == "" && n.alteration == ""
    ensures NoteToHumanReadable(n) == Strip(" " + (" " + IntToString(n.octave.number)), IsSpace)
  {
    assert "" !in NotationDictionary;
    assert AlterationMapping[""] == "";
    assert "" + " " + "" + " " + IntToString(n.octave.number) == " " + (" " + IntToString(n.octave.number));
  }

  /** `strip()` drops the spaces in front of an octave's text and nothing of the text itself. */
  lemma StripBeforeOctave(k: int)
    ensures Strip(" " + (" " + IntToString(k)), IsSpace) == IntToString(k)
  {
    var number := IntToString(k);
    StripLeadingSpace(" " + number, IsSpace);
    StripLeadingSpace(number, IsSpace);
    IntToStringEnds(k);
    DigitOrSignNotSpace(number[0]);
    DigitOrSignNotSpace(number[|number| - 1]);
    StripNothing(number, IsSpace);
  }

  /** `", ".join(parts)`. */
  function JoinWithComma(parts: seq<string>): string {
    if parts == [] then ""
    else if |parts| == 1 then parts[0]
    else parts[0] + ", " + JoinWithComma(parts[1..])
  }

  // ---------------------------------------------------------------------------
  // Chord

  /** A chord: a name and the notes built for it. */
  datatype Chord = Chord(name: string, notes: seq<Note>)

  /** `table.get(name)`: the fingerprint stored under `name`, if any. */
  function Lookup(table: ChordTable, name: string): (r: Option<set<string>>)
    ensures r.None? <==> forall i | 0 <= i < |table| :: table[i].0 != name
    ensures r.Some? ==> (name, r.value) in table
  {
    if table == [] then None
    else if table[0].0 == name then Some(table[0].1)
    else Lookup(table[1..], name)
  }

  /** `chord_dictionary.get(name, [])`: an unknown chord name has no notes. */
  function ChordNotes(name: string): set<string> {
    match Lookup(ChordDictionary, name)
    case Some(fingerprint) => fingerprint
    case None => {}
  }

  /** The pitch classes of a set, one at a time, in whatever order the set is iterated. */
  method Enumerate(pitches: set<string>) returns (listed: seq<string>)
    ensures |listed| == |pitches|
    ensures forall m :: m in listed <==> m in pitches
  {
    var remaining := pitches;
    listed := [];
    while remaining != {}
      invariant |listed| + |remaining| == |pitches|
      invariant forall m :: m in pitches <==> m in remaining || m in listed
      invariant forall m | m in listed :: m !in remaining
      decreases |remaining|
    {
      var m :| m in remaining;
      listed := listed + [m];
      remaining := remaining - {m};
    }
  }

  /**
   * `Chord.from_notation`: one note per pitch class of the fingerprint, each
   * parsed by `Note.from_notation` with an octave object of its own. Python
   * iterates the fingerprint set in hash order; `spelled` is the order this
   * run used, any enumeration of the set.
   */
  method ChordFromNotation(name: string) returns (c: Chord, ghost spelled: seq<string>)
    ensures c.name == name
    ensures |spelled| == |c.notes| == |ChordNotes(name)|
    ensures forall m :: m in spelled <==> m in ChordNotes(name)
    ensures forall i | 0 <= i < |c.notes| :: fresh(c.notes[i].octave) && Fields(c.notes[i]) == ParseNotation(spelled[i])
    ensures forall i, j | 0 <= i < j < |c.notes| :: c.notes[i].octave != c.notes[j].octave
  {
    var pitches := Enumerate(ChordNotes(name));
    var notes := NotesFromPitches(pitches);
    AllParsedAt(notes, pitches, ParseNotation);
    c, spelled := Chord(name, notes), pitches;
  }

  /**
   * `[Note.from_notation(note) for note in chord_notes]`: one note per text,
   * holding what `Note.from_notation` stores for it, each with an octave
   * object of its own.
   */
  method NotesFromPitches(pitches: seq<string>) returns (notes: seq<Note>)
    ensures AllParsed(notes, pitches, ParseNotation)
    ensures forall i | 0 <= i < |notes| :: fresh(notes[i].octave)
    ensures forall i, j | 0 <= i < j < |notes| :: notes[i].octave != notes[j].octave
  {
    notes := [];
    var i := 0;
    while i < |pitches|
      invariant i <= |pitches| && |notes| == i
      invariant AllParsed(notes, pitches[..i], ParseNotation)
      invariant forall j | 0 <= j < |notes| :: fresh(notes[j].octave)
      invariant forall j, k | 0 <= j < k < |notes| :: notes[j].octave != notes[k].octave
    {
      notes := AppendParsed(notes, pitches);
      i := i + 1;
    }
    assert pitches[..i] == pitches;
  }

  /** One step of the comprehension: the note for the next text, appended. */
  method AppendParsed(notes: seq<Note>, pitches: seq<string>) returns (longer: seq<Note>)
    requires |notes| < |pitches|
    requires AllParsed(notes, pitches[..|notes|], ParseNotation)
    ensures |longer| == |notes| + 1 && longer == notes + [longer[|notes|]]
    ensures fresh(longer[|notes|].octave)
    ensures forall j | 0 <= j < |notes| :: notes[j].octave != longer[|notes|].octave
    ensures AllParsed(longer, pitches[..|longer|], ParseNotation)
  {
    var n := NoteFromNotation(pitches[|notes|]);
    longer := notes + [n];
    assert longer[..|notes|] == notes && pitches[..|longer|][..|notes|] == pitches[..|notes|];
  }

  /** Each note holds what `parse` gives for the text at the same position. */
  ghost predicate AllParsed(notes: seq<Note>, pitches: seq<string>, parse: string -> NoteFields) {
    && |notes| == |pitches|
    && (notes != [] ==>
      && Fields(notes[|notes| - 1]) == parse(pitches[|pitches| - 1])
      && AllParsed(notes[..|notes| - 1], pitches[..|pitches| - 1], parse))
  }

  lemma {:induction false} AllParsedAt(notes: seq<Note>, pitches: seq<string>, parse: string -> NoteFields)
    requires AllParsed(notes, pitches, parse)
    ensures forall j | 0 <= j < |notes| :: Fields(notes[j]) == parse(pitches[j])
  {
    if notes != [] {
      var n := |notes| - 1;
      AllParsedAt(notes[..n], pitches[..n], parse);
      assert forall j | 0 <= j < n :: notes[..n][j] == notes[j] && pitches[..n][j] == pitches[j];
    }
  }

  /** `Chord.contains_notes`: how many of `notes`, counted with repetition, are equal to a note of the chord. */
  function ContainsNotes(c: Chord, notes: seq<Note>): (r: nat)
    ensures r <= |notes|
  {
    if notes == [] then 0
    else (if notes[0] in c.notes then 1 else 0) + ContainsNotes(c, notes[1..])
  }

  /** The count adds up over concatenation, so a note listed twice is counted twice. */
  lemma {:induction false} ContainsNotesAppend(c: Chord, xs: seq<Note>, ys: seq<Note>)
    ensures ContainsNotes(c, xs + ys) == ContainsNotes(c, xs) + ContainsNotes(c, ys)
  {
    if xs != [] {
      assert (xs + ys)[1..] == xs[1..] + ys;
      ContainsNotesAppend(c, xs[1..], ys);
    } else {
      assert xs + ys == ys;
    }
  }

  /** When every note is one of the chord's, every one is counted. */
  lemma {:induction false} ContainsNotesOfMembers(c: Chord, notes: seq<Note>)
    requires forall x | x in notes :: x in c.notes
    ensures ContainsNotes(c, notes) == |notes|
  {
    if notes != [] {
      ContainsNotesOfMembers(c, notes[1..]);
    }
  }

  /**
   * Notes holding none of the chord's octave objects are never counted, even
   * when name, alteration and octave number all agree.
   */
  lemma {:induction false} ContainsNotesForeignOctaves(c: Chord, notes: seq<Note>)
    requires forall x, y | x in notes && y in c.notes :: x.octave != y.octave
    ensures ContainsNotes(c, notes) == 0
  {
    if notes != [] {
      assert notes[0] in notes;
      ContainsNotesForeignOctaves(c, notes[1..]);
    }
  }

  /** The characters at which `Chord.to_human_readable` starts the suffix (ASCII digits only). */
  predicate StartsSuffix(c: char) {
    IsDigit(c) || c in "maugdim"
  }

  /** The split `Chord.to_human_readable` makes: tonic before the first suffix character, suffix from it on. */
  function SplitName(name: string): (r: (string, string))
    ensures r.0 + r.1 == name
    ensures forall i | 0 <= i < |r.0| :: !StartsSuffix(r.0[i])
    ensures r.1 == [] || StartsSuffix(r.1[0])
  {
    if name == [] then ("", "")
    else if StartsSuffix(name[0]) then ("", name)
    else
      var rest := SplitName(name[1..]);
      ([name[0]] + rest.0, rest.1)
  }

  /** Any split with those three properties is the one `SplitName` makes. */
  lemma {:induction false} SplitNameUnique(name: string, tonic: string, suffix: string)
    requires tonic + suffix == name
    requires forall i | 0 <= i < |tonic| :: !StartsSuffix(tonic[i])
    requires suffix == [] || StartsSuffix(suffix[0])
    ensures SplitName(name) == (tonic, suffix)
  {
    if name != [] && tonic != [] {
      assert name[0] == tonic[0];
      assert tonic[1..] + suffix == name[1..];
      SplitNameUnique(name[1..], tonic[1..], suffix);
      assert [name[0]] + tonic[1..] == tonic;
    } else if name != [] {
      assert suffix == name;
    }
  }

  /** The tonic/suffix loop of `Chord.to_human_readable`. */
  method SplitChordName(name: string) returns (tonic: string, suffix: string)
    ensures (tonic, suffix) == SplitName(name)
  {
    tonic, suffix := "", "";
    var broke := false;
    var i := 0;
    while i < |name|
      invariant 0 <= i <= |name|
      invariant forall k | 0 <= k < i :: !StartsSuffix(name[k])
      invariant !broke
    {
      if StartsSuffix(name[i]) {
        tonic, suffix := name[..i], name[i..];
        broke := true;
        break;
      }
      i := i + 1;
    }
    if !broke {
      tonic := name;
    }
    assert tonic + suffix == name;
    SplitNameUnique(name, tonic, suffix);
  }

  /** `Chord.to_human_readable`. */
  method ChordToHumanReadable(c: Chord) returns (text: string)
    ensures var split := SplitName(c.name);
      text == GetOrKey(NotationDictionary, split.0) + " " + GetOrKey(SuffixMapping, split.1) + ": "
              + JoinWithComma(seq(|c.notes|, i requires 0 <= i < |c.notes| => NoteToHumanReadable(c.notes[i])))
  {
    var tonic, suffix := SplitChordName(c.name);
    var humanTonic := GetOrKey(NotationDictionary, tonic);
    var humanSuffix := GetOrKey(SuffixMapping, suffix);
    var notesReadable := JoinWithComma(seq(|c.notes|, i requires 0 <= i < |c.notes| => NoteToHumanReadable(c.notes[i])));
    text := humanTonic + " " + humanSuffix + ": " + notesReadable;
  }

  // ---------------------------------------------------------------------------
  // The chord dictionary of core.py, in declaration order, one block per root.

  const CChords: ChordTable := [
    ("C", {"C", "E", "G"}),
    ("Cm", {"C", "D\U{266F}", "G"}),
    ("C7", {"C", "E", "G", "A\U{266F}"}),
    ("Cm7", {"C", "D\U{266F}", "G", "A\U{266F}"}),
    ("Cmaj7", {"C", "E", "G", "B"}),
    ("Cdim", {"C", "D\U{266F}", "F\U{266F}"}),
    ("Caug", {"C", "E", "G\U{266F}"}),
    ("C6", {"C", "E", "G", "A"}),
    ("C9", {"C", "E", "G", "A\U{266F}", "D"})
  ]

  const DChords: ChordTable := [
    ("D", {"D", "F\U{266F}", "A"}),
    ("Dm", {"D", "F", "A"}),
    ("D7", {"D", "F\U{266F}", "A", "C"}),
    ("Dm7", {"D", "F", "A", "C"}),
    ("Dmaj7", {"D", "F\U{266F}", "A", "C\U{266F}"}),
    ("Ddim", {"D", "F", "G\U{266F}"}),
    ("Daug", {"D", "F\U{266F}", "A\U{266F}"}),
    ("D6", {"D", "F\U{266F}", "A", "B"}),
    ("D9", {"D", "F\U{266F}", "A", "C", "E"})
  ]

  const EChords: ChordTable := [
    ("E", {"E", "G\U{266F}", "B"}),
    ("Em", {"E", "G", "B"}),
    ("E7", {"E", "G\U{266F}", "B", "D"}),
    ("Em7", {"E", "G", "B", "D"}),
    ("Emaj7", {"E", "G\U{266F}", "B", "D\U{266F}"}),
    ("Edim", {"E", "G", "A\U{266F}"}),
    ("Eaug", {"E", "G\U{266F}", "C"}),
    ("E6", {"E", "G\U{266F}", "B", "C\U{266F}"}),
    ("E9", {"E", "G\U{266F}", "B", "D", "F\U{266F}"})
  ]

  const FChords: ChordTable := [
    ("F", {"F", "A", "C"}),
    ("Fm", {"F", "G\U{266F}", "C"}),
    ("F7", {"F", "A", "C", "D\U{266F}"}),
    ("Fm7", {"F", "G\U{266F}", "C", "D\U{266F}"}),
    ("Fmaj7", {"F", "A", "C", "E"}),
    ("Fdim", {"F", "G\U{266F}", "B"}),
    ("Faug", {"F", "A", "C\U{266F}"}),
    ("F6", {"F", "A", "C", "D"}),
    ("F9", {"F", "A", "C", "D\U{266F}", "G"})
  ]

  const GChords: ChordTable := [
    ("G", {"G", "B", "D"}),
    ("Gm", {"G", "A\U{266F}", "D"}),
    ("G7", {"G", "B", "D", "F"}),
    ("Gm7", {"G", "A\U{266F}", "D", "F"}),
    ("Gmaj7", {"G", "B", "D", "F\U{266F}"}),
    ("Gdim", {"G", "A\U{266F}", "C\U{266F}"}),
    ("Gaug", {"G", "B", "D\U{266F}"}),
    ("G6", {"G", "B", "D", "E"}),
    ("G9", {"G", "B", "D", "F", "A"})
  ]

  const AChords: ChordTable := [
    ("A", {"A", "C\U{266F}", "E"}),
    ("Am", {"A", "C", "E"}),
    ("A7", {"A", "C\U{266F}", "E", "G"}),
    ("Am7", {"A", "C", "E", "G"}),
    ("Amaj7", {"A", "C\U{266F}", "E", "G\U{266F}"}),
    ("Adim", {"A", "C", "D\U{266F}"}),
    ("Aaug", {"A", "C\U{266F}", "F"}),
    ("A6", {"A", "C\U{266F}", "E", "F\U{266F}"}),
    ("A9", {"A", "C\U{266F}", "E", "G", "B"})
  ]

  const BChords: ChordTable := [
    ("B", {"B", "D\U{266F}", "F\U{266F}"}),
    ("Bm", {"B", "D", "F\U{266F}"}),
    ("B7", {"B", "D\U{266F}", "F\U{266F}", "A"}),
    ("Bm7", {"B", "D", "F\U{266F}", "A"}),
    ("Bmaj7", {"B", "D\U{266F}", "F\U{266F}", "A\U{266F}"}),
    ("Bdim", {"B", "D", "F"}),
    ("Baug", {"B", "D\U{266F}", "G"}),
    ("B6", {"B", "D\U{266F}", "F\U{266F}", "G\U{266F}"}),
    ("B9", {"B", "D\U{266F}", "F\U{266F}", "A", "C\U{266F}"})
  ]

  /** `chord_dictionary`. */
  const ChordDictionary: ChordTable := CChords + DChords + EChords + FChords + GChords + AChords + BChords

  /** The natural roots, in the order the dictionary lists them. */
  const NaturalRoots: seq<string> := ["C", "D", "E", "F", "G", "A", "B"]

  /** The nine chord qualities, in the order every root lists them. */
  const Qualities: seq<string> := ["", "m", "7", "m7", "maj7", "dim", "aug", "6", "9"]

  /** The number of pitch classes of each quality: triads, four-note chords and the ninth. */
  const QualitySizes: seq<nat> := [3, 3, 4, 4, 4, 3, 3, 4, 5]

  /**
   * Entry `j` of the block of root `r` is named root + quality, contains its
   * root, has as many members as its quality prescribes, and draws them from
   * the twelve note names.
   */
  predicate WellFormedEntry(e: (string, set<string>), r: nat, j: nat)
    requires r < 7 && j < 9
  {
    && e.0 == NaturalRoots[r] + Qualities[j]
    && NaturalRoots[r] in e.1
    && |e.1| == QualitySizes[j]
    && forall m | m in e.1 :: m in NoteNames
  }

  predicate WellFormedBlock(block: ChordTable, r: nat)
    requires r < 7
  {
    |block| == 9 && forall j | 0 <= j < 9 :: WellFormedEntry(block[j], r, j)
  }

  lemma CChordsWellFormed()
    ensures WellFormedBlock(CChords, 0)
  {
    forall j | 0 <= j < 9
      ensures WellFormedEntry(CChords[j], 0, j)
    {
      assert j == 0 || j == 1 || j == 2 || j == 3 || j == 4 || j == 5 || j == 6 || j == 7 || j == 8;
    }
  }

  lemma DChordsWellFormed()
    ensures WellFormedBlock(DChords, 1)
  {
    forall j | 0 <= j < 9
      ensures WellFormedEntry(DChords[j], 1, j)
    {
      assert j == 0 || j == 1 || j == 2 || j == 3 || j == 4 || j == 5 || j == 6 || j == 7 || j == 8;
    }
  }

  lemma EChordsWellFormed()
    ensures WellFormedBlock(EChords, 2)
  {
    forall j | 0 <= j < 9
      ensures WellFormedEntry(EChords[j], 2, j)
    {
      assert j == 0 || j == 1 || j == 2 || j == 3 || j == 4 || j == 5 || j == 6 || j == 7 || j == 8;
    }
  }

  lemma FChordsWellFormed()
    ensures WellFormedBlock(FChords, 3)
  {
    forall j | 0 <= j < 9
      ensures WellFormedEntry(FChords[j], 3, j)
    {
      assert j == 0 || j == 1 || j == 2 || j == 3 || j == 4 || j == 5 || j == 6 || j == 7 || j == 8;
    }
  }

  lemma GChordsWellFormed()
    ensures WellFormedBlock(GChords, 4)
  {
    forall j | 0 <= j < 9
      ensures WellFormedEntry(GChords[j], 4, j)
    {
      assert j == 0 || j == 1 || j == 2 || j == 3 || j == 4 || j == 5 || j == 6 || j == 7 || j == 8;
    }
  }

  lemma AChordsWellFormed()
    ensures WellFormedBlock(AChords, 5)
  {
    forall j | 0 <= j < 9
      ensures WellFormedEntry(AChords[j], 5, j)
    {
      assert j == 0 || j == 1 || j == 2 || j == 3 || j == 4 || j == 5 || j == 6 || j == 7 || j == 8;
    }
  }

  lemma BChordsWellFormed()
    ensures WellFormedBlock(BChords, 6)
  {
    forall j | 0 <= j < 9
      ensures WellFormedEntry(BChords[j], 6, j)
    {
      assert j == 0 || j == 1 || j == 2 || j == 3 || j == 4 || j == 5 || j == 6 || j == 7 || j == 8;
    }
  }

  /**
   * `chord_dictionary` holds 63 entries, the nine qualities on each of the
   * seven natural roots, every one well formed.
   */
  lemma CChordsInDictionary()
    ensures forall i | 0 <= i < 9 :: WellFormedEntry(ChordDictionary[i], i / 9, i % 9)
  {
    CChordsWellFormed();
    forall i | 0 <= i < 9
      ensures WellFormedEntry(ChordDictionary[i], i / 9, i % 9)
    {
      assert ChordDictionary[i] == CChords[i - 0];
    }
  }

  lemma DChordsInDictionary()
    ensures forall i | 9 <= i < 18 :: WellFormedEntry(ChordDictionary[i], i / 9, i % 9)
  {
    DChordsWellFormed();
    forall i | 9 <= i < 18
      ensures WellFormedEntry(ChordDictionary[i], i / 9, i % 9)
    {
      assert ChordDictionary[i] == DChords[i - 9];
    }
  }

  lemma EChordsInDictionary()
    ensures forall i | 18 <= i < 27 :: WellFormedEntry(ChordDictionary[i], i / 9, i % 9)
  {
    EChordsWellFormed();
    forall i | 18 <= i < 27
      ensures WellFormedEntry(ChordDictionary[i], i / 9, i % 9)
    {
      assert ChordDictionary[i] == EChords[i - 18];
    }
  }

  lemma FChordsInDictionary()
    ensures forall i | 27 <= i < 36 :: WellFormedEntry(ChordDictionary[i], i / 9, i % 9)
  {
    FChordsWellFormed();
    forall i | 27 <= i < 36
      ensures WellFormedEntry(ChordDictionary[i], i / 9, i % 9)
    {
      assert ChordDictionary[i] == FChords[i - 27];
    }
  }

  lemma GChordsInDictionary()
    ensures forall i | 36 <= i < 45 :: WellFormedEntry(ChordDictionary[i], i / 9, i % 9)
  {
    GChordsWellFormed();
    forall i | 36 <= i < 45
      ensures WellFormedEntry(ChordDictionary[i], i / 9, i % 9)
    {
      assert ChordDictionary[i] == GChords[i - 36];
    }
  }

  lemma AChordsInDictionary()
    ensures forall i | 45 <= i < 54 :: WellFormedEntry(ChordDictionary[i], i / 9, i % 9)
  {
    AChordsWellFormed();
    forall i | 45 <= i < 54
      ensures WellFormedEntry(ChordDictionary[i], i / 9, i % 9)
    {
      assert ChordDictionary[i] == AChords[i - 45];
    }
  }

  lemma BChordsInDictionary()
    ensures forall i | 54 <= i < 63 :: WellFormedEntry(ChordDictionary[i], i / 9, i % 9)
  {
    BChordsWellFormed();
    forall i | 54 <= i < 63
      ensures WellFormedEntry(ChordDictionary[i], i / 9, i % 9)
    {
      assert ChordDictionary[i] == BChords[i - 54];
    }
  }

  /**
   * Every entry of the dictionary is a natural root followed by one of the nine
   * qualities, in that order, and its fingerprint is a set of note names that
   * holds the root and has the quality's size.
   */
  lemma ChordDictionaryWellFormed()
    ensures |ChordDictionary| == 63
    ensures forall i | 0 <= i < 63 :: WellFormedEntry(ChordDictionary[i], i / 9, i % 9)
  {
    CChordsInDictionary();
    DChordsInDictionary();
    EChordsInDictionary();
    FChordsInDictionary();
    GChordsInDictionary();
    AChordsInDictionary();
    BChordsInDictionary();
  }

  /** The seven roots differ, and so do the nine qualities. */
  lemma RootsAndQualitiesDistinct()
    ensures forall a, b | 0 <= a < b < |NaturalRoots| :: NaturalRoots[a][0] != NaturalRoots[b][0]
    ensures forall a, b | 0 <= a < b < |Qualities| :: Qualities[a] != Qualities[b]
  {
    forall a, b | 0 <= a < b < |Qualities|
      ensures Qualities[a] != Qualities[b]
    {
      assert a == 0 || a == 1 || a == 2 || a == 3 || a == 4 || a == 5 || a == 6 || a == 7;
      assert b == 1 || b == 2 || b == 3 || b == 4 || b == 5 || b == 6 || b == 7 || b == 8;
    }
  }

  /** Like the keys of a Python dictionary, the chord names are pairwise distinct. */
  lemma ChordNamesDistinct()
    ensures forall a, b | 0 <= a < b < |ChordDictionary| :: ChordDictionary[a].0 != ChordDictionary[b].0
  {
    ChordDictionaryWellFormed();
    RootsAndQualitiesDistinct();
    forall a, b | 0 <= a < b < |ChordDictionary|
      ensures ChordDictionary[a].0 != ChordDictionary[b].0
    {
      var nameA, nameB := ChordDictionary[a].0, ChordDictionary[b].0;
      var rootA, rootB := NaturalRoots[a / 9], NaturalRoots[b / 9];
      assert |rootA| == 1 && |rootB| == 1;
      assert nameA[0] == rootA[0] && nameB[0] == rootB[0];
      assert nameA[1..] == Qualities[a % 9] && nameB[1..] == Qualities[b % 9];
      if a / 9 == b / 9 {
        assert a % 9 != b % 9;
      }
    }
  }

  /** With distinct names, looking a name up finds its own entry. */
  lemma {:induction false} LookupDistinct(table: ChordTable, i: nat)
    requires i < |table|
    requires forall a, b | 0 <= a < b < |table| :: table[a].0 != table[b].0
    ensures Lookup(table, table[i].0) == Some(table[i].1)
  {
    if i > 0 {
      assert table[0].0 != table[i].0;
      LookupDistinct(table[1..], i - 1);
    }
  }

  lemma NoteNameLengths()
    ensures forall m | m in NoteNames :: 1 <= |m| <= 2
  {
  }

  /** Each of the twelve note names parses to its letter, its accidental and octave 4. */
  lemma NoteNamesParse()
    ensures forall m | m in NoteNames :: |m| >= 1 && ParseNotation(m) == NoteFields(m[..1], m[1..], DefaultOctaveNumber)
  {
    forall m | m in NoteNames
      ensures |m| >= 1 && ParseNotation(m) == NoteFields(m[..1], m[1..], DefaultOctaveNumber)
    {
      assert 1 <= |m| <= 2 && !IsDigit(m[|m| - 1]) && IsAlteration(m[1..]);
      ParsePitchClass(m);
    }
  }

  /** `chord_dictionary.get` on a dictionary name finds that entry's own fingerprint. */
  lemma DictionaryLookup(i: nat)
    requires i < |ChordDictionary|
    ensures ChordNotes(ChordDictionary[i].0) == ChordDictionary[i].1
  {
    ChordNamesDistinct();
    LookupDistinct(ChordDictionary, i);
  }

  /** Every pitch class in a fingerprint is one of the twelve note names. */
  lemma FingerprintsAreNoteNames(i: nat)
    requires i < |ChordDictionary|
    ensures forall m | m in ChordDictionary[i].1 :: m in NoteNames
  {
    ChordDictionaryWellFormed();
    assert WellFormedEntry(ChordDictionary[i], i / 9, i % 9);
  }

  /**
   * `Chord.from_notation` on a dictionary name builds its notes from that
   * entry's fingerprint, and each pitch class parses to its letter and
   * accidental in octave 4.
   */
  lemma DictionaryChordNotes(i: nat)
    requires i < |ChordDictionary|
    ensures ChordNotes(ChordDictionary[i].0) == ChordDictionary[i].1
    ensures forall m | m in ChordNotes(ChordDictionary[i].0) ::
      |m| >= 1 && ParseNotation(m) == NoteFields(m[..1], m[1..], DefaultOctaveNumber)
  {
    DictionaryLookup(i);
    FingerprintsAreNoteNames(i);
    NoteNamesParse();
  }

  /** A name missing from the dictionary gives a chord without notes. */
  lemma UnknownChordHasNoNotes(name: string)
    requires forall i | 0 <= i < |ChordDictionary| :: ChordDictionary[i].0 != name
    ensures ChordNotes(name) == {}
  {
  }

  /** `Chord.to_human_readable` splits every dictionary name into its root and its quality. */
  lemma DictionaryNamesSplit()
    ensures forall i | 0 <= i < |ChordDictionary| :: SplitName(ChordDictionary[i].0) == (NaturalRoots[i / 9], Qualities[i % 9])
  {
    ChordDictionaryWellFormed();
    forall i | 0 <= i < |ChordDictionary|
      ensures SplitName(ChordDictionary[i].0) == (NaturalRoots[i / 9], Qualities[i % 9])
    {
      var root, quality := NaturalRoots[i / 9], Qualities[i % 9];
      assert |root| == 1 && !StartsSuffix(root[0]);
      assert quality == [] || StartsSuffix(quality[0]) by {
        var j := i % 9;
        assert j == 0 || j == 1 || j == 2 || j == 3 || j == 4 || j == 5 || j == 6 || j == 7 || j == 8;
      }
      SplitNameUnique(ChordDictionary[i].0, root, quality);
    }
  }

  /** Suffixes the mapping lacks, "maj7" and "m7", are rendered unchanged; "dim" is translated. */
  lemma SuffixRendering()
    ensures GetOrKey(SuffixMapping, "maj7") == "maj7"
    ensures GetOrKey(SuffixMapping, "m7") == "m7"
    ensures GetOrKey(SuffixMapping, "dim") == "уменьшённый"
  {
  }
}
