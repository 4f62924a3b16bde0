/** The health-profile editor (UserProfileForm.tsx): the list and text
    helpers its handlers are built from, and the form itself, whose state is
    the profile being edited and the two "add other" text boxes. */
module ProfileForm {
  import opened Types
  import opened JsString
  import Constants

  /** `list.filter(i => i !== item)`. */
  function RemoveAll(list: seq<string>, item: string): (r: seq<string>)
    ensures item !in r
    ensures forall x :: x != item ==> multiset(r)[x] == multiset(list)[x]
    ensures item !in list ==> r == list
  {
    if list == [] then []
    else
      assert list == [list[0]] + list[1..];
      (if list[0] == item then [] else [list[0]]) + RemoveAll(list[1..], item)
  }

  /** Filtering a concatenation filters each part: together with the single
      element case this fixes the order of what is kept. */
  lemma {:induction false} RemoveAllDistributes(a: seq<string>, b: seq<string>, item: string)
    ensures RemoveAll(a + b, item) == RemoveAll(a, item) + RemoveAll(b, item)
  {
    if a == [] {
      assert a + b == b;
    } else {
      assert (a + b)[1..] == a[1..] + b;
      RemoveAllDistributes(a[1..], b, item);
    }
  }

  /** toggleItem: an item in the list is removed everywhere it occurs, an
      item not in it is appended; membership of the item flips and every
      other value keeps its number of occurrences. */
  function ToggleItem(list: seq<string>, item: string): (r: seq<string>)
    ensures item in r <==> item !in list
    ensures forall x :: x != item ==> multiset(r)[x] == multiset(list)[x]
    ensures item in list ==> r == RemoveAll(list, item)
    ensures item !in list ==> r == list + [item]
  {
    if item in list then RemoveAll(list, item) else list + [item]
  }

  /** Toggling an absent item twice gives the list back. */
  lemma ToggleTwiceRestores(list: seq<string>, item: string)
    requires item !in list
    ensures ToggleItem(ToggleItem(list, item), item) == list
  {
    RemoveAllDistributes(list, [item], item);
    assert RemoveAll([item], item) == [];
  }

  /** Toggling a present item twice leaves one copy of it, at the end. */
  lemma ToggleTwiceMovesToEnd(list: seq<string>, item: string)
    requires item in list
    ensures ToggleItem(ToggleItem(list, item), item) == RemoveAll(list, item) + [item]
  {
  }

  /** What Enter in an "add other" box does to the list and the box: a
      non-empty text is appended, even when the list already holds it, and
      the box is cleared; any other key, or an empty box, changes nothing. */
  function AddCustomItem(items: seq<string>, text: string, key: string): (r: (seq<string>, string))
    ensures key == "Enter" && text != "" ==> r.0 == items + [text] && r.1 == ""
    ensures !(key == "Enter" && text != "") ==> r == (items, text)
  {
    if key == "Enter" && text != "" then (items + [text], "") else (items, text)
  }

  /** An added item occurs once more than before, whether or not it was
      already in the list. */
  lemma AddCustomItemCounts(items: seq<string>, text: string)
    requires text != ""
    ensures multiset(AddCustomItem(items, text, "Enter").0)[text] == multiset(items)[text] + 1
  {
  }

  /** `.map(s => s.trim())`. */
  function TrimEach(parts: seq<string>): seq<string> {
    if parts == [] then [] else [Trim(parts[0])] + TrimEach(parts[1..])
  }

  /** Each string trimmed, in place: as many strings, the i-th the trimmed
      i-th part. */
  lemma {:induction false} TrimEachElements(parts: seq<string>)
    ensures |TrimEach(parts)| == |parts|
    ensures forall i :: 0 <= i < |parts| ==> TrimEach(parts)[i] == Trim(parts[i])
  {
    if parts != [] {
      TrimEachElements(parts[1..]);
      var rest := TrimEach(parts[1..]);
      assert TrimEach(parts) == [Trim(parts[0])] + rest;
      forall i | 1 <= i < |parts| ensures TrimEach(parts)[i] == Trim(parts[i]) {
        assert TrimEach(parts)[i] == rest[i - 1];
        assert parts[1..][i - 1] == parts[i];
      }
    }
  }

  /** `.filter(s => s)`: no empty string is left, every other string is kept
      as often as it occurs, and a list without empty strings is unchanged. */
  function DropEmpty(parts: seq<string>): (r: seq<string>)
    ensures "" !in r
    ensures forall s :: s != "" ==> multiset(r)[s] == multiset(parts)[s]
    ensures "" !in parts ==> r == parts
  {
    if parts == [] then []
    else
      assert parts == [parts[0]] + parts[1..];
      (if parts[0] == "" then [] else [parts[0]]) + DropEmpty(parts[1..])
  }

  /** Filtering a concatenation filters each part: together with the single
      element case this keeps the non-empty strings in their order. */
  lemma {:induction false} DropEmptyDistributes(a: seq<string>, b: seq<string>)
    ensures DropEmpty(a + b) == DropEmpty(a) + DropEmpty(b)
  {
    if a == [] {
      assert a + b == b;
    } else {
      assert (a + b)[1..] == a[1..] + b;
      DropEmptyDistributes(a[1..], b);
    }
  }

  /** An entry the medications parser can produce. */
  predicate IsMedicationEntry(m: string) {
    m != "" && IsTrimmed(m) && ',' !in m
  }

  /** The medications text box as it is read back: split at commas, each
      piece trimmed, empty pieces dropped. */
  function ParseMedications(text: string): seq<string> {
    DropEmpty(TrimEach(Split(text, ',')))
  }

  /** A trimmed piece of a comma split holds no comma. */
  lemma TrimmedPiecesHaveNoComma(pieces: seq<string>)
    requires forall i :: 0 <= i < |pieces| ==> ',' !in pieces[i]
    ensures forall i :: 0 <= i < |TrimEach(pieces)| ==> ',' !in TrimEach(pieces)[i]
  {
    var trimmed := TrimEach(pieces);
    TrimEachElements(pieces);
    forall i | 0 <= i < |trimmed| ensures ',' !in trimmed[i] {
      assert trimmed[i] == Trim(pieces[i]);
      TrimKeepsCharacters(pieces[i], c => c != ',');
    }
  }

  /** Every parsed entry is non-empty, has no white space at either end and
      holds no comma. */
  lemma ParsedEntriesWellFormed(text: string)
    ensures forall i :: 0 <= i < |ParseMedications(text)| ==> IsMedicationEntry(ParseMedications(text)[i])
  {
    var trimmed := TrimEach(Split(text, ','));
    TrimEachElements(Split(text, ','));
    TrimmedPiecesHaveNoComma(Split(text, ','));
    var meds := DropEmpty(trimmed);
    forall i | 0 <= i < |meds| ensures IsMedicationEntry(meds[i]) {
      assert meds[i] in multiset(meds);
      assert meds[i] in multiset(trimmed);
      var k :| 0 <= k < |trimmed| && trimmed[k] == meds[i];
      assert IsTrimmed(Trim(Split(text, ',')[k]));
    }
  }

  /** The medications text box as it is shown: `medications.join(', ')`. */
  function MedicationsText(meds: seq<string>): string {
    Join(meds, ", ")
  }

  /** Each string with one space in front. */
  function Spaced(l: seq<string>): (r: seq<string>)
    ensures |r| == |l|
    ensures forall i :: 0 <= i < |r| ==> r[i] == " " + l[i]
  {
    if l == [] then [] else [" " + l[0]] + Spaced(l[1..])
  }

  /** Splitting a ", "-joined list of comma-free strings at commas gives the
      first string and then every other one behind a space. */
  lemma {:induction false} SplitJoined(l: seq<string>)
    requires |l| >= 1
    requires forall i :: 0 <= i < |l| ==> ',' !in l[i]
    ensures Split(Join(l, ", "), ',') == [l[0]] + Spaced(l[1..])
  {
    if |l| == 1 {
      SplitWithoutSeparator(l[0], ',');
    } else {
      var rest := Join(l[1..], ", ");
      SplitJoined(l[1..]);
      assert Join(l, ", ") == l[0] + [','] + ([' '] + rest);
      SplitAtFirstSeparator(l[0], ',', [' '] + rest);
      var tail := Split(rest, ',');
      assert tail == [l[1]] + Spaced(l[2..]);
      assert ([' '] + rest)[1..] == rest;
      assert Split([' '] + rest, ',') == [[' '] + tail[0]] + tail[1..];
      assert [" " + l[1]] + Spaced(l[2..]) == Spaced(l[1..]);
    }
  }

  /** A trimmed non-empty string with a space in front trims back to itself. */
  lemma TrimLeadingSpace(m: string)
    requires m != "" && IsTrimmed(m)
    ensures Trim(" " + m) == m
  {
    assert (" " + m)[1..] == m;
    assert TrimStart(" " + m) == TrimStart(m);
  }

  /** Trimming the pieces of a joined list of well-formed entries gives the
      entries. */
  lemma TrimJoinedPieces(meds: seq<string>)
    requires |meds| >= 1
    requires forall i :: 0 <= i < |meds| ==> IsMedicationEntry(meds[i])
    ensures TrimEach([meds[0]] + Spaced(meds[1..])) == meds
  {
    var pieces := [meds[0]] + Spaced(meds[1..]);
    var trimmed := TrimEach(pieces);
    TrimEachElements(pieces);
    forall i | 0 <= i < |meds| ensures trimmed[i] == meds[i] {
      if i > 0 {
        assert pieces[i] == " " + meds[i];
        TrimLeadingSpace(meds[i]);
      }
    }
  }

  /** The empty box parses to no medications. */
  lemma EmptyTextParsesToNothing()
    ensures ParseMedications("") == []
  {
    SplitWithoutSeparator("", ',');
    TrimEachElements([""]);
    assert Trim("") == "";
  }

  /** Parsing the shown text of a list of well-formed entries gives the list
      back. */
  lemma MedicationsRoundTrip(meds: seq<string>)
    requires forall i :: 0 <= i < |meds| ==> IsMedicationEntry(meds[i])
    ensures ParseMedications(MedicationsText(meds)) == meds
  {
    if meds == [] {
      EmptyTextParsesToNothing();
    } else {
      SplitJoined(meds);
      TrimJoinedPieces(meds);
      assert "" !in meds;
    }
  }

  /** Whatever is typed, the box re-shown from the parsed list parses to the
      same list. */
  lemma ParseStable(text: string)
    ensures ParseMedications(MedicationsText(ParseMedications(text))) == ParseMedications(text)
  {
    ParsedEntriesWellFormed(text);
    MedicationsRoundTrip(ParseMedications(text));
  }

  /** `parseInt(value) || 0`: NaN, and the falsy zero, become 0. */
  function CoerceAge(text: string): int {
    match ParseInt(text)
    case None => 0
    case Some(n) => n
  }

  /** The age box as it is shown, `age || ''`: empty exactly for age 0. */
  function AgeText(age: int): (text: string)
    ensures text == "" <==> age == 0
  {
    if age == 0 then "" else IntToDecimal(age)
  }

  /** Reading back the shown age gives the age. */
  lemma AgeRoundTrip(age: int)
    ensures CoerceAge(AgeText(age)) == age
  {
    if age != 0 {
      ParseIntOfDecimal(age);
    }
  }

  /** Text without a leading integer, such as a cleared box, "abc5" or
      "0x", stores age 0. */
  lemma NoLeadingIntegerIsZero(text: string)
    requires NoLeadingInteger(text)
    ensures CoerceAge(text) == 0
  {
    ParseIntNaNExactly(text);
  }

  /** The gender buttons, in display order. */
  const GenderOptions: seq<string> := ["Male", "Female", "Other"]

  /** The value a gender button stores: its label in lower case. */
  function GenderValue(option: string): (value: string)
    ensures |value| == |option|
    ensures forall i :: 0 <= i < |option| ==> value[i] == LowerAscii(option[i])
  {
    ToLowerAscii(option)
  }

  /** The three buttons store exactly 'male', 'female' and 'other'. */
  lemma GenderValues()
    ensures GenderValue(GenderOptions[0]) == "male"
    ensures GenderValue(GenderOptions[1]) == "female"
    ensures GenderValue(GenderOptions[2]) == "other"
  {
    assert GenderValue("Male")[0] == 'm';
    assert GenderValue("Female")[0] == 'f';
    assert GenderValue("Other")[0] == 'o';
  }

  /** The editor's state: the profile as edited so far and the text of the
      two "add other" boxes. */
  class Form {
    var profile: UserProfile
    var newCondition: string
    var newAllergy: string

    /** The editor opens on the profile it is given, with empty boxes. */
    constructor(initialProfile: UserProfile)
      ensures profile == initialProfile && newCondition == "" && newAllergy == ""
    {
      profile := initialProfile;
      newCondition := "";
      newAllergy := "";
    }

    /** A condition chip: toggles that condition. */
    method ToggleCondition(condition: string)
      modifies this
      ensures profile == old(profile).(conditions := ToggleItem(old(profile.conditions), condition))
      ensures newCondition == old(newCondition) && newAllergy == old(newAllergy)
    {
      profile := profile.(conditions := ToggleItem(profile.conditions, condition));
    }

    /** An allergy chip: toggles that allergy. */
    method ToggleAllergy(allergy: string)
      modifies this
      ensures profile == old(profile).(allergies := ToggleItem(old(profile.allergies), allergy))
      ensures newCondition == old(newCondition) && newAllergy == old(newAllergy)
    {
      profile := profile.(allergies := ToggleItem(profile.allergies, allergy));
    }

    /** Typing in the "add other" condition box. */
    method EditNewCondition(text: string)
      modifies this
      ensures newCondition == text
      ensures profile == old(profile) && newAllergy == old(newAllergy)
    {
      newCondition := text;
    }

    /** Typing in the "add allergy" box. */
    method EditNewAllergy(text: string)
      modifies this
      ensures newAllergy == text
      ensures profile == old(profile) && newCondition == old(newCondition)
    {
      newAllergy := text;
    }

    /** A key pressed in the condition box: Enter with text appends it to
        the conditions and clears the box. */
    method ConditionKeyDown(key: string)
      modifies this
      ensures (profile.conditions, newCondition) == AddCustomItem(old(profile.conditions), old(newCondition), key)
      ensures profile == old(profile).(conditions := profile.conditions)
      ensures newAllergy == old(newAllergy)
    {
      if key == "Enter" && newCondition != "" {
        profile := profile.(conditions := profile.conditions + [newCondition]);
        newCondition := "";
      }
    }

    /** A key pressed in the allergy box: Enter with text appends it to the
        allergies and clears the box. */
    method AllergyKeyDown(key: string)
      modifies this
      ensures (profile.allergies, newAllergy) == AddCustomItem(old(profile.allergies), old(newAllergy), key)
      ensures profile == old(profile).(allergies := profile.allergies)
      ensures newCondition == old(newCondition)
    {
      if key == "Enter" && newAllergy != "" {
        profile := profile.(allergies := profile.allergies + [newAllergy]);
        newAllergy := "";
      }
    }

    /** Typing in the age box. */
    method EditAge(text: string)
      modifies this
      ensures profile == old(profile).(age := CoerceAge(text))
      ensures newCondition == old(newCondition) && newAllergy == old(newAllergy)
    {
      profile := profile.(age := CoerceAge(text));
    }

    /** A gender button. */
    method SelectGender(option: string)
      requires option in GenderOptions
      modifies this
      ensures profile == old(profile).(gender := GenderValue(option))
      ensures profile.gender in ["male", "female", "other"]
      ensures newCondition == old(newCondition) && newAllergy == old(newAllergy)
    {
      GenderValues();
      profile := profile.(gender := GenderValue(option));
    }

    /** Typing in the medications box: the list is replaced by what the
        text parses to. */
    method EditMedications(text: string)
      modifies this
      ensures profile == old(profile).(medications := ParseMedications(text))
      ensures newCondition == old(newCondition) && newAllergy == old(newAllergy)
    {
      profile := profile.(medications := ParseMedications(text));
    }

    /** The age box's text. */
    function AgeField(): string
      reads this
    {
      AgeText(profile.age)
    }

    /** The medications box's text. */
    function MedicationsField(): string
      reads this
    {
      MedicationsText(profile.medications)
    }

    /** Save: hands the edited profile to the caller. */
    method Save() returns (saved: UserProfile)
      ensures saved == profile
    {
      saved := profile;
    }
  }

  /** The medications box shows what was typed, up to spacing around commas
      and empty entries, so editing it again and again keeps the list. */
  lemma MedicationsFieldStable(text: string)
    ensures MedicationsText(ParseMedications(MedicationsText(ParseMedications(text)))) == MedicationsText(ParseMedications(text))
  {
    ParseStable(text);
  }

  /** The medications list after typing `keys` one character at a time into
      the box as written: the box shows `join(', ')` of the list, and every
      keystroke re-parses the shown text with the new character appended. */
  function ControlledTyping(keys: string): seq<string> {
    if keys == [] then []
    else ParseMedications(MedicationsText(ControlledTyping(keys[..|keys| - 1])) + [keys[|keys| - 1]])
  }

  /** A text without a comma parses to at most one entry. */
  lemma CommaFreeParsesToOne(text: string)
    requires ',' !in text
    ensures |ParseMedications(text)| <= 1
  {
    SplitWithoutSeparator(text, ',');
    assert TrimEach([text]) == [Trim(text)] + TrimEach([]);
    assert DropEmpty([Trim(text)]) == (if Trim(text) == "" then [] else [Trim(text)]) + DropEmpty([]);
  }

  /** An empty string after one other string is dropped. */
  lemma DropTrailingEmpty(x: string)
    ensures DropEmpty([x, []]) == DropEmpty([x])
  {
    assert [x, []] == [x] + [[]];
    DropEmptyDistributes([x], [[]]);
    assert DropEmpty([[]]) == [] + DropEmpty([]);
  }

  /** A text without a comma followed by one comma parses as the text alone. */
  lemma TrailingCommaDropped(text: string)
    requires ',' !in text
    ensures ParseMedications(text + [',']) == ParseMedications(text)
  {
    assert text + [','] == text + [','] + [];
    SplitInTwo(text, ',', []);
    SplitWithoutSeparator(text, ',');
    TrimEachElements([text, []]);
    TrimEachElements([text]);
    assert TrimEach([text, []]) == [Trim(text), []];
    DropTrailingEmpty(Trim(text));
  }

  /** One keystroke into the box as written, while it shows at most one
      entry: the shown text holds no comma, so a typed comma only makes an
      empty piece, which is dropped, and any other character extends the one
      piece there is. */
  lemma KeystrokeKeepsOneEntry(meds: seq<string>, c: char)
    requires |meds| <= 1 && forall i :: 0 <= i < |meds| ==> IsMedicationEntry(meds[i])
    ensures |ParseMedications(MedicationsText(meds) + [c])| <= 1
  {
    var shown := MedicationsText(meds);
    assert ',' !in shown by {
      if |meds| == 1 {
        assert shown == meds[0];
      }
    }
    CommaFreeParsesToOne(shown);
    if c == ',' {
      TrailingCommaDropped(shown);
    } else {
      CommaFreeParsesToOne(shown + [c]);
    }
  }

  /** As written, however the keys are typed, the box never holds more than
      one medication: the comma that would start the next entry is erased by
      the re-render that follows it. */
  lemma {:induction false} ControlledTypingHoldsOneEntry(keys: string)
    ensures |ControlledTyping(keys)| <= 1
  {
    if keys != [] {
      var before := keys[..|keys| - 1];
      ControlledTypingHoldsOneEntry(before);
      var meds := ControlledTyping(before);
      if before != [] {
        var text := MedicationsText(ControlledTyping(before[..|before| - 1])) + [before[|before| - 1]];
        ParsedEntriesWellFormed(text);
      }
      KeystrokeKeepsOneEntry(meds, keys[|keys| - 1]);
    }
  }

  /** Typing two medications, as in "Aspirin, Ibuprofen", does not give the
      two of them in the box as written. */
  lemma ControlledTypingLosesSecondEntry(first: string, second: string)
    ensures ControlledTyping(MedicationsText([first, second])) != [first, second]
  {
    ControlledTypingHoldsOneEntry(MedicationsText([first, second]));
  }

  /** The text of a box that keeps what is typed, one keystroke at a time. */
  function RawTypingText(keys: string): string {
    if keys == [] then [] else RawTypingText(keys[..|keys| - 1]) + [keys[|keys| - 1]]
  }

  /** The medications list after typing `keys` into a box that keeps its own
      text and parses it into the list on every change. */
  function RawTyping(keys: string): seq<string> {
    ParseMedications(RawTypingText(keys))
  }

  /** A box that keeps its own text shows exactly what was typed. */
  lemma {:induction false} RawTypingShowsKeys(keys: string)
    ensures RawTypingText(keys) == keys
  {
    if keys != [] {
      RawTypingShowsKeys(keys[..|keys| - 1]);
      assert keys[..|keys| - 1] + [keys[|keys| - 1]] == keys;
    }
  }

  /** With a box that keeps its own text, typing the shown form of any list
      of well-formed entries gives that list, two or more included. */
  lemma RawTypingReachesEveryList(meds: seq<string>)
    requires forall i :: 0 <= i < |meds| ==> IsMedicationEntry(meds[i])
    ensures RawTyping(MedicationsText(meds)) == meds
  {
    RawTypingShowsKeys(MedicationsText(meds));
    MedicationsRoundTrip(meds);
  }
}
