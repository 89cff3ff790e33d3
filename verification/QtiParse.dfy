/** From a decoded QTI document to an item row, as the package import builds it. */
module QtiParse {
  import opened Wrappers
  import opened Text
  import opened Scoring
  import opened Shuffle
  import opened QtiItem

  // What decoding the XML of one assessment item yields.
  datatype Document = Document(
    identifier: string, title: string, responseIdentifier: string, prompt: string, maxChoices: int,
    choices: seq<ChoiceOption>, correctResponse: seq<string>, defaultScore: real)

  datatype ItemRow = ItemRow(
    id: string, title: string, prompt: string, itemType: ItemType, options: seq<ChoiceOption>,
    correctAnswer: string, maxScore: real)

  datatype ParseError =
    | NotAnItem | TextTooLong | OptionTooLong | NotShuffled(ShuffleError)
    | UnknownOption | KeyTooLong | InvalidScore

  // What a document needs besides: the replacement of media paths in a prompt, which iterates over a
  // map and is not fixed by the code, the random draws, and an identifier for a document without one.
  datatype Supply = Supply(replace: string -> string, draws: seq<nat>, freshID: string)

  ghost predicate SupplyFits(doc: Document, supply: Supply) {
    DrawsInRange(supply.draws, LastIndex(doc.choices))
  }

  predicate OptionTooLong(choice: ChoiceOption) {
    ByteLen(choice.identifier) > 64 || ByteLen(choice.text) > 4096
  }

  predicate TextTooLong(doc: Document) {
    ByteLen(doc.identifier) > 36 || ByteLen(doc.title) > 255 || ByteLen(doc.prompt) > 0x10_0000
  }

  function Authored(choices: seq<ChoiceOption>): seq<ChoiceOption> {
    seq(|choices|, i requires 0 <= i < |choices| => choices[i].(text := TrimSpace(choices[i].text)))
  }

  function Order(doc: Document, supply: Supply): seq<ChoiceOption>
    requires DrawsInRange(supply.draws, LastIndex(doc.choices))
  {
    FisherYates(Authored(doc.choices), LastIndex(doc.choices), supply.draws)
  }

  // ---- what the parser is for ----

  // The documents that become rows.
  ghost predicate Acceptable(doc: Document, supply: Supply)
    requires SupplyFits(doc, supply)
  {
    && (doc.identifier != "" || doc.responseIdentifier != "")
    && !TextTooLong(doc) && (forall c | c in doc.choices :: !OptionTooLong(c))
    && |doc.choices| <= MAX_OPTIONS && ValidDraws(supply.draws, LastIndex(doc.choices))
    && (var key := RemapKey(IdentifierMap(Order(doc, supply)), Join(doc.correctResponse));
        key.Some? && ByteLen(key.value) <= 255)
    && 0.0 <= doc.defaultScore <= SCORE_CEILING
  }

  // The row that an acceptable document becomes.
  ghost function RowFor(doc: Document, supply: Supply): ItemRow
    requires SupplyFits(doc, supply) && Acceptable(doc, supply)
  {
    ItemRow(
      if doc.identifier == "" then supply.freshID else doc.identifier,
      doc.title,
      supply.replace(if doc.prompt == "" then doc.title else doc.prompt),
      if doc.maxChoices > 1 then MultipleChoice else SingleChoice,
      Relabelled(Order(doc, supply)),
      RemapKey(IdentifierMap(Order(doc, supply)), Join(doc.correctResponse)).value,
      if doc.defaultScore == 0.0 then 1.0 else doc.defaultScore)
  }

  /**
   What a row says of its document: its title, its prompt or else its title, the type by how many choices
   may be made, and its score, which is 1 when none is given.
   */
  lemma RowsKeepTheirDocuments(doc: Document, supply: Supply)
    requires SupplyFits(doc, supply) && Acceptable(doc, supply)
    ensures var row := RowFor(doc, supply);
            && row.title == doc.title && (doc.identifier != "" ==> row.id == doc.identifier)
            && row.prompt == supply.replace(if doc.prompt != "" then doc.prompt else doc.title)
            && (row.itemType == MultipleChoice <==> doc.maxChoices > 1)
            && (row.itemType == SingleChoice <==> doc.maxChoices <= 1)
            && (if doc.defaultScore == 0.0 then row.maxScore == 1.0 else row.maxScore == doc.defaultScore)
            && |row.options| == |doc.choices|
  {
  }

  // Labels joined with commas take two bytes each, less one.
  lemma {:induction false} LabelsJoined(labels: seq<string>)
    requires labels != [] && forall l | l in labels :: IsLabel(l)
    ensures ByteLen(Join(labels)) == 2 * |labels| - 1
  {
    assert labels[0] in labels;
    ByteLenOfOne(labels[0][0]);
    assert labels[0] == [labels[0][0]];
    if |labels| > 1 {
      LabelsJoined(labels[1..]);
      ByteLenOfOne(COMMA);
      ByteLenAdds(labels[0] + [COMMA], Join(labels[1..]));
      ByteLenAdds(labels[0], [COMMA]);
    }
  }

  lemma RelabelledLength(m: map<string, string>, key: string)
    requires LabelsApart(m) && Mappable(m, key)
    ensures ByteLen(RelabelAnswer(m, key).value) == 2 * |Parts(key)| - 1
  {
    var images := Images(m, Parts(key));
    forall l | l in images ensures IsLabel(l) {
      var i :| 0 <= i < |images| && images[i] == l;
      assert Parts(key)[i] in Parts(key);
    }
    LabelsJoined(images);
  }

  // The key is empty, or names at most 128 options.
  ghost predicate KeyNames(ids: seq<string>, key: string) {
    key == "" || (|Parts(key)| <= 128 && forall p | p in Parts(key) :: p in ids)
  }

  lemma KeyIsRead(m: map<string, string>, ids: seq<string>, key: string)
    requires LabelsApart(m) && Knows(m, ids)
    ensures (RemapKey(m, key).Some? && ByteLen(RemapKey(m, key).value) <= 255) <==> KeyNames(ids, key)
  {
    if key != "" && Mappable(m, key) {
      RelabelledLength(m, key);
    }
  }

  /**
   The documents that become rows: with a name, within the limits of texts, options and score, enough
   random draws, and a key whose parts name options.
   */
  lemma AcceptedWithinLimits(doc: Document, supply: Supply)
    requires SupplyFits(doc, supply)
    ensures Acceptable(doc, supply) <==>
              && (doc.identifier != "" || doc.responseIdentifier != "")
              && ByteLen(doc.identifier) <= 36 && ByteLen(doc.title) <= 255 && ByteLen(doc.prompt) <= 1_048_576
              && (forall c | c in doc.choices :: ByteLen(c.identifier) <= 64 && ByteLen(c.text) <= 4096)
              && |doc.choices| <= 26 && |supply.draws| == (if doc.choices == [] then 0 else |doc.choices| - 1)
              && KeyNames(Identifiers(doc.choices), Join(doc.correctResponse))
              && 0.0 <= doc.defaultScore <= 1_000_000.0
  {
    if |doc.choices| <= MAX_OPTIONS && ValidDraws(supply.draws, LastIndex(doc.choices)) {
      assert Identifiers(Authored(doc.choices)) == Identifiers(doc.choices);
      ShuffledMapKnows(Authored(doc.choices), supply.draws);
      IdentifierMapLabelsApart(Order(doc, supply));
      KeyIsRead(IdentifierMap(Order(doc, supply)), Identifiers(doc.choices), Join(doc.correctResponse));
    }
  }

  method ReadOptions(choices: seq<ChoiceOption>) returns (options: Option<seq<ChoiceOption>>)
    ensures options.Some? <==> forall c | c in choices :: !OptionTooLong(c)
    ensures options.Some? ==> options.value == Authored(choices)
  {
    var read := [];
    for i := 0 to |choices|
      invariant read == Authored(choices[..i])
      invariant forall k | 0 <= k < i :: !OptionTooLong(choices[k])
    {
      var choice := choices[i];
      if ByteLen(choice.identifier) > 64 || ByteLen(choice.text) > 4096 {
        assert OptionTooLong(choice) && choice in choices;
        return None;
      }
      read := read + [ChoiceOption(choice.identifier, TrimSpace(choice.text))];
    }
    assert choices[..|choices|] == choices;
    return Some(read);
  }

  /** A document becomes a row exactly when it is acceptable, and then it becomes that row. */
  method ParseItem(doc: Document, supply: Supply) returns (result: Result<ItemRow, ParseError>)
    requires SupplyFits(doc, supply)
    ensures result.Success? <==> Acceptable(doc, supply)
    ensures result.Success? ==> result.value == RowFor(doc, supply)
  {
    if doc.identifier == "" && doc.responseIdentifier == "" {
      return Failure(NotAnItem);
    }
    if ByteLen(doc.identifier) > 36 || ByteLen(doc.title) > 255 || ByteLen(doc.prompt) > 0x10_0000 {
      return Failure(ParseError.TextTooLong);
    }
    var prompt := doc.prompt;
    if prompt == "" {
      prompt := doc.title;
    }
    prompt := supply.replace(prompt);
    var options := ReadOptions(doc.choices);
    if options.None? {
      return Failure(ParseError.OptionTooLong);
    }
    var balanced := BalanceOptionsKey(options.value, supply.draws);
    if balanced.Failure? {
      return Failure(NotShuffled(balanced.error));
    }
    var correctAnswer := RemapKeyInPlace(balanced.value.1, Join(doc.correctResponse));
    if correctAnswer.None? {
      return Failure(UnknownOption);
    }
    if ByteLen(correctAnswer.value) > 255 {
      return Failure(KeyTooLong);
    }
    var maxScore := doc.defaultScore;
    if maxScore == 0.0 {
      maxScore := 1.0;
    }
    if maxScore < 0.0 || maxScore > 1_000_000.0 {
      return Failure(InvalidScore);
    }
    var itemType := SingleChoice;
    if doc.maxChoices > 1 {
      itemType := MultipleChoice;
    }
    var itemID := doc.identifier;
    if itemID == "" {
      itemID := supply.freshID;
    }
    return Success(ItemRow(itemID, doc.title, prompt, itemType, balanced.value.0, correctAnswer.value, maxScore));
  }

  // ---- what an imported item keeps ----

  function AuthoredItem(doc: Document, row: ItemRow): Item {
    Item(row.itemType, Join(doc.correctResponse), row.maxScore)
  }

  function ImportedItem(row: ItemRow): Item {
    Item(row.itemType, row.correctAnswer, row.maxScore)
  }

  // Every response that names options is marked as its author meant it.
  ghost predicate MarksAsAuthored(fold: char -> char, doc: Document, supply: Supply, row: ItemRow)
    requires SupplyFits(doc, supply) && |doc.choices| <= MAX_OPTIONS
  {
    var m := IdentifierMap(Order(doc, supply));
    forall response | Mappable(m, response) ::
      Correct(fold, AuthoredItem(doc, row), response)
      <==> Correct(fold, ImportedItem(row), RelabelAnswer(m, response).value)
  }

  /**
   An imported item is one that the marking can score, and its options carry the authored texts, each
   as often as it was authored.
   */
  lemma ImportKeepsTheTexts(doc: Document, supply: Supply, row: ItemRow)
    requires SupplyFits(doc, supply) && Acceptable(doc, supply) && row == RowFor(doc, supply)
    ensures ValidScore(row.maxScore)
    ensures multiset(Texts(row.options)) == multiset(Texts(Authored(doc.choices)))
  {
    var options, last := Authored(doc.choices), LastIndex(doc.choices);
    TextsFollowTheShuffle(options, last, supply.draws);
    FisherYatesPermutes(Texts(options), last, supply.draws);
    assert Texts(row.options) == Texts(Order(doc, supply));
  }

  lemma AuthoredMarking(fold: char -> char, doc: Document, supply: Supply, row: ItemRow)
    requires SupplyFits(doc, supply) && Acceptable(doc, supply) && row == RowFor(doc, supply)
    ensures MarksAsAuthored(fold, doc, supply, row) <==>
            MarkingKept(fold, row.itemType, row.maxScore, IdentifierMap(Order(doc, supply)), Join(doc.correctResponse))
  {
  }

  /**
   An imported multiple-choice item marks every response that names options as authored exactly when
   its key is empty or not blank.
   */
  lemma ImportKeepsMultipleChoice(fold: char -> char, doc: Document, supply: Supply, row: ItemRow)
    requires SupplyFits(doc, supply) && Acceptable(doc, supply) && row == RowFor(doc, supply)
    requires row.itemType == MultipleChoice
    ensures MarksAsAuthored(fold, doc, supply, row)
            <==> (Join(doc.correctResponse) == "" || TrimSpace(Join(doc.correctResponse)) != "")
  {
    MultipleChoiceMarkingKept(fold, Authored(doc.choices), supply.draws, Join(doc.correctResponse), row.maxScore);
    AuthoredMarking(fold, doc, supply, row);
  }

  /**
   A single-choice item with one correct value marks as authored exactly when the value is unique up to
   letter case.
   */
  lemma ImportKeepsSingleChoice(fold: char -> char, doc: Document, supply: Supply, row: ItemRow)
    requires SupplyFits(doc, supply) && Acceptable(doc, supply) && row == RowFor(doc, supply) && IsCaseFolding(fold)
    requires |doc.correctResponse| == 1 && COMMA !in doc.correctResponse[0] && TrimSpace(doc.correctResponse[0]) != ""
    requires row.itemType == SingleChoice
    ensures MarksAsAuthored(fold, doc, supply, row)
            <==> UniqueUpToCase(fold, Identifiers(doc.choices), TrimSpace(doc.correctResponse[0]))
  {
    assert Identifiers(Authored(doc.choices)) == Identifiers(doc.choices);
    SingleChoiceMarkingKept(fold, Authored(doc.choices), supply.draws, doc.correctResponse[0], row.maxScore);
    AuthoredMarking(fold, doc, supply, row);
  }

  // ---- documents whose marking changes ----

  function Plain(choices: seq<ChoiceOption>, key: string, maxChoices: int): Document {
    Document("q", "", "", "", maxChoices, choices, [key], 1.0)
  }

  function Drawing(draws: seq<nat>): Supply {
    Supply(prompt => prompt, draws, "")
  }

  // The import accepts a short document whose draws leave the options in place and whose key names some.
  lemma PlainIsAcceptable(doc: Document, key: string, draws: seq<nat>, mapped: string)
    requires doc.identifier != "" && !TextTooLong(doc) && doc.correctResponse == [key] && doc.defaultScore == 1.0
    requires 0 < |doc.choices| <= MAX_OPTIONS
    requires Authored(doc.choices) == doc.choices && forall c | c in doc.choices :: !OptionTooLong(c)
    requires ValidDraws(draws, LastIndex(doc.choices))
        && FisherYates(doc.choices, LastIndex(doc.choices), draws) == doc.choices
    requires RemapKey(IdentifierMap(doc.choices), key) == Some(mapped) && ByteLen(mapped) <= 255
    ensures SupplyFits(doc, Drawing(draws)) && Order(doc, Drawing(draws)) == doc.choices
        && Acceptable(doc, Drawing(draws))
  {
    assert Join([key]) == key;
  }

  lemma PlainIsShort(choices: seq<ChoiceOption>, key: string, maxChoices: int)
    ensures !TextTooLong(Plain(choices, key, maxChoices))
  {
    BytesAtMost("q");
  }

  lemma BytesAtMost(s: string)
    ensures ByteLen(s) <= 4 * |s|
  {
  }

  lemma ShortOption(id: string, text: string)
    requires |id| <= 1 && |text| == 1 && !IsSpace(text[0])
    ensures !OptionTooLong(ChoiceOption(id, text)) && TrimSpace(text) == text
  {
    BytesAtMost(id);
    BytesAtMost(text);
  }

  lemma ShortLabel(m: map<string, string>, id: string)
    requires id in m && IsLabel(m[id])
    ensures ByteLen(m[id]) <= 255
  {
    BytesAtMost(m[id]);
  }

  lemma TrimmedAlready(choices: seq<ChoiceOption>)
    requires forall c | c in choices :: TrimSpace(c.text) == c.text
    ensures Authored(choices) == choices
  {
    forall i | 0 <= i < |choices| ensures Authored(choices)[i] == choices[i] {
      assert choices[i] in choices;
    }
  }

  lemma TwoInPlace<T>(s: seq<T>)
    requires |s| == 2
    ensures ValidDraws([1], 1) && FisherYates(s, 1, [1]) == s
  {
    assert Swap(s, 1, 1) == s && [1][1..] == [];
  }

  /** A document that the import accepts and does not mark as authored: a blank key, an option without an identifier. */
  lemma BlankKeyDocument(fold: char -> char) returns (doc: Document, supply: Supply)
    ensures SupplyFits(doc, supply) && Acceptable(doc, supply) && RowFor(doc, supply).itemType == MultipleChoice
    ensures !MarksAsAuthored(fold, doc, supply, RowFor(doc, supply))
  {
    var choices := [ChoiceOption("", "x")];
    doc, supply := Plain(choices, " ", 2), Drawing([]);
    BlankKeyIsNamed();
    ShortLabel(IdentifierMap(choices), "");
    ShortOption("", "x");
    TrimmedAlready(choices);
    PlainIsShort(choices, " ", 2);
    PlainIsAcceptable(doc, " ", [], IdentifierMap(choices)[""]);
    assert Join([" "]) == " " && TrimLeft(" ") == "";
    ImportKeepsMultipleChoice(fold, doc, supply, RowFor(doc, supply));
  }

  /** Another one: a single-choice item with identifiers that differ in letter case only. */
  lemma CaseOnlyDocument(fold: char -> char) returns (doc: Document, supply: Supply)
    requires IsCaseFolding(fold) && fold('a') == fold('A')
    ensures SupplyFits(doc, supply) && Acceptable(doc, supply) && RowFor(doc, supply).itemType == SingleChoice
    ensures !MarksAsAuthored(fold, doc, supply, RowFor(doc, supply))
  {
    doc, supply := Plain(CaseOnlyOptions(), "a", 1), Drawing([1]);
    CaseOnlyIsAccepted();
    CaseOnlyKeyIsNamed();
    CaseOnlyIdentifiersClash(fold);
    ClashingIsNotAsAuthored(fold, doc, supply);
  }

  lemma CaseOnlyIsAccepted()
    ensures var doc, supply := Plain(CaseOnlyOptions(), "a", 1), Drawing([1]);
            SupplyFits(doc, supply) && Order(doc, supply) == CaseOnlyOptions() && Acceptable(doc, supply)
  {
    CaseOnlyKeyIsNamed();
    ShortLabel(IdentifierMap(CaseOnlyOptions()), "a");
    ShortOptions(CaseOnlyOptions());
    TwoOptionsAccepted(CaseOnlyOptions(), "a", IdentifierMap(CaseOnlyOptions())["a"]);
  }

  lemma ShortOptions(choices: seq<ChoiceOption>)
    requires forall c | c in choices :: |c.identifier| <= 1 && |c.text| == 1 && !IsSpace(c.text[0])
    ensures forall c | c in choices :: !OptionTooLong(c) && TrimSpace(c.text) == c.text
  {
    forall c | c in choices ensures !OptionTooLong(c) && TrimSpace(c.text) == c.text {
      ShortOption(c.identifier, c.text);
    }
  }

  lemma ClashingIsNotAsAuthored(fold: char -> char, doc: Document, supply: Supply)
    requires SupplyFits(doc, supply) && Acceptable(doc, supply) && IsCaseFolding(fold) && doc.maxChoices == 1
    requires |doc.correctResponse| == 1 && COMMA !in doc.correctResponse[0] && TrimSpace(doc.correctResponse[0]) != ""
    requires !UniqueUpToCase(fold, Identifiers(doc.choices), TrimSpace(doc.correctResponse[0]))
    ensures !MarksAsAuthored(fold, doc, supply, RowFor(doc, supply))
  {
    ImportKeepsSingleChoice(fold, doc, supply, RowFor(doc, supply));
  }

  lemma TwoOptionsAccepted(choices: seq<ChoiceOption>, key: string, mapped: string)
    requires |choices| == 2 && forall c | c in choices :: !OptionTooLong(c) && TrimSpace(c.text) == c.text
    requires RemapKey(IdentifierMap(choices), key) == Some(mapped) && ByteLen(mapped) <= 255
    ensures var doc, supply := Plain(choices, key, 1), Drawing([1]);
            SupplyFits(doc, supply) && Order(doc, supply) == choices && Acceptable(doc, supply)
  {
    TrimmedAlready(choices);
    TwoInPlace(choices);
    PlainIsShort(choices, key, 1);
    PlainIsAcceptable(Plain(choices, key, 1), key, [1], mapped);
  }

  function Texts(options: seq<ChoiceOption>): seq<string> {
    seq(|options|, i requires 0 <= i < |options| => options[i].text)
  }

  // The texts are shuffled as their options are.
  lemma {:induction false} TextsFollowTheShuffle(options: seq<ChoiceOption>, top: nat, draws: seq<nat>)
    requires (options == [] && top == 0) || top < |options|
    requires DrawsInRange(draws, top)
    ensures Texts(FisherYates(options, top, draws)) == FisherYates(Texts(options), top, draws)
    decreases |draws|
  {
    if draws != [] {
      assert Texts(Swap(options, top, draws[0])) == Swap(Texts(options), top, draws[0]);
      TextsFollowTheShuffle(Swap(options, top, draws[0]), top - 1, draws[1..]);
    }
  }
}
