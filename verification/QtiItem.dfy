/**
 Reading one choice item of a package: its options are shuffled and relabelled, and its key is
 rewritten to the new labels. The theorems say what that rewriting keeps.
 */
module QtiItem {
  import opened Wrappers
  import opened Text
  import opened Scoring
  import opened Shuffle

  // ---- rewriting an answer to the new labels ----

  predicate Mappable(m: map<string, string>, answer: string) {
    forall p | p in Parts(answer) :: p in m
  }

  function Images(m: map<string, string>, parts: seq<string>): seq<string>
    requires forall p | p in parts :: p in m
  {
    seq(|parts|, i requires 0 <= i < |parts| => m[parts[i]])
  }

  function RelabelAnswer(m: map<string, string>, answer: string): Option<string> {
    if Mappable(m, answer) then Some(Join(Images(m, Parts(answer)))) else None
  }

  // The import leaves an empty key alone.
  function RemapKey(m: map<string, string>, key: string): Option<string> {
    if key == "" then Some("") else RelabelAnswer(m, key)
  }

  method RemapKeyInPlace(m: map<string, string>, key: string) returns (mapped: Option<string>)
    ensures mapped == RemapKey(m, key)
  {
    if key == "" {
      return Some("");
    }
    var raw := Split(key);
    var answerParts := new string[|raw|](i requires 0 <= i < |raw| => raw[i]);
    for i := 0 to answerParts.Length
      invariant forall k | 0 <= k < i :: Parts(key)[k] in m && answerParts[k] == m[Parts(key)[k]]
      invariant forall k | i <= k < answerParts.Length :: answerParts[k] == raw[k]
    {
      var original := TrimSpace(answerParts[i]);
      assert original == Parts(key)[i];
      if original !in m {
        return None;
      }
      answerParts[i] := m[original];
    }
    assert answerParts[..] == Images(m, Parts(key));
    return Some(Join(answerParts[..]));
  }

  // ---- properties of the identifier map ----

  // Labels are single capital letters.
  predicate IsLabel(l: string) {
    |l| == 1 && 'A' <= l[0] <= 'Z'
  }

  // Every identifier is sent to a label, different identifiers to different labels.
  ghost predicate LabelsApart(m: map<string, string>) {
    && (forall id | id in m :: IsLabel(m[id]))
    && forall x, y | x in m && y in m && m[x] == m[y] :: x == y
  }

  function Identifiers(options: seq<ChoiceOption>): seq<string> {
    seq(|options|, k requires 0 <= k < |options| => options[k].identifier)
  }

  // The map sends exactly these identifiers somewhere.
  ghost predicate Knows(m: map<string, string>, ids: seq<string>) {
    forall id :: id in m <==> id in ids
  }

  lemma IdentifierMapKnows(order: seq<ChoiceOption>)
    requires |order| <= MAX_OPTIONS
    ensures Knows(IdentifierMap(order), Identifiers(order))
  {
    forall id ensures id in IdentifierMap(order) <==> id in Identifiers(order) {
      if i: nat :| i < |order| && Identifiers(order)[i] == id {
        assert Bears(order, i, id);
      }
      if i: nat :| Bears(order, i, id) {
        assert Identifiers(order)[i] == id;
      }
    }
  }

  /** Whatever the draws, the map knows exactly the identifiers of the options. */
  lemma ShuffledMapKnows(options: seq<ChoiceOption>, draws: seq<nat>)
    requires |options| <= MAX_OPTIONS && ValidDraws(draws, LastIndex(options))
    ensures Knows(IdentifierMap(FisherYates(options, LastIndex(options), draws)), Identifiers(options))
  {
    var order := FisherYates(options, LastIndex(options), draws);
    IdentifierMapKnows(order);
    FisherYatesPermutes(options, LastIndex(options), draws);
    SameIdentifiers(options, order);
    SameIdentifiers(order, options);
  }

  lemma SameIdentifiers(options: seq<ChoiceOption>, order: seq<ChoiceOption>)
    requires multiset(options) == multiset(order)
    ensures forall id | id in Identifiers(options) :: id in Identifiers(order)
  {
    forall id | id in Identifiers(options) ensures id in Identifiers(order) {
      var i: nat :| i < |options| && Identifiers(options)[i] == id;
      assert options[i] in multiset(order);
      var j: nat :| j < |order| && order[j] == options[i];
      assert Identifiers(order)[j] == id;
    }
  }

  lemma IdentifierMapLabelsApart(order: seq<ChoiceOption>)
    requires |order| <= MAX_OPTIONS
    ensures LabelsApart(IdentifierMap(order))
  {
    var m := IdentifierMap(order);
    assert forall i: nat | i < MAX_OPTIONS :: IsLabel(Label(i)) && Label(i)[0] as int == 'A' as int + i;
    forall x, y | x in m && y in m && m[x] == m[y] ensures x == y {
      var i :| Bears(order, i, x) && m[x] == Label(i);
      var j :| Bears(order, j, y) && m[y] == Label(j);
      assert i == j;
    }
  }

  lemma LabelIsPart(l: string)
    requires IsLabel(l)
    ensures COMMA !in l && TrimSpace(l) == l
  {
    assert l[..|l| - 1] == "" && l[1..] == "";
  }

  lemma TrimmedIsShorter(s: string)
    ensures |TrimSpace(s)| <= |s|
  {
    TrimLeftSuffix(s);
    TrimRightPrefix(TrimLeft(s));
  }

  // A relabelled answer splits back into the labels of its parts.
  lemma PartsOfRelabelled(m: map<string, string>, answer: string)
    requires LabelsApart(m) && Mappable(m, answer)
    ensures Parts(RelabelAnswer(m, answer).value) == Images(m, Parts(answer))
    ensures TrimSpace(RelabelAnswer(m, answer).value) != ""
  {
    var images := Images(m, Parts(answer));
    forall i | 0 <= i < |images|
        ensures IsLabel(images[i]) && COMMA !in images[i] && TrimSpace(images[i]) == images[i] {
      assert Parts(answer)[i] in Parts(answer);
      LabelIsPart(images[i]);
    }
    SplitJoin(images);
    assert Parts(Join(images)) == images;
    BlankHasBlankPart(Join(images));
  }

  lemma BlankHasBlankPart(s: string)
    ensures TrimSpace(s) == "" <==> Parts(s) == [""]
  {
    PartsIgnoreOuterBlanks(s);
    assert Split("") == [""];
    if Parts(s) == [""] {
      SingletonSplit(s);
      assert Parts(s)[0] == TrimSpace(s);
    }
  }

  lemma SingletonSplit(s: string)
    requires |Split(s)| == 1
    ensures Split(s) == [s] && COMMA !in s
  {
    JoinSplit(s);
    assert Split(s)[0] in Split(s);
  }

  lemma {:induction false} ImageCounts(m: map<string, string>, parts: seq<string>, x: string)
    requires forall p | p in parts :: p in m
    requires x in m && forall y | y in m && m[y] == m[x] :: y == x
    ensures multiset(Images(m, parts))[m[x]] == multiset(parts)[x]
  {
    if parts != [] {
      ImageCounts(m, parts[1..], x);
      assert parts[0] in parts;
      CountFromFirst(parts, x);
      CountFromFirst(Images(m, parts), m[x]);
      assert Images(m, parts)[1..] == Images(m, parts[1..]);
    }
  }

  // An injective renaming keeps equality of multisets, in both directions.
  lemma ImagesReflectMultisets(m: map<string, string>, xs: seq<string>, ys: seq<string>)
    requires forall p | p in xs :: p in m
    requires forall p | p in ys :: p in m
    requires forall x, y | x in m && y in m && m[x] == m[y] :: x == y
    ensures multiset(Images(m, xs)) == multiset(Images(m, ys)) <==> multiset(xs) == multiset(ys)
  {
    var mx, my := Images(m, xs), Images(m, ys);
    if multiset(mx) == multiset(my) {
      forall x ensures multiset(xs)[x] == multiset(ys)[x] {
        if x in m {
          ImageCounts(m, xs, x);
          ImageCounts(m, ys, x);
        } else {
          assert x !in xs && x !in ys;
        }
      }
    }
    if multiset(xs) == multiset(ys) {
      forall l ensures multiset(mx)[l] == multiset(my)[l] {
        if x :| x in m && m[x] == l {
          ImageCounts(m, xs, x);
          ImageCounts(m, ys, x);
        } else {
          assert l !in mx && l !in my;
        }
      }
    }
  }

  // ---- what shuffling and relabelling keep ----

  ghost predicate MarkingKept(
      fold: char -> char, itemType: ItemType, maxScore: real, m: map<string, string>, key: string)
    requires RemapKey(m, key).Some?
  {
    forall response | Mappable(m, response) ::
      Correct(fold, Item(itemType, key, maxScore), response)
      <==> Correct(fold, Item(itemType, RemapKey(m, key).value, maxScore), RelabelAnswer(m, response).value)
  }

  /**
   For every options, draws and key that the import accepts, multiple-choice marking of every
   response that names options is what it was before, exactly when the key is empty or not blank.
   Identifiers may repeat, carry blanks or contain commas: a key or response cannot name such ones.
   */
  lemma MultipleChoiceMarkingKept(
      fold: char -> char, options: seq<ChoiceOption>, draws: seq<nat>, key: string, maxScore: real)
    requires |options| <= MAX_OPTIONS && ValidDraws(draws, LastIndex(options)) && ValidScore(maxScore)
    requires RemapKey(IdentifierMap(FisherYates(options, LastIndex(options), draws)), key).Some?
    ensures MarkingKept(fold, MultipleChoice, maxScore,
        IdentifierMap(FisherYates(options, LastIndex(options), draws)), key)
            <==> (key == "" || TrimSpace(key) != "")
  {
    var m := IdentifierMap(FisherYates(options, LastIndex(options), draws));
    var before := Item(MultipleChoice, key, maxScore);
    var after := Item(MultipleChoice, RemapKey(m, key).value, maxScore);
    IdentifierMapLabelsApart(FisherYates(options, LastIndex(options), draws));
    if key == "" {
      assert !Correct(fold, before, "") && TrimSpace("") == "";
    } else {
      PartsOfRelabelled(m, key);
      if TrimSpace(key) == "" {
        assert !Correct(fold, before, key) && Correct(fold, after, RelabelAnswer(m, key).value);
      } else {
        forall response | Mappable(m, response)
          ensures Correct(fold, before, response) <==> Correct(fold, after, RelabelAnswer(m, response).value)
        {
          PartsOfRelabelled(m, response);
          ImagesReflectMultisets(m, Parts(response), Parts(key));
          if multiset(Parts(response)) == multiset(Parts(key)) {
            NonBlankByParts(response, key);
          }
        }
      }
    }
  }

  // A list with the same parts as a non-blank list is not blank.
  lemma NonBlankByParts(s: string, t: string)
    requires multiset(Parts(s)) == multiset(Parts(t)) && TrimSpace(t) != ""
    ensures TrimSpace(s) != ""
  {
    BlankHasBlankPart(s);
    BlankHasBlankPart(t);
    if Parts(s) == [""] {
      SingletonMultiset(Parts(t), "");
    }
  }

  lemma SingletonMultiset(xs: seq<string>, y: string)
    requires multiset(xs) == multiset([y])
    ensures xs == [y]
  {
    assert |xs| == |multiset(xs)| == 1;
    assert xs[0] in multiset([y]);
  }

  // Case folding tells the labels apart, and only the comma folds to the comma.
  ghost predicate IsCaseFolding(fold: char -> char) {
    && (forall c, d | 'A' <= c <= 'Z' && 'A' <= d <= 'Z' && fold(c) == fold(d) :: c == d)
    && forall c | fold(c) == fold(COMMA) :: c == COMMA
  }

  // No identifier that a response can name differs from `id` in letter case only.
  ghost predicate UniqueUpToCase(fold: char -> char, ids: seq<string>, id: string) {
    forall other | other in ids && TrimSpace(other) == other && COMMA !in other && EqualFold(fold, other, id) ::
        other == id
  }

  /**
   With one correct value, single-choice marking of every response that names options is what it
   was before, exactly when no other nameable identifier equals the key up to letter case.
   */
  lemma SingleChoiceMarkingKept(
      fold: char -> char, options: seq<ChoiceOption>, draws: seq<nat>, key: string, maxScore: real)
    requires |options| <= MAX_OPTIONS && ValidDraws(draws, LastIndex(options)) && ValidScore(maxScore)
    requires IsCaseFolding(fold) && COMMA !in key && TrimSpace(key) != ""
    requires RemapKey(IdentifierMap(FisherYates(options, LastIndex(options), draws)), key).Some?
    ensures MarkingKept(fold, SingleChoice, maxScore,
        IdentifierMap(FisherYates(options, LastIndex(options), draws)), key)
            <==> UniqueUpToCase(fold, Identifiers(options), TrimSpace(key))
  {
    IdentifierMapLabelsApart(FisherYates(options, LastIndex(options), draws));
    ShuffledMapKnows(options, draws);
    var m, ids := IdentifierMap(FisherYates(options, LastIndex(options), draws)), Identifiers(options);
    if UniqueUpToCase(fold, ids, TrimSpace(key)) {
      KeptWhenUnique(fold, m, ids, key, maxScore);
    }
    if MarkingKept(fold, SingleChoice, maxScore, m, key) {
      UniqueWhenKept(fold, m, ids, key, maxScore);
    }
  }

  lemma KeptWhenUnique(fold: char -> char, m: map<string, string>, ids: seq<string>, key: string, maxScore: real)
    requires Knows(m, ids) && LabelsApart(m) && IsCaseFolding(fold) && ValidScore(maxScore)
    requires COMMA !in key && TrimSpace(key) != "" && Mappable(m, key)
    requires UniqueUpToCase(fold, ids, TrimSpace(key))
    ensures MarkingKept(fold, SingleChoice, maxScore, m, key)
  {
    var id := TrimSpace(key);
    forall response | Mappable(m, response)
      ensures Correct(fold, Item(SingleChoice, key, maxScore), response)
              <==> Correct(fold, Item(SingleChoice, RemapKey(m, key).value, maxScore), RelabelAnswer(m, response).value)
    {
      SingleChoiceBefore(fold, key, response, maxScore);
      SingleChoiceAfter(fold, m, key, response, maxScore);
      if |Parts(response)| == 1 {
        SingletonSplit(response);
        TrimKeepsCommaFree(response);
        TrimIsIdempotent(response);
        assert Parts(response)[0] == TrimSpace(response) && Parts(response)[0] in Parts(response);
      }
    }
  }

  lemma UniqueWhenKept(fold: char -> char, m: map<string, string>, ids: seq<string>, key: string, maxScore: real)
    requires Knows(m, ids) && LabelsApart(m) && IsCaseFolding(fold) && ValidScore(maxScore)
    requires COMMA !in key && TrimSpace(key) != "" && Mappable(m, key)
    requires MarkingKept(fold, SingleChoice, maxScore, m, key)
    ensures UniqueUpToCase(fold, ids, TrimSpace(key))
  {
    var id := TrimSpace(key);
    forall other | other in ids && TrimSpace(other) == other && COMMA !in other && EqualFold(fold, other, id)
      ensures other == id
    {
      SplitOfPart(other);
      assert Parts(other) == [other];
      assert Mappable(m, other);
      SingleChoiceBefore(fold, key, other, maxScore);
      SingleChoiceAfter(fold, m, key, other, maxScore);
    }
  }

  lemma SingleChoiceBefore(fold: char -> char, key: string, response: string, maxScore: real)
    requires IsCaseFolding(fold) && COMMA !in key && TrimSpace(key) != "" && ValidScore(maxScore)
    ensures Correct(fold, Item(SingleChoice, key, maxScore), response) <==>
            |Parts(response)| == 1 && EqualFold(fold, Parts(response)[0], TrimSpace(key))
  {
    var trimmed, id := TrimSpace(response), TrimSpace(key);
    TrimKeepsCommaFree(key);
    PartsIgnoreOuterBlanks(response);
    if COMMA in trimmed {
      if EqualFold(fold, trimmed, id) {
        EqualFoldCommaFree(fold, trimmed, id);
      }
      if |Split(trimmed)| == 1 {
        SingletonSplit(trimmed);
      }
    } else {
      SplitOfPart(trimmed);
      TrimIsIdempotent(response);
      assert Parts(trimmed) == [trimmed];
    }
  }

  lemma EqualFoldCommaFree(fold: char -> char, s: string, t: string)
    requires IsCaseFolding(fold) && EqualFold(fold, s, t) && COMMA !in t
    ensures COMMA !in s
  {
    forall i | 0 <= i < |s| ensures s[i] != COMMA {
      assert t[i] in t;
      assert fold(t[i]) != fold(COMMA);
    }
  }

  lemma SingleChoiceAfter(fold: char -> char, m: map<string, string>, key: string, response: string, maxScore: real)
    requires LabelsApart(m) && IsCaseFolding(fold) && ValidScore(maxScore)
    requires COMMA !in key && TrimSpace(key) != ""
    requires Mappable(m, key) && Mappable(m, response)
    ensures Correct(fold, Item(SingleChoice, RemapKey(m, key).value, maxScore), RelabelAnswer(m, response).value)
            <==> Parts(response) == [TrimSpace(key)]
  {
    var id := TrimSpace(key);
    SplitOfPart(key);
    assert Parts(key) == [id] && id in Parts(key);
    OneLabel(m, key);
    if |Parts(response)| == 1 {
      var part := Parts(response)[0];
      assert part in Parts(response);
      OneLabel(m, response);
      assert EqualFold(fold, m[part], m[id]) <==> m[part] == m[id];
    } else {
      LongJoin(m, response);
    }
  }

  // An answer of one part is relabelled to one label.
  lemma OneLabel(m: map<string, string>, answer: string)
    requires LabelsApart(m) && |Parts(answer)| == 1 && Parts(answer)[0] in m
    ensures RelabelAnswer(m, answer) == Some(m[Parts(answer)[0]])
    ensures IsLabel(m[Parts(answer)[0]]) && TrimSpace(m[Parts(answer)[0]]) == m[Parts(answer)[0]]
  {
    assert Images(m, Parts(answer)) == [m[Parts(answer)[0]]];
    LabelIsPart(m[Parts(answer)[0]]);
  }

  // Several labels joined with commas are longer than one label.
  lemma LongJoin(m: map<string, string>, response: string)
    requires LabelsApart(m) && Mappable(m, response) && |Parts(response)| > 1
    ensures |TrimSpace(RelabelAnswer(m, response).value)| > 1
  {
    var joined := RelabelAnswer(m, response).value;
    PartsOfRelabelled(m, response);
    PartsIgnoreOuterBlanks(joined);
    var raw := Split(TrimSpace(joined));
    assert Parts(response)[0] in Parts(response);
    assert TrimSpace(raw[0]) == Images(m, Parts(response))[0];
    TrimmedIsShorter(raw[0]);
    JoinSplit(TrimSpace(joined));
  }

  // ---- the inputs for which marking changes ----

  // A blank key, and an option without an identifier: the key names the option.
  lemma BlankKeyIsNamed()
    ensures var m := IdentifierMap([ChoiceOption("", "x")]);
            "" in m && IsLabel(m[""]) && Mappable(m, " ") && RemapKey(m, " ") == Some(m[""])
  {
    var order := [ChoiceOption("", "x")];
    var m := IdentifierMap(order);
    assert Bears(order, 0, "");
    assert TrimLeft(" ") == "" && TrimSpace(" ") == "";
    SplitOfPart(" ");
    IdentifierMapLabelsApart(order);
    assert Images(m, Parts(" ")) == [m[""]];
  }

  // There a blank response, wrong before, becomes right.
  lemma BlankKeyChangesMarking(fold: char -> char)
    ensures var m := IdentifierMap([ChoiceOption("", "x")]);
            RemapKey(m, " ").Some? && !MarkingKept(fold, MultipleChoice, 1.0, m, " ")
  {
    var m := IdentifierMap([ChoiceOption("", "x")]);
    BlankKeyIsNamed();
    LabelIsPart(m[""]);
    assert TrimLeft(" ") == "" && TrimSpace(" ") == "";
    assert !Correct(fold, Item(MultipleChoice, " ", 1.0), " ");
    assert Correct(fold, Item(MultipleChoice, RemapKey(m, " ").value, 1.0), RelabelAnswer(m, " ").value);
  }

  function CaseOnlyOptions(): seq<ChoiceOption> {
    [ChoiceOption("a", "x"), ChoiceOption("A", "y")]
  }

  // Identifiers that differ in letter case only: the key names its option.
  lemma CaseOnlyKeyIsNamed()
    ensures var m := IdentifierMap(CaseOnlyOptions());
            "a" in m && "A" in m && IsLabel(m["a"]) && RemapKey(m, "a") == Some(m["a"])
    ensures COMMA !in "a" && TrimSpace("a") == "a"
  {
    var order := CaseOnlyOptions();
    var m := IdentifierMap(order);
    assert Bears(order, 0, "a") && Bears(order, 1, "A");
    SplitOfPart("a");
    assert TrimSpace("a") == "a";
    assert Parts("a") == ["a"];
    IdentifierMapLabelsApart(order);
    assert Images(m, Parts("a")) == [m["a"]];
  }

  lemma CaseOnlyIdentifiersClash(fold: char -> char)
    requires fold('a') == fold('A')
    ensures !UniqueUpToCase(fold, Identifiers(CaseOnlyOptions()), "a")
  {
    assert Identifiers(CaseOnlyOptions())[1] == "A" && TrimSpace("A") == "A";
    assert "A"[0] != "a"[0] && EqualFold(fold, "A", "a");
  }

  // There a response that was right becomes wrong.
  lemma CaseOnlyIdentifiersChangeMarking(fold: char -> char)
    requires IsCaseFolding(fold) && fold('a') == fold('A')
    ensures var m := IdentifierMap(CaseOnlyOptions());
            RemapKey(m, "a").Some? && !MarkingKept(fold, SingleChoice, 1.0, m, "a")
  {
    var m := IdentifierMap(CaseOnlyOptions());
    CaseOnlyKeyIsNamed();
    CaseOnlyIdentifiersClash(fold);
    IdentifierMapLabelsApart(CaseOnlyOptions());
    IdentifierMapKnows(CaseOnlyOptions());
    if MarkingKept(fold, SingleChoice, 1.0, m, "a") {
      UniqueWhenKept(fold, m, Identifiers(CaseOnlyOptions()), "a", 1.0);
    }
  }

  // The option of a relabelled list that a label names.
  ghost predicate NamedBy(list: seq<ChoiceOption>, name: string, i: nat) {
    && i < |list| && list[i].identifier == name
    && forall j: nat | j < |list| && list[j].identifier == name :: j == i
  }

  /**
   Every identifier in the map gets the label of exactly one option of the shuffled list, and that
   option carries a text that an option with the identifier had: with distinct identifiers, the text.
   */
  lemma LabelNamesOriginalText(options: seq<ChoiceOption>, draws: seq<nat>, id: string)
    returns (i: nat, k: nat)
    requires |options| <= MAX_OPTIONS && ValidDraws(draws, LastIndex(options))
    requires id in IdentifierMap(FisherYates(options, LastIndex(options), draws))
    ensures var order := FisherYates(options, LastIndex(options), draws);
            && NamedBy(Relabelled(order), IdentifierMap(order)[id], i)
            && k < |options| && options[k] == ChoiceOption(id, Relabelled(order)[i].text)
            && (Distinct(Identifiers(options)) ==>
                  forall other: nat | other < |options| && options[other].identifier == id :: other == k)
  {
    var order := FisherYates(options, LastIndex(options), draws);
    FisherYatesPermutes(options, LastIndex(options), draws);
    i := NamedOption(order, id);
    assert order[i] in multiset(options);
    k :| k < |options| && options[k] == order[i];
    forall other: nat | Distinct(Identifiers(options)) && other < |options| && options[other].identifier == id
      ensures other == k
    {
      assert Identifiers(options)[other] == Identifiers(options)[k];
    }
  }

  lemma NamedOption(order: seq<ChoiceOption>, id: string) returns (i: nat)
    requires |order| <= MAX_OPTIONS && id in IdentifierMap(order)
    ensures NamedBy(Relabelled(order), IdentifierMap(order)[id], i) && order[i].identifier == id
  {
    assert forall j: nat | j < MAX_OPTIONS :: Label(j)[0] as int == 'A' as int + j;
    i :| Bears(order, i, id) && IdentifierMap(order)[id] == Label(i);
    forall j: nat | j < |order| && Relabelled(order)[j].identifier == IdentifierMap(order)[id] ensures j == i {
      assert Label(j) == Label(i);
    }
  }
}
