/** Marking one response against an item's key. */
module Scoring {
  import opened Wrappers
  import opened Text

  datatype ItemType = SingleChoice | MultipleChoice | ShortAnswer | UnknownType

  datatype Item = Item(itemType: ItemType, correctAnswer: string, maxScore: real)

  const SCORE_CEILING: real := 1_000_000.0

  // A positive score or weight that is no larger than the ceiling.
  predicate ValidScore(x: real) {
    0.0 < x <= SCORE_CEILING
  }

  // Comparison up to letter case. `fold` sends a code point to the representative of its
  // simple-case-folding orbit.
  predicate EqualFold(fold: char -> char, a: string, b: string) {
    |a| == |b| && forall i | 0 <= i < |a| :: fold(a[i]) == fold(b[i])
  }

  /**
   What it means for a response to be right. A multiple-choice response is right when it lists the
   key's parts, each as often as the key does, in any order.
   */
  predicate Correct(fold: char -> char, item: Item, response: string) {
    && ValidScore(item.maxScore)
    && TrimSpace(response) != "" && TrimSpace(item.correctAnswer) != ""
    && match item.itemType
       case SingleChoice => EqualFold(fold, TrimSpace(response), TrimSpace(item.correctAnswer))
       case ShortAnswer => EqualFold(fold, TrimSpace(response), TrimSpace(item.correctAnswer))
       case MultipleChoice => multiset(Parts(response)) == multiset(Parts(item.correctAnswer))
       case UnknownType => false
  }

  function Score(fold: char -> char, item: Item, response: string): real {
    if Correct(fold, item, response) then item.maxScore else 0.0
  }

  method TrimmedParts(s: string) returns (parts: array<string>)
    ensures fresh(parts) && parts[..] == Parts(s)
  {
    var raw := Split(s);
    parts := new string[|raw|](i requires 0 <= i < |raw| => raw[i]);
    for i := 0 to parts.Length
      invariant forall k | 0 <= k < i :: parts[k] == TrimSpace(raw[k])
      invariant forall k | i <= k < parts.Length :: parts[k] == raw[k]
    {
      parts[i] := TrimSpace(parts[i]);
    }
  }

  /**
   The marking the service runs: it trims both sides, and for a multiple-choice item it splits,
   trims and sorts both lists in place and compares them joined again.
   */
  method ScoreItem(fold: char -> char, item: Option<Item>, responseData: string) returns (score: real, isCorrect: bool)
    ensures isCorrect <==> item.Some? && Correct(fold, item.value, responseData)
    ensures score == if isCorrect then item.value.maxScore else 0.0
  {
    if item.None? || item.value.maxScore <= 0.0 || item.value.maxScore > SCORE_CEILING {
      return 0.0, false;
    }
    var cleanResponse := TrimSpace(responseData);
    var cleanAnswer := TrimSpace(item.value.correctAnswer);
    if cleanResponse == "" || cleanAnswer == "" {
      return 0.0, false;
    }
    match item.value.itemType {
      case SingleChoice =>
        if EqualFold(fold, cleanResponse, cleanAnswer) {
          return item.value.maxScore, true;
        }
      case MultipleChoice =>
        var responseParts := TrimmedParts(cleanResponse);
        var answerParts := TrimmedParts(cleanAnswer);
        SortInPlace(responseParts);
        SortInPlace(answerParts);
        JoinedSortedPartsDecide(responseData, item.value.correctAnswer);
        if Join(responseParts[..]) == Join(answerParts[..]) {
          return item.value.maxScore, true;
        }
      case ShortAnswer =>
        if EqualFold(fold, cleanResponse, cleanAnswer) {
          return item.value.maxScore, true;
        }
      case UnknownType =>
    }
    return 0.0, false;
  }

  // ---- which answers are right ----

  /** The key itself is right exactly when the item can be scored, and the key is not blank. */
  lemma OwnKeyIsRight(fold: char -> char, itemType: ItemType, key: string, maxScore: real)
    ensures Correct(fold, Item(itemType, key, maxScore), key)
            <==> 0.0 < maxScore <= 1_000_000.0 && TrimSpace(key) != "" && itemType != UnknownType
  {
  }

  /** Blanks around a response or a key, and around the parts of a list, change no mark. */
  lemma BlanksChangeNothing(fold: char -> char, item: Item, response: string)
    ensures Correct(fold, item, TrimSpace(response)) <==> Correct(fold, item, response)
    ensures Correct(fold, item.(correctAnswer := TrimSpace(item.correctAnswer)), response)
            <==> Correct(fold, item, response)
  {
    TrimIsIdempotent(response);
    TrimIsIdempotent(item.correctAnswer);
    PartsIgnoreOuterBlanks(response);
    PartsIgnoreOuterBlanks(item.correctAnswer);
  }

  lemma TrimOfOne(blank: string, c: char)
    requires !IsSpace(c) && (blank == "" || blank == " ")
    ensures TrimSpace(blank + [c]) == [c]
  {
    assert TrimLeft([c]) == [c] && TrimRight([c]) == [c];
    if blank == " " {
      assert (blank + [c])[0] == ' ' && (blank + [c])[1..] == [c];
    } else {
      assert blank + [c] == [c];
    }
  }

  lemma SplitOfTwo(a: string, rest: string)
    requires COMMA !in a && COMMA !in rest
    ensures Parts(a + "," + rest) == [TrimSpace(a), TrimSpace(rest)]
  {
    assert a + "," + rest == a + [COMMA] + rest;
    SplitOfPartThenRest(a, rest);
    SplitOfPart(rest);
    assert Split(a + "," + rest) == [a, rest];
  }

  // Two letters with a comma between, and perhaps a blank after it.
  lemma PartsOfTwo(a: char, blank: string, c: char)
    requires !IsSpace(a) && !IsSpace(c) && a != ',' && c != ',' && (blank == "" || blank == " ")
    ensures Parts([a] + "," + (blank + [c])) == [[a], [c]]
  {
    SplitOfTwo([a], blank + [c]);
    TrimOfOne("", a);
    TrimOfOne(blank, c);
    assert "" + [a] == [a];
  }

  lemma NotBlank(s: string)
    requires s != "" && !IsSpace(s[0])
    ensures TrimSpace(s) != ""
  {
    var right := TrimRightTakesBlanks(TrimLeft(s));
  }

  /**
   The example of the comment, for any two letters: a key of two parts is met in any order, with blanks
   after the comma, and not by one of its parts alone.
   */
  lemma ListsAreComparedAsMultisets(fold: char -> char, a: char, c: char)
    requires !IsSpace(a) && !IsSpace(c) && a != ',' && c != ','
    ensures Correct(fold, Item(MultipleChoice, [a] + "," + [c], 1.0), [c] + ", " + [a])
    ensures !Correct(fold, Item(MultipleChoice, [a] + "," + [c], 1.0), [a])
  {
    PartsOfTwo(a, "", c);
    PartsOfTwo(c, " ", a);
    assert [a] + "," + ("" + [c]) == [a] + "," + [c];
    assert [c] + "," + (" " + [a]) == [c] + ", " + [a];
    NotBlank([a] + "," + [c]);
    NotBlank([c] + ", " + [a]);
    SplitOfPart([a]);
    assert |multiset([[a], [c]])| == 2 && |multiset(Parts([a]))| == 1;
    assert multiset([[a], [c]]) == multiset([[c], [a]]);
  }

  // ---- exact comparison ----

  // What the comment on the marking promises of a single choice: the response is the key.
  ghost predicate MarksExactly(fold: char -> char, itemType: ItemType, key: string, maxScore: real) {
    forall response ::
      Correct(fold, Item(itemType, key, maxScore), response) <==> TrimSpace(response) == TrimSpace(key)
  }

  // Only itself is equal to the string up to letter case.
  ghost predicate FoldsAlone(fold: char -> char, s: string) {
    forall i, c | 0 <= i < |s| && fold(c) == fold(s[i]) :: c == s[i]
  }

  // Letter case does not make a blank of another character.
  ghost predicate KeepsBlanks(fold: char -> char) {
    forall c, d | fold(c) == fold(d) && IsSpace(c) :: c == d
  }

  /**
   Single-choice and short-answer marking compares with a key exactly if and only if the item can be
   scored, its key is not blank, and no character of the trimmed key has another letter case.
   */
  lemma ExactExactlyWhenCaseless(fold: char -> char, itemType: ItemType, key: string, maxScore: real)
    requires KeepsBlanks(fold) && itemType in {SingleChoice, ShortAnswer}
    ensures MarksExactly(fold, itemType, key, maxScore)
            <==> 0.0 < maxScore <= 1_000_000.0 && TrimSpace(key) != "" && FoldsAlone(fold, TrimSpace(key))
  {
    var k := TrimSpace(key);
    if FoldsAlone(fold, k) {
      forall response | EqualFold(fold, TrimSpace(response), k) ensures TrimSpace(response) == k {
      }
    }
    if MarksExactly(fold, itemType, key, maxScore) {
      assert Correct(fold, Item(itemType, key, maxScore), key);
      forall i, c | 0 <= i < |k| && fold(c) == fold(k[i]) ensures c == k[i] {
        OtherCaseIsRight(fold, itemType, key, maxScore, i, c);
      }
    }
  }

  // The key with one character in another letter case is a right response.
  lemma OtherCaseIsRight(fold: char -> char, itemType: ItemType, key: string, maxScore: real, i: nat, c: char)
    requires ValidScore(maxScore) && KeepsBlanks(fold) && itemType in {SingleChoice, ShortAnswer}
    requires i < |TrimSpace(key)| && fold(c) == fold(TrimSpace(key)[i])
    ensures var response := TrimSpace(key)[i := c];
            TrimSpace(response) == response && Correct(fold, Item(itemType, key, maxScore), response)
  {
    TrimSpaceTrims(key);
    assert Trimmed(TrimSpace(key)[i := c]);
  }

  /** A response that the comment calls wrong and that is marked right: another letter case. */
  lemma OtherCaseIsNotExact(fold: char -> char)
    requires fold('a') == fold('A')
    ensures Correct(fold, Item(SingleChoice, "a", 1.0), "A") && TrimSpace("A") != TrimSpace("a")
    ensures !MarksExactly(fold, SingleChoice, "a", 1.0)
  {
    assert TrimSpace("a") == "a" && TrimSpace("A") == "A";
    assert "A"[0] != "a"[0];
    assert Correct(fold, Item(SingleChoice, "a", 1.0), "A");
  }

  /**
   Comparing the joined sorted lists decides equality of multisets, for every two strings, with or
   without blanks around the lists and around the parts.
   */
  lemma JoinedSortedPartsDecide(response: string, answer: string)
    ensures Join(SortStrings(Parts(TrimSpace(response)))) == Join(SortStrings(Parts(TrimSpace(answer))))
            <==> multiset(Parts(response)) == multiset(Parts(answer))
  {
    PartsIgnoreOuterBlanks(response);
    PartsIgnoreOuterBlanks(answer);
    SortedPartsAreJoinable(response);
    SortedPartsAreJoinable(answer);
    var xs, ys := SortStrings(Parts(response)), SortStrings(Parts(answer));
    JoinInjective(xs, ys);
    if multiset(xs) == multiset(ys) {
      SortedUnique(xs, ys);
    }
  }

  lemma SortedPartsAreJoinable(s: string)
    ensures var xs := SortStrings(Parts(s)); |xs| > 0 && forall p | p in xs :: COMMA !in p
  {
    var raw, parts := Split(s), Parts(s);
    var xs := SortStrings(parts);
    assert |xs| == |multiset(xs)| == |multiset(parts)| == |parts|;
    forall p | p in xs ensures COMMA !in p {
      assert p in multiset(parts);
      var i :| 0 <= i < |parts| && parts[i] == p;
      assert raw[i] in raw;
      TrimKeepsCommaFree(raw[i]);
    }
  }
}
