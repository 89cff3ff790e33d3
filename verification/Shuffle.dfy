/**
 The option shuffle: a Fisher-Yates pass over a copy of the options, fresh labels A, B, C, ... in
 the shuffled order, and the map from old identifiers to new labels that the answer key follows.
 */
module Shuffle {
  import opened Wrappers

  datatype ChoiceOption = ChoiceOption(identifier: string, text: string)

  datatype ShuffleError = TooManyOptions | EntropyFailed

  const MAX_OPTIONS := 26

  // ---- the order ----

  function Swap<T>(s: seq<T>, i: nat, j: nat): seq<T>
    requires i < |s| && j < |s|
  {
    s[i := s[j]][j := s[i]]
  }

  // One draw for every index from `top` down to 1: the draw for index i lies in 0..i.
  ghost predicate ValidDraws(draws: seq<nat>, top: nat) {
    |draws| == top && DrawsInRange(draws, top)
  }

  ghost predicate DrawsInRange(draws: seq<nat>, top: nat) {
    |draws| <= top && forall k | 0 <= k < |draws| :: draws[k] <= top - k
  }

  // The order after swapping index top with draws[0], then top - 1 with draws[1], and so on.
  function FisherYates<T>(s: seq<T>, top: nat, draws: seq<nat>): (r: seq<T>)
    requires (s == [] && top == 0) || top < |s|
    requires DrawsInRange(draws, top)
    ensures |r| == |s|
    decreases |draws|
  {
    if draws == [] then s else FisherYates(Swap(s, top, draws[0]), top - 1, draws[1..])
  }

  function LastIndex<T>(s: seq<T>): nat {
    if s == [] then 0 else |s| - 1
  }

  lemma SwapPermutes<T>(s: seq<T>, i: nat, j: nat)
    requires i < |s| && j < |s|
    ensures multiset(Swap(s, i, j)) == multiset(s)
  {
  }

  // The elements above `top` are settled.
  lemma {:induction false} FisherYatesKeepsAbove<T>(s: seq<T>, top: nat, draws: seq<nat>)
    requires (s == [] && top == 0) || top < |s|
    requires DrawsInRange(draws, top)
    ensures forall k | top < k < |s| :: FisherYates(s, top, draws)[k] == s[k]
    decreases |draws|
  {
    if draws != [] {
      FisherYatesKeepsAbove(Swap(s, top, draws[0]), top - 1, draws[1..]);
    }
  }

  lemma {:induction false} FisherYatesPermutes<T>(s: seq<T>, top: nat, draws: seq<nat>)
    requires (s == [] && top == 0) || top < |s|
    requires DrawsInRange(draws, top)
    ensures multiset(FisherYates(s, top, draws)) == multiset(s)
    decreases |draws|
  {
    if draws != [] {
      SwapPermutes(s, top, draws[0]);
      FisherYatesPermutes(Swap(s, top, draws[0]), top - 1, draws[1..]);
    }
  }

  ghost predicate Distinct<T>(s: seq<T>) {
    forall i, j | 0 <= i < j < |s| :: s[i] != s[j]
  }

  // The draws that lead from `s` to `target`, which agree above `top`.
  ghost function DrawsFor<T>(s: seq<T>, top: nat, target: seq<T>): (draws: seq<nat>)
    requires (s == [] && top == 0) || top < |s|
    requires multiset(s) == multiset(target) && |s| == |target|
    requires s != [] ==> s[top + 1..] == target[top + 1..]
    ensures ValidDraws(draws, top)
    ensures FisherYates(s, top, draws) == target
    decreases top
  {
    if top == 0 then
      OneElementLeft(s, target);
      []
    else
      TargetElementBelow(s, top, target);
      var j: nat :| j <= top && s[j] == target[top];
      SwapSettlesTop(s, top, j, target);
      var rest := DrawsFor(Swap(s, top, j), top - 1, target);
      DrawnFirst(s, top, j, rest);
      [j] + rest
  }

  lemma DrawnFirst<T>(s: seq<T>, top: nat, j: nat, rest: seq<nat>)
    requires j <= top && 0 < top < |s| && ValidDraws(rest, top - 1)
    ensures ValidDraws([j] + rest, top)
    ensures FisherYates(s, top, [j] + rest) == FisherYates(Swap(s, top, j), top - 1, rest)
  {
    assert ([j] + rest)[1..] == rest;
  }

  // Bringing the target's element to the top leaves one place less to settle.
  lemma SwapSettlesTop<T>(s: seq<T>, top: nat, j: nat, target: seq<T>)
    requires j <= top < |s| == |target| && s[j] == target[top] && s[top + 1..] == target[top + 1..]
    ensures multiset(Swap(s, top, j)) == multiset(s) && Swap(s, top, j)[top..] == target[top..]
  {
    SwapPermutes(s, top, j);
    assert Swap(s, top, j)[top..] == [target[top]] + s[top + 1..];
    assert target[top..] == [target[top]] + target[top + 1..];
  }

  lemma MultisetPrefix<T>(s: seq<T>, target: seq<T>, n: nat)
    requires n <= |s| == |target| && multiset(s) == multiset(target) && s[n..] == target[n..]
    ensures multiset(s[..n]) == multiset(target[..n])
  {
    assert s == s[..n] + s[n..] && target == target[..n] + target[n..];
    assert multiset(s[..n]) == multiset(s) - multiset(s[n..]);
    assert multiset(target[..n]) == multiset(target) - multiset(target[n..]);
  }

  lemma OneElementLeft<T>(s: seq<T>, target: seq<T>)
    requires |s| == |target| && multiset(s) == multiset(target)
    requires s != [] ==> s[1..] == target[1..]
    ensures s == target
  {
    if s != [] {
      MultisetPrefix(s, target, 1);
      assert s[..1] == [s[0]] && target[..1] == [target[0]];
      assert s[0] in multiset(target[..1]);
      assert s == s[..1] + s[1..] && target == target[..1] + target[1..];
    }
  }

  lemma TargetElementBelow<T>(s: seq<T>, top: nat, target: seq<T>)
    requires top < |s| == |target| && multiset(s) == multiset(target) && s[top + 1..] == target[top + 1..]
    ensures exists j: nat :: j <= top && s[j] == target[top]
  {
    MultisetPrefix(s, target, top + 1);
    assert target[..top + 1][top] in multiset(target[..top + 1]);
    assert target[top] in s[..top + 1];
  }

  lemma SwapKeepsDistinct<T>(s: seq<T>, i: nat, j: nat)
    requires i < |s| && j < |s| && Distinct(s)
    ensures Distinct(Swap(s, i, j))
  {
  }

  // The first swap settles the element at the top for good.
  lemma TopElementIsDrawn<T>(s: seq<T>, top: nat, draws: seq<nat>)
    requires 0 < top < |s| && ValidDraws(draws, top)
    ensures FisherYates(s, top, draws)[top] == s[draws[0]]
  {
    FisherYatesKeepsAbove(Swap(s, top, draws[0]), top - 1, draws[1..]);
  }

  lemma {:induction false} DrawsDeterminedByOrder<T>(s: seq<T>, top: nat, d: seq<nat>, e: seq<nat>)
    requires (s == [] && top == 0) || top < |s|
    requires Distinct(s) && ValidDraws(d, top) && ValidDraws(e, top)
    requires FisherYates(s, top, d) == FisherYates(s, top, e)
    ensures d == e
    decreases top
  {
    if top > 0 {
      TopElementIsDrawn(s, top, d);
      TopElementIsDrawn(s, top, e);
      assert d[0] == e[0];
      SwapKeepsDistinct(s, top, d[0]);
      DrawsDeterminedByOrder(Swap(s, top, d[0]), top - 1, d[1..], e[1..]);
      assert d == [d[0]] + d[1..] && e == [e[0]] + e[1..];
    }
  }

  /**
   The shuffle is uniform by construction: over distinct options, every order is reached by exactly
   one sequence of draws, and every sequence of draws reaches an order of the same options.
   */
  lemma ShuffleIsBijective<T>(s: seq<T>, order: seq<T>)
    requires Distinct(s) && multiset(order) == multiset(s)
    ensures exists draws :: ValidDraws(draws, LastIndex(s)) && FisherYates(s, LastIndex(s), draws) == order
    ensures forall d, e | ValidDraws(d, LastIndex(s)) && ValidDraws(e, LastIndex(s))
                          && FisherYates(s, LastIndex(s), d) == order == FisherYates(s, LastIndex(s), e) :: d == e
    ensures forall d | ValidDraws(d, LastIndex(s)) :: multiset(FisherYates(s, LastIndex(s), d)) == multiset(s)
  {
    assert |s| == |multiset(s)| == |multiset(order)| == |order|;
    var draws := DrawsFor(s, LastIndex(s), order);
    assert FisherYates(s, LastIndex(s), draws) == order;
    forall d, e | ValidDraws(d, LastIndex(s)) && ValidDraws(e, LastIndex(s))
                  && FisherYates(s, LastIndex(s), d) == order == FisherYates(s, LastIndex(s), e)
      ensures d == e
    {
      DrawsDeterminedByOrder(s, LastIndex(s), d, e);
    }
    forall d | ValidDraws(d, LastIndex(s))
      ensures multiset(FisherYates(s, LastIndex(s), d)) == multiset(s)
    {
      FisherYatesPermutes(s, LastIndex(s), d);
    }
  }

  // ---- the labels ----

  function Label(i: nat): string
    requires i < MAX_OPTIONS
  {
    [('A' as int + i) as char]
  }

  function Relabelled(order: seq<ChoiceOption>): seq<ChoiceOption>
    requires |order| <= MAX_OPTIONS
  {
    seq(|order|, i requires 0 <= i < |order| => ChoiceOption(Label(i), order[i].text))
  }

  /** The options of an item, 26 at most, are labelled A, B, C and so on in their order. */
  lemma LabelsAreLettersInOrder(order: seq<ChoiceOption>, i: nat)
    requires i < |order| <= 26
    ensures Relabelled(order)[i] == ChoiceOption(["ABCDEFGHIJKLMNOPQRSTUVWXYZ"[i]], order[i].text)
  {
  }

  predicate Bears(order: seq<ChoiceOption>, i: nat, id: string) {
    i < |order| && order[i].identifier == id
  }

  // Old identifier to new label; a later option with the same identifier overwrites an earlier one.
  function IdentifierMap(order: seq<ChoiceOption>): (m: map<string, string>)
    requires |order| <= MAX_OPTIONS
    ensures forall id :: id in m <==> exists i :: Bears(order, i, id)
    ensures forall id | id in m :: exists i :: Bears(order, i, id) && m[id] == Label(i)
  {
    if order == [] then
      map[]
    else
      var last := |order| - 1;
      var before := IdentifierMap(order[..last]);
      assert forall i: nat, id :: Bears(order[..last], i, id) <==> i < last && Bears(order, i, id);
      assert Bears(order, last, order[last].identifier);
      before[order[last].identifier := Label(last)]
  }

  /** An identifier that several options bear gets the label of the last of them. */
  lemma {:induction false} LastBearerIsNamed(order: seq<ChoiceOption>, i: nat)
    requires i < |order| <= MAX_OPTIONS
    requires forall j | i < j < |order| :: order[j].identifier != order[i].identifier
    ensures order[i].identifier in IdentifierMap(order) && IdentifierMap(order)[order[i].identifier] == Label(i)
  {
    var last := |order| - 1;
    if i < last {
      assert forall j | i < j < last :: order[..last][j].identifier != order[i].identifier;
      LastBearerIsNamed(order[..last], i);
      assert order[last].identifier != order[i].identifier;
    }
  }

  /**
   The service's shuffle, on a copy of the options. `draws` holds the values that the random source
   delivers; when it runs short, the source failed at that point and the call fails.
   */
  method BalanceOptionsKey(options: seq<ChoiceOption>, draws: seq<nat>)
    returns (result: Result<(seq<ChoiceOption>, map<string, string>), ShuffleError>)
    requires DrawsInRange(draws, LastIndex(options))
    ensures |options| > MAX_OPTIONS ==> result == Failure(TooManyOptions)
    ensures |options| <= MAX_OPTIONS && !ValidDraws(draws, LastIndex(options)) ==> result == Failure(EntropyFailed)
    ensures |options| <= MAX_OPTIONS && ValidDraws(draws, LastIndex(options)) ==>
              var order := FisherYates(options, LastIndex(options), draws);
              result == Success((Relabelled(order), IdentifierMap(order)))
  {
    if |options| == 0 {
      assert Relabelled([]) == [];
      return Success((options, map[]));
    }
    if |options| > MAX_OPTIONS {
      return Failure(TooManyOptions);
    }
    var shuffled := new ChoiceOption[|options|](k requires 0 <= k < |options| => options[k]);
    assert shuffled[..] == options;
    var complete := ShuffleInPlace(shuffled, draws);
    if !complete {
      return Failure(EntropyFailed);
    }
    var identifierMap := RelabelInPlace(shuffled);
    return Success((shuffled[..], identifierMap));
  }

  method ShuffleInPlace(a: array<ChoiceOption>, draws: seq<nat>) returns (complete: bool)
    requires a.Length > 0 && DrawsInRange(draws, a.Length - 1)
    modifies a
    ensures complete <==> ValidDraws(draws, a.Length - 1)
    ensures complete ==> a[..] == FisherYates(old(a[..]), a.Length - 1, draws)
  {
    var i, used := a.Length - 1, 0;
    assert draws[0..] == draws;
    while i > 0
      invariant 0 <= i < a.Length && used == a.Length - 1 - i <= |draws|
      invariant FisherYates(a[..], i, draws[used..]) == FisherYates(old(a[..]), a.Length - 1, draws)
    {
      if used == |draws| {
        return false;
      }
      var j := draws[used];
      assert draws[used..][1..] == draws[used + 1..];
      ghost var before := a[..];
      a[i], a[j] := a[j], a[i];
      assert a[..] == Swap(before, i, j);
      i, used := i - 1, used + 1;
    }
    return true;
  }

  lemma MapOfOneMore(order: seq<ChoiceOption>, k: nat)
    requires k < |order| <= MAX_OPTIONS
    ensures IdentifierMap(order[..k + 1]) == IdentifierMap(order[..k])[order[k].identifier := Label(k)]
  {
    assert order[..k + 1][..k] == order[..k];
  }

  method RelabelInPlace(a: array<ChoiceOption>) returns (identifierMap: map<string, string>)
    requires a.Length <= MAX_OPTIONS
    modifies a
    ensures a[..] == Relabelled(old(a[..])) && identifierMap == IdentifierMap(old(a[..]))
  {
    ghost var order := a[..];
    identifierMap := map[];
    for k := 0 to a.Length
      invariant identifierMap == IdentifierMap(order[..k])
      invariant forall m | 0 <= m < k :: a[m] == ChoiceOption(Label(m), order[m].text)
      invariant forall m | k <= m < a.Length :: a[m] == order[m]
    {
      MapOfOneMore(order, k);
      identifierMap := identifierMap[a[k].identifier := Label(k)];
      a[k] := ChoiceOption(Label(k), a[k].text);
    }
    assert order[..a.Length] == order;
  }
}
