/**
 The fixed part of the database: items, tests, sections, deliveries and groups. A join of the source
 is a lookup that finds nothing when a row is missing.
 */
module Assessment {
  import opened Wrappers
  import opened Scoring

  datatype TestItem = TestItem(sectionID: string, itemID: string, weight: real)

  datatype Delivery = Delivery(testID: string, isActive: bool, startTime: Option<int>, endTime: Option<int>,
      maxAttempts: int)

  datatype Config = Config(
    fold: char -> char,
    items: map<string, Item>,
    timeLimits: map<string, int>,       // by test, in seconds; not positive means no limit
    sections: map<string, string>,      // section to test
    testItems: seq<TestItem>,           // in primary-key order
    deliveries: map<string, Delivery>,
    deliveryGroups: set<(string, string)>, // (delivery, group)
    userGroups: set<(string, string)>)     // (user, group)

  // The clock counts nanoseconds.
  const SECOND: int := 1_000_000_000

  predicate InDelivery(cfg: Config, deliveryID: string, testItem: TestItem) {
    && deliveryID in cfg.deliveries
    && testItem.sectionID in cfg.sections
    && cfg.sections[testItem.sectionID] == cfg.deliveries[deliveryID].testID
  }

  // The first row, in primary-key order, that puts the item into the delivery's test.
  function FirstTestItem(cfg: Config, deliveryID: string, rows: seq<TestItem>, itemID: string): Option<TestItem> {
    if rows == [] then None
    else if InDelivery(cfg, deliveryID, rows[0]) && rows[0].itemID == itemID then Some(rows[0])
    else FirstTestItem(cfg, deliveryID, rows[1..], itemID)
  }

  function FindTestItem(cfg: Config, deliveryID: string, itemID: string): Option<TestItem> {
    FirstTestItem(cfg, deliveryID, cfg.testItems, itemID)
  }

  // Preloading a missing item leaves its zero value.
  function ItemOf(cfg: Config, testItem: TestItem): Item {
    if testItem.itemID in cfg.items then cfg.items[testItem.itemID] else Item(UnknownType, "", 0.0)
  }

  predicate ValidWeights(cfg: Config, testItem: TestItem) {
    ValidScore(testItem.weight) && ValidScore(ItemOf(cfg, testItem).maxScore)
  }

  // An answer to the item can be scored: the item is in the test, with valid weight and maximum.
  predicate Scorable(cfg: Config, deliveryID: string, itemID: string) {
    var row := FindTestItem(cfg, deliveryID, itemID);
    row.Some? && ValidWeights(cfg, row.value)
  }

  predicate AnswerCorrect(cfg: Config, deliveryID: string, itemID: string, data: string)
    requires Scorable(cfg, deliveryID, itemID)
  {
    Correct(cfg.fold, ItemOf(cfg, FindTestItem(cfg, deliveryID, itemID).value), data)
  }

  // The weighted score that an answer earns.
  function Awarded(cfg: Config, deliveryID: string, itemID: string, data: string): real
    requires Scorable(cfg, deliveryID, itemID)
  {
    var row := FindTestItem(cfg, deliveryID, itemID).value;
    Score(cfg.fold, ItemOf(cfg, row), data) * row.weight
  }

  // ---- the maximum reported with a grade ----

  // What a row adds to the delivery's maximum.
  function Worth(cfg: Config, deliveryID: string, row: TestItem): real {
    if InDelivery(cfg, deliveryID, row) && row.itemID in cfg.items then cfg.items[row.itemID].maxScore * row.weight
        else 0.0
  }

  function MaximumOver(cfg: Config, deliveryID: string, rows: seq<TestItem>): real {
    if rows == [] then 0.0 else Worth(cfg, deliveryID, rows[0]) + MaximumOver(cfg, deliveryID, rows[1..])
  }

  function DeliveryMaximumScore(cfg: Config, deliveryID: string): Option<real> {
    var total := MaximumOver(cfg, deliveryID, cfg.testItems);
    if total <= 0.0 then None else Some(total)
  }

  // Sum of a finite table of scores, whatever the order of its rows.
  ghost function Sum<K>(scores: map<K, real>): real
    decreases |scores|
  {
    if scores == map[] then 0.0
    else
      var k :| k in scores;
      scores[k] + Sum(scores - {k})
  }

  lemma SumTakesAnyRow<K>(scores: map<K, real>, k: K)
    requires k in scores
    ensures Sum(scores) == scores[k] + Sum(scores - {k})
    decreases |scores|
  {
    var first :| first in scores && Sum(scores) == scores[first] + Sum(scores - {first});
    if first != k {
      SumTakesAnyRow(scores - {first}, k);
      SumTakesAnyRow(scores - {k}, first);
      assert scores - {first} - {k} == scores - {k} - {first};
    }
  }

  lemma SumWithRow<K>(scores: map<K, real>, k: K, x: real)
    requires k !in scores
    ensures Sum(scores[k := x]) == Sum(scores) + x
  {
    SumTakesAnyRow(scores[k := x], k);
    assert scores[k := x] - {k} == scores;
  }

  // Each score belongs to an item of the rows and is within what the item's first row is worth.
  ghost predicate WithinFirstRows(cfg: Config, deliveryID: string, rows: seq<TestItem>, scores: map<string, real>) {
    forall k | k in scores ::
      && FirstTestItem(cfg, deliveryID, rows, k).Some?
      && 0.0 <= scores[k] <= Worth(cfg, deliveryID, FirstTestItem(cfg, deliveryID, rows, k).value)
  }

  // Scores of distinct items sum to at most what all rows together are worth, even when an item
  // occurs in several rows.
  lemma {:induction false} SumWithinMaximum(
      cfg: Config, deliveryID: string, rows: seq<TestItem>, scores: map<string, real>)
    requires forall r | r in rows :: Worth(cfg, deliveryID, r) >= 0.0
    requires WithinFirstRows(cfg, deliveryID, rows, scores)
    ensures 0.0 <= Sum(scores) <= MaximumOver(cfg, deliveryID, rows)
  {
    if rows == [] {
      assert scores.Keys == {};
      assert scores == map[];
    } else {
      var head := rows[0];
      assert head in rows;
      if InDelivery(cfg, deliveryID, head) && head.itemID in scores {
        assert WithinFirstRows(cfg, deliveryID, rows[1..], scores - {head.itemID});
        SumWithinMaximum(cfg, deliveryID, rows[1..], scores - {head.itemID});
        SumTakesAnyRow(scores, head.itemID);
      } else {
        assert WithinFirstRows(cfg, deliveryID, rows[1..], scores);
        SumWithinMaximum(cfg, deliveryID, rows[1..], scores);
      }
    }
  }

  // ---- what the maximum is ----

  // The points, by position, of the rows that the joins of the maximum's query leave.
  ghost predicate ArePoints(cfg: Config, deliveryID: string, rows: seq<TestItem>, points: map<int, real>) {
    && (forall i :: i in points <==>
          && 0 <= i < |rows| && deliveryID in cfg.deliveries && rows[i].itemID in cfg.items
          && rows[i].sectionID in cfg.sections
          && cfg.sections[rows[i].sectionID] == cfg.deliveries[deliveryID].testID)
    && (forall i | i in points && 0 <= i < |rows| && rows[i].itemID in cfg.items ::
          points[i] == cfg.items[rows[i].itemID].maxScore * rows[i].weight)
  }

  lemma PointsExist(cfg: Config, deliveryID: string, rows: seq<TestItem>) returns (points: map<int, real>)
    ensures ArePoints(cfg, deliveryID, rows, points)
  {
    points := map i | 0 <= i < |rows| && InDelivery(cfg, deliveryID, rows[i]) && rows[i].itemID in cfg.items ::
      cfg.items[rows[i].itemID].maxScore * rows[i].weight;
  }

  lemma {:induction false} MaximumIsSum(cfg: Config, deliveryID: string, rows: seq<TestItem>, points: map<int, real>)
    requires ArePoints(cfg, deliveryID, rows, points)
    ensures MaximumOver(cfg, deliveryID, rows) == Sum(points)
  {
    if rows == [] {
      assert forall i :: i !in points;
      SumOfNothing(points);
    } else {
      var last := |rows| - 1;
      PointsBefore(cfg, deliveryID, rows, points);
      MaximumIsSum(cfg, deliveryID, rows[..last], points - {last});
      MaximumOfMore(cfg, deliveryID, rows[..last], rows[last]);
      assert rows == rows[..last] + [rows[last]];
      WithoutLast(cfg, deliveryID, rows, points);
    }
  }

  lemma PointsBefore(cfg: Config, deliveryID: string, rows: seq<TestItem>, points: map<int, real>)
    requires rows != [] && ArePoints(cfg, deliveryID, rows, points)
    ensures ArePoints(cfg, deliveryID, rows[..|rows| - 1], points - {|rows| - 1})
  {
  }

  lemma WithoutLast(cfg: Config, deliveryID: string, rows: seq<TestItem>, points: map<int, real>)
    requires rows != [] && ArePoints(cfg, deliveryID, rows, points)
    ensures var last := |rows| - 1;
            Sum(points) == Sum(points - {last}) + Worth(cfg, deliveryID, rows[last])
  {
    var last := |rows| - 1;
    if last in points {
      SumTakesAnyRow(points, last);
    } else {
      assert points - {last} == points;
    }
  }

  lemma SumOfNothing<K(!new)>(scores: map<K, real>)
    requires forall k :: k !in scores
    ensures Sum(scores) == 0.0
  {
    assert scores == map[];
  }

  lemma {:induction false} MaximumOfMore(cfg: Config, deliveryID: string, rows: seq<TestItem>, row: TestItem)
    ensures MaximumOver(cfg, deliveryID, rows + [row])
            == MaximumOver(cfg, deliveryID, rows) + Worth(cfg, deliveryID, row)
  {
    if rows == [] {
      assert [] + [row] == [row] && [row][1..] == [];
    } else {
      MaximumOfMore(cfg, deliveryID, rows[1..], row);
      assert (rows + [row])[1..] == rows[1..] + [row];
    }
  }

  /**
   The maximum reported with a grade is the sum over the test's rows of the item's maximum times the
   row's weight, an item that occurs in several rows once for each, and there is none when that is not
   positive.
   */
  lemma ReportedMaximumIsSum(cfg: Config, deliveryID: string, points: map<int, real>)
    requires ArePoints(cfg, deliveryID, cfg.testItems, points)
    ensures DeliveryMaximumScore(cfg, deliveryID) == if Sum(points) > 0.0 then Some(Sum(points)) else None
  {
    MaximumIsSum(cfg, deliveryID, cfg.testItems, points);
  }

  // The name of a position that has points.
  predicate Names(points: map<int, real>, names: map<int, string>, i: int, k: string) {
    i in points && i in names && names[i] == k
  }

  // The names lead from the positions of one table to all keys of the other, to the same score, and
  // no two positions to one key.
  ghost predicate Renames(points: map<int, real>, names: map<int, string>, scores: map<string, real>) {
    && (forall i | i in points :: i in names && names[i] in scores && scores[names[i]] == points[i])
    && (forall i, j, k | Names(points, names, i, k) && Names(points, names, j, k) :: i == j)
    && (forall k | k in scores :: exists i :: Names(points, names, i, k))
  }

  lemma RenamesRest(points: map<int, real>, names: map<int, string>, scores: map<string, real>, i: int)
    requires Renames(points, names, scores) && i in points
    ensures Renames(points - {i}, names, scores - {names[i]})
  {
    var rest, others := points - {i}, scores - {names[i]};
    forall j | j in rest ensures names[j] in others && others[names[j]] == rest[j] {
      assert Names(points, names, i, names[i]) && Names(points, names, j, names[j]);
    }
    forall j, l, k | Names(rest, names, j, k) && Names(rest, names, l, k) ensures j == l {
      assert Names(points, names, j, k) && Names(points, names, l, k);
    }
    forall k | k in others ensures exists j :: Names(rest, names, j, k) {
      assert k in scores;
      var j :| Names(points, names, j, k);
      assert Names(rest, names, j, k);
    }
  }

  lemma SumsWithSameRow(points: map<int, real>, i: int, scores: map<string, real>, k: string)
    requires i in points && k in scores && points[i] == scores[k] && Sum(points - {i}) == Sum(scores - {k})
    ensures Sum(points) == Sum(scores)
  {
    SumTakesAnyRow(points, i);
    SumTakesAnyRow(scores, k);
  }

  lemma AnyKey<K>(scores: map<K, real>) returns (k: K)
    requires scores != map[]
    ensures k in scores
  {
    k :| k in scores;
  }

  // Two tables that hold the same scores under other names have the same sum.
  lemma {:induction false} SumOfRenamed(points: map<int, real>, names: map<int, string>, scores: map<string, real>)
    requires Renames(points, names, scores)
    ensures Sum(points) == Sum(scores)
    decreases |points|
  {
    if points == map[] {
      assert forall k :: k !in scores;
      SumOfNothing(scores);
    } else {
      var i := AnyKey(points);
      RenamesRest(points, names, scores, i);
      SumOfRenamed(points - {i}, names, scores - {names[i]});
      SumsWithSameRow(points, i, scores, names[i]);
    }
  }
}
