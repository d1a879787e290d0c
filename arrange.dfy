/** How an aggregate type arranges the per-backing-type field lists it displays:
    base-most type first, then, when a search query is set, only the fields whose
    name fuzzily matches it, best score first. */
module Arrange {
  import opened TypeTree
  import FuzzyMatch

  /** Left-to-right concatenation of lists. */
  function Flatten<T>(lists: seq<seq<T>>): seq<T> {
    if lists == [] then [] else lists[0] + Flatten(lists[1..])
  }

  function Reversed<T>(xs: seq<T>): (r: seq<T>)
    ensures |r| == |xs|
    ensures forall i :: 0 <= i < |xs| ==> r[i] == xs[|xs| - 1 - i]
  {
    if xs == [] then [] else Reversed(xs[1..]) + [xs[0]]
  }

  /** `reverseAndFlatten`: the lists concatenated, last list first. */
  function ReverseFlatten<T>(lists: seq<seq<T>>): seq<T> {
    if lists == [] then [] else ReverseFlatten(lists[1..]) + lists[0]
  }

  lemma {:induction false} FlattenAppend<T>(xs: seq<seq<T>>, ys: seq<seq<T>>)
    ensures Flatten(xs + ys) == Flatten(xs) + Flatten(ys)
    decreases xs
  {
    if xs == [] {
      assert xs + ys == ys;
    } else {
      assert (xs + ys)[1..] == xs[1..] + ys;
      FlattenAppend(xs[1..], ys);
    }
  }

  /** Reversing and flattening is flattening the reversed list of lists: every list keeps its
      own order, the lists come last-to-first, nothing is added or dropped. */
  lemma {:induction false} ReverseFlattenIsFlattenOfReversed<T>(lists: seq<seq<T>>)
    ensures ReverseFlatten(lists) == Flatten(Reversed(lists))
    decreases lists
  {
    if lists != [] {
      ReverseFlattenIsFlattenOfReversed(lists[1..]);
      FlattenAppend(Reversed(lists[1..]), [lists[0]]);
      assert Flatten([lists[0]]) == lists[0] + Flatten<T>([]);
    }
  }

  lemma {:induction false} ReverseFlattenContents<T>(lists: seq<seq<T>>)
    ensures multiset(ReverseFlatten(lists)) == multiset(Flatten(lists))
    ensures forall x :: x in ReverseFlatten(lists) <==> exists i :: 0 <= i < |lists| && x in lists[i]
    decreases lists
  {
    if lists != [] {
      ReverseFlattenContents(lists[1..]);
      forall x ensures x in ReverseFlatten(lists) <==> exists i :: 0 <= i < |lists| && x in lists[i] {
        if x in ReverseFlatten(lists[1..]) {
          var i :| 0 <= i < |lists[1..]| && x in lists[1..][i];
          assert x in lists[i + 1];
        }
        if exists i :: 0 <= i < |lists| && x in lists[i] {
          var i :| 0 <= i < |lists| && x in lists[i];
          if i > 0 { assert x in lists[1..][i - 1]; }
        }
      }
    }
  }

  /** The source's loop: `result = result.concat(subArray)` over a reversed copy. */
  method ReverseAndFlatten<T>(lists: seq<seq<T>>) returns (result: seq<T>)
    ensures result == ReverseFlatten(lists)
  {
    var n := |lists|;
    result := [];
    var i := 0;
    while i < n
      invariant 0 <= i <= n
      invariant result == ReverseFlatten(lists[n - i..])
    {
      assert lists[n - 1 - i..][1..] == lists[n - i..];
      result := result + lists[n - 1 - i];
      i := i + 1;
    }
    assert lists[n - n..] == lists;
  }

  /** A field together with its match score. */
  datatype Scored = Scored(item: Shown, score: int)

  /** The fuzzy match of a field's lower-cased name against an already lower-cased query. */
  function MatchOf(x: Shown, query: string): FuzzyMatch.MatchResult {
    FuzzyMatch.Match(FuzzyMatch.Lower(x.field.name), query)
  }

  /** The fields that match the query, each with its score, in their original order
      (the source's `map` followed by `filter`). */
  function ScoreAll(xs: seq<Shown>, query: string): (r: seq<Scored>)
    ensures forall y :: y in r <==> y.item in xs && MatchOf(y.item, query) == FuzzyMatch.Matched(y.score)
    ensures |r| <= |xs|
  {
    if xs == [] then []
    else
      var m := MatchOf(xs[0], query);
      (if m.Matched? then [Scored(xs[0], m.score)] else []) + ScoreAll(xs[1..], query)
  }

  /** The fields kept by a search: those whose name matches the query. */
  function Matching(xs: seq<Shown>, query: string): (r: seq<Shown>)
    ensures forall x :: x in r <==> x in xs && MatchOf(x, query).Matched?
  {
    if xs == [] then []
    else (if MatchOf(xs[0], query).Matched? then [xs[0]] else []) + Matching(xs[1..], query)
  }

  function Items(ys: seq<Scored>): (r: seq<Shown>)
    ensures |r| == |ys| && forall i :: 0 <= i < |ys| ==> r[i] == ys[i].item
  {
    if ys == [] then [] else [ys[0].item] + Items(ys[1..])
  }

  lemma {:induction false} ItemsOfScoreAll(xs: seq<Shown>, query: string)
    ensures Items(ScoreAll(xs, query)) == Matching(xs, query)
    decreases xs
  {
    if xs != [] {
      ItemsOfScoreAll(xs[1..], query);
      var m := MatchOf(xs[0], query);
      var head := if m.Matched? then [Scored(xs[0], m.score)] else [];
      ItemsAppend(head, ScoreAll(xs[1..], query));
    }
  }

  lemma ItemsAppend(xs: seq<Scored>, ys: seq<Scored>)
    ensures Items(xs + ys) == Items(xs) + Items(ys)
  {
  }

  predicate SortedByScore(ys: seq<Scored>) {
    forall i, j :: 0 <= i < j < |ys| ==> ys[i].score <= ys[j].score
  }

  /** Insertion of one entry before the first entry whose score is not below its own. */
  function Insert(y: Scored, ys: seq<Scored>): (r: seq<Scored>)
    ensures |r| == |ys| + 1
    ensures y in r && forall x | x in r :: x == y || x in ys
  {
    if ys == [] || y.score <= ys[0].score then [y] + ys
    else [ys[0]] + Insert(y, ys[1..])
  }

  /** `Array.prototype.sort` with the comparator `a.score - b.score`, which is stable. */
  function SortByScore(ys: seq<Scored>): (r: seq<Scored>)
    ensures |r| == |ys|
  {
    if ys == [] then [] else Insert(ys[0], SortByScore(ys[1..]))
  }

  lemma {:induction false} InsertPermutes(y: Scored, ys: seq<Scored>)
    ensures multiset(Insert(y, ys)) == multiset(ys) + multiset{y}
    decreases ys
  {
    if ys != [] && y.score > ys[0].score {
      InsertPermutes(y, ys[1..]);
      assert ys == [ys[0]] + ys[1..];
    }
  }

  lemma {:induction false} InsertPermutesItems(y: Scored, ys: seq<Scored>)
    ensures multiset(Items(Insert(y, ys))) == multiset(Items(ys)) + multiset{y.item}
    decreases ys
  {
    if ys == [] || y.score <= ys[0].score {
      InsertItemsFront(y, ys);
    } else {
      InsertPermutesItems(y, ys[1..]);
      InsertItemsStep(y, ys);
      assert Items(ys) == [ys[0].item] + Items(ys[1..]);
    }
  }

  lemma InsertItemsFront(y: Scored, ys: seq<Scored>)
    requires ys == [] || y.score <= ys[0].score
    ensures multiset(Items(Insert(y, ys))) == multiset(Items(ys)) + multiset{y.item}
  {
    ItemsAppend([y], ys);
  }

  lemma InsertItemsStep(y: Scored, ys: seq<Scored>)
    requires ys != [] && y.score > ys[0].score
    ensures Items(Insert(y, ys)) == [ys[0].item] + Items(Insert(y, ys[1..]))
  {
    ItemsAppend([ys[0]], Insert(y, ys[1..]));
  }

  lemma {:induction false} InsertMembers(y: Scored, ys: seq<Scored>)
    ensures forall z :: z in Insert(y, ys) <==> z in ys || z == y
    decreases ys
  {
    if ys != [] && y.score > ys[0].score {
      InsertMembers(y, ys[1..]);
      assert ys == [ys[0]] + ys[1..];
    }
  }

  lemma {:induction false} InsertSorted(y: Scored, ys: seq<Scored>)
    requires SortedByScore(ys)
    ensures SortedByScore(Insert(y, ys))
    decreases ys
  {
    if ys != [] && y.score > ys[0].score {
      var rest := Insert(y, ys[1..]);
      InsertSorted(y, ys[1..]);
      InsertMembers(y, ys[1..]);
      var r := [ys[0]] + rest;
      assert r == Insert(y, ys);
      forall i, j | 0 <= i < j < |r| ensures r[i].score <= r[j].score {
        if i == 0 {
          assert r[j] in rest;
          if r[j] != y {
            var k :| 0 <= k < |ys[1..]| && ys[1..][k] == r[j];
            assert ys[k + 1] == r[j];
          }
        } else {
          assert r[i] == rest[i - 1] && r[j] == rest[j - 1];
        }
      }
    }
  }

  /** The sort is a permutation of its input. */
  lemma {:induction false} SortPermutes(ys: seq<Scored>)
    ensures multiset(SortByScore(ys)) == multiset(ys)
    decreases ys
  {
    if ys != [] {
      var sorted := SortByScore(ys[1..]);
      SortPermutes(ys[1..]);
      InsertPermutes(ys[0], sorted);
      assert multiset(SortByScore(ys)) == multiset(sorted) + multiset{ys[0]};
      assert ys == [ys[0]] + ys[1..];
      assert multiset(ys) == multiset{ys[0]} + multiset(ys[1..]);
    }
  }

  lemma {:induction false} SortPermutesItems(ys: seq<Scored>)
    ensures multiset(Items(SortByScore(ys))) == multiset(Items(ys))
    decreases ys
  {
    if ys != [] {
      var sorted := SortByScore(ys[1..]);
      SortPermutesItems(ys[1..]);
      InsertPermutesItems(ys[0], sorted);
      assert multiset(Items(SortByScore(ys))) == multiset(Items(sorted)) + multiset{ys[0].item};
      assert Items(ys) == [ys[0].item] + Items(ys[1..]);
      assert multiset(Items(ys)) == multiset{ys[0].item} + multiset(Items(ys[1..]));
    }
  }

  /** The sort puts its input in non-decreasing score order. */
  lemma {:induction false} SortOrders(ys: seq<Scored>)
    ensures SortedByScore(SortByScore(ys))
    decreases ys
  {
    if ys != [] {
      SortOrders(ys[1..]);
      InsertSorted(ys[0], SortByScore(ys[1..]));
    }
  }

  /** `arrangeFields`: what a field list shows for an aggregate with the given search query. */
  function Arranged(lists: seq<seq<Shown>>, searchQuery: string): (r: seq<Shown>)
    ensures |r| <= |ReverseFlatten(lists)|
    ensures searchQuery == "" ==> |r| == |ReverseFlatten(lists)|
  {
    var flat := ReverseFlatten(lists);
    if searchQuery == "" then flat
    else Items(SortByScore(ScoreAll(flat, FuzzyMatch.Lower(searchQuery))))
  }

  method ArrangeFields(lists: seq<seq<Shown>>, searchQuery: string) returns (fields: seq<Shown>)
    ensures fields == Arranged(lists, searchQuery)
  {
    fields := ReverseAndFlatten(lists);
    if searchQuery != "" {
      var query := FuzzyMatch.Lower(searchQuery);
      fields := Items(SortByScore(ScoreAll(fields, query)));
    }
  }

  /** A field's score for the query, or 0 when it does not match. */
  function ScoreOf(x: Shown, query: string): int {
    match MatchOf(x, query)
    case Matched(score) => score
    case NoMatch => 0
  }

  /** Without a search query every backing type's list is kept whole, in its own
      order, and the lists come base-most type first. */
  lemma ArrangedWithoutQuery(lists: seq<seq<Shown>>)
    ensures Arranged(lists, "") == Flatten(Reversed(lists))
    ensures multiset(Arranged(lists, "")) == multiset(Flatten(lists))
  {
    ReverseFlattenIsFlattenOfReversed(lists);
    ReverseFlattenContents(lists);
  }

  /** With a search query, each field is kept as often as it was listed if its
      lower-cased name matches the lower-cased query, and dropped otherwise. */
  lemma ArrangedWithQueryKeepsMatches(lists: seq<seq<Shown>>, searchQuery: string)
    requires searchQuery != ""
    ensures multiset(Arranged(lists, searchQuery)) == multiset(Matching(ReverseFlatten(lists), FuzzyMatch.Lower(searchQuery)))
  {
    var q := FuzzyMatch.Lower(searchQuery);
    var scored := ScoreAll(ReverseFlatten(lists), q);
    SortPermutesItems(scored);
    ItemsOfScoreAll(ReverseFlatten(lists), q);
  }

  lemma ArrangedWithQueryMembers(lists: seq<seq<Shown>>, searchQuery: string)
    requires searchQuery != ""
    ensures forall x :: x in Arranged(lists, searchQuery) <==>
      (exists i :: 0 <= i < |lists| && x in lists[i]) && MatchOf(x, FuzzyMatch.Lower(searchQuery)).Matched?
  {
    var q := FuzzyMatch.Lower(searchQuery);
    var r := Arranged(lists, searchQuery);
    var m := Matching(ReverseFlatten(lists), q);
    ArrangedWithQueryKeepsMatches(lists, searchQuery);
    ReverseFlattenContents(lists);
    forall x ensures x in r <==> x in m {
      assert x in r <==> x in multiset(r);
      assert x in m <==> x in multiset(m);
    }
  }

  /** With a search query the kept fields come in non-decreasing score order. */
  lemma ArrangedWithQueryOrdered(lists: seq<seq<Shown>>, searchQuery: string)
    requires searchQuery != ""
    ensures forall i, j :: 0 <= i < j < |Arranged(lists, searchQuery)| ==>
      ScoreOf(Arranged(lists, searchQuery)[i], FuzzyMatch.Lower(searchQuery))
        <= ScoreOf(Arranged(lists, searchQuery)[j], FuzzyMatch.Lower(searchQuery))
  {
    SortedItemsOrdered(Arranged(lists, searchQuery), ReverseFlatten(lists), FuzzyMatch.Lower(searchQuery));
  }

  /** The fields of a sorted scoring come in non-decreasing order of their own scores. */
  lemma SortedItemsOrdered(r: seq<Shown>, xs: seq<Shown>, q: string)
    requires r == Items(SortByScore(ScoreAll(xs, q)))
    ensures forall i, j :: 0 <= i < j < |r| ==> ScoreOf(r[i], q) <= ScoreOf(r[j], q)
  {
    var scored := ScoreAll(xs, q);
    var sorted := SortByScore(scored);
    SortPermutes(scored);
    SortOrders(scored);
    forall i | 0 <= i < |r| ensures ScoreOf(r[i], q) == sorted[i].score {
      var y := sorted[i];
      assert y in multiset(scored);
      assert MatchOf(y.item, q) == FuzzyMatch.Matched(y.score);
      assert r[i] == y.item;
    }
    forall i, j | 0 <= i < j < |r| ensures ScoreOf(r[i], q) <= ScoreOf(r[j], q) {
      assert sorted[i].score <= sorted[j].score;
    }
  }
}
