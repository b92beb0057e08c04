/** How `get_episodes` folds the episodes of each criterion into one set.
    The first criterion's episodes start the fold and its `combine` is never
    read; every later criterion applies its `combine` as
    `set(episodes).<method>(working)`, so `not` keeps the new criterion's
    episodes that are not already in the working set. */
module Combination {
  import opened Base
  import opened Criteria

  predicate KnownCombine(combine: string) {
    combine == "and" || combine == "or" || combine == "not"
  }

  /** One turn of the loop: `'and'` is `intersection`, `'or'` is `union` and
      `'not'` is `difference`, each called on the new episodes with the
      working set as argument; any other word is the `KeyError` of the
      method table. */
  function Step(combine: string, episodes: set<EpisodeId>, working: set<EpisodeId>): (r: Result<set<EpisodeId>>)
    ensures r.Err? <==> !KnownCombine(combine)
    ensures r.Err? ==> r.error == UnknownCombine(combine)
    ensures r.Ok? ==> r.value <= episodes + working
    ensures combine == "and" ==> forall e :: e in r.value <==> e in episodes && e in working
    ensures combine == "or" ==> forall e :: e in r.value <==> e in episodes || e in working
    ensures combine == "not" ==> forall e :: e in r.value <==> e in episodes && e !in working
  {
    if combine == "and" then Ok(episodes * working)
    else if combine == "or" then Ok(episodes + working)
    else if combine == "not" then Ok(episodes - working)
    else Err(UnknownCombine(combine))
  }

  /** Every episode any of the criteria matched. */
  function Mentioned(rest: seq<(string, set<EpisodeId>)>): set<EpisodeId>
  {
    if rest == [] then {} else rest[0].1 + Mentioned(rest[1..])
  }

  /** `rest[i]` is the first criterion whose `combine` the loop cannot apply. */
  ghost predicate FirstUnknown(rest: seq<(string, set<EpisodeId>)>, i: int) {
    && 0 <= i < |rest|
    && !KnownCombine(rest[i].0)
    && forall j :: 0 <= j < i ==> KnownCombine(rest[j].0)
  }

  /** The loop from `working` over the remaining criteria. It fails at the
      first unknown `combine` and otherwise yields only episodes some
      criterion matched. */
  function FoldFrom(working: set<EpisodeId>, rest: seq<(string, set<EpisodeId>)>): (r: Result<set<EpisodeId>>)
    ensures r.Err? <==> exists i :: 0 <= i < |rest| && !KnownCombine(rest[i].0)
    ensures r.Err? ==> exists i :: FirstUnknown(rest, i) && r.error == UnknownCombine(rest[i].0)
    ensures r.Ok? ==> r.value <= working + Mentioned(rest)
    decreases |rest|
  {
    if rest == [] then Ok(working)
    else
      match Step(rest[0].0, rest[0].1, working)
      case Err(e) =>
        assert FirstUnknown(rest, 0);
        Err(e)
      case Ok(next) =>
        var r := FoldFrom(next, rest[1..]);
        assert forall j :: 0 < j < |rest| ==> rest[j] == rest[1..][j - 1];
        if r.Err? then
          assert exists i :: FirstUnknown(rest, i) && r.error == UnknownCombine(rest[i].0) by {
            var i :| FirstUnknown(rest[1..], i) && r.error == UnknownCombine(rest[1..][i].0);
            assert FirstUnknown(rest, i + 1);
          }
          r
        else
          r
  }

  /** The whole fold: nothing for no criteria, else the first criterion's
      episodes folded with the rest. */
  function Combine(matches: seq<(string, set<EpisodeId>)>): (r: Result<set<EpisodeId>>)
    ensures r.Err? <==> exists i :: 0 < i < |matches| && !KnownCombine(matches[i].0)
    ensures r.Ok? ==> r.value <= Mentioned(matches)
  {
    if matches == [] then Ok({})
    else
      assert forall i :: 0 < i < |matches| ==> matches[i] == matches[1..][i - 1];
      assert Mentioned(matches) == matches[0].1 + Mentioned(matches[1..]);
      FoldFrom(matches[0].1, matches[1..])
  }

  /** The episode lists of the criteria as sets. */
  function AsSets(allMatches: seq<(string, seq<EpisodeId>)>): (r: seq<(string, set<EpisodeId>)>)
    ensures |r| == |allMatches|
    ensures forall i :: 0 <= i < |r| ==> r[i] == (allMatches[i].0, Elems(allMatches[i].1))
  {
    if allMatches == [] then []
    else [(allMatches[0].0, Elems(allMatches[0].1))] + AsSets(allMatches[1..])
  }

  /** The combining part of `get_episodes`, over the list of
      `(combine, episodes)` pairs it builds. */
  method FoldMatches(allMatches: seq<(string, seq<EpisodeId>)>) returns (r: Result<set<EpisodeId>>)
    ensures r == Combine(AsSets(allMatches))
  {
    if |allMatches| == 0 {
      return Ok({});
    }
    var sets := AsSets(allMatches);
    var working := Elems(allMatches[0].1);
    var rest := allMatches[1..];
    for i := 0 to |rest|
      invariant FoldFrom(working, sets[1..][i..]) == Combine(sets)
    {
      var (combine, episodes) := rest[i];
      assert sets[1..][i..][1..] == sets[1..][i + 1..];
      if combine == "and" {
        working := Elems(episodes) * working;
      } else if combine == "or" {
        working := Elems(episodes) + working;
      } else if combine == "not" {
        working := Elems(episodes) - working;
      } else {
        return Err(UnknownCombine(combine));
      }
    }
    return Ok(working);
  }

  /** Folding one more criterion applies its `combine` to the result so far. */
  lemma {:induction false} FoldFromSnoc(working: set<EpisodeId>, rest: seq<(string, set<EpisodeId>)>,
                                        combine: string, episodes: set<EpisodeId>)
    ensures FoldFrom(working, rest + [(combine, episodes)])
            == match FoldFrom(working, rest)
               case Err(e) => Err(e)
               case Ok(w) => Step(combine, episodes, w)
    decreases |rest|
  {
    if rest != [] {
      assert (rest + [(combine, episodes)])[1..] == rest[1..] + [(combine, episodes)];
      match Step(rest[0].0, rest[0].1, working)
      case Err(_) =>
      case Ok(next) => FoldFromSnoc(next, rest[1..], combine, episodes);
    }
  }

  /** Appending a criterion to a non-empty query applies its `combine` to
      the combined result of the earlier ones. */
  lemma CombineSnoc(matches: seq<(string, set<EpisodeId>)>, combine: string, episodes: set<EpisodeId>)
    requires matches != []
    ensures Combine(matches + [(combine, episodes)])
            == match Combine(matches)
               case Err(e) => Err(e)
               case Ok(w) => Step(combine, episodes, w)
  {
    assert (matches + [(combine, episodes)])[1..] == matches[1..] + [(combine, episodes)];
    FoldFromSnoc(matches[0].1, matches[1..], combine, episodes);
  }

  /** A trailing `not` keeps the episodes of the last criterion that none of
      the earlier combination holds, not the other way round. */
  lemma NotKeepsOnlyTheNew(matches: seq<(string, set<EpisodeId>)>, episodes: set<EpisodeId>)
    requires matches != []
    requires Combine(matches).Ok?
    ensures Combine(matches + [("not", episodes)]) == Ok(episodes - Combine(matches).value)
  {
    CombineSnoc(matches, "not", episodes);
  }

  /** The first criterion's `combine` is never read, not even to reject it. */
  lemma FirstCombineIgnored(first: string, other: string, episodes: set<EpisodeId>,
                            rest: seq<(string, set<EpisodeId>)>)
    ensures Combine([(first, episodes)] + rest) == Combine([(other, episodes)] + rest)
    ensures Combine([(first, episodes)]) == Ok(episodes)
  {
    assert ([(first, episodes)] + rest)[1..] == rest;
    assert ([(other, episodes)] + rest)[1..] == rest;
  }

  /** With every later criterion joined by `or`, the result is every episode
      any criterion matched. */
  lemma {:induction false} AllOr(working: set<EpisodeId>, rest: seq<(string, set<EpisodeId>)>)
    requires forall i :: 0 <= i < |rest| ==> rest[i].0 == "or"
    ensures FoldFrom(working, rest) == Ok(working + Mentioned(rest))
    decreases |rest|
  {
    if rest != [] {
      var next := rest[0].1 + working;
      assert FoldFrom(working, rest) == FoldFrom(next, rest[1..]);
      AllOr(next, rest[1..]);
      assert working + Mentioned(rest) == next + Mentioned(rest[1..]);
    } else {
      assert working + Mentioned(rest) == working;
    }
  }

  /** With every later criterion joined by `and`, the result is the episodes
      every criterion matched. */
  lemma {:induction false} AllAnd(working: set<EpisodeId>, rest: seq<(string, set<EpisodeId>)>)
    requires forall i :: 0 <= i < |rest| ==> rest[i].0 == "and"
    ensures FoldFrom(working, rest).Ok?
    ensures forall e :: e in FoldFrom(working, rest).value
                        <==> e in working && forall i :: 0 <= i < |rest| ==> e in rest[i].1
    decreases |rest|
  {
    if rest != [] {
      var next := rest[0].1 * working;
      AllAnd(next, rest[1..]);
      assert forall i :: 0 < i < |rest| ==> rest[i] == rest[1..][i - 1];
    }
  }

  /** The combination depends on the order of the criteria: the same three
      criteria give nothing in one order and episode 3 in the other. */
  lemma OrderMatters()
    ensures Combine([("and", {1, 2}), ("or", {3}), ("not", {1})]) == Ok({})
    ensures Combine([("and", {1, 2}), ("not", {1}), ("or", {3})]) == Ok({3})
  {
    var a: seq<(string, set<EpisodeId>)> := [("and", {1, 2}), ("or", {3}), ("not", {1})];
    assert a[1..][1..][1..] == [];
    assert FoldFrom({}, a[1..][1..][1..]) == Ok({});
    assert {1} - {1, 2, 3} == {};
    assert FoldFrom({1, 2, 3}, a[1..][1..]) == Ok({});
    assert {3} + {1, 2} == {1, 2, 3};
    assert FoldFrom({1, 2}, a[1..]) == Ok({});
    var b: seq<(string, set<EpisodeId>)> := [("and", {1, 2}), ("not", {1}), ("or", {3})];
    assert b[1..][1..][1..] == [];
    assert FoldFrom({3}, b[1..][1..][1..]) == Ok({3});
    assert FoldFrom({}, b[1..][1..]) == Ok({3});
    assert {1} - {1, 2} == {};
    assert FoldFrom({1, 2}, b[1..]) == Ok({3});
  }
}
