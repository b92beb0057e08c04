/** The Extractor view: it reads a list of criteria from the request, finds
    the episodes each criterion matches, folds them into one set, and
    describes the search in a few lines of text. */
module Extraction {
  import opened Base
  import opened Text
  import opened Criteria
  import opened Combination

  /** What one criterion contributes: its `combine` word and its matches. */
  type Outcome = (string, Result<set<EpisodeId>>)

  /** What criterion `c` contributes: its `combine` word and its matches. */
  function OutcomeOf(env: Env, c: Criterion): Outcome
  {
    (c.combine, CriterionMatches(env, c))
  }

  /** The outcome of every criterion of `query`, in order. */
  function Outcomes(env: Env, query: seq<Criterion>): (r: seq<Outcome>)
    ensures |r| == |query|
    ensures forall i :: 0 <= i < |query| ==> r[i] == OutcomeOf(env, query[i])
  {
    seq(|query|, i requires 0 <= i < |query| => OutcomeOf(env, query[i]))
  }

  /** `outcomes[i]` is the first outcome that is a failure. */
  ghost predicate FirstFailing(outcomes: seq<Outcome>, i: int) {
    && 0 <= i < |outcomes|
    && outcomes[i].1.Err?
    && forall j :: 0 <= j < i ==> outcomes[j].1.Ok?
  }

  /** `[(q['combine'], self.episodes_for_criteria(q)) for q in query]`: every
      criterion is evaluated, in order, before any is combined, and the first
      one that fails ends the search with its error. */
  function Collect(outcomes: seq<Outcome>): (r: Result<seq<(string, set<EpisodeId>)>>)
    ensures r.Err? <==> exists i :: 0 <= i < |outcomes| && outcomes[i].1.Err?
    ensures r.Err? ==> exists i :: FirstFailing(outcomes, i) && r.error == outcomes[i].1.error
    ensures r.Ok? ==> |r.value| == |outcomes|
    ensures r.Ok? ==> forall i :: 0 <= i < |outcomes| ==>
                        outcomes[i].1.Ok? && r.value[i] == (outcomes[i].0, outcomes[i].1.value)
  {
    if outcomes == [] then Ok([])
    else
      var init := outcomes[..|outcomes| - 1];
      var (combine, last) := outcomes[|outcomes| - 1];
      assert forall j :: 0 <= j < |init| ==> outcomes[j] == init[j];
      match Collect(init)
      case Err(e) =>
        assert exists i :: FirstFailing(outcomes, i) && e == outcomes[i].1.error by {
          var i :| FirstFailing(init, i) && e == init[i].1.error;
          assert FirstFailing(outcomes, i);
        }
        Err(e)
      case Ok(ms) =>
        match last
        case Err(e) =>
          assert FirstFailing(outcomes, |outcomes| - 1);
          Err(e)
        case Ok(s) => Ok(ms + [(combine, s)])
  }

  /** `get_episodes` over the outcomes of the criteria. */
  function Search(outcomes: seq<Outcome>): Result<set<EpisodeId>>
  {
    match Collect(outcomes)
    case Err(e) => Err(e)
    case Ok(ms) => Combine(ms)
  }

  /** `Extractor.get_episodes` for the criteria `query`. */
  function RunQuery(env: Env, query: seq<Criterion>): Result<set<EpisodeId>>
  {
    Search(Outcomes(env, query))
  }

  /** The episodes some pair mentions, element by element. */
  lemma {:induction false} MentionedMembers(rest: seq<(string, set<EpisodeId>)>, e: EpisodeId)
    ensures e in Mentioned(rest) <==> exists i :: 0 <= i < |rest| && e in rest[i].1
  {
    if rest != [] {
      MentionedMembers(rest[1..], e);
      assert forall j :: 0 < j < |rest| ==> rest[j] == rest[1..][j - 1];
      if e in Mentioned(rest[1..]) {
        var i :| 0 <= i < |rest[1..]| && e in rest[1..][i].1;
        assert e in rest[i + 1].1;
      }
    }
  }

  /** A search over outcomes fails if any outcome failed, fails otherwise
      only for an unknown `combine` after the first, and finds only episodes
      some outcome holds. */
  lemma SearchOutcome(outcomes: seq<Outcome>)
    ensures (exists i :: 0 <= i < |outcomes| && outcomes[i].1.Err?) ==> Search(outcomes).Err?
    ensures Search(outcomes).Err? ==>
              (exists i :: 0 <= i < |outcomes| && outcomes[i].1.Err?)
              || (exists i :: 0 < i < |outcomes| && !KnownCombine(outcomes[i].0))
    ensures Search(outcomes).Ok? ==>
              forall e :: e in Search(outcomes).value ==>
                exists i :: 0 <= i < |outcomes| && outcomes[i].1.Ok? && e in outcomes[i].1.value
  {
    var all := Collect(outcomes);
    if all.Ok? && all.value != [] {
      var ms := all.value;
      var r := Combine(ms);
      if r.Err? {
        var i :| 0 <= i < |ms[1..]| && !KnownCombine(ms[1..][i].0);
        assert !KnownCombine(outcomes[i + 1].0);
      } else {
        forall e | e in r.value
          ensures exists i :: 0 <= i < |outcomes| && outcomes[i].1.Ok? && e in outcomes[i].1.value
        {
          MentionedMembers(ms[1..], e);
          if e !in ms[0].1 {
            var i :| 0 <= i < |ms[1..]| && e in ms[1..][i].1;
            assert e in outcomes[i + 1].1.value;
          }
        }
      }
    }
  }

  /** A search fails if any criterion fails; it fails only for a failing
      criterion or an unknown `combine` after the first criterion; and
      every episode it finds was matched by some criterion. */
  lemma RunQueryOutcome(env: Env, query: seq<Criterion>)
    ensures (exists i :: 0 <= i < |query| && CriterionMatches(env, query[i]).Err?) ==> RunQuery(env, query).Err?
    ensures RunQuery(env, query).Err? ==>
              (exists i :: 0 <= i < |query| && CriterionMatches(env, query[i]).Err?)
              || (exists i :: 0 < i < |query| && !KnownCombine(query[i].combine))
    ensures RunQuery(env, query).Ok? ==>
              forall e :: e in RunQuery(env, query).value ==>
                exists i :: 0 <= i < |query| && CriterionMatches(env, query[i]).Ok?
                            && e in CriterionMatches(env, query[i]).value
  {
    var o := Outcomes(env, query);
    SearchOutcome(o);
    assert RunQuery(env, query) == Search(o);
    if exists i :: 0 <= i < |query| && CriterionMatches(env, query[i]).Err? {
      var i :| 0 <= i < |query| && CriterionMatches(env, query[i]).Err?;
      assert o[i].1.Err?;
    }
    if Search(o).Err? && !exists i :: 0 <= i < |o| && o[i].1.Err? {
      var i :| 0 < i < |o| && !KnownCombine(o[i].0);
      assert o[i].0 == query[i].combine;
    } else if Search(o).Err? {
      var i :| 0 <= i < |o| && o[i].1.Err?;
      assert o[i].1 == CriterionMatches(env, query[i]);
    }
    if Search(o).Ok? {
      forall e | e in Search(o).value
        ensures exists i :: 0 <= i < |query| && CriterionMatches(env, query[i]).Ok?
                            && e in CriterionMatches(env, query[i]).value
      {
        var i :| 0 <= i < |o| && o[i].1.Ok? && e in o[i].1.value;
        assert o[i].1 == CriterionMatches(env, query[i]);
      }
    }
  }

  /** The first criterion that fails decides the error of the whole search. */
  lemma FirstFailureDecides(outcomes: seq<Outcome>, i: int)
    requires FirstFailing(outcomes, i)
    ensures Search(outcomes) == Err(outcomes[i].1.error)
  {
    var k :| FirstFailing(outcomes, k) && Collect(outcomes).error == outcomes[k].1.error;
    assert FirstFailing(outcomes, k);
    assert k == i;
  }

  /** The outcomes of one criterion more. */
  lemma OutcomesStep(env: Env, query: seq<Criterion>, i: int)
    requires 0 <= i < |query|
    ensures Outcomes(env, query[..i + 1]) == Outcomes(env, query[..i]) + [OutcomeOf(env, query[i])]
  {
    var longer := Outcomes(env, query[..i + 1]);
    var step := Outcomes(env, query[..i]) + [OutcomeOf(env, query[i])];
    forall j | 0 <= j < i + 1
      ensures longer[j] == step[j]
    {
      assert query[..i + 1][j] == query[j];
      assert longer[j] == OutcomeOf(env, query[j]);
      if j < i {
        assert query[..i][j] == query[j];
        assert step[j] == OutcomeOf(env, query[j]);
      }
    }
  }

  /** When every criterion before `query[i]` succeeds and `query[i]` fails,
      the search fails with its error. */
  lemma PrefixFailure(env: Env, query: seq<Criterion>, i: int)
    requires 0 <= i < |query|
    requires Collect(Outcomes(env, query[..i])).Ok?
    requires CriterionMatches(env, query[i]).Err?
    ensures RunQuery(env, query) == Err(CriterionMatches(env, query[i]).error)
  {
    var outcomes := Outcomes(env, query);
    OutcomesPrefix(env, query, i);
    assert outcomes[i] == OutcomeOf(env, query[i]);
    FailureAfterSuccesses(outcomes, i);
  }

  /** The same on outcomes: successes up to `i`, then a failure at `i`. */
  lemma FailureAfterSuccesses(outcomes: seq<Outcome>, i: int)
    requires 0 <= i < |outcomes|
    requires Collect(outcomes[..i]).Ok?
    requires outcomes[i].1.Err?
    ensures Search(outcomes) == Err(outcomes[i].1.error)
  {
    forall j | 0 <= j < i
      ensures outcomes[j].1.Ok?
    {
      assert outcomes[..i][j] == outcomes[j];
    }
    assert FirstFailing(outcomes, i);
    FirstFailureDecides(outcomes, i);
  }

  /** The outcomes of a prefix of the criteria are a prefix of the outcomes. */
  lemma OutcomesPrefix(env: Env, query: seq<Criterion>, i: int)
    requires 0 <= i <= |query|
    ensures Outcomes(env, query[..i]) == Outcomes(env, query)[..i]
  {
    var outcomes := Outcomes(env, query);
    forall j | 0 <= j < i
      ensures Outcomes(env, query[..i])[j] == outcomes[..i][j]
    {
      assert query[..i][j] == query[j];
    }
  }

  /** When every criterion up to `query[i]` succeeds, their matches are
      those up to `query[i - 1]` and then those of `query[i]`. */
  lemma PrefixSuccess(env: Env, query: seq<Criterion>, i: int,
                      ms: seq<(string, set<EpisodeId>)>, episodes: set<EpisodeId>)
    requires 0 <= i < |query|
    requires Collect(Outcomes(env, query[..i])) == Ok(ms)
    requires CriterionMatches(env, query[i]) == Ok(episodes)
    ensures Collect(Outcomes(env, query[..i + 1])) == Ok(ms + [(query[i].combine, episodes)])
  {
    OutcomesStep(env, query, i);
    assert Outcomes(env, query[..i + 1])[..i] == Outcomes(env, query[..i]);
  }

  /** The sets of one more list of episodes. */
  lemma AsSetsSnoc(allMatches: seq<(string, seq<EpisodeId>)>, combine: string, episodes: seq<EpisodeId>)
    ensures AsSets(allMatches + [(combine, episodes)]) == AsSets(allMatches) + [(combine, Elems(episodes))]
  {
  }

  /** One turn of the loop over the criteria: a criterion that fails ends
      the search with its error; otherwise its matches join those collected. */
  lemma SearchStep(env: Env, query: seq<Criterion>, i: int,
                   allMatches: seq<(string, seq<EpisodeId>)>, episodes: Result<seq<EpisodeId>>)
    requires 0 <= i < |query|
    requires Collect(Outcomes(env, query[..i])) == Ok(AsSets(allMatches))
    requires Agrees(episodes, CriterionMatches(env, query[i]))
    ensures episodes.Err? ==> RunQuery(env, query) == Err(episodes.error)
    ensures episodes.Ok? ==>
              Collect(Outcomes(env, query[..i + 1])) == Ok(AsSets(allMatches + [(query[i].combine, episodes.value)]))
  {
    if episodes.Err? {
      PrefixFailure(env, query, i);
    } else {
      PrefixSuccess(env, query, i, AsSets(allMatches), Elems(episodes.value));
      AsSetsSnoc(allMatches, query[i].combine, episodes.value);
    }
  }

  /** Once every criterion is collected, the search is their fold. */
  lemma SearchDone(env: Env, query: seq<Criterion>, allMatches: seq<(string, seq<EpisodeId>)>)
    requires Collect(Outcomes(env, query[..|query|])) == Ok(AsSets(allMatches))
    ensures RunQuery(env, query) == Combine(AsSets(allMatches))
  {
    assert query[..|query|] == query;
  }

  /** The loop of `get_episodes` that evaluates each criterion, followed by
      the fold. */
  method SearchCriteria(env: Env, query: seq<Criterion>) returns (r: Result<set<EpisodeId>>)
    ensures r == RunQuery(env, query)
  {
    var allMatches: seq<(string, seq<EpisodeId>)> := [];
    for i := 0 to |query|
      invariant Collect(Outcomes(env, query[..i])) == Ok(AsSets(allMatches))
    {
      var episodes := EpisodesForCriteria(env, query[i]);
      SearchStep(env, query, i, allMatches, episodes);
      if episodes.Err? {
        return Err(episodes.error);
      }
      allMatches := allMatches + [(query[i].combine, episodes.value)];
    }
    SearchDone(env, query, allMatches);
    r := FoldMatches(allMatches);
  }

  /** No criteria find nothing. */
  lemma NoCriteria(env: Env)
    ensures RunQuery(env, []) == Ok({})
  {
  }

  /** A single outcome is the search's result, whatever its `combine`. */
  lemma SingleOutcome(outcome: Outcome)
    ensures Search([outcome]) == outcome.1
  {
    assert [outcome][..0] == [];
    match outcome.1
    case Err(_) =>
    case Ok(s) =>
      assert Collect([outcome]) == Ok([] + [(outcome.0, s)]);
      assert [(outcome.0, s)][1..] == [];
  }

  /** A single criterion is searched on its own, whatever its `combine` says. */
  lemma SingleCriterion(env: Env, c: Criterion)
    ensures RunQuery(env, [c]) == CriterionMatches(env, c)
  {
    var outcome: Outcome := (c.combine, CriterionMatches(env, c));
    assert Outcomes(env, [c]) == [outcome];
    SingleOutcome(outcome);
  }

  /** Adding a criterion to a search whose criteria all succeed: a failure of
      the new criterion wins over an unknown earlier `combine`, since every
      criterion is evaluated before any `combine` is read; otherwise its
      `combine` is applied to the earlier result. */
  lemma RunQuerySnoc(env: Env, query: seq<Criterion>, c: Criterion)
    requires query != []
    requires forall i :: 0 <= i < |query| ==> CriterionMatches(env, query[i]).Ok?
    ensures CriterionMatches(env, c).Err? ==> RunQuery(env, query + [c]) == Err(CriterionMatches(env, c).error)
    ensures CriterionMatches(env, c).Ok? ==>
              RunQuery(env, query + [c])
              == match RunQuery(env, query)
                 case Err(e) => Err(e)
                 case Ok(w) => Step(c.combine, CriterionMatches(env, c).value, w)
  {
    var before := Outcomes(env, query);
    var after := Outcomes(env, query + [c]);
    SnocParts(query, c);
    OutcomesStep(env, query + [c], |query|);
    assert after == before + [OutcomeOf(env, c)];
    SnocParts(before, OutcomeOf(env, c));
    assert Collect(before).Ok?;
    if CriterionMatches(env, c).Ok? {
      CombineSnoc(Collect(before).value, c.combine, CriterionMatches(env, c).value);
    }
  }

  lemma SnocParts<T>(s: seq<T>, x: T)
    ensures (s + [x])[..|s|] == s && (s + [x])[..|s| + 1] == s + [x] && (s + [x])[|s|] == x
  {
  }

  /** `"{combine} {column} {field} {queryType} {query}".format(**f)` */
  function FilterLine(c: Criterion): string
  {
    c.combine + " " + c.column + " " + c.field + " " + c.queryType + " " + c.query
  }

  function FilterLines(criteria: seq<Criterion>): (r: seq<string>)
    ensures |r| == |criteria|
    ensures forall i :: 0 <= i < |r| ==> r[i] == FilterLine(criteria[i])
  {
    if criteria == [] then [] else [FilterLine(criteria[0])] + FilterLines(criteria[1..])
  }

  /** The first line of a description: the user and the time. */
  function Header(username: string, now: string): (r: string)
    ensures username <= r
    ensures '\n' !in username && '\n' !in now ==> '\n' !in r
  {
    username + " (" + now + ")"
  }

  /** `Extractor.description`: the header, `Searching for:`, the filter
      lines joined by newlines, and a final newline. The time is a
      parameter. */
  function Describe(username: string, now: string, criteria: seq<Criterion>): string
  {
    Header(username, now) + "\n" + Banner + "\n" + Join(FilterLines(criteria), '\n') + "\n"
  }

  /** A header, a banner, then lines joined by newlines and ended by one, is
      the newline-join of those lines, with one blank line standing in for
      no lines at all and an empty line after the final newline. */
  lemma JoinLayout(header: string, banner: string, lines: seq<string>)
    ensures header + "\n" + banner + "\n" + Join(lines, '\n') + "\n"
            == Join([header, banner] + (if lines == [] then [""] else lines) + [""], '\n')
  {
    var body := if lines == [] then [""] else lines;
    assert Join(body, '\n') == Join(lines, '\n');
    JoinSnoc(body, "", '\n');
    var tail := body + [""];
    var parts := [header, banner] + tail;
    assert parts[1..] == [banner] + tail;
    assert ([banner] + tail)[1..] == tail;
    assert Join(tail, '\n') == Join(lines, '\n') + "\n";
    assert Join([banner] + tail, '\n') == banner + "\n" + Join(tail, '\n');
    assert Join(parts, '\n') == header + "\n" + Join([banner] + tail, '\n');
    assert [header, banner] + body + [""] == parts;
    assert header + "\n" + banner + "\n" + Join(lines, '\n') + "\n"
           == header + "\n" + (banner + "\n" + (Join(lines, '\n') + "\n"));
  }

  /** The description is the newline-join of its lines: the header,
      `Searching for:`, one line per criterion (a blank line when there is
      none), and an empty line after the final newline. */
  lemma DescribeLayout(username: string, now: string, criteria: seq<Criterion>)
    ensures Describe(username, now, criteria)
            == Join([Header(username, now), Banner]
                    + (if criteria == [] then [""] else FilterLines(criteria))
                    + [""], '\n')
  {
    JoinLayout(Header(username, now), Banner, FilterLines(criteria));
  }

  const Banner: string := "Searching for:"

  /** A search request: the criteria in its JSON body, the user making it,
      and the criteria the view has read so far. */
  class Extractor {
    const requestData: seq<Criterion>
    const username: string
    var query: Option<seq<Criterion>>
    /** How often the request body has been read. */
    ghost var fetches: nat

    /** Whatever the view holds was read from its request. */
    ghost predicate Valid()
      reads this
    {
      query.None? || query.value == requestData
    }

    constructor(requestData: seq<Criterion>, username: string)
      ensures Valid()
      ensures this.requestData == requestData && this.username == username
      ensures query == None && fetches == 0
    {
      this.requestData := requestData;
      this.username := username;
      query := None;
      fetches := 0;
    }

    /** `get_query`: the body is read whenever nothing truthy is held, so an
        empty list of criteria is read again on every call. */
    method GetQuery() returns (q: seq<Criterion>)
      requires Valid()
      modifies this
      ensures Valid()
      ensures q == requestData
      ensures query == if old(query).None? || old(query).value == [] then Some(requestData) else old(query)
      ensures fetches == old(fetches) + if old(query).None? || old(query).value == [] then 1 else 0
    {
      if query.None? || query.value == [] {
        query := Some(requestData);
        fetches := fetches + 1;
      }
      q := query.value;
    }

    /** `get_episodes`: the matches of every criterion, in order, folded. */
    method GetEpisodes(env: Env) returns (r: Result<set<EpisodeId>>)
      requires Valid()
      modifies this
      ensures Valid() && query == Some(requestData)
      ensures r == RunQuery(env, requestData)
      ensures fetches == old(fetches) + if old(query).None? || old(query).value == [] then 1 else 0
    {
      var q := GetQuery();
      r := SearchCriteria(env, q);
    }

    /** `description`, at the time `now`. */
    method Description(now: string) returns (d: string)
      requires Valid()
      modifies this
      ensures Valid() && query == Some(requestData)
      ensures d == Describe(username, now, requestData)
      ensures fetches == old(fetches) + if old(query).None? || old(query).value == [] then 1 else 0
    {
      var q := GetQuery();
      d := Describe(username, now, q);
    }
  }
}
