/** Resolving one filter criterion to the episodes it matches
    (`Extractor.episodes_for_criteria` and the three per-kind helpers).
    The database is the `Store`: the result of each ORM filter the code
    issues, as a function of the lookup key and the value compared. */
module Criteria {
  import opened Base
  import opened Text
  import opened Dates
  import opened Registry
  import opened Lookups

  type EpisodeId = nat
  type PatientId = nat

  /** One element of a submitted query. */
  datatype Criterion = Criterion(
    combine: string,
    column: string,
    field: string,
    queryType: string,
    query: string)

  /** The right-hand side of an ORM lookup. `DateValue(d)` is the `datetime`
      `strptime` returns: midnight at the start of `d`. */
  datatype Value = BoolValue(b: bool) | DateValue(d: Date) | TextValue(s: string)

  /** What the data store answers:
      - `episodesWhere(key, v)`: `Episode.objects.filter(**{key: v})`
      - `patientsWhere(key, v)`: `Patient.objects.filter(**{key: v})`
      - `episodesOf(p)`: `p.episode_set.all()`
      - `everTagged(team)`: `Episode.objects.ever_tagged(team)`
      - `synonym(vocabulary, name)`: the name of the entry a `Synonym` of that
        vocabulary called `name` points to, if there is one. */
  datatype Store = Store(
    episodesWhere: (string, Value) -> seq<EpisodeId>,
    patientsWhere: (string, Value) -> seq<PatientId>,
    episodesOf: PatientId -> seq<EpisodeId>,
    everTagged: string -> seq<EpisodeId>,
    synonym: (string, string) -> Option<string>)

  /** The store, the registered models in `get_models()` order, and the
      `Tagging` model (which `get_models()` lists too: `TaggingRegistered`). */
  datatype Env = Env(store: Store, registry: seq<ModelInfo>, tagging: ModelInfo)

  /** The model a column's name selects: `Tagging` for any spelling of
      `tags`, otherwise what the registry loop leaves in `Mod`. */
  function ResolvedModel(env: Env, modelName: string): (r: Option<ModelInfo>)
    ensures Lower(modelName) == "tags" ==> r == Some(env.tagging)
    ensures r.Some? && r.value != env.tagging ==> r.value in env.registry && NameMatches(r.value, modelName)
  {
    if Lower(modelName) == "tags" then Some(env.tagging) else ModelFor(env.registry, modelName)
  }

  /** Every episode of every listed patient. */
  function PatientEpisodes(store: Store, patients: seq<PatientId>): (r: set<EpisodeId>)
    ensures forall i :: 0 <= i < |patients| ==> Elems(store.episodesOf(patients[i])) <= r
    ensures forall e :: e in r ==> exists i :: 0 <= i < |patients| && e in store.episodesOf(patients[i])
  {
    set p, e | p in patients && e in store.episodesOf(p) :: e
  }

  /** The value a hybrid field's vocabulary lookup compares with: the entry a
      synonym points to, else the name as given. */
  function CanonicalName(store: Store, vocabulary: string, name: string): (r: string)
    ensures r == name || store.synonym(vocabulary, name) == Some(r)
    ensures store.synonym(vocabulary, name).None? ==> r == name
    ensures store.synonym(vocabulary, name).Some? ==> r == store.synonym(vocabulary, name).value
  {
    match store.synonym(vocabulary, name)
    case Some(canonical) => canonical
    case None => name
  }

  /** The boolean lookup: true exactly for the text `true`, as typed. */
  function BooleanLookup(c: Criterion, field: string): (r: (string, Value))
    ensures r.0 == BooleanKey(c.column, field)
    ensures r.1.BoolValue? && (r.1.b <==> c.query == "true")
  {
    (BooleanKey(c.column, field), BoolValue(c.query == "true"))
  }

  /** The date lookup: fails exactly when the value is not a date, and
      otherwise compares with the parsed date. */
  function DateLookup(c: Criterion, field: string): (r: Result<(string, Value)>)
    ensures r.Err? <==> ParseDate(c.query).None?
    ensures r.Err? ==> r.error == MalformedDate(c.query)
    ensures r.Ok? ==> r.value == (DateKey(c.column, field, c.queryType), DateValue(ParseDate(c.query).value))
  {
    match ParseDate(c.query)
    case None => Err(MalformedDate(c.query))
    case Some(d) => Ok((DateKey(c.column, field, c.queryType), DateValue(d)))
  }

  /** The vocabulary half of a hybrid lookup: the synonym's target when
      there is one, otherwise the value as typed. */
  function ForeignKeyLookup(store: Store, c: Criterion, field: string, vocabulary: string): (r: (string, Value))
    ensures r.0 == ForeignKeyKey(c.column, field, MatchSuffix(c.queryType))
    ensures store.synonym(vocabulary, c.query).Some? ==> r.1 == TextValue(store.synonym(vocabulary, c.query).value)
    ensures store.synonym(vocabulary, c.query).None? ==> r.1 == TextValue(c.query)
  {
    (ForeignKeyKey(c.column, field, MatchSuffix(c.queryType)),
     TextValue(CanonicalName(store, vocabulary, c.query)))
  }

  /** The free-text half of a hybrid lookup: a key apart from the vocabulary
      half's, compared with the value as typed. */
  function FreeTextLookup(c: Criterion, field: string): (r: (string, Value))
    ensures r.0 == FreeTextKey(c.column, field, MatchSuffix(c.queryType))
    ensures r.0 != ForeignKeyKey(c.column, field, MatchSuffix(c.queryType))
    ensures r.1 == TextValue(c.query)
  {
    HybridKeysDiffer(c.column, field, MatchSuffix(c.queryType));
    (FreeTextKey(c.column, field, MatchSuffix(c.queryType)), TextValue(c.query))
  }

  /** The two halves of a hybrid lookup compare with the same value exactly
      when the value has no synonym, or is its own synonym: the free-text
      half never sees a synonym's target. */
  lemma FreeTextIgnoresSynonym(store: Store, c: Criterion, field: string, vocabulary: string)
    ensures ForeignKeyLookup(store, c, field, vocabulary).1 == FreeTextLookup(c, field).1
            <==> store.synonym(vocabulary, c.query) == None || store.synonym(vocabulary, c.query) == Some(c.query)
  {
  }

  /** The lookup of any other field: the unlowered model name as the
      relation, and the value as typed. Its key agrees with the boolean
      key's lower-cased relation exactly when the model name has no
      capital letter. */
  function PlainLookup(c: Criterion, field: string): (r: (string, Value))
    ensures r.0 == PlainKey(ModelName(c.column), field, MatchSuffix(c.queryType))
    ensures r.0 == BooleanKey(c.column, field) + MatchSuffix(c.queryType) <==> IsLowered(ModelName(c.column))
    ensures r.1 == TextValue(c.query)
  {
    PlainKeyLowered(ModelName(c.column), c.column, field, MatchSuffix(c.queryType));
    (PlainKey(ModelName(c.column), field, MatchSuffix(c.queryType)), TextValue(c.query))
  }

  lemma PlainKeyLowered(name: string, column: string, field: string, suffix: string)
    requires name == ModelName(column)
    ensures PlainKey(name, field, suffix) == BooleanKey(column, field) + suffix <==> IsLowered(name)
  {
    JoinedPrefixIsLoweredModelName(column);
    SameTail(name, Lower(name), PlainKey(name, field, suffix), BooleanKey(column, field) + suffix,
             "__", field, suffix);
    LoweredExactlyWhenFixed(name);
  }

  /** Two keys that differ only in a head of the same length are equal
      exactly when the heads are. */
  lemma SameTail<T>(a: seq<T>, b: seq<T>, x: seq<T>, y: seq<T>, sep: seq<T>, field: seq<T>, suffix: seq<T>)
    requires |a| == |b| && x == a + sep + field + suffix && y == b + sep + field + suffix
    ensures x == y <==> a == b
  {
    if x == y {
      assert a == x[..|a|];
      assert b == y[..|b|];
    }
  }

  /** The episodes of a text match on `m`: the episodes found directly for an
      episode subrecord, every episode of the patients found for a patient
      subrecord, and no binding at all for any other model. */
  function ScopedMatches(store: Store, m: ModelInfo, episodeHits: seq<EpisodeId>,
                         patientHits: seq<PatientId>): (r: Result<set<EpisodeId>>)
    ensures r.Err? <==> !IsSubrecord(m)
    ensures r.Err? ==> r.error == UnboundEpisodes(m.name)
  {
    match m.scope
    case EpisodeSubrecord => Ok(Elems(episodeHits))
    case PatientSubrecord => Ok(PatientEpisodes(store, patientHits))
    case NotSubrecord => Err(UnboundEpisodes(m.name))
  }

  /** The episodes one criterion selects, or why the request fails. */
  function CriterionMatches(env: Env, c: Criterion): (r: Result<set<EpisodeId>>)
    ensures r.Err? ==> r.error.NoSuchModel? || r.error.UnboundEpisodes? || r.error.MalformedDate?
    ensures r.Err? && r.error.NoSuchModel? ==> r.error.modelName == ModelName(c.column)
    ensures r.Err? && r.error.MalformedDate? ==> r.error.text == c.query
  {
    var store := env.store;
    var modelName := ModelName(c.column);
    var field := FieldName(c.field);
    match ResolvedModel(env, modelName)
    case None => Err(NoSuchModel(modelName))
    case Some(m) =>
      match Classify(m, field)
      case BooleanKind =>
        var (key, v) := BooleanLookup(c, field);
        Ok(Elems(store.episodesWhere(key, v)))
      case DateKind =>
        (match DateLookup(c, field)
         case Err(e) => Err(e)
         case Ok((key, v)) => Ok(Elems(store.episodesWhere(key, v))))
      case HybridKind(vocabulary) =>
        var (fk, fv) := ForeignKeyLookup(store, c, field, vocabulary);
        var (ft, tv) := FreeTextLookup(c, field);
        ScopedMatches(store, m, store.episodesWhere(fk, fv) + store.episodesWhere(ft, tv),
                      store.patientsWhere(fk, fv) + store.patientsWhere(ft, tv))
      case PlainKind =>
        if m == env.tagging then Ok(Elems(store.everTagged(c.field)))
        else
          var (key, v) := PlainLookup(c, field);
          ScopedMatches(store, m, store.episodesWhere(key, v), store.patientsWhere(key, v))
  }

  /** A list of episodes returned by the code agrees with a specified result
      when it holds exactly the specified episodes, or both fail alike. */
  predicate Agrees(r: Result<seq<EpisodeId>>, spec: Result<set<EpisodeId>>) {
    match r
    case Ok(episodes) => spec == Ok(Elems(episodes))
    case Err(e) => spec == Err(e)
  }

  /** `for p in pats: eps += list(p.episode_set.all())` */
  method EpisodesOfPatients(store: Store, patients: seq<PatientId>) returns (episodes: seq<EpisodeId>)
    ensures Elems(episodes) == PatientEpisodes(store, patients)
  {
    episodes := [];
    for i := 0 to |patients|
      invariant Elems(episodes) == PatientEpisodes(store, patients[..i])
    {
      PatientEpisodesSnoc(store, patients[..i], patients[i]);
      assert patients[..i + 1] == patients[..i] + [patients[i]];
      episodes := episodes + store.episodesOf(patients[i]);
    }
    assert patients[..|patients|] == patients;
  }

  lemma PatientEpisodesSnoc(store: Store, patients: seq<PatientId>, p: PatientId)
    ensures PatientEpisodes(store, patients + [p]) == PatientEpisodes(store, patients) + Elems(store.episodesOf(p))
  {
    var all := patients + [p];
    forall e | e in PatientEpisodes(store, all)
      ensures e in PatientEpisodes(store, patients) + Elems(store.episodesOf(p))
    {
      var q :| q in all && e in store.episodesOf(q);
      if q != p {
        assert q in patients;
      }
    }
  }

  lemma HitsOfOne(store: Store, l: (string, Value))
    ensures EpisodeHits(store, [l]) == store.episodesWhere(l.0, l.1)
    ensures PatientHits(store, [l]) == store.patientsWhere(l.0, l.1)
  {
    assert [l][1..] == [];
  }

  lemma HitsOfTwo(store: Store, l: (string, Value), l': (string, Value))
    ensures EpisodeHits(store, [l, l']) == store.episodesWhere(l.0, l.1) + store.episodesWhere(l'.0, l'.1)
    ensures PatientHits(store, [l, l']) == store.patientsWhere(l.0, l.1) + store.patientsWhere(l'.0, l'.1)
  {
    assert [l, l'][1..] == [l'];
    HitsOfOne(store, l');
  }

  /** The scope dispatch shared by the hybrid and plain branches. */
  method EpisodesInScope(store: Store, m: ModelInfo, lookups: seq<(string, Value)>)
    returns (r: Result<seq<EpisodeId>>)
    ensures Agrees(r, ScopedMatches(store, m, EpisodeHits(store, lookups), PatientHits(store, lookups)))
  {
    match m.scope
    case EpisodeSubrecord =>
      r := Ok(EpisodeHits(store, lookups));
    case PatientSubrecord =>
      var patients := PatientHits(store, lookups);
      var episodes := EpisodesOfPatients(store, patients);
      r := Ok(episodes);
    case NotSubrecord =>
      r := Err(UnboundEpisodes(m.name));
  }

  /** The episodes the lookups find, in order (`list(qs_fk) + list(qs_ft)`). */
  function EpisodeHits(store: Store, lookups: seq<(string, Value)>): seq<EpisodeId>
  {
    if lookups == [] then []
    else store.episodesWhere(lookups[0].0, lookups[0].1) + EpisodeHits(store, lookups[1..])
  }

  /** The patients the lookups find, in order. */
  function PatientHits(store: Store, lookups: seq<(string, Value)>): seq<PatientId>
  {
    if lookups == [] then []
    else store.patientsWhere(lookups[0].0, lookups[0].1) + PatientHits(store, lookups[1..])
  }

  /** `_episodes_for_fkorft_fields` */
  method EpisodesForHybrid(store: Store, c: Criterion, field: string, m: ModelInfo, vocabulary: string)
    returns (r: Result<seq<EpisodeId>>)
    ensures
      var (fk, fv) := ForeignKeyLookup(store, c, field, vocabulary);
      var (ft, tv) := FreeTextLookup(c, field);
      Agrees(r, ScopedMatches(store, m, store.episodesWhere(fk, fv) + store.episodesWhere(ft, tv),
                              store.patientsWhere(fk, fv) + store.patientsWhere(ft, tv)))
  {
    var lookups := [ForeignKeyLookup(store, c, field, vocabulary), FreeTextLookup(c, field)];
    HitsOfTwo(store, lookups[0], lookups[1]);
    r := EpisodesInScope(store, m, lookups);
  }

  /** `Extractor.episodes_for_criteria` */
  method EpisodesForCriteria(env: Env, c: Criterion) returns (r: Result<seq<EpisodeId>>)
    ensures Agrees(r, CriterionMatches(env, c))
  {
    var store := env.store;
    var modelName := ModelName(c.column);
    var field := FieldName(c.field);
    var found := ResolveModel(env.registry, modelName);
    if Lower(modelName) == "tags" {
      found := Some(env.tagging);
    }
    if found.None? {
      return Err(NoSuchModel(modelName));
    }
    var m := found.value;
    match Classify(m, field)
    case BooleanKind =>
      var (key, v) := BooleanLookup(c, field);
      r := Ok(store.episodesWhere(key, v));
    case DateKind =>
      var lookup := DateLookup(c, field);
      if lookup.Err? {
        return Err(lookup.error);
      }
      var (key, v) := lookup.value;
      r := Ok(store.episodesWhere(key, v));
    case HybridKind(vocabulary) =>
      r := EpisodesForHybrid(store, c, field, m, vocabulary);
    case PlainKind =>
      if m == env.tagging {
        r := Ok(store.everTagged(c.field));
      } else {
        HitsOfOne(store, PlainLookup(c, field));
        r := EpisodesInScope(store, m, [PlainLookup(c, field)]);
      }
  }

  lemma ElemsAppend<T>(a: seq<T>, b: seq<T>)
    ensures Elems(a + b) == Elems(a) + Elems(b)
  {
  }

  lemma PatientEpisodesAppend(store: Store, a: seq<PatientId>, b: seq<PatientId>)
    ensures PatientEpisodes(store, a + b) == PatientEpisodes(store, a) + PatientEpisodes(store, b)
  {
    forall e | e in PatientEpisodes(store, a + b)
      ensures e in PatientEpisodes(store, a) + PatientEpisodes(store, b)
    {
      var q :| q in a + b && e in store.episodesOf(q);
      if q in a {
        assert e in PatientEpisodes(store, a);
      } else {
        assert e in PatientEpisodes(store, b);
      }
    }
  }

  /** The model a criterion's column selects: `Tagging` for any spelling of
      `tags`; otherwise none exactly when no registered class name lower-cases
      to the column's name, and else the entry the tie-break chooses. */
  lemma ResolvedModelChoice(env: Env, modelName: string)
    ensures Lower(modelName) == "tags" ==> ResolvedModel(env, modelName) == Some(env.tagging)
    ensures Lower(modelName) != "tags" ==>
              (ResolvedModel(env, modelName).None?
               <==> forall i :: 0 <= i < |env.registry| ==> !NameMatches(env.registry[i], modelName))
    ensures Lower(modelName) != "tags" && ResolvedModel(env, modelName).Some? ==>
              exists i :: Chosen(env.registry, modelName, i)
                          && env.registry[i] == ResolvedModel(env, modelName).value
  {
    if Lower(modelName) != "tags" {
      ModelForNone(env.registry, modelName);
      if ResolvedModel(env, modelName).Some? {
        ModelForIsChosen(env.registry, modelName);
      }
    }
  }

  /** A column whose name keeps an upper-case letter, and is not a spelling of
      `tags`, resolves to no model, and the criterion fails. */
  lemma UpperCaseColumnFails(env: Env, c: Criterion)
    requires !IsLowered(ModelName(c.column))
    requires Lower(ModelName(c.column)) != "tags"
    ensures CriterionMatches(env, c) == Err(NoSuchModel(ModelName(c.column)))
  {
    UpperCaseNameMatchesNothing(env.registry, ModelName(c.column));
  }

  /** A column that resolves through the registry names the relation of the
      boolean and hybrid lookups by that model's lower-cased class name. */
  lemma RegistryColumnPrefix(env: Env, c: Criterion)
    requires Lower(ModelName(c.column)) != "tags"
    requires ResolvedModel(env, ModelName(c.column)).Some?
    ensures JoinedPrefix(c.column) == ModelName(c.column)
            == Lower(ResolvedModel(env, ModelName(c.column)).value.name)
  {
    ResolvedModelChoice(env, ModelName(c.column));
    var i :| Chosen(env.registry, ModelName(c.column), i)
             && env.registry[i] == ResolvedModel(env, ModelName(c.column)).value;
    ResolvedPrefixes(c.column, env.registry[i].name);
  }

  /** A boolean criterion matches `True` only for the exact string `"true"`;
      every other string, `"True"` and `"TRUE"` included, selects the same
      episodes as `"false"`. */
  lemma BooleanCriterion(env: Env, c: Criterion)
    requires ResolvedModel(env, ModelName(c.column)).Some?
    requires Classify(ResolvedModel(env, ModelName(c.column)).value, FieldName(c.field)) == BooleanKind
    ensures CriterionMatches(env, c)
            == Ok(Elems(env.store.episodesWhere(BooleanKey(c.column, FieldName(c.field)), BoolValue(c.query == "true"))))
    ensures c.query != "true" ==> CriterionMatches(env, c) == CriterionMatches(env, c.(query := "false"))
  {
  }

  /** A date criterion fails on a value that is not a `dd/mm/yyyy` date, and
      otherwise compares with `__lte` for `Before`, `__gte` for `After` and
      exactly for anything else, on a relation that keeps the column's
      underscores. */
  lemma DateCriterion(env: Env, c: Criterion)
    requires ResolvedModel(env, ModelName(c.column)).Some?
    requires Classify(ResolvedModel(env, ModelName(c.column)).value, FieldName(c.field)) == DateKind
    ensures ParseDate(c.query).None? ==> CriterionMatches(env, c) == Err(MalformedDate(c.query))
    ensures ParseDate(c.query).Some? ==>
              CriterionMatches(env, c)
              == Ok(Elems(env.store.episodesWhere(
                      DatePrefix(c.column) + "__" + FieldName(c.field) + DateBound(c.queryType),
                      DateValue(ParseDate(c.query).value))))
  {
  }

  /** `Before` a date compares `__lte` with that date itself. On a
      `DateField` this includes that very day; the date stands for midnight,
      so on a `DateTimeField` the rest of the day is not included. */
  lemma BeforeIncludesTheDay(env: Env, c: Criterion, day: nat, month: nat, year: nat)
    requires ResolvedModel(env, ModelName(c.column)).Some?
    requires Classify(ResolvedModel(env, ModelName(c.column)).value, FieldName(c.field)) == DateKind
    requires ValidDate(Date(day, month, year))
    requires c.queryType == "Before" && c.query == Spelling(day, month, year)
    ensures CriterionMatches(env, c)
            == Ok(Elems(env.store.episodesWhere(
                    DatePrefix(c.column) + "__" + FieldName(c.field) + "__lte",
                    DateValue(Date(day, month, year)))))
  {
    ParseSpelling(day, month, year);
    DateCriterion(env, c);
  }

  /** A hybrid criterion is the union of a match on the vocabulary entry,
      with a synonym replaced by its entry's name, and a match on the free
      text as typed; for a patient subrecord it is every episode of the
      patients either half finds. */
  lemma HybridCriterion(env: Env, c: Criterion)
    requires ResolvedModel(env, ModelName(c.column)).Some?
    requires Classify(ResolvedModel(env, ModelName(c.column)).value, FieldName(c.field)).HybridKind?
    ensures
      var m := ResolvedModel(env, ModelName(c.column)).value;
      var field := FieldName(c.field);
      var suffix := MatchSuffix(c.queryType);
      var vocabulary := Classify(m, field).vocabulary;
      var fk := ForeignKeyKey(c.column, field, suffix);
      var ft := FreeTextKey(c.column, field, suffix);
      var canonical := TextValue(CanonicalName(env.store, vocabulary, c.query));
      var raw := TextValue(c.query);
      && (m.scope == EpisodeSubrecord ==>
            CriterionMatches(env, c)
            == Ok(Elems(env.store.episodesWhere(fk, canonical)) + Elems(env.store.episodesWhere(ft, raw))))
      && (m.scope == PatientSubrecord ==>
            CriterionMatches(env, c)
            == Ok(PatientEpisodes(env.store, env.store.patientsWhere(fk, canonical))
                  + PatientEpisodes(env.store, env.store.patientsWhere(ft, raw))))
      && (m.scope == NotSubrecord ==> CriterionMatches(env, c) == Err(UnboundEpisodes(m.name)))
  {
    var m := ResolvedModel(env, ModelName(c.column)).value;
    var field := FieldName(c.field);
    var (fk, fv) := ForeignKeyLookup(env.store, c, field, Classify(m, field).vocabulary);
    var (ft, tv) := FreeTextLookup(c, field);
    ElemsAppend(env.store.episodesWhere(fk, fv), env.store.episodesWhere(ft, tv));
    PatientEpisodesAppend(env.store, env.store.patientsWhere(fk, fv), env.store.patientsWhere(ft, tv));
  }

  /** Querying by a synonym is not the same as querying by the entry it
      stands for: the vocabulary half of the lookup is identical, but the
      free-text half still compares with the synonym as typed, so an episode
      whose free text is the synonym is found only by the synonym. */
  lemma SynonymOnlyOnVocabularyHalf(env: Env, c: Criterion, canonical: string, e: EpisodeId)
    requires ResolvedModel(env, ModelName(c.column)).Some?
    requires ResolvedModel(env, ModelName(c.column)).value.scope == EpisodeSubrecord
    requires Classify(ResolvedModel(env, ModelName(c.column)).value, FieldName(c.field)).HybridKind?
    requires
      var vocabulary := Classify(ResolvedModel(env, ModelName(c.column)).value, FieldName(c.field)).vocabulary;
      && env.store.synonym(vocabulary, c.query) == Some(canonical)
      && env.store.synonym(vocabulary, canonical) == None
    requires
      var field := FieldName(c.field);
      var suffix := MatchSuffix(c.queryType);
      && e in env.store.episodesWhere(FreeTextKey(c.column, field, suffix), TextValue(c.query))
      && e !in env.store.episodesWhere(FreeTextKey(c.column, field, suffix), TextValue(canonical))
      && e !in env.store.episodesWhere(ForeignKeyKey(c.column, field, suffix), TextValue(canonical))
    ensures
      var vocabulary := Classify(ResolvedModel(env, ModelName(c.column)).value, FieldName(c.field)).vocabulary;
      ForeignKeyLookup(env.store, c, FieldName(c.field), vocabulary)
      == ForeignKeyLookup(env.store, c.(query := canonical), FieldName(c.field), vocabulary)
    ensures e in CriterionMatches(env, c).value
    ensures CriterionMatches(env, c.(query := canonical)).Ok?
    ensures e !in CriterionMatches(env, c.(query := canonical)).value
  {
    HybridCriterion(env, c);
    HybridCriterion(env, c.(query := canonical));
  }

  /** A plain criterion on an episode subrecord selects the episodes found
      with the unlowered model name as the relation and the value as typed. */
  lemma PlainEpisode(env: Env, c: Criterion)
    requires ResolvedModel(env, ModelName(c.column)).Some?
    requires ResolvedModel(env, ModelName(c.column)).value != env.tagging
    requires ResolvedModel(env, ModelName(c.column)).value.scope == EpisodeSubrecord
    requires Classify(ResolvedModel(env, ModelName(c.column)).value, FieldName(c.field)) == PlainKind
    ensures CriterionMatches(env, c)
            == Ok(Elems(env.store.episodesWhere(
                    ModelName(c.column) + "__" + FieldName(c.field) + MatchSuffix(c.queryType),
                    TextValue(c.query))))
  {
  }

  /** A plain criterion on a patient subrecord selects every episode of every
      patient the lookup finds, and nothing else. */
  lemma PatientScopedExpansion(env: Env, c: Criterion)
    requires ResolvedModel(env, ModelName(c.column)).Some?
    requires ResolvedModel(env, ModelName(c.column)).value != env.tagging
    requires ResolvedModel(env, ModelName(c.column)).value.scope == PatientSubrecord
    requires Classify(ResolvedModel(env, ModelName(c.column)).value, FieldName(c.field)) == PlainKind
    ensures CriterionMatches(env, c).Ok?
    ensures
      var (key, v) := PlainLookup(c, FieldName(c.field));
      forall e :: e in CriterionMatches(env, c).value
                  <==> exists p :: p in env.store.patientsWhere(key, v) && e in env.store.episodesOf(p)
  {
  }

  /** One matched patient with two episodes yields both episodes. */
  lemma OnePatientTwoEpisodes(env: Env, c: Criterion, p: PatientId, e1: EpisodeId, e2: EpisodeId)
    requires ResolvedModel(env, ModelName(c.column)).Some?
    requires ResolvedModel(env, ModelName(c.column)).value != env.tagging
    requires ResolvedModel(env, ModelName(c.column)).value.scope == PatientSubrecord
    requires Classify(ResolvedModel(env, ModelName(c.column)).value, FieldName(c.field)) == PlainKind
    requires env.store.patientsWhere(PlainLookup(c, FieldName(c.field)).0, PlainLookup(c, FieldName(c.field)).1) == [p]
    requires env.store.episodesOf(p) == [e1, e2]
    ensures CriterionMatches(env, c) == Ok({e1, e2})
  {
    PatientScopedExpansion(env, c);
    var found := CriterionMatches(env, c).value;
    assert p in [p] && e1 in [e1, e2] && e2 in [e1, e2];
    assert e1 in found && e2 in found;
    assert found == {e1, e2};
  }

  /** A criterion fails for want of a model exactly when its column
      resolves to none. */
  lemma NoModelExactlyWhenUnresolved(env: Env, c: Criterion)
    ensures CriterionMatches(env, c) == Err(NoSuchModel(ModelName(c.column)))
            <==> ResolvedModel(env, ModelName(c.column)).None?
  {
    match ResolvedModel(env, ModelName(c.column))
    case None =>
    case Some(m) =>
      match Classify(m, FieldName(c.field))
      case BooleanKind =>
      case DateKind =>
      case HybridKind(_) =>
      case PlainKind =>
  }

  /** A `tags` column matches the episodes ever tagged with the team named
      by the criterion's field, as typed; the value and the comparison are
      not used. */
  lemma TagsCriterion(env: Env, c: Criterion)
    requires Lower(ModelName(c.column)) == "tags"
    requires Classify(env.tagging, FieldName(c.field)) == PlainKind
    ensures CriterionMatches(env, c) == Ok(Elems(env.store.everTagged(c.field)))
  {
    assert ResolvedModel(env, ModelName(c.column)) == Some(env.tagging);
  }

  /** A text criterion on a model that is no subrecord (other than
      `Tagging`) never binds its result and fails. */
  lemma UnscopedModelFails(env: Env, c: Criterion)
    requires ResolvedModel(env, ModelName(c.column)).Some?
    requires ResolvedModel(env, ModelName(c.column)).value != env.tagging
    requires ResolvedModel(env, ModelName(c.column)).value.scope == NotSubrecord
    requires
      var kind := Classify(ResolvedModel(env, ModelName(c.column)).value, FieldName(c.field));
      kind.HybridKind? || kind.PlainKind?
    ensures CriterionMatches(env, c) == Err(UnboundEpisodes(ResolvedModel(env, ModelName(c.column)).value.name))
  {
  }

  /** `get_models()` lists `Tagging` itself, and no other model has its
      lower-cased class name. */
  ghost predicate TaggingRegistered(env: Env) {
    && env.tagging in env.registry
    && forall m :: m in env.registry && NameMatches(m, Lower(env.tagging.name)) ==> m == env.tagging
  }

  /** Naming `Tagging` by its own class name reaches the `ever_tagged` branch
      just as the `tags` column does: the registry loop leaves `Tagging` in
      `Mod`, which then compares equal to `models.Tagging`. */
  lemma TaggingColumn(env: Env, c: Criterion)
    requires TaggingRegistered(env)
    requires ModelName(c.column) == Lower(env.tagging.name)
    requires Classify(env.tagging, FieldName(c.field)) == PlainKind
    ensures CriterionMatches(env, c) == Ok(Elems(env.store.everTagged(c.field)))
  {
    var name := ModelName(c.column);
    if Lower(name) != "tags" {
      var k :| 0 <= k < |env.registry| && env.registry[k] == env.tagging;
      assert NameMatches(env.registry[k], name);
      ModelForNone(env.registry, name);
      ModelForIsChosen(env.registry, name);
      var i :| Chosen(env.registry, name, i) && env.registry[i] == ModelFor(env.registry, name).value;
      assert Chosen(env.registry, name, i);
      assert env.registry[i] in env.registry;
    }
    assert ResolvedModel(env, name) == Some(env.tagging);
  }
}
