# The OPAL Extractor query engine, in Dafny

OPAL is a Django application for tracking hospital patients and their
episodes of care. Its `Extractor` view lets a clinician search episodes with
a list of criteria. Each criterion names a record type (the `column`), one of
its fields, a comparison (`queryType`), a value (`query`) and a combinator
(`combine`). For each criterion the Extractor does four things:

- it resolves the record type among the registered models;
- it classifies the field as boolean, date, foreign-key-or-free-text (a
  "hybrid") or plain;
- it builds the ORM lookup key that kind of field calls for;
- it collects the matching episodes, expanding patient-level records to all
  of the patient's episodes.

It then folds the per-criterion sets together in order with intersection,
union and difference. It can also describe a search in a few lines of text.
Next to it, three views turn requests into queries:

- `EpisodeTemplateView.get_column_context` picks the list schema for a tag and subtag;
- `patient_search_view` builds the patient filter from the query string;
- `EpisodeListView.get` builds the episode-list filter.

The project models all of this:

- `Text`: Python's `lower`, `replace` and `join`, and a `split` on a
  separator that stands for the `/` fields `strptime` reads at line 341, with
  the facts the lookups need about them.
- `Dates`: `strptime(value, "%d/%m/%Y")`. The day, month and year tokens
  follow Python 2.7's regular expressions, then the calendar check of
  `datetime` applies. A parsed string is always the spelling of the date it
  yields, and every spelling of a real date parses back to it.
- `Registry`: the models as the Extractor sees them. Covers the model-resolution
  loop with its tie-break (the first match, replaced by any later match that is
  an episode or patient subrecord) and the field-kind classification.
- `Lookups`: the names and ORM lookup keys built from a criterion.
- `Criteria`: the ORM as an abstract `Store`, the specification
  `CriterionMatches` of one criterion, and the methods that compute it as the
  view does: `episodes_for_criteria` and its three helpers.
- `Combination`: the fold of `get_episodes` as a specification on sets, and
  the method that runs it.
- `Extraction`: the whole search, the description, and the `Extractor` class
  with its cached `query` field.
- `Views`: the schema choice and the two filter builders.

The ORM, the database and the request are not modelled; they are parameters:

- a `Store` answers `filter(**{key: value})` on episodes and patients,
  `episode_set` of a patient, `ever_tagged` of a team, and the synonym table;
- an `Env` adds the registry of models and the `Tagging` model.

## Quirks of the code the model keeps

The model follows the code in each of these cases:

- Boolean values are compared with `== 'true'`, which is case-sensitive.
  `"True"` and `"TRUE"` select false records (`Criteria.BooleanCriterion`).
- `not` computes `set(episodes).difference(working)`. The result is the new
  criterion's episodes minus the accumulated set, not the reverse
  (`Combination.NotKeepsOnlyTheNew`, `Combination.OrderMatters`).
- A synonym replaces the value only in the vocabulary half of a hybrid
  lookup. The free-text half still compares the synonym as typed, so querying
  by a synonym is not always the same as querying by the canonical name
  (`Criteria.SynonymOnlyOnVocabularyHalf`).
- Classification raises no error for an undeclared field: such a field is
  classified as plain. The plain lookup key then names no field. Django
  rejects that key with `FieldError` when the filter runs, and the model does
  not (see "Left out").
- There is no error for an ambiguous type name: the tie-break loop picks one
  (`Registry.ModelForIsChosen`). The failures the code does have are modelled
  as errors instead of exceptions:
  - no model of that name (`Mod` stays `None`);
  - a model that is no subrecord (`eps` never bound);
  - a malformed date;
  - an unknown combinator (the `KeyError` of the method table).
- The boolean and date lookups query `Episode` directly, whatever the model's
  scope, so they never expand patients.

## Model

| member | source | states |
|---|---|---|
| Text.Lower | opal/views/core.py:394 | `lower()` keeps the length, lower-cases each character in place and leaves no upper-case letter |
| Text.RemoveChar | opal/views/core.py:393 | `replace(ch, '')` keeps every character except `ch`, each as often as before, and leaves no `ch` |
| Text.RemoveCharAppend | opal/views/core.py:393 | `replace(ch, '')` of a concatenation is the concatenation of the two results, so the kept characters stay in their order |
| Text.RemoveCharOne | opal/views/core.py:393 | a single character is kept exactly when it is not `ch` |
| Text.ReplaceChar | opal/views/core.py:394 | `replace(a, b)` on single characters changes each `a` into `b` in place and nothing else |
| Text.Split | opal/views/core.py:341 | the `/`-separated fields `strptime` reads: one piece more than there are separators, and no piece holds a separator |
| Text.LowerRemoveCommute | opal/views/core.py:332-334 | lower-casing commutes with removing a character that is not a letter |
| Text.ReplaceThenRemove | opal/views/core.py:332-334 | turning spaces into underscores and then dropping underscores equals dropping both |
| Text.Join | opal/views/core.py:460 | `"\n".join` starts with the first part; `SplitJoin` and `JoinSplit` pin down the rest |
| Text.SplitJoin | opal/views/core.py:460 | splitting a join of parts that hold no separator gives the parts back |
| Text.JoinSplit | opal/views/core.py:460 | joining the pieces of a split gives the string back |
| Dates.ParseDay | opal/views/core.py:341 | an accepted day token reads as a day in 1..31 and spells that day: two digits, or one digit alone or after a space |
| Dates.ParseMonth | opal/views/core.py:341 | an accepted month token reads as a month in 1..12 and spells that month in one or two digits |
| Dates.ParseYear | opal/views/core.py:341 | a year token is accepted exactly when it is four digits, and is the four-digit spelling of the year it reads as |
| Dates.ParseDate | opal/views/core.py:341 | a parsed date is a real calendar date with a year in 1..9999, and the three `/`-separated pieces of the string spell its day, month and year |
| Dates.PaddedNumber | opal/views/core.py:341 | a string of digits is the zero-padded spelling, at its own width, of the number it reads as |
| Dates.ParseDateSound | opal/views/core.py:341 | every accepted string is a spelled day, `/`, a spelled month, `/` and the four-digit year of the date returned |
| Dates.SpelledDayToken | opal/views/core.py:341 | any spelling of a day below 100 is accepted exactly for 1..31, as that day |
| Dates.SpelledMonthToken | opal/views/core.py:341 | any spelling of a month below 100 is accepted exactly for 1..12, as that month |
| Dates.ParseSpelledDate | opal/views/core.py:341 | the converse of `ParseDateSound`: any spelling, padded or not, parses exactly when it names a real date, and then to that date |
| Dates.NumberPadded | opal/views/core.py:341 | a number written with leading zeros in enough digits reads back as that number |
| Dates.DayToken | opal/views/core.py:341 | a two-digit day token is accepted exactly for 1..31 |
| Dates.MonthToken | opal/views/core.py:341 | a two-digit month token is accepted exactly for 1..12 |
| Dates.YearToken | opal/views/core.py:341 | any four-digit year token is accepted as its value |
| Dates.ParseSpelling | opal/views/core.py:341 | a zero-padded `dd/mm/yyyy` string parses exactly when it names a real date, and then to that date |
| Registry.ModelFor | opal/views/core.py:396-403 | what the loop leaves in `Mod` is a registered model whose lower-cased class name is the name |
| Registry.ResolveModel | opal/views/core.py:396-403 | the loop over the registered models ends with the specified choice |
| Registry.ModelForNone | opal/views/core.py:396-403 | resolution finds nothing exactly when no lower-cased class name equals the name |
| Registry.ModelForChosen | opal/views/core.py:396-403 | the entry that matches, is the first match or a subrecord, and has no later subrecord match is the one returned |
| Registry.ModelForIsChosen | opal/views/core.py:396-403 | whatever resolution returns is such an entry |
| Registry.UpperCaseNameMatchesNothing | opal/views/core.py:393-398 | a column name keeping an upper-case letter resolves to no model |
| Registry.NamedFields | opal/views/core.py:408 | the named fields are exactly the model's fields with that name |
| Registry.NamedFieldsSingle | opal/views/core.py:408-413 | exactly one named field iff the field is declared once, and then it is that field |
| Registry.Classify | opal/views/core.py:408-419 | boolean and date kinds need exactly one field of that name; a hybrid names an attribute of the model and carries its vocabulary; a plain field is no hybrid attribute |
| Registry.ClassifyPrecedence | opal/views/core.py:408-419 | boolean, then date, apply only to a field declared once; then a hybrid attribute; otherwise plain; each stated as an iff |
| Lookups.ModelName | opal/views/core.py:393 | the column with every space and underscore removed and every other character kept as often |
| Lookups.ModelNameKeepsOrder | opal/views/core.py:393 | the model name of a concatenation is the concatenation of the model names, and a single character survives exactly when it is neither a space nor an underscore: the kept characters stay in their order |
| Lookups.FieldName | opal/views/core.py:394 | the field of the same length, with each space turned into an underscore and every other character into its lower-case form, in place |
| Lookups.JoinedPrefix | opal/views/core.py:332-334 | the boolean and hybrid relation prefix holds no space and no underscore |
| Lookups.DatePrefix | opal/views/core.py:339 | the date relation prefix is lower-cased and holds no space |
| Lookups.BooleanKey | opal/views/core.py:334 | the boolean key is the joined prefix, `__` and the field |
| Lookups.DateKey | opal/views/core.py:346 | the date key is the date prefix, `__`, the field and the bound |
| Lookups.ForeignKeyKey | opal/views/core.py:363 | the vocabulary half compares the entry's `name` through the `<field>_fk` relation |
| Lookups.FreeTextKey | opal/views/core.py:364 | the free-text half compares the `<field>_ft` column |
| Lookups.PlainKey | opal/views/core.py:421 | the plain key starts from the unlowered model name of line 393, not the lower-cased column of line 420 |
| Lookups.MatchSuffix | opal/views/core.py:388-391 | `__icontains` exactly for `Contains`, `__iexact` for every other comparison |
| Lookups.DateBound | opal/views/core.py:340-345 | `__lte` exactly for `Before`, `__gte` exactly for `After`, no suffix otherwise |
| Lookups.JoinedPrefixIsLoweredModelName | opal/views/core.py:332-334 | the boolean and hybrid relation prefix is the lower-cased model name |
| Lookups.DatePrefixKeepsUnderscores | opal/views/core.py:339 | the date prefix differs from the boolean one only by keeping the column's underscores |
| Lookups.ResolvedPrefixes | opal/views/core.py:332-334 | for a column that resolved through a class name, the relation prefix is the model name itself |
| Lookups.HybridKeysDiffer | opal/views/core.py:363-364 | the vocabulary and free-text lookups of a hybrid field use different keys |
| Criteria.CanonicalName | opal/views/core.py:355-361 | the vocabulary value is the entry a synonym points to whenever one exists, and the name as typed when none does |
| Criteria.ResolvedModel | opal/views/core.py:396-406 | any spelling of `tags` selects `Tagging`; any other model selected is registered under the lower-cased class name the column spells |
| Criteria.PatientEpisodes | opal/views/core.py:428-432 | every episode of every listed patient is included, and each included episode belongs to a listed patient |
| Criteria.BooleanLookup | opal/views/core.py:333-334 | the boolean key of the column and field, with the value true exactly for the text `true` |
| Criteria.DateLookup | opal/views/core.py:339-346 | fails with the value as typed exactly when it is no `dd/mm/yyyy` date; otherwise the date key and the parsed date |
| Criteria.ForeignKeyLookup | opal/views/core.py:355-363 | the `_fk__name` key, compared with the synonym's target when there is one and with the value as typed otherwise |
| Criteria.FreeTextLookup | opal/views/core.py:364 | the `_ft` key, which is never the `_fk__name` key of line 363, compared with the value as typed |
| Criteria.FreeTextIgnoresSynonym | opal/views/core.py:356-364 | the two halves compare with the same value exactly when the value has no synonym or is its own synonym, so the free-text half never sees a synonym's target |
| Criteria.PlainLookup | opal/views/core.py:420-421 | the plain key agrees with the lower-cased relation of the boolean key exactly when the model name has no capital letter, because line 421 uses the unlowered model name; the value is compared as typed |
| Criteria.PlainKeyLowered | opal/views/core.py:421 | the key built on the model name equals the one built on its lower-cased form exactly when the name has no capital letter |
| Criteria.ScopedMatches | opal/views/core.py:366-378 | the episodes of a text match fail exactly for a model that is no subrecord, with that model named |
| Criteria.CriterionMatches | opal/views/core.py:381-433 | one criterion can fail only for a missing model (named as line 393 spells it), an unbound result or a malformed date (the value as typed) |
| Criteria.NoModelExactlyWhenUnresolved | opal/views/core.py:396-408 | a criterion fails for want of a model exactly when its column resolves to none |
| Criteria.EpisodesOfPatients | opal/views/core.py:376-378 | the episodes collected are exactly the episodes of the matched patients |
| Criteria.EpisodesInScope | opal/views/core.py:366-378 | episode subrecords give the episode hits, patient subrecords the episodes of the patient hits, and any other model fails |
| Criteria.EpisodesForHybrid | opal/views/core.py:350-379 | the hybrid branch agrees with the specified union of the vocabulary and free-text matches |
| Criteria.EpisodesForCriteria | opal/views/core.py:381-433 | the view's per-criterion method agrees with the specification `CriterionMatches`, errors included |
| Criteria.PatientEpisodesAppend | opal/views/core.py:372-378 | the episodes of two lists of patients are the union of the episodes of each |
| Criteria.ResolvedModelChoice | opal/views/core.py:396-406 | any spelling of `tags` selects `Tagging`; otherwise resolution fails iff nothing matches, and else returns the chosen entry |
| Criteria.UpperCaseColumnFails | opal/views/core.py:393-408 | a column with an upper-case letter, other than a spelling of `tags`, fails with no model |
| Criteria.RegistryColumnPrefix | opal/views/core.py:332-334 | a column resolved through the registry names the relation by the model's lower-cased class name |
| Criteria.BooleanCriterion | opal/views/core.py:331-336 | a boolean criterion matches `True` only for the exact value `"true"`; any other value acts like `"false"` |
| Criteria.DateCriterion | opal/views/core.py:338-348 | a date criterion fails on a malformed date and otherwise compares with the inclusive bound for its comparison |
| Criteria.BeforeIncludesTheDay | opal/views/core.py:341-343 | `Before` a spelled-out date compares `__lte` with that very date, which includes that day on a `DateField` |
| Criteria.HybridCriterion | opal/views/core.py:350-379 | a hybrid criterion is the union of the canonical-name and raw-text matches, expanded per patient for patient subrecords |
| Criteria.SynonymOnlyOnVocabularyHalf | opal/views/core.py:353-364 | a synonym and its canonical name give the same vocabulary lookup but can give different results |
| Criteria.PlainEpisode | opal/views/core.py:420-427 | a plain criterion on an episode subrecord selects the episodes found by the unlowered model name, the field and the suffix, with the value as typed |
| Criteria.PatientScopedExpansion | opal/views/core.py:428-432 | a plain criterion on a patient subrecord gives exactly the episodes of the matched patients |
| Criteria.OnePatientTwoEpisodes | opal/views/core.py:428-432 | one matched patient with two episodes yields both |
| Criteria.TagsCriterion | opal/views/core.py:405-424 | a `tags` column matches the episodes ever tagged with the field's team, ignoring the value |
| Criteria.TaggingColumn | opal/views/core.py:396-424 | with `Tagging` registered under its own name, a column naming it reaches `ever_tagged` as `tags` does |
| Criteria.UnscopedModelFails | opal/views/core.py:419-433 | a hybrid or plain criterion on a model that is no subrecord fails |
| Combination.Step | opal/views/core.py:445-446 | `and`, `or` and `not` keep the episodes in both, in either, and in the new set only; any other word fails |
| Combination.FoldFrom | opal/views/core.py:444-446 | the fold fails iff some later combinator is unknown, with the first one's error, and otherwise yields only episodes some criterion matched |
| Combination.Combine | opal/views/core.py:438-449 | the fold fails exactly for an unknown combinator after the first criterion, and otherwise yields only episodes some criterion matched |
| Combination.FoldMatches | opal/views/core.py:438-449 | the combining loop computes the specified fold |
| Combination.FoldFromSnoc | opal/views/core.py:444-446 | folding one more pair applies its combinator to the result so far |
| Combination.CombineSnoc | opal/views/core.py:438-449 | appending a criterion to a non-empty query applies its combinator to the earlier result |
| Combination.NotKeepsOnlyTheNew | opal/views/core.py:445-446 | a trailing `not` yields the new set minus the accumulated set |
| Combination.FirstCombineIgnored | opal/views/core.py:441-442 | the first criterion's combinator is never read, not even to reject it |
| Combination.AllOr | opal/views/core.py:444-446 | joined by `or` throughout, the result is every episode any criterion matched |
| Combination.AllAnd | opal/views/core.py:444-446 | joined by `and` throughout, the result is the episodes every criterion matched |
| Combination.OrderMatters | opal/views/core.py:444-446 | the same three criteria give different results in two orders |
| Extraction.Search | opal/views/core.py:437-449 | the collected outcomes folded by `Combine`, or the first failure; `SearchOutcome` states its properties |
| Extraction.RunQuery | opal/views/core.py:435-449 | the specified search: every criterion's outcome collected, then folded; its properties are the rows below |
| Extraction.Collect | opal/views/core.py:437 | collecting fails iff some criterion fails, with the first failure's error; otherwise it pairs every combinator with its matches |
| Extraction.SearchOutcome | opal/views/core.py:435-449 | a search fails on any failing criterion, fails only for a failing criterion or an unknown later combinator, and finds only matched episodes |
| Extraction.RunQueryOutcome | opal/views/core.py:435-449 | the same, stated on the criteria of a query |
| Extraction.FirstFailureDecides | opal/views/core.py:437 | the first failing criterion's error is the search's error |
| Extraction.PrefixFailure | opal/views/core.py:437 | a failure after successful criteria ends the search with that failure |
| Extraction.SearchStep | opal/views/core.py:437 | one turn of the loop over the criteria: a failing criterion ends the search with its error, otherwise its episodes join those collected |
| Extraction.SearchCriteria | opal/views/core.py:435-449 | the loop over the criteria followed by the fold computes the specified search |
| Extraction.NoCriteria | opal/views/core.py:438-439 | no criteria find nothing |
| Extraction.SingleCriterion | opal/views/core.py:441-449 | a single criterion is searched on its own, whatever its combinator |
| Extraction.RunQuerySnoc | opal/views/core.py:437-446 | every criterion is evaluated before any combinator is read; then the new combinator applies to the earlier result |
| Extraction.FilterLine | opal/views/core.py:460 | the line `combine column field queryType query` of one criterion, separated by single spaces |
| Extraction.FilterLines | opal/views/core.py:460 | one filter line per criterion, in order |
| Extraction.JoinLayout | opal/views/core.py:460-464 | two lines, joined filter lines and a newline make the newline-join of all those lines |
| Extraction.Header | opal/views/core.py:461 | the first line starts with the user name and holds no newline when the user name and the time hold none |
| Extraction.Describe | opal/views/core.py:455-464 | the header `username (date)`, `Searching for:`, the joined filter lines and a final newline |
| Extraction.DescribeLayout | opal/views/core.py:455-464 | the description is the newline-join of the header, `Searching for:`, the filter lines (a blank line when none) and an empty last line |
| Extraction.Extractor.constructor | opal/views/core.py:322-324 | a new view holds no query yet |
| Extraction.Extractor.GetQuery | opal/views/core.py:326-329 | the request's criteria are read whenever the cached query is missing or empty, and always returned |
| Extraction.Extractor.GetEpisodes | opal/views/core.py:435-449 | the view's search returns the specified result for its request's criteria |
| Extraction.Extractor.Description | opal/views/core.py:455-464 | the view's description is the specified text for its user, the given time and its criteria |
| Views.GlobalDefault | opal/views/core.py:95 | the table's `default` schema, or the missing-key failure when it has none |
| Views.ColumnSchema | opal/views/core.py:88-95 | the schema `get_column_context` hands on; its properties are the rows below |
| Views.ColumnSchemaChoice | opal/views/core.py:88-95 | an unknown tag keeps the view's schema; a known subtag wins, else the tag's `default`, else the table's `default`; failure exactly when none of the three exists |
| Views.UnknownSubtagIsIgnored | opal/views/core.py:90-93 | a subtag the tag's table lacks acts as no subtag |
| Views.ColumnSchemaFromTable | opal/views/core.py:88-95 | a chosen schema is always the view's own or one from the table |
| Views.PatientSearchFilter | opal/views/core.py:299-317 | the filter has the hospital-number and name lookups exactly when those parameters are present, with their values; with neither, the search is refused |
| Views.EpisodeListFilter | opal/views/core.py:258-266 | the team is the subtag when non-empty, else the tag when non-empty; the user filter is present exactly for tag `mine` |

## Left out

- RemoveChar: its own contract states which characters are kept and how often;
  their order is stated by `Text.RemoveCharAppend` and `Text.RemoveCharOne`,
  which together fix the result.
- ModelName: its own contract states the multiset of kept characters; their
  order is stated by `Lookups.ModelNameKeepsOrder`.
- Dates are calendar dates. `strptime` returns a `datetime` at midnight, and
  `DateValue(d)` stands for that midnight. The classification treats a
  `DateTimeField` as a date field, as `isinstance(..., DateField)` does, so on
  such a field `Before` a date stops at the start of that day. The model does
  not state what a `DateTimeField` comparison then selects.
- A `Criterion` always has its five keys. A criterion missing one raises
  `KeyError` at lines 388, 393-394, 437 or 460 of `opal/views/core.py`; the
  model has no such case.
- The ORM and database are an abstract `Store`, and the model registry is a
  sequence. Query-set laziness, ordering and duplicate rows are not modelled.
  Each criterion's result is a set, as `set(...)` makes it before combining.
- `get_episodes` returns `[]` (a list) for an empty query and a set otherwise.
  The model returns an empty set in both cases.
- The per-criterion methods return lists of episodes and are compared with
  the specification by their element sets. In the hybrid branch with a patient
  subrecord, the code deduplicates patients through `set(...)`. The model keeps
  the list, which has the same set of episodes.
- Lower-casing covers ASCII letters only, and digits are ASCII digits.
  Python's Unicode case mapping is not modelled.
- The criterion values come from JSON. The model assumes each is a string; a
  non-string value would make the `format` and `replace` calls behave
  differently.
- `datetime.datetime.now()` in `description` is a parameter, and
  `request.user.username` is a field of the view.
- `_get_request_data` is not part of this model. Its result, the list of
  criteria in the request body, is a field of the view. The `fetches` counter
  records each read.
- `_get_column_context` renders the chosen schema and is not part of this
  model. `Views.ColumnSchema` returns the schema it would be given.
- `request.GET` is a map holding the last value of each parameter.
- In `patient_search_view`, `search_terms` is built and never used, so it is
  left out. The search itself, its ordering by date of birth and the
  serialisation are also left out.
- `serialised_active`, `to_dict`, `episodes_as_json`, `_build_json_response`,
  the CSV export, the CRUD views, the template views' other context, the
  change-notification calls and the module-level loading of `LIST_SCHEMAS`
  are request plumbing outside the query engine.
- The ORM's own errors are not modelled. When a lookup key names no field or
  relation, Django raises `FieldError` at the filter call. That happens for a
  plain criterion on an undeclared field (column `demographics`, field
  `nosuch`), and for a date criterion whose column holds an underscore, because
  the date prefix keeps it (`microbiology_test__<field>__lte`). The `Store`
  answers every key, so `CriterionMatches` returns `Ok` there. The "errors
  included" of `Criteria.EpisodesForCriteria` and the "fails only for" of
  `Extraction.SearchOutcome` and `Extraction.RunQueryOutcome` hold relative to
  that total `Store`.
- Under Python 2 the format strings of lines 334, 346, 363-364, 421 and
  460-464 are byte strings. Formatting a non-ASCII character into them raises
  `UnicodeEncodeError`. The key templates receive only the column and the
  field, so a non-ASCII column or field fails there; the value is passed as a
  keyword value and fails only in the description of line 460 (a value such
  as `Ménière` makes `description()` fail). The model formats any string.
- Exceptions are `Err` results. The model does not distinguish the Python
  exception types beyond the `Error` constructors.
