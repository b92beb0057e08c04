/** The views around the Extractor that turn a request into a query: which
    list columns an episode list shows, the filter of the patient search,
    and the filter of the episode list. */
module Views {
  import opened Base

  /** An entry of the list-schema table: a list of columns, or a table of
      column lists keyed by subtag. */
  datatype SchemaEntry = Columns(columns: seq<string>) | BySubtag(subtags: map<string, seq<string>>)

  /** Whether `key` is found by `key in entry`: a key of a subtag table; a
      column list holds columns, never a subtag name. */
  predicate HasKey(entry: SchemaEntry, key: string) {
    entry.BySubtag? && key in entry.subtags
  }

  /** The schema `LIST_SCHEMAS['default']` stands for, or the `KeyError`
      when the table has none. */
  function GlobalDefault(listSchemas: map<string, SchemaEntry>): (r: Result<SchemaEntry>)
    ensures r.Ok? <==> "default" in listSchemas
    ensures r.Ok? ==> r.value == listSchemas["default"]
    ensures r.Err? ==> r.error == MissingDefaultSchema
  {
    if "default" in listSchemas then Ok(listSchemas["default"]) else Err(MissingDefaultSchema)
  }

  /** `EpisodeTemplateView.get_column_context`, up to the call that renders
      the chosen schema: the view's own schema unless the tag is in the
      table; then the tag's entry for the subtag, else the tag's `default`,
      else the table's `default`. */
  function ColumnSchema(listSchemas: map<string, SchemaEntry>, own: SchemaEntry,
                        tag: Option<string>, subtag: Option<string>): Result<SchemaEntry>
  {
    if tag.None? || tag.value !in listSchemas then Ok(own)
    else
      var entry := listSchemas[tag.value];
      if subtag.Some? && HasKey(entry, subtag.value) then Ok(Columns(entry.subtags[subtag.value]))
      else if HasKey(entry, "default") then Ok(Columns(entry.subtags["default"]))
      else GlobalDefault(listSchemas)
  }

  /** The choice of schema in terms of what the table holds: it fails only
      for a known tag whose entry offers neither the subtag nor a `default`
      when the table has no `default` either; otherwise it is the first
      schema found in that order. */
  lemma ColumnSchemaChoice(listSchemas: map<string, SchemaEntry>, own: SchemaEntry,
                           tag: Option<string>, subtag: Option<string>)
    ensures var r := ColumnSchema(listSchemas, own, tag, subtag);
            && (tag.None? || tag.value !in listSchemas ==> r == Ok(own))
            && (r.Err? <==>
                  && tag.Some? && tag.value in listSchemas
                  && !(subtag.Some? && HasKey(listSchemas[tag.value], subtag.value))
                  && !HasKey(listSchemas[tag.value], "default")
                  && "default" !in listSchemas)
            && (r.Err? ==> r.error == MissingDefaultSchema)
            && (tag.Some? && tag.value in listSchemas && subtag.Some?
                && HasKey(listSchemas[tag.value], subtag.value) ==>
                  r == Ok(Columns(listSchemas[tag.value].subtags[subtag.value])))
            && (tag.Some? && tag.value in listSchemas
                && !(subtag.Some? && HasKey(listSchemas[tag.value], subtag.value))
                && HasKey(listSchemas[tag.value], "default") ==>
                  r == Ok(Columns(listSchemas[tag.value].subtags["default"])))
            && (tag.Some? && tag.value in listSchemas
                && !(subtag.Some? && HasKey(listSchemas[tag.value], subtag.value))
                && !HasKey(listSchemas[tag.value], "default")
                && "default" in listSchemas ==>
                  r == Ok(listSchemas["default"]))
  {
  }

  /** A subtag the tag's table does not know falls back exactly as a missing
      subtag does. */
  lemma UnknownSubtagIsIgnored(listSchemas: map<string, SchemaEntry>, own: SchemaEntry,
                               tag: string, subtag: string)
    requires tag in listSchemas && !HasKey(listSchemas[tag], subtag)
    ensures ColumnSchema(listSchemas, own, Some(tag), Some(subtag)) == ColumnSchema(listSchemas, own, Some(tag), None)
  {
  }

  /** The tag and subtag only choose among schemas of the table or the
      view's own: every successful result is one of them. */
  lemma ColumnSchemaFromTable(listSchemas: map<string, SchemaEntry>, own: SchemaEntry,
                              tag: Option<string>, subtag: Option<string>)
    requires ColumnSchema(listSchemas, own, tag, subtag).Ok?
    ensures var s := ColumnSchema(listSchemas, own, tag, subtag).value;
            || s == own
            || (exists t, k :: t in listSchemas && HasKey(listSchemas[t], k) && s == Columns(listSchemas[t].subtags[k]))
            || ("default" in listSchemas && s == listSchemas["default"])
  {
    var s := ColumnSchema(listSchemas, own, tag, subtag).value;
    if tag.Some? && tag.value in listSchemas {
      var entry := listSchemas[tag.value];
      if subtag.Some? && HasKey(entry, subtag.value) {
        assert s == Columns(listSchemas[tag.value].subtags[subtag.value]);
      } else if HasKey(entry, "default") {
        assert s == Columns(listSchemas[tag.value].subtags["default"]);
      }
    }
  }

  /** What a patient search filters on: the lookup keys and their values. */
  datatype PatientSearch = PatientSearch(filter: map<string, string>)

  const HospitalNumberKey := "demographics__hospital_number__iexact"
  const NameKey := "demographics__name__icontains"

  /** The filter `patient_search_view` builds from the query string: an
      exact, case-blind match on the hospital number and a case-blind
      substring match on the name, each present exactly when its parameter
      is; with neither parameter the request is refused. */
  method PatientSearchFilter(get: map<string, string>) returns (r: Result<PatientSearch>)
    ensures r.Err? <==> "hospital_number" !in get && "name" !in get
    ensures r.Err? ==> r.error == NoSearchTerms
    ensures r.Ok? ==> (HospitalNumberKey in r.value.filter <==> "hospital_number" in get)
    ensures r.Ok? ==> (NameKey in r.value.filter <==> "name" in get)
    ensures r.Ok? && "hospital_number" in get ==> r.value.filter[HospitalNumberKey] == get["hospital_number"]
    ensures r.Ok? && "name" in get ==> r.value.filter[NameKey] == get["name"]
    ensures r.Ok? ==> r.value.filter.Keys <= {HospitalNumberKey, NameKey}
  {
    var filter: map<string, string> := map[];
    if "hospital_number" in get {
      filter := filter[HospitalNumberKey := get["hospital_number"]];
    }
    if "name" in get {
      filter := filter[NameKey := get["name"]];
    }
    if |filter| > 0 {
      return Ok(PatientSearch(filter));
    } else {
      return Err(NoSearchTerms);
    }
  }

  /** The right-hand side of an episode-list filter: a team name or the
      requesting user. */
  datatype FilterArg = TeamName(name: string) | RequestUser(user: nat)

  /** A URL parameter that is present and not empty. */
  predicate Truthy(s: Option<string>) {
    s.Some? && s.value != ""
  }

  const TeamKey := "tagging__team__name"
  const UserKey := "tagging__user"

  /** The filter `EpisodeListView.get` hands to `serialised_active`: the team
      is the subtag when there is one, else the tag; the tag `mine` also
      restricts the list to episodes the user has tagged. */
  method EpisodeListFilter(tag: Option<string>, subtag: Option<string>, user: nat)
    returns (f: map<string, FilterArg>)
    ensures TeamKey in f <==> Truthy(subtag) || Truthy(tag)
    ensures Truthy(subtag) ==> f[TeamKey] == TeamName(subtag.value)
    ensures !Truthy(subtag) && Truthy(tag) ==> f[TeamKey] == TeamName(tag.value)
    ensures UserKey in f <==> tag == Some("mine")
    ensures UserKey in f ==> f[UserKey] == RequestUser(user)
    ensures f.Keys <= {TeamKey, UserKey}
  {
    f := map[];
    if Truthy(subtag) {
      f := f[TeamKey := TeamName(subtag.value)];
    } else if Truthy(tag) {
      f := f[TeamKey := TeamName(tag.value)];
    }
    if tag == Some("mine") {
      f := f[UserKey := RequestUser(user)];
    }
  }
}
