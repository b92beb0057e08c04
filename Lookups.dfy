/** How a criterion's column, field and comparison become the names the
    Extractor works with: the record-type name it resolves, the field name,
    and the ORM lookup key each field kind builds in its own way. */
module Lookups {
  import opened Text

  /** `column.replace(' ', '').replace('_', '')`: the name compared with
      lower-cased class names. It is not lower-cased itself. */
  function ModelName(column: string): (r: string)
    ensures multiset(r) == multiset(column)[' ' := 0]['_' := 0]
    ensures ' ' !in r && '_' !in r
  {
    RemoveKeepsOthers(RemoveChar(column, ' '), '_', ' ');
    RemoveChar(RemoveChar(column, ' '), '_')
  }

  /** `field.replace(' ', '_').lower()` */
  function FieldName(field: string): (r: string)
    ensures |r| == |field| && IsLowered(r) && ' ' !in r
    ensures forall i :: 0 <= i < |field| && field[i] == ' ' ==> r[i] == '_'
    ensures forall i :: 0 <= i < |field| && field[i] != ' ' ==> r[i] == LowerChar(field[i])
  {
    var r := Lower(ReplaceChar(field, ' ', '_'));
    assert forall i :: 0 <= i < |r| ==> r[i] != ' ';
    r
  }

  /** The lookup suffix for text matches: `'__icontains'` for `Contains`,
      `'__iexact'` for every other comparison. */
  function MatchSuffix(queryType: string): (r: string)
    ensures r == "__icontains" <==> queryType == "Contains"
    ensures r == "__iexact" <==> queryType != "Contains"
  {
    if queryType == "Contains" then "__icontains" else "__iexact"
  }

  /** The relation prefix of the boolean and hybrid lookups:
      `column.replace(' ', '_').lower()` with every `_` then removed. */
  function JoinedPrefix(column: string): (r: string)
    ensures ' ' !in r && '_' !in r
  {
    var lowered := Lower(ReplaceChar(column, ' ', '_'));
    assert forall i :: 0 <= i < |lowered| ==> lowered[i] != ' ';
    RemoveKeepsOthers(lowered, '_', ' ');
    RemoveChar(lowered, '_')
  }

  /** The relation prefix of the date lookup: `column.replace(' ', '').lower()`,
      which keeps underscores. */
  function DatePrefix(column: string): (r: string)
    ensures ' ' !in r && IsLowered(r)
  {
    var spaceless := RemoveChar(column, ' ');
    LowerKeepsNonLetter(spaceless, ' ');
    Lower(spaceless)
  }

  /** The bound a date criterion adds: inclusive on both sides. */
  function DateBound(queryType: string): (r: string)
    ensures r == "__lte" <==> queryType == "Before"
    ensures r == "__gte" <==> queryType == "After"
    ensures r == "" <==> queryType != "Before" && queryType != "After"
  {
    if queryType == "Before" then "__lte"
    else if queryType == "After" then "__gte"
    else ""
  }

  /** The key of a boolean lookup: joined prefix, `__`, field. */
  function BooleanKey(column: string, field: string): string
  {
    JoinedPrefix(column) + "__" + field
  }

  /** The key of a date lookup: date prefix, `__`, field, bound. */
  function DateKey(column: string, field: string, queryType: string): string
  {
    DatePrefix(column) + "__" + field + DateBound(queryType)
  }

  /** The lookup on the vocabulary entry's name of a hybrid field. */
  function ForeignKeyKey(column: string, field: string, suffix: string): string
  {
    JoinedPrefix(column) + "__" + field + "_fk__name" + suffix
  }

  /** The lookup on the free-text half of a hybrid field. */
  function FreeTextKey(column: string, field: string, suffix: string): string
  {
    JoinedPrefix(column) + "__" + field + "_ft" + suffix
  }

  /** The key of a plain lookup. It starts from the unlowered model name,
      not from the lower-cased column the code computes and never uses. */
  function PlainKey(modelName: string, field: string, suffix: string): string
  {
    modelName + "__" + field + suffix
  }

  /** The model name keeps the order of the column's characters: it is built
      piece by piece, and a single character survives exactly when it is
      neither a space nor an underscore. */
  lemma ModelNameKeepsOrder(a: string, b: string)
    ensures ModelName(a + b) == ModelName(a) + ModelName(b)
    ensures forall x :: ModelName([x]) == if x == ' ' || x == '_' then [] else [x]
  {
    RemoveCharAppend(a, b, ' ');
    RemoveCharAppend(RemoveChar(a, ' '), RemoveChar(b, ' '), '_');
    forall x
      ensures ModelName([x]) == if x == ' ' || x == '_' then [] else [x]
    {
      RemoveCharOne(x, ' ');
      RemoveCharAppend([], [], '_');
      RemoveCharOne(x, '_');
    }
  }

  /** The boolean and hybrid lookups name the relation by the lower-cased
      model name the column resolves through. */
  lemma JoinedPrefixIsLoweredModelName(column: string)
    ensures JoinedPrefix(column) == Lower(ModelName(column))
  {
    LowerRemoveCommute(ReplaceChar(column, ' ', '_'), '_');
    ReplaceThenRemove(column, ' ', '_');
  }

  /** The date lookup differs from the boolean one only in keeping the
      column's underscores. */
  lemma DatePrefixKeepsUnderscores(column: string)
    ensures RemoveChar(DatePrefix(column), '_') == JoinedPrefix(column)
    ensures '_' in column <==> '_' in DatePrefix(column)
    ensures '_' !in JoinedPrefix(column)
  {
    var spaceless := RemoveChar(column, ' ');
    LowerRemoveCommute(spaceless, '_');
    JoinedPrefixIsLoweredModelName(column);
    RemoveKeepsOthers(column, ' ', '_');
    LowerKeepsNonLetter(spaceless, '_');
    assert multiset(JoinedPrefix(column))['_'] == 0;
  }

  /** For a resolved column, every lookup prefix except the date one is
      exactly the model name. */
  lemma ResolvedPrefixes(column: string, className: string)
    requires Lower(className) == ModelName(column)
    ensures JoinedPrefix(column) == ModelName(column)
  {
    JoinedPrefixIsLoweredModelName(column);
    LoweredIsFixed(Lower(className));
  }

  /** The two halves of a hybrid lookup name different columns. */
  lemma HybridKeysDiffer(column: string, field: string, suffix: string)
    ensures ForeignKeyKey(column, field, suffix) != FreeTextKey(column, field, suffix)
  {
    var stem := JoinedPrefix(column) + "__" + field;
    assert ForeignKeyKey(column, field, suffix)[|stem| + 2] == 'k';
    assert FreeTextKey(column, field, suffix)[|stem| + 2] == 't';
  }
}
