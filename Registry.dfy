/** The registered record types as the Extractor sees them: which type a
    column names, and what kind of field a criterion's field is on it. */
module Registry {
  import opened Base
  import opened Text

  /** Which owner a record type hangs off: `EpisodeSubrecord`,
      `PatientSubrecord`, or neither (for instance `Tagging`). */
  datatype Scope = EpisodeSubrecord | PatientSubrecord | NotSubrecord

  /** The Django field class of a concrete field. `DateTimeField` is a
      subclass of `DateField`. */
  datatype FieldClass = BooleanField | DateField | DateTimeField | OtherField

  datatype FieldInfo = FieldInfo(name: string, cls: FieldClass)

  /** A registered model: its class name, scope, concrete fields
      (`_meta.fields`) and its `ForeignKeyOrFreeText` attributes, each with
      the name of the vocabulary (content type) it refers to. */
  datatype ModelInfo = ModelInfo(
    name: string,
    scope: Scope,
    fields: seq<FieldInfo>,
    hybrids: map<string, string>)

  predicate IsSubrecord(m: ModelInfo) {
    m.scope != NotSubrecord
  }

  /** `m.__name__.lower() == model_name` */
  predicate NameMatches(m: ModelInfo, modelName: string) {
    Lower(m.name) == modelName
  }

  /** One turn of the resolution loop: the first match is kept, and a later
      match replaces it only if it is a subrecord. */
  function ResolveStep(found: Option<ModelInfo>, m: ModelInfo, modelName: string): Option<ModelInfo>
  {
    if !NameMatches(m, modelName) then found
    else if found.None? then Some(m)
    else if IsSubrecord(m) then Some(m)
    else found
  }

  /** The model the resolution loop ends with after visiting `registry` in order. */
  function ModelFor(registry: seq<ModelInfo>, modelName: string): (r: Option<ModelInfo>)
    ensures r.Some? ==> r.value in registry && NameMatches(r.value, modelName)
  {
    if registry == [] then None
    else ResolveStep(ModelFor(registry[..|registry| - 1], modelName), registry[|registry| - 1], modelName)
  }

  /** Entry `i` is the one resolution picks: it matches, it is the first match
      or a subrecord, and no later match is a subrecord. */
  ghost predicate Chosen(registry: seq<ModelInfo>, modelName: string, i: int) {
    && 0 <= i < |registry|
    && NameMatches(registry[i], modelName)
    && (IsSubrecord(registry[i]) || forall j :: 0 <= j < i ==> !NameMatches(registry[j], modelName))
    && forall k :: i < k < |registry| && NameMatches(registry[k], modelName) ==> !IsSubrecord(registry[k])
  }

  /** The loop over `djangomodels.get_models()`. */
  method ResolveModel(registry: seq<ModelInfo>, modelName: string) returns (found: Option<ModelInfo>)
    ensures found == ModelFor(registry, modelName)
  {
    found := None;
    for i := 0 to |registry|
      invariant found == ModelFor(registry[..i], modelName)
    {
      var m := registry[i];
      assert registry[..i + 1][..i] == registry[..i];
      if NameMatches(m, modelName) {
        if found.None? {
          found := Some(m);
        } else if IsSubrecord(m) {
          found := Some(m);
        }
      }
    }
    assert registry[..|registry|] == registry;
  }

  /** Resolution finds nothing exactly when no registered name matches. */
  lemma {:induction false} ModelForNone(registry: seq<ModelInfo>, modelName: string)
    ensures ModelFor(registry, modelName).None?
            <==> forall i :: 0 <= i < |registry| ==> !NameMatches(registry[i], modelName)
  {
    if registry != [] {
      var init := registry[..|registry| - 1];
      ModelForNone(init, modelName);
      assert forall i :: 0 <= i < |init| ==> init[i] == registry[i];
    }
  }

  /** The chosen entry is what resolution returns. */
  lemma {:induction false} ModelForChosen(registry: seq<ModelInfo>, modelName: string, i: int)
    requires Chosen(registry, modelName, i)
    ensures ModelFor(registry, modelName) == Some(registry[i])
  {
    var n := |registry| - 1;
    var init := registry[..n];
    assert forall j :: 0 <= j < n ==> init[j] == registry[j];
    if i == n {
      if !IsSubrecord(registry[i]) {
        ModelForNone(init, modelName);
      }
    } else {
      assert Chosen(init, modelName, i);
      ModelForChosen(init, modelName, i);
    }
  }

  /** Whatever resolution returns is the chosen entry. */
  lemma {:induction false} ModelForIsChosen(registry: seq<ModelInfo>, modelName: string)
    requires ModelFor(registry, modelName).Some?
    ensures exists i :: Chosen(registry, modelName, i) && registry[i] == ModelFor(registry, modelName).value
  {
    var n := |registry| - 1;
    var init := registry[..n];
    assert forall j :: 0 <= j < n ==> init[j] == registry[j];
    var before := ModelFor(init, modelName);
    if ModelFor(registry, modelName) == Some(registry[n])
       && (before.None? || IsSubrecord(registry[n])) && NameMatches(registry[n], modelName)
    {
      if before.None? {
        ModelForNone(init, modelName);
      }
      assert Chosen(registry, modelName, n);
    } else {
      assert ModelFor(registry, modelName) == before;
      ModelForIsChosen(init, modelName);
      var i :| Chosen(init, modelName, i) && init[i] == before.value;
      assert Chosen(registry, modelName, i);
    }
  }

  /** A name holding an upper-case letter matches no registered model, since
      it is compared with lower-cased class names. */
  lemma UpperCaseNameMatchesNothing(registry: seq<ModelInfo>, modelName: string)
    requires !IsLowered(modelName)
    ensures ModelFor(registry, modelName) == None
  {
    ModelForNone(registry, modelName);
  }

  /** The kind that decides how a criterion on a field is matched. */
  datatype FieldKind = BooleanKind | DateKind | HybridKind(vocabulary: string) | PlainKind

  /** `[f for f in fields if f.name == field]` */
  function NamedFields(fields: seq<FieldInfo>, field: string): (r: seq<FieldInfo>)
    ensures forall f :: f in r <==> f in fields && f.name == field
    ensures |r| <= |fields|
  {
    if fields == [] then []
    else (if fields[0].name == field then [fields[0]] else []) + NamedFields(fields[1..], field)
  }

  /** `isinstance(f, DateField)` */
  predicate IsDateClass(c: FieldClass) {
    c.DateField? || c.DateTimeField?
  }

  /** The field-kind dispatch of `episodes_for_criteria`: boolean, then date,
      both only for a field declared exactly once, then a
      `ForeignKeyOrFreeText` attribute, else a plain field. */
  function Classify(m: ModelInfo, field: string): (r: FieldKind)
    ensures r.BooleanKind? || r.DateKind? ==> |NamedFields(m.fields, field)| == 1
    ensures r.HybridKind? ==> field in m.hybrids && r.vocabulary == m.hybrids[field]
    ensures r.PlainKind? ==> field !in m.hybrids
  {
    var named := NamedFields(m.fields, field);
    if |named| == 1 && named[0].cls.BooleanField? then BooleanKind
    else if |named| == 1 && IsDateClass(named[0].cls) then DateKind
    else if field in m.hybrids then HybridKind(m.hybrids[field])
    else PlainKind
  }

  /** Field `i` is the only field named `field`. */
  ghost predicate DeclaredOnce(fields: seq<FieldInfo>, field: string, i: int) {
    && 0 <= i < |fields|
    && fields[i].name == field
    && forall j :: 0 <= j < |fields| && j != i ==> fields[j].name != field
  }

  lemma {:induction false} NamedFieldsSingle(fields: seq<FieldInfo>, field: string)
    ensures |NamedFields(fields, field)| == 1
            <==> exists i :: DeclaredOnce(fields, field, i)
    ensures forall i :: DeclaredOnce(fields, field, i) ==> NamedFields(fields, field) == [fields[i]]
  {
    if fields != [] {
      var tail := fields[1..];
      assert NamedFields(fields, field)
             == (if fields[0].name == field then [fields[0]] else []) + NamedFields(tail, field);
      NamedFieldsSingle(tail, field);
      assert forall j :: 0 <= j < |tail| ==> tail[j] == fields[j + 1];
      if fields[0].name == field {
        if NamedFields(tail, field) == [] {
          assert DeclaredOnce(fields, field, 0);
        } else {
          assert NamedFields(tail, field)[0] in NamedFields(tail, field);
          forall i | 0 <= i < |fields| ensures !DeclaredOnce(fields, field, i) {
            var g := NamedFields(tail, field)[0];
            var k :| 0 <= k < |tail| && tail[k] == g;
            assert fields[k + 1].name == field;
          }
        }
      } else {
        forall i | DeclaredOnce(tail, field, i) ensures DeclaredOnce(fields, field, i + 1) { }
        forall i | DeclaredOnce(fields, field, i) ensures i > 0 && DeclaredOnce(tail, field, i - 1) { }
      }
    }
  }

  /** Classification in terms of the declared fields: boolean, then date, take
      precedence only when exactly one field has the name; a hybrid attribute
      comes next; everything else is plain. */
  lemma ClassifyPrecedence(m: ModelInfo, field: string)
    ensures Classify(m, field) == BooleanKind
            <==> exists i :: DeclaredOnce(m.fields, field, i) && m.fields[i].cls.BooleanField?
    ensures Classify(m, field) == DateKind
            <==> exists i :: DeclaredOnce(m.fields, field, i) && IsDateClass(m.fields[i].cls)
    ensures Classify(m, field).HybridKind?
            <==> field in m.hybrids
                 && !exists i :: DeclaredOnce(m.fields, field, i)
                                 && (m.fields[i].cls.BooleanField? || IsDateClass(m.fields[i].cls))
    ensures Classify(m, field).HybridKind? ==> Classify(m, field).vocabulary == m.hybrids[field]
    ensures Classify(m, field) == PlainKind
            <==> field !in m.hybrids
                 && !exists i :: DeclaredOnce(m.fields, field, i)
                                 && (m.fields[i].cls.BooleanField? || IsDateClass(m.fields[i].cls))
  {
    NamedFieldsSingle(m.fields, field);
  }
}
