/**
 * Turning a form definition into handlers and a whole-form schema: the
 * kind table, the lookup that throws on an unknown tag, and the two folds
 * over `Object.entries` that fill a fresh record one property at a time.
 */
module Validation {
  import opened Wrappers
  import opened Records
  import opened Schemas
  import opened FieldTypes
  import opened Fields

  /** The error `getField` throws. */
  datatype FormError = UnsupportedFieldType(tag: string) {

    /** The thrown error's message. */
    function Message(): (m: string)
      ensures |m| == |"Unsupported field type: "| + |tag|
      ensures m[..|"Unsupported field type: "|] == "Unsupported field type: "
      ensures m[|"Unsupported field type: "|..] == tag
    {
      "Unsupported field type: " + tag
    }
  }

  /** The kind table: each supported tag and the handler class registered for it. */
  const FIELDS_MAP: map<string, FieldKind> :=
    map[
      "email" := Email,
      "float" := Float,
      "int" := Int,
      "password" := Password,
      "string" := String,
      "text" := Text
    ]

  /**
   * The table is defined on exactly the six tags, registers every kind,
   * and each tag selects the kind it names.
   */
  lemma FieldsMapRegistersEachKind()
    ensures FIELDS_MAP.Keys == {"email", "float", "int", "password", "string", "text"}
    ensures forall t :: t in FIELDS_MAP ==> Tag(FIELDS_MAP[t]) == t
    ensures forall k: FieldKind :: Tag(k) in FIELDS_MAP && FIELDS_MAP[Tag(k)] == k
  {
  }

  predicate Supported(tag: string) {
    tag in FIELDS_MAP
  }

  /** `new FieldClass(definition)` for the class registered for `kind`. */
  function Construct(kind: FieldKind, d: FieldDef): (f: Field)
    ensures f.Kind() == kind && f.definition == d
  {
    match kind
    case Email => EmailField(d)
    case Float => FloatField(d)
    case Int => IntField(d)
    case Password => PasswordField(d)
    case String => StringField(d)
    case Text => TextField(d)
  }

  /**
   * `getField`: a supported tag yields a handler of the kind the tag names,
   * holding the same definition; any other tag throws and builds nothing.
   */
  function GetField(d: FieldDef): (r: Result<Field, FormError>)
    ensures r.Ok? <==> d.tag in {"email", "float", "int", "password", "string", "text"}
    ensures r.Ok? ==> Tag(r.value.Kind()) == d.tag && r.value.definition == d
    ensures r.Err? ==> r.error == UnsupportedFieldType(d.tag)
  {
    FieldsMapRegistersEachKind();
    if d.tag in FIELDS_MAP then Ok(Construct(FIELDS_MAP[d.tag], d)) else Err(UnsupportedFieldType(d.tag))
  }

  /** Every field of the definition has a supported tag. */
  ghost predicate AllSupported(def: Record<FieldDef>) {
    forall k :: k in def.values ==> Supported(def.values[k].tag)
  }

  /** Entry `i` is the first, in entry order, whose tag is unsupported. */
  ghost predicate FirstUnsupported(def: Record<FieldDef>, i: int) {
    0 <= i < |def.keys| && def.keys[i] in def.values && !Supported(def.values[def.keys[i]].tag) &&
    forall j :: 0 <= j < i ==> def.keys[j] in def.values && Supported(def.values[def.keys[j]].tag)
  }

  /**
   * `getFields`: one handler per property, under the same name and in the
   * same order; the first unsupported tag in entry order aborts the fold.
   */
  method GetFields(formDefinition: Record<FieldDef>) returns (r: Result<Record<Field>, FormError>)
    requires formDefinition.Valid()
    ensures r.Ok? <==> AllSupported(formDefinition)
    ensures r.Ok? ==> r.value.Valid() && r.value.keys == formDefinition.keys
    ensures r.Ok? ==> forall k :: k in r.value.values <==> k in formDefinition.values
    ensures r.Ok? ==>
      forall k :: k in formDefinition.values ==> GetField(formDefinition.values[k]) == Ok(r.value.values[k])
    ensures r.Err? ==>
      exists i :: FirstUnsupported(formDefinition, i) &&
        r.error == UnsupportedFieldType(formDefinition.values[formDefinition.keys[i]].tag)
  {
    var keys := formDefinition.keys;
    var acc := Empty<Field>();
    var i := 0;
    while i < |keys|
      invariant 0 <= i <= |keys|
      invariant acc.Valid() && acc.keys == keys[..i]
      invariant forall k :: k in acc.values ==>
        k in formDefinition.values && GetField(formDefinition.values[k]) == Ok(acc.values[k])
    {
      var name := keys[i];
      var field := GetField(formDefinition.values[name]);
      if field.Err? {
        forall j | 0 <= j < i
          ensures keys[j] in formDefinition.values && Supported(formDefinition.values[keys[j]].tag)
        {
          assert keys[j] in acc.keys;
        }
        assert FirstUnsupported(formDefinition, i);
        return Err(field.error);
      }
      acc := acc.Set(name, field.value);
      i := i + 1;
    }
    assert keys[..i] == keys;
    return Ok(acc);
  }

  /**
   * `getFieldValidator`: an object schema whose shape has the same
   * properties as the handler record, in the same order, each mapped to
   * that handler's validator.
   */
  method GetFieldValidator(fields: Record<Field>) returns (schema: ObjectSchema)
    requires fields.Valid()
    ensures schema.shape.Valid() && schema.shape.keys == fields.keys
    ensures forall k :: k in schema.shape.values <==> k in fields.values
    ensures forall k :: k in fields.values ==> schema.shape.values[k] == fields.values[k].GetValidator()
  {
    var keys := fields.keys;
    var shape := Empty<Schema>();
    var i := 0;
    while i < |keys|
      invariant 0 <= i <= |keys|
      invariant shape.Valid() && shape.keys == keys[..i]
      invariant forall k :: k in shape.values ==> k in fields.values && shape.values[k] == fields.values[k].GetValidator()
    {
      var name := keys[i];
      shape := shape.Set(name, fields.values[name].GetValidator());
      i := i + 1;
    }
    assert keys[..i] == keys;
    return ObjectSchema(shape);
  }

  /**
   * The whole-form schema passes an input exactly when every field's own
   * validator accepts that field's value, and otherwise reports exactly the
   * fields that fail.
   */
  lemma CompositeAcceptsIff(host: Host, fields: Record<Field>, schema: ObjectSchema, input: map<string, Value>)
    requires forall k :: k in schema.shape.values <==> k in fields.values
    requires forall k :: k in fields.values ==> schema.shape.values[k] == fields.values[k].GetValidator()
    ensures ParseObject(host, schema, input).Passed? <==>
      forall k :: k in fields.values ==> Accepts(host, fields.values[k].GetValidator(), Lookup(input, k))
    ensures ParseObject(host, schema, input).Failed? ==>
      ParseObject(host, schema, input).issues ==
        set k | k in fields.values && !Accepts(host, fields.values[k].GetValidator(), Lookup(input, k))
  {
  }

  /**
   * Rebuilding from the same handlers yields the same schema: the result
   * of `GetFieldValidator` is fixed by its contract.
   */
  lemma ShapeDeterminedByFields(fields: Record<Field>, s1: ObjectSchema, s2: ObjectSchema)
    requires s1.shape.keys == fields.keys && s2.shape.keys == fields.keys
    requires forall k :: k in s1.shape.values <==> k in fields.values
    requires forall k :: k in s2.shape.values <==> k in fields.values
    requires forall k :: k in fields.values ==> s1.shape.values[k] == fields.values[k].GetValidator()
    requires forall k :: k in fields.values ==> s2.shape.values[k] == fields.values[k].GetValidator()
    ensures s1 == s2
  {
    assert s1.shape.values == s2.shape.values;
  }
}
