/**
 * The `Form` component's derived state: the handler record, the
 * whole-form schema and the default values, plus the list of field slots
 * it renders. Rendering itself and the form-state hooks are outside the
 * model.
 */
module PackedForm {
  import opened Wrappers
  import opened Records
  import opened Schemas
  import opened FieldTypes
  import opened Fields
  import opened Validation

  /** What the component derives from one form definition. */
  datatype FormInstance = FormInstance(fields: Record<Field>, schema: ObjectSchema, defaultValues: Record<string>)

  /** One rendered `FormField`: its `name`/`key` and the handler that renders it. */
  datatype FormFieldSlot = FormFieldSlot(name: string, field: Field)

  /**
   * The default values: every property of the handler record, in order,
   * starts as the empty string, whatever its kind.
   */
  method DefaultValues(fields: Record<Field>) returns (defaults: Record<string>)
    requires fields.Valid()
    ensures defaults.Valid() && defaults.keys == fields.keys
    ensures forall k :: k in defaults.values <==> k in fields.values
    ensures forall k :: k in defaults.values ==> defaults.values[k] == ""
  {
    var keys := fields.keys;
    var acc := Empty<string>();
    var i := 0;
    while i < |keys|
      invariant 0 <= i <= |keys|
      invariant acc.Valid() && acc.keys == keys[..i]
      invariant forall k :: k in acc.values ==> acc.values[k] == ""
    {
      acc := acc.Set(keys[i], "");
      i := i + 1;
    }
    assert keys[..i] == keys;
    return acc;
  }

  /**
   * What `Form` derives from a definition: handlers, schema and defaults
   * are well-formed records whose properties are exactly the definition's,
   * in its order (no property outside the definition);
   * each handler is `getField` of its definition, each schema entry that
   * handler's validator, each default `""`.
   */
  ghost predicate BuiltFrom(formDefinition: Record<FieldDef>, inst: FormInstance) {
    inst.fields.Valid() && inst.schema.shape.Valid() && inst.defaultValues.Valid() &&
    inst.fields.keys == formDefinition.keys &&
    inst.schema.shape.keys == formDefinition.keys &&
    inst.defaultValues.keys == formDefinition.keys &&
    (forall k :: k in formDefinition.values ==>
       k in inst.fields.values && k in inst.schema.shape.values && k in inst.defaultValues.values &&
       GetField(formDefinition.values[k]) == Ok(inst.fields.values[k]) &&
       inst.schema.shape.values[k] == inst.fields.values[k].GetValidator() &&
       inst.defaultValues.values[k] == "")
  }

  /**
   * `Form`: the build succeeds exactly when every tag is supported, and then
   * yields the state `BuiltFrom` describes. An unsupported tag aborts the
   * whole build with the first such tag's error.
   */
  method Form(formDefinition: Record<FieldDef>) returns (r: Result<FormInstance, FormError>)
    requires formDefinition.Valid()
    ensures r.Ok? <==> AllSupported(formDefinition)
    ensures r.Ok? ==> BuiltFrom(formDefinition, r.value)
    ensures r.Err? ==>
      exists i :: FirstUnsupported(formDefinition, i) &&
        r.error == UnsupportedFieldType(formDefinition.values[formDefinition.keys[i]].tag)
  {
    var fields :- GetFields(formDefinition);
    var schema := GetFieldValidator(fields);
    var defaults := DefaultValues(fields);
    return Ok(FormInstance(fields, schema, defaults));
  }

  /**
   * Rebuilding the form from an equal definition gives the same handlers,
   * the same schema and the same defaults.
   */
  lemma RebuildGivesSameForm(formDefinition: Record<FieldDef>, a: FormInstance, b: FormInstance)
    requires formDefinition.Valid()
    requires BuiltFrom(formDefinition, a) && BuiltFrom(formDefinition, b)
    ensures a == b
  {
    SameHandlers(formDefinition, a, b);
    SameSchema(formDefinition, a, b);
    SameDefaults(formDefinition, a, b);
  }

  lemma SameSchema(formDefinition: Record<FieldDef>, a: FormInstance, b: FormInstance)
    requires formDefinition.Valid()
    requires BuiltFrom(formDefinition, a) && BuiltFrom(formDefinition, b)
    ensures a.schema == b.schema
  {
    SameHandlers(formDefinition, a, b);
    SameKeysSameProperties(a.schema.shape, b.schema.shape);
    forall k | k in a.schema.shape.values ensures a.schema.shape.values[k] == b.schema.shape.values[k] {
      assert k in formDefinition.keys;
    }
    assert a.schema.shape.values == b.schema.shape.values;
  }

  lemma SameDefaults(formDefinition: Record<FieldDef>, a: FormInstance, b: FormInstance)
    requires formDefinition.Valid()
    requires BuiltFrom(formDefinition, a) && BuiltFrom(formDefinition, b)
    ensures a.defaultValues == b.defaultValues
  {
    SameKeysSameProperties(a.defaultValues, b.defaultValues);
    forall k | k in a.defaultValues.values ensures a.defaultValues.values[k] == "" == b.defaultValues.values[k] {
      assert k in formDefinition.keys;
    }
    assert a.defaultValues.values == b.defaultValues.values;
  }

  lemma SameHandlers(formDefinition: Record<FieldDef>, a: FormInstance, b: FormInstance)
    requires formDefinition.Valid()
    requires BuiltFrom(formDefinition, a) && BuiltFrom(formDefinition, b)
    ensures a.fields == b.fields
  {
    SameKeysSameProperties(a.fields, b.fields);
    forall k | k in a.fields.values ensures a.fields.values[k] == b.fields.values[k] {
      assert k in a.fields.keys;
      assert Ok(a.fields.values[k]) == GetField(formDefinition.values[k]) == Ok(b.fields.values[k]);
    }
  }

  /** The `FormField` list: one slot per handler, named by its property, in entry order. */
  function FormFields(fields: Record<Field>): (slots: seq<FormFieldSlot>)
    requires fields.Valid()
    ensures |slots| == |fields.keys|
    ensures forall i :: 0 <= i < |slots| ==>
      slots[i].name == fields.keys[i] && slots[i].field == fields.values[fields.keys[i]]
    ensures forall i, j :: 0 <= i < j < |slots| ==> slots[i].name != slots[j].name
    ensures forall k :: k in fields.values <==> exists i :: 0 <= i < |slots| && slots[i].name == k
  {
    seq(|fields.keys|, i requires 0 <= i < |fields.keys| => FormFieldSlot(fields.keys[i], fields.values[fields.keys[i]]))
  }

  /**
   * Whether a field left at its default `""` passes its validator. The
   * optional flag plays no part: `z.optional` admits only `undefined`.
   * String-like kinds pass when a length of 0 is within bounds, email also
   * needs `""` to be a well-formed address, int coerces `""` with `Number`,
   * and float rejects it outright.
   */
  lemma DefaultValueVerdict(host: Host, f: Field)
    ensures Accepts(host, f.GetValidator(), Str("")) <==>
      match f.Kind()
      case String | Text | Password =>
        InBounds(0.0, f.definition.MinLength(), f.definition.MaxLength())
      case Email =>
        host.isEmail("") && InBounds(0.0, f.definition.MinLength(), f.definition.MaxLength())
      case Int =>
        host.toNumber("").Some? && IsIntegral(host.toNumber("").value) &&
        InBounds(host.toNumber("").value, f.definition.Min(), f.definition.Max())
      case Float => false
  {
    var v := Str("");
    match f
    case EmailField(d) => EmailValidatorAccepts(host, d, v);
    case FloatField(d) => FloatValidatorAccepts(host, d, v);
    case IntField(d) => IntValidatorAccepts(host, d, v);
    case PasswordField(d) => PasswordValidatorAccepts(host, d, v);
    case StringField(d) => StringValidatorAccepts(host, d, v);
    case TextField(d) => TextValidatorAccepts(host, d, v);
  }
}
