/**
 * For the repository's contact form: which inputs the whole-form schema
 * built for it passes and which fields it reports.
 */
module ContactForm {
  import opened Wrappers
  import opened Records
  import opened Schemas
  import opened FieldTypes
  import opened Fields
  import opened Validation

  function LengthOptions(lo: real, hi: real): Option<Options> {
    Some(Options(Some(lo), Some(hi), None, None))
  }

  /** The contact form's definition: name, email, optional age, message. */
  const CONTACT_FORM: Record<FieldDef> :=
    Record(
      ["name", "email", "age", "message"],
      map[
        "name" := FieldDef("string", "Name", false, LengthOptions(2.0, 50.0)),
        "email" := FieldDef("email", "Email", false, None),
        "age" := FieldDef("int", "Age", true, Some(Options(None, None, Some(18.0), Some(120.0)))),
        "message" := FieldDef("text", "Message", false, LengthOptions(10.0, 500.0))
      ])

  /** Every tag of the contact form is supported, so building it does not throw. */
  lemma ContactFormBuilds()
    ensures CONTACT_FORM.Valid() && AllSupported(CONTACT_FORM)
  {
  }

  /** A schema that `Form` (or `GetFieldValidator` after `GetFields`) returns for the contact form. */
  ghost predicate IsContactSchema(schema: ObjectSchema) {
    (forall k :: k in schema.shape.values <==> k in CONTACT_FORM.values) &&
    (forall k :: k in CONTACT_FORM.values ==>
       GetField(CONTACT_FORM.values[k]).Ok? &&
       schema.shape.values[k] == GetField(CONTACT_FORM.values[k]).value.GetValidator())
  }

  function Input(name: Value, email: Value, age: Value, message: Value): map<string, Value> {
    map["name" := name, "email" := email, "age" := age, "message" := message]
  }

  /** Shorthand for the failing properties of a parse (none when it passes). */
  function Issues(o: ObjectOutcome): set<string> {
    if o.Failed? then o.issues else {}
  }

  lemma ContactFieldVerdicts(host: Host, schema: ObjectSchema, input: map<string, Value>)
    requires IsContactSchema(schema)
    ensures ("name" in Issues(ParseObject(host, schema, input))) ==
      !Accepts(host, StringValidator(CONTACT_FORM.values["name"]), Lookup(input, "name"))
    ensures ("email" in Issues(ParseObject(host, schema, input))) ==
      !Accepts(host, EmailValidator(CONTACT_FORM.values["email"]), Lookup(input, "email"))
    ensures ("age" in Issues(ParseObject(host, schema, input))) ==
      !Accepts(host, IntValidator(CONTACT_FORM.values["age"]), Lookup(input, "age"))
    ensures ("message" in Issues(ParseObject(host, schema, input))) ==
      !Accepts(host, TextValidator(CONTACT_FORM.values["message"]), Lookup(input, "message"))
    ensures Issues(ParseObject(host, schema, input)) <= {"name", "email", "age", "message"}
    ensures ParseObject(host, schema, input).Passed? <==> Issues(ParseObject(host, schema, input)) == {}
  {
    var keys := {"name", "email", "age", "message"};
    assert CONTACT_FORM.values.Keys == keys;
    assert schema.shape.values["name"] == StringValidator(CONTACT_FORM.values["name"]);
    assert schema.shape.values["email"] == EmailValidator(CONTACT_FORM.values["email"]);
    assert schema.shape.values["age"] == IntValidator(CONTACT_FORM.values["age"]);
    assert schema.shape.values["message"] == TextValidator(CONTACT_FORM.values["message"]);
  }

  /**
   * A one-letter name and an age of "15" are both reported, and nothing
   * else, when the email and message are acceptable.
   */
  lemma ShortNameAndMinorAgeRejected(host: Host, schema: ObjectSchema)
    requires IsContactSchema(schema)
    requires host.isEmail("a@b.com") && host.toNumber("15") == Some(15.0)
    ensures ParseObject(host, schema, Input(Str("A"), Str("a@b.com"), Str("15"), Str("Hello there!"))) ==
      Failed({"name", "age"})
  {
    var input := Input(Str("A"), Str("a@b.com"), Str("15"), Str("Hello there!"));
    ContactFieldVerdicts(host, schema, input);
    StringValidatorAccepts(host, CONTACT_FORM.values["name"], Str("A"));
    EmailValidatorAccepts(host, CONTACT_FORM.values["email"], Str("a@b.com"));
    IntValidatorAccepts(host, CONTACT_FORM.values["age"], Str("15"));
    TextValidatorAccepts(host, CONTACT_FORM.values["message"], Str("Hello there!"));
    assert |"Hello there!"| == 12;
    var issues := Issues(ParseObject(host, schema, input));
    assert issues == {"name", "age"};
  }

  /** The optional age may be left out of the input altogether. */
  lemma MissingOptionalAgeAccepted(host: Host, schema: ObjectSchema)
    requires IsContactSchema(schema)
    requires host.isEmail("a@b.com")
    ensures ParseObject(host, schema, Input(Str("Al"), Str("a@b.com"), Undefined, Str("Hello there!"))).Passed?
  {
    var input := Input(Str("Al"), Str("a@b.com"), Undefined, Str("Hello there!"));
    ContactFieldVerdicts(host, schema, input);
    StringValidatorAccepts(host, CONTACT_FORM.values["name"], Str("Al"));
    EmailValidatorAccepts(host, CONTACT_FORM.values["email"], Str("a@b.com"));
    IntValidatorAccepts(host, CONTACT_FORM.values["age"], Undefined);
    TextValidatorAccepts(host, CONTACT_FORM.values["message"], Str("Hello there!"));
    assert |"Hello there!"| == 12;
    assert Issues(ParseObject(host, schema, input)) == {};
  }

  /**
   * An age left blank is the string "", not `undefined`, and `Number("")`
   * is 0, below the minimum of 18: the blank optional age is reported.
   */
  lemma BlankOptionalAgeRejected(host: Host, schema: ObjectSchema)
    requires IsContactSchema(schema)
    requires host.isEmail("a@b.com") && host.toNumber("") == Some(0.0)
    ensures ParseObject(host, schema, Input(Str("Al"), Str("a@b.com"), Str(""), Str("Hello there!"))) ==
      Failed({"age"})
  {
    var input := Input(Str("Al"), Str("a@b.com"), Str(""), Str("Hello there!"));
    ContactFieldVerdicts(host, schema, input);
    StringValidatorAccepts(host, CONTACT_FORM.values["name"], Str("Al"));
    EmailValidatorAccepts(host, CONTACT_FORM.values["email"], Str("a@b.com"));
    IntValidatorAccepts(host, CONTACT_FORM.values["age"], Str(""));
    TextValidatorAccepts(host, CONTACT_FORM.values["message"], Str("Hello there!"));
    assert |"Hello there!"| == 12;
    assert Issues(ParseObject(host, schema, input)) == {"age"};
  }

  /**
   * Submitting the form untouched, with every property at its default "",
   * reports every field, the optional age included.
   */
  lemma UntouchedFormRejectsEveryField(host: Host, schema: ObjectSchema)
    requires IsContactSchema(schema)
    requires !host.isEmail("") && host.toNumber("") == Some(0.0)
    ensures ParseObject(host, schema, Input(Str(""), Str(""), Str(""), Str(""))) ==
      Failed({"name", "email", "age", "message"})
  {
    var input := Input(Str(""), Str(""), Str(""), Str(""));
    ContactFieldVerdicts(host, schema, input);
    StringValidatorAccepts(host, CONTACT_FORM.values["name"], Str(""));
    EmailValidatorAccepts(host, CONTACT_FORM.values["email"], Str(""));
    IntValidatorAccepts(host, CONTACT_FORM.values["age"], Str(""));
    TextValidatorAccepts(host, CONTACT_FORM.values["message"], Str(""));
    assert Issues(ParseObject(host, schema, input)) == {"name", "email", "age", "message"};
  }
}
