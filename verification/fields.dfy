/**
 * The six field handlers and the validator each one builds from its
 * definition. Every `getValidator` is the same chain: a base schema, then
 * `.min` when the lower option is defined, `.max` when the upper one is,
 * then `z.optional` when the field is optional.
 */
module Fields {
  import opened Wrappers
  import opened Schemas
  import opened FieldTypes

  /** The builder chain shared by every kind. */
  function BuildValidator(base: Schema, lower: Option<real>, upper: Option<real>, optional: bool): Schema
    requires base.Leaf?
  {
    var withMin := if lower.Some? then base.Min(lower.value) else base;
    var withMax := if upper.Some? then withMin.Max(upper.value) else withMin;
    if optional then ZOptional(withMax) else withMax
  }

  /** A bound is enforced exactly when it is defined, and both are inclusive. */
  predicate InBounds(n: real, lower: Option<real>, upper: Option<real>) {
    (lower.None? || lower.value <= n) && (upper.None? || n <= upper.value)
  }

  /**
   * What the chain accepts: `undefined` when optional, otherwise whatever
   * the base accepts whose length or value lies within the defined bounds.
   */
  lemma BuildValidatorAccepts(host: Host, base: Schema, lower: Option<real>, upper: Option<real>, optional: bool, v: Value)
    requires base.Leaf?
    ensures Accepts(host, BuildValidator(base, lower, upper, optional), v) <==>
      (optional && v.Undefined?) ||
      (Accepts(host, base, v) && InBounds(Size(Parse(host, base, v).value), lower, upper))
  {
    var withMin := if lower.Some? then base.Min(lower.value) else base;
    var withMax := if upper.Some? then withMin.Max(upper.value) else withMin;
    var bounds :=
      (if lower.Some? then [MinCheck(lower.value)] else []) +
      (if upper.Some? then [MaxCheck(upper.value)] else []);
    assert withMax == Leaf(base.base, base.checks + bounds);
    assert BuildValidator(base, lower, upper, optional) == if optional then Optional(withMax) else withMax;
    var out := BaseParse(host, base.base, v);
    if out.None? {
      assert Parse(host, withMax, v).None? && Parse(host, base, v).None?;
    } else {
      var o := out.value;
      AllPassConcat(host, base.checks, bounds, o);
      AllPassConcat(host, if lower.Some? then [MinCheck(lower.value)] else [],
                    if upper.Some? then [MaxCheck(upper.value)] else [], o);
      if lower.Some? {
        AllPassOne(host, MinCheck(lower.value), o);
      }
      if upper.Some? {
        AllPassOne(host, MaxCheck(upper.value), o);
      }
      assert AllPass(host, bounds, o) <==> InBounds(Size(o), lower, upper);
      assert Parse(host, withMax, v) == if AllPass(host, base.checks + bounds, o) then out else None;
      assert Parse(host, base, v) == if AllPass(host, base.checks, o) then out else None;
    }
  }

  /** `StringField.getValidator` */
  function StringValidator(d: FieldDef): Schema {
    BuildValidator(ZString(), d.MinLength(), d.MaxLength(), d.optional)
  }

  /** `TextField.getValidator` */
  function TextValidator(d: FieldDef): Schema {
    BuildValidator(ZString(), d.MinLength(), d.MaxLength(), d.optional)
  }

  /** `PasswordField.getValidator` */
  function PasswordValidator(d: FieldDef): Schema {
    BuildValidator(ZString(), d.MinLength(), d.MaxLength(), d.optional)
  }

  /** `EmailField.getValidator` */
  function EmailValidator(d: FieldDef): Schema {
    BuildValidator(ZEmail(), d.MinLength(), d.MaxLength(), d.optional)
  }

  /** `IntField.getValidator` */
  function IntValidator(d: FieldDef): Schema {
    BuildValidator(ZCoerceNumber().Int(), d.Min(), d.Max(), d.optional)
  }

  /** `FloatField.getValidator` */
  function FloatValidator(d: FieldDef): Schema {
    BuildValidator(ZNumber(), d.Min(), d.Max(), d.optional)
  }

  /**
   * A string field accepts `undefined` only when optional, and a string
   * exactly when its length lies within the defined length bounds.
   */
  lemma StringValidatorAccepts(host: Host, d: FieldDef, v: Value)
    ensures Accepts(host, StringValidator(d), v) <==>
      (d.optional && v.Undefined?) ||
      (v.Str? && InBounds(|v.s| as real, d.MinLength(), d.MaxLength()))
  {
    BuildValidatorAccepts(host, ZString(), d.MinLength(), d.MaxLength(), d.optional, v);
  }

  /** With no length bound defined, every string is accepted and no number is. */
  lemma StringValidatorUnbounded(host: Host, d: FieldDef, s: string, x: real)
    requires d.MinLength().None? && d.MaxLength().None?
    ensures Accepts(host, StringValidator(d), Str(s))
    ensures !Accepts(host, StringValidator(d), Num(x))
  {
    StringValidatorAccepts(host, d, Str(s));
    StringValidatorAccepts(host, d, Num(x));
  }

  /** Bounds are not checked against each other: inverted ones reject every string. */
  lemma StringValidatorInvertedBounds(host: Host, d: FieldDef, s: string)
    requires d.MinLength().Some? && d.MaxLength().Some?
    requires d.MaxLength().value < d.MinLength().value
    ensures !Accepts(host, StringValidator(d), Str(s))
  {
    StringValidatorAccepts(host, d, Str(s));
  }

  /** The text kind builds exactly the string kind's validator, so it accepts the same values. */
  lemma TextValidatorAccepts(host: Host, d: FieldDef, v: Value)
    ensures TextValidator(d) == StringValidator(d)
    ensures Accepts(host, TextValidator(d), v) <==>
      (d.optional && v.Undefined?) ||
      (v.Str? && InBounds(|v.s| as real, d.MinLength(), d.MaxLength()))
  {
    StringValidatorAccepts(host, d, v);
  }

  /** The password kind builds exactly the string kind's validator, so it accepts the same values. */
  lemma PasswordValidatorAccepts(host: Host, d: FieldDef, v: Value)
    ensures PasswordValidator(d) == StringValidator(d)
    ensures Accepts(host, PasswordValidator(d), v) <==>
      (d.optional && v.Undefined?) ||
      (v.Str? && InBounds(|v.s| as real, d.MinLength(), d.MaxLength()))
  {
    StringValidatorAccepts(host, d, v);
  }

  /**
   * An email field accepts a string exactly when it is a well-formed
   * address and its length lies within the defined bounds; a malformed
   * string is rejected whatever the bounds.
   */
  lemma EmailValidatorAccepts(host: Host, d: FieldDef, v: Value)
    ensures Accepts(host, EmailValidator(d), v) <==>
      (d.optional && v.Undefined?) ||
      (v.Str? && host.isEmail(v.s) && InBounds(|v.s| as real, d.MinLength(), d.MaxLength()))
  {
    BuildValidatorAccepts(host, ZEmail(), d.MinLength(), d.MaxLength(), d.optional, v);
    if v.Str? {
      AllPassOne(host, EmailCheck, v);
    }
  }

  /**
   * An int field coerces its input with `Number` first: it accepts exactly
   * the inputs whose coerced value is finite, integral and within the
   * defined bounds (plus `undefined` when optional).
   */
  lemma IntValidatorAccepts(host: Host, d: FieldDef, v: Value)
    ensures Accepts(host, IntValidator(d), v) <==>
      (d.optional && v.Undefined?) ||
      (Coerce(host, v).Some? && IsIntegral(Coerce(host, v).value) &&
       InBounds(Coerce(host, v).value, d.Min(), d.Max()))
  {
    var base := ZCoerceNumber().Int();
    BuildValidatorAccepts(host, base, d.Min(), d.Max(), d.optional, v);
    if Coerce(host, v).Some? {
      var o := Num(Coerce(host, v).value);
      AllPassOne(host, IntCheck, o);
      assert base == Leaf(CoercedNumberBase, [IntCheck]);
      assert BaseParse(host, CoercedNumberBase, v) == Some(o);
      assert Parse(host, base, v) == if IsIntegral(o.x) then Some(o) else None;
    } else {
      assert !Accepts(host, base, v);
    }
  }

  /** What an int field outputs for a defined input is the coerced, integral number. */
  lemma IntValidatorOutput(host: Host, d: FieldDef, v: Value)
    requires !v.Undefined? && Accepts(host, IntValidator(d), v)
    ensures Coerce(host, v).Some?
    ensures Parse(host, IntValidator(d), v) == Some(Num(Coerce(host, v).value))
    ensures IsIntegral(Coerce(host, v).value)
  {
    IntValidatorAccepts(host, d, v);
  }

  /**
   * A float field does not coerce: it accepts exactly the numbers within
   * the defined bounds (plus `undefined` when optional), fractional or not.
   */
  lemma FloatValidatorAccepts(host: Host, d: FieldDef, v: Value)
    ensures Accepts(host, FloatValidator(d), v) <==>
      (d.optional && v.Undefined?) ||
      (v.Num? && InBounds(v.x, d.Min(), d.Max()))
  {
    BuildValidatorAccepts(host, ZNumber(), d.Min(), d.Max(), d.optional, v);
  }

  /** In particular, no string ever passes a float field, not even a numeric one. */
  lemma FloatValidatorRejectsStrings(host: Host, d: FieldDef, s: string)
    ensures !Accepts(host, FloatValidator(d), Str(s))
  {
    FloatValidatorAccepts(host, d, Str(s));
  }

  /**
   * A field handler: one variant per kind, each holding the definition it
   * was constructed from.
   */
  datatype Field =
    | EmailField(definition: FieldDef)
    | FloatField(definition: FieldDef)
    | IntField(definition: FieldDef)
    | PasswordField(definition: FieldDef)
    | StringField(definition: FieldDef)
    | TextField(definition: FieldDef)
  {
    /** The kind whose handler class this is. */
    function Kind(): FieldKind {
      match this
      case EmailField(_) => Email
      case FloatField(_) => Float
      case IntField(_) => Int
      case PasswordField(_) => Password
      case StringField(_) => String
      case TextField(_) => Text
    }

    /** `getValidator()`, dispatched to this handler's kind. */
    function GetValidator(): Schema {
      match this
      case EmailField(d) => EmailValidator(d)
      case FloatField(d) => FloatValidator(d)
      case IntField(d) => IntValidator(d)
      case PasswordField(d) => PasswordValidator(d)
      case StringField(d) => StringValidator(d)
      case TextField(d) => TextValidator(d)
    }
  }

  /**
   * Whatever the kind, a handler's validator is optional exactly when its
   * definition is: it accepts `undefined` iff the definition says optional.
   */
  lemma GetValidatorUndefined(host: Host, f: Field)
    ensures Accepts(host, f.GetValidator(), Undefined) <==> f.definition.optional
  {
    match f
    case EmailField(d) => EmailValidatorAccepts(host, d, Undefined);
    case FloatField(d) => FloatValidatorAccepts(host, d, Undefined);
    case IntField(d) => IntValidatorAccepts(host, d, Undefined);
    case PasswordField(d) => PasswordValidatorAccepts(host, d, Undefined);
    case StringField(d) => StringValidatorAccepts(host, d, Undefined);
    case TextField(d) => TextValidatorAccepts(host, d, Undefined);
  }
}
