/**
 * The part of the zod schema library the form relies on: string, email and
 * number schemas, number coercion, the `.min`/`.max`/`.int` checks, the
 * optional wrapper and object schemas over a shape.
 *
 * A schema is a value; parsing it against an input yields the (possibly
 * coerced) output or fails. The email syntax test and JavaScript's
 * `Number(string)` conversion are library and runtime code outside the
 * model: they are supplied as the two functions of a `Host`.
 */
module Schemas {
  import opened Wrappers
  import opened Records

  /** The inputs a field can be given: `undefined`, a string or a finite number. */
  datatype Value = Undefined | Str(s: string) | Num(x: real)

  /**
   * The runtime's email syntax test, and `Number(s)` on a string
   * (`None` when the result is NaN or infinite).
   */
  datatype Host = Host(isEmail: string -> bool, toNumber: string -> Option<real>)

  datatype Base = StringBase | NumberBase | CoercedNumberBase

  datatype Check = EmailCheck | IntCheck | MinCheck(bound: real) | MaxCheck(bound: real)

  datatype Schema = Leaf(base: Base, checks: seq<Check>) | Optional(inner: Schema) {

    /** `.min(b)`: a length bound on strings, a value bound on numbers. */
    function Min(b: real): (r: Schema)
      requires Leaf?
      ensures r.Leaf? && r.base == base && r.checks == checks + [MinCheck(b)]
    {
      Leaf(base, checks + [MinCheck(b)])
    }

    /** `.max(b)` */
    function Max(b: real): (r: Schema)
      requires Leaf?
      ensures r.Leaf? && r.base == base && r.checks == checks + [MaxCheck(b)]
    {
      Leaf(base, checks + [MaxCheck(b)])
    }

    /** `.int()` */
    function Int(): (r: Schema)
      requires Leaf?
      ensures r.Leaf? && r.base == base && r.checks == checks + [IntCheck]
    {
      Leaf(base, checks + [IntCheck])
    }
  }

  /** `z.string()` */
  function ZString(): Schema { Leaf(StringBase, []) }

  /** `z.email()`: a string schema carrying the email format check. */
  function ZEmail(): Schema { Leaf(StringBase, [EmailCheck]) }

  /** `z.number()` */
  function ZNumber(): Schema { Leaf(NumberBase, []) }

  /** `z.coerce.number()` */
  function ZCoerceNumber(): Schema { Leaf(CoercedNumberBase, []) }

  /** `z.optional(s)` */
  function ZOptional(s: Schema): Schema { Optional(s) }

  predicate IsIntegral(x: real) {
    x == x.Floor as real
  }

  /** JavaScript's `Number(v)`, when it is a finite number. */
  function Coerce(host: Host, v: Value): (r: Option<real>)
    ensures v.Num? ==> r == Some(v.x)
    ensures v.Undefined? ==> r.None?
  {
    match v
    case Undefined => None
    case Num(x) => Some(x)
    case Str(s) => host.toNumber(s)
  }

  /** The base type check (after coercion, for a coercing schema). */
  function BaseParse(host: Host, base: Base, v: Value): (r: Option<Value>)
    ensures r.Some? ==> !r.value.Undefined?
  {
    match base
    case StringBase => if v.Str? then Some(v) else None
    case NumberBase => if v.Num? then Some(v) else None
    case CoercedNumberBase =>
      match Coerce(host, v)
      case Some(x) => Some(Num(x))
      case None => None
  }

  /** What `.min` and `.max` compare: the length of a string, the value of a number. */
  function Size(out: Value): real {
    match out
    case Undefined => 0.0
    case Str(s) => |s| as real
    case Num(x) => x
  }

  /** One check on the base-checked value. */
  predicate Passes(host: Host, c: Check, out: Value) {
    match c
    case EmailCheck => out.Str? && host.isEmail(out.s)
    case IntCheck => out.Num? && IsIntegral(out.x)
    case MinCheck(b) => !out.Undefined? && b <= Size(out)
    case MaxCheck(b) => !out.Undefined? && Size(out) <= b
  }

  predicate AllPass(host: Host, checks: seq<Check>, out: Value) {
    forall i :: 0 <= i < |checks| ==> Passes(host, checks[i], out)
  }

  lemma AllPassConcat(host: Host, a: seq<Check>, b: seq<Check>, out: Value)
    ensures AllPass(host, a + b, out) <==> AllPass(host, a, out) && AllPass(host, b, out)
  {
    if AllPass(host, a, out) && AllPass(host, b, out) {
      forall i | 0 <= i < |a + b| ensures Passes(host, (a + b)[i], out) {
        if i >= |a| {
          assert (a + b)[i] == b[i - |a|];
        }
      }
    }
    if AllPass(host, a + b, out) {
      forall i | 0 <= i < |a| ensures Passes(host, a[i], out) {
        assert a[i] == (a + b)[i];
      }
      forall i | 0 <= i < |b| ensures Passes(host, b[i], out) {
        assert b[i] == (a + b)[|a| + i];
      }
    }
  }

  lemma AllPassOne(host: Host, c: Check, out: Value)
    ensures AllPass(host, [c], out) <==> Passes(host, c, out)
  {
    assert [c][0] == c;
  }

  /** `schema.safeParse(v)`: the parsed output, or `None` when some check fails. */
  function Parse(host: Host, schema: Schema, v: Value): (r: Option<Value>)
    ensures r.Some? && r.value.Undefined? ==> v.Undefined?
    ensures r.Some? && schema.Leaf? ==> AllPass(host, schema.checks, r.value)
  {
    match schema
    case Optional(inner) => if v.Undefined? then Some(Undefined) else Parse(host, inner, v)
    case Leaf(base, checks) =>
      var out := BaseParse(host, base, v);
      if out.Some? && AllPass(host, checks, out.value) then out else None
  }

  predicate Accepts(host: Host, schema: Schema, v: Value) {
    Parse(host, schema, v).Some?
  }

  /** `z.object(shape)` */
  datatype ObjectSchema = ObjectSchema(shape: Record<Schema>)

  /** Reading a property the input object lacks yields `undefined`. */
  function Lookup(input: map<string, Value>, k: string): Value {
    if k in input then input[k] else Undefined
  }

  /** Whole-object parse: the parsed values, or the names of the failing properties. */
  datatype ObjectOutcome = Passed(data: map<string, Value>) | Failed(issues: set<string>)

  /**
   * Parsing an object checks every property of the shape; unknown input
   * properties are dropped; the parse fails when any property fails and
   * then reports each failing property.
   */
  function ParseObject(host: Host, o: ObjectSchema, input: map<string, Value>): (r: ObjectOutcome)
    ensures r.Passed? <==>
      forall k :: k in o.shape.values ==> Accepts(host, o.shape.values[k], Lookup(input, k))
    ensures r.Passed? ==> r.data.Keys == o.shape.values.Keys
    ensures r.Passed? ==>
      forall k :: k in r.data ==> Parse(host, o.shape.values[k], Lookup(input, k)) == Some(r.data[k])
    ensures r.Failed? ==> r.issues != {}
    ensures r.Failed? ==>
      forall k :: k in r.issues <==>
        k in o.shape.values && !Accepts(host, o.shape.values[k], Lookup(input, k))
  {
    var failing := set k | k in o.shape.values && !Accepts(host, o.shape.values[k], Lookup(input, k));
    if failing == {} then
      assert forall k :: k in o.shape.values ==> Accepts(host, o.shape.values[k], Lookup(input, k)) by {
        forall k | k in o.shape.values ensures Accepts(host, o.shape.values[k], Lookup(input, k)) {
          assert k !in failing;
        }
      }
      Passed(map k | k in o.shape.values :: Parse(host, o.shape.values[k], Lookup(input, k)).value)
    else
      Failed(failing)
  }
}
