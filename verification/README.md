# Packed form: validator assembly, modelled in Dafny

The packed form is a declarative form builder. A form definition maps each
field name to a field definition: a kind tag (`email`, `float`, `int`,
`password`, `string` or `text`), a label, an `optional` flag and optional
bounds. The pipeline works in three steps:

1. A fixed table maps each tag to a handler class. `getField` builds the
   handler for one definition. `getFields` folds the whole definition into a
   record of handlers.
2. Each handler's `getValidator` builds a zod schema. It starts from a base
   schema, adds `.min`/`.max` for each bound that is defined, and wraps the
   result in `z.optional` when the field is optional. `getFieldValidator`
   folds the handler record into an object schema.
3. The `Form` component seeds every field's default value with `""` and
   renders one `FormField` per handler.

The Dafny files model this pipeline:

- `wrappers.dfy` holds `Option` and `Result`. A `Result` stands for a call
  that can throw.
- `records.dfy` holds `Record<T>`, a JavaScript object. It keeps the
  insertion-ordered keys and their values. `Set` is `obj[k] = v`.
- `schemas.dfy` is the part of zod the form uses. A `Schema` is a value: a
  base type with a list of checks, or an optional wrapper. `Parse` and
  `Accepts` say which inputs it takes and what it outputs. `ParseObject` is
  the object schema. The email syntax test and JavaScript's `Number(string)`
  come from outside the model, so they are the two functions of a `Host`
  parameter.
- `types.dfy` holds the field kinds, their tags, the options and the field
  definition.
- `fields.dfy` holds the six `getValidator` builders and the `Field` handler
  datatype, which has one variant per class. It also proves, kind by kind,
  exactly which inputs each validator accepts.
- `validation.dfy` holds the kind table, `getField` and the two folds. The
  folds are loop methods that insert into a record, as the source's `reduce`
  assigns into its accumulator.
- `form.dfy` holds the `Form` component's derived state, the default-value
  fold and the rendered field list.
- `scenarios.dfy` states, for the repository's contact form, which inputs
  the built schema passes.

## Behaviour worth knowing

- `z.optional` admits only `undefined`. The form seeds every field with
  `""`, so an optional field left blank is validated like any other string.
  `int` coerces `""` with `Number("")`, which gives 0. So the contact form's
  optional age (18 to 120), left blank, is rejected
  (`ContactForm.BlankOptionalAgeRejected`). An optional email left blank is
  rejected unless `""` is a well-formed address
  (`PackedForm.DefaultValueVerdict`). One might expect a blank optional
  field to be accepted. The code rejects it, because `z.optional` admits
  only `undefined`.
- A non-optional `string`, `text` or `password` field with no `minLength`
  accepts `""` unless its `maxLength` is below 0. A non-optional `email`
  field also needs `""` to be a well-formed address
  (`PackedForm.DefaultValueVerdict`). A non-optional `int` field accepts `""` as 0 when 0 is within its bounds.
  Only `undefined` is rejected for being absent.
- `float` uses `z.number()` without coercion, so it rejects every string,
  numeric strings included (`Fields.FloatValidatorRejectsStrings`). That
  includes its own default value `""`.
- Nothing checks that the lower bound is at most the upper bound. Inverted
  length bounds reject every string
  (`Fields.StringValidatorInvertedBounds`).

## Model

| member | source | states |
|---|---|---|
| `Validation.FieldsMapRegistersEachKind` | registry/new-york/blocks/packed-form/utils/validation.ts:13-20 | The table is defined on exactly the six tags. Each tag selects the kind it names, and every kind is registered under its own tag. |
| `Validation.Construct` | registry/new-york/blocks/packed-form/utils/validation.ts:29 | Constructing a handler for a kind gives a handler of that kind that holds the given definition. |
| `Validation.GetField` | registry/new-york/blocks/packed-form/utils/validation.ts:22-30 | A handler is returned iff the tag is one of the six. Its kind's tag is the definition's tag, and it carries that definition unchanged. Any other tag throws `UnsupportedFieldType` with that tag. |
| `Validation.FormError.Message` | registry/new-york/blocks/packed-form/utils/validation.ts:26 | The message is `Unsupported field type: ` followed by the tag. |
| `Records.Record.Set` | registry/new-york/blocks/packed-form/utils/validation.ts:37 | Assigning a property keeps the record well formed. A new key is appended to the key order, an existing key keeps its place, and only that key's value changes. |
| `Validation.GetFields` | registry/new-york/blocks/packed-form/utils/validation.ts:32-42 | The fold succeeds iff every tag is supported. On success it has the definition's keys in the same order, nothing added or dropped (every name treated as an ordinary property), and each value is `getField` of that key's definition. On failure it throws the error of the first unsupported entry in entry order. |
| `Validation.GetFieldValidator` | registry/new-york/blocks/packed-form/utils/validation.ts:44-54 | The result is an object schema whose shape has the handler record's keys in the same order. Each entry is that handler's `getValidator()`. |
| `Schemas.ParseObject` | registry/new-york/blocks/packed-form/utils/validation.ts:53 | The object schema passes iff every shape property accepts the input's value for it (a missing property reads as `undefined`). On success the output has exactly the shape's keys, each value parsed. On failure it reports exactly the failing properties, and there is at least one. |
| `Validation.CompositeAcceptsIff` | registry/new-york/blocks/packed-form/utils/validation.ts:44-53 | For a schema built from a handler record, the whole form passes iff each handler's own validator accepts its field. The reported fields are exactly those whose validator rejects. |
| `Validation.ShapeDeterminedByFields` | registry/new-york/blocks/packed-form/utils/validation.ts:44-53 | Two schemas that meet `GetFieldValidator`'s postcondition for the same handler record are equal. |
| `Fields.BuildValidatorAccepts` | registry/new-york/blocks/packed-form/fields/string.tsx:25-43 | The shared builder chain accepts `undefined` iff the field is optional. Otherwise it accepts exactly what the base accepts, provided the base's output (string length or number) lies within each bound that is defined, both bounds inclusive. |
| `Fields.StringValidatorAccepts` | registry/new-york/blocks/packed-form/fields/string.tsx:24-44 | A string field accepts `undefined` iff optional. It accepts a string iff its length is at least `minLength` and at most `maxLength`, each where defined. It rejects everything else. |
| `Fields.StringValidatorUnbounded` | registry/new-york/blocks/packed-form/fields/string.tsx:25-37 | With no length bound defined (no options, or neither bound set), every string is accepted and no number is. |
| `Fields.StringValidatorInvertedBounds` | registry/new-york/blocks/packed-form/fields/string.tsx:30-36 | With `maxLength < minLength`, no string is accepted. |
| `Fields.TextValidatorAccepts` | registry/new-york/blocks/packed-form/fields/text.tsx:24-44 | The text validator is the string validator, and it accepts exactly the values the string characterisation gives. |
| `Fields.PasswordValidatorAccepts` | registry/new-york/blocks/packed-form/fields/password.tsx:24-44 | The password validator is the string validator, and it accepts exactly the values the string characterisation gives. |
| `Fields.EmailValidatorAccepts` | registry/new-york/blocks/packed-form/fields/email.tsx:24-44 | An email field accepts a string iff it is a well-formed address and its length is within the defined bounds. A malformed string is rejected whatever the bounds. It accepts `undefined` iff optional. |
| `Fields.IntValidatorAccepts` | registry/new-york/blocks/packed-form/fields/int.tsx:24-44 | An int field accepts an input iff `Number(input)` is finite, integral and within `[min, max]` where defined (inclusive). It also accepts `undefined` iff optional. |
| `Fields.IntValidatorOutput` | registry/new-york/blocks/packed-form/fields/int.tsx:25 | For an accepted defined input, the int field outputs the coerced number, and that number is integral. |
| `Fields.FloatValidatorAccepts` | registry/new-york/blocks/packed-form/fields/float.tsx:24-44 | A float field accepts exactly the numbers within `[min, max]` where defined (inclusive), with no integrality check. It also accepts `undefined` iff optional. |
| `Fields.FloatValidatorRejectsStrings` | registry/new-york/blocks/packed-form/fields/float.tsx:25 | No string passes a float field: there is no coercion. |
| `Fields.GetValidatorUndefined` | registry/new-york/blocks/packed-form/fields/string.tsx:39-43 | For every kind, the handler's validator accepts `undefined` iff its definition is optional. |
| `PackedForm.DefaultValues` | registry/new-york/blocks/packed-form/form.tsx:18-23 | The defaults have the handler record's keys in the same order, and every default is `""` whatever the kind. |
| `PackedForm.Form` | registry/new-york/blocks/packed-form/form.tsx:14-23 | The build succeeds iff every tag is supported. Handlers, schema and defaults are then well-formed records with exactly the definition's keys, in its order. Each handler is `getField` of its definition, each schema entry is that handler's validator, and each default is `""`. Otherwise the build throws the first unsupported tag's error. |
| `PackedForm.RebuildGivesSameForm` | registry/new-york/blocks/packed-form/form.tsx:14-23 | Any two results that the build can produce from the same definition are equal: the same handlers, the same schema and the same defaults. |
| `PackedForm.FormFields` | registry/new-york/blocks/packed-form/form.tsx:38-45 | There is one slot per handler in entry order. Each slot is named by its key and holds that key's handler. Names are distinct and cover exactly the record's keys. |
| `PackedForm.DefaultValueVerdict` | registry/new-york/blocks/packed-form/form.tsx:20 | Whether a field left at its default `""` passes, per kind and regardless of `optional`. String-like kinds pass iff length 0 is within the bounds. Email also needs `""` to be well formed. Int needs `Number("")` to be within the bounds. Float never passes. |
| `ContactForm.ContactFormBuilds` | registry/new-york/blocks/packed-form/examples/contact-form.tsx:6-36 | The contact form's definition is a well-formed record whose tags are all supported, so building it does not throw. |
| `ContactForm.ShortNameAndMinorAgeRejected` | registry/new-york/blocks/packed-form/examples/contact-form.tsx:7-27 | A name "A" and an age "15" are both reported, and nothing else is. |
| `ContactForm.MissingOptionalAgeAccepted` | registry/new-york/blocks/packed-form/examples/contact-form.tsx:19-27 | With the age absent (`undefined`) and the other fields valid, the form passes. |
| `ContactForm.BlankOptionalAgeRejected` | registry/new-york/blocks/packed-form/examples/contact-form.tsx:19-27 | With the age left as `""`, only the age is reported, because `Number("")` is 0, which is below 18. |
| `ContactForm.UntouchedFormRejectsEveryField` | registry/new-york/blocks/packed-form/form.tsx:18-23 | Submitting the contact form with every default `""` reports all four fields, including the optional age. |

## Left out

- Rendering is not modelled: every `render` method, the choice between `Input` and `Textarea` and of `type=`, and the `FormField`/`ShadCnForm` wiring are JSX presentation. `PackedForm.FormFields` keeps only the name and handler of each slot.
- React plumbing is not modelled: `useMemo` recomputation, `useForm`, `zodResolver`, and `onSubmit`'s `console.log` and `alert`. These are hooks and I/O. Validation of submitted values is `Schemas.ParseObject` on the built schema.
- zod's email pattern is the `Host.isEmail` parameter, because it is library code. zod's error-message texts and issue order are not modelled. A failed parse reports only the set of failing properties.
- JavaScript's `Number(string)` is the `Host.toNumber` parameter, which returns `None` for NaN or an infinite result. Numbers are mathematical reals, with no IEEE-754 rounding.
- Fields.IntValidatorAccepts: does not include the safe-integer range that zod's `.int()` adds, because numbers are reals here.
- Inputs are only `undefined`, strings and finite numbers. `null`, booleans and nested objects are not modelled.
- String length is the number of characters. JavaScript counts UTF-16 code units, so the two differ on characters outside the Basic Multilingual Plane.
- Schemas.ParseObject: a property that is optional and missing appears in the output as `undefined`. zod omits it instead.
- Validation.GetFields: a field named `__proto__` is kept. In JavaScript, `acc[k] = v` on a plain `{}` runs the prototype setter for that name and creates no own property. JavaScript therefore silently drops such a field from the handlers, the shape, the defaults and the rendered fields. The same holds for `Validation.GetFieldValidator` and `PackedForm.DefaultValues`. The model treats every name as an ordinary property.
- Lookups on the kind table follow only its six own keys. JavaScript would also find prototype properties such as `constructor`, a quirk of the object model.
- Records.Record.Set: always appends a new key last. JavaScript places integer-like keys first, in ascending numeric order, and `Object.entries` follows that order. The model takes the entry order as given. Inside the folds this makes no difference, because keys arrive in `Object.entries` order.
- `optional` is a boolean, and an absent flag reads as false. Non-boolean truthy values are not modelled. Options entries are numbers or absent, never `null`.
- `fields/base.tsx` holds only stubs that throw. Its class is the `Fields.Field` datatype, one variant per subclass. Because a handler is an immutable value, `getValidator` cannot change its definition.
- `registry/new-york/ui/error-boundary.tsx` and `app/layout.tsx` are not part of this model. They are UI and page layout.
