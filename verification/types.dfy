/** The shape of a field definition: its kind tag, label (`labelText`; `label` is a Dafny keyword), optional flag and bounds. */
module FieldTypes {
  import opened Wrappers

  /** The six supported field kinds. */
  datatype FieldKind = Email | Float | Int | Password | String | Text

  /** The `type` tag that names a kind in a definition. */
  function Tag(k: FieldKind): string {
    match k
    case Email => "email"
    case Float => "float"
    case Int => "int"
    case Password => "password"
    case String => "string"
    case Text => "text"
  }

  /**
   * The `options` object. String-like kinds read `minLength`/`maxLength`,
   * numeric kinds read `min`/`max`; any other entry is ignored.
   */
  datatype Options = Options(
    minLength: Option<real>,
    maxLength: Option<real>,
    min: Option<real>,
    max: Option<real>)

  /**
   * One field's definition. `tag` is the `type` property as found in the
   * data, which need not be a supported tag when the definition comes from
   * untyped input. An absent `optional` reads as false.
   */
  datatype FieldDef = FieldDef(tag: string, labelText: string, optional: bool, options: Option<Options>) {

    /** `options.minLength`, or undefined when there are no options. */
    function MinLength(): Option<real> {
      if options.Some? then options.value.minLength else None
    }

    function MaxLength(): Option<real> {
      if options.Some? then options.value.maxLength else None
    }

    function Min(): Option<real> {
      if options.Some? then options.value.min else None
    }

    function Max(): Option<real> {
      if options.Some? then options.value.max else None
    }
  }
}
