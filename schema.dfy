/**
  The data model of the form engine (src/types/schema.ts): form values,
  the structural schema, the presentation overlay and the props every
  widget receives.
*/
module Schema {
  import opened Wrappers

  /**
    A form value (`JsonSchemaValue`): exactly one of a string, a number,
    a boolean, null, an array of values or a string-keyed object of values.
    Numbers are modelled as integers.
  */
  datatype JsonValue =
    | Str(str: string)
    | Num(num: int)
    | Bool(truth: bool)
    | Null
    | Arr(elems: seq<JsonValue>)
    | Obj(fields: map<string, JsonValue>)

  /** The six type tags a schema node may declare. */
  datatype SchemaType = ObjectType | ArrayType | StringType | NumberType | BooleanType | IntegerType

  /** The literal tag written in a schema's `type` for each declared type. */
  function TypeTag(t: SchemaType): string
  {
    match t
    case ObjectType => "object"
    case ArrayType => "array"
    case StringType => "string"
    case NumberType => "number"
    case BooleanType => "boolean"
    case IntegerType => "integer"
  }

  /**
    Reads a raw `type` tag. At run time a schema's tag is any string (the
    declared union is only a compile-time promise); the six declared tags
    parse, every other string does not.
  */
  function ParseTypeTag(tag: string): (r: Option<SchemaType>)
    ensures r.Some? <==> tag in {"object", "array", "string", "number", "boolean", "integer"}
    ensures r.Some? ==> TypeTag(r.value) == tag
  {
    if tag == "object" then Some(ObjectType)
    else if tag == "array" then Some(ArrayType)
    else if tag == "string" then Some(StringType)
    else if tag == "number" then Some(NumberType)
    else if tag == "boolean" then Some(BooleanType)
    else if tag == "integer" then Some(IntegerType)
    else None
  }

  /** Every declared type survives writing its tag and reading it back. */
  lemma TypeTagRoundTrip(t: SchemaType)
    ensures ParseTypeTag(TypeTag(t)) == Some(t)
  {
  }

  /**
    True when `v` has the shape that type `t` describes: a string for
    `string`, a number for `number` and `integer`, a boolean for
    `boolean`, an object for `object`, an array for `array`.
  */
  predicate Conforms(v: JsonValue, t: SchemaType)
  {
    match t
    case StringType => v.Str?
    case NumberType => v.Num?
    case IntegerType => v.Num?
    case BooleanType => v.Bool?
    case ObjectType => v.Obj?
    case ArrayType => v.Arr?
  }

  /** One `oneOf` choice: the value it stands for and an optional caption. */
  datatype OneOfOption = OneOfOption(constValue: JsonValue, title: Option<string>)

  /** One entry of an object schema's `properties`, in declared order. */
  datatype Property = Property(name: string, schema: JsonSchema)

  /**
    A schema node (`JsonSchema`). An object node's children are its
    `properties` (an absent `properties` is the empty list); an array
    node has one optional `items` schema shared by all its elements.
    `required` lists property names (absent is the empty list). A record
    cannot hold one name twice; the property names of a node are taken to
    be distinct, since a repeated entry would count that property twice.
  */
  datatype JsonSchema = JsonSchema(
    typeTag: string,
    title: Option<string>,
    description: Option<string>,
    properties: seq<Property>,
    items: Option<JsonSchema>,
    required: seq<string>,
    enumValues: Option<seq<JsonValue>>,
    enumNames: Option<seq<string>>,
    oneOf: Option<seq<OneOfOption>>,
    constValue: Option<JsonValue>,
    defaultValue: Option<JsonValue>,
    minimum: Option<int>,
    maximum: Option<int>,
    minLength: Option<int>,
    maxLength: Option<int>,
    pattern: Option<string>,
    format: Option<string>)

  /** A schema node with the given tag and nothing else set. */
  function BareSchema(tag: string): (s: JsonSchema)
    ensures s.typeTag == tag && s.items.None? && s.properties == [] && s.defaultValue.None?
  {
    JsonSchema(tag, None, None, [], None, [], None, None, None, None, None, None, None, None, None, None, None)
  }

  /** The presentation overlay of one node; only its `ui:widget` key is modelled. */
  datatype UiSchema = UiSchema(widget: Option<string>)

  /** Where a widget's value sits in the form data: a sequence of string segments. */
  type WidgetPath = seq<string>

  /**
    The props every widget receives (`CustomWidgetProps`). A `value` of
    `None` is an undefined value; the absent optional flags are false.
  */
  datatype WidgetProps = WidgetProps(
    value: Option<JsonValue>,
    schema: JsonSchema,
    uiSchema: Option<UiSchema>,
    rootFormData: map<string, JsonValue>,
    path: WidgetPath,
    required: bool,
    disabled: bool,
    readonly: bool)
}
