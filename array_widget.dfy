/**
  The array composite widget: its item list, the default value of a new
  item, the add / remove / update mutators, the ordinal item labels, the
  number of array items a subtree renders, and the `update:value` events
  it emits. Every mutator reads the current `value` prop and returns a
  fresh array; nothing is changed in place.
*/
module ArrayWidget {
  import opened Wrappers
  import opened Schema

  /** The items a value prop holds: null, undefined and non-arrays hold none. */
  function Items(value: Option<JsonValue>): (r: seq<JsonValue>)
    ensures value.Some? && value.value.Arr? ==> r == value.value.elems
    ensures !(value.Some? && value.value.Arr?) ==> r == []
  {
    match value
    case Some(Arr(elems)) => elems
    case _ => []
  }

  /** The empty value of each declared type: `''`, `0`, `false`, `{}`, `[]`. */
  function EmptyValue(t: SchemaType): (v: JsonValue)
    ensures Conforms(v, t)
    ensures v.Str? ==> v.str == ""
    ensures v.Num? ==> v.num == 0
    ensures v.Bool? ==> !v.truth
    ensures v.Obj? ==> v.fields == map[]
    ensures v.Arr? ==> v.elems == []
  {
    match t
    case StringType => Str("")
    case NumberType => Num(0)
    case IntegerType => Num(0)
    case BooleanType => Bool(false)
    case ObjectType => Obj(map[])
    case ArrayType => Arr([])
  }

  /**
    The value a new item starts with: the item schema's `default` when it
    has one, else the empty value of its type; an absent item schema or an
    unknown type gives `''`.
  */
  function DefaultValue(items: Option<JsonSchema>): (v: JsonValue)
    ensures items.Some? && items.value.defaultValue.Some? ==> v == items.value.defaultValue.value
    ensures items.Some? && items.value.defaultValue.None? && ParseTypeTag(items.value.typeTag).Some? ==>
      Conforms(v, ParseTypeTag(items.value.typeTag).value)
    ensures items.None? || (items.value.defaultValue.None? && ParseTypeTag(items.value.typeTag).None?) ==>
      v == Str("")
  {
    match items
    case None => Str("")
    case Some(s) =>
      match s.defaultValue
      case Some(d) => d
      case None =>
        match ParseTypeTag(s.typeTag)
        case Some(t) => EmptyValue(t)
        case None => Str("")
  }

  /**
    A new item takes the schema's `default` when present, and otherwise,
    written out per tag: `''` for string, `0` for number and integer,
    `false` for boolean, `{}` for object, `[]` for array, `''` for any
    other tag.
  */
  lemma DefaultValueTable(s: JsonSchema)
    ensures s.defaultValue.Some? ==> DefaultValue(Some(s)) == s.defaultValue.value
    ensures s.defaultValue.None? ==>
      DefaultValue(Some(s)) ==
        if s.typeTag == "number" || s.typeTag == "integer" then Num(0)
        else if s.typeTag == "boolean" then Bool(false)
        else if s.typeTag == "object" then Obj(map[])
        else if s.typeTag == "array" then Arr([])
        else Str("")
  {
  }

  /**
    The first add on an empty array emits `['']`, `[0]`, `[false]`, `[{}]`
    or `[[]]` for string, number, boolean, object and array items, and
    `['default item']` when the item schema has that `default`.
  */
  lemma AddDefaultsAsTested()
    ensures AddItem(BareSchema("array").(items := Some(BareSchema("string"))), Some(Arr([]))) == [Str("")]
    ensures AddItem(BareSchema("array").(items := Some(BareSchema("number"))), Some(Arr([]))) == [Num(0)]
    ensures AddItem(BareSchema("array").(items := Some(BareSchema("boolean"))), Some(Arr([]))) == [Bool(false)]
    ensures AddItem(BareSchema("array").(items := Some(BareSchema("object").(
      properties := [Property("name", BareSchema("string"))]))), Some(Arr([]))) == [Obj(map[])]
    ensures AddItem(BareSchema("array").(items := Some(BareSchema("array").(
      items := Some(BareSchema("string"))))), Some(Arr([]))) == [Arr([])]
    ensures AddItem(BareSchema("array").(items := Some(BareSchema("string").(
      defaultValue := Some(Str("default item"))))), Some(Arr([]))) == [Str("default item")]
  {
  }

  /** Add: the current items with the new item's default value appended. */
  function AddItem(schema: JsonSchema, value: Option<JsonValue>): (r: seq<JsonValue>)
    ensures |r| == |Items(value)| + 1
    ensures r[..|Items(value)|] == Items(value)
    ensures r[|Items(value)|] == DefaultValue(schema.items)
  {
    Items(value) + [DefaultValue(schema.items)]
  }

  /** Remove: the items with the one at `index` excised, the rest in their order. */
  function RemoveItem(value: Option<JsonValue>, index: nat): (r: seq<JsonValue>)
    requires index < |Items(value)|
    ensures |r| == |Items(value)| - 1
    ensures forall j :: 0 <= j < index ==> r[j] == Items(value)[j]
    ensures forall j :: index <= j < |r| ==> r[j] == Items(value)[j + 1]
    ensures multiset(r) + multiset{Items(value)[index]} == multiset(Items(value))
  {
    var s := Items(value);
    assert s == s[..index] + [s[index]] + s[index + 1..];
    s[..index] + s[index + 1..]
  }

  /** Update: the items with the one at `index` replaced by `item`, all others unchanged. */
  function UpdateItem(value: Option<JsonValue>, index: nat, item: JsonValue): (r: seq<JsonValue>)
    requires index < |Items(value)|
    ensures |r| == |Items(value)|
    ensures r[index] == item
    ensures forall j :: 0 <= j < |r| && j != index ==> r[j] == Items(value)[j]
  {
    Items(value)[index := item]
  }

  /** Inserting `item` at `index`: the inverse of removal. */
  function InsertAt(s: seq<JsonValue>, index: nat, item: JsonValue): (r: seq<JsonValue>)
    requires index <= |s|
    ensures |r| == |s| + 1 && r[index] == item
  {
    s[..index] + [item] + s[index..]
  }

  /** Putting a removed item back where it was restores the original items. */
  lemma RemoveThenInsert(value: Option<JsonValue>, index: nat)
    requires index < |Items(value)|
    ensures InsertAt(RemoveItem(value, index), index, Items(value)[index]) == Items(value)
  {
    var s := Items(value);
    var r := RemoveItem(value, index);
    assert r[..index] == s[..index];
    assert r[index..] == s[index + 1..];
    assert s == s[..index] + [s[index]] + s[index + 1..];
  }

  /** Removing the item an add just appended gives back the items before the add. */
  lemma RemoveUndoesAdd(schema: JsonSchema, value: Option<JsonValue>)
    ensures |Items(value)| < |AddItem(schema, value)|
    ensures RemoveItem(Some(Arr(AddItem(schema, value))), |Items(value)|) == Items(value)
  {
    var added := AddItem(schema, value);
    assert Items(Some(Arr(added))) == added;
  }

  /** Writing back the item already at `index` changes nothing. */
  lemma UpdateWithSameItem(value: Option<JsonValue>, index: nat)
    requires index < |Items(value)|
    ensures UpdateItem(value, index, Items(value)[index]) == Items(value)
  {
  }

  /** Of two updates at the same index, the later one wins. */
  lemma UpdateTwice(value: Option<JsonValue>, index: nat, first: JsonValue, second: JsonValue)
    requires index < |Items(value)|
    ensures index < |UpdateItem(value, index, first)|
    ensures UpdateItem(Some(Arr(UpdateItem(value, index, first))), index, second) == UpdateItem(value, index, second)
  {
  }

  /** Updates at different indices commute. */
  lemma UpdatesCommute(value: Option<JsonValue>, i: nat, x: JsonValue, j: nat, y: JsonValue)
    requires i < |Items(value)| && j < |Items(value)| && i != j
    ensures i < |UpdateItem(value, j, y)| && j < |UpdateItem(value, i, x)|
    ensures UpdateItem(Some(Arr(UpdateItem(value, i, x))), j, y) == UpdateItem(Some(Arr(UpdateItem(value, j, y))), i, x)
  {
  }

  /** The ordinal shown in each item's header ("item k"): its index plus one. */
  function ItemLabels(value: Option<JsonValue>): (r: seq<nat>)
    ensures |r| == |Items(value)|
    ensures forall j :: 0 <= j < |r| ==> r[j] == j + 1
  {
    seq(|Items(value)|, j => j + 1)
  }

  /**
    Labels are recomputed after a removal: an item that sat at position
    `j` after the removed one now sits at `j - 1` and is labelled `j`, and
    the labels still run 1, 2, ... without a gap.
  */
  lemma RelabelAfterRemove(value: Option<JsonValue>, index: nat, j: nat)
    requires index < j < |Items(value)|
    ensures var after := Some(Arr(RemoveItem(value, index)));
      Items(after)[j - 1] == Items(value)[j] && ItemLabels(after)[j - 1] == j &&
      ItemLabels(after) == ItemLabels(value)[..|Items(value)| - 1]
  {
  }

  /**
    After any removal, the last item included, the labels are those of the
    original array without its last one: 1, 2, ... without a gap.
  */
  lemma LabelsAfterRemove(value: Option<JsonValue>, index: nat)
    requires index < |Items(value)|
    ensures var after := Some(Arr(RemoveItem(value, index)));
      ItemLabels(after) == ItemLabels(value)[..|Items(value)| - 1] &&
      forall j :: 0 <= j < |Items(after)| ==> ItemLabels(after)[j] == j + 1
  {
  }

  /**
    The number of array items a schema node renders for a value, counting
    every array element at every depth, arrays held in object properties
    included. An array node renders one item per element and then what
    each element renders under the `items` schema (nothing without one);
    an object node renders what its properties render; leaves render
    none.
  */
  function RenderedItems(schema: JsonSchema, value: Option<JsonValue>): (r: nat)
    ensures IsLeaf(schema) ==> r == 0
    ensures schema.typeTag == "array" ==> r >= |Items(value)|
    ensures schema.typeTag == "array" && schema.items.Some? && schema.items.value.typeTag == "array" ==>
      r >= |Items(value)| + InnerLengths(Items(value))
    decreases schema, 1
  {
    if schema.typeTag == "array" then |Items(value)| + ElementItems(schema, Items(value))
    else if schema.typeTag == "object" then PropertyItems(schema, 0, value)
    else 0
  }

  /** What the elements `elems` of an array node render under its `items` schema. */
  function ElementItems(parent: JsonSchema, elems: seq<JsonValue>): (r: nat)
    ensures parent.items.None? || IsLeaf(parent.items.value) ==> r == 0
    ensures parent.items.Some? && parent.items.value.typeTag == "array" ==> r >= InnerLengths(elems)
    decreases parent, 0, |elems|
  {
    if elems == [] || parent.items.None? then 0
    else RenderedItems(parent.items.value, Some(elems[0])) + ElementItems(parent, elems[1..])
  }

  /** The total number of items the arrays among `elems` hold, one level down. */
  function InnerLengths(elems: seq<JsonValue>): nat
  {
    if elems == [] then 0 else |Items(Some(elems[0]))| + InnerLengths(elems[1..])
  }

  /**
    An array of arrays of leaves renders one item per outer element plus
    one per inner element: nesting counts at the second level exactly.
  */
  lemma {:induction false} NestedArrayItems(schema: JsonSchema, value: Option<JsonValue>)
    requires schema.typeTag == "array" && schema.items.Some? && schema.items.value.typeTag == "array"
    requires var inner := schema.items.value; inner.items.None? || IsLeaf(inner.items.value)
    ensures RenderedItems(schema, value) == |Items(value)| + InnerLengths(Items(value))
  {
    NestedElements(schema, Items(value));
  }

  lemma {:induction false} NestedElements(parent: JsonSchema, elems: seq<JsonValue>)
    requires parent.items.Some? && parent.items.value.typeTag == "array"
    requires var inner := parent.items.value; inner.items.None? || IsLeaf(inner.items.value)
    ensures ElementItems(parent, elems) == InnerLengths(elems)
  {
    if elems != [] {
      FlatArrayItems(parent.items.value, Some(elems[0]));
      NestedElements(parent, elems[1..]);
    }
  }

  /** The value of property `name` in an object value (`value?.[name]`); undefined otherwise. */
  function Field(value: Option<JsonValue>, name: string): (r: Option<JsonValue>)
    ensures r.Some? <==> value.Some? && value.value.Obj? && name in value.value.fields
    ensures r.Some? ==> r.value == value.value.fields[name]
  {
    match value
    case Some(Obj(fields)) => if name in fields then Some(fields[name]) else None
    case _ => None
  }

  /** What the properties of an object node from position `k` on render. */
  function PropertyItems(parent: JsonSchema, k: nat, value: Option<JsonValue>): nat
    requires k <= |parent.properties|
    decreases parent, 0, |parent.properties| - k
  {
    var ps := parent.properties;
    if k == |ps| then 0
    else
      assert ps[k] in ps;
      RenderedItems(ps[k].schema, Field(value, ps[k].name)) + PropertyItems(parent, k + 1, value)
  }

  /** An undefined value renders no items, whatever the schema. */
  lemma {:induction false} UndefinedRendersNothing(schema: JsonSchema)
    ensures RenderedItems(schema, None) == 0
  {
    if schema.typeTag == "object" {
      PropertiesOfUndefined(schema, 0);
    }
  }

  lemma {:induction false} PropertiesOfUndefined(parent: JsonSchema, k: nat)
    requires k <= |parent.properties|
    ensures PropertyItems(parent, k, None) == 0
    decreases parent, |parent.properties| - k
  {
    var ps := parent.properties;
    if k < |ps| {
      assert ps[k] in ps;
      UndefinedRendersNothing(ps[k].schema);
      PropertiesOfUndefined(parent, k + 1);
    }
  }

  /** A null value renders no items, whatever the schema. */
  lemma {:induction false} NullRendersNothing(schema: JsonSchema)
    ensures RenderedItems(schema, Some(Null)) == 0
  {
    if schema.typeTag == "object" {
      PropertiesOfNonObject(schema, 0, Some(Null));
    }
  }

  lemma {:induction false} PropertiesOfNonObject(parent: JsonSchema, k: nat, value: Option<JsonValue>)
    requires k <= |parent.properties|
    requires !(value.Some? && value.value.Obj?)
    ensures PropertyItems(parent, k, value) == 0
    decreases parent, |parent.properties| - k
  {
    var ps := parent.properties;
    if k < |ps| {
      assert ps[k] in ps;
      assert Field(value, ps[k].name) == None;
      UndefinedRendersNothing(ps[k].schema);
      PropertiesOfNonObject(parent, k + 1, value);
    }
  }

  /** A schema node that holds no nested structure of its own. */
  predicate IsLeaf(s: JsonSchema)
  {
    s.typeTag != "array" && s.typeTag != "object"
  }

  /**
    An array node whose items are leaves (or have no schema) renders one
    item per element, whatever the elements are: mixed types included.
  */
  lemma {:induction false} FlatArrayItems(schema: JsonSchema, value: Option<JsonValue>)
    requires schema.typeTag == "array"
    requires schema.items.None? || IsLeaf(schema.items.value)
    ensures RenderedItems(schema, value) == |Items(value)|
  {
    LeafElementsRenderNothing(schema, Items(value));
  }

  lemma {:induction false} LeafElementsRenderNothing(parent: JsonSchema, elems: seq<JsonValue>)
    requires parent.items.None? || IsLeaf(parent.items.value)
    ensures ElementItems(parent, elems) == 0
  {
    if elems != [] && parent.items.Some? {
      LeafElementsRenderNothing(parent, elems[1..]);
    }
  }

  /** An object node every one of whose properties is a leaf. */
  predicate FlatObject(s: JsonSchema)
  {
    s.typeTag == "object" && forall i :: 0 <= i < |s.properties| ==> IsLeaf(s.properties[i].schema)
  }

  /**
    An array node whose items are objects with only leaf properties renders
    one item per element, whatever the elements hold.
  */
  lemma {:induction false} FlatObjectArrayItems(schema: JsonSchema, value: Option<JsonValue>)
    requires schema.typeTag == "array" && schema.items.Some? && FlatObject(schema.items.value)
    ensures RenderedItems(schema, value) == |Items(value)|
  {
    FlatObjectElements(schema, Items(value));
  }

  lemma {:induction false} FlatObjectElements(parent: JsonSchema, elems: seq<JsonValue>)
    requires parent.items.Some? && FlatObject(parent.items.value)
    ensures ElementItems(parent, elems) == 0
  {
    if elems != [] {
      LeafPropertiesRenderNothing(parent.items.value, 0, Some(elems[0]));
      FlatObjectElements(parent, elems[1..]);
    }
  }

  lemma {:induction false} LeafPropertiesRenderNothing(parent: JsonSchema, k: nat, value: Option<JsonValue>)
    requires FlatObject(parent) && k <= |parent.properties|
    ensures PropertyItems(parent, k, value) == 0
    decreases |parent.properties| - k
  {
    if k < |parent.properties| {
      LeafPropertiesRenderNothing(parent, k + 1, value);
    }
  }

  /**
    Adding one item to an array of leaves renders one more item; removing
    one renders one fewer.
  */
  lemma FlatArrayAddRemove(schema: JsonSchema, value: Option<JsonValue>, index: nat)
    requires schema.typeTag == "array"
    requires schema.items.None? || IsLeaf(schema.items.value)
    ensures RenderedItems(schema, Some(Arr(AddItem(schema, value)))) == RenderedItems(schema, value) + 1
    ensures index < |Items(value)| ==>
      RenderedItems(schema, Some(Arr(RemoveItem(value, index)))) + 1 == RenderedItems(schema, value)
  {
    FlatArrayItems(schema, value);
    FlatArrayItems(schema, Some(Arr(AddItem(schema, value))));
    if index < |Items(value)| {
      FlatArrayItems(schema, Some(Arr(RemoveItem(value, index))));
    }
  }

  /** `[['nested1', 'nested2'], ['nested3']]` under an array-of-string-arrays schema renders 5 items. */
  lemma NestedArraysRenderFive()
    ensures RenderedItems(BareSchema("array").(items := Some(BareSchema("array").(items := Some(BareSchema("string"))))),
      Some(Arr([Arr([Str("nested1"), Str("nested2")]), Arr([Str("nested3")])]))) == 5
  {
    var inner := BareSchema("array").(items := Some(BareSchema("string")));
    FlatArrayItems(inner, Some(Arr([Str("nested1"), Str("nested2")])));
    FlatArrayItems(inner, Some(Arr([Str("nested3")])));
  }

  /**
    Two people with a `tags` array of two and of one tag, under an array of
    objects with a `name` and a `tags` property, render 5 items.
  */
  lemma ObjectArrayRendersFive()
    ensures var tags := BareSchema("array").(items := Some(BareSchema("string")));
      var person := BareSchema("object").(properties := [Property("name", BareSchema("string")), Property("tags", tags)]);
      RenderedItems(BareSchema("array").(items := Some(person)),
        Some(Arr([Obj(map["name" := Str("John"), "tags" := Arr([Str("tag1"), Str("tag2")])]),
                  Obj(map["name" := Str("Jane"), "tags" := Arr([Str("tag3")])])]))) == 5
  {
    var tags := BareSchema("array").(items := Some(BareSchema("string")));
    var person := BareSchema("object").(properties := [Property("name", BareSchema("string")), Property("tags", tags)]);
    var john := Obj(map["name" := Str("John"), "tags" := Arr([Str("tag1"), Str("tag2")])]);
    var jane := Obj(map["name" := Str("Jane"), "tags" := Arr([Str("tag3")])]);
    FlatArrayItems(tags, Some(Arr([Str("tag1"), Str("tag2")])));
    FlatArrayItems(tags, Some(Arr([Str("tag3")])));
    assert PropertyItems(person, 2, Some(john)) == 0;
    assert PropertyItems(person, 0, Some(john)) == 2;
    assert PropertyItems(person, 2, Some(jane)) == 0;
    assert PropertyItems(person, 0, Some(jane)) == 1;
    var people := BareSchema("array").(items := Some(person));
    assert ElementItems(people, [john, jane]) == 3 by {
      assert [john, jane][1..] == [jane];
      assert ElementItems(people, [jane]) == 1;
    }
  }

  /** The widget's props and the `update:value` payloads it has emitted, oldest first. */
  datatype WidgetState = WidgetState(props: WidgetProps, emitted: seq<JsonValue>)

  /** Clicking "add": one event carrying the added array; the props stay as they are. */
  function ClickAdd(w: WidgetState): (w': WidgetState)
    ensures w'.props == w.props
    ensures w'.emitted == w.emitted + [Arr(AddItem(w.props.schema, w.props.value))]
  {
    WidgetState(w.props, w.emitted + [Arr(AddItem(w.props.schema, w.props.value))])
  }

  /** Clicking "delete" on item `index`: one event carrying the array without it. */
  function ClickRemove(w: WidgetState, index: nat): (w': WidgetState)
    requires index < |Items(w.props.value)|
    ensures w'.props == w.props
    ensures w'.emitted == w.emitted + [Arr(RemoveItem(w.props.value, index))]
  {
    WidgetState(w.props, w.emitted + [Arr(RemoveItem(w.props.value, index))])
  }

  /** A child reporting a new value for item `index`: one event carrying the updated array. */
  function ItemChanged(w: WidgetState, index: nat, item: JsonValue): (w': WidgetState)
    requires index < |Items(w.props.value)|
    ensures w'.props == w.props
    ensures w'.emitted == w.emitted + [Arr(UpdateItem(w.props.value, index, item))]
  {
    WidgetState(w.props, w.emitted + [Arr(UpdateItem(w.props.value, index, item))])
  }

  /** `n` clicks on "add" with the props left unchanged. */
  function ClickAddTimes(w: WidgetState, n: nat): (r: WidgetState)
    ensures r.props == w.props
    ensures |r.emitted| == |w.emitted| + n
    decreases n
  {
    if n == 0 then w else ClickAddTimes(ClickAdd(w), n - 1)
  }

  /**
    Each click emits exactly one event, computed from the current `value`
    prop alone: with the prop unchanged, every one of `n` clicks emits the
    same array.
  */
  lemma {:induction false} RepeatedAddsReadTheProp(w: WidgetState, n: nat)
    ensures ClickAddTimes(w, n).props == w.props
    ensures |ClickAddTimes(w, n).emitted| == |w.emitted| + n
    ensures ClickAddTimes(w, n).emitted[..|w.emitted|] == w.emitted
    ensures forall k :: |w.emitted| <= k < |w.emitted| + n ==>
      ClickAddTimes(w, n).emitted[k] == Arr(AddItem(w.props.schema, w.props.value))
    decreases n
  {
    if n > 0 {
      RepeatedAddsReadTheProp(ClickAdd(w), n - 1);
    }
  }

  /** The props of a freshly mounted widget over `schema` and `value`. */
  function Mounted(schema: JsonSchema, value: Option<JsonValue>): (p: WidgetProps)
    ensures p.schema == schema && p.value == value
  {
    WidgetProps(value, schema, Some(UiSchema(None)), map[], ["testField"], false, false, false)
  }

  /** Three clicks on an empty string array emit three events, the third still `['']`. */
  lemma ThreeAddsOnEmptyStrings()
    ensures var schema := BareSchema("array").(items := Some(BareSchema("string")));
      var w := ClickAddTimes(WidgetState(Mounted(schema, Some(Arr([]))), []), 3);
      |w.emitted| == 3 && w.emitted[2] == Arr([Str("")])
  {
    var schema := BareSchema("array").(items := Some(BareSchema("string")));
    var w0 := WidgetState(Mounted(schema, Some(Arr([]))), []);
    RepeatedAddsReadTheProp(w0, 3);
  }

  /**
    `n` clicks when the parent writes each emitted array back into the
    `value` prop before the next click (a bound `v-model`).
  */
  function AddWithFeedback(w: WidgetState, n: nat): (r: WidgetState)
    ensures r.props.schema == w.props.schema
    ensures |r.emitted| == |w.emitted| + n
    decreases n
  {
    if n == 0 then w else AddWithFeedback(FeedBack(ClickAdd(w)), n - 1)
  }

  /** The parent writing the last emitted array back into the `value` prop. */
  function FeedBack(w: WidgetState): (w': WidgetState)
    requires w.emitted != []
    ensures w'.emitted == w.emitted
    ensures w'.props == w.props.(value := Some(w.emitted[|w.emitted| - 1]))
  {
    w.(props := w.props.(value := Some(w.emitted[|w.emitted| - 1])))
  }

  /** `n` copies of `d`. */
  function Repeat(d: JsonValue, n: nat): (r: seq<JsonValue>)
    ensures |r| == n && forall k :: 0 <= k < n ==> r[k] == d
  {
    seq(n, _ => d)
  }

  /**
    With the value fed back, `n` clicks append `n` default items to the
    existing items, which keep their places, and emit `n` events: no add
    is lost.
  */
  lemma {:induction false} FeedbackAddsAppend(w: WidgetState, n: nat)
    ensures AddWithFeedback(w, n).props.schema == w.props.schema
    ensures Items(AddWithFeedback(w, n).props.value) ==
      Items(w.props.value) + Repeat(DefaultValue(w.props.schema.items), n)
    ensures |AddWithFeedback(w, n).emitted| == |w.emitted| + n
    decreases n
  {
    var d := DefaultValue(w.props.schema.items);
    if n == 0 {
      assert Items(w.props.value) + Repeat(d, 0) == Items(w.props.value);
    } else {
      var next := FeedBack(ClickAdd(w));
      assert Items(next.props.value) == Items(w.props.value) + [d];
      FeedbackAddsAppend(next, n - 1);
      assert [d] + Repeat(d, n - 1) == Repeat(d, n);
      assert Items(w.props.value) + [d] + Repeat(d, n - 1) == Items(w.props.value) + Repeat(d, n);
    }
  }
}
