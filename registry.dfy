/**
  The widget registry (src/components/schema-form/WidgetRegistry.ts): a
  table of named controls, an ordered list of resolver functions, and the
  resolution rule that picks a widget name for a schema node.
*/
module Registry {
  import opened Wrappers
  import opened Schema

  /**
    A resolver: given a schema node and its optional overlay, a widget
    name or no opinion (`undefined`).
  */
  type Resolver = (JsonSchema, Option<UiSchema>) -> Option<string>

  /** A resolver result, or an overlay's `ui:widget`, counts only when it is a non-empty string. */
  predicate HasOpinion(r: Option<string>)
  {
    r.Some? && r.value != ""
  }

  /** The overlay's explicit widget, when it is a non-empty string. */
  function Override(ui: Option<UiSchema>): (r: Option<string>)
    ensures r.Some? <==> ui.Some? && HasOpinion(ui.value.widget)
    ensures r.Some? ==> r == ui.value.widget
  {
    if ui.Some? && HasOpinion(ui.value.widget) then ui.value.widget else None
  }

  /** The result of the first resolver, in order, that has an opinion on this node. */
  function FirstOpinion(rs: seq<Resolver>, schema: JsonSchema, ui: Option<UiSchema>): (r: Option<string>)
    ensures r.Some? ==> r.value != ""
    ensures r.Some? <==> exists k :: 0 <= k < |rs| && HasOpinion(rs[k](schema, ui))
  {
    if rs == [] then None
    else if HasOpinion(rs[0](schema, ui)) then rs[0](schema, ui)
    else
      var rest := FirstOpinion(rs[1..], schema, ui);
      assert forall k :: 1 <= k < |rs| ==> rs[k] == rs[1..][k - 1];
      rest
  }

  /**
    Precedence among resolvers: when resolver `k` is the first with an
    opinion, its answer is the one taken.
  */
  lemma {:induction false} FirstOpinionIsFirst(rs: seq<Resolver>, schema: JsonSchema, ui: Option<UiSchema>, k: nat)
    requires k < |rs| && HasOpinion(rs[k](schema, ui))
    requires forall j :: 0 <= j < k ==> !HasOpinion(rs[j](schema, ui))
    ensures FirstOpinion(rs, schema, ui) == rs[k](schema, ui)
  {
    if k > 0 {
      assert !HasOpinion(rs[0](schema, ui));
      assert forall j :: 0 <= j < k - 1 ==> rs[1..][j] == rs[j + 1];
      FirstOpinionIsFirst(rs[1..], schema, ui, k - 1);
    }
  }

  /**
    Appending a resolver changes the first opinion only when no earlier
    resolver had one.
  */
  lemma {:induction false} FirstOpinionAppend(rs: seq<Resolver>, r: Resolver, schema: JsonSchema, ui: Option<UiSchema>)
    ensures FirstOpinion(rs + [r], schema, ui) ==
      if FirstOpinion(rs, schema, ui).Some? then FirstOpinion(rs, schema, ui)
      else if HasOpinion(r(schema, ui)) then r(schema, ui)
      else None
  {
    if rs != [] {
      assert (rs + [r])[1..] == rs[1..] + [r];
      FirstOpinionAppend(rs[1..], r, schema, ui);
    }
  }

  /** The built-in type table, keyed by the raw `type` tag. */
  const TypeMapping: map<string, string> := map[
    "string" := "StringWidget",
    "number" := "NumberWidget",
    "integer" := "NumberWidget",
    "boolean" := "BooleanWidget",
    "object" := "ObjectWidget",
    "array" := "ArrayWidget"]

  /** The table's widget for a tag, with `StringWidget` for any tag the table lacks. */
  function DefaultWidget(typeTag: string): (w: string)
    ensures w != ""
  {
    if typeTag in TypeMapping && TypeMapping[typeTag] != "" then TypeMapping[typeTag] else "StringWidget"
  }

  /** The widget each declared type stands for, written per type. */
  function TypeWidget(t: SchemaType): string
  {
    match t
    case StringType => "StringWidget"
    case NumberType => "NumberWidget"
    case IntegerType => "NumberWidget"
    case BooleanType => "BooleanWidget"
    case ObjectType => "ObjectWidget"
    case ArrayType => "ArrayWidget"
  }

  /**
    The type table covers exactly the six declared tags: each maps to its
    type's widget, and any other tag gets `StringWidget`.
  */
  lemma DefaultWidgetTable(tag: string)
    ensures ParseTypeTag(tag).Some? ==> DefaultWidget(tag) == TypeWidget(ParseTypeTag(tag).value)
    ensures ParseTypeTag(tag).None? ==> DefaultWidget(tag) == "StringWidget"
  {
  }

  /**
    Resolution with a given resolver list: a non-empty `ui:widget` wins,
    then the first resolver with an opinion, then the type table.
  */
  function ResolveWith(rs: seq<Resolver>, schema: JsonSchema, ui: Option<UiSchema>): (w: string)
    ensures w != ""
  {
    match Override(ui)
    case Some(x) => x
    case None =>
      match FirstOpinion(rs, schema, ui)
      case Some(x) => x
      case None => DefaultWidget(schema.typeTag)
  }

  /** A non-empty `ui:widget` is returned whatever the resolvers and the schema type. */
  lemma OverrideWins(rs: seq<Resolver>, schema: JsonSchema, ui: UiSchema, name: string)
    requires ui.widget == Some(name) && name != ""
    ensures ResolveWith(rs, schema, Some(ui)) == name
  {
  }

  /**
    Without a usable override (absent, or the empty string), resolver `k`
    wins when it is the first with an opinion.
  */
  lemma ResolverPrecedence(rs: seq<Resolver>, schema: JsonSchema, ui: Option<UiSchema>, k: nat)
    requires !(ui.Some? && HasOpinion(ui.value.widget))
    requires k < |rs| && HasOpinion(rs[k](schema, ui))
    requires forall j :: 0 <= j < k ==> !HasOpinion(rs[j](schema, ui))
    ensures ResolveWith(rs, schema, ui) == rs[k](schema, ui).value
  {
    FirstOpinionIsFirst(rs, schema, ui, k);
  }

  /**
    Without a usable override and with no resolver having an opinion, the
    type table decides.
  */
  lemma TableFallback(rs: seq<Resolver>, schema: JsonSchema, ui: Option<UiSchema>)
    requires !(ui.Some? && HasOpinion(ui.value.widget))
    requires forall j :: 0 <= j < |rs| ==> !HasOpinion(rs[j](schema, ui))
    ensures ParseTypeTag(schema.typeTag).Some? ==>
      ResolveWith(rs, schema, ui) == TypeWidget(ParseTypeTag(schema.typeTag).value)
    ensures ParseTypeTag(schema.typeTag).None? ==> ResolveWith(rs, schema, ui) == "StringWidget"
  {
    DefaultWidgetTable(schema.typeTag);
  }

  /**
    A resolver added later never changes a decision an override or an
    earlier resolver already made; it is consulted only where the type
    table would otherwise decide.
  */
  lemma AddResolverKeepsDecisions(rs: seq<Resolver>, r: Resolver, schema: JsonSchema, ui: Option<UiSchema>)
    ensures Override(ui).Some? || FirstOpinion(rs, schema, ui).Some? ==>
      ResolveWith(rs + [r], schema, ui) == ResolveWith(rs, schema, ui)
    ensures Override(ui).None? && FirstOpinion(rs, schema, ui).None? ==>
      ResolveWith(rs + [r], schema, ui) ==
        if HasOpinion(r(schema, ui)) then r(schema, ui).value else DefaultWidget(schema.typeTag)
  {
    FirstOpinionAppend(rs, r, schema, ui);
  }

  /** No name occurs twice. */
  predicate NoDuplicates(names: seq<string>)
  {
    forall i, j :: 0 <= i < j < |names| ==> names[i] != names[j]
  }

  /**
    The key order of a JavaScript Map after setting `name`: a new key goes
    to the end, an existing key keeps its place.
  */
  function InsertName(names: seq<string>, name: string): (r: seq<string>)
    requires NoDuplicates(names)
    ensures NoDuplicates(r)
    ensures forall n :: n in r <==> n in names || n == name
    ensures names <= r
  {
    if name in names then names else names + [name]
  }

  /** In a duplicate-free list, a listed name occurs exactly once. */
  lemma {:induction false} ListedOnce(names: seq<string>, name: string)
    requires NoDuplicates(names) && name in names
    ensures multiset(names)[name] == 1
  {
    if names[0] == name {
      assert name !in names[1..];
      assert names == [names[0]] + names[1..];
    } else {
      assert names == [names[0]] + names[1..];
      ListedOnce(names[1..], name);
    }
  }

  /**
    The registry. `widgets` is the name-to-control table, `names` its keys
    in first-insertion order (the Map's iteration order), `resolvers` the
    resolver list in registration order. Controls are opaque (`C`).
  */
  class WidgetRegistry<C> {
    var widgets: map<string, C>
    var names: seq<string>
    var resolvers: seq<Resolver>

    ghost predicate Valid()
      reads this
    {
      NoDuplicates(names) && forall n :: n in widgets <==> n in names
    }

    constructor ()
      ensures Valid()
      ensures widgets == map[] && names == [] && resolvers == []
    {
      widgets := map[];
      names := [];
      resolvers := [];
    }

    /** The control registered under `name`, if any. */
    function Get(name: string): (r: Option<C>)
      reads this
      ensures r.Some? <==> name in widgets
      ensures r.Some? ==> r.value == widgets[name]
    {
      if name in widgets then Some(widgets[name]) else None
    }

    /** The registered names, each exactly once, in first-insertion order. */
    function WidgetNames(): (r: seq<string>)
      reads this
      requires Valid()
      ensures NoDuplicates(r)
      ensures forall n :: n in r <==> n in widgets
    {
      names
    }

    /**
      Registers `control` under `name`, overwriting any earlier control of
      that name; every other lookup and the resolvers are unchanged.
    */
    method Register(name: string, control: C)
      requires Valid()
      modifies this
      ensures Valid()
      ensures Get(name) == Some(control)
      ensures forall n :: n != name ==> Get(n) == old(Get(n))
      ensures widgets == old(widgets)[name := control]
      ensures names == InsertName(old(names), name)
      ensures name in old(widgets) ==> names == old(names)
      ensures multiset(WidgetNames())[name] == 1
      ensures resolvers == old(resolvers)
    {
      names := InsertName(names, name);
      widgets := widgets[name := control];
      ListedOnce(names, name);
    }

    /** Appends `r` to the resolver list; earlier resolvers keep their order. */
    method AddResolver(r: Resolver)
      requires Valid()
      modifies this
      ensures Valid()
      ensures resolvers == old(resolvers) + [r]
      ensures widgets == old(widgets) && names == old(names)
    {
      resolvers := resolvers + [r];
    }

    /**
      The widget name for a schema node: the overlay's non-empty
      `ui:widget`, else the first resolver's non-empty answer, else the
      type table. Changes nothing.
    */
    method Resolve(schema: JsonSchema, ui: Option<UiSchema>) returns (w: string)
      ensures w == ResolveWith(resolvers, schema, ui)
      ensures w != ""
    {
      if ui.Some? && ui.value.widget.Some? && ui.value.widget.value != "" {
        return ui.value.widget.value;
      }
      var i := 0;
      while i < |resolvers|
        invariant 0 <= i <= |resolvers|
        invariant FirstOpinion(resolvers[i..], schema, ui) == FirstOpinion(resolvers, schema, ui)
      {
        var result := resolvers[i](schema, ui);
        if result.Some? && result.value != "" {
          return result.value;
        }
        assert resolvers[i..][1..] == resolvers[i + 1..];
        i := i + 1;
      }
      if schema.typeTag in TypeMapping && TypeMapping[schema.typeTag] != "" {
        w := TypeMapping[schema.typeTag];
      } else {
        w := "StringWidget";
      }
    }
  }
}
