# Schema-driven form engine: widget registry and array mutators

A Dafny model of the core of a Vue form engine that renders editable forms
from a JSON-Schema-like document. It covers three pieces:

- **The data model.** This is `schema.dfy`, module `Schema`. `JsonValue` is
  the form value union (`JsonSchemaValue`): exactly one of a string, an
  integer number, a boolean, null, an array of values or a string-keyed
  object of values. `JsonSchema` is the schema record. Its `typeTag` is the
  raw `type` string; `ParseTypeTag` accepts exactly the six declared tags.
  An object node's children are its `properties`, kept in declared order. An
  array node has one optional `items` schema shared by every element.
  `required` is a list of property names. `enumValues` holds values,
  `enumNames` holds strings, and each `oneOf` entry carries a `constValue`
  and an optional `title`. `defaultValue` is an optional value. `UiSchema`
  keeps only `ui:widget`. `WidgetProps` is the props record of every widget;
  its `path` is a sequence of string segments.
- **The widget registry.** This is `registry.dfy`, module `Registry`.
  `WidgetRegistry<C>` is a class and controls are an opaque type `C`. It has
  a name-to-control map, the map's keys in first-insertion order, and the
  resolver list. `Register` and `AddResolver` update them. `Get` and
  `WidgetNames` read them. `Resolve` loops over the resolvers with an early
  return and is proved equal to the pure rule `ResolveWith`:
  1. a non-empty `ui:widget` wins;
  2. otherwise the first resolver in registration order with a non-empty
     answer wins;
  3. otherwise the six-entry type table applies, with `StringWidget` for any
     other tag.
  `Resolve` has no `modifies` clause, so it cannot change the registry.
- **The array composite widget.** This is `array_widget.dfy`, module
  `ArrayWidget`. Its behaviour is the one its tests assert. A null,
  undefined or non-array value holds no items. Add appends the item
  schema's `default`, or else the empty value of its type. Remove excises
  one index. Update replaces one index. Item labels are the index plus one.
  `RenderedItems` counts the array items a subtree renders at every depth.
  `WidgetState` pairs the props with the log of emitted `update:value`
  payloads. Each click or child update appends one payload computed from
  the current `value` prop, and the props themselves never change.

Two behaviours one might expect from the engine's intent do not hold in
the code, and the model follows the code.
- An overlay widget does not win unconditionally. The code tests
  `ui:widget` for truthiness, so an empty `ui:widget` falls through to the
  resolvers (`Override`, `ResolverPrecedence`).
- Clicking add n times does not by itself append n elements. The widget
  computes every add from its unchanged `value` prop, so three clicks emit
  `['']` three times (`RepeatedAddsReadTheProp`). n elements are appended
  only when the parent writes each emitted array back into the prop
  (`FeedbackAddsAppend`).

## Model

| member | source | states |
|---|---|---|
| Schema.JsonValue | src/types/schema.ts:1-7 | a form value is exactly one of a string, a number (an integer here), a boolean, null, an array of values or a string-keyed object of values |
| Schema.JsonSchema | src/types/schema.ts:9-27 | a schema node: a raw `type` tag, `properties` in declared order, one optional `items` schema shared by all elements, `required` names, `enum` values, `enumNames` strings, `oneOf` entries with a `const` and an optional `title`, an optional `default`, and the numeric and string constraints |
| Schema.UiSchema | src/types/schema.ts:55-56 | the overlay of one node, holding its optional `ui:widget` |
| Schema.WidgetProps | src/types/schema.ts:71-80 | the props of every widget: value (possibly undefined), schema, overlay, root form data, a `path` of string segments, and the required, disabled and readonly flags |
| Schema.ParseTypeTag | src/types/schema.ts:10 | a `type` tag parses exactly when it is one of object, array, string, number, boolean, integer, and then it is that type's tag |
| Schema.TypeTagRoundTrip | src/types/schema.ts:10 | every declared type reads back from its tag |
| Registry.HasOpinion | src/components/schema-form/WidgetRegistry.ts:45 | a resolver's result counts exactly when it is a defined, non-empty string (the `if (result)` test) |
| Registry.Override | src/components/schema-form/WidgetRegistry.ts:37-40 | the overlay's widget is used exactly when the overlay is present and its `ui:widget` is a non-empty string |
| Registry.FirstOpinion | src/components/schema-form/WidgetRegistry.ts:43-48 | the resolver chain gives an answer exactly when some resolver returns a non-empty string, and that answer is non-empty |
| Registry.FirstOpinionIsFirst | src/components/schema-form/WidgetRegistry.ts:43-48 | when resolver k is the first, in registration order, with a non-empty answer, the chain returns resolver k's answer; `undefined` and `''` are skipped |
| Registry.FirstOpinionAppend | src/components/schema-form/WidgetRegistry.ts:29-48 | appending a resolver leaves the chain's answer unchanged whenever an earlier resolver answered; otherwise the new resolver is asked last |
| Registry.TypeMapping | src/components/schema-form/WidgetRegistry.ts:51-58 | the built-in type table: string to StringWidget, number and integer to NumberWidget, boolean to BooleanWidget, object to ObjectWidget, array to ArrayWidget |
| Registry.DefaultWidget | src/components/schema-form/WidgetRegistry.ts:51-60 | the type table never yields an empty name |
| Registry.DefaultWidgetTable | src/components/schema-form/WidgetRegistry.ts:51-60 | string gives StringWidget, number and integer give NumberWidget, boolean gives BooleanWidget, object gives ObjectWidget, array gives ArrayWidget, and any other tag gives StringWidget |
| Registry.ResolveWith | src/components/schema-form/WidgetRegistry.ts:36-61 | resolution always returns a non-empty widget name |
| Registry.OverrideWins | src/components/schema-form/WidgetRegistry.ts:37-40 | a non-empty `ui:widget` is returned regardless of the resolvers and the schema type |
| Registry.ResolverPrecedence | src/components/schema-form/WidgetRegistry.ts:43-48 | with no usable override (absent or `''`), the first resolver with a non-empty answer decides |
| Registry.TableFallback | src/components/schema-form/WidgetRegistry.ts:50-60 | with no usable override and no resolver answering, the type table decides, and an unmapped type gives StringWidget |
| Registry.AddResolverKeepsDecisions | src/components/schema-form/WidgetRegistry.ts:29-48 | adding a resolver never changes a result decided by an override or an earlier resolver; it only replaces the type-table fallback, and only when it answers |
| Registry.InsertName | src/components/schema-form/WidgetRegistry.ts:16 | setting a key keeps the key list duplicate-free and its existing order, adds the new name at the end, and leaves a known name in place |
| Registry.ListedOnce | src/components/schema-form/WidgetRegistry.ts:66-68 | a registered name occurs exactly once in the name list |
| Registry.WidgetRegistry.Valid | src/components/schema-form/WidgetRegistry.ts:9 | the registry invariant: the name list has no duplicates and holds exactly the map's keys |
| Registry.WidgetRegistry.constructor | src/components/schema-form/WidgetRegistry.ts:8-10 | a new registry has no controls, no names and no resolvers |
| Registry.WidgetRegistry.Get | src/components/schema-form/WidgetRegistry.ts:22-24 | a control comes back exactly for a registered name, and it is the one stored under that name |
| Registry.WidgetRegistry.WidgetNames | src/components/schema-form/WidgetRegistry.ts:66-68 | the name list holds exactly the registered names, each once, in first-insertion order |
| Registry.WidgetRegistry.Register | src/components/schema-form/WidgetRegistry.ts:15-17 | after registering, `Get(name)` is the new control, every other lookup is unchanged, an existing name overwrites in place and is still listed once, a new name goes to the end, and the resolvers are untouched |
| Registry.WidgetRegistry.AddResolver | src/components/schema-form/WidgetRegistry.ts:29-31 | the resolver is appended at the end, earlier resolvers keep their order, and the controls are untouched |
| Registry.WidgetRegistry.Resolve | src/components/schema-form/WidgetRegistry.ts:36-61 | the loop's result equals the override, then first-resolver, then type-table rule, and it is non-empty; the method changes nothing |
| ArrayWidget.Items | src/components/schema-form/widgets/__tests__/ArrayWidget.spec.ts:441-463 | a null or undefined value holds zero items; an array holds its own elements |
| ArrayWidget.EmptyValue | src/components/schema-form/widgets/__tests__/ArrayWidget.spec.ts:138-218 | the empty value of each type conforms to that type and is the empty one of its kind: the empty string, zero, false, the empty object, the empty array |
| ArrayWidget.DefaultValue | src/components/schema-form/widgets/__tests__/ArrayWidget.spec.ts:138-238 | a new item is `items.default` when present; otherwise it conforms to the item's declared type; with no item schema, or an unknown type and no default, it is `''` |
| ArrayWidget.DefaultValueTable | src/components/schema-form/widgets/__tests__/ArrayWidget.spec.ts:138-238 | written out per tag: a new item is `items.default` when present, else `0` for number and integer, `false` for boolean, `{}` for object, `[]` for array and `''` for string or any other tag |
| ArrayWidget.AddDefaultsAsTested | src/components/schema-form/widgets/__tests__/ArrayWidget.spec.ts:138-238 | the first add on an empty array yields `['']`, `[0]`, `[false]`, `[{}]`, `[[]]` for string, number, boolean, object and array items, and `['default item']` for an item schema with that default |
| ArrayWidget.AddItem | src/components/schema-form/widgets/__tests__/ArrayWidget.spec.ts:138-146 | add yields one more item, keeps every existing item at its index, and puts the default value last |
| ArrayWidget.RemoveItem | src/components/schema-form/widgets/__tests__/ArrayWidget.spec.ts:269-295 | remove(i) yields one item fewer: items before i stay, items after i shift down by one in order, and the multiset loses exactly the removed item |
| ArrayWidget.UpdateItem | src/components/schema-form/widgets/__tests__/ArrayWidget.spec.ts:321-361 | update(i, v) keeps the length, puts v (objects included) at i and leaves every other index unchanged |
| ArrayWidget.RemoveThenInsert | src/components/schema-form/widgets/__tests__/ArrayWidget.spec.ts:269-295 | putting the removed item back at its index restores the original array |
| ArrayWidget.RemoveUndoesAdd | src/components/schema-form/widgets/__tests__/ArrayWidget.spec.ts:138-146 | removing the item an add appended gives back the array before the add |
| ArrayWidget.UpdateWithSameItem | src/components/schema-form/widgets/__tests__/ArrayWidget.spec.ts:332-339 | writing back the item already at an index changes nothing |
| ArrayWidget.UpdateTwice | src/components/schema-form/widgets/__tests__/ArrayWidget.spec.ts:321-339 | of two updates at one index the later wins |
| ArrayWidget.UpdatesCommute | src/components/schema-form/widgets/__tests__/ArrayWidget.spec.ts:321-339 | updates at two different indices commute |
| ArrayWidget.ItemLabels | src/components/schema-form/widgets/__tests__/ArrayWidget.spec.ts:90-102 | there is one label per item, and item j is labelled j+1 |
| ArrayWidget.RelabelAfterRemove | src/components/schema-form/widgets/__tests__/ArrayWidget.spec.ts:297-307 | after a removal the labels are recomputed: an item that moved from j to j-1 is labelled j, and the labels run 1, 2, ... without a gap |
| ArrayWidget.LabelsAfterRemove | src/components/schema-form/widgets/__tests__/ArrayWidget.spec.ts:297-307 | after removing any item, the last one included, the labels run 1, 2, ... up to the new length without a gap |
| ArrayWidget.RenderedItems | src/components/schema-form/widgets/__tests__/ArrayWidget.spec.ts:513-552 | the definition of the `.array-item` count of a subtree: an array node renders one item per element plus what each element renders under `items`, an object node what its properties render, a leaf nothing; its contract gives 0 for leaves, at least one per element for arrays, and at least the inner lengths for arrays of arrays, and `FlatArrayItems`, `NestedArrayItems`, `NullRendersNothing`, `UndefinedRendersNothing` and the two examples pin its content |
| ArrayWidget.ElementItems | src/components/schema-form/widgets/__tests__/ArrayWidget.spec.ts:513-527 | what an array node's elements render under its `items` schema: nothing without an `items` schema or with a leaf one, and at least the inner arrays' lengths when `items` is an array schema |
| ArrayWidget.PropertyItems | src/components/schema-form/widgets/__tests__/ArrayWidget.spec.ts:529-552 | the definition of what an object node's properties render, summed in declared order; `UndefinedRendersNothing` and `NullRendersNothing` pin it for absent values |
| ArrayWidget.Field | src/components/schema-form/widgets/__tests__/ArrayWidget.spec.ts:529-552 | the `value?.[name]` lookup: defined exactly when the value is an object holding that key, and then that key's value |
| ArrayWidget.InnerLengths | src/components/schema-form/widgets/__tests__/ArrayWidget.spec.ts:513-527 | the total number of elements held by the arrays among a list of values, one level down |
| ArrayWidget.NestedArrayItems | src/components/schema-form/widgets/__tests__/ArrayWidget.spec.ts:513-527 | for any array of arrays of leaves, the count is the number of outer elements plus the number of inner elements |
| ArrayWidget.UndefinedRendersNothing | src/components/schema-form/widgets/__tests__/ArrayWidget.spec.ts:453-463 | an undefined value renders zero array items under any schema |
| ArrayWidget.NullRendersNothing | src/components/schema-form/widgets/__tests__/ArrayWidget.spec.ts:441-451 | a null value renders zero array items under any schema |
| ArrayWidget.FlatArrayItems | src/components/schema-form/widgets/__tests__/ArrayWidget.spec.ts:77-88 | an array of leaves renders exactly one item per element, whatever the element types (mixed arrays, 100 items) |
| ArrayWidget.FlatObjectArrayItems | src/components/schema-form/widgets/__tests__/ArrayWidget.spec.ts:117-134 | an array whose items are objects with only leaf properties renders exactly one item per element |
| ArrayWidget.FlatArrayAddRemove | src/components/schema-form/widgets/__tests__/ArrayWidget.spec.ts:394-402 | re-rendering after an add shows one more item, and after a remove one fewer |
| ArrayWidget.NestedArraysRenderFive | src/components/schema-form/widgets/__tests__/ArrayWidget.spec.ts:513-527 | `[['nested1','nested2'],['nested3']]` renders 5 items: nested arrays count at every depth |
| ArrayWidget.ObjectArrayRendersFive | src/components/schema-form/widgets/__tests__/ArrayWidget.spec.ts:529-552 | arrays inside object items count too: two people with 2 and 1 tags render 5 items |
| ArrayWidget.WidgetState | src/types/schema.ts:82-84 | a widget's props together with the `update:value` payloads it has emitted, oldest first |
| ArrayWidget.ClickAdd | src/components/schema-form/widgets/__tests__/ArrayWidget.spec.ts:137-146 | a click on add emits exactly one event, the added array, and leaves the props unchanged |
| ArrayWidget.ClickRemove | src/components/schema-form/widgets/__tests__/ArrayWidget.spec.ts:269-277 | a click on delete emits exactly one event, the array without that item, and leaves the props unchanged |
| ArrayWidget.ItemChanged | src/components/schema-form/widgets/__tests__/ArrayWidget.spec.ts:321-330 | a child's update emits exactly one event, the updated array, and leaves the props unchanged |
| ArrayWidget.ClickAddTimes | src/components/schema-form/widgets/__tests__/ArrayWidget.spec.ts:240-255 | n clicks on add with the props unchanged: the props stay as they are and exactly n events are appended |
| ArrayWidget.RepeatedAddsReadTheProp | src/components/schema-form/widgets/__tests__/ArrayWidget.spec.ts:240-255 | n clicks emit exactly n events after the earlier ones; each is computed from the unchanged `value` prop, so all are equal |
| ArrayWidget.Mounted | src/components/schema-form/__tests__/test-utils.ts:9-26 | a mounted widget carries the given schema and value |
| ArrayWidget.ThreeAddsOnEmptyStrings | src/components/schema-form/widgets/__tests__/ArrayWidget.spec.ts:240-255 | three clicks on an empty string array emit three events, and the third is still `['']` |
| ArrayWidget.FeedBack | src/components/schema-form/widgets/__tests__/ArrayWidget.spec.ts:394-402 | the parent writing the last emitted array back into the `value` prop, leaving the event log and the other props as they are |
| ArrayWidget.AddWithFeedback | src/components/schema-form/widgets/__tests__/ArrayWidget.spec.ts:394-402 | n clicks with each emitted array fed back as the new `value` prop keep the schema and append exactly n events |
| ArrayWidget.FeedbackAddsAppend | src/components/schema-form/widgets/__tests__/ArrayWidget.spec.ts:394-402 | when each emitted array is fed back as the new `value` prop, n clicks leave exactly the earlier items, in place, followed by n default items, and emit n events |

## Left out

- The Vue components themselves are not part of this model. That covers the mounting, DOM queries, CSS classes, titles, descriptions, the disabled state of the buttons and the leaf widgets (string, number, select, boolean). They are UI adapters around library controls.
- The test helpers beyond the default props are not modelled: `waitForUpdate`, `triggerInput`, `triggerClick` and `createMockFetch`. They are asynchronous test plumbing.
- Numbers are integers. Floating point (`3.14159`, `NaN`) and the number widget's step are not modelled.
- `LayoutConfig`, `ui:layout`, `FieldGroup`, `FormContext`, `ValidationError` and every `UiSchema` key except `ui:widget` are left out. They carry no behaviour here.
- `index.ts` is left out; it only re-exports.
- Registry.DefaultWidget: tags that name an inherited `Object.prototype` member (`constructor`, `toString`, `valueOf`, `hasOwnProperty`, `__proto__`, ...) are not modelled. In the source, `typeMapping[schema.type]` reads the inherited member, which is truthy, so the table step returns that function or object instead of `StringWidget`; the model gives `StringWidget` for every tag outside the six.
- Registry.DefaultWidgetTable: "any other tag gives StringWidget" holds only for tags that do not name an `Object.prototype` member, for the reason given for `DefaultWidget`.
- Registry.TableFallback: the `StringWidget` fallback for unmapped tags excludes tags that name an `Object.prototype` member, for which the source returns the inherited member.
- Registry.ResolveWith: "always a non-empty widget name" does not hold in the source when the type-table step meets a tag naming an `Object.prototype` member; the source then returns that member, not a string.
- Registry.WidgetRegistry.Resolve: its table step shares the `Object.prototype` gap described for `DefaultWidget`.
- The global `widgetRegistry` instance is left out. Dafny has no module-level mutable objects, so callers hold a `WidgetRegistry` they construct once.
- The object walker and object property add/remove are left out. `SchemaField.vue` and `ObjectWidget.vue` are not part of this model.
- `ArrayWidget.vue` is not part of this model. The array behaviour follows its tests; three gaps the tests leave open are filled as follows:
  - DefaultValue: `integer` gives `0`, and an absent `items` schema or an unknown type gives `''`. No test pins these cases.
  - Items: a value that is neither an array, null nor undefined is treated as empty. No test pins this case.
  - RenderedItems: nested items are counted from the schema's type tags. This assumes each nested node renders with its type-table widget; overlay overrides on nested items are not modelled.
- RemoveItem: requires an index inside the array. Its callers are the delete buttons, one per rendered item, so an out-of-range index never reaches it.
- UpdateItem: requires an index inside the array. Its callers are the item children, each reporting its own index.
- JavaScript object key order in values is not modelled (`Obj` is a map). The tests compare objects with `toEqual`, which ignores key order.
- Boolean truthiness coercion and the label and placeholder fallbacks of the leaf widgets are left out. They are UI conveniences.
