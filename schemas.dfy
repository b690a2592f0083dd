/** The argument schemas of the eight tools, written in a small schema language that
    covers the parts of zod the tools use, and the parser that checks raw arguments
    against a schema and fills in defaults.

    As in zod: an object schema accepts only a non-null, non-array object, keeps only
    the keys it declares (unknown keys are stripped, also inside nested objects) and
    omits an optional key that is absent; a default is used only when the value is
    absent; `any` accepts everything, absence included. */
module Schemas {
  import opened Wrappers
  import opened Js

  datatype Schema =
    | AnyValue                                              // z.any()
    | Boolean                                               // z.boolean()
    | Number(min: Option<real>, max: Option<real>)          // z.number().min(..).max(..)
    | Text(minLength: nat, maxLength: Option<nat>, uuid: bool) // z.string().min(..).max(..).uuid()
    | OneOf(options: seq<string>)                           // z.enum([..])
    | ArrayOf(element: Schema)                              // z.array(..)
    | ObjectOf(shape: seq<Field>)                           // z.object({..})
    | Optional(inner: Schema)                               // .optional()
    | WithDefault(inner: Schema, default: Value)            // .default(..)

  datatype Field = Field(key: string, schema: Schema)

  /** Where parsing failed: the path of keys (and array indices) to the offending value. */
  datatype Issue = Issue(path: seq<string>)

  predicate HexDigit(c: char) {
    '0' <= c <= '9' || 'a' <= c <= 'f' || 'A' <= c <= 'F'
  }

  /** The 8-4-4-4-12 hexadecimal shape `z.string().uuid()` checks. */
  predicate IsUuid(s: string) {
    && |s| == 36
    && forall i :: 0 <= i < 36 ==>
         if i == 8 || i == 13 || i == 18 || i == 23 then s[i] == '-' else HexDigit(s[i])
  }

  function Lookup(m: map<string, Value>, key: string): Option<Value> {
    if key in m then Some(m[key]) else None
  }

  /** Two values of the same JSON kind. */
  predicate SameKind(a: Value, b: Value) {
    && a.Null? == b.Null? && a.Bool? == b.Bool? && a.Num? == b.Num?
    && a.Str? == b.Str? && a.Arr? == b.Arr? && a.Obj? == b.Obj?
  }

  /** Checks a present value `v` against `s`. Parsing never changes a value's kind,
      returns scalars as they are, keeps an array's length, and reports a failure at
      a path that extends `path`. */
  function ParseValue(s: Schema, v: Value, path: seq<string>): (r: Result<Value, Issue>)
    ensures r.Success? ==> SameKind(r.value, v)
    ensures r.Success? && !v.Arr? && !v.Obj? ==> r.value == v
    ensures r.Success? && v.Arr? ==> |r.value.items| == |v.items|
    ensures r.Failure? ==> path <= r.error.path
    decreases s, 1
  {
    match s
    case AnyValue => Success(v)
    case Boolean => if v.Bool? then Success(v) else Failure(Issue(path))
    case Number(min, max) =>
      if v.Num? && (min.None? || min.value <= v.n) && (max.None? || v.n <= max.value)
      then Success(v) else Failure(Issue(path))
    case Text(minLength, maxLength, uuid) =>
      if v.Str? && minLength <= |v.s| && (maxLength.None? || |v.s| <= maxLength.value)
         && (uuid ==> IsUuid(v.s))
      then Success(v) else Failure(Issue(path))
    case OneOf(options) => if v.Str? && v.s in options then Success(v) else Failure(Issue(path))
    case ArrayOf(_) =>
      if v.Arr? then
        match ParseItems(s, v.items, path, 0)
        case Success(items) => Success(Arr(items))
        case Failure(issue) => Failure(issue)
      else Failure(Issue(path))
    case ObjectOf(_) =>
      if v.Obj? then
        match ParseShape(s, v.fields, path, 0)
        case Success(fields) => Success(Obj(fields))
        case Failure(issue) => Failure(issue)
      else Failure(Issue(path))
    case Optional(inner) => ParseValue(inner, v, path)
    case WithDefault(inner, _) => ParseValue(inner, v, path)
  }

  /** Checks a value that may be absent (`None`); the parsed value is absent exactly
      when the input is absent and the schema allows that without a default. */
  function ParseSlot(s: Schema, slot: Option<Value>, path: seq<string>): (r: Result<Option<Value>, Issue>)
    ensures slot.Some? && r.Success? ==> r.value.Some? && SameKind(r.value.value, slot.value)
    ensures slot.None? ==> ((r.Success? && r.value.None?) <==> s.Optional? || s.AnyValue?)
    ensures r.Failure? ==> path <= r.error.path
    decreases s, 2
  {
    match slot
    case Some(v) =>
      (match ParseValue(s, v, path)
       case Success(p) => Success(Some(p))
       case Failure(issue) => Failure(issue))
    case None =>
      match s
      case Optional(_) => Success(None)
      case AnyValue => Success(None)
      case WithDefault(inner, d) =>
        (match ParseValue(inner, d, path)
         case Success(p) => Success(Some(p))
         case Failure(issue) => Failure(issue))
      case _ => Failure(Issue(path))
  }

  /** The fields of object schema `s` from index `i` on, read from `input`. */
  function ParseShape(s: Schema, input: map<string, Value>, path: seq<string>, i: nat)
    : (r: Result<map<string, Value>, Issue>)
    requires s.ObjectOf? && i <= |s.shape|
    ensures r.Failure? ==> path <= r.error.path
    decreases s, 0, |s.shape| - i
  {
    if i == |s.shape| then Success(map[])
    else
      var f := s.shape[i];
      match ParseSlot(f.schema, Lookup(input, f.key), path + [f.key])
      case Failure(issue) => Failure(issue)
      case Success(out) =>
        match ParseShape(s, input, path, i + 1)
        case Failure(issue) => Failure(issue)
        case Success(rest) => Success(if out.Some? then rest[f.key := out.value] else rest)
  }

  /** The elements of an array checked against the element schema of `s`, from `i` on. */
  function ParseItems(s: Schema, items: seq<Value>, path: seq<string>, i: nat): (r: Result<seq<Value>, Issue>)
    requires s.ArrayOf? && i <= |items|
    ensures r.Success? ==> |r.value| == |items| - i
    ensures r.Failure? ==> path <= r.error.path
    decreases s, 0, |items| - i
  {
    if i == |items| then Success([])
    else
      match ParseValue(s.element, items[i], path + [NatToString(i)])
      case Failure(issue) => Failure(issue)
      case Success(p) =>
        match ParseItems(s, items, path, i + 1)
        case Failure(issue) => Failure(issue)
        case Success(rest) => Success([p] + rest)
  }

  /** `Schema.parse(args)`. */
  function Parse(s: Schema, args: Value): Result<Value, Issue> {
    ParseValue(s, args, [])
  }

  // ----- the keys a shape declares -----

  function KeysFrom(shape: seq<Field>, i: nat): set<string>
    requires i <= |shape|
    decreases |shape| - i
  {
    if i == |shape| then {} else {shape[i].key} + KeysFrom(shape, i + 1)
  }

  predicate DistinctKeys(shape: seq<Field>) {
    forall i, j :: 0 <= i < j < |shape| ==> shape[i].key != shape[j].key
  }

  /** The parse of field `j` of object schema `s`, read from `input`. */
  function SlotAt(s: Schema, input: map<string, Value>, path: seq<string>, j: nat): Result<Option<Value>, Issue>
    requires s.ObjectOf? && j < |s.shape|
  {
    ParseSlot(s.shape[j].schema, Lookup(input, s.shape[j].key), path + [s.shape[j].key])
  }

  /** What a shape lets through: parsing succeeds exactly when every declared field
      parses. */
  lemma {:induction false} ParseShapeAccepts(s: Schema, input: map<string, Value>, path: seq<string>, i: nat)
    requires s.ObjectOf? && i <= |s.shape|
    ensures ParseShape(s, input, path, i).Success? <==>
      forall j :: i <= j < |s.shape| ==> SlotAt(s, input, path, j).Success?
    decreases |s.shape| - i
  {
    if i < |s.shape| {
      ParseShapeAccepts(s, input, path, i + 1);
      var slot := SlotAt(s, input, path, i);
      assert ParseShape(s, input, path, i).Success? <==>
        slot.Success? && ParseShape(s, input, path, i + 1).Success?;
    }
  }

  /** What a shape produces: only declared keys, each present exactly when its field's
      parse produced a value, and with that value. Unknown input keys never reach the
      output. */
  lemma {:induction false} ParseShapeOutput(s: Schema, input: map<string, Value>, path: seq<string>, i: nat)
    requires s.ObjectOf? && i <= |s.shape| && DistinctKeys(s.shape)
    requires ParseShape(s, input, path, i).Success?
    ensures ParseShape(s, input, path, i).value.Keys <= KeysFrom(s.shape, i)
    ensures forall j :: i <= j < |s.shape| ==>
      SlotAt(s, input, path, j).Success? &&
      (s.shape[j].key in ParseShape(s, input, path, i).value <==> SlotAt(s, input, path, j).value.Some?) &&
      (SlotAt(s, input, path, j).value.Some? ==>
         ParseShape(s, input, path, i).value[s.shape[j].key] == SlotAt(s, input, path, j).value.value)
    decreases |s.shape| - i
  {
    if i < |s.shape| {
      ParseShapeOutput(s, input, path, i + 1);
      KeysFromSpec(s.shape, i + 1);
    }
  }

  lemma {:induction false} KeysFromSpec(shape: seq<Field>, i: nat)
    requires i <= |shape|
    ensures forall k :: k in KeysFrom(shape, i) <==> exists j :: i <= j < |shape| && shape[j].key == k
    decreases |shape| - i
  {
    if i < |shape| {
      KeysFromSpec(shape, i + 1);
    }
  }

  /** An object schema accepts only objects, and the object it produces holds only the
      keys the schema declares. */
  lemma ParseObjectStrips(shape: seq<Field>, args: Value)
    requires DistinctKeys(shape)
    ensures Parse(ObjectOf(shape), args).Success? ==>
      args.Obj? && Parse(ObjectOf(shape), args).value.Obj? &&
      Parse(ObjectOf(shape), args).value.fields.Keys <= KeysFrom(shape, 0)
  {
    if Parse(ObjectOf(shape), args).Success? {
      ParseShapeOutput(ObjectOf(shape), args.fields, [], 0);
    }
  }

  // ----- the eight argument schemas -----

  const Formats: seq<string> := ["reactflow", "mermaid"]
  const AnyObject: Schema := ObjectOf([])
  const UuidText: Schema := Text(0, None, true)
  const AnyText: Schema := Text(0, None, false)
  const Position: Schema := ObjectOf([Field("x", Number(None, None)), Field("y", Number(None, None))])

  const CreateDiagramSchema: Schema := ObjectOf([
    Field("title", Text(1, Some(255), false)),
    Field("description", Optional(AnyText)),
    Field("format", WithDefault(OneOf(Formats), Str("reactflow"))),
    Field("template", Optional(AnyText)),
    Field("initialNodes", Optional(ArrayOf(AnyValue))),
    Field("initialEdges", Optional(ArrayOf(AnyValue)))])

  const NodeData: Schema := ObjectOf([
    Field("type", AnyText),
    Field("label", AnyText),
    Field("position", Position),
    Field("style", Optional(AnyObject)),
    Field("data", Optional(AnyObject))])

  const NodeUpdates: Schema := ObjectOf([
    Field("label", Optional(AnyText)),
    Field("position", Optional(Position)),
    Field("style", Optional(AnyObject)),
    Field("data", Optional(AnyObject))])

  const EdgeData: Schema := ObjectOf([
    Field("source", AnyText),
    Field("target", AnyText),
    Field("label", Optional(AnyText)),
    Field("type", Optional(AnyText)),
    Field("style", Optional(AnyObject))])

  const AddNodeSchema: Schema := ObjectOf([
    Field("diagram_uuid", UuidText),
    Field("node_data", NodeData)])

  const UpdateNodeSchema: Schema := ObjectOf([
    Field("diagram_uuid", UuidText),
    Field("node_id", AnyText),
    Field("updates", NodeUpdates)])

  const DeleteNodeSchema: Schema := ObjectOf([
    Field("diagram_uuid", UuidText),
    Field("node_id", AnyText)])

  const AddEdgeSchema: Schema := ObjectOf([
    Field("diagram_uuid", UuidText),
    Field("edge_data", EdgeData)])

  const DeleteEdgeSchema: Schema := ObjectOf([
    Field("diagram_uuid", UuidText),
    Field("edge_id", AnyText)])

  const ReadDiagramSchema: Schema := ObjectOf([
    Field("diagram_uuid", UuidText),
    Field("include_metadata", WithDefault(Boolean, Bool(false)))])

  const ListDiagramsSchema: Schema := ObjectOf([
    Field("limit", WithDefault(Number(Some(1.0), Some(100.0)), Num(10.0))),
    Field("offset", WithDefault(Number(Some(0.0), None), Num(0.0))),
    Field("filter", Optional(ObjectOf([
      Field("format", Optional(OneOf(Formats))),
      Field("agent_accessible", Optional(Boolean))])))])
}

module SchemaFacts {
  import opened Wrappers
  import opened Js
  import opened Schemas

  /** `key` is absent or its value satisfies the given kind. */
  predicate AbsentOrText(m: map<string, Value>, key: string) { key !in m || m[key].Str? }
  predicate AbsentOrArray(m: map<string, Value>, key: string) { key !in m || m[key].Arr? }
  predicate AbsentOrBool(m: map<string, Value>, key: string) { key !in m || m[key].Bool? }
  predicate AbsentOrFormat(m: map<string, Value>, key: string) {
    key !in m || (m[key].Str? && m[key].s in Formats)
  }

  /** A plain string field accepts exactly a present string within its length bounds,
      and passes it through unchanged. */
  lemma TextSlot(t: Schema, slot: Option<Value>, path: seq<string>)
    requires t.Text? && !t.uuid
    ensures ParseSlot(t, slot, path).Success? <==>
      && slot.Some? && slot.value.Str? && t.minLength <= |slot.value.s|
      && (t.maxLength.None? || |slot.value.s| <= t.maxLength.value)
    ensures ParseSlot(t, slot, path).Success? ==> ParseSlot(t, slot, path).value == slot
  {
  }

  /** A UUID field accepts exactly a present well-formed UUID string, unchanged. */
  lemma UuidSlot(slot: Option<Value>, path: seq<string>)
    ensures ParseSlot(UuidText, slot, path).Success? <==>
      slot.Some? && slot.value.Str? && IsUuid(slot.value.s)
    ensures ParseSlot(UuidText, slot, path).Success? ==> ParseSlot(UuidText, slot, path).value == slot
  {
  }

  /** `.optional()` lets an absent value through as absent and checks a present one
      against the inner schema. */
  lemma OptionalSlot(inner: Schema, slot: Option<Value>, path: seq<string>)
    ensures ParseSlot(Optional(inner), slot, path) ==
      if slot.None? then Success(None) else ParseSlot(inner, slot, path)
  {
  }

  /** An optional array of anything accepts exactly an absent value or an array, and
      passes it through unchanged. */
  lemma SlotArrayOfAny(slot: Option<Value>, path: seq<string>)
    ensures ParseSlot(Optional(ArrayOf(AnyValue)), slot, path).Success? <==> slot.None? || slot.value.Arr?
    ensures ParseSlot(Optional(ArrayOf(AnyValue)), slot, path).Success? ==>
      ParseSlot(Optional(ArrayOf(AnyValue)), slot, path).value == slot
  {
    if slot.Some? && slot.value.Arr? {
      ItemsOfAny(ArrayOf(AnyValue), slot.value.items, path, 0);
    }
  }

  lemma {:induction false} ItemsOfAny(s: Schema, items: seq<Value>, path: seq<string>, i: nat)
    requires s == ArrayOf(AnyValue) && i <= |items|
    ensures ParseItems(s, items, path, i) == Success(items[i..])
    decreases |items| - i
  {
    if i < |items| {
      assert ParseValue(s.element, items[i], path + [NatToString(i)]) == Success(items[i]);
      ItemsOfAny(s, items, path, i + 1);
      assert [items[i]] + items[i + 1..] == items[i..];
    } else {
      assert items[i..] == [];
    }
  }

  /** `create_diagram` accepts exactly an object whose `title` is a string of 1 to 255
      characters, whose `format` is absent or one of `reactflow`/`mermaid`, and whose
      other declared members are absent or of their declared kinds. */
  lemma CreateDiagramAccepts(args: Value)
    ensures Parse(CreateDiagramSchema, args).Success? <==>
      && args.Obj?
      && "title" in args.fields && args.fields["title"].Str?
      && 1 <= |args.fields["title"].s| <= 255
      && AbsentOrText(args.fields, "description")
      && AbsentOrFormat(args.fields, "format")
      && AbsentOrText(args.fields, "template")
      && AbsentOrArray(args.fields, "initialNodes")
      && AbsentOrArray(args.fields, "initialEdges")
  {
    var s := CreateDiagramSchema;
    if args.Obj? {
      var m := args.fields;
      assert Parse(s, args).Success? <==> ParseShape(s, m, [], 0).Success?;
      ParseShapeAccepts(s, m, [], 0);
      assert SlotAt(s, m, [], 0).Success? <==> "title" in m && m["title"].Str? && 1 <= |m["title"].s| <= 255 by {
        TextSlot(Text(1, Some(255), false), Lookup(m, "title"), [] + ["title"]);
      }
      assert SlotAt(s, m, [], 1).Success? <==> AbsentOrText(m, "description") by {
        OptionalSlot(AnyText, Lookup(m, "description"), [] + ["description"]);
        TextSlot(AnyText, Lookup(m, "description"), [] + ["description"]);
      }
      assert SlotAt(s, m, [], 2).Success? <==> AbsentOrFormat(m, "format");
      assert SlotAt(s, m, [], 3).Success? <==> AbsentOrText(m, "template") by {
        OptionalSlot(AnyText, Lookup(m, "template"), [] + ["template"]);
        TextSlot(AnyText, Lookup(m, "template"), [] + ["template"]);
      }
      assert SlotAt(s, m, [], 4).Success? <==> AbsentOrArray(m, "initialNodes") by {
        SlotArrayOfAny(Lookup(m, "initialNodes"), [] + ["initialNodes"]);
      }
      assert SlotAt(s, m, [], 5).Success? <==> AbsentOrArray(m, "initialEdges") by {
        SlotArrayOfAny(Lookup(m, "initialEdges"), [] + ["initialEdges"]);
      }
    }
  }

  /** The parsed `create_diagram` arguments keep the title and always carry a
      `format`: the one given, or `'reactflow'` when none was. */
  lemma CreateDiagramDefaults(args: Value)
    requires Parse(CreateDiagramSchema, args).Success?
    ensures var out := Parse(CreateDiagramSchema, args).value;
      && out.Obj? && args.Obj? && "title" in args.fields
      && "title" in out.fields && out.fields["title"] == args.fields["title"]
      && "format" in out.fields
      && out.fields["format"] == (if "format" in args.fields then args.fields["format"] else Str("reactflow"))
  {
    var s := CreateDiagramSchema;
    var m := args.fields;
    assert DistinctKeys(s.shape);
    ParseShapeOutput(s, m, [], 0);
    assert s.shape[0].key == "title" && s.shape[2].key == "format";
    assert SlotAt(s, m, [], 0).value == Lookup(m, "title");
    assert SlotAt(s, m, [], 2).value == Some(if "format" in m then m["format"] else Str("reactflow"));
  }

  /** `read_diagram` accepts exactly an object whose `diagram_uuid` is a UUID string and
      whose `include_metadata` is absent or a boolean; the parsed arguments keep the
      UUID and carry `include_metadata`, `false` when none was given. */
  lemma ReadDiagramArguments(args: Value)
    ensures Parse(ReadDiagramSchema, args).Success? <==>
      && args.Obj?
      && "diagram_uuid" in args.fields && args.fields["diagram_uuid"].Str?
      && IsUuid(args.fields["diagram_uuid"].s)
      && AbsentOrBool(args.fields, "include_metadata")
    ensures Parse(ReadDiagramSchema, args).Success? ==>
      var out := Parse(ReadDiagramSchema, args).value;
      && out.Obj?
      && "diagram_uuid" in out.fields && out.fields["diagram_uuid"] == args.fields["diagram_uuid"]
      && "include_metadata" in out.fields
      && out.fields["include_metadata"] ==
           (if "include_metadata" in args.fields then args.fields["include_metadata"] else Bool(false))
  {
    var s := ReadDiagramSchema;
    if args.Obj? {
      var m := args.fields;
      ParseShapeAccepts(s, m, [], 0);
      assert s.shape[0].key == "diagram_uuid" && s.shape[1].key == "include_metadata";
      assert SlotAt(s, m, [], 0).Success? <==>
        "diagram_uuid" in m && m["diagram_uuid"].Str? && IsUuid(m["diagram_uuid"].s);
      assert SlotAt(s, m, [], 1).Success? <==> AbsentOrBool(m, "include_metadata");
      if Parse(s, args).Success? {
        assert DistinctKeys(s.shape);
        ParseShapeOutput(s, m, [], 0);
        assert SlotAt(s, m, [], 0).value == Lookup(m, "diagram_uuid");
        assert SlotAt(s, m, [], 1).value ==
          Some(if "include_metadata" in m then m["include_metadata"] else Bool(false));
      }
    }
  }

  /** `filter` is absent, or an object whose `format` is absent or a known format and
      whose `agent_accessible` is absent or a boolean. */
  predicate AbsentOrFilter(m: map<string, Value>, key: string) {
    key !in m ||
    (m[key].Obj? && AbsentOrFormat(m[key].fields, "format") && AbsentOrBool(m[key].fields, "agent_accessible"))
  }

  predicate AbsentOrNumberAtLeast(m: map<string, Value>, key: string, min: real) {
    key !in m || (m[key].Num? && min <= m[key].n)
  }

  lemma FilterSlot(slot: Option<Value>, path: seq<string>)
    ensures ParseSlot(ListDiagramsSchema.shape[2].schema, slot, path).Success? <==>
      slot.None? || AbsentOrFilter(map["filter" := slot.value], "filter")
  {
    var f := ListDiagramsSchema.shape[2].schema.inner;
    assert ListDiagramsSchema.shape[2].schema == Optional(f);
    if slot.Some? {
      assert ParseValue(Optional(f), slot.value, path) == ParseValue(f, slot.value, path);
      if slot.value.Obj? {
        var m := slot.value.fields;
        ParseShapeAccepts(f, m, path, 0);
        assert SlotAt(f, m, path, 0).Success? <==> AbsentOrFormat(m, "format");
        assert SlotAt(f, m, path, 1).Success? <==> AbsentOrBool(m, "agent_accessible");
      }
    }
  }

  /** `list_diagrams` accepts exactly an object whose `limit` is absent or a number in
      1..100, whose `offset` is absent or a number of at least 0, and whose `filter` is
      absent or a well-formed filter. */
  lemma ListDiagramsAccepts(args: Value)
    ensures Parse(ListDiagramsSchema, args).Success? <==>
      && args.Obj?
      && AbsentOrNumberAtLeast(args.fields, "limit", 1.0)
      && ("limit" in args.fields ==> args.fields["limit"].n <= 100.0)
      && AbsentOrNumberAtLeast(args.fields, "offset", 0.0)
      && AbsentOrFilter(args.fields, "filter")
  {
    var s := ListDiagramsSchema;
    if args.Obj? {
      var m := args.fields;
      ParseShapeAccepts(s, m, [], 0);
      assert SlotAt(s, m, [], 0).Success? <==>
        AbsentOrNumberAtLeast(m, "limit", 1.0) && ("limit" in m ==> m["limit"].n <= 100.0);
      assert SlotAt(s, m, [], 1).Success? <==> AbsentOrNumberAtLeast(m, "offset", 0.0);
      assert SlotAt(s, m, [], 2).Success? <==> AbsentOrFilter(m, "filter") by {
        FilterSlot(Lookup(m, "filter"), [] + ["filter"]);
      }
    }
  }

  /** The parsed `list_diagrams` arguments always carry `limit` (10 when none was given)
      and `offset` (0 when none was given), within their bounds. */
  lemma ListDiagramsDefaults(args: Value)
    requires Parse(ListDiagramsSchema, args).Success?
    ensures var out := Parse(ListDiagramsSchema, args).value;
      && out.Obj? && args.Obj?
      && "limit" in out.fields && "offset" in out.fields
      && out.fields["limit"] == (if "limit" in args.fields then args.fields["limit"] else Num(10.0))
      && out.fields["offset"] == (if "offset" in args.fields then args.fields["offset"] else Num(0.0))
      && out.fields["limit"].Num? && 1.0 <= out.fields["limit"].n <= 100.0
      && out.fields["offset"].Num? && 0.0 <= out.fields["offset"].n
  {
    var s := ListDiagramsSchema;
    var m := args.fields;
    assert DistinctKeys(s.shape);
    ParseShapeOutput(s, m, [], 0);
    assert s.shape[0].key == "limit" && s.shape[1].key == "offset";
    assert SlotAt(s, m, [], 0).value == Some(if "limit" in m then m["limit"] else Num(10.0));
    assert SlotAt(s, m, [], 1).value == Some(if "offset" in m then m["offset"] else Num(0.0));
  }

  // ----- the node and edge tools -----

  predicate PresentText(m: map<string, Value>, key: string) { key in m && m[key].Str? }
  predicate PresentUuid(m: map<string, Value>, key: string) {
    key in m && m[key].Str? && IsUuid(m[key].s)
  }
  predicate AbsentOrObject(m: map<string, Value>, key: string) { key !in m || m[key].Obj? }

  /** An object with numeric `x` and `y`. */
  predicate IsPosition(v: Value) {
    v.Obj? && "x" in v.fields && v.fields["x"].Num? && "y" in v.fields && v.fields["y"].Num?
  }
  predicate AbsentOrPosition(m: map<string, Value>, key: string) { key !in m || IsPosition(m[key]) }

  /** A node: string `type` and `label`, a position, optional object `style` and `data`. */
  predicate IsNodeData(v: Value) {
    && v.Obj? && PresentText(v.fields, "type") && PresentText(v.fields, "label")
    && "position" in v.fields && IsPosition(v.fields["position"])
    && AbsentOrObject(v.fields, "style") && AbsentOrObject(v.fields, "data")
  }

  /** Node updates: every member optional, each of its declared kind when present. */
  predicate IsNodeUpdates(v: Value) {
    && v.Obj? && AbsentOrText(v.fields, "label") && AbsentOrPosition(v.fields, "position")
    && AbsentOrObject(v.fields, "style") && AbsentOrObject(v.fields, "data")
  }

  /** An edge: string `source` and `target`, optional string `label` and `type`, and an
      optional object `style`. */
  predicate IsEdgeData(v: Value) {
    && v.Obj? && PresentText(v.fields, "source") && PresentText(v.fields, "target")
    && AbsentOrText(v.fields, "label") && AbsentOrText(v.fields, "type")
    && AbsentOrObject(v.fields, "style")
  }

  lemma PlainTextSlot(m: map<string, Value>, key: string, path: seq<string>)
    ensures ParseSlot(AnyText, Lookup(m, key), path).Success? <==> PresentText(m, key)
  {
    TextSlot(AnyText, Lookup(m, key), path);
  }

  lemma OptionalTextSlot(m: map<string, Value>, key: string, path: seq<string>)
    ensures ParseSlot(Optional(AnyText), Lookup(m, key), path).Success? <==> AbsentOrText(m, key)
  {
    OptionalSlot(AnyText, Lookup(m, key), path);
    TextSlot(AnyText, Lookup(m, key), path);
  }

  /** `z.object({}).optional()` accepts an absent value or any object, and since the
      empty shape declares no key, a present object always parses to `{}`. */
  lemma OptionalObjectSlot(m: map<string, Value>, key: string, path: seq<string>)
    ensures ParseSlot(Optional(AnyObject), Lookup(m, key), path).Success? <==> AbsentOrObject(m, key)
    ensures key in m && m[key].Obj? ==> ParseSlot(Optional(AnyObject), Lookup(m, key), path) == Success(Some(Obj(map[])))
  {
    OptionalSlot(AnyObject, Lookup(m, key), path);
    if key in m && m[key].Obj? {
      assert ParseShape(AnyObject, m[key].fields, path, 0) == Success(map[]);
    }
  }

  lemma PositionAccepts(v: Value, path: seq<string>)
    ensures ParseValue(Position, v, path).Success? <==> IsPosition(v)
  {
    if v.Obj? {
      var m := v.fields;
      assert ParseValue(Position, v, path).Success? <==> ParseShape(Position, m, path, 0).Success?;
      ParseShapeAccepts(Position, m, path, 0);
      assert SlotAt(Position, m, path, 0).Success? <==> "x" in m && m["x"].Num?;
      assert SlotAt(Position, m, path, 1).Success? <==> "y" in m && m["y"].Num?;
    }
  }

  lemma OptionalPositionSlot(m: map<string, Value>, key: string, path: seq<string>)
    ensures ParseSlot(Optional(Position), Lookup(m, key), path).Success? <==> AbsentOrPosition(m, key)
  {
    OptionalSlot(Position, Lookup(m, key), path);
    if key in m {
      PositionAccepts(m[key], path);
    }
  }

  lemma NodeDataAccepts(v: Value, path: seq<string>)
    ensures ParseValue(NodeData, v, path).Success? <==> IsNodeData(v)
  {
    var s := NodeData;
    if v.Obj? {
      var m := v.fields;
      assert ParseValue(s, v, path).Success? <==> ParseShape(s, m, path, 0).Success?;
      ParseShapeAccepts(s, m, path, 0);
      assert SlotAt(s, m, path, 0).Success? <==> PresentText(m, "type") by {
        PlainTextSlot(m, "type", path + ["type"]);
      }
      assert SlotAt(s, m, path, 1).Success? <==> PresentText(m, "label") by {
        PlainTextSlot(m, "label", path + ["label"]);
      }
      assert SlotAt(s, m, path, 2).Success? <==> "position" in m && IsPosition(m["position"]) by {
        if "position" in m {
          PositionAccepts(m["position"], path + ["position"]);
        }
      }
      assert SlotAt(s, m, path, 3).Success? <==> AbsentOrObject(m, "style") by {
        OptionalObjectSlot(m, "style", path + ["style"]);
      }
      assert SlotAt(s, m, path, 4).Success? <==> AbsentOrObject(m, "data") by {
        OptionalObjectSlot(m, "data", path + ["data"]);
      }
    }
  }

  lemma NodeUpdatesAccepts(v: Value, path: seq<string>)
    ensures ParseValue(NodeUpdates, v, path).Success? <==> IsNodeUpdates(v)
  {
    var s := NodeUpdates;
    if v.Obj? {
      var m := v.fields;
      assert ParseValue(s, v, path).Success? <==> ParseShape(s, m, path, 0).Success?;
      ParseShapeAccepts(s, m, path, 0);
      assert SlotAt(s, m, path, 0).Success? <==> AbsentOrText(m, "label") by {
        OptionalTextSlot(m, "label", path + ["label"]);
      }
      assert SlotAt(s, m, path, 1).Success? <==> AbsentOrPosition(m, "position") by {
        OptionalPositionSlot(m, "position", path + ["position"]);
      }
      assert SlotAt(s, m, path, 2).Success? <==> AbsentOrObject(m, "style") by {
        OptionalObjectSlot(m, "style", path + ["style"]);
      }
      assert SlotAt(s, m, path, 3).Success? <==> AbsentOrObject(m, "data") by {
        OptionalObjectSlot(m, "data", path + ["data"]);
      }
    }
  }

  lemma EdgeDataAccepts(v: Value, path: seq<string>)
    ensures ParseValue(EdgeData, v, path).Success? <==> IsEdgeData(v)
  {
    var s := EdgeData;
    if v.Obj? {
      var m := v.fields;
      assert ParseValue(s, v, path).Success? <==> ParseShape(s, m, path, 0).Success?;
      ParseShapeAccepts(s, m, path, 0);
      assert SlotAt(s, m, path, 0).Success? <==> PresentText(m, "source") by {
        PlainTextSlot(m, "source", path + ["source"]);
      }
      assert SlotAt(s, m, path, 1).Success? <==> PresentText(m, "target") by {
        PlainTextSlot(m, "target", path + ["target"]);
      }
      assert SlotAt(s, m, path, 2).Success? <==> AbsentOrText(m, "label") by {
        OptionalTextSlot(m, "label", path + ["label"]);
      }
      assert SlotAt(s, m, path, 3).Success? <==> AbsentOrText(m, "type") by {
        OptionalTextSlot(m, "type", path + ["type"]);
      }
      assert SlotAt(s, m, path, 4).Success? <==> AbsentOrObject(m, "style") by {
        OptionalObjectSlot(m, "style", path + ["style"]);
      }
    }
  }

  /** `add_node` accepts exactly an object with a UUID `diagram_uuid` and a well-formed
      `node_data`. */
  lemma AddNodeAccepts(args: Value)
    ensures Parse(AddNodeSchema, args).Success? <==>
      && args.Obj? && PresentUuid(args.fields, "diagram_uuid")
      && "node_data" in args.fields && IsNodeData(args.fields["node_data"])
  {
    var s := AddNodeSchema;
    if args.Obj? {
      var m := args.fields;
      assert Parse(s, args).Success? <==> ParseShape(s, m, [], 0).Success?;
      ParseShapeAccepts(s, m, [], 0);
      assert SlotAt(s, m, [], 0).Success? <==> PresentUuid(m, "diagram_uuid") by {
        UuidSlot(Lookup(m, "diagram_uuid"), [] + ["diagram_uuid"]);
      }
      assert SlotAt(s, m, [], 1).Success? <==> "node_data" in m && IsNodeData(m["node_data"]) by {
        if "node_data" in m {
          NodeDataAccepts(m["node_data"], [] + ["node_data"]);
        }
      }
    }
  }

  /** `update_node` accepts exactly an object with a UUID `diagram_uuid`, a string
      `node_id` and well-formed `updates`. */
  lemma UpdateNodeAccepts(args: Value)
    ensures Parse(UpdateNodeSchema, args).Success? <==>
      && args.Obj? && PresentUuid(args.fields, "diagram_uuid") && PresentText(args.fields, "node_id")
      && "updates" in args.fields && IsNodeUpdates(args.fields["updates"])
  {
    var s := UpdateNodeSchema;
    if args.Obj? {
      var m := args.fields;
      assert Parse(s, args).Success? <==> ParseShape(s, m, [], 0).Success?;
      ParseShapeAccepts(s, m, [], 0);
      assert SlotAt(s, m, [], 0).Success? <==> PresentUuid(m, "diagram_uuid") by {
        UuidSlot(Lookup(m, "diagram_uuid"), [] + ["diagram_uuid"]);
      }
      assert SlotAt(s, m, [], 1).Success? <==> PresentText(m, "node_id") by {
        PlainTextSlot(m, "node_id", [] + ["node_id"]);
      }
      assert SlotAt(s, m, [], 2).Success? <==> "updates" in m && IsNodeUpdates(m["updates"]) by {
        if "updates" in m {
          NodeUpdatesAccepts(m["updates"], [] + ["updates"]);
        }
      }
    }
  }

  /** `delete_node` accepts exactly an object with a UUID `diagram_uuid` and a string
      `node_id`. */
  lemma DeleteNodeAccepts(args: Value)
    ensures Parse(DeleteNodeSchema, args).Success? <==>
      args.Obj? && PresentUuid(args.fields, "diagram_uuid") && PresentText(args.fields, "node_id")
  {
    var s := DeleteNodeSchema;
    if args.Obj? {
      var m := args.fields;
      assert Parse(s, args).Success? <==> ParseShape(s, m, [], 0).Success?;
      ParseShapeAccepts(s, m, [], 0);
      assert SlotAt(s, m, [], 0).Success? <==> PresentUuid(m, "diagram_uuid") by {
        UuidSlot(Lookup(m, "diagram_uuid"), [] + ["diagram_uuid"]);
      }
      assert SlotAt(s, m, [], 1).Success? <==> PresentText(m, "node_id") by {
        PlainTextSlot(m, "node_id", [] + ["node_id"]);
      }
    }
  }

  /** `add_edge` accepts exactly an object with a UUID `diagram_uuid` and a well-formed
      `edge_data`. */
  lemma AddEdgeAccepts(args: Value)
    ensures Parse(AddEdgeSchema, args).Success? <==>
      && args.Obj? && PresentUuid(args.fields, "diagram_uuid")
      && "edge_data" in args.fields && IsEdgeData(args.fields["edge_data"])
  {
    var s := AddEdgeSchema;
    if args.Obj? {
      var m := args.fields;
      assert Parse(s, args).Success? <==> ParseShape(s, m, [], 0).Success?;
      ParseShapeAccepts(s, m, [], 0);
      assert SlotAt(s, m, [], 0).Success? <==> PresentUuid(m, "diagram_uuid") by {
        UuidSlot(Lookup(m, "diagram_uuid"), [] + ["diagram_uuid"]);
      }
      assert SlotAt(s, m, [], 1).Success? <==> "edge_data" in m && IsEdgeData(m["edge_data"]) by {
        if "edge_data" in m {
          EdgeDataAccepts(m["edge_data"], [] + ["edge_data"]);
        }
      }
    }
  }

  /** `delete_edge` accepts exactly an object with a UUID `diagram_uuid` and a string
      `edge_id`. */
  lemma DeleteEdgeAccepts(args: Value)
    ensures Parse(DeleteEdgeSchema, args).Success? <==>
      args.Obj? && PresentUuid(args.fields, "diagram_uuid") && PresentText(args.fields, "edge_id")
  {
    var s := DeleteEdgeSchema;
    if args.Obj? {
      var m := args.fields;
      assert Parse(s, args).Success? <==> ParseShape(s, m, [], 0).Success?;
      ParseShapeAccepts(s, m, [], 0);
      assert SlotAt(s, m, [], 0).Success? <==> PresentUuid(m, "diagram_uuid") by {
        UuidSlot(Lookup(m, "diagram_uuid"), [] + ["diagram_uuid"]);
      }
      assert SlotAt(s, m, [], 1).Success? <==> PresentText(m, "edge_id") by {
        PlainTextSlot(m, "edge_id", [] + ["edge_id"]);
      }
    }
  }

  /** A field that must be present: no `.optional()`, no `.default(..)`, not `any`. */
  predicate Mandatory(s: Schema) {
    !(s.Optional? || s.WithDefault? || s.AnyValue?)
  }

  /** Once an object schema accepted the arguments, each mandatory field was present in
      them and is present in the result; a plain string field comes through unchanged,
      and a UUID field is a well-formed UUID string. */
  lemma MandatoryFieldParsed(shape: seq<Field>, j: nat, args: Value)
    requires j < |shape| && DistinctKeys(shape) && Mandatory(shape[j].schema)
    requires Parse(ObjectOf(shape), args).Success?
    ensures args.Obj? && shape[j].key in args.fields
    ensures Parse(ObjectOf(shape), args).value.Obj?
    ensures shape[j].key in Parse(ObjectOf(shape), args).value.fields
    ensures shape[j].schema.Text? ==>
      && args.fields[shape[j].key].Str?
      && Parse(ObjectOf(shape), args).value.fields[shape[j].key] == args.fields[shape[j].key]
      && (shape[j].schema.uuid ==> IsUuid(args.fields[shape[j].key].s))
    ensures shape[j].schema.ObjectOf? ==> Parse(ObjectOf(shape), args).value.fields[shape[j].key].Obj?
  {
    var s := ObjectOf(shape);
    var m := args.fields;
    ParseShapeOutput(s, m, [], 0);
    var slot := SlotAt(s, m, [], j);
    assert slot.Success?;
    assert Lookup(m, shape[j].key).Some?;
    var v := m[shape[j].key];
    var p := ParseValue(shape[j].schema, v, [] + [shape[j].key]);
    assert slot == Success(Some(p.value));
    if shape[j].schema.ObjectOf? {
      assert p.value.Obj?;
    }
  }
}
