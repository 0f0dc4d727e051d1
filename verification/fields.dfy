/** The configuration-field builders: each checks its default against its own
    constraint and returns a field descriptor, and the custom fields decide
    which values they deserialise and which JSON schema describes them. */
module SchemaFields {
  import opened PyValues
  import opened JsonSchema

  // ---------------------------------------------------------------------------
  // Descriptors

  /** The bounds of a `validate.Range(min=..., max=..., min_inclusive=..., max_inclusive=...)`. */
  datatype RangeSpec = RangeSpec(min: Option<real>, max: Option<real>, minInclusive: bool, maxInclusive: bool)

  /** `validate.Range(min=m)`. */
  function AtLeast(m: real): RangeSpec {
    RangeSpec(Some(m), None, true, true)
  }

  /** `x` passes the range validator. */
  predicate InRange(rg: RangeSpec, x: real) {
    && (rg.min.None? || (if rg.minInclusive then rg.min.value <= x else rg.min.value < x))
    && (rg.max.None? || (if rg.maxInclusive then x <= rg.max.value else x < rg.max.value))
  }

  /** A field descriptor: the constraint a configuration attribute carries, with its default. */
  datatype FieldDescriptor =
    | StringField(options: seq<Value>, allowNone: bool, default: Value)
    | IntegerField(range: RangeSpec, allowNone: bool, default: Value)
    | FloatField(range: RangeSpec, allowNone: bool, default: Value)
    | DictField(default: Value)
    | DictListField(default: Value)
    | InitializerOrDictField(initializers: seq<Value>, default: Value)
    | FloatTupleField(n: int, min: real, max: real, default: Value)

  /** The value satisfies the constraint the descriptor records. */
  predicate Admits(d: FieldDescriptor, v: Value) {
    match d
    case StringField(options, allowNone, _) => if v == PyNone then allowNone else v.PyStr? && v in options
    case IntegerField(rg, allowNone, _) => if v == PyNone then allowNone else IsInt(v) && InRange(rg, NumOf(v))
    case FloatField(rg, allowNone, _) => if v == PyNone then allowNone else IsNumber(v) && InRange(rg, NumOf(v))
    case DictField(_) => v == PyNone || IsStrKeyedDict(v)
    case DictListField(_) => v == PyNone || (v.PyList? && forall k :: 0 <= k < |v.items| ==> IsStrKeyedDict(v.items[k]))
    case InitializerOrDictField(initializers, _) => v.PyStr? && v in initializers
    case FloatTupleField(n, min, max, _) =>
      v.PyTuple? && |v.elems| == n
      && forall k :: 0 <= k < |v.elems| ==> IsNumber(v.elems[k]) && min <= NumOf(v.elems[k]) <= max
  }

  // ---------------------------------------------------------------------------
  // StringOptions

  /** What `StringOptions(options, default, nullable)` returns, paired with the
      caller's list as the call leaves it (the source appends None to it in place). */
  function StringOptionsSpec(options: seq<Value>, default: Value, nullable: bool): (r: (Result<FieldDescriptor>, seq<Value>))
    ensures r.0.Err? <==> |options| == 0 || !(default == PyNone || default.PyStr?) || default !in r.1
    ensures r.1 == options || r.1 == options + [PyNone]
    ensures r.1 != options <==> |options| > 0 && (default == PyNone || default.PyStr?) && nullable && PyNone !in options
    ensures r.0.Ok? ==>
      (r.0.value.StringField? && r.0.value.options == r.1
       && r.0.value.default == default && r.0.value.allowNone == nullable)
    ensures r.0.Ok? ==> default in r.0.value.options
    ensures r.0.Ok? && default != PyNone ==> Admits(r.0.value, default)
    ensures r.0.Ok? && nullable ==>
      Count(r.1, PyNone) == (if PyNone in options then Count(options, PyNone) else 1)
  {
    if |options| <= 0 then (Err(ValidationError), options)
    else if default != PyNone && !default.PyStr? then (Err(ValidationError), options)
    else
      var final := if nullable && PyNone !in options then options + [PyNone] else options;
      if default !in final then (Err(ValidationError), final)
      else (Ok(StringField(final, nullable, default)), final)
  }

  /** `StringOptions`: validates the default and, for a nullable field, appends
      None to the caller's list of options when it is missing. */
  method StringOptions(options: ListObject, default: Value, nullable: bool) returns (r: Result<FieldDescriptor>)
    modifies options
    ensures (r, options.items) == StringOptionsSpec(old(options.items), default, nullable)
  {
    if |options.items| <= 0 {
      return Err(ValidationError);
    }
    if default != PyNone && !default.PyStr? {
      return Err(ValidationError);
    }
    if nullable && PyNone !in options.items {
      options.Append(PyNone);
    }
    if default !in options.items {
      return Err(ValidationError);
    }
    return Ok(StringField(options.items, nullable, default));
  }

  /** `InitializerOptions` and `ReductionOptions`: a nullable string field over a
      registry's keys, which are copied into a fresh list. The keys are values:
      the initializer registry holds None among its names. */
  function RegistryOptions(registry: seq<Value>, default: Value): (r: Result<FieldDescriptor>)
    ensures r.Ok? <==> |registry| > 0 && (default == PyNone || (default.PyStr? && default in registry))
    ensures r.Ok? ==> r.value.StringField? && r.value.allowNone && PyNone in r.value.options
    ensures r.Ok? ==> forall k :: k in registry ==> k in r.value.options
  {
    StringOptionsSpec(registry, default, true).0
  }

  /** `RegularizerOptions`: a string field over "l1", "l2" and "l1_l2". */
  function RegularizerOptions(default: Value, nullable: bool): (r: Result<FieldDescriptor>)
    ensures r.Ok? <==> (default == PyNone && nullable) || default in [PyStr("l1"), PyStr("l2"), PyStr("l1_l2")]
  {
    StringOptionsSpec([PyStr("l1"), PyStr("l2"), PyStr("l1_l2")], default, nullable).0
  }

  // ---------------------------------------------------------------------------
  // Numeric builders

  /** `IntegerRange(default, **kwargs)`: a non-None default must be an int that
      passes the range; the field allows None exactly when the default is None. */
  function IntegerRange(default: Value, rg: RangeSpec): (r: Result<FieldDescriptor>)
    ensures r.Ok? <==> default == PyNone || Admits(IntegerField(rg, false, default), default)
    ensures r.Ok? ==>
      (r.value.IntegerField? && r.value.range == rg && r.value.default == default
       && (r.value.allowNone <==> default == PyNone) && Admits(r.value, default))
    ensures r.Err? ==> r.error == ValidationError
  {
    if default != PyNone && !(IsInt(default) && InRange(rg, NumOf(default))) then Err(ValidationError)
    else Ok(IntegerField(rg, default == PyNone, default))
  }

  /** `PositiveInteger(default)`. */
  function PositiveInteger(default: Value): (r: Result<FieldDescriptor>)
    ensures r.Ok? <==> default == PyNone || (IsInt(default) && IntOf(default) >= 1)
    ensures r.Ok? ==> r.value.IntegerField? && r.value.default == default && (r.value.allowNone <==> default == PyNone)
  {
    IntegerRange(default, AtLeast(1.0))
  }

  /** `NonNegativeInteger(default)`. */
  function NonNegativeInteger(default: Value): (r: Result<FieldDescriptor>)
    ensures r.Ok? <==> default == PyNone || (IsInt(default) && IntOf(default) >= 0)
    ensures r.Ok? ==> r.value.IntegerField? && r.value.default == default && (r.value.allowNone <==> default == PyNone)
  {
    IntegerRange(default, AtLeast(0.0))
  }

  /** `FloatRange(default, **kwargs)`: a non-None default must be a float or an
      int that passes the range. */
  function FloatRange(default: Value, rg: RangeSpec): (r: Result<FieldDescriptor>)
    ensures r.Ok? <==> default == PyNone || Admits(FloatField(rg, false, default), default)
    ensures r.Ok? ==>
      (r.value.FloatField? && r.value.range == rg && r.value.default == default
       && (r.value.allowNone <==> default == PyNone) && Admits(r.value, default))
  {
    if default != PyNone && !(IsNumber(default) && InRange(rg, NumOf(default))) then Err(ValidationError)
    else Ok(FloatField(rg, default == PyNone, default))
  }

  /** `NonNegativeFloat(default)`. */
  function NonNegativeFloat(default: Value): (r: Result<FieldDescriptor>)
    ensures r.Ok? <==> default == PyNone || (IsNumber(default) && NumOf(default) >= 0.0)
    ensures r.Ok? ==> r.value.default == default
  {
    FloatRange(default, AtLeast(0.0))
  }

  // ---------------------------------------------------------------------------
  // Dict builders

  /** `Dict(default)`: a non-None default must be a dict whose keys are all strings. */
  function Dict(default: Value): (r: Result<FieldDescriptor>)
    ensures r.Ok? <==> default == PyNone || (default.PyDict? && forall k :: 0 <= k < |default.entries| ==> default.entries[k].0.PyStr?)
    ensures r.Ok? ==> r == Ok(DictField(default)) && Admits(r.value, default)
  {
    if default == PyNone || IsStrKeyedDict(default) then Ok(DictField(default)) else Err(ValidationError)
  }

  /** `DictList(default)`: a non-None default must be a list of such dicts. */
  function DictList(default: Value): (r: Result<FieldDescriptor>)
    ensures r.Ok? <==>
      (default == PyNone
       || (default.PyList? && forall k :: 0 <= k < |default.items| ==> Dict(default.items[k]).Ok? && default.items[k] != PyNone))
    ensures r.Ok? ==> r == Ok(DictListField(default)) && Admits(r.value, default)
  {
    if default == PyNone then Ok(DictListField(default))
    else if !default.PyList? then Err(ValidationError)
    else if forall k :: 0 <= k < |default.items| ==> IsStrKeyedDict(default.items[k]) then Ok(DictListField(default))
    else Err(ValidationError)
  }

  // ---------------------------------------------------------------------------
  // Embed

  /** `_deserialize` of the field `Embed()` returns: None, the option "add", or any int. */
  function EmbedDeserialize(value: Value): (r: Result<Value>)
    ensures r.Ok? ==> r.value == value
    ensures r.Ok? <==> value == PyNone || value == PyStr("add") || IsInt(value)
  {
    if value == PyNone then Ok(value)
    else if value.PyStr? then (if value.s != "add" then Err(ValidationError) else Ok(value))
    else if IsInt(value) then Ok(value)
    else Err(ValidationError)
  }

  /** `_jsonschema_type_mapping` of that field. */
  function EmbedSchema(): Value {
    StrDict([("oneOf", PyList(EmbedAlternatives()))])
  }

  function EmbedAlternatives(): seq<Value> {
    [StrDict([("type", PyStr("string")), ("enum", PyList([PyStr("add")]))]),
     StrDict([("type", PyStr("integer"))]),
     StrDict([("type", PyStr("null"))])]
  }

  /** Away from bools and integral floats, the Embed field's `_deserialize` accepts
      exactly the values its JSON schema admits. */
  lemma {:induction false} EmbedDeserializeAgreesWithSchema(v: Value)
    requires !v.PyBool? && !(v.PyFloat? && v.f.Floor as real == v.f)
    ensures EmbedDeserialize(v).Ok? <==> Valid(EmbedSchema(), v)
  {
    EmbedSchemaValid(v);
  }

  /** A bool passes the Embed field's `_deserialize` (it is an int to Python) but
      not its schema (it is a boolean to JSON). */
  lemma {:induction false} EmbedAcceptsBoolSchemaDoesNot(b: bool)
    ensures EmbedDeserialize(PyBool(b)).Ok? && !Valid(EmbedSchema(), PyBool(b))
  {
    EmbedSchemaValid(PyBool(b));
  }

  /** What the Embed field's schema admits. */
  lemma {:induction false} EmbedSchemaValid(v: Value)
    ensures Valid(EmbedSchema(), v) <==> v == PyStr("add") || v == PyNone || v.PyInt? || (v.PyFloat? && v.f.Floor as real == v.f)
  {
    var alts := EmbedAlternatives();
    ValidOfOneOf(alts, v);
    ValiditiesOfThree(alts, v);
    EmbedAlternativesValid(v);
    ExactlyOneOfThree(Valid(alts[0], v), Valid(alts[1], v), Valid(alts[2], v));
  }

  lemma {:induction false} EmbedAlternativesValid(v: Value)
    ensures var alts := EmbedAlternatives();
      && (Valid(alts[0], v) <==> v == PyStr("add"))
      && (Valid(alts[1], v) <==> v.PyInt? || (v.PyFloat? && v.f.Floor as real == v.f))
      && (Valid(alts[2], v) <==> v == PyNone)
  {
    EmbedStringValid(v);
    EmbedIntegerValid(v);
    EmbedNullValid(v);
  }

  lemma {:induction false} EmbedStringValid(v: Value)
    ensures Valid(EmbedAlternatives()[0], v) <==> v == PyStr("add")
  {
    EmbedStringTyped(v);
    StringType(v);
  }

  lemma {:induction false} EmbedStringTyped(v: Value)
    ensures Valid(EmbedAlternatives()[0], v) <==> TypeOk(Some(PyStr("string")), v) && v in [PyStr("add")]
  {
    EnumAltValid(EmbedAlternatives()[0], PyStr("string"), [PyStr("add")], v);
  }

  lemma {:induction false} EmbedIntegerValid(v: Value)
    ensures Valid(EmbedAlternatives()[1], v) <==> v.PyInt? || (v.PyFloat? && v.f.Floor as real == v.f)
  {
    TypeAltValid(EmbedAlternatives()[1], "integer", v);
    IntegerType(v);
  }

  lemma {:induction false} EmbedNullValid(v: Value)
    ensures Valid(EmbedAlternatives()[2], v) <==> v == PyNone
  {
    TypeAltValid(EmbedAlternatives()[2], "null", v);
    NullType(v);
  }

  // ---------------------------------------------------------------------------
  // InitializerOrDict

  /** `InitializerOrDict(default)`: the default must be a string naming an initializer. */
  function InitializerOrDict(default: Value, initializers: seq<Value>): (r: Result<FieldDescriptor>)
    ensures r.Ok? <==> default.PyStr? && default in initializers
    ensures r.Ok? ==> r.value == InitializerOrDictField(initializers, default) && Admits(r.value, default)
  {
    if !default.PyStr? || default !in initializers then Err(ValidationError)
    else Ok(InitializerOrDictField(initializers, default))
  }

  /** `_deserialize` of that field: a string naming an initializer, or a dict whose
      "type" is one of the registry's keys (None included, when it is one). */
  function InitializerOrDictDeserialize(initializers: seq<Value>, value: Value): (r: Result<Value>)
    ensures r.Ok? ==> r.value == value
    ensures r.Ok? <==>
      (value.PyStr? && value in initializers)
      || (value.PyDict? && Lookup(value.entries, PyStr("type")).Some?
          && Lookup(value.entries, PyStr("type")).value in initializers)
  {
    if value.PyStr? then
      if value !in initializers then Err(ValidationError) else Ok(value)
    else if value.PyDict? then
      match Lookup(value.entries, PyStr("type"))
      case None => Err(ValidationError)
      case Some(t) => if t !in initializers then Err(ValidationError) else Ok(value)
    else Err(ValidationError)
  }

  /** `_jsonschema_type_mapping` of that field. */
  function InitializerOrDictSchema(initializers: seq<Value>, default: Value): Value {
    StrDict([("oneOf", PyList([InitializerStringOption(initializers, default), InitializerDictOption(initializers)]))])
  }

  /** The alternative for an initializer's name. */
  function InitializerStringOption(initializers: seq<Value>, default: Value): Value {
    StrDict([("type", PyList([PyStr("string"), PyStr("null")])), ("enum", PyList(initializers)), ("default", default)])
  }

  /** The alternative for a custom dict; its "type" must name an initializer. */
  function InitializerDictOption(initializers: seq<Value>): Value {
    StrDict([
      ("type", PyStr("object")),
      ("properties", StrDict([("type", InitializerTypeProperty(initializers))])),
      ("required", PyList([PyStr("type")])),
      ("additionalProperties", PyBool(true))])
  }

  function InitializerTypeProperty(initializers: seq<Value>): Value {
    StrDict([("type", PyStr("string")), ("enum", PyList(initializers))])
  }

  /** The registry's keys are initializer names, and possibly None. */
  predicate NamesOrNone(keys: seq<Value>) {
    forall k :: k in keys ==> k.PyStr? || k == PyNone
  }

  /** Over a registry of names and None, `_deserialize` accepts exactly the values
      the field's JSON schema admits, except None and a dict whose "type" is None. */
  lemma {:induction false} InitializerOrDictDeserializeAgreesWithSchema(initializers: seq<Value>, default: Value, v: Value)
    requires NamesOrNone(initializers)
    ensures v != PyNone && !(v.PyDict? && Lookup(v.entries, PyStr("type")) == Some(PyNone)) ==>
      (InitializerOrDictDeserialize(initializers, v).Ok? <==> Valid(InitializerOrDictSchema(initializers, default), v))
  {
    if v != PyNone && !(v.PyDict? && Lookup(v.entries, PyStr("type")) == Some(PyNone)) {
      var alts := [InitializerStringOption(initializers, default), InitializerDictOption(initializers)];
      ValidOfOneOf(alts, v);
      ValiditiesOfTwo(alts, v);
      ExactlyOneOfTwo(Valid(alts[0], v), Valid(alts[1], v));
      InitializerStringOptionValid(initializers, default, v);
      InitializerDictOptionValid(initializers, v);
    }
  }

  /** With None among the registry's keys, `_deserialize` accepts a dict whose
      "type" is None, which the schema's string-typed "type" property rejects. */
  lemma {:induction false} InitializerNoneTypeDisagrees(initializers: seq<Value>, default: Value)
    requires PyNone in initializers
    ensures var v := PyDict([(PyStr("type"), PyNone)]);
      InitializerOrDictDeserialize(initializers, v).Ok? && !Valid(InitializerOrDictSchema(initializers, default), v)
  {
    var v := PyDict([(PyStr("type"), PyNone)]);
    var alts := [InitializerStringOption(initializers, default), InitializerDictOption(initializers)];
    ValidOfOneOf(alts, v);
    ValiditiesOfTwo(alts, v);
    InitializerStringOptionValid(initializers, default, v);
    InitializerDictOptionValid(initializers, v);
  }

  /** The schema admits None exactly when None is one of the registry's keys. */
  lemma {:induction false} InitializerSchemaAdmitsNone(initializers: seq<Value>, default: Value)
    ensures Valid(InitializerOrDictSchema(initializers, default), PyNone) <==> PyNone in initializers
  {
    var alts := [InitializerStringOption(initializers, default), InitializerDictOption(initializers)];
    ValidOfOneOf(alts, PyNone);
    ValiditiesOfTwo(alts, PyNone);
    ExactlyOneOfTwo(Valid(alts[0], PyNone), Valid(alts[1], PyNone));
    InitializerStringOptionValid(initializers, default, PyNone);
    InitializerDictOptionValid(initializers, PyNone);
  }

  lemma {:induction false} InitializerStringOptionValid(initializers: seq<Value>, default: Value, v: Value)
    ensures Valid(InitializerStringOption(initializers, default), v) <==> (v.PyStr? || v == PyNone) && v in initializers
  {
    InitializerStringOptionTyped(initializers, default, v);
    StringOrNullType(v);
  }

  lemma {:induction false} InitializerStringOptionTyped(initializers: seq<Value>, default: Value, v: Value)
    ensures Valid(InitializerStringOption(initializers, default), v) <==>
      TypeOk(Some(PyList([PyStr("string"), PyStr("null")])), v) && v in initializers
  {
    var types := PyList([PyStr("string"), PyStr("null")]);
    var enum := PyList(initializers);
    var e := [("type", types), ("enum", enum), ("default", default)];
    ValidOfFlat(e, v);
    InitializerStringOptionKeys(initializers, default);
    KeywordsOfTypeEnum(types, initializers, v);
  }

  lemma {:induction false} StringOrNullType(v: Value)
    ensures TypeOk(Some(PyList([PyStr("string"), PyStr("null")])), v) <==> v.PyStr? || v == PyNone
  {
    var names := [PyStr("string"), PyStr("null")];
    if v.PyStr? {
      assert HasType(names[0], v);
    }
    if v == PyNone {
      assert HasType(names[1], v);
    }
  }

  lemma {:induction false} InitializerStringOptionKeys(initializers: seq<Value>, default: Value)
    ensures var types := PyList([PyStr("string"), PyStr("null")]);
      var enum := PyList(initializers);
      var e := [("type", types), ("enum", enum), ("default", default)];
      && NoApplicators(e)
      && Get(e, "type") == Some(types) && Get(e, "enum") == Some(enum) && Get(e, "const") == None
      && Get(e, "minimum") == None && Get(e, "exclusiveMinimum") == None && Get(e, "maximum") == None
      && Get(e, "exclusiveMaximum") == None && Get(e, "required") == None
  {
    var types := PyList([PyStr("string"), PyStr("null")]);
    var enum := PyList(initializers);
    GetThree("type", types, "enum", enum, "default", default, "type");
    GetThree("type", types, "enum", enum, "default", default, "enum");
    GetThree("type", types, "enum", enum, "default", default, "const");
    GetThree("type", types, "enum", enum, "default", default, "minimum");
    GetThree("type", types, "enum", enum, "default", default, "exclusiveMinimum");
    GetThree("type", types, "enum", enum, "default", default, "maximum");
    GetThree("type", types, "enum", enum, "default", default, "exclusiveMaximum");
    GetThree("type", types, "enum", enum, "default", default, "required");
  }

  lemma {:induction false} InitializerDictOptionValid(initializers: seq<Value>, v: Value)
    ensures Valid(InitializerDictOption(initializers), v) <==>
      v.PyDict? && Lookup(v.entries, PyStr("type")).Some?
      && Lookup(v.entries, PyStr("type")).value.PyStr? && Lookup(v.entries, PyStr("type")).value in initializers
  {
    ObjectValid(InitializerDictOption(initializers), InitializerTypeProperty(initializers), v);
    if v.PyDict? && Lookup(v.entries, PyStr("type")).Some? {
      InitializerTypePropertyValid(initializers, Lookup(v.entries, PyStr("type")).value);
    }
  }

  /** An object schema with one required property, "type", valid against `sub`. */
  lemma {:induction false} ObjectValid(d: Value, sub: Value, v: Value)
    requires d == StrDict([
      ("type", PyStr("object")),
      ("properties", StrDict([("type", sub)])),
      ("required", PyList([PyStr("type")])),
      ("additionalProperties", PyBool(true))])
    ensures Valid(d, v) <==>
      v.PyDict? && Lookup(v.entries, PyStr("type")).Some? && Valid(sub, Lookup(v.entries, PyStr("type")).value)
  {
    ObjectLocal(sub, v);
    ObjectApplicators(d, sub, v);
  }

  lemma {:induction false} InitializerTypePropertyValid(initializers: seq<Value>, t: Value)
    ensures Valid(InitializerTypeProperty(initializers), t) <==> t.PyStr? && t in initializers
  {
    InitializerTypePropertyTyped(initializers, t);
    StringType(t);
  }

  lemma {:induction false} InitializerTypePropertyTyped(initializers: seq<Value>, t: Value)
    ensures Valid(InitializerTypeProperty(initializers), t) <==>
      TypeOk(Some(PyStr("string")), t) && t in initializers
  {
    EnumAltValid(InitializerTypeProperty(initializers), PyStr("string"), initializers, t);
  }

  lemma {:induction false} ObjectLocal(sub: Value, v: Value)
    ensures var d := StrDict([
        ("type", PyStr("object")),
        ("properties", StrDict([("type", sub)])),
        ("required", PyList([PyStr("type")])),
        ("additionalProperties", PyBool(true))]);
      LocalOk(d.entries, v) <==> v.PyDict? && PyStr("type") in Keys(v.entries)
  {
    var props := StrDict([("type", sub)]);
    var req := PyList([PyStr("type")]);
    var e := [("type", PyStr("object")), ("properties", props), ("required", req), ("additionalProperties", PyBool(true))];
    LocalOfStrDict(e, v);
    InitializerDictOptionKeys(props);
    KeywordsOfObjectRequired(v);
  }

  lemma {:induction false} InitializerDictOptionKeys(props: Value)
    ensures var req := PyList([PyStr("type")]);
      var e := [("type", PyStr("object")), ("properties", props), ("required", req), ("additionalProperties", PyBool(true))];
      && Get(e, "type") == Some(PyStr("object")) && Get(e, "enum") == None && Get(e, "const") == None
      && Get(e, "minimum") == None && Get(e, "exclusiveMinimum") == None && Get(e, "maximum") == None
      && Get(e, "exclusiveMaximum") == None && Get(e, "required") == Some(req)
  {
    var req := PyList([PyStr("type")]);
    GetFour("type", PyStr("object"), "properties", props, "required", req, "additionalProperties", PyBool(true), "type");
    GetFour("type", PyStr("object"), "properties", props, "required", req, "additionalProperties", PyBool(true), "enum");
    GetFour("type", PyStr("object"), "properties", props, "required", req, "additionalProperties", PyBool(true), "const");
    GetFour("type", PyStr("object"), "properties", props, "required", req, "additionalProperties", PyBool(true), "minimum");
    GetFour("type", PyStr("object"), "properties", props, "required", req, "additionalProperties", PyBool(true), "exclusiveMinimum");
    GetFour("type", PyStr("object"), "properties", props, "required", req, "additionalProperties", PyBool(true), "maximum");
    GetFour("type", PyStr("object"), "properties", props, "required", req, "additionalProperties", PyBool(true), "exclusiveMaximum");
    GetFour("type", PyStr("object"), "properties", props, "required", req, "additionalProperties", PyBool(true), "required");
  }

  lemma {:induction false} KeywordsOfObjectRequired(v: Value)
    ensures KeywordsOk(Some(PyStr("object")), None, None, None, None, None, None, Some(PyList([PyStr("type")])), v)
      <==> v.PyDict? && PyStr("type") in Keys(v.entries)
  {
    ObjectType(v);
    RequiredOne(PyStr("type"), v);
  }

  /** The applicators of an object schema with one property, "type". */
  lemma {:induction false} ObjectApplicators(d: Value, sub: Value, v: Value)
    requires d == StrDict([
      ("type", PyStr("object")),
      ("properties", StrDict([("type", sub)])),
      ("required", PyList([PyStr("type")])),
      ("additionalProperties", PyBool(true))])
    ensures PrefixItemsOk(d, v) && OneOfOk(d, v)
    ensures PropertiesOk(d, v) <==>
      (v.PyDict? && Lookup(v.entries, PyStr("type")).Some? ==> Valid(sub, Lookup(v.entries, PyStr("type")).value))
  {
    assert d.entries[0].0 == PyStr("type");
    assert d.entries[1] == (PyStr("properties"), StrDict([("type", sub)]));
    assert d.entries[2].0 == PyStr("required");
    assert d.entries[3].0 == PyStr("additionalProperties");
    PrefixItemsVacuous(d, v);
    OneOfVacuous(d, v);
    PropertiesOfOne(d, 1, "type", sub, v);
  }

  // ---------------------------------------------------------------------------
  // FloatRangeTupleDataclassField

  /** `len(v)`; None is the TypeError of a value without a length. */
  function PyLen(v: Value): Option<nat> {
    match v
    case PyStr(s) => Some(|s|)
    case PyList(items) => Some(|items|)
    case PyTuple(elems) => Some(|elems|)
    case PyDict(entries) => Some(|entries|)
    case _ => None
  }

  /** Every item is a number to Python (bools included). */
  predicate AllNumbers(xs: seq<Value>) {
    forall k :: 0 <= k < |xs| ==> IsNumber(xs[k])
  }

  /** Every item lies in `[min, max]`. */
  predicate AllInRange(xs: seq<Value>, min: real, max: real)
    requires AllNumbers(xs)
  {
    forall k :: 0 <= k < |xs| ==> min <= NumOf(xs[k]) <= max
  }

  /** `validate_range(data)`: a tuple of numbers, each within `[min, max]`. */
  function ValidateRange(data: Value, min: real, max: real): (r: Result<Value>)
    ensures r.Ok? ==> r.value == data
    ensures r.Ok? <==> data.PyTuple? && AllNumbers(data.elems) && AllInRange(data.elems, min, max)
  {
    if data.PyTuple? && AllNumbers(data.elems) then
      if AllInRange(data.elems, min, max) then Ok(data)
      else Err(ValidationError)
    else Err(ValidationError)
  }

  /** `FloatRangeTupleDataclassField(N, default, min, max)`. */
  function FloatRangeTuple(n: int, default: Value, min: real, max: real): (r: Result<FieldDescriptor>)
    ensures PyLen(default).None? ==> r == Err(TypeError)
    ensures PyLen(default).Some? && PyLen(default).value != n ==> r == Err(ValidationError)
    ensures r.Ok? <==> Admits(FloatTupleField(n, min, max, default), default)
    ensures r.Ok? ==> r.value == FloatTupleField(n, min, max, default)
  {
    match PyLen(default)
    case None => Err(TypeError)
    case Some(len) =>
      if n != len then Err(ValidationError)
      else if ValidateRange(default, min, max).Err? then Err(ValidationError)
      else Ok(FloatTupleField(n, min, max, default))
  }

  /** `_jsonschema_type_mapping` of that field: an array schema with `n` number
      items bounded by `[min, max]` and the default; it re-validates the default. */
  function FloatTupleSchema(n: int, min: real, max: real, default: Value): (r: Result<Value>)
    ensures r.Ok? <==> ValidateRange(default, min, max).Ok?
    ensures r.Ok? ==>
      (r.value.PyDict?
       && Lookup(r.value.entries, PyStr("type")) == Some(PyStr("array"))
       && Lookup(r.value.entries, PyStr("default")) == Some(default))
    ensures r.Ok? ==> var items := Lookup(r.value.entries, PyStr("prefixItems"));
      items.Some? && items.value.PyList? && |items.value.items| == (if n < 0 then 0 else n)
      && forall k :: 0 <= k < |items.value.items| ==>
           items.value.items[k] == StrDict([("type", PyStr("number")), ("minimum", PyFloat(min)), ("maximum", PyFloat(max))])
  {
    if ValidateRange(default, min, max).Err? then Err(ValidationError)
    else
      var item := StrDict([("type", PyStr("number")), ("minimum", PyFloat(min)), ("maximum", PyFloat(max))]);
      var count := if n < 0 then 0 else n;
      ArraySchemaLookups(PyList(seq(count, _ => item)), default);
      Ok(StrDict([("type", PyStr("array")), ("prefixItems", PyList(seq(count, _ => item))), ("default", default)]))
  }

  lemma {:induction false} ArraySchemaLookups(items: Value, default: Value)
    ensures var d := StrDict([("type", PyStr("array")), ("prefixItems", items), ("default", default)]);
      && Lookup(d.entries, PyStr("type")) == Some(PyStr("array"))
      && Lookup(d.entries, PyStr("prefixItems")) == Some(items)
      && Lookup(d.entries, PyStr("default")) == Some(default)
  {
    var e := [("type", PyStr("array")), ("prefixItems", items), ("default", default)];
    StrDictLookup(e, "type");
    StrDictLookup(e, "prefixItems");
    StrDictLookup(e, "default");
    GetThree("type", PyStr("array"), "prefixItems", items, "default", default, "type");
    GetThree("type", PyStr("array"), "prefixItems", items, "default", default, "prefixItems");
    GetThree("type", PyStr("array"), "prefixItems", items, "default", default, "default");
  }

  /** A field that was built never makes its schema mapping raise. */
  lemma {:induction false} FloatTupleSchemaOfBuiltField(n: int, default: Value, min: real, max: real)
    requires FloatRangeTuple(n, default, min, max).Ok?
    ensures FloatTupleSchema(n, min, max, default).Ok?
    ensures |Lookup(FloatTupleSchema(n, min, max, default).value.entries, PyStr("prefixItems")).value.items| == n
  {
  }

  /** The item schema of the tuple field. */
  function FloatItem(min: real, max: real): Value {
    StrDict([("type", PyStr("number")), ("minimum", PyFloat(min)), ("maximum", PyFloat(max))])
  }

  /** For a tuple of the declared length whose items are not bools, the field's
      `validate_range` accepts exactly what its schema admits. */
  lemma {:induction false} FloatTupleValidateAgreesWithSchema(n: int, min: real, max: real, default: Value, data: Value)
    requires FloatTupleSchema(n, min, max, default).Ok?
    requires data.PyTuple? && |data.elems| == n
    requires forall k :: 0 <= k < |data.elems| ==> !data.elems[k].PyBool?
    ensures ValidateRange(data, min, max).Ok? <==> Valid(FloatTupleSchema(n, min, max, default).value, data)
  {
    assert data == PyTuple(data.elems);
    FloatTupleValid(n, min, max, default, data.elems);
  }

  lemma {:induction false} FloatTupleValid(n: int, min: real, max: real, default: Value, xs: seq<Value>)
    requires FloatTupleSchema(n, min, max, default).Ok?
    requires |xs| == n
    requires forall k :: 0 <= k < |xs| ==> !xs[k].PyBool?
    ensures Valid(FloatTupleSchema(n, min, max, default).value, PyTuple(xs)) <==>
      AllNumbers(xs) && AllInRange(xs, min, max)
  {
    FloatTupleSchemaShape(n, min, max, default);
    FloatItemsValid(min, max);
    TupleOfItems(FloatTupleSchema(n, min, max, default).value, FloatItem(min, max), min, max, n, default, xs);
  }

  lemma {:induction false} FloatItemsValid(min: real, max: real)
    ensures forall x :: Valid(FloatItem(min, max), x) <==> IsJsonNumber(x) && min <= NumOf(x) <= max
  {
    forall x ensures Valid(FloatItem(min, max), x) <==> IsJsonNumber(x) && min <= NumOf(x) <= max {
      FloatItemValid(min, max, x);
    }
  }

  /** A tuple of `count` non-bool items against an array of `count` copies of a
      `[min, max]` number schema. */
  lemma {:induction false} TupleOfItems(d: Value, item: Value, min: real, max: real, count: nat, default: Value, xs: seq<Value>)
    requires d == StrDict([("type", PyStr("array")), ("prefixItems", PyList(seq(count, _ => item))), ("default", default)])
    requires |xs| == count
    requires forall x :: Valid(item, x) <==> IsJsonNumber(x) && min <= NumOf(x) <= max
    requires forall k :: 0 <= k < |xs| ==> !xs[k].PyBool?
    ensures Valid(d, PyTuple(xs)) <==>
      AllNumbers(xs) && AllInRange(xs, min, max)
  {
    TupleValidItems(d, item, count, default, xs);
    ItemsInRange(item, min, max, xs);
  }

  lemma {:induction false} TupleValidItems(d: Value, item: Value, count: nat, default: Value, xs: seq<Value>)
    requires d == StrDict([("type", PyStr("array")), ("prefixItems", PyList(seq(count, _ => item))), ("default", default)])
    requires |xs| == count
    ensures Valid(d, PyTuple(xs)) <==> forall j :: 0 <= j < |xs| ==> Valid(item, xs[j])
  {
    ArraySchemaValid(d, item, count, default, PyTuple(xs));
    assert PyTuple(xs).elems == xs;
  }

  lemma {:induction false} FloatTupleSchemaShape(n: int, min: real, max: real, default: Value)
    requires FloatTupleSchema(n, min, max, default).Ok?
    ensures var count := if n < 0 then 0 else n;
      FloatTupleSchema(n, min, max, default).value ==
        StrDict([("type", PyStr("array")), ("prefixItems", PyList(seq(count, _ => FloatItem(min, max)))), ("default", default)])
  {
  }

  /** Every item is valid against an item schema that admits the numbers in
      `[min, max]` exactly when every item is such a number. */
  lemma {:induction false} ItemsInRange(item: Value, min: real, max: real, xs: seq<Value>)
    requires forall x :: Valid(item, x) <==> IsJsonNumber(x) && min <= NumOf(x) <= max
    requires forall k :: 0 <= k < |xs| ==> !xs[k].PyBool?
    ensures (forall j :: 0 <= j < |xs| ==> Valid(item, xs[j])) <==>
      AllNumbers(xs) && AllInRange(xs, min, max)
  {
  }

  /** A bool passes `validate_range` (it is an int to Python) but not the schema. */
  lemma {:induction false} FloatTupleAcceptsBoolSchemaDoesNot(min: real, max: real, default: Value, b: bool)
    requires FloatTupleSchema(1, min, max, default).Ok?
    requires min <= 0.0 && 1.0 <= max
    ensures ValidateRange(PyTuple([PyBool(b)]), min, max).Ok?
    ensures !Valid(FloatTupleSchema(1, min, max, default).value, PyTuple([PyBool(b)]))
  {
    BoolInRange(b, min, max);
    FloatTupleRejectsBool(1, min, max, default, [PyBool(b)]);
  }

  lemma {:induction false} BoolInRange(b: bool, min: real, max: real)
    requires min <= 0.0 && 1.0 <= max
    ensures ValidateRange(PyTuple([PyBool(b)]), min, max).Ok?
  {
    var data := PyTuple([PyBool(b)]);
    assert IsNumber(data.elems[0]) && min <= NumOf(data.elems[0]) <= max;
  }

  /** No tuple holding a bool is valid against the schema. */
  lemma {:induction false} FloatTupleRejectsBool(n: int, min: real, max: real, default: Value, xs: seq<Value>)
    requires FloatTupleSchema(n, min, max, default).Ok?
    requires 0 < |xs| <= n && xs[0].PyBool?
    ensures !Valid(FloatTupleSchema(n, min, max, default).value, PyTuple(xs))
  {
    FloatTupleSchemaShape(n, min, max, default);
    FloatItemValid(min, max, xs[0]);
    ArrayRejectsItem(FloatTupleSchema(n, min, max, default).value, FloatItem(min, max), n, default, xs);
  }

  /** A tuple whose first item fails the item schema fails the array schema. */
  lemma {:induction false} ArrayRejectsItem(d: Value, item: Value, count: nat, default: Value, xs: seq<Value>)
    requires d == StrDict([("type", PyStr("array")), ("prefixItems", PyList(seq(count, _ => item))), ("default", default)])
    requires 0 < |xs| <= count && !Valid(item, xs[0])
    ensures !Valid(d, PyTuple(xs))
  {
    ArraySchemaValid(d, item, count, default, PyTuple(xs));
    assert PyTuple(xs).elems[0] == xs[0];
  }

  /** `{"type": "number", "minimum": min, "maximum": max}`. */
  lemma {:induction false} FloatItemValid(min: real, max: real, x: Value)
    ensures Valid(FloatItem(min, max), x) <==> IsJsonNumber(x) && min <= NumOf(x) <= max
  {
    var e := [("type", PyStr("number")), ("minimum", PyFloat(min)), ("maximum", PyFloat(max))];
    FloatItemKeys(min, max);
    ValidOfKeywords(e, x, Some(PyStr("number")), None, None, Some(PyFloat(min)), None, Some(PyFloat(max)), None, None);
    KeywordsOfFloatItem(min, max, x);
  }

  lemma {:induction false} KeywordsOfFloatItem(min: real, max: real, x: Value)
    ensures KeywordsOk(Some(PyStr("number")), None, None, Some(PyFloat(min)), None, Some(PyFloat(max)), None, None, x)
      <==> IsJsonNumber(x) && min <= NumOf(x) <= max
  {
  }

  lemma {:induction false} FloatItemKeys(min: real, max: real)
    ensures var e := [("type", PyStr("number")), ("minimum", PyFloat(min)), ("maximum", PyFloat(max))];
      && NoApplicators(e)
      && Get(e, "type") == Some(PyStr("number")) && Get(e, "enum") == None && Get(e, "const") == None
      && Get(e, "minimum") == Some(PyFloat(min)) && Get(e, "exclusiveMinimum") == None
      && Get(e, "maximum") == Some(PyFloat(max)) && Get(e, "exclusiveMaximum") == None && Get(e, "required") == None
  {
    GetThree("type", PyStr("number"), "minimum", PyFloat(min), "maximum", PyFloat(max), "type");
    GetThree("type", PyStr("number"), "minimum", PyFloat(min), "maximum", PyFloat(max), "enum");
    GetThree("type", PyStr("number"), "minimum", PyFloat(min), "maximum", PyFloat(max), "const");
    GetThree("type", PyStr("number"), "minimum", PyFloat(min), "maximum", PyFloat(max), "minimum");
    GetThree("type", PyStr("number"), "minimum", PyFloat(min), "maximum", PyFloat(max), "exclusiveMinimum");
    GetThree("type", PyStr("number"), "minimum", PyFloat(min), "maximum", PyFloat(max), "maximum");
    GetThree("type", PyStr("number"), "minimum", PyFloat(min), "maximum", PyFloat(max), "exclusiveMaximum");
    GetThree("type", PyStr("number"), "minimum", PyFloat(min), "maximum", PyFloat(max), "required");
  }

  /** An array schema with `count` copies of one item schema in `prefixItems`. */
  lemma {:induction false} ArraySchemaValid(d: Value, item: Value, count: nat, default: Value, v: Value)
    requires d == StrDict([("type", PyStr("array")), ("prefixItems", PyList(seq(count, _ => item))), ("default", default)])
    requires v.PyTuple?
    ensures Valid(d, v) <==> forall j :: 0 <= j < count && j < |v.elems| ==> Valid(item, v.elems[j])
  {
    ArrayLocal(PyList(seq(count, _ => item)), default, v);
    ArrayApplicators(d, item, count, default, v);
  }

  lemma {:induction false} ArrayLocal(items: Value, default: Value, v: Value)
    requires v.PyTuple?
    ensures LocalOk(StrDict([("type", PyStr("array")), ("prefixItems", items), ("default", default)]).entries, v)
  {
    var e := [("type", PyStr("array")), ("prefixItems", items), ("default", default)];
    LocalOfStrDict(e, v);
    ArrayKeys(items, default);
  }

  lemma {:induction false} ArrayKeys(items: Value, default: Value)
    ensures var e := [("type", PyStr("array")), ("prefixItems", items), ("default", default)];
      && Get(e, "type") == Some(PyStr("array")) && Get(e, "enum") == None && Get(e, "const") == None
      && Get(e, "minimum") == None && Get(e, "exclusiveMinimum") == None
      && Get(e, "maximum") == None && Get(e, "exclusiveMaximum") == None && Get(e, "required") == None
  {
    GetThree("type", PyStr("array"), "prefixItems", items, "default", default, "type");
    GetThree("type", PyStr("array"), "prefixItems", items, "default", default, "enum");
    GetThree("type", PyStr("array"), "prefixItems", items, "default", default, "const");
    GetThree("type", PyStr("array"), "prefixItems", items, "default", default, "minimum");
    GetThree("type", PyStr("array"), "prefixItems", items, "default", default, "exclusiveMinimum");
    GetThree("type", PyStr("array"), "prefixItems", items, "default", default, "maximum");
    GetThree("type", PyStr("array"), "prefixItems", items, "default", default, "exclusiveMaximum");
    GetThree("type", PyStr("array"), "prefixItems", items, "default", default, "required");
  }

  lemma {:induction false} ArrayApplicators(d: Value, item: Value, count: nat, default: Value, v: Value)
    requires d == StrDict([("type", PyStr("array")), ("prefixItems", PyList(seq(count, _ => item))), ("default", default)])
    requires v.PyTuple?
    ensures PropertiesOk(d, v) && OneOfOk(d, v)
    ensures PrefixItemsOk(d, v) <==> forall j :: 0 <= j < count && j < |v.elems| ==> Valid(item, v.elems[j])
  {
    ArrayVacuous(d, PyList(seq(count, _ => item)), default, v);
    ArrayPrefixItems(d, item, count, default, v);
  }

  lemma {:induction false} ArrayVacuous(d: Value, items: Value, default: Value, v: Value)
    requires d == StrDict([("type", PyStr("array")), ("prefixItems", items), ("default", default)])
    ensures PropertiesOk(d, v) && OneOfOk(d, v)
  {
    assert d.entries[0].0 == PyStr("type");
    assert d.entries[1].0 == PyStr("prefixItems");
    assert d.entries[2].0 == PyStr("default");
    PropertiesVacuous(d, v);
    OneOfVacuous(d, v);
  }

  lemma {:induction false} ArrayPrefixItems(d: Value, item: Value, count: nat, default: Value, v: Value)
    requires d == StrDict([("type", PyStr("array")), ("prefixItems", PyList(seq(count, _ => item))), ("default", default)])
    requires v.PyTuple?
    ensures PrefixItemsOk(d, v) <==> forall j :: 0 <= j < count && j < |v.elems| ==> Valid(item, v.elems[j])
  {
    var items := seq(count, _ => item);
    assert d.entries[0].0 == PyStr("type");
    assert d.entries[1] == (PyStr("prefixItems"), PyList(items));
    assert d.entries[2].0 == PyStr("default");
    PrefixItemsOfOne(d, 1, items, v);
    assert forall j :: 0 <= j < count ==> items[j] == item;
  }

  // ---------------------------------------------------------------------------
  // NumericOrStringOptionsField

  /** The optional `min`, `min_exclusive`, `max` and `max_exclusive` arguments. */
  datatype Bounds = Bounds(min: Option<int>, minExclusive: Option<int>, max: Option<int>, maxExclusive: Option<int>)

  /** `x` satisfies every supplied bound. */
  predicate WithinBounds(b: Bounds, x: real) {
    && (b.min.Some? ==> b.min.value as real <= x)
    && (b.minExclusive.Some? ==> b.minExclusive.value as real < x)
    && (b.max.Some? ==> x <= b.max.value as real)
    && (b.maxExclusive.Some? ==> x < b.maxExclusive.value as real)
  }

  /** The value takes the numeric branch of `_deserialize`: an int (bools included)
      in integer mode, a float in either mode. */
  predicate TakesNumericBranch(isInteger: bool, value: Value) {
    (isInteger && IsInt(value)) || value.PyFloat?
  }

  /** `_deserialize` of a `NumericOrStringOptionsField`, as written: the message of
      an out-of-range number is built by unpacking three values into two names, so
      that branch raises ValueError before its ValidationError is reached. */
  function NumericOrStringDeserialize(options: seq<Value>, isInteger: bool, b: Bounds, value: Value): (r: Result<Value>)
    ensures r.Ok? ==> r.value == value
    ensures TakesNumericBranch(isInteger, value) ==> (r.Ok? <==> WithinBounds(b, NumOf(value)))
    ensures TakesNumericBranch(isInteger, value) && !WithinBounds(b, NumOf(value)) ==> r == Err(ValueError)
    ensures value.PyStr? ==> (r.Ok? <==> value in options)
    ensures !isInteger && IsInt(value) ==> r.Err?
    ensures !IsNumber(value) && !value.PyStr? ==> r.Err?
    ensures r.Err? && !TakesNumericBranch(isInteger, value) ==> r.error == ValidationError
  {
    if TakesNumericBranch(isInteger, value) then
      var x := NumOf(value);
      if (b.min.Some? && x < b.min.value as real)
        || (b.minExclusive.Some? && x <= b.minExclusive.value as real)
        || (b.max.Some? && x > b.max.value as real)
        || (b.maxExclusive.Some? && x >= b.maxExclusive.value as real)
      then Err(ValueError)
      else Ok(value)
    else if value.PyStr? then
      if value !in options then Err(ValidationError) else Ok(value)
    else Err(ValidationError)
  }

  /** `_deserialize` as its authors meant it: an out-of-range number raises the
      range ValidationError, so every rejection is a ValidationError. */
  function NumericOrStringDeserializeIntended(options: seq<Value>, isInteger: bool, b: Bounds, value: Value): (r: Result<Value>)
    ensures r.Ok? ==> r.value == value
    ensures TakesNumericBranch(isInteger, value) ==> (r.Ok? <==> WithinBounds(b, NumOf(value)))
    ensures value.PyStr? ==> (r.Ok? <==> value in options)
    ensures !isInteger && IsInt(value) ==> r.Err?
    ensures !IsNumber(value) && !value.PyStr? ==> r.Err?
    ensures r.Err? ==> r.error == ValidationError
  {
    if TakesNumericBranch(isInteger, value) then
      if WithinBounds(b, NumOf(value)) then Ok(value) else Err(ValidationError)
    else if value.PyStr? then
      if value in options then Ok(value) else Err(ValidationError)
    else Err(ValidationError)
  }

  /** The two readings accept the same values and differ only in the exception
      an out-of-range number raises. */
  lemma {:induction false} DeserializeReadingsDifferInErrorKindOnly(options: seq<Value>, isInteger: bool, b: Bounds, value: Value)
    ensures var w := NumericOrStringDeserialize(options, isInteger, b, value);
      var c := NumericOrStringDeserializeIntended(options, isInteger, b, value);
      && (w.Ok? <==> c.Ok?) && (w.Ok? ==> w == c)
      && (w != c <==> TakesNumericBranch(isInteger, value) && !WithinBounds(b, NumOf(value)))
  {
  }

  /** `min=0` with `-1` in integer mode: the code raises ValueError where the
      range ValidationError was meant. */
  lemma {:induction false} OutOfRangeRaisesValueError()
    ensures NumericOrStringDeserialize([], true, Bounds(Some(0), None, None, None), PyInt(-1)) == Err(ValueError)
    ensures NumericOrStringDeserializeIntended([], true, Bounds(Some(0), None, None, None), PyInt(-1)) == Err(ValidationError)
  {
    assert TakesNumericBranch(true, PyInt(-1)) && NumOf(PyInt(-1)) == -1.0;
  }

  function IntOpt(o: Option<int>): Option<Value> {
    if o.Some? then Some(PyInt(o.value)) else None
  }

  /** The only keywords the numeric alternative may carry. */
  const NumericKeywords: set<string> := {"type", "minimum", "exclusiveMinimum", "maximum", "exclusiveMaximum"}

  /** The numeric alternative of the schema: its type and exactly the supplied bounds. */
  function NumericOption(isInteger: bool, b: Bounds): (o: seq<(string, Value)>)
    ensures Get(o, "type") == Some(PyStr(if isInteger then "integer" else "number"))
    ensures Get(o, "minimum") == IntOpt(b.min)
    ensures Get(o, "exclusiveMinimum") == IntOpt(b.minExclusive)
    ensures Get(o, "maximum") == IntOpt(b.max)
    ensures Get(o, "exclusiveMaximum") == IntOpt(b.maxExclusive)
    ensures Get(o, "enum") == None && Get(o, "const") == None && Get(o, "required") == None
    ensures NoApplicators(o)
    ensures forall i :: 0 <= i < |o| ==> o[i].0 in NumericKeywords
  {
    var t := [("type", PyStr(if isInteger then "integer" else "number"))];
    var o := t + OptionEntry("minimum", b.min) + OptionEntry("exclusiveMinimum", b.minExclusive)
      + OptionEntry("maximum", b.max) + OptionEntry("exclusiveMaximum", b.maxExclusive);
    NumericKeysLow(isInteger, b);
    NumericKeysHigh(isInteger, b);
    NumericKeysNoApplicators(isInteger, b);
    o
  }

  lemma {:induction false} NumericKeysNoApplicators(isInteger: bool, b: Bounds)
    ensures var t := [("type", PyStr(if isInteger then "integer" else "number"))];
      NoApplicators(t + OptionEntry("minimum", b.min) + OptionEntry("exclusiveMinimum", b.minExclusive)
        + OptionEntry("maximum", b.max) + OptionEntry("exclusiveMaximum", b.maxExclusive))
  {
    var t := [("type", PyStr(if isInteger then "integer" else "number"))];
    var e1 := OptionEntry("minimum", b.min);
    var e2 := OptionEntry("exclusiveMinimum", b.minExclusive);
    var e3 := OptionEntry("maximum", b.max);
    var e4 := OptionEntry("exclusiveMaximum", b.maxExclusive);
    var o := t + e1 + e2 + e3 + e4;
    forall i | 0 <= i < |o|
      ensures o[i].0 in {"type", "minimum", "exclusiveMinimum", "maximum", "exclusiveMaximum"}
    {
      if i >= |t + e1 + e2 + e3| {
        assert o[i] == e4[i - |t + e1 + e2 + e3|];
      } else if i >= |t + e1 + e2| {
        assert o[i] == e3[i - |t + e1 + e2|];
      } else if i >= |t + e1| {
        assert o[i] == e2[i - |t + e1|];
      } else if i >= |t| {
        assert o[i] == e1[i - |t|];
      }
    }
  }

  lemma {:induction false} NumericKeysLow(isInteger: bool, b: Bounds)
    ensures var t := [("type", PyStr(if isInteger then "integer" else "number"))];
      var o := t + OptionEntry("minimum", b.min) + OptionEntry("exclusiveMinimum", b.minExclusive)
        + OptionEntry("maximum", b.max) + OptionEntry("exclusiveMaximum", b.maxExclusive);
      && Get(o, "type") == Some(PyStr(if isInteger then "integer" else "number"))
      && Get(o, "minimum") == IntOpt(b.min)
      && Get(o, "exclusiveMinimum") == IntOpt(b.minExclusive)
      && Get(o, "maximum") == IntOpt(b.max)
  {
    var t := [("type", PyStr(if isInteger then "integer" else "number"))];
    GetOfEntries(t, b, "type");
    GetOfEntries(t, b, "minimum");
    GetOfEntries(t, b, "exclusiveMinimum");
    GetOfEntries(t, b, "maximum");
  }

  lemma {:induction false} NumericKeysHigh(isInteger: bool, b: Bounds)
    ensures var t := [("type", PyStr(if isInteger then "integer" else "number"))];
      var o := t + OptionEntry("minimum", b.min) + OptionEntry("exclusiveMinimum", b.minExclusive)
        + OptionEntry("maximum", b.max) + OptionEntry("exclusiveMaximum", b.maxExclusive);
      && Get(o, "exclusiveMaximum") == IntOpt(b.maxExclusive)
      && Get(o, "enum") == None && Get(o, "const") == None && Get(o, "required") == None
  {
    var t := [("type", PyStr(if isInteger then "integer" else "number"))];
    GetOfEntries(t, b, "exclusiveMaximum");
    GetOfEntries(t, b, "enum");
    GetOfEntries(t, b, "const");
    GetOfEntries(t, b, "required");
  }

  /** The entry `key: o` when the bound was supplied, nothing otherwise. */
  function OptionEntry(key: string, o: Option<int>): (e: seq<(string, Value)>)
    ensures forall k :: Get(e, k) == if k == key then IntOpt(o) else None
    ensures forall i :: 0 <= i < |e| ==> e[i].0 == key
  {
    if o.Some? then [(key, PyInt(o.value))] else []
  }

  lemma {:induction false} GetOfEntries(t: seq<(string, Value)>, b: Bounds, key: string)
    ensures var e1 := OptionEntry("minimum", b.min);
      var e2 := OptionEntry("exclusiveMinimum", b.minExclusive);
      var e3 := OptionEntry("maximum", b.max);
      var e4 := OptionEntry("exclusiveMaximum", b.maxExclusive);
      Get(t + e1 + e2 + e3 + e4, key) ==
        if Get(t, key).Some? then Get(t, key)
        else if Get(e1, key).Some? then Get(e1, key)
        else if Get(e2, key).Some? then Get(e2, key)
        else if Get(e3, key).Some? then Get(e3, key)
        else Get(e4, key)
  {
    var e1 := OptionEntry("minimum", b.min);
    var e2 := OptionEntry("exclusiveMinimum", b.minExclusive);
    var e3 := OptionEntry("maximum", b.max);
    var e4 := OptionEntry("exclusiveMaximum", b.maxExclusive);
    GetAppend(t + e1 + e2 + e3, e4, key);
    GetAppend(t + e1 + e2, e3, key);
    GetAppend(t + e1, e2, key);
    GetAppend(t, e1, key);
  }

  /** The instances of the numeric alternative's type: "integer" admits whole
      floats, "number" every JSON number; neither admits a bool. */
  predicate NumericTypeAdmits(isInteger: bool, v: Value) {
    if isInteger then v.PyInt? || (v.PyFloat? && v.f.Floor as real == v.f) else v.PyInt? || v.PyFloat?
  }

  /** The numeric alternative admits exactly the numbers of its type within the bounds. */
  lemma {:induction false} NumericOptionValid(isInteger: bool, b: Bounds, v: Value)
    ensures Valid(StrDict(NumericOption(isInteger, b)), v) <==>
      NumericTypeAdmits(isInteger, v) && WithinBounds(b, NumOf(v))
  {
    var o := NumericOption(isInteger, b);
    ValidOfFlat(o, v);
    KeywordsOfNumeric(isInteger, b, v);
  }

  lemma {:induction false} KeywordsOfNumeric(isInteger: bool, b: Bounds, v: Value)
    ensures KeywordsOk(Some(PyStr(if isInteger then "integer" else "number")), None, None,
                       IntOpt(b.min), IntOpt(b.minExclusive), IntOpt(b.max), IntOpt(b.maxExclusive), None, v)
      <==> NumericTypeAdmits(isInteger, v) && WithinBounds(b, NumOf(v))
  {
    NumericType(isInteger, v);
    if IsJsonNumber(v) {
      IntBound(b.min, v, true, false);
      IntBound(b.minExclusive, v, true, true);
      IntBound(b.max, v, false, false);
      IntBound(b.maxExclusive, v, false, true);
    }
  }

  lemma {:induction false} NumericType(isInteger: bool, v: Value)
    ensures TypeOk(Some(PyStr(if isInteger then "integer" else "number")), v) <==> NumericTypeAdmits(isInteger, v)
  {
  }

  /** A bound given as an int, checked against a number. */
  lemma {:induction false} IntBound(o: Option<int>, v: Value, lower: bool, strict: bool)
    requires IsJsonNumber(v)
    ensures BoundOk(IntOpt(o), v, lower, strict) <==>
      (o.Some? ==> (var m := o.value as real; var x := NumOf(v);
                    if lower then (if strict then m < x else m <= x) else (if strict then x < m else x <= m)))
  {
  }

  /** The alternatives of the `oneOf` list: the numeric option, the string enum,
      and `{"type": "null"}` when the field is nullable. */
  function OneOfAlternatives(isInteger: bool, b: Bounds, stringOptions: seq<Value>, nullable: bool): seq<Value> {
    var numeric := StrDict(NumericOption(isInteger, b));
    var strings := StrDict([("type", PyStr("string")), ("enum", PyList(stringOptions))]);
    [numeric, strings] + (if nullable then [StrDict([("type", PyStr("null"))])] else [])
  }

  /** The `{"oneOf": [...]}` schema for given string options. */
  function OneOfSchema(isInteger: bool, b: Bounds, stringOptions: seq<Value>, nullable: bool): Value {
    StrDict([("oneOf", PyList(OneOfAlternatives(isInteger, b, stringOptions, nullable)))])
  }

  /** What the field's schema admits: a number of the numeric type within the
      bounds, a string among the options, or None when the field is nullable. */
  lemma {:induction false} OneOfSchemaValid(isInteger: bool, b: Bounds, stringOptions: seq<Value>, nullable: bool, v: Value)
    ensures Valid(OneOfSchema(isInteger, b, stringOptions, nullable), v) <==>
      (NumericTypeAdmits(isInteger, v) && WithinBounds(b, NumOf(v)))
      || (v.PyStr? && v in stringOptions)
      || (nullable && v == PyNone)
  {
    var alts := OneOfAlternatives(isInteger, b, stringOptions, nullable);
    ValidOfOneOf(alts, v);
    OneOfAlternativesValid(isInteger, b, stringOptions, nullable, v);
    if nullable {
      ValiditiesOfThree(alts, v);
      ExactlyOneOfThree(Valid(alts[0], v), Valid(alts[1], v), Valid(alts[2], v));
    } else {
      ValiditiesOfTwo(alts, v);
      ExactlyOneOfTwo(Valid(alts[0], v), Valid(alts[1], v));
    }
  }

  lemma {:induction false} OneOfAlternativesValid(isInteger: bool, b: Bounds, stringOptions: seq<Value>, nullable: bool, v: Value)
    ensures var alts := OneOfAlternatives(isInteger, b, stringOptions, nullable);
      && |alts| == (if nullable then 3 else 2)
      && (Valid(alts[0], v) <==> NumericTypeAdmits(isInteger, v) && WithinBounds(b, NumOf(v)))
      && (Valid(alts[1], v) <==> v.PyStr? && v in stringOptions)
      && (nullable ==> (Valid(alts[2], v) <==> v == PyNone))
  {
    NumericAltValid(isInteger, b, stringOptions, nullable, v);
    StringAltValid(isInteger, b, stringOptions, nullable, v);
    if nullable {
      NullAltValid(isInteger, b, stringOptions, v);
    }
  }

  lemma {:induction false} NumericAltValid(isInteger: bool, b: Bounds, stringOptions: seq<Value>, nullable: bool, v: Value)
    ensures Valid(OneOfAlternatives(isInteger, b, stringOptions, nullable)[0], v) <==>
      NumericTypeAdmits(isInteger, v) && WithinBounds(b, NumOf(v))
  {
    assert OneOfAlternatives(isInteger, b, stringOptions, nullable)[0] == StrDict(NumericOption(isInteger, b));
    NumericOptionValid(isInteger, b, v);
  }

  lemma {:induction false} StringAltValid(isInteger: bool, b: Bounds, stringOptions: seq<Value>, nullable: bool, v: Value)
    ensures Valid(OneOfAlternatives(isInteger, b, stringOptions, nullable)[1], v) <==> v.PyStr? && v in stringOptions
  {
    StringAltTyped(isInteger, b, stringOptions, nullable, v);
    StringType(v);
  }

  lemma {:induction false} StringAltTyped(isInteger: bool, b: Bounds, stringOptions: seq<Value>, nullable: bool, v: Value)
    ensures Valid(OneOfAlternatives(isInteger, b, stringOptions, nullable)[1], v) <==>
      TypeOk(Some(PyStr("string")), v) && v in stringOptions
  {
    StringAlt(isInteger, b, stringOptions, nullable);
    EnumAltValid(OneOfAlternatives(isInteger, b, stringOptions, nullable)[1], PyStr("string"), stringOptions, v);
  }

  lemma {:induction false} StringAlt(isInteger: bool, b: Bounds, stringOptions: seq<Value>, nullable: bool)
    ensures OneOfAlternatives(isInteger, b, stringOptions, nullable)[1]
      == StrDict([("type", PyStr("string")), ("enum", PyList(stringOptions))])
  {
  }

  lemma {:induction false} EnumAltValid(alt: Value, t: Value, options: seq<Value>, v: Value)
    requires alt == StrDict([("type", t), ("enum", PyList(options))])
    ensures Valid(alt, v) <==> TypeOk(Some(t), v) && v in options
  {
    ValidOfEnum(t, options, v);
  }

  lemma {:induction false} NullAltValid(isInteger: bool, b: Bounds, stringOptions: seq<Value>, v: Value)
    ensures Valid(OneOfAlternatives(isInteger, b, stringOptions, true)[2], v) <==> v == PyNone
  {
    NullAltTyped(isInteger, b, stringOptions, v);
    NullType(v);
  }

  lemma {:induction false} NullAltTyped(isInteger: bool, b: Bounds, stringOptions: seq<Value>, v: Value)
    ensures Valid(OneOfAlternatives(isInteger, b, stringOptions, true)[2], v) <==> TypeOk(Some(PyStr("null")), v)
  {
    assert OneOfAlternatives(isInteger, b, stringOptions, true)[2] == StrDict([("type", PyStr("null"))]);
    TypeAltValid(OneOfAlternatives(isInteger, b, stringOptions, true)[2], "null", v);
  }

  /** What `_jsonschema_type_mapping` returns, paired with the option list as it
      leaves it (None is removed from it in place). */
  function NumericOrStringSchema(options: seq<Value>, nullable: bool, isInteger: bool, b: Bounds): (r: (Result<Value>, seq<Value>))
    ensures r.0.Err? <==> PyNone in options && !nullable
    ensures r.0.Err? ==> r.0.error == AssertionError && r.1 == options
    ensures r.0.Ok? ==> r.1 == (if PyNone in options then RemoveFirst(options, PyNone) else options)
    ensures r.0.Ok? ==> r.0.value == OneOfSchema(isInteger, b, r.1, nullable)
  {
    if PyNone in options && !nullable then (Err(AssertionError), options)
    else
      var rest := if PyNone in options then RemoveFirst(options, PyNone) else options;
      (Ok(OneOfSchema(isInteger, b, rest, nullable)), rest)
  }

  /** The schema's alternatives: the numeric option, the string enum, and the null
      type exactly when the field is nullable. */
  lemma {:induction false} SchemaAlternatives(options: seq<Value>, nullable: bool, isInteger: bool, b: Bounds)
    requires !(PyNone in options && !nullable)
    ensures var r := NumericOrStringSchema(options, nullable, isInteger, b);
      var alts := r.0.value.entries[0].1.items;
      |alts| == (if nullable then 3 else 2)
      && alts[0] == StrDict(NumericOption(isInteger, b))
      && Lookup(alts[1].entries, PyStr("enum")) == Some(PyList(r.1))
      && (nullable ==> alts[2] == StrDict([("type", PyStr("null"))]))
  {
    var r := NumericOrStringSchema(options, nullable, isInteger, b);
    var alts := OneOfAlternatives(isInteger, b, r.1, nullable);
    assert r.0.value.entries[0].1.items == alts;
    StringAlt(isInteger, b, r.1, nullable);
    StrDictLookup([("type", PyStr("string")), ("enum", PyList(r.1))], "enum");
    GetTwo("type", PyStr("string"), "enum", PyList(r.1), "enum");
  }

  /** Once the schema has been mapped, the field's `_deserialize` accepts exactly
      what the schema admits, for every value other than None, away from the
      points where Python and JSON disagree on numbers: a bool or a fractional
      float in integer mode, an int in number mode. */
  lemma {:induction false} NumericOrStringDeserializeAgreesWithSchema(options: seq<Value>, nullable: bool, isInteger: bool, b: Bounds, v: Value)
    requires NumericOrStringSchema(options, nullable, isInteger, b).0.Ok?
    requires v != PyNone
    requires isInteger ==> !v.PyBool? && !(v.PyFloat? && v.f.Floor as real != v.f)
    requires !isInteger ==> !v.PyInt?
    ensures var r := NumericOrStringSchema(options, nullable, isInteger, b);
      && (NumericOrStringDeserialize(options, isInteger, b, v).Ok? <==> Valid(r.0.value, v))
      && (NumericOrStringDeserializeIntended(options, isInteger, b, v).Ok? <==> Valid(r.0.value, v))
  {
    var r := NumericOrStringSchema(options, nullable, isInteger, b);
    DeserializeReadingsDifferInErrorKindOnly(options, isInteger, b, v);
    OneOfSchemaValid(isInteger, b, r.1, nullable, v);
    if PyNone in options {
      RemoveFirstKeepsOthers(options, PyNone, v);
    }
  }

  /** Integer mode lets a fractional float through `_deserialize`; its schema
      admits only whole numbers. */
  lemma {:induction false} IntegerModeAcceptsFractionSchemaDoesNot(options: seq<Value>, nullable: bool)
    requires NumericOrStringSchema(options, nullable, true, Bounds(None, None, None, None)).0.Ok?
    ensures var r := NumericOrStringSchema(options, nullable, true, Bounds(None, None, None, None));
      NumericOrStringDeserialize(options, true, Bounds(None, None, None, None), PyFloat(0.5)).Ok?
      && !Valid(r.0.value, PyFloat(0.5))
  {
    var b := Bounds(None, None, None, None);
    assert TakesNumericBranch(true, PyFloat(0.5)) && WithinBounds(b, 0.5);
    var r := NumericOrStringSchema(options, nullable, true, b);
    assert (0.5).Floor as real != 0.5;
    FractionOutsideIntegerSchema(b, r.1, nullable, 0.5);
  }

  lemma {:induction false} FractionOutsideIntegerSchema(b: Bounds, stringOptions: seq<Value>, nullable: bool, x: real)
    requires x.Floor as real != x
    ensures !Valid(OneOfSchema(true, b, stringOptions, nullable), PyFloat(x))
  {
    OneOfSchemaValid(true, b, stringOptions, nullable, PyFloat(x));
  }

  /** Number mode rejects an int in `_deserialize`; its schema admits it. */
  lemma {:induction false} NumberModeRejectsIntSchemaDoesNot(options: seq<Value>, nullable: bool)
    requires NumericOrStringSchema(options, nullable, false, Bounds(None, None, None, None)).0.Ok?
    ensures var r := NumericOrStringSchema(options, nullable, false, Bounds(None, None, None, None));
      NumericOrStringDeserialize(options, false, Bounds(None, None, None, None), PyInt(1)).Err?
      && Valid(r.0.value, PyInt(1))
  {
    var b := Bounds(None, None, None, None);
    assert !TakesNumericBranch(false, PyInt(1)) && IsInt(PyInt(1));
    var r := NumericOrStringSchema(options, nullable, false, b);
    IntInsideNumberSchema(b, r.1, nullable, 1);
  }

  lemma {:induction false} IntInsideNumberSchema(b: Bounds, stringOptions: seq<Value>, nullable: bool, i: int)
    requires WithinBounds(b, i as real)
    ensures Valid(OneOfSchema(false, b, stringOptions, nullable), PyInt(i))
  {
    OneOfSchemaValid(false, b, stringOptions, nullable, PyInt(i));
    assert NumericTypeAdmits(false, PyInt(i)) && NumOf(PyInt(i)) == i as real;
  }

  /** When the caller's options held None at most once, the string enum holds no
      None, and every string option is still offered. */
  lemma {:induction false} SchemaEnumHasNoNone(options: seq<Value>, nullable: bool, isInteger: bool, b: Bounds)
    requires !(PyNone in options && !nullable)
    requires Count(options, PyNone) <= 1
    ensures var r := NumericOrStringSchema(options, nullable, isInteger, b);
      PyNone !in r.1 && forall v :: v in options && v != PyNone ==> v in r.1
  {
    var r := NumericOrStringSchema(options, nullable, isInteger, b);
    if PyNone in options {
      assert Count(r.1, PyNone) == 0;
      assert multiset(r.1) == multiset(options) - multiset{PyNone};
      forall v | v in options && v != PyNone ensures v in r.1 {
        assert v in multiset(options);
        assert v in multiset(r.1);
      }
    }
  }

  /** Mapping the schema a second time gives the same schema and leaves the list
      alone, once the first call removed the only None. */
  lemma {:induction false} SchemaMappingRepeats(options: seq<Value>, nullable: bool, isInteger: bool, b: Bounds)
    requires NumericOrStringSchema(options, nullable, isInteger, b).0.Ok?
    requires Count(options, PyNone) <= 1
    ensures var first := NumericOrStringSchema(options, nullable, isInteger, b);
      NumericOrStringSchema(first.1, nullable, isInteger, b) == first
  {
    SchemaEnumHasNoNone(options, nullable, isInteger, b);
  }

  /** A `NumericOrStringOptionsField`: it keeps a reference to the caller's option list. */
  class NumericOrStringOptionsField {
    const options: ListObject
    const nullable: bool
    const default: Value
    const isInteger: bool
    const bounds: Bounds

    /** `NumericOrStringOptionsField(options, nullable, default, is_integer, min, max,
        min_exclusive, max_exclusive)`: no check is made on the default. */
    constructor (options: ListObject, nullable: bool, default: Value, isInteger: bool, bounds: Bounds)
      ensures this.options == options && this.nullable == nullable && this.default == default
      ensures this.isInteger == isInteger && this.bounds == bounds
    {
      this.options := options;
      this.nullable := nullable;
      this.default := default;
      this.isInteger := isInteger;
      this.bounds := bounds;
    }

    /** `_deserialize(value)`, against the option list as it is now. */
    function Deserialize(value: Value): (r: Result<Value>)
      reads options
      ensures r.Ok? ==> r.value == value
      ensures value.PyStr? ==> (r.Ok? <==> value in options.items)
      ensures TakesNumericBranch(isInteger, value) && !WithinBounds(bounds, NumOf(value)) ==> r == Err(ValueError)
    {
      NumericOrStringDeserialize(options.items, isInteger, bounds, value)
    }

    /** `_jsonschema_type_mapping()`: builds the numeric option key by key, removes
        None from the shared option list, and assembles the `oneOf` list. */
    method JsonSchemaTypeMapping() returns (r: Result<Value>)
      modifies options
      ensures (r, options.items) == NumericOrStringSchema(old(options.items), nullable, isInteger, bounds)
    {
      if PyNone in options.items && !nullable {
        return Err(AssertionError);
      }
      var numericOption := BuildNumericOption(isInteger, bounds);
      if PyNone in options.items {
        var _ := options.Remove(PyNone);
      }
      var stringOption := StrDict([("type", PyStr("string")), ("enum", PyList(options.items))]);
      var oneOfList := [StrDict(numericOption), stringOption];
      oneOfList := oneOfList + if nullable then [StrDict([("type", PyStr("null"))])] else [];
      return Ok(StrDict([("oneOf", PyList(oneOfList))]));
    }
  }

  /** The numeric option of `_jsonschema_type_mapping`, grown key by key: the
      type, then each supplied bound. */
  method BuildNumericOption(isInteger: bool, bounds: Bounds) returns (numericOption: seq<(string, Value)>)
    ensures numericOption == NumericOption(isInteger, bounds)
  {
    ghost var t := [("type", PyStr(if isInteger then "integer" else "number"))];
    numericOption := [("type", PyStr(if isInteger then "integer" else "number"))];
    if bounds.min.Some? {
      numericOption := numericOption + [("minimum", PyInt(bounds.min.value))];
    }
    assert numericOption == t + OptionEntry("minimum", bounds.min);
    if bounds.minExclusive.Some? {
      numericOption := numericOption + [("exclusiveMinimum", PyInt(bounds.minExclusive.value))];
    }
    assert numericOption == t + OptionEntry("minimum", bounds.min) + OptionEntry("exclusiveMinimum", bounds.minExclusive);
    if bounds.max.Some? {
      numericOption := numericOption + [("maximum", PyInt(bounds.max.value))];
    }
    assert numericOption == t + OptionEntry("minimum", bounds.min) + OptionEntry("exclusiveMinimum", bounds.minExclusive)
      + OptionEntry("maximum", bounds.max);
    if bounds.maxExclusive.Some? {
      numericOption := numericOption + [("exclusiveMaximum", PyInt(bounds.maxExclusive.value))];
    }
  }

  /** `IntegerOrStringOptionsField(...)`: the same field with integer mode forced on,
      whatever `is_integer` the caller passed. */
  method IntegerOrStringOptionsField(options: ListObject, nullable: bool, default: Value, isInteger: bool, bounds: Bounds)
    returns (f: NumericOrStringOptionsField)
    ensures fresh(f) && f.options == options && f.nullable == nullable && f.default == default
    ensures f.isInteger && f.bounds == bounds
  {
    f := new NumericOrStringOptionsField(options, nullable, default, true, bounds);
  }

  // ---------------------------------------------------------------------------
  // create_cond and load_config_with_kwargs

  /** The `{k: {"const": v}}` properties of a condition. */
  function ConstProperties(pred: seq<(string, Value)>): (r: seq<(string, Value)>)
    ensures |r| == |pred|
    ensures forall k :: 0 <= k < |pred| ==> r[k].0 == pred[k].0 && r[k].1 == StrDict([("const", pred[k].1)])
  {
    seq(|pred|, k requires 0 <= k < |pred| => (pred[k].0, StrDict([("const", pred[k].1)])))
  }

  /** `v[k1][k2]...`: None when some step is not a dict or lacks the key. */
  function Path(v: Value, keys: seq<string>): Option<Value>
    decreases |keys|
  {
    if keys == [] then Some(v)
    else if !v.PyDict? then None
    else match Lookup(v.entries, PyStr(keys[0]))
      case None => None
      case Some(w) => Path(w, keys[1..])
  }

  /** `create_cond(if_pred, then_pred)`: a JSON-schema if/then conditional. */
  function CreateCond(ifPred: seq<(string, Value)>, thenPred: seq<(string, Value)>): (r: Value)
    ensures r.PyDict? && Keys(r.entries) == [PyStr("if"), PyStr("then")]
  {
    StrDict([
      ("if", StrDict([("properties", StrDict(ConstProperties(ifPred)))])),
      ("then", StrDict([("properties", StrDict(thenPred))]))])
  }

  /** The "if" of `create_cond` requires each property to equal its constant, and
      its "then" holds exactly the given property schemas. */
  lemma {:induction false} CreateCondPaths(ifPred: seq<(string, Value)>, thenPred: seq<(string, Value)>, key: string)
    ensures Get(ifPred, key).Some? ==>
      Path(CreateCond(ifPred, thenPred), ["if", "properties", key]) == Some(StrDict([("const", Get(ifPred, key).value)]))
    ensures Path(CreateCond(ifPred, thenPred), ["then", "properties", key]) == Get(thenPred, key)
  {
    CreateCondIfPath(ifPred, thenPred, key);
    CreateCondThenPath(ifPred, thenPred, key);
  }

  lemma {:induction false} CreateCondIfPath(ifPred: seq<(string, Value)>, thenPred: seq<(string, Value)>, key: string)
    ensures Path(CreateCond(ifPred, thenPred), ["if", "properties", key]) ==
      if Get(ifPred, key).Some? then Some(StrDict([("const", Get(ifPred, key).value)])) else None
  {
    var ifProps := StrDict(ConstProperties(ifPred));
    var thenProps := StrDict(thenPred);
    var outer := [("if", StrDict([("properties", ifProps)])), ("then", StrDict([("properties", thenProps)]))];
    GetTwo("if", StrDict([("properties", ifProps)]), "then", StrDict([("properties", thenProps)]), "if");
    PathStep(outer, "if", ["properties", key]);
    GetOne("properties", ifProps, "properties");
    PathStep([("properties", ifProps)], "properties", [key]);
    PathStep(ConstProperties(ifPred), key, []);
    ConstLookup(ifPred, key);
  }

  lemma {:induction false} CreateCondThenPath(ifPred: seq<(string, Value)>, thenPred: seq<(string, Value)>, key: string)
    ensures Path(CreateCond(ifPred, thenPred), ["then", "properties", key]) == Get(thenPred, key)
  {
    var ifProps := StrDict(ConstProperties(ifPred));
    var thenProps := StrDict(thenPred);
    var outer := [("if", StrDict([("properties", ifProps)])), ("then", StrDict([("properties", thenProps)]))];
    GetTwo("if", StrDict([("properties", ifProps)]), "then", StrDict([("properties", thenProps)]), "then");
    PathStep(outer, "then", ["properties", key]);
    GetOne("properties", thenProps, "properties");
    PathStep([("properties", thenProps)], "properties", [key]);
    PathStep(thenPred, key, []);
  }

  lemma {:induction false} PathStep(e: seq<(string, Value)>, k: string, rest: seq<string>)
    ensures Path(StrDict(e), [k] + rest) == if Get(e, k).Some? then Path(Get(e, k).value, rest) else None
  {
    StrDictLookup(e, k);
    assert ([k] + rest)[1..] == rest;
  }

  lemma {:induction false} ConstLookup(pred: seq<(string, Value)>, key: string)
    ensures Get(ConstProperties(pred), key) == if Get(pred, key).Some? then Some(StrDict([("const", Get(pred, key).value)])) else None
    decreases |pred|
  {
    if pred != [] {
      ConstLookup(pred[1..], key);
      assert ConstProperties(pred)[1..] == ConstProperties(pred[1..]);
    }
  }

  /** `load_config_with_kwargs(cls, kwargs)`: the entries whose key is a field of the
      class (what is handed to the schema's `load`) and the rest, both in order. */
  function LoadConfigWithKwargs(fields: set<string>, kwargs: seq<(string, Value)>): (r: (seq<(string, Value)>, seq<(string, Value)>))
    ensures |r.0| + |r.1| == |kwargs|
    ensures forall e :: e in r.0 <==> e in kwargs && e.0 in fields
    ensures forall e :: e in r.1 <==> e in kwargs && e.0 !in fields
  {
    if kwargs == [] then ([], [])
    else
      var rest := LoadConfigWithKwargs(fields, kwargs[1..]);
      assert forall e :: e in kwargs <==> e == kwargs[0] || e in kwargs[1..];
      if kwargs[0].0 in fields then ([kwargs[0]] + rest.0, rest.1)
      else (rest.0, [kwargs[0]] + rest.1)
  }

  /** One entry goes to the part its key selects. */
  lemma {:induction false} LoadConfigWithKwargsOne(fields: set<string>, e: (string, Value))
    ensures LoadConfigWithKwargs(fields, [e]) == if e.0 in fields then ([e], []) else ([], [e])
  {
    var s := [e];
    assert s[1..] == [];
    var rest := LoadConfigWithKwargs(fields, s[1..]);
    assert rest == ([], []);
    assert [e] + rest.0 == [e] && [e] + rest.1 == [e];
  }

  /** The split keeps the kwargs' order: splitting a concatenation concatenates
      the splits. */
  lemma {:induction false} LoadConfigWithKwargsAppend(fields: set<string>, a: seq<(string, Value)>, b: seq<(string, Value)>)
    ensures SplitsConcatenate(fields, a, b)
    decreases |a|
  {
    if a == [] {
      assert a + b == b;
      var rb := LoadConfigWithKwargs(fields, b);
      assert LoadConfigWithKwargs(fields, a) == ([], []);
      assert [] + rb.0 == rb.0 && [] + rb.1 == rb.1;
    } else {
      LoadConfigWithKwargsAppend(fields, a[1..], b);
      SplitsConcatenateStep(fields, a, b);
    }
  }

  predicate SplitsConcatenate(fields: set<string>, a: seq<(string, Value)>, b: seq<(string, Value)>) {
    var ra := LoadConfigWithKwargs(fields, a);
    var rb := LoadConfigWithKwargs(fields, b);
    LoadConfigWithKwargs(fields, a + b) == (ra.0 + rb.0, ra.1 + rb.1)
  }

  lemma {:induction false} SplitsConcatenateStep(fields: set<string>, a: seq<(string, Value)>, b: seq<(string, Value)>)
    requires a != [] && SplitsConcatenate(fields, a[1..], b)
    ensures SplitsConcatenate(fields, a, b)
  {
    var x, t := a[0], a[1..];
    assert a == [x] + t;
    ConcatAssoc([x], t, b);
    SplitOfCons(fields, x, t);
    SplitOfCons(fields, x, t + b);
    var rt := LoadConfigWithKwargs(fields, t);
    var rb := LoadConfigWithKwargs(fields, b);
    ConcatAssoc([x], rt.0, rb.0);
    ConcatAssoc([x], rt.1, rb.1);
  }

  lemma {:induction false} ConcatAssoc<T>(x: seq<T>, y: seq<T>, z: seq<T>)
    ensures (x + y) + z == x + (y + z)
  {
  }

  lemma {:induction false} SplitOfCons(fields: set<string>, x: (string, Value), t: seq<(string, Value)>)
    ensures var rt := LoadConfigWithKwargs(fields, t);
      LoadConfigWithKwargs(fields, [x] + t) == if x.0 in fields then ([x] + rt.0, rt.1) else (rt.0, [x] + rt.1)
  {
    var s := [x] + t;
    assert s[0] == x && s[1..] == t;
  }
}
