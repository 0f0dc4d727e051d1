/** The part of JSON-schema validation the generated schemas rely on: the keywords
    `type`, `enum`, `const`, the four numeric bounds, `required`, `properties`,
    `prefixItems` and `oneOf`. It is the reference the fields' `_deserialize`
    methods are compared with. A Python value stands for the JSON value it
    serialises to: a bool is a JSON boolean, a tuple a JSON array. */
module JsonSchema {
  import opened PyValues

  /** The value is a JSON number. */
  predicate IsJsonNumber(v: Value) {
    v.PyInt? || v.PyFloat?
  }

  /** The value is an instance of the named JSON type. */
  predicate HasType(t: Value, v: Value) {
    if t == PyStr("string") then v.PyStr?
    else if t == PyStr("integer") then v.PyInt? || (v.PyFloat? && v.f.Floor as real == v.f)
    else if t == PyStr("number") then IsJsonNumber(v)
    else if t == PyStr("null") then v == PyNone
    else if t == PyStr("boolean") then v.PyBool?
    else if t == PyStr("object") then v.PyDict?
    else if t == PyStr("array") then v.PyList? || v.PyTuple?
    else false
  }

  /** The `type` keyword: one type name, or a list of them. */
  predicate TypeOk(t: Option<Value>, v: Value) {
    match t
    case None => true
    case Some(PyList(names)) => exists k :: 0 <= k < |names| && HasType(names[k], v)
    case Some(name) => HasType(name, v)
  }

  /** The `enum` keyword. */
  predicate EnumOk(e: Option<Value>, v: Value) {
    match e
    case None => true
    case Some(PyList(options)) => v in options
    case Some(_) => false
  }

  /** One numeric bound; it constrains numbers only. */
  predicate BoundOk(bound: Option<Value>, v: Value, lower: bool, strict: bool) {
    bound.None? || !IsJsonNumber(v) || !IsJsonNumber(bound.value)
    || (var x := NumOf(v); var m := NumOf(bound.value);
        if lower then (if strict then m < x else m <= x) else (if strict then x < m else x <= m))
  }

  /** The `required` keyword: each listed name is a key of the object. */
  predicate RequiredOk(req: Option<Value>, v: Value) {
    match req
    case None => true
    case Some(PyList(names)) => !v.PyDict? || forall k :: 0 <= k < |names| ==> names[k] in Keys(v.entries)
    case Some(_) => false
  }

  /** The keywords that look at the instance itself, given the value each is set to. */
  predicate KeywordsOk(type_: Option<Value>, enum: Option<Value>, const_: Option<Value>,
                       minimum: Option<Value>, exclusiveMinimum: Option<Value>,
                       maximum: Option<Value>, exclusiveMaximum: Option<Value>,
                       required: Option<Value>, v: Value) {
    && TypeOk(type_, v)
    && EnumOk(enum, v)
    && (const_.Some? ==> v == const_.value)
    && BoundOk(minimum, v, true, false)
    && BoundOk(exclusiveMinimum, v, true, true)
    && BoundOk(maximum, v, false, false)
    && BoundOk(exclusiveMaximum, v, false, true)
    && RequiredOk(required, v)
  }

  /** Those keywords, read from a dict's entries. */
  predicate LocalOk(e: seq<(Value, Value)>, v: Value) {
    KeywordsOk(Lookup(e, PyStr("type")), Lookup(e, PyStr("enum")), Lookup(e, PyStr("const")),
               Lookup(e, PyStr("minimum")), Lookup(e, PyStr("exclusiveMinimum")),
               Lookup(e, PyStr("maximum")), Lookup(e, PyStr("exclusiveMaximum")),
               Lookup(e, PyStr("required")), v)
  }

  /** The instance is valid against the schema. */
  predicate Valid(schema: Value, v: Value)
    decreases schema, 2
  {
    schema.PyDict? && LocalOk(schema.entries, v)
    && PropertiesOk(schema, v) && PrefixItemsOk(schema, v) && OneOfOk(schema, v)
  }

  /** The `properties` keyword: each listed property the object has is valid. */
  predicate PropertiesOk(schema: Value, v: Value)
    requires schema.PyDict?
    decreases schema, 1
  {
    var e := schema.entries;
    forall i :: 0 <= i < |e| && e[i].0 == PyStr("properties") ==>
      e[i].1.PyDict? && forall j :: 0 <= j < |e[i].1.entries| ==>
        (v.PyDict? && Lookup(v.entries, e[i].1.entries[j].0).Some? ==>
           Valid(e[i].1.entries[j].1, Lookup(v.entries, e[i].1.entries[j].0).value))
  }

  /** The `prefixItems` keyword: the leading items of an array are valid. */
  predicate PrefixItemsOk(schema: Value, v: Value)
    requires schema.PyDict?
    decreases schema, 1
  {
    var e := schema.entries;
    forall i :: 0 <= i < |e| && e[i].0 == PyStr("prefixItems") ==>
      e[i].1.PyList? && forall j :: 0 <= j < |e[i].1.items| ==>
        (v.PyList? && j < |v.items| ==> Valid(e[i].1.items[j], v.items[j]))
        && (v.PyTuple? && j < |v.elems| ==> Valid(e[i].1.items[j], v.elems[j]))
  }

  /** The `oneOf` keyword: exactly one alternative is valid. */
  predicate OneOfOk(schema: Value, v: Value)
    requires schema.PyDict?
    decreases schema, 1
  {
    var e := schema.entries;
    forall i :: 0 <= i < |e| && e[i].0 == PyStr("oneOf") ==> e[i].1.PyList? && OneOfAt(schema, i, v)
  }

  /** The alternatives listed in the `i`th entry of the schema: exactly one is valid. */
  predicate OneOfAt(schema: Value, i: int, v: Value)
    requires schema.PyDict? && 0 <= i < |schema.entries| && schema.entries[i].1.PyList?
    decreases schema, 0
  {
    var alts := schema.entries[i].1.items;
    ExactlyOneTrue(seq(|alts|, k requires 0 <= k < |alts| => Valid(alts[k], v)))
  }

  /** Exactly one of the flags is set. */
  predicate ExactlyOneTrue(bs: seq<bool>) {
    exists k :: 0 <= k < |bs| && bs[k] && forall j :: 0 <= j < |bs| && j != k ==> !bs[j]
  }

  // ---------------------------------------------------------------------------
  // Validity of the schema shapes the fields generate

  /** The keyword checks of a dict literal, read through its string keys. */
  predicate FlatValid(e: seq<(string, Value)>, v: Value) {
    KeywordsOk(Get(e, "type"), Get(e, "enum"), Get(e, "const"), Get(e, "minimum"), Get(e, "exclusiveMinimum"),
               Get(e, "maximum"), Get(e, "exclusiveMaximum"), Get(e, "required"), v)
  }

  /** No key of the literal is one of the applicator keywords. */
  predicate NoApplicators(e: seq<(string, Value)>) {
    forall i :: 0 <= i < |e| ==> e[i].0 != "properties" && e[i].0 != "prefixItems" && e[i].0 != "oneOf"
  }

  /** A dict literal without applicators checks only the instance's own keywords. */
  lemma {:induction false} ValidOfFlat(e: seq<(string, Value)>, v: Value)
    requires NoApplicators(e)
    ensures Valid(StrDict(e), v) <==> FlatValid(e, v)
  {
    var d := StrDict(e);
    LocalOfStrDict(e, v);
    NoApplicatorKeys(e);
    PropertiesVacuous(d, v);
    PrefixItemsVacuous(d, v);
    OneOfVacuous(d, v);
  }

  /** A dict literal without applicators, given what each keyword is set to. */
  lemma {:induction false} ValidOfKeywords(e: seq<(string, Value)>, v: Value, type_: Option<Value>, enum: Option<Value>,
                                           const_: Option<Value>, minimum: Option<Value>, exclusiveMinimum: Option<Value>,
                                           maximum: Option<Value>, exclusiveMaximum: Option<Value>, required: Option<Value>)
    requires NoApplicators(e)
    requires Get(e, "type") == type_ && Get(e, "enum") == enum && Get(e, "const") == const_
    requires Get(e, "minimum") == minimum && Get(e, "exclusiveMinimum") == exclusiveMinimum
    requires Get(e, "maximum") == maximum && Get(e, "exclusiveMaximum") == exclusiveMaximum
    requires Get(e, "required") == required
    ensures Valid(StrDict(e), v) <==>
      KeywordsOk(type_, enum, const_, minimum, exclusiveMinimum, maximum, exclusiveMaximum, required, v)
  {
    ValidOfFlat(e, v);
  }

  lemma {:induction false} NoApplicatorKeys(e: seq<(string, Value)>)
    requires NoApplicators(e)
    ensures var d := StrDict(e);
      && (forall i :: 0 <= i < |d.entries| ==> d.entries[i].0 != PyStr("properties"))
      && (forall i :: 0 <= i < |d.entries| ==> d.entries[i].0 != PyStr("prefixItems"))
      && (forall i :: 0 <= i < |d.entries| ==> d.entries[i].0 != PyStr("oneOf"))
  {
    var d := StrDict(e);
    forall i | 0 <= i < |d.entries|
      ensures d.entries[i].0 != PyStr("properties") && d.entries[i].0 != PyStr("prefixItems") && d.entries[i].0 != PyStr("oneOf")
    {
      assert d.entries[i] == (PyStr(e[i].0), e[i].1);
    }
  }

  lemma {:induction false} LocalOfStrDict(e: seq<(string, Value)>, v: Value)
    ensures LocalOk(StrDict(e).entries, v) <==> FlatValid(e, v)
  {
    StrDictLookup(e, "type");
    StrDictLookup(e, "enum");
    StrDictLookup(e, "const");
    StrDictLookup(e, "minimum");
    StrDictLookup(e, "exclusiveMinimum");
    StrDictLookup(e, "maximum");
    StrDictLookup(e, "exclusiveMaximum");
    StrDictLookup(e, "required");
  }

  lemma {:induction false} GetOne(k: string, x: Value, key: string)
    ensures Get([(k, x)], key) == if k == key then Some(x) else None
  {
  }

  lemma {:induction false} GetTwo(k1: string, x1: Value, k2: string, x2: Value, key: string)
    ensures Get([(k1, x1), (k2, x2)], key) == if k1 == key then Some(x1) else if k2 == key then Some(x2) else None
  {
    assert [(k1, x1), (k2, x2)][1..] == [(k2, x2)];
    GetOne(k2, x2, key);
  }

  lemma {:induction false} GetThree(k1: string, x1: Value, k2: string, x2: Value, k3: string, x3: Value, key: string)
    ensures Get([(k1, x1), (k2, x2), (k3, x3)], key) ==
      if k1 == key then Some(x1) else if k2 == key then Some(x2) else if k3 == key then Some(x3) else None
  {
    assert [(k1, x1), (k2, x2), (k3, x3)][1..] == [(k2, x2), (k3, x3)];
    GetTwo(k2, x2, k3, x3, key);
  }

  lemma {:induction false} GetFour(k1: string, x1: Value, k2: string, x2: Value, k3: string, x3: Value, k4: string, x4: Value, key: string)
    ensures Get([(k1, x1), (k2, x2), (k3, x3), (k4, x4)], key) ==
      if k1 == key then Some(x1) else if k2 == key then Some(x2) else if k3 == key then Some(x3)
      else if k4 == key then Some(x4) else None
  {
    assert [(k1, x1), (k2, x2), (k3, x3), (k4, x4)][1..] == [(k2, x2), (k3, x3), (k4, x4)];
    GetThree(k2, x2, k3, x3, k4, x4, key);
  }

  lemma {:induction false} PrefixItemsVacuous(d: Value, v: Value)
    requires d.PyDict? && forall i :: 0 <= i < |d.entries| ==> d.entries[i].0 != PyStr("prefixItems")
    ensures PrefixItemsOk(d, v)
  {
  }

  lemma {:induction false} OneOfVacuous(d: Value, v: Value)
    requires d.PyDict? && forall i :: 0 <= i < |d.entries| ==> d.entries[i].0 != PyStr("oneOf")
    ensures OneOfOk(d, v)
  {
  }

  lemma {:induction false} PropertiesVacuous(d: Value, v: Value)
    requires d.PyDict? && forall i :: 0 <= i < |d.entries| ==> d.entries[i].0 != PyStr("properties")
    ensures PropertiesOk(d, v)
  {
  }

  /** A schema whose only `prefixItems` entry is the list `items`, against a tuple. */
  lemma {:induction false} PrefixItemsOfOne(d: Value, p: int, items: seq<Value>, v: Value)
    requires d.PyDict? && 0 <= p < |d.entries| && d.entries[p] == (PyStr("prefixItems"), PyList(items))
    requires forall i :: 0 <= i < |d.entries| && i != p ==> d.entries[i].0 != PyStr("prefixItems")
    requires v.PyTuple?
    ensures PrefixItemsOk(d, v) <==> forall j :: 0 <= j < |items| && j < |v.elems| ==> Valid(items[j], v.elems[j])
  {
    var e := d.entries;
    if forall j :: 0 <= j < |items| && j < |v.elems| ==> Valid(items[j], v.elems[j]) {
      forall i | 0 <= i < |e| && e[i].0 == PyStr("prefixItems")
        ensures e[i].1.PyList? && forall j :: 0 <= j < |e[i].1.items| && j < |v.elems| ==> Valid(e[i].1.items[j], v.elems[j])
      {
        assert i == p;
      }
      assert PrefixItemsOk(d, v);
    } else {
      var j :| 0 <= j < |items| && j < |v.elems| && !Valid(items[j], v.elems[j]);
      assert e[p].1.items[j] == items[j];
      assert !PrefixItemsOk(d, v);
    }
  }

  /** A schema whose only `properties` entry lists the single property `name`. */
  lemma {:induction false} PropertiesOfOne(d: Value, p: int, name: string, sub: Value, v: Value)
    requires d.PyDict? && 0 <= p < |d.entries| && d.entries[p] == (PyStr("properties"), StrDict([(name, sub)]))
    requires forall i :: 0 <= i < |d.entries| && i != p ==> d.entries[i].0 != PyStr("properties")
    ensures PropertiesOk(d, v) <==>
      (v.PyDict? && Lookup(v.entries, PyStr(name)).Some? ==> Valid(sub, Lookup(v.entries, PyStr(name)).value))
  {
    var e := d.entries;
    assert e[p].1.entries == [(PyStr(name), sub)];
    if v.PyDict? && Lookup(v.entries, PyStr(name)).Some? ==> Valid(sub, Lookup(v.entries, PyStr(name)).value) {
      forall i | 0 <= i < |e| && e[i].0 == PyStr("properties")
        ensures e[i].1.PyDict? && forall j :: 0 <= j < |e[i].1.entries| ==>
          (v.PyDict? && Lookup(v.entries, e[i].1.entries[j].0).Some? ==>
             Valid(e[i].1.entries[j].1, Lookup(v.entries, e[i].1.entries[j].0).value))
      {
        assert i == p;
      }
      assert PropertiesOk(d, v);
    } else {
      assert e[p].1.entries[0] == (PyStr(name), sub);
      assert !PropertiesOk(d, v);
    }
  }

  lemma {:induction false} KeywordsOfTypeEnum(t: Value, options: seq<Value>, v: Value)
    ensures KeywordsOk(Some(t), Some(PyList(options)), None, None, None, None, None, None, v) <==> TypeOk(Some(t), v) && v in options
  {
  }

  /** `{"type": t}`. */
  lemma {:induction false} ValidOfType(t: string, v: Value)
    ensures Valid(StrDict([("type", PyStr(t))]), v) <==> HasType(PyStr(t), v)
  {
    TypeKeys(t);
    ValidOfKeywords([("type", PyStr(t))], v, Some(PyStr(t)), None, None, None, None, None, None, None);
  }

  lemma {:induction false} TypeKeys(t: string)
    ensures var e := [("type", PyStr(t))];
      && NoApplicators(e)
      && Get(e, "type") == Some(PyStr(t)) && Get(e, "enum") == None && Get(e, "const") == None
      && Get(e, "minimum") == None && Get(e, "exclusiveMinimum") == None && Get(e, "maximum") == None
      && Get(e, "exclusiveMaximum") == None && Get(e, "required") == None
  {
    GetOne("type", PyStr(t), "type");
    GetOne("type", PyStr(t), "enum");
    GetOne("type", PyStr(t), "const");
    GetOne("type", PyStr(t), "minimum");
    GetOne("type", PyStr(t), "exclusiveMinimum");
    GetOne("type", PyStr(t), "maximum");
    GetOne("type", PyStr(t), "exclusiveMaximum");
    GetOne("type", PyStr(t), "required");
  }

  /** A schema equal to `{"type": t}`, read through the `type` keyword. */
  lemma {:induction false} TypeAltValid(alt: Value, t: string, v: Value)
    requires alt == StrDict([("type", PyStr(t))])
    ensures Valid(alt, v) <==> TypeOk(Some(PyStr(t)), v)
  {
    ValidOfType(t, v);
  }

  lemma {:induction false} StringType(v: Value)
    ensures TypeOk(Some(PyStr("string")), v) <==> v.PyStr?
  {
  }

  lemma {:induction false} NullType(v: Value)
    ensures TypeOk(Some(PyStr("null")), v) <==> v == PyNone
  {
  }

  lemma {:induction false} ObjectType(v: Value)
    ensures TypeOk(Some(PyStr("object")), v) <==> v.PyDict?
  {
  }

  /** `"required": [name]`. */
  lemma {:induction false} RequiredOne(name: Value, v: Value)
    ensures RequiredOk(Some(PyList([name])), v) <==> !v.PyDict? || name in Keys(v.entries)
  {
    assert [name][0] == name;
  }

  lemma {:induction false} IntegerType(v: Value)
    ensures TypeOk(Some(PyStr("integer")), v) <==> v.PyInt? || (v.PyFloat? && v.f.Floor as real == v.f)
  {
  }

  /** `{"type": t, "enum": options}`. */
  lemma {:induction false} ValidOfEnum(t: Value, options: seq<Value>, v: Value)
    ensures Valid(StrDict([("type", t), ("enum", PyList(options))]), v) <==> TypeOk(Some(t), v) && v in options
  {
    EnumKeys(t, PyList(options));
    ValidOfFlat([("type", t), ("enum", PyList(options))], v);
    KeywordsOfTypeEnum(t, options, v);
  }

  lemma {:induction false} EnumKeys(t: Value, en: Value)
    ensures var e := [("type", t), ("enum", en)];
      && NoApplicators(e)
      && Get(e, "type") == Some(t) && Get(e, "enum") == Some(en) && Get(e, "const") == None
      && Get(e, "minimum") == None && Get(e, "exclusiveMinimum") == None && Get(e, "maximum") == None
      && Get(e, "exclusiveMaximum") == None && Get(e, "required") == None
  {
    GetTwo("type", t, "enum", en, "type");
    GetTwo("type", t, "enum", en, "enum");
    GetTwo("type", t, "enum", en, "const");
    GetTwo("type", t, "enum", en, "minimum");
    GetTwo("type", t, "enum", en, "exclusiveMinimum");
    GetTwo("type", t, "enum", en, "maximum");
    GetTwo("type", t, "enum", en, "exclusiveMaximum");
    GetTwo("type", t, "enum", en, "required");
  }

  /** Whether the instance is valid against each alternative. */
  function Validities(alts: seq<Value>, v: Value): (bs: seq<bool>)
    ensures |bs| == |alts| && forall k :: 0 <= k < |alts| ==> bs[k] == Valid(alts[k], v)
  {
    seq(|alts|, k requires 0 <= k < |alts| => Valid(alts[k], v))
  }

  lemma {:induction false} ValiditiesOfThree(alts: seq<Value>, v: Value)
    requires |alts| == 3
    ensures Validities(alts, v) == [Valid(alts[0], v), Valid(alts[1], v), Valid(alts[2], v)]
  {
  }

  lemma {:induction false} ValiditiesOfTwo(alts: seq<Value>, v: Value)
    requires |alts| == 2
    ensures Validities(alts, v) == [Valid(alts[0], v), Valid(alts[1], v)]
  {
  }

  lemma {:induction false} ExactlyOneOfTwo(a: bool, b: bool)
    ensures ExactlyOneTrue([a, b]) <==> a != b
  {
    if a && !b { assert [a, b][0]; }
    if !a && b { assert [a, b][1]; }
    if ExactlyOneTrue([a, b]) {
      var bs := [a, b];
      var k :| 0 <= k < |bs| && bs[k] && forall j :: 0 <= j < |bs| && j != k ==> !bs[j];
      assert !bs[1 - k];
    }
  }

  lemma {:induction false} ExactlyOneOfThree(a: bool, b: bool, c: bool)
    ensures ExactlyOneTrue([a, b, c]) <==> (a && !b && !c) || (!a && b && !c) || (!a && !b && c)
  {
    if a && !b && !c { assert [a, b, c][0]; }
    if !a && b && !c { assert [a, b, c][1]; }
    if !a && !b && c { assert [a, b, c][2]; }
    if ExactlyOneTrue([a, b, c]) {
      var bs := [a, b, c];
      var k :| 0 <= k < |bs| && bs[k] && forall j :: 0 <= j < |bs| && j != k ==> !bs[j];
      if k == 0 {
        assert !bs[1] && !bs[2];
      } else if k == 1 {
        assert !bs[0] && !bs[2];
      } else {
        assert !bs[0] && !bs[1];
      }
    }
  }

  /** `{"oneOf": alts}`. */
  lemma {:induction false} ValidOfOneOf(alts: seq<Value>, v: Value)
    ensures Valid(StrDict([("oneOf", PyList(alts))]), v) <==> ExactlyOneTrue(Validities(alts, v))
  {
    assert StrDict([("oneOf", PyList(alts))]) == PyDict([(PyStr("oneOf"), PyList(alts))]);
    ValidOfOneOfDict(PyDict([(PyStr("oneOf"), PyList(alts))]), alts, v);
  }

  lemma {:induction false} ValidOfOneOfDict(d: Value, alts: seq<Value>, v: Value)
    requires d == PyDict([(PyStr("oneOf"), PyList(alts))])
    ensures Valid(d, v) <==> ExactlyOneTrue(Validities(alts, v))
  {
    LocalOfOneOf(PyList(alts), v);
    NoPropertiesInOneOf(d, alts, v);
    OneOfOfSingle(d, alts, v);
  }

  lemma {:induction false} LocalOfOneOf(x: Value, v: Value)
    ensures LocalOk([(PyStr("oneOf"), x)], v)
  {
    var e := [(PyStr("oneOf"), x)];
    assert Lookup(e, PyStr("type")) == None;
    assert Lookup(e, PyStr("enum")) == None;
    assert Lookup(e, PyStr("const")) == None;
    assert Lookup(e, PyStr("minimum")) == None;
    assert Lookup(e, PyStr("exclusiveMinimum")) == None;
    assert Lookup(e, PyStr("maximum")) == None;
    assert Lookup(e, PyStr("exclusiveMaximum")) == None;
    assert Lookup(e, PyStr("required")) == None;
  }

  lemma {:induction false} NoPropertiesInOneOf(d: Value, alts: seq<Value>, v: Value)
    requires d == PyDict([(PyStr("oneOf"), PyList(alts))])
    ensures PropertiesOk(d, v) && PrefixItemsOk(d, v)
  {
  }

  lemma {:induction false} OneOfOfSingle(d: Value, alts: seq<Value>, v: Value)
    requires d == PyDict([(PyStr("oneOf"), PyList(alts))])
    ensures OneOfOk(d, v) <==> ExactlyOneTrue(Validities(alts, v))
  {
    var e := d.entries;
    assert |e| == 1 && e[0].0 == PyStr("oneOf") && e[0].1 == PyList(alts);
    if OneOfAt(d, 0, v) {
      forall i | 0 <= i < |e| && e[i].0 == PyStr("oneOf") ensures e[i].1.PyList? && OneOfAt(d, i, v) {
        assert i == 0;
      }
    }
    assert Validities(alts, v) == seq(|alts|, k requires 0 <= k < |alts| => Valid(alts[k], v));
  }
}
