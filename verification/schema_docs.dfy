/** The description pass of `get_custom_schema_from_marshmallow_class`: the
    attribute documentation of a config class and of its parents is merged, each
    schema property gets its cleaned description (with the `(default: ...)` part
    split off and put back), and the dumped schema is opened to extra properties.
    The parsed pytkdocs documents are inputs; reading them from disk is not modelled. */
module SchemaDocs {
  import opened PyValues
  import opened Strings
  import opened CommentCleanup

  /** One documented attribute of a class: its docstring, if it has one. */
  datatype AttrDoc = AttrDoc(docstring: Option<string>)

  /** The parsed documentation of a class: its docstring, the dotted paths listed
      under "attributes" and the "children" documents keyed by those paths. */
  datatype ClassDoc = ClassDoc(docstring: Option<string>, attributes: seq<string>, children: map<string, AttrDoc>)

  /** One parameter of an optimizer's Google-style docstring. */
  datatype TorchParam = TorchParam(name: string, description: Option<string>)

  /** The parsed documentation of an optimizer class: its docstring sections, each
      given by the parameters it lists. */
  datatype TorchDoc = TorchDoc(sections: seq<seq<TorchParam>>)

  /** The key an attribute path is filed under: the text after its last dot. */
  function AttrName(path: string): string {
    LastPiece(path, '.')
  }

  /** All listed attributes have a child document. */
  predicate AllDocumented(doc: ClassDoc) {
    forall i :: 0 <= i < |doc.attributes| ==> doc.attributes[i] in doc.children
  }

  /** `get_attrs_dict(cls)`: each listed attribute's child document under its short
      name; a later attribute with the same short name replaces an earlier one, and
      a listed attribute without a child raises KeyError. */
  function AttrsDict(doc: ClassDoc): (r: Result<map<string, AttrDoc>>)
    ensures r.Ok? <==> AllDocumented(doc)
    ensures r.Err? ==> r.error == KeyError
  {
    if AllDocumented(doc) then Ok(AttrsOf(doc.attributes, doc.children)) else Err(KeyError)
  }

  /** The dict comprehension over the listed paths, evaluated left to right. */
  function AttrsOf(paths: seq<string>, children: map<string, AttrDoc>): (m: map<string, AttrDoc>)
    requires forall i :: 0 <= i < |paths| ==> paths[i] in children
    ensures forall k :: k in m <==> exists i :: 0 <= i < |paths| && AttrName(paths[i]) == k
  {
    if paths == [] then map[]
    else
      var last := paths[|paths| - 1];
      var m := AttrsOf(paths[..|paths| - 1], children)[AttrName(last) := children[last]];
      assert forall i :: 0 <= i < |paths| - 1 ==> paths[..|paths| - 1][i] == paths[i];
      m
  }

  /** A short name is filed with the document of the last path that has it. */
  lemma {:induction false} AttrsOfLastWins(paths: seq<string>, children: map<string, AttrDoc>, i: int)
    requires forall k :: 0 <= k < |paths| ==> paths[k] in children
    requires 0 <= i < |paths|
    requires forall j :: i < j < |paths| ==> AttrName(paths[j]) != AttrName(paths[i])
    ensures AttrsOf(paths, children)[AttrName(paths[i])] == children[paths[i]]
    decreases |paths|
  {
    if i < |paths| - 1 {
      var front := paths[..|paths| - 1];
      assert front[i] == paths[i];
      AttrsOfLastWins(front, children, i);
    }
  }

  /** `get_torch_attrs_dict(cls)`: the parameters of the second docstring section
      keyed by name (a later one replaces an earlier one); IndexError when the
      docstring has fewer than two sections. */
  function TorchAttrsDict(doc: TorchDoc): (r: Result<map<string, TorchParam>>)
    ensures r.Err? <==> |doc.sections| < 2
    ensures r.Err? ==> r.error == IndexError
    ensures r.Ok? ==> forall name :: name in r.value <==>
      exists k :: 0 <= k < |doc.sections[1]| && doc.sections[1][k].name == name
  {
    if |doc.sections| < 2 then Err(IndexError) else Ok(ParamsByName(doc.sections[1]))
  }

  function ParamsByName(ps: seq<TorchParam>): (m: map<string, TorchParam>)
    ensures forall name :: name in m <==> exists k :: 0 <= k < |ps| && ps[k].name == name
    ensures forall name :: name in m ==> m[name].name == name
  {
    if ps == [] then map[]
    else
      var m := ParamsByName(ps[..|ps| - 1])[ps[|ps| - 1].name := ps[|ps| - 1]];
      assert forall k :: 0 <= k < |ps| - 1 ==> ps[..|ps| - 1][k] == ps[k];
      m
  }

  /** A parameter no later one shares a name with is the one filed under its name. */
  lemma {:induction false} ParamsByNameLastWins(ps: seq<TorchParam>, i: int)
    requires 0 <= i < |ps|
    requires forall j :: i < j < |ps| ==> ps[j].name != ps[i].name
    ensures ParamsByName(ps)[ps[i].name] == ps[i]
    decreases |ps|
  {
    if i < |ps| - 1 {
      var front := ps[..|ps| - 1];
      assert front[i] == ps[i];
      ParamsByNameLastWins(front, i);
    }
  }

  // ---------------------------------------------------------------------------
  // Merging the attribute documents of a class and its parents

  /** The parents' attributes merged in order, `{**merged, **attrs}` for each parent. */
  function ParentAttrs(parents: seq<ClassDoc>): (r: Result<map<string, AttrDoc>>)
    ensures r.Ok? <==> forall i :: 0 <= i < |parents| ==> AllDocumented(parents[i])
    ensures r.Err? ==> r.error == KeyError
  {
    if parents == [] then Ok(map[])
    else
      var front := ParentAttrs(parents[..|parents| - 1]);
      var last := AttrsDict(parents[|parents| - 1]);
      assert forall i :: 0 <= i < |parents| - 1 ==> parents[..|parents| - 1][i] == parents[i];
      if front.Err? then front
      else if last.Err? then Err(last.error)
      else Ok(front.value + last.value)
  }

  /** `{**parsed_parent_attrs, **parsed_attrs}`: the class's own attributes over
      those of its parents. */
  function MergedAttrs(doc: ClassDoc, parents: seq<ClassDoc>): Result<map<string, AttrDoc>> {
    var own := AttrsDict(doc);
    if own.Err? then own
    else
      var inherited := ParentAttrs(parents);
      if inherited.Err? then inherited else Ok(inherited.value + own.value)
  }

  /** The merge loop of `generate_extra_json_schema_props`: the class's attributes
      first, then each parent's, accumulated into one dict. */
  method MergeAttrs(doc: ClassDoc, parents: seq<ClassDoc>) returns (r: Result<map<string, AttrDoc>>)
    ensures r == MergedAttrs(doc, parents)
  {
    var parsedAttrs := AttrsDict(doc);
    if parsedAttrs.Err? {
      return parsedAttrs;
    }
    var parsedParentAttrs: map<string, AttrDoc> := map[];
    var i := 0;
    while i < |parents|
      invariant 0 <= i <= |parents|
      invariant ParentAttrs(parents[..i]) == Ok(parsedParentAttrs)
    {
      assert parents[..i + 1][..i] == parents[..i];
      var attrs := AttrsDict(parents[i]);
      if attrs.Err? {
        assert !AllDocumented(parents[..i + 1][i]);
        PrefixErrs(parents, i + 1);
        return Err(attrs.error);
      }
      parsedParentAttrs := parsedParentAttrs + attrs.value;
      i := i + 1;
    }
    assert parents[..i] == parents;
    return Ok(parsedParentAttrs + parsedAttrs.value);
  }

  /** A parent whose attributes cannot be read makes the whole merge fail. */
  lemma {:induction false} PrefixErrs(parents: seq<ClassDoc>, n: int)
    requires 0 <= n <= |parents| && ParentAttrs(parents[..n]).Err?
    ensures ParentAttrs(parents).Err?
  {
    var k :| 0 <= k < n && !AllDocumented(parents[..n][k]);
    assert parents[k] == parents[..n][k];
  }

  /** In the merged documents a name the class documents itself keeps the class's
      document, and a name only parents document keeps the last such parent's. */
  lemma {:induction false} MergedAttrsPrecedence(doc: ClassDoc, parents: seq<ClassDoc>, name: string)
    requires MergedAttrs(doc, parents).Ok?
    ensures var m := MergedAttrs(doc, parents).value;
      var own := AttrsDict(doc).value;
      && (name in own ==> name in m && m[name] == own[name])
      && (name !in own ==> ParentAttrs(parents).Ok? && (name in m <==> name in ParentAttrs(parents).value))
      && (name !in own && name in m ==> m[name] == ParentAttrs(parents).value[name])
  {
  }

  /** Among the parents, the last one documenting a name supplies its document. */
  lemma {:induction false} ParentAttrsLastWins(parents: seq<ClassDoc>, i: int, name: string)
    requires ParentAttrs(parents).Ok? && 0 <= i < |parents|
    requires name in AttrsDict(parents[i]).value
    requires forall j :: i < j < |parents| ==> name !in AttrsDict(parents[j]).value
    ensures name in ParentAttrs(parents).value
    ensures ParentAttrs(parents).value[name] == AttrsDict(parents[i]).value[name]
    decreases |parents|
  {
    var front := parents[..|parents| - 1];
    assert forall k :: 0 <= k < |parents| - 1 ==> front[k] == parents[k];
    if i < |parents| - 1 {
      ParentAttrsLastWins(front, i, name);
    }
  }

  // ---------------------------------------------------------------------------
  // One property's description

  const DefaultMarker: string := "(default: "

  /** The description and default a docstring splits into: the default only when
      the docstring splits into exactly two parts at the marker. */
  function SplitDefault(docstring: string): (r: (string, Option<string>))
    ensures r.0 == Split(docstring, DefaultMarker)[0]
    ensures r.1.Some? <==> |Split(docstring, DefaultMarker)| == 2
  {
    var parts := Split(docstring, DefaultMarker);
    (parts[0], if |parts| == 2 then Some(parts[1]) else None)
  }

  /** The description of the property `prop`, whose attribute docstring is
      `docstring`, with `torch` the optimizer's parameter documents if the class
      names an optimizer. When the class's description is empty the optimizer's
      is used instead: the guard at the fallback always holds once the optimizer
      documents `prop`, so an optimizer parameter without a description makes
      `.split` fail with AttributeError. */
  function PropDescription(docstring: Option<string>, torch: Option<map<string, TorchParam>>, prop: string): (r: Result<string>)
    ensures r.Err? <==>
      (SplitDefault(if docstring.None? then "" else docstring.value).0 == ""
       && torch.Some? && prop in torch.value && torch.value[prop].description.None?)
    ensures r.Err? ==> r.error == AttributeError
    ensures r.Ok? ==> r.value == "" || WellFormedDescription(r.value)
  {
    var parsed := SplitDefault(if docstring.None? then "" else docstring.value);
    var desc := parsed.0;
    if desc == "" && torch.Some? && prop in torch.value then
      match torch.value[prop].description
      case None => Err(AttributeError)
      case Some(td) =>
        var fallback := SplitDefault(td);
        var default := if parsed.1.None? && fallback.1.Some? then fallback.1 else parsed.1;
        Ok(Reattached(CleanedComment(Some(fallback.0)), default))
    else Ok(Reattached(desc, parsed.1))
  }

  /** The description with the default put back after the marker, then cleaned. */
  function Reattached(desc: string, default: Option<string>): (r: string)
    ensures r == "" || WellFormedDescription(r)
  {
    CleanedComment(Some(if default.Some? then desc + DefaultMarker + default.value else desc))
  }

  /** With a description of its own and the marker at most once, the property's
      description is its whole docstring cleaned: splitting off the default and
      putting it back loses nothing. */
  lemma {:induction false} PropDescriptionKeepsDocstring(docstring: string, torch: Option<map<string, TorchParam>>, prop: string)
    requires |Split(docstring, DefaultMarker)| <= 2
    requires Split(docstring, DefaultMarker)[0] != "" || torch.None? || prop !in torch.value
    ensures PropDescription(Some(docstring), torch, prop) == Ok(CleanedComment(Some(docstring)))
  {
    var parts := Split(docstring, DefaultMarker);
    JoinSplit(docstring, DefaultMarker);
    if |parts| == 2 {
      assert Join(parts, DefaultMarker) == parts[0] + DefaultMarker + parts[1];
    }
  }

  /** With the marker twice or more, only the text before the first one is kept. */
  lemma {:induction false} PropDescriptionDropsLaterParts(docstring: string, torch: Option<map<string, TorchParam>>, prop: string)
    requires |Split(docstring, DefaultMarker)| > 2
    requires Split(docstring, DefaultMarker)[0] != "" || torch.None? || prop !in torch.value
    ensures PropDescription(Some(docstring), torch, prop) == Ok(CleanedComment(Some(Split(docstring, DefaultMarker)[0])))
  {
  }

  /** With no description of its own, the optimizer's cleaned description is used,
      and the class's own default wins over the optimizer's. */
  lemma {:induction false} PropDescriptionFallsBack(docstring: Option<string>, torch: map<string, TorchParam>, prop: string, td: string)
    requires SplitDefault(if docstring.None? then "" else docstring.value).0 == ""
    requires prop in torch && torch[prop].description == Some(td)
    ensures var own := SplitDefault(if docstring.None? then "" else docstring.value).1;
      var fallback := SplitDefault(td);
      PropDescription(docstring, Some(torch), prop) ==
        Ok(Reattached(CleanedComment(Some(fallback.0)), if own.Some? then own else fallback.1))
  {
  }

  // ---------------------------------------------------------------------------
  // The property loop and the whole pass

  /** The descriptions of the listed properties, in order, written into `descs`;
      the first failing property stops the pass. */
  function DescribeProps(props: seq<string>, attrs: map<string, AttrDoc>, torch: Option<map<string, TorchParam>>,
                         descs: map<string, string>): Result<map<string, string>>
  {
    if props == [] then Ok(descs)
    else if props[0] !in attrs then DescribeProps(props[1..], attrs, torch, descs)
    else
      var d := PropDescription(attrs[props[0]].docstring, torch, props[0]);
      if d.Err? then Err(d.error) else DescribeProps(props[1..], attrs, torch, descs[props[0] := d.value])
  }

  /** Every documented property receives its description and every other property
      keeps the one it had. */
  lemma {:induction false} DescribePropsWrites(props: seq<string>, attrs: map<string, AttrDoc>,
                                              torch: Option<map<string, TorchParam>>, descs: map<string, string>, name: string)
    requires DescribeProps(props, attrs, torch, descs).Ok?
    ensures var m := DescribeProps(props, attrs, torch, descs).value;
      && (name in props && name in attrs ==>
            PropDescription(attrs[name].docstring, torch, name).Ok?
            && name in m && m[name] == PropDescription(attrs[name].docstring, torch, name).value)
      && (!(name in props && name in attrs) ==> (name in m <==> name in descs) && (name in descs ==> m[name] == descs[name]))
    decreases |props|
  {
    if props != [] {
      var rest := props[1..];
      assert name in props <==> name == props[0] || name in rest;
      if props[0] !in attrs {
        DescribePropsWrites(rest, attrs, torch, descs, name);
      } else {
        var d := PropDescription(attrs[props[0]].docstring, torch, props[0]);
        DescribePropsWrites(rest, attrs, torch, descs[props[0] := d.value], name);
      }
    }
  }

  /** The JSON schema marshmallow dumps for a config class, as far as the pass
      touches it: its description, its properties in order with their
      descriptions, and `additionalProperties`. */
  class SchemaDump {
    var description: Option<string>
    var properties: seq<string>
    var descriptions: map<string, string>
    var additionalProperties: Option<bool>

    constructor (properties: seq<string>, descriptions: map<string, string>)
      ensures this.description == None && this.properties == properties
      ensures this.descriptions == descriptions && this.additionalProperties == None
    {
      this.description := None;
      this.properties := properties;
      this.descriptions := descriptions;
      this.additionalProperties := None;
    }

    /** The loop over the dumped properties: each one the attribute documents
        describe gets its description, and the first failing one stops the loop. */
    method DescribeAll(attrs: map<string, AttrDoc>, torch: Option<map<string, TorchParam>>) returns (r: Result<()>)
      modifies this
      ensures properties == old(properties) && description == old(description)
      ensures additionalProperties == old(additionalProperties)
      ensures r.Ok? <==> DescribeProps(old(properties), attrs, torch, old(descriptions)).Ok?
      ensures r.Ok? ==> descriptions == DescribeProps(old(properties), attrs, torch, old(descriptions)).value
      ensures r.Err? ==> r.error == DescribeProps(old(properties), attrs, torch, old(descriptions)).error
    {
      var i := 0;
      while i < |properties|
        invariant 0 <= i <= |properties| && properties == old(properties)
        invariant description == old(description) && additionalProperties == old(additionalProperties)
        invariant DescribeProps(properties, attrs, torch, old(descriptions))
               == DescribeProps(properties[i..], attrs, torch, descriptions)
      {
        var prop := properties[i];
        assert properties[i..][0] == prop && properties[i..][1..] == properties[i + 1..];
        if prop in attrs {
          var d := PropDescription(attrs[prop].docstring, torch, prop);
          if d.Err? {
            return Err(d.error);
          }
          descriptions := descriptions[prop := d.value];
        }
        i := i + 1;
      }
      assert properties[i..] == [];
      return Ok(());
    }

    /** `generate_extra_json_schema_props`: when the class has a docstring, the
        documentation `doc` of the class, `parents` of its bases and `torch` of its
        optimizer (if any) describe the schema and its properties; in every case
        that returns, extra properties are allowed. */
    method GenerateExtraJsonSchemaProps(hasDocstring: bool, doc: ClassDoc, parents: seq<ClassDoc>, torch: Option<TorchDoc>)
      returns (r: Result<()>)
      modifies this
      ensures properties == old(properties)
      ensures r.Ok? <==> !hasDocstring || ExtraProps(doc, parents, torch, old(properties), old(descriptions)).Ok?
      ensures r.Ok? ==> additionalProperties == Some(true)
      ensures r.Ok? && !hasDocstring ==> description == old(description) && descriptions == old(descriptions)
      ensures r.Ok? && hasDocstring ==>
        && description == (if doc.docstring.Some? then Some(CleanedComment(doc.docstring)) else old(description))
        && descriptions == ExtraProps(doc, parents, torch, old(properties), old(descriptions)).value
      ensures r.Err? ==> r.error == ExtraProps(doc, parents, torch, old(properties), old(descriptions)).error
    {
      if hasDocstring {
        if doc.docstring.Some? {
          var cleaned := CleanupPythonComment(doc.docstring);
          description := Some(cleaned);
        }
        var parsedAttrs := MergeAttrs(doc, parents);
        if parsedAttrs.Err? {
          return Err(parsedAttrs.error);
        }
        var parsedTorch: Option<map<string, TorchParam>> := None;
        if torch.Some? {
          var t := TorchAttrsDict(torch.value);
          if t.Err? {
            return Err(t.error);
          }
          parsedTorch := Some(t.value);
        }
        var described := DescribeAll(parsedAttrs.value, parsedTorch);
        if described.Err? {
          return described;
        }
      }
      additionalProperties := Some(true);
      return Ok(());
    }
  }

  /** The property descriptions the pass writes, or the error that stops it. */
  function ExtraProps(doc: ClassDoc, parents: seq<ClassDoc>, torch: Option<TorchDoc>,
                      props: seq<string>, descs: map<string, string>): Result<map<string, string>>
  {
    var attrs := MergedAttrs(doc, parents);
    if attrs.Err? then Err(attrs.error)
    else if torch.Some? && TorchAttrsDict(torch.value).Err? then Err(TorchAttrsDict(torch.value).error)
    else
      var parsedTorch := if torch.Some? then Some(TorchAttrsDict(torch.value).value) else None;
      DescribeProps(props, attrs.value, parsedTorch, descs)
  }
}
