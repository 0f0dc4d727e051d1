# Ludwig configuration-schema utilities and TensorFlow helpers, modelled in Dafny

This project models two parts of Ludwig.

The first is the marshmallow schema layer in
`ludwig/marshmallow/marshmallow_schema_utils.py`. It covers:

- the configuration-field builders (`StringOptions`, `PositiveInteger`,
  `NonNegativeInteger`, `IntegerRange`, `NonNegativeFloat`, `FloatRange`,
  `Dict`, `DictList`, `Embed`, `InitializerOrDict`,
  `FloatRangeTupleDataclassField`, `NumericOrStringOptionsField` and
  `IntegerOrStringOptionsField`), each of which checks its default before it
  returns a field descriptor;
- the custom fields' `_deserialize` acceptance rules and the JSON schemas their
  `_jsonschema_type_mapping` methods emit;
- the documentation pass of `get_custom_schema_from_marshmallow_class`: the
  comment normaliser `cleanup_python_comment`, the attribute-doc dictionaries,
  the parents-then-class merge and the `"(default: "` split-and-reattach with
  its fallback to the optimizer's docs;
- `create_cond` and `load_config_with_kwargs`.

The second is the helpers in `ludwig/utils/tf_utils.py`. It covers:

- the write-once initialisation gate of `initialize_tensorflow` on the module
  global `_TF_INIT_PARAMS`, with its thread counts and its normalisation of the
  `gpus` argument;
- `_set_tf_init_params`;
- the tensor helpers `sequence_length_2D`, `sequence_length_3D` and `to_sparse`,
  over integer tensors;
- `get_available_gpus_cuda_string`.

Modules, one per file:

| module | file | contents |
|---|---|---|
| `PyValues` | `values.dfy` | Python values as a datatype (a `bool` is also an `int`), `Result`/`ErrorKind` for raised exceptions, and `ListObject`, a list several owners share and mutate. |
| `Strings` | `strings.dfy` | `str.strip`, `str.split`, `str.join` and `int()` on strings, with their round trips. |
| `CommentCleanup` | `comment.dfy` | `cleanup_python_comment`, one function per rewrite, plus the shape its output always has. |
| `JsonSchema` | `jsonschema.dfy` | A validator for the JSON-Schema keywords the emitted schemas use (`type`, `enum`, `const`, bounds, `required`, `properties`, `prefixItems`, `oneOf`). It is the independent reference each `_deserialize` rule is compared with. |
| `SchemaFields` | `fields.dfy` | The field builders, the custom fields' `_deserialize` and schema mappings, `create_cond` and `load_config_with_kwargs`. |
| `SchemaDocs` | `schema_docs.dfy` | `get_attrs_dict`, `get_torch_attrs_dict` and `generate_extra_json_schema_props`. |
| `TfInit` | `tf_init.dfy` | `initialize_tensorflow`, `_set_tf_init_params` and `get_available_gpus_cuda_string`. |
| `TfSequences` | `tf_sequences.dfy` | `sequence_length_2D`, `sequence_length_3D` and `to_sparse`. |

Code that updates state in place is modelled as imperative Dafny:

- `StringOptions` appends `None` to the caller's list.
- The numeric-or-string schema mapping removes `None` from the field's options list.
- The attribute merge loop accumulates a dictionary.
- The property loop writes descriptions into the dumped schema.
- `cleanup_python_comment` rewrites its string step by step.
- `initialize_tensorflow` writes the module global.

Each such method's `ensures` ties its result and new state to a specification
function. The lemmas state the source's promises about that function.

## Model

| member | source | states |
|---|---|---|
| `PyValues.ListObject.Append` | ludwig/marshmallow/marshmallow_schema_utils.py:259 | `options += [None]` extends the shared list in place by exactly that element. |
| `PyValues.ListObject.Remove` | ludwig/marshmallow/marshmallow_schema_utils.py:573-574 | `list.remove` drops the first occurrence and succeeds exactly when the value is present; otherwise it is a ValueError and the list is unchanged. |
| `PyValues.RemoveFirst` | ludwig/marshmallow/marshmallow_schema_utils.py:574 | The result is the list with one position `i` cut out, where `i` holds the value and no earlier position does; the values before and after keep their order. It is one shorter and has one copy fewer of the value. |
| `PyValues.RemoveFirstKeepsOthers` | ludwig/marshmallow/marshmallow_schema_utils.py:574 | Removing `None` leaves the membership of every other option unchanged. |
| `SchemaFields.StringOptionsSpec` | ludwig/marshmallow/marshmallow_schema_utils.py:251-271 | Raises exactly for empty options, a non-None non-string default, or a default missing from the final options. `None` is appended exactly when nullable, the first two checks passed and `None` was absent, so it is never present twice. On success the default is among the options and the field admits it. |
| `SchemaFields.StringOptions` | ludwig/marshmallow/marshmallow_schema_utils.py:251-271 | The result, and the caller's list as the call leaves it, are those of `StringOptionsSpec` on the list as passed. |
| `SchemaFields.RegistryOptions` | ludwig/marshmallow/marshmallow_schema_utils.py:235-243 | `InitializerOptions`/`ReductionOptions` over a registry's keys, given as values because the initializer registry holds None as a key. They succeed exactly when the registry is non-empty and the default is None or a string key. The field then allows `None` and offers every key. |
| `SchemaFields.RegularizerOptions` | ludwig/marshmallow/marshmallow_schema_utils.py:247-248 | Succeeds exactly when the default is `"l1"`, `"l2"` or `"l1_l2"`, or is None while the field is nullable. |
| `SchemaFields.PositiveInteger` | ludwig/marshmallow/marshmallow_schema_utils.py:274-287 | Accepts a default exactly when it is None or an int ≥ 1. The field allows None exactly when the default is None. |
| `SchemaFields.NonNegativeInteger` | ludwig/marshmallow/marshmallow_schema_utils.py:290-303 | Accepts a default exactly when it is None or an int ≥ 0. The field allows None exactly when the default is None. |
| `SchemaFields.IntegerRange` | ludwig/marshmallow/marshmallow_schema_utils.py:306-319 | Accepts a default exactly when it is None or an int inside the range. The field carries the range, allows None exactly when the default is None, and admits its default. A rejected default is a ValidationError. |
| `SchemaFields.NonNegativeFloat` | ludwig/marshmallow/marshmallow_schema_utils.py:322-333 | Accepts a default exactly when it is None or a number ≥ 0. |
| `SchemaFields.FloatRange` | ludwig/marshmallow/marshmallow_schema_utils.py:336-347 | Accepts a default exactly when it is None or a number inside the range. The field carries the range and admits its default. |
| `SchemaFields.Dict` | ludwig/marshmallow/marshmallow_schema_utils.py:350-360 | Accepts a default exactly when it is None or a dict whose keys are all strings. |
| `SchemaFields.DictList` | ludwig/marshmallow/marshmallow_schema_utils.py:363-376 | Accepts a default exactly when it is None or a list each of whose items is such a dict. |
| `SchemaFields.EmbedDeserialize` | ludwig/marshmallow/marshmallow_schema_utils.py:384-396 | Returns the value unchanged exactly when it is None, `"add"` or an int (a bool included). Anything else is rejected. |
| `SchemaFields.EmbedSchema` | ludwig/marshmallow/marshmallow_schema_utils.py:398-399 | The emitted schema. Its meaning is stated by `EmbedSchemaValid` and `EmbedDeserializeAgreesWithSchema`. |
| `SchemaFields.EmbedSchemaValid` | ludwig/marshmallow/marshmallow_schema_utils.py:398-399 | The emitted `oneOf` accepts exactly `"add"`, null and integral numbers. |
| `SchemaFields.EmbedDeserializeAgreesWithSchema` | ludwig/marshmallow/marshmallow_schema_utils.py:384-399 | Away from bools and integral floats, `_deserialize` accepts a value exactly when the emitted schema does. |
| `SchemaFields.EmbedAcceptsBoolSchemaDoesNot` | ludwig/marshmallow/marshmallow_schema_utils.py:393-399 | A bool passes `_deserialize` (it is an `int`) but fails the schema. |
| `SchemaFields.InitializerOrDict` | ludwig/marshmallow/marshmallow_schema_utils.py:406-409 | The builder succeeds exactly when the default is a string that is one of the registry's keys. |
| `SchemaFields.InitializerOrDictDeserialize` | ludwig/marshmallow/marshmallow_schema_utils.py:412-425 | Accepts, unchanged, exactly a string that is a registry key, or a dict whose `"type"` is a registry key of any kind (None included, when None is a key). |
| `SchemaFields.InitializerOrDictSchema` | ludwig/marshmallow/marshmallow_schema_utils.py:427-446 | The emitted `oneOf` schema. Its meaning is stated by `InitializerStringOptionValid`, `InitializerDictOptionValid`, `InitializerSchemaAdmitsNone` and `InitializerOrDictDeserializeAgreesWithSchema`. |
| `SchemaFields.InitializerOrDictDeserializeAgreesWithSchema` | ludwig/marshmallow/marshmallow_schema_utils.py:412-446 | Over a registry whose keys are strings or None, `_deserialize` accepts exactly what the emitted `oneOf` schema accepts, for every value except None and a dict whose `"type"` is None. |
| `SchemaFields.InitializerNoneTypeDisagrees` | ludwig/marshmallow/marshmallow_schema_utils.py:419-440 | When None is a registry key, `_deserialize` accepts `{"type": None}` and the schema rejects it, since its `"type"` property must be a string. |
| `SchemaFields.InitializerSchemaAdmitsNone` | ludwig/marshmallow/marshmallow_schema_utils.py:429-435 | The schema admits None exactly when None is a registry key. |
| `SchemaFields.InitializerStringOptionValid` | ludwig/marshmallow/marshmallow_schema_utils.py:429-435 | The string branch accepts exactly the registry keys that are strings or None. The `["string","null"]` type is narrowed by the enum. |
| `SchemaFields.InitializerDictOptionValid` | ludwig/marshmallow/marshmallow_schema_utils.py:436-444 | The object branch accepts exactly dicts with a `"type"` that is a string registry key. |
| `SchemaFields.ValidateRange` | ludwig/marshmallow/marshmallow_schema_utils.py:474-481 | Returns its input exactly when it is a tuple whose items are all numbers in `[min, max]`. Otherwise it raises. |
| `SchemaFields.FloatRangeTuple` | ludwig/marshmallow/marshmallow_schema_utils.py:454-486 | A default with no length is a TypeError, and one of the wrong length is a ValidationError. Otherwise the builder succeeds exactly when the field admits its default: an N-tuple of numbers in `[min, max]`. |
| `SchemaFields.FloatTupleSchema` | ludwig/marshmallow/marshmallow_schema_utils.py:459-472 | The mapping fails exactly when the default fails `validate_range`. Otherwise it is an `array` whose `prefixItems` has N copies of the `[min, max]` number schema and whose default is the field's default. |
| `SchemaFields.FloatTupleSchemaOfBuiltField` | ludwig/marshmallow/marshmallow_schema_utils.py:454-472 | For a field the builder accepted, the mapping succeeds and has exactly N item schemas. |
| `SchemaFields.FloatTupleValidateAgreesWithSchema` | ludwig/marshmallow/marshmallow_schema_utils.py:459-481 | On N-tuples without bools, `validate_range` accepts exactly what the emitted schema accepts. |
| `SchemaFields.FloatTupleAcceptsBoolSchemaDoesNot` | ludwig/marshmallow/marshmallow_schema_utils.py:459-481 | A bool inside `[min, max]` passes `validate_range` but fails the schema's number items. |
| `SchemaFields.NumericOrStringDeserialize` | ludwig/marshmallow/marshmallow_schema_utils.py:527-547 | Returns the value unchanged or raises. A number on the numeric branch passes exactly when it meets every supplied bound (min and max inclusive, the exclusive ones strict). Otherwise it raises ValueError, from the message's unpacking at line 536. A string passes exactly when it is an option. An int in number mode, and any value that is neither number nor string, is rejected. Every rejection off the numeric branch is a ValidationError. |
| `SchemaFields.NumericOrStringDeserializeIntended` | ludwig/marshmallow/marshmallow_schema_utils.py:527-547 | The same acceptance rules, with every rejection a ValidationError, as the range message at lines 538-540 intends. |
| `SchemaFields.DeserializeReadingsDifferInErrorKindOnly` | ludwig/marshmallow/marshmallow_schema_utils.py:529-540 | The as-written and intended readings accept the same values. They differ exactly on an out-of-range number on the numeric branch. |
| `SchemaFields.OutOfRangeRaisesValueError` | ludwig/marshmallow/marshmallow_schema_utils.py:536-537 | With `min=0` in integer mode, `-1` raises ValueError as written, where ValidationError was intended. |
| `SchemaFields.NumericOption` | ludwig/marshmallow/marshmallow_schema_utils.py:561-570 | The numeric subschema has type `integer` or `number` and exactly the supplied bounds under their JSON-Schema names. Every entry's key is `type` or one of the four bound names. |
| `SchemaFields.BuildNumericOption` | ludwig/marshmallow/marshmallow_schema_utils.py:561-570 | Adding the type and then each supplied bound, one assignment at a time, yields exactly `NumericOption`. |
| `SchemaFields.NumericOptionValid` | ludwig/marshmallow/marshmallow_schema_utils.py:561-570 | The numeric subschema accepts exactly values of its type that lie within the bounds. |
| `SchemaFields.NumericOrStringSchema` | ludwig/marshmallow/marshmallow_schema_utils.py:555-588 | Raises AssertionError exactly when `None` is an option but the field is not nullable, and leaves the options alone. Otherwise it removes the first `None` from the options and returns `oneOf` [numeric, string enum of what is left], plus `null` if nullable. |
| `SchemaFields.OneOfSchemaValid` | ludwig/marshmallow/marshmallow_schema_utils.py:580-588 | The `oneOf` accepts exactly an in-bounds number of the right type, a string option, or null when nullable. |
| `SchemaFields.SchemaAlternatives` | ludwig/marshmallow/marshmallow_schema_utils.py:575-586 | The alternatives are, in order, the numeric option, the string enum over the remaining options, and `{"type":"null"}` when nullable. |
| `SchemaFields.SchemaEnumHasNoNone` | ludwig/marshmallow/marshmallow_schema_utils.py:572-574 | With at most one `None` among the options, the emitted enum holds no `None` and keeps every other option. |
| `SchemaFields.SchemaMappingRepeats` | ludwig/marshmallow/marshmallow_schema_utils.py:572-588 | A second mapping call on the list as the first left it returns the same schema and list. |
| `SchemaFields.NumericOrStringDeserializeAgreesWithSchema` | ludwig/marshmallow/marshmallow_schema_utils.py:527-588 | For non-None values, `_deserialize`, as written and as intended, accepts exactly what the emitted schema accepts. This excludes the cases the next two rows show differ: bools and fractional floats in integer mode, and ints in number mode. |
| `SchemaFields.IntegerModeAcceptsFractionSchemaDoesNot` | ludwig/marshmallow/marshmallow_schema_utils.py:527-561 | In integer mode `_deserialize` accepts the float 0.5, but the `integer` schema does not. |
| `SchemaFields.NumberModeRejectsIntSchemaDoesNot` | ludwig/marshmallow/marshmallow_schema_utils.py:527-561 | In number mode `_deserialize` rejects the int 1, but the `number` schema accepts it. |
| `SchemaFields.NumericOrStringOptionsField.constructor` | ludwig/marshmallow/marshmallow_schema_utils.py:515-525 | The field keeps a reference to the caller's options list, not a copy, with the other arguments as given. No check is made on the default. |
| `SchemaFields.NumericOrStringOptionsField.Deserialize` | ludwig/marshmallow/marshmallow_schema_utils.py:527-547 | The field's `_deserialize` reads the options list it shares with its creator. It returns the value unchanged or raises, and accepts a string exactly when it is in that list. An out-of-range number raises ValueError, as the code is written. |
| `SchemaFields.NumericOrStringOptionsField.JsonSchemaTypeMapping` | ludwig/marshmallow/marshmallow_schema_utils.py:549-588 | The result, and the shared options list as the call leaves it, are those of `NumericOrStringSchema` on the list as it was. |
| `SchemaFields.IntegerOrStringOptionsField` | ludwig/marshmallow/marshmallow_schema_utils.py:498-511 | Builds a new numeric-or-string field that shares the caller's options list and is always in integer mode. |
| `SchemaFields.CreateCond` | ludwig/marshmallow/marshmallow_schema_utils.py:38-43 | The conditional has exactly the keys `"if"` and `"then"`. |
| `SchemaFields.CreateCondPaths` | ludwig/marshmallow/marshmallow_schema_utils.py:38-43 | `if.properties.k` is `{"const": v}` for each `k: v` of the if-predicate. `then.properties.k` is the then-predicate's value for `k`, and absent when it has none. |
| `SchemaFields.ConstLookup` | ludwig/marshmallow/marshmallow_schema_utils.py:41 | The `const` comprehension has an entry for exactly the keys of the predicate, each wrapping that key's value. |
| `SchemaFields.LoadConfigWithKwargs` | ludwig/marshmallow/marshmallow_schema_utils.py:28-35 | The kwargs are split into those naming a schema field and the rest. Every entry lands in exactly one part and nothing is added. |
| `SchemaFields.LoadConfigWithKwargsOne` | ludwig/marshmallow/marshmallow_schema_utils.py:32-34 | A single entry goes to the schema part exactly when its key is a field, and to the rest otherwise. |
| `SchemaFields.LoadConfigWithKwargsAppend` | ludwig/marshmallow/marshmallow_schema_utils.py:32-34 | Splitting concatenated kwargs gives the concatenated splits of each part. With the one-entry case, this keeps both parts in the kwargs' order, as the comprehensions do. |
| `CommentCleanup.CleanedComment` | ludwig/marshmallow/marshmallow_schema_utils.py:85-101 | A missing, empty or whitespace-only comment gives `""`. Any other comment gives text that keeps its visible characters up to case, with a final period added if missing. `CleanedKeepsOtherWords` pins the case outside sentence-initial words. That text starts and ends with a non-space, ends with `.`, has no newline, no double space and a space after every inner period, and every sentence's first word is capitalised. |
| `CommentCleanup.Normalized` | ludwig/marshmallow/marshmallow_schema_utils.py:89-98 | Before capitalisation, the text's visible characters are exactly the comment's, case included, with a final period added if missing. The text is already shaped: no newline, no double space, a space after every inner period, non-space at both ends. |
| `CommentCleanup.CleanedKeepsOtherWords` | ludwig/marshmallow/marshmallow_schema_utils.py:99-100 | The cleaned text has the normalised text's length and keeps each of its characters exactly, except in a word that starts the text or a sentence. So "a GPU." becomes "A GPU.", not "A gpu.". |
| `CommentCleanup.CapitalizedWellFormed` | ludwig/marshmallow/marshmallow_schema_utils.py:100 | Capitalising shaped text keeps the shape, capitalises each sentence's first word and keeps the visible characters up to case. |
| `CommentCleanup.CleanupPythonComment` | ludwig/marshmallow/marshmallow_schema_utils.py:85-101 | The step-by-step rewrite returns `CleanedComment`. It is empty exactly for a blank comment and well formed otherwise. |
| `CommentCleanup.SpaceAfterPeriods` | ludwig/marshmallow/marshmallow_schema_utils.py:90 | After the rewrite every period is followed by a space. |
| `CommentCleanup.SpaceAfterPeriodsVisible` | ludwig/marshmallow/marshmallow_schema_utils.py:90 | The period rewrite only inserts spaces. |
| `CommentCleanup.ReplaceRunsSingleSpaces` | ludwig/marshmallow/marshmallow_schema_utils.py:94 | Collapsing runs of spaces leaves no two adjacent spaces. |
| `CommentCleanup.ReplaceRunsRemoves` | ludwig/marshmallow/marshmallow_schema_utils.py:92-94 | Collapsing runs of a character removes that character and adds no other character except a space. |
| `CommentCleanup.ReplaceRunsVisible` | ludwig/marshmallow/marshmallow_schema_utils.py:92-94 | Replacing runs of a whitespace character by one space keeps the visible characters. |
| `CommentCleanup.Capitalize` | ludwig/marshmallow/marshmallow_schema_utils.py:100 | The capitalisation keeps the length, changes only word characters and keeps which characters are word characters. A character of a word that starts neither the text nor a sentence is kept exactly. |
| `CommentCleanup.CapitalizeCapitalizes` | ludwig/marshmallow/marshmallow_schema_utils.py:100 | After the rewrite, a word at the start or after `.`, `?` or `!` plus a space begins with a non-lower-case letter, and the rest of that word is not upper case. |
| `SchemaDocs.AttrsDict` | ludwig/marshmallow/marshmallow_schema_utils.py:114-115 | `get_attrs_dict` succeeds exactly when every listed attribute has a child entry. Otherwise it is a KeyError. |
| `SchemaDocs.AttrsOf` | ludwig/marshmallow/marshmallow_schema_utils.py:115 | Its keys are exactly the last dotted components of the listed attribute paths. |
| `SchemaDocs.AttrsOfLastWins` | ludwig/marshmallow/marshmallow_schema_utils.py:115 | When two paths share a last component, the later path's child is the one kept. |
| `SchemaDocs.TorchAttrsDict` | ludwig/marshmallow/marshmallow_schema_utils.py:117-119 | `get_torch_attrs_dict` is an IndexError exactly when there are fewer than two docstring sections. Otherwise its keys are exactly the names of the second section's parameters. |
| `SchemaDocs.ParamsByName` | ludwig/marshmallow/marshmallow_schema_utils.py:119 | Every parameter is filed under its own name. |
| `SchemaDocs.ParamsByNameLastWins` | ludwig/marshmallow/marshmallow_schema_utils.py:119 | When two parameters share a name, the later one is the one kept. |
| `SchemaDocs.ParentAttrs` | ludwig/marshmallow/marshmallow_schema_utils.py:150-155 | Merging the parents succeeds exactly when every parent's attributes are all documented. Otherwise it is a KeyError. |
| `SchemaDocs.MergeAttrs` | ludwig/marshmallow/marshmallow_schema_utils.py:149-156 | The loop over the parents, followed by the class's own attributes, computes `MergedAttrs`. |
| `SchemaDocs.MergedAttrsPrecedence` | ludwig/marshmallow/marshmallow_schema_utils.py:149-156 | A class's own attribute overrides every parent's. A name the class lacks is present exactly when some parent has it, with the merged parents' entry. |
| `SchemaDocs.ParentAttrsLastWins` | ludwig/marshmallow/marshmallow_schema_utils.py:150-155 | Among the parents, the last one documenting a name provides its entry. |
| `SchemaDocs.SplitDefault` | ludwig/marshmallow/marshmallow_schema_utils.py:187-198 | The description is the part before the first `"(default: "`. A default is extracted exactly when the docstring splits into two parts. |
| `SchemaDocs.PropDescription` | ludwig/marshmallow/marshmallow_schema_utils.py:183-226 | It is an AttributeError exactly when the docstring's own description is empty and the optimizer documents the property with no description. That case reaches `.split` because the `or` on line 212 is always true. Otherwise the description is `""` or a well-formed cleaned description. |
| `SchemaDocs.PropDescriptionKeepsDocstring` | ludwig/marshmallow/marshmallow_schema_utils.py:193-226 | With a description of its own and the marker at most once, the result is the whole docstring cleaned. The split and the reattachment cancel out. |
| `SchemaDocs.PropDescriptionDropsLaterParts` | ludwig/marshmallow/marshmallow_schema_utils.py:193-226 | With the marker more than once, no default is extracted and only the text before the first marker survives. |
| `SchemaDocs.PropDescriptionFallsBack` | ludwig/marshmallow/marshmallow_schema_utils.py:208-226 | With an empty own description, the optimizer's description is used. The class's own default wins over the optimizer's, and the default is reattached before the final cleanup. |
| `SchemaDocs.Reattached` | ludwig/marshmallow/marshmallow_schema_utils.py:224-226 | The reattached description is empty or well formed. |
| `SchemaDocs.DescribePropsWrites` | ludwig/marshmallow/marshmallow_schema_utils.py:180-226 | After the property loop, every documented property holds its computed description. Every other property keeps whatever description it had. |
| `SchemaDocs.SchemaDump.DescribeAll` | ludwig/marshmallow/marshmallow_schema_utils.py:180-226 | The property loop leaves the descriptions as `DescribeProps` gives them, or raises its error. The property list, the class description and `additionalProperties` are untouched. |
| `SchemaDocs.SchemaDump.GenerateExtraJsonSchemaProps` | ludwig/marshmallow/marshmallow_schema_utils.py:121-230 | Succeeds exactly when the class has no docstring or every step succeeds, and then sets `additionalProperties` to true. The class description becomes its cleaned docstring when it has one. The property descriptions become those of `ExtraProps`. An error is the one the pass raised. |
| `TfInit.ThreadCount` | ludwig/utils/tf_utils.py:72-75 | The thread count is 0 exactly when parallel threads are allowed, and 1 otherwise. |
| `TfInit.HorovodGpus` | ludwig/utils/tf_utils.py:78-87 | Only the case of Horovod with no `gpus` changes the argument. That case gives one entry: `[-1]` or this worker's `[local_rank]`. |
| `TfInit.HorovodWarnsExactlyWhenHidden` | ludwig/utils/tf_utils.py:78-87 | A first call emits at most the Horovod warning. It emits it exactly when Horovod is on, `gpus` is None, and the Horovod step chose `[-1]`. |
| `TfInit.NormalizedGpus` | ludwig/utils/tf_utils.py:89-93 | None stays None, an int becomes a one-element list, and a list is kept. Only a string can fail, with ValueError. |
| `TfInit.ParseAll` | ludwig/utils/tf_utils.py:93 | The comprehension succeeds exactly when every piece parses, and then gives each piece's value in order. |
| `TfInit.NormalizedGpusOfText` | ludwig/utils/tf_utils.py:91-93 | A non-empty id list written as comma-separated text normalises back to the same list. |
| `TfInit.NormalizedGpusOfBlank` | ludwig/utils/tf_utils.py:91-93 | An empty or whitespace-only string is a ValueError. |
| `TfInit.DeviceIndex` | ludwig/utils/tf_utils.py:113 | `gpu_devices[g]` is defined exactly for `-#devices <= g < #devices`, counting a negative index from the end. |
| `TfInit.SelectDevices` | ludwig/utils/tf_utils.py:113 | Selection succeeds exactly when every id indexes a device, and keeps the order of the ids. |
| `TfInit.ChooseDevices` | ludwig/utils/tf_utils.py:95-114 | All GPUs are hidden exactly when the list is `[-1]`. Otherwise the memory limit is applied, and visible devices are set exactly when the list and the device list are both non-empty. The visible devices are then `gpu_devices[g]` for each id `g`, in order, with Python's indexing. It raises exactly when some id is out of range, and then it is an IndexError. |
| `TfInit.InitializeIsWriteOnce` | ludwig/utils/tf_utils.py:62-68 | Once initialised, a call changes nothing. It warns exactly when its parameter tuple differs from the recorded one. |
| `TfInit.Initialize` | ludwig/utils/tf_utils.py:56-116 | A failing call records no parameters and raises ValueError or IndexError. A successful one records them. A first call always sets the thread count. An IndexError comes after memory growth and the memory limit are set on every GPU, so that configuration is in the state. |
| `TfInit.FirstInitializeRecords` | ludwig/utils/tf_utils.py:56-121 | A first call sets both thread counts. When it succeeds it records the tuple as passed (gpus before normalisation, `horovod is not None`), after which any later call leaves the state alone. A failing first call records nothing. |
| `TfInit.FirstInitializeDevices` | ludwig/utils/tf_utils.py:78-114 | A successful first call configures the devices `ChooseDevices` picks from the normalised list. It hides all GPUs exactly when that list is `[-1]`, which the Horovod warning always leads to. |
| `TfInit.TfRuntime.InitializeTensorflow` | ludwig/utils/tf_utils.py:56-116 | The step-by-step gate leaves the runtime state, the warnings and the outcome as `Initialize` gives them, including the GPU configuration already made when an id is out of range. |
| `TfInit.TfRuntime.SetTfInitParams` | ludwig/utils/tf_utils.py:119-121 | Sets the record and changes nothing else. |
| `Strings.LastPiece` | ludwig/utils/tf_utils.py:130 | `s.split(c)[-1]` is all of `s` when `s` holds no `c`. Otherwise it is the text after an occurrence of `c`, and it holds no `c`, so that occurrence is the last one. |
| `TfInit.DeviceId` | ludwig/utils/tf_utils.py:130 | A device's id is its whole name when the name has no colon. Otherwise it is the text after the name's last colon. |
| `TfInit.GetAvailableGpusCudaString` | ludwig/utils/tf_utils.py:145-149 | None exactly when there are no GPUs. |
| `TfInit.CudaStringSplits` | ludwig/utils/tf_utils.py:130-149 | Splitting the string on commas gives back each device's id, in order. |
| `TfSequences.SequenceLength2D` | ludwig/utils/tf_utils.py:40-44 | One length per row, each between 0 and the row's width. |
| `TfSequences.CountNonZeroIsNonZeros` | ludwig/utils/tf_utils.py:40-44 | A row's length is its number of non-zero entries. |
| `TfSequences.CountNonZeroOfPadded` | ludwig/utils/tf_utils.py:40-44 | For a row of non-zero tokens followed by zero padding, the length is the number of tokens. |
| `TfSequences.CountNonZeroIsNotLastIndex` | ludwig/utils/tf_utils.py:40-44 | In a row with a zero before its last non-zero entry at position `k`, the length is less than `k + 1`: zeros inside a sequence are not counted. |
| `TfSequences.StepUsed` | ludwig/utils/tf_utils.py:34 | A timestep's flag is 1 when some feature is non-zero and 0 when all are zero. It is -1 for an empty feature vector, whose maximum is the type's lowest value. |
| `TfSequences.Length3DCountsUsedSteps` | ludwig/utils/tf_utils.py:33-37 | With features present, an example's length is the number of timesteps whose feature vector is not all zero. |
| `TfSequences.Length3DIsLength2DOfMax` | ludwig/utils/tf_utils.py:33-37 | `sequence_length_3D` is `sequence_length_2D` of the per-step maximum magnitude. |
| `TfSequences.Length3DOfNoFeatures` | ludwig/utils/tf_utils.py:34-35 | With an empty feature axis the length is minus the number of timesteps. |
| `TfSequences.SequenceLength3D` | ludwig/utils/tf_utils.py:33-37 | One length per example. |
| `TfSequences.ToSparse` | ludwig/utils/tf_utils.py:48-53 | It is a ValueError exactly when the lengths or `max_length` do not match the tensor's shape, as `tf.boolean_mask` raises when the static shapes are known. Otherwise the dense shape is the tensor's shape. |
| `TfSequences.MaskIndicesComplete` | ludwig/utils/tf_utils.py:49-50 | `(i, j)` is an index exactly when `i` is a row and `j < min(lengths[i], max_length)`. |
| `TfSequences.MaskIndicesSorted` | ludwig/utils/tf_utils.py:49-50 | The indices are in row-major order. |
| `TfSequences.MaskValuesAtIndices` | ludwig/utils/tf_utils.py:51 | There is one value per index, the tensor's entry at that position. |
| `TfSequences.ToSparseContents` | ludwig/utils/tf_utils.py:48-53 | For a well-shaped call, the sparse tensor's indices are exactly the masked positions in row-major order, and its values are the tensor's entries there. |

## Left out

- Reading the pytkdocs JSON files (`load_pytkdocs_json`, marshmallow_schema_utils.py:103-112) is file I/O. The parsed class, parent and optimizer documents are parameters, with whether the class has a docstring and an optimizer class.
- marshmallow's `Schema().load` (`load_config`, lines 18-25) is not modelled, nor the class check `assert_is_a_marshmallow_class`. `LoadConfigWithKwargs` returns the two kwargs parts, and the set of field names is a parameter.
- marshmallow_jsonschema's `dump` (lines 75-78) is not modelled. The dumped schema is given as its property names and existing descriptions (`SchemaDocs.SchemaDump`).
- `dataclasses.field` and the marshmallow field objects are not modelled. A builder returns a `FieldDescriptor` record of its constraint, default and whether it allows None.
- The debug `print` calls (lines 202-207, 219-221) are left out.
- Error messages are dropped. Only the exception class is kept, including the ValueError raised while one message is built (see Findings).
- The registries behind `InitializerOptions` and `ReductionOptions` are parameters, a sequence of key values. Their contents live in other modules, which are not part of this model. Python's equality between `True` and `1` is not modelled when keys are compared.
- `SchemaFields.InitializerOrDictDeserializeAgreesWithSchema` does not cover None, which marshmallow handles through `allow_none` before `_deserialize`; `InitializerSchemaAdmitsNone` states the schema's side. It also excludes a dict whose `"type"` is None, on which the two sides differ when None is a key (`InitializerNoneTypeDisagrees`). It is stated for registries whose keys are strings or None.
- `\w` in the capitalisation regex and `str.capitalize` are modelled on ASCII letters, digits and `_`. Unicode word characters and case mappings are not modelled.
- `int()` is modelled for ASCII decimal digits with an optional sign and surrounding whitespace. Underscores between digits and non-ASCII digits are not modelled.
- Schemas and values are JSON-like values. The validator in `JsonSchema` covers the keywords these schemas use, not the whole JSON-Schema standard. Python floats are exact reals, so NaN, infinities and rounding are not modelled.
- `SchemaFields.FloatTupleSchema` and `SchemaFields.FloatItem` emit the bounds as floats. The source emits whatever numbers were passed, which are ints for the defaults `min=0, max=1`.
- `SchemaFields.NumericOrStringDeserializeAgreesWithSchema` does not cover None: marshmallow handles None before `_deserialize` is called, through `allow_none`. It also excludes the value kinds on which the two sides differ; those differences are stated by `IntegerModeAcceptsFractionSchemaDoesNot` and `NumberModeRejectsIntSchemaDoesNot`.
- `SchemaFields.EmbedDeserializeAgreesWithSchema` excludes bools and integral floats, on which `_deserialize` and the schema differ; `EmbedAcceptsBoolSchemaDoesNot` states the bool case.
- `SchemaFields.FloatTupleValidateAgreesWithSchema` is stated for N-tuples without bools; `FloatTupleAcceptsBoolSchemaDoesNot` states the bool case.
- The schema dicts returned by the mappings hold a copy of the options list, so later mutation of the list through the returned schema (aliasing) is not modelled.
- Dict iteration order is not modelled for the attribute dictionaries, which are maps. Only which entry wins for a key is modelled (the last one written).
- The TensorFlow device calls (`set_visible_devices`, `set_memory_growth`, the logical device configuration, lines 97-114) are not modelled. `TfInit.DeviceChoice` records which devices would be configured, with which memory limit.
- `tf.config.list_physical_devices` is a parameter: the device count in `initialize_tensorflow` and the device names in `get_available_gpus_cuda_string`.
- `get_available_gpus` (lines 134-142) and its child process are not modelled: they spawn a process and talk through a queue.
- `warnings.warn` becomes a returned list of `Warning` values.
- `gpus` is modelled as None, an int, a string or a list of ints. Lists holding other values are not modelled.
- `save_weights_to_buffer`, `load_weights_from_buffer` and the Keras layers `VocabLookup`, `Tokenize` and `Pad` are not modelled: they are file I/O or delegate entirely to TensorFlow primitives.
- Tensor values are integers. Floating-point tensors, the `int32`/`int64` casts and their overflow, and `tf.abs` of the most negative integer are not modelled.
- `to_sparse` is modelled for a rectangular batch of rows (`Shaped`). A negative length masks nothing.
- `TfSequences.ToSparse` models eager execution, where the static shapes are known and a mismatched mask is a ValueError. In a graph with unknown static dimensions the shape check is deferred, and a smaller mask may raise nothing. That case is not modelled.

## Findings

| source | as written | input that shows it | evidently intended | confidence | as-written member | corrected member |
|---|---|---|---|---|---|---|
| ludwig/marshmallow/marshmallow_schema_utils.py:536-537 | The range message's pieces are built with `err_min_r, err_min_n = "(", <conditional>, min`, which unpacks three values into two names (and likewise for the max pieces). | `NumericOrStringOptionsField(options=[], is_integer=True, min=0)` deserialising `-1` | Raise the ValidationError with the range message | high; not executed | `SchemaFields.NumericOrStringDeserialize`, `SchemaFields.OutOfRangeRaisesValueError` | `SchemaFields.NumericOrStringDeserializeIntended`, `SchemaFields.DeserializeReadingsDifferInErrorKindOnly` |

The field class keeps the code as written. Both readings accept the same values, so the agreement with the schema is proved for both.
