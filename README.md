# AirBnB clone: object store, record codec and console, in Dafny

This project models the core of the AirBnB clone's model layer and its command interpreter.

- **`FileStorage` registry.** The registry maps `"<class name>.<id>"` to an instance. The
  storage only ever rewrites and reads back the file `file.json`, and the model treats that
  file as a whole value: a mapping from keys to records, or none when no file exists.
- **`BaseModel` and its six subclasses.** The model covers:
  - fresh construction versus reconstruction from keyword arguments;
  - `to_dict`, `__str__` and `save`;
  - the class-level defaults of `User`, `Place`, `Amenity`, `City`, `State` and `Review`.
- **`import_all_classes`.** This is the table from a record's `__class__` tag to its class,
  which `reload` uses.
- **`HBNBCommand`.** The model covers:
  - checking the class and the id;
  - tokenising the arguments of `update` and coercing its value;
  - the commands `create`, `show`, `destroy`, `all`, `update` and `count` over the registry;
  - the dotted `<class>.<command>(<args>)` syntax and how `default` routes it.

Modules follow the program's structure:

| module | contents |
|---|---|
| `Wrappers` | `Option`, `Result` and `Outcome` |
| `Text` | the `str` built-ins the console relies on: `split()`, `split(c)`, `strip(chars)`, `isdigit()`, `int()` and `str()` of an integer |
| `Timestamps` | a `datetime` value, `isoformat()` and `fromisoformat()` for the texts `isoformat()` writes |
| `Values` | attribute values, the exceptions of the storage layer, `str()` of a value |
| `Schemas` | the seven classes, their names and their class-level defaults |
| `Engine` | `import_all_classes` and dispatch on a `__class__` tag |
| `Codec` | `to_dict`, reconstruction from keyword arguments, and both directions for a whole registry |
| `Models` | the classes `BaseModel` and `FileStorage` |
| `Console` | the command interpreter |
| `Scenarios` | sequences of storage calls the test suite makes |

The two Python classes that change state in place are Dafny classes:

- **`BaseModel`.** Its attribute dictionary is `var attrs`. `save` and `setattr` change it,
  and the registry holds references to the instances.
- **`FileStorage`.** It holds `var objects` (the registry) and `var file`.

Their methods carry `modifies` clauses down to the field. For example, `FileStorage.Save`
may change only `file`, and `do_update` may change only the instances' `attrs` and the file.

The uuid generator and the clock are parameters. A fresh construction is given its id and its
two clock readings, and `save` is given the current time. What the console prints becomes the
value or the error each command returns.

Throughout the model, an Error/`Fail` result stands for the exception the source raises or
the message it prints.

## Model

| member | source | states |
|---|---|---|
| Text.Strip | console.py:169 | Python's `strip(chars)`: the result is the middle slice of the input; everything removed at either end is in the set; the result neither starts nor ends with a character of the set |
| Text.StripUnchanged | console.py:301 | stripping text whose ends are not in the set gives it back unchanged |
| Text.WordsOfJoin | console.py:48 | `split()` of words joined by single spaces gives back the same words |
| Text.JoinSplitOn | console.py:221 | joining the pieces of `split(c)` with `c` gives back the text |
| Text.SplitOnce | console.py:219 | `split(c, 1)`: the whole text when `c` is absent; otherwise the part before the first `c` and the rest after it |
| Text.RemoveFirst | console.py:187 | `replace('.', '', 1)`: removes exactly the first occurrence, if any |
| Text.ParseDecimal | console.py:186 | `int()` of the decimal text of `n` is `n` |
| Timestamps.ParseIso | models/base_model.py:27 | `fromisoformat` succeeds only on 19- or 26-character texts and then yields a valid `datetime` |
| Timestamps.IsoRoundTrip | models/base_model.py:27 | parsing the `isoformat()` text of any valid `datetime` gives the same `datetime` back |
| Timestamps.NotIsoExample | models/base_model.py:26-27 | a time of day alone is not accepted as an ISO date-time |
| Schemas.Name | models/engine/file_storage.py:24 | `__name__` is never empty and contains no `.`, so it can head a key |
| Schemas.NameInjective | models/engine/__init__.py:20-28 | different classes have different names |
| Schemas.ZeroDefaults | models/place.py:9-19 | every class-level default is the empty string, 0, 0.0 or the empty list; `BaseModel` declares none |
| Schemas.Lookup | models/city.py:9-10 | attribute lookup returns the instance's own value when one is set; otherwise the class's current attribute; otherwise the one `BaseModel` declares; nothing (AttributeError) if and only if none of the three has the name |
| Models.Key | models/engine/file_storage.py:24 | a key is the class name, then a single `.`, then `str()` of the id (with `KeyInjective`, the key determines both) |
| Engine.ImportAllClasses | models/engine/__init__.py:20-28 | exactly the seven names, each mapped to the class of that name, and every class reachable under its own name |
| Engine.Dispatch | models/engine/file_storage.py:47 | a tag dispatches if and only if it is a string naming one of the seven classes, and then to the class of that name |
| Engine.DispatchName | models/base_model.py:64 | the tag `to_dict` writes dispatches back to the class that wrote it |
| Codec.ToDict | models/base_model.py:60-66 | the keys are the instance attributes plus `__class__`; `__class__` holds the class name; no value is a `datetime` |
| Codec.ToDictValues | models/base_model.py:60-63 | every other key holds the attribute itself, or the ISO text of a `datetime` attribute |
| Codec.Reconstructed | models/base_model.py:22-28 | the `__dict__` rebuilt from keyword arguments has exactly their keys minus `__class__` (so no `id` without an `id` keyword) |
| Codec.ReconstructibleIffNoProblem | models/base_model.py:13-28 | reconstruction succeeds if and only if no keyword argument raises |
| Codec.SelfKeyword | models/base_model.py:13 | a keyword `self` collides with the first parameter of `__init__`: keyword arguments holding it are never reconstructible, and raise TypeError whatever else they hold |
| Codec.BadTimestamp | models/base_model.py:26-27 | a non-string timestamp raises TypeError; a string that is not ISO text raises ValueError |
| Codec.Rebuilt | models/engine/file_storage.py:47 | the class of a rebuilt instance is the one its record's tag names |
| Codec.RebuildableIffNoProblem | models/engine/file_storage.py:47 | a record can be rebuilt if and only if it has a tag naming a class and no argument raises |
| Codec.EntityRoundTrip | models/base_model.py:22-28 | for attributes with no `__class__`, `self` or read-only name, `datetime` values exactly at the two timestamps and none inside a list, reconstructing from `to_dict()` gives the same class and the same instance attributes; `__class__` does not become an attribute |
| Codec.TimestampRoundTrip | models/base_model.py:27 | each attribute of well-formed attributes that `to_dict` writes is passed back without raising and read back as the same value |
| Codec.Snapshot | models/engine/file_storage.py:30-33 | the written mapping has exactly the registry's keys |
| Codec.SnapshotWritable | models/engine/file_storage.py:30-35 | the snapshot of well-formed instances holds only values `json.dump` can write: top-level `datetime` values have become text, and no list contains one |
| Codec.NestedTimeUnwritable | models/engine/file_storage.py:30-35 | a `datetime` inside a list attribute is left as it is by `to_dict` (models/base_model.py:60-62), so `json.dump` cannot write the snapshot |
| Codec.Restore | models/engine/file_storage.py:46-49 | the rebuilt registry has exactly the file's keys |
| Codec.StoreRoundTrip | models/engine/file_storage.py:30-49 | writing a registry of well-formed instances (no `self` attribute, no `datetime` inside a list) gives a file `json.dump` can write, and reading it back gives the same keys, classes and attributes, hence the same `to_dict()` |
| Models.KeyInjective | models/engine/file_storage.py:24 | a key determines the class and the text of the id |
| Models.FreshAttrs | models/base_model.py:30-32 | a fresh instance's attributes are in the shape `save` and `reload` round-trip |
| Models.FreshReadsDefaults | models/base_model.py:29-33 | a fresh instance reads every class default it does not set itself, and its `to_dict()` holds only `id`, the two timestamps and `__class__` |
| Models.BaseModel.Fresh | models/base_model.py:29-32 | a fresh instance has the given id and the two clock readings |
| Models.BaseModel.Restored | models/base_model.py:22-28 | a reconstructed instance has exactly the decoded attributes |
| Models.BaseModel.Create | models/base_model.py:22-33 | no (or empty) keyword arguments: always succeeds, fresh attributes, and exactly the slot `<class>.<id>` is set to the new instance; otherwise the registry is unchanged and the result succeeds if and only if the arguments are reconstructible, with the reconstructed attributes or an error some argument raises; a keyword `self` always fails with TypeError |
| Models.BaseModel.DecodeKwargs | models/base_model.py:13-28 | binding and looping over the keyword arguments succeeds if and only if none raises, and then yields exactly the reconstructed attributes; a keyword `self` fails at the call with TypeError; any other failure is some argument's error |
| Models.BaseModel.Get | models/user.py:9-12 | `getattr`: the instance's own value if set, else the default its class declares, else AttributeError |
| Models.BaseModel.Render | models/base_model.py:42-43 | `__str__` shows the class name, the id and the instance attributes; it fails with AttributeError if and only if there is no `id` |
| Models.BaseModel.Save | models/base_model.py:49-50 | exactly `updated_at` changes, to the clock reading; then the file becomes the snapshot of the registry |
| Models.FileStorage.All | models/engine/file_storage.py:13-16 | `all()` is the registry itself, so every command that reads through it sees the current entries |
| Models.FileStorage.constructor | models/engine/file_storage.py:10-11 | an empty registry over the file as found |
| Models.FileStorage.New | models/engine/file_storage.py:18-25 | succeeds if and only if the instance has an `id`; then exactly its key is set to it, overwriting any previous entry; otherwise AttributeError and the registry is unchanged |
| Models.FileStorage.Save | models/engine/file_storage.py:27-35 | the file becomes one record per registry key, the `to_dict()` of the instance under it; the registry is untouched |
| Models.FileStorage.Reload | models/engine/file_storage.py:37-51 | without a file: success, nothing changes. With a file: success if and only if every record can be rebuilt (a record with a `self` key cannot), and then the registry is replaced by distinct new instances under exactly the file's keys, each the record rebuilt from its tag. On failure: the registry is unchanged and the error is some record's problem |
| Models.FileStorage.RebuildAll | models/engine/file_storage.py:46-49 | the comprehension of `reload`: success if and only if all records can be rebuilt, with distinct new instances; a failure names some record's problem |
| Scenarios.FreshThenSave | tests/test_models/test_engine/test_file_storage.py:99-113 | saving, constructing one fresh instance per distinct new id, and saving again makes the file exactly that many records longer |
| Scenarios.CreateFresh | tests/test_models/test_engine/test_file_storage.py:107-108 | fresh constructions with distinct unregistered ids add exactly their keys to the registry |
| Scenarios.Register | models/base_model.py:29-33 | one fresh construction adds exactly the key of the new instance |
| Scenarios.FreshKeys | tests/test_models/test_engine/test_file_storage.py:113 | distinct ids whose keys are new add one key each |
| Scenarios.KeysOfIds | models/engine/file_storage.py:24 | an id's key is one of the keys of a list of ids if and only if the id is in the list |
| Scenarios.SaveThenReload | models/engine/file_storage.py:27-51 | `save` then `reload` over well-formed instances (no `self` attribute, no `datetime` inside a list) writes a file `json.dump` can write, succeeds and keeps the key set, the classes and attributes, and every `to_dict()` |
| Console.Classes | console.py:22-30 | the console's class table is the one `import_all_classes` returns, with the same keys |
| Console.CheckClassAndId | console.py:44-66 | each error if and only if its case holds (empty line; a line of only whitespace raises IndexError; unknown class; missing id and absent key for commands other than `create`), and no other error; on success the class name for `create`, otherwise `<class>.<id>`, which is in the registry |
| Console.CheckedKeyIsKey | console.py:55-64 | an accepted key is the registry key of the named class and the id as written |
| Console.CheckAcceptsRegistered | console.py:44-66 | `<class> <id>` naming a registered instance is accepted with that instance's key |
| Console.CheckAcceptsCreate | console.py:61-62 | `create <class>` is accepted with the class name |
| Console.Closing | console.py:162-167 | the first token from a given index that ends in a quote, or the end |
| Console.UpdateArgsOf | console.py:144-169 | a failure of the class/id check is passed on; with a valid key, two words give "attribute name missing", three words give "value missing", and four or more succeed with the key, the third word as name and the value `RawValue` grows, stripped of spaces and quotes; an unquoted fourth word is the value, stripped |
| Console.CheckUpdateArgs | console.py:144-169 | the imperative check computes exactly `UpdateArgsOf` |
| Console.GrowValue | console.py:159-167 | the loop's value is the fourth token, extended when quoted up to the closing token from the fifth on |
| Console.QuotedValue | console.py:159-169 | a quoted multi-word value comes back as the words joined by single spaces, whatever follows the closing quote |
| Console.Coerce | console.py:185-188 | the assigned value is an `int`, a `float` or a text, never a `datetime` or a list; a `float` or a text keeps the input as its text |
| Console.CoerceInt | console.py:185-186 | the value is an `int` if and only if it is all digits (and not empty), and then it is their number |
| Console.CoerceFloat | console.py:187-188 | the value is a `float` if and only if it is digits, one point, digits, with at least one digit |
| Console.CoerceStr | console.py:185-189 | everything else stays the text itself |
| Console.CoerceDecimal | console.py:185-186 | `str(n)` of a natural number is read back as the integer `n` |
| Console.CoerceTextExamples | console.py:185-188 | `-5`, `1.2.3`, `.` and the empty text stay text |
| Console.Arguments | console.py:223-231 | the tuple has the class name, then at most three pieces; the first two are stripped of spaces and quotes, the third of whitespace only; it always has at least two elements |
| Console.ParseDefaultArgs | console.py:219-231 | IndexError if and only if there is no `.`, or no `(` after it; otherwise the class name before the first `.`, then, of the comma-separated pieces between the first `(` after the `.` and the next `(`, or the end (stripped of `)`), at most three: the first two stripped of spaces and quotes, the third of whitespace |
| Console.ArgumentsStopAtParen | console.py:221 | no parsed argument contains `(`: the arguments end at the next `(`, so an argument holding one is cut there |
| Console.CommandNamedInverse | console.py:296 | every command is found under its name, and only under its name |
| Console.Route | console.py:294-301 | a line routes if and only if it has a `.`, the text up to the next `(` names a command, and the arguments parse; the command is that one, and its argument line is the parsed pieces joined by spaces, stripped of whitespace except for `update`; anything else is Unknown syntax |
| Console.CallShape | console.py:219-221 | `<class>.<command>(<args>)` splits into its class, its command and the comma-separated pieces of its arguments |
| Console.RouteCall | console.py:294-301 | routing a call yields its command, with the joined arguments as argument line |
| Console.RouteNoArguments | console.py:300-301 | `<class>.<command>()` calls the command with the class name alone |
| Console.RouteOneArgument | console.py:300-301 | `<class>.<command>("<id>")` calls the command with `<class> <id>` |
| Console.Matching | console.py:200-202 | exactly the keys whose instance's class name is the one given |
| Console.MatchingInsert | models/engine/file_storage.py:24-25 | registering an instance under a new key adds one to its class's count and to no other |
| Console.MatchingRemove | console.py:101 | removing a key subtracts one from the count of its instance's class |
| Console.DoCount | console.py:198-205 | the number of instances whose class is named exactly by the line; an unknown name is "class doesn't exist" |
| Console.CountMatching | console.py:199-202 | the counting loop yields the number of matching instances |
| Console.CountStep | console.py:200-202 | visiting one key increments the count exactly when it matches |
| Console.Show | console.py:89-91 | a failure of the class/id check is passed on; otherwise the rendering of the instance under the key, or AttributeError if it has no `id` |
| Console.AllFilter | console.py:116-127 | an empty line lists everything; a line whose first word is a class lists that class; "class doesn't exist" if and only if the first word is no class; IndexError if and only if the line is whitespace alone |
| Console.Listed | console.py:117-125 | all registry keys without a filter; with one, exactly the keys of that class |
| Console.DoAll | console.py:116-130 | every listed instance is rendered exactly once, and nothing else is; fails with AttributeError if and only if a listed instance has no `id` |
| Console.RenderAll | console.py:118-125 | the loop over the registry has the same contract as `do_all` for a given filter |
| Console.ListedCount | console.py:118-125 | a sequence without repetitions holding exactly the elements of a set has the set's size |
| Console.DoDestroy | console.py:99-102 | check failure: the error, and the registry and file are unchanged; otherwise exactly the checked key leaves the registry, then the file becomes its snapshot |
| Console.DoUpdate | console.py:181-190 | failures of the argument check are passed on; a name `setattr` refuses raises and changes nothing; otherwise exactly the named attribute of the target becomes the coerced value and `updated_at` the clock reading; no other instance changes, and the file becomes the snapshot |
| Console.Assign | console.py:184-190 | `setattr` then `save` on the one target, with the same guarantees once the arguments are checked |
| Console.UpdateKeepsWellFormed | console.py:185-190 | updating any assignable name other than `created_at` and `self` keeps the attributes in the shape a save and reload round-trip |
| Console.UpdatedCreatedAtBreaksReload | console.py:185-190 | setting `created_at` to a number, or to text not beginning with a four-digit year (which `fromisoformat` rejects in every form), is accepted, but the record then saved cannot be rebuilt by `reload` |
| Console.UpdatedSelfBreaksReload | console.py:189-190 | `update` accepts the name `self`, but the record then saved makes `reload` raise TypeError |
| Console.DoCreate | console.py:68-80 | check failure: the error, nothing changes; otherwise a fresh instance of the named class, with `updated_at` refreshed by `save`, is added under `<class>.<id>` and the file becomes the snapshot; the reply is the id |
| Console.Caught | console.py:302-305 | an error whose Python exception class (`ExceptionOf`) is IndexError or AttributeError becomes Unknown syntax; every other error, and every printed message, passes through unchanged |
| Console.Run | console.py:296-301 | the routed command run on its argument line: quit, EOF and help do nothing; count, show, destroy and create change and reply exactly as their commands do (the new instance, the key, the file, the unchanged state on failure), with errors passed through `Caught` |
| Console.Default | console.py:294-305 | a line that does not route is Unknown syntax and changes nothing; otherwise quit, EOF, help, count, show, destroy and create behave as `Run` states |

## Left out

- The `cmd.Cmd` loop, the prompt, `emptyline` and all `print` output. Each command returns its reply or error instead, and the model does not reproduce the messages' exact wording.
- JSON bytes and `json.dump(indent=4)` / `json.load`. The file is the mapping of records it holds, so a malformed or unreadable file is outside the model. So is a well-formed `file.json` holding JSON `null`, `true`, `false` or a nested object, which `Value` has no variant for.
- Models.FileStorage.Save: does not model the TypeError `json.dump` raises on a `datetime` inside a list, after `file.json` has been opened for writing and truncated. The contract states the snapshot as written; `Codec.NestedTimeUnwritable` shows such a snapshot is not writable, and `WellFormed` excludes it from every round-trip claim. The console never stores such a value.
- The dictionary form `<class>.update(<id>, {...})` of `__update_from_default` (console.py:247-278). It depends on `json.loads` and on exception-driven control flow. The attribute form is modelled: it reaches `do_update` with the unstripped joined arguments. A line in the dictionary form is routed like the attribute form, so its result in the model is not the source's.
- `uuid.uuid4()` and `datetime.now()`. Ids and clock readings are parameters, so "created_at differs from updated_at" is not something the model can state.
- Timestamps.ParseIso: accepts only the two shapes `isoformat()` writes (with any single separator between date and time). The many other texts Python's `fromisoformat` also accepts are treated as ValueError.
- Floats are kept as the literal text they come from (`Float("0.0")`, `Float("3.5")`). No real-number arithmetic is modelled.
- `eval` of a class name (console.py:78, models/engine/file_storage.py:47) is replaced by table lookup. So Python built-ins reachable through `eval` are not modelled, and neither is the rest of what `eval` accepts: a tag with leading spaces or tabs (`" User"`) or any expression that evaluates to a class (`"(User)"`) rebuilds in Python, while `Engine.Dispatch` rejects it as an unknown tag.
- Text.IsDigit: only ASCII digits count, not every Unicode digit Python's `isdigit` accepts. Likewise `split()` and `strip()` know only ASCII whitespace.
- The single list object shared by every `Place` as its class-level `amenity_ids` default (models/place.py:19). Mutating it in place is not modelled.
- The class attribute `HBNBCommand.objects` (console.py:21) keeps the dictionary `reload` has replaced. The model has one registry, and every command reads it through the storage, as `FileStorage.All` does.
- Several processes sharing `file.json`.
- `str()` of a list value quotes string items, but strings containing quotes are not escaped as `repr` would escape them, and a `datetime` item is shown as its `str()` text rather than as `datetime.datetime(...)`.
- The order of the `do_all` listing. Python lists in the dictionary's insertion order; the model promises each listed instance exactly once, in no stated order.
- Attribute names that shadow methods (`save`, `to_dict`) are ordinary attributes in the model.
- Python reports the error of the first offending keyword argument or record, in dictionary order. The model visits keys in no stated order, so its contract names the error of some offending one.
- `storage.new` with an argument that is not a model instance (for example a tuple). Only instances are passed, and one without an `id` fails as in the source.
- A dotted `quit()` or `EOF()` does not end the loop, because `default` discards the command's return value. `Run` replies `Done` for them.
- In `__check_update_args` the search for the closing quote starts at the fifth token, so a fourth token that both opens and closes its quote still absorbs the tokens after it. The model keeps this behaviour.
- Console.Run: its contract does not restate the `update` and `all` cases. Those commands behave as `DoUpdate` and `DoAll` state.
- Console.Default: its contract states the routing and the quit, EOF, help, count, show, destroy and create cases in full. It does not restate `update` or `all`, which behave as `DoUpdate` and `DoAll` state.
