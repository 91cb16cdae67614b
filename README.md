# pyprt generation layer in Dafny

This project models the generation layer of pyprt, the Python binding of the
CityEngine procedural runtime (PRT, "the Engine"). The layer does four things:

- It turns caller-supplied initial shapes into Engine shape builders.
- It keeps a generator object with a sticky validity flag, a resolve map and an encoder set.
- It checks each generation request and picks per-shape rule attributes.
- It makes one Engine generation call and turns the collector's per-shape output
  into `GeneratedModel` values, one per shape, in shape order.

The model also covers `copyToCStr`, the bounded C-string copy in the header.

Module layout:

- `Values`: the scalar and map types.
  - `uint32` and `int32` are newtypes.
  - `Double` is an opaque bit pattern.
  - An attribute value is tagged `Str`, `Int`, `Float` or `Bool`.
- `Shapes`: the `InitialShape` and `GeneratedModel` values and the three `InitialShape` constructors.
  The accessors of `GeneratedModel` are the datatype's fields, so they return exactly what it was built with.
- `Prt`: every external call as a field of the `Engine` datatype. Each field is a total function the model never looks into.
- `ShapeAttributes`: the class defaults, the choice of dictionary for each shape, and the typed override of the four main attributes.
- `Encoders`: the encoder identifiers and the encoder set rebuilt from one encoder name.
- `Construction`: the constructor's loop as functions of the shapes visited so far, with lemmas about the sticky flag.
- `Generation`: the generator's state as a value and the pure specification of `generateModel` and `generateAnotherModel`.
- `GenerationProperties`: lemmas about that specification, including sessions of several calls.
- `Generator`: the `ModelGenerator` class.
  Its constructor and methods update fields step by step, as the source does.
  Each one is proved against the specification functions.
- `CStr`: `copyToCStr` on an `array<char>`, with the `strncpy` semantics and round-trip lemmas.

Where the code reads `mEncodersNames[0]` while the list is empty, the model does not read anything.
This happens when no encoder name was ever supplied. The model takes the explicit exit `NoEncoderConfigured` instead.

Two behaviours of the code are worth stating outright:

- The four per-generator defaults (`mRuleFile`, `mStartRule`, `mSeed`, `mShapeName`) are copied into locals for every shape and never written back (src/client/wrap.cpp:176-180).
  So they do not carry over from one call to the next.
- A failed resolution does not always keep the previous resolve map.
  If `createResolveMap` returns a null map or a non-OK status, that result overwrites the stored map.
  Only an exception leaves the stored map in place.

## Model

| member | source | states |
|---|---|---|
| `Shapes.InitialShape.VertexCount` | src/client/wrap.h:149-151 | `getVertexCount` is the number of stored coordinates |
| `Shapes.InitialShape.IndexCount` | src/client/wrap.h:155-157 | `getIndexCount` is the number of stored face-vertex indices |
| `Shapes.InitialShape.FaceCountsCount` | src/client/wrap.h:161-163 | `getFaceCountsCount` is the number of stored faces |
| `Shapes.FromVertices` | src/client/wrap.cpp:87-91 | keeps the vertices and clears the path flag; `|vert|/3` indices, exactly 0..n-1 as `std::iota` writes them from its 32-bit `int` counter; a single face whose count is all of them |
| `Shapes.FromGeometry` | src/client/wrap.cpp:93-95 | the three lists are stored unchanged, so the count accessors give their lengths; the path flag is clear and the path empty |
| `Shapes.FromPath` | src/client/wrap.cpp:97 | the path flag is set and the path stored; there is no inline geometry (all count accessors are 0) |
| `ShapeAttributes.AttributesFor` | src/client/wrap.cpp:172-174 | shape i uses `attrs[i]` when the caller supplied that many dictionaries, else `attrs[0]` |
| `ShapeAttributes.ExtractMainShapeAttributes` | src/client/wrap.cpp:106-123 | the converted map is the Engine's conversion of the dictionary; each of ruleFile, startRule, seed, shapeName is overridden exactly when the map holds that key with type string, string, int, string, and otherwise keeps the value passed in |
| `Encoders.EncoderData` | src/client/wrap.cpp:190-210 | the main encoder comes first with its own converted options; the Python encoder gives exactly one name/option pair; any other name gives `[name, CGAReport, CGAPrint]` with the report encoder told `name = CGAReport.txt` and the print encoder given an empty map; names and options are parallel |
| `Construction.Accepted` | src/client/wrap.cpp:135-160 | a path shape with an empty file URI, or whose geometry does not resolve with OK, is rejected; an inline shape is accepted exactly when `setGeometry` returns OK |
| `Construction.StillValid` | src/client/wrap.cpp:131-164 | `mValid` starts true, is still set only if the last shape visited was accepted, and once cleared stays cleared |
| `Construction.StoredBuilders` | src/client/wrap.cpp:126 | the builder list has one slot per shape |
| `Construction.StillValidIffAllAccepted` | src/client/wrap.cpp:131-164 | `mValid` survives construction iff every shape is accepted. Rejection means a path shape with an empty file URI, a path whose geometry does not resolve with OK, or inline geometry `setGeometry` rejects |
| `Construction.StoredBuilderAt` | src/client/wrap.cpp:162-163 | slot i holds the builder of shape i exactly when shapes 0..i were all accepted, and is null otherwise |
| `Construction.NoBuilderAfterRejection` | src/client/wrap.cpp:142-163 | once a shape is rejected, no builder is stored for it or for any later shape |
| `Construction.AllBuildersStoredWhenValid` | src/client/wrap.cpp:125-165 | if the flag is still set after construction, every slot holds the builder of its own shape |
| `Generation.InitialState` | src/client/wrap.h:224-237 | a fresh generator has the defaults `bin/rule.cgb`, `default$init`, 666, `InitialShape`, no resolve map, no encoder builder and no encoder names; it is valid iff every shape was accepted, and then all builders are present |
| `Generation.ResolveStep` | src/client/wrap.cpp:264-283 | an empty package path keeps the map and goes on; a throwing `createResolveMap` keeps the map and stops; a returning one replaces the map with its result and the call goes on exactly when that map is non-null with status OK |
| `Generation.NativeShapeAt` | src/client/wrap.cpp:171-186 | shape i gets the builder of slot i, the current resolve map, the conversion of its chosen dictionary, and the main attributes that dictionary sets over the defaults |
| `Generation.NativeShapes` | src/client/wrap.cpp:171-187 | one native shape per slot, each with its own slot's builder and the current resolve map |
| `Generation.Prepared` | src/client/wrap.cpp:292-296 | the encoder builder exists and the resolve map is the newly resolved one; validity, builders and defaults are unchanged; without an encoder name both lists are kept, with one they become the encoder set built from it; the lists stay consistent |
| `Generation.GenerateSpec` | src/client/wrap.cpp:234-363 | a call never changes the validity flag, the builders or the four defaults; it keeps the encoder lists consistent; models come back only on the in-memory path, exactly one per shape, model k for shape k |
| `Generation.Finish` | src/client/wrap.cpp:298-351 | the Engine step leaves the state as it is; models come back only from the in-memory encoder, one per shape index in ascending order |
| `Generation.CollectedModels` | src/client/wrap.cpp:320-323 | draining the collector yields n models and model k has initial-shape index k |
| `Generation.AnotherSpec` | src/client/wrap.cpp:365-372 | `generateAnotherModel` never changes the resolve map or the encoder set |
| `GenerationProperties.EarlyExits` | src/client/wrap.cpp:238-261 | the checks run in order: invalid instance, then fewer than one dictionary per shape when there is not exactly one, then no Engine context; each returns no models and leaves the state untouched; more dictionaries than shapes passes all three |
| `GenerationProperties.ResolveMapRules` | src/client/wrap.cpp:264-283 | an empty package path keeps the map; a returning `createResolveMap` overwrites it, null included; a throwing one keeps it and fails the call; a null map or non-OK status returns no models with only the map changed |
| `GenerationProperties.EncoderStateRules` | src/client/wrap.cpp:291-296 | the encoder lists are rebuilt from the given name only when the call gets past resolution with a non-empty name; otherwise they are unchanged; they always stay consistent |
| `GenerationProperties.NativeShapeSelection` | src/client/wrap.cpp:171-186 | shape i goes to the Engine with its own builder and the current resolve map; its attributes come from its chosen dictionary, laid over the generator's defaults and never over another shape's values |
| `GenerationProperties.SingleDictionaryAppliesToAll` | src/client/wrap.cpp:172-174 | with one dictionary every shape gets the same main attributes and the same converted map |
| `GenerationProperties.CollectorPath` | src/client/wrap.cpp:305-323 | with the Python encoder the list has one entry; an OK generation returns exactly one model per shape, model k carrying index k and the collector's output for k; a non-OK status returns no models |
| `GenerationProperties.FileEncoderPath` | src/client/wrap.cpp:325-351 | with any other encoder the list has three entries and no model ever comes back; a missing or non-string `outputPath`, or one that is not an existing directory, ends the call before generation |
| `GenerationProperties.AnotherModelDelegates` | src/client/wrap.cpp:365-372 | without a resolve map the call returns nothing and changes nothing, whatever the validity flag; otherwise it equals `generateModel(attrs, "", "", {})` |
| `GenerationProperties.AnotherModelNeverWritesFiles` | src/client/wrap.cpp:326 | `generateAnotherModel` with a file encoder always ends at the `outputPath` lookup, because it passes empty options |
| `GenerationProperties.FreshGeneratorNeedsResolveMap` | src/client/wrap.cpp:366-369 | on a fresh generator `generateAnotherModel` fails for lack of a resolve map |
| `GenerationProperties.FirstCallNeedsEncoderName` | src/client/wrap.cpp:303-305 | on a fresh generator, a call that passes resolution without an encoder name has no encoder list to read and returns no models |
| `GenerationProperties.SessionKeepsFixedFields` | src/client/wrap.cpp:176-180 | over any sequence of calls, the validity flag, the builders and the four defaults never change |
| `GenerationProperties.InvalidGeneratorNeverGenerates` | src/client/wrap.cpp:238-241 | after a construction that rejected a shape, every later call of any kind returns no models and exits before any Engine call |
| `GenerationProperties.EncoderSetReused` | src/client/wrap.cpp:295-303 | after any call, a following call without an encoder name keeps exactly the encoder set that call left |
| `Generator.ModelGenerator.constructor` | src/client/wrap.cpp:125-165 | the new object's fields equal `InitialState`: the class defaults, the sticky flag and the builder slots of the construction loop |
| `Generator.ModelGenerator.SetAndCreateInitialShape` | src/client/wrap.cpp:167-188 | one native shape per slot, in slot order; shape i is built from its builder, the main attributes its dictionary sets over copies of the defaults, its converted map and the current resolve map |
| `Generator.ModelGenerator.InitializeEncoderData` | src/client/wrap.cpp:190-210 | only the two encoder lists change, and both become the encoder set built from the given name |
| `Generator.ModelGenerator.GetRawEncoderDataPointers` | src/client/wrap.cpp:212-232 | the two raw arrays have equal length, 1 for the Python encoder and 3 otherwise, and equal the stored lists |
| `Generator.ModelGenerator.GenerateModel` | src/client/wrap.cpp:234-363 | the new fields, the models and the exit taken are those of `GenerateSpec` on the old fields |
| `Generator.ModelGenerator.GenerateWithEncoders` | src/client/wrap.cpp:298-351 | the models and the exit are those of `Finish` on the current fields |
| `Generator.ModelGenerator.GenerateAnotherModel` | src/client/wrap.cpp:365-372 | the new fields, the models and the exit are those of `AnotherSpec` on the old fields |
| `Generator.AssembleModels` | src/client/wrap.cpp:320-323 | n models in ascending index order; model k has index k and the collector's vertices, indices, faces and report for k |
| `CStr.CString` | src/client/wrap.h:57 | the C string of a `std::string` is its prefix before the first NUL; it contains no NUL and is the whole string when there is none |
| `CStr.Strncpy` | src/client/wrap.h:57 | `strncpy` writes exactly n characters: the C string cut to n when it does not fit, otherwise the C string followed by NULs |
| `CStr.CopyToCStr` | src/client/wrap.h:55-61 | the returned size is `|str| + 1` whatever the input size; a size of 0 leaves the buffer untouched; otherwise the first `cstrSize` characters are the `strncpy` image with a NUL in the last slot; nothing beyond `cstrSize` is written |
| `CStr.TerminatedContents` | src/client/wrap.h:56-58 | the written part has length `cstrSize` and ends in NUL; for a NUL-free string it matches `str` at every index below min(|str|, cstrSize-1) |
| `CStr.RoundTrip` | src/client/wrap.h:57-58 | when the buffer has room for a NUL-free string, it reads back as that string, and every character from index `|str|` to the end of the buffer is NUL |
| `CStr.Truncation` | src/client/wrap.h:57-60 | when the buffer is too small, it reads back as the first `cstrSize-1` characters, and the needed size returned exceeds the size given |

## Left out

- All Engine calls are fields of `Prt.Engine`, and the model never looks inside them.
  These are `createResolveMap`, `resolveGeometry`, `setGeometry`, `createValidatedOptions`, the builders' `setAttributes`/`createInitialShape`, `prt::generate`, `pcu::toFileURI`, the dictionary-to-attribute-map conversion and the directory test.
  A validated option set is recorded as the encoder and the map proposed for it.
  A native initial shape is recorded as the builder plus what was set on it.
  A null result of `createInitialShape` or `createValidatedOptions` is not modelled.
- The shared cache object (`mCache`) is left out. It is only handed to the Engine for memoisation and has no effect the layer can observe.
- Only two exceptions are modelled: one from `createResolveMap` and one from the `outputPath` lookup. Exceptions from every other call inside the `try` at src/client/wrap.cpp:257-352 are not modelled. The catch-all handlers at 353-360 return an empty list. What state they leave depends on where the throw happens:
  - Setting attributes or creating a shape at line 289 throws before lines 292-296 run, so the encoder builder and lists stay as they were.
  - Converting or validating options at lines 195, 196 or 207-208 throws after lines 191-194 ran. This leaves `mEncodersNames == [encName]` while `mEncodersOptionsPtr` is empty or partial. A later call without an encoder name then reads past the end of the lists at lines 219 and 224-230.
  - `Encoders.Consistent`, the invariant `GeneratorState.WellFormed`, and "the lists always stay consistent" in `GenerationProperties.EncoderStateRules` hold only because these calls are modelled as total.
- The encoder options are converted with the generator's long-lived `mEncoderBuilder` (src/client/wrap.cpp:195). That builder is created once (292-293) and never reset in this file. The model assumes the conversion ignores whatever that builder already holds and uses the same pure `Engine.toAttributeMap` as for shape attributes, which get a fresh builder at every call (108-109). Anything the builder carries from one call's options into the next is therefore not modelled. `hasEncoderBuilder` records only that the builder exists.
- Logging is left out, including the warning for surplus attribute dictionaries. The model keeps only the exit each message belongs to, as `Generation.Outcome`.
- The Engine context (`PRTContext`, `initializePRT`, `isPRTInitialized`, `shutdownPRT`) and `PythonLogHandler` are left out. Engine initialisation is the boolean `Engine.initialized`.
- The pybind11 module bindings are left out.
- The callback collector (`PyCallbacks`) is not part of this model. Its getters are the per-index function `CollectorRun.collected`, so the merging of reports and the flattening of faces are not modelled.
- Wide and narrow strings are both `string`, and the UTF conversions between them are the identity.
- `CStr.CopyToCStr` treats `char` as Dafny's `char`, not as a byte. The returned size is unbounded, so a `size_t` overflow of `|str| + 1` is not modelled.
- Coordinates and report numbers are opaque `double` bit patterns, because the layer only copies them.
- `GeneratedModel`'s default constructor is left out, because this layer never uses it.
- Shapes.FromVertices: requires fewer than 2^31 index slots. `std::iota` from the literal `0` counts in a 32-bit `int` and increments it after every slot, so 2^31 or more slots overflow it, which C++ leaves undefined. As with the empty encoder list, the model does not give undefined behaviour a value.
- Generator.ModelGenerator.GetRawEncoderDataPointers: requires a non-empty encoder list. The source reads `mEncodersNames[0]` without checking; `GenerateModel` takes the `NoEncoderConfigured` exit before calling it on an empty list.
