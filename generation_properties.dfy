/** Properties of `generateModel` and `generateAnotherModel` as the source promises
    them, stated about the specification functions of module Generation. */
module GenerationProperties {
  import opened Values
  import opened Shapes
  import opened Prt
  import opened ShapeAttributes
  import opened Encoders
  import opened Construction
  import opened Generation

  /** The three checks before any Engine call, in source order: an invalid instance,
      too few attribute dictionaries, a missing Engine context. Each returns no models
      and leaves every field as it was. More dictionaries than shapes only warns. */
  lemma EarlyExits(st: GeneratorState, e: Engine, attrs: seq<Dict>, rulePackagePath: string, encName: string, encOpts: Dict)
    requires st.WellFormed()
    ensures var r := GenerateSpec(st, e, attrs, rulePackagePath, encName, encOpts);
      && (!st.valid ==> r == Generation(st, [], InvalidInstance))
      && (st.valid && |attrs| != 1 && |attrs| < |st.builders| ==> r == Generation(st, [], NotEnoughAttributeSets))
      && (st.valid && (|attrs| == 1 || |attrs| >= |st.builders|) && !e.initialized ==> r == Generation(st, [], EngineNotInitialized))
      && (PassesGuards(st, e, attrs) ==>
            r.outcome != InvalidInstance && r.outcome != NotEnoughAttributeSets && r.outcome != EngineNotInitialized)
  {
  }

  /** The resolve map once the guards passed. An empty package path keeps it. A call of
      `createResolveMap` that returns overwrites it with its result, null included; one
      that throws keeps it and fails the call. A null map or a non-OK status fails the
      call with no models and nothing else changed. */
  lemma ResolveMapRules(st: GeneratorState, e: Engine, attrs: seq<Dict>, rulePackagePath: string, encName: string, encOpts: Dict)
    requires st.WellFormed() && PassesGuards(st, e, attrs)
    ensures var r := GenerateSpec(st, e, attrs, rulePackagePath, encName, encOpts);
      var attempt := e.createResolveMap(e.toFileUri(rulePackagePath));
      && (rulePackagePath == "" ==> r.state.resolveMap == st.resolveMap && r.outcome != ResolveMapFailed)
      && (rulePackagePath != "" && attempt.Returned? ==> r.state.resolveMap == attempt.resolveMap)
      && (rulePackagePath != "" && attempt.Threw? ==> r == Generation(st, [], ResolveMapFailed))
      && (rulePackagePath != "" && attempt.Returned? && (attempt.resolveMap.None? || attempt.status != Ok) ==>
            r == Generation(st.(resolveMap := attempt.resolveMap), [], ResolveMapFailed))
      && (rulePackagePath != "" && attempt.Returned? && attempt.resolveMap.Some? && attempt.status == Ok ==>
            r.outcome != ResolveMapFailed)
  {
  }

  /** The encoder lists change only when the call gets past resolution with a non-empty
      encoder name; then they are exactly the set built from that name. The lists always
      keep their shape: empty, one Python encoder, or three encoders. */
  lemma EncoderStateRules(st: GeneratorState, e: Engine, attrs: seq<Dict>, rulePackagePath: string, encName: string, encOpts: Dict)
    requires st.WellFormed()
    ensures var r := GenerateSpec(st, e, attrs, rulePackagePath, encName, encOpts);
      var reached := PassesGuards(st, e, attrs) && ResolveStep(e, st.resolveMap, rulePackagePath).ok;
      && Consistent(r.state.encoderNames, r.state.encoderOptions)
      && (reached && encName != "" ==>
            r.state.encoderNames == EncoderData(e, encName, encOpts).names &&
            r.state.encoderOptions == EncoderData(e, encName, encOpts).options)
      && (!reached || encName == "" ==>
            r.state.encoderNames == st.encoderNames && r.state.encoderOptions == st.encoderOptions)
  {
  }

  /** Shape `i` is handed to the Engine with its own builder, the current resolve map,
      and the main attributes its dictionary (`attrs[i]`, or `attrs[0]` past the end)
      sets over the generator's defaults, never over another shape's values. */
  lemma NativeShapeSelection(st: GeneratorState, e: Engine, attrs: seq<Dict>, i: nat)
    requires st.WellFormed() && st.valid && |attrs| > 0 && i < |st.builders|
    ensures var d := if i < |attrs| then attrs[i] else attrs[0];
      var shapes := NativeShapes(st, e, attrs);
      && |shapes| == |st.builders|
      && shapes[i].builder == st.builders[i].value
      && shapes[i].resolveMap == st.resolveMap
      && shapes[i].settings == ExtractMainShapeAttributes(e, d, st.defaults).settings
      && shapes[i].attributes == e.toAttributeMap(d)
  {
  }

  /** With a single dictionary every shape gets the same main attributes and map. */
  lemma SingleDictionaryAppliesToAll(st: GeneratorState, e: Engine, attrs: seq<Dict>, i: nat, j: nat)
    requires st.WellFormed() && st.valid && |attrs| == 1 && i < |st.builders| && j < |st.builders|
    ensures NativeShapes(st, e, attrs)[i].settings == NativeShapes(st, e, attrs)[j].settings
    ensures NativeShapes(st, e, attrs)[i].attributes == NativeShapes(st, e, attrs)[j].attributes
  {
  }

  /** The in-memory path: when the encoder list in use starts with the Python encoder,
      an OK generation returns exactly one model per shape, model `k` for shape `k` with
      what the collector holds for `k`; any other status returns no models. */
  lemma CollectorPath(st: GeneratorState, e: Engine, attrs: seq<Dict>, rulePackagePath: string, encName: string, encOpts: Dict)
    requires st.WellFormed() && PassesGuards(st, e, attrs)
    requires ResolveStep(e, st.resolveMap, rulePackagePath).ok
    requires var names := GenerateSpec(st, e, attrs, rulePackagePath, encName, encOpts).state.encoderNames;
      names != [] && names[0] == PyEncoder
    ensures var r := GenerateSpec(st, e, attrs, rulePackagePath, encName, encOpts);
      var resolved := ResolveStep(e, st.resolveMap, rulePackagePath);
      var run := e.generateWithCollector(NativeShapes(st.(resolveMap := resolved.resolveMap), e, attrs),
                                         r.state.encoderNames, r.state.encoderOptions, |st.builders|);
      && |r.state.encoderNames| == 1
      && (run.status == Ok ==>
            r.outcome == ModelsGenerated && |r.models| == |st.builders| &&
            forall k :: 0 <= k < |r.models| ==> r.models[k] == GeneratedModel(
              k, run.collected(k).vertices, run.collected(k).indices, run.collected(k).faces, run.collected(k).report))
      && (run.status != Ok ==> r.models == [] && r.outcome == GenerateFailed(run.status))
  {
  }

  /** The file path: when the encoder list in use starts with any other encoder, no
      model ever comes back. Without a string "outputPath", or when it is not an
      existing directory, the call stops before the Engine generates anything. */
  lemma FileEncoderPath(st: GeneratorState, e: Engine, attrs: seq<Dict>, rulePackagePath: string, encName: string, encOpts: Dict)
    requires st.WellFormed() && PassesGuards(st, e, attrs)
    requires ResolveStep(e, st.resolveMap, rulePackagePath).ok
    requires var names := GenerateSpec(st, e, attrs, rulePackagePath, encName, encOpts).state.encoderNames;
      names != [] && names[0] != PyEncoder
    ensures var r := GenerateSpec(st, e, attrs, rulePackagePath, encName, encOpts);
      && r.models == []
      && |r.state.encoderNames| == 3
      && (!("outputPath" in encOpts && encOpts["outputPath"].Str?) ==> r.outcome == OutputPathUnreadable)
      && ("outputPath" in encOpts && encOpts["outputPath"].Str? && !e.isDirectory(encOpts["outputPath"].s) ==>
            r.outcome == OutputPathNotDirectory)
  {
  }

  /** `generateAnotherModel` is refused without a resolve map (the validity flag is not
      even looked at); with one it is `generateModel` with an empty package path, an
      empty encoder name and empty options, so it reuses the map and the encoder set. */
  lemma AnotherModelDelegates(st: GeneratorState, e: Engine, attrs: seq<Dict>)
    requires st.WellFormed()
    ensures st.resolveMap.None? ==> AnotherSpec(st, e, attrs) == Generation(st, [], MissingResolveMap)
    ensures st.resolveMap.Some? ==> AnotherSpec(st, e, attrs) == GenerateSpec(st, e, attrs, "", "", map[])
  {
  }

  /** `generateAnotherModel` on a generator whose encoder is a file encoder never writes:
      the empty options it passes have no "outputPath". */
  lemma AnotherModelNeverWritesFiles(st: GeneratorState, e: Engine, attrs: seq<Dict>)
    requires st.WellFormed() && st.resolveMap.Some? && PassesGuards(st, e, attrs)
    requires st.encoderNames != [] && st.encoderNames[0] != PyEncoder
    ensures AnotherSpec(st, e, attrs).outcome == OutputPathUnreadable
    ensures AnotherSpec(st, e, attrs).models == []
  {
  }

  /** On a fresh generator `generateAnotherModel` fails for lack of a resolve map. */
  lemma FreshGeneratorNeedsResolveMap(e: Engine, shapes: seq<InitialShape>, attrs: seq<Dict>)
    ensures AnotherSpec(InitialState(e, shapes), e, attrs) == Generation(InitialState(e, shapes), [], MissingResolveMap)
  {
  }

  /** On a fresh valid generator, a call that gets past resolution without an encoder
      name has no encoder list to read: the source reads `mEncodersNames[0]` of an
      empty list there, which the model makes the exit `NoEncoderConfigured`. */
  lemma FirstCallNeedsEncoderName(e: Engine, shapes: seq<InitialShape>, attrs: seq<Dict>, rulePackagePath: string, encOpts: Dict)
    requires PassesGuards(InitialState(e, shapes), e, attrs)
    requires ResolveStep(e, None, rulePackagePath).ok
    ensures GenerateSpec(InitialState(e, shapes), e, attrs, rulePackagePath, "", encOpts).outcome == NoEncoderConfigured
  {
  }

  /** One call a host program makes on a generator. */
  datatype Call =
    | GenerateModel(attrs: seq<Dict>, rulePackagePath: string, encName: string, encOpts: Dict)
    | GenerateAnotherModel(attrs: seq<Dict>)

  /** One call's result on state `st`. */
  function Step(st: GeneratorState, e: Engine, call: Call): (r: Generation)
    requires st.WellFormed()
    ensures r.state.WellFormed()
    ensures r.state.valid == st.valid && r.state.builders == st.builders && r.state.defaults == st.defaults
  {
    match call
    case GenerateModel(attrs, path, name, opts) => GenerateSpec(st, e, attrs, path, name, opts)
    case GenerateAnotherModel(attrs) => AnotherSpec(st, e, attrs)
  }

  /** The results of a sequence of calls on one generator, each on the state the
      previous one left. */
  function Session(st: GeneratorState, e: Engine, calls: seq<Call>): seq<Generation>
    requires st.WellFormed()
    decreases |calls|
  {
    if calls == [] then []
    else
      var r := Step(st, e, calls[0]);
      [r] + Session(r.state, e, calls[1..])
  }

  /** However many calls a session makes, none of them changes the validity flag, the
      builders or the four default attributes: every call reads the defaults and none
      writes them back. */
  lemma {:induction false} SessionKeepsFixedFields(st: GeneratorState, e: Engine, calls: seq<Call>)
    requires st.WellFormed()
    ensures |Session(st, e, calls)| == |calls|
    ensures forall k :: 0 <= k < |calls| ==>
              var s := Session(st, e, calls)[k].state;
              s.valid == st.valid && s.builders == st.builders && s.defaults == st.defaults
    decreases |calls|
  {
    if calls != [] {
      var r := Step(st, e, calls[0]);
      SessionKeepsFixedFields(r.state, e, calls[1..]);
    }
  }

  /** A generator whose construction rejected a shape never returns a model, whatever
      calls follow: each call fails fast before any Engine call. */
  lemma {:induction false} InvalidGeneratorNeverGenerates(e: Engine, shapes: seq<InitialShape>, calls: seq<Call>, i: nat)
    requires i < |shapes| && !Accepted(e, shapes[i])
    ensures forall k :: 0 <= k < |Session(InitialState(e, shapes), e, calls)| ==>
              Session(InitialState(e, shapes), e, calls)[k].models == [] &&
              Session(InitialState(e, shapes), e, calls)[k].outcome in {InvalidInstance, MissingResolveMap}
  {
    var st := InitialState(e, shapes);
    assert !st.valid;
    InvalidSessionFailsFast(st, e, calls);
  }

  /** Every call of a session on an invalid state takes one of the two early exits. */
  lemma {:induction false} InvalidSessionFailsFast(st: GeneratorState, e: Engine, calls: seq<Call>)
    requires st.WellFormed() && !st.valid
    ensures forall k :: 0 <= k < |Session(st, e, calls)| ==>
              Session(st, e, calls)[k].models == [] &&
              Session(st, e, calls)[k].outcome in {InvalidInstance, MissingResolveMap}
    decreases |calls|
  {
    if calls != [] {
      var r := Step(st, e, calls[0]);
      InvalidSessionFailsFast(r.state, e, calls[1..]);
    }
  }

  /** Once a call has built an encoder set, a later call without an encoder name
      (including `generateAnotherModel`) hands the Engine that same set. */
  lemma EncoderSetReused(st: GeneratorState, e: Engine, first: Call, attrs: seq<Dict>, rulePackagePath: string, encOpts: Dict)
    requires st.WellFormed()
    ensures var s1 := Step(st, e, first).state;
      var r2 := GenerateSpec(s1, e, attrs, rulePackagePath, "", encOpts);
      r2.state.encoderNames == s1.encoderNames && r2.state.encoderOptions == s1.encoderOptions
  {
    var s1 := Step(st, e, first).state;
    EncoderStateRules(s1, e, attrs, rulePackagePath, "", encOpts);
  }
}
