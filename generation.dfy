/** The state a `ModelGenerator` keeps between calls and the pure specification of one
    `generateModel` and one `generateAnotherModel` call on it
    (src/client/wrap.cpp:125-372, src/client/wrap.h:212-246). */
module Generation {
  import opened Values
  import opened Shapes
  import opened Prt
  import opened ShapeAttributes
  import opened Encoders
  import opened Construction

  /** The fields of a generator: `mValid`, `mInitialShapesBuilders`, `mResolveMap`,
      whether `mEncoderBuilder` exists, `mEncodersNames`, `mEncodersOptionsPtr` and the
      four defaults `mRuleFile`, `mStartRule`, `mSeed`, `mShapeName`. */
  datatype GeneratorState = GeneratorState(
    valid: bool,
    builders: seq<Option<ShapeBuilder>>,
    resolveMap: Option<ResolveMap>,
    hasEncoderBuilder: bool,
    encoderNames: seq<string>,
    encoderOptions: seq<ValidatedOptions>,
    defaults: ShapeSettings)
  {
    /** A valid generator has a builder in every slot; the encoder lists are consistent. */
    predicate WellFormed()
    {
      && (valid ==> forall i :: 0 <= i < |builders| ==> builders[i].Some?)
      && Consistent(encoderNames, encoderOptions)
    }
  }

  /** The state right after construction from `shapes`: the defaults of the class
      declaration, no resolve map, no encoder builder and no encoder names. */
  function InitialState(e: Engine, shapes: seq<InitialShape>): (st: GeneratorState)
    ensures st.WellFormed()
    ensures st.defaults == DefaultSettings
    ensures st.resolveMap == None && !st.hasEncoderBuilder && st.encoderNames == [] && st.encoderOptions == []
    ensures |st.builders| == |shapes|
    ensures st.valid <==> forall i :: 0 <= i < |shapes| ==> Accepted(e, shapes[i])
  {
    StillValidIffAllAccepted(e, shapes);
    assert StillValid(e, shapes) ==> forall i :: 0 <= i < |shapes| ==> StoredBuilders(e, shapes)[i].Some? by {
      if StillValid(e, shapes) { AllBuildersStoredWhenValid(e, shapes); }
    }
    GeneratorState(StillValid(e, shapes), StoredBuilders(e, shapes), None, false, [], [], DefaultSettings)
  }

  /** Why a call returned what it returned; each alternative is one exit of the source. */
  datatype Outcome =
    | InvalidInstance         // construction cleared the validity flag
    | NotEnoughAttributeSets  // neither one dictionary nor at least one per shape
    | EngineNotInitialized    // no Engine context
    | ResolveMapFailed        // the rule package did not give a resolve map with status OK
    | NoEncoderConfigured     // no encoder name was ever supplied: the source reads an empty list here
    | GenerateFailed(status: Status)  // the Engine's generation returned a non-OK status
    | OutputPathUnreadable    // file encoder: "outputPath" missing or not a string, so the lookup threw
    | OutputPathNotDirectory  // file encoder: "outputPath" is not an existing directory
    | FilesWritten            // file encoder ran; nothing comes back in memory
    | ModelsGenerated         // in-memory encoder ran; one model per shape
    | MissingResolveMap       // `generateAnotherModel` before any resolve map exists

  /** The result of one call: the generator's new state, the models returned, the exit taken. */
  datatype Generation = Generation(state: GeneratorState, models: seq<GeneratedModel>, outcome: Outcome)

  /** The three checks that precede any Engine call, in source order, all passed. */
  predicate PassesGuards(st: GeneratorState, e: Engine, attrs: seq<Dict>)
  {
    st.valid && (|attrs| == 1 || |attrs| >= |st.builders|) && e.initialized
  }

  /** The resolve map after the optional resolution step, and whether the call goes on. */
  datatype ResolveResult = ResolveResult(resolveMap: Option<ResolveMap>, ok: bool)

  /** With an empty package path the map is kept. Otherwise a returning
      `createResolveMap` overwrites it, even with null; a throwing one leaves it and
      leaves the status at its initial unspecified error. The call goes on only with a
      non-null map and status OK. */
  function ResolveStep(e: Engine, current: Option<ResolveMap>, rulePackagePath: string): (r: ResolveResult)
    ensures rulePackagePath == "" ==> r == ResolveResult(current, true)
    ensures rulePackagePath != "" && r.ok ==> r.resolveMap.Some?
    ensures rulePackagePath != "" ==>
              var attempt := e.createResolveMap(e.toFileUri(rulePackagePath));
              && (attempt.Threw? ==> r == ResolveResult(current, false))
              && (attempt.Returned? ==>
                    r.resolveMap == attempt.resolveMap &&
                    (r.ok <==> attempt.resolveMap.Some? && attempt.status == Ok))
  {
    if rulePackagePath == "" then ResolveResult(current, true)
    else
      var attempt := e.createResolveMap(e.toFileUri(rulePackagePath));
      var (m, status) := match attempt
        case Returned(m, s) => (m, s)
        case Threw => (current, UnspecifiedError);
      ResolveResult(m, m.Some? && status == Ok)
  }

  /** The native shape made for shape `i`: its builder, the four main attributes taken
      from its dictionary over the generator's defaults, the converted map and the
      current resolve map. */
  function NativeShapeAt(st: GeneratorState, e: Engine, attrs: seq<Dict>, i: nat): (s: NativeShape)
    requires st.WellFormed() && st.valid && i < |st.builders| && |attrs| > 0
    ensures Some(s.builder) == st.builders[i] && s.resolveMap == st.resolveMap
    ensures s.attributes == e.toAttributeMap(AttributesFor(attrs, i))
    ensures s.settings == ExtractMainShapeAttributes(e, AttributesFor(attrs, i), st.defaults).settings
  {
    var x := ExtractMainShapeAttributes(e, AttributesFor(attrs, i), st.defaults);
    NativeShape(st.builders[i].value, x.settings, x.converted, st.resolveMap)
  }

  /** The native shapes of all slots, in slot order. */
  function NativeShapes(st: GeneratorState, e: Engine, attrs: seq<Dict>): (r: seq<NativeShape>)
    requires st.WellFormed() && st.valid && (|attrs| > 0 || |st.builders| == 0)
    ensures |r| == |st.builders|
    ensures forall i :: 0 <= i < |r| ==> Some(r[i].builder) == st.builders[i] && r[i].resolveMap == st.resolveMap
  {
    seq(|st.builders|, i requires 0 <= i < |st.builders| => NativeShapeAt(st, e, attrs, i))
  }

  /** The models drained from the collector: one per index 0..n-1, in that order. */
  function CollectedModels(collected: nat -> ShapeOutput, n: nat): (r: seq<GeneratedModel>)
    ensures |r| == n && forall k :: 0 <= k < n ==> r[k].initialShapeIndex == k
  {
    seq(n, k requires 0 <= k < n =>
          GeneratedModel(k, collected(k).vertices, collected(k).indices, collected(k).faces, collected(k).report))
  }

  /** The state once the resolve step succeeded: new resolve map, encoder builder
      created, and the encoder lists rebuilt only when a name was supplied. */
  function Prepared(st: GeneratorState, e: Engine, resolveMap: Option<ResolveMap>, encName: string, encOpts: Dict): (r: GeneratorState)
    requires st.WellFormed()
    ensures r.WellFormed()
    ensures r.hasEncoderBuilder && r.resolveMap == resolveMap
    ensures r.valid == st.valid && r.builders == st.builders && r.defaults == st.defaults
    ensures encName == "" ==> r.encoderNames == st.encoderNames && r.encoderOptions == st.encoderOptions
    ensures encName != "" ==>
              r.encoderNames == EncoderData(e, encName, encOpts).names &&
              r.encoderOptions == EncoderData(e, encName, encOpts).options
  {
    var withBuilder := st.(resolveMap := resolveMap, hasEncoderBuilder := true);
    if encName == "" then withBuilder
    else
      var enc := EncoderData(e, encName, encOpts);
      withBuilder.(encoderNames := enc.names, encoderOptions := enc.options)
  }

  /** `generateModel(shapeAttributes, rulePackagePath, encoderName, encoderOptions)`. */
  function GenerateSpec(st: GeneratorState, e: Engine, attrs: seq<Dict>, rulePackagePath: string,
                        encName: string, encOpts: Dict): (r: Generation)
    requires st.WellFormed()
    ensures r.state.WellFormed()
    ensures r.state.valid == st.valid && r.state.builders == st.builders && r.state.defaults == st.defaults
    ensures r.models != [] ==> r.outcome == ModelsGenerated
    ensures r.outcome == ModelsGenerated ==>
              |r.models| == |st.builders| &&
              forall k :: 0 <= k < |r.models| ==> r.models[k].initialShapeIndex == k
  {
    if !st.valid then Generation(st, [], InvalidInstance)
    else if |attrs| != 1 && |attrs| < |st.builders| then Generation(st, [], NotEnoughAttributeSets)
    else if !e.initialized then Generation(st, [], EngineNotInitialized)
    else
      var resolved := ResolveStep(e, st.resolveMap, rulePackagePath);
      if !resolved.ok then Generation(st.(resolveMap := resolved.resolveMap), [], ResolveMapFailed)
      else
        var shapes := NativeShapes(st.(resolveMap := resolved.resolveMap), e, attrs);
        Finish(Prepared(st, e, resolved.resolveMap, encName, encOpts), e, shapes, |st.builders|, encOpts)
  }

  /** The rest of a call once the native shapes and the encoder set are ready: the
      Engine generates once with the stored encoder lists, into the collector for the
      Python encoder and into the "outputPath" directory for any other. */
  function Finish(st: GeneratorState, e: Engine, shapes: seq<NativeShape>, n: nat, encOpts: Dict): (r: Generation)
    ensures r.state == st
    ensures r.models != [] ==> r.outcome == ModelsGenerated
    ensures r.outcome == ModelsGenerated ==> |r.models| == n && forall k :: 0 <= k < n ==> r.models[k].initialShapeIndex == k
  {
    if st.encoderNames == [] then Generation(st, [], NoEncoderConfigured)
    else if st.encoderNames[0] == PyEncoder then
      var run := e.generateWithCollector(shapes, st.encoderNames, st.encoderOptions, n);
      if run.status != Ok then Generation(st, [], GenerateFailed(run.status))
      else Generation(st, CollectedModels(run.collected, n), ModelsGenerated)
    else if !("outputPath" in encOpts && encOpts["outputPath"].Str?) then
      Generation(st, [], OutputPathUnreadable)
    else if !e.isDirectory(encOpts["outputPath"].s) then
      Generation(st, [], OutputPathNotDirectory)
    else
      var status := e.generateToDirectory(shapes, st.encoderNames, st.encoderOptions, encOpts["outputPath"].s);
      if status != Ok then Generation(st, [], GenerateFailed(status))
      else Generation(st, [], FilesWritten)
  }

  /** `generateAnotherModel(shapeAttributes)`: refused without a resolve map, otherwise
      `generateModel` with no package path, no encoder name and no encoder options. */
  function AnotherSpec(st: GeneratorState, e: Engine, attrs: seq<Dict>): (r: Generation)
    requires st.WellFormed()
    ensures r.state.WellFormed()
    ensures r.state.resolveMap == st.resolveMap
    ensures r.state.encoderNames == st.encoderNames && r.state.encoderOptions == st.encoderOptions
  {
    if st.resolveMap.None? then Generation(st, [], MissingResolveMap)
    else GenerateSpec(st, e, attrs, "", "", map[])
  }
}
