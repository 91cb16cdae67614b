/** The generator object: its fields, its constructor and the steps of a generation
    request, each proved against module Generation (src/client/wrap.cpp:125-372,
    src/client/wrap.h:212-246). */
module Generator {
  import opened Values
  import opened Shapes
  import opened Prt
  import opened ShapeAttributes
  import opened Encoders
  import opened Construction
  import opened Generation

  class ModelGenerator {
    var valid: bool
    var initialShapesBuilders: seq<Option<ShapeBuilder>>
    var resolveMap: Option<ResolveMap>
    var hasEncoderBuilder: bool
    var encodersNames: seq<string>
    var encodersOptions: seq<ValidatedOptions>
    var ruleFile: string
    var startRule: string
    var seed: int32
    var shapeName: string

    /** The fields as one value. */
    function State(): GeneratorState
      reads this
    {
      GeneratorState(valid, initialShapesBuilders, resolveMap, hasEncoderBuilder, encodersNames, encodersOptions,
                     ShapeSettings(ruleFile, startRule, seed, shapeName))
    }

    /** The object invariant: a valid generator has all its builders, and the encoder
        lists have one of their three shapes. */
    ghost predicate WellFormed()
      reads this
    {
      State().WellFormed()
    }

    /** Starts from the class defaults, then gives each shape a builder, in order. A path
        shape with an empty file URI, a path whose geometry does not resolve, or inline
        geometry the Engine rejects clears the validity flag; a builder is stored only
        while the flag is still set. */
    constructor (e: Engine, myGeo: seq<InitialShape>)
      ensures WellFormed()
      ensures State() == InitialState(e, myGeo)
    {
      valid := true;
      resolveMap := None;
      hasEncoderBuilder := false;
      encodersNames := [];
      encodersOptions := [];
      ruleFile := DefaultRuleFile;
      startRule := DefaultStartRule;
      seed := DefaultSeed;
      shapeName := DefaultShapeName;
      initialShapesBuilders := seq(|myGeo|, _ => None);
      new;
      var ind := 0;
      while ind < |myGeo|
        invariant 0 <= ind <= |myGeo|
        invariant valid == StillValid(e, myGeo[..ind])
        invariant initialShapesBuilders == StoredBuilders(e, myGeo[..ind]) + seq(|myGeo| - ind, _ => None)
        invariant resolveMap == None && !hasEncoderBuilder && encodersNames == [] && encodersOptions == []
        invariant ShapeSettings(ruleFile, startRule, seed, shapeName) == DefaultSettings
      {
        var shape := myGeo[ind];
        if shape.pathFlag {
          var uri := e.toFileUri(shape.path);
          if uri != "" {
            var s := e.resolveGeometry(uri);
            if s != Ok {
              valid := false;
            }
          } else {
            valid := false;
          }
        } else {
          if e.setGeometry(shape.vertices, shape.indices, shape.faceCounts) != Ok {
            valid := false;
          }
        }
        if valid {
          initialShapesBuilders := initialShapesBuilders[ind := Some(ShapeBuilder(shape))];
        }
        assert myGeo[..ind + 1][..ind] == myGeo[..ind];
        ind := ind + 1;
      }
      assert myGeo[..ind] == myGeo;
      assert State() == InitialState(e, myGeo);
    }

    /** For every slot, in order: picks the shape's dictionary, starts from copies of the
        four defaults, lets the dictionary override them, and creates the native shape
        from the slot's builder and the current resolve map. The defaults themselves are
        only read. */
    method SetAndCreateInitialShape(e: Engine, shapesAttr: seq<Dict>) returns (initShapes: seq<NativeShape>)
      requires WellFormed() && valid
      requires |shapesAttr| > 0 || |initialShapesBuilders| == 0
      ensures |initShapes| == |initialShapesBuilders|
      ensures forall i :: 0 <= i < |initShapes| ==>
                var d := if i < |shapesAttr| then shapesAttr[i] else shapesAttr[0];
                var x := ExtractMainShapeAttributes(e, d, ShapeSettings(ruleFile, startRule, seed, shapeName));
                initShapes[i] == NativeShape(initialShapesBuilders[i].value, x.settings, x.converted, resolveMap)
      ensures initShapes == NativeShapes(State(), e, shapesAttr)
    {
      initShapes := [];
      var ind := 0;
      while ind < |initialShapesBuilders|
        invariant 0 <= ind <= |initialShapesBuilders|
        invariant |initShapes| == ind
        invariant forall i :: 0 <= i < ind ==> initShapes[i] == NativeShapeAt(State(), e, shapesAttr, i)
      {
        var shapeAttr := shapesAttr[0];
        if |shapesAttr| > ind {
          shapeAttr := shapesAttr[ind];
        }
        var settings := ShapeSettings(ruleFile, startRule, seed, shapeName);
        var extracted := ExtractMainShapeAttributes(e, shapeAttr, settings);
        initShapes := initShapes + [NativeShape(initialShapesBuilders[ind].value, extracted.settings, extracted.converted, resolveMap)];
        ind := ind + 1;
      }
    }

    /** Replaces both encoder lists by the set built from `encName`: the main encoder with
        its validated options, then, unless it is the Python encoder, the CGA report and
        CGA print encoders with their fixed options. */
    method InitializeEncoderData(e: Engine, encName: string, encOpt: Dict)
      requires hasEncoderBuilder
      modifies this`encodersNames, this`encodersOptions
      ensures encodersNames == EncoderData(e, encName, encOpt).names
      ensures encodersOptions == EncoderData(e, encName, encOpt).options
    {
      encodersNames := [];
      encodersOptions := [];
      encodersNames := encodersNames + [encName];
      encodersOptions := encodersOptions + [ValidatedOptions(encName, e.toAttributeMap(encOpt))];
      if encName != PyEncoder {
        encodersNames := encodersNames + [CgaReportEncoder, CgaPrintEncoder];
        encodersOptions := encodersOptions + [ValidatedOptions(CgaReportEncoder, Some(ReportOptions)),
                                              ValidatedOptions(CgaPrintEncoder, Some(PrintOptions))];
      }
    }

    /** The raw encoder and option arrays handed to the Engine: always of equal length,
        one for the Python encoder and three otherwise, and equal to the stored lists. */
    method GetRawEncoderDataPointers() returns (allEnc: seq<string>, allEncOpt: seq<ValidatedOptions>)
      requires WellFormed() && encodersNames != []
      ensures |allEnc| == |allEncOpt|
      ensures |allEnc| == 1 <==> encodersNames[0] == PyEncoder
      ensures |allEnc| == 1 || |allEnc| == 3
      ensures allEnc == encodersNames && allEncOpt == encodersOptions
    {
      if encodersNames[0] == PyEncoder {
        allEnc := [encodersNames[0]];
        allEncOpt := [encodersOptions[0]];
      } else {
        allEnc := [encodersNames[0], encodersNames[1], encodersNames[2]];
        allEncOpt := [encodersOptions[0], encodersOptions[1], encodersOptions[2]];
      }
    }

    /** `generateModel`: the checks, the optional resolution, the native shapes, the
        encoder set, and one Engine generation, as specified by `GenerateSpec`. */
    method GenerateModel(e: Engine, shapeAttributes: seq<Dict>, rulePackagePath: string,
                         geometryEncoderName: string, geometryEncoderOptions: Dict)
      returns (models: seq<GeneratedModel>, outcome: Outcome)
      requires WellFormed()
      modifies this
      ensures WellFormed()
      ensures Generation(State(), models, outcome)
              == GenerateSpec(old(State()), e, shapeAttributes, rulePackagePath, geometryEncoderName, geometryEncoderOptions)
    {
      ghost var st0 := State();
      ghost var spec := GenerateSpec(st0, e, shapeAttributes, rulePackagePath, geometryEncoderName, geometryEncoderOptions);
      if !valid {
        assert spec == Generation(st0, [], InvalidInstance);
        return [], InvalidInstance;
      }
      if |shapeAttributes| != 1 && |shapeAttributes| < |initialShapesBuilders| {
        assert spec == Generation(st0, [], NotEnoughAttributeSets);
        return [], NotEnoughAttributeSets;
      }
      // More dictionaries than shapes only draws a warning; the extra ones are unused.
      if !e.initialized {
        assert spec == Generation(st0, [], EngineNotInitialized);
        return [], EngineNotInitialized;
      }

      ghost var resolved := ResolveStep(e, st0.resolveMap, rulePackagePath);
      if rulePackagePath != "" {
        var status := UnspecifiedError;
        match e.createResolveMap(e.toFileUri(rulePackagePath)) {
          case Returned(m, s) =>
            resolveMap := m;
            status := s;
          case Threw =>
            // the exception is caught; the map and the status stay as they were
        }
        assert resolveMap == resolved.resolveMap && (resolveMap.Some? && status == Ok) == resolved.ok;
        if !(resolveMap.Some? && status == Ok) {
          assert State() == st0.(resolveMap := resolved.resolveMap);
          assert spec == Generation(State(), [], ResolveMapFailed);
          return [], ResolveMapFailed;
        }
      }
      assert resolved.ok && State() == st0.(resolveMap := resolved.resolveMap);

      var initialShapes := SetAndCreateInitialShape(e, shapeAttributes);
      assert initialShapes == NativeShapes(st0.(resolveMap := resolved.resolveMap), e, shapeAttributes);

      if !hasEncoderBuilder {
        hasEncoderBuilder := true;
      }
      if geometryEncoderName != "" {
        InitializeEncoderData(e, geometryEncoderName, geometryEncoderOptions);
      }
      ghost var prepared := Prepared(st0, e, resolved.resolveMap, geometryEncoderName, geometryEncoderOptions);
      assert State() == prepared;
      assert spec == Finish(prepared, e, initialShapes, |initialShapesBuilders|, geometryEncoderOptions);
      if encodersNames == [] {
        // No encoder name was ever supplied: the source reads the first of no names.
        return [], NoEncoderConfigured;
      }
      models, outcome := GenerateWithEncoders(e, initialShapes, geometryEncoderOptions);
    }

    /** The Engine generation with the stored encoder lists: into a fresh collector sized
        for all shapes when the main encoder is the Python encoder, draining one model per
        shape on status OK; otherwise into the existing directory named by "outputPath",
        returning no models in every case. */
    method GenerateWithEncoders(e: Engine, initialShapes: seq<NativeShape>, geometryEncoderOptions: Dict)
      returns (models: seq<GeneratedModel>, outcome: Outcome)
      requires WellFormed() && encodersNames != []
      ensures Generation(State(), models, outcome)
              == Finish(State(), e, initialShapes, |initialShapesBuilders|, geometryEncoderOptions)
    {
      var encoders, encodersOpts := GetRawEncoderDataPointers();

      if encodersNames[0] == PyEncoder {
        var run := e.generateWithCollector(initialShapes, encoders, encodersOpts, |initialShapesBuilders|);
        if run.status != Ok {
          return [], GenerateFailed(run.status);
        }
        models := AssembleModels(run.collected, |initialShapesBuilders|);
        outcome := ModelsGenerated;
      } else {
        if !("outputPath" in geometryEncoderOptions && geometryEncoderOptions["outputPath"].Str?) {
          return [], OutputPathUnreadable;
        }
        var outputPath := geometryEncoderOptions["outputPath"].s;
        if !e.isDirectory(outputPath) {
          return [], OutputPathNotDirectory;
        }
        var status := e.generateToDirectory(initialShapes, encoders, encodersOpts, outputPath);
        if status != Ok {
          return [], GenerateFailed(status);
        }
        return [], FilesWritten;
      }
    }

    /** `generateAnotherModel`: refused without a resolve map, otherwise `generateModel`
        with no package path, no encoder name and empty encoder options. */
    method GenerateAnotherModel(e: Engine, shapeAttributes: seq<Dict>)
      returns (models: seq<GeneratedModel>, outcome: Outcome)
      requires WellFormed()
      modifies this
      ensures WellFormed()
      ensures Generation(State(), models, outcome) == AnotherSpec(old(State()), e, shapeAttributes)
    {
      if resolveMap.None? {
        return [], MissingResolveMap;
      }
      models, outcome := GenerateModel(e, shapeAttributes, "", "", map[]);
    }
  }

  /** Drains the collector: one model per shape index 0..n-1, appended in ascending
      order, model `k` carrying index `k` and what the collector holds for `k`. */
  method AssembleModels(collected: nat -> ShapeOutput, n: nat) returns (models: seq<GeneratedModel>)
    ensures |models| == n
    ensures forall k :: 0 <= k < n ==> models[k].initialShapeIndex == k
    ensures forall k :: 0 <= k < n ==>
              models[k].vertices == collected(k).vertices && models[k].indices == collected(k).indices &&
              models[k].faces == collected(k).faces && models[k].report == collected(k).report
    ensures models == CollectedModels(collected, n)
  {
    models := [];
    var idx := 0;
    while idx < n
      invariant 0 <= idx <= n
      invariant |models| == idx
      invariant forall k :: 0 <= k < idx ==>
                  models[k] == GeneratedModel(k, collected(k).vertices, collected(k).indices, collected(k).faces, collected(k).report)
    {
      models := models + [GeneratedModel(idx, collected(idx).vertices, collected(idx).indices,
                                         collected(idx).faces, collected(idx).report)];
      idx := idx + 1;
    }
  }
}
