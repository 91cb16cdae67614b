/** The external collaborators of the generation layer: the procedural runtime
    (PRT, "the Engine"), the host dictionary conversion and the file system.
    None of their behaviour is modelled; each call the layer makes is a field of
    `Engine`, a total function the caller of the model chooses. */
module Prt {
  import opened Values
  import opened Shapes

  /** `prt::Status`: OK, the unspecified error a status variable starts as, or any other code. */
  datatype Status = Ok | UnspecifiedError | OtherError(code: nat)

  /** An opaque resolve-map handle created from a rule package. */
  datatype ResolveMap = ResolveMap(handle: nat)

  /** What a call of `prt::createResolveMap` did: it returned a possibly null map and
      wrote a status, or it threw. */
  datatype ResolveAttempt = Returned(resolveMap: Option<ResolveMap>, status: Status) | Threw

  /** An initial-shape builder whose geometry was set inline from, or resolved from
      the file of, `shape`. */
  datatype ShapeBuilder = ShapeBuilder(shape: InitialShape)

  /** The four main attributes of a rule invocation, as `setAttributes` takes them. */
  datatype ShapeSettings = ShapeSettings(ruleFile: string, startRule: string, seed: int32, shapeName: string)

  /** A native initial shape: what `createInitialShape` makes of a builder after
      `setAttributes(ruleFile, startRule, seed, shapeName, attributes, resolveMap)`. */
  datatype NativeShape = NativeShape(
    builder: ShapeBuilder,
    settings: ShapeSettings,
    attributes: Option<AttributeMap>,
    resolveMap: Option<ResolveMap>)

  /** An encoder option set after Engine-side validation (`createValidatedOptions`)
      of the map proposed for that encoder. */
  datatype ValidatedOptions = ValidatedOptions(encoder: string, proposed: Option<AttributeMap>)

  /** What the callback collector holds for one initial-shape index after generation. */
  datatype ShapeOutput = ShapeOutput(vertices: seq<Double>, indices: seq<uint32>, faces: seq<uint32>, report: Report)

  /** One `prt::generate` run with the in-memory callback collector: its status and,
      per initial-shape index, what the collector's getters return. */
  datatype CollectorRun = CollectorRun(status: Status, collected: nat -> ShapeOutput)

  /** The external calls, as functions of their arguments.
      - `initialized`: the process-wide Engine context exists.
      - `toFileUri`: `pcu::toFileURI`, may yield the empty string.
      - `resolveGeometry`: a builder's `resolveGeometry` on a file URI.
      - `setGeometry`: a builder's `setGeometry` on vertices, indices and face counts.
      - `createResolveMap`: `prt::createResolveMap` on a rule-package URI.
      - `toAttributeMap`: `pcu::createAttributeMapFromPythonDict`, may yield null.
      - `isDirectory`: the output path exists and is a directory.
      - `generateWithCollector`: `prt::generate` with the in-memory collector sized
        for the given number of shapes.
      - `generateToDirectory`: `prt::generate` with file output into a directory. */
  datatype Engine = Engine(
    initialized: bool,
    toFileUri: string -> string,
    resolveGeometry: string -> Status,
    setGeometry: (seq<Double>, seq<uint32>, seq<uint32>) -> Status,
    createResolveMap: string -> ResolveAttempt,
    toAttributeMap: Dict -> Option<AttributeMap>,
    isDirectory: string -> bool,
    generateWithCollector: (seq<NativeShape>, seq<string>, seq<ValidatedOptions>, nat) -> CollectorRun,
    generateToDirectory: (seq<NativeShape>, seq<string>, seq<ValidatedOptions>, string) -> Status)
}
