/** Per-shape attribute selection and the extraction of the four main rule
    attributes (src/client/wrap.cpp:106-123, 171-180; defaults at src/client/wrap.h:232-235). */
module ShapeAttributes {
  import opened Values
  import opened Prt

  const DefaultRuleFile: string := "bin/rule.cgb"
  const DefaultStartRule: string := "default$init"
  const DefaultSeed: int32 := 666
  const DefaultShapeName: string := "InitialShape"

  /** The values a fresh generator holds for the four main attributes. */
  const DefaultSettings: ShapeSettings := ShapeSettings(DefaultRuleFile, DefaultStartRule, DefaultSeed, DefaultShapeName)

  /** The attribute dictionary used for shape `i`: its own when the caller supplied one
      that far, otherwise the first. */
  function AttributesFor(attrs: seq<Dict>, i: nat): (d: Dict)
    requires |attrs| > 0
    ensures i < |attrs| ==> d == attrs[i]
    ensures |attrs| <= i ==> d == attrs[0]
  {
    if i < |attrs| then attrs[i] else attrs[0]
  }

  /** The outcome of `extractMainShapeAttributes`: the four main attributes after the
      in/out parameters were updated, and the converted attribute map. */
  datatype Extraction = Extraction(settings: ShapeSettings, converted: Option<AttributeMap>)

  /** Converts the dictionary and lets the converted map override each of the four
      main attributes only where it holds that key with the expected type (string,
      string, integer, string); everywhere else the value passed in is kept. */
  function ExtractMainShapeAttributes(e: Engine, shapeAttr: Dict, current: ShapeSettings): (r: Extraction)
    ensures r.converted == e.toAttributeMap(shapeAttr)
    ensures HasString(r.converted, "ruleFile") ==> r.settings.ruleFile == r.converted.value["ruleFile"].s
    ensures !HasString(r.converted, "ruleFile") ==> r.settings.ruleFile == current.ruleFile
    ensures HasString(r.converted, "startRule") ==> r.settings.startRule == r.converted.value["startRule"].s
    ensures !HasString(r.converted, "startRule") ==> r.settings.startRule == current.startRule
    ensures HasInt(r.converted, "seed") ==> r.settings.seed == r.converted.value["seed"].i
    ensures !HasInt(r.converted, "seed") ==> r.settings.seed == current.seed
    ensures HasString(r.converted, "shapeName") ==> r.settings.shapeName == r.converted.value["shapeName"].s
    ensures !HasString(r.converted, "shapeName") ==> r.settings.shapeName == current.shapeName
  {
    var m := e.toAttributeMap(shapeAttr);
    var ruleFile := if HasString(m, "ruleFile") then m.value["ruleFile"].s else current.ruleFile;
    var startRule := if HasString(m, "startRule") then m.value["startRule"].s else current.startRule;
    var seed := if HasInt(m, "seed") then m.value["seed"].i else current.seed;
    var shapeName := if HasString(m, "shapeName") then m.value["shapeName"].s else current.shapeName;
    Extraction(ShapeSettings(ruleFile, startRule, seed, shapeName), m)
  }
}
