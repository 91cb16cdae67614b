/** Scalar, handle and dictionary types shared by the generation layer. */
module Values {

  /** The conventional optional value; `None` stands for a null handle. */
  datatype Option<+T> = None | Some(value: T)

  /** C++ `uint32_t`: face-vertex indices and per-face vertex counts. */
  newtype uint32 = x: int | 0 <= x < 0x1_0000_0000

  /** C++ `int32_t` (and a 32-bit `int`): the random seed of a rule invocation. */
  newtype int32 = x: int | -0x8000_0000 <= x < 0x8000_0000

  /** A `double`. The layer only copies coordinates and report numbers, so the model
      keeps the bit pattern and never computes on it. */
  datatype Double = Double(bits: bv64)

  /** A typed entry of an attribute map: PT_STRING, PT_INT, PT_FLOAT or PT_BOOL. */
  datatype Value = Str(s: string) | Int(i: int32) | Float(f: Double) | Bool(b: bool)

  /** A host-side key/value dictionary as the caller hands it in. */
  type Dict = map<string, Value>

  /** An Engine attribute map, the converted form of a `Dict`. */
  type AttributeMap = map<string, Value>

  /** A value of a generated report: the Engine reports floats, strings and booleans. */
  datatype ReportValue = ReportFloat(f: Double) | ReportString(s: string) | ReportBool(b: bool)

  /** A per-shape report, keyed by report name. */
  type Report = map<string, ReportValue>

  /** Whether `m` is a map that holds `key` with a string value. */
  predicate HasString(m: Option<AttributeMap>, key: string)
  {
    m.Some? && key in m.value && m.value[key].Str?
  }

  /** Whether `m` is a map that holds `key` with an integer value. */
  predicate HasInt(m: Option<AttributeMap>, key: string)
  {
    m.Some? && key in m.value && m.value[key].Int?
  }
}
