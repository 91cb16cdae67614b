/** The encoder list a generator keeps between calls: the main encoder alone when it is
    the in-memory Python encoder, otherwise the main encoder followed by the two fixed
    auxiliary encoders for the CGA report and CGA print output
    (src/client/wrap.cpp:57-62, 190-232). */
module Encoders {
  import opened Values
  import opened Prt

  const CgaReportEncoder: string := "com.esri.prt.core.CGAReportEncoder"
  const CgaPrintEncoder: string := "com.esri.prt.core.CGAPrintEncoder"
  const PyEncoder: string := "com.esri.pyprt.PyEncoder"

  /** The file the auxiliary report encoder is told to write, under option key "name". */
  const FileCgaReport: string := "CGAReport.txt"
  const EncoderOptName: string := "name"

  /** Options proposed for the CGA report encoder: its output file name. */
  const ReportOptions: AttributeMap := map[EncoderOptName := Str(FileCgaReport)]

  /** Options proposed for the CGA print encoder. The source builds them with the same
      builder right after `createAttributeMapAndReset` emptied it, so they are empty. */
  const PrintOptions: AttributeMap := map[]

  /** The shapes the stored lists can take: both empty (no encoder supplied yet), the
      Python encoder alone, or another encoder with the two auxiliary ones. Names and
      option sets are parallel: the option set at `k` was validated for the name at `k`. */
  predicate Consistent(names: seq<string>, options: seq<ValidatedOptions>)
  {
    && |names| == |options|
    && (forall k :: 0 <= k < |names| ==> options[k].encoder == names[k])
    && (|names| == 0
        || (|names| == 1 && names[0] == PyEncoder)
        || (|names| == 3 && names[0] != PyEncoder && names[1] == CgaReportEncoder && names[2] == CgaPrintEncoder))
  }

  /** The lists `initializeEncoderData` builds for one encoder name and its options. */
  datatype EncoderSet = EncoderSet(names: seq<string>, options: seq<ValidatedOptions>)

  /** The encoder set rebuilt from `encName`: the main encoder comes first with its own
      converted options; the Python encoder yields exactly one pair, any other encoder
      three, the last two being the fixed auxiliary encoders with fixed options. */
  function EncoderData(e: Engine, encName: string, encOpt: Dict): (r: EncoderSet)
    ensures Consistent(r.names, r.options)
    ensures |r.names| > 0 && r.names[0] == encName
    ensures r.options[0] == ValidatedOptions(encName, e.toAttributeMap(encOpt))
    ensures |r.names| == 1 <==> encName == PyEncoder
    ensures encName != PyEncoder ==>
              r.names == [encName, CgaReportEncoder, CgaPrintEncoder] &&
              r.options[1] == ValidatedOptions(CgaReportEncoder, Some(ReportOptions)) &&
              r.options[2] == ValidatedOptions(CgaPrintEncoder, Some(PrintOptions))
  {
    var main := ValidatedOptions(encName, e.toAttributeMap(encOpt));
    if encName == PyEncoder then
      EncoderSet([encName], [main])
    else
      EncoderSet([encName, CgaReportEncoder, CgaPrintEncoder],
                 [main,
                  ValidatedOptions(CgaReportEncoder, Some(ReportOptions)),
                  ValidatedOptions(CgaPrintEncoder, Some(PrintOptions))])
  }
}
