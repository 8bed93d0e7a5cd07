/** `EbcdicParser.ValidateInputParameters`: is a buffer decodable with a template at all? */
module Validation {
  import opened Wrappers
  import opened Template
  import Arith

  /** One constructor per exception the guard chain throws, in the order of the checks. */
  datatype ValidationError =
    | DataNotProvided                  // data is null
    | LineTemplateNotProvided          // template is null
    | LineTemplateHasNoFields          // template has no field descriptors
    | DataShorterThanExpected          // a non-empty buffer shorter than one record
    | DataLengthDifferentThanExpected  // single-line mode and the buffer is not exactly one record
    | ExpectedNumberOfRows(dataLength: nat, lineSize: nat)  // length / LineSize is not a whole number

  /**
   * `len` bytes are a whole number of records of `lineSize` bytes. The source divides in `double`; for
   * operands in `int` range that quotient is integral exactly when the integer remainder is zero, and
   * a zero line size gives NaN or infinity, which is never integral.
   */
  predicate WholeRecords(len: nat, lineSize: nat)
  {
    lineSize > 0 && len % lineSize == 0
  }

  /** The data as the guards see it: `None` for a null array, else its current contents. */
  function Snapshot(a: array?<byte>): (s: Option<seq<byte>>)
    reads a
    ensures s.None? <==> a == null
    ensures a != null ==> s.value == a[..]
  {
    if a == null then None else Some(a[..])
  }

  /**
   * The guard chain. Returns `Ok(true)` or the first failing guard's error. A buffer passes exactly
   * when data and a template with fields are present, the buffer is a whole number of records, and in
   * single-line mode it is exactly one record. The short-buffer guard never decides acceptance on its
   * own (a short non-empty buffer is also unaligned); it only decides which error is reported.
   */
  function ValidateInputParameters(lineTemplate: Option<LineTemplate>, allBytes: Option<seq<byte>>, isSingleLine: bool)
    : (r: Result<bool, ValidationError>)
    ensures r.Ok? ==> r.value
    ensures r.Ok? <==>
      allBytes.Some? && lineTemplate.Some? && lineTemplate.value.FieldsCount > 0 &&
      WholeRecords(|allBytes.value|, lineTemplate.value.LineSize) &&
      (isSingleLine ==> |allBytes.value| == lineTemplate.value.LineSize)
    // the three non-length guards come first, in this order
    ensures allBytes.None? ==> r == Err(DataNotProvided)
    ensures allBytes.Some? && lineTemplate.None? ==> r == Err(LineTemplateNotProvided)
    ensures allBytes.Some? && lineTemplate.Some? && lineTemplate.value.FieldsCount == 0 ==>
      r == Err(LineTemplateHasNoFields)
    // a length failure is reported by the first of the three length guards whose condition holds
    ensures r.Err? && allBytes.Some? && lineTemplate.Some? && lineTemplate.value.FieldsCount > 0 ==>
      var len, size := |allBytes.value|, lineTemplate.value.LineSize;
      || (r.error == DataShorterThanExpected && 0 < len < size)
      || (r.error == DataLengthDifferentThanExpected && isSingleLine && len != size && !(0 < len < size))
      || (r.error == ExpectedNumberOfRows(len, size) && !WholeRecords(len, size) && !(0 < len < size) &&
          !(isSingleLine && len != size))
  {
    if allBytes.None? then Err(DataNotProvided)
    else if lineTemplate.None? then Err(LineTemplateNotProvided)
    else
      var t, len := lineTemplate.value, |allBytes.value|;
      if t.FieldsCount == 0 then Err(LineTemplateHasNoFields)
      else if len > 0 && len < t.LineSize then Err(DataShorterThanExpected)
      else if isSingleLine && len != t.LineSize then Err(DataLengthDifferentThanExpected)
      else if !WholeRecords(len, t.LineSize) then Err(ExpectedNumberOfRows(len, t.LineSize))
      else Ok(true)
  }

  /** An empty buffer is valid in multi-line mode for any template with fields and a positive line size. */
  lemma EmptyBufferAccepted(t: LineTemplate)
    requires t.FieldsCount > 0 && t.LineSize > 0
    ensures ValidateInputParameters(Some(t), Some([]), false) == Ok(true)
  {
  }

  /**
   * A buffer that is not a whole number of records is rejected in multi-line mode by the short-buffer
   * guard when it is shorter than one record, otherwise by the whole-number check.
   */
  lemma UnalignedRejected(t: LineTemplate, data: seq<byte>)
    requires t.FieldsCount > 0 && t.LineSize > 0
    requires |data| % t.LineSize != 0
    ensures ValidateInputParameters(Some(t), Some(data), false) ==
      Err(if |data| < t.LineSize then DataShorterThanExpected else ExpectedNumberOfRows(|data|, t.LineSize))
  {
    if |data| == t.LineSize {
      assert false by { Arith.DivModUnique(|data|, t.LineSize, 1, 0); }
    }
  }
}
