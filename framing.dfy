/**
 * What a batch parse means: the buffer cut into consecutive `LineSize`-byte records, each decoded on
 * its own. These functions are the specification that `EbcdicParser.ParseAllLines` is proved against.
 */
module Framing {
  import opened Wrappers
  import opened Template
  import opened Validation
  import Arith

  /**
   * The records of `data`, one per whole `LineSize`-byte record from the front: `|data| / LineSize` of
   * them (trailing bytes short of a whole record are not a record). `RecordsAt` says which bytes each
   * one is decoded from.
   */
  function Records(t: LineTemplate, data: seq<byte>): (r: seq<ParsedLine>)
    requires t.LineSize > 0
    ensures |r| == |data| / t.LineSize
    decreases |data|
  {
    if |data| < t.LineSize then
      []
    else
      Arith.DivSub(|data|, t.LineSize);
      [ParsedLine(t, data[..t.LineSize])] + Records(t, data[t.LineSize..])
  }

  /** The bytes of record `k` of `data`: `[k * size, (k + 1) * size)`. */
  function RecordBytes(data: seq<byte>, size: nat, k: nat): (s: seq<byte>)
    requires size > 0 && k < |data| / size
    ensures |s| == size
  {
    Arith.QuotientBound(|data|, size, k);
    data[k * size..(k + 1) * size]
  }

  /** Record `k` is decoded from bytes `[k * LineSize, (k + 1) * LineSize)` of the buffer. */
  lemma {:induction false} RecordsAt(t: LineTemplate, data: seq<byte>, k: nat)
    requires t.LineSize > 0 && k < |data| / t.LineSize
    ensures Records(t, data)[k] == ParsedLine(t, RecordBytes(data, t.LineSize, k))
  {
    var size := t.LineSize;
    Arith.QuotientBound(|data|, size, k);
    if k > 0 {
      Arith.DivSub(|data|, size);
      RecordsAt(t, data[size..], k - 1);
      Arith.QuotientBound(|data| - size, size, k - 1);
      var lo := (k - 1) * size;
      assert lo + size == k * size;
      assert data[size..][lo..lo + size] == data[k * size..(k + 1) * size];
    }
  }

  /**
   * `ParseSingleLine`: validate in single-line mode, then decode. It decodes exactly when the template
   * is usable and the buffer is exactly one record, and then decodes those bytes unchanged.
   */
  function ParseSingleLine(lineTemplate: Option<LineTemplate>, lineBytes: Option<seq<byte>>)
    : (r: Result<ParsedLine, ValidationError>)
    ensures r.Ok? <==>
      lineTemplate.Some? && lineBytes.Some? && lineTemplate.value.FieldsCount > 0 &&
      lineTemplate.value.LineSize > 0 && |lineBytes.value| == lineTemplate.value.LineSize
    ensures r.Ok? ==> r.value.template == lineTemplate.value && r.value.raw == lineBytes.value
    ensures r.Err? ==> r.error == ValidateInputParameters(lineTemplate, lineBytes, true).error
  {
    match ValidateInputParameters(lineTemplate, lineBytes, true)
    case Err(e) => Err(e)
    case Ok(_) => Ok(ParsedLine(lineTemplate.value, lineBytes.value))
  }

  /**
   * The result of a batch parse of `allBytes`: the multi-line validation error, or exactly
   * `|allBytes| / LineSize` records, the buffer being a whole number of records (`ParseAllSlots` says
   * which bytes each record comes from).
   */
  function ParseAll(lineTemplate: Option<LineTemplate>, allBytes: Option<seq<byte>>)
    : (r: Result<seq<ParsedLine>, ValidationError>)
    ensures r.Err? <==> ValidateInputParameters(lineTemplate, allBytes, false).Err?
    ensures r.Err? ==> r.error == ValidateInputParameters(lineTemplate, allBytes, false).error
    ensures r.Ok? ==>
      var t, data := lineTemplate.value, allBytes.value;
      t.LineSize > 0 && |data| % t.LineSize == 0 && |r.value| == |data| / t.LineSize
  {
    match ValidateInputParameters(lineTemplate, allBytes, false)
    case Err(e) => Err(e)
    case Ok(_) => Ok(Records(lineTemplate.value, allBytes.value))
  }

  /** A buffer of whole records under a template with fields parses to its records. */
  lemma ParseAllWhole(t: LineTemplate, data: seq<byte>)
    requires t.FieldsCount > 0 && t.LineSize > 0 && |data| % t.LineSize == 0
    ensures ParseAll(Some(t), Some(data)) == Ok(Records(t, data))
  {
  }

  /**
   * In a successful batch parse, record `k` is what the single-line parse of bytes
   * `[k * LineSize, (k + 1) * LineSize)` returns: every slice passes single-line validation and is
   * decoded unchanged.
   */
  lemma ParseAllSlots(lineTemplate: Option<LineTemplate>, allBytes: Option<seq<byte>>, k: nat)
    requires ParseAll(lineTemplate, allBytes).Ok? && k < |ParseAll(lineTemplate, allBytes).value|
    ensures var t := lineTemplate.value;
      ParseSingleLine(lineTemplate, Some(RecordBytes(allBytes.value, t.LineSize, k))) ==
      Ok(ParseAll(lineTemplate, allBytes).value[k])
  {
    RecordsAt(lineTemplate.value, allBytes.value, k);
  }

  /** Records of a whole number of records followed by more bytes: the records of each part, in order. */
  lemma {:induction false} RecordsAppend(t: LineTemplate, a: seq<byte>, b: seq<byte>)
    requires t.LineSize > 0 && |a| % t.LineSize == 0
    ensures Records(t, a + b) == Records(t, a) + Records(t, b)
    decreases |a|
  {
    var size := t.LineSize;
    if |a| == 0 {
      assert a + b == b;
    } else {
      Arith.DivSub(|a|, size);
      assert (a + b)[..size] == a[..size];
      assert (a + b)[size..] == a[size..] + b;
      RecordsAppend(t, a[size..], b);
    }
  }
}
