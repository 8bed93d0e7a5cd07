/**
 * The record layout shared by every parse: a line template fixes the byte length of one record, and a
 * parsed line is what the record decoder makes of one record's bytes.
 */
module Template {

  /** A C# `byte`. */
  newtype byte = b: int | 0 <= b < 256

  /**
   * The two properties of a line template that the framing layer consults: `LineSize`, the byte
   * length of one record, and `FieldsCount`, the number of field descriptors. The field list
   * itself is only read by the record decoder.
   */
  datatype LineTemplate = LineTemplate(LineSize: nat, FieldsCount: nat)

  /**
   * `new ParsedLine(template, lineBytes)`: the decoded record. The decoder is not part of this model;
   * a parsed line is determined by the template and by the bytes the record held when it was decoded
   * (`raw` is a snapshot, so later overwrites of a reused line buffer do not reach it).
   */
  datatype ParsedLine = ParsedLine(template: LineTemplate, raw: seq<byte>)
}
