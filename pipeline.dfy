/**
 * The streaming loop of `EbcdicParser.ParseAndWriteLines` as a function of its inputs: which writer
 * calls it makes, in what order, how it ends, and what `ParsedLines` holds afterwards. The class method
 * in module `Parser` is proved to behave exactly like `ParseAndWriteSpec`; the lemmas here state what
 * that behaviour guarantees.
 */
module Pipeline {
  import opened Wrappers
  import opened Template
  import opened Validation
  import opened Framing
  import opened Chunking
  import Arith

  const IntMax: int := 0x7FFF_FFFF
  const IntMin: int := -0x8000_0000

  /** C#'s unchecked 32-bit `int` arithmetic: `x` wrapped around into `[IntMin, IntMax]`. */
  function Int32(x: int): (r: int)
    ensures IntMin <= r <= IntMax
    ensures (x - r) % 0x1_0000_0000 == 0
    ensures IntMin <= x <= IntMax ==> r == x
  {
    var q := (x - IntMin) / 0x1_0000_0000;
    assert x - IntMin == q * 0x1_0000_0000 + (x - IntMin) % 0x1_0000_0000;
    (x - IntMin) % 0x1_0000_0000 + IntMin
  }

  /** The output formats the streaming loop switches on. */
  datatype WriteOutputType = Csv | Txt | Xml

  /** How `ParseAndWriteLines` can end other than by returning `true`. */
  datatype PipelineError =
    | NullTemplate                     // `lineTemplate.LineSize` dereferenced on a null template
    | DivideByZero                     // the decimal division by a zero chunk byte size
    | Invalid(reason: ValidationError) // a batch failed `ValidateInputParameters`
    | NotImplemented                   // XML requested in batch mode

  /**
   * One call into the output writers, with the arguments it receives: the parsed lines it writes (the
   * parser's `ParsedLines`, `None` when that is null), the output path, the formatting flags, and
   * whether it appends to the file rather than creating it.
   */
  datatype WriterCall =
    | WriteCsv(lines: Option<seq<ParsedLine>>, outputFilePath: string, includeColumnNames: bool,
               addQuotes: bool, append: bool)
    | WriteTxt(lines: Option<seq<ParsedLine>>, outputFilePath: string, delimiter: string,
               includeColumnNames: bool, addQuotes: bool, quoteCharacter: string, append: bool)

  /** The delimiter and quote character the streaming loop passes to the text writer. */
  const TxtDelimiter: string := "|"
  const TxtQuote: string := "¬"

  /** How a run ends, the writer calls it made, and the final value of `ParsedLines`. */
  datatype Outcome = Outcome(result: Result<bool, PipelineError>, calls: seq<WriterCall>,
                             parsedLines: Option<seq<ParsedLine>>)

  /** The run `o` after `calls` have already been made. */
  function After(calls: seq<WriterCall>, o: Outcome): (r: Outcome)
    ensures r.result == o.result && r.parsedLines == o.parsedLines && |r.calls| == |calls| + |o.calls|
  {
    Outcome(o.result, calls + o.calls, o.parsedLines)
  }

  /**
   * The loop over the remaining `batches`: parse a batch (stop on a validation error, `ParsedLines`
   * unchanged), store it in `ParsedLines`, then write it (CSV, text) or stop with `NotImplemented`
   * (XML). `append` is the flag the next write receives; it is true after the first write.
   */
  function RunBatches(t: LineTemplate, batches: seq<seq<byte>>, format: WriteOutputType,
                      outputFilePath: string, includeColumnNames: bool, addQuotes: bool,
                      append: bool, parsed: Option<seq<ParsedLine>>): (o: Outcome)
    ensures |o.calls| <= |batches|
    decreases |batches|
  {
    if batches == [] then
      Outcome(Ok(true), [], parsed)
    else
      match ParseAll(Some(t), Some(batches[0]))
      case Err(e) => Outcome(Err(Invalid(e)), [], parsed)
      case Ok(lines) =>
        match format
        case Xml => Outcome(Err(NotImplemented), [], Some(lines))
        case Csv =>
          var w := WriteCsv(Some(lines), outputFilePath, includeColumnNames, addQuotes, append);
          After([w], RunBatches(t, batches[1..], format, outputFilePath, includeColumnNames, addQuotes, true, Some(lines)))
        case Txt =>
          var w := WriteTxt(Some(lines), outputFilePath, TxtDelimiter, includeColumnNames, addQuotes, TxtQuote, append);
          After([w], RunBatches(t, batches[1..], format, outputFilePath, includeColumnNames, addQuotes, true, Some(lines)))
  }

  /**
   * `ParseAndWriteLines` on a source file holding `file`, with `ParsedLines` equal to `parsed` before the
   * call. The chunk byte size is `LineSize * chunkSize` in 32-bit arithmetic; a positive one cuts the file into
   * `Batches(file, chunk)`, a negative one makes the batch count `ceil(|file| / chunk)` at most zero.
   */
  function ParseAndWriteSpec(lineTemplate: Option<LineTemplate>, file: seq<byte>, outputFilePath: string,
                             format: WriteOutputType, includeColumnNames: bool, addQuotes: bool,
                             chunkSize: int, parsed: Option<seq<ParsedLine>>): (o: Outcome)
    ensures lineTemplate.None? ==> o == Outcome(Err(NullTemplate), [], parsed)
    ensures o.result.Err? && o.result.error == DivideByZero <==>
      lineTemplate.Some? && Int32(lineTemplate.value.LineSize * chunkSize) == 0
    ensures |file| == 0 && lineTemplate.Some? && Int32(lineTemplate.value.LineSize * chunkSize) != 0 ==>
      o == Outcome(Ok(true), [], parsed)
    ensures lineTemplate.Some? && Int32(lineTemplate.value.LineSize * chunkSize) < 0 ==>
      o == Outcome(Ok(true), [], parsed)
  {
    if lineTemplate.None? then
      Outcome(Err(NullTemplate), [], parsed)
    else
      var chunk := Int32(lineTemplate.value.LineSize * chunkSize);
      if chunk == 0 then Outcome(Err(DivideByZero), [], parsed)
      else if chunk < 0 then Outcome(Ok(true), [], parsed)
      else
        RunAppendSchedule(lineTemplate.value, Batches(file, chunk), format, outputFilePath, includeColumnNames, addQuotes, false, parsed);
        RunBatches(lineTemplate.value, Batches(file, chunk), format, outputFilePath, includeColumnNames, addQuotes, false, parsed)
  }

  /**
   * The size of the next read as the loop computes it, `bytesRead + chunk` being a 32-bit sum: near
   * the 2 GiB limit the sum wraps negative and the clamp is skipped.
   */
  function ClampAsWritten(bytesRead: int, chunk: int, fsBytes: int): (c: int)
    ensures c == chunk || c == fsBytes - bytesRead
  {
    if Int32(bytesRead + chunk) > fsBytes then fsBytes - bytesRead else chunk
  }

  /**
   * With a 100,000,000-byte chunk (1,000-byte records, 100,000 per batch) and a 2,140,000,000-byte
   * file, the 22nd read starts at byte 2,100,000,000: the as-written clamp keeps the full chunk,
   * 60,000,000 bytes more than remain, so that batch is parsed with a zero-filled tail.
   */
  lemma ClampOverflowReadsPastEnd()
    ensures var bytesRead, chunk, fsBytes := 2_100_000_000, 1_000 * 100_000, 2_140_000_000;
      && fsBytes <= IntMax
      && ClampAsWritten(bytesRead, chunk, fsBytes) == chunk
      && ClampAsWritten(bytesRead, chunk, fsBytes) - (fsBytes - bytesRead) == 60_000_000
  {
    assert Int32(2_100_000_000 + 100_000_000) == 2_200_000_000 - 0x1_0000_0000;
  }

  /** The size of the next read: the full chunk, or what remains of the file when that is less. */
  function Clamp(bytesRead: int, chunk: int, fsBytes: int): (c: int)
    ensures c <= chunk && c <= fsBytes - bytesRead
    ensures c == chunk || c == fsBytes - bytesRead
  {
    if bytesRead + chunk > fsBytes then fsBytes - bytesRead else chunk
  }

  /** Whenever the 32-bit sum does not wrap, the clamp as written and the corrected clamp agree. */
  lemma ClampAgrees(bytesRead: int, chunk: int, fsBytes: int)
    requires IntMin <= bytesRead + chunk <= IntMax
    ensures ClampAsWritten(bytesRead, chunk, fsBytes) == Clamp(bytesRead, chunk, fsBytes)
  {
  }

  /** Writes made before a run, then writes made before those: the two lists in order. */
  lemma AfterAfter(a: seq<WriterCall>, b: seq<WriterCall>, o: Outcome)
    ensures After(a, After(b, o)) == After(a + b, o)
  {
    assert a + (b + o.calls) == (a + b) + o.calls;
  }

  /** One step of `RunBatches`: what happens to the first batch, and the run that follows it. */
  lemma RunBatchesStep(t: LineTemplate, b: seq<byte>, later: seq<seq<byte>>, format: WriteOutputType,
                       outputFilePath: string, includeColumnNames: bool, addQuotes: bool,
                       append: bool, parsed: Option<seq<ParsedLine>>)
    ensures var o := RunBatches(t, [b] + later, format, outputFilePath, includeColumnNames, addQuotes, append, parsed);
      var p := ParseAll(Some(t), Some(b));
      && (p.Err? ==> o == Outcome(Err(Invalid(p.error)), [], parsed))
      && (p.Ok? && format == Xml ==> o == Outcome(Err(NotImplemented), [], Some(p.value)))
      && (p.Ok? && format == Csv ==>
           o == After([WriteCsv(Some(p.value), outputFilePath, includeColumnNames, addQuotes, append)],
                      RunBatches(t, later, format, outputFilePath, includeColumnNames, addQuotes, true, Some(p.value))))
      && (p.Ok? && format == Txt ==>
           o == After([WriteTxt(Some(p.value), outputFilePath, TxtDelimiter, includeColumnNames, addQuotes, TxtQuote, append)],
                      RunBatches(t, later, format, outputFilePath, includeColumnNames, addQuotes, true, Some(p.value))))
  {
    assert ([b] + later)[0] == b && ([b] + later)[1..] == later;
  }

  /**
   * What handling one batch did, given `p`, the result of parsing it: a validation error ends the run
   * with `ParsedLines` unchanged; otherwise `ParsedLines` holds the batch's lines, and the batch is
   * written (CSV, text, one writer call with the given `append`) or the run ends with `NotImplemented`
   * (XML) before any write.
   */
  predicate BatchHandled(p: Result<seq<ParsedLine>, ValidationError>, format: WriteOutputType, outputFilePath: string,
                         includeColumnNames: bool, addQuotes: bool, append: bool,
                         parsedBefore: Option<seq<ParsedLine>>, failure: Option<PipelineError>,
                         written: seq<WriterCall>, parsedAfter: Option<seq<ParsedLine>>)
  {
    && (p.Err? ==> failure == Some(Invalid(p.error)) && written == [] && parsedAfter == parsedBefore)
    && (p.Ok? ==> parsedAfter == Some(p.value))
    && (p.Ok? && format == Xml ==> failure == Some(NotImplemented) && written == [])
    && (p.Ok? && format == Csv ==>
         failure == None && written == [WriteCsv(Some(p.value), outputFilePath, includeColumnNames, addQuotes, append)])
    && (p.Ok? && format == Txt ==>
         failure == None &&
         written == [WriteTxt(Some(p.value), outputFilePath, TxtDelimiter, includeColumnNames, addQuotes, TxtQuote, append)])
  }

  /**
   * The streaming loop's position: the whole run `spec` is the writes `before` already made, then the
   * run over the batches of the bytes `remaining` still to be read.
   */
  predicate Ahead(spec: Outcome, before: seq<WriterCall>, t: LineTemplate, remaining: seq<byte>, chunk: nat,
                  format: WriteOutputType, outputFilePath: string, includeColumnNames: bool, addQuotes: bool,
                  append: bool, parsed: Option<seq<ParsedLine>>)
    requires chunk > 0
  {
    spec == After(before, RunBatches(t, Batches(remaining, chunk), format, outputFilePath, includeColumnNames,
                                     addQuotes, append, parsed))
  }

  /**
   * The streaming loop's bookkeeping across one batch. Before it, the run still ahead is the run over
   * the batches of `rest` after the writes `before`; the batch is the first `chunk` bytes of `rest`
   * (`chunk` clamped to what remains) and `failure`, `written` and `parsedAfter` are what parsing and
   * writing it did. Either the run ends there, or what is ahead is the run over the batches of the
   * bytes after the batch, one fewer, and none at all if the batch was clamped.
   */
  lemma BatchStep(spec: Outcome, before: seq<WriterCall>, lineTemplate: Option<LineTemplate>, rest: seq<byte>,
                  batch: seq<byte>, chunk: nat, fullChunk: nat, format: WriteOutputType, outputFilePath: string,
                  includeColumnNames: bool, addQuotes: bool, append: bool, parsedBefore: Option<seq<ParsedLine>>,
                  failure: Option<PipelineError>, written: seq<WriterCall>, parsedAfter: Option<seq<ParsedLine>>)
    requires lineTemplate.Some?
    requires fullChunk > 0 && |rest| > 0 && chunk == (if fullChunk > |rest| then |rest| else fullChunk)
    requires batch == rest[..chunk]
    requires Ahead(spec, before, lineTemplate.value, rest, fullChunk, format, outputFilePath, includeColumnNames,
                   addQuotes, append, parsedBefore)
    requires BatchHandled(ParseAll(lineTemplate, Some(batch)), format, outputFilePath, includeColumnNames, addQuotes,
                          append, parsedBefore, failure, written, parsedAfter)
    ensures failure.Some? ==> spec == Outcome(Err(failure.value), before, parsedAfter)
    ensures failure.None? ==>
      && Ahead(spec, before + written, lineTemplate.value, rest[chunk..], fullChunk, format, outputFilePath,
               includeColumnNames, addQuotes, true, parsedAfter)
      && |Batches(rest[chunk..], fullChunk)| == |Batches(rest, fullChunk)| - 1
      && (chunk != fullChunk ==> Batches(rest[chunk..], fullChunk) == [])
  {
    var t := lineTemplate.value;
    BatchesStep(rest, fullChunk, chunk);
    var later := Batches(rest[chunk..], fullChunk);
    RunBatchesStep(t, batch, later, format, outputFilePath, includeColumnNames, addQuotes, append, parsedBefore);
    if failure.None? {
      AfterAfter(before, written, RunBatches(t, later, format, outputFilePath, includeColumnNames, addQuotes, true, parsedAfter));
      if chunk != fullChunk {
        assert rest[chunk..] == [];
      }
    }
  }

  /** The parsed lines handed to the writers, one call after another. */
  function LinesWritten(calls: seq<WriterCall>): (s: seq<ParsedLine>)
  {
    if calls == [] then []
    else (if calls[0].lines.Some? then calls[0].lines.value else []) + LinesWritten(calls[1..])
  }

  lemma {:induction false} LinesWrittenAppend(a: seq<WriterCall>, b: seq<WriterCall>)
    ensures LinesWritten(a + b) == LinesWritten(a) + LinesWritten(b)
    decreases |a|
  {
    if a == [] {
      assert a + b == b;
    } else {
      assert (a + b)[1..] == a[1..] + b;
      LinesWrittenAppend(a[1..], b);
    }
  }

  /**
   * The lines the output file holds after `calls`, starting from the lines `existing` already in it:
   * a call without `append` creates the file afresh, one with `append` adds to its end.
   */
  function OutputFile(existing: seq<ParsedLine>, calls: seq<WriterCall>): (s: seq<ParsedLine>)
    ensures calls == [] ==> s == existing
    decreases |calls|
  {
    if calls == [] then existing
    else
      var kept := if calls[0].append then existing else [];
      OutputFile(kept + (if calls[0].lines.Some? then calls[0].lines.value else []), calls[1..])
  }

  /**
   * When the first call creates the file and every later one appends, whatever the file held before,
   * it ends up holding exactly the lines handed to the writers, in order.
   */
  lemma OutputFileHoldsAllWritten(existing: seq<ParsedLine>, calls: seq<WriterCall>)
    requires |calls| > 0
    requires forall i :: 0 <= i < |calls| ==> calls[i].append == (i > 0)
    ensures OutputFile(existing, calls) == LinesWritten(calls)
  {
    var first := if calls[0].lines.Some? then calls[0].lines.value else [];
    AppendedOntoFile(first, calls[1..]);
    assert first == [] + first;
  }

  /** A run of appending calls adds the lines handed to the writers after what the file already holds. */
  lemma {:induction false} AppendedOntoFile(existing: seq<ParsedLine>, calls: seq<WriterCall>)
    requires forall i :: 0 <= i < |calls| ==> calls[i].append
    ensures OutputFile(existing, calls) == existing + LinesWritten(calls)
    decreases |calls|
  {
    if calls != [] {
      var first := if calls[0].lines.Some? then calls[0].lines.value else [];
      AppendedOntoFile(existing + first, calls[1..]);
      assert existing + first + LinesWritten(calls[1..]) == existing + (first + LinesWritten(calls[1..]));
    }
  }

  /**
   * Whatever the batches hold: a run never ends with a division error, every write targets the same
   * output file with the same flags, and the first write receives the incoming `append` flag while
   * every later one appends.
   */
  lemma {:induction false} RunAppendSchedule(t: LineTemplate, batches: seq<seq<byte>>, format: WriteOutputType,
                                             outputFilePath: string, includeColumnNames: bool, addQuotes: bool,
                                             append: bool, parsed: Option<seq<ParsedLine>>)
    ensures var o := RunBatches(t, batches, format, outputFilePath, includeColumnNames, addQuotes, append, parsed);
      && (o.result.Err? ==> o.result.error != DivideByZero && o.result.error != NullTemplate)
      && forall i :: 0 <= i < |o.calls| ==>
        && o.calls[i].append == (append || i > 0)
        && o.calls[i].outputFilePath == outputFilePath
        && o.calls[i].includeColumnNames == includeColumnNames
        && o.calls[i].addQuotes == addQuotes
        && (format == Csv <==> o.calls[i].WriteCsv?)
        && (o.calls[i].WriteTxt? ==> o.calls[i].delimiter == TxtDelimiter && o.calls[i].quoteCharacter == TxtQuote)
    decreases |batches|
  {
    if batches != [] && ParseAll(Some(t), Some(batches[0])).Ok? && format != Xml {
      var lines := ParseAll(Some(t), Some(batches[0])).value;
      RunAppendSchedule(t, batches[1..], format, outputFilePath, includeColumnNames, addQuotes, true, Some(lines));
    }
  }

  /**
   * A run over batches that are all whole numbers of records (a template with fields and a positive
   * line size, CSV or text output) succeeds, writes every batch once, in order, and the lines written
   * are the records of all the batches' bytes together.
   */
  lemma {:induction false} RunWholeBatches(t: LineTemplate, batches: seq<seq<byte>>, format: WriteOutputType,
                                           outputFilePath: string, includeColumnNames: bool, addQuotes: bool,
                                           append: bool, parsed: Option<seq<ParsedLine>>)
    requires t.FieldsCount > 0 && t.LineSize > 0 && format != Xml
    requires forall i :: 0 <= i < |batches| ==> |batches[i]| % t.LineSize == 0
    ensures var o := RunBatches(t, batches, format, outputFilePath, includeColumnNames, addQuotes, append, parsed);
      && o.result == Ok(true)
      && |o.calls| == |batches|
      && LinesWritten(o.calls) == Records(t, Flatten(batches))
      && o.parsedLines == if batches == [] then parsed else Some(Records(t, batches[|batches| - 1]))
    decreases |batches|
  {
    if batches != [] {
      var lines := Records(t, batches[0]);
      RunFirstWritten(t, batches, format, outputFilePath, includeColumnNames, addQuotes, append, parsed);
      RunWholeBatches(t, batches[1..], format, outputFilePath, includeColumnNames, addQuotes, true, Some(lines));
      RecordsAppend(t, batches[0], Flatten(batches[1..]));
    }
  }

  /**
   * The first batch of a run, when it is a whole number of records and the format is not XML, is
   * parsed and written; the run then goes on from the second batch with `append` set.
   */
  lemma RunFirstWritten(t: LineTemplate, batches: seq<seq<byte>>, format: WriteOutputType,
                        outputFilePath: string, includeColumnNames: bool, addQuotes: bool,
                        append: bool, parsed: Option<seq<ParsedLine>>)
    requires t.FieldsCount > 0 && t.LineSize > 0 && format != Xml && |batches| > 0
    requires |batches[0]| % t.LineSize == 0
    ensures var o := RunBatches(t, batches, format, outputFilePath, includeColumnNames, addQuotes, append, parsed);
      var rest := RunBatches(t, batches[1..], format, outputFilePath, includeColumnNames, addQuotes, true,
                             Some(Records(t, batches[0])));
      && o.result == rest.result
      && o.parsedLines == rest.parsedLines
      && |o.calls| == |rest.calls| + 1
      && LinesWritten(o.calls) == Records(t, batches[0]) + LinesWritten(rest.calls)
  {
    var o := RunBatches(t, batches, format, outputFilePath, includeColumnNames, addQuotes, append, parsed);
    var rest := RunBatches(t, batches[1..], format, outputFilePath, includeColumnNames, addQuotes, true,
                           Some(Records(t, batches[0])));
    assert o.calls == [o.calls[0]] + rest.calls;
    LinesWrittenAppend([o.calls[0]], rest.calls);
  }

  /**
   * A run whose batches are whole records except the last, which is not: every batch before the last
   * is written, then the last fails validation and the run ends with that error.
   */
  lemma {:induction false} RunUnalignedLast(t: LineTemplate, batches: seq<seq<byte>>, format: WriteOutputType,
                                            outputFilePath: string, includeColumnNames: bool, addQuotes: bool,
                                            append: bool, parsed: Option<seq<ParsedLine>>)
    requires t.FieldsCount > 0 && t.LineSize > 0 && format != Xml && |batches| > 0
    requires forall i :: 0 <= i < |batches| - 1 ==> |batches[i]| % t.LineSize == 0
    requires |batches[|batches| - 1]| % t.LineSize != 0
    ensures var o := RunBatches(t, batches, format, outputFilePath, includeColumnNames, addQuotes, append, parsed);
      var last := batches[|batches| - 1];
      && o.result == Err(Invalid(ValidateInputParameters(Some(t), Some(last), false).error))
      && |o.calls| == |batches| - 1
      && LinesWritten(o.calls) == Records(t, Flatten(batches[..|batches| - 1]))
    decreases |batches|
  {
    if |batches| == 1 {
      assert batches[..0] == [];
    } else {
      var lines := Records(t, batches[0]);
      RunFirstWritten(t, batches, format, outputFilePath, includeColumnNames, addQuotes, append, parsed);
      RunUnalignedLast(t, batches[1..], format, outputFilePath, includeColumnNames, addQuotes, true, Some(lines));
      var written := batches[..|batches| - 1];
      var later := batches[1..][..|batches| - 2];
      assert written[0] == batches[0] && written[1..] == later;
      assert Flatten(written) == batches[0] + Flatten(later);
      RecordsAppend(t, batches[0], Flatten(later));
    }
  }

  /**
   * Cutting a file into chunks of `LineSize * chunkSize` bytes: every batch but the last is a whole
   * number of records, and the last has as many bytes beyond whole records as the file does.
   */
  lemma BatchAlignment(file: seq<byte>, lineSize: nat, chunkSize: nat)
    requires lineSize > 0 && chunkSize > 0
    ensures var bs := Batches(file, lineSize * chunkSize);
      && (forall i :: 0 <= i < |bs| - 1 ==> |bs[i]| % lineSize == 0)
      && (|bs| > 0 ==> |bs[|bs| - 1]| % lineSize == |file| % lineSize)
  {
    var chunk := lineSize * chunkSize;
    var bs := Batches(file, chunk);
    BatchesShape(file, chunk);
    Arith.DivAddMultiple(0, lineSize, chunkSize);
    if |bs| > 0 {
      Arith.ModAddPieces(|bs[|bs| - 1]|, lineSize, chunkSize, |bs| - 1);
    }
  }

  /**
   * Streaming a file that is a whole number of records (CSV or text output, a template with fields, a
   * positive chunk size): every batch passes validation, there are `ceil(|file| / chunk)` writes, and
   * the lines written, batch after batch, are exactly what one whole-buffer parse of the file returns.
   */
  lemma AlignedFileMatchesWholeParse(t: LineTemplate, file: seq<byte>, outputFilePath: string,
                                     format: WriteOutputType, includeColumnNames: bool, addQuotes: bool,
                                     chunkSize: int, parsed: Option<seq<ParsedLine>>)
    requires t.LineSize * chunkSize <= IntMax
    requires t.FieldsCount > 0 && t.LineSize > 0 && chunkSize > 0 && format != Xml
    requires |file| % t.LineSize == 0
    ensures var bs := Batches(file, t.LineSize * chunkSize);
      forall i :: 0 <= i < |bs| ==> ParseAll(Some(t), Some(bs[i])).Ok?
    ensures var o := ParseAndWriteSpec(Some(t), file, outputFilePath, format, includeColumnNames, addQuotes, chunkSize, parsed);
      && o.result == Ok(true)
      && |o.calls| == CeilDiv(|file|, t.LineSize * chunkSize)
      && LinesWritten(o.calls) == ParseAll(Some(t), Some(file)).value
  {
    var chunk := t.LineSize * chunkSize;
    Arith.MulAtLeast(chunkSize, t.LineSize);
    var bs := Batches(file, chunk);
    BatchAlignment(file, t.LineSize, chunkSize);
    BatchesShape(file, chunk);
    BatchesCount(file, chunk);
    forall i | 0 <= i < |bs|
      ensures |bs[i]| % t.LineSize == 0 && ParseAll(Some(t), Some(bs[i])).Ok?
    {
      ParseAllWhole(t, bs[i]);
    }
    ParseAllWhole(t, file);
    RunWholeBatches(t, bs, format, outputFilePath, includeColumnNames, addQuotes, false, parsed);
  }

  /**
   * Streaming a non-empty file that is a whole number of records leaves the output file holding
   * exactly the lines of the whole-buffer parse, whatever it held before.
   */
  lemma AlignedFileOutputIsWholeParse(t: LineTemplate, file: seq<byte>, outputFilePath: string,
                                      format: WriteOutputType, includeColumnNames: bool, addQuotes: bool,
                                      chunkSize: int, parsed: Option<seq<ParsedLine>>, existing: seq<ParsedLine>)
    requires t.LineSize * chunkSize <= IntMax
    requires t.FieldsCount > 0 && t.LineSize > 0 && chunkSize > 0 && format != Xml
    requires |file| > 0 && |file| % t.LineSize == 0
    ensures var o := ParseAndWriteSpec(Some(t), file, outputFilePath, format, includeColumnNames, addQuotes, chunkSize, parsed);
      OutputFile(existing, o.calls) == ParseAll(Some(t), Some(file)).value
  {
    var o := ParseAndWriteSpec(Some(t), file, outputFilePath, format, includeColumnNames, addQuotes, chunkSize, parsed);
    AlignedFileMatchesWholeParse(t, file, outputFilePath, format, includeColumnNames, addQuotes, chunkSize, parsed);
    AppendOnlyAfterFirstWrite(Some(t), file, outputFilePath, format, includeColumnNames, addQuotes, chunkSize, parsed);
    OutputFileHoldsAllWritten(existing, o.calls);
  }

  /**
   * Streaming a file that is not a whole number of records (CSV or text output, a template with fields,
   * a positive chunk size): every batch but the last is written, and the last one, which holds the
   * file's trailing partial record, fails validation by the short-buffer guard when it is shorter than
   * one record and by the whole-number check otherwise.
   */
  lemma UnalignedFileFailsOnFinalBatch(t: LineTemplate, file: seq<byte>, outputFilePath: string,
                                       format: WriteOutputType, includeColumnNames: bool, addQuotes: bool,
                                       chunkSize: int, parsed: Option<seq<ParsedLine>>)
    requires t.LineSize * chunkSize <= IntMax
    requires t.FieldsCount > 0 && t.LineSize > 0 && chunkSize > 0 && format != Xml
    requires |file| % t.LineSize != 0
    ensures var chunk := t.LineSize * chunkSize;
      var n := CeilDiv(|file|, chunk);
      var last := |file| - (n - 1) * chunk;
      var o := ParseAndWriteSpec(Some(t), file, outputFilePath, format, includeColumnNames, addQuotes, chunkSize, parsed);
      && n >= 1 && 0 < last <= chunk
      && o.result == Err(Invalid(if last < t.LineSize then DataShorterThanExpected
                                 else ExpectedNumberOfRows(last, t.LineSize)))
      && |o.calls| == n - 1
      && LinesWritten(o.calls) == Records(t, file[..|file| - last])
  {
    var chunk := t.LineSize * chunkSize;
    Arith.MulAtLeast(chunkSize, t.LineSize);
    var bs := Batches(file, chunk);
    BatchesShape(file, chunk);
    BatchesCount(file, chunk);
    BatchAlignment(file, t.LineSize, chunkSize);
    UnalignedBatchesOutcome(t, bs, format, outputFilePath, includeColumnNames, addQuotes, parsed);
    Arith.MulMonotone(0, |bs| - 1, chunk);
  }

  /** `RunUnalignedLast` for a run from its first batch, with the final batch's error spelled out. */
  lemma UnalignedBatchesOutcome(t: LineTemplate, bs: seq<seq<byte>>, format: WriteOutputType,
                                outputFilePath: string, includeColumnNames: bool, addQuotes: bool,
                                parsed: Option<seq<ParsedLine>>)
    requires t.FieldsCount > 0 && t.LineSize > 0 && format != Xml && |bs| > 0
    requires forall i :: 0 <= i < |bs| - 1 ==> |bs[i]| % t.LineSize == 0
    requires |bs[|bs| - 1]| % t.LineSize != 0
    ensures var o := RunBatches(t, bs, format, outputFilePath, includeColumnNames, addQuotes, false, parsed);
      var last := |bs[|bs| - 1]|;
      var all := Flatten(bs);
      && last <= |all|
      && o.result == Err(Invalid(if last < t.LineSize then DataShorterThanExpected
                                 else ExpectedNumberOfRows(last, t.LineSize)))
      && |o.calls| == |bs| - 1
      && LinesWritten(o.calls) == Records(t, all[..|all| - last])
  {
    RunUnalignedLast(t, bs, format, outputFilePath, includeColumnNames, addQuotes, false, parsed);
    var n := |bs|;
    var last := bs[n - 1];
    UnalignedRejected(t, last);
    assert bs == bs[..n - 1] + [last];
    FlattenAppendOne(bs[..n - 1], last);
    var all := Flatten(bs);
    assert all[..|all| - |last|] == Flatten(bs[..n - 1]);
  }

  lemma {:induction false} FlattenAppendOne<T>(ss: seq<seq<T>>, s: seq<T>)
    ensures Flatten(ss + [s]) == Flatten(ss) + s
    decreases |ss|
  {
    if ss == [] {
      assert Flatten([s]) == s + Flatten([]);
    } else {
      assert (ss + [s])[1..] == ss[1..] + [s];
      FlattenAppendOne(ss[1..], s);
    }
  }

  /**
   * XML output is refused in batch mode before any writer is called. On a non-empty file with a
   * positive chunk size the run ends with `NotImplemented` exactly when the first batch passes
   * validation (otherwise with that batch's validation error).
   */
  lemma XmlRejectedBeforeAnyWrite(lineTemplate: Option<LineTemplate>, file: seq<byte>, outputFilePath: string,
                                  includeColumnNames: bool, addQuotes: bool, chunkSize: int,
                                  parsed: Option<seq<ParsedLine>>)
    ensures var o := ParseAndWriteSpec(lineTemplate, file, outputFilePath, Xml, includeColumnNames, addQuotes, chunkSize, parsed);
      && o.calls == []
      && (lineTemplate.Some? && Int32(lineTemplate.value.LineSize * chunkSize) > 0 && |file| > 0 ==>
           var chunk := Int32(lineTemplate.value.LineSize * chunkSize);
           var first := if |file| <= chunk then file else file[..chunk];
           (o.result == Err(NotImplemented) <==> ValidateInputParameters(lineTemplate, Some(first), false).Ok?))
  {
  }

  /**
   * Whatever the input, the first write of a run creates the output file and every later write appends
   * to it, all to the same path with the same flags.
   */
  lemma AppendOnlyAfterFirstWrite(lineTemplate: Option<LineTemplate>, file: seq<byte>, outputFilePath: string,
                                  format: WriteOutputType, includeColumnNames: bool, addQuotes: bool,
                                  chunkSize: int, parsed: Option<seq<ParsedLine>>)
    ensures var o := ParseAndWriteSpec(lineTemplate, file, outputFilePath, format, includeColumnNames, addQuotes, chunkSize, parsed);
      forall i :: 0 <= i < |o.calls| ==> o.calls[i].append == (i > 0) && o.calls[i].outputFilePath == outputFilePath
  {
    if lineTemplate.Some? && Int32(lineTemplate.value.LineSize * chunkSize) > 0 {
      var chunk := Int32(lineTemplate.value.LineSize * chunkSize);
      RunAppendSchedule(lineTemplate.value, Batches(file, chunk), format, outputFilePath, includeColumnNames, addQuotes, false, parsed);
    }
  }
}
