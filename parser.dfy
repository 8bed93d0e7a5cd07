/**
 * `EbcdicParser`: the object that parses a buffer into `ParsedLines` and streams a file to the
 * writers batch by batch. Its two loops are proved against `Framing.ParseAll` and
 * `Pipeline.ParseAndWriteSpec`.
 */
module Parser {
  import opened Wrappers
  import opened Template
  import opened Validation
  import opened Framing
  import opened Chunking
  import opened Pipeline
  import Arith

  class EbcdicParser {
    /** The lines of the last successful parse; `None` while that array reference is null. */
    var parsedLines: Option<seq<ParsedLine>>

    /** The parameterless constructor: nothing parsed yet. */
    constructor ()
      ensures parsedLines == None
    {
      parsedLines := None;
    }

    /**
     * The constructor from a byte array and a template: parse the whole buffer into `ParsedLines`, or
     * fail (no parser is made) with the validation error.
     */
    static method FromBytes(allBytes: array?<byte>, lineTemplate: Option<LineTemplate>)
      returns (r: Result<EbcdicParser, ValidationError>)
      ensures r.Ok? <==> ParseAll(lineTemplate, Snapshot(allBytes)).Ok?
      ensures r.Ok? ==> fresh(r.value) && r.value.parsedLines == Some(ParseAll(lineTemplate, Snapshot(allBytes)).value)
      ensures r.Err? ==> r.error == ParseAll(lineTemplate, Snapshot(allBytes)).error
    {
      var parser := new EbcdicParser();
      var parsed := parser.ParseAllLines(lineTemplate, allBytes);
      if parsed.Err? {
        return Err(parsed.error);
      }
      parser.parsedLines := Some(parsed.value);
      return Ok(parser);
    }

    /**
     * Validate `allBytes` in multi-line mode, then walk it `LineSize` bytes at a time: copy each record
     * into one reused line buffer, decode it with `ParseSingleLine`, and store it at the next index
     * of an array sized `|allBytes| / LineSize` up front. The result is the whole-buffer parse: slot `k`
     * holds the decode of bytes `[k * LineSize, (k + 1) * LineSize)`.
     */
    method ParseAllLines(lineTemplate: Option<LineTemplate>, allBytes: array?<byte>)
      returns (r: Result<seq<ParsedLine>, ValidationError>)
      ensures r == ParseAll(lineTemplate, Snapshot(allBytes))
      ensures r.Ok? ==>
        && |r.value| == allBytes.Length / lineTemplate.value.LineSize
        && forall k: nat :: k < |r.value| ==>
             r.value[k] == ParsedLine(lineTemplate.value, RecordBytes(allBytes[..], lineTemplate.value.LineSize, k))
    {
      var valid := ValidateInputParameters(lineTemplate, Snapshot(allBytes), false);
      if valid.Err? {
        return Err(valid.error);
      }
      var size := lineTemplate.value.LineSize;
      var expectedRows := allBytes.Length / size;
      ghost var data := allBytes[..];
      ghost var records := Records(lineTemplate.value, data);
      Arith.DivModUnique(allBytes.Length, size, expectedRows, 0);
      var lineBytes := new byte[size];
      var linesList := new ParsedLine[expectedRows];
      var lineIndex := 0;
      var i := 0;
      while i < allBytes.Length
        invariant 0 <= lineIndex <= expectedRows
        invariant i == lineIndex * size
        invariant allBytes[..] == data
        invariant forall k :: 0 <= k < lineIndex ==> linesList[k] == records[k]
      {
        Arith.NextSlot(allBytes.Length, size, expectedRows, lineIndex);
        RecordsAt(lineTemplate.value, data, lineIndex);
        // Array.Copy(allBytes, i, lineBytes, 0, LineSize)
        forall j | 0 <= j < size {
          lineBytes[j] := allBytes[i + j];
        }
        assert lineBytes[..] == RecordBytes(data, size, lineIndex);
        var parsedLine := ParseSingleLine(lineTemplate, Some(lineBytes[..]));
        assert parsedLine.value == records[lineIndex];
        linesList[lineIndex] := parsedLine.value;
        lineIndex := lineIndex + 1;
        i := i + size;
      }
      Arith.AllSlots(allBytes.Length, size, expectedRows, lineIndex);
      assert linesList[..] == records;
      forall k: nat | k < expectedRows
        ensures records[k] == ParsedLine(lineTemplate.value, RecordBytes(data, size, k))
      {
        RecordsAt(lineTemplate.value, data, k);
      }
      return Ok(linesList[..]);
    }

    /** The CSV writer call as the source makes it: its `append` argument is not passed on. */
    function SaveParsedLinesAsCsvFileAsWritten(outputFilePath: string, includeColumnNames: bool, addQuotes: bool,
                                               append: bool): (w: WriterCall)
      reads this
      ensures w.WriteCsv? && w.lines == parsedLines && !w.append
      ensures w.outputFilePath == outputFilePath && w.includeColumnNames == includeColumnNames && w.addQuotes == addQuotes
    {
      WriteCsv(parsedLines, outputFilePath, includeColumnNames, addQuotes, false)
    }

    /**
     * With the CSV writer call as written, a second batch overwrites the first: after a first write of
     * non-empty `first` and a second write of this parser's `ParsedLines` asked to append, the output
     * file holds the second batch's lines only, not both.
     */
    lemma CsvSecondBatchOverwritesAsWritten(first: seq<ParsedLine>, outputFilePath: string, includeColumnNames: bool,
                                            addQuotes: bool)
      requires parsedLines.Some? && |first| > 0
      ensures var w1 := WriteCsv(Some(first), outputFilePath, includeColumnNames, addQuotes, false);
        var w2 := SaveParsedLinesAsCsvFileAsWritten(outputFilePath, includeColumnNames, addQuotes, true);
        && OutputFile([], [w1, w2]) == parsedLines.value
        && OutputFile([], [w1, w2]) != first + parsedLines.value
    {
      var w1 := WriteCsv(Some(first), outputFilePath, includeColumnNames, addQuotes, false);
      var w2 := SaveParsedLinesAsCsvFileAsWritten(outputFilePath, includeColumnNames, addQuotes, true);
      assert [w1, w2][1..] == [w2];
      assert |first + parsedLines.value| > |parsedLines.value|;
    }

    /** With the corrected CSV writer call, the same two writes leave both batches in the file, in order. */
    lemma CsvSecondBatchAppends(first: seq<ParsedLine>, outputFilePath: string, includeColumnNames: bool,
                                addQuotes: bool)
      requires parsedLines.Some?
      ensures var w1 := WriteCsv(Some(first), outputFilePath, includeColumnNames, addQuotes, false);
        var w2 := SaveParsedLinesAsCsvFile(outputFilePath, includeColumnNames, addQuotes, true);
        OutputFile([], [w1, w2]) == first + parsedLines.value
    {
      var w1 := WriteCsv(Some(first), outputFilePath, includeColumnNames, addQuotes, false);
      var w2 := SaveParsedLinesAsCsvFile(outputFilePath, includeColumnNames, addQuotes, true);
      assert [w1, w2][1..] == [w2];
      assert [w1, w2][1..][1..] == [];
    }

    /** The CSV writer call of the current `ParsedLines`, creating or appending to the file as asked. */
    function SaveParsedLinesAsCsvFile(outputFilePath: string, includeColumnNames: bool, addQuotes: bool,
                                      append: bool): (w: WriterCall)
      reads this
      ensures w.WriteCsv? && w.lines == parsedLines && w.append == append
      ensures w.outputFilePath == outputFilePath && w.includeColumnNames == includeColumnNames && w.addQuotes == addQuotes
    {
      WriteCsv(parsedLines, outputFilePath, includeColumnNames, addQuotes, append)
    }

    /** The delimited-text writer call of the current `ParsedLines`. */
    function SaveParsedLinesAsTxtFile(outputFilePath: string, delimiter: string, includeColumnNames: bool,
                                      addQuotes: bool, quoteCharacter: string, append: bool): (w: WriterCall)
      reads this
      ensures w.WriteTxt? && w.lines == parsedLines && w.append == append
      ensures w.outputFilePath == outputFilePath && w.delimiter == delimiter && w.quoteCharacter == quoteCharacter
      ensures w.includeColumnNames == includeColumnNames && w.addQuotes == addQuotes
    {
      WriteTxt(parsedLines, outputFilePath, delimiter, includeColumnNames, addQuotes, quoteCharacter, append)
    }

    /**
     * The body of the batch loop once a batch `b` has been read: `ParsedLines = ParseAllLines(b)`, then
     * the switch on the output type. Returns the error that ends the run, if any, and the writer calls
     * made (none, or the one call for this batch).
     */
    method ParseAndWriteBatch(lineTemplate: Option<LineTemplate>, b: array<byte>, outputFilePath: string,
                              writeOutputType: WriteOutputType, includeColumnNames: bool, addQuotes: bool,
                              append: bool)
      returns (failure: Option<PipelineError>, written: seq<WriterCall>)
      modifies this
      ensures BatchHandled(ParseAll(lineTemplate, Some(b[..])), writeOutputType, outputFilePath, includeColumnNames,
                           addQuotes, append, old(parsedLines), failure, written, parsedLines)
    {
      var parsed := ParseAllLines(lineTemplate, b);
      if parsed.Err? {
        return Some(Invalid(parsed.error)), [];
      }
      parsedLines := Some(parsed.value);
      match writeOutputType {
        case Csv =>
          written := [SaveParsedLinesAsCsvFile(outputFilePath, includeColumnNames, addQuotes, append)];
        case Txt =>
          written := [SaveParsedLinesAsTxtFile(outputFilePath, TxtDelimiter, includeColumnNames, addQuotes, TxtQuote, append)];
        case Xml =>
          return Some(NotImplemented), [];
      }
      failure := None;
    }

    /**
     * Stream the source file `file` to the writers: `ceil(|file| / chunk)` batches of
     * `chunk = LineSize * chunkSize` bytes, the last one clamped to what remains; each batch is read
     * (every read filling its request), parsed into `ParsedLines` and handed to the writer, with
     * `append` false for the first batch only. Returns the writer calls made, in order, and behaves
     * exactly as `ParseAndWriteSpec`.
     */
    method ParseAndWriteLines(lineTemplate: Option<LineTemplate>, file: seq<byte>, outputFilePath: string,
                              writeOutputType: WriteOutputType, includeColumnNames: bool, addQuotes: bool,
                              chunkSize: int)
      returns (r: Result<bool, PipelineError>, calls: seq<WriterCall>)
      modifies this
      ensures Outcome(r, calls, parsedLines) ==
        ParseAndWriteSpec(lineTemplate, file, outputFilePath, writeOutputType, includeColumnNames, addQuotes,
                          chunkSize, old(parsedLines))
    {
      calls := [];
      if lineTemplate.None? {
        return Err(NullTemplate), calls;
      }
      var t := lineTemplate.value;
      var fsBytes := |file|;
      var chunk := Int32(t.LineSize * chunkSize);
      if chunk == 0 {
        return Err(DivideByZero), calls;
      }
      ghost var fullChunk := chunk;
      var loop := CeilDiv(fsBytes, chunk);
      var append := false;
      var bytesRead := 0;
      ghost var spec := ParseAndWriteSpec(lineTemplate, file, outputFilePath, writeOutputType, includeColumnNames,
                                          addQuotes, chunkSize, parsedLines);
      if fullChunk > 0 {
        BatchesCount(file, fullChunk);
        assert file[bytesRead..] == file;
      }
      var i := 1;
      while i <= loop
        invariant fullChunk < 0 ==> i == 1 && calls == [] && parsedLines == old(parsedLines)
        invariant fullChunk > 0 ==> 1 <= i <= loop + 1
        invariant fullChunk > 0 ==> 0 <= bytesRead <= fsBytes
        invariant fullChunk > 0 ==> |Batches(file[bytesRead..], fullChunk)| == loop - i + 1
        invariant i <= loop ==> chunk == fullChunk
        invariant append == (i > 1)
        invariant fullChunk > 0 ==>
          Ahead(spec, calls, t, file[bytesRead..], fullChunk, writeOutputType, outputFilePath, includeColumnNames,
                addQuotes, append, parsedLines)
        decreases loop - i
      {
        assert fullChunk > 0;
        ghost var rest := file[bytesRead..];
        ghost var before := calls;
        ghost var parsedBefore := parsedLines;
        chunk := Clamp(bytesRead, chunk, fsBytes);
        var b := new byte[chunk];
        // reader.Read(b, 0, chunk), assumed to fill the whole request
        forall j | 0 <= j < chunk {
          b[j] := file[bytesRead + j];
        }
        assert b[..] == rest[..chunk];
        assert file[bytesRead + chunk..] == rest[chunk..];
        bytesRead := bytesRead + chunk;
        assert file[bytesRead..] == rest[chunk..];
        var failure, written := ParseAndWriteBatch(lineTemplate, b, outputFilePath, writeOutputType, includeColumnNames,
                                                   addQuotes, append);
        BatchStep(spec, before, lineTemplate, rest, b[..], chunk, fullChunk, writeOutputType, outputFilePath,
                  includeColumnNames, addQuotes, append, parsedBefore, failure, written, parsedLines);
        if failure.Some? {
          return Err(failure.value), calls;
        }
        calls := calls + written;
        append := true;
        i := i + 1;
      }
      return Ok(true), calls;
    }
  }
}
