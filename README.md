# Ebcdic2Unicode record framing, modelled in Dafny

`Ebcdic2Unicode` converts fixed-width EBCDIC mainframe files into CSV, delimited text or XML. A
*line template* gives the byte length of one record (`LineSize`) and its field descriptors. The
`EbcdicParser` class cuts a byte buffer into `LineSize`-byte records and hands each one to the record
decoder (`new ParsedLine(template, bytes)`). Its streaming entry point reads a source file in batches of
`LineSize * chunkSize` bytes and passes each batch's parsed lines to the output writers.

This project models the framing layer of `EbcdicParser`:

- the guard chain `ValidateInputParameters`, with its six error cases in their order;
- the single-record parse `ParseSingleLine`;
- the batch parse `ParseAllLines(LineTemplate, byte[])`, an imperative loop over an array, proved
  against a functional specification of "the buffer cut into records";
- the streaming loop `ParseAndWriteLines`, covering:
  - its chunk arithmetic: a 32-bit product, the decimal ceiling for the batch count, and the clamp of
    the last read;
  - the `ParsedLines` property it updates;
  - the `append` flag;
  - the writer calls it makes;
  - XML refusal.

The loop is proved equal to a functional specification, and the lemmas state what the source promises
about that specification.

Files and modules:

- `wrappers.dfy`: `Option` and `Result`.
- `arith.dfy`: integer division facts.
- `template.dfy`: `byte`, `LineTemplate` and `ParsedLine`. The decoder is a free constructor of the
  template and a snapshot of the record's bytes.
- `validation.dfy`: the guard chain.
- `framing.dfy`: `Records`, `ParseSingleLine` and `ParseAll`, the specification of a batch parse.
- `chunking.dfy`: `CeilDiv`, `Batches` and `Flatten`.
- `pipeline.dfy`: the streaming loop as a function of its inputs, the writer-call and output-file
  model, and the lemmas about the streaming loop.
- `parser.dfy`: `class EbcdicParser` with its `parsedLines` field and the two loop methods.

Null references are `None` (`Option`, or `array?` for the batch method's buffer). Exceptions are the
`Err` side of a `Result`:

- `ValidationError` has one constructor per guard.
- `PipelineError` covers the null-template dereference, the decimal division by a zero chunk, a
  batch that fails validation, and the XML `NotImplementedException`.

## Model

| member | source | states |
|---|---|---|
| Validation.ValidateInputParameters | Ebcdic2Unicode/EbcdicParser.cs:179-211 | Accepts exactly when data and a template with fields are present, the length is a whole number of records of a positive `LineSize`, and in single-line mode the length is one record. The null-data, null-template and no-fields errors are raised first, in that order. A length failure is reported by the first of the three length guards, in source order, whose condition holds. |
| Validation.UnalignedRejected | Ebcdic2Unicode/EbcdicParser.cs:193-208 | A multi-line buffer that is not a whole number of records is rejected. The error is `DataShorterThanExpected` when the buffer is shorter than one record, otherwise `ExpectedNumberOfRows(length, LineSize)`. |
| Validation.EmptyBufferAccepted | Ebcdic2Unicode/EbcdicParser.cs:193-210 | An empty buffer passes multi-line validation. |
| Framing.Records | Ebcdic2Unicode/EbcdicParser.cs:54-72 | Cutting a buffer into records yields the buffer length divided by `LineSize` (rounded down) of them. |
| Framing.RecordsAt | Ebcdic2Unicode/EbcdicParser.cs:59-69 | Record `k` is decoded from bytes `[k*LineSize, (k+1)*LineSize)`. |
| Framing.RecordsAppend | Ebcdic2Unicode/EbcdicParser.cs:59-72 | The records of a whole-record prefix followed by more bytes are the records of the prefix, then those of the rest. |
| Framing.ParseSingleLine | Ebcdic2Unicode/EbcdicParser.cs:171-177 | Decodes exactly when the template is usable and the buffer is exactly one record. It then decodes those bytes with that template. Otherwise it returns the single-line validation error. |
| Framing.ParseAll | Ebcdic2Unicode/EbcdicParser.cs:43-88 | A batch parse fails exactly when multi-line validation fails, with the same error. Otherwise the buffer is a whole number of records and the length divided by `LineSize` lines come back. |
| Framing.ParseAllSlots | Ebcdic2Unicode/EbcdicParser.cs:59-72 | In a successful batch parse, line `k` equals the single-line parse of record `k`'s bytes. |
| Chunking.CeilDiv | Ebcdic2Unicode/EbcdicParser.cs:122 | For a positive chunk, the batch count is the least `q` with `fsBytes <= q * chunk`. For a negative chunk it is at most zero, so the loop does not run. |
| Chunking.Batches | Ebcdic2Unicode/EbcdicParser.cs:126-138 | The reads the loop makes, in order. There are none exactly when the file is empty, and the first read is the first `min(chunk, fsBytes)` bytes. `Chunking.BatchesCount`, `Chunking.BatchesShape` and `Chunking.BatchesStep` state the rest. |
| Chunking.BatchesCount | Ebcdic2Unicode/EbcdicParser.cs:122-138 | The batches the loop reads number exactly `ceil(fsBytes / chunk)`. |
| Chunking.BatchesShape | Ebcdic2Unicode/EbcdicParser.cs:126-138 | The batches laid end to end are the file. Every batch but the last is `chunk` bytes, and the last holds `fsBytes - (n-1)*chunk` bytes, between 1 and `chunk`. |
| Chunking.BatchesStep | Ebcdic2Unicode/EbcdicParser.cs:132-138 | One read takes the first `min(chunk, remaining)` bytes, and the batches that follow are those of the bytes after it. |
| Pipeline.Int32 | Ebcdic2Unicode/EbcdicParser.cs:121 | The chunk product is taken modulo 2^32 into the `int` range. It is unchanged when it already fits. |
| Pipeline.Clamp | Ebcdic2Unicode/EbcdicParser.cs:132-135 | The read size is the smaller of the chunk and the bytes remaining. |
| Pipeline.ClampAsWritten | Ebcdic2Unicode/EbcdicParser.cs:132-135 | The read size is either the chunk or the bytes remaining, chosen by comparing a 32-bit sum. |
| Pipeline.ClampAgrees | Ebcdic2Unicode/EbcdicParser.cs:132-135 | When `bytesRead + chunk` fits in an `int`, the clamp as written and the corrected clamp give the same read size. |
| Pipeline.ClampOverflowReadsPastEnd | Ebcdic2Unicode/EbcdicParser.cs:132-138 | The 22nd read of a 2,140,000,000-byte file with a 100,000,000-byte chunk asks for 60,000,000 bytes more than remain. |
| Pipeline.ParseAndWriteSpec | Ebcdic2Unicode/EbcdicParser.cs:113-163 | A null template ends the run with the null dereference. The run ends with a division error exactly when the 32-bit chunk product is zero. An empty file with a non-zero chunk, or a negative 32-bit chunk, returns `true` with no writes. |
| Pipeline.RunBatches | Ebcdic2Unicode/EbcdicParser.cs:126-156 | The loop body (parse the batch, switch on the format, write, set `append`) run over the batches in order makes at most one writer call per batch. `Pipeline.RunAppendSchedule`, `Pipeline.RunWholeBatches` and `Pipeline.RunUnalignedLast` state what those calls and the outcome are. |
| Pipeline.RunAppendSchedule | Ebcdic2Unicode/EbcdicParser.cs:123-153 | No batch ends in a division or null error. Every write goes to the same path with the same flags. The first write gets the incoming `append`, every later write `true`. CSV output makes only CSV calls; text output makes text calls with the pipe delimiter and the `¬` quote character. |
| Pipeline.AppendOnlyAfterFirstWrite | Ebcdic2Unicode/EbcdicParser.cs:123-153 | For any input, write `i` of a run appends exactly when `i > 0` (with the corrected CSV call), and every write targets the output path. |
| Pipeline.RunWholeBatches | Ebcdic2Unicode/EbcdicParser.cs:126-156 | If every batch is whole records (CSV or text), the run returns `true` and writes each batch once, in order. The lines written are the records of all the bytes, and `ParsedLines` ends as the last batch's lines. |
| Pipeline.RunUnalignedLast | Ebcdic2Unicode/EbcdicParser.cs:126-153 | If only the last batch is not whole records, the earlier batches are written and the run ends with the last batch's validation error. |
| Pipeline.BatchAlignment | Ebcdic2Unicode/EbcdicParser.cs:121-138 | With a chunk of `LineSize * chunkSize`, every batch but the last is whole records. The last has the same remainder modulo `LineSize` as the file. |
| Pipeline.AlignedFileMatchesWholeParse | Ebcdic2Unicode/EbcdicParser.cs:113-156 | For a file of whole records, every batch validates and the run returns `true` after `ceil(fsBytes / chunk)` writes. The lines written, in order, are exactly the whole-file `ParseAllLines` result: the chunked parse equals the whole parse. |
| Pipeline.AlignedFileOutputIsWholeParse | Ebcdic2Unicode/EbcdicParser.cs:113-156 | Streaming a non-empty file of whole records leaves the output file holding exactly the whole-file parse, whatever the file held before. |
| Pipeline.UnalignedFileFailsOnFinalBatch | Ebcdic2Unicode/EbcdicParser.cs:113-163 | For a file that is not whole records, the first `n-1` of the `n` batches are written: the records of all bytes before the last batch. The run then fails on the last batch, with `DataShorterThanExpected` if that batch is shorter than a record and `ExpectedNumberOfRows` otherwise. |
| Pipeline.XmlRejectedBeforeAnyWrite | Ebcdic2Unicode/EbcdicParser.cs:140-151 | XML output makes no writer call. On a non-empty file with a positive chunk, it ends with `NotImplemented` exactly when the first batch validates. |
| Pipeline.OutputFileHoldsAllWritten | Ebcdic2Unicode/EbcdicParser.cs:123-153 | When the first write creates the file and every later one appends, the file ends up holding exactly the lines handed to the writers, in order. |
| Parser.EbcdicParser.constructor | Ebcdic2Unicode/EbcdicParser.cs:17-20 | A new parser has no parsed lines. |
| Parser.EbcdicParser.FromBytes | Ebcdic2Unicode/EbcdicParser.cs:30-33 | The byte-array constructor succeeds exactly when the batch parse does, and the new parser's `ParsedLines` is that parse. Otherwise it fails with the parse's validation error. |
| Parser.EbcdicParser.ParseAllLines | Ebcdic2Unicode/EbcdicParser.cs:43-88 | The array loop returns exactly `ParseAll` of the buffer's contents. On success it returns `Length / LineSize` lines, line `k` decoded from bytes `[k*LineSize, (k+1)*LineSize)`. |
| Parser.EbcdicParser.SaveParsedLinesAsCsvFileAsWritten | Ebcdic2Unicode/EbcdicParser.cs:213-216 | The CSV call passes the current `ParsedLines` and never appends. |
| Parser.EbcdicParser.CsvSecondBatchOverwritesAsWritten | Ebcdic2Unicode/EbcdicParser.cs:213-216 | Take a non-empty first write, then a second write asked to append, both through the as-written CSV call. The file holds only the second batch's lines. |
| Parser.EbcdicParser.SaveParsedLinesAsCsvFile | Ebcdic2Unicode/EbcdicParser.cs:213-216 | The CSV call passes the current `ParsedLines`, the path, the flags and the given `append`. |
| Parser.EbcdicParser.CsvSecondBatchAppends | Ebcdic2Unicode/EbcdicParser.cs:213-216 | Through the corrected CSV call, the same two writes leave both batches' lines in the file, in order. |
| Parser.EbcdicParser.SaveParsedLinesAsTxtFile | Ebcdic2Unicode/EbcdicParser.cs:218-221 | The text call passes the current `ParsedLines`, the path, delimiter, flags, quote character and `append`. |
| Parser.EbcdicParser.ParseAndWriteBatch | Ebcdic2Unicode/EbcdicParser.cs:140-153 | After one batch is read: `ParsedLines` becomes the batch parse, or is left unchanged on a validation error, which ends the run. A CSV or text batch makes one writer call with the given `append`. XML ends the run with `NotImplemented` before any write. |
| Parser.EbcdicParser.ParseAndWriteLines | Ebcdic2Unicode/EbcdicParser.cs:113-163 | The streaming loop's result, its writer calls and the final `ParsedLines` are exactly those of `ParseAndWriteSpec`. The loop invariant is that the whole run is the writes made so far followed by the run over the batches still unread. |

## Left out

- Console output (progress lines, batch counters, timestamps) is not modelled; it changes no state
  that the model tracks. The one exception is line 98, whose format string `"{1}: Reading {2}..."`
  refers to a third argument that is not passed, so `Console.WriteLine` throws `FormatException`
  there (see the line on the `ParseAllLines(LineTemplate, string)` overload below).
- File I/O is left out:
  - `File.ReadAllBytes` and `File.OpenRead` are not modelled. The streaming loop receives the source
    file's contents as a sequence.
  - Every `reader.Read(b, 0, chunk)` is taken to fill its request. A short read by the stream is not
    modelled.
- Constructor 2 (`EbcdicParser.cs:23-27`) only adds `File.ReadAllBytes` in front of constructor 3,
  which `Parser.EbcdicParser.FromBytes` models.
- The `ParseAllLines(LineTemplate, string)` overload (`EbcdicParser.cs:96-100`) is not modelled. As
  written it always throws `FormatException` at line 98, before `File.ReadAllBytes` runs, so it never
  returns a parse. The evident intent is `ParseAll` of the file's bytes, which
  `Parser.EbcdicParser.ParseAllLines` models for the byte-array overload.
- `SaveParsedLinesAsXmlFile` (`EbcdicParser.cs:223-226`) and the writers in `ParserUtilities` are not
  part of this model:
  - A writer call is recorded with its arguments.
  - Its effect on the output file is modelled only as which lines the file holds: a call without
    `append` recreates the file, one with `append` adds to it.
  - Headers, quoting and delimiters are not modelled.
- The record decoder (`ParsedLine`, `FieldTemplate`, EBCDIC code pages) is not part of this model. A
  parsed line is the pair of the template and a snapshot of the record's bytes, and decoding is
  assumed never to throw. A throw from `new ParsedLine` (line 175) would end `ParseAllLines` through
  the rethrow at lines 79-83, and with it the streaming run. The `Ok` results of
  `Pipeline.AlignedFileMatchesWholeParse` and `Parser.EbcdicParser.ParseAllLines` rest on this.
- The `double` and `decimal` arithmetic is replaced by exact integer arithmetic:
  - the whole-number test at lines 48-49 and 202-204;
  - the ceiling at line 122.
  For operands in `int` range they agree. A zero `LineSize` makes the `double` quotient NaN or
  infinite, and the model rejects it like the source does.
- `try`/`catch` with rethrow (lines 61-84 and 115-162) is an identity on the error path, so every
  exception is an `Err` result.
- Pipeline.ParseAndWriteSpec: files of more than `int.MaxValue` bytes are not modelled. `(int)reader.Length`
  would truncate their length, and the model uses the exact length.
- Pipeline.ParseAndWriteSpec: the 32-bit loop counter `i` (line 126) is not modelled; the model
  counts batches with an unbounded integer. When the batch count `loop` is `int.MaxValue`, the
  source's `i++` wraps to `int.MinValue` and `i <= loop` stays true. An example is `LineSize` 1,
  `chunkSize` 1 and a file of exactly 2,147,483,647 bytes. The clamp's sum wraps too, so every later
  iteration reads nothing into a one-byte buffer and appends a zero record, and the source's run
  never ends. The model instead returns `true` after `int.MaxValue` writes.
- Parser.EbcdicParser.ParseAndWriteLines: it does not model the 32-bit counter either; it has the same
  gap as `Pipeline.ParseAndWriteSpec` on the input above.
- Parser.EbcdicParser.ParseAndWriteLines: the loop clamps with `Pipeline.Clamp`, the corrected clamp,
  not the 32-bit comparison as written. The wrapped comparison is modelled separately by
  `Pipeline.ClampAsWritten` (see Findings); `Pipeline.ClampAgrees` shows the two agree whenever the sum
  does not wrap.
- Parser.EbcdicParser.ParseAndWriteBatch: each batch's CSV write goes through the corrected
  `SaveParsedLinesAsCsvFile`, so it carries the loop's `append` flag. As written, that call would
  pass `false`. `Parser.EbcdicParser.ParseAndWriteLines` inherits this through the batch method.
- Pipeline.ParseAndWriteSpec, Pipeline.RunBatches and Chunking.Batches describe the loop with both
  corrections: reads follow `Pipeline.Clamp`, and a CSV batch's writer call carries the loop's `append`
  flag. So the `append` schedule stated by `Pipeline.RunAppendSchedule`,
  `Pipeline.AppendOnlyAfterFirstWrite` and `Pipeline.AlignedFileOutputIsWholeParse` holds for CSV
  output only with the corrected CSV call. As written, every CSV write recreates the file.
- `LineTemplate.LineSize` is modelled as a `nat`. The source's behaviour for a negative size is not
  modelled: there, a buffer whose length is a multiple of that size passes validation, and the run
  then throws at `new byte[LineSize]` (line 54).
- Default arguments are not modelled; every argument is passed explicitly. The source's defaults
  are `WriteOutputType.Txt`, `includeColumnNames = true`, `addQuotes = true` and
  `chunkSize = 100000` for `ParseAndWriteLines` (line 113), and `delimiter = "\t"`,
  `quoteCharacter = "\""` and `append = false` for the save methods (lines 213 and 218).
- `chunkSize` is an unbounded integer. The 32-bit product is modelled with `Pipeline.Int32`, but a
  `chunkSize` outside `int` range cannot be passed to the source.

## Findings

| source | as written | input that shows it | evidently intended | confidence | as-written member | corrected member |
|---|---|---|---|---|---|---|
| Ebcdic2Unicode/EbcdicParser.cs:213-216 | `SaveParsedLinesAsCsvFile` passes `false` as the writer's `append` and ignores its own `append` parameter. | Any CSV run with two batches. The second write, made with `append == true`, recreates the file, so only the last batch survives. | Pass `append` on, as `SaveParsedLinesAsTxtFile` does at line 220, so that later batches are appended. | high, not executed | Parser.EbcdicParser.SaveParsedLinesAsCsvFileAsWritten (counterexample: Parser.EbcdicParser.CsvSecondBatchOverwritesAsWritten) | Parser.EbcdicParser.SaveParsedLinesAsCsvFile (proved: Parser.EbcdicParser.CsvSecondBatchAppends, Pipeline.AlignedFileOutputIsWholeParse) |
| Ebcdic2Unicode/EbcdicParser.cs:132-138 | The clamp compares `bytesRead + chunk`, a 32-bit sum, with `fsBytes`. Near `int.MaxValue` the sum wraps negative in unchecked arithmetic, the C# default, and the last read is not clamped. Under checked arithmetic the run would throw `OverflowException` instead. | `LineSize` 1,000, `chunkSize` 100,000 and a 2,140,000,000-byte file. The 22nd read starts at 2,100,000,000, keeps the 100,000,000-byte chunk, and leaves 60,000,000 unfilled (zero) bytes in the batch, which are parsed and written as records. | Clamp the read to the bytes remaining, for example by comparing `chunk > fsBytes - bytesRead`. | medium, not executed | Pipeline.ClampAsWritten (counterexample: Pipeline.ClampOverflowReadsPastEnd) | Pipeline.Clamp (used by Parser.EbcdicParser.ParseAndWriteLines, whose reads then follow Chunking.Batches) |
