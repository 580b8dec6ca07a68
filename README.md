# Record serialization benchmark — verified model of its own logic

The benchmark sends a synthetic batch of records through one of three
codecs: JSON text, CSV, or MessagePack. The payload is cut into chunks and
deserialized, and the result is checked against the original batch. Most of
that work runs inside libraries. This project models the repository's own
logic and proves properties of it:

- **Record generation** (`Records`): the fixed record and the counting loop
  that builds a batch of `n` copies of it. `GenerateRecord` has no contract
  of its own. Its value, the fixed record, is stated in the ensures of
  `GenerateRecords`.
- **Verifier** (`Verifier`): first the length check, then the loop that
  compares records index by index with deep strict equality. Its three
  possible results are the `Outcome` datatype: `Ok`,
  `LengthMismatch(expectedLen, actualLen)`, or
  `Mismatch(index, expected, actual)`. `Check` is the reference definition
  of the method. The lemmas prove the if-and-only-ifs and the "first
  differing index" property about `Check`.
- **Collect loops of the deserializers** (`CsvParser`, `MsgPackParser`).
  The library decoders become their outputs: the CSV parser's rows (header
  already skipped) as a `seq<seq<string>>`, and the MessagePack decoder's
  items as a `seq<T>`. The CSV `teamId` coercion is the parameter
  `toNum: string -> int`, a function about which nothing is assumed. The
  loops are proved to keep every entry and its order, and to place the CSV
  columns correctly.

A record is `Record(firstName, lastName, teamId)`. Deep strict equality on
two such records is datatype equality.

## Model

| member | source | states |
|---|---|---|
| `Records.GenerateRecords` | main.js:65-81 | a count of zero or less gives the empty batch; otherwise the batch has exactly that many records; every record is `{firstName: "asd", lastName: "asd", teamId: 12345}` |
| `Verifier.Verify` | main.js:83-93 | the early length check and the loop that stops at the first difference produce exactly the reference outcome `Check` |
| `Verifier.MismatchFromShape` | main.js:88-92 | a comparison that starts at `from` never reports a length error. A reported index is in range and at or after `from`, the two records there differ and are the ones reported, and every index from `from` up to it agrees |
| `Verifier.MismatchFromOk` | main.js:88-92 | a comparison that starts at `from` succeeds if and only if the two batches agree at every index from `from` on |
| `Verifier.LengthMismatchIff` | main.js:84-86 | verification fails with `LengthMismatch(len(expected), len(actual))` if and only if the lengths differ |
| `Verifier.CheckOkIff` | main.js:83-93 | verification succeeds if and only if the two batches are equal: same length, and equal at every index |
| `Verifier.CheckReflexive` | main.js:83-93 | a batch always verifies against itself |
| `Verifier.MismatchIsFirst` | main.js:88-92 | when the lengths are equal and verification fails, the failure is a `Mismatch`. Its index is the smallest index whose records differ, it carries those two records, and all earlier indices are equal |
| `CsvParser.Deserialize` | main.js:33-46 | returns one record per yielded row, in yield order. Record `i` is `firstName = row[i][0]`, `lastName = row[i][1]`, `teamId = toNum(row[i][2])`. The result equals the reference fold `MapRows` |
| `CsvParser.MapRowsAt` | main.js:38-44 | the reference fold has one record per row, and record `i` comes from row `i`'s columns 0, 1 and 2 |
| `CsvParser.MapRowsAppend` | main.js:38-44 | the mapping is compositional. Rows yielded in two stretches give the first stretch's records followed by the second's, so nothing is reordered or dropped |
| `CsvParser.RoundTripVerifies` | main.js:37-45 | if the parser's rows render a batch, putting the names in columns 0 and 1 and a team-id text that `toNum` reads back in column 2, then the collected records pass the verifier against that batch. The premise amounts to the collect loop reproducing the batch, so all this lemma adds is that `Renders` and `RowToRecord` agree on column order. It says nothing about the codec round trip |
| `MsgPackParser.Deserialize` | main.js:54-62 | returns the decoder's items unchanged, in yield order, with the same count |

## Left out

- The serializers and decoders run inside libraries: `JSON.stringify` and `JSON.parse`, `csv-stringify`, `csv-parse` (including skipping the header with `from: 2`), and MessagePack `encode`/`decodeArrayStream`. Their behavior is not part of this model. For this reason the codec round-trip law is not proved. `CsvParser.RoundTripVerifies` assumes its premise at the level of the collect loop, so it is no evidence for the codec round trip.
- `JSONParser`: both of its methods are one-line library calls, so nothing of it is modelled.
- The three `serialize` methods are one-expression library calls and are not modelled.
- `streamToString`, `Readable.from` and the `block-iterator` chunking are stream I/O and Promise plumbing. They are not modelled, and neither is chunk-size invariance, which depends on them.
- Errors that a decoder throws mid-stream are not modelled. In the source they propagate out of the `for await` loop, and the partial results are discarded.
- `CsvParser.Deserialize` requires each row to have at least three columns. csv-parse rejects rows whose column count differs from the three-column header. A shorter row would make the JavaScript loop store `undefined` fields, and the model's string-typed record has no value for `undefined`.
- `CsvParser.Deserialize` models the unary-plus coercion `+record[2]` as an abstract `toNum: string -> int`. JavaScript's floating-point result, including `NaN` for non-numeric text, is not modelled.
- `Records.GenerateRecords` takes an integer count. The JavaScript loop also accepts a fractional count, which rounds the iteration count up; that is not modelled.
- `Verifier.Verify` compares records with datatype equality. This matches `deepStrictEqual` for string names and integer team ids. The `NaN` and `-0` cases of floating-point numbers do not arise in the model.
- The source throws an `Error` whose message text contains the two lengths, and `deepStrictEqual` throws an `AssertionError` that holds the two records being compared. The model returns `Outcome` values instead. `LengthMismatch` carries the two lengths and `Mismatch` carries the two records. `Mismatch.index` is the model's own addition: the source's error holds no index, and the index shows only as which pair of records fails first. The message text is not modelled. Note that the source passes the expected record as `deepStrictEqual`'s "actual" argument. The model's `Mismatch` fields are named after the source's own variables.
- `main` is left out: the attempt loop, the timing with `performance.now`, and console logging are harness and I/O.
- Async/await suspension is left out. The model is sequential, and the source has nothing concurrent that the model needs.
