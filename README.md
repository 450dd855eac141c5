# FLAC metadata blocks: header decoding, block types, parse and skip

This project models the metadata-block layer of a FLAC decoder, the `meta` package in
`meta/meta.go`. Its parts:

- **Header decoding.** The four-byte block header is read most significant bit first as a 1-bit
  last-block flag, a 7-bit type code and a 24-bit body length. Codes 0–6 name the seven known
  block types. Codes 7–126 are reserved: decoding succeeds with the reserved type and a
  diagnostic carrying the code. Code 127 is invalid and decoding fails.
- **Block types.** Eight single-bit constants (`1 << 0` … `1 << 7`), two composite masks, and a
  display name for every value.
- **The block lifecycle.** `NewBlock` decodes a header from a stream and opens a block.
  `Block.Parse` dispatches on the type to a body decoder, which sees a reader bounded to the
  declared length. `Block.Skip` moves past the body with a relative seek when the stream can
  seek, and otherwise by reading and discarding. `ParseBlock` does `NewBlock` followed by
  `Parse`.

Modules:

- `Results` holds `Option`, `Result` and the error kinds.
- `Decimal` renders a number as `%d` does, with its inverse.
- `Bits` is a reference model of an MSB-first bit-field reader.
- `BlockTypes` holds the constants, masks and names.
- `Headers` holds the header decoder, its encoder and the round trips.
- `Blocks` holds a `Stream` class (bytes plus a mutable cursor `pos`) and a `Block` class
  (header and body fields). It also has the pure step functions `ParseStep` and `SkipStep`,
  which specify `Block.Parse` and `Block.Skip`, and the lemmas about them.

Notes on behaviour:

- `Skip` never touches the block's body; only `Parse` sets it.
- A relative seek can move the cursor past the end of the data, so a skip by seeking can
  succeed where a skip by discarding fails with end-of-stream (`SkipStep`).
- `Parse` bounds the decoder's reader to the declared length but leaves in the stream any
  body bytes the decoder does not read (`ParseMayStopShort`). Only the reserved branch, which
  reads its whole bounded view, always ends at the end of that view, min(Length, remaining)
  bytes on (`ParseReserved`).

## Model

| member | source | states |
|---|---|---|
| Headers.ParseBlockHeader | meta/meta.go:163-220 | fewer than four bytes fail with the end-of-stream error and nothing else does; the invalid-type error happens exactly when the 7 code bits are all ones; on success the last flag is the top bit of byte 0 and the length is the big-endian 24-bit value of bytes 1–3, at most 0xFFFFFF |
| Headers.HeaderFields | meta/meta.go:164-171 | the split of four header bytes into the flag, code and length fields: a flag below 2, a code below 128 and a length of at most 0xFFFFFF; FieldsAreBitFields proves it agrees with the MSB-first reader and EncodeOfFields that it loses nothing |
| Headers.FieldsAreBitFields | meta/meta.go:164-171 | the byte arithmetic gives the same three fields as reading the four bytes MSB first with widths 1, 7 and 24 |
| Headers.FieldsOfEncode | meta/meta.go:164-171 | the encoder writes a flag, code and length that the field reader reads back unchanged |
| Headers.EncodeOfFields | meta/meta.go:164-171 | every four bytes are the encoding of their own fields, so field reading loses nothing |
| Headers.KnownCode | meta/meta.go:189-204 | code k < 7 decodes to the constant `Types[k]` (that is `1 << k`), with the flag and length, and no diagnostic |
| Headers.KnownCodesInjective | meta/meta.go:190-204 | two headers with known codes that decode to the same type have the same code |
| Headers.ReservedCode | meta/meta.go:205-209 | codes 7–126 decode to the reserved type with a diagnostic naming the code |
| Headers.InvalidCodeFails | meta/meta.go:210-213 | code 127 fails with the invalid-type error for every flag and length |
| Headers.DiagnosticOnlyForReserved | meta/meta.go:205-209 | a decoded header carries a diagnostic exactly when its type is reserved, and its type is always one of the eight constants |
| Headers.HeaderRoundTrip | meta/meta.go:163-220 | encoding any flag, any code below 127 and any length up to 0xFFFFFF, then decoding, gives back the flag, the length, the type the code stands for and the matching diagnostic |
| BlockTypes.Name | meta/meta.go:134-139 | `BlockType.String()`: never empty, and a value with a table entry gets one of the seven fixed names; its full behaviour is stated by NameKnown, NameUnknown and NameInjective |
| BlockTypes.TypesAreDistinctBits | meta/meta.go:107-115 | the eight constants are `1 << 0` through `1 << 7` in declaration order, pairwise distinct |
| BlockTypes.TypesAreTheSingleBits | meta/meta.go:107-115 | a byte is one of the constants if and only if exactly one of its bits is set |
| BlockTypes.MaskMembership | meta/meta.go:117-120 | a constant is in TypeAll if and only if it is not padding, and in TypeAllStrict if and only if it is not reserved |
| BlockTypes.MasksAreComplements | meta/meta.go:117-120 | TypeAll is the full byte without the padding bit; TypeAllStrict is the full byte without the reserved bit |
| BlockTypes.NameKnown | meta/meta.go:124-136 | each of the seven named types gets its fixed name from the table |
| BlockTypes.NameUnknown | meta/meta.go:134-139 | every other value, reserved included, prints as "unknown block type " followed by its decimal number, e.g. "unknown block type 128" |
| BlockTypes.NameKeys | meta/meta.go:124-132 | the name table has an entry for a value if and only if it is one of the seven non-reserved constants |
| BlockTypes.NameInjective | meta/meta.go:134-139 | distinct values, among all 256, get distinct names |
| Decimal.Format | meta/meta.go:138 | the numeral is non-empty, all digits, and starts with '0' only for zero |
| Decimal.ParseFormat | meta/meta.go:138 | reading a formatted numeral back gives the number |
| Decimal.FormatInjective | meta/meta.go:138 | distinct numbers print differently |
| Blocks.RouteOf | meta/meta.go:60-79 | the branch of the switch a type takes: a delegated branch carries its own type and is never padding or reserved, and only values outside the eight constants reach the default branch |
| Blocks.RoutesAreDistinct | meta/meta.go:60-79 | each constant has its own branch of the dispatcher; a type has no branch if and only if it is not a constant; a delegated branch carries its own type |
| Blocks.DecodedHeadersAreHandled | meta/meta.go:77-78 | no header that the decoder accepts reaches the unsupported-type branch |
| Blocks.Window | meta/meta.go:59 | the view `io.LimitReader` gives: exactly min(n, remaining) bytes, and when non-empty the bytes of the data at the cursor |
| Blocks.ParseStep | meta/meta.go:57-85 | the outcome of `Block.Parse`: the cursor never moves back, and the body changes only in a delegated or the reserved branch; ParseIsBounded, ParseReserved, ParseMayStopShort, ParsePaddingKeepsBody, ParseUnhandled, ParseDelegateError and ParseSeesOnlyItsBody state the rest |
| Blocks.ParseIsBounded | meta/meta.go:59 | parsing moves the cursor forward by at most the declared length and never past the end of the data |
| Blocks.ParseReserved | meta/meta.go:75-76 | a reserved body is exactly the next min(length, remaining) bytes, kept verbatim, with no error, and the cursor moves past them |
| Blocks.ParseMayStopShort | meta/meta.go:59-85 | a decoder that reads nothing leaves the cursor at the start of the body: unread body bytes are not skipped |
| Blocks.ParsePaddingKeepsBody | meta/meta.go:63-64 | verifying padding does not change the body |
| Blocks.ParseUnhandled | meta/meta.go:77-78 | a type with no branch fails with an error naming the type, reads nothing and keeps the body |
| Blocks.ParseDelegateError | meta/meta.go:61-82 | a decoder's error is returned unchanged, and a decoded body is stored if and only if the decoder succeeded |
| Blocks.ParseSeesOnlyItsBody | meta/meta.go:59 | the outcome of parsing depends only on the declared-length window after the cursor, not on anything after it |
| Blocks.SkipStep | meta/meta.go:88-101 | the outcome of `Block.Skip`: the cursor never moves back, and the only errors are the seek fault on a seekable stream and end-of-stream on a sequential one; SkipAdvancesByLength, DiscardFailsWhenShort and SeekAndDiscardAgree state the rest |
| Blocks.SkipAdvancesByLength | meta/meta.go:88-101 | a successful skip moves the cursor by exactly the declared length, seeking or discarding |
| Blocks.DiscardFailsWhenShort | meta/meta.go:94-98 | discarding fails with end-of-stream if and only if fewer than the declared length bytes remain |
| Blocks.SeekAndDiscardAgree | meta/meta.go:88-101 | on a stream holding the whole body, seeking and discarding both succeed and leave the cursor at the same offset |
| Blocks.Stream.Read | meta/meta.go:59 | the bytes read are the next min(n, remaining) bytes of the data, and the cursor advances by their count |
| Blocks.Stream.Discard | meta/meta.go:95 | the cursor advances by min(n, remaining); the result is an end-of-stream error if and only if fewer than n bytes remained |
| Blocks.Stream.Seek | meta/meta.go:90 | a relative forward seek: the cursor moves by the offset, even past the end, unless the device reports a fault, which is returned with the cursor unchanged |
| Blocks.Block.constructor | meta/meta.go:47 | a new block holds its stream and header and has no body yet |
| Blocks.Block.Parse | meta/meta.go:57-85 | the returned error, the new body and the new cursor are those of `ParseStep` on the old state |
| Blocks.Block.Skip | meta/meta.go:88-101 | the returned error and the new cursor are those of `SkipStep` on the old cursor and the stream's seek capability |
| Blocks.NewBlock | meta/meta.go:45-54 | the reader consumes up to four bytes; when they decode, a fresh block with that header, the stream and no body is returned along with the decoder's diagnostic; otherwise the decoder's error is returned |
| Blocks.ParseBlock | meta/meta.go:28-40 | a header error is returned as is; otherwise the body is parsed as `ParseStep` says, and a block is returned only if that step raised no error |
| Blocks.HeaderAt | meta/meta.go:163-220 | a header with a known code 0–6 and any length up to 0xFFFFFF, encoded at any offset of a stream, is decoded back by a reader at that offset |
| Blocks.OpenAndSkip | meta/meta.go:45-54 | on a stream without a seek fault that holds the whole body, opening a block with a decodable header and skipping its body leaves the cursor just after the body |
| Blocks.OpenAndParse | meta/meta.go:28-40 | `ParseBlock` on a block with a delegated type and a decoder that reads its whole view returns a block whose body is stored, and leaves the cursor just after it |
| Blocks.SkipAt | meta/meta.go:88-101 | on a stream without a seek fault, a block of a known type 0–6 whose encoded header and whole body lie at the cursor comes back with its flag, type and length, and skipping it leaves the cursor four bytes plus the length further on |
| Blocks.WalkThreeBlocks | meta/meta.go:28-101 | on a seekable or sequential stream holding a stream-info, a padding and a last vorbis-comment block followed by audio, opening and skipping the first two and parsing the third with a decoder that reads its whole view yields the three headers in order, the vorbis-comment body, and a cursor followed by exactly the audio bytes |
| Blocks.ParseLast | meta/meta.go:28-40 | a last vorbis-comment block whose header and whole body lie at the cursor, parsed with a decoder that reads its whole view, comes back with its header and body and leaves the cursor at the first byte after the metadata |

## Left out

- The body decoders for stream info, application, seek table, vorbis comment, cue sheet and
  picture, and the padding verifier, live in other files. They are not part of this model.
  `Block.Parse` takes them as a parameter: a function from a block type and the bounded view's
  bytes to the number of bytes consumed and an optional error. A decoded body is recorded only
  by its type (`Opaque`).
- The bit-field reader of the external `bit` package is not part of this model. The header
  decoder uses byte arithmetic, and `Bits` is a reference model of the reader's documented
  behaviour that this arithmetic is proved against.
- The log line for a reserved type is a global side effect. The header decoder returns it
  instead, as an optional `Diagnostic` beside the header.
- Blocks.Stream.Read: reads never fail except at the end of the data. A read fault of the
  underlying reader, which ParseBlockHeader, ReadAll and CopyN would return unchanged (with
  ReadAll also keeping the bytes read so far as the body), is not modelled, so the "no error"
  of `ParseReserved` and the "fails exactly when short" of `DiscardFailsWhenShort` hold for
  fault-free readers only.
- Blocks.Stream.Seek: the seek of the operating system is abstract. Whether the device reports
  a fault is a fixed flag of the stream, and the error messages of the system calls are not
  modelled.
- Blocks.NewBlock: when fewer than four bytes remain, the model has the reader consume all of
  them and return one end-of-stream error kind. The exact cursor position after a short read
  from the real bit reader, and the difference between an EOF and an unexpected EOF, are not
  modelled.
- Blocks.Block.Parse: on a decoder error the model sets the body to `NoBody`. The code stores
  whatever the decoder returns beside its error.
- The error messages are modelled as error kinds (`Eof`, `InvalidBlockType`,
  `Unsupported(type)`, `SeekFault`, `BodyError`), not as text.
- Nothing prevents a caller from calling `Parse` or `Skip` twice on a block. The model, like
  the code, just reads again from the current cursor.
- The interface value under a block's reader is fixed at construction: the `seekable` flag
  stands for the type assertion to `io.Seeker`.
