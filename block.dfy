/**
 * The metadata block lifecycle: a block is opened by decoding its header from a
 * stream, then its body is either parsed (through a reader bounded to the
 * header's length) or skipped (by seeking or by discarding bytes).
 */
module Blocks {
  import opened Results
  import opened BlockTypes
  import opened Headers

  function Min(a: nat, b: nat): nat {
    if a <= b then a else b
  }

  /** The number of bytes left in `data` at cursor `pos` (none once the cursor is past the end). */
  function Remaining(data: seq<bv8>, pos: nat): nat {
    if pos >= |data| then 0 else |data| - pos
  }

  /** The bytes a reader at `pos` yields when asked for at most `n` bytes. */
  function Window(data: seq<bv8>, pos: nat, n: nat): (w: seq<bv8>)
    ensures |w| == Min(n, Remaining(data, pos))
    ensures w != [] ==> pos + |w| <= |data| && w == data[pos..pos + |w|]
  {
    if pos >= |data| then [] else data[pos..pos + Min(n, |data| - pos)]
  }

  /** The body of a block: not yet set, the verbatim bytes of a reserved block, or a decoded body. */
  datatype Body = NoBody | Raw(bytes: seq<bv8>) | Opaque(blockType: BlockType)

  /** What an external body decoder did with its bounded view. */
  datatype DecoderRun = DecoderRun(consumed: nat, error: Option<Error>)

  /**
   * The external body decoders (stream info, application, seek table, vorbis
   * comment, cue sheet, picture, and the padding verifier), keyed by block type.
   * A decoder sees only the bytes of its bounded view.
   */
  type BodyDecoder = (BlockType, seq<bv8>) -> DecoderRun

  /** The branch of the body dispatcher that handles a block type. */
  datatype Route = Delegate(blockType: BlockType) | VerifyPadding | ReadAll | NoHandler

  function RouteOf(t: BlockType): (r: Route)
    ensures r.Delegate? ==> r.blockType == t && t != TypePadding && t != TypeReserved
    ensures r == NoHandler <==> t !in Types
  {
    if t == TypeStreamInfo then Delegate(TypeStreamInfo)
    else if t == TypePadding then VerifyPadding
    else if t == TypeApplication then Delegate(TypeApplication)
    else if t == TypeSeekTable then Delegate(TypeSeekTable)
    else if t == TypeVorbisComment then Delegate(TypeVorbisComment)
    else if t == TypeCueSheet then Delegate(TypeCueSheet)
    else if t == TypePicture then Delegate(TypePicture)
    else if t == TypeReserved then ReadAll
    else NoHandler
  }

  /** Every block type constant has its own branch, and only values outside the constants have none. */
  lemma RoutesAreDistinct(s: BlockType, t: BlockType)
    ensures RouteOf(t) == NoHandler <==> t !in Types
    ensures s in Types && RouteOf(s) == RouteOf(t) ==> s == t
    ensures RouteOf(t).Delegate? ==> RouteOf(t).blockType == t
  {
  }

  /** Every header the decoder accepts has a branch, so the unsupported-type error is unreachable from a decoded header. */
  lemma DecodedHeadersAreHandled(b: seq<bv8>)
    requires ParseBlockHeader(b).Ok?
    ensures RouteOf(ParseBlockHeader(b).value.header.blockType) != NoHandler
  {
    var t := ParseBlockHeader(b).value.header.blockType;
    DiagnosticOnlyForReserved(b);
    RoutesAreDistinct(t, t);
  }

  /** The outcome of one body step: the error it returned, the body it left, the cursor after it. */
  datatype Step = Step(error: Option<Error>, body: Body, pos: nat)

  /** The body parse of a block whose body starts at `pos`. */
  function ParseStep(h: BlockHeader, body: Body, data: seq<bv8>, pos: nat, decode: BodyDecoder): (s: Step)
    ensures s.pos >= pos
    ensures s.body != body ==> RouteOf(h.blockType).Delegate? || h.blockType == TypeReserved
  {
    var view := Window(data, pos, h.length);
    match RouteOf(h.blockType)
    case Delegate(t) =>
      var run := decode(t, view);
      Step(run.error, if run.error.None? then Opaque(t) else NoBody, pos + Min(run.consumed, |view|))
    case VerifyPadding =>
      var run := decode(TypePadding, view);
      Step(run.error, body, pos + Min(run.consumed, |view|))
    case ReadAll => Step(None, Raw(view), pos + |view|)
    case NoHandler => Step(Some(Unsupported(h.blockType)), body, pos)
  }

  /** The outcome of skipping a body: the error returned and the cursor after it. */
  datatype SkipResult = SkipResult(error: Option<Error>, pos: nat)

  /** The skip of a block whose body starts at `pos`: a relative seek when `seekable`, otherwise a discard. */
  function SkipStep(h: BlockHeader, data: seq<bv8>, pos: nat, seekable: bool, seekFault: bool): (s: SkipResult)
    ensures s.pos >= pos
    ensures s.error.Some? ==> s.error == Some(if seekable then SeekFault else Eof)
  {
    if seekable then
      if seekFault then SkipResult(Some(SeekFault), pos) else SkipResult(None, pos + h.length)
    else
      var n := |Window(data, pos, h.length)|;
      if n < h.length then SkipResult(Some(Eof), pos + n) else SkipResult(None, pos + h.length)
  }

  /** Parse never moves the cursor backwards, nor more than the declared length, nor past the data. */
  lemma ParseIsBounded(h: BlockHeader, body: Body, data: seq<bv8>, pos: nat, decode: BodyDecoder)
    ensures var s := ParseStep(h, body, data, pos, decode);
      pos <= s.pos <= pos + h.length && s.pos - pos <= Remaining(data, pos)
  {
  }

  /** A reserved body is exactly the next min(length, remaining) bytes, verbatim, and the cursor moves past them. */
  lemma ParseReserved(h: BlockHeader, body: Body, data: seq<bv8>, pos: nat, decode: BodyDecoder)
    requires h.blockType == TypeReserved
    ensures var n := Min(h.length, Remaining(data, pos));
      var s := ParseStep(h, body, data, pos, decode);
      && s.error == None && s.pos == pos + n && s.body.Raw?
      && |s.body.bytes| == n
      && (n > 0 ==> pos + n <= |data| && s.body.bytes == data[pos..pos + n])
  {
  }

  /**
   * Parse does not skip what a decoder leaves unread: a decoder that reads
   * nothing leaves the cursor at the start of the body.
   */
  lemma ParseMayStopShort(h: BlockHeader, body: Body, data: seq<bv8>, pos: nat)
    requires RouteOf(h.blockType).Delegate? || h.blockType == TypePadding
    ensures ParseStep(h, body, data, pos, (t, view) => DecoderRun(0, None)).pos == pos
  {
  }

  /** Padding is verified but leaves the body as it was. */
  lemma ParsePaddingKeepsBody(h: BlockHeader, body: Body, data: seq<bv8>, pos: nat, decode: BodyDecoder)
    requires h.blockType == TypePadding
    ensures ParseStep(h, body, data, pos, decode).body == body
  {
  }

  /** A type with no branch fails naming the type, without reading. */
  lemma ParseUnhandled(h: BlockHeader, body: Body, data: seq<bv8>, pos: nat, decode: BodyDecoder)
    requires h.blockType !in Types
    ensures ParseStep(h, body, data, pos, decode) == Step(Some(Unsupported(h.blockType)), body, pos)
  {
    RoutesAreDistinct(h.blockType, h.blockType);
  }

  /** A decoder's error reaches the caller unchanged, and a body is stored only on success. */
  lemma ParseDelegateError(h: BlockHeader, body: Body, data: seq<bv8>, pos: nat, decode: BodyDecoder)
    requires RouteOf(h.blockType).Delegate?
    ensures var s := ParseStep(h, body, data, pos, decode);
      var run := decode(h.blockType, Window(data, pos, h.length));
      s.error == run.error && (s.body == Opaque(h.blockType) <==> run.error.None?)
  {
    RoutesAreDistinct(h.blockType, h.blockType);
  }

  /**
   * Parse depends only on the `length` bytes after the cursor: two streams that
   * agree there give the same outcome, whatever follows.
   */
  lemma ParseSeesOnlyItsBody(h: BlockHeader, body: Body, d1: seq<bv8>, d2: seq<bv8>, pos: nat, decode: BodyDecoder)
    requires Window(d1, pos, h.length) == Window(d2, pos, h.length)
    ensures ParseStep(h, body, d1, pos, decode) == ParseStep(h, body, d2, pos, decode)
  {
  }

  /** A successful skip moves the cursor by exactly the length, seeking or discarding. */
  lemma SkipAdvancesByLength(h: BlockHeader, data: seq<bv8>, pos: nat, seekable: bool, seekFault: bool)
    ensures var s := SkipStep(h, data, pos, seekable, seekFault);
      s.error.None? ==> s.pos == pos + h.length
  {
  }

  /** Discarding fails exactly when fewer than `length` bytes remain. */
  lemma DiscardFailsWhenShort(h: BlockHeader, data: seq<bv8>, pos: nat)
    ensures var s := SkipStep(h, data, pos, false, false);
      (s.error == Some(Eof) <==> Remaining(data, pos) < h.length)
      && (s.error.None? <==> Remaining(data, pos) >= h.length)
  {
  }

  /** On a stream holding the whole body, seeking and discarding leave the cursor at the same offset. */
  lemma SeekAndDiscardAgree(h: BlockHeader, data: seq<bv8>, pos: nat)
    requires pos + h.length <= |data|
    ensures SkipStep(h, data, pos, true, false) == SkipStep(h, data, pos, false, false) == SkipResult(None, pos + h.length)
  {
  }

  /** A byte stream with a cursor; `seekable` says whether it offers relative seeks. */
  class Stream {
    const data: seq<bv8>
    var pos: nat
    const seekable: bool
    /** Whether the underlying seeker reports a fault (an abstract device error). */
    const seekFault: bool

    constructor (data: seq<bv8>, seekable: bool, seekFault: bool)
      ensures this.data == data && pos == 0
      ensures this.seekable == seekable && this.seekFault == seekFault
    {
      this.data := data;
      pos := 0;
      this.seekable := seekable;
      this.seekFault := seekFault;
    }

    /** Reads byte by byte until `n` bytes are read or the stream ends. */
    method Read(n: nat) returns (bytes: seq<bv8>)
      modifies this`pos
      ensures bytes == Window(data, old(pos), n)
      ensures pos == old(pos) + |bytes|
    {
      bytes := [];
      while |bytes| < n && pos < |data|
        invariant pos == old(pos) + |bytes| && |bytes| <= n
        invariant bytes != [] ==> pos <= |data| && bytes == data[old(pos)..pos]
        decreases n - |bytes|
      {
        bytes := bytes + [data[pos]];
        pos := pos + 1;
      }
    }

    /** Reads and drops `n` bytes; fails with Eof when the stream ends first. */
    method Discard(n: nat) returns (err: Option<Error>)
      modifies this`pos
      ensures pos == old(pos) + Min(n, Remaining(data, old(pos)))
      ensures err.Some? <==> Remaining(data, old(pos)) < n
      ensures err.Some? ==> err == Some(Eof)
    {
      var copied := Read(n);
      err := if |copied| < n then Some(Eof) else None;
    }

    /** Moves the cursor forward by `offset`; a seek past the end succeeds. */
    method Seek(offset: nat) returns (err: Option<Error>)
      requires seekable
      modifies this`pos
      ensures err == (if seekFault then Some(SeekFault) else None)
      ensures pos == if seekFault then old(pos) else old(pos) + offset
    {
      if seekFault {
        err := Some(SeekFault);
      } else {
        pos := pos + offset;
        err := None;
      }
    }
  }

  /** A metadata block: its header, its body, and the stream its body comes from. */
  class Block {
    const r: Stream
    var header: BlockHeader
    var body: Body

    constructor (r: Stream, header: BlockHeader)
      ensures this.r == r && this.header == header && body == NoBody
    {
      this.r := r;
      this.header := header;
      body := NoBody;
    }

    /** Parses the body through a reader bounded to the header's length. */
    method Parse(decode: BodyDecoder) returns (err: Option<Error>)
      modifies this`body, r`pos
      ensures var s := ParseStep(header, old(body), r.data, old(r.pos), decode);
        err == s.error && body == s.body && r.pos == s.pos
    {
      var view := Window(r.data, r.pos, header.length);
      match RouteOf(header.blockType)
      case Delegate(t) =>
        var run := decode(t, view);
        var consumed := r.Read(Min(run.consumed, |view|));
        body := if run.error.None? then Opaque(t) else NoBody;
        err := run.error;
      case VerifyPadding =>
        var run := decode(TypePadding, view);
        var consumed := r.Read(Min(run.consumed, |view|));
        err := run.error;
      case ReadAll =>
        var bytes := r.Read(header.length);
        body := Raw(bytes);
        err := None;
      case NoHandler =>
        err := Some(Unsupported(header.blockType));
    }

    /** Skips the body: a relative seek when the stream allows it, otherwise a discard. */
    method Skip() returns (err: Option<Error>)
      modifies r`pos
      ensures var s := SkipStep(header, r.data, old(r.pos), r.seekable, r.seekFault);
        err == s.error && r.pos == s.pos
    {
      if r.seekable {
        err := r.Seek(header.length);
      } else {
        err := r.Discard(header.length);
      }
    }
  }

  /** Decodes a header from the stream and opens its block; the reader takes up to four bytes. */
  method NewBlock(r: Stream) returns (res: Result<Block>, diagnostic: Option<Diagnostic>)
    modifies r`pos
    ensures var bytes := Window(r.data, old(r.pos), HeaderSize);
      r.pos == old(r.pos) + |bytes|
      && match ParseBlockHeader(bytes)
         case Ok(d) =>
           res.Ok? && fresh(res.value) && res.value.r == r
           && res.value.header == d.header && res.value.body == NoBody
           && diagnostic == d.diagnostic
         case Err(e) => res == Err(e) && diagnostic == None
  {
    var bytes := r.Read(HeaderSize);
    match ParseBlockHeader(bytes)
    case Ok(d) =>
      var block := new Block(r, d.header);
      res := Ok(block);
      diagnostic := d.diagnostic;
    case Err(e) =>
      res := Err(e);
      diagnostic := None;
  }

  /** Opens a block and parses its body; no block is returned if either step fails. */
  method ParseBlock(r: Stream, decode: BodyDecoder) returns (res: Result<Block>, diagnostic: Option<Diagnostic>)
    modifies r`pos
    ensures var bytes := Window(r.data, old(r.pos), HeaderSize);
      match ParseBlockHeader(bytes)
      case Ok(d) =>
        var s := ParseStep(d.header, NoBody, r.data, old(r.pos) + HeaderSize, decode);
        && r.pos == s.pos
        && diagnostic == d.diagnostic
        && (if s.error.Some? then res == Err(s.error.value)
            else res.Ok? && fresh(res.value) && res.value.r == r
                 && res.value.header == d.header && res.value.body == s.body)
      case Err(e) => res == Err(e) && diagnostic == None && r.pos == old(r.pos) + |bytes|
  {
    var header;
    header, diagnostic := NewBlock(r);
    match header
    case Err(e) =>
      res := Err(e);
    case Ok(block) =>
      var err := block.Parse(decode);
      if err.Some? {
        res := Err(err.value);
      } else {
        res := Ok(block);
      }
  }

  /** The bytes a reader yields from the middle of a concatenation. */
  lemma WindowInside(a: seq<bv8>, m: seq<bv8>, z: seq<bv8>)
    ensures Window(a + m + z, |a|, |m|) == m
  {
    assert (a + m + z)[|a|..|a| + |m|] == m;
  }

  /** A header encoded in the middle of a stream is read back by the reader at its offset. */
  lemma HeaderAt(a: seq<bv8>, z: seq<bv8>, isLast: bool, code: nat, length: nat)
    requires code < 7 && length <= MaxLength
    ensures ParseBlockHeader(Window(a + Encode(isLast, code, length) + z, |a|, HeaderSize))
         == Ok(Decoded(BlockHeader(isLast, Types[code], length), None))
  {
    WindowInside(a, Encode(isLast, code, length), z);
    HeaderRoundTrip(isLast, code, length);
  }

  /** The ways the walk below splits a stream around each of its headers and after its last body. */
  lemma Layout<T>(h1: seq<T>, b1: seq<T>, h2: seq<T>, b2: seq<T>, h3: seq<T>, b3: seq<T>, audio: seq<T>)
    ensures var data := h1 + b1 + h2 + b2 + h3 + b3 + audio;
      && data == [] + h1 + (b1 + (h2 + b2 + h3 + b3 + audio))
      && data == (h1 + b1) + h2 + (b2 + (h3 + b3 + audio))
      && data == (h1 + b1 + h2 + b2) + h3 + (b3 + audio)
  {
  }

  /** The header the reader finds at the cursor of `r`. */
  function HeaderAtCursor(r: Stream): Result<Decoded>
    reads r
  {
    ParseBlockHeader(Window(r.data, r.pos, HeaderSize))
  }

  /** Opens the block whose header is at the cursor and skips its body. */
  method OpenAndSkip(r: Stream) returns (header: BlockHeader)
    requires HeaderAtCursor(r).Ok? && !r.seekFault
    requires r.pos + HeaderSize + HeaderAtCursor(r).value.header.length <= |r.data|
    modifies r`pos
    ensures header == old(HeaderAtCursor(r)).value.header
    ensures r.pos == old(r.pos) + HeaderSize + header.length
  {
    var res, diagnostic := NewBlock(r);
    header := res.value.header;
    var err := res.value.Skip();
  }

  /** A decoder that reads its whole view and succeeds. */
  function ReadWholeView(t: BlockType, view: seq<bv8>): DecoderRun {
    DecoderRun(|view|, None)
  }

  /** Opens the block whose header is at the cursor and parses its body with a decoder that reads all of it. */
  method OpenAndParse(r: Stream) returns (header: BlockHeader, body: Body)
    requires HeaderAtCursor(r).Ok? && RouteOf(HeaderAtCursor(r).value.header.blockType).Delegate?
    requires r.pos + HeaderSize + HeaderAtCursor(r).value.header.length <= |r.data|
    modifies r`pos
    ensures header == old(HeaderAtCursor(r)).value.header
    ensures body == Opaque(header.blockType)
    ensures r.pos == old(r.pos) + HeaderSize + header.length
  {
    header := HeaderAtCursor(r).value.header;
    RoutesAreDistinct(header.blockType, header.blockType);
    var res, diagnostic := ParseBlock(r, ReadWholeView);
    body := res.value.body;
  }

  /**
   * A walk over three blocks (stream info, padding, and a last vorbis comment,
   * with bodies of any size a header can declare): the headers come out in
   * order, the last one says so, and after skipping the first two bodies and
   * parsing the third with a decoder that reads its whole view, the cursor is at
   * the first byte after the metadata, on a seekable stream and on a sequential
   * one alike.
   */
  method WalkThreeBlocks(b1: seq<bv8>, b2: seq<bv8>, b3: seq<bv8>, audio: seq<bv8>, seekable: bool)
    returns (headers: seq<BlockHeader>, lastBody: Body, rest: seq<bv8>)
    requires |b1| <= MaxLength && |b2| <= MaxLength && |b3| <= MaxLength
    ensures headers == [BlockHeader(false, TypeStreamInfo, |b1|), BlockHeader(false, TypePadding, |b2|),
                        BlockHeader(true, TypeVorbisComment, |b3|)]
    ensures lastBody == Opaque(TypeVorbisComment)
    ensures rest == audio
  {
    var h1, h2, h3 := Encode(false, 0, |b1|), Encode(false, 1, |b2|), Encode(true, 4, |b3|);
    var data := h1 + b1 + h2 + b2 + h3 + b3 + audio;
    Layout(h1, b1, h2, b2, h3, b3, audio);
    var r := new Stream(data, seekable, false);
    var first := SkipAt(r, [], false, 0, b1, h2 + b2 + h3 + b3 + audio);
    assert first == BlockHeader(false, TypeStreamInfo, |b1|);
    var second := SkipAt(r, h1 + b1, false, 1, b2, h3 + b3 + audio);
    assert second == BlockHeader(false, TypePadding, |b2|);
    var third;
    third, lastBody := ParseLast(r, h1 + b1 + h2 + b2, b3, audio);
    headers := [first, second, third];
    rest := r.data[r.pos..];
  }

  /** One step of the walk: a block with a known type whose header is at the cursor is opened and skipped. */
  method SkipAt(r: Stream, p: seq<bv8>, isLast: bool, code: nat, b: seq<bv8>, rest: seq<bv8>) returns (header: BlockHeader)
    requires code < 7 && |b| <= MaxLength && !r.seekFault
    requires r.data == p + Encode(isLast, code, |b|) + (b + rest) && r.pos == |p|
    modifies r`pos
    ensures header == BlockHeader(isLast, Types[code], |b|)
    ensures r.pos == |p| + HeaderSize + |b|
  {
    assert HeaderAtCursor(r) == Ok(Decoded(BlockHeader(isLast, Types[code], |b|), None)) by {
      HeaderAt(p, b + rest, isLast, code, |b|);
    }
    header := OpenAndSkip(r);
  }

  /**
   * The last step of the walk: a last vorbis comment block, parsed with a decoder
   * that reads its whole view, so the cursor ends after its body.
   */
  method ParseLast(r: Stream, p: seq<bv8>, b: seq<bv8>, audio: seq<bv8>) returns (header: BlockHeader, body: Body)
    requires |b| <= MaxLength
    requires r.data == p + Encode(true, 4, |b|) + (b + audio) && r.pos == |p|
    modifies r`pos
    ensures header == BlockHeader(true, TypeVorbisComment, |b|) && body == Opaque(TypeVorbisComment)
    ensures r.pos <= |r.data| && r.data[r.pos..] == audio
  {
    var last := BlockHeader(true, TypeVorbisComment, |b|);
    assert HeaderAtCursor(r) == Ok(Decoded(last, None)) by {
      HeaderAt(p, b + audio, true, 4, |b|);
    }
    assert RouteOf(last.blockType).Delegate?;
    header, body := OpenAndParse(r);
    assert r.data == (p + Encode(true, 4, |b|) + b) + audio;
  }
}
