/** Option, Result and the errors the metadata core raises or passes on. */
module Results {

  datatype Option<+T> = None | Some(value: T)

  /** The kinds of failure of the metadata core. */
  datatype Error =
    /** The stream ended before the requested bytes (io.EOF from the reader). */
    | Eof
    /** Header type code 127, which the format forbids. */
    | InvalidBlockType
    /** The body dispatcher met a block type it has no branch for. */
    | Unsupported(blockType: bv8)
    /** The underlying seeker reported a fault. */
    | SeekFault
    /** An error returned by an external body decoder, passed on unchanged. */
    | BodyError(reason: string)

  datatype Result<+T> = Ok(value: T) | Err(error: Error)
}
