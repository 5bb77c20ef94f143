/** Connection limits and the sizes both ends keep (conn_state.go). */
module ControlState {
  import opened Bytes

  const DEFAULT_CHUNK_SIZE: uint32 := 128
  const MAX_INT32: int32 := 0x7fff_ffff

  datatype Config = Config(
    defaultChunkSize: uint32,
    maxChunkSize: uint32,
    maxChunkStreams: int,
    defaultAckWindowSize: int32,
    maxAckWindowSize: int32,
    defaultBandwidthWindowSize: int32,
    defaultBandwidthLimitType: byte,
    maxBandwidthWindowSize: int32,
    maxMessageSize: uint32,
    maxMessageStreams: int)

  const UNSET := Config(0, 0, 0, 0, 0, 0, 0, 0, 0, 0)

  /** Fields left at zero get their defaults. */
  function Normalize(c: Config): Config {
    Config(
      if c.defaultChunkSize == 0 then DEFAULT_CHUNK_SIZE else c.defaultChunkSize,
      if c.maxChunkSize == 0 then MAX_UINT24 else c.maxChunkSize,
      if c.maxChunkStreams == 0 then MAX_UINT32 else c.maxChunkStreams,
      if c.defaultAckWindowSize == 0 then MAX_INT32 else c.defaultAckWindowSize,
      if c.maxAckWindowSize == 0 then MAX_INT32 else c.maxAckWindowSize,
      if c.defaultBandwidthWindowSize == 0 then MAX_INT32 else c.defaultBandwidthWindowSize,
      c.defaultBandwidthLimitType,
      if c.maxBandwidthWindowSize == 0 then MAX_INT32 else c.maxBandwidthWindowSize,
      if c.maxMessageSize == 0 then MAX_UINT24 else c.maxMessageSize,
      if c.maxMessageStreams == 0 then MAX_UINT32 else c.maxMessageStreams)
  }

  /** What the completion means: what was set is kept, and what was not is the default. The
      kind of bandwidth limit has none. */
  lemma NormalizeCompletes(cb: Config)
    ensures var c := Normalize(cb);
            && c.defaultChunkSize == (if cb.defaultChunkSize != 0 then cb.defaultChunkSize else 128)
            && c.maxChunkSize == (if cb.maxChunkSize != 0 then cb.maxChunkSize else 0xff_ffff)
            && c.maxChunkStreams == (if cb.maxChunkStreams != 0 then cb.maxChunkStreams else 0xffff_ffff)
            && c.defaultAckWindowSize == (if cb.defaultAckWindowSize != 0 then cb.defaultAckWindowSize else 0x7fff_ffff)
            && c.maxAckWindowSize == (if cb.maxAckWindowSize != 0 then cb.maxAckWindowSize else 0x7fff_ffff)
            && c.defaultBandwidthWindowSize
               == (if cb.defaultBandwidthWindowSize != 0 then cb.defaultBandwidthWindowSize else 0x7fff_ffff)
            && c.defaultBandwidthLimitType == cb.defaultBandwidthLimitType
            && c.maxBandwidthWindowSize
               == (if cb.maxBandwidthWindowSize != 0 then cb.maxBandwidthWindowSize else 0x7fff_ffff)
            && c.maxMessageSize == (if cb.maxMessageSize != 0 then cb.maxMessageSize else 0xff_ffff)
            && c.maxMessageStreams == (if cb.maxMessageStreams != 0 then cb.maxMessageStreams else 0xffff_ffff)
  {
  }

  /** The configuration is completed field by field in a copy. */
  method NormalizeCopy(cb: Config) returns (c: Config)
    ensures c == Normalize(cb)
  {
    c := cb;
    if c.defaultChunkSize == 0 { c := c.(defaultChunkSize := DEFAULT_CHUNK_SIZE); }
    if c.maxChunkSize == 0 { c := c.(maxChunkSize := MAX_UINT24); }
    if c.maxChunkStreams == 0 { c := c.(maxChunkStreams := MAX_UINT32); }
    if c.defaultAckWindowSize == 0 { c := c.(defaultAckWindowSize := MAX_INT32); }
    if c.maxAckWindowSize == 0 { c := c.(maxAckWindowSize := MAX_INT32); }
    if c.defaultBandwidthWindowSize == 0 { c := c.(defaultBandwidthWindowSize := MAX_INT32); }
    if c.maxBandwidthWindowSize == 0 { c := c.(maxBandwidthWindowSize := MAX_INT32); }
    if c.maxMessageStreams == 0 { c := c.(maxMessageStreams := MAX_UINT32); }
    if c.maxMessageSize == 0 { c := c.(maxMessageSize := MAX_UINT24); }
  }

  datatype Accepted<T> = Accept(value: T) | Refuse

  /** A requested chunk size is cut to 24 bits before it is held against the limit. */
  function AcceptChunkSize(requested: uint32, c: Config): Accepted<uint32> {
    var n := Min(requested, MAX_UINT24);
    if n > c.maxChunkSize then Refuse else Accept(n)
  }

  function AcceptAckWindow(requested: int32, c: Config): Accepted<int32> {
    if requested > c.maxAckWindowSize then Refuse else Accept(requested)
  }

  /** What is accepted: a chunk size that is within the limit once it is cut to 24 bits, as it
      is then; and a window that is within the limit, as it is. */
  lemma AcceptedIff(size: uint32, window: int32, c: Config)
    ensures AcceptChunkSize(size, c).Accept? <==> size <= c.maxChunkSize || 0xff_ffff <= c.maxChunkSize
    ensures AcceptChunkSize(size, c).Accept? ==>
              AcceptChunkSize(size, c).value <= 0xff_ffff
              && (AcceptChunkSize(size, c).value == size || (AcceptChunkSize(size, c).value == 0xff_ffff < size))
    ensures AcceptAckWindow(window, c).Accept? <==> window <= c.maxAckWindowSize
    ensures AcceptAckWindow(window, c).Accept? ==> AcceptAckWindow(window, c).value == window
  {
  }

  /** With the default limits nothing is refused. */
  lemma DefaultsRefuseNothing(size: uint32, window: int32, cb: Config)
    requires cb.maxChunkSize == 0 && cb.maxAckWindowSize == 0
    ensures AcceptChunkSize(size, Normalize(cb)).Accept? && AcceptAckWindow(window, Normalize(cb)).Accept?
  {
    AcceptedIff(size, window, Normalize(cb));
    hide AcceptChunkSize, AcceptAckWindow;
  }

  /** The sizes one end assumes of itself or of its peer. */
  class StreamControlState {
    var chunkSize: uint32
    var ackWindowSize: int32
    var bandwidthWindowSize: int32
    var bandwidthLimitType: byte
    const config: Config

    constructor (config: Config)
      ensures this.config == config
      ensures chunkSize == config.defaultChunkSize && ackWindowSize == config.defaultAckWindowSize
      ensures bandwidthWindowSize == config.defaultBandwidthWindowSize
      ensures bandwidthLimitType == config.defaultBandwidthLimitType
    {
      this.config := config;
      chunkSize := config.defaultChunkSize;
      ackWindowSize := config.defaultAckWindowSize;
      bandwidthWindowSize := config.defaultBandwidthWindowSize;
      bandwidthLimitType := config.defaultBandwidthLimitType;
    }

    method SetChunkSize(requested: uint32) returns (ok: bool)
      modifies this`chunkSize
      ensures ok <==> requested <= config.maxChunkSize || 0xff_ffff <= config.maxChunkSize
      ensures chunkSize == if !ok then old(chunkSize) else if requested <= 0xff_ffff then requested else 0xff_ffff
      ensures AcceptChunkSize(requested, config) == if ok then Accept(chunkSize) else Refuse
    {
      var n := requested;
      if n > MAX_UINT24 {
        n := MAX_UINT24;
      }
      if n > config.maxChunkSize {
        return false;
      }
      chunkSize := n;
      return true;
    }

    method SetAckWindowSize(requested: int32) returns (ok: bool)
      modifies this`ackWindowSize
      ensures ok <==> requested <= config.maxAckWindowSize
      ensures ackWindowSize == if ok then requested else old(ackWindowSize)
      ensures AcceptAckWindow(requested, config) == if ok then Accept(ackWindowSize) else Refuse
    {
      if requested > config.maxAckWindowSize {
        return false;
      }
      ackWindowSize := requested;
      return true;
    }
  }
}
