/** Inbound frame decoding of the WebSocket client (`_onMessage`): binary
    frames are inspected for the gzip magic number ID1 = 0x1F, ID2 = 0x8B
    (section 2.3.1 of RFC 1952) and inflated, every frame is decoded to text
    and parsed as JSON. Inflating, UTF-8 decoding and JSON parsing are foreign
    code and enter as functions; inflating and parsing may fail. */
module Frames {
  import opened Js

  newtype byte = b: int | 0 <= b < 256

  const GzipId1: byte := 0x1F
  const GzipId2: byte := 0x8B

  /** The data of a frame once it is at hand: text, or the bytes of a binary frame. */
  datatype WsData = Text(text: string) | Binary(bytes: seq<byte>)

  /** What a `MessageEvent` carries. Text and an `ArrayBuffer` are at hand at
      once; a `Blob` (what a binary frame is under the default `binaryType`)
      is read through a `FileReader` first. */
  datatype Arrival = AtHand(data: WsData) | Blob(bytes: seq<byte>)

  /** The foreign decoders: `pako.inflate` (None when it throws),
      `TextDecoder.decode` (never throws) and `JSON.parse` (None when it throws). */
  datatype Codec = Codec(
    inflate: seq<byte> -> Option<seq<byte>>,
    utf8: seq<byte> -> string,
    parse: string -> Option<Json>)

  /** The gzip test of `processBinaryData`: longer than two bytes and starting with the magic number. */
  predicate IsGzip(data: seq<byte>)
  {
    |data| > 2 && data[0] == GzipId1 && data[1] == GzipId2
  }

  /** The text a binary frame decodes to, or None when inflating fails. */
  function BinaryText(data: seq<byte>, codec: Codec): (r: Option<string>)
    ensures !IsGzip(data) ==> r == Some(codec.utf8(data))
    ensures IsGzip(data) ==> (r.None? <==> codec.inflate(data).None?)
    ensures IsGzip(data) && codec.inflate(data).Some? ==> r == Some(codec.utf8(codec.inflate(data).value))
  {
    if IsGzip(data) then
      match codec.inflate(data)
      case None => None
      case Some(plain) => Some(codec.utf8(plain))
    else Some(codec.utf8(data))
  }

  /** The message handed to `recvHandle`, or None when the frame is dropped
      (inflating or parsing threw). */
  function DecodeFrame(data: WsData, codec: Codec): (r: Option<Json>)
    ensures data.Text? ==> r == codec.parse(data.text)
  {
    match data
    case Text(s) => codec.parse(s)
    case Binary(bytes) =>
      match BinaryText(bytes, codec)
      case None => None
      case Some(s) => codec.parse(s)
  }

  /** A frame of exactly the two magic bytes is not taken for gzip: it is decoded as plain text. */
  lemma MagicAloneIsPlainText(codec: Codec)
    ensures DecodeFrame(Binary([GzipId1, GzipId2]), codec) == codec.parse(codec.utf8([GzipId1, GzipId2]))
  {
  }

  /** A gzip frame and a text frame carrying the inflated text yield the same message. */
  lemma GzipAndTextAgree(gz: seq<byte>, plain: seq<byte>, codec: Codec)
    requires IsGzip(gz) && codec.inflate(gz) == Some(plain)
    ensures DecodeFrame(Binary(gz), codec) == DecodeFrame(Text(codec.utf8(plain)), codec)
  {
  }

  /** A binary frame without the magic number and the text frame it decodes to yield the same message. */
  lemma PlainBinaryAndTextAgree(data: seq<byte>, codec: Codec)
    requires !IsGzip(data)
    ensures DecodeFrame(Binary(data), codec) == DecodeFrame(Text(codec.utf8(data)), codec)
  {
  }

  /** A gzip frame that fails to inflate is dropped whatever the parser would say. */
  lemma FailedInflateDrops(gz: seq<byte>, codec: Codec)
    requires IsGzip(gz) && codec.inflate(gz).None?
    ensures DecodeFrame(Binary(gz), codec).None?
  {
  }
}
