/** Values shared by every part of the model: bytes, frames, requests and responses. */
module Types {

  type byte = b: int | 0 <= b < 256
  type bytes = seq<byte>
  type uint32 = n: int | 0 <= n < 0x1_0000_0000

  datatype Option<+T> = None | Some(value: T)

  const REQUEST: byte := 1
  const RESPONSE: byte := 2
  const DATA: byte := 3

  const REMOTE_CLOSED: byte := 1
  const REMOTE_OPEN: byte := 2
  const NO_DATA: byte := 4

  /** Bit 0 of the flags byte. */
  predicate HasRemoteClosed(flags: byte) { flags % 2 == 1 }

  /** Bit 2 of the flags byte. */
  predicate HasNoData(flags: byte) { (flags / 4) % 2 == 1 }

  const MAX_LENGTH: nat := 0x40_0000

  /** One protocol message: the header fields and the message data. */
  datatype Frame = Frame(sid: uint32, typ: byte, flags: byte, payload: bytes)

  /** The part of ttrpc.Request that routing and handling depend on. */
  datatype Req = Req(service: string, name: string, payload: bytes)

  /** ttrpc.Response; `code` is 0 exactly when the status is OK or absent. */
  datatype Resp = Resp(code: nat, payload: bytes)

  /** The shape of a method, as both the client's descriptor and the server's registration have it. */
  datatype Kind = Unary | Streaming(client: bool, server: bool)

  /** The wire codec and the service table, both left abstract. */
  datatype Config = Config(
    reqEnc: Req -> bytes,
    reqDec: bytes -> Option<Req>,
    respEnc: Resp -> bytes,
    respDec: bytes -> Option<Resp>,
    objOk: bytes -> bool,               // a message object can be decoded from these bytes
    kindOf: (string, string) -> Option<Kind>)
  {
    /** Decoding undoes encoding. */
    ghost predicate Lawful() {
      && (forall r :: reqDec(reqEnc(r)) == Some(r))
      && (forall r :: respDec(respEnc(r)) == Some(r))
    }
  }
}
