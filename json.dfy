/** Bytes and encoding/json's RawMessage: an undecoded JSON value. */
module Json {

  newtype byte = x: int | 0 <= x < 256

  type RawMessage = seq<byte>
}
