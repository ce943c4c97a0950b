/**
 * Small value types shared by every module of the model: optional values,
 * results that carry an error, raw bytes, and the JSON values that the
 * client's request structures marshal to.
 */
module Base {

  datatype Option<+T> = None | Some(value: T)

  datatype Result<+T, +E> = Success(value: T) | Failure(error: E)

  /** A Go `byte`. */
  newtype byte = x: int | 0 <= x < 256

  /** A Go `[]byte` or `json.RawMessage`. */
  type Bytes = seq<byte>

  /** The newline byte that `json.Encoder` writes after every value. */
  const Newline: byte := 10

  /**
   * A JSON value as `encoding/json` produces it from a Go value. `Raw` is a
   * `json.RawMessage`, which is written out as the bytes it holds.
   */
  datatype Json =
    | Null
    | Bool(b: bool)
    | Number(n: int)
    | Str(s: string)
    | Raw(bytes: Bytes)
    | Array(items: seq<Json>)
    | Object(fields: map<string, Json>)

  /** A Go `[]string` marshalled as a JSON array of strings. */
  function StrArray(xs: seq<string>): (r: seq<Json>)
    ensures |r| == |xs|
    ensures forall i :: 0 <= i < |xs| ==> r[i] == Str(xs[i])
  {
    if xs == [] then [] else [Str(xs[0])] + StrArray(xs[1..])
  }
}
