/** Shared wrappers and machine-number types used by every record of the gateway. */
module Base {

  /** Rust's `Option<T>`. */
  datatype Option<+T> = None | Some(value: T) {

    /** `unwrap_or(default)` */
    function GetOr(default: T): T {
      match this
      case Some(v) => v
      case None => default
    }
  }

  /** Rust's `Result<T, E>` as returned by the adapters. */
  datatype Result<+T, +E> = Ok(value: T) | Err(error: E)

  /** What calling into code that may panic produces: a value, an error value,
      or a panic (an out-of-bounds index, say) that never returns. */
  datatype Outcome<+T> = Done(value: T) | Failed(message: string) | Panic

  const U32_LIMIT: int := 0x1_0000_0000

  /** Rust `u32`. */
  type U32 = x: int | 0 <= x < U32_LIMIT

  /** Rust `i64`. */
  type I64 = x: int | -0x8000_0000_0000_0000 <= x < 0x8000_0000_0000_0000

  /** Rust `f32`, carried as its IEEE-754 bit pattern: the gateway only
      copies these values (temperature, top_p) and never computes with them. */
  datatype F32 = F32(bits: bv32)
}

/** `serde_json::Value` and the two serde entry points the adapters call. */
module Json {
  import opened Base

  datatype Json =
    | Null
    | Bool(b: bool)
    | Number(literal: string)
    | String(s: string)
    | Array(items: seq<Json>)
    | Object(members: seq<(string, Json)>)

  /** `serde_json::from_str::<Value>` and `Value::to_string`. Neither is
      defined here: every adapter takes them as parameters, so each property
      proved holds for whatever parser and printer are plugged in. */
  datatype Codec = Codec(parse: string -> Option<Json>, render: Json -> string)

  /** The value of the first member named `key` in a member list. */
  function Lookup(members: seq<(string, Json)>, key: string): Option<Json> {
    if |members| == 0 then None
    else if members[0].0 == key then Some(members[0].1)
    else Lookup(members[1..], key)
  }

  /** `value[key]` on an object; nothing on any other value. */
  function Field(j: Json, key: string): Option<Json> {
    if j.Object? then Lookup(j.members, key) else None
  }

  /** `serde_json::from_str(s).unwrap_or(Value::Null)` */
  function ParseOrNull(codec: Codec, s: string): (j: Json)
    ensures codec.parse(s).Some? ==> j == codec.parse(s).value
    ensures codec.parse(s).None? ==> j == Null
  {
    codec.parse(s).GetOr(Null)
  }
}
