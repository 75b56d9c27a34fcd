/** Value types shared by every part of the backend model. */
module Common {

  /** Rust's `Option<T>`. */
  datatype Option<+T> = None | Some(value: T)

  /** Rust's `Result<T, String>`: every command of the backend reports its errors as text. */
  datatype Result<+T> = Ok(value: T) | Err(error: string)

  newtype byte = x: int | 0 <= x < 0x100
  newtype u16 = x: int | 0 <= x < 0x1_0000
  newtype u32 = x: int | 0 <= x < 0x1_0000_0000
  newtype u64 = x: int | 0 <= x < 0x1_0000_0000_0000_0000

  /** `r.map_err(|e| format!("<prefix>{}", e))`: the value passes through, an error gains a prefix. */
  function Context<T>(r: Result<T>, prefix: string): (out: Result<T>)
    ensures out.Ok? <==> r.Ok?
    ensures r.Ok? ==> out.value == r.value
    ensures r.Err? ==> |out.error| == |prefix| + |r.error| && out.error[..|prefix|] == prefix && out.error[|prefix|..] == r.error
  {
    match r
    case Ok(v) => Ok(v)
    case Err(e) => Err(prefix + e)
  }
}
