/** Small definitions shared by the models. */
module Common {

  datatype Option<+T> = None | Some(value: T)

  /** Bytes are modelled as the numbers they encode. */
  newtype byte = b: int | 0 <= b < 256

  function Concat<T>(parts: seq<seq<T>>): seq<T> {
    if parts == [] then [] else parts[0] + Concat(parts[1..])
  }

  function Last<T>(s: seq<T>): (r: T)
    requires s != []
    ensures r in s
  {
    s[|s| - 1]
  }
}
