/** String helpers mirroring the Python string operations the filter builder uses. */
module Text {

  /** The parts in order with `sep` between neighbours, as Python's string join does. */
  function Join(parts: seq<string>, sep: string): string
    decreases |parts|
  {
    if |parts| == 0 then ""
    else if |parts| == 1 then parts[0]
    else parts[0] + sep + Join(parts[1..], sep)
  }
}
