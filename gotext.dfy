/** The two pieces of Go text formatting the updater relies on. */
module GoText {

  /** `strings.Join`: the parts in order, with `sep` between neighbours and nowhere else. */
  function Join(parts: seq<string>, sep: string): string
  {
    if |parts| == 0 then ""
    else if |parts| == 1 then parts[0]
    else parts[0] + sep + Join(parts[1..], sep)
  }

  /** What `%v` prints for a `[]string`: the elements separated by single spaces, in brackets. */
  function FormatSlice(parts: seq<string>): string
  {
    "[" + Join(parts, " ") + "]"
  }
}
