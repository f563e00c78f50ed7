/** Types shared by the cache modules. */
module Basics {
  datatype Option<+T> = None | Some(value: T) {
    function GetOr(default: T): T {
      if Some? then value else default
    }
  }

  /** Cache keys are byte strings built by the filter. */
  type Key = string

  /** A response header map: only its number of fields is charged. */
  type Headers = seq<(string, string)>

  /** Response bodies; one `char` stands for one byte. */
  type Bytes = string
}
