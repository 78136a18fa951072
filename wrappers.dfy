/** The optional value that stands in for the NaN sentinel of the `number`
    fields of lib/types.ts: `None` is "no value at this position". */
module Wrappers {

  datatype Option<+T> = None | Some(value: T)
}
