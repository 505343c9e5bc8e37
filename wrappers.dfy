/** The optional-value wrapper used throughout the model: `None` stands for a
    JavaScript `undefined` (or an absent property), `Some(v)` for a present value. */
module Wrappers {
  datatype Option<+T> = None | Some(value: T)
}
