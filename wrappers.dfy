/** Small value wrappers shared by the whole model. */
module Wrappers {

  /** An optional value: a JavaScript `undefined`/`null`, or a present one. */
  datatype Option<+T> = None | Some(value: T)

  /** The outcome of a call into code outside the model (a database query, bcrypt,
      jsonwebtoken): either it returned a value, or it threw / its promise rejected. */
  datatype Fallible<+T> = Returned(value: T) | Threw
}
