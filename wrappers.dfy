// Option and Result types shared by every module of the model.
module Wrappers {
  datatype Option<T> = None | Some(value: T) {
    function GetOr(default: T): T {
      if Some? then value else default
    }
  }

  // `Err` stands for a raised exception: the message the user would see.
  datatype Result<T> = Ok(value: T) | Err(error: string) {
    predicate IsFailure() { Err? }
  }
}
