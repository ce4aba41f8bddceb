// Option and Result values shared by every module of the model. `Err`
// stands for a thrown VKDL exception (VKDL_ERROR, VKDL_CHECK, VKDL_CHECK_MSG)
// and carries its message.
module Wrappers {
  datatype Option<T> = None | Some(value: T)

  datatype Result<T> = Ok(value: T) | Err(message: string)
  {
    predicate IsFailure() { Err? }
  }
}
