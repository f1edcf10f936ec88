/** The error taxonomy of the interop layer (`Il2CppError`) and its result type. */
module Errors {

  datatype Il2CppError =
    | MissingClass(name: string)
    | MissingClassForType
    | MissingMethod
    | FailedInstantiation(className: string)
    | FailedArrayInstantiation
    | FailedMethodInvocation
    | FailedReflectionQuerying

  /** `Il2CppResult<T>`. */
  datatype Result<+T> = Ok(value: T) | Err(error: Il2CppError)
}
