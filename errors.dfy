/** The backend's error type (error.rs), with the variants the modelled code
  * returns.  `RedisError` stands for a failure of the Redis client, whose
  * conversion into `Error` is not part of this model. */
module Errors {
  datatype Error =
    | CriticalError(message: string)
    | IndexError(index: nat, length: nat)
    | RedisError(message: string)
}
