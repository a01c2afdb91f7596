/**
 * The coded errors this package raises itself. Each carries one of the error codes of the
 * package's error library and a fixed message; errors coming back from an adapter are opaque
 * and are passed through untouched.
 */
module Errors {

  /** The four error codes the facade and its constructors use. */
  datatype Code =
    | InvalidParameter
    | MissingConfiguration
    | InvalidConfiguration
    | NecessaryPackageNotImport

  datatype Error =
    | Coded(code: Code, message: string)
    /** An error produced by adapter code; this package never inspects it. */
    | Foreign(token: nat)

  /** The message of every nil-client error. */
  const ErrorNilRedis: string := "the Redis object is nil"

  /**
   * The message of every missing-adapter error: the multi-line literal of redis.go with its
   * line breaks removed and its ends trimmed.
   */
  const ErrorNilAdapter: string :=
    "redis adapter is not set, missing configuration or adapter register? "
    + "possible reference: https://github.com/gocarp/contrib/tree/master/nosql/redis"

  const ErrorNoConfiguration: string := "no configuration found for creating Redis client"

  const ErrorNilAdapterArgument: string := "adapter cannot be nil"
}
