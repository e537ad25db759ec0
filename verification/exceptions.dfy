/** The exceptions the cache paths can raise, shared by the cache client and
    the services that let them propagate. */
module Exceptions {
  import Redis

  datatype Exception =
    | StoreFault(fault: Redis.Fault)  // raised by the store client
    | Undecodable                     // JSONUtil.toBean on a string that is not a V
    | NullExpireTime                  // an envelope read that finds no expireTime
    | LoaderFailure                   // propagated from the loader
}
