/**
 * The part of a gin engine that bootstrap/boot.go touches: its ordered chain
 * of middleware, which Use extends.
 */
module Gin {

  /** A gin.HandlerFunc: the two newGin installs, or one the application supplies. */
  datatype Middleware = LoggerMiddleWare | GinRecovery | HandlerFunc(id: nat)

  class Engine {
    var chain: seq<Middleware>

    /** gin.New(): an engine with no middleware. */
    constructor New()
      ensures chain == []
    {
      chain := [];
    }

    /** engine.Use: appends the middleware to the chain, in argument order. */
    method Use(middleware: seq<Middleware>)
      modifies this
      ensures chain == old(chain) + middleware
    {
      chain := chain + middleware;
    }
  }
}
