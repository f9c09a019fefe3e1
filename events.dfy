/**
 * The lifecycle event tags of bootstrap/boot.go, the three handler wrappers
 * (BootEventHandler, StartEventHandler, ShutDownEventHandler) and parseEvent,
 * which picks the wrapper for a tag.
 */
module Events {
  import opened Wrappers

  /** mevent.EventType is a Go string type. */
  type EventType = string

  const BootupEvent: EventType := "bootup"
  const ShutdownEvent: EventType := "shutdown"
  const StartupEvent: EventType := "startup"

  /** The three tags BootUp publishes. */
  predicate IsLifecycleEvent(t: EventType)
  {
    t == BootupEvent || t == ShutdownEvent || t == StartupEvent
  }

  /** The process context (*global.Context) handed to every handler; opaque here. */
  datatype Context = Context(id: nat)

  /** A service instance and a service registry of the cloud package; opaque here. */
  datatype ServiceInstance = ServiceInstance(id: nat)
  datatype ServiceRegistry = ServiceRegistry(id: nat)

  /**
   * A handler function `func(ctx *global.Context)`. Functions the user supplies
   * are opaque ids; the two closures Discovery builds are named by what they do.
   */
  datatype Func =
    | UserFunc(id: nat)
    | RegisterInstance(registry: ServiceRegistry, instance: ServiceInstance)
    | DeregisterInstance(registry: ServiceRegistry)

  /** The mevent.Event values parseEvent produces: one wrapper per lifecycle tag. */
  datatype Event =
    | BootEventHandler(fn: Func)
    | ShutDownEventHandler(fn: Func)
    | StartEventHandler(fn: Func)

  /** One invocation of a handler function with a context. */
  datatype Call = Call(fn: Func, ctx: Context)

  /** The tag a wrapper belongs to. */
  function Tag(e: Event): EventType
  {
    match e
    case BootEventHandler(_) => BootupEvent
    case ShutDownEventHandler(_) => ShutdownEvent
    case StartEventHandler(_) => StartupEvent
  }

  /** Each wrapper's OnEvent forwards the context to the function it wraps. */
  function OnEvent(e: Event, ctx: Context): (c: Call)
    ensures c.fn == e.fn && c.ctx == ctx
  {
    match e
    case BootEventHandler(f) => Call(f, ctx)
    case ShutDownEventHandler(f) => Call(f, ctx)
    case StartEventHandler(f) => Call(f, ctx)
  }

  /**
   * parseEvent: the wrapper for a known tag, wrapping exactly `fc`;
   * nil (None) for any other tag.
   */
  function ParseEvent(fc: Func, eventType: EventType): (r: Option<Event>)
    ensures r.Some? <==> IsLifecycleEvent(eventType)
    ensures r.Some? ==> r.value.fn == fc && Tag(r.value) == eventType
  {
    if eventType == BootupEvent then Some(BootEventHandler(fc))
    else if eventType == ShutdownEvent then Some(ShutDownEventHandler(fc))
    else if eventType == StartupEvent then Some(StartEventHandler(fc))
    else None
  }

  /** Every wrapper is what parseEvent gives for its own tag and function. */
  lemma ParseEventOfTag(e: Event)
    ensures ParseEvent(e.fn, Tag(e)) == Some(e)
  {
  }

  /** Dispatching a parsed wrapper calls exactly the parsed function with the given context. */
  lemma OnEventOfParsed(fc: Func, eventType: EventType, ctx: Context)
    requires IsLifecycleEvent(eventType)
    ensures ParseEvent(fc, eventType).Some?
    ensures OnEvent(ParseEvent(fc, eventType).value, ctx) == Call(fc, ctx)
  {
  }

  /** The wrappers of `fs` for tag `t`, in list order, as BootUp's loops build them. */
  function Wrap(fs: seq<Func>, t: EventType): (es: seq<Event>)
    requires IsLifecycleEvent(t)
    ensures |es| == |fs|
    ensures forall i :: 0 <= i < |fs| ==> ParseEvent(fs[i], t) == Some(es[i])
  {
    if fs == [] then [] else [ParseEvent(fs[0], t).value] + Wrap(fs[1..], t)
  }

  /** Wrapping one more function appends one more wrapper. */
  lemma {:induction false} WrapSnoc(fs: seq<Func>, f: Func, t: EventType)
    requires IsLifecycleEvent(t)
    ensures Wrap(fs + [f], t) == Wrap(fs, t) + [ParseEvent(f, t).value]
  {
    if fs != [] {
      assert (fs + [f])[1..] == fs[1..] + [f];
      WrapSnoc(fs[1..], f, t);
    }
  }

  lemma {:induction false} WrapConcat(fs: seq<Func>, gs: seq<Func>, t: EventType)
    requires IsLifecycleEvent(t)
    ensures Wrap(fs + gs, t) == Wrap(fs, t) + Wrap(gs, t)
  {
    if fs == [] {
      assert fs + gs == gs;
    } else {
      assert (fs + gs)[1..] == fs[1..] + gs;
      WrapConcat(fs[1..], gs, t);
    }
  }
}
