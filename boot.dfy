/**
 * The application builder and phase sequencer of bootstrap/boot.go: a
 * Bootstrap value accumulates boot options, start functions, shutdown
 * functions and middleware, and BootUp runs them through the lifecycle in a
 * fixed order.
 */
module Boot {
  import opened Wrappers
  import opened Events
  import opened Decimal
  import opened Gin
  import opened Trace
  import opened EventBus

  /** BootUp gives server.Shutdown this many seconds to drain. */
  const ShutdownTimeoutSeconds: nat := 5

  /** The part of *global.Application BootUp reads: Config.App.Port. */
  datatype Application = Application(port: int)

  /** Every field of a Bootstrap, as one value. Nil lists and nil interfaces are [] and None. */
  datatype State = State(
    engine: Engine,
    bootOpts: seq<Func>,
    startOpts: seq<Func>,
    shutDownOpts: seq<Func>,
    middleWares: seq<Middleware>,
    globalApp: Application,
    serviceInstance: Option<ServiceInstance>,
    registry: Option<ServiceRegistry>)

  /**
   * The listen address `":" + strconv.Itoa(port)`: a colon, then text that
   * reads back as exactly the configured port.
   */
  function Address(port: int): (a: string)
    ensures |a| >= 2 && a[0] == ':'
    ensures ParseDecimal(a[1..]) == Some(port)
  {
    ParseItoa(port);
    var addr := ":" + Itoa(port);
    assert addr[1..] == Itoa(port);
    addr
  }

  /** The bus after BootUp has registered the three lists under their event types. */
  function Registered(s: State, blocks: map<EventType, seq<Event>>): map<EventType, seq<Event>>
  {
    var afterBoot := Append(blocks, BootupEvent, Wrap(s.bootOpts, BootupEvent));
    var afterStart := Append(afterBoot, StartupEvent, Wrap(s.startOpts, StartupEvent));
    Append(afterStart, ShutdownEvent, Wrap(s.shutDownOpts, ShutdownEvent))
  }

  /** BootUp's steps at stage `k` for a Bootstrap in state `s` and a bus holding `blocks`. */
  function Segment(s: State, blocks: map<EventType, seq<Event>>, k: nat): seq<Action>
    requires k < StageCount
  {
    match k
    case 0 => [TrapSignals]
    case 1 => Fires(BootupEvent, Lookup(blocks, BootupEvent) + Wrap(s.bootOpts, BootupEvent))
    case 2 => Attachments(s.middleWares)
    case 3 => [SetupRoutes]
    case 4 => Fires(StartupEvent, Lookup(blocks, StartupEvent) + Wrap(s.startOpts, StartupEvent))
    case 5 => [StartServer(Address(s.globalApp.port))]
    case 6 => [AwaitSignal]
    case 7 => Fires(ShutdownEvent, Lookup(blocks, ShutdownEvent) + Wrap(s.shutDownOpts, ShutdownEvent))
    case 8 => [ReleaseSignals]
    case _ => [Drain(ShutdownTimeoutSeconds)]
  }

  function Segments(s: State, blocks: map<EventType, seq<Event>>): seq<seq<Action>>
  {
    seq(StageCount, k requires 0 <= k < StageCount => Segment(s, blocks, k))
  }

  lemma SegmentsAt(s: State, blocks: map<EventType, seq<Event>>, k: nat)
    requires k < StageCount
    ensures |Segments(s, blocks)| == StageCount
    ensures Segments(s, blocks)[k] == Segment(s, blocks, k)
  {
  }

  /** Everything BootUp does, in order. */
  function BootUpTrace(s: State, blocks: map<EventType, seq<Event>>): seq<Action>
  {
    Joined(Segments(s, blocks), StageCount)
  }

  lemma SegmentStaged(s: State, blocks: map<EventType, seq<Event>>, k: nat)
    requires k < StageCount
    ensures AllAt(Segment(s, blocks, k), k)
  {
    match k
    case 1 => FiresAllAt(BootupEvent, Lookup(blocks, BootupEvent) + Wrap(s.bootOpts, BootupEvent));
    case 2 => AttachmentsAllAt(s.middleWares);
    case 4 => FiresAllAt(StartupEvent, Lookup(blocks, StartupEvent) + Wrap(s.startOpts, StartupEvent));
    case 7 => FiresAllAt(ShutdownEvent, Lookup(blocks, ShutdownEvent) + Wrap(s.shutDownOpts, ShutdownEvent));
    case _ =>
  }

  /** Every segment of BootUp's trace lies wholly at its own stage. */
  lemma BootUpStaged(s: State, blocks: map<EventType, seq<Event>>)
    ensures Staged(Segments(s, blocks), 0)
  {
    var g := Segments(s, blocks);
    forall k | 0 <= k < |g| ensures AllAt(g[k], k) {
      SegmentStaged(s, blocks, k);
    }
  }

  /**
   * BootUp's order: a step of an earlier stage never comes after one of a
   * later stage. So boot handlers run before middleware is attached,
   * middleware before routes, routes before startup handlers, startup
   * handlers before the server starts, and shutdown handlers only after the
   * signal wait has returned, followed by the signal release and the drain.
   */
  lemma BootUpPhaseOrder(s: State, blocks: map<EventType, seq<Event>>)
    ensures var t := BootUpTrace(s, blocks);
      forall i, j :: 0 <= i < |t| && 0 <= j < |t| && Stage(t[i]) < Stage(t[j]) ==> i < j
  {
    BootUpStaged(s, blocks);
    JoinedSorted(Segments(s, blocks), 0, StageCount);
  }

  /**
   * What BootUp does at each stage is exactly that stage's segment: the
   * handlers already on the bus and then its own list, each in list order,
   * for the boot, startup and shutdown stages; exactly its middleware, in
   * order; one route setup, one server start on Address(port), one signal
   * wait, one release and one 5-second drain. Nothing happens outside the
   * ten stages.
   */
  lemma BootUpStageContents(s: State, blocks: map<EventType, seq<Event>>, k: nat)
    ensures Select(BootUpTrace(s, blocks), k) == if k < StageCount then Segment(s, blocks, k) else []
  {
    BootUpStaged(s, blocks);
    JoinedSelect(Segments(s, blocks), 0, StageCount, k);
  }

  /** With nothing registered for `t` beforehand, publishing after registration fires just the new wrappers. */
  lemma FreshPhase(fs: seq<Func>, t: EventType)
    requires IsLifecycleEvent(t)
    ensures Fires(t, Lookup(map[], t) + Wrap(fs, t)) == Fires(t, Wrap(fs, t))
  {
    assert Lookup(map[], t) + Wrap(fs, t) == Wrap(fs, t);
  }

  /**
   * On a bus with nothing registered, the i-th boot, startup and shutdown
   * firing calls the i-th function of the corresponding list, and there are
   * no others.
   */
  lemma FreshBusBootUp(s: State)
    ensures var t := BootUpTrace(s, map[]);
      && |Select(t, 1)| == |s.bootOpts|
      && (forall i :: 0 <= i < |s.bootOpts| ==> Select(t, 1)[i] == Fire(BootupEvent, BootEventHandler(s.bootOpts[i])))
      && |Select(t, 4)| == |s.startOpts|
      && (forall i :: 0 <= i < |s.startOpts| ==> Select(t, 4)[i] == Fire(StartupEvent, StartEventHandler(s.startOpts[i])))
      && |Select(t, 7)| == |s.shutDownOpts|
      && (forall i :: 0 <= i < |s.shutDownOpts| ==> Select(t, 7)[i] == Fire(ShutdownEvent, ShutDownEventHandler(s.shutDownOpts[i])))
  {
    var t := BootUpTrace(s, map[]);
    assert |Select(t, 1)| == |s.bootOpts|
      && forall i :: 0 <= i < |s.bootOpts| ==> Select(t, 1)[i] == Fire(BootupEvent, BootEventHandler(s.bootOpts[i]))
    by {
      BootUpStageContents(s, map[], 1);
      FreshPhase(s.bootOpts, BootupEvent);
    }
    assert |Select(t, 4)| == |s.startOpts|
      && forall i :: 0 <= i < |s.startOpts| ==> Select(t, 4)[i] == Fire(StartupEvent, StartEventHandler(s.startOpts[i]))
    by {
      BootUpStageContents(s, map[], 4);
      FreshPhase(s.startOpts, StartupEvent);
    }
    assert |Select(t, 7)| == |s.shutDownOpts|
      && forall i :: 0 <= i < |s.shutDownOpts| ==> Select(t, 7)[i] == Fire(ShutdownEvent, ShutDownEventHandler(s.shutDownOpts[i]))
    by {
      BootUpStageContents(s, map[], 7);
      FreshPhase(s.shutDownOpts, ShutdownEvent);
    }
  }

  /** BootUp begins by trapping the signals and ends by releasing them and draining. */
  lemma BootUpBoundaries(s: State, blocks: map<EventType, seq<Event>>)
    ensures var t := BootUpTrace(s, blocks);
      |t| >= 3 && t[0] == TrapSignals && t[|t| - 2] == ReleaseSignals && t[|t| - 1] == Drain(ShutdownTimeoutSeconds)
  {
    var g := Segments(s, blocks);
    SegmentsAt(s, blocks, 0);
    SegmentsAt(s, blocks, 8);
    SegmentsAt(s, blocks, 9);
    JoinedHead(g, 10);
    JoinedHead(g, 8);
    JoinedStep(g, 8, [ReleaseSignals]);
    JoinedStep(g, 9, [Drain(ShutdownTimeoutSeconds)]);
  }

  /**
   * What each stage depends on: the boot stage on the boot list, the
   * middleware stage on the middleware list, the startup stage on the start
   * list, the server start on the port and the shutdown stage on the
   * shutdown list; the other stages are the same for every Bootstrap.
   */
  lemma SameStage(s: State, s': State, blocks: map<EventType, seq<Event>>, k: nat)
    requires k == 1 ==> s.bootOpts == s'.bootOpts
    requires k == 2 ==> s.middleWares == s'.middleWares
    requires k == 4 ==> s.startOpts == s'.startOpts
    requires k == 5 ==> s.globalApp.port == s'.globalApp.port
    requires k == 7 ==> s.shutDownOpts == s'.shutDownOpts
    ensures Select(BootUpTrace(s, blocks), k) == Select(BootUpTrace(s', blocks), k)
  {
    BootUpStageContents(s, blocks, k);
    BootUpStageContents(s', blocks, k);
    if k < StageCount {
      match k
      case 0 =>
      case 1 =>
      case 2 =>
      case 3 =>
      case 4 =>
      case 5 =>
      case 6 =>
      case 7 =>
      case 8 =>
      case _ =>
    }
  }

  /** Registering more functions for `t` adds their firings at the end of its publish. */
  lemma PhaseGrows(blocks: map<EventType, seq<Event>>, fs: seq<Func>, gs: seq<Func>, t: EventType)
    requires IsLifecycleEvent(t)
    ensures Fires(t, Lookup(blocks, t) + Wrap(fs + gs, t)) == Fires(t, Lookup(blocks, t) + Wrap(fs, t)) + Fires(t, Wrap(gs, t))
  {
    var held, wfs, wgs := Lookup(blocks, t), Wrap(fs, t), Wrap(gs, t);
    WrapConcat(fs, gs, t);
    ConcatAssoc(held, wfs, wgs);
    FiresConcat(t, held + wfs, wgs);
  }

  /** Registering one more function for `t` adds its one firing at the end of its publish. */
  lemma PhaseSnoc(blocks: map<EventType, seq<Event>>, fs: seq<Func>, f: Func, t: EventType)
    requires IsLifecycleEvent(t)
    ensures Fires(t, Lookup(blocks, t) + Wrap(fs + [f], t)) == Fires(t, Lookup(blocks, t) + Wrap(fs, t)) + [Fire(t, ParseEvent(f, t).value)]
  {
    var held, wfs, e := Lookup(blocks, t), Wrap(fs, t), ParseEvent(f, t).value;
    WrapSnoc(fs, f, t);
    ConcatAssoc(held, wfs, [e]);
    FiresSnoc(t, held + wfs, e);
  }

  /**
   * A BootOpt call before BootUp adds exactly its options' boot handlers at
   * the end of the boot stage, and changes no other stage.
   */
  lemma BootOptFiresLast(s: State, blocks: map<EventType, seq<Event>>, opts: seq<Func>)
    ensures var before, after := BootUpTrace(s, blocks), BootUpTrace(s.(bootOpts := s.bootOpts + opts), blocks);
      && Select(after, 1) == Select(before, 1) + Fires(BootupEvent, Wrap(opts, BootupEvent))
      && forall k :: k != 1 ==> Select(after, k) == Select(before, k)
  {
    var s' := s.(bootOpts := s.bootOpts + opts);
    assert Select(BootUpTrace(s', blocks), 1) == Select(BootUpTrace(s, blocks), 1) + Fires(BootupEvent, Wrap(opts, BootupEvent)) by {
      BootUpStageContents(s, blocks, 1);
      BootUpStageContents(s', blocks, 1);
      PhaseGrows(blocks, s.bootOpts, opts, BootupEvent);
    }
    forall k | k != 1
      ensures Select(BootUpTrace(s', blocks), k) == Select(BootUpTrace(s, blocks), k)
    {
      SameStage(s', s, blocks, k);
    }
  }

  /**
   * A Discovery call before BootUp adds one handler that registers the
   * instance at the end of the startup stage and one that deregisters it at
   * the end of the shutdown stage, and changes no other stage.
   */
  lemma DiscoveryHooksFireLast(s: State, blocks: map<EventType, seq<Event>>, instance: ServiceInstance, reg: ServiceRegistry)
    ensures var before := BootUpTrace(s, blocks);
      var after := BootUpTrace(s.(serviceInstance := Some(instance), registry := Some(reg),
                                  startOpts := s.startOpts + [RegisterInstance(reg, instance)],
                                  shutDownOpts := s.shutDownOpts + [DeregisterInstance(reg)]), blocks);
      && Select(after, 4) == Select(before, 4) + [Fire(StartupEvent, StartEventHandler(RegisterInstance(reg, instance)))]
      && Select(after, 7) == Select(before, 7) + [Fire(ShutdownEvent, ShutDownEventHandler(DeregisterInstance(reg)))]
      && forall k :: k != 4 && k != 7 ==> Select(after, k) == Select(before, k)
  {
    var s' := s.(serviceInstance := Some(instance), registry := Some(reg),
                 startOpts := s.startOpts + [RegisterInstance(reg, instance)],
                 shutDownOpts := s.shutDownOpts + [DeregisterInstance(reg)]);
    var start := StartEventHandler(RegisterInstance(reg, instance));
    var stop := ShutDownEventHandler(DeregisterInstance(reg));
    assert Select(BootUpTrace(s', blocks), 4) == Select(BootUpTrace(s, blocks), 4) + [Fire(StartupEvent, start)] by {
      BootUpStageContents(s, blocks, 4);
      BootUpStageContents(s', blocks, 4);
      PhaseSnoc(blocks, s.startOpts, RegisterInstance(reg, instance), StartupEvent);
    }
    assert Select(BootUpTrace(s', blocks), 7) == Select(BootUpTrace(s, blocks), 7) + [Fire(ShutdownEvent, stop)] by {
      BootUpStageContents(s, blocks, 7);
      BootUpStageContents(s', blocks, 7);
      PhaseSnoc(blocks, s.shutDownOpts, DeregisterInstance(reg), ShutdownEvent);
    }
    forall k | k != 4 && k != 7
      ensures Select(BootUpTrace(s', blocks), k) == Select(BootUpTrace(s, blocks), k)
    {
      SameStage(s', s, blocks, k);
    }
  }

  /**
   * The registration loops of BootUp: wraps each function of `fs` for tag
   * `t` and adds it to the bus, in list order.
   */
  lemma RegisterStep(blocks: map<EventType, seq<Event>>, fs: seq<Func>, i: nat, t: EventType)
    requires i < |fs| && IsLifecycleEvent(t)
    ensures var before := Append(blocks, t, Wrap(fs[..i], t));
      Append(blocks, t, Wrap(fs[..i + 1], t)) == before[t := Lookup(before, t) + [ParseEvent(fs[i], t).value]]
  {
    AppendSnoc(blocks, t, Wrap(fs[..i], t), ParseEvent(fs[i], t).value);
    WrapSnoc(fs[..i], fs[i], t);
    assert fs[..i + 1] == fs[..i] + [fs[i]];
  }

  method RegisterAll(bus: Bus, fs: seq<Func>, t: EventType)
    requires IsLifecycleEvent(t)
    modifies bus
    ensures bus.blocks == Append(old(bus.blocks), t, Wrap(fs, t))
  {
    ghost var blocks0 := bus.blocks;
    var i := 0;
    while i < |fs|
      invariant 0 <= i <= |fs|
      invariant bus.blocks == Append(blocks0, t, Wrap(fs[..i], t))
    {
      var event := ParseEvent(fs[i], t);
      RegisterStep(blocks0, fs, i, t);
      bus.AddBlock(t, event.value);
      i := i + 1;
    }
    assert fs[..i] == fs;
  }

  /**
   * One phase of BootUp: registers the wrappers of `fs` for `t` on the bus,
   * in list order, then publishes `t`, firing whatever the bus already held
   * for `t` followed by the new wrappers.
   */
  method RegisterAndPublish(bus: Bus, fs: seq<Func>, t: EventType) returns (fired: seq<Action>)
    requires IsLifecycleEvent(t)
    modifies bus
    ensures bus.blocks == Append(old(bus.blocks), t, Wrap(fs, t))
    ensures fired == Fires(t, Lookup(old(bus.blocks), t) + Wrap(fs, t))
  {
    RegisterAll(bus, fs, t);
    LookupAppend(old(bus.blocks), t, Wrap(fs, t), t);
    fired := bus.Publish(t);
  }

  class Bootstrap {
    var engine: Engine
    var bootOpts: seq<Func>
    var startOpts: seq<Func>
    var shutDownOpts: seq<Func>
    var middleWares: seq<Middleware>
    var globalApp: Application
    var serviceInstance: Option<ServiceInstance>
    var registry: Option<ServiceRegistry>

    ghost function Snapshot(): State
      reads this
    {
      State(engine, bootOpts, startOpts, shutDownOpts, middleWares, globalApp, serviceInstance, registry)
    }

    /**
     * NewApplication: keeps the given engine, boot list, start list and
     * application; no shutdown functions, no middleware, no discovery.
     */
    constructor NewApplication(engine: Engine, bootOpts: seq<Func>, startOpts: seq<Func>, globalApp: Application)
      ensures Snapshot() == State(engine, bootOpts, startOpts, [], [], globalApp, None, None)
    {
      this.engine := engine;
      this.bootOpts := bootOpts;
      this.startOpts := startOpts;
      this.shutDownOpts := [];
      this.middleWares := [];
      this.globalApp := globalApp;
      this.serviceInstance := None;
      this.registry := None;
    }

    /** BootOpt: appends the options to the boot list; nothing else changes. */
    method BootOpt(opts: seq<Func>) returns (r: Bootstrap)
      modifies this`bootOpts
      ensures r == this
      ensures Snapshot() == old(Snapshot()).(bootOpts := old(bootOpts) + opts)
    {
      if bootOpts == [] {
        bootOpts := opts;
      } else {
        bootOpts := bootOpts + opts;
      }
      r := this;
    }

    /** StartFunc: appends the functions to the start list; nothing else changes. */
    method StartFunc(opts: seq<Func>) returns (r: Bootstrap)
      modifies this`startOpts
      ensures r == this
      ensures Snapshot() == old(Snapshot()).(startOpts := old(startOpts) + opts)
    {
      if startOpts == [] {
        startOpts := opts;
      } else {
        startOpts := startOpts + opts;
      }
      r := this;
    }

    /** ShutDownFunc: appends the functions to the shutdown list; nothing else changes. */
    method ShutDownFunc(opts: seq<Func>) returns (r: Bootstrap)
      modifies this`shutDownOpts
      ensures r == this
      ensures Snapshot() == old(Snapshot()).(shutDownOpts := old(shutDownOpts) + opts)
    {
      if shutDownOpts == [] {
        shutDownOpts := opts;
      } else {
        shutDownOpts := shutDownOpts + opts;
      }
      r := this;
    }

    /** Use: appends the middleware to the middleware list; nothing else changes. */
    method Use(middleware: seq<Middleware>) returns (r: Bootstrap)
      modifies this`middleWares
      ensures r == this
      ensures Snapshot() == old(Snapshot()).(middleWares := old(middleWares) + middleware)
    {
      if middleWares == [] {
        middleWares := middleware;
      } else {
        middleWares := middleWares + middleware;
      }
      r := this;
    }

    /**
     * Discovery: records the instance and the registry, and appends one start
     * function that registers the instance and one shutdown function that
     * deregisters it; the boot list and the middleware stay as they were.
     */
    method Discovery(instance: ServiceInstance, reg: ServiceRegistry) returns (r: Bootstrap)
      modifies this`serviceInstance, this`registry, this`startOpts, this`shutDownOpts
      ensures r == this
      ensures Snapshot() == old(Snapshot()).(
        serviceInstance := Some(instance),
        registry := Some(reg),
        startOpts := old(startOpts) + [RegisterInstance(reg, instance)],
        shutDownOpts := old(shutDownOpts) + [DeregisterInstance(reg)])
    {
      serviceInstance := Some(instance);
      registry := Some(reg);
      var _ := StartFunc([RegisterInstance(reg, instance)]);
      var _ := ShutDownFunc([DeregisterInstance(reg)]);
      r := this;
    }

    /** The middleware loop of BootUp: hands each middleware to the engine, in list order. */
    method UseMiddleWares() returns (attached: seq<Action>)
      modifies engine
      ensures engine.chain == old(engine.chain) + middleWares
      ensures attached == Attachments(middleWares)
    {
      attached := [];
      var i := 0;
      while i < |middleWares|
        invariant 0 <= i <= |middleWares|
        invariant engine.chain == old(engine.chain) + middleWares[..i]
        invariant attached == Attachments(middleWares[..i])
      {
        engine.Use([middleWares[i]]);
        AttachmentsSnoc(middleWares[..i], middleWares[i]);
        assert middleWares[..i + 1] == middleWares[..i] + [middleWares[i]];
        attached := attached + [AttachMiddleware(middleWares[i])];
        i := i + 1;
      }
      assert middleWares[..i] == middleWares;
    }

    /**
     * BootUp: registers the boot options on the bus and publishes them,
     * attaches the middleware and sets up routes, registers and publishes the
     * start functions, starts the server on Address(port), waits for the
     * signal, registers and publishes the shutdown functions, releases the
     * signal and drains with a 5-second timeout. The returned trace is
     * BootUpTrace of the state before the call; the bus keeps the
     * registrations and the engine ends with the middleware appended.
     */
    method BootUp(bus: Bus) returns (trace: seq<Action>)
      modifies bus, engine
      ensures trace == BootUpTrace(old(Snapshot()), old(bus.blocks))
      ensures bus.blocks == Registered(old(Snapshot()), old(bus.blocks))
      ensures engine.chain == old(engine.chain) + middleWares
    {
      ghost var s := Snapshot();
      ghost var blocks0 := bus.blocks;
      ghost var g := Segments(s, blocks0);

      trace := [TrapSignals];
      SegmentsAt(s, blocks0, 0);
      JoinedStep(g, 0, trace);
      assert trace == Joined(g, 1);

      var fired := RegisterAndPublish(bus, bootOpts, BootupEvent);
      ghost var blocks1 := bus.blocks;
      SegmentsAt(s, blocks0, 1);
      JoinedStep(g, 1, fired);
      trace := trace + fired;

      var attached := UseMiddleWares();
      SegmentsAt(s, blocks0, 2);
      JoinedStep(g, 2, attached);
      trace := trace + attached;

      SegmentsAt(s, blocks0, 3);
      JoinedStep(g, 3, [SetupRoutes]);
      trace := trace + [SetupRoutes];

      LookupAppend(blocks0, BootupEvent, Wrap(bootOpts, BootupEvent), StartupEvent);
      fired := RegisterAndPublish(bus, startOpts, StartupEvent);
      ghost var blocks2 := bus.blocks;
      SegmentsAt(s, blocks0, 4);
      JoinedStep(g, 4, fired);
      trace := trace + fired;

      var addr := Address(globalApp.port);
      SegmentsAt(s, blocks0, 5);
      JoinedStep(g, 5, [StartServer(addr)]);
      trace := trace + [StartServer(addr)];

      SegmentsAt(s, blocks0, 6);
      JoinedStep(g, 6, [AwaitSignal]);
      trace := trace + [AwaitSignal];

      LookupAppend(blocks0, BootupEvent, Wrap(bootOpts, BootupEvent), ShutdownEvent);
      LookupAppend(blocks1, StartupEvent, Wrap(startOpts, StartupEvent), ShutdownEvent);
      fired := RegisterAndPublish(bus, shutDownOpts, ShutdownEvent);
      SegmentsAt(s, blocks0, 7);
      JoinedStep(g, 7, fired);
      trace := trace + fired;

      SegmentsAt(s, blocks0, 8);
      JoinedStep(g, 8, [ReleaseSignals]);
      trace := trace + [ReleaseSignals];

      SegmentsAt(s, blocks0, 9);
      JoinedStep(g, 9, [Drain(ShutdownTimeoutSeconds)]);
      trace := trace + [Drain(ShutdownTimeoutSeconds)];
    }
  }

  /** newGin: a fresh engine carrying the logger and the recovery middleware, in that order. */
  method NewGin() returns (engine: Engine)
    ensures fresh(engine)
    ensures engine.chain == [LoggerMiddleWare, GinRecovery]
  {
    engine := new Engine.New();
    engine.Use([LoggerMiddleWare, GinRecovery]);
  }

  /**
   * NewApplicationWithOpts: a new Bootstrap on a fresh newGin engine, with the
   * given boot options and empty start, shutdown and middleware lists.
   */
  method NewApplicationWithOpts(opts: seq<Func>, globalApp: Application) returns (app: Bootstrap)
    ensures fresh(app) && fresh(app.engine)
    ensures app.engine.chain == [LoggerMiddleWare, GinRecovery]
    ensures app.Snapshot() == State(app.engine, opts, [], [], [], globalApp, None, None)
  {
    var engine := NewGin();
    app := new Bootstrap.NewApplication(engine, opts, [], globalApp);
  }

  /** Default: NewApplicationWithOpts with no boot options. */
  method Default(globalApp: Application) returns (app: Bootstrap)
    ensures fresh(app) && fresh(app.engine)
    ensures app.engine.chain == [LoggerMiddleWare, GinRecovery]
    ensures app.Snapshot() == State(app.engine, [], [], [], [], globalApp, None, None)
  {
    app := NewApplicationWithOpts([], globalApp);
  }
}
