/**
 * The observable steps of BootUp, in the order they happen, and generic facts
 * about traces built stage by stage.
 */
module Trace {
  import opened Events
  import opened Gin

  datatype Action =
    | TrapSignals                          // signal.NotifyContext on SIGINT and SIGTERM
    | Fire(eventType: EventType, event: Event)  // the bus calls event.OnEvent while publishing eventType
    | AttachMiddleware(middleware: Middleware)  // engine.Use(middleware)
    | SetupRoutes                          // routes.SetupRouter(engine)
    | StartServer(addr: string)            // the ListenAndServe goroutine is started on addr
    | AwaitSignal                          // the wait for the signal has returned
    | ReleaseSignals                       // stop() of the signal context
    | Drain(timeoutSeconds: nat)           // server.Shutdown with a timeout

  /** The number of stages BootUp goes through, numbered from 0. */
  const StageCount: nat := 10

  /** The stage of a firing of an event type BootUp never publishes: past every real stage. */
  const Unstaged: nat := StageCount

  /**
   * The position of each kind of step in BootUp's fixed order:
   * 0 trap signals, 1 boot handlers, 2 middleware, 3 routes, 4 startup
   * handlers, 5 server start, 6 signal received, 7 shutdown handlers,
   * 8 signal release, 9 drain.
   */
  function Stage(a: Action): nat
  {
    match a
    case TrapSignals => 0
    case Fire(t, _) => FireStage(t)
    case AttachMiddleware(_) => 2
    case SetupRoutes => 3
    case StartServer(_) => 5
    case AwaitSignal => 6
    case ReleaseSignals => 8
    case Drain(_) => 9
  }

  /** The stage at which BootUp publishes event type `t`. */
  function FireStage(t: EventType): nat
  {
    if t == BootupEvent then 1
    else if t == StartupEvent then 4
    else if t == ShutdownEvent then 7
    else Unstaged
  }

  /** Publishing `t` over the handlers `es`: each one fires, in order. */
  function Fires(t: EventType, es: seq<Event>): (r: seq<Action>)
    ensures |r| == |es|
    ensures forall i :: 0 <= i < |es| ==> r[i] == Fire(t, es[i])
  {
    if es == [] then [] else [Fire(t, es[0])] + Fires(t, es[1..])
  }

  lemma {:induction false} FiresSnoc(t: EventType, es: seq<Event>, e: Event)
    ensures Fires(t, es + [e]) == Fires(t, es) + [Fire(t, e)]
  {
    if es != [] {
      assert (es + [e])[1..] == es[1..] + [e];
      FiresSnoc(t, es[1..], e);
    }
  }

  /** Concatenation of sequences regroups freely. */
  lemma ConcatAssoc<T>(a: seq<T>, b: seq<T>, c: seq<T>)
    ensures a + (b + c) == (a + b) + c
  {
  }

  lemma {:induction false} FiresConcat(t: EventType, es: seq<Event>, fs: seq<Event>)
    ensures Fires(t, es + fs) == Fires(t, es) + Fires(t, fs)
  {
    if es == [] {
      assert es + fs == fs;
    } else {
      assert (es + fs)[1..] == es[1..] + fs;
      FiresConcat(t, es[1..], fs);
    }
  }

  /** Attaching the middleware `ms`, one at a time, in order. */
  function Attachments(ms: seq<Middleware>): (r: seq<Action>)
    ensures |r| == |ms|
    ensures forall i :: 0 <= i < |ms| ==> r[i] == AttachMiddleware(ms[i])
  {
    if ms == [] then [] else [AttachMiddleware(ms[0])] + Attachments(ms[1..])
  }

  lemma {:induction false} AttachmentsSnoc(ms: seq<Middleware>, m: Middleware)
    ensures Attachments(ms + [m]) == Attachments(ms) + [AttachMiddleware(m)]
  {
    if ms != [] {
      assert (ms + [m])[1..] == ms[1..] + [m];
      AttachmentsSnoc(ms[1..], m);
    }
  }

  /** The steps of `trace` at stage `k`, in trace order. */
  function Select(trace: seq<Action>, k: nat): seq<Action>
  {
    if trace == [] then []
    else (if Stage(trace[0]) == k then [trace[0]] else []) + Select(trace[1..], k)
  }

  lemma {:induction false} SelectConcat(a: seq<Action>, b: seq<Action>, k: nat)
    ensures Select(a + b, k) == Select(a, k) + Select(b, k)
  {
    if a == [] {
      assert a + b == b;
    } else {
      var head := if Stage(a[0]) == k then [a[0]] else [];
      assert (a + b)[0] == a[0];
      assert (a + b)[1..] == a[1..] + b;
      assert Select(a + b, k) == head + Select(a[1..] + b, k);
      SelectConcat(a[1..], b, k);
      ConcatAssoc(head, Select(a[1..], k), Select(b, k));
    }
  }

  ghost predicate AllAt(seg: seq<Action>, k: nat)
  {
    forall i :: 0 <= i < |seg| ==> Stage(seg[i]) == k
  }

  lemma FiresAllAt(t: EventType, es: seq<Event>)
    ensures AllAt(Fires(t, es), FireStage(t))
  {
  }

  lemma AttachmentsAllAt(ms: seq<Middleware>)
    ensures AllAt(Attachments(ms), 2)
  {
  }

  /** A segment wholly at stage `k` is all of stage `k` and none of any other. */
  lemma {:induction false} SelectAllAt(seg: seq<Action>, k: nat, j: nat)
    requires AllAt(seg, k)
    ensures Select(seg, j) == if j == k then seg else []
  {
    if seg != [] {
      SelectAllAt(seg[1..], k, j);
    }
  }

  /** The steps are in stage order. */
  ghost predicate Sorted(trace: seq<Action>)
  {
    forall i, j :: 0 <= i < j < |trace| ==> Stage(trace[i]) <= Stage(trace[j])
  }

  /** The first `k` segments of `segs`, one after the other. */
  function Joined(segs: seq<seq<Action>>, k: nat): seq<Action>
    requires k <= |segs|
  {
    if k == 0 then [] else Joined(segs, k - 1) + segs[k - 1]
  }

  /** Joining one more segment appends it. */
  lemma JoinedStep(segs: seq<seq<Action>>, k: nat, x: seq<Action>)
    requires k < |segs| && segs[k] == x
    ensures Joined(segs, k + 1) == Joined(segs, k) + x
  {
  }

  /** A join starts with the first step of the first segment. */
  lemma {:induction false} JoinedHead(segs: seq<seq<Action>>, k: nat)
    requires 1 <= k <= |segs| && |segs[0]| >= 1
    ensures |Joined(segs, k)| >= 1 && Joined(segs, k)[0] == segs[0][0]
  {
    if k > 1 {
      JoinedHead(segs, k - 1);
    }
  }

  /** Segment k is wholly at stage base + k. */
  ghost predicate Staged(segs: seq<seq<Action>>, base: nat)
  {
    forall k :: 0 <= k < |segs| ==> AllAt(segs[k], base + k)
  }

  /** Joining staged segments keeps every stage's steps together, in segment order. */
  lemma {:induction false} JoinedSelect(segs: seq<seq<Action>>, base: nat, k: nat, j: nat)
    requires k <= |segs| && Staged(segs, base)
    ensures Select(Joined(segs, k), j) == if base <= j < base + k then segs[j - base] else []
  {
    if k > 0 {
      JoinedSelect(segs, base, k - 1, j);
      SelectConcat(Joined(segs, k - 1), segs[k - 1], j);
      SelectAllAt(segs[k - 1], base + k - 1, j);
    }
  }

  /** Joining staged segments gives a trace in stage order, with stages in [base, base + k). */
  lemma {:induction false} JoinedSorted(segs: seq<seq<Action>>, base: nat, k: nat)
    requires k <= |segs| && Staged(segs, base)
    ensures Sorted(Joined(segs, k))
    ensures forall i :: 0 <= i < |Joined(segs, k)| ==> base <= Stage(Joined(segs, k)[i]) < base + k
  {
    if k > 0 {
      JoinedSorted(segs, base, k - 1);
      var prefix, last := Joined(segs, k - 1), segs[k - 1];
      assert AllAt(last, base + k - 1);
      assert Joined(segs, k) == prefix + last;
      forall i | 0 <= i < |prefix + last|
        ensures base <= Stage((prefix + last)[i]) < base + k
      {
        if i >= |prefix| {
          assert (prefix + last)[i] == last[i - |prefix|];
        }
      }
      forall i, j | 0 <= i < j < |prefix + last|
        ensures Stage((prefix + last)[i]) <= Stage((prefix + last)[j])
      {
        if j < |prefix| {
        } else if i < |prefix| {
          assert (prefix + last)[j] == last[j - |prefix|];
        } else {
          assert (prefix + last)[i] == last[i - |prefix|];
          assert (prefix + last)[j] == last[j - |prefix|];
        }
      }
    }
  }
}
