/**
 * The event bus of the mevent package, which bootstrap/boot.go uses through
 * AddBlock and Publish. Its source is not part of this model; the behaviour
 * here is an assumption: one ordered handler list per event type, AddBlock
 * appends to it, Publish fires the whole list in order and keeps it.
 */
module EventBus {
  import opened Events
  import opened Trace

  /** The handlers registered under `t`; none when `t` was never registered. */
  function Lookup(blocks: map<EventType, seq<Event>>, t: EventType): seq<Event>
  {
    if t in blocks then blocks[t] else []
  }

  /**
   * The registry after appending `es`, one AddBlock at a time, to the
   * handlers of `t`; appending nothing leaves it as it was.
   */
  function Append(blocks: map<EventType, seq<Event>>, t: EventType, es: seq<Event>): map<EventType, seq<Event>>
  {
    if es == [] then blocks else blocks[t := Lookup(blocks, t) + es]
  }

  /** Appending to `t` changes what `t` holds and nothing else. */
  lemma LookupAppend(blocks: map<EventType, seq<Event>>, t: EventType, es: seq<Event>, u: EventType)
    ensures Lookup(Append(blocks, t, es), u) == if u == t then Lookup(blocks, t) + es else Lookup(blocks, u)
  {
    if es == [] {
      assert Lookup(blocks, t) + es == Lookup(blocks, t);
    }
  }

  /** One more AddBlock extends the appended list by one handler. */
  lemma AppendSnoc(blocks: map<EventType, seq<Event>>, t: EventType, es: seq<Event>, e: Event)
    ensures Append(blocks, t, es + [e]) == Append(blocks, t, es)[t := Lookup(Append(blocks, t, es), t) + [e]]
  {
    if es == [] {
      assert es + [e] == [e];
    } else {
      assert Lookup(Append(blocks, t, es), t) + [e] == Lookup(blocks, t) + (es + [e]);
    }
  }

  class Bus {
    var blocks: map<EventType, seq<Event>>

    constructor ()
      ensures blocks == map[]
    {
      blocks := map[];
    }

    /** mevent.AddBlock: appends `e` to the handlers of `t`; other event types keep theirs. */
    method AddBlock(t: EventType, e: Event)
      modifies this
      ensures blocks == old(blocks)[t := Lookup(old(blocks), t) + [e]]
    {
      blocks := blocks[t := Lookup(blocks, t) + [e]];
    }

    /**
     * mevent.Publish: fires every handler registered under `t`, each once, in
     * registration order; with none registered it fires nothing.
     */
    method Publish(t: EventType) returns (fired: seq<Action>)
      ensures fired == Fires(t, Lookup(blocks, t))
    {
      var handlers := Lookup(blocks, t);
      fired := [];
      var i := 0;
      while i < |handlers|
        invariant 0 <= i <= |handlers|
        invariant fired == Fires(t, handlers[..i])
      {
        FiresSnoc(t, handlers[..i], handlers[i]);
        assert handlers[..i + 1] == handlers[..i] + [handlers[i]];
        fired := fired + [Fire(t, handlers[i])];
        i := i + 1;
      }
      assert handlers[..i] == handlers;
    }
  }
}
