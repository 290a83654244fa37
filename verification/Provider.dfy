/**
 * The provider's map of consumers, and the stretches of its handlers that change it or a consumer's handle. Each
 * method is one atomic stretch, and does to the provider what its step of module Handshake does.
 */
module Providers {
  import opened Wrappers
  import opened Handshake

  class ProviderImpl {
    var consumers: map<ConsumerId, nat>
    /** The handles that were created so far, and where the loop of each one is. */
    var handles: seq<Request>
    /** Where the removeConsumer calls are. */
    ghost var removals: seq<Removal>

    ghost function View(): Provider
      reads this
    {
      Provider(consumers, handles, removals)
    }

    constructor ()
      ensures View() == NewProvider()
    {
      consumers, handles, removals := map[], [], [];
    }

    /** requestEvents up to feedConsumer: a handle, and an entry for it unless the id has one. */
    method Register(id: ConsumerId, topic: nat) returns (handle: nat)
      modifies this
      ensures View() == Do(old(View()), RequestEvents(id, topic)) && handle == |old(handles)|
    {
      handle := |handles|;
      handles := handles + [Request(id, topic, Running, false, 0)];
      if id !in consumers {
        consumers := consumers[id := handle];
      }
    }

    /** requestEvents after feedConsumer. */
    method Unregister(handle: nat)
      requires Enabled(View(), Erase(handle))
      modifies this
      ensures View() == Do(old(View()), Erase(handle))
    {
      consumers := consumers - {handles[handle].id};
      handles := handles[handle := handles[handle].(phase := Gone)];
    }

    /** One turn of the search of removeConsumer; without a handle it waits for the next registration. */
    method Find(ghost removal: nat, id: ConsumerId) returns (handle: Option<nat>)
      requires removal < |removals| && removals[removal] == Searching(id)
      modifies this
      ensures handle.Some? <==> old(Enabled(View(), Step.Take(removal)))
      ensures handle.Some? ==> View() == Do(old(View()), Step.Take(removal)) && removals[removal] == Holding(id, handle.value)
      ensures handle.None? ==> View() == old(View())
    {
      handle := None;
      if id in consumers {
        handle := Some(consumers[id]);
        consumers := consumers - {id};
        removals := removals[removal := Holding(id, handle.value)];
      }
    }

    /** ConsumerHandleImpl::stop, first half. */
    method SetShouldStop(ghost removal: nat, handle: nat)
      requires Enabled(View(), SetFlag(removal)) && removals[removal].request == handle
      modifies this
      ensures View() == Do(old(View()), SetFlag(removal))
    {
      handles := handles[handle := handles[handle].(shouldStop := true)];
      removals := removals[removal := Flagged(removals[removal].id, handle)];
    }

    /** ConsumerHandleImpl::stop, second half: every loop of the topic that sleeps runs again. */
    method WakeUp(ghost removal: nat, handle: nat)
      requires Enabled(View(), Notify(removal)) && removals[removal].request == handle
      modifies this
      ensures View() == Do(old(View()), Notify(removal))
    {
      handles := WakeAll(handles, handles[handle].topic);
      removals := removals[removal := Complete(removals[removal].id, handle)];
    }
  }
}
