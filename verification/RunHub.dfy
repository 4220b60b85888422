/**
  The in-memory event bus of pipeline runs: subscribers with a bounded channel, and the table of the
  subscribers of each run.
 */
module RunHub {
  type RunID = string
  type RunEvent = nat

  /** What an offer does to a channel. */
  datatype Channel = Channel(buffer: seq<RunEvent>, capacity: nat, closed: bool) {
    /** A full channel is closed instead of delaying the sender. */
    function Offer(e: RunEvent): Channel {
      if closed then this
      else if |buffer| < capacity then this.(buffer := buffer + [e])
      else this.(closed := true)
    }

    predicate Accepts() {
      !closed && |buffer| < capacity
    }

    function Close(): Channel {
      this.(closed := true)
    }

    function Receive(): Channel
      requires buffer != []
    {
      this.(buffer := buffer[1..])
    }
  }

  class Subscriber {
    var buffer: seq<RunEvent>
    const capacity: nat
    var chanClosed: bool     // the channel itself
    var closed: bool         // the flag that guards it

    constructor (capacity: nat)
      ensures Valid() && View() == Channel([], capacity, false)
    {
      this.capacity := capacity;
      buffer, chanClosed, closed := [], false, false;
    }

    ghost predicate Valid()
      reads this
    {
      closed == chanClosed && |buffer| <= capacity
    }

    function View(): Channel
      reads this
    {
      Channel(buffer, capacity, closed)
    }

    // The two channel operations that panic on a closed channel.

    method ChannelSend(e: RunEvent) returns (sent: bool)
      requires !chanClosed
      modifies `buffer
      ensures sent == (|old(buffer)| < capacity)
      ensures buffer == if sent then old(buffer) + [e] else old(buffer)
    {
      sent := |buffer| < capacity;
      if sent {
        buffer := buffer + [e];
      }
    }

    method ChannelClose()
      requires !chanClosed
      modifies `chanClosed
      ensures chanClosed
    {
      chanClosed := true;
    }

    method Send(e: RunEvent) returns (ok: bool)
      requires Valid()
      modifies this
      ensures Valid() && View() == old(View()).Offer(e) && ok == old(View()).Accepts()
      ensures ok <==> !old(closed) && |old(buffer)| < capacity
      ensures buffer == (if ok then old(buffer) + [e] else old(buffer)) && closed == !ok
    {
      if closed {
        return false;
      }
      ok := ChannelSend(e);
      if !ok {
        ChannelClose();
        closed := true;
      }
    }

    method Close()
      requires Valid()
      modifies this
      ensures Valid() && View() == old(View()).Close() && closed && buffer == old(buffer)
    {
      if closed {
        return;
      }
      ChannelClose();
      closed := true;
    }

    /** A closed channel still hands out what it holds. */
    method Receive() returns (e: RunEvent)
      requires Valid() && buffer != []
      modifies this
      ensures Valid() && View() == old(View()).Receive() && [e] + buffer == old(buffer) && closed == old(closed)
    {
      e, buffer := buffer[0], buffer[1..];
    }
  }

  ghost predicate TableOk(subs: map<RunID, set<Subscriber>>) {
    && (forall r :: r in subs ==> subs[r] != {})
    && (forall r, q, s :: r in subs && q in subs && s in subs[r] && s in subs[q] ==> r == q)
  }

  class Hub {
    const capacity: nat
    var subs: map<RunID, set<Subscriber>>

    constructor (buffer: int)
      ensures Valid() && subs == map[] && capacity == if buffer <= 0 then 1 else buffer
    {
      capacity := if buffer <= 0 then 1 else buffer;
      subs := map[];
    }

    /** Runs without subscribers have no entry; every subscriber is listed under one run. */
    ghost predicate Valid()
      reads this, Everyone()
    {
      TableOk(subs) && forall s :: s in Everyone() ==> s.Valid()
    }

    ghost function Everyone(): set<Subscriber>
      reads this
    {
      set r, s | r in subs && s in subs[r] :: s
    }

    function Of(run: RunID): set<Subscriber>
      reads this
    {
      if run in subs then subs[run] else {}
    }

    method Subscribe(run: RunID) returns (sub: Subscriber)
      requires Valid()
      modifies this
      ensures Valid() && fresh(sub) && sub.View() == Channel([], capacity, false)
      ensures subs == old(subs)[run := old(Of(run)) + {sub}]
    {
      sub := new Subscriber(capacity);
      if run !in subs {
        subs := subs[run := {}];
      }
      subs := subs[run := subs[run] + {sub}];
    }

    method Remove(run: RunID, sub: Subscriber)
      requires Valid()
      modifies this
      ensures Valid() && Of(run) == old(Of(run)) - {sub}
      ensures forall r :: r != run ==> (r in subs <==> r in old(subs)) && Of(r) == old(Of(r))
      ensures Everyone() <= old(Everyone())
    {
      if run !in subs {
        return;
      }
      subs := subs[run := subs[run] - {sub}];
      if subs[run] == {} {
        subs := subs - {run};
      }
    }

    method OfferTo(run: RunID, s: Subscriber, e: RunEvent)
      requires Valid() && s in Of(run)
      modifies this, s
      ensures Valid() && s.View() == old(s.View()).Offer(e)
      ensures Of(run) == if old(s.View()).Accepts() then old(Of(run)) else old(Of(run)) - {s}
      ensures forall r :: r != run ==> Of(r) == old(Of(r))
    {
      var ok := s.Send(e);
      if !ok {
        Remove(run, s);
      }
    }

    /** Every subscriber of the run is offered the event once; those that did not take it are removed. */
    method Broadcast(run: RunID, e: RunEvent)
      requires Valid()
      modifies this, Of(run)
      ensures Valid()
      ensures forall s :: s in old(Of(run)) ==> s.View() == old(s.View()).Offer(e)
      ensures forall s :: s in old(Of(run)) ==>
                s.closed == (old(s.closed) || |old(s.buffer)| >= s.capacity)
                && s.buffer == if s.closed then old(s.buffer) else old(s.buffer) + [e]
      ensures forall s :: s in Of(run) <==> s in old(Of(run)) && old(s.View()).Accepts()
      ensures forall r :: r != run ==> Of(r) == old(Of(r))
    {
      var all := Of(run);
      var todo := all;
      while todo != {}
        invariant todo <= all && all == old(Of(run)) && Valid()
        invariant forall s :: s in todo ==> s.View() == old(s.View())
        invariant forall s :: s in all - todo ==> s.View() == old(s.View()).Offer(e)
        invariant forall s :: s in Of(run) <==> s in all && (s in todo || old(s.View()).Accepts())
        invariant forall r :: r != run ==> Of(r) == old(Of(r))
        modifies this, all
        decreases |todo|
      {
        var s :| s in todo;
        OfferTo(run, s, e);
        todo := todo - {s};
      }
    }

    /** Ends a run: all its subscribers are closed and the run has none any more. */
    method Close(run: RunID)
      requires Valid()
      modifies this, Of(run)
      ensures Valid() && Of(run) == {} && forall r :: r != run ==> Of(r) == old(Of(r))
      ensures forall s :: s in old(Of(run)) ==> s.View() == old(s.View()).Close()
    {
      var all := Of(run);
      subs := subs - {run};
      var todo := all;
      while todo != {}
        invariant todo <= all && Valid()
        invariant forall s :: s in all ==> s.Valid() && s.View() == if s in todo then old(s.View())
                  else old(s.View()).Close()
        modifies all
        decreases |todo|
      {
        var s :| s in todo;
        s.Close();
        todo := todo - {s};
      }
    }
  }
}
