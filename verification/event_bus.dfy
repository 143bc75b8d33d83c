/**
 * The Android plugin's process-wide event bus: a list of weak references to
 * stream handlers, reaped of cleared references before every publish.
 */
module EventBus {
  import opened Channel

  /** A published event: its kind (`status`, `debug`, `fail`, ...) and its body. */
  datatype Event = Event(kind: string, body: map<string, Dyn>)

  /**
   * A registered stream handler. `listening` is whether a Dart listener is
   * attached (its event sink is set); a handler without one drops what it is sent.
   */
  datatype Handler = Handler(id: nat, listening: bool)

  /** A weak reference: cleared once its handler has been collected. */
  datatype WeakRef = Cleared | Alive(handler: Handler)

  /** Reference definition: the live references of `refs`, in their order. */
  function LiveOf(refs: seq<WeakRef>): seq<WeakRef>
    decreases |refs|
  {
    if |refs| == 0 then []
    else if refs[|refs| - 1].Alive? then LiveOf(refs[..|refs| - 1]) + [refs[|refs| - 1]]
    else LiveOf(refs[..|refs| - 1])
  }

  /** Filtering distributes over concatenation: relative order is kept. */
  lemma {:induction false} LiveOfAppend(a: seq<WeakRef>, b: seq<WeakRef>)
    ensures LiveOf(a + b) == LiveOf(a) + LiveOf(b)
    decreases |b|
  {
    if |b| == 0 {
      assert a + b == a;
    } else {
      var last := |b| - 1;
      assert (a + b)[..|a + b| - 1] == a + b[..last];
      assert (a + b)[|a + b| - 1] == b[last];
      LiveOfAppend(a, b[..last]);
    }
  }

  /**
   * Exactly the live references survive, each as often as it was
   * registered, and cleared ones are gone.
   */
  lemma {:induction false} LiveOfKeepsExactlyLive(refs: seq<WeakRef>)
    ensures forall i :: 0 <= i < |LiveOf(refs)| ==> LiveOf(refs)[i].Alive?
    ensures forall h :: multiset(LiveOf(refs))[Alive(h)] == multiset(refs)[Alive(h)]
    ensures Cleared !in LiveOf(refs)
    ensures forall x :: x in LiveOf(refs) ==> x in refs
    ensures |LiveOf(refs)| <= |refs|
    decreases |refs|
  {
    if |refs| > 0 {
      var init := refs[..|refs| - 1];
      LiveOfKeepsExactlyLive(init);
      assert refs == init + [refs[|refs| - 1]];
    }
  }

  /** Reaping twice is reaping once. */
  lemma LiveOfIdempotent(refs: seq<WeakRef>)
    ensures LiveOf(LiveOf(refs)) == LiveOf(refs)
  {
  }

  /**
   * `reapCollection`: `removeAll { it.get() == null }` over the handler
   * list, returning the collection without its cleared references.
   */
  method ReapCollection(refs: seq<WeakRef>) returns (kept: seq<WeakRef>)
    ensures forall i :: 0 <= i < |kept| ==> kept[i].Alive?
    ensures forall h :: Alive(h) in kept <==> Alive(h) in refs
    ensures kept == LiveOf(refs)
  {
    kept := [];
    var i := 0;
    while i < |refs|
      invariant 0 <= i <= |refs|
      invariant kept == LiveOf(refs[..i])
    {
      assert refs[..i + 1][..i] == refs[..i];
      if refs[i].Alive? {
        kept := kept + [refs[i]];
      }
      i := i + 1;
    }
    assert refs[..i] == refs;
    LiveOfKeepsExactlyLive(refs);
    forall h
      ensures Alive(h) in kept <==> Alive(h) in refs
    {
      assert Alive(h) in kept <==> multiset(kept)[Alive(h)] > 0;
      assert Alive(h) in refs <==> multiset(refs)[Alive(h)] > 0;
    }
  }

  /** What an `EventCallbackHandler.send` posts to its sink. */
  function Message(e: Event): Dyn {
    Dict(map["event" := Str(e.kind), "body" := Dict(e.body)])
  }

  datatype Delivery = Delivery(handler: Handler, message: Dyn)

  /** One delivery per listening handler among `live`, in order. */
  function DeliverAll(live: seq<WeakRef>, e: Event): (ds: seq<Delivery>)
    ensures |ds| <= |live|
    ensures forall d :: d in ds <==> d.message == Message(e) && d.handler.listening && Alive(d.handler) in live
    decreases |live|
  {
    if |live| == 0 then []
    else
      var rest := DeliverAll(live[1..], e);
      assert forall r :: r in live <==> r == live[0] || r in live[1..];
      match live[0]
      case Alive(h) => if h.listening then [Delivery(h, Message(e))] + rest else rest
      case Cleared => rest
  }

  /**
   * Reference definition: the handlers an event reaches, in registration
   * order, one entry per live reference whose handler is listening.
   */
  function Listeners(refs: seq<WeakRef>): seq<Handler>
    decreases |refs|
  {
    if |refs| == 0 then []
    else
      var rest := Listeners(refs[1..]);
      if refs[0].Alive? && refs[0].handler.listening then [refs[0].handler] + rest else rest
  }

  lemma {:induction false} ListenersAppend(a: seq<WeakRef>, b: seq<WeakRef>)
    ensures Listeners(a + b) == Listeners(a) + Listeners(b)
    decreases |a|
  {
    if |a| == 0 {
      assert a + b == b;
    } else {
      assert (a + b)[0] == a[0];
      assert (a + b)[1..] == a[1..] + b;
      ListenersAppend(a[1..], b);
    }
  }

  /** Reaping first does not change who is reached, nor in which order. */
  lemma {:induction false} ListenersOfLive(refs: seq<WeakRef>)
    ensures Listeners(LiveOf(refs)) == Listeners(refs)
    decreases |refs|
  {
    if |refs| > 0 {
      var init := refs[..|refs| - 1];
      var last := refs[|refs| - 1];
      assert refs == init + [last];
      ListenersOfLive(init);
      ListenersAppend(init, [last]);
      if last.Alive? {
        ListenersAppend(LiveOf(init), [last]);
      }
    }
  }

  /** A listening handler is reached once per registration, a deaf one never. */
  lemma {:induction false} ListenersCountRegistrations(refs: seq<WeakRef>, h: Handler)
    ensures multiset(Listeners(refs))[h] == if h.listening then multiset(refs)[Alive(h)] else 0
    decreases |refs|
  {
    if |refs| > 0 {
      ListenersCountRegistrations(refs[1..], h);
      assert refs == [refs[0]] + refs[1..];
    }
  }

  lemma {:induction false} DeliverAllFollowsListeners(live: seq<WeakRef>, e: Event)
    ensures |DeliverAll(live, e)| == |Listeners(live)|
    ensures forall i :: 0 <= i < |DeliverAll(live, e)| ==>
      DeliverAll(live, e)[i] == Delivery(Listeners(live)[i], Message(e))
    decreases |live|
  {
    if |live| > 0 {
      DeliverAllFollowsListeners(live[1..], e);
    }
  }

  datatype Publish = Publish(handlers: seq<WeakRef>, delivered: seq<Delivery>)

  /**
   * `sendEvent`: reap the handler list (the reaped list is kept), then send
   * the event to every handler still referenced; only handlers with an
   * attached listener see it, in registration order, once per reference.
   */
  function SendEvent(refs: seq<WeakRef>, e: Event): (r: Publish)
    ensures r.handlers == LiveOf(refs)
    ensures |r.delivered| == |Listeners(refs)|
    ensures forall i :: 0 <= i < |r.delivered| ==> r.delivered[i] == Delivery(Listeners(refs)[i], Message(e))
    ensures forall d :: d in r.delivered <==>
      d.message == Message(e) && d.handler.listening && Alive(d.handler) in refs
  {
    var live := LiveOf(refs);
    LiveOfKeepsExactlyLive(refs);
    assert forall h :: Alive(h) in live <==> Alive(h) in refs by {
      forall h ensures Alive(h) in live <==> Alive(h) in refs {
        assert Alive(h) in live <==> multiset(live)[Alive(h)] > 0;
        assert Alive(h) in refs <==> multiset(refs)[Alive(h)] > 0;
      }
    }
    ListenersOfLive(refs);
    DeliverAllFollowsListeners(live, e);
    Publish(live, DeliverAll(live, e))
  }

  /** A publish on a list with no listening live handler reaches nobody, and never fails. */
  lemma PublishWithoutListeners(refs: seq<WeakRef>, e: Event)
    requires forall i :: 0 <= i < |refs| ==> refs[i].Cleared? || !refs[i].handler.listening
    ensures SendEvent(refs, e).delivered == []
  {
    LiveOfKeepsExactlyLive(refs);
    NoListenerNoDelivery(LiveOf(refs), e);
  }

  lemma {:induction false} NoListenerNoDelivery(live: seq<WeakRef>, e: Event)
    requires forall i :: 0 <= i < |live| ==> live[i].Cleared? || !live[i].handler.listening
    ensures DeliverAll(live, e) == []
    decreases |live|
  {
    if |live| > 0 {
      NoListenerNoDelivery(live[1..], e);
    }
  }
}
