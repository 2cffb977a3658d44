/**
 * The `Listener` handle returned by `create_listener`: a closed flag and
 * the native backend, which `close` destroys exactly once.
 */
module Listeners {
  import opened Wrappers

  /** The native listening service (`_b`); its identity is all the model sees. */
  datatype Backend = Backend(id: nat)

  /**
   * The fields of a Listener, together with the number of times the
   * backend's `destroy` has been called through it.
   */
  datatype ListenerState = ListenerState(closed: bool, backend: Option<Backend>, destroys: nat)

  /** A listener holds its backend exactly while it is open, and has destroyed it once it is closed. */
  predicate Consistent(s: ListenerState)
  {
    && (s.closed <==> s.backend.None?)
    && s.destroys == (if s.closed then 1 else 0)
  }

  /** `Listener(backend)`. */
  function Opened(b: Backend): ListenerState
  {
    ListenerState(false, Some(b), 0)
  }

  /** `close()`: destroy the backend and drop it, unless already closed. */
  function CloseStep(s: ListenerState): ListenerState
  {
    if !s.closed then ListenerState(true, None, s.destroys + 1) else s
  }

  /** `__del__`: close the listener if it is not closed yet. */
  function FinalizeStep(s: ListenerState): ListenerState
  {
    if !s.closed then CloseStep(s) else s
  }

  datatype Event = Close | Finalize

  function After(s: ListenerState, events: seq<Event>): ListenerState
    decreases |events|
  {
    if events == [] then s
    else
      var t := match events[0] case Close => CloseStep(s) case Finalize => FinalizeStep(s);
      After(t, events[1..])
  }

  /** A new listener is open and consistent. */
  lemma OpenedIsOpen(b: Backend)
    ensures !Opened(b).closed && Opened(b).backend == Some(b)
    ensures Consistent(Opened(b))
  {
  }

  /**
   * `close` leaves the listener closed without its backend, a second
   * `close` changes nothing, and finalisation after `close` changes nothing.
   */
  lemma CloseIsIdempotent(s: ListenerState)
    requires Consistent(s)
    ensures CloseStep(s).closed && CloseStep(s).backend == None
    ensures Consistent(CloseStep(s))
    ensures CloseStep(CloseStep(s)) == CloseStep(s)
    ensures FinalizeStep(CloseStep(s)) == CloseStep(s)
  {
  }

  /**
   * From a consistent state, any sequence of `close` calls and
   * finalisations calls `destroy` once if the listener was open and the
   * sequence is not empty, and otherwise not at all.
   */
  lemma {:induction false} DestroyAtMostOnce(s: ListenerState, events: seq<Event>)
    requires Consistent(s)
    ensures Consistent(After(s, events))
    ensures After(s, events).destroys == s.destroys + (if !s.closed && events != [] then 1 else 0)
    ensures After(s, events).closed == (s.closed || events != [])
    decreases |events|
  {
    if events != [] {
      var t := match events[0] case Close => CloseStep(s) case Finalize => FinalizeStep(s);
      assert t == CloseStep(s);
      DestroyAtMostOnce(t, events[1..]);
    }
  }

  /** Over a listener's whole life, `destroy` runs exactly once if it was ever closed or finalised. */
  lemma LifetimeDestroysOnce(b: Backend, events: seq<Event>)
    ensures After(Opened(b), events).destroys == (if events == [] then 0 else 1)
    ensures After(Opened(b), events).destroys <= 1
  {
    DestroyAtMostOnce(Opened(b), events);
  }

  /** A handle to the listening service started by `create_listener`. */
  class Listener {
    var isClosed: bool
    var backend: Option<Backend>
    ghost var destroyCalls: nat

    ghost function State(): ListenerState
      reads this
    {
      ListenerState(isClosed, backend, destroyCalls)
    }

    ghost predicate Valid()
      reads this
    {
      Consistent(State())
    }

    constructor (backend: Backend)
      ensures State() == Opened(backend)
      ensures Valid()
    {
      this.backend := Some(backend);
      isClosed := false;
      destroyCalls := 0;
    }

    /** `closed()`: whether the listener is closed, which is whether it has let go of its backend. */
    function Closed(): (r: bool)
      reads this
      requires Valid()
      ensures r <==> backend.None?
    {
      isClosed
    }

    method Close()
      modifies this
      ensures State() == CloseStep(old(State()))
      ensures old(Valid()) ==> Valid()
    {
      if !isClosed {
        destroyCalls := destroyCalls + 1;  // `self._b.destroy()`
        isClosed := true;
        backend := None;
      }
    }

    /** `__del__`. */
    method Finalize()
      requires Valid()
      modifies this
      ensures State() == FinalizeStep(old(State()))
      ensures Valid()
    {
      if !Closed() {
        Close();
      }
    }
  }
}
