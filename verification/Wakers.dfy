/** One stored waker; a waker is the task it wakes. */
module Wakers {
  import opened Basics

  // The waker stored and the task woken when w is registered over what is there.
  function Displaced(waker: Option<nat>, w: nat): set<nat> {
    if waker.Some? && waker.value != w then {waker.value} else {}
  }

  function Holder(waker: Option<nat>): set<nat> {
    if waker.Some? then {waker.value} else {}
  }

  class WakerRegistration {
    var waker: Option<nat>

    constructor ()
      ensures waker == None
    {
      waker := None;
    }

    method Register(w: nat) returns (woken: set<nat>)
      modifies this
      ensures waker == Some(w) && woken == Displaced(old(waker), w)
      ensures forall t :: t in woken <==> old(waker) == Some(t) && t != w
    {
      woken := {};
      match waker
      case Some(w2) =>
        if w != w2 {
          woken := {w2};
          waker := Some(w);
        }
      case None =>
        waker := Some(w);
    }

    method Wake() returns (woken: set<nat>)
      modifies this
      ensures waker == None && woken == Holder(old(waker))
      ensures forall t :: t in woken <==> old(waker) == Some(t)
    {
      woken := {};
      if waker.Some? {
        woken := {waker.value};
        waker := None;
      }
    }
  }
}
