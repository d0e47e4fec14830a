/**
 * The alert that keeps nagging: whether it is active, when it was armed, when the last nag
 * went out (0 meaning none yet), how many nags went out since arming, and why it was armed.
 * Time is whole seconds.
 */
module Alerts {

  datatype AlertView = AlertView(active: bool, startedAt: int, lastSentAt: int, count: nat, reason: string)

  /** `AlertState()`: idle, nothing sent. */
  const Idle := AlertView(false, 0, 0, 0, "")

  /** `start(reason)`: active, armed now, no nag sent yet, whatever came before. */
  function Started(reason: string, now: int): (a: AlertView)
    ensures a.active && a.lastSentAt == 0 && a.count == 0
    ensures a.startedAt == now && a.reason == reason
  {
    AlertView(true, now, 0, 0, reason)
  }

  /** `stop()`: idle; the times, the count and the reason stay as they were. */
  function Stopped(a: AlertView): (b: AlertView)
    ensures !b.active
    ensures b.startedAt == a.startedAt && b.lastSentAt == a.lastSentAt && b.count == a.count && b.reason == a.reason
  {
    a.(active := false)
  }

  /** Stopping twice is stopping once, and stopping an idle alert changes nothing. */
  lemma StopIdempotent(a: AlertView)
    ensures Stopped(Stopped(a)) == Stopped(a)
    ensures !a.active ==> Stopped(a) == a
  {
  }

  /** The mutable alert of the watcher. */
  class AlertState {
    var active: bool
    var startedAt: int
    var lastSentAt: int
    var count: nat
    var reason: string

    function View(): AlertView
      reads this
    {
      AlertView(active, startedAt, lastSentAt, count, reason)
    }

    constructor ()
      ensures View() == Idle
    {
      active, startedAt, lastSentAt, count, reason := false, 0, 0, 0, "";
    }

    /** `start(reason)` at time `now`. */
    method Start(why: string, now: int)
      modifies this
      ensures View() == Started(why, now)
    {
      active, startedAt, lastSentAt, count, reason := true, now, 0, 0, why;
    }

    /** `stop()`. */
    method Stop()
      modifies this
      ensures View() == Stopped(old(View()))
    {
      active := false;
    }

    /** One nag went out at `now`. */
    method Sent(now: int)
      modifies this
      ensures View() == old(View()).(lastSentAt := now, count := old(count) + 1)
    {
      lastSentAt, count := now, count + 1;
    }
  }
}
