/** Waiting for a session to close: any number of waiters against the mux driver.
  *
  * A notification wakes exactly the waits that were created before it was sent, whether or
  * not they have been polled yet.
  */
module ClosedHandleModel {

  datatype Driver = Running | FlagSet | Notified

  /** A waiter between two atomic actions; an armed wait remembers how many notifications had
    * been sent when it was created.
    */
  datatype Waiter =
    | Checking
    | Arming
    | Rechecking(armedAt: nat)
    | Parked(armedAt: nat)
    | Returned

  datatype System = System(flag: bool, notifications: nat, driver: Driver, waiters: map<nat, Waiter>)

  datatype Step = Call(t: nat) | Advance(t: nat) | SetFlag | NotifyWaiters

  predicate Enabled(s: System, step: Step) {
    match step
    case Call(t) => t !in s.waiters
    case Advance(t) => t in s.waiters && CanAdvance(s, s.waiters[t])
    case SetFlag => s.driver.Running?
    case NotifyWaiters => s.driver.FlagSet?
  }

  predicate CanAdvance(s: System, w: Waiter) {
    match w
    case Parked(armedAt) => armedAt < s.notifications
    case Returned => false
    case _ => true
  }

  function Advanced(s: System, w: Waiter): Waiter
    requires CanAdvance(s, w)
  {
    match w
    case Checking => if s.flag then Returned else Arming
    case Arming => Rechecking(s.notifications)
    case Rechecking(armedAt) => if s.flag then Returned else Parked(armedAt)
    case Parked(_) => Checking
  }

  function Next(s: System, step: Step): System
    requires Enabled(s, step)
  {
    match step
    case Call(t) => s.(waiters := s.waiters[t := Checking])
    case Advance(t) => s.(waiters := s.waiters[t := Advanced(s, s.waiters[t])])
    case SetFlag => s.(flag := true, driver := FlagSet)
    case NotifyWaiters => s.(notifications := s.notifications + 1, driver := Notified)
  }

  const START: System := System(false, 0, Running, map[])

  ghost predicate IsRun(states: seq<System>, steps: seq<Step>) {
    && |states| == |steps| + 1
    && states[0] == START
    && forall i :: 0 <= i < |steps| ==> Enabled(states[i], steps[i]) && states[i + 1] == Next(states[i], steps[i])
  }

  ghost predicate WaiterSound(s: System, w: Waiter) {
    match w
    case Rechecking(armedAt) => armedAt <= s.notifications
    case Parked(armedAt) => armedAt == 0
    case Returned => s.flag
    case _ => true
  }

  ghost predicate Inv(s: System) {
    && (s.flag <==> !s.driver.Running?)
    && s.notifications == (if s.driver.Notified? then 1 else 0)
    && forall t :: t in s.waiters ==> WaiterSound(s, s.waiters[t])
  }

  lemma {:induction false} RunsKeepInv(states: seq<System>, steps: seq<Step>, i: nat)
    requires IsRun(states, steps) && i < |states|
    ensures Inv(states[i])
  {
    if i == 0 {
    } else {
      RunsKeepInv(states, steps, i - 1);
      var s, step := states[i - 1], steps[i - 1];
      forall t | t in states[i].waiters
        ensures WaiterSound(states[i], states[i].waiters[t])
      {
        assert t in s.waiters ==> WaiterSound(s, s.waiters[t]);
      }
    }
  }

  /** No lost wakeup: a waiter still parked with nothing to wake it means the driver has not
    * yet notified; and a waiter returns only once the session has closed.
    */
  lemma ParkedImpliesNotNotified(states: seq<System>, steps: seq<Step>, i: nat, t: nat)
    requires IsRun(states, steps) && i < |states| && t in states[i].waiters
    ensures states[i].waiters[t].Parked? && !Enabled(states[i], Advance(t)) ==> !states[i].driver.Notified?
    ensures states[i].waiters[t].Returned? ==> states[i].flag
  {
    RunsKeepInv(states, steps, i);
    assert WaiterSound(states[i], states[i].waiters[t]);
  }

  /** How many of its own actions separate a waiter from returning once the driver is done. */
  function Distance(w: Waiter): nat {
    match w
    case Returned => 0
    case Checking => 1
    case Rechecking(_) => 1
    case Arming => 2
    case Parked(_) => 2
  }

  /** After the driver has notified, every waiter that has not returned can act, and each of
    * its actions brings it nearer, so it returns after at most two.
    */
  lemma WaitersReturnOnceNotified(states: seq<System>, steps: seq<Step>, i: nat, t: nat)
    requires IsRun(states, steps) && i < |states| && t in states[i].waiters
    requires states[i].driver.Notified? && !states[i].waiters[t].Returned?
    ensures Enabled(states[i], Advance(t))
    ensures Distance(Next(states[i], Advance(t)).waiters[t]) < Distance(states[i].waiters[t]) <= 2
  {
    RunsKeepInv(states, steps, i);
    assert WaiterSound(states[i], states[i].waiters[t]);
  }

  /** The driver is never held up: it sets the flag, then notifies; and anyone may wait at any time. */
  lemma DriverFinishes(states: seq<System>, steps: seq<Step>, i: nat, t: nat)
    requires IsRun(states, steps) && i < |states|
    ensures states[i].driver.Running? ==> Enabled(states[i], SetFlag) && Next(states[i], SetFlag).driver.FlagSet?
    ensures states[i].driver.FlagSet? ==>
      Enabled(states[i], NotifyWaiters) && Next(states[i], NotifyWaiters).driver.Notified?
    ensures t !in states[i].waiters ==>
      Enabled(states[i], Call(t)) && Next(states[i], Call(t)).waiters == states[i].waiters[t := Checking]
  {
  }
}
