/** Properties of the registration guard: registering and unregistering are
    idempotent, and the time-zone receiver is registered with the host exactly
    once more than it was unregistered while the guard flag is set. */
module RegistrationProperties {
  import opened WatchEngine

  /** How many times `call` occurs in `log`. */
  function Count(log: seq<HostCall>, call: HostCall): nat
  {
    multiset(log)[call]
  }

  /** The guard flag tracks the host's registration exactly. */
  predicate ReceiverBalanced(l: Links)
  {
    Count(l.calls, RegisterTimeZoneReceiver)
      == Count(l.calls, UnregisterTimeZoneReceiver) + (if l.receiverRegistered then 1 else 0)
  }

  /** A second register or unregister in a row changes nothing. */
  lemma RegistrationIdempotent(l: Links)
    ensures RegisterReceiver(RegisterReceiver(l)) == RegisterReceiver(l)
    ensures UnregisterReceiver(UnregisterReceiver(l)) == UnregisterReceiver(l)
  {
  }

  /** Appending `added` to the log keeps the balance when it registers exactly
      when the flag goes up and unregisters exactly when it goes down. */
  lemma BalanceStep(l: Links, r: Links, added: seq<HostCall>)
    requires ReceiverBalanced(l) && r.calls == l.calls + added
    requires Count(added, RegisterTimeZoneReceiver) == (if r.receiverRegistered && !l.receiverRegistered then 1 else 0)
    requires Count(added, UnregisterTimeZoneReceiver) == (if !r.receiverRegistered && l.receiverRegistered then 1 else 0)
    ensures ReceiverBalanced(r)
  {
    assert multiset(r.calls) == multiset(l.calls) + multiset(added);
  }

  /** Registering and unregistering keep the balance. */
  lemma RegistrationKeepsBalanced(l: Links)
    requires ReceiverBalanced(l)
    ensures ReceiverBalanced(RegisterReceiver(l)) && ReceiverBalanced(UnregisterReceiver(l))
  {
    if l.receiverRegistered {
      BalanceStep(l, UnregisterReceiver(l), [UnregisterTimeZoneReceiver, RemoveDataListener, Disconnect]);
    } else {
      BalanceStep(l, RegisterReceiver(l), [RegisterTimeZoneReceiver, Connect]);
    }
  }

  /** Every callback keeps the receiver registrations balanced against the flag. */
  lemma ApplyKeepsReceiverBalanced(e: Engine, c: Callback)
    requires ReceiverBalanced(e.links)
    ensures ReceiverBalanced(Apply(e, c).engine.links)
  {
    match c
    case VisibilityChanged(v) =>
      RegistrationKeepsBalanced(e.links);
    case Connected =>
      BalanceStep(e.links, OnConnected(e.links), [AddDataListener]);
    case ConnectionFailed(h) =>
      if !e.links.resolvingError {
        BalanceStep(e.links, OnConnectionFailed(e.links, h), [if h then Connect else RemoveDataListener]);
      }
    case _ =>
  }

  lemma {:induction false} RunKeepsReceiverBalanced(e: Engine, cs: seq<Callback>)
    requires ReceiverBalanced(e.links)
    ensures ReceiverBalanced(Run(e, cs).engine.links)
    decreases |cs|
  {
    if |cs| > 0 {
      ApplyKeepsReceiverBalanced(e, cs[0]);
      if Apply(e, cs[0]).Ok? {
        RunKeepsReceiverBalanced(Apply(e, cs[0]).engine, cs[1..]);
      }
    }
  }

  /** From creation on, the receiver is registered with the host one time more
      than it was unregistered exactly while the guard flag is set. */
  lemma ReceiverRegisteredAtMostOnce(store: Preferences.Store, cs: seq<Callback>)
    ensures ReceiverBalanced(Run(Create(store).engine, cs).engine.links)
  {
    RunKeepsReceiverBalanced(Create(store).engine, cs);
  }
}
