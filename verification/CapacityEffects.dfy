/** What each scheduling step does to the counters, the holders and the queue. */
module CapacityEffects {
  import opened Collections
  import opened Capacity

  /** A free slot is given and nobody else moves; behind a reached limit the Worker parks last. */
  lemma AcquireEffect(s: State, caps: Caps, id: string, session: string, own: bool)
    ensures var r, free := Apply(s, caps, Acquire(id, session, own)),
                           s.slots.total < caps.all && CountAt(s.slots.bySession, session) < caps.each;
            && (free ==>
                  && r.waiters == s.waiters && r.slots.total == s.slots.total + 1
                  && r.slots.held == s.slots.held[id := session]
                  && (forall t :: CountAt(r.slots.bySession, t)
                                  == CountAt(s.slots.bySession, t) + (if t == session then 1 else 0)))
            && (!free ==> r.slots == s.slots && r.waiters == s.waiters + [Waiter(id, session, own, false)])
  {
  }

  /** A holder gives back one slot of its own session and wakes every waiter; anybody else's release does nothing. */
  lemma ReleaseEffect(s: State, caps: Caps, id: string)
    requires Exact(s.slots, caps)
    ensures var r := Apply(s, caps, Release(id));
            && (id !in s.slots.held ==> r == s)
            && (id in s.slots.held ==>
                  && r.slots.total == s.slots.total - 1 && r.slots.held == s.slots.held - {id}
                  && r.slots.leaked == s.slots.leaked
                  && CountAt(r.slots.bySession, s.slots.held[id]) == CountAt(s.slots.bySession, s.slots.held[id]) - 1
                  && (forall t :: t != s.slots.held[id] ==>
                        CountAt(r.slots.bySession, t) == CountAt(s.slots.bySession, t))
                  && |r.waiters| == |s.waiters| && forall i :: 0 <= i < |r.waiters| ==> r.waiters[i].done)
  {
    if id in s.slots.held {
      ClampsNeverAct(s.slots, caps, id);
    }
  }

  /** A record that goes takes no counter down: its slot leaks. */
  lemma ForgetEffect(s: State, caps: Caps, id: string, t: string)
    ensures var r := Apply(s, caps, Forget(id));
            && r.waiters == s.waiters && r.slots.total == s.slots.total && r.slots.bySession == s.slots.bySession
            && r.slots.held == s.slots.held - {id}
            && CountAt(r.slots.leaked, t)
               == CountAt(s.slots.leaked, t) + (if id in s.slots.held && s.slots.held[id] == t then 1 else 0)
  {
  }

  /** So it is with a new registration, which also leaves its earlier waiters on their own. */
  lemma ReregisterEffect(s: State, caps: Caps, id: string, k: nat)
    requires k < |s.waiters|
    ensures var r := Apply(s, caps, Reregister(id));
            && r.slots == Apply(s, caps, Forget(id)).slots && |r.waiters| == |s.waiters|
            && r.waiters[k].id == s.waiters[k].id && r.waiters[k].session == s.waiters[k].session
            && r.waiters[k].done == s.waiters[k].done
            && (r.waiters[k].own <==> s.waiters[k].own && s.waiters[k].id != id)
  {
  }

  /** Only a waiter that is done leaves, and no other does; a cancelled one is done, and no other becomes so. */
  lemma WaiterEffects(s: State, caps: Caps, k: nat, i: nat)
    requires k < |s.waiters| && i < |s.waiters|
    ensures var r := Apply(s, caps, Resume(k));
            && r.slots == s.slots
            && (!s.waiters[k].done ==> r == s)
            && (s.waiters[k].done ==>
                  && |r.waiters| == |s.waiters| - 1
                  && (i < k ==> r.waiters[i] == s.waiters[i]) && (i > k ==> r.waiters[i - 1] == s.waiters[i]))
    ensures var r := Apply(s, caps, Cancel(k));
            && r.slots == s.slots && |r.waiters| == |s.waiters|
            && r.waiters[i] == (if i == k then s.waiters[i].(done := true) else s.waiters[i])
  {
  }
}
