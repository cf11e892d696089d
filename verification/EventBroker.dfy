/** Live delivery to subscribers with bounded queues that lose their oldest entry. */
module EventBroker {
  import opened Collections
  import opened EventLog
  import opened EventStream

  datatype Subscription = Subscription(queue: seq<Event>, max: int, turn: Option<string>, session: Option<string>)

  predicate Matches(s: Subscription, e: Event) {
    && (s.turn.Some? ==> s.turn.value == e.turn)
    && (s.session.Some? ==> s.session.value == e.session)
  }

  function Offered(s: Subscription, e: Event): Subscription {
    if Matches(s, e) then s.(queue := Offer(s.max, s.queue, e)) else s
  }

  /** What every subscriber has after `e` was published to those in `ids`. */
  function Delivered(all: map<nat, Subscription>, ids: set<nat>, e: Event): map<nat, Subscription> {
    map id | id in all :: if id in ids then Offered(all[id], e) else all[id]
  }

  /** The subscribers who lose an entry when `e` is published. */
  function Losers(all: map<nat, Subscription>, ids: set<nat>, e: Event): set<nat> {
    set id | id in ids && id in all && Matches(all[id], e) && Full(all[id].max, all[id].queue)
  }

  /** What an offer means: the new event is last, what was queued keeps its order, and at most the oldest
      entry is gone, and that only when there was no room. */
  lemma OfferMeaning(max: int, q: seq<Event>, e: Event)
    requires max > 0 ==> |q| <= max
    ensures var r := Offer(max, q, e);
            && r != [] && r[|r| - 1] == e
            && r[..|r| - 1] == (if Full(max, q) then q[1..] else q)
            && (max > 0 ==> |r| <= max)
  {
  }

  /** Who asked for the event's turn, if for any, and for its session, if for any, has it last in the queue; everybody
      else has what they had. */
  ghost predicate Reached(before: Subscription, now: Subscription, e: Event) {
    if before.turn in {None, Some(e.turn)} && before.session in {None, Some(e.session)} then
      && now.queue != [] && now.queue[|now.queue| - 1] == e
      && (now.queue[..|now.queue| - 1] == before.queue
          || (before.max > 0 && |before.queue| >= before.max && now.queue[..|now.queue| - 1] == before.queue[1..]))
      && now == before.(queue := now.queue)
    else now == before
  }

  lemma OfferReaches(s: Subscription, e: Event)
    requires s.max > 0 ==> |s.queue| <= s.max
    ensures Reached(s, Offered(s, e), e)
  {
    OfferMeaning(s.max, s.queue, e);
  }

  lemma DeliveredReaches(all: map<nat, Subscription>, e: Event)
    requires forall id :: id in all ==> all[id].max > 0 ==> |all[id].queue| <= all[id].max
    ensures forall id :: id in all ==> Reached(all[id], Delivered(all, all.Keys, e)[id], e)
  {
    forall id | id in all
      ensures Reached(all[id], Delivered(all, all.Keys, e)[id], e)
    {
      OfferReaches(all[id], e);
    }
  }

  class GatewayEventBroker {
    var subscriptions: map<nat, Subscription>
    var nextId: nat

    ghost predicate Valid()
      reads this
    {
      && nextId >= 1
      && forall id :: id in subscriptions ==>
           && 1 <= id < nextId
           && (subscriptions[id].turn.Some? || subscriptions[id].session.Some?)
           && (subscriptions[id].max > 0 ==> |subscriptions[id].queue| <= subscriptions[id].max)
    }

    constructor ()
      ensures Valid() && subscriptions == map[] && nextId == 1
    {
      subscriptions, nextId := map[], 1;
    }

    /** Opens a queue under a new id; without a turn and a session there is nothing to subscribe to. */
    method Subscribe(turn: Option<string>, session: Option<string>, max: int) returns (r: Option<nat>)
      requires Valid()
      modifies this
      ensures Valid()
      ensures r.None? <==> turn.None? && session.None?
      ensures r.None? ==> unchanged(this)
      ensures r.Some? ==>
                && r.value == old(nextId) && r.value !in old(subscriptions) && nextId == old(nextId) + 1
                && subscriptions == old(subscriptions)[r.value := Subscription([], max, turn, session)]
    {
      if turn.None? && session.None? {
        return None;
      }
      r := Some(nextId);
      subscriptions := subscriptions[nextId := Subscription([], max, turn, session)];
      nextId := nextId + 1;
    }

    method Unsubscribe(id: nat)
      requires Valid()
      modifies this
      ensures Valid() && subscriptions == old(subscriptions) - {id} && nextId == old(nextId)
    {
      subscriptions := subscriptions - {id};
    }

    /** Offers an event to everybody it concerns and counts the entries that were lost. */
    method Publish(e: Event) returns (dropped: nat)
      requires Valid()
      modifies `subscriptions
      ensures Valid()
      ensures subscriptions == Delivered(old(subscriptions), old(subscriptions).Keys, e)
      ensures dropped == |Losers(old(subscriptions), old(subscriptions).Keys, e)|
      ensures subscriptions.Keys == old(subscriptions).Keys
      ensures forall id :: id in subscriptions ==> Reached(old(subscriptions)[id], subscriptions[id], e)
    {
      ghost var all := subscriptions;
      var todo := subscriptions.Keys;
      dropped := 0;
      assert Losers(all, all.Keys - todo, e) == {};
      assert Delivered(all, all.Keys - todo, e) == all;
      while todo != {}
        invariant todo <= all.Keys && Valid()
        invariant subscriptions == Delivered(all, all.Keys - todo, e)
        invariant dropped == |Losers(all, all.Keys - todo, e)|
        decreases todo
      {
        var id :| id in todo;
        DeliverOneMore(all, all.Keys - todo, id, e);
        assert all.Keys - (todo - {id}) == all.Keys - todo + {id};
        var s := subscriptions[id];
        if Matches(s, e) {
          if Full(s.max, s.queue) {
            dropped := dropped + 1;
          }
          subscriptions := subscriptions[id := s.(queue := Offer(s.max, s.queue, e))];
        }
        todo := todo - {id};
      }
      assert all.Keys - todo == all.Keys;
      DeliveredReaches(all, e);
    }

    /** Takes the oldest entry of a subscriber's queue. */
    method Receive(id: nat) returns (e: Option<Event>)
      requires Valid() && id in subscriptions
      modifies `subscriptions
      ensures Valid()
      ensures e.None? <==> old(subscriptions)[id].queue == []
      ensures e.None? ==> unchanged(this)
      ensures e.Some? ==>
                var s := old(subscriptions)[id];
                s.queue == [e.value] + s.queue[1..] && subscriptions == old(subscriptions)[id := s.(queue := s.queue[1..])]
    {
      var s := subscriptions[id];
      if s.queue == [] {
        return None;
      }
      e := Some(s.queue[0]);
      subscriptions := subscriptions[id := s.(queue := s.queue[1..])];
    }
  }

  lemma DeliverOneMore(all: map<nat, Subscription>, seen: set<nat>, id: nat, e: Event)
    requires id in all && id !in seen
    ensures Delivered(all, seen, e)[id] == all[id]
    ensures Delivered(all, seen + {id}, e) == Delivered(all, seen, e)[id := Offered(all[id], e)]
    ensures |Losers(all, seen + {id}, e)|
            == |Losers(all, seen, e)| + if Matches(all[id], e) && Full(all[id].max, all[id].queue) then 1 else 0
  {
    var was, now := Losers(all, seen, e), Losers(all, seen + {id}, e);
    assert now == if Matches(all[id], e) && Full(all[id].max, all[id].queue) then was + {id} else was;
  }
}
