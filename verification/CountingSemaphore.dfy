/** The atomic counting semaphore: the specification that the hand-written
    permit counter of src/workers.rs is proved to refine, and the behaviour
    assumed of the Tokio semaphore behind `RequestPermitPool`. A permit is
    labelled with the task or request that holds it. */
module CountingSemaphore {

  datatype Semaphore = Semaphore(capacity: nat, available: nat, held: multiset<int>)

  datatype Event = Acquire(owner: int) | Release(owner: int)

  function Fresh(capacity: nat): Semaphore
  {
    Semaphore(capacity, capacity, multiset{})
  }

  predicate Allowed(sem: Semaphore, event: Event)
  {
    match event
    case Acquire(_) => sem.available > 0
    case Release(owner) => owner in sem.held
  }

  function After(sem: Semaphore, event: Event): Semaphore
    requires Allowed(sem, event)
  {
    match event
    case Acquire(owner) => sem.(available := sem.available - 1, held := sem.held + multiset{owner})
    case Release(owner) => sem.(available := sem.available + 1, held := sem.held - multiset{owner})
  }

  predicate Permits(sem: Semaphore, events: seq<Event>)
    decreases |events|
  {
    events == [] || (Allowed(sem, events[0]) && Permits(After(sem, events[0]), events[1..]))
  }

  function Final(sem: Semaphore, events: seq<Event>): Semaphore
    requires Permits(sem, events)
    decreases |events|
  {
    if events == [] then sem else Final(After(sem, events[0]), events[1..])
  }

  lemma OneEvent(sem: Semaphore, event: Event)
    requires Allowed(sem, event)
    ensures Permits(sem, [event]) && Final(sem, [event]) == After(sem, event)
  {
    assert [event][1..] == [];
  }

  lemma {:induction false} HistoriesCompose(sem: Semaphore, first: seq<Event>, rest: seq<Event>)
    requires Permits(sem, first) && Permits(Final(sem, first), rest)
    ensures Permits(sem, first + rest)
    ensures Final(sem, first + rest) == Final(Final(sem, first), rest)
    decreases |first|
  {
    if first == [] {
      assert first + rest == rest;
    } else {
      var all, next := first + rest, After(sem, first[0]);
      assert all[0] == first[0] && all[1..] == first[1..] + rest;
      HistoriesCompose(next, first[1..], rest);
    }
  }

  predicate Balanced(sem: Semaphore)
  {
    sem.available + |sem.held| == sem.capacity
  }

  /** Permits are neither created nor lost by any legal history. */
  lemma {:induction false} HistoryIsBalanced(sem: Semaphore, events: seq<Event>)
    requires Balanced(sem) && Permits(sem, events)
    ensures Balanced(Final(sem, events)) && Final(sem, events).capacity == sem.capacity
    decreases |events|
  {
    if events != [] {
      HistoryIsBalanced(After(sem, events[0]), events[1..]);
    }
  }
}
