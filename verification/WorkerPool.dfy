/** The bounded worker pool: a buffered channel of `capacity` slots. The main
    thread puts a token in before it launches a worker, each worker takes one
    out as it leaves, and the main thread finally fills the channel to wait for
    the last of them. */
module WorkerPool {

  /** `holding`: the main thread has put in a token for items[next] and has not
      launched it yet. A worker is running until its body ends, then leaving
      until it has taken its token out. */
  datatype State<T(==)> = State(
    capacity: nat, items: seq<T>, next: nat, holding: bool, joined: nat, returned: bool,
    slots: nat, running: multiset<T>, leaving: multiset<T>, ran: multiset<T>)

  datatype Step<T(==)> = Acquire | Launch | End(item: T) | Leave(item: T) | Join | Return

  function Init<T(==)>(capacity: nat, items: seq<T>): State<T> {
    State(capacity, items, 0, false, 0, false, 0, multiset{}, multiset{}, multiset{})
  }

  predicate Enabled<T(==)>(s: State<T>, step: Step<T>) {
    match step
    case Acquire => s.next < |s.items| && !s.holding && s.slots < s.capacity
    case Launch => s.next < |s.items| && s.holding
    case End(x) => x in s.running
    case Leave(x) => x in s.leaving && s.slots > 0
    case Join => s.next == |s.items| && s.joined < s.capacity && s.slots < s.capacity
    case Return => s.next == |s.items| && s.joined == s.capacity && !s.returned
  }

  function Next<T(==)>(s: State<T>, step: Step<T>): State<T>
    requires Enabled(s, step)
  {
    match step
    case Acquire => s.(slots := s.slots + 1, holding := true)
    case Launch => s.(next := s.next + 1, holding := false, running := s.running + multiset{s.items[s.next]})
    case End(x) =>
      s.(running := s.running - multiset{x}, leaving := s.leaving + multiset{x}, ran := s.ran + multiset{x})
    case Leave(x) => s.(leaving := s.leaving - multiset{x}, slots := s.slots - 1)
    case Join => s.(joined := s.joined + 1, slots := s.slots + 1)
    case Return => s.(returned := true)
  }

  /** The states the pool can get to in the given steps, in any interleaving. */
  ghost predicate Reaches<T>(s: State<T>, steps: seq<Step<T>>, t: State<T>)
    decreases |steps|
  {
    if steps == [] then s == t
    else Enabled(s, steps[0]) && Reaches(Next(s, steps[0]), steps[1..], t)
  }

  lemma {:induction false} ReachesSnoc<T>(s: State<T>, steps: seq<Step<T>>, t: State<T>, step: Step<T>)
    requires Reaches(s, steps, t) && Enabled(t, step)
    ensures Reaches(s, steps + [step], Next(t, step))
    decreases |steps|
  {
    var more := steps + [step];
    if steps == [] {
      assert more[1..] == [];
    } else {
      ReachesSnoc(Next(s, steps[0]), steps[1..], t, step);
      assert more[1..] == steps[1..] + [step];
    }
  }

  /** Every token is accounted for, and so is every item. */
  ghost predicate Inv<T>(s: State<T>) {
    && s.next <= |s.items| && s.joined <= s.capacity
    && (s.holding ==> s.next < |s.items|)
    && (s.joined > 0 || s.returned ==> s.next == |s.items|)
    && (s.returned ==> s.joined == s.capacity)
    && s.slots == |s.running| + |s.leaving| + s.joined + (if s.holding then 1 else 0)
    && s.slots <= s.capacity
    && s.ran + s.running + multiset(s.items[s.next..]) == multiset(s.items)
  }

  /** How many steps are left: four for each item, one for each slot to fill,
      and the return. */
  function Left<T(==)>(s: State<T>): int {
    4 * (|s.items| - s.next) - (if s.holding then 1 else 0) + 2 * |s.running| + |s.leaving|
    + s.capacity - s.joined + if s.returned then 0 else 1
  }

  lemma Moves<T>(from: multiset<T>, to: multiset<T>, x: T)
    requires x in from
    ensures |from - multiset{x}| == |from| - 1 && |to + multiset{x}| == |to| + 1
  {
  }

  lemma LaunchKeepsInv<T>(s: State<T>)
    requires Inv(s) && Enabled(s, Launch)
    ensures Inv(Next(s, Launch)) && Left(Next(s, Launch)) == Left(s) - 1
  {
    var x := s.items[s.next];
    assert s.items[s.next..] == [x] + s.items[s.next + 1..];
    Moves(multiset{x}, s.running, x);
  }

  lemma EndKeepsInv<T>(s: State<T>, x: T)
    requires Inv(s) && Enabled(s, End(x))
    ensures Inv(Next(s, End(x))) && Left(Next(s, End(x))) == Left(s) - 1
  {
    Moves(s.running, s.leaving, x);
    assert s.ran + s.running == (s.ran + multiset{x}) + (s.running - multiset{x});
  }

  lemma StepKeepsInv<T>(s: State<T>, step: Step<T>)
    requires Inv(s) && Enabled(s, step)
    ensures Inv(Next(s, step)) && Left(Next(s, step)) == Left(s) - 1
  {
    match step
    case Acquire =>
    case Launch => LaunchKeepsInv(s);
    case End(x) => EndKeepsInv(s, x);
    case Leave(x) => Moves(s.leaving, s.running, x);
    case Join =>
    case Return =>
  }

  lemma {:induction false} RunKeepsInv<T>(s: State<T>, steps: seq<Step<T>>, t: State<T>)
    requires Inv(s) && Reaches(s, steps, t)
    ensures Inv(t) && Left(t) == Left(s) - |steps| && t.capacity == s.capacity && t.items == s.items
    decreases |steps|
  {
    if steps != [] {
      StepKeepsInv(s, steps[0]);
      RunKeepsInv(Next(s, steps[0]), steps[1..], t);
    }
  }

  /** In every reachable state no more workers are about than there are slots,
      and no item has been run, or is running, more often than it was listed. */
  lemma NeverMoreThanCapacity<T>(capacity: nat, items: seq<T>, steps: seq<Step<T>>, s: State<T>)
    requires Reaches(Init(capacity, items), steps, s)
    ensures |s.running| + |s.leaving| <= capacity
    ensures s.ran + s.running <= multiset(items)
  {
    assert items[0..] == items;
    RunKeepsInv(Init(capacity, items), steps, s);
  }

  /** When it returns, every item has been run exactly once and no worker is
      running or still on its way out. */
  lemma ReturnsWithEverythingRun<T>(capacity: nat, items: seq<T>, steps: seq<Step<T>>, s: State<T>)
    requires Reaches(Init(capacity, items), steps, s) && s.returned
    ensures s.ran == multiset(items) && s.running == s.leaving == multiset{}
    ensures |steps| == 4 * |items| + capacity + 1
  {
    assert items[0..] == items;
    RunKeepsInv(Init(capacity, items), steps, s);
    assert s.items[s.next..] == [];
  }

  /** The pool does run as many workers at once as it has slots, if there are as
      many items. */
  lemma {:induction false} SlotsMayAllRun<T>(capacity: nat, items: seq<T>, n: nat)
    returns (steps: seq<Step<T>>, s: State<T>)
    requires n <= capacity && n <= |items|
    ensures Reaches(Init(capacity, items), steps, s)
    ensures |s.running| == s.slots == s.next == n && s.capacity == capacity && s.items == items && !s.holding
  {
    steps, s := [], Init(capacity, items);
    if n > 0 {
      steps, s := SlotsMayAllRun(capacity, items, n - 1);
      ReachesSnoc(Init(capacity, items), steps, s, Acquire);
      steps, s := steps + [Acquire], Next(s, Acquire);
      ReachesSnoc(Init(capacity, items), steps, s, Launch);
      steps, s := steps + [Launch], Next(s, Launch);
    }
  }

  /** Some thread can move. */
  ghost predicate CanMove<T(!new)>(s: State<T>) {
    exists step :: Enabled(s, step)
  }

  /** A reachable state that has not returned is stuck exactly when there are
      items and no slots: with a slot the pool always gets to its return. */
  lemma StuckExactlyWithoutSlots<T(!new)>(capacity: nat, items: seq<T>, steps: seq<Step<T>>, s: State<T>)
    requires Reaches(Init(capacity, items), steps, s) && !s.returned
    ensures !CanMove(s) <==> capacity == 0 && items != []
    ensures |steps| <= 4 * |items| + capacity
  {
    assert items[0..] == items;
    RunKeepsInv(Init(capacity, items), steps, s);
    if |s.running| > 0 {
      var x :| x in s.running;
      assert Enabled(s, End(x));
    } else if |s.leaving| > 0 {
      var x :| x in s.leaving;
      assert Enabled(s, Leave(x));
    } else if s.holding {
      assert Enabled(s, Launch);
    } else if s.next < |s.items| {
      if s.capacity > 0 {
        assert Enabled(s, Acquire);
      }
    } else if s.joined < s.capacity {
      assert Enabled(s, Join);
    } else {
      assert Enabled(s, Return);
    }
  }

  /** The main thread as it is written, with the workers moving between any two
      of its statements and whenever it is blocked. */
  class Pool<T(==)> {
    var state: State<T>
    ghost var history: seq<Step<T>>

    ghost predicate Valid()
      reads this
    {
      Reaches(Init(state.capacity, state.items), history, state) && Inv(state)
    }

    constructor (capacity: nat, items: seq<T>)
      ensures Valid() && state == Init(capacity, items) && history == []
    {
      state := Init(capacity, items);
      history := [];
      new;
      assert items[0..] == items;
    }

    method Take(step: Step<T>)
      requires Valid() && Enabled(state, step)
      modifies this
      ensures Valid() && state == Next(old(state), step) && history == old(history) + [step]
    {
      ReachesSnoc(Init(state.capacity, state.items), history, state, step);
      StepKeepsInv(state, step);
      state := Next(state, step);
      history := history + [step];
    }

    /** One worker gets one step further. */
    method WorkerMoves()
      requires Valid() && |state.running| + |state.leaving| > 0
      modifies this
      ensures Valid() && Left(state) == Left(old(state)) - 1
      ensures state == old(state).(running := state.running, leaving := state.leaving,
                                    slots := state.slots, ran := state.ran)
    {
      var ends: bool := *;
      if |state.running| > 0 && (ends || |state.leaving| == 0) {
        var x :| x in state.running;
        StepKeepsInv(state, End(x));
        Take(End(x));
      } else {
        var x :| x in state.leaving;
        StepKeepsInv(state, Leave(x));
        Take(Leave(x));
      }
    }

    /** Any number of worker steps. */
    method Preempt()
      requires Valid()
      modifies this
      ensures Valid() && Left(state) <= Left(old(state))
      ensures state == old(state).(running := state.running, leaving := state.leaving,
                                    slots := state.slots, ran := state.ran)
    {
      var more: bool := *;
      while more && |state.running| + |state.leaving| > 0
        invariant Valid() && Left(state) <= Left(old(state))
        invariant state == old(state).(running := state.running, leaving := state.leaving,
                                        slots := state.slots, ran := state.ran)
        decreases Left(state)
      {
        WorkerMoves();
        more := *;
      }
    }

    /** Sending on the channel blocks while it is full. */
    method AwaitSlot()
      requires Valid() && state.capacity > 0 && !state.holding && state.joined < state.capacity
      modifies this
      ensures Valid() && state.slots < state.capacity
      ensures state == old(state).(running := state.running, leaving := state.leaving,
                                    slots := state.slots, ran := state.ran)
    {
      Preempt();
      while state.slots == state.capacity
        invariant Valid()
        invariant state == old(state).(running := state.running, leaving := state.leaving,
                                        slots := state.slots, ran := state.ran)
        decreases Left(state)
      {
        WorkerMoves();
      }
    }

    method Process()
      requires Valid() && history == [] && state == Init(state.capacity, state.items)
      requires state.capacity > 0 || state.items == []
      modifies this
      ensures Valid() && state.returned
      ensures state.capacity == old(state.capacity) && state.items == old(state.items)
      ensures state.ran == multiset(state.items) && state.running == state.leaving == multiset{}
    {
      for i := 0 to |state.items|
        invariant Valid() && state.next == i && !state.holding && state.joined == 0 && !state.returned
        invariant state.capacity == old(state.capacity) && state.items == old(state.items)
      {
        AwaitSlot();
        Take(Acquire);
        Preempt();
        Take(Launch);
      }
      for i := 0 to state.capacity
        invariant Valid() && state.next == |state.items| && state.joined == i && !state.returned
        invariant state.capacity == old(state.capacity) && state.items == old(state.items)
      {
        AwaitSlot();
        Take(Join);
      }
      Take(Return);
      ReturnsWithEverythingRun(state.capacity, state.items, history, state);
    }
  }
}
