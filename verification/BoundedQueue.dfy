/**
 The bounded queue that connects the gateway's threads: a byte ring with element-scaled copies, guarded
 by one mutex. Each stretch of code that holds the mutex is one atomic step; while a thread waits on a
 condition variable the mutex is free and the other threads take any number of steps.

 `Fifo` is the queue its users rely on. `Ring` is the code's representation, proved to behave as `Fifo`
 for every schedule of the other threads.
 */
module BoundedQueue {
  import opened Common

  type Byte = bv8
  type Item = seq<Byte>

  datatype QueueResult = QueueOk | QueueTimeout | QueueClosed | QueueSystem

  // ---------------------------------------------------------------- the abstract queue

  /** A FIFO with a permanent closed flag. `pushed` and `popped` are its whole history. */
  datatype Fifo<T> = Fifo(capacity: nat, items: seq<T>, closed: bool, pushed: seq<T>, popped: seq<T>)
  {
    ghost predicate Valid() {
      && capacity > 0
      && |items| <= capacity
      && popped + items == pushed
    }

    predicate Full() { |items| == capacity }
  }

  function Put<T>(q: Fifo<T>, x: T): Fifo<T> {
    q.(items := q.items + [x], pushed := q.pushed + [x])
  }

  function Take<T>(q: Fifo<T>): Fifo<T>
    requires q.items != []
  {
    q.(items := q.items[1..], popped := q.popped + [q.items[0]])
  }

  /** One atomic step of some thread: a push or pop that need not wait, or a close. */
  datatype Op<T> = OpPush(item: T) | OpPop | OpClose

  function Apply<T>(q: Fifo<T>, op: Op<T>): Fifo<T> {
    match op
    case OpPush(x) => if q.closed || q.Full() then q else Put(q, x)
    case OpPop => if q.items == [] then q else Take(q)
    case OpClose => q.(closed := true)
  }

  function Run<T>(q: Fifo<T>, ops: seq<Op<T>>): Fifo<T>
    decreases |ops|
  {
    if ops == [] then q else Run(Apply(q, ops[0]), ops[1..])
  }

  /** How a wait on a condition variable ends, and what the other threads did meanwhile. */
  datatype Wake<T> = Wake(others: seq<Op<T>>, timedOut: bool, failed: bool)

  /** A push from the moment its wait condition is evaluated. `None` means it still waits at the end of
      the schedule. */
  function PushFrom<T>(q: Fifo<T>, x: T, timeout: int, wakes: seq<Wake<T>>): (Fifo<T>, Option<QueueResult>)
    decreases |wakes|
  {
    if q.closed then (q, Some(QueueClosed))
    else if !q.Full() then (Put(q, x), Some(QueueOk))
    else if timeout == 0 then (q, Some(QueueTimeout))
    else if wakes == [] then (q, None)
    else
      var after := Run(q, wakes[0].others);
      if wakes[0].timedOut && timeout > 0 then (after, Some(QueueTimeout))
      else if wakes[0].timedOut || wakes[0].failed then (after, Some(QueueSystem))
      else PushFrom(after, x, timeout, wakes[1..])
  }

  function PopFrom<T>(q: Fifo<T>, timeout: int, wakes: seq<Wake<T>>): (Fifo<T>, Option<QueueResult>, Option<T>)
    decreases |wakes|
  {
    if q.items != [] then (Take(q), Some(QueueOk), Some(q.items[0]))
    else if q.closed then (q, Some(QueueClosed), None)
    else if timeout == 0 then (q, Some(QueueTimeout), None)
    else if wakes == [] then (q, None, None)
    else
      var after := Run(q, wakes[0].others);
      if wakes[0].timedOut && timeout > 0 then (after, Some(QueueTimeout), None)
      else if wakes[0].timedOut || wakes[0].failed then (after, Some(QueueSystem), None)
      else PopFrom(after, timeout, wakes[1..])
  }

  // ---------------------------------------------------------------- what every schedule keeps

  /** What one step leaves true between two states of a queue. */
  ghost predicate Later<T>(q: Fifo<T>, r: Fifo<T>) {
    && r.Valid()
    && r.capacity == q.capacity
    && q.pushed <= r.pushed
    && q.popped <= r.popped
    && (q.closed ==> r.closed && r.pushed == q.pushed)
  }

  lemma ApplyLater<T>(q: Fifo<T>, op: Op<T>)
    requires q.Valid()
    ensures Later(q, Apply(q, op))
  {
    if op.OpPop? && q.items != [] {
      assert q.popped + q.items == q.popped + [q.items[0]] + q.items[1..];
    }
  }

  lemma LaterTransitive<T>(a: Fifo<T>, b: Fifo<T>, c: Fifo<T>)
    requires Later(a, b) && Later(b, c)
    ensures Later(a, c)
  {}

  /** Under every interleaving of steps: what was popped is a prefix of what was pushed, the queue holds
      the difference and never more than its capacity, and nothing enters after a close. */
  lemma {:induction false} RunLater<T>(q: Fifo<T>, ops: seq<Op<T>>)
    requires q.Valid()
    ensures Later(q, Run(q, ops))
    ensures Run(q, ops).popped <= Run(q, ops).pushed
    decreases |ops|
  {
    if ops != [] {
      ApplyLater(q, ops[0]);
      RunLater(Apply(q, ops[0]), ops[1..]);
      LaterTransitive(q, Apply(q, ops[0]), Run(q, ops));
    }
  }

  lemma {:induction false} RunConcat<T>(q: Fifo<T>, a: seq<Op<T>>, b: seq<Op<T>>)
    ensures Run(q, a + b) == Run(Run(q, a), b)
    decreases |a|
  {
    if a == [] {
      assert a + b == b;
    } else {
      assert (a + b)[1..] == a[1..] + b;
      RunConcat(Apply(q, a[0]), a[1..], b);
    }
  }

  /** A push that waits takes effect at one instant: it is some steps of the others, followed, if it
      succeeds, by its own step; success puts the item behind everything pushed so far. */
  lemma {:induction false} PushLinearizes<T>(q: Fifo<T>, x: T, timeout: int, wakes: seq<Wake<T>>)
    returns (before: seq<Op<T>>)
    requires q.Valid()
    ensures var (r, result) := PushFrom(q, x, timeout, wakes);
            var mid := Run(q, before);
            && Later(q, r) && mid.Valid()
            && (result == Some(QueueOk) ==> !mid.closed && !mid.Full() && r == Apply(mid, OpPush(x)))
            && (result != Some(QueueOk) ==> r == mid)
            && (result == Some(QueueClosed) ==> r.closed)
            && (result == Some(QueueTimeout) && timeout == 0 ==> r == q && r.Full())
    decreases |wakes|
  {
    if !q.closed && q.Full() && timeout != 0 && wakes != [] {
      var others := wakes[0].others;
      var after := Run(q, others);
      RunLater(q, others);
      var more := PushLinearizes(after, x, timeout, wakes[1..]);
      LaterTransitive(q, after, PushFrom(after, x, timeout, wakes[1..]).0);
      RunConcat(q, others, more);
      before := if wakes[0].timedOut || wakes[0].failed then others else others + more;
    } else {
      before := [];
    }
  }

  /** A pop, however long it waits: it is some steps of the others followed by its own; success returns
      the oldest item not yet popped, and CLOSED is reported only when everything pushed was popped. */
  lemma {:induction false} PopLinearizes<T>(q: Fifo<T>, timeout: int, wakes: seq<Wake<T>>)
    returns (before: seq<Op<T>>)
    requires q.Valid()
    ensures var (r, result, x) := PopFrom(q, timeout, wakes);
            var mid := Run(q, before);
            && Later(q, r) && mid.Valid()
            && (result == Some(QueueOk) <==> x.Some?)
            && (x.Some? ==> mid.items != [] && r == Apply(mid, OpPop)
                            && |mid.popped| < |r.pushed| && x.value == r.pushed[|mid.popped|])
            && (x.None? ==> r == mid)
            && (result == Some(QueueClosed) ==> r.closed && r.popped == r.pushed)
    decreases |wakes|
  {
    before := [];
    if q.items != [] {
      ApplyLater(q, OpPop);
    } else if !q.closed && timeout != 0 && wakes != [] {
      var others := wakes[0].others;
      var after := Run(q, others);
      RunLater(q, others);
      var more := PopLinearizes(after, timeout, wakes[1..]);
      LaterTransitive(q, after, PopFrom(after, timeout, wakes[1..]).0);
      RunConcat(q, others, more);
      before := if wakes[0].timedOut || wakes[0].failed then others else others + more;
    }
  }

  // ---------------------------------------------------------------- which answer is given

  /** The queue as the waiting thread finds it when it evaluates its condition again after `k` waits. */
  function Seen<T>(q: Fifo<T>, wakes: seq<Wake<T>>, k: nat): Fifo<T>
    requires k <= |wakes|
    decreases k
  {
    if k == 0 then q else Run(Seen(q, wakes, k - 1), wakes[k - 1].others)
  }

  predicate Disturbed<T>(w: Wake<T>) { w.timedOut || w.failed }

  predicate Starved<T>(q: Fifo<T>) { q.items == [] && !q.closed }

  predicate Blocked<T>(q: Fifo<T>) { q.Full() && !q.closed }

  /** `k` waits in a row, none of them disturbed, all of them on a queue that made the thread wait. */
  ghost predicate Waited<T>(q: Fifo<T>, wakes: seq<Wake<T>>, k: nat, mustWait: Fifo<T> -> bool) {
    k <= |wakes| && forall j | 0 <= j < k :: mustWait(Seen(q, wakes, j)) && !Disturbed(wakes[j])
  }

  lemma {:induction false} SeenRest<T>(q: Fifo<T>, wakes: seq<Wake<T>>, k: nat)
    requires wakes != [] && k < |wakes|
    ensures Seen(Run(q, wakes[0].others), wakes[1..], k) == Seen(q, wakes, k + 1)
    decreases k
  {
    if k > 0 { SeenRest(q, wakes, k - 1); }
  }

  lemma WaitedRest<T>(q: Fifo<T>, wakes: seq<Wake<T>>, k: nat, mustWait: Fifo<T> -> bool)
    requires wakes != [] && mustWait(q) && !Disturbed(wakes[0])
    requires Waited(Run(q, wakes[0].others), wakes[1..], k, mustWait)
    ensures Waited(q, wakes, k + 1, mustWait)
    ensures Seen(Run(q, wakes[0].others), wakes[1..], k) == Seen(q, wakes, k + 1)
  {
    SeenRest(q, wakes, k);
    forall j | 0 <= j < k + 1 ensures mustWait(Seen(q, wakes, j)) && !Disturbed(wakes[j]) {
      if j > 0 { SeenRest(q, wakes, j - 1); }
    }
  }

  lemma NoWaits<T>(q: Fifo<T>, wakes: seq<Wake<T>>, mustWait: Fifo<T> -> bool)
    ensures Waited(q, wakes, 0, mustWait) && Seen(q, wakes, 0) == q
  {}

  lemma WaitedWithin<T>(q: Fifo<T>, wakes: seq<Wake<T>>, k: nat, mustWait: Fifo<T> -> bool)
    requires Waited(q, wakes, k, mustWait)
    ensures k <= |wakes|
  {}

  /** What a disturbed wait reports. */
  function GaveUp<T>(w: Wake<T>, timeout: int): QueueResult {
    if w.timedOut && timeout > 0 then QueueTimeout else QueueSystem
  }

  /** Which answer a pop gives, for every schedule. After some number `k` of undisturbed waits on an empty open
      queue it finds an item and returns it, or finds the queue closed and says so; or it must not or cannot
      wait on: TIMEOUT at once if the timeout is zero, the reason if its next wait is disturbed. */
  lemma {:induction false} PopAnswers<T>(q: Fifo<T>, timeout: int, wakes: seq<Wake<T>>) returns (k: nat)
    ensures Waited(q, wakes, k, Starved)
    ensures var (r, result, x) := PopFrom(q, timeout, wakes);
            var s := Seen(q, wakes, k);
            && (s.items != [] ==> result == Some(QueueOk) && x == Some(s.items[0]) && r == Take(s))
            && (s.items == [] && s.closed ==> result == Some(QueueClosed) && x == None && r == s)
            && (Starved(s) ==> x == None)
            && (Starved(s) && timeout == 0 ==> k == 0 && result == Some(QueueTimeout) && r == q)
            && (Starved(s) && timeout != 0 && k == |wakes| ==> result == None && r == s)
            && (Starved(s) && timeout != 0 && k < |wakes| ==>
                  Disturbed(wakes[k]) && result == Some(GaveUp(wakes[k], timeout)) && r == Seen(q, wakes, k + 1))
            && (timeout == 0 ==> k == 0)
    decreases |wakes|
  {
    hide Run, Take, Waited;
    k := 0;
    NoWaits(q, wakes, Starved);
    if Starved(q) && timeout != 0 && wakes != [] && !Disturbed(wakes[0]) {
      var n := PopAnswers(Run(q, wakes[0].others), timeout, wakes[1..]);
      WaitedRest(q, wakes, n, Starved);
      WaitedWithin(q, wakes, n + 1, Starved);
      if n < |wakes| - 1 { SeenRest(q, wakes, n + 1); }
      k := n + 1;
    }
  }

  /** The same for a push: it waits on a full open queue, and a closed queue refuses it even if there is room. */
  lemma {:induction false} PushAnswers<T>(q: Fifo<T>, x: T, timeout: int, wakes: seq<Wake<T>>) returns (k: nat)
    ensures Waited(q, wakes, k, Blocked)
    ensures var (r, result) := PushFrom(q, x, timeout, wakes);
            var s := Seen(q, wakes, k);
            && (s.closed ==> result == Some(QueueClosed) && r == s)
            && (!s.closed && !s.Full() ==> result == Some(QueueOk) && r == Put(s, x))
            && (Blocked(s) && timeout == 0 ==> k == 0 && result == Some(QueueTimeout) && r == q)
            && (Blocked(s) && timeout != 0 && k == |wakes| ==> result == None && r == s)
            && (Blocked(s) && timeout != 0 && k < |wakes| ==>
                  Disturbed(wakes[k]) && result == Some(GaveUp(wakes[k], timeout)) && r == Seen(q, wakes, k + 1))
            && (timeout == 0 ==> k == 0)
    decreases |wakes|
  {
    hide Run, Put, Waited;
    k := 0;
    NoWaits(q, wakes, Blocked);
    if Blocked(q) && timeout != 0 && wakes != [] && !Disturbed(wakes[0]) {
      var n := PushAnswers(Run(q, wakes[0].others), x, timeout, wakes[1..]);
      WaitedRest(q, wakes, n, Blocked);
      WaitedWithin(q, wakes, n + 1, Blocked);
      if n < |wakes| - 1 { SeenRest(q, wakes, n + 1); }
      k := n + 1;
    }
  }

  /** A wait that nothing disturbs ends only with an item or with the close, and goes on only while the queue
      is empty and open; a pop that must not wait times out exactly when it would have to. */
  lemma UndisturbedPop<T>(q: Fifo<T>, timeout: int, wakes: seq<Wake<T>>)
    ensures var (r, result, x) := PopFrom(q, timeout, wakes);
            && (timeout != 0 && (forall j | 0 <= j < |wakes| :: !Disturbed(wakes[j])) ==>
                  && (result.None? ==> Starved(r))
                  && (result.Some? ==> result.value in {QueueOk, QueueClosed}))
            && (timeout == 0 ==> (result == Some(QueueTimeout) <==> Starved(q)))
  {
    var k := PopAnswers(q, timeout, wakes);
    hide PopFrom;
  }

  lemma UndisturbedPush<T>(q: Fifo<T>, x: T, timeout: int, wakes: seq<Wake<T>>)
    ensures var (r, result) := PushFrom(q, x, timeout, wakes);
            && (timeout != 0 && (forall j | 0 <= j < |wakes| :: !Disturbed(wakes[j])) ==>
                  && (result.None? ==> Blocked(r))
                  && (result.Some? ==> result.value in {QueueOk, QueueClosed}))
            && (timeout == 0 ==> (result == Some(QueueTimeout) <==> Blocked(q)))
  {
    var k := PushAnswers(q, x, timeout, wakes);
    hide PushFrom;
  }

  /** A call that finds what it needs, or has nobody to wait for. */
  lemma PopNow<T>(q: Fifo<T>, timeout: int)
    ensures q.items != [] ==> PopFrom(q, timeout, []) == (Take(q), Some(QueueOk), Some(q.items[0]))
    ensures q.items == [] ==>
              PopFrom(q, timeout, []) == (q, if q.closed then Some(QueueClosed) else if timeout == 0 then Some(QueueTimeout) else None, None)
  {}

  lemma PushNow<T>(q: Fifo<T>, x: T, timeout: int)
    ensures !q.closed && !q.Full() ==> PushFrom(q, x, timeout, []) == (Put(q, x), Some(QueueOk))
    ensures q.closed || q.Full() ==>
              PushFrom(q, x, timeout, []) == (q, if q.closed then Some(QueueClosed) else if timeout == 0 then Some(QueueTimeout) else None)
  {}

  /** A worker that calls pop until it reports the close. */
  function PopAll<T>(q: Fifo<T>, timeout: int, calls: nat): (seq<T>, Option<QueueResult>)
    decreases calls
  {
    if calls == 0 then ([], None)
    else
      var (r, result, x) := PopFrom(q, timeout, []);
      if x.None? then ([], result)
      else
        var (rest, last) := PopAll(r, timeout, calls - 1);
        ([x.value] + rest, last)
  }

  /** Once the queue is closed, one call for each item left hands out all of them in order, and the next one
      reports the close: this is how the workers come to their end. */
  lemma {:induction false} ClosedQueueDrains<T>(q: Fifo<T>, timeout: int)
    requires q.closed
    ensures PopAll(q, timeout, |q.items| + 1) == (q.items, Some(QueueClosed))
    decreases |q.items|
  {
    var n := |q.items|;
    if n > 0 {
      ClosedQueueDrains(Take(q), timeout);
      assert PopAll(q, timeout, n + 1) == ([q.items[0]] + PopAll(Take(q), timeout, n).0, PopAll(Take(q), timeout, n).1);
      assert q.items == [q.items[0]] + q.items[1..];
    }
  }

  // ---------------------------------------------------------------- the byte ring

  /** Position `x` steps around a ring; `x` is less than twice the capacity. */
  function Wrap(x: nat, capacity: nat): nat
    requires x < 2 * capacity
  {
    if x < capacity then x else x - capacity
  }

  /** The slot after `x`, computed as the source does. */
  function Next(x: nat, capacity: nat): (next: nat)
    requires x < capacity
    ensures next == Wrap(x + 1, capacity)
  {
    assert x + 1 < capacity ==> (x + 1) % capacity == x + 1;
    (x + 1) % capacity
  }

  /** The byte offset of slot `i`. */
  function Offset(i: nat, width: nat): nat { i * width }

  /** Slots are laid out one after the other. */
  lemma {:induction false} SlotsApart(i: nat, j: nat, width: nat)
    requires i < j
    ensures Offset(i, width) + width <= Offset(j, width)
    decreases j
  {
    if i + 1 < j { SlotsApart(i, j - 1, width); }
    assert Offset(j, width) == Offset(j - 1, width) + width;
  }

  /** The shape every ring keeps. */
  predicate Shaped(bytes: nat, capacity: nat, width: nat, head: nat, size: nat) {
    capacity > 0 && width > 0 && bytes == Offset(capacity, width) && head < capacity && size <= capacity
  }

  function Slot(bytes: seq<Byte>, i: nat, capacity: nat, width: nat): (x: Item)
    requires Shaped(|bytes|, capacity, width, 0, 0) && i < capacity
    ensures |x| == width
  {
    SlotsApart(i, capacity, width);
    bytes[Offset(i, width)..Offset(i, width) + width]
  }

  /** The elements in the ring, oldest first. */
  function Items(bytes: seq<Byte>, capacity: nat, width: nat, head: nat, size: nat): (items: seq<Item>)
    requires Shaped(|bytes|, capacity, width, head, size)
    ensures |items| == size
    ensures forall k | 0 <= k < size :: items[k] == Slot(bytes, Wrap(head + k, capacity), capacity, width)
  {
    seq(size, k requires 0 <= k < size => Slot(bytes, Wrap(head + k, capacity), capacity, width))
  }

  /** `after` is `before` with the bytes of slot `i` replaced by `item`. */
  ghost predicate Written(before: seq<Byte>, after: seq<Byte>, i: nat, width: nat, item: Item) {
    && |before| == |after| && |item| == width && Offset(i, width) + width <= |after|
    && after[Offset(i, width)..Offset(i, width) + width] == item
    && after[..Offset(i, width)] == before[..Offset(i, width)]
    && after[Offset(i, width) + width..] == before[Offset(i, width) + width..]
  }

  lemma SliceSame<T>(a: seq<T>, b: seq<T>, lo: nat, hi: nat, i: nat, j: nat)
    requires |a| == |b| && lo <= hi <= |a| && a[..lo] == b[..lo] && a[hi..] == b[hi..]
    requires i <= j <= |a| && (j <= lo || hi <= i)
    ensures a[i..j] == b[i..j]
  {
    forall k | i <= k < j ensures a[k] == b[k] {
      if k < lo {
        assert a[k] == a[..lo][k] == b[..lo][k];
      } else {
        assert a[k] == a[hi..][k - hi] == b[hi..][k - hi];
      }
    }
  }

  lemma OtherSlotsKept(before: seq<Byte>, after: seq<Byte>, i: nat, j: nat, capacity: nat, width: nat, item: Item)
    requires Shaped(|before|, capacity, width, 0, 0) && i < capacity && j < capacity && i != j
    requires Written(before, after, i, width, item)
    ensures Slot(after, j, capacity, width) == Slot(before, j, capacity, width)
  {
    hide Offset;
    SlotsApart(j, capacity, width);
    if j < i { SlotsApart(j, i, width); } else { SlotsApart(i, j, width); }
    SliceSame(after, before, Offset(i, width), Offset(i, width) + width, Offset(j, width), Offset(j, width) + width);
  }

  /** Writing the tail slot appends. */
  lemma WriteAppends(before: seq<Byte>, after: seq<Byte>, capacity: nat, width: nat, head: nat, size: nat, item: Item)
    requires Shaped(|before|, capacity, width, head, size) && size < capacity
    requires Written(before, after, Wrap(head + size, capacity), width, item)
    ensures Items(after, capacity, width, head, size + 1) == Items(before, capacity, width, head, size) + [item]
  {
    hide Offset;
    var tail := Wrap(head + size, capacity);
    var old', new' := Items(before, capacity, width, head, size), Items(after, capacity, width, head, size + 1);
    forall k | 0 <= k < size ensures new'[k] == old'[k] {
      OtherSlotsKept(before, after, tail, Wrap(head + k, capacity), capacity, width, item);
    }
    assert new'[size] == Slot(after, tail, capacity, width) == item;
  }

  /** Moving the head drops the oldest. */
  lemma AdvanceDrops(bytes: seq<Byte>, capacity: nat, width: nat, head: nat, size: nat)
    requires Shaped(|bytes|, capacity, width, head, size) && size > 0
    ensures Wrap(head + 1, capacity) < capacity
    ensures Items(bytes, capacity, width, Wrap(head + 1, capacity), size - 1) == Items(bytes, capacity, width, head, size)[1..]
    ensures Wrap(Wrap(head + 1, capacity) + (size - 1), capacity) == Wrap(head + size, capacity)
  {
    var next := Wrap(head + 1, capacity);
    var old', new' := Items(bytes, capacity, width, head, size), Items(bytes, capacity, width, next, size - 1);
    forall k | 0 <= k < size - 1 ensures new'[k] == old'[1..][k] {
      assert Wrap(next + k, capacity) == Wrap(head + (k + 1), capacity);
    }
  }

  class Ring {
    const buffer: array<Byte>
    const capacity: nat
    const width: nat
    var head: nat
    var tail: nat
    var size: nat
    var closed: bool
    ghost var pushed: seq<Item>
    ghost var popped: seq<Item>

    ghost predicate Shape()
      reads this
    {
      && Shaped(buffer.Length, capacity, width, head, size)
      && tail == Wrap(head + size, capacity)
    }

    /** The queue the ring stands for. */
    ghost function Abs(): Fifo<Item>
      requires Shape()
      reads this, buffer
    {
      Fifo(capacity, Items(buffer[..], capacity, width, head, size), closed, pushed, popped)
    }

    ghost predicate Valid()
      reads this, buffer
    {
      Shape() && Abs().Valid()
    }

    constructor (capacity: nat, width: nat)
      requires capacity > 0 && width > 0
      ensures Valid() && fresh(buffer)
      ensures Abs() == Fifo(capacity, [], false, [], []) && this.width == width
    {
      this.capacity, this.width := capacity, width;
      buffer := new Byte[Offset(capacity, width)];
      head, tail, size, closed := 0, 0, 0, false;
      pushed, popped := [], [];
    }

    /** The last part of bq_push: copy the item to the tail slot and move the tail. */
    method Store(item: Item)
      requires Valid() && !closed && size < capacity && |item| == width
      modifies this, buffer
      ensures Valid()
      ensures Abs() == Put(old(Abs()), item)
    {
      hide Offset, Items;
      ghost var before := buffer[..];
      CopyIn(item);
      WriteAppends(before, buffer[..], capacity, width, head, size, item);
      tail := Next(tail, capacity);
      size := size + 1;
      pushed := pushed + [item];
      assert popped + old(Abs().items) + [item] == popped + (old(Abs().items) + [item]);
    }

    /** memcpy into the tail slot. */
    method CopyIn(item: Item)
      requires Shape() && size < capacity && |item| == width
      modifies buffer
      ensures Written(old(buffer[..]), buffer[..], tail, width, item)
    {
      hide Offset;
      SlotsApart(tail, capacity, width);
      var base := Offset(tail, width);
      forall i | 0 <= i < width { buffer[base + i] := item[i]; }
    }

    /** The last part of bq_pop: copy the head slot out and move the head. */
    method Fetch() returns (item: Item)
      requires Valid() && size > 0
      modifies this
      ensures Valid()
      ensures old(Abs()).items != [] && item == old(Abs()).items[0]
      ensures Abs() == Take(old(Abs()))
    {
      hide Offset, Items, Slot, Wrap, Next;
      item := CopyOut();
      ghost var items := Abs().items;
      AdvanceDrops(buffer[..], capacity, width, head, size);
      assert popped + items == (popped + [item]) + items[1..];
      head := Next(head, capacity);
      size := size - 1;
      popped := popped + [item];
      assert Abs().items == items[1..];
    }

    /** memcpy out of the head slot. */
    method CopyOut() returns (item: Item)
      requires Shape() && size > 0
      ensures item == Abs().items[0]
    {
      SlotsApart(head, capacity, width);
      item := buffer[Offset(head, width)..Offset(head, width) + width];
      assert item == Slot(buffer[..], Wrap(head + 0, capacity), capacity, width);
    }

    /** Steps of other threads while this one waits with the mutex released. */
    method Others(ops: seq<Op<Item>>)
      requires Valid() && Sized(ops, width)
      modifies this, buffer
      ensures Valid() && Abs() == Run(old(Abs()), ops)
    {
      hide Items, Offset;
      for k := 0 to |ops|
        invariant Valid()
        invariant Run(Abs(), ops[k..]) == Run(old(Abs()), ops)
      {
        assert ops[k..][0] == ops[k] && ops[k..][1..] == ops[k + 1..];
        match ops[k] {
          case OpPush(x) =>
            if !closed && size < capacity { Store(x); }
          case OpPop =>
            if size > 0 { var x := Fetch(); }
          case OpClose =>
            closed := true;
        }
      }
    }

    /** bq_push. `clockOk` says whether the deadline could be computed. */
    method Push(item: Item, timeout: int, clockOk: bool, wakes: seq<Wake<Item>>)
      returns (result: Option<QueueResult>)
      requires Valid() && |item| == width && forall k | 0 <= k < |wakes| :: Sized(wakes[k].others, width)
      modifies this, buffer
      ensures Valid()
      ensures if !old(closed) && timeout > 0 && !clockOk
              then result == Some(QueueSystem) && Abs() == old(Abs())
              else (Abs(), result) == PushFrom(old(Abs()), item, timeout, wakes)
    {
      hide Items, Offset;
      if closed {
        return Some(QueueClosed);
      }
      if timeout > 0 && !clockOk {
        return Some(QueueSystem);
      }
      var w := 0;
      while size == capacity && !closed
        invariant Valid() && w <= |wakes|
        invariant PushFrom(Abs(), item, timeout, wakes[w..]) == PushFrom(old(Abs()), item, timeout, wakes)
        decreases |wakes| - w
      {
        if timeout == 0 {
          return Some(QueueTimeout);
        }
        if w == |wakes| {
          return None;
        }
        assert wakes[w..][0] == wakes[w] && wakes[w..][1..] == wakes[w + 1..];
        Others(wakes[w].others);
        if wakes[w].timedOut && timeout > 0 {
          return Some(QueueTimeout);
        }
        if wakes[w].timedOut || wakes[w].failed {
          return Some(QueueSystem);
        }
        w := w + 1;
      }
      if closed {
        return Some(QueueClosed);
      }
      Store(item);
      return Some(QueueOk);
    }

    /** bq_pop. */
    method Pop(timeout: int, clockOk: bool, wakes: seq<Wake<Item>>)
      returns (result: Option<QueueResult>, item: Option<Item>)
      requires Valid() && forall k | 0 <= k < |wakes| :: Sized(wakes[k].others, width)
      modifies this, buffer
      ensures Valid()
      ensures if timeout > 0 && !clockOk
              then result == Some(QueueSystem) && item == None && Abs() == old(Abs())
              else (Abs(), result, item) == PopFrom(old(Abs()), timeout, wakes)
    {
      hide Items, Offset;
      if timeout > 0 && !clockOk {
        return Some(QueueSystem), None;
      }
      var w := 0;
      while size == 0 && !closed
        invariant Valid() && w <= |wakes|
        invariant PopFrom(Abs(), timeout, wakes[w..]) == PopFrom(old(Abs()), timeout, wakes)
        decreases |wakes| - w
      {
        if timeout == 0 {
          return Some(QueueTimeout), None;
        }
        if w == |wakes| {
          return None, None;
        }
        assert wakes[w..][0] == wakes[w] && wakes[w..][1..] == wakes[w + 1..];
        Others(wakes[w].others);
        if wakes[w].timedOut && timeout > 0 {
          return Some(QueueTimeout), None;
        }
        if wakes[w].timedOut || wakes[w].failed {
          return Some(QueueSystem), None;
        }
        w := w + 1;
      }
      if closed && size == 0 {
        return Some(QueueClosed), None;
      }
      var x := Fetch();
      return Some(QueueOk), Some(x);
    }

    /** bq_close. */
    method Close()
      requires Valid()
      modifies this`closed
      ensures Valid() && Abs() == Apply(old(Abs()), OpClose)
    {
      closed := true;
    }
  }

  /** Every item is one element wide. */
  predicate Sized(ops: seq<Op<Item>>, width: nat) {
    forall k | 0 <= k < |ops| && ops[k].OpPush? :: |ops[k].item| == width
  }
}
