/**
 The synchronous QoS 1 publisher of modules/mqtt/mqtt_publisher.c: callers wait for the acknowledgement
 that a network thread reports through callbacks. Each stretch of code that holds the publisher's mutex
 is one atomic step.

 The MQTT library is represented by what it promises: a publication gets a positive packet id that no
 unacknowledged publication uses and whose callback is not still to come, and a callback for a packet id
 follows an acknowledgement of it (section 4.3.2 of MQTT 3.1.1).
 */
module Publisher {
  import opened Common
  import opened Measurements

  datatype PublishResult = PublishOk | PublishLibraryError | PublishNotConnected | PublishTimeout | PublishInvalid

  datatype Connection = Stopped | Connecting | Connected | Disconnected | Stopping

  datatype Message = Message(topic: string, payload: Json)

  /** The library and the broker: everything ever handed over, in order, and what was acknowledged. */
  datatype Library = Library(published: seq<Message>, unacked: map<int, nat>, callbacks: map<int, nat>, acked: set<nat>)

  /** A caller that waits for the acknowledgement of publication `index`. */
  datatype Wait = Wait(message: Message, index: nat)

  /** `expected` is -1 when nobody waits. `waiting` is the holder of publish_mutex inside its wait. */
  datatype State = State(
    connection: Connection, expected: int, completed: bool, waiting: Option<Wait>, library: Library)

  // ---------------------------------------------------------------- steps of the network thread

  datatype Event =
    | Puback(mid: int)            // the broker acknowledges; the callback is still to come
    | Callback(mid: int)          // on_publish
    | Forget(mid: int)            // the library gives a message up
    | ConnectResult(ok: bool)     // on_connect
    | ConnectionLost              // on_disconnect
    | StopRequested | StopDone    // mqtt_publisher_stop

  function Acknowledge(l: Library, mid: int): Library {
    if mid !in l.unacked then l
    else
      var index := l.unacked[mid];
      l.(unacked := l.unacked - {mid}, callbacks := l.callbacks[mid := index], acked := l.acked + {index})
  }

  function Handle(p: State, e: Event): State {
    match e
    case Puback(mid) => p.(library := Acknowledge(p.library, mid))
    case Callback(mid) =>
      if mid !in p.library.callbacks then p
      else
        p.(library := p.library.(callbacks := p.library.callbacks - {mid}),
           completed := p.completed || mid == p.expected)
    case Forget(mid) => p.(library := p.library.(unacked := p.library.unacked - {mid}))
    case ConnectResult(ok) =>
      if p.connection == Stopping then p else p.(connection := if ok then Connected else Disconnected)
    case ConnectionLost => p.(connection := if p.connection == Stopping then Stopped else Disconnected)
    case StopRequested => if p.connection == Stopped then p else p.(connection := Stopping)
    case StopDone => p.(connection := Stopped)
  }

  function HandleAll(p: State, events: seq<Event>): State
    decreases |events|
  {
    if events == [] then p else HandleAll(Handle(p, events[0]), events[1..])
  }

  // ---------------------------------------------------------------- steps of a publishing thread

  /** What mosquitto_publish answers: a packet id, or a failure. */
  datatype Accepted = Accepted(mid: int) | NoConnection | Refused

  predicate FreshId(l: Library, mid: int) { mid > 0 && mid !in l.unacked && mid !in l.callbacks }

  /** From locking publish_mutex to the first wait or the return. `None` means the caller waits. */
  function Begin(p: State, m: Message, answer: Accepted): (State, Option<PublishResult>)
    requires p.waiting.None?
    requires answer.Accepted? ==> FreshId(p.library, answer.mid)
  {
    if p.connection != Connected then (p.(expected := -1), Some(PublishNotConnected))
    else
      match answer
      case NoConnection => (p.(expected := -1, completed := false), Some(PublishNotConnected))
      case Refused => (p.(expected := -1, completed := false), Some(PublishLibraryError))
      case Accepted(mid) =>
        var index := |p.library.published|;
        (p.(expected := mid, completed := false, waiting := Some(Wait(m, index)),
            library := p.library.(published := p.library.published + [m],
                                  unacked := p.library.unacked[mid := index])), None)
  }

  /** What a caller that wakes up from the condition variable returns, if it returns. */
  function Woken(p: State, timedOut: bool, failed: bool): Option<PublishResult> {
    if timedOut then Some(PublishTimeout)
    else if failed then Some(PublishLibraryError)
    else if p.completed then Some(PublishOk)
    else if p.connection != Connected then Some(PublishNotConnected)
    else None
  }

  function Leave(p: State): State { p.(expected := -1, waiting := None) }

  // ---------------------------------------------------------------- what every interleaving keeps

  ghost predicate LibraryOk(l: Library) {
    && (forall m | m in l.unacked :: m > 0 && l.unacked[m] < |l.published|)
    && (forall m | m in l.callbacks :: m > 0 && l.callbacks[m] in l.acked)
    && (forall i | i in l.acked :: i < |l.published|)
    && l.unacked.Keys !! l.callbacks.Keys
  }

  ghost predicate Sound(p: State) {
    && LibraryOk(p.library)
    && (p.waiting.None? ==> p.expected == -1)
    && (p.waiting.Some? ==>
          var w := p.waiting.value;
          && p.expected > 0
          && w.index < |p.library.published| && p.library.published[w.index] == w.message
          && (p.expected in p.library.unacked ==> p.library.unacked[p.expected] == w.index)
          && (p.expected in p.library.callbacks ==> p.library.callbacks[p.expected] == w.index)
          && (p.completed ==> w.index in p.library.acked))
  }

  /** Publications and acknowledgements are never taken back. */
  ghost predicate Grows(l: Library, k: Library) {
    l.published <= k.published && l.acked <= k.acked
  }

  lemma HandleKeeps(p: State, e: Event)
    requires Sound(p)
    ensures Sound(Handle(p, e)) && Handle(p, e).waiting == p.waiting
    ensures Grows(p.library, Handle(p, e).library) && Handle(p, e).library.published == p.library.published
  {}

  lemma {:induction false} HandleAllKeeps(p: State, events: seq<Event>)
    requires Sound(p)
    ensures Sound(HandleAll(p, events)) && HandleAll(p, events).waiting == p.waiting
    ensures Grows(p.library, HandleAll(p, events).library)
    ensures HandleAll(p, events).library.published == p.library.published
    decreases |events|
  {
    if events != [] {
      HandleKeeps(p, events[0]);
      HandleAllKeeps(Handle(p, events[0]), events[1..]);
    }
  }

  lemma BeginKeeps(p: State, m: Message, answer: Accepted)
    requires Sound(p) && p.waiting.None?
    requires answer.Accepted? ==> FreshId(p.library, answer.mid)
    ensures var (q, result) := Begin(p, m, answer);
            && Sound(q) && Grows(p.library, q.library)
            && result != Some(PublishOk)
            && (result.None? <==> q.waiting.Some?)
            && (result.None? ==> q.waiting == Some(Wait(m, |p.library.published|)))
  {}

  /** A caller that is told PUBACK arrived holds the acknowledgement of its own publication. */
  lemma OkMeansAcknowledged(p: State, timedOut: bool, failed: bool)
    requires Sound(p) && p.waiting.Some?
    ensures Woken(p, timedOut, failed) == Some(PublishOk) ==>
              var w := p.waiting.value;
              && w.index in p.library.acked && w.index < |p.library.published|
              && p.library.published[w.index] == w.message
    ensures Sound(Leave(p)) && Leave(p).library == p.library
  {}

  // ---------------------------------------------------------------- a whole call

  /** How one wait on the condition variable ends, and what the network thread did meanwhile. */
  datatype Wake = Wake(events: seq<Event>, timedOut: bool, failed: bool)

  /** The wait loop. `None` means the caller still waits at the end of the schedule. */
  function WaitFrom(p: State, wakes: seq<Wake>): (State, Option<PublishResult>)
    decreases |wakes|
  {
    if Woken(p, false, false).Some? then (Leave(p), Woken(p, false, false))
    else if wakes == [] then (p, None)
    else
      var q := HandleAll(p, wakes[0].events);
      if wakes[0].timedOut || wakes[0].failed then
        (Leave(q), Woken(q, wakes[0].timedOut, wakes[0].failed))
      else WaitFrom(q, wakes[1..])
  }

  lemma {:induction false} WaitKeeps(p: State, wakes: seq<Wake>)
    requires Sound(p) && p.waiting.Some?
    ensures var (q, result) := WaitFrom(p, wakes);
            && Sound(q) && Grows(p.library, q.library)
            && q.library.published == p.library.published
            && (result == Some(PublishOk) ==> p.waiting.value.index in q.library.acked)
            && (result.Some? <==> q.waiting.None?)
    decreases |wakes|
  {
    if Woken(p, false, false).None? && wakes != [] {
      HandleAllKeeps(p, wakes[0].events);
      if !wakes[0].timedOut && !wakes[0].failed {
        WaitKeeps(HandleAll(p, wakes[0].events), wakes[1..]);
      }
    }
  }

  /** Under every schedule of callbacks, disconnects, timeouts and late acknowledgements of earlier
      messages, a publish call that reports success was acknowledged: the message it was given is a
      publication of this very call, and the broker acknowledged that publication. */
  lemma PublishIsSound(p: State, m: Message, answer: Accepted, wakes: seq<Wake>)
    requires Sound(p) && p.waiting.None?
    requires answer.Accepted? ==> FreshId(p.library, answer.mid)
    ensures var (q, result) := PublishCall(p, m, answer, wakes);
            && Sound(q) && Grows(p.library, q.library)
            && (result == Some(PublishOk) ==>
                  && |q.library.published| == |p.library.published| + 1
                  && q.library.published[|p.library.published|] == m
                  && |p.library.published| in q.library.acked)
  {
    BeginKeeps(p, m, answer);
    var (q, result) := Begin(p, m, answer);
    if result.None? { WaitKeeps(q, wakes); }
  }

  function PublishCall(p: State, m: Message, answer: Accepted, wakes: seq<Wake>): (State, Option<PublishResult>)
    requires p.waiting.None?
    requires answer.Accepted? ==> FreshId(p.library, answer.mid)
  {
    var (q, result) := Begin(p, m, answer);
    if result.Some? then (q, result) else WaitFrom(q, wakes)
  }

  // ---------------------------------------------------------------- which answer is given

  lemma {:induction false} HandleSnoc(p: State, events: seq<Event>)
    requires events != []
    ensures HandleAll(p, events) == Handle(HandleAll(p, events[..|events| - 1]), events[|events| - 1])
    decreases |events|
  {
    hide Handle;
    if |events| > 1 {
      var init, rest := events[..|events| - 1], events[1..];
      assert init[0] == events[0] && init[1..] == rest[..|rest| - 1] && rest[|rest| - 1] == events[|events| - 1];
      HandleSnoc(Handle(p, events[0]), rest);
    } else {
      assert events[..0] == [] && events[1..] == [];
    }
  }

  /** The event leaves the connection unusable. */
  predicate Breaks(e: Event) { e == ConnectionLost || e == ConnectResult(false) || e == StopRequested || e == StopDone }

  /** After any events the connection is usable if and only if it was made, or was there, and nothing broke it
      since; and one that is being taken down is not made again. */
  lemma {:induction false} ConnectedIff(p: State, events: seq<Event>)
    ensures HandleAll(p, events).connection == Connected <==>
              || (p.connection == Connected && forall j | 0 <= j < |events| :: !Breaks(events[j]))
              || (exists k :: 0 <= k < |events| && events[k] == ConnectResult(true)
                              && HandleAll(p, events[..k]).connection != Stopping
                              && forall j | k < j < |events| :: !Breaks(events[j]))
    decreases |events|
  {
    if events != [] {
      var n := |events| - 1;
      var init, last := events[..n], events[n];
      HandleSnoc(p, events);
      ConnectedIff(p, init);
      hide HandleAll;
      forall k | 0 <= k < n ensures init[..k] == events[..k] && init[k] == events[k] {}
      if last == ConnectResult(true) && HandleAll(p, init).connection != Stopping {
        assert events[..n] == init;
      } else if Breaks(last) {
        assert !(forall j | 0 <= j < |events| :: !Breaks(events[j]));
      } else {
        assert (forall j | 0 <= j < |events| :: !Breaks(events[j])) <==> (forall j | 0 <= j < n :: !Breaks(init[j]));
        StillConnected(p, events);
      }
    }
  }

  lemma StillConnected(p: State, events: seq<Event>)
    requires events != [] && !Breaks(events[|events| - 1])
    requires events[|events| - 1] != ConnectResult(true) || HandleAll(p, events[..|events| - 1]).connection == Stopping
    ensures (exists k :: 0 <= k < |events| && events[k] == ConnectResult(true)
                         && HandleAll(p, events[..k]).connection != Stopping
                         && forall j | k < j < |events| :: !Breaks(events[j]))
            <==> var init := events[..|events| - 1];
                 exists k :: 0 <= k < |init| && init[k] == ConnectResult(true)
                             && HandleAll(p, init[..k]).connection != Stopping
                             && forall j | k < j < |init| :: !Breaks(init[j])
  {
    hide HandleAll;
    var n := |events| - 1;
    var init := events[..n];
    if k: int :| 0 <= k < |events| && events[k] == ConnectResult(true)
                 && HandleAll(p, events[..k]).connection != Stopping && forall j | k < j < |events| :: !Breaks(events[j]) {
      assert k != n;
      assert init[..k] == events[..k] && init[k] == events[k];
    }
    if k: int :| 0 <= k < |init| && init[k] == ConnectResult(true)
                 && HandleAll(p, init[..k]).connection != Stopping && forall j | k < j < |init| :: !Breaks(init[j]) {
      assert init[..k] == events[..k] && init[k] == events[k];
    }
  }

  /** The wait is completed if and only if a callback for its own packet id has come. */
  lemma {:induction false} CompletedIff(p: State, events: seq<Event>)
    ensures HandleAll(p, events).expected == p.expected
    ensures HandleAll(p, events).completed <==>
              p.completed || exists k :: 0 <= k < |events| && events[k] == Callback(p.expected)
                                         && p.expected in HandleAll(p, events[..k]).library.callbacks
    decreases |events|
  {
    if events != [] {
      var n := |events| - 1;
      var init := events[..n];
      HandleSnoc(p, events);
      CompletedIff(p, init);
      hide HandleAll;
      forall k | 0 <= k < n ensures init[..k] == events[..k] && init[k] == events[k] {}
      if k: int :| 0 <= k < |events| && events[k] == Callback(p.expected) && p.expected in HandleAll(p, events[..k]).library.callbacks {
        if k < n {
          assert init[k] == Callback(p.expected) && p.expected in HandleAll(p, init[..k]).library.callbacks;
        } else {
          assert HandleAll(p, init).completed || p.expected in HandleAll(p, init).library.callbacks;
        }
      }
      if HandleAll(p, events).completed && !p.completed {
        if HandleAll(p, init).completed {
          var k :| 0 <= k < n && init[k] == Callback(p.expected) && p.expected in HandleAll(p, init[..k]).library.callbacks;
          assert events[k] == Callback(p.expected) && p.expected in HandleAll(p, events[..k]).library.callbacks;
        } else {
          assert events[n] == Callback(p.expected) && events[..n] == init;
        }
      }
    }
  }

  /** Event `k` is the broker's acknowledgement of publication `i`. */
  predicate Acknowledges(p: State, events: seq<Event>, k: nat, i: nat)
    requires k < |events|
  {
    && events[k].Puback?
    && var unacked := HandleAll(p, events[..k]).library.unacked;
       events[k].mid in unacked && unacked[events[k].mid] == i
  }

  /** Exactly the publications whose packet ids the broker acknowledged while they were outstanding are
      acknowledged; one that the library has given up no longer can be. */
  lemma {:induction false} AcknowledgedIff(p: State, events: seq<Event>, i: nat)
    ensures i in HandleAll(p, events).library.acked <==>
              i in p.library.acked || exists k :: 0 <= k < |events| && Acknowledges(p, events, k, i)
    decreases |events|
  {
    if events != [] {
      var n := |events| - 1;
      var init := events[..n];
      HandleSnoc(p, events);
      AcknowledgedIff(p, init, i);
      assert Acknowledges(p, events, n, i) <==>
               events[n].Puback? && events[n].mid in HandleAll(p, init).library.unacked
               && HandleAll(p, init).library.unacked[events[n].mid] == i;
      hide HandleAll;
      forall k | 0 <= k < n ensures Acknowledges(p, init, k, i) <==> Acknowledges(p, events, k, i) {
        assert init[..k] == events[..k];
      }
      hide Acknowledges;
    }
  }

  lemma ForgottenIsNotAcknowledged(p: State, mid: int)
    ensures Handle(Handle(p, Forget(mid)), Puback(mid)).library.acked == p.library.acked
    ensures forall other | other != mid && other in p.library.unacked :: other in Handle(p, Forget(mid)).library.unacked
  {}

  /** The state in which the caller looks again after `k` waits. */
  function Seen(p: State, wakes: seq<Wake>, k: nat): State
    requires k <= |wakes|
    decreases k
  {
    if k == 0 then p else HandleAll(Seen(p, wakes, k - 1), wakes[k - 1].events)
  }

  predicate MustWait(p: State) { !p.completed && p.connection == Connected }

  ghost predicate Waited(p: State, wakes: seq<Wake>, k: nat) {
    k <= |wakes| && forall j | 0 <= j < k :: MustWait(Seen(p, wakes, j)) && !wakes[j].timedOut && !wakes[j].failed
  }

  lemma {:induction false} SeenRest(p: State, wakes: seq<Wake>, k: nat)
    requires wakes != [] && k < |wakes|
    ensures Seen(HandleAll(p, wakes[0].events), wakes[1..], k) == Seen(p, wakes, k + 1)
    decreases k
  {
    if k > 0 { SeenRest(p, wakes, k - 1); }
  }

  lemma WaitedRest(p: State, wakes: seq<Wake>, k: nat)
    requires wakes != [] && MustWait(p) && !wakes[0].timedOut && !wakes[0].failed
    requires Waited(HandleAll(p, wakes[0].events), wakes[1..], k)
    ensures Waited(p, wakes, k + 1)
    ensures Seen(HandleAll(p, wakes[0].events), wakes[1..], k) == Seen(p, wakes, k + 1)
  {
    hide HandleAll;
    SeenRest(p, wakes, k);
    forall j | 0 <= j < k + 1 ensures MustWait(Seen(p, wakes, j)) && !wakes[j].timedOut && !wakes[j].failed {
      if j > 0 { SeenRest(p, wakes, j - 1); }
    }
  }

  /** Which answer the wait gives, for every schedule. After some number of undisturbed waits it finds the
      acknowledgement there, even if the connection was lost after it, or finds the connection lost without
      it; or its next wait ends in a timeout or an error, and then nothing else counts. */
  lemma {:induction false} WaitAnswers(p: State, wakes: seq<Wake>) returns (k: nat)
    ensures Waited(p, wakes, k)
    ensures var (q, result) := WaitFrom(p, wakes);
            var s := Seen(p, wakes, k);
            && (s.completed ==> result == Some(PublishOk) && q == Leave(s))
            && (!s.completed && s.connection != Connected ==> result == Some(PublishNotConnected) && q == Leave(s))
            && (MustWait(s) && k == |wakes| ==> result == None && q == s)
            && (MustWait(s) && k < |wakes| ==>
                  && (wakes[k].timedOut || wakes[k].failed) && q == Leave(Seen(p, wakes, k + 1))
                  && result == Some(if wakes[k].timedOut then PublishTimeout else PublishLibraryError))
    decreases |wakes|
  {
    hide HandleAll;
    k := 0;
    if MustWait(p) && wakes != [] && !wakes[0].timedOut && !wakes[0].failed {
      var n := WaitAnswers(HandleAll(p, wakes[0].events), wakes[1..]);
      WaitedRest(p, wakes, n);
      if n < |wakes| - 1 { SeenRest(p, wakes, n + 1); }
      k := n + 1;
    }
  }

  /** A call that does not get to wait says why: without a connection nothing is handed to the library; the
      library's own refusal is told apart. */
  lemma BeginAnswers(p: State, m: Message, answer: Accepted)
    requires p.waiting.None? && (answer.Accepted? ==> FreshId(p.library, answer.mid))
    ensures var (q, result) := Begin(p, m, answer);
            && (result == Some(PublishNotConnected) <==> p.connection != Connected || answer == NoConnection)
            && (result == Some(PublishLibraryError) <==> p.connection == Connected && answer == Refused)
            && (result == None <==> p.connection == Connected && answer.Accepted?)
            && (result.Some? ==> q.library == p.library && q.expected == -1)
            && (result.None? ==> q.expected == answer.mid && !q.completed && q.connection == Connected
                                 && q.library.unacked == p.library.unacked[answer.mid := |p.library.published|])
  {}

  /** mqtt_publisher_stop: a publisher that is stopped stays so, any other is stopping until the disconnect or the
      end of the call, and is stopped then; a connection made meanwhile changes nothing. */
  lemma StopStops(p: State, ok: bool)
    ensures Handle(p, StopRequested).connection == (if p.connection == Stopped then Stopped else Stopping)
    ensures p.connection != Stopped ==>
              HandleAll(p, [StopRequested, ConnectResult(ok), ConnectionLost]).connection == Stopped
    ensures HandleAll(p, [StopRequested, StopDone]).connection == Stopped
    ensures p.connection != Stopping ==> Handle(p, ConnectionLost).connection == Disconnected
  {
    HandleTwo(p, StopRequested, StopDone);
    var q := Handle(p, StopRequested);
    HandleTwo(q, ConnectResult(ok), ConnectionLost);
    assert [StopRequested, ConnectResult(ok), ConnectionLost][1..] == [ConnectResult(ok), ConnectionLost];
  }

  lemma HandleTwo(p: State, a: Event, b: Event)
    ensures HandleAll(p, [a, b]) == Handle(Handle(p, a), b)
  {
    hide Handle;
    assert [a, b][1..] == [b] && [b][1..] == [];
    assert HandleAll(Handle(p, a), [b]) == Handle(Handle(p, a), b);
  }

  /** A connection that was lost is noticed: after the loss no call gets through until a new connection is made. */
  lemma LossIsNoticed(p: State, events: seq<Event>, m: Message, answer: Accepted)
    requires p.waiting.None? && (answer.Accepted? ==> FreshId(HandleAll(p, [ConnectionLost] + events).library, answer.mid))
    requires forall j | 0 <= j < |events| :: events[j] != ConnectResult(true)
    ensures HandleAll(p, [ConnectionLost] + events).waiting.None?
    ensures Begin(HandleAll(p, [ConnectionLost] + events), m, answer).1 == Some(PublishNotConnected)
  {
    var all := [ConnectionLost] + events;
    WaitingStays(p, all);
    ConnectedIff(p, all);
    hide HandleAll;
    assert all[0] == ConnectionLost && Breaks(all[0]);
    assert forall j | 0 < j < |all| :: all[j] == events[j - 1];
  }

  lemma {:induction false} WaitingStays(p: State, events: seq<Event>)
    ensures HandleAll(p, events).waiting == p.waiting
    decreases |events|
  {
    if events != [] { WaitingStays(Handle(p, events[0]), events[1..]); }
  }

  // ---------------------------------------------------------------- the code

  class MqttPublisher {
    var state: Connection
    var expectedMid: int
    var publishCompleted: bool
    var library: Library
    ghost var waiting: Option<Wait>

    ghost function Abs(): State
      reads this
    {
      State(state, expectedMid, publishCompleted, waiting, library)
    }

    constructor ()
      ensures Sound(Abs()) && waiting.None? && state == Stopped
    {
      state, expectedMid, publishCompleted := Stopped, -1, false;
      library := Library([], map[], map[], {});
      waiting := None;
    }

    method OnConnect(result: int)
      modifies this
      ensures Abs() == Handle(old(Abs()), ConnectResult(result == 0))
    {
      if state != Stopping {
        state := if result == 0 then Connected else Disconnected;
      }
    }

    method OnDisconnect()
      modifies this
      ensures Abs() == Handle(old(Abs()), ConnectionLost)
    {
      state := if state == Stopping then Stopped else Disconnected;
    }

    method OnPublish(mid: int)
      requires mid in library.callbacks
      modifies this
      ensures Abs() == Handle(old(Abs()), Callback(mid))
    {
      library := library.(callbacks := library.callbacks - {mid});
      if mid == expectedMid {
        publishCompleted := true;
      }
    }

    /** What the network thread does while a caller waits with the mutex released. */
    method Network(events: seq<Event>)
      modifies this
      ensures Abs() == HandleAll(old(Abs()), events)
    {
      for k := 0 to |events|
        invariant HandleAll(Abs(), events[k..]) == HandleAll(old(Abs()), events)
      {
        assert events[k..][0] == events[k] && events[k..][1..] == events[k + 1..];
        match events[k] {
          case Callback(mid) =>
            if mid in library.callbacks { OnPublish(mid); }
          case ConnectResult(ok) => OnConnect(if ok then 0 else 1);
          case ConnectionLost => OnDisconnect();
          case Puback(mid) => library := Acknowledge(library, mid);
          case Forget(mid) => library := library.(unacked := library.unacked - {mid});
          case StopRequested =>
            if state != Stopped { state := Stopping; }
          case StopDone => state := Stopped;
        }
      }
    }

    /** mqtt_publisher_publish_json, entered with publish_mutex free. */
    method PublishJson(topic: string, payload: Json, timeoutSeconds: int, clockOk: bool, answer: Accepted, wakes: seq<Wake>)
      returns (result: Option<PublishResult>)
      requires Sound(Abs()) && waiting.None?
      requires answer.Accepted? ==> FreshId(library, answer.mid)
      modifies this
      ensures topic == "" || payload == [] || timeoutSeconds <= 0 ==> result == Some(PublishInvalid) && Abs() == old(Abs())
      ensures topic != "" && payload != [] && timeoutSeconds > 0 && !clockOk ==>
                result == Some(PublishLibraryError) && Abs() == old(Abs())
      ensures topic != "" && payload != [] && timeoutSeconds > 0 && clockOk ==>
                (Abs(), result) == PublishCall(old(Abs()), Message(topic, payload), answer, wakes)
      ensures Sound(Abs())
      ensures result == Some(PublishOk) ==>
                && |library.published| == |old(library).published| + 1
                && library.published[|old(library).published|] == Message(topic, payload)
                && |old(library).published| in library.acked
    {
      hide Sound;
      PublishIsSound(Abs(), Message(topic, payload), answer, wakes);
      if topic == "" || payload == [] || timeoutSeconds <= 0 {
        return Some(PublishInvalid);
      }
      if !clockOk {
        return Some(PublishLibraryError);
      }
      if state != Connected {
        expectedMid := -1;
        return Some(PublishNotConnected);
      }
      publishCompleted := false;
      expectedMid := -1;
      if answer.NoConnection? {
        return Some(PublishNotConnected);
      }
      if answer.Refused? {
        return Some(PublishLibraryError);
      }
      var index := |library.published|;
      library := library.(published := library.published + [Message(topic, payload)],
                          unacked := library.unacked[answer.mid := index]);
      expectedMid := answer.mid;
      waiting := Some(Wait(Message(topic, payload), index));
      result := AwaitPuback(wakes);
    }

    /** The wait loop and the exit path. */
    method AwaitPuback(wakes: seq<Wake>) returns (result: Option<PublishResult>)
      requires waiting.Some?
      modifies this
      ensures (Abs(), result) == WaitFrom(old(Abs()), wakes)
    {
      var w := 0;
      while !publishCompleted && state == Connected
        invariant w <= |wakes| && WaitFrom(Abs(), wakes[w..]) == WaitFrom(old(Abs()), wakes)
        decreases |wakes| - w
      {
        if w == |wakes| {
          return None;
        }
        assert wakes[w..][0] == wakes[w] && wakes[w..][1..] == wakes[w + 1..];
        Network(wakes[w].events);
        if wakes[w].timedOut {
          expectedMid, waiting := -1, None;
          return Some(PublishTimeout);
        }
        if wakes[w].failed {
          expectedMid, waiting := -1, None;
          return Some(PublishLibraryError);
        }
        w := w + 1;
      }
      result := Some(if publishCompleted then PublishOk else PublishNotConnected);
      expectedMid, waiting := -1, None;
    }
  }
}
