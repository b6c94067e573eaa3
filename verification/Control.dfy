/**
 Commands that need the store: a client holds command_mutex, posts one request to the storage worker and
 waits for one result. Requests carry a ticket so that a result can be told from another client's.
 */
module Control {
  import opened Common
  import Q = BoundedQueue

  datatype Kind = SetInterval(ms: int) | GetStats

  datatype Request = Request(kind: Kind, ticket: nat)

  /** `ok` is whether the store operation succeeded. */
  datatype Result = Result(kind: Kind, ok: bool, ticket: nat)

  /** The client inside command_mutex. */
  datatype Client =
    | Nobody
    | Posting(kind: Kind)                            // about to push the request
    | Waiting(kind: Kind, ticket: nat, clean: bool)  // `clean`: nothing was under way when it posted

  datatype Storage = AtRequest | Answering(result: Result) | StorageGone

  /** How a command ended: with a result, taken by `ticket`, or without one. */
  datatype Outcome = Outcome(kind: Kind, ticket: nat, clean: bool, result: Result)

  datatype State = State(
    persisted: Option<int>, runtime: int, client: Client, storage: Storage,
    requests: Q.Fifo<Request>, results: Q.Fifo<Result>,
    nextTicket: nat, outcomes: seq<Outcome>, abandoned: bool, fatal: bool, stop: bool)

  predicate InRange(ms: int) { 100 <= ms <= 60000 }

  function EmptyQueue<T>(): Q.Fifo<T> { Q.Fifo(1, [], false, [], []) }

  /** The interval a start uses: the saved one, or the configured one. */
  function StartInterval(persisted: Option<int>, configured: int): int {
    if persisted.Some? then persisted.value else configured
  }

  function Start(persisted: Option<int>, configured: int): State {
    State(persisted, StartInterval(persisted, configured), Nobody, AtRequest, EmptyQueue(), EmptyQueue(),
          0, [], false, false, false)
  }

  // ---------------------------------------------------------------- steps

  datatype Action =
    | Enter(kind: Kind)            // a client takes the mutex with a command that passed its checks
    | Post                         // pushes the request; a full or closed queue ends the command
    | Take                         // pops a result
    | GiveUp                       // a wait timed out and the stop flag is set
    | Serve(ok: bool)              // storage pops a request and runs it
    | Answer                       // storage pushes the result, without waiting
    | StopSignal | CloseRequests | StorageEnds | CloseResults
    | Restart(configured: int)     // a crash, or a clean end, and a new start

  function Do(s: State, a: Action): State {
    match a
    case Enter(kind) =>
      if s.client.Nobody? && (kind.SetInterval? ==> InRange(kind.ms)) then s.(client := Posting(kind)) else s
    case Post =>
      if !s.client.Posting? then s
      else if s.requests.closed || s.requests.Full() then s.(client := Nobody)
      else Posted(s, s.client.kind)
    case Take => TakeResult(s)
    case GiveUp =>
      if s.client.Waiting? && s.stop then s.(client := Nobody, abandoned := true) else s
    case Serve(ok) => ServeRequest(s, ok)
    case Answer =>
      if !s.storage.Answering? then s
      else if s.results.closed || s.results.Full() then s.(storage := StorageGone, fatal := true, stop := true)
      else s.(storage := AtRequest, results := Q.Put(s.results, s.storage.result))
    case StopSignal => s.(stop := true)
    case CloseRequests => if s.stop then s.(requests := Q.Apply(s.requests, Q.OpClose)) else s
    case StorageEnds => if s.stop && s.storage == AtRequest then s.(storage := StorageGone) else s
    case CloseResults => if s.storage == StorageGone then s.(results := Q.Apply(s.results, Q.OpClose)) else s
    case Restart(configured) => if InRange(configured) then Start(s.persisted, configured) else s
  }

  function Posted(s: State, kind: Kind): State {
    s.(client := Waiting(kind, s.nextTicket, Pending(s) == []),
       requests := Q.Put(s.requests, Request(kind, s.nextTicket)), nextTicket := s.nextTicket + 1)
  }

  /** A set_interval result sets the running interval to the value the result names. */
  function TakeResult(s: State): State {
    if !s.client.Waiting? then s
    else if |s.results.items| > 0 then
      var r := s.results.items[0];
      var matched := r.kind.SetInterval? == s.client.kind.SetInterval?;
      s.(client := Nobody, results := Q.Take(s.results),
         outcomes := s.outcomes + [Outcome(s.client.kind, s.client.ticket, s.client.clean, r)],
         runtime := if matched && r.ok && r.kind.SetInterval? then r.kind.ms else s.runtime)
    else if s.results.closed then s.(client := Nobody, abandoned := true)
    else s
  }

  function ServeRequest(s: State, ok: bool): State {
    if s.storage != AtRequest || |s.requests.items| == 0 then s
    else
      var r := s.requests.items[0];
      s.(requests := Q.Take(s.requests), storage := Answering(Result(r.kind, ok, r.ticket)),
         persisted := if ok && r.kind.SetInterval? then Some(r.kind.ms) else s.persisted)
  }

  function Run(s: State, actions: seq<Action>): State
    decreases |actions|
  {
    if actions == [] then s else Run(Do(s, actions[0]), actions[1..])
  }

  // ---------------------------------------------------------------- what is under way

  /** The tickets under way, oldest first. */
  function Pending(s: State): seq<nat> {
    seq(|s.results.items|, i requires 0 <= i < |s.results.items| => s.results.items[i].ticket)
    + (if s.storage.Answering? then [s.storage.result.ticket] else [])
    + seq(|s.requests.items|, i requires 0 <= i < |s.requests.items| => s.requests.items[i].ticket)
  }

  predicate KindOk(kind: Kind) { kind.SetInterval? ==> InRange(kind.ms) }

  predicate Ranges(s: State) {
    && InRange(s.runtime) && (s.persisted.Some? ==> InRange(s.persisted.value))
    && (s.client.Posting? || s.client.Waiting? ==> KindOk(s.client.kind))
    && (forall i | 0 <= i < |s.requests.items| :: KindOk(s.requests.items[i].kind))
    && (forall i | 0 <= i < |s.results.items| :: KindOk(s.results.items[i].kind))
    && (s.storage.Answering? ==> KindOk(s.storage.result.kind))
  }

  predicate Shape(s: State) {
    && s.requests.capacity == 1 && s.results.capacity == 1 && |s.requests.items| <= 1 && |s.results.items| <= 1
    && (s.results.closed ==> s.storage == StorageGone)
    && (s.abandoned || s.fatal || s.requests.closed || s.storage == StorageGone ==> s.stop)
    && (forall i | 0 <= i < |s.requests.items| :: s.requests.items[i].ticket < s.nextTicket)
    && (forall i | 0 <= i < |s.results.items| :: s.results.items[i].ticket < s.nextTicket)
    && (s.storage.Answering? ==> s.storage.result.ticket < s.nextTicket)
  }

  /** A client that found nothing under way sees only its own request travel; one that did not has an
      older result ahead of it. */
  predicate WaitOk(s: State) {
    s.client.Waiting? ==>
      && s.client.ticket < s.nextTicket
      && (s.client.clean ==>
            && (forall i | 0 <= i < |s.requests.items| :: s.requests.items[i] == Request(s.client.kind, s.client.ticket))
            && (forall i | 0 <= i < |s.results.items| ::
                  s.results.items[i].ticket == s.client.ticket && s.results.items[i].kind == s.client.kind)
            && (s.storage.Answering? ==> s.storage.result.ticket == s.client.ticket && s.storage.result.kind == s.client.kind)
            && |s.requests.items| + |s.results.items| + (if s.storage.Answering? then 1 else 0) <= 1)
      && (!s.client.clean ==>
            if |s.results.items| > 0 then s.results.items[0].ticket < s.client.ticket
            else s.storage.Answering? && s.storage.result.ticket < s.client.ticket)
  }

  predicate OutcomesOk(s: State) {
    forall k | 0 <= k < |s.outcomes| ::
      var o := s.outcomes[k];
      && (o.result.ticket == o.ticket <==> o.clean)
      && (o.clean ==> o.result.kind == o.kind)
  }

  /** As long as no wait was given up, nothing is left behind. */
  predicate Tidy(s: State) {
    !s.abandoned ==>
      && (!s.client.Waiting? ==> |s.requests.items| == 0 && |s.results.items| == 0 && !s.storage.Answering?)
      && (s.client.Waiting? ==> s.client.clean)
      && (forall k | 0 <= k < |s.outcomes| :: s.outcomes[k].clean)
  }

  /** A result that will set the running interval. */
  predicate Sets(r: Result) { r.ok && r.kind.SetInterval? }

  function UnderWay(s: State): Option<Result> {
    if |s.results.items| > 0 then Some(s.results.items[0])
    else if s.storage.Answering? then Some(s.storage.result)
    else None
  }

  /** The saved and the running interval agree, except while the result that will make them agree travels. */
  predicate Agreed(s: State) {
    !s.abandoned ==>
      if UnderWay(s).Some? && Sets(UnderWay(s).value) then s.persisted == Some(UnderWay(s).value.kind.ms)
      else s.persisted.Some? ==> s.runtime == s.persisted.value
  }

  /** What a client that posted with nothing under way waits for has been saved once it was written. */
  predicate CleanSaved(s: State) {
    s.client.Waiting? && s.client.clean && UnderWay(s).Some? && Sets(UnderWay(s).value) ==>
      s.persisted == Some(UnderWay(s).value.kind.ms)
  }

  /** The last value written whose result still travels: what the storage worker answers with is newer than
      what lies in the queue. */
  function Newest(s: State): Option<int> {
    if s.storage.Answering? && Sets(s.storage.result) then Some(s.storage.result.kind.ms)
    else if |s.results.items| > 0 && Sets(s.results.items[0]) then Some(s.results.items[0].kind.ms)
    else None
  }

  /** It is the saved value; once the storage worker has failed and lost a result, a newer one may be. */
  predicate NewestSaved(s: State) {
    Newest(s).Some? ==> s.persisted.Some? && (!s.fatal ==> s.persisted == Newest(s))
  }

  predicate Inv(s: State) {
    && Ranges(s) && Shape(s) && WaitOk(s) && OutcomesOk(s) && Tidy(s) && Agreed(s) && CleanSaved(s)
    && NewestSaved(s)
  }

  lemma ClientKeeps(s: State, a: Action)
    requires Inv(s) && (a.Enter? || a.GiveUp?)
    ensures Inv(Do(s, a))
  {}

  lemma NothingPending(s: State)
    ensures Pending(s) == [] <==> |s.results.items| == 0 && !s.storage.Answering? && |s.requests.items| == 0
  {
    assert |Pending(s)| == |s.results.items| + (if s.storage.Answering? then 1 else 0) + |s.requests.items|;
  }

  lemma PostedKeeps(s: State)
    requires Inv(s) && s.client.Posting? && |s.requests.items| == 0
    ensures Inv(Posted(s, s.client.kind))
  {
    NothingPending(s);
    hide Pending;
    var t := Posted(s, s.client.kind);
    assert t.requests.items == [Request(s.client.kind, s.nextTicket)];
  }

  lemma PostKeeps(s: State)
    requires Inv(s)
    ensures Inv(Do(s, Post))
  {
    hide Pending, Posted;
    if s.client.Posting? && !s.requests.closed && !s.requests.Full() { PostedKeeps(s); }
  }

  lemma TakeKeeps(s: State)
    requires Inv(s)
    ensures Inv(TakeResult(s))
  {}

  lemma ServeKeeps(s: State, ok: bool)
    requires Inv(s)
    ensures Inv(ServeRequest(s, ok))
  {}

  lemma AnsweredKeeps(s: State)
    requires Inv(s) && s.storage.Answering? && |s.results.items| == 0 && !s.results.closed
    ensures Inv(s.(storage := AtRequest, results := Q.Put(s.results, s.storage.result)))
  {
    assert Q.Put(s.results, s.storage.result).items == [s.storage.result];
    hide Q.Put;
    PutKeeps(s.results, s.storage.result);
  }

  lemma PutKeeps(q: Q.Fifo<Result>, r: Result)
    ensures Q.Put(q, r).capacity == q.capacity && Q.Put(q, r).closed == q.closed
  {}

  lemma AnswerFailsKeeps(s: State)
    requires Inv(s) && s.storage.Answering? && |s.results.items| > 0
    ensures Inv(s.(storage := StorageGone, fatal := true, stop := true))
  {}

  lemma AnswerKeeps(s: State)
    requires Inv(s)
    ensures Inv(Do(s, Answer))
  {
    if s.storage.Answering? {
      assert !s.results.closed && |s.results.items| <= 1 && s.results.capacity == 1;
      hide Inv;
      if |s.results.items| > 0 { AnswerFailsKeeps(s); } else { AnsweredKeeps(s); }
    }
  }

  lemma EndingKeeps(s: State, a: Action)
    requires Inv(s) && (a.StopSignal? || a.CloseRequests? || a.StorageEnds? || a.CloseResults?)
    ensures Inv(Do(s, a))
  {
    CloseKeeps(s.requests);
    CloseKeeps(s.results);
    hide Q.Apply;
  }

  lemma CloseKeeps<T>(q: Q.Fifo<T>)
    ensures Q.Apply(q, Q.OpClose) == q.(closed := true)
  {}

  lemma RestartKeeps(s: State, configured: int)
    requires Inv(s)
    ensures Inv(Do(s, Restart(configured)))
  {}

  lemma StepKeeps(s: State, a: Action)
    requires Inv(s)
    ensures Inv(Do(s, a))
  {
    hide Inv, TakeResult, ServeRequest;
    match a {
      case Enter(_) => ClientKeeps(s, a);
      case GiveUp => ClientKeeps(s, a);
      case Post => PostKeeps(s);
      case Take => TakeKeeps(s);
      case Serve(ok) => ServeKeeps(s, ok);
      case Answer => AnswerKeeps(s);
      case Restart(configured) => RestartKeeps(s, configured);
      case _ => EndingKeeps(s, a);
    }
  }

  lemma {:induction false} EveryRunKeeps(s: State, actions: seq<Action>)
    requires Inv(s)
    ensures Inv(Run(s, actions))
    decreases |actions|
  {
    hide Inv, Do;
    if actions != [] {
      StepKeeps(s, actions[0]);
      EveryRunKeeps(Do(s, actions[0]), actions[1..]);
    }
  }

  function Reached(configured: int, actions: seq<Action>): State { Run(Start(None, configured), actions) }

  lemma ReachedOk(configured: int, actions: seq<Action>)
    requires InRange(configured)
    ensures Inv(Reached(configured, actions))
  {
    EveryRunKeeps(Start(None, configured), actions);
  }

  // ---------------------------------------------------------------- steps are queue calls

  /** bq_push with a positive timeout: the request is posted, or the command ends at once if the queue is closed
      or stays full. */
  lemma PostIsPush(s: State)
    requires s.client.Posting? && s.requests.capacity > 0
    ensures var request := Request(s.client.kind, s.nextTicket);
            var (q, result) := Q.PushFrom(s.requests, request, 100, [Q.Wake([], true, false)]);
            var t := Do(s, Post);
            && t.requests == q
            && (result == Some(Q.QueueOk) ==> t.client == Waiting(s.client.kind, s.nextTicket, Pending(s) == []))
            && (result != Some(Q.QueueOk) ==> t.client == Nobody)
            && result in {Some(Q.QueueOk), Some(Q.QueueClosed), Some(Q.QueueTimeout)}
  {
    hide Pending;
  }

  /** bq_pop with a positive timeout: the command ends with the result, ends without one if the queue is closed
      and empty, and else waits on. */
  lemma TakeIsPop(s: State)
    requires s.client.Waiting?
    ensures var (q, result, x) := Q.PopFrom(s.results, 100, []);
            var t := Do(s, Take);
            && t.results == q
            && (x.Some? ==> t.client == Nobody
                            && t.outcomes == s.outcomes + [Outcome(s.client.kind, s.client.ticket, s.client.clean, x.value)])
            && (result == Some(Q.QueueClosed) ==> t.client == Nobody && t.outcomes == s.outcomes && t.runtime == s.runtime)
            && (result == None ==> t == s)
  {}

  /** bq_pop and bq_push without waiting: a request is served if there is one; an answer that finds no room ends
      the storage worker. */
  lemma StorageStepsAreCalls(s: State, ok: bool)
    ensures s.storage == AtRequest ==>
              var (q, result, x) := Q.PopFrom(s.requests, 0, []);
              var t := Do(s, Serve(ok));
              && t.requests == q && (x.None? ==> t == s)
              && (x.Some? ==> t.storage == Answering(Result(x.value.kind, ok, x.value.ticket)))
    ensures s.storage.Answering? ==>
              var (q, result) := Q.PushFrom(s.results, s.storage.result, 0, []);
              var t := Do(s, Answer);
              && t.results == q
              && (result == Some(Q.QueueOk) ==> t.storage == AtRequest && t.fatal == s.fatal)
              && (result != Some(Q.QueueOk) ==> t.storage == StorageGone && t.fatal && t.stop)
  {}

  const ENDING := [Answer, CloseRequests, StorageEnds, CloseResults, Post, GiveUp]

  /** Once the gateway is stopping the channel can always be brought to its end: the storage worker is gone, both
      queues are closed, no client is left, and a command that comes later is turned away. */
  lemma ChannelEnds(s: State, kind: Kind)
    requires Inv(s) && s.stop
    ensures var t := Run(s, ENDING);
            && t.storage == StorageGone && t.requests.closed && t.results.closed && t.client == Nobody
            && Do(Do(t, Enter(kind)), Post).client == Nobody
  {
    hide Inv, Run, Posted, Q.Apply, TakeResult, ServeRequest, Pending;
    CloseKeeps(s.requests);
    var a := Do(s, Answer);
    AnswerLeaves(s);
    var b := Do(a, CloseRequests);
    CloseKeeps(a.requests);
    var c := Do(b, StorageEnds);
    var d := Do(c, CloseResults);
    CloseKeeps(c.results);
    var e := Do(d, Post);
    RunSix(s, Answer, CloseRequests, StorageEnds, CloseResults, Post, GiveUp);
  }

  lemma AnswerLeaves(s: State)
    ensures var t := Do(s, Answer); !t.storage.Answering? && (s.stop ==> t.stop)
  {}

  lemma RunSix(s: State, a: Action, b: Action, c: Action, d: Action, e: Action, f: Action)
    ensures Run(s, [a, b, c, d, e, f]) == Do(Do(Do(Do(Do(Do(s, a), b), c), d), e), f)
  {
    hide Do;
    assert [a, b, c, d, e, f] == [a, b] + [c, d, e, f] && [c, d, e, f] == [c, d] + [e, f] && [e, f] == [e, f] + [];
    RunTwo(s, a, b, [c, d, e, f]);
    RunTwo(Do(Do(s, a), b), c, d, [e, f]);
    RunTwo(Do(Do(Do(Do(s, a), b), c), d), e, f, []);
  }

  /** A wait is given up exactly when the stop flag is set. */
  lemma GivesUpIff(s: State)
    ensures s.client.Waiting? ==> (Do(s, GiveUp).client == Nobody <==> s.stop)
  {}

  // ---------------------------------------------------------------- what clients can rely on

  /** A command that gets a result gets its own one if and only if nothing was under way when it posted
      its request; and its own result is about what it asked. */
  lemma OwnAnswerIffNothingLeft(configured: int, actions: seq<Action>, k: nat)
    requires InRange(configured) && k < |Reached(configured, actions).outcomes|
    ensures var o := Reached(configured, actions).outcomes[k];
            (o.result.ticket == o.ticket <==> o.clean) && (o.clean ==> o.result.kind == o.kind)
  {
    ReachedOk(configured, actions);
    hide Reached;
  }

  /** Until a stop is requested, in every interleaving and after any number of restarts: at most one
      request or result exists, only for the client that waits; every answer was the client's own; no
      request finds its queue full and no answer does, so the storage worker never fails on it. */
  lemma NothingLeftBeforeStop(configured: int, actions: seq<Action>)
    requires InRange(configured) && !Reached(configured, actions).stop
    ensures var s := Reached(configured, actions);
            && |Pending(s)| <= 1 && (Pending(s) != [] ==> s.client.Waiting? && Pending(s) == [s.client.ticket])
            && (s.client.Posting? ==> !s.requests.Full() && !s.requests.closed)
            && (s.storage.Answering? ==> !s.results.Full() && !s.results.closed)
            && !s.fatal
            && (forall k | 0 <= k < |s.outcomes| :: s.outcomes[k].result.ticket == s.outcomes[k].ticket)
  {
    ReachedOk(configured, actions);
    hide Reached;
  }

  /** Saved and running interval are always in range, and until a wait was given up they are equal
      whenever no command is at work; a restart then changes nothing. */
  lemma IntervalsAgree(configured: int, actions: seq<Action>, again: int)
    requires InRange(configured) && InRange(again)
    ensures var s := Reached(configured, actions);
            && InRange(s.runtime) && (s.persisted.Some? ==> InRange(s.persisted.value))
            && (!s.abandoned && !s.client.Waiting? && s.persisted.Some? ==>
                  s.runtime == s.persisted.value == Do(s, Restart(again)).runtime)
  {
    ReachedOk(configured, actions);
    hide Reached;
  }

  /** The step saves a new interval. */
  predicate Replaces(s: State, a: Action) {
    a.Serve? && a.ok && s.storage == AtRequest && |s.requests.items| > 0 && s.requests.items[0].kind.SetInterval?
  }

  predicate NothingReplaced(s: State, actions: seq<Action>)
    decreases |actions|
  {
    actions != [] ==> !Replaces(s, actions[0]) && NothingReplaced(Do(s, actions[0]), actions[1..])
  }

  /** Only a served set_interval changes the saved value: no crash, restart, stop or failed write does. */
  lemma {:induction false} PersistedStays(s: State, actions: seq<Action>)
    requires NothingReplaced(s, actions)
    ensures Run(s, actions).persisted == s.persisted
    decreases |actions|
  {
    if actions != [] { PersistedStays(Do(s, actions[0]), actions[1..]); }
  }

  /** When a set_interval that posted with nothing under way is told it succeeded, the value it asked for is
      saved and running; and after whatever follows, restarts included, a restart uses that value unless a
      later set_interval was saved. */
  lemma AcknowledgedSurvives(configured: int, actions: seq<Action>, later: seq<Action>, again: int)
    requires InRange(configured) && InRange(again)
    requires var s := Reached(configured, actions);
             && s.client.Waiting? && s.client.clean && s.client.kind.SetInterval?
             && |s.results.items| > 0 && s.results.items[0].ok
             && NothingReplaced(Do(s, Take), later)
    ensures var s := Reached(configured, actions);
            var t := Do(s, Take);
            && t.persisted == Some(s.client.kind.ms) && t.runtime == s.client.kind.ms
            && Run(t, later).persisted == Some(s.client.kind.ms)
            && Do(Run(t, later), Restart(again)).runtime == s.client.kind.ms
  {
    ReachedOk(configured, actions);
    PersistedStays(Do(Reached(configured, actions), Take), later);
    hide Reached, Run, NothingReplaced;
  }

  /** When nothing is under way, a command runs to its own answer: a set_interval ends saved, running and
      acknowledged with the value asked for. */
  lemma CommandCompletes(s: State, ms: int)
    requires Inv(s) && InRange(ms) && s.client == Nobody && s.storage == AtRequest && Pending(s) == []
    requires !s.requests.closed && !s.results.closed
    ensures var posted := Do(Do(s, Enter(SetInterval(ms))), Post);
            var t := Do(Do(Do(posted, Serve(true)), Answer), Take);
            && t.persisted == Some(ms) && t.runtime == ms && t.client == Nobody && Pending(t) == []
            && t.outcomes == s.outcomes + [Outcome(SetInterval(ms), s.nextTicket, true, Result(SetInterval(ms), true, s.nextTicket))]
  {
    NothingPending(s);
    var request, result := Request(SetInterval(ms), s.nextTicket), Result(SetInterval(ms), true, s.nextTicket);
    var posted := Do(Do(s, Enter(SetInterval(ms))), Post);
    assert posted.requests.items == [request] && posted.client == Waiting(SetInterval(ms), s.nextTicket, true);
    hide Pending;
    var served := Do(posted, Serve(true));
    assert served.storage == Answering(result) && served.persisted == Some(ms) && served.requests.items == [];
    var answered := Do(served, Answer);
    assert answered.results.items == [result];
    NothingPending(Do(answered, Take));
  }

  // ---------------------------------------------------------------- giving up a wait

  /** Saved and running interval are the same, or none was ever saved. */
  predicate Agree(s: State) { s.persisted.Some? ==> s.runtime == s.persisted.value }

  /** The step makes a result's value the running one. */
  predicate Adopts(s: State, a: Action) {
    a.Take? && s.client.Waiting? && s.client.kind.SetInterval? && |s.results.items| > 0 && Sets(s.results.items[0])
  }

  /** Exactly when the two intervals agree after a step, for every step of every reachable state: a restart
      makes them agree; after a write they agree if and only if the value written is the running one; after a
      result is adopted, if and only if its value is still the saved one; every other step leaves them as
      they were. So while no command is at work they part in one way: a value other than the running one is
      written, and the request it comes from is that of a client that gave up. */
  lemma PartsIff(configured: int, actions: seq<Action>, a: Action)
    requires InRange(configured)
    ensures var s := Reached(configured, actions);
            && (Agree(Do(s, a)) <==>
                  if a.Restart? && InRange(a.configured) then true
                  else if Replaces(s, a) then s.requests.items[0].kind.ms == s.runtime
                  else if Adopts(s, a) then s.persisted == Some(s.results.items[0].kind.ms)
                  else Agree(s))
            && (!s.client.Waiting? && Agree(s) ==>
                  (Agree(Do(s, a)) <==> !Replaces(s, a) || s.requests.items[0].kind.ms == s.runtime))
            && (Replaces(s, a) && !s.client.Waiting? ==> s.abandoned)
  {
    ReachedOk(configured, actions);
    hide Reached;
  }

  /** A newer set_interval has been written, with another value, and is being answered. */
  predicate Overtaken(s: State, ms: int) {
    s.storage.Answering? && Sets(s.storage.result) && s.storage.result.kind.ms != ms
  }

  /** A waiting client, whatever was under way when it posted, takes the result that lies ready, and the
      storage worker then serves what is queued. The value running afterwards is the result's if it sets one
      and the client asked for one. They agree if and only if what is then written, or else what was saved
      before, is that value. And unless the storage worker has failed, a client that adopts a result makes
      them agree if and only if no newer value overtook it. */
  lemma TakenAgreesIff(configured: int, actions: seq<Action>, ok: bool)
    requires InRange(configured)
    requires var s := Reached(configured, actions); s.client.Waiting? && |s.results.items| > 0
    ensures var s := Reached(configured, actions);
            var r := s.results.items[0];
            var after := if Sets(r) && s.client.kind.SetInterval? then r.kind.ms else s.runtime;
            var taken := Do(s, Take);
            var t := Do(taken, Serve(ok));
            && t.client == Nobody && t.runtime == taken.runtime == after
            && (Agree(t) <==> if Replaces(s, Serve(ok)) then s.requests.items[0].kind.ms == after
                              else s.persisted.Some? ==> s.persisted.value == after)
            && (!s.fatal && Adopts(s, Take) ==> (Agree(taken) <==> !Overtaken(s, r.kind.ms)))
  {
    ReachedOk(configured, actions);
    hide Reached;
  }

  /** What a set_interval that is told it succeeded can rely on when something was under way as it posted: the
      value the result names is running; and after whatever follows, restarts included, a restart uses that
      value, unless a later set_interval was saved, if and only if it was the saved one as the result was
      taken: no newer value had overtaken it. */
  lemma AdoptedSurvivesIff(configured: int, actions: seq<Action>, later: seq<Action>, again: int)
    requires InRange(configured) && InRange(again)
    requires var s := Reached(configured, actions); Adopts(s, Take) && NothingReplaced(Do(s, Take), later)
    ensures var s := Reached(configured, actions);
            var ms := s.results.items[0].kind.ms;
            var t := Do(s, Take);
            && t.runtime == ms
            && (Do(Run(t, later), Restart(again)).runtime == ms <==> s.persisted == Some(ms))
            && (!s.fatal ==> (s.persisted == Some(ms) <==> !Overtaken(s, ms)))
  {
    ReachedOk(configured, actions);
    PersistedStays(Do(Reached(configured, actions), Take), later);
    hide Reached, Run, NothingReplaced;
  }

  /** The request of the waiting client will be, or was, written: it still has to be served and the write
      succeeds, or it was served and the write had succeeded. */
  predicate GetsWritten(s: State, ok: bool) {
    if UnderWay(s).Some? then UnderWay(s).value.ok else s.storage == AtRequest && |s.requests.items| > 0 && ok
  }

  /** A client gives up its wait, whatever it asked for and whatever was under way when it posted; the storage
      worker then serves what is queued. The two intervals agree afterwards if and only if the running one is
      the value then written, or else the last one written whose result still travels; if there is neither,
      if and only if they did before. For a set_interval that posted with nothing under way this is its own
      value, if it was written at all. */
  lemma GivenUpAgreesIff(configured: int, actions: seq<Action>, ok: bool)
    requires InRange(configured)
    requires var s := Reached(configured, actions); s.client.Waiting? && s.stop
    ensures var s := Reached(configured, actions);
            var t := Do(Do(s, GiveUp), Serve(ok));
            && t.client == Nobody && t.runtime == s.runtime
            && (Agree(t) <==>
                  if Replaces(s, Serve(ok)) then s.requests.items[0].kind.ms == s.runtime
                  else if Newest(s).Some? && !s.fatal then Newest(s).value == s.runtime
                  else Agree(s))
            && (s.client.clean && s.client.kind.SetInterval? ==>
                  && (Agree(t) <==> if GetsWritten(s, ok) then s.client.kind.ms == s.runtime else Agree(s))
                  && (!s.abandoned ==> (Agree(t) <==> !GetsWritten(s, ok) || s.client.kind.ms == s.runtime)))
            && Agree(Do(t, Restart(configured)))
  {
    ReachedOk(configured, actions);
    hide Reached;
  }

  // ---------------------------------------------------------------- after a stop it can go wrong

  // A client asks for `first`, gives up, and its result is left behind: the states after each pair of steps.
  function AfterPost(first: Kind): State {
    State(None, 1000, Waiting(first, 0, true), AtRequest,
          Q.Fifo(1, [Request(first, 0)], false, [Request(first, 0)], []), EmptyQueue(), 1, [], false, false, false)
  }

  function AfterGiveUp(first: Kind): State {
    AfterPost(first).(client := Nobody, stop := true, abandoned := true)
  }

  function AfterAnswer(first: Kind): State {
    AfterGiveUp(first).(persisted := if first.SetInterval? then Some(first.ms) else None,
                        requests := Q.Fifo(1, [], false, [Request(first, 0)], [Request(first, 0)]),
                        results := Q.Fifo(1, [Result(first, true, 0)], false, [Result(first, true, 0)], []))
  }

  /** Then another client asks for `ms`. */
  function AfterSecond(first: Kind, ms: int): State {
    AfterAnswer(first).(client := Waiting(SetInterval(ms), 1, false), nextTicket := 2,
                        requests := Q.Fifo(1, [Request(SetInterval(ms), 1)], false,
                                           [Request(first, 0), Request(SetInterval(ms), 1)], [Request(first, 0)]))
  }

  function LeavingRun(first: Kind): seq<Action> { [Enter(first), Post, StopSignal, GiveUp, Serve(true), Answer] }

  lemma FirstPairs(first: Kind)
    requires KindOk(first)
    ensures Do(Do(Start(None, 1000), Enter(first)), Post) == AfterPost(first)
    ensures Do(Do(AfterPost(first), StopSignal), GiveUp) == AfterGiveUp(first)
    ensures Do(Do(AfterGiveUp(first), Serve(true)), Answer) == AfterAnswer(first)
  {}

  lemma SecondPair(first: Kind, ms: int)
    requires InRange(ms)
    ensures Do(Do(AfterAnswer(first), Enter(SetInterval(ms))), Post) == AfterSecond(first, ms)
  {
    assert Pending(AfterAnswer(first))[0] == 0;
  }

  lemma LeftBehind(first: Kind, rest: seq<Action>)
    requires KindOk(first)
    ensures Reached(1000, LeavingRun(first) + rest) == Run(AfterAnswer(first), rest)
  {
    hide Do, Run;
    FirstPairs(first);
    RunTwo(Start(None, 1000), Enter(first), Post, [StopSignal, GiveUp, Serve(true), Answer] + rest);
    RunTwo(AfterPost(first), StopSignal, GiveUp, [Serve(true), Answer] + rest);
    RunTwo(AfterGiveUp(first), Serve(true), Answer, rest);
    assert LeavingRun(first) + rest == [Enter(first), Post] + ([StopSignal, GiveUp, Serve(true), Answer] + rest);
    assert [StopSignal, GiveUp, Serve(true), Answer] + rest == [StopSignal, GiveUp] + ([Serve(true), Answer] + rest);
  }

  /** The shortest runs in which the intervals part: one client, which asked for `ms`, not the running value,
      and gave up. */
  lemma IntervalsPart(ms: int)
    requires InRange(ms)
    ensures var s := Reached(1000, [Enter(SetInterval(ms)), Post, StopSignal, GiveUp, Serve(true)]);
            s.runtime == 1000 && s.persisted == Some(ms) && s.client == Nobody && s.outcomes == []
  {
    var first := SetInterval(ms);
    assert Do(AfterGiveUp(first), Serve(true)).persisted == Some(ms);
    FirstPairs(first);
    RunTwo(Start(None, 1000), Enter(first), Post, [StopSignal, GiveUp, Serve(true)]);
    RunTwo(AfterPost(first), StopSignal, GiveUp, [Serve(true)]);
    assert [Enter(first), Post, StopSignal, GiveUp, Serve(true)] == [Enter(first), Post] + [StopSignal, GiveUp, Serve(true)];
    assert [StopSignal, GiveUp, Serve(true)] == [StopSignal, GiveUp] + [Serve(true)];
    hide Run;
    RunLast(AfterGiveUp(first), Serve(true));
  }

  /** A wait that is given up leaves its result behind; the next client takes it for its own, and the
      first value runs while the second is saved. */
  lemma StaleAnswer(ms: int, second: int)
    requires InRange(ms) && InRange(second)
    ensures var s := Reached(1000, LeavingRun(SetInterval(ms)) + [Enter(SetInterval(second)), Post, Take, Serve(true)]);
            && |s.outcomes| == 1 && s.outcomes[0].kind == SetInterval(second) && s.outcomes[0].result.kind == SetInterval(ms)
            && s.outcomes[0].result.ok && s.runtime == ms && s.persisted == Some(second) && s.client == Nobody
  {
    hide Do, Run;
    var first := SetInterval(ms);
    LeftBehind(first, [Enter(SetInterval(second)), Post, Take, Serve(true)]);
    SecondPair(first, second);
    assert [Enter(SetInterval(second)), Post, Take, Serve(true)] == [Enter(SetInterval(second)), Post] + [Take, Serve(true)];
    RunTwo(AfterAnswer(first), Enter(SetInterval(second)), Post, [Take, Serve(true)]);
    assert [Take, Serve(true)] == [Take, Serve(true)] + [];
    RunTwo(AfterSecond(first, second), Take, Serve(true), []);
    RunNothing(Do(Do(AfterSecond(first, second), Take), Serve(true)));
    StaleEnd(ms, second);
  }

  lemma StaleEnd(ms: int, second: int)
    ensures var s := Do(Do(AfterSecond(SetInterval(ms), second), Take), Serve(true));
            && s.outcomes == [Outcome(SetInterval(second), 1, false, Result(SetInterval(ms), true, 0))]
            && s.runtime == ms && s.persisted == Some(second) && s.client == Nobody
  {}

  /** The same when the second client's own request is written before it takes what was left behind, and even
      when the one that gave up had asked for statistics only: the second value is saved, and the running one
      is the first value, or the one that ran before. */
  lemma OvertakenParts(first: Kind, second: int)
    requires KindOk(first) && InRange(second)
    ensures var s := Reached(1000, LeavingRun(first) + [Enter(SetInterval(second)), Post, Serve(true), Take]);
            && s.persisted == Some(second) && s.runtime == (if first.SetInterval? then first.ms else 1000)
            && s.client == Nobody
  {
    hide Do, Run;
    LeftBehind(first, [Enter(SetInterval(second)), Post, Serve(true), Take]);
    SecondPair(first, second);
    assert [Enter(SetInterval(second)), Post, Serve(true), Take] == [Enter(SetInterval(second)), Post] + [Serve(true), Take];
    RunTwo(AfterAnswer(first), Enter(SetInterval(second)), Post, [Serve(true), Take]);
    assert [Serve(true), Take] == [Serve(true), Take] + [];
    RunTwo(AfterSecond(first, second), Serve(true), Take, []);
    RunNothing(Do(Do(AfterSecond(first, second), Serve(true)), Take));
    OvertakenEnd(first, second);
  }

  lemma OvertakenEnd(first: Kind, second: int)
    ensures var s := Do(Do(AfterSecond(first, second), Serve(true)), Take);
            && s.persisted == Some(second) && s.runtime == (if first.SetInterval? then first.ms else 1000)
            && s.client == Nobody
  {}

  lemma RunNothing(s: State)
    ensures Run(s, []) == s
  {}

  lemma RunLast(s: State, a: Action)
    ensures Run(s, [a]) == Do(s, a)
  {
    hide Do;
  }

  lemma RunTwo(s: State, a: Action, b: Action, rest: seq<Action>)
    ensures Run(s, [a, b] + rest) == Run(Do(Do(s, a), b), rest)
  {
    hide Do;
    var all := [a, b] + rest;
    assert all[0] == a && all[1..] == [b] + rest && all[1..][0] == b && all[1..][1..] == rest;
  }
}
