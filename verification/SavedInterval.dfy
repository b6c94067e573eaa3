/**
 The clients' commands and the delivery pipeline share one database. A set_interval is served by the storage
 worker at the top of its loop, so the interval the commands speak of is the one in the pipeline's tables, and
 what a client was told is what a restart reads back. The two stop flags are not tied together here: every
 order of stopping is allowed, which is more than the gateway can do.
 */
module SavedInterval {
  import opened Common
  import Store = OutboxStore
  import C = Control
  import P = Pipeline
  import PI = PipelineInvariant
  import PipelineDurable
  import opened PipelineDisk

  datatype State = State(gateway: P.State, control: C.State)

  datatype Action =
    | Gateway(step: P.Action)           // any step of the pipeline but serving a command and crashing
    | Client(call: C.Action)            // any step of the commands but serving one and restarting
    | Serve(codes: seq<Store.SqlCode>)  // the storage worker serves a request with these results of its calls
    | Crash(configured: int)            // a crash or a clean end, and a new start on the same database

  /** What outbox_store_save_interval or outbox_store_get_stats report. */
  predicate Succeeds(kind: C.Kind, codes: seq<Store.SqlCode>) {
    if kind.SetInterval? then C.InRange(kind.ms) && Store.AllOk(codes, 3) else Store.AllOk(codes, 2)
  }

  predicate CanServe(s: State) {
    s.gateway.storage == P.AtResult && s.control.storage == C.AtRequest && |s.control.requests.items| > 0
  }

  function ServeOne(s: State, codes: seq<Store.SqlCode>): State
    requires CanServe(s)
  {
    var kind := s.control.requests.items[0].kind;
    State(if kind.SetInterval? then P.Do(s.gateway, P.AStoreInterval(kind.ms, codes)) else s.gateway,
          C.Do(s.control, C.Serve(Succeeds(kind, codes))))
  }

  function Do(s: State, a: Action): State {
    match a
    case Gateway(b) => if b.AStoreInterval? || b.ACrash? then s else s.(gateway := P.Do(s.gateway, b))
    case Client(b) => if b.Serve? || b.Restart? then s else s.(control := C.Do(s.control, b))
    case Serve(codes) => if CanServe(s) then ServeOne(s, codes) else s
    case Crash(configured) =>
      if !C.InRange(configured) then s
      else State(P.Do(s.gateway, P.ACrash), C.Start(P.Do(s.gateway, P.ACrash).disk.interval, configured))
  }

  function Run(s: State, actions: seq<Action>): State
    decreases |actions|
  {
    if actions == [] then s else Run(Do(s, actions[0]), actions[1..])
  }

  function Init(configured: int): State { State(P.Init(), C.Start(None, configured)) }

  // ---------------------------------------------------------------- one interval

  ghost predicate Tied(s: State) {
    PI.Inv(s.gateway) && C.Inv(s.control) && s.control.persisted == s.gateway.disk.interval
  }

  lemma ClientPreserves(s: C.State, a: C.Action)
    requires !a.Serve? && !a.Restart?
    ensures C.Do(s, a).persisted == s.persisted
  {}

  lemma ServeTied(s: State, codes: seq<Store.SqlCode>)
    requires Tied(s) && CanServe(s)
    ensures Tied(ServeOne(s, codes))
  {
    var request := s.control.requests.items[0];
    C.StepKeeps(s.control, C.Serve(Succeeds(request.kind, codes)));
    if request.kind.SetInterval? {
      ServedInterval(s.gateway, request.kind.ms, codes);
      PipelineDurable.StepKeeps(s.gateway, P.AStoreInterval(request.kind.ms, codes));
    }
    hide PI.Inv, C.Inv, P.Do, Store.AllOk;
  }

  lemma StartsWith(persisted: Option<int>, configured: int)
    ensures C.Start(persisted, configured).persisted == persisted
    ensures C.Start(persisted, configured).runtime == if persisted.Some? then persisted.value else configured
  {}

  lemma CrashTied(s: State, configured: int)
    requires Tied(s) && C.InRange(configured)
    ensures Tied(Do(s, Crash(configured)))
  {
    hide PI.Inv, C.Inv, P.Do, C.Start;
    PipelineDurable.StepKeeps(s.gateway, P.ACrash);
    IntervalStays(s.gateway, P.ACrash);
    C.StepKeeps(s.control, C.Restart(configured));
    StartsWith(s.control.persisted, configured);
  }

  lemma StepTied(s: State, a: Action)
    requires Tied(s)
    ensures Tied(Do(s, a))
  {
    hide PI.Inv, C.Inv, P.Do, C.Do, ServeOne, CanServe;
    match a {
      case Gateway(b) =>
        PipelineDurable.StepKeeps(s.gateway, b);
        if !b.AStoreInterval? { IntervalStays(s.gateway, b); }
      case Client(b) =>
        C.StepKeeps(s.control, b);
        if !b.Serve? && !b.Restart? { ClientPreserves(s.control, b); }
      case Serve(codes) => if CanServe(s) { ServeTied(s, codes); }
      case Crash(configured) => if C.InRange(configured) { CrashTied(s, configured); }
    }
  }

  /** In every run of clients and pipeline together, with any failures and crashes, the interval the commands
      believe saved is the one in the database. */
  lemma {:induction false} PersistedIsOnDisk(s: State, actions: seq<Action>)
    requires Tied(s)
    ensures Tied(Run(s, actions))
    decreases |actions|
  {
    hide Tied, Do;
    if actions != [] {
      StepTied(s, actions[0]);
      PersistedIsOnDisk(Do(s, actions[0]), actions[1..]);
    }
  }

  lemma InitTied(configured: int)
    requires C.InRange(configured)
    ensures Tied(Init(configured))
  {
    PipelineDurable.InitOk();
    hide PI.Inv;
  }

  // ---------------------------------------------------------------- what a restart reads back

  /** The step stores a new interval. */
  predicate Replaces(s: State, a: Action) {
    a.Serve? && CanServe(s) && s.control.requests.items[0].kind.SetInterval? && Succeeds(s.control.requests.items[0].kind, a.codes)
  }

  predicate NothingReplaced(s: State, actions: seq<Action>)
    decreases |actions|
  {
    actions != [] ==> !Replaces(s, actions[0]) && NothingReplaced(Do(s, actions[0]), actions[1..])
  }

  lemma StepStays(s: State, a: Action)
    requires !Replaces(s, a)
    ensures Do(s, a).gateway.disk.interval == s.gateway.disk.interval
  {
    hide P.Do, C.Do;
    match a {
      case Gateway(b) => if !b.AStoreInterval? { IntervalStays(s.gateway, b); }
      case Client(_) =>
      case Serve(codes) =>
        if CanServe(s) && s.control.requests.items[0].kind.SetInterval? {
          ServedInterval(s.gateway, s.control.requests.items[0].kind.ms, codes);
        }
      case Crash(_) => IntervalStays(s.gateway, P.ACrash);
    }
  }

  lemma {:induction false} DiskStays(s: State, actions: seq<Action>)
    requires NothingReplaced(s, actions)
    ensures Run(s, actions).gateway.disk.interval == s.gateway.disk.interval
    decreases |actions|
  {
    hide Do, Replaces;
    if actions != [] {
      StepStays(s, actions[0]);
      DiskStays(Do(s, actions[0]), actions[1..]);
    }
  }

  lemma TakenIsSaved(s: State)
    requires Tied(s) && s.control.client.Waiting? && s.control.client.clean && s.control.client.kind.SetInterval?
    requires |s.control.results.items| > 0 && s.control.results.items[0].ok
    ensures s.gateway.disk.interval == Some(s.control.client.kind.ms)
    ensures var t := Do(s, Client(C.Take)); t.gateway == s.gateway && t.control.runtime == s.control.client.kind.ms
  {
    hide PI.Inv;
  }

  lemma CrashLoads(s: State, again: int)
    requires C.InRange(again)
    ensures Do(s, Crash(again)).control.runtime == C.StartInterval(s.gateway.disk.interval, again)
  {
    IntervalStays(s.gateway, P.ACrash);
    hide P.Do;
  }

  /** A client that posted its set_interval with nothing under way and is told it succeeded finds its value in
      the database; whatever follows, and however often the gateway crashes, the next start loads and uses it,
      unless a later set_interval was stored. */
  lemma AcknowledgedIsOnDisk(configured: int, actions: seq<Action>, later: seq<Action>, again: int)
    requires C.InRange(configured) && C.InRange(again)
    requires var s := Run(Init(configured), actions);
             && s.control.client.Waiting? && s.control.client.clean && s.control.client.kind.SetInterval?
             && |s.control.results.items| > 0 && s.control.results.items[0].ok
             && NothingReplaced(Do(s, Client(C.Take)), later)
    ensures var s := Run(Init(configured), actions);
            var ms := s.control.client.kind.ms;
            var t := Do(s, Client(C.Take));
            && s.gateway.disk.interval == Some(ms) && t.control.runtime == ms
            && Run(t, later).gateway.disk.interval == Some(ms)
            && Do(Run(t, later), Crash(again)).control.runtime == ms
  {
    hide Tied, Run, Do, NothingReplaced, Init;
    var s := Run(Init(configured), actions);
    InitTied(configured);
    PersistedIsOnDisk(Init(configured), actions);
    TakenIsSaved(s);
    var t := Do(s, Client(C.Take));
    DiskStays(t, later);
    CrashLoads(Run(t, later), again);
  }
}
