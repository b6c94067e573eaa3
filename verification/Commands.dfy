/**
 Remote commands are delivered at least once; a ring of the sixteen latest answers keeps a repeated
 request from being executed again.
 */
module Commands {
  import opened Common

  const SLOTS := 16
  const ID_CAPACITY := 64
  const COMMAND_CAPACITY := 1024
  const RESPONSE_CAPACITY := 256

  datatype Entry = Entry(id: string, command: string, response: string)

  datatype Slot = Free | Occupied(entry: Entry)

  datatype Lookup = Miss | Match(response: string) | Conflict

  /** What the slot arrays can hold. */
  predicate Storable(e: Entry) {
    0 < |e.id| < ID_CAPACITY && 0 < |e.command| < COMMAND_CAPACITY && 0 < |e.response| < RESPONSE_CAPACITY
  }

  // ---------------------------------------------------------------- the cache as a list

  /** The entries still held, out of all that were ever stored. */
  function Recent(history: seq<Entry>): seq<Entry> {
    if |history| <= SLOTS then history else history[|history| - SLOTS..]
  }

  predicate Knows(recent: seq<Entry>, id: string) { exists k :: 0 <= k < |recent| && recent[k].id == id }

  predicate DistinctIds(recent: seq<Entry>) { forall i, j | 0 <= i < j < |recent| :: recent[i].id != recent[j].id }

  /** The answers a search may give. */
  ghost predicate Found(recent: seq<Entry>, id: string, command: string, r: Lookup) {
    match r
    case Miss => !Knows(recent, id)
    case Match(response) => Entry(id, command, response) in recent
    case Conflict => exists k :: 0 <= k < |recent| && recent[k].id == id && recent[k].command != command
  }

  /** With distinct ids there is only one. */
  lemma FoundIsUnique(recent: seq<Entry>, id: string, command: string, a: Lookup, b: Lookup)
    requires DistinctIds(recent) && Found(recent, id, command, a) && Found(recent, id, command, b)
    ensures a == b
  {}

  // ---------------------------------------------------------------- handling requests

  /** One accepted request and what executing it would yield: a response, or none if execution or building
      the response fails. */
  datatype Request = Request(id: string, command: string, response: Option<string>)

  /** `executed` lists the requests whose command was run; `answers` the responses handed to the publisher. */
  datatype Worker = Worker(history: seq<Entry>, executed: seq<Request>, answers: seq<Answer>, stopped: bool)

  datatype Answer = Stored(id: string, response: string) | Refused(id: string)

  const FRESH := Worker([], [], [], false)

  function Search(recent: seq<Entry>, id: string, command: string): Lookup {
    if recent == [] then Miss
    else if recent[0].id == id then (if recent[0].command == command then Match(recent[0].response) else Conflict)
    else Search(recent[1..], id, command)
  }

  lemma {:induction false} SearchFinds(recent: seq<Entry>, id: string, command: string)
    ensures Found(recent, id, command, Search(recent, id, command))
    decreases |recent|
  {
    if recent != [] && recent[0].id != id {
      var rest := recent[1..];
      SearchFinds(rest, id, command);
      assert forall k | 0 <= k < |rest| :: rest[k] == recent[k + 1];
      match Search(rest, id, command) {
        case Miss =>
          assert forall k | 0 <= k < |recent| :: k == 0 || recent[k] == rest[k - 1];
        case Match(_) =>
        case Conflict =>
          var k :| 0 <= k < |rest| && rest[k].id == id && rest[k].command != command;
          assert recent[k + 1] == rest[k];
      }
    }
  }

  /** A failed execution or a response that cannot be stored ends the worker. */
  function Handle(w: Worker, r: Request): Worker {
    if w.stopped then w
    else
      match Search(Recent(w.history), r.id, r.command)
      case Match(response) => w.(answers := w.answers + [Stored(r.id, response)])
      case Conflict => w.(answers := w.answers + [Refused(r.id)])
      case Miss =>
        var ran := w.(executed := w.executed + [r]);
        if r.response.None? || !Storable(Entry(r.id, r.command, r.response.value)) then ran.(stopped := true)
        else
          ran.(history := w.history + [Entry(r.id, r.command, r.response.value)],
               answers := w.answers + [Stored(r.id, r.response.value)])
  }

  function HandleAll(w: Worker, rs: seq<Request>): Worker
    decreases |rs|
  {
    if rs == [] then w else HandleAll(Handle(w, rs[0]), rs[1..])
  }

  // ---------------------------------------------------------------- what every sequence of requests keeps

  /** Executions of the same id are more than a ring apart. */
  predicate Spaced(executed: seq<Request>) {
    forall i, j | 0 <= i < j < |executed| && executed[i].id == executed[j].id :: j - i > SLOTS
  }

  /** Every execution but a failing last one is in the history. */
  ghost predicate InStep(w: Worker) {
    && |w.history| <= |w.executed| <= |w.history| + (if w.stopped then 1 else 0)
    && (forall i | 0 <= i < |w.history| ::
          && w.history[i].id == w.executed[i].id && w.history[i].command == w.executed[i].command
          && Some(w.history[i].response) == w.executed[i].response)
  }

  /** Every stored answer is the response of an execution with that id. */
  ghost predicate AnswersOk(w: Worker) {
    forall k | 0 <= k < |w.answers| && w.answers[k].Stored? ::
      exists i :: 0 <= i < |w.history| && w.history[i].id == w.answers[k].id && w.history[i].response == w.answers[k].response
  }

  lemma RecentAt(history: seq<Entry>, j: nat)
    requires j < |history|
    ensures |history| - SLOTS <= j ==> history[j] in Recent(history)
  {
    var first := if |history| <= SLOTS then 0 else |history| - SLOTS;
    assert first <= j ==> Recent(history)[j - first] == history[j];
  }

  lemma HandleKeeps(w: Worker, r: Request)
    requires InStep(w) && Spaced(w.executed) && AnswersOk(w)
    ensures var v := Handle(w, r); InStep(v) && Spaced(v.executed) && AnswersOk(v)
    ensures w.history <= Handle(w, r).history
  {
    var recent, v := Recent(w.history), Handle(w, r);
    SearchFinds(recent, r.id, r.command);
    HandleKeepsExecutions(w, r);
    forall k | 0 <= k < |v.answers| && v.answers[k].Stored?
      ensures exists i :: 0 <= i < |v.history| && v.history[i].id == v.answers[k].id && v.history[i].response == v.answers[k].response
    {
      if k < |w.answers| {
        var i :| 0 <= i < |w.history| && w.history[i].id == w.answers[k].id && w.history[i].response == w.answers[k].response;
        assert v.history[i] == w.history[i];
      } else if Search(recent, r.id, r.command).Match? {
        var i :| 0 <= i < |recent| && recent[i] == Entry(r.id, r.command, v.answers[k].response);
        var first := |w.history| - |recent|;
        assert w.history[first + i] == recent[i];
      } else {
        assert v.history[|w.history|].id == r.id;
      }
    }
  }

  lemma HandleKeepsExecutions(w: Worker, r: Request)
    requires InStep(w) && Spaced(w.executed)
    ensures var v := Handle(w, r); InStep(v) && Spaced(v.executed)
  {
    var recent, v := Recent(w.history), Handle(w, r);
    SearchFinds(recent, r.id, r.command);
    if v.executed != w.executed {
      var n := |w.executed|;
      forall i | 0 <= i < n && w.executed[i].id == r.id ensures n - i > SLOTS {
        RecentAt(w.history, i);
        assert !Knows(recent, w.history[i].id);
      }
    }
  }

  /** Whatever requests arrive in whatever order and repetition: two executions of the same request id
      have at least sixteen other executions between them, and every answer that is not a refusal is the
      response of an execution of that very id. */
  lemma {:induction false} NeverRunTwiceSoon(w: Worker, rs: seq<Request>)
    requires InStep(w) && Spaced(w.executed) && AnswersOk(w)
    ensures var v := HandleAll(w, rs); InStep(v) && Spaced(v.executed) && AnswersOk(v) && w.history <= v.history
    decreases |rs|
  {
    if rs != [] {
      hide InStep, Spaced, AnswersOk, Handle;
      HandleKeeps(w, rs[0]);
      NeverRunTwiceSoon(Handle(w, rs[0]), rs[1..]);
    }
  }

  lemma RecentDistinct(w: Worker)
    requires InStep(w) && Spaced(w.executed)
    ensures DistinctIds(Recent(w.history))
  {
    var recent := Recent(w.history);
    var first := |w.history| - |recent|;
    forall i, j | 0 <= i < j < |recent| ensures recent[i].id != recent[j].id {
      assert recent[i] == w.history[first + i] && recent[j] == w.history[first + j];
      assert w.executed[first + i].id == recent[i].id && w.executed[first + j].id == recent[j].id;
    }
  }

  /** A request repeated before sixteen further executions is answered with the original response if its
      command is the same and refused if it is not; it is not executed and the cache is not touched. */
  lemma RepeatIsAnswered(w: Worker, k: nat, r: Request)
    requires InStep(w) && Spaced(w.executed) && !w.stopped
    requires k < |w.history| && |w.history| - k <= 16 && r.id == w.history[k].id
    ensures Handle(w, r) == w.(answers := w.answers + [if r.command == w.history[k].command
                                                       then Stored(r.id, w.history[k].response) else Refused(r.id)])
  {
    var recent := Recent(w.history);
    RecentDistinct(w);
    RecentAt(w.history, k);
    SearchFinds(recent, r.id, r.command);
    var expected := if r.command == w.history[k].command then Match(w.history[k].response) else Conflict;
    FoundIsUnique(recent, r.id, r.command, Search(recent, r.id, r.command), expected);
  }

  // ---------------------------------------------------------------- every request is answered

  /** A request whose id is not among the sixteen latest is executed, stored and answered with its own response;
      if there is none, or it cannot be stored, the worker ends without an answer. */
  lemma NewIsExecuted(w: Worker, r: Request)
    requires !w.stopped && forall k | 0 <= k < |w.history| && |w.history| - 16 <= k :: w.history[k].id != r.id
    ensures var v := Handle(w, r);
            && v.executed == w.executed + [r]
            && (v.stopped <==> r.response.None? || !Storable(Entry(r.id, r.command, r.response.value)))
            && (!v.stopped ==>
                  && v.history == w.history + [Entry(r.id, r.command, r.response.value)]
                  && v.answers == w.answers + [Stored(r.id, r.response.value)])
            && (v.stopped ==> v.history == w.history && v.answers == w.answers)
  {
    Forgotten(w.history, r.id);
    hide Recent, Storable;
    SearchFinds(Recent(w.history), r.id, r.command);
  }

  lemma Forgotten(history: seq<Entry>, id: string)
    requires forall k | 0 <= k < |history| && |history| - 16 <= k :: history[k].id != id
    ensures !Knows(Recent(history), id)
  {
    var recent := Recent(history);
    assert forall k | 0 <= k < |recent| :: recent[k] == history[|history| - |recent| + k];
  }

  /** The limits of the three strings, terminators counted. */
  lemma StorableMeans(e: Entry)
    ensures Storable(e) <==> 1 <= |e.id| <= 63 && 1 <= |e.command| <= 1023 && 1 <= |e.response| <= 255
  {}

  /** A repetition that does not repeat exactly is refused, and nothing else is. */
  predicate RightAnswer(w: Worker, r: Request, a: Answer) {
    && a.id == r.id
    && (a.Refused? <==> exists k :: 0 <= k < |Recent(w.history)| && Recent(w.history)[k].id == r.id
                                    && Recent(w.history)[k].command != r.command)
    && (a.Stored? ==> if Knows(Recent(w.history), r.id) then Entry(r.id, r.command, a.response) in Recent(w.history)
                      else r.response == Some(a.response))
  }

  /** Answer `k` is right for the state in which request `k` found the worker. */
  predicate AnsweredAt(w: Worker, rs: seq<Request>, k: nat, a: Answer)
    requires k < |rs|
  {
    RightAnswer(HandleAll(w, rs[..k]), rs[k], a)
  }

  predicate AllAnswered(w: Worker, rs: seq<Request>, answers: seq<Answer>) {
    |answers| == |rs| && forall k | 0 <= k < |rs| :: AnsweredAt(w, rs, k, answers[k])
  }

  lemma HandleAnswers(w: Worker, r: Request)
    requires InStep(w) && Spaced(w.executed) && !w.stopped
    ensures var v := Handle(w, r);
            && (v.stopped ==> v.answers == w.answers)
            && (!v.stopped ==> |v.answers| == |w.answers| + 1 && w.answers <= v.answers
                               && RightAnswer(w, r, v.answers[|w.answers|]))
  {
    var recent := Recent(w.history);
    RecentDistinct(w);
    hide InStep, Spaced, Recent;
    SearchFinds(recent, r.id, r.command);
    if Search(recent, r.id, r.command).Match? {
      var k :| 0 <= k < |recent| && recent[k] == Entry(r.id, r.command, Search(recent, r.id, r.command).response);
      assert Knows(recent, r.id);
    }
  }

  /** As long as the worker runs, every request gets exactly one answer, in order, under its own id: a refusal
      if a recent request had the id but another command, else the stored response, else the one that
      executing it gave. */
  lemma {:induction false} OneAnswerEach(w: Worker, rs: seq<Request>)
    requires InStep(w) && Spaced(w.executed) && AnswersOk(w) && !HandleAll(w, rs).stopped
    ensures var v := HandleAll(w, rs);
            && |v.answers| == |w.answers| + |rs| && w.answers <= v.answers
            && AllAnswered(w, rs, v.answers[|w.answers|..])
    decreases |rs|
  {
    hide InStep, Spaced, AnswersOk, Handle, RightAnswer, AnsweredAt;
    if rs != [] {
      var u, v := Handle(w, rs[0]), HandleAll(w, rs);
      HandleKeeps(w, rs[0]);
      StoppedStays(w, rs);
      StoppedStays(u, rs[1..]);
      HandleAnswers(w, rs[0]);
      OneAnswerEach(u, rs[1..]);
      var n := |w.answers|;
      AnswersOfRest(w, rs, u.answers[n], v.answers[n + 1..]);
      assert v.answers[n..] == [u.answers[n]] + v.answers[n + 1..];
    }
  }

  lemma AnswersOfRest(w: Worker, rs: seq<Request>, a: Answer, rest: seq<Answer>)
    requires rs != [] && RightAnswer(w, rs[0], a) && AllAnswered(Handle(w, rs[0]), rs[1..], rest)
    ensures AllAnswered(w, rs, [a] + rest)
  {
    assert HandleAll(w, rs[..0]) == w;
    hide Handle, RightAnswer, HandleAll;
    forall k | 0 <= k < |rs| ensures AnsweredAt(w, rs, k, ([a] + rest)[k]) {
      if k > 0 {
        BeforeRest(w, rs, k);
        assert AnsweredAt(Handle(w, rs[0]), rs[1..], k - 1, rest[k - 1]);
      }
    }
  }

  lemma BeforeRest(w: Worker, rs: seq<Request>, k: nat)
    requires 0 < k < |rs|
    ensures HandleAll(w, rs[..k]) == HandleAll(Handle(w, rs[0]), rs[1..][..k - 1]) && rs[k] == rs[1..][k - 1]
  {
    hide Handle;
    assert rs[..k][0] == rs[0] && rs[..k][1..] == rs[1..][..k - 1];
  }

  lemma {:induction false} StoppedStays(w: Worker, rs: seq<Request>)
    ensures w.stopped ==> HandleAll(w, rs) == w
    decreases |rs|
  {
    if rs != [] { StoppedStays(Handle(w, rs[0]), rs[1..]); }
  }

  /** The worker ends exactly at a request whose id is not recent and that yields nothing it can store. */
  lemma {:induction false} StopsIff(w: Worker, rs: seq<Request>)
    requires !w.stopped
    ensures HandleAll(w, rs).stopped <==> exists k :: 0 <= k < |rs| && Ends(HandleAll(w, rs[..k]), rs[k])
    decreases |rs|
  {
    if rs != [] {
      var u := Handle(w, rs[0]);
      HandleEnds(w, rs[0]);
      StoppedStays(u, rs[1..]);
      assert HandleAll(w, rs[..0]) == w;
      assert HandleAll(w, rs) == HandleAll(u, rs[1..]);
      hide Handle, Ends, HandleAll;
      if !u.stopped {
        StopsIff(u, rs[1..]);
        if HandleAll(u, rs[1..]).stopped {
          var k :| 0 <= k < |rs[1..]| && Ends(HandleAll(u, rs[1..][..k]), rs[1..][k]);
          BeforeRest(w, rs, k + 1);
          assert Ends(HandleAll(w, rs[..k + 1]), rs[k + 1]);
        }
        if k: int :| 0 <= k < |rs| && Ends(HandleAll(w, rs[..k]), rs[k]) {
          if k > 0 { BeforeRest(w, rs, k); }
        }
      } else {
        assert Ends(HandleAll(w, rs[..0]), rs[0]);
      }
    }
  }

  predicate Ends(w: Worker, r: Request) {
    && !w.stopped && !Knows(Recent(w.history), r.id)
    && (r.response.None? || !Storable(Entry(r.id, r.command, r.response.value)))
  }

  lemma HandleEnds(w: Worker, r: Request)
    requires !w.stopped
    ensures Handle(w, r).stopped <==> Ends(w, r)
  {
    SearchFinds(Recent(w.history), r.id, r.command);
    if Search(Recent(w.history), r.id, r.command).Match? {
      var recent := Recent(w.history);
      var k :| 0 <= k < |recent| && recent[k] == Entry(r.id, r.command, Search(recent, r.id, r.command).response);
      assert Knows(recent, r.id);
    }
  }

  // ---------------------------------------------------------------- the ring

  class Cache {
    const entries: array<Slot>
    var next: nat
    ghost var history: seq<Entry>

    ghost predicate Valid()
      reads this, entries
    {
      && entries.Length == SLOTS && next == |history| % SLOTS
      && (forall j | 0 <= j < |history| && |history| - SLOTS <= j :: entries[j % SLOTS] == Occupied(history[j]))
      && (forall i | |history| <= i < SLOTS :: entries[i] == Free)
    }

    constructor ()
      ensures Valid() && fresh(entries) && history == []
    {
      entries := new Slot[SLOTS](_ => Free);
      next := 0;
      history := [];
    }

    /** Every slot holds a recent entry or nothing, and every recent entry has its slot. */
    lemma SlotsAreRecent()
      requires Valid()
      ensures forall i | 0 <= i < SLOTS :: entries[i] == Free || entries[i].entry in Recent(history)
      ensures forall e | e in Recent(history) :: exists i :: 0 <= i < SLOTS && entries[i] == Occupied(e)
    {
      assert entries.Length == SLOTS;
      hide Valid, Recent;
      forall i | 0 <= i < SLOTS ensures entries[i] == Free || entries[i].entry in Recent(history) { SlotIsRecent(i); }
      forall e | e in Recent(history) ensures exists i :: 0 <= i < SLOTS && entries[i] == Occupied(e) {
        var i := RecentHasSlot(e);
      }
    }

    lemma SlotIsRecent(i: nat)
      requires Valid() && i < SLOTS
      ensures entries[i] == Free || entries[i].entry in Recent(history)
    {
      if i < |history| {
        var j := LatestAt(|history|, i);
        assert entries[j % SLOTS] == Occupied(history[j]);
        RecentAt(history, j);
      }
    }

    lemma RecentHasSlot(e: Entry) returns (i: nat)
      requires Valid() && e in Recent(history)
      ensures i < SLOTS && entries[i] == Occupied(e)
    {
      var k :| 0 <= k < |Recent(history)| && Recent(history)[k] == e;
      var j := |history| - |Recent(history)| + k;
      i := j % SLOTS;
      assert history[j] == e && entries[j % SLOTS] == Occupied(e);
    }

    /** gateway_find_cached_command_response. */
    method Find(id: string, command: string) returns (r: Lookup)
      requires Valid()
      ensures Found(Recent(history), id, command, r)
    {
      assert entries.Length == SLOTS;
      SlotsAreRecent();
      hide Recent, Valid;
      for index := 0 to SLOTS
        invariant forall i | 0 <= i < index :: entries[i] == Free || entries[i].entry.id != id
      {
        if entries[index].Occupied? && entries[index].entry.id == id {
          var entry := entries[index].entry;
          assert entry in Recent(history);
          if entry.command == command {
            return Match(entry.response);
          }
          return Conflict;
        }
      }
      forall k | 0 <= k < |Recent(history)| ensures Recent(history)[k].id != id {
        assert Recent(history)[k] in Recent(history);
      }
      return Miss;
    }

    /** gateway_cache_command_response. */
    method Store(id: string, command: string, response: string) returns (ok: bool)
      requires Valid()
      modifies this, entries
      ensures Valid()
      ensures ok <==> Storable(Entry(id, command, response))
      ensures history == if ok then old(history) + [Entry(id, command, response)] else old(history)
    {
      if |id| == 0 || |response| == 0 || |command| == 0 {
        return false;
      }
      if |id| >= ID_CAPACITY || |response| >= RESPONSE_CAPACITY || |command| >= COMMAND_CAPACITY {
        return false;
      }
      entries[next] := Occupied(Entry(id, command, response));
      next := (next + 1) % SLOTS;
      history := history + [Entry(id, command, response)];
      return true;
    }
  }

  lemma LatestAt(n: nat, i: nat) returns (j: nat)
    requires i < SLOTS && i < n
    ensures j < n && n - SLOTS <= j && j % SLOTS == i
  {
    j := i + (n - 1 - i) / SLOTS * SLOTS;
  }

  /** The part of gateway_mqtt_command_worker behind the checks of a request. */
  class CommandWorker {
    const cache: Cache
    var stopped: bool
    ghost var executed: seq<Request>
    ghost var answers: seq<Answer>

    ghost function Abs(): Worker
      reads this, cache
    {
      Worker(cache.history, executed, answers, stopped)
    }

    constructor ()
      ensures cache.Valid() && fresh(cache) && fresh(cache.entries) && Abs() == FRESH
    {
      cache := new Cache();
      stopped, executed, answers := false, [], [];
    }

    /** `reply` is what executing the command and building the response gives. */
    method HandleRequest(id: string, command: string, reply: Option<string>) returns (answer: Option<Answer>)
      requires cache.Valid() && InStep(Abs()) && Spaced(executed) && AnswersOk(Abs()) && !stopped
      modifies this, cache, cache.entries
      ensures cache.Valid() && Abs() == Handle(old(Abs()), Request(id, command, reply))
      ensures InStep(Abs()) && Spaced(executed) && AnswersOk(Abs())
      ensures answers == old(answers) + (if answer.Some? then [answer.value] else [])
    {
      ghost var before, request := Abs(), Request(id, command, reply);
      RecentDistinct(before);
      SearchFinds(Recent(cache.history), id, command);
      HandleKeeps(before, request);
      hide InStep, Spaced, AnswersOk;
      var found := cache.Find(id, command);
      FoundIsUnique(Recent(cache.history), id, command, found, Search(Recent(cache.history), id, command));
      if found.Match? {
        answers := answers + [Stored(id, found.response)];
        return Some(Stored(id, found.response));
      }
      if found.Conflict? {
        answers := answers + [Refused(id)];
        return Some(Refused(id));
      }
      executed := executed + [request];
      if reply.None? {
        stopped := true;
        return None;
      }
      var cached := cache.Store(id, command, reply.value);
      if !cached {
        stopped := true;
        return None;
      }
      answers := answers + [Stored(id, reply.value)];
      return Some(Stored(id, reply.value));
    }
  }
}
