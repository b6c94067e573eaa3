/**
 The idempotent consumer: every delivery registers its message id in an inbox and writes its business row
 in the same transaction, so redelivery of a message has no second effect.
 */
module Consumer {
  import opened Common
  import opened Measurements
  import opened OutboxStore

  datatype ConsumerResult = ConsumerError | ConsumerDuplicate | ConsumerProcessed

  datatype Tables = Tables(inbox: map<string, Json>, business: map<string, Measurement>)

  const NO_ROWS := Tables(map[], map[])

  datatype Parsed = Parsed(id: string, measurement: Measurement)

  /** parse_consumer_message. */
  function Parse(payload: Json): Option<Parsed> {
    match (FromJson(payload), Get(payload, MessageId))
    case (Some(m), Some(JsonString(id))) => if HexId(id) then Some(Parsed(id, m)) else None
    case _ => None
  }

  // The calls of one delivery: 0 BEGIN, 1 inbox insert, 2 duplicate lookup or business insert, 3 COMMIT.
  const CALLS := 4

  /** One delivery as the database sees it. */
  function Deliver(t: Tables, payload: Json, codes: seq<SqlCode>): (Tables, ConsumerResult) {
    match Parse(payload)
    case None => (t, ConsumerError)
    case Some(Parsed(id, m)) =>
      if !AllOk(codes, CALLS) then (t, ConsumerError)
      else if id !in t.inbox then
        if id in t.business then (t, ConsumerError)
        else (Tables(t.inbox[id := payload], t.business[id := m]), ConsumerProcessed)
      else if t.inbox[id] == payload then (t, ConsumerDuplicate)
      else (t, ConsumerError)
  }

  // ---------------------------------------------------------------- every sequence of deliveries

  datatype Delivery = Delivery(payload: Json, codes: seq<SqlCode>)

  function DeliverAll(t: Tables, ds: seq<Delivery>): Tables
    decreases |ds|
  {
    if ds == [] then t else DeliverAll(Deliver(t, ds[0].payload, ds[0].codes).0, ds[1..])
  }

  /** Each inbox row has its one business row, and both come from the stored payload. */
  ghost predicate InStep(t: Tables) {
    && t.inbox.Keys == t.business.Keys
    && (forall id | id in t.inbox :: Parse(t.inbox[id]) == Some(Parsed(id, t.business[id])))
  }

  /** Rows are only added. */
  ghost predicate Extends(t: Tables, u: Tables) {
    forall id | id in t.inbox :: id in u.inbox && u.inbox[id] == t.inbox[id]
  }

  lemma DeliverKeeps(t: Tables, payload: Json, codes: seq<SqlCode>)
    requires InStep(t)
    ensures InStep(Deliver(t, payload, codes).0) && Extends(t, Deliver(t, payload, codes).0)
  {
    hide Parse;
  }

  lemma {:induction false} DeliverAllKeeps(t: Tables, ds: seq<Delivery>)
    requires InStep(t)
    ensures InStep(DeliverAll(t, ds)) && Extends(t, DeliverAll(t, ds))
    ensures forall id | id in DeliverAll(t, ds).inbox ::
              id in t.inbox || exists k :: 0 <= k < |ds| && ds[k].payload == DeliverAll(t, ds).inbox[id]
    decreases |ds|
  {
    hide Parse, InStep;
    if ds != [] {
      var u := Deliver(t, ds[0].payload, ds[0].codes).0;
      var v := DeliverAll(t, ds);
      DeliverKeeps(t, ds[0].payload, ds[0].codes);
      DeliverAllKeeps(u, ds[1..]);
      forall id | id in v.inbox && id !in t.inbox
        ensures exists k :: 0 <= k < |ds| && ds[k].payload == v.inbox[id]
      {
        if id in u.inbox {
          assert u.inbox[id] == ds[0].payload == v.inbox[id];
        } else {
          var k :| 0 <= k < |ds| - 1 && ds[1..][k].payload == v.inbox[id];
          assert ds[k + 1].payload == v.inbox[id];
        }
      }
    }
  }

  /** Payloads that share a message id are equal: what a producer with stable identities sends. */
  ghost predicate NoConflict(t: Tables, ds: seq<Delivery>) {
    && (forall i, j | 0 <= i < |ds| && 0 <= j < |ds| && SameId(ds[i].payload, ds[j].payload) ::
          ds[i].payload == ds[j].payload)
    && (forall i, id | 0 <= i < |ds| && id in t.inbox && SameId(ds[i].payload, t.inbox[id]) :: ds[i].payload == t.inbox[id])
  }

  predicate SameId(a: Json, b: Json) {
    Parse(a).Some? && Parse(b).Some? && Parse(a).value.id == Parse(b).value.id
  }

  /** A delivery that parses and meets no database failure leaves its message processed, whether it was
      the first or a repetition; without conflicting payloads it never reports an error. */
  lemma DeliverProcesses(t: Tables, payload: Json, codes: seq<SqlCode>)
    requires InStep(t) && Parse(payload).Some? && AllOk(codes, CALLS)
    requires forall id | id in t.inbox && SameId(payload, t.inbox[id]) :: payload == t.inbox[id]
    ensures Deliver(t, payload, codes).1 != ConsumerError
    ensures Parse(payload).value.id in Deliver(t, payload, codes).0.inbox
    ensures Deliver(t, payload, codes).0.inbox[Parse(payload).value.id] == payload
  {}

  lemma {:induction false} DeliveredIsProcessed(t: Tables, ds: seq<Delivery>, k: nat)
    requires InStep(t) && NoConflict(t, ds)
    requires k < |ds| && Parse(ds[k].payload).Some? && AllOk(ds[k].codes, CALLS)
    ensures var id := Parse(ds[k].payload).value.id;
            && id in DeliverAll(t, ds).inbox && DeliverAll(t, ds).inbox[id] == ds[k].payload
            && id in DeliverAll(t, ds).business
            && DeliverAll(t, ds).business[id] == Parse(ds[k].payload).value.measurement
    decreases |ds|
  {
    var u := Deliver(t, ds[0].payload, ds[0].codes).0;
    DeliverKeeps(t, ds[0].payload, ds[0].codes);
    DeliverAllKeeps(u, ds[1..]);
    if k == 0 {
      DeliverProcesses(t, ds[0].payload, ds[0].codes);
    } else {
      NoConflictRest(t, ds);
      DeliveredIsProcessed(u, ds[1..], k - 1);
    }
  }

  lemma NoConflictRest(t: Tables, ds: seq<Delivery>)
    requires InStep(t) && NoConflict(t, ds) && ds != []
    ensures NoConflict(Deliver(t, ds[0].payload, ds[0].codes).0, ds[1..])
  {
    hide Parse;
    var u := Deliver(t, ds[0].payload, ds[0].codes).0;
    assert forall i | 0 <= i < |ds| - 1 :: ds[1..][i] == ds[i + 1];
  }

  /** Without conflicting payloads no delivery that meets a working database is refused. */
  lemma {:induction false} NeverRefused(t: Tables, ds: seq<Delivery>, k: nat)
    requires InStep(t) && NoConflict(t, ds)
    requires k < |ds| && Parse(ds[k].payload).Some? && AllOk(ds[k].codes, CALLS)
    ensures Deliver(DeliverAll(t, ds[..k]), ds[k].payload, ds[k].codes).1 != ConsumerError
    decreases k
  {
    if k == 0 {
      DeliverProcesses(t, ds[0].payload, ds[0].codes);
    } else {
      var u := Deliver(t, ds[0].payload, ds[0].codes).0;
      DeliverKeeps(t, ds[0].payload, ds[0].codes);
      NoConflictRest(t, ds);
      hide Parse, InStep, NoConflict, Deliver, AllOk;
      assert ds[..k][0] == ds[0] && ds[..k][1..] == ds[1..][..k - 1] && ds[1..][k - 1] == ds[k];
      NeverRefused(u, ds[1..], k - 1);
    }
  }

  // ---------------------------------------------------------------- which answer is given

  /** Which payloads are messages: those that say a valid measurement and carry an id of thirty-two lower-case
      hexadecimal digits. */
  lemma ParsedIff(payload: Json, id: string, m: Measurement)
    ensures Parse(payload) == Some(Parsed(id, m)) <==>
              && Valid(m) && Says(payload, m) && Get(payload, MessageId) == Some(JsonString(id))
              && |id| == 32 && forall i | 0 <= i < 32 :: '0' <= id[i] <= '9' || 'a' <= id[i] <= 'f'
  {
    AcceptedIffSaid(payload, m);
    hide FromJson, Get, Says, Valid;
  }

  /** The delivery parses, carries message id `id` and meets no database failure. */
  predicate Carries(d: Delivery, id: string) {
    Parse(d.payload).Some? && Parse(d.payload).value.id == id && AllOk(d.codes, CALLS)
  }

  /** In every database whose tables are in step, one that works: a message is refused exactly if another
      payload is stored under its id, and processed exactly if its id has no business row yet. */
  lemma DeliverAnswers(t: Tables, payload: Json, codes: seq<SqlCode>)
    requires InStep(t) && Parse(payload).Some? && AllOk(codes, CALLS)
    ensures var result := Deliver(t, payload, codes).1;
            && (result == ConsumerError <==> exists id :: id in t.inbox && SameId(payload, t.inbox[id]) && t.inbox[id] != payload)
            && (result == ConsumerProcessed <==> Parse(payload).value.id !in t.business)
  {
    var id := Parse(payload).value.id;
    if id in t.inbox { assert SameId(payload, t.inbox[id]); }
    hide Parse;
  }

  /** A business row without its inbox row is never overwritten: the message is refused and nothing changes. */
  lemma StrayRowRefuses(t: Tables, payload: Json, codes: seq<SqlCode>)
    requires Parse(payload).Some? && Parse(payload).value.id in t.business && Parse(payload).value.id !in t.inbox
    ensures Deliver(t, payload, codes) == (t, ConsumerError)
  {
    hide Parse;
  }

  /** The first of the deliveries that carries `id`. */
  ghost predicate FirstWith(ds: seq<Delivery>, id: string, j: nat) {
    j < |ds| && Carries(ds[j], id) && forall i | 0 <= i < j :: !Carries(ds[i], id)
  }

  /** What the inbox holds after any deliveries: under an id that was new, the payload of the first delivery
      that carried it and met a working database, and nothing if there was none. */
  lemma {:induction false} InboxHoldsFirst(t: Tables, ds: seq<Delivery>, id: string)
    requires InStep(t)
    ensures var u := DeliverAll(t, ds);
            && (id in t.inbox ==> id in u.inbox && u.inbox[id] == t.inbox[id])
            && (id !in t.inbox && id in u.inbox ==> exists j: nat :: FirstWith(ds, id, j) && j < |ds| && u.inbox[id] == ds[j].payload)
            && (id !in t.inbox && id !in u.inbox ==> forall j | 0 <= j < |ds| :: !Carries(ds[j], id))
    decreases |ds|
  {
    if ds != [] {
      var u := Deliver(t, ds[0].payload, ds[0].codes).0;
      DeliverKeeps(t, ds[0].payload, ds[0].codes);
      InboxHoldsFirst(u, ds[1..], id);
      hide Parse, InStep, Deliver, Carries, DeliverAll, FirstWith;
      RunsOn(t, ds);
      if id !in t.inbox {
        DeliverStores(t, ds[0], id);
        if id in u.inbox {
          assert FirstWith(ds, id, 0) by { FirstAtOnce(ds, id); }
        } else if id in DeliverAll(u, ds[1..]).inbox {
          var j: nat :| FirstWith(ds[1..], id, j) && DeliverAll(u, ds[1..]).inbox[id] == ds[1..][j].payload;
          FirstOfRest(ds, id, j);
        } else {
          assert forall j | 0 < j < |ds| :: ds[j] == ds[1..][j - 1];
        }
      }
    }
  }

  lemma RunsOn(t: Tables, ds: seq<Delivery>)
    requires ds != []
    ensures DeliverAll(t, ds) == DeliverAll(Deliver(t, ds[0].payload, ds[0].codes).0, ds[1..])
  {
    hide Deliver;
  }

  lemma FirstAtOnce(ds: seq<Delivery>, id: string)
    requires ds != [] && Carries(ds[0], id)
    ensures FirstWith(ds, id, 0)
  {}

  lemma FirstOfRest(ds: seq<Delivery>, id: string, j: nat)
    requires ds != [] && !Carries(ds[0], id) && FirstWith(ds[1..], id, j)
    ensures FirstWith(ds, id, j + 1) && ds[1..][j] == ds[j + 1]
  {
    hide Carries;
    assert forall i | 0 < i < |ds| :: ds[i] == ds[1..][i - 1];
  }

  /** One delivery stores its own id only, and that one if it carries it. */
  lemma DeliverStores(t: Tables, d: Delivery, id: string)
    requires InStep(t) && id !in t.inbox
    ensures var u := Deliver(t, d.payload, d.codes).0;
            (id in u.inbox <==> Carries(d, id)) && (id in u.inbox ==> u.inbox[id] == d.payload)
  {
    hide Parse;
  }

  /** The answer in terms of the stored payload. */
  lemma StoredDecides(t: Tables, d: Delivery, id: string)
    requires InStep(t) && Carries(d, id)
    ensures Deliver(t, d.payload, d.codes).1
            == if id !in t.inbox then ConsumerProcessed
               else if t.inbox[id] == d.payload then ConsumerDuplicate else ConsumerError
  {
    hide Parse;
  }

  /** The answer that delivery `k` of a list deserves, given that it carries `id`. */
  ghost predicate Deserves(ds: seq<Delivery>, k: nat, id: string, result: ConsumerResult)
    requires k < |ds|
  {
    && (result == ConsumerProcessed <==> FirstWith(ds, id, k))
    && (result == ConsumerDuplicate <==> exists j: nat :: j < k && FirstWith(ds, id, j) && ds[j].payload == ds[k].payload)
    && (result == ConsumerError <==> exists j: nat :: j < k && FirstWith(ds, id, j) && ds[j].payload != ds[k].payload)
  }

  lemma KnownDeserves(ds: seq<Delivery>, k: nat, id: string, j: nat)
    requires k < |ds| && j < k && FirstWith(ds, id, j)
    ensures Deserves(ds, k, id, if ds[j].payload == ds[k].payload then ConsumerDuplicate else ConsumerError)
  {
    hide Carries;
    forall i: nat | FirstWith(ds, id, i) ensures i == j {}
  }

  lemma FirstPrefix(ds: seq<Delivery>, k: nat, id: string, j: nat)
    requires k <= |ds| && j < k
    ensures FirstWith(ds[..k], id, j) <==> FirstWith(ds, id, j)
  {
    hide Carries;
    assert forall i | 0 <= i < k :: ds[..k][i] == ds[i];
  }

  /** The answer to every delivery of every sequence, in terms of the deliveries alone. A consumer that starts
      empty processes the first delivery of an id, calls a later one a duplicate exactly if its payload is that
      of the first, and reports an error exactly if the payload differs, does not parse or a call fails. */
  lemma AnswersFollowFirst(ds: seq<Delivery>, k: nat)
    requires k < |ds|
    ensures var result := Deliver(DeliverAll(NO_ROWS, ds[..k]), ds[k].payload, ds[k].codes).1;
            if Parse(ds[k].payload).None? || !AllOk(ds[k].codes, CALLS) then result == ConsumerError
            else Deserves(ds, k, Parse(ds[k].payload).value.id, result)
  {
    if Parse(ds[k].payload).Some? && AllOk(ds[k].codes, CALLS) {
      var id, u := Parse(ds[k].payload).value.id, DeliverAll(NO_ROWS, ds[..k]);
      assert Carries(ds[k], id);
      DeliverAllKeeps(NO_ROWS, ds[..k]);
      InboxHoldsFirst(NO_ROWS, ds[..k], id);
      hide Parse, Carries, DeliverAll, InStep, Deserves, FirstWith;
      StoredDecides(u, ds[k], id);
      if id in u.inbox {
        var j: nat :| FirstWith(ds[..k], id, j) && u.inbox[id] == ds[..k][j].payload;
        FirstWithin(ds[..k], id, j);
        FirstPrefix(ds, k, id, j);
        KnownDeserves(ds, k, id, j);
      } else {
        NewDeserves(ds, k, id);
      }
    }
  }

  lemma FirstWithin(ds: seq<Delivery>, id: string, j: nat)
    requires FirstWith(ds, id, j)
    ensures j < |ds|
  {}

  lemma NewDeserves(ds: seq<Delivery>, k: nat, id: string)
    requires k < |ds| && Carries(ds[k], id) && forall j | 0 <= j < |ds[..k]| :: !Carries(ds[..k][j], id)
    ensures Deserves(ds, k, id, ConsumerProcessed)
  {
    hide Carries;
    assert forall i | 0 <= i < k :: ds[..k][i] == ds[i];
  }

  // ---------------------------------------------------------------- the code

  /** message_id_is_valid: the read-only loop over the characters. */
  method MessageIdIsValid(id: string) returns (ok: bool)
    ensures ok <==> HexId(id)
  {
    if |id| != 32 {
      return false;
    }
    for index := 0 to 32
      invariant forall i | 0 <= i < index :: HexDigit(id[i])
    {
      var ch := id[index];
      if !('0' <= ch <= '9') && (ch < 'a' || ch > 'f') {
        return false;
      }
    }
    return true;
  }

  /** One run of the consumer. Its program ends at the first error, which drops an open transaction. */
  class Program {
    var committed: Tables
    var working: Tables

    constructor ()
      ensures committed == working == NO_ROWS
    {
      committed, working := NO_ROWS, NO_ROWS;
    }

    /** process_payload. */
    method ProcessPayload(payload: Json, codes: seq<SqlCode>) returns (result: ConsumerResult)
      requires working == committed
      modifies this
      ensures (committed, result) == Deliver(old(committed), payload, codes)
      ensures working == committed
    {
      var measurement, field := FromJson(payload), Get(payload, MessageId);
      if measurement.None? || field.None? || !field.value.JsonString? {
        return ConsumerError;
      }
      var id := field.value.text;
      var idOk := MessageIdIsValid(id);
      if !idOk || Code(codes, 0) != SqlOk {
        return ConsumerError;
      }
      var ok := Code(codes, 1) == SqlOk;
      var inserted := false;
      if ok && id !in working.inbox {
        working := working.(inbox := working.inbox[id := payload]);
        inserted := true;
      }
      if ok && !inserted {
        ok := Code(codes, 2) == SqlOk && working.inbox[id] == payload;
      }
      if ok && inserted {
        ok := Code(codes, 2) == SqlOk && id !in working.business;
        if ok {
          working := working.(business := working.business[id := measurement.value]);
        }
      }
      ok := ok && Code(codes, 3) == SqlOk;
      if !ok {
        working := committed;
        return ConsumerError;
      }
      committed := working;
      return if inserted then ConsumerProcessed else ConsumerDuplicate;
    }
  }
}
