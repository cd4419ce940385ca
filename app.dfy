/** The record store behind the /data and /health handlers: a list that is
    only ever appended to (or cleared as a whole), whose entries are numbered
    by their position. */
module App {
  import opened JsonValue

  /** One stored record: `id`, the submitted object as `content`, and the
      creation time as an ISO-8601 string supplied by the caller. */
  datatype Entry = Entry(id: int, content: Object, timestamp: string)

  /** What POST /data answers: the new entry (status 200), or an HTTP error. */
  datatype CreateResponse =
    | Created(entry: Entry)
    | Rejected(status: int, detail: string)

  /** What GET /data answers: `{count, data}`. */
  datatype DataListing = DataListing(count: int, data: seq<Entry>)

  /** What GET /health answers: `{status, timestamp, service}`. */
  datatype HealthResponse = HealthResponse(status: string, timestamp: string, service: string)

  /** The list after a create, together with the response sent back. */
  datatype CreateOutcome = CreateOutcome(entries: seq<Entry>, response: CreateResponse)

  /** One POST /data request: its body and the clock reading at the time it is handled. */
  datatype Request = Request(item: Object, timestamp: string)

  const BadRequest: int := 400
  const EmptyDataDetail: string := "Empty data not allowed"
  const HealthyStatus: string := "healthy"
  const ServiceName: string := "devops-assessment-api"

  /** The store invariant: every entry's id is its position plus one. */
  predicate IdsArePositions(es: seq<Entry>)
  {
    forall i :: 0 <= i < |es| ==> es[i].id == i + 1
  }

  /** create_data on the list `es`: an empty body is refused with 400 and the
      list stays as it was; any other body is appended as a new entry whose id
      is the old length plus one. */
  function CreateStep(es: seq<Entry>, item: Object, timestamp: string): (r: CreateOutcome)
    ensures r.response.Rejected? <==> IsEmptyObject(item)
    ensures r.response.Rejected? ==>
              r.entries == es && r.response.status == BadRequest && r.response.detail == EmptyDataDetail
    ensures r.response.Created? ==>
              && |r.entries| == |es| + 1
              && r.entries[..|es|] == es
              && r.entries[|es|] == r.response.entry
              && r.response.entry.id == |es| + 1
              && r.response.entry.content == item
              && r.response.entry.timestamp == timestamp
    ensures IdsArePositions(es) ==> IdsArePositions(r.entries)
  {
    if IsEmptyObject(item) then
      CreateOutcome(es, Rejected(BadRequest, EmptyDataDetail))
    else
      var entry := Entry(|es| + 1, item, timestamp);
      CreateOutcome(es + [entry], Created(entry))
  }

  /** health_check at clock reading `now`.  It takes no store argument and
      reads no object, so it can neither depend on nor change the store. */
  function HealthCheck(now: string): (h: HealthResponse)
    ensures h.status == HealthyStatus && h.service == ServiceName
    ensures h.timestamp == now
  {
    HealthResponse(HealthyStatus, now, ServiceName)
  }

  // ---------------------------------------------------------------------
  // Sequences of creates

  /** The list after handling `reqs` one after the other, starting from `es`. */
  function Replay(es: seq<Entry>, reqs: seq<Request>): seq<Entry>
    decreases |reqs|
  {
    if reqs == [] then es
    else Replay(CreateStep(es, reqs[0].item, reqs[0].timestamp).entries, reqs[1..])
  }

  /** The requests of `reqs` that are not refused, in order. */
  function Accepted(reqs: seq<Request>): seq<Request>
  {
    if reqs == [] then []
    else (if IsEmptyObject(reqs[0].item) then [] else [reqs[0]]) + Accepted(reqs[1..])
  }

  /** The entries that `reqs` become when numbered from `base + 1` on. */
  function Numbered(base: int, reqs: seq<Request>): (r: seq<Entry>)
    ensures |r| == |reqs|
    decreases |reqs|
  {
    if reqs == [] then []
    else [Entry(base + 1, reqs[0].item, reqs[0].timestamp)] + Numbered(base + 1, reqs[1..])
  }

  /** The k-th numbered entry has id `base + k + 1` and keeps the k-th request's body and timestamp. */
  lemma {:induction false} NumberedAt(base: int, reqs: seq<Request>, k: int)
    requires 0 <= k < |reqs|
    ensures Numbered(base, reqs)[k] == Entry(base + k + 1, reqs[k].item, reqs[k].timestamp)
    decreases |reqs|
  {
    if k > 0 {
      NumberedAt(base + 1, reqs[1..], k - 1);
    }
  }

  lemma NumberedCons(base: int, r0: Request, acc: seq<Request>)
    ensures Numbered(base, [r0] + acc) == [Entry(base + 1, r0.item, r0.timestamp)] + Numbered(base + 1, acc)
  {
    assert ([r0] + acc)[1..] == acc;
  }

  /** Every accepted request of `reqs` lands at the end of the list, in order,
      numbered on from the list's length; refused ones leave no trace. */
  lemma {:induction false} ReplayAppendsAccepted(es: seq<Entry>, reqs: seq<Request>)
    ensures Replay(es, reqs) == es + Numbered(|es|, Accepted(reqs))
    decreases |reqs|
  {
    if reqs == [] {
      assert Numbered(|es|, Accepted(reqs)) == [];
    } else {
      var r0, rest := reqs[0], reqs[1..];
      var next := CreateStep(es, r0.item, r0.timestamp).entries;
      ReplayAppendsAccepted(next, rest);
      var acc := Accepted(rest);
      if IsEmptyObject(r0.item) {
        calc {
          Replay(es, reqs);
          Replay(next, rest);
          next + Numbered(|next|, acc);
          { assert next == es; }
          es + Numbered(|es|, acc);
          { assert Accepted(reqs) == acc; }
          es + Numbered(|es|, Accepted(reqs));
        }
      } else {
        var e := Entry(|es| + 1, r0.item, r0.timestamp);
        calc {
          Replay(es, reqs);
          Replay(next, rest);
          next + Numbered(|next|, acc);
          { assert next == es + [e]; }
          (es + [e]) + Numbered(|es| + 1, acc);
          es + ([e] + Numbered(|es| + 1, acc));
          { NumberedCons(|es|, r0, acc); }
          es + Numbered(|es|, [r0] + acc);
          { assert Accepted(reqs) == [r0] + acc; }
          es + Numbered(|es|, Accepted(reqs));
        }
      }
    }
  }

  /** Starting from an empty (fresh or cleared) list, the accepted requests
      get ids 1..n in the order they were handled, with their bodies unchanged. */
  lemma FromEmptyIdsAreOneToN(reqs: seq<Request>)
    ensures |Replay([], reqs)| == |Accepted(reqs)|
    ensures IdsArePositions(Replay([], reqs))
    ensures forall k :: 0 <= k < |Accepted(reqs)| ==>
              Replay([], reqs)[k].content == Accepted(reqs)[k].item &&
              Replay([], reqs)[k].timestamp == Accepted(reqs)[k].timestamp
  {
    var acc := Accepted(reqs);
    var es := Numbered(0, acc);
    ReplayAppendsAccepted([], reqs);
    assert Replay([], reqs) == es by {
      assert [] + es == es;
    }
    forall k | 0 <= k < |es|
      ensures es[k] == Entry(k + 1, acc[k].item, acc[k].timestamp)
    {
      NumberedAt(0, acc, k);
    }
  }

  /** Any run of creates keeps the store invariant. */
  lemma {:induction false} ReplayKeepsIdsArePositions(es: seq<Entry>, reqs: seq<Request>)
    requires IdsArePositions(es)
    ensures IdsArePositions(Replay(es, reqs))
    decreases |reqs|
  {
    if reqs != [] {
      ReplayKeepsIdsArePositions(CreateStep(es, reqs[0].item, reqs[0].timestamp).entries, reqs[1..]);
    }
  }

  /** Under the store invariant no two entries share an id, and ids grow with position. */
  lemma IdsAreIncreasing(es: seq<Entry>, i: int, j: int)
    requires IdsArePositions(es)
    requires 0 <= i < j < |es|
    ensures es[i].id < es[j].id
  {
  }

  // ---------------------------------------------------------------------
  // The module-level `data_store` list, updated in place

  class DataStore {
    /** The list's contents, oldest first. */
    var entries: seq<Entry>

    ghost predicate Valid()
      reads this
    {
      IdsArePositions(entries)
    }

    /** The empty list the module starts with. */
    constructor ()
      ensures Valid() && entries == []
    {
      entries := [];
    }

    /** POST /data with body `item`, handled at clock reading `now`. */
    method Create(item: Object, now: string) returns (r: CreateResponse)
      modifies this
      ensures r.Rejected? <==> IsEmptyObject(item)
      ensures r.Rejected? ==>
                entries == old(entries) && r.status == BadRequest && r.detail == EmptyDataDetail
      ensures r.Created? ==>
                && r.entry == Entry(|old(entries)| + 1, item, now)
                && entries == old(entries) + [r.entry]
      ensures old(Valid()) ==> Valid()
      ensures CreateOutcome(entries, r) == CreateStep(old(entries), item, now)
    {
      if IsEmptyObject(item) {
        r := Rejected(BadRequest, EmptyDataDetail);
        return;
      }
      var entry := Entry(|entries| + 1, item, now);
      entries := entries + [entry];
      r := Created(entry);
    }

    /** GET /data: `{count, data}` with `count` the list's length. */
    function Get(): (r: DataListing)
      reads this
      ensures r.count == |r.data| && r.data == entries
      ensures Valid() ==> forall i :: 0 <= i < |r.data| ==> r.data[i].id == i + 1
    {
      DataListing(|entries|, entries)
    }

    /** `data_store.clear()`, as the tests do before each case. */
    method Clear()
      modifies this
      ensures Valid() && entries == []
    {
      entries := [];
    }
  }

  /** A scenario built from the API tests, run against one store: list while
      empty, create, refuse an empty body, list again, clear, then create again. */
  method ApiScenario(now: string)
    returns (empty: DataListing, first: CreateResponse, refused: CreateResponse,
             afterRefusal: DataListing, afterClear: CreateResponse)
    ensures empty.count == 0 && empty.data == []
    ensures first.Created? && first.entry.id == 1
    ensures first.entry.content == map["message" := JString("test"), "value" := JNumber(42)]
    ensures refused == Rejected(400, EmptyDataDetail)
    ensures afterRefusal.count == 1 && afterRefusal.data == [first.entry]
    ensures afterClear.Created? && afterClear.entry.id == 1
  {
    var store := new DataStore();
    empty := store.Get();
    var body := map["message" := JString("test"), "value" := JNumber(42)];
    assert "message" in body;
    first := store.Create(body, now);
    refused := store.Create(map[], now);
    afterRefusal := store.Get();
    store.Clear();
    afterClear := store.Create(body, now);
  }
}
