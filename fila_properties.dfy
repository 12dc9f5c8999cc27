/**
 Properties that relate several operations of the waiting-queue store: any sequence
 of requests keeps every position equal to its index, advancing the queue is removing
 index 0, the queue is first-in first-out, and a worked scenario on the store object.
 */
module FilaProperties {
  import opened Fila

  /** One request to the store, as the web layer would deliver it. */
  datatype Request =
    | ListRequest
    | GetRequest(id: int)
    | AppendRequest(nome: string, tipo: string, chegada: Timestamp)
    | AdvanceRequest
    | RemoveRequest(id: int)

  /** The queue after serving one request; reads leave it as it is. */
  function Apply(s: seq<Cliente>, req: Request): seq<Cliente> {
    match req
    case ListRequest => s
    case GetRequest(_) => s
    case AppendRequest(nome, tipo, chegada) => AppendStep(s, nome, tipo, chegada).fila
    case AdvanceRequest => AdvanceStep(s).fila
    case RemoveRequest(id) => RemoveStep(s, id).fila
  }

  /** The queue after serving `reqs` one at a time, in order. */
  function Run(s: seq<Cliente>, reqs: seq<Request>): seq<Cliente>
    decreases |reqs|
  {
    if reqs == [] then s else Run(Apply(s, reqs[0]), reqs[1..])
  }

  /** Whatever requests arrive, successful or not, every position stays equal to its
      index after each of them. */
  lemma {:induction false} RunKeepsIndexed(s: seq<Cliente>, reqs: seq<Request>)
    requires Indexed(s)
    ensures Indexed(Run(s, reqs))
    decreases |reqs|
  {
    if reqs != [] {
      RunKeepsIndexed(Apply(s, reqs[0]), reqs[1..]);
    }
  }

  /** Starting from the empty queue, every position is its index after any run. */
  lemma {:induction false} RunFromEmptyIsIndexed(reqs: seq<Request>)
    ensures Indexed(Run([], reqs))
  {
    RunKeepsIndexed([], reqs);
  }

  /** Reindexing looks only at the records, never at the positions they carry. */
  lemma ReindexedIgnoresPositions(a: seq<Cliente>, b: seq<Cliente>)
    requires |a| == |b|
    requires forall i :: 0 <= i < |a| ==> SameRecord(a[i], b[i])
    ensures Reindexed(a) == Reindexed(b)
  {
  }

  /** Advancing the queue has the effect of removing index 0, and fails exactly when
      that removal does. */
  lemma AdvanceIsRemoveHead(s: seq<Cliente>)
    ensures AdvanceStep(s).result.Ok? <==> RemoveStep(s, 0).result.Ok?
    ensures AdvanceStep(s).fila == RemoveStep(s, 0).fila
  {
  }

  /** First in, first out: on a non-empty queue, appending and then advancing gives
      the same queue as advancing and then appending. */
  lemma AppendAdvanceCommute(s: seq<Cliente>, nome: string, tipo: string, chegada: Timestamp)
    requires |s| > 0
    ensures AdvanceStep(AppendStep(s, nome, tipo, chegada).fila).fila
         == AppendStep(AdvanceStep(s).fila, nome, tipo, chegada).fila
  {
  }

  /** `k` requests to advance the queue. */
  function Advances(k: nat): (reqs: seq<Request>)
    ensures |reqs| == k && forall i :: 0 <= i < k ==> reqs[i] == AdvanceRequest
  {
    if k == 0 then [] else [AdvanceRequest] + Advances(k - 1)
  }

  /** Clients are served in the order they stand: advancing a queue `k` times removes
      exactly its first `k` clients and keeps the rest in order. */
  lemma {:induction false} AdvancesDropPrefix(s: seq<Cliente>, k: nat)
    requires Indexed(s) && k <= |s|
    ensures Run(s, Advances(k)) == Reindexed(s[k..])
    decreases k
  {
    if k == 0 {
      ReindexedFixesIndexed(s);
      assert s[0..] == s;
    } else {
      var t := AdvanceStep(s).fila;
      RunAdvance(s, k);
      AdvancesDropPrefix(t, k - 1);
      var rest, tail := t[k - 1..], s[k..];
      forall i | 0 <= i < |rest|
        ensures SameRecord(rest[i], tail[i])
      {
        assert rest[i] == t[k - 1 + i] && tail[i] == s[k + i];
      }
      ReindexedIgnoresPositions(rest, tail);
    }
  }

  /** One advance request, then `k - 1` more. */
  lemma RunAdvance(s: seq<Cliente>, k: nat)
    requires k > 0
    ensures Run(s, Advances(k)) == Run(AdvanceStep(s).fila, Advances(k - 1))
  {
  }

  /** The worked scenario: two appends, a list, an advance, a list, a removal and a
      list, on a fresh store. */
  method Scenario(t1: Timestamp, t2: Timestamp)
    returns (afterAppends: seq<Cliente>, afterAdvance: seq<Cliente>, afterRemove: seq<Cliente>)
    ensures afterAppends == [Cliente("Ana", "N", false, t1, 0), Cliente("Bia", "P", false, t2, 1)]
    ensures afterAdvance == [Cliente("Bia", "P", false, t2, 0)]
    ensures afterRemove == []
  {
    var store := new QueueStore();
    var ana := store.AdicionarCliente("Ana", "N", t1);
    var bia := store.AdicionarCliente("Bia", "P", t2);
    afterAppends := store.GetFila();
    var advanced := store.AtualizarFila();
    afterAdvance := store.GetFila();
    var removed := store.RemoverCliente(0);
    afterRemove := store.GetFila();
  }
}
