/**
 The waiting-queue store of the service desk: one ordered list of clients, waiting
 for "normal" (N) or "priority" (P) attendance, with five operations (list, get by
 index, validated append, advance the head, remove by index). After every mutation
 a reindex pass stamps each record with its current zero-based index.

 The store is a class holding the list as a sequence of records. Each mutating
 method is proved against a step function on the old list, and the step functions
 state what the operations promise: the error cases, the new list, and that every
 position equals its index afterwards.
 */
module Fila {

  /** The two kinds of failure: 404 (no such index, empty queue) and 400 (bad input). */
  datatype Error = NotFound | InvalidArgument

  datatype Result<T> = Ok(value: T) | Err(error: Error)

  /** Arrival time: an opaque instant supplied by the caller, never modified. */
  type Timestamp = int

  /** The longest name a client may register with. */
  const MaxNome := 20

  /** Position of a record built but not yet stamped by the reindex pass. */
  const Unstamped := -1

  /** One person waiting for service. */
  datatype Cliente = Cliente(
    nome: string,
    tipoAtendimento: string,
    atendido: bool,
    dataChegada: Timestamp,
    posicao: int)

  /** The two recognised kinds of attendance, normal and priority. */
  predicate ValidTipo(tipo: string) {
    tipo == "N" || tipo == "P"
  }

  /** The same client, whatever position each record carries. */
  predicate SameRecord(a: Cliente, b: Cliente) {
    a.nome == b.nome && a.tipoAtendimento == b.tipoAtendimento &&
    a.atendido == b.atendido && a.dataChegada == b.dataChegada
  }

  /** The queue invariant: every record's position is its index. */
  predicate Indexed(s: seq<Cliente>) {
    forall i :: 0 <= i < |s| ==> s[i].posicao == i
  }

  /** The list after the reindex pass: the same clients in the same order, each
      stamped with its index. */
  function Reindexed(s: seq<Cliente>): (r: seq<Cliente>)
    ensures |r| == |s| && Indexed(r)
    ensures forall i :: 0 <= i < |s| ==> SameRecord(r[i], s[i])
  {
    seq(|s|, i requires 0 <= i < |s| => s[i].(posicao := i))
  }

  /** Reindexing an indexed list changes nothing, and a list that reindexing leaves
      alone is indexed. */
  lemma ReindexedFixesIndexed(s: seq<Cliente>)
    ensures Reindexed(s) == s <==> Indexed(s)
  {
  }

  /** A list operation's outcome: what the caller gets back and the list afterwards. */
  datatype Step<T> = Step(result: Result<T>, fila: seq<Cliente>)

  /** Appending a client: the name length is checked first, then the kind of
      attendance; only then is the new record built, not yet served, put last, and
      the list reindexed. The caller gets the stamped new record. */
  function AppendStep(s: seq<Cliente>, nome: string, tipo: string, chegada: Timestamp): (st: Step<Cliente>)
    ensures st.result.Ok? <==> |nome| <= MaxNome && ValidTipo(tipo)
    ensures st.result.Err? ==> st.result.error == InvalidArgument && st.fila == s
    ensures st.result.Ok? ==>
      st.result.value == Cliente(nome, tipo, false, chegada, |s|) &&
      |st.fila| == |s| + 1 && Indexed(st.fila) && st.fila[|s|] == st.result.value &&
      forall i :: 0 <= i < |s| ==> SameRecord(st.fila[i], s[i])
    ensures st.result.Ok? && Indexed(s) ==> st.fila == s + [st.result.value]
  {
    if |nome| > MaxNome then
      Step(Err(InvalidArgument), s)
    else if !ValidTipo(tipo) then
      Step(Err(InvalidArgument), s)
    else
      var q := Reindexed(s + [Cliente(nome, tipo, false, chegada, Unstamped)]);
      assert Indexed(s) ==> q == s + [q[|s|]] by {
        if Indexed(s) {
          assert forall i :: 0 <= i < |s| ==> q[i] == s[i];
        }
      }
      Step(Ok(q[|s|]), q)
  }

  /** Advancing the queue: fails on an empty queue; otherwise the head is dropped and
      the rest move up one place, in order. */
  function AdvanceStep(s: seq<Cliente>): (st: Step<()>)
    ensures st.result.Ok? <==> |s| > 0
    ensures st.result.Err? ==> st.result.error == NotFound && st.fila == s
    ensures st.result.Ok? ==>
      |st.fila| == |s| - 1 && Indexed(st.fila) &&
      forall i :: 0 <= i < |st.fila| ==> SameRecord(st.fila[i], s[i + 1])
    ensures st.result.Ok? && Indexed(s) ==>
      forall i :: 0 <= i < |st.fila| ==> st.fila[i] == s[i + 1].(posicao := s[i + 1].posicao - 1)
  {
    if |s| == 0 then Step(Err(NotFound), s)
    else Step(Ok(()), Reindexed(s[1..]))
  }

  /** Removing the client at index `id`: fails unless `0 <= id < |s|`; otherwise the
      clients before `id` keep their places, those after it move up one place, and
      the caller gets the removed index back. */
  function RemoveStep(s: seq<Cliente>, id: int): (st: Step<int>)
    ensures st.result.Ok? <==> 0 <= id < |s|
    ensures st.result.Err? ==> st.result.error == NotFound && st.fila == s
    ensures st.result.Ok? ==>
      st.result.value == id && |st.fila| == |s| - 1 && Indexed(st.fila) &&
      (forall i :: 0 <= i < id ==> SameRecord(st.fila[i], s[i])) &&
      (forall i :: id <= i < |st.fila| ==> SameRecord(st.fila[i], s[i + 1]))
    ensures st.result.Ok? && Indexed(s) ==>
      (forall i :: 0 <= i < id ==> st.fila[i] == s[i]) &&
      (forall i :: id <= i < |st.fila| ==> st.fila[i] == s[i + 1].(posicao := s[i + 1].posicao - 1))
  {
    if id < 0 || id >= |s| then Step(Err(NotFound), s)
    else Step(Ok(id), Reindexed(s[..id] + s[id + 1..]))
  }

  /** The process-wide waiting queue, as an object that owns its list. */
  class QueueStore {
    var fila: seq<Cliente>

    /** Every position is the record's index. */
    ghost predicate Valid()
      reads this
    {
      Indexed(fila)
    }

    /** The queue starts empty. */
    constructor ()
      ensures Valid() && fila == []
    {
      fila := [];
    }

    /** The reindex pass: stamps each record with its index, in place. */
    method AtualizarPosicoes()
      modifies this
      ensures fila == Reindexed(old(fila))
    {
      var i := 0;
      while i < |fila|
        invariant 0 <= i <= |fila| == |old(fila)|
        invariant forall k :: 0 <= k < i ==> fila[k] == old(fila)[k].(posicao := k)
        invariant forall k :: i <= k < |fila| ==> fila[k] == old(fila)[k]
      {
        fila := fila[i := fila[i].(posicao := i)];
        i := i + 1;
      }
      assert forall k :: 0 <= k < |fila| ==> fila[k] == Reindexed(old(fila))[k];
    }

    /** The whole queue, in order; the empty sequence for an empty queue. */
    method GetFila() returns (r: seq<Cliente>)
      ensures r == fila
    {
      if |fila| == 0 {
        return [];
      }
      return fila;
    }

    /** The client at index `id`, or NotFound when there is none. */
    method GetCliente(id: int) returns (r: Result<Cliente>)
      ensures r.Ok? <==> 0 <= id < |fila|
      ensures r.Ok? ==> r.value == fila[id]
      ensures r.Err? ==> r.error == NotFound
    {
      if id < 0 || id >= |fila| {
        return Err(NotFound);
      }
      return Ok(fila[id]);
    }

    /** Validates the name and kind of attendance, then appends a new client and
        reindexes. */
    method AdicionarCliente(nome: string, tipo: string, chegada: Timestamp) returns (r: Result<Cliente>)
      requires Valid()
      modifies this
      ensures Valid()
      ensures Step(r, fila) == AppendStep(old(fila), nome, tipo, chegada)
    {
      if |nome| > MaxNome {
        return Err(InvalidArgument);
      }
      if !ValidTipo(tipo) {
        return Err(InvalidArgument);
      }
      var novo := Cliente(nome, tipo, false, chegada, Unstamped);
      fila := fila + [novo];
      AtualizarPosicoes();
      r := Ok(fila[|fila| - 1]);
    }

    /** Marks the head as served, drops it and reindexes; NotFound on an empty queue. */
    method AtualizarFila() returns (r: Result<()>)
      requires Valid()
      modifies this
      ensures Valid()
      ensures Step(r, fila) == AdvanceStep(old(fila))
    {
      if |fila| == 0 {
        return Err(NotFound);
      }
      if !fila[0].atendido {
        fila := fila[0 := fila[0].(atendido := true)];
      }
      fila := fila[1..];
      AtualizarPosicoes();
      r := Ok(());
    }

    /** Deletes the client at index `id` and reindexes; NotFound when there is none. */
    method RemoverCliente(id: int) returns (r: Result<int>)
      requires Valid()
      modifies this
      ensures Valid()
      ensures Step(r, fila) == RemoveStep(old(fila), id)
    {
      if id < 0 || id >= |fila| {
        return Err(NotFound);
      }
      fila := fila[..id] + fila[id + 1..];
      AtualizarPosicoes();
      r := Ok(id);
    }
  }
}
