# Waiting-queue store (Fila FastAPI service), modelled in Dafny

The service keeps one process-wide waiting list, `fila`, of `Cliente` records. Each
record has a name, a kind of attendance ("N" normal, "P" priority), a served flag, an
arrival time and a position. The service offers five operations:

- list the queue (`get_fila`);
- read the client at an index (`get_cliente`);
- append a client after validating the name length and the kind of attendance (`adicionar_cliente`);
- advance the queue by marking the head served and dropping it (`atualizar_fila`);
- delete the client at an index (`remover_cliente`).

Every mutation is followed by the reindex pass `atualizar_posicoes`. It stamps each
record's `posicao` with its current index.

The model has two files:

- `fila.dfy`, module `Fila`. The records are the datatype `Cliente`. The list is the
  field `fila: seq<Cliente>` of the class `QueueStore`. Its object invariant `Valid()`
  says that every position equals its index. The reindex pass is a `while` loop that
  rewrites one record at a time. Each mutating method is proved equal, in result and
  new list, to a step function on the old list (`AppendStep`, `AdvanceStep`,
  `RemoveStep`). Each step function's contract states the error cases, the new list
  and the position invariant. The 404 responses are `NotFound`; the 400 responses
  are `InvalidArgument`.
- `fila_properties.dfy`, module `FilaProperties`. It holds properties that relate
  several operations. Any sequence of requests keeps the position invariant.
  Advancing is removing index 0. Appending and advancing commute on a non-empty
  queue, so the queue is first-in first-out. `k` advances drop exactly the first
  `k` clients. A worked scenario runs on a fresh store object.

The arrival time is a parameter of the append operation (`Timestamp`, an opaque
integer) and is never modified. A record that has just been built carries the
position `Unstamped` (-1) until the reindex pass stamps it; the record returned to
the caller is the stamped one, as in the source, where the returned object is the
same object the pass updates.

## Model

| member | source | states |
|---|---|---|
| `Fila.Reindexed` | tudo/licao.py:16-18 | the reindexed list has the same length and the same clients in the same order, and every position equals its index |
| `Fila.ReindexedFixesIndexed` | tudo/licao.py:16-18 | reindexing leaves a list unchanged if and only if every position already equals its index |
| `Fila.AppendStep` | tudo/licao.py:34-44 | append succeeds exactly when the name has at most 20 characters and the kind is "N" or "P"; otherwise InvalidArgument with the list unchanged; on success the new client is last, not served, has the given arrival time, position equals old length, earlier clients are the same, the list is indexed, and on an indexed list the result is exactly old list plus the new client |
| `Fila.AdvanceStep` | tudo/licao.py:47-56 | advancing fails with NotFound exactly on the empty queue and leaves it unchanged; otherwise the head is gone, the length drops by one, the others keep their order and, on an indexed list, each keeps its record with position one lower |
| `Fila.RemoveStep` | tudo/licao.py:59-65 | removal succeeds exactly when 0 <= id < length and returns id; otherwise NotFound with the list unchanged; on success clients before id are untouched, clients after it move one place up with position one lower, and the list is indexed |
| `Fila.QueueStore.constructor` | tudo/licao.py:14 | the store starts with the empty queue, which satisfies the position invariant |
| `Fila.QueueStore.AtualizarPosicoes` | tudo/licao.py:16-18 | the in-place loop leaves the queue equal to the reindexed old queue |
| `Fila.QueueStore.GetFila` | tudo/licao.py:22-25 | listing returns the whole queue in order, the empty sequence when it is empty, and never fails |
| `Fila.QueueStore.GetCliente` | tudo/licao.py:28-31 | reading succeeds exactly when 0 <= id < length and then returns the record at id; otherwise NotFound; the queue is not changed |
| `Fila.QueueStore.AdicionarCliente` | tudo/licao.py:34-44 | the result and the new queue are those of AppendStep on the old queue, and the position invariant is kept |
| `Fila.QueueStore.AtualizarFila` | tudo/licao.py:47-56 | marking the head served and then dropping it yields the result and queue of AdvanceStep on the old queue, and the position invariant is kept |
| `Fila.QueueStore.RemoverCliente` | tudo/licao.py:59-65 | the result and the new queue are those of RemoveStep on the old queue, and the position invariant is kept |
| `FilaProperties.RunKeepsIndexed` | tudo/licao.py:16-65 | after any sequence of list, get, append, advance and remove requests, successful or not, every position equals its index |
| `FilaProperties.RunFromEmptyIsIndexed` | tudo/licao.py:14-18 | from the empty queue at startup, every reachable queue has every position equal to its index |
| `FilaProperties.ReindexedIgnoresPositions` | tudo/licao.py:16-18 | the reindex pass depends only on the records and their order, not on the positions they carried before |
| `FilaProperties.AdvanceIsRemoveHead` | tudo/licao.py:47-65 | advancing fails exactly when removing index 0 fails and otherwise leaves the same queue |
| `FilaProperties.AppendAdvanceCommute` | tudo/licao.py:34-56 | on a non-empty queue, appending then advancing gives the same queue as advancing then appending (first in, first out) |
| `FilaProperties.AdvancesDropPrefix` | tudo/licao.py:47-56 | on an indexed queue, advancing k times (k <= length) leaves exactly the clients after the first k, in order, reindexed |
| `FilaProperties.Scenario` | tudo/licao.py:14-65 | on a fresh store: append Ana (N) and Bia (P) lists [Ana@0, Bia@1]; advancing lists [Bia@0]; removing index 0 lists [] |

## Left out

- The web layer: routes, `async`, HTTP status codes, response bodies and message strings. Only the two error kinds are modelled, so the two 400 cases of the append (name too long, bad kind) are both `InvalidArgument`. They are checked in the source's order, name length first.
- Request validation and serialisation by the web framework's model library: library behaviour outside this code.
- The default `datetime.now` arrival time: the caller supplies the arrival time as an opaque `Timestamp`.
- Concurrency: the source's global list has no locking. The model is one store used by one request at a time.
- `posicao` is not a declared field of the source's `Cliente` record, yet the reindex pass assigns it. The model makes it a field of `Cliente`. It says nothing about how the record library treats that assignment at run time.
- Priority ordering: the kind of attendance is only validated and stored, never used for ordering, in the source and in the model.
- The served flag written on the head just before it is dropped is modelled in `AtualizarFila`, but no property depends on it: the record leaves the queue in the same operation.
- The module-level global list is modelled as a store object that owns the list and starts empty.
- Python's `len` on a string counts code points; the model counts the characters of a Dafny `string`, which are Unicode scalar values.
