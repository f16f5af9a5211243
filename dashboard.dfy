/**
 * Records shared by both entry points: a job queue as the queue library is
 * asked to build it, the dashboard adapter that wraps one queue with a
 * read-only flag, and the two dashboards (one per mount path) that hold the
 * adapters.
 */
module Dashboard {
  import opened Wrappers

  /** What a queue talks to: the one shared cluster handle, or plain connection options. */
  datatype Connection =
    | Cluster(handle: nat)
    | Standalone(host: string, port: nat, password: string, tls: bool)

  /** The kinds of client the queue library asks its `createClient` option for. */
  datatype ClientKind = Client | Subscriber | BlockingClient

  /** A queue: its name, its key prefix (None: the library's default) and its connection. */
  datatype Queue = Queue(name: string, prefix: Option<string>, connection: Connection)

  /** A dashboard adapter over one queue; `readOnlyMode` is fixed when it is built. */
  datatype Adapter = Adapter(queue: Queue, readOnlyMode: bool)

  /** One dashboard: the path it is served under and the adapters it lists. */
  datatype Board = Board(basePath: string, adapters: seq<Adapter>)

  datatype Dashboards = Dashboards(readOnly: Board, readWrite: Board)

  const ReadOnlyBase := "/ui-readonly"
  const ReadWriteBase := "/ui-readwrite"

  /**
   * The client a queue gets for every kind it asks for: the `createClient`
   * callback ignores the kind and hands back the queue's one connection.
   */
  function CreateClient(q: Queue, kind: ClientKind): Connection {
    q.connection
  }

  /** `queues.map(queue => new Adapter(queue, { readOnlyMode }))`. */
  function WrapAll(queues: seq<Queue>, readOnlyMode: bool): (r: seq<Adapter>)
    ensures |r| == |queues|
    ensures forall i :: 0 <= i < |r| ==> r[i].queue == queues[i] && r[i].readOnlyMode == readOnlyMode
  {
    if queues == [] then [] else [Adapter(queues[0], readOnlyMode)] + WrapAll(queues[1..], readOnlyMode)
  }

  /**
   * The read-only and the read-write dashboard over the same queues: both
   * list the queues in the given order, one adapter per queue, the i-th
   * adapter of each wrapping the same queue; every read-only adapter has the
   * flag set and no read-write adapter has it; each dashboard is served under
   * its own path.
   */
  function BuildDashboards(queues: seq<Queue>): (d: Dashboards)
    ensures d.readOnly.basePath == ReadOnlyBase && d.readWrite.basePath == ReadWriteBase
    ensures |d.readOnly.adapters| == |queues| == |d.readWrite.adapters|
    ensures forall i :: 0 <= i < |queues| ==>
      && d.readOnly.adapters[i].queue == queues[i] == d.readWrite.adapters[i].queue
      && d.readOnly.adapters[i].readOnlyMode
      && !d.readWrite.adapters[i].readOnlyMode
  {
    Dashboards(Board(ReadOnlyBase, WrapAll(queues, true)), Board(ReadWriteBase, WrapAll(queues, false)))
  }
}
