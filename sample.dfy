/**
 * The sample producer: one queue on a local store, its worker, a read-only
 * and a read-write dashboard over it, and the `/add` route that enqueues a
 * job after turning a delay given in seconds into milliseconds.
 */
module SampleApp {
  import opened Wrappers
  import opened Decimal
  import opened Dashboard

  // ---------------------------------------------------------------------
  // The `/add` route
  // ---------------------------------------------------------------------

  /** A value in the parsed query options: text, a number, or NaN. */
  datatype Value = Text(text: string) | Number(n: int) | NaN

  /** JavaScript truthiness of such a value. */
  predicate Truthy(v: Value) {
    match v
    case Text(t) => t != ""
    case Number(n) => n != 0
    case NaN => false
  }

  /** Unary `+`: a plain digit string reads as its value, any other text as NaN. */
  function ToNumber(v: Value): (r: Value)
    ensures !r.Text?
    ensures v.Text? && AllDigits(v.text) ==> r == Number(Parse(v.text))
    ensures v.Text? && !AllDigits(v.text) ==> r == NaN
    ensures !v.Text? ==> r == v
  {
    match v
    case Text(t) => if AllDigits(t) then Number(Parse(t)) else NaN
    case Number(n) => Number(n)
    case NaN => NaN
  }

  /** `+delay * 1000`. */
  function Milliseconds(delay: Value): (r: Value)
    ensures !r.Text?
    ensures ToNumber(delay).Number? ==> r == Number(ToNumber(delay).n * 1000)
    ensures ToNumber(delay).NaN? ==> r == NaN
  {
    match ToNumber(delay)
    case Number(n) => Number(n * 1000)
    case _ => NaN
  }

  const DelayKey := "delay"

  /**
   * The options after the route's conversion: a truthy delay is replaced by
   * its value in milliseconds; every other key, and a missing or falsy
   * delay, are left as they were.
   */
  function DelayInMilliseconds(opts: map<string, Value>): (r: map<string, Value>)
    ensures r.Keys == opts.Keys
    ensures forall k :: k in opts && k != DelayKey ==> r[k] == opts[k]
    ensures DelayKey in opts && Truthy(opts[DelayKey]) ==> r[DelayKey] == Milliseconds(opts[DelayKey])
    ensures !(DelayKey in opts && Truthy(opts[DelayKey])) ==> r == opts
  {
    if DelayKey in opts && Truthy(opts[DelayKey]) then opts[DelayKey := Milliseconds(opts[DelayKey])] else opts
  }

  /**
   * A delay of n whole seconds, given as the query string's text, is stored
   * as n * 1000 milliseconds; for n = 0 the text "0" is truthy and still
   * becomes 0.
   */
  lemma DelaySecondsBecomeMilliseconds(opts: map<string, Value>, seconds: nat)
    requires DelayKey in opts && opts[DelayKey] == Text(Show(seconds))
    ensures DelayInMilliseconds(opts)[DelayKey] == Number(seconds * 1000)
    ensures forall k :: k in opts && k != DelayKey ==> DelayInMilliseconds(opts)[k] == opts[k]
  {
    ParseShow(seconds);
  }

  /** The request `/add?title=Test&opts[delay]=9` stores a delay of 9000. */
  lemma NineSecondsAreNineThousandMilliseconds()
    ensures DelayInMilliseconds(map[DelayKey := Text("9")]) == map[DelayKey := Number(9000)]
  {
    assert Show(9) == "9";
    DelaySecondsBecomeMilliseconds(map[DelayKey := Text("9")], 9);
  }

  /** The parsed `opts` object of the query; the route changes it in place. */
  class QueryOpts {
    var fields: map<string, Value>

    constructor (fields: map<string, Value>)
      ensures this.fields == fields
    {
      this.fields := fields;
    }
  }

  /** The job payload: `{ title: req.query.title }`, the title possibly absent. */
  datatype JobData = JobData(title: Option<string>)

  /** The one call the route makes on the queue. */
  datatype AddCall = AddCall(queue: Queue, jobName: string, data: JobData, opts: map<string, Value>)

  /** The route's JSON reply. */
  datatype Reply = Reply(ok: bool)

  /**
   * The `/add` route: absent options become `{}`; a truthy delay is turned
   * into milliseconds in the options object itself; one job named 'Add' is
   * added with the title and those options; the reply is `{ok: true}`
   * whatever becomes of the add.
   */
  method HandleAdd(queue: Queue, title: Option<string>, opts: QueryOpts?) returns (call: AddCall, reply: Reply)
    modifies opts
    ensures opts != null ==> opts.fields == DelayInMilliseconds(old(opts.fields)) && call.opts == opts.fields
    ensures opts == null ==> call.opts == map[]
    ensures call.queue == queue && call.jobName == "Add" && call.data == JobData(title)
    ensures reply == Reply(true)
  {
    var options: QueryOpts;
    if opts == null {
      options := new QueryOpts(map[]);
    } else {
      options := opts;
    }
    if DelayKey in options.fields && Truthy(options.fields[DelayKey]) {
      options.fields := options.fields[DelayKey := Milliseconds(options.fields[DelayKey])];
    }
    call := AddCall(queue, "Add", JobData(title), options.fields);
    reply := Reply(true);
  }

  // ---------------------------------------------------------------------
  // Start-up
  // ---------------------------------------------------------------------

  const SampleConnection := Standalone("localhost", 6379, "", false)
  const SampleQueueName := "BullMQ"

  /** A queue on the local store under the library's default prefix. */
  function CreateQueueMQ(name: string): Queue {
    Queue(name, None, SampleConnection)
  }

  /** A worker processes the jobs of the queue it is bound to by name. */
  datatype Worker = Worker(queueName: string)

  /** The sample's start-up state: its one queue, its worker and its two dashboards. */
  datatype App = App(queue: Queue, worker: Worker, boards: Dashboards)

  /**
   * One read-only and one read-write adapter over the same queue, served
   * under the read-only and the read-write path, and the worker bound to
   * that queue's name.
   */
  function SampleSetup(): (app: App)
    ensures app.queue == Queue(SampleQueueName, None, SampleConnection)
    ensures app.worker.queueName == app.queue.name
    ensures app.boards.readOnly == Board(ReadOnlyBase, [Adapter(app.queue, true)])
    ensures app.boards.readWrite == Board(ReadWriteBase, [Adapter(app.queue, false)])
  {
    var queue := CreateQueueMQ(SampleQueueName);
    var boards := BuildDashboards([queue]);
    assert boards.readOnly.adapters == [Adapter(queue, true)];
    assert boards.readWrite.adapters == [Adapter(queue, false)];
    App(queue, Worker(queue.name), boards)
  }
}
