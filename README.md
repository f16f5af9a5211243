# redis-bulljs gateway — a verified model

The system is a small web gateway in front of a set of job queues kept in a
clustered Redis store. `app.js` checks a signed access token from a cookie
before every route, sends `root` and `developer` users at the site root to
their own dashboard, and guards two dashboard mounts: `/ui-readonly` admits
only `developer`, `/ui-readwrite` only `root`. At start-up it builds one
queue per configured name, each hash-tagged as `{name}`, on the configured
key prefix and on one shared cluster handle, and wraps every queue twice in
a dashboard adapter: once read-only, once read-write. `old-index.js` is a
sample producer and consumer: one local queue, a worker that reports
progress 0 to 100 with one log line per step and may fail at any step, the
same dual dashboards (without guards), and an `/add` route that enqueues a
job after converting a delay from seconds to milliseconds.

Modules:

- `Wrappers` (wrappers.dfy): `Option`, for JavaScript's `undefined`.
- `Decimal` (decimal.dfy): the decimal text of a natural number (what `${i}`
  writes) and the value of a digit string (what unary `+` reads), with the
  round trip between them.
- `Dashboard` (dashboard.dfy): the queue, connection, adapter and dashboard
  records used by both entry points, and the construction of the two
  adapter lists with `readOnlyMode` true and false.
- `Gateway` (gateway.dfy): the token check, the two mount guards, Express's
  matching of a URL to a mount, and the whole request pipeline.
- `Registry` (registry.dfy): the start-up loop that fills the queue object,
  `Object.values`, and the boot sequence that builds both dashboards.
- `SampleWorker` (worker.dfy): the worker's processing loop over a `Job`
  object whose progress, log and write history it updates in place.
- `SampleApp` (sample.dfy): the `/add` route, which changes its options
  object in place, and the sample's start-up.

What is a parameter rather than modelled:

- The token library's `verify` is a function parameter `(token, secret) ->
  Decoded(claims) | Rejected`. "The verifier is never called" is stated as
  "the answer is the same for any two verifiers".
- `Math.random() * 200 < 1` in the worker is a failure oracle `fails: nat ->
  bool` naming the steps at which the worker throws.
- Configuration values (secret, fallback URL, queue names, prefix) and the
  cluster handle are arguments.

## Model

| member | source | states |
|---|---|---|
| `Gateway.VerifyToken` | app.js:16-37 | 401 "Token is required" exactly when the `accessToken` cookie is missing or empty; a rejected token redirects to the configured fallback URL; a decoded `root` or `developer` role at exactly `/` redirects to `/ui-readwrite` or `/ui-readonly`; otherwise the request passes on with the decoded role (possibly absent) as its access level |
| `Gateway.ReadOnlyGuard` | app.js:75-80 | lets a request through exactly when its access level is `developer`, and otherwise answers 403 "Readonly access required" |
| `Gateway.ReadWriteGuard` | app.js:82-87 | lets a request through exactly when its access level is `root`, and otherwise answers 403 "Readwrite access required" |
| `Gateway.HasToken` | app.js:17-18 | a token is present exactly when the `accessToken` cookie exists and is not the empty string |
| `Gateway.PathName` | app.js:75-87 | the path a mount is matched against is a prefix of the URL with no `?` or `#`, ending just before the first of them |
| `Gateway.PathNameWithoutQuery` | app.js:75-87 | a URL without a query string or fragment is matched as a whole |
| `Gateway.UnderBase` | app.js:75 | a path is under a mount path when it equals it, ignoring the case of ASCII letters, or continues it with `/` |
| `Gateway.MountsDisjoint` | app.js:75-87 | no path is under both `/ui-readonly` and `/ui-readwrite` |
| `Gateway.MountOf` | app.js:75-87 | a URL falls under the read-only mount exactly when its path is under `/ui-readonly`, and under the read-write mount exactly when its path is under `/ui-readwrite`; the order the mounts are tried in does not matter |
| `Gateway.MountsOfEntryPaths` | app.js:27-31 | `/` falls under no mount, `/ui-readonly` under the read-only mount and `/ui-readwrite` under the read-write mount |
| `Gateway.Dispatch` | app.js:75-87 | after the token check, whatever mount a request is routed to, it reaches the read-only router exactly when it passed with `developer` and was routed there, the read-write router exactly when it passed with `root` and was routed there; an answer from the token check is returned unchanged; a request under no mount falls through; a request that passed with any other access level gets the mount's 403 |
| `Gateway.Handle` | app.js:16-87 | the composed pipeline: the read-only router is reached iff a present token decodes to role `developer` and the URL is under `/ui-readonly`; the read-write router iff it decodes to `root` and the URL is under `/ui-readwrite`; a 403 only ever follows a successful verification on a dashboard mount, and a verified role other than the mount's own always gets that mount's 403 |
| `Gateway.MissingTokenIsRejected` | app.js:17-20 | without a token every path gets the 401 and the answer does not depend on the verifier |
| `Gateway.RejectedTokenRedirects` | app.js:34-36 | a rejected token always redirects to the fallback URL, whatever the path, never a 401 or 403 |
| `Gateway.RolesNeverCross` | app.js:75-87 | a role other than `root` and `developer`, or none, reaches no dashboard router; `developer` never reaches the read-write one; `root` never the read-only one; roles compare case-sensitively |
| `Gateway.RootEntryLands` | app.js:26-28 | `root` at `/` is redirected to `/ui-readwrite`, and the same cookie at `/ui-readwrite` reaches the read-write router |
| `Gateway.DeveloperEntryLands` | app.js:29-31 | `developer` at `/` is redirected to `/ui-readonly`, and the same cookie at `/ui-readonly` reaches the read-only router |
| `Gateway.EntryRedirectsLand` | app.js:26-32 | `root` at `/` is redirected to `/ui-readwrite` and `developer` to `/ui-readonly`, and following the redirect with the same cookie reaches that dashboard's router |
| `Registry.HashTagged` | app.js:46 | a queue's name is the configured name wrapped in `{` and `}` |
| `Registry.HashTagInjective` | app.js:46 | distinct configured names give distinct queue names |
| `Registry.ClusterQueue` | app.js:46-51 | the queue built for a name carries that name inside its hash tag, the configured prefix, and the shared cluster handle as its connection |
| `Registry.FirstOccurrences` | app.js:44-52 | the keys of the queue object: exactly the configured names, each once |
| `Registry.DistinctCardinality` | app.js:44-52 | a list without repeats has as many entries as distinct elements |
| `Registry.TableSize` | app.js:44-52 | the queue object has one key per distinct configured name |
| `Registry.Assign` | app.js:46 | assigning to the queue object only ever appends to its keys, and at most one; afterwards the key holds the new queue and every other entry is as it was; on a table whose keys list exactly its entries, that stays so, an existing key keeps its place, and keys without repeats stay without repeats |
| `Registry.AssignExtends` | app.js:45-52 | one assignment per configured name keeps the object equal to the first occurrences of the names seen so far, each holding its hash-tagged cluster queue |
| `Registry.Values` | app.js:62-63 | `Object.values` lists one queue per key, in key order |
| `Registry.ValuesAreClusterQueues` | app.js:44-63 | after the loop, the i-th value is the cluster queue of the i-th key |
| `Registry.BoardsOverClusterQueues` | app.js:56-73 | dashboards built over the cluster queues of distinct keys pair the same queue at every index, flagged true and false, every client is the cluster handle, and the queue names are distinct |
| `Registry.BuildQueues` | app.js:43-52 | the loop leaves the keys in first-occurrence order, a key exactly for each configured name, and under each the hash-tagged queue on the configured prefix and the shared cluster handle |
| `Registry.TaggedNamesDistinct` | app.js:46 | the registry's queues all have distinct names |
| `Registry.BootGateway` | app.js:43-73 | one read-only and one read-write adapter per distinct configured name, in the same order, under `/ui-readonly` and `/ui-readwrite`; the i-th of each wrap the same queue, with `readOnlyMode` true and false; every client of every queue is the one cluster handle; queue names are distinct |
| `Dashboard.CreateClient` | app.js:47-49 | every kind of client a queue asks for is the queue's one connection |
| `Dashboard.WrapAll` | app.js:62-63 | the `map` over the queues gives one adapter per queue, in order, each wrapping its queue with the given flag |
| `Dashboard.BuildDashboards` | app.js:56-73 | the read-only and the read-write dashboard list the same queues in the same order, flagged true and false, under `/ui-readonly` and `/ui-readwrite` |
| `Decimal.Show` | old-index.js:23 | the text of a step number is a non-empty digit string without a leading zero |
| `Decimal.Parse` | old-index.js:62 | the value of a string of decimal digits, most significant first; the empty string reads as 0 |
| `Decimal.ParseShow` | old-index.js:62 | reading back the text of a number gives the number |
| `Decimal.ShowParse` | old-index.js:62 | a digit string without a leading zero is the text of its own value |
| `Decimal.ShowInjective` | old-index.js:23 | distinct numbers have distinct texts |
| `SampleWorker.Job.UpdateProgress` | old-index.js:22 | sets the job's progress and records the write; the log is unchanged |
| `SampleWorker.Job.Log` | old-index.js:23 | appends one line to the job's log and records the write; progress is unchanged |
| `SampleWorker.LogLine` | old-index.js:23 | the log line of step i is `Processing job at interval ` followed by the decimal text of i |
| `SampleWorker.ErrorMessage` | old-index.js:25 | the error of step i is `Random error ` followed by the decimal text of i |
| `SampleWorker.ReturnValue` | old-index.js:28 | the return value is `This is the return value of job (`, the job's id, then `)` |
| `SampleWorker.LogLinesDistinct` | old-index.js:23 | distinct steps write distinct log lines |
| `SampleWorker.FirstFailure` | old-index.js:25 | finds the first step in 0..100 at which the oracle says the job throws, or none |
| `SampleWorker.StepsRun` | old-index.js:20-26 | the number of steps run is the first failing step plus one, or 101 when none fails |
| `SampleWorker.Writes` | old-index.js:20-23 | each step makes two writes on the job |
| `SampleWorker.WritesOfStep` | old-index.js:22-23 | step i's progress write `i` is immediately followed by its one log line `Processing job at interval i` |
| `SampleWorker.RunStep` | old-index.js:22-23 | one loop step: progress set to the step, then the step's log line, extending the job's history from n steps to n + 1 |
| `SampleWorker.LogLines` | old-index.js:23 | after n steps the i-th new log line is that of step i |
| `SampleWorker.ProgressReportsAscend` | old-index.js:20-22 | the progress values reported are exactly 0, 1, ..., n - 1 in that order, so strictly increasing |
| `SampleWorker.Process` | old-index.js:18-29 | a failure at step k leaves progress k, k + 1 new log lines and the error `Random error k` with no return value; without a failure, 101 progress updates and 101 log lines and the return value `This is the return value of job (<id>)` |
| `SampleApp.Truthy` | old-index.js:61 | JavaScript truthiness: the empty string, 0 and NaN are falsy, every other value truthy |
| `SampleApp.ToNumber` | old-index.js:62 | unary `+` never yields text: a digit string reads as its decimal value, other text as NaN, and a number or NaN is left as it is |
| `SampleApp.Milliseconds` | old-index.js:62 | `+delay * 1000`: 1000 times the delay's numeric value, or NaN when the delay does not read as a number |
| `SampleApp.DelayInMilliseconds` | old-index.js:59-63 | a truthy delay is replaced by its value times 1000; other keys are never touched; a missing or falsy delay leaves the options unchanged |
| `SampleApp.DelaySecondsBecomeMilliseconds` | old-index.js:61-62 | a delay of n seconds given as query text is stored as n * 1000 |
| `SampleApp.NineSecondsAreNineThousandMilliseconds` | old-index.js:89 | `opts[delay]=9` is stored as 9000 |
| `SampleApp.HandleAdd` | old-index.js:58-70 | absent options become `{}`; the options object is converted in place; exactly one add of a job named `Add` with data `{title}` and those options; the reply is `{ok: true}` regardless of the add |
| `SampleApp.CreateQueueMQ` | old-index.js:9-16 | a sample queue has the given name, no prefix, and the local connection on port 6379 without password or TLS |
| `SampleApp.SampleSetup` | old-index.js:33-56 | exactly one read-only and one read-write adapter over the same queue, under `/ui-readonly` and `/ui-readwrite`, and the worker bound to that queue's name |

## Left out

- HTTP plumbing: `listen`, cookie parsing, response objects beyond status, body and redirect target, and the console output (app.js:91-100, old-index.js:72-89).
- The token library's signature and expiry check: an abstract verifier.
- Bull, BullMQ and ioredis internals: job ids, delayed-to-waiting scheduling, exclusive claiming, retries. None of these is implemented in the two files, so nothing is claimed about them.
- The dashboard library's rendering and its enforcement of `readOnlyMode`: only the flag on the adapter is modelled.
- `sleep` and `Math.random` in the worker: replaced by the failure oracle; timing is not modelled.
- async/await, and the fact that `add` is not awaited: the reply is independent of the add, but no interleaving is modelled.
- A synchronous throw from `next()` inside the token check's `try` would also redirect (app.js:33-35); the model treats `next()` as returning.
- Non-string role claims: a role that is not a string is modelled as absent; under `===` it behaves the same, as it never equals `root` or `developer`.
- Cookies that the cookie parser decodes into JSON objects (`j:` prefix): cookies are strings.
- `Gateway.PathName`: the request target is taken in origin form (starting with the path). An absolute-form target (`http://host/ui-readonly`) has its scheme and host dropped by Express's URL parser before matching; the model matches the whole text, so it sends such a request to no mount. Whatever else that parser normalises in a URL is not modelled either. The same holds for `Gateway.MountOf` and `Gateway.Handle`.
- `Registry.BuildQueues`: a configured name `__proto__` does not create a key; assigning to it replaces the object's prototype, so `Object.values` skips that queue. The model treats `__proto__` like any other name.
- `SampleApp.Milliseconds`: JavaScript numbers are doubles; a delay above 2^53 / 1000 loses precision when multiplied, while the model multiplies exactly.
- `SampleWorker.Process`: `job.updateProgress` and `job.log` write to the store and may reject, which fails the job at that step in the program; the model's writes always succeed, so only the failure oracle can fail a job.
- `SampleApp.ToNumber`: weaker than unary `+`, because only plain digit strings are read as numbers; signs, whitespace, fractions, hexadecimal and exponent forms become NaN here.
- `SampleApp.HandleAdd`: an `opts` query value that is a plain string or an array rather than an object is not modelled.
- Object key order for integer-like queue names: JavaScript lists such keys in numeric order first; the model keeps insertion order for all keys.
- A repeated configured queue name constructs a second queue object that replaces the first under its key; values are compared, so the model cannot tell the two objects apart.
- Express matches mount paths case-insensitively; the model folds ASCII letters only, which decides every match against the two ASCII mount paths.
- Missing-configuration errors from `config.get` at start-up.
- The commented-out alternate versions (old-index.js:97-275).
- Queue lookup by name and registration as operations: the code has only the start-up loop and `Object.values`, which are modelled.

## Notes

Facts about the code that the model follows:

- Roles are strings compared with `===`, so `Root` or `ROOT` is just another role and reaches no dashboard.
- `/add` replies `{ok: true}` without waiting for the add, so a failing add is never reported to the caller.
- `old-index.js` mounts both dashboards without any guard (old-index.js:55-56).
