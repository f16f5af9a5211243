/**
 * The gateway's queue registry, built once at start-up: one queue per
 * configured name, hash-tagged so that all of its keys land on one cluster
 * shard, all sharing the one cluster handle; then the two dashboards over
 * the registry's queues.
 */
module Registry {
  import opened Wrappers
  import opened Dashboard

  /** `{name}`: the hash tag that makes the cluster keep a queue's keys on one shard. */
  function HashTagged(name: string): (tagged: string)
    ensures |tagged| == |name| + 2 && tagged[0] == '{' && tagged[|tagged| - 1] == '}'
    ensures tagged[1..|tagged| - 1] == name
  {
    "{" + name + "}"
  }

  /** Distinct configured names give queues with distinct names. */
  lemma HashTagInjective(a: string, b: string)
    ensures HashTagged(a) == HashTagged(b) ==> a == b
  {
    if HashTagged(a) == HashTagged(b) {
      calc {
        a;
        HashTagged(a)[1..|HashTagged(a)| - 1];
        HashTagged(b)[1..|HashTagged(b)| - 1];
        b;
      }
    }
  }

  /** The queue built for one configured name. */
  function ClusterQueue(name: string, prefix: string, cluster: Connection): (q: Queue)
    ensures |q.name| >= 2 && q.name[1..|q.name| - 1] == name
    ensures q.prefix == Some(prefix) && q.connection == cluster
  {
    Queue(HashTagged(name), Some(prefix), cluster)
  }

  predicate Distinct(s: seq<string>) {
    forall i, j :: 0 <= i < j < |s| ==> s[i] != s[j]
  }

  /** The names of `s` in the order they first occur, each once. */
  function FirstOccurrences(s: seq<string>): (r: seq<string>)
    ensures forall x :: x in r <==> x in s
    ensures Distinct(r)
    ensures |r| <= |s|
  {
    if s == [] then []
    else
      var earlier := FirstOccurrences(s[..|s| - 1]);
      if s[|s| - 1] in earlier then earlier else earlier + [s[|s| - 1]]
  }

  /** One more name extends the first occurrences only when it is new. */
  lemma FirstOccurrencesSnoc(s: seq<string>, x: string)
    ensures FirstOccurrences(s + [x]) ==
      if x in FirstOccurrences(s) then FirstOccurrences(s) else FirstOccurrences(s) + [x]
  {
    assert (s + [x])[..|s|] == s;
  }

  /** A distinct sequence has as many elements as the set of its elements. */
  lemma {:induction false} DistinctCardinality(s: seq<string>)
    requires Distinct(s)
    ensures |set x | x in s| == |s|
  {
    if s != [] {
      var init := s[..|s| - 1];
      assert Distinct(init);
      DistinctCardinality(init);
      assert (set x | x in s) == (set x | x in init) + {s[|s| - 1]};
      assert s[|s| - 1] !in init;
    }
  }

  /**
   * The JavaScript object the queues are collected in: its keys in
   * insertion order and its entries. Assigning to a key already present
   * replaces the entry and keeps the key where it was.
   */
  datatype QueueTable = QueueTable(keys: seq<string>, entries: map<string, Queue>)

  /** `Object.values(queues)`: the entries, collected key by key. */
  function Values(table: QueueTable): (qs: seq<Queue>)
    requires forall k :: k in table.keys ==> k in table.entries
    ensures |qs| == |table.keys|
    ensures forall i :: 0 <= i < |qs| ==> qs[i] == table.entries[table.keys[i]]
    decreases |table.keys|
  {
    if table.keys == [] then []
    else Values(table.(keys := table.keys[..|table.keys| - 1])) + [table.entries[table.keys[|table.keys| - 1]]]
  }

  /** The keys list exactly the entries of the table. */
  ghost predicate Consistent(table: QueueTable) {
    forall k :: k in table.keys <==> k in table.entries
  }

  /**
   * `queues[key] = queue`: a new key goes last, an existing key keeps its
   * place; the key then holds the queue and every other entry is as it was.
   */
  function Assign(table: QueueTable, key: string, queue: Queue): (r: QueueTable)
    ensures table.keys <= r.keys && |r.keys| <= |table.keys| + 1
    ensures key in r.entries && r.entries[key] == queue
    ensures r.entries.Keys == table.entries.Keys + {key}
    ensures forall k :: k in table.entries && k != key ==> r.entries[k] == table.entries[k]
    ensures Consistent(table) ==> Consistent(r) && key in r.keys && (key in table.keys ==> r.keys == table.keys)
    ensures Consistent(table) && Distinct(table.keys) ==> Distinct(r.keys)
  {
    QueueTable(if key in table.entries then table.keys else table.keys + [key], table.entries[key := queue])
  }

  /** The table after assigning the names `done`, in order. */
  ghost predicate Filled(table: QueueTable, done: seq<string>, prefix: string, cluster: Connection) {
    && table.keys == FirstOccurrences(done)
    && Consistent(table)
    && (forall n :: n in table.entries ==> table.entries[n] == ClusterQueue(n, prefix, cluster))
  }

  lemma AssignExtends(table: QueueTable, done: seq<string>, name: string, prefix: string, cluster: Connection)
    requires Filled(table, done, prefix, cluster)
    ensures Filled(Assign(table, name, ClusterQueue(name, prefix, cluster)), done + [name], prefix, cluster)
  {
    FirstOccurrencesSnoc(done, name);
  }

  lemma FilledHolds(table: QueueTable, names: seq<string>, prefix: string, cluster: Connection)
    requires Filled(table, names, prefix, cluster)
    ensures table.keys == FirstOccurrences(names)
    ensures forall n :: n in table.entries <==> n in names
    ensures forall n :: n in table.entries ==> table.entries[n] == ClusterQueue(n, prefix, cluster)
  {
  }

  /**
   * Fills the queue table from the configured names, one assignment per
   * name: the keys are the distinct names in first-occurrence order, and
   * each holds the hash-tagged queue on the configured prefix and the shared
   * cluster handle.
   */
  method BuildQueues(names: seq<string>, prefix: string, cluster: Connection) returns (table: QueueTable)
    ensures table.keys == FirstOccurrences(names)
    ensures forall n :: n in table.entries <==> n in names
    ensures forall n :: n in table.entries ==> table.entries[n] == ClusterQueue(n, prefix, cluster)
  {
    table := QueueTable([], map[]);
    var i := 0;
    while i < |names|
      invariant 0 <= i <= |names|
      invariant Filled(table, names[..i], prefix, cluster)
    {
      AssignExtends(table, names[..i], names[i], prefix, cluster);
      assert names[..i + 1] == names[..i] + [names[i]];
      table := Assign(table, names[i], ClusterQueue(names[i], prefix, cluster));
      i := i + 1;
    }
    assert names[..i] == names;
    FilledHolds(table, names, prefix, cluster);
  }

  /** The table has one key per distinct configured name. */
  lemma TableSize(names: seq<string>)
    ensures |FirstOccurrences(names)| == |set n | n in names|
  {
    var keys := FirstOccurrences(names);
    assert (set n | n in keys) == (set n | n in names);
    DistinctCardinality(keys);
  }

  /** Queues hash-tagged from distinct names have distinct names. */
  lemma TaggedNamesDistinct(keys: seq<string>, queues: seq<Queue>)
    requires Distinct(keys) && |queues| == |keys|
    requires forall i :: 0 <= i < |keys| ==> queues[i].name == HashTagged(keys[i])
    ensures forall i, j :: 0 <= i < j < |queues| ==> queues[i].name != queues[j].name
  {
    forall i, j | 0 <= i < j < |queues|
      ensures queues[i].name != queues[j].name
    {
      HashTagInjective(keys[i], keys[j]);
    }
  }

  /** The values of a filled table are its keys' cluster queues, in key order. */
  lemma ValuesAreClusterQueues(table: QueueTable, names: seq<string>, prefix: string, cluster: Connection)
    requires table.keys == FirstOccurrences(names)
    requires forall n :: n in table.entries <==> n in names
    requires forall n :: n in table.entries ==> table.entries[n] == ClusterQueue(n, prefix, cluster)
    ensures |Values(table)| == |table.keys|
    ensures forall i :: 0 <= i < |table.keys| ==> Values(table)[i] == ClusterQueue(table.keys[i], prefix, cluster)
  {
  }

  /** The two dashboards over the cluster queues of distinct keys. */
  lemma BoardsOverClusterQueues(keys: seq<string>, queues: seq<Queue>, prefix: string, cluster: Connection, boards: Dashboards)
    requires Distinct(keys) && |queues| == |keys|
    requires forall i :: 0 <= i < |keys| ==> queues[i] == ClusterQueue(keys[i], prefix, cluster)
    requires boards == BuildDashboards(queues)
    ensures forall i :: 0 <= i < |keys| ==>
      && boards.readOnly.adapters[i].queue == boards.readWrite.adapters[i].queue
      && boards.readOnly.adapters[i].queue == ClusterQueue(keys[i], prefix, cluster)
      && boards.readOnly.adapters[i].readOnlyMode
      && !boards.readWrite.adapters[i].readOnlyMode
    ensures forall i, kind :: 0 <= i < |keys| ==> CreateClient(boards.readOnly.adapters[i].queue, kind) == cluster
    ensures forall i, j :: 0 <= i < j < |keys| ==>
      boards.readOnly.adapters[i].queue.name != boards.readOnly.adapters[j].queue.name
  {
    TaggedNamesDistinct(keys, queues);
  }

  /**
   * Start-up: the queue table, then one read-only and one read-write
   * adapter per distinct configured name, in the same order, wrapping the
   * same hash-tagged queues, all of whose clients are the one cluster handle.
   */
  method BootGateway(names: seq<string>, prefix: string, cluster: Connection) returns (table: QueueTable, boards: Dashboards)
    ensures table.keys == FirstOccurrences(names)
    ensures boards.readOnly.basePath == ReadOnlyBase && boards.readWrite.basePath == ReadWriteBase
    ensures |boards.readOnly.adapters| == |boards.readWrite.adapters| == |table.keys| == |set n | n in names|
    ensures forall i :: 0 <= i < |table.keys| ==>
      && boards.readOnly.adapters[i].queue == boards.readWrite.adapters[i].queue
      && boards.readOnly.adapters[i].queue == ClusterQueue(table.keys[i], prefix, cluster)
      && boards.readOnly.adapters[i].readOnlyMode
      && !boards.readWrite.adapters[i].readOnlyMode
    ensures forall i, kind :: 0 <= i < |table.keys| ==>
      CreateClient(boards.readOnly.adapters[i].queue, kind) == cluster
    ensures forall i, j :: 0 <= i < j < |table.keys| ==>
      boards.readOnly.adapters[i].queue.name != boards.readOnly.adapters[j].queue.name
  {
    table := BuildQueues(names, prefix, cluster);
    ValuesAreClusterQueues(table, names, prefix, cluster);
    var queues := Values(table);
    boards := BuildDashboards(queues);
    BoardsOverClusterQueues(table.keys, queues, prefix, cluster, boards);
    TableSize(names);
  }
}
