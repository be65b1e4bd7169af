/** The memory store, its dictionaries updated in place, and the Postgres upsert it must agree with. */
module Store {
  import opened Text
  import opened Records
  import opened ControlPlane

  // ---------------------------------------------------------------- extension runs, as values

  /** The two dictionaries of the memory store. */
  datatype Memory = Memory(runs: map<Id, ExtensionRun>, keys: map<Key, Id>)

  /** Every key names the run that carries it, and every run is named by its key. */
  ghost predicate Linked(m: Memory) {
    && (forall k :: k in m.keys ==> m.keys[k] in m.runs && m.runs[m.keys[k]].key == k && m.runs[m.keys[k]].id == m.keys[k])
    && (forall id :: id in m.runs ==> m.runs[id].key in m.keys && m.keys[m.runs[id].key] == id)
  }

  /** The runs by key: what callers can see of the two dictionaries. */
  function View(m: Memory): map<Key, ExtensionRun> {
    map k | k in m.keys && m.keys[k] in m.runs :: m.runs[m.keys[k]]
  }

  datatype Stored<S> = Stored(store: S, returned: ExtensionRun)

  function MemorySave(m: Memory, value: ExtensionRun): Stored<Memory>
    requires Linked(m)
  {
    if value.key in m.keys && m.keys[value.key] != value.id then Stored(m, m.runs[m.keys[value.key]])
    else Stored(Memory(m.runs[value.id := value], m.keys[value.key := value.id]), value)
  }

  /** The table, by its unique key column.  `INSERT ... ON CONFLICT (idempotency_key)`: a row under the key is
      updated only by its own id, and a new row whose id another row has violates the primary key. */
  function Upsert(table: map<Key, ExtensionRun>, value: ExtensionRun): Option<Stored<map<Key, ExtensionRun>>> {
    if value.key in table then
      if table[value.key].id == value.id then Some(Stored(table[value.key := value], value))
      else Some(Stored(table, table[value.key]))
    else if exists k :: k in table && table[k].id == value.id then None
    else Some(Stored(table[value.key := value], value))
  }

  // ---------------------------------------------------------------- the two stores agree

  /** The value brings a new key under an id that a stored run already has. */
  ghost predicate Rekeys(m: Memory, value: ExtensionRun) {
    value.key !in m.keys && value.id in m.runs
  }

  lemma ViewRuns(m: Memory, k: Key)
    requires Linked(m)
    ensures k in View(m) <==> k in m.keys
    ensures k in m.keys ==> View(m)[k] == m.runs[m.keys[k]] && View(m)[k].id == m.keys[k]
  {
  }

  lemma Refuses(m: Memory, value: ExtensionRun)
    requires Linked(m)
    ensures Upsert(View(m), value).None? <==> Rekeys(m, value)
  {
    if value.key !in m.keys {
      if value.id in m.runs {
        ViewRuns(m, m.runs[value.id].key);
        assert View(m)[m.runs[value.id].key].id == value.id;
      }
      if k :| k in View(m) && View(m)[k].id == value.id {
        ViewRuns(m, k);
        assert value.id in m.runs;
      }
    }
  }

  /** A save agrees with the upsert - same row returned, same runs by key, dictionaries still linked - exactly
      when it does not bring a new key under a stored id; then Postgres raises, and the memory store forgets
      the run under its old key. */
  lemma SaveAgrees(m: Memory, value: ExtensionRun)
    requires Linked(m)
    ensures var saved, upserted := MemorySave(m, value), Upsert(View(m), value);
            && (Rekeys(m, value) <==> upserted.None?)
            && (Rekeys(m, value) <==> !Linked(saved.store))
            && (!Rekeys(m, value) ==> View(saved.store) == upserted.value.store && saved.returned == upserted.value.returned)
  {
    Refuses(m, value);
    var saved := MemorySave(m, value).store;
    if Rekeys(m, value) {
      var lost := m.runs[value.id].key;
      assert lost in saved.keys && saved.keys[lost] == value.id && saved.runs[value.id].key != lost;
    } else {
      forall id | id in saved.runs ensures saved.runs[id].key in saved.keys && saved.keys[saved.runs[id].key] == id {
      }
      SavedView(m, value);
    }
  }

  lemma SavedView(m: Memory, value: ExtensionRun)
    requires Linked(m) && !Rekeys(m, value)
    ensures var kept := value.key in m.keys && m.keys[value.key] != value.id;
            View(MemorySave(m, value).store) == if kept then View(m) else View(m)[value.key := value]
  {
  }

  // ---------------------------------------------------------------- sequences of saves

  /** Fresh ids: one run id is never saved under two keys. */
  predicate OwnKeys(values: seq<ExtensionRun>) {
    forall i, j :: 0 <= i < j < |values| && values[i].id == values[j].id ==> values[i].key == values[j].key
  }

  function UpsertAll(values: seq<ExtensionRun>): Option<map<Key, ExtensionRun>> {
    if values == [] then Some(map[])
    else
      match UpsertAll(values[..|values| - 1])
      case None => None
      case Some(table) =>
        match Upsert(table, values[|values| - 1])
        case None => None
        case Some(stored) => Some(stored.store)
  }

  /** The first value saved under a key. */
  function FirstUnder(values: seq<ExtensionRun>, key: Key): Option<ExtensionRun> {
    if values == [] then None
    else
      var earlier := FirstUnder(values[..|values| - 1], key);
      if earlier.Some? then earlier
      else if values[|values| - 1].key == key then Some(values[|values| - 1])
      else None
  }

  lemma {:induction false} FirstIsAmong(values: seq<ExtensionRun>, key: Key) returns (i: nat)
    requires FirstUnder(values, key).Some?
    ensures i < |values| && values[i] == FirstUnder(values, key).value && values[i].key == key
  {
    if FirstUnder(values[..|values| - 1], key).Some? {
      i := FirstIsAmong(values[..|values| - 1], key);
    } else {
      i := |values| - 1;
    }
  }

  /** The first save under a key wins for good: with fresh ids no upsert is ever refused, and the row under a
      key always has the id of the first value saved there. */
  lemma {:induction false} FirstSaveWins(values: seq<ExtensionRun>)
    requires OwnKeys(values)
    ensures UpsertAll(values).Some?
    ensures forall key :: key in UpsertAll(values).value <==> FirstUnder(values, key).Some?
    ensures forall key :: key in UpsertAll(values).value ==>
              UpsertAll(values).value[key].key == key && UpsertAll(values).value[key].id == FirstUnder(values, key).value.id
  {
    if values != [] {
      var init, last := values[..|values| - 1], values[|values| - 1];
      FirstSaveWins(init);
      var table := UpsertAll(init).value;
      forall k | k in table && k != last.key ensures table[k].id != last.id {
        var i := FirstIsAmong(init, k);
        assert values[i] == init[i];
      }
    }
  }

  /** The control plane's runs behave as that table. */
  lemma ControlPlaneUpserts(w: World, run: ExtensionRun)
    requires Upsert(w.runs, run).Some?
    ensures Apply(w, SaveRun(run)).runs == Upsert(w.runs, run).value.store
    ensures Apply(w, SaveRun(run)).runs[run.key] == Upsert(w.runs, run).value.returned
  {
  }

  // ---------------------------------------------------------------- the store object

  class MemoryStore {
    var queueItems: map<Id, QueueItem>
    var builds: map<Id, Build>
    var webhooks: map<string, string>
    var extensionRuns: map<Id, ExtensionRun>
    var extensionKeys: map<Key, Id>

    ghost function Runs(): Memory
      reads this
    {
      Memory(extensionRuns, extensionKeys)
    }

    constructor ()
      ensures queueItems == map[] && builds == map[] && webhooks == map[] && Runs() == Memory(map[], map[])
      ensures Linked(Runs())
    {
      queueItems, builds, webhooks, extensionRuns, extensionKeys := map[], map[], map[], map[], map[];
    }

    method SaveBuild(value: Build) returns (saved: Build)
      modifies this`builds
      ensures saved == value && builds == old(builds)[value.id := value]
    {
      builds := builds[value.id := value];
      return value;
    }

    method GetBuild(id: Id) returns (build: Option<Build>)
      ensures build == if id in builds then Some(builds[id]) else None
    {
      if id in builds { return Some(builds[id]); }
      return None;
    }

    method SaveQueueItem(value: QueueItem) returns (saved: QueueItem)
      modifies this`queueItems
      ensures saved == value && queueItems == old(queueItems)[value.id := value]
    {
      queueItems := queueItems[value.id := value];
      return value;
    }

    method GetQueueItem(id: Id) returns (item: Option<QueueItem>)
      ensures item == if id in queueItems then Some(queueItems[id]) else None
    {
      if id in queueItems { return Some(queueItems[id]); }
      return None;
    }

    /** True for exactly the first delivery of an id, whose event is kept. */
    method RecordWebhookOnce(id: string, event: string) returns (first: bool)
      modifies this`webhooks
      ensures first <==> id !in old(webhooks)
      ensures webhooks == if first then old(webhooks)[id := event] else old(webhooks)
    {
      if id in webhooks { return false; }
      webhooks := webhooks[id := event];
      return true;
    }

    method SaveExtensionRun(value: ExtensionRun) returns (returned: ExtensionRun)
      requires Linked(Runs())
      modifies this`extensionRuns, this`extensionKeys
      ensures Stored(Runs(), returned) == MemorySave(old(Runs()), value)
      ensures !old(Rekeys(Runs(), value)) ==>
                && Linked(Runs())
                && Upsert(View(old(Runs())), value) == Some(Stored(View(Runs()), returned))
    {
      SaveAgrees(Runs(), value);
      if value.key in extensionKeys {
        var existing := extensionKeys[value.key];
        if existing != value.id { return extensionRuns[existing]; }
      }
      extensionRuns := extensionRuns[value.id := value];
      extensionKeys := extensionKeys[value.key := value.id];
      return value;
    }

    method GetExtensionRunByKey(key: Key) returns (run: Option<ExtensionRun>)
      requires Linked(Runs())
      ensures run == if key in View(Runs()) then Some(View(Runs())[key]) else None
    {
      if key in extensionKeys { return Some(extensionRuns[extensionKeys[key]]); }
      return None;
    }
  }
}
