/**
 `DatabaseService` of LookHere.swift: a save counter and a store of task
 records, with save, fetch, update and delete.

 The store (the SwiftData context) is a map from a record's `id` to the
 record.  The changes the four operations make to it are first given as
 functions on such maps (Saved, Renamed, Deleted); the methods of the class
 are proved to make exactly those changes.  The fresh id and the clock
 reading of `saveTask`, and whether the store's read fails in `fetchTasks`,
 come in as parameters.
 */
module Database {
  import opened OptionalOrder
  import opened Tasks
  import opened FetchFilter

  type Store = map<string, TodoModel>

  /** Every record is stored under its own `id`, so ids are unique. */
  predicate IdsMatch(m: Store)
  {
    forall k :: k in m ==> m[k].id == k
  }

  /**
   Every record still has `dateEnd` and `isActive` unset, as the record
   initialiser leaves them.
   */
  predicate OnlyInitialised(m: Store)
  {
    forall k :: k in m ==> m[k].dateEnd == None && m[k].isActive == None
  }

  /** A store whose records are all as the initialiser leaves them holds nothing the filter accepts. */
  lemma OnlyInitialisedPassesNothing(w: Window, m: Store)
    requires OnlyInitialised(m)
    ensures forall k :: k in m ==> !Combined(w, m[k])
  {
  }

  /**
   The store after `saveTask(taskName)` with fresh id `id` at time `now`:
   unchanged for a `nil` name, otherwise holding one more record built by
   the initialiser (an empty name is saved like any other).
   */
  function Saved(m: Store, taskName: Option<string>, id: string, now: Date): (r: Store)
    ensures taskName.None? ==> r == m
    ensures taskName.Some? ==> id in r && r[id] == Init(id, taskName.value, None, Some(now))
    ensures taskName.Some? && id !in m ==> r.Keys == m.Keys + {id} && |r| == |m| + 1
    ensures forall k :: k in m && k != id ==> k in r && r[k] == m[k]
    ensures IdsMatch(m) ==> IdsMatch(r)
    ensures OnlyInitialised(m) ==> OnlyInitialised(r)
  {
    match taskName
    case None => m
    case Some(name) =>
      var r := m[id := Init(id, name, None, Some(now))];
      assert id !in m ==> |r| == |m| + 1 by {
        if id !in m { assert r.Keys == m.Keys + {id}; }
      }
      r
  }

  /**
   The store after `updateTask` renames the record with id `id`: only that
   record's `taskName` differs; a record not in the store changes nothing.
   */
  function Renamed(m: Store, id: string, newTaskName: string): (r: Store)
    ensures r.Keys == m.Keys && |r| == |m|
    ensures id in m ==> r[id].taskName == newTaskName && r[id].(taskName := m[id].taskName) == m[id]
    ensures forall k :: k in m && k != id ==> r[k] == m[k]
    ensures IdsMatch(m) ==> IdsMatch(r)
    ensures OnlyInitialised(m) ==> OnlyInitialised(r)
  {
    if id in m then
      var r := m[id := m[id].(taskName := newTaskName)];
      assert r.Keys == m.Keys;
      r
    else m
  }

  /** The store after `deleteTask` removes the record with id `id`; all others stay. */
  function Deleted(m: Store, id: string): (r: Store)
    ensures id !in r && r.Keys == m.Keys - {id}
    ensures id in m ==> |r| == |m| - 1
    ensures forall k :: k in m && k != id ==> k in r && r[k] == m[k]
    ensures IdsMatch(m) ==> IdsMatch(r)
    ensures OnlyInitialised(m) ==> OnlyInitialised(r)
  {
    m - {id}
  }

  /** One call of the service that changes the store. */
  datatype Call =
    | Save(taskName: Option<string>, id: string, now: Date)
    | Update(id: string, newTaskName: string)
    | Delete(id: string)

  /** The store after one call. */
  function Apply(m: Store, c: Call): (r: Store)
  {
    match c
    case Save(taskName, id, now) => Saved(m, taskName, id, now)
    case Update(id, newTaskName) => Renamed(m, id, newTaskName)
    case Delete(id) => Deleted(m, id)
  }

  /** The store reached from `initial` by the given calls, in order. */
  function Replay(initial: Store, calls: seq<Call>): (r: Store)
  {
    if calls == [] then initial else Apply(Replay(initial, calls[..|calls| - 1]), calls[|calls| - 1])
  }

  /** How many of the calls saved a present name, that is, how often `accumulator += 1` ran. */
  function PresentSaves(calls: seq<Call>): (n: nat)
    ensures n <= |calls|
  {
    if calls == [] then 0
    else PresentSaves(calls[..|calls| - 1]) + (if calls[|calls| - 1].Save? && calls[|calls| - 1].taskName.Some? then 1 else 0)
  }

  /**
   One more call: the replayed store is that call applied to the store
   before it, and the count of present-name saves grows by one exactly when
   the call is such a save.
   */
  lemma ReplayStep(initial: Store, calls: seq<Call>, c: Call)
    ensures Replay(initial, calls + [c]) == Apply(Replay(initial, calls), c)
    ensures PresentSaves(calls + [c]) == PresentSaves(calls) + (if c.Save? && c.taskName.Some? then 1 else 0)
  {
    assert (calls + [c])[..|calls|] == calls;
  }

  /**
   Whatever sequence of saves, renames and deletes is applied to a store
   written only by this service (the empty store, or one persisted by
   earlier runs), ids stay unique and no record passes the fetch filter.
   */
  lemma {:induction false} ReplayPassesNothing(w: Window, initial: Store, calls: seq<Call>)
    requires IdsMatch(initial) && OnlyInitialised(initial)
    ensures IdsMatch(Replay(initial, calls)) && OnlyInitialised(Replay(initial, calls))
    ensures forall k :: k in Replay(initial, calls) ==> !Combined(w, Replay(initial, calls)[k])
  {
    if calls != [] {
      ReplayPassesNothing(w, initial, calls[..|calls| - 1]);
    }
    OnlyInitialisedPassesNothing(w, Replay(initial, calls));
  }

  /** Why a fetch failed: the store's read threw. */
  datatype FetchError = StoreReadFailure

  /** What `fetchTasks` passes to its completion: the records, or the error. */
  datatype FetchResult = Fetched(records: seq<TodoModel>) | FetchFailed(error: FetchError)

  /** `rs` lists each record of `m` that the filter accepts, once, and nothing else. */
  predicate FetchedExactly(rs: seq<TodoModel>, m: Store, w: Window)
  {
    && (forall i :: 0 <= i < |rs| ==> rs[i].id in m && m[rs[i].id] == rs[i] && Combined(w, rs[i]))
    && (forall k :: k in m && Combined(w, m[k]) ==> m[k] in rs)
    && (forall i, j :: 0 <= i < j < |rs| ==> rs[i].id != rs[j].id)
  }

  /** A store none of whose records passes the filter yields an empty fetch. */
  lemma NothingFetched(rs: seq<TodoModel>, m: Store, w: Window)
    requires FetchedExactly(rs, m, w)
    requires forall k :: k in m ==> !Combined(w, m[k])
    ensures rs == []
  {
    if rs != [] {
      FirstFetchedPasses(rs, m, w);
      assert false;
    }
  }

  lemma FirstFetchedPasses(rs: seq<TodoModel>, m: Store, w: Window)
    requires FetchedExactly(rs, m, w) && rs != []
    ensures rs[0].id in m && Combined(w, m[rs[0].id])
  {
  }

  class DatabaseService {
    /** `startOfDay` and `endOfDay`. */
    const window: Window
    /** The records in the context, by id. */
    var records: Store
    /** How many saves of a present name this object made. */
    var accumulator: int
    /** The records the context held when the service was created. */
    ghost const persisted: Store
    /** The calls made so far, in order. */
    ghost var history: seq<Call>

    /**
     The store is what this object's calls made of the persisted records,
     which were themselves written by `saveTask`; `accumulator` counts the
     saves of a present name among those calls.
     */
    ghost predicate Valid()
      reads this
    {
      && IdsMatch(persisted) && OnlyInitialised(persisted)
      && IdsMatch(records) && records == Replay(persisted, history)
      && accumulator == PresentSaves(history)
    }

    /**
     A service over a context that already holds `persisted` (empty on a
     first run), with the counter at 0.
     */
    constructor (window: Window, persisted: Store)
      requires IdsMatch(persisted) && OnlyInitialised(persisted)
      ensures Valid()
      ensures this.window == window && records == persisted && accumulator == 0 && history == []
    {
      this.window := window;
      this.persisted := persisted;
      records := persisted;
      accumulator := 0;
      history := [];
    }

    /**
     `saveTask(taskName:)`: a `nil` name changes nothing; otherwise the
     counter goes up by one and one new record is inserted.
     */
    method SaveTask(taskName: Option<string>, freshId: string, now: Date)
      requires Valid()
      requires taskName.Some? ==> freshId !in records
      modifies this
      ensures Valid()
      ensures records == Saved(old(records), taskName, freshId, now)
      ensures accumulator == old(accumulator) + (if taskName.Some? then 1 else 0)
      ensures history == old(history) + [Save(taskName, freshId, now)]
    {
      ReplayStep(persisted, history, Save(taskName, freshId, now));
      history := history + [Save(taskName, freshId, now)];
      if taskName.None? {
        return;
      }
      accumulator := accumulator + 1;
      var taskToBeSaved := Init(freshId, taskName.value, None, Some(now));
      records := records[freshId := taskToBeSaved];
    }

    /**
     `fetchTasks(onCompletion:)`: a failed read gives the error; otherwise
     the records the combined filter accepts, each once.  Since every
     record was made by `saveTask`, the list is always empty.
     */
    method FetchTasks(readFails: bool) returns (r: FetchResult)
      requires Valid()
      ensures r.FetchFailed? <==> readFails
      ensures r.Fetched? ==> FetchedExactly(r.records, records, window)
      ensures r.Fetched? ==> r.records == []
    {
      if readFails {
        return FetchFailed(StoreReadFailure);
      }
      var remaining := records.Keys;
      var found: seq<TodoModel> := [];
      while remaining != {}
        invariant remaining <= records.Keys
        invariant forall i :: 0 <= i < |found| ==>
          found[i].id in records && found[i].id !in remaining &&
          records[found[i].id] == found[i] && Combined(window, found[i])
        invariant forall k :: k in records && k !in remaining && Combined(window, records[k]) ==> records[k] in found
        invariant forall i, j :: 0 <= i < j < |found| ==> found[i].id != found[j].id
        decreases remaining
      {
        var k :| k in remaining;
        if Combined(window, records[k]) {
          found := found + [records[k]];
        }
        remaining := remaining - {k};
      }
      ReplayPassesNothing(window, persisted, history);
      NothingFetched(found, records, window);
      return Fetched(found);
    }

    /** `updateTask(task:newTaskName:)`: renames the stored record with the task's id. */
    method UpdateTask(task: TodoModel, newTaskName: string)
      requires Valid()
      modifies this
      ensures Valid()
      ensures records == Renamed(old(records), task.id, newTaskName)
      ensures accumulator == old(accumulator)
      ensures history == old(history) + [Update(task.id, newTaskName)]
    {
      ReplayStep(persisted, history, Update(task.id, newTaskName));
      history := history + [Update(task.id, newTaskName)];
      if task.id in records {
        var taskToBeUpdated := records[task.id];
        records := records[task.id := taskToBeUpdated.(taskName := newTaskName)];
      }
    }

    /** `deleteTask(task:)`: removes the stored record with the task's id. */
    method DeleteTask(task: TodoModel)
      requires Valid()
      modifies this
      ensures Valid()
      ensures records == Deleted(old(records), task.id)
      ensures accumulator == old(accumulator)
      ensures history == old(history) + [Delete(task.id)]
    {
      ReplayStep(persisted, history, Delete(task.id));
      history := history + [Delete(task.id)];
      records := records - {task.id};
      assert records == Deleted(old(records), task.id);
    }
  }

  /**
   A session with the service: save "Buy milk", fetch, rename it to
   "Buy oat milk", delete it.
   */
  method BuyMilkSession(w: Window, id: string, now: Date, readFails: bool)
  {
    var service := new DatabaseService(w, map[]);
    service.SaveTask(Some("Buy milk"), id, now);
    assert service.records.Keys == {id} && service.records[id].taskName == "Buy milk";
    assert service.records[id].dateStart == Some(now) && service.accumulator == 1;
    var fetched := service.FetchTasks(readFails);
    assert !readFails ==> fetched == Fetched([]);
    var task := service.records[id];
    service.UpdateTask(task, "Buy oat milk");
    assert service.records.Keys == {id} && service.records[id].taskName == "Buy oat milk";
    service.DeleteTask(task);
    assert service.records == map[];
    service.SaveTask(None, id, now);
    assert service.records == map[] && service.accumulator == 1;
  }
}
