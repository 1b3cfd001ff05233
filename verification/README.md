# Task store with a day-window fetch filter

A model of `LookHere.swift`, a thin persistence layer over a SwiftData store
for one record type, `TodoModel` (a to-do task). It has three parts:

- **Optional ordering** (`optional_order.dfy`, module `OptionalOrder`). The
  file extends `Optional` with a hand-written `<` that is false whenever an
  operand is `nil`. The `<=` and `>=` used by the filter are the defaults of
  Swift's `Comparable`: `a <= b` is `!(b < a)` and `a >= b` is `!(a < b)`.
  They are written out over the hand-written `<`. Dates are integer
  timestamps, because only their order is used.
- **Record and fetch filter** (`todo_model.dfy`, module `Tasks`;
  `fetch_filter.dfy`, module `FetchFilter`). `TodoModel` is a datatype with
  its initialiser. There are three record predicates: `isActive == true`,
  both dates present, and the three-way range test against the window
  `[startOfDay, endOfDay]`. They are combined by a conjunction over the
  array of predicates, as `fetchTasks` does.
- **The service** (`database_service.dfy`, module `Database`). The store is
  a map from `id` to record. `Saved`, `Renamed` and `Deleted` say how save,
  update and delete change that map. The class `DatabaseService` holds the
  map, the `accumulator` counter and the window. Its methods are proved to
  make exactly those changes and nothing else. The context may already hold
  records persisted by earlier runs, written by the same `saveTask`. A ghost
  history of calls ties the store to `Replay` of those records, and
  `accumulator` to the number of saves of a present name in that history.
  So `FetchTasks` can prove what the source's data implies: on success the
  list is empty.

Parameters stand in for what the code takes from its environment:

- the fresh id that `UUID()` generates;
- the clock reading `Date()`;
- the window bounds;
- whether the store's read fails in `fetchTasks`.

Two points where the code behaves differently from a plain reading:

- **Absent operands in `<=` and `>=`.** The derived `<=` and `>=` are TRUE
  when an operand is absent (`OptionalOrder.LessEq`, `OptionalOrder.GreaterEq`).
  So `rangesPredicates` holds for every record that lacks either date.
  Treating every comparison with an absent operand as false does not match
  the code; the model follows the code. The combined filter is not affected,
  because the null check rejects such records first.
- **The window bounds.** `startOfDay` and `endOfDay` are two separate reads
  of the clock, taken when each static is first used. In practice the window
  is a single instant, not a day. The model takes any two bounds.

## Model

| member | source | states |
|---|---|---|
| OptionalOrder.Less | LookHere.swift:5-8 | the hand-written `<`: true only for two present values whose wrapped values are in `<`; the converse and the order laws are in LessIsWrappedLess and LessIsStrictPartialOrder |
| OptionalOrder.LessIsWrappedLess | LookHere.swift:5-8 | `<` is false if either operand is absent; for two present values it is `<` on the wrapped values |
| OptionalOrder.LessIsStrictPartialOrder | LookHere.swift:4-8 | `<` is irreflexive (also on absent values), asymmetric and transitive |
| OptionalOrder.AbsentIsIncomparable | LookHere.swift:4-8 | an absent value is neither below nor above a present one, yet differs from it; the derived `<=` is therefore not transitive (counterexample given) |
| OptionalOrder.LessEq | LookHere.swift:4-8 | the derived `<=` is true when either operand is absent, and is `<=` on the wrapped values otherwise |
| OptionalOrder.GreaterEq | LookHere.swift:4-8 | the derived `>=` is true when either operand is absent, and is `>=` on the wrapped values otherwise |
| Tasks.Init | LookHere.swift:19-24 | the initialiser sets `id`, `taskName`, `number`, and `dateStart` from `time`; it leaves `dateEnd` and `isActive` absent |
| FetchFilter.ActivePredicate | LookHere.swift:31-33 | `isActive == true` holds exactly when the flag is present and true |
| FetchFilter.NullCheckPredicate | LookHere.swift:35-37 | false as soon as either date is absent; its part in the filter, both directions, is stated by CombinedExactly |
| FetchFilter.RangesPredicate | LookHere.swift:39-43 | holds when either date is absent; holds when `dateStart` or `dateEnd` lies in the window, both bounds included |
| FetchFilter.RangesWithBothDates | LookHere.swift:39-43 | with both dates present, the range predicate is exactly: start in window, or end in window, or start before the window with end at or after its start |
| FetchFilter.RangesIsOverlap | LookHere.swift:39-43 | for a record with start <= end and a window with start <= end, the range predicate holds exactly when the two closed intervals intersect |
| FetchFilter.Conjunction | LookHere.swift:59 | a conjunction of predicates holds of a record exactly when every predicate in the array holds of it |
| FetchFilter.FetchPredicates | LookHere.swift:59 | the array `[activePredicate, nullCheckPredicate, rangesPredicates]`: its conjunction holds of a record exactly when all three predicates do |
| FetchFilter.Combined | LookHere.swift:59 | a record passes the combined filter only if `isActive` is true and both dates are present; an absent `dateEnd` always excludes it |
| FetchFilter.CombinedExactly | LookHere.swift:31-43 | both directions: passing the filter is equivalent to active, both dates present, and the plain range test |
| FetchFilter.OpenEndedRecordExcluded | LookHere.swift:35-43 | a record whose start is in the window and whose end is absent passes the range predicate, fails the null check and is excluded |
| FetchFilter.InitNeverPasses | LookHere.swift:19-24 | no record built by the initialiser passes the filter, whatever the window and arguments |
| Database.OnlyInitialisedPassesNothing | LookHere.swift:31-37 | a store whose records all lack `dateEnd` and `isActive` holds no record the filter accepts |
| Database.Saved | LookHere.swift:51-56 | saving `nil` leaves the store as it was; saving a name (an empty one too) puts the initialiser's record under the fresh id, adds exactly one key when the id is new, and keeps every other record; unique ids are preserved |
| Database.Renamed | LookHere.swift:70-73 | renaming keeps the key set and every other record; the target gets the new `taskName` and differs in nothing else; a missing id changes nothing |
| Database.Deleted | LookHere.swift:75-78 | deleting removes exactly the target id (one record fewer when it was present) and keeps every other record |
| Database.ReplayPassesNothing | LookHere.swift:51-78 | starting from a store whose records all came from the initialiser (the empty one included), any sequence of saves, renames and deletes keeps ids unique and leaves no record that passes the fetch filter |
| Database.PresentSaves | LookHere.swift:51-53 | the number of calls that saved a present name, the value `accumulator` keeps; at most the number of calls |
| Database.ReplayStep | LookHere.swift:51-78 | one more call applies exactly that call to the replayed store, and raises the count of present-name saves by one exactly when it is a save of a present name (the `guard let` at :52 then `accumulator += 1` at :53) |
| Database.NothingFetched | LookHere.swift:58-68 | a fetch that lists exactly the accepted records, over a store where none is accepted, is empty |
| Database.DatabaseService.constructor | LookHere.swift:27-49 | a new service has the given window, the context's persisted records (ids unique, all written by `saveTask`) and `accumulator` 0 |
| Database.DatabaseService.SaveTask | LookHere.swift:51-56 | `nil` changes neither the store nor `accumulator`; a present name increments `accumulator` by exactly 1 and makes the store `Saved` of the old one |
| Database.DatabaseService.FetchTasks | LookHere.swift:58-68 | a failed read yields the error and only then; on success the list holds each accepted record of the store exactly once and nothing else, and it is empty |
| Database.DatabaseService.UpdateTask | LookHere.swift:70-73 | the store becomes `Renamed` of the old one for the task's id; `accumulator` is unchanged |
| Database.DatabaseService.DeleteTask | LookHere.swift:75-78 | the store becomes `Deleted` of the old one for the task's id; `accumulator` is unchanged |

## Left out

- SwiftData container and context creation, and the `try!` around it (LookHere.swift:46-47). The context is the map `records`.
- The `static var shared` singleton (LookHere.swift:45). A service object is constructed explicitly instead.
- How SwiftData translates and runs a `#Predicate` against the persistent store. Predicates are evaluated on one record in memory, with the Swift operator meanings above.
- The body of `.conjunction()`, which is not part of this model. It is taken to be the logical AND of the predicates in the array.
- The runtime behaviour of `@Attribute(.unique)` on a conflict. `SaveTask` requires the fresh id to be absent from the store.
- `UUID()` generation. The fresh id is a parameter.
- `Date()` clock reads and `Date`'s floating-point representation. Times are integer parameters.
- Where a fetch error comes from. Failure is a boolean parameter, and the error carries no detail.
- The escaping completion callback of `fetchTasks`. The result is returned directly as `Fetched(records)` or `FetchFailed(error)`.
- The order of fetched records. The store imposes none, so `FetchTasks` only promises each accepted record exactly once.
- Object identity of `TodoModel`. `updateTask` mutates the object it is given, and every alias sees the change. Here update and delete find the stored record by the task's `id`. Renaming an object that is not in the store changes nothing visible in the store.
- Pending deletes. A deletion takes effect at once; the context's save cycle is not part of this model.
- Database.DatabaseService.constructor: records persisted by earlier runs are taken to have been written by this service's `saveTask` (no `dateEnd`, no `isActive`); records written into the same store by other code are not modelled.
- Database.DatabaseService.SaveTask: does not model the trap that `accumulator += 1` raises when the 64-bit `Int` overflows; `accumulator` is unbounded.
