/**
 The filter `DatabaseService.fetchTasks` hands to the store: three record
 predicates (`activePredicate`, `nullCheckPredicate`, `rangesPredicates`)
 combined by `.conjunction()`.  Each predicate is evaluated on one record
 with the Optional ordering of module OptionalOrder.
 */
module FetchFilter {
  import opened OptionalOrder
  import opened Tasks

  /**
   The day window `[startOfDay, endOfDay]`.  Both bounds are captured once,
   from the clock, when `DatabaseService` is first used; here they are given.
   */
  datatype Window = Window(startOfDay: Date, endOfDay: Date)

  /** `$0.isActive == true`: an absent flag compares unequal to `true`. */
  function ActivePredicate(t: TodoModel): (r: bool)
    ensures r <==> t.isActive.Some? && t.isActive.value
  {
    t.isActive == Some(true)
  }

  /** `$0.dateStart != nil && $0.dateEnd != nil`. */
  function NullCheckPredicate(t: TodoModel): (r: bool)
    ensures t.dateStart.None? || t.dateEnd.None? ==> !r
  {
    t.dateStart.Some? && t.dateEnd.Some?
  }

  /** `d` lies in the window, both bounds included (plain integer comparison). */
  predicate InWindow(w: Window, d: Date)
  {
    w.startOfDay <= d <= w.endOfDay
  }

  /**
   The three disjuncts of `rangesPredicates`, each comparison being the
   Optional one: the start inside the window, the end inside the window, or
   the record starting before the window and ending at or after its start.
   */
  function RangesPredicate(w: Window, t: TodoModel): (r: bool)
    ensures t.dateStart.None? || t.dateEnd.None? ==> r
    ensures t.dateStart.Some? && InWindow(w, t.dateStart.value) ==> r
    ensures t.dateEnd.Some? && InWindow(w, t.dateEnd.value) ==> r
  {
    var start, end := Some(w.startOfDay), Some(w.endOfDay);
    (GreaterEq(t.dateStart, start) && LessEq(t.dateStart, end)) ||
    (GreaterEq(t.dateEnd, start) && LessEq(t.dateEnd, end)) ||
    (Less(t.dateStart, start) && GreaterEq(t.dateEnd, start))
  }

  /** `[p, q, ...].conjunction()` applied to one record: every predicate holds of it. */
  function Conjunction(ps: seq<TodoModel -> bool>, t: TodoModel): (r: bool)
    ensures r <==> forall i :: 0 <= i < |ps| ==> ps[i](t)
  {
    if ps == [] then true else ps[0](t) && Conjunction(ps[1..], t)
  }

  /** The array of predicates that `fetchTasks` conjoins, in its order. */
  function FetchPredicates(w: Window): (ps: seq<TodoModel -> bool>)
    ensures forall t :: Conjunction(ps, t) <==> ActivePredicate(t) && NullCheckPredicate(t) && RangesPredicate(w, t)
  {
    var ps := [ActivePredicate, NullCheckPredicate, t => RangesPredicate(w, t)];
    assert forall t :: ps[0](t) == ActivePredicate(t) && ps[1](t) == NullCheckPredicate(t) && ps[2](t) == RangesPredicate(w, t);
    ps
  }

  /** The combined filter of `fetchTasks`. */
  function Combined(w: Window, t: TodoModel): (r: bool)
    ensures r ==> t.isActive == Some(true) && t.dateStart.Some? && t.dateEnd.Some?
    ensures t.dateEnd.None? ==> !r
  {
    var ps := FetchPredicates(w);
    assert ps[0](t) == ActivePredicate(t) && ps[1](t) == NullCheckPredicate(t);
    Conjunction(ps, t)
  }

  /** With both dates present, `rangesPredicates` is the plain comparison of the timestamps. */
  lemma RangesWithBothDates(w: Window, t: TodoModel)
    requires t.dateStart.Some? && t.dateEnd.Some?
    ensures RangesPredicate(w, t) <==>
      var s, e := t.dateStart.value, t.dateEnd.value;
      InWindow(w, s) || InWindow(w, e) || (s < w.startOfDay <= e)
  {
  }

  /**
   For a well-formed record (start not after end) and a well-formed window,
   `rangesPredicates` is exactly the test that the two closed intervals meet.
   */
  lemma RangesIsOverlap(w: Window, t: TodoModel)
    requires t.dateStart.Some? && t.dateEnd.Some?
    requires t.dateStart.value <= t.dateEnd.value && w.startOfDay <= w.endOfDay
    ensures RangesPredicate(w, t) <==>
      t.dateStart.value <= w.endOfDay && w.startOfDay <= t.dateEnd.value
  {
    RangesWithBothDates(w, t);
  }

  /** The combined filter, stated on the fields alone, in both directions. */
  lemma CombinedExactly(w: Window, t: TodoModel)
    ensures Combined(w, t) <==>
      && t.isActive == Some(true)
      && t.dateStart.Some? && t.dateEnd.Some?
      && (InWindow(w, t.dateStart.value) || InWindow(w, t.dateEnd.value) ||
          t.dateStart.value < w.startOfDay <= t.dateEnd.value)
  {
    if t.dateStart.Some? && t.dateEnd.Some? {
      RangesWithBothDates(w, t);
    }
  }

  /**
   A record that starts inside the window but has no end passes the range
   predicate and still fails the filter, because the null check fails.
   */
  lemma OpenEndedRecordExcluded(w: Window, t: TodoModel)
    requires t.dateStart.Some? && InWindow(w, t.dateStart.value) && t.dateEnd.None?
    ensures RangesPredicate(w, t) && !NullCheckPredicate(t) && !Combined(w, t)
  {
  }

  /** No record built by `TodoModel.init` passes the filter, whatever the window. */
  lemma InitNeverPasses(w: Window, id: string, taskName: string, number: Option<int>, time: Option<Date>)
    ensures !Combined(w, Init(id, taskName, number, time))
  {
  }
}
