/**
 * The bounded undo/redo history of `useUndoable`: a held value, the values
 * it replaced (`past`, oldest first) and the values undone since the last
 * edit (`future`, the next redo last), bounded by an optional capacity
 * (`maxDeltas`; None means unbounded).
 *
 * The behaviour is defined twice: as functions on a `History` value, about
 * which the lemmas below are proved, and as the class `Undoable`, whose
 * methods update their fields step by step and are proved to follow the
 * functions.
 */
module UndoHistory {
  import opened Wrappers
  import opened StateUpdate

  function Min(a: int, b: int): int { if a <= b then a else b }

  /** `used` entries fit in the capacity `cap`. */
  predicate Within(used: nat, cap: Option<nat>) {
    cap.None? || used <= cap.value
  }

  function Last<T>(s: seq<T>): T
    requires s != []
  {
    s[|s| - 1]
  }

  /** `s` without its `k` oldest (leading) entries; retained entries keep their order. */
  function DropOldest<T>(s: seq<T>, k: int): (r: seq<T>)
    ensures k <= 0 ==> r == s
    ensures k >= |s| ==> r == []
    ensures |r| == |s| - (if k <= 0 then 0 else Min(k, |s|))
    ensures forall i :: 0 <= i < |r| ==> r[i] == s[|s| - |r| + i]
  {
    if k <= 0 then s else if k >= |s| then [] else s[k..]
  }

  datatype History<T> = History(value: T, past: seq<T>, future: seq<T>, capacity: Option<nat>)

  /** The capacity bounds past and future together. */
  predicate Bounded<T>(h: History<T>) {
    Within(|h.past| + |h.future|, h.capacity)
  }

  /** A freshly mounted history: nothing to undo or redo. */
  function Initial<T>(v: T, cap: Option<nat>): (r: History<T>)
    ensures Bounded(r) && r.value == v && r.past == [] && r.future == []
  {
    History(v, [], [], cap)
  }

  /**
   * setValue: the value it replaces becomes the most recent past entry,
   * the oldest past entries are evicted beyond the capacity, and every
   * pending redo is discarded.
   */
  function SetStep<T>(h: History<T>, u: Update<T>): (r: History<T>)
    ensures r.value == Resolve(u, h.value)
    ensures r.future == [] && r.capacity == h.capacity
    ensures Bounded(r)
  {
    var pushed := h.past + [h.value];
    var kept := match h.capacity
      case None => pushed
      case Some(n) => DropOldest(pushed, |pushed| - n);
    History(Resolve(u, h.value), kept, [], h.capacity)
  }

  /** undo: the last past entry becomes the value; the replaced value becomes the next redo. */
  function UndoStep<T>(h: History<T>): (r: History<T>)
    ensures h.past == [] ==> r == h
    ensures h.past != [] ==> r.past + [r.value] == h.past && r.future == h.future + [h.value]
    ensures r.capacity == h.capacity && |r.past| + |r.future| == |h.past| + |h.future|
    ensures Bounded(h) ==> Bounded(r)
  {
    if h.past == [] then h
    else h.(value := Last(h.past), past := h.past[..|h.past| - 1], future := h.future + [h.value])
  }

  /** redo: the next redo becomes the value; the replaced value becomes the last past entry. */
  function RedoStep<T>(h: History<T>): (r: History<T>)
    ensures h.future == [] ==> r == h
    ensures h.future != [] ==> r.future + [r.value] == h.future && r.past == h.past + [h.value]
    ensures r.capacity == h.capacity && |r.past| + |r.future| == |h.past| + |h.future|
    ensures Bounded(h) ==> Bounded(r)
  {
    if h.future == [] then h
    else h.(value := Last(h.future), past := h.past + [h.value], future := h.future[..|h.future| - 1])
  }

  /**
   * A re-render with a new `maxDeltas`: the overflow of past and future
   * together is dropped from the front of `future` first, then `past`
   * keeps only its most recent `capacity` entries.
   */
  function ResizeStep<T>(h: History<T>, cap: Option<nat>): (r: History<T>)
    ensures Bounded(r) && r.value == h.value && r.capacity == cap
  {
    match cap
    case None => h.(capacity := cap)
    case Some(n) =>
      h.(past := DropOldest(h.past, |h.past| - n),
         future := DropOldest(h.future, |h.past| + |h.future| - n),
         capacity := cap)
  }

  /**
   * setValue appends the replaced value to past and evicts only the oldest
   * entries: past keeps its most recent `capacity` entries, in order.
   */
  lemma SetEvictsOldest<T>(h: History<T>, u: Update<T>)
    ensures var r := SetStep(h, u);
      |r.past| <= |h.past| + 1 && r.past == (h.past + [h.value])[|h.past| + 1 - |r.past|..]
    ensures h.capacity.Some? ==> |SetStep(h, u).past| == Min(|h.past| + 1, h.capacity.value)
    ensures Within(|h.past| + 1, h.capacity) ==> SetStep(h, u).past == h.past + [h.value]
    ensures h.capacity != Some(0) ==> SetStep(h, u).past != [] && Last(SetStep(h, u).past) == h.value
  {
  }

  /**
   * A new limit keeps the most recent entries of past and future, gives
   * past priority over future, keeps as many entries as the limit allows,
   * and changes nothing when the history already fits.
   */
  lemma ResizeKeepsRecent<T>(h: History<T>, cap: Option<nat>)
    ensures var r := ResizeStep(h, cap);
      && |r.past| <= |h.past| && r.past == h.past[|h.past| - |r.past|..]
      && |r.future| <= |h.future| && r.future == h.future[|h.future| - |r.future|..]
    ensures cap.Some? ==> |ResizeStep(h, cap).past| == Min(|h.past|, cap.value)
    ensures cap.Some? ==>
      |ResizeStep(h, cap).past| + |ResizeStep(h, cap).future| == Min(|h.past| + |h.future|, cap.value)
    ensures Within(|h.past| + |h.future|, cap) ==> ResizeStep(h, cap) == h.(capacity := cap)
  {
  }

  /** One call on the hook: a setter call, an undo, a redo or a re-render with a new limit. */
  datatype Action<!T> = SetOp(u: Update<T>) | UndoOp | RedoOp | ResizeOp(cap: Option<nat>)

  function Apply<T>(h: History<T>, a: Action<T>): History<T> {
    match a
    case SetOp(u) => SetStep(h, u)
    case UndoOp => UndoStep(h)
    case RedoOp => RedoStep(h)
    case ResizeOp(cap) => ResizeStep(h, cap)
  }

  function Run<T>(h: History<T>, acts: seq<Action<T>>): History<T>
    decreases |acts|
  {
    if acts == [] then h else Run(Apply(h, acts[0]), acts[1..])
  }

  /** Every reachable history respects its capacity. */
  lemma {:induction false} RunKeepsBound<T>(h: History<T>, acts: seq<Action<T>>)
    requires Bounded(h)
    ensures Bounded(Run(h, acts))
    decreases |acts|
  {
    if acts != [] {
      RunKeepsBound(Apply(h, acts[0]), acts[1..]);
    }
  }

  /** A redo right after an undo restores value, past and future exactly. */
  lemma UndoThenRedo<T>(h: History<T>)
    requires h.past != []
    ensures RedoStep(UndoStep(h)) == h
  {
  }

  /** An undo right after a redo restores value, past and future exactly. */
  lemma RedoThenUndo<T>(h: History<T>)
    requires h.future != []
    ensures UndoStep(RedoStep(h)) == h
  {
  }

  /**
   * A set after undos discards every pending redo (the next redo is a
   * no-op), and an undo after it returns to the value held before the set.
   */
  lemma SetDiscardsRedos<T>(h: History<T>, u: Update<T>)
    ensures RedoStep(SetStep(h, u)) == SetStep(h, u)
    ensures h.capacity != Some(0) ==> UndoStep(SetStep(h, u)).value == h.value
  {
  }

  /** Capacity 0 forgets everything: no entry is kept in past or future. */
  lemma ResizeToZeroEmpties<T>(h: History<T>)
    ensures ResizeStep(h, Some(0)).past == [] && ResizeStep(h, Some(0)).future == []
  {
  }

  /**
   * Applying the same limit twice trims no more than applying it once:
   * every call re-renders the hook with its current limit, and this is why
   * those re-renders drop nothing further.
   */
  lemma ResizeIdempotent<T>(h: History<T>, cap: Option<nat>)
    ensures ResizeStep(ResizeStep(h, cap), cap) == ResizeStep(h, cap)
  {
  }

  /** A history that already fits a larger limit is unchanged by raising it: nothing is restored. */
  lemma RaiseRestoresNothing<T>(h: History<T>, n: nat)
    requires Bounded(h) && h.capacity.Some? && h.capacity.value <= n
    ensures ResizeStep(h, Some(n)) == h.(capacity := Some(n))
  {
  }

  function Sets<T>(h: History<T>, us: seq<Update<T>>): History<T>
    decreases |us|
  {
    if us == [] then h else Sets(SetStep(h, us[0]), us[1..])
  }

  function Undos<T>(h: History<T>, n: nat): History<T> {
    if n == 0 then h else UndoStep(Undos(h, n - 1))
  }

  /**
   * As many undos as there were sets return to the value and past held
   * before the sets, provided the capacity leaves room for every set.
   */
  lemma {:induction false} SetsThenUndosRestore<T>(h: History<T>, us: seq<Update<T>>)
    requires Within(|h.past| + |us|, h.capacity)
    ensures Undos(Sets(h, us), |us|).value == h.value
    ensures Undos(Sets(h, us), |us|).past == h.past
    decreases |us|
  {
    if us != [] {
      var h' := SetStep(h, us[0]);
      assert h'.past == h.past + [h.value];
      SetsThenUndosRestore(h', us[1..]);
      var r' := Undos(Sets(h', us[1..]), |us| - 1);
      assert Undos(Sets(h, us), |us|) == UndoStep(r');
      assert r'.past == h.past + [h.value];
      var r := UndoStep(r');
      assert r.past + [r.value] == h.past + [h.value];
      assert r.past == (r.past + [r.value])[..|r.past|];
    }
  }

  // The scenarios of the hook's own tests, replayed on the functions.

  /** Set 456, undo, redo from 123 with the default (unbounded) limit. */
  lemma BasicUndoRedoScenario()
    ensures var h1 := SetStep(Initial(123, None), Literal(456));
      h1.value == 456 && h1.past == [123] && h1.future == []
    ensures var h2 := UndoStep(SetStep(Initial(123, None), Literal(456)));
      h2.value == 123 && h2.past == [] && h2.future == [456]
    ensures var h3 := RedoStep(UndoStep(SetStep(Initial(123, None), Literal(456))));
      h3.value == 456 && h3.past == [123] && h3.future == []
  {
  }

  /** An update function is applied to the value held. */
  lemma UpdaterScenario()
    ensures SetStep(Initial(123, None), Fn((v: int) => v + 1)).value == 124
  {
  }

  /** Redo with nothing undone and undo with nothing set leave the value alone. */
  lemma NoUnderflowScenario()
    ensures var h1 := SetStep(Initial(123, None), Literal(456));
      var h2 := RedoStep(h1);
      var h3 := UndoStep(h2);
      var h4 := UndoStep(h3);
      h1.value == 456 && h2.value == 456 && h3.value == 123 && h4.value == 123
  {
  }

  /** Set 456, undo, set 1000: the redo of 456 is gone, and undo returns to 123. */
  lemma TruncateRedosScenario()
    ensures var h1 := SetStep(Initial(123, None), Literal(456));
      var h2 := UndoStep(h1);
      var h3 := SetStep(h2, Literal(1000));
      var h4 := RedoStep(h3);
      var h5 := UndoStep(h4);
      h1.value == 456 && h2.value == 123 && h3.value == 1000 && h4.value == 1000 && h5.value == 123
  {
  }

  /**
   * The `maxDeltas` scenario, one call per clause: eviction at capacity 2,
   * shrinking to 1, raising to 2 again, an undo, then shrinking to 1 and 0.
   */
  lemma LimitDeltasScenario()
    ensures SetStep(SetStep(Initial(123, Some(2)), Literal(456)), Literal(789))
         == History(789, [123, 456], [], Some(2))
    ensures SetStep(History(789, [123, 456], [], Some(2)), Literal(10))
         == History(10, [456, 789], [], Some(2))
    ensures ResizeStep(History(10, [456, 789], [], Some(2)), Some(1))
         == History(10, [789], [], Some(1))
    ensures SetStep(ResizeStep(History(10, [789], [], Some(1)), Some(2)), Literal(11))
         == History(11, [789, 10], [], Some(2))
    ensures UndoStep(History(11, [789, 10], [], Some(2)))
         == History(10, [789], [11], Some(2))
    ensures ResizeStep(History(10, [789], [11], Some(2)), Some(1))
         == History(10, [789], [], Some(1))
    ensures ResizeStep(History(10, [789], [], Some(1)), Some(0))
         == History(10, [], [], Some(0))
  {
  }

  /**
   * The hook's state as an object: each method updates the held value and
   * the two lists in place, as the hook's state setters do.
   */
  class Undoable<T> {
    var value: T
    var past: seq<T>
    var future: seq<T>
    var capacity: Option<nat>

    function Snapshot(): History<T>
      reads this
    {
      History(value, past, future, capacity)
    }

    predicate Valid()
      reads this
    {
      Bounded(Snapshot())
    }

    constructor (initial: T, maxDeltas: Option<nat>)
      ensures Valid() && Snapshot() == Initial(initial, maxDeltas)
    {
      value := initial;
      past := [];
      future := [];
      capacity := maxDeltas;
    }

    method Set(u: Update<T>)
      requires Valid()
      modifies this
      ensures Valid() && Snapshot() == SetStep(old(Snapshot()), u)
    {
      var next := Resolve(u, value);
      past := past + [value];
      if capacity.Some? && |past| > capacity.value {
        past := past[|past| - capacity.value..];
      }
      future := [];
      value := next;
    }

    method Undo()
      requires Valid()
      modifies this
      ensures Valid() && Snapshot() == UndoStep(old(Snapshot()))
    {
      if past != [] {
        var previous := past[|past| - 1];
        past := past[..|past| - 1];
        future := future + [value];
        value := previous;
      }
    }

    method Redo()
      requires Valid()
      modifies this
      ensures Valid() && Snapshot() == RedoStep(old(Snapshot()))
    {
      if future != [] {
        var next := future[|future| - 1];
        future := future[..|future| - 1];
        past := past + [value];
        value := next;
      }
    }

    method SetCapacity(maxDeltas: Option<nat>)
      requires Valid()
      modifies this
      ensures Valid() && Snapshot() == ResizeStep(old(Snapshot()), maxDeltas)
    {
      capacity := maxDeltas;
      if maxDeltas.Some? {
        var n := maxDeltas.value;
        var overflow := |past| + |future| - n;
        if overflow > 0 {
          if overflow >= |future| {
            future := [];
          } else {
            future := future[overflow..];
          }
          if |past| > n {
            past := past[|past| - n..];
          }
        }
      }
    }
  }
}
