# Undoable history and clamped counter

A Dafny model of two state hooks from a small collection of React state
utilities:

- `useUndoable` wraps a state slot in a bounded undo/redo history. It keeps
  the held value, the values it replaced (`past`, oldest first) and the
  values undone since the last edit (`future`, the next redo last). The
  limit `maxDeltas` bounds both lists. The hook's implementation file is
  not part of this model. Its behaviour is taken from the assertions of
  `src/useUndoable.test.ts`, and every row below cites the test lines it
  reproduces.
- `useCounter` wraps an integer slot. Every update passes through
  `max(minValue, min(maxValue, next))`. Increment and decrement go through
  that clamped setter.

Files:

- `wrappers.dfy`: `Option`. An absent counter bound stands for an infinite
  one. An absent `maxDeltas` means an unbounded history.
- `state_update.dfy`: `Update<T> = Literal(T) | Fn(T -> T)`. This is the
  setter argument, a literal value or a function of the current value.
  `Resolve` gives the value it produces.
- `undo_history.dfy`: the history as a value (`History`). It has step
  functions `SetStep`, `UndoStep`, `RedoStep` and `ResizeStep`, and the
  lemmas proved about them, including the five test scenarios replayed
  call by call. The class `Undoable` holds the fields `value`, `past`,
  `future` and `capacity`. Its methods `Set`, `Undo`, `Redo` and
  `SetCapacity` update those fields in place and are proved to follow the
  step functions. They also keep the invariant `|past| + |future| <= capacity`.
- `counter.dfy`: the pure `Clamp` function and its properties, and the
  class `Counter`. Its methods `SetValue`, `Increment` and `Decrement`
  write the clamped value into `value`.

Trimming rule for a new limit. It is inferred from the test at
`src/useUndoable.test.ts:104-148`. First the overflow
`|past| + |future| - capacity` is dropped from the front of `future`.
Then `past` keeps its last `capacity` entries. This reproduces every
assertion of that test. A bound on each list separately would not
reproduce lines 141-143. Undo and redo move one entry between the lists,
so under the joint bound they never need to trim.

Two choices of the model rest on the test's evidence:

- `SetCapacity` trims at once: the test reads the trimmed `past` right
  after the re-render, before any other call (lines 126-127).
- The limit bounds `|past| + |future|` together: lines 135-143 need it,
  since at limit 1 the one-entry `future` empties while the one-entry
  `past` is kept.

## Model

| member | source | states |
|---|---|---|
| UndoHistory.Initial | src/useUndoable.test.ts:6-7 | a freshly mounted history holds the initial value with empty past and future, within the bound |
| UndoHistory.SetStep | src/useUndoable.test.ts:11-16 | after a set the value is the resolved update, future is empty, the limit is unchanged and past plus future fit it |
| UndoHistory.SetEvictsOldest | src/useUndoable.test.ts:113-124 | set appends the replaced value to past and evicts only the oldest entries: past is the last min(|past|+1, capacity) entries of old past + [value]; with room it is exactly old past + [value]; unless capacity is 0 its last entry is the replaced value |
| UndoHistory.UndoStep | src/useUndoable.test.ts:18-23 | undo with empty past changes nothing; otherwise the last past entry becomes the value and the replaced value is appended to future; the bound is kept |
| UndoHistory.RedoStep | src/useUndoable.test.ts:25-30 | redo with empty future changes nothing; otherwise the last future entry becomes the value and the replaced value is appended to past; the bound is kept |
| UndoHistory.ResizeStep | src/useUndoable.test.ts:126-147 | a new limit keeps the value, records the limit and leaves past plus future within it |
| UndoHistory.ResizeKeepsRecent | src/useUndoable.test.ts:126-143 | a new limit keeps a suffix of past and a suffix of future; past keeps min(|past|, capacity) entries; both together keep min(|past|+|future|, capacity); a history that already fits is unchanged |
| UndoHistory.ResizeToZeroEmpties | src/useUndoable.test.ts:145-147 | limit 0 empties both past and future |
| UndoHistory.ResizeIdempotent | src/useUndoable.test.ts:126-133 | applying the same limit twice gives the same history as applying it once, so a re-render with an unchanged limit drops nothing further |
| UndoHistory.RaiseRestoresNothing | src/useUndoable.test.ts:129-133 | raising the limit of a history that fits it restores no dropped entry and changes nothing else |
| UndoHistory.RunKeepsBound | src/useUndoable.test.ts:104-148 | every history reachable by any sequence of sets, undos, redos and limit changes keeps past plus future within the limit |
| UndoHistory.UndoThenRedo | src/useUndoable.test.ts:18-30 | with a non-empty past, undo then redo restores value, past and future exactly |
| UndoHistory.RedoThenUndo | src/useUndoable.test.ts:18-30 | with a non-empty future, redo then undo restores value, past and future exactly |
| UndoHistory.SetDiscardsRedos | src/useUndoable.test.ts:83-101 | after a set the next redo is a no-op, and (capacity not 0) the next undo returns to the value held before the set |
| UndoHistory.SetsThenUndosRestore | src/useUndoable.test.ts:11-23 | n sets followed by n undos restore the value and the past held before them, when the limit leaves room for n more entries |
| UndoHistory.BasicUndoRedoScenario | src/useUndoable.test.ts:5-31 | from 123: set 456 gives 456/[123]/[], undo gives 123/[]/[456], redo gives 456/[123]/[] |
| UndoHistory.UpdaterScenario | src/useUndoable.test.ts:33-43 | from 123 the updater v => v + 1 stores 124 |
| UndoHistory.NoUnderflowScenario | src/useUndoable.test.ts:45-70 | redo with nothing undone keeps 456; the second undo with empty past keeps 123 |
| UndoHistory.TruncateRedosScenario | src/useUndoable.test.ts:72-102 | set 456, undo, set 1000: redo keeps 1000 and undo gives 123 |
| UndoHistory.LimitDeltasScenario | src/useUndoable.test.ts:104-148 | the maxDeltas test, call by call: [123,456], then [456,789], limit 1 gives [789], limit 2 then set gives [789,10], undo gives [789]/[11], limit 1 gives [789]/[], limit 0 gives []/[] |
| UndoHistory.Undoable.constructor | src/useUndoable.test.ts:105-109 | the object starts as the initial history for the given value and limit, and satisfies the bound |
| UndoHistory.Undoable.Set | src/useUndoable.test.ts:11-16 | the fields afterwards are SetStep of the fields before; the bound is kept |
| UndoHistory.Undoable.Undo | src/useUndoable.test.ts:18-23 | the fields afterwards are UndoStep of the fields before; the bound is kept |
| UndoHistory.Undoable.Redo | src/useUndoable.test.ts:25-30 | the fields afterwards are RedoStep of the fields before; the bound is kept |
| UndoHistory.Undoable.SetCapacity | src/useUndoable.test.ts:126-147 | the fields right after the re-render are ResizeStep of the fields before; the bound is kept |
| Counter.Clamp | packages/standard-hooks/src/useCounter.ts:13 | the result is at least minValue; it is at most maxValue unless the bounds are inverted; a value within the bounds is returned unchanged; a value below minValue becomes minValue; a value above maxValue becomes maxValue when the bounds are ordered; with minValue > maxValue the result is minValue |
| Counter.ClampInRange | packages/standard-hooks/src/useCounter.ts:13 | with minValue <= maxValue the clamped value lies in [minValue, maxValue] |
| Counter.ClampIdempotent | packages/standard-hooks/src/useCounter.ts:13 | clamping a clamped value changes nothing |
| Counter.ClampUnbounded | packages/standard-hooks/src/useCounter.ts:6-7 | with the default infinite bounds the clamp is the identity |
| Counter.Counter.constructor | packages/standard-hooks/src/useCounter.ts:4-8 | the counter holds the caller's initial value unclamped, with the given bounds |
| Counter.Counter.SetValue | packages/standard-hooks/src/useCounter.ts:10-18 | the stored value is the clamp of the update resolved against the previous value |
| Counter.Counter.Increment | packages/standard-hooks/src/useCounter.ts:20-25 | the stored value is clamp(previous + amount); amount defaults to 1 |
| Counter.Counter.Decrement | packages/standard-hooks/src/useCounter.ts:27-32 | the stored value is clamp(previous + -amount), exactly what Increment(-amount) stores; amount defaults to 1 |

## Left out

- `src/useStorage.ts` is not part of this model. It reads and writes browser storage, calls the JSON parser and serializer with exception fallbacks, and reports write errors through a callback. None of that can be stated without modelling the storage and the JSON library.
- React plumbing: `useState`, `useCallback`, `useMemo`, re-render triggers and dependency arrays. Each state slot is a plain field, and each `act`/`rerender` in the tests is one method call.
- `modifySetStateAction` and `dethunkify` are not shown. The counter models them only as "resolve the literal-or-function update against the current value, then clamp".
- JavaScript `number` semantics: floating point, NaN propagation through `Math.max`/`Math.min`, and infinite values. The model uses unbounded `int`. The infinite default bounds are `None`.
- The default `maxDeltas` of `useUndoable` is not visible. The model treats an absent limit (`None`) as unbounded.
- Which end of `future` is the next redo: only one-element futures are asserted. The model appends on undo and takes the last entry on redo. No lemma depends on that choice beyond one-element futures and the undo/redo inverses.
- UndoHistory.UndoStep and UndoHistory.RedoStep do not trim. The invariant `|past| + |future| <= capacity` holds before every call, so the moved entry always fits. Whether the hook trims in these calls cannot be seen from its tests.
- UndoHistory.SetsThenUndosRestore: states that the value and the past come back. It does not state which values `future` then holds (the reverse of the values set), because redo order is not fixed by the tests.
