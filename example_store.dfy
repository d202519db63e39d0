/**
 * The counter store of src/store/example.store.ts: a `count` that starts at
 * 0 and two updaters, `IncreaseNumber` and `DecreaseNumber`, each returning
 * the next state from the previous one.
 */
module ExampleStore {

  /** The data part of the store; the two actions are carried over unchanged by every update. */
  datatype CounterState = CounterState(count: int)

  /** Line 15. */
  function Initial(): CounterState {
    CounterState(0)
  }

  /** `IncreaseNumber`, line 16. */
  function IncreaseNumber(s: CounterState): CounterState {
    CounterState(s.count + 1)
  }

  /** `DecreaseNumber` as written at line 17: it adds one, like `IncreaseNumber`. */
  function DecreaseNumberAsWritten(s: CounterState): CounterState {
    CounterState(s.count + 1)
  }

  /** `DecreaseNumber` as its name says: it subtracts one. */
  function DecreaseNumber(s: CounterState): CounterState {
    CounterState(s.count - 1)
  }

  /** The buttons a user can press. */
  datatype Action = Increase | Decrease

  /** Counts the occurrences of `a` in `actions`. */
  function Occurrences(actions: seq<Action>, a: Action): nat {
    if |actions| == 0 then 0
    else Occurrences(actions[..|actions| - 1], a) + (if actions[|actions| - 1] == a then 1 else 0)
  }

  /** The state after the actions, with the corrected `DecreaseNumber`. */
  function Perform(s: CounterState, actions: seq<Action>): CounterState {
    if |actions| == 0 then s
    else
      var before := Perform(s, actions[..|actions| - 1]);
      match actions[|actions| - 1]
      case Increase => IncreaseNumber(before)
      case Decrease => DecreaseNumber(before)
  }

  /** The state after the actions, with `DecreaseNumber` as written. */
  function PerformAsWritten(s: CounterState, actions: seq<Action>): CounterState {
    if |actions| == 0 then s
    else
      var before := PerformAsWritten(s, actions[..|actions| - 1]);
      match actions[|actions| - 1]
      case Increase => IncreaseNumber(before)
      case Decrease => DecreaseNumberAsWritten(before)
  }

  /** As written, decreasing is the same as increasing, so from 0 it yields 1 rather than -1. */
  lemma DecreaseAsWrittenIncreases(s: CounterState)
    ensures DecreaseNumberAsWritten(s) == IncreaseNumber(s)
    ensures DecreaseNumberAsWritten(s).count != s.count - 1
    ensures DecreaseNumberAsWritten(Initial()).count == 1
  {
  }

  /** With the correction, the two actions undo each other. */
  lemma IncreaseDecreaseInverse(s: CounterState)
    ensures DecreaseNumber(IncreaseNumber(s)) == s
    ensures IncreaseNumber(DecreaseNumber(s)) == s
  {
  }

  /** As written, an increase followed by a decrease does not return to the start. */
  lemma AsWrittenNotInverse()
    ensures DecreaseNumberAsWritten(IncreaseNumber(Initial())) != Initial()
    ensures DecreaseNumberAsWritten(IncreaseNumber(Initial())).count == 2
  {
  }

  /** Corrected: the count is the number of increases less the number of decreases. */
  lemma {:induction false} PerformCount(s: CounterState, actions: seq<Action>)
    ensures Perform(s, actions).count
            == s.count + Occurrences(actions, Increase) - Occurrences(actions, Decrease)
  {
    if |actions| > 0 {
      PerformCount(s, actions[..|actions| - 1]);
    }
  }

  /** As written: every action adds one, so the count only ever grows. */
  lemma {:induction false} PerformAsWrittenCount(s: CounterState, actions: seq<Action>)
    ensures PerformAsWritten(s, actions).count == s.count + |actions|
  {
    if |actions| > 0 {
      PerformAsWrittenCount(s, actions[..|actions| - 1]);
    }
  }
}
