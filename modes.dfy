/** The mode index and how it advances: modeChange and its repetition. */
module Modes {

  /** Number of effects the dispatcher knows (the MODES macro). */
  const MODES: nat := 13

  /** modeChange: the next mode, wrapping from the last back to the first. */
  function Next(m: nat): (r: nat)
    requires m < MODES
    ensures r < MODES
    ensures m + 1 < MODES ==> r == m + 1
    ensures m + 1 == MODES ==> r == 0
  {
    (m + 1) % MODES
  }

  /** The mode reached from m after `steps` consecutive calls of modeChange. */
  function AdvanceBy(m: nat, steps: nat): (r: nat)
    requires m < MODES
    ensures r < MODES
  {
    if steps == 0 then m else Next(AdvanceBy(m, steps - 1))
  }

  /** Advancing once and then n times is advancing n + 1 times. */
  lemma {:induction false} AdvanceByShift(m: nat, steps: nat)
    requires m < MODES
    ensures AdvanceBy(Next(m), steps) == AdvanceBy(m, steps + 1)
  {
    if steps > 0 {
      AdvanceByShift(m, steps - 1);
    }
  }

  /** Advancing is addition modulo the number of modes. */
  lemma {:induction false} AdvanceByIsAddition(m: nat, steps: nat)
    requires m < MODES
    ensures AdvanceBy(m, steps) == (m + steps) % MODES
  {
    if steps > 0 {
      AdvanceByIsAddition(m, steps - 1);
      SuccessorMod(m + steps - 1);
    }
  }

  /** Taking the successor commutes with reduction modulo MODES. */
  lemma SuccessorMod(x: nat)
    ensures Next(x % MODES) == (x + 1) % MODES
  {
  }

  /** The mode cycle closes after exactly MODES advances and not before. */
  lemma CycleCloses(m: nat)
    requires m < MODES
    ensures AdvanceBy(m, MODES) == m
    ensures forall j :: 0 < j < MODES ==> AdvanceBy(m, j) != m
  {
    AdvanceByIsAddition(m, MODES);
    forall j | 0 < j < MODES
      ensures AdvanceBy(m, j) != m
    {
      AdvanceByIsAddition(m, j);
    }
  }
}
