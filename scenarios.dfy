/** Small machines driven through the engine's public operations, with what
    a caller sees after each step. */
module DreamFsmScenarios {
  import opened DreamFsm

  /** The predicate outcome of a predicate that always returns true. */
  function Always(s: StateName): bool { true }

  /** The table built by AddConnection(Idle, Running, p0) then AddConnection(Running, Done, p1). */
  lemma ChainTable()
    ensures Connect(Connect(map[], "Idle", "Running", 0), "Running", "Done", 1)
            == map["Idle" := [Edge("Running", 0)], "Running" := [Edge("Done", 1)]]
  {
    assert Upsert([], "Running", 0) == [Edge("Running", 0)];
    assert Upsert([], "Done", 1) == [Edge("Done", 1)];
  }

  /** States Idle, Running and Done, start Idle, both connections always true:
      four updates visit Running, then Done, then halt in Done and stay there. */
  lemma {:induction false} IdleRunningDone()
    ensures var table := map["Idle" := [Edge("Running", 0)], "Running" := [Edge("Done", 1)]];
            var first := Step(table, map[], false, "Idle", Always);
            var second := Step(table, map[], first.halted, first.state, Always);
            var rest := Run(table, map[], second.halted, second.state, [Always, Always]);
            first.state == "Running" && !first.halted &&
            second.state == "Done" && !second.halted &&
            rest == StepResult(true, "Done", [])
  {
    var table := map["Idle" := [Edge("Running", 0)], "Running" := [Edge("Done", 1)]];
    StepMoves(table, map[], "Idle", Always, 0);
    StepMoves(table, map[], "Running", Always, 0);
    TerminalStateHalts(table, map[], "Done", [Always, Always]);
  }

  /** A > B and A > C both true, declared in that order, an exit listener 7 on
      A and an enter listener 8 on B: the step goes to B, the predicate of
      A > C is never called, and 7 runs (seeing A) before 8 (seeing B). */
  lemma FirstDeclaredWins()
    ensures var table := map["A" := [Edge("B", 0), Edge("C", 1)]];
            var ls := map[("A", OnExit) := [7], ("B", OnEnter) := [8]];
            Step(table, ls, false, "A", Always)
            == StepResult(false, "B", [Tested("A", "B", 0), Called(7, OnExit, "A"), Called(8, OnEnter, "B")])
  {
  }

  /** Redefining A > B after A > C keeps B ahead of C in A's bucket. */
  lemma RedefinitionKeepsPlace()
    ensures Connect(Connect(Connect(map[], "A", "B", 0), "A", "C", 1), "A", "B", 2)
            == map["A" := [Edge("B", 2), Edge("C", 1)]]
  {
    assert Upsert([], "B", 0) == [Edge("B", 0)];
    assert Destinations([Edge("B", 0)]) == ["B"];
    assert Upsert([Edge("B", 0)], "C", 1) == [Edge("B", 0), Edge("C", 1)];
    assert Destinations([Edge("B", 0), Edge("C", 1)]) == ["B", "C"];
    assert Upsert([Edge("B", 0), Edge("C", 1)], "B", 2) == [Edge("B", 2), Edge("C", 1)];
  }

  /** A listener added without a kind lands under OnEnter; removing it again
      without a kind finds nothing, removing it with OnEnter takes it out. */
  method RemoveNeedsKind() returns (afterOmitted: seq<ListenerId>, afterOnEnter: seq<ListenerId>)
    ensures afterOmitted == [5] && afterOnEnter == []
  {
    var fsm := new Fsm(["A"], "A");
    var o := fsm.AddListener("A", 5, None);
    fsm.RemoveListener("A", 5, None);
    afterOmitted := fsm.listeners[("A", OnEnter)];
    fsm.RemoveListener("A", 5, Some(OnEnter));
    afterOnEnter := fsm.listeners[("A", OnEnter)];
  }
}
