/** Runs that show how far two guarantees go: suffixes that come back, and a failed validation that stays. */
module SampleRuns {
  import opened Prelude
  import opened Api
  import opened Names
  import opened Nodes
  import opened Pass
  import opened Reconcile
  import opened PassStages
  import opened Runs
  import opened RunTheorems
  import opened Completion
  import opened CalmRuns

  // ---- a suffix that comes back ----

  lemma TwoDraws() returns (d1: Draw, d2: Draw)
    ensures HexEncode(d1) != HexEncode(d2) && HexEncode(d1) != ""
  {
    d1, d2 := [0, 0, 0, 0, 0], [1, 0, 0, 0, 0];
    HexLength(d1);
    if HexEncode(d1) == HexEncode(d2) { HexInjective(d1, d2); }
  }

  lemma FirstGeneration(draw: Draw) returns (ws: seq<World>, actions: seq<Action>)
    requires HexEncode(draw) != ""
    ensures IsRun(Here, ws, actions) && Observing(ws, "1") && PlanOf(ws).generation == 1
    ensures PlanOf(ws).status.sucNameSuffix == HexEncode(draw)
  {
    ws, actions := Begin(Start);
    ws, actions := Open(ws, actions, "1", draw);
  }

  lemma ThirdAfterFirst() returns (ws: seq<World>, actions: seq<Action>, i: nat)
    ensures IsRun(Here, ws, actions) && i + 1 < |ws| && Live(ws[i].store) && Observing(ws, "3") &&
      PlanOf(ws).generation == 3
    ensures Observed(ws[i].store) == 1 && AllInPlace(ws)
    ensures ws[i].store.plan.value.status.sucNameSuffix == PlanOf(ws).status.sucNameSuffix
  {
    var d1, d2 := TwoDraws();
    ws, actions := FirstGeneration(d1);
    i := |ws| - 1;
    ws, actions := NextGeneration(ws, actions, "1", "2", d2);
    ws, actions := NextGeneration(ws, actions, "2", "3", d1);
  }

  /**
   * There is a run in which the third generation draws the suffix of the first. It finds the secret and the plans of
   * the first generation in place, creates nothing of its own, and completes all the same.
   */
  lemma FirstAndThirdMeet() returns (ws: seq<World>, actions: seq<Action>, i: nat, k: nat)
    ensures IsRun(Here, ws, actions) && i < k < |ws| && Live(ws[i].store) && Live(ws[k].store) && Live(Last(ws).store)
    ensures Observed(ws[i].store) == 1 && Observed(ws[k].store) == 3 && Observed(Last(ws).store) == 3
    ensures ws[i].store.plan.value.status.sucNameSuffix == ws[k].store.plan.value.status.sucNameSuffix
    ensures InPlace(ws[k].store.cluster, ws[k].store.plan.value.status.sucNameSuffix)
    ensures UpgradeComplete(PlanOf(ws), ReleaseOf("3")) && Last(ws).store.cluster == ws[k].store.cluster
  {
    ws, actions, i := ThirdAfterFirst();
    k := |ws| - 1;
    ws, actions := Finish(ws, actions, "3");
  }

  // ---- a failed validation that stays ----

  const OddNode := OnlyNode.(architecture := "riscv64")
  const OddStart := Start.(nodes := [OddNode])

  lemma OddNodeRefused()
    ensures Unsupported(OddStart.nodes, Supported([X86])) != []
  {
    NoneUnsupported(OddStart.nodes, [X86]);
    assert OddNode in OddStart.nodes;
    assert OddNode.architecture[0] == 'r' && ArchName(X86)[0] == 'x' && Short(X86)[0] == 'a';
  }

  /** The plan is refused over the odd node; then the node is exchanged for one that is supported. */
  lemma RefusedOnce() returns (ws: seq<World>, actions: seq<Action>)
    ensures IsRun(Here, ws, actions) && Calm(Last(ws), "1")
    ensures PlanOf(ws).status == Set(NoStatus, ValidationFailed, Condition(True, UnsupportedArchitecture))
    ensures PlanOf(ws).generation == 1
  {
    ws, actions := Begin(OddStart);
    var st := Set(NoStatus, ValidationFailed, Condition(True, UnsupportedArchitecture));
    var w1 := World(Store(Some(NewPlan.(status := st)), OddStart), {}, {}, {});
    var w2 := World(Store(Some(NewPlan.(status := st)), Start), {}, {}, {});
    Refused(Last(ws), w1);
    Extend(Here, ws, actions, Reconciled(Env({}, None), Done), w1);
    ws, actions := ws + [w1], actions + [Reconciled(Env({}, None), Done)];
    assert Next(Here, w1, Elsewhere, w2);
    Extend(Here, ws, actions, Elsewhere, w2);
    ws, actions := ws + [w2], actions + [Elsewhere];
  }

  lemma Refused(w: World, w': World)
    requires w == World(Store(Some(NewPlan), OddStart), {}, {}, {})
    requires var st := Set(NoStatus, ValidationFailed, Condition(True, UnsupportedArchitecture));
      w' == World(Store(Some(NewPlan.(status := st)), OddStart), {}, {}, {})
    ensures Next(Here, w, Reconciled(Env({}, None), Done), w') &&
      FailsValidation(w, Reconciled(Env({}, None), Done), w')
  {
    OddNodeRefused();
    assert Manifest(NewPlan, OddStart) == Some(ReleaseOf("1"));
    PassOfStage(NewPlan, OddStart, Env({}, None));
  }

  /** There is a run that ends complete, over supported nodes only, and still shows the validation as failed. */
  lemma CompletesThoughInvalid() returns (ws: seq<World>, actions: seq<Action>)
    ensures IsRun(Here, ws, actions) && Live(Last(ws).store) && UpgradeComplete(PlanOf(ws), ReleaseOf("1"))
    ensures AllSupported(Last(ws).store.cluster.nodes, [X86]) && IsTrue(PlanOf(ws).status, ValidationFailed)
  {
    var d1, d2 := TwoDraws();
    ws, actions := RefusedOnce();
    ws, actions := Open(ws, actions, "1", d1);
    ws, actions := Finish(ws, actions, "1");
    OnlyNodeSupported();
  }
}
