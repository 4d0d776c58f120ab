/**
 Properties of a whole projection run: which state each record is read
 from, what happens to the 401k over the years, when the depletion warning
 appears, and that a run without income, spending, growth or tax keeps its
 total.
 */
module Projection {
  import opened Money
  import opened Inputs
  import opened Balances
  import opened Engine

  /** Record i of a run is the snapshot, at age currentAge + i, of the state
      after i years: age, total and parts all come from that one state. */
  lemma RunFollowsStates(cfg: Config)
    ensures forall i :: 0 <= i < |Run(cfg)| ==> Run(cfg)[i] == Snapshot(cfg.currentAge + i, StateAt(cfg, i))
  {
    var step := StepOf(cfg);
    var ys := Trace(step, cfg.currentAge, cfg.endAge, Initial(cfg));
    TraceFollowsAdvance(step, cfg.currentAge, cfg.endAge, Initial(cfg));
    forall i | 0 <= i < |Run(cfg)|
      ensures Run(cfg)[i] == Snapshot(cfg.currentAge + i, StateAt(cfg, i))
    {
      if i > 0 {
        assert Run(cfg)[i] == ys[i - 1];
      }
    }
  }

  /** Under the input bounds the 401k, NISA and general balances never go
      below zero; only cash can. */
  lemma AssetsStayNonNegative(cfg: Config, n: nat)
    requires Valid(cfg)
    ensures StateAt(cfg, n).AssetsNonNegative()
  {
    var p := (a: int, t: State) => t.AssetsNonNegative();
    forall a, t | p(a - 1, t)
      ensures p(a, StepOf(cfg)(a, t))
    {
      StepKeepsAssets(cfg, a, t);
    }
    AdvanceKeeps(StepOf(cfg), cfg.currentAge, Initial(cfg), n, p);
  }

  /** Once the payout age has been reached inside the run, the 401k is empty
      in every later year. */
  lemma K401EmptyFromPayout(cfg: Config, n: nat)
    requires cfg.currentAge < cfg.payoutAge <= cfg.currentAge + n
    ensures StateAt(cfg, n).k401 == 0.0
  {
    var p := (a: int, t: State) => a >= cfg.payoutAge ==> t.k401 == 0.0;
    forall a, t | p(a - 1, t)
      ensures p(a, StepOf(cfg)(a, t))
    {
      StepK401(cfg, a, t);
    }
    AdvanceKeeps(StepOf(cfg), cfg.currentAge, Initial(cfg), n, p);
  }

  /** When the run starts at or after the payout age, the payout year never
      comes: the 401k keeps its starting balance for the whole run, neither
      growing nor being paid out. */
  lemma K401FrozenPastPayout(cfg: Config, n: nat)
    requires cfg.payoutAge <= cfg.currentAge
    ensures StateAt(cfg, n).k401 == cfg.init401k
  {
    var p := (a: int, t: State) => a >= cfg.payoutAge && t.k401 == cfg.init401k;
    forall a, t | p(a - 1, t)
      ensures p(a, StepOf(cfg)(a, t))
    {
      StepK401(cfg, a, t);
    }
    AdvanceKeeps(StepOf(cfg), cfg.currentAge, Initial(cfg), n, p);
  }

  /** Every record from the payout age on shows an empty 401k, provided the
      run starts before the payout age. */
  lemma RecordsShowEmpty401k(cfg: Config)
    requires cfg.currentAge < cfg.payoutAge
    ensures forall i :: 0 <= i < |Run(cfg)| && Run(cfg)[i].age >= cfg.payoutAge ==> Run(cfg)[i].k401 == 0
  {
    RunFollowsStates(cfg);
    forall i | 0 <= i < |Run(cfg)| && Run(cfg)[i].age >= cfg.payoutAge
      ensures Run(cfg)[i].k401 == 0
    {
      K401EmptyFromPayout(cfg, i);
    }
  }

  /** The warning shown under the chart: the last record's total is negative. */
  function Depleted(records: seq<Record>): bool
    requires |records| > 0
  {
    records[|records| - 1].total < 0
  }

  /** The depletion warning appears exactly when the final exact total is at
      most -1 yen; a total strictly between -1 and 0 truncates to 0. */
  lemma DepletedIff(cfg: Config)
    requires cfg.currentAge <= cfg.endAge
    ensures Depleted(Run(cfg)) <==> StateAt(cfg, cfg.endAge - cfg.currentAge).Total() <= -1.0
  {
    var step, s0 := StepOf(cfg), Initial(cfg);
    assert Run(cfg) == [Snapshot(cfg.currentAge, s0)] + Trace(step, cfg.currentAge, cfg.endAge, s0);
    assert StateAt(cfg, cfg.endAge - cfg.currentAge) == Advance(step, cfg.currentAge, s0, cfg.endAge - cfg.currentAge);
    DepletedIffAnyStep(step, cfg.currentAge, cfg.endAge, s0);
  }

  lemma DepletedIffAnyStep(step: (int, State) -> State, age: int, endAge: int, s: State)
    requires age <= endAge
    ensures Depleted([Snapshot(age, s)] + Trace(step, age, endAge, s))
            <==> Advance(step, age, s, endAge - age).Total() <= -1.0
  {
    var final := Advance(step, age, s, endAge - age);
    LastRecord(step, age, endAge, s);
    SnapshotTruncates(endAge, final);
    TruncNegativeIff(final.Total());
  }

  /** With nothing coming in or going out, the exact total stays at its
      starting value in every year. */
  lemma QuietKeepsTotal(cfg: Config, n: nat)
    requires Quiet(cfg)
    ensures StateAt(cfg, n).Total() == Initial(cfg).Total()
  {
    var p := (a: int, t: State) => t.Total() == Initial(cfg).Total();
    forall a, t | p(a - 1, t)
      ensures p(a, StepOf(cfg)(a, t))
    {
      QuietStepKeepsTotal(cfg, a, t);
    }
    AdvanceKeeps(StepOf(cfg), cfg.currentAge, Initial(cfg), n, p);
  }

  /** Every record of a quiet run shows the starting total. */
  lemma QuietRecordsKeepTotal(cfg: Config)
    requires Quiet(cfg)
    ensures forall i :: 0 <= i < |Run(cfg)| ==> Run(cfg)[i].total == Trunc(Initial(cfg).Total())
  {
    RunFollowsStates(cfg);
    forall i | 0 <= i < |Run(cfg)|
      ensures Run(cfg)[i].total == Trunc(Initial(cfg).Total())
    {
      QuietKeepsTotal(cfg, i);
      SnapshotTruncates(cfg.currentAge + i, StateAt(cfg, i));
      TruncationUnique(Run(cfg)[i].total, Trunc(Initial(cfg).Total()), Initial(cfg).Total());
    }
  }
}
