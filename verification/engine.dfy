/**
 The year-stepping projection. Starting from the initial balances it
 records a snapshot for the current age, then for every following age up
 to the end age applies, in this order: growth, the year's income,
 spending and contributions, the one-time 401k payout, the net cash flow,
 shortfall resolution, and the surplus sweep, and records the result.
 */
module Engine {
  import opened Money
  import opened Inputs
  import opened Balances
  import opened Shortfall
  import opened Dam

  /** Everything a year adds to or takes from cash that depends only on the
      configuration and the age, not on the balances. */
  datatype Flows = Flows(
    salary: real,
    extraExpense: real,
    pension: real,
    baseCost: real,
    k401Add: real,
    nisaAdd: real,
    otherAdd: real,
    eventIncome: real,
    eventExpense: real)
  {
    /** What leaves the household: spending. */
    function Spending(): real
    {
      baseCost + extraExpense + eventExpense
    }

    /** What moves from cash into the three investment accounts. */
    function Contributions(): real
    {
      k401Add + nisaAdd + otherAdd
    }

    /** The change in cash from income, spending and contributions. */
    function Net(): real
    {
      (salary + pension + eventIncome) - (baseCost + extraExpense + eventExpense + k401Add + nisaAdd + otherAdd)
    }
  }

  predicate Working(cfg: Config, age: int)
  {
    age <= cfg.lastWorkAge
  }

  /** The yearly base living cost: flat while working, compounded by
      inflation for every year past the last working age. */
  function BaseCost(cfg: Config, age: int): (c: real)
    ensures age <= cfg.lastWorkAge ==> c == cfg.baseCostMonthly * 12.0
  {
    if age > cfg.lastWorkAge then cfg.baseCostMonthly * 12.0 * Pow(1.0 + cfg.inflation, age - cfg.lastWorkAge)
    else cfg.baseCostMonthly * 12.0
  }

  /** Base cost stays flat until the last working age, and from then on
      each year costs the previous year times one plus inflation. */
  lemma {:induction false} BaseCostRecurrence(cfg: Config, age: int)
    ensures age < cfg.lastWorkAge ==> BaseCost(cfg, age + 1) == BaseCost(cfg, age)
    ensures age >= cfg.lastWorkAge ==> BaseCost(cfg, age + 1) == BaseCost(cfg, age) * (1.0 + cfg.inflation)
  {
    if age > cfg.lastWorkAge {
      PowSucc(1.0 + cfg.inflation, age - cfg.lastWorkAge);
    } else if age == cfg.lastWorkAge {
      assert Pow(1.0 + cfg.inflation, 1) == (1.0 + cfg.inflation) * Pow(1.0 + cfg.inflation, 0);
    }
  }

  /** The flows of the year the person turns `age`. */
  function FlowsAt(cfg: Config, age: int): (f: Flows)
    ensures !Working(cfg, age) ==> f.salary == 0.0 && f.extraExpense == 0.0
    ensures !Working(cfg, age) ==> f.k401Add == 0.0 && f.nisaAdd == 0.0 && f.otherAdd == 0.0
    ensures Working(cfg, age) ==> f.salary == cfg.income.At(age) && f.extraExpense == cfg.extraExpense.At(age)
    ensures Working(cfg, age) && age < cfg.payoutAge ==> f.k401Add == cfg.k401Monthly * 12.0
    ensures Working(cfg, age) && age <= cfg.otherStopAge ==> f.otherAdd == cfg.otherMonthly * 12.0
    ensures f.pension == if age >= cfg.pensionAge then cfg.pensionMonthly * 12.0 else 0.0
    ensures age >= cfg.payoutAge ==> f.k401Add == 0.0
    ensures Working(cfg, age) && age <= cfg.nisaStopAge ==> f.nisaAdd == Min(cfg.nisaMonthly * 12.0, NisaAnnualLimit)
    ensures age > cfg.nisaStopAge ==> f.nisaAdd == 0.0
    ensures age > cfg.otherStopAge ==> f.otherAdd == 0.0
    ensures f.nisaAdd <= NisaAnnualLimit
    ensures f.eventIncome == EventTotal(cfg.incomeEvents, age) && f.eventExpense == EventTotal(cfg.expenseEvents, age)
  {
    var working := Working(cfg, age);
    var rawNisa := if working && age <= cfg.nisaStopAge then cfg.nisaMonthly * 12.0 else 0.0;
    Flows(
      salary := if working then cfg.income.At(age) else 0.0,
      extraExpense := if working then cfg.extraExpense.At(age) else 0.0,
      pension := if age >= cfg.pensionAge then cfg.pensionMonthly * 12.0 else 0.0,
      baseCost := BaseCost(cfg, age),
      k401Add := if working && age < cfg.payoutAge then cfg.k401Monthly * 12.0 else 0.0,
      nisaAdd := Min(rawNisa, NisaAnnualLimit),
      otherAdd := if working && age <= cfg.otherStopAge then cfg.otherMonthly * 12.0 else 0.0,
      eventIncome := EventTotal(cfg.incomeEvents, age),
      eventExpense := EventTotal(cfg.expenseEvents, age))
  }

  /** Under the input bounds no flow is negative. */
  lemma FlowsNonNegative(cfg: Config, age: int)
    requires Valid(cfg)
    ensures var f := FlowsAt(cfg, age);
            && 0.0 <= f.k401Add && 0.0 <= f.nisaAdd && 0.0 <= f.otherAdd
            && 0.0 <= f.salary && 0.0 <= f.pension && 0.0 <= f.eventIncome
  {
  }

  /** Under the input bounds the regular NISA contribution is at most
      300,000 yen a month, so the yearly cap never cuts it. */
  lemma RegularNisaCapNeverBinds(cfg: Config, age: int)
    requires Valid(cfg)
    ensures FlowsAt(cfg, age).nisaAdd == if Working(cfg, age) && age <= cfg.nisaStopAge then cfg.nisaMonthly * 12.0 else 0.0
  {
  }

  /** A year's investment growth; the 401k grows only before its payout age. */
  function Grow(cfg: Config, age: int, s: State): (r: State)
    ensures age >= cfg.payoutAge ==> r.k401 == s.k401
  {
    State(
      cash := s.cash * (1.0 + cfg.cashRate),
      k401 := if age < cfg.payoutAge then s.k401 * (1.0 + cfg.k401Rate) else s.k401,
      nisa := s.nisa * (1.0 + cfg.nisaRate),
      other := s.other * (1.0 + cfg.otherRate))
  }

  /** With the non-negative rates the inputs allow, growth never shrinks an
      investment balance. */
  lemma GrowKeepsAssets(cfg: Config, age: int, s: State)
    requires Valid(cfg) && s.AssetsNonNegative()
    ensures var r := Grow(cfg, age, s);
            r.k401 >= s.k401 && r.nisa >= s.nisa && r.other >= s.other
  {
  }

  /** Adds the year's regular contributions to the three accounts; cash pays
      for them through the net cash flow. */
  function Contribute(s: State, f: Flows): (r: State)
    ensures r.cash == s.cash
    ensures r.k401 == s.k401 + f.k401Add && r.nisa == s.nisa + f.nisaAdd && r.other == s.other + f.otherAdd
    ensures r.Total() == s.Total() + f.Contributions()
  {
    s.(k401 := s.k401 + f.k401Add, nisa := s.nisa + f.nisaAdd, other := s.other + f.otherAdd)
  }

  /** In the payout year the whole 401k is paid into cash, less the payout
      tax; in every other year nothing happens. */
  function Payout(cfg: Config, age: int, s: State): (r: State)
    ensures age != cfg.payoutAge ==> r == s
    ensures age == cfg.payoutAge ==> r.k401 == 0.0 && r.nisa == s.nisa && r.other == s.other
    ensures r.Total() == s.Total() - (if age == cfg.payoutAge then cfg.payoutTax * s.k401 else 0.0)
  {
    if age == cfg.payoutAge then s.(cash := s.cash + s.k401 * (1.0 - cfg.payoutTax), k401 := 0.0)
    else s
  }

  /** The balances after the net cash flow and shortfall resolution, just
      before the surplus sweep. */
  function Settled(cfg: Config, age: int, s: State): State
  {
    Settle(cfg, age, Grow(cfg, age, s), FlowsAt(cfg, age))
  }

  /** Credits the contributions `f` to the grown balances `g`, applies the
      payout and the net cash flow, and resolves any shortfall. */
  function Settle(cfg: Config, age: int, g: State, f: Flows): State
  {
    var funded := Payout(cfg, age, Contribute(g, f));
    Resolve(cfg, age, funded.(cash := funded.cash + f.Net()))
  }

  /** One year of the projection, for the year the person turns `age`. */
  function Step(cfg: Config, age: int, s: State): State
  {
    Sweep(cfg, age, Settled(cfg, age, s), FlowsAt(cfg, age).nisaAdd)
  }

  /** Under the input bounds a year never drives the 401k, NISA or general
      balance below zero. */
  lemma StepKeepsAssets(cfg: Config, age: int, s: State)
    requires Valid(cfg) && s.AssetsNonNegative()
    ensures Step(cfg, age, s).AssetsNonNegative()
  {
    var f := FlowsAt(cfg, age);
    FlowsNonNegative(cfg, age);
    GrowKeepsAssets(cfg, age, s);
    var funded := Payout(cfg, age, Contribute(Grow(cfg, age, s), f));
    assert funded.AssetsNonNegative();
    assert Settled(cfg, age, s).AssetsNonNegative();
  }

  /** Only spending, income and the payout tax change the total: regular
      contributions, the 401k payout, shortfall withdrawals and the sweep
      just move money between the balances. */
  lemma StepLedger(cfg: Config, age: int, s: State)
    ensures var f := FlowsAt(cfg, age);
            Step(cfg, age, s).Total()
            == Grow(cfg, age, s).Total() + (f.salary + f.pension + f.eventIncome) - f.Spending()
               - (if age == cfg.payoutAge then cfg.payoutTax * s.k401 else 0.0)
  {
    var f := FlowsAt(cfg, age);
    var g := Grow(cfg, age, s);
    SettleLedger(cfg, age, g, f);
    assert age == cfg.payoutAge ==> g.k401 + f.k401Add == s.k401;
  }

  /** From the grown balances on, a year changes the total by the income,
      the spending and the payout tax, and by nothing else. */
  lemma SettleLedger(cfg: Config, age: int, g: State, f: Flows)
    ensures Sweep(cfg, age, Settle(cfg, age, g, f), f.nisaAdd).Total()
            == g.Total() + (f.salary + f.pension + f.eventIncome) - f.Spending()
               - (if age == cfg.payoutAge then cfg.payoutTax * (g.k401 + f.k401Add) else 0.0)
  {
    SettleTotal(cfg, age, g, f);
    SweepKeepsTotal(cfg, age, Settle(cfg, age, g, f), f.nisaAdd);
  }

  /** The ledger up to shortfall resolution, before the sweep. */
  lemma SettleTotal(cfg: Config, age: int, g: State, f: Flows)
    ensures Settle(cfg, age, g, f).Total()
            == g.Total() + (f.salary + f.pension + f.eventIncome) - f.Spending()
               - (if age == cfg.payoutAge then cfg.payoutTax * (g.k401 + f.k401Add) else 0.0)
  {
    var c := Contribute(g, f);
    var funded := Payout(cfg, age, c);
    var pre := funded.(cash := funded.cash + f.Net());
    FlowIsTransfer(funded, f);
    ResolveKeepsTotal(cfg, age, pre);
    SameScaled(cfg.payoutTax, c.k401, g.k401 + f.k401Add);
  }

  /** Shortfall resolution only moves money into cash. */
  lemma ResolveKeepsTotal(cfg: Config, age: int, s: State)
    ensures Resolve(cfg, age, s).Total() == s.Total()
  {
  }

  /** The surplus sweep only moves money from cash into NISA. */
  lemma SweepKeepsTotal(cfg: Config, age: int, s: State, regular: real)
    ensures Sweep(cfg, age, s, regular).Total() == s.Total()
  {
  }

  /** Equal amounts taxed at the same rate give the same tax. */
  lemma SameScaled(t: real, x: real, y: real)
    requires x == y
    ensures t * x == t * y
  {
  }

  /** Paying the net cash flow out of cash after the contributions were
      credited leaves income minus spending. */
  lemma FlowIsTransfer(funded: State, f: Flows)
    ensures funded.(cash := funded.cash + f.Net()).Total()
            == funded.Total() + (f.salary + f.pension + f.eventIncome) - f.Spending() - f.Contributions()
  {
  }

  /** In a quiet configuration a year leaves the total unchanged. */
  lemma QuietStepKeepsTotal(cfg: Config, age: int, s: State)
    requires Quiet(cfg)
    ensures Step(cfg, age, s).Total() == s.Total()
  {
    QuietFlows(cfg, age);
    QuietGrowth(cfg, age, s);
    StepLedger(cfg, age, s);
  }

  /** Zero rates leave every balance as it was. */
  lemma QuietGrowth(cfg: Config, age: int, s: State)
    requires Quiet(cfg)
    ensures Grow(cfg, age, s) == s
  {
  }

  /** A quiet configuration has no income and no spending in any year. */
  lemma QuietFlows(cfg: Config, age: int)
    requires Quiet(cfg)
    ensures var f := FlowsAt(cfg, age);
            f.salary == 0.0 && f.pension == 0.0 && f.eventIncome == 0.0 && f.Spending() == 0.0
  {
    EventTotalZero(cfg.incomeEvents, age);
    EventTotalZero(cfg.expenseEvents, age);
  }

  /** The 401k over one year: before the payout age it grows and takes the
      contribution, in the payout year it is emptied, and afterwards it does
      not change. */
  lemma StepK401(cfg: Config, age: int, s: State)
    ensures age < cfg.payoutAge ==>
              Step(cfg, age, s).k401 == s.k401 * (1.0 + cfg.k401Rate) + FlowsAt(cfg, age).k401Add
    ensures age == cfg.payoutAge ==> Step(cfg, age, s).k401 == 0.0
    ensures age > cfg.payoutAge ==> Step(cfg, age, s).k401 == s.k401
  {
    var f := FlowsAt(cfg, age);
    var g := Grow(cfg, age, s);
    StepK401Settled(cfg, age, s);
    if age < cfg.payoutAge {
      assert g.k401 == s.k401 * (1.0 + cfg.k401Rate);
    } else if age > cfg.payoutAge {
      assert g.k401 == s.k401 && f.k401Add == 0.0;
    }
  }

  /** The 401k after a year, in terms of its grown balance. */
  lemma StepK401Settled(cfg: Config, age: int, s: State)
    ensures Step(cfg, age, s).k401
            == if age == cfg.payoutAge then 0.0
               else Grow(cfg, age, s).k401 + FlowsAt(cfg, age).k401Add
  {
    var f := FlowsAt(cfg, age);
    var g := Grow(cfg, age, s);
    SettleK401(cfg, age, g, f);
    assert Step(cfg, age, s).k401 == Sweep(cfg, age, Settle(cfg, age, g, f), f.nisaAdd).k401;
  }

  /** From the grown balances on, the 401k only takes its contribution, or
      is emptied in the payout year. */
  lemma SettleK401(cfg: Config, age: int, g: State, f: Flows)
    ensures Sweep(cfg, age, Settle(cfg, age, g, f), f.nisaAdd).k401
            == if age == cfg.payoutAge then 0.0 else g.k401 + f.k401Add
  {
    var funded := Payout(cfg, age, Contribute(g, f));
    assert Settle(cfg, age, g, f).k401 == funded.k401;
  }

  /** Before the payout age the 401k never shrinks from one year to the
      next. */
  lemma K401NeverShrinksBeforePayout(cfg: Config, age: int, s: State)
    requires Valid(cfg) && s.k401 >= 0.0 && age < cfg.payoutAge
    ensures Step(cfg, age, s).k401 >= s.k401
  {
    StepK401(cfg, age, s);
    FlowsNonNegative(cfg, age);
    assert s.k401 * (1.0 + cfg.k401Rate) >= s.k401;
  }

  /** The NISA account takes in at most the yearly allowance: the regular
      contribution and the sweep together never exceed 3,600,000 yen, and
      shortfall withdrawals only lower it. */
  lemma NisaYearlyInflowCapped(cfg: Config, age: int, s: State)
    requires Valid(cfg) && s.AssetsNonNegative()
    ensures var f := FlowsAt(cfg, age);
            f.nisaAdd + SweepAmount(cfg, age, Settled(cfg, age, s).cash, f.nisaAdd) <= NisaAnnualLimit
    ensures Step(cfg, age, s).nisa <= Grow(cfg, age, s).nisa + NisaAnnualLimit
  {
    var f := FlowsAt(cfg, age);
    var g := Grow(cfg, age, s);
    FlowsNonNegative(cfg, age);
    GrowKeepsAssets(cfg, age, s);
    var funded := Payout(cfg, age, Contribute(g, f));
    assert funded.nisa == g.nisa + f.nisaAdd && funded.other >= 0.0;
    assert Settled(cfg, age, s).nisa <= funded.nisa;
  }

  /** The sweep does not stop at the NISA contribution stop age: past it
      the regular contribution is zero, so surplus cash above the reserve
      level flows into the NISA account up to the full yearly allowance. */
  lemma SweepContinuesAfterNisaStop(cfg: Config, age: int, s: State)
    requires age > cfg.nisaStopAge
    ensures var settled := Settled(cfg, age, s);
            settled.cash > Target(cfg, age) ==>
              Step(cfg, age, s).nisa == settled.nisa + Min(settled.cash - Target(cfg, age), NisaAnnualLimit)
  {
    var settled := Settled(cfg, age, s);
    assert FlowsAt(cfg, age).nisaAdd == 0.0;
    assert Step(cfg, age, s) == Sweep(cfg, age, settled, 0.0);
  }

  /** The opening balances; within the input bounds none is negative. */
  function Initial(cfg: Config): (s: State)
    ensures Valid(cfg) ==> s.AssetsNonNegative() && s.cash >= 0.0
  {
    State(cfg.initCash, cfg.init401k, cfg.initNisa, cfg.initOther)
  }

  /** The yearly step of a configuration, as a function value. */
  function StepOf(cfg: Config): (int, State) -> State
  {
    (age, s) => Step(cfg, age, s)
  }

  /** The state `n` years after `s`, when `s` is the state at the end of the
      year the person turned `age`. */
  function Advance(step: (int, State) -> State, age: int, s: State, n: nat): State
  {
    if n == 0 then s else step(age + n, Advance(step, age, s, n - 1))
  }

  /** The records for the ages after `age` up to `endAge`, when `s` is the
      state at the end of the year the person turned `age`. */
  function Trace(step: (int, State) -> State, age: int, endAge: int, s: State): (rs: seq<Record>)
    ensures |rs| == if age < endAge then endAge - age else 0
    ensures forall i :: 0 <= i < |rs| ==> rs[i].age == age + 1 + i
    decreases endAge - age
  {
    if age >= endAge then []
    else
      var next := step(age + 1, s);
      [Snapshot(age + 1, next)] + Trace(step, age + 1, endAge, next)
  }

  /** A property of the age and the state that holds at the start and that
      every year's step preserves holds in every later year. */
  lemma {:induction false} AdvanceKeeps(step: (int, State) -> State, age: int, s: State, n: nat, p: (int, State) -> bool)
    requires p(age, s)
    requires forall a, t {:trigger step(a, t)} :: p(a - 1, t) ==> p(a, step(a, t))
    ensures p(age + n, Advance(step, age, s, n))
  {
    if n > 0 {
      AdvanceKeeps(step, age, s, n - 1, p);
      var prev := Advance(step, age, s, n - 1);
      assert p(age + n - 1, prev);
      assert p(age + n, step(age + n, prev));
    }
  }

  /** A trace that has a year left starts with that year's record. */
  lemma TraceUnfold(step: (int, State) -> State, age: int, endAge: int, s: State)
    requires age < endAge
    ensures Trace(step, age, endAge, s) == [Snapshot(age + 1, step(age + 1, s))] + Trace(step, age + 1, endAge, step(age + 1, s))
  {
  }

  /** Recording one more year moves its record from the trace onto the
      records already produced. */
  lemma TraceExtend(step: (int, State) -> State, records: seq<Record>, age: int, endAge: int, s: State)
    requires age <= endAge
    ensures records + Trace(step, age - 1, endAge, s)
            == (records + [Snapshot(age, step(age, s))]) + Trace(step, age, endAge, step(age, s))
  {
    TraceUnfold(step, age - 1, endAge, s);
  }

  /** Record j of a trace is the snapshot of the state j + 1 years on. */
  lemma {:induction false} TraceFollowsAdvance(step: (int, State) -> State, age: int, endAge: int, s: State)
    ensures forall j :: 0 <= j < |Trace(step, age, endAge, s)| ==>
              Trace(step, age, endAge, s)[j] == Snapshot(age + 1 + j, Advance(step, age, s, j + 1))
    decreases endAge - age
  {
    if age < endAge {
      var next := step(age + 1, s);
      var rest := Trace(step, age + 1, endAge, next);
      TraceFollowsAdvance(step, age + 1, endAge, next);
      AdvanceShift(step, age, s, |rest|);
      forall j | 0 <= j < |Trace(step, age, endAge, s)|
        ensures Trace(step, age, endAge, s)[j] == Snapshot(age + 1 + j, Advance(step, age, s, j + 1))
      {
        if j > 0 {
          assert Trace(step, age, endAge, s)[j] == rest[j - 1];
        }
      }
    }
  }

  /** The last record of a projection is the snapshot of the final state. */
  lemma LastRecord(step: (int, State) -> State, age: int, endAge: int, s: State)
    requires age <= endAge
    ensures ([Snapshot(age, s)] + Trace(step, age, endAge, s))[endAge - age]
            == Snapshot(endAge, Advance(step, age, s, endAge - age))
  {
    TraceFollowsAdvance(step, age, endAge, s);
  }

  /** Advancing k + 1 years from `s` is advancing k years from the state one
      year on. */
  lemma {:induction false} AdvanceShift(step: (int, State) -> State, age: int, s: State, k: nat)
    ensures forall m {:trigger Advance(step, age + 1, step(age + 1, s), m)} :: 0 <= m <= k ==>
              Advance(step, age, s, m + 1) == Advance(step, age + 1, step(age + 1, s), m)
  {
    if k > 0 {
      AdvanceShift(step, age, s, k - 1);
      assert Advance(step, age, s, k + 1) == step(age + k + 1, Advance(step, age, s, k));
    }
  }

  /** The whole projection: one record per age from the current age to the
      end age, in order. */
  function Run(cfg: Config): (rs: seq<Record>)
    ensures cfg.currentAge <= cfg.endAge ==> |rs| == cfg.endAge - cfg.currentAge + 1
    ensures |rs| >= 1
    ensures forall i :: 0 <= i < |rs| ==> rs[i].age == cfg.currentAge + i
  {
    [Snapshot(cfg.currentAge, Initial(cfg))] + Trace(StepOf(cfg), cfg.currentAge, cfg.endAge, Initial(cfg))
  }

  /** The projection loop as written, for any yearly step: a record for
      the starting age, then one step and one record per following age up to
      the end age. */
  method Project(step: (int, State) -> State, startAge: int, endAge: int, start: State) returns (records: seq<Record>)
    ensures records == [Snapshot(startAge, start)] + Trace(step, startAge, endAge, start)
  {
    var s := start;
    records := [Snapshot(startAge, s)];
    var age := startAge + 1;
    while age <= endAge
      invariant records + Trace(step, age - 1, endAge, s) == [Snapshot(startAge, start)] + Trace(step, startAge, endAge, start)
      decreases endAge - age
    {
      TraceExtend(step, records, age, endAge, s);
      s := step(age, s);
      records := records + [Snapshot(age, s)];
      age := age + 1;
    }
  }

  /** The projection of a configuration, computed by the loop. */
  method Simulate(cfg: Config) returns (records: seq<Record>)
    ensures records == Run(cfg)
    ensures cfg.currentAge <= cfg.endAge ==> |records| == cfg.endAge - cfg.currentAge + 1
  {
    records := Project(StepOf(cfg), cfg.currentAge, cfg.endAge, Initial(cfg));
  }

  /** The balances at the end of the year the person turns
      `currentAge + n`. */
  function StateAt(cfg: Config, n: nat): State
  {
    Advance(StepOf(cfg), cfg.currentAge, Initial(cfg), n)
  }
}
