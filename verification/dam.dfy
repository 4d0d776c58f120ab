/**
 The "dam": cash above an age-bracketed reserve level flows into the NISA
 account, but only as far as the year's NISA allowance has room left after
 the regular contribution. The sweep does not look at the NISA
 contribution stop age.
 */
module Dam {
  import opened Money
  import opened Inputs
  import opened Balances

  /** The reserve level for `age`: one level under 50, one for the 50s and
      one from 60 on. */
  function Target(cfg: Config, age: int): real
  {
    if age < 50 then cfg.damUnder50
    else if age < 60 then cfg.damFifties
    else cfg.damFrom60
  }

  /** The reserve level follows the income table's brackets, merged into
      three: everything under 50 shares one level, and the 60-and-over
      bracket has its own. */
  lemma TargetCoarsensBrackets(cfg: Config, age: int)
    ensures Target(cfg, age) == Brackets(cfg.damUnder50, cfg.damUnder50, cfg.damUnder50, cfg.damFifties, cfg.damFrom60).At(age)
  {
  }

  /** The amount swept from `cash` into the NISA account when `regular` yen
      were already contributed this year. */
  function SweepAmount(cfg: Config, age: int, cash: real, regular: real): (m: real)
    ensures cash <= Target(cfg, age) ==> m == 0.0
    ensures 0.0 <= m <= Max(0.0, cash - Target(cfg, age))
    ensures regular <= NisaAnnualLimit ==> regular + m <= NisaAnnualLimit
    ensures cash > Target(cfg, age) ==> m == cash - Target(cfg, age) || m == Max(0.0, NisaAnnualLimit - regular)
  {
    var target := Target(cfg, age);
    if cash > target then
      var surplus := cash - target;
      var room := Max(0.0, NisaAnnualLimit - regular);
      Min(surplus, room)
    else 0.0
  }

  /** Moves the swept amount from cash to the NISA account. */
  function Sweep(cfg: Config, age: int, s: State, regular: real): (r: State)
    ensures r.cash + r.nisa == s.cash + s.nisa
    ensures r.k401 == s.k401 && r.other == s.other
    ensures s.cash <= Target(cfg, age) ==> r == s
    ensures s.cash > Target(cfg, age) ==> Target(cfg, age) <= r.cash <= s.cash
    ensures r.nisa >= s.nisa
    ensures regular <= NisaAnnualLimit ==> regular + (r.nisa - s.nisa) <= NisaAnnualLimit
  {
    var move := SweepAmount(cfg, age, s.cash, regular);
    s.(cash := s.cash - move, nisa := s.nisa + move)
  }
}
