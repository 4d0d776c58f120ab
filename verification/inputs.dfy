/**
 The simulator's inputs: every value the sidebar collects, held in one
 immutable `Config`, together with the bounds the input widgets enforce.
 Yen amounts that the widgets take in units of 10,000 yen are stored here
 already multiplied out; percentages are stored as fractions.
 */
module Inputs {

  /** Which asset a cash shortfall draws on first. */
  datatype Priority = NisaFirst | OtherFirst

  /** One yen figure per age bracket: up to 29, the 30s, the 40s, the 50s,
      and 60 and over. */
  datatype Brackets = Brackets(under30: real, thirties: real, forties: real, fifties: real, from60: real)
  {
    /** The figure for the bracket that contains `age`. */
    function At(age: int): real
    {
      if age < 30 then under30
      else if age < 40 then thirties
      else if age < 50 then forties
      else if age < 60 then fifties
      else from60
    }

    predicate Within(lo: real, hi: real)
    {
      && lo <= under30 <= hi && lo <= thirties <= hi && lo <= forties <= hi
      && lo <= fifties <= hi && lo <= from60 <= hi
    }
  }

  /** A one-off income or expense that lands in the year the person turns `age`. */
  datatype Event = Event(age: int, amount: real)

  datatype Config = Config(
    currentAge: int,
    endAge: int,
    // starting balances
    initCash: real,
    init401k: real,
    initNisa: real,
    initOther: real,
    // yearly growth rates and inflation, as fractions
    cashRate: real,
    k401Rate: real,
    nisaRate: real,
    otherRate: real,
    inflation: real,
    // work, income and pension
    lastWorkAge: int,
    income: Brackets,
    payoutAge: int,
    payoutTax: real,
    pensionAge: int,
    pensionMonthly: real,
    // spending
    baseCostMonthly: real,
    extraExpense: Brackets,
    // regular contributions
    nisaMonthly: real,
    nisaStopAge: int,
    otherMonthly: real,
    otherStopAge: int,
    k401Monthly: real,
    // cash reserve ("dam level") per bracket: under 50, the 50s, 60 and over
    damUnder50: real,
    damFifties: real,
    damFrom60: real,
    // shortfall strategy
    priority: Priority,
    nisaUnlockAge: int,
    otherUnlockAge: int,
    // three one-off incomes and three one-off expenses
    incomeEvents: seq<Event>,
    expenseEvents: seq<Event>)

  predicate EventsWithin(events: seq<Event>)
  {
    && |events| == 3
    && forall i :: 0 <= i < |events| ==> 0 <= events[i].age <= 100 && 0.0 <= events[i].amount <= 100000000.0
  }

  /** The ranges the input widgets allow. */
  predicate Valid(cfg: Config)
  {
    && 20 <= cfg.currentAge <= 80 && 80 <= cfg.endAge <= 120
    && 0.0 <= cfg.initCash <= 100000000.0
    && 0.0 <= cfg.init401k <= 100000000.0
    && 0.0 <= cfg.initNisa <= 100000000.0
    && 0.0 <= cfg.initOther <= 100000000.0
    && 0.0 <= cfg.cashRate <= 0.1
    && 0.0 <= cfg.k401Rate <= 0.3
    && 0.0 <= cfg.nisaRate <= 0.3
    && 0.0 <= cfg.otherRate <= 0.5
    && -0.05 <= cfg.inflation <= 0.2
    && 50 <= cfg.lastWorkAge <= 90
    && cfg.income.Within(0.0, 50000000.0)
    && 50 <= cfg.payoutAge <= 80
    && 0.0 <= cfg.payoutTax <= 0.5
    && 60 <= cfg.pensionAge <= 75
    && 0.0 <= cfg.pensionMonthly <= 500000.0
    && 0.0 <= cfg.baseCostMonthly <= 2000000.0
    && cfg.extraExpense.Within(0.0, 50000000.0)
    && 0.0 <= cfg.nisaMonthly <= 300000.0
    && 20 <= cfg.nisaStopAge <= 100
    && 0.0 <= cfg.otherMonthly <= 1000000.0
    && 20 <= cfg.otherStopAge <= 100
    && 0.0 <= cfg.k401Monthly <= 500000.0
    && 0.0 <= cfg.damUnder50 <= 100000000.0
    && 0.0 <= cfg.damFifties <= 100000000.0
    && 0.0 <= cfg.damFrom60 <= 100000000.0
    && 50 <= cfg.nisaUnlockAge <= 100
    && 50 <= cfg.otherUnlockAge <= 100
    && EventsWithin(cfg.incomeEvents)
    && EventsWithin(cfg.expenseEvents)
  }

  /** A configuration with no salary, pension, spending, one-off amounts,
      growth or payout tax. Contributions may still be set: they only move
      money between balances. */
  predicate Quiet(cfg: Config)
  {
    && cfg.cashRate == 0.0 && cfg.k401Rate == 0.0 && cfg.nisaRate == 0.0 && cfg.otherRate == 0.0
    && cfg.income == Brackets(0.0, 0.0, 0.0, 0.0, 0.0)
    && cfg.extraExpense == Brackets(0.0, 0.0, 0.0, 0.0, 0.0)
    && cfg.pensionMonthly == 0.0 && cfg.baseCostMonthly == 0.0 && cfg.payoutTax == 0.0
    && (forall i :: 0 <= i < |cfg.incomeEvents| ==> cfg.incomeEvents[i].amount == 0.0)
    && (forall i :: 0 <= i < |cfg.expenseEvents| ==> cfg.expenseEvents[i].amount == 0.0)
  }

  /** The amounts of the events that fall exactly on `age`, summed in slot order. */
  function EventTotal(events: seq<Event>, age: int): (t: real)
    ensures (forall i :: 0 <= i < |events| ==> events[i].amount >= 0.0) ==> t >= 0.0
    ensures (forall i :: 0 <= i < |events| ==> events[i].age != age) ==> t == 0.0
  {
    if |events| == 0 then 0.0
    else (if events[0].age == age then events[0].amount else 0.0) + EventTotal(events[1..], age)
  }

  /** An event counts towards a year exactly when its age matches; each
      matching event's amount is included. */
  lemma {:induction false} EventTotalAtLeastEachMatch(events: seq<Event>, age: int, k: int)
    requires forall i :: 0 <= i < |events| ==> events[i].amount >= 0.0
    requires 0 <= k < |events| && events[k].age == age
    ensures EventTotal(events, age) >= events[k].amount
  {
    if k > 0 {
      EventTotalAtLeastEachMatch(events[1..], age, k - 1);
    }
  }

  /** For the three event slots the configuration holds, the year's total
      is each slot's amount when its age matches, added in slot order. */
  lemma EventTotalOfThree(events: seq<Event>, age: int)
    requires |events| == 3
    ensures EventTotal(events, age)
            == (if events[0].age == age then events[0].amount else 0.0)
               + (if events[1].age == age then events[1].amount else 0.0)
               + (if events[2].age == age then events[2].amount else 0.0)
  {
    var rest1, rest2 := events[1..], events[2..];
    assert rest1[1..] == rest2 && rest1[0] == events[1] && rest2[0] == events[2];
    assert EventTotal(rest2, age) == (if events[2].age == age then events[2].amount else 0.0) + EventTotal(rest2[1..], age);
    assert EventTotal(rest1, age) == (if events[1].age == age then events[1].amount else 0.0) + EventTotal(rest2, age);
  }

  lemma {:induction false} EventTotalZero(events: seq<Event>, age: int)
    requires forall i :: 0 <= i < |events| ==> events[i].amount == 0.0
    ensures EventTotal(events, age) == 0.0
  {
    if |events| > 0 {
      EventTotalZero(events[1..], age);
    }
  }
}
