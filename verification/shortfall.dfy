/**
 Shortfall resolution: when a year leaves cash below zero, the missing
 amount is drawn from the NISA and the general ("Other") account, each
 only from its own unlock age on, in the configured priority order. The
 401k is never drawn on, nothing is taxed, and there is no per-asset cap.
 */
module Shortfall {
  import opened Money
  import opened Inputs
  import opened Balances

  /** What one asset paid towards the shortage and what is left in it. */
  datatype Withdrawal = Withdrawal(paid: real, left: real)

  /** Draws up to `needed` from an asset holding `balance` in the year the
      person turns `age`; before `unlockAge` the asset is not touched. */
  function WithdrawAsset(age: int, needed: real, balance: real, unlockAge: int): (w: Withdrawal)
    ensures w.paid + w.left == balance
    ensures age < unlockAge ==> w.paid == 0.0
    ensures age >= unlockAge ==> w.paid <= needed && w.paid <= balance
    ensures age >= unlockAge ==> w.paid == needed || w.left == 0.0
    ensures needed >= 0.0 && balance >= 0.0 ==> 0.0 <= w.paid <= needed && w.left >= 0.0
  {
    if age < unlockAge then Withdrawal(0.0, balance)
    else
      var pay := Min(needed, balance);
      Withdrawal(pay, balance - pay)
  }

  /** The part of a balance that may be drawn on at `age`. */
  function Unlocked(age: int, balance: real, unlockAge: int): real
  {
    if age < unlockAge then 0.0 else balance
  }

  /** The balance drawable from the NISA and the general account together. */
  function Available(cfg: Config, age: int, s: State): real
  {
    Unlocked(age, s.nisa, cfg.nisaUnlockAge) + Unlocked(age, s.other, cfg.otherUnlockAge)
  }

  /** Covers negative cash from the two drawable assets; the shortage that
      remains is left as negative cash. */
  function Resolve(cfg: Config, age: int, s: State): (r: State)
    ensures s.cash >= 0.0 ==> r == s
    ensures r.k401 == s.k401
    ensures r.cash + r.nisa + r.other == s.cash + s.nisa + s.other
    ensures s.cash < 0.0 ==> r.cash <= 0.0
    ensures age < cfg.nisaUnlockAge ==> r.nisa == s.nisa
    ensures age < cfg.otherUnlockAge ==> r.other == s.other
    ensures s.nisa >= 0.0 && s.other >= 0.0 ==> 0.0 <= r.nisa <= s.nisa && 0.0 <= r.other <= s.other
    ensures s.nisa >= 0.0 && s.other >= 0.0 && s.cash < 0.0 ==>
              r.cash == -Max(0.0, -s.cash - Available(cfg, age, s))
  {
    if s.cash >= 0.0 then s
    else
      var shortage := -s.cash;
      match cfg.priority
      case NisaFirst =>
        var n := WithdrawAsset(age, shortage, s.nisa, cfg.nisaUnlockAge);
        var o := WithdrawAsset(age, shortage - n.paid, s.other, cfg.otherUnlockAge);
        State(-(shortage - n.paid - o.paid), s.k401, n.left, o.left)
      case OtherFirst =>
        var o := WithdrawAsset(age, shortage, s.other, cfg.otherUnlockAge);
        var n := WithdrawAsset(age, shortage - o.paid, s.nisa, cfg.nisaUnlockAge);
        State(-(shortage - o.paid - n.paid), s.k401, n.left, o.left)
  }

  /** Cash ends at exactly zero if and only if the unlocked NISA and general
      balances together cover the shortage. */
  lemma ResolvedExactlyWhenCovered(cfg: Config, age: int, s: State)
    requires s.nisa >= 0.0 && s.other >= 0.0 && s.cash < 0.0
    ensures Resolve(cfg, age, s).cash == 0.0 <==> Available(cfg, age, s) >= -s.cash
  {
  }

  /** The priority order: the second asset is drawn on only once the first
      is locked or emptied, so a first asset that is unlocked and covers the
      whole shortage leaves the second untouched. */
  lemma PriorityOrder(cfg: Config, age: int, s: State)
    requires s.nisa >= 0.0 && s.other >= 0.0 && s.cash < 0.0
    ensures cfg.priority == NisaFirst && Resolve(cfg, age, s).other != s.other ==>
              age < cfg.nisaUnlockAge || Resolve(cfg, age, s).nisa == 0.0
    ensures cfg.priority == OtherFirst && Resolve(cfg, age, s).nisa != s.nisa ==>
              age < cfg.otherUnlockAge || Resolve(cfg, age, s).other == 0.0
    ensures cfg.priority == NisaFirst && age >= cfg.nisaUnlockAge && s.nisa >= -s.cash ==>
              Resolve(cfg, age, s).other == s.other && Resolve(cfg, age, s).cash == 0.0
    ensures cfg.priority == OtherFirst && age >= cfg.otherUnlockAge && s.other >= -s.cash ==>
              Resolve(cfg, age, s).nisa == s.nisa && Resolve(cfg, age, s).cash == 0.0
  {
  }
}
