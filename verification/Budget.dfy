/** How much a slot still has to do: the budget of generated tokens, and a measure that every useful step
    lowers. */
module Budget {
  import opened Slots
  import opened UpdateSlots

  predicate Finite(cfg: Config, s: Slot) { s.params.nPredict != -1 || cfg.nPredict != -1 }

  /** A generating slot is within its bound, and with a finite limit `n_remaining` is what is left of it. */
  predicate BudgetOk(cfg: Config, s: Slot) {
    s.phase == Generating ==>
      && 1 <= s.nDecoded < Bound(cfg, s)
      && (Finite(cfg, s) ==> s.nRemaining == Bound(cfg, s) - s.nDecoded)
  }

  /** An upper end for `Bound` that does not depend on the prompt. */
  function Cap(cfg: Config, p: Params): (c: nat)
    ensures c >= 1
  {
    var n := if p.nPredict != -1 then p.nPredict else if cfg.nPredict != -1 then cfg.nPredict else cfg.nCtxTrain;
    if n < 1 then 1 else n
  }

  /** Tokens to take in plus tokens to generate, and one for every step between. */
  function Load(cfg: Config, s: Slot): nat {
    match s.phase
    case Idle => 0
    case Started => |s.prompt| + Cap(cfg, s.params) + 3
    case ProcessingPrompt =>
      (if s.nPast <= s.nPromptTokens then s.nPromptTokens - s.nPast else 0) + Cap(cfg, s.params) + 2
    case DonePrompt => Cap(cfg, s.params) + 1
    case Generating => if s.nDecoded <= Bound(cfg, s) then Bound(cfg, s) - s.nDecoded else 0
  }

  lemma BusyHasLoad(cfg: Config, s: Slot)
    requires Processing(s) && BudgetOk(cfg, s)
    ensures Load(cfg, s) > 0
  {
  }

  predicate AllInBudget(cfg: Config, w: Work) {
    match w
    case Work(slots, _, _, _, _, _) => forall k :: 0 <= k < |slots| ==> BudgetOk(cfg, slots[k])
  }

  /** A slot stays within its budget; once anything was done to it, it has less to do. */
  predicate Spent(cfg: Config, s: Slot, t: Slot) {
    BudgetOk(cfg, s) ==> BudgetOk(cfg, t) && (t == s || Load(cfg, t) < Load(cfg, s))
  }

  lemma TokenSpendsBudget(cfg: Config, s: Slot, smp: Sample)
    requires s.phase == DonePrompt || s.phase == Generating
    requires s.phase == DonePrompt ==> s.nDecoded == 0
    ensures var p := ProcessToken(cfg, Counted(s), smp);
            var t := if p.slot.text.hasNext then p.slot else Release(p.slot);
            BudgetOk(cfg, t) && (BudgetOk(cfg, s) ==> Load(cfg, t) < Load(cfg, s))
  {
    var u := Counted(s);
    ProcessTokenStops(cfg, u, smp);
    assert Bound(cfg, u) <= Cap(cfg, s.params);
  }
}
