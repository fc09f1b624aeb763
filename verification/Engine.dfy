/**
  `processSimulation`, the decision engine: for the intent of the request it
  runs every applicable strategy in a fixed order, applies each strategy's
  effect to a copy of the obligations, projects that state forward, flags
  its risks and judges it against the constraints; it then drops a missed
  EMI when a valid alternative exists, recommends one strategy and gives a
  reason for rejecting each of the others.

  Every error the engine can raise is a `Failure`: an unknown intent, and a
  strategy that reads a credit card or an emergency the input does not
  have. The obligations are values, so the copies the engine edits never
  alias the input.
*/
module Engine {
  import opened Wrappers
  import opened SimTypes
  import opened CreditCardSim
  import opened EmiSim
  import opened EmergencySim
  import opened Projection

  // ---------------------------------------------------------------------
  // Intents and strategy lists
  // ---------------------------------------------------------------------

  /** The keys of the simulator table. */
  datatype Intent = PayCreditCardIntent | PayEmiIntent | HandleEmergencyIntent

  function IntentName(i: Intent): string {
    match i
    case PayCreditCardIntent => "pay_credit_card"
    case PayEmiIntent => "pay_emi"
    case HandleEmergencyIntent => "handle_emergency"
  }

  /** Look up `meta.intent` in the simulator table. */
  function ParseIntent(s: string): (r: Option<Intent>)
    ensures r.Some? ==> IntentName(r.value) == s
    ensures r.None? ==> s != "pay_credit_card" && s != "pay_emi" && s != "handle_emergency"
  {
    if s == "pay_credit_card" then Some(PayCreditCardIntent)
    else if s == "pay_emi" then Some(PayEmiIntent)
    else if s == "handle_emergency" then Some(HandleEmergencyIntent)
    else None
  }

  /** Every intent's name is recognised as that intent. */
  lemma ParseIntentName(i: Intent)
    ensures ParseIntent(IntentName(i)) == Some(i)
  {
  }

  /** A strategy, by the simulator it belongs to. */
  datatype StrategyId = CardS(card: CardStrategy) | EmiS(emi: EmiStrategy) | EmergencyS(emergency: EmergencyStrategy)

  /** The `strategy_id` the engine reports. */
  function Name(id: StrategyId): string {
    match id
    case CardS(MinimumPaymentS) => "minimum_payment"
    case CardS(OptimizedPartialS) => "optimized_partial"
    case CardS(FullPaymentS) => "full_payment"
    case CardS(UserDefinedS) => "user_defined"
    case EmiS(PayEmiS) => "pay_emi"
    case EmiS(PrepayPartialS) => "prepay_partial"
    case EmiS(SkipEmiS) => "skip_emi"
    case EmergencyS(PayWithCashS) => "pay_with_cash"
    case EmergencyS(PayWithCreditS) => "pay_with_credit"
    case EmergencyS(SplitPaymentS) => "split_payment"
  }

  /** The strategies of an intent, in the order they are tried. */
  function StrategyList(intent: Intent): seq<StrategyId> {
    match intent
    case PayCreditCardIntent => [CardS(MinimumPaymentS), CardS(OptimizedPartialS), CardS(FullPaymentS), CardS(UserDefinedS)]
    case PayEmiIntent => [EmiS(PayEmiS), EmiS(PrepayPartialS), EmiS(SkipEmiS)]
    case HandleEmergencyIntent => [EmergencyS(PayWithCashS), EmergencyS(PayWithCreditS), EmergencyS(SplitPaymentS)]
  }

  // ---------------------------------------------------------------------
  // The request
  // ---------------------------------------------------------------------

  /**
    The request: `meta.intent`, `meta.horizon_months`, the flattened state
    and obligations, `user_action.amount` and the constraints.
  */
  datatype Input = Input(intent: string, horizonMonths: int, state: SimState, amount: UserAmount, constraints: Constraints)

  /** Utilization divides by the card's limit, so a card must have a non-zero one. */
  predicate CardLimitNonZero(s: SimState) {
    s.creditCard.Some? ==> s.creditCard.value.creditLimit != 0.0
  }

  /** Some EMI allows prepayment. */
  predicate CanPrepay(emis: seq<Emi>) {
    exists j :: 0 <= j < |emis| && emis[j].prepayAllowed
  }

  /** `user_defined` needs a non-null amount and `prepay_partial` an EMI that allows prepayment. */
  predicate Applicable(id: StrategyId, input: Input) {
    && !(id == CardS(UserDefinedS) && input.amount.NullAmount?)
    && !(id == EmiS(PrepayPartialS) && !CanPrepay(input.state.emis))
  }

  /** What `processSimulation` can raise. */
  datatype EngineError = UnknownIntent(intent: string) | MissingCreditCard | MissingEmergency

  /**
    Run one strategy on the flattened state. A credit-card strategy reads the
    card, an emergency strategy the emergency amount first and then, unless
    it pays cash, the card; reading either when it is absent raises.
  */
  function RunStrategy(id: StrategyId, s: SimState, c: Constraints, amount: UserAmount): (r: Result<Outcome, EngineError>)
    requires CardLimitNonZero(s)
    ensures r.Failure? <==>
      || (id.CardS? && s.creditCard.None?)
      || (id.EmergencyS? && (s.emergency.None? || (id.emergency != PayWithCashS && s.creditCard.None?)))
    ensures r.Failure? && id.EmergencyS? && s.emergency.None? ==> r.error == MissingEmergency
  {
    match id
    case CardS(k) =>
      if s.creditCard.None? then Failure(MissingCreditCard)
      else Success(RunCardStrategy(k, s.creditCard.value, s.currentBalance, c, amount))
    case EmiS(k) => Success(RunEmiStrategy(k, s.emis, s.currentBalance, c, amount))
    case EmergencyS(k) =>
      if s.emergency.None? then Failure(MissingEmergency)
      else if k == PayWithCashS then Success(PayWithCash(s.emergency.value, s.currentBalance))
      else if s.creditCard.None? then Failure(MissingCreditCard)
      else if k == PayWithCreditS then Success(PayWithCredit(s.emergency.value, s.currentBalance, s.creditCard.value))
      else Success(SplitPayment(s.emergency.value, s.currentBalance, c, s.creditCard.value))
  }

  // ---------------------------------------------------------------------
  // The post-action obligations
  // ---------------------------------------------------------------------

  /** The card after `amount` is paid off it, its outstanding clamped at 0. */
  function PaidDown(card: CreditCard, amount: real): CreditCard {
    var outstanding := card.outstanding - amount;
    card.(outstanding := if outstanding < 0.0 then 0.0 else outstanding)
  }

  /** The card after `increase` is charged to it. */
  function Charged(card: CreditCard, increase: real): CreditCard {
    card.(outstanding := card.outstanding + increase)
  }

  /** An EMI with months to run loses one; any other is left as it is. */
  function Tick(e: Emi): Emi {
    if e.remainingMonths > 0 then Paid(e) else e
  }

  /**
    Every EMI with months to run loses exactly one, the others are left as
    they are, and none ends below 0 from a non-negative start.
  */
  function DecrementActive(emis: seq<Emi>): (r: seq<Emi>)
    ensures |r| == |emis|
    ensures forall j :: 0 <= j < |emis| ==> Remains(emis[j], r[j])
    ensures forall j :: 0 <= j < |emis| ==>
      r[j].remainingMonths == (if emis[j].remainingMonths > 0 then emis[j].remainingMonths - 1 else emis[j].remainingMonths)
  {
    seq(|emis|, k requires 0 <= k < |emis| => Tick(emis[k]))
  }

  /** The index of the first EMI with months to run, if any. */
  function FirstActive(emis: seq<Emi>): (r: Option<nat>)
    ensures r.Some? ==>
      && r.value < |emis|
      && emis[r.value].remainingMonths > 0
      && (forall k :: 0 <= k < r.value ==> emis[k].remainingMonths <= 0)
    ensures r.None? ==> forall k :: 0 <= k < |emis| ==> emis[k].remainingMonths <= 0
  {
    if emis == [] then None
    else if emis[0].remainingMonths > 0 then Some(0)
    else match FirstActive(emis[1..])
      case None => None
      case Some(t) => Some(t + 1)
  }

  /**
    The prepayment target after `available` (positive) is spent on it: it
    loses `floor(available / monthly_emi)` months, clamped at 0. With a zero
    instalment the quotient is infinite, so the months drop to 0.
  */
  function Reduced(e: Emi, available: real): Emi {
    if e.monthlyEmi == 0.0 then e.(remainingMonths := 0)
    else
      var remaining := e.remainingMonths - (available / e.monthlyEmi).Floor;
      e.(remainingMonths := if remaining < 0 then 0 else remaining)
  }

  /**
    The EMIs after a `prepay_partial` payment of `totalPaid`: this month's
    instalments are covered first, and what is left shortens the first EMI
    that still has months to run.
  */
  function Prepaid(emis: seq<Emi>, totalPaid: real): seq<Emi> {
    var ticked := DecrementActive(emis);
    var available := totalPaid - ScheduledTotal(emis);
    var target := FirstActive(ticked);
    if available > 0.0 && target.Some? then ticked[target.value := Reduced(ticked[target.value], available)]
    else ticked
  }

  /**
    The obligations after a strategy's immediate action: paying the card
    lowers its outstanding, paying or prepaying EMIs shortens them, and
    putting an emergency on the card raises its outstanding. The card, when
    there is one, keeps its limit; the EMIs change only under `pay_emi` and
    `prepay_partial`, and the card never under the EMI intent.
  */
  function PostAction(intent: Intent, id: StrategyId, ob: Obligations, o: Outcome): (r: Obligations)
    ensures r.creditCard.Some? <==> ob.creditCard.Some?
    ensures r.creditCard.Some? ==> r.creditCard.value.creditLimit == ob.creditCard.value.creditLimit
    ensures !(intent == PayEmiIntent && (id == EmiS(PayEmiS) || id == EmiS(PrepayPartialS))) ==> r.emis == ob.emis
    ensures intent == PayEmiIntent && id == EmiS(PayEmiS) ==> r.emis == DecrementActive(ob.emis)
    ensures intent == PayEmiIntent && id == EmiS(PrepayPartialS) ==> r.emis == Prepaid(ob.emis, o.amount)
    ensures intent == PayEmiIntent ==> r.creditCard == ob.creditCard
  {
    match intent
    case PayCreditCardIntent =>
      if ob.creditCard.Some? then ob.(creditCard := Some(PaidDown(ob.creditCard.value, o.amount))) else ob
    case PayEmiIntent =>
      if id == EmiS(PayEmiS) then ob.(emis := DecrementActive(ob.emis))
      else if id == EmiS(PrepayPartialS) then ob.(emis := Prepaid(ob.emis, o.amount))
      else ob
    case HandleEmergencyIntent =>
      if (id == EmergencyS(PayWithCreditS) || id == EmergencyS(SplitPaymentS)) && ob.creditCard.Some? then
        ob.(creditCard := Some(Charged(ob.creditCard.value, o.outstandingIncrease.GetOr(0.0))))
      else ob
  }

  /**
    Paying a card leaves `max(0, outstanding - amount)` outstanding; an
    emergency put on the card raises the outstanding by the increase the
    strategy reports (0 when it reports none); every other strategy leaves
    the card alone.
  */
  lemma PostActionCard(intent: Intent, id: StrategyId, ob: Obligations, o: Outcome)
    requires ob.creditCard.Some?
    ensures var card := ob.creditCard.value;
      var after := PostAction(intent, id, ob, o).creditCard.value.outstanding;
      && (intent == PayCreditCardIntent ==>
            after == (if card.outstanding - o.amount > 0.0 then card.outstanding - o.amount else 0.0))
      && (intent == HandleEmergencyIntent && (id == EmergencyS(PayWithCreditS) || id == EmergencyS(SplitPaymentS)) ==>
            after == card.outstanding + o.outstandingIncrease.GetOr(0.0))
      && (intent == PayEmiIntent ==> PostAction(intent, id, ob, o).creditCard == ob.creditCard)
  {
  }

  /** `Reduced` never lengthens an EMI with months to run, nor takes it below 0, when its instalment is not negative. */
  lemma ReducedRemains(e: Emi, available: real)
    requires available > 0.0 && e.monthlyEmi >= 0.0 && e.remainingMonths > 0
    ensures Remains(e, Reduced(e, available))
  {
    if e.monthlyEmi != 0.0 {
      assert available / e.monthlyEmi > 0.0;
    }
  }

  /**
    With non-negative instalments, `prepay_partial` leaves every EMI with its
    terms, no more months to run than before, and none below 0 from a
    non-negative start.
  */
  lemma PrepaidRemains(emis: seq<Emi>, totalPaid: real)
    requires forall j :: 0 <= j < |emis| ==> emis[j].monthlyEmi >= 0.0
    ensures |Prepaid(emis, totalPaid)| == |emis|
    ensures forall j :: 0 <= j < |emis| ==> Remains(emis[j], Prepaid(emis, totalPaid)[j])
  {
    var ticked := DecrementActive(emis);
    var available := totalPaid - ScheduledTotal(emis);
    var target := FirstActive(ticked);
    if available > 0.0 && target.Some? {
      var t := target.value;
      ReducedRemains(ticked[t], available);
      assert Remains(emis[t], Prepaid(emis, totalPaid)[t]);
    }
  }

  // ---------------------------------------------------------------------
  // One strategy's result
  // ---------------------------------------------------------------------

  datatype RiskFlags = RiskFlags(liquidityRisk: bool, penaltyRisk: bool, commitmentRisk: bool)

  /** One entry of `strategies`. */
  datatype StrategyResult = StrategyResult(
    id: StrategyId,
    amount: real,
    source: Source,
    balanceAfter: real,
    utilization: Option<real>,
    projection: Projected,
    risk: RiskFlags,
    valid: bool)

  /**
    The utilization the strategy reports, or, when it reports none and there
    is a card, the utilization of the card after the action.
  */
  function Recalculated(o: Outcome, post: Obligations): Option<real>
    requires post.creditCard.Some? ==> post.creditCard.value.creditLimit != 0.0
  {
    if o.creditUtilization.None? && post.creditCard.Some? then
      Some(Utilization(post.creditCard.value.outstanding, post.creditCard.value.creditLimit))
    else o.creditUtilization
  }

  function Flags(balanceAfter: real, p: Projected, c: Constraints): RiskFlags {
    RiskFlags(p.breachMonth.Some? || balanceAfter < c.minCashBuffer, p.totalPenalties > 0.0, p.missMonth.Some?)
  }

  /** A strategy is valid when the balance keeps the buffer now and in every projected month, no EMI is missed, and the utilization is within bounds. */
  predicate Valid(balanceAfter: real, p: Projected, util: Option<real>, c: Constraints) {
    && balanceAfter >= c.minCashBuffer
    && p.breachMonth.None?
    && p.missMonth.None?
    && (util.None? || util.value <= c.maxCreditUtilization)
  }

  /**
    The result of one strategy of `intent`. It fails exactly when the
    strategy reads an absent card or emergency. A result is valid exactly
    when the balance keeps the buffer now, no projected month breaches it or
    misses an EMI, and the utilization (when there is one) is within the
    bound; a valid result carries neither a liquidity nor a commitment risk.
    The utilization is the strategy's own, or, when it reports none, that
    of the card after the action; without a card there is none. The EMI
    strategies and `pay_with_cash` report none and leave the card alone, so
    they are judged by the card's current utilization.
  */
  function Evaluate(intent: Intent, id: StrategyId, input: Input): (r: Result<StrategyResult, EngineError>)
    requires CardLimitNonZero(input.state)
    ensures r.Failure? <==> RunStrategy(id, input.state, input.constraints, input.amount).Failure?
    ensures r.Success? ==> r.value.id == id
    ensures r.Success? ==>
      (r.value.valid <==>
        && r.value.balanceAfter >= input.constraints.minCashBuffer
        && r.value.projection.breachMonth.None?
        && r.value.projection.missMonth.None?
        && (r.value.utilization.None? || r.value.utilization.value <= input.constraints.maxCreditUtilization))
    ensures r.Success? ==>
      && (r.value.risk.liquidityRisk <==>
            r.value.projection.breachMonth.Some? || r.value.balanceAfter < input.constraints.minCashBuffer)
      && (r.value.risk.penaltyRisk <==> r.value.projection.totalPenalties > 0.0)
      && (r.value.risk.commitmentRisk <==> r.value.projection.missMonth.Some?)
    ensures r.Success? && r.value.valid ==>
      !r.value.risk.liquidityRisk && !r.value.risk.commitmentRisk && r.value.projection.missMonth.None?
    ensures r.Success? && RunStrategy(id, input.state, input.constraints, input.amount).value.creditUtilization.Some? ==>
      r.value.utilization == RunStrategy(id, input.state, input.constraints, input.amount).value.creditUtilization
    ensures r.Success? && input.state.creditCard.None? ==> r.value.utilization.None?
    ensures (r.Success? && input.state.creditCard.Some?
             && RunStrategy(id, input.state, input.constraints, input.amount).value.creditUtilization.None?) ==>
      var post := PostAction(intent, id, Obligations(input.state.creditCard, input.state.emis),
                             RunStrategy(id, input.state, input.constraints, input.amount).value);
      && post.creditCard.Some?
      && r.value.utilization == Some(Utilization(post.creditCard.value.outstanding, post.creditCard.value.creditLimit))
    ensures r.Success? && intent == PayEmiIntent && id.EmiS? && input.state.creditCard.Some? ==>
      var card := input.state.creditCard.value;
      r.value.utilization == Some(Utilization(card.outstanding, card.creditLimit))
    ensures r.Success? && intent == HandleEmergencyIntent && id == EmergencyS(PayWithCashS) && input.state.creditCard.Some? ==>
      var card := input.state.creditCard.value;
      r.value.utilization == Some(Utilization(card.outstanding, card.creditLimit))
  {
    var s := input.state;
    var c := input.constraints;
    match RunStrategy(id, s, c, input.amount)
    case Failure(e) => Failure(e)
    case Success(o) =>
      var post := PostAction(intent, id, Obligations(s.creditCard, s.emis), o);
      var p := Project(o.balanceAfter, post, input.horizonMonths, c);
      var util := Recalculated(o, post);
      Success(StrategyResult(id, o.amount, o.source, o.balanceAfter, util, p, Flags(o.balanceAfter, p, c), Valid(o.balanceAfter, p, util, c)))
  }

  /**
    The results of the applicable strategies among `ids`, in order, or the
    error of the first one that raises.
  */
  function EvaluateAll(intent: Intent, ids: seq<StrategyId>, input: Input): Result<seq<StrategyResult>, EngineError>
    requires CardLimitNonZero(input.state)
    decreases |ids|
  {
    if ids == [] then Success([])
    else
      match EvaluateAll(intent, ids[..|ids| - 1], input)
      case Failure(e) => Failure(e)
      case Success(rs) =>
        var id := ids[|ids| - 1];
        if !Applicable(id, input) then Success(rs)
        else match Evaluate(intent, id, input)
          case Failure(e) => Failure(e)
          case Success(r) => Success(rs + [r])
  }

  /** The applicable strategies among `ids`, in order. */
  function ApplicableIds(ids: seq<StrategyId>, input: Input): seq<StrategyId>
    decreases |ids|
  {
    if ids == [] then []
    else ApplicableIds(ids[..|ids| - 1], input) + (if Applicable(ids[|ids| - 1], input) then [ids[|ids| - 1]] else [])
  }

  // ---------------------------------------------------------------------
  // The imperative engine
  // ---------------------------------------------------------------------

  /** `emis.forEach(e => { if (e.remaining_months > 0) e.remaining_months--; })` on the copy. */
  method DecrementEmis(emis: seq<Emi>) returns (out: seq<Emi>)
    ensures out == DecrementActive(emis)
  {
    out := emis;
    var j := 0;
    while j < |out|
      invariant 0 <= j <= |out| == |emis|
      invariant forall k :: 0 <= k < j ==> out[k] == Tick(emis[k])
      invariant forall k :: j <= k < |out| ==> out[k] == emis[k]
    {
      if out[j].remainingMonths > 0 {
        out := out[j := Paid(out[j])];
      }
      j := j + 1;
    }
    assert forall k :: 0 <= k < |out| ==> out[k] == DecrementActive(emis)[k];
  }

  /** `emis.find(e => e.remaining_months > 0)`, as the index it stops at. */
  method FindActive(emis: seq<Emi>) returns (found: Option<nat>)
    ensures found == FirstActive(emis)
  {
    var t := 0;
    while t < |emis| && emis[t].remainingMonths <= 0
      invariant 0 <= t <= |emis|
      invariant forall k :: 0 <= k < t ==> emis[k].remainingMonths <= 0
    {
      t := t + 1;
    }
    if t < |emis| {
      found := Some(t);
    } else {
      found := None;
    }
  }

  /** The `prepay_partial` update of the copied EMIs. */
  method PrepayEmis(emis: seq<Emi>, totalPaid: real) returns (out: seq<Emi>)
    ensures out == Prepaid(emis, totalPaid)
  {
    var available := totalPaid;
    out := emis;
    var j := 0;
    while j < |out|
      invariant 0 <= j <= |out| == |emis|
      invariant forall k :: 0 <= k < j ==> out[k] == Tick(emis[k])
      invariant forall k :: j <= k < |out| ==> out[k] == emis[k]
      invariant available == totalPaid - ScheduledTotal(emis[..j])
    {
      assert emis[..j + 1][..j] == emis[..j];
      if out[j].remainingMonths > 0 {
        available := available - out[j].monthlyEmi;
        out := out[j := Paid(out[j])];
      }
      j := j + 1;
    }
    assert emis[..j] == emis;
    assert out == DecrementActive(emis) by {
      assert forall k :: 0 <= k < |out| ==> out[k] == DecrementActive(emis)[k];
    }
    if available > 0.0 {
      var found := FindActive(out);
      if found.Some? {
        var t := found.value;
        var target := out[t];
        var remaining;
        if target.monthlyEmi == 0.0 {
          remaining := 0;
        } else {
          remaining := target.remainingMonths - (available / target.monthlyEmi).Floor;
          if remaining < 0 {
            remaining := 0;
          }
        }
        out := out[t := target.(remainingMonths := remaining)];
      }
    }
  }

  /** Apply the strategy's effect to a copy of the obligations. */
  method ApplyPostAction(intent: Intent, id: StrategyId, ob: Obligations, o: Outcome) returns (post: Obligations)
    ensures post == PostAction(intent, id, ob, o)
  {
    post := ob;
    match intent {
      case PayCreditCardIntent =>
        if post.creditCard.Some? {
          var outstanding := post.creditCard.value.outstanding - o.amount;
          if outstanding < 0.0 {
            outstanding := 0.0;
          }
          post := post.(creditCard := Some(post.creditCard.value.(outstanding := outstanding)));
        }
      case PayEmiIntent =>
        if id == EmiS(PayEmiS) {
          var emis := DecrementEmis(post.emis);
          post := post.(emis := emis);
        } else if id == EmiS(PrepayPartialS) {
          var emis := PrepayEmis(post.emis, o.amount);
          post := post.(emis := emis);
        }
      case HandleEmergencyIntent =>
        if id == EmergencyS(PayWithCreditS) || id == EmergencyS(SplitPaymentS) {
          var increase := o.outstandingIncrease.GetOr(0.0);
          if post.creditCard.Some? {
            post := post.(creditCard := Some(post.creditCard.value.(outstanding := post.creditCard.value.outstanding + increase)));
          }
        }
    }
  }

  /** Run one strategy, update the copied obligations, project them, and judge the result. */
  method EvaluateStrategy(intent: Intent, id: StrategyId, input: Input) returns (res: Result<StrategyResult, EngineError>)
    requires CardLimitNonZero(input.state)
    ensures res == Evaluate(intent, id, input)
  {
    var s := input.state;
    var c := input.constraints;
    var immediate := RunStrategy(id, s, c, input.amount);
    if immediate.Failure? {
      return Failure(immediate.error);
    }
    var o := immediate.value;
    var post := ApplyPostAction(intent, id, Obligations(s.creditCard, s.emis), o);
    var projection := ProjectState(o.balanceAfter, post, input.horizonMonths, c);
    var liquidityRisk := projection.breachMonth.Some? || o.balanceAfter < c.minCashBuffer;
    var penaltyRisk := projection.totalPenalties > 0.0;
    var commitmentRisk := projection.missMonth.Some?;
    var valid := true;
    if o.balanceAfter < c.minCashBuffer {
      valid := false;
    }
    if projection.breachMonth.Some? {
      valid := false;
    }
    if projection.missMonth.Some? {
      valid := false;
    }
    var util := o.creditUtilization;
    if util.None? && post.creditCard.Some? {
      util := Some(Utilization(post.creditCard.value.outstanding, post.creditCard.value.creditLimit));
    }
    if util.Some? && util.value > c.maxCreditUtilization {
      valid := false;
    }
    res := Success(StrategyResult(id, o.amount, o.source, o.balanceAfter, util, projection,
                                  RiskFlags(liquidityRisk, penaltyRisk, commitmentRisk), valid));
  }

  /** Once a prefix of the list raises, the whole list raises the same error. */
  lemma {:induction false} FailureSticks(intent: Intent, ids: seq<StrategyId>, j: nat, input: Input)
    requires CardLimitNonZero(input.state)
    requires j <= |ids| && EvaluateAll(intent, ids[..j], input).Failure?
    ensures EvaluateAll(intent, ids, input) == EvaluateAll(intent, ids[..j], input)
    decreases |ids| - j
  {
    if j < |ids| {
      assert ids[..j + 1][..j] == ids[..j];
      FailureSticks(intent, ids, j + 1, input);
    } else {
      assert ids[..j] == ids;
    }
  }

  /** `strategyNames.forEach(...)`: evaluate the applicable strategies in order; the first error propagates. */
  method EvaluateStrategies(intent: Intent, input: Input) returns (res: Result<seq<StrategyResult>, EngineError>)
    requires CardLimitNonZero(input.state)
    ensures res == EvaluateAll(intent, StrategyList(intent), input)
  {
    var ids := StrategyList(intent);
    var results: seq<StrategyResult> := [];
    var i := 0;
    while i < |ids|
      invariant 0 <= i <= |ids|
      invariant EvaluateAll(intent, ids[..i], input) == Success(results)
    {
      assert ids[..i + 1][..i] == ids[..i];
      if Applicable(ids[i], input) {
        var r := EvaluateStrategy(intent, ids[i], input);
        if r.Failure? {
          FailureSticks(intent, ids, i + 1, input);
          return Failure(r.error);
        }
        results := results + [r.value];
      }
      i := i + 1;
    }
    assert ids[..i] == ids;
    res := Success(results);
  }

  // ---------------------------------------------------------------------
  // Cross-strategy validation
  // ---------------------------------------------------------------------

  predicate HasValidNoMiss(rs: seq<StrategyResult>) {
    exists i :: 0 <= i < |rs| && rs[i].valid && rs[i].projection.missMonth.None?
  }

  /** No valid result misses an EMI. */
  predicate ValidHasNoMiss(rs: seq<StrategyResult>) {
    forall i :: 0 <= i < |rs| && rs[i].valid ==> rs[i].projection.missMonth.None?
  }

  /**
    The results after cross-strategy validation: when some valid result
    misses no EMI, every result that misses one is made invalid.
  */
  function Demoted(rs: seq<StrategyResult>): (r: seq<StrategyResult>)
    ensures |r| == |rs|
    ensures !HasValidNoMiss(rs) ==> r == rs
    ensures forall i :: 0 <= i < |rs| && rs[i].projection.missMonth.None? ==> r[i] == rs[i]
    ensures HasValidNoMiss(rs) ==>
      forall i :: 0 <= i < |rs| && rs[i].projection.missMonth.Some? ==> r[i] == rs[i].(valid := false)
  {
    var demote := HasValidNoMiss(rs);
    seq(|rs|, i requires 0 <= i < |rs| =>
      if demote && rs[i].projection.missMonth.Some? then rs[i].(valid := false) else rs[i])
  }

  /**
    After cross-strategy validation no valid result has a missed EMI when a
    valid one without a miss exists, such a valid alternative survives, and
    only validity ever changes, never from invalid to valid.
  */
  lemma DemotedHasNoValidMiss(rs: seq<StrategyResult>)
    ensures HasValidNoMiss(rs) ==> ValidHasNoMiss(Demoted(rs)) && HasValidNoMiss(Demoted(rs))
    ensures forall i :: 0 <= i < |rs| ==> Demoted(rs)[i] == rs[i].(valid := Demoted(rs)[i].valid)
    ensures forall i :: 0 <= i < |rs| && Demoted(rs)[i].valid ==> rs[i].valid
  {
    if HasValidNoMiss(rs) {
      var w :| 0 <= w < |rs| && rs[w].valid && rs[w].projection.missMonth.None?;
      assert Demoted(rs)[w] == rs[w];
    }
  }

  /** Cross-strategy validation changes nothing when validity already excludes every miss. */
  lemma CrossValidationNoOp(rs: seq<StrategyResult>)
    requires ValidHasNoMiss(rs)
    ensures Demoted(rs) == rs
  {
    assert forall i :: 0 <= i < |rs| ==> Demoted(rs)[i] == rs[i];
  }

  /** Every result of the engine already invalidates a projected EMI miss. */
  lemma {:induction false} EvaluatedValidHasNoMiss(intent: Intent, ids: seq<StrategyId>, input: Input)
    requires CardLimitNonZero(input.state)
    requires EvaluateAll(intent, ids, input).Success?
    ensures ValidHasNoMiss(EvaluateAll(intent, ids, input).value)
    decreases |ids|
  {
    if ids != [] {
      EvaluatedValidHasNoMiss(intent, ids[..|ids| - 1], input);
    }
  }

  /** `results.forEach(r => { if (r.projection.emi_miss_month !== null) r.valid = false; })` when some valid result misses nothing. */
  method CrossValidate(rs: seq<StrategyResult>) returns (out: seq<StrategyResult>)
    ensures out == Demoted(rs)
  {
    out := rs;
    var hasValidNoMiss := exists i :: 0 <= i < |rs| && rs[i].valid && rs[i].projection.missMonth.None?;
    if hasValidNoMiss {
      var i := 0;
      while i < |out|
        invariant 0 <= i <= |out| == |rs|
        invariant forall j :: 0 <= j < i ==> out[j] == Demoted(rs)[j]
        invariant forall j :: i <= j < |out| ==> out[j] == rs[j]
      {
        if out[i].projection.missMonth.Some? {
          out := out[i := out[i].(valid := false)];
        }
        i := i + 1;
      }
    }
    assert forall j :: 0 <= j < |out| ==> out[j] == Demoted(rs)[j];
  }

  // ---------------------------------------------------------------------
  // Recommendation
  // ---------------------------------------------------------------------

  /** Projected interest plus penalties. */
  function Cost(r: StrategyResult): real {
    r.projection.totalInterest + r.projection.totalPenalties
  }

  predicate AnyValid(rs: seq<StrategyResult>) {
    exists i :: 0 <= i < |rs| && rs[i].valid
  }

  /** The results the recommendation is chosen from: the valid ones, or all when none is valid. */
  predicate Candidate(r: StrategyResult, anyValid: bool) {
    !anyValid || r.valid
  }

  /**
    `a` sorts strictly before `b`: among valid results, lower cost and then
    higher balance; when none is valid, keeping the cash buffer first and
    then lower cost.
  */
  predicate Before(a: StrategyResult, b: StrategyResult, c: Constraints, anyValid: bool) {
    if anyValid then
      Cost(a) < Cost(b) || (Cost(a) == Cost(b) && a.balanceAfter > b.balanceAfter)
    else
      var okA := a.balanceAfter >= c.minCashBuffer;
      var okB := b.balanceAfter >= c.minCashBuffer;
      (okA && !okB) || (okA == okB && Cost(a) < Cost(b))
  }

  /** `Before` is a strict weak order: irreflexive, transitive, and its incomparability is transitive. */
  lemma BeforeOrder(a: StrategyResult, b: StrategyResult, x: StrategyResult, c: Constraints, anyValid: bool)
    ensures !Before(a, a, c, anyValid)
    ensures Before(a, b, c, anyValid) && Before(b, x, c, anyValid) ==> Before(a, x, c, anyValid)
    ensures Before(a, b, c, anyValid) && !Before(x, b, c, anyValid) ==> Before(a, x, c, anyValid)
  {
  }

  /**
    `k` is the head of a stable sort of the candidates: it is a candidate,
    no candidate sorts before it, and every earlier candidate sorts after it.
  */
  predicate IsRecommendation(rs: seq<StrategyResult>, k: int, c: Constraints) {
    var anyValid := AnyValid(rs);
    && 0 <= k < |rs|
    && Candidate(rs[k], anyValid)
    && (forall i :: 0 <= i < |rs| && Candidate(rs[i], anyValid) ==> !Before(rs[i], rs[k], c, anyValid))
    && (forall i :: 0 <= i < k && Candidate(rs[i], anyValid) ==> Before(rs[k], rs[i], c, anyValid))
  }

  /** At most one index is the recommendation. */
  lemma RecommendationUnique(rs: seq<StrategyResult>, k1: int, k2: int, c: Constraints)
    requires IsRecommendation(rs, k1, c) && IsRecommendation(rs, k2, c)
    ensures k1 == k2
  {
  }


  /** Filter the candidates and take the head of their stable sort. */
  method Recommend(rs: seq<StrategyResult>, c: Constraints) returns (k: nat)
    requires |rs| > 0
    ensures IsRecommendation(rs, k, c)
    ensures AnyValid(rs) ==> rs[k].valid
  {
    var anyValid := exists i :: 0 <= i < |rs| && rs[i].valid;
    k := 0;
    while k < |rs| && !Candidate(rs[k], anyValid)
      invariant 0 <= k <= |rs|
      invariant forall j :: 0 <= j < k ==> !Candidate(rs[j], anyValid)
    {
      k := k + 1;
    }
    if anyValid {
      var w :| 0 <= w < |rs| && rs[w].valid;
      assert w >= k;
    } else {
      assert Candidate(rs[0], anyValid);
    }
    var i := k + 1;
    while i < |rs|
      invariant k < i <= |rs|
      invariant Candidate(rs[k], anyValid)
      invariant forall j :: 0 <= j < i && Candidate(rs[j], anyValid) ==> !Before(rs[j], rs[k], c, anyValid)
      invariant forall j :: 0 <= j < k && Candidate(rs[j], anyValid) ==> Before(rs[k], rs[j], c, anyValid)
    {
      if Candidate(rs[i], anyValid) && Before(rs[i], rs[k], c, anyValid) {
        forall j | 0 <= j < i && Candidate(rs[j], anyValid)
          ensures !Before(rs[j], rs[i], c, anyValid) && Before(rs[i], rs[j], c, anyValid)
        {
          BeforeOrder(rs[j], rs[i], rs[k], c, anyValid);
          BeforeOrder(rs[i], rs[k], rs[j], c, anyValid);
        }
        BeforeOrder(rs[i], rs[i], rs[i], c, anyValid);
        k := i;
      }
      i := i + 1;
    }
  }

  /** The reason given for rejecting a result. */
  function Reason(r: StrategyResult): string {
    Name(r.id) + (if r.valid then ": Higher cost or risk." else ": Violated constraints (Buffer/Util/miss).")
  }

  /** The reasons for every result whose `strategy_id` is not the recommended one, in order. */
  function Rejected(rs: seq<StrategyResult>, recommended: string): seq<string> {
    if rs == [] then []
    else if Name(rs[0].id) == recommended then Rejected(rs[1..], recommended)
    else [Reason(rs[0])] + Rejected(rs[1..], recommended)
  }

  /** No two results share a `strategy_id`. */
  predicate DistinctNames(rs: seq<StrategyResult>) {
    forall i, j :: 0 <= i < j < |rs| ==> Name(rs[i].id) != Name(rs[j].id)
  }

  /** Without the recommended name among them, every result is rejected. */
  lemma {:induction false} RejectedAll(rs: seq<StrategyResult>, recommended: string)
    requires forall i :: 0 <= i < |rs| ==> Name(rs[i].id) != recommended
    ensures |Rejected(rs, recommended)| == |rs|
  {
    if rs != [] {
      RejectedAll(rs[1..], recommended);
    }
  }

  /** With distinct names, `rejected` holds exactly one reason per result other than the recommended one. */
  lemma {:induction false} RejectedOnePerOther(rs: seq<StrategyResult>, k: nat)
    requires DistinctNames(rs) && k < |rs|
    ensures |Rejected(rs, Name(rs[k].id))| == |rs| - 1
  {
    if k == 0 {
      RejectedAll(rs[1..], Name(rs[0].id));
    } else {
      assert DistinctNames(rs[1..]) by {
        forall i, j | 0 <= i < j < |rs[1..]| ensures Name(rs[1..][i].id) != Name(rs[1..][j].id) {
          assert rs[1..][i] == rs[i + 1] && rs[1..][j] == rs[j + 1];
        }
      }
      assert rs[1..][k - 1] == rs[k];
      RejectedOnePerOther(rs[1..], k - 1);
    }
  }

  // ---------------------------------------------------------------------
  // Which strategies run
  // ---------------------------------------------------------------------

  /** The results are the applicable strategies of the list, in list order. */
  lemma {:induction false} ResultIds(intent: Intent, ids: seq<StrategyId>, input: Input)
    requires CardLimitNonZero(input.state)
    requires EvaluateAll(intent, ids, input).Success?
    ensures var rs := EvaluateAll(intent, ids, input).value;
      var a := ApplicableIds(ids, input);
      |rs| == |a| && forall j :: 0 <= j < |rs| ==> rs[j].id == a[j]
    decreases |ids|
  {
    if ids != [] {
      ResultIds(intent, ids[..|ids| - 1], input);
    }
  }

  /**
    The strategies that run: the credit-card ones except `user_defined` when
    the user amount is `null`; the EMI ones except `prepay_partial` when no
    EMI allows prepayment; all emergency ones. No two share a name.
  */
  lemma ApplicableIdsOf(intent: Intent, input: Input)
    ensures ApplicableIds(StrategyList(intent), input) ==
      match intent
      case PayCreditCardIntent =>
        [CardS(MinimumPaymentS), CardS(OptimizedPartialS), CardS(FullPaymentS)]
          + (if input.amount.NullAmount? then [] else [CardS(UserDefinedS)])
      case PayEmiIntent =>
        [EmiS(PayEmiS)] + (if CanPrepay(input.state.emis) then [EmiS(PrepayPartialS)] else []) + [EmiS(SkipEmiS)]
      case HandleEmergencyIntent => StrategyList(intent)
  {
    var l := StrategyList(intent);
    assert l[..1][..0] == [];
    assert l[..2][..1] == l[..1];
    assert l[..3][..2] == l[..2];
    if |l| == 4 {
      assert l[..4][..3] == l[..3];
      assert l[..4] == l;
      assert ApplicableIds(l[..1], input) == [l[0]];
      assert ApplicableIds(l[..2], input) == [l[0], l[1]];
      assert ApplicableIds(l[..3], input) == [l[0], l[1], l[2]];
    } else {
      assert l[..3] == l;
    }
  }

  /** The names of the strategies that run are pairwise distinct. */
  lemma ApplicableNamesDistinct(intent: Intent, input: Input, rs: seq<StrategyResult>)
    requires |rs| == |ApplicableIds(StrategyList(intent), input)|
    requires forall j :: 0 <= j < |rs| ==> rs[j].id == ApplicableIds(StrategyList(intent), input)[j]
    ensures DistinctNames(rs)
    ensures |rs| >= 2
  {
    ApplicableIdsOf(intent, input);
    var a := ApplicableIds(StrategyList(intent), input);
    assert forall i, j :: 0 <= i < j < |a| ==> a[i] != a[j];
    forall i, j | 0 <= i < j < |rs|
      ensures Name(rs[i].id) != Name(rs[j].id)
    {
      NameInjective(rs[i].id, rs[j].id);
    }
  }

  /** Different strategies have different names. */
  lemma NameInjective(a: StrategyId, b: StrategyId)
    ensures Name(a) == Name(b) ==> a == b
  {
  }

  /** The strategies of an intent that reads a card all raise when there is no card; those of an emergency raise when there is no emergency. */
  lemma MissingObligationRaises(intent: Intent, input: Input)
    requires CardLimitNonZero(input.state)
    ensures intent == PayCreditCardIntent && input.state.creditCard.None? ==>
      EvaluateAll(intent, StrategyList(intent), input) == Failure(MissingCreditCard)
    ensures intent == HandleEmergencyIntent && input.state.emergency.None? ==>
      EvaluateAll(intent, StrategyList(intent), input) == Failure(MissingEmergency)
  {
    var l := StrategyList(intent);
    if || (intent == PayCreditCardIntent && input.state.creditCard.None?)
       || (intent == HandleEmergencyIntent && input.state.emergency.None?)
    {
      assert l[..1][..0] == [];
      assert l[..1][0] == l[0];
      assert Applicable(l[0], input);
      assert EvaluateAll(intent, l[..1], input).Failure?;
      FailureSticks(intent, l, 1, input);
    }
  }

  // ---------------------------------------------------------------------
  // processSimulation
  // ---------------------------------------------------------------------

  /** The engine's answer; the primary reason is kept as the cost it quotes. */
  datatype Decision = Decision(
    intent: Intent,
    horizonMonths: int,
    strategies: seq<StrategyResult>,
    recommended: StrategyId,
    totalCost: real,
    rejected: seq<string>)

  /** `d` answers `input` from the results `rs`, recommending the head of their stable sort. */
  ghost predicate Decides(input: Input, intent: Intent, rs: seq<StrategyResult>, d: Decision) {
    && d.intent == intent
    && d.horizonMonths == input.horizonMonths
    && d.strategies == rs
    && exists k :: IsRecommendation(rs, k, input.constraints)
         && d.recommended == rs[k].id
         && d.totalCost == Cost(rs[k])
         && d.rejected == Rejected(rs, Name(rs[k].id))
  }

  method ProcessSimulation(input: Input) returns (out: Result<Decision, EngineError>)
    requires CardLimitNonZero(input.state)
    ensures ParseIntent(input.intent).None? ==> out == Failure(UnknownIntent(input.intent))
    ensures ParseIntent(input.intent).Some? ==>
      var intent := ParseIntent(input.intent).value;
      var all := EvaluateAll(intent, StrategyList(intent), input);
      && (all.Failure? ==> out == Failure(all.error))
      && (all.Success? ==> out.Success? && Decides(input, intent, all.value, out.value))
    ensures out.Success? ==>
      && |out.value.strategies| >= 2
      && |out.value.rejected| == |out.value.strategies| - 1
      && (AnyValid(out.value.strategies) ==>
            exists k :: 0 <= k < |out.value.strategies| && out.value.strategies[k].id == out.value.recommended
              && out.value.strategies[k].valid)
  {
    var parsed := ParseIntent(input.intent);
    if parsed.None? {
      return Failure(UnknownIntent(input.intent));
    }
    var intent := parsed.value;
    var evaluated := EvaluateStrategies(intent, input);
    if evaluated.Failure? {
      return Failure(evaluated.error);
    }
    var results := evaluated.value;
    EvaluatedValidHasNoMiss(intent, StrategyList(intent), input);
    CrossValidationNoOp(results);
    ResultIds(intent, StrategyList(intent), input);
    ApplicableNamesDistinct(intent, input, results);
    ghost var evaluatedResults := results;
    results := CrossValidate(results);
    assert results == evaluatedResults;
    var k := Recommend(results, input.constraints);
    var recommended := results[k];
    var rejected := Rejected(results, Name(recommended.id));
    RejectedOnePerOther(results, k);
    out := Success(Decision(intent, input.horizonMonths, results, recommended.id, Cost(recommended), rejected));
  }
}
