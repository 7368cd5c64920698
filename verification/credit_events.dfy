/** The random events of the credit mini-game and the player's responses to
    them. Which event occurs (40% chance, then a uniform choice) is a draw the
    caller makes; what each response does is fixed. */
module CreditEvents {
  import opened CreditScore
  import opened CreditAccounts
  import opened CreditGame

  datatype Event =
    | MedicalBill
    | CreditOffer
    | Promotion
    | LimitIncrease
    | IdentityTheft

  datatype Response =
    | PayWithSavings
    | UseCreditCard
    | ApplyForMedicalLoan
    | AcceptOffer
    | DeclineOffer
    | Celebrate
    | AcceptIncrease
    | DeclineIncrease
    | ReportImmediately
    | WaitAndSee

  /** The buttons each event offers, in the source's order. */
  function Responses(e: Event): (r: seq<Response>)
    ensures 1 <= |r| <= 3
  {
    match e
    case MedicalBill => [PayWithSavings, UseCreditCard, ApplyForMedicalLoan]
    case CreditOffer => [AcceptOffer, DeclineOffer]
    case Promotion => [Celebrate]
    case LimitIncrease => [AcceptIncrease, DeclineIncrease]
    case IdentityTheft => [ReportImmediately, WaitAndSee]
  }

  /** A medical bill charged to a card: 500 is added to the chosen card's
      balance without any limit check, and utilization rises by 10. With no
      card, nothing happens. */
  function ChargeMedicalBill(g: Game, index: int): (r: Game)
    requires 0 <= index && (g.cards != [] ==> index < |g.cards|)
    ensures g.cards == [] ==> r == g
    ensures g.cards != [] ==>
      && |r.cards| == |g.cards|
      && r.cards[index].balance == g.cards[index].balance + 500
      && r.cards[index].size == g.cards[index].size
      && r.cards[index].age == g.cards[index].age
      && (forall i :: 0 <= i < |g.cards| && i != index ==> r.cards[i] == g.cards[i])
      && r.factors == g.factors.(utilization := Raise(g.factors.utilization, 10))
      && r.loans == g.loans && r.log == g.log && r.inquiryCount == g.inquiryCount
      && r.month == g.month && r.over == g.over
    ensures Valid(g) ==> Valid(r)
  {
    if g.cards == [] then g
    else
      var card := g.cards[index];
      g.(cards := g.cards[index := card.(balance := card.balance + 500)],
         factors := g.factors.(utilization := Raise(g.factors.utilization, 10)))
  }

  /** An accepted limit increase: the chosen card's limit grows by 2000 and
      utilization falls by 5, floored at 0. Declining, or having no card,
      changes nothing. */
  function IncreaseLimit(g: Game, accept: bool, index: int): (r: Game)
    requires 0 <= index && (g.cards != [] ==> index < |g.cards|)
    ensures !accept || g.cards == [] ==> r == g
    ensures accept && g.cards != [] ==>
      && |r.cards| == |g.cards|
      && r.cards[index].size == g.cards[index].size + 2000
      && r.cards[index].balance == g.cards[index].balance
      && r.cards[index].age == g.cards[index].age
      && (forall i :: 0 <= i < |g.cards| && i != index ==> r.cards[i] == g.cards[i])
      && r.factors == g.factors.(utilization := Lower(g.factors.utilization, 5))
      && r.loans == g.loans && r.log == g.log && r.inquiryCount == g.inquiryCount
      && r.month == g.month && r.over == g.over
    ensures Valid(g) ==> Valid(r)
  {
    if accept && g.cards != [] then
      var card := g.cards[index];
      g.(cards := g.cards[index := card.(size := card.size + 2000)],
         factors := g.factors.(utilization := Lower(g.factors.utilization, 5)))
    else
      g
  }

  /** Carries out one event response. */
  function Respond(g: Game, x: Response, draws: Draws): (r: Game)
    requires ScalarsFit(g, draws)
    ensures Valid(g) ==> Valid(r)
    ensures r.month == g.month && r.over == g.over
    ensures x in {PayWithSavings, DeclineOffer, DeclineIncrease, ReportImmediately} ==> r == g
    ensures x == ApplyForMedicalLoan ==> r == ApplyLoan(g, draws.loanAmount, draws.loanBalance)
    ensures x == AcceptOffer ==> r == ApplyCard(g, draws.cardLimit)
    ensures x == Celebrate ==> r == g.(factors := g.factors.(utilization := Lower(g.factors.utilization, 10)))
    ensures x == WaitAndSee ==> r == g.(factors := g.factors.(paymentHistory := Lower(g.factors.paymentHistory, 20)))
  {
    match x
    case PayWithSavings => g
    case UseCreditCard => ChargeMedicalBill(g, draws.cardIndex)
    case ApplyForMedicalLoan => ApplyLoan(g, draws.loanAmount, draws.loanBalance)
    case AcceptOffer => ApplyCard(g, draws.cardLimit)
    case DeclineOffer => g
    case Celebrate => g.(factors := g.factors.(utilization := Lower(g.factors.utilization, 10)))
    case AcceptIncrease => IncreaseLimit(g, true, draws.cardIndex)
    case DeclineIncrease => IncreaseLimit(g, false, draws.cardIndex)
    case ReportImmediately => g
    case WaitAndSee => g.(factors := g.factors.(paymentHistory := Lower(g.factors.paymentHistory, 20)))
  }

  /** Waiting on an identity-theft alert costs exactly 20 points of payment
      history when there are 20 to lose, and leaves it at 0 otherwise. */
  lemma WaitingCostsTwenty(g: Game, draws: Draws)
    requires ScalarsFit(g, draws)
    requires Valid(g)
    ensures var h := Respond(g, WaitAndSee, draws).factors.paymentHistory;
            if g.factors.paymentHistory >= 20 then h == g.factors.paymentHistory - 20 else h == 0
  {
  }

  /** Charging a medical bill to a card can push its balance past its limit:
      the source never checks. */
  lemma MedicalBillIgnoresLimit()
    ensures var g := Initial().(cards := [Account(1000, 800, 0)]);
            var r := ChargeMedicalBill(g, 0);
            Valid(g) && r.cards[0].balance > r.cards[0].size
  {
  }
}
