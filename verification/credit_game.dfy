/** The game state of the credit mini-game and the player's monthly
    decisions: apply for a card, pay the cards, make a large purchase, apply
    for a loan, pay the loans, or skip. Every random draw of the source is a
    parameter, constrained to the range the source draws it from. */
module CreditGame {
  import opened CreditScore
  import opened CreditAccounts

  const MaxMonths := 12

  /** One entry of the payment log, kept for display only. */
  datatype Entry = CardPayment(amount: int) | LoanPayment(amount: int)

  datatype Game = Game(
    factors: Factors,
    month: int,
    inquiryCount: int,
    cards: seq<Account>,
    loans: seq<Account>,
    log: seq<Entry>,
    over: bool)

  /** What every reachable state satisfies: factors within 0..100, a month of
      at least 1, no negative inquiry count, balance or age. */
  predicate Valid(g: Game) {
    && Bounded(g.factors)
    && g.month >= 1
    && g.inquiryCount >= 0
    && AllSound(g.cards)
    && AllSound(g.loans)
  }

  /** The state a new game starts in. */
  function Initial(): (g: Game)
    ensures Valid(g)
    ensures Score(g.factors) == 520
  {
    FreshScore();
    Game(Fresh(), 1, 0, [], [], [], false)
  }

  /** "Apply for Credit Card": one more inquiry, and a new card with the drawn
      limit, a zero balance and age 0. */
  function ApplyCard(g: Game, limit: int): (r: Game)
    requires 1000 <= limit <= 5000
    ensures r.inquiryCount == g.inquiryCount + 1
    ensures r.factors.inquiries == Raise(g.factors.inquiries, 20)
    ensures r.factors.creditMix == Raise(g.factors.creditMix, 15)
    ensures r.factors.creditAge == Raise(g.factors.creditAge, 10)
    ensures r.factors.paymentHistory == g.factors.paymentHistory
    ensures r.factors.utilization == g.factors.utilization
    ensures |r.cards| == |g.cards| + 1 && r.cards[..|g.cards|] == g.cards
    ensures r.cards[|g.cards|] == Account(limit, 0, 0)
    ensures r.loans == g.loans && r.log == g.log && r.month == g.month && r.over == g.over
    ensures Valid(g) ==> Valid(r)
  {
    var f := g.factors;
    g.(inquiryCount := g.inquiryCount + 1,
       cards := g.cards + [Account(limit, 0, 0)],
       factors := f.(inquiries := Raise(f.inquiries, 20),
                     creditMix := Raise(f.creditMix, 15),
                     creditAge := Raise(f.creditAge, 10)))
  }

  /** "Apply for Personal Loan": one more inquiry, and a new loan of age 0
      whose amount and balance are drawn separately. */
  function ApplyLoan(g: Game, amount: int, balance: int): (r: Game)
    requires 5000 <= amount <= 15000
    requires 5000 <= balance <= 15000
    ensures r.inquiryCount == g.inquiryCount + 1
    ensures r.factors.inquiries == Raise(g.factors.inquiries, 15)
    ensures r.factors.creditMix == Raise(g.factors.creditMix, 20)
    ensures r.factors.creditAge == g.factors.creditAge
    ensures r.factors.paymentHistory == g.factors.paymentHistory
    ensures r.factors.utilization == g.factors.utilization
    ensures |r.loans| == |g.loans| + 1 && r.loans[..|g.loans|] == g.loans
    ensures r.loans[|g.loans|] == Account(amount, balance, 0)
    ensures r.cards == g.cards && r.log == g.log && r.month == g.month && r.over == g.over
    ensures Valid(g) ==> Valid(r)
  {
    var f := g.factors;
    g.(inquiryCount := g.inquiryCount + 1,
       loans := g.loans + [Account(amount, balance, 0)],
       factors := f.(inquiries := Raise(f.inquiries, 15),
                     creditMix := Raise(f.creditMix, 20)))
  }

  predicate DrawsIn(draws: seq<int>, lo: int, hi: int) {
    forall i :: 0 <= i < |draws| ==> lo <= draws[i] <= hi
  }

  /** Payment history after a payment round that pays `n` accounts, each
      payment worth `bonus` points. */
  function HistoryAfter(history: int, bonus: nat, n: nat): int {
    if n == 0 then history else Raise(history, bonus * n)
  }

  /** "Pay Credit Card Bill": every card with a positive balance pays
      `min(balance, draw)` and adds 10 to payment history, capped at 100.
      With no cards nothing happens. */
  function PayCards(g: Game, draws: seq<int>): (r: Game)
    requires |draws| == |g.cards|
    requires DrawsIn(draws, 100, 500)
    ensures g.cards == [] ==> r == g
    ensures |r.cards| == |g.cards|
    ensures forall i :: 0 <= i < |g.cards| ==>
      && r.cards[i].size == g.cards[i].size
      && r.cards[i].age == g.cards[i].age
      && (g.cards[i].balance > 0 ==> 0 <= r.cards[i].balance < g.cards[i].balance)
      && (g.cards[i].balance <= 0 ==> r.cards[i] == g.cards[i])
    ensures forall i :: 0 <= i < |g.cards| ==> r.cards[i] == Settle(g.cards[i], draws[i])
    ensures r.factors == g.factors.(paymentHistory := HistoryAfter(g.factors.paymentHistory, 10, Owing(g.cards)))
    ensures |r.log| == |g.log| + Owing(g.cards) && r.log[..|g.log|] == g.log
    ensures TotalBalance(g.cards) - TotalBalance(r.cards) == Sum(PaidAmounts(r.log[|g.log|..]))
    ensures forall k :: |g.log| <= k < |r.log| ==> r.log[k].CardPayment? && r.log[k].amount > 0
    ensures r.loans == g.loans && r.inquiryCount == g.inquiryCount && r.month == g.month && r.over == g.over
    ensures Valid(g) ==> Valid(r)
  {
    if g.cards == [] then g
    else
      var round := PayRound(g.cards, draws, g.factors.paymentHistory, 10);
      var entries := seq(|round.paid|, k requires 0 <= k < |round.paid| => CardPayment(round.paid[k]));
      PaidOfEntries(round.paid, entries);
      assert (g.log + entries)[|g.log|..] == entries;
      g.(cards := round.accounts,
         factors := g.factors.(paymentHistory := round.history),
         log := g.log + entries)
  }

  /** "Pay Loan Payment": every loan with a positive balance pays
      `min(balance, draw)` and adds 15 to payment history, capped at 100.
      With no loans nothing happens. */
  function PayLoans(g: Game, draws: seq<int>): (r: Game)
    requires |draws| == |g.loans|
    requires DrawsIn(draws, 200, 800)
    ensures g.loans == [] ==> r == g
    ensures |r.loans| == |g.loans|
    ensures forall i :: 0 <= i < |g.loans| ==>
      && r.loans[i].size == g.loans[i].size
      && r.loans[i].age == g.loans[i].age
      && (g.loans[i].balance > 0 ==> 0 <= r.loans[i].balance < g.loans[i].balance)
      && (g.loans[i].balance <= 0 ==> r.loans[i] == g.loans[i])
    ensures forall i :: 0 <= i < |g.loans| ==> r.loans[i] == Settle(g.loans[i], draws[i])
    ensures r.factors == g.factors.(paymentHistory := HistoryAfter(g.factors.paymentHistory, 15, Owing(g.loans)))
    ensures |r.log| == |g.log| + Owing(g.loans) && r.log[..|g.log|] == g.log
    ensures TotalBalance(g.loans) - TotalBalance(r.loans) == Sum(PaidAmounts(r.log[|g.log|..]))
    ensures forall k :: |g.log| <= k < |r.log| ==> r.log[k].LoanPayment? && r.log[k].amount > 0
    ensures r.cards == g.cards && r.inquiryCount == g.inquiryCount && r.month == g.month && r.over == g.over
    ensures Valid(g) ==> Valid(r)
  {
    if g.loans == [] then g
    else
      var round := PayRound(g.loans, draws, g.factors.paymentHistory, 15);
      var entries := seq(|round.paid|, k requires 0 <= k < |round.paid| => LoanPayment(round.paid[k]));
      PaidOfEntries(round.paid, entries);
      assert (g.log + entries)[|g.log|..] == entries;
      g.(loans := round.accounts,
         factors := g.factors.(paymentHistory := round.history),
         log := g.log + entries)
  }

  function PaidAmounts(log: seq<Entry>): (r: seq<int>)
    ensures |r| == |log|
  {
    if log == [] then [] else [log[0].amount] + PaidAmounts(log[1..])
  }

  lemma {:induction false} PaidOfEntries(paid: seq<int>, entries: seq<Entry>)
    requires |entries| == |paid|
    requires forall k :: 0 <= k < |paid| ==> entries[k].amount == paid[k]
    ensures PaidAmounts(entries) == paid
  {
    if paid != [] {
      PaidOfEntries(paid[1..], entries[1..]);
    }
  }

  /** What a large purchase reports. */
  datatype Verdict = Approved | Declined | NoCard

  datatype Purchase = Purchase(game: Game, verdict: Verdict)

  /** "Make Large Purchase": the drawn amount is charged to the chosen card
      only if it keeps the balance within the limit. A decline, or having no
      card at all, changes nothing. */
  function LargePurchase(g: Game, index: int, amount: int): (r: Purchase)
    requires 200 <= amount <= 1000
    requires 0 <= index && (g.cards != [] ==> index < |g.cards|)
    ensures r.verdict == NoCard <==> g.cards == []
    ensures r.verdict == Approved <==>
      g.cards != [] && g.cards[index].balance + amount <= g.cards[index].size
    ensures r.verdict != Approved ==> r.game == g
    ensures r.verdict == Approved ==>
      && r.game.cards == g.cards[index := g.cards[index].(balance := g.cards[index].balance + amount)]
      && r.game.factors == g.factors.(utilization := Raise(g.factors.utilization, 15))
      && r.game.loans == g.loans && r.game.log == g.log
      && r.game.inquiryCount == g.inquiryCount && r.game.month == g.month && r.game.over == g.over
    ensures Valid(g) ==> Valid(r.game)
  {
    if g.cards == [] then Purchase(g, NoCard)
    else
      var card := g.cards[index];
      if card.balance + amount <= card.size then
        Purchase(g.(cards := g.cards[index := card.(balance := card.balance + amount)],
                    factors := g.factors.(utilization := Raise(g.factors.utilization, 15))),
                 Approved)
      else
        Purchase(g, Declined)
  }

  /** The six decisions a month can offer. */
  datatype Decision =
    | ApplyForCard
    | PayCardBill
    | MakeLargePurchase
    | ApplyForLoan
    | PayLoanPayment
    | SkipMonth

  /** The decisions offered this month, in the source's order. `skipOffered`
      is the 30% draw that adds "Skip This Month". */
  function Menu(g: Game, skipOffered: bool): (r: seq<Decision>)
    ensures ApplyForCard in r <==> g.cards == []
    ensures PayCardBill in r <==> g.cards != []
    ensures MakeLargePurchase in r <==> g.cards != []
    ensures ApplyForLoan in r <==> g.loans == [] && g.month >= 3
    ensures PayLoanPayment in r <==> g.loans != []
    ensures SkipMonth in r <==> skipOffered
  {
    (if g.cards == [] then [ApplyForCard] else [])
    + (if g.cards != [] then [PayCardBill, MakeLargePurchase] else [])
    + (if g.loans == [] && g.month >= 3 then [ApplyForLoan] else [])
    + (if g.loans != [] then [PayLoanPayment] else [])
    + (if skipOffered then [SkipMonth] else [])
  }

  /** The month's menu is never empty: without a card, applying for one is
      always on offer. */
  lemma MenuNeverEmpty(g: Game, skipOffered: bool)
    ensures |Menu(g, skipOffered)| > 0
  {
  }

  /** Every random draw one decision or event response may consume. */
  datatype Draws = Draws(
    cardLimit: int,           // 1000..5000
    purchase: int,            // 200..1000
    cardIndex: int,           // the card `random.choice` picks
    cardPayments: seq<int>,   // 100..500, one per card
    loanAmount: int,          // 5000..15000
    loanBalance: int,         // 5000..15000
    loanPayments: seq<int>)   // 200..800, one per loan

  /** The single-value draws lie in their ranges and the card index picks a
      card whenever there is one. */
  predicate ScalarsFit(g: Game, d: Draws) {
    && 1000 <= d.cardLimit <= 5000
    && 200 <= d.purchase <= 1000
    && 0 <= d.cardIndex && (g.cards != [] ==> d.cardIndex < |g.cards|)
    && 5000 <= d.loanAmount <= 15000
    && 5000 <= d.loanBalance <= 15000
  }

  /** As `ScalarsFit`, and there is one payment draw per account. */
  predicate Fits(g: Game, d: Draws) {
    && ScalarsFit(g, d)
    && |d.cardPayments| == |g.cards| && DrawsIn(d.cardPayments, 100, 500)
    && |d.loanPayments| == |g.loans| && DrawsIn(d.loanPayments, 200, 800)
  }

  /** What a decision reports: a purchase verdict where there is one. */
  datatype Outcome = Done | Purchased(verdict: Verdict)

  datatype Act = Act(game: Game, outcome: Outcome)

  /** Carries out one decision. */
  function Decide(g: Game, d: Decision, draws: Draws): (r: Act)
    requires Fits(g, draws)
    ensures Valid(g) ==> Valid(r.game)
    ensures r.game.month == g.month && r.game.over == g.over
    ensures d == SkipMonth ==> r.game == g
    ensures r.outcome.Purchased? <==> d == MakeLargePurchase
    ensures r.outcome == Purchased(Declined) ==> r.game == g
  {
    match d
    case ApplyForCard => Act(ApplyCard(g, draws.cardLimit), Done)
    case PayCardBill => Act(PayCards(g, draws.cardPayments), Done)
    case MakeLargePurchase =>
      var p := LargePurchase(g, draws.cardIndex, draws.purchase);
      Act(p.game, Purchased(p.verdict))
    case ApplyForLoan => Act(ApplyLoan(g, draws.loanAmount, draws.loanBalance), Done)
    case PayLoanPayment => Act(PayLoans(g, draws.loanPayments), Done)
    case SkipMonth => Act(g, Done)
  }

  /** Once a card is opened the menu switches from applying to paying and
      purchasing. */
  lemma ApplyingSwitchesMenu(g: Game, limit: int, skipOffered: bool)
    requires 1000 <= limit <= 5000
    ensures ApplyForCard !in Menu(ApplyCard(g, limit), skipOffered)
    ensures PayCardBill in Menu(ApplyCard(g, limit), skipOffered)
    ensures MakeLargePurchase in Menu(ApplyCard(g, limit), skipOffered)
  {
  }

  /** A purchase of 600 on a fresh card with limit 500 is declined and the
      balance stays 0. */
  lemma OverLimitPurchaseDeclined()
    ensures var g := Initial().(cards := [Account(500, 0, 0)]);
            var p := LargePurchase(g, 0, 600);
            p.verdict == Declined && p.game.cards[0].balance == 0
  {
  }
}
