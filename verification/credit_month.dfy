/** The monthly step of the credit mini-game: the month advances, every
    account ages, inquiries decay, and the game is won or lost. */
module CreditMonth {
  import opened CreditScore
  import opened CreditAccounts
  import opened CreditGame

  datatype Status = Continue | Won | Lost

  datatype Turn = Turn(game: Game, status: Status)

  /** "Next Month". Cards age first, each adding 5 to credit age, then loans,
      each adding 3, every nudge capped at 100. If any inquiry is still
      counted, one decays and the inquiries factor drops by 5. The game is won
      on a score of at least 750, checked before it is lost on passing month
      12; either way it is over. */
  function NextMonth(g: Game): (t: Turn)
    ensures t.game.month == g.month + 1
    ensures |t.game.cards| == |g.cards| && |t.game.loans| == |g.loans|
    ensures forall i :: 0 <= i < |g.cards| ==> t.game.cards[i] == g.cards[i].(age := g.cards[i].age + 1)
    ensures forall i :: 0 <= i < |g.loans| ==> t.game.loans[i] == g.loans[i].(age := g.loans[i].age + 1)
    ensures Valid(g) ==>
      t.game.factors.creditAge == Raise(g.factors.creditAge, 5 * |g.cards| + 3 * |g.loans|)
    ensures g.inquiryCount > 0 ==>
      && t.game.inquiryCount == g.inquiryCount - 1
      && t.game.factors.inquiries == Lower(g.factors.inquiries, 5)
    ensures g.inquiryCount <= 0 ==>
      && t.game.inquiryCount == g.inquiryCount
      && t.game.factors.inquiries == g.factors.inquiries
    ensures t.game.factors.paymentHistory == g.factors.paymentHistory
    ensures t.game.factors.utilization == g.factors.utilization
    ensures t.game.factors.creditMix == g.factors.creditMix
    ensures t.game.log == g.log
    ensures t.status == Won <==> Score(t.game.factors) >= TargetScore
    ensures t.status == Lost <==> Score(t.game.factors) < TargetScore && t.game.month > MaxMonths
    ensures t.game.over == (g.over || t.status != Continue)
    ensures Valid(g) ==> Valid(t.game)
  {
    var cards := AgeRound(g.cards, g.factors.creditAge, 5);
    var loans := AgeRound(g.loans, cards.creditAge, 3);
    var decays := g.inquiryCount > 0;
    var factors := g.factors.(
      creditAge := loans.creditAge,
      inquiries := if decays then Lower(g.factors.inquiries, 5) else g.factors.inquiries);
    var next := g.(month := g.month + 1,
                   cards := cards.accounts,
                   loans := loans.accounts,
                   inquiryCount := if decays then Lower(g.inquiryCount, 1) else g.inquiryCount,
                   factors := factors);
    CreditAgeAfterAgeing(g, cards.creditAge, loans.creditAge);
    AgedStaySound(g.cards, cards.accounts);
    AgedStaySound(g.loans, loans.accounts);
    var status :=
      if Score(factors) >= TargetScore then Won
      else if next.month > MaxMonths then Lost
      else Continue;
    Turn(next.(over := g.over || status != Continue), status)
  }

  /** Ageing a sound list by one month keeps it sound. */
  lemma AgedStaySound(s: seq<Account>, aged: seq<Account>)
    requires |aged| == |s|
    requires forall i :: 0 <= i < |s| ==> aged[i] == s[i].(age := s[i].age + 1)
    ensures AllSound(s) ==> AllSound(aged)
  {
  }

  /** Credit age after both sweeps of a valid state: every card adds 5 and
      every loan adds 3, capped once at 100. */
  lemma CreditAgeAfterAgeing(g: Game, afterCards: int, afterLoans: int)
    requires afterCards == AgeRound(g.cards, g.factors.creditAge, 5).creditAge
    requires afterLoans == AgeRound(g.loans, afterCards, 3).creditAge
    ensures Valid(g) ==> afterLoans == Raise(g.factors.creditAge, 5 * |g.cards| + 3 * |g.loans|)
  {
    if !Valid(g) {
      return;
    }
    SoundAllMature(g.cards);
    SoundAllMature(g.loans);
    var c := g.factors.creditAge;
    if |g.cards| == 0 {
      assert Raise(c, 0) == c;
    } else {
      assert afterCards == Raise(c, 5 * |g.cards|);
    }
    if |g.loans| > 0 {
      RaiseTwice(c, 5 * |g.cards|, 3 * |g.loans|);
    }
  }

  /** Plays `n` months with no decisions and no events, stopping early when
      the game ends. A run that has not ended has played all `n` months. */
  function Idle(g: Game, n: nat): (t: Turn)
    ensures t.status != Continue ==> t.game.over
    ensures t.status == Continue ==> t.game.month == g.month + n
    decreases n
  {
    if n == 0 then Turn(g, Continue)
    else
      var step := NextMonth(g);
      if step.status != Continue then step else Idle(step.game, n - 1)
  }

  /** Idling past month 12 always ends the game, whatever the state: a month
      that does not reach 750 loses once the month exceeds 12. */
  lemma {:induction false} IdleEnds(g: Game, n: nat)
    requires n >= 1 && g.month + n > MaxMonths
    ensures Idle(g, n).status != Continue
    decreases n
  {
    var step := NextMonth(g);
    if step.status == Continue && n > 1 {
      IdleEnds(step.game, n - 1);
    }
  }

  /** Twelve idle months from month 1 end the game, won or lost, in any
      state. */
  lemma TwelveMonthsEnd(g: Game)
    requires g.month == 1
    ensures Idle(g, MaxMonths).status != Continue
  {
    IdleEnds(g, MaxMonths);
  }

  /** A state with nothing open and nothing to decay: a month only moves the
      calendar. */
  predicate Quiet(g: Game) {
    g.cards == [] && g.loans == [] && g.inquiryCount == 0 && Score(g.factors) < TargetScore
  }

  /** From a quiet state at month `m`, idling until month 13 loses the game
      with nothing else changed. */
  lemma {:induction false} IdleUntilLost(g: Game)
    requires Quiet(g) && 1 <= g.month <= MaxMonths && !g.over
    ensures Idle(g, MaxMonths + 1 - g.month) == Turn(g.(month := MaxMonths + 1, over := true), Lost)
    decreases MaxMonths - g.month
  {
    var step := NextMonth(g);
    assert step.game.factors == g.factors;
    if g.month == MaxMonths {
      assert step.game == g.(month := MaxMonths + 1, over := true);
    } else {
      assert step.game == g.(month := g.month + 1);
      IdleUntilLost(step.game);
    }
  }

  /** Twelve months without a single decision or event lose the game at
      month 13: a fresh profile scores 520, far below 750. */
  lemma IdleGameIsLost()
    ensures Idle(Initial(), MaxMonths) == Turn(Initial().(month := 13, over := true), Lost)
  {
    IdleUntilLost(Initial());
  }
}
