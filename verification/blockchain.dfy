/** The blockchain transaction demo as a counter machine. Coins sit with the
    player, with Bob or in the bank; clicking a coin moves it. The player must
    give Bob 5, then 3, then 2 coins, one transaction per scenario, and may
    borrow from the bank only with an empty wallet. A row of instructions
    advances with a Next button. */
module Blockchain {

  datatype Place = Player | Bob | Bank

  /** Coins Bob must receive in each scenario. */
  const CoinsNeeded: seq<nat> := [5, 3, 2]
  const Scenarios := 3
  const InstructionSteps := 6
  const StartingCoins := 9
  const BankCoins := 20

  datatype Table = Table(
    coins: seq<Place>,  // every coin on screen, by where it sits
    playerCoins: int,   // cached count of the player's coins
    bobCoins: int,      // cached count of Bob's coins
    scenario: nat,      // index into CoinsNeeded; 3 once all are done
    tracked: nat,       // coins given in the current transaction
    ledger: seq<nat>,   // coins of each completed transaction, in order
    step: nat,          // current instruction step
    nextShown: bool,    // whether the Next button is on screen
    bankPrompt: bool,   // whether the "use the bank" instruction was shown
    links: nat,         // blockchain links drawn
    running: bool)

  function Count(coins: seq<Place>, p: Place): (n: nat)
    ensures n <= |coins|
  {
    if coins == [] then 0 else (if coins[0] == p then 1 else 0) + Count(coins[1..], p)
  }

  lemma {:induction false} CountAppend(a: seq<Place>, b: seq<Place>, p: Place)
    ensures Count(a + b, p) == Count(a, p) + Count(b, p)
  {
    if a == [] {
      assert a + b == b;
    } else {
      assert (a + b)[1..] == a[1..] + b;
      CountAppend(a[1..], b, p);
    }
  }

  /** Every coin is somewhere: the three counts add up to the number of coins. */
  lemma {:induction false} CountTotal(coins: seq<Place>)
    ensures Count(coins, Player) + Count(coins, Bob) + Count(coins, Bank) == |coins|
  {
    if coins != [] {
      CountTotal(coins[1..]);
    }
  }

  lemma {:induction false} CountOfPresent(coins: seq<Place>, i: nat)
    requires i < |coins|
    ensures Count(coins, coins[i]) >= 1
  {
    if i > 0 {
      CountOfPresent(coins[1..], i - 1);
    }
  }

  /** A place with a positive count holds some coin. */
  lemma {:induction false} CountedCoinExists(coins: seq<Place>, p: Place) returns (i: nat)
    requires Count(coins, p) > 0
    ensures i < |coins| && coins[i] == p
  {
    if coins[0] == p {
      i := 0;
    } else {
      var j := CountedCoinExists(coins[1..], p);
      i := j + 1;
    }
  }

  function Repeat(p: Place, n: nat): (s: seq<Place>)
    ensures |s| == n
    ensures forall q :: Count(s, q) == if q == p then n else 0
  {
    if n == 0 then [] else [p] + Repeat(p, n - 1)
  }

  /** Refreshes the cached player and Bob counts from where the coins sit;
      the bank is never counted. */
  function RefreshCounts(t: Table): (r: Table)
    ensures r.playerCoins == Count(r.coins, Player) && r.bobCoins == Count(r.coins, Bob)
    ensures r.coins == t.coins
  {
    t.(playerCoins := Count(t.coins, Player), bobCoins := Count(t.coins, Bob))
  }

  /** Moves coin `i` to `to`: the coin is destroyed and a new one is created
      at the target, after which the counts are refreshed. */
  function Move(t: Table, i: nat, to: Place): (r: Table)
    requires i < |t.coins|
    ensures |r.coins| == |t.coins|
    ensures r.coins[|r.coins| - 1] == to
    ensures forall p :: (Count(r.coins, p) ==
      Count(t.coins, p) - (if t.coins[i] == p then 1 else 0) + (if to == p then 1 else 0))
    ensures r.playerCoins == Count(r.coins, Player) && r.bobCoins == Count(r.coins, Bob)
    ensures r == t.(coins := r.coins, playerCoins := r.playerCoins, bobCoins := r.bobCoins)
  {
    var coins := t.coins[..i] + t.coins[i + 1..] + [to];
    forall p ensures Count(coins, p) ==
      Count(t.coins, p) - (if t.coins[i] == p then 1 else 0) + (if to == p then 1 else 0)
    {
      assert t.coins == t.coins[..i] + [t.coins[i]] + t.coins[i + 1..];
      CountAppend(t.coins[..i], [t.coins[i]], p);
      CountAppend(t.coins[..i] + [t.coins[i]], t.coins[i + 1..], p);
      CountAppend(t.coins[..i], t.coins[i + 1..], p);
      CountAppend(t.coins[..i] + t.coins[i + 1..], [to], p);
    }
    RefreshCounts(t.(coins := coins))
  }

  /** Closes the current transaction: its coin count goes to the ledger, the
      tracked coins are cleared, the next scenario begins and the Next button
      reappears. Past the last scenario nothing happens. */
  function Complete(t: Table): (r: Table)
    ensures t.scenario < Scenarios ==>
      && r.scenario == t.scenario + 1
      && r.tracked == 0
      && r.ledger == t.ledger + [t.tracked]
      && r.nextShown
      && r.coins == t.coins && r.playerCoins == t.playerCoins && r.bobCoins == t.bobCoins
    ensures t.scenario >= Scenarios ==> r == t
  {
    if t.scenario < Scenarios then
      t.(ledger := t.ledger + [t.tracked], tracked := 0, scenario := t.scenario + 1, nextShown := true)
    else
      t
  }

  /** A click on coin `i`. A player coin goes to Bob while a scenario is
      active, and the transaction completes once it has enough coins. A bank
      coin goes to the player only when the player's cached count is 0 and a
      scenario is active. Bob's coins ignore clicks. */
  function Click(t: Table, i: nat): (r: Table)
    requires i < |t.coins|
    ensures |r.coins| == |t.coins|
    ensures t.coins[i] == Player && t.scenario < Scenarios ==>
      && Count(r.coins, Player) == Count(t.coins, Player) - 1
      && Count(r.coins, Bob) == Count(t.coins, Bob) + 1
      && Count(r.coins, Bank) == Count(t.coins, Bank)
      && (t.tracked + 1 >= CoinsNeeded[t.scenario] ==>
            r.scenario == t.scenario + 1 && r.tracked == 0 && r.ledger == t.ledger + [t.tracked + 1])
      && (t.tracked + 1 < CoinsNeeded[t.scenario] ==>
            r.scenario == t.scenario && r.tracked == t.tracked + 1 && r.ledger == t.ledger)
    ensures t.coins[i] == Bank && t.playerCoins == 0 && t.scenario < Scenarios ==>
      && Count(r.coins, Player) == Count(t.coins, Player) + 1
      && Count(r.coins, Bank) == Count(t.coins, Bank) - 1
      && Count(r.coins, Bob) == Count(t.coins, Bob)
      && r.scenario == t.scenario && r.tracked == t.tracked && r.ledger == t.ledger
    ensures t.coins[i] == Bank && (t.playerCoins != 0 || t.scenario >= Scenarios) ==> r == t
    ensures t.coins[i] == Player && t.scenario >= Scenarios ==> r == t
    ensures t.coins[i] == Bob ==> r == t
    ensures r.step == t.step && r.links == t.links
  {
    match t.coins[i]
    case Player =>
      if t.scenario < Scenarios then
        var moved := Move(t, i, Bob);
        var given := moved.(tracked := moved.tracked + 1);
        if given.tracked >= CoinsNeeded[t.scenario] then
          Complete(given)
        else if t.scenario == 2 && given.tracked == 1 && given.playerCoins == 1 then
          given.(bankPrompt := true)
        else
          given
      else
        t
    case Bank =>
      if t.playerCoins == 0 && t.scenario < Scenarios then Move(t, i, Player) else t
    case Bob => t
  }

  /** "Next": advances the instruction step. The button stays on screen until
      step 5, the final message, and is hidden from then on; step 4 draws a
      blockchain link. */
  function NextInstruction(t: Table): (r: Table)
    ensures r.step == t.step + 1
    ensures r.nextShown <==> r.step < 5
    ensures r.links == if r.step == 4 then t.links + 1 else t.links
    ensures r == t.(step := r.step, nextShown := r.nextShown, links := r.links)
  {
    var s := t.step + 1;
    if s < InstructionSteps then
      var shown := t.(step := s, nextShown := true);
      if s == 4 then shown.(links := t.links + 1)
      else if s == 5 then shown.(nextShown := false)
      else shown
    else
      t.(step := s, nextShown := false)
  }

  /** The table after construction: twenty bank coins on screen, a cached
      player count of 9 but no player coin created yet. */
  function Fresh(): Table {
    Table(Repeat(Bank, BankCoins), StartingCoins, 0, 0, 0, [], 0, false, false, 0, false)
  }

  /** "Start Game": creates one player coin per cached player coin, refreshes
      the counts and shows the first instruction with its Next button. */
  function Start(t: Table): (r: Table)
    requires t.playerCoins >= 0
    ensures |r.coins| == |t.coins| + t.playerCoins
    ensures Count(r.coins, Player) == Count(t.coins, Player) + t.playerCoins
    ensures Count(r.coins, Bob) == Count(t.coins, Bob)
    ensures Count(r.coins, Bank) == Count(t.coins, Bank)
    ensures r.running && r.nextShown
  {
    var coins := t.coins + Repeat(Player, t.playerCoins);
    forall p ensures Count(coins, p) == Count(t.coins, p) + (if p == Player then t.playerCoins else 0) {
      CountAppend(t.coins, Repeat(Player, t.playerCoins), p);
    }
    RefreshCounts(t.(coins := coins, running := true, nextShown := true))
  }

  /** Coins Bob holds once `s` scenarios are complete. */
  function Given(s: nat): nat
    requires s <= Scenarios
  {
    [0, 5, 8, 10][s]
  }

  /** What holds of every table reachable from the start by clicks and Next
      presses. The bank is touched only in the last scenario, after the
      player's last coin has gone to Bob. */
  predicate Inv(t: Table) {
    && |t.coins| == StartingCoins + BankCoins
    && t.playerCoins == Count(t.coins, Player)
    && t.bobCoins == Count(t.coins, Bob)
    && t.scenario <= Scenarios
    && t.bobCoins == Given(t.scenario) + t.tracked
    && (t.scenario < Scenarios ==> t.tracked < CoinsNeeded[t.scenario])
    && (t.scenario == Scenarios ==> t.tracked == 0)
    && t.ledger == CoinsNeeded[..t.scenario]
    && !t.bankPrompt
    && (t.scenario < 2 ==> Count(t.coins, Bank) == BankCoins)
    && (t.scenario == 2 && t.tracked == 0 ==> t.playerCoins == 1 && Count(t.coins, Bank) == BankCoins)
    && (t.scenario == 2 && t.tracked == 1 ==> t.playerCoins <= 1 && t.playerCoins + Count(t.coins, Bank) == BankCoins)
    && (t.scenario == Scenarios ==> t.playerCoins == 0 && Count(t.coins, Bank) == BankCoins - 1)
  }

  lemma StartSatisfiesInv()
    ensures Inv(Start(Fresh()))
    ensures Start(Fresh()).playerCoins == StartingCoins && Start(Fresh()).bobCoins == 0
  {
  }

  /** A click keeps the invariant; in particular the guard that would show the
      bank prompt never fires, because the player's count has already been
      refreshed to 0 when it is checked. */
  lemma ClickKeepsInv(t: Table, i: nat)
    requires Inv(t) && i < |t.coins|
    ensures Inv(Click(t, i))
  {
    CountTotal(t.coins);
    CountOfPresent(t.coins, i);
    var r := Click(t, i);
    CountTotal(r.coins);
    if t.coins[i] == Player && t.scenario < Scenarios {
      assert t.scenario == 1 ==> CoinsNeeded[..2] == CoinsNeeded[..1] + [3];
      assert t.scenario == 2 ==> CoinsNeeded[..3] == CoinsNeeded[..2] + [2];
      assert t.scenario == 0 ==> CoinsNeeded[..1] == [5];
    }
  }

  datatype Action = ClickCoin(index: nat) | PressNext

  /** One user action; a click on an index with no coin does nothing. */
  function Apply(t: Table, a: Action): Table {
    match a
    case ClickCoin(i) => if i < |t.coins| then Click(t, i) else t
    case PressNext => NextInstruction(t)
  }

  function Run(t: Table, actions: seq<Action>): Table
    decreases |actions|
  {
    if actions == [] then t else Run(Apply(t, actions[0]), actions[1..])
  }

  lemma {:induction false} RunKeepsInv(t: Table, actions: seq<Action>)
    requires Inv(t)
    ensures Inv(Run(t, actions))
    decreases |actions|
  {
    if actions != [] {
      var a := actions[0];
      if a.ClickCoin? && a.index < |t.coins| {
        ClickKeepsInv(t, a.index);
      }
      RunKeepsInv(Apply(t, a), actions[1..]);
    }
  }

  /** A new game and any sequence of clicks and Next presses keep the
      invariant. */
  lemma PlayFromStart(actions: seq<Action>)
    ensures Inv(Run(Start(Fresh()), actions))
  {
    StartSatisfiesInv();
    RunKeepsInv(Start(Fresh()), actions);
  }

  /** Whatever the player clicks, starting from a new game: the bank prompt is
      never shown, no coin is lost, and once all three scenarios are done Bob
      holds 10 coins and the ledger reads 5, 3, 2. */
  lemma GoalFromStart(actions: seq<Action>)
    ensures var t := Run(Start(Fresh()), actions);
      && !t.bankPrompt
      && Count(t.coins, Player) + Count(t.coins, Bob) + Count(t.coins, Bank) == StartingCoins + BankCoins
      && (t.scenario == Scenarios ==> t.bobCoins == 10 && t.ledger == [5, 3, 2])
  {
    PlayFromStart(actions);
    InvConsequences(Run(Start(Fresh()), actions));
  }

  lemma InvConsequences(t: Table)
    requires Inv(t)
    ensures !t.bankPrompt
    ensures Count(t.coins, Player) + Count(t.coins, Bob) + Count(t.coins, Bank) == StartingCoins + BankCoins
    ensures t.scenario == Scenarios ==> t.bobCoins == 10 && t.ledger == [5, 3, 2]
  {
    CountTotal(t.coins);
    assert t.scenario == Scenarios ==> t.ledger == CoinsNeeded;
  }

  /** The game never gets stuck: until all scenarios are done some coin can be
      clicked to make progress, either a coin given to Bob or a coin borrowed
      from the bank. */
  lemma CanProgress(t: Table) returns (i: nat)
    requires Inv(t) && t.scenario < Scenarios
    ensures i < |t.coins|
    ensures Progress(Click(t, i)) == Progress(t) + 1
  {
    CountTotal(t.coins);
    if t.playerCoins > 0 {
      i := CountedCoinExists(t.coins, Player);
    } else {
      i := CountedCoinExists(t.coins, Bank);
    }
    ClickKeepsInv(t, i);
  }

  /** Twice the coins given plus the coins in the player's wallet: a gift and
      a loan from the bank each raise it by one. */
  function Progress(t: Table): int {
    if t.scenario <= Scenarios then 2 * (Given(t.scenario) + t.tracked) + Count(t.coins, Player) else 0
  }
}
