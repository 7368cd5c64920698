# Credit-score and blockchain mini-games, modelled in Dafny

This project models the game logic of two educational mini-games and proves properties of it.

**Credit Score Challenge** (`CreditMiniGame.py`, class `CreditScoreGame`) is a turn-based credit simulator. The state has five credit factors on a 0..100 scale: payment history, credit utilization, credit age, credit mix and inquiries. Alongside them it keeps the month, an inquiry counter, the open cards and loans, and a payment log. Each month the player takes decisions, answers an optional random event and advances the month. The credit score is a weighted sum of the factors, clamped to 300..850. The player wins on reaching 750, and loses once month 12 has passed.

**Blockchain Transaction Game** (`blockchain_game.py`, class `BlockchainGame`) is a click-driven coin-transfer demo. Coins sit with the player, with Bob or in the bank. The player gives Bob 5, then 3, then 2 coins, one transaction per scenario. The player may borrow a bank coin only with an empty wallet. A Next button steps through six instructions.

Files, one module each:

- `credit_score.dfy` (`CreditScore`): the factors, the score formula, the capped nudges `min(100, v + d)` / `max(0, v - d)`, and the bounds and monotonicity lemmas.
- `credit_accounts.dfy` (`CreditAccounts`): accounts, the payment round and the monthly ageing sweep.
- `credit_game.dfy` (`CreditGame`): the game state, the six decisions, the decision menu and the dispatcher.
- `credit_events.dfy` (`CreditEvents`): the five random events and their responses.
- `credit_month.dfy` (`CreditMonth`): the monthly step, win/lose, and a twelve-idle-months run.
- `credit_summary.dfy` (`CreditSummary`): the end-of-game strengths and improvement suggestions.
- `blockchain.dfy` (`Blockchain`): coin locations, clicks, transaction completion, instruction steps, and a reachability invariant.

Modelling choices:

- Every `random` draw is a parameter, limited to the range the source draws it from:
  - card limit 1000..5000;
  - purchase 200..1000;
  - card payment 100..500;
  - loan amount and loan balance 5000..15000 each;
  - loan payment 200..800;
  - the index `random.choice` picks among the cards;
  - the 40% event draw and the 30% skip draw.
- The source draws a payment only for an account with a positive balance. The model takes one draw per account and ignores the draws of accounts that owe nothing.
- The score uses exact integer arithmetic: `clamp(300, 850, (60000 + 385·ph + 330·max(0, 100−u) + 165·age + 110·mix + 110·max(0, 100−inq)) / 200)`. The source computes it in floating point and truncates with `int()`. The model idealises that rounding: where the exact sum is an integer, a float sum one ulp below it would truncate one point lower in the source.
- Cards and loans share one record, `Account(size, balance, age)`. `size` is a card's limit or a loan's amount.
- The blockchain's coins are a sequence of locations. Moving a coin deletes it and appends a new coin at the target, as the source recreates the widget. The cached `playerCoins`/`bobCoins` are refreshed after every move. Transaction completion happens at once rather than 200 ms later.

Behaviour of the code worth knowing:

- A fresh profile (all factors 0) scores 520, not 300. The inverted factors, utilization and inquiries, at 0 already earn their full weight (`CreditScore.FreshScore`).
- A card's balance can exceed its limit. A medical bill charged to a card adds 500 with no limit check (`CreditEvents.MedicalBillIgnoresLimit`). A loan's balance is drawn independently of its amount, so it can exceed the amount too.
- The guard at `blockchain_game.py:295` is kept as written, but it never fires. It tests `player_coins == 1` after the move has already refreshed the count, which is then 0 (`Blockchain.ClickKeepsInv`, `Blockchain.GoalFromStart`).

## Model

| member | source | states |
|---|---|---|
| `CreditScore.Score` | CreditMiniGame.py:210-230 | the score always lies in [300, 850] whatever the factors |
| `CreditScore.ClampInactive` | CreditMiniGame.py:210-230 | on factors within 0..100 the weighted sum already lies between 300 and 850, so the clamp never acts |
| `CreditScore.TopScoreOnlyForBest` | CreditMiniGame.py:210-230 | a bounded profile scores 850 exactly when payment history, age and mix are 100 and utilization and inquiries are 0 |
| `CreditScore.FreshScore` | CreditMiniGame.py:36-40 | the all-zero starting profile scores 520; the worst profile (utilization and inquiries 100, the rest 0) scores 300 |
| `CreditScore.ScoreMonotone` | CreditMiniGame.py:215-229 | the score never falls when payment history, age or mix rise or when utilization or inquiries fall |
| `CreditAccounts.Settle` | CreditMiniGame.py:380-383 | an owing account pays min(balance, draw): its balance falls but stays non-negative, reaches 0 exactly when the draw covers it, and limit and age are untouched; an account owing nothing is unchanged |
| `CreditAccounts.PayRound` | CreditMiniGame.py:380-385 | pays each owing account once, in order; one positive log amount per owing account; the balance removed equals the sum paid; payment history rises by the bonus per payment, capped once at 100 |
| `CreditAccounts.AgeRound` | CreditMiniGame.py:478-486 | every account is one month older and otherwise unchanged; credit age rises by the bonus per maturing account, capped at 100 |
| `CreditAccounts.SoundAllMature` | CreditMiniGame.py:479-481 | with non-negative ages the `age > 0` check after the increment always passes, so every account nudges credit age |
| `CreditGame.Initial` | CreditMiniGame.py:29-46 | a new game starts in a valid state: month 1, no accounts, score 520 |
| `CreditGame.ApplyCard` | CreditMiniGame.py:358-371 | inquiry count +1; inquiries +20, mix +15, age +10, each capped at 100; exactly one new card with the drawn limit, balance 0 and age 0 appended; nothing else changes; validity kept |
| `CreditGame.PayCards` | CreditMiniGame.py:375-387 | no-op without cards; each card is settled with its own draw, an owing card paying exactly min(balance, draw) and any other card untouched, so balances fall without going negative; payment history +10 per owing card, capped at 100; one card-payment log entry each, totalling the debt removed; loans and other factors unchanged |
| `CreditGame.LargePurchase` | CreditMiniGame.py:389-401 | approved exactly when there is a card and balance + purchase ≤ limit; on decline or with no card nothing changes; on approval only the chosen card's balance grows and utilization rises by 15, capped at 100 |
| `CreditGame.ApplyLoan` | CreditMiniGame.py:403-415 | inquiry count +1; inquiries +15 and mix +20, capped at 100; credit age untouched; exactly one new loan of age 0 with the drawn amount and balance appended |
| `CreditGame.PayLoans` | CreditMiniGame.py:417-428 | no-op without loans; each loan is settled with its own draw, an owing loan paying exactly min(balance, draw) and any other loan untouched, so balances never go negative; payment history +15 per owing loan, capped at 100; one loan-payment log entry each, totalling the debt removed |
| `CreditGame.Menu` | CreditMiniGame.py:288-304 | "Apply for Credit Card" is offered iff there is no card; pay and purchase iff there is one; a loan iff there is no loan and the month is at least 3; "Pay Loan Payment" iff there is a loan; skip iff the 30% draw hit |
| `CreditGame.MenuNeverEmpty` | CreditMiniGame.py:288-300 | every month offers at least one decision |
| `CreditGame.Decide` | CreditMiniGame.py:354-356 | every decision keeps the state valid and leaves month and game-over alone; skipping changes nothing; only a purchase reports a verdict, and a declined purchase changes nothing |
| `CreditGame.ApplyingSwitchesMenu` | CreditMiniGame.py:289-294 | after opening a card the menu no longer offers a card application but offers paying and purchasing |
| `CreditGame.OverLimitPurchaseDeclined` | CreditMiniGame.py:396-401 | a 600 purchase on a card with limit 500 and balance 0 is declined and the balance stays 0 |
| `CreditEvents.Responses` | CreditMiniGame.py:316-336 | each of the five events offers one to three responses |
| `CreditEvents.ChargeMedicalBill` | CreditMiniGame.py:436-441 | with a card, exactly the chosen card's balance grows by 500 and utilization rises by 10, capped; without one nothing changes |
| `CreditEvents.IncreaseLimit` | CreditMiniGame.py:458-465 | an accepted increase raises only the chosen card's limit by 2000 and lowers utilization by 5, floored at 0; declining or having no card changes nothing |
| `CreditEvents.Respond` | CreditMiniGame.py:433-472 | every response keeps the state valid; paying with savings, declining and reporting are no-ops; the medical loan and the accepted offer are a loan or card application; celebrating lowers utilization by 10 and waiting lowers payment history by 20, both floored at 0 |
| `CreditEvents.WaitingCostsTwenty` | CreditMiniGame.py:467-472 | ignoring an identity-theft alert costs exactly 20 points of payment history, or all of it when fewer remain |
| `CreditEvents.MedicalBillIgnoresLimit` | CreditMiniGame.py:437-440 | a valid state exists where charging a medical bill leaves a card's balance above its limit |
| `CreditMonth.NextMonth` | CreditMiniGame.py:474-501 | month +1; every account one month older; credit age +5 per card and +3 per loan, capped at 100; inquiry count and inquiries (by 5, floored) decay only while the count is positive; won iff score ≥ 750, otherwise lost iff the month passed 12; validity kept |
| `CreditMonth.CreditAgeAfterAgeing` | CreditMiniGame.py:477-486 | in a valid state the two sweeps add 5 per card and 3 per loan to credit age with a single cap at 100 |
| `CreditMonth.Idle` | CreditMiniGame.py:494-501 | an idle run that ends early is marked over; one still going has played every one of its months |
| `CreditMonth.IdleEnds` | CreditMiniGame.py:496-501 | from any state, idling at least one month and past month 12 always ends the game, won or lost |
| `CreditMonth.TwelveMonthsEnd` | CreditMiniGame.py:29-30 | twelve idle months from month 1 end the game in any state, not only a quiet one |
| `CreditMonth.IdleUntilLost` | CreditMiniGame.py:474-501 | from a state with nothing open, nothing to decay and a score below 750, idling until month 13 loses the game and changes nothing but the month |
| `CreditMonth.IdleGameIsLost` | CreditMiniGame.py:30-31 | twelve months without decisions or events from a new game end Lost at month 13 |
| `CreditSummary.Strengths` | CreditMiniGame.py:528-539 | a factor is listed as a success exactly when it meets its threshold (history ≥ 80, utilization ≤ 30, age ≥ 60, mix ≥ 50, inquiries ≤ 20) |
| `CreditSummary.Improvements` | CreditMiniGame.py:546-563 | a suggestion is listed exactly for each factor missing its threshold; the list is empty, and "all excellent" shown, exactly when every factor meets it |
| `CreditSummary.SelectSplits` | CreditMiniGame.py:546-557 | filtering by health and by its negation splits any factor list without loss or overlap |
| `CreditSummary.StrengthsAndImprovementsPartition` | CreditMiniGame.py:530-557 | the success and improvement lists together name each of the five factors exactly once |
| `CreditSummary.EndGame` | CreditMiniGame.py:508-565 | the summary's score lies in [300, 850]; strengths appear only on a win and then exactly for healthy factors; improvements appear exactly for unhealthy factors |
| `CreditSummary.BestNeedsNothing` | CreditMiniGame.py:546-563 | the best profile gets no improvement suggestion |
| `Blockchain.CountTotal` | blockchain_game.py:321-330 | the player, Bob and bank counts add up to the number of coins |
| `Blockchain.RefreshCounts` | blockchain_game.py:321-330 | the cached player and Bob counts equal the number of coins at each place |
| `Blockchain.Move` | blockchain_game.py:479-557 | moving a coin takes exactly one coin from its place and adds one to the target, so every count changes by at most one and the total is kept; the new coin comes last; the counts are refreshed; nothing else changes |
| `Blockchain.Complete` | blockchain_game.py:350-363 | while a scenario is active, completing advances the scenario by exactly 1, clears the tracked coins and records them in the ledger; afterwards it does nothing |
| `Blockchain.Click` | blockchain_game.py:279-306 | a player coin moves to Bob and counts toward the transaction only while a scenario is active, completing it on reaching the coins needed; a bank coin moves to the player only with an empty cached wallet and an active scenario; Bob's coins ignore clicks |
| `Blockchain.NextInstruction` | blockchain_game.py:560-580 | each Next press advances the step by 1; the button stays visible iff the step is below 5; step 4 draws one blockchain link |
| `Blockchain.Start` | blockchain_game.py:434-457 | starting creates the cached number of player coins and leaves Bob and the bank as they were |
| `Blockchain.StartSatisfiesInv` | blockchain_game.py:24-33 | a started game has 9 player coins, 0 for Bob, 20 in the bank, and satisfies the invariant |
| `Blockchain.ClickKeepsInv` | blockchain_game.py:283-306 | every click keeps the reachability invariant, so the bank-prompt guard never fires |
| `Blockchain.RunKeepsInv` | blockchain_game.py:279-306 | any sequence of clicks and Next presses keeps the invariant |
| `Blockchain.GoalFromStart` | blockchain_game.py:172 | from a new game, whatever is clicked: no coin is lost, the bank prompt is never shown, and finishing all three scenarios leaves Bob with 10 coins and a ledger of 5, 3, 2 |
| `Blockchain.CanProgress` | blockchain_game.py:298-303 | until all scenarios are done some click gives a coin to Bob or borrows one from the bank, so the game never gets stuck |

## Left out

- Widgets, canvas drawing, colours, progress bars, message boxes and the score circle: presentation only.
- `root.after` timers in `blockchain_game.py`: completion is modelled as immediate. Fast clicks before the 200 ms timer can schedule a completion twice and skip a scenario. That race is not modelled.
- The animations of the transaction boxes, and `hash_transaction`: the "Hash it!" button is never put on screen.
- `exit_game` and the legacy drag-and-drop handlers: no game logic beyond calling the move functions, which are modelled.
- The event and skip probabilities (40%, 30%) and the uniform event choice: these are caller draws. The model takes their outcomes as inputs.
- `start_game` of the credit game only builds the first menu and event, which `CreditGame.Menu` and `CreditEvents.Responses` cover.
- Event buttons stay clickable after use in the source, and decisions stay clickable after the game ends. The model's transitions, like the source's handlers, do not check `over`. Repeated clicks are just repeated calls.
- Floating-point rounding of `calculate_credit_score`: exact integer arithmetic is used instead.
- `FedReserveMiniGame.py` and `homepage.py` are not part of this model. They are a floating-point random walk, rendering, audio, sprite movement and subprocess launching.
