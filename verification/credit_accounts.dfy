/** Open credit cards and loans, and the two per-account sweeps the game runs
    over them: a payment round and the monthly ageing. */
module CreditAccounts {
  import opened CreditScore

  /** One open account. `size` is a card's credit limit or a loan's amount.
      Neither kind caps `balance` by `size`: a medical bill charged to a card
      ignores the limit, and a loan's balance is drawn independently of its
      amount. */
  datatype Account = Account(size: int, balance: int, age: int)

  predicate Sound(a: Account) {
    a.balance >= 0 && a.age >= 0
  }

  predicate AllSound(s: seq<Account>) {
    forall i :: 0 <= i < |s| ==> Sound(s[i])
  }

  /** Number of accounts with a positive balance: those a payment round pays. */
  function Owing(s: seq<Account>): (n: nat)
    ensures n <= |s|
  {
    if s == [] then 0 else (if s[0].balance > 0 then 1 else 0) + Owing(s[1..])
  }

  /** Number of accounts whose age is positive once incremented: those that
      nudge credit age up when a month passes. */
  function Maturing(s: seq<Account>): (n: nat)
    ensures n <= |s|
  {
    if s == [] then 0 else (if s[0].age + 1 > 0 then 1 else 0) + Maturing(s[1..])
  }

  /** Every account of a sound list matures at the next month. */
  lemma {:induction false} SoundAllMature(s: seq<Account>)
    requires AllSound(s)
    ensures Maturing(s) == |s|
  {
    if s != [] {
      assert AllSound(s[1..]) by {
        forall i | 0 <= i < |s[1..]| ensures Sound(s[1..][i]) {
          assert s[1..][i] == s[i + 1];
        }
      }
      SoundAllMature(s[1..]);
    }
  }

  function TotalBalance(s: seq<Account>): int {
    if s == [] then 0 else s[0].balance + TotalBalance(s[1..])
  }

  function Sum(s: seq<int>): int {
    if s == [] then 0 else s[0] + Sum(s[1..])
  }

  /** One account's share of a payment round: an owing account pays
      `min(balance, draw)`; any other account is left alone. */
  function Settle(a: Account, draw: int): (r: Account)
    requires draw > 0
    ensures r.size == a.size && r.age == a.age
    ensures a.balance <= 0 ==> r == a
    ensures a.balance > 0 ==> 0 <= r.balance < a.balance
    ensures a.balance > 0 ==> (r.balance == 0 <==> draw >= a.balance)
    ensures 0 < a.balance && draw < a.balance ==> r.balance == a.balance - draw
  {
    if a.balance > 0 then
      var payment := if a.balance < draw then a.balance else draw;
      a.(balance := a.balance - payment)
    else
      a
  }

  /** Arithmetic step shared by both sweeps: nudging for the head account and
      then for `n` more equals nudging once for all of them. */
  lemma CapAfterCount(v: int, bonus: nat, head: bool, n: nat)
    ensures var w := if head then Raise(v, bonus) else v;
            var k := (if head then 1 else 0) + n;
            (if n == 0 then w else Raise(w, bonus * n)) == (if k == 0 then v else Raise(v, bonus * k))
  {
  }

  /** The result of a payment round: the settled accounts, the amounts paid
      in account order, and the updated payment-history factor. */
  datatype Round = Round(accounts: seq<Account>, paid: seq<int>, history: int)

  /** Pays every owing account once, from first to last, with `draws[i]` the
      payment drawn for account `i`; each payment raises `history` by `bonus`,
      capped at 100. */
  function PayRound(s: seq<Account>, draws: seq<int>, history: int, bonus: nat): (r: Round)
    requires |draws| == |s|
    requires forall i :: 0 <= i < |draws| ==> draws[i] > 0
    ensures |r.accounts| == |s|
    ensures forall i :: 0 <= i < |s| ==> r.accounts[i] == Settle(s[i], draws[i])
    ensures |r.paid| == Owing(s)
    ensures forall k :: 0 <= k < |r.paid| ==> r.paid[k] > 0
    ensures TotalBalance(s) == TotalBalance(r.accounts) + Sum(r.paid)
    ensures r.history == if Owing(s) == 0 then history else Raise(history, bonus * Owing(s))
    decreases |s|
  {
    if s == [] then
      Round([], [], history)
    else
      var head := Settle(s[0], draws[0]);
      var owes := s[0].balance > 0;
      var rest := PayRound(s[1..], draws[1..], if owes then Raise(history, bonus) else history, bonus);
      var paid := if owes then [s[0].balance - head.balance] + rest.paid else rest.paid;
      assert owes ==> Sum(paid) == s[0].balance - head.balance + Sum(rest.paid);
      CapAfterCount(history, bonus, owes, Owing(s[1..]));
      Round([head] + rest.accounts, paid, rest.history)
  }

  /** The result of ageing a list: the aged accounts and the updated credit-age
      factor. */
  datatype Aged = Aged(accounts: seq<Account>, creditAge: int)

  /** Adds one month to every account, from first to last; each account whose
      new age is positive raises `creditAge` by `bonus`, capped at 100. */
  function AgeRound(s: seq<Account>, creditAge: int, bonus: nat): (r: Aged)
    ensures |r.accounts| == |s|
    ensures forall i :: 0 <= i < |s| ==>
      r.accounts[i] == s[i].(age := s[i].age + 1)
    ensures r.creditAge == if Maturing(s) == 0 then creditAge else Raise(creditAge, bonus * Maturing(s))
    decreases |s|
  {
    if s == [] then
      Aged([], creditAge)
    else
      var head := s[0].(age := s[0].age + 1);
      var rest := AgeRound(s[1..], if head.age > 0 then Raise(creditAge, bonus) else creditAge, bonus);
      CapAfterCount(creditAge, bonus, head.age > 0, Maturing(s[1..]));
      Aged([head] + rest.accounts, rest.creditAge)
  }
}
