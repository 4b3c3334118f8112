/** The chart of the books: every balance is its opening balance plus what the references posted on
    it stand for. */
module FinanceStatement {
  import opened Common
  import opened Ledger
  import opened Finance
  import opened FinanceInvariants
  import opened FinanceSteps
  import opened FinanceBooks

  /** What a reference of this kind does to an account. */
  function AccountEffect(ref: Ref, amount: nat, account: Account): int {
    match account
    case CashClearing =>
      if ref.PaymentPending? || ref.PaymentAuthorized? || ref.PaymentCaptured? then amount
      else if ref.RefundProcessed? then 0 - amount
      else 0
    case CommissionRevenue =>
      if ref.PaymentCommission? then amount
      else if ref.RefundCommission? then 0 - amount
      else 0
    case DriverPayable =>
      if ref.PaymentPayable? || ref.PayoutFailedPayable? then amount
      else if ref.PayoutPaidPayable? || ref.PayoutApprovedPayable? || ref.RefundEarningPayable? then 0 - amount
      else 0
    case PayoutClearing =>
      if ref.PayoutPending? || ref.PayoutPaidClearing? || ref.PayoutApprovedClearing? then amount
      else if ref.PayoutFailedClearing? then 0 - amount
      else 0
  }

  /** What a reference of this kind does to the wallet it is posted on. */
  function WalletEffect(ref: Ref, amount: nat): int {
    if ref.PaymentEarning? then amount
    else if ref.PayoutPaidWallet? || ref.RefundEarningWallet? then 0 - amount
    else 0
  }

  function Effect(x: Posting, t: Target): int {
    match t
    case OnAccount(a) => AccountEffect(x.ref, x.amount, a)
    case OnWallet(_) => if x.target == t then WalletEffect(x.ref, x.amount) else 0
  }

  function Statement(journal: seq<Entry>, t: Target): int {
    if journal == [] then 0
    else Statement(journal[..|journal| - 1], t) + Effect(journal[|journal| - 1].posting, t)
  }

  lemma {:induction false} TotalIsStatement(journal: seq<Entry>, t: Target)
    requires forall i :: 0 <= i < |journal| ==> Weigh(BalanceOf(t), journal[i].posting) == Effect(journal[i].posting, t)
    ensures Total(journal, BalanceOf(t)) == Statement(journal, t)
  {
    if journal != [] {
      TotalIsStatement(journal[..|journal| - 1], t);
    }
  }

  lemma RowHasItsEffect(db: Db, ref: Ref, t: Target)
    requires Inv(db) && ref in db.books.txs
    ensures Weigh(BalanceOf(t), db.books.txs[ref]) == Effect(db.books.txs[ref], t)
  {
    RowOf(db, ref);
  }

  lemma StatementAddsUp(open: Books, db: Db, t: Target)
    requires Inv(db) && LedgerOk(open, db.books)
    ensures Balance(db.books, t) == Balance(open, t) + Statement(db.books.journal, t)
  {
    assert Holds(TableMatchesJournal, open, db.books) && Holds(BalancesAddUpLaw, open, db.books);
    MatchesByIndex(db.books.txs, db.books.journal);
    forall i | 0 <= i < |db.books.journal|
      ensures Weigh(BalanceOf(t), db.books.journal[i].posting) == Effect(db.books.journal[i].posting, t)
    {
      RowHasItsEffect(db, db.books.journal[i].posting.ref, t);
    }
    TotalIsStatement(db.books.journal, t);
  }

  /** Over every run each balance is the opening one plus, signs written out in `AccountEffect` and `WalletEffect`,
      the amounts of the references posted: PAYOUT_CLEARING, for one, has the pending, paid and
      approved amounts in and the failed ones out. */
  lemma RunStatement(open: Books, db: Db, steps: seq<Step>, t: Target)
    requires Inv(db) && LedgerOk(open, db.books)
    ensures Balance(Run(db, steps).books, t) == Balance(open, t) + Statement(Run(db, steps).books.journal, t)
  {
    RunKept(db, steps);
    RunLedgerOk(open, db, steps);
    StatementAddsUp(open, Run(db, steps), t);
  }
}
