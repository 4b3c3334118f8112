/** The books behind `recordAccountEvent` and `recordWalletEvent`: account and wallet
    balances, the transaction table with its unique references, the ledger entries in
    posting order and the wallet transactions. */
module Ledger {
  import opened Common

  type PaymentId = nat
  type PayoutId = nat
  type RefundId = nat
  type DriverId = nat

  datatype Account = CashClearing | CommissionRevenue | DriverPayable | PayoutClearing

  /** A row's `reference`, one constructor per string template of the source. */
  datatype Ref =
    | PaymentPending(p: PaymentId)
    | PaymentAuthorized(p: PaymentId)
    | PaymentCaptured(p: PaymentId)
    | PaymentCommission(p: PaymentId)
    | PaymentEarning(p: PaymentId)
    | PaymentPayable(p: PaymentId)
    | PayoutPending(q: PayoutId)
    | PayoutPaidWallet(q: PayoutId)
    | PayoutPaidPayable(q: PayoutId)
    | PayoutPaidClearing(q: PayoutId)
    | PayoutApprovedPayable(q: PayoutId)
    | PayoutApprovedClearing(q: PayoutId)
    | PayoutFailedPayable(q: PayoutId)
    | PayoutFailedClearing(q: PayoutId)
    | RefundProcessed(r: RefundId)
    | RefundCommission(r: RefundId)
    | RefundEarningWallet(r: RefundId)
    | RefundEarningPayable(r: RefundId)

  datatype Target = OnAccount(account: Account) | OnWallet(driver: DriverId)

  datatype Kind = Credit | Debit

  /** The input of one `recordAccountEvent` or `recordWalletEvent` call. The transaction
      row it creates and that row's only entry carry exactly these fields. */
  datatype Posting = Posting(ref: Ref, target: Target, kind: Kind, amount: nat, payment: Option<PaymentId>)

  datatype Entry = Entry(posting: Posting, balanceAfter: int)

  datatype WalletTx = WalletTx(driver: DriverId, posting: Posting, before: int, after: int)

  datatype Books = Books(
    accounts: map<Account, int>,
    wallets: map<DriverId, int>,
    txs: map<Ref, Posting>,
    journal: seq<Entry>,
    walletLog: seq<WalletTx>)

  function Signed(p: Posting): int {
    if p.kind == Debit then 0 - p.amount else p.amount
  }

  /** An account or wallet that has no row yet is created with balance 0.00. */
  function Balance(b: Books, t: Target): int {
    match t
    case OnAccount(a) => if a in b.accounts then b.accounts[a] else 0
    case OnWallet(d) => if d in b.wallets then b.wallets[d] else 0
  }

  /** One call of `recordAccountEvent` (account target) or `recordWalletEvent` (wallet target). */
  function Post(b: Books, p: Posting): Books {
    if p.ref in b.txs then b
    else
      var after := Balance(b, p.target) + Signed(p);
      var posted := b.(txs := b.txs[p.ref := p], journal := b.journal + [Entry(p, after)]);
      match p.target
      case OnAccount(a) => posted.(accounts := b.accounts[a := after])
      case OnWallet(d) =>
        posted.(wallets := b.wallets[d := after],
                walletLog := b.walletLog + [WalletTx(d, p, Balance(b, p.target), after)])
  }

  function PostAll(b: Books, ps: seq<Posting>): Books {
    if ps == [] then b else Post(PostAll(b, ps[..|ps| - 1]), ps[|ps| - 1])
  }

  // ---------------------------------------------------------------- sums over the journal

  /** What a sum over the journal adds up. */
  datatype Measure =
    | BalanceOf(target: Target)
    | NetOf(on: Target, refs: set<Ref>)
    | PaymentOn(where: Target, payment: PaymentId)
    | AllWallets
    | FailedPayable
    | ApprovedPayable
    | OneKind(ref: Ref, kind: Kind)

  function Weigh(m: Measure, p: Posting): int {
    match m
    case BalanceOf(t) => if p.target == t then Signed(p) else 0
    case NetOf(t, refs) => if p.target == t && p.ref in refs then Signed(p) else 0
    case PaymentOn(t, id) => if p.target == t && p.payment == Some(id) then Signed(p) else 0
    case AllWallets => if p.target.OnWallet? then Signed(p) else 0
    case FailedPayable => if p.ref.PayoutFailedPayable? then p.amount else 0
    case ApprovedPayable => if p.ref.PayoutApprovedPayable? then p.amount else 0
    case OneKind(r, k) => if p.ref == r && p.kind == k then p.amount else 0
  }

  function Total(journal: seq<Entry>, m: Measure): int {
    if journal == [] then 0
    else Total(journal[..|journal| - 1], m) + Weigh(m, journal[|journal| - 1].posting)
  }

  function WalletTotal(log: seq<WalletTx>, d: DriverId): int {
    if log == [] then 0
    else
      var last := log[|log| - 1];
      WalletTotal(log[..|log| - 1], d) + if last.driver == d then Signed(last.posting) else 0
  }

  lemma TotalAppend(journal: seq<Entry>, e: Entry, m: Measure)
    ensures Total(journal + [e], m) == Total(journal, m) + Weigh(m, e.posting)
  {
    assert (journal + [e])[..|journal|] == journal;
  }

  /** A measure that no entry of the list weighs anything in is zero. */
  lemma {:induction false} TotalZero(journal: seq<Entry>, m: Measure)
    requires forall i :: 0 <= i < |journal| ==> Weigh(m, journal[i].posting) == 0
    ensures Total(journal, m) == 0
  {
    if journal != [] {
      TotalZero(journal[..|journal| - 1], m);
    }
  }

  /** Two measures that weigh every entry alike have the same total. */
  lemma {:induction false} TotalAlike(journal: seq<Entry>, m: Measure, n: Measure)
    requires forall i :: 0 <= i < |journal| ==> Weigh(m, journal[i].posting) == Weigh(n, journal[i].posting)
    ensures Total(journal, m) == Total(journal, n)
  {
    if journal != [] {
      TotalAlike(journal[..|journal| - 1], m, n);
    }
  }

  /** A measure that weighs every entry as two others together has their totals together. */
  lemma {:induction false} TotalSplits(journal: seq<Entry>, m: Measure, n: Measure, o: Measure)
    requires forall i :: 0 <= i < |journal| ==>
               Weigh(m, journal[i].posting) == Weigh(n, journal[i].posting) + Weigh(o, journal[i].posting)
    ensures Total(journal, m) == Total(journal, n) + Total(journal, o)
  {
    if journal != [] {
      TotalSplits(journal[..|journal| - 1], m, n, o);
    }
  }

  /** A measure that only one entry weighs anything in is that entry's weight. */
  lemma {:induction false} TotalSingle(journal: seq<Entry>, m: Measure, k: nat)
    requires k < |journal|
    requires forall i :: 0 <= i < |journal| && i != k ==> Weigh(m, journal[i].posting) == 0
    ensures Total(journal, m) == Weigh(m, journal[k].posting)
  {
    var n := |journal| - 1;
    if k == n {
      TotalZero(journal[..n], m);
    } else {
      TotalSingle(journal[..n], m, k);
    }
  }

  // ---------------------------------------------------------------- table consistency

  /** Transaction table and journal hold the same postings, each reference exactly once. */
  ghost predicate Matches(txs: map<Ref, Posting>, journal: seq<Entry>) {
    if journal == [] then txs == map[]
    else
      var last := journal[|journal| - 1].posting;
      && last.ref in txs
      && txs[last.ref] == last
      && Matches(txs - {last.ref}, journal[..|journal| - 1])
  }

  lemma PostMatches(b: Books, p: Posting)
    requires Matches(b.txs, b.journal)
    ensures Matches(Post(b, p).txs, Post(b, p).journal)
  {
    if p.ref !in b.txs {
      var b' := Post(b, p);
      assert b'.journal[..|b.journal|] == b.journal;
      assert b'.txs - {p.ref} == b.txs;
    }
  }

  /** The journal read by position: every entry is the table's row, no two share a reference. */
  lemma {:induction false} MatchesByIndex(txs: map<Ref, Posting>, journal: seq<Entry>)
    requires Matches(txs, journal)
    ensures forall i :: 0 <= i < |journal| ==>
              journal[i].posting.ref in txs && txs[journal[i].posting.ref] == journal[i].posting
    ensures forall i, j :: 0 <= i < j < |journal| ==> journal[i].posting.ref != journal[j].posting.ref
  {
    if journal != [] {
      var n := |journal| - 1;
      MatchesByIndex(txs - {journal[n].posting.ref}, journal[..n]);
      forall i | 0 <= i < n
        ensures journal[i].posting.ref in txs && txs[journal[i].posting.ref] == journal[i].posting
        ensures journal[i].posting.ref != journal[n].posting.ref
      {
        assert journal[..n][i] == journal[i];
      }
      forall i, j | 0 <= i < j < n ensures journal[i].posting.ref != journal[j].posting.ref {
        assert journal[..n][i].posting.ref != journal[..n][j].posting.ref;
      }
    }
  }

  /** Where a posted reference stands in the journal. */
  lemma {:induction false} PositionOf(txs: map<Ref, Posting>, journal: seq<Entry>, r: Ref) returns (k: nat)
    requires Matches(txs, journal) && r in txs
    ensures k < |journal| && journal[k].posting == txs[r]
    ensures txs[r].ref == r
  {
    var n := |journal| - 1;
    if journal[n].posting.ref == r {
      k := n;
    } else {
      k := PositionOf(txs - {journal[n].posting.ref}, journal[..n], r);
    }
  }

  /** The entries of one posted reference add up to its amount on its own side, to 0 on the other. */
  lemma OnePostingTotal(b: Books, r: Ref, k: Kind)
    requires Matches(b.txs, b.journal) && r in b.txs
    ensures Total(b.journal, OneKind(r, k)) == if b.txs[r].kind == k then b.txs[r].amount else 0
  {
    MatchesByIndex(b.txs, b.journal);
    var i := PositionOf(b.txs, b.journal, r);
    forall j | 0 <= j < |b.journal| && j != i
      ensures b.journal[j].posting.ref != r
    {
      if j < i {} else {}
    }
    TotalSingle(b.journal, OneKind(r, k), i);
  }

  // ---------------------------------------------------------------- refinement

  /** Books with the given opening balances and no postings yet. */
  function Opened(accounts: map<Account, int>, wallets: map<DriverId, int>): Books {
    Books(accounts, wallets, map[], [], [])
  }

  /** Every balance is its opening balance plus the signed sum of the entries on it. */
  ghost predicate BalancesAddUp(open: Books, b: Books) {
    forall t :: Balance(b, t) == Balance(open, t) + Total(b.journal, BalanceOf(t))
  }

  /** Every entry's `balanceAfter` is the running sum at that entry. */
  ghost predicate RunningBalances(open: Books, b: Books) {
    forall i :: 0 <= i < |b.journal| ==>
      var t := b.journal[i].posting.target;
      b.journal[i].balanceAfter == Balance(open, t) + Total(b.journal[..i + 1], BalanceOf(t))
  }

  ghost predicate WalletTxOk(open: Books, log: seq<WalletTx>, i: nat)
    requires i < |log|
  {
    && log[i].before == Balance(open, OnWallet(log[i].driver)) + WalletTotal(log[..i], log[i].driver)
    && log[i].after == log[i].before + Signed(log[i].posting)
  }

  /** A wallet transaction starts where the previous one on its wallet ended. */
  ghost predicate WalletChain(open: Books, b: Books) {
    && (forall i {:trigger WalletTxOk(open, b.walletLog, i)} :: 0 <= i < |b.walletLog| ==> WalletTxOk(open, b.walletLog, i))
    && (forall d :: Balance(b, OnWallet(d)) == Balance(open, OnWallet(d)) + WalletTotal(b.walletLog, d))
  }

  /** The laws that make up a ledger in order. */
  datatype Law = TableMatchesJournal | BalancesAddUpLaw | RunningBalancesLaw | WalletChainLaw

  ghost predicate Holds(law: Law, open: Books, b: Books) {
    match law
    case TableMatchesJournal => Matches(b.txs, b.journal)
    case BalancesAddUpLaw => BalancesAddUp(open, b)
    case RunningBalancesLaw => RunningBalances(open, b)
    case WalletChainLaw => WalletChain(open, b)
  }

  ghost predicate LedgerOk(open: Books, b: Books) {
    forall law :: Holds(law, open, b)
  }

  lemma BalanceAfterPost(b: Books, p: Posting, t: Target)
    requires p.ref !in b.txs
    ensures Balance(Post(b, p), t) == Balance(b, t) + if t == p.target then Signed(p) else 0
  {
    var b', after := Post(b, p), Balance(b, p.target) + Signed(p);
    match p.target
    case OnAccount(a) => assert b'.accounts == b.accounts[a := after] && b'.wallets == b.wallets;
    case OnWallet(d) => assert b'.wallets == b.wallets[d := after] && b'.accounts == b.accounts;
  }

  /** One posting moves the balance it targets by the signed amount, and the journal sum with it. */
  lemma PostBalance(b: Books, p: Posting, t: Target)
    ensures Balance(Post(b, p), t) == Balance(b, t) + Total(Post(b, p).journal, BalanceOf(t)) - Total(b.journal, BalanceOf(t))
  {
    if p.ref !in b.txs {
      TotalAppend(b.journal, Entry(p, Balance(b, p.target) + Signed(p)), BalanceOf(t));
      BalanceAfterPost(b, p, t);
    }
  }

  lemma PostBalancesAddUp(open: Books, b: Books, p: Posting)
    requires BalancesAddUp(open, b)
    ensures BalancesAddUp(open, Post(b, p))
  {
    forall t ensures Balance(Post(b, p), t) == Balance(open, t) + Total(Post(b, p).journal, BalanceOf(t)) {
      PostBalance(b, p, t);
    }
  }

  lemma PostRunningBalances(open: Books, b: Books, p: Posting)
    requires BalancesAddUp(open, b) && RunningBalances(open, b)
    ensures RunningBalances(open, Post(b, p))
  {
    if p.ref !in b.txs {
      var b' := Post(b, p);
      var n := |b.journal|;
      PostBalancesAddUp(open, b, p);
      forall i | 0 <= i < |b'.journal|
        ensures var t := b'.journal[i].posting.target;
                b'.journal[i].balanceAfter == Balance(open, t) + Total(b'.journal[..i + 1], BalanceOf(t))
      {
        if i < n {
          assert b'.journal[..i + 1] == b.journal[..i + 1];
        } else {
          assert b'.journal[..i + 1] == b'.journal;
        }
      }
    }
  }

  lemma PostWalletChain(open: Books, b: Books, p: Posting)
    requires WalletChain(open, b)
    ensures WalletChain(open, Post(b, p))
  {
    if p.ref !in b.txs && p.target.OnWallet? {
      var d := p.target.driver;
      var log, log' := b.walletLog, Post(b, p).walletLog;
      assert log'[..|log|] == log;
      assert Balance(b, OnWallet(d)) == Balance(open, OnWallet(d)) + WalletTotal(log, d);
      forall i | 0 <= i < |log'| ensures WalletTxOk(open, log', i) {
        if i < |log| {
          assert log'[..i] == log[..i] && log'[i] == log[i] && WalletTxOk(open, log, i);
        }
      }
    }
  }

  lemma PostLedgerOk(open: Books, b: Books, p: Posting)
    requires LedgerOk(open, b)
    ensures LedgerOk(open, Post(b, p))
  {
    forall law ensures Holds(law, open, Post(b, p)) {
      assert Holds(law, open, b) && Holds(BalancesAddUpLaw, open, b);
      match law
      case TableMatchesJournal => PostMatches(b, p);
      case BalancesAddUpLaw => PostBalancesAddUp(open, b, p);
      case RunningBalancesLaw => PostRunningBalances(open, b, p);
      case WalletChainLaw => PostWalletChain(open, b, p);
    }
  }

  /** Ledger refinement: from any books that add up, any list of postings keeps them adding up. */
  lemma {:induction false} PostAllLedgerOk(open: Books, b: Books, ps: seq<Posting>)
    requires LedgerOk(open, b)
    ensures LedgerOk(open, PostAll(b, ps))
  {
    if ps != [] {
      PostAllLedgerOk(open, b, ps[..|ps| - 1]);
      PostLedgerOk(open, PostAll(b, ps[..|ps| - 1]), ps[|ps| - 1]);
    }
  }

  /** Consecutive transactions of one wallet meet: the later one's `before` is the earlier one's `after`. */
  lemma {:induction false} WalletTotalSkips(log: seq<WalletTx>, i: nat, j: nat, d: DriverId)
    requires i <= j <= |log|
    requires forall k :: i <= k < j ==> log[k].driver != d
    ensures WalletTotal(log[..j], d) == WalletTotal(log[..i], d)
  {
    if i < j {
      assert log[..j][..j - 1] == log[..j - 1];
      WalletTotalSkips(log, i, j - 1, d);
    }
  }

  lemma WalletTransactionsMeet(open: Books, b: Books, i: nat, j: nat)
    requires WalletChain(open, b)
    requires i < j < |b.walletLog| && b.walletLog[i].driver == b.walletLog[j].driver
    requires forall k :: i < k < j ==> b.walletLog[k].driver != b.walletLog[i].driver
    ensures b.walletLog[j].before == b.walletLog[i].after
  {
    var d := b.walletLog[i].driver;
    assert WalletTxOk(open, b.walletLog, i) && WalletTxOk(open, b.walletLog, j);
    WalletTotalSkips(b.walletLog, i + 1, j, d);
    assert b.walletLog[..i + 1][..i] == b.walletLog[..i];
  }

  // ---------------------------------------------------------------- what PostAll does

  /** References already in the table, or earlier in the list, are skipped; rows are never rewritten. */
  lemma {:induction false} PostAllTable(b: Books, ps: seq<Posting>)
    ensures forall r :: r in PostAll(b, ps).txs <==> r in b.txs || exists i :: 0 <= i < |ps| && ps[i].ref == r
    ensures forall r :: r in b.txs ==> PostAll(b, ps).txs[r] == b.txs[r]
    ensures forall r :: r in PostAll(b, ps).txs && r !in b.txs ==> PostAll(b, ps).txs[r] in ps && PostAll(b, ps).txs[r].ref == r
  {
    if ps != [] {
      var front, last := ps[..|ps| - 1], ps[|ps| - 1];
      PostAllTable(b, front);
      forall r ensures r in PostAll(b, ps).txs <==> r in b.txs || exists i :: 0 <= i < |ps| && ps[i].ref == r {
        if i :| 0 <= i < |front| && front[i].ref == r {
          assert ps[i].ref == r;
        }
        if i :| 0 <= i < |ps| && ps[i].ref == r && i != |front| {
          assert front[i].ref == r;
        }
      }
    }
  }

  lemma {:induction false} PostAllKeeps(b: Books, ps: seq<Posting>, r: Ref)
    requires r in b.txs
    ensures r in PostAll(b, ps).txs && PostAll(b, ps).txs[r] == b.txs[r]
  {
    if ps != [] {
      PostAllKeeps(b, ps[..|ps| - 1], r);
    }
  }

  /** Posting a list whose references are all in the table changes nothing. */
  lemma {:induction false} PostAllKnown(b: Books, ps: seq<Posting>)
    requires forall i :: 0 <= i < |ps| ==> ps[i].ref in b.txs
    ensures PostAll(b, ps) == b
  {
    if ps != [] {
      PostAllKnown(b, ps[..|ps| - 1]);
    }
  }

  /** Replaying any list of postings, in any later order, changes nothing. */
  lemma ReplayChangesNothing(b: Books, ps: seq<Posting>, replay: seq<Posting>)
    requires forall p :: p in replay ==> p in ps
    ensures PostAll(PostAll(b, ps), replay) == PostAll(b, ps)
  {
    PostAllTable(b, ps);
    forall i | 0 <= i < |replay| ensures replay[i].ref in PostAll(b, ps).txs {
      assert replay[i] in ps;
      var k :| 0 <= k < |ps| && ps[k] == replay[i];
      assert ps[k].ref == replay[i].ref;
    }
    PostAllKnown(PostAll(b, ps), replay);
  }

  lemma PostTwo(b: Books, x: Posting, y: Posting)
    ensures PostAll(b, [x, y]) == Post(Post(b, x), y)
  {
    assert [x, y][..1] == [x] && [x][..0] == [];
    assert PostAll(b, [x]) == Post(PostAll(b, []), x);
  }

  lemma PostThree(b: Books, x: Posting, y: Posting, z: Posting)
    ensures PostAll(b, [x, y, z]) == Post(Post(Post(b, x), y), z)
  {
    assert [x, y, z][..2] == [x, y];
    PostTwo(b, x, y);
  }

  // ---------------------------------------------------------------- sum of all wallets

  ghost function SumWallets(wallets: map<DriverId, int>): int {
    if wallets == map[] then 0
    else
      var d :| d in wallets;
      wallets[d] + SumWallets(wallets - {d})
  }

  lemma {:induction false} SumWalletsRemove(wallets: map<DriverId, int>, d: DriverId)
    requires d in wallets
    ensures SumWallets(wallets) == wallets[d] + SumWallets(wallets - {d})
  {
    var c :| c in wallets && SumWallets(wallets) == wallets[c] + SumWallets(wallets - {c});
    if c != d {
      SumWalletsRemove(wallets - {c}, d);
      SumWalletsRemove(wallets - {d}, c);
      assert wallets - {c} - {d} == wallets - {d} - {c};
    }
  }

  lemma SumWalletsUpdate(wallets: map<DriverId, int>, d: DriverId, v: int)
    ensures SumWallets(wallets[d := v]) == SumWallets(wallets) - (if d in wallets then wallets[d] else 0) + v
  {
    SumWalletsRemove(wallets[d := v], d);
    assert wallets[d := v] - {d} == wallets - {d};
    if d in wallets {
      SumWalletsRemove(wallets, d);
    } else {
      assert wallets - {d} == wallets;
    }
  }

  /** One posting moves the sum of all wallets by its wallet weight. */
  lemma PostSumWallets(b: Books, p: Posting)
    ensures SumWallets(Post(b, p).wallets) ==
            SumWallets(b.wallets) + if p.ref in b.txs then 0 else Weigh(AllWallets, p)
  {
    if p.ref !in b.txs && p.target.OnWallet? {
      SumWalletsUpdate(b.wallets, p.target.driver, Balance(b, p.target) + Signed(p));
    }
  }
}
