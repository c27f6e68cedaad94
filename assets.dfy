/** All accounts of the ledger: the real accounts, found by account number,
    and the virtual (external) accounts, which collect the opposites of the
    transactions their filters take. */
module Assets {
  import opened Transactions
  import opened Accounts
  import opened Classification
  import opened Report

  /** The settings of one external account. */
  datatype ExternalAccount = ExternalAccount(name: string, counterpartyIncludes: Option<string>, messageIncludes: Option<string>)

  /** The transactions of the accounts, account after account. */
  function AllOf(accs: seq<Account>): seq<Transaction>
    reads set a | a in accs
  {
    if accs == [] then []
    else
      var n := |accs| - 1;
      AllOf(accs[..n]) + accs[n].transactions
  }

  lemma {:induction false} AllOfMembers(accs: seq<Account>)
    ensures forall t :: t in AllOf(accs) <==> exists a :: a in accs && t in a.transactions
  {
    if accs != [] {
      var n := |accs| - 1;
      AllOfMembers(accs[..n]);
      assert accs == accs[..n] + [accs[n]];
      forall t | t in AllOf(accs) ensures exists a :: a in accs && t in a.transactions {
        if t !in accs[n].transactions {
          assert t in AllOf(accs[..n]);
          var a :| a in accs[..n] && t in a.transactions;
          assert a in accs;
        }
      }
      forall t | exists a :: a in accs && t in a.transactions ensures t in AllOf(accs) {
        var a :| a in accs && t in a.transactions;
        if a != accs[n] {
          assert a in accs[..n];
        }
      }
    }
  }

  /** The account names, in account order. */
  function Names(accs: seq<Account>): (r: seq<string>)
    ensures |r| == |accs| && forall j :: 0 <= j < |accs| ==> r[j] == accs[j].name
  {
    seq(|accs|, j requires 0 <= j < |accs| => accs[j].name)
  }

  /** The balance series, in account order. */
  function Series(accs: seq<Account>): (r: seq<seq<BalanceEntry>>)
    reads set a | a in accs
    ensures |r| == |accs| && forall j :: 0 <= j < |accs| ==> r[j] == accs[j].balances
  {
    seq(|accs|, j requires 0 <= j < |accs| reads accs => accs[j].balances)
  }

  /** Offers every transaction of the batch to one virtual account, in order. */
  method OfferBatch(account: Account, batch: seq<Transaction>)
    modifies account`transactions
    ensures account.transactions == MirrorAll(old(account.transactions), account.counterpartyIncludes, account.messageIncludes, batch)
  {
    for i := 0 to |batch|
      invariant account.transactions == MirrorAll(old(account.transactions), account.counterpartyIncludes, account.messageIncludes, batch[..i])
    {
      assert batch[..i + 1][..i] == batch[..i];
      account.AddTransactionIfIncluded(batch[i]);
    }
    assert batch[..|batch|] == batch;
  }

  /** The loop of the ledger's merge that offers the batch to every virtual
      account in turn. */
  method OfferToAll(virtuals: seq<Account>, batch: seq<Transaction>)
    requires forall j, k :: 0 <= j < k < |virtuals| ==> virtuals[j] != virtuals[k]
    modifies (set a | a in virtuals)`transactions
    ensures forall v :: 0 <= v < |virtuals| ==>
              virtuals[v].transactions ==
                MirrorAll(old(virtuals[v].transactions), virtuals[v].counterpartyIncludes, virtuals[v].messageIncludes, batch)
  {
    for v := 0 to |virtuals|
      invariant forall w :: 0 <= w < v ==>
                  virtuals[w].transactions ==
                    MirrorAll(old(virtuals[w].transactions), virtuals[w].counterpartyIncludes, virtuals[w].messageIncludes, batch)
      invariant forall w :: v <= w < |virtuals| ==> virtuals[w].transactions == old(virtuals[w].transactions)
    {
      label Before:
      OfferBatch(virtuals[v], batch);
      forall w | 0 <= w < |virtuals| && w != v ensures virtuals[w].transactions == old@Before(virtuals[w].transactions) {
        assert virtuals[w] != virtuals[v];
      }
    }
  }

  /** The balances of the accounts calculated in turn, stopping at the first
      account that fails; the accounts after it are left as they were. */
  method CalculateAll(all: seq<Account>) returns (ok: bool)
    requires forall j, k :: 0 <= j < k < |all| ==> all[j] != all[k]
    modifies (set a | a in all)`transactions, (set a | a in all)`dayChanges, (set a | a in all)`balances
    ensures ok <==> forall j :: 0 <= j < |all| ==> CanBalance(old(all[j].transactions), all[j].initBalanceDate)
    ensures ok ==> forall j :: 0 <= j < |all| ==>
                     all[j].transactions == SortByDateDesc(old(all[j].transactions)) &&
                     Bucketed(all[j]) &&
                     IsBalanceSeries(all[j].initBalance, all[j].initBalanceDate, old(all[j].transactions), all[j].balances)
    ensures !ok ==> exists f :: 0 <= f < |all| &&
                      StoppedAt(all, old(TransactionLists(all)), old(Series(all)), old(ChangeLists(all)), f)
  {
    ghost var before := TransactionLists(all);
    ghost var balancesBefore := Series(all);
    ghost var changesBefore := ChangeLists(all);
    for k := 0 to |all|
      invariant forall j :: 0 <= j < k ==> Balanced(all[j], before[j])
      invariant forall j :: k <= j < |all| ==>
                  all[j].transactions == before[j] && all[j].balances == balancesBefore[j] &&
                  all[j].dayChanges == changesBefore[j]
    {
      label Before:
      var done := all[k].CalculateBalances();
      forall j | 0 <= j < |all| && j != k
        ensures all[j].transactions == old@Before(all[j].transactions)
        ensures all[j].balances == old@Before(all[j].balances)
        ensures all[j].dayChanges == old@Before(all[j].dayChanges)
      {
        assert all[j] != all[k];
      }
      if !done {
        assert !CanBalance(before[k], all[k].initBalanceDate);
        assert StoppedAt(all, before, balancesBefore, changesBefore, k);
        return false;
      }
      assert Balanced(all[k], before[k]);
    }
    return true;
  }

  /** The stored day buckets are those of the stored list: the day buckets of
      a non-empty list, the single undated zero bucket of an empty one. */
  ghost predicate Bucketed(a: Account)
    reads a
  {
    (|a.transactions| > 0 ==> IsDayBuckets(a.transactions, a.dayChanges)) &&
    (a.transactions == [] ==> a.dayChanges == [DayChange(None, 0)])
  }

  /** The state after the calculation stopped at account f, given each
      account's transactions, balances and day buckets before it started:
      the accounts before f are balanced, f could not be balanced and holds
      its sorted list, its day buckets and no balances, and the accounts
      after f are as they were. */
  ghost predicate StoppedAt(all: seq<Account>, txs: seq<seq<Transaction>>, balances: seq<seq<BalanceEntry>>,
                            changes: seq<seq<DayChange>>, f: int)
    reads set a | a in all
  {
    && |txs| == |all| && |balances| == |all| && |changes| == |all| && 0 <= f < |all|
    && (forall j :: 0 <= j < f ==> Balanced(all[j], txs[j]))
    && !CanBalance(txs[f], all[f].initBalanceDate)
    && all[f].transactions == SortByDateDesc(txs[f]) && Bucketed(all[f]) && all[f].balances == []
    && (forall j :: f < j < |all| ==>
          all[j].transactions == txs[j] && all[j].balances == balances[j] && all[j].dayChanges == changes[j])
  }

  /** The day buckets of the accounts, in account order. */
  function ChangeLists(accs: seq<Account>): (r: seq<seq<DayChange>>)
    reads set a | a in accs
    ensures |r| == |accs| && forall j :: 0 <= j < |accs| ==> r[j] == accs[j].dayChanges
  {
    seq(|accs|, j requires 0 <= j < |accs| reads accs => accs[j].dayChanges)
  }

  /** The transaction lists of the accounts, in account order. */
  function TransactionLists(accs: seq<Account>): (r: seq<seq<Transaction>>)
    reads set a | a in accs
    ensures |r| == |accs| && forall j :: 0 <= j < |accs| ==> r[j] == accs[j].transactions
  {
    seq(|accs|, j requires 0 <= j < |accs| reads accs => accs[j].transactions)
  }

  /** Two lists of distinct objects with no object in common concatenate to a
      list of distinct objects. */
  lemma {:induction false} ConcatDistinct(xs: seq<Account>, ys: seq<Account>)
    ensures (forall j, k :: 0 <= j < k < |xs| ==> xs[j] != xs[k]) &&
            (forall j, k :: 0 <= j < k < |ys| ==> ys[j] != ys[k]) &&
            (forall j, k :: 0 <= j < |xs| && 0 <= k < |ys| ==> xs[j] != ys[k])
            ==> forall j, k :: 0 <= j < k < |xs + ys| ==> (xs + ys)[j] != (xs + ys)[k]
  {
    var all := xs + ys;
    if (forall j, k :: 0 <= j < k < |xs| ==> xs[j] != xs[k]) &&
       (forall j, k :: 0 <= j < k < |ys| ==> ys[j] != ys[k]) &&
       (forall j, k :: 0 <= j < |xs| && 0 <= k < |ys| ==> xs[j] != ys[k]) {
      forall j, k | 0 <= j < k < |all| ensures all[j] != all[k] {
        if k < |xs| {
          assert all[j] == xs[j] && all[k] == xs[k];
        } else if j < |xs| {
          assert all[j] == xs[j] && all[k] == ys[k - |xs|];
        } else {
          assert all[j] == ys[j - |xs|] && all[k] == ys[k - |xs|];
        }
      }
    }
  }

  /** The account holds the sorted list, its day buckets and the balance
      series of the transactions it held before. */
  ghost predicate Balanced(a: Account, before: seq<Transaction>)
    reads a
  {
    a.transactions == SortByDateDesc(before) && CanBalance(before, a.initBalanceDate) && Bucketed(a) &&
    IsBalanceSeries(a.initBalance, a.initBalanceDate, before, a.balances)
  }

  class Assets {
    /** The real accounts, in the order their account numbers were first seen;
        a new account number is appended at the end. */
    var accounts: seq<Account>
    var virtualAccounts: seq<Account>
    /** The configured reference balances by account number or name. */
    const balanceSettings: map<string, int>
    /** The classification table, in the order the settings list it. */
    const classifications: seq<Rule>
    /** The reference day of every account created here. */
    const balanceDate: Day

    /** Every account is a separate object, and no two real accounts share an
        account number. */
    ghost predicate Valid()
      reads this
    {
      && (forall j, k :: 0 <= j < k < |accounts| ==> accounts[j] != accounts[k])
      && (forall j, k :: 0 <= j < k < |virtualAccounts| ==> virtualAccounts[j] != virtualAccounts[k])
      && (forall j, k :: 0 <= j < |accounts| && 0 <= k < |virtualAccounts| ==> accounts[j] != virtualAccounts[k])
      && (forall j, k :: 0 <= j < k < |accounts| ==> accounts[j].accountNumber != accounts[k].accountNumber)
    }

    ghost function Objects(): set<Account>
      reads this
    {
      set a | a in accounts + virtualAccounts
    }

    /** The settings file's contents come in as parameters: reading it is
        not part of the model. */
    constructor (balanceSettings: map<string, int>, classifications: seq<Rule>, balanceDate: Day)
      ensures Valid()
      ensures accounts == [] && virtualAccounts == []
      ensures this.balanceSettings == balanceSettings && this.classifications == classifications
      ensures this.balanceDate == balanceDate
    {
      accounts := [];
      virtualAccounts := [];
      this.balanceSettings := balanceSettings;
      this.classifications := classifications;
      this.balanceDate := balanceDate;
    }

    /** The real accounts first, then the virtual ones. In a valid state no
        account is listed twice, and the real accounts have distinct numbers. */
    function GetAccounts(): (r: seq<Account>)
      reads this
      ensures |r| == |accounts| + |virtualAccounts|
      ensures r[..|accounts|] == accounts && r[|accounts|..] == virtualAccounts
      ensures Valid() ==> forall j, k :: 0 <= j < k < |r| ==> r[j] != r[k]
      ensures Valid() ==> forall j, k :: 0 <= j < k < |accounts| ==> r[j].accountNumber != r[k].accountNumber
    {
      ConcatDistinct(accounts, virtualAccounts);
      accounts + virtualAccounts
    }

    /** A freshly created real account for the number holding the batch. */
    ghost predicate IsNewAccount(a: Account, number: string, batch: seq<Transaction>)
      reads a
    {
      a.accountNumber == number && a.name == number && a.transactions == batch &&
      a.initBalance == Get(balanceSettings, number) && a.initBalanceDate == balanceDate &&
      a.counterpartyIncludes == None && a.messageIncludes == None
    }

    /** Merges the batch into the real account with that number, creating
        the account when there is none, and then offers the whole batch, not
        only its new part, to every virtual account. */
    method AddTransactions(batch: seq<Transaction>, number: string)
      requires Valid()
      modifies this`accounts, Objects()`transactions
      ensures Valid()
      ensures virtualAccounts == old(virtualAccounts)
      ensures |old(accounts)| <= |accounts| <= |old(accounts)| + 1 && accounts[..|old(accounts)|] == old(accounts)
      ensures forall k :: 0 <= k < |old(accounts)| ==>
                accounts[k].transactions ==
                  if accounts[k].accountNumber == number
                  then old(accounts[k].transactions) + Unseen(old(accounts[k].transactions), batch)
                  else old(accounts[k].transactions)
      ensures |accounts| == |old(accounts)| + 1 <==> forall k :: 0 <= k < |old(accounts)| ==> old(accounts[k]).accountNumber != number
      ensures |accounts| == |old(accounts)| + 1 ==> fresh(accounts[|accounts| - 1]) && IsNewAccount(accounts[|accounts| - 1], number, batch)
      ensures forall v :: 0 <= v < |virtualAccounts| ==>
                virtualAccounts[v].transactions ==
                  MirrorAll(old(virtualAccounts[v].transactions), virtualAccounts[v].counterpartyIncludes, virtualAccounts[v].messageIncludes, batch)
    {
      if k :| 0 <= k < |accounts| && accounts[k].accountNumber == number {
        accounts[k].AddTransactions(batch);
      } else {
        var account := new Account(number, number, batch, Get(balanceSettings, number), balanceDate);
        UnseenOfEmpty(batch);
        accounts := accounts + [account];
      }
      label Merged:
      forall k | 0 <= k < |accounts| ensures accounts[k] !in virtualAccounts {
        if k < |old(accounts)| {
          assert accounts[k] == old(accounts)[k];
        }
      }
      OfferToAll(virtualAccounts, batch);
    }

    /** A virtual account as the settings describe it. */
    ghost predicate IsExternalAccount(a: Account, e: ExternalAccount)
      reads a
    {
      a.accountNumber == e.name && a.name == e.name && a.transactions == [] &&
      e.name in balanceSettings && a.initBalance == balanceSettings[e.name] && a.initBalanceDate == balanceDate &&
      a.counterpartyIncludes == e.counterpartyIncludes && a.messageIncludes == e.messageIncludes
    }

    /** One virtual account per configured external account, with its
        filters; its reference balance must be configured. */
    method AddExternalAccounts(externals: seq<ExternalAccount>)
      requires Valid()
      requires forall e :: e in externals ==> e.name in balanceSettings
      modifies this`virtualAccounts
      ensures Valid()
      ensures |virtualAccounts| == |old(virtualAccounts)| + |externals|
      ensures virtualAccounts[..|old(virtualAccounts)|] == old(virtualAccounts)
      ensures forall j :: |old(virtualAccounts)| <= j < |virtualAccounts| ==>
                fresh(virtualAccounts[j]) && IsExternalAccount(virtualAccounts[j], externals[j - |old(virtualAccounts)|])
    {
      for i := 0 to |externals|
        invariant Valid()
        invariant |virtualAccounts| == |old(virtualAccounts)| + i
        invariant virtualAccounts[..|old(virtualAccounts)|] == old(virtualAccounts)
        invariant forall j :: |old(virtualAccounts)| <= j < |virtualAccounts| ==>
                    fresh(virtualAccounts[j]) && IsExternalAccount(virtualAccounts[j], externals[j - |old(virtualAccounts)|])
      {
        var e := externals[i];
        assert e in externals;
        var account := new Account(e.name, e.name, [], balanceSettings[e.name], balanceDate);
        account.counterpartyIncludes := e.counterpartyIncludes;
        account.messageIncludes := e.messageIncludes;
        virtualAccounts := virtualAccounts + [account];
      }
    }

    /** Every account's transactions, real accounts first. */
    method GetAllTransactions() returns (txs: seq<Transaction>)
      ensures txs == AllOf(GetAccounts())
      ensures forall t :: t in txs <==> exists a :: a in GetAccounts() && t in a.transactions
    {
      var all := GetAccounts();
      txs := [];
      for k := 0 to |all|
        invariant txs == AllOf(all[..k])
      {
        assert all[..k + 1][..k] == all[..k];
        txs := txs + all[k].transactions;
      }
      assert all[..|all|] == all;
      AllOfMembers(all);
    }

    /** The sums per category of the transactions of every account booked in
        [start, end). */
    method ClassifyTransactions(start: int, end: int) returns (classified: map<string, int>)
      ensures classified == Tally(classifications, InPeriodOnly(start, end, AllOf(GetAccounts())))
      ensures forall k :: k in classified <==>
                exists t :: t in AllOf(GetAccounts()) && InPeriod(start, end, t) && Classified(classifications, t.counterparty) == k
      ensures forall k :: k in classified ==>
                classified[k] == SumLabelled(classifications, InPeriodOnly(start, end, AllOf(GetAccounts())), k)
    {
      var all := GetAllTransactions();
      classified := ClassifyPeriod(classifications, all, start, end);
      TallyMeaning(classifications, InPeriodOnly(start, end, all));
    }

    /** Calculates the balances of every account in turn and stops at the
        first account that fails; the accounts after it are left as they
        were. */
    method CalculateBalances() returns (ok: bool)
      requires Valid()
      modifies Objects()`transactions, Objects()`dayChanges, Objects()`balances
      ensures ok <==> forall j :: 0 <= j < |GetAccounts()| ==>
                        CanBalance(old(GetAccounts()[j].transactions), GetAccounts()[j].initBalanceDate)
      ensures ok ==> forall j :: 0 <= j < |GetAccounts()| ==>
                       var a := GetAccounts()[j];
                       a.transactions == SortByDateDesc(old(a.transactions)) && Bucketed(a) &&
                       IsBalanceSeries(a.initBalance, a.initBalanceDate, old(a.transactions), a.balances)
      ensures !ok ==> exists f :: 0 <= f < |GetAccounts()| &&
                        StoppedAt(GetAccounts(), old(TransactionLists(GetAccounts())), old(Series(GetAccounts())),
                                  old(ChangeLists(GetAccounts())), f)
    {
      var all := GetAccounts();
      ok := CalculateAll(all);
    }

    /** The balance matrix over every account. The account names must be
        distinct, as they key the dictionary of last amounts. */
    method BalanceReport() returns (matrix: seq<seq<Cell>>)
      requires DistinctNames(Names(GetAccounts()))
      requires |GetAccounts()| > 0 ==> |GetAccounts()[0].balances| > 0
      ensures IsBalanceMatrix(Names(GetAccounts()), Series(GetAccounts()), matrix)
    {
      var names, series := Names(GetAccounts()), Series(GetAccounts());
      matrix := BalanceTable(names, series);
    }

    /** The spending matrix over every account, for the months delimited by
        the given boundaries, newest first. */
    method SpendingReport(months: seq<Day>) returns (targets: seq<string>, matrix: seq<seq<Cell>>)
      ensures IsSpendingTable(classifications, AllOf(GetAccounts()), months, targets, matrix)
    {
      var all := GetAllTransactions();
      targets, matrix := SpendingTable(classifications, all, months);
    }
  }
}
