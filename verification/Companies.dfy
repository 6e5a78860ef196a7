/** server/src/modules/companies: the balances of an agency and the updates made to them. */
module Companies {
  import opened Wrappers

  type CompanyId = nat

  /** Amounts are in minor units (fils or cents). */
  datatype Company = Company(creditLimit: int, walletBalance: int, outstandingBalance: int, loyaltyPoints: int) {
    /** How much more the agency may spend. */
    function Available(): int {
      creditLimit + walletBalance - outstandingBalance
    }
  }

  type Accounts = map<CompanyId, Company>

  datatype Error = NotFound | AmountNotPositive | InsufficientCredit | InsufficientWallet | NegativeLimit

  datatype Result<+T> = Ok(value: T) | Err(error: Error)

  // ── What each update does to the stored accounts ─────────────────────────────

  /** Conditional `$inc` of outstandingBalance; None when it is refused. */
  function Deduct(accounts: Accounts, id: CompanyId, amount: int): Option<Accounts> {
    if amount <= 0 || id !in accounts || accounts[id].Available() < amount then None
    else Some(AddOutstanding(accounts, id, amount))
  }

  /** Unconditional `$inc` of outstandingBalance; an unknown company is left alone. */
  function AddOutstanding(accounts: Accounts, id: CompanyId, amount: int): Accounts {
    if id !in accounts then accounts
    else
      var c := accounts[id];
      accounts[id := c.(outstandingBalance := c.outstandingBalance + amount)]
  }

  /**
    A deduct is accepted exactly when the amount is positive and limit plus wallet less debt covers it;
    it then raises the debt of that company by the amount and touches nothing else.
  */
  lemma DeductExactly(accounts: Accounts, id: CompanyId, amount: int)
    ensures Deduct(accounts, id, amount).Some? <==>
      && amount > 0 && id in accounts
      && accounts[id].creditLimit + accounts[id].walletBalance - accounts[id].outstandingBalance >= amount
    ensures Deduct(accounts, id, amount).Some? ==> DebtMoved(accounts, Deduct(accounts, id, amount).value, id, amount)
  {
  }

  /** The debt of one company has grown by the amount; its other balances and all other companies are as before. */
  predicate DebtMoved(was: Accounts, now: Accounts, id: CompanyId, amount: int) {
    && now.Keys == was.Keys
    && (forall c :: c in was && c != id ==> now[c] == was[c])
    && (id in was ==>
          && now[id].outstandingBalance - was[id].outstandingBalance == amount
          && now[id].creditLimit == was[id].creditLimit && now[id].walletBalance == was[id].walletBalance
          && now[id].loyaltyPoints == was[id].loyaltyPoints)
  }

  lemma AddedExactly(accounts: Accounts, id: CompanyId, amount: int)
    ensures DebtMoved(accounts, AddOutstanding(accounts, id, amount), id, amount)
  {
  }

  /** creditBack undoes a deduct of the same amount; adding nothing changes nothing. */
  lemma BackAgain(accounts: Accounts, id: CompanyId, amount: int)
    ensures AddOutstanding(AddOutstanding(accounts, id, amount), id, -amount) == accounts
    ensures AddOutstanding(accounts, id, 0) == accounts
  {
  }

  /** Any write of walletBalance. */
  function SetWallet(accounts: Accounts, id: CompanyId, balance: int): Accounts {
    if id !in accounts then accounts else accounts[id := accounts[id].(walletBalance := balance)]
  }

  function AddWallet(accounts: Accounts, id: CompanyId, amount: int): Accounts {
    if id !in accounts then accounts else SetWallet(accounts, id, accounts[id].walletBalance + amount)
  }

  function SetLimit(accounts: Accounts, id: CompanyId, limit: int): Accounts {
    if id !in accounts then accounts else accounts[id := accounts[id].(creditLimit := limit)]
  }

  function AddPoints(accounts: Accounts, id: CompanyId, points: int): Accounts {
    if id !in accounts then accounts
    else
      var c := accounts[id];
      accounts[id := c.(loyaltyPoints := c.loyaltyPoints + points)]
  }

  // ── The service ──────────────────────────────────────────────────────────────

  class CompaniesService {
    var accounts: Accounts

    constructor (accounts: Accounts)
      ensures this.accounts == accounts
    {
      this.accounts := accounts;
    }

    method AtomicDeductCredit(id: CompanyId, amount: int) returns (r: Result<()>)
      modifies this
      ensures r.Ok? <==> Deduct(old(accounts), id, amount).Some?
      ensures accounts == if r.Ok? then Deduct(old(accounts), id, amount).value else old(accounts)
      ensures r.Ok? ==> id in accounts && accounts[id].Available() == old(accounts[id].Available()) - amount >= 0
      ensures r.Ok? <==>
        && amount > 0 && id in old(accounts)
        && old(accounts)[id].creditLimit + old(accounts)[id].walletBalance - old(accounts)[id].outstandingBalance >= amount
      ensures DebtMoved(old(accounts), accounts, id, if r.Ok? then amount else 0)
      ensures r.Err? ==> r.error == if amount <= 0 then AmountNotPositive else InsufficientCredit
    {
      if amount <= 0 {
        return Err(AmountNotPositive);
      }
      if id in accounts {
        var c := accounts[id];
        if c.creditLimit + c.walletBalance - c.outstandingBalance >= amount {
          accounts := accounts[id := c.(outstandingBalance := c.outstandingBalance + amount)];
          return Ok(());
        }
      }
      return Err(InsufficientCredit);
    }

    method CreditBack(id: CompanyId, amount: int)
      modifies this
      ensures accounts == AddOutstanding(old(accounts), id, -amount)
      ensures id in old(accounts) ==>
        accounts == old(accounts)[id := old(accounts)[id].(outstandingBalance := old(accounts)[id].outstandingBalance - amount)]
      ensures id !in old(accounts) ==> accounts == old(accounts)
    {
      if id in accounts {
        var c := accounts[id];
        accounts := accounts[id := c.(outstandingBalance := c.outstandingBalance - amount)];
      }
    }

    method TopUpWallet(id: CompanyId, amount: int)
      modifies this
      ensures accounts == AddWallet(old(accounts), id, amount)
      ensures id in old(accounts) ==>
        accounts == old(accounts)[id := old(accounts)[id].(walletBalance := old(accounts)[id].walletBalance + amount)]
      ensures id !in old(accounts) ==> accounts == old(accounts)
    {
      if id in accounts {
        var c := accounts[id];
        accounts := accounts[id := c.(walletBalance := c.walletBalance + amount)];
      }
    }

    /** Guarded `$inc`: the wallet is reduced only when it covers the amount. */
    method DeductWallet(id: CompanyId, amount: int) returns (r: Result<()>)
      modifies this
      ensures r.Ok? <==> id in old(accounts) && old(accounts)[id].walletBalance >= amount
      ensures accounts == if r.Ok? then AddWallet(old(accounts), id, -amount) else old(accounts)
      ensures r.Ok? ==>
        accounts == old(accounts)[id := old(accounts)[id].(walletBalance := old(accounts)[id].walletBalance - amount)]
      ensures r.Err? ==> r.error == InsufficientWallet
    {
      if id in accounts && accounts[id].walletBalance >= amount {
        var c := accounts[id];
        accounts := accounts[id := c.(walletBalance := c.walletBalance - amount)];
        return Ok(());
      }
      return Err(InsufficientWallet);
    }

    method UpdateCreditLimit(id: CompanyId, limit: int) returns (r: Result<()>)
      modifies this
      ensures r.Ok? <==> limit >= 0
      ensures accounts ==
        if r.Ok? && id in old(accounts) then old(accounts)[id := old(accounts)[id].(creditLimit := limit)] else old(accounts)
    {
      if limit < 0 {
        return Err(NegativeLimit);
      }
      if id in accounts {
        accounts := accounts[id := accounts[id].(creditLimit := limit)];
      }
      return Ok(());
    }

    method GetAvailableCredit(id: CompanyId) returns (r: Result<int>)
      ensures r.Ok? <==> id in accounts
      ensures r.Ok? ==>
        var available := accounts[id].creditLimit + accounts[id].walletBalance - accounts[id].outstandingBalance;
        r.value >= 0 && r.value >= available && (r.value == 0 || r.value == available)
    {
      if id !in accounts {
        return Err(NotFound);
      }
      var available := accounts[id].Available();
      return Ok(if available < 0 then 0 else available);
    }
  }
}
