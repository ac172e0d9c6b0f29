/** The settlement token, as far as the protocol uses it: balances, and a transfer that fails when
    the sender is short of funds. */
module Token {
  import opened Base
  import InsuranceSteps

  class Contract {
    var wallets: map<Address, int>

    constructor (wallets: map<Address, int>)
      ensures this.wallets == wallets
    {
      this.wallets := wallets;
    }

    method Transfer(from: Address, to: Address, amount: int) returns (ok: bool)
      modifies this
      ensures ok <==> InsuranceSteps.Transfer(old(wallets), from, to, amount).Some?
      ensures ok ==> Some(wallets) == InsuranceSteps.Transfer(old(wallets), from, to, amount)
      ensures !ok ==> wallets == old(wallets)
    {
      if amount < 0 || GetOr(wallets, from, 0) < amount { return false; }
      wallets := wallets[from := GetOr(wallets, from, 0) - amount];
      wallets := wallets[to := GetOr(wallets, to, 0) + amount];
      return true;
    }
  }
}
