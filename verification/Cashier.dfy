/** The cashier as an object over its three tables. */
module Cashier {
  import opened Ledger

  class PostgresCashier {
    var accounts: map<string, Account>
    var entries: map<nat, Posting>
    var keys: set<string>

    ghost function View(): Tables
      reads this
    {
      Tables(accounts, entries, keys)
    }

    constructor ()
      ensures View() == EMPTY_TABLES
    {
      accounts, entries, keys := map[], map[], {};
    }

    // Answers a repeated key, or anchors a new one.
    method Anchor(user: string, key: string) returns (seen: bool, reply: Reply)
      modifies `keys
      ensures seen <==> key in old(keys)
      ensures keys == old(keys) + {key}
      ensures seen ==> keys == old(keys)
      ensures seen ==> Outcome(View(), reply) == WithIdempotency(old(View()), user, key, Failed(NoSuchRow))
    {
      seen := key in keys;
      reply := Err(NoSuchRow);
      if seen {
        assert keys + {key} == keys;
        if user in accounts {
          reply := Ok(accounts[user].gross, accounts[user].escrowed, true);
        }
      } else {
        keys := keys + {key};
      }
    }

    // Inserts or adds to a user's row.
    method Credit(user: string, gross: int, escrowed: int) returns (ok: bool)
      modifies `accounts
      ensures var a := RowOf(old(View()), user);
        var a' := Account(a.gross + gross, a.escrowed + escrowed);
        ok == RowOk(a') && accounts == if ok then old(accounts)[user := a'] else old(accounts)
    {
      var a := if user in accounts then accounts[user] else Account(0, 0);
      var a' := Account(a.gross + gross, a.escrowed + escrowed);
      ok := a'.gross >= 0 && a'.escrowed >= 0 && a'.gross >= a'.escrowed;
      if ok {
        accounts := accounts[user := a'];
      }
    }

    method Deposit(user: string, key: string, amount: int) returns (reply: Reply)
      modifies this
      ensures Outcome(View(), reply) == Ledger.Deposit(old(View()), user, key, amount)
    {
      if amount <= 0 || key == "" {
        return Err(InvalidArgument);
      }
      var before := keys;
      var seen, answer := Anchor(user, key);
      if seen {
        return answer;
      }
      var ok := Credit(user, amount, 0);
      if !ok {
        keys := before;
        return Err(ConstraintViolated);
      }
      reply := Ok(accounts[user].gross, accounts[user].escrowed, false);
    }

    method Withdraw(user: string, key: string, amount: int) returns (reply: Reply)
      modifies this
      ensures Outcome(View(), reply) == Ledger.Withdraw(old(View()), user, key, amount)
    {
      if amount <= 0 || key == "" {
        return Err(InvalidArgument);
      }
      var before := keys;
      var seen, answer := Anchor(user, key);
      if seen {
        return answer;
      }
      if user !in accounts {
        keys := before;
        return Err(UnknownUser);
      }
      if accounts[user].gross - accounts[user].escrowed < amount {
        keys := before;
        return Err(InsufficientFunds);
      }
      var ok := Credit(user, -amount, 0);
      if !ok {
        keys := before;
        return Err(ConstraintViolated);
      }
      reply := Ok(accounts[user].gross, accounts[user].escrowed, false);
    }

    method Escrow(user: string, order: nat, amount: int) returns (reply: Reply)
      modifies this
      ensures Outcome(View(), reply) == Ledger.Escrow(old(View()), user, order, amount)
    {
      if amount <= 0 {
        return Err(InvalidArgument);
      }
      if user !in accounts {
        return Err(UnknownUser);
      }
      var a, before := accounts[user], accounts;
      if a.gross - a.escrowed < amount {
        return Err(InsufficientFunds);
      }
      var ok := Credit(user, 0, amount);
      if !ok {
        return Err(ConstraintViolated);
      }
      if order in entries {
        // A repeated order id: roll back and report the current row.
        accounts := before;
        reply := CheckAvailable(user);
        return;
      }
      entries := entries[order := Posting(user, amount)];
      reply := Ok(a.gross, a.escrowed + amount, false);
    }

    method ReleaseEscrowRead(order: nat) returns (read: Read)
      ensures read == ReleaseRead(View(), order)
    {
      read := if order in entries then Found(entries[order]) else Missing;
    }

    method ReleaseEscrowCommit(order: nat, read: Posting) returns (reply: Reply)
      modifies this
      ensures Outcome(View(), reply) == ReleaseCommit(old(View()), order, read)
    {
      if order !in entries {
        return Err(UnknownEscrow);
      }
      var before := entries;
      entries := entries - {order};
      if read.user !in accounts {
        entries := before;
        return Err(NoSuchRow);
      }
      var a := accounts[read.user];
      var ok := Credit(read.user, 0, -read.amount);
      if !ok {
        entries := before;
        return Err(ConstraintViolated);
      }
      reply := Ok(a.gross, a.escrowed - read.amount, false);
    }

    method CheckAvailable(user: string) returns (reply: Reply)
      ensures reply == Ledger.CheckAvailable(View(), user)
    {
      reply := if user in accounts then Ok(accounts[user].gross, accounts[user].escrowed, false) else Ok(0, 0, false);
    }

    method DepositEscrowed(user: string, ref: string, amount: int) returns (reply: Reply)
      modifies this
      ensures Outcome(View(), reply) == Ledger.DepositEscrowed(old(View()), user, ref, amount)
    {
      if amount <= 0 || ref == "" {
        return Err(InvalidArgument);
      }
      var before := keys;
      var seen, answer := Anchor(user, ref);
      if seen {
        return answer;
      }
      var ok := Credit(user, amount, amount);
      if !ok {
        keys := before;
        return Err(ConstraintViolated);
      }
      reply := Ok(accounts[user].gross, accounts[user].escrowed, false);
    }

    method ConfirmDeposit(user: string, ref: string, amount: int) returns (reply: Reply)
      modifies this
      ensures Outcome(View(), reply) == Ledger.ConfirmDeposit(old(View()), user, ref, amount)
    {
      if amount <= 0 || ref == "" {
        return Err(InvalidArgument);
      }
      var before := keys;
      var seen, answer := Anchor(user, ConfirmKey(ref));
      if seen {
        return answer;
      }
      if user !in accounts {
        keys := before;
        return Err(UnknownUser);
      }
      var ok := Credit(user, 0, -amount);
      if !ok {
        keys := before;
        return Err(ConstraintViolated);
      }
      reply := Ok(accounts[user].gross, accounts[user].escrowed, false);
    }

    method CancelDeposit(user: string, ref: string, amount: int) returns (reply: Reply)
      modifies this
      ensures Outcome(View(), reply) == Ledger.CancelDeposit(old(View()), user, ref, amount)
    {
      if amount <= 0 || ref == "" {
        return Err(InvalidArgument);
      }
      var before := keys;
      var seen, answer := Anchor(user, CancelKey(ref));
      if seen {
        return answer;
      }
      if user !in accounts || accounts[user].escrowed < amount {
        keys := before;
        return Err(InsufficientFunds);
      }
      var ok := Credit(user, -amount, -amount);
      if !ok {
        keys := before;
        return Err(ConstraintViolated);
      }
      reply := Ok(accounts[user].gross, accounts[user].escrowed, false);
    }
  }
}
