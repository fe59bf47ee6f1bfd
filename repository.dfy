/**
 * The account repository (app/repository/accountRepository.go) over an
 * in-memory collection. Each query answers by the meaning of its N1QL text;
 * timeouts, contexts and driver failures are not part of the model.
 */
module Repository {
  import opened Wrappers
  import opened Domain
  import opened AccountStore

  class AccountRepository {
    /** The `accounts` collection: document key to stored account. */
    var docs: Docs

    ghost predicate Valid()
      reads this
    {
      WellKeyed(docs)
    }

    constructor (initial: Docs)
      requires WellKeyed(initial)
      ensures Valid() && docs == initial
    {
      docs := initial;
    }

    /** Insert the account under its id; the collection refuses a key it already holds. */
    method CreateAccount(account: Account) returns (err: Option<Error>)
      requires Valid()
      modifies this
      ensures Valid()
      ensures (err, docs) == Insert(old(docs), account)
      ensures err.None? ==> docs == old(docs)[account.id := account]
      ensures err.Some? ==> docs == old(docs)
    {
      if account.id == "" {
        err := Some(InvalidKey);
      } else if account.id in docs {
        err := Some(DocumentExists);
      } else {
        docs := docs[account.id := account];
        err := None;
      }
    }

    /**
     * Point read by document key. Only "document not found" is turned into
     * "account not found"; the store's refusal of the empty key comes back
     * unchanged.
     */
    method GetAccount(id: string) returns (r: Result<Account, Error>)
      ensures r.Success? <==> id != "" && id in docs
      ensures r.Success? ==> r.value == docs[id]
      ensures id == "" ==> r == Failure(InvalidKey)
      ensures id != "" && id !in docs ==> r == Failure(AccountNotFound)
    {
      if id != "" && id in docs {
        r := Success(docs[id]);
      } else {
        r := Failure(GetError(id));
      }
    }

    /**
     * Every stored account, newest first. The query engine's ORDER BY is
     * modelled by repeatedly taking a newest remaining document; the result
     * is appended to row by row, as the source's loop over the rows does.
     */
    method GetAllAccounts() returns (accounts: seq<Account>)
      requires Valid()
      ensures |accounts| == |docs|
      ensures forall i :: 0 <= i < |accounts| ==> accounts[i].id in docs && docs[accounts[i].id] == accounts[i]
      ensures forall k :: k in docs ==> docs[k] in accounts
      ensures forall i, j :: 0 <= i < j < |accounts| ==> accounts[i].id != accounts[j].id
      ensures NewestFirst(accounts)
    {
      accounts := [];
      var remaining := docs.Keys;
      while remaining != {}
        invariant remaining <= docs.Keys
        invariant Listed(docs, accounts, remaining)
        decreases remaining
      {
        NewestExists(docs, remaining);
        var k :| k in remaining && forall j :: j in remaining ==> docs[j].createdAt <= docs[k].createdAt;
        ListedStep(docs, accounts, remaining, k);
        accounts := accounts + [docs[k]];
        remaining := remaining - {k};
      }
      ListedDone(docs, accounts);
    }

    /**
     * `SELECT Id ... WHERE a.Iban = $iban LIMIT 1`: the id of some account with
     * that IBAN, or the empty string when there is none (not an error). With
     * several such accounts any one of them may be returned.
     */
    method FindByIban(iban: string) returns (id: string)
      requires Valid()
      ensures id != "" <==> HasIban(docs, iban)
      ensures id != "" ==> IbanOwner(docs, iban, id)
    {
      if k :| k in docs && docs[k].iban == iban {
        id := docs[k].id;
        assert IbanOwner(docs, iban, k);
      } else {
        id := "";
      }
    }

    /**
     * `SELECT Balance ... WHERE Iban = $iban LIMIT 1`, compared with the amount:
     * false when no account has the IBAN. The account read is chosen on its
     * own, so with a shared IBAN it need not be the one FindByIban returned.
     */
    method CheckAmountForFromIban(iban: string, amount: int) returns (enough: bool)
      ensures enough ==> SomeOwnerCovers(docs, iban, amount)
      ensures !enough ==> !HasIban(docs, iban) || SomeOwnerShort(docs, iban, amount)
      ensures UniqueIbans(docs) ==> (enough <==> SomeOwnerCovers(docs, iban, amount))
    {
      if k :| k in docs && docs[k].iban == iban {
        enough := docs[k].balance >= amount;
        assert IbanOwner(docs, iban, k);
      } else {
        enough := false;
      }
    }

    /**
     * Debit `fromId` and credit `toId`, one leg after the other. Each leg reads
     * its document and rewrites only its Balance field; a leg whose document is
     * missing fails without stopping the other, and its error is the one
     * reported (the debit leg's when both fail).
     */
    method TransferMoney(fromId: string, toId: string, amount: int) returns (err: Option<Error>)
      requires Valid()
      modifies this
      ensures Valid()
      ensures TransferOutcome(old(docs), fromId, toId, amount, err, docs)
    {
      var fromErr: Option<Error> := None;
      var fromAccount := GetAccount(fromId);
      if fromAccount.Failure? {
        fromErr := Some(FromAccountLookupFailed(fromAccount.error));
      } else {
        docs := docs[fromId := docs[fromId].(balance := fromAccount.value.balance - amount)];
      }

      var toErr: Option<Error> := None;
      var toAccount := GetAccount(toId);
      if toAccount.Failure? {
        toErr := Some(ToAccountLookupFailed(toAccount.error));
      } else {
        docs := docs[toId := docs[toId].(balance := toAccount.value.balance + amount)];
      }

      err := if fromErr.Some? then fromErr else toErr;
      if fromId == toId && fromId in old(docs) {
        assert docs == old(docs);
      }
    }
  }

  /**
   * Loop invariant of GetAllAccounts: `accounts` lists, newest first and
   * without repeats, exactly the documents whose keys are no longer in
   * `remaining`, and none of them is older than a remaining one.
   */
  ghost predicate Listed(docs: Docs, accounts: seq<Account>, remaining: set<string>) {
    && |accounts| + |remaining| == |docs.Keys|
    && (forall i :: 0 <= i < |accounts| ==>
          accounts[i].id in docs && docs[accounts[i].id] == accounts[i] && accounts[i].id !in remaining)
    && (forall k :: k in docs && k !in remaining ==> docs[k] in accounts)
    && (forall i, j :: 0 <= i < j < |accounts| ==> accounts[i].id != accounts[j].id)
    && NewestFirst(accounts)
    && (forall i, k :: 0 <= i < |accounts| && k in remaining && k in docs ==>
          accounts[i].createdAt >= docs[k].createdAt)
  }

  lemma ListedStep(docs: Docs, accounts: seq<Account>, remaining: set<string>, k: string)
    requires WellKeyed(docs) && remaining <= docs.Keys
    requires Listed(docs, accounts, remaining)
    requires k in remaining && forall j :: j in remaining ==> docs[j].createdAt <= docs[k].createdAt
    ensures Listed(docs, accounts + [docs[k]], remaining - {k})
  {
    var accounts', remaining' := accounts + [docs[k]], remaining - {k};
    forall k' | k' in docs && k' !in remaining'
      ensures docs[k'] in accounts'
    {
      if k' != k {
        assert docs[k'] in accounts;
      } else {
        assert accounts'[|accounts|] == docs[k'];
      }
    }
  }

  lemma ListedDone(docs: Docs, accounts: seq<Account>)
    requires Listed(docs, accounts, {})
    ensures |accounts| == |docs|
    ensures forall i :: 0 <= i < |accounts| ==> accounts[i].id in docs && docs[accounts[i].id] == accounts[i]
    ensures forall k :: k in docs ==> docs[k] in accounts
    ensures forall i, j :: 0 <= i < j < |accounts| ==> accounts[i].id != accounts[j].id
    ensures NewestFirst(accounts)
  {
    assert |docs.Keys| == |docs|;
  }
}
