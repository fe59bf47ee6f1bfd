/**
 * What the `accounts` collection means: a map from document key to stored
 * account, and what each repository operation does to it. The repository
 * class (Repository.AccountRepository) is proved against these definitions.
 */
module AccountStore {
  import opened Wrappers
  import opened Domain

  type Docs = map<string, Account>

  /** Every document sits under a non-empty key equal to its own id. */
  ghost predicate WellKeyed(docs: Docs) {
    forall k :: k in docs ==> k != "" && docs[k].id == k
  }

  /** Document insertion: refuses the empty key and a key already present. */
  function Insert(docs: Docs, account: Account): (Option<Error>, Docs) {
    if account.id == "" then (Some(InvalidKey), docs)
    else if account.id in docs then (Some(DocumentExists), docs)
    else (None, docs[account.id := account])
  }

  /**
   * The error a point read of an absent key gets: the store refuses the empty
   * key as an invalid argument before looking it up; any other absent key is
   * reported as "account not found".
   */
  function GetError(id: string): Error {
    if id == "" then InvalidKey else AccountNotFound
  }

  ghost predicate IbanOwner(docs: Docs, iban: string, id: string) {
    id in docs && docs[id].iban == iban
  }

  ghost predicate HasIban(docs: Docs, iban: string) {
    exists id :: IbanOwner(docs, iban, id)
  }

  /** Some account with this IBAN holds at least `amount`. */
  ghost predicate SomeOwnerCovers(docs: Docs, iban: string, amount: int) {
    exists id :: IbanOwner(docs, iban, id) && docs[id].balance >= amount
  }

  /** Some account with this IBAN holds less than `amount`. */
  ghost predicate SomeOwnerShort(docs: Docs, iban: string, amount: int) {
    exists id :: IbanOwner(docs, iban, id) && docs[id].balance < amount
  }

  /** No two stored accounts share an IBAN (the store does not enforce this). */
  ghost predicate UniqueIbans(docs: Docs) {
    forall j, k :: j in docs && k in docs && docs[j].iban == docs[k].iban ==> j == k
  }

  ghost predicate NonNegative(docs: Docs) {
    forall k :: k in docs ==> docs[k].balance >= 0
  }

  /** Replace the balance field of one document, leaving its other fields alone. */
  function WithBalance(docs: Docs, id: string, balance: int): Docs
    requires id in docs
  {
    docs[id := docs[id].(balance := balance)]
  }

  /** One goroutine of TransferMoney: read the document, write back balance - amount. */
  function DebitLeg(docs: Docs, id: string, amount: int): Docs {
    if id in docs then WithBalance(docs, id, docs[id].balance - amount) else docs
  }

  /** The other goroutine: read the document, write back balance + amount. */
  function CreditLeg(docs: Docs, id: string, amount: int): Docs {
    if id in docs then WithBalance(docs, id, docs[id].balance + amount) else docs
  }

  /**
   * The states two racing legs on one document can leave behind: each leg
   * reads and then writes, so the last writer may or may not have seen the
   * other's write.
   */
  ghost predicate RacedSelfTransfer(docs: Docs, id: string, amount: int, docs': Docs) {
    if id !in docs then docs' == docs
    else
      || docs' == WithBalance(docs, id, docs[id].balance - amount)
      || docs' == docs
      || docs' == WithBalance(docs, id, docs[id].balance + amount)
  }

  /**
   * The outcomes repository TransferMoney may have: each leg fails alone when
   * its document is missing, the error reported is that of a failing leg, and
   * a leg whose document exists is applied whatever the other leg does. A
   * failing leg wraps the point read's error (GetError); the empty key is
   * never stored (WellKeyed), so it always fails that way.
   */
  ghost predicate TransferOutcome(docs: Docs, fromId: string, toId: string, amount: int,
                                  err: Option<Error>, docs': Docs)
  {
    && (err.None? <==> fromId in docs && toId in docs)
    && (err.Some? ==>
          || (fromId !in docs && err.value == FromAccountLookupFailed(GetError(fromId)))
          || (toId !in docs && err.value == ToAccountLookupFailed(GetError(toId))))
    && if fromId != toId then docs' == CreditLeg(DebitLeg(docs, fromId, amount), toId, amount)
       else RacedSelfTransfer(docs, fromId, amount, docs')
  }

  /** The sum of all balances in the store. */
  ghost function Total(docs: Docs): int
    decreases docs.Keys
  {
    if docs == map[] then 0
    else
      var k :| k in docs;
      docs[k].balance + Total(docs - {k})
  }

  /** Store order of GetAllAccounts: newest CreatedAt first. */
  ghost predicate NewestFirst(accounts: seq<Account>) {
    forall i, j :: 0 <= i < j < |accounts| ==> accounts[i].createdAt >= accounts[j].createdAt
  }

  // ---------------------------------------------------------------------
  // Lemmas

  /** A successful insert makes the account readable under its id, and changes nothing else. */
  lemma InsertThenLookup(docs: Docs, account: Account)
    requires WellKeyed(docs)
    ensures var (err, docs') := Insert(docs, account);
      && (err == None <==> account.id != "" && account.id !in docs)
      && (err == Some(DocumentExists) <==> account.id != "" && account.id in docs)
      && (err == Some(InvalidKey) <==> account.id == "")
      && (err.None? ==> account.id in docs' && docs'[account.id] == account)
      && (err.Some? ==> docs' == docs)
      && (forall k :: k != account.id ==> (k in docs' <==> k in docs) && (k in docs ==> docs'[k] == docs[k]))
      && WellKeyed(docs')
  {
  }

  /** Removing one document from the sum removes exactly its balance. */
  lemma {:induction false} TotalExcept(docs: Docs, id: string)
    requires id in docs
    ensures Total(docs) == docs[id].balance + Total(docs - {id})
    decreases docs.Keys
  {
    var k :| k in docs && Total(docs) == docs[k].balance + Total(docs - {k});
    if k != id {
      var rest := docs - {k};
      TotalExcept(rest, id);
      TotalExcept(docs - {id}, k);
      assert rest - {id} == (docs - {id}) - {k};
    }
  }

  /** Rewriting one balance changes the sum by exactly the difference. */
  lemma TotalWithBalance(docs: Docs, id: string, balance: int)
    requires id in docs
    ensures Total(WithBalance(docs, id, balance)) == Total(docs) - docs[id].balance + balance
  {
    var docs' := WithBalance(docs, id, balance);
    TotalExcept(docs, id);
    TotalExcept(docs', id);
    assert docs' - {id} == docs - {id};
  }

  /**
   * For two distinct stored ids the transfer succeeds, debits one balance and
   * credits the other by the amount, and touches nothing else; it does not
   * check the amount, so the debited balance goes negative exactly when it
   * was below the amount.
   */
  lemma TransferDistinct(docs: Docs, fromId: string, toId: string, amount: int,
                         err: Option<Error>, docs': Docs)
    requires fromId != toId && fromId in docs && toId in docs
    requires TransferOutcome(docs, fromId, toId, amount, err, docs')
    ensures err == None
    ensures docs'.Keys == docs.Keys
    ensures docs'[fromId] == docs[fromId].(balance := docs[fromId].balance - amount)
    ensures docs'[toId] == docs[toId].(balance := docs[toId].balance + amount)
    ensures docs'[fromId].balance + docs'[toId].balance == docs[fromId].balance + docs[toId].balance
    ensures docs'[fromId].balance < 0 <==> docs[fromId].balance < amount
    ensures forall k :: k in docs && k != fromId && k != toId ==> docs'[k] == docs[k]
  {
  }

  /**
   * A missing id makes the transfer fail with that leg's error, wrapping
   * "invalid argument" for the empty id and "account not found" otherwise,
   * and the leg whose document exists is still applied.
   */
  lemma TransferMissing(docs: Docs, fromId: string, toId: string, amount: int,
                        err: Option<Error>, docs': Docs)
    requires fromId != toId && (fromId !in docs || toId !in docs)
    requires TransferOutcome(docs, fromId, toId, amount, err, docs')
    ensures err.Some?
    ensures fromId !in docs && toId in docs ==>
      err == Some(FromAccountLookupFailed(GetError(fromId))) && docs' == CreditLeg(docs, toId, amount)
    ensures fromId in docs && toId !in docs ==>
      err == Some(ToAccountLookupFailed(GetError(toId))) && docs' == DebitLeg(docs, fromId, amount)
    ensures fromId !in docs && toId !in docs ==> docs' == docs
  {
  }

  /** A transfer between distinct ids keeps both the key invariant and the sum of all balances. */
  lemma TransferKeepsTotal(docs: Docs, fromId: string, toId: string, amount: int,
                           err: Option<Error>, docs': Docs)
    requires WellKeyed(docs)
    requires fromId != toId
    requires TransferOutcome(docs, fromId, toId, amount, err, docs')
    ensures WellKeyed(docs')
    ensures fromId in docs && toId in docs ==> Total(docs') == Total(docs)
  {
    var mid := DebitLeg(docs, fromId, amount);
    if fromId in docs {
      TotalWithBalance(docs, fromId, docs[fromId].balance - amount);
    }
    if toId in mid {
      TotalWithBalance(mid, toId, mid[toId].balance + amount);
    }
  }

  /**
   * A transfer of an account to itself can end with the balance lowered,
   * unchanged or raised by the amount: the sum of all balances changes by
   * one of -amount, 0 or +amount.
   */
  lemma SelfTransferTotal(docs: Docs, id: string, amount: int, err: Option<Error>, docs': Docs)
    requires WellKeyed(docs)
    requires TransferOutcome(docs, id, id, amount, err, docs')
    ensures WellKeyed(docs')
    ensures Total(docs') == Total(docs) - amount || Total(docs') == Total(docs)
         || Total(docs') == Total(docs) + amount
  {
    if id in docs {
      TotalWithBalance(docs, id, docs[id].balance - amount);
      TotalWithBalance(docs, id, docs[id].balance + amount);
    }
  }

  /** A non-empty set of stored keys has one whose account was created last. */
  lemma {:induction false} NewestExists(docs: Docs, keys: set<string>)
    requires keys != {} && keys <= docs.Keys
    ensures exists k :: k in keys && forall j :: j in keys ==> docs[j].createdAt <= docs[k].createdAt
    decreases keys
  {
    var k :| k in keys;
    if keys != {k} {
      var rest := keys - {k};
      NewestExists(docs, rest);
      var m :| m in rest && forall j :: j in rest ==> docs[j].createdAt <= docs[m].createdAt;
      if docs[m].createdAt < docs[k].createdAt {
        assert forall j :: j in keys ==> docs[j].createdAt <= docs[k].createdAt;
      } else {
        assert forall j :: j in keys ==> docs[j].createdAt <= docs[m].createdAt;
      }
    }
  }
}
