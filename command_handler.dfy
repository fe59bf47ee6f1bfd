/**
 * The account command handler (app/services/account/command/commandHandler.go):
 * opening an account, the transfer chain (resolve the from-IBAN, resolve the
 * to-IBAN, check the balance, transfer) and the queue consumer that feeds
 * transfer requests to it.
 */
module AccountCommand {
  import opened Wrappers
  import opened Domain
  import opened AccountStore
  import opened Repository
  import opened Iban

  /** Request to open an account. */
  datatype Command = Command(currency: string, userId: string)

  /** Request to move `amount` from the account with `fromIban` to the one with `toIban`. */
  datatype TransferMoneyCommand = TransferMoneyCommand(amount: int, fromIban: string, toIban: string)

  /** How the consumer dealt with one delivery. */
  datatype Handling =
    | Skipped                        // the body did not parse
    | Handled(err: Option<Error>)    // TransferMoney ran and returned err

  /**
   * A fresh account: zero balance, the given IBAN, currency and owner from the
   * command; `id` stands for uuid.New(), and `createdAt` and `updatedAt` for
   * the two separate calls of time.Now(), which need not agree.
   */
  function BuildEntity(command: Command, iban: string, id: string, createdAt: Time, updatedAt: Time): (account: Account)
    ensures account.balance == 0 && account.iban == iban
    ensures account.currency == command.currency && account.userId == command.userId
    ensures account.id == id && account.createdAt == createdAt && account.updatedAt == updatedAt
  {
    Account(id, command.currency, iban, 0, createdAt, updatedAt, command.userId)
  }

  /**
   * The outcomes of the handler's TransferMoney from store `docs`: the three
   * checks in order, each with its own error and no change to the store, and
   * otherwise one repository transfer between an account holding the
   * from-IBAN and one holding the to-IBAN, whose outcome is passed on.
   */
  ghost predicate HandledTransfer(docs: Docs, command: TransferMoneyCommand, err: Option<Error>, docs': Docs) {
    if !HasIban(docs, command.fromIban) then
      err == Some(FromIbanDoesNotExist) && docs' == docs
    else if !HasIban(docs, command.toIban) then
      err == Some(ToIbanDoesNotExist) && docs' == docs
    else if err == Some(BalanceNotEnough) then
      docs' == docs && SomeOwnerShort(docs, command.fromIban, command.amount)
    else
      && SomeOwnerCovers(docs, command.fromIban, command.amount)
      && exists fromId, toId ::
           && IbanOwner(docs, command.fromIban, fromId)
           && IbanOwner(docs, command.toIban, toId)
           && TransferOutcome(docs, fromId, toId, command.amount, err, docs')
  }

  /** One delivery: an unparsable one is skipped, a parsed one is handled as a transfer. */
  ghost predicate ConsumedStep(docs: Docs, delivery: Option<TransferMoneyCommand>, handling: Handling, docs': Docs) {
    match delivery
    case None => handling == Skipped && docs' == docs
    case Some(command) => handling.Handled? && HandledTransfer(docs, command, handling.err, docs')
  }

  /** Deliveries consumed in order, `trace[i]` being the store before delivery i. */
  ghost predicate ConsumedRun(deliveries: seq<Option<TransferMoneyCommand>>, handled: seq<Handling>, trace: seq<Docs>) {
    && |handled| == |deliveries|
    && |trace| == |deliveries| + 1
    && forall i :: 0 <= i < |deliveries| ==> ConsumedStep(trace[i], deliveries[i], handled[i], trace[i + 1])
  }

  class CommandHandler {
    const accounts: AccountRepository
    const ibans: IbanService

    ghost predicate Valid()
      reads this, accounts
    {
      accounts.Valid()
    }

    constructor (accounts: AccountRepository, ibans: IbanService)
      requires accounts.Valid()
      ensures Valid() && this.accounts == accounts && this.ibans == ibans
    {
      this.accounts := accounts;
      this.ibans := ibans;
    }

    /** Open an account with a fresh "TR" IBAN; the store's refusal is returned as it is. */
    method Save(command: Command, id: string, createdAt: Time, updatedAt: Time) returns (err: Option<Error>)
      requires Valid()
      modifies accounts, ibans
      ensures Valid()
      ensures (err, accounts.docs)
           == Insert(old(accounts.docs), BuildEntity(command, IbanFrom(ibans.source, old(ibans.pos), "TR", 5, 16), id, createdAt, updatedAt))
      ensures ibans.pos == old(ibans.pos) + 23
    {
      var iban := ibans.GenerateIBAN("TR", 5, 16);
      var newAccount := BuildEntity(command, iban, id, createdAt, updatedAt);
      err := accounts.CreateAccount(newAccount);
    }

    method TransferMoney(command: TransferMoneyCommand) returns (err: Option<Error>)
      requires Valid()
      modifies accounts
      ensures Valid()
      ensures HandledTransfer(old(accounts.docs), command, err, accounts.docs)
    {
      var fromId := accounts.FindByIban(command.fromIban);
      if |fromId| == 0 {
        return Some(FromIbanDoesNotExist);
      }
      var toId := accounts.FindByIban(command.toIban);
      if |toId| == 0 {
        return Some(ToIbanDoesNotExist);
      }
      var isBalanceEnough := accounts.CheckAmountForFromIban(command.fromIban, command.amount);
      if !isBalanceEnough {
        return Some(BalanceNotEnough);
      }
      err := accounts.TransferMoney(fromId, toId, command.amount);
    }

    /**
     * The consumer loop over the deliveries of the queue, in order: a body that
     * does not parse is skipped, and a failed transfer is logged and does not
     * stop the loop.
     */
    method TransferMoneyWithRabbitMQConsumer(deliveries: seq<Option<TransferMoneyCommand>>)
      returns (handled: seq<Handling>, ghost trace: seq<Docs>)
      requires Valid()
      modifies accounts
      ensures Valid()
      ensures ConsumedRun(deliveries, handled, trace)
      ensures trace[0] == old(accounts.docs) && trace[|deliveries|] == accounts.docs
    {
      handled, trace := [], [accounts.docs];
      for n := 0 to |deliveries|
        invariant Valid()
        invariant |handled| == n && |trace| == n + 1
        invariant trace[0] == old(accounts.docs) && trace[n] == accounts.docs
        invariant forall i :: 0 <= i < n ==> ConsumedStep(trace[i], deliveries[i], handled[i], trace[i + 1])
      {
        match deliveries[n] {
          case None =>
            handled := handled + [Skipped];
          case Some(transferReq) =>
            var err := TransferMoney(transferReq);
            handled := handled + [Handled(err)];
        }
        trace := trace + [accounts.docs];
      }
    }
  }

  // ---------------------------------------------------------------------
  // Lemmas

  /**
   * The checks come in order, each failure names its step, and the store
   * changes only when all three pass.
   */
  lemma HandlerChecksInOrder(docs: Docs, command: TransferMoneyCommand, err: Option<Error>, docs': Docs)
    requires HandledTransfer(docs, command, err, docs')
    ensures err == Some(FromIbanDoesNotExist) <==> !HasIban(docs, command.fromIban)
    ensures err == Some(ToIbanDoesNotExist) <==> HasIban(docs, command.fromIban) && !HasIban(docs, command.toIban)
    ensures err == Some(BalanceNotEnough) ==>
      HasIban(docs, command.fromIban) && HasIban(docs, command.toIban) && SomeOwnerShort(docs, command.fromIban, command.amount)
    ensures err.None? <==> HasIban(docs, command.fromIban) && HasIban(docs, command.toIban) && err != Some(BalanceNotEnough)
    ensures err.None? ==> SomeOwnerCovers(docs, command.fromIban, command.amount)
    ensures err.Some? ==> docs' == docs
  {
    if HasIban(docs, command.fromIban) && HasIban(docs, command.toIban) && err != Some(BalanceNotEnough) {
      var fromId, toId :| IbanOwner(docs, command.fromIban, fromId) && IbanOwner(docs, command.toIban, toId)
                          && TransferOutcome(docs, fromId, toId, command.amount, err, docs');
    }
  }

  /** The handler keeps every document under its own key. */
  lemma HandlerKeepsWellKeyed(docs: Docs, command: TransferMoneyCommand, err: Option<Error>, docs': Docs)
    requires WellKeyed(docs)
    requires HandledTransfer(docs, command, err, docs')
    ensures WellKeyed(docs')
  {
    HandlerChecksInOrder(docs, command, err, docs');
    if err.None? {
      var fromId, toId :| IbanOwner(docs, command.fromIban, fromId) && IbanOwner(docs, command.toIban, toId)
                          && TransferOutcome(docs, fromId, toId, command.amount, err, docs');
      if fromId == toId {
        SelfTransferTotal(docs, fromId, command.amount, err, docs');
      } else {
        TransferKeepsTotal(docs, fromId, toId, command.amount, err, docs');
      }
    }
  }

  /** Between two different IBANs the handler neither creates nor destroys money. */
  lemma HandlerKeepsTotal(docs: Docs, command: TransferMoneyCommand, err: Option<Error>, docs': Docs)
    requires WellKeyed(docs)
    requires command.fromIban != command.toIban
    requires HandledTransfer(docs, command, err, docs')
    ensures Total(docs') == Total(docs)
  {
    HandlerChecksInOrder(docs, command, err, docs');
    if err.None? {
      var fromId, toId :| IbanOwner(docs, command.fromIban, fromId) && IbanOwner(docs, command.toIban, toId)
                          && TransferOutcome(docs, fromId, toId, command.amount, err, docs');
      TransferKeepsTotal(docs, fromId, toId, command.amount, err, docs');
    }
  }

  /**
   * When IBANs are unique the outcome is determined: the balance check is
   * made on the account that is debited, and a transfer that passes it
   * debits that account and credits the other by the amount.
   */
  lemma HandlerWithUniqueIbans(docs: Docs, command: TransferMoneyCommand, err: Option<Error>, docs': Docs,
                               fromId: string, toId: string)
    requires UniqueIbans(docs)
    requires IbanOwner(docs, command.fromIban, fromId) && IbanOwner(docs, command.toIban, toId)
    requires fromId != toId
    requires HandledTransfer(docs, command, err, docs')
    ensures err == Some(BalanceNotEnough) <==> docs[fromId].balance < command.amount
    ensures err == None <==> docs[fromId].balance >= command.amount
    ensures err == None ==> docs' == CreditLeg(DebitLeg(docs, fromId, command.amount), toId, command.amount)
  {
    HandlerChecksInOrder(docs, command, err, docs');
    if err == Some(BalanceNotEnough) {
      var k :| IbanOwner(docs, command.fromIban, k) && docs[k].balance < command.amount;
      assert k == fromId;
    } else {
      var k :| IbanOwner(docs, command.fromIban, k) && docs[k].balance >= command.amount;
      assert k == fromId;
      var f, t :| IbanOwner(docs, command.fromIban, f) && IbanOwner(docs, command.toIban, t)
                  && TransferOutcome(docs, f, t, command.amount, err, docs');
      assert f == fromId && t == toId;
    }
  }

  /**
   * With unique IBANs and a non-negative amount no balance is driven below
   * zero, even when both IBANs are the same.
   */
  lemma HandlerKeepsNonNegative(docs: Docs, command: TransferMoneyCommand, err: Option<Error>, docs': Docs)
    requires UniqueIbans(docs) && NonNegative(docs) && command.amount >= 0
    requires HandledTransfer(docs, command, err, docs')
    ensures NonNegative(docs')
  {
    HandlerChecksInOrder(docs, command, err, docs');
    if err.None? {
      var k :| IbanOwner(docs, command.fromIban, k) && docs[k].balance >= command.amount;
      var fromId, toId :| IbanOwner(docs, command.fromIban, fromId) && IbanOwner(docs, command.toIban, toId)
                          && TransferOutcome(docs, fromId, toId, command.amount, err, docs');
      assert k == fromId;
    }
  }

  /**
   * Without unique IBANs the balance check and the debit may look at two
   * different accounts: here the check reads the account holding 100 and the
   * empty account with the same IBAN is debited to -50.
   */
  lemma SharedIbanCanOverdraw()
    ensures var docs := map[
              "a" := Account("a", "TRY", "X", 0, 0, 0, "u"),
              "b" := Account("b", "TRY", "X", 100, 0, 0, "u"),
              "c" := Account("c", "TRY", "Y", 0, 0, 0, "u")];
      && WellKeyed(docs) && NonNegative(docs)
      && exists docs' :: HandledTransfer(docs, TransferMoneyCommand(50, "X", "Y"), None, docs') && !NonNegative(docs')
  {
    var docs := map[
      "a" := Account("a", "TRY", "X", 0, 0, 0, "u"),
      "b" := Account("b", "TRY", "X", 100, 0, 0, "u"),
      "c" := Account("c", "TRY", "Y", 0, 0, 0, "u")];
    var command := TransferMoneyCommand(50, "X", "Y");
    var docs' := CreditLeg(DebitLeg(docs, "a", 50), "c", 50);
    assert IbanOwner(docs, "X", "a") && IbanOwner(docs, "X", "b") && IbanOwner(docs, "Y", "c");
    assert TransferOutcome(docs, "a", "c", 50, None, docs');
    assert HandledTransfer(docs, command, None, docs');
    assert docs'["a"].balance == -50;
  }

  /**
   * The amount's sign is never checked: a negative amount passes the balance
   * check and moves money from the to-account to the from-account.
   */
  lemma NegativeAmountMovesMoneyBack(docs: Docs, command: TransferMoneyCommand, err: Option<Error>, docs': Docs,
                                     fromId: string, toId: string)
    requires UniqueIbans(docs)
    requires IbanOwner(docs, command.fromIban, fromId) && IbanOwner(docs, command.toIban, toId)
    requires fromId != toId && docs[fromId].balance >= 0 && command.amount < 0
    requires HandledTransfer(docs, command, err, docs')
    ensures err == None
    ensures docs'[fromId].balance > docs[fromId].balance && docs'[toId].balance < docs[toId].balance
  {
    HandlerWithUniqueIbans(docs, command, err, docs', fromId, toId);
  }

  /**
   * Self-transfer is not rejected, and the two racing legs may leave the
   * account credited: one permitted outcome adds `amount` to the total.
   */
  lemma SelfTransferMayCreateMoney(docs: Docs, command: TransferMoneyCommand, id: string)
    requires IbanOwner(docs, command.fromIban, id) && command.toIban == command.fromIban
    requires docs[id].balance >= command.amount
    ensures exists docs' :: HandledTransfer(docs, command, None, docs') && Total(docs') == Total(docs) + command.amount
  {
    var docs' := SelfTransferCredited(docs, command, id);
    TotalWithBalance(docs, id, docs[id].balance + command.amount);
  }

  /** The outcome in which the credit leg writes last is one the handler allows. */
  lemma SelfTransferCredited(docs: Docs, command: TransferMoneyCommand, id: string) returns (docs': Docs)
    requires IbanOwner(docs, command.fromIban, id) && command.toIban == command.fromIban
    requires docs[id].balance >= command.amount
    ensures docs' == WithBalance(docs, id, docs[id].balance + command.amount)
    ensures HandledTransfer(docs, command, None, docs')
  {
    docs' := WithBalance(docs, id, docs[id].balance + command.amount);
    assert HasIban(docs, command.fromIban) && HasIban(docs, command.toIban) by {
      assert IbanOwner(docs, command.fromIban, id) && IbanOwner(docs, command.toIban, id);
    }
    assert SomeOwnerCovers(docs, command.fromIban, command.amount) by {
      assert IbanOwner(docs, command.fromIban, id) && docs[id].balance >= command.amount;
    }
    assert TransferOutcome(docs, id, id, command.amount, None, docs') by {
      assert RacedSelfTransfer(docs, id, command.amount, docs');
    }
  }

  /** Opening an account adds one zero-balance record and so leaves the total unchanged. */
  lemma NewAccountAddsNoMoney(docs: Docs, command: Command, iban: string, id: string, createdAt: Time, updatedAt: Time)
    requires WellKeyed(docs)
    ensures var (err, docs') := Insert(docs, BuildEntity(command, iban, id, createdAt, updatedAt));
      && WellKeyed(docs')
      && (err.None? ==> docs'[id].balance == 0 && docs'[id].iban == iban && docs' - {id} == docs)
      && Total(docs') == Total(docs)
  {
    var (err, docs') := Insert(docs, BuildEntity(command, iban, id, createdAt, updatedAt));
    if err.None? {
      TotalExcept(docs', id);
      assert docs' - {id} == docs;
    }
  }

  /**
   * Consuming a run of deliveries keeps every document under its key, and,
   * when no parsed request names the same IBAN on both sides, the total.
   */
  lemma {:induction false} ConsumedRunKeepsTotal(deliveries: seq<Option<TransferMoneyCommand>>,
                                                 handled: seq<Handling>, trace: seq<Docs>)
    requires ConsumedRun(deliveries, handled, trace) && WellKeyed(trace[0])
    requires forall i :: 0 <= i < |deliveries| && deliveries[i].Some? ==>
      deliveries[i].value.fromIban != deliveries[i].value.toIban
    ensures WellKeyed(trace[|deliveries|]) && Total(trace[|deliveries|]) == Total(trace[0])
    decreases |deliveries|
  {
    var n := |deliveries|;
    if n > 0 {
      ConsumedRunKeepsTotal(deliveries[..n - 1], handled[..n - 1], trace[..n]);
      assert ConsumedStep(trace[n - 1], deliveries[n - 1], handled[n - 1], trace[n]);
      if deliveries[n - 1].Some? {
        HandlerKeepsWellKeyed(trace[n - 1], deliveries[n - 1].value, handled[n - 1].err, trace[n]);
        HandlerKeepsTotal(trace[n - 1], deliveries[n - 1].value, handled[n - 1].err, trace[n]);
      }
    }
  }

  /**
   * Only successful transfers change the store: a run in which every delivery
   * was skipped or failed leaves it as it was.
   */
  lemma {:induction false} FailedRunLeavesStore(deliveries: seq<Option<TransferMoneyCommand>>,
                                                handled: seq<Handling>, trace: seq<Docs>)
    requires ConsumedRun(deliveries, handled, trace)
    requires forall i :: 0 <= i < |handled| ==> handled[i] != Handled(None)
    ensures trace[|deliveries|] == trace[0]
    decreases |deliveries|
  {
    var n := |deliveries|;
    if n > 0 {
      FailedRunLeavesStore(deliveries[..n - 1], handled[..n - 1], trace[..n]);
      assert ConsumedStep(trace[n - 1], deliveries[n - 1], handled[n - 1], trace[n]);
      if deliveries[n - 1].Some? {
        HandlerChecksInOrder(trace[n - 1], deliveries[n - 1].value, handled[n - 1].err, trace[n]);
      }
    }
  }
}
