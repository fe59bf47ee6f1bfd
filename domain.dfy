/**
 * The records of the bank (domain/account.go, domain/user.go) and the
 * errors the account path can return.
 */
module Domain {

  /** An instant (Go's time.Time); only equality and order are ever used. */
  type Time = int

  newtype int32 = x: int | -0x8000_0000 <= x < 0x8000_0000

  /**
   * A stored account. The balance is a float64 in the source; here it is an
   * exact integer amount (no rounding is modelled).
   */
  datatype Account = Account(
    id: string,
    currency: string,
    iban: string,
    balance: int,
    createdAt: Time,
    updatedAt: Time,
    userId: string)

  datatype User = User(
    id: string,
    firstName: string,
    lastName: string,
    email: string,
    password: string,
    age: int32,
    createdAt: Time,
    updatedAt: Time)

  /** The errors of the account path, with the text the source gives them. */
  datatype Error =
    | AccountNotFound
    | DocumentExists
    | InvalidKey
    | FromAccountLookupFailed(cause: Error)
    | ToAccountLookupFailed(cause: Error)
    | FromIbanDoesNotExist
    | ToIbanDoesNotExist
    | BalanceNotEnough
  {
    function Message(): string {
      match this
      case AccountNotFound => "account not found"
      case DocumentExists => "document exists"
      case InvalidKey => "invalid argument"
      case FromAccountLookupFailed(cause) => "failed to get from account: " + cause.Message()
      case ToAccountLookupFailed(cause) => "failed to get to account: " + cause.Message()
      case FromIbanDoesNotExist => "from iban does not exist"
      case ToIbanDoesNotExist => "to iban does not exist"
      case BalanceNotEnough => "balance is not enough"
    }
  }

  /**
   * The text of an error identifies it: two errors have the same message only
   * if they are the same error, wrapped causes included.
   */
  lemma {:induction false} MessageIdentifies(e: Error, f: Error)
    ensures e.Message() == f.Message() <==> e == f
  {
    if e != f {
      MessageLength(e);
      MessageLength(f);
      match e
      case FromAccountLookupFailed(c) =>
        if f.FromAccountLookupFailed? {
          MessageIdentifies(c, f.cause);
          assert e.Message()[28..] == c.Message();
          assert f.Message()[28..] == f.cause.Message();
        } else if f.ToAccountLookupFailed? {
          assert e.Message()[14] != f.Message()[14];
        }
      case ToAccountLookupFailed(c) =>
        if f.ToAccountLookupFailed? {
          MessageIdentifies(c, f.cause);
          assert e.Message()[26..] == c.Message();
          assert f.Message()[26..] == f.cause.Message();
        } else if f.FromAccountLookupFailed? {
          assert e.Message()[14] != f.Message()[14];
        }
      case _ =>
    }
  }

  /** A wrapped error's message is longer than any unwrapped one's. */
  lemma MessageLength(e: Error)
    ensures e.FromAccountLookupFailed? || e.ToAccountLookupFailed? ==> |e.Message()| > 26
    ensures !(e.FromAccountLookupFailed? || e.ToAccountLookupFailed?) ==> |e.Message()| <= 24
  {
  }
}
