/** The account view returned by the HTTP layer (app/controllers/account/response/account.go). */
module AccountResponses {
  import opened Domain

  datatype AccountResponse = AccountResponse(
    id: string,
    currency: string,
    iban: string,
    balance: int,
    userId: string,
    createdAt: Time,
    updatedAt: Time)

  /** Field-by-field copy of a stored account. */
  function ToAccountResponse(account: Account): AccountResponse {
    AccountResponse(account.id, account.currency, account.iban, account.balance,
                    account.userId, account.createdAt, account.updatedAt)
  }

  /** The list view, built by appending one response per account; empty input gives []. */
  method ToAccountResponseList(accounts: seq<Account>) returns (response: seq<AccountResponse>)
    ensures |response| == |accounts|
    ensures forall i :: 0 <= i < |accounts| ==> response[i] == ToAccountResponse(accounts[i])
  {
    response := [];
    for n := 0 to |accounts|
      invariant |response| == n
      invariant forall i :: 0 <= i < n ==> response[i] == ToAccountResponse(accounts[i])
    {
      response := response + [ToAccountResponse(accounts[n])];
    }
  }

  /** The view loses nothing: two accounts get the same response only if they are equal. */
  lemma AccountResponseLossless(a: Account, b: Account)
    ensures ToAccountResponse(a) == ToAccountResponse(b) <==> a == b
  {
  }

  /** Each field of the view holds the field of the same name of the account. */
  lemma AccountResponseFields(account: Account)
    ensures var r := ToAccountResponse(account);
      && r.id == account.id && r.currency == account.currency && r.iban == account.iban
      && r.balance == account.balance && r.userId == account.userId
      && r.createdAt == account.createdAt && r.updatedAt == account.updatedAt
  {
  }
}

/** The user view returned by the HTTP layer (app/controllers/user/response/user.go). */
module UserResponses {
  import opened Domain

  /** Everything about a user except the password hash. */
  datatype UserResponse = UserResponse(
    id: string,
    firstName: string,
    lastName: string,
    email: string,
    age: int32,
    createdAt: Time,
    updatedAt: Time)

  function ToUserResponse(user: User): UserResponse {
    UserResponse(user.id, user.firstName, user.lastName, user.email, user.age, user.createdAt, user.updatedAt)
  }

  /** The list view, built by appending one response per user; empty input gives []. */
  method ToUserResponseList(users: seq<User>) returns (response: seq<UserResponse>)
    ensures |response| == |users|
    ensures forall i :: 0 <= i < |users| ==> response[i] == ToUserResponse(users[i])
  {
    response := [];
    for n := 0 to |users|
      invariant |response| == n
      invariant forall i :: 0 <= i < n ==> response[i] == ToUserResponse(users[i])
    {
      response := response + [ToUserResponse(users[n])];
    }
  }

  /**
   * The view forgets exactly the password: two users get the same response
   * if and only if they agree on every field but the password.
   */
  lemma UserResponseForgetsOnlyPassword(u: User, v: User)
    ensures ToUserResponse(u) == ToUserResponse(v) <==> u.(password := v.password) == v
  {
  }

  /** Each field of the view holds the field of the same name of the user. */
  lemma UserResponseFields(user: User)
    ensures var r := ToUserResponse(user);
      && r.id == user.id && r.firstName == user.firstName && r.lastName == user.lastName
      && r.email == user.email && r.age == user.age
      && r.createdAt == user.createdAt && r.updatedAt == user.updatedAt
  {
  }
}
