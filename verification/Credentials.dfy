/** Accounts and the generation markers that name them in write-ahead records
    (hysteria/session_store.py `_credential_generation`,
    hysteria/subscription_service.py `_delete_previous_generation`).

    A subscription token together with its UUID is one credential, a `nat`; 0 is the
    missing credential.  Fresh credentials are issued in increasing order, which is
    one way of saying that a random token is never drawn twice; no operation
    compares credentials other than for equality.  Digests are the values they
    digest. */
module Credentials {

  type User = string

  datatype Entry =
    | Malformed  // a value of users.json that is not an object
    | Account(cred: nat, disabled: bool, expiresOn: nat, rest: nat)

  type Users = map<User, Entry>

  datatype Gen =
    | NoGen
    | CredGen(token: nat)
    | RevisionOf(entry: Entry)  // 'user-revision' marker of one account incarnation
    | UserDeleted

  function TokenGen(token: nat): Gen {
    if token == 0 then NoGen else CredGen(token)
  }

  /** The credential stored for a user; 0 when the user or the credential is missing. */
  function CredOf(users: Users, user: User): nat {
    if user in users && users[user].Account? then users[user].cred else 0
  }

  function CredentialGeneration(users: Users, user: User): Gen {
    TokenGen(CredOf(users, user))
  }

  predicate IsExpired(entry: Entry, today: nat)
    requires entry.Account?
  {
    entry.expiresOn != 0 && entry.expiresOn < today
  }

  predicate SecretEqual(supplied: nat, expected: nat) {
    supplied != 0 && expected != 0 && supplied == expected
  }

  /** Content `users` shows the effect of moving `user` to generation `target`. */
  predicate ShowsEffect(users: Users, user: User, target: Gen) {
    if target == UserDeleted then user !in users
    else CredentialGeneration(users, user) == target
  }
}
