/**
  The `users` table and the two operations that touch it: `login_user`
  (look up or create the row of an email) and the arithmetic of
  `consume_credit`. The table is keyed by normalised email, so a map from
  email to credit balance stands for it; the random `access_code` column is
  never read by the application and is not part of this model.
 */
module Accounts {
  import opened Email

  /** The `users` table: normalised email to remaining credits. */
  type Users = map<string, int>

  /** The credits a newly created row receives. */
  const StartingCredits: int := 2

  /** A user row as the session holds it. */
  datatype User = User(email: string, credits: int)

  function Max(a: int, b: int): (m: int)
    ensures m >= a && m >= b && (m == a || m == b)
  {
    if a >= b then a else b
  }

  /** The balance `consume_credit` writes: one less, but never below zero. */
  function Debit(credits: int): (r: int)
    ensures r >= 0
    ensures credits > 0 ==> r == credits - 1
    ensures credits <= 0 ==> r == 0
  {
    Max(0, credits - 1)
  }

  /**
    `login_user`: the row of the normalised email if the table has one, the
    table untouched; otherwise the table gains exactly that row, with the
    starting grant, and every existing row keeps its balance.
   */
  function LoginUser(users: Users, email: string): (r: (Users, User))
    ensures r.1.email == Normalize(email)
    ensures r.0.Keys == users.Keys + {Normalize(email)}
    ensures r.1.email in r.0 && r.0[r.1.email] == r.1.credits
    ensures forall e :: e in users ==> r.0[e] == users[e]
    ensures Normalize(email) in users ==> r.0 == users
    ensures Normalize(email) !in users ==> r.1.credits == StartingCredits && |r.0| == |users| + 1
  {
    var key := Normalize(email);
    if key in users then
      (users, User(key, users[key]))
    else
      (users[key := StartingCredits], User(key, StartingCredits))
  }

  /**
    A second login with any spelling of the same address that normalises to
    the same key finds the row the first one created or found: the table
    does not change again and no second grant is made.
   */
  lemma LoginNoRegrant(users: Users, email: string, again: string)
    requires Normalize(again) == Normalize(email)
    ensures LoginUser(LoginUser(users, email).0, again).0 == LoginUser(users, email).0
    ensures LoginUser(LoginUser(users, email).0, again).1 == LoginUser(users, email).1
  {
  }
}
