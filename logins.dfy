/** Synthesised users, as the affiliate and WP Affiliate generators make them:
    logins `sprintf('<prefix>%d_%d', $mid, $i)`, where `$mid` is a random
    per-invocation salt and `$i` a slot index, and the users loop over the
    slots `total .. total + count - 1`. */
module Logins {
  import opened Php
  import opened Host

  /** The login of slot `i` under salt `mid`: the prefix, followed by the
      salt and the slot in digits, joined by '_'. */
  function Format(prefix: string, mid: nat, i: nat): string {
    prefix + Str(mid) + "_" + Str(i)
  }

  /** A login determines both its salt and its index: the salt is written in
      digits only, so the first '_' after the prefix ends it. */
  lemma FormatInjective(prefix: string, mid1: nat, i1: nat, mid2: nat, i2: nat)
    requires Format(prefix, mid1, i1) == Format(prefix, mid2, i2)
    ensures mid1 == mid2 && i1 == i2
  {
    var x1 := Str(mid1) + "_" + Str(i1);
    var x2 := Str(mid2) + "_" + Str(i2);
    assert Format(prefix, mid1, i1) == prefix + x1;
    assert Format(prefix, mid2, i2) == prefix + x2;
    PrefixCancel(prefix, x1, x2);
    SplitDigits(Str(mid1), Str(i1), Str(mid2), Str(i2));
    StrInjective(mid1, mid2);
    StrInjective(i1, i2);
  }

  /** Two digit strings joined by '_' to their tails split back uniquely. */
  lemma SplitDigits(a1: string, b1: string, a2: string, b2: string)
    requires forall k :: 0 <= k < |a1| ==> '0' <= a1[k] <= '9'
    requires forall k :: 0 <= k < |a2| ==> '0' <= a2[k] <= '9'
    requires a1 + "_" + b1 == a2 + "_" + b2
    ensures a1 == a2 && b1 == b2
  {
    BeforeSplit(a1, '_', b1);
    BeforeSplit(a2, '_', b2);
    assert b1 == (a1 + "_" + b1)[|a1| + 1..];
    assert b2 == (a2 + "_" + b2)[|a2| + 1..];
  }

  /** The account e-mail address built from a login (`'%1$s@affwp.dev'`). */
  function Email(login: string): string {
    login + "@affwp.dev"
  }

  lemma EmailInjective(login1: string, login2: string)
    requires Email(login1) == Email(login2)
    ensures login1 == login2
  {
    SuffixCancel(login1, login2, "@affwp.dev");
  }

  /** The `wp_insert_user` record of slot `i`: the login doubles as password,
      nickname and display name are both "AffWP User {i}", and with
      `withEmail` the address is `login@affwp.dev`. */
  function NewUser(prefix: string, mid: nat, i: nat, role: string, withEmail: bool): (u: User)
    ensures u.password == u.login && u.nickname == u.displayName && u.role == role
    ensures u.email.Some? <==> withEmail
    ensures withEmail ==> u.email.value == Email(u.login)
  {
    var login := Format(prefix, mid, i);
    var name := "AffWP User " + Str(i);
    User(login, login, if withEmail then Some(Email(login)) else None, name, name, role)
  }

  /** The users of slots `first`, ..., `first + n - 1`. */
  function NewUsers(prefix: string, mid: nat, first: nat, n: nat, role: string, withEmail: bool): (r: seq<User>)
    ensures |r| == n
  {
    seq(n, k requires 0 <= k => NewUser(prefix, mid, first + k, role, withEmail))
  }

  /** No two users of one run share a login. */
  lemma LoginsDistinct(prefix: string, mid: nat, first: nat, n: nat, role: string, withEmail: bool,
                       a: nat, b: nat)
    requires a < n && b < n && a != b
    ensures NewUsers(prefix, mid, first, n, role, withEmail)[a].login
         != NewUsers(prefix, mid, first, n, role, withEmail)[b].login
  {
    assert NewUsers(prefix, mid, first, n, role, withEmail)[a] == NewUser(prefix, mid, first + a, role, withEmail);
    assert NewUsers(prefix, mid, first, n, role, withEmail)[b] == NewUser(prefix, mid, first + b, role, withEmail);
    if NewUsers(prefix, mid, first, n, role, withEmail)[a].login
       == NewUsers(prefix, mid, first, n, role, withEmail)[b].login {
      FormatInjective(prefix, mid, first + a, mid, first + b);
    }
  }

  /** Two runs whose slot windows do not overlap (the second starts at or after
      the first one's `total + count`, as when the user count has grown by what
      the first run made) never produce the same login, whatever their salts. */
  lemma RunsDisjoint(prefix: string, mid1: nat, first1: nat, n1: nat, mid2: nat, first2: nat, n2: nat,
                     role: string, withEmail: bool, a: nat, b: nat)
    requires first1 + n1 <= first2 && a < n1 && b < n2
    ensures NewUsers(prefix, mid1, first1, n1, role, withEmail)[a].login
         != NewUsers(prefix, mid2, first2, n2, role, withEmail)[b].login
  {
    assert NewUsers(prefix, mid1, first1, n1, role, withEmail)[a] == NewUser(prefix, mid1, first1 + a, role, withEmail);
    assert NewUsers(prefix, mid2, first2, n2, role, withEmail)[b] == NewUser(prefix, mid2, first2 + b, role, withEmail);
    if NewUsers(prefix, mid1, first1, n1, role, withEmail)[a].login
       == NewUsers(prefix, mid2, first2, n2, role, withEmail)[b].login {
      FormatInjective(prefix, mid1, first1 + a, mid2, first2 + b);
    }
  }

  /** The users loop `for ($i = $total; $i < $limit; $i++)`: exactly `count`
      users with consecutive ids; `i` is the counter as the loop leaves it. */
  method GenerateUsers(store: Store, prefix: string, mid: nat, total: nat, count: nat, role: string,
                       withEmail: bool) returns (userIds: seq<Id>, i: nat)
    modifies store`users
    ensures store.users == old(store.users) + NewUsers(prefix, mid, total, count, role, withEmail)
    ensures userIds == Range(|old(store.users)| + 1, count)
    ensures i == total + count
  {
    ghost var base := |store.users|;
    userIds := [];
    i := total;
    while i < total + count
      invariant total <= i <= total + count
      invariant store.users == old(store.users) + NewUsers(prefix, mid, total, i - total, role, withEmail)
      invariant userIds == Range(base + 1, i - total)
    {
      var id := store.AddUser(NewUser(prefix, mid, i, role, withEmail));
      assert NewUsers(prefix, mid, total, i - total, role, withEmail) + [NewUser(prefix, mid, i, role, withEmail)]
          == NewUsers(prefix, mid, total, i + 1 - total, role, withEmail);
      RangeStep(base + 1, i - total);
      userIds := userIds + [id];
      i := i + 1;
    }
  }
}
