/** `wp affwp wp-affiliate generate`: accounts in the WP Affiliate plugin,
    for `count` freshly created users or, with `skip_users`, for `count`
    logins no user stands behind
    (includes/commands/class-wp-affiliate-generate.php). */
module WpAffiliateGenerate {
  import opened Php
  import opened Cli
  import opened Host
  import opened Logins

  /** The command's options as given on the command line (None = absent);
      `skipUsers` is whether `skip_users` is given with a value PHP does not
      consider empty. */
  datatype Options = Options(count: Option<nat>, skipUsers: bool, status: Option<string>,
                             rate: Option<string>, format: Option<string>)

  const DefaultCount: nat := 10
  const DefaultRate: string := "20"
  const LoginPrefix: string := "wp_affiliate_user_"

  function CountOf(opts: Options): nat { OrDefault(opts.count, DefaultCount) }

  /** The commission level: the rate (by default '20') unless it is empty. */
  function RateOf(opts: Options, env: Env): string { Setting(OrDefault(opts.rate, DefaultRate), "", env) }

  /** The account status: 'approved' unless a non-empty status is given. */
  function StatusOf(opts: Options, env: Env): string { Setting(OrDefault(opts.status, ""), "approved", env) }

  /** With no options: ten accounts at the (sanitised) default rate '20',
      approved; a rate given as "" or "0" leaves the commission level empty. */
  lemma Defaults(opts: Options, env: Env)
    requires opts == Options(None, false, None, None, None)
    ensures CountOf(opts) == 10
    ensures RateOf(opts, env) == env.sanitize("20") && StatusOf(opts, env) == "approved"
    ensures RateOf(opts.(rate := Some("")), env) == "" && RateOf(opts.(rate := Some("0")), env) == ""
    ensures OutputOf(FormatOf(opts.format)) == ProgressBar
  {
  }

  function Login(mid: nat, i: nat): string { Format(LoginPrefix, mid, i) }

  /** The array handed to the plugin for one login: the login is the refid,
      one address serves as e-mail and PayPal e-mail. */
  function AccountFor(login: string, pass: string, lastName: string, env: Env, rate: string,
                      status: string): (a: Account)
    ensures a.refid == login && a.email == Email(login) && a.paypalEmail == a.email
    ensures a.firstName == "WP Affiliate" && a.referrer == ""
    ensures a.commissionLevel == rate && a.accountStatus == status && a.date == env.today
  {
    Account(login, pass, Email(login), "WP Affiliate", lastName, env.today, rate, Email(login), "", status)
  }

  /** The accounts of the users branch, for the users `userIds` of `users`,
      all with the same last name. */
  function UserAccounts(users: seq<User>, userIds: seq<Id>, lastName: string, env: Env, rate: string,
                        status: string, passwords: nat -> string): (r: seq<Account>)
    requires forall k :: 0 <= k < |userIds| ==> 1 <= userIds[k] <= |users|
    ensures |r| == |userIds|
  {
    seq(|userIds|, k requires 0 <= k < |userIds| =>
          AccountFor(users[userIds[k] - 1].login, passwords(k), lastName, env, rate, status))
  }

  /** The login slot of the `k`-th account (from 0). */
  function Slot(opts: Options, env: Env, k: nat): nat {
    if opts.skipUsers then k + 1 else env.totalUsers + k
  }

  /** `"User $i"` of the `k`-th account. In the users branch `$i` is what the
      users loop left behind, `total + count`, the same for every account. */
  function LastName(opts: Options, env: Env, k: nat): string {
    "User " + Str(if opts.skipUsers then k + 1 else env.totalUsers + CountOf(opts))
  }

  /** The accounts one run creates, in order. `passwords(k)` is the
      `generate_random_password(24)` of the `k`-th one. */
  function Accounts(opts: Options, env: Env, mid: nat, passwords: nat -> string): (r: seq<Account>)
    ensures |r| == CountOf(opts)
  {
    seq(CountOf(opts), k requires 0 <= k =>
      AccountFor(Login(mid, Slot(opts, env, k)), passwords(k), LastName(opts, env, k), env,
                 RateOf(opts, env), StatusOf(opts, env)))
  }

  lemma AccountAt(opts: Options, env: Env, mid: nat, passwords: nat -> string, k: nat)
    requires k < CountOf(opts)
    ensures Accounts(opts, env, mid, passwords)[k]
         == AccountFor(Login(mid, Slot(opts, env, k)), passwords(k), LastName(opts, env, k), env,
                       RateOf(opts, env), StatusOf(opts, env))
  {
  }

  /** Every account carries its login as refid, one address as both e-mail
      and PayPal e-mail, the fixed first name, no referrer, today's date, and
      the run's rate and status. */
  lemma AccountShape(opts: Options, env: Env, mid: nat, passwords: nat -> string, k: nat)
    requires k < CountOf(opts)
    ensures var a := Accounts(opts, env, mid, passwords)[k];
      && a.refid == Login(mid, Slot(opts, env, k)) && a.pass == passwords(k)
      && a.email == Email(a.refid) && a.paypalEmail == a.email
      && a.firstName == "WP Affiliate" && a.referrer == "" && a.date == env.today
      && a.commissionLevel == RateOf(opts, env) && a.accountStatus == StatusOf(opts, env)
  {
    AccountAt(opts, env, mid, passwords, k);
  }

  /** No two accounts of one run share a refid or an e-mail address. */
  lemma AccountsDistinct(opts: Options, env: Env, mid: nat, passwords: nat -> string, a: nat, b: nat)
    requires a < CountOf(opts) && b < CountOf(opts) && a != b
    ensures Accounts(opts, env, mid, passwords)[a].refid != Accounts(opts, env, mid, passwords)[b].refid
    ensures Accounts(opts, env, mid, passwords)[a].email != Accounts(opts, env, mid, passwords)[b].email
  {
    var x, y := Accounts(opts, env, mid, passwords)[a], Accounts(opts, env, mid, passwords)[b];
    AccountShape(opts, env, mid, passwords, a);
    AccountShape(opts, env, mid, passwords, b);
    if x.email == y.email {
      EmailInjective(x.refid, y.refid);
    }
    if x.refid == y.refid {
      FormatInjective(LoginPrefix, mid, Slot(opts, env, a), mid, Slot(opts, env, b));
    }
  }

  /** In the users branch every account has the same last name,
      `"User " + (total + count)`; with `skip_users` the last names are
      `"User 1"`, `"User 2"`, ... and pairwise different. */
  lemma LastNames(opts: Options, env: Env, mid: nat, passwords: nat -> string, a: nat, b: nat)
    requires a < CountOf(opts) && b < CountOf(opts)
    ensures !opts.skipUsers ==>
      Accounts(opts, env, mid, passwords)[a].lastName == "User " + Str(env.totalUsers + CountOf(opts))
    ensures !opts.skipUsers ==>
      Accounts(opts, env, mid, passwords)[a].lastName == Accounts(opts, env, mid, passwords)[b].lastName
    ensures opts.skipUsers ==> Accounts(opts, env, mid, passwords)[a].lastName == "User " + Str(a + 1)
    ensures opts.skipUsers && a != b ==>
      Accounts(opts, env, mid, passwords)[a].lastName != Accounts(opts, env, mid, passwords)[b].lastName
  {
    var x, y := Accounts(opts, env, mid, passwords)[a], Accounts(opts, env, mid, passwords)[b];
    AccountAt(opts, env, mid, passwords, a);
    AccountAt(opts, env, mid, passwords, b);
    assert x.lastName == LastName(opts, env, a) && y.lastName == LastName(opts, env, b);
    if opts.skipUsers && x.lastName == y.lastName {
      PrefixCancel("User ", Str(a + 1), Str(b + 1));
      StrInjective(a + 1, b + 1);
    }
  }

  /** In the users branch the `k`-th account belongs to the `k`-th user made:
      same login, and the user's e-mail address is the account's. */
  lemma AccountsMatchUsers(opts: Options, env: Env, mid: nat, passwords: nat -> string, k: nat)
    requires !opts.skipUsers && k < CountOf(opts)
    ensures Accounts(opts, env, mid, passwords)[k].refid
         == NewUsers(LoginPrefix, mid, env.totalUsers, CountOf(opts), env.defaultRole, true)[k].login
    ensures Some(Accounts(opts, env, mid, passwords)[k].email)
         == NewUsers(LoginPrefix, mid, env.totalUsers, CountOf(opts), env.defaultRole, true)[k].email
  {
    AccountAt(opts, env, mid, passwords, k);
    assert NewUsers(LoginPrefix, mid, env.totalUsers, CountOf(opts), env.defaultRole, true)[k]
        == NewUser(LoginPrefix, mid, env.totalUsers + k, env.defaultRole, true);
  }

  /** What the users branch's loop makes of the users created just before it
      is `Accounts`. */
  lemma UsersBranch(opts: Options, env: Env, mid: nat, passwords: nat -> string, prefix: seq<User>,
                    role: string)
    requires !opts.skipUsers
    ensures var users := prefix + NewUsers(LoginPrefix, mid, env.totalUsers, CountOf(opts), role, true);
      var userIds := Range(|prefix| + 1, CountOf(opts));
      && (forall k :: 0 <= k < |userIds| ==> 1 <= userIds[k] <= |users|)
      && UserAccounts(users, userIds, "User " + Str(env.totalUsers + CountOf(opts)), env,
                      RateOf(opts, env), StatusOf(opts, env), passwords)
         == Accounts(opts, env, mid, passwords)
  {
    var users := prefix + NewUsers(LoginPrefix, mid, env.totalUsers, CountOf(opts), role, true);
    var userIds := Range(|prefix| + 1, CountOf(opts));
    var made := UserAccounts(users, userIds, "User " + Str(env.totalUsers + CountOf(opts)), env,
                             RateOf(opts, env), StatusOf(opts, env), passwords);
    forall k | 0 <= k < CountOf(opts)
      ensures made[k] == Accounts(opts, env, mid, passwords)[k]
    {
      UsersBranchAt(opts, env, mid, passwords, prefix, role, k);
    }
  }

  /** The `k`-th account of the users branch. */
  lemma UsersBranchAt(opts: Options, env: Env, mid: nat, passwords: nat -> string, prefix: seq<User>,
                      role: string, k: nat)
    requires !opts.skipUsers && k < CountOf(opts)
    ensures var users := prefix + NewUsers(LoginPrefix, mid, env.totalUsers, CountOf(opts), role, true);
      var userIds := Range(|prefix| + 1, CountOf(opts));
      && (forall j :: 0 <= j < |userIds| ==> 1 <= userIds[j] <= |users|)
      && UserAccounts(users, userIds, "User " + Str(env.totalUsers + CountOf(opts)), env,
                      RateOf(opts, env), StatusOf(opts, env), passwords)[k]
         == Accounts(opts, env, mid, passwords)[k]
  {
    var users := prefix + NewUsers(LoginPrefix, mid, env.totalUsers, CountOf(opts), role, true);
    var userIds := Range(|prefix| + 1, CountOf(opts));
    assert userIds[k] - 1 == |prefix| + k;
    CreatedLogin(prefix, mid, env.totalUsers, CountOf(opts), role, k);
    AccountAt(opts, env, mid, passwords, k);
  }

  /** The user at position `|prefix| + k` after the users loop is the `k`-th
      one it created. */
  lemma CreatedLogin(prefix: seq<User>, mid: nat, total: nat, n: nat, role: string, k: nat)
    requires k < n
    ensures |prefix| + k < |prefix + NewUsers(LoginPrefix, mid, total, n, role, true)|
    ensures (prefix + NewUsers(LoginPrefix, mid, total, n, role, true))[|prefix| + k].login == Login(mid, total + k)
  {
    assert (prefix + NewUsers(LoginPrefix, mid, total, n, role, true))[|prefix| + k]
        == NewUsers(LoginPrefix, mid, total, n, role, true)[k]
        == NewUser(LoginPrefix, mid, total + k, role, true);
  }

  /** What the `skip_users` loop makes is `Accounts`. */
  lemma SkipBranch(opts: Options, env: Env, mid: nat, passwords: nat -> string)
    requires opts.skipUsers
    ensures seq(CountOf(opts), k requires 0 <= k =>
                  AccountFor(Login(mid, k + 1), passwords(k), "User " + Str(k + 1), env,
                             RateOf(opts, env), StatusOf(opts, env)))
         == Accounts(opts, env, mid, passwords)
  {
    forall k | 0 <= k < CountOf(opts)
      ensures Accounts(opts, env, mid, passwords)[k]
           == AccountFor(Login(mid, k + 1), passwords(k), "User " + Str(k + 1), env,
                         RateOf(opts, env), StatusOf(opts, env))
    {
      AccountAt(opts, env, mid, passwords, k);
    }
  }

  /** The command. `mid` is the `rand(1000, 100000)` salt of the logins.
      The guard for an inactive WP Affiliate plugin runs into the stray
      `requice` token before its `WP_CLI::error` call: PHP 7 reads
      `requice \WP_CLI` as one relative class name, so the guard dies with a
      "class not found" error, printing no message and creating nothing. */
  method Generate(store: Store, opts: Options, env: Env, mid: nat, passwords: nat -> string)
    returns (r: Outcome<seq<Id>>, out: Output)
    modifies store`users, store`accounts
    ensures !r.Fatal?
    ensures r.Crashed? <==> !env.wpAffiliateActive
    ensures r.Crashed? ==> store.users == old(store.users) && store.accounts == old(store.accounts)
    ensures r.Done? ==> (store.users == old(store.users)
              + if opts.skipUsers then [] else NewUsers(LoginPrefix, mid, env.totalUsers, CountOf(opts), env.defaultRole, true))
    ensures r.Done? ==> store.accounts == old(store.accounts) + Accounts(opts, env, mid, passwords)
    ensures r.Done? ==> r.value == Range(|old(store.accounts)| + 1, CountOf(opts))
    ensures out == if r.Done? then OutputOf(FormatOf(opts.format)) else NoOutput
  {
    if !env.wpAffiliateActive {
      return Crashed, NoOutput;
    }
    var count := CountOf(opts);
    var total := env.totalUsers;
    var format := FormatOf(opts.format);
    var rate, status := RateOf(opts, env), StatusOf(opts, env);
    var accountIds;
    if !opts.skipUsers {
      var userIds, i := GenerateUsers(store, LoginPrefix, mid, total, count, env.defaultRole, true);
      UsersBranch(opts, env, mid, passwords, old(store.users), env.defaultRole);
      accountIds := AccountsForUsers(store, userIds, "User " + Str(i), env, rate, status, passwords);
    } else {
      accountIds := AccountsForSlots(store, mid, count, env, rate, status, passwords);
      SkipBranch(opts, env, mid, passwords);
    }
    r := Done(accountIds);
    out := OutputOf(format);
  }

  /** The accounts loop of the users branch: the login is read back from each
      created user; every account gets the same `lastName`. */
  method AccountsForUsers(store: Store, userIds: seq<Id>, lastName: string, env: Env, rate: string,
                          status: string, passwords: nat -> string) returns (accountIds: seq<Id>)
    requires forall k :: 0 <= k < |userIds| ==> 1 <= userIds[k] <= |store.users|
    modifies store`accounts
    ensures store.accounts == old(store.accounts)
              + UserAccounts(store.users, userIds, lastName, env, rate, status, passwords)
    ensures accountIds == Range(|old(store.accounts)| + 1, |userIds|)
  {
    ghost var base := |store.accounts|;
    ghost var made := UserAccounts(store.users, userIds, lastName, env, rate, status, passwords);
    accountIds := [];
    var p := 0;
    while p < |userIds|
      invariant 0 <= p <= |userIds|
      invariant store.accounts == old(store.accounts) + made[..p]
      invariant accountIds == Range(base + 1, p)
    {
      var info := store.UserData(userIds[p]);
      var id := store.AddAccount(AccountFor(info.login, passwords(p), lastName, env, rate, status));
      assert made[..p + 1] == made[..p] + [made[p]];
      RangeStep(base + 1, p);
      accountIds := accountIds + [id];
      p := p + 1;
    }
    assert made[..p] == made;
  }

  /** The accounts loop of the `skip_users` branch: slots 1 to `count`. */
  method AccountsForSlots(store: Store, mid: nat, count: nat, env: Env, rate: string, status: string,
                          passwords: nat -> string) returns (accountIds: seq<Id>)
    modifies store`accounts
    ensures store.accounts == old(store.accounts)
              + seq(count, k requires 0 <= k =>
                      AccountFor(Login(mid, k + 1), passwords(k), "User " + Str(k + 1), env, rate, status))
    ensures accountIds == Range(|old(store.accounts)| + 1, count)
  {
    ghost var base := |store.accounts|;
    ghost var made := seq(count, k requires 0 <= k =>
                            AccountFor(Login(mid, k + 1), passwords(k), "User " + Str(k + 1), env, rate, status));
    accountIds := [];
    var i := 1;
    while i <= count
      invariant 1 <= i <= count + 1
      invariant store.accounts == old(store.accounts) + made[..i - 1]
      invariant accountIds == Range(base + 1, i - 1)
    {
      var id := store.AddAccount(AccountFor(Login(mid, i), passwords(i - 1), "User " + Str(i), env, rate, status));
      assert made[..i] == made[..i - 1] + [made[i - 1]];
      RangeStep(base + 1, i - 1);
      accountIds := accountIds + [id];
      i := i + 1;
    }
    assert made[..count] == made;
  }
}
