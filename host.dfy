/** The host platform as the generators see it: the records they hand to the
    host's create calls, one in-memory `Store` standing for all host tables, and
    the host values and helpers they read. Nothing is claimed about what the
    host validates or stores beyond the fields passed in. */
module Host {
  import opened Php

  /** A record id. The store numbers the records of each table 1, 2, 3, ... */
  type Id = nat

  /** A referral amount as `random_float(0, 20)` returns it; opaque here. */
  type Amount = real

  /** The fields passed to `wp_insert_user`; `email` only by the WP Affiliate
      generator. */
  datatype User = User(login: string, password: string, email: Option<string>,
                       nickname: string, displayName: string, role: string)

  /** The fields passed to `affiliate_wp()->affiliates->add`. */
  datatype Affiliate = Affiliate(status: string, userId: Id, rate: string, rateType: string)

  /** The fields passed to `affwp_add_referral`, plus the `visit_id` that the
      visit generator writes back (None until then). A date or campaign of None
      is a PHP null or a key not passed. */
  datatype Referral = Referral(affiliateId: Id, amount: Amount, status: string,
                               campaign: Option<string>, date: Option<string>,
                               visitId: Option<Id>)

  /** The fields passed to `affiliate_wp()->visits->add`; a referral id of None
      is the key not passed (an unconverted visit). */
  datatype Visit = Visit(affiliateId: Id, url: string, referrer: string, referralId: Option<Id>)

  /** The fields passed to `affwp_add_creative`. */
  datatype Creative = Creative(name: string, description: string, url: string,
                               text: string, status: string)

  /** The array passed to `wp_aff_create_affilate_using_array_data`. */
  datatype Account = Account(refid: string, pass: string, email: string,
                             firstName: string, lastName: string, date: string,
                             commissionLevel: string, paypalEmail: string,
                             referrer: string, accountStatus: string)

  /** Host values read at invocation time and host helpers whose code is not
      part of this model: `site_url('cli')`, `get_bloginfo('name')`, the
      `total_users` of `count_users()`, `get_option('default_role')`,
      `date('Y-m-d')`, whether `wp_aff_create_affilate_using_array_data`
      exists, and `sanitize_text_field`. */
  datatype Env = Env(cliUrl: string, blogName: string, totalUsers: nat,
                     defaultRole: string, today: string, wpAffiliateActive: bool,
                     sanitize: string -> string)

  /** `empty($value) ? $fallback : sanitize_text_field($value)`, the way the
      affiliate generators resolve a status or rate option after defaults are
      merged in; an absent option reads as "". */
  function Setting(value: string, fallback: string, env: Env): (r: string)
    ensures Empty(value) ==> r == fallback
    ensures !Empty(value) ==> r == env.sanitize(value)
  {
    if Empty(value) then fallback else env.sanitize(value)
  }

  /** `$statuses`, the referral statuses a random draw picks from. */
  const Statuses: seq<string> := ["paid", "unpaid", "pending", "rejected"]

  /** The result of `rand(0, 3)`. */
  type StatusIndex = k: nat | k < 4

  /** The ids `first`, `first + 1`, ..., `first + n - 1`. */
  function Range(first: nat, n: nat): (r: seq<Id>)
    ensures |r| == n && forall k :: 0 <= k < n ==> r[k] == first + k
  {
    seq(n, k => first + k)
  }

  lemma RangeStep(first: nat, n: nat)
    ensures Range(first, n) + [first + n] == Range(first, n + 1)
  {
  }

  /** The host tables. Each `Add` appends a record and returns its fresh id,
      and touches no other table. */
  class Store {
    var users: seq<User>
    var affiliates: seq<Affiliate>
    var referrals: seq<Referral>
    var visits: seq<Visit>
    var creatives: seq<Creative>
    var accounts: seq<Account>

    constructor ()
      ensures users == [] && affiliates == [] && referrals == []
      ensures visits == [] && creatives == [] && accounts == []
    {
      users, affiliates, referrals := [], [], [];
      visits, creatives, accounts := [], [], [];
    }

    /** `wp_insert_user`. */
    method AddUser(u: User) returns (id: Id)
      modifies this`users
      ensures users == old(users) + [u] && id == |users|
    {
      users := users + [u];
      id := |users|;
    }

    /** `get_userdata($id)`. */
    function UserData(id: Id): (u: User)
      reads this
      requires 1 <= id <= |users|
      ensures u == users[id - 1]
    {
      users[id - 1]
    }

    /** `affiliate_wp()->affiliates->add`. */
    method AddAffiliate(a: Affiliate) returns (id: Id)
      modifies this`affiliates
      ensures affiliates == old(affiliates) + [a] && id == |affiliates|
    {
      affiliates := affiliates + [a];
      id := |affiliates|;
    }

    /** `affwp_add_referral`. */
    method AddReferral(r: Referral) returns (id: Id)
      modifies this`referrals
      ensures referrals == old(referrals) + [r] && id == |referrals|
    {
      referrals := referrals + [r];
      id := |referrals|;
    }

    /** `affwp_get_referral($id)->set('visit_id', $visit, true)`; fetching a
        referral that does not exist yields false, and calling `set` on it is a
        fatal error, so the referral must exist. */
    method SetReferralVisit(id: Id, visit: Id)
      requires 1 <= id <= |referrals|
      modifies this`referrals
      ensures referrals == old(referrals)[id - 1 := old(referrals)[id - 1].(visitId := Some(visit))]
    {
      referrals := referrals[id - 1 := referrals[id - 1].(visitId := Some(visit))];
    }

    /** `affiliate_wp()->visits->add`. */
    method AddVisit(v: Visit) returns (id: Id)
      modifies this`visits
      ensures visits == old(visits) + [v] && id == |visits|
    {
      visits := visits + [v];
      id := |visits|;
    }

    /** `affwp_add_creative`. */
    method AddCreative(c: Creative) returns (id: Id)
      modifies this`creatives
      ensures creatives == old(creatives) + [c] && id == |creatives|
    {
      creatives := creatives + [c];
      id := |creatives|;
    }

    /** `wp_aff_create_affilate_using_array_data`. */
    method AddAccount(a: Account) returns (id: Id)
      modifies this`accounts
      ensures accounts == old(accounts) + [a] && id == |accounts|
    {
      accounts := accounts + [a];
      id := |accounts|;
    }
  }
}
