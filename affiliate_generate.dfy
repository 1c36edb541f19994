/** `wp affwp affiliate generate`: `count` users, one affiliate per user, and
    optionally, per affiliate, a nested run of the referral and of the visit
    generator (includes/commands/class-affiliate-generate.php). */
module AffiliateGenerate {
  import opened Php
  import opened Cli
  import opened Host
  import opened Logins
  import ReferralGenerate
  import VisitGenerate

  /** The command's options as given on the command line (None = absent);
      `visits` and `referrals` as their `(int)` casts. */
  datatype Options = Options(count: Option<nat>, status: Option<string>, rate: Option<string>,
                             rateType: Option<string>, visits: Option<nat>,
                             referrals: Option<nat>, format: Option<string>)

  const DefaultCount: nat := 10
  const LoginPrefix: string := "affwp_user_"

  function CountOf(opts: Options): nat { OrDefault(opts.count, DefaultCount) }
  function VisitsOf(opts: Options): nat { OrDefault(opts.visits, 0) }
  function ReferralsOf(opts: Options): nat { OrDefault(opts.referrals, 0) }

  /** The affiliate status: 'active' unless a non-empty status is given. */
  function StatusOf(opts: Options, env: Env): string { Setting(OrDefault(opts.status, ""), "active", env) }
  /** The rate and rate type: '' unless non-empty ones are given. */
  function RateOf(opts: Options, env: Env): string { Setting(OrDefault(opts.rate, ""), "", env) }
  function RateTypeOf(opts: Options, env: Env): string { Setting(OrDefault(opts.rateType, ""), "", env) }

  /** With no options: ten users, active affiliates without rate or rate type,
      no nested generation, and a progress bar. A status of "0" is empty to
      PHP and also gives 'active'. */
  lemma Defaults(opts: Options, env: Env)
    requires opts == Options(None, None, None, None, None, None, None)
    ensures CountOf(opts) == 10 && VisitsOf(opts) == 0 && ReferralsOf(opts) == 0
    ensures StatusOf(opts, env) == "active" && StatusOf(opts.(status := Some("0")), env) == "active"
    ensures RateOf(opts, env) == "" && RateTypeOf(opts, env) == ""
    ensures OutputOf(FormatOf(opts.format)) == ProgressBar
  {
  }

  /** One affiliate per user id, in order, all with the same settings. */
  function NewAffiliates(userIds: seq<Id>, status: string, rate: string, rateType: string): (r: seq<Affiliate>)
    ensures |r| == |userIds|
    ensures forall k :: 0 <= k < |r| ==> r[k].userId == userIds[k] && r[k].status == status
  {
    seq(|userIds|, k requires 0 <= k < |userIds| => Affiliate(status, userIds[k], rate, rateType))
  }

  /** `'with_referral'` of the nested visit run: a paired referral only when
      the referral run was skipped. */
  function WithReferral(referrals: nat): (flag: string)
    ensures flag == "yes" <==> referrals == 0
  {
    if referrals != 0 then "no" else "yes"
  }

  /** The options of the nested referral run for one affiliate. */
  function ReferralOptions(referrals: nat, affiliate: Id): ReferralGenerate.Options {
    ReferralGenerate.Options(Some(referrals), Some(Str(affiliate)), None, None, None)
  }

  /** The options of the nested visit run for one affiliate. */
  function VisitOptions(visits: nat, referrals: nat): VisitGenerate.Options {
    VisitGenerate.Options(Some(visits), Some(WithReferral(referrals)), None, None, None)
  }

  /** The two tables the nested runs write. */
  datatype Tables = Tables(referrals: seq<Referral>, visits: seq<Visit>)

  /** The random values of the nested runs, by the position of the affiliate
      in the command's own list. */
  datatype Random = Random(referral: nat -> ReferralGenerate.Random, visit: nat -> VisitGenerate.Random)

  /** The referrals the nested referral run makes for the affiliate at
      position `p`; none when `referrals` is 0. */
  function ReferralPart(affiliate: Id, p: nat, referrals: nat, rnd: Random): seq<Referral> {
    if referrals != 0 then
      var o := ReferralOptions(referrals, affiliate);
      ReferralGenerate.Batch([affiliate], ReferralGenerate.CountOf(o),
                             ReferralGenerate.StatusOf(o.status, rnd.referral(p).draw), o.date,
                             rnd.referral(p).amount)
    else []
  }

  /** The tables after the nested runs for the affiliate at position `p`. */
  function Step(t: Tables, affiliate: Id, p: nat, referrals: nat, visits: nat, env: Env, rnd: Random): Tables {
    var made := ReferralPart(affiliate, p, referrals, rnd);
    if visits == 0 then Tables(t.referrals + made, t.visits)
    else
      var o := VisitOptions(visits, referrals);
      Tables(t.referrals + made
               + VisitGenerate.Referrals([affiliate], VisitGenerate.CountOf(o), VisitGenerate.Linked(o),
                                         |t.visits|, rnd.visit(p)),
             t.visits
               + VisitGenerate.Visits([affiliate], VisitGenerate.CountOf(o), VisitGenerate.UrlOf(o, env),
                                      VisitGenerate.ReferrerOf(o), VisitGenerate.Linked(o),
                                      |t.referrals + made|))
  }

  /** The tables after the nested runs for every listed affiliate, in order. */
  function Cascade(affiliates: seq<Id>, referrals: nat, visits: nat, env: Env, rnd: Random, t: Tables): Tables {
    if affiliates == [] then t
    else
      var n := |affiliates| - 1;
      Step(Cascade(affiliates[..n], referrals, visits, env, rnd, t), affiliates[n], n, referrals, visits, env, rnd)
  }

  /** Referrals added per affiliate: the nested referral run's, or the one
      paired referral of the visit run when that alone runs. */
  function PerAffiliate(referrals: nat, visits: nat): nat {
    if referrals != 0 then referrals else if visits != 0 then 1 else 0
  }

  /** With neither `referrals` nor `visits` nothing beyond users and
      affiliates is created. */
  lemma {:induction false} NoActivity(affiliates: seq<Id>, env: Env, rnd: Random, t: Tables)
    ensures Cascade(affiliates, 0, 0, env, rnd, t) == t
  {
    if affiliates != [] {
      NoActivity(affiliates[..|affiliates| - 1], env, rnd, t);
    }
  }

  /** The nested runs for one affiliate only append: `PerAffiliate`
      referrals and `visits` visits. */
  lemma StepSizes(t: Tables, affiliate: Id, p: nat, referrals: nat, visits: nat, env: Env, rnd: Random)
    ensures var c := Step(t, affiliate, p, referrals, visits, env, rnd);
      && |c.referrals| == |t.referrals| + PerAffiliate(referrals, visits)
      && |c.visits| == |t.visits| + visits
      && c.referrals[..|t.referrals|] == t.referrals
      && c.visits[..|t.visits|] == t.visits
  {
    var made := ReferralPart(affiliate, p, referrals, rnd);
    if referrals != 0 {
      var o := ReferralOptions(referrals, affiliate);
      ReferralGenerate.BatchLength([affiliate], referrals,
                                   ReferralGenerate.StatusOf(o.status, rnd.referral(p).draw), o.date,
                                   rnd.referral(p).amount);
    }
    assert |made| == if referrals != 0 then referrals else 0;
    var c := Step(t, affiliate, p, referrals, visits, env, rnd);
    if visits != 0 {
      var o := VisitOptions(visits, referrals);
      VisitGenerate.VisitsLength([affiliate], visits, VisitGenerate.UrlOf(o, env), VisitGenerate.ReferrerOf(o),
                                 VisitGenerate.Linked(o), |t.referrals + made|);
    }
    assert c.referrals[..|t.referrals|] == t.referrals;
    assert c.visits[..|t.visits|] == t.visits;
  }

  /** Each affiliate gets `visits` visits and `PerAffiliate` referrals. */
  lemma {:induction false} CascadeSizes(affiliates: seq<Id>, referrals: nat, visits: nat, env: Env,
                                        rnd: Random, t: Tables)
    ensures |Cascade(affiliates, referrals, visits, env, rnd, t).referrals|
         == |t.referrals| + |affiliates| * PerAffiliate(referrals, visits)
    ensures |Cascade(affiliates, referrals, visits, env, rnd, t).visits| == |t.visits| + |affiliates| * visits
  {
    if affiliates != [] {
      var n := |affiliates| - 1;
      var prev := Cascade(affiliates[..n], referrals, visits, env, rnd, t);
      CascadeSizes(affiliates[..n], referrals, visits, env, rnd, t);
      var c := Step(prev, affiliates[n], n, referrals, visits, env, rnd);
      assert Cascade(affiliates, referrals, visits, env, rnd, t) == c;
      StepSizes(prev, affiliates[n], n, referrals, visits, env, rnd);
      var per := PerAffiliate(referrals, visits);
      assert |c.referrals| == |prev.referrals| + per;
      assert |c.visits| == |prev.visits| + visits;
      MulStep(n, per);
      MulStep(n, visits);
    }
  }

  /** The nested runs only append: the records that existed before are kept
      as they were. */
  lemma {:induction false} CascadeKeeps(affiliates: seq<Id>, referrals: nat, visits: nat, env: Env,
                                        rnd: Random, t: Tables)
    ensures |t.referrals| <= |Cascade(affiliates, referrals, visits, env, rnd, t).referrals|
    ensures |t.visits| <= |Cascade(affiliates, referrals, visits, env, rnd, t).visits|
    ensures Cascade(affiliates, referrals, visits, env, rnd, t).referrals[..|t.referrals|] == t.referrals
    ensures Cascade(affiliates, referrals, visits, env, rnd, t).visits[..|t.visits|] == t.visits
  {
    if affiliates != [] {
      var n := |affiliates| - 1;
      var prev := Cascade(affiliates[..n], referrals, visits, env, rnd, t);
      CascadeKeeps(affiliates[..n], referrals, visits, env, rnd, t);
      var c := Step(prev, affiliates[n], n, referrals, visits, env, rnd);
      assert Cascade(affiliates, referrals, visits, env, rnd, t) == c;
      StepSizes(prev, affiliates[n], n, referrals, visits, env, rnd);
      PrefixTrans(prev.referrals, c.referrals, |t.referrals|);
      PrefixTrans(prev.visits, c.visits, |t.visits|);
    }
  }

  lemma PrefixTrans<T>(a: seq<T>, b: seq<T>, k: nat)
    requires k <= |a| <= |b| && b[..|a|] == a
    ensures b[..k] == a[..k]
  {
  }

  lemma MulStep(n: nat, x: nat)
    ensures n * x + x == (n + 1) * x
  {
  }

  /** Every visit the nested runs make belongs to a listed affiliate, and it
      is converted exactly when no `referrals` were asked for: the referral
      run and the paired referral of the visit run exclude each other. */
  lemma {:induction false} CascadeVisits(affiliates: seq<Id>, referrals: nat, visits: nat, env: Env,
                                         rnd: Random, t: Tables, k: nat)
    requires |t.visits| <= k < |Cascade(affiliates, referrals, visits, env, rnd, t).visits|
    ensures Cascade(affiliates, referrals, visits, env, rnd, t).visits[k].affiliateId in affiliates
    ensures Cascade(affiliates, referrals, visits, env, rnd, t).visits[k].referralId.Some? <==> referrals == 0
  {
    var n := |affiliates| - 1;
    var prev := Cascade(affiliates[..n], referrals, visits, env, rnd, t);
    var a := affiliates[n];
    if k < |prev.visits| {
      CascadeVisits(affiliates[..n], referrals, visits, env, rnd, t, k);
      assert prev.visits[k].affiliateId in affiliates[..n];
    } else {
      var made := ReferralPart(a, n, referrals, rnd);
      var o := VisitOptions(visits, referrals);
      var url, referrer, linked := VisitGenerate.UrlOf(o, env), VisitGenerate.ReferrerOf(o), VisitGenerate.Linked(o);
      var refBase := |prev.referrals + made|;
      assert visits != 0;
      var j := k - |prev.visits|;
      VisitGenerate.VisitsLength([a], visits, url, referrer, linked, refBase);
      VisitGenerate.VisitsUniform([a], visits, url, referrer, linked, refBase, j);
      VisitGenerate.VisitsAt([a], visits, url, referrer, linked, refBase, 0, j);
      assert 0 * visits + j == j;
    }
  }

  /** The documented example, `--count=3 --visits=2`: three referrals (one
      per affiliate) and six visits, every one of them converted. */
  lemma DocumentedExample(affiliates: seq<Id>, env: Env, rnd: Random, t: Tables)
    requires |affiliates| == 3
    ensures |Cascade(affiliates, 0, 2, env, rnd, t).referrals| == |t.referrals| + 3
    ensures |Cascade(affiliates, 0, 2, env, rnd, t).visits| == |t.visits| + 6
    ensures forall k :: |t.visits| <= k < |Cascade(affiliates, 0, 2, env, rnd, t).visits| ==>
              Cascade(affiliates, 0, 2, env, rnd, t).visits[k].referralId.Some?
  {
    CascadeSizes(affiliates, 0, 2, env, rnd, t);
    forall k | |t.visits| <= k < |Cascade(affiliates, 0, 2, env, rnd, t).visits|
      ensures Cascade(affiliates, 0, 2, env, rnd, t).visits[k].referralId.Some?
    {
      CascadeVisits(affiliates, 0, 2, env, rnd, t, k);
    }
  }

  /** The command. `mid` is the `rand(100, 10000)` salt of the logins. */
  method Generate(store: Store, opts: Options, env: Env, mid: nat, rnd: Random)
    returns (userIds: seq<Id>, affiliateIds: seq<Id>, out: Output)
    modifies store`users, store`affiliates, store`referrals, store`visits
    ensures store.users == old(store.users)
              + NewUsers(LoginPrefix, mid, env.totalUsers, CountOf(opts), env.defaultRole, false)
    ensures userIds == Range(|old(store.users)| + 1, CountOf(opts))
    ensures store.affiliates == old(store.affiliates)
              + NewAffiliates(userIds, StatusOf(opts, env), RateOf(opts, env), RateTypeOf(opts, env))
    ensures affiliateIds == Range(|old(store.affiliates)| + 1, CountOf(opts))
    ensures Tables(store.referrals, store.visits)
         == Cascade(affiliateIds, ReferralsOf(opts), VisitsOf(opts), env, rnd,
                    Tables(old(store.referrals), old(store.visits)))
    ensures out == OutputOf(FormatOf(opts.format))
  {
    var format := FormatOf(opts.format);
    var i;
    userIds, i := GenerateUsers(store, LoginPrefix, mid, env.totalUsers, CountOf(opts), env.defaultRole, false);
    var rate, rateType, status := RateOf(opts, env), RateTypeOf(opts, env), StatusOf(opts, env);
    affiliateIds := GenerateAffiliates(store, userIds, status, rate, rateType);
    GenerateActivity(store, env, affiliateIds, ReferralsOf(opts), VisitsOf(opts), rnd);
    out := OutputOf(format);
  }

  /** The affiliates loop: one affiliate per created user, in order. */
  method GenerateAffiliates(store: Store, userIds: seq<Id>, status: string, rate: string, rateType: string)
    returns (affiliateIds: seq<Id>)
    modifies store`affiliates
    ensures store.affiliates == old(store.affiliates) + NewAffiliates(userIds, status, rate, rateType)
    ensures affiliateIds == Range(|old(store.affiliates)| + 1, |userIds|)
  {
    ghost var base := |store.affiliates|;
    affiliateIds := [];
    var p := 0;
    while p < |userIds|
      invariant 0 <= p <= |userIds|
      invariant store.affiliates == old(store.affiliates) + NewAffiliates(userIds[..p], status, rate, rateType)
      invariant affiliateIds == Range(base + 1, p)
    {
      var id := store.AddAffiliate(Affiliate(status, userIds[p], rate, rateType));
      assert NewAffiliates(userIds[..p], status, rate, rateType) + [Affiliate(status, userIds[p], rate, rateType)]
          == NewAffiliates(userIds[..p + 1], status, rate, rateType);
      RangeStep(base + 1, p);
      affiliateIds := affiliateIds + [id];
      p := p + 1;
    }
    assert userIds[..p] == userIds;
  }

  /** The command's last loop: the nested referral and visit runs, affiliate
      by affiliate. */
  method GenerateActivity(store: Store, env: Env, affiliates: seq<Id>, referrals: nat, visits: nat, rnd: Random)
    requires forall k :: 0 <= k < |affiliates| ==> affiliates[k] >= 1
    modifies store`referrals, store`visits
    ensures Tables(store.referrals, store.visits)
         == Cascade(affiliates, referrals, visits, env, rnd, Tables(old(store.referrals), old(store.visits)))
  {
    ghost var t := Tables(store.referrals, store.visits);
    var p := 0;
    while p < |affiliates|
      invariant 0 <= p <= |affiliates|
      invariant Tables(store.referrals, store.visits) == Cascade(affiliates[..p], referrals, visits, env, rnd, t)
    {
      ActivityFor(store, env, affiliates[p], p, referrals, visits, rnd);
      assert affiliates[..p + 1][..p] == affiliates[..p];
      p := p + 1;
    }
    assert affiliates[..p] == affiliates;
  }

  /** The nested runs for the affiliate at position `p`. Ids handed out by the
      store are at least 1, so the referral run gets a non-empty
      `affiliate_id` and goes ahead. */
  method ActivityFor(store: Store, env: Env, affiliate: Id, p: nat, referrals: nat, visits: nat, rnd: Random)
    requires affiliate >= 1
    modifies store`referrals, store`visits
    ensures Tables(store.referrals, store.visits)
         == Step(Tables(old(store.referrals), old(store.visits)), affiliate, p, referrals, visits, env, rnd)
  {
    if referrals != 0 {
      StrPositive(affiliate);
      var _, _ := ReferralGenerate.Generate(store, ReferralOptions(referrals, affiliate), [affiliate],
                                            rnd.referral(p));
    }
    assert store.referrals == old(store.referrals) + ReferralPart(affiliate, p, referrals, rnd);
    if visits != 0 {
      var _, _ := VisitGenerate.Generate(store, VisitOptions(visits, referrals), env, [affiliate], rnd.visit(p));
    }
  }
}
