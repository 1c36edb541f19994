/** `wp affwp visit generate`: `count` visits for each listed affiliate, and
    with `with_referral=yes` one referral per affiliate, created before its
    visits, carried by all of them, and pointing back at the last of them
    (includes/commands/class-visit-generate.php). */
module VisitGenerate {
  import opened Php
  import opened Cli
  import opened Host
  import opened Collect

  /** The command's options as given on the command line (None = absent). The
      `affiliate_id` list is passed separately, already parsed. */
  datatype Options = Options(count: Option<nat>, withReferral: Option<string>,
                             visitUrl: Option<string>, referrer: Option<string>,
                             format: Option<string>)

  /** The random values one invocation consumes, per listed affiliate (by its
      position): the `rand(0, 3)` status draw and the amount of its referral. */
  datatype Random = Random(draw: nat -> StatusIndex, amount: nat -> Amount)

  const DefaultCount: nat := 10

  function CountOf(opts: Options): nat {
    OrDefault(opts.count, DefaultCount)
  }

  /** `visit_url`, by default `site_url('cli')`. */
  function UrlOf(opts: Options, env: Env): string {
    OrDefault(opts.visitUrl, env.cliUrl)
  }

  /** `referrer`, by default empty (a direct visit). */
  function ReferrerOf(opts: Options): string {
    OrDefault(opts.referrer, "")
  }

  /** `'yes' === $assoc_args['with_referral']`, the option defaulting to 'no'. */
  predicate Linked(opts: Options) {
    OrDefault(opts.withReferral, "no") == "yes"
  }

  /** The referral of the affiliate at list position `p`, with the visit id it
      holds once its visits are made. Its status is drawn afresh per affiliate;
      no date and no campaign are passed. */
  function Paired(affiliate: Id, p: nat, rnd: Random, lastVisit: Option<Id>): Referral {
    Referral(affiliate, rnd.amount(p), Statuses[rnd.draw(p)], None, None, lastVisit)
  }

  /** The last visit id of the `p`-th affiliate when visit numbering continues
      from `visitBase`; None when no visit is made. */
  function LastVisit(p: nat, count: nat, visitBase: nat): Option<Id> {
    if count == 0 then None else Some(visitBase + (p + 1) * count)
  }

  /** The referrals the command leaves behind: one per listed affiliate when
      linked, none otherwise. */
  function Referrals(ids: seq<Id>, count: nat, linked: bool, visitBase: nat, rnd: Random): seq<Referral> {
    if linked then seq(|ids|, p requires 0 <= p < |ids| => Paired(ids[p], p, rnd, LastVisit(p, count, visitBase)))
    else []
  }

  /** The referral id the visits of the `p`-th affiliate carry. */
  function ReferralOf(linked: bool, refBase: nat, p: nat): Option<Id> {
    if linked then Some(refBase + p + 1) else None
  }

  /** The visits of one affiliate: `count` alike, carrying `referral`. */
  function Round(affiliate: Id, count: nat, url: string, referrer: string,
                 referral: Option<Id>): (r: seq<Visit>)
    ensures |r| == count
  {
    seq(count, k => Visit(affiliate, url, referrer, referral))
  }

  /** The visits created for the listed affiliates, in list order. */
  function Visits(ids: seq<Id>, count: nat, url: string, referrer: string, linked: bool,
                  refBase: nat): seq<Visit>
  {
    if ids == [] then []
    else
      var n := |ids| - 1;
      Visits(ids[..n], count, url, referrer, linked, refBase)
        + Round(ids[n], count, url, referrer, ReferralOf(linked, refBase, n))
  }

  lemma {:induction false} VisitsLength(ids: seq<Id>, count: nat, url: string, referrer: string,
                                        linked: bool, refBase: nat)
    ensures |Visits(ids, count, url, referrer, linked, refBase)| == |ids| * count
  {
    if ids != [] {
      var n := |ids| - 1;
      VisitsLength(ids[..n], count, url, referrer, linked, refBase);
      assert |Visits(ids, count, url, referrer, linked, refBase)|
          == |Visits(ids[..n], count, url, referrer, linked, refBase)| + count;
      assert n * count + count == |ids| * count;
    }
  }

  /** Visit `j` (0-based) of the affiliate at position `p` carries that
      affiliate, the given url and referrer, and that affiliate's own referral
      id: one affiliate's referral never reaches the next one's visits. */
  lemma {:induction false} VisitsAt(ids: seq<Id>, count: nat, url: string, referrer: string,
                                    linked: bool, refBase: nat, p: nat, j: nat)
    requires p < |ids| && j < count
    ensures |Visits(ids, count, url, referrer, linked, refBase)| == |ids| * count
    ensures p * count + j < |ids| * count
    ensures Visits(ids, count, url, referrer, linked, refBase)[p * count + j]
         == Visit(ids[p], url, referrer, ReferralOf(linked, refBase, p))
  {
    var n := |ids| - 1;
    VisitsLength(ids, count, url, referrer, linked, refBase);
    VisitsLength(ids[..n], count, url, referrer, linked, refBase);
    if p < n {
      VisitsAt(ids[..n], count, url, referrer, linked, refBase, p, j);
    }
  }

  /** One invocation's visits are all converted or all unconverted. */
  lemma {:induction false} VisitsUniform(ids: seq<Id>, count: nat, url: string, referrer: string,
                                         linked: bool, refBase: nat, k: nat)
    requires k < |Visits(ids, count, url, referrer, linked, refBase)|
    ensures Visits(ids, count, url, referrer, linked, refBase)[k].referralId.Some? <==> linked
  {
    var n := |ids| - 1;
    var front := Visits(ids[..n], count, url, referrer, linked, refBase);
    if k < |front| {
      VisitsUniform(ids[..n], count, url, referrer, linked, refBase, k);
    }
  }

  /** The visit-referral link: with `with_referral=yes` and at least one visit,
      the referral of the affiliate at position `p` (id `refBase + p + 1`)
      holds the id of that affiliate's last visit, and that visit holds the
      referral's id. Without it no referral is created at all. */
  lemma BackLink(ids: seq<Id>, count: nat, url: string, referrer: string, linked: bool,
                 refBase: nat, visitBase: nat, rnd: Random, p: nat)
    requires p < |ids|
    ensures !linked ==> Referrals(ids, count, linked, visitBase, rnd) == []
    ensures linked ==> |Referrals(ids, count, linked, visitBase, rnd)| == |ids|
    ensures |Visits(ids, count, url, referrer, linked, refBase)| == |ids| * count
    ensures p * count + count <= |ids| * count
    ensures linked ==> Referrals(ids, count, linked, visitBase, rnd)[p].affiliateId == ids[p]
    ensures linked && count > 0 ==>
      && Referrals(ids, count, linked, visitBase, rnd)[p].visitId == Some(visitBase + p * count + count)
      && Visits(ids, count, url, referrer, linked, refBase)[p * count + count - 1]
         == Visit(ids[p], url, referrer, Some(refBase + p + 1))
  {
    VisitsLength(ids, count, url, referrer, linked, refBase);
    if count > 0 {
      VisitsAt(ids, count, url, referrer, linked, refBase, p, count - 1);
    } else {
      assert p * count + count == 0;
    }
    assert (p + 1) * count == p * count + count;
  }

  lemma VisitsStep(ids: seq<Id>, p: nat, count: nat, url: string, referrer: string,
                   linked: bool, refBase: nat, visitBase: nat, rnd: Random)
    requires p < |ids|
    ensures Visits(ids[..p + 1], count, url, referrer, linked, refBase)
         == Visits(ids[..p], count, url, referrer, linked, refBase)
            + Round(ids[p], count, url, referrer, ReferralOf(linked, refBase, p))
    ensures Referrals(ids[..p + 1], count, linked, visitBase, rnd)
         == Referrals(ids[..p], count, linked, visitBase, rnd)
            + (if linked then [Paired(ids[p], p, rnd, LastVisit(p, count, visitBase))] else [])
  {
    assert ids[..p + 1][..p] == ids[..p];
  }

  /** One round of the outer loop takes the state the first `p` rounds leave
      behind to the state the first `p + 1` rounds leave behind. */
  lemma Advance(ids: seq<Id>, p: nat, count: nat, url: string, referrer: string, linked: bool,
                refBase: nat, visitBase: nat, rnd: Random,
                r0: seq<Referral>, v0: seq<Visit>, r: seq<Referral>, v: seq<Visit>,
                g: map<Id, seq<Id>>, r': seq<Referral>, v': seq<Visit>, g': map<Id, seq<Id>>)
    requires p < |ids| && |r0| == refBase && |v0| == visitBase
    requires r == r0 + Referrals(ids[..p], count, linked, visitBase, rnd)
    requires v == v0 + Visits(ids[..p], count, url, referrer, linked, refBase)
    requires g == Grouped(ids[..p], count, visitBase)
    requires r' == r + (if linked then [Paired(ids[p], p, rnd, if count == 0 then None else Some(|v| + count))]
                        else [])
    requires v' == v + Round(ids[p], count, url, referrer, if linked then Some(|r| + 1) else None)
    requires g' == PushAll(g, ids[p], Range(|v| + 1, count))
    ensures r' == r0 + Referrals(ids[..p + 1], count, linked, visitBase, rnd)
    ensures v' == v0 + Visits(ids[..p + 1], count, url, referrer, linked, refBase)
    ensures g' == Grouped(ids[..p + 1], count, visitBase)
  {
    VisitsLength(ids[..p], count, url, referrer, linked, refBase);
    VisitsStep(ids, p, count, url, referrer, linked, refBase, visitBase, rnd);
    assert p * count + count == (p + 1) * count;
    assert ids[..p + 1][..p] == ids[..p];
  }

  /** The command. `ids` is what `wp_parse_id_list` makes of the
      `affiliate_id` option; it may be empty, and nothing checks it. The
      progress bar is only made inside the per-affiliate loop, so in
      `progress` format an empty list ends in the fatal `$notify->finish()`
      on `false`. */
  method Generate(store: Store, opts: Options, env: Env, ids: seq<Id>, rnd: Random)
    returns (r: Outcome<map<Id, seq<Id>>>, out: Output)
    modifies store`referrals, store`visits
    ensures !r.Fatal?
    ensures r.Crashed? <==> ids == [] && FormatOf(opts.format) == "progress"
    ensures store.referrals == old(store.referrals)
              + Referrals(ids, CountOf(opts), Linked(opts), |old(store.visits)|, rnd)
    ensures store.visits == old(store.visits)
              + Visits(ids, CountOf(opts), UrlOf(opts, env), ReferrerOf(opts), Linked(opts),
                       |old(store.referrals)|)
    ensures r.Done? ==> r.value == Grouped(ids, CountOf(opts), |old(store.visits)|)
    ensures out == if r.Done? then OutputOf(FormatOf(opts.format)) else NoOutput
  {
    var format := FormatOf(opts.format);
    var progress := format == "progress";
    var visits, notify := GenerateAll(store, opts, env, ids, progress, rnd);
    if progress && !notify {
      return Crashed, NoOutput;
    }
    r := Done(visits);
    out := OutputOf(format);
  }

  /** The command's outer loop. `notify` tells whether a progress bar has
      been made: one is made per affiliate in `progress` format. */
  method GenerateAll(store: Store, opts: Options, env: Env, ids: seq<Id>, progress: bool, rnd: Random)
    returns (visits: map<Id, seq<Id>>, notify: bool)
    modifies store`referrals, store`visits
    ensures notify <==> progress && ids != []
    ensures store.referrals == old(store.referrals)
              + Referrals(ids, CountOf(opts), Linked(opts), |old(store.visits)|, rnd)
    ensures store.visits == old(store.visits)
              + Visits(ids, CountOf(opts), UrlOf(opts, env), ReferrerOf(opts), Linked(opts),
                       |old(store.referrals)|)
    ensures visits == Grouped(ids, CountOf(opts), |old(store.visits)|)
  {
    var count := CountOf(opts);
    ghost var linked, url, referrer := Linked(opts), UrlOf(opts, env), ReferrerOf(opts);
    ghost var refBase, visitBase := |store.referrals|, |store.visits|;
    notify := false;
    visits := map[];
    var p := 0;
    while p < |ids|
      invariant 0 <= p <= |ids|
      invariant notify == (progress && p > 0)
      invariant store.referrals == old(store.referrals) + Referrals(ids[..p], count, linked, visitBase, rnd)
      invariant store.visits == old(store.visits) + Visits(ids[..p], count, url, referrer, linked, refBase)
      invariant visits == Grouped(ids[..p], count, visitBase)
    {
      notify := notify || progress;
      visits := GenerateNext(store, opts, env, ids, p, rnd, visits, old(store.referrals), old(store.visits));
      p := p + 1;
    }
    assert ids[..p] == ids;
  }

  /** The round for the affiliate at position `p`, stated as the step from
      the tables and the map after the first `p` affiliates to those after
      the first `p + 1`; `r0` and `v0` are the tables before the command. */
  method GenerateNext(store: Store, opts: Options, env: Env, ids: seq<Id>, p: nat, rnd: Random,
                      visits: map<Id, seq<Id>>, ghost r0: seq<Referral>, ghost v0: seq<Visit>)
    returns (visits': map<Id, seq<Id>>)
    requires p < |ids|
    requires store.referrals == r0 + Referrals(ids[..p], CountOf(opts), Linked(opts), |v0|, rnd)
    requires store.visits == v0 + Visits(ids[..p], CountOf(opts), UrlOf(opts, env), ReferrerOf(opts),
                                         Linked(opts), |r0|)
    requires visits == Grouped(ids[..p], CountOf(opts), |v0|)
    modifies store`referrals, store`visits
    ensures store.referrals == r0 + Referrals(ids[..p + 1], CountOf(opts), Linked(opts), |v0|, rnd)
    ensures store.visits == v0 + Visits(ids[..p + 1], CountOf(opts), UrlOf(opts, env), ReferrerOf(opts),
                                        Linked(opts), |r0|)
    ensures visits' == Grouped(ids[..p + 1], CountOf(opts), |v0|)
  {
    ghost var referrals, made := store.referrals, store.visits;
    visits' := GenerateFor(store, opts, env, ids[p], p, rnd, visits);
    Advance(ids, p, CountOf(opts), UrlOf(opts, env), ReferrerOf(opts), Linked(opts), |r0|, |v0|, rnd,
            r0, v0, referrals, made, visits, store.referrals, store.visits, visits');
  }

  /** One round of the command's outer loop, for the affiliate at position
      `p`: `$args` is built afresh, the paired referral is created when linked,
      then the `count` visits, each one written back into the referral. */
  method GenerateFor(store: Store, opts: Options, env: Env, affiliate: Id, p: nat, rnd: Random,
                     visits: map<Id, seq<Id>>)
    returns (visits': map<Id, seq<Id>>)
    modifies store`referrals, store`visits
    ensures store.referrals == old(store.referrals)
              + (if Linked(opts)
                 then [Paired(affiliate, p, rnd,
                              if CountOf(opts) == 0 then None else Some(|old(store.visits)| + CountOf(opts)))]
                 else [])
    ensures store.visits == old(store.visits)
              + Round(affiliate, CountOf(opts), UrlOf(opts, env), ReferrerOf(opts),
                      if Linked(opts) then Some(|old(store.referrals)| + 1) else None)
    ensures visits' == PushAll(visits, affiliate, Range(|old(store.visits)| + 1, CountOf(opts)))
  {
    ghost var before, visitBase := store.referrals, |store.visits|;
    var referralId: Option<Id> := None;
    if OrDefault(opts.withReferral, "no") == "yes" {
      var id := store.AddReferral(Paired(affiliate, p, rnd, None));
      referralId := Some(id);
    }
    visits' := MakeVisits(store, affiliate, CountOf(opts), UrlOf(opts, env), ReferrerOf(opts), referralId, visits);
    PairedRelinked(before, affiliate, p, rnd, visitBase, CountOf(opts));
  }

  /** The referral table once `n` visits of a round have been written back
      into the referral `referralId`: its `visit_id` is the last of them,
      `base + n`; with no visit or no referral the table is as it was. */
  function Relinked(rs: seq<Referral>, referralId: Option<Id>, base: nat, n: nat): (r: seq<Referral>)
    requires referralId.Some? ==> 1 <= referralId.value <= |rs|
    ensures |r| == |rs|
  {
    if n == 0 || referralId.None? then rs
    else rs[referralId.value - 1 := rs[referralId.value - 1].(visitId := Some(base + n))]
  }

  /** Writing visit `base + n + 1` back into the referral after `n` visits
      gives the table after `n + 1`. */
  lemma RelinkNext(rs: seq<Referral>, referralId: Option<Id>, base: nat, n: nat)
    requires referralId.Some? ==> 1 <= referralId.value <= |rs|
    ensures referralId.None? ==> Relinked(rs, referralId, base, n + 1) == Relinked(rs, referralId, base, n)
    ensures referralId.Some? ==>
      var r := Relinked(rs, referralId, base, n);
      r[referralId.value - 1 := r[referralId.value - 1].(visitId := Some(base + n + 1))]
        == Relinked(rs, referralId, base, n + 1)
  {
  }

  /** A freshly created paired referral, relinked after the round's `n`
      visits, holds the id of the last of them, or none when `n` is 0. */
  lemma PairedRelinked(before: seq<Referral>, affiliate: Id, p: nat, rnd: Random, base: nat, n: nat)
    ensures Relinked(before + [Paired(affiliate, p, rnd, None)], Some(|before| + 1), base, n)
         == before + [Paired(affiliate, p, rnd, if n == 0 then None else Some(base + n))]
  {
    if n > 0 {
      assert (before + [Paired(affiliate, p, rnd, None)])[|before|
                := Paired(affiliate, p, rnd, Some(base + n))]
          == before + [Paired(affiliate, p, rnd, Some(base + n))];
    }
  }

  /** The inner `for` loop of a round: `count` visits carrying `referralId`,
      each written back into that referral when there is one. */
  method MakeVisits(store: Store, affiliate: Id, count: nat, url: string, referrer: string,
                    referralId: Option<Id>, visits: map<Id, seq<Id>>)
    returns (visits': map<Id, seq<Id>>)
    requires referralId.Some? ==> 1 <= referralId.value <= |store.referrals|
    modifies store`referrals, store`visits
    ensures store.referrals == Relinked(old(store.referrals), referralId, |old(store.visits)|, count)
    ensures store.visits == old(store.visits) + Round(affiliate, count, url, referrer, referralId)
    ensures visits' == PushAll(visits, affiliate, Range(|old(store.visits)| + 1, count))
  {
    ghost var base := |store.visits|;
    ghost var made := Round(affiliate, count, url, referrer, referralId);
    visits' := visits;
    var i := 1;
    while i <= count
      invariant 1 <= i <= count + 1
      invariant store.referrals == Relinked(old(store.referrals), referralId, base, i - 1)
      invariant store.visits == old(store.visits) + made[..i - 1]
      invariant visits' == PushAll(visits, affiliate, Range(base + 1, i - 1))
    {
      var visitId := store.AddVisit(Visit(affiliate, url, referrer, referralId));
      assert made[..i] == made[..i - 1] + [Visit(affiliate, url, referrer, referralId)];
      PushNext(visits, affiliate, base + 1, i - 1);
      visits' := Push(visits', affiliate, visitId);
      RelinkNext(old(store.referrals), referralId, base, i - 1);
      if referralId.Some? {
        store.SetReferralVisit(referralId.value, visitId);
      }
      i := i + 1;
    }
    assert made[..count] == made;
  }
}
