/** `wp affwp referral generate`: `count` referrals for each listed affiliate,
    with a status that is given or drawn once, and a date that is given or
    derived from the iteration counter (includes/commands/class-referral-generate.php). */
module ReferralGenerate {
  import opened Php
  import opened Cli
  import opened Host
  import opened Collect

  /** The command's options as given on the command line (None = absent). */
  datatype Options = Options(count: Option<nat>, affiliateId: Option<string>,
                             status: Option<string>, date: Option<string>,
                             format: Option<string>)

  /** The random values one invocation consumes: the one `rand(0, 3)` status
      draw, and the amount of the k-th referral created (counting from 0). */
  datatype Random = Random(draw: StatusIndex, amount: nat -> Amount)

  const DefaultCount: nat := 10

  const MissingAffiliate: string :=
    "At least one affiliate ID must be specified via --affiliate_id to generate referrals against."

  function CountOf(opts: Options): nat {
    OrDefault(opts.count, DefaultCount)
  }

  /** The status every referral of one invocation gets: the `status` option
      unless it is empty, otherwise the first draw. Once set it is never empty,
      so no later iteration draws again. */
  function StatusOf(status: Option<string>, draw: StatusIndex): (r: string)
    ensures !Empty(r)
    ensures Empty(OrDefault(status, "")) ==> r == Statuses[draw]
    ensures !Empty(OrDefault(status, "")) ==> r == status.value
  {
    var given := OrDefault(status, "");
    if Empty(given) then Statuses[draw] else given
  }

  /** The date passed with the referral of iteration `i` (1-based) for the
      `date` option: the three tokens become relative date expressions for the
      host to evaluate, any other value (and null) passes through unchanged. */
  function DateFor(date: Option<string>, i: nat): Option<string>
    requires i >= 1
  {
    if date == Some("year") then Some("January 01 + " + Str(i - 1) + " day")
    else if date == Some("past") then Some("today - " + Str(i) + " day")
    else if date == Some("future") then Some("today + " + Str(i) + " day")
    else date
  }

  predicate IsToken(date: Option<string>) {
    date == Some("year") || date == Some("past") || date == Some("future")
  }

  /** Iteration 1 lands on January 1st, yesterday or tomorrow; for a token two
      iterations never share a date; any other value is used for every
      iteration alike. */
  lemma DateForTokens(date: Option<string>, i: nat, j: nat)
    requires i >= 1 && j >= 1
    ensures date == Some("year") ==> DateFor(date, 1) == Some("January 01 + 0 day")
    ensures date == Some("past") ==> DateFor(date, 1) == Some("today - 1 day")
    ensures date == Some("future") ==> DateFor(date, 1) == Some("today + 1 day")
    ensures IsToken(date) ==> (DateFor(date, i) == DateFor(date, j) <==> i == j)
    ensures !IsToken(date) ==> DateFor(date, i) == date
  {
    assert Str(0) == "0" && Str(1) == "1";
    assert "January 01 + " + "0" + " day" == "January 01 + 0 day";
    assert "today - " + "1" + " day" == "today - 1 day";
    assert "today + " + "1" + " day" == "today + 1 day";
    if IsToken(date) && DateFor(date, i) == DateFor(date, j) {
      var pre := if date == Some("year") then "January 01 + "
                 else if date == Some("past") then "today - " else "today + ";
      var a := if date == Some("year") then i - 1 else i;
      var b := if date == Some("year") then j - 1 else j;
      assert DateFor(date, i).value == pre + Str(a) + " day";
      assert DateFor(date, j).value == pre + Str(b) + " day";
      SuffixCancel(pre + Str(a), pre + Str(b), " day");
      PrefixCancel(pre, Str(a), Str(b));
      StrInjective(a, b);
    }
  }

  /** The referrals created for one affiliate: iterations 1..n, the j-th
      referral created being number `offset + j` of the invocation. */
  function Block(affiliate: Id, offset: nat, n: nat, status: string, date: Option<string>,
                 amount: nat -> Amount): seq<Referral>
  {
    seq(n, j requires 0 <= j => Referral(affiliate, amount(offset + j), status, None, DateFor(date, j + 1), None))
  }

  lemma BlockStep(affiliate: Id, offset: nat, n: nat, status: string, date: Option<string>,
                  amount: nat -> Amount)
    ensures Block(affiliate, offset, n, status, date, amount)
            + [Referral(affiliate, amount(offset + n), status, None, DateFor(date, n + 1), None)]
         == Block(affiliate, offset, n + 1, status, date, amount)
  {
  }

  /** One iteration of a round's inner loop takes the table and the id map
      after `n` referrals to the table and the id map after `n + 1`. */
  lemma RoundNext(r0: seq<Referral>, m: map<Id, seq<Id>>, affiliate: Id, offset: nat, n: nat,
                  status: string, date: Option<string>, amount: nat -> Amount,
                  r: seq<Referral>, g: map<Id, seq<Id>>, r': seq<Referral>, g': map<Id, seq<Id>>)
    requires r == r0 + Block(affiliate, offset, n, status, date, amount)
    requires g == PushAll(m, affiliate, Range(|r0| + 1, n))
    requires r' == r + [Referral(affiliate, amount(offset + n), status, None, DateFor(date, n + 1), None)]
    requires g' == Push(g, affiliate, |r'|)
    ensures r' == r0 + Block(affiliate, offset, n + 1, status, date, amount)
    ensures g' == PushAll(m, affiliate, Range(|r0| + 1, n + 1))
  {
    BlockStep(affiliate, offset, n, status, date, amount);
    PushNext(m, affiliate, |r0| + 1, n);
  }

  /** The referrals created for the listed affiliates, in list order. */
  function Batch(ids: seq<Id>, count: nat, status: string, date: Option<string>,
                 amount: nat -> Amount): seq<Referral>
  {
    if ids == [] then []
    else
      var n := |ids| - 1;
      Batch(ids[..n], count, status, date, amount) + Block(ids[n], n * count, count, status, date, amount)
  }

  lemma {:induction false} BatchLength(ids: seq<Id>, count: nat, status: string, date: Option<string>,
                                       amount: nat -> Amount)
    ensures |Batch(ids, count, status, date, amount)| == |ids| * count
  {
    if ids != [] {
      BatchLength(ids[..|ids| - 1], count, status, date, amount);
    }
  }

  lemma BatchStep(ids: seq<Id>, p: nat, count: nat, status: string, date: Option<string>,
                  amount: nat -> Amount)
    requires p < |ids|
    ensures Batch(ids[..p], count, status, date, amount) + Block(ids[p], p * count, count, status, date, amount)
         == Batch(ids[..p + 1], count, status, date, amount)
  {
    assert ids[..p + 1][..p] == ids[..p];
  }

  /** Referral `i` (1-based) of the affiliate at list position `p` carries that
      affiliate, the invocation's one status, the date of iteration `i` (the
      same for every affiliate, as the counter restarts at 1) and no campaign. */
  lemma {:induction false} BatchAt(ids: seq<Id>, count: nat, status: string, date: Option<string>,
                                   amount: nat -> Amount, p: nat, i: nat)
    requires p < |ids| && 1 <= i <= count
    ensures |Batch(ids, count, status, date, amount)| == |ids| * count
    ensures p * count + i - 1 < |ids| * count
    ensures Batch(ids, count, status, date, amount)[p * count + i - 1]
         == Referral(ids[p], amount(p * count + i - 1), status, None, DateFor(date, i), None)
  {
    var n := |ids| - 1;
    BatchLength(ids, count, status, date, amount);
    BatchLength(ids[..n], count, status, date, amount);
    if p < n {
      BatchAt(ids[..n], count, status, date, amount, p, i);
    }
  }

  /** The command. `ids` is what `wp_parse_id_list` makes of the `affiliate_id`
      option; a non-empty option such as "," can still parse to no ids. The
      progress bar is only made inside the per-affiliate loop, so in
      `progress` format an empty list ends in the fatal `$notify->finish()`
      on `false`. */
  method Generate(store: Store, opts: Options, ids: seq<Id>, rnd: Random)
    returns (r: Outcome<map<Id, seq<Id>>>, out: Output)
    modifies store`referrals
    ensures r.Fatal? <==> Blank(opts.affiliateId)
    ensures r.Fatal? ==> r.message == MissingAffiliate && store.referrals == old(store.referrals)
    ensures r.Crashed? <==> !Blank(opts.affiliateId) && ids == [] && FormatOf(opts.format) == "progress"
    ensures !r.Fatal? ==> (store.referrals == old(store.referrals)
              + Batch(ids, CountOf(opts), StatusOf(opts.status, rnd.draw), opts.date, rnd.amount))
    ensures r.Done? ==> r.value == Grouped(ids, CountOf(opts), |old(store.referrals)|)
    ensures out == if r.Done? then OutputOf(FormatOf(opts.format)) else NoOutput
  {
    var count := CountOf(opts);
    var format := FormatOf(opts.format);
    var status := OrDefault(opts.status, "");
    if Blank(opts.affiliateId) {
      return Fatal(MissingAffiliate), NoOutput;
    }
    ghost var chosen := StatusOf(opts.status, rnd.draw);
    ghost var base := |store.referrals|;
    var progress := format == "progress";
    var notify := false;
    var referrals: map<Id, seq<Id>> := map[];
    var p := 0;
    while p < |ids|
      invariant 0 <= p <= |ids|
      invariant notify == (progress && p > 0)
      invariant status == OrDefault(opts.status, "") || status == chosen
      invariant store.referrals == old(store.referrals) + Batch(ids[..p], count, chosen, opts.date, rnd.amount)
      invariant referrals == Grouped(ids[..p], count, base)
    {
      notify := notify || progress;
      BatchLength(ids[..p], count, chosen, opts.date, rnd.amount);
      status, referrals := GenerateFor(store, opts, ids[p], p * count, status, rnd, referrals);
      BatchStep(ids, p, count, chosen, opts.date, rnd.amount);
      assert ids[..p + 1][..p] == ids[..p];
      p := p + 1;
    }
    assert ids[..p] == ids;
    if progress && !notify {
      return Crashed, NoOutput;
    }
    r := Done(referrals);
    out := OutputOf(format);
  }

  /** `if ( empty( $status ) ) $status = $statuses[ rand( 0, 3 ) ];` on a
      status that is still the option as given or already the invocation's
      status: afterwards it is the invocation's status, and a status that is
      already set is kept. */
  method KeepOrDraw(given: Option<string>, status: string, draw: StatusIndex) returns (status': string)
    requires status == OrDefault(given, "") || status == StatusOf(given, draw)
    ensures status' == StatusOf(given, draw)
    ensures !Empty(status) ==> status' == status
    ensures Empty(status) ==> status' == Statuses[draw]
  {
    status' := status;
    if Empty(status') {
      status' := Statuses[draw];
    }
  }

  /** One round of the command's outer loop: the inner `for` loop creating the
      `count` referrals of `affiliate`, which is the `offset / count`-th listed
      one. `status` is carried from round to round: it is drawn the first time
      it is found empty and kept from then on. */
  method GenerateFor(store: Store, opts: Options, affiliate: Id, offset: nat, status: string,
                     rnd: Random, referrals: map<Id, seq<Id>>)
    returns (status': string, referrals': map<Id, seq<Id>>)
    requires status == OrDefault(opts.status, "") || status == StatusOf(opts.status, rnd.draw)
    modifies store`referrals
    ensures status' == OrDefault(opts.status, "") || status' == StatusOf(opts.status, rnd.draw)
    ensures store.referrals == old(store.referrals)
              + Block(affiliate, offset, CountOf(opts), StatusOf(opts.status, rnd.draw), opts.date, rnd.amount)
    ensures referrals' == PushAll(referrals, affiliate, Range(|old(store.referrals)| + 1, CountOf(opts)))
  {
    var count := CountOf(opts);
    ghost var chosen := StatusOf(opts.status, rnd.draw);
    ghost var base := |store.referrals|;
    status', referrals' := status, referrals;
    var i := 1;
    while i <= count
      invariant 1 <= i <= count + 1
      invariant status' == OrDefault(opts.status, "") || status' == chosen
      invariant store.referrals == old(store.referrals) + Block(affiliate, offset, i - 1, chosen, opts.date, rnd.amount)
      invariant referrals' == PushAll(referrals, affiliate, Range(base + 1, i - 1))
    {
      status' := KeepOrDraw(opts.status, status', rnd.draw);
      var date := DateFor(opts.date, i);
      ghost var made, collected := store.referrals, referrals';
      var id := store.AddReferral(Referral(affiliate, rnd.amount(offset + i - 1), status', None, date, None));
      referrals' := Push(referrals', affiliate, id);
      RoundNext(old(store.referrals), referrals, affiliate, offset, i - 1, chosen, opts.date, rnd.amount,
                made, collected, store.referrals, referrals');
      i := i + 1;
    }
  }
}
