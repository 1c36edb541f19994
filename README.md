# AffiliateWP WP-CLI generators, modelled in Dafny

This project models the five `generate` sub-commands of the AffiliateWP WP-CLI
generator plugin: `referral`, `visit`, `affiliate`, `creative` and
`wp-affiliate generate`. Each command reads its options and fills in
defaults. It then runs loops that create records through host calls and
collects the new ids.

The host tables are one abstract in-memory `Host.Store` class. It has one
sequence field per table: users, affiliates, referrals, visits, creatives and
WP Affiliate accounts. Each `Add` method appends a record and returns its id;
ids count 1, 2, 3, ... per table. `SetReferralVisit` is
`affwp_get_referral($id)->set('visit_id', …)`; it rewrites that one field of
an existing referral. Each command is a method over the store. Its
postcondition gives the store's new contents and the returned ids as
functions of the inputs and the old state:

- `ReferralGenerate.Batch`, `VisitGenerate.Referrals` and `VisitGenerate.Visits`;
- `AffiliateGenerate.Cascade`, `WpAffiliateGenerate.Accounts`;
- `Collect.Grouped` for the `$ids[$affiliate_id][] = $id` maps.

Lemmas about those functions state what the commands promise.

Random choices and host values are inputs:

- the login salt `mid`;
- the `rand(0, 3)` status draws and the referral amounts, as `Random` datatypes;
- the generated passwords;
- the host values in `Host.Env`: `site_url('cli')`, the blog name, the total
  user count, the default role, today's date, whether the WP Affiliate plugin
  is active, and `sanitize_text_field`.

The affiliate id list that `wp_parse_id_list` produces is passed in already
parsed.

PHP semantics are written out:

- `empty()` on an option string is true for `""` and `"0"` (`Php.Empty`).
- An absent option is `None`; `array_merge` and `get_flag_value` defaults
  apply only to absent options, so a given empty value wins.
- `%d` formatting is `Php.Str`, proved injective through `Php.Parse`.
- An undefined variable is `None`. This covers `$campaign` in the referral
  generator and a `date` option that is not given.

Where the commands' own documentation and their code disagree, the model
follows the code:

- Every `format` option is documented as "Default: ids", but each command
  defaults to `progress`.
- The visit generator documents a default count of 100 and "a referral with
  each generated visit". The code defaults to 10 and creates ONE referral per
  affiliate, created before that affiliate's visits and shared by all of them.
  After the loop, that referral's `visit_id` is the id of the last visit.
- The visit generator documents a `referral_id` option. The code parses
  `referral_ids` and never uses the result.
- The visit generator has no `status` option and no check for an empty
  affiliate list. Its paired referral's status is drawn afresh per affiliate.
- The referral and visit generators make their progress bar inside the
  per-affiliate loop, but call `$notify->finish()` after it whenever the
  format is `progress`. A list that parses to no ids (the visit generator
  never checks it; the referral generator only checks that the option is
  non-empty, and "," passes) leaves `$notify` as `false`, and that call is a
  fatal error. The model returns `Cli.Crashed` there, with no report and
  nothing created.
- In the referral generator, a status is drawn only when none is given, and
  only for the first referral. Every later referral of the invocation, for any
  affiliate, reuses it. The model keeps this as written.
- In the users branch of the WP Affiliate generator, every account's last name
  reads the users loop's leftover counter, which is `total + count`. So all
  accounts of a run share one last name. The model keeps this as written.

## Model

| member | source | states |
|---|---|---|
| ReferralGenerate.Generate | includes/commands/class-referral-generate.php:42-110 | Fails with the exact message, creating nothing, exactly when `affiliate_id` is absent, "" or "0". Otherwise the new referrals are `Batch`, with one status for the whole invocation. It dies with a fatal error, with no report, exactly when the parsed list is empty in `progress` format; else the returned map is `Grouped`. The output is a progress bar by default and the id line only for `ids`. |
| ReferralGenerate.GenerateFor | includes/commands/class-referral-generate.php:75-102 | One affiliate's inner loop: `count` referrals for it, numbered on from the store's length and pushed under that affiliate in creation order. The status is drawn only while it is still empty, and drawn or given it is the invocation's status from then on. |
| ReferralGenerate.KeepOrDraw | includes/commands/class-referral-generate.php:76-78 | On a status that is still the option or already the invocation's status, the result is the invocation's status: a non-empty status is kept, an empty one becomes the drawn one. |
| ReferralGenerate.DateFor | includes/commands/class-referral-generate.php:80-88 | The `date` of iteration `i`: a relative date string for `year`, `past` and `future`, otherwise the option as given (its properties are stated by `DateForTokens`). |
| ReferralGenerate.Block | includes/commands/class-referral-generate.php:75-97 | One affiliate's `n` referrals: that affiliate, the `offset + j`-th amount, the one status, no campaign and the date of iteration `j + 1` (stated per index by `BatchAt`). |
| ReferralGenerate.Batch | includes/commands/class-referral-generate.php:63-102 | The referrals of the whole run: one `Block` per listed affiliate, in list order, amounts numbered on across affiliates (`BatchLength`, `BatchAt`). |
| ReferralGenerate.StatusOf | includes/commands/class-referral-generate.php:76-78 | The status used is never empty. It is the given one when that is non-empty, otherwise the first `rand(0, 3)` pick from paid/unpaid/pending/rejected. |
| ReferralGenerate.DateForTokens | includes/commands/class-referral-generate.php:80-88 | Iteration 1 of `year`, `past`, `future` gives January 1st + 0, today - 1, today + 1. For a token, different iterations never share a date. Any other value, or none, passes through unchanged. |
| ReferralGenerate.BatchLength | includes/commands/class-referral-generate.php:63-75 | Exactly `count` referrals per listed affiliate. |
| ReferralGenerate.BatchAt | includes/commands/class-referral-generate.php:63-97 | Referral `i` of the affiliate at list position `p` sits at `p*count + i - 1`. It carries that affiliate's id, the one status, no campaign, and the date of iteration `i`, so every affiliate gets the same date sequence. |
| Collect.Grouped | includes/commands/class-referral-generate.php:91 | The `$ids[$affiliate_id][] = $id` map after one round of `count` consecutive ids per listed id; the same fold is at class-visit-generate.php:101 (`GroupedKeys`, `GroupedDistinct`). |
| Collect.GroupedKeys | includes/commands/class-referral-generate.php:91 | The id map has an entry exactly for the listed ids, and none at all when `count` is 0. |
| Collect.GroupedDistinct | includes/commands/class-referral-generate.php:91 | For a list without repeats, the entry of the `p`-th id holds exactly the ids created in round `p`, in creation order. |
| Collect.PushStep | includes/commands/class-visit-generate.php:101 | Pushing ids one at a time equals pushing them all at once. |
| VisitGenerate.Linked | includes/commands/class-visit-generate.php:90 | `'yes' === $assoc_args['with_referral']`, with the option defaulting to 'no'. |
| VisitGenerate.Paired | includes/commands/class-visit-generate.php:91-95 | The paired referral: the affiliate, the drawn amount and status, no campaign or date, and the visit id it holds. |
| VisitGenerate.Referrals | includes/commands/class-visit-generate.php:65-106 | The referrals of the whole run: one `Paired` per affiliate holding its last visit's id when linked, none otherwise (`BackLink`). |
| VisitGenerate.Visits | includes/commands/class-visit-generate.php:65-101 | The visits of the whole run: `count` per affiliate, in list order, carrying that affiliate's referral id (`VisitsLength`, `VisitsAt`, `VisitsUniform`). |
| VisitGenerate.Generate | includes/commands/class-visit-generate.php:44-119 | Never fails with a message. The new referrals are `Referrals`: one per affiliate when `with_referral` is exactly "yes", none otherwise. The new visits are `Visits`. It dies with a fatal error, with no report, exactly when the list is empty in `progress` format; otherwise the returned map is `Grouped` over the visit ids and the output follows `format`. |
| VisitGenerate.GenerateAll | includes/commands/class-visit-generate.php:61-112 | The per-affiliate loop: a progress bar exists afterwards exactly when the format is `progress` and the list is non-empty; the store and the map are as `Generate` states. |
| VisitGenerate.GenerateNext | includes/commands/class-visit-generate.php:67-112 | The round for the affiliate at position `p` takes the tables and the map after the first `p` affiliates to `Referrals`, `Visits` and `Grouped` over the first `p + 1`. |
| VisitGenerate.Advance | includes/commands/class-visit-generate.php:67-112 | One round of that loop takes the state after the first `p` affiliates to the state after the first `p + 1`. |
| VisitGenerate.GenerateFor | includes/commands/class-visit-generate.php:84-111 | One affiliate's round. At most one referral is appended and its `visit_id` ends as the last visit's id, or stays unset when no visit is made. The `count` visits carry that referral's id. Earlier referrals are untouched. |
| VisitGenerate.MakeVisits | includes/commands/class-visit-generate.php:98-111 | The inner loop: exactly `count` visits carrying the referral id, their ids pushed in order, and the referral table `Relinked` after `count` visits. |
| VisitGenerate.Relinked | includes/commands/class-visit-generate.php:104-106 | After `n` visits the referral's `visit_id` is the `n`-th visit's id; with no visit or no referral the table is unchanged, and its length never changes. |
| VisitGenerate.VisitsLength | includes/commands/class-visit-generate.php:98-101 | Exactly `count` visits per listed affiliate. |
| VisitGenerate.VisitsAt | includes/commands/class-visit-generate.php:84-99 | Every visit of the `p`-th affiliate carries that affiliate, the url, the referrer and that affiliate's own referral id. No referral id reaches another affiliate's visits. |
| VisitGenerate.VisitsUniform | includes/commands/class-visit-generate.php:90-99 | A visit carries a referral id exactly when `with_referral` is "yes". |
| VisitGenerate.BackLink | includes/commands/class-visit-generate.php:90-106 | No referral when not linked, one per affiliate when linked. Each referral's `visit_id` is the id of its affiliate's last visit, and that visit carries the referral's id. |
| VisitGenerate.VisitsStep | includes/commands/class-visit-generate.php:65-112 | One more round appends one affiliate's visits and at most one referral. |
| Host.Store.AddUser | includes/commands/class-affiliate-generate.php:83-89 | Appends exactly the given user and returns its id, the new table length. |
| Host.Store.UserData | includes/commands/class-wp-affiliate-generate.php:120 | Returns the record stored under the id. |
| Host.Store.AddAffiliate | includes/commands/class-affiliate-generate.php:126 | Appends exactly the given affiliate and returns its id. |
| Host.Store.AddReferral | includes/commands/class-referral-generate.php:91-97 | Appends exactly the given referral and returns its id. |
| Host.Store.AddVisit | includes/commands/class-visit-generate.php:99 | Appends exactly the given visit and returns its id. |
| Host.Store.AddCreative | includes/commands/class-creative-generate.php:60-66 | Appends exactly the given creative and returns its id. |
| Host.Store.AddAccount | includes/commands/class-wp-affiliate-generate.php:138 | Appends exactly the given account and returns its id. |
| Host.Store.SetReferralVisit | includes/commands/class-visit-generate.php:105 | Only the `visit_id` of the named existing referral changes. |
| AffiliateGenerate.Step | includes/commands/class-affiliate-generate.php:147-162 | One affiliate's nested runs: the referral run's `Batch` when `referrals` is not 0, then the visit run's `Referrals` and `Visits` when `visits` is not 0 (`StepSizes`). |
| AffiliateGenerate.Cascade | includes/commands/class-affiliate-generate.php:143-163 | `Step` for each affiliate in list order (`CascadeSizes`, `CascadeKeeps`, `CascadeVisits`, `NoActivity`). |
| AffiliateGenerate.Generate | includes/commands/class-affiliate-generate.php:44-165 | Users for slots `total .. total+count-1`, then one affiliate per user in user order, then the nested runs given by `Cascade`. The output follows `format`. |
| AffiliateGenerate.GenerateAffiliates | includes/commands/class-affiliate-generate.php:117-131 | One affiliate per user id, in order, with that id and the resolved status, rate and rate type. |
| AffiliateGenerate.NewAffiliates | includes/commands/class-affiliate-generate.php:117-126 | As many affiliates as user ids, the `k`-th referencing the `k`-th user. |
| AffiliateGenerate.GenerateActivity | includes/commands/class-affiliate-generate.php:146-163 | Per affiliate, in order: first the referral run, then the visit run. |
| AffiliateGenerate.ActivityFor | includes/commands/class-affiliate-generate.php:147-162 | The referral run with `count=referrals` only when `referrals` is not 0; it goes ahead because store ids are never empty. Then the visit run with `count=visits` only when `visits` is not 0. |
| AffiliateGenerate.Defaults | includes/commands/class-affiliate-generate.php:45-108 | Ten users by default, status 'active' (also for "0"), empty rate and rate type, no referrals or visits, and a progress bar. |
| AffiliateGenerate.WithReferral | includes/commands/class-affiliate-generate.php:160 | The nested visit run pairs a referral ("yes") exactly when `referrals` is 0. |
| AffiliateGenerate.NoActivity | includes/commands/class-affiliate-generate.php:143-163 | With `referrals = visits = 0`, no referral or visit is created. |
| AffiliateGenerate.StepSizes | includes/commands/class-affiliate-generate.php:147-162 | One affiliate's nested runs only append: `PerAffiliate` referrals and `visits` visits. |
| AffiliateGenerate.CascadeSizes | includes/commands/class-affiliate-generate.php:143-163 | In total the runs add `|affiliates| * PerAffiliate` referrals and `|affiliates| * visits` visits. |
| AffiliateGenerate.CascadeKeeps | includes/commands/class-affiliate-generate.php:143-163 | Referrals and visits that existed before are kept as they were. |
| AffiliateGenerate.CascadeVisits | includes/commands/class-affiliate-generate.php:156-161 | Every new visit belongs to a listed affiliate, and it is converted exactly when `referrals` is 0. |
| AffiliateGenerate.DocumentedExample | includes/commands/class-affiliate-generate.php:41-42 | `--count=3 --visits=2` yields three referrals and six visits, all converted. |
| CreativeGenerate.Generate | includes/commands/class-creative-generate.php:35-78 | Exactly `count` identical creatives, ids collected in creation order; the output follows `format`. |
| CreativeGenerate.CreativeFor | includes/commands/class-creative-generate.php:60-66 | The record passed to `affwp_add_creative`: name 'Generated Creative', description 'WP-CLI generated creative.', status 'active', and the resolved url and text. |
| CreativeGenerate.CreativeFields | includes/commands/class-creative-generate.php:36-66 | Fixed name, description and status. The url and text are the options when given, otherwise the site url and blog name. One creative by default. |
| WpAffiliateGenerate.Generate | includes/commands/class-wp-affiliate-generate.php:38-179 | Never fails with a message. Dies with a fatal error, creating nothing, exactly when the plugin is inactive, because the guard's call is to a class `requice\WP_CLI` that does not exist. Otherwise: users for slots `total .. total+count-1` unless `skip_users`, then exactly `Accounts`, with consecutive ids. |
| WpAffiliateGenerate.Accounts | includes/commands/class-wp-affiliate-generate.php:116-170 | Exactly `count` accounts, one per slot of the branch taken (`AccountShape`, `AccountsDistinct`, `LastNames`). |
| WpAffiliateGenerate.AccountsForUsers | includes/commands/class-wp-affiliate-generate.php:118-143 | One account per created user, its login read back from the store, all with the same last name. |
| WpAffiliateGenerate.AccountsForSlots | includes/commands/class-wp-affiliate-generate.php:146-170 | One account for each slot 1..count, last name "User i". |
| WpAffiliateGenerate.UserAccounts | includes/commands/class-wp-affiliate-generate.php:119-138 | As many accounts as user ids. |
| WpAffiliateGenerate.Defaults | includes/commands/class-wp-affiliate-generate.php:45-107 | Ten accounts by default, at the sanitised default rate '20', status 'approved'. An empty rate ("" or "0") gives an empty commission level. |
| WpAffiliateGenerate.AccountFor | includes/commands/class-wp-affiliate-generate.php:125-136 | refid = the login; email = paypalemail = login@affwp.dev; first name 'WP Affiliate'; empty referrer; the run's rate and status; today's date. |
| WpAffiliateGenerate.AccountShape | includes/commands/class-wp-affiliate-generate.php:125-136 | refid = login; pass = the generated password; email = paypalemail = login@affwp.dev; first name 'WP Affiliate'; empty referrer; today's date; the run's rate and status. |
| WpAffiliateGenerate.AccountsDistinct | includes/commands/class-wp-affiliate-generate.php:146-150 | No two accounts of a run share a refid or an e-mail. |
| WpAffiliateGenerate.LastNames | includes/commands/class-wp-affiliate-generate.php:118-149 | In the users branch every last name is "User (total+count)". With `skip_users` they are "User 1", "User 2", ... and pairwise different. |
| WpAffiliateGenerate.AccountsMatchUsers | includes/commands/class-wp-affiliate-generate.php:119-126 | In the users branch the `k`-th account has the `k`-th user's login and e-mail. |
| WpAffiliateGenerate.UsersBranch | includes/commands/class-wp-affiliate-generate.php:118-138 | What the users branch's account loop makes of the freshly created users is `Accounts`. |
| WpAffiliateGenerate.SkipBranch | includes/commands/class-wp-affiliate-generate.php:146-165 | What the `skip_users` loop makes is `Accounts`. |
| Host.Setting | includes/commands/class-affiliate-generate.php:106-108 | `empty($v) ? $fallback : sanitize_text_field($v)`: the fallback exactly for "" and "0", otherwise the sanitised value; the same rule is at class-wp-affiliate-generate.php:106-107. |
| Logins.Format | includes/commands/class-affiliate-generate.php:80 | The login `prefix{mid}_{i}`; `FormatInjective` states that it determines `mid` and `i`. |
| Logins.NewUser | includes/commands/class-affiliate-generate.php:80-89 | Password = login, nickname = display name, the given role; an e-mail `login@affwp.dev` exactly in the WP Affiliate generator (class-wp-affiliate-generate.php:79-88). |
| Logins.NewUsers | includes/commands/class-affiliate-generate.php:79-89 | Exactly `n` users, one per slot. |
| Logins.GenerateUsers | includes/commands/class-affiliate-generate.php:75-94 | The users loop of both generators (also class-wp-affiliate-generate.php:77-93): appends exactly `NewUsers` for slots `total .. total+count-1`, returns their consecutive ids in order, and leaves the counter at `total + count`. |
| Logins.LoginsDistinct | includes/commands/class-affiliate-generate.php:79-83 | Logins of one run are pairwise distinct. |
| Logins.RunsDisjoint | includes/commands/class-affiliate-generate.php:57-80 | Two runs whose slot windows do not overlap never produce the same login, whatever their salts. |
| Logins.FormatInjective | includes/commands/class-affiliate-generate.php:80 | A `prefix{mid}_{i}` login determines both `mid` and `i`. |
| Logins.EmailInjective | includes/commands/class-wp-affiliate-generate.php:84 | `login@affwp.dev` determines the login. |
| Php.ParseStr | includes/commands/class-affiliate-generate.php:80 | `%d` formatting of a natural number reads back to that number. |
| Php.StrInjective | includes/commands/class-affiliate-generate.php:80 | Different numbers format differently. |
| Php.StrPositive | includes/commands/class-affiliate-generate.php:151 | A positive id never formats to a string PHP considers empty. |
| Cli.FormatRule | includes/commands/class-referral-generate.php:105-109 | With `format` absent a progress bar is shown; the id line is printed exactly for `ids`. |

## Left out

- Progress bars and the text of `WP_CLI::line`: `Cli.Output` records only which report is made, not its text. This leaves out the array-to-string `implode` of the nested referral and visit id maps.
- Under PHP 8 the legacy `implode($array, ' ')` argument order is a TypeError. In the affiliate generator the `ids` report comes before the nested runs, so that run would stop there. The model follows PHP 7, where the call only prints.
- `random_float` and `affwp_sanitize_amount`: an amount is an opaque input (`Host.Amount`). The [0, 20] range is not claimed.
- `rand`, `mt_rand` and `generate_random_password` are inputs; nothing about their distribution is modelled.
- `wp_parse_id_list` is not part of this model. The parsed list is an input and may contain repeats or 0. `Collect.GroupedDistinct` covers the repeat-free lists it normally returns.
- Host create calls always succeed and return the next id. Their validation and failure results (`false`, `WP_Error`) are not modelled, and neither is what they store beyond the fields passed in.
- `sanitize_text_field`, `site_url`, `get_bloginfo`, `count_users`, `get_option` and `date('Y-m-d')` are host values and functions in `Host.Env`.
- Date strings are produced, not evaluated; `strtotime` belongs to the host.
- `WP_CLI::run_command` dispatch is a direct call to the referral and visit generator methods. Both nested runs are given no `format`, so each shows a progress bar; that is not recorded.
- Counts are natural numbers: negative or non-numeric `count`, `visits` or `referrals` values are not modelled.
- VisitGenerate.GenerateAll and ReferralGenerate.Generate: `$notify` is tracked as a boolean, telling only whether a progress bar exists. The bars' prompts and ticks are not recorded.
- The `skip_users` flag is reduced to whether `empty($assoc_args['skip_users'])` is false.
- WpAffiliateGenerate.Generate: includes/commands/class-wp-affiliate-generate.php:41 holds a stray `requice` token before the guard's `\WP_CLI::error` call. Under PHP 7 a name may contain whitespace around `\`, so the call is to the missing class `AffWP\WP_Affiliate\CLI\requice\WP_CLI`: the guard dies with a class-not-found fatal error and no message, which the model follows (`Cli.Crashed`). Under PHP 8 the file does not parse, and since the plugin bootstrap loads it with `require_once` (affiliatewp-wp-cli-generator.php:103), the plugin fails to load and none of the five commands runs; that is not modelled.
- AffiliateGenerate.GenerateAffiliates: `$affiliate_ids` is never initialised when `count` is 0, so the later `foreach` only warns. The model starts from an empty sequence, which behaves the same.
- The plugin bootstrap (`affiliatewp-wp-cli-generator.php`: command registration, activation checks) is plumbing and is not part of this model.
