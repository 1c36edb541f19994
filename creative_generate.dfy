/** `wp affwp creative generate`: `count` identical creatives
    (includes/commands/class-creative-generate.php). */
module CreativeGenerate {
  import opened Php
  import opened Cli
  import opened Host

  /** The command's options as given on the command line (None = absent). */
  datatype Options = Options(count: Option<nat>, creativeUrl: Option<string>,
                             text: Option<string>, format: Option<string>)

  const DefaultCount: nat := 1

  function CountOf(opts: Options): nat {
    OrDefault(opts.count, DefaultCount)
  }

  /** The record every iteration passes to `affwp_add_creative`. */
  function CreativeFor(opts: Options, env: Env): (c: Creative)
    ensures c.name == "Generated Creative" && c.description == "WP-CLI generated creative."
    ensures c.status == "active"
  {
    Creative("Generated Creative", "WP-CLI generated creative.",
             OrDefault(opts.creativeUrl, env.cliUrl), OrDefault(opts.text, env.blogName), "active")
  }

  /** Name, description and status are fixed; url and text are the options
      when given (even empty) and otherwise `site_url('cli')` and the blog
      name; with no options exactly one creative is made. */
  lemma CreativeFields(opts: Options, env: Env)
    ensures CreativeFor(opts, env).name == "Generated Creative"
    ensures CreativeFor(opts, env).description == "WP-CLI generated creative."
    ensures CreativeFor(opts, env).status == "active"
    ensures CreativeFor(opts, env).url == if opts.creativeUrl.Some? then opts.creativeUrl.value else env.cliUrl
    ensures CreativeFor(opts, env).text == if opts.text.Some? then opts.text.value else env.blogName
    ensures opts.count.None? ==> CountOf(opts) == 1
  {
  }

  /** The command: exactly `count` creatives, ids collected in creation order. */
  method Generate(store: Store, opts: Options, env: Env) returns (creatives: seq<Id>, out: Output)
    modifies store`creatives
    ensures store.creatives == old(store.creatives) + seq(CountOf(opts), k => CreativeFor(opts, env))
    ensures creatives == Range(|old(store.creatives)| + 1, CountOf(opts))
    ensures out == OutputOf(FormatOf(opts.format))
  {
    var count := CountOf(opts);
    var format := FormatOf(opts.format);
    ghost var base := |store.creatives|;
    creatives := [];
    var i := 1;
    while i <= count
      invariant 1 <= i <= count + 1
      invariant store.creatives == old(store.creatives) + seq(i - 1, k => CreativeFor(opts, env))
      invariant creatives == Range(base + 1, i - 1)
    {
      var id := store.AddCreative(CreativeFor(opts, env));
      RangeStep(base + 1, i - 1);
      assert seq(i - 1, k => CreativeFor(opts, env)) + [CreativeFor(opts, env)] == seq(i, k => CreativeFor(opts, env));
      creatives := creatives + [id];
      i := i + 1;
    }
    out := OutputOf(format);
  }
}
