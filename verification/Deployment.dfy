/** From the command line to the running server: what `main` relies on when it passes the parsed
    settings to the cache. */
module Deployment {
  import opened CacheSpec
  import opened ServerModel
  import ArgParser
  import ResponseParser
  import CacheGrowth
  import Linearizability
  import Stamps

  function WindowsOf(settings: ArgParser.Settings): Windows {
    Windows(settings.freshness, settings.staleness)
  }

  /** The cross-check of the two windows in the option parser is what makes the sweep invisible:
      every accepted command line gives windows for which no interleaving of inserts and sweeps can
      be told from the plain map, and so do the built-in defaults of the cache. */
  lemma AcceptedSettingsHideTheSweep(opts: seq<ArgParser.Opt>)
    requires ArgParser.Fold(ArgParser.DEFAULTS, opts).0 == ArgParser.Accepted
    ensures SweepIsInvisible(WindowsOf(ArgParser.Fold(ArgParser.DEFAULTS, opts).1))
    ensures SweepIsInvisible(DEFAULT_WINDOWS)
  {
    ArgParser.OptionsClassify(opts);
    SweepInvisibleExactly(WindowsOf(ArgParser.Fold(ArgParser.DEFAULTS, opts).1));
    SweepInvisibleExactly(DEFAULT_WINDOWS);
  }

  /** For settings that get past the numeric checks but not the cross-check, the sweep shows. */
  lemma RefusedSettingsShowTheSweep(settings: ArgParser.Settings)
    requires 1 <= settings.freshness && 1 <= settings.staleness
    ensures SweepIsInvisible(WindowsOf(settings)) <==> settings.freshness <= settings.staleness
  {
    SweepInvisibleExactly(WindowsOf(settings));
  }

  /** Every run of a server started from an accepted command line answers all its lookups as the
      plain map would. */
  lemma ConfiguredServerIsLinearizable(opts: seq<ArgParser.Opt>, clock: ResponseParser.Clock, workers: nat, s: State)
    requires ArgParser.Fold(ArgParser.DEFAULTS, opts).0 == ArgParser.Accepted
    requires Reachable(Params(WindowsOf(ArgParser.Fold(ArgParser.DEFAULTS, opts).1), clock), workers, s)
    ensures Linearizability.LookupsLinear(Params(WindowsOf(ArgParser.Fold(ArgParser.DEFAULTS, opts).1), clock), s)
  {
    ArgParser.OptionsClassify(opts);
    Linearizability.LookupsAreLinearizable(
      Params(WindowsOf(ArgParser.Fold(ArgParser.DEFAULTS, opts).1), clock), workers, s);
  }

  /** The configured limit is not enforced: with a thread, some run caches more stops than it says. */
  lemma MaxCacheSizeIsNotEnforced(opts: seq<ArgParser.Opt>, clock: ResponseParser.Clock, workers: nat)
    requires ArgParser.Fold(ArgParser.DEFAULTS, opts).0 == ArgParser.Accepted
    ensures var settings := ArgParser.Fold(ArgParser.DEFAULTS, opts).1;
            && settings.maxCacheSize >= 1
            && (CacheGrowth.NeverExceeds(Params(WindowsOf(settings), clock), workers, settings.maxCacheSize)
                <==> workers == 0)
  {
    var settings := ArgParser.Fold(ArgParser.DEFAULTS, opts).1;
    ArgParser.OptionsClassify(opts);
    CacheGrowth.NeverExceedsExactly(Params(WindowsOf(settings), clock), workers, settings.maxCacheSize);
  }

  /** A configured server keeps the clock readings of each stop in order exactly when it has no thread,
      or one thread and equal windows, so not with the defaults. */
  lemma ConfiguredStampsGrowExactly(opts: seq<ArgParser.Opt>, clock: ResponseParser.Clock, workers: nat)
    requires ArgParser.Fold(ArgParser.DEFAULTS, opts).0 == ArgParser.Accepted
    ensures var settings := ArgParser.Fold(ArgParser.DEFAULTS, opts).1;
            Stamps.AlwaysGrow(Params(WindowsOf(settings), clock), workers)
            <==> workers == 0 || (workers == 1 && settings.freshness == settings.staleness)
  {
    ArgParser.OptionsClassify(opts);
    Stamps.StampsGrowExactly(Params(WindowsOf(ArgParser.Fold(ArgParser.DEFAULTS, opts).1), clock), workers);
  }
}
