/** The Bot class of ban_pruner.py: its fields change in place as it probes
    accounts, removes bans, messages communities and steps down. Each method
    is proved to leave the bot in the state that the matching function of
    Probe, Pruning or Driver computes from the state it started in. */
module BanPruner {
  import opened Events
  import opened Probe
  import opened Pruning
  import opened Summary
  import opened Driver

  class Bot {
    /** The bot's own account name; a community of that name holds its wiki. */
    const name: string
    /** Accounts known to be gone (the cache). */
    var unbanned: set<string>
    /** Accounts found present during this run. */
    var banned: set<string>
    /** Seconds to sleep before the next GET. */
    var sleepTime: nat
    /** What the GETs still to be made will answer, in order. */
    var network: seq<Outcome>
    /** The calls made to external services so far. */
    var log: seq<Event>

    function State(): BotState
      reads this
    {
      BotState(unbanned, banned, sleepTime, network, log)
    }

    /** A freshly logged-in bot: `cache` is what the cache file held, nothing
        is known present, the sleep is at its base value. */
    constructor (name: string, cache: set<string>, network: seq<Outcome>)
      ensures this.name == name
      ensures State() == BotState(cache, {}, BaseSleep, network, [])
    {
      this.name := name;
      unbanned := cache;
      banned := {};
      sleepTime := BaseSleep;
      this.network := network;
      log := [];
    }

    /** is_shadowbanned, as written: sleep, GET the user's page; a 404 resets
        the sleep and says gone; a connection error grows the sleep and
        retries, and the retry's verdict is discarded. */
    method IsShadowbanned(user: string) returns (found: bool)
      requires Answers(network) > 0
      modifies this
      ensures found <==> old(network)[0] == NotFound
      ensures var p := Check(user, old(sleepTime), old(network));
        found == p.found && sleepTime == p.sleep && network == p.rest && log == old(log) + p.attempts
      ensures unbanned == old(unbanned) && banned == old(banned)
      decreases |network|
    {
      log := log + [Lookup(user, sleepTime)];
      var outcome := network[0];
      network := network[1..];
      match outcome
      case NotFound =>
        sleepTime := BaseSleep;
        found := true;
      case OtherStatus =>
        found := false;
      case ConnError =>
        sleepTime := sleepTime + Backoff;
        var _ := IsShadowbanned(user);
        found := false;
        assert log == old(log) + ([Lookup(user, old(sleepTime))] + Check(user, old(sleepTime) + Backoff, old(network)[1..]).attempts);
    }

    /** remove_ban: ask the platform to lift the ban; a failure is ignored, so
        the call is all that is recorded. */
    method RemoveBan(community: string, user: string)
      modifies this
      ensures State() == old(State()).(log := old(log) + [BanRemoved(community, user)])
    {
      log := log + [BanRemoved(community, user)];
    }

    /** The body of the loop in prune_bans, for one entry `user`: a cache hit
        is unbanned at once; any other entry is probed and then unbanned and
        cached, or recorded as present. */
    method PruneEntry(community: string, user: string) returns (removed: bool)
      requires Answers(network) > 0
      modifies this
      ensures var v := Step(old(State()), community, user);
        State() == v.state && removed == v.pruned
    {
      ghost var before := State();
      if user in unbanned && user !in banned {
        RemoveBan(community, user);
        removed := true;
      } else {
        var gone := IsShadowbanned(user);
        if gone {
          RemoveBan(community, user);
          unbanned := unbanned + {user};
        } else {
          banned := banned + {user};
        }
        removed := gone;
      }
      StepCases(before, community, user);
    }

    /** prune_bans over the ban list `bans`: returns the original count and
        the pruned names, leaving the bot in the state Prune computes. */
    method PruneBans(community: string, bans: seq<string>) returns (count: nat, pruned: seq<string>)
      requires Answers(network) >= |bans|
      modifies this
      ensures count == |bans|
      ensures var r := Prune(old(State()), community, bans);
        State() == r.state && pruned == r.pruned
      ensures old(unbanned) <= unbanned && forall u :: u in pruned ==> u in unbanned
    {
      ghost var init := State();
      var i := 0;
      pruned := [];
      while i < |bans|
        invariant 0 <= i <= |bans|
        invariant var p := Prune(init, community, bans[..i]);
          State() == p.state && pruned == p.pruned
      {
        PruneSnoc(init, community, bans, i);
        var gone := PruneEntry(community, bans[i]);
        if gone {
          pruned := pruned + [bans[i]];
        }
        i := i + 1;
      }
      assert bans[..|bans|] == bans;
      count := |bans|;
      CacheMonotone(init, community, bans);
    }

    /** process_subreddit: prune the community's bans, put a long summary on
        the wiki, then message the community the report. */
    method ProcessSubreddit(c: Community, date: string)
      requires Answers(network) >= |c.bans|
      modifies this
      ensures State() == Process(old(State()), name, c, date)
    {
      var total, pruned := PruneBans(c.name, c.bans);
      ghost var pruneLog := log;
      var removed := |pruned|;
      var left := total - removed;
      var summary := Summarize(name, c.name, date, pruned);
      if summary.OnWiki? {
        log := log + [WikiEdited(name, summary.page, summary.content)];
      }
      log := log + [MessageSent(c.name, Subject, Report(summary.text, total, removed, left))];
      assert log == pruneLog + Notify(name, c, date, pruned);
    }

    /** run(), after accepting invitations: every moderated community but the
        bot's own is processed and then left, in order. */
    method Run(subs: seq<Community>, date: string)
      requires Answers(network) >= Workload(subs, name)
      modifies this
      ensures State() == RunSpec(old(State()), name, subs, date)
      ensures Messaged(log) == Messaged(old(log)) + Processed(subs, name)
      ensures Resignations(log) == Resignations(old(log)) + Processed(subs, name)
    {
      ghost var init := State();
      var i := 0;
      while i < |subs|
        invariant 0 <= i <= |subs|
        invariant Answers(init.network) >= Workload(subs[..i], name)
        invariant State() == RunSpec(init, name, subs[..i], date)
      {
        var c := subs[i];
        WorkloadPrefix(subs, name, i + 1);
        assert subs[..i + 1][..i] == subs[..i];
        if c.name != name {
          ProcessSubreddit(c, date);
          log := log + [ModeratorRemoved(c.name, name)];
        }
        i := i + 1;
      }
      assert subs[..|subs|] == subs;
      RunLog(init, name, subs, date);
    }
  }
}
