/** The classification done by Bot.prune_bans, as functions of the bot's
    state: every entry of a ban list is either pruned (ban removed) or kept. */
module Pruning {
  import opened Events
  import opened Probe

  /** The bot's fields that pruning reads and writes, plus the network's
      remaining answers and the log of external calls. */
  datatype BotState = BotState(
    unbanned: set<string>,   // cache of accounts known to be gone
    banned: set<string>,     // accounts found present during this run
    sleep: nat,              // sleep_time
    network: seq<Outcome>,
    log: seq<Event>)

  /** The result of classifying one entry. */
  datatype Verdict = Verdict(state: BotState, pruned: bool)

  /** The result of pruning a ban list: the new state, the pruned names in
      ban-list order, and per entry whether it was pruned. */
  datatype Pass = Pass(state: BotState, pruned: seq<string>, marks: seq<bool>)

  /** The entries of `s` whose mark equals `keep`, in order. */
  function Select<T>(s: seq<T>, marks: seq<bool>, keep: bool): (r: seq<T>)
    requires |marks| == |s|
    ensures |r| <= |s|
  {
    if s == [] then []
    else Select(s[..|s| - 1], marks[..|s| - 1], keep) + (if marks[|s| - 1] == keep then [s[|s| - 1]] else [])
  }

  /** The selected and the rejected entries together are the whole sequence. */
  lemma {:induction false} SelectPartition<T>(s: seq<T>, marks: seq<bool>)
    requires |marks| == |s|
    ensures |Select(s, marks, true)| + |Select(s, marks, false)| == |s|
    ensures multiset(Select(s, marks, true)) + multiset(Select(s, marks, false)) == multiset(s)
    decreases |s|
  {
    if s != [] {
      var n := |s| - 1;
      SelectPartition(s[..n], marks[..n]);
      assert s == s[..n] + [s[n]];
      PartitionStep(Select(s[..n], marks[..n], true), Select(s[..n], marks[..n], false), s[..n], s[n], marks[n]);
    }
  }

  /** Adding one entry to the selected or to the rejected side keeps the
      two sides a partition. */
  lemma PartitionStep<T>(kept: seq<T>, dropped: seq<T>, prefix: seq<T>, x: T, mark: bool)
    requires |kept| + |dropped| == |prefix|
    requires multiset(kept) + multiset(dropped) == multiset(prefix)
    ensures var k := kept + (if mark then [x] else []);
      var d := dropped + (if mark then [] else [x]);
      |k| + |d| == |prefix| + 1 && multiset(k) + multiset(d) == multiset(prefix + [x])
  {
  }

  /** Every selected entry comes with its mark. */
  lemma {:induction false} SelectMarked<T>(s: seq<T>, marks: seq<bool>)
    requires |marks| == |s|
    ensures forall x :: x in Select(s, marks, true) ==> exists i :: 0 <= i < |s| && marks[i] && s[i] == x
    decreases |s|
  {
    if s != [] {
      var n := |s| - 1;
      SelectMarked(s[..n], marks[..n]);
    }
  }

  /** A name that the cache says is gone and that was not found present
      during this run is pruned without probing. */
  predicate CacheHit(st: BotState, user: string)
  {
    user in st.unbanned && user !in st.banned
  }

  /** One iteration of the loop in prune_bans. */
  function Step(st: BotState, community: string, user: string): (r: Verdict)
    requires Answers(st.network) > 0
    ensures Answers(r.state.network) >= Answers(st.network) - 1
  {
    if CacheHit(st, user) then
      Verdict(st.(log := st.log + [BanRemoved(community, user)]), true)
    else
      var p := Check(user, st.sleep, st.network);
      var log := st.log + p.attempts + (if p.found then [BanRemoved(community, user)] else []);
      if p.found then
        Verdict(BotState(st.unbanned + {user}, st.banned, p.sleep, p.rest, log), true)
      else
        Verdict(BotState(st.unbanned, st.banned + {user}, p.sleep, p.rest, log), false)
  }

  /** The two ways one entry goes. A cache hit is pruned with one ban
      removal and nothing asked of the network. A miss is probed: it is
      pruned and added to the cache exactly when the probe says gone, and
      kept (added to the accounts found present, ban left alone) otherwise. */
  lemma StepCases(st: BotState, community: string, user: string)
    requires Answers(st.network) > 0
    ensures var r := Step(st, community, user);
      CacheHit(st, user) ==>
        r.pruned && r.state == st.(log := st.log + [BanRemoved(community, user)])
    ensures var r := Step(st, community, user);
      var p := Check(user, st.sleep, st.network);
      !CacheHit(st, user) ==>
        && r.pruned == p.found
        && r.state.sleep == p.sleep && r.state.network == p.rest
        && r.state.log == st.log + p.attempts + (if p.found then [BanRemoved(community, user)] else [])
        && r.state.unbanned == (if p.found then st.unbanned + {user} else st.unbanned)
        && r.state.banned == (if p.found then st.banned else st.banned + {user})
  {
  }

  /** Neither set loses a name; a pruned entry ends in the cache, a kept one
      in the set of accounts found present. */
  lemma StepSets(st: BotState, community: string, user: string)
    requires Answers(st.network) > 0
    ensures var r := Step(st, community, user);
      && st.unbanned <= r.state.unbanned && st.banned <= r.state.banned
      && (r.pruned ==> user in r.state.unbanned && r.state.banned == st.banned)
      && (!r.pruned ==> user in r.state.banned && r.state.unbanned == st.unbanned)
  {
  }

  /** One entry adds lookups and at most one ban removal, in `community`, to
      the log, and removes the ban exactly when the entry is pruned. */
  lemma StepLog(st: BotState, community: string, user: string)
    requires Answers(st.network) > 0
    ensures var r := Step(st, community, user);
      && st.log <= r.state.log && PruningEvents(r.state.log[|st.log|..], community)
      && Removals(r.state.log) == Removals(st.log) + (if r.pruned then [user] else [])
  {
    var r := Step(st, community, user);
    if CacheHit(st, user) {
      assert r.state.log == st.log + [] + [BanRemoved(community, user)];
      ExtendLog(st.log, [], community, user, true);
    } else {
      var p := Check(user, st.sleep, st.network);
      CheckLookups(user, st.sleep, st.network);
      assert r.pruned == p.found;
      assert r.state.log == st.log + p.attempts + (if p.found then [BanRemoved(community, user)] else []);
      ExtendLog(st.log, p.attempts, community, user, p.found);
    }
  }

  lemma ExtendLog(log: seq<Event>, attempts: seq<Event>, community: string, user: string, removed: bool)
    requires forall i :: 0 <= i < |attempts| ==> attempts[i].Lookup?
    ensures var log' := log + attempts + (if removed then [BanRemoved(community, user)] else []);
      && log <= log' && PruningEvents(log'[|log|..], community)
      && Removals(log') == Removals(log) + (if removed then [user] else [])
  {
    var tail := if removed then [BanRemoved(community, user)] else [];
    assert (log + attempts + tail)[|log|..] == attempts + tail;
    PruningEventsProjection(attempts, community);
    ProjectAppend(log, attempts, RemovedUser);
    ProjectAppend(log + attempts, tail, RemovedUser);
    assert Project(tail, RemovedUser) == (if removed then [user] else []) by {
      if removed { assert tail[..|tail| - 1] == []; }
    }
  }

  /** prune_bans over a ban list, entry by entry in list order. */
  function Prune(st: BotState, community: string, bans: seq<string>): (r: Pass)
    requires Answers(st.network) >= |bans|
    ensures |r.marks| == |bans|
    ensures r.pruned == Select(bans, r.marks, true)
    ensures Answers(r.state.network) >= Answers(st.network) - |bans|
    decreases |bans|
  {
    if bans == [] then Pass(st, [], [])
    else
      var n := |bans| - 1;
      var prev := Prune(st, community, bans[..n]);
      var v := Step(prev.state, community, bans[n]);
      var r := Pass(v.state, prev.pruned + (if v.pruned then [bans[n]] else []), prev.marks + [v.pruned]);
      assert r.marks[..n] == prev.marks;
      assert bans[..n] + [bans[n]] == bans;
      r
  }

  /** Pruning one more entry of a list is one more Step after pruning the
      entries before it. */
  lemma PruneSnoc(st: BotState, community: string, bans: seq<string>, i: nat)
    requires i < |bans| && Answers(st.network) >= |bans|
    ensures Answers(Prune(st, community, bans[..i]).state.network) > 0
    ensures var prev := Prune(st, community, bans[..i]);
      var v := Step(prev.state, community, bans[i]);
      var r := Prune(st, community, bans[..i + 1]);
      r.state == v.state && r.pruned == prev.pruned + (if v.pruned then [bans[i]] else [])
  {
    assert bans[..i + 1][..i] == bans[..i];
  }

  /** Entry i of `bans` is in `gone` if marked pruned, in `present` if not. */
  predicate Classified(bans: seq<string>, marks: seq<bool>, gone: set<string>, present: set<string>)
    requires |marks| == |bans|
  {
    forall i :: 0 <= i < |bans| ==> if marks[i] then bans[i] in gone else bans[i] in present
  }

  lemma ClassifiedExtend(bans: seq<string>, marks: seq<bool>, gone: set<string>, present: set<string>,
                         gone': set<string>, present': set<string>, last: bool)
    requires |bans| > 0 && |marks| == |bans| - 1
    requires Classified(bans[..|bans| - 1], marks, gone, present)
    requires gone <= gone' && present <= present'
    requires if last then bans[|bans| - 1] in gone' else bans[|bans| - 1] in present'
    ensures Classified(bans, marks + [last], gone', present')
  {
    var n := |bans| - 1;
    forall i | 0 <= i < |bans|
      ensures if (marks + [last])[i] then bans[i] in gone' else bans[i] in present'
    {
      if i < n {
        assert bans[..n][i] == bans[i] && (marks + [last])[i] == marks[i];
      }
    }
  }

  /** Every entry ends in exactly one outcome: a pruned entry is in the cache
      afterwards, a kept one in the set of accounts found present; neither
      set loses a name. */
  lemma {:induction false} PruneClassifies(st: BotState, community: string, bans: seq<string>)
    requires Answers(st.network) >= |bans|
    ensures var r := Prune(st, community, bans);
      && st.unbanned <= r.state.unbanned && st.banned <= r.state.banned
      && Classified(bans, r.marks, r.state.unbanned, r.state.banned)
    decreases |bans|
  {
    if bans != [] {
      var n := |bans| - 1;
      PruneClassifies(st, community, bans[..n]);
      var prev := Prune(st, community, bans[..n]);
      var v := Step(prev.state, community, bans[n]);
      var r := Prune(st, community, bans);
      assert r.state == v.state && r.marks == prev.marks + [v.pruned];
      StepSets(prev.state, community, bans[n]);
      ClassifiedExtend(bans, prev.marks, prev.state.unbanned, prev.state.banned,
                       v.state.unbanned, v.state.banned, v.pruned);
    }
  }

  /** The calls pruning makes are lookups and ban removals only, and the
      bans it removes are exactly the names it returns, in the same order. */
  lemma {:induction false} PruneLog(st: BotState, community: string, bans: seq<string>)
    requires Answers(st.network) >= |bans|
    ensures var r := Prune(st, community, bans);
      && st.log <= r.state.log && PruningEvents(r.state.log[|st.log|..], community)
      && Removals(r.state.log) == Removals(st.log) + r.pruned
    decreases |bans|
  {
    if bans != [] {
      var n := |bans| - 1;
      PruneLog(st, community, bans[..n]);
      var prev := Prune(st, community, bans[..n]);
      var v := Step(prev.state, community, bans[n]);
      StepLog(prev.state, community, bans[n]);
      var r := Prune(st, community, bans);
      assert r.state == v.state && r.pruned == prev.pruned + (if v.pruned then [bans[n]] else []);
      ChainLog(st.log, prev.state.log, v.state.log, community, prev.pruned, if v.pruned then [bans[n]] else []);
    }
  }

  lemma ChainLog(a: seq<Event>, b: seq<Event>, c: seq<Event>, community: string, p1: seq<string>, p2: seq<string>)
    requires a <= b && PruningEvents(b[|a|..], community) && Removals(b) == Removals(a) + p1
    requires b <= c && PruningEvents(c[|b|..], community) && Removals(c) == Removals(b) + p2
    ensures a <= c && PruningEvents(c[|a|..], community) && Removals(c) == Removals(a) + (p1 + p2)
  {
    assert c[|a|..] == b[|a|..] + c[|b|..];
  }

  /** What the pruning returns as the original count minus the number pruned
      is the number of entries kept, so it is never negative. */
  lemma BansLeft(st: BotState, community: string, bans: seq<string>)
    requires Answers(st.network) >= |bans|
    ensures var r := Prune(st, community, bans);
      |bans| - |r.pruned| == |Select(bans, r.marks, false)| >= 0
  {
    var r := Prune(st, community, bans);
    SelectPartition(bans, r.marks);
  }

  /** The cache only grows, and every name the pruning returns is in it. */
  lemma CacheMonotone(st: BotState, community: string, bans: seq<string>)
    requires Answers(st.network) >= |bans|
    ensures var r := Prune(st, community, bans);
      st.unbanned <= r.state.unbanned && forall u :: u in r.pruned ==> u in r.state.unbanned
  {
    PruneClassifies(st, community, bans);
    var r := Prune(st, community, bans);
    SelectMarked(bans, r.marks);
  }

  /** An example run: community "testsub" bans alice, bob and carol; bob is in
      the cache; alice's page answers, carol's is a 404. Bob's ban is
      removed without a lookup, so the third answer is never asked for. */
  lemma Scenario()
    ensures Answers([OtherStatus, NotFound, OtherStatus]) == 3
    ensures var st := BotState({"bob"}, {}, BaseSleep, [OtherStatus, NotFound, OtherStatus], []);
      var r := Prune(st, "testsub", ["alice", "bob", "carol"]);
      && r.pruned == ["bob", "carol"]
      && r.state.unbanned == {"bob", "carol"}
      && r.state.banned == {"alice"}
      && r.state.network == [OtherStatus]
      && r.state.log == [Lookup("alice", 2), BanRemoved("testsub", "bob"),
                         Lookup("carol", 2), BanRemoved("testsub", "carol")]
      && 3 - |r.pruned| == 1
  {
    var net := [OtherStatus, NotFound, OtherStatus];
    var st := BotState({"bob"}, {}, BaseSleep, net, []);
    var bans := ["alice", "bob", "carol"];
    ScenarioPrefix();
    var s2 := BotState({"bob"}, {"alice"}, 2, [NotFound, OtherStatus],
                       [Lookup("alice", 2), BanRemoved("testsub", "bob")]);
    assert bans[..2] == ["alice", "bob"];
    assert Prune(st, "testsub", bans[..2]) == Pass(s2, ["bob"], [false, true]);
    var s3 := Step(s2, "testsub", "carol");
    assert s3.pruned && s3.state.network == [OtherStatus] && s3.state.unbanned == {"bob", "carol"}
      && s3.state.banned == {"alice"}
      && s3.state.log == s2.log + [Lookup("carol", 2), BanRemoved("testsub", "carol")] by {
      assert LeadingErrors(s2.network) == 0;
      StepCases(s2, "testsub", "carol");
    }
  }

  /** The first two entries of the example run: alice is kept, bob pruned. */
  lemma ScenarioPrefix()
    ensures Answers([OtherStatus, NotFound, OtherStatus]) == 3
    ensures Prune(BotState({"bob"}, {}, BaseSleep, [OtherStatus, NotFound, OtherStatus], []), "testsub", ["alice", "bob"])
         == Pass(BotState({"bob"}, {"alice"}, 2, [NotFound, OtherStatus],
                          [Lookup("alice", 2), BanRemoved("testsub", "bob")]), ["bob"], [false, true])
  {
    var net := [OtherStatus, NotFound, OtherStatus];
    assert Answers(net) == 3 by {
      assert net[1..] == [NotFound, OtherStatus] && net[1..][1..] == [OtherStatus] && net[1..][1..][1..] == [];
    }
    var st := BotState({"bob"}, {}, BaseSleep, net, []);
    var bans := ["alice", "bob"];
    assert bans[..1] == ["alice"] && bans[..1][..0] == [];
    var s1 := Step(st, "testsub", "alice");
    assert s1 == Verdict(BotState({"bob"}, {"alice"}, 2, [NotFound, OtherStatus], [Lookup("alice", 2)]), false) by {
      assert LeadingErrors(net) == 0;
      StepCases(st, "testsub", "alice");
    }
    assert Prune(st, "testsub", bans[..1]) == Pass(s1.state, [], [false]);
  }
}
