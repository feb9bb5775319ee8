/** Bot.process_subreddit and Bot.run as functions of the bot's state: prune
    one community's bans, report to its moderators, step down; do that for
    every moderated community except the bot's own. */
module Driver {
  import opened Events
  import opened Probe
  import opened Pruning
  import opened Summary

  /** A moderated community: its display name and its ban list in the order
      the platform enumerates it. */
  datatype Community = Community(name: string, bans: seq<string>)

  const Subject := "Pruned Bans"

  /** The report sent to a community whose ban list had `total` entries, of
      which the names `pruned` were pruned. */
  function ReportFor(bot: string, c: Community, date: string, pruned: seq<string>): Report
  {
    Report(Summarize(bot, c.name, date, pruned).text, |c.bans|, |pruned|, |c.bans| - |pruned|)
  }

  /** The calls after pruning: the wiki edit when the summary needs a page,
      then the message. */
  function Notify(bot: string, c: Community, date: string, pruned: seq<string>): seq<Event>
  {
    var s := Summarize(bot, c.name, date, pruned);
    var msg := MessageSent(c.name, Subject, ReportFor(bot, c, date, pruned));
    if s.OnWiki? then [WikiEdited(bot, s.page, s.content), msg] else [msg]
  }

  /** Notifying ends with the message to the community, messages nobody
      else, and neither removes a ban nor steps down. Before the message,
      and only when more than Threshold names were pruned, the bot writes the
      bulleted listing of the pruned names to the dated page of its own
      community's wiki. */
  lemma NotifyLog(log: seq<Event>, bot: string, c: Community, date: string, pruned: seq<string>)
    ensures var l := log + Notify(bot, c, date, pruned);
      && log <= l
      && |l| >= 1 && l[|l| - 1] == MessageSent(c.name, Subject, ReportFor(bot, c, date, pruned))
      && (|pruned| > Threshold ==>
            |l| == |log| + 2 && l[|log|] == WikiEdited(bot, WikiPage(c.name, date), Listing(BulletEntry, pruned)))
      && (|pruned| <= Threshold ==> |l| == |log| + 1)
      && Messaged(l) == Messaged(log) + [c.name]
      && Resignations(l) == Resignations(log)
      && Removals(l) == Removals(log)
  {
    var evs := Notify(bot, c, date, pruned);
    var msg := MessageSent(c.name, Subject, ReportFor(bot, c, date, pruned));
    var s := Summarize(bot, c.name, date, pruned);
    if s.OnWiki? {
      var w := WikiEdited(bot, s.page, s.content);
      assert evs == [w, msg];
      ProjectPair(w, msg, MessagedCommunity);
      ProjectPair(w, msg, LeftCommunity);
      ProjectPair(w, msg, RemovedUser);
    } else {
      assert evs == [msg];
      ProjectOne(msg, MessagedCommunity);
      ProjectOne(msg, LeftCommunity);
      ProjectOne(msg, RemovedUser);
    }
    ProjectAppend(log, evs, MessagedCommunity);
    ProjectAppend(log, evs, LeftCommunity);
    ProjectAppend(log, evs, RemovedUser);
  }

  /** Pruning messages nobody and steps down from nothing. */
  lemma PruningLeavesNotices(a: seq<Event>, b: seq<Event>, community: string)
    requires a <= b && PruningEvents(b[|a|..], community)
    ensures Messaged(b) == Messaged(a) && Resignations(b) == Resignations(a)
  {
    var ext := b[|a|..];
    assert b == a + ext;
    PruningEventsProjection(ext, community);
    ProjectAppend(a, ext, MessagedCommunity);
    ProjectAppend(a, ext, LeftCommunity);
  }

  /** process_subreddit: prune the bans of `c`, then notify its moderators. */
  function Process(st: BotState, bot: string, c: Community, date: string): (r: BotState)
    requires Answers(st.network) >= |c.bans|
    ensures Answers(r.network) >= Answers(st.network) - |c.bans|
  {
    var p := Prune(st, c.name, c.bans);
    p.state.(log := p.state.log + Notify(bot, c, date, p.pruned))
  }

  /** The message reports the original ban count, the number pruned, and
      the number left, which is the number of entries kept and never
      negative; its summary is the one Summarize chooses, from which
      SummaryListsPruned reads the pruned names back. Between pruning and
      the message the only call is the wiki edit of a long listing. */
  lemma ProcessReport(st: BotState, bot: string, c: Community, date: string)
    requires Answers(st.network) >= |c.bans|
    ensures var p := Prune(st, c.name, c.bans);
      var r := Process(st, bot, c, date);
      && p.state.log <= r.log
      && |r.log| >= 1
      && r.log[|r.log| - 1] == MessageSent(c.name, Subject, ReportFor(bot, c, date, p.pruned))
      && (|p.pruned| > Threshold ==>
            |r.log| == |p.state.log| + 2
            && r.log[|p.state.log|] == WikiEdited(bot, WikiPage(c.name, date), Listing(BulletEntry, p.pruned)))
      && (|p.pruned| <= Threshold ==> |r.log| == |p.state.log| + 1)
      && var rep := ReportFor(bot, c, date, p.pruned);
         rep.summary == Summarize(bot, c.name, date, p.pruned).text
         && rep.total == |c.bans| && rep.removed == |p.pruned|
         && rep.left == |Select(c.bans, p.marks, false)| >= 0
  {
    var p := Prune(st, c.name, c.bans);
    NotifyLog(p.state.log, bot, c, date, p.pruned);
    BansLeft(st, c.name, c.bans);
  }

  /** Processing a community messages it once, removes exactly the pruned
      bans, steps down from nothing, and only grows the cache. */
  lemma ProcessLog(st: BotState, bot: string, c: Community, date: string)
    requires Answers(st.network) >= |c.bans|
    ensures var p := Prune(st, c.name, c.bans);
      var r := Process(st, bot, c, date);
      && Messaged(r.log) == Messaged(st.log) + [c.name]
      && Resignations(r.log) == Resignations(st.log)
      && Removals(r.log) == Removals(st.log) + p.pruned
      && st.unbanned <= r.unbanned
  {
    var p := Prune(st, c.name, c.bans);
    PruneLog(st, c.name, c.bans);
    PruneClassifies(st, c.name, c.bans);
    PruningLeavesNotices(st.log, p.state.log, c.name);
    NotifyLog(p.state.log, bot, c, date, p.pruned);
  }

  /** Stepping down from a community records it and nothing else. */
  lemma StepDown(log: seq<Event>, community: string, bot: string)
    ensures var l := log + [ModeratorRemoved(community, bot)];
      Messaged(l) == Messaged(log) && Resignations(l) == Resignations(log) + [community]
  {
    var e := ModeratorRemoved(community, bot);
    ProjectOne(e, MessagedCommunity);
    ProjectOne(e, LeftCommunity);
    ProjectAppend(log, [e], MessagedCommunity);
    ProjectAppend(log, [e], LeftCommunity);
  }

  /** The number of bans run() may have to probe: those of every community
      it processes. */
  function Workload(subs: seq<Community>, bot: string): nat
  {
    if subs == [] then 0
    else Workload(subs[..|subs| - 1], bot) + (if subs[|subs| - 1].name != bot then |subs[|subs| - 1].bans| else 0)
  }

  /** A prefix of the list has no more bans to probe than the whole list. */
  lemma {:induction false} WorkloadPrefix(subs: seq<Community>, bot: string, i: nat)
    requires i <= |subs|
    ensures Workload(subs[..i], bot) <= Workload(subs, bot)
    decreases |subs| - i
  {
    if i < |subs| {
      WorkloadPrefix(subs, bot, i + 1);
      assert subs[..i + 1][..i] == subs[..i];
    } else {
      assert subs[..i] == subs;
    }
  }

  /** The names of the communities run() processes, in order: all but the
      bot's own. */
  function Processed(subs: seq<Community>, bot: string): (r: seq<string>)
    ensures bot !in r
    ensures |r| <= |subs|
  {
    if subs == [] then []
    else
      var n := |subs| - 1;
      Processed(subs[..n], bot) + (if subs[n].name != bot then [subs[n].name] else [])
  }

  /** Every processed name is that of a moderated community other than the
      bot's own. */
  lemma {:induction false} ProcessedSound(subs: seq<Community>, bot: string, x: string)
    requires x in Processed(subs, bot)
    ensures x != bot && exists i :: 0 <= i < |subs| && subs[i].name == x
    decreases |subs|
  {
    var n := |subs| - 1;
    if x in Processed(subs[..n], bot) {
      ProcessedSound(subs[..n], bot, x);
      var i :| 0 <= i < n && subs[..n][i].name == x;
      assert subs[i].name == x;
    } else {
      assert subs[n].name == x;
    }
  }

  /** Every moderated community other than the bot's own is processed. */
  lemma {:induction false} ProcessedComplete(subs: seq<Community>, bot: string, i: int)
    requires 0 <= i < |subs| && subs[i].name != bot
    ensures subs[i].name in Processed(subs, bot)
    decreases |subs|
  {
    var n := |subs| - 1;
    if i < n {
      ProcessedComplete(subs[..n], bot, i);
      assert subs[..n][i] == subs[i];
    }
  }

  /** A name is processed exactly when some moderated community has it and
      it is not the bot's own. */
  lemma ProcessedExactly(subs: seq<Community>, bot: string, x: string)
    ensures x in Processed(subs, bot) <==> x != bot && exists i :: 0 <= i < |subs| && subs[i].name == x
  {
    if x in Processed(subs, bot) {
      ProcessedSound(subs, bot, x);
    } else if x != bot && exists i :: 0 <= i < |subs| && subs[i].name == x {
      var i :| 0 <= i < |subs| && subs[i].name == x;
      ProcessedComplete(subs, bot, i);
    }
  }

  /** run(), after the invitations are accepted: each moderated community in
      order, skipping the one named like the bot; process it, then step
      down as its moderator. */
  function RunSpec(st: BotState, bot: string, subs: seq<Community>, date: string): (r: BotState)
    requires Answers(st.network) >= Workload(subs, bot)
    ensures Answers(r.network) >= Answers(st.network) - Workload(subs, bot)
  {
    if subs == [] then st
    else
      var n := |subs| - 1;
      var prev := RunSpec(st, bot, subs[..n], date);
      if subs[n].name == bot then prev
      else
        var q := Process(prev, bot, subs[n], date);
        q.(log := q.log + [ModeratorRemoved(subs[n].name, bot)])
  }

  /** run() messages and steps down from exactly the communities it
      processes, in order, and never its own; the cache only grows. */
  lemma {:induction false} RunLog(st: BotState, bot: string, subs: seq<Community>, date: string)
    requires Answers(st.network) >= Workload(subs, bot)
    ensures var r := RunSpec(st, bot, subs, date);
      && Messaged(r.log) == Messaged(st.log) + Processed(subs, bot)
      && Resignations(r.log) == Resignations(st.log) + Processed(subs, bot)
      && st.unbanned <= r.unbanned
    decreases |subs|
  {
    if subs != [] {
      var n := |subs| - 1;
      var prev := RunSpec(st, bot, subs[..n], date);
      var r := RunSpec(st, bot, subs, date);
      var added := if subs[n].name != bot then [subs[n].name] else [];
      RunLog(st, bot, subs[..n], date);
      RunLast(st, bot, subs, date);
      assert Processed(subs, bot) == Processed(subs[..n], bot) + added;
      Extend(Messaged(st.log), Messaged(prev.log), Messaged(r.log), Processed(subs[..n], bot), added);
      Extend(Resignations(st.log), Resignations(prev.log), Resignations(r.log), Processed(subs[..n], bot), added);
    }
  }

  lemma Extend(a: seq<string>, b: seq<string>, c: seq<string>, p: seq<string>, q: seq<string>)
    requires b == a + p && c == b + q
    ensures c == a + (p + q)
  {
  }

  /** The last community of the list adds its own message and resignation,
      unless it is the bot's own, which changes nothing. The run's last two
      calls are then that community's report and the removal of the bot
      itself from its moderators. */
  lemma RunLast(st: BotState, bot: string, subs: seq<Community>, date: string)
    requires subs != [] && Answers(st.network) >= Workload(subs, bot)
    ensures var n := |subs| - 1;
      var prev := RunSpec(st, bot, subs[..n], date);
      var r := RunSpec(st, bot, subs, date);
      var added := if subs[n].name != bot then [subs[n].name] else [];
      && Messaged(r.log) == Messaged(prev.log) + added
      && Resignations(r.log) == Resignations(prev.log) + added
      && prev.unbanned <= r.unbanned
      && (subs[n].name == bot ==> r == prev)
      && (subs[n].name != bot ==>
            Answers(prev.network) >= |subs[n].bans|
            && |r.log| >= 2
            && r.log[|r.log| - 1] == ModeratorRemoved(subs[n].name, bot)
            && r.log[|r.log| - 2]
               == MessageSent(subs[n].name, Subject, ReportFor(bot, subs[n], date, Prune(prev, subs[n].name, subs[n].bans).pruned)))
  {
    var n := |subs| - 1;
    var c := subs[n];
    var prev := RunSpec(st, bot, subs[..n], date);
    if c.name != bot {
      ProcessThenStepDown(prev, bot, c, date);
      ProcessReport(prev, bot, c, date);
    }
  }

  /** One processed community: messaged once, stepped down from once. */
  lemma ProcessThenStepDown(st: BotState, bot: string, c: Community, date: string)
    requires Answers(st.network) >= |c.bans|
    ensures var q := Process(st, bot, c, date);
      var l := q.log + [ModeratorRemoved(c.name, bot)];
      && Messaged(l) == Messaged(st.log) + [c.name]
      && Resignations(l) == Resignations(st.log) + [c.name]
      && st.unbanned <= q.unbanned
  {
    var q := Process(st, bot, c, date);
    ProcessLog(st, bot, c, date);
    StepDown(q.log, c.name, bot);
  }
}
