# ban_pruner, modelled in Dafny

ban_pruner is a Reddit bot. Moderators invite it to their community
("subreddit"). For each such community it goes through the ban list. It
checks whether each banned account still exists. It lifts the bans of
deleted or shadowbanned accounts, which are accounts whose profile page
answers 404. It then messages the moderators a summary and steps down as
moderator.

This project models the decision logic inside that glue:

- `events.dfy` (module `Events`) holds the outside world.
  - The answers the profile-page GETs will get, as a finite sequence of
    outcomes: 404, some other status, or a connection error.
  - The calls the bot makes to the platform, kept as an append-only log.
- `probe.dfy` (module `Probe`) models `Bot.is_shadowbanned` as written,
  including its `sleep_time` backoff, under the assumption about external
  calls stated first under "## Left out".
- `pruning.dfy` (module `Pruning`) models `Bot.prune_bans` as functions of
  the bot's state.
  - Every ban-list entry is either pruned (ban lifted) or kept.
  - `self.unbanned` is the persistent cache of accounts known to be gone.
  - `self.banned` holds the accounts found present during this run.
- `summary.dfy` (module `Summary`) models the three summary shapes chosen
  in `Bot.process_subreddit`.
  - It also proves that the pruned names can be read back from the summary
    text or from the wiki content.
- `driver.dfy` (module `Driver`) models `process_subreddit` and `run` as
  functions of the bot's state.
  - It covers `bans_left`, the message, and stepping down.
  - `run` skips the community named like the bot.
- `bot.dfy` (module `BanPruner`) is the `Bot` class itself.
  - Its fields are the two sets, `sleep_time`, the remaining network
    answers and the call log.
  - Each method updates them in place with the source's loops and
    recursion.
  - Each method is proved to end in the state that the matching function
    above computes.

The probe keeps the code's behaviour. A connection error adds 2 to
`sleep_time` and retries, but the retry's verdict is thrown away. So an
account counts as gone only when the very first GET answers 404. The
retry's call at ban_pruner.py:77 has no `return`, so its answer is lost;
the retry exists to obtain a verdict, so this is evidently unintended. The
`Bot` class and the rest of the model follow the code as written, since
that is what the bot does. `Probe.CheckRetried` is the intended probe,
proved against it under "## Findings".

## Model

| member | source | states |
|---|---|---|
| Probe.Check | ban_pruner.py:66-77 | The probe's verdict is "gone" exactly when the first GET answers 404, whatever a retry after a connection error sees. Each call uses up exactly one GET that ends with a status. |
| Probe.CheckBackoff | ban_pruner.py:66-77 | After k connection errors and then a status, the probe has made k+1 lookups. Lookup j sleeps `sleep_time + 2*j`. `sleep_time` ends at 2 if the status was 404, and otherwise at its old value plus 2 per error, so an ordinary status leaves it unchanged. The answers after that status are left. |
| Probe.CheckLookups | ban_pruner.py:69-71 | The probe makes lookups and no other call. |
| Probe.RetriedNotFoundIsDropped | ban_pruner.py:72-77 | A connection error followed by a 404 gives "not gone" after two lookups, yet `sleep_time` is still reset to 2. The intended probe says "gone" on the same input. |
| Probe.CheckRetried | ban_pruner.py:66-77 | The probe as evidently intended, returning the retry's verdict. Each call uses up exactly one GET that ends with a status. |
| Probe.CheckRetriedVerdict | ban_pruner.py:66-77 | The intended probe says "gone" exactly when the first GET that ends with a status answers 404. Its lookups, final `sleep_time` and remaining answers are those of the probe as written. |
| Pruning.Step | ban_pruner.py:92-102 | One entry of the loop uses up at most one GET that ends with a status. |
| Pruning.StepCases | ban_pruner.py:93-102 | A cached name not found present this run is pruned: its ban is lifted, nothing is probed, and nothing else changes. Any other name is probed. It is pruned, with its ban lifted and the name added to the cache, exactly when the probe says gone. Otherwise it is added to `self.banned` and no ban is lifted. |
| Pruning.StepSets | ban_pruner.py:93-102 | Neither set loses a name. A pruned entry is in the cache afterwards, and `self.banned` is unchanged. A kept entry is in `self.banned` afterwards, and the cache is unchanged. |
| Pruning.StepLog | ban_pruner.py:93-100 | One entry appends only lookups and removals of bans in the community being pruned. It lifts one ban, that entry's, exactly when the entry is pruned. |
| Pruning.Prune | ban_pruner.py:85-103 | There is one pruned/kept mark per ban-list entry. The pruned names are the entries marked pruned, in ban-list order. The pass uses up at most one status answer per entry. |
| Pruning.SelectPartition | ban_pruner.py:92-102 | The pruned entries and the kept entries together are the whole ban list, as a multiset and in number. |
| Pruning.SelectMarked | ban_pruner.py:92-100 | Every pruned name is an entry of the ban list that was marked pruned. |
| Pruning.PruneClassifies | ban_pruner.py:92-102 | Each entry ends in exactly one outcome. A pruned entry is in the cache and a kept entry is in `self.banned`. Neither set loses a name. |
| Pruning.PruneLog | ban_pruner.py:92-100 | Pruning appends only lookups and removals of bans in the community being pruned. The bans lifted are exactly the returned names, in the same order. |
| Pruning.BansLeft | ban_pruner.py:103-110 | The original count minus the number pruned is the number of kept entries, so `bans_left` is never negative. |
| Pruning.CacheMonotone | ban_pruner.py:93-100 | The cache only grows, and every returned name is in it afterwards. |
| Pruning.Scenario | ban_pruner.py:85-103 | Concrete run: the bans are alice, bob and carol, and bob is cached. Alice's page answers and carol's is a 404. bob and carol are pruned in that order. bob is never probed, so the third answer is left unused. One ban is left. |
| Summary.Summarize | ban_pruner.py:118-130 | The summary goes to the wiki exactly when more than 200 names were pruned. 0 names give the fixed sentence. 1 to 200 names give the `1. /u/` entries joined by blank lines. More than 200 give `* /u/` entries on the wiki page `summaries/<community>/<date>`, and the summary points to `/r/<bot>/w/<page>`. |
| Summary.ListingRoundTrip | ban_pruner.py:124-130 | Splitting a listing at its blank lines and stripping each entry prefix gives back the names, in order. |
| Summary.SummaryListsPruned | ban_pruner.py:118-130 | Whatever the count, the pruned names can be read back in order. They come from the inline list when at most 200 were pruned, and from the wiki content otherwise. |
| Driver.Process | ban_pruner.py:105-133 | Processing a community uses up at most one status answer per ban entry. |
| Driver.NotifyLog | ban_pruner.py:118-133 | After pruning, the bot messages the community, once and last. When more than 200 names were pruned, the one call before the message writes the `* /u/` listing of the pruned names to the page `summaries/<community>/<date>` of the wiki of the bot's own community. Otherwise the message is the only call. Nobody else is messaged, no ban is lifted and no resignation is made. |
| Driver.ProcessReport | ban_pruner.py:108-133 | After pruning, the only call before the message is that wiki edit, made exactly when more than 200 names were pruned. The last call is the 'Pruned Bans' message. Its summary is the one Summary.Summarize chooses. It reports the original ban count, the number pruned, and the number left. The number left is the count of kept entries and is never negative. |
| Driver.ProcessLog | ban_pruner.py:105-133 | Processing a community messages it once and lifts exactly the pruned bans. It resigns from nothing and only grows the cache. |
| Driver.RunSpec | ban_pruner.py:135-141 | A run uses up at most one status answer per ban entry of the processed communities. |
| Driver.RunLast | ban_pruner.py:137-140 | The last listed community adds one message and one resignation, both its own, unless it is named like the bot, in which case nothing changes. Otherwise the run's last two calls are that community's report and then the removal of the bot itself from its moderators. |
| Driver.RunLog | ban_pruner.py:135-141 | The run messages, and steps down from, exactly the processed communities in order. The cache only grows. |
| Driver.ProcessedSound | ban_pruner.py:137-138 | Every processed name is that of a moderated community, and never the bot's own. |
| Driver.ProcessedComplete | ban_pruner.py:137-138 | Every moderated community not named like the bot is processed. |
| Driver.ProcessedExactly | ban_pruner.py:137-138 | A name is processed if and only if a moderated community has it and it is not the bot's name. |
| BanPruner.Bot.constructor | ban_pruner.py:21-28 | A new bot starts with the given cache, an empty `banned` set, `sleep_time` 2 and an empty call log. |
| BanPruner.Bot.IsShadowbanned | ban_pruner.py:66-77 | The recursive method returns true exactly when the first GET answers 404. It leaves `sleep_time`, the network and the log as Probe.Check computes, and does not touch either set. |
| BanPruner.Bot.RemoveBan | ban_pruner.py:79-83 | Lifting a ban appends that call to the log and changes nothing else. |
| BanPruner.Bot.PruneEntry | ban_pruner.py:93-102 | One iteration of the loop in prune_bans leaves the bot in the state Pruning.Step computes, with the same verdict. |
| BanPruner.Bot.PruneBans | ban_pruner.py:85-103 | The count returned is the length of the ban list. The loop leaves the bot in the state Pruning.Prune computes and returns its pruned names. The cache only grows and holds every returned name. |
| BanPruner.Bot.ProcessSubreddit | ban_pruner.py:105-133 | Pruning, the optional wiki edit and the message leave the bot in the state Driver.Process computes. |
| BanPruner.Bot.Run | ban_pruner.py:135-141 | The loop over the moderated communities leaves the bot in the state Driver.RunSpec computes. It messages and steps down from exactly the processed communities, in order. |

## Left out

- Every external call is assumed to return normally, except the connection errors the probe handles.
  - Each GET of the probe (ban_pruner.py:70-71) ends with a status or a `ConnectionError`. The GET has no timeout, so in the source it may never return.
  - `get_banned` (:90), `edit_wiki_page` (:126), `send_message` (:131) and `remove_moderator` (:140) are assumed to return. Only `remove_ban`'s `HTTPError` (:82) and `InvalidInvite` (:63) are caught in the source.
  - In the source, any other exception from :70-71, :90, :126, :131 or :140 propagates out of `prune_bans` and `run` and ends the run before `set_ban_list` (:141). Examples are `TooManyRedirects` and `ChunkedEncodingError`.
  - The model cannot express this: the log records every call as completed. So Driver.RunLog and BanPruner.Bot.Run say that the run messages and steps down from every processed community, which holds only when no such call fails.
  - The two other crash paths below, the recursion limit and `write_summary_to_disk`, are further instances of this.
- The Reddit client calls are not executed. These are login, `get_unread`, `accept_moderator_invite`, `get_banned`, `send_message`, `edit_wiki_page`, `remove_moderator` and `get_my_moderation`.
  - Ban lists and moderated communities are parameters.
  - `subs` is what `get_my_moderation()` yields at ban_pruner.py:137. That call has no `limit=None`, unlike those at :58 and :90, so with the client's default listing limit it may not be every community the bot moderates.
  - Ban removals, wiki edits, messages and resignations are entries of the call log.
- `accept_mod_invites` (ban_pruner.py:55-64) is not modelled. Its only effect is on the platform, and it happens before the loop that `Bot.Run` models.
- The HTTP GET of the probe is an oracle: the field `network` lists what each GET will answer.
  - A run needs enough answers that end with a status: one per ban entry that may be probed.
  - The methods and functions require this (`Answers(network) >= ...`), so an endless stream of connection errors is outside the model.
  - The model has no recursion limit. In the source, each connection error is one more nested call at :77. About 1000 in a row exceed Python's default recursion limit, and the `RecursionError` is not a `ConnectionError`, so it escapes the handler at :75 and ends the run before `set_ban_list` at :141. The model instead gives a verdict for, say, 1000 connection errors followed by a 404.
- `time.sleep` is not executed. Each lookup records the delay it would have slept.
- `time.strftime` is a `date` parameter. One date serves a whole run.
- Reading and writing the cache file (ban_pruner.py:30-44) is not modelled. The cache is the `cache` set handed to the constructor and the `unbanned` field afterwards.
- `write_summary_to_disk` (ban_pruner.py:46-53) and the final `set_ban_list` of `run` are not modelled. They are filesystem writes.
  - `write_summary_to_disk` creates the relative directory `path` (:50-51) but writes under `BASEDIR/path` (:52). When that directory is missing, the more-than-200 branch raises before `edit_wiki_page` (:126) and `send_message` (:131). The model always records the wiki edit and the message.
- The swallowed `InvalidInvite` and `HTTPError` exceptions are not modelled. A ban removal is recorded whether or not the platform accepted it.
- The prose of the message template is not modelled. The message carries a `Report` with the four values substituted into the template: summary, total, removed and left.
- The `print` progress lines, the config-import fallback and `MultiprocessHandler` are not modelled.
- Accounts are represented by their names. The source compares and prints a Redditor object by its name, too.
- Summary.SummaryListsPruned: requires that no pruned name contains a line break. A listing with such a name cannot be split back unambiguously. Reddit account names never contain one.
- BanPruner.Bot.IsShadowbanned: the source returns `None` on every outcome but a 404 on the first GET: after a connection error, and also on any other status, since :72 falls through. The model returns `false`, which the only caller treats the same way.

## Findings

| source | as written | input that shows it | evidently intended | confidence | as-written member | corrected member |
|---|---|---|---|---|---|---|
| ban_pruner.py:75-77 | after a connection error the retry's verdict is discarded and the call returns `None` | a connection error, then a 404: the account is kept banned although the retry found it gone | `return self.is_shadowbanned(user)`: the verdict of the first GET that ends with a status | high; not executed | Probe.RetriedNotFoundIsDropped | Probe.CheckRetriedVerdict |
