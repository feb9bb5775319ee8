/** The summary placed in the 'Pruned Bans' message by
    Bot.process_subreddit: chosen by how many bans were pruned. */
module Summary {

  /** Above this many pruned names the list goes to a wiki page. */
  const Threshold: nat := 200

  const NothingRemoved := "* There were no deleted or shadowbanned users removed."
  /** Each inline entry is written as item 1 of a markdown numbered list. */
  const NumberedEntry := "1. /u/"
  const BulletEntry := "* /u/"
  const Separator := "\n\n"

  /** The summary text, and, for a long list, the wiki page it points to. */
  datatype Summary =
    | Inline(text: string)
    | OnWiki(text: string, page: string, content: string)

  /** A name can be read back from a listing only if it has no line break;
      account names on the platform never do. */
  predicate PlainName(name: string) { '\n' !in name }

  /** One entry per name, `prefix` before each, in order. */
  function Entries(prefix: string, names: seq<string>): (r: seq<string>)
    ensures |r| == |names|
    ensures forall i :: 0 <= i < |names| ==> r[i] == prefix + names[i]
  {
    if names == [] then [] else [prefix + names[0]] + Entries(prefix, names[1..])
  }

  /** `Separator.join(paras)`. */
  function Join(paras: seq<string>): string
  {
    if paras == [] then ""
    else if |paras| == 1 then paras[0]
    else paras[0] + Separator + Join(paras[1..])
  }

  /** Cuts `s` at every blank line; `cur` is the paragraph read so far. */
  function SplitFrom(s: string, cur: string): (r: seq<string>)
    ensures |r| >= 1
    decreases |s|
  {
    if s == [] then [cur]
    else if |s| >= 2 && s[0] == '\n' && s[1] == '\n' then [cur] + SplitFrom(s[2..], "")
    else SplitFrom(s[1..], cur + [s[0]])
  }

  function Split(s: string): seq<string> { SplitFrom(s, "") }

  /** The names a listing shows: each paragraph with `prefix` taken off. */
  function Names(prefix: string, text: string): seq<string>
  {
    var paras := Split(text);
    seq(|paras|, i requires 0 <= i < |paras| =>
      if prefix <= paras[i] then paras[i][|prefix|..] else paras[i])
  }

  /** The listing of `names`, one `prefix`ed paragraph each. */
  function Listing(prefix: string, names: seq<string>): string
  {
    Join(Entries(prefix, names))
  }

  /** Text without line breaks is read as part of the current paragraph. */
  lemma {:induction false} SplitPlain(x: string, rest: string, cur: string)
    requires '\n' !in x
    ensures SplitFrom(x + rest, cur) == SplitFrom(rest, cur + x)
    decreases |x|
  {
    if x == [] {
      assert x + rest == rest && cur + x == cur;
    } else {
      assert (x + rest)[0] == x[0] && (x + rest)[1..] == x[1..] + rest;
      SplitPlain(x[1..], rest, cur + [x[0]]);
      assert cur + [x[0]] + x[1..] == cur + x;
    }
  }

  /** A line-break-free paragraph followed by a blank line is read as one
      paragraph, and splitting resumes after the blank line. */
  lemma SplitSeparated(x: string, rest: string)
    requires '\n' !in x
    ensures Split(x + Separator + rest) == [x] + Split(rest)
  {
    assert x + Separator + rest == x + (Separator + rest);
    SplitPlain(x, Separator + rest, "");
    assert "" + x == x;
    assert (Separator + rest)[2..] == rest;
  }

  /** Splitting a join gives back the paragraphs, if none has a line break. */
  lemma {:induction false} SplitJoin(paras: seq<string>)
    requires paras != []
    requires forall i :: 0 <= i < |paras| ==> '\n' !in paras[i]
    ensures Split(Join(paras)) == paras
    decreases |paras|
  {
    if |paras| == 1 {
      SplitPlain(paras[0], "", "");
      assert paras[0] + "" == paras[0] && "" + paras[0] == paras[0];
    } else {
      SplitJoin(paras[1..]);
      SplitSeparated(paras[0], Join(paras[1..]));
      assert paras == [paras[0]] + paras[1..];
    }
  }

  /** The names can be read back from their listing, in order. */
  lemma ListingRoundTrip(prefix: string, names: seq<string>)
    requires names != [] && PlainName(prefix)
    requires forall i :: 0 <= i < |names| ==> PlainName(names[i])
    ensures Names(prefix, Listing(prefix, names)) == names
  {
    var entries := Entries(prefix, names);
    SplitJoin(entries);
    forall i | 0 <= i < |names| ensures entries[i][|prefix|..] == names[i] {
      assert entries[i] == prefix + names[i];
    }
  }

  /** The wiki page path of a community's summary for one date. */
  function WikiPage(community: string, date: string): string
  {
    "summaries/" + community + "/" + date
  }

  /** The summary for the pruned names of `community`; `bot` is the bot's
      own account name, whose community holds the wiki, `date` the day as
      %Y%m%d. */
  function Summarize(bot: string, community: string, date: string, pruned: seq<string>): (r: Summary)
    ensures r.OnWiki? <==> |pruned| > Threshold
    ensures |pruned| == 0 ==> r == Inline(NothingRemoved)
    ensures r.OnWiki? ==>
      r.page == WikiPage(community, date) &&
      r.text == "* Full summary can be found at /r/" + bot + "/w/" + r.page
    ensures 0 < |pruned| <= Threshold ==> r.text == Listing(NumberedEntry, pruned)
    ensures r.OnWiki? ==> r.content == Listing(BulletEntry, pruned)
  {
    if |pruned| == 0 then
      Inline(NothingRemoved)
    else if |pruned| > Threshold then
      var page := WikiPage(community, date);
      var content := Listing(BulletEntry, pruned);
      OnWiki("* Full summary can be found at /r/" + bot + "/w/" + page, page, content)
    else
      Inline(Listing(NumberedEntry, pruned))
  }

  /** Whatever the count, the pruned names can be read back from the
      summary: from the inline list when there are at most Threshold of
      them, from the wiki page's content otherwise. */
  lemma SummaryListsPruned(bot: string, community: string, date: string, pruned: seq<string>)
    requires forall i :: 0 <= i < |pruned| ==> PlainName(pruned[i])
    ensures var r := Summarize(bot, community, date, pruned);
      && (|pruned| == 0 ==> r.text == NothingRemoved)
      && (0 < |pruned| <= Threshold ==> r.Inline? && Names(NumberedEntry, r.text) == pruned)
      && (r.OnWiki? ==> Names(BulletEntry, r.content) == pruned)
  {
    if 0 < |pruned| <= Threshold {
      ListingRoundTrip(NumberedEntry, pruned);
    } else if |pruned| > Threshold {
      ListingRoundTrip(BulletEntry, pruned);
    }
  }
}
