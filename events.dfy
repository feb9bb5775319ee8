/** The bot's view of the outside world: what the existence probe's HTTP GET
    answers, and the log of calls the bot makes to the platform. */
module Events {

  /** How one GET of a user's profile page ends: a 404 status, any other
      status, or a connection error raised before a status arrives. */
  datatype Outcome = NotFound | OtherStatus | ConnError

  /** The body of the 'Pruned Bans' message: the fixed prose template with
      its four placeholders filled in. */
  datatype Report = Report(summary: string, total: nat, removed: nat, left: int)

  /** One call the bot makes to an external service, in the order made. */
  datatype Event =
    | Lookup(user: string, delay: nat)                        // sleep `delay` seconds, then GET the user's page
    | BanRemoved(community: string, user: string)             // subreddit.remove_ban(user)
    | WikiEdited(community: string, page: string, content: string)
    | MessageSent(community: string, subject: string, report: Report)
    | ModeratorRemoved(community: string, moderator: string)

  /** The number of GETs in `net` that end with a status, i.e. the number of
      probes the network can bring to an end. */
  function Answers(net: seq<Outcome>): (n: nat)
    ensures n <= |net|
  {
    if net == [] then 0
    else (if net[0] == ConnError then 0 else 1) + Answers(net[1..])
  }

  /** Concatenation of `f` over the log, in order. */
  function Project(log: seq<Event>, f: Event -> seq<string>): seq<string>
  {
    if log == [] then [] else Project(log[..|log| - 1], f) + f(log[|log| - 1])
  }

  lemma {:induction false} ProjectAppend(a: seq<Event>, b: seq<Event>, f: Event -> seq<string>)
    ensures Project(a + b, f) == Project(a, f) + Project(b, f)
    decreases |b|
  {
    if b == [] {
      assert a + b == a;
    } else {
      var b' := b[..|b| - 1];
      assert (a + b)[..|a + b| - 1] == a + b';
      ProjectAppend(a, b', f);
    }
  }

  lemma ProjectOne(a: Event, f: Event -> seq<string>)
    ensures Project([a], f) == f(a)
  {
    assert [a][..0] == [];
  }

  lemma ProjectPair(a: Event, b: Event, f: Event -> seq<string>)
    ensures Project([a, b], f) == f(a) + f(b)
  {
    assert [a, b][..1] == [a];
    ProjectOne(a, f);
  }

  function RemovedUser(e: Event): seq<string> { if e.BanRemoved? then [e.user] else [] }
  function MessagedCommunity(e: Event): seq<string> { if e.MessageSent? then [e.community] else [] }
  function LeftCommunity(e: Event): seq<string> { if e.ModeratorRemoved? then [e.community] else [] }

  /** The users whose ban was removed, in order. */
  function Removals(log: seq<Event>): seq<string> { Project(log, RemovedUser) }
  /** The communities that were sent a message, in order. */
  function Messaged(log: seq<Event>): seq<string> { Project(log, MessagedCommunity) }
  /** The communities the bot stepped down from, in order. */
  function Resignations(log: seq<Event>): seq<string> { Project(log, LeftCommunity) }

  /** Events that pruning the ban list of `community` may make: lookups,
      and removals of bans in that community. */
  predicate PruningEvents(evs: seq<Event>, community: string)
  {
    forall i :: 0 <= i < |evs| ==> evs[i].Lookup? || (evs[i].BanRemoved? && evs[i].community == community)
  }

  lemma {:induction false} PruningEventsProjection(evs: seq<Event>, community: string)
    requires PruningEvents(evs, community)
    ensures Messaged(evs) == [] && Resignations(evs) == []
    ensures (forall i :: 0 <= i < |evs| ==> evs[i].Lookup?) ==> Removals(evs) == []
    decreases |evs|
  {
    if evs != [] {
      PruningEventsProjection(evs[..|evs| - 1], community);
    }
  }
}
