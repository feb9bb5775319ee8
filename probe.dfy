/** The existence probe of Bot.is_shadowbanned: GET the user's page after
    sleeping `sleep_time` seconds; a 404 means the account is gone. */
module Probe {
  import opened Events

  /** The initial and reset value of `sleep_time`, in seconds. */
  const BaseSleep: nat := 2
  /** What each connection error adds to `sleep_time`. */
  const Backoff: nat := 2

  /** What one call of the probe did: its verdict, the new `sleep_time`, the
      answers the network has left, and the lookups it made. */
  datatype ProbeResult = ProbeResult(found: bool, sleep: nat, rest: seq<Outcome>, attempts: seq<Event>)

  /** The number of connection errors that open `net`. */
  function LeadingErrors(net: seq<Outcome>): (k: nat)
    ensures k <= |net|
    ensures forall j :: 0 <= j < k ==> net[j] == ConnError
    ensures k < |net| ==> net[k] != ConnError
  {
    if net != [] && net[0] == ConnError then 1 + LeadingErrors(net[1..]) else 0
  }

  /** One call of is_shadowbanned, as written: a connection error adds
      Backoff to the sleep and retries, but the retry's verdict is dropped,
      so only a 404 on the very first GET counts as "gone". The retries go
      on until a GET ends with a status, which `net` is required to hold;
      each call uses up exactly one such answer. */
  function Check(user: string, sleep: nat, net: seq<Outcome>): (r: ProbeResult)
    requires Answers(net) > 0
    ensures r.found <==> net[0] == NotFound
    ensures Answers(r.rest) == Answers(net) - 1
    decreases |net|
  {
    match net[0]
    case NotFound => ProbeResult(true, BaseSleep, net[1..], [Lookup(user, sleep)])
    case OtherStatus => ProbeResult(false, sleep, net[1..], [Lookup(user, sleep)])
    case ConnError =>
      var nested := Check(user, sleep + Backoff, net[1..]);
      ProbeResult(false, nested.sleep, nested.rest, [Lookup(user, sleep)] + nested.attempts)
  }

  /** The backoff of one probe: after k connection errors and a status, the
      probe made k + 1 lookups, sleeping Backoff longer before each retry;
      `sleep_time` is back at BaseSleep if the status was 404 and has grown
      by Backoff per error otherwise; the answers after that status remain. */
  lemma {:induction false} CheckBackoff(user: string, sleep: nat, net: seq<Outcome>)
    requires Answers(net) > 0
    ensures var r := Check(user, sleep, net);
      var k := LeadingErrors(net);
      && k < |net|
      && r.sleep == (if net[k] == NotFound then BaseSleep else sleep + Backoff * k)
      && r.rest == net[k + 1..]
      && |r.attempts| == k + 1
      && forall j :: 0 <= j < |r.attempts| ==> r.attempts[j] == Lookup(user, sleep + Backoff * j)
    decreases |net|
  {
    if net[0] == ConnError {
      CheckBackoff(user, sleep + Backoff, net[1..]);
      var r := Check(user, sleep, net);
      var nested := Check(user, sleep + Backoff, net[1..]);
      assert r.attempts == [Lookup(user, sleep)] + nested.attempts;
      forall j | 0 <= j < |r.attempts| ensures r.attempts[j] == Lookup(user, sleep + Backoff * j) {
        if j > 0 {
          assert r.attempts[j] == nested.attempts[j - 1];
        }
      }
    }
  }

  /** A probe's calls are all lookups. */
  lemma CheckLookups(user: string, sleep: nat, net: seq<Outcome>)
    requires Answers(net) > 0
    ensures forall j :: 0 <= j < |Check(user, sleep, net).attempts| ==> Check(user, sleep, net).attempts[j].Lookup?
  {
    CheckBackoff(user, sleep, net);
  }

  /** A connection error followed by a 404 leaves the account classified as
      present, although the retry saw that it is gone; the sleep is still
      reset. The probe that returns the retry's verdict says gone. */
  lemma RetriedNotFoundIsDropped(user: string, sleep: nat, net: seq<Outcome>)
    requires |net| >= 2 && net[0] == ConnError && net[1] == NotFound
    ensures Answers(net) > 0
    ensures var r := Check(user, sleep, net);
      !r.found && r.sleep == BaseSleep && r.attempts == [Lookup(user, sleep), Lookup(user, sleep + Backoff)]
    ensures CheckRetried(user, sleep, net).found
  {
    CheckRetriedVerdict(user, sleep, net);
    assert Answers(net) == Answers(net[1..]);
    assert LeadingErrors(net) == 1;
    CheckBackoff(user, sleep, net);
    var r := Check(user, sleep, net);
    assert |r.attempts| == 2;
  }

  /** The probe as evidently intended: like Check, but a retry's verdict is
      returned instead of dropped. */
  function CheckRetried(user: string, sleep: nat, net: seq<Outcome>): (r: ProbeResult)
    requires Answers(net) > 0
    ensures Answers(r.rest) == Answers(net) - 1
    decreases |net|
  {
    match net[0]
    case NotFound => ProbeResult(true, BaseSleep, net[1..], [Lookup(user, sleep)])
    case OtherStatus => ProbeResult(false, sleep, net[1..], [Lookup(user, sleep)])
    case ConnError =>
      var nested := CheckRetried(user, sleep + Backoff, net[1..]);
      ProbeResult(nested.found, nested.sleep, nested.rest, [Lookup(user, sleep)] + nested.attempts)
  }

  /** The intended probe says gone exactly when the first GET that ends with
      a status answers 404, and otherwise behaves as the probe as written:
      same lookups, same sleep afterwards, same answers left. */
  lemma {:induction false} CheckRetriedVerdict(user: string, sleep: nat, net: seq<Outcome>)
    requires Answers(net) > 0
    ensures var k := LeadingErrors(net);
      k < |net| && (CheckRetried(user, sleep, net).found <==> net[k] == NotFound)
    ensures var r := CheckRetried(user, sleep, net);
      var w := Check(user, sleep, net);
      r.sleep == w.sleep && r.rest == w.rest && r.attempts == w.attempts
    decreases |net|
  {
    if net[0] == ConnError {
      CheckRetriedVerdict(user, sleep + Backoff, net[1..]);
    }
  }
}
