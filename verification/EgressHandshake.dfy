/**
 How long the origin may go on trusting the exit: health requests that are delayed, reordered or lost, answers
 that carry only what is left of the exit's own lease, and the leases the origin signs on the strength of them.
 All times are on one clock, in nanoseconds.
 */
module EgressHandshake {
  import opened Prelude
  import opened EgressEvidence

  const MILLI: Time := 1_000_000
  const PER_ROUND: nat := 2
  const IN_FLIGHT: nat := 8

  /** The trust an answer buys: its remaining milliseconds, counted from the moment the request was made. */
  function Window(started: Time, remaining: int): Time {
    started + remaining * MILLI
  }

  /** What the exit answers at `now`: the milliseconds left, rounded down. Positive dividends only, so `/` is the
      source's `//`. */
  function Remaining(healthExpiry: Time, now: Time): int {
    if healthExpiry > now then (healthExpiry - now) / MILLI else 0
  }

  /** An answer never buys more than the exit itself has left, however long it was under way. */
  lemma WindowWithinExit(started: Time, now: Time, healthExpiry: Time)
    requires started <= now && Remaining(healthExpiry, now) > 0
    ensures Window(started, Remaining(healthExpiry, now)) <= healthExpiry
  {
    assert ((healthExpiry - now) / MILLI) * MILLI <= healthExpiry - now;
  }

  // ----- The confirmation loop -----

  /** The state of a request's future: still running, ended in an error, or a valid health answer. */
  datatype Reply = Running | Broken | Healthy(remaining: int)

  /** `sent(id)` is when a request was really sent, `reply(k, id)` its state at the k-th look, `clock(k)` the time
      then. */
  datatype Surroundings = Surroundings(sent: nat -> Time, reply: (nat, nat) -> Reply, clock: nat -> Time, nextId: nat)

  /** Time goes on: any moment is passed at some later look. */
  ghost predicate TimePasses(env: Surroundings) {
    forall k: nat, t: Time {:trigger Later(env, k, t)} :: Later(env, k, t)
  }

  ghost predicate Later(env: Surroundings, k: nat, t: Time) {
    exists m :: m > k && env.clock(m) >= t
  }

  /** Time does not run backwards, and a future that is done keeps its result. */
  ghost predicate Steady(env: Surroundings) {
    && (forall i: nat, j: nat :: i <= j ==> env.clock(i) <= env.clock(j))
    && forall i: nat, j: nat, r: nat {:trigger env.reply(i, r), env.reply(j, r)} ::
      i <= j && !env.reply(i, r).Running? ==> env.reply(j, r) == env.reply(i, r)
  }

  /** How long a round waits at most. */
  function Patience(lease: Time): Time {
    if 3 * 800 * MILLI <= lease then 800 * MILLI else lease / 3
  }

  /** `r` is answered at look `k`, with a window that reaches beyond `trust`. */
  predicate Extends(env: Surroundings, k: nat, r: nat, trust: Time) {
    env.reply(k, r).Healthy? && Window(env.sent(r), env.reply(k, r).remaining) > trust
  }

  /** There is nothing to wait for at look `k`: one of the requests extended the trust, the time is up, none of them is
      under way, or the trust lasts for another second. */
  predicate Stops(env: Surroundings, all: seq<nat>, trust: Time, lease: Time, k: nat) {
    || (exists r <- all :: Extends(env, k, r, trust))
    || env.clock(k) >= env.clock(0) + Patience(lease)
    || (forall r <- all :: !env.reply(k, r).Running?)
    || trust - env.clock(k) > 1_000 * MILLI
  }

  predicate Done(env: Surroundings, k: nat, pending: seq<nat>) {
    pending == [] || exists r <- pending :: !env.reply(k, r).Running?
  }

  class RemoteTrust {
    /** The requests under way, by number. */
    var pending: seq<nat>
    var validUntil: Time

    /** The longest trust that the answers to `requests` buy at look `k`, starting from `trust`. */
    static function Best(env: Surroundings, k: nat, requests: seq<nat>, trust: Time): Time {
      if requests == [] then trust
      else
        var n := |requests| - 1;
        var before := Best(env, k, requests[..n], trust);
        match env.reply(k, requests[n])
        case Healthy(ms) =>
          var until := Window(env.sent(requests[n]), ms);
          if until > before then until else before
        case _ => before
    }

    static function StillRunning(env: Surroundings, k: nat, requests: seq<nat>): seq<nat> {
      if requests == [] then []
      else
        var n := |requests| - 1;
        StillRunning(env, k, requests[..n]) + if env.reply(k, requests[n]).Running? then [requests[n]] else []
    }

    static lemma {:induction false} FewerRunning(env: Surroundings, k: nat, requests: seq<nat>)
      ensures |StillRunning(env, k, requests)| <= |requests|
      ensures |requests| > 0 && Done(env, k, requests) ==> |StillRunning(env, k, requests)| < |requests|
      ensures forall r :: r in StillRunning(env, k, requests) <==> r in requests && env.reply(k, r).Running?
    {
      if requests != [] {
        var n := |requests| - 1;
        FewerRunning(env, k, requests[..n]);
        assert requests == requests[..n] + [requests[n]];
        assert forall r :: r in requests <==> r in requests[..n] || r == requests[n];
        if env.reply(k, requests[n]).Running? && Done(env, k, requests) {
          assert Done(env, k, requests[..n]);
        }
      }
    }

    static predicate Buys(env: Surroundings, k: nat, r: nat, until: Time) {
      env.reply(k, r).Healthy? && Window(env.sent(r), env.reply(k, r).remaining) == until
    }

    /** The result is the largest of the trust so far and the windows of the answers at hand. */
    static lemma {:induction false} BestIsLargest(env: Surroundings, k: nat, requests: seq<nat>, trust: Time)
      ensures var best := Best(env, k, requests, trust);
              && trust <= best
              && (forall r <- requests :: env.reply(k, r).Healthy? ==>
                  Window(env.sent(r), env.reply(k, r).remaining) <= best)
              && (best == trust || exists r <- requests :: Buys(env, k, r, best))
    {
      if requests != [] {
        var n := |requests| - 1;
        assert requests == requests[..n] + [requests[n]];
        BestIsLargest(env, k, requests[..n], trust);
        var best := Best(env, k, requests, trust);
        if best != Best(env, k, requests[..n], trust) {
          assert Buys(env, k, requests[n], best) && requests[n] in requests;
        }
      }
    }

    /** One pass over the requests under way. */
    method Collect(env: Surroundings, k: nat) returns (extended: bool)
      modifies this
      ensures pending == StillRunning(env, k, old(pending)) && validUntil == Best(env, k, old(pending), old(validUntil))
      ensures extended <==> validUntil > old(validUntil)
    {
      var unfinished: seq<nat> := [];
      extended := false;
      for i := 0 to |pending|
        invariant pending == old(pending) && unfinished == StillRunning(env, k, pending[..i])
        invariant validUntil == Best(env, k, pending[..i], old(validUntil))
                    && (extended <==> validUntil > old(validUntil))
        invariant validUntil >= old(validUntil)
      {
        assert pending[..i + 1][..i] == pending[..i];
        match env.reply(k, pending[i]) {
          case Running => unfinished := unfinished + [pending[i]];
          case Broken =>
          case Healthy(ms) =>
            var until := Window(env.sent(pending[i]), ms);
            if until > validUntil { validUntil, extended := until, true; }
        }
      }
      assert pending[..|pending|] == pending;
      pending := unfinished;
    }

    method Submit(env: Surroundings)
      requires |pending| <= IN_FLIGHT
      modifies `pending
      ensures old(pending) <= pending && |pending| <= IN_FLIGHT
      ensures |pending| == if |old(pending)| + PER_ROUND <= IN_FLIGHT then |old(pending)| + PER_ROUND else IN_FLIGHT
      ensures forall i :: |old(pending)| <= i < |pending| ==> pending[i] == env.nextId + i - |old(pending)|
    {
      ghost var was := pending;
      for i := 0 to PER_ROUND
        invariant was <= pending && |pending| <= IN_FLIGHT
        invariant |pending| == if |was| + i <= IN_FLIGHT then |was| + i else IN_FLIGHT
        invariant forall j :: |was| <= j < |pending| ==> pending[j] == env.nextId + j - |was|
      {
        if |pending| < IN_FLIGHT { pending := pending + [env.nextId + i]; }
      }
    }

    /** A wait ends as soon as one of the requests under way is done or the time is up. */
    method WaitFutures(env: Surroundings, k: nat, until: Time) returns (next: nat)
      requires TimePasses(env)
      ensures next > k && (env.clock(next) >= until || Done(env, next, pending))
      ensures forall i :: k < i < next ==> env.clock(i) < until && !Done(env, i, pending)
    {
      assert Later(env, k, until);
      ghost var end :| end > k && env.clock(end) >= until;
      next := k + 1;
      while env.clock(next) < until && !Done(env, next, pending)
        invariant k < next <= end
        invariant forall i :: k < i < next ==> env.clock(i) < until && !Done(env, i, pending)
        decreases end - next
      {
        next := next + 1;
      }
    }

    /** While nobody is done and there is time left, a wait has missed nothing. */
    static lemma StillNothing(env: Surroundings, all: seq<nat>, running: seq<nat>, trust: Time, lease: Time, k: nat,
                              next: nat)
      requires Steady(env) && k < next && !Stops(env, all, trust, lease, k)
      requires forall r :: r in running <==> r in all && env.reply(k, r).Running?
      requires forall i :: k < i < next ==> env.clock(i) < env.clock(0) + Patience(lease) && !Done(env, i, running)
      ensures forall i: nat :: k <= i < next ==> !Stops(env, all, trust, lease, i)
      ensures forall r <- all :: r !in running ==>
                !env.reply(next, r).Running? && !Extends(env, next, r, trust)
    {
      forall r | r in all && r !in running ensures env.reply(next, r) == env.reply(k, r) {
      }
      forall i: nat | k < i < next ensures !Stops(env, all, trust, lease, i) {
        assert !Done(env, i, running) && running != [];
        assert env.reply(i, running[0]).Running? && running[0] in all;
        forall r | r in all ensures !Extends(env, i, r, trust) {
          if r in running {
            assert env.reply(i, r).Running?;
          } else {
            assert env.reply(i, r) == env.reply(k, r) && !Extends(env, k, r, trust);
          }
        }
        assert env.clock(k) <= env.clock(i);
      }
    }

    /** `confirm_remote_guard`. `all` are the requests under way before and up to two new ones. The wait ends, and the
        last look is the first at which there is nothing to wait for. By then every valid answer to one of `all` counts,
        trust never shrinks and is only ever bought by such an answer, and what is kept is what is still running. */
    method Confirm(env: Surroundings, lease: Time) returns (ok: bool, ghost all: seq<nat>, ghost looks: nat)
      requires |pending| <= IN_FLIGHT && TimePasses(env) && Steady(env)
      modifies this
      ensures old(pending) <= all && |pending| <= |all| <= IN_FLIGHT
      ensures |all| == if |old(pending)| + 2 <= 8 then |old(pending)| + 2 else 8
      ensures forall i :: |old(pending)| <= i < |all| ==> all[i] == env.nextId + i - |old(pending)|
      ensures Stops(env, all, old(validUntil), lease, looks)
      ensures forall k: nat :: k < looks ==> !Stops(env, all, old(validUntil), lease, k)
      ensures forall r :: r in pending <==> r in all && env.reply(looks, r).Running?
      ensures old(validUntil) <= validUntil
      ensures forall r <- all :: !Extends(env, looks, r, validUntil)
      ensures validUntil == old(validUntil) || exists r <- all :: Buys(env, looks, r, validUntil)
      ensures ok <==> env.clock(looks) < validUntil
      ensures forall r <- all :: Extends(env, looks, r, env.clock(looks)) ==> ok
    {
      Submit(env);
      all := pending;
      var until := env.clock(0) + Patience(lease);
      var k := 0;
      looks := 0;
      while true
        invariant looks == k && validUntil == old(validUntil) && |pending| <= |all|
        invariant forall r <- pending :: r in all
        invariant forall r <- all :: r !in pending ==> !env.reply(k, r).Running? && !Extends(env, k, r, validUntil)
        invariant forall i: nat :: i < k ==> !Stops(env, all, old(validUntil), lease, i)
        invariant k > 0 ==> pending != [] && (env.clock(k) >= until || Done(env, k, pending))
        decreases if k == 0 then 1 else 0, if k > 0 && env.clock(k) >= until then 0 else 1, |pending|
      {
        BestIsLargest(env, k, pending, validUntil);
        FewerRunning(env, k, pending);
        var extended := Collect(env, k);
        assert extended <==> exists r <- all :: Extends(env, k, r, old(validUntil)) by {
          if r :| r in all && Buys(env, k, r, validUntil) && extended { assert Extends(env, k, r, old(validUntil)); }
        }
        if extended || env.clock(k) >= until || pending == [] || validUntil - env.clock(k) > 1_000 * MILLI { break; }
        assert pending[0] in pending && env.reply(k, pending[0]).Running?;
        var next := WaitFutures(env, k, until);
        StillNothing(env, all, pending, validUntil, lease, k, next);
        k := next;
        looks := k;
      }
      ok := env.clock(k) < validUntil;
    }
  }

  // ----- Both hosts together -----

  /** A health request under way: when it was sent and, once the exit has seen it, what the exit answered. */
  datatype Flight = Flight(sent: Time, answer: Option<int>)

  /** `lastGood` is when the exit's last compliant round began; `issued` the latest expiry the origin has given a
      lease. */
  datatype Hosts = Hosts(clock: Time, healthExpiry: Time, lastGood: Time, flights: map<nat, Flight>, validUntil: Time,
                         issued: Time)

  datatype Move =
    | Wait(span: nat)
    | ExitRound(start: Time, shared: bool)
    | ExitFails
    | Send(id: nat)
    | Answer(id: nat)
    | Receive(id: nat)
    | Lose(id: nat)
    | OriginRestarts
    | OriginRound(start: Time)

  function Max(a: Time, b: Time): Time {
    if a >= b then a else b
  }

  /** `ExitRound` ends a round begun at `start`; `OriginRound` is one begun at `start` whose confirmation is made now
      and whose leases are signed if it succeeds. */
  function Next(lease: Time, s: Hosts, move: Move): Hosts {
    match move
    case Wait(span) => s.(clock := s.clock + span)
    case ExitRound(start, shared) =>
      if start > s.clock then s
      else if !shared then s.(healthExpiry := 0)
      else s.(healthExpiry := start + lease, lastGood := Max(s.lastGood, start))
    case ExitFails => s.(healthExpiry := 0)
    case Send(id) =>
      if id in s.flights || |s.flights| >= IN_FLIGHT then s else s.(flights := s.flights[id := Flight(s.clock, None)])
    case Answer(id) =>
      if id !in s.flights || s.flights[id].answer.Some? then s
      else
        var ms := Remaining(s.healthExpiry, s.clock);
        if ms > 0 then s.(flights := s.flights[id := s.flights[id].(answer := Some(ms))])
            else s.(flights := s.flights - {id})
    case Receive(id) =>
      if id !in s.flights || s.flights[id].answer.None? then s
      else
        var until := Window(s.flights[id].sent, s.flights[id].answer.value);
        s.(flights := s.flights - {id}, validUntil := Max(s.validUntil, until))
    case Lose(id) => s.(flights := s.flights - {id})
    case OriginRestarts => s.(flights := map[], validUntil := 0)
    case OriginRound(start) =>
      if start > s.clock || s.clock >= s.validUntil then s else s.(issued := Max(s.issued, start + lease))
  }

  function Run(lease: Time, s: Hosts, moves: seq<Move>): Hosts {
    if moves == [] then s else Next(lease, Run(lease, s, moves[..|moves| - 1]), moves[|moves| - 1])
  }

  // ----- The confirmation as moves -----

  predicate Distinct(requests: seq<nat>) {
    forall i, j :: 0 <= i < j < |requests| ==> requests[i] != requests[j]
  }

  function Numbers(requests: seq<nat>): set<nat> {
    set r | r in requests
  }

  lemma {:induction false} NumbersCount(requests: seq<nat>)
    requires Distinct(requests)
    ensures |Numbers(requests)| == |requests|
  {
    if requests != [] {
      var n := |requests| - 1;
      NumbersMore(requests[..n], requests[n]);
      assert requests == requests[..n] + [requests[n]];
      NumbersCount(requests[..n]);
    }
  }

  lemma NumbersMore(requests: seq<nat>, id: nat)
    ensures Numbers(requests + [id]) == Numbers(requests) + {id}
  {
  }

  /** The origin's list of requests is what is under way between the hosts. */
  predicate Carried(s: Hosts, pending: seq<nat>) {
    Distinct(pending) && s.flights.Keys == Numbers(pending)
  }

  /** What the origin sees of its requests at look `k` is what the exit answered: a valid one the exit gave. */
  predicate Mirrors(env: Surroundings, k: nat, requests: seq<nat>, s: Hosts) {
    forall r <- requests ::
      && r in s.flights && s.flights[r].sent == env.sent(r)
      && (env.reply(k, r).Healthy? ==> s.flights[r].answer == Some(env.reply(k, r).remaining))
  }

  /** The numbers of finished requests. */
  function Landed(env: Surroundings, k: nat, requests: seq<nat>): set<nat> {
    set r | r in requests && !env.reply(k, r).Running?
  }

  function LandingMoves(env: Surroundings, k: nat, requests: seq<nat>): seq<Move> {
    if requests == [] then []
    else
      var n := |requests| - 1;
      LandingMoves(env, k, requests[..n]) +
      match env.reply(k, requests[n])
      case Running => []
      case Broken => [Lose(requests[n])]
      case Healthy(_) => [Receive(requests[n])]
  }

  /** Submitting is sending. */
  lemma SubmitIsMoves(lease: Time, s: Hosts, pending: seq<nat>, nextId: nat, after: seq<nat>)
    requires Carried(s, pending) && |pending| <= IN_FLIGHT && nextId !in pending && nextId + 1 !in pending
    requires after == pending + (if |pending| + 2 <= IN_FLIGHT then [nextId, nextId + 1]
                                 else if |pending| < IN_FLIGHT then [nextId] else [])
    ensures var s' := Next(lease, Next(lease, s, Send(nextId)), Send(nextId + 1));
            Carried(s', after) && s' == s.(flights := s'.flights)
  {
    var s1 := Next(lease, s, Send(nextId));
    var first := if |pending| < IN_FLIGHT then pending + [nextId] else pending;
    OneSent(lease, s, pending, nextId);
    OneSent(lease, s1, first, nextId + 1);
    assert after == if |first| < IN_FLIGHT then first + [nextId + 1] else first;
  }

  lemma OneSent(lease: Time, s: Hosts, pending: seq<nat>, id: nat)
    requires Carried(s, pending) && id !in pending && |pending| <= IN_FLIGHT
    ensures var s' := Next(lease, s, Send(id));
            && Carried(s', if |pending| < IN_FLIGHT then pending + [id] else pending)
            && s' == s.(flights := s'.flights)
  {
    NumbersCount(pending);
    NumbersMore(pending, id);
    assert |s.flights| == |s.flights.Keys|;
    assert id !in Numbers(pending);
    if |pending| < IN_FLIGHT {
      assert Distinct(pending + [id]);
      assert s.flights[id := Flight(s.clock, None)].Keys == s.flights.Keys + {id};
    }
  }

  /** One landing: what one finished request does to the origin. */
  lemma OneLanded(lease: Time, env: Surroundings, k: nat, s: Hosts, r: nat)
    requires Mirrors(env, k, [r], s) && !env.reply(k, r).Running?
    ensures Next(lease, s, if env.reply(k, r).Broken? then Lose(r) else Receive(r)) ==
              s.(flights := s.flights - {r}, validUntil := RemoteTrust.Best(env, k, [r], s.validUntil))
  {
    assert r in [r] && [r][..0] == [];
    assert RemoteTrust.Best(env, k, [], s.validUntil) == s.validUntil;
  }

  lemma BestOneMore(env: Surroundings, k: nat, requests: seq<nat>, trust: Time)
    requires requests != []
    ensures var n := |requests| - 1;
            RemoteTrust.Best(env, k, requests, trust) ==
              RemoteTrust.Best(env, k, [requests[n]], RemoteTrust.Best(env, k, requests[..n], trust))
  {
    var n := |requests| - 1;
    assert [requests[n]][..0] == [];
    var before := RemoteTrust.Best(env, k, requests[..n], trust);
    assert RemoteTrust.Best(env, k, [], before) == before;
  }

  lemma RunOn(lease: Time, s: Hosts, moves: seq<Move>, move: Move)
    ensures Run(lease, s, moves + [move]) == Next(lease, Run(lease, s, moves), move)
  {
    assert (moves + [move])[..|moves|] == moves;
  }

  /** The landing of the last request. */
  lemma LastLanded(lease: Time, env: Surroundings, k: nat, requests: seq<nat>, s: Hosts)
    requires requests != [] && Distinct(requests) && Mirrors(env, k, requests, s)
    requires !env.reply(k, requests[|requests| - 1]).Running?
    ensures var n := |requests| - 1;
            var s1 := s.(flights := s.flights - Landed(env, k, requests[..n]), validUntil :=
                         RemoteTrust.Best(env, k, requests[..n], s.validUntil));
            Next(lease, s1, if env.reply(k, requests[n]).Broken? then Lose(requests[n]) else Receive(requests[n])) ==
              s.(flights := s.flights - Landed(env, k, requests), validUntil :=
                 RemoteTrust.Best(env, k, requests, s.validUntil))
  {
    var n := |requests| - 1;
    var rest, last := requests[..n], requests[n];
    assert requests == rest + [last] && last !in rest && last in requests;
    var s1 := s.(flights := s.flights - Landed(env, k, rest), validUntil :=
                 RemoteTrust.Best(env, k, rest, s.validUntil));
    assert Mirrors(env, k, [last], s1);
    OneLanded(lease, env, k, s1, last);
    BestOneMore(env, k, requests, s.validUntil);
    assert Landed(env, k, requests) == Landed(env, k, rest) + {last};
    assert s1.flights - {last} == s.flights - Landed(env, k, requests);
  }

  /** One pass of the confirmation loop is receiving and losing: it computes the trust those moves leave. */
  lemma {:induction false} CollectIsMoves(lease: Time, env: Surroundings, k: nat, requests: seq<nat>, s: Hosts)
    requires Distinct(requests) && Mirrors(env, k, requests, s)
    ensures Run(lease, s, LandingMoves(env, k, requests)) ==
              s.(flights := s.flights - Landed(env, k, requests), validUntil :=
                 RemoteTrust.Best(env, k, requests, s.validUntil))
  {
    if requests == [] {
      assert s.flights - {} == s.flights;
    } else {
      var n := |requests| - 1;
      var rest, last := requests[..n], requests[n];
      assert requests == rest + [last] && last !in rest;
      CollectIsMoves(lease, env, k, rest, s);
      var moves := LandingMoves(env, k, rest);
      if env.reply(k, last).Running? {
        assert LandingMoves(env, k, requests) == moves;
        assert Landed(env, k, requests) == Landed(env, k, rest);
      } else {
        var move := if env.reply(k, last).Broken? then Lose(last) else Receive(last);
        assert LandingMoves(env, k, requests) == moves + [move];
        RunOn(lease, s, moves, move);
        LastLanded(lease, env, k, requests, s);
      }
    }
  }

  predicate AtStart(s: Hosts) {
    s.clock >= 0 && s.healthExpiry == 0 && s.lastGood == 0 && s.flights == map[] && s.validUntil == 0 && s.issued == 0
  }

  predicate FlightsBounded(flights: map<nat, Flight>, clock: Time, bound: Time) {
    forall id <- flights ::
      flights[id].sent <= clock && (flights[id].answer.Some? ==>
                                    Window(flights[id].sent, flights[id].answer.value) <= bound)
  }

  predicate Inv(lease: Time, s: Hosts) {
    && lease > 0 && s.lastGood >= 0
    && s.healthExpiry <= s.lastGood + lease && s.validUntil <= s.lastGood + lease
    && s.issued < s.lastGood + 2 * lease
    && |s.flights| <= IN_FLIGHT
    && FlightsBounded(s.flights, s.clock, s.lastGood + lease)
  }

  lemma MoveKeeps(lease: Time, s: Hosts, move: Move)
    requires Inv(lease, s)
    ensures Inv(lease, Next(lease, s, move)) && Next(lease, s, move).lastGood >= s.lastGood
  {
    match move
    case Send(id) =>
    case Answer(id) => AnswerKeeps(lease, s, id);
    case Receive(id) => LandingKeeps(lease, s, move);
    case Lose(id) => LandingKeeps(lease, s, move);
    case _ => GroundKeeps(lease, s, move);
  }

  lemma GroundKeeps(lease: Time, s: Hosts, move: Move)
    requires Inv(lease, s) && !move.Send? && !move.Answer? && !move.Receive? && !move.Lose?
    ensures Inv(lease, Next(lease, s, move)) && Next(lease, s, move).lastGood >= s.lastGood
  {
  }

  lemma LandingKeeps(lease: Time, s: Hosts, move: Move)
    requires Inv(lease, s) && (move.Receive? || move.Lose?)
    ensures Inv(lease, Next(lease, s, move)) && Next(lease, s, move).lastGood == s.lastGood
  {
    FewerFlights(s.flights, Next(lease, s, move).flights);
  }

  lemma AnswerKeeps(lease: Time, s: Hosts, id: nat)
    requires Inv(lease, s)
    ensures Inv(lease, Next(lease, s, Answer(id))) && Next(lease, s, Answer(id)).lastGood == s.lastGood
  {
    AnswerBounded(s, id, s.lastGood + lease);
    FewerFlights(s.flights, Next(lease, s, Answer(id)).flights);
  }

  lemma AnswerBounded(s: Hosts, id: nat, bound: Time)
    requires FlightsBounded(s.flights, s.clock, bound) && s.healthExpiry <= bound
    ensures var s' := Next(1, s, Answer(id));
            s'.flights.Keys <= s.flights.Keys && FlightsBounded(s'.flights, s.clock, bound)
  {
    if id in s.flights && Remaining(s.healthExpiry, s.clock) > 0 {
      WindowWithinExit(s.flights[id].sent, s.clock, s.healthExpiry);
    }
  }

  lemma FewerFlights(before: map<nat, Flight>, after: map<nat, Flight>)
    ensures after.Keys <= before.Keys ==> |after| <= |before|
  {
    if after.Keys <= before.Keys {
      assert before.Keys == after.Keys + (before.Keys - after.Keys);
    }
  }

  lemma {:induction false} RunKeeps(lease: Time, s: Hosts, moves: seq<Move>)
    requires AtStart(s) && lease > 0
    ensures Inv(lease, Run(lease, s, moves))
  {
    if moves != [] {
      RunKeeps(lease, s, moves[..|moves| - 1]);
      MoveKeeps(lease, Run(lease, s, moves[..|moves| - 1]), moves[|moves| - 1]);
    }
  }

  /** Main result: if the exit's last compliant round began at T, the origin trusts it no longer than T + L, and every
      lease the origin ever signs has run out before T + 2L; never are more than eight requests under way. */
  lemma ClosingBound(lease: Time, s: Hosts, moves: seq<Move>)
    requires AtStart(s) && lease > 0
    ensures var end := Run(lease, s, moves);
            && end.validUntil <= end.lastGood + lease
            && end.issued < end.lastGood + 2 * lease
            && |end.flights| <= IN_FLIGHT
  {
    RunKeeps(lease, s, moves);
  }

  lemma Unroll(lease: Time, s: Hosts, moves: seq<Move>, n: nat)
    requires 0 < n <= |moves|
    ensures Run(lease, s, moves[..n]) == Next(lease, Run(lease, s, moves[..n - 1]), moves[n - 1])
  {
    assert moves[..n][..n - 1] == moves[..n - 1];
  }

  /** The bound is tight: a lease that ends one tick before T + 2L can occur. */
  lemma BoundReached(lease: Time)
    requires lease % MILLI == 0 && lease > 0
    ensures var end := Run(lease, Hosts(1, 0, 0, map[], 0, 0), Slowest(lease));
            end.issued == end.lastGood + 2 * lease - 1
  {
    var s, m := Hosts(1, 0, 0, map[], 0, 0), Slowest(lease);
    Trusting(lease);
    Unroll(lease, s, m, 5);
    Unroll(lease, s, m, 6);
    assert m[..6] == m;
  }

  /** The exit answers at once, and the origin begins its round at the last moment of the trust that buys. */
  function Slowest(lease: Time): seq<Move>
    requires lease > 0
  {
    [ExitRound(1, true), Send(0), Answer(0), Receive(0), Wait(lease - 1), OriginRound(lease)]
  }

  lemma Trusting(lease: Time)
    requires lease % MILLI == 0 && lease > 0
    ensures Run(lease, Hosts(1, 0, 0, map[], 0, 0), Slowest(lease)[..4]) == Hosts(1, 1 + lease, 1, map[], 1 + lease, 0)
  {
    var s, m := Hosts(1, 0, 0, map[], 0, 0), Slowest(lease);
    assert m[..0] == [] && Remaining(1 + lease, 1) * MILLI == lease;
    Unroll(lease, s, m, 1);
    Unroll(lease, s, m, 2);
    assert Run(lease, s, m[..2]).flights == map[0 := Flight(1, None)];
    Unroll(lease, s, m, 3);
    assert Run(lease, s, m[..3]).flights == map[0 := Flight(1, Some(Remaining(1 + lease, 1)))];
    Unroll(lease, s, m, 4);
    assert Run(lease, s, m[..4]).flights == map[];
  }

  // ----- What an answer, a failing exit and a restart do -----

  /** A request that is answered while the exit has at least a millisecond left, and whose answer arrives, buys the
      whole milliseconds the exit had left then, counted from when the request was sent. */
  lemma ExchangeBuys(lease: Time, s: Hosts, id: nat, there: nat, back: nat)
    requires id !in s.flights && |s.flights| < IN_FLIGHT && s.healthExpiry >= s.clock + there + MILLI
    ensures var end := Run(lease, s, [Send(id), Wait(there), Answer(id), Wait(back), Receive(id)]);
            && end.validUntil == Max(s.validUntil, s.clock + (s.healthExpiry - s.clock - there) / MILLI * MILLI)
            && end.flights == s.flights && end.clock == s.clock + there + back
  {
    var moves := [Send(id), Wait(there), Answer(id), Wait(back), Receive(id)];
    FiveMoves(lease, s, moves);
    Exchanged(lease, s, Run(lease, s, moves[..2]), id, there, back);
  }

  lemma Exchanged(lease: Time, s: Hosts, s2: Hosts, id: nat, there: nat, back: nat)
    requires id !in s.flights && |s.flights| < IN_FLIGHT && s.healthExpiry >= s.clock + there + MILLI
    requires s2 == Next(lease, Next(lease, s, Send(id)), Wait(there))
    ensures var end := Next(lease, Next(lease, Next(lease, s2, Answer(id)), Wait(back)), Receive(id));
            && end.validUntil == Max(s.validUntil, s.clock + (s.healthExpiry - s.clock - there) / MILLI * MILLI)
            && end.flights == s.flights && end.clock == s.clock + there + back
  {
    var left := (s.healthExpiry - s.clock - there) / MILLI;
    assert s2 == s.(clock := s.clock + there, flights := s.flights[id := Flight(s.clock, None)]);
    assert left >= 1;
    var s3 := Next(lease, s2, Answer(id));
    assert s3 == s2.(flights := s.flights[id := Flight(s.clock, Some(left))]);
    assert s3.flights - {id} == s.flights;
  }

  lemma FiveMoves(lease: Time, s: Hosts, moves: seq<Move>)
    requires |moves| == 5
    ensures Run(lease, s, moves[..1]) == Next(lease, s, moves[0])
    ensures Run(lease, s, moves[..2]) == Next(lease, Run(lease, s, moves[..1]), moves[1])
    ensures Run(lease, s, moves[..3]) == Next(lease, Run(lease, s, moves[..2]), moves[2])
    ensures Run(lease, s, moves[..4]) == Next(lease, Run(lease, s, moves[..3]), moves[3])
    ensures Run(lease, s, moves) == Next(lease, Run(lease, s, moves[..4]), moves[4])
  {
    assert Run(lease, s, moves[..0]) == s;
    forall n | 0 < n <= 5
      ensures Run(lease, s, moves[..n]) == Next(lease, Run(lease, s, moves[..n - 1]), moves[n - 1])
    {
      Unroll(lease, s, moves, n);
    }
    assert moves[..5] == moves;
  }

  predicate GoodRound(move: Move) {
    move.ExitRound? && move.shared
  }

  /** What the origin can still believe once the exit has closed itself in `s`. */
  ghost predicate Fading(s: Hosts, end: Hosts) {
    && end.healthExpiry == 0 && end.clock >= 0
    && (forall id <- end.flights :: end.flights[id].answer.Some? ==>
          id in s.flights && s.flights[id] == end.flights[id])
    && (end.validUntil in {0, s.validUntil}
        || exists id <- s.flights ::
          s.flights[id].answer.Some? && end.validUntil == Window(s.flights[id].sent, s.flights[id].answer.value))
  }

  lemma {:induction false} FadingRun(lease: Time, s: Hosts, moves: seq<Move>)
    requires s.healthExpiry == 0 && s.clock >= 0 && forall move <- moves :: !GoodRound(move)
    ensures Fading(s, Run(lease, s, moves))
  {
    if moves != [] {
      var n := |moves| - 1;
      assert forall move <- moves[..n] :: move in moves;
      FadingRun(lease, s, moves[..n]);
      assert moves[n] in moves;
      FadingStep(lease, s, Run(lease, s, moves[..n]), moves[n]);
    }
  }

  lemma FadingStep(lease: Time, s: Hosts, now: Hosts, move: Move)
    requires Fading(s, now) && !GoodRound(move)
    ensures Fading(s, Next(lease, now, move))
  {
  }

  /** Once the exit has failed or found its protection lost, it answers nothing more until a round of it ends well: what
      the origin can still come to trust are the answers that were already under way. */
  lemma SilentExit(lease: Time, s: Hosts, loss: Move, moves: seq<Move>)
    requires s.clock >= 0 && (loss.ExitFails? || (loss.ExitRound? && !loss.shared && loss.start <= s.clock))
    requires forall move <- moves :: !GoodRound(move)
    ensures var end := Run(lease, Next(lease, s, loss), moves);
            && (forall id <- end.flights :: end.flights[id].answer.Some? ==>
                  id in s.flights && s.flights[id] == end.flights[id])
            && (end.validUntil in {0, s.validUntil}
                || exists id <- s.flights ::
                  && s.flights[id].answer.Some?
                  && end.validUntil == Window(s.flights[id].sent, s.flights[id].answer.value))
  {
    FadingRun(lease, Next(lease, s, loss), moves);
  }

  /** A restarted origin signs nothing until a new answer has arrived; old ones are lost. */
  lemma {:induction false} RestartForgets(lease: Time, s: Hosts, moves: seq<Move>)
    requires s.clock >= 0 && forall move <- moves :: !move.Receive?
    ensures var end := Run(lease, Next(lease, s, OriginRestarts), moves);
            end.issued == s.issued && end.validUntil == 0 && end.clock >= 0
  {
    if moves != [] {
      var n := |moves| - 1;
      assert forall move <- moves[..n] :: move in moves;
      RestartForgets(lease, s, moves[..n]);
      assert moves[n] in moves;
    }
  }
}
