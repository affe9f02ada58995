/**
 What the egress guard decides on: the observations of a protected service, and the kernel filter that
 enforces the leases by itself. All times are on one common clock, in nanoseconds.
 */
module EgressEvidence {
  import opened Prelude

  type Time = int
  type Name = nat
  type Url = nat
  type Addr = nat

  // ----- Services -----

  datatype Binding = Binding(ifindex: nat, hostIfindex: nat, source: Addr)

  datatype Place = Place(parent: nat, cgroup: nat)

  /** What `egress_service_identity` digests; the digest is injective. */
  datatype Identity = Identity(container: nat, bindings: seq<Binding>, cgroup: Option<nat>, pid: Option<nat>,
                               started: Option<nat>)

  /** The key of a kernel lease, together with the protected parent group whose table holds it. */
  datatype Key = Key(parent: nat, cgroup: nat, ifindex: nat, source: Addr)

  datatype Service = Service(container: nat, bindings: seq<Binding>, place: Option<Place>, pid: Option<nat>,
                             started: Option<nat>, valid: bool, reason: nat, dependencies: seq<nat>)
  {
    function Id(): Identity {
      Identity(container, bindings, if place.Some? then Some(place.value.cgroup) else None, pid, started)
    }

    /** `egress_lease_view`. */
    function LeaseView(): Service {
      this.(dependencies := [])
    }

    function Keys(): seq<Key> {
      if place.None? then []
      else seq(|bindings|, i requires 0 <= i < |bindings| =>
                 Key(place.value.parent, place.value.cgroup, bindings[i].ifindex, bindings[i].source))
    }
  }

  // ----- Observations -----

  datatype Status = Passed | Failed | OtherStatus
  datatype Response = NoResponse | Sha256 | Malformed

  /** `launchedFor` records which identity the probe was launched for; no code reads it. */
  datatype Observation = Observation(url: Url, status: Status, ip: Option<Addr>, at: Time, response: Response,
                                     launchedFor: Identity)

  datatype Policy = Policy(services: seq<Name>, urls: seq<Url>, allowed: set<Addr>, quorum: nat,
                           maxAge: Time, refresh: Time, lease: Time)

  predicate Fresh(policy: Policy, o: Observation, now: Time) {
    0 <= now - o.at <= policy.maxAge
  }

  predicate Admissible(policy: Policy, o: Observation, now: Time) {
    && o.url in policy.urls
    && Fresh(policy, o, now)
    && match o.status
       case Failed => o.ip.None? && o.response.NoResponse?
       case Passed => o.ip.Some? && o.ip.value in policy.allowed && o.response.Sha256?
       case OtherStatus => false
  }

  predicate DistinctUrls(observations: seq<Observation>) {
    forall i, j :: 0 <= i < j < |observations| ==> observations[i].url != observations[j].url
  }

  function Successes(observations: seq<Observation>): nat {
    if observations == [] then 0
    else
      var n := |observations| - 1;
      Successes(observations[..n]) + if observations[n].status.Passed? then 1 else 0
  }

  /** One admissible observation per source, and a quorum of successes. */
  predicate Meets(policy: Policy, observations: seq<Observation>, now: Time) {
    && |observations| == |policy.urls|
    && (forall o <- observations :: Admissible(policy, o, now))
    && DistinctUrls(observations)
    && Successes(observations) >= policy.quorum
  }

  /** `egress_observations_compliant`. */
  method ObservationsCompliant(policy: Policy, observations: seq<Observation>, now: Time) returns (ok: bool)
    ensures ok == Meets(policy, observations, now)
  {
    if |observations| != |policy.urls| { return false; }
    var seen: set<Url> := {};
    var successes := 0;
    for i := 0 to |observations|
      invariant seen == set j | 0 <= j < i :: observations[j].url
      invariant DistinctUrls(observations[..i]) && successes == Successes(observations[..i])
      invariant forall j :: 0 <= j < i ==> Admissible(policy, observations[j], now)
    {
      var item := observations[i];
      assert item in observations;
      assert observations[..i + 1][..i] == observations[..i];
      if item.url !in policy.urls || item.url in seen || !(0 <= now - item.at <= policy.maxAge) { return false; }
      seen := seen + {item.url};
      if item.status.Failed? {
        if item.ip.Some? || !item.response.NoResponse? { return false; }
      } else {
        if !item.status.Passed? || item.ip.None? || item.ip.value !in policy.allowed || !item.response.Sha256? {
          return false;
        }
        successes := successes + 1;
      }
    }
    assert observations[..|observations|] == observations;
    ok := successes >= policy.quorum;
  }

  function PassedUrls(observations: seq<Observation>): set<Url> {
    set o | o in observations && o.status.Passed? :: o.url
  }

  /** A quorum of successes is a quorum of different sources. */
  lemma {:induction false} SuccessesAreSources(observations: seq<Observation>)
    requires DistinctUrls(observations)
    ensures |PassedUrls(observations)| == Successes(observations)
  {
    if observations != [] {
      var n := |observations| - 1;
      var rest, last := observations[..n], observations[n];
      SuccessesAreSources(rest);
      assert observations == rest + [last];
      if last.status.Passed? {
        assert PassedUrls(observations) == PassedUrls(rest) + {last.url};
        assert last.url !in PassedUrls(rest);
      } else {
        assert PassedUrls(observations) == PassedUrls(rest);
      }
    }
  }

  /** What it takes to be found compliant, said of the observations as a set: every one comes from a source of the
      policy and is fresh at `now`, is a success from a permitted address or a clean failure, no two come from the same
      source, there are as many as sources, and the successes come from a quorum of different ones. */
  predicate Convinces(policy: Policy, observations: seq<Observation>, now: Time) {
    && |observations| == |policy.urls|
    && (forall o <- observations ::
          && o.url in policy.urls && 0 <= now - o.at <= policy.maxAge
          && (o.status == Passed || o.status == Failed)
          && (o.status == Passed ==> o.ip.Some? && o.ip.value in policy.allowed && o.response == Sha256)
          && (o.status == Failed ==> o.ip == None && o.response == NoResponse))
    && (forall i, j :: 0 <= i < j < |observations| ==> observations[i].url != observations[j].url)
    && |PassedUrls(observations)| >= policy.quorum
  }

  lemma MeetsExactly(policy: Policy, observations: seq<Observation>, now: Time)
    ensures Meets(policy, observations, now) <==> Convinces(policy, observations, now)
  {
    if DistinctUrls(observations) { SuccessesAreSources(observations); }
  }

  function Sources(policy: Policy): set<Url> {
    set url | url in policy.urls
  }

  function UrlsOf(observations: seq<Observation>): set<Url> {
    set o | o in observations :: o.url
  }

  lemma {:induction false} UrlsCount(observations: seq<Observation>)
    requires DistinctUrls(observations)
    ensures |UrlsOf(observations)| == |observations|
  {
    if observations != [] {
      var n := |observations| - 1;
      UrlsCount(observations[..n]);
      assert observations == observations[..n] + [observations[n]];
      assert UrlsOf(observations) == UrlsOf(observations[..n]) + {observations[n].url};
    }
  }

  /** If the policy names no source twice, convincing observations leave none out. */
  lemma EverySourceHeard(policy: Policy, observations: seq<Observation>, now: Time)
    requires Convinces(policy, observations, now) && |Sources(policy)| == |policy.urls|
    ensures UrlsOf(observations) == Sources(policy)
  {
    UrlsCount(observations);
    SameSize(UrlsOf(observations), Sources(policy));
  }

  lemma SameSize(part: set<Url>, all: set<Url>)
    requires part <= all && |part| == |all|
    ensures part == all
  {
    assert all == part + (all - part);
    assert |all - part| == 0;
  }

  // ----- Choosing an observation per source -----

  function Choose(policy: Policy, item: Observation, passes: map<Url, Observation>, horizon: Time): Observation {
    if item.url in passes && Fresh(policy, passes[item.url], horizon) then passes[item.url] else item
  }

  function Effective(policy: Policy, latest: seq<Observation>, passes: map<Url, Observation>,
                     horizon: Time): seq<Observation> {
    seq(|latest|, i requires 0 <= i < |latest| => Choose(policy, latest[i], passes, horizon))
  }

  /** `egress_effective_observations`. */
  method EffectiveObservations(policy: Policy, latest: seq<Observation>, passes: map<Url, Observation>, horizon: Time)
    returns (chosen: seq<Observation>)
    ensures chosen == Effective(policy, latest, passes, horizon)
  {
    chosen := [];
    for i := 0 to |latest|
      invariant chosen == Effective(policy, latest, passes, horizon)[..i]
    {
      var item := latest[i];
      if item.url in passes && 0 <= horizon - passes[item.url].at <= policy.maxAge {
        chosen := chosen + [passes[item.url]];
      } else {
        chosen := chosen + [item];
      }
    }
  }

  /** The successes of one batch of results, as the dictionary the guard merges. */
  function PassedOf(results: seq<Observation>): map<Url, Observation> {
    if results == [] then map[]
    else
      var last := results[|results| - 1];
      var rest := PassedOf(results[..|results| - 1]);
      if last.status.Passed? then rest[last.url := last] else rest
  }

  /** The last success for `url` among everything received, if any. */
  function LastPassed(received: seq<Observation>, url: Url): Option<Observation> {
    if received == [] then None
    else
      var last := received[|received| - 1];
      if last.status.Passed? && last.url == url then Some(last) else LastPassed(received[..|received| - 1], url)
  }

  lemma {:induction false} PassedIsLast(results: seq<Observation>, url: Url)
    ensures LastPassed(results, url) == if url in PassedOf(results) then Some(PassedOf(results)[url]) else None
  {
    if results != [] { PassedIsLast(results[..|results| - 1], url); }
  }

  lemma {:induction false} LastOfBoth(earlier: seq<Observation>, later: seq<Observation>, url: Url)
    ensures LastPassed(earlier + later, url) ==
              if LastPassed(later, url).Some? then LastPassed(later, url) else LastPassed(earlier, url)
  {
    if later == [] {
      assert earlier + later == earlier;
    } else {
      var n := |later| - 1;
      assert (earlier + later)[..|earlier + later| - 1] == earlier + later[..n];
      LastOfBoth(earlier, later[..n], url);
    }
  }

  // ----- The kernel filter -----

  datatype Mark = Mark(service: Name, probing: bool)

  datatype Lease = Lease(expires: Time, mark: Mark, probeOnly: bool)

  /** `Unreadable` stands for a packet whose header fields cannot be loaded. */
  datatype Packet =
    | Unreadable
    | OtherVersion
    | V6(source: nat, destination: nat)
    | V4(key: Key, destination: Addr)

  datatype Verdict = Drop | Accept(mark: Option<Mark>)

  predicate Loopback4(a: Addr) {
    a / 0x100_0000 == 127
  }

  predicate Local(packet: Packet) {
    match packet
    case V6(s, d) => s == 1 && d == 1
    case V4(key, d) => Loopback4(key.source) && Loopback4(d)
    case _ => false
  }

  /** `egress_gate`. */
  function Gate(packet: Packet, leases: map<Key, Lease>, probes: set<Addr>, now: Time): Verdict {
    match packet
    case Unreadable => Drop
    case OtherVersion => Drop
    case V6(s, d) => if s == 1 && d == 1 then Accept(None) else Drop
    case V4(key, d) =>
      if Loopback4(key.source) && Loopback4(d) then Accept(None)
      else if key !in leases || now >= leases[key].expires then Drop
      else if leases[key].probeOnly && d !in probes then Drop
      else Accept(Some(leases[key].mark))
  }
}
