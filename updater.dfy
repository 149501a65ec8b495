/**
 * The updater program: the startup check of the required flags, and one tick
 * of the polling loop, which looks up the public address and, when it differs
 * from the last address applied, lists the managed records and patches them.
 *
 * The program's package-level state (the flag values, `previousIP` and the
 * mutex `ipLock`) is the class `Updater`; the mutex is the field `lockHeld`.
 * Ticks are modelled one at a time.
 */
module Updater {
  import opened Wrappers
  import opened Cloudflare
  import GoText

  // ---------------------------------------------------------------------------
  // Required flags
  // ---------------------------------------------------------------------------

  const ZONE_IDENTIFIER_FLAG := "-zone_identifier"
  const FILTER_FLAG := "-filter"
  const AUTH_KEY_FLAG := "-auth_key"
  const MISSING_FLAGS_PREFIX := "missing or empty required flags: "

  /** The names, in table order, of the flags whose value is empty. */
  function EmptyFlags(flags: seq<(string, string)>): seq<string>
  {
    if flags == [] then []
    else (if flags[0].1 == "" then [flags[0].0] else []) + EmptyFlags(flags[1..])
  }

  /** The missing required flags, for the given values of the three flags. */
  function MissingFlags(zoneIdentifier: string, filter: string, authKey: string): seq<string>
  {
    EmptyFlags([(ZONE_IDENTIFIER_FLAG, zoneIdentifier), (FILTER_FLAG, filter), (AUTH_KEY_FLAG, authKey)])
  }

  /** `xs` is `ys` with some elements left out, the rest kept in order. */
  predicate IsSubsequence(xs: seq<string>, ys: seq<string>)
    decreases |ys|
  {
    if xs == [] then true
    else if ys == [] then false
    else if xs[0] == ys[0] then IsSubsequence(xs[1..], ys[1..])
    else IsSubsequence(xs, ys[1..])
  }

  /** The error text of `checkRequiredFlags` for a list of missing flags. */
  function MissingFlagsMessage(missing: seq<string>): string
  {
    MISSING_FLAGS_PREFIX + GoText.Join(missing, ", ")
  }

  /** The missing flags are the three optional names concatenated in table order. */
  lemma MissingFlagsUnfolded(zoneIdentifier: string, filter: string, authKey: string)
    ensures MissingFlags(zoneIdentifier, filter, authKey) ==
      (if zoneIdentifier == "" then [ZONE_IDENTIFIER_FLAG] else []) +
      (if filter == "" then [FILTER_FLAG] else []) +
      (if authKey == "" then [AUTH_KEY_FLAG] else [])
  {
    var t := [(ZONE_IDENTIFIER_FLAG, zoneIdentifier), (FILTER_FLAG, filter), (AUTH_KEY_FLAG, authKey)];
    assert t[1..] == [(FILTER_FLAG, filter), (AUTH_KEY_FLAG, authKey)];
    assert t[1..][1..] == [(AUTH_KEY_FLAG, authKey)];
    assert t[1..][1..][1..] == [];
    var z := if zoneIdentifier == "" then [ZONE_IDENTIFIER_FLAG] else [];
    var f := if filter == "" then [FILTER_FLAG] else [];
    var a := if authKey == "" then [AUTH_KEY_FLAG] else [];
    assert EmptyFlags(t[1..][1..]) == a + EmptyFlags(t[1..][1..][1..]) == a;
    assert EmptyFlags(t[1..]) == f + a;
    assert EmptyFlags(t) == z + (f + a);
    assert z + (f + a) == z + f + a;
  }

  /**
   * A flag is listed exactly when its value is empty; the list is empty exactly
   * when all three are set; the names keep the fixed order and none repeats.
   */
  lemma MissingFlagsExact(zoneIdentifier: string, filter: string, authKey: string)
    ensures var m := MissingFlags(zoneIdentifier, filter, authKey);
      && (ZONE_IDENTIFIER_FLAG in m <==> zoneIdentifier == "")
      && (FILTER_FLAG in m <==> filter == "")
      && (AUTH_KEY_FLAG in m <==> authKey == "")
      && (m == [] <==> zoneIdentifier != "" && filter != "" && authKey != "")
      && (forall i, j :: 0 <= i < j < |m| ==> m[i] != m[j])
      && IsSubsequence(m, [ZONE_IDENTIFIER_FLAG, FILTER_FLAG, AUTH_KEY_FLAG])
  {
    MissingFlagsUnfolded(zoneIdentifier, filter, authKey);
    var z := if zoneIdentifier == "" then [ZONE_IDENTIFIER_FLAG] else [];
    var f := if filter == "" then [FILTER_FLAG] else [];
    var a := if authKey == "" then [AUTH_KEY_FLAG] else [];
    var m := z + f + a;
    assert m == z + (f + a);
    assert ZONE_IDENTIFIER_FLAG != FILTER_FLAG && ZONE_IDENTIFIER_FLAG != AUTH_KEY_FLAG && FILTER_FLAG != AUTH_KEY_FLAG;
    var names := [ZONE_IDENTIFIER_FLAG, FILTER_FLAG, AUTH_KEY_FLAG];
    assert names[1..] == [FILTER_FLAG, AUTH_KEY_FLAG] && names[1..][1..] == [AUTH_KEY_FLAG];
    assert IsSubsequence(a, names[1..][1..]);
    assert IsSubsequence(a, names[1..]) by {
      if a != [] {
        assert a[0] != names[1..][0];
      }
    }
    assert IsSubsequence(f + a, names[1..]) by {
      if f == [] {
        assert f + a == a;
      } else {
        assert (f + a)[0] == names[1..][0];
        assert (f + a)[1..] == a;
      }
    }
    assert IsSubsequence(f + a, names) by {
      if f + a != [] {
        assert (f + a)[0] != names[0];
      }
    }
    assert IsSubsequence(m, names) by {
      if z == [] {
        assert m == f + a;
      } else {
        assert m[0] == names[0];
        assert m[1..] == f + a;
      }
    }
  }

  // ---------------------------------------------------------------------------
  // One tick
  // ---------------------------------------------------------------------------

  /** The state a tick reads and writes: the last address applied and whether `ipLock` is held. */
  datatype PollState = PollState(previousIP: string, lockHeld: bool)

  /** The outcome of the public-address lookup. */
  datatype IpLookup = IpFound(ip: string) | IpLookupFailed(cause: string)

  /**
   * The outcomes of every network call a tick can make: the address lookup,
   * the record listing, and `respond(j)`, the outcome of the j-th record's update.
   */
  datatype Network = Network(lookup: IpLookup, query: Exchange<GetDnsApiResponse>, respond: nat -> PatchOutcome)

  /**
   * How a tick ended. `Blocked`: the address was found but `ipLock` is held and
   * never released, so the tick waits in `Lock` for ever.
   */
  datatype TickOutcome =
    | LookupFailed(cause: string)
    | Blocked
    | Unchanged
    | QueryFailed(err: string)
    | UpdateFailed(err: string)
    | Updated(ip: string)

  /** The state after a tick, how it ended and the provider requests it handed to the HTTP client, in order. */
  datatype TickResult = TickResult(state: PollState, outcome: TickOutcome, calls: seq<HttpRequest>)

  /**
   * One tick as the program runs it. Both failure paths after the lock is taken
   * return without releasing it.
   */
  function Step(s: CloudflareService, st: PollState, net: Network): TickResult
  {
    match net.lookup
    case IpLookupFailed(cause) => TickResult(st, LookupFailed(cause), [])
    case IpFound(ip) =>
      if st.lockHeld then TickResult(st, Blocked, [])
      else if ip == st.previousIP then TickResult(st, Unchanged, [])
      else Cycle(s, st.previousIP, ip, net)
  }

  /** The part of a tick that runs with the lock held once the address `ip` differs from `previousIP`. */
  function Cycle(s: CloudflareService, previousIP: string, ip: string, net: Network): TickResult
  {
    var listing := GetDnsRecords(s, net.query);
    if listing.err.Some? then
      TickResult(PollState(previousIP, true), QueryFailed(listing.err.value), listing.sent)
    else
      var run := UpdateAll(s, listing.records, ip, net.respond);
      if run.err.Some? then
        TickResult(PollState(previousIP, true), UpdateFailed(run.err.value), listing.sent + run.sent)
      else
        TickResult(PollState(ip, false), Updated(ip), listing.sent + run.sent)
  }

  /** One tick with the lock released on every path once it is taken (as a deferred `Unlock` would). */
  function ReleasingStep(s: CloudflareService, st: PollState, net: Network): TickResult
  {
    var t := Step(s, st, net);
    if t.outcome.QueryFailed? || t.outcome.UpdateFailed? then t.(state := t.state.(lockHeld := false)) else t
  }

  /** A tick of either kind. */
  function StepWith(releasing: bool, s: CloudflareService, st: PollState, net: Network): TickResult
  {
    if releasing then ReleasingStep(s, st, net) else Step(s, st, net)
  }

  /** The result of a run of ticks, one after the other. */
  datatype RunResult = RunResult(state: PollState, outcomes: seq<TickOutcome>, calls: seq<HttpRequest>)

  /** Ticks run in order from `st`, one per element of `nets`. */
  function Run(s: CloudflareService, st: PollState, nets: seq<Network>, releasing: bool): RunResult
    decreases |nets|
  {
    if nets == [] then RunResult(st, [], [])
    else
      var before := Run(s, st, nets[..|nets| - 1], releasing);
      var t := StepWith(releasing, s, before.state, nets[|nets| - 1]);
      RunResult(t.state, before.outcomes + [t.outcome], before.calls + t.calls)
  }

  // ---------------------------------------------------------------------------
  // The program state
  // ---------------------------------------------------------------------------

  class Updater {
    var zoneIdentifier: string
    var filter: string
    var authKey: string
    var previousIP: string
    var lockHeld: bool

    function State(): PollState
      reads this
    {
      PollState(previousIP, lockHeld)
    }

    /** The state after the flags were parsed into the given values: no address yet, lock free. */
    constructor (zoneIdentifier: string, filter: string, authKey: string)
      ensures this.zoneIdentifier == zoneIdentifier
      ensures this.filter == filter
      ensures this.authKey == authKey
      ensures State() == PollState("", false)
    {
      this.zoneIdentifier := zoneIdentifier;
      this.filter := filter;
      this.authKey := authKey;
      previousIP := "";
      lockHeld := false;
    }

    /**
     * `checkRequiredFlags`: nil exactly when the three flags are set; otherwise
     * the missing ones, in order, in the error text.
     */
    method CheckRequiredFlags() returns (err: Option<string>)
      ensures err.None? <==> zoneIdentifier != "" && filter != "" && authKey != ""
      ensures err.Some? ==> err.value == MissingFlagsMessage(MissingFlags(zoneIdentifier, filter, authKey))
    {
      var missingFlags: seq<string> := [];
      if zoneIdentifier == "" {
        missingFlags := missingFlags + [ZONE_IDENTIFIER_FLAG];
      }
      if filter == "" {
        missingFlags := missingFlags + [FILTER_FLAG];
      }
      if authKey == "" {
        missingFlags := missingFlags + [AUTH_KEY_FLAG];
      }
      MissingFlagsUnfolded(zoneIdentifier, filter, authKey);
      MissingFlagsExact(zoneIdentifier, filter, authKey);
      assert missingFlags == MissingFlags(zoneIdentifier, filter, authKey);
      if |missingFlags| > 0 {
        return Some(MissingFlagsMessage(missingFlags));
      }
      return None;
    }

    /**
     * The start of `main`: with a flag missing it stops with the error and no
     * service; otherwise it creates the service from the three flag values.
     */
    method Startup() returns (service: Option<CloudflareService>, err: Option<string>)
      ensures service.Some? <==> err.None?
      ensures err.None? <==> zoneIdentifier != "" && filter != "" && authKey != ""
      ensures err.Some? ==> err.value == MissingFlagsMessage(MissingFlags(zoneIdentifier, filter, authKey))
      ensures service.Some? ==> service.value == CloudflareService(zoneIdentifier, authKey, filter)
    {
      err := CheckRequiredFlags();
      if err.Some? {
        return None, err;
      }
      service := Some(NewCloudflareService(zoneIdentifier, authKey, filter));
    }

    /**
     * The body of the goroutine started on each tick, as written: look up the
     * address, take the lock, and when the address changed list and update the
     * records; `previousIP` and the lock change as `Step` says.
     */
    method Tick(s: CloudflareService, net: Network) returns (outcome: TickOutcome, calls: seq<HttpRequest>)
      modifies this`previousIP, this`lockHeld
      ensures TickResult(State(), outcome, calls) == Step(s, old(State()), net)
    {
      calls := [];
      if net.lookup.IpLookupFailed? {
        return LookupFailed(net.lookup.cause), calls;
      }
      var currentIP := net.lookup.ip;

      if lockHeld {
        // Lock() never returns: nobody releases the mutex.
        return Blocked, calls;
      }
      lockHeld := true;
      if currentIP != previousIP {
        ghost var cycle := Cycle(s, previousIP, currentIP, net);
        assert Step(s, old(State()), net) == cycle;
        var listing := GetDnsRecords(s, net.query);
        calls := listing.sent;
        if listing.err.Some? {
          return QueryFailed(listing.err.value), calls;
        }

        var err, sent := UpdateDnsRecord(s, listing.records, currentIP, net.respond);
        calls := calls + sent;
        if err.Some? {
          return UpdateFailed(err.value), calls;
        }
        previousIP := currentIP;
        outcome := Updated(currentIP);
      } else {
        outcome := Unchanged;
      }
      lockHeld := false;
    }

    /** The tick with the lock released on every path once taken; `previousIP` and the lock change as `ReleasingStep` says. */
    method TickReleasing(s: CloudflareService, net: Network) returns (outcome: TickOutcome, calls: seq<HttpRequest>)
      modifies this`previousIP, this`lockHeld
      ensures TickResult(State(), outcome, calls) == ReleasingStep(s, old(State()), net)
    {
      outcome, calls := Tick(s, net);
      if outcome.QueryFailed? || outcome.UpdateFailed? {
        lockHeld := false;
      }
    }

    /** The polling loop run for as many ticks as `nets` has elements, each tick finishing before the next. */
    method Poll(s: CloudflareService, nets: seq<Network>) returns (outcomes: seq<TickOutcome>, calls: seq<HttpRequest>)
      modifies this`previousIP, this`lockHeld
      ensures RunResult(State(), outcomes, calls) == Run(s, old(State()), nets, false)
    {
      outcomes, calls := [], [];
      var i := 0;
      while i < |nets|
        invariant 0 <= i <= |nets|
        invariant RunResult(State(), outcomes, calls) == Run(s, old(State()), nets[..i], false)
      {
        assert nets[..i + 1][..i] == nets[..i];
        var outcome, tickCalls := Tick(s, nets[i]);
        outcomes, calls := outcomes + [outcome], calls + tickCalls;
        i := i + 1;
      }
      assert nets[..i] == nets;
    }

    /**
     * `main` once the flags are parsed: the flag check, then the polling loop
     * over the service built from those same flags. With a flag missing no
     * tick runs: the state stays as it was and no request is made.
     */
    method RunProgram(nets: seq<Network>) returns (err: Option<string>, outcomes: seq<TickOutcome>, calls: seq<HttpRequest>)
      modifies this`previousIP, this`lockHeld
      ensures err.None? <==> zoneIdentifier != "" && filter != "" && authKey != ""
      ensures err.Some? ==> err.value == MissingFlagsMessage(MissingFlags(zoneIdentifier, filter, authKey))
      ensures err.Some? ==> outcomes == [] && calls == [] && State() == old(State())
      ensures err.None? ==>
                RunResult(State(), outcomes, calls) ==
                Run(NewCloudflareService(zoneIdentifier, authKey, filter), old(State()), nets, false)
    {
      var service;
      service, err := Startup();
      if service.None? {
        return err, [], [];
      }
      outcomes, calls := Poll(service.value, nets);
    }
  }
}
