/**
 * What a tick of the updater does to the poll state and which provider calls
 * it makes, and what a run of ticks does once a tick has failed after taking
 * the lock.
 */
module UpdaterProperties {
  import opened Wrappers
  import opened Cloudflare
  import opened Updater

  /** The condition under which a tick applies a new address: found, lock free, changed, listed, and every update accepted. */
  ghost predicate CycleSucceeds(s: CloudflareService, st: PollState, net: Network)
  {
    && net.lookup.IpFound?
    && !st.lockHeld
    && net.lookup.ip != st.previousIP
    && GetDnsRecords(s, net.query).err.None?
    && forall j :: 0 <= j < |GetDnsRecords(s, net.query).records| ==> UpdateError(net.respond(j)).None?
  }

  // ---------------------------------------------------------------------------
  // One tick
  // ---------------------------------------------------------------------------

  /** A failed address lookup ends the tick before the lock: nothing changes and no provider call is made. */
  lemma LookupFailureTouchesNothing(s: CloudflareService, st: PollState, net: Network)
    requires net.lookup.IpLookupFailed?
    ensures Step(s, st, net) == TickResult(st, LookupFailed(net.lookup.cause), [])
  {
  }

  /**
   * An address equal to the stored one, with the lock free, ends the tick with
   * no provider call and the lock released; this covers the first tick when
   * the lookup yields the empty address.
   */
  lemma SameAddressIssuesNoCalls(s: CloudflareService, st: PollState, net: Network)
    requires net.lookup.IpFound? && net.lookup.ip == st.previousIP && !st.lockHeld
    ensures Step(s, st, net) == TickResult(st, Unchanged, [])
  {
  }

  /** The initial state with an empty lookup result is a no-op tick. */
  lemma InitialEmptyAddressIsUnchanged(s: CloudflareService, net: Network)
    requires net.lookup == IpFound("")
    ensures Step(s, PollState("", false), net) == TickResult(PollState("", false), Unchanged, [])
  {
  }

  /**
   * `previousIP` changes exactly when the cycle succeeds, and then becomes the
   * looked-up address; it never takes any other value.
   */
  lemma AdvancesIffCycleSucceeds(s: CloudflareService, st: PollState, net: Network)
    ensures var t := Step(s, st, net);
      && (t.state.previousIP != st.previousIP <==> CycleSucceeds(s, st, net))
      && (CycleSucceeds(s, st, net) ==> t.state == PollState(net.lookup.ip, false) && t.outcome == Updated(net.lookup.ip))
      && (!CycleSucceeds(s, st, net) ==> t.state.previousIP == st.previousIP)
  {
  }

  /**
   * A listing or update failure leaves `previousIP` as it was and the lock
   * held; the listing request comes first among the calls, and there is no
   * call at all only when the listing request could not be built.
   */
  lemma FailureKeepsLock(s: CloudflareService, st: PollState, net: Network)
    ensures var t := Step(s, st, net);
      (t.outcome.QueryFailed? || t.outcome.UpdateFailed?) ==>
        && t.state == PollState(st.previousIP, true)
        && !st.lockHeld
        && (t.calls == [] <==> net.query.RequestNotBuilt?)
        && (t.calls != [] ==> t.calls[0] == ListRequest(s))
  {
  }

  /**
   * A successful changed-address tick releases the lock, stores the address,
   * and has sent the listing and then one PATCH per record, in order.
   */
  lemma SuccessReleasesLock(s: CloudflareService, st: PollState, net: Network)
    requires Step(s, st, net).outcome.Updated?
    ensures var t := Step(s, st, net);
      && net.lookup.IpFound?
      && t.state == PollState(net.lookup.ip, false)
      && t.calls == [ListRequest(s)] + UpdateRequests(s, GetDnsRecords(s, net.query).records, net.lookup.ip)
  {
  }

  /**
   * The listing's `success` field is not consulted: an unsuccessful envelope
   * with an empty result stores the new address without any PATCH.
   */
  lemma UnsuccessfulEmptyListingAdvances(s: CloudflareService, st: PollState, net: Network, response: GetDnsApiResponse)
    requires net.lookup.IpFound? && net.lookup.ip != st.previousIP && !st.lockHeld
    requires net.query == Decoded(response) && !response.success && response.result == []
    ensures Step(s, st, net) == TickResult(PollState(net.lookup.ip, false), Updated(net.lookup.ip), [ListRequest(s)])
  {
  }

  /**
   * Two ticks in a row that look up the same address: the second makes no
   * provider call, whether the first applied it, found it unchanged, or failed
   * and kept the lock.
   */
  lemma SecondLookupOfSameAddressIssuesNoCalls(s: CloudflareService, st: PollState, first: Network, second: Network)
    requires first.lookup.IpFound? && second.lookup == first.lookup
    ensures Step(s, Step(s, st, first).state, second).calls == []
  {
  }

  // ---------------------------------------------------------------------------
  // Runs of ticks
  // ---------------------------------------------------------------------------

  /**
   * Once the lock is held it stays held: every later tick fails its lookup or
   * blocks in `Lock`, `previousIP` never changes and no provider call is made.
   */
  lemma {:induction false} LeakedLockIsPermanent(s: CloudflareService, st: PollState, nets: seq<Network>)
    requires st.lockHeld
    ensures var r := Run(s, st, nets, false);
      && r.state == st
      && r.calls == []
      && |r.outcomes| == |nets|
      && forall k :: 0 <= k < |r.outcomes| ==> r.outcomes[k].LookupFailed? || r.outcomes[k] == Blocked
  {
    if nets != [] {
      LeakedLockIsPermanent(s, st, nets[..|nets| - 1]);
    }
  }

  /** With the releasing tick, a run from a free lock ends with the lock free and no tick ever blocks. */
  lemma {:induction false} ReleasingRunNeverBlocks(s: CloudflareService, st: PollState, nets: seq<Network>)
    requires !st.lockHeld
    ensures var r := Run(s, st, nets, true);
      && !r.state.lockHeld
      && |r.outcomes| == |nets|
      && forall k :: 0 <= k < |r.outcomes| ==> r.outcomes[k] != Blocked
  {
    if nets != [] {
      ReleasingRunNeverBlocks(s, st, nets[..|nets| - 1]);
    }
  }

  /**
   * The releasing tick makes the same calls, reports the same outcome and
   * stores the same address as the program's tick; only the lock differs.
   */
  lemma ReleasingStepAgrees(s: CloudflareService, st: PollState, net: Network)
    ensures var t := Step(s, st, net);
      var u := ReleasingStep(s, st, net);
      && u.outcome == t.outcome && u.calls == t.calls
      && u.state.previousIP == t.state.previousIP
      && (!st.lockHeld ==> !u.state.lockHeld)
  {
  }

  /**
   * With the releasing tick a failed cycle is retried: the next tick that
   * looks up the same address neither blocks nor skips, and lists the records
   * again whenever its listing request can be built.
   */
  lemma ReleasingRetriesAfterFailure(s: CloudflareService, st: PollState, first: Network, second: Network)
    requires !st.lockHeld
    requires ReleasingStep(s, st, first).outcome.QueryFailed? || ReleasingStep(s, st, first).outcome.UpdateFailed?
    requires second.lookup == first.lookup
    ensures var t := ReleasingStep(s, ReleasingStep(s, st, first).state, second);
      && (t.outcome.QueryFailed? || t.outcome.UpdateFailed? || t.outcome.Updated?)
      && (!second.query.RequestNotBuilt? ==> |t.calls| >= 1 && t.calls[0] == ListRequest(s))
  {
  }

  /**
   * The program's tick after a failed cycle: the next tick that looks up the
   * same address blocks without any call.
   */
  lemma NoRetryAfterFailure(s: CloudflareService, st: PollState, first: Network, second: Network)
    requires Step(s, st, first).outcome.QueryFailed? || Step(s, st, first).outcome.UpdateFailed?
    requires second.lookup == first.lookup
    ensures Step(s, Step(s, st, first).state, second) == TickResult(Step(s, st, first).state, Blocked, [])
  {
  }

  // ---------------------------------------------------------------------------
  // Scenarios
  // ---------------------------------------------------------------------------

  /**
   * A listing request that cannot be built is never sent: the tick fails with
   * the request-creation error, makes no call and keeps the lock.
   */
  lemma UnbuildableListingSendsNothing(s: CloudflareService, st: PollState, net: Network)
    requires net.lookup.IpFound? && net.lookup.ip != st.previousIP && !st.lockHeld
    requires net.query.RequestNotBuilt?
    ensures Step(s, st, net) == TickResult(PollState(st.previousIP, true), QueryFailed("error creating request: " + net.query.cause), [])
  {
  }

  /** A decoded listing with the given records, and every PATCH accepted. */
  function Accepting(ip: string, records: seq<DnsRecord>): Network
  {
    Network(IpFound(ip), Decoded(GetDnsApiResponse([], [], records, true)),
            j => Exchanged(Decoded(UpdateDnsRecordResponse(true, [], UpdateDnsRecordBody(ip)))))
  }

  /**
   * From the initial state: "1.2.3.4" is applied, the same address again makes
   * no call, and "5.6.7.8" is applied with a new listing and update.
   */
  lemma ChangeRepeatChange(s: CloudflareService, r: DnsRecord)
    ensures var r0 := Run(s, PollState("", false), [Accepting("1.2.3.4", [r]), Accepting("1.2.3.4", [r]), Accepting("5.6.7.8", [r])], false);
      && r0.outcomes == [Updated("1.2.3.4"), Unchanged, Updated("5.6.7.8")]
      && r0.state == PollState("5.6.7.8", false)
      && r0.calls == [ListRequest(s), UpdateRequest(s, r, "1.2.3.4"), ListRequest(s), UpdateRequest(s, r, "5.6.7.8")]
  {
    var a, b := Accepting("1.2.3.4", [r]), Accepting("5.6.7.8", [r]);
    var nets := [a, a, b];
    OneRecordAccepted(s, r, "1.2.3.4");
    OneRecordAccepted(s, r, "5.6.7.8");
    var st0 := PollState("", false);
    var t1 := Step(s, st0, a);
    assert t1 == TickResult(PollState("1.2.3.4", false), Updated("1.2.3.4"), [ListRequest(s), UpdateRequest(s, r, "1.2.3.4")]);
    var t2 := Step(s, t1.state, a);
    assert t2 == TickResult(t1.state, Unchanged, []);
    var t3 := Step(s, t2.state, b);
    assert t3 == TickResult(PollState("5.6.7.8", false), Updated("5.6.7.8"), [ListRequest(s), UpdateRequest(s, r, "5.6.7.8")]);
    assert nets[..1][..0] == [];
    assert Run(s, st0, nets[..1], false) == RunResult(t1.state, [t1.outcome], t1.calls);
    assert nets[..2][..1] == nets[..1];
    assert Run(s, st0, nets[..2], false) == RunResult(t2.state, [t1.outcome, t2.outcome], t1.calls + t2.calls);
    assert nets[..3 - 1] == nets[..2];
  }

  /** One record whose update is accepted: a single PATCH and no error. */
  lemma OneRecordAccepted(s: CloudflareService, r: DnsRecord, ip: string)
    ensures UpdateAll(s, [r], ip, Accepting(ip, [r]).respond) == UpdateRun(None, [UpdateRequest(s, r, ip)])
  {
  }

  /**
   * Two records whose first update cannot marshal its payload: the loop stops
   * there with the marshalling error, and no PATCH reaches the provider. The
   * program never reaches this case (a one-string-field body always marshals);
   * the lemma states what the code's error branch would do.
   */
  lemma UnmarshallablePatchIsNotSent(s: CloudflareService, first: DnsRecord, second: DnsRecord, ip: string, cause: string)
    ensures UpdateAll(s, [first, second], ip, j => MarshalFailed(cause)) ==
              UpdateRun(Some("failed to marshal JSON payload: " + cause), [])
  {
    assert [first, second][..0] == [];
  }

  /**
   * Two records, the second update answered with `success == false`: the
   * tick fails, `previousIP` stays and the lock stays held, yet the first
   * record's PATCH was sent.
   */
  lemma PartialApplication(s: CloudflareService, st: PollState, first: DnsRecord, second: DnsRecord, ip: string, errors: seq<string>)
    requires ip != st.previousIP && !st.lockHeld
    ensures var net := Network(IpFound(ip), Decoded(GetDnsApiResponse([], [], [first, second], true)),
                               j => if j == 0 then Exchanged(Decoded(UpdateDnsRecordResponse(true, [], UpdateDnsRecordBody(ip))))
                                    else Exchanged(Decoded(UpdateDnsRecordResponse(false, errors, UpdateDnsRecordBody("")))));
      var t := Step(s, st, net);
      && t.outcome == UpdateFailed("API request failed: " + GoText.FormatSlice(errors))
      && t.state == PollState(st.previousIP, true)
      && t.calls == [ListRequest(s), UpdateRequest(s, first, ip), UpdateRequest(s, second, ip)]
  {
    assert [first, second][..2] == [first, second];
  }

  /**
   * The lock leak: a listing failure on the first tick leaves the lock held,
   * so the next tick for the same address blocks; with the releasing tick it
   * lists and updates the record instead.
   */
  lemma LockLeakStallsRetry(s: CloudflareService, r: DnsRecord)
    ensures var failing := Network(IpFound("1.2.3.4"), TransportFailed("timeout"), Accepting("1.2.3.4", [r]).respond);
      var nets := [failing, Accepting("1.2.3.4", [r])];
      var asWritten := Run(s, PollState("", false), nets, false);
      var releasing := Run(s, PollState("", false), nets, true);
      && asWritten.outcomes == [QueryFailed("error making request: timeout"), Blocked]
      && asWritten.state == PollState("", true)
      && asWritten.calls == [ListRequest(s)]
      && releasing.outcomes == [QueryFailed("error making request: timeout"), Updated("1.2.3.4")]
      && releasing.state == PollState("1.2.3.4", false)
      && releasing.calls == [ListRequest(s), ListRequest(s), UpdateRequest(s, r, "1.2.3.4")]
  {
    var ok := Accepting("1.2.3.4", [r]);
    var failing := Network(IpFound("1.2.3.4"), TransportFailed("timeout"), ok.respond);
    var nets := [failing, ok];
    OneRecordAccepted(s, r, "1.2.3.4");
    var st0 := PollState("", false);
    assert "error making request: " + "timeout" == "error making request: timeout";
    var t1 := Step(s, st0, failing);
    assert t1 == TickResult(PollState("", true), QueryFailed("error making request: timeout"), [ListRequest(s)]);
    var u1 := ReleasingStep(s, st0, failing);
    assert u1 == TickResult(PollState("", false), QueryFailed("error making request: timeout"), [ListRequest(s)]);
    assert Step(s, t1.state, ok) == TickResult(t1.state, Blocked, []);
    assert ReleasingStep(s, u1.state, ok) ==
      TickResult(PollState("1.2.3.4", false), Updated("1.2.3.4"), [ListRequest(s), UpdateRequest(s, r, "1.2.3.4")]);
    assert nets[..1][..0] == [];
    assert Run(s, st0, nets[..1], false) == RunResult(t1.state, [t1.outcome], t1.calls);
    assert Run(s, st0, nets[..1], true) == RunResult(u1.state, [u1.outcome], u1.calls);
    assert nets[..2 - 1] == nets[..1];
  }
}
