/** The throttling fixture: `applyThrottling` resolves its four settings (each falls back
    to its default only when it is not supplied), opens a DevTools session on the page and
    sends three commands in order — the CPU rate, `Network.enable`, then the network
    conditions — stopping at the first call that throws. The `page` fixture logs the
    project's name and throttles only the project named exactly `chrome-for-flake`
    before it hands the same page to the test.

    The DevTools transport is modelled by the `Page` class: a log of what reached the
    browser, whether a session can be opened on it, and which sends it rejects. */
module BaseFixtures {
  import opened Optional

  // ---------------------------------------------------------------------------
  // Settings and their defaults
  // ---------------------------------------------------------------------------

  /** The optional argument `opts`; a field that is `undefined` (or `null`) is None.
      JavaScript numbers are modelled as reals (NaN and the infinities are not). */
  datatype ThrottleOptions = ThrottleOptions(
    cpuRate: Option<real>, latencyMs: Option<real>, downloadBps: Option<real>, uploadBps: Option<real>)

  datatype Profile = Profile(cpuRate: real, latencyMs: real, downloadBps: real, uploadBps: real)

  const DefaultCpuRate: real := 2.0
  const DefaultLatencyMs: real := 100.0
  /** `Math.floor((3 * 1024 * 1024) / 8)`, about 3 Mbit/s in bytes per second. */
  const DefaultDownloadBps: real := ((3 * 1024 * 1024) as real / 8.0).Floor as real
  /** `Math.floor((1.5 * 1024 * 1024) / 8)`, about 1.5 Mbit/s in bytes per second. */
  const DefaultUploadBps: real := (1.5 * 1024.0 * 1024.0 / 8.0).Floor as real

  /** `value ?? fallback`. */
  function OrElse(value: Option<real>, fallback: real): real {
    if value.Some? then value.value else fallback
  }

  /** `opts?.field ?? default` for each of the four settings. */
  function Resolve(opts: Option<ThrottleOptions>): (p: Profile)
    ensures opts.None? ==> p == Profile(2.0, 100.0, 393216.0, 196608.0)
    ensures opts.Some? ==>
      && (opts.value.cpuRate.Some? ==> p.cpuRate == opts.value.cpuRate.value)
      && (opts.value.cpuRate.None? ==> p.cpuRate == 2.0)
      && (opts.value.latencyMs.Some? ==> p.latencyMs == opts.value.latencyMs.value)
      && (opts.value.latencyMs.None? ==> p.latencyMs == 100.0)
      && (opts.value.downloadBps.Some? ==> p.downloadBps == opts.value.downloadBps.value)
      && (opts.value.downloadBps.None? ==> p.downloadBps == 393216.0)
      && (opts.value.uploadBps.Some? ==> p.uploadBps == opts.value.uploadBps.value)
      && (opts.value.uploadBps.None? ==> p.uploadBps == 196608.0)
  {
    match opts
    case None => Profile(DefaultCpuRate, DefaultLatencyMs, DefaultDownloadBps, DefaultUploadBps)
    case Some(o) =>
      Profile(OrElse(o.cpuRate, DefaultCpuRate), OrElse(o.latencyMs, DefaultLatencyMs),
        OrElse(o.downloadBps, DefaultDownloadBps), OrElse(o.uploadBps, DefaultUploadBps))
  }

  /** Every setting given explicitly, as a caller would pass a resolved profile back. */
  function Explicit(p: Profile): ThrottleOptions {
    ThrottleOptions(Some(p.cpuRate), Some(p.latencyMs), Some(p.downloadBps), Some(p.uploadBps))
  }

  /** Supplied values are taken as they are, zero included: resolving a fully specified
      argument gives it back. The second clause, that resolution is idempotent, is a
      corollary of the first. */
  lemma ResolveKeepsSupplied(p: Profile)
    ensures Resolve(Some(Explicit(p))) == p
    ensures Resolve(Some(Explicit(Resolve(Some(Explicit(p)))))) == Resolve(Some(Explicit(p)))
  {
  }

  /** Leaving `opts` out and passing `{}` are the same. */
  lemma ResolveEmptyIsDefault()
    ensures Resolve(Some(ThrottleOptions(None, None, None, None))) == Resolve(None)
  {
  }

  // ---------------------------------------------------------------------------
  // DevTools commands
  // ---------------------------------------------------------------------------

  datatype Command =
    | SetCpuThrottlingRate(rate: real)
    | NetworkEnable
    | EmulateNetworkConditions(
        offline: bool, latency: real, downloadThroughput: real, uploadThroughput: real,
        connectionType: string)

  /** The DevTools method each command names. */
  function CdpMethod(c: Command): string {
    match c
    case SetCpuThrottlingRate(_) => "Emulation.setCPUThrottlingRate"
    case NetworkEnable => "Network.enable"
    case EmulateNetworkConditions(_, _, _, _, _) => "Network.emulateNetworkConditions"
  }

  /** The DevTools methods a sequence of commands invokes, in order. */
  function MethodNames(cmds: seq<Command>): seq<string> {
    seq(|cmds|, k requires 0 <= k < |cmds| => CdpMethod(cmds[k]))
  }

  const ConnectionType := "cellular4g"

  /** The three sends, in the order the fixture awaits them. */
  function ThrottleCommands(p: Profile): seq<Command> {
    [ SetCpuThrottlingRate(p.cpuRate),
      NetworkEnable,
      EmulateNetworkConditions(false, p.latencyMs, p.downloadBps, p.uploadBps, ConnectionType) ]
  }

  /** The fixture sets the CPU rate first, then enables the network domain, and only then
      emulates the network conditions. */
  lemma ThrottleCommandOrder(p: Profile)
    ensures MethodNames(ThrottleCommands(p)) ==
      ["Emulation.setCPUThrottlingRate", "Network.enable", "Network.emulateNetworkConditions"]
  {
  }

  /** What reached the browser: a session opened, a command it accepted, a command it
      rejected (the `send` promise rejected). */
  datatype Event = SessionOpened | Accepted(command: Command) | Rejected(command: Command)

  /** How many sends the log records. */
  function SendCount(log: seq<Event>): nat {
    if log == [] then 0
    else SendCount(log[..|log| - 1]) + (if log[|log| - 1].SessionOpened? then 0 else 1)
  }

  lemma SendCountAppend(log: seq<Event>, e: Event)
    ensures SendCount(log + [e]) == SendCount(log) + (if e.SessionOpened? then 0 else 1)
  {
    assert (log + [e])[..|log|] == log;
  }

  /** A page of the browser under test. */
  class Page {
    /** Everything sent to this page's DevTools endpoint so far. */
    var log: seq<Event>
    /** Whether `newCDPSession` resolves (only Chromium offers DevTools sessions). */
    const cdpAvailable: bool
    /** The ordinals (counted from 0 over this page's sends) the browser rejects. */
    const rejectedSends: set<nat>

    constructor (cdpAvailable: bool, rejectedSends: set<nat>)
      ensures log == [] && this.cdpAvailable == cdpAvailable && this.rejectedSends == rejectedSends
    {
      log := [];
      this.cdpAvailable := cdpAvailable;
      this.rejectedSends := rejectedSends;
    }

    /** `page.context().newCDPSession(page)`; false where it throws. */
    method NewCdpSession() returns (connected: bool)
      modifies this
      ensures connected == cdpAvailable
      ensures log == old(log) + (if connected then [SessionOpened] else [])
    {
      connected := cdpAvailable;
      if connected {
        log := log + [SessionOpened];
      }
    }

    /** `client.send(method, params)`; false where it throws. */
    method Send(c: Command) returns (accepted: bool)
      modifies this
      ensures accepted == (SendCount(old(log)) !in rejectedSends)
      ensures log == old(log) + [if accepted then Accepted(c) else Rejected(c)]
    {
      accepted := SendCount(log) !in rejectedSends;
      log := log + [if accepted then Accepted(c) else Rejected(c)];
    }
  }

  // ---------------------------------------------------------------------------
  // applyThrottling
  // ---------------------------------------------------------------------------

  /** How the `applyThrottling` promise settles. */
  datatype Outcome = Applied | OpenThrew | SendThrew(command: Command)

  datatype Trace = Trace(outcome: Outcome, events: seq<Event>)

  function AcceptedAll(cmds: seq<Command>): (es: seq<Event>)
    ensures |es| == |cmds| && forall k :: 0 <= k < |cmds| ==> es[k] == Accepted(cmds[k])
  {
    if cmds == [] then [] else [Accepted(cmds[0])] + AcceptedAll(cmds[1..])
  }

  /** Awaiting `cmds` one after the other, the first at send ordinal n. */
  function SendInOrder(cmds: seq<Command>, rejected: set<nat>, n: nat): Trace
    decreases |cmds|
  {
    if cmds == [] then Trace(Applied, [])
    else if n in rejected then Trace(SendThrew(cmds[0]), [Rejected(cmds[0])])
    else
      var rest := SendInOrder(cmds[1..], rejected, n + 1);
      Trace(rest.outcome, [Accepted(cmds[0])] + rest.events)
  }

  /** What `applyThrottling(page, opts)` does to a page whose next send has ordinal n. */
  function ThrottleTrace(opts: Option<ThrottleOptions>, cdpAvailable: bool, rejected: set<nat>, n: nat): Trace {
    if !cdpAvailable then Trace(OpenThrew, [])
    else
      var t := SendInOrder(ThrottleCommands(Resolve(opts)), rejected, n);
      Trace(t.outcome, [SessionOpened] + t.events)
  }

  method ApplyThrottling(page: Page, opts: Option<ThrottleOptions>) returns (outcome: Outcome)
    modifies page
    ensures var t := ThrottleTrace(opts, page.cdpAvailable, page.rejectedSends, SendCount(old(page.log)));
      outcome == t.outcome && page.log == old(page.log) + t.events
  {
    var p := Resolve(opts);
    var connected := page.NewCdpSession();
    if !connected {
      return OpenThrew;
    }
    SendCountAppend(old(page.log), SessionOpened);
    outcome := SendThrottleCommands(page, p);
  }

  /** The three awaited sends of applyThrottling, on an open session. */
  method SendThrottleCommands(page: Page, p: Profile) returns (outcome: Outcome)
    modifies page
    ensures var t := SendInOrder(ThrottleCommands(p), page.rejectedSends, SendCount(old(page.log)));
      outcome == t.outcome && page.log == old(page.log) + t.events
  {
    var n := SendCount(page.log);
    ghost var log0 := page.log;
    var c0, c1, c2 := SetCpuThrottlingRate(p.cpuRate), NetworkEnable,
      EmulateNetworkConditions(false, p.latencyMs, p.downloadBps, p.uploadBps, ConnectionType);
    ThreeSends(c0, c1, c2, page.rejectedSends, n);

    var ok := page.Send(c0);
    if !ok {
      return SendThrew(c0);
    }
    SendCountAppend(log0, Accepted(c0));

    ok := page.Send(c1);
    if !ok {
      assert page.log == log0 + [Accepted(c0), Rejected(c1)];
      return SendThrew(c1);
    }
    SendCountAppend(log0 + [Accepted(c0)], Accepted(c1));
    assert page.log == log0 + [Accepted(c0), Accepted(c1)];

    ok := page.Send(c2);
    if !ok {
      assert page.log == log0 + [Accepted(c0), Accepted(c1), Rejected(c2)];
      return SendThrew(c2);
    }
    assert page.log == log0 + [Accepted(c0), Accepted(c1), Accepted(c2)];
    return Applied;
  }

  /** Three awaited sends from ordinal n, spelled out. */
  lemma ThreeSends(c0: Command, c1: Command, c2: Command, rejected: set<nat>, n: nat)
    ensures SendInOrder([c0, c1, c2], rejected, n) ==
      if n in rejected then Trace(SendThrew(c0), [Rejected(c0)])
      else if n + 1 in rejected then Trace(SendThrew(c1), [Accepted(c0), Rejected(c1)])
      else if n + 2 in rejected then Trace(SendThrew(c2), [Accepted(c0), Accepted(c1), Rejected(c2)])
      else Trace(Applied, [Accepted(c0), Accepted(c1), Accepted(c2)])
  {
    assert [c2][1..] == [];
    assert SendInOrder([], rejected, n + 3) == Trace(Applied, []);
    var t2 := SendInOrder([c2], rejected, n + 2);
    assert t2 == if n + 2 in rejected then Trace(SendThrew(c2), [Rejected(c2)])
      else Trace(Applied, [Accepted(c2)]);
    assert [c1, c2][1..] == [c2];
    var t1 := SendInOrder([c1, c2], rejected, n + 1);
    assert t1 == if n + 1 in rejected then Trace(SendThrew(c1), [Rejected(c1)])
      else Trace(t2.outcome, [Accepted(c1)] + t2.events);
    assert [c0, c1, c2][1..] == [c1, c2];
  }

  // ---------------------------------------------------------------------------
  // Properties of the ordered sends
  // ---------------------------------------------------------------------------

  /** With no rejection every command is accepted, in order. */
  lemma {:induction false} SendInOrderAccepted(cmds: seq<Command>, rejected: set<nat>, n: nat)
    requires forall o :: n <= o < n + |cmds| ==> o !in rejected
    ensures SendInOrder(cmds, rejected, n) == Trace(Applied, AcceptedAll(cmds))
    decreases |cmds|
  {
    if cmds != [] {
      SendInOrderAccepted(cmds[1..], rejected, n + 1);
    }
  }

  /** The first rejected send ends the sequence: the commands before it were accepted,
      it is recorded as rejected, and nothing after it is sent. */
  lemma {:induction false} SendInOrderStops(cmds: seq<Command>, rejected: set<nat>, n: nat, k: nat)
    requires k < |cmds| && n + k in rejected
    requires forall o :: n <= o < n + k ==> o !in rejected
    ensures SendInOrder(cmds, rejected, n) == Trace(SendThrew(cmds[k]), AcceptedAll(cmds[..k]) + [Rejected(cmds[k])])
    decreases k
  {
    if k == 0 {
      assert cmds[..0] == [];
    } else {
      SendInOrderStops(cmds[1..], rejected, n + 1, k - 1);
      assert cmds[1..][..k - 1] == cmds[..k][1..];
    }
  }

  /** The sequence completes only when no send was rejected. */
  lemma {:induction false} SendInOrderAppliedOnlyIfNoneRejected(cmds: seq<Command>, rejected: set<nat>, n: nat)
    requires SendInOrder(cmds, rejected, n).outcome == Applied
    ensures forall o :: n <= o < n + |cmds| ==> o !in rejected
    decreases |cmds|
  {
    if cmds != [] {
      SendInOrderAppliedOnlyIfNoneRejected(cmds[1..], rejected, n + 1);
    }
  }

  /** applyThrottling resolves exactly when the session opens and none of its three sends
      is rejected, and then the browser has received the session and the three commands
      with the resolved settings. */
  lemma ThrottleApplied(opts: Option<ThrottleOptions>, cdpAvailable: bool, rejected: set<nat>, n: nat)
    ensures ThrottleTrace(opts, cdpAvailable, rejected, n).outcome == Applied <==>
      cdpAvailable && n !in rejected && n + 1 !in rejected && n + 2 !in rejected
    ensures ThrottleTrace(opts, cdpAvailable, rejected, n).outcome == Applied ==>
      var p := Resolve(opts);
      ThrottleTrace(opts, cdpAvailable, rejected, n).events == [
        SessionOpened,
        Accepted(SetCpuThrottlingRate(p.cpuRate)),
        Accepted(NetworkEnable),
        Accepted(EmulateNetworkConditions(false, p.latencyMs, p.downloadBps, p.uploadBps, "cellular4g"))]
  {
    var cmds := ThrottleCommands(Resolve(opts));
    if cdpAvailable {
      if ThrottleTrace(opts, cdpAvailable, rejected, n).outcome == Applied {
        SendInOrderAppliedOnlyIfNoneRejected(cmds, rejected, n);
      }
      if n !in rejected && n + 1 !in rejected && n + 2 !in rejected {
        SendInOrderAccepted(cmds, rejected, n);
      }
    }
  }

  /** A session that cannot be opened leaves the page untouched. */
  lemma OpenFailureSendsNothing(opts: Option<ThrottleOptions>, rejected: set<nat>, n: nat)
    ensures ThrottleTrace(opts, false, rejected, n) == Trace(OpenThrew, [])
  {
  }

  /** A rejected send is the last thing the page receives and is what applyThrottling
      rejects with: a rejected CPU rate means the network is never touched, a rejected
      `Network.enable` means the network conditions are never sent. */
  lemma ThrottleStopsAtRejection(opts: Option<ThrottleOptions>, rejected: set<nat>, n: nat, k: nat)
    requires k < 3 && n + k in rejected
    requires forall o :: n <= o < n + k ==> o !in rejected
    ensures var cmds := ThrottleCommands(Resolve(opts));
      ThrottleTrace(opts, true, rejected, n) ==
        Trace(SendThrew(cmds[k]), [SessionOpened] + AcceptedAll(cmds[..k]) + [Rejected(cmds[k])])
  {
    SendInOrderStops(ThrottleCommands(Resolve(opts)), rejected, n, k);
  }

  /** What reaches the browser is a prefix of the commands, in order, each accepted
      except possibly the last. */
  lemma {:induction false} SendInOrderIsPrefix(cmds: seq<Command>, rejected: set<nat>, n: nat)
    ensures var es := SendInOrder(cmds, rejected, n).events;
      && |es| <= |cmds|
      && (forall i :: 0 <= i < |es| ==> !es[i].SessionOpened? && es[i].command == cmds[i])
      && (forall i :: 0 <= i < |es| - 1 ==> es[i].Accepted?)
    decreases |cmds|
  {
    if cmds != [] && n !in rejected {
      SendInOrderIsPrefix(cmds[1..], rejected, n + 1);
      var rest := SendInOrder(cmds[1..], rejected, n + 1).events;
      var es := SendInOrder(cmds, rejected, n).events;
      assert es == [Accepted(cmds[0])] + rest;
      forall i | 1 <= i < |es| ensures !es[i].SessionOpened? && es[i].command == cmds[i] {
        assert es[i] == rest[i - 1];
      }
      forall i | 1 <= i < |es| - 1 ensures es[i].Accepted? {
        assert es[i] == rest[i - 1];
      }
    }
  }

  /** In every trace the session comes first and the network conditions are only ever
      sent right after `Network.enable` was accepted. */
  lemma EnableBeforeEmulate(opts: Option<ThrottleOptions>, cdpAvailable: bool, rejected: set<nat>, n: nat, j: nat)
    requires var es := ThrottleTrace(opts, cdpAvailable, rejected, n).events;
      j < |es| && !es[j].SessionOpened? && es[j].command.EmulateNetworkConditions?
    ensures var es := ThrottleTrace(opts, cdpAvailable, rejected, n).events;
      es[0] == SessionOpened && j == 3 && es[j - 1] == Accepted(NetworkEnable)
  {
    var cmds := ThrottleCommands(Resolve(opts));
    SendInOrderIsPrefix(cmds, rejected, n);
    var sent := SendInOrder(cmds, rejected, n).events;
    var es := ThrottleTrace(opts, cdpAvailable, rejected, n).events;
    assert es == [SessionOpened] + sent;
    assert es[j] == sent[j - 1];
    assert es[j - 1] == sent[j - 2];
  }

  // ---------------------------------------------------------------------------
  // The page fixture
  // ---------------------------------------------------------------------------

  const ThrottledProject := "chrome-for-flake"
  const ThrottlingNotice := "Applying throttling to chrome-for-flake project"
  const NoThrottlingNotice := "No throttling applied"

  /** Whether the fixture reached `use(page)`, and with which page, or settled with the
      error applyThrottling threw. */
  datatype FixtureResult = UsedPage(page: Page) | Failed(error: Outcome)

  method PageFixture(page: Page, projectName: string) returns (r: FixtureResult, logged: seq<string>)
    modifies page
    ensures |logged| == 2 && logged[0] == "Project name: " + projectName
    ensures projectName == ThrottledProject ==>
      var t := ThrottleTrace(None, page.cdpAvailable, page.rejectedSends, SendCount(old(page.log)));
      && logged[1] == ThrottlingNotice
      && page.log == old(page.log) + t.events
      && r == (if t.outcome == Applied then UsedPage(page) else Failed(t.outcome))
    ensures projectName != ThrottledProject ==>
      logged[1] == NoThrottlingNotice && page.log == old(page.log) && r == UsedPage(page)
  {
    logged := ["Project name: " + projectName];
    if projectName == ThrottledProject {
      logged := logged + [ThrottlingNotice];
      var outcome := ApplyThrottling(page, None);
      if outcome != Applied {
        return Failed(outcome), logged;
      }
    } else {
      logged := logged + [NoThrottlingNotice];
    }
    r := UsedPage(page);
  }
}
