/**
 * The entry point of cfcr (main.go): the configuration is validated, the
 * check frequency picks the ticker period, and on every tick an older
 * per-domain loop runs: it reads the validation values from Cloudflare, lists
 * the OVH record IDs of the validation name and logs, for each value, the ID
 * it would update. The signal/ticker `select`, flag parsing and the metrics
 * server goroutine are not part of this model; one tick is one call.
 */
module Cfcr {
  import opened Wrappers
  import opened GoStrings
  import opened Config
  import opened Cloudflare
  import Ovh

  const MinutesPerHour := 60
  const MinutesPerDay := 24 * MinutesPerHour

  /** The ticker period, in minutes, of each frequency; None is the fatal default case. */
  function TickerPeriod(frequency: string): Option<nat>
  {
    if frequency == "debug" then Some(1)
    else if frequency == "hourly" then Some(MinutesPerHour)
    else if frequency == "daily" then Some(MinutesPerDay)
    else if frequency == "weekly" then Some(7 * MinutesPerDay)
    else if frequency == "monthly" then Some(30 * MinutesPerDay)
    else None
  }

  /**
   * The switch accepts exactly the frequencies Validate accepts, so a validated
   * configuration never reaches the fatal default case; the periods grow with
   * the frequency's name in the order the whitelist lists them.
   */
  lemma TickerAcceptsValidFrequencies(frequency: string)
    ensures TickerPeriod(frequency).Some? <==> frequency in ValidFrequencies
    ensures forall i, j :: 0 <= i < j < |ValidFrequencies| ==>
      TickerPeriod(ValidFrequencies[i]).Some? && TickerPeriod(ValidFrequencies[j]).Some? &&
      TickerPeriod(ValidFrequencies[i]).value < TickerPeriod(ValidFrequencies[j]).value
  {
    assert ValidFrequencies == ["debug", "hourly", "daily", "weekly", "monthly"];
    assert TickerPeriod(ValidFrequencies[0]) == Some(1);
    assert TickerPeriod(ValidFrequencies[1]) == Some(60);
    assert TickerPeriod(ValidFrequencies[2]) == Some(1440);
    assert TickerPeriod(ValidFrequencies[3]) == Some(10080);
    assert TickerPeriod(ValidFrequencies[4]) == Some(43200);
  }

  lemma TickerPeriodValues()
    ensures TickerPeriod("debug") == Some(1) && TickerPeriod("hourly") == Some(60)
    ensures TickerPeriod("daily") == Some(1440) && TickerPeriod("weekly") == Some(10080)
    ensures TickerPeriod("monthly") == Some(43200)
    ensures TickerPeriod("") == None && TickerPeriod("Hourly") == None
  {
  }

  datatype StartupError = Invalid(err: ConfigError) | UnsupportedFrequency(frequency: string)

  /** What main sets up before its first tick. */
  datatype Startup = Startup(periodMinutes: nat, domainsGauge: Option<nat>)

  /**
   * main up to the ticker: a configuration that fails Validate is fatal; the
   * gauge of watched domains is set when metrics are enabled.
   */
  method Start(c: Config, parseLevel: string -> bool) returns (r: Result<Startup, StartupError>)
    ensures r.Ok? <==> FirstFailure(c, parseLevel) == None
    ensures r.Err? ==> r == Err(Invalid(FirstFailure(c, parseLevel).value))
    ensures r.Ok? ==> Some(r.value.periodMinutes) == TickerPeriod(c.checks.frequency)
    ensures r.Ok? ==> r.value.domainsGauge == if c.metrics.enabled then Some(|c.checks.domains|) else None
  {
    var err := Validate(c, parseLevel);
    if err.Some? {
      return Err(Invalid(err.value));
    }
    var gauge := if c.metrics.enabled then Some(|c.checks.domains|) else None;
    TickerAcceptsValidFrequencies(c.checks.frequency);
    var period := TickerPeriod(c.checks.frequency);
    if period.None? {
      return Err(UnsupportedFrequency(c.checks.frequency));
    }
    return Ok(Startup(period.value, gauge));
  }

  // ---------------------------------------------------------------------------
  // The per-domain loop of main

  /** What the loop does for a domain, in order. */
  datatype Event =
    | ZoneLookup(name: string)
    | TxtLookup(zoneId: string)
    | OvhRequest(call: Ovh.OvhCall)
    | Updating(subdomain: string, id: string, value: string)   // the log line of the update loop
    | MetricSet(domain: string)

  /** The update loop reading ids[index] past the end of the ID list: a panic that ends the process. */
  datatype Panic = Panic(domain: string, index: nat, length: nat)

  /** The log lines of the update loop: the i-th value against the i-th ID. */
  function UpdateLines(sub: string, ids: seq<string>, vals: seq<ValidationRecord>): seq<Event>
    requires |vals| <= |ids|
  {
    seq(|vals|, i requires 0 <= i < |vals| => Updating(sub, ids[i], vals[i].txtValue))
  }

  /**
   * One domain's turn of the loop. `ovh` gives the OVH API for each validation
   * name and `envBaseDomain` is the BASE_DOMAIN environment variable the ID
   * listing reads.
   */
  function LegacyTurn(c: Config, d: string, edge: Edge, ovh: string -> Ovh.OvhApi, envBaseDomain: string)
    : (seq<Event>, Option<Panic>)
  {
    match GetZoneID(edge.zones(d))
    case Err(_) => ([ZoneLookup(d)], None)
    case Ok(id) =>
      var looked := [ZoneLookup(d), TxtLookup(id)];
      match GetTXTValues(edge.validations(id))
      case Err(_) => (looked, None)
      case Ok(vals) =>
        if |vals| == 0 then (looked, None)
        else
          var rest := LegacyOvh(c, d, vals, ovh, envBaseDomain);
          (looked + rest.0, rest.1)
  }

  /** The OVH part of a turn, once Cloudflare gave at least one validation record. */
  function LegacyOvh(c: Config, d: string, vals: seq<ValidationRecord>, ovh: string -> Ovh.OvhApi, envBaseDomain: string)
    : (seq<Event>, Option<Panic>)
  {
    var sub := Ovh.GetCorrectSubdomain(d, c.checks.baseDomain);
    var api := ovh(sub);
    if !api.clientOk then ([], None)
    else
      var sent := [OvhRequest(Ovh.ListRecords(envBaseDomain, sub))];
      if api.listing.IdsFailed? || api.listing.ids == [] then (sent, None)
      else
        var ids := Ovh.IdStrings(api.listing.ids);
        if |vals| > |ids| then
          (sent + UpdateLines(sub, ids, vals[..|ids|]), Some(Panic(d, |ids|, |ids|)))
        else
          (sent + UpdateLines(sub, ids, vals) + (if c.metrics.enabled then [MetricSet(d)] else []), None)
  }

  /** The domains in order, each taking its turn, until a turn panics and ends the process. */
  function TickOf(turn: string -> (seq<Event>, Option<Panic>), ds: seq<string>): (seq<Event>, Option<Panic>)
  {
    if ds == [] then ([], None)
    else
      var before := TickOf(turn, ds[..|ds| - 1]);
      if before.1.Some? then before
      else
        var step := turn(ds[|ds| - 1]);
        (before.0 + step.0, step.1)
  }

  /** One tick of main's loop: LegacyTurn for each configured domain, until a panic. */
  function LegacyTick(c: Config, ds: seq<string>, edge: Edge, ovh: string -> Ovh.OvhApi, envBaseDomain: string)
    : (seq<Event>, Option<Panic>)
  {
    TickOf(d => LegacyTurn(c, d, edge, ovh, envBaseDomain), ds)
  }

  /** The body of the loop for the domain d, with the subdomain derived inline as main does. */
  method LegacyDomain(c: Config, d: string, edge: Edge, ovh: string -> Ovh.OvhApi, envBaseDomain: string)
    returns (events: seq<Event>, panic: Option<Panic>)
    ensures (events, panic) == LegacyTurn(c, d, edge, ovh, envBaseDomain)
  {
    events := [ZoneLookup(d)];
    var zoneId := GetZoneID(edge.zones(d));
    if zoneId.Err? {
      return events, None;
    }
    var id := zoneId.value;
    events := events + [TxtLookup(id)];
    assert events == [ZoneLookup(d), TxtLookup(id)];
    var got := GetTXTValues(edge.validations(id));
    if got.Err? {
      return events, None;
    }
    var vals := got.value;
    if |vals| == 0 {
      return events, None;
    }
    var rest, p := LegacyOvhDomain(c, d, vals, ovh, envBaseDomain);
    return events + rest, p;
  }

  /** The OVH half of the loop body, with the subdomain derived inline as main does. */
  method LegacyOvhDomain(c: Config, d: string, vals: seq<ValidationRecord>, ovh: string -> Ovh.OvhApi,
                         envBaseDomain: string)
    returns (events: seq<Event>, panic: Option<Panic>)
    ensures (events, panic) == LegacyOvh(c, d, vals, ovh, envBaseDomain)
  {
    var subdomain := Ovh.AcmeLabel;
    if d != c.checks.baseDomain {
      subdomain := TrimSuffix(Ovh.AcmeLabel + "." + d, "." + c.checks.baseDomain);
    }
    assert subdomain == Ovh.GetCorrectSubdomain(d, c.checks.baseDomain);
    var listed, sent := Ovh.GetDomainIDs(envBaseDomain, subdomain, ovh(subdomain));
    if sent == [] {
      return [], None;
    }
    events := [OvhRequest(sent[0])];
    if listed.Err? {
      return events, None;
    }
    var ids := listed.value;
    assert ids == Ovh.IdStrings(ovh(subdomain).listing.ids);
    var lines, overrun := LogUpdates(subdomain, ids, vals);
    events := events + lines;
    if overrun.Some? {
      return events, Some(Panic(d, overrun.value, |ids|));
    }
    ghost var metric := if c.metrics.enabled then [MetricSet(d)] else [];
    if c.metrics.enabled {
      events := events + [MetricSet(d)];
    }
    assert events == [OvhRequest(sent[0])] + lines + metric;
    return events, None;
  }

  /**
   * The update loop of main: one log line per value, naming ids[i]; reading
   * ids[i] past the end of the list panics at i = len(ids).
   */
  method LogUpdates(sub: string, ids: seq<string>, vals: seq<ValidationRecord>)
    returns (lines: seq<Event>, overrun: Option<nat>)
    ensures |vals| > |ids| ==> lines == UpdateLines(sub, ids, vals[..|ids|]) && overrun == Some(|ids|)
    ensures |vals| <= |ids| ==> lines == UpdateLines(sub, ids, vals) && overrun == None
  {
    lines := [];
    for i := 0 to |vals|
      invariant i <= |ids|
      invariant lines == UpdateLines(sub, ids[..i], vals[..i])
    {
      if i >= |ids| {
        assert vals[..|ids|] == vals[..i] && ids[..i] == ids;
        return lines, Some(i);
      }
      assert UpdateLines(sub, ids[..i + 1], vals[..i + 1]) ==
        UpdateLines(sub, ids[..i], vals[..i]) + [Updating(sub, ids[i], vals[i].txtValue)];
      lines := lines + [Updating(sub, ids[i], vals[i].txtValue)];
    }
    assert vals[..|vals|] == vals;
    assert UpdateLines(sub, ids[..|vals|], vals) == UpdateLines(sub, ids, vals);
    return lines, None;
  }

  /** One tick of main's loop over the configured domains. */
  method LegacyRun(c: Config, edge: Edge, ovh: string -> Ovh.OvhApi, envBaseDomain: string)
    returns (events: seq<Event>, panic: Option<Panic>)
    ensures (events, panic) == LegacyTick(c, c.checks.domains, edge, ovh, envBaseDomain)
  {
    var ds := c.checks.domains;
    events, panic := [], None;
    for i := 0 to |ds|
      invariant (events, panic) == LegacyTick(c, ds[..i], edge, ovh, envBaseDomain)
    {
      assert ds[..i + 1][..i] == ds[..i];
      if panic.Some? {
        continue;
      }
      var more, p := LegacyDomain(c, ds[i], edge, ovh, envBaseDomain);
      events, panic := events + more, p;
    }
    assert ds[..|ds|] == ds;
  }

  // ---------------------------------------------------------------------------
  // Properties of the loop

  /**
   * A failing zone or TXT lookup, or an empty list of validation records,
   * skips the domain before any OVH request, without a panic.
   */
  lemma LegacySkipsBeforeOvh(c: Config, d: string, edge: Edge, ovh: string -> Ovh.OvhApi, envBaseDomain: string)
    requires var zoneId := GetZoneID(edge.zones(d));
      zoneId.Err? || GetTXTValues(edge.validations(zoneId.value)).Err? ||
      GetTXTValues(edge.validations(zoneId.value)) == Ok([])
    ensures var turn := LegacyTurn(c, d, edge, ovh, envBaseDomain);
      turn.1 == None && forall e :: e in turn.0 ==> e.ZoneLookup? || e.TxtLookup?
  {
  }

  /**
   * The loop panics exactly when the OVH listing succeeds with fewer IDs than
   * Cloudflare gave validation values, and it does so reading ids[len(ids)].
   */
  lemma LegacyPanicsOnTooFewIds(c: Config, d: string, edge: Edge, ovh: string -> Ovh.OvhApi, envBaseDomain: string)
    ensures var turn := LegacyTurn(c, d, edge, ovh, envBaseDomain);
      var zoneId := GetZoneID(edge.zones(d));
      var sub := Ovh.GetCorrectSubdomain(d, c.checks.baseDomain);
      turn.1.Some? <==>
        zoneId.Ok? && GetTXTValues(edge.validations(zoneId.value)).Ok? &&
        ovh(sub).clientOk && ovh(sub).listing.Ids? && ovh(sub).listing.ids != [] &&
        |GetTXTValues(edge.validations(zoneId.value)).value| > |ovh(sub).listing.ids|
    ensures var turn := LegacyTurn(c, d, edge, ovh, envBaseDomain);
      var sub := Ovh.GetCorrectSubdomain(d, c.checks.baseDomain);
      turn.1.Some? ==> turn.1.value == Panic(d, |ovh(sub).listing.ids|, |ovh(sub).listing.ids|)
  {
  }

  /**
   * The last-updated metric is set only when metrics are enabled, and then
   * exactly for a domain whose values were all matched to an ID.
   */
  lemma LegacyMetricOnlyWhenEnabled(c: Config, d: string, edge: Edge, ovh: string -> Ovh.OvhApi, envBaseDomain: string)
    ensures var turn := LegacyTurn(c, d, edge, ovh, envBaseDomain);
      MetricSet(d) in turn.0 ==> c.metrics.enabled && turn.1 == None
    ensures var turn := LegacyTurn(c, d, edge, ovh, envBaseDomain);
      var zoneId := GetZoneID(edge.zones(d));
      var sub := Ovh.GetCorrectSubdomain(d, c.checks.baseDomain);
      c.metrics.enabled && zoneId.Ok? && GetTXTValues(edge.validations(zoneId.value)).Ok? &&
      GetTXTValues(edge.validations(zoneId.value)).value != [] &&
      ovh(sub).clientOk && ovh(sub).listing.Ids? && ovh(sub).listing.ids != [] &&
      |GetTXTValues(edge.validations(zoneId.value)).value| <= |ovh(sub).listing.ids|
      ==> MetricSet(d) in turn.0
  {
  }

  /** Once a domain panics, the process ends: the domains after it are not looked at. */
  lemma {:induction false} LegacyPanicEndsTick(c: Config, ds1: seq<string>, ds2: seq<string>, edge: Edge,
                                               ovh: string -> Ovh.OvhApi, envBaseDomain: string)
    requires LegacyTick(c, ds1, edge, ovh, envBaseDomain).1.Some?
    ensures LegacyTick(c, ds1 + ds2, edge, ovh, envBaseDomain) == LegacyTick(c, ds1, edge, ovh, envBaseDomain)
  {
    PanicEndsTick(d => LegacyTurn(c, d, edge, ovh, envBaseDomain), ds1, ds2);
  }

  /** Without a panic, the domains of ds2 are handled after those of ds1 exactly as on their own. */
  lemma {:induction false} LegacyTickConcat(c: Config, ds1: seq<string>, ds2: seq<string>, edge: Edge,
                                            ovh: string -> Ovh.OvhApi, envBaseDomain: string)
    requires LegacyTick(c, ds1, edge, ovh, envBaseDomain).1 == None
    ensures var first := LegacyTick(c, ds1, edge, ovh, envBaseDomain);
      var rest := LegacyTick(c, ds2, edge, ovh, envBaseDomain);
      LegacyTick(c, ds1 + ds2, edge, ovh, envBaseDomain) == (first.0 + rest.0, rest.1)
  {
    TickConcat(d => LegacyTurn(c, d, edge, ovh, envBaseDomain), ds1, ds2);
  }

  lemma {:induction false} PanicEndsTick(turn: string -> (seq<Event>, Option<Panic>), ds1: seq<string>, ds2: seq<string>)
    requires TickOf(turn, ds1).1.Some?
    ensures TickOf(turn, ds1 + ds2) == TickOf(turn, ds1)
    decreases |ds2|
  {
    if ds2 == [] {
      assert ds1 + ds2 == ds1;
    } else {
      var ds := ds1 + ds2;
      assert ds[..|ds| - 1] == ds1 + ds2[..|ds2| - 1];
      PanicEndsTick(turn, ds1, ds2[..|ds2| - 1]);
    }
  }

  lemma {:induction false} TickConcat(turn: string -> (seq<Event>, Option<Panic>), ds1: seq<string>, ds2: seq<string>)
    requires TickOf(turn, ds1).1 == None
    ensures TickOf(turn, ds1 + ds2) == (TickOf(turn, ds1).0 + TickOf(turn, ds2).0, TickOf(turn, ds2).1)
    decreases |ds2|
  {
    if ds2 == [] {
      assert ds1 + ds2 == ds1;
      assert TickOf(turn, ds1).0 + [] == TickOf(turn, ds1).0;
    } else {
      var ds := ds1 + ds2;
      var init2 := ds2[..|ds2| - 1];
      assert ds[..|ds| - 1] == ds1 + init2;
      assert ds[|ds| - 1] == ds2[|ds2| - 1];
      TickConcat(turn, ds1, init2);
      var first := TickOf(turn, ds1).0;
      var mid := TickOf(turn, init2);
      if mid.1 == None {
        var step := turn(ds2[|ds2| - 1]);
        assert first + mid.0 + step.0 == first + (mid.0 + step.0);
      }
    }
  }
}
