/**
 * The reconciler of cfcr (app/app.go): once per tick, every configured domain
 * is looked up on Cloudflare; a domain whose certificate packs are active has
 * its validation records cleaned at the DNS provider, any other domain gets
 * the validation values Cloudflare asks for, unless the provider already holds
 * records. Every failure is logged and skips only the domain at hand.
 *
 * The model records every call the loop makes (Cloudflare queries, provider
 * calls, metric updates) in a ghost trace, and specifies one domain's turn by
 * the function `Reconcile` and a whole tick by its left fold `ReconcileAll`.
 */
module App {
  import opened Wrappers
  import opened Config
  import opened Cloudflare
  import opened Providers

  /** A call the reconciler makes. */
  datatype Call =
    | ZoneQuery(name: string)                  // cloudflare.GetZoneID
    | StatusQuery(zoneId: string)              // cloudflare.GetCertificatePacksStatus
    | TxtQuery(zoneId: string)                 // cloudflare.GetTXTValues
    | Revalidate(zoneId: string, packId: string) // cloudflare.TriggerCertificatesValidation
    | Dns(op: ProviderOp)                      // a call on the DNS provider
    | SetLastUpdated(domain: string)           // MetricsServer.SetDomainLastUpdatedMetric

  /** What the reconciler changes: the provider's records and the calls made so far. */
  datatype World = World(zone: Zone, trace: seq<Call>)

  /** The TxtValue of each validation record, in order. */
  function TxtValueOf(vals: seq<ValidationRecord>): seq<string>
  {
    seq(|vals|, i requires 0 <= i < |vals| => vals[i].txtValue)
  }

  /** The projection loop of Run: one TXT value per validation record, in order. */
  method ProjectTxtValues(vals: seq<ValidationRecord>) returns (txtvalues: seq<string>)
    ensures |txtvalues| == |vals|
    ensures forall i :: 0 <= i < |vals| ==> txtvalues[i] == vals[i].txtValue
  {
    txtvalues := [];
    for i := 0 to |vals|
      invariant |txtvalues| == i
      invariant forall j :: 0 <= j < i ==> txtvalues[j] == vals[j].txtValue
    {
      txtvalues := txtvalues + [vals[i].txtValue];
    }
  }

  /**
   * The provider's part of a turn for a domain whose certificate packs are not
   * active: the existence check, then the creation and the metric update. The
   * records afterwards and the calls made, in order.
   */
  function Publish(d: string, vals: seq<ValidationRecord>, metricsOn: bool, faults: Faults, zone: Zone)
    : (Zone, seq<Call>)
  {
    var txtvalues := TxtValueOf(vals);
    if Check(d) in faults.failing || TxtRecords(zone, d) != [] then (zone, [Dns(Check(d))])
    else if Create(d, txtvalues) in faults.failing then
      (LeftAfter(faults, Create(d, txtvalues), zone, d), [Dns(Check(d)), Dns(Create(d, txtvalues))])
    else if metricsOn then (zone[d := txtvalues], [Dns(Check(d)), Dns(Create(d, txtvalues)), SetLastUpdated(d)])
    else (zone[d := txtvalues], [Dns(Check(d)), Dns(Create(d, txtvalues))])
  }

  /**
   * One domain's turn of the loop: the provider's records afterwards and the
   * calls made, in order. `faults` says which provider calls fail and what
   * a failed one leaves.
   */
  function Reconcile(d: string, edge: Edge, dryRun: bool, metricsOn: bool, faults: Faults, zone: Zone)
    : (Zone, seq<Call>)
  {
    match GetZoneID(edge.zones(d))
    case Err(_) => (zone, [ZoneQuery(d)])
    case Ok(id) =>
      match GetCertificatePacksStatus(edge.statuses(id))
      case Err(_) => (zone, [ZoneQuery(d), StatusQuery(id)])
      case Ok(st) =>
        if st.status == ActiveCertificate then
          if dryRun then (zone, [ZoneQuery(d), StatusQuery(id)])
          else if Clean(d) in faults.failing then
            (LeftAfter(faults, Clean(d), zone, d), [ZoneQuery(d), StatusQuery(id), Dns(Clean(d))])
          else (zone[d := []], [ZoneQuery(d), StatusQuery(id), Dns(Clean(d))])
        else
          match GetTXTValues(edge.validations(id))
          case Err(_) => (zone, [ZoneQuery(d), StatusQuery(id), TxtQuery(id)])
          case Ok(vals) =>
            if dryRun then (zone, [ZoneQuery(d), StatusQuery(id), TxtQuery(id)])
            else
              var p := Publish(d, vals, metricsOn, faults, zone);
              (p.0, [ZoneQuery(d), StatusQuery(id), TxtQuery(id)] + p.1)
  }

  /** The domains taken in order, each starting from the world the previous ones left. */
  function ReconcileAll(ds: seq<string>, edge: Edge, dryRun: bool, metricsOn: bool, faults: Faults, w: World)
    : World
  {
    if ds == [] then w
    else
      var before := ReconcileAll(ds[..|ds| - 1], edge, dryRun, metricsOn, faults, w);
      var step := Reconcile(ds[|ds| - 1], edge, dryRun, metricsOn, faults, before.zone);
      World(step.0, before.trace + step.1)
  }

  /** App: the configuration, the DNS provider and the calls made so far. */
  class App {
    const config: Config
    const provider: Provider
    ghost var trace: seq<Call>

    constructor (config: Config, provider: Provider)
      ensures this.config == config && this.provider == provider && trace == []
    {
      this.config := config;
      this.provider := provider;
      trace := [];
    }

    /** The body of Run's loop for the domain d; `return` stands for the source's `continue`. */
    method ReconcileDomain(d: string, dryRun: bool, edge: Edge)
      modifies this, provider
      ensures var step := Reconcile(d, edge, dryRun, config.metrics.enabled, provider.faults, old(provider.zone));
        provider.zone == step.0 && trace == old(trace) + step.1
    {
      var zoneId := GetZoneID(edge.zones(d));
      trace := trace + [ZoneQuery(d)];
      if zoneId.Err? {
        return;
      }
      var id := zoneId.value;
      var status := GetCertificatePacksStatus(edge.statuses(id));
      trace := trace + [StatusQuery(id)];
      if status.Err? {
        return;
      }
      if status.value.status == ActiveCertificate {
        if dryRun {
          return;
        }
        trace := trace + [Dns(Clean(d))];
        var _ := provider.CleanTXTRecords(d);
        return;
      }
      var vals := GetTXTValues(edge.validations(id));
      trace := trace + [TxtQuery(id)];
      if vals.Err? {
        return;
      }
      if dryRun {
        return;
      }
      PublishDomain(d, vals.value);
    }

    /** The provider's part of the loop body, once the validation records are known. */
    method PublishDomain(d: string, vals: seq<ValidationRecord>)
      modifies this, provider
      ensures var step := Publish(d, vals, config.metrics.enabled, provider.faults, old(provider.zone));
        provider.zone == step.0 && trace == old(trace) + step.1
    {
      var txtvalues := ProjectTxtValues(vals);
      assert txtvalues == TxtValueOf(vals);
      var ok, err := provider.CheckIfRecordsAlreadyExist(d);
      if err || ok {
        trace := trace + [Dns(Check(d))];
        return;
      }
      var createErr := provider.CreateTXTRecords(d, txtvalues);
      if createErr {
        trace := trace + [Dns(Check(d)), Dns(Create(d, txtvalues))];
        return;
      }
      if config.metrics.enabled {
        trace := trace + [Dns(Check(d)), Dns(Create(d, txtvalues)), SetLastUpdated(d)];
      } else {
        trace := trace + [Dns(Check(d)), Dns(Create(d, txtvalues))];
      }
    }

    /** Run: every configured domain in order; the error result is always nil. */
    method Run(dryRun: bool, edge: Edge) returns (err: Option<CfError>)
      modifies this, provider
      ensures err == None
      ensures World(provider.zone, trace) ==
        ReconcileAll(config.checks.domains, edge, dryRun, config.metrics.enabled, provider.faults,
                     World(old(provider.zone), old(trace)))
    {
      var ds := config.checks.domains;
      ghost var start := World(provider.zone, trace);
      for i := 0 to |ds|
        invariant World(provider.zone, trace) ==
          ReconcileAll(ds[..i], edge, dryRun, config.metrics.enabled, provider.faults, start)
      {
        assert ds[..i + 1][..i] == ds[..i];
        ReconcileDomain(ds[i], dryRun, edge);
      }
      assert ds[..|ds|] == ds;
      return None;
    }
  }

  // ---------------------------------------------------------------------------
  // Properties of a tick

  /** A tick over ds1 + ds2 is a tick over ds1 followed by a tick over ds2. */
  lemma {:induction false} ReconcileAllConcat(ds1: seq<string>, ds2: seq<string>, edge: Edge, dryRun: bool,
                                              metricsOn: bool, faults: Faults, w: World)
    ensures ReconcileAll(ds1 + ds2, edge, dryRun, metricsOn, faults, w) ==
      ReconcileAll(ds2, edge, dryRun, metricsOn, faults, ReconcileAll(ds1, edge, dryRun, metricsOn, faults, w))
    decreases |ds2|
  {
    if ds2 == [] {
      assert ds1 + ds2 == ds1;
    } else {
      var ds := ds1 + ds2;
      assert ds[..|ds| - 1] == ds1 + ds2[..|ds2| - 1];
      assert ds[|ds| - 1] == ds2[|ds2| - 1];
      ReconcileAllConcat(ds1, ds2[..|ds2| - 1], edge, dryRun, metricsOn, faults, w);
    }
  }

  /** The names looked up on Cloudflare, in the order of the calls. */
  function ZoneQueries(t: seq<Call>): seq<string>
  {
    if t == [] then []
    else ZoneQueries(t[..|t| - 1]) + (if t[|t| - 1].ZoneQuery? then [t[|t| - 1].name] else [])
  }

  lemma {:induction false} ZoneQueriesConcat(a: seq<Call>, b: seq<Call>)
    ensures ZoneQueries(a + b) == ZoneQueries(a) + ZoneQueries(b)
    decreases |b|
  {
    if b == [] {
      assert a + b == a;
    } else {
      assert (a + b)[..|a + b| - 1] == a + b[..|b| - 1];
      assert (a + b)[|a + b| - 1] == b[|b| - 1];
      ZoneQueriesConcat(a, b[..|b| - 1]);
    }
  }

  /** A domain's turn always begins with its zone lookup and makes no other. */
  lemma OneZoneQueryPerDomain(d: string, edge: Edge, dryRun: bool, metricsOn: bool, faults: Faults, zone: Zone)
    ensures var calls := Reconcile(d, edge, dryRun, metricsOn, faults, zone).1;
      calls != [] && calls[0] == ZoneQuery(d) && forall i :: 1 <= i < |calls| ==> !calls[i].ZoneQuery?
  {
  }

  lemma {:induction false} ZoneQueriesOfTurn(d: string, edge: Edge, dryRun: bool, metricsOn: bool, faults: Faults, zone: Zone)
    ensures ZoneQueries(Reconcile(d, edge, dryRun, metricsOn, faults, zone).1) == [d]
  {
    var calls := Reconcile(d, edge, dryRun, metricsOn, faults, zone).1;
    OneZoneQueryPerDomain(d, edge, dryRun, metricsOn, faults, zone);
    NoZoneQueryAfterFirst(calls);
  }

  lemma {:induction false} NoZoneQueryAfterFirst(calls: seq<Call>)
    requires calls != [] && calls[0].ZoneQuery?
    requires forall i :: 1 <= i < |calls| ==> !calls[i].ZoneQuery?
    ensures ZoneQueries(calls) == [calls[0].name]
  {
    if |calls| > 1 {
      NoZoneQueryAfterFirst(calls[..|calls| - 1]);
    }
  }

  /** Each configured domain is looked up exactly once, in the configured order. */
  lemma {:induction false} EveryDomainVisitedInOrder(ds: seq<string>, edge: Edge, dryRun: bool, metricsOn: bool,
                                                     faults: Faults, w: World)
    ensures ZoneQueries(ReconcileAll(ds, edge, dryRun, metricsOn, faults, w).trace) == ZoneQueries(w.trace) + ds
  {
    if ds != [] {
      var before := ReconcileAll(ds[..|ds| - 1], edge, dryRun, metricsOn, faults, w);
      var step := Reconcile(ds[|ds| - 1], edge, dryRun, metricsOn, faults, before.zone);
      EveryDomainVisitedInOrder(ds[..|ds| - 1], edge, dryRun, metricsOn, faults, w);
      ZoneQueriesConcat(before.trace, step.1);
      ZoneQueriesOfTurn(ds[|ds| - 1], edge, dryRun, metricsOn, faults, before.zone);
      assert ds[..|ds| - 1] + [ds[|ds| - 1]] == ds;
    }
  }

  /**
   * A domain whose zone or status lookup fails changes nothing and costs only
   * its queries: the domains after it are reconciled as if it were absent.
   */
  lemma LookupFailureSkipsDomain(ds1: seq<string>, d: string, ds2: seq<string>, edge: Edge, dryRun: bool,
                                 metricsOn: bool, faults: Faults, w: World)
    requires GetZoneID(edge.zones(d)).Err? ||
      GetCertificatePacksStatus(edge.statuses(GetZoneID(edge.zones(d)).value)).Err?
    ensures var mid := ReconcileAll(ds1, edge, dryRun, metricsOn, faults, w);
      var looked := Reconcile(d, edge, dryRun, metricsOn, faults, mid.zone).1;
      looked == (if GetZoneID(edge.zones(d)).Err? then [ZoneQuery(d)]
                 else [ZoneQuery(d), StatusQuery(GetZoneID(edge.zones(d)).value)]) &&
      ReconcileAll(ds1 + [d] + ds2, edge, dryRun, metricsOn, faults, w) ==
        ReconcileAll(ds2, edge, dryRun, metricsOn, faults, World(mid.zone, mid.trace + looked))
  {
    ReconcileAllConcat(ds1 + [d], ds2, edge, dryRun, metricsOn, faults, w);
    ReconcileAllConcat(ds1, [d], edge, dryRun, metricsOn, faults, w);
    var mid := ReconcileAll(ds1, edge, dryRun, metricsOn, faults, w);
    assert [d][..0] == [];
  }

  /** The provider calls of a sequence of calls. */
  function DnsOps(calls: seq<Call>): set<ProviderOp>
  {
    set c | c in calls && c.Dns? :: c.op
  }

  /**
   * With active certificate packs the only provider call is the cleanup, and the
   * validation values are not queried. A cleanup that goes through empties the
   * domain's records; one that fails leaves whatever the provider left.
   */
  lemma ActiveOnlyCleans(d: string, edge: Edge, dryRun: bool, metricsOn: bool, faults: Faults, zone: Zone)
    requires GetZoneID(edge.zones(d)).Ok?
    requires var st := GetCertificatePacksStatus(edge.statuses(GetZoneID(edge.zones(d)).value));
      st.Ok? && st.value.status == ActiveCertificate
    ensures var step := Reconcile(d, edge, dryRun, metricsOn, faults, zone);
      var id := GetZoneID(edge.zones(d)).value;
      DnsOps(step.1) == (if dryRun then {} else {Clean(d)}) &&
      TxtQuery(id) !in step.1 &&
      step.0 == (if dryRun then zone
                 else if Clean(d) in faults.failing then LeftAfter(faults, Clean(d), zone, d)
                 else zone[d := []])
  {
    var id := GetZoneID(edge.zones(d)).value;
    var step := Reconcile(d, edge, dryRun, metricsOn, faults, zone);
    if !dryRun {
      assert step.1[2] == Dns(Clean(d));
    }
  }

  /**
   * pending_validation, initializing and validation_timed_out are handled
   * alike: two lookups that differ only in which of them they report give the
   * same turn.
   */
  lemma NonActiveStatusesAgree(d: string, e1: Edge, e2: Edge, dryRun: bool, metricsOn: bool,
                               faults: Faults, zone: Zone)
    requires e1.zones(d) == e2.zones(d) && GetZoneID(e1.zones(d)).Ok?
    requires var id := GetZoneID(e1.zones(d)).value;
      var s1 := GetCertificatePacksStatus(e1.statuses(id));
      var s2 := GetCertificatePacksStatus(e2.statuses(id));
      s1.Ok? && s2.Ok? && s1.value.status != ActiveCertificate && s2.value.status != ActiveCertificate &&
      e1.validations(id) == e2.validations(id)
    ensures Reconcile(d, e1, dryRun, metricsOn, faults, zone) == Reconcile(d, e2, dryRun, metricsOn, faults, zone)
  {
  }

  /** No tick ever asks Cloudflare to revalidate a certificate pack. */
  lemma {:induction false} NeverRevalidates(ds: seq<string>, edge: Edge, dryRun: bool, metricsOn: bool,
                                            faults: Faults, w: World)
    requires forall c :: c in w.trace ==> !c.Revalidate?
    ensures forall c :: c in ReconcileAll(ds, edge, dryRun, metricsOn, faults, w).trace ==> !c.Revalidate?
  {
    if ds != [] {
      NeverRevalidates(ds[..|ds| - 1], edge, dryRun, metricsOn, faults, w);
    }
  }

  /** A dry run makes no provider call and leaves every record as it was. */
  lemma {:induction false} DryRunOnlyReads(ds: seq<string>, edge: Edge, metricsOn: bool,
                                           faults: Faults, w: World)
    ensures var after := ReconcileAll(ds, edge, true, metricsOn, faults, w);
      after.zone == w.zone &&
      |after.trace| >= |w.trace| && after.trace[..|w.trace|] == w.trace &&
      forall i :: |w.trace| <= i < |after.trace| ==> !after.trace[i].Dns? && !after.trace[i].SetLastUpdated?
  {
    if ds != [] {
      DryRunOnlyReads(ds[..|ds| - 1], edge, metricsOn, faults, w);
      var before := ReconcileAll(ds[..|ds| - 1], edge, true, metricsOn, faults, w);
      var step := Reconcile(ds[|ds| - 1], edge, true, metricsOn, faults, before.zone);
      var after := World(step.0, before.trace + step.1);
      forall i | |w.trace| <= i < |after.trace|
        ensures !after.trace[i].Dns? && !after.trace[i].SetLastUpdated?
      {
        if i >= |before.trace| {
          assert after.trace[i] == step.1[i - |before.trace|];
        } else {
          assert after.trace[i] == before.trace[i];
        }
      }
      assert after.trace[..|w.trace|] == before.trace[..|w.trace|];
    }
  }

  /**
   * Records are created at most once per turn, and only right after an
   * existence check that succeeded and found no records.
   */
  lemma CreateFollowsNegativeCheck(d: string, edge: Edge, dryRun: bool, metricsOn: bool,
                                   faults: Faults, zone: Zone)
    ensures var calls := Reconcile(d, edge, dryRun, metricsOn, faults, zone).1;
      forall i :: 0 <= i < |calls| && calls[i].Dns? && calls[i].op.Create? ==>
        i >= 1 && calls[i - 1] == Dns(Check(d)) && Check(d) !in faults.failing && TxtRecords(zone, d) == [] &&
        forall j :: 0 <= j < |calls| && j != i ==> !(calls[j].Dns? && calls[j].op.Create?)
  {
    var zoneId := GetZoneID(edge.zones(d));
    if zoneId.Ok? {
      var id := zoneId.value;
      var st := GetCertificatePacksStatus(edge.statuses(id));
      var vals := GetTXTValues(edge.validations(id));
      if st.Ok? && st.value.status != ActiveCertificate && vals.Ok? && !dryRun {
        var p := Publish(d, vals.value, metricsOn, faults, zone).1;
        var calls := [ZoneQuery(d), StatusQuery(id), TxtQuery(id)] + p;
        PublishCreatesOnce(d, vals.value, metricsOn, faults, zone);
        forall i | 0 <= i < |calls|
          ensures calls[i] == if i < 3 then [ZoneQuery(d), StatusQuery(id), TxtQuery(id)][i] else p[i - 3]
        {
        }
      }
    }
  }

  /** Publish creates at most once, as its second call, right after a check that found nothing. */
  lemma PublishCreatesOnce(d: string, vals: seq<ValidationRecord>, metricsOn: bool, faults: Faults, zone: Zone)
    ensures var p := Publish(d, vals, metricsOn, faults, zone).1;
      p != [] && p[0] == Dns(Check(d)) &&
      forall i :: 0 <= i < |p| && p[i].Dns? && p[i].op.Create? ==>
        i == 1 && Check(d) !in faults.failing && TxtRecords(zone, d) == []
  {
  }

  /**
   * Zero validation records do not end the turn early: the check is made and,
   * when the provider has no records, records are created from the empty list.
   */
  lemma EmptyValidationStillChecks(d: string, edge: Edge, metricsOn: bool, faults: Faults, zone: Zone)
    requires GetZoneID(edge.zones(d)).Ok?
    requires var id := GetZoneID(edge.zones(d)).value;
      var st := GetCertificatePacksStatus(edge.statuses(id));
      st.Ok? && st.value.status != ActiveCertificate && GetTXTValues(edge.validations(id)) == Ok([])
    ensures var calls := Reconcile(d, edge, false, metricsOn, faults, zone).1;
      Dns(Check(d)) in calls &&
      (Check(d) !in faults.failing && TxtRecords(zone, d) == [] ==> Dns(Create(d, [])) in calls)
  {
    var id := GetZoneID(edge.zones(d)).value;
    var calls := Reconcile(d, edge, false, metricsOn, faults, zone).1;
    assert calls[3] == Dns(Check(d));
    if Check(d) !in faults.failing && TxtRecords(zone, d) == [] {
      assert TxtValueOf([]) == [];
      assert calls[4] == Dns(Create(d, []));
    }
  }

  /**
   * The last-updated metric is set exactly when metrics are enabled and the
   * records were created; the provider then holds the values Cloudflare gave.
   */
  lemma MetricOnlyAfterCreate(d: string, edge: Edge, dryRun: bool, metricsOn: bool,
                              faults: Faults, zone: Zone)
    ensures var step := Reconcile(d, edge, dryRun, metricsOn, faults, zone);
      SetLastUpdated(d) in step.1 <==>
        metricsOn && exists v :: Create(d, v) in DnsOps(step.1) && Create(d, v) !in faults.failing
    ensures var step := Reconcile(d, edge, dryRun, metricsOn, faults, zone);
      SetLastUpdated(d) in step.1 ==> exists v :: Create(d, v) in DnsOps(step.1) && TxtRecords(step.0, d) == v
  {
    var step := Reconcile(d, edge, dryRun, metricsOn, faults, zone);
    if SetLastUpdated(d) in step.1 {
      var id := GetZoneID(edge.zones(d)).value;
      var v := TxtValueOf(GetTXTValues(edge.validations(id)).value);
      assert Dns(Create(d, v)) in step.1;
      assert Create(d, v) in DnsOps(step.1);
    }
  }

  /**
   * A creation that fails after writing some records is not retried: the next
   * turn for the domain finds those records in the existence check and stops
   * there, so the domain keeps the partial records and no later turn repairs them.
   */
  lemma PartialCreateBlocksRetry(d: string, edge: Edge, metricsOn: bool, faults: Faults, zone: Zone)
    requires GetZoneID(edge.zones(d)).Ok?
    requires var id := GetZoneID(edge.zones(d)).value;
      var st := GetCertificatePacksStatus(edge.statuses(id));
      st.Ok? && st.value.status != ActiveCertificate && GetTXTValues(edge.validations(id)).Ok?
    requires Check(d) !in faults.failing && TxtRecords(zone, d) == []
    requires var id := GetZoneID(edge.zones(d)).value;
      var v := TxtValueOf(GetTXTValues(edge.validations(id)).value);
      Create(d, v) in faults.failing && faults.leftOnFailure(Create(d, v), []) != []
    ensures var id := GetZoneID(edge.zones(d)).value;
      var v := TxtValueOf(GetTXTValues(edge.validations(id)).value);
      var first := Reconcile(d, edge, false, metricsOn, faults, zone);
      var second := Reconcile(d, edge, false, metricsOn, faults, first.0);
      Create(d, v) in DnsOps(first.1) &&
      TxtRecords(first.0, d) == faults.leftOnFailure(Create(d, v), []) &&
      second == (first.0, [ZoneQuery(d), StatusQuery(id), TxtQuery(id), Dns(Check(d))]) &&
      DnsOps(second.1) == {Check(d)}
  {
    var id := GetZoneID(edge.zones(d)).value;
    var v := TxtValueOf(GetTXTValues(edge.validations(id)).value);
    var first := Reconcile(d, edge, false, metricsOn, faults, zone);
    assert first.1[4] == Dns(Create(d, v));
    assert TxtRecords(first.0, d) == faults.leftOnFailure(Create(d, v), []);
    var vals := GetTXTValues(edge.validations(id)).value;
    assert Publish(d, vals, metricsOn, faults, first.0) == (first.0, [Dns(Check(d))]);
    var second := Reconcile(d, edge, false, metricsOn, faults, first.0);
    assert second.1 == [ZoneQuery(d), StatusQuery(id), TxtQuery(id)] + [Dns(Check(d))];
    assert second.0 == first.0;
    assert second.1 == [ZoneQuery(d), StatusQuery(id), TxtQuery(id), Dns(Check(d))];
    assert second.1[3] == Dns(Check(d));
  }
}
