/**
 * The OVH DNS provider (providers/ovh/ovh.go): the derivation of the
 * `_acme-challenge` sub-domain, the conversion of OVH's record IDs to strings,
 * and the record-matching algorithm of UpdateTXTRecords, which maps N desired
 * TXT values onto the M record IDs OVH already has for the sub-domain.
 *
 * The go-ovh client is not modelled: what the API answers is an `OvhApi` value
 * and the requests a call sends are returned, in order, as `OvhCall`s.
 */
module Ovh {
  import opened Wrappers
  import opened GoStrings

  const AcmeLabel := "_acme-challenge"

  /** The TTL every record written by the provider gets. */
  const Ttl := 120

  // ---------------------------------------------------------------------------
  // getCorrectSubdomain

  /** The name, relative to the base domain, that holds the validation records of `d`. */
  function GetCorrectSubdomain(d: string, bd: string): string
  {
    if d != bd then TrimSuffix(AcmeLabel + "." + d, "." + bd) else AcmeLabel
  }

  /** The base domain itself validates at the bare label. */
  lemma SubdomainOfBase(bd: string)
    ensures GetCorrectSubdomain(bd, bd) == AcmeLabel
  {
  }

  /** A name `l.bd` below the base domain validates at `_acme-challenge.l`, whatever dots `l` holds. */
  lemma SubdomainOfLabel(l: string, bd: string)
    ensures GetCorrectSubdomain(l + "." + bd, bd) == AcmeLabel + "." + l
  {
    var d := l + "." + bd;
    assert |d| > |bd|;
    var s := AcmeLabel + "." + d;
    var keep := AcmeLabel + "." + l;
    assert s == keep + ("." + bd);
    SuffixOfConcat(keep, "." + bd);
    assert s[..|s| - |"." + bd|] == keep;
  }

  /**
   * "_acme-challenge." + d can only end in "." + bd if d itself does or if d is
   * bd: the one dot of the label is its last character.
   */
  lemma SuffixThroughLabel(d: string, bd: string)
    ensures HasSuffix(AcmeLabel + "." + d, "." + bd) ==> d == bd || HasSuffix(d, "." + bd)
  {
    var a := AcmeLabel + ".";
    var s := a + d;
    var t := "." + bd;
    assert AcmeLabel + "." + d == s;
    if HasSuffix(s, t) {
      if |t| <= |d| {
        assert s[|s| - |t|..] == d[|d| - |t|..];
      } else {
        var k := |t| - |d|;
        assert s[|s| - |t|] == t[0] == '.';
        assert s[|s| - |t|] == a[|a| - k];
        assert forall i :: 0 <= i < |a| - 1 ==> a[i] != '.';
        assert k == 1;
        assert t[1..] == s[|s| - |t| + 1..] == d;
      }
    }
  }

  /** A domain outside the base domain is prefixed and kept whole. */
  lemma SubdomainOutsideBase(d: string, bd: string)
    requires d != bd && !HasSuffix(d, "." + bd)
    ensures GetCorrectSubdomain(d, bd) == AcmeLabel + "." + d
  {
    SuffixThroughLabel(d, bd);
  }

  /** Whatever the two names, the derived sub-domain starts with the challenge label. */
  lemma SubdomainStartsWithLabel(d: string, bd: string)
    ensures HasPrefix(GetCorrectSubdomain(d, bd), AcmeLabel)
  {
    var sub := GetCorrectSubdomain(d, bd);
    var rest: string;
    if d == bd {
      rest := "";
      assert sub == AcmeLabel + rest;
    } else if HasSuffix(d, "." + bd) {
      var l := d[..|d| - |"." + bd|];
      assert d == l + "." + bd by {
        assert d == l + d[|d| - |"." + bd|..];
      }
      SubdomainOfLabel(l, bd);
      rest := "." + l;
      assert sub == AcmeLabel + rest;
    } else {
      SubdomainOutsideBase(d, bd);
      rest := "." + d;
      assert sub == AcmeLabel + rest;
    }
    PrefixOfConcat(AcmeLabel, rest);
  }

  /** The cases of the source's table test. */
  lemma SubdomainExamples()
    ensures GetCorrectSubdomain("foobar.com", "foobar.com") == "_acme-challenge"
    ensures GetCorrectSubdomain("api.foobar.com", "foobar.com") == "_acme-challenge.api"
    ensures GetCorrectSubdomain("www.staging.foobar.com", "foobar.com") == "_acme-challenge.www.staging"
  {
    LabelExample("api", "api.foobar.com", "_acme-challenge.api");
    LabelExample("www.staging", "www.staging.foobar.com", "_acme-challenge.www.staging");
  }

  lemma LabelExample(l: string, d: string, sub: string)
    requires d == l + ".foobar.com" && sub == AcmeLabel + "." + l
    ensures GetCorrectSubdomain(d, "foobar.com") == sub
  {
    SubdomainOfLabel(l, "foobar.com");
    assert l + "." + "foobar.com" == d;
  }

  // ---------------------------------------------------------------------------
  // strconv.Itoa

  function DigitChar(n: nat): char
    requires n < 10
  {
    ('0' as int + n) as char
  }

  function DigitValue(c: char): nat
  {
    if '0' <= c <= '9' then c as int - '0' as int else 0
  }

  /** The decimal digits of n, most significant first. */
  function NatToDecimal(n: nat): string
    decreases n
  {
    if n < 10 then [DigitChar(n)] else NatToDecimal(n / 10) + [DigitChar(n % 10)]
  }

  /** strconv.Itoa */
  function Itoa(n: int): string
  {
    if n < 0 then "-" + NatToDecimal(-n) else NatToDecimal(n)
  }

  function DecimalToNat(s: string): nat
  {
    if s == [] then 0 else DecimalToNat(s[..|s| - 1]) * 10 + DigitValue(s[|s| - 1])
  }

  /** Reads a decimal string back: the inverse Itoa is checked against. */
  function Atoi(s: string): int
  {
    if |s| > 0 && s[0] == '-' then -(DecimalToNat(s[1..]) as int) else DecimalToNat(s)
  }

  lemma {:induction false} DecimalRoundTrip(n: nat)
    ensures |NatToDecimal(n)| > 0 && NatToDecimal(n)[0] != '-'
    ensures DecimalToNat(NatToDecimal(n)) == n
    decreases n
  {
    if n >= 10 {
      DecimalRoundTrip(n / 10);
      var s := NatToDecimal(n);
      assert s[..|s| - 1] == NatToDecimal(n / 10);
      assert s[0] == NatToDecimal(n / 10)[0];
    }
  }

  /**
   * NatToDecimal writes canonical decimals: only the digits 0-9, and a leading
   * zero only for zero itself. The strings DecimalToNat reads back are all of
   * this form, so its treatment of other characters never comes into play.
   */
  lemma {:induction false} DecimalDigits(n: nat)
    ensures forall i :: 0 <= i < |NatToDecimal(n)| ==> '0' <= NatToDecimal(n)[i] <= '9'
    ensures |NatToDecimal(n)| > 0 && (NatToDecimal(n)[0] == '0' ==> n == 0)
    decreases n
  {
    if n >= 10 {
      DecimalDigits(n / 10);
      var s := NatToDecimal(n);
      assert s == NatToDecimal(n / 10) + [DigitChar(n % 10)];
      assert s[0] == NatToDecimal(n / 10)[0];
    }
  }

  /** Itoa loses nothing: its decimal string reads back as the same integer. */
  lemma ItoaRoundTrip(n: int)
    ensures Atoi(Itoa(n)) == n
  {
    if n < 0 {
      DecimalRoundTrip(-n);
      assert Itoa(n)[1..] == NatToDecimal(-n);
    } else {
      DecimalRoundTrip(n);
    }
  }

  /** Distinct record IDs give distinct strings. */
  lemma ItoaInjective(a: int, b: int)
    ensures Itoa(a) == Itoa(b) ==> a == b
  {
    ItoaRoundTrip(a);
    ItoaRoundTrip(b);
  }

  // ---------------------------------------------------------------------------
  // The OVH API as the provider meets it

  datatype Credentials = Credentials(applicationKey: string, applicationSecret: string, consumerKey: string)

  /** OVHProvider: the credentials and the base domain (the zone) it writes to. */
  datatype OvhProvider = OvhProvider(credentials: Credentials, baseDomain: string, subdomain: string)

  /** A request sent to the OVH API. */
  datatype OvhCall =
    | ListRecords(zone: string, subDomain: string)   // GET /domain/zone/{zone}/record?subDomain=..
    | CreateRecord(zone: string, fieldType: string, subDomain: string, target: string, ttl: int)  // POST /domain/zone/{zone}/record
    | UpdateRecord(zone: string, id: string, subDomain: string, target: string, ttl: int)         // PUT /domain/zone/{zone}/record/{id}

  /** The decoded answer to the record listing. */
  datatype IdsReply = IdsFailed | Ids(ids: seq<int>)

  /**
   * What the API does during one call of the provider: whether a client can be
   * built from the credentials, what the listing returns, and which writes it refuses.
   */
  datatype OvhApi = OvhApi(clientOk: bool, listing: IdsReply, failing: set<OvhCall>)

  datatype OvhError = ClientError | RequestError | EmptyIdList | WriteRefused(call: OvhCall)

  /** How an update ends: normally, with an error, or with Go's index-out-of-range panic. */
  datatype Outcome = Done | Failed(err: OvhError) | IndexOutOfRange(index: int, length: int)

  /** The ID list as getDomainIDs returns it. */
  function IdStrings(ns: seq<int>): seq<string>
  {
    seq(|ns|, i requires 0 <= i < |ns| => Itoa(ns[i]))
  }

  /** getDomainIDs: the record IDs of a sub-domain as decimal strings; an empty list is an error. */
  method GetDomainIDs(basedomain: string, subdomain: string, api: OvhApi)
    returns (r: Result<seq<string>, OvhError>, sent: seq<OvhCall>)
    ensures sent == if api.clientOk then [ListRecords(basedomain, subdomain)] else []
    ensures !api.clientOk ==> r == Err(ClientError)
    ensures api.clientOk && api.listing.IdsFailed? ==> r == Err(RequestError)
    ensures api.clientOk && api.listing == Ids([]) ==> r == Err(EmptyIdList)
    ensures r.Ok? <==> api.clientOk && api.listing.Ids? && api.listing.ids != []
    ensures r.Ok? ==> |r.value| == |api.listing.ids|
    ensures r.Ok? ==> forall i :: 0 <= i < |r.value| ==> r.value[i] == Itoa(api.listing.ids[i])
  {
    if !api.clientOk {
      return Err(ClientError), [];
    }
    sent := [ListRecords(basedomain, subdomain)];
    if api.listing.IdsFailed? {
      return Err(RequestError), sent;
    }
    var a := api.listing.ids;
    if |a| == 0 {
      return Err(EmptyIdList), sent;
    }
    var ret: seq<string> := [];
    for i := 0 to |a|
      invariant |ret| == i
      invariant forall j :: 0 <= j < i ==> ret[j] == Itoa(a[j])
    {
      ret := ret + [Itoa(a[i])];
    }
    return Ok(ret), sent;
  }

  /** Record IDs that OVH lists once each stay distinct as strings. */
  lemma IdStringsDistinct(ns: seq<int>)
    requires forall i, j :: 0 <= i < j < |ns| ==> ns[i] != ns[j]
    ensures forall i, j :: 0 <= i < j < |ns| ==> IdStrings(ns)[i] != IdStrings(ns)[j]
  {
    forall i, j | 0 <= i < j < |ns|
      ensures IdStrings(ns)[i] != IdStrings(ns)[j]
    {
      ItoaInjective(ns[i], ns[j]);
    }
  }

  // ---------------------------------------------------------------------------
  // Record matching

  function UpdateCall(bd: string, sub: string, id: string, v: string): OvhCall
  {
    UpdateRecord(bd, id, sub, v, Ttl)
  }

  function CreateCall(bd: string, sub: string, v: string): OvhCall
  {
    CreateRecord(bd, "TXT", sub, v, Ttl)
  }

  /** The i-th value written to the i-th ID, for the first n values. */
  function PositionalUpdates(bd: string, sub: string, ids: seq<string>, vals: seq<string>, n: nat): seq<OvhCall>
    requires n <= |ids| && n <= |vals|
  {
    seq(n, i requires 0 <= i < n => UpdateCall(bd, sub, ids[i], vals[i]))
  }

  /** One new TXT record per value, in order. */
  function Creations(bd: string, sub: string, vals: seq<string>): seq<OvhCall>
  {
    seq(|vals|, i requires 0 <= i < |vals| => CreateCall(bd, sub, vals[i]))
  }

  /**
   * The writes the algorithm is meant to issue: with N <= M the first N IDs are
   * updated in order; with N > M the first N - M values go to new records and
   * the M existing IDs receive the remaining values, in order.
   */
  function IntendedWrites(bd: string, sub: string, ids: seq<string>, vals: seq<string>): seq<OvhCall>
  {
    if |vals| <= |ids| then PositionalUpdates(bd, sub, ids, vals, |vals|)
    else
      var k := |vals| - |ids|;
      Creations(bd, sub, vals[..k]) + PositionalUpdates(bd, sub, ids, vals[k..], |ids|)
  }

  /** Where the update loop of the N > M branch stops as written: at max(N - M, M). */
  function OverrunEnd(ids: seq<string>, vals: seq<string>): nat
    requires |vals| > |ids|
  {
    var k := |vals| - |ids|;
    if k < |ids| then |ids| else k
  }

  /**
   * The PUTs the N > M branch issues as written: i runs from N - M and the i-th
   * value goes to ids[i], for as long as i is a valid index of ids.
   */
  function OverrunUpdates(bd: string, sub: string, ids: seq<string>, vals: seq<string>): seq<OvhCall>
    requires |vals| > |ids|
  {
    var k := |vals| - |ids|;
    seq(OverrunEnd(ids, vals) - k, j requires 0 <= j < OverrunEnd(ids, vals) - k =>
      UpdateCall(bd, sub, ids[k + j], vals[k + j]))
  }

  /** The j-th PUT of the loop as written goes to ids[N - M + j]. */
  lemma OverrunUpdateAt(bd: string, sub: string, ids: seq<string>, vals: seq<string>, i: nat)
    requires |vals| > |ids| && |vals| - |ids| <= i < |ids|
    ensures i - (|vals| - |ids|) < |OverrunUpdates(bd, sub, ids, vals)|
    ensures OverrunUpdates(bd, sub, ids, vals)[i - (|vals| - |ids|)] == UpdateCall(bd, sub, ids[i], vals[i])
  {
  }

  /** The index the update loop reads ids at when it panics, if it gets that far. */
  function OverrunIndex(ids: seq<string>, vals: seq<string>): Option<nat>
    requires |vals| > |ids|
  {
    if |ids| >= 1 then Some(OverrunEnd(ids, vals)) else None
  }

  /** The writes the code as written issues, and the index at which it panics, if it does. */
  function AsWrittenWrites(bd: string, sub: string, ids: seq<string>, vals: seq<string>): (seq<OvhCall>, Option<nat>)
  {
    if |vals| <= |ids| then (PositionalUpdates(bd, sub, ids, vals, |vals|), None)
    else
      var k := |vals| - |ids|;
      (Creations(bd, sub, vals[..k]) + OverrunUpdates(bd, sub, ids, vals), OverrunIndex(ids, vals))
  }

  /** The index of the first write the API refuses, or the number of writes if it refuses none. */
  function FirstRefused(calls: seq<OvhCall>, failing: set<OvhCall>): (k: nat)
    ensures k <= |calls|
    ensures forall j :: 0 <= j < k ==> calls[j] !in failing
    ensures k < |calls| ==> calls[k] in failing
  {
    if calls == [] then 0
    else if calls[0] in failing then 0
    else 1 + FirstRefused(calls[1..], failing)
  }

  /** Sends writes in order, stopping after the first refused one; `crash` is a panic once all are sent. */
  function Perform(writes: seq<OvhCall>, crash: Option<nat>, length: nat, failing: set<OvhCall>): (Outcome, seq<OvhCall>)
  {
    var k := FirstRefused(writes, failing);
    if k < |writes| then (Failed(WriteRefused(writes[k])), writes[..k + 1])
    else if crash.Some? then (IndexOutOfRange(crash.value, length), writes)
    else (Done, writes)
  }

  /** A refused write ends the sequence: it is the last request sent and its error is returned. */
  lemma RefusalStops(writes: seq<OvhCall>, crash: Option<nat>, length: nat, failing: set<OvhCall>, i: nat)
    requires i < |writes| && writes[i] in failing
    requires forall j :: 0 <= j < i ==> writes[j] !in failing
    ensures Perform(writes, crash, length, failing) == (Failed(WriteRefused(writes[i])), writes[..i + 1])
  {
    assert FirstRefused(writes, failing) == i;
  }

  /** The first refusal in a + b is the first in a, or lies in b when a has none. */
  lemma {:induction false} FirstRefusedConcat(a: seq<OvhCall>, b: seq<OvhCall>, failing: set<OvhCall>)
    ensures FirstRefused(a + b, failing) ==
      if FirstRefused(a, failing) < |a| then FirstRefused(a, failing) else |a| + FirstRefused(b, failing)
  {
    if a == [] {
      assert a + b == b;
    } else if a[0] in failing {
      assert (a + b)[0] == a[0];
    } else {
      assert (a + b)[0] == a[0];
      assert (a + b)[1..] == a[1..] + b;
      FirstRefusedConcat(a[1..], b, failing);
    }
  }

  /** A refusal inside a ends the sending of a + b there. */
  lemma PerformStopsInPrefix(a: seq<OvhCall>, b: seq<OvhCall>, crash: Option<nat>, length: nat, failing: set<OvhCall>)
    requires FirstRefused(a, failing) < |a|
    ensures Perform(a + b, crash, length, failing) == Perform(a, None, length, failing)
  {
    FirstRefusedConcat(a, b, failing);
    var k := FirstRefused(a, failing);
    assert (a + b)[k] == a[k];
    assert (a + b)[..k + 1] == a[..k + 1];
  }

  /** When a is sent in full, b decides the outcome of sending a + b. */
  lemma PerformContinues(a: seq<OvhCall>, b: seq<OvhCall>, crash: Option<nat>, length: nat, failing: set<OvhCall>)
    requires FirstRefused(a, failing) == |a|
    ensures Perform(a + b, crash, length, failing) ==
      (Perform(b, crash, length, failing).0, a + Perform(b, crash, length, failing).1)
  {
    FirstRefusedConcat(a, b, failing);
    var k2 := FirstRefused(b, failing);
    if k2 < |b| {
      assert (a + b)[|a| + k2] == b[k2];
      assert (a + b)[..|a| + k2 + 1] == a + b[..k2 + 1];
    }
  }

  /** UpdateTXTRecords end to end, as written (`intended` false) or as meant (`intended` true). */
  function Update(p: OvhProvider, api: OvhApi, domain: string, vals: seq<string>, intended: bool): (Outcome, seq<OvhCall>)
  {
    var sub := GetCorrectSubdomain(domain, p.baseDomain);
    if !api.clientOk then (Failed(ClientError), [])
    else match api.listing
      case IdsFailed => (Failed(RequestError), [ListRecords(p.baseDomain, sub)])
      case Ids(ns) =>
        if ns == [] then (Failed(EmptyIdList), [ListRecords(p.baseDomain, sub)])
        else
          var ids := IdStrings(ns);
          var plan := if intended then (IntendedWrites(p.baseDomain, sub, ids, vals), None)
                      else AsWrittenWrites(p.baseDomain, sub, ids, vals);
          var done := Perform(plan.0, plan.1, |ids|, api.failing);
          (done.0, [ListRecords(p.baseDomain, sub)] + done.1)
  }

  // ---------------------------------------------------------------------------
  // The write loops of UpdateTXTRecords

  /** The N <= M branch: the i-th value is PUT on the i-th ID, stopping at the first refusal. */
  method UpdateExisting(bd: string, sub: string, ids: seq<string>, txtvalues: seq<string>, failing: set<OvhCall>)
    returns (res: Outcome, sent: seq<OvhCall>)
    requires |txtvalues| <= |ids|
    ensures (res, sent) == Perform(PositionalUpdates(bd, sub, ids, txtvalues, |txtvalues|), None, |ids|, failing)
  {
    ghost var plan := PositionalUpdates(bd, sub, ids, txtvalues, |txtvalues|);
    sent := [];
    for i := 0 to |txtvalues|
      invariant sent == plan[..i]
      invariant forall j :: 0 <= j < i ==> plan[j] !in failing
    {
      var call := UpdateRecord(bd, ids[i], sub, txtvalues[i], Ttl);
      assert call == plan[i];
      sent := sent + [call];
      assert sent == plan[..i + 1];
      if call in failing {
        RefusalStops(plan, None, |ids|, failing, i);
        return Failed(WriteRefused(call)), sent;
      }
    }
    assert plan[..|txtvalues|] == plan;
    return Done, sent;
  }

  /** The first loop of the N > M branch: one POST per value, stopping at the first refusal. */
  method CreateRecords(bd: string, sub: string, txtvalues: seq<string>, failing: set<OvhCall>)
    returns (res: Outcome, sent: seq<OvhCall>)
    ensures (res, sent) == Perform(Creations(bd, sub, txtvalues), None, 0, failing)
  {
    ghost var plan := Creations(bd, sub, txtvalues);
    sent := [];
    for i := 0 to |txtvalues|
      invariant sent == plan[..i]
      invariant forall j :: 0 <= j < i ==> plan[j] !in failing
    {
      var call := CreateRecord(bd, "TXT", sub, txtvalues[i], Ttl);
      assert call == plan[i];
      sent := sent + [call];
      assert sent == plan[..i + 1];
      if call in failing {
        RefusalStops(plan, None, 0, failing, i);
        return Failed(WriteRefused(call)), sent;
      }
    }
    assert plan[..|txtvalues|] == plan;
    return Done, sent;
  }

  /** The second loop of the N > M branch as written: i from N - M to N, reading ids[i]. */
  method UpdateOverrun(bd: string, sub: string, ids: seq<string>, txtvalues: seq<string>, failing: set<OvhCall>)
    returns (res: Outcome, sent: seq<OvhCall>)
    requires |txtvalues| > |ids|
    ensures (res, sent) == Perform(OverrunUpdates(bd, sub, ids, txtvalues), OverrunIndex(ids, txtvalues), |ids|, failing)
  {
    ghost var plan := OverrunUpdates(bd, sub, ids, txtvalues);
    var numToCreate := |txtvalues| - |ids|;
    sent := [];
    for i := numToCreate to |txtvalues|
      invariant i <= |ids| || i == numToCreate
      invariant sent == plan[..i - numToCreate]
      invariant forall j :: 0 <= j < i - numToCreate ==> plan[j] !in failing
    {
      if i >= |ids| {
        assert plan[..i - numToCreate] == plan;
        return IndexOutOfRange(i, |ids|), sent;
      }
      var call := UpdateRecord(bd, ids[i], sub, txtvalues[i], Ttl);
      OverrunUpdateAt(bd, sub, ids, txtvalues, i);
      sent := sent + [call];
      assert sent == plan[..i - numToCreate + 1];
      if call in failing {
        RefusalStops(plan, OverrunIndex(ids, txtvalues), |ids|, failing, i - numToCreate);
        return Failed(WriteRefused(call)), sent;
      }
    }
    assert plan[..|txtvalues| - numToCreate] == plan;
    return Done, sent;
  }

  /** The N > M branch as written: the creations, then the overrunning update loop. */
  method CreateThenUpdateAsWritten(bd: string, sub: string, ids: seq<string>, txtvalues: seq<string>, failing: set<OvhCall>)
    returns (res: Outcome, sent: seq<OvhCall>)
    requires |txtvalues| > |ids|
    ensures (res, sent) == Perform(AsWrittenWrites(bd, sub, ids, txtvalues).0, OverrunIndex(ids, txtvalues), |ids|, failing)
  {
    var numToCreate := |txtvalues| - |ids|;
    ghost var created := Creations(bd, sub, txtvalues[..numToCreate]);
    ghost var updates := OverrunUpdates(bd, sub, ids, txtvalues);
    assert AsWrittenWrites(bd, sub, ids, txtvalues).0 == created + updates;
    res, sent := CreateRecords(bd, sub, txtvalues[..numToCreate], failing);
    if res.Failed? {
      PerformStopsInPrefix(created, updates, OverrunIndex(ids, txtvalues), |ids|, failing);
      return;
    }
    var more;
    res, more := UpdateOverrun(bd, sub, ids, txtvalues, failing);
    PerformContinues(created, updates, OverrunIndex(ids, txtvalues), |ids|, failing);
    sent := sent + more;
  }

  /** The N > M branch as intended: the creations, then the M remaining values PUT on the M IDs. */
  method CreateThenUpdate(bd: string, sub: string, ids: seq<string>, txtvalues: seq<string>, failing: set<OvhCall>)
    returns (res: Outcome, sent: seq<OvhCall>)
    requires |txtvalues| > |ids|
    ensures (res, sent) == Perform(IntendedWrites(bd, sub, ids, txtvalues), None, |ids|, failing)
  {
    var numToCreate := |txtvalues| - |ids|;
    ghost var created := Creations(bd, sub, txtvalues[..numToCreate]);
    var rest := txtvalues[numToCreate..];
    ghost var updates := PositionalUpdates(bd, sub, ids, rest, |ids|);
    assert IntendedWrites(bd, sub, ids, txtvalues) == created + updates;
    res, sent := CreateRecords(bd, sub, txtvalues[..numToCreate], failing);
    if res.Failed? {
      PerformStopsInPrefix(created, updates, None, |ids|, failing);
      return;
    }
    var more;
    res, more := UpdateExisting(bd, sub, ids, rest, failing);
    PerformContinues(created, updates, None, |ids|, failing);
    sent := sent + more;
  }

  /** UpdateTXTRecords, as the source has it. */
  method UpdateTXTRecords(p: OvhProvider, api: OvhApi, domain: string, txtvalues: seq<string>)
    returns (res: Outcome, sent: seq<OvhCall>)
    ensures (res, sent) == Update(p, api, domain, txtvalues, false)
  {
    var subdomain := GetCorrectSubdomain(domain, p.baseDomain);
    var got;
    got, sent := GetDomainIDs(p.baseDomain, subdomain, api);
    if got.Err? {
      return Failed(got.error), sent;
    }
    var ids := got.value;
    assert ids == IdStrings(api.listing.ids);
    var writes;
    if |txtvalues| <= |ids| {
      res, writes := UpdateExisting(p.baseDomain, subdomain, ids, txtvalues, api.failing);
    } else {
      res, writes := CreateThenUpdateAsWritten(p.baseDomain, subdomain, ids, txtvalues, api.failing);
    }
    sent := sent + writes;
  }

  /** UpdateTXTRecords with the second update loop reading ids[i - (N - M)], as its comment intends. */
  method UpdateTXTRecordsIntended(p: OvhProvider, api: OvhApi, domain: string, txtvalues: seq<string>)
    returns (res: Outcome, sent: seq<OvhCall>)
    ensures (res, sent) == Update(p, api, domain, txtvalues, true)
  {
    var subdomain := GetCorrectSubdomain(domain, p.baseDomain);
    var got;
    got, sent := GetDomainIDs(p.baseDomain, subdomain, api);
    if got.Err? {
      return Failed(got.error), sent;
    }
    var ids := got.value;
    assert ids == IdStrings(api.listing.ids);
    var writes;
    if |txtvalues| <= |ids| {
      res, writes := UpdateExisting(p.baseDomain, subdomain, ids, txtvalues, api.failing);
    } else {
      res, writes := CreateThenUpdate(p.baseDomain, subdomain, ids, txtvalues, api.failing);
    }
    sent := sent + writes;
  }

  // ---------------------------------------------------------------------------
  // Properties of the record matching

  /** A write to the validation name: zone, sub-domain and TTL are the provider's. */
  predicate WritesValidationName(c: OvhCall, bd: string, sub: string)
  {
    !c.ListRecords? && c.zone == bd && c.subDomain == sub && c.ttl == Ttl &&
    (c.CreateRecord? ==> c.fieldType == "TXT")
  }

  /** The number of records a sequence of writes creates. */
  function CountCreates(w: seq<OvhCall>): nat
  {
    if w == [] then 0 else (if w[0].CreateRecord? then 1 else 0) + CountCreates(w[1..])
  }

  lemma {:induction false} CountCreatesConcat(a: seq<OvhCall>, b: seq<OvhCall>)
    ensures CountCreates(a + b) == CountCreates(a) + CountCreates(b)
  {
    if a == [] {
      assert a + b == b;
    } else {
      assert (a + b)[0] == a[0];
      assert (a + b)[1..] == a[1..] + b;
      CountCreatesConcat(a[1..], b);
    }
  }

  lemma {:induction false} CountCreatesAll(w: seq<OvhCall>)
    requires forall i :: 0 <= i < |w| ==> w[i].CreateRecord?
    ensures CountCreates(w) == |w|
  {
    if w != [] {
      CountCreatesAll(w[1..]);
    }
  }

  lemma {:induction false} CountCreatesNone(w: seq<OvhCall>)
    requires forall i :: 0 <= i < |w| ==> !w[i].CreateRecord?
    ensures CountCreates(w) == 0
  {
    if w != [] {
      CountCreatesNone(w[1..]);
    }
  }

  /**
   * The intended plan writes each value exactly once, in order, to the
   * validation name: one write per value, the i-th carrying vals[i].
   */
  lemma IntendedWritesEveryValue(bd: string, sub: string, ids: seq<string>, vals: seq<string>)
    ensures var w := IntendedWrites(bd, sub, ids, vals);
      |w| == |vals| &&
      forall i :: 0 <= i < |w| ==> WritesValidationName(w[i], bd, sub) && w[i].target == vals[i]
  {
    if |vals| > |ids| {
      var k := |vals| - |ids|;
      forall i | k <= i < |vals|
        ensures vals[k..][i - k] == vals[i]
      {
      }
    }
  }

  /**
   * With N <= M the first N IDs are updated in order and nothing is created;
   * with N > M the first N - M values are created, before every update, and
   * the M IDs receive the remaining values in order.
   */
  lemma IntendedWritesLayout(bd: string, sub: string, ids: seq<string>, vals: seq<string>)
    ensures var w := IntendedWrites(bd, sub, ids, vals);
      var k := if |vals| > |ids| then |vals| - |ids| else 0;
      |w| == |vals| &&
      (forall i :: 0 <= i < k ==> w[i].CreateRecord?) &&
      (forall i :: k <= i < |w| ==> w[i].UpdateRecord? && w[i].id == ids[i - k])
  {
  }

  /** With N <= M, the IDs past the N-th are left alone, provided OVH lists each ID once. */
  lemma SurplusIdsUntouched(bd: string, sub: string, ids: seq<string>, vals: seq<string>)
    requires |vals| <= |ids|
    requires forall i, j :: 0 <= i < j < |ids| ==> ids[i] != ids[j]
    ensures var w := IntendedWrites(bd, sub, ids, vals);
      forall i, j :: 0 <= i < |w| && |vals| <= j < |ids| ==> w[i].id != ids[j]
  {
  }

  /**
   * The intended plan creates exactly max(N - M, 0) records, so the validation
   * name ends up with max(N, M) records, enough for every value.
   */
  lemma IntendedCreatesMissing(bd: string, sub: string, ids: seq<string>, vals: seq<string>)
    ensures CountCreates(IntendedWrites(bd, sub, ids, vals)) == if |vals| > |ids| then |vals| - |ids| else 0
    ensures |ids| + CountCreates(IntendedWrites(bd, sub, ids, vals)) >= |vals|
  {
    var w := IntendedWrites(bd, sub, ids, vals);
    if |vals| <= |ids| {
      CountCreatesNone(w);
    } else {
      var k := |vals| - |ids|;
      var created := Creations(bd, sub, vals[..k]);
      var updates := PositionalUpdates(bd, sub, ids, vals[k..], |ids|);
      CountCreatesConcat(created, updates);
      CountCreatesAll(created);
      CountCreatesNone(updates);
    }
  }

  /**
   * Running the intended update again, with the IDs the first run left (M plus
   * the created ones) and the same values, creates nothing.
   */
  lemma SecondRunCreatesNothing(bd: string, sub: string, ids: seq<string>, ids2: seq<string>, vals: seq<string>)
    requires |ids2| == |ids| + CountCreates(IntendedWrites(bd, sub, ids, vals))
    ensures CountCreates(IntendedWrites(bd, sub, ids2, vals)) == 0
  {
    IntendedCreatesMissing(bd, sub, ids, vals);
    IntendedCreatesMissing(bd, sub, ids2, vals);
  }

  /** With N <= M the code as written is the intended algorithm. */
  lemma EnoughIdsAsIntended(bd: string, sub: string, ids: seq<string>, vals: seq<string>)
    requires |vals| <= |ids|
    ensures AsWrittenWrites(bd, sub, ids, vals) == (IntendedWrites(bd, sub, ids, vals), None)
  {
  }

  /** A failing listing, an unusable client or an empty ID list stop the update before any write. */
  lemma NoWriteWithoutIds(p: OvhProvider, api: OvhApi, domain: string, vals: seq<string>, intended: bool)
    requires !api.clientOk || api.listing.IdsFailed? || api.listing == Ids([])
    ensures Update(p, api, domain, vals, intended).0.Failed?
    ensures forall c :: c in Update(p, api, domain, vals, intended).1 ==> c.ListRecords?
  {
  }

  /**
   * The overrun: with more values than IDs and at least one ID, the code as
   * written panics once it reads ids past their end, even when OVH accepts
   * every write, while the intended algorithm completes.
   */
  lemma OverrunPanics(p: OvhProvider, api: OvhApi, domain: string, vals: seq<string>)
    requires api.clientOk && api.listing.Ids? && 1 <= |api.listing.ids| < |vals|
    requires api.failing == {}
    ensures var m := |api.listing.ids|;
      var k := |vals| - m;
      Update(p, api, domain, vals, false).0 == IndexOutOfRange(if k < m then m else k, m)
    ensures Update(p, api, domain, vals, true).0 == Done
  {
  }

  /**
   * As written, when N - M >= M no existing record is updated at all: the last
   * M values are never written.
   */
  lemma OverrunSkipsValues(bd: string, sub: string, ids: seq<string>, vals: seq<string>)
    requires 1 <= |ids| && |vals| >= 2 * |ids|
    ensures AsWrittenWrites(bd, sub, ids, vals).0 == Creations(bd, sub, vals[..|vals| - |ids|])
    ensures forall c :: c in AsWrittenWrites(bd, sub, ids, vals).0 ==> c.target != vals[|vals| - 1] || vals[|vals| - 1] in vals[..|vals| - |ids|]
  {
    var k := |vals| - |ids|;
    assert OverrunUpdates(bd, sub, ids, vals) == [];
    assert AsWrittenWrites(bd, sub, ids, vals).0 == Creations(bd, sub, vals[..k]) + [];
    forall c | c in Creations(bd, sub, vals[..k])
      ensures c.target in vals[..k]
    {
      var i :| 0 <= i < k && Creations(bd, sub, vals[..k])[i] == c;
      assert c.target == vals[..k][i];
    }
  }

  /** Two values and three IDs: the first two records are overwritten, the third kept. */
  lemma FewerValuesExample(p: OvhProvider)
    requires p.baseDomain == "example.com"
    ensures var api := OvhApi(true, Ids([11, 22, 33]), {});
      Update(p, api, "example.com", ["a", "b"], false) ==
        (Done, [ListRecords("example.com", AcmeLabel),
                UpdateRecord("example.com", Itoa(11), AcmeLabel, "a", Ttl),
                UpdateRecord("example.com", Itoa(22), AcmeLabel, "b", Ttl)])
  {
    SubdomainOfBase("example.com");
    var ids := IdStrings([11, 22, 33]);
    assert ids == [Itoa(11), Itoa(22), Itoa(33)];
    var w := PositionalUpdates("example.com", AcmeLabel, ids, ["a", "b"], 2);
    assert w == [UpdateRecord("example.com", Itoa(11), AcmeLabel, "a", Ttl),
                 UpdateRecord("example.com", Itoa(22), AcmeLabel, "b", Ttl)];
    assert FirstRefused(w, {}) == 2;
    assert Perform(w, None, 3, {}) == (Done, w);
    var api := OvhApi(true, Ids([11, 22, 33]), {});
    assert AsWrittenWrites("example.com", AcmeLabel, ids, ["a", "b"]) == (w, None);
    assert Update(p, api, "example.com", ["a", "b"], false) == (Done, [ListRecords("example.com", AcmeLabel)] + w);
    assert [ListRecords("example.com", AcmeLabel)] + w ==
      [ListRecords("example.com", AcmeLabel), w[0], w[1]];
  }

  /** Three values and one ID: two records are created; as written the update loop then panics. */
  lemma MoreValuesExample(p: OvhProvider)
    requires p.baseDomain == "example.com"
    ensures var api := OvhApi(true, Ids([7]), {});
      var list := ListRecords("example.com", AcmeLabel);
      var postA := CreateRecord("example.com", "TXT", AcmeLabel, "a", Ttl);
      var postB := CreateRecord("example.com", "TXT", AcmeLabel, "b", Ttl);
      Update(p, api, "example.com", ["a", "b", "c"], true) ==
        (Done, [list, postA, postB, UpdateRecord("example.com", Itoa(7), AcmeLabel, "c", Ttl)]) &&
      Update(p, api, "example.com", ["a", "b", "c"], false) ==
        (IndexOutOfRange(2, 1), [list, postA, postB])
  {
    SubdomainOfBase("example.com");
    var vals := ["a", "b", "c"];
    var ids := IdStrings([7]);
    assert ids == [Itoa(7)];
    var created := Creations("example.com", AcmeLabel, vals[..2]);
    assert vals[..2] == ["a", "b"];
    assert created == [CreateRecord("example.com", "TXT", AcmeLabel, "a", Ttl),
                       CreateRecord("example.com", "TXT", AcmeLabel, "b", Ttl)];
    var updates := PositionalUpdates("example.com", AcmeLabel, ids, vals[2..], 1);
    assert vals[2..] == ["c"];
    assert updates == [UpdateRecord("example.com", Itoa(7), AcmeLabel, "c", Ttl)];
    assert FirstRefused(created + updates, {}) == 3;
    assert OverrunEnd(ids, vals) == 2;
    assert OverrunUpdates("example.com", AcmeLabel, ids, vals) == [];
    assert created + [] == created;
    assert FirstRefused(created, {}) == 2;
    var list := ListRecords("example.com", AcmeLabel);
    var api := OvhApi(true, Ids([7]), {});
    assert Update(p, api, "example.com", vals, true) == (Done, [list] + (created + updates));
    assert [list] + (created + updates) == [list, created[0], created[1], updates[0]];
    assert Update(p, api, "example.com", vals, false) == (IndexOutOfRange(2, 1), [list] + created);
    assert [list] + created == [list, created[0], created[1]];
  }
}
