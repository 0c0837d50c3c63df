/**
 * DNS providers (providers/providers.go): the table of provider names, the
 * choice of provider from the configuration, and the contract every provider
 * follows. The contract is modelled by a class whose state is the TXT values
 * each domain's `_acme-challenge` name holds at the provider.
 */
module Providers {
  import opened Config

  const NONE := 0
  const OVH := 1

  /** List: provider names indexed by NONE and OVH. */
  const List: seq<string> := ["none", "ovh"]

  /** ProviderToUse: OVH exactly when all three OVH credentials are set. */
  function ProviderToUse(c: Config): (name: string)
    ensures name in List
    ensures name == "ovh" <==>
      c.auth.ovh.appKey != "" && c.auth.ovh.appSecret != "" && c.auth.ovh.consumerKey != ""
    ensures name == "none" <==>
      c.auth.ovh.appKey == "" || c.auth.ovh.appSecret == "" || c.auth.ovh.consumerKey == ""
  {
    if c.auth.ovh.appKey != "" && c.auth.ovh.appSecret != "" && c.auth.ovh.consumerKey != "" then
      List[OVH]
    else
      List[NONE]
  }

  /** The TXT values published for each domain's validation name; a missing key holds none. */
  type Zone = map<string, seq<string>>

  function TxtRecords(zone: Zone, domain: string): seq<string>
  {
    if domain in zone then zone[domain] else []
  }

  /** One call of the Provider interface. */
  datatype ProviderOp =
    | Clean(domain: string)
    | Check(domain: string)
    | Create(domain: string, txtvalues: seq<string>)

  /**
   * How the provider answers: the calls it refuses, and the TXT values a
   * refused Clean or Create leaves behind, given the values held before the
   * call. The interface promises nothing about a failed call, and a provider
   * may have written part of its records before failing (the OVH client
   * returns after earlier PUTs or POSTs went through), so the records left are
   * arbitrary.
   */
  datatype Faults = Faults(failing: set<ProviderOp>, leftOnFailure: (ProviderOp, seq<string>) -> seq<string>)

  /** The records of `domain` after a call `op` the provider refused. */
  function LeftAfter(faults: Faults, op: ProviderOp, zone: Zone, domain: string): Zone
  {
    zone[domain := faults.leftOnFailure(op, TxtRecords(zone, domain))]
  }

  /** A provider following the interface's contract; `faults` says which calls fail and what they leave. */
  class Provider {
    var zone: Zone
    const faults: Faults

    constructor (zone: Zone, faults: Faults)
      ensures this.zone == zone && this.faults == faults
    {
      this.zone := zone;
      this.faults := faults;
    }

    /**
     * CleanTXTRecords: afterwards the domain's validation name holds no TXT
     * record; a failure leaves what `faults` says.
     */
    method CleanTXTRecords(domain: string) returns (err: bool)
      modifies this
      ensures err <==> Clean(domain) in faults.failing
      ensures !err ==> TxtRecords(zone, domain) == []
      ensures zone == if err then LeftAfter(faults, Clean(domain), old(zone), domain) else old(zone)[domain := []]
    {
      err := Clean(domain) in faults.failing;
      if err {
        zone := LeftAfter(faults, Clean(domain), zone, domain);
      } else {
        zone := zone[domain := []];
      }
    }

    /** CheckIfRecordsAlreadyExist: true exactly when the domain already has TXT records. */
    method CheckIfRecordsAlreadyExist(domain: string) returns (exists_: bool, err: bool)
      ensures err <==> Check(domain) in faults.failing
      ensures exists_ <==> !err && TxtRecords(zone, domain) != []
    {
      err := Check(domain) in faults.failing;
      exists_ := !err && TxtRecords(zone, domain) != [];
    }

    /**
     * CreateTXTRecords: afterwards the domain holds one TXT record per element
     * of txtvalues; a failure leaves what `faults` says.
     */
    method CreateTXTRecords(domain: string, txtvalues: seq<string>) returns (err: bool)
      modifies this
      ensures err <==> Create(domain, txtvalues) in faults.failing
      ensures !err ==> TxtRecords(zone, domain) == txtvalues
      ensures zone == if err then LeftAfter(faults, Create(domain, txtvalues), old(zone), domain)
                      else old(zone)[domain := txtvalues]
    {
      err := Create(domain, txtvalues) in faults.failing;
      if err {
        zone := LeftAfter(faults, Create(domain, txtvalues), zone, domain);
      } else {
        zone := zone[domain := txtvalues];
      }
    }
  }
}
