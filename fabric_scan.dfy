/** The fold of `_validation_check_within_fabric` over a fabric's VPGs, stated as functions:
    the fabric sets threaded from VPG to VPG, the object's owner maps, the failure lists
    stored under each VPG's key, and the list of per-VPG reports in scan order. */
module FabricScan {
  import opened VpgCheck

  /** `(uuid, fq_name[-1])`, the key under which a VPG's failures are stored. */
  type VpgKey = (string, string)

  /** The three failure lists of one VPG: `local_check`, `untagged_vlan`, `across_fabric`. */
  datatype Report = Report(localCheck: seq<LocalFailure>, untaggedVlan: seq<UntaggedFailure>, acrossFabric: seq<AcrossFailure>)

  datatype Scan = Scan(fabric: Fabric, owners: Owners, failures: map<VpgKey, Report>, reports: seq<Report>)

  function KeyOf(vpg: Vpg): VpgKey
    requires |vpg.fqName| > 0
  {
    (vpg.uuid, Last(vpg.fqName))
  }

  function ReportOf(r: VpgPass): Report
  {
    Report(r.local.localFailures, r.local.untaggedFailures, r.across)
  }

  /** The scan after a VPG whose pass ended in `r`: the fabric sets joined with its own,
      the owner maps it left, its report stored under its key and appended. */
  function ScanWith(sc: Scan, vpg: Vpg, r: VpgPass): Scan
    requires |vpg.fqName| > 0
  {
    Scan(Merge(sc.fabric, r.local), r.owners, sc.failures[KeyOf(vpg) := ReportOf(r)], sc.reports + [ReportOf(r)])
  }

  /** One iteration of the fabric loop. */
  function ScanVpg(sc: Scan, vpg: Vpg): Scan
    requires Checkable(vpg)
  {
    ScanWith(sc, vpg, CheckVpg(sc.fabric, sc.owners, vpg))
  }

  /** Every VPG of the list can be checked. */
  predicate AllCheckable(vpgs: seq<Vpg>)
    decreases |vpgs|
  {
    vpgs == [] || (AllCheckable(vpgs[..|vpgs| - 1]) && Checkable(Last(vpgs)))
  }

  /** A checkable list has checkable prefixes and checkable members. */
  lemma {:induction false} AllCheckablePrefix(vpgs: seq<Vpg>, n: nat)
    requires AllCheckable(vpgs) && n <= |vpgs|
    ensures AllCheckable(vpgs[..n])
    ensures n < |vpgs| ==> Checkable(vpgs[n])
    decreases |vpgs|
  {
    if n < |vpgs| {
      var m := |vpgs| - 1;
      if n < m {
        AllCheckablePrefix(vpgs[..m], n);
        assert vpgs[..m][..n] == vpgs[..n] && vpgs[..m][n] == vpgs[n];
      }
    } else {
      assert vpgs[..n] == vpgs;
    }
  }

  /** The state after the fabric loop has read `vpgs`. */
  function ScanAll(sc: Scan, vpgs: seq<Vpg>): Scan
    requires AllCheckable(vpgs)
    decreases |vpgs|
  {
    if vpgs == [] then sc
    else ScanVpg(ScanAll(sc, vpgs[..|vpgs| - 1]), Last(vpgs))
  }

  /** The scan a fresh run starts from: empty fabric sets, no reports yet. */
  function StartScan(owners: Owners, failures: map<VpgKey, Report>): Scan
  {
    Scan(EmptyFabric, owners, failures, [])
  }

  function WithinVpgCount(reports: seq<Report>): nat
    decreases |reports|
  {
    if reports == [] then 0 else WithinVpgCount(reports[..|reports| - 1]) + |Last(reports).localCheck|
  }

  function UntaggedCount(reports: seq<Report>): nat
    decreases |reports|
  {
    if reports == [] then 0 else UntaggedCount(reports[..|reports| - 1]) + |Last(reports).untaggedVlan|
  }

  function AcrossCount(reports: seq<Report>): nat
    decreases |reports|
  {
    if reports == [] then 0 else AcrossCount(reports[..|reports| - 1]) + |Last(reports).acrossFabric|
  }

  /** A VPG whose three lists are all empty. */
  predicate IsClean(r: Report)
  {
    |r.localCheck| == 0 && |r.untaggedVlan| == 0 && |r.acrossFabric| == 0
  }

  /** The keys whose VPG has at least one failure. */
  function InvalidKeys(failures: map<VpgKey, Report>): set<VpgKey>
  {
    set k | k in failures && !IsClean(failures[k])
  }

  /** Reading one more VPG of a checkable list is one more `ScanVpg`. */
  lemma ScanExtend(sc: Scan, vpgs: seq<Vpg>, i: nat)
    requires AllCheckable(vpgs) && i < |vpgs|
    ensures AllCheckable(vpgs[..i]) && AllCheckable(vpgs[..i + 1]) && Checkable(vpgs[i])
    ensures ScanAll(sc, vpgs[..i + 1]) == ScanVpg(ScanAll(sc, vpgs[..i]), vpgs[i])
  {
    AllCheckablePrefix(vpgs, i);
    AllCheckablePrefix(vpgs, i + 1);
    assert vpgs[..i + 1][..i] == vpgs[..i];
  }

  /** Each counter of a list of reports grows by the matching length of one more report. */
  lemma CountsAppend(reports: seq<Report>, r: Report)
    ensures WithinVpgCount(reports + [r]) == WithinVpgCount(reports) + |r.localCheck|
    ensures UntaggedCount(reports + [r]) == UntaggedCount(reports) + |r.untaggedVlan|
    ensures AcrossCount(reports + [r]) == AcrossCount(reports) + |r.acrossFabric|
  {
    assert (reports + [r])[..|reports|] == reports;
  }
}
