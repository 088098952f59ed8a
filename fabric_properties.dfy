/** Properties of the fabric loop over a whole list of VPGs, stated over `ScanAll` and
    proved by induction on the list. */
module FabricProperties {
  import opened VpgCheck
  import opened FabricScan
  import opened VpgProperties

  /** The fabric sets only grow along the loop: those after any prefix of the VPGs are
      contained in those after all of them. */
  lemma {:induction false} FabricSetsOnlyGrow(sc: Scan, vpgs: seq<Vpg>, i: nat)
    requires AllCheckable(vpgs) && i <= |vpgs|
    ensures AllCheckable(vpgs[..i])
    ensures var a, b := ScanAll(sc, vpgs[..i]).fabric, ScanAll(sc, vpgs).fabric;
            a.pairs <= b.pairs && a.vns <= b.vns && a.vlans <= b.vlans
    decreases |vpgs|
  {
    AllCheckablePrefix(vpgs, i);
    if i < |vpgs| {
      var n := |vpgs| - 1;
      AllCheckablePrefix(vpgs, n);
      FabricSetsOnlyGrow(sc, vpgs[..n], i);
      assert vpgs[..n][..i] == vpgs[..i];
    } else {
      assert vpgs[..i] == vpgs;
    }
  }

  /** Across the whole loop the owner maps are write-once, and every entry the loop adds
      names one of the VPGs it read. */
  lemma {:induction false} ScanOwnersWriteOnce(sc: Scan, vpgs: seq<Vpg>)
    requires AllCheckable(vpgs)
    ensures var o := ScanAll(sc, vpgs).owners;
            && Extends(sc.owners.vn, o.vn) && Extends(sc.owners.vlan, o.vlan)
            && (forall k :: k in o.vn && k !in sc.owners.vn ==>
                  exists i :: 0 <= i < |vpgs| && o.vn[k].vpgUuid == vpgs[i].uuid)
            && (forall k :: k in o.vlan && k !in sc.owners.vlan ==>
                  exists i :: 0 <= i < |vpgs| && o.vlan[k].vpgUuid == vpgs[i].uuid)
    decreases |vpgs|
  {
    if vpgs != [] {
      var n := |vpgs| - 1;
      var init := vpgs[..n];
      ScanOwnersWriteOnce(sc, init);
      var m := ScanAll(sc, init);
      var vpg := Last(vpgs);
      OwnersWriteOnce(m.fabric, Last(vpg.fqName), vpg.uuid, VpgPass(EmptyLocal, m.owners, []), vpg.annotations);
      var o := ScanAll(sc, vpgs).owners;
      forall k | k in o.vn && k !in sc.owners.vn
        ensures exists i :: 0 <= i < |vpgs| && o.vn[k].vpgUuid == vpgs[i].uuid
      {
        if k in m.owners.vn {
          var i :| 0 <= i < |init| && m.owners.vn[k].vpgUuid == init[i].uuid;
          assert vpgs[i] == init[i];
        } else {
          assert o.vn[k].vpgUuid == vpgs[n].uuid;
        }
      }
      forall k | k in o.vlan && k !in sc.owners.vlan
        ensures exists i :: 0 <= i < |vpgs| && o.vlan[k].vpgUuid == vpgs[i].uuid
      {
        if k in m.owners.vlan {
          var i :| 0 <= i < |init| && m.owners.vlan[k].vpgUuid == init[i].uuid;
          assert vpgs[i] == init[i];
        } else {
          assert o.vlan[k].vpgUuid == vpgs[n].uuid;
        }
      }
    }
  }

  /** Every VN and VLAN in the fabric sets already has an owner when the next VPG is read,
      so by `AcrossOwnerPredates` the owner a cross-fabric failure names was recorded before
      that VPG, never by the failing record itself. */
  lemma {:induction false} FabricOwned(sc: Scan, vpgs: seq<Vpg>)
    requires AllCheckable(vpgs)
    requires sc.fabric.vns <= sc.owners.vn.Keys && sc.fabric.vlans <= sc.owners.vlan.Keys
    ensures var r := ScanAll(sc, vpgs);
            r.fabric.vns <= r.owners.vn.Keys && r.fabric.vlans <= r.owners.vlan.Keys
    decreases |vpgs|
  {
    if vpgs != [] {
      var n := |vpgs| - 1;
      FabricOwned(sc, vpgs[..n]);
      var m := ScanAll(sc, vpgs[..n]);
      var vpg := Last(vpgs);
      var s := VpgPass(EmptyLocal, m.owners, []);
      OwnersWriteOnce(m.fabric, Last(vpg.fqName), vpg.uuid, s, vpg.annotations);
      RunKeepsOwned(m.fabric, Last(vpg.fqName), vpg.uuid, s, vpg.annotations);
    }
  }

  /** One report per VPG, in the order the VPGs were read: the reports after a prefix of the
      VPGs are the matching prefix of all reports. */
  lemma {:induction false} ReportsPrefix(sc: Scan, vpgs: seq<Vpg>, i: nat)
    requires AllCheckable(vpgs) && i <= |vpgs|
    ensures AllCheckable(vpgs[..i])
    ensures |ScanAll(sc, vpgs).reports| == |sc.reports| + |vpgs|
    ensures ScanAll(sc, vpgs[..i]).reports == ScanAll(sc, vpgs).reports[..|sc.reports| + i]
    decreases |vpgs|
  {
    AllCheckablePrefix(vpgs, i);
    if vpgs == [] {
      assert vpgs[..i] == vpgs;
    } else {
      var n := |vpgs| - 1;
      AllCheckablePrefix(vpgs, n);
      if i < |vpgs| {
        ReportsPrefix(sc, vpgs[..n], i);
        assert vpgs[..n][..i] == vpgs[..i];
      } else {
        ReportsPrefix(sc, vpgs[..n], n);
        assert vpgs[..i] == vpgs;
      }
    }
  }

  /** A VPG's report is stored under its key unless a later VPG has the same key. */
  lemma {:induction false} StoredUnderKey(sc: Scan, vpgs: seq<Vpg>, i: nat)
    requires AllCheckable(vpgs) && i < |vpgs| && |vpgs[i].fqName| > 0
    requires forall j :: i < j < |vpgs| && |vpgs[j].fqName| > 0 ==> KeyOf(vpgs[j]) != KeyOf(vpgs[i])
    ensures |ScanAll(sc, vpgs).reports| == |sc.reports| + |vpgs|
    ensures KeyOf(vpgs[i]) in ScanAll(sc, vpgs).failures
    ensures ScanAll(sc, vpgs).failures[KeyOf(vpgs[i])] == ScanAll(sc, vpgs).reports[|sc.reports| + i]
    decreases |vpgs|
  {
    var n := |vpgs| - 1;
    var init := vpgs[..n];
    ReportsPrefix(sc, vpgs, n);
    if i < n {
      assert forall j :: 0 <= j < n ==> init[j] == vpgs[j];
      StoredUnderKey(sc, init, i);
    }
  }

  /** The error total of a list of reports, as the three counters add up. */
  function TotalCount(reports: seq<Report>): nat
  {
    WithinVpgCount(reports) + UntaggedCount(reports) + AcrossCount(reports)
  }

  /** The counters stay at zero exactly when every report is clean. */
  lemma {:induction false} NoErrorsIffAllClean(reports: seq<Report>)
    ensures TotalCount(reports) == 0 <==> forall i :: 0 <= i < |reports| ==> IsClean(reports[i])
    decreases |reports|
  {
    if reports != [] {
      var n := |reports| - 1;
      NoErrorsIffAllClean(reports[..n]);
      assert forall i :: 0 <= i < n ==> reports[..n][i] == reports[i];
    }
  }

  /** Every stored entry is either one that was there before the loop or one of the reports
      the loop made. */
  lemma {:induction false} FailuresFromReports(sc: Scan, vpgs: seq<Vpg>)
    requires AllCheckable(vpgs)
    ensures var r := ScanAll(sc, vpgs);
            && |sc.reports| <= |r.reports| && r.reports[..|sc.reports|] == sc.reports
            && forall k :: k in r.failures ==>
                 (k in sc.failures && r.failures[k] == sc.failures[k]) || r.failures[k] in r.reports[|sc.reports|..]
    decreases |vpgs|
  {
    if vpgs != [] {
      var n := |vpgs| - 1;
      FailuresFromReports(sc, vpgs[..n]);
      var m := ScanAll(sc, vpgs[..n]);
      var r := ScanAll(sc, vpgs);
      assert r.reports == m.reports + [Last(r.reports)];
      assert r.reports[..|sc.reports|] == m.reports[..|sc.reports|];
      assert r.reports[|sc.reports|..] == m.reports[|sc.reports|..] + [Last(r.reports)];
    }
  }

  /** A fabric whose counters stay at zero has no invalid VPG, when the stored map starts
      without invalid entries. */
  lemma CleanScanHasNoInvalid(o: Owners, f: map<VpgKey, Report>, vpgs: seq<Vpg>)
    requires AllCheckable(vpgs) && InvalidKeys(f) == {}
    ensures var r := ScanAll(StartScan(o, f), vpgs);
            TotalCount(r.reports) == 0 ==> InvalidKeys(r.failures) == {}
  {
    var start := StartScan(o, f);
    var r := ScanAll(start, vpgs);
    FailuresFromReports(start, vpgs);
    NoErrorsIffAllClean(r.reports);
    if TotalCount(r.reports) == 0 {
      forall k | k in r.failures
        ensures IsClean(r.failures[k])
      {
        if !(k in f && r.failures[k] == f[k]) {
          assert r.reports[0..] == r.reports;
        } else {
          assert k !in InvalidKeys(f);
        }
      }
    }
  }

  /** With distinct VPG keys and a fresh map, the counters stay at zero exactly when no VPG is
      invalid. */
  lemma InvalidIffErrors(o: Owners, vpgs: seq<Vpg>)
    requires AllCheckable(vpgs)
    requires forall i, j :: 0 <= i < j < |vpgs| && |vpgs[i].fqName| > 0 && |vpgs[j].fqName| > 0
               ==> KeyOf(vpgs[i]) != KeyOf(vpgs[j])
    ensures var r := ScanAll(StartScan(o, map[]), vpgs);
            TotalCount(r.reports) == 0 <==> InvalidKeys(r.failures) == {}
  {
    var start := StartScan(o, map[]);
    var r := ScanAll(start, vpgs);
    CleanScanHasNoInvalid(o, map[], vpgs);
    NoErrorsIffAllClean(r.reports);
    ReportsPrefix(start, vpgs, |vpgs|);
    if InvalidKeys(r.failures) == {} {
      forall i | 0 <= i < |r.reports|
        ensures IsClean(r.reports[i])
      {
        AllCheckablePrefix(vpgs, i);
        StoredUnderKey(start, vpgs, i);
        assert KeyOf(vpgs[i]) !in InvalidKeys(r.failures);
      }
    }
  }

  /** The first VPG of a fabric is checked against empty fabric sets, so its report never
      holds a cross-fabric failure. */
  lemma FirstVpgNoAcross(o: Owners, f: map<VpgKey, Report>, vpgs: seq<Vpg>)
    requires AllCheckable(vpgs) && vpgs != []
    ensures |ScanAll(StartScan(o, f), vpgs).reports| == |vpgs|
    ensures ScanAll(StartScan(o, f), vpgs).reports[0].acrossFabric == []
  {
    var start := StartScan(o, f);
    ReportsPrefix(start, vpgs, 1);
    ScanExtend(start, vpgs, 0);
    assert vpgs[..0] == [];
    NoCollisionWhenFresh(Last(vpgs[0].fqName), vpgs[0].uuid, VpgPass(EmptyLocal, o, []), vpgs[0].annotations);
  }

  /** The fabric sets after the loop hold only what they held before and the VNs and VLANs
      named by the records of the VPGs read. */
  lemma {:induction false} FabricSetsNamed(sc: Scan, vpgs: seq<Vpg>)
    requires AllCheckable(vpgs)
    ensures var r := ScanAll(sc, vpgs).fabric;
            && (forall x :: x in r.vns ==>
                  x in sc.fabric.vns || exists i :: 0 <= i < |vpgs| && x in VnsNamed(vpgs[i].annotations))
            && (forall x :: x in r.vlans ==>
                  x in sc.fabric.vlans || exists i :: 0 <= i < |vpgs| && x in VlansNamed(vpgs[i].annotations))
    decreases |vpgs|
  {
    if vpgs != [] {
      var n := |vpgs| - 1;
      var init := vpgs[..n];
      FabricSetsNamed(sc, init);
      var m := ScanAll(sc, init);
      var vpg := Last(vpgs);
      RunLocal(m.fabric, Last(vpg.fqName), vpg.uuid, VpgPass(EmptyLocal, m.owners, []), vpg.annotations);
      LocalSetsNamed(EmptyLocal, vpg.annotations);
      assert forall i :: 0 <= i < n ==> init[i] == vpgs[i];
    }
  }

  /** When no VN and no VLAN is named by two different VPGs, no cross-fabric failure is
      counted. */
  lemma {:induction false} NoSharingNoAcross(o: Owners, f: map<VpgKey, Report>, vpgs: seq<Vpg>)
    requires AllCheckable(vpgs)
    requires forall i, j :: 0 <= i < j < |vpgs| ==>
               && VnsNamed(vpgs[i].annotations) !! VnsNamed(vpgs[j].annotations)
               && VlansNamed(vpgs[i].annotations) !! VlansNamed(vpgs[j].annotations)
    ensures AcrossCount(ScanAll(StartScan(o, f), vpgs).reports) == 0
    decreases |vpgs|
  {
    if vpgs != [] {
      var n := |vpgs| - 1;
      var init := vpgs[..n];
      assert forall i :: 0 <= i < n ==> init[i] == vpgs[i];
      NoSharingNoAcross(o, f, init);
      var start := StartScan(o, f);
      var m := ScanAll(start, init);
      var vpg := Last(vpgs);
      FabricSetsNamed(start, init);
      NoCollisionWhenDisjoint(m.fabric, Last(vpg.fqName), vpg.uuid, VpgPass(EmptyLocal, m.owners, []), vpg.annotations);
      CountsAppend(m.reports, ReportOf(CheckVpg(m.fabric, m.owners, vpg)));
    }
  }

  /** Two one-record VPGs that put the same VN with different VLANs: the first is clean and
      the second gets the single cross-fabric failure, naming the first as owner. */
  lemma SecondBlamesFirst(f: map<VpgKey, Report>, a: Vpg, b: Vpg, vn: string, vlanA: string, vlanB: string)
    requires |a.fqName| > 0 && |b.fqName| > 0 && |a.annotations| == 1 && |b.annotations| == 1
    requires EnterprisePair(a.annotations[0], vn, vlanA) && EnterprisePair(b.annotations[0], vn, vlanB)
    requires vlanA != vlanB
    ensures AllCheckable([a, b])
    ensures ScanAll(StartScan(Owners(map[], map[]), f), [a, b]).reports
            == [Report([], [], []),
                Report([], [], [AcrossFailure(b.annotations[0].value, Owner(Last(a.fqName), a.uuid, a.annotations[0].value), vn, vlanB)])]
  {
    var start := StartScan(Owners(map[], map[]), f);
    ScanLone(start, a, vn, vlanA);
    var m := ScanVpg(start, a);
    ScanLone(m, b, vn, vlanB);
    ScanPair(start, a, b);
  }

  /** The loop step over a VPG whose only record is a non-untagged enterprise one: the
      fabric sets gain its VN, VLAN and pair, it claims the VN and VLAN unless they have
      owners, and its report holds only the cross-fabric failure its pair may cause. */
  lemma ScanLone(sc: Scan, vpg: Vpg, vn: string, vlan: string)
    requires |vpg.fqName| > 0 && |vpg.annotations| == 1 && EnterprisePair(vpg.annotations[0], vn, vlan)
    ensures Checkable(vpg)
    ensures var r, who := ScanVpg(sc, vpg), Owner(Last(vpg.fqName), vpg.uuid, vpg.annotations[0].value);
            && r.fabric == Fabric(sc.fabric.pairs + {(vn, vlan)}, sc.fabric.vns + {vn}, sc.fabric.vlans + {vlan})
            && r.owners == Owners(WriteOnce(sc.owners.vn, vn, who), WriteOnce(sc.owners.vlan, vlan, who))
            && r.reports == sc.reports + [Report([], [], if PartialMatch(sc.fabric, vn, vlan)
                                                   then [AcrossFailure(vpg.annotations[0].value, if vn in sc.fabric.vns then r.owners.vn[vn] else r.owners.vlan[vlan], vn, vlan)]
                                                   else [])]
  {
    LoneEnterpriseRecord(sc.fabric, Last(vpg.fqName), vpg.uuid, sc.owners, vpg.annotations, vn, vlan);
  }

  /** Scanning two VPGs is scanning the first, then the second. */
  lemma ScanPair(sc: Scan, a: Vpg, b: Vpg)
    requires Checkable(a) && Checkable(b)
    ensures AllCheckable([a, b])
    ensures ScanAll(sc, [a, b]) == ScanVpg(ScanVpg(sc, a), b)
  {
    assert [a][..0] == [] && Last([a]) == a;
    assert AllCheckable([a]);
    assert [a, b][..1] == [a] && Last([a, b]) == b;
    assert AllCheckable([a, b]);
    assert ScanAll(sc, [a]) == ScanVpg(ScanAll(sc, []), a);
  }

  /** The cross-fabric check depends on the order of the VPGs: of two VPGs that share a VN
      with different VLANs, whichever is read second gets the failure. */
  lemma OrderDecidesBlame(f: map<VpgKey, Report>, a: Vpg, b: Vpg, vn: string, vlanA: string, vlanB: string)
    requires |a.fqName| > 0 && |b.fqName| > 0 && |a.annotations| == 1 && |b.annotations| == 1
    requires EnterprisePair(a.annotations[0], vn, vlanA) && EnterprisePair(b.annotations[0], vn, vlanB)
    requires vlanA != vlanB
    ensures AllCheckable([a, b]) && AllCheckable([b, a])
    ensures var ab, ba := ScanAll(StartScan(Owners(map[], map[]), f), [a, b]), ScanAll(StartScan(Owners(map[], map[]), f), [b, a]);
            && |ab.reports| == 2 && |ba.reports| == 2
            && ab.reports[0].acrossFabric == [] && ba.reports[0].acrossFabric == []
            && ab.reports[1].acrossFabric == [AcrossFailure(b.annotations[0].value, Owner(Last(a.fqName), a.uuid, a.annotations[0].value), vn, vlanB)]
            && ba.reports[1].acrossFabric == [AcrossFailure(a.annotations[0].value, Owner(Last(b.fqName), b.uuid, b.annotations[0].value), vn, vlanA)]
  {
    SecondBlamesFirst(f, a, b, vn, vlanA, vlanB);
    SecondBlamesFirst(f, b, a, vn, vlanB, vlanA);
  }
}
