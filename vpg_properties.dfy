/** Properties of the per-VPG pass over a whole list of records, stated over `Run` and
    `LocalRun` and proved by induction on the list. */
module VpgProperties {
  import opened Text
  import opened Annotations
  import opened VpgCheck

  /** One record extends the owner maps, and what it adds names this VPG. */
  lemma OwnersStepExtends(fabric: Fabric, name: string, uuid: string, s: VpgPass, annotation: string, vmi: string)
    requires StepDefined(s.local, annotation, vmi)
    ensures var o := Step(fabric, name, uuid, s, annotation, vmi).owners;
            && Extends(s.owners.vn, o.vn) && Extends(s.owners.vlan, o.vlan)
            && (forall k :: k in o.vn && k !in s.owners.vn ==> o.vn[k] == Owner(name, uuid, vmi))
            && (forall k :: k in o.vlan && k !in s.owners.vlan ==> o.vlan[k] == Owner(name, uuid, vmi))
  {
  }

  /** The fabric-wide owner maps are write-once: an entry, once set, keeps its owner through
      the rest of the pass, and every entry the pass adds names this VPG. */
  lemma {:induction false} OwnersWriteOnce(fabric: Fabric, name: string, uuid: string, s: VpgPass, kvs: seq<KeyValuePair>)
    requires RunDefined(s.local, kvs)
    ensures var o := Run(fabric, name, uuid, s, kvs).owners;
            && Extends(s.owners.vn, o.vn) && Extends(s.owners.vlan, o.vlan)
            && (forall k :: k in o.vn && k !in s.owners.vn ==> o.vn[k].vpgName == name && o.vn[k].vpgUuid == uuid)
            && (forall k :: k in o.vlan && k !in s.owners.vlan ==> o.vlan[k].vpgName == name && o.vlan[k].vpgUuid == uuid)
    decreases |kvs|
  {
    if kvs != [] {
      var init := kvs[..|kvs| - 1];
      RunSnoc(fabric, name, uuid, s, kvs);
      OwnersWriteOnce(fabric, name, uuid, s, init);
      OwnersStepExtends(fabric, name, uuid, Run(fabric, name, uuid, s, init), Last(kvs).key, Last(kvs).value);
    }
  }

  /** Every VN and VLAN the VPG has put in its own sets has a fabric-wide owner. */
  lemma {:induction false} RunKeepsOwned(fabric: Fabric, name: string, uuid: string, s: VpgPass, kvs: seq<KeyValuePair>)
    requires RunDefined(s.local, kvs)
    requires s.local.vnSet <= s.owners.vn.Keys && s.local.vlanSet <= s.owners.vlan.Keys
    ensures var r := Run(fabric, name, uuid, s, kvs);
            r.local.vnSet <= r.owners.vn.Keys && r.local.vlanSet <= r.owners.vlan.Keys
    decreases |kvs|
  {
    if kvs != [] {
      RunSnoc(fabric, name, uuid, s, kvs);
      RunKeepsOwned(fabric, name, uuid, s, kvs[..|kvs| - 1]);
    }
  }

  /** The record's VLAN if it is untagged. */
  function UntaggedVlanOf(kv: KeyValuePair): string
    requires IsUntagged(kv.key)
  {
    AnnotationInfo(kv.key, kv.value)[UntaggedVlanKey]
  }

  /** How many records of `kvs` are untagged with a VLAN other than `vlan`. */
  function Mismatches(kvs: seq<KeyValuePair>, vlan: string): nat
    decreases |kvs|
  {
    if kvs == [] then 0
    else Mismatches(kvs[..|kvs| - 1], vlan) + if IsUntagged(Last(kvs).key) && UntaggedVlanOf(Last(kvs)) != vlan then 1 else 0
  }

  /** One record and the untagged slot: a filled slot stays as it is, an empty one is filled
      by an untagged record; an untagged failure is added exactly when the record conflicts. */
  lemma UntaggedStep(l: Local, annotation: string, vmi: string)
    requires StepDefined(l, annotation, vmi)
    ensures var r := LocalStep(l, annotation, vmi);
            && r.untagged == (if l.untagged.Some? then l.untagged
                              else if IsUntagged(annotation)
                              then Some(Untagged(AnnotationInfo(annotation, vmi)[UntaggedVlanKey], UuidPart(vmi)))
                              else None)
            && |r.untaggedFailures| == |l.untaggedFailures| + if Conflicts(l, annotation, vmi) then 1 else 0
  {
    match VerdictOf(l, annotation, vmi)
    case UntaggedConflict =>
    case Incomplete =>
    case DuplicateAnnotation =>
    case NotEnterprise =>
    case VnReused =>
    case VlanReused =>
    case Accepted =>
  }

  /** Records none of which is untagged leave the untagged slot empty and add no untagged failure. */
  lemma {:induction false} NoUntaggedRecords(l: Local, kvs: seq<KeyValuePair>, vlan: string)
    requires RunDefined(l, kvs) && l.untagged.None?
    requires forall j :: 0 <= j < |kvs| ==> !IsUntagged(kvs[j].key)
    ensures LocalRun(l, kvs).untagged.None?
    ensures |LocalRun(l, kvs).untaggedFailures| == |l.untaggedFailures|
    ensures Mismatches(kvs, vlan) == 0
    decreases |kvs|
  {
    if kvs != [] {
      var init := kvs[..|kvs| - 1];
      assert forall j :: 0 <= j < |init| ==> init[j] == kvs[j];
      NoUntaggedRecords(l, init, vlan);
      UntaggedStep(LocalRun(l, init), Last(kvs).key, Last(kvs).value);
    }
  }

  /** The first untagged record settles the VPG's untagged VLAN for good, with the uuid part
      of its value as the fixing interface; after it, every untagged record with another VLAN
      adds exactly one untagged failure and those with the same VLAN add none. */
  lemma {:induction false} UntaggedFromFirst(kvs: seq<KeyValuePair>, i: nat)
    requires RunDefined(EmptyLocal, kvs) && i < |kvs|
    requires IsUntagged(kvs[i].key)
    requires forall j :: 0 <= j < i ==> !IsUntagged(kvs[j].key)
    ensures HasUuidPart(kvs[i].value)
    ensures LocalRun(EmptyLocal, kvs).untagged == Some(Untagged(UntaggedVlanOf(kvs[i]), UuidPart(kvs[i].value)))
    ensures |LocalRun(EmptyLocal, kvs).untaggedFailures| == Mismatches(kvs, UntaggedVlanOf(kvs[i]))
    decreases |kvs|
  {
    var init := kvs[..|kvs| - 1];
    assert forall j :: 0 <= j < |init| ==> init[j] == kvs[j];
    if i < |kvs| - 1 {
      UntaggedFromFirst(init, i);
    } else {
      NoUntaggedRecords(EmptyLocal, init, UntaggedVlanOf(kvs[i]));
    }
    UntaggedStep(LocalRun(EmptyLocal, init), Last(kvs).key, Last(kvs).value);
  }

  /** Three untagged records whose VLANs read 500, 600, 500, or any x, y, x with x and y
      different: the first fixes x, and exactly one untagged failure is reported. */
  lemma UntaggedExample(kvs: seq<KeyValuePair>)
    requires |kvs| == 3 && RunDefined(EmptyLocal, kvs)
    requires IsUntagged(kvs[0].key) && IsUntagged(kvs[1].key) && IsUntagged(kvs[2].key)
    requires UntaggedVlanOf(kvs[0]) == UntaggedVlanOf(kvs[2]) != UntaggedVlanOf(kvs[1])
    ensures HasUuidPart(kvs[0].value)
    ensures LocalRun(EmptyLocal, kvs).untagged == Some(Untagged(UntaggedVlanOf(kvs[0]), UuidPart(kvs[0].value)))
    ensures |LocalRun(EmptyLocal, kvs).untaggedFailures| == 1
  {
    UntaggedFromFirst(kvs, 0);
    assert kvs[..2][..1] == kvs[..1] && kvs[..1][..0] == [];
    assert Mismatches(kvs[..1], UntaggedVlanOf(kvs[0])) == 0;
    assert Mismatches(kvs[..2], UntaggedVlanOf(kvs[0])) == 1;
    assert kvs[..|kvs| - 1] == kvs[..2];
  }

  /** The cross-fabric failures a pass adds come after the old ones; each meets the fabric
      sets only partially and names the first owner of its VN when the fabric uses that VN,
      otherwise the first owner of its VLAN. */
  lemma {:induction false} AcrossMeetsFabric(fabric: Fabric, name: string, uuid: string, s: VpgPass, kvs: seq<KeyValuePair>)
    requires RunDefined(s.local, kvs)
    ensures var r := Run(fabric, name, uuid, s, kvs);
            && |s.across| <= |r.across| && r.across[..|s.across|] == s.across
            && forall j :: |s.across| <= j < |r.across| ==>
                 && PartialMatch(fabric, r.across[j].vn, r.across[j].vlan)
                 && if r.across[j].vn in fabric.vns
                    then r.across[j].vn in r.owners.vn && r.across[j].owner == r.owners.vn[r.across[j].vn]
                    else r.across[j].vlan in r.owners.vlan && r.across[j].owner == r.owners.vlan[r.across[j].vlan]
    decreases |kvs|
  {
    if kvs != [] {
      var init := kvs[..|kvs| - 1];
      RunSnoc(fabric, name, uuid, s, kvs);
      AcrossMeetsFabric(fabric, name, uuid, s, init);
      var m := Run(fabric, name, uuid, s, init);
      var r := Run(fabric, name, uuid, s, kvs);
      assert Extends(m.owners.vn, r.owners.vn) && Extends(m.owners.vlan, r.owners.vlan);
      assert r.across[..|m.across|] == m.across;
      assert r.across[..|s.across|] == m.across[..|s.across|];
    }
  }

  /** When every VN and VLAN the fabric uses already has an owner as the pass starts, each
      cross-fabric failure of the pass names that earlier owner, never one of this VPG's
      records. */
  lemma AcrossOwnerPredates(fabric: Fabric, name: string, uuid: string, s: VpgPass, kvs: seq<KeyValuePair>)
    requires RunDefined(s.local, kvs)
    requires fabric.vns <= s.owners.vn.Keys && fabric.vlans <= s.owners.vlan.Keys
    ensures var r := Run(fabric, name, uuid, s, kvs);
            forall j :: |s.across| <= j < |r.across| ==>
              if r.across[j].vn in fabric.vns then r.across[j].owner == s.owners.vn[r.across[j].vn]
              else r.across[j].vlan in s.owners.vlan && r.across[j].owner == s.owners.vlan[r.across[j].vlan]
  {
    AcrossMeetsFabric(fabric, name, uuid, s, kvs);
    OwnersWriteOnce(fabric, name, uuid, s, kvs);
  }

  /** One record adds a cross-fabric failure exactly when it is an accepted enterprise record
      whose pair meets the fabric only partially, and otherwise adds none. */
  lemma AcrossStepIff(fabric: Fabric, name: string, uuid: string, s: VpgPass, annotation: string, vmi: string)
    requires StepDefined(s.local, annotation, vmi)
    ensures var r := Step(fabric, name, uuid, s, annotation, vmi);
            && r.across[..|s.across|] == s.across
            && (|r.across| == |s.across| + 1 <==>
                  VerdictOf(s.local, annotation, vmi) == Accepted
                  && PartialMatch(fabric, AnnotationInfo(annotation, vmi)[VnKey], AnnotationInfo(annotation, vmi)[VlanKey]))
            && (|r.across| == |s.across| + 1 || r.across == s.across)
  {
  }

  /** A VPG checked against empty fabric sets, as the first one of a fabric is, has no
      cross-fabric failure. */
  lemma {:induction false} NoCollisionWhenFresh(name: string, uuid: string, s: VpgPass, kvs: seq<KeyValuePair>)
    requires RunDefined(s.local, kvs)
    ensures Run(EmptyFabric, name, uuid, s, kvs).across == s.across
    decreases |kvs|
  {
    if kvs != [] {
      RunSnoc(EmptyFabric, name, uuid, s, kvs);
      NoCollisionWhenFresh(name, uuid, s, kvs[..|kvs| - 1]);
    }
  }

  /** What one record does to the VPG's own VN, VLAN and pair sets, by where it leaves the
      loop body: an untagged conflict, an incomplete record and a duplicate touch none of them;
      a non-enterprise record only adds its pair; a reused VN takes the pair out; a reused VLAN
      keeps the VN it has just added and takes the pair out; an accepted record adds all three. */
  lemma LocalSetsStep(l: Local, annotation: string, vmi: string)
    requires StepDefined(l, annotation, vmi)
    ensures var r := LocalStep(l, annotation, vmi);
            var v := VerdictOf(l, annotation, vmi);
            if v in {UntaggedConflict, Incomplete, DuplicateAnnotation} then
              r.vnSet == l.vnSet && r.vlanSet == l.vlanSet && r.pairSet == l.pairSet
            else
              var vn, vlan := AnnotationInfo(annotation, vmi)[VnKey], AnnotationInfo(annotation, vmi)[VlanKey];
              && r.vnSet == (if v in {VlanReused, Accepted} then l.vnSet + {vn} else l.vnSet)
              && r.vlanSet == (if v == Accepted then l.vlanSet + {vlan} else l.vlanSet)
              && r.pairSet == (if v in {VnReused, VlanReused} then l.pairSet - {(vn, vlan)} else l.pairSet + {(vn, vlan)})
  {
    var l1 := FixUntagged(l, annotation, vmi);
    assert l1.vnSet == l.vnSet && l1.vlanSet == l.vlanSet && l1.pairSet == l.pairSet;
    match VerdictOf(l, annotation, vmi)
    case UntaggedConflict =>
    case Incomplete =>
    case DuplicateAnnotation =>
    case NotEnterprise =>
    case VnReused =>
    case VlanReused =>
    case Accepted =>
  }

  /** The record's `validation` is `enterprise`. */
  predicate EnterpriseRecord(kv: KeyValuePair)
  {
    var info := AnnotationInfo(kv.key, kv.value);
    ValidationKey in info && info[ValidationKey] == Enterprise
  }

  /** A non-untagged enterprise record naming VN `vn` and VLAN `vlan`. */
  predicate EnterprisePair(kv: KeyValuePair, vn: string, vlan: string)
  {
    var info := AnnotationInfo(kv.key, kv.value);
    && !IsUntagged(kv.key) && EnterpriseRecord(kv)
    && Complete(info) && info[VnKey] == vn && info[VlanKey] == vlan
  }

  /** A VPG whose only record is a non-untagged enterprise one is accepted: it holds exactly
      that record's VN, VLAN and pair, has no local failure, claims the VN and VLAN unless
      they have owners, and has a cross-fabric failure exactly when the pair meets the fabric
      only partially. */
  lemma LoneEnterpriseRecord(fabric: Fabric, name: string, uuid: string, o: Owners, kvs: seq<KeyValuePair>, vn: string, vlan: string)
    requires |kvs| == 1 && EnterprisePair(kvs[0], vn, vlan)
    ensures RunDefined(EmptyLocal, kvs)
    ensures var p, who := Run(fabric, name, uuid, VpgPass(EmptyLocal, o, []), kvs), Owner(name, uuid, kvs[0].value);
            && p.local.vnSet == {vn} && p.local.vlanSet == {vlan} && p.local.pairSet == {(vn, vlan)}
            && p.local.localFailures == [] && p.local.untaggedFailures == []
            && p.owners == Owners(WriteOnce(o.vn, vn, who), WriteOnce(o.vlan, vlan, who))
            && p.across == if PartialMatch(fabric, vn, vlan)
                           then [AcrossFailure(kvs[0].value, if vn in fabric.vns then p.owners.vn[vn] else p.owners.vlan[vlan], vn, vlan)]
                           else []
  {
    var s := VpgPass(EmptyLocal, o, []);
    assert kvs[..0] == [] && Last(kvs) == kvs[0];
    assert StepDefined(EmptyLocal, kvs[0].key, kvs[0].value);
    RunSnoc(fabric, name, uuid, s, kvs);
    StepOnAccepted(fabric, name, uuid, s, kvs[0].key, kvs[0].value);
  }

  /** Records none of which is enterprise never touch the VPG's VN and VLAN sets and add no
      cross-fabric failure. */
  lemma {:induction false} NonEnterpriseKeepsSets(fabric: Fabric, name: string, uuid: string, s: VpgPass, kvs: seq<KeyValuePair>)
    requires RunDefined(s.local, kvs)
    requires forall j :: 0 <= j < |kvs| ==> !EnterpriseRecord(kvs[j])
    ensures var r := Run(fabric, name, uuid, s, kvs);
            r.local.vnSet == s.local.vnSet && r.local.vlanSet == s.local.vlanSet && r.across == s.across
    decreases |kvs|
  {
    if kvs != [] {
      var init := kvs[..|kvs| - 1];
      assert forall j :: 0 <= j < |init| ==> init[j] == kvs[j];
      RunSnoc(fabric, name, uuid, s, kvs);
      NonEnterpriseKeepsSets(fabric, name, uuid, s, init);
    }
  }

  /** One record leaves the seen map as it is or enters its annotation string, new to the map,
      with its value; it adds a local failure only as a duplicate or a reused VN or VLAN. */
  lemma SeenStep(l: Local, annotation: string, vmi: string)
    requires StepDefined(l, annotation, vmi)
    ensures var r := LocalStep(l, annotation, vmi);
            && (r.seen == l.seen || (annotation !in l.seen && r.seen == l.seen[annotation := vmi]))
            && (VerdictOf(l, annotation, vmi) !in {DuplicateAnnotation, VnReused, VlanReused}
                ==> r.localFailures == l.localFailures)
  {
    match VerdictOf(l, annotation, vmi)
    case UntaggedConflict =>
    case Incomplete =>
    case DuplicateAnnotation =>
    case NotEnterprise =>
    case VnReused =>
    case VlanReused =>
    case Accepted =>
  }

  /** Some record of `kvs` carries annotation string `a` and value `v` and is the first with
      that string to reach the duplicate test: it is complete, not an untagged conflict, and
      `a` was not yet seen before it. */
  predicate FirstSeen(l: Local, kvs: seq<KeyValuePair>, a: string, v: string)
  {
    exists j :: 0 <= j < |kvs| && RunDefined(l, kvs[..j]) && kvs[j].key == a && kvs[j].value == v
                && a !in LocalRun(l, kvs[..j]).seen
                && !Conflicts(LocalRun(l, kvs[..j]), a, v) && Complete(AnnotationInfo(a, v))
  }

  /** A first use among the records but the last stays a first use of the whole list. */
  lemma FirstSeenGrows(l: Local, kvs: seq<KeyValuePair>, a: string, v: string)
    requires kvs != [] && FirstSeen(l, kvs[..|kvs| - 1], a, v)
    ensures FirstSeen(l, kvs, a, v)
  {
    var init := kvs[..|kvs| - 1];
    var j :| 0 <= j < |init| && RunDefined(l, init[..j]) && init[j].key == a && init[j].value == v
             && a !in LocalRun(l, init[..j]).seen
             && !Conflicts(LocalRun(l, init[..j]), a, v) && Complete(AnnotationInfo(a, v));
    assert kvs[j] == init[j] && init[..j] == kvs[..j];
  }

  /** The last record is a first use when the pass enters its annotation string, which was
      not yet seen: only a complete record that is no untagged conflict gets that far. */
  lemma FirstSeenLast(l: Local, kvs: seq<KeyValuePair>)
    requires RunDefined(l, kvs) && kvs != []
    requires Last(kvs).key !in LocalRun(l, kvs[..|kvs| - 1]).seen
    requires Last(kvs).key in LocalRun(l, kvs).seen
    ensures FirstSeen(l, kvs, Last(kvs).key, Last(kvs).value)
  {
    var n := |kvs| - 1;
    assert RunDefined(l, kvs[..n]) && kvs[n].key == Last(kvs).key && kvs[n].value == Last(kvs).value;
    match VerdictOf(LocalRun(l, kvs[..n]), Last(kvs).key, Last(kvs).value)
    case UntaggedConflict =>
    case Incomplete =>
    case DuplicateAnnotation =>
    case NotEnterprise =>
    case VnReused =>
    case VlanReused =>
    case Accepted =>
  }

  /** The map of seen annotation strings is write-once, and every entry the pass adds holds
      the value of the first record with that annotation string to reach the duplicate test:
      the one the later duplicates are reported against. */
  lemma {:induction false} SeenFirstUse(l: Local, kvs: seq<KeyValuePair>)
    requires RunDefined(l, kvs)
    ensures var r := LocalRun(l, kvs);
            && Extends(l.seen, r.seen)
            && forall a :: a in r.seen && a !in l.seen ==> FirstSeen(l, kvs, a, r.seen[a])
    decreases |kvs|
  {
    if kvs != [] {
      var init := kvs[..|kvs| - 1];
      SeenFirstUse(l, init);
      var m := LocalRun(l, init);
      var r := LocalRun(l, kvs);
      SeenStep(m, Last(kvs).key, Last(kvs).value);
      forall a | a in r.seen && a !in l.seen
        ensures FirstSeen(l, kvs, a, r.seen[a])
      {
        if a in m.seen {
          FirstSeenGrows(l, kvs, a, m.seen[a]);
        } else {
          FirstSeenLast(l, kvs);
        }
      }
    }
  }

  /** In a VPG whose records are not enterprise and whose annotation strings are all
      different, and new to the pass, no local failure is reported. */
  lemma {:induction false} DistinctNonEnterprise(l: Local, kvs: seq<KeyValuePair>)
    requires RunDefined(l, kvs)
    requires forall j :: 0 <= j < |kvs| ==> !EnterpriseRecord(kvs[j]) && kvs[j].key !in l.seen
    requires forall i, j :: 0 <= i < j < |kvs| ==> kvs[i].key != kvs[j].key
    ensures LocalRun(l, kvs).localFailures == l.localFailures
    decreases |kvs|
  {
    if kvs != [] {
      var n := |kvs| - 1;
      var init := kvs[..n];
      assert forall j :: 0 <= j < |init| ==> init[j] == kvs[j];
      DistinctNonEnterprise(l, init);
      SeenFirstUse(l, init);
      var m := LocalRun(l, init);
      SeenStep(m, kvs[n].key, kvs[n].value);
    }
  }

  /** The VNs named by the complete records of `kvs`. */
  function VnsNamed(kvs: seq<KeyValuePair>): set<string>
    decreases |kvs|
  {
    if kvs == [] then {}
    else
      var info := AnnotationInfo(Last(kvs).key, Last(kvs).value);
      VnsNamed(kvs[..|kvs| - 1]) + if Complete(info) then {info[VnKey]} else {}
  }

  /** The VLANs named by the complete records of `kvs`. */
  function VlansNamed(kvs: seq<KeyValuePair>): set<string>
    decreases |kvs|
  {
    if kvs == [] then {}
    else
      var info := AnnotationInfo(Last(kvs).key, Last(kvs).value);
      VlansNamed(kvs[..|kvs| - 1]) + if Complete(info) then {info[VlanKey]} else {}
  }

  /** The pass puts into the VPG's VN and VLAN sets only VNs and VLANs its records name. */
  lemma {:induction false} LocalSetsNamed(l: Local, kvs: seq<KeyValuePair>)
    requires RunDefined(l, kvs)
    ensures LocalRun(l, kvs).vnSet <= l.vnSet + VnsNamed(kvs)
    ensures LocalRun(l, kvs).vlanSet <= l.vlanSet + VlansNamed(kvs)
    decreases |kvs|
  {
    if kvs != [] {
      var init := kvs[..|kvs| - 1];
      LocalSetsNamed(l, init);
      LocalSetsStep(LocalRun(l, init), Last(kvs).key, Last(kvs).value);
    }
  }

  /** A VPG none of whose VNs and VLANs the fabric uses yet has no cross-fabric failure. */
  lemma {:induction false} NoCollisionWhenDisjoint(fabric: Fabric, name: string, uuid: string, s: VpgPass, kvs: seq<KeyValuePair>)
    requires RunDefined(s.local, kvs)
    requires VnsNamed(kvs) !! fabric.vns && VlansNamed(kvs) !! fabric.vlans
    ensures Run(fabric, name, uuid, s, kvs).across == s.across
    decreases |kvs|
  {
    if kvs != [] {
      var init := kvs[..|kvs| - 1];
      RunSnoc(fabric, name, uuid, s, kvs);
      NoCollisionWhenDisjoint(fabric, name, uuid, s, init);
      AcrossStepIff(fabric, name, uuid, Run(fabric, name, uuid, s, init), Last(kvs).key, Last(kvs).value);
    }
  }
}
