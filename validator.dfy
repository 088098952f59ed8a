/** The `FabricVPGValidator` object: its fields, and the methods that walk the VPGs and
    their annotations step by step. Each method is proved to compute what the functions
    of modules Annotations, VpgCheck and FabricScan say. */
module Validator {
  import opened Text
  import opened Annotations
  import opened VpgCheck
  import opened FabricScan

  class FabricVPGValidator {
    /** The VPG list read from the configuration store when the object is made. */
    const vpgs: seq<Vpg>
    var validationFailures: map<VpgKey, Report>
    var acrossFabricErrors: nat
    var withinVpgErrors: nat
    var untaggedVlanErrors: nat
    var invalidVpgs: nat
    var totalErrors: nat
    var numTotalVpgs: nat
    /** First owner of each VN and each VLAN anywhere in the fabric; entries are never replaced. */
    var vnToVpgMap: map<string, Owner>
    var vlanToVpgMap: map<string, Owner>

    constructor (vpgs: seq<Vpg>)
      ensures this.vpgs == vpgs
      ensures validationFailures == map[] && vnToVpgMap == map[] && vlanToVpgMap == map[]
      ensures acrossFabricErrors == 0 && withinVpgErrors == 0 && untaggedVlanErrors == 0
      ensures invalidVpgs == 0 && totalErrors == 0 && numTotalVpgs == 0
    {
      this.vpgs := vpgs;
      validationFailures := map[];
      acrossFabricErrors, withinVpgErrors, untaggedVlanErrors := 0, 0, 0;
      invalidVpgs, totalErrors, numTotalVpgs := 0, 0, 0;
      vnToVpgMap, vlanToVpgMap := map[], map[];
    }

    /** The VPG's annotations as (annotation, value) pairs, in their stored order. */
    method GetAnnotationsForVpg(vpg: Vpg) returns (annotationsList: seq<(string, string)>)
      ensures |annotationsList| == |vpg.annotations|
      ensures forall i :: 0 <= i < |annotationsList| ==>
                annotationsList[i] == (vpg.annotations[i].key, vpg.annotations[i].value)
    {
      annotationsList := [];
      for i := 0 to |vpg.annotations|
        invariant |annotationsList| == i
        invariant forall j :: 0 <= j < i ==> annotationsList[j] == (vpg.annotations[j].key, vpg.annotations[j].value)
      {
        var annotationsKvDict := vpg.annotations[i];
        annotationsList := annotationsList + [(annotationsKvDict.key, annotationsKvDict.value)];
      }
    }

    /** The key and value map of one annotation and whether it is untagged. */
    method ExtractAnnotationInfo(annotation: string, vmiVal: string) returns (annotationInfoDict: map<string, string>, untagged: bool)
      ensures untagged <==> Contains(annotation, UntaggedMarker)
      ensures annotationInfoDict == AnnotationInfo(annotation, vmiVal)
    {
      untagged := false;
      annotationInfoDict := map[];
      if Contains(annotation, UntaggedMarker) {
        untagged := true;
        var valueSplit := Split(vmiVal, TagSeparator);
        annotationInfoDict := annotationInfoDict[UntaggedVlanKey := valueSplit[0]];
      }
      var annotationData := Split(annotation, SegmentSeparator);
      for i := 0 to |annotationData|
        invariant annotationInfoDict == AddTags(Seed(annotation, vmiVal), annotationData[..i])
      {
        var tagVal := Split(annotationData[i], TagSeparator);
        if |tagVal| == SplitSize {
          annotationInfoDict := annotationInfoDict[tagVal[0] := tagVal[1]];
        }
        assert annotationData[..i + 1][..i] == annotationData[..i];
      }
      assert annotationData[..|annotationData|] == annotationData;
    }

    /** One VPG's pass: its three failure lists and the fabric sets joined with its own. */
    method ValidationCheckWithinVpg(vpg: Vpg, fabricVnVlanSet: set<Pair>, fabricVnSet: set<string>, fabricVlanSet: set<string>)
      returns (localValidationFailures: seq<LocalFailure>, untaggedFabricFailures: seq<UntaggedFailure>,
               acrossFabricFailures: seq<AcrossFailure>,
               pairsOut: set<Pair>, vnsOut: set<string>, vlansOut: set<string>)
      requires Checkable(vpg)
      modifies this`vnToVpgMap, this`vlanToVpgMap
      ensures var fabric := Fabric(fabricVnVlanSet, fabricVnSet, fabricVlanSet);
              var r := CheckVpg(fabric, Owners(old(vnToVpgMap), old(vlanToVpgMap)), vpg);
              && localValidationFailures == r.local.localFailures
              && untaggedFabricFailures == r.local.untaggedFailures
              && acrossFabricFailures == r.across
              && Owners(vnToVpgMap, vlanToVpgMap) == r.owners
              && Fabric(pairsOut, vnsOut, vlansOut) == Merge(fabric, r.local)
    {
      var fabric := Fabric(fabricVnVlanSet, fabricVnSet, fabricVlanSet);
      var localVnSet: set<string> := {};
      var localVlanSet: set<string> := {};
      var localVnVlanSet: set<Pair> := {};
      var vnToAnnotationMap: map<string, Note> := map[];
      var vlanToAnnotationMap: map<string, Note> := map[];
      var untaggedFixed: Option<Untagged> := None;
      var annotationsSeenMap: map<string, string> := map[];
      localValidationFailures, untaggedFabricFailures, acrossFabricFailures := [], [], [];
      var vpgFqName := Last(vpg.fqName);
      ghost var kvs := vpg.annotations;
      ghost var start := VpgPass(EmptyLocal, Owners(vnToVpgMap, vlanToVpgMap), []);
      var annotations := GetAnnotationsForVpg(vpg);
      for i := 0 to |annotations|
        invariant RunDefined(EmptyLocal, kvs[..i])
        invariant VpgPass(Local(localVnSet, localVlanSet, localVnVlanSet, vnToAnnotationMap, vlanToAnnotationMap,
                                untaggedFixed, annotationsSeenMap, localValidationFailures, untaggedFabricFailures),
                          Owners(vnToVpgMap, vlanToVpgMap), acrossFabricFailures)
                  == Run(fabric, vpgFqName, vpg.uuid, start, kvs[..i])
      {
        var (annotation, vmiUuid) := annotations[i];
        assert annotation == kvs[i].key && vmiUuid == kvs[i].value;
        RunExtend(fabric, vpgFqName, vpg.uuid, start, kvs, i);
        ghost var before := Run(fabric, vpgFqName, vpg.uuid, start, kvs[..i]);
        var annotationInfoDict, untagged := ExtractAnnotationInfo(annotation, vmiUuid);

        if untagged {
          if untaggedFixed.None? {
            var untaggedVlan := annotationInfoDict[UntaggedVlanKey];
            var untaggedVmi := Split(vmiUuid, TagSeparator)[1];
            untaggedFixed := Some(Untagged(untaggedVlan, untaggedVmi));
            vlanToAnnotationMap := WriteOnce(vlanToAnnotationMap, untaggedVlan, Note(annotation, untaggedVmi));
          }
          if annotationInfoDict[UntaggedVlanKey] != untaggedFixed.value.vlan {
            untaggedFabricFailures := untaggedFabricFailures + [UntaggedFailure(
              Split(vmiUuid, TagSeparator)[1], annotationInfoDict[UntaggedVlanKey],
              untaggedFixed.value.vmi, untaggedFixed.value.vlan)];
            StepOnConflict(fabric, vpgFqName, vpg.uuid, before, annotation, vmiUuid);
            continue;
          }
        }

        assert Local(localVnSet, localVlanSet, localVnVlanSet, vnToAnnotationMap, vlanToAnnotationMap,
                     untaggedFixed, annotationsSeenMap, localValidationFailures, untaggedFabricFailures)
            == FixUntagged(before.local, annotation, vmiUuid);
        if VnKey !in annotationInfoDict || VlanKey !in annotationInfoDict {
          StepOnIncomplete(fabric, vpgFqName, vpg.uuid, before, annotation, vmiUuid);
          continue;
        }
        var vnUuid := annotationInfoDict[VnKey];
        var vlanId := annotationInfoDict[VlanKey];

        vnToVpgMap := WriteOnce(vnToVpgMap, vnUuid, Owner(vpgFqName, vpg.uuid, vmiUuid));
        vlanToVpgMap := WriteOnce(vlanToVpgMap, vlanId, Owner(vpgFqName, vpg.uuid, vmiUuid));
        vnToAnnotationMap := WriteOnce(vnToAnnotationMap, vnUuid, Note(annotation, vmiUuid));
        vlanToAnnotationMap := WriteOnce(vlanToAnnotationMap, vlanId, Note(annotation, vmiUuid));

        // Inconsistencies within the VPG
        if annotation !in annotationsSeenMap {
          annotationsSeenMap := annotationsSeenMap[annotation := vmiUuid];
          localVnVlanSet := localVnVlanSet + {(vnUuid, vlanId)};
        } else {
          localValidationFailures := localValidationFailures + [LocalFailure(
            vmiUuid, annotationsSeenMap[annotation], vnUuid, vlanId)];
          StepOnDuplicate(fabric, vpgFqName, vpg.uuid, before, annotation, vmiUuid);
          continue;
        }

        // Checks for enterprise style fabrics only
        if annotationInfoDict[ValidationKey] == Enterprise {
          if vnUuid !in localVnSet {
            localVnSet := localVnSet + {vnUuid};
          } else {
            assert (vnUuid, vlanId) in localVnVlanSet;
            localVnVlanSet := localVnVlanSet - {(vnUuid, vlanId)};
            localValidationFailures := localValidationFailures + [LocalFailure(
              vmiUuid, vnToAnnotationMap[vnUuid].vmi, vnUuid, vlanId)];
            StepOnVnReused(fabric, vpgFqName, vpg.uuid, before, annotation, vmiUuid);
            continue;
          }
          if vlanId !in localVlanSet {
            localVlanSet := localVlanSet + {vlanId};
          } else {
            assert (vnUuid, vlanId) in localVnVlanSet;
            localVnVlanSet := localVnVlanSet - {(vnUuid, vlanId)};
            localValidationFailures := localValidationFailures + [LocalFailure(
              vmiUuid, vlanToAnnotationMap[vlanId].vmi, vnUuid, vlanId)];
            StepOnVlanReused(fabric, vpgFqName, vpg.uuid, before, annotation, vmiUuid);
            continue;
          }

          // Finally, across VPGs
          StepOnAccepted(fabric, vpgFqName, vpg.uuid, before, annotation, vmiUuid);
          if (vnUuid, vlanId) in fabricVnVlanSet || (vnUuid !in fabricVnSet && vlanId !in fabricVlanSet) {
            continue;
          } else {
            var vnSeen := vnUuid in fabricVnSet;
            var vlanSeen := vlanId in fabricVlanSet;
            var vpgUsing: Owner;
            if vnSeen {
              vpgUsing := vnToVpgMap[vnUuid];
            } else if vlanSeen {
              vpgUsing := vlanToVpgMap[vlanId];
            } else {
              assert false;
            }
            acrossFabricFailures := acrossFabricFailures + [AcrossFailure(vmiUuid, vpgUsing, vnUuid, vlanId)];
          }
        } else {
          StepOnNotEnterprise(fabric, vpgFqName, vpg.uuid, before, annotation, vmiUuid);
        }
      }
      assert kvs[..|annotations|] == kvs;
      pairsOut := fabricVnVlanSet + localVnVlanSet;
      vnsOut := fabricVnSet + localVnSet;
      vlansOut := fabricVlanSet + localVlanSet;
    }

    /** The fabric loop: every VPG checked in order against the fabric sets of the VPGs
        before it, its three lists stored under its key, and the counters advanced by their lengths. */
    method ValidationCheckWithinFabric()
      requires AllCheckable(vpgs)
      modifies this`validationFailures, this`acrossFabricErrors, this`untaggedVlanErrors, this`withinVpgErrors
      modifies this`totalErrors, this`numTotalVpgs, this`vnToVpgMap, this`vlanToVpgMap
      ensures var sc := ScanAll(StartScan(Owners(old(vnToVpgMap), old(vlanToVpgMap)), old(validationFailures)), vpgs);
              && Owners(vnToVpgMap, vlanToVpgMap) == sc.owners
              && validationFailures == sc.failures
              && acrossFabricErrors == old(acrossFabricErrors) + AcrossCount(sc.reports)
              && untaggedVlanErrors == old(untaggedVlanErrors) + UntaggedCount(sc.reports)
              && withinVpgErrors == old(withinVpgErrors) + WithinVpgCount(sc.reports)
      ensures totalErrors == acrossFabricErrors + untaggedVlanErrors + withinVpgErrors
      ensures numTotalVpgs == |vpgs|
    {
      var fabricVnVlanSet: set<Pair> := {};
      var fabricVnSet: set<string> := {};
      var fabricVlanSet: set<string> := {};
      numTotalVpgs := |vpgs|;
      ghost var start := StartScan(Owners(vnToVpgMap, vlanToVpgMap), validationFailures);
      ghost var sc := start;
      ghost var across0, untagged0, within0 := acrossFabricErrors, untaggedVlanErrors, withinVpgErrors;
      for i := 0 to |vpgs|
        invariant AllCheckable(vpgs[..i]) && sc == ScanAll(start, vpgs[..i])
        invariant sc.fabric == Fabric(fabricVnVlanSet, fabricVnSet, fabricVlanSet)
        invariant sc.owners == Owners(vnToVpgMap, vlanToVpgMap) && sc.failures == validationFailures
        invariant acrossFabricErrors == across0 + AcrossCount(sc.reports)
        invariant untaggedVlanErrors == untagged0 + UntaggedCount(sc.reports)
        invariant withinVpgErrors == within0 + WithinVpgCount(sc.reports)
        invariant numTotalVpgs == |vpgs|
      {
        var vpgDict := vpgs[i];
        ScanExtend(start, vpgs, i);
        ghost var pass := CheckVpg(sc.fabric, sc.owners, vpgDict);
        var localValidationFailures, untaggedFailures, acrossFabricFailures, pairs, vns, vlans :=
          ValidationCheckWithinVpg(vpgDict, fabricVnVlanSet, fabricVnSet, fabricVlanSet);
        fabricVnVlanSet, fabricVnSet, fabricVlanSet := pairs, vns, vlans;
        acrossFabricErrors := acrossFabricErrors + |acrossFabricFailures|;
        untaggedVlanErrors := untaggedVlanErrors + |untaggedFailures|;
        withinVpgErrors := withinVpgErrors + |localValidationFailures|;
        var vpgUuid := vpgDict.uuid;
        var vpgFqName := Last(vpgDict.fqName);
        var report := Report(localValidationFailures, untaggedFailures, acrossFabricFailures);
        validationFailures := validationFailures[(vpgUuid, vpgFqName) := report];
        CountsAppend(sc.reports, report);
        sc := ScanWith(sc, vpgDict, pass);
      }
      assert vpgs[..|vpgs|] == vpgs;
      totalErrors := acrossFabricErrors + untaggedVlanErrors + withinVpgErrors;
    }

    /** The counting part of the report over all stored VPGs: `invalidVpgs` grows by the
        number of VPGs with at least one failure, whatever order the keys are visited in. */
    method ReportValidationErrorInFabric()
      modifies this`invalidVpgs
      ensures invalidVpgs == old(invalidVpgs) + |InvalidKeys(validationFailures)|
    {
      var remaining := validationFailures.Keys;
      while remaining != {}
        invariant remaining <= validationFailures.Keys
        invariant invalidVpgs == old(invalidVpgs) + |InvalidKeys(validationFailures) - remaining|
        decreases remaining
      {
        var vpg :| vpg in remaining;
        var errors := validationFailures[vpg];
        if !IsClean(errors) {
          invalidVpgs := invalidVpgs + 1;
          assert InvalidKeys(validationFailures) - (remaining - {vpg})
              == (InvalidKeys(validationFailures) - remaining) + {vpg};
        } else {
          assert InvalidKeys(validationFailures) - (remaining - {vpg})
              == InvalidKeys(validationFailures) - remaining;
        }
        remaining := remaining - {vpg};
      }
    }
  }
}
