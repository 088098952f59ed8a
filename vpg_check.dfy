/** The per-VPG pass of `_validation_check_within_vpg`, stated record by record as
    functions. `Step` is one iteration of the loop over a VPG's annotations and `Run`
    the whole loop; the class in module Validator is proved to compute exactly this. */
module VpgCheck {
  import opened Text
  import opened Annotations

  datatype Option<T> = None | Some(value: T)

  const VnKey: string := "vn"
  const VlanKey: string := "vlan_id"
  const ValidationKey: string := "validation"
  const Enterprise: string := "enterprise"

  /** One entry of a VPG's `annotations.key_value_pair` list: the annotation string and the
      interface value attached to it. */
  datatype KeyValuePair = KeyValuePair(key: string, value: string)

  /** A virtual port group as the configuration store hands it over. */
  datatype Vpg = Vpg(uuid: string, fqName: seq<string>, annotations: seq<KeyValuePair>)

  type Pair = (string, string)

  /** A fabric-wide first owner of a VN or VLAN: VPG name, VPG uuid, interface value. */
  datatype Owner = Owner(vpgName: string, vpgUuid: string, vmi: string)

  /** A VN or VLAN reused inside one VPG: this interface, the interface that had it first, VN, VLAN. */
  datatype LocalFailure = LocalFailure(vmi: string, otherVmi: string, vn: string, vlan: string)

  /** A second untagged VLAN in one VPG: this interface and its VLAN, then the fixing interface and VLAN. */
  datatype UntaggedFailure = UntaggedFailure(vmi: string, vlan: string, fixingVmi: string, fixingVlan: string)

  /** A VN or VLAN used elsewhere in the fabric with a different partner. */
  datatype AcrossFailure = AcrossFailure(vmi: string, owner: Owner, vn: string, vlan: string)

  /** The untagged VLAN a VPG settled on and the interface that set it. */
  datatype Untagged = Untagged(vlan: string, vmi: string)

  /** An entry of the per-VPG maps `vn_to_annotation_map` and `vlan_to_annotation_map`. */
  datatype Note = Note(annotation: string, vmi: string)

  /** The three fabric-wide sets threaded from VPG to VPG. */
  datatype Fabric = Fabric(pairs: set<Pair>, vns: set<string>, vlans: set<string>)

  /** The object's write-once maps `vn_to_vpg_map` and `vlan_to_vpg_map`. */
  datatype Owners = Owners(vn: map<string, Owner>, vlan: map<string, Owner>)

  /** Everything the pass keeps that belongs to the one VPG. */
  datatype Local = Local(
    vnSet: set<string>,
    vlanSet: set<string>,
    pairSet: set<Pair>,
    vnNotes: map<string, Note>,
    vlanNotes: map<string, Note>,
    untagged: Option<Untagged>,
    seen: map<string, string>,
    localFailures: seq<LocalFailure>,
    untaggedFailures: seq<UntaggedFailure>)

  const EmptyLocal: Local := Local({}, {}, {}, map[], map[], None, map[], [], [])

  const EmptyFabric: Fabric := Fabric({}, {}, {})

  /** The whole state of one pass: its own part, the object's owner maps, the cross-fabric list. */
  datatype VpgPass = VpgPass(local: Local, owners: Owners, across: seq<AcrossFailure>)

  function Last<T>(s: seq<T>): T
    requires |s| > 0
  {
    s[|s| - 1]
  }

  /** `m` with `k` bound to `v` unless `k` already had a value. */
  function WriteOnce<K, V>(m: map<K, V>, k: K, v: V): (r: map<K, V>)
    ensures r.Keys == m.Keys + {k}
    ensures forall j :: j in m ==> r[j] == m[j]
    ensures k !in m ==> r[k] == v
  {
    if k in m then m else m[k := v]
  }

  /** Every key of `m` is still in `m'`, with the same value. */
  predicate Extends<K, V(==)>(m: map<K, V>, m': map<K, V>)
  {
    forall k :: k in m ==> k in m' && m'[k] == m[k]
  }

  /** `vmi.split(':')` has a second part. */
  predicate HasUuidPart(vmi: string)
  {
    |Split(vmi, TagSeparator)| >= 2
  }

  /** `vmi.split(':')[1]`, the interface uuid inside an untagged record's value. */
  function UuidPart(vmi: string): string
    requires HasUuidPart(vmi)
  {
    Split(vmi, TagSeparator)[1]
  }

  predicate Complete(info: map<string, string>)
  {
    VnKey in info && VlanKey in info
  }

  /** An untagged record whose VLAN differs from the one the VPG already settled on. */
  predicate Conflicts(l: Local, annotation: string, vmi: string)
  {
    IsUntagged(annotation) && l.untagged.Some?
    && AnnotationInfo(annotation, vmi)[UntaggedVlanKey] != l.untagged.value.vlan
  }

  /** The record gets as far as reading `validation`. */
  predicate ReachesModeCheck(l: Local, annotation: string, vmi: string)
  {
    !Conflicts(l, annotation, vmi) && Complete(AnnotationInfo(annotation, vmi)) && annotation !in l.seen
  }

  /** The record does not make the source raise: an untagged record that sets or
      contradicts the VPG's untagged VLAN has a uuid part in its value, and a record
      that gets as far as the mode check has a `validation` key. */
  predicate StepDefined(l: Local, annotation: string, vmi: string)
  {
    && (IsUntagged(annotation) && (l.untagged.None? || Conflicts(l, annotation, vmi)) ==> HasUuidPart(vmi))
    && (ReachesModeCheck(l, annotation, vmi) ==> ValidationKey in AnnotationInfo(annotation, vmi))
  }

  /** Where the loop body leaves a record: at which `continue`, or at its end. */
  datatype Verdict =
    | UntaggedConflict
    | Incomplete
    | DuplicateAnnotation
    | NotEnterprise
    | VnReused
    | VlanReused
    | Accepted

  function VerdictOf(l: Local, annotation: string, vmi: string): Verdict
    requires StepDefined(l, annotation, vmi)
  {
    var info := AnnotationInfo(annotation, vmi);
    if Conflicts(l, annotation, vmi) then UntaggedConflict
    else if !Complete(info) then Incomplete
    else if annotation in l.seen then DuplicateAnnotation
    else if info[ValidationKey] != Enterprise then NotEnterprise
    else if info[VnKey] in l.vnSet then VnReused
    else if info[VlanKey] in l.vlanSet then VlanReused
    else Accepted
  }

  /** The first untagged record settles the VPG's untagged VLAN and, if that VLAN has no
      note yet, notes it under the record's uuid part. */
  function FixUntagged(l: Local, annotation: string, vmi: string): Local
    requires IsUntagged(annotation) && l.untagged.None? ==> HasUuidPart(vmi)
  {
    if IsUntagged(annotation) && l.untagged.None? then
      var vlan := AnnotationInfo(annotation, vmi)[UntaggedVlanKey];
      var who := UuidPart(vmi);
      l.(untagged := Some(Untagged(vlan, who)), vlanNotes := WriteOnce(l.vlanNotes, vlan, Note(annotation, who)))
    else l
  }

  /** A complete record notes its VN and VLAN unless they already have a note. */
  function Remember(l: Local, annotation: string, vmi: string, vn: string, vlan: string): Local
  {
    l.(vnNotes := WriteOnce(l.vnNotes, vn, Note(annotation, vmi)),
       vlanNotes := WriteOnce(l.vlanNotes, vlan, Note(annotation, vmi)))
  }

  /** A new annotation string is marked seen and its pair added. */
  function Admit(l: Local, annotation: string, vmi: string, vn: string, vlan: string): Local
  {
    l.(seen := l.seen[annotation := vmi], pairSet := l.pairSet + {(vn, vlan)})
  }

  /** One iteration of the loop, on the VPG's own state. */
  function LocalStep(l: Local, annotation: string, vmi: string): Local
    requires StepDefined(l, annotation, vmi)
  {
    var info := AnnotationInfo(annotation, vmi);
    var l1 := FixUntagged(l, annotation, vmi);
    match VerdictOf(l, annotation, vmi)
    case UntaggedConflict =>
      l1.(untaggedFailures := l1.untaggedFailures
            + [UntaggedFailure(UuidPart(vmi), info[UntaggedVlanKey], l1.untagged.value.vmi, l1.untagged.value.vlan)])
    case Incomplete => l1
    case DuplicateAnnotation =>
      var vn, vlan := info[VnKey], info[VlanKey];
      var l2 := Remember(l1, annotation, vmi, vn, vlan);
      l2.(localFailures := l2.localFailures + [LocalFailure(vmi, l2.seen[annotation], vn, vlan)])
    case NotEnterprise =>
      var vn, vlan := info[VnKey], info[VlanKey];
      Admit(Remember(l1, annotation, vmi, vn, vlan), annotation, vmi, vn, vlan)
    case VnReused =>
      var vn, vlan := info[VnKey], info[VlanKey];
      var l3 := Admit(Remember(l1, annotation, vmi, vn, vlan), annotation, vmi, vn, vlan);
      l3.(pairSet := l3.pairSet - {(vn, vlan)},
          localFailures := l3.localFailures + [LocalFailure(vmi, l3.vnNotes[vn].vmi, vn, vlan)])
    case VlanReused =>
      var vn, vlan := info[VnKey], info[VlanKey];
      var l3 := Admit(Remember(l1, annotation, vmi, vn, vlan), annotation, vmi, vn, vlan);
      l3.(vnSet := l3.vnSet + {vn},
          pairSet := l3.pairSet - {(vn, vlan)},
          localFailures := l3.localFailures + [LocalFailure(vmi, l3.vlanNotes[vlan].vmi, vn, vlan)])
    case Accepted =>
      var vn, vlan := info[VnKey], info[VlanKey];
      var l3 := Admit(Remember(l1, annotation, vmi, vn, vlan), annotation, vmi, vn, vlan);
      l3.(vnSet := l3.vnSet + {vn}, vlanSet := l3.vlanSet + {vlan})
  }

  /** Every complete record that is not an untagged conflict claims its VN and VLAN in the
      object's owner maps, unless someone already has. */
  function OwnersStep(o: Owners, l: Local, name: string, uuid: string, annotation: string, vmi: string): Owners
  {
    var info := AnnotationInfo(annotation, vmi);
    if !Conflicts(l, annotation, vmi) && Complete(info) then
      Owners(WriteOnce(o.vn, info[VnKey], Owner(name, uuid, vmi)),
             WriteOnce(o.vlan, info[VlanKey], Owner(name, uuid, vmi)))
    else o
  }

  /** The pair meets the fabric only partially: not as an exact pair, but its VN or its
      VLAN is already in fabric-wide use. */
  predicate PartialMatch(fabric: Fabric, vn: string, vlan: string)
  {
    !((vn, vlan) in fabric.pairs || (vn !in fabric.vns && vlan !in fabric.vlans))
  }

  /** The cross-fabric failure an accepted record adds, if any; `o` holds the owner maps
      after this record's own bookkeeping. */
  function AcrossStep(fabric: Fabric, o: Owners, l: Local, annotation: string, vmi: string): seq<AcrossFailure>
    requires StepDefined(l, annotation, vmi)
    requires VerdictOf(l, annotation, vmi) == Accepted ==>
               AnnotationInfo(annotation, vmi)[VnKey] in o.vn && AnnotationInfo(annotation, vmi)[VlanKey] in o.vlan
  {
    var info := AnnotationInfo(annotation, vmi);
    if VerdictOf(l, annotation, vmi) == Accepted && PartialMatch(fabric, info[VnKey], info[VlanKey]) then
      var vn, vlan := info[VnKey], info[VlanKey];
      [AcrossFailure(vmi, if vn in fabric.vns then o.vn[vn] else o.vlan[vlan], vn, vlan)]
    else []
  }

  /** One iteration of the loop over the annotations of the VPG named `name` with uuid `uuid`. */
  function Step(fabric: Fabric, name: string, uuid: string, s: VpgPass, annotation: string, vmi: string): VpgPass
    requires StepDefined(s.local, annotation, vmi)
  {
    var owners := OwnersStep(s.owners, s.local, name, uuid, annotation, vmi);
    VpgPass(LocalStep(s.local, annotation, vmi), owners,
            s.across + AcrossStep(fabric, owners, s.local, annotation, vmi))
  }

  /** No record of `kvs` makes the source raise when the pass starts from `l`. */
  predicate RunDefined(l: Local, kvs: seq<KeyValuePair>)
    decreases |kvs|, 0
  {
    kvs == [] ||
    (RunDefined(l, kvs[..|kvs| - 1]) && StepDefined(LocalRun(l, kvs[..|kvs| - 1]), Last(kvs).key, Last(kvs).value))
  }

  /** The VPG's own state after the loop has read `kvs`. */
  function LocalRun(l: Local, kvs: seq<KeyValuePair>): Local
    requires RunDefined(l, kvs)
    decreases |kvs|, 1
  {
    if kvs == [] then l
    else LocalStep(LocalRun(l, kvs[..|kvs| - 1]), Last(kvs).key, Last(kvs).value)
  }

  /** The whole state after the loop has read `kvs`. */
  function Run(fabric: Fabric, name: string, uuid: string, s: VpgPass, kvs: seq<KeyValuePair>): VpgPass
    requires RunDefined(s.local, kvs)
    decreases |kvs|, 1
  {
    if kvs == [] then s else RunLast(fabric, name, uuid, s, kvs)
  }

  /** The loop over a non-empty list: all records but the last, then one `Step` for the last. */
  function RunLast(fabric: Fabric, name: string, uuid: string, s: VpgPass, kvs: seq<KeyValuePair>): VpgPass
    requires RunDefined(s.local, kvs) && kvs != []
    decreases |kvs|, 0
  {
    var init := kvs[..|kvs| - 1];
    RunLocal(fabric, name, uuid, s, init);
    Step(fabric, name, uuid, Run(fabric, name, uuid, s, init), Last(kvs).key, Last(kvs).value)
  }

  /** The pass's own part does not depend on the fabric sets or on the owner maps: it is
      the local pass alone. */
  lemma {:induction false} RunLocal(fabric: Fabric, name: string, uuid: string, s: VpgPass, kvs: seq<KeyValuePair>)
    requires RunDefined(s.local, kvs)
    ensures Run(fabric, name, uuid, s, kvs).local == LocalRun(s.local, kvs)
    decreases |kvs|
  {
    if kvs != [] {
      RunLocal(fabric, name, uuid, s, kvs[..|kvs| - 1]);
    }
  }

  /** What the source needs of a VPG to check it: a non-empty fq_name and no raising record. */
  predicate Checkable(vpg: Vpg)
  {
    |vpg.fqName| > 0 && RunDefined(EmptyLocal, vpg.annotations)
  }

  /** The pass over one VPG, starting from empty local state. */
  function CheckVpg(fabric: Fabric, owners: Owners, vpg: Vpg): VpgPass
    requires Checkable(vpg)
  {
    Run(fabric, Last(vpg.fqName), vpg.uuid, VpgPass(EmptyLocal, owners, []), vpg.annotations)
  }

  /** The fabric sets after a VPG: exactly the old ones joined with the VPG's own. */
  function Merge(fabric: Fabric, l: Local): Fabric
  {
    Fabric(fabric.pairs + l.pairSet, fabric.vns + l.vnSet, fabric.vlans + l.vlanSet)
  }

  /** A pass that does not raise on a list does not raise on any prefix of it. */
  lemma {:induction false} RunDefinedPrefix(l: Local, kvs: seq<KeyValuePair>, n: nat)
    requires RunDefined(l, kvs) && n <= |kvs|
    ensures RunDefined(l, kvs[..n])
    decreases |kvs|
  {
    if n < |kvs| {
      RunDefinedPrefix(l, kvs[..|kvs| - 1], n);
      assert kvs[..|kvs| - 1][..n] == kvs[..n];
    } else {
      assert kvs[..n] == kvs;
    }
  }

  /** The loop over a non-empty list is the loop over all but its last record, then one `Step`. */
  lemma RunSnoc(fabric: Fabric, name: string, uuid: string, s: VpgPass, kvs: seq<KeyValuePair>)
    requires RunDefined(s.local, kvs) && kvs != []
    ensures RunDefined(s.local, kvs[..|kvs| - 1])
    ensures StepDefined(Run(fabric, name, uuid, s, kvs[..|kvs| - 1]).local, Last(kvs).key, Last(kvs).value)
    ensures Run(fabric, name, uuid, s, kvs)
            == Step(fabric, name, uuid, Run(fabric, name, uuid, s, kvs[..|kvs| - 1]), Last(kvs).key, Last(kvs).value)
  {
    RunLocal(fabric, name, uuid, s, kvs[..|kvs| - 1]);
  }

  /** `RunSnoc` at a position of a longer list: reading one more record of a list the pass
      does not raise on is one more `Step`. */
  lemma RunExtend(fabric: Fabric, name: string, uuid: string, s: VpgPass, kvs: seq<KeyValuePair>, i: nat)
    requires RunDefined(s.local, kvs) && i < |kvs|
    ensures RunDefined(s.local, kvs[..i]) && RunDefined(s.local, kvs[..i + 1])
    ensures StepDefined(Run(fabric, name, uuid, s, kvs[..i]).local, kvs[i].key, kvs[i].value)
    ensures Run(fabric, name, uuid, s, kvs[..i + 1])
            == Step(fabric, name, uuid, Run(fabric, name, uuid, s, kvs[..i]), kvs[i].key, kvs[i].value)
  {
    RunDefinedPrefix(s.local, kvs, i + 1);
    assert kvs[..i + 1][..i] == kvs[..i];
    RunSnoc(fabric, name, uuid, s, kvs[..i + 1]);
  }

  /** A conflicting untagged record only adds an untagged failure against the fixing record. */
  lemma StepOnConflict(fabric: Fabric, name: string, uuid: string, s: VpgPass, annotation: string, vmi: string)
    requires StepDefined(s.local, annotation, vmi) && Conflicts(s.local, annotation, vmi)
    ensures var l := s.local;
            Step(fabric, name, uuid, s, annotation, vmi)
            == s.(local := l.(untaggedFailures := l.untaggedFailures
                   + [UntaggedFailure(UuidPart(vmi), AnnotationInfo(annotation, vmi)[UntaggedVlanKey],
                                      l.untagged.value.vmi, l.untagged.value.vlan)]))
  {
  }

  /** A record without both a VN and a VLAN only settles the untagged VLAN, if it is the first untagged one. */
  lemma StepOnIncomplete(fabric: Fabric, name: string, uuid: string, s: VpgPass, annotation: string, vmi: string)
    requires StepDefined(s.local, annotation, vmi) && !Conflicts(s.local, annotation, vmi)
    requires !Complete(AnnotationInfo(annotation, vmi))
    ensures Step(fabric, name, uuid, s, annotation, vmi) == s.(local := FixUntagged(s.local, annotation, vmi))
  {
  }

  /** The pass after the bookkeeping every complete record that is not an untagged conflict
      does before the duplicate check: the first untagged record settles the untagged slot,
      and the VN and the VLAN each get an owner and a note naming this record unless they
      already have one. Nothing else changes. */
  function Recorded(s: VpgPass, name: string, uuid: string, annotation: string, vmi: string): VpgPass
    requires IsUntagged(annotation) && s.local.untagged.None? ==> HasUuidPart(vmi)
    requires Complete(AnnotationInfo(annotation, vmi))
  {
    var info := AnnotationInfo(annotation, vmi);
    var vn, vlan := info[VnKey], info[VlanKey];
    var fixed := FixUntagged(s.local, annotation, vmi);
    var who := Owner(name, uuid, vmi);
    s.(owners := Owners(WriteOnce(s.owners.vn, vn, who), WriteOnce(s.owners.vlan, vlan, who)),
       local := fixed.(vnNotes := WriteOnce(fixed.vnNotes, vn, Note(annotation, vmi)),
                       vlanNotes := WriteOnce(fixed.vlanNotes, vlan, Note(annotation, vmi))))
  }

  /** A complete record that is not a conflict claims its VN and its VLAN for this VPG and
      its raw value where nobody owns them yet; every other owner entry stays as it was. */
  lemma StepOwners(fabric: Fabric, name: string, uuid: string, s: VpgPass, annotation: string, vmi: string)
    requires StepDefined(s.local, annotation, vmi) && !Conflicts(s.local, annotation, vmi)
    requires Complete(AnnotationInfo(annotation, vmi))
    ensures var info := AnnotationInfo(annotation, vmi);
            var vn, vlan := info[VnKey], info[VlanKey];
            var o := Step(fabric, name, uuid, s, annotation, vmi).owners;
            && o.vn.Keys == s.owners.vn.Keys + {vn} && o.vlan.Keys == s.owners.vlan.Keys + {vlan}
            && Extends(s.owners.vn, o.vn) && Extends(s.owners.vlan, o.vlan)
            && (vn !in s.owners.vn ==> o.vn[vn] == Owner(name, uuid, vmi))
            && (vlan !in s.owners.vlan ==> o.vlan[vlan] == Owner(name, uuid, vmi))
  {
  }

  /** A complete record whose annotation string was seen before changes nothing beyond the
      bookkeeping except that it adds one local failure naming the value first recorded for
      that string: the VPG's sets, the seen map and the cross-fabric list stay as they were. */
  lemma StepOnDuplicate(fabric: Fabric, name: string, uuid: string, s: VpgPass, annotation: string, vmi: string)
    requires StepDefined(s.local, annotation, vmi) && !Conflicts(s.local, annotation, vmi)
    requires Complete(AnnotationInfo(annotation, vmi)) && annotation in s.local.seen
    ensures var info := AnnotationInfo(annotation, vmi);
            var vn, vlan := info[VnKey], info[VlanKey];
            var l, b := s.local, Recorded(s, name, uuid, annotation, vmi);
            Step(fabric, name, uuid, s, annotation, vmi)
            == b.(local := b.local.(localFailures := l.localFailures + [LocalFailure(vmi, l.seen[annotation], vn, vlan)]))
  {
  }

  /** A new annotation string in a non-enterprise record changes nothing beyond the
      bookkeeping except that the string is marked seen with its value and its pair is added:
      the VN and VLAN sets and all three failure lists stay as they were. */
  lemma StepOnNotEnterprise(fabric: Fabric, name: string, uuid: string, s: VpgPass, annotation: string, vmi: string)
    requires StepDefined(s.local, annotation, vmi) && !Conflicts(s.local, annotation, vmi)
    requires Complete(AnnotationInfo(annotation, vmi)) && annotation !in s.local.seen
    requires AnnotationInfo(annotation, vmi)[ValidationKey] != Enterprise
    ensures var info := AnnotationInfo(annotation, vmi);
            var vn, vlan := info[VnKey], info[VlanKey];
            var l, b := s.local, Recorded(s, name, uuid, annotation, vmi);
            Step(fabric, name, uuid, s, annotation, vmi)
            == b.(local := b.local.(seen := l.seen[annotation := vmi], pairSet := l.pairSet + {(vn, vlan)}))
  {
  }

  /** An enterprise record whose VN the VPG already uses is marked seen, leaves its pair out
      of the pair set and adds one local failure naming the interface of the VN's note, which
      is the note from before the record when there was one; the VN and VLAN sets and the
      cross-fabric list stay as they were. */
  lemma StepOnVnReused(fabric: Fabric, name: string, uuid: string, s: VpgPass, annotation: string, vmi: string)
    requires StepDefined(s.local, annotation, vmi) && !Conflicts(s.local, annotation, vmi)
    requires Complete(AnnotationInfo(annotation, vmi)) && annotation !in s.local.seen
    requires AnnotationInfo(annotation, vmi)[ValidationKey] == Enterprise
    requires AnnotationInfo(annotation, vmi)[VnKey] in s.local.vnSet
    ensures var info := AnnotationInfo(annotation, vmi);
            var vn, vlan := info[VnKey], info[VlanKey];
            var l, b := s.local, Recorded(s, name, uuid, annotation, vmi);
            && (vn in l.vnNotes ==> b.local.vnNotes[vn] == l.vnNotes[vn])
            && Step(fabric, name, uuid, s, annotation, vmi)
               == b.(local := b.local.(seen := l.seen[annotation := vmi], pairSet := (l.pairSet + {(vn, vlan)}) - {(vn, vlan)},
                                      localFailures := l.localFailures + [LocalFailure(vmi, b.local.vnNotes[vn].vmi, vn, vlan)]))
  {
  }

  /** An enterprise record with a new VN but a VLAN the VPG already uses is marked seen,
      keeps its VN in the VN set, leaves its pair out of the pair set and adds one local
      failure naming the interface of the VLAN's note, which is the note from before the
      record when there was one; the VLAN set and the cross-fabric list stay as they were. */
  lemma StepOnVlanReused(fabric: Fabric, name: string, uuid: string, s: VpgPass, annotation: string, vmi: string)
    requires StepDefined(s.local, annotation, vmi) && !Conflicts(s.local, annotation, vmi)
    requires Complete(AnnotationInfo(annotation, vmi)) && annotation !in s.local.seen
    requires AnnotationInfo(annotation, vmi)[ValidationKey] == Enterprise
    requires AnnotationInfo(annotation, vmi)[VnKey] !in s.local.vnSet
    requires AnnotationInfo(annotation, vmi)[VlanKey] in s.local.vlanSet
    ensures var info := AnnotationInfo(annotation, vmi);
            var vn, vlan := info[VnKey], info[VlanKey];
            var l, b := s.local, Recorded(s, name, uuid, annotation, vmi);
            && (vlan in l.vlanNotes ==> b.local.vlanNotes[vlan] == l.vlanNotes[vlan])
            && Step(fabric, name, uuid, s, annotation, vmi)
               == b.(local := b.local.(seen := l.seen[annotation := vmi], pairSet := (l.pairSet + {(vn, vlan)}) - {(vn, vlan)},
                                      vnSet := l.vnSet + {vn},
                                      localFailures := l.localFailures + [LocalFailure(vmi, b.local.vlanNotes[vlan].vmi, vn, vlan)]))
  {
  }

  /** An accepted enterprise record is marked seen and adds its VN, its VLAN and its pair;
      no local failure is added. It adds one cross-fabric failure exactly when its pair meets
      the fabric only partially: the failure names the VN's first owner when the fabric uses
      the VN, otherwise the VLAN's, and that owner is this record when it has just claimed
      the entry. */
  lemma StepOnAccepted(fabric: Fabric, name: string, uuid: string, s: VpgPass, annotation: string, vmi: string)
    requires StepDefined(s.local, annotation, vmi) && !Conflicts(s.local, annotation, vmi)
    requires Complete(AnnotationInfo(annotation, vmi)) && annotation !in s.local.seen
    requires AnnotationInfo(annotation, vmi)[ValidationKey] == Enterprise
    requires AnnotationInfo(annotation, vmi)[VnKey] !in s.local.vnSet
    requires AnnotationInfo(annotation, vmi)[VlanKey] !in s.local.vlanSet
    ensures var info := AnnotationInfo(annotation, vmi);
            var vn, vlan := info[VnKey], info[VlanKey];
            var l, b := s.local, Recorded(s, name, uuid, annotation, vmi);
            var who := Owner(name, uuid, vmi);
            var byVn := if vn in s.owners.vn then s.owners.vn[vn] else who;
            var byVlan := if vlan in s.owners.vlan then s.owners.vlan[vlan] else who;
            Step(fabric, name, uuid, s, annotation, vmi)
            == b.(local := b.local.(seen := l.seen[annotation := vmi], pairSet := l.pairSet + {(vn, vlan)},
                                   vnSet := l.vnSet + {vn}, vlanSet := l.vlanSet + {vlan}),
                  across := s.across + if PartialMatch(fabric, vn, vlan)
                                       then [AcrossFailure(vmi, if vn in fabric.vns then byVn else byVlan, vn, vlan)]
                                       else [])
  {
  }
}
