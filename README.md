# Fabric VPG validator, modelled in Dafny

This project models `FabricVPGValidator` from `src/config/utils/fabric_vpg_validator.py`.
It is an auditor that reads every virtual port group (VPG) of a fabric and reports virtual
network (VN) and VLAN usage that breaks the fabric's rules. It reports three kinds of failure:

- a VN or VLAN reused inside one VPG;
- a second, different untagged VLAN in one VPG;
- a VN/VLAN pair that meets what the rest of the fabric uses only partially.

The model keeps the source's own structure. It has five modules:

- `Text` gives Python's `str.split` on one separator character as `Split`, and the
  substring test `pat in s` as `Contains`.
- `Annotations` gives the meaning of one annotation string plus its value string: the
  key/value map `_extract_annotation_info` builds, and its `untagged` flag.
- `VpgCheck` gives the per-VPG pass of `_validation_check_within_vpg` record by record.
  `Step` is one iteration of the loop and `Run` is the whole loop. `VerdictOf` names the
  `continue` through which a record leaves the loop body, or the end of the body.
  `StepDefined` states, path by path, what a record needs for the source not to raise:
  - an untagged record that fixes or contradicts the untagged VLAN needs a `:` in its value
    (the `split(':')[1]` lookups);
  - a complete record that reaches the enterprise check needs a `validation` key.
- `FabricScan` gives the fold of `_validation_check_within_fabric` over the VPGs:
  - the three fabric sets, threaded from VPG to VPG;
  - the fabric-wide write-once owner maps;
  - the failure lists stored under `(uuid, fq_name[-1])`;
  - the list of per-VPG reports in scan order, which the counters sum over.
- `Validator` holds the class `FabricVPGValidator`. Its fields are those of the source
  object. Its methods are the source's loops, written as `for`/`while` loops over those
  fields and over local maps and sets. Each method is proved to compute exactly what the
  functions of `VpgCheck` and `FabricScan` say.

`VpgProperties` and `FabricProperties` prove what the source promises about those
functions. Examples: the owner maps are write-once; only the first untagged record fixes
the VPG's untagged VLAN; a cross-fabric failure is raised in exactly one situation and has
a fixed attribution; the fabric sets only grow and hold only VNs and VLANs the records
name; the counters are zero exactly when no VPG is invalid. That last fact needs two
conditions: no two VPGs share a `(uuid, fq_name[-1])` key, and the stored failure map
starts empty. With a shared key the later VPG's report overwrites the earlier one.

Three behaviours of the code are worth stating on their own:

- The parser overwrites a key written twice, so the last tag wins (line 93).
- The enterprise checks only test whether the VN or the VLAN is already in the VPG's own
  sets (lines 172 and 185). Nothing else about the earlier record is compared.
- A partial match can hold when the VN and the VLAN are both in fabric use, each with
  another partner. In that case the failure names the VN's owner (lines 212-213).

## Model

| member | source | states |
|---|---|---|
| Text.Split | src/config/utils/fabric_vpg_validator.py:87 | `str.split` on one character always yields at least one piece |
| Text.SplitPieces | src/config/utils/fabric_vpg_validator.py:89-91 | no piece of a split holds the separator |
| Text.JoinSplit | src/config/utils/fabric_vpg_validator.py:89 | gluing the pieces back with the separator gives the original string |
| Text.SplitJoin | src/config/utils/fabric_vpg_validator.py:89-91 | joining separator-free pieces and splitting again gives the same pieces |
| Text.SplitCount | src/config/utils/fabric_vpg_validator.py:91-92 | a string splits into one piece more than it has separators |
| Text.SplitHead | src/config/utils/fabric_vpg_validator.py:87-88 | the first piece is the text before the first separator, or the whole string |
| Text.ContainsOccurs | src/config/utils/fabric_vpg_validator.py:85 | `Contains` holds exactly when the pattern occurs somewhere as a contiguous substring |
| Annotations.TagIffOneColon | src/config/utils/fabric_vpg_validator.py:91-92 | a segment counts as a tag exactly when it holds one `:`; segments with none, or with two or more, are ignored |
| Annotations.TagParts | src/config/utils/fabric_vpg_validator.py:91-93 | a tag is its key, `:`, then its value, and neither part holds a `:` |
| Annotations.AddTags | src/config/utils/fabric_vpg_validator.py:89-93 | reading segments never removes a key already in the map |
| Annotations.AnnotationInfo | src/config/utils/fabric_vpg_validator.py:82-94 | the map of an untagged annotation always has an `untagged_vlan` key |
| Annotations.AddTagsKeys | src/config/utils/fabric_vpg_validator.py:84-93 | a key is in the map exactly when it was seeded or some tag segment names it |
| Annotations.AddTagsLastWins | src/config/utils/fabric_vpg_validator.py:93 | the last tag with a given key decides its value |
| Annotations.AddTagsKeeps | src/config/utils/fabric_vpg_validator.py:85-93 | a key no tag names keeps its seeded value, or stays absent |
| Annotations.UntaggedVlanFromValue | src/config/utils/fabric_vpg_validator.py:85-88 | for an untagged annotation without its own `untagged_vlan` tag, the VLAN is the value's text before its first `:` |
| Annotations.InfoIgnoresValue | src/config/utils/fabric_vpg_validator.py:82-94 | every key other than `untagged_vlan` depends on the annotation string alone |
| VpgCheck.WriteOnce | src/config/utils/fabric_vpg_validator.py:140-156 | a guarded write adds the key; every key already present keeps its value; a new key gets the written value |
| VpgCheck.RunLocal | src/config/utils/fabric_vpg_validator.py:113-221 | the VPG's own state after the loop depends neither on the fabric sets nor on the owner maps |
| VpgCheck.StepOnConflict | src/config/utils/fabric_vpg_validator.py:118-132 | an untagged record whose VLAN differs from the fixed one only appends `(its uuid part, its VLAN, fixing interface, fixed VLAN)`; nothing else changes |
| VpgCheck.StepOnIncomplete | src/config/utils/fabric_vpg_validator.py:118-138 | a record without both `vn` and `vlan_id` changes nothing, except that a first untagged record fills the untagged slot and notes its VLAN unless the VLAN already has a note |
| VpgCheck.StepOwners | src/config/utils/fabric_vpg_validator.py:140-150 | a complete, non-conflicting record adds exactly its VN and VLAN to the owner maps' keys; every old entry keeps its owner; a new entry names this VPG and this record's raw value |
| VpgCheck.StepOnDuplicate | src/config/utils/fabric_vpg_validator.py:118-168 | against the old state, a repeated annotation string adds one local failure naming the value first seen for that string. The bookkeeping before the duplicate test still happens: a first untagged record fills the untagged slot and notes its VLAN unless the VLAN already has a note, and the VN and VLAN get owners and notes unless they have them. Nothing else changes: not the seen map, the three sets, the other lists or the cross-fabric list |
| VpgCheck.StepOnNotEnterprise | src/config/utils/fabric_vpg_validator.py:118-161 | against the old state, a new non-enterprise record is marked seen with its value and its pair is added. Beyond that, a first untagged record fills the untagged slot and notes its VLAN unless the VLAN already has a note, and the VN and VLAN get owners and notes unless they have them. Nothing else changes |
| VpgCheck.StepOnVnReused | src/config/utils/fabric_vpg_validator.py:118-184 | against the old state, an enterprise record whose VN is in the VPG's VN set is marked seen; its pair ends outside the pair set; one failure is added naming the interface of the VN's first note, which an existing note keeps. Beyond that, a first untagged record fills the untagged slot and notes its VLAN unless the VLAN already has a note, and the VN and VLAN get owners and notes unless they have them. Nothing else changes |
| VpgCheck.StepOnVlanReused | src/config/utils/fabric_vpg_validator.py:118-197 | against the old state, an enterprise record with a new VN but a used VLAN is marked seen; its VN joins the VN set; its pair ends outside the pair set; one failure is added naming the interface of the VLAN's first note. Beyond that, a first untagged record fills the untagged slot and notes its VLAN unless the VLAN already has a note, and the VN and VLAN get owners and notes unless they have them. Nothing else changes |
| VpgCheck.StepOnAccepted | src/config/utils/fabric_vpg_validator.py:140-221 | against the old state, an accepted record is marked seen and its pair, VN and VLAN join the VPG's sets. One cross-fabric failure is added exactly on a partial match. It names the VN's old owner when the fabric uses the VN, otherwise the VLAN's, or this record where it has just claimed the entry |
| VpgProperties.OwnersStepExtends | src/config/utils/fabric_vpg_validator.py:140-150 | one record keeps every owner entry and adds only entries naming this VPG and this record's raw value |
| VpgProperties.OwnersWriteOnce | src/config/utils/fabric_vpg_validator.py:140-150 | over a whole VPG the owner maps are write-once, and new entries name this VPG |
| VpgProperties.RunKeepsOwned | src/config/utils/fabric_vpg_validator.py:140-150 | every VN and VLAN in the VPG's own sets has a fabric-wide owner |
| VpgProperties.UntaggedStep | src/config/utils/fabric_vpg_validator.py:118-132 | a filled untagged slot never changes; an empty one is filled by the first untagged record; one untagged failure is added exactly on a conflict |
| VpgProperties.NoUntaggedRecords | src/config/utils/fabric_vpg_validator.py:118-132 | without untagged records the slot stays empty and no untagged failure is added |
| VpgProperties.UntaggedFromFirst | src/config/utils/fabric_vpg_validator.py:118-132 | the first untagged record fixes the VLAN and the interface; the number of untagged failures equals the number of untagged records with another VLAN |
| VpgProperties.UntaggedExample | src/config/utils/fabric_vpg_validator.py:118-132 | untagged VLANs x, y, x with x ≠ y (500, 600, 500) give exactly one untagged failure, and x stays fixed |
| VpgProperties.AcrossMeetsFabric | src/config/utils/fabric_vpg_validator.py:199-221 | every cross-fabric failure of a pass is a partial match, naming the VN's first owner when the fabric uses the VN and otherwise the VLAN's |
| VpgProperties.AcrossOwnerPredates | src/config/utils/fabric_vpg_validator.py:209-215 | when every VN and VLAN in fabric use already has an owner as the VPG's pass starts, each cross-fabric failure names that earlier owner (the VN's when the fabric uses the VN, else the VLAN's), never a record of this VPG |
| VpgProperties.AcrossStepIff | src/config/utils/fabric_vpg_validator.py:199-221 | a record adds a cross-fabric failure exactly when it is accepted and its pair meets the fabric only partially; otherwise it adds none |
| VpgProperties.NoCollisionWhenFresh | src/config/utils/fabric_vpg_validator.py:200-203 | against empty fabric sets no cross-fabric failure is ever added |
| VpgProperties.LocalSetsStep | src/config/utils/fabric_vpg_validator.py:158-197 | the effect of each exit on the local VN, VLAN and pair sets, including that a reused VLAN leaves the VN in the VN set |
| VpgProperties.NonEnterpriseKeepsSets | src/config/utils/fabric_vpg_validator.py:171-197 | records that are not enterprise never touch the local VN and VLAN sets and add no cross-fabric failure |
| VpgProperties.SeenStep | src/config/utils/fabric_vpg_validator.py:158-168 | one record keeps the seen map or enters its new annotation string with its value; it adds a local failure only through the three reuse exits |
| VpgProperties.SeenFirstUse | src/config/utils/fabric_vpg_validator.py:158-168 | the seen map is write-once, and each new entry holds the value of the first record with that annotation string to reach the duplicate test (complete, no untagged conflict, string not yet seen), the one later duplicates are reported against |
| VpgProperties.DistinctNonEnterprise | src/config/utils/fabric_vpg_validator.py:158-197 | non-enterprise records with pairwise different annotation strings produce no local failure |
| VpgProperties.LoneEnterpriseRecord | src/config/utils/fabric_vpg_validator.py:140-221 | a VPG whose only record is a non-untagged enterprise one holds exactly its VN, VLAN and pair, has no local or untagged failure, claims VN and VLAN unless owned, and has a cross-fabric failure exactly on a partial match |
| VpgProperties.LocalSetsNamed | src/config/utils/fabric_vpg_validator.py:158-197 | the VPG's VN and VLAN sets gain only VNs and VLANs named by its complete records |
| VpgProperties.NoCollisionWhenDisjoint | src/config/utils/fabric_vpg_validator.py:199-221 | a VPG none of whose named VNs and VLANs is in fabric use gets no cross-fabric failure |
| FabricScan.CountsAppend | src/config/utils/fabric_vpg_validator.py:245-247 | each counter grows by the length of the matching list of the next report |
| FabricProperties.FabricSetsOnlyGrow | src/config/utils/fabric_vpg_validator.py:223-225 | the fabric sets after any prefix of the VPGs are contained in those after all of them |
| FabricProperties.ScanOwnersWriteOnce | src/config/utils/fabric_vpg_validator.py:140-150 | across the fabric loop the owner maps are write-once, and each new entry names one of the VPGs read |
| FabricProperties.FabricOwned | src/config/utils/fabric_vpg_validator.py:209-215 | every VN and VLAN in the fabric sets already has an owner when the next VPG is read, which is what `AcrossOwnerPredates` needs |
| FabricProperties.ReportsPrefix | src/config/utils/fabric_vpg_validator.py:236-255 | there is one report per VPG, in scan order, and the reports after a prefix of the VPGs are a prefix of all reports |
| FabricProperties.StoredUnderKey | src/config/utils/fabric_vpg_validator.py:248-255 | a VPG's report is stored under `(uuid, fq_name[-1])` unless a later VPG has the same key |
| FabricProperties.NoErrorsIffAllClean | src/config/utils/fabric_vpg_validator.py:245-259 | the counters sum to zero exactly when every report is clean |
| FabricProperties.FailuresFromReports | src/config/utils/fabric_vpg_validator.py:251-255 | every stored entry was there before the loop or is one of the reports the loop made |
| FabricProperties.CleanScanHasNoInvalid | src/config/utils/fabric_vpg_validator.py:374-381 | when the stored map starts without invalid entries, zero total errors means no stored VPG is invalid |
| FabricProperties.InvalidIffErrors | src/config/utils/fabric_vpg_validator.py:374-381 | when no two VPGs share a `(uuid, fq_name[-1])` key and the stored map starts empty, zero total errors holds exactly when no VPG is invalid |
| FabricProperties.FirstVpgNoAcross | src/config/utils/fabric_vpg_validator.py:232-243 | the first VPG is checked against empty fabric sets, so it never has a cross-fabric failure |
| FabricProperties.FabricSetsNamed | src/config/utils/fabric_vpg_validator.py:223-225 | every VN and VLAN in the fabric sets after the loop was there before or is named by a record of some VPG read |
| FabricProperties.NoSharingNoAcross | src/config/utils/fabric_vpg_validator.py:199-225 | when no VN and no VLAN is named by two different VPGs, the cross-fabric counter stays zero |
| FabricProperties.ScanLone | src/config/utils/fabric_vpg_validator.py:232-255 | the fabric loop step over a one-record enterprise VPG adds its VN, VLAN and pair to the fabric sets and appends a report holding only the cross-fabric failure its pair may cause |
| FabricProperties.SecondBlamesFirst | src/config/utils/fabric_vpg_validator.py:199-221 | of two one-record VPGs with the same VN and different VLANs, the first is clean and the second gets the one cross-fabric failure, naming the first as owner |
| FabricProperties.OrderDecidesBlame | src/config/utils/fabric_vpg_validator.py:199-255 | the same two VPGs read in the other order put the failure on the other VPG: the outcome depends on scan order |
| Validator.FabricVPGValidator.constructor | src/config/utils/fabric_vpg_validator.py:52-63 | the object starts with the store's VPG list, empty maps and zero counters |
| Validator.FabricVPGValidator.GetAnnotationsForVpg | src/config/utils/fabric_vpg_validator.py:72-79 | the pairs are the VPG's key/value records, in order |
| Validator.FabricVPGValidator.ExtractAnnotationInfo | src/config/utils/fabric_vpg_validator.py:82-94 | the flag is the substring test for `untagged_vlan_id`; the map is `AnnotationInfo` |
| Validator.FabricVPGValidator.ValidationCheckWithinVpg | src/config/utils/fabric_vpg_validator.py:97-228 | the three lists and the new owner maps are those of `CheckVpg`; the returned sets are the input sets joined with the VPG's own |
| Validator.FabricVPGValidator.ValidationCheckWithinFabric | src/config/utils/fabric_vpg_validator.py:231-259 | the owner maps and stored failures are those of `ScanAll`; each counter grows by the sum of its list lengths; `total_errors` is their sum; the VPG count is the list length |
| Validator.FabricVPGValidator.ReportValidationErrorInFabric | src/config/utils/fabric_vpg_validator.py:374-381 | `invalid_vpgs` grows by the number of stored VPGs with at least one failure, whatever order the keys are visited in |

## Left out

- Construction of `VncApi`, and the `virtual_port_groups_list` and
  `virtual_machine_interface_read` calls. These are calls to a remote configuration store.
  The VPG list is a constructor parameter, each VPG a uuid, an fq_name and its key/value
  records.
- Logging setup, debug and info messages, and the message builders of `_report_within_vpg_errors`,
  `_report_across_fabric_errors` and `_report_untagged_vlan_errors`: output formatting that
  resolves display names through the store.
- `_report_statistics`: floating-point percentages and printing. Its last division by
  `_num_total_vpgs` has no guard for an empty fabric.
- `_parse_args`, `main` and the JSON dump: command-line handling and file I/O.
- `src/vnsw/agent/diag/diag_table.h` is not part of this model. It holds only declarations
  around timers, work queues and packet handlers.
- Validator.FabricVPGValidator.constructor: `total_errors` and `_num_total_vpgs` do not exist
  in the source until the fabric loop sets them; the model starts them at zero.
- Validator.FabricVPGValidator.ValidationCheckWithinVpg: a record that makes the source raise
  is excluded by a precondition (`Checkable`), not modelled as an exception. The uncaught
  lookups are `validation` at line 171 and `split(':')[1]` at lines 121 and 127. On the
  enterprise branch the unreachable `vpg_using` fall-through of line 214 is proved dead.
- Validator.FabricVPGValidator.ValidationCheckWithinFabric: an empty `fq_name` (`fq_name[-1]`
  at lines 111 and 250) is likewise a precondition.
- Validator.FabricVPGValidator.ReportValidationErrorInFabric: models only the count of
  invalid VPGs, not the messages, because the messages need names from the store.
- `_get_annotations_for_vpg` raises `KeyError` for a VPG without an `annotations` entry
  (line 74). The `Vpg` type always carries a list of records, so it cannot express that case.
- Python's separate `untagged_vlan` and `untagged_vmi` variables are set together (lines
  119-121). The model keeps them as one optional value.
