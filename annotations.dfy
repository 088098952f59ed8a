/** The meaning of one VPG annotation: the key and value map that
    `_extract_annotation_info` builds from an annotation string and the value
    string attached to it, and the untagged flag it returns beside the map. */
module Annotations {
  import opened Text

  /** The marker whose presence anywhere in an annotation makes it untagged. */
  const UntaggedMarker: string := "untagged_vlan_id"
  /** The key under which an untagged annotation's VLAN is stored. */
  const UntaggedVlanKey: string := "untagged_vlan"
  /** A segment is a tag when it splits into exactly this many parts. */
  const SplitSize: nat := 2
  const SegmentSeparator: char := '/'
  const TagSeparator: char := ':'

  predicate IsUntagged(annotation: string)
  {
    Contains(annotation, UntaggedMarker)
  }

  /** A `/`-segment that splits on `:` into exactly a key and a value. */
  predicate IsTag(segment: string)
  {
    |Split(segment, TagSeparator)| == SplitSize
  }

  /** A segment is a tag exactly when it holds one `:`; with none, or two or more, it is ignored. */
  lemma TagIffOneColon(segment: string)
    ensures IsTag(segment) <==> Occurrences(segment, TagSeparator) == 1
  {
    SplitCount(segment, TagSeparator);
  }

  /** A tag is its key, the `:`, then its value, and neither part holds a `:`. */
  lemma TagParts(segment: string)
    requires IsTag(segment)
    ensures segment == TagKey(segment) + [TagSeparator] + TagValue(segment)
    ensures TagSeparator !in TagKey(segment) && TagSeparator !in TagValue(segment)
  {
    var parts := Split(segment, TagSeparator);
    JoinSplit(segment, TagSeparator);
    SplitPieces(segment, TagSeparator);
    assert parts[1..] == [parts[1]];
  }

  function TagKey(segment: string): string
    requires IsTag(segment)
  {
    Split(segment, TagSeparator)[0]
  }

  function TagValue(segment: string): string
    requires IsTag(segment)
  {
    Split(segment, TagSeparator)[1]
  }

  /** The map before any segment is read: for an untagged annotation it already holds
      the text of the value string before its first `:`. */
  function Seed(annotation: string, vmiVal: string): map<string, string>
  {
    if IsUntagged(annotation) then map[UntaggedVlanKey := Split(vmiVal, TagSeparator)[0]] else map[]
  }

  /** One segment read into the map: a tag writes its key, anything else is ignored. */
  function AddTag(m: map<string, string>, segment: string): map<string, string>
  {
    if IsTag(segment) then m[TagKey(segment) := TagValue(segment)] else m
  }

  /** The segments read into the map left to right, so a later tag overwrites an earlier one. */
  function AddTags(m: map<string, string>, segments: seq<string>): (r: map<string, string>)
    ensures m.Keys <= r.Keys
    decreases |segments|
  {
    if segments == [] then m
    else AddTag(AddTags(m, segments[..|segments| - 1]), segments[|segments| - 1])
  }

  function Segments(annotation: string): seq<string>
  {
    Split(annotation, SegmentSeparator)
  }

  /** The map `_extract_annotation_info` returns for an annotation and its value string. */
  function AnnotationInfo(annotation: string, vmiVal: string): (info: map<string, string>)
    ensures IsUntagged(annotation) ==> UntaggedVlanKey in info
  {
    AddTags(Seed(annotation, vmiVal), Segments(annotation))
  }

  /** Some tag among `segments` has the key `k`. */
  predicate HasTagFor(segments: seq<string>, k: string)
  {
    exists i | 0 <= i < |segments| :: IsTag(segments[i]) && TagKey(segments[i]) == k
  }

  /** A key is in the map exactly when it was seeded or some tag names it. */
  lemma {:induction false} AddTagsKeys(m: map<string, string>, segments: seq<string>, k: string)
    ensures k in AddTags(m, segments) <==> k in m || HasTagFor(segments, k)
    decreases |segments|
  {
    if segments != [] {
      var n := |segments| - 1;
      var init := segments[..n];
      AddTagsKeys(m, init, k);
      if HasTagFor(init, k) {
        var i :| 0 <= i < |init| && IsTag(init[i]) && TagKey(init[i]) == k;
        assert segments[i] == init[i];
      }
      if HasTagFor(segments, k) && !(IsTag(segments[n]) && TagKey(segments[n]) == k) {
        var i :| 0 <= i < |segments| && IsTag(segments[i]) && TagKey(segments[i]) == k;
        assert i < n && init[i] == segments[i];
      }
    }
  }

  /** The last tag with a given key decides its value. */
  lemma {:induction false} AddTagsLastWins(m: map<string, string>, segments: seq<string>, i: nat)
    requires i < |segments| && IsTag(segments[i])
    requires forall j :: i < j < |segments| && IsTag(segments[j]) ==> TagKey(segments[j]) != TagKey(segments[i])
    ensures TagKey(segments[i]) in AddTags(m, segments)
    ensures AddTags(m, segments)[TagKey(segments[i])] == TagValue(segments[i])
    decreases |segments|
  {
    var n := |segments| - 1;
    if i < n {
      var init := segments[..n];
      assert init[i] == segments[i];
      forall j | i < j < |init| && IsTag(init[j])
        ensures TagKey(init[j]) != TagKey(init[i])
      {
        assert init[j] == segments[j];
      }
      AddTagsLastWins(m, init, i);
    }
  }

  /** A key that no tag names keeps its seeded value, or stays absent. */
  lemma {:induction false} AddTagsKeeps(m: map<string, string>, segments: seq<string>, k: string)
    requires forall j :: 0 <= j < |segments| && IsTag(segments[j]) ==> TagKey(segments[j]) != k
    ensures k in AddTags(m, segments) <==> k in m
    ensures k in m ==> AddTags(m, segments)[k] == m[k]
    decreases |segments|
  {
    if segments != [] {
      var n := |segments| - 1;
      var init := segments[..n];
      forall j | 0 <= j < |init| && IsTag(init[j])
        ensures TagKey(init[j]) != k
      {
        assert init[j] == segments[j];
      }
      AddTagsKeeps(m, init, k);
    }
  }

  /** For an untagged annotation with no `untagged_vlan:` tag of its own, the untagged
      VLAN is the text of the value string before its first `:`. */
  lemma UntaggedVlanFromValue(annotation: string, vmiVal: string)
    requires IsUntagged(annotation)
    requires !HasTagFor(Segments(annotation), UntaggedVlanKey)
    ensures AnnotationInfo(annotation, vmiVal)[UntaggedVlanKey] == Split(vmiVal, TagSeparator)[0]
  {
    var segments := Segments(annotation);
    forall j | 0 <= j < |segments| && IsTag(segments[j])
      ensures TagKey(segments[j]) != UntaggedVlanKey
    {
    }
    AddTagsKeeps(Seed(annotation, vmiVal), segments, UntaggedVlanKey);
  }

  /** Every key other than `untagged_vlan` depends on the annotation string alone,
      not on the value string. */
  lemma {:induction false} InfoIgnoresValue(annotation: string, v1: string, v2: string, k: string)
    requires k != UntaggedVlanKey
    ensures k in AnnotationInfo(annotation, v1) <==> k in AnnotationInfo(annotation, v2)
    ensures k in AnnotationInfo(annotation, v1) ==> AnnotationInfo(annotation, v1)[k] == AnnotationInfo(annotation, v2)[k]
  {
    var segments := Segments(annotation);
    AddTagsKeys(Seed(annotation, v1), segments, k);
    AddTagsKeys(Seed(annotation, v2), segments, k);
    if HasTagFor(segments, k) {
      var i := LastTagFor(segments, k);
      AddTagsLastWins(Seed(annotation, v1), segments, i);
      AddTagsLastWins(Seed(annotation, v2), segments, i);
    }
  }

  /** The position of the last tag with key `k`. */
  lemma {:induction false} LastTagFor(segments: seq<string>, k: string) returns (i: nat)
    requires HasTagFor(segments, k)
    ensures i < |segments| && IsTag(segments[i]) && TagKey(segments[i]) == k
    ensures forall j :: i < j < |segments| && IsTag(segments[j]) ==> TagKey(segments[j]) != k
    decreases |segments|
  {
    var n := |segments| - 1;
    if IsTag(segments[n]) && TagKey(segments[n]) == k {
      i := n;
    } else {
      var init := segments[..n];
      var w :| 0 <= w < |segments| && IsTag(segments[w]) && TagKey(segments[w]) == k;
      assert w < n && init[w] == segments[w];
      i := LastTagFor(init, k);
      assert init[i] == segments[i];
      forall j | i < j < |segments| && IsTag(segments[j])
        ensures TagKey(segments[j]) != k
      {
        if j < n {
          assert init[j] == segments[j];
        }
      }
    }
  }
}
