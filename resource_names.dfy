/**
 * Resource names and identifiers as the request validators see them:
 * the volume name derived from a resource ID, the split of a name into
 * '/'-separated segments, the DNS-name rule each segment must meet, the
 * character rule for user-settable IDs, and the wildcard rule of update
 * field masks.
 */
module ResourceNames {
  import opened Wrappers
  import Status

  // ---------------------------------------------------------------------
  // Resource ID <-> resource name
  // ---------------------------------------------------------------------

  /** The collection under which volumes are named. */
  const Collection: string := "volumes"

  /**
   * The resource name of a resource ID. The real derivation is not part of
   * this model; what the model relies on is that it is injective and that
   * the last segment of the name gives the ID back.
   */
  function ResourceIdToVolumeName(id: string): string {
    Collection + "/" + id
  }

  lemma ResourceIdToVolumeNameInjective(a: string, b: string)
    ensures ResourceIdToVolumeName(a) == ResourceIdToVolumeName(b) ==> a == b
  {
    if ResourceIdToVolumeName(a) == ResourceIdToVolumeName(b) {
      var n := |Collection| + 1;
      assert a == ResourceIdToVolumeName(a)[n..];
      assert b == ResourceIdToVolumeName(b)[n..];
    }
  }

  // ---------------------------------------------------------------------
  // Segments
  // ---------------------------------------------------------------------

  /** The '/'-separated segments of a name, in order (a name without '/' is one segment). */
  function Segments(name: string): (segs: seq<string>)
    ensures |segs| > 0
    ensures forall i :: 0 <= i < |segs| ==> '/' !in segs[i]
  {
    if name == [] then [""]
    else if name[0] == '/' then [""] + Segments(name[1..])
    else
      var rest := Segments(name[1..]);
      [[name[0]] + rest[0]] + rest[1..]
  }

  /** Segments put back together with '/' between them. */
  function JoinSegments(segs: seq<string>): string
    requires |segs| > 0
  {
    if |segs| == 1 then segs[0] else segs[0] + "/" + JoinSegments(segs[1..])
  }

  /** Splitting a name and joining its segments gives the name back. */
  lemma {:induction false} JoinSegmentsOfSegments(name: string)
    ensures JoinSegments(Segments(name)) == name
  {
    if name == [] {
    } else if name[0] == '/' {
      JoinSegmentsOfSegments(name[1..]);
    } else {
      var rest := Segments(name[1..]);
      JoinSegmentsOfSegments(name[1..]);
      if |rest| == 1 {
        assert Segments(name) == [[name[0]] + rest[0]];
      } else {
        assert Segments(name)[1..] == rest[1..];
      }
    }
  }

  /** Joining '/'-free segments and splitting the result gives the segments back. */
  lemma {:induction false} SegmentsOfJoinSegments(segs: seq<string>)
    requires |segs| > 0
    requires forall i :: 0 <= i < |segs| ==> '/' !in segs[i]
    ensures Segments(JoinSegments(segs)) == segs
  {
    if |segs| == 1 {
      SegmentsOfSlashFree(segs[0]);
    } else {
      SegmentsOfJoinSegments(segs[1..]);
      SegmentsOfPrefixed(segs[0], JoinSegments(segs[1..]));
    }
  }

  lemma {:induction false} SegmentsOfSlashFree(s: string)
    requires '/' !in s
    ensures Segments(s) == [s]
  {
    if s != [] {
      assert s[0] in s;
      assert forall c :: c in s[1..] ==> c in s;
      SegmentsOfSlashFree(s[1..]);
      assert [s[0]] + s[1..] == s;
    }
  }

  /** A '/'-free head and a '/' in front of the rest make the head the first segment. */
  lemma {:induction false} SegmentsOfPrefixed(head: string, tail: string)
    requires '/' !in head
    ensures Segments(head + "/" + tail) == [head] + Segments(tail)
  {
    if head == [] {
      assert head + "/" + tail == "/" + tail;
      assert ("/" + tail)[1..] == tail;
    } else {
      var s := head + "/" + tail;
      assert s[1..] == head[1..] + "/" + tail;
      SegmentsOfPrefixed(head[1..], tail);
      assert [head[0]] + head[1..] == head;
    }
  }

  /** The resource ID a name refers to: its last segment. */
  function ResourceIdOf(name: string): string {
    var segs := Segments(name);
    segs[|segs| - 1]
  }

  /** A volume name has two segments: the collection and the ID. */
  lemma VolumeNameSegments(id: string)
    requires '/' !in id
    ensures Segments(ResourceIdToVolumeName(id)) == [Collection, id]
  {
    SegmentsOfSlashFree(Collection);
    SegmentsOfSlashFree(id);
    SegmentsOfPrefixed(Collection, id);
  }

  /** The ID a name was derived from is recovered from that name. */
  lemma ResourceIdOfVolumeName(id: string)
    requires '/' !in id
    ensures ResourceIdOf(ResourceIdToVolumeName(id)) == id
  {
    VolumeNameSegments(id);
  }

  // ---------------------------------------------------------------------
  // File paths
  // ---------------------------------------------------------------------

  /**
   * A file name inside a directory. The lexical clean-up of the directory
   * part (dot segments, doubled separators) is not modelled.
   */
  function JoinPath(dir: string, name: string): string {
    if dir == "" then name else dir + "/" + name
  }

  /** Different names in one directory give different paths. */
  lemma JoinPathInjective(dir: string, a: string, b: string)
    ensures JoinPath(dir, a) == JoinPath(dir, b) ==> a == b
  {
    if dir != "" && JoinPath(dir, a) == JoinPath(dir, b) {
      assert a == JoinPath(dir, a)[|dir| + 1..];
      assert b == JoinPath(dir, b)[|dir| + 1..];
    }
  }

  // ---------------------------------------------------------------------
  // DNS names (the segment rule of resource-name validation)
  // ---------------------------------------------------------------------

  predicate IsLetter(c: char) {
    'a' <= c <= 'z' || 'A' <= c <= 'Z'
  }

  predicate IsDigit(c: char) {
    '0' <= c <= '9'
  }

  /**
   * A domain name in the sense of RFC 1035 section 2.3.1, as Go's resolver
   * reads it: labels of letters, digits, '_' and '-' separated by dots, no
   * label empty or longer than 63, none starting or ending with '-', at least
   * one character that is not a digit, at most 253 characters before an
   * optional final dot.
   */
  predicate IsDomainName(s: string) {
    if s == "." then true
    else 0 < |s| <= 254 && (|s| == 254 ==> s[|s| - 1] == '.') && DomainScan(s, 0, '.', false, 0)
  }

  /** The left-to-right scan of IsDomainName: `last` is the previous character, `partLen` the length of the current label. */
  predicate DomainScan(s: string, i: nat, last: char, nonNumeric: bool, partLen: nat)
    requires i <= |s|
    decreases |s| - i
  {
    if i == |s| then last != '-' && partLen <= 63 && nonNumeric
    else
      var c := s[i];
      if IsLetter(c) || c == '_' then DomainScan(s, i + 1, c, true, partLen + 1)
      else if IsDigit(c) then DomainScan(s, i + 1, c, nonNumeric, partLen + 1)
      else if c == '-' then last != '.' && DomainScan(s, i + 1, c, true, partLen + 1)
      else if c == '.' then last != '.' && last != '-' && 0 < partLen <= 63 && DomainScan(s, i + 1, c, nonNumeric, 0)
      else false
  }

  /** A name whose first character is a hyphen is not a domain name. */
  lemma LeadingHyphenIsNotDomainName(s: string)
    requires |s| > 0 && s[0] == '-'
    ensures !IsDomainName(s)
  {
  }

  /** A name whose last character is a hyphen is not a domain name. */
  lemma TrailingHyphenIsNotDomainName(s: string)
    requires |s| > 0 && s[|s| - 1] == '-'
    ensures !IsDomainName(s)
  {
    if s != "." && 0 < |s| <= 254 {
      TrailingHyphenScan(s, 0, '.', false, 0);
    }
  }

  lemma {:induction false} TrailingHyphenScan(s: string, i: nat, last: char, nonNumeric: bool, partLen: nat)
    requires i <= |s| && |s| > 0 && s[|s| - 1] == '-'
    requires i == |s| ==> last == '-'
    ensures !DomainScan(s, i, last, nonNumeric, partLen)
    decreases |s| - i
  {
    if i < |s| {
      var c := s[i];
      if IsLetter(c) || c == '_' {
        TrailingHyphenScan(s, i + 1, c, true, partLen + 1);
      } else if IsDigit(c) {
        TrailingHyphenScan(s, i + 1, c, nonNumeric, partLen + 1);
      } else if c == '-' {
        TrailingHyphenScan(s, i + 1, c, true, partLen + 1);
      } else if c == '.' {
        TrailingHyphenScan(s, i + 1, c, nonNumeric, 0);
      }
    }
  }

  // ---------------------------------------------------------------------
  // Resource-name validation
  // ---------------------------------------------------------------------

  /** The segment that stands for "any resource". */
  const Wildcard: string := "-"

  predicate SegmentIsValid(seg: string) {
    seg != "" && (seg == Wildcard || IsDomainName(seg))
  }

  /** The message for the (1-based) `position`-th segment `seg` when it is invalid. */
  function SegmentError(seg: string, position: nat): string {
    if seg == "" then "segment " + Status.DecimalString(position) + " is empty"
    else "segment '" + seg + "': not a valid DNS name"
  }

  /** Index of the first invalid segment at or after `from`, or |segs| when there is none. */
  function FirstInvalidSegment(segs: seq<string>, from: nat): (k: nat)
    requires from <= |segs|
    ensures from <= k <= |segs|
    ensures forall j :: from <= j < k ==> SegmentIsValid(segs[j])
    ensures k < |segs| ==> !SegmentIsValid(segs[k])
    decreases |segs| - from
  {
    if from == |segs| then from
    else if !SegmentIsValid(segs[from]) then from
    else FirstInvalidSegment(segs, from + 1)
  }

  predicate AllSegmentsValid(name: string) {
    forall j :: 0 <= j < |Segments(name)| ==> SegmentIsValid(Segments(name)[j])
  }

  /**
   * Validation of a resource name: every segment must be the wildcard or a
   * domain name; the error message names the first segment that is not.
   */
  function ValidateName(name: string): (r: Option<string>)
    ensures r.None? <==> AllSegmentsValid(name)
    ensures r.Some? ==> exists k :: 0 <= k < |Segments(name)| && !SegmentIsValid(Segments(name)[k])
                          && (forall j :: 0 <= j < k ==> SegmentIsValid(Segments(name)[j]))
                          && r.value == SegmentError(Segments(name)[k], k + 1)
  {
    var segs := Segments(name);
    var k := FirstInvalidSegment(segs, 0);
    if k == |segs| then None
    else
      assert !SegmentIsValid(segs[k]);
      Some(SegmentError(segs[k], k + 1))
  }

  /** The checks every request naming one resource starts with: the name is given and is a valid resource name. */
  function CheckName(name: string): (r: Option<Status.Error>)
    ensures r.None? <==> name != "" && AllSegmentsValid(name)
    ensures name == "" ==> r == Some(Status.MissingField("name"))
    ensures name != "" && r.Some? ==> r == Some(Status.Status(Status.Unknown, ValidateName(name).value))
  {
    if name == "" then Some(Status.MissingField("name"))
    else if ValidateName(name).Some? then Some(Status.Status(Status.Unknown, ValidateName(name).value))
    else None
  }

  /** The collection segment of a volume name is a valid segment. */
  lemma CollectionIsValid()
    ensures SegmentIsValid(Collection)
  {
    assert DomainScan(Collection, 7, 's', true, 7);
    assert DomainScan(Collection, 4, 'u', true, 4);
    assert DomainScan(Collection, 0, '.', false, 0);
  }

  /** A label of letters, digits and inner hyphens that starts with a letter, as resource IDs usually are. */
  predicate IsSimpleLabel(s: string) {
    && 0 < |s| <= 63 && IsLetter(s[0]) && s[|s| - 1] != '-'
    && forall i :: 0 <= i < |s| ==> IsLetter(s[i]) || IsDigit(s[i]) || s[i] == '-'
  }

  lemma {:induction false} SimpleLabelScan(s: string, i: nat)
    requires IsSimpleLabel(s) && 1 <= i <= |s|
    ensures DomainScan(s, i, s[i - 1], true, i)
    decreases |s| - i
  {
    if i < |s| {
      SimpleLabelScan(s, i + 1);
    }
  }

  /** A simple label is a domain name. */
  lemma SimpleLabelIsDomainName(s: string)
    requires IsSimpleLabel(s)
    ensures IsDomainName(s)
  {
    SimpleLabelScan(s, 1);
  }

  /** A one-segment name that is a simple label passes validation. */
  lemma SimpleNameIsValid(name: string)
    requires IsSimpleLabel(name)
    ensures ValidateName(name) == None
  {
    SegmentsOfSlashFree(name);
    SimpleLabelIsDomainName(name);
    assert FirstInvalidSegment([name], 1) == 1;
  }

  /** The volume name of a simple-label ID passes validation. */
  lemma VolumeNameIsValid(id: string)
    requires IsSimpleLabel(id)
    ensures ValidateName(ResourceIdToVolumeName(id)) == None
  {
    VolumeNameSegments(id);
    CollectionIsValid();
    SimpleLabelIsDomainName(id);
    assert FirstInvalidSegment([Collection, id], 2) == 2;
    assert FirstInvalidSegment([Collection, id], 1) == 2;
  }

  /** A one-segment name starting with a hyphen (other than the wildcard) is rejected with its DNS message. */
  lemma HyphenNameRejected(name: string)
    requires '/' !in name && |name| > 1 && name[0] == '-'
    ensures ValidateName(name) == Some("segment '" + name + "': not a valid DNS name")
  {
    SegmentsOfSlashFree(name);
    LeadingHyphenIsNotDomainName(name);
    assert FirstInvalidSegment([name], 0) == 0;
  }

  /** A volume name whose ID starts with a hyphen (other than the wildcard) is rejected with that segment's DNS message. */
  lemma HyphenSegmentRejected(id: string)
    requires '/' !in id && |id| > 1 && id[0] == '-'
    ensures ValidateName(ResourceIdToVolumeName(id)) == Some("segment '" + id + "': not a valid DNS name")
  {
    VolumeNameSegments(id);
    CollectionIsValid();
    LeadingHyphenIsNotDomainName(id);
    assert FirstInvalidSegment([Collection, id], 1) == 1;
    assert FirstInvalidSegment([Collection, id], 0) == 1;
  }

  // ---------------------------------------------------------------------
  // User-settable IDs
  // ---------------------------------------------------------------------

  /** The characters a user-settable ID may contain: lowercase letters, digits and hyphens. */
  predicate IsIdChar(c: char) {
    'a' <= c <= 'z' || '0' <= c <= '9' || c == '-'
  }

  /** Position of the first character at or after `from` that a user-settable ID may not contain, or |id|. */
  function FirstInvalidIdChar(id: string, from: nat): (p: nat)
    requires from <= |id|
    ensures from <= p <= |id|
    ensures forall i :: from <= i < p ==> IsIdChar(id[i])
    ensures p < |id| ==> !IsIdChar(id[p])
    decreases |id| - from
  {
    if from == |id| then from
    else if !IsIdChar(id[from]) then from
    else FirstInvalidIdChar(id, from + 1)
  }

  /** The message naming an offending character and its 0-based position. */
  function IdCharError(c: char, position: nat): string {
    "user-settable ID must only contain lowercase, numbers and hyphens (got: '" + [c]
      + "' in position " + Status.DecimalString(position) + ")"
  }

  /**
   * Validation of a user-settable ID: it is accepted exactly when every
   * character is a lowercase letter, a digit or a hyphen, and otherwise the
   * message names the first offending character and its position.
   */
  function ValidateUserSettable(id: string): (r: Option<string>)
    ensures r.None? <==> forall i :: 0 <= i < |id| ==> IsIdChar(id[i])
    ensures r.Some? ==> exists p :: 0 <= p < |id| && !IsIdChar(id[p])
                          && (forall i :: 0 <= i < p ==> IsIdChar(id[i]))
                          && r.value == IdCharError(id[p], p)
  {
    var p := FirstInvalidIdChar(id, 0);
    if p == |id| then None
    else
      var r := Some(IdCharError(id[p], p));
      assert 0 <= p < |id| && !IsIdChar(id[p]) && (forall i :: 0 <= i < p ==> IsIdChar(id[i])) && r.value == IdCharError(id[p], p);
      r
  }

  // ---------------------------------------------------------------------
  // Update field masks
  // ---------------------------------------------------------------------

  /** The field-mask path that selects every field. */
  const AllFields: string := "*"

  /** Position of the first path at or after `from` that names no field of the message, or |paths|. */
  function FirstUnknownPath(paths: seq<string>, fields: set<string>, from: nat): (p: nat)
    requires from <= |paths|
    ensures from <= p <= |paths|
    ensures forall i :: from <= i < p ==> paths[i] in fields
    ensures p < |paths| ==> paths[p] !in fields
    decreases |paths| - from
  {
    if from == |paths| then from
    else if paths[from] !in fields then from
    else FirstUnknownPath(paths, fields, from + 1)
  }

  /**
   * Validation of an update field mask against the field paths `fields` of
   * the message it applies to: "*" is allowed only as the sole path;
   * without "*", every path must name a field, and the first that does not
   * is the one reported. An absent mask is the empty path list.
   */
  function ValidateFieldMask(paths: seq<string>, fields: set<string>): (r: Option<string>)
    ensures AllFields in paths ==> (r.Some? <==> |paths| > 1)
    ensures AllFields in paths && r.Some? ==> r.value == "invalid field path: " + "'*' must not be used with other paths"
    ensures AllFields !in paths ==> (r.None? <==> forall i :: 0 <= i < |paths| ==> paths[i] in fields)
    ensures AllFields !in paths && r.Some? ==>
              exists p :: 0 <= p < |paths| && paths[p] !in fields
                          && (forall i :: 0 <= i < p ==> paths[i] in fields)
                          && r.value == "invalid field path: " + paths[p]
  {
    if AllFields in paths then
      if |paths| == 1 then None else Some("invalid field path: " + "'*' must not be used with other paths")
    else
      var p := FirstUnknownPath(paths, fields, 0);
      if p == |paths| then None
      else
        var r := Some("invalid field path: " + paths[p]);
        assert 0 <= p < |paths| && paths[p] !in fields && (forall i :: 0 <= i < p ==> paths[i] in fields);
        r
  }
}
