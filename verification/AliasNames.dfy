/** Model aliases and catalog ids as strings. */
module AliasNames {

  const MAX_ALIAS_LENGTH := 259
  const MAX_ALIAS_SEGMENTS := 4
  const MAX_SEGMENT_LENGTH := 64
  const MAX_ID_LENGTH := 128

  predicate AlphaNumeric(c: char) {
    'A' <= c <= 'Z' || 'a' <= c <= 'z' || '0' <= c <= '9'
  }

  predicate NameChar(c: char) {
    AlphaNumeric(c) || c == '.' || c == '_' || c == ':' || c == '-'
  }

  // [A-Za-z0-9][A-Za-z0-9._:-]{0,limit-1}
  predicate IsName(s: string, limit: nat) {
    0 < |s| <= limit && AlphaNumeric(s[0]) && forall i :: 0 <= i < |s| ==> NameChar(s[i])
  }

  predicate IsId(s: string) { IsName(s, MAX_ID_LENGTH) }

  // The request's tail is matched with a pattern that ends in `$`, which also
  // matches before one final newline.
  predicate MatchesId(s: string) {
    IsId(s) || (s != "" && s[|s| - 1] == '\n' && IsId(s[..|s| - 1]))
  }

  predicate Control(c: char) { c < ' ' || c == '\U{7F}' }

  function Segments(s: string): (r: seq<string>)
    ensures |r| >= 1
  {
    if s == "" then [""]
    else
      var rest := Segments(s[1..]);
      if s[0] == '/' then [""] + rest else [[s[0]] + rest[0]] + rest[1..]
  }

  predicate SegmentOk(s: string) {
    s != "" && s != "." && s != ".." && IsName(s, MAX_SEGMENT_LENGTH)
  }

  predicate ValidAlias(v: string) {
    && v != "" && |v| <= MAX_ALIAS_LENGTH
    && (forall i :: 0 <= i < |v| ==> !Control(v[i]))
    && |Segments(v)| <= MAX_ALIAS_SEGMENTS
    && forall i :: 0 <= i < |Segments(v)| ==> SegmentOk(Segments(v)[i])
  }

  // What the configuration demands of a catalog source's prefix.
  predicate ValidPrefix(p: string) {
    2 <= |p| <= 200 && p[|p| - 1] == '/' && ValidAlias(p + "x")
  }

  lemma {:induction false} OneSegment(t: string)
    requires '/' !in t
    ensures Segments(t) == [t]
  {
    if t != "" {
      OneSegment(t[1..]);
      assert t == [t[0]] + t[1..];
    }
  }

  /** A tail without a slash is exactly the last segment after the prefix. */
  lemma {:induction false} TailIsLastSegment(p: string, t: string)
    requires p != "" && p[|p| - 1] == '/' && '/' !in t
    ensures Segments(p + t) == Segments(p[..|p| - 1]) + [t]
  {
    assert (p + t)[1..] == p[1..] + t;
    OneSegment(t);
    if |p| == 1 {
      assert p[1..] + t == t;
      assert p[..0] == "";
    } else {
      TailIsLastSegment(p[1..], t);
      assert p[..|p| - 1][1..] == p[1..][..|p| - 2];
    }
  }

  lemma IdHasNoSlash(id: string)
    requires IsId(id)
    ensures '/' !in id
  {
  }

  lemma ControlFree(p: string, t: string)
    ensures (forall i :: 0 <= i < |p + t| ==> !Control((p + t)[i]))
       <==> (forall i :: 0 <= i < |p| ==> !Control(p[i])) && (forall i :: 0 <= i < |t| ==> !Control(t[i]))
  {
    if forall i :: 0 <= i < |p + t| ==> !Control((p + t)[i]) {
      assert forall i :: 0 <= i < |p| ==> p[i] == (p + t)[i];
      assert forall i :: 0 <= i < |t| ==> t[i] == (p + t)[|p| + i];
    }
  }

  lemma SegmentsAppended(a: seq<string>, t: string)
    ensures (forall i :: 0 <= i < |a + [t]| ==> SegmentOk((a + [t])[i]))
       <==> (forall i :: 0 <= i < |a| ==> SegmentOk(a[i])) && SegmentOk(t)
  {
    assert (a + [t])[|a|] == t;
    assert forall i :: 0 <= i < |a| ==> (a + [t])[i] == a[i];
  }

  /** Catalog ids may have 128 characters and an alias segment 64: prefix plus
      catalog id is an alias exactly when both lengths fit. */
  lemma AliasOfIdIff(p: string, id: string)
    requires ValidPrefix(p) && IsId(id)
    ensures ValidAlias(p + id) <==> |id| <= MAX_SEGMENT_LENGTH && |p| + |id| <= MAX_ALIAS_LENGTH
  {
    IdHasNoSlash(id);
    TailIsLastSegment(p, id);
    TailIsLastSegment(p, "x");
    var head := Segments(p[..|p| - 1]);
    SegmentsAppended(head, id);
    SegmentsAppended(head, "x");
    ControlFree(p, id);
    ControlFree(p, "x");
    assert SegmentOk(id) <==> |id| <= MAX_SEGMENT_LENGTH;
  }

  /** The tail of a valid alias after a source's prefix is one catalog id, with
      no stray newline. */
  lemma TailOfAliasIsId(p: string, t: string)
    requires ValidPrefix(p) && ValidAlias(p + t) && MatchesId(t)
    ensures IsId(t)
  {
    ControlFree(p, t);
    assert !IsId(t) ==> Control(t[|t| - 1]);
  }
}
