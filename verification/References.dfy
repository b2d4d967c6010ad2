/**
 Canonical references, evidence digests and subjects: the loops that validate them, and the regular
 expressions of the database CHECKs they have to agree with.
 */
module References {
  import Text

  // ----- Regular expressions, as far as the CHECKs use them -----

  datatype Regex =
    | OneOf(member: char -> bool)
    | Literal(text: string)
    | Then(first: Regex, second: Regex)
    | Repeat(item: Regex, least: nat, most: nat)

  ghost predicate Matches(r: Regex, s: string)
    decreases r, 1, 0
  {
    match r
    case OneOf(member) => |s| == 1 && member(s[0])
    case Literal(text) => s == text
    case Then(first, second) => exists k :: 0 <= k <= |s| && Matches(first, s[..k]) && Matches(second, s[k..])
    case Repeat(item, least, most) => exists n :: least <= n <= most && MatchesTimes(r, s, n)
  }

  /** `s` is `n` matches of the repeated item, one after the other. */
  ghost predicate MatchesTimes(r: Regex, s: string, n: nat)
    requires r.Repeat?
    decreases r, 0, n
  {
    if n == 0 then s == ""
    else exists k :: 0 <= k <= |s| && Matches(r.item, s[..k]) && MatchesTimes(r, s[k..], n - 1)
  }

  predicate AllIn(member: char -> bool, s: string) {
    forall i :: 0 <= i < |s| ==> member(s[i])
  }

  lemma AllInRest(member: char -> bool, s: string)
    requires s != ""
    ensures AllIn(member, s) <==> member(s[0]) && AllIn(member, s[1..])
  {
    assert forall i :: 1 <= i < |s| ==> s[i] == s[1..][i - 1];
  }

  /** A class matches exactly its one character, so a repetition starts with one. */
  lemma RepeatOnce(r: Regex, s: string, n: nat)
    requires r.Repeat? && r.item.OneOf? && n > 0
    ensures MatchesTimes(r, s, n) <==> s != "" && r.item.member(s[0]) && MatchesTimes(r, s[1..], n - 1)
  {
    if s != "" && r.item.member(s[0]) && MatchesTimes(r, s[1..], n - 1) {
      assert Matches(r.item, s[..1]);
    }
  }

  lemma {:induction false} RepeatedClass(r: Regex, s: string, n: nat)
    requires r.Repeat? && r.item.OneOf?
    ensures MatchesTimes(r, s, n) <==> |s| == n && AllIn(r.item.member, s)
    decreases n
  {
    if n > 0 {
      hide AllIn, Matches, MatchesTimes;
      RepeatOnce(r, s, n);
      if s != "" {
        AllInRest(r.item.member, s);
        RepeatedClass(r, s[1..], n - 1);
      }
    }
  }

  /** A repeated class matches the texts of allowed length whose characters are all in the class. */
  lemma RepeatMatches(r: Regex, s: string)
    requires r.Repeat? && r.item.OneOf?
    ensures Matches(r, s) <==> r.least <= |s| <= r.most && AllIn(r.item.member, s)
  {
    hide AllIn, MatchesTimes;
    forall n: nat
      ensures MatchesTimes(r, s, n) <==> |s| == n && AllIn(r.item.member, s)
    {
      RepeatedClass(r, s, n);
    }
    if r.least <= |s| <= r.most && AllIn(r.item.member, s) {
      assert MatchesTimes(r, s, |s|);
    }
  }

  // ----- References -----

  predicate Lower(c: char) {
    'a' <= c <= 'z'
  }

  predicate ReferenceChar(c: char) {
    Lower(c) || '0' <= c <= '9' || c in {'.', '_', '-'}
  }

  /** The pattern `^[a-z][a-z0-9_.-]{0,127}$` of the CHECKs. */
  const REFERENCE_PATTERN := Then(OneOf(Lower), Repeat(OneOf(ReferenceChar), 0, 127))

  /** What validateReference accepts, for any limit. */
  predicate CanonicalReference(value: string, limit: nat) {
    && 1 <= |value| <= limit
    && Lower(value[0])
    && forall i :: 0 <= i < |value| ==> ReferenceChar(value[i])
  }

  /** The reference limit of every call: the accepted texts are the language of the pattern, no more and no less. */
  lemma ReferenceIsPattern(value: string)
    ensures CanonicalReference(value, 128) <==> Matches(REFERENCE_PATTERN, value)
  {
    var rest := Repeat(OneOf(ReferenceChar), 0, 127);
    if CanonicalReference(value, 128) {
      RepeatMatches(rest, value[1..]);
      assert Matches(OneOf(Lower), value[..1]) && Matches(rest, value[1..]);
    }
    if Matches(REFERENCE_PATTERN, value) {
      var k :| 0 <= k <= |value| && Matches(OneOf(Lower), value[..k]) && Matches(rest, value[k..]);
      RepeatMatches(rest, value[k..]);
      assert forall i :: 1 <= i < |value| ==> value[i] == value[1..][i - 1];
    }
  }

  /** validateReference: the length test counts bytes, but no accepted text has a character of several bytes. */
  method ValidateReference(value: string, limit: nat) returns (ok: bool)
    ensures ok <==> CanonicalReference(value, limit)
  {
    Text.ByteLenAscii(value);
    assert CanonicalReference(value, limit) ==> Text.IsAscii(value);
    if value == "" || Text.ByteLen(value) > limit {
      return false;
    }
    for i := 0 to |value|
      invariant i > 0 ==> Lower(value[0])
      invariant forall k :: 0 <= k < i ==> ReferenceChar(value[k])
    {
      if !ReferenceChar(value[i]) || (i == 0 && !Lower(value[i])) {
        return false;
      }
    }
    return true;
  }

  // ----- Evidence digests -----

  predicate HexDigit(c: char) {
    '0' <= c <= '9' || 'a' <= c <= 'f'
  }

  /** The pattern `^sha256:[0-9a-f]{64}$` of the CHECKs. */
  const DIGEST_PATTERN := Then(Literal("sha256:"), Repeat(OneOf(HexDigit), 64, 64))

  predicate CanonicalDigest(value: string) {
    |value| == 71 && "sha256:" <= value && forall i :: 7 <= i < |value| ==> HexDigit(value[i])
  }

  lemma DigestIsPattern(value: string)
    ensures CanonicalDigest(value) <==> Matches(DIGEST_PATTERN, value)
  {
    var rest := Repeat(OneOf(HexDigit), 64, 64);
    assert |"sha256:"| == 7;
    if CanonicalDigest(value) {
      RepeatMatches(rest, value[7..]);
      assert value[..7] == "sha256:";
      assert Matches(Literal("sha256:"), value[..7]) && Matches(rest, value[7..]);
    }
    if Matches(DIGEST_PATTERN, value) {
      var k :| 0 <= k <= |value| && Matches(Literal("sha256:"), value[..k]) && Matches(rest, value[k..]);
      assert k == |value[..k]| == 7;
      RepeatMatches(rest, value[7..]);
      assert forall i :: 7 <= i < |value| ==> value[i] == value[7..][i - 7];
      assert value == value[..7] + value[7..];
    }
  }

  /** ValidateEvidenceSHA256. */
  method ValidateDigest(value: string) returns (ok: bool)
    ensures ok <==> CanonicalDigest(value)
  {
    assert |"sha256:"| == 7;
    Text.ByteLenAscii(value);
    DigestIsAscii(value);
    if Text.ByteLen(value) != 71 || !("sha256:" <= value) {
      return false;
    }
    for i := 7 to |value|
      invariant forall k :: 7 <= k < i ==> HexDigit(value[k])
    {
      if !HexDigit(value[i]) {
        return false;
      }
    }
    return true;
  }

  lemma DigestIsAscii(value: string)
    ensures "sha256:" <= value && (forall i :: 7 <= i < |value| ==> HexDigit(value[i])) ==> Text.IsAscii(value)
  {
    if "sha256:" <= value {
      assert |"sha256:"| == 7;
      assert forall i :: 0 <= i < 7 ==> value[i] == "sha256:"[i];
    }
  }

  // ----- Subjects -----

  predicate SubjectChar(c: char) {
    '\U{21}' <= c && c != '\U{7f}'
  }

  predicate CanonicalSubject(value: string) {
    && value != "" && Text.ByteLen(value) <= 512 && Text.TrimSpace(value) == value
    && forall i :: 0 <= i < |value| ==> SubjectChar(value[i])
  }

  /** validateSubject. */
  method ValidateSubject(value: string) returns (ok: bool)
    ensures ok <==> CanonicalSubject(value)
  {
    if value == "" || Text.ByteLen(value) > 512 || value != Text.TrimSpace(value) {
      return false;
    }
    for i := 0 to |value|
      invariant forall k :: 0 <= k < i ==> SubjectChar(value[k])
    {
      if !SubjectChar(value[i]) {
        return false;
      }
    }
    return true;
  }
}
