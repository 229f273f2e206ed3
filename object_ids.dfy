/** Entity identifiers: the check `mongoose.Types.ObjectId.isValid` applied to a
    string before any lookup, and the form an id takes once cast to an ObjectId. */
module ObjectIds {

  predicate IsHexDigit(c: char)
  {
    ('0' <= c <= '9') || ('a' <= c <= 'f') || ('A' <= c <= 'F')
  }

  /** A well-formed identifier: exactly 24 hexadecimal digits. */
  predicate ValidId(s: string)
  {
    |s| == 24 && forall i :: 0 <= i < |s| ==> IsHexDigit(s[i])
  }

  function LowerHex(c: char): (d: char)
    requires IsHexDigit(c)
    ensures IsHexDigit(d) && !('A' <= d <= 'F')
    ensures !('A' <= c <= 'F') ==> d == c
  {
    if 'A' <= c <= 'F' then (c as int - 'A' as int + 'a' as int) as char else c
  }

  /** The id as the store keeps it: an ObjectId prints its twelve bytes as
      lower-case hex, so ids that differ only in the case of their letters
      name the same record. */
  function Canon(s: string): (r: string)
    requires ValidId(s)
    ensures |r| == |s|
    ensures forall i :: 0 <= i < |s| ==> r[i] == LowerHex(s[i])
  {
    seq(|s|, i requires 0 <= i < |s| => LowerHex(s[i]))
  }

  /** A stored id: well-formed and in lower case. */
  predicate IsCanonical(s: string)
  {
    ValidId(s) && forall i :: 0 <= i < |s| ==> !('A' <= s[i] <= 'F')
  }

  /** Casting a well-formed id gives a stored-form id, and casting a stored-form
      id gives it back: the cast is idempotent. */
  lemma CanonIsCanonical(s: string)
    requires ValidId(s)
    ensures IsCanonical(Canon(s))
    ensures Canon(Canon(s)) == Canon(s)
  {
    CanonFixesCanonical(Canon(s));
  }

  lemma CanonFixesCanonical(s: string)
    requires IsCanonical(s)
    ensures Canon(s) == s
  {
  }
}
