/** The validation attributes the models carry ([Required], [StringLength], [EmailAddress]),
    as the framework's model validation evaluates them on string properties.
    A C# string property that is null is represented by the empty string: [Required]
    rejects both and [StringLength] accepts both, so no rule below tells them apart. */
module Annotations {

  /** The white-space characters of the Latin-1 range (String.IsNullOrWhiteSpace). */
  predicate IsWhiteSpace(c: char) {
    c == ' ' || c == '\t' || c == '\n' || c == '\r' || c == '\U{0B}' || c == '\U{0C}'
    || c == '\U{85}' || c == '\U{A0}'
  }

  /** [Required]: the value is neither null, nor empty, nor made only of white space. */
  predicate Required(s: string) {
    exists i :: 0 <= i < |s| && !IsWhiteSpace(s[i])
  }

  /** String.Length: the number of UTF-16 code units, where a character above U+FFFF
      takes a surrogate pair. */
  function Utf16Length(s: string): (n: nat)
    ensures |s| <= n <= 2 * |s|
    ensures n == |s| <==> forall i :: 0 <= i < |s| ==> s[i] as int <= 0xFFFF
    ensures n == 2 * |s| <==> forall i :: 0 <= i < |s| ==> s[i] as int > 0xFFFF
  {
    if |s| == 0 then 0
    else (if s[0] as int > 0xFFFF then 2 else 1) + Utf16Length(s[1..])
  }

  /** [StringLength(max)]: at most `max` UTF-16 code units. */
  predicate StringLength(s: string, max: nat) {
    Utf16Length(s) <= max
  }

  /** String.IndexOf(c): the first position of `c`, or -1. */
  function IndexOf(s: string, c: char): (r: int)
    ensures -1 <= r < |s|
    ensures r == -1 <==> c !in s
    ensures 0 <= r ==> s[r] == c && forall j :: 0 <= j < r ==> s[j] != c
  {
    if |s| == 0 then -1
    else if s[0] == c then 0
    else
      var k := IndexOf(s[1..], c);
      if k == -1 then -1 else k + 1
  }

  /** String.LastIndexOf(c): the last position of `c`, or -1. */
  function LastIndexOf(s: string, c: char): (r: int)
    ensures -1 <= r < |s|
    ensures r == -1 <==> c !in s
    ensures 0 <= r ==> s[r] == c && forall j :: r < j < |s| ==> s[j] != c
  {
    if |s| == 0 then -1
    else if s[|s| - 1] == c then |s| - 1
    else LastIndexOf(s[..|s| - 1], c)
  }

  /** [EmailAddress]: exactly one '@', neither the first nor the last character. */
  predicate EmailAddress(s: string) {
    var at := IndexOf(s, '@');
    at > 0 && at != |s| - 1 && at == LastIndexOf(s, '@')
  }

  /** The only '@' of `s` sits at position `at`. */
  predicate SoleAt(s: string, at: int) {
    0 <= at < |s| && s[at] == '@' && forall j :: 0 <= j < |s| && s[j] == '@' ==> j == at
  }

  /** An e-mail address, as [EmailAddress] accepts it, is a local part and a domain part,
      both non-empty, around a single '@'. */
  lemma EmailAddressShape(s: string)
    ensures EmailAddress(s) <==> exists at :: 0 < at < |s| - 1 && SoleAt(s, at)
  {
    var first, last := IndexOf(s, '@'), LastIndexOf(s, '@');
    if EmailAddress(s) {
      assert SoleAt(s, first);
    }
    if at :| 0 < at < |s| - 1 && SoleAt(s, at) {
      assert first == at && last == at;
    }
  }
}
