/**
 * `sanitize_string`, defined identically in both utility modules: a string
 * loses its outer whitespace, anything else becomes the empty string.
 */
module Utils {
  import opened Json
  import opened Strings

  function SanitizeString(text: Json): (r: string)
    ensures !text.JString? ==> r == ""
    ensures text.JString? ==> exists i :: StrippedAt(text.s, r, i)
    ensures r == [] || (!IsSpace(r[0]) && !IsSpace(r[|r| - 1]))
  {
    if text.JString? then Strip(text.s) else ""
  }

  /** Sanitising an already sanitised string changes nothing. */
  lemma SanitizeIdempotent(text: Json)
    ensures SanitizeString(JString(SanitizeString(text))) == SanitizeString(text)
  {
    if text.JString? { StripIdempotent(text.s); }
  }

  /**
   * The result is the one slice of a string input with only whitespace around
   * it that neither starts nor ends with whitespace.
   */
  lemma SanitizeIsOuterTrim(s: string, i: nat, j: nat)
    requires i <= j <= |s|
    requires SpaceBetween(s, 0, i) && SpaceBetween(s, j, |s|)
    requires i < j ==> !IsSpace(s[i]) && !IsSpace(s[j - 1])
    ensures SanitizeString(JString(s)) == s[i..j]
  {
    StripUnique(s, i, j);
  }

  /** A whitespace-only string becomes empty. */
  lemma SanitizeBlank(s: string)
    requires AllSpace(s)
    ensures SanitizeString(JString(s)) == ""
  {
  }
}
