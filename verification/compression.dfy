/** Compression inference for select requests (`suggestCompressionType`, s3s.go).

  The hint is derived from the object key alone, by a case-sensitive suffix
  match: `.gz` means gzip, `.bz2` means bzip2, anything else means none.
 */
module Compression {

  /** The SDK's `types.CompressionType` values the client can send. */
  datatype CompressionType = None | Gzip | Bzip2

  /** Go's `strings.HasSuffix`: `s` is at least as long as `suffix` and ends with it. */
  predicate HasSuffix(s: string, suffix: string)
  {
    |suffix| <= |s| && s[|s| - |suffix|..] == suffix
  }

  /** Character-level reading of `HasSuffix`: `s` is at least as long as
      `suffix`, and its last |suffix| characters are those of `suffix`. */
  lemma HasSuffixByCharacters(s: string, suffix: string)
    ensures HasSuffix(s, suffix) <==>
      |suffix| <= |s| &&
      forall j :: 0 <= j < |suffix| ==> s[|s| - |suffix| + j] == suffix[j]
  {
  }

  /** No key ends with both `.gz` and `.bz2`: their last characters differ. */
  lemma SuffixesExclusive(key: string)
    ensures !(HasSuffix(key, ".gz") && HasSuffix(key, ".bz2"))
  {
    HasSuffixByCharacters(key, ".gz");
    HasSuffixByCharacters(key, ".bz2");
    if HasSuffix(key, ".gz") {
      assert key[|key| - 1] == 'z';
    }
  }

  /** `suggestCompressionType`: the first matching suffix wins, `.gz` before `.bz2`. */
  function SuggestCompressionType(key: string): (c: CompressionType)
    ensures c == Gzip <==> HasSuffix(key, ".gz")
    ensures c == Bzip2 <==> HasSuffix(key, ".bz2")
    ensures c == None <==> !HasSuffix(key, ".gz") && !HasSuffix(key, ".bz2")
  {
    SuffixesExclusive(key);
    if HasSuffix(key, ".gz") then Gzip
    else if HasSuffix(key, ".bz2") then Bzip2
    else None
  }

  /** The match does not fold case: a key ending in `.GZ` or `.BZ2` is sent uncompressed. */
  lemma UpperCaseSuffixMeansNone(key: string)
    requires HasSuffix(key, ".GZ") || HasSuffix(key, ".BZ2")
    ensures SuggestCompressionType(key) == None
  {
  }

  /** Only the final suffix counts: `a.tar.bz2` is bzip2, `a.gz.json` is uncompressed. */
  lemma SuggestionExamples()
    ensures SuggestCompressionType("a.gz") == Gzip
    ensures SuggestCompressionType("a.tar.bz2") == Bzip2
    ensures SuggestCompressionType("a.json") == None
    ensures SuggestCompressionType("a.GZ") == None
    ensures SuggestCompressionType("a.gz.json") == None
  {
  }
}
