/**
 * Normalisation of the user-supplied target: an empty hostname is a
 * configuration error; a hostname without an explicit `http://` or `https://`
 * scheme gets `https://` in front of it.
 */
module Target {
  import opened Wrappers

  const HttpsScheme: string := "https://"
  const HttpScheme: string := "http://"

  /** `s` begins with `prefix` (Go's strings.HasPrefix). */
  predicate HasPrefix(s: string, prefix: string)
  {
    |prefix| <= |s| && s[..|prefix|] == prefix
  }

  /** `s` ends with `suffix`. */
  predicate HasSuffix(s: string, suffix: string)
  {
    |suffix| <= |s| && s[|s| - |suffix|..] == suffix
  }

  /** `s` names its scheme explicitly. */
  predicate HasScheme(s: string)
  {
    HasPrefix(s, HttpsScheme) || HasPrefix(s, HttpScheme)
  }

  datatype ConfigError = MissingHost

  /**
   * The target every request is sent to.  It fails exactly on the empty
   * hostname; otherwise it always names a scheme and still ends with what the
   * user typed, adding at most the secure scheme in front.
   */
  function Normalize(hostname: string): (r: Result<string, ConfigError>)
    ensures r.Failure? <==> hostname == ""
    ensures r.Success? ==> HasScheme(r.value)
    ensures r.Success? ==> HasSuffix(r.value, hostname)
    ensures r.Success? ==> |r.value| <= |hostname| + |HttpsScheme|
  {
    if hostname == "" then
      Failure(MissingHost)
    else if !HasPrefix(hostname, HttpsScheme) && !HasPrefix(hostname, HttpScheme) then
      Success(HttpsScheme + hostname)
    else
      Success(hostname)
  }

  /** A hostname that already names either scheme is left as it is. */
  lemma NormalizeKeepsScheme(hostname: string)
    requires HasScheme(hostname)
    ensures Normalize(hostname) == Success(hostname)
  {
  }

  /** A non-empty hostname without a scheme gets exactly `https://` in front. */
  lemma NormalizeAddsHttps(hostname: string)
    requires hostname != "" && !HasScheme(hostname)
    ensures Normalize(hostname) == Success(HttpsScheme + hostname)
  {
  }

  /** Normalising a normalised target changes nothing. */
  lemma NormalizeIdempotent(hostname: string)
    requires Normalize(hostname).Success?
    ensures Normalize(Normalize(hostname).value) == Normalize(hostname)
  {
    NormalizeKeepsScheme(Normalize(hostname).value);
  }
}
