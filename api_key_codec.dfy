/**
 * The storage form of the endpoint's API key: absent, plaintext, or the tag
 * `pd.` followed by a token from an injected data protector.
 */
module ApiKeyCodec {
  import opened Wrappers
  import opened DotNetStrings

  /** What the protector throws when it cannot unprotect a token. */
  datatype UnprotectError = UnprotectError(message: string)

  /**
   * `IStringDataProtector`: the two operations the configuration calls.
   * `unprotect` may fail on a corrupt or foreign token.
   */
  datatype DataProtector = DataProtector(
    protect: string -> string,
    unprotect: string -> Result<string, UnprotectError>)

  /** The protector's round-trip law, for one plaintext. */
  predicate RoundTripsOn(p: DataProtector, plaintext: string) {
    p.unprotect(p.protect(plaintext)) == Success(plaintext)
  }

  /** `ProtectedDataPrefix`. */
  const ProtectedDataPrefix: string := "pd."

  /** The stored value carries the tag, so its remainder is a protector token. */
  predicate IsTagged(stored: string) {
    StartsWith(stored, ProtectedDataPrefix)
  }

  /** What `SetApiKey` stores for the key it is given. */
  function Encode(key: Option<string>, p: DataProtector): (stored: Option<string>)
    ensures stored.None? <==> IsNullOrWhiteSpace(key)
    ensures stored.Some? ==> IsTagged(stored.value) && !IsNullOrWhiteSpace(stored)
    ensures stored.Some? ==> stored.value[|ProtectedDataPrefix|..] == p.protect(key.value)
  {
    if IsNullOrWhiteSpace(key) then None
    else
      var s := ProtectedDataPrefix + p.protect(key.value);
      assert !IsWhiteSpace(s[0]);
      Some(s)
  }

  /**
   * What `GetApiKey` returns for the stored value: `Success(None)` is the
   * `null` return, `Failure` the protector's exception passed on.
   */
  function Decode(stored: Option<string>, p: DataProtector): (r: Result<Option<string>, UnprotectError>)
    // absent exactly for a blank stored value; a protector failure never reads as absent
    ensures r == Success(None) <==> IsNullOrWhiteSpace(stored)
    // plaintext is returned as it is
    ensures !IsNullOrWhiteSpace(stored) && !IsTagged(stored.value) ==> r == Success(stored)
    // a tagged value yields exactly what the protector makes of the text after the tag
    ensures !IsNullOrWhiteSpace(stored) && IsTagged(stored.value) ==>
      match p.unprotect(stored.value[|ProtectedDataPrefix|..])
      case Success(key) => r == Success(Some(key))
      case Failure(e) => r == Failure(e)
    // only a tagged value can fail
    ensures r.Failure? ==> !IsNullOrWhiteSpace(stored) && IsTagged(stored.value)
  {
    if IsNullOrWhiteSpace(stored) then Success(None)
    else if !IsTagged(stored.value) then Success(stored)
    else
      match p.unprotect(stored.value[|ProtectedDataPrefix|..])
      case Success(key) => Success(Some(key))
      case Failure(e) => Failure(e)
  }

  /** Storing a non-blank key and reading it back gives the key, when the protector round-trips it. */
  lemma RoundTrip(key: string, p: DataProtector)
    requires !IsNullOrWhiteSpace(Some(key))
    requires RoundTripsOn(p, key)
    ensures Decode(Encode(Some(key), p), p) == Success(Some(key))
  {
  }

  /** Storing a blank or absent key and reading it back gives no key, whatever the protector. */
  lemma BlankIsAbsent(key: Option<string>, p: DataProtector)
    requires IsNullOrWhiteSpace(key)
    ensures Encode(key, p) == None
    ensures Decode(Encode(key, p), p) == Success(None)
    ensures Decode(Encode(None, p), p) == Decode(Encode(Some(""), p), p) == Decode(Encode(Some("   "), p), p)
  {
  }

  /** Blank and untagged values are decoded without consulting the protector. */
  lemma DecodeUntaggedIgnoresProtector(stored: Option<string>, p: DataProtector, q: DataProtector)
    requires IsNullOrWhiteSpace(stored) || !IsTagged(stored.value)
    ensures Decode(stored, p) == Decode(stored, q)
  {
  }

  /** A stored value of exactly the tag hands the protector the empty token. */
  lemma BareTagUnprotectsEmpty(p: DataProtector)
    ensures p.unprotect("").Success? ==> Decode(Some(ProtectedDataPrefix), p) == Success(Some(p.unprotect("").value))
    ensures p.unprotect("").Failure? ==> Decode(Some(ProtectedDataPrefix), p) == Failure(p.unprotect("").error)
  {
    assert !IsWhiteSpace(ProtectedDataPrefix[0]);
    assert ProtectedDataPrefix[|ProtectedDataPrefix|..] == "";
  }
}
