/**
 * `SeqForwarderOutputConfig`: the forwarder's output settings, with the API
 * key kept in its storage form and the minimum level resolved once and cached.
 */
module OutputConfig {
  import opened Wrappers
  import opened DotNetStrings
  import opened LogEventLevels
  import opened ApiKeyCodec

  /** C# `ulong`. */
  newtype UInt64 = x: int | 0 <= x < 0x1_0000_0000_0000_0000

  class SeqForwarderOutputConfig {
    var ServerUrl: string
    var EventBodyLimitBytes: UInt64
    var RawPayloadLimitBytes: UInt64
    /** `PooledConnectionLifetime`, in seconds. */
    var PooledConnectionLifetimeSeconds: nat
    var MinimumLevel: string
    /** The API key in its storage form; `None` is `null`. */
    var ApiKey: Option<string>
    /** `_minimumLevel`: empty until `GetMinimumLevel` first runs. */
    var cachedMinimumLevel: Option<LogEventLevel>

    /** The property initialisers. */
    constructor ()
      ensures ServerUrl == "http://localhost:5341"
      ensures EventBodyLimitBytes == 256 * 1024 == 262144
      ensures RawPayloadLimitBytes == 10 * 1024 * 1024 == 10485760
      ensures PooledConnectionLifetimeSeconds == 2 * 60
      ensures MinimumLevel == "Error"
      ensures ApiKey == None
      ensures cachedMinimumLevel == None
    {
      ServerUrl := "http://localhost:5341";
      EventBodyLimitBytes := 256 * 1024;
      RawPayloadLimitBytes := 10 * 1024 * 1024;
      PooledConnectionLifetimeSeconds := 2 * 60;
      MinimumLevel := "Error";
      ApiKey := None;
      cachedMinimumLevel := None;
    }

    /** The key the stored value stands for; reads only the stored value. */
    function GetApiKey(p: DataProtector): (r: Result<Option<string>, UnprotectError>)
      reads this
      ensures r == Success(None) <==> IsNullOrWhiteSpace(ApiKey)
      ensures !IsNullOrWhiteSpace(ApiKey) && !IsTagged(ApiKey.value) ==> r == Success(ApiKey)
      ensures r.Failure? ==> p.unprotect(ApiKey.value[|ProtectedDataPrefix|..]) == Failure(r.error)
    {
      Decode(ApiKey, p)
    }

    /** Stores `key` in its storage form; no other field changes. */
    method SetApiKey(key: Option<string>, p: DataProtector)
      modifies this`ApiKey
      ensures ApiKey == Encode(key, p)
      ensures IsNullOrWhiteSpace(key) ==> ApiKey == None && GetApiKey(p) == Success(None)
      ensures !IsNullOrWhiteSpace(key) ==> ApiKey == Some(ProtectedDataPrefix + p.protect(key.value))
      ensures !IsNullOrWhiteSpace(key) && RoundTripsOn(p, key.value) ==> GetApiKey(p) == Success(key)
    {
      if IsNullOrWhiteSpace(key) {
        ApiKey := None;
        return;
      }
      ApiKey := Some(ProtectedDataPrefix + p.protect(key.value));
    }

    /**
     * `_minimumLevel ??= ...`: the first call resolves `MinimumLevel` and
     * caches it; later calls return the cached level whatever `MinimumLevel`
     * holds by then.
     */
    method GetMinimumLevel() returns (level: LogEventLevel)
      modifies this`cachedMinimumLevel
      ensures old(cachedMinimumLevel).Some? ==>
        level == old(cachedMinimumLevel).value && cachedMinimumLevel == old(cachedMinimumLevel)
      ensures old(cachedMinimumLevel).None? ==>
        level == ResolveLevel(MinimumLevel) && cachedMinimumLevel == Some(level)
    {
      if cachedMinimumLevel.None? {
        cachedMinimumLevel := Some(ResolveLevel(MinimumLevel));
      }
      level := cachedMinimumLevel.value;
    }
  }

  /** A fresh configuration: no key, and the default name "Error" resolves to Error. */
  method DefaultConfiguration(p: DataProtector) returns (key: Result<Option<string>, UnprotectError>, level: LogEventLevel)
    ensures key == Success(None)
    ensures level == Error
  {
    var config := new SeqForwarderOutputConfig();
    key := config.GetApiKey(p);
    level := config.GetMinimumLevel();
    ErrorSpellings();
  }

  /** Setting a key on a configuration and reading it back returns it, when the protector round-trips it. */
  method SetThenGetApiKey(key: string, p: DataProtector) returns (r: Result<Option<string>, UnprotectError>)
    requires !IsNullOrWhiteSpace(Some(key))
    requires RoundTripsOn(p, key)
    ensures r == Success(Some(key))
  {
    var config := new SeqForwarderOutputConfig();
    config.SetApiKey(Some(key), p);
    r := config.GetApiKey(p);
  }

  /**
   * Renaming the level after the first read does not change what later reads
   * return: both reads give the level of the name in force at the first.
   */
  method LevelStaysAfterRename(first: string, second: string) returns (before: LogEventLevel, after: LogEventLevel)
    ensures before == after == ResolveLevel(first)
  {
    var config := new SeqForwarderOutputConfig();
    config.MinimumLevel := first;
    before := config.GetMinimumLevel();
    config.MinimumLevel := second;
    after := config.GetMinimumLevel();
  }
}
