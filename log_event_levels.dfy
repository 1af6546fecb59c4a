/**
 * The severity scale of `LogEventLevel` and the case-insensitive mapping from
 * the configured `MinimumLevel` name onto it.
 */
module LogEventLevels {
  import opened DotNetStrings

  /** `LogEventLevel` is an `int`-backed enum; a cast may produce a value outside the named ones. */
  newtype LogEventLevel = int

  const Verbose: LogEventLevel := 0
  const Debug: LogEventLevel := 1
  const Information: LogEventLevel := 2
  const Warning: LogEventLevel := 3
  const Error: LogEventLevel := 4
  const Fatal: LogEventLevel := 5

  /** `LevelAlias.Minimum` and `LevelAlias.Maximum`, taken to be Verbose and Fatal. */
  const LevelAliasMinimum: LogEventLevel := Verbose
  const LevelAliasMaximum: LogEventLevel := Fatal

  /** `(LogEventLevel)(LevelAlias.Maximum + 1)`: one step above every defined level. */
  const Off: LogEventLevel := LevelAliasMaximum + 1

  /** The nine names the resolver recognises, in the order it tests them. */
  const LevelNames: seq<string> :=
    ["off", "minimum", "maximum", "verbose", "debug", "information", "warning", "error", "fatal"]

  /** The name matches one of the nine, ignoring case. */
  predicate IsLevelName(name: string) {
    exists i :: 0 <= i < |LevelNames| && EqualsOrdinalIgnoreCase(name, LevelNames[i])
  }

  /** The conditional chain of `GetMinimumLevel`: first match wins, anything else is Information. */
  function ResolveLevel(name: string): (level: LogEventLevel)
    ensures Verbose <= level <= Off
  {
    if EqualsOrdinalIgnoreCase(name, "off") then Off
    else if EqualsOrdinalIgnoreCase(name, "minimum") then LevelAliasMinimum
    else if EqualsOrdinalIgnoreCase(name, "maximum") then LevelAliasMaximum
    else if EqualsOrdinalIgnoreCase(name, "verbose") then Verbose
    else if EqualsOrdinalIgnoreCase(name, "debug") then Debug
    else if EqualsOrdinalIgnoreCase(name, "information") then Information
    else if EqualsOrdinalIgnoreCase(name, "warning") then Warning
    else if EqualsOrdinalIgnoreCase(name, "error") then Error
    else if EqualsOrdinalIgnoreCase(name, "fatal") then Fatal
    else Information
  }

  /** A string equal to `a` ignoring case matches a given name exactly when `a` does. */
  lemma SameMatch(a: string, b: string, name: string)
    requires EqualsOrdinalIgnoreCase(a, b)
    ensures EqualsOrdinalIgnoreCase(a, name) == EqualsOrdinalIgnoreCase(b, name)
  {
  }

  /** Names that are equal ignoring case resolve to the same level. */
  lemma ResolveLevelIgnoresCase(a: string, b: string)
    requires EqualsOrdinalIgnoreCase(a, b)
    ensures ResolveLevel(a) == ResolveLevel(b)
  {
    SameMatch(a, b, "off");
    SameMatch(a, b, "minimum");
    SameMatch(a, b, "maximum");
    SameMatch(a, b, "verbose");
    SameMatch(a, b, "debug");
    SameMatch(a, b, "information");
    SameMatch(a, b, "warning");
    SameMatch(a, b, "error");
    SameMatch(a, b, "fatal");
  }

  /** `IsLevelName` spelled out name by name. */
  lemma IsLevelNameCases(name: string)
    ensures IsLevelName(name) <==>
      EqualsOrdinalIgnoreCase(name, "off") || EqualsOrdinalIgnoreCase(name, "minimum")
      || EqualsOrdinalIgnoreCase(name, "maximum") || EqualsOrdinalIgnoreCase(name, "verbose")
      || EqualsOrdinalIgnoreCase(name, "debug") || EqualsOrdinalIgnoreCase(name, "information")
      || EqualsOrdinalIgnoreCase(name, "warning") || EqualsOrdinalIgnoreCase(name, "error")
      || EqualsOrdinalIgnoreCase(name, "fatal")
  {
    assert EqualsOrdinalIgnoreCase(name, LevelNames[0]) == EqualsOrdinalIgnoreCase(name, "off");
    assert EqualsOrdinalIgnoreCase(name, LevelNames[1]) == EqualsOrdinalIgnoreCase(name, "minimum");
    assert EqualsOrdinalIgnoreCase(name, LevelNames[2]) == EqualsOrdinalIgnoreCase(name, "maximum");
    assert EqualsOrdinalIgnoreCase(name, LevelNames[3]) == EqualsOrdinalIgnoreCase(name, "verbose");
    assert EqualsOrdinalIgnoreCase(name, LevelNames[4]) == EqualsOrdinalIgnoreCase(name, "debug");
    assert EqualsOrdinalIgnoreCase(name, LevelNames[5]) == EqualsOrdinalIgnoreCase(name, "information");
    assert EqualsOrdinalIgnoreCase(name, LevelNames[6]) == EqualsOrdinalIgnoreCase(name, "warning");
    assert EqualsOrdinalIgnoreCase(name, LevelNames[7]) == EqualsOrdinalIgnoreCase(name, "error");
    assert EqualsOrdinalIgnoreCase(name, LevelNames[8]) == EqualsOrdinalIgnoreCase(name, "fatal");
  }

  /** Any two recognised names differ in length or in one of their first two letters, ignoring case. */
  lemma LevelNamesDistinctUpper(i: nat, j: nat)
    requires i < j < |LevelNames|
    ensures |LevelNames[i]| != |LevelNames[j]|
      || ToUpperAscii(LevelNames[i][0]) != ToUpperAscii(LevelNames[j][0])
      || ToUpperAscii(LevelNames[i][1]) != ToUpperAscii(LevelNames[j][1])
  {
  }

  /** No string matches two different recognised names. */
  lemma LevelNamesDisjoint(name: string, i: nat, j: nat)
    requires i < j < |LevelNames|
    ensures !(EqualsOrdinalIgnoreCase(name, LevelNames[i]) && EqualsOrdinalIgnoreCase(name, LevelNames[j]))
  {
  }

  /**
   * Which names produce which level, in both directions: each level is reached
   * exactly from the names listed for it, and Information also from every
   * unrecognised name.
   */
  lemma ResolveLevelInverse(name: string)
    ensures ResolveLevel(name) == Off <==> EqualsOrdinalIgnoreCase(name, "off")
    ensures ResolveLevel(name) == Verbose <==>
      EqualsOrdinalIgnoreCase(name, "minimum") || EqualsOrdinalIgnoreCase(name, "verbose")
    ensures ResolveLevel(name) == Debug <==> EqualsOrdinalIgnoreCase(name, "debug")
    ensures ResolveLevel(name) == Information <==>
      EqualsOrdinalIgnoreCase(name, "information") || !IsLevelName(name)
    ensures ResolveLevel(name) == Warning <==> EqualsOrdinalIgnoreCase(name, "warning")
    ensures ResolveLevel(name) == Error <==> EqualsOrdinalIgnoreCase(name, "error")
    ensures ResolveLevel(name) == Fatal <==>
      EqualsOrdinalIgnoreCase(name, "maximum") || EqualsOrdinalIgnoreCase(name, "fatal")
  {
    forall i, j | 0 <= i < j < |LevelNames|
      ensures !(EqualsOrdinalIgnoreCase(name, LevelNames[i]) && EqualsOrdinalIgnoreCase(name, LevelNames[j]))
    {
      LevelNamesDistinctUpper(i, j);
      LevelNamesDisjoint(name, i, j);
    }
    IsLevelNameCases(name);
  }

  /** "off" resolves strictly above what every other name resolves to, "maximum" included. */
  lemma OffAboveEveryOtherName(off: string, other: string)
    requires EqualsOrdinalIgnoreCase(off, "off")
    requires !EqualsOrdinalIgnoreCase(other, "off")
    ensures ResolveLevel(other) < ResolveLevel(off) == LevelAliasMaximum + 1
  {
  }

  /** The spellings "ERROR", "error" and "Error" all resolve to Error. */
  lemma ErrorSpellings()
    ensures ResolveLevel("ERROR") == ResolveLevel("error") == ResolveLevel("Error") == Error
  {
  }

  /** Unrecognised names, the empty one included, fall back to Information. */
  lemma UnknownNamesAreInformation(name: string)
    requires !IsLevelName(name)
    ensures ResolveLevel(name) == Information
    ensures ResolveLevel("") == ResolveLevel("bogus") == Information
  {
    IsLevelNameCases(name);
  }
}
