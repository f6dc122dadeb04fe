/**
 * Which directory entries the plugin manager treats as plugin modules, and the
 * module name it derives from such an entry.
 */
module FileSelection {

  /** The suffix of a plugin source file. */
  const SourceSuffix: string := ".py"

  /** The package marker file, which has the suffix but is never a plugin. */
  const PackageMarker: string := "__init__.py"

  predicate EndsWith(s: string, suffix: string)
  {
    |suffix| <= |s| && s[|s| - |suffix|..] == suffix
  }

  /** A directory entry is imported only if it ends in ".py" and is not "__init__.py". */
  predicate IsPluginSource(filename: string)
  {
    EndsWith(filename, SourceSuffix) && filename != PackageMarker
  }

  /**
   * The module name of an entry: the entry with its last three characters cut
   * off (a slice that yields the empty string on a shorter entry). On an entry
   * that ends in the suffix, putting the suffix back gives the entry again.
   */
  function ModuleName(filename: string): (stem: string)
    ensures |filename| >= |SourceSuffix| ==> |stem| == |filename| - |SourceSuffix|
    ensures |filename| < |SourceSuffix| ==> stem == []
    ensures EndsWith(filename, SourceSuffix) ==> stem + SourceSuffix == filename
  {
    if |filename| >= 3 then filename[..|filename| - 3] else []
  }

  /**
   * The round trip from the other side: every stem other than "__init__",
   * with the suffix appended, is a plugin source whose module name is that
   * stem; "__init__" with the suffix is not a plugin source.
   */
  lemma SourceFileRoundTrip(stem: string)
    ensures IsPluginSource(stem + SourceSuffix) <==> stem != "__init__"
    ensures ModuleName(stem + SourceSuffix) == stem
  {
  }

  /** The package marker has the plugin suffix and is still excluded. */
  lemma PackageMarkerExcluded()
    ensures EndsWith(PackageMarker, SourceSuffix)
    ensures !IsPluginSource(PackageMarker)
  {
  }

  /** Every plugin source is its module name followed by the suffix, and is not the marker. */
  lemma PluginSourceShape(filename: string)
    requires IsPluginSource(filename)
    ensures filename == ModuleName(filename) + SourceSuffix
    ensures ModuleName(filename) != "__init__"
  {
  }
}
