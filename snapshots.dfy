/**
 * Snapshots: one stored artifact (identity, directory, driver) and the
 * filesystem that holds the snapshot files.
 *
 * The filesystem is an in-memory map from a snapshot's filename to the text
 * stored there. Writes are whole-file overwrites; the ghost log `writes`
 * records every write so that "nothing was written" can be stated, and not
 * only "the contents are the same".
 */
module Snapshots {
  import opened Drivers

  /** The separator between a directory and the names inside it (a POSIX platform). */
  const DirectorySeparator: string := "/"

  /** Every snapshot file name carries this suffix before the driver's extension. */
  const SnapSuffix: string := ".snap"

  /** `.ext` for a driver that declares an extension, nothing otherwise. */
  function ExtensionSuffix(extension: string): string
  {
    if extension == "" then "" else "." + extension
  }

  /** A snapshot is bound to one identity, one directory and one driver for its lifetime. */
  datatype Snapshot<!V> = Snapshot(id: string, directory: string, driver: Driver<V>)
  {
    /** The backing file: derived from id, directory and extension, never stored. */
    function Filename(): (f: string)
      ensures |f| == |directory| + |DirectorySeparator| + |id| + |SnapSuffix| + |ExtensionSuffix(driver.extension)|
      ensures f[..|directory|] == directory && f[|directory|] == DirectorySeparator[0]
      ensures f[|directory| + 1..|directory| + 1 + |id|] == id
      ensures f[|directory| + 1 + |id|..] == SnapSuffix + ExtensionSuffix(driver.extension)
    {
      directory + DirectorySeparator + id + SnapSuffix + ExtensionSuffix(driver.extension)
    }
  }

  /** Within one directory and one format, distinct identities never share a file. */
  lemma FilenameInjective<V>(s1: Snapshot<V>, s2: Snapshot<V>)
    requires s1.directory == s2.directory
    requires s1.driver.extension == s2.driver.extension
    requires s1.Filename() == s2.Filename()
    ensures s1.id == s2.id
  {
  }

  /** Different extensions give different file-name suffixes. */
  lemma ExtensionSuffixInjective(x1: string, x2: string)
    requires x1 != x2
    ensures ExtensionSuffix(x1) != ExtensionSuffix(x2)
  {
    if x1 != "" && x2 != "" {
      assert ExtensionSuffix(x1)[1..] == x1 && ExtensionSuffix(x2)[1..] == x2;
    }
  }

  /** The same snapshot stored in two formats uses two different files. */
  lemma FilenameSeparatesFormats<V, W>(s1: Snapshot<V>, s2: Snapshot<W>)
    requires s1.id == s2.id && s1.directory == s2.directory
    requires s1.driver.extension != s2.driver.extension
    ensures s1.Filename() != s2.Filename()
  {
    var n := |s1.directory| + 1 + |s1.id|;
    var e1, e2 := ExtensionSuffix(s1.driver.extension), ExtensionSuffix(s2.driver.extension);
    ExtensionSuffixInjective(s1.driver.extension, s2.driver.extension);
    assert (SnapSuffix + e1)[|SnapSuffix|..] == e1 && (SnapSuffix + e2)[|SnapSuffix|..] == e2;
    assert s1.Filename()[n..] != s2.Filename()[n..];
  }

  /** The snapshot files on disk, keyed by filename. */
  class SnapshotStore {
    var files: map<string, string>
    ghost var writes: seq<string>

    constructor (initial: map<string, string>)
      ensures files == initial && writes == []
    {
      files := initial;
      writes := [];
    }

    /** Whether the snapshot's backing file is present; asking changes nothing. */
    method Exists<V>(s: Snapshot<V>) returns (present: bool)
      ensures present <==> s.Filename() in files
    {
      present := s.Filename() in files;
    }

    /**
     * Writes the driver's serialisation of `actual` to the snapshot's file,
     * overwriting what was there. A value the driver cannot serialise is
     * reported back and nothing is written.
     */
    method Create<V>(s: Snapshot<V>, actual: V) returns (r: Serialization)
      modifies this
      ensures r == s.driver.serialize(actual)
      ensures r.Serialized? ==> files == old(files)[s.Filename() := r.text] && writes == old(writes) + [s.Filename()]
      ensures r.Unserializable? ==> files == old(files) && writes == old(writes)
    {
      r := s.driver.serialize(actual);
      if r.Serialized? {
        files := files[s.Filename() := r.text];
        writes := writes + [s.Filename()];
      }
    }

    /**
     * Reads the stored text and hands it to the driver's match. Reading a
     * missing file is a storage error, never a mismatch. Nothing is changed,
     * so two calls in a row with the same value agree.
     */
    method AssertMatches<V>(s: Snapshot<V>, actual: V) returns (m: MatchResult)
      ensures s.Filename() in files ==> m == Match(s.driver, files[s.Filename()], actual)
      ensures s.Filename() !in files ==> m.MatchError?
      ensures m.Matched? <==> s.Filename() in files && s.driver.serialize(actual) == Serialized(files[s.Filename()])
    {
      var name := s.Filename();
      if name in files {
        m := Match(s.driver, files[name], actual);
      } else {
        m := MatchError("unable to read snapshot file " + name);
      }
    }
  }
}
