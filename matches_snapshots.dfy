/**
 * MatchesSnapshots: the assertion workflow a test case mixes in.
 *
 * An assertion derives the snapshot's identity and directory from the test
 * case, binds a driver, and then runs a three-way decision over the stored
 * snapshot: create it when it is missing, match it when it exists, and in
 * update mode overwrite it only when it no longer matches.
 */
module MatchesSnapshots {
  import opened Drivers
  import opened Snapshots

  datatype Option<T> = None | Some(value: T)

  /**
   * How an assertion ends in the host test framework: it passes, it fails
   * with both representations, it is marked incomplete with a message, or an
   * error other than an expectation failure escapes.
   */
  datatype Outcome = Pass | Failure(expected: string, actual: string) | Incomplete(message: string) | Error(reason: string)

  /**
   * What the workflow learns about the running test: the short name of its
   * class and the test's name, the directory of the file declaring the class,
   * and the process's arguments.
   */
  datatype TestCase = TestCase(
    shortClassName: string,
    testName: string,
    testFileDirectory: string,
    argv: seq<string>)

  const IdSeparator: string := "__"
  const SnapshotsDirectoryName: string := "__snapshots__"
  const UpdateFlag: string := "--update-snapshots"
  const CreatedPrefix: string := "Snapshot created for "
  const UpdatedPrefix: string := "Snapshot updated for "

  // ---------------------------------------------------------------------------
  // Identity, location and the update flag

  /** The snapshot id: the class's short name, a double underscore, the test's name. */
  function SnapshotId(t: TestCase): (id: string)
    ensures |id| == |t.shortClassName| + |IdSeparator| + |t.testName|
    ensures id[..|t.shortClassName|] == t.shortClassName
    ensures id[|t.shortClassName|..|t.shortClassName| + |IdSeparator|] == IdSeparator
    ensures id[|t.shortClassName| + |IdSeparator|..] == t.testName
  {
    t.shortClassName + IdSeparator + t.testName
  }

  /** Two tests of one class have the same snapshot id only if they are the same test. */
  lemma SnapshotIdInjective(t1: TestCase, t2: TestCase)
    requires t1.shortClassName == t2.shortClassName
    requires SnapshotId(t1) == SnapshotId(t2)
    ensures t1.testName == t2.testName
  {
  }

  /**
   * Across classes the id is not injective: a class whose name holds a double
   * underscore collides with a shorter class whose test name holds one.
   */
  lemma SnapshotIdCollidesAcrossClasses()
    ensures SnapshotId(TestCase("A__testB", "testC", "", []))
         == SnapshotId(TestCase("A", "testB__testC", "", []))
  {
  }

  /** The snapshot directory: a `__snapshots__` directory next to the test's source file. */
  function SnapshotDirectory(t: TestCase): (dir: string)
    ensures |dir| == |t.testFileDirectory| + |DirectorySeparator| + |SnapshotsDirectoryName|
    ensures dir[..|t.testFileDirectory|] == t.testFileDirectory
    ensures dir[|t.testFileDirectory|] == DirectorySeparator[0]
    ensures dir[|dir| - |SnapshotsDirectoryName|..] == SnapshotsDirectoryName
  {
    t.testFileDirectory + DirectorySeparator + SnapshotsDirectoryName
  }

  /** A strict membership scan (`in_array` with strict comparison) over a list of strings. */
  function InArray(needle: string, haystack: seq<string>): (r: bool)
    ensures r <==> exists i :: 0 <= i < |haystack| && haystack[i] == needle
  {
    if haystack == [] then false
    else haystack[0] == needle || InArray(needle, haystack[1..])
  }

  /** Update mode is on exactly when one of the arguments is `--update-snapshots`. */
  function ShouldUpdateSnapshots(t: TestCase): (r: bool)
    ensures r <==> UpdateFlag in t.argv
  {
    InArray(UpdateFlag, t.argv)
  }

  /** Only the exact argument counts: a flag with a value attached does not switch update mode on. */
  lemma UpdateFlagIsExact()
    ensures ShouldUpdateSnapshots(TestCase("Foo", "testBar", "tests", ["phpunit", "-d", "--update-snapshots"]))
    ensures !ShouldUpdateSnapshots(TestCase("Foo", "testBar", "tests", ["phpunit", "--update-snapshots=1"]))
  {
    assert ["phpunit", "-d", "--update-snapshots"][2] == UpdateFlag;
  }

  /** The snapshot an assertion of this test works on, bound to the given driver. */
  function CreateSnapshotWithDriver<V>(t: TestCase, d: Driver<V>): (s: Snapshot<V>)
    ensures s.id == SnapshotId(t) && s.directory == SnapshotDirectory(t) && s.driver == d
    ensures s.Filename()[..|t.testFileDirectory|] == t.testFileDirectory
  {
    Snapshot(SnapshotId(t), SnapshotDirectory(t), d)
  }

  /** The driver an assertion uses: the one given, or the default dump driver. */
  function SelectDriver<V>(given: Option<Driver<V>>, builtins: BuiltinDrivers<V>): (d: Driver<V>)
    ensures given.None? ==> d == builtins.varDriver
    ensures given.Some? ==> d == given.value
  {
    match given
    case None => builtins.varDriver
    case Some(d) => d
  }

  // ---------------------------------------------------------------------------
  // The decision over the stored snapshot, as a function of the store

  /** What one assertion reports, the files afterwards, and whether it wrote its file. */
  datatype Step = Step(outcome: Outcome, files: map<string, string>, wrote: bool)

  /** The snapshot's file holds exactly the fresh serialisation of `actual`. */
  predicate StoredMatches<V>(files: map<string, string>, s: Snapshot<V>, actual: V)
  {
    s.Filename() in files && s.driver.serialize(actual) == Serialized(files[s.Filename()])
  }

  /** The snapshot's file exists and `actual` serialises to some other text. */
  predicate StoredDiffers<V>(files: map<string, string>, s: Snapshot<V>, actual: V)
  {
    && s.Filename() in files
    && s.driver.serialize(actual).Serialized?
    && s.driver.serialize(actual).text != files[s.Filename()]
  }

  /** How the host framework reports a match: pass, expectation failure, or error. */
  function Verdict(m: MatchResult): Outcome
  {
    match m
    case Matched => Pass
    case Mismatch(expected, actual) => Failure(expected, actual)
    case MatchError(reason) => Error(reason)
  }

  /** The two incomplete-test messages never coincide, so each names its branch. */
  lemma MessagesDiffer(id: string)
    ensures CreatedPrefix + id != UpdatedPrefix + id
  {
    assert (CreatedPrefix + id)[9] == 'c' && (UpdatedPrefix + id)[9] == 'u';
  }

  /** The effect of one snapshot assertion on the store, and the outcome it reports. */
  function Assertion<V>(files: map<string, string>, s: Snapshot<V>, actual: V, update: bool): (r: Step)
    // a write happens exactly when the outcome is incomplete, and it only ever
    // stores the fresh serialisation under this snapshot's filename
    ensures r.wrote <==> r.outcome.Incomplete?
    ensures !r.wrote ==> r.files == files
    ensures r.wrote ==> s.driver.serialize(actual).Serialized?
    ensures r.wrote ==> r.files == files[s.Filename() := s.driver.serialize(actual).text]
    // which branch fires
    ensures r.outcome == Incomplete(CreatedPrefix + s.id)
        <==> s.Filename() !in files && s.driver.serialize(actual).Serialized?
    ensures r.outcome == Incomplete(UpdatedPrefix + s.id) <==> update && StoredDiffers(files, s, actual)
    ensures r.outcome.Incomplete? ==> r.outcome in {Incomplete(CreatedPrefix + s.id), Incomplete(UpdatedPrefix + s.id)}
    ensures r.outcome.Pass? <==> StoredMatches(files, s, actual)
    ensures r.outcome.Failure? <==> !update && StoredDiffers(files, s, actual)
    ensures r.outcome.Failure? ==> r.outcome == Failure(files[s.Filename()], s.driver.serialize(actual).text)
    ensures r.outcome.Error? <==> s.driver.serialize(actual).Unserializable?
    ensures r.outcome.Error? ==> r.outcome.reason == s.driver.serialize(actual).reason
    // afterwards the store holds the fresh serialisation unless the assertion failed
    ensures r.outcome.Pass? || r.outcome.Incomplete? ==> StoredMatches(r.files, s, actual)
  {
    MessagesDiffer(s.id);
    var name := s.Filename();
    if name !in files then
      match s.driver.serialize(actual)
      case Unserializable(reason) => Step(Error(reason), files, false)
      case Serialized(text) => Step(Incomplete(CreatedPrefix + s.id), files[name := text], true)
    else
      var m := Match(s.driver, files[name], actual);
      if update && m.Mismatch? then
        Step(Incomplete(UpdatedPrefix + s.id), files[name := m.actual], true)
      else
        Step(Verdict(m), files, false)
  }

  /** The store went from (files, writes) to (files', writes') as Assertion says. */
  ghost predicate Performs<V>(
    files: map<string, string>, writes: seq<string>, s: Snapshot<V>, actual: V, update: bool,
    outcome: Outcome, files': map<string, string>, writes': seq<string>)
  {
    var step := Assertion(files, s, actual, update);
    && outcome == step.outcome
    && files' == step.files
    && writes' == writes + (if step.wrote then [s.Filename()] else [])
  }

  // ---------------------------------------------------------------------------
  // The workflow on the store

  /**
   * Runs the assertion of `actual` against snapshot `s`: create when missing,
   * otherwise (in update mode) match and overwrite on mismatch, and finally
   * match once more.
   */
  method DoSnapshotAssertion<V>(store: SnapshotStore, t: TestCase, s: Snapshot<V>, actual: V)
    returns (outcome: Outcome)
    modifies store
    ensures Performs(old(store.files), old(store.writes), s, actual, ShouldUpdateSnapshots(t),
                     outcome, store.files, store.writes)
  {
    var present := store.Exists(s);
    if !present {
      var created := store.Create(s, actual);
      if created.Unserializable? {
        return Error(created.reason);
      }
      return Incomplete(CreatedPrefix + s.id);
    }

    if ShouldUpdateSnapshots(t) {
      var m := store.AssertMatches(s, actual);
      match m
      case Mismatch(_, _) =>
        var updated := store.Create(s, actual);
        return Incomplete(UpdatedPrefix + s.id);
      case MatchError(reason) =>
        return Error(reason);
      case Matched =>
    }

    var m := store.AssertMatches(s, actual);
    outcome := Verdict(m);
  }

  /** Asserts `actual` against this test's snapshot, with the given driver or the dump driver. */
  method AssertMatchesSnapshot<V>(
    store: SnapshotStore, t: TestCase, builtins: BuiltinDrivers<V>, actual: V, driver: Option<Driver<V>>)
    returns (outcome: Outcome)
    modifies store
    ensures Performs(old(store.files), old(store.writes),
                     CreateSnapshotWithDriver(t, SelectDriver(driver, builtins)), actual,
                     ShouldUpdateSnapshots(t), outcome, store.files, store.writes)
  {
    var snapshot := CreateSnapshotWithDriver(t, SelectDriver(driver, builtins));
    outcome := DoSnapshotAssertion(store, t, snapshot, actual);
  }

  /** The same assertion with the XML driver. */
  method AssertMatchesXmlSnapshot<V>(store: SnapshotStore, t: TestCase, builtins: BuiltinDrivers<V>, actual: V)
    returns (outcome: Outcome)
    modifies store
    ensures Performs(old(store.files), old(store.writes),
                     CreateSnapshotWithDriver(t, builtins.xmlDriver), actual,
                     ShouldUpdateSnapshots(t), outcome, store.files, store.writes)
  {
    outcome := AssertMatchesSnapshot(store, t, builtins, actual, Some(builtins.xmlDriver));
  }

  /** The same assertion with the JSON driver. */
  method AssertMatchesJsonSnapshot<V>(store: SnapshotStore, t: TestCase, builtins: BuiltinDrivers<V>, actual: V)
    returns (outcome: Outcome)
    modifies store
    ensures Performs(old(store.files), old(store.writes),
                     CreateSnapshotWithDriver(t, builtins.jsonDriver), actual,
                     ShouldUpdateSnapshots(t), outcome, store.files, store.writes)
  {
    outcome := AssertMatchesSnapshot(store, t, builtins, actual, Some(builtins.jsonDriver));
  }

  // ---------------------------------------------------------------------------
  // Properties relating several assertions

  /**
   * Once an assertion passed or was marked incomplete, asserting the same
   * value again passes, in either mode, and writes nothing.
   */
  lemma RerunPasses<V>(files: map<string, string>, s: Snapshot<V>, actual: V, update1: bool, update2: bool)
    requires Assertion(files, s, actual, update1).outcome.Pass? || Assertion(files, s, actual, update1).outcome.Incomplete?
    ensures var first := Assertion(files, s, actual, update1);
            Assertion(first.files, s, actual, update2) == Step(Pass, first.files, false)
  {
  }

  /** An assertion of one test leaves the snapshot of every other test of its class alone. */
  lemma OtherTestsUntouched<V>(files: map<string, string>, t1: TestCase, t2: TestCase, d: Driver<V>, actual: V, update: bool)
    requires t1.shortClassName == t2.shortClassName && t1.testName != t2.testName
    requires t1.testFileDirectory == t2.testFileDirectory
    ensures var other := CreateSnapshotWithDriver(t2, d).Filename();
            var after := Assertion(files, CreateSnapshotWithDriver(t1, d), actual, update).files;
            (other in after <==> other in files) && (other in files ==> after[other] == files[other])
  {
    var s1, s2 := CreateSnapshotWithDriver(t1, d), CreateSnapshotWithDriver(t2, d);
    if s1.Filename() == s2.Filename() {
      FilenameInjective(s1, s2);
      SnapshotIdInjective(t1, t2);
    }
  }

  /** What the decision depends on: presence, serialisability, and agreement of the texts. */
  function Situation<V>(files: map<string, string>, s: Snapshot<V>, actual: V): (bool, bool, bool)
  {
    (s.Filename() in files, s.driver.serialize(actual).Serialized?, StoredMatches(files, s, actual))
  }

  /**
   * The branch taken does not depend on the driver: two assertions in the
   * same situation report the same kind of outcome and both write or neither.
   */
  lemma DriverIndependence<V, W>(
    files1: map<string, string>, s1: Snapshot<V>, actual1: V,
    files2: map<string, string>, s2: Snapshot<W>, actual2: W, update: bool)
    requires Situation(files1, s1, actual1) == Situation(files2, s2, actual2)
    ensures var r1, r2 := Assertion(files1, s1, actual1, update), Assertion(files2, s2, actual2, update);
            && r1.wrote == r2.wrote
            && r1.outcome.Pass? == r2.outcome.Pass?
            && r1.outcome.Failure? == r2.outcome.Failure?
            && r1.outcome.Incomplete? == r2.outcome.Incomplete?
            && r1.outcome.Error? == r2.outcome.Error?
  {
  }

  /**
   * A proof step of ScenarioFilename: the scenario's directory, separator, id,
   * snapshot suffix and extension suffix, joined, spell the expected path.
   */
  lemma ScenarioPath()
    ensures "tests/__snapshots__" + DirectorySeparator + "Foo__test_bar" + SnapSuffix + ".json"
         == "tests/__snapshots__/Foo__test_bar.snap.json"
  {
  }

  /** With the JSON extension, the snapshot of `Foo::test_bar` in `tests` is `tests/__snapshots__/Foo__test_bar.snap.json`. */
  lemma ScenarioFilename<V>(jsonDriver: Driver<V>)
    requires jsonDriver.extension == "json"
    ensures CreateSnapshotWithDriver(TestCase("Foo", "test_bar", "tests", ["phpunit"]), jsonDriver).Filename()
         == "tests/__snapshots__/Foo__test_bar.snap.json"
  {
    var s := CreateSnapshotWithDriver(TestCase("Foo", "test_bar", "tests", ["phpunit"]), jsonDriver);
    assert s.id == "Foo__test_bar";
    assert s.directory == "tests/__snapshots__";
    assert ExtensionSuffix(jsonDriver.extension) == ".json";
    ScenarioPath();
  }

  /**
   * First run of `Foo::test_bar` into an empty snapshot directory with the
   * JSON driver encoding the value as `{"a":1}`: the snapshot's file (which
   * ScenarioFilename shows is `tests/__snapshots__/Foo__test_bar.snap.json`)
   * is created with that text and
   * the test is incomplete, naming the id; the second run, update mode off,
   * passes and writes nothing.
   */
  lemma FirstRunThenRerun<V>(jsonDriver: Driver<V>, actual: V)
    requires jsonDriver.extension == "json"
    requires jsonDriver.serialize(actual) == Serialized("{\"a\":1}")
    ensures var t := TestCase("Foo", "test_bar", "tests", ["phpunit"]);
            var s := CreateSnapshotWithDriver(t, jsonDriver);
            var first := Assertion(map[], s, actual, ShouldUpdateSnapshots(t));
            && first.outcome == Incomplete("Snapshot created for Foo__test_bar")
            && first.files == map[s.Filename() := "{\"a\":1}"]
            && Assertion(first.files, s, actual, ShouldUpdateSnapshots(t)) == Step(Pass, first.files, false)
  {
    var t := TestCase("Foo", "test_bar", "tests", ["phpunit"]);
    var s := CreateSnapshotWithDriver(t, jsonDriver);
    assert !ShouldUpdateSnapshots(t) by {
      assert ["phpunit"][0] != UpdateFlag;
    }
    assert s.id == "Foo__test_bar";
    RerunPasses(map[], s, actual, false, false);
  }
}
