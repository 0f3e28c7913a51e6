# Snapshot assertions for PHPUnit, modelled in Dafny

This project models the `MatchesSnapshots` trait of a PHPUnit snapshot testing
package. A test asserts that an actual value matches a stored snapshot. On the
first run the snapshot file is created from the driver's serialisation of the
value and the test is marked incomplete. Later runs re-serialise the value and
compare it with the stored text. In update mode (the `--update-snapshots`
argument), a snapshot that no longer matches is overwritten and the test is
marked incomplete. A snapshot that still matches is left untouched and the
test passes.

Files:

- `drivers.dfy` (module `Drivers`): a driver is a deterministic serialisation
  function and a file extension. `Match` compares a stored text with a fresh
  serialisation.
- `snapshots.dfy` (module `Snapshots`): a `Snapshot` value (id, directory,
  driver) with its derived filename. `SnapshotStore` is the filesystem, a class
  whose `files` map (filename to stored text) is changed in place by `Create`.
  It also keeps a ghost log `writes` of every write, so that "nothing was
  written" can be stated and not only "the content is the same".
- `matches_snapshots.dfy` (module `MatchesSnapshots`): the trait itself. It
  covers identity and directory derivation, the update flag, and driver
  defaulting. `DoSnapshotAssertion` is the imperative workflow on the store;
  its contract ties the outcome and the new store to the pure function
  `Assertion`. Lemmas then state what the trait promises across one or
  several assertions.

The reflected class name, test name, test-file directory and process
arguments are fields of a `TestCase` value passed in. The concrete encodings of
the dump, XML and JSON drivers are parameters (`BuiltinDrivers`).

The `Snapshot` class and the drivers are modelled only at the interface the
trait uses: a snapshot's `exists`, `create`, `assertMatches` and `id`, and a
driver's serialisation, extension and match. A snapshot's file is assumed to be
`{directory}/{id}.snap`, or `{directory}/{id}.snap.{extension}` when the
driver declares an extension.

## Model

| member | source | states |
|---|---|---|
| `Drivers.Match` | src/MatchesSnapshots.php:91-99 | a stored text matches exactly when the actual value serialises to that text; otherwise it is a mismatch carrying the stored and the fresh text, or an error when the value cannot be serialised |
| `Drivers.MatchesOwnSerialization` | src/MatchesSnapshots.php:99 | a value always matches the text it serialises to (a fresh snapshot is matched by the value it was created from) |
| `Snapshots.Snapshot.Filename` | src/MatchesSnapshots.php:80-81 | the backing file is derived from the bound directory, id and driver extension; the directory and the id can be read back out of it |
| `Snapshots.FilenameInjective` | src/MatchesSnapshots.php:80-81 | in one directory and one format, two snapshots share a file only if they have the same id |
| `Snapshots.FilenameSeparatesFormats` | src/MatchesSnapshots.php:80-81 | the same snapshot id in the same directory, stored by drivers with different extensions, uses different files |
| `Snapshots.SnapshotStore.Exists` | src/MatchesSnapshots.php:80 | the snapshot exists exactly when its filename is a key of the store; asking changes nothing |
| `Snapshots.SnapshotStore.Create` | src/MatchesSnapshots.php:81 | writes the serialisation of the value to the snapshot's file, overwriting it and changing no other file, and logs exactly one write; if the value cannot be serialised, nothing is written |
| `Snapshots.SnapshotStore.AssertMatches` | src/MatchesSnapshots.php:91 | reads without changing anything; the result is the driver's match against the stored text; a missing file is an error, never a mismatch; it matches exactly when the file holds the value's serialisation |
| `MatchesSnapshots.SnapshotId` | src/MatchesSnapshots.php:36-39 | the id is the class short name, then `__`, then the test name, and splits back into those parts |
| `MatchesSnapshots.SnapshotIdInjective` | src/MatchesSnapshots.php:38 | two tests of the same class get the same id only if they have the same name |
| `MatchesSnapshots.SnapshotIdCollidesAcrossClasses` | src/MatchesSnapshots.php:38 | across classes the id is not unique: class `A__testB` with test `testC` and class `A` with test `testB__testC` get the same id |
| `MatchesSnapshots.SnapshotDirectory` | src/MatchesSnapshots.php:48-53 | the directory is the test file's directory, then the separator, then `__snapshots__` |
| `MatchesSnapshots.InArray` | src/MatchesSnapshots.php:66 | a strict scan finds the needle exactly when some element equals it |
| `MatchesSnapshots.ShouldUpdateSnapshots` | src/MatchesSnapshots.php:64-67 | update mode is on if and only if `--update-snapshots` is one of the arguments |
| `MatchesSnapshots.UpdateFlagIsExact` | src/MatchesSnapshots.php:66 | `-d --update-snapshots` as separate arguments turns update mode on; `--update-snapshots=1` does not |
| `MatchesSnapshots.CreateSnapshotWithDriver` | src/MatchesSnapshots.php:69-76 | the snapshot is bound to the test's id, the test's snapshot directory and the given driver, so its file lies under the test file's directory |
| `MatchesSnapshots.SelectDriver` | src/MatchesSnapshots.php:13-15 | with no driver given, the default dump driver is used; otherwise the given driver |
| `MatchesSnapshots.MessagesDiffer` | src/MatchesSnapshots.php:83-95 | the "created" and "updated" messages for an id are never the same, so the message says which branch ran |
| `MatchesSnapshots.Assertion` | src/MatchesSnapshots.php:78-100 | a missing snapshot is created, and that is reported as incomplete with "Snapshot created for " + id; an existing snapshot passes exactly when it holds the fresh serialisation; a differing one fails only outside update mode and carries both texts; in update mode it is overwritten and reported as incomplete with "Snapshot updated for " + id; an unserialisable value is an error and writes nothing; a write happens exactly when the outcome is incomplete, and it stores the fresh serialisation under this snapshot's filename; after a pass or an incomplete outcome the file holds the fresh serialisation |
| `MatchesSnapshots.DoSnapshotAssertion` | src/MatchesSnapshots.php:78-100 | with update mode read from the arguments, the outcome, the new files and the write log are those of `Assertion`: at most one write, only to this snapshot's file |
| `MatchesSnapshots.AssertMatchesSnapshot` | src/MatchesSnapshots.php:13-18 | runs the workflow on this test's snapshot (id and directory derived from the test), bound to the selected driver |
| `MatchesSnapshots.AssertMatchesXmlSnapshot` | src/MatchesSnapshots.php:20-23 | the same workflow, bound to the XML driver |
| `MatchesSnapshots.AssertMatchesJsonSnapshot` | src/MatchesSnapshots.php:25-28 | the same workflow, bound to the JSON driver |
| `MatchesSnapshots.RerunPasses` | src/MatchesSnapshots.php:78-100 | after an assertion passed or was incomplete, asserting the same value again passes in either mode and writes nothing |
| `MatchesSnapshots.OtherTestsUntouched` | src/MatchesSnapshots.php:78-100 | an assertion of one test leaves the snapshot file of every other test of the same class, asserted with the same driver, exactly as it was (across drivers this can fail: test `t.snap` with a driver without extension and test `t` with extension `snap` share a file) |
| `MatchesSnapshots.DriverIndependence` | src/MatchesSnapshots.php:78-100 | the branch taken depends only on whether the file exists, whether the value serialises, and whether the texts agree, not on the driver; the outcome kind and whether a write happens are the same |
| `MatchesSnapshots.ScenarioFilename` | src/MatchesSnapshots.php:36-53 | with the JSON extension, the snapshot of `Foo::test_bar` whose test file is in `tests` is `tests/__snapshots__/Foo__test_bar.snap.json` |
| `MatchesSnapshots.FirstRunThenRerun` | src/MatchesSnapshots.php:80-84 | `Foo::test_bar` into an empty directory creates its file with the value's text and is incomplete with "Snapshot created for Foo__test_bar"; the re-run passes and writes nothing |

## Left out

- The real filesystem and the `Snapshot` class behind `exists`, `create` and `assertMatches`: files are an in-memory map keyed by filename. Failed writes (permissions, a full disk) are not modelled. A failed read can only arise from a missing file, and that is an error.
- Reflection (`getShortName`, `getFileName`) and `$_SERVER['argv']`: the class short name, the test name, the test file's directory and the arguments are given in `TestCase`.
- `MatchesSnapshots.SnapshotDirectory`: PHP's `dirname` is not modelled. The directory of the test file is given.
- `DIRECTORY_SEPARATOR` is fixed as `/` (a POSIX platform). The snapshot directory and the snapshot's file are both joined with this one separator.
- PHPUnit's `markTestIncomplete`, `ExpectationFailedException` and assertion failures: these are the `Outcome` values `Incomplete`, `Failure` and `Pass`. Any other exception escaping the driver is `Error`.
- `Drivers.Match`: a stored text matches only a literally equal serialisation. A driver whose own match accepts equivalent but differently written texts (such as a structural JSON or XML comparison) is not modelled.
- The breadth of the `catch` at src/MatchesSnapshots.php:92: it catches every expectation failure raised inside a driver's match. In the model the only expectation failure is a content mismatch.
- The concrete dump, XML and JSON encodings: each driver's serialisation is an uninterpreted deterministic function, and its extension an opaque string.
- Test names that PHPUnit decorates with a data-set suffix are taken as given strings.
- Concurrency: the model is one assertion at a time, so two processes writing one snapshot file are not modelled.
