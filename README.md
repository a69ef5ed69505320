# MUBench core, modelled in Dafny

MUBench is a benchmark of API misuses and of the detectors that look for them.
This project models five small pieces of its logic, with their file system,
database and logging calls turned into inputs:

- **Misuse metadata** (`misuse.dfy`, module `MisuseData`). The `Misuse` record
  has an identity (lower-cased id, directory path, description file) and lazily
  read attributes of its parsed `misuse.yml`. Each attribute except
  `is_apis_are_internal` is cached in its own field, and each missing key gets a
  default or raises an error. Equality and hashing use only the path. The parsed document is the constructor input
  `document` (a YAML value), and the `.java` files below the correct-usage
  directory are the input `javaFiles`.
- **Benchmark command line** (`benchmark.dfy`, module `BenchmarkCli`).
  `Benchmark.__init__` fills in missing white/black lists. The `_setup_*`
  methods and the `run` dispatch append task handlers to the task runner, and
  `IndentFormatter.format` indents log lines by logger depth.
- **Runs of detector executions** (`run.dfy`, module `Runs`). These are the
  `Execution`/`Run` facts that `TestRun` asserts. An execution's result is set
  after the run is built, and the run reads its members' current results. How a
  run combines several results is the parameter `aggregate`, which is
  constrained only by the single-member facts.
- **Review site data processing** (`data_processor.dfy`, module
  `DataProcessor`). `getPotentialHitsIndex` groups the potential-hits query into
  hits, keeping PHP's strict and loose comparisons apart. `getPrefixTable`,
  `getDatasets` and `getDetectors` pick one `_`-separated component out of the
  table names that start with a prefix. The query rows, the table list and
  `getStats` are inputs.
- **Version index page** (`version_index.dfy`, module `VersionIndex`).
  `generate` keeps the directories whose name contains the project id and writes
  one link paragraph per kept directory. The listing is an input; the page and
  its target path are the outputs.

`text.dfy` (module `Text`) holds the Python and PHP string operations these
need: lower-casing, counting, `sep.join`, splitting at a character, substring
search, `str.replace` of one character, repetition, POSIX `os.path.join`, and
decimal rendering. `wrappers.dfy` holds `Option` and `Result`.

## Model

| member | source | states |
|---|---|---|
| MisuseData.Misuse.constructor | mubench.pipeline/data/misuse.py:40-57 | `id` is the lower-cased dotted id, `path` is `join(project path, "misuses", misuse_id)`, `misuse_file` is `join(path, "misuse.yml")`, and all nine caches start empty |
| MisuseData.MisuseId | mubench.pipeline/data/misuse.py:45 | the id is `lower(project) + "." + lower(version) + "." + lower(misuse)`, and lower-casing it again changes nothing |
| MisuseData.MisuseFileInDirectory | mubench.pipeline/data/misuse.py:50-51 | for a relative misuse id, the description file is `path + "/misuse.yml"` and `path` ends in the misuse id |
| MisuseData.Misuse.Yaml | mubench.pipeline/data/misuse.py:59-64 | returns the parsed document; it parses (and counts a load) only when `_YAML` is `None`, and afterwards `_YAML` holds the document |
| MisuseData.LocationOf | mubench.pipeline/data/misuse.py:84-88 | a missing `location` is a `KeyError`; a location that is not a mapping is an error (`AttributeError`); an empty location gives file "", method "" and line -1 |
| MisuseData.LocationFields | mubench.pipeline/data/misuse.py:86-87 | for any location mapping, each of file, method and line is the given value when present and "", "" or -1 when missing |
| MisuseData.LocationWithoutLine | benchmark_tests/data/test_run.py:21 | the location `{"file": "a", "method": "m()"}` gives file "a", method "m()" and line -1 |
| MisuseData.Misuse.GetLocation | mubench.pipeline/data/misuse.py:83-88 | returns `LocationOf(document)`; fills the cache on success; with a filled cache it neither reads nor loads the file; it changes nothing but `_YAML`, the load count and `__location` |
| MisuseData.LocationTwice | mubench.pipeline/data/misuse.py:59-88 | two reads of `location` give the same answer, and a non-null description file is parsed exactly once |
| MisuseData.Misuse.GetDescription | mubench.pipeline/data/misuse.py:90-95 | returns `yaml.get("description", "")`; the value is cached unless it is `None` |
| MisuseData.FixOf | mubench.pipeline/data/misuse.py:97-102 | a missing `fix` gives description "", commit "" and revision ""; the result is an `AttributeError` exactly when the document or its `fix` is not a mapping |
| MisuseData.FixFields | mubench.pipeline/data/misuse.py:100-101 | for any fix mapping, description and commit are the given values or "", and the revision is `str` of the given value or "" |
| MisuseData.FixRevision | mubench.pipeline/data/misuse.py:101 | the revision always goes through `str`: a string is kept, and a number becomes its (signed) decimal digits |
| MisuseData.Misuse.GetFix | mubench.pipeline/data/misuse.py:97-102 | returns `FixOf(document)`, cached after the first success, and changes only `_YAML`, the load count and `__fix` |
| MisuseData.Misuse.IsCrash | mubench.pipeline/data/misuse.py:104-108 | returns `yaml["crash"]`, so a missing key is a `KeyError`; a non-`None` value is cached |
| MisuseData.SourceOf | mubench.pipeline/data/misuse.py:110-116 | `_source` stays unassigned exactly when `source` is missing or `None`; a source without `name` assigns `None` |
| MisuseData.SourceName | mubench.pipeline/data/misuse.py:113-115 | a present, non-null `source` mapping assigns its `name`, or `None` when it has none; a `source` that is not a mapping is an `AttributeError` |
| MisuseData.Misuse.GetSource | mubench.pipeline/data/misuse.py:110-116 | with `_source` never assigned and no `source` key, the read fails with `AttributeError`; otherwise it returns the source name, or the cached `_source` when that is not `None`; `_source` is assigned only from a present `source`; when it re-reads, `_YAML` holds the document afterwards and the file is parsed only if `_YAML` was `None` |
| MisuseData.Misuse.GetApis | mubench.pipeline/data/misuse.py:118-122 | returns `yaml.get("api", [])`, cached unless `None` |
| MisuseData.Misuse.IsApisAreInternal | mubench.pipeline/data/misuse.py:124-126 | returns `yaml.get("internal", False)`; it caches nothing but the document, which `_YAML` holds afterwards, parsed only if `_YAML` was `None` |
| MisuseData.Misuse.GetViolations | mubench.pipeline/data/misuse.py:128-132 | returns `yaml.get("violations", [])`, cached unless `None` |
| MisuseData.MissingKeys | mubench.pipeline/data/misuse.py:83-132 | for a description with none of the keys: `location` and `is_crash` raise `KeyError`, `source` is unassigned, and the other attributes take their defaults (`""`, empty fix, `[]`, `False`, `[]`) |
| MisuseData.CorrectUsagesOf | mubench.pipeline/data/misuse.py:66-77 | no directory, or a directory without `.java` files, gives the empty set; otherwise the result holds exactly one correct usage per `.java` file found, rooted at the directory, with the path below it |
| MisuseData.Misuse.GetCorrectUsages | mubench.pipeline/data/misuse.py:66-77 | returns `CorrectUsagesOf(correct_usage_path, files)`; it scans the directory again whenever the cache is empty |
| MisuseData.CorrectUsagesTwice | mubench.pipeline/data/misuse.py:66-77 | with no correct-usage directory, two reads both give the empty set and both scan the directory |
| MisuseData.LocationEqualsIsEquality | mubench.pipeline/data/misuse.py:22-23 | `Location.__eq__` holds exactly when file, method and line are all equal |
| MisuseData.LocationStrOmitsLine | mubench.pipeline/data/misuse.py:19-23 | two locations with the same `str` can still be unequal, because `__str__` leaves out the line |
| MisuseData.DisplayShowsId | mubench.pipeline/data/misuse.py:140-141 | `__str__` is `misuse '<id>'`: the id can be read back from between the quotes, and two misuses display alike exactly when their ids are equal |
| MisuseData.MisuseIdentity | mubench.pipeline/data/misuse.py:143-150 | misuse equality is reflexive, symmetric and transitive; equal misuses hash alike; `__ne__` is the negation of `__eq__` |
| BenchmarkCli.Benchmark.constructor | benchmark/benchmark.py:26-39 | missing white/black lists become `[]` on the config, present ones are kept, and a fresh runner with no handlers gets the data path and exactly those lists |
| BenchmarkCli.Benchmark.SetupCheckout | benchmark/benchmark.py:51-53 | appends exactly one Checkout handler built from the checkouts path and the force flag |
| BenchmarkCli.Benchmark.SetupCompile | benchmark/benchmark.py:55-60 | appends the checkout handlers and then one Compile handler |
| BenchmarkCli.Benchmark.SetupDetect | benchmark/benchmark.py:62-70 | appends checkout, then compile (with its own checkout), then one Detect handler |
| BenchmarkCli.Benchmark.SetupEval | benchmark/benchmark.py:72-80 | appends checkout, compile, detect (each with its nested setups), then one Evaluate handler |
| BenchmarkCli.Benchmark.SetupStats | benchmark/benchmark.py:46-49 | each level of the `_setup_stats`/`run` recursion adds one Stats handler; the runner never runs, and the call ends with the stack exhausted |
| BenchmarkCli.Benchmark.Run | benchmark/benchmark.py:82-100 | `visualize` returns with the visualizer's arguments and leaves the runner alone; `stats` adds its handlers but never runs the runner; every other subcommand, `check` included, appends its plan and runs the runner once |
| BenchmarkCli.PlanFlattened | benchmark/benchmark.py:51-80 | the handler lists are `[co]`, `[co, cp]`, `[co, co, cp, dt]` and `[co, co, cp, co, co, cp, dt, ev]` |
| BenchmarkCli.PlanStages | benchmark/benchmark.py:82-98 | the stage sequence of each subcommand; `check` and `visualize` register nothing; `eval` registers Checkout four times |
| BenchmarkCli.PlanPrerequisitesFirst | benchmark/benchmark.py:51-80 | in every plan, every Compile comes after some Checkout, every Detect after some Compile, and every Evaluate after some Detect |
| BenchmarkCli.PlanArguments | benchmark/benchmark.py:51-80 | every registered Checkout, Compile, Detect and Evaluate handler is exactly the one built from the configuration (paths, force flags, pattern frequency, detector, results path, timeout, Java options, result files), and no plan holds a Stats handler |
| BenchmarkCli.IndentFor | benchmark/benchmark.py:108-112 | the indent is empty exactly for `root`, and otherwise is four spaces per level, a level being the number of dots plus one |
| BenchmarkCli.IndentFormat | benchmark/benchmark.py:107-116 | the result is the base text with the logger's indent after every line break, and the record's `indent` attribute is removed afterwards |
| BenchmarkCli.DedentReindent | benchmark/benchmark.py:114 | re-indenting loses nothing: removing the indent after each line break gives back the base text |
| BenchmarkCli.ReindentLength | benchmark/benchmark.py:114 | the text grows by one indent per line break |
| BenchmarkCli.ReindentBreaks | benchmark/benchmark.py:114 | every line break of the result is followed by the indent |
| Runs.SingleMember | benchmark_tests/data/test_run.py:37-64 | a run of one execution answers from that execution's current result: not run gives neither success nor failure; error, timeout and success give `is_error`, `is_timeout` and `is_success` |
| Runs.RunAfterAssignment | benchmark_tests/data/test_run.py:38-40 | a result assigned after the run is built is what the run's predicates answer from |
| DataProcessor.LooseEqualsProperties | php_backend/src/DataProcessor.php:24-30 | PHP's `==` on strings is reflexive and symmetric and holds for identical strings, but also holds for the distinct strings "1" and "01" |
| DataProcessor.LooseEqualsEmpty | php_backend/src/DataProcessor.php:24 | a string is `==` to "" exactly when it is "" |
| DataProcessor.GetPotentialHitsIndex | php_backend/src/DataProcessor.php:11-54 | the loop computes `PotentialHitsIndex`: the hits its step function finishes, then the open hit with the stats of the last project and version |
| DataProcessor.EmptyQueryHit | php_backend/src/DataProcessor.php:51-53 | an empty query gives exactly one hit, with no project and the stats of table `table + "__"` |
| DataProcessor.FirstRow | php_backend/src/DataProcessor.php:17-49 | the first row opens a hit for its project and records its version with one stats entry; a first version "" is never added under `versions` |
| DataProcessor.StepStartsHit | php_backend/src/DataProcessor.php:30-37 | when project and version both differ (`!=`), the open hit is pushed unchanged and the new hit has its version under `version`, no `versions` and no stats |
| DataProcessor.StepNewVersion | php_backend/src/DataProcessor.php:24-28 | same project and another version: one entry is added to `versions` and one to `stats`, no hit is pushed, and the row's misuse is recorded |
| DataProcessor.StepSameVersion | php_backend/src/DataProcessor.php:39-49 | same project and a `==` version: the misuse is recorded when the versions are also `===`, and the row is dropped otherwise |
| DataProcessor.StepDropsRow | php_backend/src/DataProcessor.php:17-49 | a row with another project that does not start a hit leaves the state unchanged |
| DataProcessor.StepHits | php_backend/src/DataProcessor.php:30-31 | a row pushes at most one hit, and exactly when both project and version differ from the open ones |
| DataProcessor.ScannedHitCount | php_backend/src/DataProcessor.php:17-50 | the hits pushed by the loop are as many as the rows that finish a hit |
| DataProcessor.HitCount | php_backend/src/DataProcessor.php:30-52 | the result has one hit per finishing row plus one, so it is never empty |
| DataProcessor.AddMisuseDistinct | php_backend/src/DataProcessor.php:39-48 | recording a misuse appends it to its version's list when absent and leaves the list alone when present, so the list stays duplicate-free |
| DataProcessor.StepDistinct | php_backend/src/DataProcessor.php:17-49 | one loop iteration keeps every misuse list of the open hit and of the pushed hits duplicate-free |
| DataProcessor.ScannedDistinct | php_backend/src/DataProcessor.php:17-50 | after any rows, no misuse list has duplicates |
| DataProcessor.HitsDistinct | php_backend/src/DataProcessor.php:39-53 | in every returned hit, each version's misuse list has no duplicates |
| DataProcessor.ComponentExists | php_backend/src/DataProcessor.php:70 | the `suffix`-th `_` component exists exactly when `0 <= suffix <= number of underscores`, and it holds no underscore |
| DataProcessor.GetPrefixTable | php_backend/src/DataProcessor.php:65-73 | one entry per table that starts with the prefix, in table order, each being that table's `suffix`-th component (`null` when there is none) |
| DataProcessor.GetDatasets | php_backend/src/DataProcessor.php:57-59 | component 1 of every matching table |
| DataProcessor.GetDetectors | php_backend/src/DataProcessor.php:61-63 | component 2 of every matching table |
| DataProcessor.MatchingMembers | php_backend/src/DataProcessor.php:68-69 | a table is selected exactly when it is listed, non-empty and starts with the prefix |
| DataProcessor.MatchingConcat | php_backend/src/DataProcessor.php:68-72 | selection distributes over concatenation of table lists, so table order is kept |
| VersionIndex.Generate | benchmark/subprocesses/tasks/implementations/review/html_generators/version_index.py:9-18 | writes to `join(version_folder, "index.html")` the kept names' link lines joined by line breaks |
| VersionIndex.KeptMembers | benchmark/subprocesses/tasks/implementations/review/html_generators/version_index.py:12-13 | every directory entry whose name contains the project id is kept |
| VersionIndex.KeptSound | benchmark/subprocesses/tasks/implementations/review/html_generators/version_index.py:12-13 | every kept name comes from a directory entry whose name contains the project id |
| VersionIndex.KeptConcat | benchmark/subprocesses/tasks/implementations/review/html_generators/version_index.py:12-13 | the filter keeps listing order |
| VersionIndex.LinkLines | benchmark/subprocesses/tasks/implementations/review/html_generators/version_index.py:14-16 | one line per kept name, in order, each being `<p><a href="M/review.html">M</a></p>` |
| VersionIndex.LinkLineInjective | benchmark/subprocesses/tasks/implementations/review/html_generators/version_index.py:15 | different names give different lines |
| VersionIndex.PageLines | benchmark/subprocesses/tasks/implementations/review/html_generators/version_index.py:10-18 | no kept entry gives the empty page; otherwise, for names without line breaks, splitting the page at line breaks gives exactly the link lines, so there is no trailing newline |

## Left out

- `Misuse.is_misuse` is a file-existence check (`isfile`), and is not modelled.
- `Misuse.get_snippets` and `get_misuse_compile` only hand the misuse's fields to `data/snippets.py` and `data/misuse_compile.py`, which are not part of this model.
- YAML parsing, `open`, `isdir`, `os.walk` and `glob` are not modelled. The parsed document and the set of found `.java` files are constructor inputs, and each is fixed for the object's lifetime.
- `Project.path` is taken as the input `projectPath`, and `Project.MISUSES_DIR` as `"misuses"`, the name `get_misuse_compile` writes out. `data/project.py` is not part of this model.
- YAML values cover null, booleans, integers, strings, lists and mappings. Floats, dates and other tags are not modelled. `str` of a list or mapping uses a simplified `repr`: strings are quoted with `'` without escaping.
- MisuseData.Misuse.Hash: Python's salted `str.__hash__` is replaced by a fixed polynomial hash of the path; only "equal paths hash alike" is claimed.
- Python equality across types (`1 == True`) and dictionary key order are not modelled. A mapping is a list of entries where a repeated key keeps its last value.
- MisuseData.Misuse.GetSource: returning an unassigned `_source` is modelled as the error value `AttributeError("_source")`, not as a raised exception.
- `Text.Lower` lower-cases ASCII letters only; Python's `str.lower` also folds other Unicode letters.
- The prerequisite check, the visualizer, the task runner, the stats calculators and the Checkout/Compile/Detect/Evaluate tasks are not part of this model. They live in `benchmark/subprocesses/check.py`, `benchmark/subprocesses/result_processing/visualize_results.py`, `benchmark/subprocesses/tasking.py` and `benchmark/subprocesses/tasks/implementations/`. Handlers are tags carrying their constructor arguments, and the runner records only its handler list and how often it ran.
- BenchmarkCli.Benchmark.SetupStats: `_setup_stats` and `run` call each other with no base case. The model bounds the recursion by `depth`, standing for the interpreter's recursion limit, and ends in `StackExhausted`.
- BenchmarkCli.Benchmark.Run: `run` reads the module-global `config`, not `self.config`; the model uses the one configuration the benchmark was built with.
- `self.pattern_frequency = 20` is stored but never read (Compile takes `config.pattern_frequency`), so it is not modelled.
- The script part of `benchmark.py` (argument parsing, logging handlers, log-file rollover) is I/O and is not modelled.
- BenchmarkCli.IndentFormat: the base `logging.Formatter.format` is the parameter `baseFormat`, a function of the indent the record carries.
- Runs: the Execution and Run implementations (`benchmark/data/detector_execution.py`, `benchmark/data/run.py`) are not part of this model. Only the single-member facts the tests assert are stated, through `Runs.AgreesOnSingleMember`. How a run combines several executions stays abstract. `Runs.AllOrAny` is only a witness that these facts can be met, not the benchmark's way of combining executions. The tests' mocks, temporary directories and `DummyDetector` are not modelled.
- DataProcessor: the model assumes PHP 5, where `split` exists and `substr("", 0, n)` is `false`, so an empty table name never matches. PHP's `==` is modelled for strings that read as integers (optional sign, digits). Other numeric strings (decimals, exponents, leading blanks) compare as plain strings.
- DataProcessor: the database calls `getSmallDataPotentialHits`, `getTables` and `getStats` are inputs. `getStats` is an arbitrary function of the table name, and the rows are strings.
- DataProcessor: PHP arrays are records with one field per key the code writes. The order of keys in the JSON that an array would serialise to is not modelled.
- `php_backend/src/middleware.php` (HTTP authentication and database wiring) and `mubench.pipeline/tests/data/stub_detector.py` (a test stub) hold no logic to model.
- VersionIndex.Generate: `listdir` and `isdir` are the input listing. `safe_write` is the returned target and text; its third argument is not modelled.
