# Smoke-test and health-check verdicts

This project models the decision logic of two operator scripts. The I/O under that logic is abstracted away.

- **Ollama smoke test** (`skills/ollama-smoke-test/scripts/smoke_test.py`). It sends five fixed coding prompts to a local model. It judges each reply with a substring heuristic, runs either the quick pair of probes or all five, prints a pass/fail report and exits 0 only if every tested model passed.
- **Environment health check** (`skills/kb-status/scripts/health_check.py`). It probes an API server, PostgreSQL (through `psql`), the Ollama runtime, Tailscale and a list of SSH nodes. Each probe yields OK, WARN or FAIL with a detail string. The results roll up into HEALTHY, DEGRADED or UNHEALTHY, and the script exits 0 when nothing failed.

Each external call becomes an input to the model:

- In the smoke test, `gen(model, prompt)` is what one generation request produced: a reply or an exception. `available` is the list the model listing returned. `Generated(response)` means the reply's `response` field was a string. If it was JSON `null`, `result.get("response", "")` (smoke_test.py:66) returns `None`, and the validator's `response.lower()` raises inside `run_probe`'s `try`. The caller passes that case as `Raised(str(e))`, which gives the same failed result with `"Error: "` plus the first 40 characters and an empty reply (smoke_test.py:89-93).
- In the health check, the `Fetch`, `Run` and `Connect` datatypes are what the HTTP request, the subprocess or the TCP connect produced. Each constructor names the `try`/`except` branch the outcome takes. `connect(host)` gives the connect outcome for each node. Three conventions apply to these inputs:
  - `Fetched(names)` for Ollama and `Exited(0, peers)` for Tailscale mean that the call succeeded and that its reply also decoded. The reply decodes as JSON, `m["name"]` is readable for each model, and `.get`/`.values()` work on the peers.
  - If that decoding raises instead, the source's `except Exception` branch reports it (health_check.py:94-95 and 113-114). The caller passes that case as `Raised(str(e))` or `Failed(str(e))`, so a zero exit code alone does not give OK.
  - For `psql`, `Exited(rc, stderr)` with a nonzero `rc` means that its standard error decoded as UTF-8. If `result.stderr.decode()` (health_check.py:74) raises `UnicodeDecodeError` instead, the `except Exception` branch (health_check.py:79-80) reports the codec error cut to 50 characters. The caller passes that as `Failed(str(e))`.
  - `check_tailscale` has no timeout branch of its own. A `subprocess.TimeoutExpired` reaches `except Exception` there, so `TimedOut(message)` and `Failed(message)` give the same FAIL, with the exception text cut to 50 characters.

Files:

- `text.dfy` (module `Text`): the string operations both scripts use, written out over `seq<char>`. These are substring membership, ASCII lower-casing, `s[:n]`, `strip()`, `rstrip("/")`, `str(n)` and `join`.
- `smoke_test.dfy` (module `SmokeTest`): the validators, `run_probe`, the probe lists, the `OllamaSmokeTest` class with `RunAllProbes` and `PrintReport`, and the exit code of `main`.
- `health_check.dfy` (module `HealthCheck`): the five checks, `HealthResult.icon`/`color`, the class `HealthChecker` with `RunAllChecks` and `PrintReport`, the rollup and the exit code of `main`.

The objects the scripts update in place are classes. Their `results` lists are `seq` fields that the methods reassign. The loops that fill and count those lists are `while` loops, and each is proved against a specification function (`RunProbes`, `CountPassed`, `NodeChecks`, `CountStatus`). The validators and checks are pure functions.

Assumptions and choices:

- Python's `str.lower()` is modelled as ASCII-only lower-casing, and `str.strip()` as stripping the ten ASCII characters Python counts as whitespace. These are space, tab, line feed, vertical tab, form feed, carriage return and the separators U+001C to U+001F. Python's versions are Unicode-aware; the model does not capture that.
- String slicing counts characters, as Python does for code points.
- The prompts are kept as constants, and the generation oracle is keyed by model and prompt.
- With `urllib`, a 4xx or 5xx status raises `HTTPError`, which is a `URLError`. A caller of `CheckApiServer` must therefore pass such a response as `UrlError(reason)`, and the script then reports FAIL with the reason phrase, not the status code. Only a non-error status other than 200 reaches the WARN branch.
- The source writes `".lower()" in response or "lower" in response`. The first test is subsumed by the second (`HasLowerIsLower`), and either way it only chooses the success message.
- `print_report` in the smoke test returns true for an empty result list and picks the "100%" line. The model keeps this (`SummaryOfResults`).
- The health check's list of key nodes ships empty (`KeyNodes`), so `HealthMain` collects exactly the four service checks. `RunAllChecks` takes the node list as a parameter, so the per-node behaviour is modelled too.

## Model

| member | source | states |
|---|---|---|
| `SmokeTest.ProbeResult.Status` | skills/ollama-smoke-test/scripts/smoke_test.py:32-34 | "PASS" exactly when the probe passed, "FAIL" exactly when it did not |
| `SmokeTest.ProbeResult.Icon` | skills/ollama-smoke-test/scripts/smoke_test.py:28-30 | the check mark exactly when passed, the cross exactly when not |
| `SmokeTest.ValidateFibonacci` | skills/ollama-smoke-test/scripts/smoke_test.py:101-108 | passes iff the lower-cased reply contains "def ", "fibonacci" and "return"; on failure the message names the first missing item in that order |
| `SmokeTest.HasLowerIsLower` | skills/ollama-smoke-test/scripts/smoke_test.py:121 | the `has_lower` test is equivalent to `"lower" in response` alone |
| `SmokeTest.ValidatePalindrome` | skills/ollama-smoke-test/scripts/smoke_test.py:116-126 | fails with the no-definition message without "def "; otherwise passes iff the raw reply has "[::-1]" or the lower-cased one has "reversed"; `has_lower` only picks between the two success messages |
| `SmokeTest.ValidateFizzBuzz` | skills/ollama-smoke-test/scripts/smoke_test.py:134-143 | passes iff the lower-cased reply has "def ", "fizz" and "buzz" and the raw reply has "%"; the failure message says whether "def " was missing |
| `SmokeTest.ValidateJsonParse` | skills/ollama-smoke-test/scripts/smoke_test.py:151-156 | passes iff the lower-cased reply has "json" and "load"; no function definition is required; the failure message names which was missing |
| `SmokeTest.AnyContains` | skills/ollama-smoke-test/scripts/smoke_test.py:171 | the left-to-right `any` over the keywords is true iff some keyword occurs |
| `SmokeTest.ValidateErrorExplain` | skills/ollama-smoke-test/scripts/smoke_test.py:167-173 | passes iff one of the six keywords occurs in the lower-cased reply; the message follows the verdict |
| `SmokeTest.EmptyResponseFails` | skills/ollama-smoke-test/scripts/smoke_test.py:101-173 | an empty reply fails every one of the five probes |
| `SmokeTest.VerdictIgnoresCase` | skills/ollama-smoke-test/scripts/smoke_test.py:101-173 | lower-casing the reply first never changes any probe's verdict |
| `SmokeTest.FibonacciOnLowerCaseReply` | skills/ollama-smoke-test/scripts/smoke_test.py:101-108 | on a reply with no upper-case letters the fibonacci verdict is plain containment of the three words |
| `SmokeTest.FibonacciAcceptsCanonicalAnswer` | skills/ollama-smoke-test/scripts/smoke_test.py:101-108 | the reply "def fibonacci(n): return n" passes |
| `SmokeTest.JsonParseNeedsNoDefinition` | skills/ollama-smoke-test/scripts/smoke_test.py:151-156 | "json.loads" passes the json_parse probe and fails the fibonacci probe, which requires "def " |
| `SmokeTest.RunProbe` | skills/ollama-smoke-test/scripts/smoke_test.py:78-93 | a raised generation gives a failed result, an empty reply and "Error: " plus the first 40 characters of the message; otherwise verdict and details are the validator's, and the reply is stored |
| `SmokeTest.ProbeList` | skills/ollama-smoke-test/scripts/smoke_test.py:179-188 | 2 probes when quick and 5 otherwise, always starting with fibonacci and palindrome |
| `SmokeTest.FullListRunsEachProbeOnce` | skills/ollama-smoke-test/scripts/smoke_test.py:179-188 | the full list contains every probe and no probe twice |
| `SmokeTest.RunProbes` | skills/ollama-smoke-test/scripts/smoke_test.py:190-193 | one result per probe |
| `SmokeTest.RunProbesAt` | skills/ollama-smoke-test/scripts/smoke_test.py:190-193 | the i-th result is the i-th probe run against the current model |
| `SmokeTest.ResultNamesInOrder` | skills/ollama-smoke-test/scripts/smoke_test.py:177-197 | quick results are named fibonacci, palindrome; full results fibonacci, palindrome, fizzbuzz, json_parse, error_explain |
| `SmokeTest.CountPassed` | skills/ollama-smoke-test/scripts/smoke_test.py:204 | the pass count never exceeds the number of results |
| `SmokeTest.CountPassedAll` | skills/ollama-smoke-test/scripts/smoke_test.py:204-205 | `passed == total` iff every result passed, so also for no results |
| `SmokeTest.CountPassedNone` | skills/ollama-smoke-test/scripts/smoke_test.py:204 | the pass count is zero iff no result passed |
| `SmokeTest.SummaryOfResults` | skills/ollama-smoke-test/scripts/smoke_test.py:222-227 | `Summary`, the branch `print_report` picks: the 100% line iff all passed, the 0% line iff there were results and none passed, the partial line otherwise |
| `SmokeTest.RowOf` | skills/ollama-smoke-test/scripts/smoke_test.py:218 | a row keeps the name, shows the result's status (PASS iff passed, FAIL otherwise), and shows exactly `details[:30]` |
| `SmokeTest.RunPassesIff` | skills/ollama-smoke-test/scripts/smoke_test.py:190-232 | a run's stored results all pass iff the model passes every probe of the chosen list |
| `SmokeTest.OllamaSmokeTest.constructor` | skills/ollama-smoke-test/scripts/smoke_test.py:42-47 | a host argument beats OLLAMA_HOST, which beats the default; trailing slashes are stripped; the model defaults to deepseek-coder:33b; no results yet |
| `SmokeTest.OllamaSmokeTest.RunAllProbes` | skills/ollama-smoke-test/scripts/smoke_test.py:177-197 | the stored results become exactly the chosen probes run in order against the current model; earlier results are discarded |
| `SmokeTest.ReportRows` | skills/ollama-smoke-test/scripts/smoke_test.py:217-218 | one row per result, in order, each the result's row |
| `SmokeTest.OllamaSmokeTest.PrintReport` | skills/ollama-smoke-test/scripts/smoke_test.py:199-232 | returns true iff every stored result passed; the summary line is the one the counts select; one truncated row per result |
| `SmokeTest.TestEachModel` | skills/ollama-smoke-test/scripts/smoke_test.py:257-263 | with at least one installed model: passes iff every installed model passes every probe; afterwards the last model is current and its results are stored |
| `SmokeTest.TestModel` | skills/ollama-smoke-test/scripts/smoke_test.py:260-262 | the given model becomes current, its probe results are stored, and the round passes iff that model passes every probe |
| `SmokeTest.AllOfIff` | skills/ollama-smoke-test/scripts/smoke_test.py:257-263 | the flag built up model by model is true iff every model satisfies the test |
| `SmokeTest.TestCurrentModel` | skills/ollama-smoke-test/scripts/smoke_test.py:266-268 | the stored results become the chosen probes run against the current model, and the report passes iff the model passes every probe |
| `SmokeTest.SmokeMain` | skills/ollama-smoke-test/scripts/smoke_test.py:250-269 | exit 0 iff every tested model passed every probe; with `--all` and no installed models, exit 1 |
| `Text.ContainsIgnoresCase` | skills/ollama-smoke-test/scripts/smoke_test.py:120 | for a needle without letters, searching the lower-cased reply is the same as searching the raw one |
| `Text.ContainsTransitive` | skills/ollama-smoke-test/scripts/smoke_test.py:121 | a string containing `u` contains everything `u` contains |
| `Text.ToLower` | skills/ollama-smoke-test/scripts/smoke_test.py:102 | same length, and each character is lower-cased (ASCII only) |
| `Text.StripTrailing` | skills/ollama-smoke-test/scripts/smoke_test.py:46 | `rstrip`: a prefix with no trailing `c`, and only `c` characters were removed |
| `Text.Strip` | skills/kb-status/scripts/health_check.py:74 | `strip()`: a contiguous piece with no whitespace at either end, and only whitespace was cut off |
| `Text.Take` | skills/kb-status/scripts/health_check.py:74 | `s[:n]`: the prefix of length min(len(s), n) |
| `Text.Join` | skills/kb-status/scripts/health_check.py:90 | `sep.join(xs)`: empty for no pieces, the piece itself for one piece, and it starts with the first piece; with `JoinSnoc` this fixes every join |
| `Text.JoinSnoc` | skills/kb-status/scripts/health_check.py:90 | appending a piece appends the separator and that piece, for every non-empty list |
| `Text.MissingCharNotContained` | skills/ollama-smoke-test/scripts/smoke_test.py:102 | a string that lacks some character of `t` does not contain `t` |
| `Text.NatToString` | skills/kb-status/scripts/health_check.py:54 | `str(n)`: non-empty, decimal digits, no leading zero |
| `Text.NatToStringRoundTrip` | skills/kb-status/scripts/health_check.py:54 | reading back the printed digits gives the number |
| `HealthCheck.HealthResult.Icon` | skills/kb-status/scripts/health_check.py:29-31 | total: a symbol for each of OK, WARN and FAIL, and "?" exactly for any other status |
| `HealthCheck.HealthResult.Color` | skills/kb-status/scripts/health_check.py:33-35 | total: a colour for each of OK, WARN and FAIL, and "" exactly for any other status |
| `HealthCheck.CheckApiServer` | skills/kb-status/scripts/health_check.py:47-58 | OK iff status 200; WARN with "Status <code>" iff another status; FAIL iff a URLError or another exception, with its reason or text |
| `HealthCheck.CheckPostgresql` | skills/kb-status/scripts/health_check.py:60-80 | OK iff return code 0; nonzero gives FAIL with the stripped (decoded) stderr cut to 50 characters; a timeout gives FAIL; a missing psql gives WARN; other exceptions give FAIL, cut to 50 |
| `HealthCheck.ModelsDetail` | skills/kb-status/scripts/health_check.py:90 | the detail for one, two, and three or more models: the count, " models: ", then the first one, two or three names separated by ", " |
| `HealthCheck.CheckOllama` | skills/kb-status/scripts/health_check.py:82-95 | OK iff a non-empty model list, with "<count> models: " and the first three names; WARN iff the list is empty; FAIL otherwise |
| `HealthCheck.CountOnline` | skills/kb-status/scripts/health_check.py:108 | the online count is at most the number of peers, and zero iff no peer is online |
| `HealthCheck.CheckTailscale` | skills/kb-status/scripts/health_check.py:97-114 | OK iff return code 0 with a decoded reply, reporting online peers plus one; nonzero gives FAIL; a missing binary gives WARN; other exceptions give FAIL, cut to 50 |
| `HealthCheck.TailscaleNodeCountBounds` | skills/kb-status/scripts/health_check.py:108-109 | the reported node count is between 1 and peers + 1, and is 1 iff no peer is online |
| `HealthCheck.CheckNodeConnectivity` | skills/kb-status/scripts/health_check.py:116-129 | never WARN; OK iff `connect_ex` returned 0; a closed port, a timeout or an exception gives FAIL with its detail |
| `HealthCheck.NodeChecks` | skills/kb-status/scripts/health_check.py:146-147 | one result per node |
| `HealthCheck.NodeChecksAt` | skills/kb-status/scripts/health_check.py:146-147 | the i-th node result is the check of the i-th node |
| `HealthCheck.AllChecksOrder` | skills/kb-status/scripts/health_check.py:131-149 | `AllChecks`, the list `run_all_checks` builds, holds 4 + nodes results: API, PostgreSQL, Ollama, Tailscale, then one per node in list order |
| `HealthCheck.CountStatus` | skills/kb-status/scripts/health_check.py:167-168 | a status count never exceeds the number of results |
| `HealthCheck.CountStatusZero` | skills/kb-status/scripts/health_check.py:167-170 | a status count is zero iff no result carries that status |
| `HealthCheck.CountStatusAppend` | skills/kb-status/scripts/health_check.py:167-168 | counts add up over concatenation |
| `HealthCheck.Rollup` | skills/kb-status/scripts/health_check.py:170-175 | HEALTHY iff no fails and no warnings; DEGRADED iff no fails and some warnings; UNHEALTHY iff some fails |
| `HealthCheck.OverallOfResults` | skills/kb-status/scripts/health_check.py:167-175 | `OverallOf`, the rollup of a result list: HEALTHY iff no FAIL and no WARN result; DEGRADED iff no FAIL and some WARN; UNHEALTHY iff some FAIL |
| `HealthCheck.UnknownStatusIgnored` | skills/kb-status/scripts/health_check.py:167-168 | a result with a status other than the three never changes the verdict |
| `HealthCheck.CountStatusPermutation` | skills/kb-status/scripts/health_check.py:167-168 | two result lists with the same multiset of results have the same status counts |
| `HealthCheck.OverallIgnoresOrder` | skills/kb-status/scripts/health_check.py:167-175 | the verdict does not depend on the order of the results: any permutation keeps it |
| `HealthCheck.RowOf` | skills/kb-status/scripts/health_check.py:161-162 | a row keeps component, status and icon, and shows exactly `details[:40]` |
| `HealthCheck.NoFailIff` | skills/kb-status/scripts/health_check.py:131-178 | no FAIL among the collected results iff each service was reached, psql and tailscale exited 0 or are missing, and every node connect returned 0 |
| `HealthCheck.HealthyIff` | skills/kb-status/scripts/health_check.py:131-175 | HEALTHY iff API 200, psql 0, a non-empty model list, tailscale 0 and every node reachable |
| `HealthCheck.HealthChecker.constructor` | skills/kb-status/scripts/health_check.py:39-45 | each setting comes from its environment variable, else its default; no results yet |
| `HealthCheck.HealthChecker.RunAllChecks` | skills/kb-status/scripts/health_check.py:131-149 | the stored results become exactly the four service checks, then one check per node; earlier results are replaced |
| `HealthCheck.HealthChecker.PrintReport` | skills/kb-status/scripts/health_check.py:151-178 | the verdict is the rollup of the counts; returns `fails == 0`, true iff no result is FAIL, so a DEGRADED run is healthy; one truncated row per result |
| `HealthCheck.HealthMain` | skills/kb-status/scripts/health_check.py:181-185 | exit 0 iff no service check failed, with the shipped (empty) node list |

## Left out

- HTTP requests, `psql` and `tailscale` subprocesses, socket connects and JSON decoding are not modelled; their outcomes are inputs. The same holds for `generate` and `list_models` in the smoke test.
- Durations and `total_time` are wall-clock floats, and the `pct` percentage is the float ratio `passed / total * 100`. None of them is modelled. The summary line carries the pair (passed, total) instead.
- Printing, ANSI colour codes in the report lines, headers and column padding are left out. `PrintReport` returns the chosen verdict and the rows' cell contents.
- The `argparse` options are inputs to `SmokeMain` (`all`, `quick`, host, model). The request timeout is left out.
- The smoke test's `ProbeResult.color` is not modelled, because it is presentation only.
- Text.ToLower: ASCII-only lower-casing; it does not capture Python's Unicode case mapping.
- Text.Strip: strips the ten ASCII whitespace characters only; it does not capture the non-ASCII characters in Python's whitespace set, such as U+0085 and U+00A0.
- The generation oracle `gen` is a function, so asking the same model the same prompt twice yields the same reply. The script asks each model each prompt once per run, so no behaviour depends on this.
- SmokeMain: does not model the timeout setting. When `--timeout 0` is given, the constructor evaluates `int(os.environ.get("OLLAMA_TIMEOUT", "60"))` (smoke_test.py:45). If that variable is not an integer, the script raises `ValueError` before any probe runs. The model has no such exit.
- HealthCheck.NodeChecks: `connect` is a function of the host, so two nodes with the same address get the same connect outcome. The real script connects once per node, and those connects could differ.
