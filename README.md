# Service monitor: probe, status diff and Pushover notification

A model of `monitor.py`, a cron-driven script. It probes REST endpoints over
HTTP and SSH hosts on TCP port 22. It keeps the last status code of every
target in one small file per target, in `STATUS_DIR`. It sends a Pushover
message only when a target's code differs from the one stored by the
previous run.

The model has six modules:

- `Text` (text.dfy): the Python string operations the script uses.
  `str.strip()` uses Python's whitespace set. `str(int)` comes with a
  decimal reading that proves it injective. The file also covers the
  substring test `in` and one-character `str.replace`.
- `Configuration` (configuration.dfy): the process-wide settings
  `CLIENT_NAME`, `STATUS_DIR`, `DEFAULT_TIMEOUT_MS` and the two Pushover
  credentials, with their defaults. It also holds the parsed `urls` and
  `hosts-ssh` values, each a list or a null.
- `Probe` (probe.dfy): `check_api` and `check_ssh` as pure functions. Each
  takes the outcome of the network call as an input datatype.
- `StateStore` (state_store.dfy):
  - The state-file naming.
  - The specification functions `Step`, one `sendMessage` call, and `Replay`, a sequence of calls.
  - The class `Monitor`. Its fields are `settings` (the `Settings` value, of which `statusDir` names the directory the monitor stands for), `files` (a map from file name to content) and `sent` (the Pushover messages sent so far). Its method `SendMessage` is proved to perform `Step`.
- `Orchestrator` (orchestrator.dfy): `main` as the method `Run`. Its two
  loops appear as `PollUrls` and `PollHosts`. They are proved to make
  exactly the calls listed by `Observations`: URL entries first, then SSH
  hosts, each in list order.

Some behaviour of the script worth stating plainly:

- An SSH connection error gives code -1, never an HTTP-like code.
- `check_api` has no `okText`/`errorText` checks. Its `checkText` check only looks for `"500"` in the body.
- The only notification channel is Pushover. It fires on every change when both credentials are non-empty. There is no webhook or email routing.
- An SSH timeout returns `timeout_ms` itself, in milliseconds, as the code. `main` always passes `DEFAULT_TIMEOUT_MS`.

## Model

| member | source | states |
|---|---|---|
| Text.Strip | monitor.py:168 | `strip()` returns a slice `s[i..j]` of its input such that everything before `i` and from `j` on is whitespace; the result neither starts nor ends with whitespace |
| Text.IntToString | monitor.py:170 | `str(code)` is non-empty and starts with '-' exactly for negative codes. After the sign come decimal digits without leading zeros whose value is the absolute value of the code. It contains no whitespace |
| Text.IntToStringInjective | monitor.py:175 | two codes print alike exactly when they are equal, so the textual comparison of `prev_code != str(code)` compares codes |
| Text.StripIntToString | monitor.py:166-170 | a file written with `str(code)` reads back, after `strip()`, as the same text |
| Text.Contains | monitor.py:150 | `"500" in text` holds exactly when the substring occurs at some index |
| Text.ReplaceChar | monitor.py:164 | `replace(a, b)` keeps the length and changes exactly the occurrences of `a` into `b` |
| Probe.CheckApi | monitor.py:138-158 | the result is `(200, "OK")` exactly when the answer is 200 and the body passes its checks. An answer's code is always its HTTP status, so an invalid-JSON body or a body containing "500" still gives 200. A non-200 status gives "Unexpected status: <status>". A timeout gives `(DEFAULT_TIMEOUT_MS, "Timeout")`. Other exceptions, including a non-decode failure of the JSON parser, give `(-1, "Error: ...")` |
| Probe.JsonCheckTakesPrecedence | monitor.py:143-152 | with `checkJson` set, `checkText` has no effect, and valid JSON on status 200 is OK |
| Probe.CheckSsh | monitor.py:83-112 | `(200, "SSH OK")` exactly when port 22 accepted the connection. A timeout gives `(timeout_ms, "Timeout")`. Any other error gives `(-1, "Port 22 error: ...")` |
| StateStore.StateFileName | monitor.py:164 | the file name is the target name with every ':' and '/' turned into '_', every other character and the length kept, then ".txt"; it contains no ':' and no '/' |
| StateStore.SameStateFile | monitor.py:164 | two targets share a file exactly when their names have equal length and agree everywhere up to ':', '/' and '_' |
| StateStore.ColonSlashCollide | monitor.py:164 | "a:b", "a/b" and "a_b" all map to "a_b.txt"; "host:8080/api" maps to "host_8080_api.txt" |
| StateStore.Step | monitor.py:160-180 | after one call the target's file holds `str(code)`, whether or not it existed. No other file changes. At most one message is appended, exactly when the status changed and both credentials are non-empty. Its title is "<name> error" and its text "<code> <message> (<CLIENT_NAME>)" |
| StateStore.RepeatIsQuiet | monitor.py:165-175 | right after a code is written, observing a target with the same file reports a change exactly when the new code differs |
| StateStore.ReplayAppend | monitor.py:191-197 | one more `sendMessage` after a sequence of calls is one more `Step` |
| StateStore.ReplayPrefix | monitor.py:191-197 | the state after the first k+1 calls is one `Step` past the state after the first k |
| StateStore.ReplayConcat | monitor.py:191-197 | the URL loop followed by the host loop is the replay of the concatenated calls |
| StateStore.ReplayKeeps | monitor.py:164-173 | a file that no call of a sequence names keeps its presence and its content |
| StateStore.ReplayRecords | monitor.py:164-173 | after a sequence of calls in which targets sharing a file agree on the code, every target's file holds its code |
| StateStore.ReplayQuiet | monitor.py:165-180 | when every target's file already holds its code, the calls change no file and send nothing |
| StateStore.RerunIsQuiet | monitor.py:165-180 | repeating the same observations changes no file and sends no message, provided targets that share a file agree on the code |
| StateStore.SilentWithoutPushover | monitor.py:179-180 | when either credential is empty, no sequence of calls sends any message |
| StateStore.DefaultsAreSilent | monitor.py:73-78 | the settings used when the configuration is not a dictionary have empty credentials, so no call sends anything |
| StateStore.CollidingTargetsAlertEveryRun | monitor.py:164-180 | two targets that collide on one file and have different codes overwrite each other, so every later run sends a message for both |
| StateStore.EdgeTriggeredRuns | monitor.py:165-180 | one target first seen with 200 sends a message, seen with 200 again sends none, then seen with 500 sends one; the file ends holding "500" |
| StateStore.Monitor.constructor | monitor.py:66-78 | a monitor starts from the given settings and directory contents, with no message sent |
| StateStore.Monitor.SendMessage | monitor.py:160-180 | a change is reported exactly when there was no file or its stripped content differs from `str(code)`. The file is overwritten with `str(code)` in both cases. A message is appended only on a change with both credentials set. The new state is `Step` of the old |
| Orchestrator.Observations | monitor.py:188-197 | when both values are lists: one call per URL entry and per host. All URL entries come first, in list order, keyed by `name`. Then all hosts, in list order, keyed by the host string and probed with `DEFAULT_TIMEOUT_MS` |
| Orchestrator.UrlObservations | monitor.py:191-193 | one `check_api` result per URL entry, in order, keyed by the entry's name |
| Orchestrator.HostObservations | monitor.py:195-197 | one `check_ssh` result per host, in order, keyed by the host |
| Orchestrator.PollUrls | monitor.py:191-193 | the URL loop leaves the store as the replay of its calls |
| Orchestrator.PollHosts | monitor.py:195-197 | the host loop leaves the store as the replay of its calls |
| Orchestrator.Run | monitor.py:182-197 | a configuration that is not a dictionary, or a null `urls` value, gives exit code 1 with nothing probed or written. A null `hosts-ssh` value gives exit code 1 after the URL loop has run and written everything. Otherwise the exit code is 0 and the store is the replay of exactly the calls of `Observations`, in order |
| Orchestrator.SecondRunIsQuiet | monitor.py:165-197 | when both values are lists and no two targets share a state file, running `main` again against the same network answers sends nothing and leaves every file as the first run wrote it |
| Orchestrator.ContentFailureIsSilent | monitor.py:141-152 | only the code is persisted. A URL target that was OK and now fails its JSON or "500" check still has code 200, so it sends nothing |

## Left out

- The network calls `requests.get`, `requests.post` and `socket.create_connection` are not modelled. Their outcomes are inputs: `HttpOutcome` and `SshOutcome`, one per target in `Network`.
- `json.loads` is a foreign parser. Its outcome is part of `HttpOutcome`: valid, `JSONDecodeError`, or some other exception.
- The inside of `send_pushover_message` (monitor.py:114-136) is an HTTP POST plus console output. The model records the `(title, body)` it would post.
- Reading `sys.argv`, loading the YAML file and choosing the settings (monitor.py:52-81) are process and file I/O. The settings are a `Settings` value, with the defaults in `Configuration.Defaults`. A loaded configuration arrives as `Option<Config>`, where `None` means "not a dictionary". Within it, `urls` and `hosts-ssh` are each `Some(list)` (an absent key is the empty list) or `None` for a null value.
- Orchestrator.Run: a `urls` or `hosts-ssh` value that is a string or a dictionary is not modelled. Python would iterate over its characters or keys and then fail on `entry["url"]` or probe odd hosts; the model only has lists and nulls.
- A missing key in a configuration entry would raise `KeyError`. Non-boolean `checkJson`/`checkText` values are not modelled either: entries are well-formed records.
- Creating `STATUS_DIR` and all `print` output are left out. `SendMessage` returns `changed` in place of the "Status changed" line.
- `STATUS_DIR` selects which directory a `Monitor` stands for. The map is keyed by file name inside it. Since the file name holds no '/', `os.path.join` always places it directly in that directory.
- File-system errors are not modelled, nor is the newline translation of text-mode reads. The map holds the text as read.
- The conversion `timeout_ms / 1000.0` is floating point. Timeouts are plain integers here.
- The commented-out SSH login block (monitor.py:100-111) is dead code.
- Webhooks, email and the `okText`/`errorText` checks are not part of this model, because the script does not have them.
- Concurrent runs over one status directory are not modelled. Runs are sequential.
