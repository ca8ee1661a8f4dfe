# filestat: a Dafny model of Telegraf's file statistics input

The `filestat` input plugin reports one `filestat` measurement tagged
`file=<path>` for every configured path whose stat succeeds or reports
"does not exist", up to the first read failure while hashing. The
measurement's fields are `exists` (0 or 1), `size_bytes` and `mode` for a
file that exists, and `md5_sum` when the `md5` option is on and the file
was opened and read: the MD5 digest of its contents in lowercase hex.
The errors of one gather fall into three tiers:

- a path that does not exist is a normal `exists=0` observation;
- a failed stat or a failed open is recorded in an error string and the
  gather goes on;
- a read error while hashing ends the gather at once and is returned by
  itself.

The model has three modules, plus `wrappers.dfy` (module `Wrappers`,
which holds the `Option` type):

- `hex.dfy` (module `Hex`): Go's `%x` rendering of a byte slice, with an
  independent decoder and round-trip lemmas in both directions.
- `filestat.dfy` (module `Filestat`):
  - the filesystem as an oracle `FileSystem = string -> Stat`, giving for
    each path what stat, open and the hashing read return;
  - the per-path decision `Examine`;
  - `Run`, the specification of a whole gather: a fold over the paths that
    records what has been sent, the error string and the fatal error;
  - the accumulator as a class that records every `AddFields` call;
  - the plugin as a class `FileStat` with the fields `md5` and `files`, whose
    `Gather` method is the source's loop, proved equal to `Run`.
- `filestat_properties.dfy` (module `FilestatProperties`): definitions
  written independently of the loop, and lemmas that tie `Run` to them:
  - `Survivors`: the paths that get an observation;
  - `Complaints`: the non-fatal messages;
  - `Joined`: those messages, each followed by a space.

Not every configured path gets an observation: the code emits nothing
for a path whose stat fails with an error other than "does not exist" (`filestat.go:49-52`). So the model sends
`|files| - StatErrors(files, fs)` observations when nothing is fatal
(`RunObservations`). A path whose open fails still gets its observation.

## Model

| member | source | states |
|---|---|---|
| `Hex.HexEncode` | plugins/inputs/filestat/filestat.go:72 | the `%x` rendering of a digest has two characters per byte, and every one of them is a lowercase hex digit |
| `Hex.HexEncodeAt` | plugins/inputs/filestat/filestat.go:72 | byte k is rendered at positions 2k and 2k+1: high nibble first, then low nibble |
| `Hex.DigitValue` | plugins/inputs/filestat/filestat.go:72 | a character has a hex value exactly when it is a lowercase hex digit, and that value renders back to the same character |
| `Hex.HexDecodeEncode` | plugins/inputs/filestat/filestat.go:72 | decoding the rendering gives back exactly the digest bytes |
| `Hex.HexEncodeDecode` | plugins/inputs/filestat/filestat.go:72 | every string that decodes is the rendering of what it decodes to |
| `Hex.HexDecodeTotal` | plugins/inputs/filestat/filestat.go:72 | every even-length string of lowercase hex digits decodes; with the two round trips, the rendering is a bijection onto those strings |
| `Hex.HexEncodeInjective` | plugins/inputs/filestat/filestat.go:72 | different digests never have the same `md5_sum` |
| `Filestat.Examine` | plugins/inputs/filestat/filestat.go:34-76 | for one path: the gather aborts exactly on a read failure while hashing, and then with that read error's message. Otherwise it emits no observation exactly when stat failed. The observation it does emit has name `filestat`, tags exactly `{file: path}`, and fields as `Describes` says: `exists=0` alone for a missing path; for an existing one `exists=1`, `size_bytes`, `mode`, and `md5_sum` (the hex digest) exactly when md5 is on and the digest was read. A message goes to the error string exactly for a stat error or, with md5 on, an open error, and it is that error's message |
| `Filestat.Run` | plugins/inputs/filestat/filestat.go:33-77 | the state of a gather after the configured paths, taken in order and stopped at the first fatal error: what was sent, the error string and the fatal error. At most one observation is sent per path |
| `Filestat.RunReport` | plugins/inputs/filestat/filestat.go:44-76 | a path that does not abort appends its observation, if any, to the output and its message plus a space, if any, to the error string |
| `Filestat.RunAbort` | plugins/inputs/filestat/filestat.go:67-71 | a path that aborts sets the fatal error and changes neither the output nor the error string |
| `Filestat.RunFatalSticky` | plugins/inputs/filestat/filestat.go:70 | once a prefix of the paths has hit a fatal error, the later paths change nothing |
| `Filestat.Accumulator.AddFields` | plugins/inputs/filestat/filestat.go:46 | a reported measurement is appended, with its name, fields and tags, after the ones already recorded |
| `Filestat.FileStat.constructor` | plugins/inputs/filestat/filestat.go:20-23 | the plugin holds the `md5` flag and the list of paths it is configured with |
| `Filestat.FileStat.Gather` | plugins/inputs/filestat/filestat.go:31-83 | the accumulator receives exactly the observations of `Run` after the ones it already held. The returned error is the fatal read error if there was one, else the error string if it is not empty, else none |
| `FilestatProperties.SurvivorsCount` | plugins/inputs/filestat/filestat.go:49-52 | the paths that get an observation are all the paths except those whose stat failed |
| `FilestatProperties.RunNotFatal` | plugins/inputs/filestat/filestat.go:59-71 | the gather runs to the end exactly when no path, with md5 on, opens and then fails to read |
| `FilestatProperties.RunFatalFirst` | plugins/inputs/filestat/filestat.go:67-71 | on the first read failure, the returned error is that read error and not the error string. The observations sent are exactly those of the paths before it |
| `FilestatProperties.RunObservations` | plugins/inputs/filestat/filestat.go:33-77 | with no fatal error, the k-th observation sent belongs to the k-th path whose stat did not fail, in configuration order, and has the shape `Describes` gives. There are as many of them as paths minus the paths whose stat failed |
| `FilestatProperties.RunErrors` | plugins/inputs/filestat/filestat.go:49-62 | with no fatal error, the error string is the stat-error and open-error messages in path order, each followed by one space |
| `FilestatProperties.JoinedEmpty` | plugins/inputs/filestat/filestat.go:79-82 | the joined error string is empty exactly when there is no message, even when a message is itself empty |
| `FilestatProperties.GatherResult` | plugins/inputs/filestat/filestat.go:79-82 | Gather returns no error exactly when no path has a read failure, a stat error, or (with md5 on) an open error. With no read failure, the error it returns is the joined non-fatal messages |
| `FilestatProperties.ComplaintsEmpty` | plugins/inputs/filestat/filestat.go:49-62 | there is no non-fatal message exactly when no path has a stat error or, with md5 on, an open error |
| `FilestatProperties.NoChecksumWhenDisabled` | plugins/inputs/filestat/filestat.go:59-74 | with md5 off, nothing is fatal and no observation has an `md5_sum` field |

## Left out

- `os.Stat`, `os.IsNotExist`, `os.Open` and `io.Copy` are real I/O. They are replaced by the oracle's outcome for each path. The oracle is a function of the path, so the model cannot express a filesystem that changes during one gather: a path listed twice gets the same outcome both times.
- The MD5 algorithm is not modelled. The digest bytes come from the oracle as an opaque byte sequence, and the model does not require them to be 16 bytes long.
- How `FileMode.String()` renders a mode is not modelled: the mode string comes from the oracle.
- `telegraf.Accumulator` is modelled only as a recorder of `AddFields` calls. Its buffering, transport and failures are not modelled.
- Filestat.FileStat.Gather: the returned error is the raw error string. `fmt.Errorf` treats that string as a format string, and its interpretation of `%` verbs is not modelled.
- `defer of.Close()` is not modelled. The deferred close runs only when `Gather` returns, so with md5 on every file opened so far stays open for the rest of the loop. On a long path list a later `os.Open` can then fail with "too many open files", which adds that message to the error string and leaves that path's observation without `md5_sum`. The per-path oracle can still give such `OpenError` outcomes to distinct paths, but not as a consequence of the earlier opens.
- `Description`, `SampleConfig`, the sample configuration text and the `init` registration with `inputs.Add` are configuration and registration glue. They are not modelled.
- `size_bytes` is an `int64` (`Int64`) that is passed through unchanged, so no arithmetic on it needs a width.
