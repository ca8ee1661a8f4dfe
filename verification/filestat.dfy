/**
 * The filestat input plugin: for the configured paths it reports whether
 * each file exists, its size and mode and, when asked, the MD5 checksum of
 * its contents. A path whose stat fails for a reason other than "does not
 * exist" gets no report, and a read failure while hashing ends the gather.
 *
 * The filesystem is an oracle, `FileSystem`, that tells for each path what
 * `os.Stat`, `os.Open` and the `io.Copy` into the MD5 hash would return.
 * The digest bytes themselves come from the oracle; only their `%x`
 * rendering is modelled (module Hex).
 *
 * Gather is the plugin's loop, proved against `Run`, a fold over the
 * configured paths that records what has been sent to the accumulator, the
 * non-fatal error string built so far and the fatal error, if any.
 */
module Filestat {
  import opened Wrappers
  import opened Hex

  type Int64 = x: int | -0x8000_0000_0000_0000 <= x < 0x8000_0000_0000_0000

  /** What hashing an opened file gives: a read error, or the digest bytes. */
  datatype ReadOutcome = ReadError(msg: string) | Digest(bytes: seq<Byte>)

  /** What `os.Open` gives for an existing file. */
  datatype OpenOutcome = OpenError(msg: string) | Opened(read: ReadOutcome)

  /** What `os.Stat` gives for a path, with the later open/read outcomes of an existing file. */
  datatype Stat =
    | NotExist
    | StatError(msg: string)
    | Exists(size: Int64, mode: string, open: OpenOutcome)

  type FileSystem = string -> Stat

  /** A field value: the plugin stores `int64` values and strings. */
  datatype FieldValue = Int(i: int) | Str(s: string)

  /** One call of `AddFields(name, fields, tags)` on the accumulator. */
  datatype Measurement = Measurement(name: string, fields: map<string, FieldValue>, tags: map<string, string>)

  const MeasurementName := "filestat"

  /** The outcome of probing one path. */
  datatype Verdict =
    | Report(obs: Option<Measurement>, note: Option<string>)  // what is sent, what is added to the error string
    | Abort(reason: string)                                   // the read error that ends the gather

  /** The state of a gather after a prefix of the configured paths. */
  datatype Trace = Trace(out: seq<Measurement>, errS: string, fatal: Option<string>)

  /** A read failure while hashing: the one fatal case. */
  predicate ReadFails(md5: bool, st: Stat) {
    md5 && st.Exists? && st.open.Opened? && st.open.read.ReadError?
  }

  /** A failure that is recorded in the error string and does not stop the gather. */
  predicate Complains(md5: bool, st: Stat) {
    st.StatError? || (md5 && st.Exists? && st.open.OpenError?)
  }

  /** The message of a non-fatal failure. */
  function Complaint(md5: bool, st: Stat): string
    requires Complains(md5, st)
  {
    if st.StatError? then st.msg else st.open.msg
  }

  /**
   * The shape of the observation sent for a path: name `filestat`, the
   * single tag `file`, and either `exists=0` alone or `exists=1` with the
   * size and mode and, exactly when checksumming is on and the digest was
   * computed, `md5_sum` holding the digest in lowercase hex.
   */
  predicate Describes(md5: bool, path: string, st: Stat, m: Measurement) {
    m.name == MeasurementName && m.tags == map["file" := path] &&
    match st
    case NotExist => m.fields == map["exists" := Int(0)]
    case StatError(_) => false
    case Exists(size, mode, open) =>
      m.fields.Keys <= {"exists", "size_bytes", "mode", "md5_sum"} &&
      "exists" in m.fields && m.fields["exists"] == Int(1) &&
      "size_bytes" in m.fields && m.fields["size_bytes"] == Int(size) &&
      "mode" in m.fields && m.fields["mode"] == Str(mode) &&
      ("md5_sum" in m.fields <==> md5 && open.Opened? && open.read.Digest?) &&
      ("md5_sum" in m.fields ==> m.fields["md5_sum"] == Str(HexEncode(open.read.bytes)))
  }

  /** What the loop body of Gather does with one path. */
  function Examine(md5: bool, path: string, st: Stat): (v: Verdict)
    ensures v.Abort? <==> ReadFails(md5, st)
    ensures v.Abort? ==> v.reason == st.open.read.msg
    ensures v.Report? ==> (v.obs.None? <==> st.StatError?)
    ensures v.Report? && v.obs.Some? ==> Describes(md5, path, st, v.obs.value)
    ensures v.Report? ==> (v.note.Some? <==> Complains(md5, st))
    ensures v.Report? && v.note.Some? ==> v.note.value == Complaint(md5, st)
  {
    var tags := map["file" := path];
    var fields := map["exists" := Int(0)];
    match st
    case NotExist => Report(Some(Measurement(MeasurementName, fields, tags)), None)
    case StatError(msg) => Report(None, Some(msg))
    case Exists(size, mode, open) =>
      var fields := fields["exists" := Int(1)]["size_bytes" := Int(size)]["mode" := Str(mode)];
      if !md5 then Report(Some(Measurement(MeasurementName, fields, tags)), None)
      else
        match open
        case OpenError(msg) => Report(Some(Measurement(MeasurementName, fields, tags)), Some(msg))
        case Opened(ReadError(msg)) => Abort(msg)
        case Opened(Digest(d)) =>
          Report(Some(Measurement(MeasurementName, fields["md5_sum" := Str(HexEncode(d))], tags)), None)
  }

  function Spaced(note: Option<string>): string {
    if note.Some? then note.value + " " else ""
  }

  function Emitted(obs: Option<Measurement>): seq<Measurement> {
    if obs.Some? then [obs.value] else []
  }

  /** The state after processing `files` in order, stopping at the first fatal error. */
  function Run(md5: bool, files: seq<string>, fs: FileSystem): (t: Trace)
    ensures |t.out| <= |files|
    decreases |files|
  {
    if files == [] then Trace([], "", None)
    else
      var prev := Run(md5, files[..|files| - 1], fs);
      var path := files[|files| - 1];
      if prev.fatal.Some? then prev else Next(prev, Examine(md5, path, fs(path)))
  }

  /** The state after one more path whose verdict is `v`. */
  function Next(prev: Trace, v: Verdict): Trace {
    match v
    case Abort(reason) => prev.(fatal := Some(reason))
    case Report(obs, note) => Trace(prev.out + Emitted(obs), prev.errS + Spaced(note), None)
  }

  /** One more path whose verdict is a report: its observation and message are appended. */
  lemma RunReport(md5: bool, files: seq<string>, i: nat, fs: FileSystem, obs: Option<Measurement>, note: Option<string>)
    requires i < |files|
    requires Run(md5, files[..i], fs).fatal.None?
    requires Examine(md5, files[i], fs(files[i])) == Report(obs, note)
    ensures Run(md5, files[..i + 1], fs).fatal.None?
    ensures Run(md5, files[..i + 1], fs).out == Run(md5, files[..i], fs).out + Emitted(obs)
    ensures Run(md5, files[..i + 1], fs).errS == Run(md5, files[..i], fs).errS + Spaced(note)
  {
    assert files[..i + 1][..i] == files[..i];
  }

  /** One more path whose verdict is an abort: the run stops with its reason. */
  lemma RunAbort(md5: bool, files: seq<string>, i: nat, fs: FileSystem, reason: string)
    requires i < |files|
    requires Run(md5, files[..i], fs).fatal.None?
    requires Examine(md5, files[i], fs(files[i])) == Abort(reason)
    ensures Run(md5, files[..i + 1], fs) == Run(md5, files[..i], fs).(fatal := Some(reason))
  {
    assert files[..i + 1][..i] == files[..i];
  }

  /** The error Gather returns for a final state: the fatal one, else the error string if not empty. */
  function Returned(t: Trace): Option<string> {
    if t.fatal.Some? then t.fatal
    else if t.errS != "" then Some(t.errS)
    else None
  }

  /** Once a prefix has hit a fatal error, the rest of the paths change nothing. */
  lemma {:induction false} RunFatalSticky(md5: bool, files: seq<string>, k: nat, fs: FileSystem)
    requires k <= |files|
    requires Run(md5, files[..k], fs).fatal.Some?
    ensures Run(md5, files, fs) == Run(md5, files[..k], fs)
    decreases |files|
  {
    if k < |files| {
      var init := files[..|files| - 1];
      assert init[..k] == files[..k];
      RunFatalSticky(md5, init, k, fs);
    } else {
      assert files[..k] == files;
    }
  }

  /** The sink the plugin reports to; it records every call. */
  class Accumulator {
    var points: seq<Measurement>

    constructor ()
      ensures points == []
    {
      points := [];
    }

    method AddFields(name: string, fields: map<string, FieldValue>, tags: map<string, string>)
      modifies this
      ensures points == old(points) + [Measurement(name, fields, tags)]
    {
      points := points + [Measurement(name, fields, tags)];
    }
  }

  /** The plugin's configuration: whether to checksum, and the paths to report on. */
  class FileStat {
    var md5: bool
    var files: seq<string>

    constructor (md5: bool, files: seq<string>)
      ensures this.md5 == md5 && this.files == files
    {
      this.md5 := md5;
      this.files := files;
    }

    /**
     * Reports the configured paths to `acc` in order, skipping those whose
     * stat fails and stopping at a read failure while hashing.  Returns that
     * read error, or else the accumulated non-fatal messages (each followed
     * by a space) when there are any.
     */
    method Gather(acc: Accumulator, fs: FileSystem) returns (err: Option<string>)
      modifies acc
      ensures acc.points == old(acc.points) + Run(md5, files, fs).out
      ensures err == Returned(Run(md5, files, fs))
    {
      var errS := "";
      var md5, files := this.md5, this.files;
      for i := 0 to |files|
        invariant Run(md5, files[..i], fs).fatal.None?
        invariant acc.points == old(acc.points) + Run(md5, files[..i], fs).out
        invariant errS == Run(md5, files[..i], fs).errS
      {
        var file := files[i];
        var tags := map["file" := file];
        var fields := map["exists" := Int(0)];

        var st := fs(file);
        if st.NotExist? {
          RunReport(md5, files, i, fs, Some(Measurement(MeasurementName, fields, tags)), None);
          acc.AddFields(MeasurementName, fields, tags);
          continue;
        }
        if st.StatError? {
          RunReport(md5, files, i, fs, None, Some(st.msg));
          errS := errS + (st.msg + " ");
          continue;
        }

        fields := fields["exists" := Int(1)];
        fields := fields["size_bytes" := Int(st.size)];
        fields := fields["mode" := Str(st.mode)];

        ghost var note: Option<string> := None;
        if md5 {
          match st.open
          case OpenError(msg) =>
            errS := errS + (msg + " ");
            note := Some(msg);
          case Opened(read) =>
            match read
            case ReadError(msg) =>
              RunAbort(md5, files, i, fs, msg);
              RunFatalSticky(md5, files, i + 1, fs);
              return Some(msg);
            case Digest(d) =>
              fields := fields["md5_sum" := Str(HexEncode(d))];
        }

        RunReport(md5, files, i, fs, Some(Measurement(MeasurementName, fields, tags)), note);
        acc.AddFields(MeasurementName, fields, tags);
      }
      assert files[..|files|] == files;
      if errS != "" {
        return Some(errS);
      }
      return None;
    }
  }
}
