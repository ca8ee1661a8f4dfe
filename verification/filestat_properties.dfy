/**
 * What a gather produces, stated against definitions written independently
 * of the loop: which paths get an observation, which messages end up in
 * the error string, and when the gather stops early.
 */
module FilestatProperties {
  import opened Wrappers
  import opened Filestat

  /** The paths that get an observation when nothing is fatal: all but those whose stat failed. */
  function Survivors(files: seq<string>, fs: FileSystem): seq<string>
    decreases |files|
  {
    if files == [] then []
    else
      var path := files[|files| - 1];
      Survivors(files[..|files| - 1], fs) + (if fs(path).StatError? then [] else [path])
  }

  /** How many paths fail to stat for a reason other than not existing. */
  function StatErrors(files: seq<string>, fs: FileSystem): nat
    decreases |files|
  {
    if files == [] then 0
    else StatErrors(files[..|files| - 1], fs) + (if fs(files[|files| - 1]).StatError? then 1 else 0)
  }

  /** The non-fatal failure messages, in the order of the paths. */
  function Complaints(md5: bool, files: seq<string>, fs: FileSystem): seq<string>
    decreases |files|
  {
    if files == [] then []
    else
      var st := fs(files[|files| - 1]);
      Complaints(md5, files[..|files| - 1], fs) + (if Complains(md5, st) then [Complaint(md5, st)] else [])
  }

  /** The messages concatenated, each followed by one space. */
  function Joined(msgs: seq<string>): string {
    if msgs == [] then "" else msgs[0] + " " + Joined(msgs[1..])
  }

  lemma {:induction false} JoinedSnoc(msgs: seq<string>, m: string)
    ensures Joined(msgs + [m]) == Joined(msgs) + (m + " ")
    decreases |msgs|
  {
    if msgs != [] {
      assert (msgs + [m])[1..] == msgs[1..] + [m];
      JoinedSnoc(msgs[1..], m);
      assert Joined(msgs + [m]) == msgs[0] + " " + (Joined(msgs[1..]) + (m + " "));
    }
  }

  /** The error string is empty exactly when there is no message: every message adds at least a space. */
  lemma JoinedEmpty(msgs: seq<string>)
    ensures Joined(msgs) == "" <==> msgs == []
  {
  }

  /** Observations and stat failures together account for every path. */
  lemma {:induction false} SurvivorsCount(files: seq<string>, fs: FileSystem)
    ensures |Survivors(files, fs)| == |files| - StatErrors(files, fs)
    decreases |files|
  {
    if files != [] {
      SurvivorsCount(files[..|files| - 1], fs);
    }
  }

  /** A prefix of a run that did not stop did not stop either. */
  lemma RunInitNotFatal(md5: bool, files: seq<string>, fs: FileSystem)
    requires files != []
    requires Run(md5, files, fs).fatal.None?
    ensures Run(md5, files[..|files| - 1], fs).fatal.None?
  {
  }

  /** The gather runs to the end exactly when no path has a read failure while hashing. */
  lemma {:induction false} RunNotFatal(md5: bool, files: seq<string>, fs: FileSystem)
    ensures Run(md5, files, fs).fatal.None? <==> forall j :: 0 <= j < |files| ==> !ReadFails(md5, fs(files[j]))
    decreases |files|
  {
    if files != [] {
      var init := files[..|files| - 1];
      RunNotFatal(md5, init, fs);
      assert forall j :: 0 <= j < |init| ==> init[j] == files[j];
    }
  }

  /**
   * A read failure at path j, with none before it, is returned as the
   * error; the observations sent are those of the paths before j and the
   * non-fatal messages are dropped.
   */
  lemma RunFatalFirst(md5: bool, files: seq<string>, j: nat, fs: FileSystem)
    requires j < |files|
    requires ReadFails(md5, fs(files[j]))
    requires forall k :: 0 <= k < j ==> !ReadFails(md5, fs(files[k]))
    ensures Run(md5, files, fs).out == Run(md5, files[..j], fs).out
    ensures Run(md5, files[..j], fs).fatal.None?
    ensures Returned(Run(md5, files, fs)) == Some(fs(files[j]).open.read.msg)
  {
    var pre := files[..j];
    RunNotFatal(md5, pre, fs);
    RunAbort(md5, files, j, fs, fs(files[j]).open.read.msg);
    RunFatalSticky(md5, files, j + 1, fs);
  }

  /**
   * When the gather runs to the end it sends one observation per path
   * whose stat did not fail, in the order of the paths, each tagged with
   * its path and shaped as Describes says.
   */
  lemma {:induction false} RunObservations(md5: bool, files: seq<string>, fs: FileSystem)
    requires Run(md5, files, fs).fatal.None?
    ensures |Run(md5, files, fs).out| == |Survivors(files, fs)| == |files| - StatErrors(files, fs)
    ensures forall k :: 0 <= k < |Run(md5, files, fs).out| ==>
      var path := Survivors(files, fs)[k];
      Describes(md5, path, fs(path), Run(md5, files, fs).out[k])
    decreases |files|
  {
    SurvivorsCount(files, fs);
    if files != [] {
      var init := files[..|files| - 1];
      RunInitNotFatal(md5, files, fs);
      RunObservations(md5, init, fs);
    }
  }

  /** When the gather runs to the end, the error string is the non-fatal messages, each followed by a space. */
  lemma {:induction false} RunErrors(md5: bool, files: seq<string>, fs: FileSystem)
    requires Run(md5, files, fs).fatal.None?
    ensures Run(md5, files, fs).errS == Joined(Complaints(md5, files, fs))
    decreases |files|
  {
    if files != [] {
      var init := files[..|files| - 1];
      var st := fs(files[|files| - 1]);
      RunInitNotFatal(md5, files, fs);
      RunErrors(md5, init, fs);
      var v := Examine(md5, files[|files| - 1], st);
      assert Run(md5, files, fs).errS == Run(md5, init, fs).errS + Spaced(v.note);
      if Complains(md5, st) {
        var m := Complaint(md5, st);
        assert Complaints(md5, files, fs) == Complaints(md5, init, fs) + [m];
        JoinedSnoc(Complaints(md5, init, fs), m);
        assert Spaced(v.note) == m + " ";
      } else {
        assert Complaints(md5, files, fs) == Complaints(md5, init, fs);
      }
    }
  }

  /** There is no non-fatal message exactly when no path has a stat error or, with md5 on, an open error. */
  lemma {:induction false} ComplaintsEmpty(md5: bool, files: seq<string>, fs: FileSystem)
    ensures Complaints(md5, files, fs) == [] <==> forall j :: 0 <= j < |files| ==> !Complains(md5, fs(files[j]))
    decreases |files|
  {
    if files != [] {
      var init := files[..|files| - 1];
      ComplaintsEmpty(md5, init, fs);
      assert forall j :: 0 <= j < |init| ==> init[j] == files[j];
    }
  }

  /**
   * Gather returns no error exactly when no path has a read failure and
   * none has a non-fatal failure; with no read failure, the error it
   * returns is the joined non-fatal messages.
   */
  lemma GatherResult(md5: bool, files: seq<string>, fs: FileSystem)
    ensures (forall j :: 0 <= j < |files| ==> !ReadFails(md5, fs(files[j]))) ==>
      Returned(Run(md5, files, fs)) ==
        if Complaints(md5, files, fs) == [] then None else Some(Joined(Complaints(md5, files, fs)))
    ensures Returned(Run(md5, files, fs)) == None <==>
      forall j :: 0 <= j < |files| ==> !ReadFails(md5, fs(files[j])) && !Complains(md5, fs(files[j]))
  {
    RunNotFatal(md5, files, fs);
    ComplaintsEmpty(md5, files, fs);
    if Run(md5, files, fs).fatal.None? {
      RunErrors(md5, files, fs);
      JoinedEmpty(Complaints(md5, files, fs));
    }
  }

  /** With checksumming off, nothing is fatal and no observation carries `md5_sum`. */
  lemma {:induction false} NoChecksumWhenDisabled(files: seq<string>, fs: FileSystem)
    ensures Run(false, files, fs).fatal.None?
    ensures forall k :: 0 <= k < |Run(false, files, fs).out| ==> "md5_sum" !in Run(false, files, fs).out[k].fields
  {
    RunNotFatal(false, files, fs);
    RunObservations(false, files, fs);
    var out := Run(false, files, fs).out;
    forall k | 0 <= k < |out|
      ensures "md5_sum" !in out[k].fields
    {
      var path := Survivors(files, fs)[k];
      assert Describes(false, path, fs(path), out[k]);
    }
  }
}
