/**
  Replacing a machine's `config.json` (mct/pkg/libmachine/persist/filestore.go, `saveToFile`),
  with every intermediate state of the directory as a possible crash point.
 */
module SaveToFile {
  import opened Octets

  type Bytes = seq<byte>

  /** `config.json`, the existence marker `.<name>-exist`, and `config.json.tmp<n>`. */
  datatype FileName = ConfigJson | Marker | Temp(n: nat)

  type Dir = map<FileName, Bytes>

  /** The directory after some of its files have been removed. */
  function Without(dir: Dir, fs: seq<FileName>): Dir {
    dir - (set f | f in fs)
  }

  /** The directory while its files are being removed in the given order. */
  function RemovalSteps(dir: Dir, order: seq<FileName>): seq<Dir> {
    seq(|order|, i requires 0 <= i < |order| => Without(dir, order[..i + 1]))
  }

  /** `ioutil.WriteFile`: it may fail to open the file, or write `n` bytes and then succeed or fail. */
  datatype WriteOutcome = OpenFailed | Wrote(n: nat, failed: bool)

  predicate PossibleWrite(w: WriteOutcome, data: Bytes) {
    w.Wrote? ==> w.n <= |data| && (!w.failed ==> w.n == |data|)
  }

  /**
    How the system calls of one `saveToFile` turn out. `statFails` is an error other than absence;
    `temp` is the number that `TempFile` picks.
   */
  datatype Io = Io(
    statFails: bool, temp: nat, tempFails: bool, write: WriteOutcome, closeFails: bool,
    removeFails: bool, renameFails: bool, cleanupFails: bool)

  /** `TempFile` picks a name that is not taken. */
  predicate Possible(dir: Dir, data: Bytes, io: Io) {
    PossibleWrite(io.write, data) && Temp(io.temp) !in dir
  }

  /** Where `saveToFile` returned. */
  datatype Outcome = Saved | CreateFailed | TempFailed | WriteFailed | CloseFailed | RemoveFailed | RenameFailed

  /** The file is truncated or created, then grows to `n` bytes. */
  function WriteSteps(dir: Dir, f: FileName, data: Bytes, w: WriteOutcome): seq<Dir>
    requires PossibleWrite(w, data)
  {
    if w.OpenFailed? then [] else seq(w.n + 1, i requires 0 <= i <= w.n => dir[f := data[..i]])
  }

  function WriteSucceeds(w: WriteOutcome): bool {
    w.Wrote? && !w.failed
  }

  /** Whether the file is found missing, so that it is simply created. */
  predicate Creates(dir: Dir, io: Io) {
    !io.statFails && ConfigJson !in dir
  }

  function SaveOutcome(dir: Dir, io: Io): Outcome {
    if Creates(dir, io) then (if WriteSucceeds(io.write) then Saved else CreateFailed)
    else if io.tempFails then TempFailed
    else if !WriteSucceeds(io.write) then WriteFailed
    else if io.closeFails then CloseFailed
    else if io.removeFails || ConfigJson !in dir then RemoveFailed
    else if io.renameFails then RenameFailed
    else Saved
  }

  /** The directory after each disk operation of the replacement, before the deferred clean-up. */
  function ReplaceSteps(dir: Dir, data: Bytes, io: Io): seq<Dir>
    requires Possible(dir, data, io) && !Creates(dir, io) && !io.tempFails
  {
    var t := Temp(io.temp);
    var out := SaveOutcome(dir, io);
    [dir[t := []]] + WriteSteps(dir, t, data, io.write)
    + (if out.RenameFailed? || out.Saved? then [dir[t := data] - {ConfigJson}] else [])
    + (if out.Saved? then [dir[ConfigJson := data]] else [])
  }

  /** Every state the directory goes through, in order; the deferred removal of the temporary file is last. */
  function SaveSteps(dir: Dir, data: Bytes, io: Io): seq<Dir>
    requires Possible(dir, data, io)
  {
    if Creates(dir, io) then WriteSteps(dir, ConfigJson, data, io.write)
    else if io.tempFails then []
    else
      var steps := ReplaceSteps(dir, data, io);
      if io.cleanupFails then steps else steps + [steps[|steps| - 1] - {Temp(io.temp)}]
  }

  /** The directory that `saveToFile` leaves behind when it is not interrupted. */
  function AfterSave(dir: Dir, data: Bytes, io: Io): Dir
    requires Possible(dir, data, io)
  {
    var steps := SaveSteps(dir, data, io);
    if steps == [] then dir else steps[|steps| - 1]
  }

  // ----- which calls lead to which outcome -----

  predicate WriteFails(w: WriteOutcome) {
    w.OpenFailed? || w.failed
  }

  /** The file is looked for and found missing. */
  predicate FoundMissing(dir: Dir, io: Io) {
    ConfigJson !in dir && !io.statFails
  }

  /** No call fails that is made; there is no file to remove if it was missing but could not be looked for. */
  predicate NothingFails(dir: Dir, io: Io) {
    && !WriteFails(io.write)
    && (FoundMissing(dir, io)
        || (!io.tempFails && !io.closeFails && ConfigJson in dir && !io.removeFails && !io.renameFails))
  }

  /** Each error return happens exactly if its call is the first to fail, and success if none does. */
  lemma OutcomeIsFirstFailure(dir: Dir, io: Io)
    ensures var out, creating := SaveOutcome(dir, io), FoundMissing(dir, io);
      var wrote, closed := !io.tempFails && !WriteFails(io.write), !io.closeFails;
      var removed := ConfigJson in dir && !io.removeFails;
      && (out.Saved? <==> NothingFails(dir, io))
      && (out.CreateFailed? <==> creating && WriteFails(io.write))
      && (out.TempFailed? <==> !creating && io.tempFails)
      && (out.WriteFailed? <==> !creating && !io.tempFails && WriteFails(io.write))
      && (out.CloseFailed? <==> !creating && wrote && !closed)
      && (out.RemoveFailed? <==> !creating && wrote && closed && !removed)
      && (out.RenameFailed? <==> !creating && wrote && closed && removed && io.renameFails)
  {
  }

  /** A call in which nothing fails replaces the configuration, whether there was one or not. */
  lemma NothingFailsReplaces(dir: Dir, data: Bytes, io: Io)
    requires Possible(dir, data, io) && NothingFails(dir, io)
    ensures SaveOutcome(dir, io).Saved? && AfterSave(dir, data, io) == dir[ConfigJson := data]
  {
    OutcomeIsFirstFailure(dir, io);
    SavedMeansReplaced(dir, data, io);
  }

  // ----- what a crash can leave -----

  /** The old contents, the new contents, or no file while the temporary one holds the new contents. */
  predicate Recoverable(d: Dir, before: Bytes, data: Bytes, t: nat) {
    if ConfigJson in d then d[ConfigJson] == before || d[ConfigJson] == data
    else Temp(t) in d && d[Temp(t)] == data
  }

  /** The failed rename whose clean-up removes the only remaining copy. */
  predicate LosesBoth(dir: Dir, io: Io) {
    ConfigJson in dir && SaveOutcome(dir, io).RenameFailed? && !io.cleanupFails
  }

  lemma ReplaceStepsAreRecoverable(dir: Dir, data: Bytes, io: Io, i: nat)
    requires Possible(dir, data, io) && !io.tempFails && ConfigJson in dir && i < |ReplaceSteps(dir, data, io)|
    ensures Recoverable(ReplaceSteps(dir, data, io)[i], dir[ConfigJson], data, io.temp)
    ensures ReplaceSteps(dir, data, io)[i].Keys <= dir.Keys + {Temp(io.temp)}
  {
    var t := Temp(io.temp);
    var w := WriteSteps(dir, t, data, io.write);
    if 1 <= i <= |w| {
      assert ReplaceSteps(dir, data, io)[i] == w[i - 1];
    }
  }

  /**
    Overwriting is crash safe up to the clean-up: every crash point leaves a complete old or new
    version, and all of them do exactly when the call does not end in a failed rename whose clean-up
    succeeds.
   */
  lemma OverwriteCrashSafety(dir: Dir, data: Bytes, io: Io)
    requires Possible(dir, data, io) && ConfigJson in dir
    ensures forall i :: 0 <= i < |SaveSteps(dir, data, io)| - 1 ==>
      Recoverable(SaveSteps(dir, data, io)[i], dir[ConfigJson], data, io.temp)
    ensures (forall i :: 0 <= i < |SaveSteps(dir, data, io)| ==>
               Recoverable(SaveSteps(dir, data, io)[i], dir[ConfigJson], data, io.temp))
       <==> !LosesBoth(dir, io)
  {
    if !io.tempFails {
      var inner, steps := ReplaceSteps(dir, data, io), SaveSteps(dir, data, io);
      forall i | 0 <= i < |inner|
        ensures Recoverable(steps[i], dir[ConfigJson], data, io.temp)
      {
        ReplaceStepsAreRecoverable(dir, data, io, i);
      }
      LastReplaceStep(dir, data, io);
      var last := steps[|steps| - 1];
      assert LosesBoth(dir, io) ==> ConfigJson !in last && Temp(io.temp) !in last;
    }
  }

  lemma LastReplaceStep(dir: Dir, data: Bytes, io: Io)
    requires Possible(dir, data, io) && !Creates(dir, io) && !io.tempFails
    ensures var steps, out := ReplaceSteps(dir, data, io), SaveOutcome(dir, io);
      var last := steps[|steps| - 1];
      && (out.Saved? ==> last == dir[ConfigJson := data])
      && (out.RenameFailed? ==> last == dir[Temp(io.temp) := data] - {ConfigJson})
      && (!out.Saved? && !out.RenameFailed? ==>
            Temp(io.temp) in last && last == dir[Temp(io.temp) := last[Temp(io.temp)]])
  {
  }

  /**
    What an uninterrupted call leaves when it does not simply create the file and its clean-up
    succeeds: no temporary file, the new version on success and, of the error returns, the directory
    as it was on all but a failed rename, which leaves neither version.
   */
  lemma OverwriteResult(dir: Dir, data: Bytes, io: Io)
    requires Possible(dir, data, io) && !Creates(dir, io) && !io.cleanupFails
    ensures AfterSave(dir, data, io) ==
      match SaveOutcome(dir, io)
      case Saved => dir[ConfigJson := data]
      case RenameFailed => dir - {ConfigJson}
      case _ => dir
  {
    if !io.tempFails {
      LastReplaceStep(dir, data, io);
    }
  }

  /** A successful save has exactly one effect, whichever path it took. */
  lemma SavedMeansReplaced(dir: Dir, data: Bytes, io: Io)
    requires Possible(dir, data, io) && SaveOutcome(dir, io).Saved?
    ensures AfterSave(dir, data, io) == dir[ConfigJson := data]
  {
    if Creates(dir, io) {
      assert data[..|data|] == data;
    } else {
      LastReplaceStep(dir, data, io);
    }
  }

  /**
    Creating is not atomic: the crash points are exactly the proper and improper prefixes of the new
    contents that have been written, so a crash can leave a truncated file.
   */
  lemma CreateLeavesPrefixes(dir: Dir, data: Bytes, io: Io, d: Dir)
    requires Possible(dir, data, io) && Creates(dir, io)
    ensures d in SaveSteps(dir, data, io)
       <==> io.write.Wrote? && exists i :: 0 <= i <= io.write.n && d == dir[ConfigJson := data[..i]]
  {
    var steps := SaveSteps(dir, data, io);
    if io.write.Wrote? {
      if i :| 0 <= i <= io.write.n && d == dir[ConfigJson := data[..i]] {
        assert steps[i] == d;
      }
    }
  }

  /** No crash point touches the marker or any file but the configuration and the temporary one. */
  lemma SaveTouchesOnlyConfig(dir: Dir, data: Bytes, io: Io, i: nat, f: FileName)
    requires Possible(dir, data, io) && i < |SaveSteps(dir, data, io)| && f != ConfigJson && f != Temp(io.temp)
    ensures var d := SaveSteps(dir, data, io)[i]; (f in d <==> f in dir) && (f in dir ==> d[f] == dir[f])
  {
    if !Creates(dir, io) {
      var inner, steps := ReplaceSteps(dir, data, io), SaveSteps(dir, data, io);
      var j := if i < |inner| then i else |inner| - 1;
      var w := WriteSteps(dir, Temp(io.temp), data, io.write);
      if 1 <= j <= |w| {
        assert inner[j] == w[j - 1];
      }
      assert (f in inner[j] <==> f in dir) && (f in dir ==> inner[j][f] == dir[f]);
    }
  }
}
