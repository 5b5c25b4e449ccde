/** `getRecommendations` (backend/api.php): normalises the stored profile, writes
    it to a temporary file, runs the scoring engine under each candidate
    interpreter in turn until one succeeds, removes the temporary file and
    classifies the outcome. Processes and files are abstract: the outcome of
    running each interpreter and the JSON decoder are inputs, and the temporary
    file is a ghost flag. */
module Invoker {
  import opened Common
  import Scoring

  /** The profile fields the invoker reads, as `getProfile` returns them; `None`
      stands for SQL NULL, and for `careerInterests` for any non-array value. */
  datatype Profile = Profile(
    highSchoolGpa: Option<real>,
    intendedMajor: Option<string>,
    careerInterests: Option<seq<string>>,
    learningStyle: Option<string>,
    studyHoursPreference: Option<real>)

  /** The document written to the temporary file. */
  datatype ScoringInput = ScoringInput(
    studentId: string,
    gpa: real,
    major: string,
    careerInterests: seq<string>,
    learningStyle: string,
    studyHours: real)

  /** `$input`: PHP's `??` replaces NULL only, so an empty major or learning
      style is passed through as it is. */
  function NormalizeProfile(studentId: string, p: Profile): (input: ScoringInput)
    ensures input.studentId == studentId
    ensures p.highSchoolGpa.None? ==> input.gpa == 3.0
    ensures p.highSchoolGpa.Some? ==> input.gpa == p.highSchoolGpa.value
    ensures p.intendedMajor.None? ==> input.major == "Undecided"
    ensures p.intendedMajor.Some? ==> input.major == p.intendedMajor.value
    ensures p.careerInterests.None? ==> input.careerInterests == []
    ensures p.careerInterests.Some? ==> input.careerInterests == p.careerInterests.value
    ensures p.learningStyle.None? ==> input.learningStyle == "Visual"
    ensures p.learningStyle.Some? ==> input.learningStyle == p.learningStyle.value
    ensures p.studyHoursPreference.None? ==> input.studyHours == 10.0
    ensures p.studyHoursPreference.Some? ==> input.studyHours == p.studyHoursPreference.value
  {
    ScoringInput(
      studentId,
      p.highSchoolGpa.GetOr(3.0),
      p.intendedMajor.GetOr("Undecided"),
      p.careerInterests.GetOr([]),
      p.learningStyle.GetOr("Visual"),
      p.studyHoursPreference.GetOr(10.0))
  }

  /** The document as the engine reads it back. */
  function ToStudentData(input: ScoringInput): Scoring.StudentData
  {
    Scoring.StudentData(
      Scoring.Number(input.gpa), Some(input.major), Some(input.careerInterests),
      Some(input.learningStyle), Scoring.Number(input.studyHours))
  }

  /** What the engine scores for a stored profile: the invoker's defaults, and an
      empty major or learning style replaced by the engine's. */
  lemma EngineSeesProfileDefaults(studentId: string, p: Profile)
    ensures var s := Scoring.Normalize(ToStudentData(NormalizeProfile(studentId, p)));
      && s.gpa == p.highSchoolGpa.GetOr(3.0)
      && s.major == (if p.intendedMajor.Some? && p.intendedMajor.value != "" then p.intendedMajor.value else "Undecided")
      && s.careerInterests == p.careerInterests.GetOr([])
      && s.learningStyle == (if p.learningStyle.Some? && p.learningStyle.value != "" then p.learningStyle.value else "Visual")
      && s.studyHours == p.studyHoursPreference.GetOr(10.0)
  {
  }

  // ---------------------------------------------------------------------------
  // Running the engine
  // ---------------------------------------------------------------------------

  /** A decoded JSON value (`json_decode($s, true)`). */
  datatype Json =
    | JNull
    | JBool(b: bool)
    | JNumber(n: real)
    | JString(s: string)
    | JArray(items: seq<Json>)
    | JObject(members: seq<(string, Json)>)

  /** PHP `is_array` on a decoded value: lists and objects decode to arrays. */
  predicate IsPhpArray(j: Json)
  {
    j.JArray? || j.JObject?
  }

  /** PHP `empty` on a string. */
  predicate PhpEmpty(s: string)
  {
    s == "" || s == "0"
  }

  /** The outcome of one `proc_open`: it could not start, or it ran to its exit. */
  datatype Attempt = SpawnFailed | Exited(exitCode: int, stdout: string, stderr: string)

  /** What the invoker cannot see: the temp directory, `tempnam`, whether the
      engine script is on disk, what each interpreter produces, and the JSON
      decoder (`None` for a syntax error). */
  datatype Host = Host(
    tempDirWritable: bool,
    tempFileCreated: bool,
    scriptExists: bool,
    run: string -> Attempt,
    decode: string -> Option<Json>)

  const Candidates: seq<string> := ["python3", "python", "py"]

  /** An attempt succeeds: exit code 0, non-empty output, and the output decodes
      to a non-null value. Standard error plays no part. */
  predicate Succeeded(a: Attempt, decode: string -> Option<Json>)
  {
    && a.Exited? && a.exitCode == 0 && !PhpEmpty(a.stdout)
    && decode(a.stdout).Some? && decode(a.stdout).value != JNull
  }

  lemma StderrNeverDecides(code: int, stdout: string, stderr: string, decode: string -> Option<Json>)
    ensures Succeeded(Exited(code, stdout, stderr), decode) == Succeeded(Exited(code, stdout, ""), decode)
  {
  }

  /** The position of the first candidate whose attempt succeeds. */
  function FirstSuccess(bins: seq<string>, host: Host): (r: Option<nat>)
    ensures r.Some? ==> r.value < |bins| && Succeeded(host.run(bins[r.value]), host.decode)
    ensures r.Some? ==> forall k :: 0 <= k < r.value ==> !Succeeded(host.run(bins[k]), host.decode)
    ensures r.None? ==> forall k :: 0 <= k < |bins| ==> !Succeeded(host.run(bins[k]), host.decode)
  {
    if |bins| == 0 then None
    else if Succeeded(host.run(bins[0]), host.decode) then Some(0)
    else
      match FirstSuccess(bins[1..], host)
      case None => None
      case Some(k) => Some(k + 1)
  }

  /** The standard error recorded by failed attempts: that of the last one
      whose standard error is not empty (see `LastStderrIsLast`). */
  function LastStderr(bins: seq<string>, host: Host): (r: Option<string>)
    ensures r.Some? ==> !PhpEmpty(r.value)
    ensures r.None? <==> forall k :: 0 <= k < |bins| ==> StderrOf(host.run(bins[k])).None?
  {
    if |bins| == 0 then None
    else
      var last := StderrOf(host.run(bins[|bins| - 1]));
      var prefix := bins[..|bins| - 1];
      assert forall k :: 0 <= k < |prefix| ==> prefix[k] == bins[k];
      if last.Some? then last else LastStderr(prefix, host)
  }

  /** The recorded standard error is that of some attempt, and every later
      attempt left its standard error empty. */
  lemma {:induction false} LastStderrIsLast(bins: seq<string>, host: Host)
    requires LastStderr(bins, host).Some?
    ensures exists k :: 0 <= k < |bins| && StderrOf(host.run(bins[k])) == LastStderr(bins, host)
                        && forall j :: k < j < |bins| ==> StderrOf(host.run(bins[j])).None?
  {
    var n := |bins| - 1;
    if StderrOf(host.run(bins[n])).None? {
      var prefix := bins[..n];
      LastStderrIsLast(prefix, host);
      var k :| 0 <= k < |prefix| && StderrOf(host.run(prefix[k])) == LastStderr(prefix, host)
               && forall j :: k < j < |prefix| ==> StderrOf(host.run(prefix[j])).None?;
      assert bins[k] == prefix[k];
      assert forall j :: k < j < n ==> bins[j] == prefix[j];
    }
  }

  /** One more attempt: its standard error replaces the recorded one unless empty. */
  lemma LastStderrStep(bins: seq<string>, i: nat, host: Host)
    requires i < |bins|
    ensures LastStderr(bins[..i + 1], host) ==
      if StderrOf(host.run(bins[i])).Some? then StderrOf(host.run(bins[i])) else LastStderr(bins[..i], host)
  {
    assert bins[..i + 1][..i] == bins[..i];
  }

  /** The first success is the one at `i` when every earlier attempt failed. */
  lemma {:induction false} FirstSuccessAt(bins: seq<string>, i: nat, host: Host)
    requires i < |bins| && Succeeded(host.run(bins[i]), host.decode)
    requires forall k :: 0 <= k < i ==> !Succeeded(host.run(bins[k]), host.decode)
    ensures FirstSuccess(bins, host) == Some(i)
  {
    if i > 0 {
      assert forall k :: 0 <= k < i - 1 ==> bins[1..][k] == bins[k + 1];
      FirstSuccessAt(bins[1..], i - 1, host);
    }
  }

  /** The standard error an attempt records when it fails: none when the
      process did not start or its standard error is empty. */
  function StderrOf(a: Attempt): Option<string>
  {
    if a.Exited? && !PhpEmpty(a.stderr) then Some(a.stderr) else None
  }

  /** The candidates run: up to the first success, or all of them. */
  function TriedCount(host: Host): (n: nat)
    ensures 0 < n <= |Candidates|
  {
    match FirstSuccess(Candidates, host)
    case Some(k) => k + 1
    case None => |Candidates|
  }

  // ---------------------------------------------------------------------------
  // The result
  // ---------------------------------------------------------------------------

  const StudentNotFound: string := "Student not found"
  const TempDirNotWritable: string := "Cannot write to temp directory"
  const TempFileFailed: string := "Failed to create temp file"
  const ScriptMissing: string := "Recommendation script not found"
  const EngineUnavailable: string := "Unable to generate recommendations. Please ensure Python is installed."
  const InvalidFormat: string := "Invalid recommendation format"

  /** The array `getRecommendations` returns: success with the decoded list,
      a failure with a message, or the engine failure, which also carries the
      recorded standard error as `debug`. */
  datatype ApiResult =
    | Success(recommendations: Json)
    | Failure(message: string)
    | EngineFailure(message: string, debug: Option<string>)

  /** The entry appended to the error log when every candidate fails. */
  datatype LogEntry = LogEntry(input: ScoringInput, error: Option<string>)

  /** The result for a given profile lookup and host, as a reference definition. */
  function Classify(profile: Option<Profile>, host: Host): (r: ApiResult)
    ensures r.Success? ==> IsPhpArray(r.recommendations)
    ensures r.Failure? ==> r.message in {StudentNotFound, TempDirNotWritable, TempFileFailed, ScriptMissing, InvalidFormat}
    ensures r.EngineFailure? ==> r.message == EngineUnavailable && (r.debug.Some? ==> !PhpEmpty(r.debug.value))
  {
    if profile.None? then Failure(StudentNotFound)
    else if !host.tempDirWritable then Failure(TempDirNotWritable)
    else if !host.tempFileCreated then Failure(TempFileFailed)
    else if !host.scriptExists then Failure(ScriptMissing)
    else
      match FirstSuccess(Candidates, host)
      case None => EngineFailure(EngineUnavailable, LastStderr(Candidates, host))
      case Some(k) =>
        var decoded := host.decode(host.run(Candidates[k]).stdout).value;
        if IsPhpArray(decoded) then Success(decoded) else Failure(InvalidFormat)
  }

  /** The `foreach` over the interpreters: run each in turn, stop at the first
      whose output decodes, and keep the last non-empty standard error. */
  method TryCandidates(host: Host) returns (rawOutput: Option<string>, errorOutput: Option<string>, ghost tried: seq<string>)
    ensures rawOutput.Some? <==> FirstSuccess(Candidates, host).Some?
    ensures rawOutput.Some? ==> rawOutput.value == host.run(Candidates[FirstSuccess(Candidates, host).value]).stdout
    ensures rawOutput.None? ==> errorOutput == LastStderr(Candidates, host)
    ensures tried == Candidates[..TriedCount(host)]
  {
    var bins := Candidates;
    rawOutput, errorOutput, tried := None, None, [];
    var i := 0;
    while i < |bins|
      invariant 0 <= i <= |bins|
      invariant tried == bins[..i]
      invariant rawOutput == None
      invariant forall k :: 0 <= k < i ==> !Succeeded(host.run(bins[k]), host.decode)
      invariant errorOutput == LastStderr(bins[..i], host)
    {
      var attempt := host.run(bins[i]);
      tried := tried + [bins[i]];
      if attempt.Exited? {
        if attempt.exitCode == 0 && !PhpEmpty(attempt.stdout) {
          var decoded := host.decode(attempt.stdout);
          if decoded.Some? && decoded.value != JNull {
            rawOutput := Some(attempt.stdout);
            break;
          }
        }
        if !PhpEmpty(attempt.stderr) {
          errorOutput := Some(attempt.stderr);
        }
      }
      LastStderrStep(bins, i, host);
      i := i + 1;
    }
    if rawOutput.Some? {
      FirstSuccessAt(bins, i, host);
    } else {
      assert bins[..i] == bins;
    }
  }

  /** The invoker. Besides the result it reports, as ghost outputs, the
      interpreters it ran, whether it created the temporary file, whether that
      file still exists on return, and the error-log entry it appended. */
  method GetRecommendations(studentId: string, profile: Option<Profile>, host: Host)
    returns (result: ApiResult, ghost tried: seq<string>, ghost tempCreated: bool,
             ghost tempExists: bool, ghost logged: Option<LogEntry>)
    ensures result == Classify(profile, host)
    ensures profile.None? ==> tried == [] && !tempCreated
    ensures tempCreated <==> profile.Some? && host.tempDirWritable && host.tempFileCreated
    ensures !tempExists
    ensures tried == if tempCreated && host.scriptExists then Candidates[..TriedCount(host)] else []
    ensures logged.Some? <==> result.EngineFailure?
    ensures logged.Some? ==> logged.value == LogEntry(NormalizeProfile(studentId, profile.value), result.debug)
  {
    tried, tempCreated, tempExists, logged := [], false, false, None;
    if profile.None? {
      return Failure(StudentNotFound), tried, tempCreated, tempExists, logged;
    }
    var input := NormalizeProfile(studentId, profile.value);
    if !host.tempDirWritable {
      return Failure(TempDirNotWritable), tried, tempCreated, tempExists, logged;
    }
    if !host.tempFileCreated {
      return Failure(TempFileFailed), tried, tempCreated, tempExists, logged;
    }
    tempCreated, tempExists := true, true;
    if !host.scriptExists {
      tempExists := false;
      return Failure(ScriptMissing), tried, tempCreated, tempExists, logged;
    }

    var rawOutput, errorOutput;
    rawOutput, errorOutput, tried := TryCandidates(host);

    tempExists := false;

    if rawOutput.None? {
      logged := Some(LogEntry(input, errorOutput));
      return EngineFailure(EngineUnavailable, errorOutput), tried, tempCreated, tempExists, logged;
    }

    var recs := host.decode(rawOutput.value);
    if !(recs.Some? && IsPhpArray(recs.value)) {
      return Failure(InvalidFormat), tried, tempCreated, tempExists, logged;
    }
    result := Success(recs.value);
  }

  // ---------------------------------------------------------------------------
  // Properties of the result
  // ---------------------------------------------------------------------------

  /** The messages of the failure results are pairwise distinct. */
  lemma FailureMessagesDistinct()
    ensures |{StudentNotFound, TempDirNotWritable, TempFileFailed, ScriptMissing, EngineUnavailable, InvalidFormat}| == 6
  {
    assert |StudentNotFound| == 17 && |TempDirNotWritable| == 30 && |TempFileFailed| == 26;
    assert |ScriptMissing| == 31 && |EngineUnavailable| == 70 && |InvalidFormat| == 29;
  }

  /** "Student not found" exactly when the profile lookup fails. */
  lemma NotFoundExactlyWithoutProfile(profile: Option<Profile>, host: Host)
    ensures Classify(profile, host) == Failure(StudentNotFound) <==> profile.None?
  {
    FailureMessagesDistinct();
  }

  /** Success exactly when, with the temp file and script in place, some
      candidate succeeds and the first success decodes to an array, which is
      passed through unchanged. */
  lemma SuccessExactlyWhenSomeCandidateSucceeds(profile: Option<Profile>, host: Host)
    ensures Classify(profile, host).Success? <==>
      && profile.Some? && host.tempDirWritable && host.tempFileCreated && host.scriptExists
      && FirstSuccess(Candidates, host).Some?
      && IsPhpArray(host.decode(host.run(Candidates[FirstSuccess(Candidates, host).value]).stdout).value)
    ensures Classify(profile, host).Success? ==>
      Some(Classify(profile, host).recommendations)
        == host.decode(host.run(Candidates[FirstSuccess(Candidates, host).value]).stdout)
  {
  }

  /** The engine failure exactly when every candidate fails. */
  lemma EngineFailureExactlyWhenAllFail(profile: Option<Profile>, host: Host)
    requires profile.Some? && host.tempDirWritable && host.tempFileCreated && host.scriptExists
    ensures Classify(profile, host).EngineFailure? <==>
      forall k :: 0 <= k < |Candidates| ==> !Succeeded(host.run(Candidates[k]), host.decode)
  {
  }

  /** Every interpreter either fails to start or exits with an error, as each
      does on an engine script it cannot compile. */
  predicate EveryRunExitsWithError(host: Host)
  {
    forall k :: 0 <= k < |Candidates| ==>
      host.run(Candidates[k]).SpawnFailed? || host.run(Candidates[k]).exitCode != 0
  }

  /** On such a host no stored profile ever gets recommendations: once the
      temporary file and the script are in place, the result is the engine
      failure carrying the last standard error. */
  lemma EngineThatNeverCompilesNeverAnswers(profile: Option<Profile>, host: Host)
    requires EveryRunExitsWithError(host)
    ensures !Classify(profile, host).Success?
    ensures profile.Some? && host.tempDirWritable && host.tempFileCreated && host.scriptExists ==>
      Classify(profile, host) == EngineFailure(EngineUnavailable, LastStderr(Candidates, host))
  {
    assert FirstSuccess(Candidates, host).None?;
  }

  /** Each failure message names its own condition: the three setup steps in
      order, then an output that does not decode to an array. */
  lemma FailureMessageExactlyWhen(profile: Option<Profile>, host: Host)
    ensures Classify(profile, host) == Failure(TempDirNotWritable) <==>
      profile.Some? && !host.tempDirWritable
    ensures Classify(profile, host) == Failure(TempFileFailed) <==>
      profile.Some? && host.tempDirWritable && !host.tempFileCreated
    ensures Classify(profile, host) == Failure(ScriptMissing) <==>
      profile.Some? && host.tempDirWritable && host.tempFileCreated && !host.scriptExists
    ensures Classify(profile, host) == Failure(InvalidFormat) <==>
      && profile.Some? && host.tempDirWritable && host.tempFileCreated && host.scriptExists
      && FirstSuccess(Candidates, host).Some?
      && !IsPhpArray(host.decode(host.run(Candidates[FirstSuccess(Candidates, host).value]).stdout).value)
  {
    FailureMessagesDistinct();
  }
}
