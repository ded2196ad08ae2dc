/** Persistence of an interview: the transcript and timing files written by
    `save_interview_data` and the completion check `check_if_interview_completed`.
    The file system is a map from path to contents, owned by a `Disk` object. */
module Utils {

  import opened Wrappers
  import opened Text

  datatype Role = System | User | Assistant

  function RoleName(r: Role): string
  {
    match r
    case System => "system"
    case User => "user"
    case Assistant => "assistant"
  }

  /** One entry of the chat history, a `{"role": ..., "content": ...}` dictionary. */
  datatype Message = Message(role: Role, content: string)

  /** The identity every respondent gets when logins are switched off. */
  const TEST_ACCOUNT: string := "testaccount"

  // ---------------------------------------------------------------------------
  // Transcript file

  /** The line written for one message. */
  function Line(m: Message): string
  {
    RoleName(m.role) + ": " + m.content + "\n"
  }

  /** The whole transcript: one line per message, in history order. */
  function Transcript(ms: seq<Message>): string
  {
    if ms == [] then "" else Line(ms[0]) + Transcript(ms[1..])
  }

  /** Writing one more line at the end of the file gives the transcript of the longer history. */
  lemma {:induction false} TranscriptAppend(ms: seq<Message>, m: Message)
    ensures Transcript(ms + [m]) == Transcript(ms) + Line(m)
  {
    if ms == [] {
      assert [m][1..] == [];
    } else {
      assert (ms + [m])[1..] == ms[1..] + [m];
      TranscriptAppend(ms[1..], m);
    }
  }

  /** Reads one transcript line back into a message. */
  function ParseLine(line: string): (r: Option<Message>)
  {
    if HasPrefix(line, "system: ") then Some(Message(System, line[8..]))
    else if HasPrefix(line, "user: ") then Some(Message(User, line[6..]))
    else if HasPrefix(line, "assistant: ") then Some(Message(Assistant, line[11..]))
    else None
  }

  /** Reads a transcript file back, line by line. */
  function ParseTranscript(text: string): (r: Option<seq<Message>>)
    decreases |text|
  {
    if text == [] then Some([])
    else match NewlineIndex(text)
      case None => None
      case Some(i) =>
        match ParseLine(text[..i])
        case None => None
        case Some(m) =>
          match ParseTranscript(text[i + 1..])
          case None => None
          case Some(rest) => Some([m] + rest)
  }

  lemma ParseLineOfMessage(m: Message)
    ensures ParseLine(RoleName(m.role) + ": " + m.content) == Some(m)
  {
    var line := RoleName(m.role) + ": " + m.content;
    match m.role
    case System =>
      assert line[..8] == "system: ";
      assert line[8..] == m.content;
    case User =>
      assert line[0] == 'u';
      assert line[..6] == "user: ";
      assert line[6..] == m.content;
    case Assistant =>
      assert line[0] == 'a';
      assert line[..11] == "assistant: ";
      assert line[11..] == m.content;
  }

  /** Reading the transcript back gives the history again, provided no message spans
      several lines. */
  lemma {:induction false} TranscriptRoundTrip(ms: seq<Message>)
    requires forall k | 0 <= k < |ms| :: '\n' !in ms[k].content
    ensures ParseTranscript(Transcript(ms)) == Some(ms)
  {
    if ms != [] {
      var line := RoleName(ms[0].role) + ": " + ms[0].content;
      assert '\n' !in line by {
        assert '\n' !in RoleName(ms[0].role) + ": ";
      }
      assert Transcript(ms) == line + "\n" + Transcript(ms[1..]);
      NewlineAfterLine(line, Transcript(ms[1..]));
      ParseLineOfMessage(ms[0]);
      TranscriptRoundTrip(ms[1..]);
      assert [ms[0]] + ms[1..] == ms;
    }
  }

  /** A message whose content holds a line break reads back as two messages: the transcript
      alone does not determine the history. */
  lemma TranscriptAmbiguous()
    ensures Transcript([Message(Assistant, "a\nuser: b")])
         == Transcript([Message(Assistant, "a"), Message(User, "b")])
    ensures [Message(Assistant, "a\nuser: b")] != [Message(Assistant, "a"), Message(User, "b")]
  {
    assert [Message(Assistant, "a"), Message(User, "b")][1..] == [Message(User, "b")];
  }

  // ---------------------------------------------------------------------------
  // Timing file

  const START_TIME_PREFIX: string := "Start time (UTC): "
  const DURATION_PREFIX: string := "Interview duration (minutes): "

  /** The timing file: the formatted start time, then the duration in minutes. Both
      texts come from the clock and are left uninterpreted. */
  function TimingRecord(startTime: string, duration: string): string
  {
    START_TIME_PREFIX + startTime + "\n" + DURATION_PREFIX + duration
  }

  /** The timing file has two lines, introduced by the start-time and duration labels. */
  lemma TimingLines(startTime: string, duration: string)
    requires '\n' !in startTime
    ensures var t := TimingRecord(startTime, duration);
      var i := |START_TIME_PREFIX| + |startTime|;
      && NewlineIndex(t) == Some(i)
      && t[..i] == START_TIME_PREFIX + startTime && HasPrefix(t[..i], START_TIME_PREFIX)
      && t[i + 1..] == DURATION_PREFIX + duration && HasPrefix(t[i + 1..], DURATION_PREFIX)
  {
    assert '\n' !in START_TIME_PREFIX + startTime by {
      assert '\n' !in START_TIME_PREFIX;
    }
    assert TimingRecord(startTime, duration)
        == (START_TIME_PREFIX + startTime) + "\n" + (DURATION_PREFIX + duration);
    NewlineAfterLine(START_TIME_PREFIX + startTime, DURATION_PREFIX + duration);
    assert (START_TIME_PREFIX + startTime)[..|START_TIME_PREFIX|] == START_TIME_PREFIX;
    assert (DURATION_PREFIX + duration)[..|DURATION_PREFIX|] == DURATION_PREFIX;
  }

  // ---------------------------------------------------------------------------
  // Paths and the completion check

  /** Python's `os.path.join(directory, name)` on POSIX: an absolute name replaces the
      directory, and a separator is inserted only where the directory lacks one. */
  function JoinPath(directory: string, name: string): string
  {
    if HasPrefix(name, "/") then name
    else if directory == [] || directory[|directory| - 1] == '/' then directory + name
    else directory + "/" + name
  }

  /** The path of a data file: `username + suffix + ".txt"` inside `directory`. */
  function DataPath(directory: string, username: string, suffix: string): string
  {
    JoinPath(directory, username + suffix + ".txt")
  }

  /** `check_if_interview_completed`: the file named after the respondent exists in
      `directory`; never for the test account. */
  function InterviewCompleted(files: map<string, string>, directory: string, username: string): bool
  {
    username != TEST_ACCOUNT && JoinPath(directory, username + ".txt") in files
  }

  /** Whatever the files are, the test account never counts as completed. */
  lemma TestAccountNeverCompleted(files: map<string, string>, directory: string)
    ensures !InterviewCompleted(files, directory, TEST_ACCOUNT)
  {
  }

  /** For every other respondent the check is exactly the existence of the marker file. */
  lemma CompletedIffMarkerExists(files: map<string, string>, directory: string, username: string)
    requires username != TEST_ACCOUNT
    ensures InterviewCompleted(files, directory, username) <==> DataPath(directory, username, "") in files
  {
    assert username + "" + ".txt" == username + ".txt";
  }

  // ---------------------------------------------------------------------------
  // Saving

  /** The files after `save_interview_data`: the transcript file is overwritten with the
      transcript, then the timing file with the timing record. */
  function Saved(files: map<string, string>, messages: seq<Message>, username: string,
                 transcriptsDirectory: string, timesDirectory: string,
                 transcriptSuffix: string, timeSuffix: string,
                 startTime: string, duration: string): map<string, string>
  {
    files[DataPath(transcriptsDirectory, username, transcriptSuffix) := Transcript(messages)]
         [DataPath(timesDirectory, username, timeSuffix) := TimingRecord(startTime, duration)]
  }

  /** Saving writes the two data files and leaves every other path as it was. */
  lemma SaveWritesTwoFiles(files: map<string, string>, messages: seq<Message>, username: string,
                           transcriptsDirectory: string, timesDirectory: string,
                           transcriptSuffix: string, timeSuffix: string,
                           startTime: string, duration: string)
    ensures var after := Saved(files, messages, username, transcriptsDirectory, timesDirectory,
                               transcriptSuffix, timeSuffix, startTime, duration);
      var transcriptPath := DataPath(transcriptsDirectory, username, transcriptSuffix);
      var timePath := DataPath(timesDirectory, username, timeSuffix);
      && after.Keys == files.Keys + {transcriptPath, timePath}
      && after[timePath] == TimingRecord(startTime, duration)
      && (transcriptPath != timePath ==> after[transcriptPath] == Transcript(messages))
      && (forall p | p in files && p != transcriptPath && p != timePath :: after[p] == files[p])
  {
  }

  /** Files are opened for writing, not appending: saving the same data twice leaves the
      same files as saving it once. */
  lemma SaveIdempotent(files: map<string, string>, messages: seq<Message>, username: string,
                       transcriptsDirectory: string, timesDirectory: string,
                       transcriptSuffix: string, timeSuffix: string,
                       startTime: string, duration: string)
    ensures var once := Saved(files, messages, username, transcriptsDirectory, timesDirectory,
                              transcriptSuffix, timeSuffix, startTime, duration);
      Saved(once, messages, username, transcriptsDirectory, timesDirectory,
            transcriptSuffix, timeSuffix, startTime, duration) == once
  {
  }

  /** With the default (empty) suffixes the files carry the bare respondent name, which is
      what the completion check looks for in either directory. */
  lemma SaveMarksCompleted(files: map<string, string>, messages: seq<Message>, username: string,
                           transcriptsDirectory: string, timesDirectory: string,
                           startTime: string, duration: string)
    requires username != TEST_ACCOUNT
    ensures var after := Saved(files, messages, username, transcriptsDirectory, timesDirectory,
                               "", "", startTime, duration);
      InterviewCompleted(after, transcriptsDirectory, username) && InterviewCompleted(after, timesDirectory, username)
  {
    assert username + "" + ".txt" == username + ".txt";
  }

  /** The file system, updated in place by the saving routine. */
  class Disk {
    var files: map<string, string>

    constructor(initial: map<string, string>)
      ensures files == initial
    {
      files := initial;
    }

    /** `save_interview_data`: truncates the transcript file and writes it line by line,
        then overwrites the timing file. */
    method SaveInterviewData(messages: seq<Message>, username: string,
                             transcriptsDirectory: string, timesDirectory: string,
                             transcriptSuffix: string, timeSuffix: string,
                             startTime: string, duration: string)
      modifies this
      ensures files == Saved(old(files), messages, username, transcriptsDirectory, timesDirectory,
                             transcriptSuffix, timeSuffix, startTime, duration)
    {
      var transcriptPath := DataPath(transcriptsDirectory, username, transcriptSuffix);
      files := files[transcriptPath := ""];
      var i := 0;
      while i < |messages|
        invariant 0 <= i <= |messages|
        invariant files == old(files)[transcriptPath := Transcript(messages[..i])]
      {
        TranscriptAppend(messages[..i], messages[i]);
        assert messages[..i + 1] == messages[..i] + [messages[i]];
        files := files[transcriptPath := files[transcriptPath] + Line(messages[i])];
        i := i + 1;
      }
      assert messages[..i] == messages;
      files := files[DataPath(timesDirectory, username, timeSuffix) := TimingRecord(startTime, duration)];
    }
  }
}
