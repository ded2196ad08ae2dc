/** The interview controller. Every rerun of the page script is one call of `Session.Rerun`,
    which performs the script's steps in order: the completed-interview check, the quit
    button, the replay of the history, the opening turn on an empty history, and one
    respondent turn. The model's reply is given as the sequence of text fragments it
    streams; the file system is a `Disk`. */
module Interview {

  import opened Wrappers
  import opened Text
  import opened Config
  import opened Utils

  // ---------------------------------------------------------------------------
  // Backend selection and request parameters

  datatype Api = OpenAI | Anthropic

  function LowerChar(c: char): char
  {
    if 'A' <= c <= 'Z' then (c as int + 32) as char else c
  }

  /** `str.lower()` on ASCII letters. */
  function Lower(s: string): string
  {
    seq(|s|, i requires 0 <= i < |s| => LowerChar(s[i]))
  }

  /** The backend is chosen by the model name: "gpt" before "claude"; any other name is
      a configuration error. */
  function SelectApi(model: string): (api: Option<Api>)
    ensures api == Some(OpenAI) <==> Contains(Lower(model), "gpt")
    ensures api == Some(Anthropic) <==> !Contains(Lower(model), "gpt") && Contains(Lower(model), "claude")
  {
    if Contains(Lower(model), "gpt") then Some(OpenAI)
    else if Contains(Lower(model), "claude") then Some(Anthropic)
    else None
  }

  lemma LowerIdempotent(s: string)
    ensures Lower(Lower(s)) == Lower(s)
  {
  }

  /** The backend choice ignores case: a model name and its lower-cased form select the
      same backend. */
  lemma SelectApiIgnoresCase(model: string)
    ensures SelectApi(Lower(model)) == SelectApi(model)
  {
    LowerIdempotent(model);
  }

  /** The alternative model named beside the configured one, a Claude model, is served by
      the Anthropic backend: its name has no "g", so it cannot contain "gpt". */
  lemma ClaudeModelUsesAnthropic()
    ensures SelectApi("claude-3-5-sonnet-20240620") == Some(Anthropic)
  {
    var lowered := Lower("claude-3-5-sonnet-20240620");
    assert lowered == "claude-3-5-sonnet-20240620";
    assert lowered[..6] == "claude";
    assert OccursAt(lowered, "claude", 0);
    if Contains(lowered, "gpt") {
      ContainsHasChar(lowered, "gpt", 0);
      assert false;
    }
  }

  /** The configured model is served by the OpenAI backend. */
  lemma ConfiguredModelUsesOpenAI()
    ensures SelectApi(MODEL) == Some(OpenAI)
  {
    var lowered := Lower(MODEL);
    assert lowered[..3] == "gpt";
    assert OccursAt(lowered, "gpt", 0);
  }

  /** The keyword arguments of a completion request. An absent key is `None`. */
  datatype Request = Request(messages: seq<Message>, model: string, maxTokens: nat,
                             temperature: Option<real>, stream: Option<bool>,
                             system: Option<string>)

  /** The request for a history: the temperature only when one is configured, streaming
      for OpenAI, the system prompt out of band for Anthropic. */
  function RequestKwargs(api: Api, history: seq<Message>, model: string, maxTokens: nat,
                         temperature: Option<real>, systemPrompt: string): Request
  {
    Request(history, model, maxTokens,
            if temperature.Some? then Some(temperature.value) else None,
            if api == OpenAI then Some(true) else None,
            if api == Anthropic then Some(systemPrompt) else None)
  }

  /** The request sent by the page: the configured model, token cap and temperature, with
      the session's system prompt. */
  function ConfiguredRequest(api: Api, history: seq<Message>, systemPrompt: string): Request
  {
    RequestKwargs(api, history, MODEL, MAX_OUTPUT_TOKENS, TEMPERATURE, systemPrompt)
  }

  /** The system prompt reaches the backend exactly once: for OpenAI as the first message of
      a history primed with it and no request key, for Anthropic as the `system` key and no
      message of the history. */
  lemma SystemPromptSentOnce(api: Api, systemPrompt: string, rest: seq<Message>)
    requires forall k | 0 <= k < |rest| :: rest[k].role != System
    ensures var r := ConfiguredRequest(api, [Priming(api, systemPrompt)] + rest, systemPrompt);
      && (api == OpenAI ==>
            && r.messages[0] == Message(System, systemPrompt) && r.system.None?
            && forall k | 1 <= k < |r.messages| :: r.messages[k].role != System)
      && (api == Anthropic ==>
            && r.system == Some(systemPrompt)
            && forall k | 0 <= k < |r.messages| :: r.messages[k].role != System)
  {
    var history := [Priming(api, systemPrompt)] + rest;
    assert forall k | 1 <= k < |history| :: history[k] == rest[k - 1];
  }

  /** With the configuration as shipped no temperature is sent, replies are capped at
      2048 tokens, and only OpenAI requests are streamed. */
  lemma ConfiguredRequestKeys(api: Api, history: seq<Message>, systemPrompt: string)
    ensures TEMPERATURE.None? && MAX_OUTPUT_TOKENS == 2048
    ensures var r := ConfiguredRequest(api, history, systemPrompt);
      && r.temperature.None? && r.maxTokens == 2048 && r.messages == history && r.model == MODEL
      && (r.stream == Some(true) <==> api == OpenAI) && (r.stream.None? <==> api == Anthropic)
  {
  }

  /** The respondent identity: the logged-in name, or the test account without logins. */
  function SessionUsername(logins: bool, loggedIn: string): string
  {
    if logins then loggedIn else TEST_ACCOUNT
  }

  /** As configured, logins are off and every respondent is the test account. */
  lemma ConfiguredUsernameIsTestAccount(loggedIn: string)
    ensures SessionUsername(LOGINS, loggedIn) == TEST_ACCOUNT
  {
  }

  // ---------------------------------------------------------------------------
  // The streamed reply

  /** The text of a sequence of fragments. Empty fragments, which the loops skip, add
      nothing. */
  function Joined(fragments: seq<string>): string
  {
    if fragments == [] then ""
    else Joined(fragments[..|fragments| - 1]) + fragments[|fragments| - 1]
  }

  lemma JoinedStep(fragments: seq<string>, i: nat)
    requires i < |fragments|
    ensures Joined(fragments[..i + 1]) == Joined(fragments[..i]) + fragments[i]
  {
    assert fragments[..i + 1][..i] == fragments[..i];
  }

  /** The opening turn's reading loop: every non-empty fragment is appended. */
  method Accumulate(fragments: seq<string>) returns (text: string)
    ensures text == Joined(fragments)
  {
    text := "";
    var i := 0;
    while i < |fragments|
      invariant 0 <= i <= |fragments|
      invariant text == Joined(fragments[..i])
    {
      JoinedStep(fragments, i);
      if fragments[i] != "" {
        text := text + fragments[i];
      }
      i := i + 1;
    }
    assert fragments[..i] == fragments;
  }

  lemma NoCodeInEmptyText()
    ensures !HasCode("")
  {
    ClosingTable();
  }

  /** The number of fragments read from position `n` on, when no earlier prefix of the
      reply holds a code. */
  function StopFrom(fragments: seq<string>, n: nat): (stop: nat)
    requires n <= |fragments|
    requires forall j | 0 <= j < n :: !HasCode(Joined(fragments[..j]))
    ensures n <= stop <= |fragments|
    ensures forall j | 0 <= j < stop :: !HasCode(Joined(fragments[..j]))
    ensures stop == |fragments| || HasCode(Joined(fragments[..stop]))
    decreases |fragments| - n
  {
    if n == |fragments| || HasCode(Joined(fragments[..n])) then n
    else StopFrom(fragments, n + 1)
  }

  /** The number of fragments the scanner reads: up to and including the first one after
      which the text holds a code, or all of them. */
  function StopIndex(fragments: seq<string>): (stop: nat)
    ensures stop <= |fragments|
    ensures forall j | 0 <= j < stop :: !HasCode(Joined(fragments[..j]))
    ensures stop == |fragments| || HasCode(Joined(fragments[..stop]))
  {
    StopFrom(fragments, 0)
  }

  /** The text the scanner assembles. */
  function Scanned(fragments: seq<string>): string
  {
    Joined(fragments[..StopIndex(fragments)])
  }

  /** The conditions on `StopIndex` single it out. */
  lemma StopIndexUnique(fragments: seq<string>, n: nat)
    requires n <= |fragments|
    requires forall j | 0 <= j < n :: !HasCode(Joined(fragments[..j]))
    requires n == |fragments| || HasCode(Joined(fragments[..n]))
    ensures n == StopIndex(fragments)
  {
    var stop := StopIndex(fragments);
    var atN, atStop := Joined(fragments[..n]), Joined(fragments[..stop]);
  }

  /** A scan cut short by a code stops on a non-empty fragment: an empty fragment leaves
      the text, and so its lack of a code, unchanged. */
  lemma ScanStopsOnNonEmptyFragment(fragments: seq<string>)
    requires HasCode(Scanned(fragments))
    ensures 0 < StopIndex(fragments) && fragments[StopIndex(fragments) - 1] != ""
  {
    var stop := StopIndex(fragments);
    assert fragments[..0] == [];
    NoCodeInEmptyText();
    assert stop != 0;
    JoinedStep(fragments, stop - 1);
    assert !HasCode(Joined(fragments[..stop - 1]));
    assert Joined(fragments[..stop - 1]) + "" == Joined(fragments[..stop - 1]);
  }

  /** A reply streamed as a single fragment is read in full, whether or not it holds a code. */
  lemma SingleFragmentScanned(reply: string)
    ensures StopIndex([reply]) == 1 && Scanned([reply]) == reply
  {
    NoCodeInEmptyText();
    assert [reply][..0] == [] && [reply][..1] == [reply];
    assert Joined([reply]) == Joined([]) + reply;
  }

  /** The reading loop of a respondent turn: fragments are appended until the text holds a
      code, and the rest of the stream is not read. */
  method ScanStream(fragments: seq<string>) returns (buffer: string, consumed: nat)
    ensures consumed == StopIndex(fragments)
    ensures buffer == Scanned(fragments)
  {
    buffer := "";
    consumed := 0;
    while consumed < |fragments|
      invariant consumed <= |fragments|
      invariant buffer == Joined(fragments[..consumed])
      invariant forall j | 0 <= j <= consumed :: !HasCode(Joined(fragments[..j]))
    {
      var delta := fragments[consumed];
      JoinedStep(fragments, consumed);
      consumed := consumed + 1;
      if delta != "" {
        buffer := buffer + delta;
        if HasCode(buffer) {
          break;
        }
      }
    }
    StopIndexUnique(fragments, consumed);
  }

  // ---------------------------------------------------------------------------
  // Closing messages

  /** The position of the first code, in dictionary order from `k` on, that the text holds. */
  function FirstCodeFrom(text: string, k: nat): (r: Option<nat>)
    requires k <= |CLOSING_MESSAGES|
    ensures r.Some? ==> k <= r.value < |CLOSING_MESSAGES| && Contains(text, CLOSING_MESSAGES[r.value].0)
    ensures r.Some? ==> forall j | k <= j < r.value :: !Contains(text, CLOSING_MESSAGES[j].0)
    ensures r.None? ==> forall j | k <= j < |CLOSING_MESSAGES| :: !Contains(text, CLOSING_MESSAGES[j].0)
    decreases |CLOSING_MESSAGES| - k
  {
    if k == |CLOSING_MESSAGES| then None
    else if Contains(text, CLOSING_MESSAGES[k].0) then Some(k)
    else FirstCodeFrom(text, k + 1)
  }

  /** The closing message for a reply: that of the first code in dictionary order that
      the reply holds. */
  function ClosingFor(text: string): (r: Option<string>)
    ensures r.Some? <==> HasCode(text)
    ensures r.Some? ==> exists k | 0 <= k < |CLOSING_MESSAGES| ::
      && Contains(text, CLOSING_MESSAGES[k].0) && r.value == CLOSING_MESSAGES[k].1
      && forall j | 0 <= j < k :: !Contains(text, CLOSING_MESSAGES[j].0)
  {
    match FirstCodeFrom(text, 0)
    case None => None
    case Some(k) => Some(CLOSING_MESSAGES[k].1)
  }

  /** A reply holding the problematic-content code closes with its message, whatever else
      it holds. */
  lemma ClosingPrefersProblematic(text: string)
    requires Contains(text, CODE_PROBLEMATIC)
    ensures ClosingFor(text) == Some(CLOSING_PROBLEMATIC)
  {
    ClosingTable();
  }

  /** A reply holding only the end-of-interview code closes with the end message. */
  lemma ClosingForEndCode(text: string)
    requires !Contains(text, CODE_PROBLEMATIC) && Contains(text, CODE_END)
    ensures ClosingFor(text) == Some(CLOSING_END)
  {
    ClosingTable();
    assert FirstCodeFrom(text, 1) == Some(1);
  }

  /** The closing-message loop: codes are tried in dictionary order and the first one the
      reply holds selects the message. */
  method SelectClosing(buffer: string) returns (closing: Option<string>)
    ensures closing == ClosingFor(buffer)
  {
    closing := None;
    var k := 0;
    while k < |CLOSING_MESSAGES|
      invariant k <= |CLOSING_MESSAGES|
      invariant FirstCodeFrom(buffer, k) == FirstCodeFrom(buffer, 0)
    {
      var (code, message) := CLOSING_MESSAGES[k];
      if Contains(buffer, code) {
        closing := Some(message);
        break;
      }
      k := k + 1;
    }
  }

  // ---------------------------------------------------------------------------
  // Replay of the history

  /** The messages of `ms` that hold no code, in order. */
  function Visible(ms: seq<Message>): (shown: seq<Message>)
    ensures |shown| <= |ms|
    ensures forall k | 0 <= k < |shown| :: shown[k] in ms && !HasCode(shown[k].content)
    ensures forall k | 0 <= k < |ms| && !HasCode(ms[k].content) :: ms[k] in shown
  {
    if ms == [] then []
    else
      var rest := Visible(ms[1..]);
      assert forall k | 1 <= k < |ms| :: ms[k] == ms[1..][k - 1];
      if HasCode(ms[0].content) then rest else [ms[0]] + rest
  }

  /** The chat shown on a rerun: the history without its first entry, leaving out every
      message that holds a code. */
  function Replayed(ms: seq<Message>): seq<Message>
  {
    if ms == [] then [] else Visible(ms[1..])
  }

  /** The filter of a single message keeps it exactly when it holds no code. */
  lemma VisibleSingle(m: Message)
    ensures Visible([m]) == if HasCode(m.content) then [] else [m]
  {
    assert [m][1..] == [];
  }

  /** The filter distributes over concatenation; with `VisibleSingle` this fixes the
      filtered history completely, order and repetitions included. */
  lemma {:induction false} VisibleAppend(a: seq<Message>, b: seq<Message>)
    ensures Visible(a + b) == Visible(a) + Visible(b)
    decreases |a|
  {
    if a == [] {
      assert a + b == b;
    } else {
      assert (a + b)[0] == a[0];
      assert (a + b)[1..] == a[1..] + b;
      VisibleAppend(a[1..], b);
    }
  }

  /** Recording one more message extends the replayed chat by that message, unless it
      holds a code. */
  lemma ReplayedAppend(ms: seq<Message>, m: Message)
    requires ms != []
    ensures Replayed(ms + [m]) == Replayed(ms) + (if HasCode(m.content) then [] else [m])
  {
    assert (ms + [m])[1..] == ms[1..] + [m];
    VisibleAppend(ms[1..], [m]);
    VisibleSingle(m);
  }

  /** The replay shows only messages after the first, none of which holds a code, and
      shows every later message that has none. */
  lemma ReplayShowsExactlyCodeFreeMessages(ms: seq<Message>)
    ensures forall m | m in Replayed(ms) :: m in ms[1..] && !HasCode(m.content)
    ensures forall k | 1 <= k < |ms| && !HasCode(ms[k].content) :: ms[k] in Replayed(ms)
  {
    if ms != [] {
      assert forall k | 1 <= k < |ms| :: ms[k] == ms[1..][k - 1];
    }
  }

  /** A closing message appended after a history is replayed, since it holds no code. */
  lemma ClosingMessageReplayed(ms: seq<Message>, text: string)
    requires ms != [] && HasCode(text)
    ensures Message(Assistant, ClosingFor(text).value) in Replayed(ms + [Message(Assistant, ClosingFor(text).value)])
  {
    var closing := Message(Assistant, ClosingFor(text).value);
    ClosingMessagesHaveNoCode();
    var all := ms + [closing];
    assert all[|ms|] == closing;
    ReplayShowsExactlyCodeFreeMessages(all);
  }

  /** A message holding a code is never replayed, wherever it stands in the history. */
  lemma CodedMessageNeverReplayed(ms: seq<Message>, m: Message)
    requires HasCode(m.content)
    ensures m !in Replayed(ms)
  {
    ReplayShowsExactlyCodeFreeMessages(ms);
  }

  /** The system prompt, first in an OpenAI history, is never replayed, both because the
      replay skips the first entry and because it holds the codes. */
  lemma SystemPromptNeverReplayed(ms: seq<Message>)
    ensures Message(System, SYSTEM_PROMPT) !in Replayed(ms)
  {
    SystemPromptHasBothCodes();
    CodedMessageNeverReplayed(ms, Message(System, SYSTEM_PROMPT));
  }

  // ---------------------------------------------------------------------------
  // Saving

  function TranscriptBackupSuffix(startStamp: string): string
  {
    "_transcript_started_" + startStamp
  }

  function TimeBackupSuffix(startStamp: string): string
  {
    "_time_started_" + startStamp
  }

  /** The two backup files of a session have different paths, so neither overwrites the other. */
  lemma BackupFilesDistinct(username: string, startStamp: string)
    ensures DataPath(BACKUPS_DIRECTORY, username, TranscriptBackupSuffix(startStamp))
         != DataPath(BACKUPS_DIRECTORY, username, TimeBackupSuffix(startStamp))
  {
    var a := username + TranscriptBackupSuffix(startStamp) + ".txt";
    var b := username + TimeBackupSuffix(startStamp) + ".txt";
    assert a[..|username|] == username == b[..|username|];
    assert a[|username|] == '_' == b[|username|];
    assert a[|username| + 2] == 'r' && b[|username| + 2] == 'i';
    assert HasPrefix(a, "/") == HasPrefix(b, "/");
    var pa := DataPath(BACKUPS_DIRECTORY, username, TranscriptBackupSuffix(startStamp));
    var pb := DataPath(BACKUPS_DIRECTORY, username, TimeBackupSuffix(startStamp));
    if HasPrefix(a, "/") {
      assert pa[|username| + 2] != pb[|username| + 2];
    } else {
      assert pa == BACKUPS_DIRECTORY + a && pb == BACKUPS_DIRECTORY + b;
      assert pa[|BACKUPS_DIRECTORY| + |username| + 2] != pb[|BACKUPS_DIRECTORY| + |username| + 2];
    }
  }

  /** The final save loop, given the clock reading of each attempt: it saves into the
      canonical directories until the transcript file is seen. `None` when every attempt
      leaves the check unsatisfied. */
  function FinalSaveAttempts(files: map<string, string>, messages: seq<Message>, username: string,
                             startTime: string, durations: seq<string>): Option<map<string, string>>
    decreases |durations|
  {
    if durations == [] then None
    else
      var after := Saved(files, messages, username, TRANSCRIPTS_DIRECTORY, TIMES_DIRECTORY,
                         "", "", startTime, durations[0]);
      if InterviewCompleted(after, TRANSCRIPTS_DIRECTORY, username) then Some(after)
      else FinalSaveAttempts(after, messages, username, startTime, durations[1..])
  }

  /** For the test account no number of attempts ever confirms the save: the loop does
      not end. */
  lemma {:induction false} FinalSaveNeverConfirmedForTestAccount(
    files: map<string, string>, messages: seq<Message>, startTime: string, durations: seq<string>)
    ensures FinalSaveAttempts(files, messages, TEST_ACCOUNT, startTime, durations) == None
    decreases |durations|
  {
    if durations != [] {
      var after := Saved(files, messages, TEST_ACCOUNT, TRANSCRIPTS_DIRECTORY, TIMES_DIRECTORY,
                         "", "", startTime, durations[0]);
      TestAccountNeverCompleted(after, TRANSCRIPTS_DIRECTORY);
      FinalSaveNeverConfirmedForTestAccount(after, messages, startTime, durations[1..]);
    }
  }

  /** With the configuration as shipped (no logins) the final save loop never ends. */
  lemma ConfiguredFinalSaveNeverConfirmed(loggedIn: string, files: map<string, string>,
                                          messages: seq<Message>, startTime: string,
                                          durations: seq<string>)
    ensures FinalSaveAttempts(files, messages, SessionUsername(LOGINS, loggedIn), startTime, durations) == None
  {
    FinalSaveNeverConfirmedForTestAccount(files, messages, startTime, durations);
  }

  /** For every other respondent the first attempt is confirmed. */
  lemma FinalSaveConfirmedAtOnce(files: map<string, string>, messages: seq<Message>, username: string,
                                 startTime: string, durations: seq<string>)
    requires username != TEST_ACCOUNT && durations != []
    ensures FinalSaveAttempts(files, messages, username, startTime, durations)
         == Some(Saved(files, messages, username, TRANSCRIPTS_DIRECTORY, TIMES_DIRECTORY,
                       "", "", startTime, durations[0]))
  {
    SaveMarksCompleted(files, messages, username, TRANSCRIPTS_DIRECTORY, TIMES_DIRECTORY,
                       startTime, durations[0]);
  }

  // ---------------------------------------------------------------------------
  // The session

  const QUIT_MESSAGE: string := "You have cancelled the interview."

  /** The first history entry: the system prompt for OpenAI, a greeting from the respondent
      for Anthropic (whose system prompt travels out of band). */
  function Priming(api: Api, systemPrompt: string): Message
  {
    if api == OpenAI then Message(System, systemPrompt) else Message(User, "Hi")
  }

  /** The request carries the system prompt exactly where its backend expects it: for
      Anthropic as the `system` key and in no message, for OpenAI in no key and at most as
      the first message. */
  predicate PromptPlacedOnce(r: Request, api: Api, systemPrompt: string)
  {
    && (r.system.Some? <==> api == Anthropic)
    && (r.system.Some? ==> r.system.value == systemPrompt)
    && forall k | 0 <= k < |r.messages| :: r.messages[k].role == System ==>
         k == 0 && api == OpenAI && r.messages[k].content == systemPrompt
  }

  /** The state kept across reruns of the page for one respondent. */
  class Session {
    var messages: seq<Message>
    var interviewActive: bool
    const username: string
    /** The start time as written in the timing file. */
    const startTime: string
    /** The start time as written in backup file names. */
    const startStamp: string
    /** The backend, chosen once from the configured model name (`SelectApi(MODEL)`). */
    const api: Api
    /** The system prompt; the page passes `SYSTEM_PROMPT`. None of the session's steps
        depends on its text. */
    const systemPrompt: string

    constructor(username: string, startTime: string, startStamp: string, api: Api, systemPrompt: string)
      ensures this.username == username && this.startTime == startTime && this.startStamp == startStamp
      ensures this.api == api && this.systemPrompt == systemPrompt
      ensures messages == [] && interviewActive
      ensures PrimedHistory()
    {
      this.api := api;
      this.systemPrompt := systemPrompt;
      this.username := username;
      this.startTime := startTime;
      this.startStamp := startStamp;
      messages := [];
      interviewActive := true;
    }

    /** The history invariant: a system message can only be the first entry, holding the
        system prompt, and only on the OpenAI backend (Anthropic takes the prompt out of band). */
    predicate PrimedHistory()
      reads this
    {
      forall k | 0 <= k < |messages| :: messages[k].role == System ==>
        k == 0 && api == OpenAI && messages[k].content == systemPrompt
    }

    /** A respondent whose interview is on record and who has no history yet is turned away. */
    method CheckCompleted(disk: Disk) returns (alreadyCompleted: bool)
      modifies this`interviewActive
      ensures alreadyCompleted == (InterviewCompleted(disk.files, TIMES_DIRECTORY, username) && messages == [])
      ensures interviewActive == (old(interviewActive) && !alreadyCompleted)
      ensures username == TEST_ACCOUNT ==> !alreadyCompleted && interviewActive == old(interviewActive)
    {
      alreadyCompleted := InterviewCompleted(disk.files, TIMES_DIRECTORY, username) && messages == [];
      if alreadyCompleted {
        interviewActive := false;
      }
    }

    /** The quit button, shown only while the interview is active: it records the
        cancellation and saves to the canonical directories once. */
    method Quit(disk: Disk, clicked: bool, duration: string)
      requires PrimedHistory()
      modifies this, disk
      ensures PrimedHistory()
      ensures var quits := old(interviewActive) && clicked;
        && (quits ==> && !interviewActive
                      && messages == old(messages) + [Message(Assistant, QUIT_MESSAGE)]
                      && disk.files == Saved(old(disk.files), messages, username, TRANSCRIPTS_DIRECTORY,
                                             TIMES_DIRECTORY, "", "", startTime, duration))
        && (quits && username != TEST_ACCOUNT ==> InterviewCompleted(disk.files, TIMES_DIRECTORY, username))
        && (!quits ==> && interviewActive == old(interviewActive) && messages == old(messages)
                       && disk.files == old(disk.files))
    {
      if interviewActive && clicked {
        interviewActive := false;
        messages := messages + [Message(Assistant, QUIT_MESSAGE)];
        disk.SaveInterviewData(messages, username, TRANSCRIPTS_DIRECTORY, TIMES_DIRECTORY,
                               "", "", startTime, duration);
        if username != TEST_ACCOUNT {
          SaveMarksCompleted(old(disk.files), messages, username, TRANSCRIPTS_DIRECTORY,
                             TIMES_DIRECTORY, startTime, duration);
        }
      }
    }

    /** On an empty history: the priming entry, the interviewer's opening line streamed in
        full, and a backup save. */
    method Initialise(disk: Disk, fragments: seq<string>, duration: string)
      returns (request: Option<Request>)
      requires PrimedHistory()
      modifies this, disk
      ensures PrimedHistory()
      ensures request.Some? ==> PromptPlacedOnce(request.value, api, systemPrompt)
      ensures interviewActive == old(interviewActive)
      ensures old(messages) != [] ==>
        request == None && messages == old(messages) && disk.files == old(disk.files)
      ensures old(messages) == [] ==>
        && request == Some(ConfiguredRequest(api, [Priming(api, systemPrompt)], systemPrompt))
        && messages == [Priming(api, systemPrompt), Message(Assistant, Joined(fragments))]
        && disk.files == Saved(old(disk.files), messages, username, BACKUPS_DIRECTORY, BACKUPS_DIRECTORY,
                               TranscriptBackupSuffix(startStamp), TimeBackupSuffix(startStamp),
                               startTime, duration)
    {
      request := None;
      if messages == [] {
        var opening: string;
        if api == OpenAI {
          messages := messages + [Message(System, systemPrompt)];
          assert messages == [Priming(api, systemPrompt)];
          request := Some(ConfiguredRequest(api, messages, systemPrompt));
          opening := Joined(fragments);
        } else {
          messages := messages + [Message(User, "Hi")];
          assert messages == [Priming(api, systemPrompt)];
          request := Some(ConfiguredRequest(api, messages, systemPrompt));
          opening := Accumulate(fragments);
        }
        messages := messages + [Message(Assistant, opening)];
        disk.SaveInterviewData(messages, username, BACKUPS_DIRECTORY, BACKUPS_DIRECTORY,
                               TranscriptBackupSuffix(startStamp), TimeBackupSuffix(startStamp),
                               startTime, duration);
      }
    }

    /** The final save loop: save to the canonical directories until the transcript file
        is seen there. */
    method StoreFinal(disk: Disk, duration: string)
      requires username != TEST_ACCOUNT
      modifies disk
      ensures disk.files == Saved(old(disk.files), messages, username, TRANSCRIPTS_DIRECTORY,
                                  TIMES_DIRECTORY, "", "", startTime, duration)
      ensures FinalSaveAttempts(old(disk.files), messages, username, startTime, [duration]) == Some(disk.files)
      ensures InterviewCompleted(disk.files, TRANSCRIPTS_DIRECTORY, username)
      ensures InterviewCompleted(disk.files, TIMES_DIRECTORY, username)
    {
      var stored := false;
      while !stored
        invariant !stored ==> disk.files == old(disk.files)
        invariant stored ==> disk.files == Saved(old(disk.files), messages, username, TRANSCRIPTS_DIRECTORY,
                                                 TIMES_DIRECTORY, "", "", startTime, duration)
        decreases if stored then 0 else 1
      {
        disk.SaveInterviewData(messages, username, TRANSCRIPTS_DIRECTORY, TIMES_DIRECTORY,
                               "", "", startTime, duration);
        SaveMarksCompleted(old(disk.files), messages, username, TRANSCRIPTS_DIRECTORY,
                           TIMES_DIRECTORY, startTime, duration);
        stored := InterviewCompleted(disk.files, TRANSCRIPTS_DIRECTORY, username);
      }
      SaveMarksCompleted(old(disk.files), messages, username, TRANSCRIPTS_DIRECTORY,
                         TIMES_DIRECTORY, startTime, duration);
      FinalSaveConfirmedAtOnce(old(disk.files), messages, username, startTime, [duration]);
    }

    /** One respondent turn: the message is recorded, the reply is read until it holds a
        code, and either the reply is recorded and backed up, or the raw reply and its
        closing message are recorded, the interview ends and is saved for good. */
    method SubmitTurn(disk: Disk, input: string, fragments: seq<string>, duration: string)
      returns (request: Option<Request>)
      requires interviewActive && input != "" && HasCode(Scanned(fragments)) ==> username != TEST_ACCOUNT
      requires PrimedHistory()
      modifies this, disk
      ensures PrimedHistory()
      ensures request.Some? ==> PromptPlacedOnce(request.value, api, systemPrompt)
      ensures !(old(interviewActive) && input != "") ==>
        && request == None && messages == old(messages)
        && interviewActive == old(interviewActive) && disk.files == old(disk.files)
      ensures old(interviewActive) && input != "" ==>
        var buffer := Scanned(fragments);
        var history := old(messages) + [Message(User, input)];
        && request == Some(ConfiguredRequest(api, history, systemPrompt))
        && (!HasCode(buffer) ==>
              && messages == history + [Message(Assistant, buffer)]
              && interviewActive
              && disk.files == Saved(old(disk.files), messages, username, BACKUPS_DIRECTORY, BACKUPS_DIRECTORY,
                                     TranscriptBackupSuffix(startStamp), TimeBackupSuffix(startStamp),
                                     startTime, duration))
        && (HasCode(buffer) ==>
              && messages == history + [Message(Assistant, buffer), Message(Assistant, ClosingFor(buffer).value)]
              && !interviewActive
              && disk.files == Saved(old(disk.files), messages, username, TRANSCRIPTS_DIRECTORY,
                                     TIMES_DIRECTORY, "", "", startTime, duration)
              && InterviewCompleted(disk.files, TIMES_DIRECTORY, username))
    {
      request := None;
      if interviewActive && input != "" {
        messages := messages + [Message(User, input)];
        request := Some(ConfiguredRequest(api, messages, systemPrompt));
        var buffer, consumed := ScanStream(fragments);
        if !HasCode(buffer) {
          messages := messages + [Message(Assistant, buffer)];
          disk.SaveInterviewData(messages, username, BACKUPS_DIRECTORY, BACKUPS_DIRECTORY,
                                 TranscriptBackupSuffix(startStamp), TimeBackupSuffix(startStamp),
                                 startTime, duration);
        } else {
          messages := messages + [Message(Assistant, buffer)];
          interviewActive := false;
          var closing := SelectClosing(buffer);
          if closing.Some? {
            messages := messages + [Message(Assistant, closing.value)];
          }
          StoreFinal(disk, duration);
        }
      }
    }

    /** The files after a backup save of `ms`: both files in the backups directory, named
        with the session's start stamp. */
    function BackupSaved(files: map<string, string>, ms: seq<Message>, duration: string): map<string, string>
    {
      Saved(files, ms, username, BACKUPS_DIRECTORY, BACKUPS_DIRECTORY,
            TranscriptBackupSuffix(startStamp), TimeBackupSuffix(startStamp), startTime, duration)
    }

    /** The files after a save of `ms` to the canonical directories. */
    function CanonicalSaved(files: map<string, string>, ms: seq<Message>, duration: string): map<string, string>
    {
      Saved(files, ms, username, TRANSCRIPTS_DIRECTORY, TIMES_DIRECTORY, "", "", startTime, duration)
    }

    /** The steps before the conversation: the completed-interview check, the quit button
        and the replay of the history. */
    method Prelude(disk: Disk, quitClicked: bool, duration: string)
      returns (alreadyCompleted: bool, shown: seq<Message>)
      requires PrimedHistory()
      modifies this, disk
      ensures PrimedHistory()
      ensures alreadyCompleted == (InterviewCompleted(old(disk.files), TIMES_DIRECTORY, username) && old(messages) == [])
      ensures var quits := old(interviewActive) && !alreadyCompleted && quitClicked;
        && messages == (if quits then old(messages) + [Message(Assistant, QUIT_MESSAGE)] else old(messages))
        && disk.files == (if quits then CanonicalSaved(old(disk.files), messages, duration) else old(disk.files))
        && (quits && username != TEST_ACCOUNT ==> InterviewCompleted(disk.files, TIMES_DIRECTORY, username))
      ensures interviewActive == (old(interviewActive) && !alreadyCompleted && !quitClicked)
      ensures shown == Replayed(messages)
    {
      alreadyCompleted := CheckCompleted(disk);
      Quit(disk, quitClicked, duration);
      shown := Replayed(messages);
    }

    /** The conversation steps: the opening turn on an empty history, then the
        respondent's turn. */
    method Converse(disk: Disk, input: string,
                    openingFragments: seq<string>, replyFragments: seq<string>, duration: string)
      requires interviewActive && input != "" && HasCode(Scanned(replyFragments)) ==> username != TEST_ACCOUNT
      requires PrimedHistory()
      modifies this, disk
      ensures PrimedHistory()
      ensures |old(messages)| <= |messages| && messages[..|old(messages)|] == old(messages)
      ensures interviewActive ==> old(interviewActive)
      ensures old(messages) != [] && !(old(interviewActive) && input != "") ==>
        messages == old(messages) && interviewActive == old(interviewActive) && disk.files == old(disk.files)
      ensures old(messages) == [] && input == "" ==>
        && messages == [Priming(api, systemPrompt), Message(Assistant, Joined(openingFragments))]
        && interviewActive == old(interviewActive)
        && disk.files == BackupSaved(old(disk.files), messages, duration)
      ensures old(messages) != [] && old(interviewActive) && input != "" ==>
        var buffer := Scanned(replyFragments);
        && messages == old(messages) + [Message(User, input), Message(Assistant, buffer)]
                       + (if HasCode(buffer) then [Message(Assistant, ClosingFor(buffer).value)] else [])
        && (interviewActive <==> !HasCode(buffer))
        && disk.files == (if HasCode(buffer) then CanonicalSaved(old(disk.files), messages, duration)
                          else BackupSaved(old(disk.files), messages, duration))
        && (HasCode(buffer) ==> InterviewCompleted(disk.files, TIMES_DIRECTORY, username))
    {
      var opening := Initialise(disk, openingFragments, duration);
      ghost var afterOpening := messages;
      var reply := SubmitTurn(disk, input, replyFragments, duration);
      assert messages[..|afterOpening|] == afterOpening;
    }

    /** One rerun of the page script, its steps in the script's order. Returns whether the
        respondent was turned away and the replayed chat. */
    method Rerun(disk: Disk, quitClicked: bool, input: string,
                 openingFragments: seq<string>, replyFragments: seq<string>, duration: string)
      returns (alreadyCompleted: bool, shown: seq<Message>)
      requires input != "" && HasCode(Scanned(replyFragments)) ==> username != TEST_ACCOUNT
      requires PrimedHistory()
      modifies this, disk
      ensures PrimedHistory()
      ensures alreadyCompleted == (InterviewCompleted(old(disk.files), TIMES_DIRECTORY, username) && old(messages) == [])
      ensures var quits := old(interviewActive) && !alreadyCompleted && quitClicked;
        shown == Replayed(if quits then old(messages) + [Message(Assistant, QUIT_MESSAGE)] else old(messages))
      ensures |old(messages)| <= |messages| && messages[..|old(messages)|] == old(messages)
      ensures interviewActive ==> old(interviewActive)
      ensures old(messages) != [] && !(old(interviewActive) && !quitClicked && input != "") ==>
        var quits := old(interviewActive) && quitClicked;
        && messages == (if quits then old(messages) + [Message(Assistant, QUIT_MESSAGE)] else old(messages))
        && interviewActive == (old(interviewActive) && !quitClicked)
        && disk.files == (if quits then CanonicalSaved(old(disk.files), messages, duration) else old(disk.files))
      ensures old(messages) == [] && !quitClicked && input == "" ==>
        && messages == [Priming(api, systemPrompt), Message(Assistant, Joined(openingFragments))]
        && interviewActive == (old(interviewActive) && !alreadyCompleted)
        && disk.files == BackupSaved(old(disk.files), messages, duration)
      ensures old(messages) != [] && old(interviewActive) && !quitClicked && input != "" ==>
        var buffer := Scanned(replyFragments);
        && messages == old(messages) + [Message(User, input), Message(Assistant, buffer)]
                       + (if HasCode(buffer) then [Message(Assistant, ClosingFor(buffer).value)] else [])
        && (interviewActive <==> !HasCode(buffer))
        && disk.files == (if HasCode(buffer) then CanonicalSaved(old(disk.files), messages, duration)
                          else BackupSaved(old(disk.files), messages, duration))
        && (HasCode(buffer) ==> InterviewCompleted(disk.files, TIMES_DIRECTORY, username))
    {
      alreadyCompleted, shown := Prelude(disk, quitClicked, duration);
      ghost var afterPrelude := messages;
      Converse(disk, input, openingFragments, replyFragments, duration);
      assert messages[..|old(messages)|] == afterPrelude[..|old(messages)|];
    }
  }

  /** A respondent "r1" on an empty disk: the opening turn, one ordinary turn, then a reply
      made of the problematic-content code. Afterwards the interview is on record, and a
      new session for "r1" is turned away. */
  method RespondentScenario(systemPrompt: string)
  {
    var disk := new Disk(map[]);
    var session := new Session("r1", "01/01/2026 10:00:00", "2026_01_01_10_00_00", OpenAI, systemPrompt);
    assert !InterviewCompleted(disk.files, TIMES_DIRECTORY, "r1");
    var turnedAway, shown := session.Rerun(disk, false, "", ["Hello! ", "Shall we start?"], [], "0.00");
    assert !turnedAway && shown == [];
    assert |session.messages| == 2 && session.interviewActive;

    var reply := "Thanks, tell me more.";
    assert LacksCodeDigits(reply);
    NoCodeWithoutCodeDigits(reply);
    SingleFragmentScanned(reply);
    turnedAway, shown := session.Rerun(disk, false, "Hello", [], [reply], "1.00");
    assert |session.messages| == 4 && session.interviewActive;

    assert OccursAt(CODE_PROBLEMATIC, CODE_PROBLEMATIC, 0);
    ClosingPrefersProblematic(CODE_PROBLEMATIC);
    SingleFragmentScanned(CODE_PROBLEMATIC);
    turnedAway, shown := session.Rerun(disk, false, "Something problematic", [], [CODE_PROBLEMATIC], "2.00");
    assert !session.interviewActive;
    assert session.messages[|session.messages| - 1] == Message(Assistant, CLOSING_PROBLEMATIC);
    assert InterviewCompleted(disk.files, TIMES_DIRECTORY, "r1");

    var revisit := new Session("r1", "02/01/2026 10:00:00", "2026_01_02_10_00_00", OpenAI, systemPrompt);
    var again := revisit.CheckCompleted(disk);
    assert again && !revisit.interviewActive;
  }

  /** A respondent "r2" whose times file is already on disk is turned away on a first visit,
      yet the empty history still triggers the opening turn: the backend is called and the
      backup files are written. */
  method TurnedAwayScenario(systemPrompt: string)
  {
    var marker := JoinPath(TIMES_DIRECTORY, "r2.txt");
    var disk := new Disk(map[marker := "earlier interview"]);
    var session := new Session("r2", "03/01/2026 10:00:00", "2026_01_03_10_00_00", OpenAI, systemPrompt);
    assert "r2" + ".txt" == "r2.txt" && |"r2"| != |TEST_ACCOUNT|;
    assert InterviewCompleted(disk.files, TIMES_DIRECTORY, "r2");
    var turnedAway, shown := session.Rerun(disk, false, "", ["Hello again!"], [], "0.00");
    assert turnedAway && !session.interviewActive && shown == [];
    assert session.messages == [Message(System, systemPrompt), Message(Assistant, Joined(["Hello again!"]))];
    var backup := DataPath(BACKUPS_DIRECTORY, "r2", TranscriptBackupSuffix("2026_01_03_10_00_00"));
    SaveWritesTwoFiles(map[marker := "earlier interview"], session.messages, "r2", BACKUPS_DIRECTORY,
                       BACKUPS_DIRECTORY, TranscriptBackupSuffix("2026_01_03_10_00_00"),
                       TimeBackupSuffix("2026_01_03_10_00_00"), "03/01/2026 10:00:00", "0.00");
    assert backup in disk.files && marker in disk.files;
  }

  /** A respondent "r3" opens the interview, then clicks Quit on the next rerun without
      typing: the quit message closes the history, no turn follows, and the interview is on
      record. A further idle rerun changes nothing. */
  method QuitScenario(systemPrompt: string)
  {
    var disk := new Disk(map[]);
    var session := new Session("r3", "04/01/2026 10:00:00", "2026_01_04_10_00_00", Anthropic, systemPrompt);
    var turnedAway, shown := session.Rerun(disk, false, "", ["Hi there."], [], "0.00");
    assert session.messages == [Message(User, "Hi"), Message(Assistant, Joined(["Hi there."]))];
    ghost var afterOpening, openFiles := session.messages, disk.files;
    turnedAway, shown := session.Rerun(disk, true, "", [], [], "0.50");
    assert session.messages == afterOpening + [Message(Assistant, QUIT_MESSAGE)] && !session.interviewActive;
    assert |"r3"| != |TEST_ACCOUNT|;
    SaveMarksCompleted(openFiles, session.messages, "r3", TRANSCRIPTS_DIRECTORY, TIMES_DIRECTORY,
                       "04/01/2026 10:00:00", "0.50");
    assert InterviewCompleted(disk.files, TIMES_DIRECTORY, "r3");
    ghost var quitFiles := disk.files;
    turnedAway, shown := session.Rerun(disk, false, "", [], [], "1.00");
    assert session.messages == afterOpening + [Message(Assistant, QUIT_MESSAGE)] && disk.files == quitFiles;
  }
}
