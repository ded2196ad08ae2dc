# AI-led qualitative interview page, modelled in Dafny

The system is a single-page chat app. A respondent is interviewed by a language model, and
the model follows a fixed Persian interview script (the system prompt). The page script runs
again from the top each time the respondent interacts. Each run it does the following:

1. checks whether this respondent has already finished, which is shown by a file named
   after the respondent in the times directory;
2. offers a Quit button;
3. replays the chat history, hiding any message that holds a reserved code;
4. on an empty history, primes the conversation and streams the interviewer's opening line;
5. if the respondent typed a message, streams the model's reply.

The reply is read until it holds one of two reserved codes: "5j3k" for problematic content
and "x7y8" for the end of the interview. A reply without a code is recorded and backed up
under a name stamped with the start time. A reply with a code ends the interview: the raw
reply and the code's closing message are recorded, and the transcript and timing files are
written to the canonical directories until the transcript file can be seen there.

The model has five modules:

- `Wrappers`: the `Option` type.
- `Text`: Python's substring test, the prefix test and the first-newline search.
- `Config`: the configuration values.
  - The prompt texts are given in full.
  - The code-to-closing-message dictionary is a sequence of pairs in insertion order.
  - Also the model name, the temperature, the token cap, the login switch and the three
    data directories.
- `Utils`: the persistence layer.
  - A `Disk` object owns the file system as a map from path to contents.
  - `SaveInterviewData` writes the transcript line by line in a loop and then the timing
    file.
  - `InterviewCompleted` is the completion check.
  - The transcript and timing file formats, and POSIX `os.path.join`.
- `Interview`: the page controller.
  - A `Session` object holds the state kept across reruns: the history, the active flag,
    the respondent name, the start time, the backend chosen once from the model name and the
    system prompt. Its invariant allows a system message only as the first entry.
  - One rerun is `Session.Rerun`. It calls `Prelude` (completion check, quit, replay) and
    then `Converse` (opening turn, respondent turn).
  - A model reply is the sequence of text fragments its stream yields. An OpenAI chunk
    whose content is `None` is modelled as the empty fragment. The loops skip both.
  - The request's history is the session's own list, which Python passes by reference. Each
    request is therefore modelled with the history as it stands when the backend is called,
    after the append that precedes the call.

A respondent turned away as already completed is not spared the opening turn. On a first
visit the history is still empty, so the page primes the conversation, calls the backend for
the opening line and writes the backup files, only without offering the chat input.
`Interview.Session.Rerun` states this, and `Interview.TurnedAwayScenario` walks through it.
`Interview.QuitScenario` follows an Anthropic session through its opening rerun, a Quit
click that appends the quit message and marks the respondent completed, and an idle rerun
that changes nothing.

## Model

| member | source | states |
|---|---|---|
| Config.ClosingTable | config.py:44-48 | The dictionary has exactly two entries, the problematic-content code "5j3k" first and the end code "x7y8" second, each with its closing message, and each code is four characters long |
| Config.NoCodeWithoutCodeDigits | config.py:44-48 | A text without the characters '3' and '7' holds neither code, so it passes the code test |
| Config.ClosingMessagesHaveNoCode | config.py:44-48 | No closing message contains a code, so a recorded closing message is never hidden from the replayed chat |
| Config.CodesNamedAfter | config.py:33-40 | The code instructions name both codes, whatever text precedes them |
| Config.ComposedPromptHasBothCodes | config.py:52-58 | A prompt made of any outline and instructions followed by the code instructions holds both codes |
| Config.SystemPromptHasBothCodes | config.py:52-58 | The configured system prompt holds both codes, so it would be hidden from the replay even if the replay did not skip the first entry |
| Utils.TranscriptAppend | utils.py:73-74 | Writing one more message line at the end of the transcript gives the transcript of the longer history |
| Utils.TranscriptRoundTrip | utils.py:73-74 | Reading the transcript back line by line gives the history again when no message content holds a line break |
| Utils.TranscriptAmbiguous | utils.py:73-74 | A content holding a line break gives the same transcript as two separate messages, so the file alone does not determine the history |
| Utils.TimingLines | utils.py:82-85 | The timing file is two lines: the start-time label with the start time, then the duration label with the duration |
| Utils.TestAccountNeverCompleted | utils.py:45-53 | The completion check is false for the test account, whatever files exist |
| Utils.CompletedIffMarkerExists | utils.py:45-53 | For every other respondent the check holds exactly when the file `<username>.txt` exists in the directory |
| Utils.SaveWritesTwoFiles | utils.py:58-85 | Saving adds exactly the transcript and timing paths, writes the timing record and the transcript (unless both paths coincide), and leaves every other file unchanged |
| Utils.SaveIdempotent | utils.py:66-80 | Files are opened for writing, not appending: saving the same data twice leaves the same files as saving it once |
| Utils.SaveMarksCompleted | utils.py:58-85 | A save with the default empty suffixes makes a non-test respondent count as completed in both the transcripts and the times directory |
| Utils.Disk.SaveInterviewData | utils.py:58-85 | The file system after the call is the old one with the transcript file holding one line per message and the timing file holding the timing record; the line-by-line loop is proved to write the whole transcript |
| Interview.SelectApiIgnoresCase | interview.py:15-26 | The backend choice ignores case: a model name and its lower-cased form select the same backend |
| Interview.ConfiguredModelUsesOpenAI | interview.py:15-17 | The configured model name selects the OpenAI backend |
| Interview.ClaudeModelUsesAnthropic | interview.py:21-22 | The Claude model named as the alternative in the configuration selects the Anthropic backend, since its name cannot contain "gpt" |
| Interview.SystemPromptSentOnce | interview.py:86-99 | For a history primed by the session and otherwise free of system messages, the system prompt reaches the backend exactly once: for OpenAI as the first message with no `system` key, for Anthropic as the `system` key with no system message in the history |
| Interview.ConfiguredRequestKeys | interview.py:79-89 | With the shipped configuration (no temperature, 2048 tokens) a request carries the history and the model, no temperature, a cap of 2048 tokens, and a stream flag set exactly for OpenAI |
| Interview.ConfiguredUsernameIsTestAccount | interview.py:39-46 | With logins switched off, every respondent is the test account |
| Interview.Accumulate | interview.py:103-106 | The opening line read from an Anthropic stream is the concatenation of all fragments |
| Interview.StopIndex | interview.py:137-155 | The number of fragments read is at most the stream's length; no shorter prefix holds a code; and either the whole stream is read or the text read holds a code |
| Interview.StopIndexUnique | interview.py:137-155 | Any count satisfying those conditions is the one the scanner stops at |
| Interview.ScanStopsOnNonEmptyFragment | interview.py:139-145 | A scan cut short by a code stops on a non-empty fragment |
| Interview.SingleFragmentScanned | interview.py:137-155 | A reply streamed as one fragment is read in full, with or without a code |
| Interview.ScanStream | interview.py:137-155 | The reading loop returns exactly the text of the fragments up to the first one after which the text holds a code, and consumes exactly that many fragments |
| Interview.ClosingFor | interview.py:173-178 | A closing message exists exactly when the reply holds a code; it is the message of the first code in dictionary order that the reply holds |
| Interview.ClosingPrefersProblematic | interview.py:173-178 | A reply holding the problematic-content code closes with its message, even if it also holds the end code |
| Interview.ClosingForEndCode | interview.py:173-178 | A reply holding only the end code closes with the end-of-interview message |
| Interview.SelectClosing | interview.py:173-178 | The dictionary loop selects the closing message of the first code the reply holds, or none |
| Interview.Visible | interview.py:73-74 | The filtered history is no longer than the original, contains only messages of the original that hold no code, and contains every message without a code |
| Interview.VisibleSingle | interview.py:74 | A single message is shown exactly when it holds no code |
| Interview.VisibleAppend | interview.py:73-74 | The filter distributes over concatenation; with the single-message case this fixes the shown list completely, in history order and with repetitions |
| Interview.ReplayedAppend | interview.py:73-74 | Recording a message after a non-empty history extends the replayed chat by exactly that message, or leaves it unchanged when the message holds a code |
| Interview.ReplayShowsExactlyCodeFreeMessages | interview.py:73-74 | Every replayed message comes from the history after its first entry and holds no code, and every such message without a code is replayed |
| Interview.ClosingMessageReplayed | interview.py:73-74 | A closing message appended after a non-empty history appears in the replay |
| Interview.CodedMessageNeverReplayed | interview.py:73-74 | A message holding a code is never replayed |
| Interview.SystemPromptNeverReplayed | interview.py:73-74 | The system-prompt message is never replayed |
| Interview.BackupFilesDistinct | interview.py:116-122 | The transcript backup and the timing backup of a session have different paths, so neither overwrites the other |
| Interview.FinalSaveNeverConfirmedForTestAccount | interview.py:179-189 | For the test account no number of save attempts makes the completion check true, so the final save loop never ends |
| Interview.ConfiguredFinalSaveNeverConfirmed | interview.py:179-189 | With logins switched off, the final save loop never ends |
| Interview.FinalSaveConfirmedAtOnce | interview.py:179-189 | For every other respondent, the first attempt is confirmed and its files are those of one save |
| Interview.Session.constructor | interview.py:52-56 | A new session has an empty history, is active, keeps the backend and system prompt it is given, and satisfies the history invariant (a system message only as the first entry, holding the prompt, on OpenAI) |
| Interview.Session.CheckCompleted | interview.py:58-61 | The respondent is turned away exactly when the times file exists and the history is empty; this deactivates the session; the test account is never turned away |
| Interview.Session.Quit | interview.py:63-70 | A click on an active session deactivates it, appends the quit message and saves to the canonical directories, which marks a non-test respondent as completed; otherwise nothing changes |
| Interview.Session.Initialise | interview.py:91-122 | On an empty history, the history becomes the priming entry and the opening line; the request is sent with the priming entry and carries the system prompt exactly once, in the place its backend expects; the backup files are written. Otherwise nothing changes. The history invariant is kept |
| Interview.Session.StoreFinal | interview.py:179-189 | The final save loop ends after writing the canonical files once; they match one attempt of the final-save function; the respondent counts as completed in both directories |
| Interview.Session.SubmitTurn | interview.py:124-189 | Without an active session and input, nothing changes. Otherwise the input is recorded and the request carries it, with the system prompt exactly once: as the `system` key for Anthropic, at most as the first message for OpenAI. A reply without a code is recorded and backed up, and the session stays active. A reply with a code is recorded with its closing message, the session ends, and the respondent counts as completed. The history invariant is kept |
| Interview.Session.Prelude | interview.py:58-76 | The respondent is turned away exactly as the completion check says. A quit click on a still-active session appends the quit message and saves to the canonical directories, marking a non-test respondent as completed; otherwise the files are unchanged. The chat shown is the replay of the resulting history |
| Interview.Session.Converse | interview.py:91-189 | The old history is kept as a prefix, and the session is never reactivated. A first visit without input yields the priming entry and the opening line and writes them to the backup files. On a non-empty history without an active turn, nothing changes. A turn on an ongoing active interview appends the input, the reply read and, after a code, the closing message, and the session ends exactly on a code. The files are then the backup save of the new history without a code, or the canonical save with one, after which the respondent counts as completed |
| Interview.Session.Rerun | interview.py:58-189 | One rerun of the page. It turns the respondent away exactly as the completion check says and shows the replay of the history after the quit step. It keeps the old history as a prefix and never reactivates the session. It states the history, the flag and the files in three cases. A first visit without input: the backend is still called and the backups written, even when the respondent is turned away. A non-empty history with no turn: a Quit click on an active interview appends the quit message and saves canonically, otherwise nothing changes. A turn of an ongoing interview |

## Left out

- Page rendering is not modelled: Streamlit widgets, the styling, the avatars and the streaming placeholder. The replay is the list of messages the page would show.
- The OpenAI and Anthropic clients are not modelled. A reply is the sequence of fragments the stream yields, given as a parameter. A reply that is not read further after a code is simply not consumed.
- `check_password`, the Google Drive upload (`upload_csv_to_drive`), directory creation and `time.sleep` are not part of this model.
- The clock is not modelled. The start time, its file-name stamp and the formatted duration are strings given as parameters. Each rerun reads the duration once, so every save in one rerun sees the same duration.
- I/O errors are not modelled: every write succeeds, so the `try`/`except` around the backup save has no effect in the model.
- `str.lower()` is modelled on ASCII letters only.
- `Interview.Session.SubmitTurn`, `Interview.Session.Converse` and `Interview.Session.Rerun` require that a code-ending turn is not made by the test account, and `Interview.Session.StoreFinal` requires a respondent other than the test account. In the source that final save never ends, because the loop never sees the file: see `Interview.FinalSaveNeverConfirmedForTestAccount`. The model proves that non-termination rather than running it. `Interview.Session.Rerun` asks this even when the session is already inactive and so takes no turn, which is slightly stronger than needed.
- `Interview.Session.Rerun` and `Interview.Session.Converse` state the resulting history and files for every rerun on a non-empty history and for a first visit without input. A first visit that already carries a Quit click or typed input is covered only by the prefix and activity clauses, because the page offers neither before its first run.
- The session takes its system prompt as a constructor argument. The page passes `SYSTEM_PROMPT`, and none of the session's steps depends on its text.
- The transcript round trip holds only for message contents without line breaks. The transcript format cannot tell a line break inside a message from a message boundary (`Utils.TranscriptAmbiguous`).
