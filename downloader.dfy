/** The download API (`YoutubeDLApi`): the start-request guard, the job the
    background thread runs (format choice, the command line for the
    download tool, the status messages), and the escaped status messages
    handed to the window. The subprocess is replaced by its observable
    behaviour (`ProcessRun`); the window by the list of scripts it was
    asked to evaluate; the thread by a job slot. */
module Downloader {
  import opened Wrappers
  import opened Text
  import opened YoutubeUrl
  import opened JsString

  // ----- Format selection and command line -----

  const BestFormat := "bestvideo[ext=mp4]+bestaudio[ext=m4a]/best[ext=mp4]/best"
  const WorstFormat := "worst[ext=mp4]/worst"
  const OutputTemplate := "%(title)s.%(ext)s"
  const ProgressTemplate := "%(progress._percent_str)s %(progress._speed_str)s"

  /** The `--format` expression for a quality setting. Only the exact string
      `"best"` selects the best streams; any other value selects the worst. */
  function FormatFor(quality: string): (f: string)
    ensures f == BestFormat <==> quality == "best"
    ensures f == WorstFormat <==> quality != "best"
  {
    if quality == "best" then BestFormat else WorstFormat
  }

  /** `os.path.join(dir, name)` on a POSIX system, for a relative `name`:
      a separator is inserted unless `dir` is empty or already ends in one. */
  function JoinPath(dir: string, name: string): (p: string)
    ensures p == dir + name || p == dir + "/" + name
    ensures p == dir + "/" + name <==> dir != [] && dir[|dir| - 1] != '/'
  {
    if dir == [] || dir[|dir| - 1] == '/' then dir + name else dir + "/" + name
  }

  /** The argument list given to the download tool. */
  function Command(url: string, quality: string, downloadPath: string): seq<string> {
    [ "yt-dlp",
      url,
      "--format", FormatFor(quality),
      "--output", JoinPath(downloadPath, OutputTemplate),
      "--progress-template", ProgressTemplate ]
  }

  /** `flag` does not occur at positions `lo` up to, not including, `hi`. */
  predicate FlagAbsent(args: seq<string>, flag: string, lo: int, hi: int) {
    forall j :: lo <= j < hi && 0 <= j < |args| ==> args[j] != flag
  }

  /** How a command-line reader sees an option: the token after the first
      occurrence of `flag` at or after position `from`, if there is one. */
  function OptionValue(args: seq<string>, flag: string, from: nat := 0): (v: Option<string>)
    ensures v.Some? ==>
      exists i :: from <= i < |args| - 1 && args[i] == flag && args[i + 1] == v.value && FlagAbsent(args, flag, from, i)
    ensures v.None? ==> FlagAbsent(args, flag, from, |args| - 1)
    decreases |args| - from
  {
    if from + 1 >= |args| then None
    else if args[from] == flag then Some(args[from + 1])
    else OptionValue(args, flag, from + 1)
  }

  /** The command starts the download tool on the URL, and each of its three
      options carries the value the job chose: the format for the quality,
      the output template under the download folder, and the progress
      template. The URL itself never reads as an option. */
  lemma CommandReadsBack(url: string, quality: string, downloadPath: string)
    requires Matches(url)
    ensures |Command(url, quality, downloadPath)| == 8
    ensures Command(url, quality, downloadPath)[0] == "yt-dlp"
    ensures Command(url, quality, downloadPath)[1] == url && url[0] != '-'
    ensures OptionValue(Command(url, quality, downloadPath), "--format") == Some(FormatFor(quality))
    ensures OptionValue(Command(url, quality, downloadPath), "--output") == Some(JoinPath(downloadPath, OutputTemplate))
    ensures OptionValue(Command(url, quality, downloadPath), "--progress-template") == Some(ProgressTemplate)
  {
    MatchedUrlStart(url);
    CommandOptions(url, quality, downloadPath);
  }

  /** The options of the command, for any URL that does not look like an
      option itself. */
  lemma CommandOptions(url: string, quality: string, downloadPath: string)
    requires url != [] && url[0] != '-'
    ensures OptionValue(Command(url, quality, downloadPath), "--format") == Some(FormatFor(quality))
    ensures OptionValue(Command(url, quality, downloadPath), "--output") == Some(JoinPath(downloadPath, OutputTemplate))
    ensures OptionValue(Command(url, quality, downloadPath), "--progress-template") == Some(ProgressTemplate)
  {
    var cmd := Command(url, quality, downloadPath);
    var f := FormatFor(quality);
    var out := JoinPath(downloadPath, OutputTemplate);
    assert url != "--format" && url != "--output" && url != "--progress-template" by {
      assert url[0] != '-';
    }
    assert f != "--output" && f != "--progress-template";
    assert out != "--progress-template" by {
      assert out[|out| - 1] == OutputTemplate[|OutputTemplate| - 1];
    }
    // `--format` is found after skipping one token, `--output` after
    // three and `--progress-template` after five.
    assert OptionValue(cmd, "--format") == OptionValue(cmd, "--format", 1) == Some(f);
    assert OptionValue(cmd, "--output") == OptionValue(cmd, "--output", 1)
        == OptionValue(cmd, "--output", 2) == OptionValue(cmd, "--output", 3) == Some(out);
    assert OptionValue(cmd, "--progress-template") == OptionValue(cmd, "--progress-template", 1)
        == OptionValue(cmd, "--progress-template", 2) == OptionValue(cmd, "--progress-template", 3)
        == OptionValue(cmd, "--progress-template", 4) == OptionValue(cmd, "--progress-template", 5)
        == Some(ProgressTemplate);
  }

  // ----- The subprocess and the status messages of a job -----

  /** How the subprocess ends: with an exit code, or with an exception
      (the tool could not be started, or reading its output failed). */
  datatype ProcessEnd = Exited(code: int) | Raised(error: string)

  /** What the job observes of the subprocess: the lines of its merged
      output, in order, and how it ended. */
  datatype ProcessRun = ProcessRun(lines: seq<string>, end: ProcessEnd)

  const CompletedMessage := "Download abgeschlossen"
  const ExitCodePrefix := "Fehler beim Download, Exit-Code: "
  const ErrorPrefix := "Fehler: "

  /** The last status message of a job. */
  function FinalMessage(end: ProcessEnd): string {
    match end
    case Exited(code) =>
      if code == 0 then CompletedMessage else ExitCodePrefix + IntToDecimal(code)
    case Raised(error) => ErrorPrefix + error
  }

  /** The output lines with surrounding whitespace (the line break included)
      removed, one message per line, in the same order. */
  function StrippedLines(lines: seq<string>): (r: seq<string>)
    ensures |r| == |lines|
  {
    if lines == [] then [] else StrippedLines(lines[..|lines| - 1]) + [Strip(lines[|lines| - 1])]
  }

  /** Message `i` is output line `i`, stripped. */
  lemma {:induction false} StrippedLinesAt(lines: seq<string>)
    ensures forall i :: 0 <= i < |lines| ==> StrippedLines(lines)[i] == Strip(lines[i])
  {
    if lines != [] {
      var init := lines[..|lines| - 1];
      StrippedLinesAt(init);
      assert forall i :: 0 <= i < |init| ==> init[i] == lines[i];
    }
  }

  lemma StrippedLinesSnoc(lines: seq<string>, i: nat)
    requires i < |lines|
    ensures StrippedLines(lines[..i + 1]) == StrippedLines(lines[..i]) + [Strip(lines[i])]
  {
    assert lines[..i + 1][..i] == lines[..i];
  }

  /** Every status message one job sends, in order. */
  function StatusMessages(run: ProcessRun): seq<string> {
    StrippedLines(run.lines) + [FinalMessage(run.end)]
  }

  /** A job sends one message per output line, each the stripped line, then
      exactly one closing message. The closing message is the completion
      message exactly when the tool exited with code 0; a non-zero exit code
      can be read back from the failure message. */
  lemma StatusMessagesShape(run: ProcessRun)
    ensures var ms := StatusMessages(run);
      |ms| == |run.lines| + 1
      && (forall i :: 0 <= i < |run.lines| ==> ms[i] == Strip(run.lines[i]))
      && ms[|run.lines|] == FinalMessage(run.end)
    ensures FinalMessage(run.end) == CompletedMessage <==> run.end == Exited(0)
    ensures run.end.Exited? && run.end.code != 0 ==>
      var m := FinalMessage(run.end);
      StartsWith(m, ExitCodePrefix) && IsDecimal(m[|ExitCodePrefix|..])
      && ParseInt(m[|ExitCodePrefix|..]) == run.end.code
  {
    StrippedLinesAt(run.lines);
    var m := FinalMessage(run.end);
    match run.end
    case Exited(code) =>
      if code != 0 {
        IntDecimalRoundTrip(code);
        assert m[|ExitCodePrefix|..] == IntToDecimal(code);
        assert m != CompletedMessage by {
          assert m[0] != CompletedMessage[0];
        }
      }
    case Raised(error) =>
      assert m != CompletedMessage by {
        assert m[0] != CompletedMessage[0];
      }
  }

  // ----- What the window is asked to evaluate -----

  /** `log_status` as written: only the single quotes of the message are
      escaped before it is placed in the single-quoted literal. */
  function StatusScriptAsWritten(message: string): string {
    "updateStatus('" + EscapeQuotes(message) + "')"
  }

  /** The JavaScript call that shows `message`, with the message escaped as
      a single-quoted literal requires (see `EscapeJs`). */
  function StatusScript(message: string): string {
    "updateStatus('" + EscapeJs(message) + "')"
  }

  /** The message the window shows for a script: the value of the literal
      after `updateStatus(`, provided the literal closes right before `)`. */
  function ScriptMessage(script: string): (m: Option<string>)
    ensures m.Some? ==> |script| >= 14 && script[..14] == "updateStatus('"
  {
    if |script| >= 14 && script[..14] == "updateStatus('" then
      var r := ReadLiteral(script[14..]);
      if r.Closed? && r.rest == ")" then Some(r.value) else None
    else None
  }

  /** Reading a status call comes down to reading the literal's body. */
  lemma ScriptMessageOfCall(e: string)
    ensures ScriptMessage("updateStatus('" + e + "')") ==
      var r := ReadLiteral(e + "')");
      if r.Closed? && r.rest == ")" then Some(r.value) else None
  {
    var s := "updateStatus('" + e + "')";
    assert s[..14] == "updateStatus('";
    assert s[14..] == e + "')";
  }

  /** The window shows exactly the message that was logged, whatever
      characters it contains. */
  lemma StatusScriptRoundTrip(message: string)
    ensures ScriptMessage(StatusScript(message)) == Some(message)
  {
    var s := StatusScript(message);
    assert s[14..] == EscapeJs(message) + "'" + ")";
    EscapeJsReadsBack(message, ")");
  }

  /** As written, a message ending in a backslash leaves the literal
      unterminated: the backslash escapes the closing quote. The corrected
      script shows the message. */
  lemma AsWrittenTrailingBackslash()
    ensures ScriptMessage(StatusScriptAsWritten("C:\\")) == None
    ensures ScriptMessage(StatusScript("C:\\")) == Some("C:\\")
  {
    StatusScriptRoundTrip("C:\\");
    var body := ['C', ':', '\\', '\'', ')'];
    assert ReadLiteral(body[4..]) == Broken by {
      assert ReadLiteral(body[4..][1..]) == Broken;
    }
    assert ReadLiteral(body[2..]) == Broken by {
      assert body[2..][2..] == body[4..];
    }
    assert ReadLiteral(body) == Broken by {
      assert body[1..][1..] == body[2..];
    }
    assert EscapeQuotes("C:\\") == "C:\\" by {
      EscapeQuotesFacts("C:\\");
    }
    assert StatusScriptAsWritten("C:\\")[14..] == body;
  }

  /** As written, a Windows path is misread: its `\n` is shown as a line
      break. The corrected script shows the path. */
  lemma AsWrittenWindowsPath()
    ensures ScriptMessage(StatusScriptAsWritten("C:\\new")) == Some("C:\new")
    ensures ScriptMessage(StatusScript("C:\\new")) == Some("C:\\new")
  {
    StatusScriptRoundTrip("C:\\new");
    NewLiteralRead();
    assert EscapeQuotes("C:\\new") == "C:\\new" by {
      EscapeQuotesFacts("C:\\new");
    }
    ScriptMessageOfCall("C:\\new");
  }

  /** The literal body `C:\new')` reads as `C:`, a line break and `ew`. */
  lemma NewLiteralRead()
    ensures ReadLiteral("C:\\new" + "')") == Closed("C:\new", ")")
  {
    var body := ['C', ':', '\\', 'n', 'e', 'w', '\'', ')'];
    assert ReadLiteral(body[6..]) == Closed([], ")");
    assert ReadLiteral(body[5..]) == Closed("w", ")");
    assert ReadLiteral(body[4..]) == Closed("ew", ")");
    assert ReadLiteral(body[2..]) == Closed("\new", ")") by {
      assert body[2..][2..] == body[4..];
    }
    assert ReadLiteral(body[1..]) == Closed(":\new", ")");
    assert ReadLiteral(body) == Closed("C:\new", ")");
    assert "C:\\new" + "')" == body;
  }

  /** As written, a backslash before a letter that starts no escape is
      dropped: `C:\Users` is shown as `C:Users`. */
  lemma AsWrittenDroppedBackslash()
    ensures ScriptMessage(StatusScriptAsWritten("C:\\Users")) == Some("C:Users")
  {
    UsersLiteralRead();
    assert EscapeQuotes("C:\\Users") == "C:\\Users" by {
      EscapeQuotesFacts("C:\\Users");
    }
    ScriptMessageOfCall("C:\\Users");
  }

  /** The literal body `C:\Users')` reads as `C:Users`, closing before `)`. */
  lemma UsersLiteralRead()
    ensures ReadLiteral("C:\\Users" + "')") == Closed("C:Users", ")")
  {
    var tail := "sers')";
    SersLiteralRead();
    ReadNonEscape('U', tail);
    ReadPlainChar(':', ['\\', 'U'] + tail);
    ReadPlainChar('C', [':'] + (['\\', 'U'] + tail));
    UsersSplit();
  }

  /** The tail `sers')` reads as `sers`. */
  lemma SersLiteralRead()
    ensures ReadLiteral("sers')") == Closed("sers", ")")
  {
    EscapeJsReadsBack("sers", ")");
    assert EscapeJs("sers") == "sers";
  }

  /** How `C:\Users')` and `C:Users` are put together from their parts. */
  lemma UsersSplit()
    ensures "C:\\Users" + "')" == ['C'] + ([':'] + (['\\', 'U'] + "sers')"))
    ensures ['C'] + ([':'] + (['U'] + "sers")) == "C:Users"
  {
  }

  /** As written, a backslash before `u` starts a Unicode escape, which the
      reader leaves uninterpreted: no message is read for `C:\users`. */
  lemma AsWrittenUnicodeEscape()
    ensures ScriptMessage(StatusScriptAsWritten("C:\\users")) == None
  {
    var lower := ['C', ':', '\\', 'u', 's', 'e', 'r', 's', '\'', ')'];
    assert ReadLiteral(lower[2..]) == Unsupported;
    assert ReadLiteral(lower[1..]) == Unsupported;
    assert ReadLiteral(lower) == Unsupported;
    assert EscapeQuotes("C:\\users") == "C:\\users" by {
      EscapeQuotesFacts("C:\\users");
    }
    assert "C:\\users" + "')" == lower;
    ScriptMessageOfCall("C:\\users");
  }

  /** A message with no backslash and no line break: the two escapings
      agree on it. */
  predicate IsPlain(m: string) {
    forall i :: 0 <= i < |m| ==> m[i] != '\\' && !IsLineBreak(m[i])
  }

  lemma {:induction false} EscapeAgree(m: string)
    requires IsPlain(m)
    ensures EscapeQuotes(m) == EscapeJs(m)
  {
    if m != [] {
      assert IsPlain(m[1..]) by {
        forall i | 0 <= i < |m[1..]| ensures m[1..][i] != '\\' && !IsLineBreak(m[1..][i]) {
          assert m[1..][i] == m[i + 1];
        }
      }
      EscapeAgree(m[1..]);
      assert m[0] != '\\' && !IsLineBreak(m[0]);
    }
  }

  /** What the source does deliver: a message without backslashes and line
      breaks is shown exactly as logged. */
  lemma AsWrittenShowsPlain(m: string)
    requires IsPlain(m)
    ensures ScriptMessage(StatusScriptAsWritten(m)) == Some(m)
  {
    EscapeAgree(m);
    StatusScriptRoundTrip(m);
  }

  /** The scripts `log_status` sends for a sequence of messages, in order. */
  function StatusScripts(ms: seq<string>): (r: seq<string>)
    ensures |r| == |ms|
  {
    if ms == [] then [] else StatusScripts(ms[..|ms| - 1]) + [StatusScriptAsWritten(ms[|ms| - 1])]
  }

  /** Script `i` is the call `log_status` builds for message `i`. */
  lemma {:induction false} StatusScriptsAt(ms: seq<string>)
    ensures forall i :: 0 <= i < |ms| ==> StatusScripts(ms)[i] == StatusScriptAsWritten(ms[i])
  {
    if ms != [] {
      var init := ms[..|ms| - 1];
      StatusScriptsAt(init);
      assert forall i :: 0 <= i < |init| ==> init[i] == ms[i];
    }
  }

  /** Every message of a sequence that is plain is shown as logged by its
      script, so a job none of whose messages holds a backslash or line
      break is reported intact. */
  lemma PlainMessagesShown(ms: seq<string>)
    ensures forall i :: 0 <= i < |ms| && IsPlain(ms[i]) ==> ScriptMessage(StatusScripts(ms)[i]) == Some(ms[i])
  {
    StatusScriptsAt(ms);
    forall i | 0 <= i < |ms| && IsPlain(ms[i]) ensures ScriptMessage(StatusScripts(ms)[i]) == Some(ms[i]) {
      AsWrittenShowsPlain(ms[i]);
    }
  }

  lemma StatusScriptsSnoc(ms: seq<string>, m: string)
    ensures StatusScripts(ms + [m]) == StatusScripts(ms) + [StatusScriptAsWritten(m)]
  {
    assert (ms + [m])[..|ms|] == ms;
  }

  lemma AppendAssoc<T>(a: seq<T>, b: seq<T>, c: seq<T>)
    ensures (a + b) + c == a + (b + c)
  {
  }

  // ----- The start-request guard -----

  /** The four answers of `download_video`, in the order it checks them. */
  datatype Admission = NoUrl | InvalidUrl | AlreadyRunning | Started

  datatype Status = Success | Error

  /** The dictionary `download_video` returns. */
  datatype Response = Response(status: Status, message: string)

  function ResponseFor(a: Admission): Response {
    match a
    case NoUrl => Response(Error, "Bitte geben Sie eine URL ein")
    case InvalidUrl => Response(Error, "Ungültige YouTube-URL")
    case AlreadyRunning => Response(Error, "Es läuft bereits ein Download")
    case Started => Response(Success, "Download gestartet")
  }

  /** The decision of `download_video`: a blank URL is refused first, then a
      URL the pattern does not match (the untrimmed URL is checked), then
      any request while a job is alive; only the rest start a job. */
  function Admit(url: string, busy: bool): (a: Admission)
    ensures a == NoUrl <==> IsBlank(url)
    ensures a == InvalidUrl <==> !IsBlank(url) && !Matches(url)
    ensures a == AlreadyRunning <==> !IsBlank(url) && Matches(url) && busy
    ensures a == Started <==> !IsBlank(url) && Matches(url) && !busy
  {
    StripEmptyIffBlank(url);
    ValidatorCorrect(url);
    if url == [] || Strip(url) == [] then NoUrl
    else if !IsValidYoutubeUrl(url) then InvalidUrl
    else if busy then AlreadyRunning
    else Started
  }

  /** The URL is checked as given: one that starts with whitespace is never
      accepted, even when its stripped form would be. */
  lemma LeadingSpaceNeverStarts(url: string, busy: bool)
    requires url != [] && IsSpace(url[0])
    ensures Admit(url, busy) == NoUrl || Admit(url, busy) == InvalidUrl
  {
    if Matches(url) { MatchedUrlStart(url); }
  }

  /** One accepted request: what the thread was started with. */
  datatype Job = Job(url: string, quality: string)

  /** `self.download_thread`: no thread yet, or the last thread started,
      which stays in the slot after it has finished. */
  datatype JobSlot = NoThread | Thread(job: Job, alive: bool)

  class YoutubeDLApi {
    /** The folder downloads are written to, fixed at construction. */
    const downloadPath: string
    var slot: JobSlot
    /** Every script the window has been asked to evaluate, oldest first. */
    var scripts: seq<string>

    /** A job is only ever started for a URL the validator accepted. */
    predicate Valid()
      reads this
    {
      slot.Thread? ==> IsValidYoutubeUrl(slot.job.url)
    }

    constructor (downloadPath: string)
      ensures this.downloadPath == downloadPath && slot == NoThread && scripts == []
      ensures Valid()
    {
      this.downloadPath := downloadPath;
      slot := NoThread;
      scripts := [];
    }

    /** `self.download_thread and self.download_thread.is_alive()`. */
    predicate Busy()
      reads this
    {
      slot.Thread? && slot.alive
    }

    /** `download_video`: answers the request and, only when it is accepted,
      puts a new live job in the slot. A refused request changes nothing. */
    method DownloadVideo(url: string, quality: string) returns (r: Response)
      requires Valid()
      modifies this
      ensures Valid()
      ensures r == ResponseFor(Admit(url, old(Busy())))
      ensures slot == if Admit(url, old(Busy())) == Started then Thread(Job(url, quality), true) else old(slot)
      ensures scripts == old(scripts)
    {
      if url == [] || Strip(url) == [] {
        return Response(Error, "Bitte geben Sie eine URL ein");
      }
      if !IsValidYoutubeUrl(url) {
        return Response(Error, "Ungültige YouTube-URL");
      }
      if slot.Thread? && slot.alive {
        return Response(Error, "Es läuft bereits ein Download");
      }
      slot := Thread(Job(url, quality), true);
      return Response(Success, "Download gestartet");
    }

    /** `log_status`: one more script for the window, built as the source
      builds it (only quotes escaped). */
    method LogStatus(message: string)
      modifies this
      ensures scripts == old(scripts) + [StatusScriptAsWritten(message)]
      ensures slot == old(slot)
    {
      scripts := scripts + [StatusScriptAsWritten(message)];
    }

    /** `_execute_download`: chooses the format, builds the command it
      launches (returned), then reports each output line as it arrives and
      finally how the process ended. */
    method ExecuteDownload(url: string, quality: string, run: ProcessRun) returns (cmd: seq<string>)
      modifies this
      ensures cmd == Command(url, quality, downloadPath)
      ensures scripts == old(scripts) + StatusScripts(StatusMessages(run))
      ensures slot == old(slot)
    {
      var formatOpt := if quality == "best" then BestFormat else WorstFormat;
      cmd := [ "yt-dlp", url, "--format", formatOpt,
               "--output", JoinPath(downloadPath, OutputTemplate),
               "--progress-template", ProgressTemplate ];
      var lines := run.lines;
      var i := 0;
      while i < |lines|
        invariant 0 <= i <= |lines|
        invariant scripts == old(scripts) + StatusScripts(StrippedLines(lines[..i]))
        invariant slot == old(slot)
      {
        LogStatus(Strip(lines[i]));
        StrippedLinesSnoc(lines, i);
        StatusScriptsSnoc(StrippedLines(lines[..i]), Strip(lines[i]));
        AppendAssoc(old(scripts), StatusScripts(StrippedLines(lines[..i])), [StatusScriptAsWritten(Strip(lines[i]))]);
        i := i + 1;
      }
      assert lines[..i] == lines;
      var last;
      match run.end {
        case Exited(code) =>
          last := if code == 0 then CompletedMessage else ExitCodePrefix + IntToDecimal(code);
        case Raised(error) =>
          last := ErrorPrefix + error;
      }
      assert last == FinalMessage(run.end);
      LogStatus(last);
      ghost var shown, final := StatusScripts(StrippedLines(lines)), StatusScriptAsWritten(last);
      assert StatusMessages(run) == StrippedLines(lines) + [last];
      StatusScriptsSnoc(StrippedLines(lines), last);
      AppendAssoc(old(scripts), shown, [final]);
    }

    /** The life of the background thread started by an accepted request: it
      runs the job on the slot's URL and quality to its end, and then the
      thread is no longer alive, so a new request can be accepted. */
    method FinishJob(run: ProcessRun) returns (cmd: seq<string>)
      requires Valid() && Busy()
      modifies this
      ensures Valid()
      ensures cmd == Command(old(slot).job.url, old(slot).job.quality, downloadPath)
      ensures cmd[1] == old(slot).job.url && Matches(cmd[1]) && cmd[1][0] != '-'
      ensures OptionValue(cmd, "--format") == Some(FormatFor(old(slot).job.quality))
      ensures scripts == old(scripts) + StatusScripts(StatusMessages(run))
      ensures slot == Thread(old(slot).job, false) && !Busy()
    {
      var job := slot.job;
      cmd := ExecuteDownload(job.url, job.quality, run);
      ValidatorSound(job.url);
      CommandReadsBack(job.url, job.quality, downloadPath);
      slot := Thread(job, false);
    }
  }

  /** A request that is not a link is answered with an error and starts
      nothing. */
  method RejectedRequestSession() {
    var api := new YoutubeDLApi("/home/user/Downloads/YT-Videos");
    NonLinksDoNotMatch();
    var r := api.DownloadVideo("not a url", "best");
    assert r == Response(Error, "Ungültige YouTube-URL") && api.slot == NoThread;
    r := api.DownloadVideo("   ", "best");
    assert r == Response(Error, "Bitte geben Sie eine URL ein") && api.slot == NoThread;
  }

  /** An accepted request and a second one refused while the job runs; the
      refused request leaves the running job in place. */
  method BusySession() {
    var api := new YoutubeDLApi("/home/user/Downloads/YT-Videos");
    var id := "dQw4w9WgXcQ";
    var url := "youtu.be/" + id;
    ShortLinksMatch(id);
    assert !IsBlank(url) by { assert url[0] == 'y'; }
    var r := api.DownloadVideo(url, "best");
    assert r == Response(Success, "Download gestartet") && api.Busy();
    r := api.DownloadVideo(url, "worst");
    assert r == Response(Error, "Es läuft bereits ein Download");
    assert api.slot == Thread(Job(url, "best"), true);
  }

  /** A job ending after two output lines with exit code 0: three messages
      are shown and the slot is free again. */
  method TwoLineSession(api: YoutubeDLApi, first: string, second: string)
    requires api.Valid() && api.Busy() && api.scripts == []
    modifies api
  {
    var run := ProcessRun([first, second], Exited(0));
    var cmd := api.FinishJob(run);
    assert StatusMessages(run) == StrippedLines([first, second]) + [CompletedMessage];
    assert |api.scripts| == 3 && !api.Busy();
  }

  /** Once the previous job has finished, a new request is accepted again. */
  method RestartSession(api: YoutubeDLApi)
    requires api.Valid() && api.slot.Thread? && !api.slot.alive
    modifies api
  {
    var id := "dQw4w9WgXcQ";
    var url := "youtu.be/" + id;
    ShortLinksMatch(id);
    assert !IsBlank(url) by { assert url[0] == 'y'; }
    var r := api.DownloadVideo(url, "worst");
    assert r.status == Success && api.slot == Thread(Job(url, "worst"), true);
  }
}
