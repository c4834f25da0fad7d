# YoutubeDLApi — a verified model of the download API

The program is a small desktop front end for the `yt-dlp` command-line
downloader. An HTML page in a webview window calls the Python object
`YoutubeDLApi`. `download_video` vets a YouTube URL, refuses the request
while a download is still running, and otherwise starts a background thread
that runs `yt-dlp`. The thread streams the tool's output back to the page,
line by line, as calls to the JavaScript function `updateStatus`.

The model is split into five modules:

- `Text` (`text.dfy`) covers the pieces of the Python runtime the API relies
  on: `str.isspace` with Python's exact set of whitespace code points,
  `str.strip()`, the quote escaping done in `log_status`, and the decimal
  rendering of an integer inside an f-string.
- `Wrappers` (`wrappers.dfy`) holds the `Option` type.
- `JsString` (`js_string.dfy`) describes how the window's JavaScript engine
  reads a single-quoted string literal (section 12.9.4, String Literals, of
  ECMAScript 2024). It also holds the escaping `EscapeJs`, under which every
  message reads back intact.
- `YoutubeUrl` (`youtube_url.dfy`) covers the URL check.
  - `Matches` states declaratively which strings `re.match` accepts for the
    pattern: those with some prefix that splits into the pattern's groups.
  - `IsValidYoutubeUrl` decides the same question with a left-to-right scan
    that backtracks over the `.+\?v=` alternative.
  - `ValidatorCorrect` proves that the two agree.
- `Downloader` (`downloader.dfy`) covers the rest:
  - the format choice, the argument list given to `yt-dlp`, and the sequence
    of status messages a job sends;
  - the class `YoutubeDLApi`, whose fields are the download folder, the job
    slot (`self.download_thread`) and the scripts the window has been asked
    to evaluate. Its invariant `Valid` says that a job is only ever stored
    for a URL the validator accepted.
  - `DownloadVideo` makes the four checks in the source's order.
  - `ExecuteDownload` is the streaming loop: one status per stripped output
    line, then one closing message.
  - `FinishJob` is the whole life of the background thread.

The subprocess is replaced by `ProcessRun`, which is what the job observes
of it: the lines of its merged output, and whether it ended with an exit code
or with an exception.

The class records each status script exactly as `log_status` builds it,
with only single quotes escaped. That escaping shows every message without
backslashes and line breaks intact, but loses others. A corrected escaping is
modelled beside it; see "## Findings".

The source's command list has eight tokens: the program name, the URL, and
three option/value pairs. The model follows the code.

## Model

| member | source | states |
|---|---|---|
| YoutubeUrl.Matches | main.py:44-50 | the pattern's language under `re.match`: some prefix splits into the six groups; its properties are stated by `ValidatorCorrect`, `MatchesPrefixClosed` and `MatchedUrlStart` |
| YoutubeUrl.IsValidYoutubeUrl | main.py:42-50 | `_is_valid_youtube_url` as a left-to-right scan; `ValidatorCorrect` proves that it accepts exactly the strings `Matches` describes |
| YoutubeUrl.ValidatorCorrect | main.py:42-50 | the scan accepts a URL exactly when some prefix of it splits into the pattern's groups (optional `http://`/`https://`, optional `www.`, one of the three host names, `.com` or `.be`, `/`, the optional path alternatives, then 11 characters other than `& = % ?`) |
| YoutubeUrl.ValidatorSound | main.py:44-50 | every URL the scan accepts has such a split |
| YoutubeUrl.ValidatorComplete | main.py:44-50 | every URL with such a split is accepted by the scan, including the backtracking `.+\?v=` case, where the dot cannot cross a line feed |
| YoutubeUrl.MatchesPrefixClosed | main.py:49-50 | the match is anchored only at the start: appending any text to a matching URL keeps it matching |
| YoutubeUrl.ValidatorPrefixClosed | main.py:49-50 | the same for the scan the API runs |
| YoutubeUrl.MatchedUrlStart | main.py:44-47 | an accepted URL is non-empty and begins with `h`, `w` or `y`, so it never begins with whitespace or `-` |
| YoutubeUrl.ShortLinksMatch | main.py:44-50 | for every 11-character identifier without `& = % ?`, `youtu.be/<id>` is accepted with and without `https://` |
| YoutubeUrl.NonLinksDoNotMatch | main.py:49-50 | the two strings `not a url` and ` https://youtu.be/dQw4w9WgXcQ` (a link behind a space) are refused; the general fact is `MatchedUrlStart` |
| Text.IsSpace | main.py:22 | Python's `str.isspace()` for one character, over its exact code-point set; it decides `strip()` in `StripIsSlice` and `StripEmptyIffBlank` |
| Text.Strip | main.py:22 | Python's `str.strip()`; its meaning is stated by `StripIsSlice`, `StripEmptyIffBlank` and `StripIdempotent` |
| Text.StripIsSlice | main.py:22 | `strip()` returns a contiguous slice with blank margins that neither starts nor ends with whitespace |
| Text.StripEmptyIffBlank | main.py:22 | `not s.strip()` holds exactly when every character of `s` is whitespace (the empty string included) |
| Text.StripIdempotent | main.py:79 | stripping a stripped line changes nothing |
| Text.EscapeQuotes | main.py:96 | the `replace` in `log_status` as written; stated by `EscapeQuotesFacts` and `EscapeRoundTrip`, and shown to lose messages by `Downloader.AsWrittenTrailingBackslash` and `Downloader.AsWrittenWindowsPath` |
| Text.EscapeQuotesFacts | main.py:96 | a message without `'` is passed unchanged, and every `'` in the escaped text follows a backslash |
| Text.EscapeRoundTrip | main.py:96 | the escaping loses nothing: reading each `\'` back as `'` gives the original message |
| Text.IntToDecimal | main.py:87 | `{process.returncode}` in the f-string: a minus sign before the digits of a negative code; stated by `IntDecimalRoundTrip` |
| Text.NatToDecimal | main.py:87 | the rendering of a natural number is one or more digits, with no leading zero unless the number is 0 |
| Text.IntDecimalRoundTrip | main.py:87 | the f-string rendering of the exit code is a well-formed optionally signed decimal that parses back to the code |
| Downloader.FormatFor | main.py:56 | the best-quality format is chosen exactly when quality is the string `"best"`; every other value gets the worst-quality format |
| Downloader.JoinPath | main.py:63 | the output path is the folder and the template, with a `/` between them exactly when the folder is non-empty and does not already end in `/` |
| Downloader.Command | main.py:59-65 | the argument list; what a reader of it finds is stated by `CommandReadsBack` |
| Downloader.CommandReadsBack | main.py:59-65 | for an accepted URL, the command has 8 tokens and starts with `yt-dlp` and the URL, which cannot be read as an option; `--format`, `--output` and `--progress-template` each read back the chosen format, the joined output path and the progress template |
| Downloader.CommandOptions | main.py:59-65 | the three options read back their values for every URL that does not start with `-` |
| Downloader.StrippedLinesAt | main.py:78-79 | status message `i` of the stream is output line `i`, stripped |
| Downloader.FinalMessage | main.py:84-90 | the closing message of a job; stated by `StatusMessagesShape` |
| Downloader.StatusMessages | main.py:78-90 | the messages of a job in order; stated by `StatusMessagesShape` and `StrippedLinesAt` |
| Downloader.StatusMessagesShape | main.py:78-90 | a job sends one message per output line and then exactly one closing message; the closing message is the completion message exactly when the exit code is 0, and a non-zero exit code can be parsed back from the failure message |
| Downloader.StatusScriptAsWritten | main.py:95-96 | the `updateStatus('…')` call exactly as `log_status` builds it; shown to lose messages by `AsWrittenTrailingBackslash` and `AsWrittenWindowsPath` |
| Downloader.ScriptMessage | main.py:95-96 | the message the window shows for a script: the value of the literal after `updateStatus(`, present only when the script starts with `updateStatus('` and the literal closes right before `)` |
| Downloader.StatusScript | main.py:95-96 | the `updateStatus('…')` call with the corrected escaping; stated by `StatusScriptRoundTrip` |
| Downloader.StatusScriptRoundTrip | main.py:95-96 | for every message, the JavaScript literal in the script closes right before `)`, and its value is the message |
| JsString.EscapeJsReadsBack | main.py:96 | for every message, the corrected escaping followed by a quote reads as a literal whose value is the message and which ends at that quote |
| Downloader.AsWrittenTrailingBackslash | main.py:96 | with the escaping as written, the message `C:\` leaves the literal unterminated, while the corrected script shows it |
| Downloader.AsWrittenWindowsPath | main.py:96 | with the escaping as written, the message `C:\new` is shown with a line break in place of `\n`, while the corrected script shows it as it is |
| Downloader.AsWrittenDroppedBackslash | main.py:96 | as written, the message `C:\Users` is shown as `C:Users`: `\U` starts no escape, so its backslash is dropped |
| Downloader.AsWrittenUnicodeEscape | main.py:96 | as written, the message `C:\users` yields a literal starting the Unicode escape `\u`, which the reader does not interpret, so no message is read |
| Downloader.StatusScriptsAt | main.py:95-96 | script `i` is the call `log_status` builds for message `i` |
| Downloader.EscapeAgree | main.py:96 | on every message without backslashes and line breaks, the escaping as written equals the corrected one |
| Downloader.AsWrittenShowsPlain | main.py:95-96 | as written, every message without backslashes and line breaks is shown exactly as logged |
| Downloader.PlainMessagesShown | main.py:78-96 | each message of a job that has no backslash or line break is shown as logged by the script the job sends for it |
| Downloader.ResponseFor | main.py:23-40 | the four dictionaries `download_video` returns, with their German messages; `DownloadVideo`'s contract answers a request with `ResponseFor(Admit(…))` |
| Downloader.Admit | main.py:22-30 | the decision, stated as four if-and-only-ifs: blank URL → "no URL"; otherwise not matching → "invalid"; otherwise a live job → "already running"; otherwise started |
| Downloader.LeadingSpaceNeverStarts | main.py:22-26 | the untrimmed URL is validated, so a URL that starts with whitespace never starts a download |
| Downloader.YoutubeDLApi.Busy | main.py:29 | a thread is in the slot and still alive; used by the contracts of `DownloadVideo` and `FinishJob` |
| Downloader.YoutubeDLApi.Valid | main.py:25-36 | the class invariant: a job in the slot always has a URL the validator accepted, because `download_video` only starts a thread after the check; the constructor, `DownloadVideo` and `FinishJob` keep it |
| Downloader.YoutubeDLApi.constructor | main.py:12-16 | a new API has no thread, has sent no status, keeps the given download folder, and satisfies `Valid` |
| Downloader.YoutubeDLApi.DownloadVideo | main.py:18-40 | the response is the one `Admit` gives for the URL and the state before the call; only an accepted request puts a new live job (URL and quality) in the slot; refused requests change nothing, nothing is sent to the window, and `Valid` is kept |
| Downloader.YoutubeDLApi.LogStatus | main.py:92-97 | exactly one script, the `updateStatus` call as the source builds it (only quotes escaped), is appended; the slot is unchanged |
| Downloader.YoutubeDLApi.ExecuteDownload | main.py:52-90 | the command launched is `Command(url, quality, folder)`; the scripts appended are those `log_status` builds for `StatusMessages(run)`, in order; the slot is untouched |
| Downloader.YoutubeDLApi.FinishJob | main.py:33-38 | the running thread executes the job it was started with and appends the status scripts `log_status` builds for it. The command's URL is the job's URL, which matches the pattern and does not start with `-`, and `--format` reads back the chosen format. The thread is then no longer alive, so the API is no longer busy, and `Valid` is kept |

## Left out

- The webview window, the HTML page and the start-up code are not modelled. `log_status`'s `if webview.windows` guard is left out too: the model assumes the window exists, and each status becomes one element of `scripts`. The model takes `evaluate_js` never to raise. If the webview library reported a JavaScript syntax error as an exception, which could happen for a broken as-written literal such as `updateStatus('C:\')`, the `except` at main.py:89-90 would catch it, and reporting would end after one `Fehler: …` message.
- Threads and concurrency are not modelled. The background thread is a job slot, and `FinishJob` runs the thread's whole life in one step. Two start requests racing between the busy check and the thread start cannot be expressed.
- `subprocess.Popen`, reading its output, and `wait` are I/O. They are replaced by `ProcessRun`: the output lines as the job receives them, plus the exit code or the exception text. The text-mode splitting of the tool's output into lines is not modelled.
- `str(e)` of an exception is opaque. It is the `error` string of `Raised`.
- `Path.home()` and `os.makedirs` are file-system effects. The download folder is a constructor parameter, and creating it is not modelled.
- `os.path.join` is modelled as on POSIX systems. The Windows separator rules are not modelled.
- `open_download_folder` only hands the folder to an operating-system command (`os.startfile`, `open` or `xdg-open`), so it has no logic to model.
- The default `quality="best"` is not a separate entry point. Callers pass the quality explicitly.
- `download_video` is only ever given strings. A `None` URL, which `not youtube_url` also rejects, is not modelled.
- main.py:96 puts backslashes inside an f-string replacement field, which Python accepts only from version 3.12 on (PEP 701). The model assumes Python 3.12 or later; on earlier versions the module does not compile.
- JsString.ReadLiteral: numeric (`\0`, legacy octal), hexadecimal and Unicode escapes and line continuations are reported as not interpreted rather than read. The corrected escaping never produces them. A script the source sends with such an escape gives no message: examples are a message holding `C:\users` (the escape `\u`, see `AsWrittenUnicodeEscape`) or `C:\2024` (a digit escape). A message holding `C:\Users` is not such a case. `\U` is not an escape start, so it reads as `U` and the message is shown as `C:Users` (`AsWrittenDroppedBackslash`).

## Findings

| source | as written | input that shows it | evidently intended | confidence | as-written member | corrected member |
|---|---|---|---|---|---|---|
| main.py:96 | only `'` is escaped before the message is placed in the single-quoted JavaScript literal; backslashes and line breaks are left as they are | a status line ending in a backslash, `C:\`, gives `updateStatus('C:\')`, whose literal never closes; a Windows path `C:\new` is shown as `C:`, a line break, `ew` | the window shows every message exactly as logged | not executed; follows from the ECMAScript string-literal grammar | Downloader.AsWrittenTrailingBackslash | Downloader.StatusScriptRoundTrip |
