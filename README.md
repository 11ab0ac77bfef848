# Spyder terminal session bridge, modelled in Dafny

This project models the control core of the Spyder terminal plugin's widget
(`spyder_terminal/widgets/terminalgui.py`). That core is the bridge between
the host window and the web page that renders the terminal. It covers:

- **Command dispatch.** Every control operation of `TerminalWidget` (`set_dir`,
  `set_font`, `get_fonts`, `search_next`, `search_previous`, `exec_cmd`,
  `is_alive`, `set_option`) builds one JavaScript call as text.
  `TermView.eval_javascript` puts the namespace `spyder_terminal.default.`
  in front of it and runs it in the page. `TermView.scripts` models the page
  as the log of every script it was given. Each wrapper is proved to append
  exactly its one script and to change nothing else.
- **The script text.** `Commands.Script` gives the text of each call, argument
  inserted verbatim between double quotes. `Commands.Decode` reads a script
  back the way JavaScript reads a string literal. Any command whose arguments
  hold no double quote, no backslash and no line break decodes back to itself. Without
  escaping, other arguments can make two commands send the same text, and
  one lemma exhibits this.
- **Settings sync (`apply_settings`).** `sound` turns into a `bellStyle`
  command, and `cursor_type` into a `cursorStyle` command through the table
  0 = block, 1 = underline, 2 = bar. Every other option is ignored.
- **The keyboard intercept (`TermView.event`).** The modifier offsets are added
  to the key code, and the portable text of the chord decides the outcome:
  release to the host, copy, paste, or swallow.
- **The liveness poll (`__alive_loopback`).** Runs only without a web channel.
  It polls `isAlive()`, and closes and stops on a falsy answer; otherwise it
  schedules the next poll.
- **Ready-time setup (`setup_term`).** Sends the font, then the working
  directory, then the settings built from the configured options.

Three behaviours of the code are easy to miss; the model follows the code:

- Arguments are not escaped.
- `apply_settings` always sends the bell style before the cursor style.
- `is_alive` does not return the page's answer. See "Findings".

External inputs are parameters:

- the portable text of a key value (`QKeySequence.toString`) is `portableText`;
- the configured option names and `get_option` are `names` and `getOption`;
- the page's answers to the liveness poll are `replies`.

## Model

| member | source | states |
|---|---|---|
| `Commands.Script` | spyder_terminal/widgets/terminalgui.py:105-145 | the script text of each command, spelled as the wrapper's format string spells it, argument inserted verbatim (definition) |
| `Commands.Dispatch` | spyder_terminal/widgets/terminalgui.py:222 | the text the page receives: `PREFIX` followed by the script (definition) |
| `Values.Truthy` | spyder_terminal/widgets/terminalgui.py:132 | Python truthiness of `None`, booleans, integers and strings, as `if not alive` and `if options['sound']` test it (definition) |
| `Values.Str` | spyder_terminal/widgets/terminalgui.py:112 | `str()` of the font: the font's text, or `None` for a missing font (definition) |
| `Settings.SettingsCommands` | spyder_terminal/widgets/terminalgui.py:147-157 | the `setOption` commands `apply_settings` sends for an option map, bell style first (definition) |
| `Settings.CursorKey` | spyder_terminal/widgets/terminalgui.py:155-157 | the entry of `cursor_choices` a value looks up: an integer as itself, `True`/`False` as 1/0, anything else none (definition) |
| `Settings.CursorChoice` | spyder_terminal/widgets/terminalgui.py:156 | the table `{0: "block", 1: "underline", 2: "bar"}` (definition) |
| `Settings.CursorStyle` | spyder_terminal/widgets/terminalgui.py:155-157 | the cursor style of a `cursor_type` value, absent exactly where the lookup raises `KeyError` (definition) |
| `Settings.Applicable` | spyder_terminal/widgets/terminalgui.py:154-157 | the option maps for which `apply_settings` raises no `KeyError` (definition) |
| `Keys.ChordValue` | spyder_terminal/widgets/terminalgui.py:244-251 | the key code plus the Qt offset of each modifier whose flag is set (definition) |
| `Keys.Classify` | spyder_terminal/widgets/terminalgui.py:255-263 | the branch of `event` a portable text takes: release, copy, paste or swallow (definition) |
| `Liveness.Trace` | spyder_terminal/widgets/terminalgui.py:130-135 | the polls and the close of a run answered by the given replies (definition) |
| `Liveness.Closes` | spyder_terminal/widgets/terminalgui.py:130-135 | a run emits `terminal_closed` exactly when some reply is false (definition) |
| `TerminalGui.TermUrl` | spyder_terminal/widgets/terminalgui.py:69 | the address the widget loads, `http://127.0.0.1:<port>?path=<path>` (definition) |
| `TerminalGui.OptionsOf` | spyder_terminal/widgets/terminalgui.py:95-98 | the option map `setup_term` hands to `apply_settings`: each configured name with its value (definition) |
| `Commands.UnprefixDispatch` | spyder_terminal/widgets/terminalgui.py:33 | a dispatched text starts with the namespace `spyder_terminal.default.`, and stripping it gives back exactly the script |
| `Commands.ScriptSplits` | spyder_terminal/widgets/terminalgui.py:105-145 | every script is the command's name followed by its argument list |
| `Commands.DecodeScript` | spyder_terminal/widgets/terminalgui.py:105-145 | a command whose string arguments hold no `"`, `\` or line break is read back from its script as that same command |
| `Commands.DispatchInjective` | spyder_terminal/widgets/terminalgui.py:101-145 | two such commands that send the same text are the same command |
| `Commands.UnescapedQuotesCollide` | spyder_terminal/widgets/terminalgui.py:142-145 | with nothing escaped, `setOption` of name `a`, value `b", "c` and of name `a", "b`, value `c` send the same text |
| `Commands.DispatchAll` | spyder_terminal/widgets/terminalgui.py:147-157 | a sequence of commands is sent as one dispatched script per command, in order |
| `Decimal.NatString` | spyder_terminal/widgets/terminalgui.py:233-236 | a natural number is rendered as a non-empty run of digits without a leading zero |
| `Decimal.IntString` | spyder_terminal/widgets/terminalgui.py:233-236 | the text starts with a minus sign exactly when the number is negative |
| `Decimal.NatStringValue` | spyder_terminal/widgets/terminalgui.py:233-236 | the digits of a natural number denote that number |
| `Decimal.IntStringRoundTrip` | spyder_terminal/widgets/terminalgui.py:233-236 | reading back the scroll delta's text gives the delta |
| `Decimal.IntStringInjective` | spyder_terminal/widgets/terminalgui.py:233-236 | distinct deltas send distinct `scrollTerm` texts |
| `TerminalGui.TermView.constructor` | spyder_terminal/widgets/terminalgui.py:163-181 | a new view records its URL (default `http://127.0.0.1:8070`), and the page has received no script and no page action |
| `TerminalGui.TermView.EvalJavascript` | spyder_terminal/widgets/terminalgui.py:218-227 | appends exactly `PREFIX + script` to the page's script log, and changes nothing else |
| `TerminalGui.TermView.Copy` | spyder_terminal/widgets/terminalgui.py:195-197 | triggers the page's copy action once |
| `TerminalGui.TermView.Paste` | spyder_terminal/widgets/terminalgui.py:199-201 | triggers the page's paste action once |
| `TerminalGui.TermView.WheelEvent` | spyder_terminal/widgets/terminalgui.py:233-236 | appends `scrollTerm(<delta>)` with the delta as a bare decimal number |
| `TerminalGui.TermView.Event` | spyder_terminal/widgets/terminalgui.py:238-265 | for a shortcut override: `Ctrl+Alt+Shift+T` is released (returns false) with no copy or paste; `Ctrl+Shift+C` is consumed with exactly one copy; `Ctrl+Shift+V` is consumed with exactly one paste; any other chord is consumed with no action. Any other event goes to the web view's own handler |
| `TerminalGui.TerminalWidget.constructor` | spyder_terminal/widgets/terminalgui.py:66-87 | the view loads `http://127.0.0.1:<port>?path=<path>`; path (default `~`) and font (default `None`) are kept; a liveness poll is scheduled exactly when there is no web channel |
| `TerminalGui.TerminalWidget.EvalJavascript` | spyder_terminal/widgets/terminalgui.py:101-103 | delegates to the view: appends exactly `PREFIX + script` |
| `TerminalGui.TerminalWidget.SetDir` | spyder_terminal/widgets/terminalgui.py:105-107 | appends exactly `setcwd("<path>")`, path inserted verbatim |
| `TerminalGui.TerminalWidget.SetFont` | spyder_terminal/widgets/terminalgui.py:109-112 | sets the font field, then appends exactly `fitFont("<font>")` (a missing font is written `None`) |
| `TerminalGui.TerminalWidget.GetFonts` | spyder_terminal/widgets/terminalgui.py:114-116 | appends exactly `getFonts()` and returns `None`, because the page's answer is not passed back |
| `TerminalGui.TerminalWidget.SearchNext` | spyder_terminal/widgets/terminalgui.py:118-120 | appends exactly `searchNext("<regex>")` and returns `None` |
| `TerminalGui.TerminalWidget.SearchPrevious` | spyder_terminal/widgets/terminalgui.py:122-124 | appends exactly `searchPrevious("<regex>")` and returns `None` |
| `TerminalGui.TerminalWidget.ExecCmd` | spyder_terminal/widgets/terminalgui.py:126-128 | appends exactly `exec("<cmd>")` |
| `TerminalGui.TerminalWidget.IsAlive` | spyder_terminal/widgets/terminalgui.py:137-140 | appends exactly `isAlive()` and returns `None`, whatever the page answers |
| `TerminalGui.TerminalWidget.SetOption` | spyder_terminal/widgets/terminalgui.py:142-145 | appends exactly `setOption("<name>", "<value>")` |
| `TerminalGui.TerminalWidget.ApplySettings` | spyder_terminal/widgets/terminalgui.py:147-157 | appends the dispatched `Settings.SettingsCommands` of the options, in order |
| `TerminalGui.CollectOptions` | spyder_terminal/widgets/terminalgui.py:95-98 | the map built holds exactly the configured names, each with its current value |
| `TerminalGui.TerminalWidget.SetupTerm` | spyder_terminal/widgets/terminalgui.py:89-99 | appends `fitFont` of the current font, then `setcwd` of the initial path, then the settings commands of the collected options; the font is unchanged |
| `TerminalGui.TerminalWidget.HandlerReady` | spyder_terminal/widgets/terminalgui.py:70-85 | the page's ready call, which arrives only through the web channel, emits `terminal_ready`, then runs the setup |
| `TerminalGui.TerminalWidget.HandlerClose` | spyder_terminal/widgets/terminalgui.py:54-72 | the page's close call, which arrives only through the web channel, emits `terminal_closed` once |
| `TerminalGui.TerminalWidget.AliveLoopbackAsWritten` | spyder_terminal/widgets/terminalgui.py:130-140 | a poll as written sends `isAlive()`, emits `terminal_closed` and schedules nothing |
| `TerminalGui.TerminalWidget.AliveLoopback` | spyder_terminal/widgets/terminalgui.py:130-135 | (corrected poll) a poll answered `reply` sends `isAlive()`; on false it emits `terminal_closed` and stops, and on true it schedules the next poll without emitting |
| `TerminalGui.TerminalWidget.RunAliveMonitor` | spyder_terminal/widgets/terminalgui.py:86-87 | (corrected poll) from a scheduled poll, the run sends `PollCount(replies)` `isAlive()` scripts, emits `terminal_closed` once exactly when some reply is false, and ends with no poll pending exactly then. With no poll scheduled nothing happens |
| `TerminalGui.SetFontTwice` | spyder_terminal/widgets/terminalgui.py:109-112 | setting the same font twice sends two identical `fitFont` commands and leaves the font as one call does |
| `Settings.BellStyle` | spyder_terminal/widgets/terminalgui.py:150-152 | the bell style is `sound` exactly when the `sound` option is truthy, otherwise `none` |
| `Settings.CursorChoiceDomain` | spyder_terminal/widgets/terminalgui.py:154-157 | exactly the integers 0, 1 and 2 have a cursor style, and each style is one of `block`, `underline`, `bar` |
| `Settings.CursorStyleOfValues` | spyder_terminal/widgets/terminalgui.py:154-157 | `True` and `False` look up `underline` and `block` (they hash as 1 and 0); strings and `None` have no entry |
| `Settings.SettingsCommandsShape` | spyder_terminal/widgets/terminalgui.py:147-157 | one `setOption` per recognised option present; when `sound` is present, exactly one `bellStyle` command comes first, with value `sound` if the option is truthy and `none` otherwise; the `cursor_type` command comes last and carries the table's entry |
| `Settings.SettingsCommandsPlain` | spyder_terminal/widgets/terminalgui.py:150-157 | every value sent is one of five fixed words, so every settings command decodes back to itself |
| `Settings.OtherOptionsIgnored` | spyder_terminal/widgets/terminalgui.py:147-157 | removing, adding or changing an option other than `sound` and `cursor_type` changes nothing that is sent |
| `Settings.NoOptionsNoCommands` | spyder_terminal/widgets/terminalgui.py:147-157 | an empty option map sends nothing |
| `Settings.SoundAndUnderline` | spyder_terminal/widgets/terminalgui.py:147-157 | `{sound: True, cursor_type: 1}` sends exactly bell style `sound`, then cursor style `underline` |
| `Keys.ShortcutKey` | spyder_terminal/widgets/terminalgui.py:241-251 | the key value built step by step is the key code plus SHIFT, CTRL, ALT and META, each added iff its modifier flag is set |
| `Keys.ChordDecodes` | spyder_terminal/widgets/terminalgui.py:244-251 | for any Qt key code, the key value keeps the key code in its low bits and one bit for each modifier that is present |
| `Keys.ChordInjective` | spyder_terminal/widgets/terminalgui.py:244-253 | chords that differ in key code or in any modifier give different key values |
| `Keys.ClassifyExactly` | spyder_terminal/widgets/terminalgui.py:253-263 | release, copy and paste each belong to exactly one portable text; every other text is swallowed |
| `Liveness.PollCount` | spyder_terminal/widgets/terminalgui.py:130-135 | the run polls up to and including the first false reply, never past it |
| `Liveness.TraceShape` | spyder_terminal/widgets/terminalgui.py:130-135 | a run is its polls, then one close exactly when a reply was false |
| `Liveness.ClosesAfterNPlusOnePolls` | spyder_terminal/widgets/terminalgui.py:130-135 | N true replies and then a false one: N+1 polls, one close, and nothing after it, whatever later replies would be |
| `Liveness.NoCloseWhileAlive` | spyder_terminal/widgets/terminalgui.py:130-135 | while every reply is true, the run only polls and never closes |
| `Liveness.CloseIsFinal` | spyder_terminal/widgets/terminalgui.py:130-135 | a close is the last step of a run |
| `Liveness.AsWrittenClosesAtFirstPoll` | spyder_terminal/widgets/terminalgui.py:130-140 | as written, the poll closes after its first poll, unlike the intended run whenever the session is alive |

## Left out

- Widgets, layout, frame style, context menu, icons, actions, translation and the `test()` entry point are presentation glue.
- The web channel registration and the Qt signal connections are left out. The `ready` and `close` slots of `ChannelHandler` are modelled by `HandlerReady` and `HandlerClose`, and the two widget signals are recorded in `signals`.
- `QKeySequence(...).toString(PortableText)` is a Qt call; it is the parameter `portableText`. `WebView.event` for other events is the outcome `Delegated`.
- `runJavaScript` and `evaluateJavaScript` are one step: the script is appended to the page's log. The page's JavaScript, its answers and the asynchronous callback are not modelled.
- Timers, the 250 ms delay and the event loop are not modelled. `RunAliveMonitor` fires the scheduled polls one after another.
- `print("\0")`, the configuration store read, the HTTP load of the URL and the HTTP cache clearing are I/O. The options come in as `names` and `getOption`, and only the URL the view loads is recorded.
- TerminalGui.TerminalWidget.ApplySettings: a `cursor_type` without a table entry raises `KeyError` in the source. Here that is a precondition (`Settings.Applicable`), so the `bellStyle` command already sent before that error is not modelled.
- Option values are `None`, booleans, integers and strings. Floats (`1.0` looks up the same entry as `1`) and other Python types are not modelled.
- No escaping of arguments is modelled, because the source does none. `Commands.Decode` reads only literals without backslashes, so arguments with escapes are outside its round trip.
- The page's notifications and the liveness poll never coexist: the handler is registered only with a web channel (lines 176-179), and the poll is scheduled only without one (lines 86-87). `terminal_closed` can still fire twice if the page calls `close` twice, and nothing blocks commands after closing. No property about either is claimed.

## Findings

| source | as written | input that shows it | evidently intended | confidence | as-written member | corrected member |
|---|---|---|---|---|---|---|
| spyder_terminal/widgets/terminalgui.py:137-140 | `is_alive` returns what `TerminalWidget.eval_javascript` returns, and `TermView.eval_javascript` (lines 218-227) returns nothing. So `__alive_loopback` sees `None` and emits `terminal_closed` at its first poll | backend without a web channel; the page answers `isAlive()` with true | the poll closes only on a false answer, and otherwise polls again | not executed; the dropped return value is plain in the text | `TerminalGui.TerminalWidget.AliveLoopbackAsWritten` | `Liveness.ClosesAfterNPlusOnePolls` |

`TerminalGui.TerminalWidget.AliveLoopbackAsWritten` is the as-written poll: it tests the `None` that `IsAlive` returns. `Liveness.AsWrittenClosesAtFirstPoll` states the same over a whole run, where `Liveness.SeenAsWritten` gives the poll `Truthy(None)` for every answer. The rest of the model uses the corrected poll: `AliveLoopback` takes the page's answer as its input, and `RunAliveMonitor` is built on it.
