/**
 * The session bridge of the terminal plugin: `TermView`, the web view that
 * runs scripts in the terminal page and intercepts keys, and
 * `TerminalWidget`, the host-side control surface that owns it.
 *
 * The page is seen only through what is sent to it: `TermView.scripts`
 * is every script dispatched, in order, and `pageActions` every copy or
 * paste triggered. The widget's two Qt signals are recorded in `signals`,
 * and `alivePending` says whether a liveness poll is scheduled.
 */
module TerminalGui {
  import opened Wrappers
  import opened Values
  import opened Commands
  import Decimal
  import Settings
  import Keys
  import Liveness

  datatype PageAction = CopyAction | PasteAction

  datatype Signal = TerminalReady | TerminalClosed

  /** The events `TermView.event` distinguishes: a shortcut override carries the key code and modifier flags. */
  datatype QtEvent = ShortcutOverride(key: int, modifiers: bv32) | OtherEvent

  /**
   * Released: `event.ignore()` and `False`, so the host's own shortcut fires;
   * Consumed: `event.accept()` and `True`; Delegated: the web view's own handling.
   */
  datatype EventResult = Released | Consumed | Delegated

  /** The page the widget loads: the local terminal server, opened at `path`. */
  function TermUrl(port: int, path: string): string {
    "http://127.0.0.1:" + Decimal.IntString(port) + "?path=" + path
  }

  /** The option map `setup_term` builds: every configured name with its current value. */
  function OptionsOf(names: seq<string>, getOption: string -> Value): map<string, Value> {
    map k | k in names :: getOption(k)
  }

  /** The `for option in options` loop of `setup_term`. */
  method CollectOptions(names: seq<string>, getOption: string -> Value) returns (d: map<string, Value>)
    ensures d.Keys == set k | k in names
    ensures forall k :: k in d ==> d[k] == getOption(k)
    ensures d == OptionsOf(names, getOption)
  {
    d := map[];
    var i := 0;
    while i < |names|
      invariant 0 <= i <= |names|
      invariant d.Keys == set k | k in names[..i]
      invariant forall k :: k in d ==> d[k] == getOption(k)
    {
      d := d[names[i] := getOption(names[i])];
      assert names[..i + 1] == names[..i] + [names[i]];
      i := i + 1;
    }
    assert names[..i] == names;
  }

  class TermView {
    const termUrl: string
    var scripts: seq<string>
    var pageActions: seq<PageAction>

    /** Without an address, the view opens the default terminal server. */
    constructor (termUrl: string := "http://127.0.0.1:8070")
      ensures this.termUrl == termUrl && scripts == [] && pageActions == []
    {
      this.termUrl := termUrl;
      scripts := [];
      pageActions := [];
    }

    /** Runs `script` in the page's namespace; the page's answer does not come back. */
    method EvalJavascript(script: string)
      modifies this`scripts
      ensures scripts == old(scripts) + [PREFIX + script]
    {
      scripts := scripts + [Dispatch(script)];
    }

    method Copy()
      modifies this`pageActions
      ensures pageActions == old(pageActions) + [CopyAction]
    {
      pageActions := pageActions + [CopyAction];
    }

    method Paste()
      modifies this`pageActions
      ensures pageActions == old(pageActions) + [PasteAction]
    {
      pageActions := pageActions + [PasteAction];
    }

    /** A wheel turn scrolls the terminal by the vertical angle delta, sent as a bare number. */
    method WheelEvent(deltaY: int)
      modifies this`scripts
      ensures scripts == old(scripts) + [PREFIX + ("scrollTerm(" + Decimal.IntString(deltaY) + ")")]
    {
      EvalJavascript(Script(Command.ScrollTerm(deltaY)));
    }

    /**
     * The keyboard intercept. `portableText` stands for
     * `QKeySequence(key).toString(QKeySequence.PortableText)`.
     */
    method Event(event: QtEvent, portableText: int -> string) returns (result: EventResult)
      modifies this`pageActions
      ensures event.OtherEvent? ==> result == Delegated && pageActions == old(pageActions)
      ensures event.ShortcutOverride? ==>
        var sequence := portableText(Keys.ChordValue(event.key, event.modifiers));
        && (sequence == "Ctrl+Alt+Shift+T" ==> result == Released && pageActions == old(pageActions))
        && (sequence == "Ctrl+Shift+C" ==> result == Consumed && pageActions == old(pageActions) + [CopyAction])
        && (sequence == "Ctrl+Shift+V" ==> result == Consumed && pageActions == old(pageActions) + [PasteAction])
        && (sequence !in {"Ctrl+Alt+Shift+T", "Ctrl+Shift+C", "Ctrl+Shift+V"} ==>
              result == Consumed && pageActions == old(pageActions))
    {
      if event.ShortcutOverride? {
        var key := Keys.ShortcutKey(event.key, event.modifiers);
        var sequence := portableText(key);
        var decision := Keys.Classify(sequence);
        if decision == Keys.ReleaseToHost {
          return Released;
        } else if decision == Keys.CopyText {
          Copy();
        } else if decision == Keys.PasteText {
          Paste();
        }
        return Consumed;
      }
      return Delegated;
    }
  }

  class TerminalWidget {
    const view: TermView
    const initialPath: string
    const webEngine: bool
    var font: Option<string>
    var signals: seq<Signal>
    var alivePending: bool

    /**
     * `webEngine` says whether the web view offers a web channel; without
     * one the first liveness poll is scheduled here. The path defaults to
     * the home directory `~` and the font to `None`.
     */
    constructor (webEngine: bool, port: int, path: string := "~", font: Option<string> := None)
      ensures fresh(view) && view.termUrl == TermUrl(port, path)
      ensures view.scripts == [] && view.pageActions == []
      ensures initialPath == path && this.font == font && this.webEngine == webEngine
      ensures signals == [] && alivePending == !webEngine
    {
      view := new TermView(TermUrl(port, path));
      this.font := font;
      initialPath := path;
      this.webEngine := webEngine;
      signals := [];
      alivePending := !webEngine;
    }

    method EvalJavascript(script: string)
      modifies view`scripts
      ensures view.scripts == old(view.scripts) + [PREFIX + script]
    {
      view.EvalJavascript(script);
    }

    method SetDir(path: string)
      modifies view`scripts
      ensures view.scripts == old(view.scripts) + [PREFIX + ("setcwd(\"" + path + "\")")]
    {
      EvalJavascript(Script(Command.SetCwd(path)));
    }

    method SetFont(font: Option<string>)
      modifies this`font, view`scripts
      ensures this.font == font
      ensures view.scripts == old(view.scripts) + [PREFIX + ("fitFont(\"" + Str(font) + "\")")]
    {
      this.font := font;
      EvalJavascript(Script(Command.FitFont(Str(this.font))));
    }

    /** The page's answer is not returned: the result is always `None`. */
    method GetFonts() returns (r: Value)
      modifies view`scripts
      ensures r == PyNone
      ensures view.scripts == old(view.scripts) + [PREFIX + "getFonts()"]
    {
      EvalJavascript(Script(Command.GetFonts));
      r := PyNone;
    }

    method SearchNext(regex: string) returns (r: Value)
      modifies view`scripts
      ensures r == PyNone
      ensures view.scripts == old(view.scripts) + [PREFIX + ("searchNext(\"" + regex + "\")")]
    {
      EvalJavascript(Script(Command.SearchNext(regex)));
      r := PyNone;
    }

    method SearchPrevious(regex: string) returns (r: Value)
      modifies view`scripts
      ensures r == PyNone
      ensures view.scripts == old(view.scripts) + [PREFIX + ("searchPrevious(\"" + regex + "\")")]
    {
      EvalJavascript(Script(Command.SearchPrevious(regex)));
      r := PyNone;
    }

    method ExecCmd(cmd: string)
      modifies view`scripts
      ensures view.scripts == old(view.scripts) + [PREFIX + ("exec(\"" + cmd + "\")")]
    {
      EvalJavascript(Script(Command.Exec(cmd)));
    }

    /** As written: the page's answer is not returned, so this is always `None`. */
    method IsAlive() returns (alive: Value)
      modifies view`scripts
      ensures alive == PyNone
      ensures view.scripts == old(view.scripts) + [PREFIX + "isAlive()"]
    {
      EvalJavascript(Script(Command.IsAlive));
      alive := PyNone;
    }

    method SetOption(optionName: string, option: string)
      modifies view`scripts
      ensures view.scripts == old(view.scripts) + [PREFIX + ("setOption(\"" + optionName + "\", \"" + option + "\")")]
    {
      EvalJavascript(Script(Command.SetOption(optionName, option)));
    }

    method ApplySettings(options: map<string, Value>)
      requires Settings.Applicable(options)
      modifies view`scripts
      ensures view.scripts == old(view.scripts) + DispatchAll(Settings.SettingsCommands(options))
    {
      if "sound" in options {
        var bellStyle := Settings.BellStyle(options["sound"]);
        SetOption("bellStyle", bellStyle);
      }
      ghost var afterBell := view.scripts;
      if "cursor_type" in options {
        var cursorId := options["cursor_type"];
        SetOption("cursorStyle", Settings.CursorStyle(cursorId).value);
      }
      ghost var cmds := Settings.SettingsCommands(options);
      assert view.scripts == old(view.scripts) + DispatchAll(cmds);
    }

    /** Runs once the page reports ready: font, then working directory, then the configured options. */
    method SetupTerm(names: seq<string>, getOption: string -> Value)
      requires Settings.Applicable(OptionsOf(names, getOption))
      modifies this`font, view`scripts
      ensures font == old(font)
      ensures view.scripts == old(view.scripts)
        + [PREFIX + ("fitFont(\"" + Str(font) + "\")"), PREFIX + ("setcwd(\"" + initialPath + "\")")]
        + DispatchAll(Settings.SettingsCommands(OptionsOf(names, getOption)))
    {
      SetFont(font);
      SetDir(initialPath);
      var dictOptions := CollectOptions(names, getOption);
      ApplySettings(dictOptions);
    }

    /**
     * The page's `ready` notification: `terminal_ready` is emitted, then
     * `setup_term` runs, in the order the two slots were connected. The page
     * reaches the handler only through the web channel.
     */
    method HandlerReady(names: seq<string>, getOption: string -> Value)
      requires webEngine
      requires Settings.Applicable(OptionsOf(names, getOption))
      modifies this`signals, this`font, view`scripts
      ensures signals == old(signals) + [TerminalReady] && font == old(font)
      ensures view.scripts == old(view.scripts)
        + [PREFIX + ("fitFont(\"" + Str(font) + "\")"), PREFIX + ("setcwd(\"" + initialPath + "\")")]
        + DispatchAll(Settings.SettingsCommands(OptionsOf(names, getOption)))
    {
      signals := signals + [TerminalReady];
      SetupTerm(names, getOption);
    }

    /** The page's `close` notification, through the web channel, re-emitted as `terminal_closed`. */
    method HandlerClose()
      requires webEngine
      modifies this`signals
      ensures signals == old(signals) + [TerminalClosed]
    {
      signals := signals + [TerminalClosed];
    }

    /** One poll as written: it tests the value `is_alive` returns, which is always `None`. */
    method AliveLoopbackAsWritten()
      requires alivePending
      modifies this`signals, this`alivePending, view`scripts
      ensures view.scripts == old(view.scripts) + [PREFIX + "isAlive()"]
      ensures signals == old(signals) + [TerminalClosed] && !alivePending
    {
      var alive := IsAlive();
      alivePending := Truthy(alive);
      if !Truthy(alive) {
        signals := signals + [TerminalClosed];
      }
    }

    /** One poll answered by the page with `reply`: close and stop, or schedule the next poll. */
    method AliveLoopback(reply: bool)
      requires alivePending
      modifies this`signals, this`alivePending, view`scripts
      ensures view.scripts == old(view.scripts) + [PREFIX + "isAlive()"]
      ensures signals == old(signals) + (if reply then [] else [TerminalClosed])
      ensures alivePending == reply
    {
      EvalJavascript(Script(Command.IsAlive));
      alivePending := reply;
      if !reply {
        signals := signals + [TerminalClosed];
      }
    }

    /** The scheduled polls, fired one after another while one is pending, answered by `replies`. */
    method RunAliveMonitor(replies: seq<bool>) returns (polls: nat)
      modifies this`signals, this`alivePending, view`scripts
      ensures !old(alivePending) ==>
        polls == 0 && !alivePending && signals == old(signals) && view.scripts == old(view.scripts)
      ensures old(alivePending) ==>
        && polls == Liveness.PollCount(replies)
        && view.scripts == old(view.scripts) + Liveness.Repeat(PREFIX + "isAlive()", polls)
        && signals == old(signals) + (if Liveness.Closes(replies) then [TerminalClosed] else [])
        && alivePending == !Liveness.Closes(replies)
    {
      polls := 0;
      if !alivePending {
        return;
      }
      while alivePending && polls < |replies|
        invariant polls <= |replies|
        invariant forall j :: 0 <= j < polls - 1 ==> replies[j]
        invariant alivePending ==> forall j :: 0 <= j < polls ==> replies[j]
        invariant !alivePending ==> polls > 0 && !replies[polls - 1]
        invariant view.scripts == old(view.scripts) + Liveness.Repeat(PREFIX + "isAlive()", polls)
        invariant signals == old(signals) + (if alivePending then [] else [TerminalClosed])
        decreases |replies| - polls
      {
        AliveLoopback(replies[polls]);
        polls := polls + 1;
        assert Liveness.Repeat(PREFIX + "isAlive()", polls - 1) + [PREFIX + "isAlive()"]
          == Liveness.Repeat(PREFIX + "isAlive()", polls);
      }
      Liveness.PollCountStops(replies, polls, !alivePending);
    }
  }

  /** Setting the same font twice sends the same command twice and leaves the font as one call would. */
  method SetFontTwice(widget: TerminalWidget, font: Option<string>)
    modifies widget`font, widget.view`scripts
    ensures widget.font == font
    ensures var sent := PREFIX + ("fitFont(\"" + Str(font) + "\")");
      widget.view.scripts == old(widget.view.scripts) + [sent, sent]
  {
    widget.SetFont(font);
    widget.SetFont(font);
  }
}
