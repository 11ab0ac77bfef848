/**
 * `TerminalWidget.apply_settings`: the configuration options of the plugin,
 * a flat name-to-value map, become `setOption` commands for the page.
 * Two names are recognised, `sound` and `cursor_type`; the rest are ignored.
 */
module Settings {
  import opened Wrappers
  import opened Values
  import opened Commands

  /** The bell style `options['sound']` selects. */
  function BellStyle(v: Value): (style: string)
    ensures style == "sound" <==> Truthy(v)
    ensures style == "sound" || style == "none"
  {
    if Truthy(v) then "sound" else "none"
  }

  /**
   * The key of `cursor_choices` that a value looks up: a Python dict with
   * integer keys finds `True` and `False` under 1 and 0; other values have
   * no entry there.
   */
  function CursorKey(v: Value): Option<int> {
    match v
    case PyInt(i) => Some(i)
    case PyBool(b) => Some(if b then 1 else 0)
    case _ => None
  }

  /** The table `cursor_choices = {0: "block", 1: "underline", 2: "bar"}`. */
  function CursorChoice(id: int): Option<string> {
    if id == 0 then Some("block")
    else if id == 1 then Some("underline")
    else if id == 2 then Some("bar")
    else None
  }

  /** The cursor style of a `cursor_type` value, or `None` where the lookup raises `KeyError`. */
  function CursorStyle(v: Value): Option<string> {
    match CursorKey(v)
    case Some(k) => CursorChoice(k)
    case None => None
  }

  /** The options `apply_settings` accepts without raising `KeyError`. */
  predicate Applicable(options: map<string, Value>) {
    "cursor_type" in options ==> CursorStyle(options["cursor_type"]).Some?
  }

  /** The commands `apply_settings(options)` sends, in order. */
  function SettingsCommands(options: map<string, Value>): (cmds: seq<Command>)
    requires Applicable(options)
  {
    (if "sound" in options then [SetOption("bellStyle", BellStyle(options["sound"]))] else [])
    + (if "cursor_type" in options
       then [SetOption("cursorStyle", CursorStyle(options["cursor_type"]).value)]
       else [])
  }

  /** Exactly the integers 0, 1 and 2 name a cursor style. */
  lemma CursorChoiceDomain(id: int)
    ensures CursorChoice(id).Some? <==> 0 <= id <= 2
    ensures CursorChoice(id).Some? ==> CursorChoice(id).value in {"block", "underline", "bar"}
  {
  }

  /** Python looks `True` and `False` up as 1 and 0; a string is never a key. */
  lemma CursorStyleOfValues(b: bool, s: string)
    ensures CursorStyle(PyBool(b)) == Some(if b then "underline" else "block")
    ensures CursorStyle(PyStr(s)) == None && CursorStyle(PyNone) == None
  {
  }

  /**
   * One command per recognised option, the bell style first: its value is
   * "sound" exactly when `sound` is truthy, and the cursor style is the
   * table's entry for `cursor_type`.
   */
  lemma SettingsCommandsShape(options: map<string, Value>)
    requires Applicable(options)
    ensures var cmds := SettingsCommands(options);
      && |cmds| == (if "sound" in options then 1 else 0) + (if "cursor_type" in options then 1 else 0)
      && (forall i :: 0 <= i < |cmds| ==> cmds[i].SetOption?)
      && ("sound" in options ==>
            cmds[0].name == "bellStyle"
            && cmds[0].value == (if Truthy(options["sound"]) then "sound" else "none"))
      && ("cursor_type" in options ==>
            cmds[|cmds| - 1].name == "cursorStyle"
            && Some(cmds[|cmds| - 1].value) == CursorChoice(CursorKey(options["cursor_type"]).value))
      && (forall i :: 0 <= i < |cmds| && cmds[i].name == "bellStyle" ==> i == 0 && "sound" in options)
  {
    var bell := if "sound" in options then [SetOption("bellStyle", BellStyle(options["sound"]))] else [];
    var cursor := if "cursor_type" in options
      then [SetOption("cursorStyle", CursorStyle(options["cursor_type"]).value)] else [];
    assert SettingsCommands(options) == bell + cursor;
  }

  /** Every value `apply_settings` sends is plain text, so every command it sends decodes. */
  lemma SettingsCommandsPlain(options: map<string, Value>)
    requires Applicable(options)
    ensures forall i :: 0 <= i < |SettingsCommands(options)| ==> PlainArgs(SettingsCommands(options)[i])
  {
    var bell := if "sound" in options then [SetOption("bellStyle", BellStyle(options["sound"]))] else [];
    var cursor := if "cursor_type" in options
      then [SetOption("cursorStyle", CursorStyle(options["cursor_type"]).value)] else [];
    assert SettingsCommands(options) == bell + cursor;
    forall i | 0 <= i < |bell| ensures PlainArgs(bell[i]) {
      var style := BellStyle(options["sound"]);
      assert style == "sound" || style == "none";
    }
    forall i | 0 <= i < |cursor| ensures PlainArgs(cursor[i]) {
      var style := CursorStyle(options["cursor_type"]).value;
      assert style == "block" || style == "underline" || style == "bar";
    }
  }

  /**
   * An option other than `sound` and `cursor_type` changes nothing that is
   * sent, whether it is removed, added or given another value.
   */
  lemma OtherOptionsIgnored(options: map<string, Value>, k: string, v: Value)
    requires Applicable(options)
    requires k != "sound" && k != "cursor_type"
    ensures Applicable(options - {k}) && Applicable(options[k := v])
    ensures SettingsCommands(options - {k}) == SettingsCommands(options)
    ensures SettingsCommands(options[k := v]) == SettingsCommands(options)
  {
  }

  /** An empty option map sends nothing. */
  lemma NoOptionsNoCommands()
    ensures SettingsCommands(map[]) == []
  {
  }

  /** `{sound: True, cursor_type: 1}` sends the bell style "sound", then the cursor style "underline". */
  lemma SoundAndUnderline(options: map<string, Value>)
    requires options == map["sound" := PyBool(true), "cursor_type" := PyInt(1)]
    ensures SettingsCommands(options)
      == [SetOption("bellStyle", "sound"), SetOption("cursorStyle", "underline")]
  {
  }
}
