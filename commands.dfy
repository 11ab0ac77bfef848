/**
 * The command protocol between the host and the rendered terminal: every
 * control operation becomes one JavaScript call, written as text, into the
 * namespace `spyder_terminal.default.` of the page.
 *
 * Arguments are interpolated as they are, inside double quotes, with no
 * escaping. `Decode` reads a script the way a JavaScript parser reads a
 * string literal (up to the next double quote); it is the partner that
 * says which commands the text still identifies.
 */
module Commands {
  import opened Wrappers
  import Decimal

  /** The namespace every dispatched script is put into. */
  const PREFIX := "spyder_terminal.default."

  /** The calls the bridge makes into the page. */
  datatype Command =
    | SetCwd(path: string)
    | FitFont(font: string)
    | GetFonts
    | SearchNext(regex: string)
    | SearchPrevious(regex: string)
    | Exec(cmd: string)
    | IsAlive
    | SetOption(name: string, value: string)
    | ScrollTerm(delta: int)

  function Name(c: Command): string {
    match c
    case SetCwd(_) => "setcwd"
    case FitFont(_) => "fitFont"
    case GetFonts => "getFonts"
    case SearchNext(_) => "searchNext"
    case SearchPrevious(_) => "searchPrevious"
    case Exec(_) => "exec"
    case IsAlive => "isAlive"
    case SetOption(_, _) => "setOption"
    case ScrollTerm(_) => "scrollTerm"
  }

  /** A string argument between double quotes, with nothing escaped. */
  function Quoted(s: string): string {
    "\"" + s + "\""
  }

  /**
   * The argument list of a command's call. `Script` spells each call the
   * way its format string does; the decoder is stated over name and
   * argument list instead, and `ScriptSplits` proves the two spellings agree.
   */
  function Args(c: Command): string {
    match c
    case SetCwd(p) => "(" + Quoted(p) + ")"
    case FitFont(f) => "(" + Quoted(f) + ")"
    case GetFonts => "()"
    case SearchNext(r) => "(" + Quoted(r) + ")"
    case SearchPrevious(r) => "(" + Quoted(r) + ")"
    case Exec(x) => "(" + Quoted(x) + ")"
    case IsAlive => "()"
    case SetOption(n, v) => "(" + Quoted(n) + ", " + Quoted(v) + ")"
    case ScrollTerm(d) => "(" + Decimal.IntString(d) + ")"
  }

  /** The script text of a command, before the namespace is put in front, as the format strings build it. */
  function Script(c: Command): string {
    match c
    case SetCwd(p) => "setcwd(\"" + p + "\")"
    case FitFont(f) => "fitFont(\"" + f + "\")"
    case GetFonts => "getFonts()"
    case SearchNext(r) => "searchNext(\"" + r + "\")"
    case SearchPrevious(r) => "searchPrevious(\"" + r + "\")"
    case Exec(x) => "exec(\"" + x + "\")"
    case IsAlive => "isAlive()"
    case SetOption(n, v) => "setOption(\"" + n + "\", \"" + v + "\")"
    case ScrollTerm(d) => "scrollTerm(" + Decimal.IntString(d) + ")"
  }

  /** What `TermView.eval_javascript` hands to the page for `script`. */
  function Dispatch(script: string): string {
    PREFIX + script
  }

  /** The script inside a dispatched text, if it carries the namespace. */
  function Unprefix(s: string): Option<string> {
    if |PREFIX| <= |s| && s[..|PREFIX|] == PREFIX then Some(s[|PREFIX|..]) else None
  }

  /** Every script of `cmds`, dispatched, in order. */
  function DispatchAll(cmds: seq<Command>): (r: seq<string>)
    ensures |r| == |cmds|
    ensures forall i :: 0 <= i < |cmds| ==> r[i] == Dispatch(Script(cmds[i]))
  {
    if cmds == [] then [] else [Dispatch(Script(cmds[0]))] + DispatchAll(cmds[1..])
  }

  /**
   * A string argument that a JavaScript string literal carries unchanged:
   * no double quote (it would end the literal), no backslash (it would
   * start an escape) and no line break (a syntax error inside a literal).
   */
  predicate Plain(s: string) {
    forall i :: 0 <= i < |s| ==> s[i] != '"' && s[i] != '\\' && s[i] != '\n' && s[i] != '\r'
  }

  /** The commands whose every string argument is `Plain`. */
  predicate PlainArgs(c: Command) {
    match c
    case SetCwd(p) => Plain(p)
    case FitFont(f) => Plain(f)
    case SearchNext(r) => Plain(r)
    case SearchPrevious(r) => Plain(r)
    case Exec(x) => Plain(x)
    case SetOption(n, v) => Plain(n) && Plain(v)
    case _ => true
  }

  /** The index of the first `c` in `s`, or `|s|`. */
  function IndexOf(s: string, c: char): (i: nat)
    ensures i <= |s|
    ensures forall j :: 0 <= j < i ==> s[j] != c
    ensures i < |s| ==> s[i] == c
  {
    if s == [] then 0 else if s[0] == c then 0 else 1 + IndexOf(s[1..], c)
  }

  /**
   * The body of a string literal whose opening quote has been read: the
   * characters up to the next double quote, and what follows that quote.
   * A backslash starts an escape, which this reader does not interpret;
   * a line break cannot stand inside a literal.
   */
  function ReadUntilQuote(s: string): Option<(string, string)> {
    if s == [] then None
    else if s[0] == '"' then Some(([], s[1..]))
    else if s[0] == '\\' || s[0] == '\n' || s[0] == '\r' then None
    else
      match ReadUntilQuote(s[1..])
      case None => None
      case Some((body, rest)) => Some(([s[0]] + body, rest))
  }

  function ReadLiteral(s: string): Option<(string, string)> {
    if |s| > 0 && s[0] == '"' then ReadUntilQuote(s[1..]) else None
  }

  /** The argument of a one-string call: `("` body `")`. */
  function OneLiteral(args: string): Option<string> {
    if |args| > 0 && args[0] == '(' then
      match ReadLiteral(args[1..])
      case Some((body, rest)) => if rest == ")" then Some(body) else None
      case None => None
    else None
  }

  /** The two arguments of a two-string call: `("` a `", "` b `")`. */
  function TwoLiterals(args: string): Option<(string, string)> {
    if |args| > 0 && args[0] == '(' then
      match ReadLiteral(args[1..])
      case Some((first, rest)) =>
        if |rest| >= 2 && rest[..2] == ", " then
          match ReadLiteral(rest[2..])
          case Some((second, tail)) => if tail == ")" then Some((first, second)) else None
          case None => None
        else None
      case None => None
    else None
  }

  function DecodeCall(name: string, args: string): Option<Command> {
    if name == "getFonts" then (if args == "()" then Some(GetFonts) else None)
    else if name == "isAlive" then (if args == "()" then Some(IsAlive) else None)
    else if name == "scrollTerm" then
      if |args| >= 2 && args[0] == '(' && args[|args| - 1] == ')' then
        match Decimal.ParseInt(args[1..|args| - 1])
        case Some(d) => Some(ScrollTerm(d))
        case None => None
      else None
    else if name == "setOption" then
      match TwoLiterals(args)
      case Some((n, v)) => Some(SetOption(n, v))
      case None => None
    else
      match OneLiteral(args)
      case None => None
      case Some(a) =>
        if name == "setcwd" then Some(SetCwd(a))
        else if name == "fitFont" then Some(FitFont(a))
        else if name == "searchNext" then Some(SearchNext(a))
        else if name == "searchPrevious" then Some(SearchPrevious(a))
        else if name == "exec" then Some(Exec(a))
        else None
  }

  /** The command a script calls: the name up to the first `(`, then its arguments. */
  function Decode(script: string): Option<Command> {
    var i := IndexOf(script, '(');
    DecodeCall(script[..i], script[i..])
  }

  lemma {:induction false} ReadPlain(body: string, rest: string)
    requires Plain(body)
    ensures ReadUntilQuote(body + "\"" + rest) == Some((body, rest))
  {
    if body == [] {
      assert body + "\"" + rest == ['"'] + rest;
    } else {
      assert (body + "\"" + rest)[1..] == body[1..] + "\"" + rest;
      ReadPlain(body[1..], rest);
      assert [body[0]] + body[1..] == body;
    }
  }

  lemma NameHasNoParen(c: Command)
    ensures forall j :: 0 <= j < |Name(c)| ==> Name(c)[j] != '('
  {
  }

  lemma OneLiteralOf(a: string)
    requires Plain(a)
    ensures OneLiteral("(" + Quoted(a) + ")") == Some(a)
  {
    var args := "(" + Quoted(a) + ")";
    assert args[1..] == "\"" + (a + "\"" + ")");
    assert args[1..][1..] == a + "\"" + ")";
    ReadPlain(a, ")");
  }

  lemma TwoLiteralsOf(n: string, v: string)
    requires Plain(n) && Plain(v)
    ensures TwoLiterals("(" + Quoted(n) + ", " + Quoted(v) + ")") == Some((n, v))
  {
    var args := "(" + Quoted(n) + ", " + Quoted(v) + ")";
    var rest := ", " + Quoted(v) + ")";
    assert args[1..] == "\"" + (n + "\"" + rest);
    assert args[1..][1..] == n + "\"" + rest;
    ReadPlain(n, rest);
    assert rest[..2] == ", ";
    assert rest[2..] == "\"" + (v + "\"" + ")");
    assert rest[2..][1..] == v + "\"" + ")";
    ReadPlain(v, ")");
  }

  lemma ScrollArgsOf(d: int)
    ensures DecodeCall("scrollTerm", "(" + Decimal.IntString(d) + ")") == Some(ScrollTerm(d))
  {
    var args := "(" + Decimal.IntString(d) + ")";
    assert args[1..|args| - 1] == Decimal.IntString(d);
    Decimal.IntStringRoundTrip(d);
  }

  lemma UnarySplit(name: string, head: string, a: string)
    requires head == name + "(\""
    ensures head + a + "\")" == name + ("(" + Quoted(a) + ")")
  {
    AppendAssoc(name, "(\"", a);
    AppendAssoc(name, "(\"" + a, "\")");
    assert "(\"" + a + "\")" == "(" + Quoted(a) + ")";
  }

  lemma BinarySplit(name: string, head: string, n: string, v: string)
    requires head == name + "(\""
    ensures head + n + "\", \"" + v + "\")" == name + ("(" + Quoted(n) + ", " + Quoted(v) + ")")
  {
    AppendAssoc(name, "(\"", n);
    AppendAssoc(name, "(\"" + n, "\", \"");
    AppendAssoc(name, "(\"" + n + "\", \"", v);
    AppendAssoc(name, "(\"" + n + "\", \"" + v, "\")");
    assert "(\"" + n + "\", \"" + v + "\")" == "(" + Quoted(n) + ", " + Quoted(v) + ")";
  }

  /** Every script is its command's name, then its argument list. */
  lemma ScriptSplits(c: Command)
    ensures Script(c) == Name(c) + Args(c)
  {
    match c
    case SetCwd(p) => UnarySplit("setcwd", "setcwd(\"", p);
    case FitFont(f) => UnarySplit("fitFont", "fitFont(\"", f);
    case SearchNext(r) => UnarySplit("searchNext", "searchNext(\"", r);
    case SearchPrevious(r) => UnarySplit("searchPrevious", "searchPrevious(\"", r);
    case Exec(x) => UnarySplit("exec", "exec(\"", x);
    case SetOption(n, v) => BinarySplit("setOption", "setOption(\"", n, v);
    case ScrollTerm(d) =>
      AppendAssoc("scrollTerm", "(", Decimal.IntString(d));
      AppendAssoc("scrollTerm", "(" + Decimal.IntString(d), ")");
      assert "scrollTerm" + "(" == "scrollTerm(";
    case GetFonts =>
    case IsAlive =>
  }

  /** The script of a command whose string arguments are plain decodes to that command. */
  lemma DecodeSplits(c: Command)
    ensures Decode(Script(c)) == DecodeCall(Name(c), Args(c))
  {
    var s := Script(c);
    ScriptSplits(c);
    NameHasNoParen(c);
    assert Args(c)[0] == '(';
    assert s[|Name(c)|] == '(';
    assert IndexOf(s, '(') == |Name(c)|;
    assert s[..|Name(c)|] == Name(c);
    assert s[|Name(c)|..] == Args(c);
  }

  lemma DecodeScript(c: Command)
    requires PlainArgs(c)
    ensures Decode(Script(c)) == Some(c)
  {
    DecodeSplits(c);
    match c
    case SetCwd(p) => OneLiteralOf(p);
    case FitFont(f) => OneLiteralOf(f);
    case SearchNext(r) => OneLiteralOf(r);
    case SearchPrevious(r) => OneLiteralOf(r);
    case Exec(x) => OneLiteralOf(x);
    case SetOption(n, v) => TwoLiteralsOf(n, v);
    case ScrollTerm(d) => ScrollArgsOf(d);
    case GetFonts =>
    case IsAlive =>
  }

  /** A dispatched script carries the namespace, and removing it gives the script back. */
  lemma UnprefixDispatch(script: string)
    ensures Unprefix(Dispatch(script)) == Some(script)
  {
    var r := Dispatch(script);
    assert r[..|PREFIX|] == PREFIX;
    assert r[|PREFIX|..] == script;
  }

  /** Commands with plain arguments never share a dispatched text. */
  lemma DispatchInjective(c1: Command, c2: Command)
    requires PlainArgs(c1) && PlainArgs(c2)
    requires Dispatch(Script(c1)) == Dispatch(Script(c2))
    ensures c1 == c2
  {
    UnprefixDispatch(Script(c1));
    DecodeScript(c1);
    DecodeScript(c2);
  }

  lemma AppendAssoc(x: string, y: string, z: string)
    ensures (x + y) + z == x + (y + z)
  {
  }

  /** Moving a separator from one argument into the other keeps the concatenation the same. */
  lemma {:induction false} MoveSeparator(h: string, a: string, sep: string, b: string, c: string, t: string)
    ensures h + a + sep + (b + sep + c) + t == h + (a + sep + b) + sep + c + t
  {
    calc {
      h + a + sep + (b + sep + c) + t;
      { AppendAssoc(h + a + sep, b + sep, c); AppendAssoc(h + a + sep, b, sep); }
      h + a + sep + b + sep + c + t;
      { AppendAssoc(h, a + sep, b); AppendAssoc(h, a, sep); }
      h + (a + sep + b) + sep + c + t;
    }
  }

  /**
   * Without escaping, an argument holding `", "` can make two different
   * commands send the same text: the name `a` with the value `b", "c`, and
   * the name `a", "b` with the value `c`.
   */
  lemma UnescapedQuotesCollide(a: string, b: string, c: string)
    ensures SetOption(a, b + "\", \"" + c) != SetOption(a + "\", \"" + b, c)
    ensures Script(SetOption(a, b + "\", \"" + c)) == Script(SetOption(a + "\", \"" + b, c))
  {
    assert |a + "\", \"" + b| > |a|;
    MoveSeparator("setOption(\"", a, "\", \"", b, c, "\")");
  }
}
