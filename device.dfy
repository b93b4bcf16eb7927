/** One GPU (`GPUStat`): its query row, the processes attached to it, and the
    one-line rendering `print_to` writes for it. */
module Device {

  import opened Base
  import opened Text
  import opened Colors
  import opened Rows

  /** The rendering switches `print_to` takes besides the name width. */
  datatype Flags = Flags(withColors: bool, showCmd: bool, showUser: bool, showPid: bool)

  /** The output stream `fp` a line is written to. */
  class Stream {
    var text: string

    constructor ()
      ensures text == ""
    {
      text := "";
    }

    method Write(s: string)
      modifies this
      ensures text == old(text) + s
    {
      text := text + s;
    }
  }

  /** The colour table of `print_to`: the temperature and utilisation are read
      as integers whether or not colours are on. */
  function EntryPalette(entry: Row, withColors: bool): Result<Palette, PyError> {
    var temp :- IntOf(entry, "temperature.gpu");
    var util :- IntOf(entry, "utilization.gpu");
    Success(PaletteFor(withColors, temp, util))
  }

  /** The palette with every code blanked. */
  const Plain: Palette := Palette("", "", "", "", "", "", "", "", "")

  // ---------------------------------------------------------------- process tokens

  /** `if not show_cmd or show_user: r += CUser + p['user'] + C0`. */
  function UserStep(r: string, p: Row, c: Palette, f: Flags): Result<string, PyError> {
    if !f.showCmd || f.showUser then
      var user :- Get(p, "user");
      Success(r + c.cUser + user + c.c0)
    else Success(r)
  }

  /** The command name, or the pid when `comm` is absent. */
  function CommandOf(p: Row): string
    requires "pid" in p
  {
    if "comm" in p then p["comm"] else p["pid"]
  }

  /** `if show_cmd:` a `:` when `r` is not empty, then the command between C1
      and C0; `p.get('comm', p['pid'])` reads `pid` even when `comm` is there. */
  function CmdStep(r: string, p: Row, c: Palette, f: Flags): Result<string, PyError> {
    if f.showCmd then
      var _ :- Get(p, "pid");
      Success((if r != "" then r + ":" else r) + c.c1 + CommandOf(p) + c.c0)
    else Success(r)
  }

  /** `if show_pid: r += '/' + pid`. */
  function PidStep(r: string, p: Row, f: Flags): Result<string, PyError> {
    if f.showPid then
      var pid :- Get(p, "pid");
      Success(r + "/" + pid)
    else Success(r)
  }

  /** `r += '(' + CMemP + used_memory + 'M' + C0 + ')'`. */
  function MemStep(r: string, p: Row, c: Palette): Result<string, PyError> {
    var mem :- Get(p, "used_memory");
    Success(r + "(" + c.cMemP + mem + "M" + c.c0 + ")")
  }

  /** `process_repr(p)`: the token one attached process adds to the line. */
  function ProcessToken(p: Row, c: Palette, f: Flags): Result<string, PyError> {
    var r1 :- UserStep("", p, c, f);
    var r2 :- CmdStep(r1, p, c, f);
    var r3 :- PidStep(r2, p, f);
    MemStep(r3, p, c)
  }

  /** The keys a process row must hold for its token to be drawn. */
  predicate TokenKeysPresent(p: Row, f: Flags) {
    && "used_memory" in p
    && ((!f.showCmd || f.showUser) ==> "user" in p)
    && ((f.showCmd || f.showPid) ==> "pid" in p)
  }

  /** `' ' + process_repr(p)` for each process in turn; the first failing
      token's error is the result. */
  function ProcessTokens(ps: seq<Row>, c: Palette, f: Flags): Result<string, PyError>
    decreases |ps|
  {
    if ps == [] then Success("")
    else
      var done :- ProcessTokens(ps[..|ps| - 1], c, f);
      var token :- ProcessToken(ps[|ps| - 1], c, f);
      Success(done + " " + token)
  }

  // ---------------------------------------------------------------- the line

  /** `[index]` in C1. */
  function IndexField(c: Palette, index: string): string {
    c.c1 + "[" + index + "]" + c.c0
  }

  /** The name in CName, left-justified to the name width. */
  function NameField(c: Palette, name: string, width: nat): string {
    " " + c.cName + LeftJustify(name, width) + c.c0 + " |"
  }

  /** The temperature in CTemp, right-aligned to 3. */
  function TempField(c: Palette, temp: string): string {
    c.cTemp + RightJustify(temp, 3) + "'C" + c.c0 + ", "
  }

  /** The utilisation in CUtil, right-aligned to 3. */
  function UtilField(c: Palette, util: string): string {
    c.cUtil + RightJustify(util, 3) + " %" + c.c0 + " | "
  }

  /** Memory used and total, each right-aligned to 5. */
  function MemoryField(c: Palette, used: string, total: string): string {
    c.c1 + c.cMemU + RightJustify(used, 5) + c.c0 + " / " + c.cMemT + RightJustify(total, 5) + c.c0 + " MB"
  }

  /** The formatted part of the line before the process tokens; the fields are
      read in the order `str.format` reads them. */
  function HeadOf(entry: Row, c: Palette, width: nat): Result<string, PyError> {
    var index :- Get(entry, "index");
    var name :- Get(entry, "name");
    var temp :- Get(entry, "temperature.gpu");
    var util :- Get(entry, "utilization.gpu");
    var used :- Get(entry, "memory.used");
    var total :- Get(entry, "memory.total");
    Success(IndexField(c, index) + NameField(c, name, width) + TempField(c, temp)
      + UtilField(c, util) + MemoryField(c, used, total))
  }

  /** The line `print_to` writes for a device with this entry and these
      processes, or the exception it raises. */
  function DeviceLine(entry: Row, ps: seq<Row>, f: Flags, width: nat): Result<string, PyError> {
    var c :- EntryPalette(entry, f.withColors);
    var head :- HeadOf(entry, c, width);
    var tokens :- ProcessTokens(ps, c, f);
    Success(head + " |" + tokens)
  }

  /** The keys a device entry must hold, and the fields that must read as
      integers, for its line to be drawn. */
  predicate EntryRenderable(entry: Row) {
    && HasLineFields(entry)
    && ParseInt(entry["temperature.gpu"]).Some?
    && ParseInt(entry["utilization.gpu"]).Some?
  }

  /** The keys of an entry that the line reads. */
  predicate HasLineFields(entry: Row) {
    && "index" in entry && "name" in entry && "memory.used" in entry && "memory.total" in entry
    && "temperature.gpu" in entry && "utilization.gpu" in entry
  }

  // ---------------------------------------------------------------- the device

  /** An argument of the `GPUStat` constructor: a dict, or any other object. */
  datatype EntryArg = DictArg(fields: Row) | OtherArg(typeRepr: string)

  class GPUStat {
    const entry: Row
    var processes: seq<Row>

    /** `GPUStat(entry)` for a dict: no process attached yet. */
    constructor (entry: Row)
      ensures this.entry == entry && processes == []
    {
      this.entry := entry;
      processes := [];
    }

    /** The `uuid` property. */
    function Uuid(): (r: Result<string, PyError>)
      ensures r.Success? <==> "uuid" in entry
      ensures r.Success? ==> r.value == entry["uuid"]
      ensures r.Failure? ==> r.error == KeyError("uuid")
    {
      Get(entry, "uuid")
    }

    /** `add_process`: appends at the end and returns the same device. */
    method AddProcess(p: Row) returns (self: GPUStat)
      modifies this
      ensures self == this
      ensures processes == old(processes) + [p]
    {
      processes := processes + [p];
      self := this;
    }

    /** `process_repr`, built up piece by piece. */
    static method ProcessRepr(p: Row, c: Palette, f: Flags) returns (r: Result<string, PyError>)
      ensures r == ProcessToken(p, c, f)
    {
      var s := "";
      if !f.showCmd || f.showUser {
        if "user" !in p { return Failure(KeyError("user")); }
        s := s + c.cUser + p["user"] + c.c0;
      }
      if f.showCmd {
        if "pid" !in p { return Failure(KeyError("pid")); }
        if s != "" { s := s + ":"; }
        s := s + c.c1 + CommandOf(p) + c.c0;
      }
      if f.showPid {
        if "pid" !in p { return Failure(KeyError("pid")); }
        s := s + "/" + p["pid"];
      }
      if "used_memory" !in p { return Failure(KeyError("used_memory")); }
      s := s + "(" + c.cMemP + p["used_memory"] + "M" + c.c0 + ")";
      r := Success(s);
    }

    /** `print_to(fp, ...)`: writes this device's line to `fp`, or raises and
        writes nothing. */
    method PrintTo(fp: Stream, f: Flags, width: nat) returns (err: Option<PyError>)
      modifies fp
      ensures var line := DeviceLine(entry, processes, f, width);
        && (line.Success? ==> err == None && fp.text == old(fp.text) + line.value)
        && (line.Failure? ==> err == Some(line.error) && fp.text == old(fp.text))
    {
      var palette := EntryPalette(entry, f.withColors);
      if palette.Failure? { return Some(palette.error); }
      var c := palette.value;
      var head := HeadOf(entry, c, width);
      if head.Failure? { return Some(head.error); }
      DeviceLineOfParts(entry, processes, f, width, c, head.value);
      var tokens := ProcessReprs(c, f);
      if tokens.Failure? { return Some(tokens.error); }
      fp.Write(head.value + " |" + tokens.value);
      err := None;
    }

    /** The loop of `print_to` over the attached processes: `' ' +
        process_repr(p)` for each in turn, stopping at the first that raises. */
    method ProcessReprs(c: Palette, f: Flags) returns (r: Result<string, PyError>)
      ensures r == ProcessTokens(processes, c, f)
    {
      var tokens := "";
      var i := 0;
      while i < |processes|
        invariant 0 <= i <= |processes|
        invariant ProcessTokens(processes[..i], c, f) == Success(tokens)
      {
        var token := ProcessRepr(processes[i], c, f);
        TokensStep(processes, i, c, f, tokens);
        if token.Failure? {
          ProcessTokensPrefixFailure(processes, i + 1, c, f);
          return Failure(token.error);
        }
        tokens := tokens + " " + token.value;
        i := i + 1;
      }
      assert processes[..i] == processes;
      r := Success(tokens);
    }
  }

  /** The line once its palette and head are known. */
  lemma DeviceLineOfParts(entry: Row, ps: seq<Row>, f: Flags, width: nat, c: Palette, head: string)
    requires EntryPalette(entry, f.withColors) == Success(c)
    requires HeadOf(entry, c, width) == Success(head)
    ensures DeviceLine(entry, ps, f, width) ==
      match ProcessTokens(ps, c, f)
      case Success(t) => Success(head + " |" + t)
      case Failure(e) => Failure(e)
  {
  }

  /** `GPUStat(entry)` for any argument: a `TypeError` unless it is a dict. */
  method NewGPUStat(arg: EntryArg) returns (r: Result<GPUStat, PyError>)
    ensures arg.OtherArg? <==> r.Failure?
    ensures arg.OtherArg? ==> r.error == TypeError("entry should be a dict, " + arg.typeRepr + " given")
    ensures arg.DictArg? ==> fresh(r.value) && r.value.entry == arg.fields && r.value.processes == []
  {
    match arg
    case OtherArg(t) =>
      r := Failure(TypeError("entry should be a dict, " + t + " given"));
    case DictArg(fields) =>
      var g := new GPUStat(fields);
      r := Success(g);
  }

  // ---------------------------------------------------------------- lemmas

  /** One more process on the way through the list. */
  lemma TokensStep(ps: seq<Row>, i: nat, c: Palette, f: Flags, done: string)
    requires i < |ps|
    requires ProcessTokens(ps[..i], c, f) == Success(done)
    ensures ProcessTokens(ps[..i + 1], c, f) ==
      match ProcessToken(ps[i], c, f)
      case Success(t) => Success(done + " " + t)
      case Failure(e) => Failure(e)
  {
    assert ps[..i + 1][..i] == ps[..i];
  }

  /** A failing token stops the line: once a prefix of the processes fails, the
      whole list fails with the same exception. */
  lemma {:induction false} ProcessTokensPrefixFailure(ps: seq<Row>, i: nat, c: Palette, f: Flags)
    requires i <= |ps|
    requires ProcessTokens(ps[..i], c, f).Failure?
    ensures ProcessTokens(ps, c, f) == ProcessTokens(ps[..i], c, f)
    decreases |ps| - i
  {
    if i < |ps| {
      var j := i + 1;
      assert ps[..j][..i] == ps[..i];
      ProcessTokensPrefixFailure(ps, j, c, f);
    } else {
      assert ps[..i] == ps;
    }
  }

  /** A process token is drawn exactly when the process row holds the keys the
      flags ask for; otherwise a missing key is reported. */
  lemma ProcessTokenSucceedsIff(p: Row, c: Palette, f: Flags)
    ensures ProcessToken(p, c, f).Success? <==> TokenKeysPresent(p, f)
    ensures ProcessToken(p, c, f).Failure? ==> ProcessToken(p, c, f).error.KeyError?
  {
  }

  /** The tokens are drawn exactly when every attached process can be drawn. */
  lemma {:induction false} ProcessTokensSucceedIff(ps: seq<Row>, c: Palette, f: Flags)
    ensures ProcessTokens(ps, c, f).Success? <==> forall i :: 0 <= i < |ps| ==> TokenKeysPresent(ps[i], f)
    decreases |ps|
  {
    if ps != [] {
      var n := |ps| - 1;
      ProcessTokensSucceedIff(ps[..n], c, f);
      ProcessTokenSucceedsIff(ps[n], c, f);
      assert forall i :: 0 <= i < n ==> ps[..n][i] == ps[i];
    }
  }

  /** The token of one process with colours off, step by step: the user name
      unless only the command is asked for; the command (the pid when `comm` is
      absent), after a `:` only when something precedes it; `/pid` when asked
      for; always the process memory as `(<mem>M)`. */
  lemma PlainToken(p: Row, f: Flags)
    requires TokenKeysPresent(p, f)
    ensures ProcessToken(p, Plain, f) == Success(
      var user := if !f.showCmd || f.showUser then p["user"] else "";
      var cmd := if f.showCmd then (if user != "" then user + ":" else user) + CommandOf(p) else user;
      var pid := if f.showPid then cmd + "/" + p["pid"] else cmd;
      pid + "(" + p["used_memory"] + "M" + ")")
  {
    var user := if !f.showCmd || f.showUser then p["user"] else "";
    PlainUserStep(p, f);
    var cmd := if f.showCmd then (if user != "" then user + ":" else user) + CommandOf(p) else user;
    PlainCmdStep(user, p, f);
    var pid := if f.showPid then cmd + "/" + p["pid"] else cmd;
    assert PidStep(cmd, p, f) == Success(pid);
    PlainMemStep(pid, p);
  }

  lemma PlainUserStep(p: Row, f: Flags)
    requires (!f.showCmd || f.showUser) ==> "user" in p
    ensures UserStep("", p, Plain, f) == Success(if !f.showCmd || f.showUser then p["user"] else "")
  {
    if !f.showCmd || f.showUser {
      assert "" + "" + p["user"] + "" == p["user"];
    }
  }

  lemma PlainCmdStep(r: string, p: Row, f: Flags)
    requires f.showCmd ==> "pid" in p
    ensures CmdStep(r, p, Plain, f) ==
      Success(if f.showCmd then (if r != "" then r + ":" else r) + CommandOf(p) else r)
  {
    if f.showCmd {
      var lead := if r != "" then r + ":" else r;
      assert lead + "" + CommandOf(p) + "" == lead + CommandOf(p);
    }
  }

  lemma PlainMemStep(r: string, p: Row)
    requires "used_memory" in p
    ensures MemStep(r, p, Plain) == Success(r + "(" + p["used_memory"] + "M" + ")")
  {
    assert r + "(" + "" + p["used_memory"] + "M" + "" + ")" == r + "(" + p["used_memory"] + "M" + ")";
  }

  /** A line is drawn exactly when the entry holds every field, temperature and
      utilisation read as integers, and every process can be drawn. */
  lemma DeviceLineSucceedsIff(entry: Row, ps: seq<Row>, f: Flags, width: nat)
    ensures DeviceLine(entry, ps, f, width).Success? <==>
      EntryRenderable(entry) && forall i :: 0 <= i < |ps| ==> TokenKeysPresent(ps[i], f)
  {
    if EntryRenderable(entry) {
      var c := EntryPalette(entry, f.withColors).value;
      ProcessTokensSucceedIff(ps, c, f);
    }
  }

  /** With colours off a device line is, field by field: `[index]`; a space,
      the name left-justified to the name width and ` |`; the temperature
      right-aligned to 3 and `'C, `; the utilisation right-aligned to 3 and
      ` % | `; memory used and total right-aligned to 5 around ` / ` and ` MB`;
      then ` |` and the process tokens. */
  lemma PlainLineLayout(entry: Row, ps: seq<Row>, f: Flags, width: nat)
    requires !f.withColors
    requires EntryRenderable(entry)
    requires ProcessTokens(ps, Plain, f).Success?
    ensures DeviceLine(entry, ps, f, width) == Success(
      ("[" + entry["index"] + "]")
      + (" " + LeftJustify(entry["name"], width) + " |")
      + (RightJustify(entry["temperature.gpu"], 3) + "'C" + ", ")
      + (RightJustify(entry["utilization.gpu"], 3) + " %" + " | ")
      + (RightJustify(entry["memory.used"], 5) + " / " + RightJustify(entry["memory.total"], 5) + " MB")
      + " |" + ProcessTokens(ps, Plain, f).value)
  {
    assert EntryPalette(entry, false) == Success(Plain);
    PlainHead(entry, width);
    var tokens := ProcessTokens(ps, Plain, f).value;
    assert DeviceLine(entry, ps, f, width) == Success(HeadOf(entry, Plain, width).value + " |" + tokens);
  }

  /** The head of a line drawn without colours, field by field. */
  lemma PlainHead(entry: Row, width: nat)
    requires HasLineFields(entry)
    ensures HeadOf(entry, Plain, width) == Success(
      ("[" + entry["index"] + "]")
      + (" " + LeftJustify(entry["name"], width) + " |")
      + (RightJustify(entry["temperature.gpu"], 3) + "'C" + ", ")
      + (RightJustify(entry["utilization.gpu"], 3) + " %" + " | ")
      + (RightJustify(entry["memory.used"], 5) + " / " + RightJustify(entry["memory.total"], 5) + " MB"))
  {
    var index, name := entry["index"], entry["name"];
    var temp, util := entry["temperature.gpu"], entry["utilization.gpu"];
    var used, total := entry["memory.used"], entry["memory.total"];
    assert IndexField(Plain, index) == "[" + index + "]";
    assert NameField(Plain, name, width) == " " + LeftJustify(name, width) + " |";
    assert TempField(Plain, temp) == RightJustify(temp, 3) + "'C" + ", ";
    assert UtilField(Plain, util) == RightJustify(util, 3) + " %" + " | ";
    assert MemoryField(Plain, used, total) == RightJustify(used, 5) + " / " + RightJustify(total, 5) + " MB";
  }

  /** A line ends in ` |` when no process is attached, and in the `)` of the
      last process token otherwise. */
  lemma LineEnding(entry: Row, ps: seq<Row>, f: Flags, width: nat)
    requires DeviceLine(entry, ps, f, width).Success?
    ensures var line := DeviceLine(entry, ps, f, width).value;
      && |line| >= 2
      && (ps == [] ==> line[|line| - 2..] == " |")
      && (ps != [] ==> line[|line| - 1] == ')')
  {
    LineOfParts(entry, ps, f, width);
    var c := EntryPalette(entry, f.withColors).value;
    var head := HeadOf(entry, c, width).value;
    var tokens := ProcessTokens(ps, c, f).value;
    var front := head + " |";
    assert front[|front| - 2..] == " |";
    if ps == [] {
      assert front + tokens == front;
    } else {
      TokensEndWithParen(ps, c, f);
      assert (front + tokens)[|front + tokens| - 1] == tokens[|tokens| - 1];
    }
  }

  /** The pieces a drawn line is made of: the palette, the head and the tokens
      all succeed, and the line is the head, ` |`, and the tokens. */
  lemma LineOfParts(entry: Row, ps: seq<Row>, f: Flags, width: nat)
    requires DeviceLine(entry, ps, f, width).Success?
    ensures EntryPalette(entry, f.withColors).Success?
    ensures var c := EntryPalette(entry, f.withColors).value;
      && HasLineFields(entry)
      && HeadOf(entry, c, width).Success?
      && ProcessTokens(ps, c, f).Success?
      && DeviceLine(entry, ps, f, width).value == HeadOf(entry, c, width).value + " |" + ProcessTokens(ps, c, f).value
  {
  }

  /** Every token closes with the `)` after the process memory. */
  lemma TokenEndsWithParen(p: Row, c: Palette, f: Flags)
    requires ProcessToken(p, c, f).Success?
    ensures var t := ProcessToken(p, c, f).value; |t| > 0 && t[|t| - 1] == ')'
  {
  }

  lemma TokensEndWithParen(ps: seq<Row>, c: Palette, f: Flags)
    requires ps != [] && ProcessTokens(ps, c, f).Success?
    ensures var t := ProcessTokens(ps, c, f).value; |t| > 0 && t[|t| - 1] == ')'
  {
    var n := |ps| - 1;
    TokenEndsWithParen(ps[n], c, f);
  }

  predicate EscapeFree(s: string) {
    ESC !in s
  }

  predicate RowEscapeFree(d: Row) {
    forall k :: k in d ==> EscapeFree(d[k])
  }

  /** With colours on, a drawn line starts with an escape sequence (the cyan of
      the index). */
  lemma ColoredLineStartsWithEscape(entry: Row, ps: seq<Row>, f: Flags, width: nat)
    requires f.withColors
    requires DeviceLine(entry, ps, f, width).Success?
    ensures var line := DeviceLine(entry, ps, f, width).value;
      |line| > 0 && line[0] == ESC
  {
    LineOfParts(entry, ps, f, width);
    var c := EntryPalette(entry, f.withColors).value;
    var head := HeadOf(entry, c, width).value;
    HeadStartsWithEscape(entry, c, width);
    assert (head + " |")[0] == ESC;
    assert (head + " |" + ProcessTokens(ps, c, f).value)[0] == ESC;
  }

  lemma HeadStartsWithEscape(entry: Row, c: Palette, width: nat)
    requires HasLineFields(entry) && c.c1 == CYAN
    ensures var head := HeadOf(entry, c, width).value; |head| > 0 && head[0] == ESC
  {
    var index, name := entry["index"], entry["name"];
    var temp, util := entry["temperature.gpu"], entry["utilization.gpu"];
    var used, total := entry["memory.used"], entry["memory.total"];
    var first := IndexField(c, index);
    assert first == CYAN + "[" + index + "]" + c.c0;
    assert (CYAN + "[")[0] == ESC;
    assert (CYAN + "[" + index)[0] == ESC;
    assert (CYAN + "[" + index + "]")[0] == ESC;
    assert (CYAN + "[" + index + "]" + c.c0)[0] == ESC;
    var h1 := first + NameField(c, name, width);
    assert h1[0] == ESC;
    var h2 := h1 + TempField(c, temp);
    assert h2[0] == ESC;
    var h3 := h2 + UtilField(c, util);
    assert h3[0] == ESC;
    assert (h3 + MemoryField(c, used, total))[0] == ESC;
  }

  lemma {:induction false} PlainTokensEscapeFree(ps: seq<Row>, f: Flags)
    requires forall i :: 0 <= i < |ps| ==> RowEscapeFree(ps[i])
    requires ProcessTokens(ps, Plain, f).Success?
    ensures EscapeFree(ProcessTokens(ps, Plain, f).value)
    decreases |ps|
  {
    if ps != [] {
      var n := |ps| - 1;
      assert forall i :: 0 <= i < n ==> ps[..n][i] == ps[i];
      PlainTokensEscapeFree(ps[..n], f);
      PlainTokenEscapeFree(ps[n], f);
    }
  }

  lemma PlainTokenEscapeFree(p: Row, f: Flags)
    requires RowEscapeFree(p)
    requires ProcessToken(p, Plain, f).Success?
    ensures EscapeFree(ProcessToken(p, Plain, f).value)
  {
    ProcessTokenSucceedsIff(p, Plain, f);
    PlainToken(p, f);
    if f.showCmd {
      assert EscapeFree(CommandOf(p));
    }
  }

  /** With colours off, a line built from escape-free fields holds no escape
      sequence at all. */
  lemma PlainLineHasNoEscape(entry: Row, ps: seq<Row>, f: Flags, width: nat)
    requires !f.withColors
    requires RowEscapeFree(entry) && forall i :: 0 <= i < |ps| ==> RowEscapeFree(ps[i])
    requires DeviceLine(entry, ps, f, width).Success?
    ensures EscapeFree(DeviceLine(entry, ps, f, width).value)
  {
    LineOfParts(entry, ps, f, width);
    assert EntryPalette(entry, false) == Success(Plain);
    PlainHeadEscapeFree(entry, width);
    PlainTokensEscapeFree(ps, f);
  }

  lemma PlainHeadEscapeFree(entry: Row, width: nat)
    requires HasLineFields(entry) && RowEscapeFree(entry)
    ensures EscapeFree(HeadOf(entry, Plain, width).value)
  {
    var index, name := entry["index"], entry["name"];
    var temp, util := entry["temperature.gpu"], entry["utilization.gpu"];
    var used, total := entry["memory.used"], entry["memory.total"];
    PlainFieldsEscapeFree(index, name, temp, util, used, total, width);
    assert HeadOf(entry, Plain, width).value == IndexField(Plain, index) + NameField(Plain, name, width)
      + TempField(Plain, temp) + UtilField(Plain, util) + MemoryField(Plain, used, total);
  }

  lemma PlainFieldsEscapeFree(index: string, name: string, temp: string, util: string, used: string, total: string, width: nat)
    requires EscapeFree(index) && EscapeFree(name) && EscapeFree(temp)
    requires EscapeFree(util) && EscapeFree(used) && EscapeFree(total)
    ensures EscapeFree(IndexField(Plain, index)) && EscapeFree(NameField(Plain, name, width))
    ensures EscapeFree(TempField(Plain, temp)) && EscapeFree(UtilField(Plain, util))
    ensures EscapeFree(MemoryField(Plain, used, total))
  {
    JustifyEscapeFree(name, width);
    JustifyEscapeFree(temp, 3);
    JustifyEscapeFree(util, 3);
    JustifyEscapeFree(used, 5);
    JustifyEscapeFree(total, 5);
  }

  /** Padding adds only spaces. */
  lemma JustifyEscapeFree(s: string, w: nat)
    requires EscapeFree(s)
    ensures EscapeFree(LeftJustify(s, w)) && EscapeFree(RightJustify(s, w))
  {
    if |s| < w {
      var pad := Spaces(w - |s|);
      assert ESC !in pad;
    }
  }
}
