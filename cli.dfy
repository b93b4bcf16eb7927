/** The command line front end: `nonnegative_int`, what `main` does with the
    parsed arguments, the watch loop and the single report. */
module Cli {

  import opened Base
  import opened Text
  import opened Device
  import opened Rows
  import opened OrderedDicts
  import opened Collection

  // ------------------------------------------------------- nonnegative_int

  const NEGATIVE_MESSAGE: string := "Only non-negative integers are allowed."

  /** Why argparse turned a `--gpuname-width` value down. */
  datatype Rejection =
    | NotAnInteger        // `int(value)` raised a ValueError
    | Negative(message: string)

  /** `nonnegative_int(value)`: `int(value)`, refused when below zero. */
  function NonnegativeInt(value: string): (r: Result<nat, Rejection>)
    ensures r.Success? <==> ParseInt(value).Some? && ParseInt(value).value >= 0
    ensures r.Success? ==> ParseInt(value) == Some(r.value as int)
    ensures r == Failure(NotAnInteger) <==> ParseInt(value).None?
    ensures r == Failure(Negative(NEGATIVE_MESSAGE)) <==> ParseInt(value).Some? && ParseInt(value).value < 0
  {
    match ParseInt(value)
    case None => Failure(NotAnInteger)
    case Some(v) => if v < 0 then Failure(Negative(NEGATIVE_MESSAGE)) else Success(v)
  }

  /** Every width written out in decimal is read back as itself. */
  lemma NonnegativeIntRoundTrip(n: nat)
    ensures NonnegativeInt(IntToString(n)) == Success(n)
  {
    ParseIntOfIntToString(n);
  }

  /** Every negative number written out in decimal is refused with the
      argument-type message. */
  lemma NegativeRefused(n: int)
    requires n < 0
    ensures NonnegativeInt(IntToString(n)) == Failure(Negative(NEGATIVE_MESSAGE))
  {
    ParseIntOfIntToString(n);
  }

  // ------------------------------------------------------------- dispatch

  const JSON_CONFLICT: string := "Error: --json and --interval/-i can't be used together.\n"

  /** What `main` goes on to do once the arguments are normalised. */
  datatype Mode =
    | Quit(code: int)       // `sys.exit(code)`
    | Watch(interval: real) // `loop_gpustat(**vars(args))`
    | Once                  // `print_gpustat(**vars(args))`

  /** `-i` given without a value means every second; left out it is 0. */
  function EffectiveInterval(given: Option<real>): real {
    if given.None? then 1.0 else given.value
  }

  /** The larger of two reals, as `max`. */
  function MaxReal(a: real, b: real): (m: real)
    ensures m >= a && m >= b && (m == a || m == b)
  {
    if a < b then b else a
  }

  /** The decision `main` takes from `--json` and `--interval`. */
  function Dispatch(json: bool, given: Option<real>): (m: Mode)
    ensures m.Quit? <==> json && EffectiveInterval(given) > 0.0
    ensures m.Quit? ==> m.code == 1
    ensures m.Watch? <==> !json && EffectiveInterval(given) > 0.0
    ensures m.Watch? ==> m.interval >= 0.1 && m.interval >= EffectiveInterval(given)
    ensures m.Watch? ==> m.interval == MaxReal(0.1, EffectiveInterval(given))
    ensures m.Watch? && EffectiveInterval(given) >= 0.1 ==> m.interval == EffectiveInterval(given)
    ensures m.Once? <==> EffectiveInterval(given) <= 0.0
    ensures given.None? ==> m == if json then Quit(1) else Watch(1.0)
  {
    var i := EffectiveInterval(given);
    if i > 0.0 then
      if json then Quit(1) else Watch(MaxReal(0.1, i))
    else Once
  }

  /** The `args` namespace `parse_args` returns. `main` rebinds the
      `show_*` flags and `interval` and deletes `show_all` and, for a single
      report, `interval`; a deleted key is one whose `has…` flag is off.
      The options `main` never touches are constants. */
  class Namespace {
    var hasShowAll: bool
    var showAll: bool
    var showCmd: bool
    var showUser: bool
    var showPid: bool
    var showFanSpeed: bool
    var showCodec: string
    var showPower: Option<string>
    var hasInterval: bool
    var interval: Option<real>
    const json: bool
    const debug: bool
    const forceColor: bool
    const noColor: bool
    const showFullCmd: bool
    const showHeader: bool
    const gpunameWidth: Option<nat>
    const noProcesses: bool

    /** The namespace as `parse_args` leaves it: every key present. */
    constructor (showAll: bool, showCmd: bool, showUser: bool, showPid: bool, showFanSpeed: bool,
                 showCodec: string, showPower: Option<string>, interval: Option<real>,
                 json: bool, debug: bool, forceColor: bool, noColor: bool, showFullCmd: bool,
                 showHeader: bool, gpunameWidth: Option<nat>, noProcesses: bool)
      ensures this.hasShowAll && this.hasInterval
      ensures this.showAll == showAll && this.showCmd == showCmd && this.showUser == showUser
      ensures this.showPid == showPid && this.showFanSpeed == showFanSpeed
      ensures this.showCodec == showCodec && this.showPower == showPower && this.interval == interval
      ensures this.json == json && this.debug == debug && this.forceColor == forceColor
      ensures this.noColor == noColor && this.showFullCmd == showFullCmd && this.showHeader == showHeader
      ensures this.gpunameWidth == gpunameWidth && this.noProcesses == noProcesses
    {
      this.hasShowAll := true;
      this.showAll := showAll;
      this.showCmd := showCmd;
      this.showUser := showUser;
      this.showPid := showPid;
      this.showFanSpeed := showFanSpeed;
      this.showCodec := showCodec;
      this.showPower := showPower;
      this.hasInterval := true;
      this.interval := interval;
      this.json := json;
      this.debug := debug;
      this.forceColor := forceColor;
      this.noColor := noColor;
      this.showFullCmd := showFullCmd;
      this.showHeader := showHeader;
      this.gpunameWidth := gpunameWidth;
      this.noProcesses := noProcesses;
    }

    /** The `show_*` settings `-a` stands for are all on. */
    predicate ShowsAll()
      reads this
    {
      showCmd && showUser && showPid && showFanSpeed && showCodec == "enc,dec" && showPower == Some("draw,limit")
    }
  }

  /** The part of `main` after `parse_args`: expand `--show-all`, settle the
      interval and decide between the watch loop, a single report and
      refusing `--json` with `--interval`, whose message goes to `errs`. */
  method NormaliseArgs(args: Namespace, errs: Stream) returns (mode: Mode)
    requires args.hasShowAll && args.hasInterval
    modifies args, errs
    ensures mode == Dispatch(args.json, old(args.interval))
    ensures errs.text == old(errs.text) + (if mode.Quit? then JSON_CONFLICT else "")
    ensures !args.hasShowAll
    ensures old(args.showAll) ==> args.ShowsAll()
    ensures !old(args.showAll) ==>
      && args.showCmd == old(args.showCmd) && args.showUser == old(args.showUser)
      && args.showPid == old(args.showPid) && args.showFanSpeed == old(args.showFanSpeed)
      && args.showCodec == old(args.showCodec) && args.showPower == old(args.showPower)
    ensures args.hasInterval <==> !mode.Once?
    ensures mode.Watch? ==> args.interval == Some(mode.interval)
    ensures args.hasInterval ==> args.interval == Some(MaxReal(0.1, EffectiveInterval(old(args.interval))))
  {
    if args.showAll {
      args.showCmd := true;
      args.showUser := true;
      args.showPid := true;
      args.showFanSpeed := true;
      args.showCodec := "enc,dec";
      args.showPower := Some("draw,limit");
    }
    args.hasShowAll := false;

    if args.interval.None? {
      args.interval := Some(1.0);
    }
    if args.interval.value > 0.0 {
      args.interval := Some(MaxReal(0.1, args.interval.value));
      if args.json {
        errs.Write(JSON_CONFLICT);
        return Quit(1);
      }
      mode := Watch(args.interval.value);
    } else {
      args.hasInterval := false;
      mode := Once;
    }
  }

  // --------------------------------------------------------- print_gpustat

  const QUERY_ERROR: string := "Error on querying NVIDIA devices. Use --debug flag for details\n"

  /** How a call of `print_gpustat` ended. */
  datatype Status =
    | Printed            // the formatted report was written whole
    | JsonRequested      // `print_json` was called; it is not part of this model
    | Exited(code: int)  // `sys.exit(code)` after a failed query
    | Raised(error: PyError) // `print_formatted` raised

  /** `print_formatted` on the devices `ds` with flags `f`, printing to
      stdout, took its text from `before` to `after` and ended with `status`:
      the header line is written first; then the name width fails and no
      body is written, or the body is written and the first error met while
      writing it, if any, is raised. */
  predicate Reported(ds: seq<GPUStat>, f: Flags, header: string, before: string, after: string, status: Status)
    reads set d | d in ds
  {
    match NameWidth(Entries(ds))
    case Failure(e) => status == Raised(e) && after == before + header + "\n"
    case Success(w) =>
      var body := Body(ds, f, w);
      && after == before + header + "\n" + body.text
      && status == if body.error.Some? then Raised(body.error.value) else Printed
  }

  /** `print_gpustat`: query, and on any exception write the query error to
      `errs` and exit with 1; otherwise print JSON or the formatted report.
      `c` is the collection the query built, and `header` the header message
      `print_formatted` renders from the host name and the query time. */
  method PrintGpustat(json: bool, noColor: bool, showCmd: bool, showUser: bool, showPid: bool, header: string,
                      gpuOutput: string, appsOutput: string, psOutput: string, out: Stream, errs: Stream)
    returns (status: Status, ghost c: GPUStatCollection?)
    requires out != errs
    modifies out, errs
    ensures QueryError(gpuOutput, appsOutput, psOutput).Some? ==>
      && status == Exited(1) && c == null
      && errs.text == old(errs.text) + QUERY_ERROR && out.text == old(out.text)
    ensures QueryError(gpuOutput, appsOutput, psOutput).None? ==>
      && c != null && fresh(c) && c.Valid() && QueriedFrom(c, gpuOutput, appsOutput, psOutput)
      && errs.text == old(errs.text)
      && (json ==> status == JsonRequested && out.text == old(out.text))
      && (!json ==> Reported(c.Devices(), Flags(!noColor, showCmd, showUser, showPid), header, old(out.text), out.text, status))
  {
    var query := NewQuery(gpuOutput, appsOutput, psOutput);
    if query.Failure? {
      errs.Write(QUERY_ERROR);
      return Exited(1), null;
    }
    c := query.value;
    status := Report(query.value, json, noColor, showCmd, showUser, showPid, header, out);
  }

  /** The second half of `print_gpustat`, once the query succeeded: JSON is
      requested, or the formatted report, header line first, is printed to
      `out`, which is stdout. */
  method Report(stats: GPUStatCollection, json: bool, noColor: bool, showCmd: bool, showUser: bool, showPid: bool,
                header: string, out: Stream)
    returns (status: Status)
    requires stats.Valid()
    modifies out
    ensures json ==> status == JsonRequested && out.text == old(out.text)
    ensures !json ==> Reported(stats.Devices(), Flags(!noColor, showCmd, showUser, showPid), header, old(out.text), out.text, status)
  {
    if json {
      return JsonRequested;
    }
    var err := stats.PrintFormatted(out, out, header, noColor, showCmd, showUser, showPid);
    status := if err.Some? then Raised(err.value) else Printed;
  }

  // ---------------------------------------------------------- loop_gpustat

  /** One pass of the watch loop: how its `print_gpustat` ended and how long
      the query took, or a keyboard interrupt. */
  datatype Tick = Tick(status: Status, duration: real) | Interrupt

  /** Where the loop stands after a run of ticks. */
  datatype LoopEnd =
    | Returned(value: int)  // `return 0` on a keyboard interrupt
    | Ended(status: Status) // `print_gpustat` exited or raised out of the loop
    | Running               // still looping

  /** `interval - query_duration` when it is positive: the time slept. */
  function SleepDuration(interval: real, duration: real): (r: Option<real>)
    ensures r.Some? <==> duration < interval
    ensures r.Some? ==> r.value > 0.0 && r.value + duration == interval
  {
    var s := interval - duration;
    if s > 0.0 then Some(s) else None
  }

  /** The loop goes on after a report that was written or handed to JSON. */
  predicate Continues(s: Status) {
    s.Printed? || s.JsonRequested?
  }

  /** The sleeps taken and where the loop stands after these ticks. */
  function Run(interval: real, ticks: seq<Tick>): (seq<real>, LoopEnd)
    decreases |ticks|
  {
    if ticks == [] then ([], Running)
    else
      var n := |ticks| - 1;
      var before := Run(interval, ticks[..n]);
      if !before.1.Running? then before
      else
        match ticks[n]
        case Interrupt => (before.0, Returned(0))
        case Tick(s, d) =>
          if !Continues(s) then (before.0, Ended(s))
          else
            match SleepDuration(interval, d)
            case None => before
            case Some(z) => (before.0 + [z], Running)
  }

  /** `loop_gpustat` over a finite run of ticks: the sleeps it takes and how
      it ends, or `Running` when the ticks run out first. */
  method LoopGpustat(interval: real, ticks: seq<Tick>) returns (sleeps: seq<real>, end: LoopEnd)
    ensures (sleeps, end) == Run(interval, ticks)
  {
    sleeps := [];
    var i := 0;
    while i < |ticks|
      invariant 0 <= i <= |ticks|
      invariant Run(interval, ticks[..i]) == (sleeps, Running)
    {
      assert ticks[..i + 1][..i] == ticks[..i];
      match ticks[i]
      case Interrupt =>
        RunStopped(interval, ticks, i + 1);
        return sleeps, Returned(0);
      case Tick(s, d) =>
        if !Continues(s) {
          RunStopped(interval, ticks, i + 1);
          return sleeps, Ended(s);
        }
        var z := SleepDuration(interval, d);
        if z.Some? {
          sleeps := sleeps + [z.value];
        }
      i := i + 1;
    }
    assert ticks[..i] == ticks;
    end := Running;
  }

  /** Once the loop has stopped, later ticks change nothing. */
  lemma {:induction false} RunStopped(interval: real, ticks: seq<Tick>, i: nat)
    requires i <= |ticks|
    requires !Run(interval, ticks[..i]).1.Running?
    ensures Run(interval, ticks) == Run(interval, ticks[..i])
    decreases |ticks| - i
  {
    if i < |ticks| {
      assert ticks[..i + 1][..i] == ticks[..i];
      RunStopped(interval, ticks, i + 1);
    } else {
      assert ticks[..i] == ticks;
    }
  }

  /** A keyboard interrupt after reports that all went through makes the
      loop return 0. */
  lemma InterruptReturnsZero(interval: real, ticks: seq<Tick>, i: nat)
    requires i < |ticks| && ticks[i] == Interrupt
    requires forall j :: 0 <= j < i ==> ticks[j].Tick? && Continues(ticks[j].status)
    ensures Run(interval, ticks).1 == Returned(0)
  {
    RunKeepsGoing(interval, ticks[..i]);
    assert ticks[..i + 1][..i] == ticks[..i];
    RunStopped(interval, ticks, i + 1);
  }

  /** Reports that all went through keep the loop running. */
  lemma {:induction false} RunKeepsGoing(interval: real, ticks: seq<Tick>)
    requires forall j :: 0 <= j < |ticks| ==> ticks[j].Tick? && Continues(ticks[j].status)
    ensures Run(interval, ticks).1 == Running
    decreases |ticks|
  {
    if ticks != [] {
      var n := |ticks| - 1;
      assert forall j :: 0 <= j < n ==> ticks[..n][j] == ticks[j];
      RunKeepsGoing(interval, ticks[..n]);
    }
  }

  /** Every sleep is positive, at most one per tick, and no longer than the
      interval when queries take no negative time. */
  lemma {:induction false} SleepsBounded(interval: real, ticks: seq<Tick>)
    ensures |Run(interval, ticks).0| <= |ticks|
    ensures forall z :: z in Run(interval, ticks).0 ==> z > 0.0
    ensures (forall j :: 0 <= j < |ticks| && ticks[j].Tick? ==> ticks[j].duration >= 0.0) ==>
      forall z :: z in Run(interval, ticks).0 ==> z <= interval
    decreases |ticks|
  {
    if ticks != [] {
      var n := |ticks| - 1;
      assert forall j :: 0 <= j < n ==> ticks[..n][j] == ticks[j];
      SleepsBounded(interval, ticks[..n]);
    }
  }

  /** A pass whose query took at least the interval does not sleep. */
  lemma SlowTickNoSleep(interval: real, ticks: seq<Tick>, s: Status, d: real)
    requires Run(interval, ticks).1.Running? && Continues(s) && d >= interval
    ensures Run(interval, ticks + [Tick(s, d)]) == Run(interval, ticks)
  {
    assert (ticks + [Tick(s, d)])[..|ticks|] == ticks;
  }
}
