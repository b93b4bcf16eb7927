/** The devices of one query (`GPUStatCollection`): kept in an `OrderedDict`
    keyed by uuid, with the running processes attached to them, and the body of
    the table `print_formatted` writes. */
module Collection {

  import opened Base
  import opened Text
  import opened Rows
  import opened Device
  import opened OrderedDicts

  // ---------------------------------------------------------------- uuids

  /** The entry of each device, in order. */
  function Entries(gpuList: seq<GPUStat>): (r: seq<Row>)
    ensures |r| == |gpuList|
    ensures forall i :: 0 <= i < |r| ==> r[i] == gpuList[i].entry
  {
    seq(|gpuList|, i requires 0 <= i < |gpuList| => gpuList[i].entry)
  }

  /** `e['uuid']` for each entry in turn; the first entry without one raises. */
  function UuidsOf(entries: seq<Row>): (r: Result<seq<string>, PyError>)
    ensures r.Success? <==> forall i :: 0 <= i < |entries| ==> "uuid" in entries[i]
    ensures r.Success? ==> |r.value| == |entries| && forall i :: 0 <= i < |entries| ==> r.value[i] == entries[i]["uuid"]
    ensures r.Failure? ==> r.error == KeyError("uuid")
    decreases |entries|
  {
    if entries == [] then Success([])
    else
      var n := |entries| - 1;
      var us :- UuidsOf(entries[..n]);
      var u :- Get(entries[n], "uuid");
      assert forall i :: 0 <= i < n ==> entries[..n][i] == entries[i];
      Success(us + [u])
  }

  // ---------------------------------------------------------------- attaching processes

  /** `self.gpus[p['gpu_uuid']]` finds a device: the row has a `gpu_uuid` and
      a device is stored under it. */
  predicate Matched(p: Row, keys: set<string>) {
    "gpu_uuid" in p && p["gpu_uuid"] in keys
  }

  /** The uuid of the device `g` names when each process is attached: the
      device the process names when it names one, otherwise the one `g` still
      holds from the process before (the `KeyError` is swallowed). For the first
      process there is none, and `g.add_process` raises `UnboundLocalError`. */
  function Targets(ps: seq<Row>, keys: set<string>): (r: Result<seq<string>, PyError>)
    ensures r.Success? ==> |r.value| == |ps|
    decreases |ps|
  {
    if ps == [] then Success([])
    else
      var n := |ps| - 1;
      var ts :- Targets(ps[..n], keys);
      if Matched(ps[n], keys) then Success(ts + [ps[n]["gpu_uuid"]])
      else if ts == [] then Failure(UnboundLocalError("g"))
      else Success(ts + [ts[|ts| - 1]])
  }

  /** The processes attached to the device under `u`, in list order. */
  function Attached(ps: seq<Row>, ts: seq<string>, u: string): seq<Row>
    requires |ps| == |ts|
    decreases |ps|
  {
    if ps == [] then []
    else
      var n := |ps| - 1;
      Attached(ps[..n], ts[..n], u) + (if ts[n] == u then [ps[n]] else [])
  }

  /** `update_process_information()` for a collection with these uuids: the
      running processes and the uuid each one is attached to. */
  function Attachment(appsOutput: string, psOutput: string, keys: set<string>): (r: Result<(seq<Row>, seq<string>), PyError>)
    ensures r.Success? ==> |r.value.0| == |r.value.1|
  {
    var ps :- RunningProcessesOf(appsOutput, psOutput);
    var ts :- Targets(ps, keys);
    Success((ps, ts))
  }

  // ---------------------------------------------------------------- the body

  /** What `print_formatted` has written once its body loop stops, and the
      exception that stopped it, if any. */
  datatype Written = Written(text: string, error: Option<PyError>)

  /** The body loop: for each device its line and a line break, until a device
      whose line raises; nothing of that device's line is written. */
  function Body(ds: seq<GPUStat>, f: Flags, width: nat): Written
    reads set g | g in ds
    decreases |ds|
  {
    if ds == [] then Written("", None)
    else
      var n := |ds| - 1;
      var before := Body(ds[..n], f, width);
      if before.error.Some? then before
      else
        match DeviceLine(ds[n].entry, ds[n].processes, f, width)
        case Success(line) => Written(before.text + line + "\n", None)
        case Failure(e) => Written(before.text, Some(e))
  }

  /** `max([16] + [len(e['name']) for e in entries])`; the list is built first,
      so an entry without a name raises. */
  function NameWidth(entries: seq<Row>): Result<nat, PyError>
    decreases |entries|
  {
    if entries == [] then Success(16)
    else
      var n := |entries| - 1;
      var w :- NameWidth(entries[..n]);
      var name :- Get(entries[n], "name");
      Success(if w < |name| then |name| else w)
  }

  // ---------------------------------------------------------------- the collection

  class GPUStatCollection {
    var gpus: Ordered<GPUStat>

    /** The dict is well ordered and each device sits under its own uuid. */
    predicate Valid()
      reads this
    {
      && WellOrdered(gpus)
      && forall k :: k in gpus.items ==> gpus.items[k].Uuid() == Success(k)
    }

    /** `self.gpus = OrderedDict()`. */
    constructor ()
      ensures gpus == Ordered([], map[]) && Valid()
    {
      gpus := Ordered([], map[]);
    }

    /** `self.gpus[g.uuid] = g`: raises when the device has no uuid. */
    method Put(g: GPUStat) returns (err: Option<PyError>)
      requires Valid()
      modifies this
      ensures Valid()
      ensures g.Uuid().Failure? ==> err == Some(g.Uuid().error) && gpus == old(gpus)
      ensures g.Uuid().Success? ==> err == None && gpus == Store(old(gpus), g.Uuid().value, g)
    {
      var u := g.Uuid();
      if u.Failure? {
        return Some(u.error);
      }
      StoreWellOrdered(gpus, u.value, g);
      gpus := Store(gpus, u.value, g);
      err := None;
    }

    /** `len(self)`: the number of devices. */
    function Len(): (n: nat)
      reads this
      requires Valid()
      ensures n == |gpus.order|
    {
      WellOrderedSize(gpus);
      |gpus.items|
    }

    /** `iter(self)`: the devices in the order their uuids were first stored,
        each the device stored under that uuid. */
    function Devices(): (ds: seq<GPUStat>)
      reads this
      requires Valid()
      ensures |ds| == |gpus.order|
      ensures forall i :: 0 <= i < |ds| ==> ds[i] == gpus.items[gpus.order[i]] && ds[i].Uuid() == Success(gpus.order[i])
    {
      seq(|gpus.order|, i requires 0 <= i < |gpus.order| && Valid() reads this => gpus.items[gpus.order[i]])
    }

    /** `self[index]`: the device at that place in iteration order, counting
        from the end when the index is negative. */
    function GetItem(index: int): (r: Result<GPUStat, PyError>)
      reads this
      requires Valid()
      ensures r.Success? <==> -(Len() as int) <= index < Len()
      ensures r.Success? ==> r.value == Devices()[if index < 0 then index + Len() else index]
      ensures r.Failure? ==> r.error == IndexError("list index out of range")
    {
      var ds := Devices();
      if 0 <= index < |ds| then Success(ds[index])
      else if -|ds| <= index < 0 then Success(ds[|ds| + index])
      else Failure(IndexError("list index out of range"))
    }

    /** `update_process_information()`: attaches each running process to the
        device its `gpu_uuid` names, or else to the device the process before
        went to. */
    method UpdateProcessInformation(appsOutput: string, psOutput: string) returns (err: Option<PyError>)
      requires Valid()
      modifies set k | k in gpus.items :: gpus.items[k]
      ensures match Attachment(appsOutput, psOutput, gpus.items.Keys)
        case Failure(e) =>
          && err == Some(e)
          && forall k :: k in gpus.items ==> gpus.items[k].processes == old(gpus.items[k].processes)
        case Success(pt) =>
          && err == None
          && forall k :: k in gpus.items ==> gpus.items[k].processes == old(gpus.items[k].processes) + Attached(pt.0, pt.1, k)
    {
      var running := RunningProcesses(appsOutput, psOutput);
      if running.Failure? {
        return Some(running.error);
      }
      err := AttachProcesses(running.value);
    }

    /** The loop of `update_process_information` over the running processes:
        `g` keeps the device last found, and each process goes to `g`. */
    method AttachProcesses(ps: seq<Row>) returns (err: Option<PyError>)
      requires Valid()
      modifies set k | k in gpus.items :: gpus.items[k]
      ensures match Targets(ps, gpus.items.Keys)
        case Failure(e) =>
          && err == Some(e)
          && forall k :: k in gpus.items ==> gpus.items[k].processes == old(gpus.items[k].processes)
        case Success(ts) =>
          && err == None
          && forall k :: k in gpus.items ==> gpus.items[k].processes == old(gpus.items[k].processes) + Attached(ps, ts, k)
    {
      var items := gpus.items;
      ghost var start := map k | k in items :: items[k].processes;
      ghost var keys := items.Keys;
      var g: Option<GPUStat> := None;
      ghost var ts: seq<string> := [];
      for i := 0 to |ps|
        invariant Targets(ps[..i], keys) == Success(ts)
        invariant |ts| == i
        invariant g.None? <==> i == 0
        invariant g.Some? ==> ts[i - 1] in items && g.value == items[ts[i - 1]]
        invariant forall k :: k in items ==> items[k].processes == start[k] + Attached(ps[..i], ts, k)
      {
        var p := ps[i];
        if "gpu_uuid" in p && p["gpu_uuid"] in items {
          g := Some(items[p["gpu_uuid"]]);
        }
        if g.None? {
          TargetsStep(ps, i, keys, ts);
          TargetsPrefixFailure(ps, i + 1, keys);
          return Some(UnboundLocalError("g"));
        }
        ghost var t := if Matched(p, keys) then p["gpu_uuid"] else ts[i - 1];
        TargetsNext(ps, i, keys, ts, t);
        assert g.value == items[t] && g.value.Uuid() == Success(t);
        label Before:
        var _ := g.value.AddProcess(p);
        forall k | k in items
          ensures items[k].processes == start[k] + Attached(ps[..i + 1], ts + [t], k)
        {
          AttachedStep(ps, ts, i, t, k);
          if k == t {
            assert items[k].processes == old@Before(items[k].processes) + [p];
            AppendAssoc(start[k], Attached(ps[..i], ts, k), [p]);
          } else {
            assert items[k].Uuid() == Success(k);
            assert items[k] != g.value;
          }
        }
        ts := ts + [t];
      }
      assert ps[..|ps|] == ps;
      err := None;
    }

    /** `print_formatted`: `print(header_msg)` writes the header line to
        `stdout`, then `PrintDevices` writes the devices to `fp`. `header` is
        the header message as rendered (host name and query time); `fp` may
        be `stdout` itself, as it is for `print_gpustat`. */
    method PrintFormatted(fp: Stream, stdout: Stream, header: string,
                          noColor: bool, showCmd: bool, showUser: bool, showPid: bool)
      returns (err: Option<PyError>)
      requires Valid()
      modifies fp, stdout
      ensures fp == stdout ==>
        DevicesPrinted(Devices(), Flags(!noColor, showCmd, showUser, showPid), old(fp.text) + header + "\n", fp.text, err)
      ensures fp != stdout ==>
        && stdout.text == old(stdout.text) + header + "\n"
        && DevicesPrinted(Devices(), Flags(!noColor, showCmd, showUser, showPid), old(fp.text), fp.text, err)
    {
      ghost var ds := Devices();
      ghost var start := if fp == stdout then fp.text + header + "\n" else fp.text;
      stdout.Write(header + "\n");
      assert fp.text == start;
      assert Devices() == ds;
      var f := Flags(!noColor, showCmd, showUser, showPid);
      err := PrintDevices(fp, f);
      assert DevicesPrinted(ds, f, start, fp.text, err);
    }

    /** The body of `print_formatted`: the name width over every device, then
        each device's line followed by a line break. */
    method PrintDevices(fp: Stream, f: Flags) returns (err: Option<PyError>)
      requires Valid()
      modifies fp
      ensures DevicesPrinted(Devices(), f, old(fp.text), fp.text, err)
    {
      var ds := Devices();
      var width := NameWidth(Entries(ds));
      if width.Failure? {
        return Some(width.error);
      }
      err := PrintBody(fp, ds, f, width.value);
    }
  }

  /** Printing the devices `ds` with flags `f` took the text of `fp` from
      `before` to `after` and returned `err`: when the name width raises,
      that error and nothing written; otherwise the body `Body` draws and
      the exception it met, if any. */
  predicate DevicesPrinted(ds: seq<GPUStat>, f: Flags, before: string, after: string, err: Option<PyError>)
    reads set d | d in ds
  {
    match NameWidth(Entries(ds))
    case Failure(e) => err == Some(e) && after == before
    case Success(w) => err == Body(ds, f, w).error && after == before + Body(ds, f, w).text
  }

  /** The body loop of `print_formatted`: `g.print_to(fp, ...)` then
      `fp.write('\n')` for each device in turn. */
  method PrintBody(fp: Stream, ds: seq<GPUStat>, f: Flags, w: nat) returns (err: Option<PyError>)
    modifies fp
    ensures err == Body(ds, f, w).error
    ensures fp.text == old(fp.text) + Body(ds, f, w).text
  {
    for i := 0 to |ds|
      invariant Body(ds[..i], f, w).error == None
      invariant fp.text == old(fp.text) + Body(ds[..i], f, w).text
    {
      var e := PrintStep(fp, ds, i, f, w, old(fp.text));
      if e.Some? {
        BodyPrefixFailure(ds, i + 1, f, w);
        return e;
      }
    }
    assert ds[..|ds|] == ds;
    err := None;
  }

  /** One pass of the body loop: device `i` prints its line, and the line
      break follows when it was drawn, so the text written so far after
      `base` is the body of the first `i + 1` devices. */
  method PrintStep(fp: Stream, ds: seq<GPUStat>, i: nat, f: Flags, w: nat, ghost base: string)
    returns (e: Option<PyError>)
    requires i < |ds| && Body(ds[..i], f, w).error == None
    requires fp.text == base + Body(ds[..i], f, w).text
    modifies fp
    ensures e == Body(ds[..i + 1], f, w).error
    ensures fp.text == base + Body(ds[..i + 1], f, w).text
  {
    ghost var before := Body(ds[..i], f, w).text;
    ghost var line := DeviceLine(ds[i].entry, ds[i].processes, f, w);
    BodyStep(ds, i, f, w);
    e := ds[i].PrintTo(fp, f, w);
    if e.None? {
      fp.Write("\n");
      Regroup(base, before, line.value, "\n");
    }
  }

  // ---------------------------------------------------------------- building a collection

  /** `GPUStatCollection(gpu_list)`: each device stored under its uuid in turn,
      then the running processes attached. A device that a later one with the
      same uuid replaces is not in the collection. */
  method NewCollection(gpuList: seq<GPUStat>, appsOutput: string, psOutput: string)
    returns (r: Result<GPUStatCollection, PyError>)
    modifies set g | g in gpuList
    ensures match UuidsOf(Entries(gpuList))
      case Failure(e) => r == Failure(e)
      case Success(uuids) =>
        var table := Build(uuids, gpuList);
        match Attachment(appsOutput, psOutput, table.items.Keys)
        case Failure(e) => r == Failure(e)
        case Success(pt) =>
          && r.Success? && fresh(r.value) && r.value.Valid() && r.value.gpus == table
          && (forall k :: k in uuids ==>
               table.items[k].processes == old(gpuList[LastIndex(uuids, k)].processes) + Attached(pt.0, pt.1, k))
          && ((forall j :: 0 <= j < |gpuList| ==> old(gpuList[j].processes) == []) ==>
               forall k :: k in uuids ==> table.items[k].processes == Attached(pt.0, pt.1, k))
  {
    var built := StoreAll(gpuList);
    if built.Failure? {
      return Failure(built.error);
    }
    var c := built.value;
    ghost var uuids := UuidsOf(Entries(gpuList)).value;
    TableOfDevices(gpuList, uuids);
    var err := c.UpdateProcessInformation(appsOutput, psOutput);
    if err.Some? {
      return Failure(err.value);
    }
    r := Success(c);
  }

  /** The loop of `GPUStatCollection.__init__` that stores each device under
      its uuid. */
  method StoreAll(gpuList: seq<GPUStat>) returns (r: Result<GPUStatCollection, PyError>)
    ensures match UuidsOf(Entries(gpuList))
      case Failure(e) => r == Failure(e)
      case Success(uuids) => r.Success? && fresh(r.value) && r.value.Valid() && r.value.gpus == Build(uuids, gpuList)
  {
    var c := new GPUStatCollection();
    ghost var uuids: seq<string> := [];
    for i := 0 to |gpuList|
      invariant UuidsOf(Entries(gpuList[..i])) == Success(uuids)
      invariant fresh(c) && c.Valid() && c.gpus == Build(uuids, gpuList[..i])
    {
      var err := c.Put(gpuList[i]);
      UuidsStep(gpuList, i, uuids);
      if err.Some? {
        UuidsPrefixFailure(gpuList, i + 1);
        return Failure(err.value);
      }
      BuildStep(uuids, gpuList, i);
      uuids := uuids + [gpuList[i].Uuid().value];
    }
    assert gpuList[..|gpuList|] == gpuList;
    r := Success(c);
  }

  /** The exception `new_query` raises on these outputs, if any. */
  function QueryError(gpuOutput: string, appsOutput: string, psOutput: string): Option<PyError> {
    var rows := RowsOf(Split(Strip(gpuOutput), '\n'), GPU_COLUMNS);
    match UuidsOf(rows)
    case Failure(e) => Some(e)
    case Success(uuids) =>
      match Attachment(appsOutput, psOutput, Build(uuids, rows).items.Keys)
      case Failure(e) => Some(e)
      case Success(_) => None
  }

  /** `c` is the collection `new_query` builds from these outputs: the uuids
      of the stripped device query in first-insertion order, under each the
      device of the row stored last for it, carrying exactly the running
      processes attached to it. */
  predicate QueriedFrom(c: GPUStatCollection, gpuOutput: string, appsOutput: string, psOutput: string)
    requires QueryError(gpuOutput, appsOutput, psOutput).None?
    reads c, set k | k in c.gpus.items :: c.gpus.items[k]
  {
    var rows := RowsOf(Split(Strip(gpuOutput), '\n'), GPU_COLUMNS);
    var uuids := UuidsOf(rows).value;
    var table := Build(uuids, rows);
    var pt := Attachment(appsOutput, psOutput, table.items.Keys).value;
    && c.gpus.order == table.order
    && forall k :: k in uuids ==>
         && k in c.gpus.items
         && c.gpus.items[k].entry == table.items[k]
         && c.gpus.items[k].processes == Attached(pt.0, pt.1, k)
  }

  /** `GPUStatCollection.new_query()` on the two query outputs and the `ps`
      listing: a device per non-empty line of the stripped device query, then
      the collection of those devices. */
  method NewQuery(gpuOutput: string, appsOutput: string, psOutput: string)
    returns (r: Result<GPUStatCollection, PyError>)
    ensures r.Success? ==> fresh(r.value) && r.value.Valid()
    ensures r.Failure? <==> QueryError(gpuOutput, appsOutput, psOutput).Some?
    ensures r.Failure? ==> QueryError(gpuOutput, appsOutput, psOutput) == Some(r.error)
    ensures r.Success? ==> QueriedFrom(r.value, gpuOutput, appsOutput, psOutput)
  {
    var rows := ParseRows(Strip(gpuOutput), GPU_COLUMNS);
    var gpuList := NewDevices(rows);
    assert Entries(gpuList) == rows;
    label Made:
    r := NewCollection(gpuList, appsOutput, psOutput);
    if UuidsOf(rows).Success? {
      ghost var uuids := UuidsOf(rows).value;
      SameTable(gpuList, rows, uuids);
      ghost var table := Build(uuids, rows);
      assert table.items.Keys == Build(uuids, gpuList).items.Keys;
    }
  }

  /** `GPUStat(row)` for each row, in order. */
  method NewDevices(rows: seq<Row>) returns (gpuList: seq<GPUStat>)
    ensures |gpuList| == |rows|
    ensures forall j :: 0 <= j < |rows| ==> fresh(gpuList[j]) && gpuList[j].entry == rows[j] && gpuList[j].processes == []
  {
    gpuList := [];
    for i := 0 to |rows|
      invariant |gpuList| == i
      invariant forall j :: 0 <= j < i ==> fresh(gpuList[j]) && gpuList[j].entry == rows[j] && gpuList[j].processes == []
    {
      var g := new GPUStat(rows[i]);
      gpuList := gpuList + [g];
    }
  }

  // ---------------------------------------------------------------- lemmas

  /** One more device stored in the collection loop. */
  lemma UuidsStep(gpuList: seq<GPUStat>, i: nat, uuids: seq<string>)
    requires i < |gpuList|
    requires UuidsOf(Entries(gpuList[..i])) == Success(uuids)
    ensures UuidsOf(Entries(gpuList[..i + 1])) ==
      match gpuList[i].Uuid()
      case Success(u) => Success(uuids + [u])
      case Failure(e) => Failure(e)
  {
    assert Entries(gpuList[..i + 1])[..i] == Entries(gpuList[..i]);
  }

  /** A device without a uuid early in the list makes the whole list fail. */
  lemma UuidsPrefixFailure(gpuList: seq<GPUStat>, i: nat)
    requires i <= |gpuList|
    requires UuidsOf(Entries(gpuList[..i])).Failure?
    ensures UuidsOf(Entries(gpuList)) == UuidsOf(Entries(gpuList[..i]))
  {
    var k :| 0 <= k < i && "uuid" !in gpuList[..i][k].entry;
    assert gpuList[k] == gpuList[..i][k];
  }

  /** The dict built from the devices holds only devices of the list, each
      the last one with its uuid. */
  lemma TableOfDevices(gpuList: seq<GPUStat>, uuids: seq<string>)
    requires UuidsOf(Entries(gpuList)) == Success(uuids)
    ensures var table := Build(uuids, gpuList);
      && (forall k :: k in table.items ==> table.items[k] in gpuList)
      && (forall k :: k in uuids ==> table.items[k] == gpuList[LastIndex(uuids, k)])
  {
    BuildItems(uuids, gpuList);
  }

  /** One more device stored. */
  lemma BuildStep(uuids: seq<string>, gpuList: seq<GPUStat>, i: nat)
    requires i < |gpuList| && |uuids| == i
    requires gpuList[i].Uuid().Success?
    ensures Build(uuids + [gpuList[i].Uuid().value], gpuList[..i + 1]) ==
      Store(Build(uuids, gpuList[..i]), gpuList[i].Uuid().value, gpuList[i])
  {
    assert gpuList[..i + 1][..i] == gpuList[..i];
    assert (uuids + [gpuList[i].Uuid().value])[..i] == uuids;
  }

  /** Devices made from the rows, one per row, are stored under the same uuids
      and in the same order as the rows themselves would be. */
  lemma SameTable(gpuList: seq<GPUStat>, rows: seq<Row>, uuids: seq<string>)
    requires |gpuList| == |rows|
    requires forall i :: 0 <= i < |rows| ==> gpuList[i].entry == rows[i]
    requires UuidsOf(rows) == Success(uuids)
    ensures var devices := Build(uuids, gpuList); var table := Build(uuids, rows);
      && devices.order == table.order
      && devices.items.Keys == table.items.Keys
      && forall k :: k in table.items ==> devices.items[k].entry == table.items[k]
  {
    BuildOrder(uuids, gpuList);
    BuildOrder(uuids, rows);
    BuildItems(uuids, gpuList);
    BuildItems(uuids, rows);
  }

  /** One more process through the attaching loop. */
  lemma TargetsStep(ps: seq<Row>, i: nat, keys: set<string>, ts: seq<string>)
    requires i < |ps|
    requires Targets(ps[..i], keys) == Success(ts)
    ensures Targets(ps[..i + 1], keys) ==
      if Matched(ps[i], keys) then Success(ts + [ps[i]["gpu_uuid"]])
      else if ts == [] then Failure(UnboundLocalError("g"))
      else Success(ts + [ts[|ts| - 1]])
  {
    assert ps[..i + 1][..i] == ps[..i];
  }

  /** The uuid one more process is attached to, when there is one. */
  lemma TargetsNext(ps: seq<Row>, i: nat, keys: set<string>, ts: seq<string>, t: string)
    requires i < |ps|
    requires Targets(ps[..i], keys) == Success(ts)
    requires Matched(ps[i], keys) || ts != []
    requires t == if Matched(ps[i], keys) then ps[i]["gpu_uuid"] else ts[|ts| - 1]
    ensures Targets(ps[..i + 1], keys) == Success(ts + [t])
  {
    TargetsStep(ps, i, keys, ts);
  }

  /** Once a prefix of the processes fails to attach, the whole list fails. */
  lemma {:induction false} TargetsPrefixFailure(ps: seq<Row>, i: nat, keys: set<string>)
    requires i <= |ps|
    requires Targets(ps[..i], keys).Failure?
    ensures Targets(ps, keys) == Targets(ps[..i], keys)
    decreases |ps| - i
  {
    if i < |ps| {
      assert ps[..i + 1][..i] == ps[..i];
      TargetsPrefixFailure(ps, i + 1, keys);
    } else {
      assert ps[..i] == ps;
    }
  }

  /** One more process attached. */
  lemma AttachedStep(ps: seq<Row>, ts: seq<string>, i: nat, t: string, u: string)
    requires i < |ps| && |ts| == i
    ensures t == u ==> Attached(ps[..i + 1], ts + [t], u) == Attached(ps[..i], ts, u) + [ps[i]]
    ensures t != u ==> Attached(ps[..i + 1], ts + [t], u) == Attached(ps[..i], ts, u)
  {
    assert ps[..i + 1][..i] == ps[..i];
    assert (ts + [t])[..i] == ts;
  }

  /** Regrouping a concatenation: Dafny proves it alone, but not inside the
      large contexts of the loops that use it. */
  lemma AppendAssoc<T>(a: seq<T>, b: seq<T>, c: seq<T>)
    ensures a + b + c == a + (b + c)
  {
  }

  /** `AppendAssoc` for four pieces. */
  lemma Regroup<T>(a: seq<T>, b: seq<T>, c: seq<T>, d: seq<T>)
    ensures a + b + c + d == a + (b + c + d)
  {
  }

  /** One more device through the body loop. */
  lemma BodyStep(ds: seq<GPUStat>, i: nat, f: Flags, w: nat)
    requires i < |ds|
    requires Body(ds[..i], f, w).error == None
    ensures Body(ds[..i + 1], f, w) ==
      match DeviceLine(ds[i].entry, ds[i].processes, f, w)
      case Success(line) => Written(Body(ds[..i], f, w).text + line + "\n", None)
      case Failure(e) => Written(Body(ds[..i], f, w).text, Some(e))
  {
    assert ds[..i + 1][..i] == ds[..i];
  }

  /** Once a device's line raises, the loop writes nothing more. */
  lemma {:induction false} BodyPrefixFailure(ds: seq<GPUStat>, i: nat, f: Flags, w: nat)
    requires i <= |ds|
    requires Body(ds[..i], f, w).error.Some?
    ensures Body(ds, f, w) == Body(ds[..i], f, w)
    decreases |ds| - i
  {
    if i < |ds| {
      assert ds[..i + 1][..i] == ds[..i];
      BodyPrefixFailure(ds, i + 1, f, w);
    } else {
      assert ds[..i] == ds;
    }
  }

  // ---------------------------------------------------------------- properties

  /** Attaching fails exactly when the first process names no device, and
      then with `UnboundLocalError` for `g`. */
  lemma {:induction false} TargetsFailIff(ps: seq<Row>, keys: set<string>)
    ensures Targets(ps, keys).Failure? <==> |ps| > 0 && !Matched(ps[0], keys)
    ensures Targets(ps, keys).Failure? ==> Targets(ps, keys).error == UnboundLocalError("g")
    decreases |ps|
  {
    if |ps| > 1 {
      var n := |ps| - 1;
      TargetsFailIff(ps[..n], keys);
      assert ps[..n][0] == ps[0];
    }
  }

  /** Where each process goes: a device of the collection; the one it names
      when it names one; otherwise the one the process before went to. */
  lemma {:induction false} TargetsWhere(ps: seq<Row>, keys: set<string>)
    requires Targets(ps, keys).Success?
    ensures var ts := Targets(ps, keys).value;
      && (forall i :: 0 <= i < |ps| ==> ts[i] in keys)
      && (forall i :: 0 <= i < |ps| && Matched(ps[i], keys) ==> ts[i] == ps[i]["gpu_uuid"])
      && (forall i :: 0 < i < |ps| && !Matched(ps[i], keys) ==> ts[i] == ts[i - 1])
    decreases |ps|
  {
    if ps != [] {
      var n := |ps| - 1;
      TargetsWhere(ps[..n], keys);
      var ts := Targets(ps, keys).value;
      var prev := Targets(ps[..n], keys).value;
      assert ts == prev + [ts[n]];
      forall i | 0 <= i < n
        ensures ps[i] == ps[..n][i] && ts[i] == prev[i]
      {
      }
      assert ts[n] in keys;
      assert Matched(ps[n], keys) ==> ts[n] == ps[n]["gpu_uuid"];
      assert n > 0 && !Matched(ps[n], keys) ==> ts[n] == prev[n - 1];
    }
  }

  /** The number of processes attached to the devices under the keys of
      `order`, all together. */
  function TotalAttached(ps: seq<Row>, ts: seq<string>, order: seq<string>): nat
    requires |ps| == |ts|
    decreases |order|
  {
    if order == [] then 0
    else TotalAttached(ps, ts, order[..|order| - 1]) + |Attached(ps, ts, order[|order| - 1])|
  }

  /** No process is lost and none is attached twice: over all the devices the
      attached processes number exactly the running processes. */
  lemma {:induction false} AttachedConserved(ps: seq<Row>, ts: seq<string>, order: seq<string>)
    requires |ps| == |ts| && Distinct(order)
    requires forall i :: 0 <= i < |ts| ==> ts[i] in order
    ensures TotalAttached(ps, ts, order) == |ps|
    decreases |ps|
  {
    if ps == [] {
      TotalOfNone(order);
    } else {
      var n := |ps| - 1;
      AttachedConserved(ps[..n], ts[..n], order);
      TotalStep(ps, ts, order);
      assert ts[n] in order;
    }
  }

  lemma {:induction false} TotalOfNone(order: seq<string>)
    ensures TotalAttached([], [], order) == 0
    decreases |order|
  {
    if order != [] {
      TotalOfNone(order[..|order| - 1]);
    }
  }

  /** Adding the last process adds one to the total of the device it goes
      to, when that device is among `order`. */
  lemma {:induction false} TotalStep(ps: seq<Row>, ts: seq<string>, order: seq<string>)
    requires |ps| == |ts| > 0 && Distinct(order)
    ensures var n := |ps| - 1;
      TotalAttached(ps, ts, order) == TotalAttached(ps[..n], ts[..n], order) + (if ts[n] in order then 1 else 0)
    decreases |order|
  {
    if order != [] {
      var m := |order| - 1;
      assert Distinct(order[..m]);
      TotalStep(ps, ts, order[..m]);
      assert order == order[..m] + [order[m]];
    }
  }

  /** A process that names no device goes where the one before it went, so
      it is not dropped: with devices `A` and `B`, a process of `A` followed by
      one naming `Z` puts both on `A`; a first process naming `Z` raises. */
  lemma OrphanExample(pa: Row, pz: Row)
    requires pa == map["gpu_uuid" := "A"] && pz == map["gpu_uuid" := "Z"]
    ensures Targets([pa, pz], {"A", "B"}) == Success(["A", "A"])
    ensures Attached([pa, pz], ["A", "A"], "A") == [pa, pz]
    ensures Attached([pa, pz], ["A", "A"], "B") == []
    ensures Targets([pz, pa], {"A", "B"}) == Failure(UnboundLocalError("g"))
  {
    var keys := {"A", "B"};
    assert "Z"[0] != "A"[0] && "Z"[0] != "B"[0];
    assert Matched(pa, keys) && !Matched(pz, keys);
    var good, bad := [pa, pz], [pz, pa];
    assert good[..0] == [] && bad[..0] == [];
    TargetsStep(good, 0, keys, []);
    assert [] + ["A"] == ["A"];
    TargetsStep(good, 1, keys, ["A"]);
    assert ["A"] + ["A"] == ["A", "A"];
    assert good[..2] == good;
    TargetsStep(bad, 0, keys, []);
    TargetsPrefixFailure(bad, 1, keys);
    AttachedStep(good, [], 0, "A", "A");
    AttachedStep(good, ["A"], 1, "A", "A");
    AttachedStep(good, [], 0, "A", "B");
    AttachedStep(good, ["A"], 1, "A", "B");
  }

  /** The name width is at least 16, at least every name's length, and one of
      those values; it fails exactly when some entry has no name. */
  lemma {:induction false} NameWidthBounds(entries: seq<Row>)
    ensures NameWidth(entries).Success? <==> forall i :: 0 <= i < |entries| ==> "name" in entries[i]
    ensures NameWidth(entries).Failure? ==> NameWidth(entries).error == KeyError("name")
    ensures NameWidth(entries).Success? ==>
      var w := NameWidth(entries).value;
      && w >= 16
      && (forall i :: 0 <= i < |entries| ==> |entries[i]["name"]| <= w)
      && (w == 16 || exists i :: 0 <= i < |entries| && |entries[i]["name"]| == w)
    decreases |entries|
  {
    if entries != [] {
      var n := |entries| - 1;
      NameWidthBounds(entries[..n]);
      assert forall i :: 0 <= i < n ==> entries[..n][i] == entries[i];
    }
  }

  /** The body streams: what the loop writes for the first devices is the
      start of what it writes for all of them, and a line that raises stops
      it there. */
  lemma {:induction false} BodyExtends(ds: seq<GPUStat>, i: nat, f: Flags, w: nat)
    requires i <= |ds|
    ensures Body(ds[..i], f, w).text <= Body(ds, f, w).text
    ensures Body(ds[..i], f, w).error.Some? ==> Body(ds, f, w) == Body(ds[..i], f, w)
    decreases |ds| - i
  {
    if i == |ds| {
      assert ds[..i] == ds;
    } else {
      BodyExtends(ds, i + 1, f, w);
      assert ds[..i + 1][..i] == ds[..i];
    }
  }

  /** The line of device `g` can be drawn without raising. */
  predicate LineDrawn(g: GPUStat, f: Flags, w: nat)
    reads g
  {
    DeviceLine(g.entry, g.processes, f, w).Success?
  }

  /** A body written whole drew every device's line. */
  lemma BodyWholeDrawn(ds: seq<GPUStat>, i: nat, f: Flags, w: nat)
    requires i < |ds| && Body(ds, f, w).error == None
    ensures LineDrawn(ds[i], f, w)
  {
    var pre := ds[..i + 1];
    if Body(pre, f, w).error.Some? {
      BodyExtends(ds, i + 1, f, w);
    }
    BodyLast(pre, f, w);
    assert pre[..i] == ds[..i] && pre[i] == ds[i];
  }

  /** When every device's line can be drawn, the body is written whole. */
  lemma {:induction false} BodyAllDrawn(ds: seq<GPUStat>, f: Flags, w: nat)
    requires forall i :: 0 <= i < |ds| ==> LineDrawn(ds[i], f, w)
    ensures Body(ds, f, w).error == None
    decreases |ds|
  {
    if ds != [] {
      var n := |ds| - 1;
      forall i | 0 <= i < n
        ensures LineDrawn(ds[..n][i], f, w)
      {
        assert ds[..n][i] == ds[i];
      }
      BodyAllDrawn(ds[..n], f, w);
      BodyLast(ds, f, w);
    }
  }

  /** The body is written whole exactly when every device's line can be
      drawn. */
  lemma BodySucceedsIff(ds: seq<GPUStat>, f: Flags, w: nat)
    ensures Body(ds, f, w).error == None <==> forall i :: 0 <= i < |ds| ==> LineDrawn(ds[i], f, w)
  {
    if Body(ds, f, w).error == None {
      forall i | 0 <= i < |ds|
        ensures LineDrawn(ds[i], f, w)
      {
        BodyWholeDrawn(ds, i, f, w);
      }
    } else if forall i :: 0 <= i < |ds| ==> LineDrawn(ds[i], f, w) {
      BodyAllDrawn(ds, f, w);
    }
  }

  /** The last device decides whether the body fails once its prefix did not. */
  lemma BodyLast(ds: seq<GPUStat>, f: Flags, w: nat)
    requires ds != []
    ensures var n := |ds| - 1;
      Body(ds, f, w).error == None <==>
        Body(ds[..n], f, w).error == None && LineDrawn(ds[n], f, w)
  {
  }

  /** Python indexing from the end: `c[i - len(c)]` is `c[i]`. */
  lemma NegativeIndex(c: GPUStatCollection, i: int)
    requires c.Valid() && 0 <= i < c.Len()
    ensures c.GetItem(i - c.Len()) == c.GetItem(i)
    ensures c.GetItem(i).Success? && c.GetItem(i).value.Uuid() == Success(c.gpus.order[i])
  {
  }
}
