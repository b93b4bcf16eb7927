/** The rows the core reads from the text the two tools print: the
    comma-separated `nvidia-smi` query output, one row per device or per
    running process, and the `ps` listing that gives a pid its owner and
    command; then the filtering of process rows by that listing. */
module Rows {

  import opened Base
  import opened Text

  /** The columns of the device query, in the order they are printed. */
  const GPU_COLUMNS: seq<string> :=
    ["index", "uuid", "name", "temperature.gpu", "utilization.gpu", "memory.used", "memory.total"]

  /** The columns of the compute-process query. */
  const PROCESS_COLUMNS: seq<string> := ["gpu_uuid", "pid", "used_memory"]

  // ---------------------------------------------------------------- lookups

  /** `d[key]`. */
  function Get(d: Row, key: string): (r: Result<string, PyError>)
    ensures r.Success? <==> key in d
    ensures r.Success? ==> r.value == d[key]
    ensures r.Failure? ==> r.error == KeyError(key)
  {
    if key in d then Success(d[key]) else Failure(KeyError(key))
  }

  /** `int(d[key])`. */
  function IntOf(d: Row, key: string): Result<int, PyError> {
    var v :- Get(d, key);
    match ParseInt(v)
    case Some(n) => Success(n)
    case None => Failure(IntLiteralError(v))
  }

  // ---------------------------------------------------------------- query rows

  function Min(a: nat, b: nat): nat {
    if a < b then a else b
  }

  predicate Distinct<T(==)>(s: seq<T>) {
    forall i, j :: 0 <= i < j < |s| ==> s[i] != s[j]
  }

  /** `{col: val.strip() for (col, val) in zip(columns, fields)}`: the pairing
      stops at the shorter of the two sequences. */
  function ZipRow(columns: seq<string>, fields: seq<string>): Row
    decreases |columns|
  {
    var n := Min(|columns|, |fields|);
    if n == 0 then map[]
    else ZipRow(columns[..n - 1], fields[..n - 1])[columns[n - 1] := Strip(fields[n - 1])]
  }

  /** One row per non-empty line, each line split on `,`. */
  function RowsOf(lines: seq<string>, columns: seq<string>): seq<Row>
    decreases |lines|
  {
    if lines == [] then []
    else
      var line := lines[|lines| - 1];
      RowsOf(lines[..|lines| - 1], columns) + (if line == "" then [] else [ZipRow(columns, Split(line, ','))])
  }

  /** The loop of `new_query` and `running_processes` over the lines of a
      query output (already stripped by the caller in `new_query`). */
  method ParseRows(output: string, columns: seq<string>) returns (rows: seq<Row>)
    ensures rows == RowsOf(Split(output, '\n'), columns)
  {
    var lines := Split(output, '\n');
    rows := [];
    for i := 0 to |lines|
      invariant rows == RowsOf(lines[..i], columns)
    {
      assert lines[..i + 1][..i] == lines[..i];
      if lines[i] == "" {
        continue;
      }
      rows := rows + [ZipRow(columns, Split(lines[i], ','))];
    }
    assert lines[..|lines|] == lines;
  }

  /** The line a record of field values is printed as. */
  function Lines(records: seq<seq<string>>): seq<string>
    decreases |records|
  {
    if records == [] then []
    else Lines(records[..|records| - 1]) + [Join(records[|records| - 1], ',')]
  }

  /** The rows of a table, each record paired with the columns. */
  function Zipped(columns: seq<string>, records: seq<seq<string>>): seq<Row>
    decreases |records|
  {
    if records == [] then []
    else Zipped(columns, records[..|records| - 1]) + [ZipRow(columns, records[|records| - 1])]
  }

  /** A field value as the tool prints it: no comma, no line break. */
  predicate PlainField(v: string) {
    ',' !in v && '\n' !in v
  }

  /** A printable record: at least one field, not an empty line, and plain
      field values. */
  predicate PrintableRecord(rec: seq<string>) {
    && |rec| >= 1
    && Join(rec, ',') != ""
    && forall j :: 0 <= j < |rec| ==> PlainField(rec[j])
  }

  // ---------------------------------------------------------------- the ps listing

  /** The owner and command `ps` reports for a pid. */
  datatype Owner = Owner(user: string, comm: string)

  /** `pid_map`: `None` for a pid not (yet) seen in the `ps` listing. */
  type PidMap = map<int, Option<Owner>>

  /** `{int(e['pid']): None for e in process_entries}`, raising at the first
      entry without a pid or with one that does not read as an integer. */
  function PidMapOf(entries: seq<Row>): Result<PidMap, PyError>
    decreases |entries|
  {
    if entries == [] then Success(map[])
    else
      var m :- PidMapOf(entries[..|entries| - 1]);
      var pid :- IntOf(entries[|entries| - 1], "pid");
      Success(m[pid := None])
  }

  /** What one line of the `ps` listing says: nothing for an empty line or one
      that contains `PID` (the header); otherwise the pid and its owner, from
      the first three white-space separated words. */
  function PsEntry(line: string): Result<Option<(int, Owner)>, PyError> {
    if line == "" || Contains(line, "PID") then Success(None)
    else
      var words := Words(line);
      if |words| < 3 then Failure(UnpackError(3, |words|))
      else
        match ParseInt(words[0])
        case None => Failure(IntLiteralError(words[0]))
        case Some(pid) => Success(Some((pid, Owner(words[1], words[2]))))
  }

  /** The `ps` loop: each line read in turn into the pid map. */
  function PsLines(lines: seq<string>, m: PidMap): Result<PidMap, PyError>
    decreases |lines|
  {
    if lines == [] then Success(m)
    else
      var prev :- PsLines(lines[..|lines| - 1], m);
      var e :- PsEntry(lines[|lines| - 1]);
      match e
      case None => Success(prev)
      case Some((pid, o)) => Success(prev[pid := Some(o)])
  }

  /** The owner the last line naming `pid` gives it, if a line names it. */
  function LastOwner(lines: seq<string>, pid: int): Option<Owner>
    decreases |lines|
  {
    if lines == [] then None
    else
      var e := PsEntry(lines[|lines| - 1]);
      if e.Success? && e.value.Some? && e.value.value.0 == pid then Some(e.value.value.1)
      else LastOwner(lines[..|lines| - 1], pid)
  }

  /** Steps 1 and 2 of `running_processes`: the pid map, filled from the `ps`
      listing only when it is not empty (no `ps` call otherwise). */
  function Owners(entries: seq<Row>, psOutput: string): Result<PidMap, PyError> {
    var m :- PidMapOf(entries);
    if m == map[] then Success(m) else PsLines(Split(Strip(psOutput), '\n'), m)
  }

  // ---------------------------------------------------------------- filtering

  /** `entry.update(owner)`: the entry gains exactly `user` and `comm`. */
  function Enrich(e: Row, o: Owner): (r: Row)
    ensures r.Keys == e.Keys + {"user", "comm"}
    ensures r["user"] == o.user && r["comm"] == o.comm
    ensures forall k :: k in e && k != "user" && k != "comm" ==> r[k] == e[k]
  {
    e["user" := o.user]["comm" := o.comm]
  }

  /** The owner the pid map holds for an entry's pid, if any. */
  function OwnerOf(e: Row, m: PidMap): Option<Owner> {
    match IntOf(e, "pid")
    case Failure(_) => None
    case Success(pid) => if pid in m then m[pid] else None
  }

  /** Step 3 of `running_processes`: the entries whose pid got an owner, in
      their order, each updated with that owner. */
  function Survivors(entries: seq<Row>, m: PidMap): seq<Row>
    decreases |entries|
  {
    if entries == [] then []
    else
      var e := entries[|entries| - 1];
      Survivors(entries[..|entries| - 1], m) + (match OwnerOf(e, m) case None => [] case Some(o) => [Enrich(e, o)])
  }

  /** Every entry's pid reads as an integer that is a key of the pid map. */
  predicate PidsKnown(entries: seq<Row>, m: PidMap) {
    forall i :: 0 <= i < |entries| ==> IntOf(entries[i], "pid").Success? && IntOf(entries[i], "pid").value in m
  }

  /** `running_processes()` on the two outputs it reads. */
  function RunningProcessesOf(appsOutput: string, psOutput: string): Result<seq<Row>, PyError> {
    var entries := RowsOf(Split(appsOutput, '\n'), PROCESS_COLUMNS);
    var m :- Owners(entries, psOutput);
    Success(Survivors(entries, m))
  }

  /** `list.remove(x)`: drops the first element equal to `x`. */
  function RemoveFirst(s: seq<Row>, x: Row): seq<Row>
    requires x in s
  {
    if s[0] == x then s[1..] else [s[0]] + RemoveFirst(s[1..], x)
  }

  /** `running_processes()`: parses the process query, fills the pid map
      from the `ps` listing when some pid is waiting for it, then drops the
      entries left without an owner. */
  method RunningProcesses(appsOutput: string, psOutput: string) returns (r: Result<seq<Row>, PyError>)
    ensures r == RunningProcessesOf(appsOutput, psOutput)
  {
    var entries := ParseRows(appsOutput, PROCESS_COLUMNS);
    var initial := PidMapOf(entries);
    if initial.Failure? {
      return Failure(initial.error);
    }
    var pidMap := initial.value;
    if pidMap != map[] {
      var read := ReadPsListing(Split(Strip(psOutput), '\n'), pidMap);
      if read.Failure? {
        return Failure(read.error);
      }
      pidMap := read.value;
    }
    ProcessRowsHaveNoUser(Split(appsOutput, '\n'));
    PidMapOfKeys(entries);
    assert PidsKnown(entries, initial.value);
    assert initial.value.Keys <= pidMap.Keys;
    PidsKnownGrow(entries, initial.value, pidMap);
    var survivors := DropUnowned(entries, pidMap);
    r := Success(survivors);
  }

  /** The `ps` loop of `running_processes`: each line read into the pid map;
      empty lines and lines containing `PID` are skipped, a line of fewer
      than three words or with a pid that is not an integer raises. */
  method ReadPsListing(lines: seq<string>, initial: PidMap) returns (r: Result<PidMap, PyError>)
    ensures r == PsLines(lines, initial)
    ensures r.Success? ==> initial.Keys <= r.value.Keys
  {
    var pidMap := initial;
    for i := 0 to |lines|
      invariant PsLines(lines[..i], initial) == Success(pidMap)
    {
      var line := lines[i];
      PsLinesStep(lines, i, initial, pidMap);
      if line == "" || Contains(line, "PID") {
        continue;
      }
      var words := Words(line);
      if |words| < 3 {
        PsLinesPrefixFailure(lines, i + 1, initial);
        return Failure(UnpackError(3, |words|));
      }
      var pid := ParseInt(words[0]);
      if pid.None? {
        PsLinesPrefixFailure(lines, i + 1, initial);
        return Failure(IntLiteralError(words[0]));
      }
      pidMap := pidMap[pid.value := Some(Owner(words[1], words[2]))];
    }
    assert lines[..|lines|] == lines;
    PsLinesKeepKeys(lines, initial);
    r := Success(pidMap);
  }

  /** Step 3 of `running_processes`: walks a copy of the entries; an entry
      whose pid has no owner is removed from the list (`list.remove`, the
      first equal element), any other is updated in place, which is where it
      now stands in the list (`kept`). */
  method DropUnowned(entries: seq<Row>, pidMap: PidMap) returns (processEntries: seq<Row>)
    requires PidsKnown(entries, pidMap)
    requires forall i :: 0 <= i < |entries| ==> "user" !in entries[i]
    ensures processEntries == Survivors(entries, pidMap)
  {
    var snapshot := entries;
    processEntries := entries;
    var kept := 0;
    for i := 0 to |snapshot|
      invariant kept == |Survivors(snapshot[..i], pidMap)|
      invariant processEntries == Survivors(snapshot[..i], pidMap) + snapshot[i..]
    {
      var e := snapshot[i];
      var pid := IntOf(e, "pid").value;
      var owner := pidMap[pid];
      OwnerOfKnown(e, pidMap);
      DropStep(snapshot, i, pidMap, processEntries);
      if owner.None? {
        processEntries := RemoveFirst(processEntries, e);
        continue;
      }
      processEntries := processEntries[kept := Enrich(e, owner.value)];
      kept := kept + 1;
    }
    assert snapshot[..|snapshot|] == snapshot;
  }

  // ---------------------------------------------------------------- lemmas

  /** A query row holds exactly the first `min(|columns|, |fields|)` columns,
      each mapped to its field with surrounding white space stripped. */
  lemma ZipRowFields(columns: seq<string>, fields: seq<string>)
    requires Distinct(columns)
    ensures var r := ZipRow(columns, fields); var n := Min(|columns|, |fields|);
      && (forall c :: c in r <==> c in columns[..n])
      && (forall i :: 0 <= i < n ==> r[columns[i]] == Strip(fields[i]))
  {
    ZipRowDomain(columns, fields);
    ZipRowValues(columns, fields);
  }

  lemma {:induction false} ZipRowDomain(columns: seq<string>, fields: seq<string>)
    ensures forall c :: c in ZipRow(columns, fields) <==> c in columns[..Min(|columns|, |fields|)]
    decreases |columns|
  {
    var n := Min(|columns|, |fields|);
    if n > 0 {
      var cs, fs := columns[..n - 1], fields[..n - 1];
      ZipRowDomain(cs, fs);
      assert cs[..n - 1] == cs;
      assert columns[..n] == cs + [columns[n - 1]];
    }
  }

  lemma {:induction false} ZipRowValues(columns: seq<string>, fields: seq<string>)
    requires Distinct(columns)
    ensures var r := ZipRow(columns, fields);
      forall i :: 0 <= i < Min(|columns|, |fields|) ==> columns[i] in r && r[columns[i]] == Strip(fields[i])
    decreases |columns|
  {
    var n := Min(|columns|, |fields|);
    if n > 0 {
      var cs, fs := columns[..n - 1], fields[..n - 1];
      assert Distinct(cs);
      ZipRowValues(cs, fs);
      var r := ZipRow(columns, fields);
      forall i | 0 <= i < n
        ensures columns[i] in r && r[columns[i]] == Strip(fields[i])
      {
        if i < n - 1 {
          assert columns[i] == cs[i] && fields[i] == fs[i];
          assert columns[i] != columns[n - 1];
        }
      }
    }
  }

  /** A query row has no key outside its columns. */
  lemma {:induction false} ZipRowKeys(columns: seq<string>, fields: seq<string>)
    ensures forall c :: c in ZipRow(columns, fields) ==> c in columns
    decreases |columns|
  {
    var n := Min(|columns|, |fields|);
    if n > 0 {
      ZipRowKeys(columns[..n - 1], fields[..n - 1]);
      forall c | c in columns[..n - 1] ensures c in columns {
        var k :| 0 <= k < n - 1 && columns[..n - 1][k] == c;
        assert columns[k] == c;
      }
    }
  }

  lemma {:induction false} RowsOfKeys(lines: seq<string>, columns: seq<string>)
    ensures forall i, c :: 0 <= i < |RowsOf(lines, columns)| && c in RowsOf(lines, columns)[i] ==> c in columns
    decreases |lines|
  {
    if lines != [] {
      var line := lines[|lines| - 1];
      RowsOfKeys(lines[..|lines| - 1], columns);
      if line != "" {
        ZipRowKeys(columns, Split(line, ','));
      }
    }
  }

  /** Printing records as comma-separated lines and reading the lines back
      gives one row per record, each the record paired with the columns. */
  lemma {:induction false} RowsOfPrinted(columns: seq<string>, records: seq<seq<string>>)
    requires forall k :: 0 <= k < |records| ==> PrintableRecord(records[k])
    ensures RowsOf(Lines(records), columns) == Zipped(columns, records)
    decreases |records|
  {
    if records != [] {
      var n := |records| - 1;
      var rec := records[n];
      RowsOfPrinted(columns, records[..n]);
      SplitJoin(rec, ',');
      assert Lines(records)[..|Lines(records)| - 1] == Lines(records[..n]);
    }
  }

  /** The whole output round trip: a table printed one record per line and
      parsed back gives the rows of the table. An empty table prints as the
      empty string, whose single empty line is skipped. */
  lemma ParsePrinted(columns: seq<string>, records: seq<seq<string>>)
    requires forall k :: 0 <= k < |records| ==> PrintableRecord(records[k])
    ensures RowsOf(Split(Join(Lines(records), '\n'), '\n'), columns) == Zipped(columns, records)
  {
    if records == [] {
    } else {
      LinesAvoidNewline(records);
      SplitJoin(Lines(records), '\n');
      RowsOfPrinted(columns, records);
    }
  }

  lemma {:induction false} LinesAvoidNewline(records: seq<seq<string>>)
    requires forall k :: 0 <= k < |records| ==> PrintableRecord(records[k])
    ensures |Lines(records)| == |records|
    ensures forall k :: 0 <= k < |Lines(records)| ==> '\n' !in Lines(records)[k]
    decreases |records|
  {
    if records != [] {
      var n := |records| - 1;
      LinesAvoidNewline(records[..n]);
      JoinAvoids(records[n], ',', '\n');
    }
  }

  /** Every entry's pid is a key of the pid map, and no key is resolved yet. */
  lemma PidMapOfKeys(entries: seq<Row>)
    requires PidMapOf(entries).Success?
    ensures var m := PidMapOf(entries).value;
      && PidsKnown(entries, m)
      && (forall pid :: pid in m ==> m[pid] == None)
      && (m == map[] <==> entries == [])
  {
    PidMapOfKnown(entries);
    PidMapOfUnresolved(entries);
  }

  lemma {:induction false} PidMapOfKnown(entries: seq<Row>)
    requires PidMapOf(entries).Success?
    ensures PidsKnown(entries, PidMapOf(entries).value)
    decreases |entries|
  {
    if entries != [] {
      var n := |entries| - 1;
      PidMapOfKnown(entries[..n]);
      var m := PidMapOf(entries).value;
      var prev := PidMapOf(entries[..n]).value;
      PidsKnownGrow(entries[..n], prev, m);
      PidsKnownSnoc(entries[..n], entries[n], m);
      assert entries[..n] + [entries[n]] == entries;
    }
  }

  lemma {:induction false} PidMapOfUnresolved(entries: seq<Row>)
    requires PidMapOf(entries).Success?
    ensures var m := PidMapOf(entries).value;
      && (forall pid :: pid in m ==> m[pid] == None)
      && (m == map[] <==> entries == [])
    decreases |entries|
  {
    if entries != [] {
      PidMapOfUnresolved(entries[..|entries| - 1]);
      var pid := IntOf(entries[|entries| - 1], "pid").value;
      assert pid in PidMapOf(entries).value;
    }
  }

  /** Reading the `ps` lines only adds keys to the pid map. */
  lemma {:induction false} PsLinesKeepKeys(lines: seq<string>, m: PidMap)
    requires PsLines(lines, m).Success?
    ensures m.Keys <= PsLines(lines, m).value.Keys
    decreases |lines|
  {
    if lines != [] {
      PsLinesKeepKeys(lines[..|lines| - 1], m);
    }
  }

  /** The last line naming a pid decides its owner; a pid no line names keeps
      the value it had. */
  lemma {:induction false} PsLinesLastWins(lines: seq<string>, m: PidMap)
    requires PsLines(lines, m).Success?
    ensures var r := PsLines(lines, m).value;
      forall pid :: && (pid in r <==> pid in m || LastOwner(lines, pid).Some?)
                    && (pid in r ==> r[pid] == if LastOwner(lines, pid).Some? then LastOwner(lines, pid) else m[pid])
    decreases |lines|
  {
    if lines != [] {
      PsLinesLastWins(lines[..|lines| - 1], m);
    }
  }

  /** The `ps` lines are read exactly when every line reads. */
  lemma {:induction false} PsLinesSucceedIff(lines: seq<string>, m: PidMap)
    ensures PsLines(lines, m).Success? <==> forall i :: 0 <= i < |lines| ==> PsEntry(lines[i]).Success?
    decreases |lines|
  {
    if lines != [] {
      var n := |lines| - 1;
      PsLinesSucceedIff(lines[..n], m);
      assert forall i :: 0 <= i < n ==> lines[..n][i] == lines[i];
    }
  }

  lemma PsLinesStep(lines: seq<string>, i: nat, m: PidMap, prev: PidMap)
    requires i < |lines|
    requires PsLines(lines[..i], m) == Success(prev)
    ensures PsLines(lines[..i + 1], m) ==
      match PsEntry(lines[i])
      case Failure(e) => Failure(e)
      case Success(None) => Success(prev)
      case Success(Some((pid, o))) => Success(prev[pid := Some(o)])
  {
    assert lines[..i + 1][..i] == lines[..i];
  }

  lemma {:induction false} PsLinesPrefixFailure(lines: seq<string>, i: nat, m: PidMap)
    requires i <= |lines|
    requires PsLines(lines[..i], m).Failure?
    ensures PsLines(lines, m) == PsLines(lines[..i], m)
    decreases |lines| - i
  {
    if i < |lines| {
      assert lines[..i + 1][..i] == lines[..i];
      PsLinesPrefixFailure(lines, i + 1, m);
    } else {
      assert lines[..i] == lines;
    }
  }

  /** Filtering follows the order of the entries: the survivors of `a + b`
      are those of `a` followed by those of `b`. */
  lemma {:induction false} SurvivorsAppend(a: seq<Row>, b: seq<Row>, m: PidMap)
    ensures Survivors(a + b, m) == Survivors(a, m) + Survivors(b, m)
    decreases |b|
  {
    if b == [] {
      assert a + b == a;
    } else {
      var n := |b| - 1;
      assert (a + b)[..|a + b| - 1] == a + b[..n];
      SurvivorsAppend(a, b[..n], m);
    }
  }

  /** One entry survives exactly when its pid got an owner, and then as the
      entry updated with that owner. */
  lemma SurvivorsOfOne(e: Row, m: PidMap)
    ensures Survivors([e], m) == match OwnerOf(e, m) case None => [] case Some(o) => [Enrich(e, o)]
  {
    assert [e][..0] == [];
  }

  /** At most as many survivors as entries. */
  lemma {:induction false} SurvivorsFewer(entries: seq<Row>, m: PidMap)
    ensures |Survivors(entries, m)| <= |entries|
    decreases |entries|
  {
    if entries != [] {
      SurvivorsFewer(entries[..|entries| - 1], m);
    }
  }

  lemma OwnerOfKnown(e: Row, m: PidMap)
    requires IntOf(e, "pid").Success? && IntOf(e, "pid").value in m
    ensures OwnerOf(e, m) == m[IntOf(e, "pid").value]
  {
  }

  lemma PidsKnownGrow(entries: seq<Row>, m: PidMap, m': PidMap)
    requires PidsKnown(entries, m) && m.Keys <= m'.Keys
    ensures PidsKnown(entries, m')
  {
  }

  lemma PidsKnownSnoc(entries: seq<Row>, e: Row, m: PidMap)
    requires PidsKnown(entries, m)
    requires IntOf(e, "pid").Success? && IntOf(e, "pid").value in m
    ensures PidsKnown(entries + [e], m)
  {
    forall i | 0 <= i < |entries| + 1
      ensures IntOf((entries + [e])[i], "pid").Success? && IntOf((entries + [e])[i], "pid").value in m
    {
      if i < |entries| {
        assert (entries + [e])[i] == entries[i];
      }
    }
  }

  /** The process query has no `user` column, so no parsed row has that key. */
  lemma ProcessRowsHaveNoUser(lines: seq<string>)
    ensures forall i :: 0 <= i < |RowsOf(lines, PROCESS_COLUMNS)| ==> "user" !in RowsOf(lines, PROCESS_COLUMNS)[i]
  {
    assert "user" !in PROCESS_COLUMNS;
    RowsOfKeys(lines, PROCESS_COLUMNS);
  }

  lemma SurvivorsStep(entries: seq<Row>, i: nat, m: PidMap)
    requires i < |entries|
    ensures Survivors(entries[..i + 1], m) == Survivors(entries[..i], m) +
      match OwnerOf(entries[i], m) case None => [] case Some(o) => [Enrich(entries[i], o)]
  {
    assert entries[..i + 1][..i] == entries[..i];
  }

  lemma {:induction false} SurvivorsHaveUsers(entries: seq<Row>, m: PidMap)
    ensures forall i :: 0 <= i < |Survivors(entries, m)| ==> "user" in Survivors(entries, m)[i]
    decreases |entries|
  {
    if entries != [] {
      SurvivorsHaveUsers(entries[..|entries| - 1], m);
    }
  }

  /** One step of the removal loop: the entry after the survivors so far is
      removed when it has no owner, and replaced by its update otherwise. */
  lemma DropStep(entries: seq<Row>, i: nat, m: PidMap, current: seq<Row>)
    requires i < |entries| && "user" !in entries[i]
    requires current == Survivors(entries[..i], m) + entries[i..]
    ensures var done := Survivors(entries[..i], m);
      match OwnerOf(entries[i], m)
      case None =>
        && entries[i] in current
        && RemoveFirst(current, entries[i]) == Survivors(entries[..i + 1], m) + entries[i + 1..]
        && |Survivors(entries[..i + 1], m)| == |done|
      case Some(o) =>
        && |done| < |current|
        && current[|done| := Enrich(entries[i], o)] == Survivors(entries[..i + 1], m) + entries[i + 1..]
        && |Survivors(entries[..i + 1], m)| == |done| + 1
  {
    var done := Survivors(entries[..i], m);
    var e := entries[i];
    SurvivorsStep(entries, i, m);
    assert entries[i..] == [e] + entries[i + 1..];
    match OwnerOf(e, m)
    case None =>
      SurvivorsHaveUsers(entries[..i], m);
      RemoveUnowned(done, e, entries[i + 1..]);
    case Some(o) =>
      UpdateAt(done, e, entries[i + 1..], Enrich(e, o));
  }

  /** Removing an entry that has no `user` key from a list whose head part
      all have one removes the entry just after that part. */
  lemma RemoveUnowned(done: seq<Row>, e: Row, rest: seq<Row>)
    requires forall j :: 0 <= j < |done| ==> "user" in done[j]
    requires "user" !in e
    ensures e in done + ([e] + rest)
    ensures RemoveFirst(done + ([e] + rest), e) == done + rest
  {
    var s := done + ([e] + rest);
    RemoveFirstAt(s, |done|, e);
    AroundMiddle(done, e, rest);
  }

  lemma AroundMiddle<T>(a: seq<T>, x: T, b: seq<T>)
    ensures (a + ([x] + b))[..|a|] == a
    ensures (a + ([x] + b))[|a| + 1..] == b
  {
  }

  /** Updating the element just after the head part. */
  lemma UpdateAt(done: seq<Row>, e: Row, rest: seq<Row>, x: Row)
    ensures (done + ([e] + rest))[|done| := x] == done + [x] + rest
  {
  }

  lemma {:induction false} RemoveFirstAt(s: seq<Row>, i: nat, x: Row)
    requires i < |s| && s[i] == x
    requires forall j :: 0 <= j < i ==> s[j] != x
    ensures x in s && RemoveFirst(s, x) == s[..i] + s[i + 1..]
    decreases i
  {
    if i > 0 {
      RemoveFirstAt(s[1..], i - 1, x);
      assert s == [s[0]] + s[1..];
    }
  }
}
