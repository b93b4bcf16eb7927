# gpustat, modelled in Dafny

This project models the core of `gpustat`, a command line tool that shows the
state of the NVIDIA GPUs of a machine: one line per device with its index, name,
temperature, utilisation and memory, followed by the processes running on it.

The model covers:

- **Reading the tool output.** The comma-separated `nvidia-smi` device and
  compute-process queries are read into rows (Python dicts of strings).
- **Resolving owners.** The `ps` listing gives each pid its owner and command.
- **Filtering.** Process rows whose pid `ps` does not report are dropped.
- **The collection.** Devices are kept in an `OrderedDict` keyed by uuid.
- **Attaching processes.** Each running process is attached to a device.
- **Drawing the lines.** A device becomes one line. The line has colour
  thresholds, padded fields, and per-process tokens shaped by the `show_cmd`,
  `show_user` and `show_pid` switches.
- **The body of `print_formatted`.**
- **The command line front end.** This covers:
  - `nonnegative_int`;
  - the `--show-all` expansion;
  - interval defaulting and clamping;
  - the `--json`/`--interval` conflict;
  - the choice between the watch loop and a single report;
  - the sleep rule and interrupt handling of the watch loop;
  - the exit path of `print_gpustat` when the query fails.

The files:

| file | module | holds |
|---|---|---|
| `base.dfy` | `Base` | the Python exceptions raised (`PyError`), `Option`, `Result`, and `Row` (a dict of strings) |
| `text.dfy` | `Text` | the Python string operations used: `strip`, `split(sep)`, `split()`, `in`, `join`, the `{:w}`/`{:>w}` format specs, `int(str)`, `str(int)` |
| `colors.dfy` | `Colors` | `ANSIColors`, `wrap`, and the colour table of `print_to` |
| `rows.dfy` | `Rows` | parsing of the query outputs, the `ps` listing, and `running_processes` |
| `device.dfy` | `Device` | `GPUStat` as a class, the line `print_to` writes (`DeviceLine`), and its layout lemmas |
| `ordered.dfy` | `OrderedDicts` | the `OrderedDict` as keys in first-insertion order plus a map, and storing into it |
| `collection.dfy` | `Collection` | `GPUStatCollection` as a class, `new_query`, `update_process_information`, `len`/`iter`/`[]`, and the body of `print_formatted` |
| `cli.dfy` | `Cli` | `nonnegative_int`, the normalisation in `main` as a method on a namespace object, `print_gpustat`, and `loop_gpustat` |

How the source maps onto the model:

- **Mutable objects are classes.** `GPUStat.processes` is a field that
  `AddProcess` reassigns. `GPUStatCollection.gpus` is an ordered dict that
  `Put` stores into. The `args` namespace of `main` is a class whose fields
  `NormaliseArgs` rebinds. A deleted key is a `has…` flag turned off.
- **Loops are methods proved against pure functions.** Each loop of the
  source that builds a list, a dict or output is a method with a `while`/`for`
  loop whose `ensures` ties its result or new state to a function of its
  inputs. Properties of that function are proved as lemmas:
  - `ParseRows` against `RowsOf`;
  - `ReadPsListing` against `PsLines`;
  - `DropUnowned` against `Survivors`;
  - `ProcessReprs` against `ProcessTokens`;
  - `AttachProcesses` against `Targets`/`Attached`;
  - `StoreAll` against `Build`;
  - `PrintBody` against `Body`;
  - `LoopGpustat` against `Run`.

  The colour-blanking loop of `print_to` (gpustat.py:79-80) and the
  comprehensions for the pid map (gpustat.py:173) and the name width
  (gpustat.py:243) are functions: the colours-off branch of
  `Colors.PaletteFor`, `Rows.PidMapOf` and `Collection.NameWidth`.
- **Exceptions are `Failure` values.** A raised Python exception is a
  `Failure` carrying a `PyError`. `sys.exit(1)` is a returned status.

Two behaviours of the code worth knowing:

- **Orphan processes are not dropped.** A process whose `gpu_uuid` names no
  device is still attached: the code (gpustat.py:204-210) catches the
  `KeyError` and still calls `g.add_process(p)`. So such a process goes to the
  device the previous process went to, and a first process naming no device
  raises `UnboundLocalError`. `Targets`, `TargetsFailIff`, `TargetsWhere` and
  `OrphanExample` state this behaviour. `AttachedConserved` states that every
  process ends up under exactly one device.
- **Both memory fields are right-aligned to width 5** (gpustat.py:85), so a
  device using 100 of 8000 MB shows `  100 /  8000 MB`.

## Model

| member | source | states |
|---|---|---|
| Text.Split | gpustat.py:144-146 | `s.split(sep)` gives at least one piece, and no piece contains the separator |
| Text.JoinSplit | gpustat.py:144-146 | joining the pieces of `s.split(sep)` on `sep` gives `s` back |
| Text.SplitJoin | gpustat.py:144-146 | splitting pieces joined on a separator they do not contain gives the pieces back |
| Text.JoinAvoids | gpustat.py:144-146 | a character other than the separator that no piece holds does not appear in the joined text |
| Text.Strip | gpustat.py:142 | `str.strip()`: Python's white space removed from both ends; `StripIsTrimmedSlice` and the two space-run lemmas characterise it, and `StripIdempotent` and `StripTrimmed` follow |
| Text.LeadingSpacesAreSpaces | gpustat.py:148 | the run `lstrip` removes is all white space and stops at the first other character |
| Text.TrailingSpacesAreSpaces | gpustat.py:148 | the run `rstrip` removes is all white space and stops at the last other character |
| Text.StripIsTrimmedSlice | gpustat.py:148 | `s.strip()` is the slice of `s` between leading and trailing white space, and neither of its ends is white space |
| Text.StripTrimmed | gpustat.py:148 | a string with no white space at either end strips to itself |
| Text.StripIdempotent | gpustat.py:142 | a general property of `str.strip()` as modelled: its result has nothing left to strip, so stripping it again changes nothing |
| Text.StripNoSpace | gpustat.py:148 | a string without white space strips to itself |
| Text.WordEnd | gpustat.py:183 | the first word of `s.split()` ends at the first white space or at the end |
| Text.WordsAreWords | gpustat.py:183 | every piece of `s.split()` is a non-empty run without white space |
| Text.WordsCons | gpustat.py:183 | a word followed by white space or nothing is the first piece of `split()` |
| Text.WordsOfJoin | gpustat.py:183 | words joined by single spaces split back into the same words |
| Text.ContainsIff | gpustat.py:182 | `'PID' in line` holds exactly when `PID` occurs at some position of the line |
| Text.LeftJustifyShape | gpustat.py:83 | `{:w}` on a string pads on the right to `w` and never truncates: width `max(len, w)`, the text first, then spaces |
| Text.RightJustifyShape | gpustat.py:84-85 | `{:>w}` pads on the left to `w` and never truncates: width `max(len, w)`, spaces first, then the text |
| Text.NatToString | gpustat.py:179 | `str(n)` of a non-negative integer is a non-empty string of decimal digits |
| Text.NatToStringValue | gpustat.py:179 | the digits `str(n)` writes are a valid literal whose value is `n` |
| Text.ParseInt | gpustat.py:173 | `int(s)` in base 10: surrounding white space ignored, one optional sign, then digits (underscores between them allowed), else `ValueError`; `ParseIntOfIntToString` is its round trip with `str` |
| Text.ParseIntOfIntToString | gpustat.py:173 | `int(str(n)) == n` for every integer |
| Colors.Wrap | gpustat.py:39-41 | `wrap(color, msg)` is the colour code, then the message, then the reset code |
| Colors.PaletteFor | gpustat.py:63-80 | temperature is BOLD_RED iff at least 50, RED below it; utilisation is BOLD_GREEN iff at least 30, GREEN below it; the fixed codes are as in `ANSIColors`; colours off blanks every code and only then |
| Device.Stream.Write | gpustat.py:106 | `fp.write(s)` appends `s` to what the stream holds |
| Device.GPUStat.constructor | gpustat.py:46-50 | a new device keeps its entry and has no process attached |
| Device.NewGPUStat | gpustat.py:46-50 | the constructor raises `TypeError` with the source's message exactly when the argument is not a dict; otherwise the device is new, with that entry and no processes |
| Device.GPUStat.Uuid | gpustat.py:109-111 | `uuid` is `entry['uuid']`, and raises `KeyError('uuid')` exactly when the key is absent |
| Device.GPUStat.AddProcess | gpustat.py:113-115 | `add_process` appends the process at the end, changes nothing else and returns the same device |
| Device.ProcessToken | gpustat.py:91-101 | the token `process_repr` builds for one process row; `PlainToken` and `ProcessTokenSucceedsIff` state its text and its `KeyError` cases |
| Device.GPUStat.ProcessRepr | gpustat.py:91-101 | the imperative `process_repr` computes the token `ProcessToken` specifies, or the same `KeyError` |
| Device.GPUStat.ProcessReprs | gpustat.py:103-104 | the loop over the processes builds `' ' + token` per process in order, stopping at the first that raises |
| Device.DeviceLine | gpustat.py:55-107 | the line `print_to` writes for one device; `PlainLineLayout`, `LineOfParts` and `DeviceLineSucceedsIff` state its layout and exactly when it raises |
| Device.GPUStat.PrintTo | gpustat.py:55-107 | `print_to` writes exactly the device's line when it can be drawn; otherwise it writes nothing and returns the exception |
| Device.ProcessTokenSucceedsIff | gpustat.py:91-101 | a token is drawn exactly when the row holds `used_memory`, holds `user` when the user is shown, and holds `pid` when the command or the pid is shown; otherwise a `KeyError` |
| Device.ProcessTokensSucceedIff | gpustat.py:103-104 | the process part of a line is drawn exactly when every attached process's token is |
| Device.PlainToken | gpustat.py:91-101 | with colours off the token is: the user iff `not show_cmd or show_user`; the command (the pid when `comm` is absent) iff `show_cmd`, with `:` only after a user; `/pid` iff `show_pid`; always `(<used_memory>M)` at the end |
| Device.PlainUserStep | gpustat.py:93-94 | the user part is the user name exactly when `not show_cmd or show_user` |
| Device.PlainCmdStep | gpustat.py:95-97 | the command part follows a `:` only when something precedes it, and falls back to the pid |
| Device.PlainMemStep | gpustat.py:100 | the token ends with `(<used_memory>M)` |
| Device.DeviceLineSucceedsIff | gpustat.py:63-107 | a line is drawn exactly when the entry has every field read, temperature and utilisation read as integers, and every process can be drawn |
| Device.PlainLineLayout | gpustat.py:78-104 | with colours off the line is `[index]`, a space, the name padded to the width, ` |`, temperature right-aligned to 3 and `'C, `, utilisation right-aligned to 3 and ` % | `, memory used and total right-aligned to 5 around ` / ` with ` MB`, then ` |` and the tokens |
| Device.PlainHead | gpustat.py:83-88 | the formatted head of a line drawn without colours, field by field |
| Device.LineEnding | gpustat.py:89-104 | a device without processes has a line ending in ` |`; one with processes has a line ending in the `)` of the last token |
| Device.LineOfParts | gpustat.py:83-104 | a drawn line is the head, then ` |`, then the process tokens, each of which was drawn |
| Device.DeviceLineOfParts | gpustat.py:83-104 | once palette and head are drawn, the line fails exactly when a token does, and is head + ` |` + tokens otherwise |
| Device.TokenEndsWithParen | gpustat.py:100 | every token ends with `)` |
| Device.TokensEndWithParen | gpustat.py:103-104 | the token part of a device with processes ends with `)` |
| Device.ColoredLineStartsWithEscape | gpustat.py:65-83 | with colours on, a line starts with an escape sequence |
| Device.HeadStartsWithEscape | gpustat.py:83 | a head drawn with the cyan index code starts with an escape |
| Device.PlainLineHasNoEscape | gpustat.py:78-80 | with colours off and escape-free fields, the line holds no escape character |
| Device.PlainTokensEscapeFree | gpustat.py:103-104 | escape-free process rows give an escape-free token part when colours are off |
| Device.PlainTokenEscapeFree | gpustat.py:91-101 | an escape-free process row gives an escape-free token when colours are off |
| Device.PlainHeadEscapeFree | gpustat.py:83-88 | an escape-free entry gives an escape-free head when colours are off |
| Device.PlainFieldsEscapeFree | gpustat.py:83-86 | each field of the head is escape-free when its value is and colours are off |
| Device.JustifyEscapeFree | gpustat.py:83-85 | padding adds no escape character |
| Rows.Get | gpustat.py:111 | `d[key]` returns the value, and raises `KeyError(key)` exactly when the key is absent |
| Rows.ParseRows | gpustat.py:144-151 | the line loop builds exactly the rows `RowsOf` specifies: one per non-empty line, in order |
| Rows.ZipRowFields | gpustat.py:148-150 | a row holds exactly the first `min(columns, fields)` columns, each mapped to its field stripped |
| Rows.ZipRowDomain | gpustat.py:148-150 | the keys of a row are the first `min(columns, fields)` columns, so missing fields leave keys absent |
| Rows.ZipRowValues | gpustat.py:148-150 | the i-th column maps to the i-th field stripped |
| Rows.ZipRowKeys | gpustat.py:168-170 | a row has no key outside its columns |
| Rows.RowsOfKeys | gpustat.py:165-171 | no parsed row has a key outside the columns |
| Rows.RowsOfPrinted | gpustat.py:165-171 | records printed as comma-separated lines read back as one row per record, paired with the columns |
| Rows.ParsePrinted | gpustat.py:139-151 | a whole table printed one record per line and parsed back gives the rows of the table |
| Rows.LinesAvoidNewline | gpustat.py:144 | a printed record is one line without a line break |
| Rows.PidMapOfKeys | gpustat.py:173 | the pid map has every entry's pid as a key, none resolved yet, and is empty exactly when there are no entries |
| Rows.PidMapOfKnown | gpustat.py:173 | every entry's pid reads as an integer that is a key of the pid map |
| Rows.PidMapOfUnresolved | gpustat.py:173 | every key of the new pid map is unresolved, and the map is empty only without entries |
| Rows.ReadPsListing | gpustat.py:181-187 | the `ps` loop computes exactly `PsLines`, and only adds keys to the pid map |
| Rows.PsLinesKeepKeys | gpustat.py:184 | reading the `ps` lines never removes a pid |
| Rows.PsLinesLastWins | gpustat.py:181-187 | a pid gets the owner of the last line naming it; a pid no line names keeps its value; a pid is a key exactly when it was one or a line names it |
| Rows.PsLinesSucceedIff | gpustat.py:181-183 | the listing is read exactly when every line is empty, contains `PID`, or has three words with an integer pid |
| Rows.Enrich | gpustat.py:198 | `entry.update(owner)` adds exactly `user` and `comm` with the owner's values and keeps every other key |
| Rows.DropUnowned | gpustat.py:190-198 | the removal loop over a copy leaves exactly the entries whose pid got an owner, in order, each updated with it |
| Rows.RunningProcesses | gpustat.py:156-200 | `running_processes` returns exactly `RunningProcessesOf`: parse, pid map, `ps` only when the map is non-empty, then the filter |
| Rows.SurvivorsAppend | gpustat.py:190-200 | the filter keeps the order: the survivors of `a + b` are those of `a`, then those of `b` |
| Rows.SurvivorsOfOne | gpustat.py:191-198 | one entry survives exactly when its pid got an owner, and then updated with it |
| Rows.SurvivorsFewer | gpustat.py:190-196 | filtering never adds entries |
| Rows.SurvivorsHaveUsers | gpustat.py:198 | every surviving entry has a `user` |
| Rows.ProcessRowsHaveNoUser | gpustat.py:158 | the process query has no `user` column, so no parsed row has one |
| Rows.DropStep | gpustat.py:190-198 | one step of the loop removes an ownerless entry and updates an owned one in place, keeping the list equal to the survivors so far followed by the rest |
| Rows.RemoveUnowned | gpustat.py:195 | `remove` of an entry without `user` removes the entry just after the survivors, which all have one |
| Rows.RemoveFirstAt | gpustat.py:195 | `list.remove(x)` drops the first element equal to `x` |
| OrderedDicts.Build | gpustat.py:121-123 | the dict built by storing each key in turn holds exactly the keys stored |
| OrderedDicts.BuildItems | gpustat.py:121-123 | each key holds the value stored last for it |
| OrderedDicts.BuildOrder | gpustat.py:121-123 | keys iterate in first-insertion order: a later store of a key keeps its place |
| OrderedDicts.DedupElements | gpustat.py:121-123 | the first-insertion order lists each stored key once |
| OrderedDicts.BuildWellOrdered | gpustat.py:121-123 | the built dict lists each of its keys exactly once |
| OrderedDicts.StoreWellOrdered | gpustat.py:123 | storing keeps the dict well ordered |
| OrderedDicts.WellOrderedSize | gpustat.py:219-220 | the dict's length is the number of keys in its order |
| OrderedDicts.LastIndex | gpustat.py:123 | the position found holds the key, and no later position does |
| Collection.UuidsOf | gpustat.py:122-123 | the uuids are read in order, and the first entry without one raises `KeyError('uuid')` |
| Collection.UuidsPrefixFailure | gpustat.py:122-123 | a device without a uuid makes the whole construction fail with that error |
| Collection.Targets | gpustat.py:204-210 | one target per process when attaching succeeds |
| Collection.TargetsFailIff | gpustat.py:204-210 | attaching raises exactly when the first process names no device, and then `UnboundLocalError('g')` |
| Collection.TargetsWhere | gpustat.py:204-210 | every process goes to a device of the collection: the one it names, otherwise the one the previous process went to |
| Collection.AttachedConserved | gpustat.py:204-210 | every process is attached to exactly one device: summed over the devices, the attached processes number the running processes |
| Collection.OrphanExample | gpustat.py:205-210 | with devices A and B, a process of A then one naming Z both go to A; a first process naming Z raises |
| Collection.Attachment | gpustat.py:202-210 | a successful attachment pairs each running process with one target |
| Collection.GPUStatCollection.constructor | gpustat.py:121 | the new collection's dict is empty |
| Collection.GPUStatCollection.Put | gpustat.py:123 | `self.gpus[g.uuid] = g` stores with `OrderedDict` semantics and keeps every device under its own uuid, or raises and changes nothing |
| Collection.GPUStatCollection.Len | gpustat.py:219-220 | `len` is the number of stored uuids |
| Collection.GPUStatCollection.Devices | gpustat.py:222-223 | iteration yields, in first-insertion order, the device stored under each uuid, whose own uuid is that key |
| Collection.GPUStatCollection.GetItem | gpustat.py:225-226 | `self[i]` is the device at position `i`, or at `i + len` when negative; it raises `IndexError` exactly outside `-len <= i < len` |
| Collection.NegativeIndex | gpustat.py:225-226 | `c[i - len(c)]` is `c[i]`, the device under the i-th uuid |
| Collection.GPUStatCollection.AttachProcesses | gpustat.py:204-210 | the loop appends to each device exactly the processes `Targets` sends to it, in list order, or raises and changes nothing |
| Collection.GPUStatCollection.UpdateProcessInformation | gpustat.py:202-211 | the running processes are attached per `Attachment`; a failure of `running_processes` or of attaching changes no device |
| Collection.StoreAll | gpustat.py:121-123 | the loop stores the devices under their uuids exactly as `Build` does, or raises the first `KeyError` |
| Collection.TableOfDevices | gpustat.py:121-123 | the dict holds only devices of the list, each the last one with its uuid |
| Collection.NewCollection | gpustat.py:120-126 | the collection holds the built dict, and each device gains exactly the processes attached to it; devices that start empty end with exactly those |
| Collection.NewDevices | gpustat.py:148-151 | one new device per row, in order, each with that entry and no process |
| Collection.NewQuery | gpustat.py:133-153 | the query raises exactly when `QueryError` names an error, and then raises that error; otherwise it returns a fresh valid collection satisfying `QueriedFrom`: the devices of the stripped output in first-insertion order of uuid, each with the row stored last for it and exactly the processes attached to it |
| Collection.NameWidth | gpustat.py:243 | `max([16] + [len(g.entry['name']) for g in self])`; `NameWidthBounds` states its value and its `KeyError` |
| Collection.NameWidthBounds | gpustat.py:243 | the name width is at least 16 and at least every name's length, and is one of those; it raises `KeyError('name')` exactly when an entry has no name |
| Collection.GPUStatCollection.PrintFormatted | gpustat.py:228-251 | `print(header_msg)` first writes the header line to stdout; then `fp` gets nothing more when the name width raises, or else `Body`: each device's line and a line break, stopping at the first line that raises. When `fp` is stdout, the body follows the header line in the same text |
| Collection.GPUStatCollection.PrintDevices | gpustat.py:242-251 | the name width over every device, then exactly `Body`'s text and exception, or the name width's `KeyError` and nothing written |
| Collection.PrintBody | gpustat.py:244-251 | the body loop writes exactly `Body`'s text and returns its exception |
| Collection.PrintStep | gpustat.py:244-251 | one pass of the body loop: after device `i`'s line and its line break, `fp` holds the body of the first `i + 1` devices, and the pass raises exactly what that body raises |
| Collection.BodyExtends | gpustat.py:244-251 | the output streams: what is written for the first devices is a prefix of what is written for all, and a raise stops the writing there |
| Collection.BodyWholeDrawn | gpustat.py:244-251 | a body written whole drew every device's line |
| Collection.BodyAllDrawn | gpustat.py:244-251 | when every line can be drawn the body is written whole |
| Collection.BodySucceedsIff | gpustat.py:244-251 | the body is written whole exactly when every device's line can be drawn |
| Cli.NonnegativeInt | gpustat/cli.py:70-75 | the value is accepted exactly when `int()` reads it as at least 0, and then as that number; a non-integer is a `ValueError`; a negative number is refused with "Only non-negative integers are allowed." |
| Cli.NonnegativeIntRoundTrip | gpustat/cli.py:70-75 | every non-negative integer written in decimal is accepted as itself |
| Cli.NegativeRefused | gpustat/cli.py:72-74 | every negative integer written in decimal is refused with the argument-type message |
| Cli.MaxReal | gpustat/cli.py:144 | `max(a, b)` is one of `a`, `b` and at least both |
| Cli.Dispatch | gpustat/cli.py:141-153 | the run exits with 1 exactly for `--json` with a positive interval; it watches exactly for a positive interval without `--json`, at `max(0.1, interval)`; a single report runs exactly when the interval is not positive; `-i` without a value watches every second |
| Cli.Namespace.constructor | gpustat/cli.py:131 | the namespace `parse_args` returns holds every option with both `show_all` and `interval` present |
| Cli.NormaliseArgs | gpustat/cli.py:132-153 | `main` after parsing: `-a` turns on every `show_*` setting with codec `enc,dec` and power `draw,limit`, otherwise they are untouched; `show_all` is deleted; the interval becomes `max(0.1, interval)` (1.0 when given bare) or is deleted for a single report; the conflict message is written and the mode is `Dispatch` |
| Cli.PrintGpustat | gpustat/cli.py:11-32 | exactly when the query raises (`QueryError`), the query error is written to stderr and the status is exit 1 with nothing on stdout; otherwise the returned collection is the one the query builds from the outputs (`QueriedFrom`), stderr is untouched, `--json` hands over to `print_json`, and the formatted report, header line first, is written to stdout exactly as `print_formatted` writes it (`Reported`) |
| Cli.Report | gpustat/cli.py:29-32 | after a successful query, `--json` writes nothing and hands over to `print_json`; otherwise stdout first gains the header line; then, when the name width raises, no body is written and that error is raised, and else stdout gains exactly the body `print_formatted` writes and the status is the first error raised while writing it, or `Printed` |
| Cli.Run | gpustat/cli.py:35-53 | the sleeps and the end of the watch loop over a run of passes; `RunStopped`, `InterruptReturnsZero`, `RunKeepsGoing`, `SleepsBounded` and `SlowTickNoSleep` state its properties, and `LoopGpustat` is proved against it |
| Cli.SleepDuration | gpustat/cli.py:48-51 | a pass sleeps exactly when the query took less than the interval, and then for a positive time that makes up the interval |
| Cli.LoopGpustat | gpustat/cli.py:35-53 | the watch loop over a run of passes sleeps and ends exactly as `Run` says |
| Cli.InterruptReturnsZero | gpustat/cli.py:52-53 | a keyboard interrupt after reports that went through makes the loop return 0 |
| Cli.RunKeepsGoing | gpustat/cli.py:39-51 | reports that go through keep the loop running |
| Cli.RunStopped | gpustat/cli.py:39-53 | once the loop has returned or an exit propagated, later passes change nothing |
| Cli.SleepsBounded | gpustat/cli.py:48-51 | there is at most one sleep per pass, every sleep is positive, and none is longer than the interval when no query takes negative time |
| Cli.SlowTickNoSleep | gpustat/cli.py:48-51 | a pass whose query took at least the interval does not sleep |

## Left out

- The subprocess calls to `nvidia-smi` and `ps` (gpustat.py:139-142, 159-162, 177-180) are I/O. Their decoded outputs are string parameters of `NewQuery`, `RunningProcesses` and `PrintGpustat`, and the `ps` command line is not built.
- QueryError, NewQuery, PrintGpustat: a failing `check_output` cannot be expressed, because the outputs are plain strings. This leaves out `CalledProcessError` when `nvidia-smi` or `ps` exits non-zero (gpustat.py:139, 159, 177; `ps -p` fails when every listed pid has already exited) and `OSError` when `nvidia-smi` is missing. In the source these are the usual way to reach exit 1 (gpustat/cli.py:14-16); the model reaches it only through errors raised while parsing the outputs.
- Collection.GPUStatCollection.GetItem: models `self[index]` (gpustat.py:225-226) for an integer index only. A slice such as `self[1:]`, which returns a list of devices, is not modelled.
- The host name, the query time and the locale time format that make up the header message of `print_formatted` (gpustat.py:129-130, 232-237) depend on the environment and the clock. The rendered message, with its `WHITE` and `RESET` codes when colours are on, is the `header` parameter of `PrintFormatted`, `Report` and `PrintGpustat`, which write it as `print` does (gpustat.py:240), and the collection has no `hostname` or `query_time`.
- `fp.flush()` (gpustat.py:253) has no observable effect on the text model of a stream.
- `__repr__` of both classes, `self_test` and the `main` of gpustat.py are debugging and command line wrappers.
- Python's `int()` accepts digits of other scripts (Arabic-Indic, full-width and so on). `ParseInt` accepts ASCII digits with single underscores between them, after stripping white space and taking one optional sign.
- A name-width format spec of `0` (`{:0}`) cannot arise: `print_formatted` passes a width of at least 16 (`NameWidthBounds`), and `print_to`'s default is 16 (gpustat.py:60).
- The attaching and filtering loops work on Python objects shared by reference. The model keeps rows as values. `DropUnowned` updates the entry at the position it now holds in the list, which is the object `process_entry.update` changes.
- Collection.NewCollection: a device that a later one with the same uuid replaces in the dict is not described after the call. Its processes are untouched because nothing refers to it any longer.
- Collection.NewQuery: the rows of the whole output are parsed before the first device is built, where the source builds each device as its line is read. No exception can arise between the two, so the result is the same.
- The `blessed` terminal (fullscreen, cursor moves, `clear_eol`, `clear_eos`; gpustat/cli.py:36-46) is terminal plumbing. `LoopGpustat` does not model the screen output of a pass.
- Cli.LoopGpustat: `time.time` and `time.sleep` are the clock. Each pass's `print_gpustat` outcome and query duration are inputs (a `Tick`), the sleeps taken are the output, and the endless loop is observed over a finite run of passes, ending `Running` when the passes run out.
- The SIGPIPE handler (gpustat/cli.py:61-65), argparse itself (option spelling, `choices`, `--version`, mutually exclusive colour flags) and `traceback` printing under `--debug` (gpustat/cli.py:18-26) are left out. `NormaliseArgs` starts from the namespace argparse returns, and `PrintGpustat` exits with 1 whether or not `--debug` is given.
- `print_json` and the rendering options of `gpustat.core` are left out: `eol_char`, `show_full_cmd`, `show_fan_speed`, `show_codec`, `show_power`, `show_header`, `gpuname_width`, `no_processes` and `force_color`. `gpustat.core` is not part of this model. The shown `print_formatted` takes only `no_color`, `show_cmd`, `show_user` and `show_pid`, and `PrintGpustat` passes those.
- Intervals are `real`. Floating-point rounding, NaN and infinities of Python's `float` are not modelled.
