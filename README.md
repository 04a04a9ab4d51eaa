# qforge-solutions in Dafny

This project models the laboratory-control scripts of qforge-solutions.

- **The command relay.** A socket server takes text commands of the form `DEV::VERB::PAYLOAD`. It forwards them to a GPIB instrument (so far only the LakeShore temperature controller, id `LS`) and sends back one reply per command.
- **The instrument logic around the relay:**
  - the bus driver, which turns a transport error into `"timed out"`;
  - the fake drivers and simulated instruments;
  - the LakeShore client, which validates its arguments, encodes commands and decodes replies.
- **The sequential state and text rules of data acquisition:**
  - the pause/continue/stop flags of the data tab;
  - append-only CSV data files with their header order and averaging;
  - the REPL command parser of the example script;
  - the new-file dialog's presets;
  - the live plot's label reading;
  - the axis linking of the plotting tab;
  - the shared-drive lookup;
  - the uncertainty-pair classifier.

Python exceptions become a `Fault` result (`Outcomes.Result`), never an invented value. Objects whose fields the scripts update in place are classes with `modifies` clauses, and a data file is a class holding an append-only `seq<string>` of lines. Pure helpers are functions with lemmas beside them. The following become parameters:

- every device reply;
- the clock and the random draws;
- `str()` of a float.

`Text` and `Rows` hold Python's string operations (`upper`, `lower`, `split`, `strip`, `rstrip`, `replace`, `in`, `find`, slicing, `str(list)`) as functions with their properties. They are helpers of the model and have no row below.

## Model

| member | source | states |
|---|---|---|
| Server.Handle | GPIB/server.py:36-88 | handle faults exactly when planning the message faults; otherwise the reply is the plan's answer with the bus outcome |
| Server.NoDelimiterContains | GPIB/server.py:42 | the field condition used below is exactly the absence of `::` as Python's `in` tests it |
| Server.SplitAfterField | GPIB/server.py:42 | when `a` holds no `::` and does not end in `:`, splitting `a + "::" + rest` cuts exactly after `a` |
| Server.SplitWholeField | GPIB/server.py:42 | a text without `::` is one piece |
| Server.ParseFrame | GPIB/server.py:42-51 | a message `id::verb::payload` parses to the three fields, all upper-cased (the payload too). The only conditions are that no field holds `::` and that id and verb do not end in `:`; single colons, as in `V: 1.00`, are kept |
| Server.ParseNoPayload | GPIB/server.py:48-51 | a message `id::verb` with no `::` in either field, and id not ending in `:`, gets the payload `""` |
| Server.ParseIgnoresExtraFields | GPIB/server.py:42-51 | fields after the third are ignored: the parse equals that of the first three, whatever follows the third `::` |
| Server.ParseFaultIffNoDelimiter | GPIB/server.py:42-45 | parsing faults (IndexError at `msg_list[1]`) if and only if the upper-cased message holds no `::` |
| Server.UnknownDeviceRefused | GPIB/server.py:54-63 | any id other than `LS` plans no device operation and replies exactly `"Did not give a valid device id: "` plus the upper-cased id, whatever the verb and payload |
| Server.LakeShoreDispatch | GPIB/server.py:67-88 | for `LS` only the verb's first letter decides: W writes the payload and replies `'empty'`; Q queries with the payload; R reads and ignores the payload; an empty verb faults with IndexError; any other letter faults with UnboundLocalError |
| Server.NoDelimiterFaults | GPIB/server.py:42-45 | a message without `::` makes handle fault with IndexError |
| Server.VoltageFrameRefused | GPIB/server.py:42-63 | `"VS::W::V: 1.00"`, a set_voltage write framed for the relay, gets the refusal for id `VS` |
| Server.UpperCaseSentinelFaults | GPIB/server.py:15 | `"SHUTDOWN"` is not the sentinel (that comparison comes before upper-casing), and handle faults on it |
| Server.OneReplyPerMessage | GPIB/server.py:116-136 | on a connection of ordinary messages there is exactly one reply per message, in order. Reply i answers message i's own plan with the bus outcome of its own device operation. The connection stays open, and every device operation is counted |
| Server.HandleIsReply | GPIB/server.py:133-136 | each reply sent for an ordinary message is exactly what handle returns for it |
| Server.ConnectionEndIsFinal | GPIB/server.py:116-125 | after the sentinel or a fault, nothing later on that connection is read |
| Server.ConnectionAppend | GPIB/server.py:116-136 | serving ordinary messages and then the rest gives their replies followed by the rest's replies, counted on from where they left off |
| Server.EmptyReadEndsConnection | GPIB/server.py:120-121 | an empty read ends the connection: whatever follows it is dropped |
| Server.ShutdownEndsConnection | GPIB/server.py:122-125 | the sentinel stops the connection with no reply of its own and ends the session as Shutdown |
| Server.ServeAppend | GPIB/server.py:108-113 | a connection the client closed does not stop the server: the next connection is served from the device-operation count the first one left |
| Server.ServeEndIsFinal | GPIB/server.py:108-125 | once the sentinel arrives (or handle raises), no later connection is served |
| Server.ServeStep | GPIB/server.py:108-113 | serving from connection ci on is serving connection ci and then, if the client closed it, the rest |
| Server.GpibServer.constructor | GPIB/server.py:17-30 | a new server is not running, has sent nothing, and holds the LakeShore bus resource at the address-table address |
| Server.GpibServer.Run | GPIB/server.py:90-136 | run sends exactly the replies of Serve over the connections, in order, and counts the device operations. `running` ends false if and only if the sentinel arrived |
| Server.GpibServer.Listen | GPIB/server.py:94-136 | the accept loop, proved for any way of planning a message: replies, operation count and end are those of Serve; `running` is false exactly after the sentinel |
| Server.GpibServer.Converse | GPIB/server.py:113-136 | one connection: the replies appended, the operations counted and the way it ended are those of ServeConnection; only the sentinel clears `running` |
| Server.EchoReply | GPIB/server.py:171 | the echo reply has the message's length and holds the message's characters in reverse order |
| Server.EchoRoundTrip | GPIB/server.py:139-172 | reversing the echo reply gives back the message, and `"ping"` gets `"gnip"` |
| Server.PortAgrees | GPIB/server.py:17 | the server's default port is the port of the address table |
| Gpib.ResourceName | GPIB/gpib.py:17 | the resource is named `"GPIB{gpib_num}::{address}::INSTR"`, and splitting it on `::` gives back its three parts |
| Gpib.DeviceCall | GPIB/gpib.py:19-39 | read and query return the transport's text; write returns `"sent"`; each returns `"timed out"` on VisaIOError |
| Gpib.TimedOutMeansError | GPIB/gpib.py:19-39 | when the instrument never answers `"timed out"` itself, that reply means, in both directions, that the transport failed |
| Gpib.DeviceGetId | GPIB/gpib.py:48-49 | get_id is the query `"*IDN?"` |
| Gpib.FakeQuery | GPIB/gpib.py:69-72 | the fake query reply is the fixed prefix followed by the message unchanged |
| Gpib.FakeQueryInjective | GPIB/gpib.py:69-72 | two fake query replies are equal if and only if the messages are |
| Gpib.FakeCall | GPIB/gpib.py:59-72 | the fake write returns nothing, the fake read returns `"Read from fake GPIB interface"`, and the fake query returns the echo |
| Gpib.FakeGetId | GPIB/gpib.py:79-81 | the fake id is a fixed text that no fake query reply equals |
| Gpib.FakeQueryAscii | GPIB/gpib.py:74-77 | query_ascii gives the ten values 0..9 whatever the message |
| FakeDevices.SimulatedTemperature | fake_gpib_devices.py:14 | the simulated reading 300 − 0.1·elapsed + r, with r in [0, 1), lies in [300 − elapsed/10, 301 − elapsed/10) |
| FakeDevices.LakeShoreRules | fake_gpib_devices.py:10-18 | the exact `"KRDG? A"` gets the reading; any other message containing `"PID?"` gets `"1,1,1"`; everything else gets the echo with the message unchanged |
| FakeDevices.PidQueriesAnswered | fake_gpib_devices.py:15-16 | the queries `"PID? n"` that read_pid sends all get `"1,1,1"` |
| FakeDevices.LakeShoreCall | fake_gpib_devices.py:3-8 | the simulated controller answers read and write exactly as the Fake driver it inherits from, and query by its own rules |
| FakeDevices.SimulatedVoltage | fake_gpib_devices.py:24-26 | the simulated voltage (3 + r1)·sin(…), with r1 in [0, 1), lies strictly between −4 and 4 |
| FakeDevices.SimulatedCounts | fake_gpib_devices.py:35-36 | the simulated count rate 3000 + 1000·r·sin(…), with r in [0, 1), lies strictly between 2000 and 4000 |
| FakeDevices.SingleQueryRules | fake_gpib_devices.py:21-38 | the voltage supply and the photon counter give their reading only for their exact query; every other message comes back inside the echo unchanged |
| FakeDevices.QueriesNotShared | GPIB/fake_gpib_devices.py:45-62 | the voltage supply echoes `"C?"` and the photon counter echoes `"V?"` |
| FakeDevices.SetVoltage | GPIB/fake_gpib_devices.py:9-16 | set_voltage writes `"V: v"` to device `VS` and returns `"Set voltage to v"` |
| FakeDevices.ReadVoltage | GPIB/fake_gpib_devices.py:18-20 | read_voltage sends exactly the query `"V?"` to `VS` and returns the reply |
| FakeDevices.ReadCounts | GPIB/fake_gpib_devices.py:23-29 | read_counts sends exactly the query `"C?"` to `PC` and returns the reply |
| Get.GoogleDriveTable | get.py:12-27 | the drive-path decision table: darwin; linux with the user's name; Windows with the `etcto` exception; `""` if and only if the platform is neither and `os.name` is not `nt` |
| Get.GoogleDriveIgnoresUser | get.py:15-24 | off Linux, the user's name matters only when it is `etcto` |
| Get.GpibAddressTable | get.py:30-32 | the address table maps LS to 13, SCOPE to 10 and VS to 4, and no two instruments share an address |
| LakeShore.CheckLoop | GPIB/lakeshore.py:40-41 | the loop check passes if and only if the loop is 1 or 2, and otherwise raises `"invalid loop: {loop}"` |
| LakeShore.DecodeFloat | GPIB/lakeshore.py:32 | float(reply) succeeds exactly when the reply parses, with the parsed value, and otherwise raises ValueError. Storing a reply into a numpy float array (data_file.py:53-55) converts it the same way |
| LakeShore.DecodeFloats | GPIB/lakeshore.py:43 | decoding the fields succeeds exactly when every field parses; the result has one value per field, in order |
| LakeShore.ReadHeaterOutput | GPIB/lakeshore.py:30-32 | read_heater_output is float of the reply to `"HTR?"` |
| LakeShore.ReadPid | GPIB/lakeshore.py:38-44 | read_pid rejects a bad loop before any query; otherwise it gives the comma-separated fields of the reply to `"PID? {loop}"` as floats |
| LakeShore.ReadRampSpeed | GPIB/lakeshore.py:46-50 | read_ramp_speed rejects a bad loop; otherwise it gives field 1 of the reply to `"RAMP? {loop}"`, with IndexError when that field is missing |
| LakeShore.ReadRampStatus | GPIB/lakeshore.py:52-56 | read_ramp_status rejects a bad loop; otherwise it gives whether int of the reply to `"RAMPST? {loop}"` is non-zero |
| LakeShore.ReadSetpoint | GPIB/lakeshore.py:58-62 | read_setpoint rejects a bad loop; otherwise it gives float of the reply to `"SETP? {loop}"` |
| LakeShore.TemperatureRequest | GPIB/lakeshore.py:64-75 | the channel is checked first and then the units, both upper-cased; the request succeeds if and only if both are valid, and it is exactly `"{units}RDG? {channel}"` |
| LakeShore.ReadTemperature | GPIB/lakeshore.py:64-75 | read_temperature raises the request's error, or gives float of the reply |
| LakeShore.DefaultTemperatureQuery | GPIB/lakeshore.py:64 | the default read, and a lower-case `a`/`k`, both send `"KRDG? A"` |
| LakeShore.ChecksBeforeIO | GPIB/lakeshore.py:40-75 | a bad loop, channel or unit gives the same result whatever the device answers, so no I/O decides it |
| LakeShore.SetRampSpeed | GPIB/lakeshore.py:106-110 | set_ramp_speed rejects a bad loop, and otherwise writes `"RAMP {loop}, 1, {rate}"` |
| LakeShore.SetSetpoint | GPIB/lakeshore.py:112-118 | set_setpoint rejects a bad loop; raises ValueError when float(value) fails; otherwise writes `"SETP {loop}, {float(value)}"` |
| LakeShore.HeaterRanges | GPIB/lakeshore.py:23-26 | the table is [0, 0.05, 0.5, 5, 50] W for model 340 and [0, 0.5, 5, 50] W otherwise |
| LakeShore.HeaterRangesAscending | GPIB/lakeshore.py:23-26 | both tables are strictly ascending, from 0 W to 50 W |
| LakeShore.ReadHeaterRange | GPIB/lakeshore.py:34-36 | the result is a table entry. int() failing raises ValueError, and an index outside the table raises IndexError; negative indices count from the end, as numpy does |
| LakeShore.ArgMin | GPIB/lakeshore.py:83 | np.argmin returns the first position holding the least value |
| LakeShore.ArgMinShiftInvariant | GPIB/lakeshore.py:83 | subtracting the same power from every entry does not move the first minimum (both directions) |
| LakeShore.AscendingFirstMin | GPIB/lakeshore.py:83 | in an ascending table, the first entry is the first minimum |
| LakeShore.SetHeaterRange | GPIB/lakeshore.py:77-87 | the setting is the argmin of the table; for the 50 W entry nothing is written unless overridden; otherwise `"RANGE {setting}"` is written |
| LakeShore.HeaterRangeAlwaysZero | GPIB/lakeshore.py:80-87 | for both tables and any power, the argmin of the shifted table is index 0, which is never the 50 W entry |
| LakeShore.Client.constructor | GPIB/lakeshore.py:15-28 | the heater table follows the model number. The stored PID list is the dummy entry, then the tuples read_pid(1) and read_pid(2) decode from the device's replies |
| LakeShore.Connect | GPIB/lakeshore.py:15-44 | construction fails with read_pid(1)'s exception, or else read_pid(2)'s. It succeeds exactly when both decode, and the new client then stores the two tuples |
| LakeShore.FakeControllerConnects | GPIB/lakeshore.py:28-44 | the simulated controller's replies always decode, to (1, 1, 1) for both loops |
| LakeShore.Client.SetRange | GPIB/lakeshore.py:77-87 | on either controller, set_heater_range always writes `"RANGE 0"` |
| LakeShore.Client.SetPid | GPIB/lakeshore.py:89-104 | a bad loop raises. Any explicit term faults, because it is stored into the tuple read_pid returned. Only a call with all terms omitted writes, and it writes `"PID {loop}, {p}, {i}, {d}"` from the stored triple |
| LakeShore.SplitOnes | fake_gpib_devices.py:16 | the simulated reply `"1,1,1"` splits into three `"1"` fields |
| LakeShore.DecodeOnes | GPIB/lakeshore.py:43 | the three fields `"1"` decode to 1.0, 1.0, 1.0 |
| LakeShore.FakePidIsOnes | GPIB/lakeshore.py:28 | read_pid on the simulated controller gives (1, 1, 1) for both loops |
| Calculations.Pairing | caclulations.py:38-51 | the name is lower-cased first and the first passing test decides. ValueError with the lower-cased name is raised if and only if no test passes. The factor is c for momentum/position and 1 for time/energy |
| Calculations.HeisenbergPair | caclulations.py:31-53 | heisenberg_pair gives the pair's name and a value v with 2·Δ·v = factor·ħ. It raises the naming error first, then ZeroDivisionError for a zero uncertainty |
| Calculations.PairingIgnoresCase | caclulations.py:38 | a name and its lower-cased form pair alike |
| Calculations.PairingOfCapitals | caclulations.py:38 | a name written in capitals pairs like the name |
| Calculations.PositionTestFirst | caclulations.py:40-45 | the first match wins: `"posmom"` pairs with momentum |
| Calculations.MomentumPairsWithPosition | caclulations.py:43-45 | `"momentum"` pairs with position, factor c |
| Calculations.PositionPairsWithMomentum | caclulations.py:40-42 | `"position"` pairs with momentum, factor c |
| Calculations.TimePairsWithEnergy | caclulations.py:48-49 | `"time"` pairs with energy, factor 1 |
| Calculations.EnergyPairsWithTime | caclulations.py:46-47 | `"energy"` pairs with time, factor 1 |
| Calculations.PairingTwice | caclulations.py:38-49 | pairing the partner's name gives back the first pairing |
| Calculations.UnknownNameRefused | caclulations.py:50-51 | `"X"` raises ValueError with the message `"Invalid variable name: x."` |
| TabPlot.LinkAxes | gui/tab_plot.py:36-46 | every pair ii < jj of the flattened plots is visited once, in row-major order. X axes are linked if and only if link_x holds and the x labels agree ignoring case; y axes likewise with link_y |
| TabPlot.PlaceAll | gui/tab_plot.py:49-51 | `plots[ii][jj]` is placed at cell (ii, jj): every plot once, nothing else, row after row |
| TabPlot.DefaultFlattened | gui/tab_plot.py:32-37 | the default grid flattens to TvV, Tvt, CvT, Cvt |
| TabPlot.DefaultLabelMatches | gui/tab_plot.py:25-33 | among the default plots, only the two time plots share an x label, and only the two temperature plots share a y label |
| TabPlot.DefaultLinks | gui/tab_plot.py:10 | with the default arguments, the only link is the x link between the two time plots, and there is no y link |
| TabPlot.PlotTab.constructor | gui/tab_plot.py:15-61 | a new plot tab is live, shows no file, and its button state matches |
| TabPlot.PlotTab.InitializePlots | gui/tab_plot.py:74-75 | initialising the plots records the file name |
| TabPlot.PlotTab.SetLivePlotting | gui/tab_plot.py:78-86 | `live_plotting` becomes on; the update button is enabled exactly when it is off; the tool tip names the mode |
| TabPlot.PlotTab.SwapLive | gui/tab_plot.py:89-90 | swap_live negates `live_plotting` and keeps the button state matching |
| OpenFiles.NewFileName | data_file.py:73-75 | the full name always contains `.csv`; the extension is appended only when `.csv` occurs nowhere in the joined path (a substring test, not a suffix test) |
| OpenFiles.OpenDataFile.Open | data_file.py:34-41 | opening a data file writes nothing and only records the path |
| OpenFiles.OpenDataFile.New | data_file.py:72-87 | a new file holds exactly three lines, in order: the creation line; `"# " + comment` (written even for an empty comment); the row of the four column labels |
| OpenFiles.OpenDataFile.WriteRow | data_file.py:60-63 | write_row appends exactly one line, `str(row)` without its brackets, and changes no earlier line |
| OpenFiles.OpenDataFile.WriteComment | data_file.py:65-68 | write_comment appends exactly the line `"# " + comment` |
| OpenFiles.OpenDataFile.CreateFile | data_file.py:85-87 | create_file replaces the whole content with the one creation line |
| OpenFiles.OpenDataFile.TakeDataPoint | data_file.py:43-58 | take_data_point returns the average of `ave` rounds. The averaged row is appended exactly once, and nothing is written when a round or the division fails |
| OpenFiles.ColumnLabelsPlain | data_file.py:81 | the column labels hold no quote, comma or backslash and no edge space, so their row reads back unchanged |
| Averaging.RoundReading | data_file.py:51-55 | one round reads the clock, then the voltage supply (`"V?"` to VS), then the temperature (`"KRDG? A"` to LS), then the counts (`"C?"` to PC) |
| Averaging.RoundSample | data_file.py:51-55 | a round fails at the first store that fails, in the order voltage, temperature, counts, and otherwise gives the four values |
| Averaging.Rounds | data_file.py:51 | rounds 0..n-1 succeed exactly when each round does, giving their samples in order |
| Averaging.Stores | data_file.py:51-55 | each round stores what its reading converts to |
| Averaging.InstrumentRounds | data_file.py:51-55 | round i stores the reading taken at clock time i against the instruments' replies at round i |
| Averaging.RoundsFaultStays | data_file.py:51-55 | once a round has failed, no longer run of rounds succeeds, and its error is kept |
| Averaging.Column | data_file.py:47-50 | the k-th array holds the k-th value of every round, one entry per round |
| Averaging.Means | data_file.py:56 | the data point has four entries, each the sum of its array divided by the round count |
| Averaging.Averaged | data_file.py:46-58 | a negative ave raises ValueError (np.zeros), ave 0 raises ZeroDivisionError, and a failing round raises its own error. Otherwise the result is the four means of the rounds, in the order time, voltage, temperature, counts |
| Averaging.AveragedAfterFault | data_file.py:51-55 | the first failing round's error is what take_data_point raises |
| Averaging.Average | data_file.py:46-56 | the loop over the four arrays computes exactly Averaged |
| Averaging.ConstantRoundsAverage | data_file.py:56 | when every round gives the same sample, the average is that sample |
| Averaging.SingleRound | data_file.py:46-56 | with ave = 1 the point is the single round's readings |
| Averaging.MeanWithin | data_file.py:56 | every mean lies within any bounds all its rounds' values lie within |
| CsvFiles.NormalizeName | data_files.py:29-31 | a normalised name always ends in `.csv` |
| CsvFiles.NormalizedStem | data_files.py:29-31 | the stem of a normalised name holds no `.` and does not end in c, s or v |
| CsvFiles.NormalizeIdempotent | data_files.py:29-31 | normalising a normalised name leaves it unchanged |
| CsvFiles.NormalStemTail | data_files.py:29-31 | a `.`-free stem not ending in c, s or v, followed by any characters of {`.`, c, s, v}, normalises to the stem plus `.csv` |
| CsvFiles.MassLosesItsEss | data_files.py:29 | rstrip strips a character set, not a suffix: `"mass.csv"` becomes `"ma.csv"` |
| CsvFiles.CSVFile.constructor | data_files.py:20-48 | the file name is the joined normalised name; the file is new exactly when it did not exist, and only then is the creation line written. A comment line follows only for a non-empty comment |
| CsvFiles.CSVFile.WriteRow | data_files.py:50-53 | write_row appends exactly one line, `str(row)` without its brackets |
| CsvFiles.CSVFile.WriteComment | data_files.py:55-58 | write_comment appends exactly the line `"# " + comment` |
| CsvFiles.CSVFile.CreateFile | data_files.py:60-63 | create_file replaces the whole content with the one creation line |
| CsvFiles.FrequencyPrefix | data_files.py:148-164 | the prefix is `""` below 1e3, then k, M, G and T below 1e6, 1e9, 1e12 and 1e15, else P. The value divided by the prefix's power gives back the frequency, and below 1e15 it lies in [1, 1000) |
| CsvFiles.FrequencyLabels | data_files.py:142-169 | get_labels as written: no frequencies leave the labels empty; any frequency raises ValueError at `for ll, label in DataFile.labels` |
| CsvFiles.GetDataPoint | data_files.py:122-131 | get_data_point as written raises AttributeError, because `self.device` is None |
| CsvFiles.SliceAssign | data_files.py:139 | `data[lo:hi] = v` keeps what lies before lo, puts v at lo, and changes the length by `len(v) − (hi − lo)` |
| CsvFiles.SweepFrequencies | data_files.py:133-140 | the loop of sweep_frequencies computes the list after all the frequencies, failing at the first failing point |
| CsvFiles.SweepFaultStays | data_files.py:136-139 | once a point has failed, the sweep's result stays that failure |
| CsvFiles.SweepBlocks | data_files.py:97-140 | with 4 values per frequency, the sweep returns 4·len(freqs) values, and block ff (positions 4ff..4ff+3) is the point of `freqs[ff]` |
| CsvFiles.TemperatureIndex | data_files.py:106-109 | the unit loop stops at the first label containing "temperature" (ignoring case), or at the last label |
| CsvFiles.UnitsOf | data_files.py:111 | the unit extraction raises IndexError exactly when the label holds no `(` |
| CsvFiles.UnitsBetweenParens | data_files.py:111 | a label `name (units) rest` gives exactly `units` |
| CsvFiles.TemperatureUnits | data_files.py:106-111 | the unit is the text between the parentheses of the label the loop stops at; with no labels, `temperature_label_index` is unbound |
| CsvFiles.TemperatureIndexIs | data_files.py:106-109 | the loop stops at the index k that is the first temperature label or the last one; it is unique |
| CsvFiles.ClassLabelUnits | data_files.py:69-111 | for the class labels, the loop stops at index 1, and the unit is `"K"` |
| CsvFiles.DataFile.constructor | data_files.py:71-111 | a DataFile is not running, has temperature unit `"K"` and keeps the frequencies. Its file is the CSVFile's, followed by the (empty) label row only for a new file |
| CsvFiles.DataFile.TakeDataContinuous | data_files.py:113-120 | take_data_continuous sets `running` and appends one sweep row per iteration. The first failing sweep raises, writes nothing and leaves `running` set, as the exception does. A loop that ends normally ends with `running` cleared |
| CsvFiles.DataFileRowsEmpty | data_files.py:97-135 | a DataFile's sweep over its frequencies is the empty list, written as the empty line |
| CsvFiles.DataFileGuiExample.constructor | data_files.py:176-195 | the path is split at its last `/` (the POSIX `os.sep`) into directory and name; the label row is written only for a new file |
| CsvFiles.DataFileGuiExample.TakeDataPoint | data_files.py:197-212 | the point is the average of the instrument rounds; its row is appended exactly once, and nothing is written on a fault |
| DataTaking.HelpLines | data_taking_example.py:62-63 | "help" prints one line `"Type '{command}' to {info}"` per entry of the command list, in order |
| DataTaking.TemperatureFieldExists | data_taking_example.py:69 | a message starting with `"T="` always has a second `=`-field, so `[1]` never raises |
| DataTaking.TemperatureField | data_taking_example.py:69 | after `"T="`, the fields are `"T"` followed by the fields of the upper-cased, space-free rest |
| DataTaking.Classify | data_taking_example.py:59-75 | "help" and "stop" match in any case. The `"T="` test is case-sensitive and comes only after them, and it leads to a setpoint exactly when float() accepts the temperature text; otherwise the message is invalid |
| DataTaking.TemperatureCommand | data_taking_example.py:67-73 | a `"T="` message (other than help/stop) sets the temperature float() reads from its text, and is a bad temperature when float() fails |
| DataTaking.LowerCasePrefixUnknown | data_taking_example.py:67-75 | `"t=…"` falls through to "Invalid command" |
| DataTaking.TemperatureOfRest | data_taking_example.py:69 | for `"T=" + rest` without `=`, the temperature text is the upper-cased, space-free rest without its leading K's |
| DataTaking.WholeTemperatureAccepted | data_taking_example.py:67-71 | `"T=" + n`, for digits n, sets the setpoint to n |
| DataTaking.DigitsTemperatureText | data_taking_example.py:69 | for digits, the temperature text is the digits themselves |
| DataTaking.TrailingUnitRejected | data_taking_example.py:67-73 | a trailing unit survives the extraction: `"T=" + x + " K"` is always a bad temperature |
| DataTaking.UnitText | data_taking_example.py:69 | the temperature text of `"T=" + x + " K"` keeps the trailing `K` |
| DataTaking.KEndRejected | data_taking_example.py:69-73 | float() rejects any text ending in `K` |
| DataTaking.HelpExampleRejected | data_taking_example.py:19-73 | the help text's own example `"T=[xx.x] K"` is rejected as an invalid temperature |
| DataTaking.Manager.constructor | data_taking_example.py:22-38 | a new manager has printed the greeting, started no thread, sent nothing, and its data file is not running |
| DataTaking.Manager.Start | data_taking_example.py:40-44 | start starts the server thread before the data thread and changes nothing else |
| DataTaking.Manager.Stop | data_taking_example.py:46-51 | stop clears `running`, then joins the data thread, then sends `"shutdown"`, then joins the server thread |
| DataTaking.Manager.Parse | data_taking_example.py:59-75 | each command class has its whole effect. help prints the help lines; stop stops and prints `"Exiting Program"`. A good temperature writes `"SETP 1, {t}"` and prints the notice; a bad one prints `"Invalid temperature value"` and writes nothing. Anything else prints `"Invalid command. Try 'help'"` |
| DataTaking.Manager.StopAndSay | data_taking_example.py:64-66 | the stop branch: stop's events, then `"Exiting Program"` printed |
| DataTaking.Manager.PrintHelp | data_taking_example.py:61-63 | "help" prints exactly the help lines |
| DataTaking.Manager.SetTemperatureFrom | data_taking_example.py:67-73 | a temperature float() accepts writes `"SETP 1, {t}"` and prints the set-point notice; otherwise it prints `"Invalid temperature value"` and sends nothing |
| DataTaking.Manager.WaitForInput | data_taking_example.py:53-57 | wait_for_input returns the typed message after parsing it, and a "stop" in any case has run stop's events |
| DataTaking.Manager.Converse | data_taking_example.py:88-93 | the main loop reads messages until one reads "stop" in any case, which has stopped the threads in order; no earlier message was a stop. Running out of input raises EOFError |
| DataTaking.StopEventsLast | data_taking_example.py:49-51 | after stop, the last three events are stop's own |
| DataTaking.SetpointForLoopOne | data_taking_example.py:70 | set_setpoint on loop 1 writes `"SETP 1, {float(value)}"` |
| DataTaking.ScriptFileName | data_taking_example.py:83-86 | the first argument names the file, else `"data_example_{int(time)}.csv"` |
| DataTaking.DefaultNameNormal | data_taking_example.py:86 | the default name survives the data file's name normalisation unchanged |
| DataTaking.DigitStem | data_taking_example.py:86 | the default stem holds no `.` and ends in a digit |
| TabData.AveragingOf | gui/tab_data.py:137-146 | without `"average"` in the comment line, the averaging setting is the FakeDialog's default 1 |
| TabData.AveragingAt | gui/tab_data.py:138-146 | where `"average"` first occurs at k, the setting is the first slice ending at k − 1 that int() accepts |
| TabData.ReadAveraging | gui/tab_data.py:137-146 | the search and the for/try/break loop compute exactly AveragingOf |
| TabData.ScanCount | gui/tab_data.py:141-146 | the loop keeps the first of the slices of lengths 0, 1, 2 ending at the given end that int() accepts, else 1 |
| TabData.AverageAfterWord | gui/tab_data.py:138-139 | where the comment holds "average" only after a word and a space, it is found right there |
| TabData.AveragingReadsLastDigit | gui/tab_data.py:137-146 | the count N written before "average" reads back as N mod 10: the empty slice fails and the one-character slice wins, so N ≥ 10 keeps only its last digit |
| TabData.AveragingReadsLast | gui/tab_data.py:139-146 | after a word ending in a digit, the averaging read is that digit |
| TabData.SecondSliceWins | gui/tab_data.py:141-146 | when the empty slice fails and the one-character slice parses, the loop returns the latter |
| TabData.SampleToken | gui/tab_data.py:170-172 | spaces in the sample name become `_`, every other character stays, an empty name becomes `none`, and the token holds no space |
| TabData.DataFileName | gui/tab_data.py:173-179 | the file name `"{sample}_{MM}-{DD}-{YYYY}_{HH}-{mm}-{s}"` holds no space and starts with the sample token and `_` |
| TabData.NewFileComment | gui/tab_data.py:180-188 | the comment starts with the base sentence. With at most one average, no calibration and no comment, it is exactly that sentence |
| TabData.CommentHasCount | gui/tab_data.py:183-188 | with N > 1 averages, the comment line is the base, then `" Data is taken with N averages."`, then the calibration and comment clauses, in that order |
| TabData.NewFileAveragingReadBack | gui/tab_data.py:137-184 | reopening a new file made with N > 1 averages reads back N mod 10 from its second line |
| TabData.SecondHeaderLine | gui/tab_data.py:134-135 | the second readline of a new data file is its comment line |
| TabData.SmallAveragingRoundTrip | gui/tab_data.py:137-184 | a count from 2 to 9 survives writing and reopening |
| TabData.DataTab.constructor | gui/tab_data.py:43-50 | a new tab has no dialog, no data file and no threads, and `running` and `active_file` are both false |
| TabData.DataTab.ActivateDataFile | gui/tab_data.py:194-219 | the threads are made, the plot tab is given the file, `active_file` becomes true, and the server thread starts |
| TabData.DataTab.StartDataThread | gui/tab_data.py:152-222 | the data thread starts, and take_data sets `running` on entry |
| TabData.DataTab.OpenFile | gui/tab_data.py:123-152 | a cancelled dialog changes nothing. Otherwise the averaging is read from the second line and both notices are written. The file is opened without a write, and the server thread then the data thread start |
| TabData.DataTab.OpenWith | gui/tab_data.py:147-152 | with the averaging read: the FakeDialog holds it, the two notices are written, the file is active and open, and both threads run |
| TabData.DataTab.MakeNewFile | gui/tab_data.py:155-192 | on OK the start message is written, and activate_data_file() without its filename raises TypeError, so no file is made. On cancel nothing is written |
| TabData.DataTab.Tick | gui/tab_data.py:223-230 | a point is taken only while the data thread runs with `running` set. A taken point is appended twice (take_data_point, then write_row) and written once to the stream. A plot update is signalled when live plotting is on. A failing round ends the thread with nothing written |
| TabData.DataTab.Record | gui/tab_data.py:226-230 | after take_data_point: one more copy of the row, the point written to the stream, an update when live; a fault ends the thread |
| TabData.DataTab.ContinueData | gui/tab_data.py:233-238 | continue_data sets `running` |
| TabData.DataTab.PauseData | gui/tab_data.py:241-247 | pause_data clears `running` and writes `"Paused data taking."` |
| TabData.DataTab.Stop | gui/tab_data.py:250-273 | unconfirmed, nothing changes. A confirmed stop clears `running` and `active_file`, joins the data thread, sends `'shutdown'`, joins the server thread, writes "Closing File", and drops `data` and `dialog`, in that order. Before any file it raises AttributeError at `data_thread.join` |
| TabData.PauseThenContinue | gui/tab_data.py:223-247 | a paused tab takes no point; once continued, its next tick averages with the setting read from the file |
| TabData.ReopenNewFile | gui/tab_data.py:137-184 | a file made with 2 to 9 averages, when opened again, is taken with that many |
| TabData.StopBeforeOpen | gui/tab_data.py:250-256 | stopping before any file was opened raises AttributeError |
| PlotLive.LabelLineIn | plot_live.py:258-262 | the label line is the first line not starting with `#`, or the fiftieth read. Reading past the end gives `""`, and `label_line[0]` then raises IndexError |
| PlotLive.ParseLabelLine | plot_live.py:263-264 | splitting on `,` always gives at least one label |
| PlotLive.StripAll | plot_live.py:264 | each label is its piece with spaces stripped from both ends |
| PlotLive.LabelsOf | plot_live.py:255-264 | labels that are read are never an empty list |
| PlotLive.GetLabels | plot_live.py:255-264 | the read loop computes exactly LabelsOf |
| PlotLive.RemoveQuotes | plot_live.py:263 | removing the quotes from a row of quoted plain labels gives the labels joined by `", "` |
| PlotLive.SplitJoined | plot_live.py:263 | splitting labels joined by `", "` on `,` gives the first label, then each later label behind one space |
| PlotLive.SplitLabels | plot_live.py:263 | the same, for the joined labels on their own |
| PlotLive.StripLabels | plot_live.py:264 | stripping those pieces gives the labels back when none has an outer space or a comma |
| PlotLive.StripAllOf | plot_live.py:264 | StripAll is the piece-by-piece strip |
| PlotLive.StripPiece | plot_live.py:264 | one piece strips back to its label |
| PlotLive.StripReadable | plot_live.py:264 | a readable label with an optional space in front strips back to itself |
| PlotLive.RowNewlineStripped | plot_live.py:263 | rstrip('\n') removes exactly the row's newline |
| PlotLive.LabelRowRoundTrip | plot_live.py:263-264 | a label row written as the data files write it reads back as the same labels |
| PlotLive.ThirdLineRead | plot_live.py:258-262 | after two comment lines, the third line is the label line |
| PlotLive.LabelsAfterComments | plot_live.py:255-264 | a file with two comment lines and then a readable label row yields exactly those labels |
| PlotLive.LabelRowStart | plot_live.py:261 | a written label row starts with a quote, so it is not taken for a comment |
| PlotLive.ColumnLabelsReadable | plot_live.py:263-264 | every column label of the GUI data file reads back unchanged |
| PlotLive.NewDataFileLabels | plot_live.py:255-264 | the plotting window reads exactly the GUI data file's column labels from a new data file's header |
| PlotLive.Times | plot_live.py:158-159 | list repetition of the empty list is empty. A non-empty list repeated n times has at least n entries and starts with the list itself |
| PlotLive.TimesSingle | plot_live.py:158-159 | `[None] * n` has n entries, all None |
| PlotLive.Overwrite | plot_live.py:160-162 | the loop's item assignments keep the list's length. They replace the first entries and keep the rest |
| PlotLive.OverwriteAgrees | plot_live.py:160-162 | a list that agrees entry by entry with the overwritten list is that list |
| PlotLive.PensFor | plot_live.py:30-161 | pen i has the i-th pen colour |
| PlotLive.CurvesFor | plot_live.py:160-162 | curve i is drawn with pen i and named by label i + 1 |
| PlotLive.Painted | plot_live.py:160-161 | the loop sets every y column's pen and curve, or stops after the seven pen colours |
| PlotLive.PensAfter | plot_live.py:158-161 | after an open, the pens are the earlier list repeated once per y column, with the first entries given the pen colours in order |
| PlotLive.CurvesAfter | plot_live.py:158-162 | after an open, the curves are the earlier list repeated once per y column, with the first entries drawn with pen i and named by label i + 1 |
| PlotLive.FreshListsPainted | plot_live.py:158-162 | from a fresh window's `[None]` lists, a file with at most seven y columns gets exactly one pen and one curve per column |
| PlotLive.FreshListsOverflow | plot_live.py:158-162 | from those lists, a file with more than seven y columns keeps one entry per column. Seven are set and the rest stay None |
| PlotLive.BasePathParts | plot_live.py:143 | the base path, a `/` (the POSIX `os.sep`) and the file's own name give the file name back. Without a `/` the base path is empty |
| PlotLive.ShownPlot | plot_live.py:145-154 | label 0 is on the bottom axis and label 1 on the left. A legend is added when there are more than two labels, and a date axis when label 0, lower-cased, holds "time". A legend or date axis the plot already had stays |
| PlotLive.FreshPlotShown | plot_live.py:145-154 | on a fresh plot, the legend appears exactly beyond two labels and the date axis exactly for a time column |
| PlotLive.PlotApp.constructor | plot_live.py:38-62 | no file, no thread, a blank plot, live plotting on, force_quit set, close disabled |
| PlotLive.PlotApp.SetLivePlotting | plot_live.py:172-182 | manual update is enabled exactly when live plotting is off, and the action text names the other mode |
| PlotLive.PlotApp.SwapLive | plot_live.py:167-170 | live plotting flips and the window stays consistent |
| PlotLive.PlotApp.CloseFile | plot_live.py:208-225 | an unconfirmed close changes nothing. A confirmed one clears the active file and live plotting. With an update thread it then leaves no file and a blank plot. Without one, `join` raises AttributeError and the name, pens, curves and plot stay |
| PlotLive.PlotApp.OpenFile | plot_live.py:125-165 | an open file the user will not close blocks the dialog, and nothing changes. An AttributeError from closing ends open_file before the dialog. A cancelled dialog changes nothing more. A chosen file is active, live-plotted, remembered with its directory, and shown from its labels on the blank plot after a close, or else on what an earlier failed open left |
| PlotLive.PlotApp.OpenChosen | plot_live.py:133-165 | the file is active with close enabled. Its labels are shown on the window's current plot, pens and curves, or the exception of get_labels is raised with those kept |
| PlotLive.PlotApp.ShowRead | plot_live.py:144-165 | a get_labels fault is raised and nothing else changes. Otherwise the labels are shown |
| PlotLive.PlotApp.ShowLabels | plot_live.py:145-165 | a single label sets the bottom axis, then raises IndexError at `col_labels[1]`. Otherwise the plot becomes ShownPlot and the lists become PensAfter and CurvesAfter. The update thread starts unless there are more than seven y columns, which raise IndexError in the pen loop |
| PlotLive.PlotApp.MakeCurves | plot_live.py:160-162 | the loop succeeds exactly when the pen colours suffice, and otherwise raises IndexError. In both cases the pens and curves it reached are set and the rest are kept |
| PlotLive.PlotApp.Quit | plot_live.py:232-250 | an AttributeError from closing the file ends quit before the exit question, and the window stays with the file's name, pens, curves and plot. Otherwise the window closes exactly when no file stays open and the exit is confirmed, and then force_quit is cleared |
| PlotLive.SingleColumnFileBlocksQuit | plot_live.py:144-250 | opening a single-column file raises IndexError. The first quit then raises AttributeError and the window stays. A second quit closes it |
| PlotLive.LoadData | plot_live.py:184-194 | the result is None exactly when all attempts fail. Otherwise it is the first load that succeeds |
| FakeData.GenerateDataPoint | fake_data_gen.py:27-31 | a point is the time followed by the voltage. For a cosine in [−1, 1] and a draw in [0, 1), the voltage lies in [−3, 4) |
| FakeData.RunRows | fake_data_gen.py:20-25 | a bounded run of the endless loop writes one row per step |
| FakeData.RunRowsStep | fake_data_gen.py:20-25 | one more step appends the next point's row |
| FakeData.RunRowsArePoints | fake_data_gen.py:20-24 | row k of a run is the row of the k-th generated point |
| FakeData.RunRowsAreTwoNumbers | fake_data_gen.py:22-36 | row k holds exactly two numbers: the time, then 3·cos(time) plus the draw |
| FakeData.PointCells | fake_data_gen.py:27-31 | a generated point becomes the two cells time and voltage |
| FakeData.FakeDataFile.constructor | fake_data_gen.py:7-18 | `.csv` is appended unless the name holds it, and the file is the creation line, the fake-file notice and the label row, in that order |
| FakeData.FakeDataFile.WriteRow | fake_data_gen.py:33-36 | one row line is appended |
| FakeData.FakeDataFile.WriteComment | fake_data_gen.py:38-41 | one `# ` comment line is appended |
| FakeData.FakeDataFile.CreateFile | fake_data_gen.py:43-45 | the file is replaced by the creation line |
| FakeData.FakeDataFile.Run | fake_data_gen.py:20-25 | after n steps the file has gained exactly the n rows of RunRows |
| FakeData.FakeDataFile.WritePoint | fake_data_gen.py:22-24 | one step appends that step's point row |
| NewDataPrompt.PresetEntries | gui/new_data_file_prompt.py:45-60 | a preset missing any of the five keys gives the defaults. Otherwise its values are taken, and a falsy calibration becomes the placeholder, so the calibration entry is always truthy |
| NewDataPrompt.OptionIndex | gui/new_data_file_prompt.py:68 | `list.index`: the first position holding the value. A value in no position raises ValueError |
| NewDataPrompt.TextOf | gui/new_data_file_prompt.py:70-77 | setText accepts exactly a string, else TypeError |
| NewDataPrompt.SpinValue | gui/new_data_file_prompt.py:75 | setValue accepts exactly an integer and clamps it into the spin box's range, else TypeError |
| NewDataPrompt.FormOf | gui/new_data_file_prompt.py:62-77 | the form fills exactly when the setup is one of the options and the other entries have the widget's types. It then shows the entries |
| NewDataPrompt.AcceptedEntries | gui/new_data_file_prompt.py:117-130 | the stored entries are the form's, with the setup named by its index and a calibration without `/` (the POSIX `os.sep`) blanked |
| NewDataPrompt.SavedPreset | gui/new_data_file_prompt.py:133-137 | the saved preset holds exactly the five keys |
| NewDataPrompt.PromptDialog.constructor | gui/new_data_file_prompt.py:14-60 | no date, not accepted, the entries are those of the preset |
| NewDataPrompt.PromptDialog.FillForm | gui/new_data_file_prompt.py:62-77 | the form is filled exactly when FormOf succeeds, and otherwise its exception is raised |
| NewDataPrompt.PromptDialog.FindCalibration | gui/new_data_file_prompt.py:102-110 | the calibration button shows the chosen file name, even an empty one |
| NewDataPrompt.PromptDialog.Accept | gui/new_data_file_prompt.py:113-143 | the date is set, the entries become AcceptedEntries, and that preset is saved to the preset path named by the date |
| NewDataPrompt.DefaultForm | gui/new_data_file_prompt.py:55-77 | without presets the form shows Main, an empty sample, the placeholder, 1 and an empty comment |
| NewDataPrompt.SaveLoadEntries | gui/new_data_file_prompt.py:45-141 | a saved preset loads back as the accepted entries, with a blanked calibration coming back as the placeholder |
| NewDataPrompt.ReopenAfterAccept | gui/new_data_file_prompt.py:45-141 | the next dialog shows the submitted form again, with the calibration reset to the placeholder unless it was a path |
| NewDataPrompt.PlaceholderSavedBlank | gui/new_data_file_prompt.py:123-126 | an untouched calibration button is saved as blank |
| NewDataPrompt.ZerosValue | gui/new_data_file_prompt.py:138 | leading zeros do not change a digit string's value |
| NewDataPrompt.ZerosOnly | gui/new_data_file_prompt.py:138 | a string of zeros has the value 0 |
| NewDataPrompt.PadNatValue | gui/new_data_file_prompt.py:138 | a zero-padded field reads back as its number |
| NewDataPrompt.NatToStringShort | gui/new_data_file_prompt.py:138 | a number below 10^w has at most w digits |
| NewDataPrompt.PadNatExact | gui/new_data_file_prompt.py:138 | such a number pads to exactly w digits worth itself |
| NewDataPrompt.NameLayout | gui/new_data_file_prompt.py:138 | fixed-width fields sit at fixed positions in the preset name |
| NewDataPrompt.PresetFileNameFields | gui/new_data_file_prompt.py:138 | the preset name is 24 characters long, and its four digit fields read back as year, month, day and hour |
| NewDataPrompt.PresetFileNameInjective | gui/new_data_file_prompt.py:138 | two moments give the same preset name exactly when they agree to the hour |
| Rows.QuoteFor | data_file.py:63 | repr() uses double quotes exactly when the string holds a single quote and no double quote |
| Rows.Repr | data_file.py:63 | a string's repr() starts and ends with its chosen quote |
| Rows.ReprPlain | data_file.py:63 | a string without quotes, backslashes or control characters is written between single quotes, unchanged |
| Rows.RowLineJoins | data_file.py:63 | when no cell text starts with `[` or ends with `]`, the brackets stripped are exactly the list's own, and a row is its cells' texts joined by `", "` |
| Rows.LabelRowLine | data_files.py:53 | a label row of plain labels is the single-quoted labels joined by `", "` |
| Rows.EmptyRowLine | data_files.py:53 | the empty list is written as the empty line |
| Rows.CommentLine | data_files.py:55-58 | a comment line is `#`, a space, then the comment |
| Rows.WithCsv | fake_data_gen.py:10-11 | `.csv` is appended exactly when the name does not already hold it anywhere |
| Rows.CsvInsideKept | fake_data_gen.py:10-11 | a name with `.csv` in its middle, such as `run.csv.bak`, is kept as it is |

## Left out

- Sockets: `bind`, `listen`, `accept`, `recv(1024)` and `sendall` are not modelled. A connection is a given sequence of received messages, and the replies form an output sequence, so byte framing and 1024-byte splits are outside the model.
- The bus transport (the pyvisa resource manager and the real read/write/query) is a parameter: a function from operation number to a Transport outcome, either text or a VisaIOError.
- `Device.query_ascii` of the real driver returns numpy values from the bus, and it is not modelled. The Fake driver's constant list is modelled.
- `client_tools.DeviceClient` is not part of this model. Its send framing is left out, and its `query`/`write` are modelled as device operations.
- Threads: start, join and cross-thread visibility of the flags are left out. A thread is recorded as an event or a flag, and each tick of a data thread is one atomic step. Only one data thread runs at a time.
- The plotting window's update thread (`run`, plot_live.py:118-123) is modelled only as the flag that one was started.
- `time.sleep` and every clock are left out; times are parameters.
- The random draws of the fake instruments and of the fake data generator are parameters, and so are the elapsed times.
- Floating point: reals are exact. The text `str()` and `:.2f` give a float is the parameter `fmt`.
- `float()` and `int()` accept only plain decimal numerals: optional surrounding white space, an optional sign, and digits (with at most one point for `float()`). Exponents, `inf`, `nan` and underscores are not modelled.
- `upper()` and `lower()` act on ASCII letters only. `repr()` escapes only backslash, the chosen quote, newline, carriage return and tab; other non-printable characters are not modelled.
- The numeric parts of caclulations.py are left out: `photon_energy`, `convert_spherical`, and the value of ħ, which is a parameter.
- print_uncertainty.py and error_analysis.py are not part of this model, nor are app.py, gui/help_prompt.py, gui/plotting.py and the Qt application files.
- All widget, icon, menu, button and signal wiring is left out. Console and `print` output is left out, except the messages the REPL prints.
- The file system is in-memory line sequences: `os.makedirs`, `os.path.exists`/`isdir`, `glob`, `yaml`, `np.loadtxt` and `time.ctime` are left out. The creation time is an opaque string, and a preset file is a map of values.
- `update_plots` (plot_live.py:196-206) needs numpy arrays of the loaded data, and it is not modelled; `load_data`'s retry loop is.
- The in-source fake clients of data_file.py (lines 10-30) repeat the VS/PC clients. Their ids and command strings are stated once, in `FakeDevices.SetVoltage`, `FakeDevices.ReadVoltage` and `FakeDevices.ReadCounts`.
- Construction that faults in the source is not modelled. `GpibServer(do_print=False)` raises TypeError in the constructors of `Manager` (data_taking_example.py:36) and of the data tab (gui/tab_data.py:41), and `DataFile` is built there without its frequencies (data_taking_example.py:35). `TabPlot.PlotTab` builds its four plots with `Plot(...)` lacking the required `pen` argument (gui/tab_plot.py:25-29 against gui/plotting.py:21), so its construction raises TypeError. `DataTaking.Manager.constructor`, `TabData.DataTab.constructor` and `TabPlot.PlotTab.constructor` start from the state those constructors would build if the calls succeeded.
- `os.makedir` (gui/new_data_file_prompt.py:31) does not exist and would raise when the presets directory is missing; the model assumes the directory exists.
- A plot of the plotting tab is kept only as its two axis labels; its pen, curves and widget are left out.
- The `__main__` blocks are left out; they use undefined names (GPIB/lakeshore.py:230, GPIB/gpib.py:88).
- `OpenFiles.OpenDataFile.Open`: records only the path and the existing lines. The LakeShore client its `__init__` builds (data_file.py:35) sends `"PID? 1"` and `"PID? 2"` and decodes the replies at construction (GPIB/lakeshore.py:28). That exchange, with its fault, is modelled once, as `LakeShore.Connect`, and a fault in it is not carried into the data file.
- `CsvFiles.DataFile.constructor`: requires an empty frequency list. With any frequency the source's `__init__` raises ValueError in `get_labels`, and `CsvFiles.FrequencyLabels` states that fault, but a constructor cannot return it.
- `CsvFiles.GetDataPoint`: states only AttributeError, because `self.device` is None as written (data_files.py:87, 126), so no reading happens.
- `TabData.DataTab.MakeNewFile`: requires an accepted prompt to hold entries of their widget types (text for the strings, an integer for the averaging), which accept_click guarantees. The file itself is never built, because line 190 raises TypeError.
- `TabData.ScanCount`: takes `int()` as the parameter `parse`, so its proofs do not depend on ParseInt; TabData.ReadAveraging plugs in ParseInt.
- `TabData.DataTab.Tick`: takes one averaging round as the parameter `round`, a function from round number to the four readings or the fault they raise; so does `OpenFiles.OpenDataFile.TakeDataPoint`.
- `DataTaking.Manager.WaitForInput`: states only the echo and the stop consequence; its full effect on the events is that of `DataTaking.Manager.Parse`.
- A message whose plan faults is counted as no device operation, since it crashes the server (the session end `Crashed`) before any bus call.
- `NewDataPrompt.PromptDialog.FillForm`: leaves the form unchanged when a widget setter raises, whereas Qt would keep the setters that ran before the fault.
- The plotting window's plot widget is kept as its two axis labels, legend and date axis. The plot items that `self.plot.plot` adds (plot_live.py:162) are recorded only in `curves`, and a pen is recorded by its colour alone.
- `PlotLive.BasePathParts`: paths are POSIX, so `os.sep` is `/` (plot_live.py:143). On Windows `os.sep` is `\`, and a dialog path such as `C:/data/run.csv` gets the base path `""` in the source but `C:/data` here.
- `PlotLive.PlotApp.OpenFile`: the remembered base path is the POSIX one of `PlotLive.BasePathParts`.
- `PlotLive.PlotApp.OpenChosen`: the same POSIX base path.
- `CsvFiles.DataFileGuiExample.constructor`: splits the path at the POSIX `os.sep` `/` (data_files.py:189-190), not at the Windows `\`.
- `NewDataPrompt.AcceptedEntries`: tests the calibration for the POSIX `os.sep` `/` (gui/new_data_file_prompt.py:125). On Windows a calibration `C:/cal.txt` is blanked by the source but kept here.
- `NewDataPrompt.PromptDialog.Accept`: the same POSIX calibration test, through `NewDataPrompt.AcceptedEntries`.
- `Text.PathJoin` is POSIX `os.path.join`. Windows drive letters and `\` separators are left out of every joined name (`CsvFiles.CSVFile.constructor`, `OpenFiles.NewFileName`, `FakeData.FakeDataFile.constructor`, the preset path of `NewDataPrompt`).
- `PlotLive.PlotApp.OpenChosen`: reads the labels before the field writes of plot_live.py:134-143. get_labels changes no field, so the final state is the same.
