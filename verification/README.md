# RPI Measurement System — a Dafny model of its core

The RPI Measurement System runs on a Raspberry Pi. It reads sensors through
hardware drivers and shows the readings on a ComVisu panel over TCP. The two
sides exchange short text frames `#<channel><F|S><value>;`. This project
models the core of that system as pure Dafny functions and proves properties
about them:

- the ComVisu `Command` (construction, validation, `to_string`, parsing);
- the socket framing of `ServerConnection` (`receive` and `send`);
- the `OrderedPriorityQueue`, which keeps FIFO order within one priority;
- the send-queue loop of `DataQueueThread`;
- the measurement server:
  - `printConsole`, `init_comvisu` and `process_commands`;
  - the measurement task and its manager;
  - the control task with its selector / dependent-command protocol;
- the channel registry (`ChannelManager`, `MultiHardware`);
- the sample buffer `Data`;
- the conversion models (`StackedModel`, `LinearModel`, `NTCModel`,
  `PTxModel`, `KTYxModel`) and their registry;
- `Serializable.to_dict`;
- the HX711 load-cell arithmetic and the servo pulse width of the
  Raspberry Pi driver;
- the `Ceda` table (append, duplicate row, delete, merge).

## How the model is organised

Python's exceptions are modelled as `PyError` values (`wrappers.dfy`).

A server step has a result of type `Out` (`effects.dfy`). It holds the
commands queued so far, each with its priority, and the exception that ended
the step, if one did. Commands queued before an exception stay queued, as in
the source.

Some parts of the system come in as parameters, and properties that depend on
them hold for every value of the parameter:

- the clock reading used by `printConsole`;
- the text of Python floats (`FloatCodec`);
- the parser behind `set_model_from_str`;
- the socket's behaviour.

The files follow the program's structure:

| file | module | models |
|---|---|---|
| wrappers.dfy | Wrappers | `Result`/`Option` and Python's exception classes |
| pytext.dfy | PyText | `int()`, `float()`, `str()` on the values the core converts |
| command.dfy | Commands | `core/comvisu/Command.py` |
| connection.dfy | Connection | `ServerConnection.receive` / `send` |
| priority_queue.dfy | PriorityQueue | `OrderedPriorityQueue` |
| dispatcher.dfy | Dispatcher | `DataQueueThread._dataqueue_processing_loop` |
| effects.dfy | Effects | queueing built commands; `printConsole` |
| data.dfy | DataBuffer | `core/common/Data.py` |
| models.dfy | Models | `core/common/Models.py` |
| channels.dfy | Channels | `ChannelManager`, `MultiHardware`, `Channel.__init__` |
| serializable.dfy | Serial | `Serializable.to_dict` |
| measurement.dfy | Measurement | `MeasurementTask`, `MeasurementTaskManager` |
| control.dfy | Control | `ControlTask`, `ControlTaskManager` |
| server.dfy | Server | `MeasurementSystem.init_comvisu`, `process_commands` |
| raspberry_pi.dfy | Hx711, Servo | the HX711 and servo arithmetic |
| ceda.dfy | CedaTable | `core/common/Ceda.py` |

The legacy `core/driver/Hardware.py` holds older copies of `Data` (lines
29-100), the models (lines 317-372 and 450-468), `ChannelManager` (lines
838-885) and the HX711 helpers (lines 1985-2004 and 2086-2118). Their logic
is the same as in the files cited below, so the same members model them.

Some behaviour is kept as written although it looks unintended:

- `get_channels_by_type` compares the class with the argument, so it never yields;
- `MultiHardware.get_channels_by_name` never reaches the second hardware;
- a selector value of 0 raises `UnboundLocalError`;
- after a dependent command, the stored selection keeps its channel but loses
  its value, so the next dependent command fails in `int(None)`.

## Model

| member | source | states |
|---|---|---|
| Commands.ApplyValues | src/MeasurementSystem/core/comvisu/Command.py:103-137 | Any accepted command is valid: channel 0..999, no `#` or `;` in a text, frame at most 255 characters. Its channel is `int(channel)`, its type letter is the type given, an F value is `float(value)` and an S value is `str(value)`. Every rejection is a `ValueError`. |
| Commands.ValidIsConstructible | src/MeasurementSystem/core/comvisu/Command.py:103-137 | Every valid command is exactly what `_apply_values` builds from its own channel, type and value. |
| Commands.ChannelRange | src/MeasurementSystem/core/comvisu/Command.py:103-108 | A short clean text command is accepted if and only if `int(channel)` succeeds and lies in 0..999. |
| Commands.RejectedConstructions | src/MeasurementSystem/core/comvisu/Command.py:268-273 | The five constructions the module's self-test expects to fail all raise `ValueError`: unknown type, four-digit channel, non-numeric channel, non-numeric F value, text too long. |
| Commands.MatchFrame | src/MeasurementSystem/core/comvisu/Command.py:150 | When the regular expression matches, the input starts with `#`, then the digit group, the type letter, the body and `;`. |
| Commands.MatchBuiltFrame | src/MeasurementSystem/core/comvisu/Command.py:150 | A frame made of 1-3 digits, `F` or `S`, and a non-empty body without newline or `;`, is matched with exactly those groups. |
| Commands.ParseFrame | src/MeasurementSystem/core/comvisu/Command.py:150-163 | A parsed command is valid. Its channel is the value of the matched digits, its type is the matched letter, and an S command's text is the matched body. Every failure is a `ValueError`. |
| Commands.FromString | src/MeasurementSystem/core/comvisu/Command.py:185-189 | `None` and `""` give a command with unset fields. A non-empty string is parsed as a frame. A number fails in the regular expression with `TypeError`. |
| Commands.New | src/MeasurementSystem/core/comvisu/Command.py:40-68 | The constructor dispatches on the shape of its arguments. No arguments gives an unset command; one positional argument is a frame. Three positional arguments with a `None` raise `ValueError`, and so do three keywords other than channel/type/value and any other argument count. Any set command it returns is valid. |
| Commands.ThreeNamedKeys | src/MeasurementSystem/core/comvisu/Command.py:49-55 | Three keyword arguments that include channel, type and value are exactly those three. |
| Commands.MakeText | src/MeasurementSystem/core/comvisu/Command.py:57-63 | `Command(channel, "S", s)` always succeeds for a channel in 0..999 and a text of at most 248 characters without `#` or `;`. |
| Commands.MakeIntegral | src/MeasurementSystem/core/comvisu/Command.py:115-119 | An F command on a valid channel always succeeds for an integer, integral float or integer text in -1000..1000, and holds that number as a float. |
| Commands.MakeConverted | src/MeasurementSystem/core/comvisu/Command.py:115-132 | An F command whose value `float()` converts, on a valid channel, and whose frame fits in 255 characters, is made with the converted value. |
| Commands.TextRoundTrip | src/MeasurementSystem/core/comvisu/Command.py:150-171 | Parsing the `to_string` frame (`#`, channel digits, type letter, value text, `;`) of a valid S command with a non-empty, newline-free text gives the same command back. So does the one-argument constructor. |
| Commands.FloatRoundTrip | src/MeasurementSystem/core/comvisu/Command.py:150-171 | A valid F command whose float text reads back as the same float round-trips through `to_string` and parsing. |
| Commands.IntegralFloatReads | src/MeasurementSystem/core/comvisu/Command.py:156 | Integral floats below 2^53 read back as themselves from the text `str()` gives them, whatever the float codec. |
| Commands.EmptyTextNotReparsed | src/MeasurementSystem/core/comvisu/Command.py:121-127 | An S command with an empty text is valid, but its frame `#nS;` is rejected by the parser: the round trip is one-sided. |
| Commands.UnmatchedRejected | src/MeasurementSystem/core/comvisu/Command.py:162-163 | A string the regular expression does not match is rejected with `ValueError`. |
| Commands.TextCanonical | src/MeasurementSystem/core/comvisu/Command.py:150-171 | An accepted S frame with canonical channel digits, which ends at its `;`, is reproduced exactly by `to_string`. |
| Commands.TextReparse | src/MeasurementSystem/core/comvisu/Command.py:150-171 | Re-serialising any accepted S frame gives a frame that parses to the same command. |
| Commands.RejectedFrames | src/MeasurementSystem/core/comvisu/Command.py:239-242 | The four malformed frames of the module's self-test are rejected with `ValueError`. |
| Commands.NoDigitsRejected | src/MeasurementSystem/core/comvisu/Command.py:150-163 | A frame with no digit after `#` is rejected. |
| Commands.FourDigitsRejected | src/MeasurementSystem/core/comvisu/Command.py:150-163 | A frame with four or more digits after its first character is rejected: `\d{1,3}` cannot be followed by the type letter. |
| Commands.UnreadFloatRejected | src/MeasurementSystem/core/comvisu/Command.py:155-156 | A matched F frame whose body `float()` refuses is rejected with `ValueError`. |
| Commands.KeywordNoneValue | src/MeasurementSystem/core/comvisu/Command.py:49-63 | The keyword form does not check for `None`, so a `None` S value becomes the text "None". The positional form rejects the same arguments. |
| Commands.SingleKeywordRejected | src/MeasurementSystem/core/comvisu/Command.py:65-68 | A single keyword argument, as in `Command(cmd_string=...)`, always raises `ValueError`. |
| Commands.ApplyValuesAsWritten | src/MeasurementSystem/core/comvisu/Command.py:33-38 | With the type membership test as written, the F and S types behave exactly as in the corrected `ApplyValues`, and the frame is that command's `to_string`. |
| Commands.TypeSetQuirk | src/MeasurementSystem/core/comvisu/Command.py:110 | The module name is accepted as a type. The frame it produces cannot be parsed back, and the corrected check rejects it. |
| PyText.IntTextParses | src/MeasurementSystem/core/comvisu/Command.py:127 | `int(str(i)) == i` for every integer, so the channel printed in a frame reads back as the same channel. |
| PyText.ShowFloatReads | src/MeasurementSystem/core/comvisu/Command.py:156 | Printing an exactly representable integral float and reading it back gives the float. |
| Connection.SplitShape | src/MeasurementSystem/core/comvisu/ServerUtils.py:99 | `split(";")` gives one more piece than there are separators, and no piece holds a separator. |
| Connection.SplitJoin | src/MeasurementSystem/core/comvisu/ServerUtils.py:99 | Joining the pieces of `split(c)` with `c` gives the original text back. |
| Connection.Pieces | src/MeasurementSystem/core/comvisu/ServerUtils.py:99-100 | The frames taken from a read are as many as its `;` characters, and none holds a `;`. |
| Connection.Receive | src/MeasurementSystem/core/comvisu/ServerUtils.py:78-104 | An empty read raises `ConnectionError`. Otherwise the read succeeds if and only if every piece before the last `;`, with `;` added, makes a command; the i-th command is the i-th piece's. Of the errors raised after the read, the empty read gives `ConnectionError` and every failed frame `ValueError`. |
| Connection.AllOk | src/MeasurementSystem/core/comvisu/ServerUtils.py:100 | The list of results is a success if and only if every construction succeeded. Its values are then the constructed commands in order. A failure is the error of one of the constructions. |
| Connection.ParseAll | src/MeasurementSystem/core/comvisu/ServerUtils.py:100 | The list comprehension succeeds if and only if every piece makes a command. It then yields those commands in order, and it fails only with `ValueError`. |
| Connection.TrailingTextDiscarded | src/MeasurementSystem/core/comvisu/ServerUtils.py:99-100 | Text after the last `;` of a read is dropped: the result is the same as without it. |
| Connection.EmptyPieceRejected | src/MeasurementSystem/core/comvisu/ServerUtils.py:99-100 | The read ";;" holds an empty frame, and the whole batch fails with `ValueError`. |
| Connection.SplitTerminated | src/MeasurementSystem/core/comvisu/ServerUtils.py:99 | Splitting separator-free pieces, each followed by `;`, gives those pieces and one empty piece at the end. |
| Connection.WireTerminated | src/MeasurementSystem/core/comvisu/ServerUtils.py:121 | The text a batch of sends writes is each frame's body followed by `;`. |
| Connection.Bodies | src/MeasurementSystem/core/comvisu/Command.py:171 | Each body, with `;` added, is the command's `to_string`. |
| Connection.BodySeparatorFree | src/MeasurementSystem/core/comvisu/Command.py:121-127 | The frame body of a command that can be sent holds no `;`. |
| Connection.ReceiveWire | src/MeasurementSystem/core/comvisu/ServerUtils.py:78-121 | A non-empty batch of sendable commands, once written, is received as the same batch, in order. |
| Connection.Send | src/MeasurementSystem/core/comvisu/ServerUtils.py:106-123 | While disconnected nothing is written. A broken pipe raises `ConnectionError`. Whatever is written was written while connected, and it is the command's frame. |
| Connection.SendThenReceive | src/MeasurementSystem/core/comvisu/ServerUtils.py:78-123 | What one connected `send` writes is received as exactly that command. |
| PriorityQueue.Empty | src/MeasurementSystem/core/Utils.py:23-26 | A new queue is well formed and empty. |
| PriorityQueue.Put | src/MeasurementSystem/core/Utils.py:28-60 | `put` appends the entry (priority, current counter, element), keeps every earlier entry, and advances the counter by one. |
| PriorityQueue.PutWellFormed | src/MeasurementSystem/core/Utils.py:55-60 | `put` keeps sequence numbers below the counter and pairwise distinct. |
| PriorityQueue.Get | src/MeasurementSystem/core/Utils.py:62-78 | `get` fails, with `queue.Empty`, exactly on an empty queue. Otherwise it removes one entry and leaves the counter as it was. |
| PriorityQueue.GetLeast | src/MeasurementSystem/core/Utils.py:62-78 | The entry `get` returns is preceded by no other entry in (priority, sequence number) order. What is left is exactly the other entries. |
| PriorityQueue.GetWellFormed | src/MeasurementSystem/core/Utils.py:62-78 | `get` keeps the queue well formed. |
| PriorityQueue.GetTakesLeast | src/MeasurementSystem/core/Utils.py:62-78 | In a well-formed queue, the entry `get` takes comes strictly before every other entry. |
| PriorityQueue.GetDrains | src/MeasurementSystem/core/Utils.py:62-78 | The element `get` returns is the first of the drain order. The rest of that order is the drain order of the queue that remains. |
| PriorityQueue.DrainSorted | src/MeasurementSystem/core/Utils.py:7-78 | Repeated `get` returns every entry of a well-formed queue exactly once, in strictly increasing (priority, sequence number) order. |
| PriorityQueue.PutAll | src/MeasurementSystem/core/Utils.py:55-60 | Putting a list at one priority appends one entry per element, numbered consecutively from the counter, and keeps the earlier entries. |
| PriorityQueue.DrainFifo | src/MeasurementSystem/core/Utils.py:9-13 | Entries of one priority in increasing sequence order drain in exactly that order. |
| PriorityQueue.PutAllDrain | src/MeasurementSystem/core/Utils.py:9-13 | Elements put at one priority into a new queue come back in the order they were put. |
| PriorityQueue.SelfTest | src/MeasurementSystem/core/Utils.py:82-95 | The module's self-test: ten default-priority puts of 0..9 come back as 0..9. |
| PriorityQueue.LowerPriorityFirst | src/MeasurementSystem/core/Utils.py:55-78 | A lower priority number is served first: an element put third with a lower number overtakes the two put before it, and the others keep their order. |
| Dispatcher.Step | src/MeasurementSystem/core/comvisu/ServerUtils.py:197-232 | An iteration takes a command exactly when the queue is not empty. On an empty queue it hands over the "empty" notice only if that notice is still due, and the queue is unchanged. The counter grows by one, and the notice becomes due again exactly when a command was taken. On a broken link the loop ends exactly when something is handed over. |
| Dispatcher.Hand | src/MeasurementSystem/core/comvisu/ServerUtils.py:202-220 | A taken command is handed over first, followed by at most the size report. The loop goes on with the notice due again and the rest of the queue. A broken link ends it. |
| Dispatcher.EmptyNoticeMade | src/MeasurementSystem/core/comvisu/ServerUtils.py:227 | The "Data Queue: empty" command is always made. |
| Dispatcher.StatusIsConstruction | src/MeasurementSystem/core/comvisu/ServerUtils.py:214-220 | The size report is exactly `Command(990, "S", "Data in queue: n")`, for every size. |
| Dispatcher.StatusCommand | src/MeasurementSystem/core/comvisu/ServerUtils.py:214-220 | The size report is made for every size a queue can reach (up to `sys.maxsize`). |
| Dispatcher.StepSendsLeast | src/MeasurementSystem/core/comvisu/ServerUtils.py:202-220 | With a working link, a non-empty queue hands over its least command. The size of what is left follows exactly on every twentieth iteration, and the loop goes on. |
| Dispatcher.HandWorking | src/MeasurementSystem/core/comvisu/ServerUtils.py:209-220 | With a working link, the hand-over sends the command, plus the size report exactly when the iteration number is a multiple of 20, and goes on. |
| Dispatcher.DisconnectedDrainsAlike | src/MeasurementSystem/core/comvisu/ServerUtils.py:119-123 | While disconnected, the loop drains the queue exactly as it does while connected: `send` is silent. |
| Dispatcher.Run | src/MeasurementSystem/core/comvisu/ServerUtils.py:198-232 | n iterations take at most n commands, and zero iterations change nothing. |
| Dispatcher.RunTakesDrainOrder | src/MeasurementSystem/core/comvisu/ServerUtils.py:198-232 | With a working link and no producers, as many iterations as the queue holds take its commands in the queue's drain order. The queue ends empty with its counter unchanged. |
| Dispatcher.StepGoesOn | src/MeasurementSystem/core/comvisu/ServerUtils.py:202-220 | With a working link, a step on a non-empty queue takes the least command and goes on with the queue `get` leaves, one entry shorter. |
| Dispatcher.IdleNotices | src/MeasurementSystem/core/comvisu/ServerUtils.py:224-230 | An idle stretch hands over exactly one "empty" notice, at its start, if the notice was due, and nothing else. |
| Dispatcher.BrokenLinkStops | src/MeasurementSystem/core/comvisu/ServerUtils.py:231-232 | A broken link ends the loop at the first hand-over. An idle loop whose notice was already sent never notices the broken link. |
| Dispatcher.StepOnlyRemoves | src/MeasurementSystem/core/comvisu/ServerUtils.py:202-220 | An iteration only removes from the queue; the size report is never queued. |
| Dispatcher.StepTakesLeast | src/MeasurementSystem/core/comvisu/ServerUtils.py:202-209 | A non-empty queue's least command is handed over first, and only what `get` leaves stays queued. |
| Effects.MakeSpec | src/MeasurementSystem/core/comvisu/Command.py:57-63 | A successful construction gives a valid command on the requested channel. A failed one raises `ValueError`. |
| Effects.Collect | src/MeasurementSystem/measurement_server.py:1362-1373 | Commands are queued up to the first failed construction. The step raises if and only if not all were queued, and then with that construction's error. |
| Effects.Build | src/MeasurementSystem/measurement_server.py:1362-1373 | Building a list of commands queues a prefix of them. It raises if and only if the prefix is short, and the error is the error of the first construction left out. |
| Effects.BuildAllOk | src/MeasurementSystem/measurement_server.py:1362-1373 | When every construction succeeds, all commands are queued in order, at the step's priority. |
| Effects.BadChannelFirst | src/MeasurementSystem/core/comvisu/Command.py:103-108 | A first command on a channel outside 0..999 ends the step with `ValueError` before anything is queued. |
| Effects.BuildAppend | src/MeasurementSystem/measurement_server.py:1362-1373 | Building two lists in a row is building their concatenation. |
| Effects.BuildFits | src/MeasurementSystem/measurement_server.py:1362-1373 | When every construction fits, each intended command is queued, in order, and the step goes on. |
| Effects.Sanitize | src/MeasurementSystem/measurement_server.py:1353-1354 | The console text keeps its length and holds neither `;` nor `#`. |
| Effects.ConsoleOnlyLength | src/MeasurementSystem/measurement_server.py:1336-1360 | The console command is made if and only if the time stamp and the message together have at most 247 characters. It is then the `999 S` command carrying "stamp: message". Otherwise it is a `ValueError`. |
| Effects.PrintConsoleFits | src/MeasurementSystem/measurement_server.py:1359-1360 | A console line that fits is appended to the sends at priority 0, and the step goes on. |
| Effects.MakeFloat | src/MeasurementSystem/core/comvisu/Command.py:115-132 | A float whose text is short is made into an F command on any valid channel. |
| DataBuffer.New | src/MeasurementSystem/core/common/Data.py:20-31 | A new buffer's `get_all()` is empty and its `get_last()` is `None`. |
| DataBuffer.AddValue | src/MeasurementSystem/core/common/Data.py:33-44 | After `add_value`, `get_all()` is the earlier `get_all()` followed by (value, clock reading), the count is one more, and `get_last()` is that sample. |
| DataBuffer.Clear | src/MeasurementSystem/core/common/Data.py:46-53 | After `clear`, `get_all()` is empty and `get_last()` is `None`. |
| DataBuffer.GetLast | src/MeasurementSystem/core/common/Data.py:64-82 | `get_last()` is `None` exactly when `get_count()` is 0, and otherwise the last element of `get_all()`. |
| DataBuffer.Count | src/MeasurementSystem/core/common/Data.py:84-91 | `get_count` is the number of samples `get_all` returns. |
| DataBuffer.Iter | src/MeasurementSystem/core/common/Data.py:55-62 | Iteration visits the same samples, in the same order, as `get_all`. |
| DataBuffer.AddValuesInOrder | src/MeasurementSystem/core/common/Data.py:33-82 | Values added one by one are returned by `get_all` after the earlier samples, in insertion order, each with its own clock reading. |
| DataBuffer.SnapshotIsPrefix | src/MeasurementSystem/core/common/Data.py:75-82 | A copy taken by `get_all` is a prefix of every later copy, however many values follow. |
| Models.NewNTC | src/MeasurementSystem/core/common/Models.py:196-200 | The NTC model stores its reference temperature in kelvin: the stored value minus 273.15 is the Celsius value given. |
| Models.NewNTCDefault | src/MeasurementSystem/core/common/Models.py:196 | Without a reference temperature, the NTC model uses 25 °C. |
| Models.NewKTYxDefault | src/MeasurementSystem/core/common/Models.py:294-305 | The KTY model defaults are alpha 7.88e-3, beta 1.937e-5 and t0 25. |
| Models.Div | src/MeasurementSystem/core/common/Models.py:221 | Python division succeeds exactly for a non-zero divisor, gives the quotient, and otherwise raises `ZeroDivisionError`. |
| Models.Apply | src/MeasurementSystem/core/common/Models.py:249-267 | A PTx model fails exactly when its nominal resistance is zero. Otherwise its result t satisfies `t * (r0 * alpha) = R - r0`. Any model fails only with `ZeroDivisionError` or `ValueError`. |
| Models.ApplyAll | src/MeasurementSystem/core/common/Models.py:116-130 | An empty stack returns its input unchanged, and a stack fails only with the errors its models raise. |
| Models.StackAppend | src/MeasurementSystem/core/common/Models.py:116-130 | Stacking is composition: a stack split in two applies the first part, then the second part to its result. The first error ends the chain. |
| Models.StackSingleton | src/MeasurementSystem/core/common/Models.py:116-130 | A stack of one model behaves as that model. |
| Models.LinearValue | src/MeasurementSystem/core/common/Models.py:161-171 | The linear model maps x to `x * gain + offset` and never fails. |
| Models.LinearStack | src/MeasurementSystem/core/common/Models.py:116-171 | Two stacked linear models are one linear model: the gains multiply, and the first offset is scaled by the second gain. |
| Models.DocumentedStack | src/MeasurementSystem/core/common/Models.py:84-112 | The documented stack `[LinearModel(offset=100, gain=1), LinearModel(offset=0, gain=10)]` maps x to `(x + 100) * 10`. |
| Models.PTxInverse | src/MeasurementSystem/core/common/Models.py:244-267 | A platinum sensor reads 0 °C at its nominal resistance, and it inverts `R = r0 (1 + alpha T)`. |
| Models.PTxZeroResistance | src/MeasurementSystem/core/common/Models.py:267 | A PTx model with nominal resistance 0 raises `ZeroDivisionError` for every input. |
| Models.NTCAtNominal | src/MeasurementSystem/core/common/Models.py:196-222 | At its nominal resistance, an NTC thermistor reads the reference temperature it was given in Celsius (given `log(1) == 0`). |
| Models.KTYFormulaAtNominal | src/MeasurementSystem/core/common/Models.py:307-326 | At its nominal resistance, a KTY sensor reads its reference temperature (given `sqrt(alpha^2) == alpha`). |
| Models.NTCReportsCelsius | src/MeasurementSystem/core/common/Models.py:224-229 | An NTC model built with t0 in Celsius prints t0 back, in Celsius, as a float. |
| Models.StackedText | src/MeasurementSystem/core/common/Models.py:132-139 | A stack prints as `StackedModel([` and its models' texts separated by `, `, then `])`. |
| Models.Register | src/MeasurementSystem/core/common/Models.py:71-81 | Defining a class registers it under its name and keeps every other entry, except that the base class `Model` is not registered. |
| Models.RegistryContents | src/MeasurementSystem/core/common/Models.py:54-81 | Once the module is loaded, the registry maps exactly the five model class names to their classes, and `Model` is not among them. |
| Serial.ToDict | src/MeasurementSystem/core/common/Utils.py:108-118 | An instance becomes a dictionary with the entries id, class, module and attributes, in that order, holding its identity, class name and module name. |
| Serial.Attributes | src/MeasurementSystem/core/common/Utils.py:113-117 | The attribute dictionary holds only public names (not starting with `_`). |
| Serial.ToDictKeys | src/MeasurementSystem/core/common/Utils.py:108-118 | The keys are exactly id, class, module and attributes. The attribute keys are the public attribute names, in `__dict__` order. |
| Serial.AttributeValues | src/MeasurementSystem/core/common/Utils.py:114 | Each public attribute keeps its value, unless it is a serializable instance, which is converted. A list, even of serializable instances, is copied as it is. |
| Channels.NewChannel | src/MeasurementSystem/core/common/BaseClasses.py:62-69 | A channel is made exactly when its type is one of the thirteen channel types, with the given fields. Otherwise the constructor raises `ValueError`. |
| Channels.NewChannelAsWritten | src/MeasurementSystem/core/common/BaseClasses.py:36-42 | With the membership test as written, the real types behave as in `NewChannel`. The test also accepts exactly the other strings of the class namespace: the module name and the docstring, with the indentation Python 3.12 and earlier keep (3.13 strips it). |
| Channels.ChannelTypeQuirk | src/MeasurementSystem/core/common/BaseClasses.py:37-38 | The module name passes the check as written, but it is no channel type, and the corrected check rejects it. |
| Channels.EmptyManager | src/MeasurementSystem/core/common/BaseClasses.py:190-195 | A new registry has no channels and is well formed. |
| Channels.AddChannel | src/MeasurementSystem/core/common/BaseClasses.py:227-240 | A duplicate name raises `ValueError`, and a class that is neither input, output nor multi channel raises `TypeError`. Otherwise the channel goes to the end of its class's list and its name is recorded; a multi channel that is also an input module (the HX711 scales) goes to the multi channels. The step succeeds if and only if neither error applies. |
| Channels.AddChannels | src/MeasurementSystem/core/common/BaseClasses.py:197-240 | `add_channels` fails only with `ValueError` or `TypeError`. |
| Channels.AddChannelInserts | src/MeasurementSystem/core/common/BaseClasses.py:231-256 | A successful add puts the channel into `get_channels()` order at the end of its own class's block. |
| Channels.AddChannelWellFormed | src/MeasurementSystem/core/common/BaseClasses.py:227-240 | A successful add keeps the recorded names equal to the names of the registered channels, each used once, and adds exactly that channel. |
| Channels.AddChannelsWellFormed | src/MeasurementSystem/core/common/BaseClasses.py:197-240 | A well-formed registry stays well formed through `add_channels`, whether it completes or stops. On completion the recorded names grow by exactly the new names. |
| Channels.AddChannelsStops | src/MeasurementSystem/core/common/BaseClasses.py:227-240 | Nothing is rolled back: on an error the registry is what adding the channels before the failing one leaves, and the failing one is rejected by that registry with the error raised. |
| Channels.DuplicateRejected | src/MeasurementSystem/core/common/BaseClasses.py:228-229 | Adding the same name twice raises `ValueError` and keeps the first channel. |
| Channels.Next | src/MeasurementSystem/measurement_server.py:1480 | `next()` succeeds exactly when the generator yields something, and returns the first item. |
| Channels.ByName | src/MeasurementSystem/core/common/BaseClasses.py:258-274 | The lookup yields only registered channels of that name, and afterwards it always raises `ValueError`. |
| Channels.ByNameFinds | src/MeasurementSystem/core/common/BaseClasses.py:258-274 | In a well-formed registry, a lookup by name yields one channel when the name is registered and none otherwise. `next()` on it succeeds exactly for a registered name, and fails with `ValueError` otherwise. |
| Channels.ByType | src/MeasurementSystem/core/common/BaseClasses.py:276-289 | The type lookup compares the class with a string, so it never yields anything and never raises. |
| Channels.CloseAll | src/MeasurementSystem/core/common/BaseClasses.py:313-317 | Each channel not closed yet is closed exactly once, and no channel already closed is closed again. |
| Channels.Close | src/MeasurementSystem/core/common/BaseClasses.py:301-317 | `close()` closes exactly the registered channels. |
| Channels.CloseInOrder | src/MeasurementSystem/core/common/BaseClasses.py:301-317 | In a well-formed registry, the channels are closed exactly in `get_channels()` order. |
| Channels.AddHardware | src/MeasurementSystem/core/common/BaseClasses.py:417-430 | Hardware is appended if and only if it is a `Hardware` instance. Anything else raises `TypeError`. |
| Channels.AllChannels | src/MeasurementSystem/core/common/BaseClasses.py:444-452 | The combined view holds exactly the channels of every hardware. |
| Channels.AddHardwareChannels | src/MeasurementSystem/core/common/BaseClasses.py:417-452 | Adding hardware appends its channels to the end of the combined view. |
| Channels.MultiByName | src/MeasurementSystem/core/common/BaseClasses.py:454-464 | The combined lookup is the first hardware's lookup, whose exception ends the search. With no hardware it yields nothing and ends quietly. |
| Channels.SecondHardwareUnsearched | src/MeasurementSystem/core/common/BaseClasses.py:462-464 | A channel registered only on the second hardware is in the combined view, yet the lookup by name fails with `ValueError`. |
| Channels.MultiByType | src/MeasurementSystem/core/common/BaseClasses.py:466-476 | The combined type lookup yields nothing and ends quietly. |
| Channels.MultiClose | src/MeasurementSystem/core/common/BaseClasses.py:432-442 | Closing all hardware closes exactly the channels of the combined view. |
| Measurement.NewTask | src/MeasurementSystem/measurement_server.py:495-515 | A channel without a config fails on the attribute. A configured channel gets a task exactly when it has both a chart number and a sample rate. The y channel is the chart number; the control channel is the decade at or below it and the x channel the decade above, so control ≤ y < x = control + 10. |
| Measurement.ChartChannelsExample | src/MeasurementSystem/measurement_server.py:513-515 | The source's example: chart number 705 gives control channel 700 and x channel 710. |
| Measurement.StopTimeout | src/MeasurementSystem/measurement_server.py:544-548 | The join timeout never exceeds 10 seconds. It is 10 without a sample rate, and otherwise the sample rate plus one second or 10, whichever is smaller. |
| Measurement.Prologue | src/MeasurementSystem/measurement_server.py:563-576 | The chart set-up queues its nine commands in order exactly when the control channel is valid. Otherwise the first command fails with `ValueError` and nothing is queued. |
| Measurement.MinOf | src/MeasurementSystem/measurement_server.py:616-618 | `min` is one of the samples and no sample is below it. |
| Measurement.MaxOf | src/MeasurementSystem/measurement_server.py:616-618 | `max` is one of the samples and no sample is above it. |
| Measurement.EnvelopeContains | src/MeasurementSystem/measurement_server.py:615-618 | Every sample lies inside the y range, which is 1.4 times the samples' span wide. |
| Measurement.EnvelopeWidens | src/MeasurementSystem/measurement_server.py:615-618 | A new sample only ever widens the y range. |
| Measurement.IterationSpecs | src/MeasurementSystem/measurement_server.py:598-629 | Every command of an iteration goes to the chart's y, x or control channel, with a value. |
| Measurement.Iterate | src/MeasurementSystem/measurement_server.py:583-629 | An iteration counts one up. Without data it sends nothing. With data it stores the sample, and from the second sample on the stored range is the samples' range with 20% added on each side. Every send goes to the chart's channels at the task's priority. |
| Measurement.IterateBuilds | src/MeasurementSystem/measurement_server.py:594-629 | With a sample, an iteration queues exactly the construction of its plot, x-move and rescale commands, in that order. |
| Measurement.IterationSends | src/MeasurementSystem/measurement_server.py:594-629 | With printable floats, an iteration plots the value and the elapsed time. On every tenth iteration, from the tenth on, it moves the x axis 10 s ahead. When the range changed it sends the new minimum and maximum, each with its keyword. It raises nothing. |
| Measurement.SteadyRangeQuiet | src/MeasurementSystem/measurement_server.py:620-629 | Once a range was sent, a sample inside the span leaves it unchanged, so no range is sent again. |
| Measurement.Eligible | src/MeasurementSystem/measurement_server.py:671-677 | A channel is kept if and only if it is an input channel or an input module (a multi channel that is also an input module included) and its config is enabled; the registry's order is kept. |
| Measurement.TaskFor | src/MeasurementSystem/measurement_server.py:672-679 | A channel that is not an input channel or input module gets no task. An input-capable channel gets a task exactly when it is enabled, and the task is the constructor's result; the errors are `AttributeError` or `ValueError`. |
| Measurement.InitializeTasks | src/MeasurementSystem/measurement_server.py:658-679 | On success there is one task per enabled input channel or input module, multi-channel input modules included, in `get_channels()` order. An error is `AttributeError` or `ValueError`. Every task built is the constructor's result for its channel. |
| Measurement.ModuleGetsTask | src/MeasurementSystem/measurement_server.py:670-679 | An enabled, configured HX711-style module (a multi channel that is also an input module) with a fresh name is filed among the multi channels and, in a configured registry, still gets its own measurement task. |
| Measurement.InitializeAllConfigured | src/MeasurementSystem/measurement_server.py:658-679 | A fully configured registry yields one task per eligible channel, with no error. |
| Control.CalculateName | src/MeasurementSystem/measurement_server.py:841-873 | The name fails exactly when `int(index)` fails, with that error. A `None` index, as after a consumed selection, raises `TypeError`. |
| Control.NameBijection | src/MeasurementSystem/measurement_server.py:862-873 | Diagrams 801-805 with indices 1-20 name the charts 701-800, and the diagram and index can be read back from the name. |
| Control.NameCovers | src/MeasurementSystem/measurement_server.py:862-873 | Every chart number 701-800 is the name of a diagram in 801-805 and an index in 1-20. |
| Control.NameInjective | src/MeasurementSystem/measurement_server.py:862-873 | Two selections with the same name are the same selection. |
| Control.ChartMatches | src/MeasurementSystem/measurement_server.py:918-924 | The search collects exactly the registered channels whose config has the chart number. |
| Control.Retuned | src/MeasurementSystem/measurement_server.py:997-1108 | An assignment changes only the setting it names (enabled, model or sample rate). Name, class, type, unit, level and chart number stay. |
| Control.RetuneAll | src/MeasurementSystem/measurement_server.py:997-1108 | The channels on the chart are changed and every other channel is left as it is, in the same order. |
| Control.RetuneChannels | src/MeasurementSystem/measurement_server.py:997-1108 | The assignment reaches the channel inside the registry. `get_channels` afterwards shows the same channels in the same order, those on the chart changed and all others untouched. |
| Control.OtherSelectors | src/MeasurementSystem/measurement_server.py:904-907 | The displays reset are those of exactly the selectors 801-805 other than the one received; each gets the command `c + 10 F 0`. |
| Control.Report | src/MeasurementSystem/measurement_server.py:918-965 | With no name (selector value 0), any channel with a chart number makes the comparison with the unbound name raise `UnboundLocalError` before anything is sent. The report raises only `UnboundLocalError`, `AttributeError`, `ValueError` or the "multiple channels" `Exception`. |
| Control.Shown | src/MeasurementSystem/measurement_server.py:940-962 | Reporting the one channel found raises at most `AttributeError` (a missing setting) or `ValueError` (a frame that cannot be made). |
| Control.SelectedName | src/MeasurementSystem/measurement_server.py:910-914 | A selector value 0 names no chart. Any other value names the chart `_calculate_name` gives, or fails with its error. |
| Control.Select | src/MeasurementSystem/measurement_server.py:897-898 | The selector command is stored first, so it stays stored whatever is raised later. No other state changes. |
| Control.ReportFound | src/MeasurementSystem/measurement_server.py:940-962 | With exactly one configured channel on the chart, the report queues its enable code (`int(enabled) + 1`), its model text and its sample rate, in that order. |
| Control.ReportNotFound | src/MeasurementSystem/measurement_server.py:927-938 | With no channel on the chart, the report clears the enable display and reports "SR: not found!". |
| Control.ReportAmbiguous | src/MeasurementSystem/measurement_server.py:964-965 | Two or more channels on the chart raise before anything is reported. |
| Control.ReportNoEnable | src/MeasurementSystem/measurement_server.py:944 | One channel on the chart whose config has no `enabled` raises `AttributeError` before anything is reported. |
| Control.SelectSends | src/MeasurementSystem/measurement_server.py:897-965 | A selector whose index converts sends the console line, sets the four other selector displays to 0, names the chart on the status line, then reports on the channels on that chart. |
| Control.SelectFound | src/MeasurementSystem/measurement_server.py:897-962 | Selecting a chart with one fully configured channel queues, in order: the console line, the other selectors' zeros, the status line, and the channel's enable code, model and sample rate. Nothing is raised. |
| Control.SelectNotFound | src/MeasurementSystem/measurement_server.py:897-938 | Selecting a chart no channel is on reports "not found", and nothing is raised. |
| Control.SelectAmbiguous | src/MeasurementSystem/measurement_server.py:897-965 | With two channels on the selected chart, the error is raised after the status line, and the selection stays stored. |
| Control.SelectZero | src/MeasurementSystem/measurement_server.py:910-924 | A selector value 0 leaves the chart name unbound. The search raises `UnboundLocalError` when any channel has a chart number, and reports "not found" when none has. |
| Control.ChangeEnable | src/MeasurementSystem/measurement_server.py:991-1001 | The change sets `enabled` to whether `float(value) == 2`, and only when `float(value)` succeeds and the channel has an `enabled` setting. A missing setting raises `AttributeError`. After an earlier exception nothing happens. |
| Control.ChangeModel | src/MeasurementSystem/measurement_server.py:1043-1060 | A model is set only from a text that parses, to the parsed model, and the report that follows can raise only `ValueError`. After an earlier exception nothing happens. |
| Control.ChangeRate | src/MeasurementSystem/measurement_server.py:1101-1117 | The sample rate becomes `float(value)`, and only when that conversion succeeds. A missing setting raises `AttributeError`. After an earlier exception nothing happens. |
| Control.Depend | src/MeasurementSystem/measurement_server.py:968-1130 | Without a stored selection, a dependent command changes nothing. An exception leaves the stored selection as it was; success consumes its value (sets it to `None`). The registry changes only when the stored selection names a chart with exactly one channel, and only by an assignment on that chart. |
| Control.DependFound | src/MeasurementSystem/measurement_server.py:991-1010 | With exactly one channel on the chart: on success the selection's value is consumed, on an exception it is kept, and any registry change is an assignment on that chart. |
| Control.Execute | src/MeasurementSystem/measurement_server.py:830-1187 | A blank command raises `TypeError` at its first comparison. A selector command is always stored. Only 830, 831 and 833 change the registry. 890 is a save request and 891/892 a load request, of the default files exactly for 892; neither touches the register or the registry. |
| Control.ConfigAnnounced | src/MeasurementSystem/measurement_server.py:1134-1159 | A save or load command sends exactly one console line, naming the three `_user` files (890, 891) or `_default` files (892) in the server's `config` directory, raises nothing and leaves the state alone. |
| Control.ConfigPathShape | src/MeasurementSystem/measurement_server.py:1136-1138 | A configuration path starts with the script directory and ends with `config/` and the file name, with a `/` between a non-empty directory and `config`. |
| Control.EnableSequence | src/MeasurementSystem/measurement_server.py:968-1010 | 830 after a selection naming exactly one channel with an `enabled` setting sends two console lines, the new enable code on 829, and the reset of the selector displays. The channel's `enabled` becomes whether the value is 2. |
| Control.WithoutSelection | src/MeasurementSystem/measurement_server.py:1012-1015 | Without a selection, a dependent command only prints, and nothing changes. |
| Control.SelectionConsumed | src/MeasurementSystem/measurement_server.py:1010 | Once a dependent command has succeeded, the next dependent command fails in `int(None)` after its console line, and changes nothing. |
| Control.AddCommandToTask | src/MeasurementSystem/measurement_server.py:1247-1264 | The manager puts the command into the control queue at priority 5, whatever priority it was given. |
| Control.PriorityDropped | src/MeasurementSystem/measurement_server.py:1264 | The priority given to the manager makes no difference. |
| Control.ControlStep | src/MeasurementSystem/measurement_server.py:821-828 | On an empty queue an iteration only times out. Otherwise it takes the least command, echoes it first with its own priority, and the queue shrinks by one. |
| Control.ForwardedEcho | src/MeasurementSystem/measurement_server.py:821-828 | A command forwarded to an idle control task, at any priority, is echoed at priority 5 and then executed, and the queue ends empty. |
| Server.Enqueue | src/MeasurementSystem/measurement_server.py:1362-1373 | Each send becomes one queue entry, with its own priority and the next sequence number, after the earlier entries. |
| Server.EnqueueSends | src/MeasurementSystem/measurement_server.py:1362-1373 | Queueing sends of one priority is `put`ting their commands at that priority. |
| Server.InitComvisuQueued | src/MeasurementSystem/measurement_server.py:1375-1402 | All start-up commands are made and queued at priority 0. A new send queue hands them out in exactly the order they were queued. |
| Server.SetLevel | src/MeasurementSystem/measurement_server.py:1478-1485 | The written level lands in the first hardware, where the lookup found the channel. Every other hardware is unchanged. |
| Server.ToggleLed | src/MeasurementSystem/measurement_server.py:1478-1487 | Without a found digital output named `KeepAliveLED`, the registry is unchanged. A write happens only to such a channel. |
| Server.LedToggled | src/MeasurementSystem/measurement_server.py:1478-1487 | The LED is written 1 when its level is 0 and 0 otherwise, and the next lookup by name reads back the written level. |
| Server.Start | src/MeasurementSystem/measurement_server.py:1432-1435 | Starting rebuilds the task list from the registry and leaves the registry and control queue alone. The system runs afterwards exactly if the rebuild succeeded or it was already running. |
| Server.Stop | src/MeasurementSystem/measurement_server.py:1436-1439 | Stopping only marks the tasks as stopped. |
| Server.Route | src/MeasurementSystem/measurement_server.py:1428-1497 | A blank command fails with `TypeError`. Only 800-899 change the control queue, only 980 changes the hardware, and only 900 changes the tasks. |
| Server.ProcessCommands | src/MeasurementSystem/measurement_server.py:1407-1497 | The batch routes every command unless one raises. The first exception ends the batch after at least one command. |
| Server.ProcessAppend | src/MeasurementSystem/measurement_server.py:1428 | A batch split in two is the first part, then, if that raised nothing, the second part from where the first left off. |
| Server.ProcessOne | src/MeasurementSystem/measurement_server.py:1428 | A batch of one command is that command's routing. |
| Server.RouteStart | src/MeasurementSystem/measurement_server.py:1431-1435 | 900 with value 2, on a registry whose rebuild succeeds, starts one task per enabled input and prints one console line. |
| Server.RouteStartFails | src/MeasurementSystem/measurement_server.py:1433 | A failed rebuild ends the step with its exception. Nothing is sent or started, and the tasks built so far are kept. |
| Server.RouteStop | src/MeasurementSystem/measurement_server.py:1436-1439 | Any other value on 900 stops the tasks, prints a console line, then shows system state 0 on 901 at priority 0. |
| Server.RouteKeepAlive | src/MeasurementSystem/measurement_server.py:1472-1487 | 980 answers 1 on 981 at priority 0 and toggles the LED, whatever the lookup finds. |
| Server.RouteForward | src/MeasurementSystem/measurement_server.py:1459-1468 | 800-899 are printed and then put into the control queue at priority 5. |
| Server.RouteSlider | src/MeasurementSystem/measurement_server.py:1443-1451 | 510 is only printed. |
| Server.RouteUnknown | src/MeasurementSystem/measurement_server.py:1495-1497 | Every other channel is printed as unknown and changes nothing. |
| Hx711.TwosComplement24 | src/MeasurementSystem/core/driver/RaspberryPi.py:1013-1032 | The conversion lands in [-2^23, 2^23) and agrees with its input modulo 2^24: it is the signed reading of the low 24 bits. |
| Hx711.TwosComplementHalves | src/MeasurementSystem/core/driver/RaspberryPi.py:1029-1032 | Below the sign bit a 24-bit word is kept as it is. From the sign bit on, 2^24 is subtracted. |
| Hx711.TwosComplementRoundTrip | src/MeasurementSystem/core/driver/RaspberryPi.py:1025-1032 | Every value in [-2^23, 2^23) is recovered from its 24-bit pattern. |
| Hx711.BitsValueSnoc | src/MeasurementSystem/core/driver/RaspberryPi.py:1101 | Shifting in one more bit doubles the value and adds the bit. |
| Hx711.AssembleBits | src/MeasurementSystem/core/driver/RaspberryPi.py:1099-1101 | The shift loop assembles the value of the bits, most significant first, and the value is below 2^n. |
| Hx711.SignBitFirst | src/MeasurementSystem/core/driver/RaspberryPi.py:1029 | The first of 24 bits is set exactly when the value reaches the sign bit, and the value is below 2^24. |
| Hx711.ReadRaw | src/MeasurementSystem/core/driver/RaspberryPi.py:1095-1112 | A timed-out wait raises `TimeoutError`, and only then. Otherwise the reading is the value of the 24 bits, minus 2^24 when the first bit is set, so it is negative exactly when the first bit is set. |
| Hx711.BitsOfValue | src/MeasurementSystem/core/driver/RaspberryPi.py:1099-1101 | The n bits of a number below 2^n assemble back to that number. |
| Hx711.ReadRawRoundTrip | src/MeasurementSystem/core/driver/RaspberryPi.py:1098-1112 | Every value in [-2^23, 2^23), clocked out as its 24-bit pattern, is read back as itself. |
| Hx711.SumBounds | src/MeasurementSystem/core/driver/RaspberryPi.py:1127 | The sum of n readings within [lo, hi] lies within [n·lo, n·hi]. |
| Hx711.ReadAverage | src/MeasurementSystem/core/driver/RaspberryPi.py:1124-1129 | With no readings, `avg` is never bound and the method raises `UnboundLocalError`, and only then. Otherwise the result is the floor of the mean: n·avg ≤ sum < n·(avg + 1). |
| Hx711.AverageBetween | src/MeasurementSystem/core/driver/RaspberryPi.py:1124-1129 | The average of readings within [lo, hi] lies within [lo, hi]. |
| Hx711.Insert | src/MeasurementSystem/core/driver/RaspberryPi.py:1144 | Inserting into an ascending list keeps it ascending and adds exactly the new element. |
| Hx711.Sort | src/MeasurementSystem/core/driver/RaspberryPi.py:1144 | `sorted` returns an ascending permutation of its input. |
| Hx711.AscendingUnique | src/MeasurementSystem/core/driver/RaspberryPi.py:1144 | Two ascending lists with the same elements are equal, so `sorted` has exactly one possible result. |
| Hx711.Median | src/MeasurementSystem/core/driver/RaspberryPi.py:1144 | The element at index n // 2 of the sorted readings is one of the readings. |
| Hx711.ReadMedian | src/MeasurementSystem/core/driver/RaspberryPi.py:1141-1146 | With no readings, `median` is never bound and the method raises `UnboundLocalError`, and only then. Otherwise the result is one of the readings. |
| Hx711.MedianOrderFree | src/MeasurementSystem/core/driver/RaspberryPi.py:1141-1146 | The median does not depend on the order in which the readings arrived. |
| Hx711.MedianOfAscending | src/MeasurementSystem/core/driver/RaspberryPi.py:1144 | For readings that arrive in ascending order, the median is the middle one, at index n // 2. |
| Hx711.Tara | src/MeasurementSystem/core/driver/RaspberryPi.py:972-980 | The tara of ten readings always succeeds, is one of them, and is the sixth smallest (index 5 after sorting). |
| Hx711.IsReady | src/MeasurementSystem/core/driver/RaspberryPi.py:993-997 | The module is ready only when the data pin delivered a sample. |
| Hx711.ReadyAfterLevel | src/MeasurementSystem/core/driver/RaspberryPi.py:993-997 | After the pin reads a level, the module is ready exactly when that level is 0. |
| Hx711.NotReadyWhenEmpty | src/MeasurementSystem/core/driver/RaspberryPi.py:997 | A pin buffer without samples means not ready. |
| Servo.PulseWidth | src/MeasurementSystem/core/driver/RaspberryPi.py:1219-1221 | A percentage of at least 0 gives at least 1000 µs, and one of at most 100 gives at most 2000 µs. |
| Servo.PulseWidthRange | src/MeasurementSystem/core/driver/RaspberryPi.py:1209-1221 | Percentages 0-100 give 1000-2000 µs, with 0% exactly 1000 µs and 100% exactly 2000 µs. |
| Servo.PulseWidthWhole | src/MeasurementSystem/core/driver/RaspberryPi.py:1221 | A whole percentage k in 0..100 gives exactly 1000 + 10k µs. |
| Servo.TruncateMonotone | src/MeasurementSystem/core/driver/RaspberryPi.py:1221 | Python's `int()` of a float, truncation toward zero, is monotone, so the pulse mapping keeps its order. |
| Servo.PulseWidthMonotone | src/MeasurementSystem/core/driver/RaspberryPi.py:1221 | A larger percentage never gives a shorter pulse. |
| CedaTable.New | src/MeasurementSystem/core/common/Ceda.py:22-27 | A new table has no columns and no rows. |
| CedaTable.Clear | src/MeasurementSystem/core/common/Ceda.py:206-208 | `clear` leaves a table with no columns and no rows. |
| CedaTable.IndexOf | src/MeasurementSystem/core/common/Ceda.py:88-91 | Looking up a present column label gives a position holding that label. |
| CedaTable.AppendValue | src/MeasurementSystem/core/common/Ceda.py:76-105 | Appending keeps the table well formed. It adds the column at the end if it is new, and afterwards the last row holds the value in that column. |
| CedaTable.AppendToFresh | src/MeasurementSystem/core/common/Ceda.py:85-87 | Appending to a new or cleared table gives one column holding one row with the value. |
| CedaTable.AppendFillsLast | src/MeasurementSystem/core/common/Ceda.py:88-94 | For a known column whose last cell is null, the value overwrites that cell. No row is added and no other cell changes. |
| CedaTable.AppendAddsRow | src/MeasurementSystem/core/common/Ceda.py:95-100 | For a known column whose last cell is set, a new row is added that is null everywhere except that column. The earlier rows stay. |
| CedaTable.AppendAddsColumn | src/MeasurementSystem/core/common/Ceda.py:101-105 | A new column is added at the end. It is null in every row but the last, which holds the value, and every other cell is unchanged. |
| CedaTable.Append | src/MeasurementSystem/core/common/Ceda.py:68-74 | A call that is neither (string, value) nor a single dictionary raises `TypeError` and changes nothing. The table stays well formed, and `TypeError` is the only error. |
| CedaTable.AppendDict | src/MeasurementSystem/core/common/Ceda.py:107-115 | A dictionary is appended entry by entry. It raises (`TypeError`) exactly when some key is not a string, after the entries before it were applied. |
| CedaTable.AppendDictStep | src/MeasurementSystem/core/common/Ceda.py:114-115 | Appending a dictionary is appending its first entry, then the rest from the table that leaves. |
| CedaTable.Duprow | src/MeasurementSystem/core/common/Ceda.py:210-217 | On an empty table nothing happens. Otherwise one row is added, null in every column, and the earlier rows and the columns stay. |
| CedaTable.Kept | src/MeasurementSystem/core/common/Ceda.py:225 | `drop(tail(n))` keeps the rows `tail(n)` does not return: the frame's length minus pandas' `tail` length, which is `min(n, len)` for n ≥ 0 and `max(len + n, 0)` for n < 0. |
| CedaTable.Delete | src/MeasurementSystem/core/common/Ceda.py:219-225 | Deleting keeps a prefix of the rows (as many as `Kept` says) and all columns. It does nothing on an empty table. |
| CedaTable.DuprowDelete | src/MeasurementSystem/core/common/Ceda.py:210-225 | `delete(1)` undoes `duprow()`. |
| CedaTable.DeleteEdges | src/MeasurementSystem/core/common/Ceda.py:219-225 | `delete(0)` changes nothing. Deleting at least as many rows as there are removes them all and keeps the columns. A negative count of at least the row count changes nothing. |
| CedaTable.Extra | src/MeasurementSystem/core/common/Ceda.py:237 | The columns `concat` adds are exactly those of the other table not present in this one, each once. |
| CedaTable.Merge | src/MeasurementSystem/core/common/Ceda.py:227-237 | Merging with something that is not a table raises `ValueError`, and only then. Otherwise the result is well formed, its columns are this table's followed by the other's new ones, and its rows are both tables' rows. |
| CedaTable.Merged | src/MeasurementSystem/core/common/Ceda.py:237 | The rows of the concatenation are this table's rows, then the other's, each laid out on the joint columns. |
| CedaTable.MergeKeepsSelf | src/MeasurementSystem/core/common/Ceda.py:237 | Every cell of this table is unchanged in the merge. |
| CedaTable.MergeAppendsOther | src/MeasurementSystem/core/common/Ceda.py:237 | Every cell of the other table appears after this table's rows, in its own column. |
| CedaTable.MergeFillsMissing | src/MeasurementSystem/core/common/Ceda.py:237 | A cell whose column its source table did not have is null in the merge. |
| CedaTable.MergeIntoNew | src/MeasurementSystem/core/common/Ceda.py:227-237 | Merging a table into a new, empty one gives that table. |
| CedaTable.UsageExample | src/MeasurementSystem/core/common/Ceda.py:242-247 | The module's example, `append("A", 1)`, `append({"B": 2, "A": 3})`, `duprow()`, raises nothing and yields the rows (1, 2), (3, NaN), (NaN, NaN) under columns A, B. |

## Left out

- Threads, events, joins, the thread pool of `stop_tasks` and every `sleep`: each loop body is one pure step, and join timeouts are plain arithmetic (`Measurement.StopTimeout`).
- Concurrency hazards: the model runs one step at a time. It assumes the queue counter is not raced outside the queue lock (`core/Utils.py:55-60`). It assumes the echoed selector command is a copy, not the object later set to value `None`. It does not model the `hardware_list=[]` default shared by every `MultiHardware()`.
- Socket I/O: connect, disconnect, `recv` and `sendall`. `Connection.Receive` takes the decoded text of one `recv`, and `Connection.Send` takes the link state (`Link`) and returns the text written; only the split, parse and connected-guard logic is modelled.
- Connection.Receive: an exception from `recv` itself (the `TimeoutError` after the 5 s socket timeout, an `OSError`) or from decoding (`UnicodeDecodeError`) is not modelled, so its error contract covers only the errors raised after a successful read.
- Commands.MatchFrame: `\d` is modelled as the ASCII digits 0-9. Python's `\d` on a `str` also matches other Unicode decimal digits, so such a frame matches in Python but not here.
- Commands.ParseFrame: for the same reason a frame whose channel is written in non-ASCII decimal digits, which `int()` would convert, is rejected here.
- Python float text: `str()` of a float and `float()` of a string that holds a digit (other than a plain integer or an integer followed by `.0`) are the `FloatCodec` parameter, so float rounding is outside the model. Floats are `real`; what an inf or nan spelling reads as is left to the codec, since `real` has no such values.
- PyText.FloatOfStr: a string without an ASCII digit is rejected here unless it is exactly an optionally signed spelling of inf, infinity or nan. Python's `float()` also strips surrounding whitespace and accepts non-ASCII decimal digits, so `float(" inf")`, `float("nan\n")` and `float("١")` succeed in Python and fail here.
- Commands.ApplyValues: for the same reason an F value given as text without an ASCII digit, such as `"١"` or `" inf"`, is rejected with `ValueError` here, while Python converts it; `Commands.ParseFrame` rejects the frame `#1F١;` likewise.
- The NTC `log` and KTY `sqrt` are a `MathFns` parameter. Their results are not modelled beyond the formulas around them.
- `set_model_from_str` evaluates Python text with `eval`/`exec`. It is a parameter `parse` that may fail.
- `str(command)` in log lines is a parameter. Every `print()` is left out, because it has no effect the model can see.
- The clock: `printConsole` and the measurement loop take their time stamp or clock reading as an argument, one per step.
- Serial.ToDict: object graphs are trees. `to_dict` recursing through a cycle of `Serializable` attributes raises `RecursionError` in Python; the inductive `Serial` datatype cannot hold a cycle, so that error is not modelled.
- JSON persistence and reflective construction (`to_json`, `from_json`, `Serializable.from_dict`, `id()` references). The console line of a configuration save or load is sent, with the script directory as a parameter; the file writes and reads themselves are recorded as an effect marker only. The reload a load triggers (`stop_tasks`, close, `init_comvisu`) is not replayed.
- Process bootstrap: `main()`, argv, the lock file and the reconnect loop.
- `start_tasks` starts new task threads without stopping old ones; only the commands it queues are modelled.
- The GPIO write behind command 980: the LED's level is a field of its channel, which `Server.ToggleLed` sets. A failed lookup is swallowed, as in the source.
- Hardware drivers other than the HX711 arithmetic and the servo mapping: lgpio calls, frequency counting, the stepper, the daqhats boards (`DigilentMCC118.py`, `DigilentMCC134.py`), `USBUtils` and `Config.py`. The configuration is a record of `enabled`, `sample_rate` and `chart_number`.
- Hx711.ReadRaw: the GPIO wake-up, power-down and clock pulses are left out. The ready wait, its timeout and the 24 levels read are arguments.
- Hx711.ReadAverage: it takes the readings already made. A `TimeoutError` raised partway through a series of readings is not modelled.
- Hx711.ReadMedian: it takes the readings already made, as `Hx711.ReadAverage` does.
- Servo.PulseWidth: it computes over reals, so binary float rounding of `1000 * p / 100` is not modelled. The lgpio call that sets the pulse is left out.
- Dispatcher.StatusCommand: it and the dispatcher lemmas built on it (`Dispatcher.StepSendsLeast`, `Dispatcher.HandWorking`, `Dispatcher.RunTakesDrainOrder`, `Dispatcher.StepGoesOn`) assume a queue of at most `sys.maxsize` entries, the most `len()` can report on a 64-bit build. That bound keeps the "Data in queue: N" text under 255 characters.
- Ceda `save`, `load` and `log` (CSV I/O, and an in-place update of a `tail(1)` copy), the `data` setter and the constructor with initial data.
- CedaTable.Append: a value, a dictionary included, is stored as one cell. How pandas treats list-like values (spreading them over rows) is not modelled. The row labels are always 0..n-1, and pandas dtype inference is not modelled.
- CedaTable.AppendDict: the `isinstance(dictionary, dict)` check in `_append_dictionary` has no counterpart, because `append` only routes dictionaries there.
- PyText.IntTextParses: `int()` of a string accepts an optional sign and ASCII digits. Surrounding whitespace, underscores and non-ASCII digits, which Python also accepts, are left out.
- The self-test scripts under `tests/_debug` are evidence only. The parse self-test at `Command.py:217` is `Commands.SingleKeywordRejected`.

## Findings

| source | as written | input that shows it | evidently intended | confidence | as-written member | corrected member |
|---|---|---|---|---|---|---|
| src/MeasurementSystem/core/comvisu/Command.py:33-38 | `valid_types` returns `set(vars(cls).values())`, which also holds the class's `__module__` and docstring, so the type check at line 110 accepts them | type `"MeasurementSystem.core.comvisu.Command"`: construction succeeds with frame `#1MeasurementSystem.core.comvisu.Commandx;`, which the frame parser rejects | only `F` and `S` are types | not executed | Commands.TypeSetQuirk | Commands.ApplyValues |
| src/MeasurementSystem/core/common/BaseClasses.py:36-42 | `valid_types` returns `set(vars(cls).values())`, so `Channel.__init__` (lines 62-64) also accepts the class's `__module__` and docstring as a channel type | type `"MeasurementSystem.core.common.BaseClasses"`: the channel is created | only the listed channel types (`digital_input` to `other`) are valid | not executed | Channels.ChannelTypeQuirk | Channels.NewChannel |
