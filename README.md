# Creature training environment: command layer and creature brains

This project models the communication core of a Unity training
environment and its Python driver, plus the signal graph of the evolved
creatures.

The Unity side has two projects. UnityRLEnvironment runs reinforcement-learning
sessions. CreatureSimulation simulates evolved creatures. Each reads
newline-terminated commands from a named pipe and feeds them through
**parsers**. A parser is a grammar for one line plus a FIFO queue of the
commands it produced.

The parsers modelled are:

- the `run`/`set`/`quit` **dispatch** grammar;
- the `Error:`/`Warning:` grammar;
- the `<index> <line>` **multiplexer**, which forwards each line to a sub-parser
  chosen by index;
- the **JSON** framer, which counts braces to cut a stream of lines into object
  texts.

Parsers are chained in a **ParserStack** (UnityRLEnvironment) or a
**ParserQueue** (CreatureSimulation). A chain offers each line to its entries
in order, and the first entry that accepts the line wins.

Around the parsers the model covers:

- the one-line-at-a-time **PipeCommunicatorBuffer**;
- the **PipeMultiplexer**, which shares one pipe among creatures by id;
- the falling-prism experiment's creature reader;
- the dispatcher's command-line lookup;
- the two **PopulationControllers**, which start queued sessions on free physics
  layers and report finished ones.

On the Python side (`src/unity_instance.py`, `src/simulation_instance.py`), a
task thread reassembles `\r\n`-terminated lines from the pipe's chunks. Each
line is classified as it is terminated, as a warning, an error or the end
marker. The instance classes guard every request by the current task.

The creature's brain is a graph of neurons. Each neuron has a `Signal` with one
slot per input. Each step the neuron evaluates its last signal and writes the
result into the next signals of the neurons it feeds. A `Limb` tree numbers its
senders and receivers by one flat index.

Nothing from the source is executed here. Foreign pieces become parameters:
JSON deserialization, a sub-parser's answer to a line, and a scheduler's choice
between two events that are both set.

## Model

| member | source | states |
|---|---|---|
| Parsing.Parser.constructor | UnityRLEnvironment/Assets/Scripts/Common/Communication/Parser.cs:18-32 | A new parser has an empty command queue, its event reset and no callback. |
| Parsing.Parser.TryParse | UnityRLEnvironment/Assets/Scripts/Common/Communication/Parser.cs:109-127 | The status is the grammar's verdict. A produced command is appended to the end of the queue, sets the event and is handed to the callback if one is set. A line that produces nothing leaves queue and event untouched. |
| Parsing.Parser.Next | UnityRLEnvironment/Assets/Scripts/Common/Communication/Parser.cs:82-98 | Returns the oldest queued command and removes it (FIFO), or nothing on an empty queue. The event is reset exactly when the last command is taken. |
| Parsing.Parser.GetCommandAsync | UnityRLEnvironment/Assets/Scripts/Common/Communication/Parser.cs:63-80 | A non-empty queue yields its head at once. An empty one leaves everything unchanged and waits. |
| Parsing.Parser.ResumeAfterWait | UnityRLEnvironment/Assets/Scripts/Common/Communication/Parser.cs:63-80 | After the wait, a set event guarantees a command is there to take; the head is returned and dequeued. |
| Parsing.Parser.SetOnParsedCallback | UnityRLEnvironment/Assets/Scripts/Common/Communication/Parser.cs:129-132 | Replaces the callback and touches neither queue nor event. |
| SimParsing.Parser.constructor | CreatureSimulation/Assets/Scripts/Common/Communication/Parser.cs:13 | A new parser has an empty queue. |
| SimParsing.Parser.TryParse | CreatureSimulation/Assets/Scripts/Common/Communication/Parser.cs:85-99 | Status is the grammar's verdict. Only a produced command is appended to the queue. |
| SimParsing.Parser.Next | CreatureSimulation/Assets/Scripts/Common/Communication/Parser.cs:37-50 | FIFO dequeue, or nothing on an empty queue. |
| SimParsing.Parser.GetCommandAsync | CreatureSimulation/Assets/Scripts/Common/Communication/Parser.cs:56-67 | Yields the head when one is queued. On an empty queue it fails with `NotImplementedException`. |
| ParserChains.RunChain | UnityRLEnvironment/Assets/Scripts/Common/Communication/ParserStack.cs:104-134 | The loop over the entries computes exactly the chain's specified answer. |
| ParserChains.ParserStack.constructor | UnityRLEnvironment/Assets/Scripts/Common/Communication/ParserStack.cs:27 | A new stack has no entries. |
| ParserChains.ParserStack.AddParser | UnityRLEnvironment/Assets/Scripts/Common/Communication/ParserStack.cs:33-39 | The entry is appended at the end. |
| ParserChains.ParserStack.AddParserOf | UnityRLEnvironment/Assets/Scripts/Common/Communication/ParserStack.cs:45-53 | A fresh entry of the requested type is appended and returned. |
| ParserChains.ParserStack.PopParser | UnityRLEnvironment/Assets/Scripts/Common/Communication/ParserStack.cs:62-74 | Removes the last entry when it is the one named. Otherwise it throws the stack's message and the list is unchanged. |
| ParserChains.ParserStack.PopParserOf | UnityRLEnvironment/Assets/Scripts/Common/Communication/ParserStack.cs:83-96 | Removes and returns the last entry when its type matches. Otherwise it throws and the list is unchanged. |
| ParserChains.ParserStack.TryParse | UnityRLEnvironment/Assets/Scripts/Common/Communication/ParserStack.cs:104-134 | Agrees with the chain specification characterised by `FirstSuccessWins`. |
| ParserChains.ParserQueue.constructor | CreatureSimulation/Assets/Scripts/Common/Communication/ParserQueue.cs:25 | A new queue has no entries. |
| ParserChains.ParserQueue.AddParser | CreatureSimulation/Assets/Scripts/Common/Communication/ParserQueue.cs:31-41 | The entry is appended at the end. |
| ParserChains.ParserQueue.AddParserOf | CreatureSimulation/Assets/Scripts/Common/Communication/ParserQueue.cs:43-51 | A fresh entry of the requested type is appended and returned. |
| ParserChains.ParserQueue.PopParser | CreatureSimulation/Assets/Scripts/Common/Communication/ParserQueue.cs:60-72 | Removes the last entry when it is the one named. Otherwise it throws the queue's message and the list is unchanged. |
| ParserChains.ParserQueue.PopParserOf | CreatureSimulation/Assets/Scripts/Common/Communication/ParserQueue.cs:81-94 | Removes and returns the last entry when its type matches. Otherwise it throws and the list is unchanged. |
| ParserChains.ParserQueue.TryParse | CreatureSimulation/Assets/Scripts/Common/Communication/ParserQueue.cs:102-129 | Agrees with the chain specification characterised by `FirstSuccessWins`. |
| ParserChains.WalkFirstAnswer | UnityRLEnvironment/Assets/Scripts/Common/Communication/ParserStack.cs:104-134 | From any position, the entry that ends the walk is the first one that did not decline. The walk parses iff that entry accepted, and an exception is that entry's. A walk that fails means every entry declined, and its message collects all their errors. |
| ParserChains.FirstSuccessWins | UnityRLEnvironment/Assets/Scripts/Common/Communication/ParserStack.cs:104-134 | A line is parsed iff some entry accepts it while all earlier ones decline. The winner is the first such entry and the message holds the earlier entries' errors. A failure reports the count and every error. |
| ParserChains.EmptyChainFails | UnityRLEnvironment/Assets/Scripts/Common/Communication/ParserStack.cs:128-131 | An empty chain fails every line, and its message reports 0 parsers and no errors. |
| ParserChains.AddThenPop | UnityRLEnvironment/Assets/Scripts/Common/Communication/ParserStack.cs:62-74 | Popping the entry just added restores the previous list. Popping an entry that is not last fails. |
| Multiplexing.DigitRun | UnityRLEnvironment/Assets/Scripts/Common/Communication/MultiplexerParser.cs:29 | The length of the maximal leading run of digits, which is the regex's `\d+` group. |
| Multiplexing.MultiplexParseCases | UnityRLEnvironment/Assets/Scripts/Common/Communication/MultiplexerParser.cs:31-47 | A line is rejected iff it does not match `^\d+ .*$`. A match whose index does not fit in 32 bits raises. Otherwise the command carries the digits' value and the rest of the line, and `$` admits one trailing newline. |
| Multiplexing.ParseDigits | UnityRLEnvironment/Assets/Scripts/Common/Communication/MultiplexerParser.cs:45 | `int.Parse` of a digit string succeeds iff its value fits in 32 bits, and then yields that value. |
| Multiplexing.MultiplexRoundTrip | UnityRLEnvironment/Assets/Scripts/Common/Communication/MultiplexerParser.cs:31-47 | Formatting an int32 index and a newline-free line as `<index> <line>` parses back to exactly that pair. |
| Multiplexing.MultiplexedParserToSubParsers.constructor | UnityRLEnvironment/Assets/Scripts/Common/Communication/MultiplexerParser.cs:50-57 | Starts with an empty multiplexer queue and no sub-parsers. |
| Multiplexing.MultiplexedParserToSubParsers.GetParserFromIndex | UnityRLEnvironment/Assets/Scripts/Common/Communication/MultiplexerParser.cs:80-94 | Returns the sub-parser mapped to the index, creating and mapping a fresh one only when none exists. |
| Multiplexing.MultiplexedParserToSubParsers.RemoveParser | UnityRLEnvironment/Assets/Scripts/Common/Communication/MultiplexerParser.cs:70-78 | Removes the index's mapping and nothing else. |
| Multiplexing.MultiplexedParserToSubParsers.OnCommandParsed | UnityRLEnvironment/Assets/Scripts/Common/Communication/MultiplexerParser.cs:59-68 | The payload goes to the index's sub-parser, which is created if absent. A declined line is logged with the sub-parser's error, and an exception propagates. |
| Multiplexing.MultiplexedParserToSubParsers.TryParse | UnityRLEnvironment/Assets/Scripts/Common/Communication/MultiplexerParser.cs:31-68 | A parsed line is queued and delivered to its index's sub-parser. That sub-parser is the mapped one, or a fresh one that is now mapped; no other mapping changes. A declined payload is only logged, and a sub-parser's exception escapes. Anything else changes no queue, mapping or delivery and logs or throws nothing. |
| ErrorWarnings.ErrorWarningParseIff | UnityRLEnvironment/Assets/Scripts/Common/Communication/ErrorWarningParser.cs:48-64 | A line parses iff it starts with `Error:` or `Warning:`, ignoring case, and its message has no newline. It never raises. The message is the rest of the line, and `isError` holds exactly for the keyword spelt `Error`. |
| ErrorWarnings.ErrorWarningRoundTrip | UnityRLEnvironment/Assets/Scripts/Common/Communication/ErrorWarningParser.cs:48-64 | `Error:`/`Warning:` followed by a newline-free message parses back to that message and kind. |
| ErrorWarnings.LowerCaseErrorIsWarning | UnityRLEnvironment/Assets/Scripts/Common/Communication/ErrorWarningParser.cs:48-64 | `error: x` is accepted but reported as a warning, because the kind test is case-sensitive while the match is not. |
| ErrorWarnings.DescribeInjective | UnityRLEnvironment/Assets/Scripts/Common/Communication/ErrorWarningParser.cs:25-28 | Two parsed lines with the same description are equal. |
| Dispatching.VersionsAgree | CreatureSimulation/Assets/Scripts/Common/Communication/DispatchParser.cs:41-82 | The CreatureSimulation grammar and the UnityRLEnvironment grammar give the same result on every line. |
| Dispatching.DispatchRoundTrip | UnityRLEnvironment/Assets/Scripts/Common/Communication/DispatchParser.cs:20-56 | Every command formatted as its words parses back to itself, with or without further words after it. |
| Dispatching.RunRoundTrip | UnityRLEnvironment/Assets/Scripts/Common/Communication/DispatchParser.cs:30-40 | `run <name>` parses to that run command, and extra words are ignored. |
| Dispatching.SetRoundTrip | UnityRLEnvironment/Assets/Scripts/Common/Communication/DispatchParser.cs:43-45 | `set <name> <value>` parses to that setting, and extra words are ignored. |
| Dispatching.QuitRoundTrip | UnityRLEnvironment/Assets/Scripts/Common/Communication/DispatchParser.cs:48-50 | `quit`, alone or followed by words, parses to quit. |
| Dispatching.DispatchFailures | UnityRLEnvironment/Assets/Scripts/Common/Communication/DispatchParser.cs:20-56 | `run` alone is rejected. `set` with fewer than two arguments raises an index error. A line is rejected as unrecognized iff its first word is none of the three keywords, and the empty line is one such line. |
| Dispatching.PullOutcomes | CreatureSimulation/Assets/Scripts/Common/Communication/DispatchParser.cs:20-39 | Pulling lines ends in exhaustion iff every line passes over. It ends with a command or an exception only at a line that produced it. |
| Dispatching.NextStopsAtFirstCommand | CreatureSimulation/Assets/Scripts/Common/Communication/DispatchParser.cs:20-39 | After lines that are only refused, the first line that yields a command stops the pull. The refusals' errors are written in order and later lines stay unread. |
| Dispatching.NextExhausts | CreatureSimulation/Assets/Scripts/Common/Communication/DispatchParser.cs:20-39 | Lines that are only refused are all consumed, with all their errors written. |
| Dispatching.PullLines | CreatureSimulation/Assets/Scripts/Common/Communication/DispatchParser.cs:20-39 | The loop's outcome, count of lines consumed and errors written equal the pull specification. |
| Dispatching.DispatchReader.constructor | CreatureSimulation/Assets/Scripts/Common/Communication/DispatchParser.cs:15-18 | Keeps the communicator it is given. |
| Dispatching.DispatchReader.Next | CreatureSimulation/Assets/Scripts/Common/Communication/DispatchParser.cs:20-39 | Consumes exactly the lines the specification consumes, appends its errors to the communicator's output as `Error: <message>` lines, and returns its outcome. |
| DispatcherArgs.FirstIndex | CreatureSimulation/Assets/Scripts/Common/Dispatcher.cs:160 | `Array.IndexOf`: -1 iff absent, otherwise the first position of the value. |
| DispatcherArgs.ArgumentLookup | CreatureSimulation/Assets/Scripts/Common/Dispatcher.cs:158-175 | Gives no value for an absent flag. A flag that is last, or followed by another flag, is an error. Otherwise the value is the word after the flag's first occurrence. |
| DispatcherArgs.DispatcherSettings.constructor | CreatureSimulation/Assets/Scripts/Common/Dispatcher.cs:30 | `flushEveryCreature` starts false. |
| DispatcherArgs.DispatcherSettings.SetSetting | CreatureSimulation/Assets/Scripts/Common/Dispatcher.cs:32-46 | Finds a field name exactly for `flush_every_creature` and assigns nothing. |
| CommunicatorBuffer.OnReadLine | UnityRLEnvironment/Assets/Scripts/Common/Communication/PipeCommunicatorBuffer.cs:75-82 | A read line joins the end of the buffer and raises the has-item flag. Nothing else changes. |
| CommunicatorBuffer.InitialInv | UnityRLEnvironment/Assets/Scripts/Common/Communication/PipeCommunicatorBuffer.cs:40-56 | The initial state, with the permit set and nothing buffered, satisfies the buffer's invariant. |
| CommunicatorBuffer.ApplyKeepsInv | UnityRLEnvironment/Assets/Scripts/Common/Communication/PipeCommunicatorBuffer.cs:75-156 | Every event (line read, wake-up, accept, close) preserves the invariant. In particular, nothing that was read is lost or reordered. |
| CommunicatorBuffer.RunKeepsInv | UnityRLEnvironment/Assets/Scripts/Common/Communication/PipeCommunicatorBuffer.cs:75-156 | Any sequence of events preserves the invariant and only extends the delivered lines. |
| CommunicatorBuffer.ApplyPassesOnInOrder | UnityRLEnvironment/Assets/Scripts/Common/Communication/PipeCommunicatorBuffer.cs:88-134 | One event delivers at most one line. It is always the held line, and only on a wake-up that consumes the permit. |
| CommunicatorBuffer.RunFromStart | UnityRLEnvironment/Assets/Scripts/Common/Communication/PipeCommunicatorBuffer.cs:88-145 | From a fresh buffer, the lines delivered are a prefix of those read, and they number at most one more than the accepts. |
| CommunicatorBuffer.FirstLineNeedsNoAccept | UnityRLEnvironment/Assets/Scripts/Common/Communication/PipeCommunicatorBuffer.cs:40 | The first line is delivered without any accept. The second waits for one. |
| CommunicatorBuffer.HasItemClearedOnlyWhenEmpty | UnityRLEnvironment/Assets/Scripts/Common/Communication/PipeCommunicatorBuffer.cs:101-107 | The has-item flag is cleared only by a wake-up that finds the buffer empty. |
| CommunicatorBuffer.CloseEndsDelivery | UnityRLEnvironment/Assets/Scripts/Common/Communication/PipeCommunicatorBuffer.cs:88-134 | A finished loop delivers nothing more. A close that wins a race ends the loop and drops the held line. |
| CommunicatorBuffer.ClosedLoopEnds | UnityRLEnvironment/Assets/Scripts/Common/Communication/PipeCommunicatorBuffer.cs:93-100 | Once closed, wake-ups that see the close end the loop and deliver nothing. |
| CommunicatorBuffer.PipeCommunicatorBuffer.constructor | UnityRLEnvironment/Assets/Scripts/Common/Communication/PipeCommunicatorBuffer.cs:58-68 | A new buffer is in the initial state. |
| CommunicatorBuffer.PipeCommunicatorBuffer.OnReadLine | UnityRLEnvironment/Assets/Scripts/Common/Communication/PipeCommunicatorBuffer.cs:75-82 | The new state is the line-read step, and the invariant holds. |
| CommunicatorBuffer.PipeCommunicatorBuffer.AcceptNext | UnityRLEnvironment/Assets/Scripts/Common/Communication/PipeCommunicatorBuffer.cs:142-145 | The new state is the accept step (the permit is set), and the invariant holds. |
| CommunicatorBuffer.PipeCommunicatorBuffer.Close | UnityRLEnvironment/Assets/Scripts/Common/Communication/PipeCommunicatorBuffer.cs:151-156 | The new state is the close step, and the invariant holds. |
| CommunicatorBuffer.PipeCommunicatorBuffer.BufferLoopStep | UnityRLEnvironment/Assets/Scripts/Common/Communication/PipeCommunicatorBuffer.cs:88-134 | One loop wake-up. It returns a line exactly when that line is appended to the delivered lines. |
| PipeMultiplexing.IndexOf | CreatureSimulation/Assets/Scripts/Common/Communication/PipeMultiplexer.cs:167 | `IndexOf(char)`: -1 iff absent, otherwise the first position of the character. |
| PipeMultiplexing.ClassifyAll | CreatureSimulation/Assets/Scripts/Common/Communication/PipeMultiplexer.cs:158-170 | Classifies every incoming line, position by position. |
| PipeMultiplexing.IdLineRoundTrip | CreatureSimulation/Assets/Scripts/Common/Communication/PipeMultiplexer.cs:104-107 | A line written for an int32 id is read back as that id and the original payload. |
| PipeMultiplexing.RouteAll | CreatureSimulation/Assets/Scripts/Common/Communication/PipeMultiplexer.cs:149-172 | Routing stops at `QUIT`/end of stream or at the first malformed line. A stop reports the line that caused it. |
| PipeMultiplexing.RoutedBeforeEnd | CreatureSimulation/Assets/Scripts/Common/Communication/PipeMultiplexer.cs:149-172 | Every line before the stop was a payload, and each one was signalled. |
| PipeMultiplexing.RoutedInOrder | CreatureSimulation/Assets/Scripts/Common/Communication/PipeMultiplexer.cs:149-183 | For well-formed input, each id's queue gains exactly its payloads in arrival order, and the ids are signalled in order. |
| PipeMultiplexing.QuitStopsRouting | CreatureSimulation/Assets/Scripts/Common/Communication/PipeMultiplexer.cs:158-164 | `QUIT` ends routing. Nothing after it reaches any queue. |
| PipeMultiplexing.RouteLines | CreatureSimulation/Assets/Scripts/Common/Communication/PipeMultiplexer.cs:149-172 | The loop's routing equals the routing specification. |
| PipeMultiplexing.PipeMultiplexer.constructor | CreatureSimulation/Assets/Scripts/Common/Communication/PipeMultiplexer.cs:48-53 | Starts with no queues, nothing written and nothing signalled. |
| PipeMultiplexing.PipeMultiplexer.WriteLine | CreatureSimulation/Assets/Scripts/Common/Communication/PipeMultiplexer.cs:114-122 | Writes the line iff the pipe is connected. Queues are untouched. |
| PipeMultiplexing.PipeMultiplexer.WriteIdLine | CreatureSimulation/Assets/Scripts/Common/Communication/PipeMultiplexer.cs:104-107 | Writes `<id> <line>` iff connected. |
| PipeMultiplexing.PipeMultiplexer.GetBufferForID | CreatureSimulation/Assets/Scripts/Common/Communication/PipeMultiplexer.cs:140-147 | Returns the id's queue, creating an empty one if needed. |
| PipeMultiplexing.PipeMultiplexer.ReadLine | CreatureSimulation/Assets/Scripts/Common/Communication/PipeMultiplexer.cs:129-138 | Takes the head of the id's queue. An empty queue throws `InvalidOperationException`. |
| PipeMultiplexing.PipeMultiplexer.MultiplexLine | CreatureSimulation/Assets/Scripts/Common/Communication/PipeMultiplexer.cs:175-183 | Appends the line to the id's queue and signals the id. |
| PipeMultiplexing.PipeMultiplexer.CloseID | CreatureSimulation/Assets/Scripts/Common/Communication/PipeMultiplexer.cs:185-195 | Drops that id's queue and nothing else. |
| PipeMultiplexing.PipeMultiplexer.CloseAllIDs | CreatureSimulation/Assets/Scripts/Common/Communication/PipeMultiplexer.cs:197-207 | Drops every queue. |
| PipeMultiplexing.PipeMultiplexer.ReadLoop | CreatureSimulation/Assets/Scripts/Common/Communication/PipeMultiplexer.cs:149-172 | Queues, signals, stop reason and lines consumed equal the routing specification. The pipe is closed once, unless the loop died on a malformed line. Without a pipe the first read faults on the null reader and nothing changes. |
| JsonFraming.NetAppend | CreatureSimulation/Assets/Scripts/Common/Communication/JsonParser.cs:100-114 | The bracket balance of a concatenation is the sum of the parts' balances. |
| JsonFraming.IndexOfBracket | CreatureSimulation/Assets/Scripts/Common/Communication/JsonParser.cs:100 | `IndexOfAny({'{','}'}, from)`: the first brace at or after `from`, or -1 when there is none. |
| JsonFraming.FrameAtIsFrame | CreatureSimulation/Assets/Scripts/Common/Communication/JsonParser.cs:96-114 | The index-jumping scan over the line equals the character-by-character framing. |
| JsonFraming.FrameCount | CreatureSimulation/Assets/Scripts/Common/Communication/JsonParser.cs:100-114 | A scan that ends open has moved the count by the line's bracket balance. |
| JsonFraming.FrameUnderflowIff | CreatureSimulation/Assets/Scripts/Common/Communication/JsonParser.cs:108-112 | The scan underflows iff some `}` takes the running count below zero. |
| JsonFraming.UnderflowAtMinusOne | CreatureSimulation/Assets/Scripts/Common/Communication/JsonParser.cs:108-112 | From a non-negative count, an underflow leaves the count at exactly -1. |
| JsonFraming.FrameConserves | CreatureSimulation/Assets/Scripts/Common/Communication/JsonParser.cs:114-150 | No text is lost or invented. The completed object texts followed by the carried rest are the carried text plus the line. |
| JsonFraming.FrameNoClose | CreatureSimulation/Assets/Scripts/Common/Communication/JsonParser.cs:100-114 | A prefix that never brings the count to zero is carried into the object being built. |
| JsonFraming.Decoded | CreatureSimulation/Assets/Scripts/Common/Communication/JsonParser.cs:116-141 | Decoding stops at the first failure. Without a failure, every text yields one value. |
| JsonFraming.DecodedStops | CreatureSimulation/Assets/Scripts/Common/Communication/JsonParser.cs:116-141 | Texts after a failed decode are never decoded. |
| JsonFraming.DecodedAppend | CreatureSimulation/Assets/Scripts/Common/Communication/JsonParser.cs:116-141 | Decoding without failure distributes over concatenation. |
| JsonFraming.DecodeNext | CreatureSimulation/Assets/Scripts/Common/Communication/JsonParser.cs:116-141 | One more text either appends its value or stops with its error. |
| JsonParsing.ScanLine | CreatureSimulation/Assets/Scripts/Common/Communication/JsonParser.cs:73-156 | The bracket loop computes the parser's specified result, count and carried text. |
| JsonParsing.JsonParser.constructor | CreatureSimulation/Assets/Scripts/Common/Communication/JsonParser.cs:47-58 | Starts with count 0, nothing carried and an empty command queue. |
| JsonParsing.JsonParser.ParseLine | CreatureSimulation/Assets/Scripts/Common/Communication/JsonParser.cs:73-156 | The result and new state are the specified step from the old state. |
| JsonParsing.JsonParser.TryParse | CreatureSimulation/Assets/Scripts/Common/Communication/Parser.cs:85-99 | Queues the command iff the step produced one, and updates count and carried text. |
| JsonParsing.EndLeavesStateAlone | CreatureSimulation/Assets/Scripts/Common/Communication/JsonParser.cs:80-84 | `END` yields the end command and leaves count and carried text unchanged. |
| JsonParsing.NothingClosedAccumulates | CreatureSimulation/Assets/Scripts/Common/Communication/JsonParser.cs:147-149 | A line that closes no object queues nothing and is carried whole, with the count moved by its balance. |
| JsonParsing.ParsedLineConserves | CreatureSimulation/Assets/Scripts/Common/Communication/JsonParser.cs:100-149 | On success the count moves by the line's balance. Completed texts plus the new carried text are the old carried text plus the line. |
| JsonParsing.CommandIffObjectCompleted | CreatureSimulation/Assets/Scripts/Common/Communication/JsonParser.cs:153-156 | A command is produced iff at least one object completed, and it holds their decoded values in order. |
| JsonParsing.UnderflowThrows | CreatureSimulation/Assets/Scripts/Common/Communication/JsonParser.cs:108-112 | A `}` below zero is exactly what makes the line raise (unless a decode failure returned first). It leaves the count at -1. |
| JsonParsing.DecodeFailureResets | CreatureSimulation/Assets/Scripts/Common/Communication/JsonParser.cs:116-141 | A failed decode rejects the line with the decoder's error and resets count and carried text. |
| JsonParsing.ClosingLineCompletes | CreatureSimulation/Assets/Scripts/Common/Communication/JsonParser.cs:96-149 | An object split over two lines is completed whole by the second line. |
| JsonParsing.SplitObjectEmittedOnce | CreatureSimulation/Assets/Scripts/Common/Communication/JsonParser.cs:73-156 | An object split over two lines queues nothing on the first and exactly that object on the second. A decode failure there rejects and resets. |
| CreatureReading.ReadClosedJSONObjects | CreatureSimulation/Assets/Scripts/Expirements/Simple/FallingRectangularPrism/FallingRectangularPrismInitializationData.cs:101-144 | The tuples produced and the exception thrown are those of the brace scan. |
| CreatureReading.Numbered | CreatureSimulation/Assets/Scripts/Expirements/Simple/FallingRectangularPrism/FallingRectangularPrismInitializationData.cs:72-91 | The creatures get consecutive indexes in order. |
| CreatureReading.ReadLines | CreatureSimulation/Assets/Scripts/Expirements/Simple/FallingRectangularPrism/FallingRectangularPrismInitializationData.cs:63-91 | The loop's creatures and outcome equal the reading specification. |
| CreatureReading.FRPCreatureReader.constructor | CreatureSimulation/Assets/Scripts/Expirements/Simple/FallingRectangularPrism/FallingRectangularPrismInitializationData.cs:54-56 | Starts with no creatures counted and reading not done. |
| CreatureReading.FRPCreatureReader.ReadCreatures | CreatureSimulation/Assets/Scripts/Expirements/Simple/FallingRectangularPrism/FallingRectangularPrismInitializationData.cs:63-91 | Yields the specified creatures, advances the creature count by their number, and signals done exactly when `END` was read. |
| CreatureReading.ChunksCoverLine | CreatureSimulation/Assets/Scripts/Expirements/Simple/FallingRectangularPrism/FallingRectangularPrismInitializationData.cs:101-144 | Without an exception, the tuples cover the carried text plus the line. Every tuple but the last is a complete object with count 0, and the last is the open remainder. |
| CreatureReading.ReadNumbersInOrder | CreatureSimulation/Assets/Scripts/Expirements/Simple/FallingRectangularPrism/FallingRectangularPrismInitializationData.cs:63-91 | The k-th creature read has index `next + k`. |
| CreatureReading.ReadStopsAtEnd | CreatureSimulation/Assets/Scripts/Expirements/Simple/FallingRectangularPrism/FallingRectangularPrismInitializationData.cs:63-91 | Lines after `END` are never read. |
| Sessions.FreeLayerExists | CreatureSimulation/Assets/Scripts/Common/PopulationController.cs:170-183 | When fewer sessions run than there are layers, an unused layer exists. |
| Sessions.ScheduledWithinCapacity | UnityRLEnvironment/Assets/Scripts/Common/PopulationController.cs:189-192 | Never more sessions run than there are layers. |
| Sessions.StartKeepsScheduled | UnityRLEnvironment/Assets/Scripts/Common/PopulationController.cs:161-172 | Starting a session on a free layer keeps ids fresh and layers distinct. |
| Sessions.StartKeepsStartedData | UnityRLEnvironment/Assets/Scripts/Common/PopulationController.cs:161-172 | Starting a session for some data, with the next id, keeps every running session holding the data it was started with. |
| Sessions.StartedFromQueue | UnityRLEnvironment/Assets/Scripts/Common/PopulationController.cs:192-210 | A session that runs now but did not before holds an item taken from the head of the old queue: id `n0 + j` holds the `j`-th item dequeued. |
| PopulationRL.PopulationController.constructor | UnityRLEnvironment/Assets/Scripts/Common/PopulationController.cs:32-41 | Starts with no queued data, no sessions and no events. |
| PopulationRL.PopulationController.EnqueueCreature | UnityRLEnvironment/Assets/Scripts/Common/PopulationController.cs:76-82 | Appends to the queue only. No session starts. |
| PopulationRL.PopulationController.CreateSimulationSessionInstance | UnityRLEnvironment/Assets/Scripts/Common/PopulationController.cs:161-172 | Starts one session with a fresh id on the given free layer and reports it started. |
| PopulationRL.PopulationController.PopulationStep | UnityRLEnvironment/Assets/Scripts/Common/PopulationController.cs:179-211 | Starts sessions in queue order until the layers are full or the queue is empty. Each new session holds the item dequeued for it, since the invariant ties every running session to its start. On an empty queue it fires out-of-data iff no session runs. Running sessions are kept. |
| PopulationRL.PopulationController.StartHead | UnityRLEnvironment/Assets/Scripts/Common/PopulationController.cs:192-210 | One round of the loop: the queue's head starts, holding that item, on a layer no session occupies. |
| PopulationRL.PopulationController.StartSimulations | UnityRLEnvironment/Assets/Scripts/Common/PopulationController.cs:89-92 | One population step: queued data starts in order until the layers are full or the queue is empty, so the running count is the smaller of the layer count and running plus queued. On an empty queue it fires out-of-data iff no session runs. Every session started holds the item dequeued for it (`Sessions.StartedFromQueue`). |
| PopulationRL.PopulationController.FinishSessions | UnityRLEnvironment/Assets/Scripts/Common/PopulationController.cs:97-158 | Reports each finished session's data and score in order and removes them. The queue refills the layers in order: the running count becomes the smaller of the layer count and the sessions left plus the queue. Out-of-data fires once iff the queue was empty and every running session finished. With no finished session, only the reports change. Every session started holds the item dequeued for it (`Sessions.StartedFromQueue`). |
| PopulationRL.PopulationController.ReportFinished | UnityRLEnvironment/Assets/Scripts/Common/PopulationController.cs:136-146 | Appends each finished session's report in order and changes nothing else. |
| PopulationRL.PopulationController.RemoveFinished | UnityRLEnvironment/Assets/Scripts/Common/PopulationController.cs:149-158 | The finished sessions are gone and the others kept. Starts come from the queue in order, and the running count becomes the smaller of the layer count and the sessions left plus the queue. Out-of-data fires once iff the queue was empty and every running session finished. With nothing to remove, nothing changes. Every session started holds the item dequeued for it (`Sessions.StartedFromQueue`). |
| PopulationRL.PopulationController.RemoveOne | UnityRLEnvironment/Assets/Scripts/Common/PopulationController.cs:151-157 | One session leaves, then one population step: sessions plus queue shrink by one, and afterwards the queue is empty or every layer is in use. Every session started holds the item dequeued for it (`Sessions.StartedFromQueue`). |
| PopulationRL.PopulationController.IsOutOfSimulationSessionInitData | UnityRLEnvironment/Assets/Scripts/Common/PopulationController.cs:217-220 | True iff nothing is queued and nothing runs. |
| PopulationSim.PopulationController.constructor | CreatureSimulation/Assets/Scripts/Common/PopulationController.cs:22-31 | Starts with no queued creatures, no sessions and no events. |
| PopulationSim.PopulationController.PopulationStep | CreatureSimulation/Assets/Scripts/Common/PopulationController.cs:162-194 | Starts at most one session, with the queue's head, and only below capacity. On an empty queue it fires out-of-creatures iff no session runs. |
| PopulationSim.PopulationController.CreateSimulationSessionInstance | CreatureSimulation/Assets/Scripts/Common/PopulationController.cs:143-155 | Starts one session with a fresh id on the given free layer. |
| PopulationSim.PopulationController.EnqueueCreature | CreatureSimulation/Assets/Scripts/Common/PopulationController.cs:69-76 | Queues the creature, then one population step. Below capacity, the head of the extended queue starts on a free layer, so the creature itself starts at once only when the queue was empty. At capacity, nothing starts. Running sessions are kept. |
| PopulationSim.PopulationController.FinishSessions | CreatureSimulation/Assets/Scripts/Common/PopulationController.cs:115-141 | Reports each finished session in order and removes them. Each removal lets the queue's head start, so as many sessions start as the smaller of the finished count and the queue length. Out-of-creatures fires once iff the queue was empty and every running session finished. With no finished session, only the reports change. Every session started holds the item dequeued for it (`Sessions.StartedFromQueue`). |
| PopulationSim.PopulationController.ReportFinished | CreatureSimulation/Assets/Scripts/Common/PopulationController.cs:120-129 | Appends each finished session's report in order and changes nothing else. |
| PopulationSim.PopulationController.RemoveFinished | CreatureSimulation/Assets/Scripts/Common/PopulationController.cs:131-140 | The finished sessions are gone and the others kept. Refills come in queue order, and as many start as the smaller of the finished count and the queue length. Out-of-creatures fires once iff the queue was empty and every running session finished. With nothing to remove, nothing changes. Every session started holds the item dequeued for it (`Sessions.StartedFromQueue`). |
| PopulationSim.PopulationController.RemoveOne | CreatureSimulation/Assets/Scripts/Common/PopulationController.cs:133-139 | One session leaves, then one population step: the queue's head takes its place if there is one. Otherwise one session fewer runs, and out-of-creatures fires iff none is left. Every session started holds the item dequeued for it (`Sessions.StartedFromQueue`). |
| PopulationSim.PopulationController.IsOutOfCreatures | CreatureSimulation/Assets/Scripts/Common/PopulationController.cs:200-203 | True iff nothing is queued and nothing runs. |
| ClientReading.SplitCrlf | src/unity_instance.py:108 | `split("\r\n")`: at least one piece, and no piece contains `\r\n`. |
| ClientReading.JoinSplitCrlf | src/unity_instance.py:108 | Joining the pieces with `\r\n` gives back the chunk. |
| ClientReading.SplitCrlfSingle | src/unity_instance.py:108 | A chunk without `\r\n` splits into itself. |
| ClientReading.Tabbed | src/unity_instance.py:72 | `replace('\n', '\n\t')` never shortens the message. |
| ClientReading.ClassifyCases | src/unity_instance.py:62-79 | A line is dropped iff it is a warning. It raises iff it is an error, with the tabbed message. It finishes the current task iff it is the current task's end line, which never happens for the idle task. Otherwise it is kept. |
| ClientReading.TerminatedBody | src/unity_instance.py:81-85 | A line plus `\r\n` is finished, and its body is the line. |
| ClientReading.AddPartialValid | src/unity_instance.py:131-143 | Adding a fragment keeps the buffer well formed: every line but the last is terminated and no body contains `\r\n`. |
| ClientReading.AddPartialAgrees | src/unity_instance.py:131-143 | The as-written and the corrected fragment step agree whenever the buffer's last line is unfinished. |
| ClientReading.DoubleTermination | src/unity_instance.py:131-143 | As written, a fragment arriving after a finished line terminates that line a second time. A well-formed buffer becomes ill-formed, and `read_line` then returns the line with `\r\n` inside. |
| ClientReading.AddAllValid | src/unity_instance.py:121-124 | Corrected: with the corrected fragment step, adding any sequence of fragments keeps the buffer well formed. |
| ClientReading.ReceiveChunkValid | src/unity_instance.py:87-129 | Corrected: with the corrected fragment step, receiving any chunk keeps the buffer well formed. |
| ClientReading.WholeLineArrives | src/unity_instance.py:87-129 | A kept line sent in one chunk with `\r\n` lands in the buffer as one finished line. |
| ClientReading.SplitLineArrives | src/unity_instance.py:87-129 | A kept line split over two chunks is joined into one finished line. |
| ClientReading.ReadLineValid | src/unity_instance.py:150-191 | `read_line` keeps the buffer well formed. It returns the oldest line without its `\r\n`, waits only while the current task is unfinished, and reports no more lines iff the buffer is empty and the current task finished. |
| ClientReading.ReadTask.constructor | src/unity_instance.py:33-48 | A new task has an empty buffer and has received and sent nothing. |
| ClientReading.ReadTask.OnHasSentEnd | src/unity_instance.py:234-235 | Marks END as sent and changes nothing else. |
| ClientReading.ReadTask.OnReadLineFromPipe | src/unity_instance.py:62-79 | Returns the line's classification and records the current task finished iff the line is its end line. |
| ClientReading.ReadTask.AddPartialLineToBuffer | src/unity_instance.py:131-143 | The new buffer and the exception equal the corrected fragment step. |
| ClientReading.ReadTask.JoinLastLine | src/unity_instance.py:110-118 | The new buffer and the exception equal the specified joining of an unfinished last line with the chunk's first piece. |
| ClientReading.ReadTask.AddLines | src/unity_instance.py:121-124 | Corrected: the new buffer and the exception equal adding the pieces one by one with the corrected fragment step, stopping at an exception. |
| ClientReading.ReadTask.ReadContent | src/unity_instance.py:87-129 | Corrected: the new buffer and the exception equal the specified reception of one chunk, built on the corrected fragment step. |
| ClientReading.ReadTask.ReadLine | src/unity_instance.py:150-191 | The outcome and new buffer equal the `read_line` specification. |
| ClientInstances.Lines | src/unity_instance.py:393-394 | Every item is written followed by a newline. |
| ClientInstances.SendGuard | src/unity_instance.py:346-362 | Sending is allowed iff an experiment task runs and END has not been sent. |
| ClientInstances.UnityInstance.constructor | src/unity_instance.py:295-326 | Starts with an idle task and nothing written. |
| ClientInstances.UnityInstance.SetProperty | src/unity_instance.py:328-332 | Succeeds iff the current task is idle. |
| ClientInstances.UnityInstance.RunExperiment | src/unity_instance.py:334-344 | Iff idle, writes `run <name>` and starts a fresh experiment task. Otherwise it fails naming the running task and changes nothing. |
| ClientInstances.UnityInstance.SendSessionInitializationData | src/unity_instance.py:346-362 | Writes each item as a line iff the guard passes. Otherwise it fails with the guard's message and writes nothing. |
| ClientInstances.UnityInstance.EndSendSessionInitializationData | src/unity_instance.py:364-376 | Writes END once and marks it sent. A second END, or one without an experiment, fails. |
| ClientInstances.UnityInstance.Quit | src/unity_instance.py:378-391 | Iff idle, writes `quit` and drops the current task. Otherwise it fails and changes nothing. |
| ClientInstances.UnityInstance.ReadLine | src/unity_instance.py:399-405 | Delegates to the current task's `read_line`. When an experiment reports no more lines, a fresh idle task replaces it, and without a task the call fails. |
| ClientInstances.SimulationInstance.constructor | src/simulation_instance.py:254-275 | Starts with an idle task and nothing written. |
| ClientInstances.SimulationInstance.SetProperty | src/simulation_instance.py:277-281 | Succeeds iff the current task is idle. |
| ClientInstances.SimulationInstance.RunExperiment | src/simulation_instance.py:283-290 | Iff idle, writes `run <name>` and starts a fresh experiment task. Otherwise it fails and changes nothing. |
| ClientInstances.SimulationInstance.SendCreatures | src/simulation_instance.py:292-305 | Writes each creature as a line iff the guard passes. |
| ClientInstances.SimulationInstance.EndSendCreaturesAsWritten | src/simulation_instance.py:307-315 | As written: writes END whenever an experiment runs, without recording it. |
| ClientInstances.SimulationInstance.EndSendCreatures | src/simulation_instance.py:307-315 | Corrected: writes END once and records it, so a second END fails. |
| ClientInstances.SimulationInstance.Quit | src/simulation_instance.py:317-327 | Iff idle, writes `quit` and drops the current task. |
| ClientInstances.SimulationInstance.ReadLine | src/simulation_instance.py:335-341 | Delegates to the current task's `read_line` and returns to an idle task after the experiment's last line. |
| ClientInstances.SecondEndAcceptedAsWritten | src/simulation_instance.py:307-315 | As written, `run x` followed by two ENDs accepts both and writes END twice. |
| ClientInstances.SecondEndRejected | src/simulation_instance.py:307-315 | Corrected, the second END is rejected and written once. |
| Neurons.Signal.constructor | CreatureSimulation/Assets/Scripts/Common/Creature/Complex/Neurons/Signal.cs:23-27 | A new signal has the requested number of zeroed slots and is consumable. |
| Neurons.Signal.SetInput | CreatureSimulation/Assets/Scripts/Common/Creature/Complex/Neurons/Signal.cs:29-35 | Writes exactly the indexed slot when it is in range. A negative index or one past the end fails and leaves the slots unchanged. |
| Neurons.Signal.Cancel | CreatureSimulation/Assets/Scripts/Common/Creature/Complex/Neurons/Signal.cs:37-40 | The signal becomes cancelled. |
| Neurons.Arity | CreatureSimulation/Assets/Scripts/Common/Creature/Complex/Neurons/Neuron.cs:185-220 | Each neuron type with a class takes between one and six inputs. |
| Neurons.OnlyIfDeclines | CreatureSimulation/Assets/Scripts/Common/Creature/Complex/Neurons/Neuron.cs:298-310 | Only an `IfNeuron` with a zero condition declines to send. When it sends, it sends its second input. |
| Neurons.Neuron.constructor | CreatureSimulation/Assets/Scripts/Common/Creature/Complex/Neurons/Neuron.cs:123-127 | A new neuron has a fresh zeroed consumable signal of its arity, no last signal and no connections. |
| Neurons.Neuron.SetOutConnection | CreatureSimulation/Assets/Scripts/Common/Creature/Complex/Neurons/Neuron.cs:129-132 | Appends one connection. |
| Neurons.Neuron.AddOutConnections | CreatureSimulation/Assets/Scripts/Common/Creature/Complex/Neurons/Neuron.cs:134-137 | Appends the connections in order. |
| Neurons.Neuron.Progress | CreatureSimulation/Assets/Scripts/Common/Creature/Complex/Neurons/Neuron.cs:160-164 | The next signal becomes the last one, and a fresh zeroed one of the same size replaces it. |
| Neurons.CancelAll | CreatureSimulation/Assets/Scripts/Common/Creature/Complex/Neurons/Neuron.cs:148-149 | Every receiver's current signal ends up cancelled. |
| Neurons.Broadcast | CreatureSimulation/Assets/Scripts/Common/Creature/Complex/Neurons/Neuron.cs:153-154 | Succeeds iff every connection's slot is in range, and then each connected slot holds the value. On failure there is a first out-of-range connection, and every connection before it already holds the value. No slot other than a connected one changes. |
| Neurons.Neuron.Propagate | CreatureSimulation/Assets/Scripts/Common/Creature/Complex/Neurons/Neuron.cs:146-154 | A declined evaluation cancels every receiver's signal and sets no input. Otherwise every connected slot gets the value, failing on an out-of-range slot, and no other slot changes. |
| Neurons.Neuron.Evaluate | CreatureSimulation/Assets/Scripts/Common/Creature/Complex/Neurons/Neuron.cs:139-156 | No last signal is a null dereference. A cancelled one sends nothing. Too few inputs is an index error. A declining evaluation cancels every receiver's signal. Otherwise the value goes to every connected slot, failing on an out-of-range slot, and no other slot changes. |
| Neurons.Instantiate | CreatureSimulation/Assets/Scripts/Common/Creature/Complex/Neurons/Neuron.cs:562-626 | Succeeds exactly for the types with a class other than debug, giving a neuron of that type and arity. Otherwise it fails with the "could not recognize" message. |
| Limbs.GetInputCount | CreatureSimulation/Assets/Scripts/Common/Creature/Complex/Limb.cs:59-67 | The number of senders in the limb's subtree. |
| Limbs.LookupFlat | CreatureSimulation/Assets/Scripts/Common/Creature/Complex/Limb.cs:79-108 | The corrected recursive lookup returns the index-th node of the flat order, or the remaining index when out of range. |
| Limbs.AsWrittenAgrees | CreatureSimulation/Assets/Scripts/Common/Creature/Complex/Limb.cs:79-108 | The as-written lookup agrees with the corrected one except that it may report "not found" for an index in range. |
| Limbs.GetRecursiveAsWritten | CreatureSimulation/Assets/Scripts/Common/Creature/Complex/Limb.cs:79-108 | As written: the recursive method computes the as-written lookup. |
| Limbs.GetRecursive | CreatureSimulation/Assets/Scripts/Common/Creature/Complex/Limb.cs:79-108 | Corrected: the recursive method computes the flat-order lookup. |
| Limbs.GetAsWrittenCases | CreatureSimulation/Assets/Scripts/Common/Creature/Complex/Limb.cs:69-77 | As written, `GetInput` throws only beyond the count, and whatever it returns is the right node. |
| Limbs.MissedSibling | CreatureSimulation/Assets/Scripts/Common/Creature/Complex/Limb.cs:69-108 | As written, a limb with two one-input children finds nothing at index 1, nor at index 2 == count. |
| Limbs.Get | CreatureSimulation/Assets/Scripts/Common/Creature/Complex/Limb.cs:69-77 | Corrected: succeeds iff the index is below the count, with the index-th node. Otherwise it throws the not-found message. |
| Text.Split | UnityRLEnvironment/Assets/Scripts/Common/Communication/DispatchParser.cs:25 | `Split(' ')`: at least one word and no separator inside a word. |
| Text.JoinSplit | UnityRLEnvironment/Assets/Scripts/Common/Communication/DispatchParser.cs:25 | Joining the words with the separator gives back the line. |
| Text.SplitJoin | UnityRLEnvironment/Assets/Scripts/Common/Communication/DispatchParser.cs:25 | Separator-free words joined and split again are the same words. |
| Text.NatToString | CreatureSimulation/Assets/Scripts/Common/Communication/PipeMultiplexer.cs:106 | A number's decimal text is non-empty and all digits. |
| Text.NatToStringValue | CreatureSimulation/Assets/Scripts/Common/Communication/PipeMultiplexer.cs:106 | The decimal text reads back as the number. |
| Text.ParseInt32 | UnityRLEnvironment/Assets/Scripts/Common/Communication/MultiplexerParser.cs:45 | Whatever parses fits in 32 bits. |
| Text.ParseIntToString | CreatureSimulation/Assets/Scripts/Common/Communication/PipeMultiplexer.cs:169 | Every int32 printed in decimal parses back to itself. |

## Left out

- Pipes, files, threads, locks and `async` waits are left out. Each thread's step is one atomic call, a wait is a `Waiting` result, and a timeout is not modelled.
- The Python client's `wait_run_experiment_response` and `wait_for_quit_response` (src/unity_instance.py:256-257 and :287-288) are left out. These are the waits and the assertions on the answer: `SUCCESS` after `run`, and no further line after `quit`. In the source, a different answer raises `AssertionError`; the model promises nothing about it.
- The `win32file` reads are left out. Each chunk they deliver is a parameter of `ReadContent`.
- The output of `warnings.warn`, `Debug.Log*` and the debug neuron's format message are left out. Only what they are given is kept, such as the logged error of `OnCommandParsed`.
- Single-precision floats and NaN are left out: values are reals. The leaf neuron operations whose value needs floating point (division, trigonometry, logarithm, exponent, sigmoid, interpolations, NaN test) and the stateful ones (integrate, differentiate, smooth, memory, oscillators) enter `Evaluation` as the parameter `other`.
- `Constant` senders and muscles as receivers are left out. Connections are between neurons.
- The `Generate*` methods of `Limb` and `InstantiateRandom` are left out, because they draw random numbers.
- Limbs.Get: takes a `nat` index, so the negative indexes the source would pass on are not modelled.
- Null entries in the source's arrays and lists are left out. Unity's overloaded null test is not modelled.
- The .NET `\d` class, `RegexOptions.IgnoreCase` and `int.Parse` are modelled for ASCII digits and ASCII case folding only, so Unicode digits are not. `int.Parse`'s optional sign and the ASCII white space around the digits are modelled.
- ParserChains.ParserStack.PopParserOf: the runtime type test `is T` is taken as an exact type-name match, so subtypes are not modelled.
- ParserChains.ParserQueue.PopParserOf: the runtime type test `is ParserType` (ParserQueue.cs:88) is taken as an exact type-name match, so subtypes are not modelled.
- The dispatcher's `Start`, `ReadCommand`, `Run`, `WriteWarning`, `WriteError` and `Quit` are left out. They drive the scene and the pipe; the lookup of the pipe name is modelled.
- PipeMultiplexing.PipeMultiplexer.ReadLoop: lines are classified first by `ClassifyAll` and then routed. A line after `QUIT` is therefore classified though never routed, with the same observable result.
- CommunicatorBuffer.PipeCommunicatorBuffer.BufferLoopStep: when a line and the close are both pending, `Task.WhenAny`'s choice is the `closeWins` argument.
- The population controllers assume that `sessionLayers` is configured, with one distinct name per layer. The choice of an unused layer from a `HashSet` is any unused layer.
- `SimulationSession` objects, physics stepping and scores are left out. Which sessions finish in a step, and their scores, are parameters of `FinishSessions`.
- The Python `send_*` methods' wrapping of a single string or non-iterable into a list is left out. The model takes a sequence of lines.
- The `no_timeout` meta argument and the other keyword arguments of the Python instances are left out.
- On Python versions where `bool(NotImplemented)` raises, the idle task's finished test is not modelled. It is taken as true.
- Neurons.Signal.constructor: takes a `nat` count, so the exception for a negative size is not modelled.
- JSON deserialization is a parameter `decode` of the JSON parser and the creature reader.
- A sub-parser's answer to a line is a parameter of the chains and the multiplexer. A parser's callback is an identity number.
- ClientReading.Tabbed: states only that the result is no shorter than the line. The replacement itself is the function's body.
- Text.ParseInt32: states only that a parsed value fits in 32 bits. Exact success on digit strings is `Multiplexing.ParseDigits`, and the round trip is `Text.ParseIntToString`.
- AddAllValid: proved for the corrected fragment step only. As written, the step re-terminates a finished line and the buffer stops being well formed; `ClientReading.DoubleTermination` shows it.
- ReceiveChunkValid: proved for the corrected fragment step only. As written, a chunk read while a finished line waits unread breaks the buffer, as `ClientReading.DoubleTermination` shows for its first fragment.
- AddLines: `ClientReading.ReadTask.AddLines` follows the corrected fragment step, not the as-written one of src/unity_instance.py:131-143.
- ReadContent: `ClientReading.ReadTask.ReadContent` follows the corrected fragment step, not the as-written one of src/unity_instance.py:131-143.
- Neurons.Arity: states the bound. The exact arity of each type is what `Instantiate` and the neuron constructor promise against it.

## Findings

| source | as written | input that shows it | evidently intended | confidence | as-written member | corrected member |
|---|---|---|---|---|---|---|
| src/unity_instance.py:131-143 | `_add_partial_line_to_buffer` appends `\r\n` to the last buffered line even when it is already finished (also src/simulation_instance.py:110-122) | buffer `["A\r\n"]`, then a chunk `B` | terminate the last line only when it is unfinished | not executed | ClientReading.DoubleTermination | ClientReading.AddPartialValid |
| src/simulation_instance.py:307-315 | `end_send_creatures` checks whether END was sent but never records it | `run x`, then END twice | record END, as `UnityInstance` does, so the second is refused | not executed | ClientInstances.SecondEndAcceptedAsWritten | ClientInstances.SecondEndRejected |
| CreatureSimulation/Assets/Scripts/Common/Creature/Complex/Limb.cs:69-107 | the recursive lookup treats a residual index of 0 as "found nothing" and stops before the next sibling | a limb with two one-input children, index 1; and index == count | continue into the next sibling and throw for every index not below the count | not executed | Limbs.MissedSibling | Limbs.LookupFlat |
