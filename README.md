# oono-akira, modelled in Dafny

A model of the core of oono-akira, a Slack bot that reads events over a
Socket Mode websocket and dispatches them to pluggable modules. The model covers:

- **Duplicate tracking and dispatch** (`oono_akira/oono.py`):
  - the bounded duplicate tracker (`_track_payload`, 1024 ids, oldest evicted first);
  - the `events_api` branch of the read loop;
  - `_process_event`, which acks or queues the first handler a constructor returns.
- **Modules manager** (`oono_akira/modules/__init__.py`):
  - the `register` decorator's two capability tables;
  - module discovery: sorted listing, skipping names that contain `__`, the file-name pattern, and the duplicate-name error;
  - `iterate_modules`;
  - the per-queue FIFO workers: `queue`, `_ensure_queue`, `_run`, shutdown through `__aexit__`.
- **Slack payloads** (`oono_akira/slack/recv.py`, `oono_akira/slack/send.py`):
  - the dataclass parser, with field defaults, metadata-selected payload classes and recursion into nested dataclasses;
  - the dataclass dumper;
  - the request shaping of `SlackAPI.__call__`.
- **The modules**:
  - the bracket checker (`_02_paren.py`);
  - the idiom-chain game (`_03_idiom.py`): dictionary index, handler gate and turn logic;
  - the strikethrough reactor (`_04_strike.py`);
  - the greeting module (`_01_moyu.py`);
  - the `access` admin command (`admin/_cmd_access.py`).

How each part is written:

- Imperative source becomes Dafny classes and methods with `modifies` clauses, each proved against a pure function:
  - `ModulesManager`, `CapabilityTable`, `OonoAkira`;
  - `IdiomGame`, `ParenContext`;
  - the loops of `_parse`, `dump`, `check_message` and `_run`.
- Expression code becomes functions and lemmas.

Modules and files:

- `wrappers.dfy`: `Option` and `Result`.
- `json.dfy`: the JSON value type and Python truthiness.
- `slack.dfy`: the shared Slack records and the `ApiCall` record of API calls a handler makes.
- One file per source file after that: `tracker.dfy` and `oono.dfy` model `oono.py`, and `registry.dfy`, `discovery.dfy` and `manager.dfy` model `modules/__init__.py`.

External effects become parameters:

| source effect | in the model |
|---|---|
| database workspace lookup | the map `workspaces` |
| handler constructors | the function `apply`, answering a handler, None, or the exception raised |
| directory listing and module imports | the listing `listing` and the table `capabilitiesMapping` the imports register |
| dict key order of a paren text | the sequence `keys` |
| handler success | the predicate `succeeds` |
| `random.choice` | a `pick` index |
| NFKD normalisation | the function `norm` |
| dictionary download | the entry list `raw` |
| `users.info` answer | `displayName` |
| `str(context.data)` | `said` |
| time formatting | `date`, `hour`, `weekday` |
| database answers | `modules` and `rows` |

## Model

| member | source | states |
|---|---|---|
| Json.Truthy | oono_akira/modules/_02_paren.py:18 | Python truthiness of a JSON value: null, false, 0, "", [] and {} are falsy (also used at _03_idiom.py:56 and _04_strike.py:21) |
| Slack.WithThread | oono_akira/modules/_04_strike.py:37-38 | `thread_ts` is added exactly when the event's `thread_ts` is truthy, with that value; every other key is kept |
| Tracker.Track | oono_akira/oono.py:181-195 | `_track_payload` as a function of the deque and dict; its properties are the rows below (TrackKeepsValid, FirstSighting, RepeatSighting, UpdateMarker, EvictsOldest) |
| Tracker.TrackKeepsValid | oono_akira/oono.py:181-195 | one tracking call keeps the queue duplicate-free, the same ids as the mapping's keys, and at most 1024 long |
| Tracker.TrackAllValid | oono_akira/oono.py:190-194 | any sequence of tracking calls keeps the tracker valid and the queue within PAYLOAD_TRACKER_SIZE |
| Tracker.FirstSighting | oono_akira/oono.py:190-195 | a new id answers True, is appended at the back of the queue and mapped to its processor |
| Tracker.RepeatSighting | oono_akira/oono.py:188-189 | a tracked id answers its stored processor and changes nothing |
| Tracker.UpdateMarker | oono_akira/oono.py:182-186 | an update on an unknown id answers False and changes nothing; on a known id it answers True and only rewrites that id's processor |
| Tracker.EvictsOldest | oono_akira/oono.py:192-194 | when the queue is full, a new id evicts exactly the oldest id from the queue and the mapping |
| Tracker.StepKeepsId | oono_akira/oono.py:190-194 | an id in the queue survives any call that does not evict it, and its remaining room before eviction shrinks by one exactly when the call inserts a new id |
| Tracker.StaysTracked | oono_akira/oono.py:190-194 | an id at queue position i stays tracked through any run of calls that inserts at most 1024 - \|queue\| + i new ids |
| Registry.Capabilities | oono_akira/modules/__init__.py:26-33 | `CAPABILITIES` after a sequence of registrations; CapabilitiesInOrder ties it to an independent per-kind filter |
| Registry.CapabilitiesMapping | oono_akira/modules/__init__.py:26-33 | `CAPABILITIES_MAPPING` after a sequence of registrations; MappingIsLast states which constructor each entry holds |
| Registry.RegisteredForSnoc | oono_akira/modules/__init__.py:27-31 | one more registration appends its constructor to its own kind only |
| Registry.CapabilitiesInOrder | oono_akira/modules/__init__.py:25-35 | CAPABILITIES[kind] lists that kind's constructors in registration order, and holds the kind iff some registration has it |
| Registry.MappingIsLast | oono_akira/modules/__init__.py:29-32 | CAPABILITIES_MAPPING[module][kind] exists iff the module registered that kind, and holds the last such constructor |
| Registry.CapabilityTable.constructor | oono_akira/modules/__init__.py:21-22 | both tables start empty |
| Registry.CapabilityTable.Register | oono_akira/modules/__init__.py:26-33 | returns the function unchanged; appends it to its kind's list and overwrites the module's entry for the kind; the tables stay in step with the registrations |
| Discovery.FileMatch | oono_akira/modules/__init__.py:46-50 | the `fullmatch` of the file-name pattern with its two groups; FileMatchSound and FileMatchComplete prove it accepts exactly the pattern's language |
| Discovery.DigitRun | oono_akira/modules/__init__.py:46 | the length of the longest digit prefix |
| Discovery.FileMatchSound | oono_akira/modules/__init__.py:46-50 | an accepted file is `_<digits>_<name>.py` with non-empty digits and a name of `[0-9a-z_]`; group 1 is `_<digits>_<name>` |
| Discovery.FileMatchComplete | oono_akira/modules/__init__.py:46-50 | every file of that shape is accepted, with those groups |
| Discovery.DiscoverFrom | oono_akira/modules/__init__.py:43-53 | the discovery loop over the sorted listing with the duplicate-name error; DiscoverCorrect relates it to the independent filter `Accepted` |
| Discovery.DiscoverCorrect | oono_akira/modules/__init__.py:44-53 | discovery fails iff two accepted files share a module name; otherwise it returns the accepted files' (name, import) pairs in order |
| Discovery.Insert | oono_akira/modules/__init__.py:43 | insertion adds exactly one element |
| Discovery.SortFiles | oono_akira/modules/__init__.py:43 | sorting permutes the listing |
| Discovery.StrLeTotal | oono_akira/modules/__init__.py:43 | the code-point order on file names is total |
| Discovery.StrLeTrans | oono_akira/modules/__init__.py:43 | the order is transitive |
| Discovery.InsertSorted | oono_akira/modules/__init__.py:43 | inserting into a sorted listing keeps it sorted |
| Discovery.SortFilesSorted | oono_akira/modules/__init__.py:43 | the sorted listing is ordered and a permutation of the input |
| Discovery.Discover | oono_akira/modules/__init__.py:37-53 | the loop returns the discovery result over the sorted listing |
| Manager.Drain | oono_akira/modules/__init__.py:94-107 | the `_run` loop over a queue's items; DrainIsFifo, DrainStops, CallbackOnlyAfterSuccess and SentinelDrainsAll state what it runs and leaves |
| Manager.HandledAppend | oono_akira/modules/__init__.py:97-105 | the jobs run over two step logs are those of each, in order |
| Manager.DrainIsFifo | oono_akira/modules/__init__.py:97-105 | a worker runs exactly the jobs before the first sentinel, in queue order |
| Manager.DrainStops | oono_akira/modules/__init__.py:97-100 | a worker stops iff the queue holds a sentinel, and leaves exactly the items after the first one |
| Manager.CallbackOnlyAfterSuccess | oono_akira/modules/__init__.py:102-107 | a callback step follows exactly the runs that succeeded and have a callback; a failure does not stop the worker |
| Manager.SentinelDrainsAll | oono_akira/modules/__init__.py:68-72 | with a sentinel appended to a queue that has none, the worker runs every job and stops with nothing left |
| Manager.JobsBeforeAll | oono_akira/modules/__init__.py:69-70 | before an appended sentinel come all the queued jobs, in order |
| Manager.WorkerLoop | oono_akira/modules/__init__.py:94-107 | the `while True` loop computes the drain of the queue: its steps, the rest, and whether it stopped |
| Manager.IterateModules | oono_akira/modules/__init__.py:74-77 | one (module name, constructor) pair per registered constructor of the capability, in order; none for an unknown capability |
| Manager.IterateInRegistrationOrder | oono_akira/modules/__init__.py:25-35 | iteration yields the capability's constructors in registration order |
| Manager.ImportModules | oono_akira/modules/__init__.py:54-57 | the import loop maps each import path to its short name, or raises KeyError naming the first module with no `CAPABILITIES_MAPPING` entry; it succeeds iff every module has one |
| Manager.Load | oono_akira/modules/__init__.py:37-58 | `ModulesManager()`: the discovery error, else the KeyError of an unregistered module, else a fresh manager mapping exactly the discovered modules |
| Manager.ModulesManager.constructor | oono_akira/modules/__init__.py:60-66 | the import-to-name mapping `Load` built, and no queues or workers yet |
| Manager.ModulesManager.EnsureQueue | oono_akira/modules/__init__.py:89-92 | a queue and worker are created only for a new name; an existing queue is untouched |
| Manager.ModulesManager.Queue | oono_akira/modules/__init__.py:79-87 | the job is appended to that name's queue, created if needed; every other queue is unchanged |
| Manager.ModulesManager.RunWorker | oono_akira/modules/__init__.py:94-107 | the queue becomes the drain's rest, and the log gains its steps |
| Manager.ModulesManager.PutSentinels | oono_akira/modules/__init__.py:69-70 | every queue gains one sentinel at the back |
| Manager.ModulesManager.AwaitWorkers | oono_akira/modules/__init__.py:71-72 | every unfinished queue has been drained; finished ones are untouched |
| Manager.AwaitAll | oono_akira/modules/__init__.py:71-72 | on the queue and log tables: each unfinished worker's queue and log end as `Drain` of its queue says; finished workers keep theirs; all end finished |
| Manager.ModulesManager.Shutdown | oono_akira/modules/__init__.py:68-72 | every unfinished queue is drained through its new sentinel |
| Oono.FirstHandler | oono_akira/oono.py:222-228 | the for/else scan as a function: the first answer that is not a decline; FirstHandlerIsFirst states it |
| Oono.FirstHandlerIsFirst | oono_akira/oono.py:222-228 | the result is `Ok(None)` iff every constructor declines; otherwise it is the answer (handler or exception) of the first constructor that does not decline |
| Oono.FindHandler | oono_akira/oono.py:222-228 | the for/else loop returns that first answer; an exception from a constructor propagates |
| Oono.QueueName | oono_akira/oono.py:232 | `module + "/" + (queue or "__default__")`; DecideOutcomes states it is the chosen handler's queue |
| Oono.Decide | oono_akira/oono.py:197-235 | `_process_event` as a decision over the workspace lookup and the constructors; DecideOutcomes states each outcome |
| Oono.DecideOutcomes | oono_akira/oono.py:197-235 | unknown workspace, own event and unclaimed event each give one ack and no job; a constructor raising before any claims gives its exception; otherwise the first handler's function is queued under `module/queue-or-__default__`, without an ack, and the module is returned |
| Oono.Gate | oono_akira/oono.py:144-157 | the tracking and re-marking around `_process_event`; GateOnce and RedeliveryHeldBack state its once-only behaviour |
| Oono.GateOnce | oono_akira/oono.py:139-157 | a payload gets through iff its id is not tracked; it is then tracked with the handler name, and a redelivery is held back and reports that name |
| Oono.RedeliveryHeldBack | oono_akira/oono.py:139-157 | a redelivered id is held back while at most 1023 other new ids have been tracked since |
| Oono.RaisedHeldBack | oono_akira/oono.py:144-157 | after a dispatch that raised, the id stays tracked with None, so its redelivery is held back reporting no processor |
| Oono.OonoAkira.constructor | oono_akira/oono.py:20-21 | an empty tracker, no acks |
| Oono.OonoAkira.TrackPayload | oono_akira/oono.py:181-195 | the tracker's new state and answer are those of the tracking function |
| Oono.OonoAkira.ProcessEvent | oono_akira/oono.py:197-235 | the returned name, the acks and the queues follow the dispatch decision, and only the chosen queue changes; a raising constructor escapes with nothing acked or queued |
| Oono.OonoAkira.OnEventsApi | oono_akira/oono.py:139-157 | a duplicate id changes nothing; a new id is dispatched, with the acks and queues of the decision and the tracker re-marked with the returned name; a raising dispatch leaves the id tracked with None and nothing acked or queued |
| Recv.FirstCase | oono_akira/slack/recv.py:65-68 | a selected case is one of the metadata cases |
| Recv.Construct | oono_akira/slack/recv.py:77 | a constructed value is an instance of the schema |
| Recv.Parsed | oono_akira/slack/recv.py:58-77 | `_parse` as a recursive function; the Recv lemmas below state its defaults, required fields, case selection and nesting |
| Recv.Parse | oono_akira/slack/recv.py:58-77 | the loop over the fields, with its recursion, computes `_parse` |
| Recv.ParsedFieldsKeys | oono_akira/slack/recv.py:60-62 | only fields present in the input receive keyword arguments |
| Recv.ConstructOk | oono_akira/slack/recv.py:77 | construction succeeds iff every field without a default has a keyword argument |
| Recv.ConstructValues | oono_akira/slack/recv.py:77 | each field holds its keyword argument, else its default |
| Recv.ConstructKeeps | oono_akira/slack/recv.py:77 | a value already placed stays unless a later field of the same name replaces it |
| Recv.AbsentKeepsDefault | oono_akira/slack/recv.py:61-62 | a field missing from the input keeps its default |
| Recv.RequiredAbsentFails | oono_akira/slack/recv.py:61-62 | a required field missing from the input makes parsing fail |
| Recv.ExtraKeysIgnored | oono_akira/slack/recv.py:60-76 | keys that are not fields do not change the field loop's result |
| Recv.ParsedIgnoresExtraKeys | oono_akira/slack/recv.py:58-77 | keys that are not fields do not change the parsed value |
| Recv.FirstCaseIsFirst | oono_akira/slack/recv.py:65-70 | the chosen case is the earliest whose key was parsed with the case's value; with none, the field is skipped |
| Recv.FramePayloadByType | oono_akira/slack/recv.py:37-51 | a frame's payload is parsed as an events_api or slash_commands payload exactly as its `type` says, and is absent for any other type |
| Recv.AfterPayload | oono_akira/slack/recv.py:48-51 | the fields after `payload` never change its keyword argument |
| Recv.NestedEventParsed | oono_akira/slack/recv.py:19-24 | the `event` of an events_api payload is the nested object parsed as an event |
| Send.Dumped | oono_akira/slack/send.py:57-59 | non-dataclass values are returned as they are; dataclasses become dicts |
| Send.Dump | oono_akira/slack/send.py:57-73 | the loops over fields and list items compute the dump |
| Send.DumpedFieldsKeys | oono_akira/slack/send.py:61-72 | the dict's keys are the names of the fields that are not None |
| Send.DumpOmitsNone | oono_akira/slack/send.py:63-64 | exactly the None fields are omitted |
| Send.DumpedFieldsKeeps | oono_akira/slack/send.py:72 | an entry once written is not overwritten by later, differently named fields |
| Send.DumpField | oono_akira/slack/send.py:65-72 | a non-None field is dumped whole, or element by element when it is a list |
| Send.Attr | oono_akira/slack/send.py:26-27 | attribute access appends one path segment and keeps the token |
| Send.AttrsPath | oono_akira/slack/send.py:26-27 | a chain of attribute accesses appends its keys in order |
| Send.JoinSnoc | oono_akira/slack/send.py:34 | joining one more segment appends "." and the segment |
| Send.Payload | oono_akira/slack/send.py:31 | the merge fails iff a key is both in the data and in the keyword arguments; otherwise it is their union |
| Send.Call | oono_akira/slack/send.py:29-48 | the request's method, URL, Content-Type header, `data`/`json`/`params` body key and bearer header follow OPTIONS and the token; a duplicate key fails |
| Send.OptionsTable | oono_akira/slack/send.py:11-14 | oauth.v2.access is a form post, users.info a plain get, everything else a JSON post |
| Send.OAuthPath | oono_akira/slack/send.py:26-35 | `api.oauth.v2.access` names the API "oauth.v2.access" and so sends a form post |
| Paren.ZipShape | oono_akira/modules/_02_paren.py:7-9 | the mapping's keys are openers and its values closers |
| Paren.ZipPairs | oono_akira/modules/_02_paren.py:7-9 | with distinct keys, the i-th key maps to the i-th value |
| Paren.MappingPairs | oono_akira/modules/_02_paren.py:5-9 | `_MAPPING` pairs the i-th opener with the i-th closer |
| Paren.Scan | oono_akira/modules/_02_paren.py:20-25 | the stack a string text leaves; ScanAppend, ScanHoldsClosers and ReplyCloses state its properties |
| Paren.ScanChar | oono_akira/modules/_02_paren.py:22-25 | one character: an opener pushes its closer, the expected closer pops, anything else is ignored; the scan lemmas build on it |
| Paren.ScanAppend | oono_akira/modules/_02_paren.py:21-25 | scanning a concatenation continues from the stack the first part leaves |
| Paren.ScanHoldsClosers | oono_akira/modules/_02_paren.py:22-23 | the stack only ever holds closers |
| Paren.Reverse | oono_akira/modules/_02_paren.py:34 | the reversed stack, read from the top |
| Paren.ClosingEmpties | oono_akira/modules/_02_paren.py:21-25 | reading the reversed stack pops it to empty when no closer is an opener |
| Paren.ReplyCloses | oono_akira/modules/_02_paren.py:21-34 | the text followed by the reply's brackets leaves nothing open |
| Paren.MappingReplyCloses | oono_akira/modules/_02_paren.py:5-34 | the same for `_MAPPING` |
| Paren.ScanChars | oono_akira/modules/_02_paren.py:21-25 | walking a string's one-character strings is the character scan, and never raises |
| Paren.ScanValuesRaises | oono_akira/modules/_02_paren.py:21-22 | the walk raises iff some value is a list or a dict |
| Paren.ScanIterated | oono_akira/modules/_02_paren.py:20-25 | the loop over what iterating the text yields leaves the stack of the scan, or raises at an unhashable value |
| Paren.ParenContext.constructor | oono_akira/modules/_02_paren.py:16-17 | a context with its event and no stack |
| Paren.ScanValue | oono_akira/modules/_02_paren.py:21-25 | one value the loop yields: a list or dict raises, a one-character string is `ScanChar`, anything else changes nothing; ScanValuesRaises and ScanChars state its consequences |
| Paren.Iterated | oono_akira/modules/_02_paren.py:21 | what `for char in text` walks: a string's characters, a list's elements, a dict's keys in the given order; nothing for a number or a bool; CheckMessage is stated on it |
| Paren.CheckMessage | oono_akira/modules/_02_paren.py:16-28 | empty text returns None; a number or `True` raises; a string, list or dict is walked as Python iterates it; `paren_stack` is stored and True returned iff the walk ends non-empty; on a string this is `Scan` |
| Paren.ReplyText | oono_akira/modules/_02_paren.py:34 | the reversed stack followed by " ○(￣^￣○)"; ReplyTextCloses states that its brackets close the text |
| Paren.ReplyBody | oono_akira/modules/_02_paren.py:30-37 | a missing channel raises; `thread_ts` is copied iff the event has it |
| Paren.ReplyTextCloses | oono_akira/modules/_02_paren.py:30-37 | the reply text is the closing brackets followed by " ○(￣^￣○)" |
| Idiom.WordRun | oono_akira/modules/_03_idiom.py:31 | the length of the longest space-free prefix |
| Idiom.Split | oono_akira/modules/_03_idiom.py:31 | `str.split()` on the full `str.isspace()` set gives non-empty, whitespace-free pieces |
| Idiom.SplitJoin | oono_akira/modules/_03_idiom.py:31 | splitting space-joined space-free words gives the words back |
| Idiom.SplitAtSpace | oono_akira/modules/_03_idiom.py:31 | every whitespace character separates: the split of `a + [c] + b` is the split of `a` then the split of `b` |
| Idiom.Normalized | oono_akira/modules/_03_idiom.py:34-41 | every syllable is normalised, in place |
| Idiom.ItemOf | oono_akira/modules/_03_idiom.py:31-42 | an entry is kept iff its pinyin splits into 4 syllables, and it keeps word and explanation |
| Idiom.WithFirstSnoc | oono_akira/modules/_03_idiom.py:45 | one more item extends the begin-bucket of its first syllable only |
| Idiom.WithLastSnoc | oono_akira/modules/_03_idiom.py:46 | one more item extends the end-bucket of its last syllable only |
| Idiom.AddBuckets | oono_akira/modules/_03_idiom.py:43-48 | after one item, every bucket lists the items with that first (last) syllable in list order |
| Idiom.AddIndexes | oono_akira/modules/_03_idiom.py:43-48 | one item keeps the index invariant |
| Idiom.IndexOf | oono_akira/modules/_03_idiom.py:24-49 | the `begin`/`end`/`mapping`/`list` index `get_data` builds; IndexOfIndexes and KeptExactly state its invariant and contents |
| Idiom.IndexOfIndexes | oono_akira/modules/_03_idiom.py:24-49 | the built index satisfies its invariant, and its list is the kept entries |
| Idiom.KeptExactly | oono_akira/modules/_03_idiom.py:30-33 | an item is listed iff some entry yields it |
| Idiom.Choice | oono_akira/modules/_03_idiom.py:86 | `random.choice` raises on an empty list and otherwise picks a member |
| Idiom.ChoiceCovers | oono_akira/modules/_03_idiom.py:86 | every member can be picked |
| Idiom.ReadBegin | oono_akira/modules/_03_idiom.py:114 | the defaultdict read answers the bucket and, when defaulting, inserts an empty one |
| Idiom.Turn | oono_akira/modules/_03_idiom.py:82-123 | the turn of `process`, with the bucket read either defaulting (as written) or not; the two instances below are its uses |
| Idiom.TurnAsWritten | oono_akira/modules/_03_idiom.py:82-123 | the turn as written, whose line-114 read inserts an empty bucket; AsWrittenPlantsEmptyBucket and AsWrittenGiveUpRaises exhibit the defect |
| Idiom.Step | oono_akira/modules/_03_idiom.py:82-123 | the corrected turn, with a bucket read that does not insert; BeginStarts through StepKeepsPlayable state its outcomes |
| Idiom.BeginStarts | oono_akira/modules/_03_idiom.py:84-89 | BEGIN raises on an empty list; otherwise it starts ONGOING with a listed word and its meaning |
| Idiom.QuitEnds | oono_akira/modules/_03_idiom.py:91-93 | "不玩了" ends the game with "祝你身体健康" |
| Idiom.GiveUpOutcomes | oono_akira/modules/_03_idiom.py:94-103 | "不会" ends with "草，我也不会" when no idiom begins with the last syllable, else plays one that does |
| Idiom.WithFirstMembers | oono_akira/modules/_03_idiom.py:45 | a bucket's members are listed items with that first syllable |
| Idiom.AnswerOutcomes | oono_akira/modules/_03_idiom.py:104-121 | a wrong answer gets the "x" reaction; a chaining one ends with "给我整不会了" or plays a continuing idiom |
| Idiom.IdleOtherwise | oono_akira/modules/_03_idiom.py:122-123 | any other status changes nothing and says nothing |
| Idiom.StepKeepsPlayable | oono_akira/modules/_03_idiom.py:82-123 | with the corrected read, a turn raises iff BEGIN meets an empty list; otherwise the index is unchanged and an ONGOING game always has a listed word |
| Idiom.PlayTurn | oono_akira/modules/_03_idiom.py:82-120 | the branch-by-branch turn (BEGIN draw, 不玩了, 不会, chain answer, wrong status) yields exactly the outcome of `Step`, the corrected turn, whose bucket read at line 114 does not insert |
| Idiom.AsWrittenPlantsEmptyBucket | oono_akira/modules/_03_idiom.py:113-116 | as written, a chain to a syllable no idiom begins with inserts an empty begin-bucket |
| Idiom.PairIndexes | oono_akira/modules/_03_idiom.py:24-49 | the two-idiom example index satisfies the invariant |
| Idiom.AsWrittenGiveUpRaises | oono_akira/modules/_03_idiom.py:94-118 | the three-turn counterexample: the planted empty bucket makes "不会" raise |
| Idiom.CorrectedGiveUpReplies | oono_akira/modules/_03_idiom.py:94-103 | the same turns with the corrected read end with "草，我也不会" |
| Idiom.MessageBody | oono_akira/modules/_03_idiom.py:124-141 | channel, text and a mrkdwn section, plus a context block quoting the meaning iff there is one |
| Idiom.ReactionBody | oono_akira/modules/_03_idiom.py:143-145 | the reaction's channel, name and timestamp |
| Idiom.Gate | oono_akira/modules/_03_idiom.py:53-69 | the handler claims "成语接龙" (setting BEGIN) and, in an ONGOING game only, 4-character texts, "不会" and "不玩了" |
| Idiom.IdiomGame.constructor | oono_akira/modules/_03_idiom.py:14 | no dictionary loaded, no sessions |
| Idiom.IdiomGame.GetData | oono_akira/modules/_03_idiom.py:17-50 | the index is built at most once and then cached |
| Idiom.IdiomGame.Handler | oono_akira/modules/_03_idiom.py:53-69 | the channel's session and the answer follow the gate; other channels are untouched |
| Idiom.IdiomGame.Process | oono_akira/modules/_03_idiom.py:72-145 | session, cache and posted messages follow the corrected turn; a raising turn leaves the sessions unchanged |
| Strike.Only | oono_akira/modules/_04_strike.py:11-13 | a one-element list yields its element; other lists are declined |
| Strike.Get | oono_akira/modules/_04_strike.py:14 | `dict.get` with its default; non-dicts raise |
| Strike.At | oono_akira/modules/_04_strike.py:22 | indexing succeeds iff the key is present |
| Strike.Detect | oono_akira/modules/_04_strike.py:8-22 | the guard chain of `handler`; AcceptsExactly and BotRejected relate it to the independent shape `StruckSpan` |
| Strike.AcceptsExactly | oono_akira/modules/_04_strike.py:8-22 | the handler accepts with text t iff the event is a non-bot message whose single block, element and span carry a truthy `strike` and the text t |
| Strike.BotRejected | oono_akira/modules/_04_strike.py:8-9 | a bot's message is never accepted |
| Strike.Handler | oono_akira/modules/_04_strike.py:5-23 | a missing event raises; `context.data` is written only on acceptance, with the span text |
| Strike.Process | oono_akira/modules/_04_strike.py:26-39 | ack always; for anyone but USLACKBOT, also `users.info` for the poster, then a post quoting the text, with the event's `thread_ts` value iff it is truthy |
| Strike.Message | oono_akira/modules/_04_strike.py:35 | the reply text; MessageQuotes states its parts |
| Strike.MessageQuotes | oono_akira/modules/_04_strike.py:35 | the reply opens with the fixed prefix, then the display name, and ends with the quoted text and "！" |
| Moyu.Greeting | oono_akira/modules/_01_moyu.py:24-44 | the if/elif chain on the hour; GreetingByBucket ties it to the commented buckets |
| Moyu.GreetingByBucket | oono_akira/modules/_01_moyu.py:24-44 | every hour 0-23 lies in exactly one commented bucket, and the chain answers that bucket's greeting |
| Moyu.WeekdayName | oono_akira/modules/_01_moyu.py:22 | the weekday is one of the seven characters |
| Moyu.WeekdayNamesDistinct | oono_akira/modules/_01_moyu.py:22 | the seven weekdays get distinct characters, Monday 一 and Sunday 日 |
| Moyu.Headline | oono_akira/modules/_01_moyu.py:58 | the first line of `get_message`; HeadlineParts states its parts |
| Moyu.HeadlineParts | oono_akira/modules/_01_moyu.py:58 | the headline opens with the greeting and names the weekday |
| Moyu.Guard | oono_akira/modules/_01_moyu.py:73-94 | a missing event raises; the handler is returned iff no bot id and the text is exactly `<@botId>` |
| Moyu.MessageHandler | oono_akira/modules/_01_moyu.py:73-84 | a bare mention gets the ack-only handler |
| Moyu.AppMentionHandler | oono_akira/modules/_01_moyu.py:87-94 | a bare mention gets `process` |
| Moyu.HandlersAgree | oono_akira/modules/_01_moyu.py:73-94 | the two handlers raise on the same contexts and claim the same messages |
| Moyu.Process | oono_akira/modules/_01_moyu.py:97-106 | ack, then one post of the message to the channel, in the thread iff there is one |
| Access.IdRun | oono_akira/admin/_cmd_access.py:7 | the length of the longest `[A-Z0-9]` prefix |
| Access.MentionMatch | oono_akira/admin/_cmd_access.py:7 | `MENTION.match` with its two groups; MentionSound and MentionComplete prove it matches exactly the pattern's language |
| Access.MentionSound | oono_akira/admin/_cmd_access.py:7 | a match is `<`, a sigil, a non-empty id, `\|`, a caption without newline, `>` and anything after |
| Access.MentionComplete | oono_akira/admin/_cmd_access.py:7 | every string of that shape matches, with that sigil and id |
| Access.Resolve | oono_akira/admin/_cmd_access.py:43-56 | "" and "*" pass through; a non-match gives "Invalid … syntax"; a wrong sigil gives "Not a …"; otherwise the id |
| Access.Validate | oono_akira/admin/_cmd_access.py:41-56 | the wildcard, channel and user checks; Resolve, ValidateOrder and ChannelMention state its outcomes |
| Access.ValidateOrder | oono_akira/admin/_cmd_access.py:41-56 | the wildcard check comes first, then the channel, then the user; validated grant/check arguments are never "*" |
| Access.ChannelMention | oono_akira/admin/_cmd_access.py:43-49 | a channel mention resolves to its id; a user mention given as the channel is "Not a channel" |
| Access.ChannelDesc | oono_akira/admin/_cmd_access.py:58 | `channel_desc`; DescriptionsDistinct states that its three cases differ |
| Access.UserDesc | oono_akira/admin/_cmd_access.py:59 | `user_desc`; DescriptionsDistinct states that its three cases differ |
| Access.DescriptionsDistinct | oono_akira/admin/_cmd_access.py:58-59 | "*", "" and an id get three different descriptions |
| Access.Wild | oono_akira/admin/_cmd_access.py:68-69 | "*" becomes None and everything else is passed on |
| Access.GrantLine | oono_akira/admin/_cmd_access.py:88-91 | one line of the `list` answer; ListLines states one such line per row |
| Access.ListLines | oono_akira/admin/_cmd_access.py:86-94 | one line per access row, or a single "Found no accesses" line |
| Access.DescribeRows | oono_akira/admin/_cmd_access.py:86-94 | the loop builds those lines |
| Access.Handler | oono_akira/admin/_cmd_access.py:27-95 | no context gives no response; a missing command raises; non-admins get "No permission to manage accesses"; otherwise validation messages, then each action's store call and message |

## Left out

- Websocket: the connection loop, the handshake, the `hello` and `disconnect` frames, reconnection and the ack queue's sender are I/O. Acks are recorded as a list instead.
- The OAuth web server, the HTTP session and the network request itself are I/O. `Send.Call` stops at the request it would send and does not model the response or its logging.
- Concurrency: the asyncio workers are not concurrent in the model. `RunWorker` and `AwaitWorkers` drain queues one after another; the source's `_run` has no queue clean-up.
- Module imports: `importlib.import_module` is not modelled. The registration sequence stands for what the imports register.
- `oono_akira/oono.py:222-223`: `iterate_modules` yields pairs of module name and constructor, but the loop calls each pair as a constructor. The model applies the constructor part through `apply`.
- Oono.OonoAkira.OnEventsApi: an exception from a constructor is returned as Err. In the source it leaves the read loop through the `except` at oono.py:178, which ends the connection; reconnecting is I/O.
- Oono.ProcessEvent: the `locked=False` argument and the database handle of the context are left out.
- Oono.ProcessEvent: a constructor's write to `context.data` (as strike's handler does) is not carried into the queued job. The job holds the context as built.
- Manager.IterateModules requires every registered constructor's module to be loaded. The source raises KeyError otherwise.
- Json: numbers are integers only, so JSON floats and their truthiness (`0.0` is falsy) are not modelled.
- Recv.Parse: a non-object value given for a dataclass is an error. In Python it raises for every schema here, because each has a required field.
- Paren: the distinctness and disjointness of the 54 openers and 54 closers are hypotheses of Paren.MappingPairs, Paren.MappingReplyCloses and Paren.ReplyTextCloses. They are not proved for the constants.
- Send.Payload: the duplicate-key error text is generic, not Python's exact TypeError message.
- Idiom: NFKD normalisation with ASCII stripping is the parameter `norm`. The dictionary download and JSON decoding are the parameter `raw`.
- Idiom: the prefetch task started by the handler, the ack and the log line for a wrong status are left out.
- Idiom: the text is taken to be a string or absent.
- Paren.CheckMessage: Python walks a dict text in insertion order, which the JSON value does not keep; the order is the parameter `keys`.
- Idiom.PlayTurn implements the corrected, non-inserting bucket read of line 114 (see Findings), and Idiom.IdiomGame.Process calls it. When a turn raises, the model leaves the sessions unchanged.
- Strike: the display name from `users.info` and the string rendering of `context.data` are parameters.
- Moyu: the elapsed-time percentages, `strftime` and the clock are not modelled. The headline takes the formatted date, hour and weekday.
- Access: argparse, including its choice check on the action, is not modelled.
- Access: database calls are returned as store-call records, and the database's answers are parameters.

## Findings

| source | as written | input that shows it | evidently intended | confidence | as-written member | corrected member |
|---|---|---|---|---|---|---|
| oono_akira/modules/_03_idiom.py:114 | `data["begin"][begin]` reads a defaultdict, which inserts an empty list for a syllable no idiom begins with. The `begin not in data["begin"]` test at line 96 then passes, and `random.choice([])` at line 100 raises IndexError. | Index of 甲乙丙丁 (p…s) and 戊己庚辛 (s…v). Game on 甲乙丙丁; answer 戊己庚辛 ("给我整不会了", "v" is now planted). New game draws 戊己庚辛; answer 不会. | A lookup that does not insert, so "不会" replies "草，我也不会" | not executed | Idiom.AsWrittenGiveUpRaises | Idiom.StepKeepsPlayable |
