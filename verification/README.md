# Browser-automation interpreter, modelled in Dafny

This project models the browser-script interpreter at the heart of the
browser-automation repository. The model covers:

- JSON-defined tasks (or "sequences"), each a key and a deque of commands;
- the placeholder language `${...}` that commands and report formats use;
- the executors that run a task's commands against a page while keeping a
  look-up table and a result table;
- the FIFO job queues that pick a task per request, run it and collect one
  formatted report line per request.

The repository holds the interpreter in three snapshots, and each is
modelled on its own terms.

- **ina** (`project/server/tasks/ina/*`, `project/server/tasks/utils.py`,
  `project/server/tasks/__init__.py`, `project/server/tasks/tasks.py`). It
  has `Key(env, name)`, `Task`, the `Driver` (with `scan`, `peek`,
  `printf`, `argvkey`, `wait` and the key-action chains), the `Job` queue,
  the task decoder with its middleware decoration, and the batch builders
  `create_job` and `create_scan`.
- **webauto** (`app/backend/webauto/*`). It has `Sequence`, and two
  executors:
  - the `Worker` of `models/worker.py`, which keeps a table and results;
  - the older sequence `Worker` of `models/models.py`, which keeps `stdout`
    and swallows errors.

  On top of these sit three queues: the `Agent`, the `Queue` and the
  `Controller`. It also has the report formatter `parse_job` and the
  sequence decoder `parse_json_file`.
- **machine** (`app/machine/model.py`). This is a cyclic action machine,
  whose `next` walks its actions round and round, with a text stream built
  by `write`, `make_file`, `flush` and `close_file`.

The style is functional throughout.

- Every entity is an immutable datatype, and every operation is a pure
  function returning a `Result`, so that the Python exceptions of the
  source are explicit error values.
- Python dicts are association lists, which keeps their insertion order.
- JSON values are a datatype with Python's truthiness, indexing and
  iteration.
- The browser is a set of oracles: the element a locator finds, the
  elements it finds, and the outcome of a wait. Each oracle is a function
  of the actions performed so far.
- `json.dumps`, `str`, `int` and `float` are oracles too.
- Configuration tables that live outside the shown code are parameters.
  These are the expected conditions, the special keys, the default
  response format and the find patterns.

Module layout (one file each):

- **Shared modules:**
  - `Wrappers`: `Option` and `Result`.
  - `Text`: join, lower, decimal printing, `str.replace`.
  - `Assoc`: dicts.
  - `PyJson`: JSON values.
  - `Browser`: page oracles and key actions.
  - `Placeholders`: `re.findall(r"(\$\{.*?\})")` and sequential
    substitution.
  - `Slots`: the first free `${n}` slot.
  - `Script`: deque helpers.
  - `Sorting`: a stable sort by key.
- **ina:**
  - `InaModels`, `InaDriver`, `InaJob`;
  - `TaskDefs`: the decoder and decoration;
  - `Batch`: `create_job` and `create_scan`.
- **webauto:**
  - `WebModels`: `Sequence`;
  - `WebFormat`: `parse_job` and `parse_json_file`;
  - `WebKeys`: `models/utils.py`;
  - `WebWorker`, `SeqWorker`, `WebAgent`, `WebQueue`, `WebController`.
- **machine:** `StateMachine`.

## Model

| member | source | states |
|---|---|---|
| InaModels.EqualKeysHashAlike | project/server/tasks/ina/models.py:45-51 | Keys equal under `__eq__` (same env and same name) hash alike, as a dict key must |
| InaModels.HashCollision | project/server/tasks/ina/models.py:45-46 | the hash of `env + name` is not injective: ("ab","c") and ("a","bc") collide while `__eq__` still tells them apart |
| InaModels.Push | project/server/tasks/ina/models.py:74-83 | the command lands at the tail, the old commands keep their order in front of it, and the key is unchanged |
| InaModels.PushLeft | project/server/tasks/ina/models.py:85-94 | the command lands at the head, the old commands follow it in order, and the key is unchanged |
| InaModels.Extend | project/server/tasks/ina/models.py:96-105 | the commands become `cmds ++ L`, and the key is unchanged |
| InaModels.ExtendLeft | project/server/tasks/ina/models.py:107-116 | the commands become `L ++ cmds`, with `L` in its given order and not reversed |
| Script.PrependReversedLoopKeepsOrder | project/server/tasks/ina/models.py:112-116 | the loop of `appendleft` over `reversed(L)` leaves `L` in order at the front of the deque |
| InaModels.Pop | project/server/tasks/ina/models.py:118-126 | fails with IndexError exactly on an empty task; otherwise the rest plus the popped command is the original, and the key is kept |
| InaModels.PopLeft | project/server/tasks/ina/models.py:128-136 | fails with IndexError exactly on an empty task; otherwise the popped command plus the rest is the original |
| InaModels.PushPopRoundTrip | project/server/tasks/ina/models.py:74-136 | `pop` after `push`, and `popleft` after `pushleft`, give back the command and the unchanged task |
| InaModels.ExtendBothEnds | project/server/tasks/ina/models.py:96-116 | extending at both ends, in either order, yields prefix, then the original commands, then suffix |
| InaDriver.TaskKey | project/server/tasks/ina/driver.py:62-72 | None exactly while no task is assigned, otherwise the assigned task's key |
| InaDriver.Reset | project/server/tasks/ina/driver.py:83-90 | table and results are emptied; the task, the actions performed and the assignment log are kept |
| InaDriver.Assign | project/server/tasks/ina/driver.py:74-81 | table and results are emptied and the task's key becomes the current key; the assignment is logged |
| InaDriver.ArgvKey | project/server/tasks/ina/driver.py:112-124 | the slot is `${n}` for the smallest n ≥ 0 whose entry is missing or empty: all lower slots hold text |
| InaDriver.FindElement | project/server/tasks/ina/driver.py:126-148 | a successful look-up returns what the page finds; after a presence wait that times out, a missing element is None and not an error |
| InaDriver.FindElements | project/server/tasks/ina/driver.py:150-172 | succeeds exactly when the presence wait does, and then returns all the elements the page finds |
| InaDriver.Find | project/server/tasks/ina/driver.py:174-191 | the first element's text, or the sentinel "N/F" when nothing is found |
| InaDriver.FindAll | project/server/tasks/ina/driver.py:193-212 | the texts joined by "; ", or "N/F" when there are no elements |
| InaDriver.Wait | project/server/tasks/ina/driver.py:582-615 | fewer than two arguments raise IndexError and an unconfigured condition raises ValueError; otherwise the result is True exactly when the page satisfies the condition, negated for UNTIL_NOT |
| InaDriver.PresenceWaitIsWait | project/server/tasks/ina/driver.py:139 | the presence wait inside the look-ups is the command `wait` with ("UNTIL", "PRESENCE_OF_ELEMENT_LOCATED") |
| InaDriver.Peek | project/server/tasks/ina/driver.py:302-323 | a truthy string entry of the table is returned unchanged; a truthy list is its items joined by ", " and raises TypeError exactly when an item is not a string; a dict is its JSON text; a truthy number is its `str()`; a missing or falsy entry falls back to the page look-up `find` |
| InaDriver.LutItems | project/server/tasks/ina/driver.py:340-343 | one "key: value" item per table entry, in table order |
| InaDriver.Scan | project/server/tasks/ina/driver.py:325-349 | a non-string target raises TypeError; a target without placeholders comes back unchanged |
| InaDriver.Resolve | project/server/tasks/ina/driver.py:336-347 | one placeholder: `${@LUT}` the table's items (or "None" without a table), `${@}` the arguments, `${n}` the n-th result, `${}` IndexError, `${@x}` every text found for `x`, any other name `peek` |
| InaDriver.ScanFailsIff | project/server/tasks/ina/driver.py:336-349 | a scan fails exactly when one of its placeholders cannot be resolved |
| InaDriver.ScanPageIndependent | project/server/tasks/ina/driver.py:336-349 | placeholders that name the table, the result list or a numbered result never consult the page |
| InaDriver.ItemSteps | project/server/tasks/ina/driver.py:235-261 | every step of an item targets the same element; a non-list item is one text step; a list with fewer than two entries raises IndexError |
| InaDriver.ItemsSteps | project/server/tasks/ina/driver.py:235-261 | the steps of all items go to the same target |
| InaDriver.Enact | project/server/tasks/ina/driver.py:235-261 | the chain is performed once, as one action whose steps all go to the given target |
| InaDriver.ScannedSteps | project/server/tasks/ina/driver.py:642-659 | each scanned item becomes a text step to the given target |
| InaDriver.PointerCommand | project/server/tasks/ina/driver.py:380-448 | with no target the pointer acts at the cursor; with a target, the command fails exactly when the look-up fails, and it acts on the element only if one is found |
| InaDriver.Navigate | project/server/tasks/ina/driver.py:352-371 | navigation then the settling pause, and nothing else changes |
| InaDriver.DragAndDropCommand | project/server/tasks/ina/driver.py:450-469 | a drag happens only when both ends are found; a missing `argv[0]` raises |
| InaDriver.OffsetCommand | project/server/tasks/ina/driver.py:471-525 | the offsets must parse as integers; the action uses them on the element, and nothing happens when the element is missing |
| InaDriver.MoveToCommand | project/server/tasks/ina/driver.py:493-503 | moves to the element if it is found, and fails exactly when the look-up fails |
| InaDriver.MoveByCommand | project/server/tasks/ina/driver.py:527-544 | succeeds exactly when both offsets parse, and moves by them |
| InaDriver.SendKeysCommand | project/server/tasks/ina/driver.py:546-562 | with no target, the key chain goes to the page; a target that is not found sends nothing |
| InaDriver.PauseCommand | project/server/tasks/ina/driver.py:564-580 | succeeds exactly when the target parses as a float; None raises TypeError |
| InaDriver.WaitCommand | project/server/tasks/ina/driver.py:582-615 | fails exactly when `wait` fails; its True/False answer is dropped and the state is unchanged |
| InaDriver.DGetCommand | project/server/tasks/ina/driver.py:618-628 | navigates to the scanned target, and fails exactly when the scan fails |
| InaDriver.DClickCommand | project/server/tasks/ina/driver.py:630-640 | an empty scan clicks at the cursor; a failed scan fails the command |
| InaDriver.DSendKeysCommand | project/server/tasks/ina/driver.py:642-659 | `argv` must be iterable; what is sent is one chain of text steps |
| InaDriver.FilterStrings | project/server/tasks/ina/driver.py:655 | keeps exactly the string items |
| InaDriver.Printf | project/server/tasks/ina/driver.py:661-674 | only the results change. The free slot is created with "" and, for a truthy target, gets the scan taken after that "" was stored, so `${@}` sees its own slot empty |
| InaDriver.PrintfKeepsFilled | project/server/tasks/ina/driver.py:661-674 | `printf` never overwrites a slot that holds text |
| InaDriver.Step | project/server/tasks/ina/driver.py:107-108 | dispatch on the lower-cased label: an unknown label fails, `printf` is `Printf`, and every other command only adds actions |
| InaDriver.StepFollows | project/server/tasks/ina/driver.py:107-108 | every command extends the actions performed and keeps every taken slot, the task, the table and the log |
| InaDriver.Run | project/server/tasks/ina/driver.py:108 | the commands run in order, and the whole run keeps that invariant |
| InaDriver.Exec | project/server/tasks/ina/driver.py:92-110 | without a task the call raises; otherwise the table is installed, the task and the log are kept, and the results only grow |
| InaJob.Push | project/server/tasks/ina/job.py:58-71 | the entry (key, fmt, lut) lands at the tail with no validation; results and driver are untouched |
| InaJob.PushNamed | project/server/tasks/ina/job.py:73-89 | `push_` is `push` with the key `Key(env, name)` |
| InaJob.ResetJob | project/server/tasks/ina/job.py:40-46 | queue and results are emptied, and the driver is untouched |
| InaJob.FormatOf | project/server/tasks/ina/job.py:103-104 | the entry's format when truthy, else the default format |
| InaJob.Prepare | project/server/tasks/ina/job.py:99-100 | `assign` when the entry's key differs from the driver's, `reset` otherwise |
| InaJob.Pop | project/server/tasks/ina/job.py:91-106 | an empty queue raises IndexError; an unknown key is dropped with nothing else done; a known key succeeds exactly when its run does, appends exactly the line formatted from the entry's format (or the default), its table and the run's results, and assigns exactly when the key changed |
| InaJob.Drain | project/server/tasks/ina/job.py:55 | the queue ends empty, with one line per known entry, appended after the old lines |
| InaJob.DrainLines | project/server/tasks/ina/job.py:55 | first in, first out: after the old lines, the i-th new line answers the i-th known entry of the queue, formatted with that entry's format and table |
| InaJob.DrainSwaps | project/server/tasks/ina/job.py:55 | the driver is assigned once per key change along the known entries, and ends holding the last of them |
| InaJob.SameKeyAssignsOnce | project/server/tasks/ina/job.py:99-100 | n entries of one key cost one assignment, or none when the driver already holds it |
| InaJob.Exec | project/server/tasks/ina/job.py:49-56 | the driver is created only when there is none, then the queue is drained; the job ends with a driver and an empty queue |
| TaskDefs.DecodeCommand | project/server/tasks/utils.py:116-128 | the label is lower-cased and must be a string (AttributeError otherwise); `[label]` has no target and no `argv`; `[label, x]` with a non-object x has target x and no `argv`; `[label, {...}]` takes `target` and `argv` from the object, a truthy non-list `argv` wrapped; an empty command raises IndexError |
| TaskDefs.DecodeCommands | project/server/tasks/utils.py:115-128 | all commands decoded in file order, or the error of one that fails |
| TaskDefs.ParseTask | project/server/tasks/utils.py:98-131 | a decoded task's key is `Key(raw["env"], raw["name"])`; a non-object document raises TypeError |
| TaskDefs.DecodeEncodeCommand | project/server/tasks/utils.py:116-128 | round trip: decoding the long form of a decodable command gives it back |
| TaskDefs.DecodeEncodeTask | project/server/tasks/utils.py:98-131 | round trip: decoding the definition of a task gives the task back |
| TaskDefs.Decorate | project/server/tasks/utils.py:67-70 | an "ALL" task is unchanged; any other becomes `[printf "env,name"] ++ prefix ++ commands ++ suffix` with its key kept |
| TaskDefs.Load | project/server/tasks/utils.py:66-70 | a document loads exactly when it decodes, and is then decorated |
| TaskDefs.TaskList | project/server/tasks/utils.py:55-74 | every document loaded, in order |
| TaskDefs.TaskDict | project/server/tasks/utils.py:76-95 | the same tasks as the list, filed by key |
| TaskDefs.FileByKeyGet | project/server/tasks/utils.py:93 | a key finds the last task defined under it; keys are distinct and each task is filed under its own key |
| TaskDefs.LastWithKey | project/server/tasks/utils.py:93 | the index of the last task with the key, and no later one has it |
| TaskDefs.FiledUnderOwnKey | project/server/tasks/utils.py:93 | `tasks[task.key] = task` keeps every task under its own key |
| TaskDefs.BannerLandsInFirstSlot | project/server/tasks/utils.py:70 | a decorated task run on a freshly assigned driver leaves "env,name" in `${0}`, which is what the default response format reads |
| Batch.RowLut | project/server/tasks/__init__.py:92-94 | `{"usrId": ...}` overlaid by the row's own truthy `lut`, with the row winning; a falsy `lut` adds nothing; a missing `lut` raises KeyError |
| Batch.RowTask | project/server/tasks/__init__.py:101-102 | `TASKS_DICT.get(Key(env, name))`: two strings give the dictionary's task for that key; two integers hash but name no task; any other pair raises TypeError, as `env + name` or its hash does (project/server/tasks/ina/models.py:45-46) |
| Batch.SortRows | project/server/tasks/__init__.py:87 | fails with TypeError exactly when two or more rows have keys Python cannot order against each other; otherwise the rows are permuted into ascending key order, and the rows of each key keep their original order (stability) |
| Batch.Retain | project/server/tasks/__init__.py:86 | kept rows have a truthy usrId and, for the newer builder, a truthy env and name; the older builder keeps rows by usrId alone |
| Batch.RowFields | project/server/tasks/__init__.py:88-102 | a row reads when it has env, name and usrId, and its user is the one its table holds |
| Batch.RowRequests | project/server/tasks/__init__.py:104-107 | nothing when no task; otherwise a swap-user request (untraced) exactly when the user changed, then the task |
| Batch.JobRowsAsWritten | project/server/tasks/__init__.py:99-110 | the loop as written: at most one swap per row |
| Batch.AsWrittenStep | project/server/tasks/__init__.py:100-109 | unfolding helper for the proofs below: it states the loop's one-turn equation as written (the row's requests, then the rest, with the previous user advanced unconditionally), which follows from the definition |
| Batch.AsWrittenLastRow | project/server/tasks/__init__.py:104-107 | a row whose user equals the previous one runs its task without a swap |
| Batch.AsWrittenSkipsSwap | project/server/tasks/__init__.py:99-110 | two rows of one user, the first naming a missing task: as written, the second task runs with no swap and the session is not consistent |
| Batch.JobRows | project/server/tasks/__init__.py:99-110 | the corrected loop: at most one swap per row |
| Batch.RowRuns | project/server/tasks/__init__.py:100-107 | the reference definition of the tasks a list of rows asks for: one run per row whose task exists, with the row's table, in row order |
| Batch.JobRowsAsWrittenRuns | project/server/tasks/__init__.py:99-110 | the loop as written runs exactly the tasks `RowRuns` lists, in order, and fails exactly when and as `RowRuns` does |
| Batch.JobRowsRuns | project/server/tasks/__init__.py:99-110 | the corrected loop runs exactly the same tasks in the same order |
| Batch.AsWrittenAgrees | project/server/tasks/__init__.py:99-110 | without rows naming a missing task, the loop as written and the corrected loop push the same requests or fail alike |
| Batch.CorrectedStep | project/server/tasks/__init__.py:100-109 | unfolding helper for the proofs below: it states the corrected loop's one-turn equation (the previous user advances only when a task was pushed), which follows from the definition |
| Batch.CorrectedLastRow | project/server/tasks/__init__.py:104-107 | from no previous user, a row swaps to its user and then runs its task |
| Batch.CorrectedSwaps | project/server/tasks/__init__.py:99-110 | on the rows that defeat the loop as written, the corrected loop swaps before the task |
| Batch.SessionUserAppend | project/server/tasks/__init__.py:104-106 | the session user after more requests is set by the last swap among them |
| Batch.AppendConsistent | project/server/tasks/__init__.py:104-109 | one row's requests keep every task under its row's user, and leave the session at that user when a task ran |
| Batch.JobRowsConsistent | project/server/tasks/__init__.py:99-110 | the corrected loop runs every task while the session holds its row's user |
| Batch.Conclude | project/server/tasks/__init__.py:110-114 | success deploys the plan; a KeyError is answered False; other errors escape |
| Batch.JobRowsOf | project/server/tasks/__init__.py:86-87 | the rows the loop walks: the kept rows sorted by `usrId`, every one a row of the data |
| Batch.JobPlan | project/server/tasks/__init__.py:85-110 | as written: at most one swap per data item, the tasks run are exactly those of the sorted rows, in order; with no row naming a missing task it equals the intended plan |
| Batch.JobPlanIntended | project/server/tasks/__init__.py:85-110 | corrected: the same tasks in the same order, each run while the session holds its row's user |
| Batch.CreateJob | project/server/tasks/__init__.py:75-114 | as written: a non-dict request raises AttributeError; falsy data is answered False; a deployed plan carries the receipt, has at most one swap per row and runs exactly the tasks of the sorted rows; with no row naming a missing task it equals the intended `create_job` |
| Batch.CreateJobIntended | project/server/tasks/__init__.py:75-114 | corrected: as above, and every task runs under its row's user |
| Batch.Partition | project/server/tasks/__init__.py:35 | the rows with a truthy order id and the rest, together a permutation of the rows |
| Batch.GetRows | project/server/tasks/__init__.py:36-58 | one order look-up per order-id row, and no swaps or searches |
| Batch.FindFields | project/server/tasks/__init__.py:45-53 | a search row's user is the one its table holds |
| Batch.FindRows | project/server/tasks/__init__.py:59-68 | one search per row, and no look-ups |
| Batch.FindRowsConsistent | project/server/tasks/__init__.py:59-68 | every search runs while the session holds its row's user |
| Batch.LookupsThenSearches | project/server/tasks/__init__.py:56-66 | look-ups followed by requests that are not look-ups put every look-up first |
| Batch.ScanRequests | project/server/tasks/__init__.py:35-68 | one look-up or search per sorted row, every look-up before any swap or search, and every search under its row's user |
| Batch.ScanPlan | project/server/tasks/__init__.py:33-68 | rows that are not dicts raise AttributeError; exactly one look-up or search per row of data, every `GetOrderById` pushed before any swap or search, and every search under its row's user |
| Batch.CreateScan | project/server/tasks/__init__.py:21-73 | falsy data is answered False; a deployed plan carries the receipt, holds one look-up or search per row, puts every look-up first, and runs every search under its row's user |
| Sorting.SortedBySort | project/server/tasks/__init__.py:87 | the sort orders the rows by key |
| Sorting.SortPermutes | project/server/tasks/__init__.py:87 | the sort keeps every row, as often as it occurs |
| Sorting.SortStable | project/server/tasks/__init__.py:87 | the rows of one key keep their order (Python's sort is stable) |
| Sorting.SortValuesPermute | project/server/tasks/__init__.py:34 | the sorted rows are the given rows, as often as they occur |
| Sorting.LexLessTotal | project/server/tasks/__init__.py:87 | string keys are totally ordered |
| Sorting.LexLessTransitive | project/server/tasks/__init__.py:87 | the string order is transitive |
| Sorting.LessTotal | project/server/tasks/__init__.py:87 | the order of sort keys is total |
| Sorting.LessTransitive | project/server/tasks/__init__.py:87 | the order of sort keys is transitive |
| WebModels.KeyOfIff | app/backend/webauto/models/models.py:33-43 | two sequences share a key exactly when they share name and environment |
| WebModels.Push | app/backend/webauto/models/models.py:46-55 | the command lands at the tail and the key is kept |
| WebModels.PushLeft | app/backend/webauto/models/models.py:57-66 | the command lands at the head and the key is kept |
| WebModels.Extend | app/backend/webauto/models/models.py:68-77 | the commands become `cmds ++ L` |
| WebModels.ExtendLeft | app/backend/webauto/models/models.py:79-88 | the commands become `L ++ cmds`, with `L` in its given order |
| WebModels.Pop | app/backend/webauto/models/models.py:90-98 | IndexError exactly on an empty sequence; otherwise rest plus popped is the original |
| WebModels.PopLeft | app/backend/webauto/models/models.py:100-108 | IndexError exactly on an empty sequence; otherwise popped plus rest is the original |
| WebModels.PushPopRoundTrip | app/backend/webauto/models/models.py:46-108 | `pop` undoes `push`, and `popleft` undoes `pushleft` |
| WebModels.ExtendBothEnds | app/backend/webauto/models/models.py:68-88 | extending at both ends, in either order, gives prefix, original, postfix |
| WebModels.Wrap | app/backend/webauto/agent.py:70-72 | the middleware wrapping: prefix, the sequence's own commands in order, postfix, with the key kept |
| WebFormat.JobValue | app/backend/webauto/utils.py:192-201 | `${@RESULT}` is the run of `${1}`, `${2}`, … joined by ", "; a number is its slot or "N/A"; `${@}` is the table's JSON text; any other name is the table's text or "None" |
| WebFormat.ParseJob | app/backend/webauto/utils.py:174-202 | a format without placeholders comes back unchanged |
| WebFormat.ParseJobFailsIff | app/backend/webauto/utils.py:191-202 | a report fails exactly when a placeholder's value cannot be read, and only with AttributeError or TypeError |
| WebFormat.ParseJobTotal | app/backend/webauto/utils.py:191-202 | with a table of text entries, every format succeeds |
| WebFormat.ReportOfResults | app/backend/webauto/utils.py:193-198 | `${@RESULT}` is the texts of `${1}`, `${2}`, … up to the first missing or empty slot, joined by ", " |
| WebFormat.ReportOfSlot | app/backend/webauto/utils.py:199 | `${n}` is the slot's text, or "N/A" when the slot is missing |
| WebFormat.ReportOfName | app/backend/webauto/utils.py:201 | any other name is the table's text, or "None", and never consults the page |
| WebFormat.ParseSequence | app/backend/webauto/utils.py:119-156 | every failure is reported as IndexError; a decoded sequence carries the document's name and env, which must be strings |
| WebFormat.DecodeSequence | app/backend/webauto/utils.py:119-150 | a non-object document raises TypeError and a missing `commands` KeyError; a decoded sequence has the commands of the document's list in file order, and its name and env |
| WebFormat.SameDecoding | app/backend/webauto/utils.py:136-150 | the sequence decoder and the ina decoder accept the same documents and decode the same commands |
| WebFormat.DecodeEncodeSequence | app/backend/webauto/utils.py:119-156 | round trip: decoding a sequence's definition gives the sequence back |
| WebKeys.NextDictKey | app/backend/webauto/models/utils.py:160-178 | `stdoutN` for the smallest N ≥ 1 whose entry is missing or empty |
| WebKeys.ExpectedArg | app/backend/webauto/models/utils.py:53-71 | a locator by id, the element (NoSuchElement when absent), an integer (exactly when it parses), or the raw value |
| WebKeys.Item | app/backend/webauto/models/utils.py:143-148 | a list item is `(state, keys)` (fewer than two entries raise IndexError); any other item is text under SEND; special keys are expanded |
| WebKeys.ItemSteps | app/backend/webauto/models/utils.py:150-157 | SEND gives one action with the whole text; any other state one action per character; the typed text is always the expanded text |
| WebKeys.ItemsSteps | app/backend/webauto/models/utils.py:128-158 | succeeds exactly when every item does, and every action targets the same place |
| WebKeys.Chain | app/backend/webauto/models/utils.py:128-158 | `argv` must be iterable (TypeError otherwise); the chain is every item's actions |
| WebKeys.PlainItemsSteps | app/backend/webauto/models/utils.py:143-157 | plain text items are typed one action per item, in order |
| Browser.ConditionKind | app/backend/webauto/models/worker.py:450-454 | the configured kind of a condition name; an unknown name raises ValueError |
| Browser.KeyStep | project/server/tasks/ina/driver.py:214-233 | key-down and key-up steps are chosen exactly by their logic names |
| Browser.PerCharacter | app/backend/webauto/models/utils.py:153-156 | one step per character, in order |
| Browser.PerCharacterTypes | app/backend/webauto/models/utils.py:153-156 | per-character steps type exactly the characters given |
| Placeholders.FindPlaceholders | app/backend/webauto/config.py:22 | every match of the shortest-match pattern is a placeholder |
| Placeholders.MatchAtComplete | app/backend/webauto/config.py:22 | a placeholder starting at a position is exactly what the pattern matches there |
| Placeholders.FindPlaceholdersEmptyIff | app/backend/webauto/config.py:22 | the scan finds nothing exactly when no substring is a placeholder |
| Placeholders.NoDollarNoPlaceholders | app/backend/webauto/config.py:22 | a text without `$` has no placeholders |
| Placeholders.SubstituteFailsIff | app/backend/webauto/utils.py:191-202 | sequential substitution fails exactly when some placeholder fails, and with the error of the first that does |
| Placeholders.SubstituteAgrees | app/backend/webauto/utils.py:191-202 | substitution reads the resolver only at the found placeholders |
| Placeholders.SinglePlaceholder | app/backend/webauto/utils.py:191-202 | a text that is one placeholder becomes exactly its resolved value |
| Placeholders.SpecialKeysSpec | app/backend/webauto/models/utils.py:73-90 | expansion fails with KeyError exactly when a placeholder is not in the special-key table; text without placeholders is unchanged |
| Slots.FirstFree | project/server/tasks/ina/driver.py:120-124 | the smallest slot number from the start whose slot is missing or empty |
| Slots.FirstFreeUnique | project/server/tasks/ina/driver.py:120-124 | the first free slot is the only one with that description |
| Slots.RunFrom | app/backend/webauto/utils.py:193-198 | the texts of consecutive taken slots, ending just before a free one |
| Slots.RunEndsAtFirstFree | app/backend/webauto/utils.py:193-198 | the run of texts stops exactly at the first free slot |
| Slots.RunFromUnique | app/backend/webauto/utils.py:193-198 | the run is the only sequence of texts with that description |
| Slots.SlotInjective | project/server/tasks/ina/driver.py:120-124 | distinct numbers name distinct slots |
| Text.NatToStringRoundTrip | project/server/tasks/ina/driver.py:120-124 | reading back the printed number gives the number |
| Text.LowerIdempotent | project/server/tasks/utils.py:117 | lower-casing a decoded label again changes nothing |
| Text.ReplaceAllAbsent | app/backend/webauto/utils.py:202 | replacing text that does not occur changes nothing |
| Text.ReplaceAllIdentity | app/backend/webauto/utils.py:202 | replacing text by itself changes nothing |
| Text.JoinSnoc | app/backend/webauto/agent.py:130 | joining one more line appends the separator and that line |
| Assoc.PutGet | project/server/tasks/utils.py:93 | after `d[k] = v`, `d.get(k)` is v and every other key reads as before |
| Assoc.PutKeys | project/server/tasks/utils.py:93 | assignment keeps a present key's position and appends a new key |
| Assoc.OverlayGet | project/server/tasks/__init__.py:92-94 | in `{**a, **b}` a key of b reads as in b, any other as in a |
| PyJson.At | app/backend/webauto/models/worker.py:199 | a negative index counts from the end, and past the front raises IndexError |
| PyJson.Offsets | project/server/tasks/ina/driver.py:484-485 | both offsets parse as integers, or the command fails |
| WebWorker.TaskKey | app/backend/webauto/models/worker.py:41-44 | None before any `assign`, then the assigned sequence's key |
| WebWorker.Reset | app/backend/webauto/models/worker.py:55-62 | table and results emptied; the sequence kept |
| WebWorker.Assign | app/backend/webauto/models/worker.py:46-53 | table and results emptied, and the sequence bound |
| WebWorker.Find | app/backend/webauto/models/worker.py:115-132 | the element's text, or "" (not "N/F") when there is none |
| WebWorker.FindAll | app/backend/webauto/models/worker.py:134-152 | the texts joined by ", ", or "" when nothing matches |
| WebWorker.Entry | app/backend/webauto/models/worker.py:167-168 | a table entry is used exactly when it is present and truthy |
| WebWorker.PeekAsWritten | app/backend/webauto/models/worker.py:154-175 | as written: a truthy string entry is itself, a dict its JSON text, a truthy number its `str()`; a missing entry falls back to `find`; a list entry becomes the characters of its printed form |
| WebWorker.Peek | app/backend/webauto/models/worker.py:154-175 | corrected: a string entry is returned unchanged, and a list entry is its string items joined by ", "; otherwise the same as written |
| WebWorker.Render | app/backend/webauto/models/worker.py:167-175 | a string as itself, a dict as the JSON text of its printed form |
| WebWorker.Positional | app/backend/webauto/models/worker.py:198-205 | `argv[n-1]`, counted from 1, so 0 is the last argument and a number past the end raises IndexError |
| WebWorker.Resolve | app/backend/webauto/models/worker.py:192-205 | as written, one placeholder: `${@#}` the table's JSON text, `${@}` the arguments joined ("None" without any), `${n}` the n-th argument when there are arguments, `${}` IndexError, `${@x}` every text found for `x`, any other name `peek` as written |
| WebWorker.ResolveIntended | app/backend/webauto/models/worker.py:192-205 | corrected: the same, except that a name `scan` peeks at is read by the corrected `peek` |
| WebWorker.Scan | app/backend/webauto/models/worker.py:177-207 | as written: a non-string format raises TypeError; a format without placeholders is unchanged |
| WebWorker.ScanIntended | app/backend/webauto/models/worker.py:177-207 | corrected: the same, and equal to the scan as written whenever no placeholder falls through to `peek` |
| WebWorker.ResolveSlot | app/backend/webauto/models/worker.py:198-205 | with arguments, `${n}` is the n-th argument |
| WebWorker.ScanPositional | app/backend/webauto/models/worker.py:198-205 | `${n}` with string arguments: `args[n-1]`, the last argument for 0, IndexError past the end |
| WebWorker.ScanNumberWithoutArguments | app/backend/webauto/models/worker.py:198-205 | without arguments a number falls through to `peek` as written |
| WebWorker.ScanPageIndependent | app/backend/webauto/models/worker.py:192-205 | table, argument and positional placeholders never consult the page |
| WebWorker.ScanIgnoresResults | app/backend/webauto/models/worker.py:177-207 | a scan never reads the results |
| WebWorker.PeekListAsWritten | app/backend/webauto/models/worker.py:170-171 | the list `["ab"]`: as written `peek` gives "[, ', a, b, ', ]", corrected "ab" |
| WebWorker.ScanListAsWritten | app/backend/webauto/models/worker.py:170-171 | the format "${k}" over the table `{"k": ["ab"]}`: as written `scan` gives "[, ', a, b, ', ]", corrected "ab" |
| WebWorker.WaitRequest | app/backend/webauto/models/worker.py:450-454 | the condition is `argv[1]`, negated exactly for UNTIL_NOT |
| WebWorker.Wait | app/backend/webauto/models/worker.py:438-471 | True exactly when the page satisfies the condition; too short an `argv` raises IndexError and an unknown condition ValueError |
| WebWorker.PointerCommand | app/backend/webauto/models/worker.py:236-304 | with no target, at the cursor; with a target, on the element if found, otherwise skipped |
| WebWorker.Navigate | app/backend/webauto/models/worker.py:210-227 | navigation, then the settling pause |
| WebWorker.DragAndDropCommand | app/backend/webauto/models/worker.py:306-325 | succeeds exactly when `argv[0]` exists; drags only when both ends are found |
| WebWorker.OffsetCommand | app/backend/webauto/models/worker.py:327-381 | succeeds exactly when both offsets parse; acts only on a found element |
| WebWorker.MoveToCommand | app/backend/webauto/models/worker.py:349-359 | moves to the element when found, otherwise does nothing |
| WebWorker.MoveByCommand | app/backend/webauto/models/worker.py:383-400 | succeeds exactly when both offsets parse, and moves by them |
| WebWorker.SendKeysCommand | app/backend/webauto/models/worker.py:402-418 | a missing element sends nothing; otherwise the key chain of `argv` goes to the element, or to the page with no target |
| WebWorker.PauseCommand | app/backend/webauto/models/worker.py:420-436 | succeeds exactly when the target parses as a float; a bad number ends in UnboundLocalError, never ValueError |
| WebWorker.WaitCommand | app/backend/webauto/models/worker.py:438-471 | fails exactly when `wait` fails; the answer is dropped |
| WebWorker.DGetCommand | app/backend/webauto/models/worker.py:474-483 | navigates only to a truthy table entry for the target; with no table, or an empty one, nothing happens |
| WebWorker.ScannedSteps | app/backend/webauto/models/worker.py:485-501 | one text step per string item, all to the same place |
| WebWorker.DSendKeysCommand | app/backend/webauto/models/worker.py:485-501 | a missing element sends nothing; otherwise one text step per string item of `argv` |
| WebWorker.ArgvKey | app/backend/webauto/models/worker.py:515 | corrected: the slot `${n}` for the smallest n ≥ 1 that is missing or empty, the rule the worker's tests read (`${1}` for the first `printf`) |
| WebWorker.PrintfAsWritten | app/backend/webauto/models/worker.py:515 | as written, every `printf` raises AttributeError, because `utils.next_argv_key` is not defined in models/utils.py |
| WebWorker.Printf | app/backend/webauto/models/worker.py:503-518 | corrected: only the results change: the free slot gets "" for a falsy target, otherwise the scan of the target, and it fails exactly when the scan fails |
| WebWorker.PrintfFollows | app/backend/webauto/models/worker.py:514-518 | the corrected `printf` keeps every taken slot, since it writes only a free one |
| WebWorker.WriteCommand | app/backend/webauto/models/worker.py:521-532 | keys are sent exactly when the visibility wait answered True; on False nothing happens |
| WebWorker.Step | app/backend/webauto/models/worker.py:79-81 | dispatch on the lower-cased label: an unknown label fails, `printf` raises AttributeError as written, and every successful command only acts |
| WebWorker.StepIntended | app/backend/webauto/models/worker.py:79-81 | with the corrected `printf`: it is `Printf`, every other command is `Step`, and a success extends the actions and keeps taken slots |
| WebWorker.StepFollows | app/backend/webauto/models/worker.py:79-81 | every command extends the actions and keeps taken slots, the sequence, the table and the log |
| WebWorker.Run | app/backend/webauto/models/worker.py:79-81 | the commands run in order and keep that invariant |
| WebWorker.RunStopsAtPrintf | app/backend/webauto/models/worker.py:79-81 | as written, a sequence holding a `printf` anywhere never runs to completion |
| WebWorker.RunIntended | app/backend/webauto/models/worker.py:79-81 | the corrected run keeps the invariant, and equals `Run` on every sequence without a `printf` |
| WebWorker.Exec | app/backend/webauto/models/worker.py:64-81 | without a sequence the call raises; otherwise the table is installed and the sequence and log are kept |
| SeqWorker.Load | app/backend/webauto/models/models.py:133-139 | the sequence is bound; `stdout` and the actions are kept |
| SeqWorker.Located | app/backend/webauto/models/models.py:155-163 | the element the page finds, or NoSuchElement |
| SeqWorker.Swallow | app/backend/webauto/models/models.py:279-281 | a caught error leaves the state as it was; any other error escapes |
| SeqWorker.PointerCommand | app/backend/webauto/models/models.py:193-261 | at the cursor with no target; otherwise fails exactly when the element is missing, and acts only if it is displayed |
| SeqWorker.DragAndDropCommand | app/backend/webauto/models/models.py:263-281 | a missing `argv[0]` is skipped, never IndexError; drags only between displayed elements |
| SeqWorker.OffsetCommand | app/backend/webauto/models/models.py:283-335 | a missing element raises NoSuchElement; missing offsets are skipped, never IndexError |
| SeqWorker.MoveToCommand | app/backend/webauto/models/models.py:304-314 | fails exactly when the element is missing; moves only to a displayed one |
| SeqWorker.MoveByCommand | app/backend/webauto/models/models.py:337-353 | parsed offsets move the pointer; a missing second offset is skipped |
| SeqWorker.SendKeysCommand | app/backend/webauto/models/models.py:355-379 | index and key errors are swallowed; a missing element raises; what is sent is the key chain of `argv` |
| SeqWorker.PauseCommand | app/backend/webauto/models/models.py:381-396 | succeeds exactly when the target parses as a float, failing with that parse's error |
| SeqWorker.WaitCommand | app/backend/webauto/models/models.py:398-427 | short `argv`, unknown conditions and timeouts are swallowed; the state is unchanged |
| SeqWorker.FindInto | app/backend/webauto/models/models.py:429-441 | `stdout[xpath]` is the element's text when displayed, "" otherwise; a missing element raises |
| SeqWorker.DisplayedTexts | app/backend/webauto/models/models.py:452-457 | exactly the texts of the displayed elements |
| SeqWorker.FindAllInto | app/backend/webauto/models/models.py:443-459 | `stdout[xpath]` is the displayed texts joined by ", ", "" when none is displayed |
| SeqWorker.PositionalValue | app/backend/webauto/models/models.py:476-482 | `${@}` is all arguments joined by ", " ("" for none); otherwise `argv[idx]`, past the end IndexError |
| SeqWorker.Positional | app/backend/webauto/models/models.py:476-482 | an argument missing for a placeholder is logged, never raised |
| SeqWorker.PositionalPastEnd | app/backend/webauto/models/models.py:476-482 | placeholders past the last argument are left as they are |
| SeqWorker.Scrape | app/backend/webauto/models/models.py:484-492 | each match's look-up records into `stdout`; a missing element raises NoSuchElement |
| SeqWorker.Printf | app/backend/webauto/models/models.py:461-494 | a falsy target stores "" under the next `stdoutN`; a truthy non-string raises TypeError; a failing positional pass fails the command with its error; when the target with its positional placeholders replaced has no matches, exactly that text is stored in the slot; otherwise the slot is always written |
| SeqWorker.PrintfPlain | app/backend/webauto/models/models.py:472-475 | a plain target is stored as it is in the next free slot |
| SeqWorker.PrintfArgument | app/backend/webauto/models/models.py:476-482 | a target that is one placeholder stores the first argument |
| SeqWorker.TwoPrintfs | app/backend/webauto/models/models.py:472-475 | two plain outputs land at stdout1 and stdout2 |
| SeqWorker.PrintfMovesOn | app/backend/webauto/models/models.py:472-475 | once a slot holds text, the next `printf` writes elsewhere |
| SeqWorker.Step | app/backend/webauto/models/models.py:151-153 | dispatch on the lower-cased label: unknown labels fail; only `find`, `find_all` and `printf` write `stdout`, and they perform no action |
| SeqWorker.Run | app/backend/webauto/models/models.py:152 | commands in order; without writers `stdout` is unchanged |
| SeqWorker.Exec | app/backend/webauto/models/models.py:141-153 | `stdout` starts empty; without a sequence the call raises |
| SeqWorker.ExecForgets | app/backend/webauto/models/models.py:151 | what a run answers does not depend on an earlier run's output |
| WebAgent.Wrapped | app/backend/webauto/agent.py:69-72 | every sequence wrapped, in order |
| WebAgent.LastWithKey | app/backend/webauto/agent.py:73 | the last sequence carrying the key, and no later one has it |
| WebAgent.CatalogGet | app/backend/webauto/agent.py:73 | the filing loop: a key finds the last sequence with it; keys are distinct and each sequence is under its own key |
| WebAgent.PutOwnKey | app/backend/webauto/agent.py:73 | filing a sequence under its own key keeps the catalogue well keyed |
| WebAgent.WellKeyedGet | app/backend/webauto/agent.py:73 | a well-keyed catalogue returns only sequences of the asked key |
| WebAgent.Tasks | app/backend/webauto/agent.py:69-73 | a key is present exactly when some definition carries it |
| WebAgent.Init | app/backend/webauto/agent.py:19-26 | no worker yet, empty queue and results |
| WebAgent.SetMiddleware | app/backend/webauto/agent.py:58-73 | a new catalogue, and nothing else changes |
| WebAgent.Reset | app/backend/webauto/agent.py:49-56 | worker dropped, queue and results emptied, catalogue kept |
| WebAgent.Push | app/backend/webauto/agent.py:85-101 | `(Key(name, env), fmt, tbl)` joins the tail, name first |
| WebAgent.FormatOf | app/backend/webauto/agent.py:115-116 | the entry's format when truthy, else the default |
| WebAgent.Prepare | app/backend/webauto/agent.py:111-112 | `assign` on a key change, `reset` otherwise |
| WebAgent.Pop | app/backend/webauto/agent.py:103-117 | an empty queue raises IndexError; an unknown key is dropped; a known key appends one formatted line, run with the entry's table, after `assign` or `reset` |
| WebAgent.Known | app/backend/webauto/agent.py:109-110 | the entries whose keys the catalogue knows |
| WebAgent.Drain | app/backend/webauto/agent.py:82 | the queue ends empty, the catalogue unchanged, the old lines kept in front |
| WebAgent.DrainResults | app/backend/webauto/agent.py:82 | one line per known entry; the worker is assigned exactly at each key change |
| WebAgent.SameKeyOneAssign | app/backend/webauto/agent.py:111-112 | a run of one known key assigns at most once, and not at all when it is already held |
| WebAgent.Exec | app/backend/webauto/agent.py:76-83 | the worker is created only when missing, then the queue drained |
| WebAgent.ExecFromScratch | app/backend/webauto/agent.py:76-83 | the first `exec` logs exactly the key changes of its known entries |
| WebAgent.Report | app/backend/webauto/agent.py:130 | the lines joined by ",\n", each new line after the text of the earlier ones |
| WebAgent.ExecAsWritten | app/backend/webauto/agent.py:128 | as written, every `exec` fails: a drain that succeeds ends in UnboundLocalError |
| WebQueue.AsAgent | app/backend/webauto/service.py:22-33 | the queue is an agent whose worker exists |
| WebQueue.Init | app/backend/webauto/service.py:27-33 | the worker exists from the start; jobs and lines empty |
| WebQueue.Reset | app/backend/webauto/service.py:56-57 | only the lines go; worker and pending jobs stay |
| WebQueue.SetMiddleware | app/backend/webauto/service.py:59-76 | a new catalogue, and nothing else changes |
| WebQueue.Enqueue | app/backend/webauto/service.py:79-95 | `(Key(name, env), fmt, tbl)` joins the tail |
| WebQueue.Dequeue | app/backend/webauto/service.py:97-111 | an empty queue raises IndexError; unknown keys are dropped; a known key appends one `parse_job` line, after `load` on a key change |
| WebQueue.Submit | app/backend/webauto/service.py:113-118 | succeeds exactly when the drain does; jobs end empty and old lines are kept |
| WebQueue.SubmitResults | app/backend/webauto/service.py:113-118 | one line per known job; a load exactly at each key change |
| WebQueue.RepeatedJobsLoadNothing | app/backend/webauto/service.py:56-57 | because `reset` keeps the worker, jobs for the loaded sequence never load it again |
| WebController.Sequences | app/backend/webauto/services.py:59-65 | sequences filed by name: a name is present exactly when some definition has it |
| WebController.LaterEnvironmentWins | app/backend/webauto/services.py:65 | two sequences of one name in different environments collide, and the later one wins |
| WebController.Init | app/backend/webauto/services.py:21-27 | the worker exists from the start |
| WebController.SetMiddleware | app/backend/webauto/services.py:48-65 | a new catalogue, and nothing else changes |
| WebController.Enqueue | app/backend/webauto/services.py:67-80 | `(name, fmt, argv)` joins the tail |
| WebController.JobFormatOf | app/backend/webauto/services.py:92-93 | the job's format when non-empty, else the default |
| WebController.Dequeue | app/backend/webauto/services.py:82-94 | an empty queue raises IndexError; an unknown name is dropped; a known one is always loaded, run, and its `parse_job` line over `argv` appended |
| WebController.KnownJobs | app/backend/webauto/services.py:88-89 | the jobs whose names the catalogue knows |
| WebController.Submit | app/backend/webauto/services.py:96-101 | jobs end empty, old lines kept in front |
| WebController.SubmitResults | app/backend/webauto/services.py:96-101 | one line per known job; the worker holds the last known job's sequence |
| WebController.Save | app/backend/webauto/services.py:103-115 | the text is the lines joined by ",\n", and the lines are then emptied |
| WebController.SaveStartsOver | app/backend/webauto/services.py:115 | after `save`, the next submit's text holds exactly that submit's lines |
| StateMachine.Create | app/machine/model.py:37-44 | counter 0, no stream, nothing done |
| StateMachine.Enter | app/machine/model.py:46-48 | an empty stream, and the rest kept |
| StateMachine.Wait | app/machine/model.py:79-103 | no argument idles; a duration sleeps exactly that long; a value `float` rejects, a negative one and NaN raise ValueError; one too large for the clock raises OverflowError |
| StateMachine.MakeFile | app/machine/model.py:366-389 | empty `argv` raises IndexError; otherwise an empty stream for the new path |
| StateMachine.OpenFile | app/machine/model.py:409-438 | the stream is the file's content, or empty when there is no such file |
| StateMachine.Save | app/machine/model.py:391-456 | succeeds exactly with a stream and a path; the stream goes to the file and is then empty |
| StateMachine.Flush | app/machine/model.py:391-407 | succeeds exactly with a stream and a path; the stream is appended to the file and then empty; otherwise a plain Exception |
| StateMachine.CloseFile | app/machine/model.py:440-456 | succeeds exactly with a stream and a path; the stream overwrites the file and is then empty; otherwise a plain Exception |
| StateMachine.Fill | app/machine/model.py:479-480 | replacing placeholders that do not occur, or each by itself, leaves the text unchanged |
| StateMachine.ElementText | app/machine/model.py:481-488 | an element placeholder becomes the element's text, or "None" on a timeout |
| StateMachine.Line | app/machine/model.py:469-488 | fails, with IndexError, exactly when there are fewer arguments than positional placeholders plus one |
| StateMachine.SubstituteTotal | app/machine/model.py:481-488 | a resolver that never fails makes substitution succeed |
| StateMachine.Write | app/machine/model.py:458-499 | appends exactly one line, the expanded text plus "\n"; too few arguments raise IndexError |
| StateMachine.WritePlain | app/machine/model.py:491 | a text without placeholders is written as it is |
| StateMachine.ReplaceSole | app/machine/model.py:479-480 | replacing a `$`-led pattern that occurs once replaces just that occurrence |
| StateMachine.WriteOnePositional | app/machine/model.py:479-480 | the positional placeholder becomes `argv[1]` |
| StateMachine.WriteIfElseAsWritten | app/machine/model.py:501-536 | as written: with the element present, `write` receives the string's characters |
| StateMachine.WriteIfElse | app/machine/model.py:501-536 | corrected: the values are written as one text when the element is present, the default otherwise |
| StateMachine.WriteIfElseDefault | app/machine/model.py:530-532 | on a timeout the default is written as a line |
| StateMachine.WriteIfElseLosesText | app/machine/model.py:524 | with "ab", as written the line is "a", corrected "ab" |
| StateMachine.Perform | app/machine/model.py:59 | as written: the action runs by name; `write` is `Write`, `write_if_else` the as-written `WriteIfElseAsWritten`; an unknown name raises AttributeError |
| StateMachine.PerformIntended | app/machine/model.py:59 | corrected: `write_if_else` runs the corrected `WriteIfElse`, every other action as written; actions and counter kept and the deeds only grow |
| StateMachine.Next | app/machine/model.py:53-66 | runs the action at the counter, then advances; returns False exactly at the last action, which rewinds to 0; the counter stays valid |
| StateMachine.Steps | app/machine/model.py:53-66 | n calls give n answers and keep the actions |
| StateMachine.CycleFromCounter | app/machine/model.py:53-66 | from any counter, True until the end of the cycle, then False and back at 0 |
| StateMachine.Cycle | app/machine/model.py:53-66 | a whole cycle: `len - 1` times True, then False, back at the first action |
| StateMachine.ExitAsWritten | app/machine/model.py:50-51 | as written, leaving with unsaved text raises AttributeError and writes nothing |
| StateMachine.Exit | app/machine/model.py:50-51 | corrected: unsaved text goes to the file |
| StateMachine.MakeWriteFlush | app/machine/model.py:366-407 | `make_file`, a plain `write` and `flush` give the file exactly that line and leave the stream empty |

## Left out

- File and directory I/O is not modelled:
  - journal discovery with `rglob`, `open` and `json.load`;
  - the cache keys and CSV writing of `utils.py`;
  - the bodies of `respond` and `save`, and the file bodies of `flush`, `open_file` and `close_file`.

  The decoders take an already decoded JSON value. The stream operations
  record a `Wrote` deed, and a file's content is an oracle.
- Selenium is not modelled: `ActionChains`, `WebDriverWait` and element
  look-ups are page oracles, and an action is a record of what was done.
  Sleeps and durations are recorded, not timed.
- Logging, e-mail, timezone conversion, the web and rq plumbing, and the UI
  are not modelled, because they carry no interpreter logic.
- `json.dumps`, `str()` of dicts and lists, `int()` and `float()` are
  oracles, whose only modelled property is whether they succeed.
- The sigils and configuration tables are parameters, because their
  defining modules are not part of this model:
  - `EXPECTED_CONDITIONS`, `SPECIAL_KEYS` and `DEFAULT_STRING_FORMAT`;
  - the find patterns of the sequence worker;
  - the machine's positional and element patterns.
- `parse_task` and `parse_task_response` are not part of this model. The
  ina job and the agent therefore take the formatter as a parameter; the
  queue and the controller use `parse_job`.
- The builders call `ina.Job(uid, browser=browser)`,
  `handler.push(task, elut=lut, trace=False)` and `handler.deploy(receipt)`.
  The `Job` of `job.py` takes no arguments, has `push(key, fmt, lut)`, and
  has no `deploy`. The builders' result is therefore the plan they ask for,
  recorded with its receipt as `Deployed(receipt, plan)`, and is not run
  through `InaJob`. The `trace=False` of a swap is the request's `quiet`
  flag.
- `next_argv_key` is called at worker.py:515 but is missing from
  app/backend/webauto/models/utils.py, which defines only `next_dict_key`.
  `Step` and `Run` therefore fail on `printf` as written (see Findings).
  The intended rule, the first missing or empty `${n}` counting from 1, is
  taken from the worker's tests and used by `StepIntended` and
  `RunIntended`.
- The ina job calls `driver.key()` and `driver.run()`, which the driver
  defines as `taskkey()` and `exec()`. The queue calls `get_key` and
  `load` on the worker, which defines them as `key` and `assign`. Both
  pairs are taken as the same operations.
- The state after a failure is not modelled: a failure carries only its
  error. This matters where Python keeps partial progress, such as popped
  entries and partial results.
- Python `==` between True and 1, and hash order, are not modelled. A sort
  key is a string or a number, with booleans taken as 0 and 1.
- Batch.SortRows: list keys raise TypeError in the model, while Python
  orders two lists item by item. Keys of mixed kinds raise TypeError as in
  Python, since a sort compares every pair of neighbours in its output.
- Batch.ScanPlan: the order by user is stated on the rows, in
  `SortRows`, and not on the requests, because a row's own `lut` may
  override the `usrId` its request carries.
- Batch.CreateScan: likewise, the order by user is stated on the rows
  and not on the plan's requests.
- TaskDefs.ParseTask: a document whose `env` or `name` is not a string is
  rejected with TypeError. Python builds a `Key` of any two values, but the
  model's keys are pairs of strings.
- WebFormat.DecodeSequence: likewise, a non-string `name` or `env` is
  rejected with TypeError.
- WebFormat.ParseSequence: likewise, a non-string `name` or `env` is
  rejected, reported as IndexError.
- Text.Lower: only the ASCII letters are lower-cased. Python's
  `str.lower` is Unicode-aware.
- Text.IsDigits: only the ASCII digits count. Python's `str.isdigit` is
  Unicode-aware, so `"²".isdigit()` is True, and the later `int("²")`
  raises ValueError.
- Floating-point numbers are not modelled. JSON numbers are integers, and
  `float()` is an oracle that says only whether a string parses.
- `getattr` dispatch reaching non-command methods (for example `reset`
  named as a command) is treated as an unknown command.
- The machine's browser actions (`get_page`, `get_elem`, `get_elems`,
  `click_elem`, `double_click_elem`, `send_keys_elem`, `send_keys`) are
  one oracle. Their timeouts are part of that oracle.
- WebQueue.Save: only the text is modelled. It has no contract, because
  the file write is its whole effect.
- `app/parser.py`, `app/model.py`, `app/machine.py`, `app/controller.py`
  and `app/backend/*` outside `webauto` are thin wrappers over other
  libraries, and are not part of this model.
- The `ArgvKey` of the ina driver reuses a slot that holds the empty
  string, as the code does. This differs from a reading under which a slot
  is skipped whenever it exists.

## Findings

The builders, `scan`, `printf` and `next` are modelled as written. Each row below also
names the companion member that proves the evidently intended behaviour.

| source | as written | input that shows it | evidently intended | confidence | as-written member | corrected member |
|---|---|---|---|---|---|---|
| project/server/tasks/__init__.py:99-110 | `prev_id = curr_id` runs for every row, also for rows whose task does not exist and which push nothing | two rows of user u, the first naming a missing task and the second an existing one, starting with the session at another user: the second task runs with no swap | advance `prev_id` only after pushing a task, so every task runs under its row's user | not executed | Batch.AsWrittenSkipsSwap | Batch.CreateJobIntended |
| app/backend/webauto/models/worker.py:170-171 | a list entry is rendered as `", ".join(str(value))`, which joins the characters of the printed list | table `{"k": ["ab"]}`: `scan("${k}")` gives "[, ', a, b, ', ]" | join the list's items, giving "ab", as the ina driver does | not executed | WebWorker.ScanListAsWritten | WebWorker.ScanIntended |
| app/backend/webauto/agent.py:128 | `respond` tests `filepath` before anything assigns it | any `exec` whose drain succeeds raises UnboundLocalError | write the report to a default path | not executed | WebAgent.ExecAsWritten | WebAgent.Exec |
| app/machine/model.py:524 | `write_if_else` passes the string `values` where `write` expects a list | element present, values "ab": the line written is "a" | `write([values])`, writing "ab" | not executed | StateMachine.WriteIfElseLosesText | StateMachine.PerformIntended |
| app/machine/model.py:50-51 | `__exit__` calls `self.close()`, which the machine does not define | a machine with a path and unsaved text: leaving raises AttributeError and the text is lost | call `close_file` | not executed | StateMachine.ExitAsWritten | StateMachine.Exit |
| app/backend/webauto/models/worker.py:515 | `printf` calls `utils.next_argv_key`, which models/utils.py does not define | any sequence holding a `printf` command: the run raises AttributeError | store the text in the first missing or empty `${n}`, counting from 1 | not executed | WebWorker.RunStopsAtPrintf | WebWorker.Printf |
