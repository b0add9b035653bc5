# A verified model of the PPD-MOM word counter

PPD-MOM counts whole-word occurrences of a list of words in a text file, using a
message broker. Its parts:

- **Coordinator** (`SistemaMOM`). It reads a file path and a comma-separated word field. It stops the
  threads of the previous run and starts the rest.
- **Monitor** (`MonitorResultado`). It subscribes to the results topic.
- **Workers** (`ProcessadorPalavras`, ids 1 to 4). They consume lines from a queue.
- **Producers** (`ProdutorLinhas`). Two of them are started after a delay: `PARES` publishes the
  even-numbered lines and `IMPARES` the odd ones.

For every occurrence of a word in a line, a worker publishes one map message
(term, 1, worker id). The monitor merges these messages into a map from word to count. It renders that map
as a statistics panel with a grand total.

The model is written in Dafny, one module per part of the program:

| module | file | models |
|---|---|---|
| `JavaText` | java_text.dfy | `String.trim`, `String.split(",")`, ASCII word characters and case folding |
| `WordMatch` | word_match.dfy | `contarNoTexto`: the `\b`-quoted, case-insensitive pattern and the `find()` loop, as a scan over characters |
| `Messages` | messages.dfy | work items, result events, incoming messages |
| `Worker` | worker.dfy | `processarLinha` and the `TextMessage` filter of the worker listener |
| `Monitor` | monitor.dfy | the seed map, `merge(termo, qtd, Integer::sum)`, the listener, `atualizarTela` |
| `Producer` | producer.dfy | `TipoLeitura`, the line counter and parity test, the `(int)` cast, `run()` |
| `Coordinator` | coordinator.dfy | `iniciarOuReiniciarSistema` and `pararThreadsAntigas` as a state machine over thread handles |
| `Pipeline` | pipeline.dfy | the whole run: producers, any assignment of lines to workers, any delivery order at the monitor |
| `PipelineExample` | pipeline_example.dfy | a worked example: a four-line file with the words Java and Python, end to end |

## Assumptions

- **Word characters.** They are the ASCII class `[A-Za-z0-9_]`. Case folding is ASCII only.
  - `CASE_INSENSITIVE` without `UNICODE_CASE`, as `ProcessadorPalavras.java:106` compiles it, folds ASCII letters only, which is what the model does.
  - Java's `\b` has the same ASCII word class from JDK 19 on, when `UNICODE_CHARACTER_CLASS` is not set, as here. Up to JDK 18 it also counted non-ASCII letters and digits as word characters, so on those versions the model agrees with the program on ASCII text only.
- **A run** (`Pipeline.IsRun`) is any execution in which two things hold:
  - The queue hands every published line to some worker exactly once.
  - The topic hands every published event to the monitor exactly once.

  Both can happen in any order. The broker's delivery guarantees are taken as given.
- **Thread handles.** A handle's `alive` flag is turned off by `Finish`, which stands for the thread ending on its own. The moment a handle is interrupted and ends is abstracted away: `Stop` drops all handles from the list.

## Behaviour worth knowing

- **Word list.** The field is split on commas, and the pieces are not trimmed (`SistemaMOM.java:77`).
  - Only the monitor's seed keys are trimmed (`MonitorResultado.java:27`). The workers search for, and publish, the untrimmed pieces.
  - So with the field `Java, Python`, the key `Python` is seeded but never counted. The workers publish the term `" Python"`, and they find `" Python"` only where its leading blank follows a word character. See `Pipeline.BlankAfterCommaNeverCounts` and `WordMatchExamples.LeadingBlankTarget`.
- **Map keys.** The seeded keys are not the only ones: `merge` adds any term it receives as a new key (`MonitorResultado.java:54`), and the model does the same (`Monitor.Merge`).
  - In a run the only new keys are untrimmed words of the list (`Pipeline.FinalKeysAreWords`).
- **Restart.** The comment at `SistemaMOM.java:67` says the previous run's threads are interrupted to avoid conflicts. The delayed producer launch is not among them, so a restart inside the launch delay leaves two runs' producers running (see Findings).

## Model

| member | source | states |
|---|---|---|
| JavaText.Trim | MOM/src/br/edu/ifce/ppd/mom/componentes/MonitorResultado.java:27 | the result is a contiguous piece of the input whose two ends are above `' '`; everything removed before and after it is `<= ' '` |
| JavaText.TrimIdempotent | MOM/src/br/edu/ifce/ppd/mom/componentes/MonitorResultado.java:27 | trimming twice is trimming once |
| JavaText.Split | MOM/src/br/edu/ifce/ppd/mom/app/SistemaMOM.java:77 | `split(",")`: with no comma the whole string is the only piece; otherwise the comma-separated pieces in order, with only trailing empty pieces dropped and the last kept piece non-empty |
| JavaText.JoinSplitAll | MOM/src/br/edu/ifce/ppd/mom/app/SistemaMOM.java:77 | the pieces, rejoined with commas, give back the field exactly: nothing is trimmed or lost |
| JavaText.SplitAllJoin | MOM/src/br/edu/ifce/ppd/mom/app/SistemaMOM.java:77 | splitting comma-free pieces joined by commas gives back those pieces |
| JavaTextExamples.SplitKeepsBlanks | MOM/src/br/edu/ifce/ppd/mom/app/SistemaMOM.java:77 | `"Java, Python"` splits into `"Java"` and `" Python"`, and only trimming turns the latter into `"Python"` |
| JavaTextExamples.SplitDropsOnlyTrailingEmpties | MOM/src/br/edu/ifce/ppd/mom/app/SistemaMOM.java:77 | `"a,,b,,"` splits into `"a"`, `""`, `"b"`: inner empty pieces stay, trailing ones go |
| JavaTextExamples.SplitDegenerateInputs | MOM/src/br/edu/ifce/ppd/mom/app/SistemaMOM.java:77 | `","` splits into nothing, `""` into one empty piece |
| WordMatch.FindFrom | MOM/src/br/edu/ifce/ppd/mom/componentes/ProcessadorPalavras.java:106-108 | one `find()`: the leftmost whole-word, case-insensitive match at or after the start, or none when no position matches |
| WordMatch.MatchPositions | MOM/src/br/edu/ifce/ppd/mom/componentes/ProcessadorPalavras.java:107-108 | every reported position is a match at or after the start, and each starts no earlier than where the one before resumed (no overlaps) |
| WordMatch.MatchPositionsGreedy | MOM/src/br/edu/ifce/ppd/mom/componentes/ProcessadorPalavras.java:107-108 | every match the loop does not report begins strictly inside a reported one |
| WordMatch.GreedyScanCharacterizes | MOM/src/br/edu/ifce/ppd/mom/componentes/ProcessadorPalavras.java:107-108 | a sequence of positions is what the loop reports if and only if it is a left-to-right non-overlapping greedy selection of matches |
| WordMatch.MatchAtIgnoresCase | MOM/src/br/edu/ifce/ppd/mom/componentes/ProcessadorPalavras.java:106 | whether a match occurs at a position does not depend on ASCII case in the text or in the target |
| WordMatch.CountIgnoresCase | MOM/src/br/edu/ifce/ppd/mom/componentes/ProcessadorPalavras.java:102-109 | texts and targets equal up to ASCII case give the same count |
| WordMatch.WholeWordMatch | MOM/src/br/edu/ifce/ppd/mom/componentes/ProcessadorPalavras.java:106 | for a target that begins and ends with a word character, a match is exactly a case-insensitive copy that no word character touches on either side |
| WordMatch.CountByScan | MOM/src/br/edu/ifce/ppd/mom/componentes/ProcessadorPalavras.java:102-109 | the `while (m.find()) count++` loop returns 0 for a null text or target, and otherwise the number of positions of the greedy scan |
| WordMatchExamples.GoCountsOnceBesideGolang | MOM/src/br/edu/ifce/ppd/mom/componentes/ProcessadorPalavras.java:106 | `Go` is found once in `Golang and Go are different`: the prefix of `Golang` is not a word match |
| WordMatchExamples.JavaMatchesIgnoringCase | MOM/src/br/edu/ifce/ppd/mom/componentes/ProcessadorPalavras.java:106 | `java` is found once in `Java is great` |
| WordMatchExamples.DotIsLiteral | MOM/src/br/edu/ifce/ppd/mom/componentes/ProcessadorPalavras.java:106 | the quoted `.` matches a dot and not any other character |
| WordMatchExamples.LeadingBlankTarget | MOM/src/br/edu/ifce/ppd/mom/componentes/ProcessadorPalavras.java:106 | the target `" Python"` is never found in `Java, Python` but is found in `I use Python` |
| WordMatchExamples.EmptyTargetCountsBoundaries | MOM/src/br/edu/ifce/ppd/mom/componentes/ProcessadorPalavras.java:106-108 | an empty target is found at every word boundary of the text, and the loop steps past each empty match |
| WordMatchExamples.OverlappingMatchesCountOnce | MOM/src/br/edu/ifce/ppd/mom/componentes/ProcessadorPalavras.java:107-108 | in `a a a` the target `a a` matches at 0 and at 2, yet is counted once |
| Worker.ProcessLine | MOM/src/br/edu/ifce/ppd/mom/componentes/ProcessadorPalavras.java:78-96 | one event per occurrence of each target, each carrying that target, the value 1 and the worker's id |
| Worker.ProcessLineConcat | MOM/src/br/edu/ifce/ppd/mom/componentes/ProcessadorPalavras.java:79 | the targets are handled one after the other: the events for a concatenated list are the events for each part, in order |
| Worker.ProcessLineTermTotal | MOM/src/br/edu/ifce/ppd/mom/componentes/ProcessadorPalavras.java:78-96 | the events for a term add up to its occurrences in the line times the number of times it is listed |
| Worker.OnMessage | MOM/src/br/edu/ifce/ppd/mom/componentes/ProcessadorPalavras.java:45-55 | any message other than a text message publishes nothing; a text message publishes exactly the events `processarLinha` publishes for its line (so `Worker.ProcessLineTermTotal` and `Worker.ProcessLineConcat` apply), one unit event per occurrence |
| Monitor.Seed | MOM/src/br/edu/ifce/ppd/mom/componentes/MonitorResultado.java:26-28 | the keys are exactly the trimmed words of the list, all at 0 |
| Monitor.SeedTotal | MOM/src/br/edu/ifce/ppd/mom/componentes/MonitorResultado.java:26-28 | the seeded map totals 0 |
| Monitor.Merge | MOM/src/br/edu/ifce/ppd/mom/componentes/MonitorResultado.java:54 | the term becomes a key; its count grows by the quantity, or starts at it for a new term; every other key keeps its count |
| Monitor.MergeTotal | MOM/src/br/edu/ifce/ppd/mom/componentes/MonitorResultado.java:54 | a merge raises the grand total by exactly the merged quantity |
| Monitor.MergeCommutes | MOM/src/br/edu/ifce/ppd/mom/componentes/MonitorResultado.java:54 | two merges give the same map in either order |
| Monitor.Receive | MOM/src/br/edu/ifce/ppd/mom/componentes/MonitorResultado.java:45-63 | a map message adds its quantity to its own term's count (starting it at the quantity for a new term), leaves every other key's count alone and raises the total by the quantity; any other message changes nothing |
| Monitor.FoldContents | MOM/src/br/edu/ifce/ppd/mom/componentes/MonitorResultado.java:45-63 | after a sequence of events a term is a key if and only if it was seeded or some event carried it, and its count is its seed plus the quantities of its events |
| Monitor.FoldTotal | MOM/src/br/edu/ifce/ppd/mom/componentes/MonitorResultado.java:45-63 | after a sequence of events the grand total has grown by the sum of their quantities |
| Monitor.UnitEventsTotal | MOM/src/br/edu/ifce/ppd/mom/componentes/MonitorResultado.java:45-63 | from the seed, unit events bring the grand total to the number of events received |
| Monitor.FoldPermutation | MOM/src/br/edu/ifce/ppd/mom/componentes/MonitorResultado.java:54 | the final map does not depend on the order in which the events arrive |
| Monitor.SumInOrderIsSumOver | MOM/src/br/edu/ifce/ppd/mom/componentes/MonitorResultado.java:92-94 | adding the values in any duplicate-free order of the keys gives the sum over the key set |
| Monitor.Snapshot | MOM/src/br/edu/ifce/ppd/mom/componentes/MonitorResultado.java:83-102 | the panel is a header, one row per key with its count and no key twice, a divider, and the grand total of the map |
| Producer.ToInt32 | MOM/src/br/edu/ifce/ppd/mom/componentes/ProdutorLinhas.java:71 | the `(int)` cast gives the 32-bit value congruent to the counter modulo 2^32, unchanged below 2^31 |
| Producer.ToInt32KeepsParity | MOM/src/br/edu/ifce/ppd/mom/componentes/ProdutorLinhas.java:62-71 | the cast line number has the parity of the counter that selected the line |
| Producer.ProduceSelectsByParity | MOM/src/br/edu/ifce/ppd/mom/componentes/ProdutorLinhas.java:55-77 | `PARES` publishes exactly lines 2, 4, 6, ... and `IMPARES` exactly lines 1, 3, 5, ..., each with its own text, in file order |
| Producer.PartitionIsExact | MOM/src/br/edu/ifce/ppd/mom/componentes/ProdutorLinhas.java:62-64 | together the two producers publish every line of the file exactly once, and no item is published by both |
| Producer.ProducePrefix | MOM/src/br/edu/ifce/ppd/mom/componentes/ProdutorLinhas.java:57-77 | what a producer publishes before stopping early is a prefix of what it publishes over the whole file |
| Producer.ProduceInFileOrder | MOM/src/br/edu/ifce/ppd/mom/componentes/ProdutorLinhas.java:55-76 | below 2^31 lines the published line numbers increase strictly and each item's text is the line with that number |
| Producer.LinesRead | MOM/src/br/edu/ifce/ppd/mom/componentes/ProdutorLinhas.java:57-59 | the loop reads lines up to the first one at which the interrupt flag is seen, and all lines when it is never set |
| Producer.Run | MOM/src/br/edu/ifce/ppd/mom/componentes/ProdutorLinhas.java:32-79 | a missing file logs start and error and publishes nothing; otherwise the selected lines among those read before an interrupt are published, and start and end are logged |
| Coordinator.AliveRoles | MOM/src/br/edu/ifce/ppd/mom/app/SistemaMOM.java:117-121 | the threads interrupted are those still alive: a role is listed if and only if some alive handle carries it, and it is listed once for every alive handle carrying it |
| Coordinator.Stop | MOM/src/br/edu/ifce/ppd/mom/app/SistemaMOM.java:114-126 | the handle list is emptied while pending producer launches survive |
| Coordinator.StopInterruptsExactlyAlive | MOM/src/br/edu/ifce/ppd/mom/app/SistemaMOM.java:117-121 | a role is interrupted if and only if some handle carrying it is alive, and once per alive handle carrying it |
| Coordinator.Start | MOM/src/br/edu/ifce/ppd/mom/app/SistemaMOM.java:58-109 | an empty field changes nothing; otherwise the old handles are stopped, the list becomes the monitor followed by workers 1 to 4 on the split word list, and one more producer launch is pending |
| Coordinator.Launch | MOM/src/br/edu/ifce/ppd/mom/app/SistemaMOM.java:95-106 | a pending launch adds a `PARES` and then an `IMPARES` producer on its path to the list, and is no longer pending |
| Coordinator.Finish | MOM/src/br/edu/ifce/ppd/mom/app/SistemaMOM.java:118 | a thread ending on its own is no longer alive; nothing else changes |
| Coordinator.RestartWhenSettledLeavesSeven | MOM/src/br/edu/ifce/ppd/mom/app/SistemaMOM.java:58-109 | a restart with no launch pending, followed by its launch, leaves exactly one monitor, workers 1 to 4 and one producer of each parity |
| Coordinator.RestartDuringDelayDuplicatesProducers | MOM/src/br/edu/ifce/ppd/mom/app/SistemaMOM.java:95-106 | two restarts within the launch delay leave both launches pending; once they fire there are nine handles and two `PARES` producers |
| Coordinator.SharedRoleInterruptedTwice | MOM/src/br/edu/ifce/ppd/mom/app/SistemaMOM.java:117-121 | two alive threads with the same role are both interrupted by the next stop |
| Coordinator.RestartAfterDelayInterruptsBothProducers | MOM/src/br/edu/ifce/ppd/mom/app/SistemaMOM.java:95-126 | after two restarts on the same file within the launch delay, the next restart interrupts at least two `PARES` producers on that file |
| Coordinator.StartFixed | MOM/src/br/edu/ifce/ppd/mom/app/SistemaMOM.java:58-109 | the corrected restart: after it, only the monitor and the workers are listed and only the new launch is pending |
| Coordinator.RestartFixedYieldsOneOfEachRole | MOM/src/br/edu/ifce/ppd/mom/app/SistemaMOM.java:58-109 | with the corrected restart, from any state, the launch leaves exactly one instance of each role, and restarting again is idempotent |
| Pipeline.CountsAreOrderIndependent | MOM/src/br/edu/ifce/ppd/mom/componentes/MonitorResultado.java:54 | in any run, whatever the assignment of lines to workers and the delivery order, a word's final count is its occurrences in the file times how often it is listed |
| Pipeline.GrandTotal | MOM/src/br/edu/ifce/ppd/mom/componentes/MonitorResultado.java:92-94 | in any run the grand total equals the occurrences of all listed words over all lines of the file |
| Pipeline.FinalKeysAreWords | MOM/src/br/edu/ifce/ppd/mom/componentes/MonitorResultado.java:54 | in any run every final key is a seeded trimmed word or an untrimmed word of the list |
| Pipeline.BlankAfterCommaNeverCounts | MOM/src/br/edu/ifce/ppd/mom/componentes/MonitorResultado.java:27 | with the field `Java, Python`, the key `Python` is shown but stays at 0 in every run |
| PipelineExample.JavaPythonScenario | MOM/src/br/edu/ifce/ppd/mom/componentes/MonitorResultado.java:45-63 | for the file `Java code` / `Python code` / `Java and Python` / `nothing here` with words Java and Python, every run ends with exactly the keys Java at 2 and Python at 2, total 4 |

## Left out

- The message broker, JMS connections, sessions, queues, topics and acknowledgements are not modelled. Only their effect is kept: lines reach workers and events reach the monitor, each exactly once, in any order.
- Threads are not modelled: `wait`, interrupts in flight, `Thread.sleep(1000)` and `Thread.sleep(500)`. The coordinator is a state machine, and the pending launch stands for the sleeping launcher thread.
- `ConcurrentHashMap`'s atomic updates under concurrent listeners are not modelled. Merges are applied one at a time, in delivery order.
- The GUI is not modelled: log lines of the workers and the monitor, the dialog for empty fields, the dashboard's visibility, `limparTela` and the button label. Producer log lines are kept.
- `String.format("%-15s : %d")` padding is not modelled. The panel is a list of structured lines.
- JMS and I/O exceptions are not modelled. This covers `JMSException` in any listener, a broken connection, and a file that exists but cannot be read. The producer opens its connection before it checks that the file exists, so a broker failure hides the missing-file message. That ordering is not modelled either.
- A map message without `termo`, or whose `ocorrencias` is not an int, is not modelled. Workers never publish one.
- The Java regular-expression engine and its Unicode character classes are not modelled. `WordMatch` specifies the quoted, case-insensitive `\b...\b` pattern directly over characters, with ASCII word characters.
- JavaText.IsWordChar: only ASCII letters, digits and `_` are word characters, and case folding is ASCII only. This matches `\b` from JDK 19 on. Up to JDK 18, `\b` also treated non-ASCII letters and digits as word characters.
- Monitor.Merge: counts are unbounded integers. `Integer::sum` wraps around at 2^31, which would take more than 2^31 events for one word.
- Monitor.Snapshot: the `int` grand total is unbounded and so does not wrap around. The key order of `ConcurrentHashMap.forEach` is a parameter, required only to list each key once.
- Producer.ProduceInFileOrder: stated for files of fewer than 2^31 lines. Beyond that the `(int)` cast wraps around and numbers stop increasing. Parity is still proved for every line (`Producer.ToInt32KeepsParity`).
- Reading the file is a parameter of `Producer.Run`: the file's lines, or none when it is missing. The interrupt flag is a parameter too: the line number from which it is seen.
- `PainelDashboard`, `ConfiguracaoJMS` and `main` are not part of this model.

## Findings

| source | as written | input that shows it | evidently intended | confidence | as-written member | corrected member |
|---|---|---|---|---|---|---|
| MOM/src/br/edu/ifce/ppd/mom/app/SistemaMOM.java:95-106 | the producers are launched by a separate thread that sleeps 1000 ms, ignores interruption, and is never added to `threadsAtivas`; `pararThreadsAntigas` cannot cancel it | press Start with file `a.txt`, then press it again with `b.txt` within one second: both launchers fire, leaving nine handles, with a `PARES` producer on `a.txt` beside the one on `b.txt` | a restart cancels pending launches, leaving exactly one monitor, four workers and one producer of each parity | not executed | Coordinator.RestartDuringDelayDuplicatesProducers | Coordinator.RestartFixedYieldsOneOfEachRole |
