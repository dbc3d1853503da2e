# Verification of logos-chat-module

A Dafny model of the chat module's stateful parts, and proofs about every run of them:

- **The display and `chat.db`** (`Persistence`, `Actions`, `ActionLaws`, `ChatRuns`, `ChatTheorems`, `ChatCards`). The
  display is a cache written through to a database. `Actions.Display` and `Persistence.ChatDb` are classes whose methods
  are the source's lock sections; each is proved against a function on values (`AfterSend`, `AfterDelete`, …), and
  `ChatRuns` interleaves those same functions into runs of API calls, inbound events, shutdowns, crashes and re-inits,
  each write free to fail. `ActionLaws` says field by field what each operation does, `ChatCards` what a chat is over a
  whole run, told without display or store.
- **The delivery lifecycle** (`Delivery`, `DeliveryRuns`, `DeliveryTheorems`). Bootstrap chains with their calls and
  answers in flight, the bridge and its subscription queue, retries, shutdowns and callbacks that come late.
- **The locks** (`Locks`). Any number of callers and callbacks, a bridge and an event consumer for each init, and a line
  to log at any point of any of them.
- **The LIDL front end** (`LidlLexer`, `LidlSpelling`, `LidlAgreement`, `LidlLines`, `LidlParser`, `LidlRoundTrip`,
  `LidlGrammar`, `LidlTable`, `LidlErrors`, `LidlFrontEnd`). The comment stripper, tokenizer and cursor parser of
  `docs/lidl2rst.py`, the characters and the grammar they accept, the token an error is about, and the round trip with
  the printer.
- **Two bounded structures**: the duplicate filter (`SeenMessages`) and the run log (`RunNames`, `RunLog`, `Pruning`,
  `RunOpening`).

`dafny verify dfyconfig.toml` checks the project.

## Hypotheses

- API calls are serialised, as the contract's trait takes `&mut self`: no other call runs during `init` or `shutdown`.
  `shutdown` releases the module lock before it resets the display, so without this an `init` could run in between.
- An id the client returns from a `create` call is neither shown nor buried when it is inserted (`ChatRuns.Fresh`).
  The insert overwrites what it finds; `CreateAgreesIffUnused` says exactly which ids keep display and store together.
- What runs under a lock neither calls back into the module nor waits for one of its threads: `emit_*` and the database
  calls under the display lock, libchat's calls under the module lock. `Locks.Section` has nothing awaited inside it.
- The client may deliver any event of any conversation once its consumer runs, a message without a start before it
  included (the case `rust-lib/src/actions.rs:836-853` allows for). Only a group's start waits for `initialize` to end.
- A transaction happens whole or not at all. The message store appends, returns a chat's last *n* messages oldest
  first, counts them, and forgets a chat's messages when it is deleted.
- delivery_module creates a node only while it has none, answers `getNodeInfo` only while it has one, and its answer
  to `createNode` says whether it created. The node stays until delivery_module's process ends.
- No other process writes, renames or removes the run's log files, and none bears one of the run's rotation names when
  it opens.

## Where the code and its comments part

- **A message can be announced and lost.** `initialize` starts its workers (`rust-lib/src/actions.rs:186-194`) before
  it seeds the display (`rust-lib/src/actions.rs:198-204`). A message handled in between finds no database
  (`rust-lib/src/actions.rs:425`), is announced all the same (`rust-lib/src/actions.rs:866-871`), is stored nowhere, and
  the seeding overwrites the chat it was shown in; `rust-lib/src/persistence.rs:11-16` has every mutation write its rows.
  `EveryMessageIsKept` says that such a message is the only way to lose one; `AnEarlyMessageIsLost` is a run with it.
- **Deleted chats can be shown and announced again**, by an event handled in that same interval, which meets an empty
  tombstone set. `rust-lib/src/actions.rs:817` and `rust-lib/src/persistence.rs:123-124` say such events are dropped.
  `TombstonesArePermanent` states when a deleted chat is announced and when it is shown, each as an equivalence;
  `AnEarlyInviteExhumes` is a run where both happen. No row or message of it is ever stored, and the seeding takes it
  off the display.
- **A reported start can be unmade** by that same seeding, when it belongs to a bootstrap left over from before a
  shutdown (`AnEarlyStartIsUnmade`). From the seeding on, `started` does stay.
- **The announced log path is not always the file being written**, as `rust-lib/src/logging.rs:255-256` has it.
  `AnnouncedFromTheOpening`: it is exactly when the run's own pruning kept its file and no append has filled the file,
  moved it aside and then failed to open another. Otherwise it names no file for the rest of the run
  (`AMissingPathStaysMissing`); `AFailedReopenLosesThePath` is a run of the second kind.
- **A run can delete the log it has just opened.** `rust-lib/src/logging.rs:290` has it kept because pruning comes after
  the opening; pruning goes by stamps in local time, and deletes the file when ten runs in the directory sort above it
  (`OpeningKeepsItsFileIff`). Nothing the run writes is then in the directory. `AClockStepBackLosesTheLog`: ten runs, and
  a clock that steps back.
- **The event consumer waits on the client lock**, when it reads a started group's metadata
  (`rust-lib/src/actions.rs:756`, `Locks.GROUP_STARTED`); `rust-lib/src/module.rs:18-20` says it never does.
- **Rotations past 999 are nobody's**: `stamp_of` takes three digits, so pruning never removes them
  (`RotationIsOursIff`). It takes ten million lines to get there (`EveryFileCarriesTheStamp`), and
  `AThousandRotationsLeaveTheRun` is a run that does.

## Model

| member | source | states |
|---|---|---|
| Persistence.ChatDb.SaveChat | rust-lib/src/persistence.rs:188-208 | The chat's row replaces what the table held for it; a refused write changes no table |
| Persistence.ChatDb.RecordMessage | rust-lib/src/persistence.rs:212-223 | The message, and the row when given, are written together or not at all |
| Persistence.ChatDb.DeleteChat | rust-lib/src/persistence.rs:226-235 | Row, messages and tombstone change together or not at all |
| Persistence.ChatDb.SaveInstallationName | rust-lib/src/persistence.rs:238-251 | The override is set or cleared, or nothing changes |
| Persistence.ChatDb.LoadState | rust-lib/src/persistence.rs:139-185 | Reads every row back with its newest 500 messages and a count of the rest, the tombstones and the name |
| Actions.Display.MarkHistory | rust-lib/src/actions.rs:159-161 | Every loaded chat is live exactly when the client holds it |
| Actions.Display.Load | rust-lib/src/actions.rs:152-161 | The loaded state is a function of the database and the client's conversations alone |
| Actions.Display.Seed | rust-lib/src/actions.rs:198-204 | The display shows what was loaded, whatever it held |
| Actions.Display.Reset | rust-lib/src/actions.rs:361 | The display is the default one and has no connection; the database is untouched |
| Actions.Display.PersistChat | rust-lib/src/actions.rs:377-382 | Fails without connection or chat, and otherwise as the write does |
| Actions.Display.Create | rust-lib/src/actions.rs:481-508 | The chat is shown even when its write fails; it is announced only when the write succeeds |
| Actions.Display.CreateConversation | rust-lib/src/actions.rs:474-508 | Shows a direct chat with its peer, no message and no label |
| Actions.Display.CreateGroupConversation | rust-lib/src/actions.rs:514-549 | Shows a group with its name and description unless empty, in memory and row, and announces them as given |
| Actions.Display.CheckLive | rust-lib/src/actions.rs:436-442 | Succeeds exactly for a chat of this session; each failure names its reason |
| Actions.Display.RecordMessage | rust-lib/src/actions.rs:417-431 | The list takes the message even when the write fails, and nothing happens for a chat that is gone |
| Actions.Display.RecordSent | rust-lib/src/actions.rs:654-662 | A sent message is recorded in its chat and announced only when recording does not fail |
| Actions.Display.SetNickname | rust-lib/src/actions.rs:665-677 | The label of a shown chat is none for the empty string and else what was given, in memory and, once written, in the row; nothing else of any chat changes, and it is announced only when written |
| Actions.Display.DeleteConversation | rust-lib/src/actions.rs:679-692 | Rows go before memory: a refused write leaves the chat in place |
| Actions.Display.SetInstallationName | rust-lib/src/actions.rs:446-454 | Memory changes only after the write succeeded; then both bear the name given, or none for the empty string |
| Actions.Display.RecordConversationStarted | rust-lib/src/actions.rs:770-810 | Ignored under a tombstone; revives a history-only chat; otherwise shows, announces and saves a chat with exactly the kind, name and description given, no label and no peer |
| Actions.Display.RecordMessageReceived | rust-lib/src/actions.rs:825-873 | Ignored under a tombstone; makes up a direct chat for an unknown id; one without a peer takes the sender, in memory and, once written, in the row, and every other chat keeps what it had; records and announces |
| Actions.Display.RecordMembersChanged | rust-lib/src/actions.rs:880-887 | Announced exactly for a shown chat without tombstone |
| ActionLaws.NicknameSets | rust-lib/src/actions.rs:665-677 | A label is what was given, or none for the empty string, in that chat alone, and in its row once written |
| ActionLaws.DeleteBuries | rust-lib/src/actions.rs:679-692 | A deletion that is written takes exactly that chat, its row and its log, leaves its tombstone and is told; any other changes nothing |
| ActionLaws.SendRecords | rust-lib/src/actions.rs:654-662 | A sent message is the chat's last, the client's own, with its text and time, and is stored so |
| ActionLaws.StartedShows | rust-lib/src/actions.rs:770-810 | What an invite does to each field of display, store and events, in each of its four cases |
| ActionLaws.MessageShows | rust-lib/src/actions.rs:825-873 | What a received message does to each field of display, store and events: peer, list, log, row and announcement |
| ActionLaws.EntryShowsTheChat | rust-lib/src/actions.rs:597-618 | A list entry bears its chat's names and counts, and the time and first 160 characters of its last message |
| Sequences.SubsequenceIsEmbedded | rust-lib/src/actions.rs:414-431 | A stored log's messages come from strictly increasing positions of the history: none invented, repeated or reordered |
| ChatRuns.StepAppends | rust-lib/src/actions.rs:414-431 | No step touches a chat's log but to append the message it handled for that chat, or to bury it |
| ChatRuns.WeakIsKept | rust-lib/src/actions.rs:446-454 | Every step keeps what holds whichever writes fail |
| ChatRuns.StrongIsKept | rust-lib/src/actions.rs:474-549 | Every step whose write succeeds keeps display and store in agreement |
| ChatRuns.SeedAgrees | rust-lib/src/persistence.rs:139-185 | What init loads agrees with the store, whatever came before |
| ChatTheorems.WriteThrough | rust-lib/src/actions.rs:665-692 | Over every run with writes succeeding: same ids, rows, tombstones and name, and each list is the newest part of its log, no shorter than 500 or all, with the rest counted |
| ChatTheorems.AnyWriteMayFail | rust-lib/src/actions.rs:679-692 | Over every run, any write failing: logs are subsequences of the history, buried chats leave nothing, no row lacks its session, tombstones and name agree |
| ChatTheorems.EveryMessageIsKept | rust-lib/src/persistence.rs:11-16 | With writes succeeding, the log of a chat not deleted is its whole history, across restarts, if and only if no message of it was handled before a seeding |
| ChatTheorems.AnEarlyMessageIsLost | rust-lib/src/actions.rs:185-204 | A run in which a peer's first message is announced and neither stored nor shown once the display is seeded |
| ChatTheorems.TheListIsTheConversation | rust-lib/src/persistence.rs:253-262 | With writes succeeding, the messages read from an open chat are the newest part of all that was said in it over every session, text, sender and time as said, 500 or more of them or all, and the count the rest, if and only if nothing of it came before a seeding |
| ChatTheorems.RestartSimulates | rust-lib/src/actions.rs:149-161 | After a shutdown or crash and an init, lists, labels, counts, previews and last activity are as before, messages are the newest 500, and history-only is exactly not held |
| ChatTheorems.HistoryEndsWithAnInvite | rust-lib/src/actions.rs:776-782 | A history-only chat goes live by being started again and no other way; none goes back |
| ChatTheorems.StepUnderTombstone | rust-lib/src/actions.rs:825-828 | One step announces a buried chat if and only if it handles its start or message before the seeding |
| ChatTheorems.TombstonesArePermanent | rust-lib/src/persistence.rs:226-235 | After a deletion, no later state of any run has a row or a message of the chat, and no open display shows it; it is shown if and only if an event of it was handled on that display before its seeding, and announced again if and only if that ever happened |
| ChatTheorems.AnEarlyInviteExhumes | rust-lib/src/actions.rs:185-204 | A run in which a deleted chat is shown and announced again |
| ChatTheorems.CreateAgreesIffUnused | rust-lib/src/actions.rs:481-497 | An insert keeps display and store in agreement exactly for an id neither buried nor with stored messages |
| ChatCards.CardsAreKept | rust-lib/src/persistence.rs:11-16 | Over every run with writes succeeding, restarts included: rows are exactly those of the chats heard of and not deleted, and each holds the kind, name and description it was opened with, the label last set, and the peer given or first heard from; an open display shows the same |
| ChatCards.TheLastNameIsKept | rust-lib/src/actions.rs:446-454 | The installation's name kept and shown is the one last set over the whole run, none if that was empty |
| ChatCards.EntriesShowTheConversation | rust-lib/src/actions.rs:597-618 | A list entry is its chat's card and counts and previews all that was said in the chat over every session, unless something came before a seeding |
| ChatCards.SendingIff | rust-lib/src/actions.rs:637-662 | In every state an open run reaches, a message can be sent in an unchecked chat if and only if it is shown and not for its history alone; it is then the last of the list and announced |
| Delivery.DeliveryDisplay.SetDeliveryState | rust-lib/src/actions.rs:709-723 | Sets state and detail, and tells consumers only of a change |
| Delivery.DeliveryDisplay.RecordNodeStarted | rust-lib/src/actions.rs:728-743 | Counts only while a start is awaited and ends the wait: a success is online without a detail and started, a failure an error with its message and no more started than before |
| Delivery.ConnectionReports | rust-lib/src/inbound.rs:226-258 | Once started, either degree of connectivity is online and any other status an error; before, none counts |
| Delivery.ChangesAreTold | rust-lib/src/actions.rs:709-723 | Consumers hear once of a state or detail that is new, with what it is now, and of nothing else |
| Delivery.DeliveryDisplay.DrainNodeStarted | rust-lib/src/inbound.rs:95-109 | While subscribed, pending events are handled each once, oldest first, and consumers told of each change; a dead subscription is given up |
| Delivery.OnlyTheFirstCounts | rust-lib/src/actions.rs:728-743 | However many `nodeStarted`s are pending, only the first counts and is told, and none unless a start is awaited |
| Delivery.DeliveryDisplay.NodeCreated | rust-lib/src/actions.rs:272-282 | A created node is remembered under its preset and its start awaited; a refusal changes nothing and asks for the node that exists |
| Delivery.DeliveryDisplay.NodeLookedFor | rust-lib/src/actions.rs:289-306 | A found node is joined, adopted unless made here with that preset, and its start awaited in silence; without one createNode's reason is the error, told if new |
| Delivery.DeliveryDisplay.HandleConnectionState | rust-lib/src/inbound.rs:226-258 | Connectivity moves the state only once started, an unknown status to error |
| Delivery.DeliveryDisplay.ClaimDeliveryRetry | rust-lib/src/actions.rs:335-343 | True once for an error before the start, which it takes back to initialising |
| Delivery.DeliveryDisplay.CreateFailed | rust-lib/src/actions.rs:304-331 | A refusal with no node to join is an error that carries its reason |
| Delivery.DeliveryDisplay.Initialise | rust-lib/src/actions.rs:201 | Seeding starts the delivery state over and keeps what the process remembers of its node |
| Delivery.DeliveryDisplay.StartFailed | rust-lib/src/actions.rs:314-325 | A failed start ends the wait in error |
| Delivery.Subscriptions.Subscribe | rust-lib/src/delivery.rs:121-128 | Only a missing bridge refuses a request; what was forwarded and what waits stay the accepted requests in order |
| Delivery.Subscriptions.Forward | rust-lib/src/inbound.rs:167-180 | Online, every queued topic is handed on in order; otherwise none |
| DeliveryRuns.ReadinessAlong | rust-lib/src/inbound.rs:244-249 | Every run keeps: online is started, started is online or error, and forwards follow a recorded start |
| DeliveryTheorems.OnlineMeansStarted | rust-lib/src/actions.rs:245-252 | Online only after a start this module waited for, late callbacks included |
| DeliveryTheorems.ASuccessBringsOnline | rust-lib/src/actions.rs:728-743 | A success recorded under an awaited start makes delivery online and started, and forwarding may begin |
| DeliveryTheorems.OnlineFromTheStartOn | rust-lib/src/actions.rs:728-743 | On a seeded display it stays so over every run without a failed call, a lost connection or an end of the session |
| DeliveryTheorems.StartedIsLostBy | rust-lib/src/actions.rs:198-204 | Exactly a shutdown, a process end or a seeding unmakes a start |
| DeliveryTheorems.StartedStays | rust-lib/src/actions.rs:335-343 | From the seeding on, a start stays until shutdown and no retry is claimed after it |
| DeliveryTheorems.AnEarlyStartIsUnmade | rust-lib/src/actions.rs:185-204 | A run in which seeding unmakes a reported start |
| DeliveryTheorems.SubscriptionsAreGated | rust-lib/src/inbound.rs:57-91 | Forwarded then queued topics are those the steps of the run asked of this bridge, in order, and every forward follows a successful nodeStarted recorded by the same bridge |
| DeliveryTheorems.EveryTopicCanBeForwarded | rust-lib/src/inbound.rs:167-180 | Online, one turn of the forwarding loop hands on every topic the run asked for and leaves the queue empty |
| DeliveryTheorems.StepsReport | rust-lib/src/actions.rs:227-362 | What each step of the lifecycle leaves of delivery state, detail, node and pending starts |
| DeliveryTheorems.RetriesAreBounded | rust-lib/src/lib.rs:84-107 | Counted over the steps since the last seeding: bootstraps and retries are at most one more than the failures before the start, and each start is reported at most once |
| DeliveryTheorems.RemembersAlong | rust-lib/src/actions.rs:227-234 | A creation is remembered or its answer is on the way, never both and never neither |
| DeliveryTheorems.JoiningReportsIff | rust-lib/src/actions.rs:289-306 | In every run, whatever happens between reading the own preset and telling the display, joining reports adoption correctly exactly when no answer to this process's own creation with that preset was on the way at the reading |
| DeliveryTheorems.AdoptionIsReportedCorrectly | rust-lib/src/actions.rs:272-306 | With no chain left over and no retry under an unanswered start, every start is dispatched with the right adoption |
| DeliveryTheorems.ALeftoverChainMisreports | rust-lib/src/actions.rs:349-362 | A run without retries whose left-over chain takes the process's own node for another's |
| DeliveryTheorems.AnEarlyRetryMisreports | rust-lib/src/actions.rs:314-325 | A run without shutdowns in which a retry under an unanswered start does the same |
| Locks.ScriptsAreDisciplined | rust-lib/src/actions.rs:1-6 | Every operation takes the module lock before the others, never two of the others, and joins under none |
| Locks.InitBranchIsDisciplined | rust-lib/src/module.rs:157-172 | So does init under the module lock, installing or not |
| Locks.ShutdownBranchIsDisciplined | rust-lib/src/lib.rs:115-124 | So does shutdown, which joins only workers it has told to end |
| Locks.GoodIsKept | rust-lib/src/module.rs:16-20 | Every step of every thread keeps the discipline |
| Locks.HolderMoves | rust-lib/src/module.rs:16-20 | The holder of any lock moves, or wants one of higher rank whose holder moves or wants in turn: at most two waits up, the log lock last |
| Locks.NoDeadlock | rust-lib/src/module.rs:16-20 | In every reachable state, lines logged anywhere included, following who waits for whom from any thread in the middle of something ends after at most four waits at a thread that goes on or a worker that ends |
| Locks.WaitingIsOrdered | rust-lib/src/lib.rs:115-124 | A holder of the log lock waits for nothing, one of the display or preset lock for no more than the log lock, and a thread joining a worker holds no lock |
| SeenMessages.Seen.FirstSighting | rust-lib/src/inbound.rs:148-160 | A hash is dropped exactly when it is among the last ten thousand forwarded |
| SeenMessages.ForwardAll | rust-lib/src/inbound.rs:115-135 | Over any input the filter forwards what a window over the full history would |
| SeenMessages.ForwardedIsDistinct | rust-lib/src/inbound.rs:137-145 | Any 10,001 consecutive forwarded hashes are pairwise distinct |
| SeenMessages.EveryInputIsForwarded | rust-lib/src/inbound.rs:139-145 | No hash is dropped for good: exactly the input's hashes are forwarded |
| RunNames.StampOfIff | rust-lib/src/logging.rs:415-437 | A stamp is read exactly off the stem, eight digits, a separator, six digits and `.log` or a dot, three digits and `.log`, digits being '0' to '9' |
| RunNames.NamesAreSpelled | rust-lib/src/logging.rs:345-357 | The live file's name is stem, stamp and `.log`, a rotation's has its ordinal in three digits or more before `.log` |
| RunNames.RotationIsOursIff | rust-lib/src/logging.rs:351-353 | A rotation's file carries its run's stamp exactly up to ordinal 999 |
| RunLog.OpenLog.Append | rust-lib/src/logging.rs:334-341 | Appends, counts lines and rotates at ten thousand; fails exactly when a write, rename or reopen it needs does |
| RunLog.OpenLog.Rotate | rust-lib/src/logging.rs:345-357 | Spends the budget first, then moves the file aside and reopens, stopping where a call fails |
| RunLog.NothingIsLost | rust-lib/src/logging.rs:334-357 | Whatever fails, the rotations in order and the live file are the bytes written, each once, or nothing if the opened file was not kept |
| RunLog.AnnouncedPathIsWrittenIff | rust-lib/src/logging.rs:255-257 | In every run, the announced path names the file being written if and only if the opened file was kept and no append has filled it, moved it aside and then failed to open another |
| RunLog.AMissingPathStaysMissing | rust-lib/src/logging.rs:354-355 | Once the announced path names no file, no further append changes that; the file last moved aside takes them all, or no file does |
| RunLog.AFailedReopenLosesThePath | rust-lib/src/logging.rs:345-357 | A run that ends without a file under the announced path |
| RunLog.ClobberingIff | rust-lib/src/logging.rs:354 | Rotating onto a name in use conserves the bytes exactly when that file was empty |
| RunLog.BudgetBoundsRotations | rust-lib/src/logging.rs:345-350 | Ten thousand times the rotation attempts never exceeds the newlines written |
| RunLog.EveryFileCarriesTheStamp | rust-lib/src/logging.rs:415-424 | In a run of fewer than ten million newlines every file is attributed to the run |
| RunLog.AThousandRotationsLeaveTheRun | rust-lib/src/logging.rs:428-437 | A run of a thousand full appends has a file that is attributed to no run |
| RunLog.NamesTellFilesApart | rust-lib/src/logging.rs:281 | No two files of a run share a name, the live one included |
| Pruning.LogDirectory.PruneRuns | rust-lib/src/logging.rs:386-410 | Deletes the files of exactly the runs with ten or more newer ones, but for those the system refuses to delete; a file of any other shape stays |
| Pruning.RunsGoWhole | rust-lib/src/logging.rs:384-385 | No run is split, strangers stay, and the run just opened goes only if ten stamps sort above it |
| RunOpening.OpeningKeepsItsFileIff | rust-lib/src/logging.rs:278-291 | The file just opened outlives the pruning if and only if fewer than ten stamps in the directory sort above its own, or it is not deleted |
| RunOpening.Open | rust-lib/src/logging.rs:265-300 | Opening creates the file, prunes, and starts on the kept file or on one without a name |
| RunOpening.AnnouncedFromTheOpening | rust-lib/src/logging.rs:255-257 | From the directory before the opening: the announced path is the file being written if and only if it was kept and no append lost it, and the bytes written are in the run's files if and only if it was kept |
| RunOpening.AClockStepBackLosesTheLog | rust-lib/src/logging.rs:290-291 | Ten runs opened in turn and an eleventh with an earlier stamp: it deletes its own file and nothing it writes is in the directory |
| Pruning.TenAreLeft | rust-lib/src/logging.rs:402-410 | Ten runs are left, or all if there were fewer |
| Pruning.StampsSortByMoment | rust-lib/src/logging.rs:402-403 | The map's order of stamps is the order of the moments they spell |
| LidlLexer.FindComment | docs/lidl2rst.py:62-74 | The scan by two flags finds the line's first `;` outside a string |
| LidlLexer.SplitComments | docs/lidl2rst.py:53-81 | Returns one line of code for each line of the source, all of it where no comment starts and else what is before the comment, and each comment under its line number |
| LidlSpelling.SplitLinesIs | docs/lidl2rst.py:59-60 | The source is its lines with a break after each, but perhaps the last, and no break is in one; the breaks by code point |
| LidlSpelling.CommentIs | docs/lidl2rst.py:75-80 | A comment is what is after its `;` without the whitespace around it, alone on its line when only whitespace is before it |
| LidlSpelling.StripIs | docs/lidl2rst.py:75-77 | What is taken off either end is whitespace, and no whitespace is left at one |
| LidlLexer.Tokenize | docs/lidl2rst.py:84-99 | The loop over the text gives the tokens, or the first character no token starts with |
| LidlSpelling.FirstLexemeIs | docs/lidl2rst.py:36-44 | What the pattern takes from the front, by character ranges written out: the longest run of whitespace or of a name, a closed string, a mark, or nothing exactly when none of them starts there |
| LidlSpelling.WordsTokenize | docs/lidl2rst.py:36-44 | Letters of either case, digits and underscores that start with no digit are one name |
| LidlSpelling.MarksTokenize | docs/lidl2rst.py:36-44 | Each of the ten marks is one token |
| LidlSpelling.StringsTokenize | docs/lidl2rst.py:36-44 | Quotes around text without a bare quote or backslash are one string |
| LidlAgreement.PiecesAreTheCode | docs/lidl2rst.py:84-99 | The tokens' texts with the whitespace between them, and what no token matches, are the code |
| LidlAgreement.TokensAreThePieces | docs/lidl2rst.py:84-99 | The tokenizer answers with those pieces, each on the line it begins on, or with the character it stopped at |
| LidlAgreement.StripperAndTokenizerAgree | docs/lidl2rst.py:53-99 | For every source whose strings close on their lines, a `;` left in the code is only inside a one-line string token, and neither `;` nor a quote stops the tokenizer |
| LidlAgreement.AgreementIsExact | docs/lidl2rst.py:53-99 | For a source the tokenizer accepts, that holds if and only if its strings close on their lines |
| LidlLines.TokensKeepTheirSourceLine | docs/lidl2rst.py:84-99 | For every source it accepts: each token in turn sits at its own offset of the code, later than the one before, and begins on the line of the original source it bears, at the column of that offset, all of it there unless it spans lines |
| LidlLines.ErrorsKeepTheirSourceLine | docs/lidl2rst.py:88-91 | For every source it does not accept, the character it names is on the source line it names |
| LidlParser.Parser.ParseTypeExpr | docs/lidl2rst.py:207-223 | Reads one type expression by the grammar, or the same error, and leaves the cursor after it |
| LidlParser.Parser.ParseParams | docs/lidl2rst.py:197-205 | Reads the parameter list by the grammar, commas optional |
| LidlParser.Parser.ParseMethod | docs/lidl2rst.py:185-190 | Reads a method with its optional result by the grammar |
| LidlParser.Parser.ParseEvent | docs/lidl2rst.py:192-195 | Reads an event by the grammar |
| LidlParser.Parser.ParseType | docs/lidl2rst.py:165-183 | Reads a record's fields, optional by either marker, by the grammar |
| LidlParser.Parser.ParseModule | docs/lidl2rst.py:131-163 | Every token list ending in its only end of input gives a module or an error, without reading past that end |
| LidlRoundTrip.TypeExprsAreExactlyTheGrammar | docs/lidl2rst.py:207-223 | The parser accepts exactly the spellings of type expressions |
| LidlRoundTrip.ParsedTypeIsSpelled | docs/lidl2rst.py:207-223 | What it returns is the canonical string of the type spelled at the cursor |
| LidlRoundTrip.TokensAreLexed | docs/lidl2rst.py:84-99 | Every tokenized text ends in its only end of input, its names are names and its marks are punctuation |
| LidlRoundTrip.CanonIsAFixedPoint | docs/lidl2rst.py:207-223 | A canonical type string, tokenized and parsed, is itself with nothing left |
| LidlRoundTrip.MethodRoundTrip | docs/lidl2rst.py:303-308 | `method` and a method's signature reads back as that method, types nested however deep |
| LidlRoundTrip.EventRoundTrip | docs/lidl2rst.py:303-308 | The same for events |
| LidlRoundTrip.ParsedMethodRoundTrips | docs/lidl2rst.py:185-190 | Whatever method was parsed from tokenized text, its signature reads back as it |
| LidlRoundTrip.ParsedEventRoundTrips | docs/lidl2rst.py:192-195 | The same for events |
| LidlGrammar.ModulesAreExactlyTheGrammar | docs/lidl2rst.py:131-163 | The parser accepts exactly the spellings of modules: texts, dependency lists, records, methods and events in any order, commas in lists optional |
| LidlGrammar.ParsedModuleIsSpelled | docs/lidl2rst.py:131-205 | The module it returns is exactly what those items declare, each once and in their order, types canonical, fields optional by either mark, and each on the line of the token it begins with |
| LidlGrammar.SpelledModuleParses | docs/lidl2rst.py:131-205 | Every spelling of a module gives exactly those declarations with those lines and leaves the cursor after it |
| LidlTable.SameRun | docs/lidl2rst.py:112-129 | Reading a rule looks no further than the token it ends before |
| LidlTable.RepairRuns | docs/lidl2rst.py:131-223 | Whatever token stops a rule, the tokens before it can be gone on with so that the rule reads them all |
| LidlErrors.ModuleAgrees | docs/lidl2rst.py:131-223 | The parser ends where the grammar's table does, and with the same error |
| LidlErrors.FirstWrongToken | docs/lidl2rst.py:112-223 | A text that is refused is refused for one token: those before it begin some module, with it they begin none, the error bears its line and text, and nothing after it matters |
| LidlFrontEnd.ReadContract | docs/lidl2rst.py:391-398 | From text to module or error: the tokens handed to the parser always end in their only end of input |
| LidlFrontEnd.DeclarationsKeepTheirSourceLine | docs/lidl2rst.py:165-195 | For every source that reads as a module, each type, method and event in turn bears the line of the original source its keyword is on |
| LidlFrontEnd.RefusalsKeepTheirSourceLine | docs/lidl2rst.py:112-223 | For every source whose tokens are no module, that token is on the line of the original source the error names |

## Left out

- Message text: a message carries the text its bytes decode to, so lossy UTF-8 decoding is not part of this model.
- libchat, the account registry and MLS: their results enter as ids, errors and events.
- SQLCipher, migrations, SQL text and column type errors: the store is maps with atomic transactions.
- The wording of `delivery_state` details: a detail names the failed call and carries its reason.
- A `createNode` answer lost in transport after the node was created: taken not to happen.
- Order of a `message_sent` or `conversation_updated` event against a concurrent delete: emission joins its lock section.
- Calls while the module is not initialised appear in the class methods' error results, not as steps of the runs.
- `add_group_member` and `list_group_members`: they change nothing on the display; their locks are in `Locks`.
- `install_with` and `take` as values: their guard is the phase of the runs and the branch of `Locks`.
- The topic-prefix filter and payload decoding of the bridge, which come before the duplicate filter.
- Fairness: `NoDeadlock` says some step is enabled, not that a given thread is scheduled.
- Widths of the log's counters: `u64` lines and `u32` rotations are unbounded here; `BudgetBoundsRotations` puts their overflow past 4 * 10^13 lines.
- The busy-file branch of `write_stamped`, filter strings, severities and the panic hook.
- The mutex of the announced path (`rust-lib/src/logging.rs:92`), taken alone and for one copy.
- Stamps and times are inputs; a log file renamed or removed by someone else is not modelled.
- Python's recursion limit on deeply nested types.
- Comment attachment, RST rendering and anchor checks of `docs/lidl2rst.py`.
