# The log daemon's in-memory core, modelled and proved

This project models the part of the log daemon that decides what happens to
messages, applications, contexts and levels while it is running, together with
the text and byte formats that leave and enter it. Sockets, serial lines, poll
and the clock are parameters: every outcome of a send, of a push into the ring
buffer or of opening a socket is an arbitrary value that the proofs quantify
over.

Each part consists of specification functions, lemmas about them, and, where
the program changes things step by step, a class or methods with loops whose
contracts equate the new state with a specification function.

* **Delivery** (`Delivery*.dfy`): a message is sent to all clients, stored in the
  ring buffer or counted as discarded; a failed send closes the client, closing
  logs further messages, and these are sent or stored in turn. The recursion and
  the drain loop terminate by measures given as `decreases` clauses. What holds of
  every run is in `DeliveryRuns.dfy`, what is achieved once sends succeed in
  `DeliveryProgress.dfy`, and what one failure does in `DeliveryFailure.dfy`.
* **Registry** (`Ids.dfy`, `Sorting.dfy`, `Registry*.dfy`): two sorted tables, a
  counter per application that serves as an index into the context table, and
  the ownership of connections.
* **GET_LOG_INFO** (`LogInfo*.dfy`): the size pass, the writing pass and the
  parser of the client library, on bytes.
* **Setting log levels** (`Level*.dfy`, `AppLevels.dfy`): patterns, the scan
  with its early end, what becomes of the contexts when sends fail, and requests
  of applications for all of their contexts.
* **Logstorage levels** (`Logstorage*.dfy`): keys, the level cached per context,
  and the level computed anew for a new context.
* **Event handler** (`EventHandler*.dfy`) and **message filter** (`Filter*.dfy`).
* **Text formats** (`EnvLevels*.dfy`, `RuntimeConfig*.dfy`): initial levels from
  the environment, and the runtime configuration files.

## Where the code does not meet what it is for

For each of these a lemma gives the input, and another one the exact condition
under which the property holds.

* With two clients or more a message can be lost while the daemon answers OK, or
  be sent and stored: the fan-out passes over the connection behind one it
  closes (`DeliveryManyClients.OnceOnlyIff`, `LostBetweenTwo`, `SentAndStored`).
* With neither TCP nor serial in the filter mask draining discards the history,
  and the daemon can send directly to nobody (`DeliveryMask.HeardIffMasked`,
  `DrainGivesIffMasked`, `DrainWithoutMask`, `DirectWithoutClients`).
* The library reads 16-bit counts and lengths of GET_LOG_INFO modulo 256
  (`LogInfo.ParseEncode`, `LogInfoRuns.LongDescription`), and for a context given
  without an application an unfiltered count is announced
  (`LogInfoUnfiltered.UnfilteredIff`, `UnfilteredCount`).
* A new context can get a lower storage level than one that was there before,
  because the search through the filters ends once it has counted as many hits
  as there are filters (`LogstorageSearch.NewContextLevel`,
  `LogstorageRuns.RegistrationIff`, `LogstorageSearch.MixedFiltersMiss`);
  connecting a device twice, or one whose configuration gives a warning, leaves
  levels over or out (`LogstorageRuns.ConnectedIff`,
  `LogstorageStale.StaleLevel`, `MissingLevel`).
* A filter that does not admit clients closes the listening socket even if the
  listening connection stays admitted, and one that admits it without clients
  activates it without a socket: the mask of the type is passed where the type
  is expected (`EventHandler.FilterChangedIff`, `ListenerClosed`,
  `ListenerReopened`, `ListenerLost`).
* In the environment list the name of a level is accepted in the last item only
  (`EnvLevels.NamesRoundTrip`, `NameBeforeLast`), and an item that is refused
  takes effect all the same; an empty variable sets level 0 everywhere
  (`EnvLevels.RefusedItem`, `RefusedItemCounts`, `EmptyTextSwitchesOff`).
* Levels and statuses are set without a check of their range. A context with one
  out of range is saved in the runtime configuration but not loaded, nor is any
  behind it; an empty description comes back as a newline
  (`RuntimeConfigLoad.SaveLoad`, `RuntimeConfigLost.LevelLosesContexts`,
  `EmptyBecomesNewline`).

## Model

| member | source | states |
|---|---|---|
| DeliveryRuns.ExactlyOnceInOrder | src/daemon/mct_daemon_client.c:142-295 | Over every run from BUFFER with one TCP client at a time and any outcomes, application messages fully sent followed by those still buffered are exactly the accepted ones, each once, in submission order; the refused ones are exactly the others, in order; refused messages and losses that could not be forwarded are exactly what was cleared plus the counter; every cleared value stands in a report of its own that was sent or buffered |
| DeliveryRuns.RunInv | src/daemon/mct_daemon_client.c:142-295 | For any number of clients and any run: SEND_DIRECT implies an empty ring buffer, BUFFER_FULL a non-empty one, with TCP or serial in the mask and no serial device both send states imply a client, and losses equal the amounts cleared plus the counter |
| DeliveryRuns.RunLosses | src/daemon/mct_daemon_client.c:142-295 | For any number of clients and any run the refused messages are exactly those answered with "buffer full", in order, and whatever was counted is a refused message or a loss reported by an application that could not be forwarded |
| DeliveryRuns.AcceptedOrRefused | src/daemon/mct_daemon_client.c:142-295 | The accepted and the refused messages together are the submitted ones |
| DeliveryRuns.SubmitFaithful | src/daemon/mct_daemon_client.c:142-295 | A submitted message is appended to what is placed, or refused and counted |
| DeliveryMask.HeardIffMasked | src/daemon/mct_daemon_client.c:229-250 | Without a serial device both send states imply a client in every state of every run, whatever the environment does, if and only if the filter mask has TCP or serial |
| DeliveryMask.DrainGivesIffMasked | src/daemon/mct-daemon.c:2942-2986 | Whatever the state and the environment, a drain that answers OK has given every buffered block to somebody, in order, if and only if the filter mask has TCP or serial |
| DeliveryMask.DrainWithoutMask | src/daemon/mct_daemon_client.c:229-250 | With neither TCP nor serial in the filter mask draining reports success, sends nothing and empties the ring buffer |
| DeliveryMask.DirectWithoutClients | src/daemon/mct_daemon_client.c:2651-2659 | Two messages and one timer event after which such a daemon sends directly to nobody |
| DeliveryManyClients.OnceOnlyIff | src/daemon/mct_daemon_client.c:70-140 | A fresh message is sent, stored or refused, and only one of these whatever the environment does, if and only if the daemon is not in SEND_DIRECT or has at most one client |
| DeliveryManyClients.SentAndStored | src/daemon/mct_daemon_client.c:70-140 | With two clients or more some outcomes make the daemon send and store the same message |
| DeliveryManyClients.LostBetweenTwo | src/daemon/mct_daemon_client.c:70-140 | Concrete outcomes for two clients: the first fails, the second is passed over, the message is gone although the daemon answers OK |
| DeliveryProgress.OneGoodSecond | src/daemon/mct_daemon_client.c:2651-2672 | Whatever happened before, with however many clients: once sends succeed, one timer event leaves an empty buffer and SEND_DIRECT, and no client is lost |
| DeliveryProgress.FirstClientServed | src/daemon/mct-daemon.c:1646-1797 | If sends succeed, the first client is greeted and then gets the whole history in order, the counter of discarded messages is cleared and messages are sent directly |
| DeliveryProgress.DrainReachesAll | src/daemon/mct-daemon.c:2942-2986 | If sends succeed, draining gives every block, and at most the report that was due, to every admitted connection, in order, and ends in SEND_DIRECT with an empty buffer |
| DeliveryProgress.SubmitReachesAll | src/daemon/mct_daemon_client.c:70-140 | If nobody fails to take it, a message in SEND_DIRECT reaches every admitted connection once, in table order, followed by the report that is due, which clears the counter |
| DeliveryProgress.LeavingIsTold | src/daemon/mct-daemon.c:3051-3109 | Everybody who stays is told that a client left, and sending goes on |
| DeliveryProgress.FurtherClientIsTold | src/daemon/mct-daemon.c:1646-1754 | A further client alone is greeted, then all are told about it |
| DeliveryProgress.KnownClientIsTold | src/daemon/mct-daemon.c:1646-1754 | A descriptor that is registered already is greeted and announced again, and nothing else happens |
| DeliveryProgress.TickSendsTime | src/daemon/mct_daemon_client.c:2627-2672 | In SEND_DIRECT the timer sends the timing packet to all, if enabled, and nothing else |
| DeliveryProgress.RunCounted | src/daemon/mct_daemon_client.c:142-295 | Over every run the client counter is the number of client connections, and BUFFER means that there is none |
| DeliveryFailure.OneFails | src/daemon/mct_daemon_client.c:104-137 | In SEND_DIRECT with several clients, one of which fails to take the message: exactly that client is closed, those before it got the message, all who stay are told that it left, and the rest get the message but for the connection right behind it |
| DeliveryFailure.SerialFails | src/daemon/mct_daemon_client.c:104-137 | A serial line that fails is not closed, and nobody is passed over |
| DeliveryFailure.CopiesAt | src/daemon/mct_daemon_client.c:104-137 | Who gets a copy, position by position: TCP clients if the mask has TCP, serial ones if it has serial, in table order |
| DeliveryFailure.HealthyStays | src/daemon/mct_daemon_client.c:118-127 | A connection that never fails and does not hang up stays in the table through any run, whatever the others do |
| DeliveryFailure.NobodyListens | src/daemon/mct_daemon_client.c:229-236 | Where no connection is admitted a forced send fails, and so does draining, without losing a message |
| DeliveryFailure.LastClientLeaves | src/daemon/mct-daemon.c:3051-3109 | The last client leaves without a serial device: BUFFER, or BUFFER_FULL if the second of the two messages about it does not fit, with the ring and the counter that go with it |
| DeliveryFailure.BufferedOrRefused | src/daemon/mct_daemon_client.c:252-272 | What becomes of a message in the buffering states: kept by an empty or roomy ring, otherwise refused, counted and BUFFER_FULL from then on |
| DeliveryFailure.LossBuffered | src/daemon/mct-daemon.c:2194-2232 | The loss of an application while messages are buffered: its message is kept, or counted together with what was lost |
| DeliveryFailure.TimerWhileBuffering | src/daemon/mct_daemon_client.c:2651-2672 | The timer leaves plain buffering alone |
| DeliveryFailure.NowhereToGo | src/daemon/mct_daemon_client.c:223-250 | Before the first state is set, or sending directly with neither TCP nor serial in the mask, a message goes nowhere and the daemon answers OK |
| DeliveryLosses.ClientSendLoses | src/daemon/mct_daemon_client.c:142-295 | A send adds to the counter exactly what it refuses, and refuses the message it was given if and only if it answers "buffer full" |
| DeliveryLosses.DrainLoopLoses | src/daemon/mct-daemon.c:2959-2983 | Draining refuses no application message |
| DeliveryLosses.ClientUpdateLoses | src/daemon/mct-daemon.c:1756-1797 | Clearing the counter for a new client forgets no refused message |
| DeliveryInvariant.ClientSendInv | src/daemon/mct_daemon_client.c:142-295 | Every send, with all closings and messages it causes, keeps: SEND_DIRECT with an empty ring, BUFFER_FULL with a filled one, guard at most 1, losses cleared or counted, counter and table of clients consistent |
| DeliveryInvariant.CloseInv | src/daemon/mct-daemon.c:3051-3109 | Closing a connection keeps this invariant |
| DeliveryInvariant.DrainLoopInv | src/daemon/mct-daemon.c:2959-2983 | The drain loop keeps this invariant although any send may fail, close and log |
| DeliveryInvariant.ForcedKeepsClient | src/daemon/mct_daemon_client.c:104-137 | A forced send that was taken by somebody leaves a client connected, so SEND_BUFFER is not entered without one |
| DeliveryInvariant.FanOutKeepsTaker | src/daemon/mct_daemon_client.c:104-137 | A connection that took the message is still there at the end of the loop |
| DeliveryInvariant.ConnectInv | src/daemon/mct-daemon.c:1646-1754 | Accepting a client, with draining and report, keeps this invariant |
| DeliveryInvariant.TickInv | src/daemon/mct_daemon_client.c:2627-2672 | The one-second timer keeps this invariant |
| DeliveryOneClient.SendOne | src/daemon/mct_daemon_client.c:142-295 | With at most one client a message is placed once behind all others, or refused |
| DeliveryOneClient.SendLost | src/daemon/mct_daemon_client.c:142-295 | When the client fails while it is sent to, the message is buffered behind what was there, or refused |
| DeliveryOneClient.SettleOne | src/daemon/mct_daemon_client.c:274-291 | An overflow report places itself and nothing else, and the value cleared is the one it carries |
| DeliveryOneClient.ForcedOne | src/daemon/mct-daemon.c:2959-2983 | One round of the drain loop moves the oldest buffered message to the wire, or leaves all application messages placed as they were |
| DeliveryOneClient.DrainLoopOne | src/daemon/mct-daemon.c:2959-2983 | Draining keeps the application messages placed, in order |
| DeliveryOneClient.ConnectOne | src/daemon/mct-daemon.c:1646-1754 | Accepting the only client keeps the application messages placed, in order |
| DeliveryOneClient.DropOne | src/daemon/mct-daemon.c:3051-3109 | Losing the only client keeps the application messages placed, in order |
| Delivery.ForcedProgress | src/daemon/mct-daemon.c:2964-2983 | A forced send loses a connection, or settles the due report, or leaves the buffer alone: the measure by which the drain loop ends |
| DeliveryDaemon.Daemon.SendToAll | src/daemon/mct_daemon_client.c:104-137 | The loop over the polled table, its index running on after a close, is the fan-out |
| DeliveryDaemon.Daemon.ClientSend | src/daemon/mct_daemon_client.c:142-295 | State, ring, counter, guard, table and answer afterwards are those of the recursion that the lemmas are about |
| DeliveryDaemon.Daemon.StoreMessage | src/daemon/mct_daemon_client.c:252-272 | Pushed, or BUFFER_FULL and counted |
| DeliveryDaemon.Daemon.SettleOverflow | src/daemon/mct_daemon_client.c:274-291 | The report under its guard, which stays set after a failure |
| DeliveryDaemon.Daemon.UnregisterConnection | src/daemon/mct_daemon_event_handler.c:477-512 | The first registered connection with the descriptor goes, polled or not, and the counter follows |
| DeliveryDaemon.Daemon.Close | src/daemon/mct-daemon.c:3051-3109 | Unregistering, the fall back to BUFFER, and the two messages it causes |
| DeliveryDaemon.Daemon.SendRingbuffer | src/daemon/mct-daemon.c:2942-2986 | The loop over the ring buffer is the drain of the lemmas and ends |
| DeliveryDaemon.Daemon.UpdateClient | src/daemon/mct-daemon.c:1756-1797 | Draining, then the report |
| DeliveryDaemon.Daemon.RegisterConnection | src/daemon/mct_daemon_connection.c:339-394 | A known descriptor is not registered again; a new one is counted, whether or not the filter admits it |
| DeliveryDaemon.Daemon.ProcessClientConnect | src/daemon/mct-daemon.c:1646-1754 | Registering, greeting, logging, updating the first client |
| DeliveryDaemon.Daemon.ProcessTimer | src/daemon/mct_daemon_client.c:2627-2672 | Draining while there is history, then the timing packet |
| DeliveryDaemon.Daemon.ProcessOverflow | src/daemon/mct-daemon.c:2194-2232 | The loss of an application is forwarded or added to the counter |
| RegistryRuns.FromEmpty | src/daemon/mct_daemon_common.c:320-571 | After any sequence of operations from the empty registry both tables are strictly sorted, each application has exactly the slice its counters describe, the slices cover the table, and no context uses the connection of another application |
| RegistryRuns.RunKeeps | src/daemon/mct_daemon_common.c:320-571 | Sorting, counters and ownership of connections are kept by any sequence of registrations, unregistrations, lost connections and requests to set levels |
| RegistryRuns.RunKeepsNamed | src/daemon/mct_daemon_common.c:320-571 | No entry without an identifier gets into the tables |
| RegistryRuns.ContextConnection | src/daemon/mct-daemon.c:2486-2495 | A context that registers uses the connection of its application; one from a file uses none and counts as predefined |
| RegistryRuns.PredefinedStays | src/daemon/mct-daemon.c:2686-2742 | A context taken back by its application goes, unless a file defined it, and all others stay |
| RegistryRuns.BrokenTakes | src/daemon/mct_daemon_common.c:288-318 | A broken connection is taken from its application and from the contexts that use it, and nothing else changes |
| RegistryRuns.UnregisterOwned | src/daemon/mct-daemon.c:2621-2680 | Unregistering leaves no two applications with one connection and no context with a foreign one |
| RegistrySample.Reached | src/daemon/mct_daemon_client.c:1814-1847 | Registrations and one request to set a level lead to a context with a level out of range |
| RegistryLookup.AddAppLookup | src/daemon/mct_daemon_common.c:320-487 | The named application holds what was registered, with a new connection exactly if its process changed or it had none; every other application and every context keeps its entry but for a connection that was taken or given up |
| RegistryLookup.AddCtxNamed | src/daemon/mct_daemon_common.c:714-871 | The named context holds what was registered, keeps its storage level, and keeps its levels if it was known and a configuration was loaded |
| RegistryLookup.RegisteredIff | src/daemon/mct_daemon_common.c:728-742 | A context is registered with what was given if and only if its level is from -1 to 6, its trace status from -1 to 1, both identifiers are there and its application is registered; otherwise nothing changes |
| RegistryLookup.AddCtxOthers | src/daemon/mct_daemon_common.c:714-871 | No other context changes |
| RegistryLookup.AddCtxApps | src/daemon/mct_daemon_common.c:714-871 | Applications keep everything but the counter of the one that gained a context |
| RegistryLookup.DelCtxLookup | src/daemon/mct_daemon_common.c:873-924 | The named context goes and no other, and one is taken off its application's counter |
| RegistryLookup.UnregisterLookup | src/daemon/mct-daemon.c:2621-2680 | The application and all its contexts go and every other lookup stays the same |
| RegistryIndex.SliceExact | src/daemon/mct_daemon_client.c:1160-1196 | The contexts of an application are exactly those from the sum of the earlier counters on, as many as its own counter |
| RegistryIndex.SlicesCover | src/daemon/mct_daemon_client.c:1160-1196 | All counters together are the length of the context table |
| RegistryIndex.DeleteDownCuts | src/daemon/mct-daemon.c:2638-2655 | The downward loop deletes exactly the slice although each round shortens the table and decrements the counter |
| RegistryIndex.UnregisterExact | src/daemon/mct-daemon.c:2621-2680 | Unregistering removes the application and all its contexts and nothing else, and keeps the order of the rest |
| RegistryIndex.OthersIsCut | src/daemon/mct-daemon.c:2638-2655 | The contexts of all others are the table with the slice cut out |
| Registry.AddAppIndexed | src/daemon/mct_daemon_common.c:320-487 | Registering an application keeps both tables strictly sorted, the counters right and every context with an application |
| Registry.AddCtxIndexed | src/daemon/mct_daemon_common.c:714-871 | Registering a context keeps them so |
| Registry.DelCtxIndexed | src/daemon/mct_daemon_common.c:873-924 | Deleting a context keeps them so |
| Registry.DelAppIndexed | src/daemon/mct_daemon_common.c:489-534 | Deleting an application keeps them so, provided that its contexts are gone |
| Registry.ClearCtxsIndexed | src/daemon/mct_daemon_common.c:995-1031 | Clearing all contexts keeps them so |
| Registry.CtxNumOrder | src/daemon/mct_daemon_common.c:36-57 | The order of contexts is by application, then by context |
| RegistryHandles.AddAppOwned | src/daemon/mct_daemon_common.c:427-473 | Registering, also again with a new process, leaves no two applications with one connection and no context with a foreign one |
| RegistryHandles.AddCtxOwned | src/daemon/mct_daemon_common.c:847-857 | Registering a context with the connection of its application, or none, keeps that |
| RegistryHandles.ContextReachesOwner | src/daemon/mct_daemon_common.c:1284-1348 | A context with the connection of an application belongs to it, so a level update never reaches another application |
| RegistryHandles.UnregisterKeepsHandles | src/daemon/mct-daemon.c:2621-2680 | Unregistering takes no connection from a context of another application |
| RegistryTable.UserList.FindApplication | src/daemon/mct_daemon_common.c:536-571 | Binary search with its out-of-range shortcuts finds exactly the entry, or nothing |
| RegistryTable.UserList.FindContext | src/daemon/mct_daemon_common.c:926-964 | Binary search with its out-of-range shortcuts finds exactly the context, or nothing |
| RegistryTable.UserList.InvalidateApplicationsFd | src/daemon/mct_daemon_common.c:225-252 | The loop takes a descriptor from every application |
| RegistryTable.UserList.InvalidateContextsFd | src/daemon/mct_daemon_common.c:966-993 | The loop takes a descriptor from every context |
| RegistryTable.UserList.ResetUserHandle | src/daemon/mct_daemon_common.c:288-318 | The connection is dropped for the application and its contexts |
| RegistryTable.UserList.AttachAt | src/daemon/mct_daemon_common.c:412-473 | Description, change of process and connection as the lookup lemmas tell |
| RegistryTable.UserList.ReserveApplication | src/daemon/mct_daemon_common.c:349-386 | The capacity grows by blocks of 500 exactly when the count reaches one, and stays above the count |
| RegistryTable.UserList.AddApplication | src/daemon/mct_daemon_common.c:320-487 | Appending, attaching and sorting insert the entry in its place; the capacity suffices |
| RegistryTable.UserList.ReserveContext | src/daemon/mct_daemon_common.c:752-795 | The capacity grows by blocks of 1000 exactly when the count reaches one, and stays above the count |
| RegistryTable.UserList.AddContext | src/daemon/mct_daemon_common.c:714-871 | The context is found or inserted in its place and filled; this succeeds exactly for levels from -1 to 6, trace statuses from -1 to 1, given identifiers and a registered application |
| RegistryTable.UserList.DeleteContext | src/daemon/mct_daemon_common.c:873-924 | The entry is removed by moving the rest, the counter decremented |
| RegistryTable.UserList.DeleteApplication | src/daemon/mct_daemon_common.c:489-534 | The entry is removed, its connection dropped |
| RegistryTable.UserList.ClearContexts | src/daemon/mct_daemon_common.c:995-1031 | All contexts go and all counters are 0 |
| RegistryTable.UserList.OffsetOf | src/daemon/mct_daemon_client.c:1160-1165 | The sum of the counters before an application |
| RegistryTable.UserList.DeleteContextsDown | src/daemon/mct-daemon.c:2638-2655 | The downward loop over a slice |
| RegistryTable.UserList.UnregisterApplication | src/daemon/mct-daemon.c:2585-2684 | The whole operation removes what UnregisterExact tells |
| Sorting.SortLast | src/daemon/mct_daemon_common.c:475-481 | Sorting a sorted table with one new entry at its end inserts the entry in its place |
| Sorting.SortedUnique | src/daemon/mct_daemon_common.c:475-481 | A sorted arrangement with distinct keys is unique |
| Sorting.Bsearch | src/daemon/mct_daemon_common.c:564-570 | Binary search finds the key or shows it absent |
| Ids.CompareIsNum | src/daemon/mct_daemon_common.c:24-57 | memcmp of two identifiers orders them as big-endian numbers |
| LogInfo.ParseEncode | src/lib/mct_client.c:1238-1357 | For every option and every list of applications the library reads back exactly what was encoded if and only if no announced count and no length exceeds 255 |
| LogInfo.AppsRead | src/lib/mct_client.c:1238-1357 | Read from its place in the message, a list of applications comes back entry by entry, each with its contexts and texts, if and only if no count and no length exceeds 255 |
| LogInfo.TextRead | src/shared/mct_common.c:4018-4040 | A text is read back exactly if its length fits one byte |
| LogInfoReplySize.ReplyFits | src/daemon/mct_daemon_client.c:1011-1097 | For every request and registry the second pass writes no more than the first pass computed, and exactly as much if and only if an application is reported and, where a context is given without an application, all contexts match it |
| LogInfoRoundTrip.ReplyRoundTrip | src/daemon/mct_daemon_client.c:1119-1274 | For every registry with whatever levels, option 3 to 7 and request for all, one application, or one application and context, the library reads from the reply exactly the matching applications and contexts with levels, statuses and descriptions, if and only if a context matches and no count and no length exceeds 255 |
| LogInfoRoundTrip.StatusMeaning | src/daemon/mct_daemon_client.c:1126-1130 | The status is the option if and only if a context matches, 8 otherwise |
| LogInfoRoundTrip.ReportedIsWanted | src/daemon/mct_daemon_client.c:1119-1274 | The applications the loops visit, with the contexts they visit, are exactly those that the request asks for, in table order |
| LogInfoRoundTrip.SourceMatches | src/daemon/mct_daemon_client.c:1160-1215 | The contexts read through the counters, or the single one found by search, are the matching contexts of the whole table |
| LogInfoRoundTrip.MatchingOne | src/daemon/mct_daemon_client.c:988-995 | At most one context matches an application and a context |
| LogInfoUnfiltered.UnfilteredIff | src/daemon/mct_daemon_client.c:1175-1206 | For every registry whose counts fit 16 bits and every request for a context without an application, the library reads exactly the matching contexts if and only if there is a context, nothing exceeds 255, and for each application the announced number is in its lower byte that of the matching contexts |
| LogInfoUnfiltered.AllMustMatch | src/daemon/mct_daemon_client.c:1175-1206 | Where no application has more than 255 contexts that means that every context of the registry matches |
| LogInfoUnfiltered.AppReadIff | src/lib/mct_client.c:1274-1354 | One application is read as it is wanted if and only if its announced number is right and its lengths fit one byte |
| LogInfoUnfiltered.ShownAreWritten | src/daemon/mct_daemon_client.c:1188-1253 | The loop writes exactly the contexts that match, in their order |
| LogInfoUnfiltered.UnfilteredCount | src/daemon/mct_daemon_client.c:1175-1206 | An application with the contexts X and Y, asked for X: the library takes the trailer of the reply for a second context |
| LogInfoMeaning.WantedFields | src/daemon/mct_daemon_client.c:1188-1253 | What a request is told of every application and context: identifiers always, the level with options 4, 6 and 7, the trace status with 5, 6 and 7, descriptions with 7, for the matching contexts in table order |
| LogInfoMeaning.WhichApp | src/daemon/mct_daemon_client.c:1126-1158 | The reported applications: all of the table in order, or the one that was asked for |
| LogInfoMeaning.AppReported | src/daemon/mct_daemon_client.c:1126-1158 | An application that is asked for is reported, with these fields, even without contexts |
| LogInfoMeaning.MatchingIff | src/daemon/mct_daemon_client.c:1188-1206 | A context matches if and only if it stands in the table under the application and has the identifier, if one is given |
| LogInfoMeaning.MatchingInOrder | src/daemon/mct_daemon_client.c:1188-1206 | The matching contexts come in table order |
| LogInfoMeaning.CtxLayout | src/daemon/mct_daemon_client.c:1205-1245 | The bytes of a context: identifier, level, trace status, length of the description, description, as far as the option has them |
| LogInfoMeaning.AppLayout | src/daemon/mct_daemon_client.c:1160-1269 | The bytes of an application: identifier, announced number, contexts, description |
| LogInfoMeaning.ReplyLayout | src/daemon/mct_daemon_client.c:1101-1276 | The whole reply: service 3, the option or 8, the number of applications, the applications, "remo" |
| LogInfoMeaning.OneOfEach | src/daemon/mct_daemon_client.c:1101-1276 | Every byte of a reply with one application, one context and both descriptions |
| LogInfoRuns.AnyRegistryRoundTrip | src/daemon/mct_daemon_client.c:1119-1274 | After any sequence of registrations, unregistrations and requests to set levels, the reply read by the library is what the request asks for, under the same condition |
| LogInfoRuns.LongDescription | src/shared/mct_common.c:4018-4040 | An application and a context register with descriptions of 256 characters: the reply that describes them is not read back |
| LogInfoRuns.RunKeepsLevels | src/daemon/mct-daemon.c:2832-2910 | Whatever is registered or set, levels and statuses stay signed bytes |
| LogInfoDaemon.Look | src/daemon/mct_daemon_client.c:979-1007 | Application and context named by the request are looked up, and the number of applications and contexts to report is what the lemmas count |
| LogInfoDaemon.SizeOf | src/daemon/mct_daemon_client.c:1009-1097 | The first pass, with its loops over applications and contexts, computes the announced size |
| LogInfoDaemon.TextsOf | src/daemon/mct_daemon_client.c:1033-1097 | The loop over descriptions adds up their lengths |
| LogInfoDaemon.PutCtx | src/daemon/mct_daemon_client.c:1206-1242 | Identifier, level, trace status and description of a context, as far as the option has them, stand in the buffer byte by byte from the offset on, nothing else changes, and the offset moves behind them |
| LogInfoDaemon.PutCtxs | src/daemon/mct_daemon_client.c:1188-1253 | The contexts of an application that match stand in the buffer one after the other, nothing before them changes |
| LogInfoDaemon.PutApp | src/daemon/mct_daemon_client.c:1160-1269 | Identifier, announced number, contexts and description of an application stand in the buffer, nothing else changes |
| LogInfoDaemon.PutApps | src/daemon/mct_daemon_client.c:1142-1271 | All reported applications stand in the buffer one after the other, never beyond the computed size |
| LogInfoDaemon.GetLogInfo | src/daemon/mct_daemon_client.c:908-1281 | Both passes: the buffer holds the reply within the computed size, and zeros behind it |
| LogInfoDaemon.ReadContext | src/lib/mct_client.c:1294-1331 | The cursor moves over one context and the fields are those at its place |
| LogInfoDaemon.ReadContexts | src/lib/mct_client.c:1293-1331 | The loop fills as many contexts as were announced |
| LogInfoDaemon.ReadApplication | src/lib/mct_client.c:1274-1354 | The loop body fills one application |
| LogInfoDaemon.ReadReply | src/lib/mct_client.c:1238-1357 | The loops of the library give what the parsing function of the round trip gives, also when the text is too short |
| LogInfoDaemon.Exchange | src/daemon/mct_daemon_client.c:908-1281 | What the library reads from the daemon's message is what the request asks for, if and only if a context matches and nothing exceeds 255 |
| LevelScan.EarlyIsFull | src/daemon/mct_daemon_client.c:1849-1898 | The loop that ends at the first application behind the pattern visits the same contexts as a full scan |
| LevelScan.BehindPattern | src/daemon/mct_daemon_client.c:1849-1898 | Comparing prefixes is monotone in the order of the table |
| LevelScan.FitsIsCompare | src/daemon/mct_daemon_client.c:1934-1960 | strncmp up to the '*' decides what the pattern means |
| LevelScan.TargetIsCompare | src/daemon/mct_daemon_client.c:1934-1964 | The comparison chosen for a request decides its targets |
| LevelScan.StrNCmpIsMemCmp | src/daemon/mct_daemon_client.c:1849-1898 | On zero-padded identifiers strncmp is memcmp |
| LevelScan.FullScanKeeps | src/daemon/mct_daemon_client.c:1814-1994 | A request to set levels keeps both tables sorted, the counters and the ownership of connections |
| AppLevels.AppScanResult | src/daemon/mct-daemon.c:2832-2910 | A request of an application sets exactly its own contexts: those without a connection, those it took the message for, and all behind the one at which the connection broke; no other context changes |
| AppLevels.AppScanKeeps | src/daemon/mct-daemon.c:2832-2910 | It keeps both tables sorted, the counters and the ownership of connections |
| AppLevels.BrokenBoth | src/daemon/mct_daemon_common.c:1338-1344 | A broken connection is taken from the contexts of its application and from no other |
| AppLevels.SendBothLevels | src/daemon/mct-daemon.c:2880-2897 | Both values are set first and set back if the application could not be told |
| AppLevels.SetSlice | src/daemon/mct-daemon.c:2877-2899 | The loop over the contexts of the application |
| AppLevels.SetAppLevels | src/daemon/mct-daemon.c:2832-2910 | The slice found through the counters is all the scan of the table would visit |
| LevelScanResult.ScanResult | src/daemon/mct_daemon_client.c:1814-1898 | A request changes the level of exactly the targets whose application was still reachable and took the message; every other context keeps its level, and only applications whose own connection broke lose it |
| LevelScanResult.ScanStep | src/daemon/mct_daemon_client.c:1814-1898 | From the tables that the first n contexts leave, the next context is treated as one more round of the loop treats it |
| LevelMeaning.TargetsMean | src/daemon/mct_daemon_client.c:1849-1994 | Which contexts a request is for, character by character of its pattern; with both identifiers a '*' is an ordinary character, with none there is no target |
| LevelMeaning.ScanMeaning | src/daemon/mct_daemon_client.c:1814-1898 | Every field of every context after a request: the level of a connected target whose application took the message and had not broken before, and the connection of applications that broke |
| LevelMeaning.ScanApps | src/daemon/mct_daemon_client.c:1836-1842 | Exactly the applications that broke lose their connection |
| LevelMeaning.AppScanMeaning | src/daemon/mct-daemon.c:2832-2910 | Every field of every context after a request of an application |
| LevelScanDaemon.SendLogLevel | src/daemon/mct_daemon_client.c:1814-1847 | The level is set first and set back if the application did not get it |
| LevelScanDaemon.FindMultiple | src/daemon/mct_daemon_client.c:1849-1898 | The loop with its early end is the early scan that EarlyIsFull equates with the full one |
| LevelScanDaemon.ControlSetLogLevel | src/daemon/mct_daemon_client.c:1900-1994 | For all five kinds of requests the tables afterwards are those of the full scan over the targets |
| LevelScanDaemon.OneTarget | src/daemon/mct_daemon_client.c:1968-1992 | A request with both identifiers, or none, is for one context at most |
| LogstorageKeys.SplitRender | src/daemon/mct_daemon_offline_logstorage.c:248-290 | A key written from ECU, application and context, in any of its shapes, splits into the same parts again |
| LogstorageKeys.RenderInjective | src/offlinelogstorage/mct_offline_logstorage.c:545-653 | Different keys are written differently |
| LogstorageLevels.UpdateKeyMeans | src/daemon/mct_daemon_offline_logstorage.c:667-747 | Updating a key touches exactly the contexts that the key covers |
| LogstorageLevels.UpdateDeviceAt | src/daemon/mct_daemon_offline_logstorage.c:854-913 | Connecting a device raises every context to the highest level of the filters that hit it |
| LogstorageLevels.ResetKeysAt | src/daemon/mct_daemon_offline_logstorage.c:793-820 | Resetting sets exactly the contexts to -1 that some key of the device covers |
| LogstorageLevels.FoundIsHit | src/offlinelogstorage/mct_offline_logstorage.c:239-262 | Through all keys of a device exactly the filters that hit are found |
| LogstorageSearch.SearchComplete | src/offlinelogstorage/mct_offline_logstorage.c:2202-2316 | The search through the possible keys finds every filter that has one of them if and only if it is not cut short: its counter does not reach the number of filters ahead of one still to be found |
| LogstorageSearch.NoDoubleSuffices | src/offlinelogstorage/mct_offline_logstorage.c:2202-2316 | Where no filter has two of the keys nothing is missed |
| LogstorageSearch.ConfigInOrder | src/offlinelogstorage/mct_offline_logstorage.c:2261-2315 | The filters found: those with ":apid:", "::ctid", ":apid:ctid", "ecu:apid:ctid", "ecu:apid:", "ecu::ctid" and "ecu::", in this order, up to the key with which the count reaches the number of filters |
| LogstorageSearch.FoundExactly | src/offlinelogstorage/mct_offline_logstorage.c:2261-2315 | A filter with ":apid:" or "::ctid" is always found; one with a later key if and only if none of the sums of what was found before, written out, is the number of filters |
| LogstorageSearch.NoFileDecides | src/daemon/mct_daemon_offline_logstorage.c:956-972 | A filter that names no file decides, whatever was found before it |
| LogstorageSearch.FoundFromKey | src/offlinelogstorage/mct_offline_logstorage.c:2202-2316 | The loop with its early end, from any key on |
| LogstorageSearch.HitIsTried | src/offlinelogstorage/mct_offline_logstorage.c:2225-2299 | The seven keys tried are those that cover the context |
| LogstorageSearch.NewContextLevel | src/daemon/mct_daemon_offline_logstorage.c:927-978 | A new context gets the level all devices together ask for if and only if every filter that hits it and is missed by the search is outweighed by one that is found on some device |
| LogstorageSearch.MixedFiltersMiss | src/offlinelogstorage/mct_offline_logstorage.c:2202-2316 | A filter with a list that holds an identifier and the wildcard ends the search before the filter of the ECU is found |
| LogstorageRuns.CachedLevels | src/daemon/mct_daemon_offline_logstorage.c:764-978 | After any run of registrations and device events each context registered by an application caches exactly the highest level over the connected devices' matching filters, -1 if none |
| LogstorageRuns.CachedFromEmpty | src/daemon/mct_daemon_offline_logstorage.c:764-978 | From an empty registry without devices, after any such run, every registered context caches that level |
| LogstorageRuns.ConnectedIff | src/daemon/mct_daemon_client.c:2902-2953 | Connecting a device leaves the cached levels right if and only if no level is left over from filters the device had before and none is missing because a warning skipped the update |
| LogstorageRuns.UnusedDeviceHarmless | src/offlinelogstorage/mct_offline_logstorage.c:2052-2083 | A device that was not connected and whose configuration gives no warning meets this |
| LogstorageRuns.DisconnectedKeeps | src/daemon/mct_daemon_offline_logstorage.c:764-839 | Disconnecting: reset, then all other devices raise again |
| LogstorageRuns.RegistryKeeps | src/daemon/mct-daemon.c:2518-2527 | Registrations under that condition, and all other operations on the registry, keep the levels right |
| LogstorageRuns.RegistrationIff | src/daemon/mct-daemon.c:2518-2527 | An accepted registration leaves every cached level right if and only if what the search misses is outweighed by what it finds |
| LogstorageRuns.StepIff | src/daemon/mct_daemon_offline_logstorage.c:764-978 | Any event leaves every cached level right if and only if it meets the condition for registrations or for connecting devices |
| LogstorageRuns.UnionOrder | src/daemon/mct_daemon_offline_logstorage.c:943-975 | The level does not depend on the order of the devices |
| LogstorageStale.StaleLevel | src/daemon/mct_daemon_client.c:2902-2953 | From a store that registrations reach: a device connected a second time with a lower level leaves the higher one in the context |
| LogstorageStale.MissingLevel | src/daemon/mct_daemon_client.c:2905-2912 | From the same store: a device whose configuration gives a warning counts as configured, but the level of the context is not raised |
| LogstorageDaemon.FindInList | src/offlinelogstorage/mct_offline_logstorage.c:239-262 | The nested loops over filters and their keys find the filters with the key, in order |
| LogstorageDaemon.GetLevelByKey | src/offlinelogstorage/mct_offline_logstorage.c:2141-2188 | The highest level among the filters with a key |
| LogstorageDaemon.UpdateAllContexts | src/daemon/mct_daemon_offline_logstorage.c:522-577 | The loop sets exactly the contexts that the key covers |
| LogstorageDaemon.UpdateContext | src/daemon/mct_daemon_offline_logstorage.c:596-653 | The single context named by the key is set, if it is registered |
| LogstorageDaemon.UpdateContextLevel | src/daemon/mct_daemon_offline_logstorage.c:667-747 | The key is split and decides which contexts are set |
| LogstorageDaemon.UpdateApplicationLevel | src/daemon/mct_daemon_offline_logstorage.c:854-913 | Every key of every filter of the device is applied, in order |
| LogstorageDaemon.ResetAllKeys | src/daemon/mct_daemon_offline_logstorage.c:793-820 | Every context covered by a key of the device is set to -1 |
| LogstorageDaemon.ResetApplicationLevel | src/daemon/mct_daemon_offline_logstorage.c:764-839 | Nothing happens for a device that is not connected or not configured; otherwise its keys are reset and all other devices raise the levels again |
| LogstorageDaemon.SearchConfig | src/offlinelogstorage/mct_offline_logstorage.c:2299-2315 | The filters found for the seven keys, written out in their order, up to the early end of the search |
| LogstorageDaemon.LogLevel | src/daemon/mct_daemon_offline_logstorage.c:927-978 | The level for a new context is the highest over all connected devices and the filters found |
| EventHandler.TableMatchesConnections | src/daemon/mct_daemon_event_handler.c:376-512 | Over every run each polled descriptor is open, is polled once and is that of an active connection, each active connection is polled, no connection has a closed descriptor, and the counter is the number of client connections |
| EventHandler.FilterChangedIff | src/daemon/mct_daemon_filter.c:1410-1569 | A filter change keeps the table right, polls open descriptors only and leaves no connection with a closed one if and only if it does not close the socket of a listening connection that goes on using it: clients not admitted, and the connection admitted, or inactive with a socket |
| EventHandler.ListenerClosed | src/daemon/mct_daemon_filter.c:1524-1568 | An active listening connection, a filter that admits it but no clients: the socket is closed and still polled, and a client with the same descriptor is taken for known |
| EventHandler.ListenerReopened | src/daemon/mct_daemon_filter.c:1524-1568 | Three filter changes after which a closed socket is polled |
| EventHandler.ListenerLost | src/daemon/mct_daemon_filter.c:1524-1560 | Two filter changes after which the listening connection has a socket that is not polled |
| EventHandler.FirstListener | src/daemon/mct_daemon_filter.c:1453-1522 | Without a listening connection one is created, polled from then on, if the filter admits it and a socket could be opened |
| EventHandler.SocketRegained | src/daemon/mct_daemon_filter.c:1524-1568 | A listening connection without a socket gets a new one when clients are admitted |
| EventHandler.SocketKept | src/daemon/mct_daemon_filter.c:1524-1568 | One that has its socket keeps it while clients are admitted, and is polled or not as the filter says |
| EventHandler.SocketClosed | src/daemon/mct_daemon_filter.c:1524-1568 | With neither clients nor listening admitted the socket is closed and no longer polled |
| EventHandler.CreateKeeps | src/daemon/mct_daemon_connection.c:339-394 | Creating a connection keeps the table right for any descriptor |
| EventHandler.UnregisterKeeps | src/daemon/mct_daemon_event_handler.c:477-512 | Unregistering keeps the table right whether or not the connection was active, and the clamp of the counter is not hit |
| EventHandler.CreateAppends | src/daemon/mct_daemon_connection.c:339-394 | A new connection stands at the end of the list, active exactly if the filter admits it, and then its descriptor at the end of the table |
| EventHandler.UnregisterTakesOut | src/daemon/mct_daemon_event_handler.c:477-512 | Exactly that connection goes, and its descriptor exactly if it was polled; all others keep their order |
| EventHandler.CheckActivateKeeps | src/daemon/mct_daemon_event_handler.c:376-418 | Activating and deactivating keep the table right |
| EventHandler.DeactivateFds | src/daemon/mct_daemon_event_handler.c:386-402 | Deactivating takes exactly one descriptor out |
| EventHandler.ActivateFds | src/daemon/mct_daemon_event_handler.c:403-411 | Activating adds exactly one |
| EventHandler.DisableAt | src/daemon/mct_daemon_event_handler.c:119-145 | Which entry goes and where the others stand afterwards |
| EventHandler.InvPollsOnce | src/daemon/mct_daemon_event_handler.c:119-145 | The table is free of duplicates and holds exactly the descriptors of active connections |
| EventHandlerTable.Compact | src/daemon/mct_daemon_event_handler.c:119-145 | The in-place pass takes out the entry, moves up the others in their order and marks what was freed as unused |
| EventHandlerTable.EventHandler.Grow | src/daemon/mct_daemon_event_handler.c:87-104 | Doubling the table keeps all entries and marks the new ones unused |
| EventHandlerTable.EventHandler.EnableFd | src/daemon/mct_daemon_event_handler.c:85-109 | The descriptor stands at the end of the table, in room made if needed, and nfds stays within max_nfds |
| EventHandlerTable.EventHandler.DisableFd | src/daemon/mct_daemon_event_handler.c:119-145 | The descriptor is taken out in place, the others move up in order |
| EventHandlerTable.EventHandler.FindConnection | src/daemon/mct_daemon_event_handler.c:260-273 | The first connection with the descriptor |
| EventHandlerTable.EventHandler.CheckActivate | src/daemon/mct_daemon_event_handler.c:376-418 | Activity, table and descriptor follow the filter and the request |
| EventHandlerTable.EventHandler.RegisterConnection | src/daemon/mct_daemon_event_handler.c:436-461 | The connection is appended, counted and activated as far as the filter admits it |
| EventHandlerTable.EventHandler.Create | src/daemon/mct_daemon_connection.c:339-394 | Nothing happens for no descriptor or a known one, otherwise the connection is registered |
| EventHandlerTable.EventHandler.UnregisterConnection | src/daemon/mct_daemon_event_handler.c:477-512 | The connection is uncounted, deactivated and taken off the list |
| EventHandlerTable.EventHandler.ChangeListener | src/daemon/mct_daemon_filter.c:1453-1568 | After a filter change the listening connection is created, given a new socket or has its socket closed, and is activated or deactivated |
| Filter.InsertKeeps | src/daemon/mct_daemon_filter.c:507-554 | Inserting keeps intervals that follow one another from 0 on; a level defined already is refused; otherwise the configuration is added and all others keep their upper level |
| Filter.InsertAllKeeps | src/daemon/mct_daemon_filter.c:638-643 | Reading any sequence of configurations gives intervals that follow one another from 0 on, with strictly increasing upper levels |
| Filter.OrderDoesNotMatter | src/daemon/mct_daemon_filter.c:507-554 | In whatever order configurations for different levels are read the list is the same |
| Filter.ChainUnique | src/daemon/mct_daemon_filter.c:507-554 | Lists of following intervals with the same configurations are the same |
| Filter.RangedComplete | src/daemon/mct_daemon_filter.c:1070-1109 | After the range check the intervals cover 0 to 100: the last one is extended, all others stay; an empty list gets the default filter |
| Filter.SelectsInterval | src/daemon/mct_daemon_filter.c:1432-1448 | Every level lies in exactly one interval, the one the search finds |
| Filter.ShortcutIsSearch | src/daemon/mct_daemon_filter_backend.c:34-42 | The in-range shortcut of the backend does what searching again would do |
| Filter.CurrentHoldsLevel | src/daemon/mct_daemon_filter_backend.c:20-47 | After any sequence of level changes the current configuration holds the last acceptable level |
| FilterList.MessageFilter.Insert | src/daemon/mct_daemon_filter.c:507-554 | Afterwards the linked list holds the list with the configuration inserted, or is unchanged if the level was defined |
| FilterList.MessageFilter.FindPlace | src/daemon/mct_daemon_filter.c:525-541 | The walk finds the level defined already, or stops at the node behind which the new one belongs |
| FilterList.MessageFilter.InsertInMiddle | src/daemon/mct_daemon_filter.c:530-537 | Between two nodes: next and level_min are rewritten, all other nodes stay |
| FilterList.MessageFilter.InsertAtEnd | src/daemon/mct_daemon_filter.c:543-551 | Behind the last node: level_min is set, all other nodes stay |
| FilterList.MessageFilter.InsertAtFront | src/daemon/mct_daemon_filter.c:518-523 | Before the first node: the level_min of the old first one is rewritten |
| FilterList.MessageFilter.CheckRange | src/daemon/mct_daemon_filter.c:1070-1109 | The last interval is extended, an empty list gets a closed filter |
| FilterList.MessageFilter.SelectLevel | src/daemon/mct_daemon_filter.c:1118-1143 | The first configuration whose upper level is not below the level |
| FilterList.MessageFilter.LevelChanged | src/daemon/mct_daemon_filter_backend.c:20-47 | The callback of the backend |
| EnvLevels.NumbersRoundTrip | src/lib/mct_env_ll.c:340-371 | Printing any non-empty list of items with numeric levels and parsing it gives the list back, the cursor at the terminator |
| EnvLevels.NamesRoundTrip | src/lib/mct_env_ll.c:102-143 | A printed list is read back if and only if a level is written by its name in the last item only |
| EnvLevels.NameBeforeLast | src/lib/mct_env_ll.c:102-143 | "A:X:info;A:X:2" is refused, "A:X:4;A:X:2" is accepted |
| EnvLevels.IdRead | src/lib/mct_env_ll.c:34-58 | An identifier of up to four characters followed by a separator is read back, the cursor on the separator |
| EnvLevels.DigitsRead | src/lib/mct_env_ll.c:174-207 | A numeric level from -1 to 6 is read back, and accepted exactly if ';' or the end follows |
| EnvLevels.NamedRead | src/lib/mct_env_ll.c:102-143 | A level by its name, in small letters or capitals: the cursor is left behind the ';' |
| EnvLevels.OnlyNames | src/lib/mct_env_ll.c:102-143 | Whatever is accepted as a name spells, in small letters or capitals, the name of the level |
| EnvLevels.AcceptedLevels | src/lib/mct_env_ll.c:174-207 | All that is accepted as a level: 0 to 6, "-1", a lone '-' for 0, or a name |
| EnvLevels.NamesSpelt | src/lib/mct_env_ll.c:102-143 | The eight names, letter by letter |
| EnvLevels.LongIdRefused | src/lib/mct_env_ll.c:34-58 | An identifier of five characters or more is refused |
| EnvLevels.ReadSet | src/lib/mct_env_ll.c:340-371 | On every input the parser ends with its cursor within the text and at least one item |
| EnvLevels.RefusedItem | src/lib/mct_env_ll.c:352-362 | For every text that is refused the item that failed stands last in the set, and it leaves the level of a context as it is if and only if it does not fit, or an earlier item that fits says at least as much, or its level is the one chosen without it |
| EnvLevels.EmptyTextSwitchesOff | src/lib/mct_env_ll.c:340-362 | An empty variable is refused, and sets level 0 for every context |
| EnvLevels.RefusedItemCounts | src/lib/mct_env_ll.c:358-362 | "A:X:no" is refused, and sets level 0 for A and X |
| EnvLevels.PriorityMeaning | src/lib/mct_env_ll.c:412-435 | The priority is positive if and only if the item fits, and orders items by how much they say |
| EnvLevelsParser.Reader.ExtractId | src/lib/mct_env_ll.c:34-58 | The cursor moves to the next unused character |
| EnvLevelsParser.Reader.ToLower | src/lib/mct_env_ll.c:66-99 | Up to seven characters before ';' or the end, capitals as small letters, all others as they are |
| EnvLevelsParser.Reader.ExtractName | src/lib/mct_env_ll.c:102-143 | A level written by its name is recognised, and the cursor is left where the specification says |
| EnvLevelsParser.Reader.ExtractLevel | src/lib/mct_env_ll.c:174-207 | A level and the ';' or end behind it are read, or the text is refused |
| EnvLevelsParser.Reader.ExtractItem | src/lib/mct_env_ll.c:215-249 | ECU, application, context and level of one item are read with the cursor within the text |
| EnvLevelsParser.Reader.ExtractSet | src/lib/mct_env_ll.c:340-371 | All items up to the terminator are added, within the capacity, or the text is refused |
| EnvLevelsParser.LevelSet.Increase | src/lib/mct_env_ll.c:305-329 | The block grows by ten and keeps all items |
| EnvLevelsParser.LevelSet.Add | src/lib/mct_env_ll.c:352-360 | An item is written within the capacity |
| EnvLevelsParser.AdjustLevel | src/lib/mct_env_ll.c:447-474 | The level is that of the first among the items with the highest priority, the given one if none fits |
| RuntimeConfigLoad.SaveLoad | src/daemon/mct_daemon_common.c:573-712 | For registries of any size loading what was saved restores every application and context with its description, level and status, if and only if no description is empty and every level and status is in the range that registering accepts |
| RuntimeConfigLoad.LoadsSaved | src/daemon/mct_daemon_common.c:1033-1195 | All applications come back, and the contexts up to the first one with a level or status out of range; that one and all behind it are lost, and loading fails; an empty description comes back as a newline |
| RuntimeConfigLoad.SavedFields | src/daemon/mct_daemon_common.c:1162-1180 | A saved line holds application, context, log level, trace status and description, in this order, each found again |
| RuntimeConfigLoad.DecTexts | src/daemon/mct_daemon_common.c:1167-1178 | Numbers as they are written: -1, 0, 6 and -128 |
| RuntimeConfigLoad.Int8Wraps | src/daemon/mct_daemon_common.c:1112-1117 | A number in a line is cut to a signed byte: 260 is loaded as 4 |
| RuntimeConfigLoad.LongLineSplit | src/daemon/mct_daemon_common.c:602-605 | A line that does not end within 254 characters is read in two parts |
| RuntimeConfigLoad.AppsRestored | src/daemon/mct_daemon_common.c:573-712 | Loading the saved application lines one after the other restores the applications in order |
| RuntimeConfigLoad.CtxsRestored | src/daemon/mct_daemon_common.c:1033-1139 | Loading the saved context lines restores the contexts in order, up to the first one out of range, and counts them for their applications |
| RuntimeConfigLoad.FieldTokens | src/daemon/mct_daemon_common.c:1090-1108 | strtok finds the five fields of a line |
| RuntimeConfigLost.LevelLosesContexts | src/daemon/mct_daemon_common.c:1033-1139 | A log client sets a level out of range on a registered context; after saving and loading that context and the one behind it are lost |
| RuntimeConfigLost.EmptyBecomesNewline | src/daemon/mct_daemon_common.c:617-645 | A registered application and context without descriptions come back with a newline for both |
| RuntimeConfig.AppLineLoaded | src/daemon/mct_daemon_common.c:628-655 | An application line registers the application again |
| RuntimeConfig.LineRead | src/daemon/mct_daemon_common.c:602-605 | fgets delivers one line |
| RuntimeConfig.LastToken | src/daemon/mct_daemon_common.c:630-638 | An empty field before the end of the line comes back as the newline |
| RuntimeConfigFile.ApplicationsSave | src/daemon/mct_daemon_common.c:663-712 | The file holds one line per application, in table order |
| RuntimeConfigFile.ContextsSave | src/daemon/mct_daemon_common.c:1141-1195 | The file holds one line per context, in table order |
| RuntimeConfigFile.GetLine | src/daemon/mct_daemon_common.c:602-605 | Characters up to a newline, as many as the buffer takes |
| RuntimeConfigFile.ApplicationsLoad | src/daemon/mct_daemon_common.c:573-661 | The loop over the lines leaves the registry that the loading function gives |
| RuntimeConfigFile.ContextsLoad | src/daemon/mct_daemon_common.c:1033-1139 | The loop over the lines, ending at a refused one, leaves the registry that the loading function gives |
| RuntimeConfigFile.LoadLine | src/daemon/mct_daemon_common.c:1088-1125 | The fields of a line found by strtok register one context, or the line is refused |

## Left out

* Out-of-memory branches, null-pointer checks and verbose printing. `calloc` of
  zero elements is taken to succeed.
* The body of the ring buffer is not part of this model: it is a queue whose push
  into an empty buffer succeeds and whose failed push changes nothing. Blocks are
  taken to fit the daemon's drain buffer.
* Integer widths of counters: the overflow counter, sizes and offsets do not wrap
  around. The 16-bit fields and signed bytes of GET_LOG_INFO do.
* Delivery: the INIT state before event handling, logstorage and offline trace as
  further receivers, block mode, ECU version and time zone messages, and a filter
  mask that changes during a run. The connections of the delivery part are
  clients and other descriptors with their kinds; the upkeep of the polled table
  is the event handler part.
* Registry: user lists of other ECUs, and the deletion of an application by the
  block-mode broken-pipe path, which does not delete its contexts. A missing
  description and an empty one are not told apart. `qsort` is used by its
  contract.
- RegistryTable.UserList.ReserveApplication: the array is a sequence with a capacity, so what is stated is the capacity; that a reallocation copies all entries is not modelled.
- RegistryTable.UserList.ReserveContext: the array is a sequence with a capacity, so what is stated is the capacity; that a reallocation copies all entries is not modelled.
* GET_LOG_INFO: the hexadecimal text between daemon and library is taken for the
  bytes it stands for; the library's reading past the end of the text is a
  failure here. Names of contexts and applications are zero-padded.
- LogInfoRoundTrip.ReplyRoundTrip: requests with a context but without an application are excluded; LogInfoUnfiltered.UnfilteredIff is about those.
* Setting log levels: clamping by the configured maximum, the reply messages, and
  a log client's requests for trace statuses, which are handled alike.
* Logstorage: writing and caching, passive nodes, devices dropped by write
  errors, and reading the configuration file. Filter lists that combine two
  wildcards without an ECU are not keys here.
* Event handler: the connection list is a sequence of values, so the links
  between its nodes are not modelled; the dispatch of events and the creation of
  receivers are not part of this model, and several bind addresses count as one
  socket, the last one.
* Message filter: control message masks, client masks beyond admission,
  injections, and the backend's own internals.
* Runtime configuration: `force_ll_ts`, the plain settings file, and saving an
  empty registry, which leaves an older file in place.
* Console tools, version and time replies, and option parsing.
