# multiDAQ, verified

multiDAQ reads out a detector: a Python server drives many boards over a Control, an Acquisition
and a Monitoring Plane, and a C receiver writes the data they send. This project models the parts
of it whose correctness does not show in any single function, and proves properties of every run.

* **Server and clients** (`Fsm`, `Registry`, `Protocol`, `Rounds`, `Outcomes`,
  `Membership`, `Races`, `StateClass`, `Liveness`).
  `Registry` gives every operation of the server state on values. `StateClass.ServerState` is the
  mutable object, with each method proved against its operation; `Outcomes` and `Membership` say in
  the states themselves what each operation comes to; `Protocol`, `Rounds` and `Races` prove what all
  runs of events, admissions and client losses keep.
* **Receiver** (`Ring`, `Workers`, `Receiver`, `Ordering`, `Acknowledgements`, `ReceiverTables`,
  `Promises`, `Routing`, `Delivery`). The threads are interleaved steps, one per critical section; the ring and the shared
  tables are arrays updated in place.
* **Event data** (`Bits`, `Decoder`, `Records`, `Writer`, `MetadataText`). From a DMA payload to
  decoded fields, to CSV or binary records, to chunked files; and from the metadata dictionary to
  the header of the file.
* **Handshake** (`Handshake`). Interleaved Control Plane sessions, with every other thread allowed
  to touch the registry between any two steps.
* **Bookkeeping** (`Persistence`, `Conservation`, `MetadataStore`, `AcquisitionSession`,
  `SessionOrder`, `WakeUp`, `TimeSync`). Sample counters, metadata transactions, the acquisition session, its wake-up and the
  time-sync schedule.

`dafny verify dfyconfig.toml` checks everything.

## Where the code falls short of a property

Each of these has a lemma with the failing case, and one that says exactly when the property holds.

* `pending_configuration_source` is written before the targets of a configuration are checked, so a
  refused CONFIGURATION_STARTED changes that one field (`Rounds.RefusedEventChangesNothing`,
  `Rounds.RefusedStartIsNoted`).
* A disconnect request during a configuration leaves its clients CONFIGURING. A later round is then
  refused its truthful result as long as such a client is left outside its targets
  (`Rounds.TruthfulResultAccepted`, `Rounds.HonestResultRefused`).
* The loss of an acquisition client is two locked operations. An event that enters FINALIZING
  between them strands the client in FINALIZING (`Races.InterruptedLossCoupling`,
  `Races.InterruptedLossStrandsTheClient`).
* The listener hashes the source id as a C string, the data receiver as bytes: an identity with a
  zero byte can send data and OPEN to different workers (`Routing.DataFollowTheirFile`,
  `Routing.ZeroByteSplitsASource`), and such data are never written (`Delivery.IdentityIsWritten`).
* A zero byte in the metadata hides what follows (`MetadataText.ReceivedExactly`,
  `MetadataText.ZeroByteHidesWhatFollows`).
* A client requested twice in one session can end the start phase both enabled and with an error
  (`AcquisitionSession.OutcomesExcludeIffUnique`).
* `stop` of the persistence service does not wait for a `flush_stream` of another thread
  (`Conservation.StopLeavesAllCounted`, `Conservation.StopCanReturnDuringAFlush`).
* Client identities that differ only in characters unsafe for a folder name share their metadata
  file (`MetadataStore.AgreementOfSafeFolders`, `MetadataStore.FoldersAreNotDistinct`).
* A stop request that is late because its session ended otherwise stops the next session
  (`WakeUp.StoppedOnlyByItsOwnLosses`, `WakeUp.LateRequestStopsTheNextSession`).

## Model

| member | source | states |
|---|---|---|
| `Protocol.PlanesAlways` | server/core/server_state.py:396-432 | after any sequence of registry and event operations, operational implies both planes and every registered client is on the Control Plane; can_start_acquisition is READY with somebody operational |
| `Protocol.EventKeeps` | server/core/server_state.py:498-966 | one event, one client: nobody is registered, forgotten or moved between planes, only a client on both planes becomes operational, and server and client states stay coupled |
| `Protocol.InvariantAlways` | server/core/server_state.py:498-966 | coupling, planes and pending targets hold in every run of events, admissions, losses and exclusions |
| `Protocol.CoupledAlways` | server/core/server_state.py:777-929 | a client is ACQUIRING (FINALIZING) if and only if it is operational and the server is in that state, over every run |
| `Outcomes.ConfigurationStarts` | server/core/server_state.py:605-665 | when the start of a configuration is accepted, and what it makes of every client |
| `Outcomes.ConfigurationEnds` | server/core/server_state.py:667-775 | every client of the round ends READY and operational or in ERROR, nobody else moves, and the server goes to READY or back |
| `Outcomes.ResultAccepted` | server/core/server_state.py:551-580 | the exact condition under which a configuration result is accepted, with lost clients dropped from it |
| `Outcomes.AcquisitionStarts` | server/core/server_state.py:777-813 | when an acquisition is accepted; the active clients start, the others leave the operational set |
| `Outcomes.FatalErrorEnds` | server/core/server_state.py:814-827 | a fatal error is never refused for the state and ends every session in ERROR |
| `Outcomes.OtherEventsTouchNoClient` | server/core/server_state.py:86-150 | the remaining events move the server alone |
| `Outcomes.OutsideSessions` | server/core/server_state.py:86-150 | where the server goes when a connection is lost or given up outside a session |
| `Outcomes.AttemptsAndRecoveries` | server/core/server_state.py:86-150 | when connection attempts and recoveries are accepted, and where they lead |
| `Outcomes.SessionStops` | server/core/server_state.py:828-833 | whatever ends an acquisition is refused only for its form, and every operational client finalizes |
| `Outcomes.SessionEnds` | server/core/server_state.py:582-595 | a whole end of a session with anything in between: a disconnect or a lost Control Plane ends in DISCONNECTED, a lost Acquisition Plane in CONTROL_CONNECTED, a stop where it was asked to or in READY, with the state of every finalized client |
| `Outcomes.LaterDisconnectWins` | server/core/server_state.py:582-595 | a disconnect requested during a finalization replaces its target |
| `Registry.BranchAlwaysFits` | server/core/server_state.py:86-150 | the states from which each path of process_event can be entered |
| `Rounds.RefusedEventChangesNothing` | server/core/server_state.py:605-649 | a refused event changes at most the noted source state of a configuration, and nothing at all exactly when it is no CONFIGURATION_STARTED that gets as far as its targets or the state was noted already |
| `Rounds.RefusedStartIsNoted` | server/core/server_state.py:605-649 | a reachable state in which a refused start is noted |
| `Rounds.WaitingKeepsRound` | server/core/server_state.py:551-580 | losses, admissions and refused events between start and result keep the round, with fewer clients |
| `Rounds.ResultCloses` | server/core/server_state.py:667-775 | an accepted result leaves nobody CONFIGURING and makes operational exactly the reported successes still under configuration |
| `Rounds.FallbackNeverRefused` | server/services/acquisition_orchestrator.py:274-290 | CONFIGURATION_FAILED without metadata is accepted in CONFIGURING and goes back to the noted state |
| `Rounds.ConfigurationRound` | server/core/server_state.py:605-775 | a whole round with arbitrary losses: who is operational afterwards, and that the fallback returns to the state where the start was accepted |
| `Rounds.TruthfulResultAccepted` | server/core/server_state.py:551-580 | a report on all targets is accepted exactly when no client of an earlier unfinished round is left outside them |
| `Rounds.HonestResultRefused` | server/core/server_state.py:551-580 | a reachable run, through a disconnect and a new connection, whose truthful report is refused |
| `Rounds.DisconnectLeavesClientsConfiguring` | server/core/server_state.py:86-150 | a disconnect request ends a round without touching its clients |
| `Rounds.OperationalOnlyIfConfigured` | server/core/server_state.py:705-722 | whoever became operational in a run was named by an accepted CONFIGURATION_SUCCEEDED in it |
| `Rounds.ReturningClientMustBeConfigured` | server/communication/acquisition_manager.py:337-341 | a re-admitted client is not operational until a later configuration result names it |
| `Races.InterruptedLossCoupling` | server/services/client_liveness_service.py:61-97 | an event between the two halves of a loss keeps the coupling exactly when it does not enter FINALIZING with the client operational |
| `Races.LossInterruptedByMany` | server/services/client_liveness_service.py:61-97 | with any steps of other threads between the halves, the coupling survives exactly when the client is in no session at the second half; certain if the server is neither ACQUIRING nor FINALIZING then |
| `Races.InterruptedLossStrandsTheClient` | server/services/client_liveness_service.py:61-97 | a stop request at that point leaves the client FINALIZING and not operational |
| `Races.ControlLossKeepsInvariant` | server/services/client_liveness_service.py:172-181 | a Control Plane loss keeps the invariant whatever other threads do between its four locked sections |
| `Races.ExclusionCoupling` | server/core/server_state.py:1192-1198 | remove_operational_client keeps the coupling exactly when the client is in no session |
| `StateClass.ServerState.NormalizeClientIds` | server/core/server_state.py:469-481 | the listed ids without duplicates, invalid exactly when an empty one is listed |
| `StateClass.ServerState.StartConfiguration` | server/core/server_state.py:605-665 | the in-place update is the specified start of a round, refusals included |
| `StateClass.ServerState.ConfigurationSucceed` | server/core/server_state.py:667-735 | the in-place update is the specified success, refusals included |
| `StateClass.ServerState.ConfigurationFail` | server/core/server_state.py:736-775 | the in-place update is the specified failure, refusals included |
| `StateClass.ServerState.ConfigurationResult` | server/core/server_state.py:551-580 | lost clients are dropped from a result, which may turn a success into a failure |
| `StateClass.ServerState.StartAcquisition` | server/core/server_state.py:777-813 | the active clients, all operational and READY, become the operational set and ACQUIRING |
| `StateClass.ServerState.BeginFinalization` | server/core/server_state.py:582-595 | the pending target follows from the event and the operational clients become FINALIZING |
| `StateClass.ServerState.EndFinalization` | server/core/server_state.py:834-929 | every operational client goes to the state that belongs to the pending target |
| `StateClass.ServerState.ProcessEvent` | server/core/server_state.py:498-966 | process_event is the specified transition of server, clients and pending fields together |
| `StateClass.ServerState.ProcessClientEvent` | server/core/server_state.py:968-1032 | one client moves by the client table, and only then |
| `StateClass.ServerState.AddControlClient` | server/core/server_state.py:1078-1105 | registration with identity and MAC index |
| `StateClass.ServerState.AddPlaneClient` | server/core/server_state.py:1131-1148 | a client not on the Control Plane is refused |
| `StateClass.ServerState.RemoveClient` | server/core/server_state.py:1150-1171 | the record goes, and the MAC entry only if it still points at it |
| `StateClass.ServerState.ClearAcquisitionClients` | server/core/server_state.py:1123-1129 | everybody leaves the Acquisition Plane and is not operational |
| `StateClass.ServerState.ResetToDisconnectedState` | server/core/server_state.py:1034-1048 | DISCONNECTED, nobody operational, nothing pending |
| `Membership.AddedControl` | server/core/server_state.py:1078-1105 | a registration is new or keeps everything but the plane and a given identity |
| `Membership.MacIndexLearns` | server/core/server_state.py:1078-1105 | the MAC index learns every identity that has a MAC, and nothing else |
| `Membership.MacIndexForgets` | server/core/server_state.py:1150-1171 | it forgets a client with its registration, unless the MAC has moved on |
| `Membership.Joined` | server/core/server_state.py:1131-1148 | the other planes are joined only from the Control Plane, with nothing else changed |
| `Membership.Lost` | server/services/client_liveness_service.py:61-97 | what the loss of each plane leaves of the client; nobody else is touched |
| `Membership.AdmittedToControl` | server/communication/control_manager.py:602-611 | a Control Plane handshake begins a new registration, of which nothing older stays |
| `Membership.AdmittedElsewhere` | server/communication/acquisition_manager.py:337-341 | a handshake on another plane puts a registered client there, as after a loss of that plane |
| `Membership.Removed` | server/core/server_state.py:1107-1121 | what each removal takes, from that client only |
| `Membership.Cleared` | server/core/server_state.py:1123-1129 | what the operations on everybody leave of each client |
| `Membership.OperationalReplaced` | server/core/server_state.py:1176-1190 | the operational set is replaced only by clients on both planes, and then is that set |
| `Liveness.AnnouncedAlways` | server/services/client_liveness_service.py:37-181 | over every run the announced clients are exactly those on all three planes, with no open loss report |
| `Liveness.LossIsNoted` | server/services/client_liveness_service.py:37-117 | a loss is always noted and touches no other client |
| `Liveness.ClientLivenessService.RemoveFromEveryPlane` | server/services/client_liveness_service.py:172-181 | the removals plane by plane amount to forgetting the client |
| `Liveness.ClientLivenessService.HandleClientLost` | server/services/client_liveness_service.py:37-117 | what a loss on one plane removes and remembers; true exactly when the client was there |
| `Liveness.ClientLivenessService.HandleClientPlaneConnected` | server/services/client_liveness_service.py:119-170 | true exactly at the first call that finds the client on all planes |
| `Ring.SlotIsModular` | server/acquisition/evreceiver.c:448-448 | the wrapped cell is (head + i) mod size |
| `Ring.PushAppends` | server/acquisition/evreceiver.c:1555-1558 | writing at the tail appends to the queue and touches no occupied cell |
| `Ring.PopDrops` | server/acquisition/evreceiver.c:1795-1799 | advancing the head removes the first item |
| `Ring.WorkerRing.Put` | server/acquisition/evreceiver.c:1542-1558 | the array ring appends to the FIFO it stands for |
| `Ring.WorkerRing.TakeBatch` | server/acquisition/evreceiver.c:1791-1802 | the consumer takes the first items in order, at most a batch |
| `Workers.WorkerAlways` | server/acquisition/evreceiver.c:1770-1829 | items come out once, in insertion order; a batch is written exactly when its source was opened with success and not closed since |
| `Workers.NextOutcome` | server/acquisition/evreceiver.c:1579-1720 | the outcome of OPEN, CLOSE and DATA, told by what was executed before |
| `Ordering.SoundAlways` | server/acquisition/evreceiver.c:304-468 | the invariant of listener, close worker, data receiver and queue workers in every interleaving |
| `Ordering.DelayedClosesKeepTheirPlace` | server/acquisition/evreceiver.c:304-468 | commands of a source are queued in the order they were given, at most one delayed CLOSE per source is active, none is queued before its deadline and nothing later before it |
| `Ordering.NoFileEndsByAnEarlierRequest` | server/acquisition/evreceiver.c:1213-1240 | a CLOSE executed after an OPEN of its source was asked for after it |
| `Promises.RequestedCloseIsKept` | server/acquisition/evreceiver.c:304-346 | a CLOSE that found no active close of its source and a free slot is scheduled or queued to the end of every run, due two seconds after the request |
| `Promises.ScheduledCloseIsKept` | server/acquisition/evreceiver.c:304-346 | the close that answers a second request is kept likewise |
| `Promises.OverdueCloseCanBeTaken` | server/acquisition/evreceiver.c:390-420 | while a close is overdue the close worker has one to take |
| `Acknowledgements.OkMeansExecuted` | server/acquisition/evreceiver.c:252-302 | an OK reply means that very item was executed with success; a late completion answers nobody else |
| `Promises.ReplyIsTruthful` | server/acquisition/evreceiver.c:281-302 | the reply at the end of a wait is OK if and only if the awaited item has been executed with success by then |
| `ReceiverTables.DelayedCloses.HasPending` | server/acquisition/evreceiver.c:348-365 | true exactly when the source has an active delayed CLOSE |
| `ReceiverTables.DelayedCloses.ScheduleClose` | server/acquisition/evreceiver.c:304-346 | the first free slot becomes the close of the source, due two seconds later, and no other slot changes, exactly when no active slot has the source and one is free; otherwise nothing changes |
| `ReceiverTables.DelayedCloses.SelectNearest` | server/acquisition/evreceiver.c:396-420 | the active slot with the nearest deadline, the first among equals |
| `ReceiverTables.OpenAck.Finish` | server/acquisition/evreceiver.c:281-302 | success exactly when the awaited token was completed with success |
| `Routing.HashFnv1a` | server/acquisition/dispatch/worker_dispatcher.c:4-14 | 64-bit FNV-1a with wrap-around |
| `Routing.DataFollowTheirFile` | server/acquisition/evreceiver.c:1530-1540 | data of an identity reach the worker that has their file exactly when the low three bits of the bytes behind its first zero byte lead the hash back to it; always without a zero byte |
| `Routing.PaddedIdentity` | server/acquisition/evreceiver.c:1530-1540 | an identity padded with zero bytes goes astray exactly when their number is odd and the worker is neither 0 nor 4 |
| `Routing.ZeroByteSplitsASource` | server/acquisition/evreceiver.c:1156-1158 | an identity with a zero byte that does not |
| `Delivery.BatchIsWritten` | server/acquisition/evreceiver.c:1770-1829 | over every interleaving of the whole receiver, a batch is written exactly when it is on the worker of its source and the file is held open there in queue order |
| `Delivery.IdentityIsWritten` | server/acquisition/evreceiver.c:1530-1558 | the same from the identity on the wire, with the condition on its hidden bytes |
| `Decoder.GetBits` | server/acquisition/evreceiver.c:797-822 | the MSB-first value of the bit slice, within its width |
| `Decoder.ComputeCrc` | server/acquisition/evreceiver.c:824-834 | the XOR of the first eleven bytes, as bit parities |
| `Decoder.CheckCrc` | server/acquisition/evreceiver.c:824-837 | zero exactly when every bit position is set an even number of times over the twelve bytes |
| `Decoder.CorruptedByteIsRejected` | server/acquisition/evreceiver.c:824-837 | any change confined to one checked byte of an accepted event is rejected |
| `Decoder.CorruptedPayloadIsRejected` | server/acquisition/evreceiver.c:1834-1841 | the same for the payload bytes 2 to 13 of the event as received |
| `Decoder.DecodeFields` | server/acquisition/evreceiver.c:1843-1851 | the seven fields are the values of their slices |
| `Decoder.CoarseTimeIsLossless` | server/acquisition/evreceiver.c:1845-1847 | the three-part coarse time is a 28-bit number that determines its parts |
| `Decoder.FieldsOfPack` | server/acquisition/evreceiver.c:1843-1851 | packing then decoding returns every field, whatever surrounds them |
| `Decoder.PackOfFields` | server/acquisition/evreceiver.c:1843-1851 | decoding then packing returns the event |
| `Records.CsvLineIsLossless` | server/acquisition/evreceiver.c:1872-1876 | two events with one CSV line are equal |
| `Records.ColumnsOfAnEvent` | server/acquisition/evreceiver.c:1872-1876 | for every event, the order of the seven columns and their separators |
| `Records.RecordIsLossless` | server/acquisition/evreceiver.c:186-194 | unpacking the 12-byte record returns the fields |
| `Records.RecordLayout` | server/acquisition/evreceiver.c:186-194 | where each field lies in the record, low byte first |
| `Records.RecordFits` | server/acquisition/evreceiver.c:1859-1877 | a CSV line has at most 34 bytes and a record 12 |
| `Records.LongestLine` | server/acquisition/evreceiver.c:1872-1876 | the bound of 34 is reached |
| `Records.PackedEventIsWritten` | server/acquisition/evreceiver.c:1834-1877 | an accepted event is written as the record of its fields, an all-zero one not at all |
| `Records.CorruptedEventIsSkipped` | server/acquisition/evreceiver.c:1839-1841 | with any payload byte changed it is not written |
| `Records.OneEvent` | server/acquisition/evreceiver.c:1827-1837 | a batch of one event gives its output |
| `Records.BatchesFollow` | server/acquisition/evreceiver.c:1827-1837 | batches of whole events one after the other are written one after the other |
| `Records.EncodingsAreOutputs` | server/acquisition/evreceiver.c:1827-1837 | the output of a batch is that of the 16-byte events at their places, in order |
| `Writer.TankWriter.WriteEvent` | server/acquisition/evreceiver.c:1856-1903 | an event always fits; the stream grows by exactly its record across flushes and rollovers |
| `Writer.TankWriter.WriteOut` | server/acquisition/evreceiver.c:1885-1888 | the buffer goes to the current file and the stream stays the same |
| `Writer.TankWriter.Rollover` | server/acquisition/evreceiver.c:739-794 | a new chunk begins and the stream stays the same |
| `Writer.TankWriter.ProcessBatch` | server/acquisition/evreceiver.c:1827-1903 | the stream grows by the records of the accepted events of the batch, in order |
| `Writer.TankWriter.Close` | server/acquisition/evreceiver.c:1660-1688 | nothing stays buffered and the files are the whole stream |
| `Writer.Acquire` | server/acquisition/evreceiver.c:1827-1903 | from OPEN to CLOSE the chunk payloads in order are the outputs of all events, each the 16 bytes at its place in its batch; each chunk below 10 GiB plus one buffer |
| `MetadataText.SerializeMetadata` | server/acquisition/receiver_service.py:74-96 | the joined fields, or an error exactly when a key or a value holds a separator |
| `MetadataText.RoundTrip` | server/acquisition/evreceiver.c:499-520 | without zero bytes the tokenizer finds exactly the entries with a key and a value, in order |
| `MetadataText.ReceivedExactly` | server/acquisition/evreceiver.c:499-520 | with zero bytes it does so exactly when no such entry comes with or after one |
| `MetadataText.ZeroByteHidesWhatFollows` | server/acquisition/evreceiver.c:499-520 | a value with a zero byte arrives cut, and the entries after it not at all |
| `MetadataText.PopulateStores` | server/acquisition/evreceiver.c:520-600 | the fields stored from the pairs that were found |
| `MetadataText.HeaderHoldsTheMetadata` | server/acquisition/evreceiver.c:485-600 | a header field holds the value that was sent, and a missing or empty one its reset default |
| `MetadataText.AtoiReadsBack` | server/acquisition/evreceiver.c:510-513 | reading back every printed integer, whatever follows it |
| `MetadataText.IntegersArrive` | server/acquisition/evreceiver.c:499-600 | every integer of the dictionary arrives in the header as that integer |
| `MetadataText.TextIsCut` | server/acquisition/evreceiver.c:514-516 | a text is stored as it is or cut to its array |
| `MetadataText.TextFieldsOfIds` | server/acquisition/evreceiver.c:514-560 | the array sizes of the identifying fields |
| `MetadataText.ThresholdPeField` | server/acquisition/evreceiver.c:578-583 | the decimal thresholds exist once per channel |
| `MetadataText.Defaults` | server/acquisition/evreceiver.c:485-497 | what a missing voltage, threshold or mask holds |
| `MetadataText.PlainDefaults` | server/acquisition/evreceiver.c:485-497 | the other integers default to zero |
| `Handshake.IdentitiesStayDistinct` | server/communication/control_manager.py:390-440 | in every interleaving no two registered clients share a multipmt_id, and the MAC index points at clients with that MAC |
| `Handshake.AdmissionsAreJustified` | server/communication/control_manager.py:444-611 | every admission registers the identity of the last startup_ack of its session since the hello, and answers the last message sent in it |
| `Handshake.RivalIsRefused` | server/communication/control_manager.py:594-600 | of two sessions that both passed startup_ack with one multipmt_id, the second to end is refused |
| `Handshake.HandshakeAdmits` | server/communication/control_manager.py:444-611 | a client that answers every message with a free identity is admitted |
| `Handshake.HelloBegins` | server/communication/control_manager.py:444-483 | a hello always begins a new session without an identity, with its deadline |
| `Handshake.StrayMessageIsIgnored` | server/communication/control_manager.py:415-427 | outside a session or in an unknown phase a message changes nothing |
| `Handshake.WrongAnswerEnds` | server/communication/control_manager.py:374-387 | a wrong kind, text or reply id ends the session and nothing else |
| `Handshake.IdentityIsJudged` | server/communication/control_manager.py:523-579 | exactly when an identity is kept: complete, free, numbered and answered |
| `Handshake.ConclusionIsJudged` | server/communication/control_manager.py:581-611 | exactly when a conclusion begins an admission, and with which identity |
| `Handshake.UnreachableIsLost` | server/communication/control_manager.py:176-217 | a client the answer cannot reach is lost and its session ends |
| `Handshake.ControlPlaneManager.ClientWithMultipmtId` | server/core/server_state.py:1239-1248 | a holder of the id if there is one, otherwise none |
| `Handshake.ControlPlaneManager.ValidateIdentity` | server/communication/control_manager.py:390-413 | valid exactly when no field is missing and the search finds nobody else |
| `Handshake.ControlPlaneManager.Send` | server/communication/control_manager.py:176-217 | an unreachable client is lost on the Control Plane |
| `Handshake.ControlPlaneManager.HandleHello` | server/communication/control_manager.py:444-483 | a new session, or none |
| `Handshake.ControlPlaneManager.HandleReady` | server/communication/control_manager.py:486-520 | the session goes on with the new message id, or ends |
| `Handshake.ControlPlaneManager.HandleStartupAck` | server/communication/control_manager.py:523-579 | the identity is kept only if valid, free by the search in the registry, numbered and answered |
| `Handshake.ControlPlaneManager.HandleEnd` | server/communication/control_manager.py:581-619 | check with a new search in the registry, eviction of the previous session and registration in one go |
| `Handshake.ControlPlaneManager.HandleMessage` | server/communication/control_manager.py:415-433 | every message is a step of the system, with what the search found; without a session only a hello is heard |
| `Handshake.ControlPlaneManager.ExpireSessions` | server/communication/control_manager.py:435-440 | exactly the sessions past their deadline go |
| `Conservation.AccountedAlways` | server/services/monitor_persistence_service.py:984-1117 | in every run each accepted sample is in exactly one place, the counters are right, buffers stay below the batch size and have an age exactly when not empty |
| `Conservation.CountersBalance` | server/services/monitor_persistence_service.py:245-286 | enqueued plus refused equals queued, held, buffered, written and dropped, per stream |
| `Conservation.PendingIsPositive` | server/services/monitor_persistence_service.py:577-612 | the branch for a counter that is not positive is never taken |
| `Conservation.IdleStreamIsDrained` | server/services/monitor_persistence_service.py:818-921 | the counter is zero exactly when no sample of the stream is queued or with a worker |
| `Conservation.FlushTakesOneStream` | server/services/monitor_persistence_service.py:2815-2860 | flush_stream takes the samples of its stream and of no other |
| `Conservation.FlushLeavesNothingOverdue` | server/services/monitor_persistence_service.py:2862-2900 | after a periodic flush no buffer is as old as the interval |
| `Conservation.StopLeavesAllCounted` | server/services/monitor_persistence_service.py:1151-1206 | after stop every enqueued sample is counted exactly when no other thread is inside flush_stream |
| `Conservation.StopCanReturnDuringAFlush` | server/services/monitoring_orchestrator.py:2010-2020 | a run in which stop has returned and one is |
| `Persistence.MonitorPersistenceService.EnqueueSample` | server/services/monitor_persistence_service.py:245-286 | accepted exactly when running, configured, enabled and not full, with the counters of each outcome |
| `Persistence.MonitorPersistenceService.MarkItemProcessed` | server/services/monitor_persistence_service.py:577-612 | the pending counter goes down, never below zero; idle exactly at zero |
| `Persistence.MonitorPersistenceService.BufferSample` | server/services/monitor_persistence_service.py:2130-2160 | the buffer grows by one and keeps the age of its first sample, or is taken out as a full batch |
| `Persistence.MonitorPersistenceService.TakeDue` | server/services/monitor_persistence_service.py:2862-2900 | exactly the buffers that are old enough are taken out |
| `Persistence.MonitorPersistenceService.TakeAll` | server/services/monitor_persistence_service.py:2986-3012 | every buffer is taken out |
| `MetadataStore.AgreementIffDistinctFolders` | server/services/monitor_persistence_service.py:1264-1316 | for every set of clients: memory equals disk at every transaction boundary of every run of theirs, whatever fails, exactly when no two of them share a folder |
| `MetadataStore.AgreementOfSafeFolders` | server/services/monitor_persistence_service.py:2370-2376 | with the folder names of the program: exactly when no two identities differ in unsafe characters and underscores only |
| `MetadataStore.SharedFolderOverwrites` | server/services/monitor_persistence_service.py:3123-3192 | two clients with one folder, both initialized without a failure: the file of the first holds the metadata of the second |
| `MetadataStore.SharedFolder` | server/services/monitor_persistence_service.py:2370-2376 | which identities get one folder name |
| `MetadataStore.FoldersAreNotDistinct` | server/services/monitor_persistence_service.py:2370-2376 | two identities with one folder, and the run in which one overwrites the other |
| `MetadataStore.CommitsAreSerial` | server/services/monitor_persistence_service.py:1319-1502 | what is committed is the result of the committed operations one after the other |
| `MetadataStore.SectionStays` | server/services/monitor_persistence_service.py:1319-1412 | the last committed update of a section is not lost to updates of others |
| `MetadataStore.ChangeStays` | server/services/monitor_persistence_service.py:1504-1640 | the last committed change of a register is its current value |
| `MetadataStore.ChangeIsRecorded` | server/services/monitor_persistence_service.py:1578-1606 | the history grows by exactly the change, or not at all when the value is the same |
| `MetadataStore.InitializationStays` | server/services/monitor_persistence_service.py:1264-1316 | later initializations change nothing |
| `MetadataStore.HistoryReplays` | server/services/monitor_persistence_service.py:1504-1640 | replaying the history from the initial values gives the current ones, each old value being what its predecessors left |
| `MetadataStore.MetadataTransactions.Transact` | server/services/monitor_persistence_service.py:1264-1640 | file first, memory second, with the new version of every operation; a failed write changes neither |
| `AcquisitionSession.StartIsOrderly` | server/services/acquisition_service.py:1146-1254 | a non-zero RC19 is written only after the confirmed OPEN_READY and START of that client |
| `AcquisitionSession.StartIsCareful` | server/services/acquisition_service.py:1167-1250 | nothing is opened before its register was read as disabled and its reset confirmed, an unconfirmed OPEN is closed at once, and every start error names what was really met |
| `AcquisitionSession.StartDecides` | server/services/acquisition_service.py:1146-1254 | every requested client ends enabled or with an error; not both, if nobody is requested twice |
| `AcquisitionSession.OutcomesExcludeIffUnique` | server/services/acquisition_service.py:1173-1206 | the two exclude each other in every world exactly when nobody is requested twice |
| `AcquisitionSession.EnabledIsSwitchedOff` | server/services/acquisition_service.py:1417-1507 | whatever may have been enabled is later switched off, unless the client is recorded as lost |
| `AcquisitionSession.InterruptedIsSwitchedOff` | server/services/acquisition_service.py:1459-1476 | an exception at any point of the start is followed by switching off every client that may have been enabled, lost or not |
| `AcquisitionSession.ResultsAreTruthful` | server/services/acquisition_service.py:1485-1507 | success means enabled, not lost and every finalization step done; it excludes an error and one of them is always there |
| `AcquisitionSession.LostClientsAreLeftAlone` | server/services/acquisition_service.py:1265-1301 | the finalization of a lost client only stops its producer and closes its file |
| `AcquisitionSession.LostClientsAreClosed` | server/services/acquisition_service.py:1265-1301 | a lost client with a file and a known number has its producer stopped and then its file closed |
| `AcquisitionSession.OpenAndStartPreparedClients` | server/services/acquisition_service.py:1146-1254 | the two loops compute the specified start |
| `AcquisitionSession.SweepClients` | server/services/acquisition_service.py:1303-1315 | one command per client in order, with its outcome |
| `AcquisitionSession.HardwareStopAndFlush` | server/services/acquisition_service.py:1521-1557 | disable, flush, trigger reset and close for everybody; finalized exactly when none of them failed |
| `SessionOrder.FinalizationInOrder` | server/services/acquisition_service.py:1530-1546 | for the clients still there every disable precedes every flush, every flush every trigger reset, and all of these every close |
| `SessionOrder.InterruptionInOrder` | server/services/acquisition_service.py:1459-1476 | the same after an exception, for every client |
| `SessionOrder.TriggerPreserved` | server/services/acquisition_service.py:1538-1543 | no trigger reset when the configuration has to survive |
| `SessionOrder.StopIsHonoured` | server/services/acquisition_service.py:1204-1245 | the stop flag is seen down immediately before every OPEN, START and enable |
| `SessionOrder.ReportExplains` | server/services/acquisition_service.py:1417-1507 | what the report says of files, finalization and errors, in the commands that were given |
| `SessionOrder.SmoothSessionSucceeds` | server/services/acquisition_service.py:1485-1507 | if nothing goes wrong every requested client succeeds |
| `WakeUp.NeverForgotten` | server/services/acquisition_service.py:1938-1976 | in every interleaving, if all acquiring clients are lost then the stop is requested or a thread is about to |
| `WakeUp.LossIsRecorded` | server/services/acquisition_service.py:1943-1966 | which losses count, and when one decides |
| `WakeUp.TheLastLossDecides` | server/services/acquisition_service.py:1943-1976 | the step that makes it true, a loss or the publication, is the one that decides |
| `WakeUp.TheWaitEnds` | server/services/acquisition_service.py:1426-1455 | a wait whose clients are all lost can end at once or after that request |
| `WakeUp.LateRequestStopsTheNextSession` | server/services/acquisition_service.py:1968-1976 | a late request reaches the next session |
| `WakeUp.StoppedOnlyByItsOwnLosses` | server/services/acquisition_service.py:1318-1325 | whatever happens in a session, only the loss of all its acquiring clients or a user stops it, exactly when no request of an earlier session is on its way at its beginning |
| `WakeUp.AcquisitionService.RecordLoss` | server/services/acquisition_service.py:1953-1966 | the locked section of a loss |
| `WakeUp.AcquisitionService.OnClientLost` | server/services/acquisition_service.py:1943-1976 | the last loss requests the stop, and nothing else here does |
| `WakeUp.AcquisitionService.PublishAcquiring` | server/services/acquisition_service.py:1426-1433 | publication requests the stop exactly when all of them are lost already |
| `TimeSync.NextSlotIsLeast` | server/services/monitoring_service.py:378-390 | the least slot of the client's phase that is not before the bound |
| `TimeSync.ResyncWindow` | server/services/monitoring_service.py:391-432 | first resync in [sync+P, sync+2P), later ones in (sync, sync+P] |
| `TimeSync.ExclusiveAlways` | server/services/monitoring_service.py:477-590 | in every run at most SYNC_WORKERS clients are in progress, none of them twice |
| `TimeSync.EarliestFirst` | server/services/monitoring_service.py:525-549 | a pass takes as many due clients as there are free workers, the earliest first |
| `TimeSync.MonitoringService.ScheduleNext` | server/services/monitoring_service.py:391-432 | the next slot of that client, nobody else's |
| `TimeSync.MonitoringService.ChooseDue` | server/services/monitoring_service.py:525-549 | the locked section of a pass |

## Left out

- ZeroMQ sockets, pollers, listener threads and reconnect loops: a send or a receive is a step that may fail.
- JSON messages, logging, event contexts and descriptions: an event only says whether it is described.
- Command line, user output and the wiring of server and client.
- HV, RC and sensor hardware: commands that may fail.
- The blocking handshake used before the listener starts (`handshake_core`): the same messages without interleaving.
- Event items of the persistence queue and their batches: samples only; the events' use of the queue shows as a queue that is full at any time.
- Metadata values beyond registers, history and sections; non-UTF-8 identities, whose folder name is their hexadecimal form; letters outside ASCII in folder names.
- Exceptions other than those the code turns into a failed step.
- Client numbers in `TimeSync` stand for the order of the client ids; the phase, a hash, is any number below the period.
- Decoder and Writer: `fopen`, `fwrite` and the opening of a rollover file succeed.
- Names of the chunk files and the text of the file header.
- Conversion of decimal metadata fields (`atof`): the text is kept.
- MetadataText.IntegersArrive: integers are unbounded; those outside the range of `int` are not wrapped.
- Acknowledgements.OkMeansExecuted: the 64-bit token counter does not wrap.
- Liveness.AnnouncedAlways: a loss and an admission are one step each; the registry calls inside them are separate locked sections, whose interleavings `Races` covers for the coupling only.
- Conservation.StopLeavesAllCounted: a batch whose write fails is taken to leave nothing in the file.
- TimeSync.ResyncWindow: for a clock that is not negative.
