# Astron: a verified model of its core

Astron is a server for distributed objects: a message director passes datagrams between
state servers, which keep the objects, database servers, which store them, and client
agents, which show each client the part of the object tree it is interested in. This
project models the parts of it that are hardest to get right, in Dafny, and proves what
they promise. `dafny verify dfyconfig.toml` checks all of it.

What is imperative in the program is a class here, with the same fields and the same
loops. Its methods are proved to compute functions over plain values, and what the
program promises is proved about those functions, over every run.

* **Operations on stored objects** (`DBOperation`, `DatabaseBackend`, `StoredValues`,
  `RequestFields`, `EncodedRequests`, `DBOperationQueue`, `DatabaseServer`,
  `SynchronousCompletion`, `SerialExecution`, `Scheduler`, `Serializability`). Operations
  on one object run at the same time if they say that their order does not matter, and
  wait otherwise. The three hand-written independence tests are shown to decide exactly
  whether two footprints interfere, which makes them symmetric and makes independent
  operations commute, replies included. From that follow
  serializability in order of arrival, for a backend that gives each running operation
  its effect at any moment, that the backend is given each operation once and in order,
  and that no wakeup is lost and every wait is bounded. A request is taken exactly if its
  bytes are fields with values, and means what they say. Values taken from requests pass
  the validation on reading, so every get tells what is stored; but a field named twice in
  one request is stored as two values joined. Whoever follows what is announced on the
  channel of an object has a true copy of its fields.
* **The visibility tree** (`DistributedObject`, `VisibilityTree`, `Listeners`,
  `ZoneQueries`, `Acknowledgements`, `ChildrenDeletion`). Objects tell their parents where
  they are by messages through one queue. Whenever the queue is drained, every index of
  children is exact; and at every step whoever listens to a location knows exactly the
  objects there. Objects that their parent has heard of do not outlive it. A zones query
  announces as many objects as answer with interest entries exactly when all of them are
  acknowledged, that is, when the parent was alive as each last move was delivered; a
  parent generated after its child is the counterexample.
* **Channel subscriptions** (`IntervalMap`, `ChannelMap`). The multimap and the interval
  map agree with each subscriber's own channels and ranges, and the notices sent upstream
  add up to exactly the channels held by range, and to the single channels somebody holds
  with those that were lost along with a range.
* **What a client sees** (`ClientInterests`, `ClientRuns`, `ClientPending`,
  `ClientRequests`, `ClientCopy`, `Client`). The client listens exactly to the zones of its
  open interests; objects enter and leave its view by turns, and a client that follows the
  datagrams it is sent has exactly the objects in view, each at its place. The request for
  an interest lasts exactly until the announced objects have come or its time is up; they
  are shown before the interest is reported done, which happens once. The client looks up
  the operation an object waits for without checking that it exists: that is safe exactly
  as long as interests are opened apart from the zones still being asked for, and an
  interest closed and reopened too early is the counterexample.
* **Typed values in datagrams** (`DClass`, `DatagramIterator`, `Unpacking`, `Values`,
  `UnpackingAndSkipping`, `DatagramReader`). Unpacking copies exactly the bytes it passes
  over, and those bytes alone unpack again; it accepts exactly the values of the type, and
  its fast path misses no check where cached sizes are widths; it ends where skipping ends when payloads end
  on an element, for every type, whatever its cached size; it ends on every input exactly
  when no variable array that can be reached has empty elements; and the cached size of a
  type is its width exactly when that fits 16 bits and no part is empty.
* **Streams and encodings** (`Framing`, `HAProxy`, `EventLog`, `MsgpackDecode`, `Primes`,
  `HashGenerator`). Framed datagrams survive every chunking of the stream exactly if the
  last one is not empty, also behind a PROXY header (versions 1 and 2, sections 2.1 and
  2.2 of the PROXY protocol specification). A logged event packed in MessagePack prints as
  a line from which its pairs can be read back. The table of primes never runs off its
  end, because there is a prime between any number from 2 on and its square, which is
  proved here.

Where the program and its comments part, the model follows the program. `consume` of the
PROXY header replaces every error code by the one for a protocol error
(src/net/HAProxyHandler.cpp:32-36), so the model keeps no codes.

## Model

| member | source | states |
|---|---|---|
| DBOperation.IndependenceIsNoInterference | src/database/DBOperation.cpp:317-351 | two operations are independent exactly if they are on different objects or neither writes what the other reads or writes, double dispatch included |
| DBOperation.IndependenceIsSymmetric | src/database/DBOperation.h:128-148 | the contract of the header: a is independent of b if and only if b is of a |
| DatabaseBackend.IndependentOperationsCommute | src/database/DBOperation.h:128-148 | independent operations, in either order and on any store, leave the same store and each routes the same messages |
| DatabaseBackend.GetCommutes | src/database/DBOperation.cpp:317-351 | a get commutes with whatever it claims to be independent of |
| DatabaseBackend.SetCommutes | src/database/DBOperation.cpp:484-527 | a set commutes with the sets and updates it claims to be independent of |
| DatabaseBackend.UpdatesCommute | src/database/DBOperation.cpp:598-640 | two conditional updates that claim independence commute, criteria mismatches included |
| DatabaseBackend.OnGetComplete | src/database/DBOperation.cpp:365-444 | the reply to a get: filtered, validated, and a failure for a single field that is not there |
| DatabaseBackend.OnCriteriaMismatch | src/database/DBOperation.cpp:672-703 | the reply to a failed update tells the stored values of the tested fields that are not blank |
| DatabaseBackend.OldDatabaseBackend.StoreFields | src/database/OldDatabaseBackend.cpp:58-64 | the loop over the values, in any order, sets each value and deletes each blank one, and touches no other object |
| DatabaseBackend.OldDatabaseBackend.Submit | src/database/OldDatabaseBackend.cpp:4-108 | one submit changes the store and routes messages as the meaning of the operation says |
| DatabaseBackend.OldDatabaseBackend.SubmitGet | src/database/OldDatabaseBackend.cpp:27-47 | a get changes nothing and answers from what is stored |
| DatabaseBackend.OldDatabaseBackend.SubmitUpdate | src/database/OldDatabaseBackend.cpp:70-106 | an update tests the criteria one by one and writes only if all hold |
| StoredValues.WritesAreReadBack | src/database/OldDatabaseBackend.cpp:49-68 | after a set each field reads as the value set, is absent if it was blank, and is as before if not named; other objects stay |
| StoredValues.UpdateIsAllOrNothing | src/database/OldDatabaseBackend.cpp:70-106 | success, failure and mismatch each for its own reason; the object changes, as by a set, exactly when the update applies and every criterion holds |
| StoredValues.MismatchTellsStoredValues | src/database/DBOperation.cpp:672-703 | a mismatch tells exactly the tested fields that are stored and not blank, with their stored values |
| StoredValues.DeletedIsGone | src/database/OldDatabaseBackend.cpp:21-26 | nothing is left after a delete: gets and updates fail and change nothing |
| StoredValues.FindsWhatIsStored | src/database/DBOperation.cpp:388-444 | if all that is stored unpacks, the validation on reading rejects nothing: every get is answered with what is stored |
| StoredValues.AnnouncesWhatIsWritten | src/database/DBOperation.cpp:18-64 | each field a successful set or update names is announced, as deleted if it is not stored afterwards and else as changed with the value stored, and nothing else is |
| StoredValues.CopyIsKept | src/database/DBOperation.cpp:18-64 | where changes are announced, a copy of the fields that follows them is what is stored, after any operation on any object |
| StoredValues.CopyIsKeptThroughout | src/database/DBOperation.cpp:18-64 | and so after any sequence of operations |
| RequestFields.OperationFields.PopulateSetFields | src/database/DBOperation.cpp:95-151 | the loop over the fields of a set or update request: what it stores and tests, field by field, and when it refuses |
| RequestFields.OperationFields.PopulateOne | src/database/DBOperation.cpp:98-145 | one field: unknown, not stored by databases, tested, and then set or deleted |
| RequestFields.OperationFields.PopulateValue | src/database/DBOperation.cpp:115-122 | the value is appended to what the request has set for the field before, or is the default, or blank |
| RequestFields.TakenUnpacks | src/database/DBOperation.cpp:107-122 | whatever a request sets begins with a value of the field's type, also when the field is named again |
| RequestFields.GetsTellWhatIsStored | src/database/DBOperation.cpp:365-444 | in every run whose writes come from requests, each finished get, of an object, of fields or of one field, tells exactly what the earlier arrivals leave stored |
| RequestFields.StoredIsOneValue | src/database/DBOperation.cpp:109-116 | what a request stores for a field, and what it tests the field for, is one value exactly if the request names the field once or the type has values without bytes |
| RequestFields.NamesAreRead | src/database/DBOperation.cpp:98-145 | the fields taken are those named in the request, in its order |
| RequestFields.NamedTwiceIsJoined | src/database/DBOperation.cpp:115-116 | a 16-bit field named twice is stored with four bytes, which are no value |
| EncodedRequests.RequestMeansWhatItSays | src/database/DBOperation.cpp:95-151 | a request put together from fields and values is taken: what it tests are the old values, what it stores are the new ones, a deletion stores the default or blank, values for one field are joined, and fields not stored by databases are passed over |
| EncodedRequests.OldIsTestedNewIsStored | src/database/DBOperation.cpp:107-116 | if no field is named twice, each is tested for its own old value and set to its own new one |
| EncodedRequests.TakenExactly | src/database/DBOperation.cpp:95-151 | a request is taken exactly if its bytes begin with so many fields with their values, at least one of them stored by databases |
| DBOperationQueue.OperationQueue.CanOperationStart | src/database/DBOperationQueue.cpp:61-67 | whether the operation is independent of all that run |
| DBOperationQueue.OperationQueue.GetNextOperation | src/database/DBOperationQueue.cpp:7-21 | hands out the head of the queue if it can start, and otherwise leaves the queue alone |
| DBOperationQueue.OperationQueue.EnqueueOperation | src/database/DBOperationQueue.cpp:23-34 | an operation goes at once exactly if nothing waits and nothing running conflicts; otherwise it is queued last |
| DBOperationQueue.OperationQueue.BeginOperation | src/database/DBOperationQueue.cpp:36-39 | adds the operation to those running |
| DBOperationQueue.OperationQueue.FinalizeOperation | src/database/DBOperationQueue.cpp:41-54 | removes it, and asks for a flush exactly if it may have been in the way of the head |
| DatabaseServer.Server.QueueFor | src/database/DatabaseServer.cpp:112-116 | looking up the queue of an object inserts an empty one if there is none |
| DatabaseServer.Server.HandleOperation | src/database/DatabaseServer.cpp:104-120 | the operation is submitted or queued, and only its object's queue changes |
| DatabaseServer.Server.ClearOperation | src/database/DatabaseServer.cpp:122-145 | the operation ends, all that can start now is submitted in order, and an empty queue is erased |
| DatabaseServer.Server.Flush | src/database/DatabaseServer.cpp:133-140 | the loop begins heads until one has to wait, each in its turn |
| Scheduler.FinalizeKeeps | src/database/DBOperationQueue.cpp:41-54 | the shortcut is sound: if the ended operation is independent of the head, another running one still blocks the head |
| Scheduler.PerformMovesForward | src/database/DatabaseBackend.h:14-23 | the effect of a running operation may be moved before everything that waits, because it commutes with what it overtakes |
| Scheduler.StepKeepsGood | src/database/DatabaseServer.cpp:104-145 | every arrival, effect, completion and rejection keeps the queues ordered, pairwise independent and the outcome equal to the serial one |
| Scheduler.RejectStep | src/database/DBOperation.cpp:466-469 | clearing an operation that was rejected before it ran changes nothing |
| Serializability.RunsAreSerializable | src/database/DBOperationQueue.h:7-10 | in every run the messages of each operation, and the store once all arrivals had their effect, are those of running one operation at a time in order of arrival |
| Serializability.ConflictsAreOrdered | src/database/DBOperationQueue.cpp:7-39 | running operations are pairwise independent, begin in order of arrival, and of two in conflict the earlier is finished before the later begins |
| Serializability.SubmissionsFollowArrivals | src/database/DatabaseServer.cpp:104-145 | what the backend is given is, object by object, what arrived, in order, short of what waits; nothing is given twice, and of two in conflict the later only once the earlier has finished |
| Serializability.NoLostWakeup | src/database/DatabaseServer.cpp:112-144 | a non-empty queue has a head that conflicts with a running operation, and the map holds exactly the objects with operations outstanding |
| Serializability.WaitIsBounded | src/database/DBOperationQueue.cpp:41-54 | an operation behind k queued and r running ones has begun once r + k operations on its object have finished |
| SynchronousCompletion.ClearDanglesExactly | src/database/DatabaseServer.cpp:131-144 | with operations that complete inside submit, the flush loop loses the queue it holds exactly if it begins the head, nothing else runs and all that waits completes inside submit |
| SynchronousCompletion.AlwaysInsideNeverWaits | src/database/OldDatabaseBackend.cpp:4-108 | a backend that completes every operation inside submit never has one waiting |
| DistributedObject.DistributedObject.constructor | src/stateserver/DistributedObject.cpp:11-60 | a generated object announces its location and wakes children that came first |
| DistributedObject.DistributedObject.HandleLocationChange | src/stateserver/DistributedObject.cpp:181-256 | who is told of a move, for each kind of move, and that the acknowledgement is awaited again |
| DistributedObject.DistributedObject.Annihilate | src/stateserver/DistributedObject.cpp:293-323 | the last messages of an object to its parent, its location and its children |
| DistributedObject.DistributedObject.ChildMoved | src/stateserver/DistributedObject.cpp:553-590 | what a parent does to its index when a child changes location, and when it acknowledges |
| DistributedObject.DistributedObject.AnswerAsChild | src/stateserver/DistributedObject.cpp:775-794 | a child in one of the zones answers once, with an interest entry exactly if it is acknowledged |
| DistributedObject.DistributedObject.CountZones | src/stateserver/DistributedObject.cpp:804-810 | the count over the zones, which inserts the missing ones as empty |
| DistributedObject.DistributedObject.AnswerZones | src/stateserver/DistributedObject.cpp:760-827 | a query is answered as a child, or counted and relayed, or ignored |
| DistributedObject.DistributedObject.HandleDatagram | src/stateserver/DistributedObject.cpp:449-650 | each of the location, deletion and query datagrams, and what it leaves |
| VisibilityTree.HandlingUpdatesIndex | src/stateserver/DistributedObject.cpp:553-590 | what a message does to the zones under which its receiver lists a child |
| VisibilityTree.RoutesTrackMoves | src/stateserver/DistributedObject.cpp:181-256 | what an object routes about itself keeps a parent's list up to date, brings one that asked up to date, and never lists the object where it is not |
| VisibilityTree.HandleKeepsAgreement | src/messagedirector/MessageDirector.cpp:184-256 | delivering one message to one of its receivers keeps the index and the messages under way in agreement with the tree |
| VisibilityTree.StepKeepsGood | src/messagedirector/MessageDirector.cpp:128-156 | creations, commands and deliveries keep the invariant of the tree |
| VisibilityTree.DrainedIndexIsExact | src/stateserver/DistributedObject.cpp:553-650 | in every run, whenever the queue is drained, a live parent lists in each zone exactly the live objects located there |
| Listeners.ListenersKnowResidents | src/stateserver/DistributedObject.cpp:181-256 | at every step of every run, whoever listens to a location knows, from the entries, moves and deletions routed there alone, exactly the live objects located there |
| Listeners.AnnihilatedIsHeard | src/stateserver/DistributedObject.cpp:293-323 | the last messages of an object take it out of its location, and no other object out of any |
| ZoneQueries.FoundedIsSynchronized | src/stateserver/DistributedObject.cpp:591-605 | whenever the queue is drained, an object that last moved while its present parent was alive is acknowledged by it |
| ZoneQueries.CountIsResidents | src/stateserver/DistributedObject.cpp:806-818 | the count announced for distinct zones is the number of objects located in them |
| ZoneQueries.RelayAnswers | src/stateserver/DistributedObject.cpp:775-794 | the children that answer a relayed query with interest entries are those in the zones that are acknowledged |
| ZoneQueries.QueryAgreement | src/stateserver/DistributedObject.cpp:760-827 | on a drained tree the count equals the interest entries exactly if all objects in the zones are acknowledged, which they are if each moved there while the parent was alive |
| ZoneQueries.LateParentIsNotAnswered | src/stateserver/DistributedObject.cpp:616-650 | a parent generated after its child counts it and gets no interest entry for it |
| Acknowledgements.AcknowledgedExactly | src/stateserver/DistributedObject.cpp:591-605 | whenever the queue is drained, an object under a live parent is acknowledged exactly if the parent was alive when the object's last move was delivered |
| Acknowledgements.QueryAgreesExactly | src/stateserver/DistributedObject.cpp:760-827 | on a drained tree the count equals the interest entries exactly if the parent was alive at the last delivered move of each object in the zones |
| Acknowledgements.QueryIsARun | src/messagedirector/MessageDirector.cpp:128-156 | the query, its count and its relayed copy pass through the queue as events of a run with that outcome |
| ChildrenDeletion.ChildrenGoWithParents | src/stateserver/DistributedObject.cpp:293-340 | in every run, whenever the queue is drained, an object whose last move was delivered while its parent was alive still has that parent: had it gone, so had the object |
| IntervalMap.AddedAt | src/messagedirector/ChannelMap.cpp:79-90 | adding an interval adds the value exactly at its points, and the segments stay in order and apart |
| IntervalMap.RemovedAt | src/messagedirector/ChannelMap.cpp:106-135 | removing an interval removes the value exactly at its points |
| IntervalMap.HeldBySegment | src/messagedirector/ChannelMap.cpp:92-103 | a point is held exactly if some segment covers it, with the set of that segment |
| ChannelMap.ChannelMap.SubscribeChannel | src/messagedirector/ChannelMap.cpp:26-42 | what a channel subscription changes, and when it is passed upstream; the channels reported alone stay those with an entry and those lost with a range |
| ChannelMap.ChannelMap.RemoveSubscriber | src/messagedirector/ChannelMap.cpp:44-62 | one entry goes, and whether it was the last |
| ChannelMap.ChannelMap.UnsubscribeChannel | src/messagedirector/ChannelMap.cpp:64-77 | the channel goes, the ranges stay, and the upstream is told if it was the last entry |
| ChannelMap.ChannelMap.SubscribeRange | src/messagedirector/ChannelMap.cpp:79-104 | the range is added to what the subscriber holds, and upstream then holds exactly the union of all ranges |
| ChannelMap.ChannelMap.NotifyAdded | src/messagedirector/ChannelMap.cpp:92-103 | looking for a segment with one subscriber finds whether upstream misses any part of the range |
| ChannelMap.ChannelMap.UnsubscribeRange | src/messagedirector/ChannelMap.cpp:106-159 | the range goes, with the single channels in it unless no ranges exist, and upstream then holds exactly the union of the ranges left; the single channels that lose their last entry so stay reported |
| ChannelMap.ChannelMap.SilentRanges | src/messagedirector/ChannelMap.cpp:122-131 | the parts of a range that nobody else holds |
| ChannelMap.ChannelMap.ClobberChannels | src/messagedirector/ChannelMap.cpp:138-150 | the subscriber's single channels in the range are dropped without a notice |
| ChannelMap.ChannelMap.NotifyRemoved | src/messagedirector/ChannelMap.cpp:152-158 | the removal notices cover no channel that anybody still holds by range |
| ChannelMap.ChannelMap.UnsubscribeAll | src/messagedirector/ChannelMap.cpp:161-180 | the subscriber listens to nothing afterwards, and every other one to what it did before; the upstream is told of exactly the single channels that nobody else has an entry for |
| ChannelMap.ChannelMap.LookupChannels | src/messagedirector/ChannelMap.cpp:197-212 | the lookup finds exactly the subscribers that listen to one of the channels |
| ChannelMap.NothingNew | src/messagedirector/ChannelMap.cpp:92-103 | if no segment of a new range has a single subscriber, every channel of it was held before |
| Client.Client.LookupInterests | src/clientagent/Client.cpp:160-169 | the open interests that can see a location |
| Client.Client.FindNewZones | src/clientagent/Client.cpp:201-207 | the zones that no open interest sees yet |
| Client.Client.FindAlteredZones | src/clientagent/Client.cpp:214-229 | the zones only the altered interest could see and no longer will |
| Client.Client.FindRemovedZones | src/clientagent/Client.cpp:269-276 | the zones only the removed interest can see |
| Client.Client.CloseZones | src/clientagent/Client.cpp:289-325 | the objects in the zones leave, the channels are closed, and a session object among them costs the connection |
| Client.Client.AddInterest | src/clientagent/Client.cpp:199-263 | opening or altering an interest: close, request, or done at once |
| Client.Client.RemoveInterest | src/clientagent/Client.cpp:267-285 | closing an interest |
| Client.Client.LookupObject | src/clientagent/Client.cpp:131-157 | which objects the client knows |
| Client.Client.HandleObjectEntrance | src/clientagent/Client.cpp:805-835 | an object enters unless it is seen already or is the client's own session object |
| Client.Client.TryQueuePending | src/clientagent/Client.cpp:793-803 | a datagram is held back for the operation its object waits for; a missing operation is a fault |
| Client.Client.EnterAtLocation | src/clientagent/Client.cpp:614-642 | an entry is held back for the first unfinished operation over its location |
| Client.Client.ChangeLocation | src/clientagent/Client.cpp:690-754 | a move shows as a move, as leaving, or ends the session |
| Client.Client.DeleteObject | src/clientagent/Client.cpp:566-592 | a deleted object leaves view and ownership, or ends the session |
| Client.Client.HandleDatagram | src/clientagent/Client.cpp:350-791 | each datagram about interests, objects, ownership and session objects |
| Client.Client.Finish | src/clientagent/Client.cpp:905-953 | the snapshot enters, the client is told it is complete, and the datagrams held back are handled |
| Client.Client.HandleClientAddInterest | src/clientagent/AstronClient.cpp:635-655 | a client opens an interest if its permission allows |
| Client.Client.HandleClientRemoveInterest | src/clientagent/AstronClient.cpp:658-684 | a client closes an interest that is open, if its permission allows |
| Client.Client.Deliver | src/clientagent/Client.cpp:350-791 | every datagram keeps the client listening where its interests are and its view of each object told by turns |
| Client.Client.OpenInterest | src/clientagent/AstronClient.cpp:635-655 | so does an interest opened by the client |
| Client.Client.ShutInterest | src/clientagent/AstronClient.cpp:658-684 | so does an interest closed by the client |
| Client.Client.TimeOut | src/clientagent/Client.cpp:898-903 | so does an operation that runs out of time |
| ClientRuns.AlteredZonesMeaning | src/clientagent/Client.cpp:214-229 | the zones closed by altering an interest are those it alone held and nobody holds afterwards |
| ClientRuns.RemovedZonesMeaning | src/clientagent/Client.cpp:269-276 | the zones closed by removing an interest are those held before and not after |
| ClientRuns.ListeningFollowsInterests | src/clientagent/Client.cpp:199-325 | in every run, until ejection, the client listens to a location exactly if some open interest covers it |
| ClientRuns.ViewsTakeTurns | src/clientagent/Client.cpp:553-592 | in every run, until ejection, the messages that show and hide an object alternate, starting with one that shows it, and the seen set and the visible map agree |
| ClientRuns.AlteringHidesTheUncovered | src/clientagent/Client.cpp:209-234 | altering an interest takes out of view exactly the objects whose location some interest covered and none covers now |
| ClientRuns.ClosingHidesTheUncovered | src/clientagent/Client.cpp:267-285 | the same for removing an interest |
| ClientRuns.AlteringCutsOffExactly | src/clientagent/Client.cpp:289-310 | opening or altering an interest costs the connection exactly if some session object in view was covered by an interest and then would be by none |
| ClientRuns.ClosingCutsOffExactly | src/clientagent/Client.cpp:289-310 | the same for removing an interest |
| ClientRuns.SnapshotBeforeDone | src/clientagent/Client.cpp:919-936 | when an interest is reported done, every object of its snapshot has been shown and not hidden since, or is the client's own session object |
| ClientPending.OpeningApartIsSafe | src/clientagent/Client.cpp:793-803 | in every run that opens interests only over zones no unfinished operation asks for, each waiting object waits for an operation that exists, and the lookup never misses |
| ClientPending.FinishedSound | src/clientagent/Client.cpp:905-953 | the end of an operation leaves no object waiting for it |
| ClientPending.OverlapStrands | src/clientagent/Client.cpp:614-642 | with two operations over one location, an object new to both that enters, outlives the first and then moves makes the lookup miss, unless the connection is lost before |
| ClientPending.OpeningIsSafeExactly | src/clientagent/Client.cpp:199-263 | opening an interest over zones nobody is asking for is exactly the condition under which nothing that can follow makes the lookup miss |
| ClientPending.ReopeningStrands | src/clientagent/Client.cpp:199-285 | a client that opens, closes and reopens an interest before it is answered can be brought there |
| ClientRequests.RequestEndsExactly | src/clientagent/Client.cpp:643-677 | in a connected run a request lasts exactly until a count has come for it and as many entries as that, or its time is up, told from the datagrams since it was made |
| ClientRequests.AllArePresented | src/clientagent/Client.cpp:905-953 | with the datagram that ends a request the client is told that its interest is done, and by then each object announced for it has been shown; they are as many as were counted unless the time was up |
| ClientRequests.NewZonesAreAskedFor | src/clientagent/Client.cpp:199-263 | opening an interest asks about exactly the locations that some interest covers now and none did before |
| ClientRequests.EachIsAnsweredOnce | src/clientagent/Client.cpp:839-866 | while the client is connected, each opening and closing of an interest has been answered by one news of completion or has its request on its way |
| ClientRequests.HoldingBackDelays | src/clientagent/Client.cpp:793-803 | a datagram held back for a request is handled as if it had come right after the request ended |
| ClientCopy.CopyIsTrue | src/clientagent/Client.cpp:553-791 | as long as it is connected, a client that follows the datagrams it is sent has exactly the objects in view, each at its place, and the objects it owns; whatever was taken out of its view is remembered |
| ClientCopy.FieldsReachTheCopy | src/clientagent/Client.cpp:521-552 | a field update is passed on exactly if the client has the object or the object was announced to it |
| ClientCopy.MovesReachTheCopy | src/clientagent/Client.cpp:679-755 | a move is passed on, or takes the object out of view, or costs the connection, each exactly when it should |
| ClientCopy.DeletionsReachTheCopy | src/clientagent/Client.cpp:553-592 | a deletion takes what the client has of the object, and the connection with a session object |
| ClientCopy.EntriesReachTheCopy | src/clientagent/Client.cpp:805-835 | an object entering where no request looks is shown, unless it is in view or is the client's own session object |
| ClientCopy.OpeningCutsOffExactly | src/clientagent/AstronClient.cpp:635-655 | asking for an interest costs the connection exactly if the client may not look there or would lose a session object |
| ClientCopy.ShuttingCutsOffExactly | src/clientagent/AstronClient.cpp:658-684 | giving one up costs it exactly if it is not open, may not be touched, or would lose a session object |
| ClientCopy.NothingIsMadeUp | src/clientagent/Client.cpp:350-791 | each entry, move and field the client is told of came as a datagram with the same object and place |
| DClass.SizeIsWidth | src/dclass/dc/Struct.cpp:94-105 | the cached size of a type of fixed width is that width exactly if it fits 16 bits and no part is empty |
| DClass.VariableHasNoSize | src/dclass/dc/ArrayType.cpp:37-43 | a type without a fixed width has size 0 |
| DClass.StructBuilder.AddField | src/dclass/dc/Struct.cpp:51-112 | when a field is accepted, and that size and constraint flag keep pace with the fields |
| DClass.MethodBuilder.AddParameter | src/dclass/dc/Method.cpp:36-76 | when a parameter is accepted, and that size and constraint flag keep pace |
| DatagramIterator.UnpackCopies | src/util/DatagramIterator.h:254-386 | unpacking any type appends exactly the bytes between the old and the new offset |
| DatagramReader.DatagramReader.ReadData | src/util/DatagramIterator.h:223-229 | the next bytes, if there are so many |
| DatagramReader.DatagramReader.ReadSize | src/util/DatagramIterator.h:141-147 | a size of two bytes, lower first |
| DatagramReader.DatagramReader.UnpackDtype | src/util/DatagramIterator.h:254-386 | the iterator unpacks as the function does, fast path and slow path |
| DatagramReader.DatagramReader.UnpackEach | src/util/DatagramIterator.h:265-277 | the slow path over an array of fixed size |
| DatagramReader.DatagramReader.UnpackArray | src/util/DatagramIterator.h:316-331 | elements are read until enough bytes are copied, and counted against the range |
| DatagramReader.DatagramReader.UnpackStringOrBlob | src/util/DatagramIterator.h:332-363 | strings and blobs, with the checks on text and length |
| DatagramReader.DatagramReader.UnpackMembers | src/util/DatagramIterator.h:365-380 | the parts of a struct or method one after the other |
| DatagramReader.DatagramReader.SkipDtype | src/util/DatagramIterator.h:397-437 | the iterator skips as the function does |
| Unpacking.UnpackedReadsBack | src/util/DatagramIterator.h:254-386 | unpacking appends the bytes passed over, and these alone unpack and are used up |
| Unpacking.ValueIsFound | src/database/DBOperation.cpp:388-410 | a value is unpacked wherever its bytes stand |
| Unpacking.ValuesArePrefixFree | src/util/DatagramIterator.h:254-386 | no value of a type begins another |
| Unpacking.MakesProgress | src/util/DatagramIterator.h:254-386 | a value has no bytes exactly if its type can be empty |
| Unpacking.UnpackEndsExactly | src/util/DatagramIterator.h:325-331 | unpacking ends on every input exactly if the type does not loop: no variable array of elements that can be empty, inside variable arrays or after parts that have values |
| Unpacking.LoopsHangs | src/util/DatagramIterator.h:325-331 | for every type that loops there are bytes that keep the reader busy forever, wherever they stand |
| Values.ValuesAreValid | src/util/DatagramIterator.h:254-386 | bytes unpack as a whole exactly if they are valid by their type: in range, text, an allowed number of elements, element by element and part by part |
| Values.FastPathAgrees | src/util/DatagramIterator.h:260-311 | reading a value in one go accepts and refuses exactly what reading it piece by piece does, where the cached sizes are the widths |
| Values.FastPathAgreesExactly | src/util/DatagramIterator.h:260-311 | with everything inside in order, the two agree on all bytes exactly if the size taken in one go is the width |
| Values.CountIsBetween | src/dclass/dc/ArrayType.cpp:60-71 | the number of elements is checked against the declared bounds, unless a single bound does not fit 32 bits |
| UnpackingAndSkipping.UnpackCovers | src/util/DatagramIterator.h:260-311 | unpacking a type that caches a size takes as many bytes, on the fast path and on the slow one, for every type, since what wraps around does not fit a datagram |
| UnpackingAndSkipping.TiledMeetsSkip | src/util/DatagramIterator.h:397-437 | for every type, if skipping finds each payload filled by its elements, a successful unpack and a skip end at the same offset |
| UnpackingAndSkipping.ArraysMeetExactly | src/util/DatagramIterator.h:397-419 | for an array of elements of one size the two meet exactly if that size divides the payload |
| UnpackingAndSkipping.SimpleMeetsExactly | src/util/DatagramIterator.h:397-437 | for a variable array whose elements hold no variable array, and for what holds none at all, the two meet exactly if the sizes on the way fit |
| UnpackingAndSkipping.PartsMeetExactly | src/util/DatagramIterator.h:397-437 | for structs and methods of these the two meet at every part exactly if the sizes on the way fit |
| UnpackingAndSkipping.MisalignedDiffer | src/util/DatagramIterator.h:397-419 | where the last element runs past the payload, skipping and unpacking part |
| Framing.Receiver.DefragmentInput | src/net/NetworkClient.cpp:114-144 | delivers all complete frames in the buffer |
| Framing.Receiver.ProcessDatagram | src/net/NetworkClient.cpp:146-171 | a chunk that is one frame is delivered at once, another is buffered |
| Framing.Sender.SendDatagram | src/net/NetworkClient.cpp:83-112 | wire and queue together are the datagrams accepted, in order, also over the quota; the connection is to end exactly if there is a quota and the queued bytes with the datagram exceed it |
| Framing.Sender.Disconnect | src/net/NetworkClient.cpp:250-278 | what is queued is written before the socket is closed |
| Framing.Sender.FlushSendQueue | src/net/NetworkClient.cpp:305-369 | the queue is written as frames, unless a write is under way |
| Framing.Sender.SendFinished | src/net/NetworkClient.cpp:372-404 | the end of a write flushes the rest, or closes when there is none |
| Framing.StreamIsConserved | src/net/NetworkClient.cpp:114-171 | for any bytes in any chunks, what was delivered and what is kept back are the stream, and no frame kept back is complete but an empty last one |
| Framing.FramesAreUnique | src/net/NetworkClient.cpp:305-344 | only one list of datagrams makes a stream |
| Framing.EveryChunkingDelivers | src/net/NetworkClient.cpp:114-171 | any chunking of the frames of some datagrams delivers exactly those; only an empty last one may wait |
| Framing.FastPathAgrees | src/net/NetworkClient.cpp:153-167 | the fast path does what the buffered path does for a datagram that is not empty |
| Framing.EveryChunkingDeliversExactly | src/net/NetworkClient.cpp:114-171 | every chunking delivers all the datagrams exactly if the last one is not empty |
| Framing.EmptyLastWaits | src/net/NetworkClient.cpp:114-116 | an empty last datagram that comes byte by byte is kept back, whatever went before |
| HAProxy.HAProxyHandler.Consume | src/net/HAProxyHandler.cpp:19-48 | how many bytes of a chunk belong to the header, and when it is complete or wrong |
| HAProxy.ProxiedConnection.Data | src/net/NetworkClient.cpp:178-219 | data goes to the header handler first, and what it leaves to the stream |
| HAProxy.PartIsUnfinished | src/net/HAProxyHandler.cpp:71-82 | every strict part of a header makes the parser ask for more, but not for more than there is |
| HAProxy.HeaderIsComplete | src/net/HAProxyHandler.cpp:50-240 | a header is recognized with anything after it: its length, and the addresses and ports it tells |
| HAProxy.StillUnfinished | src/net/HAProxyHandler.cpp:37-45 | a header that was not complete never turns out to end in bytes that were there already |
| HAProxy.HeaderIsSplitOff | src/net/HAProxyHandler.cpp:19-48 | in any chunking the header ends where it should and exactly the payload reaches the stream |
| HAProxy.ProxiedStreamDelivers | src/net/NetworkClient.cpp:178-219 | behind a header, any chunking delivers exactly the datagrams of the stream |
| HAProxy.NoHeaderIsBroken | src/net/HAProxyHandler.cpp:50-69 | whatever begins with neither signature cuts the connection off with its sixteenth byte, in any chunking, and not before |
| HAProxy.BinaryExactly | src/net/HAProxyHandler.cpp:71-165 | a whole binary block is a header exactly if it is accepted, and is refused if it is none |
| EventLog.LoggedEvent.constructor | src/util/EventSender.cpp:48-64 | an event begins with its type and its sender |
| EventLog.LoggedEvent.Add | src/util/EventSender.cpp:66-74 | a new key goes to the end, a known one takes the new value where it stands |
| EventLog.LoggedEvent.MakeDatagram | src/util/EventSender.cpp:95-119 | the packed form of the pairs, or none if it overflows a datagram |
| EventLog.LastValueWins | src/util/EventSender.cpp:66-74 | whatever was added, each key stands once, with the value added for it last |
| EventLog.FirstInsertionOrder | src/util/EventSender.cpp:66-74 | the keys stand in the order in which they were first added |
| EventLog.UnquoteQuote | src/eventlogger/msgpack_decode.h:73-100 | the escaping of a string can be undone, whatever follows |
| EventLog.PrintedReadsBack | src/eventlogger/msgpack_decode.h:40-100 | the printed line tells the pairs, so no two events print alike |
| MsgpackDecode.Decoder.PrintString | src/eventlogger/msgpack_decode.h:73-100 | prints a string byte by byte, or runs short |
| MsgpackDecode.Decoder.PrintContainer | src/eventlogger/msgpack_decode.h:40-66 | prints the items of an array or map |
| MsgpackDecode.Decoder.PrintValue | src/eventlogger/msgpack_decode.h:109-208 | prints strings, binaries, arrays, maps and the constant words |
| MsgpackDecode.PackedIsPrinted | src/eventlogger/msgpack_decode.h:109-123 | decoding a packed event never runs short, uses every byte and prints the pairs in order |
| MsgpackDecode.EventsReadBack | src/util/EventSender.cpp:95-119 | from what the receiver prints the pairs of the event can be read back |
| Primes.PrimeBeforeSquare | src/dclass/util/PrimeNumberGenerator.cpp:32-38 | there is a prime between any number from 2 on and its square, which keeps the inner loop inside the table |
| HashGenerator.TableHoldsNthPrime | src/dclass/util/PrimeNumberGenerator.cpp:20-26 | the n-th entry of the table is the n-th prime |
| HashGenerator.NoSmallFactor | src/dclass/util/PrimeNumberGenerator.cpp:28-42 | a candidate that no prime up to its square root divides is prime |
| HashGenerator.PrimeNumberGenerator.TryCandidate | src/dclass/util/PrimeNumberGenerator.cpp:30-38 | the inner loop decides whether the candidate is prime, without leaving the table |
| HashGenerator.PrimeNumberGenerator.At | src/dclass/util/PrimeNumberGenerator.cpp:23-47 | returns the n-th prime and keeps the table complete |
| HashGenerator.HashGenerator.AddInt | src/dclass/util/HashGenerator.cpp:32-36 | the hash is the sum of the numbers times the primes, which start again after 10000, modulo 2^32 |
| HashGenerator.HashGenerator.AddString | src/dclass/util/HashGenerator.cpp:39-45 | a string adds its length and its characters |
| HashGenerator.HashGenerator.GetHash | src/dclass/util/HashGenerator.cpp:48-51 | the sum of all that was added, modulo 2^32 |

## Left out

Storage and scheduling:

- DatabaseBackend.OldDatabaseBackend.Submit: CREATE operations, which are not queued and have no object to conflict on; the initial store is arbitrary instead.
- DatabaseServer.Server.HandleOperation: CREATE operations go straight to the backend and are left out.
- DatabaseServer.Server.ClearOperation: operations that complete inside `submit` are steps of their own here; SynchronousCompletion says exactly when that would leave the loop with a queue that is gone, but does not follow the messages of such runs.
- RequestFields.GetsTellWhatIsStored: the defaults of the class file, which a deletion stores, and the initial store are taken to unpack; the reasons for which `initialize` rejects a request otherwise are left out, and a rejection is an event that may happen at any time.
- RequestFields.OperationFields.PopulateSetFields: for requests whose values the reader can end on; the others keep the program busy for ever.
- MongoDB, SOCI and YAML storage, and the text of log messages.

The visibility tree:

- DistributedObject.DistributedObject.constructor: required and ram fields, AI and owner channels.
- DistributedObject.DistributedObject.HandleLocationChange: AI and owner channels are not told.
- DistributedObject.DistributedObject.Annihilate: AI and owner channels are not told.
- DistributedObject.DistributedObject.HandleDatagram: field, owner and AI datagrams; an entry only names its object.
- DELETE_CHILDREN sent directly to a surviving parent, and an id used again after its object was deleted: both leave the index wrong, and neither is an event of the model.
- Threads: the director's queue is drained one message at a time, and a handler is one step. That a sender does not hear itself never matters here, since no object sends to itself. A truncated datagram, which ends its delivery early, does not occur.
- A location under parent 1 has the number of a children channel in 64 bits; channels are kept apart here. The collision does no harm: an object acts on a location datagram only if its own id stands in it as the new or the old parent, or as the object deleted, and such a datagram is addressed to it anyway and delivered once.
- The number of children is unbounded, while the reply holds 32 bits.

Channel subscriptions:

- ChannelMap.ChannelMap.UnsubscribeRange: single channels dropped with a range are not reported upstream, as in the program, and what the upstream makes of single channels inside a removed range is not said; the contract says which stay reported.
- Open and half-open interval bounds: every segment has its first and last channel; ranges from a higher to a lower channel are empty.
- Upstream traffic through several directors, post-removes and termination.

Clients:

- Client.Client.CloseZones: what an ejected client still does is not described; the postcondition says only that it was ejected.
- Client.Client.HandleDatagram: a server's request to remove an interest that is not open, which reads an uninitialized one, changes nothing here; opening and closing channels by hand, SET_STATE, SET_CLIENT_ID and forwarded datagrams are left out; datagrams from the client itself do not occur.
- Client.Client.Finish: an operation is a value in the map and not an object of its own; a timeout is an event that ends the operation, and the race between a timeout and a completion is left out.
- Hash tables are walked in an order given with each event, so every order is covered. Context numbers do not wrap around. Class ids of declared objects are valid.

Typed values:

- DatagramReader.DatagramReader.UnpackDtype: for the inputs on which the program ends; the offset left by a failed read is not described.
- Numeric ranges, divisors and moduli: the range of a number is the set of its allowed encodings. Field names shared between classes, inheritance and molecular fields.
- DClass.StructBuilder.AddField: the struct a field already belongs to, and field ids, are not modelled.
- Datagrams with 32-bit sizes, and big-endian hosts.

Streams and encodings:

- Sockets, timers and write timeouts. An empty chunk is never delivered by the event loop and is no input of `Data`.
- HAProxy.HeaderIsComplete: addresses and ports are the bytes of the header; their text form, `atoi` and error codes are left out.
- HAProxy.PartIsUnfinished: binary headers of address family 1 or 2 only. A LOCAL header may be sent with family 0 (section 2.2 of the PROXY protocol specification); the program looks at the family before the command and refuses it, and so does the model, but such a header is not among the well-formed ones here.
- MsgpackDecode.Decoder.PrintValue: numbers and extension values end in the outcome Elsewhere; their text, and the hexadecimal mode that an escape leaves behind in the stream, are not described.
- EventLog.LoggedEvent.MakeDatagram: strings of 65536 bytes or more, whose length the datagram checks in 16 bits only.
- HashGenerator.PrimeNumberGenerator.At: numbers are unbounded, while the program computes with 32 bits; the hash needs only the first 10000 primes.
- `legacy_hash`, the class file parser, loading objects and the database state server.
