# A verified model of agentd's block-making protocol

agentd turns submitted transactions into a blockchain.  Submitters put transactions into a process
queue; the attestation service walks the queue, promotes what its verifiers accept and drops the
rest; the canonization service collects the attested front of the queue into blocks and writes them
to the chain.  Queue and chain live in the data service.  The services share nothing else, and
nothing but their protocol keeps the chain linked and the transactions accounted for.

This project models that protocol and proves what it keeps over every schedule of its steps,
failures and forced exits included.  Two smaller parts of the repository are modelled with it: the
configuration stream that carries the block limits into the canonization service, and the public
entity stream.

`dafny verify dfyconfig.toml` checks the whole project.

## How the files build on each other

| file | holds |
|---|---|
| Ids.dfy | ids, certificates, status codes |
| Ledger.dfy | the data service seen from outside: a queue, a chain, and what each operation does to them |
| ProcessQueue.dfy | the queue as the doubly linked list it is in the database, refined to the view above |
| Database.dfy | the data service with its five tables, each operation one database transaction, refined to the same view |
| Canonization.dfy | each callback of the canonization service as a function of the instance |
| Canonizer.dfy | the instance as a class whose methods are the callbacks, refined to those functions |
| BlockBuilder.dfy | the certificate builder: size, fields, and what a parser reads back |
| ControlPackets.dfy | the control packets, byte by byte, and the control state |
| Exits.dfy | which responses and which faults make the canonization service exit |
| Protocol.dfy | all services and their peers as one state machine of interleaved steps |
| Conversation.dfy | what every step of that machine keeps whoever submits what: messages, chain, accounts |
| QueueShape.dfy, Safety.dfy | what every clean step of it keeps of the queue, and why honest submissions make steps clean |
| Theorems.dfy | what both invariants say about every reachable state |
| Contexts.dfy | which child context, which key and which id the requests of a round name |
| Accounts.dfy | exactly when a submission, a block, a step and a run keep every transaction accounted for |
| Turns.dfy | exactly when a judgement, a step and a run keep the queue an attested prefix and a submitted suffix |
| Soundness.dfy | exactly when the attestation service judges in turn, drops nothing attested and misses nothing |
| Misuse.dfy | runs in which these go wrong |
| Stalled.dfy | exactly when no block is ever written again |
| Machine.dfy | the classes driven together, step by step, through the states of the protocol |
| Rounds.dfy | rounds nobody disturbs: what they write, when they sleep, how a backlog drains |
| Attestation.dfy, Attestor.dfy, Overlay.dfy | the attestation round, its instance as a class, and its memory of artifacts |
| Pipeline.dfy | an attestation round and the rounds after it as one run of the protocol: from submission to chain |
| ConfigStream.dfy, ConfigWire.dfy, ConfigRoundTrip.dfy, ConfigDefaults.dfy | the configuration printer, parser and defaults |
| PublicEntities.dfy | the public entity emitter and the reader at the other end |

The protocol is one function, `Exec`, over a sequence of steps: a submission, a timer, a peer
answering a request, a response reaching its callback, a forced exit, and the steps of the
attestation service.  Each service has a data service process of its own over the same database
(src/supervisor/supervisor_create_data_service_for_canonizationservice.c:40), so the two database
transactions behind "get first" are two steps.  Allocation, socket and timer failures are free
choices of each step.  A run may start from any database that earlier runs left in good order, in
the build with attestation or in the one without, where transactions enter the queue attested
(src/dataservice/dataservice_transaction_submit.c:148-154).

Anybody may submit anything.  What concerns the chain, the messages and the rounds is proved for
every run (`Conversation.RunKeepsBase`).  What concerns the queue is proved for clean runs, in which
no id enters the queue a second time and every accepted block names the front of the queue
(`Safety.RunKeepsTidy`); runs are clean in particular when every submission was honest: a new id, and
a certificate that is not empty and names that id if it names one (`Safety.RunKeepsInv`).
Accounts.dfy, Turns.dfy and Soundness.dfy then say exactly which runs keep the accounts, the shape of
the queue and the attestation service in order, clean or not.

## What turned out otherwise than the design suggests

Each of these is a lemma; where a property fails, the lemma says exactly when it holds.

- The very first submission to a database may name one of the two sentinel ids; the table that
  results is not a list, and no other submission does that (`Database.DataService.Submit`).
- Submission looks at the queue only.  A dropped id submitted again breaks the order, a canonized id
  submitted again is then there twice (`Accounts.SubmissionKeepsOrderExactly`,
  `Accounts.CanonizedAgain`), and a certificate that names another queued transaction lets a block
  take that one out of the queue unattested (`Misuse.WrongOneTaken`).  A run keeps every transaction
  accounted for exactly when none of its steps does any of this (`Accounts.RunKeepsOrderExactly`).
- The attestation service goes by keys it has read before, so an id that comes back is enough to
  confuse it.  A head that is canonized and submitted again, under its own certificate, between the
  two reads at the start of a round is attested behind a transaction that is not
  (`Misuse.OutOfTurn`), and then the service can come to it a second time and drop it attested
  (`Misuse.AttestedDropped`).  A transaction that a wrong block took away is missed, and the service
  stops (`Misuse.NodeMissed`).  The queue keeps its shape exactly in the runs in which no promotion is
  out of turn (`Turns.RunKeepsShapeExactly`), and the service knows where it is exactly in those in
  which neither a submission nor a block pulls its keys from under it
  (`Soundness.RunKeepsSoundExactly`); clean runs are both.
- A rejected block is announced like an accepted one (`Theorems.NotificationNames`).  The transactions
  it was made of stay at the front of the queue, so one attested transaction that is incomplete or
  has an unknown predecessor, within reach of a round, ends the chain for good
  (`Stalled.StalledExactly` gives the exact condition, `Stalled.StallIsReachable` such a run).
- Whether a promoted transaction creates its artifact is decided by the previous node of the queue,
  not by the previous transaction of the artifact
  (src/attestationservice/attestationservice_dataservice_transaction_tree_insert.c:60).  A round
  that accepts two transactions on new artifacts therefore stores both promotions and then dies
  (`Attestation.TwoCreatesAreFatal`; the exact condition, and the queue it leaves, is
  `Attestation.PromotesWhatIsAccepted`), and an existing artifact at the head gets a wrong first transaction
  (`Overlay.ExistingArtifactAtHead`).  The state it remembers is the transaction's own state, not the
  artifact's (`Overlay.OverlayAgreesWithDatabase`), and nobody compares the artifact a transaction was
  submitted for with the one its certificate names (`Overlay.LatestAgreesExactly`).
- A limit of zero, which the configuration allows, means no limit, and makes the service spin on an
  empty queue instead of sleeping (`Rounds.ZeroLimitRound`, `Rounds.ZeroLimitSpins`).
- A previous signature of the wrong size is silently replaced by the one the instance had before
  (`Canonizer.Instance.ParseBlock`); with the 64-byte suite no run gets there.
- The parent of the public entity reader takes a capability field of the wrong size for the end of
  the list (`PublicEntities.KeptCapabilities`).

## Model

| member | source | states |
|---|---|---|
| ProcessQueue.SubmitNode | src/dataservice/dataservice_transaction_submit.c:53-388 | the new node is linked in front of the end sentinel, so the queue the table spells out grows by exactly this transaction; a key already stored is refused and nothing changes; a first submission that names a sentinel leaves a table that is no list at all |
| ProcessQueue.DropNode | src/dataservice/dataservice_transaction_drop.c:89-332 | unlinking a queued key gives a linked list again, with the queue minus exactly that transaction and the others in order; a sentinel or unknown key is not found and nothing changes |
| ProcessQueue.PromoteNode | src/dataservice/dataservice_transaction_promote.c:85-207 | exactly the named transaction becomes attested; order, links and every other transaction stay; a sentinel or unknown key is not found |
| ProcessQueue.ReadNode | src/dataservice/dataservice_transaction_get.c:50-177 | the answer is the transaction together with its two neighbours in the queue; sentinels and empty certificates are refused |
| ProcessQueue.ReadFirstKey | src/dataservice/dataservice_transaction_get_first.c:50-140 | the key found is that of the head of the queue; an untouched table and an empty list are both not found |
| Database.DataService.Submit | src/dataservice/dataservice_transaction_submit.c:53-388 | succeeds exactly for a key that is neither a sentinel nor queued, and then appends, with the chain untouched; the one exception is a first submission under a sentinel name, which succeeds and leaves a queue table that is no list, and nothing else does |
| Database.DataService.Promote | src/dataservice/dataservice_transaction_promote.c:40-207 | on queue and chain it is promotion of one transaction and nothing else |
| Database.DataService.Drop | src/dataservice/dataservice_transaction_drop.c:44-332 | on queue and chain it is removal of one transaction and nothing else |
| Database.DataService.Get | src/dataservice/dataservice_transaction_get.c:50-177 | status and answer are determined by the queue alone |
| Database.DataService.FirstKey | src/dataservice/dataservice_transaction_get_first.c:50-140 | not found exactly on an empty queue, else the head |
| Database.DataService.GetArtifact | src/dataservice/dataservice_artifact_get.c:40-129 | a record is found exactly when some transaction of the chain is on the artifact, and names the first and the last of them, the heights of their blocks and the state in the last |
| Database.DataService.LatestBlockId | src/dataservice/dataservice_latest_block_id_get.c:39-132 | the id of the last block of the chain, or the root block id |
| Database.DataService.GetBlock | src/dataservice/dataservice_block_get.c:58-195 | a block is found exactly when its id is in the chain, with its height, both neighbours, its first transaction and its certificate; the root id gives the start of a chain that has one, without a certificate; sentinels are refused |
| Database.DataService.BlockIdByHeight | src/dataservice/dataservice_block_id_by_height_get.c:40-129 | found exactly for the heights 1 to n, with the id of the block at that place |
| Database.DataService.GetCanonized | src/dataservice/dataservice_canonized_transaction_get.c:51-178 | found exactly when the chain holds it, with its block, certificate, predecessor, and as successor the last transaction that names it as its predecessor; an empty certificate is refused |
| Database.DataService.MakeBlock | src/dataservice/dataservice_block_make.c:145-360 | a block is accepted exactly when height, previous id and id fit the chain, the id is new, and each certificate is complete, queued, not yet canonized and has a known predecessor; then the block joins the chain and its transactions leave the queue, else nothing changes |
| Database.WriteBlock | src/dataservice/dataservice_block_make.c:145-360 | the same on table values: the five tables stay mutually consistent, whether the transaction commits or aborts |
| Database.CheckHeader | src/dataservice/dataservice_block_make.c:214-242 | the three header constraints together hold exactly when height is chain length plus one, the previous id is the latest, and the id is the announced one and no reserved id; and which of six errors is reported exactly when |
| Database.CheckBlock | src/dataservice/dataservice_block_make.c:214-264 | and then that there is a first transaction with an id, with the two errors for that |
| Database.InsertBlock | src/dataservice/dataservice_block_make.c:265-304 | the block list stays a list: links, heights index and end node again describe the chain, one block longer; an id in use is refused |
| Database.ProcessChildren | src/dataservice/dataservice_block_make.c:307-326 | the loop over a block moves exactly its certificates from queue to ledger, or fails exactly when one of them cannot be moved |
| Database.ProcessChild | src/dataservice/dataservice_block_make.c:676-835 | one certificate moves from the queue to the transaction and artifact tables, exactly when it is complete, queued, new and its predecessor is known; and which of seven errors is reported exactly when |
| Database.RecordChild | src/dataservice/dataservice_block_make.c:941-1005 | after the predecessor has been linked to it the transaction table again holds exactly the canonized transactions, each pointing at the next one on its artifact |
| Database.UpdateArtifact | src/dataservice/dataservice_block_make.c:842-935 | the artifact table again summarises all canonized transactions, the new one included |
| Ledger.ProcessableStep | src/dataservice/dataservice_block_make.c:307-326 | a block of j + 1 certificates can be moved exactly when the first j can and the next one can after them |
| Ledger.WithoutPrefix | include/agentd/dataservice.h:300-305 | removing the transactions of a block that took a queue prefix leaves the rest in order |
| Canonizer.Instance.constructor | src/canonization/canonizationservice_instance_create.c:30-115 | a new instance is idle, unconfigured, unkeyed, without a list, with a zero previous signature |
| Canonizer.Instance.ExitEventLoop | src/canonization/canonizationservice_exit_event_loop.c:25-30 | only the exit flag changes |
| Canonizer.Instance.WriteBlockIdRequest | src/canonization/canonizationservice_write_block_id_request.c:27-55 | the state moves only if the request was written |
| Canonizer.Instance.TimerCallback | src/canonization/canonizationservice_timer_cb.c:28-82 | refines OnTimer: one random request with a fresh empty list, or exit with no list; nothing after a forced exit |
| Canonizer.Instance.Reset | src/canonization/canonizationservice_reset.c:26-81 | refines Reset: idle with no list and the timer set to the configured milliseconds, or the next round begun at once |
| Canonizer.Instance.ChildContextClose | src/canonization/canonizationservice_child_context_close.c:23-44 | refines CloseContext |
| Canonizer.Instance.NotifyBlockUpdate | src/canonization/canonizationservice_notify_block_update.c:27-73 | refines NotifyUpdate |
| Canonizer.Instance.CompleteUpdate | src/canonization/canonizationservice_complete_update.c:20-40 | refines CompleteUpdate: the one catch-up notification, or a close request |
| Canonizer.Instance.BuildBlock | src/canonization/canonizationservice_block_make.c:36-232 | a parser reads out of the certificate that was built the id, links and height of the instance, the certificates of the list in order, the id of its key, the time and the signature |
| Canonizer.Instance.BlockMake | src/canonization/canonizationservice_block_make.c:29-264 | what is sent is what a parser reads out of the certificate that was built: the instance id, links and height and the list certificates in order; an empty list completes instead |
| Canonizer.Instance.SendContextCreate | src/canonization/canonizationservice_dataservice_sendreq_child_context_create.c:26-70 | state first, then the request |
| Canonizer.Instance.SendLatestBlockId | src/canonization/canonizationservice_dataservice_sendreq_block_id_latest_get.c:22-54 | state first, then the request |
| Canonizer.Instance.SendBlockGet | src/canonization/canonizationservice_dataservice_sendreq_block_get.c:21-53 | state first, then the request for the previous block |
| Canonizer.Instance.SendTransactionGetFirst | src/canonization/canonizationservice_dataservice_sendreq_transaction_get_first.c:22-55 | state first, then the request |
| Canonizer.Instance.ContextCreated | src/canonization/canonizationservice_dataservice_response_child_context_create.c:27-58 | refines the context response callback |
| Canonizer.Instance.LatestBlockIdRead | src/canonization/canonizationservice_dataservice_response_latest_block_id_read.c:24-76 | refines OnLatestId: height 1 and straight to the queue on the root block, else the block is asked for |
| Canonizer.Instance.ParseBlock | src/canonization/canonizationservice_dataservice_response_block_read.c:85-143 | a signature of the wrong size is silently not copied |
| Canonizer.Instance.BlockRead | src/canonization/canonizationservice_dataservice_response_block_read.c:30-71 | refines OnBlock |
| Canonizer.Instance.TransactionFirstRead | src/canonization/canonizationservice_dataservice_response_transaction_first_read.c:27-123 | refines OnRead for the first read |
| Canonizer.Instance.TransactionRead | src/canonization/canonizationservice_dataservice_response_transaction_read.c:27-123 | refines OnRead for the later reads |
| Canonizer.Instance.TakeTransaction | src/canonization/canonizationservice_dataservice_response_transaction_read.c:57-117 | the shared end of both: append, stop at the limit or the end, else ask for the next one without a state change |
| Canonizer.Instance.ContextClosed | src/canonization/canonizationservice_dataservice_response_child_context_close.c:27-37 | refines OnContextClosed: sleep unless the list has exactly the limit |
| Canonizer.Instance.DataRead | src/canonization/canonizationservice_data_read.c:26-123 | dispatch by response kind only, never by state; nothing is read after a forced exit |
| Canonizer.Instance.RandomRead | src/canonization/canonizationservice_random_read.c:26-105 | refines OnRandom, which does check the state |
| Canonizer.Instance.NotifyRead | src/canonization/canonizationservice_notify_read.c:27-101 | refines OnNotified, which does check the state |
| Canonizer.Instance.Configure | src/canonization/canonizationservice_decode_and_dispatch_control_command_configure.c:40-98 | refines OnConfigure |
| Canonizer.Instance.SetPrivateKey | src/canonization/canonizationservice_decode_and_dispatch_control_command_private_key_set.c:47-292 | refines OnKeySet |
| Canonizer.Instance.StartService | src/canonization/canonizationservice_decode_and_dispatch_control_command_start.c:39-119 | a service with limits and key starts once, with the first timer set to ten milliseconds; every other start is refused with its own status, and the reply is written exactly as stated |
| Canonizer.Instance.Command | src/canonization/canonizationservice_decode_and_dispatch_control_command.c:41-98 | the command of a packet refines OnControl, whatever the packet |
| Canonizer.Instance.ControlRead | src/canonization/canonizationservice_control_read.c:24-78 | the service shuts down, and a status is written, exactly as the bytes of the packet, the instance and the faults say; a running service keeps its round untouched by any other command |
| BlockBuilder.BlockSize | src/canonization/canonizationservice_block_make.c:49-87 | the precomputed size is the header size plus one field per certificate |
| BlockBuilder.AddHeader | src/canonization/canonizationservice_block_make.c:97-192 | the eight header fields fit the precomputed size and leave room for exactly the signer id and the signature |
| BlockBuilder.AddCertificates | src/canonization/canonizationservice_block_make.c:192-215 | every certificate fits into the space reserved for it, and the fields are the header followed by one wrapped transaction per certificate, in order |
| BlockBuilder.Build | src/canonization/canonizationservice_block_make.c:49-236 | building never runs out of the reserved space, fills it exactly, and a parser reads back block id, both links, height, certificates in order, signer, time, version, suite, type and signature, which comes last |
| ControlPackets.NetworkRoundTrip | src/canonization/canonization_api_sendreq_configure.c:74-88 | network byte order keeps a number modulo its width |
| ControlPackets.EncodeConfigure | src/canonization/canonization_api_sendreq_configure.c:32-103 | a 20-byte packet exactly when both limits are set; decoding it gives those limits for every 64-bit value |
| ControlPackets.DecodeKey | src/canonization/canonizationservice_decode_and_dispatch_control_command_private_key_set.c:56-150 | a key is decoded exactly when the four announced sizes are the suite sizes and the payload is long enough |
| ControlPackets.EncodeKey | src/canonization/canonization_api_sendreq_private_key_set.c:35-137 | decoding the packet of any key that fits the suite gives that key |
| ControlPackets.ControlIsOneTime | src/canonization/canonizationservice_decode_and_dispatch_control_command.c:41-98 | over any run of control packets: limits once configured and a key once set never change, and the service runs only with both |
| ControlPackets.StartedFrom | src/canonization/canonizationservice_decode_and_dispatch_control_command_configure.c:49-97 | limits come from the first configure packet of the run, and the key from some key packet with the right sizes |
| ControlPackets.CommandExactly | src/canonization/canonizationservice_decode_and_dispatch_control_command.c:41-98 | from the bytes of a packet, the instance and the faults: exactly when a command shuts the service down, which status it writes, and what it sets limits, key and running to |
| ControlPackets.FatalEndsTheRun | src/canonization/canonizationservice_control_read.c:41-58 | a command that shuts the service down is the last one that counts |
| ControlPackets.KeyExactly | src/canonization/canonizationservice_decode_and_dispatch_control_command_private_key_set.c:56-150 | where in a key packet the id and the four keys are |
| ControlPackets.ConfigureExactly | src/canonization/canonizationservice_decode_and_dispatch_control_command_configure.c:71-92 | where in a configure packet the two limits are |
| ControlPackets.NetworkAppend | src/canonization/canonization_api_sendreq_configure.c:74-88 | the most significant byte comes first |
| Conversation.StepKeepsBase | src/canonization/canonizationservice_data_read.c:65-118 | every step keeps the chain linked, one message in flight that fits the state, and the accounts of contexts, notifications and rounds, whoever submits what |
| Conversation.RunKeepsBase | src/canonization/canonizationservice_event_loop.c:164-172 | so does every schedule |
| Conversation.AnyResponse | src/canonization/canonizationservice_data_read.c:65-118 | whatever response arrives, its callback is ready for it and exits, sleeps, or sends the one request that fits its next state |
| Safety.StepKeepsTidy | src/canonization/canonizationservice_data_read.c:65-118 | every clean step of every service keeps queue, attestation service, log and messages in agreement, faults and forced exits included; a step is clean unless it queues an id a second time or accepts a block that does not name the front of the queue |
| Safety.RunKeepsTidy | src/canonization/canonizationservice_event_loop.c:164-172 | so does every clean schedule, whatever the certificates say otherwise |
| Safety.HonestIsClean | src/dataservice/dataservice_transaction_submit.c:53-240 | honest submissions make every step clean |
| Safety.StepKeepsInv | src/canonization/canonizationservice_data_read.c:65-118 | with honest submissions every step also keeps every queued certificate readable and naming its own transaction |
| Safety.RunKeepsInv | src/canonization/canonizationservice_event_loop.c:164-172 | and so does every schedule, which is then a clean one |
| Safety.WriteMovesPrefix | src/dataservice/dataservice_block_make.c:307-326 | an accepted write turns an attested queue prefix into the new block, key for key |
| Conversation.ChainLinkedAppend | src/canonization/canonizationservice_dataservice_response_latest_block_id_read.c:41-73 | a block with the right links keeps the whole chain linked |
| Safety.FlightKept | src/canonization/canonizationservice_dataservice_response_transaction_read.c:77-112 | a queue change that keeps attested transactions in place disturbs no message in flight |
| Safety.DropConserves | src/attestationservice/attestationservice_event_loop.c:180-193 | a drop takes exactly its id out of the conserved sequence |
| Safety.SubmitConserves | src/dataservice/dataservice_transaction_submit.c:53-240 | a submission of a new id appends it to the conserved sequence |
| Safety.WriteConserves | include/agentd/dataservice.h:300-305 | a write moves ids from queue to chain without changing the conserved sequence |
| Theorems.ConservationAndOrder | src/canonization/canonizationservice_dataservice_response_transaction_read.c:77-112 | after a clean run the canonized ids followed by the queued ids are the submitted ids minus the dropped ones, in order, without repetition or loss |
| Soundness.QueueIsShaped | src/attestationservice/attestationservice_event_loop.c:127-139 | after an undisturbed run the queue is an attested prefix followed by submitted transactions |
| Soundness.AttestationIsSound | src/attestationservice/attestationservice_event_loop.c:127-213 | after an undisturbed run the transaction being judged is queued, submitted and first unattested, the next one asked for is always found, and none was ever missed |
| Soundness.JudgingTouchesOnlyTheFrontier | src/attestationservice/attestationservice_event_loop.c:170-193 | after an undisturbed run a judgement attests or removes exactly the first unattested transaction, and so no attested one |
| Theorems.ChainIsLinked | src/canonization/canonizationservice_dataservice_response_latest_block_id_read.c:41-73 | in every reachable state heights are 1 to n, each block names its predecessor and carries its 64-byte signature, the first one the root id and zeroes; no honesty needed |
| Theorems.PendingBlockIsLinked | src/canonization/canonizationservice_block_make.c:150-215 | every block write in flight carries the links of the chain as it is now, whoever submitted what |
| Theorems.PendingBlockIsRight | src/canonization/canonizationservice_block_make.c:150-215 | after a clean run every block write in flight carries the certificates of an attested prefix of the queue as it is now |
| Theorems.PendingBlockAcceptedExactly | src/dataservice/dataservice_api_recvresp_block_make.c:45-56 | such a write is accepted exactly when its random id is usable and its certificates are complete, name different queued transactions and known predecessors |
| Theorems.HonestBlockAcceptedExactly | src/dataservice/dataservice_api_recvresp_block_make.c:45-56 | after honest submissions exactly when its random id is usable and each certificate is complete with a known predecessor |
| Theorems.HonestlyReachable | src/dataservice/dataservice_transaction_submit.c:53-240 | honest submissions lead to cleanly reachable states only |
| Theorems.SingleToken | src/canonization/canonizationservice_timer_cb.c:40-69 | until a forced exit exactly one of armed timer, request and response exists, it agrees with the state, and the list is absent exactly when idle |
| Theorems.SilentAfterExit | src/canonization/canonizationservice_exit_event_loop.c:25-30 | after a forced exit no schedule sends a request, sets a timer or changes the instance |
| Theorems.WalkIsAttestedPrefix | src/canonization/canonizationservice_dataservice_response_transaction_first_read.c:43-112 | after a clean run, during the walk, the list is an attested prefix of the current queue, shorter than the limit |
| Theorems.NotificationAccounting | src/canonization/canonizationservice_complete_update.c:23-39 | notifications sent are block write responses received, plus one once some round has found nothing to canonize |
| Theorems.NotificationNames | src/canonization/canonizationservice_complete_update.c:23-39 | the catch-up, sent with the first empty round, and every notification of an accepted block name the latest block; a rejected block is announced under its own id, and the store did not change |
| Theorems.ContextBalance | src/canonization/canonizationservice_dataservice_response_child_context_create.c:44-57 | opened minus closed child contexts is 0 or 1, and 0 while asleep |
| Theorems.RoundBound | src/canonization/canonizationservice_dataservice_response_transaction_read.c:88-112 | with a limit of at least 1 no round takes more than limit plus 7 responses |
| Theorems.RoundProgress | src/canonization/canonizationservice_dataservice_response_transaction_read.c:88-112 | each response but the last lowers the measure over phase and list length, or the service exits |
| Theorems.LogRecordsRequests | src/canonization/canonizationservice_dataservice_response_child_context_create.c:44-57 | contexts opened and closed are counted exactly when a peer opens or closes one |
| Theorems.LogRecordsResponses | src/canonization/canonizationservice_data_read.c:65-118 | every response that reaches its callback is counted once, and every request it sends is recorded |
| Theorems.LogRecordsJudgements | src/attestationservice/attestationservice_event_loop.c:170-193 | drops and misses are recorded exactly when they happen |
| Contexts.RunKeepsNames | src/canonization/canonizationservice_data_read.c:65-118 | every schedule keeps every request, block and round under its own context, key and id |
| Contexts.RequestsNameTheContext | src/canonization/canonizationservice_dataservice_response_child_context_create.c:44-57 | in every reachable state each pending request names the child context opened last, which is still open; so the one closed is the one opened |
| Contexts.BlocksNameTheSigner | src/canonization/canonizationservice_block_make.c:217-221 | in every reachable state a block on its way names the key of the service as signer |
| Contexts.SignerNeverChanges | src/canonization/canonizationservice_decode_and_dispatch_control_command_private_key_set.c:145-160 | and over every schedule that key stays the same |
| Contexts.BlocksCarryTheTime | src/canonization/canonizationservice_block_make.c:110-128 | a block carries the time and the signature of the callback that built it |
| Contexts.RoundStartsWithoutId | src/canonization/canonizationservice_reset.c:31-35 | between rounds and until the random service answers there is no block id |
| Contexts.BlockIdIsTheRandomOne | src/canonization/canonizationservice_random_read.c:58-105 | and then it is the one the random service named |
| Exits.ExitsExactly | src/canonization/canonizationservice_notify_read.c:44-100 | without faults a callback exits exactly over a failed or malformed response, or over a random number or notification it did not wait for; a rejected block is none of these |
| Exits.FaultsExactly | src/canonization/canonizationservice_block_make.c:36-264 | with faults it does the same, unless a call it makes is the one that fails, and then it exits and does nothing else |
| Exits.TimerExactly | src/canonization/canonizationservice_timer_cb.c:28-82 | the timer starts a round with an empty list, or exits and leaves none |
| Exits.PhaseAfterFailure | src/canonization/canonizationservice_dataservice_sendreq_block_get.c:21-53 | which state a failed call leaves behind |
| Exits.WrongSizeSignature | src/canonization/canonizationservice_dataservice_response_block_read.c:85-143 | a previous block with a signature of another size is taken without it |
| Accounts.SubmissionKeepsOrderExactly | src/dataservice/dataservice_transaction_submit.c:53-240 | an accepted submission keeps the equation exactly when its id was not dropped, keeps ids distinct exactly when it is neither canonized nor queued, and both exactly when it was never submitted |
| Accounts.WriteKeepsOrderExactly | src/dataservice/dataservice_block_make.c:307-326 | an accepted block keeps the equation exactly when its certificates name the first keys of the queue in order |
| Accounts.TakenKeepsOrderExactly | src/canonization/canonizationservice_block_make.c:192-215 | a block made of the first n queued transactions keeps it exactly when their certificates name them |
| Accounts.StepKeepsOrderExactly | src/dataservice/dataservice_transaction_submit.c:53-240 | from accounts in order each step of any service keeps them exactly when it is clean: an accepted submission has a new id, an accepted block names the front of the queue |
| Accounts.RunKeepsOrderExactly | src/canonization/canonizationservice_dataservice_response_transaction_read.c:77-112 | conservation and order without any assumption on submitters: a schedule accounts for every transaction at every point exactly when every step of it is clean |
| Turns.JudgingKeepsShapeExactly | src/dataservice/dataservice_transaction_promote.c:85-207 | a promotion keeps attested prefix and submitted suffix exactly when nothing before it is unattested; a drop always does |
| Turns.StepKeepsShapeExactly | src/attestationservice/attestationservice_event_loop.c:127-213 | from any shaped queue each step of any service keeps the shape exactly when it is in turn: nothing unattested is ahead of what it promotes, or of what it submits without attestation |
| Turns.RunKeepsShapeExactly | src/attestationservice/attestationservice_event_loop.c:127-213 | the shape without any assumption on submitters: a schedule keeps it at every point exactly when every step of it is in turn |
| Turns.CleanIsInTurn | src/attestationservice/attestationservice_event_loop.c:127-213 | clean schedules are in turn |
| Soundness.StepKeepsSoundExactly | src/attestationservice/attestationservice_event_loop.c:127-213 | from a shaped queue and a service that knows where it is, each step of any service keeps both exactly when it does not disturb it: no head just looked up comes back behind another transaction, and no block takes the transaction it is at or the next one |
| Soundness.RunKeepsSoundExactly | src/attestationservice/attestationservice_event_loop.c:127-213 | over every schedule, with no assumption on submitters: attestation is sound at every point exactly when no submission and no block disturbs it, and then nothing is missed |
| Soundness.CleanIsUndisturbed | src/attestationservice/attestationservice_event_loop.c:127-213 | clean schedules, and so honest ones, are undisturbed |
| Misuse.OutOfTurn | src/attestationservice/attestationservice_event_loop.c:111-135 | a reachable state that is not shaped, all certificates agreeing: the head is looked up, canonized, submitted again and attested behind another transaction |
| Misuse.AttestedDropped | src/attestationservice/attestationservice_event_loop.c:180-193 | from there the service comes to decide on an attested transaction, and its drop removes it |
| Misuse.WrongOneTaken | src/dataservice/dataservice_block_make.c:676-835 | a reachable state out of order: from an empty database, a certificate that names another queued transaction makes a block take that one out unattested and leave its own |
| Misuse.NodeMissed | src/attestationservice/attestationservice_event_loop.c:195-213 | from there the attestation service misses the transaction it was about to read, and stops |
| Accounts.CanonizedAgain | src/dataservice/dataservice_transaction_submit.c:160-240 | an input that repeats an id: a canonized id is queued again |
| Stalled.RunStays | src/canonization/canonizationservice_dataservice_response_block_write.c:26-32 | once an attested transaction that cannot be canonized is within reach of a round, no schedule moves it or adds a block, dishonest submissions included |
| Stalled.StalledExactly | src/dataservice/dataservice_block_make.c:307-326 | from the start of a round with attested transactions no schedule ever adds a block exactly when one of the transactions the round would take is incomplete or has an unknown predecessor |
| Stalled.StallIsReachable | src/dataservice/dataservice_block_make.c:676-835 | such a state is reached from an empty database by one honest submission, with and without attestation |
| Machine.Host.constructor | src/canonization/canonizationservice_event_loop.c:66-172 | a started instance over a database in good order is the first state of a protocol run |
| Machine.Host.Fire | src/canonization/canonizationservice_timer_cb.c:28-82 | the timer callback of the instance is the timer step of the protocol |
| Machine.Host.Deliver | src/canonization/canonizationservice_data_read.c:26-123 | handing a response to its callback is the delivery step of the protocol |
| Machine.Host.Serve | include/agentd/dataservice.h:300-305 | the data service answering from its tables is the serving step of the protocol |
| Machine.Host.Submit | src/dataservice/dataservice_transaction_submit.c:53-388 | a submission to the tables, whoever makes it, is the submission step of the protocol, unless it breaks the queue table |
| Machine.Host.Wake | src/attestationservice/attestationservice_dataservice_query_pending_transaction.c:86-112 | the first query of an attestation round is its protocol step |
| Machine.Host.Read | src/attestationservice/attestationservice_event_loop.c:108-135 | reading a node from the tables is the reading step of the protocol |
| Machine.Host.Promote | src/attestationservice/attestationservice_event_loop.c:170-178 | promoting in the tables and moving on is the accepting step of the protocol |
| Machine.Host.Drop | src/attestationservice/attestationservice_event_loop.c:180-213 | dropping from the tables and moving on is the rejecting step of the protocol |
| Pipeline.RoundIsARun | src/attestationservice/attestationservice_event_loop.c:95-221 | an attestation round over a queue nobody else touches, good or failing, is a run of the protocol with the same queue and the dropped ids logged |
| Pipeline.AfterIsARun | src/canonization/canonizationservice_dataservice_response_child_context_close.c:31-36 | and so are the rounds of the canonization service after it |
| Pipeline.SubmittedToCanonized | src/attestationservice/attestationservice_event_loop.c:111-213 | from a queue of submitted transactions one schedule attests and drains it: the chain grows by exactly the transactions the round takes, in submission order and in the fewest blocks, the rejected ids are dropped, what the round did not come to stays, and the attestation service survives exactly when the round is safe |
| Rounds.QuietRound | src/canonization/canonizationservice_dataservice_response_transaction_first_read.c:43-112 | an undisturbed round writes one block with exactly the longest attested prefix up to the limit, and sleeps exactly when the limit was not reached |
| Rounds.Drain | src/canonization/canonizationservice_dataservice_response_child_context_close.c:31-36 | n attested transactions in front: exactly n / max rounds run on at once, the next sleeps, and all n are then canonized in order in the fewest blocks |
| Rounds.ZeroLimitRound | src/canonization/canonizationservice_dataservice_response_child_context_close.c:31-36 | with a limit of zero a round sleeps exactly when it found transactions |
| Rounds.ZeroLimitSpins | src/canonization/canonizationservice_dataservice_response_child_context_close.c:31-36 | with a limit of zero and an empty queue each round starts the next at once, however many there are |
| Rounds.FinishIsARun | src/canonization/canonizationservice_data_read.c:65-118 | an undisturbed round is one of the protocol runs the other theorems speak about |
| Rounds.CalmProgress | src/canonization/canonizationservice_dataservice_response_transaction_read.c:88-112 | an undisturbed round ends for every limit, zero included |
| Attestor.Instance.GetOrQueryArtifact | src/attestationservice/attestationservice_get_or_query_artifact.c:32-86 | the record from the tree, or else the summary the data service keeps of the chain |
| Attestor.Instance.UpdateOrInsertArtifact | src/attestationservice/attestationservice_update_or_insert_artifact.c:32-69 | only latest transaction and state of a known record change |
| Attestor.Instance.TransactionTreeInsert | src/attestationservice/attestationservice_dataservice_transaction_tree_insert.c:40-107 | fails exactly when an allocation or a tree fails or the artifact is unknown away from the head of the queue, and otherwise remembers as Remembered says |
| Attestor.Instance.PromoteTransaction | src/attestationservice/attestationservice_dataservice_transaction_promote.c:29-63 | the promotion is in the database even when remembering it fails, for whatever reason |
| Attestor.Instance.QueryPending | src/attestationservice/attestationservice_dataservice_query_pending_transaction.c:48-154 | the node read is the queued transaction with its neighbours; failure means missing or empty |
| Attestor.Instance.Advance | src/attestationservice/attestationservice_event_loop.c:137-213 | one turn of the loop keeps the outcome of the round |
| Attestor.Instance.DoAttestation | src/attestationservice/attestationservice_event_loop.c:95-221 | the whole loop has the outcome AttestRound says, queue, memory and status; an empty queue or an attested head leaves everything unchanged |
| Attestor.Instance.Turn | src/attestationservice/attestationservice_event_loop.c:61-84 | a round starts and, if it ended well, ends with both trees empty |
| Attestation.EachVerifierDecides | src/attestationservice/attestationservice_event_loop.c:146-193 | with a verdict for each of the three verifiers: the round takes exactly the transactions that all three accept, so that any one of them removes a transaction from the queue |
| Attestation.PromotesWhatIsAccepted | src/attestationservice/attestationservice_event_loop.c:111-213 | for a verdict on transaction and database: the round ends well exactly when every accepted transaction after the first is on an artifact the database knows or the first one touched, and then promotes exactly the accepted ones and drops the rest; otherwise it dies over the first that is not, with the accepted ones up to it promoted, the rejected ones before it dropped and what follows untouched |
| Attestation.RoundResult | src/attestationservice/attestationservice_event_loop.c:111-213 | for verifiers that look at the memory of the round too: the queue left is the transactions taken, attested and in order, followed by those the round did not come to, and only the last one taken can be on an unknown artifact |
| Attestation.AttestFromIs | src/attestationservice/attestationservice_event_loop.c:137-213 | the loop over the queue is the judgement of its transactions one by one, from any position and memory, failures included |
| Attestation.RoundRemembers | src/attestationservice/attestationservice_dataservice_transaction_tree_insert.c:48-57 | after a round that ended well the transaction tree holds exactly the transactions taken |
| Attestation.TwoCreatesAreFatal | src/attestationservice/attestationservice_dataservice_transaction_tree_insert.c:59-81 | two accepted transactions on new artifacts: both promotions are stored and the service dies |
| Attestation.NothingAccepted | src/attestationservice/attestationservice_verify_txn_has_valid_fields.c:34-47 | verifiers that accept nothing empty a queue with a submitted head |
| Overlay.OverlayLookup | src/attestationservice/attestationservice_dataservice_transaction_tree_insert.c:48-92 | after any promotions a lookup answers with the last promoted transaction and its state and an unchanging first one and heights, or else the database record |
| Overlay.RememberedStates | include/agentd/dataservice/data.h:25-31 | the numbers remembered for the states |
| Overlay.FirstNeverChanges | src/attestationservice/attestationservice_update_or_insert_artifact.c:57-62 | the first transaction of a record in memory never changes |
| Overlay.RoundMemory | src/attestationservice/attestationservice_event_loop.c:137-213 | the memory a round leaves is that of its accepted transactions, the first of which alone was read at the head |
| Overlay.OverlayAgreesWithDatabase | src/attestationservice/attestationservice_dataservice_transaction_tree_insert.c:59-92 | once canonized under certificates that name their artifacts, database and memory agree on the latest transaction; on the first one exactly unless an existing artifact was taken for a new one at the head; on the state exactly when the two unrelated numbers coincide |
| Overlay.LatestAgreesExactly | src/dataservice/dataservice_block_make.c:842-935 | whatever artifacts the certificates name: they agree on the latest transaction exactly when the certificate of the last one promoted on the artifact names it and no later one does |
| Overlay.ExistingArtifactAtHead | src/attestationservice/attestationservice_dataservice_transaction_tree_insert.c:59-71 | an input where the first transaction comes out wrong: an existing artifact at the head of the queue |
| ConfigStream.ReadConfig | src/config/config_read_block.c:57-197 | the loop computes Parse, whose accepted streams and results are characterised below |
| ConfigStream.WriteConfig | src/config/config_write_block.c:44-126 | the records of the config in their fixed order between the two marks |
| ConfigStream.WriteListen | src/config/config_write_block.c:353-383 | one record per listen address, in list order |
| ConfigStream.WriteKeys | src/config/config_write_block.c:522-543 | one record per public key, in list order |
| ConfigStream.AcceptedExactly | src/config/config_read_block.c:57-197 | a stream is accepted exactly when it is a begin mark, readable records that set nothing twice, and an end mark |
| ConfigStream.OrderOnlyMattersWithinLists | src/config/config_read_block.c:75-193 | the result depends on the order of records only within each of the two lists |
| ConfigStream.FoldedLists | src/config/config_read_block.c:568-571 | both lists come out in reverse of stream order |
| ConfigWire.TextAlone | src/config/config_read_block.c:75-193 | the number of each text setting, and that it is read exactly up to ten megabytes |
| ConfigWire.NumberAlone | src/config/config_read_block.c:75-193 | the number and the limit of each number setting, and that it is read exactly within it |
| ConfigWire.ListenAlone | src/config/config_read_block.c:514-585 | a listen address is read exactly when it converts, and of its port the low 16 bits count |
| ConfigWire.WrittenInFull | src/config/config_write_block.c:44-126 | the stream of a configuration that sets everything, value by value |
| ConfigWire.RejectedExactly | src/config/config_read_block.c:75-197 | behind any records that can be absorbed, the reason a stream is rejected is the one that shows there |
| ConfigRoundTrip.RoundTrip | src/config/config_write_block.c:44-126 | what was written is accepted exactly when numbers are in range and strings not too long, and then every transmitted field is restored with both lists reversed |
| ConfigRoundTrip.TwoRoundTrips | src/config/config_write_block.c:44-126 | two round trips are the identity, but for the two fields that are not transmitted |
| ConfigDefaults.SetDefaults | src/config/config_set_defaults.c:21-189 | on success the completed configuration; on failure the code of the first allocation that is needed and fails; nothing set and in range is ever lost |
| ConfigDefaults.CompletionIsComplete | src/config/config_set_defaults.c:27-185 | completion keeps what was set and in range and leaves nothing unset or out of range |
| ConfigDefaults.DefaultsAre | src/config/config_set_defaults.c:27-185 | the default of every setting, and when it is used |
| ConfigDefaults.CompletionIsIdempotent | src/config/config_set_defaults.c:27-185 | completing twice is completing once |
| ConfigDefaults.LimitsReachInstance | src/config/config_set_defaults.c:52-64 | for every stream that was read: the completed limits are in range, equal what the stream set, and an instance that gets any packet that decodes to them holds exactly them through whatever commands follow |
| ConfigDefaults.ConfigureFrom | src/canonization/canonization_api_sendreq_configure.c:32-103 | read, complete, encode: there is a packet exactly when the stream is accepted and no allocation that is needed fails, and the instance that receives it keeps the completed limits |
| PublicEntities.Reader.CapabilitiesCount | src/command/private_command_read_public_entities.c:751-791 | the number of endorsements |
| PublicEntities.Reader.EmitCapabilities | src/command/private_command_read_public_entities.c:396-501 | the count and then the framed records, breaking off exactly before the first endorsement that is too short |
| PublicEntities.Reader.ReadPublicEntity | src/command/private_command_read_public_entities.c:218-527 | refines ReplyTo, endorser included |
| PublicEntities.Reader.ReadPublicEntities | src/command/private_command_read_public_entities.c:160-201 | refines Session: only the first file can be the endorser, the first failure ends it |
| PublicEntities.CountMatchesRecords | src/command/private_command_read_public_entities.c:393-510 | a successful reply under an endorser is the marks, the three fields, the count, and exactly as many records, the k-th being the three 16-byte parts of the k-th endorsement |
| PublicEntities.BrokenOffReply | src/command/private_command_read_public_entities.c:393-510 | a reply that breaks off announces all endorsements and frames those before the first that is too short |
| PublicEntities.AttestedBeforeAnyByte | src/command/private_command_read_public_entities.c:268-277 | under an endorser no byte is written for a file that does not attest under it |
| PublicEntities.EndorsedSession | src/command/private_command_read_public_entities.c:339-363 | the same for a session that starts with the endorser file |
| PublicEntities.RepliesExactly | src/command/private_command_read_public_entities.c:160-201 | from the files alone: there is a reply for every file up to and including the first that is not answered in full, and it holds something exactly when its file can be read, attests and has its fields |
| PublicEntities.CapabilitiesReadExactly | src/readers/config_read_public_entities_proc.c:615-747 | the parent reads capabilities exactly when they end, behind all records or at a field of a wrong size, and keeps those before that, last first |
| PublicEntities.EntityReadExactly | src/readers/config_read_public_entities_proc.c:404-562 | the parent reads an entity exactly when its leading values, capabilities, end mark and the size of its id are right |
| PublicEntities.ReplyRoundTrip | src/readers/config_read_public_entities_proc.c:404-562 | the parent reads id, keys and capabilities, last first, from a successful reply, and nothing of what follows |
| PublicEntities.KeptCapabilities | src/readers/config_read_public_entities_proc.c:636-695 | the parent keeps as many capabilities as were announced exactly when no field has a wrong size |

## Left out

- Process spawning, privilege separation, descriptor passing and signals: operating-system plumbing. A signal that ends the loop is the forced exit step of the protocol.
- The bytes of data service, random and notification messages: a message is its decoded value. Only the control packets, where a value crosses into the instance, are modelled byte by byte.
- Socket buffering and partial reads and writes; write failures in the configuration printer and the public entity reader: those streams are sequences of typed values.
- Capability bits of child contexts: the 23 bits are checked one by one; contexts are counted, not checked.
- Failures inside the database (full map, failed commit): an operation either commits or leaves the database as it was. Values read in a database transaction are snapshots; pointers into pages that later writes of the same transaction move are not modelled.
- Certificate contents beyond the fields named here, signatures and their verification: a certificate is its bytes and the fields a parser finds, a signature is bytes of the suite's size. The certificate library is not part of this model; its field header is taken as two bytes of type and two of size.
- Heights and counts are unbounded integers where the source has 64 bits, except in the control packets, where the 64-bit reading of both limits is explicit.
- Memory ownership and disposal, except whether the transaction list is there.
- The address conversion pair is a parameter; `ConfigRoundTrip.RoundTrip` and the lemmas under it assume it restores every address it prints.
- The auth service, the protocol service, logging, the command line, and the other data service tables.
- Attestor.Instance.DoAttestation: runs over a queue nobody else touches and without allocation failures; `Pipeline.RoundIsARun` makes it a run of the protocol, where other services interleave and any promotion may fail to be recorded (`Soundness.AttestationIsSound`).
- Protocol: what a block in flight and the walk carry (`Theorems.PendingBlockIsRight`, `Theorems.PendingBlockAcceptedExactly`, `Theorems.WalkIsAttestedPrefix`) is proved for clean runs, which leave out runs that queue an id twice or accept a block that does not name the front of the queue; conservation, shape and attestation have exact conditions over all runs.
- Machine.Host.Submit: the submission that breaks the queue table has no step in the protocol, because no queue is left; `Database.DataService.Submit` says what happens then.
- Ledger.Submit: a sentinel id is always refused, as the data service does once its queue exists.
- PublicEntities.ReplyRoundTrip: the parent's memory handling is not modelled; it frees three pointers it never set when no capability is announced (src/readers/config_read_public_entities_proc.c:736-743).
- The 16 bytes of an id: an id is a reserved one or one of unboundedly many others, so an unused block id always exists (`Stalled.StalledExactly`).
- BlockBuilder.Build: a field holds any number of bytes, where the two-byte size of a certificate field limits a wrapped transaction to 65535; submission sets no such limit, and what the certificate library does beyond it is not part of this model.
- Rounds.QuietRound: the clock stands at zero in undisturbed rounds; nothing but the time in the block depends on it.
