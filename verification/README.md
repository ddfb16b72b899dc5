# A verified model of the vsock link, file transfer and drives

This project models the parts of poprocks whose correctness depends on more than one function at a time, and
proves what they are for. Each module states its operations twice where the program changes state: as a class
or a loop that works as the program does, and as functions on values that the class is proved against and that
the lemmas speak about. Protocols are state machines whose steps are the program's lock-protected regions and
outside operations; their main results hold for every run.

## The parts

**Frames and the link** (`Frames`, `Sending`, `Receiving`, `WireLock`, `WireChannel`). A frame is a 16-byte big-endian header
and a payload. The sending loops are proved for every way a connection takes bytes in pieces and a source gives
them. The serve loop is proved to dispatch exactly what a recursive reader of the byte stream finds, whatever
part of each payload its handlers read. Connections, sources and handlers keep a record of the failures they report,
and every error of a send or of the serve loop is proved to be one of those. Under the write lock, any interleaving of senders leaves whole frames
in lock order on the wire, so that the two-node models may treat a connection as a channel of frames.

**Correlation** (`Acks`, `AckedLink`, `Responses`). The tables of pending acknowledgements and pending responses
are classes; every interleaving of registrations, clean-ups and resolvers is covered, with reused ids.
`AckedLink` joins two nodes by two byte channels and relates a returned send to what the peer handled. Each of the
three machines is also proved to let its calls through: a registration can always be answered, and no send is stuck.

**File transfer** (`TransferBody`, `TransferReceiver`, `TransferRuns`, `TransferIsolation`, `TransferLink`,
`TransferFlow`, `TransferKept`, `TransferDelivery`, `TransferSuccess`, `TransferLimits`, `TransferClobber`). The three handlers
work on a small file system with inodes, so that a file can be renamed over while it is open; a file is found
at the place its path names from the working directory, not by how the path is spelled. `TransferLink`
composes them with two byte channels and any number of `SendFile` calls; `TransferFlow` and `TransferKept` hold
its invariants, and `TransferDelivery` the end-to-end theorem.

**Drives** (`Drive`, `DriveRuns`, `DriveCalls`, `DriveFailures`). The base drive and the encrypted drive have the same fields,
but for the key, and the same regions, so one class with a kind models both; the kind selects the checks in
which they differ.

**Smaller algorithms** (`StructTags`, `Env`, `Text`, `Paths`, `PathChecks`). The depth-first tag search over
cyclic type graphs, the file of environment variables, and lexical containment of paths.

## What is assumed

- The acknowledged link: a send's frame is not an acknowledgement; timeouts and cancellation may come at any
  step, and a handler may finish before its frame is whole.
- The transfer link: acknowledgements off on both ends; frames are written whole, which `WireLock` proves until
  the first failed write; the source file does not change during the call; message ids are fresh and not zero;
  decoding undoes encoding; the length of a reply fits 32 bits. SHA-256 is an arbitrary function. Both messengers
  have a limit for what they send and one for what they receive, 4 MiB by default; none when it is 0.
- The receiver's disk: a new temporary file has an inode not in use and a name not in use, formed as
  `os.CreateTemp` forms it from the destination; the working directory does not change; two paths name one file
  only if they name the same place once slashes, `.` and `..` are resolved, so there are no links.
- The drives: no `Mount` succeeds while a `Delete` is past its `Unmount` (`DriveRuns.MountKeptExactly` proves that
  this guard is exact), a deleted drive is not mounted again, and a new temporary directory has a name.
- Paths are Unix paths; the working directory, when it can be had, is absolute.

## What the proofs found

- `Binary` writes the payload length cut to 32 bits, so a payload of 4 GiB or more never parses back. The
  round trip holds exactly for messages with an id and a shorter payload.
- A stream that ends inside its last payload is not reported: the serve loop hands the short payload to the
  handler and returns nil, as after a stream that ended between frames. `Receiving.NilResult` says exactly which
  streams give nil, and which of them were whole frames.
- A destination that is another live transfer's temporary file breaks that transfer's promise: both commits
  succeed and its destination gets the other's file, although its size and digest were checked. The hash covers
  the bytes received, not the file that is renamed. `TransferClobber` gives a run with plain file names.
- What is exact about this is said per transfer and over every run: `TransferRuns.ReplacedExactly` and
  `TransferDelivery.SendFileOutcome`. An OK result means that the sender's file was delivered if no OK commit of
  another transfer had the call's own temporary file as its destination since its open; otherwise the destination
  got what the last such commit had put there, which is right only if the bytes are equal. Other transfers in the
  same run are not affected. Destinations whose last segment is not shaped like a temporary name exclude it, and
  that must be asked of the place and not of the spelling.
- `SendFile` checks only that a file fits a frame. A file that passes can still never arrive: a body over the
  sender's limit is refused before it is sent, and one over the receiver's ends the receiver's serve loop.
  `TransferLimits.SendFileSucceedsExactly` says which calls can succeed.
- Environment variables survive saving and loading exactly when no name holds an `=` or a newline and no value
  holds a newline; nothing checks this when a variable is set.
- A drive whose ephemeral mount directory cannot be removed is stuck for good: its flags say mounted and
  unmounting, and `Mount`, `Unmount`, `Delete`, reading and writing all refuse for ever. Nothing else makes a
  drive stuck.
- `Delete` forgets a mount that succeeds after its `Unmount`: the file system stays attached to a drive that says
  it is deleted. A mount that is refused, or that comes during the `Unmount` inside a `Delete`, does no harm.

## Model

| member | source | states |
|---|---|---|
| Frames.ParseAfterBinary | vsock/message.go:43-57 | Parsing the printed form of a message gives the message back if and only if its id is not zero and its payload length fits 32 bits; a longer payload is always rejected, because the length field has wrapped around. |
| Frames.BinaryAfterParse | vsock/message.go:148-171 | Printing an accepted parse gives back the same bytes. |
| Frames.AcceptedBytes | vsock/message.go:148-171 | A byte string is accepted if and only if it is the printed form of some message with an id and a payload of 32-bit length. |
| Frames.RejectedExactly | vsock/message.go:148-171 | A byte string is rejected as too short if and only if it is under 16 bytes, for its id if and only if it is the printed form of a frame with id 0, and for its length if and only if it is long enough and no frame's printed form. |
| Frames.HeaderBytes | vsock/stream.go:135-138 | The 16 bytes of a header one by one: 8 of the id, 4 of the type and 4 of the length, the most significant first. |
| Frames.HeaderRoundTrip | vsock/stream.go:135-138 | The 16 header bytes the sender writes decode to the same id, type and length. |
| Frames.PrefixFree | vsock/stream.go:204-210 | Two frames followed by anything that give the same bytes are the same frame followed by the same bytes. |
| Frames.UniqueSplit | vsock/stream.go:204-210 | A concatenation of frames splits into frames in only one way. |
| Frames.ReadConcat | vsock/stream.go:194-218 | The recursive reader of a stream finds exactly the admitted frames that were written, in order, and goes on with whatever follows them. |
| Frames.FrontExactly | vsock/stream.go:194-218 | For a frame at the front of a stream: id 0 stops the reading for that reason, otherwise a payload over a limit that is not 0 stops it for that reason, and otherwise the frame is read and the reading goes on behind it. |
| Frames.OnlyLastCutShort | vsock/message.go:94-145 | In the reading of any byte stream every payload is whole but possibly the last, and that one only when the stream ends inside it. |
| Frames.EndsBetweenFrames | vsock/stream.go:194-218 | The reading of a stream ends between frames if and only if the stream is whole admitted frames, followed by nothing or by one frame cut short inside its payload. |
| Frames.WholeExactly | vsock/message.go:94-145 | It ends there with every payload whole if and only if the stream is a concatenation of admitted frames. |
| Sending.FrameAtIsBinary | vsock/message.go:43-57 | The bytes a sender puts on the wire for a payload are the printed form of the message with that payload. |
| Sending.Messenger.WriteAll | vsock/stream.go:177-192 | However the connection takes the bytes in pieces: a nil result means exactly the given bytes were appended, an error means a prefix of them was, and that a write failed or the context is done. |
| Sending.Messenger.WritePayload | vsock/stream.go:144-174 | The copy loop appends what it consumes from the source and no more; nil means exactly the declared length, an early end of the source is reported as such. |
| Sending.Messenger.SendStreamOnce | vsock/stream.go:131-175 | Nil means the wire gained exactly the header and the next payload bytes of the source and the source advanced by exactly that many; an error means the wire gained a prefix of that. It terminates when reader and connection make progress. |
| Sending.Messenger.SendStreamAttempt | vsock/stream.go:112-129 | An attempt whose send did not fail wrote one whole frame, and only then can it wait for an acknowledgement. |
| Sending.Messenger.Retry | vsock/stream.go:88-110 | Every attempt before the last failed. Nil means the last one was acknowledged, if that is asked for, or written. An error means that all allowed attempts were made, unless the context is done, which is then the error, or the source could not go back. Until an attempt fails to write, the wire gained one identical copy of the frame per attempt; every failure of an attempt has its cause in the connection, the source or the context, and the peer was waited for exactly as the attempts say. |
| Sending.Messenger.SendStreamWithId | vsock/stream.go:55-110 | The id and size checks, exactly. With acknowledgements required and a type that is not the acknowledgement's, nil means that the last attempt was acknowledged, and there are up to one and the retries if the reader can seek; otherwise nothing waits, and there is one attempt. The wire holds identical copies of the frame, one per attempt, while no attempt failed to write. |
| Receiving.Incoming.ReadFull | vsock/stream.go:199-202 | Exactly the asked bytes of the stream in order, or an error that tells an end before the first byte from an end inside. |
| Receiving.StreamMessage.ReadAll | vsock/message.go:94-117 | The payload from where the reader stands, without crossing the payload end; the end of the stream inside a payload is not an error; the second call gives the remembered bytes and reads nothing. |
| Receiving.StreamMessage.Drain | vsock/message.go:139-145 | A nil result leaves the connection exactly at the end of the payload, or of the stream. |
| Receiving.ReadHeader | vsock/stream.go:194-218 | A header that is returned is the one the recursive reader finds at this place and is admitted; a framing error says why the recursive reader stops here; any other error is a failed read, or the context is done and no header could be read. |
| Receiving.ServeOne | vsock/messenger.go:205-228 | After a handler that read any part of the payload and did not fail, the connection stands exactly behind the frame; an error of the turn is the handler's or one that a read reported. |
| Receiving.ChainRead | vsock/messenger.go:204-229 | A chain of admitted frames up to a position is what the recursive reader finds before reading on from that position. |
| Receiving.Serve | vsock/messenger.go:189-230 | For every byte stream, every fragmentation and every handler behaviour, the dispatched headers and payload parts are those of the recursive reader, in order, and the handlers were given exactly these; if the loop ends for a framing reason it dispatched all of them and the reason is the reader's. It ends otherwise only with the error the last handler returned, a failure that a read reported, or a context that is done: when none of these happened, the end is a framing end. |
| Receiving.NilResult | vsock/messenger.go:204-229 | Unless the connection, the context or a handler failed, the loop returns nil if and only if the stream was whole admitted frames followed by nothing or by one cut frame; all payloads were whole if and only if the stream was whole frames. |
| Receiving.CutFrameGoesUnreported | vsock/messenger.go:204-229 | On frames followed by one cut inside its payload the loop returns nil, after handing the short payload to a handler under the header that announces more. |
| WireLock.SharedWire | vsock/stream.go:131-192 | For every interleaving of any number of senders, acknowledgements included, and until the first failed write: the wire is whole frames in lock order and a prefix of the lock holder's frame, and each sender's frames are on it in its own order, none lost or repeated. |
| WireLock.FrameGoesOut | vsock/stream.go:131-192 | Whenever the lock is free a sender can take it, write its next frame in two pieces of any size and free the lock; the wire has gained exactly that frame and the other senders' programs are as before. |
| WireLock.FailureFreesLock | vsock/stream.go:131-192 | A failed write frees the lock, leaves what is on the wire and is remembered for the rest of every run. |
| WireLock.PeerReadsInLockOrder | vsock/stream.go:131-218 | What the peer's reader finds on such a wire: the completed frames in lock order, and at most the holder's frame cut short. |
| WireLock.WireOnlyGrows | vsock/stream.go:177-192 | Bytes on the wire and completed frames are never taken back. |
| Acks.AckTable.ResolveAck | vsock/ack.go:31-41 | The registered channel is taken out of the table and closed once; without a registration nothing changes. |
| Acks.AckTable.AwaitedAttempt | vsock/ack.go:15-60 | An attempt that nothing but one acknowledgement interrupts sees it exactly when it is for its own id, closes its channel at most once and leaves no entry. |
| Acks.ChannelsCloseOnce | vsock/ack.go:15-60 | In every interleaving, reused ids included, every channel in the table is open, no channel is closed twice, and no two resolvers hold the same channel. |
| Acks.ClosedIfTaken | vsock/ack.go:15-54 | In every interleaving a channel has been closed, or a resolver is about to close it, if and only if a resolver of its id came while it was in the table: no acknowledgement is lost and none is made up. |
| Acks.AcknowledgementArrives | vsock/ack.go:15-54 | From any state, a new attempt and a resolver of its id can go through: its channel is closed once, and the table is then as before without the id. |
| Acks.CleanUpSparesOthers | vsock/ack.go:23-60 | A registration is still in the table after a step if and only if the step was not its own clean-up, a resolution of its id or a newer registration of its id. |
| ByteChannel.TakeFaithful | vsock/stream.go:194-218 | A reader of a wire of whole frames gets the oldest one and leaves the others. |
| WireChannel.WireIsChannel | vsock/stream.go:131-218 | A wire under the write lock is a channel of whole frames while nobody holds the lock; while somebody does, a reader finds the same completed frames in it, one after the other, and nothing more. |
| WireChannel.ServedFromChannel | vsock/messenger.go:204-229 | The serve loop on the bytes of such a channel dispatches its frames in order and returns nil after the last. |
| AckedLink.AcknowledgedMeansHandled | vsock/stream.go:55-129 | In every two-node run a send that returned nil had a frame with its id handled without error by the peer, and exactly its own frame when no other send uses the id. |
| AckedLink.NoSendIsStuck | vsock/stream.go:88-129 | In every run a send that has not returned can take a step of its own: start or give up, write unless another frame's writer holds the lock, end its wait, and be answered exactly when its channel is closed. |
| AckedLink.SendGoesThrough | vsock/stream.go:55-129 | Whatever has happened before, once the wires are quiet a new send has a run in which the peer handles its frame and its first attempt is acknowledged, with nothing else changed. |
| AckedLink.SendGoesThroughEarly | vsock/stream.go:112-129 | The same with a peer that handles and acknowledges the frame before it has been written whole. |
| AckedLink.PeerFails | vsock/messenger.go:204-230 | A handler that fails ends the peer's serve loop and nothing is acknowledged; an acknowledgement frame does not reach a handler; the loop may serve again. |
| AckedLink.OwnAcksPass | vsock/messenger.go:204-230 | The sending node's own acknowledgements pass the peer without reaching a handler or being answered. |
| AckedLink.IdenticalCopies | vsock/stream.go:88-110 | The frames one send put on the wire are identical, at most one per allowed attempt, and exactly one per attempt made when no attempt ended before writing. |
| Responses.ResponseTable.ResolveResponse | vsock/request.go:90-120 | The message goes to the channel of the request that waits for its id and type, which is closed once and leaves the table; any other message changes nothing. |
| Responses.ResponseTable.Request | vsock/request.go:44-88 | A request that nothing but one response interrupts gets it exactly when id and type are its own, leaves no entry and takes no other away; a duplicate id changes nothing. |
| Responses.RepliesMatch | vsock/request.go:44-120 | In every run a request that returns a message gets one with the id and type it registered, the only one its channel carried, and no response frame reaches two requests. |
| Responses.NeverEmptyHanded | vsock/request.go:59-68 | No request ever finds its channel closed and empty: a closed channel that is waited on holds its message. |
| Responses.ResponseArrives | vsock/request.go:44-120 | Whatever has happened before, a request whose id is not waiting and a response to it can go through: the request receives as soon as the response is sent and may leave before the channel is closed. |
| Responses.WaitingCanLeave | vsock/request.go:53-88 | A waiting request can give up and leave at any moment: its own entry is then gone, and every other request, entry, resolver and channel is as before. |
| Responses.ResolversNeverBlock | vsock/request.go:96-111 | A resolver that has taken a channel can always send on it at once, is the only one that holds it, and no channel is closed twice. |
| Responses.LeavesOnlyItsOwn | vsock/request.go:53-88 | After a request has returned its own entry is gone, and its leaving removed no other. |
| TransferBody.DecodeAfterEncode | vsock/protocol/common/file_transfer.go:467-494 | Decoding the encoded id followed by any bytes gives the id and stops at exactly those bytes, for every id of 1 to 65535 bytes. |
| TransferBody.EncodeAfterDecode | vsock/protocol/common/file_transfer.go:467-494 | Whatever decodes is the encoding of its id followed by its content. |
| TransferBody.DecodeFrom | vsock/protocol/common/file_transfer.go:480-494 | On a message that is still arriving in pieces, the decoder returns the id and leaves the connection at the first byte of the content; each error says what the payload is, or what a read reported. |
| TransferBody.DeclaredLengthIsExact | vsock/protocol/common/file_transfer.go:65-78 | A body source is declared if and only if the id has 1 to 65535 bytes and header and file fit 32 bits, and else refused for the reason that applies; the declared length is the number of bytes the joined reader yields, without wrap-around, and these decode to the id and the file. |
| TransferRuns.HandleAll | vsock/protocol/common/file_transfer.go:243-390 | The receiver object, given any sequence of open, body and commit messages, ends in the state and gives the outcomes that the run theorems speak of. |
| TransferReceiver.FileTransfer.HandleOpen | vsock/protocol/common/file_transfer.go:243-302 | Each refusal of an open, exactly, in terms of the request, the transfers under way, the policy and the temporary file; an accepted open adds one transfer with an empty new file and nothing else, and a refused one changes nothing. |
| TransferReceiver.FileTransfer.HandleBody | vsock/protocol/common/file_transfer.go:304-341 | Each outcome of a body message, exactly. A stored body is appended to the transfer's file and to the hash, and its length is kept; a copy that fails leaves a part in each, closes the file and does not count as a body; no other transfer and no other file changes. |
| TransferReceiver.FileTransfer.HandleCommit | vsock/protocol/common/file_transfer.go:343-390 | Each result of a commit, exactly: no body, another size, a digest that differs by more than the case of its letters, a rename that fails, or OK. It always ends the transfer; OK reports size and digest and gives the destination the file of the temporary name; otherwise the temporary name is removed if that works. |
| TransferReceiver.EqualFoldExactly | vsock/protocol/common/file_transfer.go:376 | The comparison of digests accepts the same text but for the case of the letters A to Z, and nothing else; on texts without capitals it is equality. |
| TransferRuns.RunKeepsInv | vsock/protocol/common/file_transfer.go:243-390 | Over every run: each transfer under way has a file and a temporary name of its own, no other name stands for its file, and a written body means file content, hash input and byte count agree. |
| TransferRuns.IntactUnlessReplaced | vsock/protocol/common/file_transfer.go:287-390 | A message takes a transfer's temporary name away from its file if and only if it is an OK commit of another transfer whose destination is that name. |
| TransferRuns.ReplacedExactly | vsock/protocol/common/file_transfer.go:243-390 | In every run, the temporary name of a transfer under way stands for its own file if and only if no OK commit since its open had that name as its destination. |
| TransferRuns.ReplacedHolds | vsock/protocol/common/file_transfer.go:243-390 | Otherwise it stands for what the last such commit had put there, unchanged since. |
| TransferRuns.OkCommitDelivers | vsock/protocol/common/file_transfer.go:343-390 | An OK commit reports the size and digest of the received body, a digest that fits the one asked for and equals it when both are in small letters, and moves what the temporary name stands for to the destination: the received body, if the name still stands for the transfer's own file. |
| TransferRuns.CommitsDeliverReceivedBodies | vsock/protocol/common/file_transfer.go:304-390 | In every run, whatever happens to the other transfers: an OK commit has received a body for its transfer, of the expected size and with the reported digest, and leaves that body at the destination if its temporary file has not been replaced since its open, and else the file of the last replacement. |
| TransferRuns.ReplacingDeliversTheWrongFile | vsock/protocol/common/file_transfer.go:374-389 | If a transfer is replaced after its body was written, its commit succeeds too and delivers the replacing transfer's file, right if and only if the two files are equal. |
| TransferRuns.ReplacingBeforeTheBody | vsock/protocol/common/file_transfer.go:304-389 | The same when its body has not come yet: its body and its commit both succeed, and its destination gets the replacing transfer's file. |
| TransferClobber.SucceedsWithTheWrongFile | vsock/protocol/common/file_transfer.go:243-390 | A concrete run from an empty disk in any working directory, with plain file names as destinations and requests as SendFile makes them: the first transfer's size and digest are checked, it gets an OK result with them, and its destination then holds the other transfer's file. |
| TransferRuns.AtMostOneOkCommitPerOpen | vsock/protocol/common/file_transfer.go:254-298 | Accepted opens of an id equal ended transfers plus the one under way; so each accepted open yields at most one OK commit. |
| TransferRuns.SafeNeverReplaces | vsock/protocol/common/file_transfer.go:287-291 | When no destination names a place whose last segment is shaped like a temporary name, however it is spelled, no commit replaces a temporary file. |
| TransferRuns.TempFilesAreIncoming | vsock/protocol/common/file_transfer.go:287-389 | In every run with such destinations the places on disk with temporary names are exactly those of the transfers under way and the strays that were there or could not be removed; with removals succeeding there are no new strays. |
| TransferIsolation.TransfersAreIsolated | vsock/protocol/common/file_transfer.go:254-389 | For every interleaving with such destinations, where no other transfer is given a destination that names the same place: a transfer's outcomes, its standing and the file at that place are those of its own messages alone. |
| TransferLink.PreparedFits | vsock/protocol/common/file_transfer.go:171-205 | What SendFile fills in before it sends: it goes on if and only if the id has 1 to 65535 bytes and, with its two length bytes and the file, fits a 32-bit length; it keeps what is given, and fills in a new id, the file's name, its size and its digest where they are missing. |
| TransferKept.StepKept | vsock/protocol/common/file_transfer.go:164-390 | Each step of the two nodes, handlers, sends, responses and foreign messages, keeps the invariant that ties frames under way, transfers under way, responses under way and the state of each call together. |
| TransferLink.ServesOn | vsock/messenger.go:204-229 | Every transfer message that is handled leaves the stream, whether or not its handler fails; the receiver's loop goes on after a body exactly when it was stored, and after another message exactly when its reply was sent. |
| TransferLink.NothingPassed | vsock/stream.go:204-218 | Whatever the receiver's loop takes has an id and a payload within the receiver's limit, and a loop that has ended takes nothing; the type alone decides whether a transfer handler gets it. |
| TransferDelivery.DeliveredInRun | vsock/protocol/common/file_transfer.go:343-390 | A recorded delivery comes from a commit message that some step of the run handled. |
| TransferDelivery.ReceiverOfRun | vsock/messenger.go:189-230 | Whatever else happens in a run of the two nodes, the receiver is the one that has handled the run's transfer messages in their order. |
| TransferDelivery.SendFileOutcome | vsock/protocol/common/file_transfer.go:164-241 | In every two-node run of any number of SendFile calls, a call that returned an OK result has the size and digest of its file in the result and had its commit handled at some step, right after which the destination held the sender's file byte for byte if no OK commit of another transfer had replaced its temporary file, and else what the last such commit had put there. |
| TransferDelivery.SendFileDelivers | vsock/protocol/common/file_transfer.go:164-241 | A call whose own temporary file was not replaced and that returned an OK result was delivered, whatever happened to the other transfers. |
| TransferDelivery.SafeReceiverDelivers | vsock/protocol/common/file_transfer.go:164-291 | The same for every call to a receiver whose policy gives no destination a temporary name: nothing is assumed of what happens during the run. |
| TransferDelivery.EveryMessageIsHandled | vsock/messenger.go:204-229 | Whatever admitted transfer message the receiver of such a run meets is of a call, and its handling is a step for everything that the operating system allows and whose reply has a 32-bit length; there is such a step when a refusal or failed commit has. |
| TransferSuccess.PassesExactly | vsock/stream.go:62-69 | A message passes from one messenger to another if and only if it has an id and a payload of 32-bit length that, with its header, is within the first one's limit and, without it, within the second one's; 0 is no limit. |
| TransferSuccess.SendFileCanSucceed | vsock/protocol/common/file_transfer.go:164-390 | From a fresh link with helpful surroundings, a call whose three messages and two replies are within the size limits of both messengers, and whose digest is empty or that of its file, has a run in which it returns the OK result. |
| TransferLimits.SuccessNeeds | vsock/stream.go:66-69 | In every run, a call that has returned an OK result had all five messages within the limits of the messenger that sent them and of the one that read them, and asked for no digest or one that fits its file's; in small letters, exactly its file's. |
| TransferLimits.SendFileSucceedsExactly | vsock/stream.go:194-218 | From such a link a call can succeed if and only if its messages and replies are within the limits and the digest it asks for is empty or fits; with digests in small letters, if and only if it is empty or the file's. |
| Drive.ImageDrive.MountAt | drive/base_drive.go:60-102 | For both kinds of drive, each refusal of Mount and its success, exactly, in terms of the flags, the mount point, the options and what the host offers; a success sets the mount point given or the new directory, and a refusal changes nothing. |
| Drive.ImageDrive.Validate | drive/encrypted_drive.go:78-94 | A drive validates if and only if it has an id, a size and a known mount method and, if encrypted, an image, its key and an ext4 file system. |
| Drive.ImageDrive.StartIo | drive/base_drive.go:243-265 | The locked start of a write or load: each refusal exactly, and otherwise one more operation in flight at the drive's mount point. |
| Drive.ImageDrive.DoIo | drive/base_drive.go:235-342 | A write or load that nothing interrupts leaves the fields as they were; each refusal is exactly what the flags, the options and the kind call for, and otherwise it works at the mount point. |
| Drive.ImageDrive.Unmount | drive/base_drive.go:188-233 | An unmount that nothing interrupts succeeds, changes nothing, or, when only the directory could not be removed, leaves the drive mounted and unmounting; which of these, exactly, by the flags and by what becomes of the file system and the directory. |
| Drive.ImageDrive.Delete | drive/encrypted_drive.go:317-348 | When a delete that nothing interrupts succeeds, exactly, on a mounted drive too: it destroys a key that is there and clears the fields; any failure keeps options, image and key. |
| DriveRuns.RunKeepsInv | drive/base_drive.go:188-342 | Over every interleaving: the wait group counts the calls doing I/O, at most one call is inside Unmount, and each call's place fits the drive's fields. |
| DriveRuns.MountKeptExactly | drive/base_drive.go:344-372 | A mount breaks that invariant if and only if it succeeds while a Delete is past its Unmount. |
| DriveRuns.NoIoWhileDetaching | drive/base_drive.go:206-224 | In every run no I/O is in flight when the unmount function or the removal of the directory runs, the directory is removed only of an ephemeral drive and when the file system is no longer attached, and each I/O in flight works at the current, non-empty mount point of a mounted drive, whose file system is attached unless a failed unmount has taken it down. |
| DriveRuns.NoneStartsWhileUnmounting | drive/base_drive.go:243-322 | While the unmounting flag is set no call starts I/O. |
| DriveRuns.UnmountsDoNotOverlap | drive/base_drive.go:188-233 | Two calls are never past the first region of Unmount together, inside Delete or not. |
| DriveRuns.EveryCallCanGoOn | drive/base_drive.go:188-372 | In every run each call can take its next step at once, whatever the outcome of the operation outside the drive, except that an unmount waits for the calls doing I/O, each of which can finish; a new call can always be made. |
| DriveRuns.RunRefines | drive/encrypted_drive.go:114-348 | Both kinds of drive refine one abstract lifecycle over every run: unmounted, mounted with k operations, draining, unmounting, stuck, deleted. |
| DriveCalls.UnmountAlone | drive/base_drive.go:188-233 | Among any other calls that wait, an unmount that nothing interrupts has a run: it takes the file system off, removes the directory exactly of an ephemeral drive, and clears the flags. |
| DriveCalls.DeleteAlone | drive/base_drive.go:344-372 | A delete of a mounted drive that nothing interrupts has a run: the unmount, the removal of the image, and a drive with nothing left whose key, if there, has been destroyed once more. |
| DriveCalls.DeletedOnlyBy | drive/encrypted_drive.go:317-348 | In every run from a new drive, of either kind, that ends with the drive deleted, some call was a Delete, and the image of an ephemeral drive was removed. |
| DriveRuns.ErrorsTellTheLife | drive/base_drive.go:188-322 | The errors callers see say exactly where the drive is in that lifecycle, and no mounted drive lacks an unmount function. |
| DriveRuns.StuckExactly | drive/base_drive.go:220-224 | A drive is stuck at the end of a run if and only if it was stuck before or the removal of its ephemeral mount directory failed in the run; so a stuck drive stays stuck. |
| DriveFailures.FailedRemovalSticks | drive/base_drive.go:188-224 | A concrete run of either kind of ephemeral drive from its start, mounted and unmounted with a removal that fails, that ends stuck. |
| DriveRuns.KeyDestroyedAtMostOnce | drive/encrypted_drive.go:317-348 | Over every run with any number of concurrent Delete calls the key is destroyed at most once: exactly once if the drive has been deleted and had a key, and not before. |
| DriveFailures.MountDuringDeleteIsForgotten | drive/base_drive.go:344-372 | A concrete run in which Mount comes between the regions of Delete: the drive ends deleted and not mounted while its file system is attached and a call still reads from it. |
| StructTags.Strip | vsock/codec.go:262-264 | The pointer-stripping loop ends at the pointed-to type when no type is a pure pointer cycle. |
| StructTags.NoCyclesExactly | vsock/helpers.go:44-46 | On a finite graph the stripping loop ends for every type if and only if no type is on a cycle of pointers. |
| StructTags.HasStructTag | vsock/helpers.go:30-53 | The recursive search with the shared set terminates on cyclic type graphs; true means a tagged struct is reachable, false means every newly seen struct is free of the tag and all it leads to has been seen. |
| StructTags.NothingToFind | vsock/helpers.go:30-53 | A set of seen types that is clean and closed under struct and pointer fields leaves no tag to be found. |
| StructTags.Search | vsock/codec.go:265-272 | One search with its own set returns true if and only if some field of some struct reachable through struct and pointer fields carries the tag with a non-empty value. |
| StructTags.InferCodecType | vsock/codec.go:254-275 | Stream types first; otherwise msgpack, then json, then yaml, each if and only if its tag is reachable and no earlier one is. |
| Env.RoundTrip | vm/env.go:97-113 | For every order in which the map may be enumerated, saving and loading gives back the same map if and only if no name holds an '=' or a newline and no value holds a newline. |
| Env.LoadedSurvives | vm/env.go:26-44 | Whatever was loaded from some file survives being saved and loaded again. |
| Env.LoadFails | vm/env.go:33-42 | Loading fails if and only if some line that is not empty has no '='. |
| Env.FromFile | vm/env.go:26-44 | The parsing loop gives the variables of the recursive reading of the lines, or the error. |
| Env.EnvironmentVariables.SaveToFile | vm/env.go:97-113 | The writing loop succeeds if and only if no write failed, and leaves one line per entry in the order of enumeration; after a failed write the file holds a prefix of that. |
| Env.SaveThenLoad | vm/env.go:26-113 | On the objects: saving to a new file and loading it gives equal variables if and only if they are plain, in whatever order they are written. |
| Paths.CleanKeepsPlace | drive/helpers.go:30 | A cleaned path names the same place and is clean. |
| Paths.PlaceOfClean | drive/helpers.go:30-38 | Cleaning a path before making it absolute does not change the place it names. |
| Paths.RelEscapes | drive/helpers.go:40-46 | The textual test on the relative path passes if and only if the base's segments are a prefix of the target's. |
| PathChecks.SafePathExact | drive/helpers.go:24-49 | For any mount point, the empty one included, a file path is accepted if and only if the place its segments lead to from the mount point is at or below it; the answer is the clean absolute path of that place. Only two slashes in front under an empty mount point lead from the root instead. |
| PathChecks.SafePathContained | drive/helpers.go:24-49 | For any mount point, the empty one included, an accepted path has the mount point's segments as a prefix after cleaning. |
| PathChecks.SenderPathExact | vsock/protocol/common/file_transfer.go:392-428 | A sender's path is resolved if and only if it is relative and cleans to something strictly below its start; it resolves to that place under the root, the second traversal check rejects nothing that the first accepted, and each refusal is exactly for its reason. |
| PathChecks.NoSymLinks | drive/helpers.go:51-89 | The loop over the segments gives the result of the recursive walk; the working directory is missed exactly when it cannot be had and one of the paths is relative. |
| PathChecks.ScanIsClear | drive/helpers.go:68-86 | The walk passes if and only if no component below the mount point is a symbolic link, as far as the components exist, and a missing one is allowed for; it reports a link if and only if the first component that is not passed is one. |
| PathChecks.PathCheck | drive/helpers.go:11-20 | Accepted if and only if the place is at or below the mount point and no component on the way down is a symbolic link; a traversal and a link are reported exactly when they are the reason. |

## Left out

- Starting and stopping virtual machines and attaching drives to them (`vm/`).
- The external commands behind mounting and unmounting: a mount or unmount is a step that succeeds or fails,
  and a failed unmount may or may not have taken the file system down.
- The payload codecs and the reflection that fills reader and length fields; a codec is an assumed inverse pair,
  and whether a type implements a reader is given to `StructTags.InferCodecType`.
- SHA-256, random ids, clocks and timers; a new id is taken to be fresh and not zero.
- Heartbeats, key wrappers, drive options in JSON, default configurations, file permissions and the validation
  of a messenger's configuration: they would add only easy members.
- `EnvironmentVariables.Keys` and `Destroy`, `ResolveHostPathByName` and the messages of errors, for the same
  reason. Errors are told apart by kind.
- The checks for nil receivers and nil arguments.
- Registering and removing handlers in `OnReceive`, `OnRequest` and `RemoveReceiver`; the transfer link has its
  three handlers registered throughout.
- Progress of requests when acknowledgements are required: a handler that replies from inside the serve loop
  then waits for that same loop. `Responses` states safety and that a response can always arrive,
  `TransferDelivery` states safety, and `TransferLimits` when a successful run exists.
- What a wire holds after the first failed write. A torn frame may then be followed by a retry of the same
  frame; `Sending.Messenger.Retry` counts copies up to that point only.
- AckedLink.AcknowledgedMeansHandled: a response frame that the sender's own loop hands to a waiting request is
  a step that leaves the acknowledgement table alone; what the request does with it is in `Responses`.
- AckedLink.IdenticalCopies: an attempt that fails to write is taken to have written nothing, since a torn frame
  ends the claims about the wire.
- Transfer handlers that run at the same time on the same entry. The serve loop handles one message at a time,
  so entries of the table are values here and not shared pointers with locks of their own.
- TransferReceiver.EqualFoldExactly: comparing digests ignores the case of ASCII letters only; Unicode folding
  cannot matter for hexadecimal digests of the receiver's own making.
- What a serve loop reads when it is called again after it has refused a header: it is then in the middle of a
  payload. In the transfer link a header that is not admitted is never passed.
- Symbolic links, hard links and file systems that fold case, by which two places may be one file.
- A rename may fail for any reason and then changes nothing; directories are not modelled, so making the
  destination's directory is part of whether a temporary file can be made.
- The directory made for a mount without a mount point, which a failed mount leaves behind.
- The refusal of an empty file path before a drive looks at anything else, and the file operations of a write
  after its path check.
- PathChecks.PathCheck: the file system is taken not to change during the walk, and what happens between the
  check and the use of the path is not modelled.
- StructTags.HasStructTag: requires that no type is on a pointer cycle such as `type T *T`, on which the
  program's loop does not end (`StructTags.NoCyclesExactly`).
