# torpy: a verified model of its protocol engine

torpy is a Tor client. This project models the code that sits under its sockets and proves
what that code promises:

- **Layered relay encryption.** Every hop of a circuit has a cipher position and a running digest
  in each direction. `OnionRun` is the client together with relays that follow sections 5.5 and
  6.1 of tor-spec.txt, with first-in first-out links between them, any interleaving of sends,
  replies of any hop, hand-overs, receipts and extensions. Both ends of every hop stay in step over
  every run, the far end and only the far end of each cell gets its exact bytes, and the client
  names the hop that a cell came from. `RelayCrypto` has the objects of the client, in place, and
  proves that their loops are the `Seal` and `Peel` of that model; `CircuitRefinement` carries the
  objects through a run, each method being the run's own step. `LayerStates` says where the client's
  ciphers and digests stand after any run: which part of a hop's secret is which key, how far its key
  stream has been drawn, and what its digest has been fed.
- **The send lock.** `SendLock` takes the threads that send apart into taking the lock, one turn for
  each hop they saw at the start, the write and the release, with relays, receipts and extensions in
  between. Every schedule is a run of the circuit in which each section is one `Send`, and the wire
  carries the cells as sealed in the order of the lock; and exactly when a cell that overtakes others
  would still be readable. `ReceiveLoop` takes the receiver's loop apart in the same way, over a list
  that grows under it.
- **Streams, end to end.** `StreamTransfer` goes from `send` to the bytes that the far end reads,
  also when the circuit grows meanwhile; `StreamSending` starts from the objects, or from any number
  of threads under the lock; `Downstream` goes from a hop's data cells over the circuit
  and the stream's buffer to what `recv` returns.
- **SENDME flow control.** One circuit window and any number of stream windows, a peer that follows
  sections 7.3 and 7.4 of tor-spec.txt, any number of threads between the atomic steps, any
  `0 < increment <= start`: conservation, bounds, the exact number of SENDMEs, and no deadlock under
  any schedule. `HopWindows` is the circuit that grows while any of its hops sends: since every
  SENDME goes to the hop that is then the last, exactly when a hop or a stream is out of balance, and
  how much a hop can still send when it has stopped being the last.
- **The wire.** `WireLayout` gives every octet of the cells that both ends write, and for every header
  how many octets the framer takes behind it.
- **Incremental framing.** `Framing` has the suspended generator as data and the socket object that
  drives it; what it delivers is a front part of the greedy parse of all bytes received, however
  they are cut up, with the header width changing after the first cell. What arrives of written
  cells is known for each of them, and is the same cells exactly when each is one that its reader
  takes apart as its writer put it together.
- **Consensus diffs.** The in-place `ed` script is the simultaneous edit of the original lines, less
  the lines that a `$` takes away; when the rebuilt text is the target text, exactly; printed diffs
  read back exactly; and when a printed diff, read and applied, gives the target.
- **Documents.** One line iterator shared by nested readers, the digest it keeps while it is read as a
  slice between positions of the text, what each kind of line gives, when a document is refused for
  its first item, the grouping of lines into objects, and the fields that their items leave.
- **The consensus.** An accepted document has, of more than half of the v3 authorities, a signature
  that passes the RSA check, and such signatures are enough; over any number of renewals any two
  documents in force share an authority with such a signature on each.
- **Smaller machines.** The receive buffer with its reader, the circuit registry under retries, and the decryption of introduction points.

AES in counter mode is a keystream indexed by key and position, and SHA-1 a function of the whole
byte history; neither is computed. The RSA check, the text digest and Python's `int` on the version
field are parameters too. The only hypothesis about them is `NoAccident`: no hop in front of a
cell's far end finds two zero bytes and a matching four-byte digest by coincidence. For a single
cell, `Layers.PeelAttribution` shows that this condition is also necessary.

## Files

| file | content |
|---|---|
| Sequences, Bytes, TextLines | options and results, Python's slices, octets and exclusive-or, splitting and joining lines |
| RelayFormat, RelayBodies | the 509-byte relay cell and the payload codecs |
| Layers, OnionChannel, OnionSteps, OnionRun | one cell through the layers; one direction of a circuit; its steps; whole runs |
| LayerStates | the client's layers in every reachable state, from the run's own secrets and cells |
| SendLock, ReceiveLoop | the threads that send on a circuit, and the one that receives, step by step |
| RelayCrypto, CircuitRefinement | the client's objects and loops, and what they are in a run |
| StreamTransfer, StreamSending, StreamInbox, Downstream | a stream's send, by the objects and by threads; its receive buffer; its data from a hop to `recv` |
| FlowControl, HopWindows | windows, the distributed machine, safety and liveness; a circuit that grows |
| LinkCells, Framing, WireLayout | link cells and their payloads; the framer; every octet of link and relay cells |
| EdScript, DiffText, DiffReader | the edit, the text, the diff document |
| DocumentReader, DocumentFields, DocumentItems | the line iterator and its digest; the fields of one object; objects |
| Quorum, CircuitRegistry, IntroPoints | signatures and renewals, circuits and their streams, introduction points |

## Model

| member | source | states |
|---|---|---|
| RelayFormat.Pack | torpy/cells.py:250-270 | the eleven header bytes and the payload always make 509 bytes |
| RelayFormat.DigestSlot | torpy/cells.py:291-294 | clearing the digest field of a finished cell gives exactly the bytes that were digested, and writing a digest into those gives the finished cell |
| RelayFormat.ParsePack | torpy/cells.py:281-298 | header parse inverts packing for every payload up to 498 bytes; zero padding comes off |
| RelayFormat.ParseInjective | torpy/cells.py:281-289 | the header parse loses nothing: equal headers mean equal bytes |
| WireLayout.RelayOctets | torpy/cells.py:250-270 | a relay cell octet by octet: command, zero, stream, digest and length big-endian, payload from octet 11, zeros to octet 508 |
| WireLayout.DigestedOctets | torpy/cells.py:250-260 | what both ends digest is the cell with octets 5 to 8 zero |
| WireLayout.RelayBodyOctets | torpy/cells.py:512-693 | the command number of every relay body, and its fields each where it stands |
| WireLayout.RelayReadIff | torpy/cells.py:512-693 | exactly which payloads are read, for each of the 256 command octets |
| RelayBodies.BodyRoundTrip | torpy/cells.py:512-656 | each relay body comes back from its own writer exactly when it is one of the faithful ones (an END address, a CONNECTED without both fields and a SENDME without both fields are lost) |
| RelayBodies.OpenPacked | torpy/cells.py:296-312 | a packed relay cell opens to its stream and body exactly when the body is faithful |
| Layers.CryptTwice | torpy/crypto_state.py:52-53 | drawing the same keystream twice restores the bytes |
| Layers.CryptFlips | torpy/crypto_state.py:52-53 | each bit of the result is the bit of the data, flipped exactly where the key stream has a one |
| Layers.CryptGoesOn | torpy/crypto_state.py:52-53 | data encrypted piece by piece is the whole encrypted at once |
| Layers.TrialOnHeader | torpy/crypto_state.py:63-76 | the trial on the raw bytes is the trial on the parsed header with the digest field cleared |
| Layers.StampRecognised | torpy/crypto_state.py:55-58 | a stamped cell is recognised by the running digest it was stamped with |
| Layers.PeelUnfolds | torpy/circuit.py:509-517 | the loop over hops is the hops' own trials one after the other, each spending keystream, with a digest fed only where the trial succeeds |
| Layers.SealUnfolds | torpy/circuit.py:501-502 | one hop's turn in the forward loop, last hop first, in terms of the layers of all hops |
| Layers.PeelAttribution | torpy/circuit.py:504-519 | for a cell sealed by a hop, peeling returns that hop and its bytes if and only if no hop in front of it recognises the cell by accident |
| OnionSteps.WriteKeeps | torpy/crypto_state.py:81-84 | a cell stamped and wrapped by the client, or originated by a relay, keeps every hop in step, wherever newer and older cells are on the links |
| OnionSteps.CoverKeeps | torpy/circuit.py:504-519 | a relay that adds its layer to a cell on the way back keeps every hop in step |
| OnionSteps.ShedKeeps | torpy/circuit.py:489-502 | a relay's turn: the far end, and only it, keeps the cell, with its exact bytes |
| OnionSteps.TakeKeeps | torpy/circuit.py:504-519 | the client's turn on the oldest cell names its sender and its bytes and leaves both ends in step |
| OnionRun.StepKeeps | torpy/circuit.py:489-541 | every step of client and relays, extension included, keeps both directions of every hop in step |
| OnionRun.RunKeeps | torpy/circuit.py:489-541 | over every run: each hop's position and digest history at the writer is the reader's, advanced by exactly the cells in flight, and nothing is lost, doubled or reordered |
| OnionRun.NextReceived | torpy/circuit.py:504-519 | after any run, what the client next decrypts is attributed to the hop that sent it, with the exact bytes, next in that hop's order |
| OnionRun.Delivery | torpy/circuit.py:534-541 | after any run each hop has got a prefix of what was sent to it, and all of it when nothing is in flight; both directions |
| OnionRun.Quiet | torpy/crypto_state.py:63-104 | with nothing in flight the layers of both ends are equal |
| OnionRun.NeverStuck | torpy/circuit.py:489-581 | in no reachable state does anything stand still: every cell in flight is on a link whose oldest cell can be taken, every hop can be written to and can reply, and the circuit can be extended |
| OnionRun.KeysInOrder | torpy/crypto_state.py:47-53 | a secret that is Df, Db, Kf and Kb in this order gives the forward layer key Kf over history Df, and the backward layer key Kb over history Db, both at position 0 |
| OnionRun.ExtendedKeys | torpy/circuit.py:576-581 | an extension of a run gives both ends of the new hop these layers, and changes nothing else |
| LayerStates.ClientLayers | torpy/crypto_state.py:26-104 | in every reachable state: hop `h` encrypts with the Kf of its own secret, 509 octets on for each cell sent to it or to a hop behind it, and digests its own Df and every cell sent to it; backward with Kb and Db and the cells read |
| LayerStates.SentDigest | torpy/crypto_state.py:55-58 | in every reachable state a cell that the client sends is for the last hop, and carries the first four octets of SHA-1 over that hop's Df, all cells sent to it before, and this one with its digest octets zero |
| SendLock.MoveRefines | torpy/circuit.py:534-541 | whatever thread moves, the circuit takes one event or none: the loop over the hops is one `Send`, and relays, receipts and extensions in the middle of it are what they would be before or after it |
| SendLock.RestIsWrite | torpy/circuit.py:489-502 | the hops' turns, one after the other over the layers as they then are, make the cell and the layers of one `Send` |
| SendLock.WireInOrder | torpy/circuit.py:539-541 | what is on the wire, and what the thread inside will put there, is the messages sealed one after the other |
| SendLock.AcquisitionOrder | torpy/circuit.py:539-541 | that order is the order in which the lock was taken, messages that do not pack left out |
| SendLock.EverySchedule | torpy/circuit.py:534-541 | for every schedule of any number of threads: one inside at most; the whole is a run of the circuit; each section is one `Send`, in the order of the lock; the wire is those cells in that order; and with nobody sealing both ends of every hop are in step |
| SendLock.NeverStuck | torpy/circuit.py:539-541 | no deadlock: at any time of any schedule on a circuit with a hop, a free lock can be taken by any thread, and the thread that holds it has a move to make |
| SendLock.OutOfTurn | torpy/circuit.py:539-541 | without the lock: a cell written ahead of any number of cells stamped before it, over any number of hops, is readable if and only if the joint key stream repeats and the digest cannot tell |
| ReceiveLoop.PeelsOn | torpy/circuit.py:509-517 | one turn of the loop over the hops, in place, whatever hops are appended later |
| ReceiveLoop.LoopGrows | torpy/circuit.py:509-581 | a hop appended in the middle of the loop is what it would have been before it |
| ReceiveLoop.VerdictRight | torpy/circuit.py:504-519 | the loop ends with the sender of the cell and the exact bytes, in every schedule |
| ReceiveLoop.FinishMatches | torpy/circuit.py:504-519 | and is then one `Receive`, done where it ends |
| ReceiveLoop.EverySchedule | torpy/circuit.py:452-581 | every schedule of the receiver's turns, of threads that send, of relays and of hops appended at any moment is a schedule of `SendLock` with each loop as one receipt; between two cells the states are the same |
| ReceiveLoop.NeverStuck | torpy/circuit.py:509-519 | the receiver always has a move: to begin with the oldest cell, to go on, or to end the loop |
| CircuitRefinement.OldestIsFound | torpy/circuit.py:504-519 | in a reachable state the loop on the oldest cell finds the hop that wrote it and the bytes it wrote |
| CircuitRefinement.HandleRelay | torpy/circuit.py:452-457 | for objects that are where a run is: decrypting the oldest cell reports its sender and its body, and leaves them where `Receive` leaves the run |
| CircuitRefinement.SendRelay | torpy/circuit.py:534-541 | the same for `Send`: the bytes handed to the socket are the cell that the run puts last on the wire; a body that does not pack leaves the objects where they were |
| CircuitRefinement.Extended | torpy/circuit.py:576-581 | the same for `Extend`: the objects have the new hop as the run has it, with the layers of `ExtendedKeys` |
| CircuitRefinement.NewHop | torpy/crypto_state.py:26-53 | a hop object made of Df + Db + Kf + Kb encrypts forward with Kf over Df and decrypts backward with Kb over Db |
| CircuitRefinement.AppendHop | torpy/circuit.py:576-581 | appended to a circuit, it is the last hop with these layers, and the other hops are what they were |
| CircuitRefinement.RelaysApart | torpy/circuit.py:489-541 | the relays' own steps leave the client's objects in the run |
| CircuitRefinement.EncryptTurn | torpy/crypto_state.py:81-84 | one call on one hop is the turn that `SendLock` takes apart |
| RelayCrypto.RelayCell.SetDecrypted | torpy/cells.py:296-312 | stream, body and check mark of a recognised plaintext, or the exception with the cell unchanged |
| RelayCrypto.CryptoState.DigestCheck | torpy/crypto_state.py:63-76 | the trial works on a copy: the running digest moves only on a match |
| RelayCrypto.CryptoState.EncryptForward | torpy/crypto_state.py:81-84 | the first call stamps and encrypts, a later call adds a layer; the layer after it in each case |
| RelayCrypto.CryptoState.DecryptBackward | torpy/crypto_state.py:86-104 | one hop's peel, with the digest committed before the body is read even if reading raises |
| RelayCrypto.TorCircuit.Append | torpy/circuit.py:581-581 | a hop with the layers of `KeysInOrder` and a fresh window of 1000 and 100 is added to both directions, and no other hop changes |
| RelayCrypto.TorCircuit.EncryptAll | torpy/circuit.py:489-502 | the loop in place leaves the layers and the cell that `Seal` describes |
| RelayCrypto.TorCircuit.Encrypt | torpy/circuit.py:489-502 | bytes and layers equal `Seal`; it succeeds exactly for a stream id below 65536 and a payload of at most 498 bytes, and otherwise no layer has changed |
| RelayCrypto.TorCircuit.Decrypt | torpy/circuit.py:504-519 | result and layers equal `Peel` and its settlement, for recognised, unrecognised and malformed cells alike |
| RelayCrypto.TorCircuit.SendRelay | torpy/circuit.py:534-541 | one call, run by itself, hands over and leaves one `Seal`; `SendLock` is about many at once |
| StreamTransfer.ChunksConcat | torpy/utils.py:131-134 | the chunks of a byte string concatenate to it |
| StreamTransfer.ChunksCount | torpy/utils.py:131-134 | there are ceil(len/498) of them |
| StreamTransfer.ChunksAt | torpy/utils.py:131-134 | each is the slice at its own index, at most 498 bytes |
| StreamTransfer.TorStream.Send | torpy/stream.py:304-307 | for one thread by itself: the wire cells are the chunks sealed in order, and the window object of the last hop falls by their number |
| StreamTransfer.RunSends | torpy/stream.py:304-307 | over any run, extensions included, what a hop is sent on a stream grows by exactly the chunks sent while it was the last hop |
| StreamTransfer.StreamDelivered | torpy/stream.py:304-307 | end to end: the far end reads a prefix of what was sent on the stream; with the links drained, all of it if and only if no extension of the circuit came before the last chunk |
| StreamSending.SendOn | torpy/stream.py:304-307 | `send` on objects that are where a run is: the chunks in order are the run's next sends, the objects are where the run is then, and the bytes handed over are the cells last on the wire |
| StreamSending.SendIsDelivered | torpy/stream.py:304-307 | whatever happens on the circuit after the call, the far end reads a prefix of the data, and all of it once the links have drained |
| StreamSending.ThreadsSend | torpy/circuit.py:534-541 | for any number of threads, what is sent on a stream is the data that threads took the lock with for it, in that order |
| StreamSending.ThreadsDeliver | torpy/circuit.py:534-541 | and each hop, hops appended meanwhile included, reads a prefix of the part sent while it was the last, all of it in the end |
| FlowControl.TorWindow.NeedSendme | torpy/stream.py:46-52 | the check and its increment as one step |
| FlowControl.SendmeProcess | torpy/circuit.py:471-481 | which window moves for a circuit SENDME, a data cell, and any other cell |
| FlowControl.ActKeeps | torpy/stream.py:40-64 | one lane keeps: peer window + data in flight + increment x SENDMEs in flight = client window, with counted cells and issued SENDMEs accounted for |
| FlowControl.StepKeeps | torpy/circuit.py:459-481 | every step of client, peer and links keeps that for the circuit and for every stream, open or closed |
| FlowControl.RunKeeps | torpy/stream.py:186-201 | the same over every run |
| FlowControl.SendmeCount | torpy/stream.py:46-56 | with no check pending the SENDMEs issued are floor(received / increment), whatever the schedule |
| FlowControl.Safety | torpy/stream.py:40-64 | after any run, for the circuit and for every stream: the balance, peer windows within 0..start, data in flight at most `start`, the client window within (start - increment - pending, start], and floor(received / increment) SENDMEs when no check is pending |
| FlowControl.Progress | torpy/stream.py:186-201 | a state that is not quiet has an internal step to take |
| FlowControl.Settles | torpy/stream.py:186-201 | some schedule of internal steps leads to a quiet state |
| FlowControl.QuietCanSend | torpy/stream.py:46-52 | in a quiet state every peer window is at least 1 |
| FlowControl.NoDeadlock | torpy/stream.py:46-52 | from any reachable state some schedule of internal steps leads to one where the peer can send on a given open stream; `EverySettling` is about all schedules |
| FlowControl.InternalRun | torpy/stream.py:186-201 | every schedule of internal steps is at most as long as the work there was |
| FlowControl.EverySettling | torpy/stream.py:46-52 | from any reachable state every schedule of internal steps ends, and where it cannot go on all has settled and the peer can send on every open stream |
| HopWindows.StepKeeps | torpy/circuit.py:471-481 | every step of a circuit that grows - hops and streams sending, cells counted, SENDMEs due, issued to the hop then last and landing or dropped - keeps each account and the sum over all hops |
| HopWindows.NothingWaits | torpy/circuit.py:471-481 | a cell or SENDME on its way can always go on, and a stream's hop can send exactly while both its windows are open |
| HopWindows.RepliesCount | torpy/circuit.py:478-480 | after any run, what client and hop hold for every hop and every stream: the hop's window is start less the cells sent, and an increment for each SENDME landed |
| HopWindows.SendmesConserved | torpy/circuit.py:478-480 | over all hops, the SENDMEs issued and due are floor(cells / increment) of each hop; the same for each stream |
| HopWindows.Excess | torpy/circuit.py:478-480 | an account's window, with all that is on its way, differs from the client's by increment times (SENDMEs issued to it less floor(its cells / increment)) |
| HopWindows.BalancedIff | torpy/circuit.py:478-480 | so the equation of flow control holds for a hop or stream if and only if it was issued as many SENDMEs as its own cells made due |
| HopWindows.NotLast | torpy/circuit.py:581-581 | once another hop is appended, no SENDME is issued to a hop or to a stream opened at it any more |
| HopWindows.MiddleHopStalls | torpy/stream.py:195-197 | from then on it can send, counted from its first cell, its starting window and an increment for each SENDME issued to it up to then, and can send exactly while it has sent less |
| LinkCells.DeserializeVersions | torpy/cells.py:116-122 | the loop reads the payload two bytes at a time, and fails on an odd one |
| LinkCells.VersionsRoundTrip | torpy/cells.py:113-122 | any list of versions comes back, the empty one included |
| LinkCells.BodyArrives | torpy/cells.py:56-75 | what does come back of each payload: for a NETINFO its `other_or` alone, in the place of `this_or` |
| LinkCells.BodyRoundTrip | torpy/cells.py:56-75 | each link payload comes back from its fixed or variable field exactly when it is faithful; a NETINFO as the code writes it never does |
| WireLayout.CellOctets | torpy/cells.py:53-75 | a link cell as it is sent: circuit id big-endian in 2 or 4 octets, command, and then 509 octets of payload filled with zeros, or, for VERSIONS, CERTS and AUTH_CHALLENGE alone, the two octets of its length and the payload; with every field of every payload where it stands |
| WireLayout.Takes509 | torpy/cell_socket.py:122-139 | behind a header with one of the other ten known commands, NETINFO among them, the framer takes exactly the next 509 octets |
| WireLayout.TakesLength | torpy/cell_socket.py:133-139 | behind one with 7, 129 or 130 it takes two octets and exactly as many as they say |
| WireLayout.RefusesOthers | torpy/cells.py:842-847 | any other command is an error as soon as its header is there |
| WireLayout.ReadIff | torpy/cells.py:88-809 | exactly which payloads of link cells are read, for each of the 256 command octets |
| Framing.ParseOneExtends | torpy/cell_socket.py:122-146 | bytes behind a complete cell, or behind an error, do not change it |
| Framing.GreedyAppend | torpy/cell_socket.py:109-131 | parsing in pieces gives what parsing at once gives, for every cut |
| Framing.NotYet | torpy/cell_socket.py:133-146 | while the builder is short of bytes the reference has no cell either |
| Framing.FeedAgrees | torpy/cell_socket.py:122-146 | one resumption of the generator agrees with the reference parse, including a variable length of zero |
| Framing.ParseSerialize | torpy/cells.py:56-75 | one written cell, whose octets are those of `CellOctets`, is framed exactly, whatever follows, as the cell that arrives of it, which is the original exactly when it is faithful |
| Framing.SequenceArrives | torpy/cell_socket.py:122-146 | of a list of written cells exactly what arrives of each comes out, whole and in order, under any header widths |
| Framing.SequenceRoundTrip | torpy/cell_socket.py:122-146 | a list of cells comes back, whole and in order, if and only if each is faithful, under any header widths |
| Framing.HandshakeRoundTrip | torpy/cell_socket.py:168-176 | the same from the first byte of a link: VERSIONS under the narrow header, the rest, NETINFO and its 509 octets included, under the wide one exactly when the version is 4 or more |
| Framing.FrontOfWritten | torpy/cell_socket.py:122-146 | any front part of written bytes parses to a front part of the cells that arrive, without an error |
| Framing.TorCellSocket.AskNext | torpy/cell_socket.py:93-93 | the width of the next header is fixed only when the builder is resumed |
| Framing.TorCellSocket.FeedBuilder | torpy/cell_socket.py:109-120 | one turn of the loop: bytes delivered, held and buffered still make up what was received; an error leaves all earlier cells delivered |
| Framing.TorCellSocket.RecvCellAsync | torpy/cell_socket.py:103-107 | after one read, everything that can be built has been delivered, in order |
| Framing.TorCellSocket.BuildNext | torpy/cell_socket.py:97-99 | at most one cell is taken from the bytes at hand |
| Framing.TorCellSocket.RecvCell | torpy/cell_socket.py:91-100 | one cell, read from as many deliveries as it takes and no byte lost; none only when the deliveries have run out |
| Framing.TorCellSocket.ReadsWhatWasWritten | torpy/cell_socket.py:91-146 | the socket's deliveries are a front part of what arrives of the cells written, and all of it once all bytes are in |
| EdScript.LineList.Apply | torpy/documents/network_status_diff.py:35-52 | one action in place, with Python's slices at their edges, and the line it returns |
| EdScript.LineList.ApplyScript | torpy/documents/network_status.py:391-395 | the loop threads the current line and the current end through the actions |
| EdScript.AppliedInRange | torpy/documents/network_status_diff.py:35-52 | one action in range, with slices: an append behind its line, a change and a deletion of the lines from its first to its last, and the current line after each |
| EdScript.AppliedAtCurrent | torpy/documents/network_status_diff.py:37-40 | a `$` start is the current line, as start and as end |
| EdScript.AppliedIsEdited | torpy/documents/network_status_diff.py:35-52 | for every descending, non-overlapping script, `$` wherever it stands: the result in place, followed by the lines inserted above the lowest `$`, is the one-pass edit in which every position refers to the original lines; so it is that edit if and only if there are no such lines |
| EdScript.AppliedIsEffective | torpy/documents/network_status_diff.py:39-40 | and it is itself the one-pass edit by the actions from the lowest `$` on |
| EdScript.EditedLength | torpy/documents/network_status_diff.py:35-52 | new length = old length + inserted - removed - lost |
| EdScript.OrderMatters | torpy/documents/network_status.py:393-395 | two actions in ascending order: for the code the second is one at lines that the first has moved, for any two ranges and any data |
| DiffText.PatchedText | torpy/documents/network_status.py:391-397 | the rebuilt string in every case, with the extra newline where there is one |
| DiffText.PatchedIff | torpy/documents/network_status.py:391-397 | it is the target lines, each with its newline, if and only if a change or deletion runs to `$` and no inserted line is lost above it (where nothing is left, one empty line) |
| DiffText.PatchedWhole | torpy/documents/network_status.py:391-397 | where no line is lost: if and only if the script runs to `$` and leaves a line |
| DiffText.ApplyDiff | torpy/documents/network_status.py:387-399 | the two digest checks decide, and otherwise the new text is the rebuilt one; a diff without its hash line or without actions fails where the code uses them |
| DiffText.CaseIgnored | torpy/documents/network_status.py:389-398 | the digest that a diff names matches exactly when it differs in the case of its letters only |
| DiffText.RunOfDiffs | torpy/documents/network_status.py:387-399 | a run of diffs is a run of simultaneous edits: the trailing empty line never builds up |
| DiffReader.DiffDocument.Check | torpy/documents/basics.py:131-184 | the dispatch of one line, with the lines that its action takes |
| DiffReader.DiffDocument.Read | torpy/documents/basics.py:197-203 | the whole loop over the shared iterator |
| DiffReader.ReadDocument | torpy/documents/basics.py:197-203 | reading a document string, from its lines |
| DiffReader.MatchPrinted | torpy/documents/network_status_diff.py:86-89 | a printed command matches with its own groups |
| DiffReader.MatchLetterOnly | torpy/documents/network_status_diff.py:86-89 | a word that begins with a number and a letter: `a` appends, `c` changes, `d` deletes, and no other letter is a command; without the number or without the letter there is none |
| DiffReader.MatchToDollar | torpy/documents/network_status_diff.py:86-89 | the same with `,$` behind the number |
| DiffReader.MatchToNumber | torpy/documents/network_status_diff.py:86-89 | the same with a comma and a second number |
| DiffReader.ToIntDigit | torpy/documents/network_status_diff.py:60-70 | numbers are read in base ten |
| DiffReader.RangePrinted | torpy/documents/network_status_diff.py:57-76 | its range comes back exactly while no number is above 2147483647 and the end is not before the start, and is an error otherwise |
| DiffReader.ScriptRoundTrip | torpy/documents/network_status_diff.py:55-89 | a printed script reads back action by action if and only if numbers are within limits and no data line is a lone dot |
| DiffReader.HeaderLines | torpy/documents/network_status_diff.py:92-106 | the version line starts the document, and the line with the two digests is refused until it has |
| DiffReader.DocRoundTrip | torpy/documents/network_status_diff.py:92-106 | the same for a whole diff document with its two header lines |
| DiffReader.DiffDelivered | torpy/documents/network_status.py:387-399 | a printed diff, read as text and applied, gives the target text if and only if the script is such a one |
| DocumentReader.TorDocumentReader.Next | torpy/documents/basics.py:72-89 | the next line, and the digest keeps standing for the whole document whoever takes the line |
| DocumentReader.ReadUntil | torpy/documents/network_status_diff.py:78-82 | a nested reader gets the lines up to its stop line and leaves the iterator behind it |
| DocumentReader.BlockRead | torpy/documents/network_status_diff.py:78-82 | a block comes back whole exactly when its stop line is not in it |
| DocumentReader.BlockUnended | torpy/documents/network_status_diff.py:78-82 | a block that nothing ends goes on to the end of the document |
| DocumentReader.LinesOfText | torpy/documents/basics.py:73-89 | iterating over a text of whole lines gives those lines |
| DocumentReader.DigestIsSlice | torpy/documents/basics.py:72-87 | what is hashed line by line is the slice that `FindIsFirst` and `DigestBetween` give by positions, if and only if the start marker does not come back below it |
| DocumentReader.FindIsFirst | torpy/documents/basics.py:77-83 | the search answers with the least position at which the marker stands, and with none exactly if there is none |
| DocumentReader.DigestOfNothing | torpy/documents/basics.py:72-87 | a text without the start marker hashes to nothing |
| DocumentReader.DigestToEnd | torpy/documents/basics.py:72-87 | with the start marker first at `i` and no end marker on a later line, what is hashed is the text from `i` to its end |
| DocumentReader.DigestBetween | torpy/documents/basics.py:72-87 | with the end marker first at `j` on a later line, it is the text from `i` through the end marker, if and only if the start marker stands nowhere on the lines behind that |
| DocumentItems.TorDocument.ReadBody | torpy/documents/items.py:142-151 | a multi-line value, its missing begin line and its missing end line |
| DocumentFields.FoldMeans | torpy/documents/basics.py:44-54 | after any entries, a list holds every value that came for it, in order, and any other field the value written last, whether by its own item or in a parser's dictionary; no other field exists |
| DocumentFields.NextField | torpy/documents/basics.py:44-54 | what one more entry does to each field: behind the list, in the place of what was there, or nothing |
| DocumentFields.AppendsToLists | torpy/documents/basics.py:45-49 | an append never meets a plain value, for classes that give lists names of their own |
| DocumentItems.TorDocument.TakeMasked | torpy/documents/basics.py:178-184 | the first mask that matches takes the line, and the lines up to its stop line |
| DocumentItems.TorDocument.CheckItems | torpy/documents/basics.py:131-184 | one line, giving what the rows below say that it gives, updates the fields of the document, or appends an object, or updates the last object of its kind, and changes nothing else; a parser that raises ends the reading |
| DocumentItems.TorDocument.Read | torpy/documents/basics.py:197-203 | the document's fields are its own and its masked items folded in order, and each list is the objects found by looking ahead from each start line, each with its items folded; where `WrongStartIff` or a line's own row says so it is an error |
| DocumentItems.TorDocument.FieldsMean | torpy/documents/basics.py:44-54 | so every field of a document that was read, and of each of its objects, is the list of the values for it or the last value for it |
| DocumentItems.ObjectsSnoc | torpy/documents/basics.py:156-176 | giving an item to the last object and looking ahead for an object's items are the same |
| DocumentItems.OwnLine | torpy/documents/basics.py:138-153 | an own item gives an entry of its word and arguments and ends the waiting for a start line; while that is due, any other own item is refused |
| DocumentItems.ObjectLine | torpy/documents/basics.py:155-165 | an object's start line that gives something begins an object, with an entry of its word and arguments |
| DocumentItems.ObjectBegins | torpy/documents/basics.py:162-165 | that entry is the first of its object |
| DocumentItems.PartLine | torpy/documents/basics.py:166-175 | an object's item goes to the object that has begun, and is passed over before |
| DocumentItems.MaskedLine | torpy/documents/basics.py:177-182 | a line that no keyword claims goes to the first mask that matches, as an entry of the whole line and the lines up to its stop line |
| DocumentItems.OtherLine | torpy/documents/basics.py:177-183 | a line that no mask matches either is passed over |
| DocumentItems.WrongStartIff | torpy/documents/basics.py:138-148 | a document is refused for its start if and only if the first own item come upon is not the start line |
| DocumentItems.StartedOnce | torpy/documents/basics.py:142-148 | once a start line has been read, no document is refused for its start |
| DocumentItems.BlockLines | torpy/documents/basics.py:145-176 | the lines of a block become the value of its item and are never read as items, whether the start line is due or not, except behind an item whose object has not begun, where they are read as if that item were not there |
| DocumentItems.BlockAmiss | torpy/documents/items.py:142-151 | a block without its begin line ends the reading, and one without its end line is all the rest |
| DocumentItems.FixObjects | torpy/documents/basics.py:185-195 | repeated passes convert each object once; without a list the pass fails |
| StreamInbox.StreamBuffer.Append | torpy/stream.py:218-230 | what a data cell does to buffer and event |
| StreamInbox.StreamBuffer.End | torpy/stream.py:315-326 | what an END does to state and event |
| StreamInbox.StreamBuffer.Take | torpy/stream.py:381-394 | what a read takes, for every size, and when it clears the event |
| StreamInbox.TakenIs | torpy/stream.py:381-387 | -1 takes everything; a size of n or more bytes takes the first n, or all if there are fewer; another negative size leaves as many bytes as it says; what is left stays in order |
| StreamInbox.StateAfter | torpy/stream.py:202-326 | what each step makes of the stream's state, and that a read raises on a closed stream or after a timeout only |
| StreamInbox.StepKeeps | torpy/stream.py:365-394 | accepted = returned + buffered; the event is set whenever there is data or the stream is disconnected |
| StreamInbox.StepExact | torpy/stream.py:218-230 | the one step: the event stays exact - set if and only if there is data or the stream is disconnected - unless the step is one of four, each on an empty buffer: END on a stream not yet connected, a data cell without data, closing or confirming a disconnected stream |
| StreamInbox.RunExact | torpy/stream.py:218-394 | over runs: exact throughout if and only if no such step is taken |
| StreamInbox.OrderlyExact | torpy/stream.py:218-394 | so always, when the far end confirms while connecting, ends while connected and sends no empty data, until the stream is closed |
| StreamInbox.Fifo | torpy/stream.py:365-394 | over every interleaving, what reads returned and what is buffered is what came in, in order |
| StreamInbox.EmptyMeansEnd | torpy/stream.py:376-379 | an empty read means that everything was read, and that an END came or a data cell without data |
| StreamInbox.BlankRead | torpy/stream.py:229-230 | such a cell does make the next read on an empty open stream come back empty |
| StreamInbox.NoLostWakeup | torpy/stream.py:372-374 | a reader that cannot move has read everything and the stream is not disconnected |
| StreamInbox.DrainsThenEnds | torpy/stream.py:376-394 | on a disconnected stream a reader gets the rest, and then the end for good |
| StreamInbox.EndAnnounced | torpy/stream.py:315-326 | an END stays announced if and only if it found the stream connected |
| Downstream.HandledAccepts | torpy/stream.py:186-201 | a decrypted cell adds to the open stream's buffer exactly the data it has for the stream |
| Downstream.EventByOctets | torpy/stream.py:186-201 | what a cell is to a stream, by its octets: DATA (2) brings its payload, a readable END (3) ends the stream, a readable CONNECTED (4) confirms it, and everything else, other streams' cells included, is nothing to it |
| Downstream.ReadsWhatHopSent | torpy/circuit.py:459-469 | end to end, over every interleaving of circuit, receiver and reader: what `recv` returned goes on where the hop's data stood when the stream was opened; drained, it is all of it if and only if no other hop sent data with the stream's id, because the code never compares the two |
| Quorum.TorConsensus.Verify | torpy/consesus.py:260-287 | with no voter that has a signature listed twice, the loop accepts if and only if more than half of the v3 authorities are voters with a signature under their identity that passes the RSA check with their certificate over the digest it names; in every case it accepts by the count of such voters and collects the identities of the known voters with a signature |
| Quorum.SignsIff | torpy/consesus.py:268-283 | a voter counts if and only if it is an authority and its first signature passes the RSA check |
| Quorum.RaisingIff | torpy/consesus.py:268-282 | the loop fails exactly for a document without voters, one without signatures, or one with an authority's signature over a digest that was not made |
| Quorum.TorConsensus.Build | torpy/consesus.py:237-245 | the answer of a directory as a document: whole, or a diff applied to the document in force with both digest checks, or an exception |
| Quorum.TorConsensus.Renew | torpy/consesus.py:228-258 | a live document is kept; else the document is replaced exactly when the answer makes a document and it is accepted, at once or with the fetched certificates, which stay even if it is not |
| Quorum.WhatRenews | torpy/consesus.py:228-258 | a document is kept exactly when it is live and nothing is forced; one that replaces it is the whole document received or the outcome of a diff against the one in force with both digests right, and accepted with the certificates then held; an acceptable answer does replace it |
| Quorum.InForceAccepted | torpy/consesus.py:228-258 | after any number of renewals with any answers, the document in force is the one from the start or was accepted with certificates that were at hand |
| Quorum.AnyTwoShareSigner | torpy/consesus.py:228-287 | any two documents that were ever in force, after a start without one, have signatures of one and the same authority that pass the RSA check with certificates that were at hand, where no voter with a signature is listed twice |
| Quorum.CountIsSigners | torpy/consesus.py:260-287 | the count is the number of distinct signers if and only if no signer is listed twice |
| Quorum.MajoritySigns | torpy/consesus.py:262-265 | then an accepted document has signatures that pass the RSA check of more than half of the v3 authorities |
| Quorum.MajorityAccepted | torpy/consesus.py:260-287 | and such signatures of more than half are enough, however the voters are listed |
| Quorum.AcceptedShareSigner | torpy/consesus.py:260-287 | any two accepted documents have signatures of one authority that pass the RSA check, whatever certificates each was checked with |
| Quorum.RepeatedVoter | torpy/consesus.py:267-285 | one authority with a valid signature, listed `n` times, counts `n` times |
| CircuitRegistry.IdsCollide | torpy/circuit.py:684-691 | two ids are equal if and only if the counters differ at most in the forced bit |
| CircuitRegistry.IdBits | torpy/circuit.py:684-691 | bit 31 of an id is set and every other bit is the counter's |
| CircuitRegistry.AttemptsCount | torpy/utils.py:73-105 | at most `times` attempts, one failure for each but a last good one |
| CircuitRegistry.AttemptsEnd | torpy/utils.py:73-105 | success is a whole block of answers after timeouts and truncations; failure is an exchange that broke down, or the last attempt |
| CircuitRegistry.WhatIsRetried | torpy/guard.py:132-158 | the first exchange that fails, with attempts left: a timeout or a truncation brings on the next attempt right behind it, anything else ends the matter; the guard is told of a circuit that had a hop and was not truncated |
| CircuitRegistry.CircuitEntry.CloseAllStreams | torpy/circuit.py:392-394 | closing over a copy of the list sends an END for each connected stream, in order, and leaves the streams that were closed before |
| CircuitRegistry.EndingTurn | torpy/circuit.py:392-394 | of a list of streams each is told in its turn if and only if it is connected, and stays if and only if it was closed |
| CircuitRegistry.CircuitEntry.Destroy | torpy/circuit.py:372-390 | what destroying does in each state, and when the guard is told: a connected circuit closes all its streams, with an END for each connected one, and any other leaves them as they are |
| CircuitRegistry.TorGuard.CreateNew | torpy/circuit.py:684-697 | the id is the counter with the bit forced and no circuit has it |
| CircuitRegistry.TorGuard.Build | torpy/circuit.py:550-593 | the hops and the state of a circuit after creation and extension, up to the first failure |
| CircuitRegistry.TorGuard.Attempt | torpy/guard.py:132-158 | a failed attempt leaves its circuit destroyed and the registry as it was |
| CircuitRegistry.TorGuard.Retry | torpy/utils.py:73-105 | the loop makes the attempts that the replies call for, ids in order, all but a last good one destroyed |
| CircuitRegistry.TorGuard.CreateCircuit | torpy/guard.py:132-158 | three attempts at most, and fewer without success only when an exchange broke down; on success one connected circuit more, of max(1, hops) + extensions nodes; on failure the same registry |
| CircuitRegistry.TorGuard.OnDestroy | torpy/guard.py:115-119 | a DESTROY removes that circuit and closes its streams, is not echoed, and touches no other |
| CircuitRegistry.TorGuard.DestroyAll | torpy/guard.py:109-113 | every circuit is destroyed, with its streams closed if it stood, and the guard told once each of exactly those that stood |
| IntroPoints.GetSessionKey | torpy/hiddenservice.py:211-221 | the loop in strides of 20 bytes finds the key of the first entry with the identifier |
| IntroPoints.Decrypt | torpy/hiddenservice.py:195-230 | the dispatch on the type byte, with every failed assertion and lookup as an error |
| IntroPoints.ScanFinds | torpy/hiddenservice.py:211-221 | the scan stops at the first entry with the identifier and finds none exactly when there is none |
| IntroPoints.BasicOctets | torpy/hiddenservice.py:199-221 | the published buffer octet by octet: type 1, the number of blocks of 320 octets, entries of 20, the IV and the text; an entry begins with four octets of SHA-1 over the cookie and then the IV |
| IntroPoints.BasicRoundTrip | torpy/hiddenservice.py:199-209 | a client whose entry is the first with its identifier gets the text back, a stranger nothing, and an empty text is refused |
| IntroPoints.StealthRoundTrip | torpy/hiddenservice.py:223-229 | the text comes back if and only if it has two bytes or more |

## Left out

- FlowControl.StepKeeps: all data comes from the last hop of a circuit that does not grow; `HopWindows` is about the others. Links are bags, which admits every order.
- HopWindows.StepKeeps: streams are not closed in it, and cells of one stream are counted, not told apart.
- DocumentItems.TorDocument.Read: what a parser returns for an item, or that it raises, is a parameter.
- CircuitRegistry.TorGuard.Retry: no other guard draws from the counter that all guards share while a circuit is being created, or the ids would have gaps.
- SendLock.EverySchedule: a hop's turn and the write are each one step; that the socket takes a cell whole is the concern of the sender's own lock. A failing write is not modelled.
- Downstream.ReadsWhatHopSent: takes the id as unused by other hops before the stream is opened; ids are drawn from one counter (torpy/stream.py:406-409).
- LinkCells.BodyArrives: the contents of CERTS and AUTH_CHALLENGE are opaque.
- EdScript.AppliedIsEdited: asks for number starts, which is all the reader produces.
- DocumentFields.FoldMeans: asks that no item writes a plain value under a list's name, where the code would raise.
- StreamInbox.StepKeeps: buffer mode only, with one reader.
- Quorum.TorConsensus.Renew: what the directories answer and what the clock says are parameters; the five tries of one call are five attempts of a run.
- CircuitRegistry.CircuitEntry.CloseStream: stopping a stream's socket loop is not part of it.
- RelayCrypto.TorCircuit.Encrypt: an over-long body and a stream id above 65535 fail before any layer changes, as in the code; a failing write to the socket is not modelled.
- OnionRun.NoAccident: the coincidence it excludes cannot be excluded for an abstract hash; `Layers.PeelAttribution` shows that it is exactly what attribution needs.
- OnionRun.Step: relays follow tor-spec.txt; a relay that drops or alters cells is not modelled, and neither is the relay's own digest window.
- StreamTransfer.TorStream.Send: counts the package window and, like the code, does not stop at zero.
- RelayBodies.BodyRoundTrip: BEGIN, EXTEND2, ESTABLISH_RENDEZVOUS and INTRODUCE1 are only ever written by the client and enter as packed payloads; host names of CONNECTED are their four octets.
- FlowControl.Safety: a stream's close and the arrival of its cells are separate steps, so a cell handed to a closing stream is counted on the circuit only.
- Framing.HandshakeRoundTrip: the negotiated version is an input; the code takes the smaller of the two maxima (torpy/cell_socket.py:242), which is a common version only for contiguous ranges.
- Framing.TorCellSocket.RecvCell: a closed connection shows as deliveries that have run out or are empty; timeouts are not modelled.
- DiffReader.ScriptRoundTrip: digits are the ASCII digits; Python's pattern also admits other decimal digits.
- DiffText.ApplyDiff: lower-casing is that of ASCII letters.
- CircuitRegistry.TorGuard.CreateCircuit: no DESTROY arrives while the circuit is being built; the counter stays below 2^31, as `IdsCollide` requires.
- The switch of a live stream to socket mode, which flushes the buffer and installs the loop in two separate steps (torpy/stream.py:328-359).
- Waiters that time out and stay subscribed (torpy/circuit.py:281-288).
- Key agreement, RSA, AES and SHA themselves; the 72-byte secret of each hop is an input.
- The choice of hidden-service directories (torpy/consesus.py:448-455 starts one past the first larger fingerprint), descriptors and the rendezvous itself.
- TLS, selectors, timers, the HTTP and SOCKS adapters, the file cache and the regular-expression parsers.
