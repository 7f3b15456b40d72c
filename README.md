# P2P whiteboard peer: a Dafny model

The whiteboard has no central server. Each participant runs a `WhiteboardPeer`. It listens for connections and dials other peers. It draws on a Tk canvas and floods every drawing action to the peers it is connected to. The repository has three near-identical versions of this class:

- `gui_network2.py` and `Networks_project_3_1_25_2_39PM.py` share the same network logic line for line. Module `GuiNetwork` models both.
- `net4.py` adds peer discovery, removes connections when they close, and tracks strokes with a `drawing` flag. Module `Net4` models it.

What the model does with the machinery around the bookkeeping:

- **Sockets.** Each socket becomes a connection id. A peer hands ids out from a counter, so the list of connections never holds the same socket twice.
- **Messages.** A pickled message dictionary becomes a `Message` value, one variant per `"type"` tag.
- **Send failures.** Whether `sendall` raises on a connection is an input: the set `failing`. In the gui variant, a socket that `handle_client` has closed also raises.
- **Callbacks and threads.** Callbacks queued with `root.after` wait in a FIFO `pending` until `RunCallback` runs the oldest. Threads started for a broadcast (gui) or a dial (net4) are recorded, and a `Run…Thread` method runs one.
- **Sends.** Every call that sends appends one record to `sent`: the message and the connections it was handed to, in order.

The modules:

- `Wire`: the values (addresses, points, segments, messages) and `Distinct`.
- `Relay`: the `relay_message` loop.
  - It is shared by all three variants.
  - It is a Python `for` loop over the list it removes from. The iterator is index-based, so the connection right after a removed one is never visited in that pass.
  - `Run` follows the loop step by step. `Marks` is an independent, element-by-element description of one pass, and `RelayByMarks` proves the two agree.
  - The properties of a pass are proved through `Marks`: who is sent the message, who is dropped, and who is skipped.
- `Discovery`: the `peer_list` merge of `net4.py`, as a function over the advertised list.
- `GuiNetwork` and `Net4`: the `WhiteboardPeer` classes. Their fields are the peer's state, and each method mirrors one handler. Every relaying method is proved to leave `connections` and append to `sent` exactly as `Relay.Run` says.
- Both modules also define the pure stroke step (`OnMotion`), with lemmas about the segments a sequence of pointer events produces.

Behaviour of the code that the model keeps as written:

- **A broadcast does not reach every live connection.** The connection right after one whose send failed is skipped in that pass (`Relay.SuccessorOfDroppedIsSkipped`).
- **`net4.py`'s `process_message` relays only draw events itself.** A received colour change stays local. A received clear reaches the peers again only through the broadcast of `new_canvas`, which it queues (`Net4.WhiteboardPeer.ProcessMessage`; next item).
- **`net4.py` sends a received clear back to where it came from.** The clear runs `new_canvas`, which broadcasts a clear to every connection, the origin included (`Net4.ClearEchoesToOrigin`).
- **In the gui versions, `handle_client` never removes a closed connection.** It closes the socket, which stays in `connections` until a relay pass tries it. That send raises, the pass removes the connection, and it skips the connection after it (`GuiNetwork.WhiteboardPeer.HandleClientExit`, `GuiNetwork.ClosedConnectionLeavesOnNextSend`).
- **`send_peer_list` is never called.** `net4.py` defines it, but nothing calls it, so a `net4.py` peer never sends a peer list.
- **There is no message framing.** Each `recv(4096)` is taken to be exactly one pickled message.

## Model

| member | source | states |
|---|---|---|
| Relay.RemoveFirst | gui_network2.py:111 | `list.remove` shortens the list by one, adds nothing, and on a list without repeats removes exactly the given connection |
| Relay.Run | gui_network2.py:105-111 | one pass of the loop: the sender never receives its own message, and the list afterwards and the connections tried all come from the list before |
| Relay.RunVisit | gui_network2.py:106-111 | the one-step unfolding of `Run` that the `RelayMessage` loops use: one iteration skips the sender, otherwise sends, and on failure removes the connection before the index moves on |
| Relay.MarkRule | gui_network2.py:106-111 | per-element rule of a pass: after a dropped connection comes a skipped one; otherwise the sender is excluded, and any other connection is dropped exactly when its send fails |
| Relay.RelayByMarks | gui_network2.py:105-111 | on a list without repeats, the step-by-step loop leaves exactly the non-dropped connections and tries exactly the sent and dropped ones, in list order |
| Relay.DroppedIffFailedTarget | gui_network2.py:106-111 | a connection leaves the list if and only if a send to it was tried and raised; no connection is added |
| Relay.TargetedIffVisited | Networks_project_3_1_25_2_39PM.py:74-80 | a connection is tried if and only if it is not the sender and the connection before it was not just dropped |
| Relay.SuccessorOfDroppedIsSkipped | Networks_project_3_1_25_2_39PM.py:75-80 | the connection right after a dropped one is not sent the message in that pass, yet it stays in the list |
| Relay.AttemptsAreDistinct | net4.py:99-107 | each connection is tried at most once per pass |
| Relay.EveryoneReachedWithoutFailures | Networks_project_3_1_25_2_39PM.py:74-78 | when no send raises, the list is unchanged and every connection except the sender is tried, in list order; with sender `None`, every connection |
| Relay.SkipExample | net4.py:101-107 | over connections 1, 2, 3 with 1 failing: 1 and 3 are tried, 2 is skipped, and 2 and 3 remain |
| Discovery.MergePeerList | net4.py:91-96 | the merge loop never shrinks `known_peers`; every dial is for an advertised address that is not the peer's own, was not known before, and is known afterwards |
| Discovery.MergeAddsAdvertised | net4.py:91-95 | after the loop, `known_peers` is the old set plus every advertised address except the peer's own, and nothing else |
| Discovery.MergeNeverAddsSelf | net4.py:94 | the peer's own address is in `known_peers` after the merge if and only if it was before |
| Discovery.MergeDialsEachNewAddressOnce | net4.py:93-96 | a dial starts for exactly the advertised addresses that are new and not the peer's own, each once even if listed twice |
| GuiNetwork.OnMotion | gui_network2.py:113-123 | one `draw`: with a stroke start, it emits the segment from the start to the event point, carrying the user's name, and moves the start there; with no start (`prev_x` unset, so line 114 raises), nothing is emitted and nothing changes |
| GuiNetwork.Replay | gui_network2.py:42-43 | pointer events as the bindings deliver them (press to `locate_xy`, motion to `draw`, release unbound): at most one segment per event, each carrying the user's name and ending at a motion point |
| GuiNetwork.DragChains | gui_network2.py:113-123 | dragging from a start point draws one segment per motion; each segment ends at its motion point and starts where the previous one ended, and carries the user's name |
| GuiNetwork.PressThenDrag | gui_network2.py:131-132 | a press sets the stroke start: the drag that follows chains from the press point |
| GuiNetwork.MotionBeforePressDrawsNothing | gui_network2.py:114 | before any press `prev_x` does not exist, so motions draw and send nothing |
| GuiNetwork.WhiteboardPeer.constructor | gui_network2.py:9-18 | a new peer has no connections, colour black, and no stroke start |
| GuiNetwork.WhiteboardPeer.Accept | gui_network2.py:74-77 | accepting appends exactly one new connection, distinct from all listed |
| GuiNetwork.WhiteboardPeer.ConnectToPeer | gui_network2.py:79-82 | a successful dial appends exactly one new connection; a failed one changes nothing |
| GuiNetwork.WhiteboardPeer.HandleClientExit | gui_network2.py:84-93 | the socket is closed but stays in `connections` |
| GuiNetwork.WhiteboardPeer.Remove | gui_network2.py:111 | `connections.remove` drops the connection and keeps the list free of repeats |
| GuiNetwork.WhiteboardPeer.RelayMessage | gui_network2.py:105-111 | the new list and the connections sent to are those of the pass `Relay.Run` describes, closed sockets counting as failing |
| GuiNetwork.WhiteboardPeer.ProcessMessage | gui_network2.py:95-103 | a draw event, clear or colour change queues its callback; a clear queues `clear_canvas(False)`; every message, unknown tags included, is relayed once, never to its sender |
| GuiNetwork.WhiteboardPeer.Draw | gui_network2.py:113-123 | a motion after a press draws the segment from the stroke start in the current colour, broadcasts it with the user's name to every connection, and advances the start |
| GuiNetwork.WhiteboardPeer.LocateXY | gui_network2.py:131-132 | a press sets the stroke start |
| GuiNetwork.WhiteboardPeer.ChangeColor | gui_network2.py:140-142 | the local colour is set and a colour change is broadcast to every connection |
| GuiNetwork.WhiteboardPeer.ClearCanvas | gui_network2.py:144-148 | the canvas is emptied; a broadcast thread is started only when `broadcast` is true |
| GuiNetwork.WhiteboardPeer.RunCallback | gui_network2.py:127-128 | the oldest queued callback runs: a network segment is drawn in the current colour, a clear empties the canvas without a new broadcast, a colour change sets the colour |
| GuiNetwork.WhiteboardPeer.RunBroadcastThread | gui_network2.py:148 | the clear-canvas thread relays its message with sender `None` |
| GuiNetwork.RemoteClearIsRelayedOnce | Networks_project_3_1_25_2_39PM.py:67 | a clear from one of two connections is relayed to the other only, and the queued `clear_canvas(False)` starts no second broadcast |
| GuiNetwork.FailedSendSkipsNext | Networks_project_3_1_25_2_39PM.py:110-112 | a colour change over three connections whose first fails reaches the first and third only, and the first is removed |
| GuiNetwork.ClosedConnectionLeavesOnNextSend | gui_network2.py:84-111 | after `handle_client` closes one of two connections, it is still listed; the next colour change tries it, removes it, and skips the other connection |
| Net4.OnMotion | net4.py:122-137 | the first motion of a stroke only records its point; each later motion emits the segment from the recorded point, without a user name; either way the point is recorded and `drawing` is set |
| Net4.Replay | net4.py:36-38 | pointer events as the bindings deliver them (motion to `draw`, release to `stop_draw`, press to `locate_xy`): at most one segment per event, none carrying a user name, each ending at a motion point |
| Net4.StrokeChains | net4.py:129-137 | while a stroke is under way, each motion emits one segment that starts where the previous one ended |
| Net4.StrokeAfterRelease | net4.py:139-141 | after a release, the next motion emits nothing and the stroke chains from that motion's point |
| Net4.PressLeavesStroke | net4.py:157-159 | a press does not affect the stroke |
| Net4.PeerListTeachesKnownPeers | net4.py:114-116 | the list `send_peer_list` builds teaches a fresh receiver every known address except the receiver's own, each dialled once |
| Net4.WhiteboardPeer.constructor | net4.py:10-40 | a new peer knows no peers, has no connections, colour black, and is not drawing |
| Net4.WhiteboardPeer.Accept | net4.py:50-54 | accepting appends exactly one new connection |
| Net4.WhiteboardPeer.ConnectToPeer | net4.py:56-62 | a successful dial appends one connection and adds the address to `known_peers`, with no self check; a failed one changes nothing |
| Net4.WhiteboardPeer.HandleClientExit | net4.py:75-78 | the socket is closed and no longer in `connections` |
| Net4.WhiteboardPeer.Remove | net4.py:78 | `connections.remove` drops the connection and keeps the list free of repeats |
| Net4.WhiteboardPeer.RelayMessage | net4.py:99-107 | the new list and the connections sent to are those of the pass `Relay.Run` describes |
| Net4.WhiteboardPeer.MergeAdvertised | net4.py:91-96 | the `peer_list` loop leaves `known_peers` and the started dials as `Discovery.MergePeerList` says |
| Net4.WhiteboardPeer.ProcessMessage | net4.py:80-96 | a draw event is drawn at once and relayed to all but its sender; a clear or colour change is queued and not relayed; a peer list is merged; other tags do nothing |
| Net4.WhiteboardPeer.SendEvent | net4.py:109-112 | a draw event is broadcast to every connection |
| Net4.WhiteboardPeer.SendPeerList | net4.py:114-120 | one message lists every known address exactly once and goes to the one connection; a failed send changes nothing |
| Net4.WhiteboardPeer.Draw | net4.py:122-137 | the connected state follows `OnMotion`; an emitted segment is drawn in the current colour and broadcast to every connection |
| Net4.WhiteboardPeer.StopDraw | net4.py:139-141 | a release clears `drawing` |
| Net4.WhiteboardPeer.LocateXY | net4.py:157-159 | a press records its point in `current` only |
| Net4.WhiteboardPeer.ShowColor | net4.py:151-156 | the local colour is set and a colour change is broadcast to every connection |
| Net4.WhiteboardPeer.NewCanvas | net4.py:167-172 | the canvas is emptied and a clear is broadcast to every connection |
| Net4.WhiteboardPeer.RunCallback | net4.py:85-90 | a queued clear runs `new_canvas`; a queued colour change sets the colour without relaying it |
| Net4.WhiteboardPeer.RunDialThread | net4.py:96 | a dial thread connects to the address it was started for |
| Net4.ClearEchoesToOrigin | net4.py:85-87 | a clear received from one of two connections is not relayed at once; running the queued `new_canvas` sends a clear to both, its origin included |
| Net4.PeerListSkipsSelfAndRepeats | net4.py:93-95 | a list holding the peer's own address and a repeated address teaches each other address once and dials each once |

## Left out

- Tk: canvas items, the palette, name tags (`display_name`), dialogs and `mainloop` are not modelled. A line on the canvas is the `Line` record appended to `lines`; clearing empties `lines`.
- Sockets: `bind`, `listen`, `accept`, `create_connection`, `recv(4096)` chunking and `sendall` are I/O. A socket is an id, and a send's failure is the input `failing`.
- `pickle`: messages are `Message` values. A dictionary without a `"type"` key, which would raise `KeyError`, is not modelled.
- The `handle_client` read loop: it spins when `recv` returns empty bytes. Only its exit (close, and in `net4.py` removal) is modelled, as `HandleClientExit`.
- Threads and `is_running`: no concurrency. Threads run whole, one at a time, when their `Run…Thread` method is called. The handler thread started on accept or dial is not recorded, because its only effect is the read loop. `is_running` is never cleared by the code and is left out.
- `show_input_dialog`: a prompt that ends in creating a `WhiteboardPeer` and calling `start_gui`.
- `open_connect_dialog` and the `__main__` blocks of `Networks_project_3_1_25_2_39PM.py` and `net4.py`: prompts that end in a thread running `connect_to_peer`, modelled as `ConnectToPeer`. The dialled address of the gui variant is not kept, since nothing reads it.
- Net4.RunDialThread: the dial thread connects to the address current when the thread was started. In the code, the lambda reads the loop variable `peer` only when the thread runs. If the threads run after `process_message` returns, every thread started from one list dials the list's last address. That address may be the peer's own or one already known. `connect_to_peer` would then add it to `known_peers`, even the peer's own address. The model does not capture this.
- Net4.RelayMessage: the `if connection in self.connections` guard is modelled, but in a sequential run it always holds, so the concurrent double removal it protects against is not captured.
- Net4.SendPeerList: the order of `list(self.known_peers)` is Python's set iteration order. The model promises only some order without repeats.
- GuiNetwork.WhiteboardPeer.RunCallback: a segment drawn by `draw_from_network` is recorded without the author's name tag.
- Sends: the `sent` log records that `sendall` was called on a connection. It does not record whether bytes were partly written before the error.
