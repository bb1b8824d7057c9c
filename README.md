# symbiose reader/combiner pipeline, modelled in Dafny

symbiose reads fixed-shape binary frames from hardware channels and feeds
them to an algorithm block. Each channel is a `Reader` with a name, a numpy
dtype, a frame shape `fdim` and a transport (a serial port, or the
Bluetooth/Wi-Fi placeholders). The readers push `DataPacket(reader_name,
data)` values onto one shared queue. The `AlgoBlock` keeps a registry of its
readers and a latest-value map from reader name to last frame. For every
packet it dequeues, it calls the user's `process_data` with the whole map.

This project models that bookkeeping sequentially. The threads, the
`queue.Queue` and pyserial are replaced by plain state:

- `wrappers.dfy` (module `Wrappers`): `Option`, `Result` and one `Error`
  constructor for each exception the modelled code can raise.
- `packets.dfy` (module `Packets`): the `DataPacket` record, and the
  hand-off queue as a class holding a `seq` (FIFO `Put`/`Get`). An empty
  queue plays the part of `queue.Empty`.
- `communication.dfy` (module `Communication`), for `src/communication.py`:
  - A serial link is a value with a device, a baud rate, an open flag and
    the bytes waiting in its receive buffer.
  - `SerialCommunication` is a class whose `Connect`, `Read` and `Close`
    update its `port` and `ser` fields. Each method is specified by a pure
    state function (`Connected`, `ReadFrom`, `Closed`).
  - The host is a parameter. It says which ports `list_ports` reports, in
    order, and which devices open without `SerialException`.
  - `Com` dispatches over the base interface (every method raises
    `NotImplementedError`), the serial link, and the two stubs (which do
    nothing; their `read` returns `None`).
- `reader.dfy` (module `Readers`), for `src/reader.py`:
  - the dtype's item size, the shape product and the frame byte count;
  - the `_create_com` case split (`SelectCom`) and the method that builds
    the transport;
  - the `Reader` class, with `Next` (read exactly one frame's worth of
    bytes, then shape it) and `Repr`.
- `algo_block.dfy` (module `AlgoBlocks`), for `src/algo_block.py`:
  - The `AlgoBlock` class has a registry map keyed by the reader object and
    a latest-value map keyed by the packet's reader name.
  - It has a ghost trace of every `process_data` argument.
  - `Run` drains the queue with a loop whose invariant ties the map to
    `Replay` and the trace to `Snapshots`. `Replay` and `Snapshots` are
    pure folds over the consumed packets, and lemmas give their properties.
  - A client method shows the case of two readers where only one produces.

Behaviour of the code worth knowing:

- `add_reader` detects duplicates by reader object, not by name, and it
  raises nothing. Two distinct readers with the same name are both
  registered, and their packets overwrite the same latest-value entry.
- `remove_reader` of an unknown reader and `add_reader` of a known one only
  print a message.
- `remove_reader` never touches `readers_data`, so a removed reader's last
  frame stays in the map (see `ReplayUntouched` and `RemoveReader`).
- The Bluetooth and Wi-Fi transports do nothing and read `None`. They do
  not fail with `NotImplementedError`.
- `connect` with no port and no listed port prints a message and returns,
  with no error. A `SerialException` while opening is caught, and `ser`
  keeps its previous value.
- When no link was ever opened (`ser` is `None`), `read` raises
  `AttributeError`. The model returns `Failure(NoLink)` in that case.
- `next` can only succeed for a shape holding exactly one element.
  `np.array(frame_data, dtype)` turns a `bytes` value (or `None`) into a
  0-d, one-element array (or raises) rather than reinterpreting the bytes
  as `prod(fdim)` binary elements, so `reshape(fdim)` fails for every
  other shape (see `NextOnlyScalarFrames` and
  `NextRejectsTwoByThree`).

## Model

| member | source | states |
|---|---|---|
| `Communication.ConnectKeepsChosenPort` | src/communication.py:27-36 | `connect` ends on the port it chose (the configured one, else the first listed one); once a port is chosen it is stored, so a later `connect` tries the same port whatever the host then lists |
| `Communication.CloseLink` | src/communication.py:47-49 | with `IsOpen` the guard `self.ser and self.ser.is_open` (lines 24 and 48): closing leaves no open link; an open link becomes closed and keeps its other fields; a missing or closed link stays as it was |
| `Communication.Connected` | src/communication.py:23-39 | with a configured port it is kept; with none, the first listed port is adopted, or the port stays `None` if none is listed; a link is open afterwards iff there was a port and it opens; the new link is on that port at the configured rate with nothing buffered; otherwise the old link is kept, closed |
| `Communication.ConnectIdempotent` | src/communication.py:23-39 | connecting twice on the same host gives the same state as connecting once |
| `Communication.ReadFrom` | src/communication.py:41-45 | no link: `AttributeError`; closed link: the closed-port exception (`PortClosed`); open link: exactly `n` bytes, taken from the front of the buffer and removed from it, iff at least `n` are waiting; otherwise `None` and the state is unchanged; port and rate never change |
| `Communication.ReadConcat` | src/communication.py:41-45 | two reads of `a` then `b` bytes deliver the same bytes and leave the same state as one read of `a+b`, and both succeed iff the single read does |
| `Communication.Closed` | src/communication.py:47-49 | `close` changes only the link, and only by closing it |
| `Communication.CloseIdempotent` | src/communication.py:47-49 | calling `close` twice is the same as once |
| `Communication.ReadAfterClose` | src/communication.py:41-49 | after `close`, any read of an existing link fails with the closed-port exception and changes nothing |
| `Communication.SerialCommunication.constructor` | src/communication.py:16-21 | the state is that of `connect` run on the given port and rate with no link |
| `Communication.SerialCommunication.Connect` | src/communication.py:23-39 | the new state is `Connected` of the old state |
| `Communication.SerialCommunication.Read` | src/communication.py:41-45 | result and new state are those of `ReadFrom` on the old state |
| `Communication.SerialCommunication.Close` | src/communication.py:47-49 | the new state is `Closed` of the old state |
| `Communication.ReadResult` | src/communication.py:4-77 | the base interface's read raises `NotImplementedError`; Bluetooth and Wi-Fi read `None`; only a serial link ever delivers bytes, and then exactly the requested count |
| `Communication.ComConnect` | src/communication.py:4-77 | the base interface's connect raises `NotImplementedError`; the stubs do nothing; the serial transport moves to `Connected` |
| `Communication.ComRead` | src/communication.py:4-77 | returns what `ReadResult` predicts in the old state; a serial link moves to the `ReadFrom` state |
| `Communication.ComClose` | src/communication.py:4-77 | the base interface's close raises `NotImplementedError`; the stubs do nothing; the serial transport moves to `Closed` |
| `Readers.ItemSize` | src/reader.py:59 | every dtype's element width is positive, one of 1, 2, 4, 8 or 16 bytes |
| `Readers.Prod` | src/reader.py:59 | `np.prod(fdim)` is positive iff every dimension is positive |
| `Readers.ProdOne` | src/reader.py:59-61 | a shape holds exactly one element iff every dimension is 1 |
| `Readers.FrameBytes` | src/reader.py:59 | the frame byte count `prod(fdim) * itemsize` is positive iff every dimension is, and equals one item's width for a one-element shape |
| `Readers.FrameFrom` | src/reader.py:61 | an exception from the read propagates; `np.array` of the read value is one element (or a decode error), and `reshape(fdim)` succeeds iff the shape holds exactly one element, giving a frame of shape `fdim` holding that element; otherwise a reshape error naming 1 and `prod(fdim)` |
| `Readers.NextOnlyScalarFrames` | src/reader.py:59-61 | whenever `next` returns a frame, every dimension of `fdim` is 1 and the read asked for exactly one item's width of bytes |
| `Readers.NextRejectsTwoByThree` | src/reader.py:59-61 | a (2, 3) `int32` reader asks for 24 bytes and never returns a frame, whatever the read delivers |
| `Readers.SelectCom` | src/reader.py:29-37 | any communication type other than `serial`, `bluetooth` or `wifi` raises `ValueError("Unknown communication type: " + com_type)`; `serial` raises `KeyError` for a missing `port`, then for a missing `baudrate`, and otherwise with both present it selects a serial link with exactly those arguments; `bluetooth` and `wifi` always select their stub; a selected transport always carries the requested type's name |
| `Readers.SelectComComplete` | src/reader.py:29-37 | every transport is selected by its own type name with its own arguments |
| `Readers.SelectComStubsIgnoreArgs` | src/reader.py:32-35 | the Bluetooth and Wi-Fi choices do not depend on the keyword arguments |
| `Readers.CreateCom` | src/reader.py:29-37 | the transport is built iff `SelectCom` succeeds, with its error otherwise; a built transport is new and is what was selected (a serial one already connected on the given port and rate) |
| `Readers.Reader.constructor` | src/reader.py:22-27 | `name`, `dtype`, `fdim` and the transport are stored exactly as given; the reader is not wired and not started |
| `Readers.NewReader` | src/reader.py:22-27 | a reader exists iff `_create_com` succeeds, otherwise its exception is returned; the new reader stores the given name, dtype and shape and the selected transport |
| `Readers.Reader.Repr` | src/reader.py:39-40 | the repr is `Reader(` + name + `)`, from which the name can be read back |
| `Readers.ReprIdentifiesName` | src/reader.py:39-40 | two readers have the same repr iff they have the same name |
| `Readers.Reader.Next` | src/reader.py:51-62 | the read asks the transport for exactly `prod(fdim) * itemsize` bytes; the result is `FrameFrom` of what that read returns; a serial link's buffer moves as `ReadFrom` says for that count |
| `Readers.Reader.SetDataQueue` | src/algo_block.py:21 | the reader now feeds the given queue; its thread state is unchanged |
| `Readers.Reader.Start` | src/algo_block.py:22 | the reader's thread is running; its queue is unchanged |
| `Readers.Reader.Stop` | src/algo_block.py:32 | the reader's thread is stopped; its queue is unchanged |
| `Packets.PacketQueue.constructor` | src/algo_block.py:11 | the shared queue starts empty |
| `Packets.PacketQueue.Put` | src/algo_block.py:11 | `put` appends the packet at the back of the shared queue and changes nothing else |
| `Packets.PacketQueue.Get` | src/algo_block.py:51 | an empty queue yields nothing and stays empty (`queue.Empty`); otherwise the oldest packet is removed and returned |
| `AlgoBlocks.AlgoBlock.constructor` | src/algo_block.py:8-13 | no readers, a new empty queue, not running, an empty latest-value map, no calls |
| `AlgoBlocks.AlgoBlock.AddReader` | src/algo_block.py:15-25 | an unregistered reader is inserted with `{}` (every other entry unchanged), wired to this block's queue and started; a registered reader leaves the registry and the reader untouched; the latest-value map, the running flag and the call trace never change; afterwards `get_reader` returns `{}` for that reader in both cases; every registered reader feeds this queue and was started, before and after |
| `AlgoBlocks.AlgoBlock.RemoveReader` | src/algo_block.py:27-36 | a registered reader is stopped and exactly its key is deleted; an unregistered one changes nothing; the latest-value map is never touched, so stale values stay; a stopped reader was feeding this block's queue; afterwards `get_reader` returns `None` for that reader in both cases; the registry invariant is kept |
| `AlgoBlocks.AlgoBlock.GetReader` | src/algo_block.py:38-42 | a value exactly for a registered reader, and that value is always the `{}` entry (never the reader); its partners are the `get_reader` clauses of `AddReader` and `RemoveReader` |
| `AlgoBlocks.AlgoBlock.ProcessData` | src/algo_block.py:64-68 | one call is recorded, with its argument |
| `AlgoBlocks.AlgoBlock.Step` | src/algo_block.py:50-56 | an empty queue changes nothing; otherwise the oldest packet is removed, its reader name's entry is set to its data (every other key unchanged), and `process_data` is called once with the whole updated map; the registry and running flag never change, so the registry invariant is kept |
| `AlgoBlocks.AlgoBlock.Run` | src/algo_block.py:44-56 | `running` is set, the queue is drained, the latest-value map is `Replay` of the old map over the drained packets, and the trace grows by `Snapshots` of them, one call per packet; the registry is unchanged and its invariant kept |
| `AlgoBlocks.AlgoBlock.Stop` | src/algo_block.py:58-62 | only `running` changes, to false |
| `AlgoBlocks.ReplayStep` | src/algo_block.py:52-53 | consuming one more packet overwrites its reader name's entry and nothing else |
| `AlgoBlocks.SnapshotsStep` | src/algo_block.py:52-54 | one more packet adds exactly one call, on the updated map |
| `AlgoBlocks.ReplayKeys` | src/algo_block.py:49-54 | after a drain the keys are the old keys plus exactly the reader names that appeared |
| `AlgoBlocks.ReplayLatest` | src/algo_block.py:49-54 | each name that appeared maps to the data of the last packet with that name |
| `AlgoBlocks.ReplayUntouched` | src/algo_block.py:49-54 | a name no drained packet carries keeps its old entry, or stays absent |
| `AlgoBlocks.SnapshotsAt` | src/algo_block.py:49-54 | a drain makes one call per packet, and call i gets the map as it stands just after packet i |
| `AlgoBlocks.SnapshotKeys` | src/algo_block.py:49-54 | from an empty map, each call sees exactly the names that have produced so far; a silent reader is absent and is never waited for |
| `AlgoBlocks.TwoFramesFromA` | src/algo_block.py:49-54 | two frames from reader "A": the map holds the first after one packet and the second after two, and there is one call per packet |

## Left out

- Threads: the `threading.Thread` base classes, thread start-up and
  cross-thread timing are not modelled. `Start` and `Stop` only set a
  reader's state. Re-adding a removed reader would make
  `threading.Thread.start` raise `RuntimeError` ("threads can only be started
  once"), and the model does not capture that.
- `src/reader.py` defines no `set_data_queue`, `stop` or packet-producing
  `run`, yet `add_reader` and `remove_reader` call the first two. The model
  gives them the minimal meaning those call sites need (`SetDataQueue`,
  `Stop`). It does not invent a reader loop: nothing in the model produces
  packets except a client calling `PacketQueue.Put`.
- The locking of `queue.Queue` and the blocking `get(timeout=1)` are not
  modelled. The queue is a sequence, and an empty queue is the
  `queue.Empty` branch.
- AlgoBlocks.AlgoBlock.Run: this is weaker than the source loop. The source
  keeps polling an empty queue until `stop` clears `running`. The model can
  run no producer or `stop` while it runs, so it stops once the queue is
  empty. `Step` models one iteration, including the empty-queue case.
- AlgoBlocks.AlgoBlock.ProcessData: the base implementation raises
  `NotImplementedError`. The model treats it as the subclass's combination
  step, which is not implemented, and only records the call and its map. An
  exception from that step (which would end the source's consumer thread)
  is not modelled.
- pyserial internals are not modelled: `list_ports`, baud-rate validation,
  device I/O and the arrival of bytes. The `Host` parameter stands for the
  port list and the set of devices that open. A freshly opened link has
  nothing buffered, and arriving bytes are not modelled.
- numpy is not modelled. `np.array(frame_data, dtype)` on a `bytes` value
  yields a single element; which value that is (or whether numpy raises)
  is the function parameter `decode` (`None` where numpy raises). No
  encode/decode round trip is claimed.
  `np.prod` of an empty shape is taken to be 1. numpy returns the float
  1.0, so `n_bytes` is then a float and reaches `self.ser.read`; what
  pyserial does with a non-integer count is not modelled. `np.prod`'s fixed-width integer overflow for huge shapes is not
  modelled.
- Every reader in one `AlgoBlock` shares one element type `E`. The
  combiner never looks inside a frame, so nothing depends on that.
- The keyword arguments of `_create_com` are reduced to the two it reads,
  `port` (possibly `None`) and `baudrate`, each of which may be missing.
  Other keys are ignored, as in the source.
- The default arguments of `SerialCommunication.__init__` (`port=None`,
  `baudrate=115200`, src/communication.py:16) are not modelled: the
  constructor takes both. The only caller, `_create_com`, always passes
  both, so nothing reachable depends on the defaults.
- AlgoBlocks.AlgoBlock.GetReader: it returns a copy of the stored `{}`
  registry entry. The source returns the dict object itself
  (src/algo_block.py:42), so a caller could mutate the registry through
  it; that aliasing is not modelled.
- AlgoBlocks.AlgoBlock.Step: `process_data(**self.readers_data)`
  (src/algo_block.py:54) passes reader names as keyword arguments. A
  reader named `self` (or any name that is not a valid keyword for the
  subclass's signature) would make Python raise `TypeError`. The model
  passes the map unchanged and does not capture that error.
- Only the fixed-width dtypes are modelled. The platform-dependent
  `np.longdouble` and `np.clongdouble` (16 and 32 bytes on common
  platforms) are left out.
- `AlgoBlock.forward`, `Reader.__str__`, `DataPacket.__repr__` and all
  `print` logging are console output only, and they depend on Python's
  formatting of numpy types and tuples.
