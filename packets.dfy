/**
 * The unit carried from the readers to the algorithm block, and the shared
 * hand-off queue (a `queue.Queue` in the Python program) reduced to its
 * sequential FIFO behaviour.
 */
module Packets {
  import opened Wrappers

  /** One frame tagged with the name of the reader that produced it. */
  datatype DataPacket<+D> = DataPacket(readerName: string, data: D)

  /** The FIFO between the producers and the consumer; `items` is its contents, oldest first. */
  class PacketQueue<D> {
    var items: seq<DataPacket<D>>

    constructor ()
      ensures items == []
    {
      items := [];
    }

    /** A producer's `put`: the packet joins the back of the queue. */
    method Put(p: DataPacket<D>)
      modifies this
      ensures items == old(items) + [p]
    {
      items := items + [p];
    }

    /**
     * The consumer's `get(timeout=1)`: the oldest packet, or `None` where the
     * Python program sees `queue.Empty` (in a sequential run nothing can
     * arrive during the timeout).
     */
    method Get() returns (p: Option<DataPacket<D>>)
      modifies this
      ensures old(items) == [] ==> p == None && items == []
      ensures old(items) != [] ==> p == Some(old(items)[0]) && items == old(items)[1..]
    {
      if items == [] {
        p := None;
      } else {
        p := Some(items[0]);
        items := items[1..];
      }
    }
  }
}
