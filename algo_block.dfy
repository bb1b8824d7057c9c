/**
 * The algorithm block: a registry of readers, the queue they all feed, and
 * a consumer loop that keeps the latest frame of every reader name and
 * hands the whole latest-value map to the combination step once per packet.
 */
module AlgoBlocks {
  import opened Wrappers
  import opened Packets
  import opened Readers

  /** The value `add_reader` stores for a reader: an empty dict, `{}`. */
  datatype RegistryEntry = EmptyDict

  /** The reader names that occur in a run of packets. */
  function Names<D>(ps: seq<DataPacket<D>>): set<string> {
    set i | 0 <= i < |ps| :: ps[i].readerName
  }

  /** The latest-value map after consuming `ps`, in order, starting from `m`. */
  function Replay<D>(m: map<string, D>, ps: seq<DataPacket<D>>): map<string, D>
    decreases |ps|
  {
    if ps == [] then m
    else
      var last := ps[|ps| - 1];
      Replay(m, ps[..|ps| - 1])[last.readerName := last.data]
  }

  /** The argument of every combination step while consuming `ps`: the map just after each packet. */
  function Snapshots<D>(m: map<string, D>, ps: seq<DataPacket<D>>): seq<map<string, D>>
    decreases |ps|
  {
    if ps == [] then [] else Snapshots(m, ps[..|ps| - 1]) + [Replay(m, ps)]
  }

  /** Consuming one more packet overwrites its reader's entry and nothing else. */
  lemma ReplayStep<D>(m: map<string, D>, ps: seq<DataPacket<D>>, p: DataPacket<D>)
    ensures Replay(m, ps + [p]) == Replay(m, ps)[p.readerName := p.data]
  {
  }

  /** One more packet adds one more call, on the updated map. */
  lemma SnapshotsStep<D>(m: map<string, D>, ps: seq<DataPacket<D>>, p: DataPacket<D>)
    ensures Snapshots(m, ps + [p]) == Snapshots(m, ps) + [Replay(m, ps + [p])]
  {
  }

  /** The keys after a drain are the keys before plus exactly the names that appeared. */
  lemma {:induction false} ReplayKeys<D>(m: map<string, D>, ps: seq<DataPacket<D>>)
    ensures Replay(m, ps).Keys == m.Keys + Names(ps)
  {
    if ps != [] {
      var init := ps[..|ps| - 1];
      ReplayKeys(m, init);
      assert Names(ps) == Names(init) + {ps[|ps| - 1].readerName} by {
        forall n | n in Names(ps) ensures n in Names(init) + {ps[|ps| - 1].readerName} {
          var i :| 0 <= i < |ps| && ps[i].readerName == n;
          if i < |ps| - 1 {
            assert init[i] == ps[i];
          }
        }
        forall n | n in Names(init) ensures n in Names(ps) {
          var i :| 0 <= i < |init| && init[i].readerName == n;
          assert ps[i] == init[i];
        }
      }
    }
  }

  /** A name's entry holds the data of the last packet with that name. */
  lemma {:induction false} ReplayLatest<D>(m: map<string, D>, ps: seq<DataPacket<D>>, i: nat)
    requires i < |ps|
    requires forall j :: i < j < |ps| ==> ps[j].readerName != ps[i].readerName
    ensures ps[i].readerName in Replay(m, ps)
    ensures Replay(m, ps)[ps[i].readerName] == ps[i].data
  {
    if i < |ps| - 1 {
      var init := ps[..|ps| - 1];
      assert init[i] == ps[i];
      ReplayLatest(m, init, i);
    }
  }

  /** A name no packet carries keeps its entry, or its absence. */
  lemma {:induction false} ReplayUntouched<D>(m: map<string, D>, ps: seq<DataPacket<D>>, k: string)
    requires k !in Names(ps)
    ensures k in Replay(m, ps) <==> k in m
    ensures k in m ==> Replay(m, ps)[k] == m[k]
  {
    if ps != [] {
      var init := ps[..|ps| - 1];
      assert ps[|ps| - 1].readerName in Names(ps);
      assert Names(init) <= Names(ps) by {
        forall n | n in Names(init) ensures n in Names(ps) {
          var i :| 0 <= i < |init| && init[i].readerName == n;
          assert ps[i] == init[i];
        }
      }
      ReplayUntouched(m, init, k);
    }
  }

  /** There is one call per packet, and call i sees the map just after packet i. */
  lemma {:induction false} SnapshotsAt<D>(m: map<string, D>, ps: seq<DataPacket<D>>, i: nat)
    requires i < |ps|
    ensures |Snapshots(m, ps)| == |ps|
    ensures Snapshots(m, ps)[i] == Replay(m, ps[..i + 1])
  {
    var init := ps[..|ps| - 1];
    if i == |ps| - 1 {
      assert ps[..i + 1] == ps;
      if i > 0 {
        SnapshotsAt(m, init, 0);
      }
    } else {
      SnapshotsAt(m, init, i);
      assert init[..i + 1] == ps[..i + 1];
    }
  }

  /**
   * Starting from an empty map, every call sees exactly the names that have
   * produced so far: a silent reader is absent and never waited for.
   */
  lemma SnapshotKeys<D>(ps: seq<DataPacket<D>>, i: nat)
    requires i < |ps|
    ensures |Snapshots(map[], ps)| == |ps|
    ensures Snapshots(map[], ps)[i].Keys == Names(ps[..i + 1])
  {
    SnapshotsAt(map[], ps, i);
    ReplayKeys(map[], ps[..i + 1]);
  }

  /**
   * `AlgoBlock`: `readers` is keyed by the reader object, `readersData` by
   * the reader name a packet carries; `calls` records the argument of every
   * `process_data` call.
   */
  class AlgoBlock<E> {
    var readers: map<Reader<E>, RegistryEntry>
    const dataQueue: PacketQueue<Frame<E>>
    var running: bool
    var readersData: map<string, Frame<E>>
    ghost var calls: seq<map<string, Frame<E>>>

    /** Every registered reader feeds this block's queue and has been started. */
    ghost predicate Valid()
      reads this, readers.Keys
    {
      forall r :: r in readers ==> r.dataQueue == Some(dataQueue) && r.state != Idle
    }

    /** `__init__`: no readers, an empty queue, not running, no data. */
    constructor ()
      ensures Valid()
      ensures readers == map[] && fresh(dataQueue) && dataQueue.items == []
      ensures !running && readersData == map[] && calls == []
    {
      readers := map[];
      dataQueue := new PacketQueue();
      running := false;
      readersData := map[];
      calls := [];
    }

    /**
     * `add_reader`: a reader not yet registered is entered with `{}`, wired
     * to the queue and started; a registered one is left alone.
     */
    method AddReader(reader: Reader<E>)
      requires Valid()
      modifies this, reader
      ensures Valid()
      ensures reader !in old(readers) ==>
                readers == old(readers)[reader := EmptyDict] &&
                reader.dataQueue == Some(dataQueue) && reader.state == Running
      ensures reader in old(readers) ==> readers == old(readers) && unchanged(reader)
      ensures running == old(running) && readersData == old(readersData) && calls == old(calls)
      // either way `get_reader` now finds the reader, with its `{}` entry
      ensures GetReader(reader) == Some(EmptyDict)
    {
      if reader !in readers {
        readers := readers[reader := EmptyDict];
        reader.SetDataQueue(dataQueue);
        reader.Start();
      } else {
        assert readers[reader].EmptyDict?;
      }
    }

    /**
     * `remove_reader`: a registered reader is stopped and its key deleted;
     * the latest-value map is not touched, so its last frame stays there.
     */
    method RemoveReader(reader: Reader<E>)
      requires Valid()
      modifies this, reader
      ensures Valid()
      ensures reader in old(readers) ==>
                readers == old(readers) - {reader} &&
                reader.state == Stopped && reader.dataQueue == old(reader.dataQueue)
      ensures reader !in old(readers) ==> readers == old(readers) && unchanged(reader)
      ensures running == old(running) && readersData == old(readersData) && calls == old(calls)
      // the stopped reader was one feeding this block's queue
      ensures reader in old(readers) ==> old(reader.dataQueue) == Some(dataQueue)
      // either way `get_reader` no longer finds it
      ensures GetReader(reader) == None
    {
      if reader in readers {
        reader.Stop();
        readers := readers - {reader};
      }
    }

    /** `get_reader`: the stored entry (`{}`, not the reader) or `None`. */
    function GetReader(reader: Reader<E>): (r: Option<RegistryEntry>)
      reads this
      ensures r.Some? <==> reader in readers
      // the registry only ever holds `{}`
      ensures r.Some? ==> r == Some(EmptyDict)
    {
      if reader in readers then
        assert readers[reader].EmptyDict?;
        Some(readers[reader])
      else None
    }

    /** The injected combination step; only the call and its argument are recorded. */
    method ProcessData(data: map<string, Frame<E>>)
      modifies this`calls
      ensures calls == old(calls) + [data]
    {
      calls := calls + [data];
    }

    /**
     * One iteration of the `run` loop: take a packet, overwrite its reader
     * name's entry, and call the combination step on the whole map; on an
     * empty queue nothing happens.
     */
    method Step() returns (consumed: bool)
      modifies this, dataQueue
      ensures consumed <==> old(dataQueue.items) != []
      ensures !consumed ==>
                dataQueue.items == old(dataQueue.items) &&
                readersData == old(readersData) && calls == old(calls)
      ensures consumed ==>
                var p := old(dataQueue.items)[0];
                dataQueue.items == old(dataQueue.items)[1..] &&
                readersData == old(readersData)[p.readerName := p.data] &&
                calls == old(calls) + [readersData]
      ensures readers == old(readers) && running == old(running)
      ensures old(Valid()) ==> Valid()
    {
      var next := dataQueue.Get();
      match next
      case None =>
        consumed := false;
      case Some(packet) =>
        var readerName := packet.readerName;
        readersData := readersData[readerName := packet.data];
        ProcessData(readersData);
        consumed := true;
    }

    /**
     * `run`, for a queue nobody else writes to while it runs: set `running`
     * and consume packets until the queue is empty.
     */
    method Run()
      modifies this, dataQueue
      ensures running && dataQueue.items == []
      ensures readersData == Replay(old(readersData), old(dataQueue.items))
      ensures calls == old(calls) + Snapshots(old(readersData), old(dataQueue.items))
      ensures readers == old(readers)
      ensures old(Valid()) ==> Valid()
    {
      running := true;
      ghost var pending := dataQueue.items;
      ghost var done := 0;
      // `while self.running`: nothing in a sequential run clears `running`
      // (the invariant keeps it true), so only the empty queue ends the loop
      while dataQueue.items != []
        invariant running && readers == old(readers)
        invariant done <= |pending| && dataQueue.items == pending[done..]
        invariant readersData == Replay(old(readersData), pending[..done])
        invariant calls == old(calls) + Snapshots(old(readersData), pending[..done])
        decreases |dataQueue.items|
      {
        var consumed := Step();
        assert pending[..done + 1] == pending[..done] + [pending[done]];
        ReplayStep(old(readersData), pending[..done], pending[done]);
        SnapshotsStep(old(readersData), pending[..done], pending[done]);
        done := done + 1;
      }
      assert pending[..done] == pending;
    }

    /** `stop`: clear `running`; nothing else changes. */
    method Stop()
      modifies this`running
      ensures !running
    {
      running := false;
    }
  }

  /**
   * A client: two readers attached (the second attach of `a` is a no-op),
   * only reader "A" produces. Every packet triggers one call, "B" is never
   * waited for, and detaching `b` leaves the data of "A" in place.
   */
  method SilentReaderScenario(a: Reader<int>, b: Reader<int>, f1: Frame<int>, f2: Frame<int>)
    requires a != b
    modifies a, b
  {
    var block := new AlgoBlock<int>();
    block.AddReader(a);
    block.AddReader(b);
    block.AddReader(a);
    assert block.readers == map[a := EmptyDict, b := EmptyDict];
    block.dataQueue.Put(DataPacket("A", f1));
    block.dataQueue.Put(DataPacket("A", f2));
    TwoFramesFromA(f1, f2);
    block.Run();
    assert block.readersData == map["A" := f2];
    assert block.calls == [map["A" := f1], map["A" := f2]];
    block.RemoveReader(b);
    assert block.GetReader(b) == None && block.GetReader(a) == Some(EmptyDict);
    assert block.readersData == map["A" := f2];
  }

  /** Two frames from "A": the map reads the first after one packet, the second after two. */
  lemma TwoFramesFromA<D>(f1: D, f2: D)
    ensures var ps := [DataPacket("A", f1), DataPacket("A", f2)];
            Replay(map[], ps) == map["A" := f2] &&
            Snapshots(map[], ps) == [map["A" := f1], map["A" := f2]]
  {
    var p1, p2 := DataPacket("A", f1), DataPacket("A", f2);
    ReplayStep(map[], [], p1);
    ReplayStep(map[], [p1], p2);
    SnapshotsStep(map[], [], p1);
    SnapshotsStep(map[], [p1], p2);
    assert [] + [p1] == [p1] && [p1] + [p2] == [p1, p2];
    assert map[]["A" := f1]["A" := f2] == map["A" := f2];
  }
}
