/**
 * A channel reader: its frame descriptor (element type and shape), the
 * transport it builds from a communication-type string, the byte count of
 * one frame and the read that fetches it.
 */
module Readers {
  import opened Wrappers
  import opened Communication
  import opened Packets

  /**
   * The fixed-width numpy scalar types a reader's dtype can be. The
   * platform-dependent `np.longdouble` and `np.clongdouble` are not among
   * them, so the widths below are those of the listed types only.
   */
  datatype DType =
    | Bool | Int8 | UInt8 | Int16 | UInt16 | Int32 | UInt32 | Int64 | UInt64
    | Float16 | Float32 | Float64 | Complex64 | Complex128

  /** `dtype().itemsize`: the width of one element in bytes. */
  function ItemSize(d: DType): (n: nat)
    ensures n > 0 && n in {1, 2, 4, 8, 16}
  {
    match d
    case Bool => 1
    case Int8 => 1
    case UInt8 => 1
    case Int16 => 2
    case UInt16 => 2
    case Int32 => 4
    case UInt32 => 4
    case Int64 => 8
    case UInt64 => 8
    case Float16 => 2
    case Float32 => 4
    case Float64 => 8
    case Complex64 => 8
    case Complex128 => 16
  }

  /**
   * `np.prod(fdim)`: the number of elements in a frame of that shape (1 for
   * the empty shape); it has elements exactly when no dimension is zero.
   */
  function Prod(dims: seq<nat>): (p: nat)
    ensures p > 0 <==> forall i :: 0 <= i < |dims| ==> dims[i] > 0
  {
    if dims == [] then 1
    else
      assert forall i :: 1 <= i < |dims| ==> dims[i] == dims[1..][i - 1];
      dims[0] * Prod(dims[1..])
  }

  /** A shape holds exactly one element when every dimension is 1. */
  lemma {:induction false} ProdOne(dims: seq<nat>)
    ensures Prod(dims) == 1 <==> forall i :: 0 <= i < |dims| ==> dims[i] == 1
  {
    if dims != [] {
      ProdOne(dims[1..]);
      assert forall i :: 1 <= i < |dims| ==> dims[i] == dims[1..][i - 1];
    }
  }

  /**
   * `np.prod(fdim) * dtype().itemsize`: the byte count of one frame, at
   * least one byte exactly when every dimension is positive, and one item's
   * width for a one-element shape.
   */
  function FrameBytes(fdim: seq<nat>, dtype: DType): (b: nat)
    ensures b > 0 <==> forall i :: 0 <= i < |fdim| ==> fdim[i] > 0
    ensures Prod(fdim) == 1 ==> b == ItemSize(dtype)
  {
    Prod(fdim) * ItemSize(dtype)
  }

  /** A decoded frame: its shape and its elements in row-major order. */
  datatype Frame<E> = Frame(shape: seq<nat>, elements: seq<E>)

  /** What `reshape(fdim)` accepts: as many elements as the shape holds. */
  predicate WellShaped<E>(f: Frame<E>) {
    |f.elements| == Prod(f.shape)
  }

  /**
   * The last line of `Reader.next`. `np.array(frame_data, dtype)` treats a
   * `bytes` object (or `None`) as one scalar: the parameter `decode` gives
   * that single element, or `None` where numpy raises. `reshape(fdim)` then
   * raises unless the shape holds exactly one element. An exception from
   * the read itself propagates unchanged.
   */
  function FrameFrom<E>(read: Result<Option<seq<byte>>, Error>, decode: Option<seq<byte>> -> Option<E>,
                        fdim: seq<nat>): (r: Result<Frame<E>, Error>)
    ensures read.Failure? ==> r == Failure(read.error)
    ensures r.Success? <==> read.Success? && decode(read.value).Some? && Prod(fdim) == 1
    ensures r.Success? ==> WellShaped(r.value) && r.value.shape == fdim && r.value.elements == [decode(read.value).value]
    ensures read.Success? && decode(read.value).None? ==> r == Failure(DecodeFailed)
    ensures read.Success? && decode(read.value).Some? && Prod(fdim) != 1 ==>
              r == Failure(ShapeMismatch(1, Prod(fdim)))
  {
    match read
    case Failure(e) => Failure(e)
    case Success(data) =>
      match decode(data)
      case None => Failure(DecodeFailed)
      case Some(element) =>
        if Prod(fdim) == 1 then Success(Frame(fdim, [element]))
        else Failure(ShapeMismatch(1, Prod(fdim)))
  }

  /**
   * `next` can only return a frame whose every dimension is 1, and such a
   * frame takes exactly one item's width of bytes from the link.
   */
  lemma NextOnlyScalarFrames<E>(read: Result<Option<seq<byte>>, Error>, decode: Option<seq<byte>> -> Option<E>,
                                fdim: seq<nat>, dtype: DType)
    requires FrameFrom(read, decode, fdim).Success?
    ensures forall i :: 0 <= i < |fdim| ==> fdim[i] == 1
    ensures FrameBytes(fdim, dtype) == ItemSize(dtype)
  {
    ProdOne(fdim);
  }

  /** A (2, 3) frame of 32-bit integers never comes out of `next`, whatever was read. */
  lemma NextRejectsTwoByThree<E>(read: Result<Option<seq<byte>>, Error>, decode: Option<seq<byte>> -> Option<E>)
    ensures FrameBytes([2, 3], Int32) == 24
    ensures !FrameFrom(read, decode, [2, 3]).Success?
  {
  }

  /** The keyword arguments the serial transport looks up; the outer `None` is a missing key. */
  datatype KwArgs = KwArgs(port: Option<Option<string>>, baudrate: Option<int>)

  /** The transport `_create_com` decides to build, before building it. */
  datatype ComChoice = SerialChoice(port: Option<string>, baudrate: int) | BluetoothChoice | WiFiChoice

  /** The communication-type string that selects a transport. */
  function ComTypeName(c: ComChoice): string {
    match c
    case SerialChoice(_, _) => "serial"
    case BluetoothChoice => "bluetooth"
    case WiFiChoice => "wifi"
  }

  /** The case split of `Reader._create_com`. */
  function SelectCom(comType: string, kwargs: KwArgs): (r: Result<ComChoice, Error>)
    ensures comType !in {"serial", "bluetooth", "wifi"} ==>
              r == Failure(ValueError("Unknown communication type: " + comType))
    ensures comType == "serial" && kwargs.port.None? ==> r == Failure(KeyError("port"))
    ensures comType == "serial" && kwargs.port.Some? && kwargs.baudrate.None? ==> r == Failure(KeyError("baudrate"))
    ensures comType == "serial" && kwargs.port.Some? && kwargs.baudrate.Some? ==>
              r == Success(SerialChoice(kwargs.port.value, kwargs.baudrate.value))
    ensures comType == "bluetooth" ==> r == Success(BluetoothChoice)
    ensures comType == "wifi" ==> r == Success(WiFiChoice)
    ensures r.Success? ==> ComTypeName(r.value) == comType
  {
    if comType == "serial" then
      if kwargs.port.None? then Failure(KeyError("port"))
      else if kwargs.baudrate.None? then Failure(KeyError("baudrate"))
      else Success(SerialChoice(kwargs.port.value, kwargs.baudrate.value))
    else if comType == "bluetooth" then Success(BluetoothChoice)
    else if comType == "wifi" then Success(WiFiChoice)
    else Failure(ValueError("Unknown communication type: " + comType))
  }

  /** The arguments that make `_create_com` choose `c`. */
  function ArgsFor(c: ComChoice): KwArgs {
    match c
    case SerialChoice(port, baudrate) => KwArgs(Some(port), Some(baudrate))
    case _ => KwArgs(None, None)
  }

  /** Every transport is reachable: its own name and arguments select exactly it. */
  lemma SelectComComplete(c: ComChoice)
    ensures SelectCom(ComTypeName(c), ArgsFor(c)) == Success(c)
  {
  }

  /** "bluetooth" and "wifi" need no keyword arguments; extra ones are ignored. */
  lemma SelectComStubsIgnoreArgs(comType: string, k1: KwArgs, k2: KwArgs)
    requires comType == "bluetooth" || comType == "wifi"
    ensures SelectCom(comType, k1) == SelectCom(comType, k2)
  {
  }

  /** `com` is the transport `choice` describes, freshly built on `host`. */
  predicate BuiltFrom(com: Com, choice: ComChoice, host: Host)
    reads Footprint(com)
  {
    match choice
    case SerialChoice(port, baudrate) =>
      com.Serial? && com.link.State() == Connected(SerialState(port, baudrate, None), host)
    case BluetoothChoice => com.Bluetooth?
    case WiFiChoice => com.WiFi?
  }

  /** `Reader._create_com`: build the selected transport (the serial one connects at once). */
  method CreateCom(comType: string, kwargs: KwArgs, host: Host) returns (r: Result<Com, Error>)
    ensures r.Success? <==> SelectCom(comType, kwargs).Success?
    ensures r.Failure? ==> r.error == SelectCom(comType, kwargs).error
    ensures r.Success? ==> fresh(Footprint(r.value)) && BuiltFrom(r.value, SelectCom(comType, kwargs).value, host)
  {
    var choice := SelectCom(comType, kwargs);
    match choice
    case Failure(e) =>
      r := Failure(e);
    case Success(SerialChoice(port, baudrate)) =>
      var link := new SerialCommunication(port, baudrate, host);
      r := Success(Serial(link));
    case Success(BluetoothChoice) =>
      r := Success(Bluetooth);
    case Success(WiFiChoice) =>
      r := Success(WiFi);
  }

  /** Where a reader's thread is in its life. */
  datatype Lifecycle = Idle | Running | Stopped

  /**
   * A channel reader. Its name, dtype, shape and transport are fixed at
   * construction; the queue it feeds and its thread state are set by the
   * algorithm block that registers it.
   */
  class Reader<E> {
    const name: string
    const dtype: DType
    const fdim: seq<nat>
    const com: Com
    var dataQueue: Option<PacketQueue<Frame<E>>>
    var state: Lifecycle

    /** Field assignments of `__init__`, once the transport is built. */
    constructor (name: string, dtype: DType, fdim: seq<nat>, com: Com)
      ensures this.name == name && this.dtype == dtype && this.fdim == fdim && this.com == com
      ensures dataQueue == None && state == Idle
    {
      this.name := name;
      this.dtype := dtype;
      this.fdim := fdim;
      this.com := com;
      dataQueue := None;
      state := Idle;
    }

    /** `__repr__`: the name in `Reader(...)`, recoverable from the text. */
    function Repr(): (s: string)
      ensures ParseRepr(s) == Some(name)
      ensures |s| == |name| + 8
    {
      "Reader(" + name + ")"
    }

    /** Wire the reader to the queue it pushes its packets to. */
    method SetDataQueue(q: PacketQueue<Frame<E>>)
      modifies this
      ensures dataQueue == Some(q) && state == old(state)
    {
      dataQueue := Some(q);
    }

    /** Start the reader's thread. */
    method Start()
      modifies this
      ensures state == Running && dataQueue == old(dataQueue)
    {
      state := Running;
    }

    /** Ask the reader's thread to stop. */
    method Stop()
      modifies this
      ensures state == Stopped && dataQueue == old(dataQueue)
    {
      state := Stopped;
    }

    /**
     * `Reader.next`: compute the frame's byte count, ask the transport for
     * exactly that many bytes, and shape what comes back into a frame.
     */
    method Next(decode: Option<seq<byte>> -> Option<E>) returns (r: Result<Frame<E>, Error>)
      modifies Footprint(com)
      ensures r == FrameFrom(old(ReadResult(com, FrameBytes(fdim, dtype))), decode, fdim)
      ensures com.Serial? ==> com.link.State() == ReadFrom(old(com.link.State()), FrameBytes(fdim, dtype)).1
    {
      var nBytes := FrameBytes(fdim, dtype);
      var frameData := ComRead(com, nBytes);
      r := FrameFrom(frameData, decode, fdim);
    }
  }

  /** Recover a reader's name from its repr, if the text has that form. */
  function ParseRepr(s: string): Option<string> {
    if |s| >= 8 && s[..7] == "Reader(" && s[|s| - 1] == ')' then Some(s[7..|s| - 1]) else None
  }

  /** Two readers print alike exactly when they have the same name. */
  lemma ReprIdentifiesName<E>(a: Reader<E>, b: Reader<E>)
    ensures a.Repr() == b.Repr() <==> a.name == b.name
  {
  }

  /**
   * `Reader(name, dtype, fdim, com_type, **kwargs)`: the reader, or the
   * exception `_create_com` raised (in which case there is no reader).
   */
  method NewReader<E>(name: string, dtype: DType, fdim: seq<nat>, comType: string, kwargs: KwArgs, host: Host)
    returns (r: Result<Reader<E>, Error>)
    ensures r.Success? <==> SelectCom(comType, kwargs).Success?
    ensures r.Failure? ==> r.error == SelectCom(comType, kwargs).error
    ensures r.Success? ==> fresh(r.value) && fresh(Footprint(r.value.com))
    ensures r.Success? ==> r.value.name == name && r.value.dtype == dtype && r.value.fdim == fdim
    ensures r.Success? ==> r.value.dataQueue == None && r.value.state == Idle
    ensures r.Success? ==> BuiltFrom(r.value.com, SelectCom(comType, kwargs).value, host)
  {
    var com := CreateCom(comType, kwargs, host);
    match com
    case Failure(e) =>
      r := Failure(e);
    case Success(c) =>
      var reader := new Reader(name, dtype, fdim, c);
      r := Success(reader);
  }
}
