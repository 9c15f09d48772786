/**
 * The transport side of harpoond: the 64-byte command frame that `send`
 * builds, the libusb calls the daemon makes (recorded as a trace), the
 * replies libusb gives to them (oracle inputs), and the call sequences of
 * `send`, `grab_device` and `ungrab_device` as functions of those replies.
 */
module Usb {

  /** An `unsigned char`. */
  type byte = x: int | 0 <= x < 256

  /** BUFFER_SIZE: every frame, written or read, is this long. */
  const FrameSize: nat := 64

  /** A frame as it goes over the wire: exactly FrameSize bytes. */
  type Frame = s: seq<byte> | |s| == FrameSize witness Zeros(FrameSize)

  function Zeros(n: nat): (z: seq<byte>)
    ensures |z| == n && forall i :: 0 <= i < n ==> z[i] == 0
  {
    seq(n, _ => 0)
  }

  function Min(a: int, b: int): int { if a < b then a else b }

  /**
   * C's conversion of a variadic `int` argument to `unsigned char`: the
   * value modulo 256 (Dafny's `%` is Euclidean, as the unsigned conversion is).
   */
  function ToByte(v: int): (b: byte)
    ensures 0 <= v < 256 ==> b == v
    ensures (v - b) % 256 == 0
  {
    v % 256
  }

  /** The number of variadic arguments `send` reads: one per frame byte below `length`. */
  function ArgsRead(length: nat): nat { Min(length, FrameSize) }

  /**
   * The buffer `send` fills: byte i is argument i below `length` (never
   * more than FrameSize arguments), and zero padding from `length` on.
   */
  function BuildFrame(args: seq<int>, length: nat): (f: Frame)
    requires ArgsRead(length) <= |args|
    ensures forall i :: 0 <= i < length && i < FrameSize ==> f[i] == ToByte(args[i])
    ensures forall i :: length <= i < FrameSize ==> f[i] == 0
  {
    seq(FrameSize, i requires 0 <= i < FrameSize => if i < length then ToByte(args[i]) else 0)
  }

  /** `f` carries `payload` in its first bytes and zeros after it. */
  ghost predicate Carries(f: Frame, payload: seq<byte>)
  {
    |payload| <= FrameSize && f[..|payload|] == payload &&
    forall j :: |payload| <= j < FrameSize ==> f[j] == 0
  }

  /** A frame is determined by the payload it carries. */
  lemma CarriesUnique(f: Frame, g: Frame, payload: seq<byte>)
    requires Carries(f, payload) && Carries(g, payload)
    ensures f == g
  {
    forall j | 0 <= j < FrameSize ensures f[j] == g[j] {
      if j < |payload| {
        assert f[j] == f[..|payload|][j] && g[j] == g[..|payload|][j];
      }
    }
  }

  /**
   * When the arguments are byte values and `length` is within the frame,
   * the frame carries exactly the first `length` arguments.
   */
  lemma BuildFrameCarries(args: seq<int>, length: nat)
    requires length <= FrameSize && length <= |args|
    requires forall i :: 0 <= i < length ==> 0 <= args[i] < 256
    ensures Carries(BuildFrame(args, length), args[..length])
  {
    var f := BuildFrame(args, length);
    assert f[..length] == args[..length] by {
      forall i | 0 <= i < length ensures f[..length][i] == args[..length][i] {
        assert f[i] == ToByte(args[i]);
      }
    }
  }

  /** A libusb call the daemon makes. */
  datatype Call =
    | OpenById(vendor: int, product: int)  // libusb_open_device_with_vid_pid at startup
    | GetDescriptor           // libusb_get_device_descriptor in the attach callback
    | Open                    // libusb_open in the attach callback
    | Close                   // libusb_close in the detach callback
    | QueryDriver             // libusb_kernel_driver_active
    | DetachDriver            // libusb_detach_kernel_driver
    | ClaimInterface          // libusb_claim_interface
    | ReleaseInterface        // libusb_release_interface
    | AttachDriver            // libusb_attach_kernel_driver
    | Write(frame: Frame)     // interrupt transfer of a frame to endpoint 0x04 (ENDPOINT_OUT)
    | Read                    // interrupt transfer of a frame from endpoint 0x84 (ENDPOINT_IN)

  /** What libusb reports for the two transfers of one `send`: the byte counts moved. */
  datatype Transfer = Transfer(written: int, read: int)

  /**
   * What libusb answers during `grab_device`: the result of the driver
   * query (1 means a kernel driver is bound) and the return codes of the
   * detach and the claim (negative means failure).
   */
  datatype GrabReplies = GrabReplies(driverActive: int, detach: int, claim: int)

  /** What libusb answers during `ungrab_device`: the release and re-attach return codes. */
  datatype UngrabReplies = UngrabReplies(release: int, attach: int)

  /** The frames written in a trace, in order. */
  function Sent(s: seq<Call>): (fs: seq<Frame>)
    ensures |fs| <= |s|
  {
    if s == [] then []
    else
      var last := s[|s| - 1];
      assert s == s[..|s| - 1] + [last];
      Sent(s[..|s| - 1]) + if last.Write? then [last.frame] else []
  }

  /** A trace without writes sends nothing. */
  lemma {:induction false} SentNoWrites(s: seq<Call>)
    requires forall i :: 0 <= i < |s| ==> !s[i].Write?
    ensures Sent(s) == []
  {
    if s != [] {
      SentNoWrites(s[..|s| - 1]);
    }
  }

  lemma {:induction false} SentAppend(a: seq<Call>, b: seq<Call>)
    ensures Sent(a + b) == Sent(a) + Sent(b)
    decreases |b|
  {
    if b == [] {
      assert a + b == a;
    } else {
      var b' := b[..|b| - 1];
      assert (a + b)[..|a + b| - 1] == a + b';
      SentAppend(a, b');
    }
  }

  /** The calls of one `send` of frame `f`: the write, and the read only after a full write. */
  function SendTrace(f: Frame, t: Transfer): (s: seq<Call>)
    ensures |s| == if t.written < FrameSize then 1 else 2
    ensures s[0] == Write(f)
    ensures Read in s <==> t.written >= FrameSize
    ensures Sent(s) == [f]
  {
    var s := [Write(f)] + if t.written < FrameSize then [] else [Read];
    assert Sent([Write(f)]) == [f] by { assert [Write(f)][..0] == []; }
    SentAppend([Write(f)], if t.written < FrameSize then [] else [Read]);
    s
  }

  /** What `send` returns: 0 when both transfers moved a whole frame, -1 otherwise. */
  function SendResult(t: Transfer): (r: int)
    ensures r == 0 || r == -1
    ensures r == 0 <==> t.written >= FrameSize && t.read >= FrameSize
  {
    if t.written < FrameSize then -1
    else if t.read < FrameSize then -1
    else 0
  }

  /**
   * The calls of `grab_device`: the driver query; the detach only when a
   * kernel driver is bound; the claim unless that detach failed.
   */
  function GrabTrace(g: GrabReplies): (s: seq<Call>)
    ensures |s| == if g.driverActive == 1 && g.detach < 0 then 2 else if g.driverActive == 1 then 3 else 2
    ensures s[0] == QueryDriver
    ensures g.driverActive == 1 ==> s[1] == DetachDriver
    ensures DetachDriver in s <==> g.driverActive == 1
    ensures ClaimInterface in s <==> g.driverActive != 1 || g.detach >= 0
    ensures Sent(s) == []
  {
    var s := [QueryDriver] +
      if g.driverActive == 1 then [DetachDriver] + (if g.detach < 0 then [] else [ClaimInterface])
      else [ClaimInterface];
    SentNoWrites(s);
    s
  }

  /** What `grab_device` returns: the failing return code, or 0 once the claim succeeded. */
  function GrabResult(g: GrabReplies): (r: int)
    ensures r <= 0
    ensures r == 0 <==> ClaimInterface in GrabTrace(g) && g.claim >= 0
    ensures g.driverActive == 1 && g.detach < 0 ==> r == g.detach
    ensures ClaimInterface in GrabTrace(g) && g.claim < 0 ==> r == g.claim
  {
    if g.driverActive == 1 && g.detach < 0 then g.detach
    else if g.claim < 0 then g.claim
    else 0
  }

  /** The calls of `ungrab_device`: the release, and the driver re-attach only after a successful release. */
  function UngrabTrace(u: UngrabReplies): (s: seq<Call>)
    ensures |s| == if u.release < 0 then 1 else 2
    ensures s[0] == ReleaseInterface
    ensures AttachDriver in s <==> u.release >= 0
    ensures Sent(s) == []
  {
    var s := [ReleaseInterface] + if u.release < 0 then [] else [AttachDriver];
    SentNoWrites(s);
    s
  }

  /** What `ungrab_device` returns: the failing return code, or 0 once both steps succeeded. */
  function UngrabResult(u: UngrabReplies): (r: int)
    ensures r <= 0
    ensures r == 0 <==> u.release >= 0 && u.attach >= 0
    ensures u.release < 0 ==> r == u.release
    ensures u.release >= 0 && u.attach < 0 ==> r == u.attach
  {
    if u.release < 0 then u.release
    else if u.attach < 0 then u.attach
    else 0
  }
}
