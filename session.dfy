/**
 * The device session of harpoond: the `Device` record the daemon mutates
 * (type, command prefix, handle, initialized flag), the startup lookup,
 * the hotplug callbacks, and the initialization and keep-alive sequences
 * run over the Usb transport.
 *
 * Every libusb call is recorded in the ghost `trace` of the device; the
 * frames the daemon sends are `Sent(trace)`. What libusb answers is passed
 * in as reply values, one per call site.
 */
module Session {
  import opened Usb

  const VendorId := 0x1b1c
  const WiredProductId := 0x1b5e
  const DongleProductId := 0x1b65
  const WiredPrefix: byte := 0x08
  const DonglePrefix: byte := 0x09

  /** DeviceType: which variant of the mouse is connected, if any. */
  datatype DeviceType = None | Wired | Dongle

  /** The variant an attached device is classified as, by its product id. */
  function KindOf(productId: int): (k: DeviceType)
    ensures k != None
    ensures k == Wired <==> productId == WiredProductId
  {
    if productId == WiredProductId then Wired else Dongle
  }

  /** The prefix byte an attached device is given, by its product id. */
  function PrefixFor(productId: int): (p: byte)
    ensures KindOf(productId) == Wired ==> p == WiredPrefix
    ensures KindOf(productId) == Dongle ==> p == DonglePrefix
  {
    if productId == WiredProductId then WiredPrefix else DonglePrefix
  }

  // The arguments of the `send` calls of the initialization and keep-alive sequences.

  /** The first init frame: literal 0x08, whatever the variant. */
  const WakeWiredArgs: seq<int> := [0x08, 0x01, 0x03, 0x00, 0x02]
  /** The second init frame, sent to a dongle only. */
  const WakeDongleArgs: seq<int> := [0x09, 0x01, 0x03, 0x00, 0x02]
  function ModeArgs(prefix: byte): seq<int> { [prefix, 0x0d, 0x00, 0x01] }
  /**
   * The LED configuration: thirteen values (indicator red, main red,
   * indicator green 0xff, main green, indicator blue, main blue after the
   * seven header bytes), passed with length 12.
   */
  function LedArgs(prefix: byte): seq<int>
  {
    [prefix, 0x06, 0x00, 0x06, 0x00, 0x00, 0x00, 0x00, 0x00, 0xff, 0x00, 0x00, 0x00]
  }
  const LedLength: nat := 12
  /** The DPI frame: no command prefix, and the bytes 0x08, 0x70 as written. */
  const DpiArgs: seq<int> := [0x01, 0x20, 0x00, 0x08, 0x70]
  function KeepAliveArgs(prefix: byte): seq<int> { [prefix, 0x12] }

  /** The frames of the initialization sequence, in the order they are sent. */
  function InitFrames(kind: DeviceType, prefix: byte): (fs: seq<Frame>)
    ensures |fs| == if kind == Dongle then 5 else 4
  {
    var woken := [BuildFrame(WakeWiredArgs, 5)];
    var woken' := if kind == Dongle then woken + [BuildFrame(WakeDongleArgs, 5)] else woken;
    woken' + [BuildFrame(ModeArgs(prefix), 4)] + [BuildFrame(LedArgs(prefix), LedLength)] + [BuildFrame(DpiArgs, 5)]
  }

  /** The keep-alive frame: the prefix, then 0x12. */
  function KeepAliveFrame(prefix: byte): (f: Frame)
    ensures Carries(f, [prefix, 0x12])
  {
    BuildFrameCarries(KeepAliveArgs(prefix), 2);
    assert KeepAliveArgs(prefix)[..2] == KeepAliveArgs(prefix);
    BuildFrame(KeepAliveArgs(prefix), 2)
  }

  /** The exact bytes of every init frame. */
  lemma InitFramesBytes(kind: DeviceType, prefix: byte)
    ensures var fs, k := InitFrames(kind, prefix), if kind == Dongle then 1 else 0;
      && Carries(fs[0], [0x08, 0x01, 0x03, 0x00, 0x02])
      && (kind == Dongle ==> Carries(fs[1], [0x09, 0x01, 0x03, 0x00, 0x02]))
      && Carries(fs[k + 1], [prefix, 0x0d, 0x00, 0x01])
      && Carries(fs[k + 2], [prefix, 0x06, 0x00, 0x06, 0x00, 0x00, 0x00, 0x00, 0x00, 0xff, 0x00, 0x00])
      && Carries(fs[k + 3], [0x01, 0x20, 0x00, 0x08, 0x70])
  {
    BuildFrameCarries(WakeWiredArgs, 5);
    BuildFrameCarries(WakeDongleArgs, 5);
    BuildFrameCarries(ModeArgs(prefix), 4);
    BuildFrameCarries(LedArgs(prefix), LedLength);
    BuildFrameCarries(DpiArgs, 5);
    assert WakeWiredArgs[..5] == WakeWiredArgs;
    assert WakeDongleArgs[..5] == WakeDongleArgs;
    assert ModeArgs(prefix)[..4] == ModeArgs(prefix);
    assert DpiArgs[..5] == DpiArgs;
  }

  /**
   * The LED call reads 12 of its 13 values: its frame is the one built
   * from the first twelve, with green 0xff at byte 9 and padding at byte 12.
   */
  lemma LedFrameIgnoresLastValue(prefix: byte)
    ensures BuildFrame(LedArgs(prefix), LedLength) == BuildFrame(LedArgs(prefix)[..LedLength], LedLength)
    ensures BuildFrame(LedArgs(prefix), LedLength)[9] == 0xff
    ensures BuildFrame(LedArgs(prefix), LedLength)[12] == 0
  {
  }

  /** What libusb answers during one `init_device`, call site by call site. */
  datatype InitReplies = InitReplies(
    grab: GrabReplies,
    wakeWired: Transfer,
    wakeDongle: Transfer,  // consulted for a dongle only
    mode: Transfer,
    led: Transfer,
    dpi: Transfer,
    ungrab: UngrabReplies)

  /**
   * The trace after `init_device` has run on a device with a handle and a
   * type, starting from trace `s`: the grab, the four or five sends, the ungrab.
   */
  function InitTrace(s: seq<Call>, kind: DeviceType, prefix: byte, r: InitReplies): (t: seq<Call>)
    ensures |s| < |t| && t[..|s|] == s
    ensures t[|s|] == QueryDriver
  {
    var woken := s + GrabTrace(r.grab) + SendTrace(BuildFrame(WakeWiredArgs, 5), r.wakeWired);
    var woken' := if kind == Dongle then woken + SendTrace(BuildFrame(WakeDongleArgs, 5), r.wakeDongle) else woken;
    woken'
    + SendTrace(BuildFrame(ModeArgs(prefix), 4), r.mode)
    + SendTrace(BuildFrame(LedArgs(prefix), LedLength), r.led)
    + SendTrace(BuildFrame(DpiArgs, 5), r.dpi)
    + UngrabTrace(r.ungrab)
  }

  /** The trace that `init_device` builds call by call is InitTrace. */
  lemma InitTraceSteps(s: seq<Call>, kind: DeviceType, prefix: byte, r: InitReplies,
                       grabbed: seq<Call>, woken: seq<Call>, woken': seq<Call>, moded: seq<Call>,
                       lit: seq<Call>, configured: seq<Call>, ungrabbed: seq<Call>)
    requires grabbed == s + GrabTrace(r.grab)
    requires woken == grabbed + SendTrace(BuildFrame(WakeWiredArgs, 5), r.wakeWired)
    requires woken' == if kind == Dongle then woken + SendTrace(BuildFrame(WakeDongleArgs, 5), r.wakeDongle) else woken
    requires moded == woken' + SendTrace(BuildFrame(ModeArgs(prefix), 4), r.mode)
    requires lit == moded + SendTrace(BuildFrame(LedArgs(prefix), LedLength), r.led)
    requires configured == lit + SendTrace(BuildFrame(DpiArgs, 5), r.dpi)
    requires ungrabbed == configured + UngrabTrace(r.ungrab)
    ensures ungrabbed == InitTrace(s, kind, prefix, r)
  {
  }

  /** The trace after `init_device`: unchanged for a device without a handle or type. */
  function InitCallTrace(s: seq<Call>, kind: DeviceType, prefix: byte, handle: bool, r: InitReplies): (t: seq<Call>)
    ensures t == s <==> !handle || kind == None
    ensures |s| <= |t| && t[..|s|] == s
  {
    if !handle || kind == None then s else InitTrace(s, kind, prefix, r)
  }

  /** `t` ends with the calls `u`. */
  ghost predicate EndsWith(t: seq<Call>, u: seq<Call>)
  {
    |u| <= |t| && t[|t| - |u|..] == u
  }

  /**
   * Whatever libusb answers, `init_device` sends exactly the init frames
   * (so a retry sends the same sequence), and it ends with the ungrab,
   * whose first call is the release, also after a failed grab or transfer.
   */
  lemma InitTraceSent(s: seq<Call>, kind: DeviceType, prefix: byte, r: InitReplies)
    ensures Sent(InitTrace(s, kind, prefix, r)) == Sent(s) + InitFrames(kind, prefix)
    ensures EndsWith(InitTrace(s, kind, prefix, r), UngrabTrace(r.ungrab))
  {
    SentInitShape(s, GrabTrace(r.grab), UngrabTrace(r.ungrab), kind == Dongle,
      BuildFrame(WakeWiredArgs, 5), BuildFrame(WakeDongleArgs, 5), BuildFrame(ModeArgs(prefix), 4),
      BuildFrame(LedArgs(prefix), LedLength), BuildFrame(DpiArgs, 5),
      r.wakeWired, r.wakeDongle, r.mode, r.led, r.dpi);
  }

  /** The frames of a trace extended by a grab, four or five sends and an ungrab, for frames left abstract. */
  lemma SentInitShape(s: seq<Call>, g: seq<Call>, u: seq<Call>, dongle: bool,
                      f0: Frame, f1: Frame, f2: Frame, f3: Frame, f4: Frame,
                      t0: Transfer, t1: Transfer, t2: Transfer, t3: Transfer, t4: Transfer)
    requires Sent(g) == [] && Sent(u) == []
    ensures var woken := s + g + SendTrace(f0, t0);
            var woken' := if dongle then woken + SendTrace(f1, t1) else woken;
            var sent := if dongle then [f0] + [f1] else [f0];
            Sent(woken' + SendTrace(f2, t2) + SendTrace(f3, t3) + SendTrace(f4, t4) + u)
            == Sent(s) + (sent + [f2] + [f3] + [f4])
  {
    var a0, a1, a2, a3, a4 := SendTrace(f0, t0), SendTrace(f1, t1), SendTrace(f2, t2), SendTrace(f3, t3), SendTrace(f4, t4);
    var woken := s + g + a0;
    var woken' := if dongle then woken + a1 else woken;
    var sent := if dongle then [f0] + [f1] else [f0];
    assert Sent(woken) == Sent(s) + [f0] by {
      SentAppend(s, g);
      SentAppend(s + g, a0);
    }
    assert Sent(woken') == Sent(s) + sent by {
      if dongle {
        SentAppend(woken, a1);
        Assoc3(Sent(s), [f0], [f1]);
      }
    }
    calc {
      Sent(woken' + a2 + a3 + a4 + u);
      { SentAppend(woken' + a2 + a3 + a4, u); }
      Sent(woken' + a2 + a3 + a4);
      { SentAppend(woken' + a2 + a3, a4); }
      Sent(woken' + a2 + a3) + [f4];
      { SentAppend(woken' + a2, a3); }
      Sent(woken' + a2) + [f3] + [f4];
      { SentAppend(woken', a2); }
      Sent(s) + sent + [f2] + [f3] + [f4];
      { Assoc4(Sent(s), sent, [f2], [f3], [f4]); }
      Sent(s) + (sent + [f2] + [f3] + [f4]);
    }
  }

  lemma Assoc4<T>(a: seq<T>, b: seq<T>, c: seq<T>, d: seq<T>, e: seq<T>)
    ensures a + b + c + d + e == a + (b + c + d + e)
  {
  }

  /** What libusb answers during one `keep_alive`. */
  datatype KeepAliveReplies = KeepAliveReplies(
    init: InitReplies,  // consulted only when the device is not initialized
    grab: GrabReplies,
    keepAlive: Transfer,
    ungrab: UngrabReplies)

  /** The trace after `keep_alive` has run, starting from trace `s`. */
  function KeepAliveTrace(s: seq<Call>, kind: DeviceType, prefix: byte, handle: bool, initialized: bool,
                          r: KeepAliveReplies): (t: seq<Call>)
    ensures t == s <==> kind == None
    ensures |s| <= |t| && t[..|s|] == s
  {
    if kind == None then s
    else
      var afterInit := if initialized then s else InitCallTrace(s, kind, prefix, handle, r.init);
      var afterGrab := afterInit + GrabTrace(r.grab);
      if GrabResult(r.grab) < 0 then afterGrab
      else afterGrab + SendTrace(KeepAliveFrame(prefix), r.keepAlive) + UngrabTrace(r.ungrab)
  }

  /** The frames `keep_alive` sends. */
  function KeepAliveFrames(kind: DeviceType, prefix: byte, handle: bool, initialized: bool,
                           grab: GrabReplies): (fs: seq<Frame>)
    ensures kind == None ==> fs == []
    ensures kind != None && (initialized || !handle) ==>
      (fs == [KeepAliveFrame(prefix)] <==> GrabResult(grab) == 0) && (fs == [] <==> GrabResult(grab) != 0)
    ensures kind != None && !initialized && handle ==>
      |InitFrames(kind, prefix)| <= |fs| && fs[..|InitFrames(kind, prefix)|] == InitFrames(kind, prefix)
    ensures kind != None && GrabResult(grab) == 0 ==> |fs| > 0 && fs[|fs| - 1] == KeepAliveFrame(prefix)
  {
    if kind == None then []
    else (if !initialized && handle then InitFrames(kind, prefix) else [])
         + (if GrabResult(grab) == 0 then [KeepAliveFrame(prefix)] else [])
  }

  /**
   * `keep_alive` sends nothing without a device; the init sequence first
   * when the device is not initialized; then the keep-alive frame, in the
   * same call, exactly when the grab succeeds.
   */
  lemma KeepAliveSent(s: seq<Call>, kind: DeviceType, prefix: byte, handle: bool,
                      initialized: bool, r: KeepAliveReplies)
    ensures Sent(KeepAliveTrace(s, kind, prefix, handle, initialized, r)) ==
            Sent(s) + KeepAliveFrames(kind, prefix, handle, initialized, r.grab)
  {
    if kind != None {
      var afterInit := if initialized then s else InitCallTrace(s, kind, prefix, handle, r.init);
      var i := if !initialized && handle then InitFrames(kind, prefix) else [];
      assert Sent(afterInit) == Sent(s) + i by {
        if !initialized && handle {
          InitTraceSent(s, kind, prefix, r.init);
        }
      }
      SentGrabSendShape(s, afterInit, i, GrabTrace(r.grab), SendTrace(KeepAliveFrame(prefix), r.keepAlive),
                        UngrabTrace(r.ungrab), KeepAliveFrame(prefix), GrabResult(r.grab) < 0);
    }
  }

  /** The frames of a trace extended by a grab and, unless it failed, a send and an ungrab, for calls left abstract. */
  lemma SentGrabSendShape(s: seq<Call>, t: seq<Call>, i: seq<Frame>, g: seq<Call>, a: seq<Call>,
                          u: seq<Call>, f: Frame, failed: bool)
    requires Sent(t) == Sent(s) + i
    requires Sent(g) == [] && Sent(a) == [f] && Sent(u) == []
    ensures Sent(if failed then t + g else t + g + a + u) == Sent(s) + (i + if failed then [] else [f])
  {
    SentAppend(t, g);
    if !failed {
      SentAppend(t + g, a);
      SentAppend(t + g + a, u);
      Assoc3(Sent(s), i, [f]);
    }
  }

  /**
   * `keep_alive` on a device ends with the release of the interface
   * exactly when its own grab succeeded; a failed grab ends the call,
   * without the keep-alive frame and without an ungrab.
   */
  lemma KeepAliveUngrabs(s: seq<Call>, kind: DeviceType, prefix: byte, handle: bool, initialized: bool,
                         r: KeepAliveReplies)
    requires kind != None
    ensures GrabResult(r.grab) < 0 ==> EndsWith(KeepAliveTrace(s, kind, prefix, handle, initialized, r), GrabTrace(r.grab))
    ensures EndsWith(KeepAliveTrace(s, kind, prefix, handle, initialized, r), UngrabTrace(r.ungrab))
            <==> GrabResult(r.grab) == 0
  {
    var afterInit := if initialized then s else InitCallTrace(s, kind, prefix, handle, r.init);
    if GrabResult(r.grab) < 0 {
      EndsWithGrab(afterInit, r.grab, r.ungrab);
    } else {
      var t := afterInit + GrabTrace(r.grab) + SendTrace(KeepAliveFrame(prefix), r.keepAlive);
      assert (t + UngrabTrace(r.ungrab))[|t|..] == UngrabTrace(r.ungrab);
    }
  }

  /** A trace extended by a grab ends with that grab, and so not with the calls of an ungrab. */
  lemma EndsWithGrab(t: seq<Call>, g: GrabReplies, u: UngrabReplies)
    ensures EndsWith(t + GrabTrace(g), GrabTrace(g))
    ensures !EndsWith(t + GrabTrace(g), UngrabTrace(u))
  {
    assert (t + GrabTrace(g))[|t|..] == GrabTrace(g);
  }

  lemma Assoc3<T>(a: seq<T>, b: seq<T>, c: seq<T>)
    ensures a + b + c == a + (b + c)
  {
  }

  /** The session record the daemon keeps for its one device. */
  class Device {
    var kind: DeviceType
    var commandPrefix: byte
    /** Whether `handle` is a libusb device handle rather than NULL. */
    var handle: bool
    var initialized: bool
    /** Every libusb call made for this device, in order. */
    ghost var trace: seq<Call>

    /**
     * The session invariant: the prefix matches the variant, and a handle
     * is held exactly while a variant is connected.
     */
    ghost predicate Valid()
      reads this`kind, this`commandPrefix, this`handle
    {
      && (kind == Wired ==> commandPrefix == WiredPrefix)
      && (kind == Dongle ==> commandPrefix == DonglePrefix)
      && (handle <==> kind != None)
    }

    /**
     * The device lookup at startup: the wired mouse first, then the
     * dongle; with neither found the type is None (and the prefix is left
     * at the dongle's).
     */
    constructor Lookup(wiredFound: bool, dongleFound: bool)
      ensures kind == (if wiredFound then Wired else if dongleFound then Dongle else None)
      ensures commandPrefix == if wiredFound then WiredPrefix else DonglePrefix
      ensures handle == (wiredFound || dongleFound)
      ensures !initialized
      ensures trace == [OpenById(VendorId, WiredProductId)] + if wiredFound then [] else [OpenById(VendorId, DongleProductId)]
      ensures Valid()
    {
      initialized := false;
      commandPrefix := WiredPrefix;
      kind := Wired;
      handle := wiredFound;
      trace := [OpenById(VendorId, WiredProductId)];
      new;
      if !handle {
        commandPrefix := DonglePrefix;
        kind := Dongle;
        handle := dongleFound;
        trace := trace + [OpenById(VendorId, DongleProductId)];
      }
      if !handle {
        kind := None;
      }
    }

    /**
     * `send`: fills a 64-byte buffer from the arguments, writes it, and
     * reads the reply only after a full write.
     */
    method Send(length: nat, args: seq<int>, t: Transfer) returns (r: int)
      requires ArgsRead(length) <= |args|
      modifies this`trace
      ensures trace == old(trace) + SendTrace(BuildFrame(args, length), t)
      ensures r == SendResult(t)
    {
      var buffer := new byte[FrameSize];
      for i := 0 to FrameSize
        invariant forall k :: 0 <= k < i ==> buffer[k] == BuildFrame(args, length)[k]
        invariant trace == old(trace)
      {
        buffer[i] := if i < length then ToByte(args[i]) else 0;
      }
      ghost var f: Frame := buffer[..];
      assert f == BuildFrame(args, length);
      SentAppend(trace, SendTrace(f, t));
      trace := trace + [Write(f)];
      if t.written < FrameSize {
        assert SendTrace(f, t) == [Write(f)];
        return -1;
      }
      Assoc3(old(trace), [Write(f)], [Read]);
      trace := trace + [Read];
      if t.read < FrameSize {
        return -1;
      }
      return 0;
    }

    /** `grab_device`: takes the interface from the kernel driver and claims it. */
    method Grab(g: GrabReplies) returns (r: int)
      modifies this`trace
      ensures trace == old(trace) + GrabTrace(g)
      ensures r == GrabResult(g)
    {
      trace := trace + [QueryDriver];
      if g.driverActive == 1 {
        trace := trace + [DetachDriver];
        r := g.detach;
        if r < 0 {
          return;
        }
      }
      trace := trace + [ClaimInterface];
      r := g.claim;
      if r < 0 {
        return;
      }
      return 0;
    }

    /** `ungrab_device`: releases the interface and gives it back to the kernel driver. */
    method Ungrab(u: UngrabReplies) returns (r: int)
      modifies this`trace
      ensures trace == old(trace) + UngrabTrace(u)
      ensures r == UngrabResult(u)
    {
      trace := trace + [ReleaseInterface];
      r := u.release;
      if r < 0 {
        return;
      }
      trace := trace + [AttachDriver];
      r := u.attach;
      if r < 0 {
        return;
      }
      return 0;
    }

    /**
     * `init_device`: on a device with a handle and a type, grabs, sends
     * the init frames, ungrabs and marks the device initialized, ignoring
     * every return code; otherwise does nothing.
     */
    method InitDevice(r: InitReplies)
      modifies this`trace, this`initialized
      ensures trace == InitCallTrace(old(trace), old(kind), old(commandPrefix), old(handle), r)
      ensures Sent(trace) == Sent(old(trace)) + if old(handle) && old(kind) != None then InitFrames(old(kind), old(commandPrefix)) else []
      ensures initialized == (old(initialized) || (old(handle) && old(kind) != None))
    {
      if !handle || kind == None {
        return;
      }
      var k, p := kind, commandPrefix;
      var rc := Grab(r.grab);
      ghost var grabbed := trace;
      rc := Send(5, WakeWiredArgs, r.wakeWired);
      ghost var woken := trace;
      if k == Dongle {
        rc := Send(5, WakeDongleArgs, r.wakeDongle);
      }
      ghost var woken' := trace;
      rc := Send(4, ModeArgs(p), r.mode);
      ghost var moded := trace;
      rc := Send(LedLength, LedArgs(p), r.led);
      ghost var lit := trace;
      rc := Send(5, DpiArgs, r.dpi);
      ghost var configured := trace;
      rc := Ungrab(r.ungrab);
      initialized := true;
      InitTraceSteps(old(trace), k, p, r, grabbed, woken, woken', moded, lit, configured, trace);
      InitTraceSent(old(trace), k, p, r);
    }

    /**
     * `attach_cb`: after a successful descriptor read and open, classifies
     * the device by product id and marks it uninitialized; after a failure
     * leaves the session as it was.
     */
    method AttachCb(descriptorRc: int, openRc: int, productId: int)
      modifies this`kind, this`commandPrefix, this`handle, this`initialized, this`trace
      ensures trace == old(trace) + [GetDescriptor] + if descriptorRc < 0 then [] else [Open]
      ensures descriptorRc < 0 || openRc < 0 ==>
        kind == old(kind) && commandPrefix == old(commandPrefix) && handle == old(handle) && initialized == old(initialized)
      ensures descriptorRc >= 0 && openRc >= 0 ==>
        handle && kind == KindOf(productId) && commandPrefix == PrefixFor(productId) && !initialized
      ensures old(Valid()) ==> Valid()
      ensures descriptorRc >= 0 && openRc >= 0 ==> Valid()
    {
      trace := trace + [GetDescriptor];
      if descriptorRc < 0 {
        return;
      }
      trace := trace + [Open];
      if openRc < 0 {
        return;
      }
      handle := true;
      kind := if productId == WiredProductId then Wired else Dongle;
      commandPrefix := if productId == WiredProductId then WiredPrefix else DonglePrefix;
      initialized := false;
    }

    /** `detach_cb`: closes the handle and forgets the device type. */
    method DetachCb()
      modifies this`kind, this`handle, this`trace
      ensures kind == None && !handle
      ensures commandPrefix == old(commandPrefix) && initialized == old(initialized)
      ensures trace == old(trace) + [Close]
      ensures Valid()
    {
      kind := None;
      trace := trace + [Close];
      handle := false;
    }

    /**
     * `keep_alive`: without a device does nothing; otherwise initializes
     * an uninitialized device first, then grabs, sends the keep-alive
     * frame and ungrabs, skipping both when the grab fails.
     */
    method KeepAlive(r: KeepAliveReplies)
      modifies this`trace, this`initialized
      ensures trace == KeepAliveTrace(old(trace), old(kind), old(commandPrefix), old(handle), old(initialized), r)
      ensures Sent(trace) ==
              Sent(old(trace)) + KeepAliveFrames(old(kind), old(commandPrefix), old(handle), old(initialized), r.grab)
      ensures initialized == (old(initialized) || (old(kind) != None && old(handle)))
    {
      if kind == None {
        return;
      }
      var p := commandPrefix;
      if !initialized {
        InitDevice(r.init);
      }
      var rc := Grab(r.grab);
      if rc >= 0 {
        rc := Send(2, KeepAliveArgs(p), r.keepAlive);
        rc := Ungrab(r.ungrab);
      }
      KeepAliveSent(old(trace), old(kind), p, old(handle), old(initialized), r);
    }
  }
}
