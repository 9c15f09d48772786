# harpoond, modelled in Dafny

harpoond is a small libusb daemon that keeps a two-mode (wired or
wireless-dongle) mouse configured. At startup it looks for the wired mouse,
then the dongle. On hotplug events it records the device or forgets it. In
its main loop it calls `keep_alive`, which first initializes a device that is
not yet initialized and then sends a keep-alive frame. Every command travels
as a 64-byte interrupt frame written to endpoint 0x04. Only after a full
write does `send` read a 64-byte reply from endpoint 0x84. The sends are
bracketed by a grab of interface 1 and an ungrab: `init_device` puts one
grab and one ungrab around its four or five sends, and `keep_alive` puts
them around its single send. The grab detaches the kernel driver only when
one is active, then claims the interface. The ungrab releases the interface,
then re-attaches the driver.

The model has two modules:

- `Usb` (usb.dfy) models the transport:
  - the byte type and the 64-byte `Frame`;
  - the frame builder of `send`;
  - the libusb calls the daemon makes, as a `Call` datatype;
  - what libusb answers, as reply datatypes (`Transfer`, `GrabReplies`, `UngrabReplies`);
  - the calls and the return codes of `send`, `grab_device` and `ungrab_device`, as functions of those replies;
  - `Sent`, which projects a call trace to the frames it writes.
- `Session` (session.dfy) models the device:
  - the constants (vendor and product ids, command prefixes) and the session record, as the class `Device`;
  - the fields `kind`, `commandPrefix`, `handle` (present or NULL, as a `bool`) and `initialized`, which are updated in place;
  - a ghost `trace` that records every libusb call made for this device, in order, so that `Sent(trace)` is the log of every frame sent;
  - `Lookup` (the device lookup of `main`), `Send`, `Grab`, `Ungrab`, `InitDevice`, `AttachCb`, `DetachCb` and `KeepAlive` as methods;
  - each method's new trace stated as a function of the old trace and the replies, with lemmas about those functions.

Each libusb primitive is an oracle input: transferred byte counts, return
codes, the kernel-driver-active flag, descriptor and open success, and the
product id. `Send` fills a real 64-element array with an index loop, as
line 41 does.

The model follows the code where it differs from the evident design:

- `init_device` checks no return value. It marks the device initialized
  even when the grab or a transfer failed, and it sends the same frames
  whatever libusb answers (`InitTraceSent`).
- `keep_alive` on an uninitialized device runs the whole init sequence and
  then, in the same call, grabs again and sends the keep-alive frame.
- The first init frame starts with the literal byte 0x08, for the dongle too.
- The DPI frame has no command prefix. It is the literal
  `0x01 0x20 0x00 0x08 0x70`, and its last two bytes are kept as constants,
  not as an encoding of a DPI value.
- The LED call passes 13 values with length 12. The last value is never
  read, and byte 12 of the frame is padding (`LedFrameIgnoresLastValue`).

## Model

| member | source | states |
|---|---|---|
| Usb.ToByte | harpoond.c:42 | an `int` argument stored in the `unsigned char` buffer keeps values below 256 and is otherwise reduced modulo 256 |
| Usb.BuildFrame | harpoond.c:41-42 | the buffer `send` fills: byte i of the 64-byte frame is argument i (as a byte) for i below `length`, and 0 from `length` up to 64 |
| Usb.BuildFrameCarries | harpoond.c:41-42 | with `length` at most 64 and byte-valued arguments, the frame carries exactly the first `length` arguments followed by zeros |
| Usb.CarriesUnique | harpoond.c:41-42 | two frames that carry the same payload are equal, so a frame is fixed by its payload |
| Usb.SendTrace | harpoond.c:45-55 | `send` writes its frame first; it reads only when the write moved 64 bytes; it writes exactly one frame |
| Usb.SendResult | harpoond.c:46-57 | `send` returns 0 or -1, and 0 exactly when both the write and the read moved 64 bytes |
| Usb.GrabTrace | harpoond.c:64-72 | the driver query comes first, directly followed by the detach when a kernel driver is active; the detach happens exactly then; the claim happens unless the detach failed; the length pins the sequence; no frame is sent |
| Usb.GrabResult | harpoond.c:64-78 | `grab_device` returns 0 exactly when the claim was attempted and succeeded; after a failed detach it returns the detach code, and after a failed claim the claim code |
| Usb.UngrabTrace | harpoond.c:85-91 | the release comes first; the driver re-attach happens exactly when the release succeeded; no frame is sent |
| Usb.UngrabResult | harpoond.c:85-97 | `ungrab_device` returns 0 exactly when release and re-attach both succeeded; after a failed release it returns the release code, and after a failed re-attach the re-attach code |
| Session.KindOf | harpoond.c:158 | an attached device is never NONE, and is WIRED exactly when its product id is 0x1b5e |
| Session.PrefixFor | harpoond.c:159 | an attached device gets prefix 0x08 when classified WIRED and 0x09 when classified DONGLE |
| Session.InitFrames | harpoond.c:110-125 | the init sequence has 5 frames for a dongle and 4 otherwise |
| Session.InitFramesBytes | harpoond.c:110-125 | the exact payload of each init frame: literal 0x08 wake-up, the dongle's 0x09 wake-up (dongle only), the prefixed mode frame, the LED frame, the unprefixed DPI frame |
| Session.LedFrameIgnoresLastValue | harpoond.c:116-123 | the LED frame is built from its first 12 values only, has green 0xff at byte 9 and padding 0 at byte 12 |
| Session.KeepAliveFrame | harpoond.c:189 | the keep-alive frame carries the command prefix, then 0x12, then zeros |
| Session.InitTrace | harpoond.c:107-127 | `init_device` on a device only appends calls to the trace, and the first of them is the driver query of the grab |
| Session.InitCallTrace | harpoond.c:102-127 | `init_device` leaves the trace unchanged exactly when the handle is NULL or the type is NONE, and otherwise only appends calls |
| Session.InitTraceSent | harpoond.c:107-127 | whatever libusb answers, `init_device` sends exactly the init frames and finishes with the ungrab |
| Session.KeepAliveTrace | harpoond.c:185-190 | `keep_alive` leaves the trace unchanged exactly when the type is NONE, and otherwise only appends calls |
| Session.KeepAliveFrames | harpoond.c:185-190 | no frames without a device; on an initialized device (or one without a handle) just the keep-alive frame when the grab succeeds, and nothing when it fails; on an uninitialized device with a handle the init frames come first; the keep-alive frame is last whenever the grab succeeds |
| Session.KeepAliveSent | harpoond.c:185-190 | `keep_alive` sends nothing without a device; it sends the init frames first when the device is uninitialized with a handle; it then sends the keep-alive frame exactly when its grab succeeds |
| Session.KeepAliveUngrabs | harpoond.c:188-190 | on a device, `keep_alive` ends with the ungrab exactly when its own grab succeeded; after a failed grab it ends with that grab |
| Session.Device.Valid | harpoond.c:158-159 | the session invariant: type WIRED has prefix 0x08, type DONGLE has prefix 0x09, and a handle is held exactly while the type is not NONE; it reads only those three fields |
| Session.Device.Lookup | harpoond.c:208-222 | startup tries the wired id first, then the dongle id; the type is WIRED, DONGLE or NONE accordingly, the prefix matches, the device is uninitialized, and the session invariant holds |
| Session.Device.Send | harpoond.c:33-58 | the buffer filled by the loop is the frame of the arguments; the new trace adds the write and, after a full write, the read; the result is `SendResult` |
| Session.Device.Grab | harpoond.c:60-79 | the new trace adds the calls of `GrabTrace`, and the result is `GrabResult` |
| Session.Device.Ungrab | harpoond.c:81-98 | the new trace adds the calls of `UngrabTrace`, and the result is `UngrabResult` |
| Session.Device.InitDevice | harpoond.c:100-130 | without a handle or type it makes no call and changes nothing; otherwise it adds the init trace, sends the init frames and sets `initialized`, whatever the replies |
| Session.Device.AttachCb | harpoond.c:132-163 | after a failed descriptor read or open, type, prefix, handle and `initialized` are unchanged; otherwise the device is classified by product id, holds a handle and is uninitialized; the session invariant is preserved |
| Session.Device.DetachCb | harpoond.c:165-181 | the type becomes NONE and the handle NULL after a close; prefix and `initialized` are untouched |
| Session.Device.KeepAlive | harpoond.c:183-191 | the new trace is `KeepAliveTrace` and the frames sent are `KeepAliveFrames`; `initialized` is set exactly when a device with a handle was present |

## Left out

- libusb itself: its semantics are not visible. Each call the device code makes is a `Call` in the trace, and its result is an oracle input. These are the startup opens, the descriptor read, open, close, the driver and interface calls, and the transfers. The interface number 1 and the endpoints 0x04 and 0x84 are fixed, so `Call` does not carry them.
- `libusb_init` and `libusb_exit` are left out entirely, and so is the early return of `main` when `libusb_init` fails (lines 202-203).
- `libusb_has_capability` and the hotplug registration calls are not in the trace, and neither is the teardown `libusb_close`.
- A failed `libusb_open` is assumed to leave the handle as it was. libusb writes the handle only on success, and that code is not part of this model.
- Hotplug registration and deregistration, and the event pump `libusb_handle_events_timeout_completed`: the callbacks are modelled, but not how the library delivers them.
- The signal handler, the `volatile RUNNING` flag, `sleep(2)` and the `while (RUNNING)` loop of `main`: these are concurrency and wall-clock behaviour. Each iteration of that loop is one `KeepAlive` call.
- All `printf` and `fprintf` logging: it is advisory output.
- Teardown in `main` (lines 268-274): it is resource release through libusb.
- The contents of the 64-byte response read back by `send`: they are discarded. The model keeps only the byte counts.
- The transfer timeout of 100 ms: a timeout is one way a transfer can move fewer than 64 bytes, which `Transfer` covers.
- Session.Device.Send: requires only that the arguments cover the bytes the loop reads (`min(length, 64)`), which is more general than requiring `length <= 64`. Reading a variadic argument that was not passed is undefined in C, so the model does not cover it.
