# supervisor, modelled in Dafny

The supervisor coordinates a swarm-robotics arena made of drones, Pi-Pucks and
BuilderBots. A Rust back end discovers the robots' XBee and Fernbedienung (SSH-like)
devices on the network, pairs each device with the robot whose MAC address it carries,
uploads the ARGoS control software to the robots, then starts and stops experiments. Its
message router relays the Lua tables that the robots broadcast to each other, and its
journal records everything that happens during an experiment. The web UI translates
browser requests into robot actions, and browser clients keep a status record for each
robot. A Python script regroups a recorded journal for offline analysis.

This project models the parts of that system that have a definite meaning, and proves
what they promise. It has one Dafny module per source file, plus three shared helpers:

- **Wire formats:**
  - `Router`: the router's length-prefixed frame codec and the decoder of serialised Lua tables.
  - `MavCodec`: the MAVLink 2 frame extractor, with its CRC-16/MCRF4XX check.
  - `Xbee` and `Discovery`: the XBee remote-AT packet, and the stand-alone discovery tool's device table.
  - `SshShell`, `NetSsh` and `RobotSsh`: the marker-framed shell output, the scp header and the `md5sum` listing of the SSH drivers.
- **Drone power:** `DroneTask` and `Drone` build the `OM`/`IO` pin masks and the start-up command sequence. `Io` describes sending a command list that stops at the first failure.
- **Control software:** `Software` is the bundle of files, with its configuration-file and script checks.
- **Coordination:**
  - `Arena` and `BackendArena`: the two arena actors. They cover device association, forwarding, and the start and stop sequences and their errors.
  - `Experiment`: the experiment menu.
  - `Journal`: the journal's open/closed state machine.
  - `WebUi`: the request mapping and the client streams of the web UI.
- **Browser state:**
  - `Frontend`: the front end's status lists.
  - `ClientStatus`, `ClientDrone`, `ClientPiPuck`, `ClientBuilderBot` and `ClientUi`: the robot instances, cards and top-level interface of the browser client.
- **Offline analysis:** `ParseJournal` models the journal-grouping script.
- **Helpers:** `Wrappers` (Option, Result), `Bytes` (bytes, integers, a cursor buffer), `Utf8` (validity as Rust's `from_utf8` checks it) and `Net` (addresses).

The model keeps the program's own shape:

- Objects whose fields the program updates are classes, with methods proved against specification functions. Examples are the codec, router peers, bundles, SSH devices, journal, client instances and the script's tables.
- Pure matches and pipelines are functions.
- Loops are `while` loops with invariants.
- Sends, replies, file creation and other outcomes of I/O are explicit inputs: flags, reply functions or byte strings. The proofs therefore hold for every outcome.

## Model

| member | source | states |
|---|---|---|
| Router.ParseNumber | src/router.rs:101-123 | a number succeeds exactly when strictly more than 12 bytes remain and then consumes exactly 12 (8 of mantissa, 4 of exponent); it is zero exactly when the mantissa is 0; otherwise `BadNumber` and nothing is consumed |
| Router.CString | src/router.rs:127-133 | the bytes taken hold no 0 and are followed by the terminator and the rest, or are the whole buffer when it holds no 0 |
| Router.ParseString | src/router.rs:125-137 | consumes up to and including the first 0 byte (or to the end); yields the bytes before it, and fails with `BadString` exactly when they are not UTF-8 |
| Router.ParseBoolean | src/router.rs:139-149 | succeeds exactly when a byte remains, consuming just that byte; the value is false exactly when the byte is 0; an empty buffer is `BadBoolean` |
| Router.ParseNumbers | src/router.rs:56-99 | k numbers in a row succeed exactly when more than 12·k bytes remain, yield k numbers and consume 12·k bytes; a failure is `BadNumber` |
| Router.NumbersStep | src/router.rs:56-99 | reading k numbers is reading one and then k - 1 more, the first failure ending the read |
| Router.DecodeLuaNumber | src/router.rs:101-123 | the buffer method yields what `ParseNumber` yields and leaves exactly its rest in the buffer |
| Router.DecodeLuaString | src/router.rs:125-137 | the buffer method agrees with `ParseString`, result and remaining bytes |
| Router.DecodeLuaBoolean | src/router.rs:139-149 | the buffer method agrees with `ParseBoolean`, result and remaining bytes |
| Router.DecodeLuaVector2 | src/router.rs:56-66 | reads two numbers into a `Vector2`, failing as soon as one of them fails |
| Router.DecodeLuaVector3 | src/router.rs:68-81 | reads three numbers into a `Vector3`, failing as soon as one of them fails |
| Router.DecodeLuaQuaternion | src/router.rs:83-99 | reads four numbers into a `Quaternion`, failing as soon as one of them fails |
| Router.DecodeLuaUserType | src/router.rs:42-54 | user-type tags 1, 2 and 3 read 2, 3 and 4 numbers; another tag or an empty buffer is `BadUserType` |
| Router.DecodeTagged | src/router.rs:155-172 | one arm of the key or value `match`: tags 1, 3, 4, 7 and 5 pick the boolean, number, string, user-type and table decoders, any other tag is the given error |
| Router.DecodeLuaTable | src/router.rs:151-181 | reads key/value pairs until a nil key tag or the end of the buffer; a key without a value byte, and a nil or unknown value tag, are errors |
| Router.EncodeNumber | src/router.rs:101-123 | the encoding a robot gives a number is 12 bytes long, the length the decoder consumes |
| Router.Encode | src/router.rs:151-181 | an encoded key or value starts with its type tag, never the nil tag that ends a table |
| Router.NumberRoundTrip | src/router.rs:101-123 | a number encoded in 8 + 4 bytes and followed by at least one more byte decodes back to itself, leaving exactly what followed |
| Router.NumbersRoundTrip | src/router.rs:56-99 | several encoded numbers followed by at least one more byte decode back, in order |
| Router.CStringOf | src/router.rs:125-137 | a text with no 0 byte, then 0, then anything, is read back as that text, leaving what followed the 0 |
| Router.NumberTagRoundTrip | src/router.rs:157 | a tagged number is decoded back |
| Router.BooleanTagRoundTrip | src/router.rs:156 | a tagged boolean is decoded back |
| Router.StringTagRoundTrip | src/router.rs:158 | a tagged string (UTF-8, no 0 byte) is decoded back |
| Router.Vector2TagRoundTrip | src/router.rs:45 | a tagged two-coordinate vector is decoded back |
| Router.Vector3TagRoundTrip | src/router.rs:46 | a tagged three-coordinate vector is decoded back |
| Router.QuaternionTagRoundTrip | src/router.rs:47 | a tagged quaternion is decoded back |
| Router.UserTypeRoundTrip | src/router.rs:42-54 | a user-type tag followed by its encoded coordinates is read back as that vector, leaving the rest |
| Router.TableTagRoundTrip | src/router.rs:160 | a tagged nested table is decoded back |
| Router.TaggedRoundTrip | src/router.rs:151-181 | every encodable key or value, with its tag, is decoded back to itself, leaving exactly the bytes that follow it |
| Router.PairRoundTrip | src/router.rs:153-176 | one encoded key/value pair at the front of a table body is read and appended to the pairs read so far |
| Router.PairsRoundTrip | src/router.rs:151-181 | the encoded pairs of a table, ended by the nil tag, are decoded into those pairs in order, leaving what follows the terminator |
| Router.MessageRoundTrip | src/router.rs:151-181 | a serialised message is decoded back into the table it was made from, consuming it entirely |
| Router.TrailingNumberRefused | src/router.rs:101-103 | a number whose 12 bytes are the last ones of the buffer is refused, because the check asks for more than 12 remaining bytes |
| Router.DecodeFrame | src/router.rs:192-213 | without a pending length and with 4 bytes, reads a big-endian length; with a pending length and enough bytes, yields exactly that many bytes and clears the length; otherwise yields nothing, keeps the length and consumes nothing more |
| Router.Frame | src/router.rs:219-224 | the frame is the length as a big-endian `u32` (modulo 2^32) followed by the data |
| Router.FrameRoundTrip | src/router.rs:192-224 | a fresh decoder reads an encoded frame back as its data, leaving exactly what followed |
| Router.FramesInOrder | src/router.rs:192-224 | frames written back to back are read back one after another, in order |
| Router.ByteArrayCodec.constructor | src/router.rs:184-186 | a new codec has no pending length |
| Router.ByteArrayCodec.Decode | src/router.rs:192-213 | the decoder's new length and the buffer left are those `DecodeFrame` gives |
| Router.ByteArrayCodec.Encode | src/router.rs:219-224 | the buffer is extended by exactly the frame of the data |
| Router.Recipients | src/router.rs:253-255 | a message is meant for every connected peer but the sender |
| Router.Delivered | src/router.rs:253-258 | every peer but the sender has the message appended to its queue; the sender's queue and the set of peers are unchanged |
| Router.ForwardAsWritten | src/router.rs:253-258 | the loop as written: the send futures are dropped without being awaited, so no recipient's queue changes |
| Router.ForwardAsWrittenLosesMessage | src/router.rs:256 | with two robots connected, the first robot's message reaches the second in `Delivered` but not as written |
| Router.Peers.constructor | src/router.rs:281 | no peers at first |
| Router.Peers.Insert | src/router.rs:241-243 | a connecting robot gets an empty queue under its address |
| Router.Peers.Remove | src/router.rs:271-273 | a disconnecting robot's queue is removed |
| Router.Peers.Receive | src/router.rs:251-265 | every other peer's queue gets the message; a journal record is made exactly when the message decodes as a Lua table, and holds the sender and the table |
| MavCodec.FoldAppend | src/robot/drone/codec.rs:69-75 | feeding bytes to the checksum in pieces gives the state of feeding their concatenation |
| MavCodec.CrcAppend | src/robot/drone/codec.rs:70-74 | calling `digest` on the header, the payload and the seed in turn is digesting their concatenation |
| MavCodec.CrcSnoc | src/robot/drone/codec.rs:69-75 | digesting one more byte is one more bytewise CRC-16/MCRF4XX step |
| MavCodec.CheckSteps | src/robot/drone/codec.rs:69 | the CRC-16/MCRF4XX state after each byte of "123456789", from 0xFFFF |
| MavCodec.CrcCheckValue | src/robot/drone/codec.rs:69 | the checksum is CRC-16/MCRF4XX: "123456789" gives its catalogued check value 0x6F91 |
| MavCodec.FrameLength | src/robot/drone/codec.rs:30-37 | a frame is 12 bytes longer than its payload, 13 more when bit 0 of the incompatibility flags (signed) is set |
| MavCodec.MsgId | src/robot/drone/codec.rs:47-63 | the message id is the little-endian value of the three id bytes, below 2^24 |
| MavCodec.DecodeFrame | src/robot/drone/codec.rs:38-91 | a complete frame consumes exactly its length, whether or not its checksum matches; a mismatch returns nothing |
| MavCodec.NoMarkerNoChange | src/robot/drone/codec.rs:96 | without a 0xFD marker nothing is returned and the buffer is unchanged |
| MavCodec.JunkIgnored | src/robot/drone/codec.rs:22-25 | bytes before the first marker do not change what is decoded |
| MavCodec.DecodeFromMarker | src/robot/drone/codec.rs:22-25 | decoding works on the bytes from the first marker on |
| MavCodec.Consumption | src/robot/drone/codec.rs:26-94 | with fewer than 3 bytes from the marker, or fewer than the frame length, nothing is returned and the buffer starts at the marker; otherwise exactly one frame is consumed |
| MavCodec.BadChecksumDropped | src/robot/drone/codec.rs:76-90 | a complete frame whose checksum does not match yields nothing |
| MavCodec.HeaderBytes | src/robot/drone/codec.rs:52-62 | the nine checksummed header bytes are the payload length, both flag bytes, sequence, system and component ids and the three id bytes |
| MavCodec.EncodeFrame | src/robot/drone/codec.rs:34-37 | a frame as a sender writes it is exactly `FrameLength` bytes long |
| MavCodec.EncodeFrameLayout | src/robot/drone/codec.rs:39-75 | the extractor finds every field of an encoded frame where the sender put it, and the checksum bytes are the CRC of header, payload and seed |
| MavCodec.FrameRoundTrip | src/robot/drone/codec.rs:21-98 | a frame after junk without a marker is decoded to its header and the parsed message (or the parse error), leaving exactly the bytes after it |
| MavCodec.DecodeMessage | src/robot/drone/codec.rs:21-98 | the in-place decoder returns what `Decode` gives and leaves exactly its rest in the buffer |
| MavCodec.ReadFrame | src/robot/drone/codec.rs:39-91 | reading a complete frame returns and leaves what `DecodeFrame` gives |
| MavCodec.ReadBody | src/robot/drone/codec.rs:64-68 | splits off the payload, reads the checksum little-endian and skips 13 signature bytes when signed |
| MavCodec.ReadHeader | src/robot/drone/codec.rs:41-62 | the nine header reads return the next nine bytes and consume them |
| Xbee.Packet | src/network/xbee.rs:54-77 | the packet is the fixed 10-byte header `42 42 00 00 00 00 02 00 01 02`, then the command, then the arguments; its length is 10 + |command| + |arguments| |
| Xbee.Unpack | src/network/xbee.rs:54-77 | a packet is split back exactly when it is long enough and starts with the header |
| Xbee.PacketRoundTrip | src/network/xbee.rs:54-77 | splitting a packet at its command length gives back the command and the arguments |
| Xbee.PacketInjective | src/network/xbee.rs:54-77 | two packets with equal command lengths are equal only for equal commands and arguments |
| Xbee.HeaderShared | src/network/xbee.rs:57-70 | the header is the same for every command and argument list |
| Xbee.ProbePacket | src/network/xbee.rs:33 | the discovery probe is the `MY` command without arguments, 12 bytes |
| Xbee.HeaderBytes | src/network/xbee.rs:57-70 | the two big-endian `u16` words and six bytes written are the header |
| Xbee.NewCommand | src/network/xbee.rs:54-77 | building the packet in a buffer gives `Packet` |
| Xbee.Received | src/network/xbee.rs:35-36 | the 16-byte receive buffer holds the reply's first bytes and zeros after them |
| Xbee.NewDevice | src/network/xbee.rs:30-43 | a failed exchange is `IoError`; otherwise the device is made exactly when bytes 12..16 of the buffer are the probed IPv4 address, and `Ipv4Mismatch` is returned when they are not |
| Xbee.ShortReplyRejected | src/network/xbee.rs:35-42 | a reply of at most 12 bytes leaves bytes 12..16 zero, so only 0.0.0.0 would be accepted |
| Xbee.EchoAccepted | src/network/xbee.rs:37-40 | a reply carrying the address at bytes 12..16 is accepted |
| Discovery.XbeeCommand | src/main.rs:153-182 | the discovery tool's packet is the same packet as `Command::new`, starting with the same header |
| Discovery.ReplyKey | src/main.rs:131-133 | replies shorter than 4 bytes have no key; otherwise the key is the last four bytes |
| Discovery.Refreshed | src/main.rs:133-141 | a reply's key is added if new and its time refreshed; every other device and every reply without a key leave the table unchanged |
| Discovery.RefreshKeepsIds | src/main.rs:135-139 | a known device keeps its id across refreshes |
| Discovery.Pruned | src/main.rs:117-124 | expiry keeps exactly the devices seen less than 0.5 s ago or in the future, unchanged |
| Discovery.JustSeenSurvives | src/main.rs:117-141 | a device that has just answered survives the next expiry at the same time |
| Discovery.PruneIdempotent | src/main.rs:117-124 | expiring twice at the same time is expiring once |
| Discovery.XbeeDevices.constructor | src/main.rs:43 | the table starts empty |
| Discovery.XbeeDevices.Receive | src/main.rs:130-141 | a reply updates the table as `Refreshed` |
| Discovery.XbeeDevices.Expire | src/main.rs:116-124 | the broadcast tick replaces the table by `Pruned` |
| Discovery.XbeeDevices.Connected | src/main.rs:209-226 | a non-text message gets no reply; a text message gets "Connections" with one card per device, each of span 4 with the single action "Connect" |
| Software.SegmentLength | src/software.rs:39 | the piece before the first `/`, which holds no `/` and ends at one or at the end |
| Software.Components | src/software.rs:39 | `Path::components` on Unix: a path that starts with `/` starts with the root component |
| Software.BodySplit | src/software.rs:39 | the components of two pieces joined by a separator are the components of each, in order |
| Software.HeadExtended | src/software.rs:39 | what a non-empty path starts with is kept when a separator and more follow |
| Software.SamePathDoubled | src/software.rs:39 | `PathBuf` equality takes a doubled separator for one |
| Software.SamePathDot | src/software.rs:39 | `PathBuf` equality ignores a "." piece after the first |
| Software.SamePathTrailing | src/software.rs:39 | `PathBuf` equality ignores a trailing separator |
| Software.CurDirKept | src/software.rs:39 | a leading "." piece makes a different path ("./a" is not "a") |
| Software.FindPath | src/software.rs:38-39 | the position of the first entry whose name is the same path, and none exactly when no entry has it |
| Software.Find | src/software.rs:86-88 | the position of the first entry whose name is the same text as a referenced script, and none exactly when no entry has it |
| Software.AddReplaces | src/software.rs:38-40 | adding a path that is present keeps that entry's own name, replaces its contents, keeps the length and changes no other entry |
| Software.AddAppends | src/software.rs:42-44 | adding a new path appends the entry with the given name at the end and keeps the others in place |
| Software.AddPreservesUnique | src/software.rs:35-45 | a list with distinct paths keeps distinct paths after `add` |
| Software.AddIdempotent | src/software.rs:35-45 | adding the same file twice is adding it once |
| Software.FindPosition | src/software.rs:38-39 | the first entry of the same path is the one found |
| Software.ContainsWitness | src/software.rs:54 | a name containing ".argos" has it at some position |
| Software.Configs | src/software.rs:52-56 | the entries kept are exactly those whose name contains ".argos" |
| Software.ArgosConfigOf | src/software.rs:51-62 | no such entry gives `MissingConfigurationFile`, exactly one gives that entry, more give `MultipleConfigurationFiles` |
| Software.TwoConfigsRefused | src/software.rs:57-61 | two configuration files are always refused as multiple |
| Software.FirstMissing | src/software.rs:86-89 | none exactly when every referenced script names a file; otherwise a referenced script that names none, and it is the first such script in order, where `collect` stops |
| Software.Locate | src/software.rs:38-39 | the search over the entries stops at the first of the same path, as `FindPath` says |
| Software.Bundle.constructor | src/software.rs:31-32 | an empty bundle |
| Software.Bundle.Add | src/software.rs:35-45 | the file list becomes `Added`: the entry of the same path gets the new contents under its own name, or the file is appended |
| Software.Bundle.Clear | src/software.rs:47-49 | the file list is emptied |
| Software.Bundle.ArgosConfig | src/software.rs:51-62 | succeeds exactly when one file name contains ".argos" |
| Software.Bundle.CheckConfig | src/software.rs:64-91 | the configuration-file error comes first; success exactly when the file is UTF-8, parses, and every referenced script names a file; non-UTF-8 text is a `DecodeError`, text that is not XML a `ParseError`; a `MissingReferencedFile` names the first referenced script, in order, with no file |
| Io.Transmit | src/robot/drone/task.rs:88-91 | the items sent are at most those given: sending stops at the first failure |
| Io.TransmitStops | src/robot/drone/task.rs:88-91 | the items sent are a prefix, in order; success exactly when every send succeeds; on failure the last item sent is the one that failed |
| Io.TransmitPrefix | src/robot/drone/task.rs:88-91 | sends that succeeded are followed by the rest of the sequence |
| Io.TransmitTwo | src/robot/drone/task.rs:113-114 | of two commands the second is sent only after the first succeeded |
| Io.SendAll | src/robot/drone/task.rs:88-91 | the loop sends as `Transmit` says |
| DroneTask.Bit | src/robot/drone/task.rs:19-21 | a single-bit mask |
| DroneTask.MaskBytes | src/robot/drone/task.rs:111-112 | a mask is sent as its two big-endian bytes |
| DroneTask.ConfigMask | src/robot/drone/task.rs:94-110 | bit 11 is set exactly when the UpCore option is given, bit 12 exactly when the Pixhawk one is, and no other bit |
| DroneTask.SetMask | src/robot/drone/task.rs:96-110 | bit 11 is set exactly when the UpCore option is `Some(true)`, bit 12 exactly when the Pixhawk one is, and it is within the configuration mask |
| DroneTask.MuxMask | src/robot/drone/task.rs:65-68 | the multiplexer mask `1 << 4` is sent as `00 10` |
| DroneTask.InitCommands | src/robot/drone/task.rs:71-86 | the start-up list has nine commands |
| DroneTask.InitCommandsRead | src/robot/drone/task.rs:71-86 | in order D7, D6, P3, P4 with argument 0, D4, D1, D2 with argument 4, then OM and IO with the multiplexer mask |
| DroneTask.NoRequestClearsNothing | src/robot/drone/task.rs:94-112 | without power requests both masks are zero |
| DroneTask.BuildPowerMasks | src/robot/drone/task.rs:95-110 | the masks built with `|=` are `ConfigMask` and `SetMask` |
| DroneTask.SetPower | src/robot/drone/task.rs:94-116 | sends `OM` then `IO` with the two masks, stopping at the first failure |
| DroneTask.Init | src/robot/drone/task.rs:60-92 | sends the nine start-up commands in order, stopping at the first failure |
| Drone.Drone.constructor | src/robot/drone.rs:55-61 | a new drone is in Standby with the given id and XBee device |
| Drone.Drone.Ssh | src/robot/drone.rs:63-68 | the shell is there exactly when the drone is Ready |
| Drone.Drone.Actions | src/robot/drone.rs:104-113 | `[UpCorePowerOn]` in Standby, `[UpCorePowerOff, UpCoreShutdown]` in Ready |
| Drone.Drone.Execute | src/robot/drone.rs:115-145 | an action is acted on (reported as not implemented) exactly when it is among the current actions, and otherwise ignored |
| Drone.StaleActionsIgnored | src/robot/drone.rs:115-145 | an action of the other state, and `Identify`, are ignored |
| Drone.Drone.Init | src/robot/drone.rs:70-101 | the same nine start-up commands as the task, in order, stopping at the first failure |
| Drone.Drone.SetPower | src/robot/drone.rs:147-169 | the same `OM` and `IO` masks as the task, `OM` first, stopping at the first failure |
| SshShell.Padded | src/network/ssh.rs:163-164 | the command is written inside the `printf` line that frames its output with 0x02 and 0x03, ended by a line feed |
| SshShell.Extract | src/network/ssh.rs:174-176 | output is found exactly when the buffer holds a 0x02 whose first occurrence comes before the last 0x03 |
| SshShell.ExtractFramed | src/network/ssh.rs:174-179 | the bytes strictly between the first 0x02 and the last 0x03 are the output |
| SshShell.ExtractAt | src/network/ssh.rs:174-179 | an SOT with none before it and a later EOT with none after it delimit exactly what is extracted |
| SshShell.LastIndexAt | src/network/ssh.rs:175 | the last occurrence of a byte is the one with none after it |
| SshShell.Scan | src/network/ssh.rs:169-185 | reading the channel yields UTF-8 output or `IoFailure`; invalid UTF-8 and a channel that ends first are both `IoFailure` (the same loop is src/robots/ssh.rs:70-86) |
| SshShell.ExecFramed | src/network/ssh.rs:161-186 | a single reply carrying framed UTF-8 output yields exactly that output |
| SshShell.ScanSkipsOther | src/network/ssh.rs:171 | channel messages that are not data change nothing |
| SshShell.UploadHeaderLayout | src/network/ssh.rs:107-110 | the header is `C0`, the permissions in octal, a space, the length in decimal, a space, the file name and a line feed |
| SshShell.UploadHeaderFields | src/network/ssh.rs:107-114 | the header's digits read back as the permissions and the contents' length, and the contents follow the header unchanged |
| SshShell.SplitBounded | src/network/ssh.rs:116-120 | every piece read through the 32-byte buffer is non-empty and at most 32 bytes |
| SshShell.ChunksBounded | src/network/ssh.rs:112-120 | the same holds across the chained cursors |
| SshShell.SplitConcat | src/network/ssh.rs:116-126 | the pieces read from one cursor, put together, are its bytes |
| SshShell.ChunksConcat | src/network/ssh.rs:112-126 | the pieces read from the chain, put together, are the header, the contents and the 0 in order |
| SshShell.CopyOut | src/network/ssh.rs:118-126 | the copy loop sends the pieces in order, stopping at the first failed send |
| SshShell.OpenShell | src/network/ssh.rs:153-159 | a shell is opened exactly when the channel opens (else `ChannelFailure`) and the shell is granted (else `IoFailure`) |
| SshShell.ConnectOutcome | src/network/ssh.rs:63-76 | connecting succeeds exactly when the host answers, the login is accepted and the shell opens; a refused login is `LoginFailure` and an unreachable host `ConnectionFailure` |
| SshShell.Exec | src/network/ssh.rs:161-186 | writes the padded command and returns what the channel yields, or `IoFailure` when the write fails |
| SshShell.UploadDelivers | src/network/ssh.rs:96-128 | an upload succeeds exactly when channel, `scp -t`, every piece and the end of file succeed, and then the stream sent is header, contents and 0; what is sent is always a prefix of the pieces |
| SshShell.Upload | src/network/ssh.rs:102-127 | runs `scp -t` on the directory when the channel opens, then sends the pieces as `UploadOutcome` says |
| NetSsh.Device.constructor | src/network/ssh.rs:59-61 | a new device is disconnected |
| NetSsh.Device.Connect | src/network/ssh.rs:63-76 | the state becomes Connected only on success; on failure it is unchanged |
| NetSsh.Device.Disconnect | src/network/ssh.rs:78-80 | the device is always left Disconnected |
| NetSsh.Device.DefaultShell | src/network/ssh.rs:82-87 | the shell is there exactly when connected, otherwise `Disconnected` |
| NetSsh.Device.Upload | src/network/ssh.rs:96-132 | a disconnected device sends nothing and returns `Disconnected`; a connected one uploads as `Upload` |
| NetSsh.Device.Hostname | src/network/ssh.rs:140-147 | `Disconnected` when not connected; otherwise the output of `hostname` |
| RobotSsh.SpaceLengthComplete | src/robots/ssh.rs:129 | the UTF-8 encoding of every `char::is_whitespace` code point (ASCII tab to carriage return and space, U+0085, U+00A0, U+1680, U+2000 to U+200A, U+2028, U+2029, U+202F, U+205F, U+3000) is recognised as one whitespace character, whatever follows it |
| RobotSsh.SpaceLengthSound | src/robots/ssh.rs:129 | whatever is recognised as whitespace is the encoding of one of those code points |
| RobotSsh.WordLength | src/robots/ssh.rs:129 | the run at the front in which no whitespace character starts, ended by whitespace or the end |
| RobotSsh.Tokens | src/robots/ssh.rs:129 | `split_whitespace` yields non-empty tokens in which no whitespace character starts |
| RobotSsh.WordLengthOf | src/robots/ssh.rs:129 | a token followed by whitespace is read as that token |
| RobotSsh.TokensBlank | src/robots/ssh.rs:129 | any run of whitespace characters in front is skipped |
| RobotSsh.TokensStep | src/robots/ssh.rs:129 | a token followed by whitespace is the next token, and splitting goes on after the whitespace |
| RobotSsh.TokensJoined | src/robots/ssh.rs:129 | tokens separated by any non-empty run of whitespace are read back as themselves |
| RobotSsh.SeparatedByWhiteSpace | src/robots/ssh.rs:129 | any one whitespace code point, ASCII or not, separates tokens |
| RobotSsh.TokensOfLines | src/robots/ssh.rs:127-129 | the tokens of `md5sum` output (`<checksum>  <path>` and a line feed per file) are the checksums and paths in order |
| RobotSsh.Pairs | src/robots/ssh.rs:130-131 | consecutive tokens are paired in order; there are half as many pairs as tokens, rounded down |
| RobotSsh.PairsDropsLast | src/robots/ssh.rs:130 | an unpaired last token is dropped |
| RobotSsh.Listing | src/robots/ssh.rs:128-132 | one (checksum, path) pair per two tokens of the output |
| RobotSsh.ListingOfLines | src/robots/ssh.rs:127-132 | an `md5sum` line per file is listed as its (checksum, path) pair, in order |
| RobotSsh.FlatPairs | src/robots/ssh.rs:130 | pairing the fields of a listing gives back the listing |
| RobotSsh.FindQuery | src/robots/ssh.rs:127 | the `find ... -exec md5sum` query names the directory |
| RobotSsh.Device.constructor | src/robots/ssh.rs:106 | a new device has no control-software directory |
| RobotSsh.Device.ClearCtrlSoftware | src/robots/ssh.rs:111-115 | the directory becomes the output of `mktemp -d`; a failed command leaves it unchanged and returns the error |
| RobotSsh.Device.AddCtrlSoftware | src/robots/ssh.rs:117-123 | without a directory nothing is sent and the result is `IoFailure`; otherwise an upload with permissions 0o644 into it |
| RobotSsh.Device.CtrlSoftware | src/robots/ssh.rs:125-138 | without a directory an empty list and nothing written; otherwise the `find` query and the listing of its output |
| RobotSsh.Device.Hostname | src/robots/ssh.rs:186-188 | the output of `hostname` |
| RobotSsh.NewDevice | src/robots/ssh.rs:93-107 | a device exists exactly when connecting, logging in and opening the shell succeed, and the error otherwise is that of `ConnectOutcome` |
| Arena.Dedup | src/arena.rs:46-57 | the collected table holds exactly the listed descriptors, none twice, and is no longer than the list |
| Arena.DedupUnique | src/arena.rs:46-57 | a list without a repeated descriptor is collected unchanged |
| Arena.Collect | src/arena.rs:46-57 | the three tables hold exactly the configured descriptors of each kind, and no table holds a descriptor twice |
| Arena.Arena.Ids | src/arena.rs:46-57 | one identifier per robot of the kind, in table order |
| Arena.Arena.XbeeMacs | src/arena.rs:158-170 | the drones' XBee addresses, one per drone, in table order |
| Arena.Arena.FernbedienungMacs | src/arena.rs:172-212 | one per robot of the kind: the UpCore address of a drone, the Raspberry Pi address of a Pi-Puck, the DuoVero address of a BuilderBot |
| Arena.Matches | src/arena.rs:158-170 | exactly the positions that hold the address, in increasing order |
| Arena.FirstMatch | src/arena.rs:121 | none exactly when no position holds the address; otherwise the first one that does |
| Arena.Associate | src/arena.rs:61-68 | no robot when none has the address, ambiguous exactly when several have it, otherwise the only one that has it |
| Arena.MatchCount | src/arena.rs:61-68 | no position holds the address exactly when no robot has it, two or more exactly when two robots have it, and a single position is the only robot that has it |
| Arena.AddXbee | src/arena.rs:60-69 | the XBee goes to the only drone with that XBee address; several such drones are ambiguous; none leaves it unassociated |
| Arena.AddFernbedienung | src/arena.rs:70-96 | drones are tried first, then Pi-Pucks, then BuilderBots; the first kind with the address decides, to its only match or as ambiguous; unassociated exactly when no robot of any kind has the address |
| Arena.AmbiguousDroneStops | src/arena.rs:72-77 | two drones sharing an UpCore address make the device ambiguous, and the Pi-Pucks and BuilderBots are not tried |
| Arena.FindId | src/arena.rs:121 | none exactly when the identifier is absent; otherwise its first position |
| Arena.Forward | src/arena.rs:120-150 | a forwarded action reaches a robot of the kind carrying that identifier, and nothing is sent when there is none |
| Arena.Failure | src/arena.rs:326-331 | an undelivered request gives the error of the send; a delivered one that fails gives the error of the reply; either way the error names the request |
| Arena.Run | src/arena.rs:317-334 | sending a phase stops at the first failure; never more requests are attempted than there are |
| Arena.RunStops | src/arena.rs:317-334 | the attempted requests are a prefix; the run succeeds exactly when every request completes, and then all are attempted; on failure the last attempted request is the one that failed, every earlier one completed, and the error is its failure |
| Arena.RunAppend | src/arena.rs:293-415 | a run over two lists is the run over the first, then, when that succeeds, the second |
| Arena.Setups | src/arena.rs:317-372 | one set-up request per robot of the kind, in table order |
| Arena.Starts | src/arena.rs:374-414 | one start request per robot of the kind, in table order |
| Arena.StartPhases | src/arena.rs:293-414 | the start sequence has eight phases |
| Arena.StartOutcome | src/arena.rs:274-416 | a bundle that fails `check_config` for a kind with robots aborts before anything is sent, with that error, and this happens exactly when such a kind exists; the kinds are checked BuilderBots, then drones, then Pi-Pucks, and the first failing one is reported; otherwise the outcome is the run of the start requests |
| Arena.StartRequestsLayout | src/arena.rs:293-414 | journal start, descriptors, set-up of BuilderBots, Pi-Pucks, drones, then start of Pi-Pucks, BuilderBots, drones |
| Arena.PhasesRanked | src/arena.rs:293-414 | each phase holds only requests of its own rank |
| Arena.FlattenRanked | src/arena.rs:293-414 | phases of increasing rank put together are ordered by rank |
| Arena.StartOrder | src/arena.rs:293-414 | the journal is started first, and the start requests are ordered by phase |
| Arena.InSetups | src/arena.rs:317-372 | the set-up requests of a kind are exactly those for its robots |
| Arena.InStarts | src/arena.rs:374-414 | the start requests of a kind are exactly those for its robots |
| Arena.StartCovers | src/arena.rs:317-414 | every robot of the table, and no other, is set up and started |
| Arena.RunOrdered | src/arena.rs:334 | in a run ordered by phase, a request is attempted only after every request of an earlier phase completed |
| Arena.EarlierPhasesComplete | src/arena.rs:293-415 | a robot is sent a start-sequence request only after every request of every earlier phase completed, so no robot starts before all are set up |
| Arena.RunPhase | src/arena.rs:317-334 | sending one phase and awaiting each answer gives the outcome `Run` describes |
| Arena.NextPhase | src/arena.rs:293-414 | one more phase either fails with the outcome of the whole run or completes it |
| Arena.RunPhases | src/arena.rs:293-415 | the eight phases awaited one after the other give the outcome of the run over all of them |
| Arena.SetUpPhases | src/arena.rs:316-372 | the three set-up phases |
| Arena.StartRobotPhases | src/arena.rs:373-415 | the three start phases |
| Arena.StartExperiment | src/arena.rs:274-416 | checks the bundles, then sends the start sequence; the requests sent and the result are those of `StartOutcome` |
| Arena.Stops | src/arena.rs:221-244 | one stop request per robot of the kind, in table order |
| Arena.StopReachesAll | src/arena.rs:220-244 | the journal is told first, and every robot of the table, and no other, is told to stop |
| Arena.Unstopped | src/arena.rs:247-252 | empty exactly when every stop request of the kind was delivered; never longer than the identifiers |
| Arena.UnstoppedListed | src/arena.rs:247-267 | the identifiers of exactly the robots whose stop request was not delivered |
| Arena.StopOutcome | src/arena.rs:214-271 | the stop succeeds exactly when every robot received its stop request; a failure names at least one robot |
| Arena.StopNamesFailures | src/arena.rs:247-270 | a robot that did not receive its stop request is named in the error |
| Arena.Layered | src/arena.rs:107-113 | the result is Ok exactly when the start succeeded; a failed start carries its error and, when the stop failed too, the robots that were not stopped |
| Arena.HandleStartExperiment | src/arena.rs:98-115 | a failed start is followed by the stop sequence; the requests sent and the result follow `Layered` |
| Arena.HandleStopExperiment | src/arena.rs:116-119 | sends the stop sequence; the result names the robots that did not receive it |
| BackendArena.Keyed | backend/src/arena.rs:91-98 | collecting into a map by identifier never yields more descriptors than given |
| BackendArena.KeyedSound | backend/src/arena.rs:91-98 | the table holds one descriptor per identifier, each one of those given, and every identifier given is in it |
| BackendArena.KeyedLastWins | backend/src/arena.rs:91-98 | a descriptor that no later one shares an identifier with is kept, and is the only descriptor kept for that identifier: the last insertion into the map wins |
| BackendArena.StartPhases | backend/src/arena.rs:249-301 | three phases: the journal, the Pi-Pucks, the drones |
| BackendArena.StartOutcome | backend/src/arena.rs:235-304 | the Pi-Puck bundle is checked when there are Pi-Pucks, then the drone bundle when there are drones, and a failing check aborts before anything is sent, with its error; otherwise the outcome is the run of the start requests |
| BackendArena.StartOrder | backend/src/arena.rs:249-301 | the journal first, then one start per Pi-Puck, then one per drone, ordered by phase |
| BackendArena.DronesAfterPiPucks | backend/src/arena.rs:258-301 | a drone is sent its start only after every Pi-Puck has confirmed its own |
| BackendArena.StopOutcome | backend/src/arena.rs:210-233 | the journal is told first; a kind's "could not stop" error is raised exactly when one of its robots did not receive its stop |
| BackendArena.Backend.constructor | backend/src/arena.rs:87-98 | the arena starts on standby with empty bundles and its tables keyed by identifier |
| BackendArena.Backend.Actions | backend/src/arena.rs:141-146 | one action: start while on standby, stop while active |
| BackendArena.Backend.XbeeMacs | backend/src/arena.rs:106-108 | the drones' XBee addresses, in table order |
| BackendArena.Backend.UpcoreMacs | backend/src/arena.rs:119-121 | the drones' UpCore addresses, in table order |
| BackendArena.Backend.RpiMacs | backend/src/arena.rs:128-130 | the Pi-Pucks' Raspberry Pi addresses, in table order |
| BackendArena.Backend.AddXbee | backend/src/arena.rs:105-116 | the first drone with that XBee address gets the module; none exactly when no drone has it |
| BackendArena.Backend.AddFernbedienung | backend/src/arena.rs:117-139 | the first drone with that UpCore address, else the first Pi-Puck with that Raspberry Pi address; never ambiguous, never a BuilderBot; unassociated exactly when no robot has it |
| BackendArena.Backend.ForwardDrone | backend/src/arena.rs:179-184 | the only drone with that identifier, or none when there is no such drone |
| BackendArena.Backend.ForwardPiPuck | backend/src/arena.rs:197-202 | the only Pi-Puck with that identifier, or none when there is no such Pi-Puck |
| BackendArena.Backend.AddDroneSoftware | backend/src/arena.rs:168-169 | only the drone bundle changes, by `add` |
| BackendArena.Backend.ClearDroneSoftware | backend/src/arena.rs:170-171 | the drone bundle is emptied and the Pi-Puck bundle kept |
| BackendArena.Backend.AddPiPuckSoftware | backend/src/arena.rs:189-190 | only the Pi-Puck bundle changes, by `add` |
| BackendArena.Backend.ClearPiPuckSoftware | backend/src/arena.rs:191-192 | the Pi-Puck bundle is emptied and the drone bundle kept |
| BackendArena.Backend.Start | backend/src/arena.rs:235-304 | the requests sent and the result are those of `StartOutcome` |
| BackendArena.RunPhases | backend/src/arena.rs:257-303 | the journal, Pi-Puck and drone phases awaited one after the other give the outcome of the run over all the start requests in that order |
| BackendArena.Backend.Execute | backend/src/arena.rs:147-167 | a start makes the arena active only when it succeeds, and a failed start is followed by the stop requests; a stop always returns it to standby |
| Experiment.Launched | src/experiment.rs:78-113 | the robots started, in order, until the first whose install or start fails or whose bundle lacks its configuration file; never more robots than there are |
| Experiment.LaunchedSound | src/experiment.rs:78-113 | the start panics exactly when some robot is not ready; every robot started is ready and is started with its own kind's configuration file; a panic comes at the first robot not ready; without one every robot is started |
| Experiment.Experiment.WithRobots | src/experiment.rs:45-52 | a new experiment is stopped, with two distinct empty bundles |
| Experiment.Experiment.Actions | src/experiment.rs:54-59 | one action: start while stopped, stop while started |
| Experiment.Experiment.Execute | src/experiment.rs:61-123 | an action not on offer changes nothing; a stop stops; a start launches the robots as `Launched` says and makes the experiment started unless it panicked |
| Experiment.Experiment.Launch | src/experiment.rs:78-113 | the start loop yields the robots started and the panic flag as `Launched` defines them |
| Experiment.AllReadyAllStarted | src/experiment.rs:78-116 | when every robot is ready, each is started, in order, with its kind's configuration file, and there is no panic |
| Experiment.MissingConfigPanics | src/experiment.rs:83-88 | a bundle without exactly one configuration file makes the start panic no later than the first robot of that kind |
| Journal.StartResult | src/journal.rs:103-121 | a start succeeds exactly when the file is created and both subscriptions are made; otherwise the error is the file's, else the router's, else the tracking system's |
| Journal.Journal.constructor | src/journal.rs:59-63 | a new journal is closed with both streams pending |
| Journal.Journal.Start | src/journal.rs:103-121 | a successful start opens the journal at that time, with no entries, and subscribes both streams; a failed one changes nothing |
| Journal.Journal.Stop | src/journal.rs:122-126 | the journal closes and both streams return to pending; entries written stay |
| Journal.Journal.Write | src/journal.rs:128-137 | a successful write appends the event stamped with the time since the start; a failed one appends nothing |
| Journal.Journal.Record | src/journal.rs:127-138 | a record on an open journal is written as `Write` says |
| Journal.Journal.OnTracking | src/journal.rs:67-83 | a tracking update is written; a lagging receiver writes nothing |
| Journal.Journal.OnMessage | src/journal.rs:84-99 | a robot's message is written with its sender; a lagging receiver writes nothing |
| Journal.Step | src/journal.rs:100-139 | only a record on a closed journal panics; a start opens the journal afresh when it succeeds and changes nothing otherwise; a stop closes it keeping the entries; a record appends its stamped entry when the write succeeds |
| Journal.ReplayWithoutRecords | src/journal.rs:100-142 | requests without records never panic, and the entries are either the old ones or, after some start, only those since |
| Journal.FirstRecordAfterStart | src/journal.rs:103-138 | a record right after a successful start is the first entry, stamped relative to that start |
| Journal.Serve | src/journal.rs:65-142 | serving the requests in order panics exactly when the replay does, and otherwise ends in the replay's state |
| WebUi.DroneAction | src/webui.rs:284-318 | the power rails and the MAVLink terminal go over the XBee, everything else over Fernbedienung |
| WebUi.PiPuckAction | src/webui.rs:324-348 | every Pi-Puck request goes over Fernbedienung |
| WebUi.Dispatch | src/webui.rs:156-164 | a drone request is forwarded to the drone with its id, a Pi-Puck request to the Pi-Puck with its id, an experiment start carries both bundles to the arena |
| WebUi.DispatchRoundTrip | src/webui.rs:284-369 | the request can be read back from the action it becomes |
| WebUi.DispatchInjective | src/webui.rs:284-369 | different requests become different actions |
| WebUi.Outcome | src/webui.rs:319-321 | Ok exactly when the action was sent and the reply is Ok; a failed send and a missing reply have their own errors; otherwise the reply's result |
| WebUi.HandleMessage | src/webui.rs:150-186 | only a decoded request gets a response, under its uuid and with the outcome of its action; a response or an undecodable message gets neither an action nor a reply |
| WebUi.Updates | src/webui.rs:59-70 | lagged items are dropped: exactly one update per received item, and nothing else |
| WebUi.UpdatesKept | src/webui.rs:59-70 | every received update reaches the client tagged with its robot's id. Its position is the number of received items before it, so order is kept |
| WebUi.AddsBeforeUpdates | src/webui.rs:55-72 | every descriptor is announced, in order, before the first update |
| Frontend.NewStatus | frontend/src/lib.rs:15-22 | the given id, no cameras, no connection, signal 0 |
| Frontend.Apply | frontend/src/lib.rs:24-34 | the field the update names is replaced, the others and the id kept |
| Frontend.ApplyLastWins | frontend/src/lib.rs:24-34 | updating the same field twice keeps only the second value |
| Frontend.IdPosition | frontend/src/lib.rs:282 | the first status with that id, or none exactly when there is none |
| Frontend.Upserted | frontend/src/lib.rs:280-292 | the list grows by at most one record, every record of another id is kept where it was, and afterwards some record has the updated id |
| Frontend.UpsertKnown | frontend/src/lib.rs:283-289 | a known id updates that record in place and nothing else |
| Frontend.UpsertUnknown | frontend/src/lib.rs:290-292 | an unknown id appends one fresh record with the update, and the rest is kept |
| Frontend.UpsertKeepsUnique | frontend/src/lib.rs:280-309 | ids stay unique, and the updated id is present afterwards |
| Frontend.Lists.constructor | frontend/src/lib.rs:276-278 | both lists start empty |
| Frontend.Lists.UpdateDrone | frontend/src/lib.rs:280-294 | the drone list is updated as `Upserted` says, the Pi-Puck list kept |
| Frontend.Lists.UpdatePiPuck | frontend/src/lib.rs:295-309 | the Pi-Puck list is updated as `Upserted` says, the drone list kept |
| ClientStatus.Level | client/src/pipuck.rs:178-183 | the icon level is 1 for 0 to 24, 2 for 25 to 49, 3 for 50 to 74, and 4 for everything else, negative values included |
| ClientStatus.LevelMonotone | client/src/pipuck.rs:178-183 | on readings from 0 up, a higher reading never shows a lower level |
| ClientStatus.Show | client/src/pipuck.rs:174-184 | level 0 exactly when there is no reading; the absent text or the error shown then; otherwise the level and the percentage of the reading plus the offset |
| ClientStatus.LinkAfter | client/src/pipuck.rs:35-63 | a connection starts with unknown readings and an empty terminal; a disconnection drops the link; readings and terminal output change only a connected link, each its own field |
| ClientStatus.SessionAppend | client/src/pipuck.rs:35-63 | applying two runs of updates is applying the first, then the second |
| ClientStatus.SessionWhileConnected | client/src/pipuck.rs:37-62 | while the link stays up, it keeps its address, shows the latest battery and signal readings, and its terminal gains all output in order |
| ClientStatus.SessionWhileDisconnected | client/src/pipuck.rs:37-62 | without a connection event, a disconnected link stays disconnected |
| ClientStatus.SessionAfterUp | client/src/pipuck.rs:44-62 | after the last connection, the link holds that address and only what came after it |
| ClientStatus.CamerasAfter | client/src/pipuck.rs:40-44 | a frame replaces that camera's entry and keeps the others |
| ClientStatus.Cleared | client/src/pipuck.rs:128-131 | opening a terminal empties a connected link's terminal and keeps the rest |
| ClientStatus.BatteryOf | client/src/pipuck.rs:174-184 | level 0 exactly when disconnected or the battery is unknown; captioned unknown when disconnected and with the error when the reading fails; otherwise the battery's level and percentage |
| ClientStatus.SignalOf | client/src/pipuck.rs:254-264 | level 0 exactly when disconnected or the signal is unknown; captioned disconnected when disconnected and with the error when the reading fails; otherwise the level and percentage of the signal plus the offset |
| ClientStatus.EventOf | client/src/pipuck.rs:35-63 | every update but a frame is an event of the link |
| ClientStatus.RobotNext | client/src/pipuck.rs:35-63 | a frame changes only the cameras; every other update only the link |
| ClientStatus.RobotReplayLink | client/src/pipuck.rs:35-63 | after a run of updates, the link is what the link events alone make of it |
| ClientPiPuck.Instance.constructor | client/src/pipuck.rs:26-33 | a disconnected Raspberry Pi and no frames |
| ClientPiPuck.Instance.Update | client/src/pipuck.rs:35-63 | the instance takes the state `RobotNext` gives |
| ClientPiPuck.Card.constructor | client/src/pipuck.rs:92-104 | terminal and camera dialog closed |
| ClientPiPuck.Card.SendBashCommand | client/src/pipuck.rs:116-125 | a request exactly when there is an input field, running its text on this Pi-Puck |
| ClientPiPuck.Card.ToggleBashTerminal | client/src/pipuck.rs:126-145 | the terminal flips; opening it clears the shown output and starts a terminal, closing it stops the terminal |
| ClientPiPuck.Card.ToggleCameraStream | client/src/pipuck.rs:146-163 | the dialog flips; opening it enables the stream and forgets the frames, closing it disables the stream |
| ClientPiPuck.Card.BatteryIcon | client/src/pipuck.rs:174-184 | level 0 exactly when the Raspberry Pi is disconnected or its battery unknown; captioned unknown when disconnected and with the error when the reading fails; a known battery gives its level and percentage |
| ClientPiPuck.Card.WifiIcon | client/src/pipuck.rs:254-264 | level 0 exactly when the Raspberry Pi is disconnected or its signal unknown; captioned disconnected when disconnected and with the error when the reading fails; a known signal gives the level and percentage of the signal plus 90 |
| ClientBuilderBot.Instance.constructor | client/src/builderbot.rs:26-33 | a disconnected DuoVero and no frames |
| ClientBuilderBot.Instance.Update | client/src/builderbot.rs:35-63 | the instance takes the state `RobotNext` gives |
| ClientBuilderBot.Card.constructor | client/src/builderbot.rs:94-106 | terminal and camera dialog closed, no error |
| ClientBuilderBot.Card.SetError | client/src/builderbot.rs:116-119 | the error becomes the given result; the rest is kept |
| ClientBuilderBot.Card.ErrorModal | client/src/builderbot.rs:263-285 | the modal is shown exactly when there is an error, and shows that error |
| ClientBuilderBot.Card.DismissError | client/src/builderbot.rs:265 | clicking the modal's background clears the error and hides it |
| ClientBuilderBot.Card.SendBashCommand | client/src/builderbot.rs:120-130 | a request exactly when there is an input field, running its text on this BuilderBot |
| ClientBuilderBot.Card.ToggleBashTerminal | client/src/builderbot.rs:131-152 | the terminal flips; opening it clears the shown output and starts a terminal, closing it stops the terminal |
| ClientBuilderBot.Card.ToggleCameraStream | client/src/builderbot.rs:153-175 | the dialog flips; opening it enables the stream and forgets the frames, closing it disables the stream |
| ClientBuilderBot.Card.BatteryIcon | client/src/builderbot.rs:183-194 | level 0 exactly when the DuoVero is disconnected or its battery unknown; captioned unknown when disconnected and with the error when the reading fails; a known battery gives its level and percentage |
| ClientBuilderBot.Card.WifiIcon | client/src/builderbot.rs:288-299 | level 0 exactly when the DuoVero is disconnected or its signal unknown; captioned disconnected when disconnected and with the error when the reading fails; a known signal gives the level and percentage of the signal plus 90 |
| ClientDrone.UpCoreAfter | client/src/drone.rs:61-72 | a connection starts with an unknown signal and an empty terminal; a disconnection drops it; signal and shell output change only a connected UpCore |
| ClientDrone.XbeeEvent | client/src/drone.rs:51-89 | exactly the battery, XBee connection, XBee signal and MAVLink output updates concern the XBee link |
| ClientDrone.Next | client/src/drone.rs:50-95 | a frame changes only the cameras, a power state only the two power flags, an UpCore update only the UpCore, an XBee update only the XBee link |
| ClientDrone.ReplayXbee | client/src/drone.rs:50-95 | after a run of updates, the XBee link is what its own events make of it |
| ClientDrone.ReplayPower | client/src/drone.rs:90-93 | the power flags are those of the last power-state update |
| ClientDrone.ReplayKeepsPower | client/src/drone.rs:90-93 | without a power-state update the power flags are kept |
| ClientDrone.Instance.constructor | client/src/drone.rs:38-48 | both links disconnected, power off, no frames |
| ClientDrone.Instance.Update | client/src/drone.rs:50-95 | the instance takes the state `Next` gives |
| ClientDrone.Card.constructor | client/src/drone.rs:134-149 | both terminals and the camera dialog closed |
| ClientDrone.Card.SendMavlinkCommand | client/src/drone.rs:164-173 | a request exactly when there is an input field, running its text on the drone's MAVLink terminal |
| ClientDrone.Card.SendBashCommand | client/src/drone.rs:174-183 | a request exactly when there is an input field, running its text in the drone's shell |
| ClientDrone.Card.ToggleBashTerminal | client/src/drone.rs:184-203 | the shell terminal flips; opening it clears a connected UpCore's output and starts the terminal, closing it stops it |
| ClientDrone.Card.ToggleMavlinkTerminal | client/src/drone.rs:204-223 | the MAVLink terminal flips; opening it clears the XBee link's output and starts the terminal, closing it stops it |
| ClientDrone.Card.ToggleCameraStream | client/src/drone.rs:224-241 | the dialog flips; opening it enables the stream and forgets the frames, closing it disables the stream |
| ClientDrone.Card.BatteryIcon | client/src/drone.rs:252-263 | level 0 exactly when the XBee is disconnected or its battery unknown; captioned unknown when disconnected and with the error when the reading fails; a known battery gives its level and percentage |
| ClientDrone.Card.UpCoreIcon | client/src/drone.rs:333-344 | level 0 exactly when the UpCore is disconnected or its signal unknown; captioned disconnected when disconnected and with the error when the reading fails; a known signal gives the level and percentage of the signal plus 90 |
| ClientDrone.Card.XbeeIcon | client/src/drone.rs:431-442 | level 0 exactly when the XBee is disconnected or its signal unknown; captioned disconnected when disconnected and with the error when the reading fails; a known signal gives its level and percentage as reported, without an offset |
| ClientUi.UserInterface.constructor | client/src/lib.rs:78-79 | the experiment tab and no drones |
| ClientUi.UserInterface.SetActiveTab | client/src/lib.rs:90-93 | the tab changes and the page is redrawn |
| ClientUi.UserInterface.Add | client/src/lib.rs:106-110 | a new id gets a new drone with the descriptor; a known id keeps its drone and all it has learnt |
| ClientUi.UserInterface.Update | client/src/lib.rs:111-116 | a known drone takes the update; an unknown id changes nothing |
| ClientUi.UserInterface.Receive | client/src/lib.rs:103-148 | a message that cannot be received or decoded changes nothing and is not redrawn. Otherwise the page is redrawn. `AddDrone` keeps a known identifier's instance, or adds a fresh instance in the new-drone state and keeps every other instance unchanged. `UpdateDrone` moves that drone's snapshot by `Next`, leaves every other drone's snapshot as it was, and keeps the map. Any other message changes no drone |
| ParseJournal.ByIdSound | testing/parse_journal.py:66-79 | a dictionary built by identifier has exactly the records' identifiers as keys, and keeps for each the last record with it |
| ParseJournal.DescriptorsReplace | testing/parse_journal.py:64-79 | the tables are those of the last `Descriptors` entry; earlier ones are replaced |
| ParseJournal.SamplesAppend | testing/parse_journal.py:52-63 | the samples of a rigid body over two runs of entries are those of the first followed by those of the second |
| ParseJournal.MessagesAppend | testing/parse_journal.py:91-100 | the messages of a source over two runs of entries are those of the first followed by those of the second |
| ParseJournal.NotLoggedWritesNothing | testing/parse_journal.py:80-90 | a robot with no ARGoS entry has no output logged |
| ParseJournal.JoinAsWritten | testing/parse_journal.py:108-127 | as written, the join raises `AttributeError` exactly when the drone has no log, raises `TypeError` exactly when its log is not UTF-8, and otherwise gives what `JoinFixed` gives |
| ParseJournal.NoLogsRaises | testing/parse_journal.py:113-116 | a drone with tracking data and no logs raises `AttributeError` as written, while the corrected join attaches its tracking data |
| ParseJournal.JoinFixed | testing/parse_journal.py:108-127 | the logs found under the drone's id are attached; the tracking data of its rigid body is attached; the socket address is taken when the log is valid UTF-8 and reports one; messages change only to those sent from that address |
| ParseJournal.Drone.constructor | testing/parse_journal.py:9-18 | the MAC addresses and rigid-body id are kept, and nothing is attached |
| ParseJournal.Drone.Attach | testing/parse_journal.py:108-127 | the drone's attached data becomes what `JoinFixed` gives |
| ParseJournal.MakeDrones | testing/parse_journal.py:73-79 | one new drone per identifier, built from the last record with it, with nothing attached, no two sharing an object |
| ParseJournal.Script.constructor | testing/parse_journal.py:34-43 | the tables start empty |
| ParseJournal.Script.AddTracking | testing/parse_journal.py:52-63 | each update's sample is appended to its rigid body's list, in order; the other tables are kept |
| ParseJournal.Script.AddOutput | testing/parse_journal.py:80-90 | the robot gets a log entry, and the bytes go to its standard output or standard error; the other tables are kept |
| ParseJournal.Script.AddMessage | testing/parse_journal.py:91-100 | the message is appended to its source's list with its timestamp; the other tables are kept |
| ParseJournal.Script.SetDescriptors | testing/parse_journal.py:64-79 | the tables become those of the descriptors, with new drones; the other tables are kept |
| ParseJournal.Script.Absorb | testing/parse_journal.py:49-100 | one entry is loaded as its kind says, and the tables stay those of the entries so far |
| ParseJournal.Script.Load | testing/parse_journal.py:47-102 | after loading, every table is what the entries describe |
| ParseJournal.Script.Join | testing/parse_journal.py:108-127 | every drone's attached data becomes what `JoinFixed` gives for it |
| ParseJournal.GroupedStep | testing/parse_journal.py:53-63 | one more update keeps the tracking table grouped by rigid body |
| ParseJournal.TrackingEntry | testing/parse_journal.py:52-63 | a tracking entry adds to each rigid body exactly its own samples, in order |
| ParseJournal.OutputStep | testing/parse_journal.py:80-90 | one more output entry keeps the log table that of the entries |
| ParseJournal.OutputEntry | testing/parse_journal.py:80-90 | an output entry logs its robot and adds its bytes to that robot's standard output or standard error only |
| ParseJournal.MessageEntry | testing/parse_journal.py:91-100 | a message entry adds one record to its own source only |
| ParseJournal.LoadedKeys | testing/parse_journal.py:60-63 | a rigid body, or a message source, is in its table exactly when some entry gave it data |
| ParseJournal.KeepsTracking | testing/parse_journal.py:52 | entries of other kinds leave the tracking samples unchanged |
| ParseJournal.KeepsLogs | testing/parse_journal.py:80 | entries of other kinds leave the logs unchanged |
| ParseJournal.KeepsMessages | testing/parse_journal.py:91 | entries of other kinds leave the messages unchanged |

## Left out

- Concurrency. Tokio `select!` loops, spawned tasks, channels and timeouts are not modelled. A phase run with `FuturesUnordered` and `try_collect` is modelled as sequential, in table order, so the error reported is that of the first failing robot in table order rather than the first to finish.
- Arena.Run: the robots of one phase are awaited one after another; which failure `try_collect` reports first depends on timing, which is not modelled.
- Arena: the operations on an `Arena` accept any tables. The tables `arena::new` builds are those of `Collect`, with no descriptor twice (`Arena.Distinct`); on tables holding a repeated descriptor the model would count that robot twice, which the source cannot.
- BackendArena.Keyed: the map is a sequence holding, for each identifier, the last descriptor with it (`KeyedLastWins`), in the order of those last occurrences. A `HashMap` iterates in no particular order, so the start order of robots is modelled for this one order only.
- Map iteration order. Each `HashMap` the Rust code iterates (robot tables, the discovery table) is a sequence in some fixed order. The script's dictionaries are Dafny maps, and its join treats each drone on its own, so the order does not matter there.
- Router.DecodeLuaNumber: the floating-point value `mantissa / 2^63 * 2^exponent` is not computed. A number is kept as its raw mantissa and exponent, with the zero case, because Dafny has no IEEE doubles.
- Router.DecodeLuaNumber: modelled as written, with the strict comparison `remaining() > 12`. So a number whose 12 bytes end the buffer is refused (see `Router.TrailingNumberRefused`); no encoder in this model produces such a buffer alone.
- MavCodec: the `extra_crc` and `parse` functions of the `mavlink` crate are parameters. The checksum is `crc_any::CRCu16::crc16mcrf4cc()` (src/robot/drone/codec.rs:3, 69), which is CRC-16/MCRF4XX: reflected polynomial 0x8408, initial value 0xFFFF, no final xor. The model defines it bit by bit (`CrcByte`). How `crc_any` computes it internally is not modelled. The bitwise definition is proved to give the catalogued check value 0x6F91 (`CrcCheckValue`).
- Software.Bundle.CheckConfig: parsing the configuration file as XML is a parameter that yields the referenced scripts or nothing. The `roxmltree` traversal itself is not modelled.
- Software.Components: only Unix paths. Windows prefixes and `\` separators are outside the model, because the supervisor runs on Linux. Names are Unicode strings, not raw `OsString` bytes.
- SSH, UDP, TCP and HTTP. What the `thrussh` channel, the sockets and the servers deliver is an input; the key exchange, authentication and sockets are not modelled.
- Fernbedienung request routing, optitrack (`natnet_decode`), address discovery and the ping-pong of the network modules are not part of this model.
- Serialisation. `bincode`, `serde` and pickle encodings are left out; a message that fails to decode is modelled as an error value.
- Journal: an entry's time is an integer number of milliseconds that the caller supplies. Writing the entry to the pickle file is a success flag. The journal file's name and the `BufWriter` are not modelled.
- Experiment.Experiment.Execute: a panic from an `unwrap` during the start (a failed install or start, or a bundle without exactly one configuration file) ends the start. It is modelled as the `panicked` result with the state left unchanged; the death of the task is not modelled.
- WebUi: the uuid of each outgoing message is not modelled (`Uuid::new_v4` is random). The streams are lists of items; socket sends and their errors are not modelled.
- Frontend and the browser client: rendering (`view`, `render_*`), component links, the web socket itself and camera frames encoded in base64 are left out. A frame is kept as the bytes or the error received.
- ClientStatus.SignalOf: readings are unbounded integers, so the `i32` addition `level + 90` never overflows here. In the source it overflows only for readings within 90 of `i32::MAX`.
- ClientStatus: the robot update types that the client shares with the server are given as the datatypes the client reads.
- ClientUi.UserInterface.Receive: the experiment update is forwarded to a configuration component that is not modelled. The `SendUpMessage` and notification messages, and the configuration-component links, are left out.
- Discovery: the 32-byte receive buffer of the discovery tool is not modelled. A reply is the bytes received, and the clock is an input in milliseconds.
- ParseJournal: the regular expression that finds a robot's socket address in its log is a parameter, `socketIn`.
- ParseJournal: robot descriptors keep only the identifier, MAC addresses and tracking ids. The journal writes `Descriptors(builderbots, drones, pipucks)` (src/journal.rs:29). The script reads position 0 as the Pi-Pucks and looks up `pipuck['rpi_macaddr']` in each (testing/parse_journal.py:66-71). A BuilderBot descriptor has no such field (shared/src/builderbot.rs:6-11), so the script fails with `KeyError` on every journal that lists a BuilderBot. It also never reads the Pi-Pucks at position 2. The model follows the script's reading, for journals whose position 0 holds Pi-Puck records only; it does not model the `KeyError`.
- ParseJournal: ARGoS output is standard output or standard error, which is all the journal writes. The script also makes a log entry for a robot whose output has another tag, but appends nothing to it.
- ParseJournal: the constructor sets `argos_socketaddr`, while the join sets and reads `socketaddr`. The model has one `socketaddr` field, which starts empty.
- ParseJournal.Script.Join: joins the drones with the corrected join (see Findings), so a drone without logs never stops the loop. As written, that drone's exception ends the script before the remaining drones are joined.
- Printing, logging and the command-line handling of the script and the tools are left out.

## Findings

| source | as written | input that shows it | evidently intended | confidence | as-written member | corrected member |
|---|---|---|---|---|---|---|
| src/router.rs:256 | `let _ = tx.send(message.clone());` calls the asynchronous `send` of a `tokio::sync::mpsc::Sender` and drops the future it returns without awaiting it, so the message is never queued | two robots connected; the first sends a Lua table, and the second's queue stays empty | every peer but the sender receives the message (`send(..).await`) | medium, not executed | Router.ForwardAsWritten, Router.ForwardAsWrittenLosesMessage | Router.Delivered, Router.Peers.Receive |
| testing/parse_journal.py:116 | `socket_regex.search(drone_obj.log_as_utf8())` runs even when no log was attached, so `None.decode()` raises `AttributeError`; a log that is not UTF-8 makes `log_as_utf8` return `None`, and `search(None)` raises `TypeError` | a `Descriptors` entry with one drone and no ARGoS entry for it; or an ARGoS entry whose output is the single byte 0xFF | a drone without a usable log keeps no socket address and the join moves on, still attaching its tracking data | high, not executed | ParseJournal.JoinAsWritten, ParseJournal.NoLogsRaises | ParseJournal.JoinFixed, ParseJournal.Drone.Attach, ParseJournal.Script.Join |
