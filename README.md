# deskthing-mic capture daemon: WAV framing and control state machine

This project models two pieces of the Go capture daemon of deskthing-mic and proves properties about them. The daemon records microphone audio and streams it to clients over WebSocket.

- **`audio.dfy`, module `Audio`**: this models `daemon/audio.go`.
  - `wavChunk` wraps raw PCM bytes in the canonical 44-byte RIFF/WAVE PCM header. The header has a `RIFF` container, a 16-byte `fmt ` sub-chunk and a `data` sub-chunk. Every field is little-endian and sits at a fixed offset.
  - `wavChunk` is modelled as a method that writes the header field by field into a growable byte buffer (`ByteBuffer`, the role `bytes.Buffer` plays in Go). The method is proved equal to the pure byte-sequence function `WavBytes`.
  - A header decoder (`DecodeHeader`) serves as the inverse of the header encoder. The round trip is proved in both directions.
  - The module also covers the read-window size a capture session fixes when it starts. That is `int(SampleRate * SecondsPerChunk) * BytesPerSample` bytes, framed into one chunk per read.
- **`server.dfy`, module `Server`**: this models `daemon/server.go`.
  - The package-level state is the capture session, `currentConfig`, `micState`, `micError` and the set of open connections.
  - `broadcastState` sends one identical state message to every open connection.
  - A new connection is registered and greeted with the current state.
  - Each iteration of `handleWebSocket`'s read loop is one atomic step. The class `Daemon` holds the state as fields and updates it in place. Its method `HandleMessage` is proved equal to the pure transition function `Step`, and the lemmas state the transition table row by row.
  - JSON decoding is replaced by the decoded form of each inbound message (`Inbound`, `CommandPayload`). The outcome of starting the capture process, when it returns, is a boolean parameter; the panic a negative read window causes is modelled from the config.

Go's `uintN(x)` conversions are modelled as `x % 2^N`. Dafny's `%` is never negative, which matches Go's two's-complement truncation for negative `int`s. Go's 64-bit `int` can wrap in `sampleRate * blockAlign`, but this does not change the low 32 bits that are written, so the products are computed exactly.

Behaviour the model follows as written:
- The format tag at offset 20 is always 1 (integer PCM), even when `bytesPerSample` is 4 (`daemon/audio.go:86`). `WavBytesLayout` states this for every input.
- A `mic-listen` with a decodable payload overwrites `currentConfig` even while a session is running: the assignment at `daemon/server.go:121` runs before the session check at line 125. The running session keeps the config it was started with, and no state is broadcast. `ListenWithSession` and `ReportedConfigDrifts` state this, and `ChangesAreBroadcast` names it as a silent state change.
- A `mic-listen` whose config gives a negative read window panics in `make` at `daemon/audio.go:26`, before anything is started. The HTTP server recovers the handler's panic, and the deferred clean-up at `daemon/server.go:73-76` removes the connection. The config stored at line 121 stays; state, error and session are unchanged, and nothing is broadcast (`ListenWithoutSession`, `NegativeRateDropsConnection`).
- A `mic-config` without a payload is reported as `"Invalid config"`, because unmarshalling an empty payload fails (`daemon/server.go:159`).
- A read error (`daemon/server.go:92-98`) stops only that connection's loop; nothing in the handler stops `audioSession`. The session keeps writing chunks to the connection that started it, where the writes fail once it is closed (`daemon/server.go:75`, `127`); the capture process keeps running (`ErrorExits`, `SessionSurvivesUntilStop`).
- The capture process is launched with a fixed native format: S16_LE, mono, 48000 Hz (`daemon/audio.go:31-37`). The chunk headers describe the client-requested configuration instead (`daemon/audio.go:56`). The model keeps this behaviour: headers are computed only from the requested config (`ChunkHeader`, `SessionChunk`). It does not reconcile the two formats.

## Model

| member | source | states |
|---|---|---|
| Audio.LE16 | daemon/audio.go:86-91 | the two bytes binary.Write emits for a uint16; their content is stated by LE16RoundTrip and ReadLE16Canonical |
| Audio.LE32 | daemon/audio.go:81-94 | the four bytes binary.Write emits for a uint32; their content is stated by LE32RoundTrip and ReadLE32Canonical |
| Audio.ReadLE16 | daemon/audio.go:86-91 | a little-endian u16 read back from two bytes is below 2^16; LE16RoundTrip and ReadLE16Canonical make it the inverse of LE16 |
| Audio.ReadLE32 | daemon/audio.go:81-94 | a little-endian u32 read back from four bytes is below 2^32; LE32RoundTrip and ReadLE32Canonical make it the inverse of LE32 |
| Audio.Ascii | daemon/audio.go:80-93 | the bytes WriteString appends for an ASCII tag: one byte per character, equal to its code |
| Audio.ToU16 | daemon/audio.go:86-91 | `uint16(x)` is the unique value below 2^16 congruent to x modulo 2^16 (the low 16 bits, so -1 gives 65535), and the identity on values that already fit |
| Audio.ToU32 | daemon/audio.go:81-94 | `uint32(x)` is the unique value below 2^32 congruent to x modulo 2^32 (the low 32 bits), and the identity on values that already fit |
| Audio.LE16RoundTrip | daemon/audio.go:86-91 | reading back a little-endian u16 field recovers the value written |
| Audio.LE32RoundTrip | daemon/audio.go:81-94 | reading back a little-endian u32 field recovers the value written |
| Audio.ReadLE16Canonical | daemon/audio.go:86-91 | re-encoding a u16 that was read reproduces the same two bytes |
| Audio.ReadLE32Canonical | daemon/audio.go:81-94 | re-encoding a u32 that was read reproduces the same four bytes |
| Audio.EncodeHeader | daemon/audio.go:79-94 | the header written by lines 80-94 is exactly 44 bytes |
| Audio.HeaderRoundTrip | daemon/audio.go:79-94 | decoding an encoded well-formed header, whatever follows it, gives back the same header |
| Audio.DecodeHeaderCanonical | daemon/audio.go:79-94 | a header that decodes is well-formed and re-encodes to exactly its first 44 bytes |
| Audio.DecodeHeader | daemon/audio.go:79-94 | a header is read only from at least 44 bytes, and what it reads fits every field's width; HeaderRoundTrip and DecodeHeaderCanonical make it the inverse of EncodeHeader |
| Audio.ChunkHeader | daemon/audio.go:74-94 | the header values wavChunk writes (size 36+dataLen, fmt size 16, tag 1, channels, rate, byte rate, block align, bits, data size), each truncated to its width, always fit their fields |
| Audio.WavBytes | daemon/audio.go:73-97 | the chunk wavChunk returns is 44 + len(pcm) bytes and ends in the pcm unchanged; WavBytesLayout and WavBytesRoundTrip state its header |
| Audio.WavBytesLayout | daemon/audio.go:73-96 | the chunk is 44+len(pcm) bytes; "RIFF", "WAVE", "fmt " and "data" sit at 0, 8, 12 and 36; offsets 4, 16, 20, 22, 24, 28, 32, 34 and 40 hold u32(36+len), 16, 1, u16(channels), u32(rate), u32(rate*channels*bps), u16(channels*bps), u16(bps*8) and u32(len); bytes 44.. are the pcm |
| Audio.WavBytesRoundTrip | daemon/audio.go:73-95 | when channels and bits fit u16 and rate and 36+len fit u32, parsing the header recovers channels, sample rate, bytes per sample (bits/8), data length and RIFF size, and the payload follows |
| Audio.ByteBuffer.constructor | daemon/audio.go:78 | a new buffer is empty |
| Audio.ByteBuffer.WriteString | daemon/audio.go:80-93 | WriteString appends the bytes of an ASCII string |
| Audio.ByteBuffer.WriteU16LE | daemon/audio.go:86-91 | binary.Write of a uint16 appends its two little-endian bytes |
| Audio.ByteBuffer.WriteU32LE | daemon/audio.go:81-94 | binary.Write of a uint32 appends its four little-endian bytes |
| Audio.ByteBuffer.Write | daemon/audio.go:95 | Write appends the payload verbatim |
| Audio.ByteBuffer.Bytes | daemon/audio.go:96 | buf.Bytes() on a buffer never read from returns everything written to it |
| Audio.WavChunk | daemon/audio.go:73-97 | the bytes built by the successive buffer writes are exactly WavBytes: 44+len(pcm) bytes ending in the pcm |
| Audio.TruncateToInt | daemon/audio.go:26 | Go's int() of a float truncates toward zero: the result is within 1 of the argument, on the zero side |
| Audio.ReadWindowSize | daemon/audio.go:26 | the size of the buffer made for each read is never negative when rate, seconds and bytes per sample are not, and is 0 when bytes per sample is 0; ReadWindowWholeSeconds gives its value |
| Audio.ReadWindowWholeSeconds | daemon/audio.go:26 | for whole-number seconds the read window is sampleRate*seconds*bytesPerSample bytes, independent of channels |
| Audio.SessionChunk | daemon/audio.go:51-56 | a chunk framed from one full read window is 44 + window size bytes and carries the window verbatim |
| Audio.SessionChunkLength | daemon/audio.go:26-56 | with whole-number seconds every emitted chunk is 44 + sampleRate*seconds*bytesPerSample bytes |
| Audio.OneSecondAt16kHz | daemon/audio.go:26-56 | 16000 Hz, 1 channel, 2 bytes per sample, 1 s per chunk: 32000 bytes read, 32044-byte chunks |
| Server.Broadcast | daemon/server.go:61-63 | a broadcast writes the state message to every connection in the set and to no other |
| Server.Connect | daemon/server.go:72-89 | a new connection joins the set, keeps every other connection, is the only one greeted, and the reported state and session do not change |
| Server.Fail | daemon/server.go:95-97 | an error sets state "error" with the given text, keeps session, config and connections, and tells every open connection the new state (also the branches at lines 104-106, 116-118 and 160-162) |
| Server.Listen | daemon/server.go:112-141 | mic-listen never replaces a running session; a session it starts belongs to the sender and uses the stored config; it ends the handler only in the panic case, which removes just the sender and sends nothing |
| Server.Stop | daemon/server.go:142-150 | mic-stop leaves no session, keeps config and connections, and after a running session reports "idle" with no error |
| Server.Configure | daemon/server.go:151-166 | mic-config keeps the session and connections, and changes the config only when no session runs, to the decoded payload |
| Server.Step | daemon/server.go:91-191 | a read-loop iteration removes at most its own connection, and does exactly when its loop ends; a read error always ends it; only control messages change the session |
| Server.Daemon.constructor | daemon/server.go:42-48 | the daemon starts with no session, a zero config, state "idle", no error and no connections |
| Server.Daemon.CurrentPayload | daemon/server.go:54-58 | the state payload carries the current micState, currentConfig and micError |
| Server.Daemon.BroadcastState | daemon/server.go:50-64 | one identical state message to every open connection and to no other, changing nothing |
| Server.Daemon.Accept | daemon/server.go:72-89 | a new connection joins the set and receives the current state, nothing else changes |
| Server.Daemon.HandleMessage | daemon/server.go:91-191 | one read-loop iteration updates the package state in place and writes exactly the frames of the transition table Step |
| Server.ConnectGreets | daemon/server.go:72-89 | on connect the set gains the connection, the greeting carries micState, currentConfig and micError, and nothing else changes |
| Server.ListenWithoutSession | daemon/server.go:112-138 | mic-listen with no session: a decoded payload replaces the config and an absent one keeps it; a negative read window drops the connection with no other change and no message; otherwise start success gives a session for the sender, "listening" and "", failure gives no session, "error" and "Audio start error", and either way one broadcast to all open connections |
| Server.NegativeRateDropsConnection | daemon/server.go:114-138 | mic-listen with sampleRate -8000 and no session stores the config, sends nothing and ends the connection's handler, which is removed from the set |
| Server.ListenWithSession | daemon/server.go:112-141 | mic-listen while a session runs keeps the session, state and error, broadcasts nothing, and still replaces the config with a decoded payload |
| Server.ListenBadPayload | daemon/server.go:113-119 | an undecodable mic-listen payload sets "error"/"Invalid config", broadcasts it, and keeps config and session |
| Server.StopSemantics | daemon/server.go:142-150 | mic-stop with a session clears it, sets "idle" and "" and broadcasts; without one it changes and sends nothing |
| Server.ConfigureSemantics | daemon/server.go:151-166 | mic-config is ignored while a session runs; otherwise a decoded payload replaces the config with state and error untouched, anything else sets "error"/"Invalid config"; both broadcast |
| Server.RepliesChangeNothing | daemon/server.go:100-189 | mic-state replies with the snapshot and ping with the pong only to the sender; non-text frames, unknown types and unknown requests send nothing; none changes the state |
| Server.ErrorExits | daemon/server.go:73-107 | bad JSON sets "error"/"Invalid command", broadcasts and keeps the connection; a read error sets "error"/"WebSocket read error", broadcasts to all including the failing connection, then removes it and ends its loop |
| Server.RecipientsAreOpen | daemon/server.go:61-188 | every frame a step writes goes to a connection that was open |
| Server.ChangesAreBroadcast | daemon/server.go:91-191 | every change of reported state or session is broadcast to all open connections, except mic-listen with a payload during a session or with a config whose read window is negative |
| Server.ReportedConfigDrifts | daemon/server.go:113-141 | after mic-listen with a new config during a session, the reported config differs from the running session's config and nobody is told |
| Server.InitialConsistent | daemon/server.go:42-48 | the initial state is consistent |
| Server.ApplyConsistent | daemon/server.go:72-191 | each connect or message keeps the state consistent: "listening" only with a session, error text non-empty exactly in "error", and one of the daemon's four messages |
| Server.RunConsistent | daemon/server.go:72-191 | any sequence of connects and messages from a consistent state ends consistent |
| Server.SessionSurvivesUntilStop | daemon/server.go:125-150 | a running session, with its owner and config, is untouched by any sequence of events that contains no mic-stop |

## Left out

- HTTP serving and the WebSocket upgrade (`daemon/server.go:30-40`, `67-71`) are left out. They are network I/O through net/http and gorilla/websocket.
- JSON marshalling and unmarshalling are left out. Inbound messages are their decoded forms, and state messages are records, not bytes. A payload that unmarshals into a `MicConfig` is `Decoded(cfg)` with whatever field values the decoder produced.
- The `arecord` subprocess, its pipe, `io.ReadFull` and `Process.Kill` (`daemon/audio.go:31-44`, `51`, `65-70`) are left out. They are external process I/O. Whether a start succeeds is a parameter, and stopping a session is modelled as clearing it.
- The capture goroutine, its `stopChan` and the `time.Sleep` between chunks (`daemon/audio.go:45-61`) are left out. The model states what each emitted chunk contains, but not when chunks are emitted or how many.
- Concurrency is left out: each message is one atomic step. The source's unsynchronised access to the globals from concurrent connection handlers and the capture goroutine is not modelled.
- A failed `conn.WriteMessage` is left out: its error is ignored in the source, and the model treats every write as delivered. Logging is left out too.
- Broadcast order is left out. Go iterates the connection map in an unspecified order, so a broadcast is modelled as a set of deliveries.
- `SecondsPerChunk` is an exact real, not a float64. The rounding in `float64(SampleRate)*SecondsPerChunk` is not modelled.
- A read window too large to allocate is left out; only the panic on a negative size is modelled.
- Audio.ReadWindowWholeSeconds: states the window size only for a whole number of seconds. A fractional value goes through float64 rounding, which is not modelled.
- The client-side TypeScript (backend manager, network and local capture backends) is not part of this model.
