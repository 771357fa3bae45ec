# CSCI3280 voice chat and audio editor: a Dafny model of the client core

The repository is a browser application with two halves:
- an audio editor that reads, trims, splices and saves WAVE files;
- a voice chat made of a lobby and a room page. The lobby lists and creates rooms. The room page holds calls between peers, text messages with reaction counters, and a voice changer that leans on an audio worklet.

This project models the logic of that client in Dafny and proves what it promises:

- **`Wav`** (`wav.dfy`) covers the canonical 44-byte RIFF WAVE header. This is the header of the Microsoft/IBM *Multimedia Programming Interface and Data Specifications 1.0*, "WAVE Form Definition". The parts are:
  - the two writers, `saveWave` and `createWaveBlob`. They set the header field by field through a DataView into a zeroed buffer, here an `array<byte>`;
  - the little-endian field reader `parseFMT`;
  - the fixed-offset splitter `readWave`.

  The proofs cover the layout, both round trips, and the tag test of `readWave`. The format tags are 3 (`WAVE_FORMAT_IEEE_FLOAT`) and 1 (`WAVE_FORMAT_PCM`), as in Appendix A of RFC 2361.
- **`ChannelLayout`** (`channels.dfy`) converts between one sequence per channel and frame-interleaved order, and covers the two editing operations built on that. Sample values are opaque.
  - `interleaveChannels` is a loop over a fresh typed array.
  - The inner loop of `framesToAudioBuffer` deinterleaves.
  - `splitIntoChannels` and `audioToArrayBuffer` are the other conversions.
  - The editing operations are `trimAudioBuffer` and `overwriteSection`.
- **`VoiceChatRoom`** (`room_client.dfy`) is the room page. `Step` is a pure reducer over a `ClientState` value, and it is the specification. The class `RoomClient` keeps the same state in fields, and its methods update them in place as the page does:
  - the one-shot `joined` flag;
  - the `forEach` that places calls;
  - the in-place `reactions[kind] += 1`;
  - the `delete` from `activeCalls`.

  Each method is proved equal to `Step` or to the outgoing envelope it sends.
- **`PitchShifter`** (`pitch_shifter.dfy`) is the audio worklet's `process`. It is a nested loop over the output channel arrays, proved against a per-channel specification and against a reference decimation.
- **`VoiceChat`** (`lobby.dfy`) is the lobby page as pure functions:
  - the room-list events;
  - the create-room envelope and its enabling predicate;
  - the four-mode voice-changer cycle.
- **Supporting modules:**
  - `Js` (`js.dfy`) holds the JavaScript semantics the code relies on: `String.prototype.trim` and its whitespace set, `slice` with relative and clamped indices, and the decimal `toString` of a non-negative integer.
  - `Protocol` (`protocol.dfy`) holds the WebSocket envelopes and events.
  - `Wrappers` (`wrappers.dfy`) holds `Option` and `Result`.

Integer fields are unbounded in Dafny. The 16- and 32-bit wrap-around of `setUint16`/`setUint32`, and the two's-complement reading of `getInt16`/`getInt32`, are written out (`% TWO32`, `ToInt32`). A DataView read past the end of its buffer throws `RangeError`; here it is a `Failure(RangeError)`. The conditions under which `createBuffer` throws `NotSupportedError` are `Failure(NotSupportedError)`:
- no channel;
- a length below 1;
- a rate outside 3000–768000.

Reading past the end of a short channel gives `undefined`. Storing that into the Float32Array `final` of `interleaveChannels` gives NaN, which is the `nan` parameter of the channel functions. In the pitch shifter the same out-of-range read becomes `undefined || 0`, which is 0.

## Model

| member | source | states |
|---|---|---|
| Wav.HeaderLayout | client/src/utils/utils.js:40-60 | The header is 44 bytes. It spells "RIFF", "WAVE", "fmt " and "data" at offsets 0, 8, 12 and 36. Offset 4 holds (36 + data length) mod 2^32, offset 16 holds 16, offset 20 the audio format, 22 channels mod 2^16, 24 rate, 28 rate·channels·4, 32 channels·4, 34 32, and 40 the data length, all little-endian. |
| Wav.HeaderBytes | client/src/utils/utils.js:40-60 | The reference header that the writers and readers are proved against: the RIFF chunk, the `fmt ` chunk and the `data` chunk header, 44 bytes in all. |
| Wav.FromCharCode | client/src/utils/utils.js:15-17 | `String.fromCharCode` of bytes gives one character per byte, whose code is that byte. |
| Wav.HeaderOfChunks | client/src/utils/utils.js:40-60 | For any 12-, 24- and 8-byte chunks laid end to end, each tag and each 16- or 32-bit field of a chunk reads the same at its header offset: 0, 4 and 8 for RIFF, 12 to 34 for `fmt `, 36 and 40 for `data`. |
| Wav.RiffLayout | client/src/utils/utils.js:43-46 | The RIFF chunk spells "RIFF" and "WAVE" around the little-endian size (36 + data length) mod 2^32. |
| Wav.FmtLayout | client/src/utils/utils.js:48-56 | The `fmt ` chunk spells "fmt " and then holds 16, the audio format, channels, rate, rate·channels·4 and channels·4, each mod 2^16 or 2^32, and 32 bits per sample. |
| Wav.FmtFieldsReads | client/src/utils/utils.js:48-56 | For any field values, the `fmt ` bytes begin with the big-endian "fmt " word, and each field reads back at its offset as its value mod 2^16 or 2^32. |
| Wav.DataLayout | client/src/utils/utils.js:58-60 | The `data` chunk header spells "data" and holds the data length mod 2^32. |
| Wav.WriteHeader | client/src/utils/utils.js:33-60 | Setting the thirteen fields one by one into a zeroed 44-byte buffer yields exactly the RIFF chunk, then the `fmt ` chunk, then the `data` chunk header. |
| Wav.WriteRiffChunk | client/src/utils/utils.js:43-46 | The first 12 bytes become the RIFF chunk: tag, 36 + data length, "WAVE". The rest of the view is untouched. |
| Wav.WriteFmtChunk | client/src/utils/utils.js:48-56 | Bytes 12 to 36 become the `fmt ` chunk of the given field values in file order. The RIFF chunk before it and the bytes after it are kept. |
| Wav.WriteDataChunk | client/src/utils/utils.js:58-60 | Bytes 36 to 44 become the `data` tag and the data length. The first 36 bytes are kept. |
| Wav.SetUint32 | client/src/utils/utils.js:44-45 | Writes the 4 bytes of value mod 2^32 at the offset, in the requested byte order, and leaves every other byte of the view unchanged. |
| Wav.SetUint16 | client/src/utils/utils.js:51-52 | Writes the 2 bytes of value mod 2^16 at the offset and leaves every other byte unchanged. |
| Wav.Uint32Bytes | client/src/utils/utils.js:44-59 | The four bytes `setUint32` stores: ToUint32 of the value, least significant byte first when little-endian and last otherwise. Read back by `Uint32LittleEndianRoundTrip`. |
| Wav.Uint16Bytes | client/src/utils/utils.js:50-55 | The two bytes `setUint16` stores: ToUint16 of the value, in the chosen byte order. Read back by `Uint16LittleEndianRoundTrip`. |
| Wav.Uint32LittleEndianRoundTrip | client/src/utils/utils.js:45 | Reading back a little-endian 32-bit field gives the written value mod 2^32. |
| Wav.Uint16LittleEndianRoundTrip | client/src/utils/utils.js:51 | Reading back a little-endian 16-bit field gives the written value mod 2^16. |
| Wav.TagBytes | client/src/utils/utils.js:44-59 | The big-endian words 0x52494646, 0x57415645, 0x666d7420 and 0x64617461 spell "RIFF", "WAVE", "fmt " and "data". |
| Wav.AudioFormat | client/src/utils/utils.js:36 | The audio format is 1 exactly when `intPCM` is set, and 3 otherwise. |
| Wav.SaveWave | client/src/utils/utils.js:30-69 | The saved file is the header for the frame length followed by the frames unchanged. It is named after `name`, or after the time string when `name` is absent, with ".wav" appended. |
| Wav.CreateWaveBlob | client/src/utils/utils.js:73-106 | The blob is the same header, byte for byte, as `saveWave` writes for the same arguments, followed by the frames. |
| Wav.ToInt32 | client/src/utils/utils.js:134 | The signed reading of 32 bits lies in [-2^31, 2^31), is congruent to its argument mod 2^32, and is the argument itself when that fits. |
| Wav.ToInt16 | client/src/utils/utils.js:135 | The same for 16 bits. |
| Wav.GetInt32 | client/src/utils/utils.js:134 | The read succeeds exactly when 4 bytes lie within the buffer. Then it returns the signed little-endian value. |
| Wav.GetInt16 | client/src/utils/utils.js:135 | The read succeeds exactly when 2 bytes lie within the buffer. Then it returns the signed value. |
| Wav.ParseFmt | client/src/utils/utils.js:121-143 | `parseFMT` succeeds exactly when the chunk has at least 24 bytes; a shorter one throws `RangeError`. |
| Wav.ParseFmtOfWritten | client/src/utils/utils.js:121-143 | Parsing the written `fmt ` chunk gives fmt size 16, the audio format, the written channels, rate, byterate and block align each read back as signed 16- or 32-bit values, and sample width 4.0: every written value up to wrap-around and sign. |
| Wav.ParseFmtRoundTrip | client/src/utils/utils.js:121-143 | When every value fits its signed field, `parseFMT` of header bytes [12,36) returns exactly the written channels, rate, rate·channels·4, channels·4, format, 16 and 4. |
| Wav.HeaderChunks | client/src/utils/utils.js:43-60 | Header bytes [0,12), [12,36) and [36,44) are the RIFF chunk, the `fmt ` chunk and the `data` chunk header. |
| Wav.Sections | client/src/utils/utils.js:22-25 | With at least 44 bytes the four sections are the slices [0,12), [12,36), [36,44) and [44,∞). In every case they concatenate back to the whole buffer. |
| Wav.ReadWave | client/src/utils/utils.js:5-28 | All four sections are empty exactly when all three tags are missing. Otherwise the buffer is cut at the fixed offsets. |
| Wav.ReadWaveStrict | client/src/utils/utils.js:4-19 | The reading the comment on line 4 describes: the buffer is cut exactly when all three tags are present, and is blank otherwise. |
| Wav.ReadWaveAcceptsMissingTags | client/src/utils/utils.js:19 | "RIFF" followed by 40 zero bytes has neither a `fmt ` nor a `data` tag. `readWave` still cuts it, and the strict reader rejects it. |
| Wav.ReadersAgreeOnWellFormed | client/src/utils/utils.js:19-26 | On a buffer with all three tags present, the as-written and the strict reader agree. |
| Wav.ReadWaveRoundTrip | client/src/utils/utils.js:5-60 | `readWave(header ++ frames)` returns the header's RIFF, `fmt ` and `data` chunks and exactly the frames, for both readers. |
| Wav.ReadTaggedHeader | client/src/utils/utils.js:15-26 | Any 44-byte prefix carrying the three tags is cut back into its chunks and the frames that follow it. |
| Wav.ReadAndParseRoundTrip | client/src/utils/utils.js:5-143 | The `fmt ` section that the reader returns for a written file parses back to the written format. |
| Wav.ParseFmtOfBlank | client/src/utils/utils.js:9-10 | The empty `fmt ` section of a rejected buffer makes `parseFMT` throw. |
| ChannelLayout.InterleavedAt | client/src/utils/utils.js:146-153 | For equal-length channels, sample f·n + c of the interleaved sequence is sample f of channel c, and the length is n·L. |
| ChannelLayout.At | client/src/utils/utils.js:149-150 | The value stored for frame f of a channel: its sample f within the channel, and NaN (the stored `undefined`) past its end. |
| ChannelLayout.Interleaved | client/src/utils/utils.js:145-153 | The frame-major reference for `interleaveChannels`: the first channel's length of frames, one after another, n·L samples. |
| ChannelLayout.FramesAt | client/src/utils/utils.js:149-151 | The frame-major reference holds the same sample at every frame and channel index. |
| ChannelLayout.InterleaveChannels | client/src/utils/utils.js:146-153 | The loop that fills `final[i]` with `channels[i % n][⌊i/n⌋]` produces the frame-major interleaving of the channels. A channel shorter than the first contributes NaN. |
| ChannelLayout.InterleavedAtIndex | client/src/utils/utils.js:149 | Element i of the interleaving is read from channel i mod n at frame ⌊i/n⌋, with NaN past the end of a short channel. |
| ChannelLayout.Deinterleaved | client/src/utils/utils.js:194-201 | Deinterleaving gives n channels, each ⌊len/n⌋ samples long. |
| ChannelLayout.Channel | client/src/utils/utils.js:196-199 | One channel filled by the inner loop: ⌊len/n⌋ samples, sample f being frame sample f·n + c (see `DeinterleavedAt`). |
| ChannelLayout.DeinterleavedAt | client/src/utils/utils.js:198 | Sample f of channel c is frame sample f·n + c. |
| ChannelLayout.FramesToAudioBuffer | client/src/utils/utils.js:170-203 | The buffer is created exactly when there is at least one channel, at least one whole frame, and a rate in [3000, 768000]. It holds the given rate, ⌊len/channels⌋ frames, and channel c at frame f equal to frame sample f·channels + c. |
| ChannelLayout.ReadChannel | client/src/utils/utils.js:195-200 | The inner loop leaves channel c holding frame sample f·n + c at every whole frame f. The one store past the end, when the length is not a multiple of n, changes nothing. |
| ChannelLayout.FrameInRange | client/src/utils/utils.js:196 | A frame the loop test `frame < len / n` admits is at most ⌊len/n⌋. |
| ChannelLayout.FramesExhausted | client/src/utils/utils.js:196 | When the loop test fails, every whole frame below ⌊len/n⌋ has been visited. |
| ChannelLayout.DeinterleaveInterleave | client/src/utils/utils.js:146-201 | Deinterleaving the interleaving of equal-length channels gives back the channels. |
| ChannelLayout.InterleaveDeinterleave | client/src/utils/utils.js:146-201 | Interleaving the deinterleaving of whole frames gives back the frames. |
| ChannelLayout.SplitIntoChannels | client/src/utils/utils.js:156-164 | Yields one equal-length channel per buffer channel, equal to the buffer's channel data, in order. |
| ChannelLayout.AudioToArrayBuffer | client/src/utils/utils.js:166-167 | The buffer's channels interleaved, n·L samples long. |
| ChannelLayout.SliceAll | client/src/utils/utils.js:211-213 | Replaces every channel by its JavaScript `slice(startIndex, endIndex)` and keeps the channel count. |
| ChannelLayout.SliceAllFrom | client/src/utils/utils.js:232 | Replaces every channel by its `slice(endIndex)` and keeps the channel count. |
| ChannelLayout.SliceAllSameLength | client/src/utils/utils.js:211-213 | Slicing equal-length channels keeps them of equal length. |
| ChannelLayout.TrimAudioBuffer | client/src/utils/utils.js:205-221 | The trim succeeds exactly when the slice keeps at least one sample. Then the rate and channel count are kept, the length is the slice length, and each channel is its clamped `slice`. |
| ChannelLayout.OverwriteSection | client/src/utils/utils.js:223-243 | The output is interleave(every channel's [0,startIndex)), then interleave(replacement), then interleave(every channel's [endIndex,∞)). |
| ChannelLayout.OverwriteIsSplice | client/src/utils/utils.js:223-243 | With as many replacement channels as original ones, the output read back as channels is each channel's prefix, then the replacement channel, then the suffix. |
| ChannelLayout.InterleaveJoin | client/src/utils/utils.js:235-239 | Interleaving two runs of channels one after the other equals interleaving their channel-wise concatenation. |
| Js.Trim | client/src/routes/voice-chat-room.jsx:169 | `trim()` is empty exactly when the string is all whitespace. Otherwise it neither starts nor ends with whitespace. |
| Js.TrimStart | client/src/routes/voice-chat-room.jsx:169 | The result is a suffix of the string. Every character it drops is whitespace, and it is empty or starts with a non-whitespace character. |
| Js.TrimEnd | client/src/routes/voice-chat-room.jsx:169 | The result is a prefix of the string. Every character it drops is whitespace, and it is empty or ends with a non-whitespace character. |
| Js.RelativeIndex | client/src/utils/utils.js:212 | A `slice` bound: a negative k counts from the end, and the result is clamped to [0, len]. |
| Js.Slice | client/src/utils/utils.js:212 | `slice(start, end)` is the subsequence between the two relative, clamped bounds, and empty when they cross. |
| Js.SliceFrom | client/src/utils/utils.js:231-232 | `slice(start)` is everything from the relative, clamped start to the end. |
| Js.SliceInRange | client/src/utils/utils.js:212 | For in-range bounds, `slice` is the plain subsequence. |
| Js.Decimal | client/src/routes/voice-chat-room.jsx:177 | `toString()` of a non-negative integer is a nonempty string of decimal digits with no leading zero. |
| Js.DecimalRoundTrip | client/src/routes/voice-chat-room.jsx:177 | Reading the decimal digits back gives the number. |
| Js.DecimalInjective | client/src/routes/voice-chat-room.jsx:177 | Different numbers have different decimal strings. |
| VoiceChatRoom.RoomClient.constructor | client/src/routes/voice-chat-room.jsx:9-21 | The page starts with no room snapshot, not joined, no peer, no calls and an empty message box. |
| VoiceChatRoom.RoomClient.OnOpen | client/src/routes/voice-chat-room.jsx:25-49 | With no username, it only navigates to the lobby. Otherwise it sends one `get-room` for this room and creates the Peer. |
| VoiceChatRoom.RoomClient.OnPeerOpen | client/src/routes/voice-chat-room.jsx:50-60 | Records our peer id and sends one `join-room` with the room, username and that id. |
| VoiceChatRoom.RoomClient.OnCallStream | client/src/routes/voice-chat-room.jsx:62-71 | A call that starts streaming becomes the active call for its peer. No other entry changes. |
| VoiceChatRoom.RoomClient.OnMessage | client/src/routes/voice-chat-room.jsx:77-147 | The state after each incoming event is `Step` of the state before it. |
| VoiceChatRoom.Step | client/src/routes/voice-chat-room.jsx:77-147 | The `onmessage` reducer. No event sends an envelope, touches the message box, the peer or the navigation, or resets `joined`. The placed-call and closed-call logs only grow, and active calls are only removed, never added or changed. |
| VoiceChatRoom.RoomClient.OnJoinRoom | client/src/routes/voice-chat-room.jsx:79-97 | The `forEach` over the users places calls in list order to exactly `CallTargets`, and only while `joined` is still false. |
| VoiceChatRoom.RoomClient.OnLeaveRoom | client/src/routes/voice-chat-room.jsx:101-106 | Installs the new room, then closes and deletes the leaver's call. |
| VoiceChatRoom.RoomClient.OnSendMessage | client/src/routes/voice-chat-room.jsx:107-112 | The spread appends the payload. With no snapshot, the state is left as it was. |
| VoiceChatRoom.RoomClient.OnReaction | client/src/routes/voice-chat-room.jsx:113-146 | The in-place walk over the messages ends in the same messages as `ApplyReaction`. Name and users are kept. |
| VoiceChatRoom.RoomClient.SetMessage | client/src/routes/voice-chat-room.jsx:286 | Only the message box changes. |
| VoiceChatRoom.RoomClient.HandleMessage | client/src/routes/voice-chat-room.jsx:166-193 | Sends `OutgoingMessage` of the typed text, if any, and clears the box in both cases. |
| VoiceChatRoom.RoomClient.HandleReaction | client/src/routes/voice-chat-room.jsx:195-209 | Sends one `reaction` envelope with this room, the message id and the reaction type. |
| VoiceChatRoom.RoomClient.HandleLeaveRoom | client/src/routes/voice-chat-room.jsx:211-222 | Sends one `leave-room` envelope with this room and username, then navigates to the lobby. |
| VoiceChatRoom.RoomClient.Unmount | client/src/routes/voice-chat-room.jsx:150-153 | Every active call is closed exactly once: the closed log grows by the handles of a ghost peer order that lists each old key once. Then the map is emptied, and nothing else changes. |
| VoiceChatRoom.CloseAll | client/src/routes/voice-chat-room.jsx:152 | `forEach(call => call.close())` closes the calls of a peer order that lists every key of the map exactly once, and returns their handles in that order. |
| VoiceChatRoom.HandlesOf | client/src/routes/voice-chat-room.jsx:152 | The handles of the listed peers' calls, one per peer, in list order. |
| VoiceChatRoom.Bump | client/src/routes/voice-chat-room.jsx:122 | `reactions[kind] += 1` raises that counter by one and leaves every other counter and field. |
| VoiceChatRoom.Incremented | client/src/routes/voice-chat-room.jsx:122 | `+= 1` gives a number exactly when the counter exists and is a number, and then it is that number plus 1. A missing key (`undefined + 1`) or NaN gives NaN. |
| VoiceChatRoom.ApplyReaction | client/src/routes/voice-chat-room.jsx:120-126 | The `messages.map`: the same number of messages, each with its id and content kept. `ApplyReactionAt` states which ones are bumped. |
| VoiceChatRoom.ApplyReactionAt | client/src/routes/voice-chat-room.jsx:120-126 | After a reaction, each message whose id matches is bumped and each other message is untouched. |
| VoiceChatRoom.ReactionIncrementsOneCounter | client/src/routes/voice-chat-room.jsx:120-126 | On every matching message the chosen counter grows by exactly 1. The other counters, the id and the content are kept, and non-matching messages are unchanged. |
| VoiceChatRoom.ReactionWithoutMatch | client/src/routes/voice-chat-room.jsx:118-126 | When no message carries the id, the messages are unchanged. |
| VoiceChatRoom.ReactionWithoutMatchUnchanged | client/src/routes/voice-chat-room.jsx:113-146 | A `reaction` event whose id matches no message leaves the whole client state as it was. |
| VoiceChatRoom.ReactionsAccumulate | client/src/routes/voice-chat-room.jsx:120-126 | After k reactions of one kind, a matching message's counter has grown by exactly k and its other counters are kept. |
| VoiceChatRoom.CallTargetsExactly | client/src/routes/voice-chat-room.jsx:84-96 | A peer is called exactly when it is among the listed users and is not our own peer id. |
| VoiceChatRoom.CallTargets | client/src/routes/voice-chat-room.jsx:84-96 | The peers the `forEach` calls, in list order: at most one per listed user, and never our own peer id. |
| VoiceChatRoom.SendMessageAppends | client/src/routes/voice-chat-room.jsx:107-112 | The payload becomes the last message, the count grows by one, and earlier messages, users and name are unchanged. |
| VoiceChatRoom.JoinRoomCalls | client/src/routes/voice-chat-room.jsx:79-97 | `join-room` always installs its snapshot and sets `joined`. If already joined, no call is placed. On the first join, the new calls are exactly the listed users other than ourselves. |
| VoiceChatRoom.SecondJoinPlacesNoCall | client/src/routes/voice-chat-room.jsx:82-83 | A second `join-room` places no call. |
| VoiceChatRoom.JoinedIsOneShot | client/src/routes/voice-chat-room.jsx:82-83 | `joined` is never reset, and only `join-room` sets it. |
| VoiceChatRoom.LeaveRoomForgetsLeaver | client/src/routes/voice-chat-room.jsx:101-106 | `leave-room` installs `newRoom` and removes only the leaver's key, whose call it closes. Every other entry is kept. |
| VoiceChatRoom.GetRoomReplaces | client/src/routes/voice-chat-room.jsx:98-100 | `get-room` installs its payload, null or not, and changes nothing else. |
| VoiceChatRoom.EventsSendNothing | client/src/routes/voice-chat-room.jsx:77-147 | No incoming event sends an envelope or touches the message box. |
| VoiceChatRoom.FreshReactions | client/src/routes/voice-chat-room.jsx:178-184 | A new message has exactly the counters good, love, haha, fire and bad, all 0. |
| VoiceChatRoom.OutgoingMessage | client/src/routes/voice-chat-room.jsx:169-188 | Nothing is sent exactly when the text is all whitespace. Otherwise one `send-message` goes to this room with type "text", our username, the untrimmed text, an id starting "reaction-" and all five counters at 0. |
| VoiceChatRoom.MessageIdsDiffer | client/src/routes/voice-chat-room.jsx:177 | Different random draws give different message ids. |
| VoiceChatRoom.FirstReactionOnFreshMessage | client/src/routes/voice-chat-room.jsx:178-184 | The first reaction of a kind on a new message makes that counter 1 and leaves the others at 0. |
| PitchShifter.DecimateAt | client/src/routes/pitch-shifter-processor.js:11 | Sample i of the reference decimation is input sample 2i, and there are ⌈L/2⌉ of them. |
| PitchShifter.ShiftChannel | client/src/routes/pitch-shifter-processor.js:10-12 | One output channel after `process`: it has the output's length, and every sample past the input's length keeps its old value. |
| PitchShifter.ShiftIsDecimation | client/src/routes/pitch-shifter-processor.js:10-12 | Below ⌈L/2⌉ an output sample is input sample 2s. From ⌈L/2⌉ to L it is 0. Past the input length it keeps its old value. |
| PitchShifter.ShiftSameLength | client/src/routes/pitch-shifter-processor.js:10-12 | With equal input and output lengths L, the output is the decimated input padded with zeros to L. |
| PitchShifter.Process | client/src/routes/pitch-shifter-processor.js:2-16 | Each output channel becomes `ShiftChannel` of the input channel with the same index, and the inputs are not modified. It returns true when every output channel has an input channel; an output channel without one throws and leaves that channel and later ones unwritten. |
| VoiceChat.GetRoomsReplaces | client/src/routes/voice-chat.jsx:32-34 | A `get-rooms` reply replaces the room map wholesale and nothing else. |
| VoiceChat.OnOpen | client/src/routes/voice-chat.jsx:20-28 | Opening the socket clears `loading` and sends one `get-rooms`. The rooms and the typed name are kept. |
| VoiceChat.OnLobbyMessage | client/src/routes/voice-chat.jsx:30-40 | An incoming event never touches `loading` or the typed name. It sends at most one `get-rooms`, and only a `get-rooms` reply changes the room map. |
| VoiceChat.CreateRoom | client/src/routes/voice-chat.jsx:47-58 | Sends one `create-room` with the typed name, clears the name, and keeps the rooms and `loading`. |
| VoiceChat.Refresh | client/src/routes/voice-chat.jsx:60-66 | Sends one `get-rooms` and changes nothing else. |
| VoiceChat.SetCreateRoomName | client/src/routes/voice-chat.jsx:111 | Only the typed name changes, to the new value. |
| VoiceChat.CreateRoomNotificationRefreshes | client/src/routes/voice-chat.jsx:35-39 | A `create-room` notification sends exactly one new `get-rooms` request. |
| VoiceChat.CreateRoomSendsName | client/src/routes/voice-chat.jsx:47-58 | `handleCreateRoom` sends one `create-room` with the typed name and resets the name to "". |
| VoiceChat.CreateRoomExchange | client/src/routes/voice-chat.jsx:20-66 | The sequence open, type, create, receive a `create-room` notification, receive the rooms leaves these envelopes sent: get-rooms, create-room(name), get-rooms, in that order. It ends with the received map, an empty input, and loading done. |
| VoiceChat.CreateRoomDisabled | client/src/routes/voice-chat.jsx:114-117 | The button is disabled exactly when the room name or the username is all whitespace. |
| VoiceChat.Position | client/src/routes/voice-chat.jsx:68-78 | Each of the four modes has its index in the cycle normal, deep, chipmunk, echo. |
| VoiceChat.NextVoice | client/src/routes/voice-chat.jsx:68-78 | A known mode moves to the next one in the cycle, with echo wrapping to normal. An unknown mode is kept. |
| VoiceChat.PositionOfIndex | client/src/routes/voice-chat.jsx:68-78 | The four modes are distinct: the mode at index j has position j. |
| VoiceChat.NextVoiceAt | client/src/routes/voice-chat.jsx:68-78 | One press moves the j-th mode to the next index, and echo wraps to normal. |
| VoiceChat.PressesIndex | client/src/routes/voice-chat.jsx:68-78 | k presses from the i-th mode land on the mode at the index k cycle steps after i. |
| VoiceChat.CycleIndexIsMod | client/src/routes/voice-chat.jsx:68-78 | k cycle steps after index i is index (i + k) mod 4. |
| VoiceChat.PressesAlongCycle | client/src/routes/voice-chat.jsx:68-78 | k presses from the i-th mode land on the (i + k) mod 4-th. |
| VoiceChat.VoiceCyclePeriod | client/src/routes/voice-chat.jsx:68-78 | Four presses return to the starting mode, and one to three presses never do. |
| VoiceChat.CycleReturns | client/src/routes/voice-chat.jsx:68-78 | Four presses from any of the four modes return to it. |
| VoiceChat.CycleNotEarlier | client/src/routes/voice-chat.jsx:68-78 | One, two or three presses from any of the four modes land on a different mode. |
| VoiceChat.UnknownVoiceFixed | client/src/routes/voice-chat.jsx:68-78 | A mode outside the four is never changed by any number of presses. |

## Left out

- server/index.js is not part of this model. The server broadcasts every message unchanged to every open socket, including the sender. The room page's reducer expects payloads shaped by a room coordinator, for example a `join-room` that carries the whole room. No shown file has that coordinator. `RoomEvent` therefore carries the payload shapes that the reducer reads.
- Browser and foreign APIs are outside the model. The visible effects are logs in the client state: envelopes sent, calls placed, calls closed, navigation to the lobby. The APIs are:
  - AudioContext, `createBuffer`, `copyFromChannel`, `getChannelData`;
  - MediaRecorder and `getUserMedia`;
  - IndexedDB;
  - Blob, `URL.createObjectURL` and the anchor click download;
  - FileReader (`readFileAsDataURL`);
  - PeerJS calls, streams and `Audio` playback;
  - WebSocket transport and JSON encoding;
  - the DOM `querySelector` updates of the reaction counters.
- `createBuffer` has an upper bound on the channel count. It is not modelled, because the limit depends on the implementation.
- `getUserMedia` is awaited in the socket's `onopen`. That asynchrony and any interleaving with other events are not modelled. `OnOpen` is the handler after the stream is available.
- `setLoading` and the rendering of the room page are not modelled. They only choose which screen is shown.
- `speech2text` (client/src/utils/utils.js:248-267) is left out. It is an HTTP call to an external speech service.
- The seconds-to-index conversion `Math.floor(start * sampleRate)` in `trimAudioBuffer` and `overwriteSection` is floating point. Both operations take integer sample indices.
- Only sample width 4 of `framesToAudioBuffer` is modelled. The recording and library paths pass that width (client/src/routes/audio-editor.jsx:107 and 332). An uploaded file passes the width it declares (client/src/routes/audio-editor.jsx:161-166), so uploaded 16-bit files (divided by 32768, client/src/utils/utils.js:185-187) and 64-bit files are not covered. The byte reinterpretation through a typed array is also left out: frames are a sequence of opaque samples.
- `Wav.WriteHeader`: `rate * channels * 4` is a double in JavaScript. The model uses exact integer arithmetic, so it does not capture rounding above 2^53. Non-integer rates and channel counts are not modelled either.
- `Wav.FromCharCode`: `String.fromCharCode` of a byte is the character with that code. Nothing else of its behaviour is modelled.
- `ChannelLayout.InterleaveChannels` requires at least one channel. The source reads `channels[0]` and throws a TypeError on an empty list.
- `ChannelLayout.SplitIntoChannels`, `ChannelLayout.AudioToArrayBuffer`, `ChannelLayout.TrimAudioBuffer` and `ChannelLayout.OverwriteSection` require a valid AudioBuffer, because an AudioBuffer cannot exist otherwise.
- `ChannelLayout.OverwriteSection` returns the bytes the awaited `blob.arrayBuffer()` yields. The Blob itself is not modelled.
- `PitchShifter.Process` takes the channels of the first input and of the first output, which is what it reads. The engine gives it separate, non-aliasing arrays. Samples are reals, so the `|| 0` that turns NaN (and -0) into 0 is not modelled; for every real sample, `x || 0` is `x`.
- `VoiceChatRoom.RoomClient.HandleMessage` takes the random draw `Math.trunc(Math.random() * 100000000)` as a parameter below 10^8.
- `VoiceChatRoom.RoomClient.Unmount` and `VoiceChatRoom.CloseAll` close the calls in some order that lists every peer once. They do not state that this order is the map's insertion order. Destroying the Peer and closing the socket are not modelled.
- `VoiceChatRoom.RoomClient.OnReaction`: reacting to a message id that is not on screen makes the DOM update throw after the walk. The walk's result is the same either way, and the model states that result.
- Events the reducer throws on leave the state as it was, or as far as the throw got: a `send-message` or `reaction` with no snapshot, a `leave-room` for a peer with no call, or a `join-room` before the Peer exists. React's later re-render errors are not modelled.
- `SaveWave` takes the local-time string it falls back on as a parameter.
- client/src/routes/audio-editor.jsx and the other UI files are not part of this model. The audio editor only sequences the utilities above and browser APIs.

## Findings

| source | as written | input that shows it | evidently intended | confidence | as-written member | corrected member |
|---|---|---|---|---|---|---|
| client/src/utils/utils.js:19 | The buffer is rejected (`riffString !== "RIFF" && fmtString !== "fmt " && dataString !== "data"`) only when all three tags are missing. | The 44 bytes "RIFF" followed by 40 zero bytes: there is no `fmt ` and no `data` tag, but the buffer is cut into sections. | Per the comment on line 4, every section is blank unless the file is a supported WAVE file, with all three tags present: a `\|\|` test. | not executed | Wav.ReadWave, Wav.ReadWaveAcceptsMissingTags | Wav.ReadWaveStrict |
