# Multi-channel RTSP server core, modelled in Dafny

The multi-channel RTSP server (`examples/rtsp-server-many.c`) runs twelve
independent MPEG-TS-over-UDP to RTSP channels in one process. This
project models the orchestration logic of that server that is not a
call into GStreamer or GLib:

- **Channel derivation** (`Derivation`, `Channels`, `Server`). The
  provisioning loop in `main` allocates channel *i*. It prints into the
  fixed-size buffers of the `ZuRtspChannel` struct:
  - the name `stream<i+1>`;
  - the mount path `/<name>`;
  - the ingest port text `114<i+1, two digits>`;
  - the pipeline launch line, which is the launch template with the port
    text in place of its `%s`.

  It also sets the control port `11421 + i`. The values are pure
  functions of *i* and the template. The buffers are `array<char>`
  fields of class `Channels.Channel`, and `Server.ServerContext.Provision`
  fills `channel[]` in place.
- **Channel state tracker** (`Lifecycle`, `Channels.Channel`). The eight
  signal handlers (`new_state`, `target_state`, `new_stream`,
  `removed_stream`, `prepared`, `unprepared`, `media_constructed`,
  `media_configure`) each overwrite at most one field of the channel. A
  pure `Apply` / `Replay` reference tells what any sequence of signals
  leaves behind.
- **Control-datagram decision** (`Channels.Channel.ReadSocket`). The
  callback `gio_read_socket` does the following:
  - on a hang-up it drops the watch;
  - otherwise it reads the datagram into `buf[1024]` and terminates it;
  - it searches the C string with `g_strrstr` for `"pause"`;
  - it asks the engine for PAUSED when the recorded state is PLAYING.
- **Session reaper** (`Reaper`). The callbacks `remove_func`,
  `remove_sessions` and `timeout` act on a session pool modelled as a set.
  A callback's return value decides whether its timeout source is re-armed.

`CText` holds the character-level pieces these rely on:
- the text `%d`, `%02d` and `%s` print;
- the number a digit string denotes;
- NUL-terminated strings read back from buffers;
- the last-occurrence search of `g_strrstr`.

Engine objects (media, stream, session) are opaque natural numbers. A call
to `gst_rtsp_media_set_pipeline_state` is returned as a `PauseRequest`
value.

Where the code does something other than what a reader of its names and
comments would expect, the model follows the code:
- `target_state` writes the same `state` field as `new_state` (line 103).
  There is no separate target field, so a target report overwrites the
  current state.
- `unprepared` writes nothing (lines 147-156). The media handle stays
  recorded after the media is unprepared; it is not invalidated.
- `remove_sessions` answers FALSE (line 70), so its timeout source is
  removed after the first run. The ten-second eviction happens once, not
  every ten seconds.
- An oversized control datagram is not truncated to fit `buf`. The read
  can fill all 1024 bytes, and the terminator is then written one byte past
  `buf` (see Findings).
- Before its first signal a channel's state is whatever `g_new` left
  there. The model writes `None` for it, not a "VOID_PENDING" sentinel.

## Model

All source paths are in `examples/rtsp-server-many.c`.

| member | source | states |
|---|---|---|
| CText.Decimal | examples/rtsp-server-many.c:249-250 | what `%d` prints: at least one character, digits only, and a leading '0' exactly for zero |
| CText.ValueOfDecimal | examples/rtsp-server-many.c:249-250 | reading back the digits `%d` printed gives the number printed |
| CText.DecimalInjective | examples/rtsp-server-many.c:249-250 | `%d` never prints two numbers the same way |
| CText.DecimalLength | examples/rtsp-server-many.c:249-250 | `%d` needs at most k characters exactly when the number is below 10^k |
| CText.ZeroPad2 | examples/rtsp-server-many.c:257-258 | what `%02d` prints: digits only, two of them below 10, otherwise as `%d` |
| CText.ValueOfZeroPad2 | examples/rtsp-server-many.c:257-258 | reading back what `%02d` printed gives the number printed |
| CText.ZeroPad2Injective | examples/rtsp-server-many.c:257-258 | `%02d` never prints two numbers the same way |
| CText.ValueOfConcat | examples/rtsp-server-many.c:257-258 | a digit string appended to another shifts the first by a power of ten and adds its own value |
| CText.CStr | examples/rtsp-server-many.c:206-212 | the C string in a buffer: the prefix before the first NUL, holding no NUL, and the whole buffer when it has none |
| CText.CStrStopsAtTerminator | examples/rtsp-server-many.c:206-212 | whatever follows a terminator is invisible to the C string |
| CText.CStrOfStored | examples/rtsp-server-many.c:249-260 | a NUL-free text stored with its terminator reads back unchanged |
| CText.FormatString | examples/rtsp-server-many.c:251-252 | `g_sprintf` with only `%s` conversions; a format without '%' prints itself |
| CText.FormatOneString | examples/rtsp-server-many.c:259-260 | a format made of two literal parts around one `%s` prints the argument between those parts |
| CText.LastOccurrence | examples/rtsp-server-many.c:212 | `g_strrstr`: returns an occurrence of the token with none after it, and returns none exactly when the text does not contain the token |
| CText.SearchBackward | examples/rtsp-server-many.c:212 | the last occurrence at or before a position, or none at any position up to it |
| Derivation.ConfiguredTemplateShape | examples/rtsp-server-many.c:229-230 | the launch template has one `%s` between a 14-character and a 130-character part holding no '%' and no NUL; 146 characters in all |
| Derivation.ChannelName | examples/rtsp-server-many.c:249-250 | the name of channel i: "stream" followed by digits that denote i + 1 |
| Derivation.MountPath | examples/rtsp-server-many.c:251-252 | the mount path of channel i: a '/' followed by its name |
| Derivation.ListenPort | examples/rtsp-server-many.c:257-258 | the ingest port text of channel i: digits only, starting "114", five characters exactly when i + 1 < 100 |
| Derivation.IngestPort | examples/rtsp-server-many.c:257-258 | the port number the port text denotes: 114 shifted left by the digits `%02d` prints, plus i + 1 |
| Derivation.PipelineLaunch | examples/rtsp-server-many.c:259-260 | the launch line of channel i: the template with its two-character `%s` replaced by the port text |
| Derivation.ControlPort | examples/rtsp-server-many.c:286 | the control port of channel i: i above the first control port 11421 |
| Derivation.DescriptorOf | examples/rtsp-server-many.c:249-286 | everything the loop gives channel i: its mount path is '/' then its name, and its launch line is the template with the port text for `%s` |
| Derivation.MountPathFormat | examples/rtsp-server-many.c:251-252 | printing the name with "/%s" gives the mount path |
| Derivation.PipelineLaunchFormat | examples/rtsp-server-many.c:259-260 | printing the port text with a well-formed template gives the template's parts around the port text |
| Derivation.DerivedTextsHaveNoNul | examples/rtsp-server-many.c:249-260 | none of name, mount path, port text and launch line holds a NUL |
| Derivation.DescriptorFitsIff | examples/rtsp-server-many.c:30-35 | all four texts of channel i fit their buffers with their terminators exactly when i + 1 < 10^8 and the launch line is under 256 characters |
| Derivation.LaunchLength | examples/rtsp-server-many.c:257-260 | for i + 1 <= 99 the port text has 5 characters and the launch line is the template's length plus 3 |
| Derivation.FleetFits | examples/rtsp-server-many.c:23-48 | the 12 channels fit the 16 slots of `channel[]`, and with a well-formed template of at most 252 characters each channel's texts fit their 16- and 256-byte buffers |
| Derivation.ConfiguredFleetFits | examples/rtsp-server-many.c:229-260 | with the configured template all twelve channels fit, and every launch line is 149 characters |
| Derivation.IngestPortValue | examples/rtsp-server-many.c:257-258 | for i + 1 <= 99 the ingest port text denotes 11401 + i |
| Derivation.NamesDistinct | examples/rtsp-server-many.c:249-250 | different indices give different names |
| Derivation.ListenPortsDistinct | examples/rtsp-server-many.c:257-258 | different indices give different port texts |
| Derivation.DescriptorsDistinct | examples/rtsp-server-many.c:249-286 | different indices give different names, mount paths, port texts and control ports |
| Derivation.IngestAndControlPortsApart | examples/rtsp-server-many.c:257-286 | for n <= 99 channels, no ingest port equals any control port exactly when n <= 20, so the twelve are apart |
| Derivation.TwelveChannels | examples/rtsp-server-many.c:245-286 | channels 0, 1 and 11 are stream1 (/stream1, 11401, 11421), stream2 (/stream2, 11402, 11422) and stream12 (/stream12, 11412, 11432), with the port text in the launch line |
| Derivation.SmallNumberTexts | examples/rtsp-server-many.c:249-258 | `%d` of 1, 2 and 12 is "1", "2" and "12"; `%02d` gives "01", "02" and "12" |
| Derivation.TwelvePorts | examples/rtsp-server-many.c:257-286 | each of the twelve channels i is fed on 11401 + i and controlled on 11421 + i |
| Lifecycle.Apply | examples/rtsp-server-many.c:86-188 | each handler overwrites its one field with the value it carries and leaves the others alone; prepared and unprepared change nothing |
| Lifecycle.Replay | examples/rtsp-server-many.c:86-188 | the record after the handlers ran for each signal in order; prepared and unprepared signals alone leave it as it was |
| Lifecycle.ReplayState | examples/rtsp-server-many.c:86-110 | after any signal sequence the recorded state is the latest new-state or target-state report, or is unchanged when there is none |
| Lifecycle.SomeStateReportIsLast | examples/rtsp-server-many.c:86-110 | a sequence holding any state report has a last one |
| Lifecycle.ReplayStream | examples/rtsp-server-many.c:112-134 | the recorded stream is the one the latest new-stream or removed-stream carried, or unchanged when there is none |
| Lifecycle.ReplayMedia | examples/rtsp-server-many.c:158-188 | the recorded media is the one the latest media-constructed or media-configure carried; unprepared does not clear it |
| Channels.ReadLengthAsWritten | examples/rtsp-server-many.c:204 | the read as written: the whole datagram or sizeof(buf) = 1024 bytes, whichever is smaller |
| Channels.FullDatagramOverrunsBuffer | examples/rtsp-server-many.c:196-206 | a datagram of 1024 bytes or more makes the read length 1024, so `buf[bytes_read]` is outside `buf[1024]` |
| Channels.ReadLength | examples/rtsp-server-many.c:196-206 | the corrected read length: at most 1023, the whole datagram when it is shorter than 1024 |
| Channels.CommandText | examples/rtsp-server-many.c:204-212 | the text `g_strrstr` searches: the bytes the corrected read takes, up to the first NUL; it holds no NUL, and is the whole datagram when that is shorter than 1024 bytes and holds no NUL |
| Channels.WouldPause | examples/rtsp-server-many.c:212-216 | the pause decision: the command text contains `"pause"` and the recorded state is PLAYING |
| Channels.Print | examples/rtsp-server-many.c:249-260 | `g_sprintf` into a buffer: holds the text then its terminator, reads back as the text, leaves the rest of the buffer unchanged |
| Channels.PrintNew | examples/rtsp-server-many.c:247-260 | a fresh buffer of the given capacity holding the printed text |
| Channels.HeldText | examples/rtsp-server-many.c:249-260 | a buffer holding a NUL-free text with its terminator reads back as that text |
| Channels.Channel.constructor | examples/rtsp-server-many.c:247-286 | one pass of the loop: the channel's buffers hold the name, mount path, port text and launch line of index i with terminators, the control port is 11421 + i, and no handler field is set |
| Channels.Channel.ConfiguredDescriptor | examples/rtsp-server-many.c:247-286 | the buffers of a channel configured for index i read back as exactly the derived descriptor of i, whatever signals the channel has seen |
| Channels.Channel.NewState | examples/rtsp-server-many.c:86-96 | writes the reported state and nothing else, as `Apply` says; the buffers, and so the descriptor, are unchanged |
| Channels.Channel.TargetState | examples/rtsp-server-many.c:98-110 | writes the reported target into the same state field, and nothing else; the descriptor is unchanged |
| Channels.Channel.NewStream | examples/rtsp-server-many.c:112-122 | writes the added stream and nothing else; the descriptor is unchanged |
| Channels.Channel.RemovedStream | examples/rtsp-server-many.c:124-134 | writes the removed stream into the stream field and nothing else; the descriptor is unchanged |
| Channels.Channel.Prepared | examples/rtsp-server-many.c:136-145 | changes no field; the descriptor is unchanged |
| Channels.Channel.Unprepared | examples/rtsp-server-many.c:147-156 | changes no field; the media stays recorded; the descriptor is unchanged |
| Channels.Channel.MediaConstructed | examples/rtsp-server-many.c:158-175 | writes the new media and nothing else; the descriptor is unchanged |
| Channels.Channel.MediaConfigure | examples/rtsp-server-many.c:177-188 | writes the media and nothing else; the descriptor is unchanged |
| Channels.Channel.ReadSocket | examples/rtsp-server-many.c:190-219 | keeps the watch exactly when HUP is absent; requests a pause exactly when HUP is absent, the text before the first NUL of the first 1023 bytes contains `"pause"`, and the state is PLAYING; the request names the recorded media; writes no channel field |
| Channels.PauseFollowsLatestReport | examples/rtsp-server-many.c:212-216 | after any signal sequence on a fresh channel a "pause" datagram acts exactly when the latest state report was PLAYING |
| Channels.PauseIsIdempotent | examples/rtsp-server-many.c:212-216 | once PAUSED has been reported, a "pause" datagram asks for nothing |
| Channels.PauseCommandRecognised | examples/rtsp-server-many.c:212 | the datagram `{"cmd":"pause"}` contains the token |
| Channels.PauseScenario | examples/rtsp-server-many.c:190-219 | a channel that reached PLAYING answers `{"cmd":"pause"}` with one request for its media, then with none once PAUSED is reported; a channel with no signal answers with none |
| Server.ServerContext.constructor | examples/rtsp-server-many.c:235 | the protocol port buffer has 8 bytes and holds "554"; no channel slot is filled yet |
| Server.ServerContext.Provision | examples/rtsp-server-many.c:245-286 | for every index below 12 the slot holds a new, distinct channel provisioned for that index; slots 12 to 15 are untouched |
| Server.ConfiguredChannelsDistinct | examples/rtsp-server-many.c:249-286 | two channels configured for different indices have different names, mount paths, port texts and control ports in their buffers, whatever signals they have seen since |
| Reaper.RemoveFunc | examples/rtsp-server-many.c:52-57 | `remove_func` answers REMOVE for every session |
| Reaper.FilterPool | examples/rtsp-server-many.c:66-67 | the session filter keeps exactly the sessions for which the filter does not answer REMOVE |
| Reaper.RemoveSessions | examples/rtsp-server-many.c:52-71 | filtering with `remove_func` empties the pool, and the callback answers FALSE |
| Reaper.Timeout | examples/rtsp-server-many.c:73-83 | the cleanup drops exactly the expired sessions, and the callback answers TRUE |
| Reaper.Dispatches | examples/rtsp-server-many.c:335-337 | how often a timeout source has run by a given time: never before one period has passed, and at most once when its callback answers FALSE |
| Reaper.RearmedSourceNeverStops | examples/rtsp-server-many.c:335 | a source whose callback answers TRUE has run floor(elapsed / period) times |
| Reaper.ReaperSchedule | examples/rtsp-server-many.c:335-337 | the cleanup runs every 2 seconds indefinitely; the eviction runs once, at 10 seconds, and never again |

## Left out

- GStreamer and GLib object work. Foreign library calls, none of whose
  effects are visible in this file:
  - server creation and `g_object_set` of the service port;
  - the mount points and `gst_rtsp_mount_points_add_factory`;
  - media factory creation, its launch, shared and protocol settings;
  - the address pool;
  - `gst_rtsp_server_attach` and its failure path;
  - `g_main_loop_run`.
- The signal subscriptions. `media_constructed` connects six handlers, and
  the loop connects two. Subscribing is library work; the model treats
  each handler as a method a signal may call at any time.
- Control sockets: their creation, bind, the `exit(1)` failure paths and
  the GIOChannel watch registration. These are OS I/O. The datagram a read
  returns is a parameter of `ReadSocket`.
- The GIOChannel encoding layer and the `g_assert (error == NULL)` after
  the read. The read is modelled as returning the datagram's bytes, at
  most 1023 of them.
- Channels.Channel.ReadSocket: reads through the corrected
  `Channels.ReadLength` of the Findings row, at most 1023 bytes, not the
  1024 bytes line 204 asks for. It differs from line 204 on datagrams of
  1024 bytes or more: their 1024th byte is not searched, and the write past
  `buf` is not modelled.
- Reaper.Dispatches: idealises `g_timeout_add_seconds`. A source fires
  exactly at each multiple of its period, with no dispatch delay and no
  coalescing. "The eviction runs once, at 10 seconds" holds only under this
  idealisation.
- Which sessions the idle cleanup expires. That is decided by the
  library's clock, so it is the `expired` parameter of `Reaper.Timeout`.
- The `g_print`/`g_printf` diagnostics, the unused `rtspUrl[64]` field,
  and the `factoryStream` and `pool` fields. Those two are used only for
  library calls (lines 254-281: the launch and shared settings, the signal
  connects, the address pool).
- Threading of signal emission by the engine. Every handler is modelled as
  a sequential call.
- The contents of the launch template beyond its two literal parts and
  its one `%s`. `Server.ServerContext.Provision` takes the template as a
  parameter. `Derivation.ConfiguredTemplateShape` shows that the
  configured one meets its precondition.
- `Server.ServerContext.constructor`: `g_new` does not zero memory, so
  slots 12 to 15 of `channel[]` hold whatever was there. The model starts
  them as `null`.
- `Channels.Channel.constructor`: `g_new` leaves the handler fields
  unset. The model starts them as `None`, not as a particular state value.
- `CText.FormatString`: models only the `%s` conversion. `%d` and `%02d`
  are modelled separately by `CText.Decimal` and `CText.ZeroPad2`.
- The channel's char buffers are separate `array<char>` objects here, not
  storage embedded in the struct. Nothing in the code aliases them.
- rtsp-server-single.c is not part of this model.

## Findings

| source | as written | input that shows it | evidently intended | confidence | as-written member | corrected member |
|---|---|---|---|---|---|---|
| examples/rtsp-server-many.c:204-206 | the read asks for `sizeof (buf)` = 1024 bytes, then writes `buf[bytes_read] = '\0'` | a control datagram of 1024 bytes or more: bytes_read is 1024, and the write lands one byte past `buf[1024]` | read at most `sizeof (buf) - 1` bytes so the terminator stays inside the buffer, which truncates oversized commands | high, not executed | Channels.FullDatagramOverrunsBuffer | Channels.ReadLength |
