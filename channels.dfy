/**
  One channel of the multi-channel server (struct ZuRtspChannel): the
  fixed-size text buffers the provisioning loop prints into, the fields the
  lifecycle signal handlers overwrite, and the watch callback of the
  channel's control socket, which turns a "pause" datagram into a request
  to the engine while the channel is PLAYING.
 */
module Channels {
  import opened CText
  import opened Derivation
  import opened Lifecycle

  /** sizeof(buf) in the control-socket callback. */
  const ReceiveBufferSize: nat := 1024

  /** The command marker: the word pause with its double quotes, seven
      characters. */
  const PauseToken: string := "\"pause\""

  /** GIOCondition flags. */
  datatype IOCondition = In | Out | Pri | Err | Hup | Nval

  /** A call asking the engine to move a media pipeline to PAUSED; it names
      whatever the channel recorded as its media. */
  datatype PauseRequest = PauseRequest(media: Option<MediaId>)

  /** bytes_read as the callback obtains it: a read of up to sizeof(buf)
      bytes of the datagram. */
  function ReadLengthAsWritten(datagram: seq<char>): (n: nat)
    ensures n <= |datagram| && n <= ReceiveBufferSize
    ensures n == |datagram| || n == ReceiveBufferSize
  {
    if |datagram| < ReceiveBufferSize then |datagram| else ReceiveBufferSize
  }

  /** A datagram of 1024 bytes or more makes the read fill the whole
      buffer, so the terminator write buf[bytes_read] lands one element past
      the end of buf. */
  lemma FullDatagramOverrunsBuffer(datagram: seq<char>)
    requires |datagram| >= ReceiveBufferSize
    ensures !(ReadLengthAsWritten(datagram) < ReceiveBufferSize)
  {
  }

  /** The read length that leaves room for the terminator: at most
      sizeof(buf) - 1 bytes, and the whole datagram when it is shorter. */
  function ReadLength(datagram: seq<char>): (n: nat)
    ensures n < ReceiveBufferSize && n <= |datagram|
    ensures |datagram| < ReceiveBufferSize ==> n == |datagram|
    ensures |datagram| >= ReceiveBufferSize ==> n == ReceiveBufferSize - 1
  {
    if |datagram| < ReceiveBufferSize then |datagram| else ReceiveBufferSize - 1
  }

  /** The text the callback scans: the bytes read, up to the first NUL. It
      starts the datagram, stays under the buffer size, and stops only at a
      NUL or at the end of what was read. */
  function CommandText(datagram: seq<char>): (text: string)
    ensures |text| <= ReadLength(datagram) && NUL !in text
    ensures text == datagram[..|text|]
    ensures |text| < ReadLength(datagram) ==> datagram[|text|] == NUL
    ensures |datagram| < ReceiveBufferSize && NUL !in datagram ==> text == datagram
  {
    var read := datagram[..ReadLength(datagram)];
    var text := CStr(read);
    assert text == read[..|text|];
    text
  }

  /** A datagram that asks for a pause, sent to a channel in the given
      recorded state, makes the callback request one. */
  predicate WouldPause(t: Observed, datagram: seq<char>) {
    Contains(CommandText(datagram), PauseToken) && t.state == Some(Playing)
  }

  /** g_sprintf into a fixed buffer: the text, then its terminator. */
  method Print(buf: array<char>, s: string)
    requires FitsIn(s, buf.Length)
    modifies buf
    ensures Holds(buf, s) && CStr(buf[..]) == s
    ensures forall k :: |s| < k < buf.Length ==> buf[k] == old(buf[k])
  {
    forall k | 0 <= k < |s| {
      buf[k] := s[k];
    }
    buf[|s|] := NUL;
    HeldText(buf, s);
  }

  /** The buffer holds s followed by its terminator. */
  ghost predicate Holds(buf: array<char>, s: string)
    reads buf
  {
    |s| < buf.Length && buf[..|s|] == s && buf[|s|] == NUL
  }

  /** A buffer holding a text without NUL reads back as that text. */
  lemma HeldText(buf: array<char>, s: string)
    requires Holds(buf, s) && NUL !in s
    ensures CStr(buf[..]) == s
  {
    assert buf[..] == buf[..|s|] + [NUL] + buf[|s| + 1..];
    CStrOfStored(s, buf[|s| + 1..]);
  }

  /** A fresh buffer of the given capacity with s printed into it. */
  method PrintNew(capacity: nat, s: string) returns (buf: array<char>)
    requires FitsIn(s, capacity)
    ensures fresh(buf) && buf.Length == capacity
    ensures Holds(buf, s) && CStr(buf[..]) == s
  {
    buf := new char[capacity];
    Print(buf, s);
  }

  class Channel {
    const name: array<char>
    const mountPath: array<char>
    const listenPort: array<char>
    const controlPort: int
    const pipelineLaunch: array<char>
    var media: Option<MediaId>
    var stream: Option<StreamId>
    var state: Option<GstState>

    ghost predicate Valid() {
      && name.Length == ShortCapacity
      && mountPath.Length == ShortCapacity
      && listenPort.Length == ShortCapacity
      && pipelineLaunch.Length == LaunchCapacity
    }

    /** The identity and configuration held in the buffers. */
    function Descriptor(): ChannelDescriptor
      reads name, mountPath, listenPort, pipelineLaunch
    {
      ChannelDescriptor(CStr(name[..]), CStr(mountPath[..]), CStr(listenPort[..]),
                        controlPort, CStr(pipelineLaunch[..]))
    }

    /** The fields the signal handlers write. */
    function Snapshot(): Observed
      reads this
    {
      Observed(media, stream, state)
    }

    /** The buffers and control port hold channel i's configuration. Only
        the buffers are read, so no signal handler can disturb it. */
    ghost predicate Configured(t: LaunchTemplate, i: nat)
      reads name, mountPath, listenPort, pipelineLaunch
    {
      && Valid()
      && Holds(name, ChannelName(i))
      && Holds(mountPath, MountPath(i))
      && Holds(listenPort, ListenPort(i))
      && Holds(pipelineLaunch, PipelineLaunch(t, i))
      && controlPort == ControlPort(i)
    }

    /** The state the provisioning loop leaves channel i in. */
    ghost predicate Provisioned(t: LaunchTemplate, i: nat)
      reads this, name, mountPath, listenPort, pipelineLaunch
    {
      Configured(t, i) && Snapshot() == Unobserved
    }

    /** What a reader of the configured buffers sees: channel i's
        descriptor. */
    lemma ConfiguredDescriptor(t: LaunchTemplate, i: nat)
      requires t.WellFormed() && Configured(t, i)
      ensures Descriptor() == DescriptorOf(t, i)
    {
      DerivedTextsHaveNoNul(t, i);
      HeldText(name, ChannelName(i));
      HeldText(mountPath, MountPath(i));
      HeldText(listenPort, ListenPort(i));
      HeldText(pipelineLaunch, PipelineLaunch(t, i));
    }

    /** One pass of the provisioning loop for index i: allocate the channel
        and print its name, mount path, port text and launch line into their
        buffers. The handler fields are left unset. */
    constructor (t: LaunchTemplate, i: nat)
      requires t.WellFormed() && DescriptorFits(t, i)
      ensures Provisioned(t, i)
      ensures fresh(name) && fresh(mountPath) && fresh(listenPort) && fresh(pipelineLaunch)
    {
      var nameBuf := PrintNew(ShortCapacity, ChannelName(i));
      var mountText := FormatString("/%s", CStr(nameBuf[..]));
      assert mountText == MountPath(i) by {
        MountPathFormat(i);
      }
      var mountBuf := PrintNew(ShortCapacity, mountText);
      var portBuf := PrintNew(ShortCapacity, ListenPort(i));
      var launchText := FormatString(t.Text(), CStr(portBuf[..]));
      assert launchText == PipelineLaunch(t, i) by {
        PipelineLaunchFormat(t, i);
      }
      var launchBuf := PrintNew(LaunchCapacity, launchText);
      name, mountPath, listenPort, pipelineLaunch := nameBuf, mountBuf, portBuf, launchBuf;
      controlPort := ControlPort(i);
      media, stream, state := None, None, None;
      new;
      assert Holds(name, ChannelName(i)) && Holds(mountPath, MountPath(i));
      assert Holds(listenPort, ListenPort(i)) && Holds(pipelineLaunch, PipelineLaunch(t, i));
    }

    /** new_state: records the reported state. */
    method NewState(s: GstState)
      modifies this`state
      ensures state == Some(s)
      ensures Snapshot() == Apply(old(Snapshot()), Signal.NewState(s))
      ensures Descriptor() == old(Descriptor())
    {
      state := Some(s);
    }

    /** target_state: records the reported target in the same state field. */
    method TargetState(s: GstState)
      modifies this`state
      ensures state == Some(s)
      ensures Snapshot() == Apply(old(Snapshot()), Signal.TargetState(s))
      ensures Descriptor() == old(Descriptor())
    {
      state := Some(s);
    }

    /** new_stream: records the added stream. */
    method NewStream(x: StreamId)
      modifies this`stream
      ensures stream == Some(x)
      ensures Snapshot() == Apply(old(Snapshot()), Signal.NewStream(x))
      ensures Descriptor() == old(Descriptor())
    {
      stream := Some(x);
    }

    /** removed_stream: records the removed stream, the same way. */
    method RemovedStream(x: StreamId)
      modifies this`stream
      ensures stream == Some(x)
      ensures Snapshot() == Apply(old(Snapshot()), Signal.RemovedStream(x))
      ensures Descriptor() == old(Descriptor())
    {
      stream := Some(x);
    }

    /** prepared: writes nothing. */
    method Prepared()
      ensures Snapshot() == Apply(old(Snapshot()), Signal.Prepared)
      ensures Descriptor() == old(Descriptor())
    {
    }

    /** unprepared: writes nothing; the media stays recorded. */
    method Unprepared()
      ensures Snapshot() == Apply(old(Snapshot()), Signal.Unprepared)
      ensures Descriptor() == old(Descriptor())
    {
    }

    /** media_constructed: records the new media. */
    method MediaConstructed(m: MediaId)
      modifies this`media
      ensures media == Some(m)
      ensures Snapshot() == Apply(old(Snapshot()), Signal.MediaConstructed(m))
      ensures Descriptor() == old(Descriptor())
    {
      media := Some(m);
    }

    /** media_configure: records the media again. */
    method MediaConfigure(m: MediaId)
      modifies this`media
      ensures media == Some(m)
      ensures Snapshot() == Apply(old(Snapshot()), Signal.MediaConfigure(m))
      ensures Descriptor() == old(Descriptor())
    {
      media := Some(m);
    }

    /** gio_read_socket: on a hang-up, drop the watch; otherwise read the
        datagram into a local buffer, terminate it, and request a pause of
        the recorded media when the text holds "pause" and the recorded
        state is PLAYING. The callback writes no field of the channel. */
    method ReadSocket(condition: set<IOCondition>, datagram: seq<char>)
      returns (keep: bool, request: Option<PauseRequest>)
      ensures keep <==> Hup !in condition
      ensures request.Some? <==> Hup !in condition && WouldPause(Snapshot(), datagram)
      ensures request.Some? ==> request.value == PauseRequest(media)
    {
      if Hup in condition {
        return false, None;
      }
      var buf := new char[ReceiveBufferSize];
      var bytesRead := ReadLength(datagram);
      forall k | 0 <= k < bytesRead {
        buf[k] := datagram[k];
      }
      buf[bytesRead] := NUL;
      assert buf[..] == datagram[..bytesRead] + [NUL] + buf[bytesRead + 1..];
      CStrStopsAtTerminator(datagram[..bytesRead], buf[bytesRead + 1..]);
      var text := CStr(buf[..]);
      request := None;
      if LastOccurrence(text, PauseToken).Some? {
        if state == Some(Playing) {
          request := Some(PauseRequest(media));
        }
      }
      keep := true;
    }
  }

  /** After any sequence of signals on a fresh channel, a "pause" datagram
      is acted on exactly when the latest state report was PLAYING. */
  lemma PauseFollowsLatestReport(signals: seq<Signal>, datagram: seq<char>)
    ensures WouldPause(Replay(Unobserved, signals), datagram) <==>
              Contains(CommandText(datagram), PauseToken) &&
              exists k :: LastStateReport(signals, k) && signals[k].reported == Playing
  {
    ReplayState(Unobserved, signals);
    if j :| 0 <= j < |signals| && signals[j].ReportsState() {
      SomeStateReportIsLast(signals, j);
    }
  }

  /** Once the engine has reported PAUSED, a repeated "pause" datagram asks
      for nothing more. */
  lemma PauseIsIdempotent(t: Observed, datagram: seq<char>)
    ensures !WouldPause(Apply(t, Signal.NewState(Paused)), datagram)
  {
  }

  /** The command datagram an operator sends. */
  const PauseCommand: string := CommandPrefix + PauseToken + "}"
  const CommandPrefix: string := "{\"cmd\":"

  lemma PauseCommandRecognised()
    ensures Contains(CommandText(PauseCommand), PauseToken)
  {
    assert PlainText(PauseCommand);
    PlainTextExcludes(PauseCommand);
    assert CommandText(PauseCommand) == PauseCommand;
    assert |CommandPrefix| == 7;
    assert OccursAt(PauseCommand, PauseToken, 7) by {
      assert PauseCommand[7..14] == PauseToken;
    }
  }


  /** Channel 0 reaches PLAYING and receives {"cmd":"pause"}: one request
      for its media. The engine reports PAUSED and the same datagram comes
      again: no request. A channel that has seen no signal ignores it. */
  method PauseScenario(m: MediaId)
    returns (first: Option<PauseRequest>, second: Option<PauseRequest>, early: Option<PauseRequest>)
    ensures first == Some(PauseRequest(Some(m)))
    ensures second == None
    ensures early == None
  {
    ConfiguredTemplateShape();
    ConfiguredFleetFits();
    var datagram := PauseCommand;
    PauseCommandRecognised();
    var keep;
    var idle := new Channel(ConfiguredTemplate, 1);
    keep, early := idle.ReadSocket({In}, datagram);
    var ch := new Channel(ConfiguredTemplate, 0);
    ch.MediaConstructed(m);
    ch.NewState(Playing);
    keep, first := ch.ReadSocket({In}, datagram);
    ch.NewState(Paused);
    keep, second := ch.ReadSocket({In}, datagram);
  }
}
