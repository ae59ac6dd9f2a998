/**
  The server context of the multi-channel server (struct
  ZuRtspServerContext) and the part of main's provisioning loop that gives
  each of the twelve channels its identity and buffers.
 */
module Server {
  import opened CText
  import opened Derivation
  import opened Lifecycle
  import opened Channels

  /** DEFAULT_RTSP_PORT */
  const DefaultRtspPort: string := "554"

  class ServerContext {
    const rtspListenPort: array<char>
    const channel: array<Channel?>

    /** The context with the protocol port copied into its eight-byte buffer
        and no channel created yet. */
    constructor ()
      ensures fresh(rtspListenPort) && fresh(channel)
      ensures rtspListenPort.Length == 8 && CStr(rtspListenPort[..]) == DefaultRtspPort
      ensures channel.Length == ChannelSlots
      ensures forall k :: 0 <= k < channel.Length ==> channel[k] == null
    {
      rtspListenPort := new char[8];
      channel := new Channel?[ChannelSlots](_ => null);
      new;
      assert PlainText(DefaultRtspPort);
      PlainTextExcludes(DefaultRtspPort);
      Print(rtspListenPort, DefaultRtspPort);
    }

    /** The provisioning loop: for every index below NUM_OF_CHANNELS, a new
        channel whose buffers hold the values derived from that index, in
        that index's slot; the remaining slots are not touched. */
    method Provision(pipelineLaunchStr: LaunchTemplate)
      requires channel.Length == ChannelSlots
      requires pipelineLaunchStr.WellFormed() && |pipelineLaunchStr.Text()| <= LaunchCapacity - 4
      modifies channel
      ensures forall k :: 0 <= k < NumOfChannels ==>
                channel[k] != null && fresh(channel[k]) && channel[k].Provisioned(pipelineLaunchStr, k)
      ensures forall j, k :: 0 <= j < k < NumOfChannels ==> channel[j] != channel[k]
      ensures forall k :: NumOfChannels <= k < channel.Length ==> channel[k] == old(channel[k])
    {
      FleetFits(pipelineLaunchStr);
      for channelIndex := 0 to NumOfChannels
        invariant forall k :: 0 <= k < channelIndex ==>
                    channel[k] != null && fresh(channel[k]) && channel[k].Provisioned(pipelineLaunchStr, k)
        invariant forall j, k :: 0 <= j < k < channelIndex ==> channel[j] != channel[k]
        invariant forall k :: channelIndex <= k < channel.Length ==> channel[k] == old(channel[k])
      {
        var c := new Channel(pipelineLaunchStr, channelIndex);
        channel[channelIndex] := c;
      }
    }
  }

  /** Two channels configured for different indices are registered under
      different mount paths, carry different names, and listen on different
      ingest and control ports, whatever signals they have seen since. */
  lemma ConfiguredChannelsDistinct(t: LaunchTemplate, a: Channel, i: nat, b: Channel, j: nat)
    requires t.WellFormed()
    requires a.Configured(t, i) && b.Configured(t, j) && i != j
    ensures CStr(a.name[..]) != CStr(b.name[..])
    ensures CStr(a.mountPath[..]) != CStr(b.mountPath[..])
    ensures CStr(a.listenPort[..]) != CStr(b.listenPort[..])
    ensures a.controlPort != b.controlPort
  {
    a.ConfiguredDescriptor(t, i);
    b.ConfiguredDescriptor(t, j);
    DescriptorsDistinct(i, j);
  }
}
