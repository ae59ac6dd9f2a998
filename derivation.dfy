/**
  What the provisioning loop of the multi-channel server derives for the
  channel at index i (0-based): its name, mount path, ingest port string,
  pipeline launch line and control port. Every value is a function of i
  alone; the lemmas state the buffer budgets, the pairwise distinctness
  across a fleet and the values for the twelve configured channels.
 */
module Derivation {
  import opened CText

  /** NUM_OF_CHANNELS */
  const NumOfChannels: nat := 12
  /** The slots of the server context's channel[] array. */
  const ChannelSlots: nat := 16
  /** Capacity of the name, mountPath and listenPort buffers of a channel. */
  const ShortCapacity: nat := 16
  /** Capacity of a channel's pipelineLaunch buffer. */
  const LaunchCapacity: nat := 256
  /** The control port of the first channel. */
  const FirstControlPort: int := 11421

  /** A pipeline launch template, split at its one "%s" where the ingest
      port text goes; its text is otherwise opaque to the server. */
  datatype LaunchTemplate = LaunchTemplate(prefix: string, suffix: string) {
    function Text(): string {
      prefix + "%s" + suffix
    }

    /** No other conversion and no NUL in the literal parts. */
    predicate WellFormed() {
      PlainText(prefix) && PlainText(suffix)
    }
  }

  /** The template main passes to the loop (pipelineLaunchStr). */
  const LaunchPrefix: string := "( udpsrc port="
  const LaunchSuffix: string := SuffixCaps + SuffixDemux + SuffixParse + SuffixPay
  const SuffixCaps: string := " caps=video/mpegts,systemstream=true,"
  const SuffixDemux: string := "packetsize=188 ! queue ! tsdemux"
  const SuffixParse: string := " ! h264parse config-interval=1"
  const SuffixPay: string := " ! rtph264pay name=pay0 pt=96 )"
  const ConfiguredTemplate: LaunchTemplate := LaunchTemplate(LaunchPrefix, LaunchSuffix)

  /** The configured template is well formed and 146 characters long. */
  lemma ConfiguredTemplateShape()
    ensures ConfiguredTemplate.WellFormed()
    ensures |LaunchPrefix| == 14 && |LaunchSuffix| == 130
    ensures |ConfiguredTemplate.Text()| == 146
  {
    assert PlainText(LaunchPrefix);
    CapsPlain();
    DemuxPlain();
    ParsePlain();
    PayPlain();
    PlainConcat(SuffixCaps, SuffixDemux);
    PlainConcat(SuffixCaps + SuffixDemux, SuffixParse);
    PlainConcat(SuffixCaps + SuffixDemux + SuffixParse, SuffixPay);
  }

  lemma CapsPlain()
    ensures PlainText(SuffixCaps)
  {
  }

  lemma DemuxPlain()
    ensures PlainText(SuffixDemux)
  {
  }

  lemma ParsePlain()
    ensures PlainText(SuffixParse)
  {
  }

  lemma PayPlain()
    ensures PlainText(SuffixPay)
  {
  }

  /** "stream%d" of i + 1 */
  function ChannelName(i: nat): (n: string)
    ensures exists digits :: n == "stream" + digits && AllDigits(digits) && Value(digits) == i + 1
  {
    ValueOfDecimal(i + 1);
    "stream" + Decimal(i + 1)
  }

  /** The mount path: a slash, then the channel's name. */
  function MountPath(i: nat): (m: string)
    ensures |m| == |ChannelName(i)| + 1 && m[0] == '/' && m[1..] == ChannelName(i)
  {
    "/" + ChannelName(i)
  }

  /** Printing the name with the format "/%s" gives the mount path. */
  lemma MountPathFormat(i: nat)
    ensures FormatString("/%s", ChannelName(i)) == MountPath(i)
  {
    FormatOneString("/", "", ChannelName(i));
    assert "/" + "%s" + "" == "/%s";
    assert "/" + ChannelName(i) + "" == "/" + ChannelName(i);
  }

  /** "114%02d" of i + 1 */
  function ListenPort(i: nat): (p: string)
    ensures |p| >= 5 && p[..3] == "114" && AllDigits(p)
    ensures |p| == 5 <==> i + 1 < 100
  {
    DecimalLength(i + 1, 2);
    assert Pow10(2) == 100;
    var p := "114" + ZeroPad2(i + 1);
    assert AllDigits("114");
    assert p[3..] == ZeroPad2(i + 1);
    p
  }

  /** The port number the pipeline's UDP source reads out of the port text:
      114, shifted left by the digits of i + 1, plus i + 1. */
  function IngestPort(i: nat): (p: nat)
    ensures p == 114 * Pow10(|ZeroPad2(i + 1)|) + (i + 1)
  {
    assert AllDigits("114");
    ValueOfConcat("114", ZeroPad2(i + 1));
    ValueOfZeroPad2(i + 1);
    assert Value("114") == 114 by {
      assert "114"[..2] == "11" && "11"[..1] == "1" && "1"[..0] == [];
    }
    Value(ListenPort(i))
  }

  /** The launch line: the template's two parts with the port text between
      them, where the template has its "%s". */
  function PipelineLaunch(t: LaunchTemplate, i: nat): (l: string)
    ensures |l| == |t.Text()| - 2 + |ListenPort(i)|
  {
    t.prefix + ListenPort(i) + t.suffix
  }

  /** Printing the port text with a well-formed template as format gives
      the launch line. */
  lemma PipelineLaunchFormat(t: LaunchTemplate, i: nat)
    requires t.WellFormed()
    ensures FormatString(t.Text(), ListenPort(i)) == PipelineLaunch(t, i)
  {
    PlainTextExcludes(t.prefix);
    PlainTextExcludes(t.suffix);
    FormatOneString(t.prefix, t.suffix, ListenPort(i));
  }

  /** 11421 + i */
  function ControlPort(i: nat): (p: int)
    ensures p >= FirstControlPort && p - FirstControlPort == i
  {
    FirstControlPort + i
  }

  /** The identity and configuration the loop gives channel i. */
  datatype ChannelDescriptor = ChannelDescriptor(
    name: string,
    mountPath: string,
    listenPort: string,
    controlPort: int,
    pipelineLaunch: string)

  function DescriptorOf(t: LaunchTemplate, i: nat): (d: ChannelDescriptor)
    ensures d.mountPath == "/" + d.name
    ensures |d.pipelineLaunch| == |t.Text()| - 2 + |d.listenPort|
  {
    ChannelDescriptor(ChannelName(i), MountPath(i), ListenPort(i), ControlPort(i), PipelineLaunch(t, i))
  }

  /** A string g_sprintf can store, with its terminator, in a buffer of the
      given capacity and read back unchanged. */
  predicate FitsIn(s: string, capacity: nat) {
    NUL !in s && |s| < capacity
  }

  /** Every derived text of channel i fits the buffer it is printed into. */
  predicate DescriptorFits(t: LaunchTemplate, i: nat) {
    && FitsIn(ChannelName(i), ShortCapacity)
    && FitsIn(MountPath(i), ShortCapacity)
    && FitsIn(ListenPort(i), ShortCapacity)
    && FitsIn(PipelineLaunch(t, i), LaunchCapacity)
  }

  lemma DigitsHaveNoNul(s: string)
    requires AllDigits(s)
    ensures NUL !in s
  {
    forall k | 0 <= k < |s|
      ensures s[k] != NUL
    {
      assert IsDigit(s[k]);
    }
  }

  /** Of the three sixteen-byte buffers the mount path overflows first:
      "/stream" leaves room for eight digits, so they all fit exactly when
      i + 1 < 10^8; the launch line fits when it is shorter than 256. */
  lemma {:induction false} DescriptorFitsIff(t: LaunchTemplate, i: nat)
    requires t.WellFormed()
    ensures DescriptorFits(t, i) <==> i + 1 < Pow10(8) && |PipelineLaunch(t, i)| < LaunchCapacity
  {
    DerivedTextsHaveNoNul(t, i);
    DecimalLength(i + 1, 8);
    assert |MountPath(i)| == 7 + |Decimal(i + 1)|;
  }

  /** Nothing the loop derives holds a terminator before its end. */
  lemma DerivedTextsHaveNoNul(t: LaunchTemplate, i: nat)
    requires t.WellFormed()
    ensures NUL !in ChannelName(i) && NUL !in MountPath(i) && NUL !in ListenPort(i)
    ensures NUL !in PipelineLaunch(t, i)
  {
    DigitsHaveNoNul(Decimal(i + 1));
    DigitsHaveNoNul(ZeroPad2(i + 1));
    assert PlainText("stream") && PlainText("/");
    PlainTextExcludes("stream");
    PlainTextExcludes("/");
    PlainTextExcludes(t.prefix);
    PlainTextExcludes(t.suffix);
  }

  /** While the index stays below 99 the port text has five characters and
      the launch line is the template's length plus three. */
  lemma LaunchLength(t: LaunchTemplate, i: nat)
    requires i + 1 <= 99
    ensures |ListenPort(i)| == 5
    ensures |PipelineLaunch(t, i)| == |t.Text()| + 3
  {
    DecimalLength(i + 1, 2);
  }

  /** The twelve configured channels fit the sixteen slots of channel[];
      with a well-formed template of at most 252 characters each of them
      fits its buffers. The configured template is such a template, and its
      launch lines are 149 characters long. */
  lemma FleetFits(t: LaunchTemplate)
    requires t.WellFormed() && |t.Text()| <= LaunchCapacity - 4
    ensures NumOfChannels <= ChannelSlots
    ensures forall i: nat :: i < NumOfChannels ==> DescriptorFits(t, i)
  {
    assert Pow10(8) == 100000000;
    forall i: nat | i < NumOfChannels
      ensures DescriptorFits(t, i)
    {
      LaunchLength(t, i);
      DescriptorFitsIff(t, i);
    }
  }

  lemma ConfiguredFleetFits()
    ensures forall i: nat :: i < NumOfChannels ==> DescriptorFits(ConfiguredTemplate, i)
    ensures forall i: nat :: i < NumOfChannels ==> |PipelineLaunch(ConfiguredTemplate, i)| == 149
  {
    ConfiguredTemplateShape();
    FleetFits(ConfiguredTemplate);
    forall i: nat | i < NumOfChannels
      ensures |PipelineLaunch(ConfiguredTemplate, i)| == 149
    {
      LaunchLength(ConfiguredTemplate, i);
    }
  }

  /** While the index stays below 99 the ingest port is 11401 + i. */
  lemma IngestPortValue(i: nat)
    requires i + 1 <= 99
    ensures IngestPort(i) == 11401 + i
  {
    DecimalLength(i + 1, 2);
    assert Pow10(2) == 100;
  }

  /** Two different indices never share a name, a mount path, a port text
      or a control port. */
  lemma DescriptorsDistinct(i: nat, j: nat)
    requires i != j
    ensures ChannelName(i) != ChannelName(j)
    ensures MountPath(i) != MountPath(j)
    ensures ListenPort(i) != ListenPort(j)
    ensures ControlPort(i) != ControlPort(j)
  {
    NamesDistinct(i, j);
    CancelPrefix("/", ChannelName(i), ChannelName(j));
    ListenPortsDistinct(i, j);
  }

  lemma NamesDistinct(i: nat, j: nat)
    requires i != j
    ensures ChannelName(i) != ChannelName(j)
  {
    CancelPrefix("stream", Decimal(i + 1), Decimal(j + 1));
    DecimalInjective(i + 1, j + 1);
  }

  lemma ListenPortsDistinct(i: nat, j: nat)
    requires i != j
    ensures ListenPort(i) != ListenPort(j)
  {
    if ListenPort(i) == ListenPort(j) {
      CancelPrefix("114", ZeroPad2(i + 1), ZeroPad2(j + 1));
      ZeroPad2Injective(i + 1, j + 1);
    }
  }

  /** Ingest ports 11401.. and control ports 11421.. stay apart for a fleet
      of n channels (n at most 99) exactly when n is at most 20. */
  lemma IngestAndControlPortsApart(n: nat)
    requires n <= 99
    ensures (forall i: nat, j: nat :: i < n && j < n ==> IngestPort(i) != ControlPort(j)) <==> n <= 20
  {
    forall i: nat | i < n
      ensures IngestPort(i) == 11401 + i
    {
      IngestPortValue(i);
    }
    if n > 20 {
      assert IngestPort(20) == ControlPort(0);
    }
  }

  /** The fleet of twelve: channel 0 is stream1 at /stream1 fed on 11401 and
      controlled on 11421, channel 1 is stream2, and channel 11 is stream12
      at /stream12 fed on 11412 and controlled on 11432. */
  lemma TwelveChannels(t: LaunchTemplate)
    ensures DescriptorOf(t, 0) == ChannelDescriptor("stream1", "/stream1", "11401", 11421, t.prefix + "11401" + t.suffix)
    ensures DescriptorOf(t, 1) == ChannelDescriptor("stream2", "/stream2", "11402", 11422, t.prefix + "11402" + t.suffix)
    ensures DescriptorOf(t, 11) == ChannelDescriptor("stream12", "/stream12", "11412", 11432, t.prefix + "11412" + t.suffix)
  {
    TwelveTexts();
  }

  lemma TwelveTexts()
    ensures ChannelName(0) == "stream1" && ListenPort(0) == "11401"
    ensures ChannelName(1) == "stream2" && ListenPort(1) == "11402"
    ensures ChannelName(11) == "stream12" && ListenPort(11) == "11412"
  {
    SmallNumberTexts();
  }

  lemma SmallNumberTexts()
    ensures Decimal(1) == "1" && Decimal(2) == "2" && Decimal(12) == "12"
    ensures ZeroPad2(1) == "01" && ZeroPad2(2) == "02" && ZeroPad2(12) == "12"
  {
    assert Decimal(12) == Decimal(1) + [DigitChar(2)];
  }

  /** Every channel i of the twelve is fed on 11401 + i and controlled on
      11421 + i. */
  lemma TwelvePorts()
    ensures forall i: nat :: i < NumOfChannels ==> IngestPort(i) == 11401 + i && ControlPort(i) == 11421 + i
  {
    forall i: nat | i < NumOfChannels
      ensures IngestPort(i) == 11401 + i
    {
      IngestPortValue(i);
    }
  }
}
