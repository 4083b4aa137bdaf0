/** What the two SeedLink clients share: the `host[:port]` server line, the
    channel lines of the subscription file turned into SeedLink selectors, the
    packets `collect()` hands back, and the connection object whose stream list
    the clients fill through `select_stream`. */
module SeedLink {
  import opened Wrappers
  import opened Strings
  import opened Buffering

  /** The default SeedLink port, as text. */
  const DefaultPortText: string := "18000"

  /** `info = line.split(':')`: the host is part 0, the port part 1 when there is
      one; further parts are ignored (connection.py and mona_sl_client.py). */
  function HostAndPort(line: string): (r: (string, Option<string>))
    ensures ':' !in r.0
    ensures r.1.None? <==> ':' !in line
    ensures r.1.Some? ==> ':' !in r.1.value
  {
    var info := Split(line, ':');
    SplitSingle(line, ':');
    if |info| == 1 then (info[0], None) else (info[0], Some(info[1]))
  }

  /** `host:port` gives back the host and the port. */
  lemma HostAndPortRoundTrip(host: string, port: string)
    requires ':' !in host && ':' !in port
    ensures HostAndPort(host + ":" + port) == (host, Some(port))
  {
    SplitCons(host, ':', port);
    SplitNoSeparator(port, ':');
  }

  /** Only the first two colon-separated parts count. */
  lemma HostAndPortIgnoresRest(host: string, port: string, rest: string)
    requires ':' !in host && ':' !in port
    ensures HostAndPort(host + ":" + port + ":" + rest) == (host, Some(port))
  {
    assert host + ":" + port + ":" + rest == host + [':'] + (port + [':'] + rest);
    SplitCons(host, ':', port + [':'] + rest);
    SplitCons(port, ':', rest);
  }

  /** The port the supervisor remembers: the integer 18000 when the server line
      names none, otherwise the text after the colon, kept as a string. */
  datatype Port = DefaultPort | GivenPort(text: string)

  function PortText(p: Port): string
  {
    match p
    case DefaultPort => DefaultPortText
    case GivenPort(t) => t
  }

  /** The server line (line 1 of the subscription file), mona_sl_client.py. */
  function ParseServerLine(line: string): (r: (string, Port))
    ensures r.1 == DefaultPort <==> ':' !in line
  {
    var (host, port) := HostAndPort(line);
    (host, if port.None? then DefaultPort else GivenPort(port.value))
  }

  /** `'%s:%d' % (host, port)` as written: `%d` accepts the integer default
      port but raises TypeError for a port kept as a string (None here). */
  function SlAddressAsWritten(host: string, port: Port): Option<string>
  {
    match port
    case DefaultPort => Some(host + ":" + DefaultPortText)
    case GivenPort(_) => None
  }

  /** The address the connection is evidently meant to get: `host:port`. */
  function SlAddress(host: string, port: Port): string
  {
    host + ":" + PortText(port)
  }

  /** Any server line that names a port makes the as-written formatting fail,
      while the intended address reproduces the line. */
  lemma GivenPortBreaksAddress(host: string, port: string)
    requires ':' !in host && ':' !in port
    ensures var (h, p) := ParseServerLine(host + ":" + port);
            SlAddressAsWritten(h, p) == None && SlAddress(h, p) == host + ":" + port
  {
    HostAndPortRoundTrip(host, port);
  }

  /** The intended address parses back to the same host and port text. */
  lemma SlAddressRoundTrip(host: string, port: Port)
    requires ':' !in host && ':' !in PortText(port)
    ensures ParseServerLine(SlAddress(host, port)) == (host, GivenPort(PortText(port)))
  {
    HostAndPortRoundTrip(host, PortText(port));
  }

  /** A SeedLink stream selection: network, station and the `LLCCC` selector
      (location code followed by channel code). */
  datatype Selector = Selector(network: string, station: string, selector: string)

  /** A channel line `N.S.L.C` is selected as (N, S, L+C); fewer than four
      dot-separated parts raise IndexError (None here). */
  function ParseChannelLine(line: string): Option<Selector>
  {
    var f := Split(line, '.');
    if |f| < 4 then None else Some(Selector(f[0], f[1], f[2] + f[3]))
  }

  /** A channel key parses into the selector of its fields; an empty location
      leaves just the channel code as selector. */
  lemma ChannelKeySelects(net: string, sta: string, loc: string, cha: string)
    requires '.' !in net && '.' !in sta && '.' !in loc && '.' !in cha
    ensures ParseChannelLine(ChannelKey(net, sta, loc, cha)) == Some(Selector(net, sta, loc + cha))
  {
    ChannelKeySplits(net, sta, loc, cha);
  }

  /** The selectors of all channel lines, in order; None at the first line that
      does not parse. */
  function SelectorsOf(lines: seq<string>): (r: Option<seq<Selector>>)
    ensures r.Some? <==> forall i :: 0 <= i < |lines| ==> ParseChannelLine(lines[i]).Some?
    ensures r.Some? ==> |r.value| == |lines|
    ensures r.Some? ==> forall i :: 0 <= i < |lines| ==> ParseChannelLine(lines[i]) == Some(r.value[i])
  {
    if lines == [] then Some([])
    else
      var last := ParseChannelLine(lines[|lines| - 1]);
      match SelectorsOf(lines[..|lines| - 1])
      case None => None
      case Some(prefix) => if last.None? then None else Some(prefix + [last.value])
  }

  /** The packets `collect()` returns: the terminate and error signals, the two
      INFO packet types (ignored), and data packets carrying a trace or None. */
  datatype Packet = Terminate | Error | Info | Data(trace: Option<Trace>)

  /** A packet together with the clock reading when `on_data` looks at it. */
  datatype Arrival = Arrival(packet: Packet, now: int)

  /** The fields of obspy's SeedLinkConnection that the clients set. */
  class SeedLinkConnection {
    var address: Option<string>
    var multistation: bool
    var streams: seq<Selector>
    var beginTime: Option<string>
    var endTime: Option<string>
    const timeout: int

    constructor (timeout: int)
      ensures this.timeout == timeout
      ensures address == None && !multistation && streams == []
      ensures beginTime == None && endTime == None
    {
      this.timeout := timeout;
      address := None;
      multistation := false;
      streams := [];
      beginTime := None;
      endTime := None;
    }

    method SetSlAddress(a: string)
      modifies this`address
      ensures address == Some(a)
    {
      address := Some(a);
    }

    /** The effect of `select_stream`: one more selection on the connection. */
    method AddStream(s: Selector)
      modifies this`streams
      ensures streams == old(streams) + [s]
    {
      streams := streams + [s];
    }

    method SetTimeWindow(begin: string, end: string)
      modifies this`beginTime, this`endTime
      ensures beginTime == Some(begin) && endTime == Some(end)
    {
      beginTime := Some(begin);
      endTime := Some(end);
    }
  }
}
