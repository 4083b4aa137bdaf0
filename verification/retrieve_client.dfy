/** `EasySLC` and `get_arguments` (retrieve_data.py). The supervisor works like
    `MonaSeedLinkClient` with three differences: the buffer threshold is fixed
    at 4500 samples, a change of subscription keeps the server given to the
    constructor (the file's first line is not parsed), and `on_seedlink_error`
    also overwrites `self.streams` with the connection's stream list. */
module RetrieveClient {
  import opened Wrappers
  import opened Strings
  import opened Buffering
  import opened SeedLink

  /** What `self.streams` holds: the subscription lines last read, or, after
      `on_seedlink_error`, a copy of the connection's stream objects. */
  datatype Remembered = Lines(lines: seq<string>) | Copied(selectors: seq<Selector>)

  /** `self.streams == new_streams` in Python: a list of stream objects never
      equals a list of strings unless both lists are empty. */
  predicate SameAs(m: Remembered, lines: seq<string>)
  {
    match m
    case Lines(ls) => ls == lines
    case Copied(sel) => sel == [] && lines == []
  }

  datatype Session = Session(streams: Remembered, host: string, port: Port,
                             address: Option<string>, multistation: bool,
                             selected: seq<Selector>,
                             beginTime: Option<string>, endTime: Option<string>)

  datatype Client = Client(session: Session, buffers: map<string, seq<Sample>>)

  /** The supervisor invariant: the connection points at the constructor's
      server and selects what `self.streams` describes. */
  predicate Consistent(s: Session)
  {
    && s.address == Some(SlAddress(s.host, s.port))
    && match s.streams
       case Lines(ls) => SelectorsOf(From(ls, 1)) == Some(s.selected)
       case Copied(sel) => sel == s.selected
  }

  /** `on_terminate`: a new connection carrying over the selection. */
  function Reconnect(s: Session): (r: Session)
    ensures r.selected == s.selected && r.streams == s.streams
    ensures r.host == s.host && r.port == s.port
    ensures Consistent(s) ==> Consistent(r)
  {
    s.(address := Some(SlAddress(s.host, s.port)), multistation := true,
       beginTime := None, endTime := None)
  }

  /** `on_seedlink_error`: as `on_terminate`, and `self.streams` becomes the
      copied selection. */
  function ErrorReconnect(s: Session): (r: Session)
    ensures r.selected == s.selected && r.streams == Copied(s.selected)
    ensures r.host == s.host && r.port == s.port
    ensures Consistent(s) ==> Consistent(r)
  {
    Reconnect(s).(streams := Copied(s.selected))
  }

  /** After an error with a non-empty selection, the next read of the file
      rebuilds the session whatever the file says. */
  lemma ErrorForcesRebuild(s: Session, lines: seq<string>)
    requires s.selected != []
    ensures !SameAs(ErrorReconnect(s).streams, lines)
  {
  }

  /** The rebuild in `run` when the lines differ from `self.streams`: same
      server, the selection of `new_streams[1:]`. None stands for the IndexError
      of a channel line with fewer than four parts. */
  function Rebuild(s: Session, lines: seq<string>): (r: Option<Session>)
    ensures r.Some? <==> SelectorsOf(From(lines, 1)).Some?
    ensures r.Some? ==> r.value.streams == Lines(lines) && Consistent(r.value)
    ensures r.Some? ==> r.value.host == s.host && r.value.port == s.port
  {
    match SelectorsOf(From(lines, 1))
    case None => None
    case Some(sel) =>
      Some(Session(Lines(lines), s.host, s.port, Some(SlAddress(s.host, s.port)), true, sel, None, None))
  }

  function AfterPacket(c: Client, capacity: int, a: Arrival): (r: Option<Client>)
    ensures r.None? <==> a.packet == Data(None)
    ensures r.Some? ==> r.value.session.selected == c.session.selected
    ensures r.Some? ==> r.value.session.host == c.session.host && r.value.session.port == c.session.port
    ensures r.Some? && !a.packet.Data? ==> r.value.buffers == c.buffers
    ensures r.Some? && !a.packet.Error? ==> r.value.session.streams == c.session.streams
    ensures Consistent(c.session) && r.Some? ==> Consistent(r.value.session)
  {
    match a.packet
    case Terminate => Some(Client(Reconnect(c.session), c.buffers))
    case Error => Some(Client(ErrorReconnect(c.session), c.buffers))
    case Info => Some(c)
    case Data(tr) =>
      var r := Ingest(c.buffers, tr, a.now, capacity);
      if r.outcome == TraceMissing then None else Some(Client(c.session, r.buffers))
  }

  datatype PollInput = PollInput(file: Option<seq<string>>, arrival: Arrival)

  function AfterPoll(c: Client, capacity: int, p: PollInput): (r: Option<Client>)
    ensures p.file.None? ==> r == Some(c)
    ensures p.file.Some? && SameAs(c.session.streams, p.file.value) ==> r == AfterPacket(c, capacity, p.arrival)
    ensures r.Some? ==> r.value.session.host == c.session.host && r.value.session.port == c.session.port
    ensures Consistent(c.session) && r.Some? ==> Consistent(r.value.session)
  {
    match p.file
    case None => Some(c)
    case Some(lines) =>
      if SameAs(c.session.streams, lines) then AfterPacket(c, capacity, p.arrival)
      else
        match Rebuild(c.session, lines)
        case None => None
        case Some(s) => AfterPacket(Client(s, c.buffers), capacity, p.arrival)
  }

  function AfterLiveRun(c: Client, capacity: int, polls: seq<PollInput>): Option<Client>
    decreases |polls|
  {
    if polls == [] then Some(c)
    else
      match AfterPoll(c, capacity, polls[0])
      case None => None
      case Some(next) => AfterLiveRun(next, capacity, polls[1..])
  }

  /** The live loop never changes the server, and keeps the connection's
      address and selection in line with `self.streams`. */
  lemma {:induction false} LiveRunKeepsServer(c: Client, capacity: int, polls: seq<PollInput>)
    requires Consistent(c.session)
    ensures var r := AfterLiveRun(c, capacity, polls);
            r.Some? ==> && Consistent(r.value.session)
                        && r.value.session.host == c.session.host
                        && r.value.session.port == c.session.port
    decreases |polls|
  {
    if polls != [] {
      var next := AfterPoll(c, capacity, polls[0]);
      if next.Some? {
        LiveRunKeepsServer(next.value, capacity, polls[1..]);
      }
    }
  }

  datatype RetrievalOutcome = NotRequested | StreamFileMissing | Finished | Diverged | Crashed

  datatype Retrieved = Retrieved(client: Client, outcome: RetrievalOutcome)

  function AfterDrain(c: Client, capacity: int, arrivals: seq<Arrival>): (r: Retrieved)
    ensures r.outcome == Finished || r.outcome == Diverged || r.outcome == Crashed
    ensures r.outcome != Diverged ==> r.client.session == c.session
    ensures r.client.session.selected == c.session.selected
    decreases |arrivals|
  {
    if arrivals == [] then Retrieved(c, Finished)
    else
      match arrivals[0].packet
      case Terminate => Retrieved(Client(Reconnect(c.session), c.buffers), Diverged)
      case Error => Retrieved(Client(ErrorReconnect(c.session), c.buffers), Diverged)
      case Info => AfterDrain(c, capacity, arrivals[1..])
      case Data(tr) =>
        var r := Ingest(c.buffers, tr, arrivals[0].now, capacity);
        if r.outcome == TraceMissing then Retrieved(c, Crashed)
        else AfterDrain(Client(c.session, r.buffers), capacity, arrivals[1..])
  }

  function AfterRetrieval(c: Client, capacity: int, beginTime: Option<string>, endTime: Option<string>,
                          file: Option<seq<string>>, arrivals: seq<Arrival>): (r: Retrieved)
    ensures r.outcome == NotRequested <==> beginTime.None? || endTime.None?
    ensures r.outcome == StreamFileMissing <==> beginTime.Some? && endTime.Some? && file.None?
    ensures r.outcome == Finished || r.outcome == Diverged ==>
              && file.Some? && SelectorsOf(From(file.value, 1)).Some?
              && r.client.session.selected == c.session.selected + SelectorsOf(From(file.value, 1)).value
    ensures r.outcome == Finished ==>
              r.client.session.beginTime == beginTime && r.client.session.endTime == endTime
  {
    if beginTime.None? || endTime.None? then Retrieved(c, NotRequested)
    else if file.None? then Retrieved(c, StreamFileMissing)
    else
      match SelectorsOf(From(file.value, 1))
      case None => Retrieved(c, Crashed)
      case Some(sel) =>
        var s := Reconnect(c.session);
        var windowed := s.(selected := s.selected + sel, beginTime := beginTime, endTime := endTime);
        AfterDrain(Client(windowed, c.buffers), capacity, arrivals)
  }

  class EasySLC {
    var streams: Remembered
    var serverHost: string
    var serverPort: Port
    var conn: SeedLinkConnection
    var buffers: map<string, seq<Sample>>
    const dataRetrieval: bool
    const beginTime: Option<string>
    const endTime: Option<string>

    function State(): Session
      reads this, conn
    {
      Session(streams, serverHost, serverPort, conn.address, conn.multistation,
              conn.streams, conn.beginTime, conn.endTime)
    }

    function Snapshot(): Client
      reads this, conn
    {
      Client(State(), buffers)
    }

    constructor (host: string, port: Port, dataRetrieval: bool,
                 beginTime: Option<string>, endTime: Option<string>,
                 buffers: map<string, seq<Sample>>)
      ensures fresh(conn) && conn.timeout == 30
      ensures State() == Session(Lines([]), host, port, Some(SlAddress(host, port)), false, [], None, None)
      ensures this.buffers == buffers && this.dataRetrieval == dataRetrieval
      ensures this.beginTime == beginTime && this.endTime == endTime
      ensures Consistent(State())
    {
      streams := Lines([]);
      serverHost, serverPort := host, port;
      conn := new SeedLinkConnection(30);
      this.buffers := buffers;
      this.dataRetrieval := dataRetrieval;
      this.beginTime, this.endTime := beginTime, endTime;
      new;
      conn.SetSlAddress(SlAddress(host, port));
    }

    /** `on_data(tr)` with the fixed threshold of 4500 samples. */
    method OnData(tr: Option<Trace>, now: int) returns (outcome: OnDataOutcome)
      modifies this`buffers
      ensures Ingested(buffers, outcome) == Ingest(old(buffers), tr, now, FixedCapacity)
    {
      match tr {
        case None =>
          outcome := TraceMissing;
        case Some(t) =>
          if now - t.startTime <= MaxAge {
            var key := ChannelKey(t.network, t.station, t.location, t.channel);
            var data: seq<Sample>;
            if key in buffers {
              var stored := buffers[key];
              if |stored| <= 4500 {
                data := stored + t.samples;
              } else {
                data := From(stored, RoundHalf(0 - |stored|)) + t.samples;
              }
            } else {
              data := t.samples;
            }
            buffers := buffers[key := data];
            outcome := Written(key);
          } else {
            outcome := TooOld;
          }
      }
    }

    /** `on_terminate`. */
    method OnTerminate()
      modifies this
      ensures fresh(conn) && conn.timeout == 30
      ensures State() == Reconnect(old(State())) && buffers == old(buffers)
    {
      var kept := conn.streams;
      conn := new SeedLinkConnection(30);
      conn.SetSlAddress(SlAddress(serverHost, serverPort));
      conn.multistation := true;
      conn.streams := kept;
    }

    /** `on_seedlink_error`. */
    method OnSeedLinkError()
      modifies this
      ensures fresh(conn) && conn.timeout == 30
      ensures State() == ErrorReconnect(old(State())) && buffers == old(buffers)
    {
      streams := Copied(conn.streams);
      conn := new SeedLinkConnection(30);
      conn.SetSlAddress(SlAddress(serverHost, serverPort));
      conn.multistation := true;
      conn.streams := streams.selectors;
    }

    /** `for station in channels: ... self.select_stream(net, sta, cha)`. */
    method SelectChannels(channels: seq<string>) returns (ok: bool)
      modifies conn`streams
      ensures ok == SelectorsOf(channels).Some?
      ensures ok ==> conn.streams == old(conn.streams) + SelectorsOf(channels).value
    {
      var k := 0;
      while k < |channels|
        invariant 0 <= k <= |channels|
        invariant SelectorsOf(channels[..k]).Some?
        invariant conn.streams == old(conn.streams) + SelectorsOf(channels[..k]).value
      {
        var sel := ParseChannelLine(channels[k]);
        if sel.None? {
          return false;
        }
        conn.AddStream(sel.value);
        assert channels[..k + 1][..k] == channels[..k];
        k := k + 1;
      }
      assert channels[..k] == channels;
      return true;
    }

    /** `SeedLinkConnection(timeout=30)`, addressed to the server and set to
        multi-station mode, with nothing selected yet. */
    static method Connect(host: string, port: Port) returns (c: SeedLinkConnection)
      ensures fresh(c) && c.timeout == 30
      ensures c.address == Some(SlAddress(host, port)) && c.multistation
      ensures c.streams == [] && c.beginTime == None && c.endTime == None
    {
      c := new SeedLinkConnection(30);
      c.SetSlAddress(SlAddress(host, port));
      c.multistation := true;
    }

    /** The body of `if self.streams != new_streams` in `run`. */
    method Resubscribe(lines: seq<string>) returns (ok: bool)
      modifies this
      ensures fresh(conn) && conn.timeout == 30
      ensures buffers == old(buffers) && serverHost == old(serverHost) && serverPort == old(serverPort)
      ensures ok == Rebuild(old(State()), lines).Some?
      ensures ok ==> State() == Rebuild(old(State()), lines).value
    {
      conn := Connect(serverHost, serverPort);
      ok := SelectChannels(From(lines, 1));
      if ok {
        streams := Lines(lines);
        assert State() == Session(Lines(lines), serverHost, serverPort, Some(SlAddress(serverHost, serverPort)),
                                  true, SelectorsOf(From(lines, 1)).value, None, None);
      }
    }

    method HandlePacket(a: Arrival) returns (ok: bool)
      modifies this
      ensures conn == old(conn) || fresh(conn)
      ensures a.packet.Info? || a.packet.Data? ==> conn == old(conn)
      ensures ok == AfterPacket(old(Snapshot()), FixedCapacity, a).Some?
      ensures ok ==> Snapshot() == AfterPacket(old(Snapshot()), FixedCapacity, a).value
    {
      match a.packet {
        case Terminate =>
          OnTerminate();
          ok := true;
        case Error =>
          OnSeedLinkError();
          ok := true;
        case Info =>
          ok := true;
        case Data(tr) =>
          var outcome := OnData(tr, a.now);
          ok := outcome != TraceMissing;
      }
    }

    method PollOnce(p: PollInput) returns (ok: bool, rebuilt: bool)
      modifies this
      ensures rebuilt == (p.file.Some? && !SameAs(old(streams), p.file.value))
      ensures conn == old(conn) || fresh(conn)
      ensures !rebuilt && (p.arrival.packet.Info? || p.arrival.packet.Data?) ==> conn == old(conn)
      ensures ok == AfterPoll(old(Snapshot()), FixedCapacity, p).Some?
      ensures ok ==> Snapshot() == AfterPoll(old(Snapshot()), FixedCapacity, p).value
    {
      rebuilt := false;
      match p.file {
        case None =>
          ok := true;
        case Some(lines) =>
          var same := match streams
                      case Lines(ls) => ls == lines
                      case Copied(sel) => sel == [] && lines == [];
          if !same {
            rebuilt := true;
            ok := Resubscribe(lines);
            if !ok {
              return;
            }
          }
          ok := HandlePacket(p.arrival);
      }
    }

    method RunLive(polls: seq<PollInput>) returns (ok: bool)
      requires !dataRetrieval
      modifies this
      ensures ok == AfterLiveRun(old(Snapshot()), FixedCapacity, polls).Some?
      ensures ok ==> Snapshot() == AfterLiveRun(old(Snapshot()), FixedCapacity, polls).value
    {
      var i := 0;
      while i < |polls|
        invariant 0 <= i <= |polls|
        invariant AfterLiveRun(old(Snapshot()), FixedCapacity, polls) == AfterLiveRun(Snapshot(), FixedCapacity, polls[i..])
      {
        assert polls[i..][1..] == polls[i + 1..];
        var turn, _ := PollOnce(polls[i]);
        if !turn {
          return false;
        }
        i := i + 1;
      }
      return true;
    }

    method RunRetrieval(file: Option<seq<string>>, arrivals: seq<Arrival>) returns (outcome: RetrievalOutcome)
      requires dataRetrieval
      modifies this
      ensures outcome == AfterRetrieval(old(Snapshot()), FixedCapacity, beginTime, endTime, file, arrivals).outcome
      ensures outcome != Crashed ==>
                Snapshot() == AfterRetrieval(old(Snapshot()), FixedCapacity, beginTime, endTime, file, arrivals).client
    {
      if beginTime.None? || endTime.None? {
        return NotRequested;
      }
      if file.None? {
        return StreamFileMissing;
      }
      OnTerminate();
      var selectedAll := SelectChannels(From(file.value, 1));
      if !selectedAll {
        return Crashed;
      }
      conn.SetTimeWindow(beginTime.value, endTime.value);
      outcome := Drain(arrivals);
    }

    method Drain(arrivals: seq<Arrival>) returns (outcome: RetrievalOutcome)
      modifies this
      ensures outcome == AfterDrain(old(Snapshot()), FixedCapacity, arrivals).outcome
      ensures outcome != Crashed ==> Snapshot() == AfterDrain(old(Snapshot()), FixedCapacity, arrivals).client
    {
      var j := 0;
      while j < |arrivals|
        invariant 0 <= j <= |arrivals|
        invariant AfterDrain(old(Snapshot()), FixedCapacity, arrivals) == AfterDrain(Snapshot(), FixedCapacity, arrivals[j..])
      {
        assert arrivals[j..][1..] == arrivals[j + 1..];
        match arrivals[j].packet {
          case Terminate =>
            OnTerminate();
            return Diverged;
          case Error =>
            OnSeedLinkError();
            return Diverged;
          case Info =>
          case Data(tr) =>
            var o := OnData(tr, arrivals[j].now);
            if o == TraceMissing {
              return Crashed;
            }
        }
        j := j + 1;
      }
      return Finished;
    }
  }

  /** `get_arguments`: the port option, '18000' when none is given. */
  function PortArgument(port: Option<string>): (r: string)
    ensures port.Some? ==> r == port.value
    ensures port.None? ==> r == DefaultPortText
  {
    if port.None? then DefaultPortText else port.value
  }

  /** The server URL `args.server + ':' + args.port` handed to the client
      splits back into the server and the chosen port. */
  lemma ServerUrlRoundTrip(server: string, port: Option<string>)
    requires ':' !in server
    requires port.Some? ==> ':' !in port.value
    ensures HostAndPort(server + ":" + PortArgument(port)) == (server, Some(PortArgument(port)))
  {
    HostAndPortRoundTrip(server, PortArgument(port));
  }
}
