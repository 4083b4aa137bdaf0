/** `MonaSeedLinkClient` (mona_sl_client.py): the supervisor that watches the
    subscription file, rebuilds the SeedLink session when the file changes,
    recovers from terminate and error signals, and feeds data packets to the
    buffer update.

    The pure functions below describe one step of the supervisor on a value
    (`Session`, `Client`); the class does the same thing in place, on its own
    fields and on a `SeedLinkConnection` object that recovery replaces, and its
    methods are proved to follow the functions. */
module MonaClient {
  import opened Wrappers
  import opened Strings
  import opened Buffering
  import opened SeedLink

  /** The supervisor's own fields (`streams`, `server_hostname`,
      `server_port`) and those of its current connection. */
  datatype Session = Session(streams: seq<string>, host: string, port: Port,
                             address: Option<string>, multistation: bool,
                             selected: seq<Selector>,
                             beginTime: Option<string>, endTime: Option<string>)

  /** A session together with the buffer directory. */
  datatype Client = Client(session: Session, buffers: map<string, seq<Sample>>)

  /** The supervisor invariant: the selection on the connection, the server and
      the address are the ones the remembered subscription lines name. */
  predicate Consistent(s: Session)
  {
    if s.streams == [] then s.selected == []
    else
      && SelectorsOf(s.streams[1..]) == Some(s.selected)
      && (s.host, s.port) == ParseServerLine(s.streams[0])
      && s.address == Some(SlAddress(s.host, s.port))
      && s.multistation
  }

  /** `on_terminate` and `on_seedlink_error`: a new connection to the remembered
      server that carries over the selection of the old one. */
  function Reconnect(s: Session): (r: Session)
    ensures r.selected == s.selected && r.streams == s.streams
    ensures r.host == s.host && r.port == s.port
    ensures r.address == Some(SlAddress(s.host, s.port)) && r.multistation
    ensures Consistent(s) ==> Consistent(r)
  {
    s.(address := Some(SlAddress(s.host, s.port)), multistation := true,
       beginTime := None, endTime := None)
  }

  /** Recovering twice leaves the same session as recovering once. */
  lemma ReconnectIdempotent(s: Session)
    ensures Reconnect(Reconnect(s)) == Reconnect(s)
  {
  }

  /** The rebuild in `run` after the subscription lines changed. None stands for
      the IndexError of an empty file or of a channel line with fewer than four
      parts. The new session depends on the lines alone. The connection gets
      the corrected address `SlAddress`; `RebuildAsWritten` is the source's. */
  function Rebuild(lines: seq<string>): (r: Option<Session>)
    ensures r.Some? <==> lines != [] && SelectorsOf(lines[1..]).Some?
    ensures r.Some? ==> r.value.streams == lines && Consistent(r.value)
    ensures r.Some? ==> (r.value.host, r.value.port) == ParseServerLine(lines[0])
    ensures r.Some? ==> Some(r.value.selected) == SelectorsOf(lines[1..])
  {
    if lines == [] then None
    else
      match SelectorsOf(lines[1..])
      case None => None
      case Some(sel) =>
        var (host, port) := ParseServerLine(lines[0]);
        Some(Session(lines, host, port, Some(SlAddress(host, port)), true, sel, None, None))
  }

  /** The rebuild exactly as written: `'%s:%d'` at mona_sl_client.py:120
      raises TypeError for a port kept as a string, before any channel is
      selected. Only a server line without a port rebuilds, and then as
      `Rebuild` does. */
  function RebuildAsWritten(lines: seq<string>): (r: Option<Session>)
    ensures r.Some? <==> lines != [] && ':' !in lines[0] && SelectorsOf(lines[1..]).Some?
    ensures r.Some? ==> r == Rebuild(lines)
  {
    if lines == [] then None
    else
      var (host, port) := ParseServerLine(lines[0]);
      match SlAddressAsWritten(host, port)
      case None => None
      case Some(address) =>
        match SelectorsOf(lines[1..])
        case None => None
        case Some(sel) => Some(Session(lines, host, port, Some(address), true, sel, None, None))
  }

  /** A subscription file whose server line names a port (`host:18001`
      followed by valid channel lines): the source's rebuild fails, the
      corrected one subscribes. */
  lemma GivenPortStopsRebuild(host: string, port: string, channels: seq<string>)
    requires SelectorsOf(channels).Some?
    ensures RebuildAsWritten([host + ":" + port] + channels) == None
    ensures Rebuild([host + ":" + port] + channels).Some?
  {
    var lines := [host + ":" + port] + channels;
    assert lines[0][|host|] == ':';
    assert lines[1..] == channels;
  }

  /** The dispatch of one collected packet in the live loop. None stands for
      the AttributeError of a data packet without a trace. */
  function AfterPacket(c: Client, capacity: int, a: Arrival): (r: Option<Client>)
    ensures r.None? <==> a.packet == Data(None)
    ensures r.Some? ==> r.value.session.streams == c.session.streams
    ensures r.Some? ==> r.value.session.selected == c.session.selected
    ensures r.Some? ==> r.value.session.host == c.session.host && r.value.session.port == c.session.port
    ensures r.Some? && !a.packet.Data? ==> r.value.buffers == c.buffers
    ensures r.Some? && (a.packet.Info? || a.packet.Data?) ==> r.value.session == c.session
    ensures Consistent(c.session) && r.Some? ==> Consistent(r.value.session)
  {
    match a.packet
    case Terminate => Some(Client(Reconnect(c.session), c.buffers))
    case Error => Some(Client(Reconnect(c.session), c.buffers))
    case Info => Some(c)
    case Data(tr) =>
      var r := Ingest(c.buffers, tr, a.now, capacity);
      if r.outcome == TraceMissing then None else Some(Client(c.session, r.buffers))
  }

  /** One turn of the live `while True` loop: the subscription file's lines (None
      when the file is missing) and the packet collected afterwards. */
  datatype PollInput = PollInput(file: Option<seq<string>>, arrival: Arrival)

  /** One turn of the live loop: a missing file only waits; lines equal to the
      remembered ones leave the session alone; other lines rebuild it. */
  function AfterPoll(c: Client, capacity: int, p: PollInput): (r: Option<Client>)
    ensures p.file.None? ==> r == Some(c)
    ensures p.file.Some? && p.file.value == c.session.streams ==> r == AfterPacket(c, capacity, p.arrival)
    ensures r.Some? && p.file.Some? ==> r.value.session.streams == p.file.value
    ensures Consistent(c.session) && r.Some? ==> Consistent(r.value.session)
  {
    match p.file
    case None => Some(c)
    case Some(lines) =>
      if lines == c.session.streams then AfterPacket(c, capacity, p.arrival)
      else
        match Rebuild(lines)
        case None => None
        case Some(s) => AfterPacket(Client(s, c.buffers), capacity, p.arrival)
  }

  /** A finite stretch of the live loop; None once a turn raises. */
  function AfterLiveRun(c: Client, capacity: int, polls: seq<PollInput>): Option<Client>
    decreases |polls|
  {
    if polls == [] then Some(c)
    else
      match AfterPoll(c, capacity, polls[0])
      case None => None
      case Some(next) => AfterLiveRun(next, capacity, polls[1..])
  }

  /** However long the live loop runs, the connection's selection keeps matching
      the remembered subscription lines. */
  lemma {:induction false} LiveRunKeepsConsistent(c: Client, capacity: int, polls: seq<PollInput>)
    requires Consistent(c.session)
    ensures AfterLiveRun(c, capacity, polls).Some? ==> Consistent(AfterLiveRun(c, capacity, polls).value.session)
    decreases |polls|
  {
    if polls != [] {
      var next := AfterPoll(c, capacity, polls[0]);
      if next.Some? {
        LiveRunKeepsConsistent(next.value, capacity, polls[1..]);
      }
    }
  }

  /** Reading the same lines again right after a turn changes nothing. */
  lemma RereadChangesNothing(c: Client, capacity: int, lines: seq<string>, a: Arrival, now: int)
    requires AfterPoll(c, capacity, PollInput(Some(lines), a)).Some?
    ensures var next := AfterPoll(c, capacity, PollInput(Some(lines), a)).value;
            AfterPoll(next, capacity, PollInput(Some(lines), Arrival(Info, now))) == Some(next)
  {
  }

  /** Outcome of the retrieval branch of `run`. `Diverged`: a terminate or error
      signal arrived; the loop then `continue`s with the same packet and repeats
      the recovery forever (`ReconnectIdempotent`: the state stays that after one
      recovery). `Crashed`: an exception escaped. */
  datatype RetrievalOutcome = NotRequested | StreamFileMissing | Finished | Diverged | Crashed

  datatype Retrieved = Retrieved(client: Client, outcome: RetrievalOutcome)

  /** The `while data is not None` loop of the retrieval branch; the end of
      `arrivals` is `collect()` returning None. */
  function AfterDrain(c: Client, capacity: int, arrivals: seq<Arrival>): (r: Retrieved)
    ensures r.outcome == Finished || r.outcome == Diverged || r.outcome == Crashed
    ensures r.client.session == (if r.outcome == Diverged then Reconnect(c.session) else c.session)
    decreases |arrivals|
  {
    if arrivals == [] then Retrieved(c, Finished)
    else
      match arrivals[0].packet
      case Terminate => Retrieved(Client(Reconnect(c.session), c.buffers), Diverged)
      case Error => Retrieved(Client(Reconnect(c.session), c.buffers), Diverged)
      case Info => AfterDrain(c, capacity, arrivals[1..])
      case Data(tr) =>
        var r := Ingest(c.buffers, tr, arrivals[0].now, capacity);
        if r.outcome == TraceMissing then Retrieved(c, Crashed)
        else AfterDrain(Client(c.session, r.buffers), capacity, arrivals[1..])
  }

  /** The retrieval branch of `run`: recover, add the file's channel lines to
      the carried-over selection, set the time window, then drain. The client
      after `Crashed` is not described. */
  function AfterRetrieval(c: Client, capacity: int, beginTime: Option<string>, endTime: Option<string>,
                          file: Option<seq<string>>, arrivals: seq<Arrival>): (r: Retrieved)
    ensures r.outcome == NotRequested <==> beginTime.None? || endTime.None?
    ensures r.outcome == StreamFileMissing <==> beginTime.Some? && endTime.Some? && file.None?
    ensures r.outcome == Finished || r.outcome == Diverged ==>
              && file.Some? && SelectorsOf(From(file.value, 1)).Some?
              && r.client.session.selected == c.session.selected + SelectorsOf(From(file.value, 1)).value
    ensures r.outcome == Finished ==>
              r.client.session.beginTime == beginTime && r.client.session.endTime == endTime
    ensures r.outcome != Crashed ==> r.client.session.streams == c.session.streams
  {
    if beginTime.None? || endTime.None? then Retrieved(c, NotRequested)
    else if file.None? then Retrieved(c, StreamFileMissing)
    else
      match SelectorsOf(From(file.value, 1))
      case None => Retrieved(c, Crashed)
      case Some(sel) =>
        var s := Reconnect(c.session);
        var windowed := s.(selected := s.selected + sel, beginTime := beginTime, endTime := endTime);
        AfterDrain(Client(windowed, c.buffers), capacity, arrivals)
  }

  class MonaSeedLinkClient {
    var streams: seq<string>
    var serverHost: string
    var serverPort: Port
    var conn: SeedLinkConnection
    var buffers: map<string, seq<Sample>>
    const capacity: int
    const dataRetrieval: bool
    const beginTime: Option<string>
    const endTime: Option<string>

    function State(): Session
      reads this, conn
    {
      Session(streams, serverHost, serverPort, conn.address, conn.multistation,
              conn.streams, conn.beginTime, conn.endTime)
    }

    function Snapshot(): Client
      reads this, conn
    {
      Client(State(), buffers)
    }

    /** The client connected to `host` and `port` with nothing subscribed yet;
        `capacity` is `int(SAMPLING_RATE * QUEUE_DURATION)`. */
    constructor (host: string, port: Port, capacity: int, dataRetrieval: bool,
                 beginTime: Option<string>, endTime: Option<string>,
                 buffers: map<string, seq<Sample>>)
      ensures fresh(conn) && conn.timeout == 30
      ensures State() == Session([], host, port, Some(SlAddress(host, port)), false, [], None, None)
      ensures this.buffers == buffers && this.capacity == capacity && this.dataRetrieval == dataRetrieval
      ensures this.beginTime == beginTime && this.endTime == endTime
      ensures Consistent(State())
    {
      streams := [];
      serverHost, serverPort := host, port;
      conn := new SeedLinkConnection(30);
      this.buffers := buffers;
      this.capacity := capacity;
      this.dataRetrieval := dataRetrieval;
      this.beginTime, this.endTime := beginTime, endTime;
      new;
      conn.SetSlAddress(SlAddress(host, port));
    }

    /** `on_data(tr)` with the clock reading `now`. */
    method OnData(tr: Option<Trace>, now: int) returns (outcome: OnDataOutcome)
      modifies this`buffers
      ensures Ingested(buffers, outcome) == Ingest(old(buffers), tr, now, capacity)
    {
      match tr {
        case None =>
          outcome := TraceMissing;
        case Some(t) =>
          if now - t.startTime <= MaxAge {
            var key := ChannelKey(t.network, t.station, t.location, t.channel);
            var data: seq<Sample>;
            if key in buffers {
              var stored := buffers[key];
              if |stored| <= capacity {
                data := stored + t.samples;
              } else {
                data := From(stored, RoundHalf(0 - |stored|)) + t.samples;
              }
            } else {
              data := t.samples;
            }
            buffers := buffers[key := data];
            outcome := Written(key);
          } else {
            outcome := TooOld;
          }
      }
    }

    /** `on_terminate`. */
    method OnTerminate()
      modifies this
      ensures fresh(conn) && conn.timeout == 30
      ensures State() == Reconnect(old(State())) && buffers == old(buffers)
    {
      var kept := conn.streams;
      conn := new SeedLinkConnection(30);
      conn.SetSlAddress(SlAddress(serverHost, serverPort));
      conn.multistation := true;
      conn.streams := kept;
    }

    /** `on_seedlink_error`: the same procedure as `on_terminate`. */
    method OnSeedLinkError()
      modifies this
      ensures fresh(conn) && conn.timeout == 30
      ensures State() == Reconnect(old(State())) && buffers == old(buffers)
    {
      var kept := conn.streams;
      conn := new SeedLinkConnection(30);
      conn.SetSlAddress(SlAddress(serverHost, serverPort));
      conn.multistation := true;
      conn.streams := kept;
    }

    /** `for station in channels: ... self.select_stream(net, sta, cha)`;
        false when a line raises IndexError, after selecting the lines before it. */
    method SelectChannels(channels: seq<string>) returns (ok: bool)
      modifies conn`streams
      ensures ok == SelectorsOf(channels).Some?
      ensures ok ==> conn.streams == old(conn.streams) + SelectorsOf(channels).value
    {
      var k := 0;
      while k < |channels|
        invariant 0 <= k <= |channels|
        invariant SelectorsOf(channels[..k]).Some?
        invariant conn.streams == old(conn.streams) + SelectorsOf(channels[..k]).value
      {
        var sel := ParseChannelLine(channels[k]);
        if sel.None? {
          return false;
        }
        conn.AddStream(sel.value);
        assert channels[..k + 1][..k] == channels[..k];
        k := k + 1;
      }
      assert channels[..k] == channels;
      return true;
    }

    /** The body of `if self.streams != new_streams` in `run`. */
    method Resubscribe(lines: seq<string>) returns (ok: bool)
      modifies this
      ensures fresh(conn) && conn.timeout == 30
      ensures buffers == old(buffers)
      ensures ok == Rebuild(lines).Some?
      ensures ok ==> State() == Rebuild(lines).value
    {
      conn := new SeedLinkConnection(30);
      if |lines| == 0 {
        return false;
      }
      var (host, port) := ParseServerLine(lines[0]);
      serverHost, serverPort := host, port;
      conn.SetSlAddress(SlAddress(host, port));
      conn.multistation := true;
      ok := SelectChannels(lines[1..]);
      if ok {
        streams := lines;
      }
    }

    /** The packet dispatch of the live loop. */
    method HandlePacket(a: Arrival) returns (ok: bool)
      modifies this
      ensures conn == old(conn) || fresh(conn)
      ensures a.packet.Info? || a.packet.Data? ==> conn == old(conn)
      ensures ok == AfterPacket(old(Snapshot()), capacity, a).Some?
      ensures ok ==> Snapshot() == AfterPacket(old(Snapshot()), capacity, a).value
    {
      match a.packet {
        case Terminate =>
          OnTerminate();
          ok := true;
        case Error =>
          OnSeedLinkError();
          ok := true;
        case Info =>
          ok := true;
        case Data(tr) =>
          var outcome := OnData(tr, a.now);
          ok := outcome != TraceMissing;
      }
    }

    /** One turn of the live loop. `rebuilt` tells whether the session was torn
        down and rebuilt. */
    method PollOnce(p: PollInput) returns (ok: bool, rebuilt: bool)
      modifies this
      ensures rebuilt == (p.file.Some? && p.file.value != old(streams))
      ensures conn == old(conn) || fresh(conn)
      ensures !rebuilt && (p.arrival.packet.Info? || p.arrival.packet.Data?) ==> conn == old(conn)
      ensures ok == AfterPoll(old(Snapshot()), capacity, p).Some?
      ensures ok ==> Snapshot() == AfterPoll(old(Snapshot()), capacity, p).value
    {
      rebuilt := false;
      match p.file {
        case None =>
          ok := true;
        case Some(lines) =>
          if lines != streams {
            rebuilt := true;
            ok := Resubscribe(lines);
            if !ok {
              return;
            }
          }
          ok := HandlePacket(p.arrival);
      }
    }

    /** The live branch of `run`, over a finite stretch of its loop. */
    method RunLive(polls: seq<PollInput>) returns (ok: bool)
      requires !dataRetrieval
      modifies this
      ensures ok == AfterLiveRun(old(Snapshot()), capacity, polls).Some?
      ensures ok ==> Snapshot() == AfterLiveRun(old(Snapshot()), capacity, polls).value
    {
      var i := 0;
      while i < |polls|
        invariant 0 <= i <= |polls|
        invariant AfterLiveRun(old(Snapshot()), capacity, polls) == AfterLiveRun(Snapshot(), capacity, polls[i..])
      {
        assert polls[i..][1..] == polls[i + 1..];
        var turn, _ := PollOnce(polls[i]);
        if !turn {
          return false;
        }
        i := i + 1;
      }
      return true;
    }

    /** The retrieval branch of `run`. */
    method RunRetrieval(file: Option<seq<string>>, arrivals: seq<Arrival>) returns (outcome: RetrievalOutcome)
      requires dataRetrieval
      modifies this
      ensures outcome == AfterRetrieval(old(Snapshot()), capacity, beginTime, endTime, file, arrivals).outcome
      ensures outcome != Crashed ==>
                Snapshot() == AfterRetrieval(old(Snapshot()), capacity, beginTime, endTime, file, arrivals).client
    {
      if beginTime.None? || endTime.None? {
        return NotRequested;
      }
      if file.None? {
        return StreamFileMissing;
      }
      OnTerminate();
      var selectedAll := SelectChannels(From(file.value, 1));
      if !selectedAll {
        return Crashed;
      }
      conn.SetTimeWindow(beginTime.value, endTime.value);
      outcome := Drain(arrivals);
    }

    /** The `while data is not None` loop of the retrieval branch. */
    method Drain(arrivals: seq<Arrival>) returns (outcome: RetrievalOutcome)
      modifies this
      ensures outcome == AfterDrain(old(Snapshot()), capacity, arrivals).outcome
      ensures outcome != Crashed ==> Snapshot() == AfterDrain(old(Snapshot()), capacity, arrivals).client
    {
      var j := 0;
      while j < |arrivals|
        invariant 0 <= j <= |arrivals|
        invariant AfterDrain(old(Snapshot()), capacity, arrivals) == AfterDrain(Snapshot(), capacity, arrivals[j..])
      {
        assert arrivals[j..][1..] == arrivals[j + 1..];
        match arrivals[j].packet {
          case Terminate =>
            OnTerminate();
            return Diverged;
          case Error =>
            OnSeedLinkError();
            return Diverged;
          case Info =>
          case Data(tr) =>
            var o := OnData(tr, arrivals[j].now);
            if o == TraceMissing {
              return Crashed;
            }
        }
        j := j + 1;
      }
      return Finished;
    }
  }
}
