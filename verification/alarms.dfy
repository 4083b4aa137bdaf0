/** alarms.py: `create_alarm_from_HAT` regenerates a server's alarm ledger from
    the health states of its stations. Every state whose `problem` attribute is
    '1' (warning) or '2' (critical) becomes one ongoing alarm; the previous
    ledger's `completed` section is carried over as it was. The two XML files
    are given here as parsed values and the rewritten ledger is the result. */
module Alarms {
  import opened Wrappers
  import opened Strings

  /** One `<state>` of a station; each attribute may be absent. */
  datatype State = State(name: Option<string>, value: Option<string>,
                         problem: Option<string>, datetime: Option<string>)

  /** One `<station>` of the states file, with its states in document order. */
  datatype StationStates = StationStates(name: Option<string>, states: seq<State>)

  /** One `<alarm>` of the ledger. */
  datatype Alarm = Alarm(id: string, station: string, state: string, detail: string,
                         datetime: string, problem: string)

  /** The ledger of one server: its ongoing alarms and its `completed`
      section, which may be missing. */
  datatype Ledger = Ledger(server: string, port: string, ongoing: seq<Alarm>,
                           completed: Option<seq<Alarm>>)

  /** Why the ledger is not rewritten: a file is missing (`FileNotFoundError`),
      a station has no `name` (`KeyError`), or a selected state has no
      `datetime`, which cannot be concatenated into the id (`TypeError`). */
  datatype AlarmError = StatesMissing | LedgerMissing | MissingStationName | MissingDatetime

  const Warning: string := "1"
  const Critical: string := "2"

  /** An absent attribute read with `.get` prints as 'None' in the ledger. */
  function Render(a: Option<string>): string
  {
    if a.Some? then a.value else "None"
  }

  /** `find_all('state', {'problem': p})` keeps the states whose problem is p. */
  predicate Flagged(s: State, problem: string)
  {
    s.problem == Some(problem)
  }

  /** The states flagged with the given problem, in document order. */
  function FlaggedStates(states: seq<State>, problem: string): (r: seq<State>)
    ensures |r| <= |states|
    ensures forall s :: s in r <==> s in states && Flagged(s, problem)
    decreases |states|
  {
    if states == [] then []
    else
      var last := states[|states| - 1];
      FlaggedStates(states[..|states| - 1], problem) + (if Flagged(last, problem) then [last] else [])
  }

  /** The id of an alarm: station, datetime and problem joined by dots. */
  function AlarmId(station: string, datetime: string, problem: string): string
  {
    station + "." + datetime + "." + problem
  }

  /** The alarm written for one flagged state. */
  function AlarmOf(station: string, s: State, problem: string): (a: Alarm)
    requires s.datetime.Some?
    ensures a.id == AlarmId(a.station, a.datetime, a.problem)
    ensures a.station == station && a.problem == problem
    ensures a.state == Render(s.name) && a.detail == Render(s.value) && Some(a.datetime) == s.datetime
  {
    var dt := s.datetime.value;
    Alarm(AlarmId(station, dt, problem), station, Render(s.name), Render(s.value), dt, problem)
  }

  /** One of the two inner loops: the alarms of the states of one station
      flagged with `problem`, in document order. */
  function AlarmsWith(station: string, states: seq<State>, problem: string): (r: Result<seq<Alarm>, AlarmError>)
    ensures r.Failure? ==> r.error == MissingDatetime
    decreases |states|
  {
    if states == [] then Success([])
    else
      var last := states[|states| - 1];
      match AlarmsWith(station, states[..|states| - 1], problem)
      case Failure(e) => Failure(e)
      case Success(done) =>
        if !Flagged(last, problem) then Success(done)
        else if last.datetime.None? then Failure(MissingDatetime)
        else Success(done + [AlarmOf(station, last, problem)])
  }

  /** The inner loop succeeds exactly when every flagged state has a
      datetime, and then writes one alarm per flagged state, in order. */
  lemma {:induction false} AlarmsWithMeaning(station: string, states: seq<State>, problem: string)
    ensures AlarmsWith(station, states, problem).Success? <==>
              forall s :: s in states && Flagged(s, problem) ==> s.datetime.Some?
    ensures var r := AlarmsWith(station, states, problem);
            r.Success? ==> |r.value| == |FlaggedStates(states, problem)|
    ensures var r := AlarmsWith(station, states, problem);
            r.Success? ==> forall i :: 0 <= i < |r.value| ==>
              FlaggedStates(states, problem)[i].datetime.Some? &&
              r.value[i] == AlarmOf(station, FlaggedStates(states, problem)[i], problem)
    decreases |states|
  {
    if states != [] {
      var prefix := states[..|states| - 1];
      var last := states[|states| - 1];
      assert forall s :: s in states <==> s in prefix || s == last;
      AlarmsWithMeaning(station, prefix, problem);
    }
  }

  /** The body of the station loop: its name, then its warnings, then its
      criticals. */
  function StationAlarms(st: StationStates): (r: Result<seq<Alarm>, AlarmError>)
  {
    if st.name.None? then Failure(MissingStationName)
    else
      match AlarmsWith(st.name.value, st.states, Warning)
      case Failure(e) => Failure(e)
      case Success(warnings) =>
        match AlarmsWith(st.name.value, st.states, Critical)
        case Failure(e) => Failure(e)
        case Success(criticals) => Success(warnings + criticals)
  }

  /** The whole `<ongoing>` section: the stations' alarms in document order. */
  function Ongoing(stations: seq<StationStates>): Result<seq<Alarm>, AlarmError>
    decreases |stations|
  {
    if stations == [] then Success([])
    else
      match Ongoing(stations[..|stations| - 1])
      case Failure(e) => Failure(e)
      case Success(done) =>
        match StationAlarms(stations[|stations| - 1])
        case Failure(e) => Failure(e)
        case Success(more) => Success(done + more)
  }

  /** `create_alarm_from_HAT(server, port)` as a function of the two files it
      reads: the states file is opened first, then the server's ledger. */
  function Regenerate(server: string, port: string, statesFile: Option<seq<StationStates>>,
                      ledgerFile: Option<Ledger>): Result<Ledger, AlarmError>
  {
    if statesFile.None? then Failure(StatesMissing)
    else if ledgerFile.None? then Failure(LedgerMissing)
    else
      match Ongoing(statesFile.value)
      case Failure(e) => Failure(e)
      case Success(alarms) => Success(Ledger(server, port, alarms, ledgerFile.value.completed))
  }

  /** Accumulates the alarms of the states flagged with `problem` onto
      `acc`; `ok` is false when a flagged state has no datetime. */
  method AddAlarms(acc: seq<Alarm>, station: string, states: seq<State>, problem: string)
    returns (ok: bool, out: seq<Alarm>)
    ensures ok == AlarmsWith(station, states, problem).Success?
    ensures ok ==> out == acc + AlarmsWith(station, states, problem).value
  {
    out := acc;
    var j := 0;
    while j < |states|
      invariant 0 <= j <= |states|
      invariant AlarmsWith(station, states[..j], problem).Success?
      invariant out == acc + AlarmsWith(station, states[..j], problem).value
    {
      assert states[..j + 1][..j] == states[..j];
      var s := states[j];
      if s.problem == Some(problem) {
        if s.datetime.None? {
          assert states[j] in states;
          AlarmsWithMeaning(station, states, problem);
          return false, out;
        }
        var dt := s.datetime.value;
        out := out + [Alarm(station + "." + dt + "." + problem, station, Render(s.name), Render(s.value), dt, problem)];
      }
      j := j + 1;
    }
    assert states[..j] == states;
    ok := true;
  }

  /** `create_alarm_from_HAT`, accumulating the ongoing alarms station by
      station; the result is the ledger written back. */
  method CreateAlarmFromHat(server: string, port: string, statesFile: Option<seq<StationStates>>,
                            ledgerFile: Option<Ledger>) returns (r: Result<Ledger, AlarmError>)
    ensures r == Regenerate(server, port, statesFile, ledgerFile)
  {
    if statesFile.None? {
      return Failure(StatesMissing);
    }
    if ledgerFile.None? {
      return Failure(LedgerMissing);
    }
    var completed := ledgerFile.value.completed;
    var stations := statesFile.value;
    var alarms: seq<Alarm> := [];
    var k := 0;
    while k < |stations|
      invariant 0 <= k <= |stations|
      invariant Ongoing(stations[..k]) == Success(alarms)
    {
      assert stations[..k + 1][..k] == stations[..k];
      var element := stations[k];
      if element.name.None? {
        OngoingStopsAt(stations, k);
        return Failure(MissingStationName);
      }
      var station := element.name.value;
      var ok, withWarnings := AddAlarms(alarms, station, element.states, Warning);
      if !ok {
        OngoingStopsAt(stations, k);
        return Failure(MissingDatetime);
      }
      var withCriticals;
      ok, withCriticals := AddAlarms(withWarnings, station, element.states, Critical);
      if !ok {
        OngoingStopsAt(stations, k);
        return Failure(MissingDatetime);
      }
      OngoingStep(stations, k, alarms, withWarnings, withCriticals);
      alarms := withCriticals;
      k := k + 1;
    }
    assert stations[..k] == stations;
    return Success(Ledger(server, port, alarms, completed));
  }

  lemma OngoingStep(stations: seq<StationStates>, k: nat, before: seq<Alarm>, mid: seq<Alarm>, after: seq<Alarm>)
    requires k < |stations| && Ongoing(stations[..k]) == Success(before)
    requires stations[k].name.Some?
    requires AlarmsWith(stations[k].name.value, stations[k].states, Warning).Success?
    requires AlarmsWith(stations[k].name.value, stations[k].states, Critical).Success?
    requires mid == before + AlarmsWith(stations[k].name.value, stations[k].states, Warning).value
    requires after == mid + AlarmsWith(stations[k].name.value, stations[k].states, Critical).value
    ensures Ongoing(stations[..k + 1]) == Success(after)
  {
    assert stations[..k + 1][..k] == stations[..k];
    var w := AlarmsWith(stations[k].name.value, stations[k].states, Warning).value;
    var c := AlarmsWith(stations[k].name.value, stations[k].states, Critical).value;
    assert after == before + (w + c);
  }

  /** The first station that fails decides the error. */
  lemma {:induction false} OngoingStopsAt(stations: seq<StationStates>, k: nat)
    requires k < |stations| && Ongoing(stations[..k]).Success?
    requires StationAlarms(stations[k]).Failure?
    ensures Ongoing(stations) == Failure(StationAlarms(stations[k]).error)
    decreases |stations|
  {
    if k + 1 < |stations| {
      var prefix := stations[..|stations| - 1];
      assert prefix[..k] == stations[..k] && prefix[k] == stations[k];
      OngoingStopsAt(prefix, k);
    } else {
      assert stations[..|stations| - 1] == stations[..k];
    }
  }

  /** A station the loop gets through: it has a name and each of its states
      flagged as a warning or a critical has a datetime. */
  predicate Ready(st: StationStates)
  {
    && st.name.Some?
    && (forall s :: s in st.states && Flagged(s, Warning) ==> s.datetime.Some?)
    && (forall s :: s in st.states && Flagged(s, Critical) ==> s.datetime.Some?)
  }

  /** How many alarms the stations call for: one per state flagged '1' or '2'. */
  function FlaggedCount(stations: seq<StationStates>): nat
    decreases |stations|
  {
    if stations == [] then 0
    else
      var last := stations[|stations| - 1];
      FlaggedCount(stations[..|stations| - 1]) +
        |FlaggedStates(last.states, Warning)| + |FlaggedStates(last.states, Critical)|
  }

  /** The alarm of `s` for its problem, as station `station` writes it. */
  predicate Raises(station: string, s: State, a: Alarm)
  {
    s.datetime.Some? && s.problem.Some? && a == AlarmOf(station, s, s.problem.value)
  }

  /** One station: it succeeds exactly when it is ready, and then writes one
      alarm per flagged state, its warnings before its criticals. */
  lemma StationMeaning(st: StationStates)
    ensures StationAlarms(st).Success? <==> Ready(st)
    ensures var r := StationAlarms(st);
            r.Success? ==> |r.value| == |FlaggedStates(st.states, Warning)| + |FlaggedStates(st.states, Critical)|
    ensures var r := StationAlarms(st);
            r.Success? ==> forall i, j :: 0 <= i < j < |r.value| && r.value[j].problem == Warning ==>
                             r.value[i].problem == Warning
    ensures var r := StationAlarms(st);
            r.Success? ==> forall a :: a in r.value ==>
                             (a.problem == Warning || a.problem == Critical) &&
                             exists s :: s in st.states && Raises(st.name.value, s, a)
    ensures var r := StationAlarms(st);
            r.Success? ==> forall s :: s in st.states && (Flagged(s, Warning) || Flagged(s, Critical)) ==>
                             AlarmOf(st.name.value, s, s.problem.value) in r.value
  {
    if st.name.Some? {
      var name := st.name.value;
      AlarmsWithMeaning(name, st.states, Warning);
      AlarmsWithMeaning(name, st.states, Critical);
      if Ready(st) {
        var w := AlarmsWith(name, st.states, Warning).value;
        var c := AlarmsWith(name, st.states, Critical).value;
        assert StationAlarms(st).value == w + c;
        WarningsFirst(name, st.states, w, c);
        AlarmsComeFromStates(name, st.states, w, c);
        StatesRaiseAlarms(name, st.states, w, c);
      }
    }
  }

  /** `w` and `c` are the alarms the two inner loops write for a station. */
  predicate InnerLoops(name: string, states: seq<State>, w: seq<Alarm>, c: seq<Alarm>)
  {
    && |w| == |FlaggedStates(states, Warning)|
    && (forall i :: 0 <= i < |w| ==> FlaggedStates(states, Warning)[i].datetime.Some? &&
                                     w[i] == AlarmOf(name, FlaggedStates(states, Warning)[i], Warning))
    && |c| == |FlaggedStates(states, Critical)|
    && (forall i :: 0 <= i < |c| ==> FlaggedStates(states, Critical)[i].datetime.Some? &&
                                     c[i] == AlarmOf(name, FlaggedStates(states, Critical)[i], Critical))
  }

  lemma WarningsFirst(name: string, states: seq<State>, w: seq<Alarm>, c: seq<Alarm>)
    requires InnerLoops(name, states, w, c)
    ensures forall i, j :: 0 <= i < j < |w + c| && (w + c)[j].problem == Warning ==> (w + c)[i].problem == Warning
  {
    forall i | 0 <= i < |w + c|
      ensures (w + c)[i].problem == (if i < |w| then Warning else Critical)
    {
      if i >= |w| {
        assert (w + c)[i] == c[i - |w|];
      }
    }
  }

  lemma AlarmsComeFromStates(name: string, states: seq<State>, w: seq<Alarm>, c: seq<Alarm>)
    requires InnerLoops(name, states, w, c)
    ensures forall a :: a in w + c ==> (a.problem == Warning || a.problem == Critical) &&
                                       exists s :: s in states && Raises(name, s, a)
  {
    var fw := FlaggedStates(states, Warning);
    var fc := FlaggedStates(states, Critical);
    forall a | a in w + c
      ensures (a.problem == Warning || a.problem == Critical) && exists s :: s in states && Raises(name, s, a)
    {
      if a in w {
        var i :| 0 <= i < |w| && w[i] == a;
        assert fw[i] in fw;
        assert Raises(name, fw[i], a);
      } else {
        var i :| 0 <= i < |c| && c[i] == a;
        assert fc[i] in fc;
        assert Raises(name, fc[i], a);
      }
    }
  }

  lemma StatesRaiseAlarms(name: string, states: seq<State>, w: seq<Alarm>, c: seq<Alarm>)
    requires InnerLoops(name, states, w, c)
    ensures forall s :: s in states && (Flagged(s, Warning) || Flagged(s, Critical)) ==>
                          AlarmOf(name, s, s.problem.value) in w + c
  {
    var fw := FlaggedStates(states, Warning);
    var fc := FlaggedStates(states, Critical);
    forall s | s in states && (Flagged(s, Warning) || Flagged(s, Critical))
      ensures AlarmOf(name, s, s.problem.value) in w + c
    {
      if Flagged(s, Warning) {
        var i :| 0 <= i < |fw| && fw[i] == s;
        assert w[i] in w;
      } else {
        var i :| 0 <= i < |fc| && fc[i] == s;
        assert c[i] in c;
      }
    }
  }

  /** The whole `<ongoing>` section succeeds exactly when every station is
      ready, and then holds one alarm per flagged state: each alarm has a
      problem of '1' or '2', comes from a flagged state of its station, and
      every flagged state of every station raises its alarm. */
  lemma {:induction false} OngoingMeaning(stations: seq<StationStates>)
    ensures Ongoing(stations).Success? <==> forall st :: st in stations ==> Ready(st)
    ensures Ongoing(stations).Success? ==> |Ongoing(stations).value| == FlaggedCount(stations)
    ensures Ongoing(stations).Success? ==> forall a :: a in Ongoing(stations).value ==>
              (a.problem == Warning || a.problem == Critical) &&
              exists st, s :: st in stations && s in st.states && Some(a.station) == st.name && Raises(a.station, s, a)
    ensures Ongoing(stations).Success? ==>
              forall st, s :: st in stations && s in st.states && (Flagged(s, Warning) || Flagged(s, Critical)) ==>
                AlarmOf(st.name.value, s, s.problem.value) in Ongoing(stations).value
    decreases |stations|
  {
    if stations != [] {
      var prefix := stations[..|stations| - 1];
      var last := stations[|stations| - 1];
      assert forall st :: st in stations <==> st in prefix || st == last;
      OngoingMeaning(prefix);
      StationMeaning(last);
      if Ongoing(stations).Success? {
        var done := Ongoing(prefix).value;
        var more := StationAlarms(last).value;
        assert Ongoing(stations).value == done + more;
        forall a: Alarm | a in done + more
          ensures exists st, s :: st in stations && s in st.states && Some(a.station) == st.name && Raises(a.station, s, a)
        {
          if a in more {
            var s :| s in last.states && Raises(last.name.value, s, a);
            assert AlarmOf(last.name.value, s, s.problem.value).station == last.name.value;
          }
        }
      }
    }
  }

  /** An id built from dot-free station and datetime splits back into
      station, datetime and problem. */
  lemma AlarmIdSplits(station: string, datetime: string, problem: string)
    requires '.' !in station && '.' !in datetime && '.' !in problem
    ensures Split(AlarmId(station, datetime, problem), '.') == [station, datetime, problem]
  {
    var parts := [station, datetime, problem];
    assert parts[1..] == [datetime, problem] && parts[1..][1..] == [problem];
    assert Join([datetime, problem], '.') == datetime + "." + problem;
    assert Join(parts, '.') == station + "." + datetime + "." + problem;
    SplitJoin(parts, '.');
  }

  /** A rewritten ledger belongs to the requested server, carries the previous
      `completed` section as it was, and its ongoing alarms are those the
      states call for. */
  lemma RegenerateKeepsCompleted(server: string, port: string, statesFile: Option<seq<StationStates>>,
                                 ledgerFile: Option<Ledger>)
    ensures var r := Regenerate(server, port, statesFile, ledgerFile);
            r.Success? <==> statesFile.Some? && ledgerFile.Some? && forall st :: st in statesFile.value ==> Ready(st)
    ensures var r := Regenerate(server, port, statesFile, ledgerFile);
            r.Success? ==> && r.value.server == server && r.value.port == port
                           && r.value.completed == ledgerFile.value.completed
                           && |r.value.ongoing| == FlaggedCount(statesFile.value)
  {
    if statesFile.Some? {
      OngoingMeaning(statesFile.value);
    }
  }

  /** Nothing of the previous ledger but its `completed` section is read: its
      ongoing alarms are dropped, not merged. */
  lemma OnlyCompletedIsRead(server: string, port: string, statesFile: Option<seq<StationStates>>,
                            before: Ledger, other: Ledger)
    requires before.completed == other.completed
    ensures Regenerate(server, port, statesFile, Some(before)) == Regenerate(server, port, statesFile, Some(other))
  {
  }
}
