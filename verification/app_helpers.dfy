/** The pure helpers inside app.py's callbacks: the datetime shown in the
    alarm tables, the severity badges, and the reading of a channel name back
    into its network, station, location and channel. */
module AppHelpers {
  import opened Wrappers
  import opened Strings
  import Buffering
  import ServerConnection
  import Alarms

  /** The alarm tables' datetime: a stored token `DYYYYMMDDTHHMMSS` is shown
      as `YYYY-MM-DD HH:MM:SS`, by slicing at fixed positions (any string is
      accepted; Python slices clamp). */
  function DisplayDatetime(dt: string): string
  {
    Slice(dt, 1, 5) + "-" + Slice(dt, 5, 7) + "-" + Slice(dt, 7, 9) + " " +
      Slice(dt, 10, 12) + ":" + Slice(dt, 12, 14) + ":" + From(dt, 14)
  }

  /** A 16-character token is shown in 19 characters: the separators sit at
      fixed positions, characters 0 and 9 of the token are dropped and every
      other character keeps its order. */
  lemma DisplayDatetimeLayout(dt: string)
    requires |dt| == 16
    ensures var r := DisplayDatetime(dt);
            && |r| == 19
            && r[4] == '-' && r[7] == '-' && r[10] == ' ' && r[13] == ':' && r[16] == ':'
            && r[..4] == dt[1..5] && r[5..7] == dt[5..7] && r[8..10] == dt[7..9]
            && r[11..13] == dt[10..12] && r[14..16] == dt[12..14] && r[17..] == dt[14..]
  {
    var y, mo, d, h, mi, sec := dt[1..5], dt[5..7], dt[7..9], dt[10..12], dt[12..14], dt[14..];
    assert DisplayDatetime(dt) == y + "-" + mo + "-" + d + " " + h + ":" + mi + ":" + sec;
  }

  /** The token a displayed datetime came from. */
  function StorageToken(shown: string): string
  {
    "D" + Slice(shown, 0, 4) + Slice(shown, 5, 7) + Slice(shown, 8, 10) + "T" +
      Slice(shown, 11, 13) + Slice(shown, 14, 16) + Slice(shown, 17, 19)
  }

  /** Only the two marker letters are dropped: a well-formed token is
      recovered from what is shown. */
  lemma DisplayDatetimeRoundTrip(dt: string)
    requires |dt| == 16 && dt[0] == 'D' && dt[9] == 'T'
    ensures StorageToken(DisplayDatetime(dt)) == dt
  {
    DisplayDatetimeLayout(dt);
    var r := DisplayDatetime(dt);
    assert StorageToken(r) == [dt[0]] + dt[1..5] + dt[5..7] + dt[7..9] + [dt[9]] + dt[10..12] + dt[12..14] + dt[14..16];
    assert dt == [dt[0]] + dt[1..5] + dt[5..7] + dt[7..9] + [dt[9]] + dt[10..12] + dt[12..14] + dt[14..16];
  }

  /** A `dbc.Badge`: its text and its colour. */
  datatype Badge = Badge(text: string, color: string)

  /** The health table's badge for a state's problem level. */
  function HealthBadge(level: int): (b: Badge)
    ensures b.text == "OK" <==> level == 0
    ensures b.text == "Warning" <==> level == 1
    ensures b.text == "Critic" <==> level != 0 && level != 1
    ensures b.color == "success" <==> level == 0
    ensures b.color == "warning" <==> level == 1
    ensures b.color == "danger" <==> level != 0 && level != 1
  {
    if level == 0 then Badge("OK", "success")
    else if level == 1 then Badge("Warning", "warning")
    else Badge("Critic", "danger")
  }

  /** The alarm tables' badge for an alarm's problem level. */
  function AlarmBadge(level: int): (b: Badge)
    ensures b.text == "Warning" <==> level == 1
    ensures b.text == "Critic" <==> level != 1
    ensures b.color == "warning" <==> level == 1
    ensures b.color == "danger" <==> level != 1
  {
    if level == 1 then Badge("Warning", "warning") else Badge("Critic", "danger")
  }

  /** `int(s)` for a string of decimal digits; None stands for the
      `ValueError` of anything else (signs, blanks and underscores, which
      Python also accepts, are not part of this model). */
  function ParseLevel(s: string): (r: Option<int>)
    ensures r.Some? ==> r.value >= 0
    decreases |s|
  {
    if s == [] || exists i :: 0 <= i < |s| && !('0' <= s[i] <= '9') then None
    else if |s| == 1 then Some(s[0] as int - '0' as int)
    else
      var prefix := ParseLevel(s[..|s| - 1]);
      assert forall i :: 0 <= i < |s| - 1 ==> s[..|s| - 1][i] == s[i];
      Some(prefix.value * 10 + (s[|s| - 1] as int - '0' as int))
  }

  /** An alarm of a regenerated ledger shows the same badge in the alarm
      table as its state does in the health table: Warning for '1', Critic
      for '2'. */
  lemma LedgerBadgesAgree(server: string, port: string, statesFile: Option<seq<Alarms.StationStates>>,
                          ledgerFile: Option<Alarms.Ledger>, a: Alarms.Alarm)
    requires Alarms.Regenerate(server, port, statesFile, ledgerFile).Success?
    requires a in Alarms.Regenerate(server, port, statesFile, ledgerFile).value.ongoing
    ensures ParseLevel(a.problem).Some?
    ensures AlarmBadge(ParseLevel(a.problem).value) == HealthBadge(ParseLevel(a.problem).value)
    ensures AlarmBadge(ParseLevel(a.problem).value).text == (if a.problem == Alarms.Warning then "Warning" else "Critic")
  {
    Alarms.OngoingMeaning(statesFile.value);
    assert a.problem == "1" || a.problem == "2";
  }

  /** The two badges part only at level 0: an alarm whose problem were 0
      would be shown as critical. */
  lemma BadgesDifferOnlyAtZero(level: int)
    ensures AlarmBadge(level) == HealthBadge(level) <==> level != 0
  {
  }

  /** `station.split('.')` read as network, station, location and channel:
      three parts give an empty location; four or more give parts 0 to 3;
      fewer than three raise `IndexError` (None). */
  function SplitChannelName(name: string): (r: Option<(string, string, string, string)>)
    ensures r.Some? <==> |Split(name, '.')| >= 3
    ensures |Split(name, '.')| == 3 ==> r.Some? && r.value.2 == ""
  {
    var parts := Split(name, '.');
    if |parts| == 3 then Some((parts[0], parts[1], "", parts[2]))
    else if |parts| >= 4 then Some((parts[0], parts[1], parts[2], parts[3]))
    else None
  }

  /** The drop-down's full names read back into their fields. */
  lemma SplitFullName(net: string, sta: string, loc: string, cha: string)
    requires '.' !in net && '.' !in sta && '.' !in loc && '.' !in cha
    ensures SplitChannelName(ServerConnection.FullName(net, sta, loc, cha)) == Some((net, sta, loc, cha))
  {
    ServerConnection.FullNameSplits(net, sta, loc, cha);
  }

  /** The buffer keys of the SeedLink clients, `NET.STA..CHA` included, read
      back into the same fields. */
  lemma SplitChannelKey(net: string, sta: string, loc: string, cha: string)
    requires '.' !in net && '.' !in sta && '.' !in loc && '.' !in cha
    ensures SplitChannelName(Buffering.ChannelKey(net, sta, loc, cha)) == Some((net, sta, loc, cha))
  {
    Buffering.ChannelKeySplits(net, sta, loc, cha);
  }
}
