# MONA core, modelled in Dafny

MONA is a seismic-network monitoring dashboard. Two SeedLink clients
(`MonaSeedLinkClient` in mona_sl_client.py and `EasySLC` in retrieve_data.py)
read a subscription file `streams.data`. Its first line is the server
`host[:port]`; each further line is a channel `NET.STA.LOC.CHA`. The clients
subscribe to those channels and keep one rolling sample buffer per channel.
The dashboard (app.py) connects to a server and lists its channels from an XML
configuration (connection.py). It draws one time graph per selected channel and
shows health states and alarms. `create_alarm_from_HAT` (alarms.py) rebuilds the
alarm ledger from the health states.

The model has one Dafny module per part:

- `Strings` (strings.dfy): Python's `str.split`, `join` and clamping slices.
- `Buffering` (buffering.dfy): the pure core of `on_data`. It covers staleness,
  the channel key and the halving trim, with Python's half-to-even `round`.
- `SeedLink` (seedlink.dfy): the server line, channel lines as SeedLink
  selectors, packets, and the connection object the clients fill.
- `MonaClient` (mona_client.dfy) and `RetrieveClient` (retrieve_client.dfy): the
  two supervisors. Each is a class that updates its fields and replaces its
  connection in place. Each method is proved equal to a pure step function on a
  `Session`/`Client` value, and the lemmas are stated on those functions.
- `ServerConnection` (server_connection.dfy): `create_client`, and
  `connection_client`'s nested loops over an abstract element tree. These append
  to the caller's two lists, held in a class.
- `Alarms` (alarms.dfy): ledger regeneration. A loop method is proved equal to a
  function, and the lemmas are stated on that function.
- `AppHelpers` (app_helpers.dfy) and `AppGraphs` (app_graphs.dfy): the pure
  helpers of the dashboard callbacks, and the three parallel time-graph lists
  of `render_content_top`.

Clocks, files and the network are parameters:

- "now" is an integer number of seconds.
- A buffer file is an entry of a `map`.
- A file that may be missing is an `Option`.
- The packets `collect()` returns are an input sequence.
- An exception that escapes is a `None`/`Failure` result or a `Crashed` outcome.

Two behaviours of the code are easy to misread; the model follows the code:

- The trim keeps `|round(-n/2)|` samples with half-to-even rounding. A one-sample buffer is kept whole, because `data[-0:]` is the whole
  buffer.
- The capacity test comes before the append, so a buffer can grow past the
  capacity by one batch. `Buffering.StaysBounded` gives the bound that holds.

## Model

| member | source | states |
|---|---|---|
| Strings.Split | mona_sl_client.py:113 | `str.split` always yields at least one part, and no part holds the separator |
| Strings.SplitSingle | mona_sl_client.py:113-114 | the split has exactly one part iff the separator does not occur |
| Strings.SplitJoin | connection.py:72 | joining separator-free parts and splitting again gives the parts back |
| Strings.JoinSplit | connection.py:72 | splitting and joining again gives the string back |
| Strings.Slice | app.py:488-490 | the clamped slice `s[i:j]` is `s[i..j]` when in range and empty past the end |
| Strings.From | mona_sl_client.py:90 | `s[i:]` for a negative i is the last -i elements; the result is always a suffix |
| Buffering.ChannelKeyIsJoin | mona_sl_client.py:78-81 | both branches of the location test give the dot-join of the four fields, so an empty location gives `NET.STA..CHA` |
| Buffering.ChannelKeySplits | retrieve_data.py:51-54 | a key of dot-free fields splits back into those four fields, the empty location included |
| Buffering.RoundHalf | mona_sl_client.py:90 | `round(m/2)` is m/2 for even m; for odd m it is the even neighbour of m/2 |
| Buffering.KeptAfterTrim | mona_sl_client.py:90 | the trim keeps at most n samples, all of a buffer of at most one sample, exactly half of an even n, and the even one of (n±1)/2 for an odd n |
| Buffering.UpdateBuffer | mona_sl_client.py:85-92 | no stored buffer gives the batch; n ≤ capacity gives old ++ batch; otherwise the last KeptAfterTrim(n) old samples ++ batch; the batch always ends the result |
| Buffering.StaysBounded | mona_sl_client.py:87-90 | batches smaller than the capacity keep a buffer within capacity + largest batch |
| Buffering.Ingest | mona_sl_client.py:70-100 | a missing trace or a stale one (older than 300 s) changes no buffer; a fresh one rewrites only its channel's buffer, as UpdateBuffer says |
| SeedLink.HostAndPort | connection.py:32-37 | the host is the part before the first ':' and holds none; there is a port iff the line holds a ':' |
| SeedLink.HostAndPortRoundTrip | mona_sl_client.py:113-119 | `host:port` gives back host and port |
| SeedLink.HostAndPortIgnoresRest | connection.py:32-35 | parts after a second ':' are ignored |
| SeedLink.ParseServerLine | mona_sl_client.py:113-119 | the default port is chosen iff the line has no ':' |
| SeedLink.GivenPortBreaksAddress | mona_sl_client.py:118-121 | a server line naming a port makes `'%s:%d'` fail, while the intended address reproduces the line |
| SeedLink.SlAddressRoundTrip | mona_sl_client.py:120-121 | the intended address parses back to the same host and port |
| SeedLink.ChannelKeySelects | mona_sl_client.py:123-128 | a buffer key read as a channel line selects (NET, STA, LOC+CHA) |
| SeedLink.SelectorsOf | mona_sl_client.py:123-128 | all channel lines parse iff each has at least four parts; the selectors match the lines one to one, in order |
| SeedLink.SeedLinkConnection.AddStream | mona_sl_client.py:128 | in this model, a selection is one selector appended to the connection's list of streams |
| MonaClient.Reconnect | mona_sl_client.py:209-231 | recovery keeps the selection, the remembered lines and the server, re-addresses the connection and keeps the supervisor consistent |
| MonaClient.ReconnectIdempotent | mona_sl_client.py:185-191 | recovering twice is recovering once, so the retrieval loop that repeats it stays in one state |
| MonaClient.Rebuild | mona_sl_client.py:108-130 | with the corrected address: a rebuild succeeds iff the file has a first line and every channel line has at least four parts; `self.streams` becomes the lines, and server and selection come from them |
| MonaClient.RebuildAsWritten | mona_sl_client.py:108-130 | the rebuild as written succeeds iff the file has a first line without ':' and every channel line has at least four parts, and then agrees with Rebuild |
| MonaClient.GivenPortStopsRebuild | mona_sl_client.py:113-121 | a server line naming a port, followed by valid channel lines, makes the rebuild as written fail and the corrected one succeed |
| MonaClient.AfterPacket | mona_sl_client.py:143-164 | only a data packet without a trace fails; no packet changes the selection or the server; info and data packets leave the session alone |
| MonaClient.AfterPoll | mona_sl_client.py:104-164 | a missing file changes nothing; identical lines lead straight to packet handling; afterwards `self.streams` equals the lines read; consistency is kept |
| MonaClient.LiveRunKeepsConsistent | mona_sl_client.py:104-164 | every run of the live loop keeps connection, selection and `self.streams` in agreement |
| MonaClient.RereadChangesNothing | mona_sl_client.py:108 | reading the same lines again with an info packet leaves the client unchanged |
| MonaClient.AfterDrain | mona_sl_client.py:183-206 | the drain finishes, diverges or crashes; only a divergence changes the session, by one recovery |
| MonaClient.AfterRetrieval | mona_sl_client.py:165-206 | the outcome is NotRequested iff a bound is missing, StreamFileMissing iff the file is; the selection grows by the file's channels; a finished run has the window set |
| MonaClient.MonaSeedLinkClient.constructor | mona_sl_client.py:57-65 | a fresh connection with timeout 30, empty `self.streams`, consistent state |
| MonaClient.MonaSeedLinkClient.OnData | mona_sl_client.py:70-100 | the buffers and the outcome are those of Ingest |
| MonaClient.MonaSeedLinkClient.OnTerminate | mona_sl_client.py:209-217 | a new connection whose state is Reconnect of the old one |
| MonaClient.MonaSeedLinkClient.OnSeedLinkError | mona_sl_client.py:223-231 | a new connection whose state is Reconnect of the old one |
| MonaClient.MonaSeedLinkClient.SelectChannels | mona_sl_client.py:123-128 | the loop selects every channel line in order, or stops at a malformed one |
| MonaClient.MonaSeedLinkClient.Resubscribe | mona_sl_client.py:108-130 | the new state is Rebuild of the lines |
| MonaClient.MonaSeedLinkClient.HandlePacket | mona_sl_client.py:145-164 | the new state is AfterPacket; info and data packets keep the connection object |
| MonaClient.MonaSeedLinkClient.PollOnce | mona_sl_client.py:104-164 | a rebuild happens iff the file is there and differs from `self.streams`; the new state is AfterPoll |
| MonaClient.MonaSeedLinkClient.RunLive | mona_sl_client.py:103-164 | the live loop ends in the state AfterLiveRun describes |
| MonaClient.MonaSeedLinkClient.RunRetrieval | mona_sl_client.py:165-206 | the retrieval branch ends as AfterRetrieval describes |
| MonaClient.MonaSeedLinkClient.Drain | mona_sl_client.py:183-206 | the drain loop ends as AfterDrain describes |
| RetrieveClient.Reconnect | retrieve_data.py:176-184 | `on_terminate` keeps the selection, `self.streams` and the constructor's server, and keeps the supervisor consistent |
| RetrieveClient.ErrorReconnect | retrieve_data.py:190-198 | `on_seedlink_error` also keeps the selection and server, and `self.streams` becomes the copied selection |
| RetrieveClient.ErrorForcesRebuild | retrieve_data.py:81-198 | after an error with a non-empty selection, no file content compares equal to `self.streams` |
| RetrieveClient.Rebuild | retrieve_data.py:81-96 | a rebuild succeeds iff every channel line has at least four parts; the server stays the constructor's; `self.streams` becomes the lines |
| RetrieveClient.AfterPacket | retrieve_data.py:109-130 | only a data packet without a trace fails; selection and server never change; only an error changes `self.streams` |
| RetrieveClient.AfterPoll | retrieve_data.py:77-130 | a missing file changes nothing; lines equal to `self.streams` lead straight to packet handling; the server never changes |
| RetrieveClient.LiveRunKeepsServer | retrieve_data.py:76-130 | every run of the live loop keeps the constructor's server and keeps the connection in line with `self.streams` |
| RetrieveClient.AfterDrain | retrieve_data.py:147-173 | the drain finishes, diverges or crashes; the selection never changes |
| RetrieveClient.AfterRetrieval | retrieve_data.py:131-173 | NotRequested iff a bound is missing, StreamFileMissing iff the file is; the selection grows by the file's channels; a finished run has the window set |
| RetrieveClient.EasySLC.constructor | retrieve_data.py:22-38 | a connection with timeout 30 addressed to the given server, empty `self.streams` |
| RetrieveClient.EasySLC.OnData | retrieve_data.py:43-72 | the buffers and outcome are those of Ingest with the fixed threshold 4500 |
| RetrieveClient.EasySLC.OnTerminate | retrieve_data.py:176-184 | the new state is Reconnect of the old one |
| RetrieveClient.EasySLC.OnSeedLinkError | retrieve_data.py:190-198 | the new state is ErrorReconnect of the old one |
| RetrieveClient.EasySLC.SelectChannels | retrieve_data.py:89-94 | the loop selects every channel line in order, or stops at a malformed one |
| RetrieveClient.EasySLC.Resubscribe | retrieve_data.py:81-96 | the new state is Rebuild of the old one with the lines; the server is untouched |
| RetrieveClient.EasySLC.HandlePacket | retrieve_data.py:111-130 | the new state is AfterPacket |
| RetrieveClient.EasySLC.PollOnce | retrieve_data.py:77-130 | a rebuild happens iff the file is there and differs from `self.streams` under Python's list equality; the new state is AfterPoll |
| RetrieveClient.EasySLC.RunLive | retrieve_data.py:76-130 | the live loop ends in the state AfterLiveRun describes |
| RetrieveClient.EasySLC.RunRetrieval | retrieve_data.py:131-173 | the retrieval branch ends as AfterRetrieval describes |
| RetrieveClient.EasySLC.Drain | retrieve_data.py:147-173 | the drain loop ends as AfterDrain describes |
| RetrieveClient.PortArgument | retrieve_data.py:232-233 | no port option gives '18000'; a given port is kept |
| RetrieveClient.ServerUrlRoundTrip | retrieve_data.py:248 | the URL built from the arguments splits back into server and chosen port |
| ServerConnection.CreateClient | connection.py:30-46 | the host holds no ':'; a line without ':' gets port '18000' |
| ServerConnection.CreateClientRoundTrip | connection.py:32-37 | "h:p" gives (h, p) even with further parts; "h" gives (h, '18000') |
| ServerConnection.SelectMatches | connection.py:58-63 | a `findall` step keeps exactly the children with the tag and, when asked, the name |
| ServerConnection.FullNameIsJoin | connection.py:64-72 | the full name is the dot-join of net, sta and name, with the location between them only when it is not empty |
| ServerConnection.FullNameSplits | connection.py:64-72 | a full name of dot-free parts splits back into three or four parts |
| ServerConnection.WalkChannels | connection.py:61-74 | the channel loop runs to its end iff every channel has `location` and `name`, and then gives one full name per channel, in order |
| ServerConnection.WellFormedCompletes | connection.py:55-74 | a configuration whose elements carry their attributes is walked without a `KeyError` |
| ServerConnection.AsOptionsEntries | connection.py:74 | each drop-down entry has label and value equal to its full name |
| ServerConnection.AsOptionsAppend | connection.py:73-74 | appending names one by one appends their entries |
| ServerConnection.NetworkLists.AppendChannels | connection.py:61-74 | the channel loop appends the walk's names to the values and their entries to the options |
| ServerConnection.NetworkLists.AppendStations | connection.py:58-74 | the station loop appends the walk's names to both lists |
| ServerConnection.NetworkLists.AppendNetwork | connection.py:56-74 | one network appends its walk's names to both lists |
| ServerConnection.ConnectionClient | connection.py:49-82 | a missing file returns -1 and appends nothing; otherwise 1 iff the walk completes, else a `KeyError`; both lists grow by the walk's names in document order; -2 is never returned |
| Alarms.FlaggedStates | alarms.py:27-40 | the states kept by `find_all('state', {'problem': p})` are exactly those with problem p |
| Alarms.AlarmOf | alarms.py:28-36 | the alarm's id is station.datetime.problem, its state is the state's name, its detail the value, with datetime and problem copied |
| Alarms.AlarmsWithMeaning | alarms.py:27-37 | the inner loop succeeds iff every flagged state has a datetime, and then writes one alarm per flagged state, in order |
| Alarms.AddAlarms | alarms.py:27-50 | the loop appends exactly the alarms AlarmsWith describes |
| Alarms.CreateAlarmFromHat | alarms.py:4-58 | the ledger written back is Regenerate of the two files |
| Alarms.StationMeaning | alarms.py:25-50 | a station succeeds iff it is named and its flagged states have datetimes; it then has as many alarms as flagged states, its warnings before its criticals, each alarm raised by one of its states and every flagged state covered |
| Alarms.OngoingMeaning | alarms.py:22-52 | the ongoing section has one alarm per state flagged '1' or '2', each with such a problem and from its station's state, and every flagged state is covered |
| Alarms.AlarmIdSplits | alarms.py:32-45 | an id of a dot-free station and datetime splits back into station, datetime and problem |
| Alarms.RegenerateKeepsCompleted | alarms.py:20-54 | a rewritten ledger has the requested server and port, the previous `completed` section unchanged, and as many ongoing alarms as flagged states |
| Alarms.OnlyCompletedIsRead | alarms.py:20-54 | the old ledger matters only through its `completed` section, so the previous ongoing alarms are dropped, not merged |
| AppHelpers.DisplayDatetimeLayout | app.py:443-445 | a 16-character token is shown in 19 characters with fixed separators, digits in order |
| AppHelpers.DisplayDatetimeRoundTrip | app.py:488-490 | only the 'D' and 'T' markers are dropped: the token is recovered from what is shown |
| AppHelpers.HealthBadge | app.py:240-248 | level 0 gives "OK" in success colour, 1 "Warning" in warning colour, anything else "Critic" in danger colour, each text and colour iff its level |
| AppHelpers.AlarmBadge | app.py:435-440 | level 1 gives "Warning" in warning colour, anything else "Critic" in danger colour, each text and colour iff its level |
| AppHelpers.LedgerBadgesAgree | app.py:435-440 | every regenerated alarm parses as 1 or 2 and gets the same badge as its state in the health table |
| AppHelpers.BadgesDifferOnlyAtZero | app.py:240-248 | the two badge mappings differ exactly at level 0 |
| AppHelpers.SplitChannelName | app.py:305-315 | the split succeeds iff the name has at least three parts; three parts give an empty location |
| AppHelpers.SplitFullName | app.py:339-349 | a drop-down full name reads back into its network, station, location and channel |
| AppHelpers.SplitChannelKey | app.py:305-315 | a buffer key, `NET.STA..CHA` included, reads back into the same fields |
| AppGraphs.EnumeratePruneSkips | app.py:296-300 | with nothing selected, the loop as written turns [A, B] into [B] |
| AppGraphs.EnumeratePruneDrops | app.py:296-300 | the loop as written only drops entries: every remaining one was there |
| AppGraphs.SelectedMembers | app.py:296-300 | the intended pruning keeps exactly the entries still selected |
| AppGraphs.SelectedKeepsNoDup | app.py:296-300 | the intended pruning shows no channel twice if none was |
| AppGraphs.SelectedKeepsLabelled | app.py:296-300 | the intended pruning keeps every graph and figure with its channel |
| AppGraphs.StepMeaning | app.py:303-358 | one pass shows the station, adds nothing else, and keeps names distinct and entries labelled |
| AppGraphs.AfterSelectionMeaning | app.py:303-358 | the loop succeeds iff every selected name has three or more parts; it shows the old names plus the selection |
| AppGraphs.AfterSelectionKeepsShape | app.py:303-358 | the loop over the selection keeps names distinct and every graph and figure with its channel |
| AppGraphs.RenderTopShowsSelection | app.py:290-358 | with the corrected pruning: after a render the shown channels are exactly the selected ones, none twice, each graph and figure with its channel |
| AppGraphs.TimeGraphs.PopAt | app.py:298-300 | `pop(i)` removes entry i from all three lists together |
| AppGraphs.TimeGraphs.PruneAsWritten | app.py:296-300 | the enumerate-and-pop loop ends with EnumeratePrune of the old entries |
| AppGraphs.TimeGraphs.Prune | app.py:296-300 | the corrected loop ends with exactly the selected entries, in order |
| AppGraphs.TimeGraphs.ShowStation | app.py:303-358 | one pass appends a new channel to all three lists or refreshes a shown one |
| AppGraphs.RenderTopAsWrittenShows | app.py:290-358 | the render as written fails exactly when the corrected one does; every selected channel is shown, every shown channel was shown before or is selected, and graphs and figures stay with their channels |
| AppGraphs.TimeGraphs.ShowAll | app.py:303-358 | the loop over the selection ends as AfterSelection describes |
| AppGraphs.TimeGraphs.RenderTop | app.py:290-358 | with the corrected pruning, the three lists end as RenderTopSpec describes; no selection clears them |
| AppGraphs.TimeGraphs.RenderTopAsWritten | app.py:290-358 | with the enumerate-and-pop pruning, the three lists end as RenderTopAsWrittenSpec describes; no selection clears them |

## Left out

- Resampling, detrending and the sample values themselves. These are
  floating-point signal processing inside obspy; a sample is an opaque value.
- pandas/feather reads and writes and `pd.to_datetime`. A buffer file is an
  entry of a map from channel key to a sample sequence.
- The SeedLink socket, `collect`, `select_stream` internals, `get_waveforms`
  and the obspy client constructors, including the constructor's parsing of
  the server URL. Packets are an input sequence. A server is given as an
  already parsed host and port.
- `time.sleep`, the `__main__` retry loops, `SLThread` and threading.
- XML and HTML parsing, pretty printing and escaping. Documents are
  datatypes, so a name with a quote that would break the XPath query, or a
  value that would break the ledger's XML, is not modelled.
- All Dash/plotly layout, the map, Grafana, uploads, and state_health.py
  (an Oracle query). The constants of config.py and assets/style.py are also
  left out.
- The `capacity` of `MonaSeedLinkClient` is a parameter, because
  `SAMPLING_RATE` and `QUEUE_DURATION` are not defined in config.py.
- The private `__streaming_started` flag, `EasySLC`'s `connected` value and
  its network list fetch (utils.py is not part of this model).
- The call at app.py:172. It passes four arguments to the five-parameter
  `connection_client`, which raises a `TypeError`. The model describes
  `connection_client` itself.
- ServerConnection.CreateClient: `ServerSeisComP3` converts the port with
  `int(port)` (connection.py:18), which raises `ValueError` for a port such as
  `abc`; `create_client("h:abc")` therefore raises, while the model returns
  `("h", "abc")`. The obspy client behind it is not modelled.
- MonaClient.Rebuild: uses the corrected `SeedLink.SlAddress`. The source
  raises `TypeError` at mona_sl_client.py:120 whenever the server line names a
  port; `MonaClient.RebuildAsWritten` is that behaviour.
- MonaClient.AfterPoll: goes through `MonaClient.Rebuild`, so a changed file
  whose server line names a port succeeds here but raises in the source.
- MonaClient.LiveRunKeepsConsistent: an invariant of the supervisor with the
  corrected address; in the source a changed file whose server line names a
  port ends the live loop with `TypeError`.
- MonaClient.MonaSeedLinkClient.Resubscribe: its new state is
  `MonaClient.Rebuild`, with the corrected address.
- MonaClient.MonaSeedLinkClient.PollOnce: its new state is
  `MonaClient.AfterPoll`, with the corrected address.
- MonaClient.MonaSeedLinkClient.RunLive: ends as `MonaClient.AfterLiveRun`,
  with the corrected address.
- AppGraphs.RenderTopShowsSelection: holds of the corrected pruning. With the
  loop as written, shown [A, B] and selection [C] keep B;
  `AppGraphs.RenderTopAsWrittenShows` states what holds of that.
- AppGraphs.TimeGraphs.RenderTop: calls the corrected `Prune`;
  `AppGraphs.TimeGraphs.RenderTopAsWritten` calls the loop of app.py:296-300.
- `int()` on strings with signs, blanks or underscores. `ParseLevel` reads
  decimal digits only.
- RetrieveClient.AfterDrain: states only that the selection is kept and that
  the session is unchanged unless the run diverges; after a divergence the
  session is that of one recovery, which the function's body shows but its
  contract does not state.
- AppGraphs.TimeGraphs.ShowStation: a figure object and its graph are one
  shared object in app.py. They are modelled as two values updated together,
  so aliasing beyond that pair is not captured.
- The outcome of a crash: when an exception escapes, the state it leaves
  behind is not described.
- Several defects are modelled as they are written:
  - `on_data(None)` reaches `tr.stats` and raises, giving the outcome
    `TraceMissing`.
  - The retrieval loops `continue` without a new `collect()`, so the same
    signal is handled forever. This is the outcome `Diverged`, and the state
    stays that of one recovery.
  - A config without a `name` or `location` attribute raises `KeyError`, so
    the -2 branch of `connection_client` cannot be reached.
  - A missing `completed` section is carried as None; the source writes the
    text "None".

## Findings

| source | as written | input that shows it | evidently intended | confidence | as-written member | corrected member |
|---|---|---|---|---|---|---|
| mona_sl_client.py:118-121 | the port from the server line stays a string and is formatted with `%d` | server line `host:18000` | address `host:18000` | high, not executed | SeedLink.GivenPortBreaksAddress | SeedLink.SlAddressRoundTrip |
| app.py:296-300 | `pop(i)` inside `enumerate` skips the entry after each popped one | names [A, B] with nothing selected | both entries pruned | high, not executed | AppGraphs.EnumeratePruneSkips | AppGraphs.SelectedMembers |

The supervisors use the corrected address `SeedLink.SlAddress`;
`MonaClient.RebuildAsWritten` keeps the source's rebuild. `AppGraphs.TimeGraphs.RenderTop`
uses the corrected `AppGraphs.TimeGraphs.Prune`; `AppGraphs.TimeGraphs.RenderTopAsWritten`
keeps the source's pruning.
