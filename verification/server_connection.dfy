/** connection.py: `create_client`, which reads `host[:port]`, and
    `connection_client`, which walks a server's network/station/channel
    configuration tree and appends every full channel name to the caller's two
    parallel lists. */
module ServerConnection {
  import opened Wrappers
  import opened Strings
  import opened SeedLink

  /** `create_client`: the host is the part before the first ':', the port the
      part after it up to a possible second ':', and '18000' when there is no
      ':'. (`str.split` always yields a first part, so the `None` return for a
      malformed IP cannot be reached; the obspy client construction and its
      `int(port)` are not part of this model.) */
  function CreateClient(serverInfo: string): (r: (string, string))
    ensures ':' !in r.0
    ensures r.1 == DefaultPortText <== ':' !in serverInfo
  {
    var (host, port) := HostAndPort(serverInfo);
    (host, if port.Some? then port.value else DefaultPortText)
  }

  /** "h:p" gives back h and p; anything after a second ':' is ignored; "h"
      alone gives h and the default port. */
  lemma CreateClientRoundTrip(host: string, port: string, rest: string)
    requires ':' !in host && ':' !in port
    ensures CreateClient(host + ":" + port) == (host, port)
    ensures CreateClient(host + ":" + port + ":" + rest) == (host, port)
    ensures CreateClient(host) == (host, DefaultPortText)
  {
    HostAndPortRoundTrip(host, port);
    HostAndPortIgnoresRest(host, port, rest);
    SplitNoSeparator(host, ':');
  }

  /** An element of the configuration document: its tag, its attributes and
      its children in document order. */
  datatype Element = Element(tag: string, attrs: map<string, string>, children: seq<Element>)

  /** The elements of `es` with the given tag and, when a name is given, whose
      `name` attribute is that name: one step `tag[@name='...']` of `findall`. */
  function Select(es: seq<Element>, tag: string, name: Option<string>): (r: seq<Element>)
    ensures |r| <= |es|
    decreases |es|
  {
    if es == [] then []
    else
      var last := es[|es| - 1];
      var keep := last.tag == tag && (name.None? || ("name" in last.attrs && last.attrs["name"] == name.value));
      Select(es[..|es| - 1], tag, name) + (if keep then [last] else [])
  }

  /** `Select` keeps exactly the elements of `es` that match the step. */
  lemma {:induction false} SelectMatches(es: seq<Element>, tag: string, name: Option<string>)
    ensures forall e :: e in Select(es, tag, name) <==>
              e in es && e.tag == tag && (name.None? || ("name" in e.attrs && e.attrs["name"] == name.value))
    decreases |es|
  {
    if es != [] {
      SelectMatches(es[..|es| - 1], tag, name);
      assert es == es[..|es| - 1] + [es[|es| - 1]];
    }
  }

  /** The same step applied below each of `parents`, results in document order. */
  function Below(parents: seq<Element>, tag: string, name: Option<string>): seq<Element>
    decreases |parents|
  {
    if parents == [] then []
    else Below(parents[..|parents| - 1], tag, name) + Select(parents[|parents| - 1].children, tag, name)
  }

  /** `./network[@name='N']/station`. */
  function StationsOf(root: Element, network: string): seq<Element>
  {
    Below(Select(root.children, "network", Some(network)), "station", None)
  }

  /** `./network[@name='N']/station[@name='S']/channel`. */
  function ChannelsOf(root: Element, network: string, station: string): seq<Element>
  {
    Below(Below(Select(root.children, "network", Some(network)), "station", Some(station)), "channel", None)
  }

  /** The full name of a channel: the location joins the channel name only
      when it is not empty. */
  function FullName(net: string, sta: string, loc: string, name: string): string
  {
    net + "." + sta + "." + (if loc == "" then name else loc + "." + name)
  }

  /** The full name is the dot-join of three parts for an empty location and
      of four otherwise. */
  lemma FullNameIsJoin(net: string, sta: string, loc: string, name: string)
    ensures loc == "" ==> FullName(net, sta, loc, name) == Join([net, sta, name], '.')
    ensures loc != "" ==> FullName(net, sta, loc, name) == Join([net, sta, loc, name], '.')
  {
    var three := [net, sta, name];
    assert three[1..] == [sta, name] && three[1..][1..] == [name];
    assert Join([sta, name], '.') == sta + "." + name;
    assert Join(three, '.') == net + "." + sta + "." + name;
    var four := [net, sta, loc, name];
    assert four[1..] == [sta, loc, name] && four[1..][1..] == [loc, name] && four[1..][1..][1..] == [name];
    assert Join([loc, name], '.') == loc + "." + name;
    assert Join([sta, loc, name], '.') == sta + "." + (loc + "." + name);
    assert Join(four, '.') == net + "." + sta + "." + (loc + "." + name);
  }

  /** With dot-free parts the full name splits back into its parts. */
  lemma FullNameSplits(net: string, sta: string, loc: string, name: string)
    requires '.' !in net && '.' !in sta && '.' !in loc && '.' !in name
    ensures loc == "" ==> Split(FullName(net, sta, loc, name), '.') == [net, sta, name]
    ensures loc != "" ==> Split(FullName(net, sta, loc, name), '.') == [net, sta, loc, name]
  {
    FullNameIsJoin(net, sta, loc, name);
    if loc == "" {
      SplitJoin([net, sta, name], '.');
    } else {
      SplitJoin([net, sta, loc, name], '.');
    }
  }

  /** The names appended so far, and whether the walk got to its end (false: a
      `KeyError` on a missing attribute stopped it). */
  datatype Walked = Walked(names: seq<string>, complete: bool)

  /** Walking `a` and then, if `a` finished, `b`. */
  function Then(a: Walked, b: Walked): Walked
  {
    if a.complete then Walked(a.names + b.names, b.complete) else a
  }

  /** The name of one channel, or None when `location` or `name` is missing. */
  function ChannelName(ch: Element, net: string, sta: string): Option<string>
  {
    if "location" in ch.attrs && "name" in ch.attrs
    then Some(FullName(net, sta, ch.attrs["location"], ch.attrs["name"]))
    else None
  }

  /** The innermost loop over the channels of one station. */
  function WalkChannels(chs: seq<Element>, net: string, sta: string): (r: Walked)
    ensures |r.names| <= |chs|
    ensures r.complete <==> forall i :: 0 <= i < |chs| ==> ChannelName(chs[i], net, sta).Some?
    ensures r.complete ==> |r.names| == |chs|
    ensures r.complete ==> forall i :: 0 <= i < |chs| ==> ChannelName(chs[i], net, sta) == Some(r.names[i])
    decreases |chs|
  {
    if chs == [] then Walked([], true)
    else
      var prefix := chs[..|chs| - 1];
      assert forall i :: 0 <= i < |prefix| ==> prefix[i] == chs[i];
      match ChannelName(chs[|chs| - 1], net, sta)
      case None => Then(WalkChannels(prefix, net, sta), Walked([], false))
      case Some(n) => Then(WalkChannels(prefix, net, sta), Walked([n], true))
  }

  /** One station: its name, then its channels looked up by name. */
  function WalkStation(root: Element, net: string, st: Element): Walked
  {
    if "name" in st.attrs then WalkChannels(ChannelsOf(root, net, st.attrs["name"]), net, st.attrs["name"])
    else Walked([], false)
  }

  /** The middle loop over the stations of one network. */
  function WalkStations(root: Element, net: string, sts: seq<Element>): Walked
    decreases |sts|
  {
    if sts == [] then Walked([], true)
    else Then(WalkStations(root, net, sts[..|sts| - 1]), WalkStation(root, net, sts[|sts| - 1]))
  }

  /** One child of the root: its name, then the stations looked up by name. */
  function WalkNetwork(root: Element, nw: Element): Walked
  {
    if "name" in nw.attrs then WalkStations(root, nw.attrs["name"], StationsOf(root, nw.attrs["name"]))
    else Walked([], false)
  }

  /** The outer loop over the root's children. */
  function WalkNetworks(root: Element, nws: seq<Element>): Walked
    decreases |nws|
  {
    if nws == [] then Walked([], true)
    else Then(WalkNetworks(root, nws[..|nws| - 1]), WalkNetwork(root, nws[|nws| - 1]))
  }

  /** The whole walk of a configuration document. */
  function WalkConfig(root: Element): Walked
  {
    WalkNetworks(root, root.children)
  }

  /** A channel element carries both attributes the walk reads. */
  predicate ChannelOk(ch: Element)
  {
    "location" in ch.attrs && "name" in ch.attrs
  }

  predicate StationOk(st: Element)
  {
    "name" in st.attrs && forall ch :: ch in st.children && ch.tag == "channel" ==> ChannelOk(ch)
  }

  predicate NetworkOk(nw: Element)
  {
    "name" in nw.attrs && forall st :: st in nw.children && st.tag == "station" ==> StationOk(st)
  }

  /** A configuration in which every child of the root, every station below it
      and every channel below those carries the attributes the walk reads. */
  predicate WellFormed(root: Element)
  {
    forall nw :: nw in root.children ==> NetworkOk(nw)
  }

  lemma {:induction false} StationsOk(parents: seq<Element>, name: Option<string>)
    requires forall p :: p in parents ==> NetworkOk(p)
    ensures forall st :: st in Below(parents, "station", name) ==> StationOk(st)
    decreases |parents|
  {
    if parents != [] {
      var prefix := parents[..|parents| - 1];
      assert forall p :: p in prefix ==> p in parents;
      StationsOk(prefix, name);
      assert parents[|parents| - 1] in parents;
      SelectMatches(parents[|parents| - 1].children, "station", name);
    }
  }

  lemma {:induction false} ChannelsOk(parents: seq<Element>)
    requires forall p :: p in parents ==> StationOk(p)
    ensures forall ch :: ch in Below(parents, "channel", None) ==> ChannelOk(ch)
    decreases |parents|
  {
    if parents != [] {
      var prefix := parents[..|parents| - 1];
      assert forall p :: p in prefix ==> p in parents;
      ChannelsOk(prefix);
      assert parents[|parents| - 1] in parents;
      SelectMatches(parents[|parents| - 1].children, "channel", None);
    }
  }

  lemma {:induction false} WellFormedChannels(chs: seq<Element>, net: string, sta: string)
    requires forall ch :: ch in chs ==> ChannelOk(ch)
    ensures WalkChannels(chs, net, sta).complete
  {
    forall i | 0 <= i < |chs|
      ensures ChannelName(chs[i], net, sta).Some?
    {
      assert chs[i] in chs;
    }
  }

  lemma {:induction false} WellFormedStations(root: Element, net: string, sts: seq<Element>)
    requires WellFormed(root)
    requires forall st :: st in sts ==> StationOk(st)
    ensures WalkStations(root, net, sts).complete
    decreases |sts|
  {
    if sts != [] {
      var prefix := sts[..|sts| - 1];
      var st := sts[|sts| - 1];
      assert forall s :: s in prefix ==> s in sts;
      WellFormedStations(root, net, prefix);
      assert st in sts;
      var name := st.attrs["name"];
      var nws := Select(root.children, "network", Some(net));
      SelectMatches(root.children, "network", Some(net));
      StationsOk(nws, Some(name));
      ChannelsOk(Below(nws, "station", Some(name)));
      WellFormedChannels(ChannelsOf(root, net, name), net, name);
    }
  }

  lemma {:induction false} WellFormedNetworks(root: Element, nws: seq<Element>)
    requires WellFormed(root)
    requires forall nw :: nw in nws ==> nw in root.children
    ensures WalkNetworks(root, nws).complete
    decreases |nws|
  {
    if nws != [] {
      var prefix := nws[..|nws| - 1];
      var nw := nws[|nws| - 1];
      assert forall n :: n in prefix ==> n in nws;
      WellFormedNetworks(root, prefix);
      assert nw in nws;
      var name := nw.attrs["name"];
      SelectMatches(root.children, "network", Some(name));
      StationsOk(Select(root.children, "network", Some(name)), None);
      WellFormedStations(root, name, StationsOf(root, name));
    }
  }

  /** A configuration whose elements all carry their attributes is walked to
      the end: no `KeyError` escapes. */
  lemma WellFormedCompletes(root: Element)
    requires WellFormed(root)
    ensures WalkConfig(root).complete
  {
    WellFormedNetworks(root, root.children);
  }

  /** An entry of the drop-down list. */
  datatype DropdownOption = DropdownOption(caption: string, value: string)

  /** The drop-down entries of the given names, caption (the `label` key) and
      value both the name. */
  function AsOptions(names: seq<string>): (r: seq<DropdownOption>)
    ensures |r| == |names|
    decreases |names|
  {
    if names == [] then []
    else
      var last := names[|names| - 1];
      AsOptions(names[..|names| - 1]) + [DropdownOption(last, last)]
  }

  /** Entry i of the drop-down list shows and selects name i. */
  lemma {:induction false} AsOptionsEntries(names: seq<string>)
    ensures forall i :: 0 <= i < |names| ==> AsOptions(names)[i] == DropdownOption(names[i], names[i])
    decreases |names|
  {
    if names != [] {
      var prefix := names[..|names| - 1];
      AsOptionsEntries(prefix);
      assert forall i :: 0 <= i < |prefix| ==> AsOptions(names)[i] == AsOptions(prefix)[i] && names[i] == prefix[i];
    }
  }

  lemma {:induction false} AsOptionsAppend(a: seq<string>, b: seq<string>)
    ensures AsOptions(a + b) == AsOptions(a) + AsOptions(b)
    decreases |b|
  {
    if b == [] {
      assert a + b == a;
    } else {
      var prefix := b[..|b| - 1];
      assert (a + b)[..|a + b| - 1] == a + prefix;
      AsOptionsAppend(a, prefix);
    }
  }

  /** Lists that held the names of walk `a` and then had those of `b` appended
      hold the names of `a` followed by `b`. */
  lemma Extended(v0: seq<string>, o0: seq<DropdownOption>, v1: seq<string>, o1: seq<DropdownOption>,
                 v2: seq<string>, o2: seq<DropdownOption>, a: Walked, b: Walked)
    requires a.complete
    requires v1 == v0 + a.names && o1 == o0 + AsOptions(a.names)
    requires v2 == v1 + b.names && o2 == o1 + AsOptions(b.names)
    ensures v2 == v0 + Then(a, b).names && o2 == o0 + AsOptions(Then(a, b).names)
  {
    AsOptionsAppend(a.names, b.names);
  }

  /** What `connection_client` ends with: a status code, or the `KeyError` of a
      missing attribute escaping to the caller. */
  datatype ClientResult = Returned(code: int) | RaisedKeyError

  /** The caller's `network_list` (options) and `network_list_values` (values). */
  class NetworkLists {
    var values: seq<string>
    var options: seq<DropdownOption>

    constructor ()
      ensures values == [] && options == []
    {
      values, options := [], [];
    }

    method Append(name: string)
      modifies this
      ensures values == old(values) + [name]
      ensures options == old(options) + AsOptions([name])
    {
      values := values + [name];
      options := options + [DropdownOption(name, name)];
    }

    /** The innermost loop. */
    method AppendChannels(chs: seq<Element>, net: string, sta: string) returns (ok: bool)
      modifies this
      ensures ok == WalkChannels(chs, net, sta).complete
      ensures values == old(values) + WalkChannels(chs, net, sta).names
      ensures options == old(options) + AsOptions(WalkChannels(chs, net, sta).names)
    {
      var k := 0;
      while k < |chs|
        invariant 0 <= k <= |chs|
        invariant WalkChannels(chs[..k], net, sta).complete
        invariant values == old(values) + WalkChannels(chs[..k], net, sta).names
        invariant options == old(options) + AsOptions(WalkChannels(chs[..k], net, sta).names)
      {
        assert chs[..k + 1][..k] == chs[..k];
        var ch := chs[k];
        if "location" !in ch.attrs || "name" !in ch.attrs {
          assert chs[..k] == chs[..k + 1][..k];
          ok := false;
          assert WalkChannels(chs, net, sta).names == WalkChannels(chs[..k], net, sta).names by {
            WalkStopsAt(chs, k, net, sta);
          }
          return;
        }
        var name := FullName(net, sta, ch.attrs["location"], ch.attrs["name"]);
        AsOptionsAppend(WalkChannels(chs[..k], net, sta).names, [name]);
        Append(name);
        k := k + 1;
      }
      assert chs[..k] == chs;
      ok := true;
    }

    /** One pass of the middle loop: the station's name, then its channels. */
    method AppendStation(root: Element, net: string, st: Element) returns (ok: bool)
      modifies this
      ensures ok == WalkStation(root, net, st).complete
      ensures values == old(values) + WalkStation(root, net, st).names
      ensures options == old(options) + AsOptions(WalkStation(root, net, st).names)
    {
      if "name" !in st.attrs {
        return false;
      }
      ok := AppendChannels(ChannelsOf(root, net, st.attrs["name"]), net, st.attrs["name"]);
    }

    /** One pass of the outer loop: the network's name, then its stations. */
    method AppendNetwork(root: Element, nw: Element) returns (ok: bool)
      modifies this
      ensures ok == WalkNetwork(root, nw).complete
      ensures values == old(values) + WalkNetwork(root, nw).names
      ensures options == old(options) + AsOptions(WalkNetwork(root, nw).names)
    {
      if "name" !in nw.attrs {
        return false;
      }
      ok := AppendStations(root, nw.attrs["name"], StationsOf(root, nw.attrs["name"]));
    }

    /** The middle loop, over the stations `findall` gave for network `net`. */
    method AppendStations(root: Element, net: string, sts: seq<Element>) returns (ok: bool)
      modifies this
      ensures ok == WalkStations(root, net, sts).complete
      ensures values == old(values) + WalkStations(root, net, sts).names
      ensures options == old(options) + AsOptions(WalkStations(root, net, sts).names)
    {
      var k := 0;
      while k < |sts|
        invariant 0 <= k <= |sts|
        invariant WalkStations(root, net, sts[..k]).complete
        invariant values == old(values) + WalkStations(root, net, sts[..k]).names
        invariant options == old(options) + AsOptions(WalkStations(root, net, sts[..k]).names)
      {
        ghost var (v1, o1) := (values, options);
        WalkStationsStep(root, net, sts, k);
        ok := AppendStation(root, net, sts[k]);
        Extended(old(values), old(options), v1, o1, values, options,
                 WalkStations(root, net, sts[..k]), WalkStation(root, net, sts[k]));
        if !ok {
          WalkStationsStopsAt(root, net, sts, k);
          return;
        }
        k := k + 1;
      }
      assert sts[..k] == sts;
      ok := true;
    }
  }

  /** The configuration file's name stem for a server: `ip_address + '.' + port`. */
  function ConfigKey(ipAddress: string, port: string): string
  {
    ipAddress + "." + port
  }

  /** `connection_client`: the parsed configuration files are `configs`, keyed
      by their name stem. A missing file returns -1 and appends nothing; a
      present one is walked network by network, station by station, channel by
      channel, and returns 1 unless a missing attribute raises `KeyError`, in
      which case the names appended before it stay in the lists. */
  method ConnectionClient(lists: NetworkLists, configs: map<string, Element>, ipAddress: string, port: string)
    returns (r: ClientResult)
    modifies lists
    ensures r.Returned? ==> r.code == 1 || r.code == -1
    ensures ConfigKey(ipAddress, port) !in configs ==>
              r == Returned(-1) && lists.values == old(lists.values) && lists.options == old(lists.options)
    ensures ConfigKey(ipAddress, port) in configs ==>
              var w := WalkConfig(configs[ConfigKey(ipAddress, port)]);
              && (r == Returned(1) <==> w.complete)
              && (r == RaisedKeyError <==> !w.complete)
              && lists.values == old(lists.values) + w.names
              && lists.options == old(lists.options) + AsOptions(w.names)
  {
    var key := ipAddress + "." + port;
    if key !in configs {
      return Returned(-1);
    }
    var root := configs[key];
    var k := 0;
    while k < |root.children|
      invariant 0 <= k <= |root.children|
      invariant WalkNetworks(root, root.children[..k]).complete
      invariant lists.values == old(lists.values) + WalkNetworks(root, root.children[..k]).names
      invariant lists.options == old(lists.options) + AsOptions(WalkNetworks(root, root.children[..k]).names)
    {
      ghost var (v1, o1) := (lists.values, lists.options);
      WalkNetworksStep(root, root.children, k);
      var ok := lists.AppendNetwork(root, root.children[k]);
      Extended(old(lists.values), old(lists.options), v1, o1, lists.values, lists.options,
               WalkNetworks(root, root.children[..k]), WalkNetwork(root, root.children[k]));
      if !ok {
        WalkNetworksStopsAt(root, root.children, k);
        return RaisedKeyError;
      }
      k := k + 1;
    }
    assert root.children[..k] == root.children;
    return Returned(1);
  }

  lemma WalkNetworksStep(root: Element, nws: seq<Element>, k: nat)
    requires k < |nws|
    ensures WalkNetworks(root, nws[..k + 1]) == Then(WalkNetworks(root, nws[..k]), WalkNetwork(root, nws[k]))
  {
    assert nws[..k + 1][..k] == nws[..k];
  }

  lemma {:induction false} WalkNetworksStopsAt(root: Element, nws: seq<Element>, k: nat)
    requires k < |nws| && WalkNetworks(root, nws[..k]).complete
    requires !WalkNetwork(root, nws[k]).complete
    ensures !WalkNetworks(root, nws).complete
    ensures WalkNetworks(root, nws).names == WalkNetworks(root, nws[..k]).names + WalkNetwork(root, nws[k]).names
    decreases |nws|
  {
    if k + 1 < |nws| {
      var prefix := nws[..|nws| - 1];
      assert prefix[..k] == nws[..k] && prefix[k] == nws[k];
      WalkNetworksStopsAt(root, prefix, k);
    } else {
      assert nws[..|nws| - 1] == nws[..k];
    }
  }

  /** A walk that failed at channel `k` stops there. */
  lemma {:induction false} WalkStopsAt(chs: seq<Element>, k: nat, net: string, sta: string)
    requires k < |chs| && ChannelName(chs[k], net, sta).None?
    requires WalkChannels(chs[..k], net, sta).complete
    ensures !WalkChannels(chs, net, sta).complete
    ensures WalkChannels(chs, net, sta).names == WalkChannels(chs[..k], net, sta).names
    decreases |chs|
  {
    if k + 1 < |chs| {
      var prefix := chs[..|chs| - 1];
      assert prefix[..k] == chs[..k] && prefix[k] == chs[k];
      WalkStopsAt(prefix, k, net, sta);
    } else {
      assert chs[..|chs| - 1] == chs[..k];
    }
  }

  lemma WalkStationsStep(root: Element, net: string, sts: seq<Element>, k: nat)
    requires k < |sts|
    ensures WalkStations(root, net, sts[..k + 1]) ==
              Then(WalkStations(root, net, sts[..k]), WalkStation(root, net, sts[k]))
  {
    assert sts[..k + 1][..k] == sts[..k];
  }

  /** Likewise for stations. */
  lemma {:induction false} WalkStationsStopsAt(root: Element, net: string, sts: seq<Element>, k: nat)
    requires k < |sts| && WalkStations(root, net, sts[..k]).complete
    requires !WalkStation(root, net, sts[k]).complete
    ensures !WalkStations(root, net, sts).complete
    ensures WalkStations(root, net, sts).names ==
              WalkStations(root, net, sts[..k]).names + WalkStation(root, net, sts[k]).names
    decreases |sts|
  {
    if k + 1 < |sts| {
      var prefix := sts[..|sts| - 1];
      assert prefix[..k] == sts[..k] && prefix[k] == sts[k];
      WalkStationsStopsAt(root, net, prefix, k);
    } else {
      assert sts[..|sts| - 1] == sts[..k];
    }
  }
}
