/** The time graphs of `render_content_top` (app.py): three global lists kept
    side by side — the selected channel names, their `dcc.Graph`s and their
    figures. Deselected channels are pruned, newly selected ones are appended
    to all three, and a channel already shown gets one more trace. */
module AppGraphs {
  import opened Wrappers
  import opened Strings
  import opened AppHelpers

  /** A plotly figure: its title and how many traces it holds. */
  datatype Figure = Figure(title: string, traces: nat)

  /** A `dcc.Graph`: its id and the figure it shows. */
  datatype Graph = Graph(id: string, figure: Figure)

  /** Position i of the three lists, taken together. */
  datatype Entry = Entry(name: string, graph: Graph, fig: Figure)

  function Zip(names: seq<string>, graphs: seq<Graph>, figs: seq<Figure>): (r: seq<Entry>)
    requires |names| == |graphs| == |figs|
    ensures |r| == |names|
    ensures forall i :: 0 <= i < |r| ==> r[i] == Entry(names[i], graphs[i], figs[i])
    decreases |names|
  {
    if names == [] then []
    else [Entry(names[0], graphs[0], figs[0])] + Zip(names[1..], graphs[1..], figs[1..])
  }

  function Names(es: seq<Entry>): (r: seq<string>)
    ensures |r| == |es|
    ensures forall i :: 0 <= i < |es| ==> r[i] == es[i].name
    decreases |es|
  {
    if es == [] then [] else [es[0].name] + Names(es[1..])
  }

  predicate NoDup(xs: seq<string>)
  {
    forall i, j :: 0 <= i < j < |xs| ==> xs[i] != xs[j]
  }

  /** Every entry's graph has the channel's name as id and shows the entry's
      figure, whose title is the channel's name. */
  predicate Labelled(es: seq<Entry>)
  {
    forall i :: 0 <= i < |es| ==>
      es[i].graph.id == es[i].name && es[i].fig.title == es[i].name && es[i].graph.figure == es[i].fig
  }

  /** The entries the intended pruning keeps: those still selected, in order. */
  function Selected(es: seq<Entry>, sel: seq<string>): (r: seq<Entry>)
    ensures |r| <= |es|
    decreases |es|
  {
    if es == [] then []
    else (if es[0].name in sel then [es[0]] else []) + Selected(es[1..], sel)
  }

  /** One step of the intended pruning: an unselected entry at i is dropped,
      a selected one joins the kept prefix. */
  lemma PruneStep(es: seq<Entry>, sel: seq<string>, i: nat)
    requires i < |es|
    ensures es[i].name !in sel ==> es[..i] + Selected(es[i + 1..], sel) == es[..i] + Selected(es[i..], sel)
    ensures es[i].name in sel ==> es[..i + 1] + Selected(es[i + 1..], sel) == es[..i] + Selected(es[i..], sel)
  {
    assert es[i..][1..] == es[i + 1..];
    assert es[..i + 1] == es[..i] + [es[i]];
  }

  /** The pruning loop as written: `enumerate` moves on to index i + 1 even
      after `pop(i)` has shifted the next entry down to i. */
  function EnumeratePrune(es: seq<Entry>, sel: seq<string>, i: nat): (r: seq<Entry>)
    decreases |es| - i
  {
    if i >= |es| then es
    else if es[i].name !in sel then EnumeratePrune(es[..i] + es[i + 1..], sel, i + 1)
    else EnumeratePrune(es, sel, i + 1)
  }

  /** A deselected entry right after a deselected one survives the loop as
      written: with nothing selected, `[A, B]` becomes `[B]`. */
  lemma EnumeratePruneSkips(a: Entry, b: Entry)
    ensures EnumeratePrune([a, b], [], 0) == [b]
  {
    assert [a, b][..0] + [a, b][1..] == [b];
  }

  /** The intended pruning keeps exactly the selected entries. */
  lemma {:induction false} SelectedMembers(es: seq<Entry>, sel: seq<string>)
    ensures forall e :: e in Selected(es, sel) <==> e in es && e.name in sel
    decreases |es|
  {
    if es != [] {
      SelectedMembers(es[1..], sel);
      assert forall e :: e in es <==> e == es[0] || e in es[1..];
    }
  }

  /** A channel is still shown after the intended pruning exactly when it was
      shown and is still selected. */
  lemma SelectedNames(es: seq<Entry>, sel: seq<string>, n: string)
    ensures n in Names(Selected(es, sel)) <==> n in Names(es) && n in sel
  {
    SelectedMembers(es, sel);
    NamesMembership(Selected(es, sel), n);
    NamesMembership(es, n);
  }

  /** The intended pruning shows no channel twice if none was. */
  lemma {:induction false} SelectedKeepsNoDup(es: seq<Entry>, sel: seq<string>)
    requires NoDup(Names(es))
    ensures NoDup(Names(Selected(es, sel)))
    decreases |es|
  {
    if es != [] {
      var tail := es[1..];
      NoDupTail(es);
      SelectedKeepsNoDup(tail, sel);
      if es[0].name in sel {
        SelectedNames(tail, sel, es[0].name);
        NoDupCons(es[0], Selected(tail, sel));
      }
    }
  }

  lemma NoDupTail(es: seq<Entry>)
    requires es != [] && NoDup(Names(es))
    ensures NoDup(Names(es[1..])) && es[0].name !in Names(es[1..])
  {
    var tail := es[1..];
    forall i, j | 0 <= i < j < |tail|
      ensures Names(tail)[i] != Names(tail)[j]
    {
      assert Names(es)[i + 1] == Names(tail)[i] && Names(es)[j + 1] == Names(tail)[j];
    }
    forall m | 0 <= m < |tail|
      ensures Names(tail)[m] != es[0].name
    {
      assert Names(es)[m + 1] == Names(tail)[m];
    }
  }

  lemma NoDupCons(e: Entry, rest: seq<Entry>)
    requires NoDup(Names(rest)) && e.name !in Names(rest)
    ensures NoDup(Names([e] + rest))
  {
    var r := [e] + rest;
    forall i, j | 0 <= i < j < |r|
      ensures Names(r)[i] != Names(r)[j]
    {
      assert r[j] == rest[j - 1];
      if i > 0 {
        assert r[i] == rest[i - 1];
        assert Names(rest)[i - 1] != Names(rest)[j - 1];
      } else {
        assert Names(rest)[j - 1] in Names(rest);
      }
    }
  }

  /** The intended pruning keeps every graph and figure with its channel. */
  lemma {:induction false} SelectedKeepsLabelled(es: seq<Entry>, sel: seq<string>)
    requires Labelled(es)
    ensures Labelled(Selected(es, sel))
    decreases |es|
  {
    if es != [] {
      var tail := es[1..];
      assert Labelled(tail) by {
        forall i | 0 <= i < |tail|
          ensures tail[i] == es[i + 1]
        {
        }
      }
      SelectedKeepsLabelled(tail, sel);
      if es[0].name in sel {
        var rest := Selected(tail, sel);
        var r := Selected(es, sel);
        forall i | 0 <= i < |r|
          ensures r[i].graph.id == r[i].name && r[i].fig.title == r[i].name && r[i].graph.figure == r[i].fig
        {
          if i > 0 {
            assert r[i] == rest[i - 1];
          }
        }
      }
    }
  }

  lemma NamesMembership(es: seq<Entry>, n: string)
    ensures n in Names(es) <==> exists e :: e in es && e.name == n
  {
    if n in Names(es) {
      var i :| 0 <= i < |es| && Names(es)[i] == n;
      assert es[i] in es;
    }
  }

  /** Every name the loop as written keeps was there before, and the lists
      stay side by side: the loop only drops entries. */
  lemma {:induction false} EnumeratePruneDrops(es: seq<Entry>, sel: seq<string>, i: nat)
    ensures |EnumeratePrune(es, sel, i)| <= |es|
    ensures forall e :: e in EnumeratePrune(es, sel, i) ==> e in es
    decreases |es| - i
  {
    if i < |es| {
      if es[i].name !in sel {
        var shorter := es[..i] + es[i + 1..];
        EnumeratePruneDrops(shorter, sel, i + 1);
        assert forall e :: e in shorter ==> e in es;
      } else {
        EnumeratePruneDrops(es, sel, i + 1);
      }
    }
  }

  /** The position of a shown channel: `time_graphs_names.index(n)`. */
  function IndexOf(es: seq<Entry>, n: string): (i: nat)
    requires n in Names(es)
    ensures i < |es| && es[i].name == n
    decreases |es|
  {
    if es[0].name == n then 0 else IndexOf(es[1..], n) + 1
  }

  /** The entry appended for a newly selected channel: a one-trace figure
      titled with the channel's name, and a graph with that id showing it. */
  function NewEntry(station: string): Entry
  {
    Entry(station, Graph(station, Figure(station, 1)), Figure(station, 1))
  }

  /** `fig_list[i].append_trace(...)`: the figure gains a trace, and so does
      the graph showing that same figure object. */
  function Refresh(e: Entry): Entry
  {
    var f := e.fig.(traces := e.fig.traces + 1);
    Entry(e.name, e.graph.(figure := f), f)
  }

  /** One pass of the loop over the selection: append a new channel or refresh
      a shown one; either way its name is split first, and a name of fewer
      than three parts raises `IndexError` (None). */
  function Step(es: seq<Entry>, station: string): Option<seq<Entry>>
  {
    if SplitChannelName(station).None? then None
    else if station !in Names(es) then Some(es + [NewEntry(station)])
    else
      var i := IndexOf(es, station);
      Some(es[i := Refresh(es[i])])
  }

  /** The loop over the whole selection. */
  function AfterSelection(es: seq<Entry>, sel: seq<string>): Option<seq<Entry>>
    decreases |sel|
  {
    if sel == [] then Some(es)
    else
      match Step(es, sel[0])
      case None => None
      case Some(next) => AfterSelection(next, sel[1..])
  }

  /** `render_content_top` on the server tab, with the corrected pruning: no
      selection clears the three lists; a selection prunes the deselected
      channels, then appends or refreshes each selected one. */
  function RenderTopSpec(es: seq<Entry>, sel: Option<seq<string>>): Option<seq<Entry>>
  {
    if sel.None? then Some([]) else AfterSelection(Selected(es, sel.value), sel.value)
  }

  /** `render_content_top` exactly as written: the enumerate-and-pop pruning,
      then the same loop over the selection. */
  function RenderTopAsWrittenSpec(es: seq<Entry>, sel: Option<seq<string>>): Option<seq<Entry>>
  {
    if sel.None? then Some([]) else AfterSelection(EnumeratePrune(es, sel.value, 0), sel.value)
  }

  /** What one step does: the station is shown afterwards, nothing else is
      added or removed, names stay distinct and entries stay labelled. */
  lemma StepMeaning(es: seq<Entry>, station: string)
    ensures Step(es, station).Some? <==> |Split(station, '.')| >= 3
    ensures var r := Step(es, station);
            r.Some? ==> forall n :: n in Names(r.value) <==> n in Names(es) || n == station
    ensures var r := Step(es, station);
            r.Some? && NoDup(Names(es)) ==> NoDup(Names(r.value))
    ensures var r := Step(es, station);
            r.Some? && Labelled(es) ==> Labelled(r.value)
  {
    if Step(es, station).Some? {
      if station !in Names(es) {
        AppendNames(es, NewEntry(station));
        assert Names(es + [NewEntry(station)]) == Names(es) + [station];
        AppendLabelled(es, NewEntry(station));
      } else {
        var i := IndexOf(es, station);
        RefreshNames(es, i);
        RefreshLabelled(es, i);
      }
    }
  }

  lemma AppendNames(es: seq<Entry>, e: Entry)
    ensures Names(es + [e]) == Names(es) + [e.name]
    ensures e.name !in Names(es) && NoDup(Names(es)) ==> NoDup(Names(es + [e]))
  {
    assert |Names(es + [e])| == |Names(es) + [e.name]|;
    forall k | 0 <= k < |es| + 1
      ensures Names(es + [e])[k] == (Names(es) + [e.name])[k]
    {
    }
  }

  lemma AppendLabelled(es: seq<Entry>, e: Entry)
    requires e.graph.id == e.name && e.fig.title == e.name && e.graph.figure == e.fig
    ensures Labelled(es) ==> Labelled(es + [e])
  {
  }

  lemma RefreshNames(es: seq<Entry>, i: nat)
    requires i < |es|
    ensures Names(es[i := Refresh(es[i])]) == Names(es)
  {
    assert |Names(es[i := Refresh(es[i])])| == |Names(es)|;
    forall k | 0 <= k < |es|
      ensures Names(es[i := Refresh(es[i])])[k] == Names(es)[k]
    {
    }
  }

  lemma RefreshLabelled(es: seq<Entry>, i: nat)
    requires i < |es|
    ensures Labelled(es) ==> Labelled(es[i := Refresh(es[i])])
  {
  }

  /** The loop over the selection succeeds exactly when every selected name
      has at least three parts, and then shows what was shown plus the
      selection. */
  lemma {:induction false} AfterSelectionMeaning(es: seq<Entry>, sel: seq<string>)
    ensures AfterSelection(es, sel).Some? <==> forall k :: 0 <= k < |sel| ==> |Split(sel[k], '.')| >= 3
    ensures var r := AfterSelection(es, sel);
            r.Some? ==> forall n :: n in Names(r.value) <==> n in Names(es) || n in sel
    decreases |sel|
  {
    if sel != [] {
      StepMeaning(es, sel[0]);
      var next := Step(es, sel[0]);
      if next.Some? {
        AfterSelectionMeaning(next.value, sel[1..]);
        assert forall n :: n in sel <==> n == sel[0] || n in sel[1..];
        assert forall k :: 1 <= k < |sel| ==> sel[k] == sel[1..][k - 1];
      }
    }
  }

  /** The loop over the selection shows no channel twice if none was, and
      keeps every graph and figure with its channel. */
  lemma {:induction false} AfterSelectionKeepsShape(es: seq<Entry>, sel: seq<string>)
    ensures var r := AfterSelection(es, sel);
            r.Some? && NoDup(Names(es)) ==> NoDup(Names(r.value))
    ensures var r := AfterSelection(es, sel);
            r.Some? && Labelled(es) ==> Labelled(r.value)
    decreases |sel|
  {
    if sel != [] {
      StepMeaning(es, sel[0]);
      var next := Step(es, sel[0]);
      if next.Some? {
        AfterSelectionKeepsShape(next.value, sel[1..]);
      }
    }
  }

  /** After a render that does not fail, the shown channels are exactly the
      selected ones, no channel is shown twice if none was, and every graph
      and figure still belongs to its channel. */
  lemma RenderTopShowsSelection(es: seq<Entry>, sel: seq<string>)
    ensures RenderTopSpec(es, Some(sel)).Some? <==> forall k :: 0 <= k < |sel| ==> |Split(sel[k], '.')| >= 3
    ensures var r := RenderTopSpec(es, Some(sel));
            r.Some? ==> forall n :: n in Names(r.value) <==> n in sel
    ensures var r := RenderTopSpec(es, Some(sel));
            r.Some? && NoDup(Names(es)) ==> NoDup(Names(r.value))
    ensures var r := RenderTopSpec(es, Some(sel));
            r.Some? && Labelled(es) ==> Labelled(r.value)
  {
    var pruned := Selected(es, sel);
    AfterSelectionMeaning(pruned, sel);
    AfterSelectionKeepsShape(pruned, sel);
    if NoDup(Names(es)) {
      SelectedKeepsNoDup(es, sel);
    }
    if Labelled(es) {
      SelectedKeepsLabelled(es, sel);
    }
    forall n
      ensures n in Names(pruned) ==> n in sel
    {
      SelectedNames(es, sel, n);
    }
  }

  /** What the render as written does promise: it fails exactly as the
      corrected one does, every selected channel is shown, every shown channel
      was shown before or is selected, and graphs and figures stay with their
      channels. A deselected channel may stay shown (`EnumeratePruneSkips`). */
  lemma RenderTopAsWrittenShows(es: seq<Entry>, sel: seq<string>)
    ensures RenderTopAsWrittenSpec(es, Some(sel)).Some? <==> forall k :: 0 <= k < |sel| ==> |Split(sel[k], '.')| >= 3
    ensures var r := RenderTopAsWrittenSpec(es, Some(sel));
            r.Some? ==> forall n :: n in sel ==> n in Names(r.value)
    ensures var r := RenderTopAsWrittenSpec(es, Some(sel));
            r.Some? ==> forall n :: n in Names(r.value) ==> n in Names(es) || n in sel
    ensures var r := RenderTopAsWrittenSpec(es, Some(sel));
            r.Some? && Labelled(es) ==> Labelled(r.value)
  {
    var pruned := EnumeratePrune(es, sel, 0);
    AfterSelectionMeaning(pruned, sel);
    AfterSelectionKeepsShape(pruned, sel);
    EnumeratePruneDrops(es, sel, 0);
    forall n | n in Names(pruned)
      ensures n in Names(es)
    {
      NamesMembership(pruned, n);
      NamesMembership(es, n);
    }
    if Labelled(es) {
      LabelledSubset(es, pruned);
    }
  }

  /** Entries drawn from a labelled list are labelled. */
  lemma LabelledSubset(es: seq<Entry>, sub: seq<Entry>)
    requires Labelled(es) && forall e :: e in sub ==> e in es
    ensures Labelled(sub)
  {
    forall i | 0 <= i < |sub|
      ensures sub[i].graph.id == sub[i].name && sub[i].fig.title == sub[i].name && sub[i].graph.figure == sub[i].fig
    {
      assert sub[i] in sub;
      var j :| 0 <= j < |es| && es[j] == sub[i];
    }
  }

  lemma ZipRemove(ns: seq<string>, gs: seq<Graph>, fs: seq<Figure>, i: nat)
    requires |ns| == |gs| == |fs| && i < |ns|
    ensures Zip(ns[..i] + ns[i + 1..], gs[..i] + gs[i + 1..], fs[..i] + fs[i + 1..]) ==
              Zip(ns, gs, fs)[..i] + Zip(ns, gs, fs)[i + 1..]
  {
    var a := Zip(ns[..i] + ns[i + 1..], gs[..i] + gs[i + 1..], fs[..i] + fs[i + 1..]);
    var b := Zip(ns, gs, fs)[..i] + Zip(ns, gs, fs)[i + 1..];
    assert |a| == |b|;
    forall k | 0 <= k < |a|
      ensures a[k] == b[k]
    {
      if k >= i {
        assert (ns[..i] + ns[i + 1..])[k] == ns[k + 1];
        assert (gs[..i] + gs[i + 1..])[k] == gs[k + 1];
        assert (fs[..i] + fs[i + 1..])[k] == fs[k + 1];
      }
    }
  }

  lemma ZipAppend(ns: seq<string>, gs: seq<Graph>, fs: seq<Figure>, station: string)
    requires |ns| == |gs| == |fs|
    ensures Zip(ns + [station], gs + [Graph(station, Figure(station, 1))], fs + [Figure(station, 1)]) ==
              Zip(ns, gs, fs) + [NewEntry(station)]
  {
    var a := Zip(ns + [station], gs + [Graph(station, Figure(station, 1))], fs + [Figure(station, 1)]);
    var b := Zip(ns, gs, fs) + [NewEntry(station)];
    assert |a| == |b|;
    forall k | 0 <= k < |a|
      ensures a[k] == b[k]
    {
    }
  }

  lemma ZipRefresh(ns: seq<string>, gs: seq<Graph>, fs: seq<Figure>, i: nat)
    requires |ns| == |gs| == |fs| && i < |ns|
    ensures var f := fs[i].(traces := fs[i].traces + 1);
            Zip(ns, gs[i := gs[i].(figure := f)], fs[i := f]) == Zip(ns, gs, fs)[i := Refresh(Zip(ns, gs, fs)[i])]
  {
    var f := fs[i].(traces := fs[i].traces + 1);
    var gs', fs' := gs[i := gs[i].(figure := f)], fs[i := f];
    var z := Zip(ns, gs, fs);
    var a := Zip(ns, gs', fs');
    var b := z[i := Refresh(z[i])];
    assert |a| == |b|;
    forall k | 0 <= k < |a|
      ensures a[k] == b[k]
    {
      assert a[k] == Entry(ns[k], gs'[k], fs'[k]);
      assert z[k] == Entry(ns[k], gs[k], fs[k]);
    }
  }

  lemma NamesZip(ns: seq<string>, gs: seq<Graph>, fs: seq<Figure>)
    requires |ns| == |gs| == |fs|
    ensures Names(Zip(ns, gs, fs)) == ns
  {
  }

  /** The three global lists. */
  class TimeGraphs {
    var names: seq<string>
    var graphs: seq<Graph>
    var figs: seq<Figure>

    /** The lists are side by side. */
    predicate Valid()
      reads this
    {
      |names| == |graphs| == |figs|
    }

    function Entries(): seq<Entry>
      reads this
      requires Valid()
    {
      Zip(names, graphs, figs)
    }

    constructor ()
      ensures Valid() && names == [] && graphs == [] && figs == []
    {
      names, graphs, figs := [], [], [];
    }

    /** `pop(i)` on each of the three lists. */
    method PopAt(i: nat)
      requires Valid() && i < |names|
      modifies this
      ensures Valid() && Entries() == old(Entries())[..i] + old(Entries())[i + 1..]
    {
      ZipRemove(names, graphs, figs, i);
      names := names[..i] + names[i + 1..];
      graphs := graphs[..i] + graphs[i + 1..];
      figs := figs[..i] + figs[i + 1..];
    }

    /** The pruning loop as written: `for i, name in enumerate(...)` with a
        `pop(i)` inside. */
    method PruneAsWritten(sel: seq<string>)
      requires Valid()
      modifies this
      ensures Valid() && Entries() == EnumeratePrune(old(Entries()), sel, 0)
    {
      var i := 0;
      while i < |names|
        invariant Valid()
        invariant EnumeratePrune(old(Entries()), sel, 0) == EnumeratePrune(Entries(), sel, i)
        decreases |names| - i
      {
        if names[i] !in sel {
          PopAt(i);
        }
        i := i + 1;
      }
    }

    /** The pruning the loop is meant to do: an index moves on only past an
        entry that stays. */
    method Prune(sel: seq<string>)
      requires Valid()
      modifies this
      ensures Valid() && Entries() == Selected(old(Entries()), sel)
    {
      var i := 0;
      while i < |names|
        invariant Valid() && i <= |names|
        invariant Selected(old(Entries()), sel) == Entries()[..i] + Selected(Entries()[i..], sel)
        decreases |names| - i
      {
        var es := Entries();
        PruneStep(es, sel, i);
        if names[i] !in sel {
          PopAt(i);
          assert Entries()[..i] == es[..i] && Entries()[i..] == es[i + 1..];
        } else {
          i := i + 1;
        }
      }
      assert Entries()[i..] == [];
      assert Entries()[..i] == Entries();
    }

    /** One pass of the loop over the selection. */
    method ShowStation(station: string) returns (ok: bool)
      requires Valid()
      modifies this
      ensures ok == Step(old(Entries()), station).Some?
      ensures ok ==> Valid() && Entries() == Step(old(Entries()), station).value
    {
      ghost var es := Entries();
      NamesZip(names, graphs, figs);
      var parts := Split(station, '.');
      if |parts| < 3 {
        assert Step(es, station) == None;
        return false;
      }
      if station !in names {
        assert Step(es, station) == Some(es + [NewEntry(station)]);
        ZipAppend(names, graphs, figs, station);
        var fig := Figure(station, 1);
        figs := figs + [fig];
        names := names + [station];
        graphs := graphs + [Graph(station, fig)];
      } else {
        var i := IndexOf(Entries(), station);
        assert Step(es, station) == Some(es[i := Refresh(es[i])]);
        ZipRefresh(names, graphs, figs, i);
        var fig := figs[i].(traces := figs[i].traces + 1);
        figs := figs[i := fig];
        graphs := graphs[i := graphs[i].(figure := fig)];
      }
      ok := true;
    }

    /** The loop `for sta in sta_list` of `render_content_top`. */
    method ShowAll(stations: seq<string>) returns (ok: bool)
      requires Valid()
      modifies this
      ensures ok == AfterSelection(old(Entries()), stations).Some?
      ensures ok ==> Valid() && Entries() == AfterSelection(old(Entries()), stations).value
    {
      var k := 0;
      while k < |stations|
        invariant 0 <= k <= |stations| && Valid()
        invariant AfterSelection(old(Entries()), stations) == AfterSelection(Entries(), stations[k..])
      {
        assert stations[k..][1..] == stations[k + 1..];
        ok := ShowStation(stations[k]);
        if !ok {
          return;
        }
        k := k + 1;
      }
      ok := true;
    }

    /** `render_content_top` on the server tab, with the corrected pruning;
        `sel` is the drop-down's value (None when nothing was ever selected). */
    method RenderTop(sel: Option<seq<string>>) returns (ok: bool)
      requires Valid()
      modifies this
      ensures ok == RenderTopSpec(old(Entries()), sel).Some?
      ensures ok ==> Valid() && Entries() == RenderTopSpec(old(Entries()), sel).value
    {
      if sel.None? {
        names, graphs, figs := [], [], [];
        return true;
      }
      Prune(sel.value);
      ok := ShowAll(sel.value);
    }

    /** `render_content_top` on the server tab exactly as written, with the
        enumerate-and-pop pruning. */
    method RenderTopAsWritten(sel: Option<seq<string>>) returns (ok: bool)
      requires Valid()
      modifies this
      ensures ok == RenderTopAsWrittenSpec(old(Entries()), sel).Some?
      ensures ok ==> Valid() && Entries() == RenderTopAsWrittenSpec(old(Entries()), sel).value
    {
      if sel.None? {
        names, graphs, figs := [], [], [];
        return true;
      }
      PruneAsWritten(sel.value);
      ok := ShowAll(sel.value);
    }
  }
}
