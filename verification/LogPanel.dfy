/** The log panel: a bounded list of entries and an incrementally kept index of those that
    pass the verbosity filter and the text search. */
module LogView {
  import opened Basics

  const LOG_BUFFER_MIN := 1000
  const LOG_BUFFER_MAX := 5000

  datatype Entry = Entry(message: string, verbosity: nat)    // 0 concise, 1 detailed, 2 full

  datatype Panel = Panel(entries: seq<Entry>, filtered: seq<nat>, verbosity: nat,
                         query: string, searching: bool, maxEntries: nat)

  datatype Op =
    | Push(entry: Entry)
    | Clear
    | SetVerbosity(v: nat)
    | OpenSearch
    | EditQuery(q: string)
    | CloseSearch

  function Clamp(size: nat): nat {
    if size < LOG_BUFFER_MIN then LOG_BUFFER_MIN else if size > LOG_BUFFER_MAX then LOG_BUFFER_MAX else size
  }

  predicate Contains(text: string, part: string) {
    part <= text || (text != [] && Contains(text[1..], part))
  }

  /** str::contains finds the text at some position. */
  lemma {:induction false} ContainsExact(text: string, part: string)
    ensures Contains(text, part) <==> exists k :: 0 <= k <= |text| && part <= text[k..]
  {
    if part <= text {
      assert part <= text[0..];
    } else if text != [] {
      ContainsExact(text[1..], part);
      if Contains(text, part) {
        var k :| 0 <= k <= |text[1..]| && part <= text[1..][k..];
        assert text[1..][k..] == text[k + 1..];
      }
      if k :| 0 <= k <= |text| && part <= text[k..] {
        assert k != 0;
        assert text[1..][k - 1..] == text[k..];
      }
    }
  }

  predicate Passes(e: Entry, verbosity: nat, query: string) {
    e.verbosity <= verbosity && (query == "" || Contains(e.message, query))
  }

  predicate PassesAt(entries: seq<Entry>, i: nat, verbosity: nat, query: string)
    requires i < |entries|
  {
    Passes(entries[i], verbosity, query)
  }

  /** Verbosity first; an empty query occurs everywhere. */
  lemma PassesExact(e: Entry, verbosity: nat, query: string)
    ensures Passes(e, verbosity, query) <==>
              e.verbosity <= verbosity && exists k :: 0 <= k <= |e.message| && query <= e.message[k..]
  {
    ContainsExact(e.message, query);
    assert query == "" ==> query <= e.message[0..];
  }

  // --- The index, and the plain filter it stands for ---

  ghost predicate IsIndex(f: seq<nat>, entries: seq<Entry>, verbosity: nat, query: string) {
    && (forall a | 0 <= a < |f| :: f[a] < |entries| && PassesAt(entries, f[a], verbosity, query))
    && (forall a, b | 0 <= a < b < |f| :: f[a] < f[b])
    && (forall i: nat | i < |entries| && PassesAt(entries, i, verbosity, query) :: i in f)
  }

  lemma IndexInRange(f: seq<nat>, entries: seq<Entry>, verbosity: nat, query: string, a: nat)
    requires IsIndex(f, entries, verbosity, query) && a < |f|
    ensures f[a] < |entries|
  {
  }

  lemma IndexOrder(f: seq<nat>, entries: seq<Entry>, verbosity: nat, query: string, a: nat, b: nat)
    requires IsIndex(f, entries, verbosity, query) && a <= b < |f|
    ensures f[b] < |entries| && (a < b ==> f[a] < f[b])
  {
  }

  lemma EmptyIndex(f: seq<nat>, verbosity: nat, query: string)
    requires IsIndex(f, [], verbosity, query)
    ensures f == []
  {
    if f != [] {
      IndexInRange(f, [], verbosity, query, 0);
      assert false;
    }
  }

  /** There is only one such index. */
  lemma {:induction false} IndexUnique(f: seq<nat>, g: seq<nat>, entries: seq<Entry>, verbosity: nat, query: string)
    requires IsIndex(f, entries, verbosity, query) && IsIndex(g, entries, verbosity, query)
    ensures f == g
    decreases |entries|
  {
    if entries == [] {
      EmptyIndex(f, verbosity, query);
      EmptyIndex(g, verbosity, query);
    } else {
      var f' := IndexOfFront(f, entries, verbosity, query);
      var g' := IndexOfFront(g, entries, verbosity, query);
      IndexUnique(f', g', entries[..|entries| - 1], verbosity, query);
    }
  }

  function Appended(f: seq<nat>, i: nat, passes: bool): seq<nat> {
    if passes then f + [i] else f
  }

  lemma IndexOfFront(f: seq<nat>, entries: seq<Entry>, verbosity: nat, query: string) returns (front: seq<nat>)
    requires entries != [] && IsIndex(f, entries, verbosity, query)
    ensures IsIndex(front, entries[..|entries| - 1], verbosity, query)
    ensures f == Appended(front, |entries| - 1, PassesAt(entries, |entries| - 1, verbosity, query))
  {
    var last := |entries| - 1;
    if PassesAt(entries, last, verbosity, query) {
      LastIsIndexed(f, entries, verbosity, query);
      front := f[..|f| - 1];
      FrontIsIndex(front, f, entries, verbosity, query);
    } else {
      front := f;
      FrontIsIndex(front, f, entries, verbosity, query);
    }
  }

  lemma LastIsIndexed(f: seq<nat>, entries: seq<Entry>, verbosity: nat, query: string)
    requires entries != [] && IsIndex(f, entries, verbosity, query)
    requires PassesAt(entries, |entries| - 1, verbosity, query)
    ensures f != [] && f == f[..|f| - 1] + [|entries| - 1]
  {
    var at :| 0 <= at < |f| && f[at] == |entries| - 1;
    IndexOrder(f, entries, verbosity, query, at, |f| - 1);
  }

  /** f without the last position, if it was there. */
  lemma FrontIsIndex(front: seq<nat>, f: seq<nat>, entries: seq<Entry>, verbosity: nat, query: string)
    requires entries != [] && IsIndex(f, entries, verbosity, query)
    requires f == Appended(front, |entries| - 1, PassesAt(entries, |entries| - 1, verbosity, query))
    ensures IsIndex(front, entries[..|entries| - 1], verbosity, query)
  {
    var last := |entries| - 1;
    var init := entries[..last];
    forall a | 0 <= a < |front| ensures front[a] < last && PassesAt(init, front[a], verbosity, query) {
      FrontPosition(front, f, entries, verbosity, query, a);
    }
    forall i: nat | i < last && PassesAt(init, i, verbosity, query) ensures i in front {
      assert PassesAt(entries, i, verbosity, query);
    }
    assert forall a | 0 <= a < |front| :: front[a] == f[a];
  }

  lemma FrontPosition(front: seq<nat>, f: seq<nat>, entries: seq<Entry>, verbosity: nat, query: string, a: nat)
    requires entries != [] && IsIndex(f, entries, verbosity, query) && a < |front|
    requires f == Appended(front, |entries| - 1, PassesAt(entries, |entries| - 1, verbosity, query))
    ensures front[a] < |entries| - 1 && PassesAt(entries, front[a], verbosity, query)
  {
    assert f[a] == front[a];
    if PassesAt(entries, |entries| - 1, verbosity, query) {
      IndexOrder(f, entries, verbosity, query, a, |f| - 1);
      assert f[|f| - 1] == |entries| - 1;
    }
  }

  lemma IndexSnoc(f: seq<nat>, entries: seq<Entry>, e: Entry, verbosity: nat, query: string)
    requires IsIndex(f, entries, verbosity, query)
    ensures IsIndex(Appended(f, |entries|, Passes(e, verbosity, query)), entries + [e], verbosity, query)
  {
    var all := entries + [e];
    var g := Appended(f, |entries|, Passes(e, verbosity, query));
    forall a | 0 <= a < |g| ensures g[a] < |all| && PassesAt(all, g[a], verbosity, query) {
      if a < |f| {
        assert PassesAt(entries, f[a], verbosity, query);
      }
    }
    forall i: nat | i < |all| && PassesAt(all, i, verbosity, query) ensures i in g {
      if i < |entries| {
        assert PassesAt(entries, i, verbosity, query);
      } else {
        assert g[|f|] == i;
      }
    }
  }

  /** rebuild_filtered_indices */
  function Rebuild(entries: seq<Entry>, verbosity: nat, query: string): seq<nat> {
    if entries == [] then []
    else
      var last := |entries| - 1;
      Appended(Rebuild(entries[..last], verbosity, query), last, Passes(entries[last], verbosity, query))
  }

  lemma {:induction false} RebuildIsIndex(entries: seq<Entry>, verbosity: nat, query: string)
    ensures IsIndex(Rebuild(entries, verbosity, query), entries, verbosity, query)
  {
    if entries != [] {
      var last := |entries| - 1;
      assert entries == entries[..last] + [entries[last]];
      RebuildIsIndex(entries[..last], verbosity, query);
      IndexSnoc(Rebuild(entries[..last], verbosity, query), entries[..last], entries[last], verbosity, query);
    }
  }

  function Filter(entries: seq<Entry>, verbosity: nat, query: string): seq<Entry> {
    if entries == [] then []
    else
      var last := |entries| - 1;
      Filter(entries[..last], verbosity, query) +
      if Passes(entries[last], verbosity, query) then [entries[last]] else []
  }

  /** The rows on screen. */
  function Rows(entries: seq<Entry>, f: seq<nat>): seq<Entry>
    requires forall a | 0 <= a < |f| :: f[a] < |entries|
  {
    seq(|f|, a requires 0 <= a < |f| => entries[f[a]])
  }

  lemma RowsSnoc(f: seq<nat>, entries: seq<Entry>, passes: bool)
    requires entries != [] && forall a | 0 <= a < |f| :: f[a] < |entries| - 1
    ensures var last := |entries| - 1;
      Rows(entries, Appended(f, last, passes)) == Rows(entries[..last], f) + if passes then [entries[last]] else []
  {
  }

  lemma {:induction false} RowsAreFiltered(f: seq<nat>, entries: seq<Entry>, verbosity: nat, query: string)
    requires IsIndex(f, entries, verbosity, query)
    ensures Rows(entries, f) == Filter(entries, verbosity, query)
    decreases |entries|
  {
    if entries == [] {
      EmptyIndex(f, verbosity, query);
    } else {
      var last := |entries| - 1;
      var front := IndexOfFront(f, entries, verbosity, query);
      RowsAreFiltered(front, entries[..last], verbosity, query);
      RowsSnoc(front, entries, Passes(entries[last], verbosity, query));
    }
  }

  // --- Operations ---

  function Newest(s: seq<Entry>, n: nat): seq<Entry> {
    if |s| > n then s[|s| - n..] else s
  }

  function New(size: nat): Panel {
    Panel([], [], 0, "", false, Clamp(size))
  }

  function Reindexed(p: Panel): Panel {
    p.(filtered := Rebuild(p.entries, p.verbosity, p.query))
  }

  /** push: one append when nothing was evicted, a rebuild otherwise. */
  function Pushed(p: Panel, e: Entry): Panel {
    var grown := p.entries + [e];
    if |grown| > p.maxEntries then
      Reindexed(p.(entries := Newest(grown, p.maxEntries)))
    else
      p.(entries := grown, filtered := Appended(p.filtered, |grown| - 1, Passes(e, p.verbosity, p.query)))
  }

  /** A verbosity button only acts when it is not selected; the query can only be edited
      while the search box is open. */
  function Apply(p: Panel, op: Op): Panel {
    match op
    case Push(e) => Pushed(p, e)
    case Clear => p.(entries := [], filtered := [])
    case SetVerbosity(v) => if v == p.verbosity then p else Reindexed(p.(verbosity := v))
    case OpenSearch => p.(searching := true)
    case EditQuery(q) => if p.searching then Reindexed(p.(query := q)) else p
    case CloseSearch => if p.searching then Reindexed(p.(searching := false, query := "")) else p
  }

  function After(size: nat, ops: seq<Op>): Panel {
    if ops == [] then New(size) else Apply(After(size, ops[..|ops| - 1]), ops[|ops| - 1])
  }

  /** What a reader of the operations alone would expect to be kept. */
  function SinceClear(ops: seq<Op>): seq<Entry> {
    if ops == [] then [] else Kept(SinceClear(ops[..|ops| - 1]), ops[|ops| - 1])
  }

  function Kept(before: seq<Entry>, op: Op): seq<Entry> {
    if op.Push? then before + [op.entry] else if op.Clear? then [] else before
  }

  ghost predicate Sound(p: Panel, kept: seq<Entry>) {
    && LOG_BUFFER_MIN <= p.maxEntries <= LOG_BUFFER_MAX
    && p.entries == Newest(kept, p.maxEntries)
    && IsIndex(p.filtered, p.entries, p.verbosity, p.query)
    && (p.query != "" ==> p.searching)
  }

  lemma PushSound(p: Panel, e: Entry, kept: seq<Entry>)
    requires Sound(p, kept)
    ensures Sound(Pushed(p, e), kept + [e])
  {
    var entries := Newest(p.entries + [e], p.maxEntries);
    assert entries == Newest(kept + [e], p.maxEntries);
    IndexSnoc(p.filtered, p.entries, e, p.verbosity, p.query);
    RebuildIsIndex(entries, p.verbosity, p.query);
  }

  lemma StepSound(p: Panel, op: Op, kept: seq<Entry>)
    requires Sound(p, kept)
    ensures Sound(Apply(p, op), Kept(kept, op))
  {
    if op.Push? {
      PushSound(p, op.entry, kept);
    } else {
      var q := Apply(p, op);
      RebuildIsIndex(q.entries, q.verbosity, q.query);
    }
  }

  /** After any operations: the newest entries pushed since the last clear, up to the
      bound, exactly the passing positions in order, and on screen the plain filter. */
  lemma {:induction false} PanelSound(size: nat, ops: seq<Op>)
    ensures var p := After(size, ops);
      && p.maxEntries == Clamp(size)
      && Sound(p, SinceClear(ops))
      && Rows(p.entries, p.filtered) == Filter(p.entries, p.verbosity, p.query)
  {
    if ops != [] {
      var init := ops[..|ops| - 1];
      PanelSound(size, init);
      StepSound(After(size, init), ops[|ops| - 1], SinceClear(init));
    }
    var p := After(size, ops);
    RowsAreFiltered(p.filtered, p.entries, p.verbosity, p.query);
  }

  /** The level last selected; the lowest to begin with. */
  function Selected(ops: seq<Op>): nat {
    if ops == [] then 0
    else if ops[|ops| - 1].SetVerbosity? then ops[|ops| - 1].v
    else Selected(ops[..|ops| - 1])
  }

  /** The text of the open search box: last typed since it was opened, gone when closed. */
  function SearchBox(ops: seq<Op>): Option<string> {
    if ops == [] then None
    else
      var was := SearchBox(ops[..|ops| - 1]);
      match ops[|ops| - 1]
      case OpenSearch => if was.None? then Some("") else was
      case EditQuery(q) => if was.None? then None else Some(q)
      case CloseSearch => None
      case _ => was
  }

  /** The panel filters by what was last selected and typed, and by nothing else. */
  lemma {:induction false} SettingsLatest(size: nat, ops: seq<Op>)
    ensures var p, box := After(size, ops), SearchBox(ops);
      && p.verbosity == Selected(ops)
      && p.searching == box.Some? && p.query == (if box.Some? then box.value else "")
      && p.maxEntries == if size < 1000 then 1000 else if size > 5000 then 5000 else size
  {
    if ops != [] {
      SettingsLatest(size, ops[..|ops| - 1]);
    }
  }

  /** Between evictions: a suffix of what there was, still at the bound or above it. */
  predicate Evicting(grown: seq<Entry>, entries: seq<Entry>, n: nat) {
    |entries| <= |grown| && entries == grown[|grown| - |entries|..] && (|entries| == |grown| || |entries| >= n)
  }

  lemma EvictOne(grown: seq<Entry>, entries: seq<Entry>, n: nat)
    requires Evicting(grown, entries, n) && |entries| > n
    ensures Evicting(grown, entries[1..], n)
  {
  }

  lemma Evicted(grown: seq<Entry>, entries: seq<Entry>, n: nat)
    requires Evicting(grown, entries, n) && |entries| <= n
    ensures entries == Newest(grown, n) && (|entries| < |grown| <==> |grown| > n)
  {
  }

  /** The two endings of push. */
  lemma PushedEvicting(p: Panel, e: Entry, kept: seq<Entry>)
    requires Evicting(p.entries + [e], kept, p.maxEntries) && |kept| <= p.maxEntries && |kept| <= |p.entries|
    ensures Pushed(p, e) == Reindexed(p.(entries := kept))
  {
    Evicted(p.entries + [e], kept, p.maxEntries);
  }

  lemma PushedRoom(p: Panel, e: Entry)
    requires |p.entries| < p.maxEntries
    ensures Pushed(p, e) == p.(entries := p.entries + [e],
                               filtered := Appended(p.filtered, |p.entries|, Passes(e, p.verbosity, p.query)))
  {
  }

  /** LogPanel as written. */
  class LogPanel {
    var entries: seq<Entry>
    var filteredIndices: seq<nat>
    var verbosityFilter: nat
    var searchQuery: string
    var searchActive: bool
    var maxEntries: nat
    ghost var kept: seq<Entry>      // pushed since the last clear

    function View(): Panel
      reads this
    {
      Panel(entries, filteredIndices, verbosityFilter, searchQuery, searchActive, maxEntries)
    }

    /** The newest kept entries up to the bound, and exactly the passing ones indexed. */
    ghost predicate Valid()
      reads this
    {
      Sound(View(), kept)
    }

    constructor (size: nat)
      ensures Valid() && View() == New(size) && kept == []
      ensures entries == [] && filteredIndices == [] && verbosityFilter == 0 && searchQuery == "" && !searchActive
      ensures maxEntries == if size < 1000 then 1000 else if size > 5000 then 5000 else size
    {
      kept := [];
      entries, filteredIndices := [], [];
      verbosityFilter, searchQuery, searchActive := 0, "", false;
      maxEntries := Clamp(size);
    }

    method EntryPassesFilter(e: Entry) returns (passes: bool)
      ensures passes == Passes(e, verbosityFilter, searchQuery)
      ensures passes <==>
                e.verbosity <= verbosityFilter && exists k :: 0 <= k <= |e.message| && searchQuery <= e.message[k..]
    {
      PassesExact(e, verbosityFilter, searchQuery);
      if e.verbosity > verbosityFilter {
        return false;
      }
      if searchQuery != "" {
        return Contains(e.message, searchQuery);
      }
      return true;
    }

    method RebuildFilteredIndices()
      modifies this`filteredIndices
      ensures View() == Reindexed(old(View()))
    {
      filteredIndices := [];
      var i := 0;
      while i < |entries|
        invariant 0 <= i <= |entries|
        invariant filteredIndices == Rebuild(entries[..i], verbosityFilter, searchQuery)
      {
        assert entries[..i + 1][..i] == entries[..i];
        var passes := EntryPassesFilter(entries[i]);
        if passes {
          filteredIndices := filteredIndices + [i];
        }
        i := i + 1;
      }
      assert entries[..i] == entries;
    }

    method Push(e: Entry)
      requires Valid()
      modifies this
      ensures Valid() && View() == Pushed(old(View()), e) && kept == old(kept) + [e]
    {
      PushSound(View(), e, kept);
      kept := kept + [e];
      PushEntry(e);
    }

    /** The body of push. */
    method PushEntry(e: Entry)
      modifies this`entries, this`filteredIndices
      ensures View() == Pushed(old(View()), e)
    {
      var passes := EntryPassesFilter(e);
      entries := entries + [e];
      ghost var grown := entries;
      var evicted := false;
      while |entries| > maxEntries
        invariant Evicting(grown, entries, maxEntries)
        invariant evicted <==> |entries| < |grown|
        modifies this`entries
      {
        EvictOne(grown, entries, maxEntries);
        entries := entries[1..];
        evicted := true;
      }
      if evicted {
        PushedEvicting(old(View()), e, entries);
        RebuildFilteredIndices();
      } else {
        PushedRoom(old(View()), e);
        if passes {
          filteredIndices := filteredIndices + [|entries| - 1];
        }
      }
    }

    method Clear()
      requires Valid()
      modifies this
      ensures Valid() && View() == Apply(old(View()), Op.Clear) && kept == Kept(old(kept), Op.Clear)
    {
      StepSound(View(), Op.Clear, kept);
      kept := [];
      entries := [];
      filteredIndices := [];
    }

    method ClickVerbosity(v: nat)
      requires Valid()
      modifies this
      ensures Valid() && View() == Apply(old(View()), SetVerbosity(v)) && kept == Kept(old(kept), SetVerbosity(v))
    {
      StepSound(View(), SetVerbosity(v), kept);
      var selected := verbosityFilter == v;
      if !selected {
        verbosityFilter := v;
        RebuildFilteredIndices();
      }
    }

    method ClickSearch()
      requires Valid()
      modifies this
      ensures Valid() && View() == Apply(old(View()), OpenSearch) && kept == Kept(old(kept), OpenSearch)
    {
      StepSound(View(), OpenSearch, kept);
      searchActive := true;
    }

    method TypeQuery(q: string)
      requires Valid()
      modifies this
      ensures Valid() && View() == Apply(old(View()), EditQuery(q)) && kept == Kept(old(kept), EditQuery(q))
    {
      StepSound(View(), EditQuery(q), kept);
      if searchActive {
        searchQuery := q;
        RebuildFilteredIndices();
      }
    }

    method ClickCloseSearch()
      requires Valid()
      modifies this
      ensures Valid() && View() == Apply(old(View()), CloseSearch) && kept == Kept(old(kept), CloseSearch)
    {
      StepSound(View(), CloseSearch, kept);
      if searchActive {
        searchActive := false;
        searchQuery := "";
        RebuildFilteredIndices();
      }
    }
  }
}
