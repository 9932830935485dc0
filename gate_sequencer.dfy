/** The gate sequencer of src/GateSequencer.cpp: four patterns of up to 64
    steps, shown 16 at a time on four pages, stepped by a clock and edited by
    short and long presses on grid, page and pattern buttons. */
module GateSequencers {
  import opened Common

  /** Steps shown on one page (and grid buttons). */
  const PageSteps: int := 16
  /** Steps stored per pattern. */
  const MaxPatternLen: int := 64
  const Pages: int := 4
  const Patterns: int := 4
  const GridSize: int := 256
  /** Pattern changes take effect only on beats that are multiples of this. */
  const Quantization: int := 16
  /** The default last-step index of every pattern. */
  const DefaultLen: int := 15
  /** A clock edge this soon after a reset (in seconds) is ignored. */
  const ResetGuard: real := 0.001
  /** Clock voltage above which the clock counts as high. */
  const GateThreshold: real := 0.01

  /** What a long-press button reports on one UI update. */
  datatype ButtonEvent = NO_PRESS | SHORT_PRESS | LONG_PRESS

  /** Index of step s of pattern p in the flat grid. */
  function Cell(s: int, p: int): int
  {
    s + p * MaxPatternLen
  }

  /** The 64 gates of pattern p. */
  function PatternSlice(g: seq<bool>, p: int): (r: seq<bool>)
    requires |g| == GridSize && 0 <= p < Patterns
    ensures |r| == MaxPatternLen
  {
    g[p * MaxPatternLen..p * MaxPatternLen + MaxPatternLen]
  }

  /** The 16 gates of one page of pattern p. */
  function PageSlice(g: seq<bool>, p: int, page: int): (r: seq<bool>)
    requires |g| == GridSize && 0 <= p < Patterns && 0 <= page < Pages
    ensures |r| == PageSteps
  {
    g[Cell(page * PageSteps, p)..Cell(page * PageSteps, p) + PageSteps]
  }

  /** The grid with one gate flipped. */
  function Switched(g: seq<bool>, k: int): seq<bool>
    requires 0 <= k < |g|
  {
    g[k := !g[k]]
  }

  /** The grid with every gate of pattern p off. */
  function Cleared(g: seq<bool>, p: int): (r: seq<bool>)
    requires |g| == GridSize && 0 <= p < Patterns
    ensures |r| == GridSize
  {
    seq(GridSize, k requires 0 <= k < GridSize =>
      if p * MaxPatternLen <= k < p * MaxPatternLen + MaxPatternLen then false else g[k])
  }

  /** The grid with pattern to overwritten by pattern from. */
  function CopiedPattern(g: seq<bool>, from: int, to: int): (r: seq<bool>)
    requires |g| == GridSize && 0 <= from < Patterns && 0 <= to < Patterns
    ensures |r| == GridSize
  {
    seq(GridSize, k requires 0 <= k < GridSize =>
      if to * MaxPatternLen <= k < to * MaxPatternLen + MaxPatternLen
      then g[k - to * MaxPatternLen + from * MaxPatternLen] else g[k])
  }

  /** The grid with page to of pattern p overwritten by its page from. */
  function CopiedPage(g: seq<bool>, p: int, from: int, to: int): (r: seq<bool>)
    requires |g| == GridSize && 0 <= p < Patterns && 0 <= from < Pages && 0 <= to < Pages
    ensures |r| == GridSize
  {
    seq(GridSize, k requires 0 <= k < GridSize =>
      if Cell(to * PageSteps, p) <= k < Cell(to * PageSteps, p) + PageSteps
      then g[k - to * PageSteps + from * PageSteps] else g[k])
  }

  /** Flipping a gate twice restores the grid, and the flipped step reads
      back negated. */
  lemma SwitchTwice(g: seq<bool>, s: int, p: int)
    requires |g| == GridSize && 0 <= s < MaxPatternLen && 0 <= p < Patterns
    ensures Switched(Switched(g, Cell(s, p)), Cell(s, p)) == g
    ensures Switched(g, Cell(s, p))[Cell(s, p)] == !g[Cell(s, p)]
    ensures forall k :: 0 <= k < GridSize && k != Cell(s, p) ==> Switched(g, Cell(s, p))[k] == g[k]
  {
    assert Switched(Switched(g, Cell(s, p)), Cell(s, p)) == g;
  }

  /** Clearing empties exactly pattern p, and clearing again changes nothing. */
  lemma ClearedPattern(g: seq<bool>, p: int)
    requires |g| == GridSize && 0 <= p < Patterns
    ensures PatternSlice(Cleared(g, p), p) == seq(MaxPatternLen, _ => false)
    ensures forall q :: 0 <= q < Patterns && q != p ==> PatternSlice(Cleared(g, p), q) == PatternSlice(g, q)
    ensures Cleared(Cleared(g, p), p) == Cleared(g, p)
  {
    var r := Cleared(g, p);
    assert PatternSlice(r, p) == seq(MaxPatternLen, _ => false) by {
      forall i | 0 <= i < MaxPatternLen
        ensures PatternSlice(r, p)[i] == false
      {
        assert PatternSlice(r, p)[i] == r[p * MaxPatternLen + i];
      }
    }
    forall q | 0 <= q < Patterns && q != p
      ensures PatternSlice(r, q) == PatternSlice(g, q)
    {
      forall i | 0 <= i < MaxPatternLen
        ensures PatternSlice(r, q)[i] == PatternSlice(g, q)[i]
      {
        assert PatternSlice(r, q)[i] == r[q * MaxPatternLen + i];
      }
    }
  }

  /** Copying makes pattern to equal pattern from and leaves every other
      pattern, the source included, as it was. */
  lemma CopiedPatternSlices(g: seq<bool>, from: int, to: int)
    requires |g| == GridSize && 0 <= from < Patterns && 0 <= to < Patterns
    ensures PatternSlice(CopiedPattern(g, from, to), to) == PatternSlice(g, from)
    ensures forall q :: 0 <= q < Patterns && q != to ==>
      PatternSlice(CopiedPattern(g, from, to), q) == PatternSlice(g, q)
  {
    var r := CopiedPattern(g, from, to);
    forall i | 0 <= i < MaxPatternLen
      ensures PatternSlice(r, to)[i] == PatternSlice(g, from)[i]
    {
      assert PatternSlice(r, to)[i] == r[to * MaxPatternLen + i];
    }
    forall q | 0 <= q < Patterns && q != to
      ensures PatternSlice(r, q) == PatternSlice(g, q)
    {
      forall i | 0 <= i < MaxPatternLen
        ensures PatternSlice(r, q)[i] == PatternSlice(g, q)[i]
      {
        assert PatternSlice(r, q)[i] == r[q * MaxPatternLen + i];
      }
    }
  }

  /** Copying a page makes page to of pattern p equal its page from; every
      other page of every pattern is unchanged. */
  lemma CopiedPageSlices(g: seq<bool>, p: int, from: int, to: int)
    requires |g| == GridSize && 0 <= p < Patterns && 0 <= from < Pages && 0 <= to < Pages
    ensures PageSlice(CopiedPage(g, p, from, to), p, to) == PageSlice(g, p, from)
    ensures forall q, page :: 0 <= q < Patterns && 0 <= page < Pages && (q, page) != (p, to) ==>
      PageSlice(CopiedPage(g, p, from, to), q, page) == PageSlice(g, q, page)
  {
    var r := CopiedPage(g, p, from, to);
    forall i | 0 <= i < PageSteps
      ensures PageSlice(r, p, to)[i] == PageSlice(g, p, from)[i]
    {
      assert PageSlice(r, p, to)[i] == r[Cell(to * PageSteps, p) + i];
    }
    forall q, page | 0 <= q < Patterns && 0 <= page < Pages && (q, page) != (p, to)
      ensures PageSlice(r, q, page) == PageSlice(g, q, page)
    {
      forall i | 0 <= i < PageSteps
        ensures PageSlice(r, q, page)[i] == PageSlice(g, q, page)[i]
      {
        assert PageSlice(r, q, page)[i] == r[Cell(page * PageSteps, q) + i];
        PagesDisjoint(q, page, i, p, to);
      }
    }
  }

  /** A cell of one page lies outside every other page. */
  lemma PagesDisjoint(q: int, page: int, i: int, p: int, to: int)
    requires 0 <= q < Patterns && 0 <= page < Pages && 0 <= p < Patterns && 0 <= to < Pages && 0 <= i < PageSteps
    requires (q, page) != (p, to)
    ensures !(Cell(to * PageSteps, p) <= Cell(page * PageSteps, q) + i < Cell(to * PageSteps, p) + PageSteps)
  {
    var a := 4 * q + page;
    var b := 4 * p + to;
    assert Cell(page * PageSteps, q) + i == 16 * a + i;
    assert Cell(to * PageSteps, p) == 16 * b;
  }

  /** The step shown for beat b of a pattern whose last step is len. */
  function StepOf(b: nat, len: int): (s: int)
    requires 0 <= len
    ensures 0 <= s <= len
    ensures b <= len ==> s == b
  {
    b % (len + 1)
  }

  /** One more beat moves to the next step, and from the last step back to
      step 0. */
  lemma StepAdvances(b: nat, len: int)
    requires 0 <= len
    ensures StepOf(b + 1, len) == if StepOf(b, len) == len then 0 else StepOf(b, len) + 1
  {
    var m := len + 1;
    var q := b / m;
    assert b == q * m + StepOf(b, len);
    if StepOf(b, len) == len {
      assert b + 1 == (q + 1) * m;
      ModOfMultiple(q + 1, m);
    } else {
      assert b + 1 == q * m + (StepOf(b, len) + 1);
      ModOfOffset(q, m, StepOf(b, len) + 1);
    }
  }

  lemma ModOfMultiple(q: nat, m: int)
    requires m > 0
    ensures (q * m) % m == 0
  {
    ModOfOffset(q, m, 0);
  }

  lemma ModOfOffset(q: nat, m: int, r: int)
    requires m > 0 && 0 <= r < m
    ensures (q * m + r) % m == r
  {
    var n := q * m + r;
    var q2 := n / m;
    assert q2 * m + n % m == n;
    if q2 > q {
      assert (q + 1) * m == q * m + m;
      MulLe(q + 1, q2, m);
    } else if q2 < q {
      assert (q2 + 1) * m == q2 * m + m;
      MulLe(q2 + 1, q, m);
    }
  }

  lemma MulLe(a: int, b: int, m: int)
    requires a <= b && m > 0
    ensures a * m <= b * m
  {
    assert b * m - a * m == (b - a) * m;
  }

  /** What the UI edits: the grid, the pattern lengths, the page shown and
      the pattern queued for the next quantised change. */
  datatype Controls = Controls(gates: seq<bool>, lens: seq<int>, page: int, next: int)

  predicate ControlsValid(c: Controls)
  {
    |c.gates| == GridSize && |c.lens| == Patterns && 0 <= c.page < Pages && 0 <= c.next < Patterns
    && forall p :: 0 <= p < Patterns ==> 0 <= c.lens[p] < MaxPatternLen
  }

  /** Grid button i: a short press flips its step of the current pattern, a
      long press makes it the pattern's last step. */
  function GridButton(c: Controls, pattern: int, offset: int, i: int, event: ButtonEvent): (r: Controls)
    requires ControlsValid(c) && 0 <= pattern < Patterns && 0 <= i < PageSteps
    requires 0 <= offset && offset + PageSteps <= MaxPatternLen
    ensures ControlsValid(r) && r.page == c.page && r.next == c.next
  {
    match event
    case NO_PRESS => c
    case SHORT_PRESS => c.(gates := Switched(c.gates, Cell(i + offset, pattern)))
    case LONG_PRESS => c.(lens := c.lens[pattern := i + offset])
  }

  /** Page button i: a short press shows page i, a long press first copies
      the shown page of the current pattern onto page i. */
  function PageButton(c: Controls, pattern: int, i: int, event: ButtonEvent): (r: Controls)
    requires ControlsValid(c) && 0 <= pattern < Patterns && 0 <= i < Pages
    ensures ControlsValid(r) && r.lens == c.lens && r.next == c.next
  {
    match event
    case NO_PRESS => c
    case SHORT_PRESS => c.(page := i)
    case LONG_PRESS => c.(gates := CopiedPage(c.gates, pattern, c.page, i), page := i)
  }

  /** Pattern button i: a short press queues pattern i; a long press clears
      the current pattern when i is current, and otherwise copies the current
      pattern (gates and length) onto i and queues i. */
  function PatternButton(c: Controls, pattern: int, i: int, event: ButtonEvent): (r: Controls)
    requires ControlsValid(c) && 0 <= pattern < Patterns && 0 <= i < Patterns
    ensures ControlsValid(r) && r.page == c.page
  {
    match event
    case NO_PRESS => c
    case SHORT_PRESS => c.(next := i)
    case LONG_PRESS =>
      if pattern == i then c.(gates := Cleared(c.gates, i))
      else c.(gates := CopiedPattern(c.gates, pattern, i), lens := c.lens[i := c.lens[pattern]], next := i)
  }

  /** The first n grid buttons handled in order. */
  function GridButtons(c: Controls, pattern: int, offset: int, events: seq<ButtonEvent>, n: nat): (r: Controls)
    requires ControlsValid(c) && 0 <= pattern < Patterns && n <= |events| == PageSteps
    requires 0 <= offset && offset + PageSteps <= MaxPatternLen
    ensures ControlsValid(r) && r.page == c.page && r.next == c.next
  {
    if n == 0 then c
    else GridButton(GridButtons(c, pattern, offset, events, n - 1), pattern, offset, n - 1, events[n - 1])
  }

  function PageButtons(c: Controls, pattern: int, events: seq<ButtonEvent>, n: nat): (r: Controls)
    requires ControlsValid(c) && 0 <= pattern < Patterns && n <= |events| == Pages
    ensures ControlsValid(r) && r.lens == c.lens && r.next == c.next
  {
    if n == 0 then c
    else PageButton(PageButtons(c, pattern, events, n - 1), pattern, n - 1, events[n - 1])
  }

  function PatternButtons(c: Controls, pattern: int, events: seq<ButtonEvent>, n: nat): (r: Controls)
    requires ControlsValid(c) && 0 <= pattern < Patterns && n <= |events| == Patterns
    ensures ControlsValid(r) && r.page == c.page
  {
    if n == 0 then c
    else PatternButton(PatternButtons(c, pattern, events, n - 1), pattern, n - 1, events[n - 1])
  }

  /** A long press on grid button i with no long press after it sets the
      current pattern's last step to i plus the page offset. */
  lemma {:induction false} LastLongPressSetsLength(c: Controls, pattern: int, offset: int, events: seq<ButtonEvent>, n: nat, i: nat)
    requires ControlsValid(c) && 0 <= pattern < Patterns && n <= |events| == PageSteps
    requires 0 <= offset && offset + PageSteps <= MaxPatternLen
    requires i < n && events[i] == LONG_PRESS
    requires forall j :: i < j < n ==> events[j] != LONG_PRESS
    ensures GridButtons(c, pattern, offset, events, n).lens[pattern] == i + offset
  {
    if i < n - 1 {
      LastLongPressSetsLength(c, pattern, offset, events, n - 1, i);
    }
  }

  /** Without any press on the page buttons the page stays; otherwise the
      last pressed page is shown. */
  lemma {:induction false} PageFollowsLastPress(c: Controls, pattern: int, events: seq<ButtonEvent>, n: nat)
    requires ControlsValid(c) && 0 <= pattern < Patterns && n <= |events| == Pages
    ensures (forall j :: 0 <= j < n ==> events[j] == NO_PRESS) ==> PageButtons(c, pattern, events, n).page == c.page
    ensures forall i :: 0 <= i < n && events[i] != NO_PRESS && (forall j :: i < j < n ==> events[j] == NO_PRESS) ==>
      PageButtons(c, pattern, events, n).page == i
  {
    if n > 0 {
      PageFollowsLastPress(c, pattern, events, n - 1);
    }
  }

  /** A single long press on a pattern button clears the current pattern if
      it is the current one, and otherwise copies the current pattern onto it
      and queues it. */
  lemma SingleLongPatternPress(c: Controls, pattern: int, events: seq<ButtonEvent>, i: int)
    requires ControlsValid(c) && 0 <= pattern < Patterns && |events| == Patterns && 0 <= i < Patterns
    requires forall j :: 0 <= j < Patterns ==> events[j] == if j == i then LONG_PRESS else NO_PRESS
    ensures var r := PatternButtons(c, pattern, events, Patterns);
      if i == pattern then r.gates == Cleared(c.gates, i) && r.next == c.next && r.lens == c.lens
      else PatternSlice(r.gates, i) == PatternSlice(c.gates, pattern) && r.lens[i] == c.lens[pattern] && r.next == i
  {
    PatternButtonsQuiet(c, pattern, events, i);
    var before := PatternButtons(c, pattern, events, i);
    assert before == c;
    AfterPressQuiet(PatternButton(c, pattern, i, LONG_PRESS), pattern, events, i + 1, Patterns, c, i);
    if i != pattern {
      CopiedPatternSlices(c.gates, pattern, i);
    }
  }

  lemma {:induction false} PatternButtonsQuiet(c: Controls, pattern: int, events: seq<ButtonEvent>, n: nat)
    requires ControlsValid(c) && 0 <= pattern < Patterns && n <= |events| == Patterns
    requires forall j :: 0 <= j < n ==> events[j] == NO_PRESS
    ensures PatternButtons(c, pattern, events, n) == c
  {
    if n > 0 {
      PatternButtonsQuiet(c, pattern, events, n - 1);
    }
  }

  lemma {:induction false} AfterPressQuiet(d: Controls, pattern: int, events: seq<ButtonEvent>, from: nat, n: nat, c: Controls, i: nat)
    requires ControlsValid(c) && 0 <= pattern < Patterns && |events| == Patterns && i < Patterns
    requires from == i + 1 && from <= n <= Patterns
    requires d == PatternButton(c, pattern, i, events[i])
    requires PatternButtons(c, pattern, events, i) == c
    requires forall j :: from <= j < Patterns ==> events[j] == NO_PRESS
    ensures PatternButtons(c, pattern, events, n) == d
  {
    if n > from {
      AfterPressQuiet(d, pattern, events, from, n - 1, c, i);
    }
  }

  /** The saved document: each field may be missing, and a gate array or
      length array may be shorter than expected. */
  datatype Document = Document(patternIndex: Option<int>, gates: Option<seq<int>>, len: Option<seq<int>>)

  /** The document a save produces: gates as 0 or 1. */
  function Saved(gates: seq<bool>, lens: seq<int>, pattern: int): Document
  {
    Document(Some(pattern), Some(seq(|gates|, i requires 0 <= i < |gates| => if gates[i] then 1 else 0)), Some(lens))
  }

  /** Gates after a restore: a present entry sets the gate to (entry != 0). */
  function RestoredGates(g: seq<bool>, doc: Document): (r: seq<bool>)
    ensures |r| == |g|
  {
    if doc.gates.None? then g
    else
      var saved := doc.gates.value;
      seq(|g|, i requires 0 <= i < |g| => if i < |saved| then saved[i] != 0 else g[i])
  }

  function RestoredLens(lens: seq<int>, doc: Document): (r: seq<int>)
    ensures |r| == |lens|
  {
    if doc.len.None? then lens
    else
      var saved := doc.len.value;
      seq(|lens|, i requires 0 <= i < |lens| => if i < |saved| then saved[i] else lens[i])
  }

  /** Restoring a saved document gives back the grid, the lengths and the
      pattern index, whatever the state before. */
  lemma SaveRestoreRoundTrip(gates: seq<bool>, lens: seq<int>, pattern: int, g0: seq<bool>, l0: seq<int>)
    requires |g0| == |gates| && |l0| == |lens|
    ensures RestoredGates(g0, Saved(gates, lens, pattern)) == gates
    ensures RestoredLens(l0, Saved(gates, lens, pattern)) == lens
    ensures Saved(gates, lens, pattern).patternIndex == Some(pattern)
  {
    var r := RestoredGates(g0, Saved(gates, lens, pattern));
    forall i | 0 <= i < |gates|
      ensures r[i] == gates[i]
    {
    }
  }

  /** A restored document keeps the state well formed when its index and
      lengths are in range. */
  predicate DocumentInRange(doc: Document)
  {
    (doc.patternIndex.Some? ==> 0 <= doc.patternIndex.value < Patterns)
    && (doc.len.Some? ==> forall i :: 0 <= i < |doc.len.value| ==> 0 <= doc.len.value[i] < MaxPatternLen)
  }

  class GateSequencer {
    const gates: array<bool>
    const patternLen: array<int>
    var beat: nat
    var step: int
    var pattern: int
    var next: int
    var page: int
    /** Seconds since the last reset edge. */
    var sinceReset: real

    ghost predicate Valid()
      reads this, patternLen
    {
      gates.Length == GridSize && patternLen.Length == Patterns
      && 0 <= pattern < Patterns && 0 <= next < Patterns && 0 <= page < Pages
      && 0 <= step < MaxPatternLen
      && forall p :: 0 <= p < Patterns ==> 0 <= patternLen[p] < MaxPatternLen
    }

    /** The controls the UI edits, as a value. */
    function ControlsNow(): (c: Controls)
      reads this, gates, patternLen
    {
      Controls(gates[..], patternLen[..], page, next)
    }

    constructor ()
      ensures Valid() && fresh(gates) && fresh(patternLen)
      ensures gates[..] == seq(GridSize, _ => false) && patternLen[..] == seq(Patterns, _ => DefaultLen)
      ensures beat == 0 && step == 0 && pattern == 0 && next == 0 && page == 0 && sinceReset == 0.0
    {
      gates := new bool[GridSize];
      patternLen := new int[Patterns](_ => DefaultLen);
      beat, step, pattern, next, page := 0, 0, 0, 0, 0;
      sinceReset := 0.0;
      new;
      ClearAllPatterns();
    }

    /** The gate of step s of pattern p: entry s of that pattern's slice. */
    predicate GetStep(s: int, p: int)
      reads this, gates
      requires gates.Length == GridSize && 0 <= Cell(s, p) < GridSize
      ensures 0 <= s < MaxPatternLen && 0 <= p < Patterns ==> (GetStep(s, p) <==> PatternSlice(gates[..], p)[s])
    {
      gates[Cell(s, p)]
    }

    method ClearAllPatterns()
      requires gates.Length == GridSize
      modifies gates
      ensures gates[..] == seq(GridSize, _ => false)
    {
      for i := 0 to GridSize
        invariant forall k :: 0 <= k < i ==> !gates[k]
      {
        gates[i] := false;
      }
    }

    method ClearPattern(p: int)
      requires gates.Length == GridSize && 0 <= p < Patterns
      modifies gates
      ensures gates[..] == Cleared(old(gates[..]), p)
    {
      var start := p * MaxPatternLen;
      for i := start to start + MaxPatternLen
        invariant forall k :: 0 <= k < GridSize ==> gates[k] == if start <= k < i then false else old(gates[k])
      {
        gates[i] := false;
      }
    }

    method SwitchStep(s: int)
      requires Valid() && 0 <= Cell(s, pattern) < GridSize
      modifies gates
      ensures gates[..] == Switched(old(gates[..]), Cell(s, pattern))
    {
      var offset := pattern * MaxPatternLen;
      gates[s + offset] := !gates[s + offset];
    }

    method CopyPattern(from: int, to: int)
      requires gates.Length == GridSize && patternLen.Length == Patterns
      requires 0 <= from < Patterns && 0 <= to < Patterns
      modifies gates, patternLen
      ensures gates[..] == CopiedPattern(old(gates[..]), from, to)
      ensures patternLen[..] == old(patternLen[..])[to := old(patternLen[from])]
    {
      var fromStart := from * MaxPatternLen;
      var toStart := to * MaxPatternLen;
      for i := 0 to MaxPatternLen
        invariant forall k :: 0 <= k < GridSize ==>
          gates[k] == if toStart <= k < toStart + i then old(gates[k - toStart + fromStart]) else old(gates[k])
        invariant patternLen[..] == old(patternLen[..])
      {
        gates[i + toStart] := gates[i + fromStart];
      }
      patternLen[to] := patternLen[from];
    }

    method CopyPage(p: int, from: int, to: int)
      requires gates.Length == GridSize
      requires 0 <= p < Patterns && 0 <= from < Pages && 0 <= to < Pages
      modifies gates
      ensures gates[..] == CopiedPage(old(gates[..]), p, from, to)
    {
      var fromStart := Cell(from * PageSteps, p);
      var toStart := Cell(to * PageSteps, p);
      for i := 0 to PageSteps
        invariant forall k :: 0 <= k < GridSize ==>
          gates[k] == if toStart <= k < toStart + i then old(gates[k - toStart + fromStart]) else old(gates[k])
      {
        gates[i + toStart] := gates[i + fromStart];
      }
    }

    method SetBeat(newBeat: nat)
      requires Valid()
      modifies this
      ensures Valid()
      ensures beat == newBeat && next == old(next) && page == old(page) && sinceReset == old(sinceReset)
      ensures pattern == if newBeat % Quantization == 0 then old(next) else old(pattern)
      ensures step == StepOf(newBeat, patternLen[pattern])
    {
      beat := newBeat;
      if beat % Quantization == 0 {
        pattern := next;
      }
      step := beat % (patternLen[pattern] + 1);
    }

    /** One audio-rate call. The reset and clock edges come from the Schmitt
        triggers; a clock edge advances the beat only when more than a
        millisecond has passed since the last reset. */
    method Process(resetConnected: bool, resetEdge: bool, clockConnected: bool, clockVoltage: real,
                   clockEdge: bool, sampleTime: real) returns (gateOut: bool)
      requires Valid()
      modifies this
      ensures Valid()
      ensures var reset := resetConnected && resetEdge;
        sinceReset == if reset then 0.0 else old(sinceReset) + sampleTime
      ensures var reset := resetConnected && resetEdge;
        var advance := clockConnected && clockEdge && sinceReset > ResetGuard;
        beat == (if reset then 0 else old(beat)) + (if advance then 1 else 0)
        && pattern == (if reset || (advance && beat % Quantization == 0) then old(next) else old(pattern))
        && (reset || advance ==> step == StepOf(beat, patternLen[pattern]))
        && (!reset && !advance ==> step == old(step))
      ensures next == old(next) && page == old(page)
      ensures gateOut == (clockConnected && clockVoltage > GateThreshold && gates[Cell(step, pattern)])
    {
      sinceReset := sinceReset + sampleTime;
      if resetConnected && resetEdge {
        sinceReset := 0.0;
        SetBeat(0);
      }
      var gateIn := false;
      if clockConnected {
        gateIn := clockVoltage > GateThreshold;
        if clockEdge && sinceReset > ResetGuard {
          SetBeat(beat + 1);
        }
      }
      gateOut := GetStep(step, pattern) && gateIn;
    }

    /** One UI update: the 16 grid buttons, then the 4 page buttons, then the
        4 pattern buttons, each handled in order. */
    method UpdateUI(grid: seq<ButtonEvent>, pages: seq<ButtonEvent>, patterns: seq<ButtonEvent>)
      requires Valid() && |grid| == PageSteps && |pages| == Pages && |patterns| == Patterns
      modifies gates, patternLen, this
      ensures Valid()
      ensures beat == old(beat) && step == old(step) && pattern == old(pattern) && sinceReset == old(sinceReset)
      ensures ControlsValid(old(ControlsNow()))
      ensures var afterGrid := GridButtons(old(ControlsNow()), pattern, old(page) * PageSteps, grid, PageSteps);
        ControlsNow() == PatternButtons(PageButtons(afterGrid, pattern, pages, Pages), pattern, patterns, Patterns)
    {
      GridUpdate(grid);
      PageUpdate(pages);
      PatternUpdate(patterns);
    }

    method GridUpdate(grid: seq<ButtonEvent>)
      requires Valid() && |grid| == PageSteps
      modifies gates, patternLen
      ensures Valid()
      ensures ControlsValid(old(ControlsNow()))
      ensures ControlsNow() == GridButtons(old(ControlsNow()), pattern, page * PageSteps, grid, PageSteps)
    {
      var offset := page * PageSteps;
      ghost var c0 := ControlsNow();
      for i := 0 to PageSteps
        invariant Valid()
        invariant ControlsNow() == GridButtons(c0, pattern, offset, grid, i)
      {
        match grid[i]
        case NO_PRESS =>
        case SHORT_PRESS => SwitchStep(i + offset);
        case LONG_PRESS => patternLen[pattern] := i + offset;
      }
    }

    method PageUpdate(pages: seq<ButtonEvent>)
      requires Valid() && |pages| == Pages
      modifies gates, this
      ensures Valid()
      ensures beat == old(beat) && step == old(step) && pattern == old(pattern) && sinceReset == old(sinceReset)
      ensures ControlsValid(old(ControlsNow()))
      ensures ControlsNow() == PageButtons(old(ControlsNow()), pattern, pages, Pages)
    {
      ghost var c0 := ControlsNow();
      for i := 0 to Pages
        invariant Valid() && beat == old(beat) && step == old(step) && pattern == old(pattern)
        invariant sinceReset == old(sinceReset)
        invariant ControlsNow() == PageButtons(c0, pattern, pages, i)
      {
        match pages[i]
        case NO_PRESS =>
        case SHORT_PRESS => page := i;
        case LONG_PRESS =>
          CopyPage(pattern, page, i);
          page := i;
      }
    }

    method PatternUpdate(patterns: seq<ButtonEvent>)
      requires Valid() && |patterns| == Patterns
      modifies gates, patternLen, this
      ensures Valid()
      ensures beat == old(beat) && step == old(step) && pattern == old(pattern) && sinceReset == old(sinceReset)
      ensures ControlsValid(old(ControlsNow()))
      ensures ControlsNow() == PatternButtons(old(ControlsNow()), pattern, patterns, Patterns)
    {
      ghost var c0 := ControlsNow();
      for i := 0 to Patterns
        invariant Valid() && beat == old(beat) && step == old(step) && pattern == old(pattern)
        invariant sinceReset == old(sinceReset)
        invariant ControlsNow() == PatternButtons(c0, pattern, patterns, i)
      {
        match patterns[i]
        case NO_PRESS =>
        case SHORT_PRESS => next := i;
        case LONG_PRESS =>
          if pattern == i {
            ClearPattern(i);
          } else {
            CopyPattern(pattern, i);
            next := i;
          }
      }
    }

    /** The saved document. */
    method DataToJson() returns (doc: Document)
      requires Valid()
      ensures doc == Saved(gates[..], patternLen[..], pattern)
    {
      var saved: seq<int> := [];
      for i := 0 to GridSize
        invariant |saved| == i
        invariant forall k :: 0 <= k < i ==> saved[k] == if gates[k] then 1 else 0
      {
        saved := saved + [if gates[i] then 1 else 0];
      }
      assert saved == Saved(gates[..], patternLen[..], pattern).gates.value;
      assert patternLen[..Patterns] == patternLen[..];
      var lens: seq<int> := [];
      for i := 0 to Patterns
        invariant lens == patternLen[..i]
      {
        lens := lens + [patternLen[i]];
      }
      doc := Document(Some(pattern), Some(saved), Some(lens));
    }

    /** Restores what the document holds; the pattern index is also queued as
        the next pattern. */
    method DataFromJson(doc: Document)
      requires Valid()
      modifies this, gates, patternLen
      ensures DocumentInRange(doc) ==> Valid()
      ensures doc.patternIndex.Some? ==> pattern == doc.patternIndex.value && next == pattern
      ensures doc.patternIndex.None? ==> pattern == old(pattern) && next == old(next)
      ensures gates[..] == RestoredGates(old(gates[..]), doc)
      ensures patternLen[..] == RestoredLens(old(patternLen[..]), doc)
      ensures beat == old(beat) && step == old(step) && page == old(page) && sinceReset == old(sinceReset)
    {
      if doc.patternIndex.Some? {
        next := doc.patternIndex.value;
        pattern := next;
      }
      ghost var p0, n0 := pattern, next;
      if doc.gates.Some? {
        var saved := doc.gates.value;
        for i := 0 to GridSize
          invariant pattern == p0 && next == n0 && beat == old(beat) && step == old(step)
          invariant page == old(page) && sinceReset == old(sinceReset)
          invariant unchanged(patternLen)
          invariant forall k :: 0 <= k < GridSize ==>
            gates[k] == if k < i && k < |saved| then saved[k] != 0 else old(gates[k])
        {
          if i < |saved| {
            gates[i] := saved[i] != 0;
          }
        }
      }
      ghost var g1 := gates[..];
      if doc.len.Some? {
        var saved := doc.len.value;
        for i := 0 to Patterns
          invariant pattern == p0 && next == n0 && beat == old(beat) && step == old(step)
          invariant page == old(page) && sinceReset == old(sinceReset)
          invariant gates[..] == g1
          invariant forall k :: 0 <= k < Patterns ==>
            patternLen[k] == if k < i && k < |saved| then saved[k] else old(patternLen[k])
        {
          if i < |saved| {
            patternLen[i] := saved[i];
          }
        }
      }
    }
  }
}
