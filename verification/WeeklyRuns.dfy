/** Whole runs of the weekly machine, and its action log read back as a history of layers. */
module WeeklyRuns {
  import opened Calendar
  import opened Options
  import opened Rounding
  import opened WeeklyModels
  import opened WeeklyStep
  import opened WeeklyInvariants

  /** The context after the bars, with all transitions and actions in order. */
  function Run(cfg: Config, bars: seq<Bar>): Outcome {
    if bars == [] then Outcome(INITIAL_CONTEXT, [], [])
    else
      var before := Run(cfg, bars[..|bars| - 1]);
      Then(before, Step(cfg, before.ctx, bars[|bars| - 1]))
  }

  lemma RunSnoc(cfg: Config, bars: seq<Bar>, bar: Bar)
    ensures Run(cfg, bars + [bar]) == Then(Run(cfg, bars), Step(cfg, Run(cfg, bars).ctx, bar))
  {
    hide Step;
    assert (bars + [bar])[..|bars|] == bars;
  }

  /** The machine invariant at every reachable state; after a bar the machine is in the bar's week. */
  lemma {:induction false} RunKeepsInv(cfg: Config, bars: seq<Bar>)
    ensures Inv(cfg, Run(cfg, bars).ctx)
    ensures bars != [] ==> Run(cfg, bars).ctx.week == Some(bars[|bars| - 1].stamp.Week())
  {
    if bars == [] {
      InitialContextIsGood(cfg);
    } else {
      var before := bars[..|bars| - 1];
      RunKeepsInv(cfg, before);
      StepKeepsInv(cfg, Run(cfg, before).ctx, bars[|bars| - 1]);
    }
  }

  // ---------- Layers opened and closed, read off a log ----------

  predicate Selects(opening: bool, kind: ActionKind) {
    if opening then IsOpening(kind) else IsClosing(kind)
  }

  /** The layers of the opening (or of the closing) records of a log, in order. */
  function LayersOf(opening: bool, log: seq<Action>): seq<Layer> {
    if log == [] then []
    else
      var last := log[|log| - 1];
      LayersOf(opening, log[..|log| - 1]) +
      (if Selects(opening, last.kind) && last.layer.Some? then [last.layer.value] else [])
  }

  lemma {:induction false} LayersOfConcat(opening: bool, a: seq<Action>, b: seq<Action>)
    ensures LayersOf(opening, a + b) == LayersOf(opening, a) + LayersOf(opening, b)
  {
    if b == [] {
      assert a + b == a;
    } else {
      assert (a + b)[..|a + b| - 1] == a + b[..|b| - 1];
      LayersOfConcat(opening, a, b[..|b| - 1]);
    }
  }

  lemma RecordShows(bar: Bar, kind: ActionKind, state: State, center: Option<real>, layer: Layer)
    ensures var a := Record(bar, kind, state, center, Some(layer)); a.kind == kind && a.layer == Some(layer)
  {
  }

  lemma RecordsPrefix(bar: Bar, kind: ActionKind, state: State, center: Option<real>, layers: seq<Layer>)
    requires layers != []
    ensures var rs, n := Records(bar, kind, state, center, layers), |layers| - 1;
            rs[..n] == Records(bar, kind, state, center, layers[..n])
            && rs[n] == Record(bar, kind, state, center, Some(layers[n]))
  {
  }

  lemma RecordsTail(bar: Bar, kind: ActionKind, state: State, center: Option<real>, layers: seq<Layer>)
    requires layers != []
    ensures var rs := Records(bar, kind, state, center, layers);
            rs[1..] == Records(bar, kind, state, center, layers[1..])
            && rs[0] == Record(bar, kind, state, center, Some(layers[0]))
  {
  }

  lemma {:induction false} LayersOfRecords(
      opening: bool, bar: Bar, kind: ActionKind, state: State, center: Option<real>, layers: seq<Layer>)
    ensures LayersOf(opening, Records(bar, kind, state, center, layers))
         == if Selects(opening, kind) then layers else []
  {
    hide Records, Record;
    if layers != [] {
      var n := |layers| - 1;
      var rs := Records(bar, kind, state, center, layers);
      RecordsPrefix(bar, kind, state, center, layers);
      LayersOfRecords(opening, bar, kind, state, center, layers[..n]);
      assert |rs| - 1 == n && rs[n].kind == kind && rs[n].layer == Some(layers[n]) by {
        RecordShows(bar, kind, state, center, layers[n]);
      }
      assert layers[..n] + [layers[n]] == layers;
    }
  }

  predicate Closes(a: Action) {
    IsClosing(a.kind) && a.layer.Some?
  }

  lemma {:induction false} LayerIsListed(opening: bool, log: seq<Action>, i: nat)
    requires i < |log| && Selects(opening, log[i].kind) && log[i].layer.Some?
    ensures exists k :: 0 <= k < |LayersOf(opening, log)| && LayersOf(opening, log)[k] == log[i].layer.value
  {
    var n := |log| - 1;
    if i < n {
      LayerIsListed(opening, log[..n], i);
      var k :| 0 <= k < |LayersOf(opening, log[..n])| && LayersOf(opening, log[..n])[k] == log[i].layer.value;
      assert LayersOf(opening, log)[k] == log[i].layer.value;
    } else {
      assert LayersOf(opening, log)[|LayersOf(opening, log)| - 1] == log[i].layer.value;
    }
  }

  lemma LayersOfOne(opening: bool, a: Action)
    ensures LayersOf(opening, [a]) == if Selects(opening, a.kind) && a.layer.Some? then [a.layer.value] else []
  {
    assert [a][..0] == [];
  }

  ghost predicate NumberedFrom(layers: seq<Layer>, first: int) {
    forall i :: 0 <= i < |layers| ==> layers[i].id == first + i
  }

  function FirstActiveId(ctx: Context): int {
    ctx.nextId - |ctx.active|
  }

  /** What is closed and what is open afterwards is what was open before and what was opened, in this very order;
      only layers open before are closed; and what is opened gets the next ids. */
  ghost predicate Conserves(before: Context, o: Outcome) {
    && LayersOf(false, o.actions) + o.ctx.active == before.active + LayersOf(true, o.actions)
    && LayersOf(false, o.actions) <= before.active
    && NumberedFrom(LayersOf(true, o.actions), before.nextId)
    && o.ctx.nextId == before.nextId + |LayersOf(true, o.actions)|
  }

  lemma CloseAllConserves(ctx: Context, bar: Bar, to: State, kind: ActionKind)
    requires IsClosing(kind)
    ensures Conserves(ctx, CloseAll(ctx, bar, to, kind))
  {
    LayersOfRecords(true, bar, kind, to, ctx.center, ctx.active);
    LayersOfRecords(false, bar, kind, to, ctx.center, ctx.active);
  }

  lemma RollWeekConserves(cfg: Config, ctx: Context, bar: Bar)
    requires Inv(cfg, ctx)
    ensures Conserves(ctx, RollWeek(ctx, bar))
    ensures RollWeek(ctx, bar).actions != [] ==> RollWeek(ctx, bar).ctx.state == Idle
  {
    if ctx.active != [] {
      CloseAllConserves(ctx, bar, Exited, ExitWeek);
    }
  }

  lemma EnterConserves(cfg: Config, ctx: Context, bar: Bar)
    requires ctx.active == []
    ensures Conserves(ctx, Enter(cfg, ctx, bar))
    ensures LayersOf(false, Enter(cfg, ctx, bar).actions) == []
  {
    if bar.regime.eventBlocked && WithinEntryWindow(cfg, bar.stamp) {
      if !ctx.eventSkipped {
        var skip := Enter(cfg, ctx, bar).actions[0];
        LayersOfOne(true, skip);
        LayersOfOne(false, skip);
      }
    } else if bar.center.Some? && bar.regime.IsRange() && WithinEntryWindow(cfg, bar.stamp) {
      var center := bar.center.value.price;
      var layers := InitialLayers(cfg, center, bar.stamp, bar.stamp.Week(), ctx.nextId);
      LayersOfRecords(true, bar, DeployInitial, Active, Some(center), layers);
      LayersOfRecords(false, bar, DeployInitial, Active, Some(center), layers);
    }
  }

  lemma AdjustConserves(cfg: Config, ctx: Context, bar: Bar)
    ensures Conserves(ctx, Adjust(cfg, ctx, bar))
  {
    var layer := MakeLayer(cfg, Adjustment, bar.price, bar.stamp, bar.stamp.Week(), ctx.nextId);
    hide RoundStrike;
    LayersOfRecords(true, bar, AddAdjustment, Adjusted, ctx.center, [layer]);
    LayersOfRecords(false, bar, AddAdjustment, Adjusted, ctx.center, [layer]);
  }

  lemma ManageConserves(cfg: Config, ctx: Context, bar: Bar)
    ensures Conserves(ctx, Manage(cfg, ctx, bar))
  {
    var due := DueExit(cfg, ctx.deployedAt, bar.stamp);
    if bar.regime.IsTrend() {
      CloseAllConserves(ctx, bar, Aborted, Abort);
    } else if due.Some? {
      CloseAllConserves(ctx, bar, Exited, due.value);
    } else {
      AdjustConserves(cfg, ctx, bar);
    }
  }

  lemma ConservesComposes(ctx: Context, first: Outcome, second: Outcome)
    requires Conserves(ctx, first) && Conserves(first.ctx, second)
    requires LayersOf(false, second.actions) == [] || (first.actions == [] && first.ctx.active == ctx.active)
    ensures Conserves(ctx, Then(first, second))
  {
    LayersOfConcat(true, first.actions, second.actions);
    LayersOfConcat(false, first.actions, second.actions);
    ConcatChain(LayersOf(false, first.actions), first.ctx.active, ctx.active, LayersOf(true, first.actions),
                LayersOf(false, second.actions), second.ctx.active, LayersOf(true, second.actions));
  }

  lemma ConcatChain<T>(c1: seq<T>, mid: seq<T>, before: seq<T>, o1: seq<T>, c2: seq<T>, after: seq<T>, o2: seq<T>)
    requires c1 + mid == before + o1 && c2 + after == mid + o2
    ensures (c1 + c2) + after == before + (o1 + o2)
  {
    assert (c1 + c2) + after == c1 + (c2 + after);
    assert c1 + (mid + o2) == (c1 + mid) + o2;
    assert (before + o1) + o2 == before + (o1 + o2);
  }

  lemma StepConserves(cfg: Config, ctx: Context, bar: Bar)
    requires Inv(cfg, ctx)
    ensures Conserves(ctx, Step(cfg, ctx, bar))
  {
    var rolled := RollWeek(ctx, bar);
    RollWeekKeepsInv(cfg, ctx, bar);
    RollWeekConserves(cfg, ctx, bar);
    if rolled.ctx.state == Idle {
      EnterConserves(cfg, rolled.ctx, bar);
      ConservesComposes(ctx, rolled, Enter(cfg, rolled.ctx, bar));
    } else if rolled.ctx.active != [] {
      ManageConserves(cfg, rolled.ctx, bar);
      ConservesComposes(ctx, rolled, Manage(cfg, rolled.ctx, bar));
    }
  }

  /** Over a whole run the log opens layers with the ids 1, 2, 3, .. in this order; it closes an initial part of
      them, in the same order and with the shapes they were opened with; and the open layers are the rest. */
  lemma {:induction false} LogOpensAndClosesInOrder(cfg: Config, bars: seq<Bar>)
    ensures var r := Run(cfg, bars);
            && LayersOf(true, r.actions) == LayersOf(false, r.actions) + r.ctx.active
            && NumberedFrom(LayersOf(true, r.actions), 1)
            && r.ctx.nextId == 1 + |LayersOf(true, r.actions)|
  {
    if bars != [] {
      var before := bars[..|bars| - 1];
      var bar := bars[|bars| - 1];
      var r := Run(cfg, before);
      LogOpensAndClosesInOrder(cfg, before);
      RunKeepsInv(cfg, before);
      StepConserves(cfg, r.ctx, bar);
      ExtendHistory(r, Step(cfg, r.ctx, bar));
    }
  }

  lemma ExtendHistory(r: Outcome, step: Outcome)
    requires LayersOf(true, r.actions) == LayersOf(false, r.actions) + r.ctx.active
    requires NumberedFrom(LayersOf(true, r.actions), 1) && r.ctx.nextId == 1 + |LayersOf(true, r.actions)|
    requires Conserves(r.ctx, step)
    ensures var all := Then(r, step);
            && LayersOf(true, all.actions) == LayersOf(false, all.actions) + all.ctx.active
            && NumberedFrom(LayersOf(true, all.actions), 1)
            && all.ctx.nextId == 1 + |LayersOf(true, all.actions)|
  {
    LayersOfConcat(true, r.actions, step.actions);
    LayersOfConcat(false, r.actions, step.actions);
    ConcatChain(LayersOf(false, r.actions), r.ctx.active, [], LayersOf(true, r.actions),
                LayersOf(false, step.actions), step.ctx.active, LayersOf(true, step.actions));
  }

  // ---------- Folding the log ----------

  /** What a reader of the log knows: the ids open now, and the ids ever opened. */
  datatype Book = Book(open: set<int>, ever: set<int>)

  /** A record that opens a used id or closes an id that is not open makes the log unreadable. */
  function Replay(log: seq<Action>, book: Book): Option<Book> {
    if log == [] then Some(book)
    else
      var a := log[0];
      if a.layer == None || !(IsOpening(a.kind) || IsClosing(a.kind)) then Replay(log[1..], book)
      else
        var id := a.layer.value.id;
        if IsOpening(a.kind) then
          if id in book.ever then None else Replay(log[1..], Book(book.open + {id}, book.ever + {id}))
        else
          if id !in book.open then None else Replay(log[1..], Book(book.open - {id}, book.ever))
  }

  function IdSet(first: int, end: int): (ids: set<int>)
    ensures forall id :: id in ids <==> first <= id < end
    decreases end - first
  {
    if end <= first then {} else IdSet(first, end - 1) + {end - 1}
  }

  function BookOf(ctx: Context): Book {
    Book(IdSet(FirstActiveId(ctx), ctx.nextId), IdSet(1, ctx.nextId))
  }

  lemma {:induction false} ReplayConcat(a: seq<Action>, b: seq<Action>, book: Book)
    ensures Replay(a + b, book) ==
            match Replay(a, book) { case None => None case Some(mid) => Replay(b, mid) }
  {
    if a == [] {
      assert a + b == b;
    } else {
      assert (a + b)[1..] == a[1..] + b;
      var r := a[0];
      if r.layer == None || !(IsOpening(r.kind) || IsClosing(r.kind)) {
        ReplayConcat(a[1..], b, book);
      } else if IsOpening(r.kind) {
        ReplayConcat(a[1..], b, Book(book.open + {r.layer.value.id}, book.ever + {r.layer.value.id}));
      } else {
        ReplayConcat(a[1..], b, Book(book.open - {r.layer.value.id}, book.ever));
      }
    }
  }

  lemma {:induction false} ReplayOpening(
      bar: Bar, kind: ActionKind, state: State, center: Option<real>, layers: seq<Layer>, lo: int, next: int)
    requires IsOpening(kind) && 1 <= lo <= next
    requires forall i :: 0 <= i < |layers| ==> layers[i].id == next + i
    ensures Replay(Records(bar, kind, state, center, layers), Book(IdSet(lo, next), IdSet(1, next))) ==
            Some(Book(IdSet(lo, next + |layers|), IdSet(1, next + |layers|)))
  {
    if layers != [] {
      RecordsTail(bar, kind, state, center, layers);
      assert IdSet(lo, next) + {next} == IdSet(lo, next + 1);
      assert IdSet(1, next) + {next} == IdSet(1, next + 1);
      ReplayOpening(bar, kind, state, center, layers[1..], lo, next + 1);
    }
  }

  lemma {:induction false} ReplayClosing(
      bar: Bar, kind: ActionKind, state: State, center: Option<real>, layers: seq<Layer>, lo: int, next: int)
    requires IsClosing(kind) && lo + |layers| == next
    requires forall i :: 0 <= i < |layers| ==> layers[i].id == lo + i
    ensures Replay(Records(bar, kind, state, center, layers), Book(IdSet(lo, next), IdSet(1, next))) ==
            Some(Book(IdSet(next, next), IdSet(1, next)))
  {
    if layers != [] {
      RecordsTail(bar, kind, state, center, layers);
      assert IdSet(lo, next) - {lo} == IdSet(lo + 1, next);
      ReplayClosing(bar, kind, state, center, layers[1..], lo + 1, next);
    }
  }

  lemma ReplayRollWeek(cfg: Config, ctx: Context, bar: Bar)
    requires Inv(cfg, ctx)
    ensures Replay(RollWeek(ctx, bar).actions, BookOf(ctx)) == Some(BookOf(RollWeek(ctx, bar).ctx))
  {
    if RollWeek(ctx, bar).actions != [] {
      ReplayClosing(bar, ExitWeek, Exited, ctx.center, ctx.active, FirstActiveId(ctx), ctx.nextId);
    }
  }

  lemma ReplayEnter(cfg: Config, ctx: Context, bar: Bar)
    requires Inv(cfg, ctx) && ctx.state == Idle
    ensures Replay(Enter(cfg, ctx, bar).actions, BookOf(ctx)) == Some(BookOf(Enter(cfg, ctx, bar).ctx))
  {
    var o := Enter(cfg, ctx, bar);
    if o.actions != [] && bar.regime.eventBlocked {
      assert o.actions[1..] == [];
    } else if o.actions != [] {
      var center := bar.center.value.price;
      var layers := InitialLayers(cfg, center, bar.stamp, bar.stamp.Week(), ctx.nextId);
      ReplayOpening(bar, DeployInitial, Active, Some(center), layers, FirstActiveId(ctx), ctx.nextId);
    }
  }

  lemma ReplayManage(cfg: Config, ctx: Context, bar: Bar)
    requires Inv(cfg, ctx) && Open(ctx)
    ensures Replay(Manage(cfg, ctx, bar).actions, BookOf(ctx)) == Some(BookOf(Manage(cfg, ctx, bar).ctx))
  {
    hide RoundStrike, BusinessDays;
    var due := DueExit(cfg, ctx.deployedAt, bar.stamp);
    if bar.regime.IsTrend() || due.Some? {
      var kind := if bar.regime.IsTrend() then Abort else due.value;
      var to := if bar.regime.IsTrend() then Aborted else Exited;
      ReplayClosing(bar, kind, to, ctx.center, ctx.active, FirstActiveId(ctx), ctx.nextId);
    } else if Manage(cfg, ctx, bar).actions != [] {
      var layer := MakeLayer(cfg, Adjustment, bar.price, bar.stamp, bar.stamp.Week(), ctx.nextId);
      ReplayOpening(bar, AddAdjustment, Adjusted, ctx.center, [layer], FirstActiveId(ctx), ctx.nextId);
    }
  }

  lemma StepReplays(cfg: Config, ctx: Context, bar: Bar)
    requires Inv(cfg, ctx)
    ensures Replay(Step(cfg, ctx, bar).actions, BookOf(ctx)) == Some(BookOf(Step(cfg, ctx, bar).ctx))
  {
    var rolled := RollWeek(ctx, bar);
    RollWeekKeepsInv(cfg, ctx, bar);
    ReplayRollWeek(cfg, ctx, bar);
    if rolled.ctx.state == Idle {
      ReplayEnter(cfg, rolled.ctx, bar);
      ReplayConcat(rolled.actions, Enter(cfg, rolled.ctx, bar).actions, BookOf(ctx));
    } else if rolled.ctx.active != [] {
      ReplayManage(cfg, rolled.ctx, bar);
      ReplayConcat(rolled.actions, Manage(cfg, rolled.ctx, bar).actions, BookOf(ctx));
    }
  }

  ghost function ActiveIds(ctx: Context): set<int> {
    set i | 0 <= i < |ctx.active| :: ctx.active[i].id
  }

  lemma BookHoldsActiveIds(cfg: Config, ctx: Context)
    requires Inv(cfg, ctx)
    ensures BookOf(ctx).open == ActiveIds(ctx)
  {
    forall id | id in BookOf(ctx).open
      ensures id in ActiveIds(ctx)
    {
      assert ctx.active[id - FirstActiveId(ctx)].id == id;
    }
  }

  /** The log of a run is readable from the start, and folding it gives exactly the ids that are open:
      every id is opened once, and closed at most once and only while it is open. */
  lemma {:induction false} LogReplaysToActiveLayers(cfg: Config, bars: seq<Bar>)
    ensures var r := Run(cfg, bars);
            && Replay(r.actions, Book({}, {})) == Some(BookOf(r.ctx))
            && BookOf(r.ctx).open == ActiveIds(r.ctx)
  {
    RunKeepsInv(cfg, bars);
    BookHoldsActiveIds(cfg, Run(cfg, bars).ctx);
    assert BookOf(INITIAL_CONTEXT) == Book({}, {});
    if bars != [] {
      var before := bars[..|bars| - 1];
      LogReplaysToActiveLayers(cfg, before);
      RunKeepsInv(cfg, before);
      var mid := Run(cfg, before);
      var last := Step(cfg, mid.ctx, bars[|bars| - 1]);
      StepReplays(cfg, mid.ctx, bars[|bars| - 1]);
      ReplayConcat(mid.actions, last.actions, Book({}, {}));
    }
  }
}
