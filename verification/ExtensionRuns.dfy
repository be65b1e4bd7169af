/** Callers that share an idempotency key and interleave at every awaited call: the database insert decides
    which of them works, and the others return its run. */
module ExtensionRuns {

  type RunKey = string

  /** A caller is numbered by the id of the run it would insert: ids are fresh. */
  type Caller = nat

  /** `adopts` is what `process_ai_review` does and `run_extension_action` does not: a caller that loses the
      insert to a running run without a log works on that run itself. */
  datatype Protocol = Protocol(keys: seq<RunKey>, adopts: bool)

  datatype RowStatus = Running | Succeeded | Failed

  datatype Row = Row(owner: Caller, status: RowStatus)

  /** Where a caller is, at one of its awaited calls. */
  datatype Pc =
    | AtLookup
    | AtPrepare
    | AtInsert
    | AtWork
    | AtAction
    | AtSave
    | AtFailure
    | AtAudit
    | Returned(run: Caller)
    | Raised

  /** How the call goes: it returns, it raises before or after its effect, or, after the last GitHub action, the
      caller moves on to save the run. */
  datatype Way = Returns | RaisesBefore | RaisesAfter | MovesOn

  datatype Event = Event(caller: Caller, way: Way)

  /** The rows, every caller's place, and the history of runner calls and of GitHub actions. */
  datatype System = System(rows: map<RunKey, Row>, pcs: seq<Pc>, work: seq<Caller>, actions: seq<Caller>)

  function Init(p: Protocol): System {
    System(map[], seq(|p.keys|, _ => AtLookup), [], [])
  }

  /** Saving a run: the row under its key changes only for its own id. */
  function SaveRow(rows: map<RunKey, Row>, key: RunKey, row: Row): map<RunKey, Row> {
    if key in rows && rows[key].owner != row.owner then rows else rows[key := row]
  }

  /** One awaited call of one caller. */
  function Next(p: Protocol, s: System, e: Event): System
    requires |s.pcs| == |p.keys|
  {
    var i := e.caller;
    if i >= |p.keys| then s
    else
      var key := p.keys[i];
      var failed := e.way == RaisesBefore || e.way == RaisesAfter;
      match s.pcs[i]
      case AtLookup => At(s, i, if failed then Raised else if key in s.rows then Returned(s.rows[key].owner) else AtPrepare)
      case AtPrepare => At(s, i, if failed then Raised else AtInsert)
      case AtInsert =>
        if e.way == RaisesBefore then At(s, i, Raised)
        else
          var inserted := s.(rows := SaveRow(s.rows, key, Row(i, Running)));
          var stored := inserted.rows[key];
          if e.way == RaisesAfter then At(inserted, i, Raised)
          else if stored.owner != i && !(p.adopts && stored.status == Running) then At(inserted, i, Returned(stored.owner))
          else At(inserted, i, AtWork)
      case AtWork => At(s.(work := s.work + [i]), i, if failed then AtFailure else AtAction)
      case AtAction =>
        if e.way == MovesOn then At(s, i, AtSave)
        else At(s.(actions := s.actions + [i]), i, if failed then AtFailure else AtAction)
      case AtSave =>
        if e.way == RaisesBefore then At(s, i, AtFailure)
        else At(s.(rows := SaveRow(s.rows, key, Row(i, Succeeded))), i, if failed then AtFailure else AtAudit)
      case AtFailure =>
        At(if e.way == RaisesBefore then s else s.(rows := SaveRow(s.rows, key, Row(i, Failed))), i, Raised)
      case AtAudit => At(s, i, if failed then Raised else Returned(i))
      case Returned(_) => s
      case Raised => s
  }

  function At(s: System, i: Caller, pc: Pc): System
    requires i < |s.pcs|
  {
    s.(pcs := s.pcs[i := pc])
  }

  /** The state after any interleaving. */
  function Exec(p: Protocol, events: seq<Event>): (s: System)
    ensures |s.pcs| == |p.keys|
  {
    if events == [] then Init(p) else Next(p, Exec(p, events[..|events| - 1]), events[|events| - 1])
  }

  // ---------------------------------------------------------------- the winner works alone

  predicate Working(pc: Pc) {
    pc == AtWork || pc == AtAction || pc == AtSave || pc == AtFailure || pc == AtAudit
  }

  /** Before its runner call. */
  predicate Fresh(pc: Pc) {
    pc == AtLookup || pc == AtPrepare || pc == AtInsert || pc == AtWork
  }

  /** The caller's own run is the one stored under its key. */
  predicate Owns(p: Protocol, s: System, i: Caller) {
    i < |p.keys| && p.keys[i] in s.rows && s.rows[p.keys[i]].owner == i
  }

  ghost predicate Workers(p: Protocol, s: System) {
    forall i :: 0 <= i < |s.pcs| && Working(s.pcs[i]) ==> Owns(p, s, i)
  }

  ghost predicate Answers(p: Protocol, s: System)
    requires |s.pcs| == |p.keys|
  {
    forall i :: 0 <= i < |s.pcs| && s.pcs[i].Returned? ==>
      p.keys[i] in s.rows && s.rows[p.keys[i]].owner == s.pcs[i].run
  }

  ghost predicate Worked(p: Protocol, s: System)
    requires |s.pcs| == |p.keys|
  {
    && (forall n :: 0 <= n < |s.work| ==> Owns(p, s, s.work[n]) && !Fresh(s.pcs[s.work[n]]))
    && (forall m, n :: 0 <= m < n < |s.work| ==> s.work[m] != s.work[n])
  }

  ghost predicate Acted(p: Protocol, s: System) {
    forall n :: 0 <= n < |s.actions| ==> Owns(p, s, s.actions[n])
  }

  ghost predicate Inv(p: Protocol, s: System) {
    |s.pcs| == |p.keys| && Workers(p, s) && Answers(p, s) && Worked(p, s) && Acted(p, s)
  }

  /** A stored run keeps its owner. */
  lemma NextOwners(p: Protocol, s: System, e: Event)
    requires |s.pcs| == |p.keys|
    ensures var s' := Next(p, s, e);
            && |s'.pcs| == |s.pcs|
            && (forall key :: key in s.rows ==> key in s'.rows && s'.rows[key].owner == s.rows[key].owner)
            && (forall i :: 0 <= i < |s.pcs| && i != e.caller ==> s'.pcs[i] == s.pcs[i])
  {
  }

  /** The caller that moves works only on a run of its own, and returns only the stored one. */
  lemma NextCaller(p: Protocol, s: System, e: Event)
    requires !p.adopts && Inv(p, s) && e.caller < |p.keys|
    ensures var i, s' := e.caller, Next(p, s, e);
            && (Working(s'.pcs[i]) ==> Owns(p, s', i))
            && (s'.pcs[i].Returned? ==> p.keys[i] in s'.rows && s'.rows[p.keys[i]].owner == s'.pcs[i].run)
            && (s'.work == s.work || (s'.work == s.work + [i] && s.pcs[i] == AtWork && Owns(p, s', i)))
            && (s'.actions == s.actions || (s'.actions == s.actions + [i] && Owns(p, s', i)))
            && (!Fresh(s.pcs[i]) || s.pcs[i] == AtWork ==> !Fresh(s'.pcs[i]))
  {
    assert Working(s.pcs[e.caller]) ==> Owns(p, s, e.caller);
    hide Workers, Answers, Worked, Acted;
  }

  lemma NextKeeps(p: Protocol, s: System, e: Event)
    requires !p.adopts && Inv(p, s)
    ensures Inv(p, Next(p, s, e))
  {
    if e.caller < |p.keys| {
      NextOwners(p, s, e);
      NextCaller(p, s, e);
      var i, s' := e.caller, Next(p, s, e);
      hide Next, Working, Fresh;
      WorkKeeps(p, s, s', i);
    }
  }

  lemma WorkKeeps(p: Protocol, s: System, s': System, i: Caller)
    requires |s.pcs| == |p.keys| == |s'.pcs| && i < |s.pcs| && Worked(p, s)
    requires forall key :: key in s.rows ==> key in s'.rows && s'.rows[key].owner == s.rows[key].owner
    requires forall j :: j != i && 0 <= j < |s.pcs| ==> s'.pcs[j] == s.pcs[j]
    requires s'.work == s.work || (s'.work == s.work + [i] && s.pcs[i] == AtWork && Owns(p, s', i))
    requires !Fresh(s.pcs[i]) || s.pcs[i] == AtWork ==> !Fresh(s'.pcs[i])
    ensures Worked(p, s')
  {
    forall n | 0 <= n < |s.work| ensures Owns(p, s', s.work[n]) && !Fresh(s'.pcs[s.work[n]]) {
      assert Owns(p, s, s.work[n]);
    }
  }

  lemma {:induction false} ExecKeeps(p: Protocol, events: seq<Event>)
    requires !p.adopts
    ensures Inv(p, Exec(p, events))
  {
    if events != [] {
      ExecKeeps(p, events[..|events| - 1]);
      NextKeeps(p, Exec(p, events[..|events| - 1]), events[|events| - 1]);
    }
  }

  /** Once stored, the run under a key is never another one. */
  lemma {:induction false} RowStays(p: Protocol, events: seq<Event>, more: seq<Event>, key: RunKey)
    requires key in Exec(p, events).rows
    ensures key in Exec(p, events + more).rows
    ensures Exec(p, events + more).rows[key].owner == Exec(p, events).rows[key].owner
    decreases |more|
  {
    if more == [] {
      assert events + more == events;
    } else {
      RowStays(p, events, more[..|more| - 1], key);
      assert (events + more)[..|events + more| - 1] == events + more[..|more| - 1];
      hide Exec;
    }
  }

  /** At most one runner call per key, in every interleaving of any number of callers: it is made by the caller
      whose insert won. */
  lemma RunnerCalledOnce(p: Protocol, events: seq<Event>, m: nat, n: nat)
    requires !p.adopts && m < n < |Exec(p, events).work|
    ensures var s := Exec(p, events);
            && s.work[m] < |p.keys| && s.work[n] < |p.keys|
            && p.keys[s.work[m]] != p.keys[s.work[n]]
  {
    ExecKeeps(p, events);
    var s := Exec(p, events);
    assert Owns(p, s, s.work[m]) && Owns(p, s, s.work[n]);
  }

  /** Only the winner acts on GitHub. */
  lemma OnlyWinnerActs(p: Protocol, events: seq<Event>, n: nat)
    requires !p.adopts && n < |Exec(p, events).actions|
    ensures Owns(p, Exec(p, events), Exec(p, events).actions[n])
  {
    ExecKeeps(p, events);
  }

  /** Every caller that returns a run returns the winner's, and so all callers of a key return the same one. */
  lemma EveryoneReturnsTheWinner(p: Protocol, events: seq<Event>, i: Caller)
    requires !p.adopts && i < |p.keys| && Exec(p, events).pcs[i].Returned?
    ensures var s := Exec(p, events);
            p.keys[i] in s.rows && s.rows[p.keys[i]].owner == s.pcs[i].run && s.pcs[i].run < |p.keys|
            && p.keys[s.pcs[i].run] == p.keys[i]
  {
    ExecKeeps(p, events);
    RowsAreCallers(p, events, p.keys[i]);
  }

  lemma {:induction false} RowsAreCallers(p: Protocol, events: seq<Event>, key: RunKey)
    requires key in Exec(p, events).rows
    ensures var owner := Exec(p, events).rows[key].owner; owner < |p.keys| && p.keys[owner] == key
  {
    if events != [] {
      var init := events[..|events| - 1];
      if key in Exec(p, init).rows {
        RowsAreCallers(p, init, key);
      }
    }
  }

  // ---------------------------------------------------------------- what callers achieve

  /** The state after one caller's calls go these ways, while the others wait. */
  function Alone(p: Protocol, s: System, i: Caller, ways: seq<Way>): (s': System)
    requires |s.pcs| == |p.keys|
    ensures |s'.pcs| == |p.keys|
  {
    if ways == [] then s else Next(p, Alone(p, s, i, ways[..|ways| - 1]), Event(i, ways[|ways| - 1]))
  }

  lemma AloneThen(p: Protocol, s: System, i: Caller, ways: seq<Way>, way: Way)
    requires |s.pcs| == |p.keys|
    ensures Alone(p, s, i, ways + [way]) == Next(p, Alone(p, s, i, ways), Event(i, way))
  {
    assert (ways + [way])[..|ways|] == ways;
  }

  function Times<T>(x: T, n: nat): seq<T> {
    seq(n, _ => x)
  }

  lemma {:induction false} AloneActs(p: Protocol, s: System, i: Caller, ways: seq<Way>, n: nat)
    requires |s.pcs| == |p.keys| && i < |p.keys| && Alone(p, s, i, ways).pcs[i] == AtAction
    ensures var before := Alone(p, s, i, ways);
            Alone(p, s, i, ways + Times(Returns, n)) == before.(actions := before.actions + Times(i, n))
  {
    var before := Alone(p, s, i, ways);
    if n == 0 {
      assert ways + Times(Returns, 0) == ways && before.actions + Times(i, 0) == before.actions;
    } else {
      AloneActs(p, s, i, ways, n - 1);
      AloneThen(p, s, i, ways + Times(Returns, n - 1), Returns);
      assert ways + Times(Returns, n - 1) + [Returns] == ways + Times(Returns, n);
      assert before.actions + Times(i, n - 1) + [i] == before.actions + Times(i, n);
      assert before.pcs[i := AtAction] == before.pcs;
      hide Alone;
    }
  }

  lemma StartsWork(p: Protocol, s: System, i: Caller)
    requires |s.pcs| == |p.keys| && i < |p.keys| && s.pcs[i] == AtLookup && p.keys[i] !in s.rows
    ensures Alone(p, s, i, Times(Returns, 4)) ==
            System(s.rows[p.keys[i] := Row(i, Running)], s.pcs[i := AtAction], s.work + [i], s.actions)
  {
    var start: seq<Way> := [];
    assert Times(Returns, 4) == start + [Returns] + [Returns] + [Returns] + [Returns];
    assert Alone(p, s, i, start) == s;
    AloneThen(p, s, i, start, Returns);
    AloneThen(p, s, i, start + [Returns], Returns);
    AloneThen(p, s, i, start + [Returns] + [Returns], Returns);
    AloneThen(p, s, i, start + [Returns] + [Returns] + [Returns], Returns);
    hide Alone;
  }

  lemma EndsWork(p: Protocol, s: System, i: Caller, ways: seq<Way>)
    requires |s.pcs| == |p.keys| && i < |p.keys| && Alone(p, s, i, ways).pcs == s.pcs[i := AtAction] && Owns(p, Alone(p, s, i, ways), i)
    ensures var before := Alone(p, s, i, ways);
            Alone(p, s, i, ways + [MovesOn] + [Returns] + [Returns]) ==
            before.(rows := before.rows[p.keys[i] := Row(i, Succeeded)], pcs := s.pcs[i := Returned(i)])
  {
    AloneThen(p, s, i, ways, MovesOn);
    AloneThen(p, s, i, ways + [MovesOn], Returns);
    AloneThen(p, s, i, ways + [MovesOn] + [Returns], Returns);
    hide Alone;
  }

  /** The calls of a caller that finds no run under its key and meets no error: it runs the runner, acts `n` times, saves
      its run as succeeded and returns it. */
  lemma WinnerFinishes(p: Protocol, s: System, i: Caller, n: nat)
    requires |s.pcs| == |p.keys| && i < |p.keys| && s.pcs[i] == AtLookup && p.keys[i] !in s.rows
    ensures Alone(p, s, i, Times(Returns, 4) + Times(Returns, n) + [MovesOn] + [Returns] + [Returns]) ==
            System(s.rows[p.keys[i] := Row(i, Succeeded)], s.pcs[i := Returned(i)], s.work + [i], s.actions + Times(i, n))
  {
    hide Alone, Next, Times;
    StartsWork(p, s, i);
    AloneActs(p, s, i, Times(Returns, 4), n);
    EndsWork(p, s, i, Times(Returns, 4) + Times(Returns, n));
    assert s.rows[p.keys[i] := Row(i, Running)][p.keys[i] := Row(i, Succeeded)] == s.rows[p.keys[i] := Row(i, Succeeded)];
  }

  /** A caller that meets another's run, at its lookup or at its insert, returns it and changes nothing. */
  lemma LoserReturns(p: Protocol, s: System, i: Caller)
    requires |s.pcs| == |p.keys| && i < |p.keys| && p.keys[i] in s.rows && s.rows[p.keys[i]].owner != i
    requires s.pcs[i] == AtLookup || (s.pcs[i] == AtInsert && (!p.adopts || s.rows[p.keys[i]].status != Running))
    ensures Next(p, s, Event(i, Returns)) == s.(pcs := s.pcs[i := Returned(s.rows[p.keys[i]].owner)])
  {
  }

  /** A runner or action that raises ends in a raise, with the caller's own run saved as failed if that save takes effect. */
  lemma FailureIsSaved(p: Protocol, s: System, i: Caller, raised: Way, way: Way)
    requires |s.pcs| == |p.keys| && Owns(p, s, i) && (s.pcs[i] == AtWork || s.pcs[i] == AtAction)
    requires raised == RaisesBefore || raised == RaisesAfter
    ensures var s' := Next(p, Next(p, s, Event(i, raised)), Event(i, way));
            && s'.pcs == s.pcs[i := Raised]
            && s'.rows == if way == RaisesBefore then s.rows else s.rows[p.keys[i] := Row(i, Failed)]
  {
  }

  // ---------------------------------------------------------------- adopting callers

  lemma ExecSnoc(p: Protocol, events: seq<Event>, e: Event)
    ensures Exec(p, events + [e]) == Next(p, Exec(p, events), e)
  {
    assert (events + [e])[..|events|] == events;
  }

  /** When a second worker arises: a caller starts to work on a run that is not its own exactly when the protocol lets
      losers adopt and its insert, before it raises, meets another caller's row that is still running. */
  lemma SecondWorkerWhen(p: Protocol, s: System, e: Event)
    requires |s.pcs| == |p.keys| && e.caller < |p.keys| && s.pcs[e.caller] != AtWork
    ensures var i, key, s' := e.caller, p.keys[e.caller], Next(p, s, e);
            s'.pcs[i] == AtWork && !Owns(p, s', i) <==>
              && p.adopts && s.pcs[i] == AtInsert && (e.way == Returns || e.way == MovesOn)
              && key in s.rows && s.rows[key].owner != i && s.rows[key].status == Running
  {
  }

  /** Adoption breaks this: two overlapping review requests under one key both look it up before either inserts,
      the loser adopts the winner's running run, and both go on to review. */
  lemma AdoptersBothWork(key: RunKey) returns (events: seq<Event>)
    ensures Exec(Protocol([key, key], true), events).work == [0, 1]
  {
    var p, a, b := Protocol([key, key], true), Event(0, Returns), Event(1, Returns);
    var row := map[key := Row(0, Running)];
    events := [];
    assert Exec(p, events) == Init(p);
    hide Exec;
    assert Init(p) == System(map[], [AtLookup, AtLookup], [], []);
    events := Then(p, events, a, System(map[], [AtPrepare, AtLookup], [], []));
    events := Then(p, events, b, System(map[], [AtPrepare, AtPrepare], [], []));
    events := Then(p, events, a, System(map[], [AtInsert, AtPrepare], [], []));
    events := Then(p, events, b, System(map[], [AtInsert, AtInsert], [], []));
    events := Then(p, events, a, System(row, [AtWork, AtInsert], [], []));
    events := Then(p, events, b, System(row, [AtWork, AtWork], [], []));
    events := Then(p, events, a, System(row, [AtAction, AtWork], [0], []));
    events := Then(p, events, b, System(row, [AtAction, AtAction], [0, 1], []));
  }

  lemma Then(p: Protocol, events: seq<Event>, e: Event, s: System) returns (longer: seq<Event>)
    requires Next(p, Exec(p, events), e) == s
    ensures longer == events + [e] && Exec(p, longer) == s
  {
    longer := events + [e];
    ExecSnoc(p, events, e);
  }
}
