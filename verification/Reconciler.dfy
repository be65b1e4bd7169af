/** One reconciler of a repository's Jenkins folder: a bounded-retry protocol over observations it
    cannot trust to be current. */
module Reconciler {
  import opened Text

  /** The class Jenkins reports for an item; `None` is an absent item. */
  datatype ItemClass = Workflow | Folder | Other

  datatype Request = ReadRepository | ReadLegacy | Rename | Create | Pause(attempt: nat)

  /** `Refused` is an HTTP failure, `Broken` any other error, including an unreadable item state. */
  datatype Reply = Saw(item: Option<ItemClass>) | Accepted | Refused | Broken

  datatype Event = Event(request: Request, reply: Reply)

  const ATTEMPTS: nat := 6

  // ---------------------------------------------------------------- the protocol as a state machine

  datatype Pc =
    | AtStart
    | AtFirstLegacy
    | AtRename
    | AtSettleRepository(attempt: nat)
    | AtSettleLegacy(attempt: nat, current: Option<ItemClass>)
    | AtSettlePause(attempt: nat)
    | AtCreateRead(attempt: nat)
    | AtCreate(attempt: nat)
    | AtCreatePause(attempt: nat)
    | AtLast
    | Returned
    | Raised

  /** The next request, if the reconciler is still running. */
  function NextRequest(pc: Pc): Option<Request> {
    match pc
    case AtStart => Some(ReadRepository)
    case AtFirstLegacy => Some(ReadLegacy)
    case AtRename => Some(Rename)
    case AtSettleRepository(_) => Some(ReadRepository)
    case AtSettleLegacy(_, _) => Some(ReadLegacy)
    case AtSettlePause(a) => Some(Pause(a))
    case AtCreateRead(_) => Some(ReadRepository)
    case AtCreate(_) => Some(Create)
    case AtCreatePause(a) => Some(Pause(a))
    case AtLast => Some(ReadRepository)
    case Returned => None
    case Raised => None
  }

  function Advance(pc: Pc, reply: Reply): Pc {
    match pc
    case AtStart =>
      if !reply.Saw? then Raised
      else if reply.item == Some(Folder) then Returned
      else if reply.item == None then AtCreateRead(0)
      else if reply.item == Some(Workflow) then AtFirstLegacy
      else Raised
    case AtFirstLegacy =>
      if !reply.Saw? then Raised
      else if reply.item == Some(Workflow) then AtSettleRepository(0)
      else if reply.item == None then AtRename
      else Raised
    case AtRename => if reply.Accepted? then AtSettleRepository(0) else Raised
    case AtSettleRepository(a) => if reply.Saw? then AtSettleLegacy(a, reply.item) else Raised
    case AtSettleLegacy(a, current) =>
      if !reply.Saw? then Raised
      else if current == Some(Folder) then Returned
      else if current == None && reply.item == Some(Workflow) then AtCreateRead(0)
      else if current != None && current != Some(Workflow) then Raised
      else if reply.item != None && reply.item != Some(Workflow) then Raised
      else AtSettlePause(a)
    case AtSettlePause(a) => if a + 1 < ATTEMPTS then AtSettleRepository(a + 1) else Raised
    case AtCreateRead(a) =>
      if !reply.Saw? then Raised
      else if reply.item == Some(Folder) then Returned
      else if reply.item == None then AtCreate(a)
      else Raised
    case AtCreate(a) => if reply.Accepted? || reply.Refused? then AtCreatePause(a) else Raised
    case AtCreatePause(a) => if a + 1 < ATTEMPTS then AtCreateRead(a + 1) else AtLast
    case AtLast => if reply == Saw(Some(Folder)) then Returned else Raised
    case Returned => Returned
    case Raised => Raised
  }

  /** Where the protocol stands after `log`, if the log is one it can produce. */
  function After(log: seq<Event>): Option<Pc> {
    if log == [] then Some(AtStart)
    else match After(log[..|log| - 1])
      case None => None
      case Some(pc) =>
        if NextRequest(pc) == Some(log[|log| - 1].request) then Some(Advance(pc, log[|log| - 1].reply)) else None
  }

  lemma AfterSnoc(log: seq<Event>, e: Event)
    ensures After(log + [e]) == match After(log)
                                case None => None
                                case Some(pc) =>
                                  if NextRequest(pc) == Some(e.request) then Some(Advance(pc, e.reply)) else None
  {
    assert (log + [e])[..|log|] == log;
  }

  // ---------------------------------------------------------------- the reconciler itself

  /** `replies(n)` answers the n-th request, whatever it is. */
  method Ask(request: Request, replies: nat -> Reply, log0: seq<Event>) returns (reply: Reply, log: seq<Event>)
    ensures reply == replies(|log0|) && log == log0 + [Event(request, reply)]
    ensures After(log) == match After(log0)
                          case None => None
                          case Some(pc) =>
                            if NextRequest(pc) == Some(request) then Some(Advance(pc, reply)) else None
  {
    reply := replies(|log0|);
    log := log0 + [Event(request, reply)];
    AfterSnoc(log0, Event(request, reply));
  }

  ghost predicate Answers(log: seq<Event>, replies: nat -> Reply) {
    forall i :: 0 <= i < |log| ==> log[i].reply == replies(i)
  }

  /** What one settle attempt sees at the two paths. */
  datatype Look = Look(current: Option<ItemClass>, legacy: Option<ItemClass>)

  /** Nothing unexpected is there, but the job is not yet at the legacy path alone. */
  predicate Unsettled(look: Look) {
    && (look.current == None || look.current == Some(Workflow)) && (look.legacy == None || look.legacy == Some(Workflow))
    && !(look.current == None && look.legacy == Some(Workflow))
  }

  // What the replies must be for a normal return, read off from the requests they answer.

  /** From reply `n` on the folder is seen, after at most `creates` attempts that find the path empty and whose create
      Jenkins accepts or refuses; each attempt takes three replies. */
  predicate FolderComes(replies: nat -> Reply, n: nat, creates: nat)
    decreases creates
  {
    || replies(n) == Saw(Some(Folder))
    || (creates > 0 && replies(n) == Saw(None) && (replies(n + 1) == Accepted || replies(n + 1) == Refused)
        && FolderComes(replies, n + 3, creates - 1))
  }

  /** From reply `n` on one of `attempts` looks at both paths ends the waiting: it sees a rival's folder, or the job at
      the legacy path alone, whereupon the folder comes; and every look before it sees nothing unexpected. */
  predicate MigrationSettles(replies: nat -> Reply, n: nat, attempts: nat)
    decreases attempts
  {
    && attempts > 0 && replies(n).Saw? && replies(n + 1).Saw?
    && if replies(n).item == Some(Folder) then true
       else if replies(n).item == None && replies(n + 1).item == Some(Workflow) then FolderComes(replies, n + 2, 6)
       else Unsettled(Look(replies(n).item, replies(n + 1).item)) && MigrationSettles(replies, n + 3, attempts - 1)
  }

  /** The folder is there at once; or the path is empty and the folder comes; or a job is there, which is already at the
      legacy path as well or is renamed, and the migration settles. */
  predicate Reconciled(replies: nat -> Reply) {
    || replies(0) == Saw(Some(Folder))
    || (replies(0) == Saw(None) && FolderComes(replies, 1, 6))
    || (replies(0) == Saw(Some(Workflow)) && replies(1) == Saw(Some(Workflow)) && MigrationSettles(replies, 2, 6))
    || (replies(0) == Saw(Some(Workflow)) && replies(1) == Saw(None) && replies(2) == Accepted && MigrationSettles(replies, 3, 6))
  }

  /** The second loop: create the folder until it is seen. */
  method CreateFolder(replies: nat -> Reply, log0: seq<Event>) returns (returned: bool, log: seq<Event>)
    requires After(log0) == Some(AtCreateRead(0)) && Answers(log0, replies)
    ensures After(log) == Some(if returned then Returned else Raised) && Answers(log, replies)
    ensures returned <==> FolderComes(replies, |log0|, 6)
  {
    hide After;
    log := log0;
    var reply: Reply;
    for attempt := 0 to ATTEMPTS
      invariant After(log) == Some(if attempt < ATTEMPTS then AtCreateRead(attempt) else AtLast) && Answers(log, replies)
      invariant FolderComes(replies, |log0|, 6) <==> FolderComes(replies, |log|, 6 - attempt)
    {
      reply, log := Ask(ReadRepository, replies, log);
      if !reply.Saw? { return false, log; }
      if reply.item == Some(Folder) { return true, log; }
      if reply.item != None { return false, log; }
      reply, log := Ask(Create, replies, log);
      if !reply.Accepted? && !reply.Refused? { return false, log; }
      reply, log := Ask(Pause(attempt), replies, log);
    }
    reply, log := Ask(ReadRepository, replies, log);
    return reply == Saw(Some(Folder)), log;
  }

  datatype Settled = Migrated | FolderThere | GaveUp

  /** The first loop: wait until the job is seen at the legacy path and nowhere else. */
  method AwaitMigration(replies: nat -> Reply, log0: seq<Event>) returns (settled: Settled, log: seq<Event>)
    requires After(log0) == Some(AtSettleRepository(0)) && Answers(log0, replies)
    ensures Answers(log, replies)
    ensures After(log) == Some(match settled
                               case Migrated => AtCreateRead(0)
                               case FolderThere => Returned
                               case GaveUp => Raised)
    ensures MigrationSettles(replies, |log0|, 6) <==>
              match settled
              case Migrated => FolderComes(replies, |log|, 6)
              case FolderThere => true
              case GaveUp => false
  {
    hide After, FolderComes;
    log := log0;
    var reply: Reply;
    for attempt := 0 to ATTEMPTS
      invariant After(log) == Some(if attempt < ATTEMPTS then AtSettleRepository(attempt) else Raised) && Answers(log, replies)
      invariant MigrationSettles(replies, |log0|, 6) <==> MigrationSettles(replies, |log|, 6 - attempt)
    {
      reply, log := Ask(ReadRepository, replies, log);
      if !reply.Saw? { return GaveUp, log; }
      var current := reply.item;
      reply, log := Ask(ReadLegacy, replies, log);
      if !reply.Saw? { return GaveUp, log; }
      var legacy := reply.item;
      if current == Some(Folder) { return FolderThere, log; }
      if current == None && legacy == Some(Workflow) { return Migrated, log; }
      if current != None && current != Some(Workflow) { return GaveUp, log; }
      if legacy != None && legacy != Some(Workflow) { return GaveUp, log; }
      reply, log := Ask(Pause(attempt), replies, log);
    }
    return GaveUp, log;
  }

  /** The whole reconciliation, against any sequence of replies. */
  method EnsureRepositoryFolder(replies: nat -> Reply) returns (returned: bool, log: seq<Event>)
    ensures After(log) == Some(if returned then Returned else Raised) && Answers(log, replies)
    ensures returned <==> Reconciled(replies)
  {
    assert After([]) == Some(AtStart);
    hide After, FolderComes, MigrationSettles;
    log := [];
    var reply: Reply;
    reply, log := Ask(ReadRepository, replies, log);
    if !reply.Saw? { return false, log; }
    var found := reply.item;
    if found == Some(Folder) { return true, log; }
    if found != None && found != Some(Workflow) { return false, log; }
    if found == Some(Workflow) {
      reply, log := Ask(ReadLegacy, replies, log);
      if !reply.Saw? || (reply.item != None && reply.item != Some(Workflow)) { return false, log; }
      if reply.item == None {
        reply, log := Ask(Rename, replies, log);
        if !reply.Accepted? { return false, log; }
      }
      var settled: Settled;
      settled, log := AwaitMigration(replies, log);
      if !settled.Migrated? { return settled.FolderThere?, log; }
    }
    returned, log := CreateFolder(replies, log);
  }

  // ---------------------------------------------------------------- bounds under arbitrary observations

  datatype Cost = Cost(looks: nat, renames: nat, creates: nat, pauses: nat)

  /** Requests of each kind, and the pauses in units of the base delay. */
  function CostOf(log: seq<Event>): Cost {
    if log == [] then Cost(0, 0, 0, 0)
    else
      var c := CostOf(log[..|log| - 1]);
      Spend(c, log[|log| - 1].request)
  }

  /** The most each place of the protocol can have spent on the way there. */
  function Budget(pc: Pc): Cost {
    var half := Power2(ATTEMPTS - 1);
    match pc
    case AtStart => Cost(0, 0, 0, 0)
    case AtFirstLegacy => Cost(1, 0, 0, 0)
    case AtRename => Cost(2, 0, 0, 0)
    case AtSettleRepository(a) => Cost(2 + 2 * a, 1, 0, Power2(a) - 1)
    case AtSettleLegacy(a, _) => Cost(3 + 2 * a, 1, 0, Power2(a) - 1)
    case AtSettlePause(a) => Cost(4 + 2 * a, 1, 0, Power2(a) - 1)
    case AtCreateRead(a) => Cost(2 + 2 * ATTEMPTS + a, 1, a, half + Power2(a) - 2)
    case AtCreate(a) => Cost(3 + 2 * ATTEMPTS + a, 1, a, half + Power2(a) - 2)
    case AtCreatePause(a) => Cost(3 + 2 * ATTEMPTS + a, 1, a + 1, half + Power2(a) - 2)
    case AtLast => Cost(2 + 3 * ATTEMPTS, 1, ATTEMPTS, half + Power2(ATTEMPTS) - 2)
    case Returned => Cost(3 + 3 * ATTEMPTS, 1, ATTEMPTS, half + Power2(ATTEMPTS) - 2)
    case Raised => Cost(3 + 3 * ATTEMPTS, 1, ATTEMPTS, half + Power2(ATTEMPTS) - 2)
  }

  predicate AttemptsInRange(pc: Pc) {
    match pc
    case AtSettleRepository(a) => a < ATTEMPTS
    case AtSettleLegacy(a, _) => a < ATTEMPTS
    case AtSettlePause(a) => a < ATTEMPTS
    case AtCreateRead(a) => a < ATTEMPTS
    case AtCreate(a) => a < ATTEMPTS
    case AtCreatePause(a) => a < ATTEMPTS
    case _ => true
  }

  predicate AtMost(a: Cost, b: Cost) {
    a.looks <= b.looks && a.renames <= b.renames && a.creates <= b.creates && a.pauses <= b.pauses
  }

  lemma {:induction false} PowerGrows(a: nat, b: nat)
    requires a <= b
    ensures 1 <= Power2(a) <= Power2(b)
  {
    if a < b {
      PowerGrows(a, b - 1);
    } else if a > 0 {
      PowerGrows(a - 1, b - 1);
    }
  }

  function Spend(c: Cost, request: Request): Cost {
    match request
    case ReadRepository => c.(looks := c.looks + 1)
    case ReadLegacy => c.(looks := c.looks + 1)
    case Rename => c.(renames := c.renames + 1)
    case Create => c.(creates := c.creates + 1)
    case Pause(a) => c.(pauses := c.pauses + Power2(a))
  }

  predicate Entering(pc: Pc) {
    pc.AtStart? || pc.AtFirstLegacy? || pc.AtRename?
  }

  /** The attempt the place belongs to, where it belongs to one. */
  function AttemptOf(pc: Pc): nat {
    match pc
    case AtSettleRepository(a) => a
    case AtSettleLegacy(a, _) => a
    case AtSettlePause(a) => a
    case AtCreateRead(a) => a
    case AtCreate(a) => a
    case AtCreatePause(a) => a
    case _ => 0
  }

  lemma PowerFacts(a: nat)
    requires a < ATTEMPTS
    ensures Power2(0) == 1 && 1 <= Power2(a) <= Power2(5) && Power2(a + 1) == 2 * Power2(a) && Power2(6) == 2 * Power2(5)
  {
    PowerGrows(0, a);
    PowerGrows(a, 5);
  }

  lemma EnterWithinBudget(c: Cost, pc: Pc, reply: Reply)
    requires Entering(pc) && AttemptsInRange(pc) && AtMost(c, Budget(pc))
    ensures AttemptsInRange(Advance(pc, reply))
    ensures AtMost(Spend(c, NextRequest(pc).value), Budget(Advance(pc, reply)))
  {
    PowerFacts(AttemptOf(pc));
    hide Power2;
  }

  lemma LookWithinBudget(c: Cost, pc: Pc, reply: Reply)
    requires (pc.AtSettleRepository? || pc.AtSettlePause?) && AttemptsInRange(pc) && AtMost(c, Budget(pc))
    ensures AttemptsInRange(Advance(pc, reply))
    ensures AtMost(Spend(c, NextRequest(pc).value), Budget(Advance(pc, reply)))
  {
    PowerFacts(AttemptOf(pc));
    hide Power2;
  }

  lemma LegacyWithinBudget(c: Cost, pc: Pc, reply: Reply)
    requires pc.AtSettleLegacy? && AttemptsInRange(pc) && AtMost(c, Budget(pc))
    ensures AttemptsInRange(Advance(pc, reply))
    ensures AtMost(Spend(c, NextRequest(pc).value), Budget(Advance(pc, reply)))
  {
    PowerFacts(AttemptOf(pc));
    hide Power2;
  }

  lemma ReadWithinBudget(c: Cost, pc: Pc, reply: Reply)
    requires (pc.AtCreateRead? || pc.AtLast?) && AttemptsInRange(pc) && AtMost(c, Budget(pc))
    ensures AttemptsInRange(Advance(pc, reply))
    ensures AtMost(Spend(c, NextRequest(pc).value), Budget(Advance(pc, reply)))
  {
    PowerFacts(AttemptOf(pc));
    hide Power2;
  }

  lemma CreateWithinBudget(c: Cost, pc: Pc, reply: Reply)
    requires pc.AtCreate? && AttemptsInRange(pc) && AtMost(c, Budget(pc))
    ensures AttemptsInRange(Advance(pc, reply))
    ensures AtMost(Spend(c, NextRequest(pc).value), Budget(Advance(pc, reply)))
  {
    PowerFacts(AttemptOf(pc));
    hide Power2;
  }

  lemma PauseWithinBudget(c: Cost, pc: Pc, reply: Reply)
    requires pc.AtCreatePause? && AttemptsInRange(pc) && AtMost(c, Budget(pc))
    ensures AttemptsInRange(Advance(pc, reply))
    ensures AtMost(Spend(c, NextRequest(pc).value), Budget(Advance(pc, reply)))
  {
    PowerFacts(AttemptOf(pc));
    hide Power2;
  }

  lemma {:induction false} SpendsWithinBudget(log: seq<Event>)
    requires After(log).Some?
    ensures AttemptsInRange(After(log).value) && AtMost(CostOf(log), Budget(After(log).value))
  {
    if log != [] {
      var init, e := log[..|log| - 1], log[|log| - 1];
      SpendsWithinBudget(init);
      match After(init).value {
        case AtStart => EnterWithinBudget(CostOf(init), After(init).value, e.reply);
        case AtFirstLegacy => EnterWithinBudget(CostOf(init), After(init).value, e.reply);
        case AtRename => EnterWithinBudget(CostOf(init), After(init).value, e.reply);
        case AtSettleRepository(_) => LookWithinBudget(CostOf(init), After(init).value, e.reply);
        case AtSettlePause(_) => LookWithinBudget(CostOf(init), After(init).value, e.reply);
        case AtSettleLegacy(_, _) => LegacyWithinBudget(CostOf(init), After(init).value, e.reply);
        case AtCreateRead(_) => ReadWithinBudget(CostOf(init), After(init).value, e.reply);
        case AtLast => ReadWithinBudget(CostOf(init), After(init).value, e.reply);
        case AtCreate(_) => CreateWithinBudget(CostOf(init), After(init).value, e.reply);
        case AtCreatePause(_) => PauseWithinBudget(CostOf(init), After(init).value, e.reply);
        case _ =>
      }
    }
  }

  /** At most 21 reads, one rename, six creates and pauses of 94 base delays, whatever Jenkins answers:
      the first loop can pause for 63 only when it gives up, and for 31 before the second loop's 63. */
  lemma BoundedEffort(log: seq<Event>)
    requires After(log).Some?
    ensures AtMost(CostOf(log), Cost(21, 1, 6, 94))
  {
    SpendsWithinBudget(log);
    assert Power2(6) == 64 && Power2(5) == 32 by {
      assert Power2(3) == 8;
      assert Power2(5) == 4 * Power2(3);
    }
    match After(log).value {
      case AtSettleRepository(a) => PowerGrows(a, 5);
      case AtSettleLegacy(a, _) => PowerGrows(a, 5);
      case AtSettlePause(a) => PowerGrows(a, 5);
      case AtCreateRead(a) => PowerGrows(a, 5);
      case AtCreate(a) => PowerGrows(a, 5);
      case AtCreatePause(a) => PowerGrows(a, 5);
      case _ =>
    }
  }

  // ---------------------------------------------------------------- guards

  /** What each place of the protocol has certainly observed. */
  ghost predicate Observed(log: seq<Event>, pc: Pc) {
    var n := |log|;
    && (pc != AtStart ==> n >= 1 && log[0].request == ReadRepository)
    && (pc == AtStart ==> n == 0)
    && (pc == AtFirstLegacy ==> n == 1 && log[0].reply == Saw(Some(Workflow)))
    && (pc == AtRename ==> n == 2 && log[0].reply == Saw(Some(Workflow)) && log[1] == Event(ReadLegacy, Saw(None)))
    && (pc.AtSettleLegacy? ==> log[n - 1] == Event(ReadRepository, Saw(pc.current)))
    && (pc.AtCreate? ==> log[n - 1] == Event(ReadRepository, Saw(None)))
    && (pc.AtCreateRead? || pc.AtCreate? || pc.AtCreatePause? || pc.AtLast? ==>
          log[0].reply == Saw(Some(Workflow)) ==> SawMigrated(log))
    && (pc == Returned ==> SawFolder(log))
  }

  /** The job was seen at the legacy path right after the repository path was seen empty. */
  ghost predicate SawMigrated(log: seq<Event>) {
    exists j :: 0 <= j < |log| - 1 && log[j] == Event(ReadRepository, Saw(None)) && log[j + 1] == Event(ReadLegacy, Saw(Some(Workflow)))
  }

  /** A folder was seen at the repository path by the last read of that path. */
  ghost predicate SawFolder(log: seq<Event>) {
    || (|log| >= 1 && log[|log| - 1] == Event(ReadRepository, Saw(Some(Folder))))
    || (|log| >= 2 && log[|log| - 2] == Event(ReadRepository, Saw(Some(Folder))) && log[|log| - 1].request == ReadLegacy)
  }

  lemma {:induction false} AlwaysObserved(log: seq<Event>)
    requires After(log).Some?
    ensures Observed(log, After(log).value)
  {
    if log != [] {
      var init, e := log[..|log| - 1], log[|log| - 1];
      AlwaysObserved(init);
      assert log == init + [e];
      assert forall i :: 0 <= i < |init| ==> log[i] == init[i];
      var before, pc := After(init).value, After(log).value;
      if SawMigrated(init) {
        var j :| 0 <= j < |init| - 1 && init[j] == Event(ReadRepository, Saw(None)) && init[j + 1] == Event(ReadLegacy, Saw(Some(Workflow)));
        assert log[j] == init[j] && log[j + 1] == init[j + 1];
      }
      if before.AtSettleLegacy? && pc.AtCreateRead? {
        assert log[|log| - 2] == init[|init| - 1] && log[|log| - 1] == e;
        assert SawMigrated(log);
      }
    }
  }

  /** A rename follows the sight of a workflow job with nothing at the legacy path; a create follows
      the sight of an empty repository path and, when a job was first seen there, the sight of that
      job at the legacy path; a normal return follows the sight of a folder. */
  lemma Guarded(log: seq<Event>, i: nat)
    requires After(log).Some? && i < |log|
    ensures log[i].request == Rename ==>
              i == 2 && log[0] == Event(ReadRepository, Saw(Some(Workflow))) && log[1] == Event(ReadLegacy, Saw(None))
    ensures log[i].request == Create ==>
              && i > 0 && log[i - 1] == Event(ReadRepository, Saw(None))
              && (log[0].reply == Saw(Some(Workflow)) ==> SawMigrated(log[..i]))
    ensures After(log) == Some(Returned) ==> SawFolder(log)
  {
    AlwaysObserved(log);
    PrefixAfter(log, i);
    PrefixAfter(log, i + 1);
    AlwaysObserved(log[..i]);
    assert log[..i + 1][..i] == log[..i];
  }

  lemma {:induction false} PrefixAfter(log: seq<Event>, i: nat)
    requires After(log).Some? && i <= |log|
    ensures After(log[..i]).Some?
  {
    if i == |log| {
      assert log[..i] == log;
    } else {
      PrefixAfter(log[..|log| - 1], i);
      assert log[..|log| - 1][..i] == log[..i];
    }
  }

  // ---------------------------------------------------------------- progress

  /** Settle attempts that see no settled migration. */
  function Waiting(looks: seq<Look>): seq<Event> {
    if looks == [] then []
    else
      var n := |looks| - 1;
      Waiting(looks[..n]) + [Event(ReadRepository, Saw(looks[n].current)), Event(ReadLegacy, Saw(looks[n].legacy)), Event(Pause(n), Accepted)]
  }

  /** Create attempts that find the path still empty, each accepted or refused by Jenkins. */
  function Creating(writes: seq<Reply>): seq<Event> {
    if writes == [] then []
    else
      var n := |writes| - 1;
      Creating(writes[..n]) + [Event(ReadRepository, Saw(None)), Event(Create, writes[n]), Event(Pause(n), Accepted)]
  }

  /** Three more events, each the protocol's next request. */
  lemma After3(log: seq<Event>, e0: Event, e1: Event, e2: Event)
    requires After(log).Some? && NextRequest(After(log).value) == Some(e0.request)
    requires NextRequest(Advance(After(log).value, e0.reply)) == Some(e1.request)
    requires NextRequest(Advance(Advance(After(log).value, e0.reply), e1.reply)) == Some(e2.request)
    ensures After(log + [e0, e1, e2]) == Some(Advance(Advance(Advance(After(log).value, e0.reply), e1.reply), e2.reply))
  {
    AfterSnoc(log, e0);
    AfterSnoc(log + [e0], e1);
    AfterSnoc(log + [e0] + [e1], e2);
    assert log + [e0, e1, e2] == log + [e0] + [e1] + [e2];
  }

  lemma {:induction false} StillWaiting(log: seq<Event>, looks: seq<Look>)
    requires After(log) == Some(AtSettleRepository(0)) && |looks| < ATTEMPTS
    requires forall i :: 0 <= i < |looks| ==> Unsettled(looks[i])
    ensures After(log + Waiting(looks)) == Some(AtSettleRepository(|looks|))
  {
    hide After;
    if looks == [] {
      assert log + Waiting(looks) == log;
    } else {
      var n := |looks| - 1;
      StillWaiting(log, looks[..n]);
      var l := log + Waiting(looks[..n]);
      var e0, e1, e2 := Event(ReadRepository, Saw(looks[n].current)), Event(ReadLegacy, Saw(looks[n].legacy)), Event(Pause(n), Accepted);
      assert log + Waiting(looks) == l + [e0, e1, e2];
      After3(l, e0, e1, e2);
    }
  }

  lemma {:induction false} StillCreating(log: seq<Event>, writes: seq<Reply>)
    requires After(log) == Some(AtCreateRead(0)) && |writes| <= ATTEMPTS
    requires forall i :: 0 <= i < |writes| ==> writes[i].Accepted? || writes[i].Refused?
    ensures After(log + Creating(writes)) == Some(if |writes| < ATTEMPTS then AtCreateRead(|writes|) else AtLast)
  {
    hide After;
    if writes == [] {
      assert log + Creating(writes) == log;
    } else {
      var n := |writes| - 1;
      StillCreating(log, writes[..n]);
      var l := log + Creating(writes[..n]);
      var e0, e1, e2 := Event(ReadRepository, Saw(None)), Event(Create, writes[n]), Event(Pause(n), Accepted);
      assert log + Creating(writes) == l + [e0, e1, e2];
      After3(l, e0, e1, e2);
    }
  }

  /** The migration settles in one of the six attempts, and the folder is seen after any number of accepted or
      refused creates. */
  function LateFolder(looks: seq<Look>, writes: seq<Reply>): seq<Event> {
    Waiting(looks) + [Event(ReadRepository, Saw(None))] + [Event(ReadLegacy, Saw(Some(Workflow)))]
    + Creating(writes) + [Event(ReadRepository, Saw(Some(Folder)))]
  }

  /** A migration that settles in any of the six attempts, whatever was seen before, ends in a normal return when the
      folder is seen before any of the six creates or after the last of them, and it does not matter which of
      the creates were refused. */
  lemma LateRenameStillReturns(log: seq<Event>, looks: seq<Look>, writes: seq<Reply>)
    requires After(log) == Some(AtSettleRepository(0)) && |looks| < ATTEMPTS && |writes| <= ATTEMPTS
    requires forall i :: 0 <= i < |looks| ==> Unsettled(looks[i])
    requires forall i :: 0 <= i < |writes| ==> writes[i].Accepted? || writes[i].Refused?
    ensures After(log + LateFolder(looks, writes)) == Some(Returned)
  {
    hide After;
    var l0 := log + Waiting(looks);
    var l1 := l0 + [Event(ReadRepository, Saw(None))];
    var l2 := l1 + [Event(ReadLegacy, Saw(Some(Workflow)))];
    var l3 := l2 + Creating(writes);
    StillWaiting(log, looks);
    AfterSnoc(l0, Event(ReadRepository, Saw(None)));
    AfterSnoc(l1, Event(ReadLegacy, Saw(Some(Workflow))));
    StillCreating(l2, writes);
    AfterSnoc(l3, Event(ReadRepository, Saw(Some(Folder))));
    assert log + LateFolder(looks, writes) == l3 + [Event(ReadRepository, Saw(Some(Folder)))];
  }

  /** A reconciler waits for the migration after an accepted rename, and after finding a job at both paths. */
  lemma StartsWaiting()
    ensures After([Event(ReadRepository, Saw(Some(Workflow))), Event(ReadLegacy, Saw(None)), Event(Rename, Accepted)])
            == Some(AtSettleRepository(0))
    ensures After([Event(ReadRepository, Saw(Some(Workflow))), Event(ReadLegacy, Saw(Some(Workflow)))]) == Some(AtSettleRepository(0))
  {
    var e0, e1, e2 := Event(ReadRepository, Saw(Some(Workflow))), Event(ReadLegacy, Saw(None)), Event(Rename, Accepted);
    assert After([]) == Some(AtStart);
    hide After;
    After3([], e0, e1, e2);
    assert [] + [e0, e1, e2] == [e0, e1, e2];
    AfterSnoc([], e0);
    AfterSnoc([] + [e0], Event(ReadLegacy, Saw(Some(Workflow))));
    assert [] + [e0] + [Event(ReadLegacy, Saw(Some(Workflow)))] == [e0, Event(ReadLegacy, Saw(Some(Workflow)))];
  }
}
