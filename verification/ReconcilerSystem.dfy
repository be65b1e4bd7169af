/** Any number of reconcilers of one repository, interleaved one request at a time against a Jenkins
    whose renames and creates may commit late and which refuses name clashes when they commit. */
module ReconcilerSystem {
  import opened Text
  import opened Reconciler

  /** What sits at a path.  A job keeps its identity, and with it its build history, when renamed. */
  datatype Item = Absent | Job(id: nat) | Directory | Alien

  function ClassOf(item: Item): Option<ItemClass> {
    match item
    case Absent => None
    case Job(_) => Some(Workflow)
    case Directory => Some(Folder)
    case Alien => Some(Other)
  }

  /** A request Jenkins has taken but not yet committed; a rename remembers the item its path named. */
  datatype Pending = PendingRename(item: Item) | PendingCreate

  datatype World = World(repository: Item, legacy: Item, pending: set<(nat, Pending)>, pcs: seq<Pc>)

  /** The repository item moves to the legacy path, unless that name is taken. */
  function CommitRename(w: World): World {
    if w.repository != Absent && w.legacy == Absent then w.(repository := Absent, legacy := w.repository) else w
  }

  /** A folder appears at the repository path, unless that name is taken. */
  function CommitCreate(w: World): World {
    if w.repository == Absent then w.(repository := Directory) else w
  }

  /** When a write takes effect, independently of what the reconciler is told about it. */
  datatype Fate = Now | Later(ticket: nat) | Never

  datatype Action =
    | Act(who: nat, fate: Fate, reply: Reply)
    | Commit(ticket: nat, pending: Pending, byPath: bool)
    | Drop(ticket: nat, pending: Pending)

  function Effect(w: World, request: Request, fate: Fate): World {
    match (request, fate)
    case (Rename, Now) => CommitRename(w)
    case (Rename, Later(t)) =>
      if w.repository == Absent then w else w.(pending := w.pending + {(t, PendingRename(w.repository))})
    case (Create, Now) => CommitCreate(w)
    case (Create, Later(t)) => w.(pending := w.pending + {(t, PendingCreate)})
    case _ => w
  }

  /** Reads report what is at the path, or fail; the replies to writes are unconstrained. */
  predicate Truthful(w: World, request: Request, reply: Reply) {
    match request
    case ReadRepository => reply == Saw(ClassOf(w.repository)) || reply == Broken
    case ReadLegacy => reply == Saw(ClassOf(w.legacy)) || reply == Broken
    case _ => true
  }

  predicate Enabled(w: World, a: Action) {
    match a
    case Act(who, _, reply) =>
      who < |w.pcs| && NextRequest(w.pcs[who]).Some? && Truthful(w, NextRequest(w.pcs[who]).value, reply)
    case Commit(t, p, _) => (t, p) in w.pending
    case Drop(t, p) => (t, p) in w.pending
  }

  /** A late rename acts on the item it was issued for or on whatever its path names by then. */
  function Apply(w: World, a: Action): World
    requires Enabled(w, a)
  {
    match a
    case Act(who, fate, reply) =>
      var pc := w.pcs[who];
      Effect(w, NextRequest(pc).value, fate).(pcs := w.pcs[who := Advance(pc, reply)])
    case Commit(t, p, byPath) =>
      var w' := w.(pending := w.pending - {(t, p)});
      if p.PendingCreate? then CommitCreate(w')
      else if byPath || w.repository == p.item then CommitRename(w')
      else w'
    case Drop(t, p) => w.(pending := w.pending - {(t, p)})
  }

  function Start(repository: Item, legacy: Item, reconcilers: nat): World {
    World(repository, legacy, {}, seq(reconcilers, _ => AtStart))
  }

  /** `trace` is a run of the system. */
  ghost predicate IsRun(trace: seq<World>, actions: seq<Action>) {
    && |trace| == |actions| + 1
    && (exists n :: trace[0] == Start(trace[0].repository, trace[0].legacy, n))
    && forall i :: 0 <= i < |actions| ==> Enabled(trace[i], actions[i]) && trace[i + 1] == Apply(trace[i], actions[i])
  }

  // ---------------------------------------------------------------- the invariant

  /** A reconciler that saw the job and may still ask for its rename. */
  predicate MayRename(pc: Pc) {
    pc == AtFirstLegacy || pc == AtRename
  }

  ghost predicate RenameInFlight(w: World) {
    || (exists i :: 0 <= i < |w.pcs| && MayRename(w.pcs[i]))
    || (exists p :: p in w.pending && p.1.PendingRename?)
  }

  /** The reconciler knows a folder is there. */
  predicate KnowsFolder(pc: Pc) {
    pc == Returned || (pc.AtSettleLegacy? && pc.current == Some(Folder))
  }

  /** While any rename may still come, either the job is still in place or the legacy name is taken. */
  ghost predicate Safe(w: World) {
    && (RenameInFlight(w) ==> w.repository.Job? || w.legacy != Absent)
    && (forall i :: 0 <= i < |w.pcs| && KnowsFolder(w.pcs[i]) ==> w.repository == Directory)
  }

  /** Nothing that matters is lost from one world to a later one. */
  predicate Keeps(w: World, w': World) {
    && (w.repository == Directory ==> w'.repository == Directory)
    && (w.legacy != Absent ==> w'.legacy == w.legacy)
    && (w.repository.Job? ==> w'.repository == w.repository || w'.legacy == w.repository)
  }

  lemma StartSafe(repository: Item, legacy: Item, n: nat)
    ensures Safe(Start(repository, legacy, n))
  {
  }

  lemma ActSafe(w: World, who: nat, fate: Fate, reply: Reply)
    requires Safe(w) && Enabled(w, Act(who, fate, reply))
    ensures Safe(Apply(w, Act(who, fate, reply))) && Keeps(w, Apply(w, Act(who, fate, reply)))
  {
    var pc := w.pcs[who];
    var w' := Apply(w, Act(who, fate, reply));
    assert MayRename(pc) ==> RenameInFlight(w);
    if RenameInFlight(w') && !RenameInFlight(w) {
      assert pc == AtStart && reply == Saw(Some(Workflow)) && w.repository.Job?;
    }
  }

  lemma CommitSafe(w: World, t: nat, p: Pending, byPath: bool)
    requires Safe(w) && (t, p) in w.pending
    ensures Safe(Apply(w, Commit(t, p, byPath))) && Keeps(w, Apply(w, Commit(t, p, byPath)))
  {
    var w' := Apply(w, Commit(t, p, byPath));
    assert p.PendingRename? ==> (t, p).1.PendingRename? && RenameInFlight(w);
    if RenameInFlight(w') {
      assert RenameInFlight(w);
    }
  }

  lemma StepSafe(w: World, a: Action)
    requires Safe(w) && Enabled(w, a)
    ensures Safe(Apply(w, a)) && Keeps(w, Apply(w, a))
  {
    match a
    case Act(who, fate, reply) => ActSafe(w, who, fate, reply);
    case Commit(t, p, byPath) => CommitSafe(w, t, p, byPath);
    case Drop(t, p) =>
      if RenameInFlight(Apply(w, a)) {
        assert RenameInFlight(w);
      }
  }

  lemma {:induction false} AlwaysSafe(trace: seq<World>, actions: seq<Action>, i: nat)
    requires IsRun(trace, actions) && i < |trace|
    ensures Safe(trace[i])
  {
    if i == 0 {
      var n :| trace[0] == Start(trace[0].repository, trace[0].legacy, n);
      StartSafe(trace[0].repository, trace[0].legacy, n);
    } else {
      AlwaysSafe(trace, actions, i - 1);
      StepSafe(trace[i - 1], actions[i - 1]);
    }
  }

  // ---------------------------------------------------------------- what every run keeps

  /** A job that is at either path is at one of the two ever after: its history is never lost. */
  lemma {:induction false} HistoryKept(trace: seq<World>, actions: seq<Action>, i: nat, j: nat, id: nat)
    requires IsRun(trace, actions) && i <= j < |trace|
    requires trace[i].repository == Job(id) || trace[i].legacy == Job(id)
    ensures trace[j].repository == Job(id) || trace[j].legacy == Job(id)
  {
    if i < j {
      HistoryKept(trace, actions, i, j - 1, id);
      AlwaysSafe(trace, actions, j - 1);
      StepSafe(trace[j - 1], actions[j - 1]);
    }
  }

  /** A folder once at the repository path stays there: no reconciler acting on a stale read renames it. */
  lemma {:induction false} FolderStays(trace: seq<World>, actions: seq<Action>, i: nat, j: nat)
    requires IsRun(trace, actions) && i <= j < |trace|
    requires trace[i].repository == Directory
    ensures trace[j].repository == Directory
  {
    if i < j {
      FolderStays(trace, actions, i, j - 1);
      AlwaysSafe(trace, actions, j - 1);
      StepSafe(trace[j - 1], actions[j - 1]);
    }
  }

  /** From the moment a reconciler returns normally there is a folder at the repository path. */
  lemma ReturnMeansFolder(trace: seq<World>, actions: seq<Action>, i: nat, j: nat, who: nat)
    requires IsRun(trace, actions) && i <= j < |trace|
    requires who < |trace[i].pcs| && trace[i].pcs[who] == Returned
    ensures trace[j].repository == Directory
  {
    AlwaysSafe(trace, actions, i);
    FolderStays(trace, actions, i, j);
  }

  /** A repository whose job was in place is migrated, never replaced: once the folder is there the job
      is at the legacy path. */
  lemma MigratedBeforeFolder(trace: seq<World>, actions: seq<Action>, j: nat, id: nat)
    requires IsRun(trace, actions) && j < |trace|
    requires trace[0].repository == Job(id) && trace[j].repository == Directory
    ensures trace[j].legacy == Job(id)
  {
    HistoryKept(trace, actions, 0, j, id);
  }
}
