/** Reading a command's outcome back from a node's unpruned history. */
module Commands {
  import opened Wrappers
  import opened Fleet

  datatype Verdict = Undecided | Succeeded | Refused(message: string)

  /** Whether a counts as created after b; a command without a timestamp does. */
  predicate NewerCommand(a: Command, b: Command) {
    if a.createdAt == None then true
    else if b.createdAt == None then false
    else a.createdAt.value > b.createdAt.value
  }

  /** The verdict is the command's own: succeeded if it Completed, refused with its result if it
      Failed or Expired, undecided in every other phase. */
  predicate Reads(verdict: Verdict, c: Command) {
    && (verdict.Succeeded? <==> c.phase == Completed)
    && (verdict.Refused? <==> c.phase == Failed || c.phase == Expired)
    && (verdict.Refused? ==> verdict.message == c.result)
    && (verdict.Undecided? <==> c.phase == CommandPending || c.phase == Delivered || c.phase == Running)
  }

  function VerdictOf(c: Command): (verdict: Verdict)
    ensures Reads(verdict, c)
  {
    match c.phase
    case Completed => Succeeded
    case Failed => Refused(c.result)
    case Expired => Refused(c.result)
    case _ => Undecided
  }

  /*** Selection by ID ***/

  ghost predicate FirstWithId(cmds: seq<Command>, id: string, i: nat) {
    i < |cmds| && cmds[i].id == id && forall j :: 0 <= j < i ==> cmds[j].id != id
  }

  /*** Selection by kind ***/

  /** Index i is the one the no-ID fallback must pick among the commands of a kind: the last one
      without a timestamp if there is one, and otherwise the earliest-listed most recent one. */
  ghost predicate MostRecent(cmds: seq<Command>, kind: CommandKind, i: nat) {
    && i < |cmds| && cmds[i].kind == kind
    && if cmds[i].createdAt == None then
         forall j :: i < j < |cmds| && cmds[j].kind == kind ==> cmds[j].createdAt.Some?
       else
         forall j :: 0 <= j < |cmds| && cmds[j].kind == kind ==>
           && cmds[j].createdAt.Some?
           && cmds[j].createdAt.value <= cmds[i].createdAt.value
           && (j < i ==> cmds[j].createdAt.value < cmds[i].createdAt.value)
  }

  ghost predicate HasKind(cmds: seq<Command>, kind: CommandKind) {
    exists i :: 0 <= i < |cmds| && cmds[i].kind == kind
  }

  /** The index of the first command with the given ID. */
  function FindId(cmds: seq<Command>, id: string): (r: Option<nat>)
    ensures r.Some? ==> FirstWithId(cmds, id, r.value)
    ensures r == None ==> forall i :: 0 <= i < |cmds| ==> cmds[i].id != id
  {
    if cmds == [] then None
    else if cmds[0].id == id then Some(0)
    else
      match FindId(cmds[1..], id)
      case None => assert forall i :: 0 < i < |cmds| ==> cmds[i] == cmds[1..][i - 1]; None
      case Some(i) => assert forall j :: 0 < j < |cmds| ==> cmds[j] == cmds[1..][j - 1]; Some(i + 1)
  }

  /** The index the scan over a whole history settles on for a kind. */
  function FindRecent(cmds: seq<Command>, kind: CommandKind): (r: Option<nat>)
    ensures r.Some? ==> MostRecent(cmds, kind, r.value)
    ensures r == None ==> !HasKind(cmds, kind)
  {
    if cmds == [] then None else
    var n := |cmds| - 1;
    var before := FindRecent(cmds[..n], kind);
    assert forall j :: 0 <= j < n ==> cmds[..n][j] == cmds[j];
    if cmds[n].kind != kind then before
    else if before == None then
      assert forall j :: 0 <= j < n ==> cmds[j].kind != kind;
      Some(n)
    else if NewerCommand(cmds[n], cmds[before.value]) then Some(n)
    else before
  }

  lemma MostRecentUnique(cmds: seq<Command>, kind: CommandKind, i: nat, j: nat)
    requires MostRecent(cmds, kind, i) && MostRecent(cmds, kind, j)
    ensures i == j
  {
  }

  /** Command c is the one to read: the first with the ID if one is recorded, and otherwise the most
      recent of its kind. */
  ghost predicate Selected(cmds: seq<Command>, id: string, kind: CommandKind, c: Command) {
    exists i: nat :: (if id != "" then FirstWithId(cmds, id, i) else MostRecent(cmds, kind, i)) && cmds[i] == c
  }

  /** The outcome the controller acts on: the recorded command's if an ID is recorded, else the
      most recent command's of that kind, else nothing yet. */
  function RecordedVerdict(cmds: seq<Command>, id: string, kind: CommandKind): Verdict {
    var i := if id != "" then FindId(cmds, id) else FindRecent(cmds, kind);
    if i == None then Undecided else VerdictOf(cmds[i.value])
  }

  /** The scan itself, one pass over the history with `latest` updated as it goes. */
  method CommandState(cmds: seq<Command>, id: string, kind: CommandKind) returns (verdict: Verdict)
    ensures verdict == RecordedVerdict(cmds, id, kind)
    ensures id != "" && (forall i :: 0 <= i < |cmds| ==> cmds[i].id != id) ==> verdict == Undecided
    ensures forall i: nat :: id != "" && FirstWithId(cmds, id, i) ==> verdict == VerdictOf(cmds[i])
    ensures forall i: nat :: id == "" && MostRecent(cmds, kind, i) ==> verdict == VerdictOf(cmds[i])
    ensures id == "" && !HasKind(cmds, kind) ==> verdict == Undecided
    ensures forall c :: Selected(cmds, id, kind, c) ==> Reads(verdict, c)
    ensures (forall c :: !Selected(cmds, id, kind, c)) ==> verdict == Undecided
  {
    var latest: Option<nat> := None;
    var i := 0;
    while i < |cmds|
      invariant 0 <= i <= |cmds|
      invariant latest.Some? ==> latest.value < i
      invariant id == "" ==> latest == FindRecent(cmds[..i], kind)
      invariant id != "" ==> latest == None && forall j :: 0 <= j < i ==> cmds[j].id != id
    {
      assert cmds[..i + 1][..i] == cmds[..i];
      if id != "" {
        if cmds[i].id == id {
          latest := Some(i);
          break;
        }
      } else if cmds[i].kind == kind {
        if latest == None || NewerCommand(cmds[i], cmds[latest.value]) {
          latest := Some(i);
        }
      }
      i := i + 1;
    }
    assert id == "" ==> cmds[..i] == cmds;
    SelectionIsSpecified(cmds, id, kind);
    VerdictReads(cmds, id, kind);
    if latest == None {
      return Undecided;
    }
    return VerdictOf(cmds[latest.value]);
  }

  /** The outcome is that of the selected command, and undecided when there is none. */
  lemma {:induction false} VerdictReads(cmds: seq<Command>, id: string, kind: CommandKind)
    ensures forall c :: Selected(cmds, id, kind, c) ==> Reads(RecordedVerdict(cmds, id, kind), c)
    ensures !RecordedVerdict(cmds, id, kind).Undecided? ==> exists c :: Selected(cmds, id, kind, c)
  {
    SelectionIsSpecified(cmds, id, kind);
    var i := if id != "" then FindId(cmds, id) else FindRecent(cmds, kind);
    if i.Some? {
      assert if id != "" then FirstWithId(cmds, id, i.value) else MostRecent(cmds, kind, i.value);
      assert Selected(cmds, id, kind, cmds[i.value]);
    }
  }

  /** With distinct IDs, a command with the recorded ID is the one selected. */
  lemma SelectedById(cmds: seq<Command>, c: Command, kind: CommandKind)
    requires c.id != "" && c in cmds && DistinctIds(cmds)
    ensures Selected(cmds, c.id, kind, c)
  {
    var i :| 0 <= i < |cmds| && cmds[i] == c;
    assert FirstWithId(cmds, c.id, i);
  }

  lemma {:induction false} SelectionIsSpecified(cmds: seq<Command>, id: string, kind: CommandKind)
    ensures forall i: nat :: FirstWithId(cmds, id, i) ==> FindId(cmds, id) == Some(i)
    ensures forall i: nat :: MostRecent(cmds, kind, i) ==> FindRecent(cmds, kind) == Some(i)
  {
    forall i: nat | FirstWithId(cmds, id, i) ensures FindId(cmds, id) == Some(i) {
      var r := FindId(cmds, id);
      assert r.Some? && !(r.value < i) && !(i < r.value);
    }
    forall i: nat | MostRecent(cmds, kind, i) ensures FindRecent(cmds, kind) == Some(i) {
      assert HasKind(cmds, kind);
      MostRecentUnique(cmds, kind, i, FindRecent(cmds, kind).value);
    }
  }

  /*** No shadowing ***/

  ghost predicate DistinctIds(cmds: seq<Command>) {
    forall i, j :: 0 <= i < j < |cmds| ==> cmds[i].id != cmds[j].id
  }

  /** With a recorded ID only that command matters: two histories that both contain it, and no
      other command with its ID, give the same outcome however else they differ. */
  lemma OnlyTheRecordedCommand(cmds: seq<Command>, cmds': seq<Command>, c: Command, kind: CommandKind)
    requires c.id != "" && c in cmds && c in cmds'
    requires DistinctIds(cmds) && DistinctIds(cmds')
    ensures RecordedVerdict(cmds, c.id, kind) == RecordedVerdict(cmds', c.id, kind) == VerdictOf(c)
  {
    var i :| 0 <= i < |cmds| && cmds[i] == c;
    var j :| 0 <= j < |cmds'| && cmds'[j] == c;
    assert FirstWithId(cmds, c.id, i) && FirstWithId(cmds', c.id, j);
    SelectionIsSpecified(cmds, c.id, kind);
    SelectionIsSpecified(cmds', c.id, kind);
  }

  /** A command that cannot displace the pick: of another kind, or strictly older than it. */
  predicate Harmless(x: Command, pick: Command, kind: CommandKind) {
    x.kind != kind
    || (x.createdAt.Some? && (pick.createdAt == None || x.createdAt.value < pick.createdAt.value))
  }

  /** Without an ID, inserting a command of another kind, or one strictly older than the pick if
      there is a pick, anywhere in the history never changes the outcome. */
  lemma {:induction false} HarmlessInsertion(cmds: seq<Command>, at: nat, x: Command, kind: CommandKind)
    requires at <= |cmds|
    requires match FindRecent(cmds, kind)
             case None => x.kind != kind
             case Some(i) => Harmless(x, cmds[i], kind)
    ensures RecordedVerdict(cmds[..at] + [x] + cmds[at..], "", kind) == RecordedVerdict(cmds, "", kind)
  {
    var longer := cmds[..at] + [x] + cmds[at..];
    forall j | 0 <= j < |longer| && j != at
      ensures longer[j] == cmds[if j < at then j else j - 1]
    {
    }
    match FindRecent(cmds, kind) {
      case Some(i) =>
        var i': nat := if i < at then i else i + 1;
        assert longer[i'] == cmds[i];
        assert MostRecent(longer, kind, i');
        SelectionIsSpecified(longer, "", kind);
      case None =>
        assert !HasKind(longer, kind);
        assert FindRecent(longer, kind) == None;
    }
  }

  ghost predicate DistinctTimes(cmds: seq<Command>, kind: CommandKind) {
    && (forall i :: 0 <= i < |cmds| && cmds[i].kind == kind ==> cmds[i].createdAt.Some?)
    && (forall i, j :: 0 <= i < j < |cmds| && cmds[i].kind == kind && cmds[j].kind == kind ==>
          cmds[i].createdAt != cmds[j].createdAt)
  }

  /** With distinct timestamps the order of the list does not matter: any two listings of the
      same commands give the same outcome. */
  lemma {:induction false} OrderIndependent(cmds: seq<Command>, cmds': seq<Command>, kind: CommandKind)
    requires DistinctTimes(cmds, kind) && DistinctTimes(cmds', kind)
    requires forall c :: c in cmds <==> c in cmds'
    ensures RecordedVerdict(cmds, "", kind) == RecordedVerdict(cmds', "", kind)
  {
    var r, r' := FindRecent(cmds, kind), FindRecent(cmds', kind);
    assert r'.Some? ==> cmds'[r'.value] in cmds;
    if r.Some? {
      var c := cmds[r.value];
      assert c in cmds';
      var k: nat :| k < |cmds'| && cmds'[k] == c;
      forall j | 0 <= j < |cmds'| && cmds'[j].kind == kind
        ensures cmds'[j].createdAt.value <= c.createdAt.value
      {
        assert cmds'[j] in cmds;
        var m :| 0 <= m < |cmds| && cmds[m] == cmds'[j];
      }
      assert MostRecent(cmds', kind, k);
      SelectionIsSpecified(cmds', "", kind);
    }
  }
}
