/** Counting and pacing a machine's commands, over runs whose patches and replies arrive. */
module Accounting {
  import opened Clock
  import opened Fleet
  import opened Machine
  import opened Transitions
  import opened System
  import History

  datatype DeedKind = ApplyMade | ApplyFailed | RebootMade | RebootFailed | OtherDeed

  function KindOf(d: Deed): DeedKind {
    match d
    case ApplyQueued(_, _, _, _) => ApplyMade
    case ApplyRefused(_, _) => ApplyFailed
    case RebootQueued(_, _, _, _) => RebootMade
    case RebootRefused(_, _) => DeedKind.RebootFailed
    case _ => OtherDeed
  }

  /** How many of the machine's events are of a kind. */
  function Count(tr: seq<Entry>, mid: Mid, k: DeedKind): nat {
    if tr == [] then 0 else
    var n := |tr| - 1;
    Count(tr[..n], mid, k) + if tr[n].mid == mid && KindOf(tr[n].deed) == k then 1 else 0
  }

  lemma {:induction false} CountAppend(tr: seq<Entry>, e: Entry, mid: Mid, k: DeedKind)
    ensures Count(tr + [e], mid, k) == Count(tr, mid, k) + if e.mid == mid && KindOf(e.deed) == k then 1 else 0
  {
    assert (tr + [e])[..|tr|] == tr;
  }

  lemma {:induction false} CountAbsent(tr: seq<Entry>, mid: Mid, k: DeedKind)
    requires forall i :: 0 <= i < |tr| ==> tr[i].mid != mid
    ensures Count(tr, mid, k) == 0
  {
    if tr != [] {
      CountAbsent(tr[..|tr| - 1], mid, k);
    }
  }

  /*** Accounting ***/

  /** Every apply has either been seen to fail or is the one the marker stands for; likewise every
      reboot. */
  ghost predicate Balanced(s: System, mid: Mid)
    requires mid in s.objs
  {
    var m := s.objs[mid].marks;
    && Count(s.trace, mid, ApplyMade) == Count(s.trace, mid, ApplyFailed) + (if m.applied then 1 else 0)
    && Count(s.trace, mid, RebootMade) ==
         Count(s.trace, mid, DeedKind.RebootFailed) + (if m.rebootAt.Absent? then 0 else 1)
  }

  ghost predicate TraceOfBorn(s: System) {
    forall i :: 0 <= i < |s.trace| ==> s.trace[i].mid < s.born
  }

  lemma TraceOfBornStep(s: System, a: Action, r: Pass, s': System)
    requires Step(s, a, r, s') && TraceOfBorn(s)
    ensures TraceOfBorn(s')
  {
    if a.PassOver? {
      assert MachineOk(s, a.mid);
    }
  }

  /** How a machine's own pass moves its markers, kind of event by kind of event. */
  lemma MarksByKind(s: System, mid: Mid, w: World, r: Pass, s': System)
    requires Step(s, PassOver(mid, w), r, s') && History.Persisted(PassOver(mid, w), mid) && mid in s'.objs
    ensures s'.trace == s.trace + [Entry(mid, r.deed)] && s'.objs[mid] == r.obj
    ensures var m, m' := s.objs[mid].marks, r.obj.marks;
      && m'.applied == (match KindOf(r.deed) case ApplyMade => true case ApplyFailed => false case _ => m.applied)
      && (m'.rebootAt.Absent? <==>
           (match KindOf(r.deed) case RebootMade => false case RebootFailed => true case _ => m.rebootAt.Absent?))
      && (r.deed.ApplyQueued? ==> !m.applied) && (r.deed.ApplyRefused? ==> m.applied)
      && (r.deed.RebootQueued? ==> m.rebootAt.Absent?) && (r.deed.RebootRefused? ==> !m.rebootAt.Absent?)
  {
    assert MachineOk(s, mid);
  }

  lemma {:induction false} BalancedStep(s: System, a: Action, r: Pass, s': System, mid: Mid)
    requires Step(s, a, r, s') && History.Persisted(a, mid) && mid in s.objs && mid in s'.objs && Balanced(s, mid)
    ensures Balanced(s', mid)
  {
    if a.PassOver? {
      var e := Entry(a.mid, r.deed);
      CountAppend(s.trace, e, mid, ApplyMade);
      CountAppend(s.trace, e, mid, ApplyFailed);
      CountAppend(s.trace, e, mid, RebootMade);
      CountAppend(s.trace, e, mid, DeedKind.RebootFailed);
      if a.mid == mid {
        MarksByKind(s, mid, a.world, r, s');
      } else {
        History.OthersPass(s, a, r, s', mid);
      }
    } else {
      History.OthersPass(s, a, r, s', mid);
      assert s'.trace == s.trace;
    }
  }

  lemma {:induction false} NewcomerBalanced(s: System, mid: Mid)
    requires mid in s.objs && s.objs[mid].marks == NO_MARKS
    requires forall i :: 0 <= i < |s.trace| ==> s.trace[i].mid != mid
    ensures Balanced(s, mid)
  {
    CountAbsent(s.trace, mid, ApplyMade);
    CountAbsent(s.trace, mid, ApplyFailed);
    CountAbsent(s.trace, mid, RebootMade);
    CountAbsent(s.trace, mid, DeedKind.RebootFailed);
  }

  /*** Pacing ***/

  function MadeAt(d: Deed): int {
    match d
    case ApplyQueued(_, _, _, at) => at
    case RebootQueued(_, _, _, at) => at
    case _ => 0
  }

  const GAP := 59 * SECOND

  /** The next command of the kind comes more than 59 s after t: the clock is past that already, or
      a window stays shut until then. */
  predicate Cooled(st: Stamp, clock: int, t: int) {
    clock > t + GAP || (st.Sec? && st.s * SECOND > t + GAP)
  }

  ghost predicate Cooling(s: System, mid: Mid)
    requires mid in s.objs
  {
    var m := s.objs[mid].marks;
    forall i :: 0 <= i < |s.trace| && s.trace[i].mid == mid ==>
      && (KindOf(s.trace[i].deed) == ApplyMade ==>
            MadeAt(s.trace[i].deed) <= s.clock && (!m.applied ==> Cooled(m.retryAt, s.clock, MadeAt(s.trace[i].deed))))
      && (KindOf(s.trace[i].deed) == RebootMade ==>
            MadeAt(s.trace[i].deed) <= s.clock
            && (m.rebootAt.Absent? ==> Cooled(m.retryAt, s.clock, MadeAt(s.trace[i].deed))))
  }

  /** Any two of the machine's applies, and any two of its reboots, are more than 59 s apart. */
  ghost predicate Spaced(s: System, mid: Mid) {
    forall i, j :: 0 <= i < j < |s.trace| && s.trace[i].mid == mid && s.trace[j].mid == mid
      && KindOf(s.trace[i].deed) == KindOf(s.trace[j].deed)
      && (KindOf(s.trace[i].deed) == ApplyMade || KindOf(s.trace[i].deed) == RebootMade)
      ==> MadeAt(s.trace[j].deed) - MadeAt(s.trace[i].deed) > GAP
  }

  /** A window is never open for longer than the retry interval. */
  ghost predicate WindowBounded(s: System, mid: Mid)
    requires mid in s.objs
  {
    var st := s.objs[mid].marks.retryAt;
    st.Sec? ==> st.s * SECOND <= s.clock + RETRY_REBOOT
  }

  lemma WindowBoundedStep(s: System, a: Action, r: Pass, s': System, mid: Mid)
    requires Step(s, a, r, s') && mid in s.objs && mid in s'.objs && WindowBounded(s, mid)
    ensures WindowBounded(s', mid)
  {
    if a.PassOver? && a.mid == mid {
      StampAfterPass(s.objs[mid], s.fleet, a.world, r);
    }
  }

  /** The only stamp a pass writes is a window opened at its own clock. */
  lemma StampAfterPass(o: Object, f: FleetState, w: World, r: Pass)
    requires DeedEffect(o, f, w, r)
    ensures r.obj.marks.retryAt == o.marks.retryAt || r.obj.marks.retryAt.Absent?
      || (r.obj.marks.retryAt.Sec?
          && w.later + GAP < r.obj.marks.retryAt.s * SECOND <= w.later + RETRY_REBOOT)
    ensures r.deed.ApplyRefused? || r.deed.RebootRefused? ==>
      r.obj.marks.retryAt.Sec? && w.later + GAP < r.obj.marks.retryAt.s * SECOND
    ensures r.obj.marks.retryAt.Absent? && !o.marks.retryAt.Absent? ==> RetryWait(o.marks.retryAt, w.now) == 0
    ensures r.deed.ApplyQueued? || r.deed.RebootQueued? ==> RetryWait(o.marks.retryAt, w.now) == 0
  {
    FormatBounds(w.later + RETRY_REBOOT);
  }

  /** What a pass does to the retry stamp, as far as pacing is concerned. */
  lemma StampMoves(s: System, mid: Mid, w: World, r: Pass, s': System, t: int)
    requires Step(s, PassOver(mid, w), r, s') && History.Persisted(PassOver(mid, w), mid) && mid in s'.objs
    requires t <= s.clock
    ensures s.clock <= s'.clock
    ensures Cooled(s.objs[mid].marks.retryAt, s.clock, t) ==> Cooled(r.obj.marks.retryAt, s'.clock, t)
    ensures r.deed.ApplyRefused? || r.deed.RebootRefused? ==> Cooled(r.obj.marks.retryAt, s'.clock, t)
    ensures r.deed.ApplyQueued? || r.deed.RebootQueued? ==>
      && s.clock <= MadeAt(r.deed) <= s'.clock
      && (Cooled(s.objs[mid].marks.retryAt, s.clock, t) ==> MadeAt(r.deed) > t + GAP)
  {
    assert MachineOk(s, mid);
    StampAfterPass(s.objs[mid], s.fleet, w, r);
  }

  lemma CoolingStep(s: System, mid: Mid, w: World, r: Pass, s': System)
    requires Step(s, PassOver(mid, w), r, s') && History.Persisted(PassOver(mid, w), mid) && mid in s'.objs
    requires Cooling(s, mid)
    ensures Cooling(s', mid)
  {
    MarksByKind(s, mid, w, r, s');
    forall i | 0 <= i < |s.trace| && s.trace[i].mid == mid
      && (KindOf(s.trace[i].deed) == ApplyMade || KindOf(s.trace[i].deed) == RebootMade)
      ensures MadeAt(s.trace[i].deed) <= s'.clock
      ensures KindOf(s.trace[i].deed) == ApplyMade && !r.obj.marks.applied ==>
                Cooled(r.obj.marks.retryAt, s'.clock, MadeAt(s.trace[i].deed))
      ensures KindOf(s.trace[i].deed) == RebootMade && r.obj.marks.rebootAt.Absent? ==>
                Cooled(r.obj.marks.retryAt, s'.clock, MadeAt(s.trace[i].deed))
    {
      StampMoves(s, mid, w, r, s', MadeAt(s.trace[i].deed));
    }
    StampMoves(s, mid, w, r, s', s.clock);
  }

  lemma SpacedAppend(s: System, s': System, mid: Mid, d: Deed)
    requires s'.trace == s.trace + [Entry(mid, d)] && Spaced(s, mid)
    requires KindOf(d) == ApplyMade || KindOf(d) == RebootMade ==>
      forall i :: 0 <= i < |s.trace| && s.trace[i].mid == mid && KindOf(s.trace[i].deed) == KindOf(d) ==>
        MadeAt(d) - MadeAt(s.trace[i].deed) > GAP
    ensures Spaced(s', mid)
  {
  }

  lemma SpacedStep(s: System, mid: Mid, w: World, r: Pass, s': System)
    requires Step(s, PassOver(mid, w), r, s') && History.Persisted(PassOver(mid, w), mid) && mid in s'.objs
    requires Cooling(s, mid) && Spaced(s, mid)
    ensures Spaced(s', mid)
  {
    MarksByKind(s, mid, w, r, s');
    forall i | 0 <= i < |s.trace| && s.trace[i].mid == mid && KindOf(s.trace[i].deed) == KindOf(r.deed)
      && (KindOf(r.deed) == ApplyMade || KindOf(r.deed) == RebootMade)
      ensures MadeAt(r.deed) - MadeAt(s.trace[i].deed) > GAP
    {
      StampMoves(s, mid, w, r, s', MadeAt(s.trace[i].deed));
    }
    SpacedAppend(s, s', mid, r.deed);
  }

  /** Everybody else's steps let time pass and add no event of this machine. */
  lemma OthersPace(s: System, a: Action, r: Pass, s': System, mid: Mid)
    requires Step(s, a, r, s') && mid in s.objs && mid in s'.objs && !(a.PassOver? && a.mid == mid)
    requires Cooling(s, mid) && Spaced(s, mid)
    ensures Cooling(s', mid) && Spaced(s', mid)
  {
    History.OthersPass(s, a, r, s', mid);
    assert s.clock <= s'.clock;
  }

  /*** The results about runs ***/

  ghost predicate Ledger(s: System, mid: Mid)
    requires mid in s.objs
  {
    Balanced(s, mid) && Cooling(s, mid) && Spaced(s, mid) && WindowBounded(s, mid)
  }

  lemma LedgerStep(s: System, a: Action, r: Pass, s': System, mid: Mid)
    requires Step(s, a, r, s') && History.Persisted(a, mid) && mid in s.objs && mid in s'.objs && Ledger(s, mid)
    ensures Ledger(s', mid)
  {
    BalancedStep(s, a, r, s', mid);
    WindowBoundedStep(s, a, r, s', mid);
    if a.PassOver? && a.mid == mid {
      CoolingStep(s, mid, a.world, r, s');
      SpacedStep(s, mid, a.world, r, s');
    } else {
      OthersPace(s, a, r, s', mid);
    }
  }

  lemma NewcomerLedger(s: System, a: Action, r: Pass, s': System, mid: Mid)
    requires Step(s, a, r, s') && TraceOfBorn(s) && mid !in s.objs && mid in s'.objs
    ensures Ledger(s', mid)
  {
    assert a.CreateMachine? && mid == s.born && s'.trace == s.trace;
    NewcomerBalanced(s', mid);
  }

  lemma LedgerStepAt(ss: seq<System>, acts: seq<Action>, rs: seq<Pass>, mid: Mid, i: nat)
    requires Behaviour(ss, acts, rs) && i < |acts| && TraceOfBorn(ss[i]) && History.Persisted(acts[i], mid)
    requires mid in ss[i].objs ==> Ledger(ss[i], mid)
    ensures TraceOfBorn(ss[i + 1])
    ensures mid in ss[i + 1].objs ==> Ledger(ss[i + 1], mid)
  {
    assert Step(ss[i], acts[i], rs[i], ss[i + 1]);
    TraceOfBornStep(ss[i], acts[i], rs[i], ss[i + 1]);
    if mid in ss[i + 1].objs {
      if mid in ss[i].objs {
        LedgerStep(ss[i], acts[i], rs[i], ss[i + 1], mid);
      } else {
        NewcomerLedger(ss[i], acts[i], rs[i], ss[i + 1], mid);
      }
    }
  }

  lemma {:induction false} LedgerAlong(ss: seq<System>, acts: seq<Action>, rs: seq<Pass>, mid: Mid, i: nat)
    requires Behaviour(ss, acts, rs) && i <= |acts|
    requires forall j :: 0 <= j < i ==> History.Persisted(acts[j], mid)
    ensures TraceOfBorn(ss[i])
    ensures mid in ss[i].objs ==> Ledger(ss[i], mid)
  {
    if i > 0 {
      LedgerAlong(ss, acts, rs, mid, i - 1);
      LedgerStepAt(ss, acts, rs, mid, i - 1);
    }
  }

  /** Along every run in which the patches and replies of this machine's passes arrive, whatever
      happens to other machines: the applies it has queued are the failed ones it has seen plus the
      one its marker stands for, and likewise its reboots; so it has queued at most two commands more
      than it has seen failures. Any two commands of one kind are more than 59 s apart, however often
      passes run, and no hold lasts longer than 60 s. */
  lemma {:induction false} CommandsAreAccountedAndPaced(ss: seq<System>, acts: seq<Action>, mid: Mid)
    requires IsRun(ss, acts) && mid in ss[|acts|].objs
    requires forall j :: 0 <= j < |acts| ==> History.Persisted(acts[j], mid)
    ensures var s := ss[|acts|];
      var m := s.objs[mid].marks;
      && Count(s.trace, mid, ApplyMade) == Count(s.trace, mid, ApplyFailed) + (if m.applied then 1 else 0)
      && Count(s.trace, mid, RebootMade) ==
           Count(s.trace, mid, DeedKind.RebootFailed) + (if m.rebootAt.Absent? then 0 else 1)
      && Count(s.trace, mid, ApplyMade) + Count(s.trace, mid, RebootMade)
           <= 2 + Count(s.trace, mid, ApplyFailed) + Count(s.trace, mid, DeedKind.RebootFailed)
    ensures Spaced(ss[|acts|], mid)
    ensures forall now :: now >= ss[|acts|].clock ==>
              RetryWait(ss[|acts|].objs[mid].marks.retryAt, now) <= RETRY_REBOOT
  {
    var rs := RunIsBehaviour(ss, acts);
    LedgerAlong(ss, acts, rs, mid, |acts|);
  }
}
