/** Schedules in which no charge to an envelope is overtaken, told from their labels alone. */
module Overlap {
  import opened Basics
  import opened Consent
  import opened Database
  import opened Kernel
  import opened Stability
  import opened Delegation
  import opened Theorems
  import opened Envelopes

  /** The task reads this envelope's budget at `m` and does not charge before `i`. */
  predicate ReadsBefore(schedule: seq<Label>, m: nat, i: nat, tid: nat, id: Id)
    requires m < i <= |schedule|
  {
    && schedule[m].ReadBudget? && schedule[m].tid == tid && schedule[m].envelope == Some(id)
    && forall n | m < n < i :: schedule[n] != Consume(tid)
  }

  /** At `j` a task charges that has read this envelope's budget. */
  predicate MayCharge(schedule: seq<Label>, j: nat, id: Id): (b: bool)
    requires j < |schedule|
    ensures b ==> schedule[j].Consume?
  {
    && schedule[j].Consume?
    && exists m | 0 <= m < j :: schedule[m].ReadBudget? && schedule[m].tid == schedule[j].tid
                                && schedule[m].envelope == Some(id)
  }

  /** Between a task's read of this envelope's budget and its charge, no other task charges the envelope. */
  predicate NoOverlap(schedule: seq<Label>, id: Id) {
    forall m, j, i | 0 <= m < j < i < |schedule| && schedule[i].Consume?
      && ReadsBefore(schedule, m, i, schedule[i].tid, id) && MayCharge(schedule, j, id) ::
        schedule[j].tid == schedule[i].tid
  }

  /** Another task charged this envelope since `m`. */
  predicate OthersCharged(schedule: seq<Label>, m: nat, tid: nat, id: Id) {
    exists j | m < j < |schedule| :: MayCharge(schedule, j, id) && schedule[j].tid != tid
  }

  /** A task about to charge the envelope still sees its row, unless others charged it since the task read it. */
  ghost predicate Current(schedule: seq<Label>, s: State, id: Id) {
    forall tid | tid in s.tasks && s.tasks[tid].pc.Metering? && s.tasks[tid].pc.charge.envelope == id ::
      exists m | 0 <= m < |schedule| ::
        && ReadsBefore(schedule, m, |schedule|, tid, id)
        && (s.tasks[tid].pc.charge.seen == ConsumedOf(s.db.envelopes, id) || OthersCharged(schedule, m, tid, id))
  }

  ghost predicate NoneStale(s: State, id: Id) {
    forall k | 0 <= k < |s.meter| && s.meter[k].charge.envelope == id :: !Stale(s.meter[k])
  }

  // ----- what one step does to reads and charges ---------------------------------------------

  /** The step charges this envelope. */
  predicate Charges(s: State, l: Label, id: Id) {
    && l.Consume? && l.tid in s.tasks && s.tasks[l.tid].pc.Metering? && s.tasks[l.tid].pc.charge.envelope == id
  }

  lemma ConsumeDecided(c: Config, s: State, l: Label)
    ensures Decide(c, s, l).ConsumeBudget? <==> l.Consume? && l.tid in s.tasks && s.tasks[l.tid].pc.Metering?
    ensures Decide(c, s, l).ConsumeBudget? ==>
              var pc := s.tasks[l.tid].pc; Decide(c, s, l) == ConsumeBudget(l.tid, pc.spec, pc.charge)
  {
    hide ParseSpec, MustHold, WithinBoundary, IsActiveEnvelope, CheckAuthorization, EnvelopeCovers, IsPendingList,
         IsShareList, Shares;
  }

  /** Where a task about to charge comes from: it was there before, or has just read the row. */
  lemma MeteringFrom(c: Config, s: State, l: Label, tid: nat)
    requires tid in Step(c, s, l).tasks && Step(c, s, l).tasks[tid].pc.Metering?
    ensures
      var pc := Step(c, s, l).tasks[tid].pc;
      || (tid in s.tasks && s.tasks[tid].pc == pc && l != Consume(tid))
      || (l.ReadBudget? && l.tid == tid && l.envelope == Some(pc.charge.envelope)
          && pc.charge.seen == ConsumedOf(s.db.envelopes, pc.charge.envelope))
  {
    hide Decide, Apply;
    var e := Decide(c, s, l);
    ConsumeDecided(c, s, l);
    MeteringDecided(c, s, l);
    MeteringEffect(s, e, tid);
  }

  lemma MeteringEffect(s: State, e: Effect, tid: nat)
    requires Applicable(s, e) && tid in Apply(s, e).tasks && Apply(s, e).tasks[tid].pc.Metering?
    requires e.TimeOutHold? ==> !e.pc.Metering?
    ensures MeteringKept(s, e, tid)
  {
    hide Apply, MeteringKept;
    if WritesEvent(e) || e.ReserveFor? {
      MeteringWrite(s, e, tid);
    } else {
      MeteringQuiet(s, e, tid);
    }
  }

  ghost predicate MeteringKept(s: State, e: Effect, tid: nat)
    requires Applicable(s, e) && tid in Apply(s, e).tasks
  {
    var pc := Apply(s, e).tasks[tid].pc;
    || (tid in s.tasks && s.tasks[tid].pc == pc && !(e.ConsumeBudget? && e.tid == tid))
    || e == Move(tid, pc)
  }

  lemma MeteringWrite(s: State, e: Effect, tid: nat)
    requires Applicable(s, e) && (WritesEvent(e) || e.ReserveFor?)
    requires tid in Apply(s, e).tasks && Apply(s, e).tasks[tid].pc.Metering?
    requires e.TimeOutHold? ==> !e.pc.Metering?
    ensures MeteringKept(s, e, tid)
  {
    hide TxTrigger, TxRespond, TxTimeout, TxFinalize, Database.Reserve, QuoteCost;
  }

  lemma MeteringQuiet(s: State, e: Effect, tid: nat)
    requires Applicable(s, e) && !WritesEvent(e) && !e.ReserveFor?
    requires tid in Apply(s, e).tasks && Apply(s, e).tasks[tid].pc.Metering?
    ensures MeteringKept(s, e, tid)
  {
    hide TxConsume, TxLifecycle, CreditAll, MintAll;
  }

  lemma MeteringDecided(c: Config, s: State, l: Label)
    ensures var e := Decide(c, s, l);
            && (e.TimeOutHold? ==> !e.pc.Metering?)
            && (e.Move? && e.pc.Metering? ==>
                  && l.ReadBudget? && l.tid == e.tid && l.envelope == Some(e.pc.charge.envelope)
                  && e.pc.charge.seen == ConsumedOf(s.db.envelopes, e.pc.charge.envelope))
  {
    hide ParseSpec, MustHold, WithinBoundary, CheckAuthorization, EnvelopeCovers, IsPendingList,
         IsShareList, Shares, LineageActive, ValidAction, CheckCheckpoint, ParseHoldResponse;
  }

  /** Only a charge to an envelope changes what it has consumed, or adds to its meter. */
  lemma ConsumedKept(c: Config, s: State, l: Label, id: Id)
    requires Reachable(c, s) && !Charges(s, l, id)
    ensures ConsumedOf(Step(c, s, l).db.envelopes, id) == ConsumedOf(s.db.envelopes, id)
    ensures NoneStale(s, id) ==> NoneStale(Step(c, s, l), id)
  {
    hide Run, Decide, Apply, Stale, MetersOk, Inv;
    var e, s' := Decide(c, s, l), Step(c, s, l);
    ConsumeDecided(c, s, l);
    LaterReachable(c, s, [l]);
    RunOne(c, s, l);
    if e.ConsumeBudget? {
      OtherCharged(s, e, id);
    } else {
      EffectFrame(s, e);
      MeterTells(c, s, id);
      MeterTells(c, s', id);
    }
  }

  lemma RunOne(c: Config, s: State, l: Label)
    ensures Run(c, s, [l]) == Step(c, s, l)
  {
    hide Step;
    assert [l][..0] == [];
  }

  lemma MeterTells(c: Config, s: State, id: Id)
    requires Reachable(c, s)
    ensures ConsumedOf(s.db.envelopes, id) == Total(s.meter, id)
  {
    hide Run, Total;
    MeterFacts(c, s);
  }

  lemma OtherCharged(s: State, e: Effect, id: Id)
    requires Applicable(s, e) && e.ConsumeBudget? && e.charge.envelope != id
    ensures ConsumedOf(Apply(s, e).db.envelopes, id) == ConsumedOf(s.db.envelopes, id)
    ensures NoneStale(s, id) ==> NoneStale(Apply(s, e), id)
  {
    hide Stale;
  }

  /** A charge adds itself to the meter, on what the envelope had consumed. */
  lemma ChargeAdds(c: Config, s: State, l: Label, id: Id)
    requires Charges(s, l, id)
    ensures var s' := Step(c, s, l);
            && |s'.meter| == |s.meter| + 1 && s'.meter[..|s.meter|] == s.meter
            && s'.meter[|s.meter|].charge == s.tasks[l.tid].pc.charge
            && s'.meter[|s.meter|].before == ConsumedOf(s.db.envelopes, id)
  {
    hide TxConsume;
  }

  // ----- along a schedule ---------------------------------------------------------------------

  lemma ReadsOn(schedule: seq<Label>, l: Label, m: nat, tid: nat, id: Id)
    requires m < |schedule| && ReadsBefore(schedule, m, |schedule|, tid, id) && l != Consume(tid)
    ensures ReadsBefore(schedule + [l], m, |schedule| + 1, tid, id)
  {
  }

  lemma MayChargeOn(schedule: seq<Label>, l: Label, j: nat, id: Id)
    requires j < |schedule|
    ensures MayCharge(schedule + [l], j, id) == MayCharge(schedule, j, id)
  {
    var longer := schedule + [l];
    assert forall m | 0 <= m < |schedule| :: longer[m] == schedule[m];
  }

  /** A prefix of a schedule without overlap has none. */
  lemma PrefixNoOverlap(schedule: seq<Label>, l: Label, id: Id)
    requires NoOverlap(schedule + [l], id)
    ensures NoOverlap(schedule, id)
  {
    hide MayCharge, ReadsBefore;
    var longer := schedule + [l];
    forall m, j, i | 0 <= m < j < i < |schedule| && schedule[i].Consume?
      && ReadsBefore(schedule, m, i, schedule[i].tid, id) && MayCharge(schedule, j, id)
      ensures schedule[j].tid == schedule[i].tid
    {
      MayChargeOn(schedule, l, j, id);
      ReadsShorter(schedule, l, m, i, schedule[i].tid, id);
      assert longer[i] == schedule[i] && longer[j] == schedule[j];
    }
  }

  lemma ReadsShorter(schedule: seq<Label>, l: Label, m: nat, i: nat, tid: nat, id: Id)
    requires m < i <= |schedule|
    ensures ReadsBefore(schedule + [l], m, i, tid, id) == ReadsBefore(schedule, m, i, tid, id)
  {
    var longer := schedule + [l];
    assert forall n | 0 <= n < |schedule| :: longer[n] == schedule[n];
  }

  /** Who was current stays so over a step, or someone else has charged. */
  lemma CurrentKept(c: Config, schedule: seq<Label>, s: State, l: Label, id: Id)
    requires Reachable(c, s) && Current(schedule, s, id)
    ensures Current(schedule + [l], Step(c, s, l), id)
  {
    hide Run, Step, ReadsBefore, MayCharge, Reachable, OthersCharged, Charges;
    var s', longer := Step(c, s, l), schedule + [l];
    forall tid | tid in s'.tasks && s'.tasks[tid].pc.Metering? && s'.tasks[tid].pc.charge.envelope == id
      ensures exists m | 0 <= m < |longer| ::
        && ReadsBefore(longer, m, |longer|, tid, id)
        && (s'.tasks[tid].pc.charge.seen == ConsumedOf(s'.db.envelopes, id) || OthersCharged(longer, m, tid, id))
    {
      MeteringFrom(c, s, l, tid);
      var m := OneCurrent(c, schedule, s, l, id, tid);
    }
  }

  /** The read of one task that is about to charge. */
  lemma OneCurrent(c: Config, schedule: seq<Label>, s: State, l: Label, id: Id, tid: nat) returns (m: nat)
    requires Reachable(c, s) && Current(schedule, s, id)
    requires tid in Step(c, s, l).tasks && Step(c, s, l).tasks[tid].pc.Metering?
    requires Step(c, s, l).tasks[tid].pc.charge.envelope == id
    ensures m < |schedule| + 1 && ReadsBefore(schedule + [l], m, |schedule| + 1, tid, id)
    ensures Step(c, s, l).tasks[tid].pc.charge.seen == ConsumedOf(Step(c, s, l).db.envelopes, id)
         || OthersCharged(schedule + [l], m, tid, id)
  {
    hide Run, Step, Reachable, OthersCharged, ReadsBefore;
    MeteringFrom(c, s, l, tid);
    if tid in s.tasks && s.tasks[tid].pc == Step(c, s, l).tasks[tid].pc && l != Consume(tid) {
      m :| 0 <= m < |schedule| && ReadsBefore(schedule, m, |schedule|, tid, id)
           && (s.tasks[tid].pc.charge.seen == ConsumedOf(s.db.envelopes, id) || OthersCharged(schedule, m, tid, id));
      ReadsOn(schedule, l, m, tid, id);
      if OthersCharged(schedule, m, tid, id) {
        OthersOn(schedule, l, m, tid, id);
      }
      if Charges(s, l, id) {
        JustCharged(schedule, s, l, m, tid, id);
      } else {
        ConsumedKept(c, s, l, id);
      }
    } else {
      m := |schedule|;
      JustRead(schedule, l, tid, id);
      ConsumedKept(c, s, l, id);
    }
  }

  lemma JustRead(schedule: seq<Label>, l: Label, tid: nat, id: Id)
    requires l.ReadBudget? && l.tid == tid && l.envelope == Some(id)
    ensures ReadsBefore(schedule + [l], |schedule|, |schedule| + 1, tid, id)
  {
  }

  lemma OthersOn(schedule: seq<Label>, l: Label, m: nat, tid: nat, id: Id)
    requires OthersCharged(schedule, m, tid, id)
    ensures OthersCharged(schedule + [l], m, tid, id)
  {
    hide MayCharge;
    var j :| m < j < |schedule| && MayCharge(schedule, j, id) && schedule[j].tid != tid;
    MayChargeOn(schedule, l, j, id);
    assert (schedule + [l])[j] == schedule[j];
  }

  /** A charge by another task is what `OthersCharged` speaks of. */
  lemma JustCharged(schedule: seq<Label>, s: State, l: Label, m: nat, tid: nat, id: Id)
    requires m < |schedule| && Charges(s, l, id) && l.tid != tid && Current(schedule, s, id)
    ensures OthersCharged(schedule + [l], m, tid, id)
  {
    var longer, j := schedule + [l], |schedule|;
    var read :| 0 <= read < |schedule| && ReadsBefore(schedule, read, |schedule|, l.tid, id);
    assert longer[j] == l && longer[read] == schedule[read];
    assert MayCharge(longer, j, id);
  }

  /** A charge without overlap is on a current read. */
  lemma ChargeIsCurrent(c: Config, schedule: seq<Label>, s: State, l: Label, id: Id)
    requires Reachable(c, s) && Current(schedule, s, id) && NoOverlap(schedule + [l], id) && Charges(s, l, id)
    ensures s.tasks[l.tid].pc.charge.seen == ConsumedOf(s.db.envelopes, id)
  {
    hide Run, ReadsBefore, MayCharge, Reachable;
    var longer, i := schedule + [l], |schedule|;
    var m :| 0 <= m < |schedule| && ReadsBefore(schedule, m, |schedule|, l.tid, id)
      && (s.tasks[l.tid].pc.charge.seen == ConsumedOf(s.db.envelopes, id) || OthersCharged(schedule, m, l.tid, id));
    ReadsShorter(schedule, l, m, i, l.tid, id);
    assert longer[i] == l;
    forall j | m < j < |schedule| && MayCharge(schedule, j, id)
      ensures schedule[j].tid == l.tid
    {
      MayChargeOn(schedule, l, j, id);
      assert longer[j] == schedule[j];
    }
  }

  lemma {:induction false} Fresh(c: Config, schedule: seq<Label>, id: Id)
    requires NoOverlap(schedule, id)
    ensures Current(schedule, Run(c, Init(), schedule), id) && NoneStale(Run(c, Init(), schedule), id)
    decreases |schedule|
  {
    hide Step, NoOverlap, Current, NoneStale, Reachable, Charges;
    if schedule == [] {
      NothingYet(id);
    } else {
      var n := |schedule| - 1;
      var before, l := schedule[..n], schedule[n];
      var s := Run(c, Init(), before);
      assert schedule == before + [l];
      PrefixNoOverlap(before, l, id);
      Fresh(c, before, id);
      RunReachable(c, before);
      CurrentKept(c, before, s, l, id);
      if Charges(s, l, id) {
        ChargeIsCurrent(c, before, s, l, id);
        FreshCharge(c, s, l, id);
      } else {
        ConsumedKept(c, s, l, id);
      }
    }
  }

  lemma FreshCharge(c: Config, s: State, l: Label, id: Id)
    requires Charges(s, l, id) && NoneStale(s, id)
    requires s.tasks[l.tid].pc.charge.seen == ConsumedOf(s.db.envelopes, id)
    ensures NoneStale(Step(c, s, l), id)
  {
    hide Step;
    ChargeAdds(c, s, l, id);
    var s' := Step(c, s, l);
    assert forall k | 0 <= k < |s.meter| :: s'.meter[k] == s'.meter[..|s.meter|][k];
  }

  lemma NothingYet(id: Id)
    ensures Current([], Init(), id) && NoneStale(Init(), id)
  {
  }

  lemma RunReachable(c: Config, schedule: seq<Label>)
    ensures Reachable(c, Run(c, Init(), schedule))
  {
    hide Run;
  }

  /** When no charges to an envelope overlap, none of them is made on a stale read. */
  lemma NoOverlapNoStale(c: Config, schedule: seq<Label>, id: Id)
    requires NoOverlap(schedule, id)
    ensures var s := Run(c, Init(), schedule);
            forall k | 0 <= k < |s.meter| && s.meter[k].charge.envelope == id :: !Stale(s.meter[k])
  {
    hide Run, Stale;
    Fresh(c, schedule, id);
  }

  /** When no charges to it overlap, an active envelope has budget left. */
  lemma SerialHasRoom(c: Config, schedule: seq<Label>, id: Id)
    requires NoOverlap(schedule, id)
    ensures var s := Run(c, Init(), schedule);
            id in s.db.envelopes && s.db.envelopes[id].status.EnvActive? ==>
              s.db.envelopes[id].consumed < s.db.envelopes[id].budget
  {
    hide Run, NoOverlap, Stale;
    var s := Run(c, Init(), schedule);
    NoOverlapNoStale(c, schedule, id);
    RunReachable(c, schedule);
    if id in s.db.envelopes && s.db.envelopes[id].status.EnvActive? {
      ActiveHasRoom(c, s, id);
    }
  }

  /** When no charges to it overlap, every multiple of its interval is reported by exactly one charge. */
  lemma SerialReports(c: Config, schedule: seq<Label>, id: Id, r: nat, q: nat) returns (k: nat)
    requires NoOverlap(schedule, id) && r > 0 && q > 0
    requires var s := Run(c, Init(), schedule);
             id in s.db.envelopes && s.db.envelopes[id].reportEvery == Some(r) && q * r <= s.db.envelopes[id].consumed
    ensures var s := Run(c, Init(), schedule);
            && k < |s.meter| && Crosses(s.meter[k], id, q * r)
            && (forall j | 0 <= j < |s.meter| && j != k :: !Crosses(s.meter[j], id, q * r))
            && (s.meter[k].charge.level.Report? || s.meter[k].charge.level.Halt?)
  {
    hide Run, NoOverlap, Stale;
    NoOverlapNoStale(c, schedule, id);
    RunReachable(c, schedule);
    k := EveryMultipleReported(c, Run(c, Init(), schedule), id, r, q);
  }

  // ----- calls one after the other -----------------------------------------------------------

  /** The steps of each task stand together: no other task's step comes between two of them. */
  predicate OneByOne(schedule: seq<Label>) {
    forall m, j, i | 0 <= m < j < i < |schedule|
      && OfTask(schedule[m]) && OfTask(schedule[i]) && OfTask(schedule[j]) && schedule[m].tid == schedule[i].tid ::
        schedule[j].tid == schedule[i].tid
  }

  /** Submissions that run one by one do not overlap on any envelope. */
  lemma OneByOneNoOverlap(schedule: seq<Label>, id: Id)
    requires OneByOne(schedule)
    ensures NoOverlap(schedule, id)
  {
  }

  /** The task has no step yet. */
  predicate New(schedule: seq<Label>, tid: nat) {
    forall i | 0 <= i < |schedule| && OfTask(schedule[i]) :: schedule[i].tid != tid
  }

  /** One more submission, under a new task id and uninterrupted, keeps the schedule one by one. */
  lemma OneMoreCall(schedule: seq<Label>, tid: nat, later: seq<Label>)
    requires OneByOne(schedule) && New(schedule, tid)
    requires schedule <= later && forall i | |schedule| <= i < |later| && OfTask(later[i]) :: later[i].tid == tid
    ensures OneByOne(later)
  {
  }

  /** A tick, a checkpoint or the passing of time is no submission's step. */
  lemma OneMoreOther(schedule: seq<Label>, l: Label)
    requires OneByOne(schedule) && !OfTask(l)
    ensures OneByOne(schedule + [l])
  {
  }
}
