/** Ownership epochs of one partition: read-then-write of a shared hash under a distributed lock, and
    fencing of stale tokens (biz/service/ownership_epoch_manager.go). */
module Epochs {
  import opened Options

  /** The hash `partition:{id}:ownership`. Its epoch is written before its owner, so the owner can be missing. */
  datatype Record = Absent | Present(epoch: nat, owner: Option<string>)

  /** An absent hash reads as epoch 0. */
  function EpochOf(r: Record): nat {
    if r.Absent? then 0 else r.epoch
  }

  function OwnerOf(r: Record): Option<string> {
    if r.Absent? then None else r.owner
  }

  /** Whether an update to this owner leaves the hash alone; a missing owner of a present hash reads as "". */
  predicate SameOwner(r: Record, owner: string) {
    r.Present? && owner == if r.owner.None? then "" else r.owner.value
  }

  function Updated(r: Record, owner: string): Record {
    if SameOwner(r, owner) then r else Present(EpochOf(r) + 1, Some(owner))
  }

  /** What can go wrong in one update: no lock, no read, or a pipeline that fails after some of its writes. */
  datatype Trouble = Smooth | LockRefused | ReadFails | WriteFails(written: nat)

  function UpdatedDespite(r: Record, owner: string, t: Trouble): Record {
    if t.LockRefused? || t.ReadFails? || SameOwner(r, owner) || t == WriteFails(0) then r
    else if t == WriteFails(1) then Present(EpochOf(r) + 1, OwnerOf(r))
    else Updated(r, owner)
  }

  class OwnershipEpochManager {
    var records: map<string, Record>

    function RecordOf(partition: string): Record
      reads this
    {
      if partition in records then records[partition] else Absent
    }

    constructor ()
      ensures records == map[]
    {
      records := map[];
    }

    method UpdateOwnershipEpoch(partition: string, newOwner: string, t: Trouble) returns (newEpoch: nat, ok: bool)
      modifies this
      ensures RecordOf(partition) == UpdatedDespite(old(RecordOf(partition)), newOwner, t)
      ensures forall p :: p != partition ==> RecordOf(p) == old(RecordOf(p))
      ensures ok <==> t.Smooth? || (t.WriteFails? && SameOwner(old(RecordOf(partition)), newOwner))
      ensures ok ==> newEpoch == EpochOf(RecordOf(partition))
      ensures ok ==> (newEpoch == EpochOf(old(RecordOf(partition))) <==> SameOwner(old(RecordOf(partition)), newOwner))
    {
      newEpoch := 0;
      if t.LockRefused? || t.ReadFails? {
        return newEpoch, false;
      }
      var info := RecordOf(partition);
      var currentEpoch := 0;
      if info.Present? {
        currentEpoch := info.epoch;
        if newOwner == if info.owner.None? then "" else info.owner.value {
          return currentEpoch, true;
        }
      }
      newEpoch := currentEpoch + 1;
      if t != WriteFails(0) {
        records := records[partition := Present(newEpoch, if info.Present? then info.owner else None)];
        if t != WriteFails(1) {
          records := records[partition := Present(newEpoch, Some(newOwner))];
        }
      }
      ok := t.Smooth?;
    }

    /** A failing read answers invalid with epoch 0 and an error. */
    method VerifyOwnershipFencing(partition: string, eventEpoch: int, readable: bool)
      returns (isValid: bool, currentEpoch: nat, ok: bool)
      ensures ok == readable
      ensures currentEpoch == if ok then EpochOf(RecordOf(partition)) else 0
      ensures isValid <==> ok && eventEpoch == EpochOf(RecordOf(partition))
    {
      if !readable {
        return false, 0, false;
      }
      currentEpoch := EpochOf(RecordOf(partition));
      return currentEpoch == eventEpoch, currentEpoch, true;
    }
  }

  // ---- many updaters, one call of the store at a time ----

  /** Who holds the update lock and how far it has got. */
  datatype Holder =
    | Free
    | Locked(pid: nat, owner: string)
    | Decided(pid: nat, owner: string, newEpoch: nat)
    | HalfWritten(pid: nat, owner: string)
    | Done(pid: nat)

  datatype Shared = Shared(record: Record, holder: Holder)

  /** `GiveUp` is a failing call or lost connection that lets the lock go. */
  datatype Action = Acquire(pid: nat, owner: string) | ReadInfo | WriteEpoch | WriteOwner | Release | GiveUp

  /** Actions that the holder's progress does not allow leave the state as it is; an `Acquire` of a
      held lock is a refused or waiting caller. */
  function Step(s: Shared, a: Action): Shared {
    match (a, s.holder)
    case (Acquire(pid, owner), Free) => s.(holder := Locked(pid, owner))
    case (ReadInfo, Locked(pid, owner)) =>
      if SameOwner(s.record, owner) then s.(holder := Done(pid))
      else s.(holder := Decided(pid, owner, EpochOf(s.record) + 1))
    case (WriteEpoch, Decided(pid, owner, e)) => Shared(Present(e, OwnerOf(s.record)), HalfWritten(pid, owner))
    case (WriteOwner, HalfWritten(pid, owner)) => Shared(Present(EpochOf(s.record), Some(owner)), Done(pid))
    case (Release, Done(_)) => s.(holder := Free)
    case (GiveUp, _) => s.(holder := Free)
    case _ => s
  }

  function Run(s: Shared, actions: seq<Action>): Shared
    decreases |actions|
  {
    if actions == [] then s else Run(Step(s, actions[0]), actions[1..])
  }

  // ---- counting owner changes by looking at the owner field alone ----

  /** How often the owner field changes over a run. */
  function OwnerChanges(s: Shared, actions: seq<Action>): nat
    decreases |actions|
  {
    if actions == [] then 0
    else
      var next := Step(s, actions[0]);
      (if OwnerOf(next.record) != OwnerOf(s.record) then 1 else 0) + OwnerChanges(next, actions[1..])
  }

  /** How often an updater gives up between its two writes. */
  function Tears(s: Shared, actions: seq<Action>): nat
    decreases |actions|
  {
    if actions == [] then 0
    else (if s.holder.HalfWritten? && actions[0].GiveUp? then 1 else 0) + Tears(Step(s, actions[0]), actions[1..])
  }

  /** 1 while an update has written its epoch and not yet its owner. */
  function Half(s: Shared): nat {
    if s.holder.HalfWritten? then 1 else 0
  }

  /** The lock holder has read what is still there. */
  ghost predicate Exclusive(s: Shared) {
    && (s.holder.Decided? ==> s.holder.newEpoch == EpochOf(s.record) + 1 && !SameOwner(s.record, s.holder.owner))
    && (s.holder.HalfWritten? ==> OwnerOf(s.record) != Some(s.holder.owner))
  }

  /** The account of the epoch: it rises by one for every change of the owner field and for every torn write,
      the one in progress included. */
  lemma {:induction false} EpochAccount(s: Shared, actions: seq<Action>)
    requires Exclusive(s)
    ensures var t := Run(s, actions);
            && Exclusive(t)
            && EpochOf(t.record) + Half(s) == EpochOf(s.record) + OwnerChanges(s, actions) + Tears(s, actions) + Half(t)
    decreases |actions|
  {
    if actions != [] {
      var next := Step(s, actions[0]);
      assert Exclusive(next) && EpochOf(next.record) + Half(s) ==
             EpochOf(s.record) + (if OwnerOf(next.record) != OwnerOf(s.record) then 1 else 0)
             + (if s.holder.HalfWritten? && actions[0].GiveUp? then 1 else 0) + Half(next);
      hide Step;
      EpochAccount(next, actions[1..]);
    }
  }

  /** A partition nobody has ever owned. */
  predicate Unowned(s: Shared) {
    s == Shared(Absent, Free)
  }

  /** From the start and outside a write in progress, the epoch is the number of owner changes if and only if
      no updater gave up between its two writes. */
  lemma EpochCountsOwnerChanges(s: Shared, actions: seq<Action>)
    requires Unowned(s) && !Run(s, actions).holder.HalfWritten?
    ensures EpochOf(Run(s, actions).record) == OwnerChanges(s, actions) <==> Tears(s, actions) == 0
  {
    EpochAccount(s, actions);
  }

  /** A token taken after `before`, outside a write in progress, passes after `during` if and only if the owner
      field has not changed since and no write was torn since. In between two writes of an update, the first
      of them already counts. */
  lemma FencingExact(s: Shared, before: seq<Action>, during: seq<Action>)
    requires Unowned(s)
    ensures var taken := Run(s, before);
            var now := Run(taken, during);
            EpochOf(now.record) == EpochOf(taken.record) <==>
            OwnerChanges(taken, during) + Tears(taken, during) + Half(now) == Half(taken)
    ensures var taken := Run(s, before);
            var now := Run(taken, during);
            !taken.holder.HalfWritten? && !now.holder.HalfWritten? ==>
              (EpochOf(now.record) == EpochOf(taken.record) <==>
               OwnerChanges(taken, during) == 0 && Tears(taken, during) == 0)
  {
    EpochAccount(s, before);
    EpochAccount(Run(s, before), during);
  }

  /** A run that ends under another owner than it began with has changed the owner. */
  lemma {:induction false} DifferentEndsChanged(s: Shared, actions: seq<Action>)
    requires OwnerOf(Run(s, actions).record) != OwnerOf(s.record)
    ensures OwnerChanges(s, actions) > 0
    decreases |actions|
  {
    hide Step;
    if actions != [] && OwnerOf(Step(s, actions[0]).record) == OwnerOf(s.record) {
      DifferentEndsChanged(Step(s, actions[0]), actions[1..]);
    }
  }

  /** A token taken under one owner stays refused after ownership went elsewhere and came back. */
  lemma ReturnToSameOwnerIsFenced(s: Shared, before: seq<Action>, away: seq<Action>, back: seq<Action>)
    requires Unowned(s)
    requires var taken := Run(s, before);
             var elsewhere := Run(taken, away);
             OwnerOf(Run(elsewhere, back).record) == OwnerOf(taken.record) != OwnerOf(elsewhere.record)
    ensures EpochOf(Run(Run(Run(s, before), away), back).record) > EpochOf(Run(s, before).record)
  {
    var taken := Run(s, before);
    var elsewhere := Run(taken, away);
    EpochAccount(s, before);
    EpochAccount(taken, away);
    EpochAccount(elsewhere, back);
    DifferentEndsChanged(taken, away);
    DifferentEndsChanged(elsewhere, back);
  }

  lemma RunFive(s: Shared, a: Action, b: Action, c: Action, d: Action, e: Action)
    ensures Run(s, [a, b, c, d, e]) == Step(Step(Step(Step(Step(s, a), b), c), d), e)
  {
    hide Step;
    var s1 := Step(s, a);
    var s2 := Step(s1, b);
    var s3 := Step(s2, c);
    var s4 := Step(s3, d);
    var s5 := Step(s4, e);
    assert Run(s5, []) == s5 && Run(s4, [e]) == s5 && Run(s3, [d, e]) == s5 && Run(s2, [c, d, e]) == s5 && Run(s1, [b, c, d, e]) == s5;
  }

  lemma ChangesThree(s: Shared, a: Action, b: Action, c: Action, rest: seq<Action>)
    ensures OwnerChanges(s, [a, b, c] + rest) ==
            Changed(s, a) + Changed(Step(s, a), b) + Changed(Step(Step(s, a), b), c) + OwnerChanges(Step(Step(Step(s, a), b), c), rest)
  {
    hide Step, OwnerOf;
    var l := [a, b, c] + rest;
    assert l[1..][1..][1..] == rest && l[1..][0] == b && l[1..][1..][0] == c;
    assert OwnerChanges(s, l) == Changed(s, a) + OwnerChanges(Step(s, a), l[1..]);
    assert OwnerChanges(Step(s, a), l[1..]) == Changed(Step(s, a), b) + OwnerChanges(Step(Step(s, a), b), l[1..][1..]);
  }

  lemma ChangesFive(s: Shared, a: Action, b: Action, c: Action, d: Action, e: Action)
    ensures var s1 := Step(s, a);
            var s2 := Step(s1, b);
            var s3 := Step(s2, c);
            var s4 := Step(s3, d);
            OwnerChanges(s, [a, b, c, d, e]) == Changed(s, a) + Changed(s1, b) + Changed(s2, c) + Changed(s3, d) + Changed(s4, e)
  {
    hide Step, OwnerOf;
    var s3 := Step(Step(Step(s, a), b), c);
    assert [a, b, c] + [d, e] == [a, b, c, d, e] && [d, e][1..] == [e] && [e][1..] == [];
    ChangesThree(s, a, b, c, [d, e]);
    assert OwnerChanges(s3, [d, e]) == Changed(s3, d) + OwnerChanges(Step(s3, d), [e]);
  }

  function Changed(s: Shared, a: Action): nat {
    if OwnerOf(Step(s, a).record) != OwnerOf(s.record) then 1 else 0
  }

  lemma {:induction false} RunSplits(s: Shared, a: seq<Action>, b: seq<Action>)
    ensures Run(s, a + b) == Run(Run(s, a), b)
    ensures OwnerChanges(s, a + b) == OwnerChanges(s, a) + OwnerChanges(Run(s, a), b)
    decreases |a|
  {
    hide Step;
    if a == [] {
      assert a + b == b;
    } else {
      assert (a + b)[1..] == a[1..] + b;
      RunSplits(Step(s, a[0]), a[1..], b);
    }
  }

  /** One updater gives up after its first write and another completes the same update: the owner has changed
      once and the epoch is 2. */
  lemma TornWriteCountsTwice(s: Shared, owner: string)
    requires Unowned(s) && owner != ""
    ensures var torn := [Acquire(0, owner), ReadInfo, WriteEpoch, GiveUp, Acquire(1, owner)];
            var retried := [ReadInfo, WriteEpoch, WriteOwner, Release, Release];
            var t := Run(s, torn + retried);
            EpochOf(t.record) == 2 && OwnerOf(t.record) == Some(owner) && OwnerChanges(s, torn + retried) == 1
  {
    var torn := [Acquire(0, owner), ReadInfo, WriteEpoch, GiveUp, Acquire(1, owner)];
    var retried := [ReadInfo, WriteEpoch, WriteOwner, Release, Release];
    FirstTry(s, owner);
    SecondTry(Run(s, torn), owner);
    hide Run, OwnerChanges;
    RunSplits(s, torn, retried);
  }

  lemma FirstTry(s: Shared, owner: string)
    requires Unowned(s)
    ensures var torn := [Acquire(0, owner), ReadInfo, WriteEpoch, GiveUp, Acquire(1, owner)];
            Run(s, torn) == Shared(Present(1, None), Locked(1, owner)) && OwnerChanges(s, torn) == 0
  {
    RunFive(s, Acquire(0, owner), ReadInfo, WriteEpoch, GiveUp, Acquire(1, owner));
    ChangesFive(s, Acquire(0, owner), ReadInfo, WriteEpoch, GiveUp, Acquire(1, owner));
    hide Run, OwnerChanges;
  }

  lemma SecondTry(s: Shared, owner: string)
    requires s == Shared(Present(1, None), Locked(1, owner)) && owner != ""
    ensures var retried := [ReadInfo, WriteEpoch, WriteOwner, Release, Release];
            Run(s, retried).record == Present(2, Some(owner)) && OwnerChanges(s, retried) == 1
  {
    RunFive(s, ReadInfo, WriteEpoch, WriteOwner, Release, Release);
    ChangesFive(s, ReadInfo, WriteEpoch, WriteOwner, Release, Release);
    hide Run, OwnerChanges;
  }

  /** The lock makes the store calls of one update act as the single step `Updated`. */
  lemma UpdateIsAtomic(s: Shared, pid: nat, owner: string)
    requires s.holder.Free?
    ensures var t := Run(s, [Acquire(pid, owner), ReadInfo, WriteEpoch, WriteOwner, Release]);
            t.holder.Free? && t.record == Updated(s.record, owner)
  {
    RunFive(s, Acquire(pid, owner), ReadInfo, WriteEpoch, WriteOwner, Release);
  }

  /** The store calls that one update gets through, for each trouble it can meet. */
  function CallsMade(pid: nat, owner: string, t: Trouble): seq<Action> {
    match t
    case LockRefused => []
    case ReadFails => [Acquire(pid, owner), GiveUp, GiveUp, GiveUp, GiveUp]
    case WriteFails(n) =>
      if n == 0 then [Acquire(pid, owner), ReadInfo, GiveUp, GiveUp, GiveUp]
      else if n == 1 then [Acquire(pid, owner), ReadInfo, WriteEpoch, GiveUp, GiveUp]
      else [Acquire(pid, owner), ReadInfo, WriteEpoch, WriteOwner, GiveUp]
    case Smooth => [Acquire(pid, owner), ReadInfo, WriteEpoch, WriteOwner, Release]
  }

  /** What an update leaves behind, troubled or not, is what its store calls leave behind in the runs above. */
  lemma UpdateIsItsCalls(s: Shared, pid: nat, owner: string, t: Trouble)
    requires s.holder.Free?
    ensures var z := Run(s, CallsMade(pid, owner, t));
            z.holder.Free? && z.record == UpdatedDespite(s.record, owner, t)
  {
    match t
    case LockRefused =>
    case ReadFails => RunFive(s, Acquire(pid, owner), GiveUp, GiveUp, GiveUp, GiveUp);
    case WriteFails(n) =>
      if n == 0 {
        RunFive(s, Acquire(pid, owner), ReadInfo, GiveUp, GiveUp, GiveUp);
      } else if n == 1 {
        RunFive(s, Acquire(pid, owner), ReadInfo, WriteEpoch, GiveUp, GiveUp);
      } else {
        RunFive(s, Acquire(pid, owner), ReadInfo, WriteEpoch, WriteOwner, GiveUp);
      }
    case Smooth => RunFive(s, Acquire(pid, owner), ReadInfo, WriteEpoch, WriteOwner, Release);
  }
}
