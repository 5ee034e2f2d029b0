/** One multipart upload per object key, although any storage call may fail or lose its answer. */
module Provisioning {
  import opened Common
  import opened Pager

  /** A storage call that changes something: refused, done with the answer lost, or done and answered. */
  datatype Outcome = Refused | AnswerLost | Answered

  /** How the storage calls and the commit of one attempt turn out; aborted holds the leftovers really removed. */
  datatype Attempt = Attempt(listed: bool, aborted: set<nat>, created: Outcome, newId: nat, committed: bool)

  /** The file row's part in provisioning and the unfinished uploads that storage keeps for its key. */
  datatype Slot = Slot(uploading: bool, committed: Option<nat>, active: set<nat>, issued: set<nat>)

  /** One attempt: the new slot and the multipart id handed to the caller, if any. */
  function Provisioned(s: Slot, a: Attempt): (Slot, Option<nat>) {
    if !s.uploading then (s, None)
    else if s.committed.Some? then (s, s.committed)
    else if !a.listed then (s, None)
    else if |s.active| == 1 then
      if a.committed then (s.(committed := Some(Single(s.active))), Some(Single(s.active))) else (s, None)
    else
      var left := s.active - a.aborted;
      match a.created
      case Refused => (s.(active := left), None)
      case AnswerLost => (s.(active := left + {a.newId}, issued := s.issued + {a.newId}), None)
      case Answered =>
        var t := s.(active := left + {a.newId}, issued := s.issued + {a.newId});
        if a.committed then (t.(committed := Some(a.newId)), Some(a.newId)) else (t, None)
  }

  function Single(active: set<nat>): (x: nat)
    requires |active| == 1
    ensures active == {x}
  {
    SingletonHasOne(active);
    var x :| x in active && active == {x};
    x
  }

  lemma SingletonHasOne(active: set<nat>)
    requires |active| == 1
    ensures exists x :: x in active && active == {x}
  {
    var x :| x in active;
    assert |active - {x}| == 0;
    assert active == {x};
  }

  class FileSlot {
    var uploading: bool
    var multipartId: Option<nat>
    var active: set<nat>
    var issued: set<nat>

    function Value(): Slot
      reads this
    {
      Slot(uploading, multipartId, active, issued)
    }

    /** Abort every leftover; those whose abort fails stay for the janitor. */
    method AbortLeftovers(listing: seq<nat>, aborted: set<nat>)
      requires SortedListOf(listing, active)
      modifies this`active
      ensures active == old(active) - aborted
    {
      for i := 0 to |listing|
        invariant forall x :: x in active <==> x in old(active) && !(x in listing[..i] && x in aborted)
      {
        if listing[i] in aborted {
          active := active - {listing[i]};
        }
        assert listing[..i + 1] == listing[..i] + [listing[i]];
      }
      assert listing[..|listing|] == listing;
    }

    /** The attempt as the service makes it, over a storage that lists this key exactly. */
    method ProvisionUpload(listing: seq<nat>, a: Attempt) returns (id: Option<nat>)
      requires SortedListOf(listing, active)
      modifies this
      ensures (Value(), id) == Provisioned(old(Value()), a)
    {
      if !uploading {
        return None;
      }
      if multipartId.Some? {
        return multipartId;
      }
      if !a.listed {
        return None;
      }
      ListLength(listing, active);
      if |listing| == 1 {
        assert listing[0] in active;
        assert active == {listing[0]};
        if a.committed {
          multipartId := Some(listing[0]);
          return multipartId;
        }
        return None;
      }
      AbortLeftovers(listing, a.aborted);
      if a.created == Refused {
        return None;
      }
      active := active + {a.newId};
      issued := issued + {a.newId};
      if a.created == AnswerLost || !a.committed {
        return None;
      }
      multipartId := Some(a.newId);
      return multipartId;
    }
  }

  lemma {:induction false} ListLength(ids: seq<nat>, s: set<nat>)
    requires SortedListOf(ids, s)
    ensures |ids| == |s|
  {
    if ids == [] {
      assert s == {};
    } else {
      var last := ids[|ids| - 1];
      var front := ids[..|ids| - 1];
      forall x ensures x in front <==> x in s - {last} {
        if x in s - {last} {
          var i :| 0 <= i < |ids| && ids[i] == x;
          assert front[i] == x;
        }
      }
      ListLength(front, s - {last});
    }
  }

  // ----- every sequence of attempts, completions and expiries -----

  datatype Event = Try(attempt: Attempt) | StorageCompleted | Expire(aborted: bool) | LeaveUploading

  predicate Enabled(s: Slot, e: Event) {
    match e
    case Try(a) => a.newId !in s.issued
    case StorageCompleted => s.uploading && s.committed.Some?
    case Expire(_) => s.uploading
    case LeaveUploading => s.uploading
  }

  function Apply(s: Slot, e: Event): Slot {
    match e
    case Try(a) => Provisioned(s, a).0
    case StorageCompleted => if s.committed.Some? then s.(active := s.active - {s.committed.value}) else s
    case Expire(aborted) =>
      var t := s.(uploading := false);
      if aborted && s.committed.Some? then t.(active := s.active - {s.committed.value}) else t
    case LeaveUploading => s.(uploading := false)
  }

  const NEW := Slot(true, None, {}, {})

  /** At most one unfinished upload; a committed one is the only one there can be. */
  predicate Inv(s: Slot) {
    && |s.active| <= 1
    && s.active <= s.issued
    && (s.committed.Some? ==> s.active <= {s.committed.value})
  }

  ghost predicate IsRun(slots: seq<Slot>, events: seq<Event>) {
    && |slots| == |events| + 1
    && slots[0] == NEW
    && forall i :: 0 <= i < |events| ==> Enabled(slots[i], events[i]) && slots[i + 1] == Apply(slots[i], events[i])
  }

  lemma AtMostOne(s: set<nat>, x: nat)
    requires |s| <= 1 && |s| != 1
    ensures s == {} && s + {x} == {x}
  {
  }

  lemma StepKeepsInv(s: Slot, e: Event)
    requires Inv(s) && Enabled(s, e)
    ensures Inv(Apply(s, e))
    ensures s.committed.Some? ==> Apply(s, e).committed == s.committed
  {
    if e.Try? && s.uploading && s.committed.None? && |s.active| != 1 {
      AtMostOne(s.active, e.attempt.newId);
      assert s.active - e.attempt.aborted == {};
    } else if !e.Try? && s.committed.Some? {
      var m := s.committed.value;
      assert s.active - {m} == {};
    }
  }

  /** In every reachable state the key has at most one unfinished upload. */
  lemma {:induction false} OneActiveUpload(slots: seq<Slot>, events: seq<Event>, i: nat)
    requires IsRun(slots, events) && i < |slots|
    ensures |slots[i].active| <= 1 && Inv(slots[i])
  {
    if i > 0 {
      OneActiveUpload(slots, events, i - 1);
      StepKeepsInv(slots[i - 1], events[i - 1]);
    }
  }

  /** Completing the committed upload, or expiring it with an abort that succeeds, leaves none unfinished. */
  lemma OverLeavesNone(slots: seq<Slot>, events: seq<Event>, i: nat)
    requires IsRun(slots, events) && i < |events| && slots[i].committed.Some?
    requires events[i] == StorageCompleted || events[i] == Expire(true)
    ensures slots[i + 1].active == {}
  {
    OneActiveUpload(slots, events, i);
  }

  /** A committed id never changes, so all callers that ever get an id get the same one. */
  lemma {:induction false} CommittedForEver(slots: seq<Slot>, events: seq<Event>, i: nat, k: nat)
    requires IsRun(slots, events) && i <= k < |slots| && slots[i].committed.Some?
    ensures slots[k].committed == slots[i].committed
    decreases k
  {
    if i < k {
      CommittedForEver(slots, events, i, k - 1);
      CommittedOnce(slots, events, k - 1);
    }
  }

  lemma CommittedOnce(slots: seq<Slot>, events: seq<Event>, i: nat)
    requires IsRun(slots, events) && i < |events| && slots[i].committed.Some?
    ensures slots[i + 1].committed == slots[i].committed
  {
    OneActiveUpload(slots, events, i);
    StepKeepsInv(slots[i], events[i]);
  }

  lemma CallersAgree(slots: seq<Slot>, events: seq<Event>, i: nat, k: nat)
    requires IsRun(slots, events) && i < |events| && k < |events| && events[i].Try? && events[k].Try?
    requires var x, y := Provisioned(slots[i], events[i].attempt).1, Provisioned(slots[k], events[k].attempt).1;
      x.Some? && y.Some?
    ensures Provisioned(slots[i], events[i].attempt).1 == Provisioned(slots[k], events[k].attempt).1
  {
    if i <= k {
      CommittedForEver(slots, events, i + 1, k + 1);
    } else {
      CommittedForEver(slots, events, k + 1, i + 1);
    }
  }

  /** From here to there nothing but attempts whose listing or commit failed. */
  predicate OnlyFailedAttempts(events: seq<Event>, i: nat, k: nat) {
    forall n :: i <= n < k && n < |events| ==>
        events[n].Try? && !(events[n].attempt.listed && events[n].attempt.committed)
  }

  lemma {:induction false} DanglingStays(slots: seq<Slot>, events: seq<Event>, i: nat, k: nat)
    requires IsRun(slots, events) && i <= k < |slots|
    requires slots[i].uploading && slots[i].committed.None? && |slots[i].active| == 1
    requires OnlyFailedAttempts(events, i, k)
    ensures slots[k] == slots[i]
    decreases k
  {
    if i < k {
      DanglingStays(slots, events, i, k - 1);
    }
  }

  /**
   * An upload whose creation was never recorded (the answer lost, or a crash before the commit) is
   * adopted by the next attempt that can list and commit; no second upload is created.
   */
  lemma DanglingIsAdopted(slots: seq<Slot>, events: seq<Event>, i: nat, k: nat)
    requires IsRun(slots, events) && i < k < |events|
    requires slots[i].uploading && slots[i].committed.None? && slots[i].active == {}
    requires events[i].Try? && events[i].attempt.listed && events[i].attempt.created != Refused
    requires events[i].attempt.created == AnswerLost || !events[i].attempt.committed
    requires OnlyFailedAttempts(events, i + 1, k)
    requires events[k].Try? && events[k].attempt.listed && events[k].attempt.committed
    ensures Provisioned(slots[k], events[k].attempt).1 == Some(events[i].attempt.newId)
    ensures slots[k + 1].active == {events[i].attempt.newId}
  {
    var newId := events[i].attempt.newId;
    assert slots[i + 1].active == {newId};
    assert |slots[i + 1].active| == 1;
    DanglingStays(slots, events, i + 1, k);
    assert Single(slots[k].active) in slots[k].active;
  }

  /** A first attempt that is answered and committed returns its new id, now the only active and committed one. */
  lemma FirstAttemptSucceeds(s: Slot, a: Attempt)
    requires s.uploading && s.committed.None? && s.active == {}
    requires a.listed && a.created == Answered && a.committed
    ensures Provisioned(s, a) == (Slot(true, Some(a.newId), {a.newId}, s.issued + {a.newId}), Some(a.newId))
  {
    assert s.active - a.aborted + {a.newId} == {a.newId};
  }

  /** However many leftovers there were, an attempt whose aborts succeed leaves one unfinished upload at most. */
  lemma LeftoversAreCleared(s: Slot, a: Attempt)
    requires s.uploading && s.committed.None? && a.listed && |s.active| != 1 && s.active <= a.aborted
    ensures Provisioned(s, a).0.active == if a.created == Refused then {} else {a.newId}
  {
    assert s.active - a.aborted == {};
  }

  /** Once an id is committed, every later attempt returns it and does nothing, until the file leaves UPLOADING. */
  lemma CommittedAnswers(s: Slot, a: Attempt)
    requires s.committed.Some?
    ensures Provisioned(s, a) == (s, if s.uploading then s.committed else None)
  {
  }

  /** An attempt returns an id exactly when it ends with that id committed for a file still UPLOADING. */
  lemma ReturnsCommitted(s: Slot, a: Attempt)
    ensures Provisioned(s, a).1.Some? <==> s.uploading && Provisioned(s, a).0.committed.Some?
    ensures Provisioned(s, a).1.Some? ==> Provisioned(s, a).1 == Provisioned(s, a).0.committed
    ensures Provisioned(s, a).0.committed != s.committed ==> a.listed && a.committed
  {
  }
}
