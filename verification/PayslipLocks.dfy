/** The non-queuing lock of one tenant, company and payslip around a payroll write. */
module PayslipLocks {
  datatype LockKey = LockKey(tenant: string, company: int, payslip: int)

  /** One entry into `hold`: whether it got the lock, and whether it has left. */
  datatype Holding = Holding(key: LockKey, acquired: bool, left: bool)

  class PayslipLockRegistry {
    var active: set<LockKey>

    constructor ()
      ensures active == {}
    {
      active := {};
    }

    method Enter(key: LockKey) returns (h: Holding)
      modifies this
      ensures Locks(active, [h]) == Entered(Locks(old(active), []), key)
    {
      var acquired := key !in active;
      if acquired {
        active := active + {key};
      }
      h := Holding(key, acquired, false);
    }

    /** The `finally` of `hold`: only the entry that got the lock gives it back. */
    method Leave(h: Holding) returns (after: Holding)
      modifies this
      ensures Locks(active, [after]) == Left(Locks(old(active), [h]), 0)
    {
      if h.acquired {
        active := active - {h.key};
      }
      after := h.(left := true);
    }
  }

  // ---------- All interleavings ----------

  datatype Locks = Locks(active: set<LockKey>, entries: seq<Holding>)

  datatype Event = Enter(key: LockKey) | Leave(entry: nat)

  function Entered(s: Locks, key: LockKey): Locks {
    Locks(s.active + {key}, s.entries + [Holding(key, key !in s.active, false)])
  }

  function Left(s: Locks, i: nat): Locks
    requires i < |s.entries|
  {
    var h := s.entries[i];
    Locks(if h.acquired then s.active - {h.key} else s.active, s.entries[i := h.(left := true)])
  }

  function Next(s: Locks, e: Event): Locks {
    match e
    case Enter(key) => Entered(s, key)
    case Leave(i) => if i < |s.entries| && !s.entries[i].left then Left(s, i) else s
  }

  function Exec(events: seq<Event>): Locks {
    if events == [] then Locks({}, []) else Next(Exec(events[..|events| - 1]), events[|events| - 1])
  }

  predicate Inside(s: Locks, i: nat) {
    i < |s.entries| && s.entries[i].acquired && !s.entries[i].left
  }

  ghost predicate Held(s: Locks, k: LockKey) {
    exists i: nat :: Inside(s, i) && s.entries[i].key == k
  }

  ghost predicate Alone(s: Locks) {
    forall i: nat, j: nat | Inside(s, i) && Inside(s, j) && s.entries[i].key == s.entries[j].key :: i == j
  }

  /** The active set is exactly the keys of the entries inside, and no two of them share a key. */
  ghost predicate Exclusive(s: Locks) {
    && Alone(s)
    && forall k :: k in s.active <==> Held(s, k)
  }

  lemma EnterExclusive(s: Locks, key: LockKey)
    requires Exclusive(s)
    ensures Exclusive(Entered(s, key))
  {
    var s' := Entered(s, key);
    var n := |s.entries|;
    forall i: nat ensures Inside(s', i) <==> Inside(s, i) || (i == n && key !in s.active) {}
    assert Held(s, key) <==> key in s.active;
    forall k ensures k in s'.active <==> Held(s', k) {
      assert k in s.active <==> Held(s, k);
      if Held(s, k) {
        var i: nat :| Inside(s, i) && s.entries[i].key == k;
        assert Inside(s', i) && s'.entries[i].key == k;
      }
      if k == key && key !in s.active {
        assert Inside(s', n) && s'.entries[n].key == k;
      }
    }
    forall i: nat | Inside(s, i) && key !in s.active ensures s.entries[i].key != key {
      assert !Held(s, key);
    }
    assert Alone(s');
  }

  lemma LeaveExclusive(s: Locks, e: nat)
    requires Exclusive(s) && e < |s.entries| && !s.entries[e].left
    ensures Exclusive(Left(s, e))
  {
    var s' := Left(s, e);
    forall i: nat ensures Inside(s', i) <==> Inside(s, i) && i != e {}
    forall k ensures k in s'.active <==> Held(s', k) {
      assert k in s.active <==> Held(s, k);
      if Held(s, k) {
        var i: nat :| Inside(s, i) && s.entries[i].key == k;
        if i != e {
          assert Inside(s', i) && s'.entries[i].key == k;
          assert Inside(s, e) ==> s.entries[e].key != k;
        }
      }
    }
    assert Alone(s');
  }

  lemma NextExclusive(s: Locks, e: Event)
    requires Exclusive(s)
    ensures Exclusive(Next(s, e))
  {
    hide Exclusive;
    match e
    case Enter(key) => EnterExclusive(s, key);
    case Leave(i) => if i < |s.entries| && !s.entries[i].left { LeaveExclusive(s, i); }
  }

  /** Whatever the interleaving of entries and exits, the lock excludes and is never leaked. */
  lemma {:induction false} LockExcludes(events: seq<Event>)
    ensures Exclusive(Exec(events))
  {
    if events != [] {
      LockExcludes(events[..|events| - 1]);
      NextExclusive(Exec(events[..|events| - 1]), events[|events| - 1]);
    }
  }

  /** An entry gets the lock exactly when nobody is inside with its key. */
  lemma AcquiredIffFree(events: seq<Event>, key: LockKey)
    ensures var s := Exec(events); Entered(s, key).entries[|s.entries|].acquired <==> !Held(s, key)
  {
    hide Held, Exec;
    LockExcludes(events);
  }
}
