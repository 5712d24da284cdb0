/**
 Which queued keys the start loop starts: in each direction the first ones, as many as there are
 free slots, in queue order.
 */
module StartOrder {
  import opened Basics
  import opened Arithmetic
  import opened Sequences
  import opened SchedulerState
  import opened Invariants

  function OfDir(q: seq<Key>, d: Direction): seq<Key> {
    if q == [] then []
    else if q[0].dir == d then [q[0]] + OfDir(q[1..], d)
    else OfDir(q[1..], d)
  }

  function KeysOf(runs: seq<Run>): seq<Key> {
    if runs == [] then [] else KeysOf(runs[..|runs| - 1]) + [runs[|runs| - 1].key]
  }

  lemma {:induction false} OfDirAppend(q: seq<Key>, r: seq<Key>, d: Direction)
    ensures OfDir(q + r, d) == OfDir(q, d) + OfDir(r, d)
  {
    if q == [] {
      assert q + r == r;
    } else {
      assert (q + r)[1..] == q[1..] + r;
      OfDirAppend(q[1..], r, d);
    }
  }

  lemma OfDirSnoc(q: seq<Key>, k: Key, d: Direction)
    ensures OfDir(q + [k], d) == OfDir(q, d) + (if k.dir == d then [k] else [])
  {
    OfDirAppend(q, [k], d);
    assert [k][1..] == [];
  }

  /** A pass touches the queue, the active map, the spawned workers and the emissions, nothing else. */
  lemma {:induction false} PassFrame(s: Sched, keys: seq<Key>)
    ensures s.ExamineAll(keys) ==
            s.(queued := s.ExamineAll(keys).queued, queuedSet := s.ExamineAll(keys).queuedSet,
               active := s.ExamineAll(keys).active, spawned := s.ExamineAll(keys).spawned,
               emitted := s.ExamineAll(keys).emitted)
    decreases |keys|
  {
    if keys != [] {
      PassFrame(s.Examine(keys[0]), keys[1..]);
    }
  }

  /** How many more workers of direction `d` may be started. */
  function Free(s: Sched, d: Direction): int {
    s.Max(d) - s.ActiveIn(d)
  }

  /**
   `started` and `queued` grew to `started'` and `queued'` by splitting `waiting` after the first `free` keys.
   */
  ghost predicate SplitFirst(free: int, waiting: seq<Key>, started: seq<Key>, queued: seq<Key>,
                             started': seq<Key>, queued': seq<Key>)
  {
    var n := Min(free, |waiting|);
    && 0 <= n
    && started' == started + waiting[..n]
    && queued' == queued + waiting[n..]
  }

  /** The part of `PassStartsFirst` that concerns one direction. */
  ghost predicate StartedFirst(s: Sched, rest: seq<Key>, s': Sched, d: Direction) {
    SplitFirst(Free(s, d), OfDir(Keep(rest, s.groups.Keys), d), OfDir(KeysOf(s.spawned), d), OfDir(s.queued, d),
               OfDir(KeysOf(s'.spawned), d), OfDir(s'.queued, d))
  }

  lemma PassHead(s: Sched, rest: seq<Key>, d: Direction)
    requires InPass(s, rest)
    ensures 0 <= Free(s, d)
    ensures rest != [] ==> rest[0] !in s.active && NoDup(rest[1..]) && rest[0] !in rest[1..] && rest[0] !in s.queued
  {
    if rest != [] {
      NoDupTail(rest);
      assert rest[0] in Elems(rest);
    }
  }

  lemma {:induction false} PassStartsFirst(s: Sched, rest: seq<Key>, d: Direction)
    requires InPass(s, rest)
    ensures StartedFirst(s, rest, s.ExamineAll(rest), d)
    decreases |rest|
  {
    hide InPass;
    PassHead(s, rest, d);
    if rest == [] {
    } else {
      ExamineKeepsPass(s, rest);
      PassStartsFirst(s.Examine(rest[0]), rest[1..], d);
      ExamineOne(s, rest[0], d);
      StartedFirstStep(s, s.Examine(rest[0]), rest, s.ExamineAll(rest), d);
    }
  }

  /** One more key at the front of what waits: it is started if there is a free slot, else put back. */
  lemma SplitCons(free: int, key: Key, later: seq<Key>, a: seq<Key>, q: seq<Key>, a': seq<Key>, q': seq<Key>)
    requires 0 <= free
    requires if 0 < free then SplitFirst(free - 1, later, a + [key], q, a', q')
             else SplitFirst(0, later, a, q + [key], a', q')
    ensures SplitFirst(free, [key] + later, a, q, a', q')
  {}

  /** What examining one key does to one direction's started and queued keys. */
  ghost predicate OneExamined(s: Sched, key: Key, s1: Sched, d: Direction) {
    var hit := key.dir == d && key in s.groups;
    && s1.groups == s.groups
    && OfDir(KeysOf(s1.spawned), d) == OfDir(KeysOf(s.spawned), d) + (if hit && 0 < Free(s, d) then [key] else [])
    && OfDir(s1.queued, d) == OfDir(s.queued, d) + (if hit && Free(s, d) <= 0 then [key] else [])
    && Free(s1, d) == Free(s, d) - (if hit && 0 < Free(s, d) then 1 else 0)
  }

  lemma ExamineOne(s: Sched, key: Key, d: Direction)
    requires key !in s.active
    ensures OneExamined(s, key, s.Examine(key), d)
  {
    hide OfDir, KeysOf, CountIn;
    if key in s.groups {
      if s.CanStart(key.dir) {
        StartAppends(s, key, d);
      } else {
        OfDirSnoc(s.queued, key, d);
      }
    }
  }

  lemma StartedFirstStep(s: Sched, s1: Sched, rest: seq<Key>, s': Sched, d: Direction)
    requires rest != [] && 0 <= Free(s, d) && OneExamined(s, rest[0], s1, d)
    requires StartedFirst(s1, rest[1..], s', d)
    ensures StartedFirst(s, rest, s', d)
  {
    hide OfDir, KeysOf, Free, SplitFirst, Min;
    var key := rest[0];
    var a, q := OfDir(KeysOf(s.spawned), d), OfDir(s.queued, d);
    var a', q' := OfDir(KeysOf(s'.spawned), d), OfDir(s'.queued, d);
    var later := OfDir(Keep(rest[1..], s.groups.Keys), d);
    assert a + [] == a && q + [] == q;
    if key in s.groups {
      WaitingCons(key, Keep(rest[1..], s.groups.Keys), d);
      if key.dir == d {
        SplitCons(Free(s, d), key, later, a, q, a', q');
      }
    }
  }

  lemma WaitingCons(key: Key, q: seq<Key>, d: Direction)
    ensures OfDir([key] + q, d) == if key.dir == d then [key] + OfDir(q, d) else OfDir(q, d)
  {}

  lemma StartAppends(s: Sched, key: Key, d: Direction)
    requires key in s.groups && key !in s.active
    ensures OfDir(KeysOf(s.Start(key).spawned), d) == OfDir(KeysOf(s.spawned), d) + (if key.dir == d then [key] else [])
    ensures Free(s.Start(key), d) == Free(s, d) - (if key.dir == d then 1 else 0)
  {
    var after := s.Start(key).spawned;
    assert after[..|after| - 1] == s.spawned;
    OfDirSnoc(KeysOf(s.spawned), key, d);
    CountGrows(s.active, key, |s.spawned|, d);
  }

  /** Keys that stay queued keep their relative order, across both directions. */
  lemma {:induction false} PassKeepsOrder(s: Sched, rest: seq<Key>)
    requires InPass(s, rest)
    ensures s.ExamineAll(rest).queued == s.queued + Keep(rest, s.ExamineAll(rest).queuedSet)
    decreases |rest|
  {
    hide InPass;
    PassHead(s, rest, Upload);
    if rest == [] {
    } else {
      ExamineKeepsPass(s, rest);
      ExamineAllKeepsPass(s, rest);
      PassKeepsOrder(s.Examine(rest[0]), rest[1..]);
      PassMirror(s.ExamineAll(rest));
      OrderStep(s.queued, s.Examine(rest[0]).queued, rest, s.ExamineAll(rest).queued, s.ExamineAll(rest).queuedSet);
    }
  }

  lemma PassMirror(s: Sched)
    requires InPass(s, [])
    ensures forall k :: k in s.queued <==> k in s.queuedSet
  {}

  lemma OrderStep(before: seq<Key>, after: seq<Key>, rest: seq<Key>, result: seq<Key>, kept: set<Key>)
    requires rest != [] && rest[0] !in rest[1..] && rest[0] !in before
    requires after == before || after == before + [rest[0]]
    requires forall k :: k in result <==> k in kept
    requires result == after + Keep(rest[1..], kept)
    ensures result == before + Keep(rest, kept)
  {
    KeepElems(rest[1..], kept);
    if after == before {
      assert rest[0] !in result;
    } else {
      assert result[|before|] == rest[0];
    }
  }

  /**
   The start loop's specification: in direction `d` it starts exactly the first live queued keys,
   as many as there are free slots; the other live keys stay queued in their order; dead keys go.
   */
  lemma StartsExactlyTheFirst(s: Sched, d: Direction)
    requires Core(s)
    ensures var waiting := OfDir(Keep(s.queued, s.groups.Keys), d);
            var n := Min(Free(s, d), |waiting|);
            && 0 <= n
            && OfDir(KeysOf(s.TryStart().spawned), d) == OfDir(KeysOf(s.spawned), d) + waiting[..n]
            && OfDir(s.TryStart().queued, d) == waiting[n..]
    ensures s.TryStart().queued == Keep(s.queued, s.TryStart().queuedSet)
  {
    hide InPass, Core;
    var s0 := s.(queued := [], queuedSet := {});
    CoreStartsPass(s);
    PassHead(s0, s.queued, d);
    PassStartsFirst(s0, s.queued, d);
    PassKeepsOrder(s0, s.queued);
    assert OfDir([], d) == [];
  }

  /** Once nothing waits behind a free slot, another round changes nothing. */
  lemma SecondRoundStartsNothing(s: Sched)
    requires Top(s)
    ensures s.TryStart() == s
  {
    hide Identity, Tokens, Bounded, CountIn;
    var s0 := s.(queued := [], queuedSet := {});
    PutAllBack(s0, s.queued);
    assert [] + s.queued == s.queued;
    assert {} + Elems(s.queued) == s.queuedSet;
  }

  lemma PushKeepsFull(s: Sched, key: Key)
    ensures forall d :: s.Push(key).CanStart(d) == s.CanStart(d)
  {
    hide CountIn;
  }

  lemma {:induction false} PutAllBack(s: Sched, rest: seq<Key>)
    requires forall k :: k in rest ==> k !in s.active && k in s.groups && !s.CanStart(k.dir)
    ensures s.ExamineAll(rest) == s.(queued := s.queued + rest, queuedSet := s.queuedSet + Elems(rest))
    decreases |rest|
  {
    hide CountIn, Sched.Start, Sched.CanStart;
    if rest == [] {
      assert s.queued + rest == s.queued;
      assert s.queuedSet + Elems(rest) == s.queuedSet;
    } else {
      assert rest == [rest[0]] + rest[1..];
      PushKeepsFull(s, rest[0]);
      PutAllBack(s.Push(rest[0]), rest[1..]);
      assert s.queued + [rest[0]] + rest[1..] == s.queued + rest;
      assert s.queuedSet + {rest[0]} + Elems(rest[1..]) == s.queuedSet + Elems(rest);
    }
  }
}
