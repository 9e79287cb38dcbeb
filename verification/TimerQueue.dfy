/** server/timer_queue.h: one deadline per token, kept in a heap whose outdated entries are
    left in place and recognised by their generation when they come up. */
module TimerQueue {
  /** Nanoseconds of a monotone clock. */
  type Time = int

  /** The identity of a connection; never interpreted. */
  type Token = nat

  const NS_PER_MS: int := 1_000_000
  const MAX_SLEEP_MS: int := 0x3fffffff

  datatype Entry = Entry(when: Time, token: Token, gen: nat)

  /** t is the token with the earliest deadline (one of them, if several share it). */
  ghost predicate Earliest(due: map<Token, Time>, t: Token) {
    t in due && forall u :: u in due ==> due[t] <= due[u]
  }

  /** The number of whole milliseconds from now until a deadline. */
  function SleepUntil(deadline: Time, now: Time): int {
    if deadline < now then 0
    else if (deadline - now) / NS_PER_MS > MAX_SLEEP_MS then MAX_SLEEP_MS
    else (deadline - now) / NS_PER_MS
  }

  /** What timeout_ms has to answer for the given deadlines. */
  ghost predicate RightTimeout(due: map<Token, Time>, now: Time, ms: int) {
    if due == map[] then ms == -1
    else exists t :: Earliest(due, t) && ms == SleepUntil(due[t], now)
  }

  /** Sleeping for the answer never oversleeps a deadline that has not passed; unless the answer
      is capped, less than one more millisecond is left then; it is 0 once less than a
      millisecond is left; -1 means that nothing is armed. */
  lemma NeverOversleeps(due: map<Token, Time>, now: Time, ms: int)
    requires RightTimeout(due, now, ms)
    ensures ms == -1 <==> due == map[]
    ensures forall t :: t in due && now <= due[t] ==> now + ms * NS_PER_MS <= due[t]
    ensures forall t :: t in due && due[t] < now + NS_PER_MS ==> ms == 0
    ensures 0 <= ms < 0x3fffffff ==> exists t :: t in due && due[t] < now + (ms + 1) * NS_PER_MS
  {}

  /** fired lists exactly the tokens due by now, each once, by rising deadline. */
  ghost predicate FiresExactly(due: map<Token, Time>, now: Time, fired: seq<Token>) {
    (forall t :: t in fired <==> t in due && due[t] <= now) &&
    (forall i, j :: 0 <= i < j < |fired| ==> fired[i] != fired[j]) &&
    (forall i, j :: 0 <= i < j < |fired| ==> fired[i] in due && fired[j] in due && due[fired[i]] <= due[fired[j]])
  }

  /** Deadlines before the cut-off are all gone afterwards, later ones all still there, and
      a second call at the same moment finds nothing. */
  lemma FiresOnce(due: map<Token, Time>, now: Time, fired: seq<Token>, again: seq<Token>)
    requires FiresExactly(due, now, fired)
    requires FiresExactly(due - (set t | t in fired), now, again)
    ensures forall t :: t !in again
    ensures forall t :: t in due - (set t | t in fired) <==> t in due && now < due[t]
  {
  }

  class TimerQueue {
    var heap: set<Entry>
    var live: map<Token, nat>
    var nextGen: nat
    ghost var due: map<Token, Time>

    /** The current entry of every armed token is in the heap; generations are never reused. */
    ghost predicate Valid()
      reads this
    {
      due.Keys == live.Keys &&
      (forall t :: t in live ==> Entry(due[t], t, live[t]) in heap) &&
      (forall e :: e in heap ==> e.gen <= nextGen) &&
      (forall e, f :: e in heap && f in heap && e.gen == f.gen ==> e == f)
    }

    constructor ()
      ensures Valid() && due == map[]
    {
      heap, live, nextGen, due := {}, map[], 0, map[];
    }

    /** Sets or replaces the deadline of a token. */
    method Arm(token: Token, when: Time)
      requires Valid()
      modifies this
      ensures Valid() && due == old(due)[token := when]
    {
      nextGen := nextGen + 1;
      live := live[token := nextGen];
      heap := heap + {Entry(when, token, nextGen)};
      due := due[token := when];
    }

    /** Withdraws the deadline of a token, if it has one. */
    method Cancel(token: Token)
      requires Valid()
      modifies this
      ensures Valid() && due == old(due) - {token}
    {
      live := live - {token};
      due := due - {token};
    }

    predicate Current(e: Entry)
      reads this
    {
      e.token in live && live[e.token] == e.gen
    }

    /** The entry on top of the heap: one with the earliest time. */
    method Top() returns (e: Entry)
      requires heap != {}
      ensures e in heap && forall f :: f in heap ==> e.when <= f.when
    {
      var rest := heap;
      e :| e in rest;
      rest := rest - {e};
      while rest != {}
        invariant e in heap && rest <= heap
        invariant forall f :: f in heap && f !in rest ==> e.when <= f.when
        decreases |rest|
      {
        var f :| f in rest;
        rest := rest - {f};
        if f.when < e.when { e := f; }
      }
    }

    lemma CurrentIsDue(e: Entry)
      requires Valid() && e in heap && Current(e)
      ensures e.token in due && due[e.token] == e.when
    {
      assert Entry(due[e.token], e.token, live[e.token]) in heap;
    }

    /** Removes outdated entries from the top until a current one is there. */
    method PruneStale()
      requires Valid()
      modifies this
      ensures Valid() && due == old(due)
      ensures heap == {} ==> due == map[]
      ensures heap != {} ==> exists t :: Earliest(due, t) && forall e :: e in heap ==> due[t] <= e.when
    {
      while heap != {}
        invariant Valid() && due == old(due)
        decreases |heap|
      {
        var e := Top();
        if Current(e) {
          CurrentIsDue(e);
          assert Earliest(due, e.token);
          return;
        }
        heap := heap - {e};
      }
      assert due.Keys == {};
    }

    /** Milliseconds until the next deadline: -1 when there is none, 0 when it has passed. */
    method TimeoutMs(now: Time) returns (ms: int)
      requires Valid()
      modifies this
      ensures Valid() && due == old(due)
      ensures RightTimeout(due, now, ms)
    {
      PruneStale();
      if heap == {} { return -1; }
      var top := Top();
      ghost var t :| Earliest(due, t) && forall e :: e in heap ==> due[t] <= e.when;
      assert top.when == due[t] by { assert Entry(due[t], t, live[t]) in heap; }
      ms := Remaining(top.when, now);
    }

    /** The difference in whole milliseconds, between 0 and the largest answer. */
    method Remaining(when: Time, now: Time) returns (ms: int)
      ensures ms == SleepUntil(when, now)
    {
      ms := Whole(when - now);
      if ms < 0 { return 0; }
      if ms > MAX_SLEEP_MS { ms := MAX_SLEEP_MS; }
    }

    /** Fires every deadline that has passed by now: appends its token and disarms it. */
    method Expired(now: Time, out: seq<Token>) returns (out': seq<Token>)
      requires Valid()
      modifies this
      ensures Valid() && out <= out' && FiresExactly(old(due), now, out'[|out|..])
      ensures due == old(due) - (set t | t in out'[|out|..])
    {
      var fired: seq<Token> := [];
      while true
        invariant Valid() && due == old(due) - (set t | t in fired)
        invariant FiredSoFar(old(due), now, fired, heap)
        decreases |heap|
      {
        if heap == {} { break; }
        var e := Top();
        if e.when > now { break; }
        fired := Pop(e, now, fired, old(due));
      }
      AllFired(old(due), now, fired);
      out' := out + fired;
      assert out'[|out|..] == fired;
    }

    /** The top entry is removed; if it is current its token fires. */
    method Pop(e: Entry, now: Time, fired: seq<Token>, ghost due0: map<Token, Time>) returns (fired': seq<Token>)
      requires Valid() && e in heap && e.when <= now && forall f :: f in heap ==> e.when <= f.when
      requires due == due0 - (set t | t in fired) && FiredSoFar(due0, now, fired, heap)
      modifies this
      ensures Valid() && due == due0 - (set t | t in fired') && FiredSoFar(due0, now, fired', heap)
      ensures heap == old(heap) - {e}
    {
      fired' := fired;
      if Current(e) {
        CurrentIsDue(e);
        FireOne(due0, now, fired, e, heap, heap - {e});
        fired' := fired + [e.token];
        live := live - {e.token};
        due := due - {e.token};
      }
      heap := heap - {e};
    }

    /** Has any token a deadline? */
    method Empty() returns (none: bool)
      requires Valid()
      modifies this
      ensures Valid() && due == old(due) && (none <==> due == map[])
    {
      PruneStale();
      none := heap == {};
    }

    /** Every token not fired yet and due by now is still in the heap. */
    lemma AllFired(due0: map<Token, Time>, now: Time, fired: seq<Token>)
      requires Valid() && due == due0 - (set t | t in fired)
      requires FiredSoFar(due0, now, fired, heap)
      requires forall e :: e in heap ==> now < e.when
      ensures FiresExactly(due0, now, fired)
    {
      forall t | t in due0
        ensures t in fired || now < due0[t]
      {
        if t in due { assert Entry(due[t], t, live[t]) in heap; }
      }
    }
  }

  /** duration_cast to milliseconds: whole milliseconds, rounded toward zero. */
  function Whole(ns: int): int {
    if ns >= 0 then ns / NS_PER_MS else -(-ns / NS_PER_MS)
  }

  /** Half-way through: what fired was due, once each, by rising deadline, and nothing left in
      the heap is earlier. */
  ghost predicate FiredSoFar(due: map<Token, Time>, now: Time, fired: seq<Token>, heap: set<Entry>) {
    (forall t :: t in fired ==> t in due && due[t] <= now) &&
    (forall i, j :: 0 <= i < j < |fired| ==> fired[i] != fired[j] && due[fired[i]] <= due[fired[j]]) &&
    (forall t, e :: t in fired && e in heap ==> due[t] <= e.when)
  }

  lemma FireOne(due: map<Token, Time>, now: Time, fired: seq<Token>, e: Entry, heap: set<Entry>, rest: set<Entry>)
    requires FiredSoFar(due, now, fired, heap) && rest <= heap && e in heap
    requires forall f :: f in heap ==> e.when <= f.when
    requires e.when <= now && e.token in due && due[e.token] == e.when && e.token !in fired
    ensures FiredSoFar(due, now, fired + [e.token], rest)
  {
    var fired' := fired + [e.token];
    forall i, j | 0 <= i < j < |fired'|
      ensures fired'[i] != fired'[j] && due[fired'[i]] <= due[fired'[j]]
    {
      assert fired[i] in fired;
    }
  }
}
