/** Deciding a match once: the three ways an outcome is settled and what the decision
    leaves untouched. */
module RelayMatch {
  import opened Wrappers
  import opened RelayState
  import opened RelaySteps
  import opened RelayClose

  /** Channel k replaced by d and the posts by ps; its sides stay. */
  function ChanRevised(s: Loop, k: nat, d: Channel, ps: seq<Post>, tearing: set<nat>): Loop
    requires k < |s.chanAt|
  {
    s.(chanAt := s.chanAt[k := d], posts := ps, tearing := tearing)
  }

  predicate SameSides(c: Channel, d: Channel) {
    c.a == d.a && c.b == d.b && c.aId == d.aId && c.bId == d.bId
  }

  lemma ChanRevisedLinks(s: Loop, k: nat, d: Channel, ps: seq<Post>, tearing: set<nat>)
    requires k < |s.chanAt| && SameSides(s.chanAt[k], d) && Links(s)
    ensures Links(ChanRevised(s, k, d, ps, tearing))
  {
    var t := ChanRevised(s, k, d, ps, tearing);
    forall i | 0 <= i < |t.conns|
      ensures ConnLinked(t, i)
    {
      assert ConnLinked(s, i);
    }
    forall r | 0 <= r < |t.roomAt|
      ensures SlotLinked(t, r, true) && SlotLinked(t, r, false)
    {
      assert SlotLinked(s, r, true) && SlotLinked(s, r, false);
    }
    forall j | 0 <= j < |t.chanAt|
      ensures SideLinked(t, j, true) && SideLinked(t, j, false)
    {
      assert SideLinked(s, j, true) && SideLinked(s, j, false);
    }
  }

  lemma ChanRevisedRest(s: Loop, k: nat, d: Channel, ps: seq<Post>, tearing: set<nat>)
    requires k < |s.chanAt| && SameSides(s.chanAt[k], d)
    requires Wakeups(s) && Leases(s)
    ensures Wakeups(ChanRevised(s, k, d, ps, tearing))
    ensures Leases(ChanRevised(s, k, d, ps, tearing))
  {
    var t := ChanRevised(s, k, d, ps, tearing);
    forall i | 0 <= i < |t.conns|
      ensures Awake(t, i)
    {
      assert Awake(s, i);
    }
    forall i: nat | Live(t, i) && t.conns[i].lease
      ensures t.conns[i].playerId > 0 && t.conns[i].playerId in t.leases && t.leases[t.conns[i].playerId] == i
    {
      assert Live(s, i);
    }
    forall x | x in t.leases
      ensures LeaseHeld(t, x)
    {
      assert LeaseHeld(s, x);
    }
  }

  ghost predicate ChanSoundAt(c: Channel, open: bool, tearing: bool) {
    (c.inflight ==> c.handled) && (c.survivorPending ==> c.inflight && (c.a.None? || c.b.None?)) &&
    (open && c.a.Some? != c.b.Some? ==> (c.inflight && c.survivorPending) || tearing)
  }

  /** One more post, and the first one on match k. */
  ghost predicate NewVerdict(s: Loop, k: nat, d: Channel, ps: seq<Post>, tearing: set<nat>)
    requires k < |s.chanAt|
  {
    |ps| == |s.posts| + 1 && ps[..|s.posts|] == s.posts && !s.chanAt[k].handled &&
    ps[|s.posts|].match_ == k && PostOk(ChanRevised(s, k, d, ps, tearing), ps[|s.posts|])
  }

  /** Revising a channel keeps every invariant, provided the channel stays sound and new
      posts are verdicts on matches never posted before. */
  lemma ChanRevisedKeeps(s: Loop, k: nat, d: Channel, ps: seq<Post>, tearing: set<nat>)
    requires InvVacant(s) && k < |s.chanAt|
    requires SameSides(s.chanAt[k], d) && (s.chanAt[k].handled ==> d.handled)
    requires ChanSoundAt(d, k in s.chans, k in tearing)
    requires tearing - {k} == s.tearing - {k}
    requires ps == s.posts || NewVerdict(s, k, d, ps, tearing)
    ensures InvVacant(ChanRevised(s, k, d, ps, tearing))
  {
    var t := ChanRevised(s, k, d, ps, tearing);
    ChanRevisedLinks(s, k, d, ps, tearing);
    ChanRevisedRest(s, k, d, ps, tearing);
    ChanRevisedChannels(s, k, d, ps, tearing);
    SameLedger(s, t);
    SameTables(s, t);
  }

  lemma ChanRevisedChannels(s: Loop, k: nat, d: Channel, ps: seq<Post>, tearing: set<nat>)
    requires Channels(s) && k < |s.chanAt|
    requires SameSides(s.chanAt[k], d) && (s.chanAt[k].handled ==> d.handled)
    requires ChanSoundAt(d, k in s.chans, k in tearing)
    requires tearing - {k} == s.tearing - {k}
    requires ps == s.posts || NewVerdict(s, k, d, ps, tearing)
    ensures Channels(ChanRevised(s, k, d, ps, tearing))
  {
    var t := ChanRevised(s, k, d, ps, tearing);
    forall j | 0 <= j < |t.chanAt|
      ensures ChanSound(t, j)
    {
      assert ChanSound(s, j);
      assert j != k ==> (j in tearing <==> j in tearing - {k}) && (j in s.tearing <==> j in s.tearing - {k});
    }
    forall n | 0 <= n < |s.posts|
      ensures ps[n] == s.posts[n] && PostOk(t, ps[n])
      ensures !s.chanAt[k].handled ==> s.posts[n].match_ != k
    {
      assert ps[n] == ps[..|s.posts|][n];
      assert PostOk(s, s.posts[n]);
    }
  }

  // ---------------------------------------------------------------- settling the outcome

  /** The verdict on the summaries collected so far; none without any summary. */
  function Verdict(c: Channel): Option<int> {
    if c.sumA.Some? && c.sumB.Some? then CrossCheck(c.sumA.value, c.sumB.value, c.aId, c.bId)
    else if c.sumA.Some? || c.sumB.Some? then Some(Forfeit(c.sumA, c.sumB, c.aId, c.bId))
    else None
  }

  /** finalize_ranked / finalize_forfeit with post_result: decide, and hand the post to a
      worker unless the program is stopping (queued is false). */
  function Settled(s: Loop, k: nat, queued: bool): Loop
    requires k < |s.chanAt|
  {
    var c := s.chanAt[k];
    if s.lim.meta && queued then
      ChanRevised(s, k, c.(handled := true, inflight := true),
                  s.posts + [Post(k, c.sumA, c.sumB, Verdict(c))], s.tearing)
    else ChanRevised(s, k, c.(handled := true), s.posts, s.tearing)
  }

  lemma SettledKeeps(s: Loop, k: nat, queued: bool)
    requires InvVacant(s) && k < |s.chanAt|
    requires !s.chanAt[k].handled && (s.chanAt[k].sumA.Some? || s.chanAt[k].sumB.Some?)
    ensures InvVacant(Settled(s, k, queued))
  {
    var c, t := s.chanAt[k], Settled(s, k, queued);
    assert ChanSound(s, k);
    assert t.posts[..|s.posts|] == s.posts;
    ChanRevisedKeeps(s, k, t.chanAt[k], t.posts, s.tearing);
  }

  /** on_channel_peer_lost: settle by what summaries exist; a match without any is closed
      without a post. */
  function PeerLost(s: Loop, k: nat, queued: bool): Loop
    requires k < |s.chanAt|
  {
    var c := s.chanAt[k];
    if !c.ranked || c.handled || c.inflight then s
    else if c.sumA.None? && c.sumB.None? then ChanRevised(s, k, c.(handled := true), s.posts, s.tearing)
    else Settled(s, k, queued)
  }

  lemma PeerLostKeeps(s: Loop, k: nat, queued: bool)
    requires InvVacant(s) && k < |s.chanAt|
    ensures InvVacant(PeerLost(s, k, queued))
  {
    var c := s.chanAt[k];
    assert ChanSound(s, k);
    if c.ranked && !c.handled && !c.inflight {
      if c.sumA.None? && c.sumB.None? {
        ChanRevisedKeeps(s, k, c.(handled := true), s.posts, s.tearing);
      } else {
        SettledKeeps(s, k, queued);
      }
    }
  }

  /** Closing of the survivor is left to the continuation of the save. */
  function SurvivorMarked(s: Loop, k: nat): Loop
    requires k < |s.chanAt|
  {
    ChanRevised(s, k, s.chanAt[k].(survivorPending := true), s.posts, s.tearing)
  }

  lemma SurvivorMarkedKeeps(s: Loop, k: nat)
    requires InvVacant(s) && k < |s.chanAt| && s.chanAt[k].inflight
    requires s.chanAt[k].a.None? || s.chanAt[k].b.None?
    ensures InvVacant(SurvivorMarked(s, k))
  {
    assert ChanSound(s, k);
    ChanRevisedKeeps(s, k, s.chanAt[k].(survivorPending := true), s.posts, s.tearing);
  }

  /** The save has returned: nothing is in flight any more; if a survivor was waiting for
      this moment the channel counts as being torn down until it is closed. */
  function Saved(s: Loop, k: nat): Loop
    requires k < |s.chanAt|
  {
    var c := s.chanAt[k];
    ChanRevised(s, k, c.(inflight := false, survivorPending := false), s.posts,
                if c.survivorPending then s.tearing + {k} else s.tearing)
  }

  lemma SavedKeeps(s: Loop, k: nat)
    requires InvVacant(s) && k < |s.chanAt|
    ensures InvVacant(Saved(s, k))
  {
    assert ChanSound(s, k);
    var t := Saved(s, k);
    ChanRevisedKeeps(s, k, t.chanAt[k], s.posts, t.tearing);
  }

  lemma RoomsUntouched(s: Loop, k: nat, d: Channel, ps: seq<Post>, tearing: set<nat>)
    requires k < |s.chanAt| && RoomsOccupied(s)
    ensures RoomsOccupied(ChanRevised(s, k, d, ps, tearing))
  {
    var t := ChanRevised(s, k, d, ps, tearing);
    forall r | 0 <= r < |t.roomAt| && RoomOpen(t, r)
      ensures t.roomAt[r].host.Some? || t.roomAt[r].guest.Some?
    {
      assert RoomOpen(s, r);
    }
  }
}
