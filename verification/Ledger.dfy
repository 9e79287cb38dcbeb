/** meta/database.cpp: ratings, currency, experience and icons of all players.  The SQL tables
    are maps; any statement may fail, reads included, and a transaction that fails is rolled
    back. */
module Ledger {
  import opened Wrappers
  import opened Elo

  const BP_WIN: int := 30
  const BP_LOSS: int := 10
  const XP_WIN: int := 100
  const XP_LOSS: int := 50

  datatype Icon = DefaultIcon | Ruby | Gold

  function Price(i: Icon): int {
    match i
    case DefaultIcon => 0
    case Ruby => 100
    case Gold => 250
  }

  function FindIcon(id: string): Option<Icon> {
    if id == "default" then Some(DefaultIcon)
    else if id == "ruby" then Some(Ruby)
    else if id == "gold" then Some(Gold)
    else None
  }

  datatype Player = Player(token: string, elo: int, wins: int, losses: int, bp: int, xp: int, icon: Icon)

  datatype MatchRecord = MatchRecord(uuid: string, a: int, b: int, winner: Option<int>)

  datatype MatchRow = MatchRow(id: int, a: int, b: int, winner: Option<int>,
                               beforeA: int, afterA: int, beforeB: int, afterB: int)

  datatype HistoryRow = HistoryRow(player: int, match_: int, before: int, after: int)

  /** The tables, and, as history, every purchase that was committed. */
  datatype Tables = Tables(
    players: map<int, Player>, owned: set<(int, Icon)>,
    matches: map<string, MatchRow>, history: seq<HistoryRow>,
    nextPlayer: int, nextMatch: int, sales: seq<(int, Icon)>)

  datatype Side = Side(before: int, after: int, delta: int)
  datatype MatchResult = MatchResult(id: int, a: Side, b: Side)

  function Result(r: MatchRow): MatchResult {
    MatchResult(r.id, Side(r.beforeA, r.afterA, r.afterA - r.beforeA), Side(r.beforeB, r.afterB, r.afterB - r.beforeB))
  }

  // ---------------------------------------------------------------- what a saved match does

  function Bumped(p: Player, elo: int, won: bool): Player {
    if won then p.(elo := elo, wins := p.wins + 1, bp := p.bp + BP_WIN, xp := p.xp + XP_WIN)
    else p.(elo := elo, losses := p.losses + 1, bp := p.bp + BP_LOSS, xp := p.xp + XP_LOSS)
  }

  /** Both players' ratings after the match. */
  function NewElos(eloA: int, eloB: int, m: MatchRecord, expected: Curve): (int, int) {
    if m.winner == Some(m.a) then
      var u := Updated(eloA, eloB, expected); (u.winner, u.loser)
    else if m.winner == Some(m.b) then
      var u := Updated(eloB, eloA, expected); (u.loser, u.winner)
    else (eloA, eloB)
  }

  function RowFor(t: Tables, m: MatchRecord, expected: Curve): MatchRow
    requires m.a in t.players && m.b in t.players
  {
    var e := NewElos(t.players[m.a].elo, t.players[m.b].elo, m, expected);
    MatchRow(t.nextMatch, m.a, m.b, m.winner, t.players[m.a].elo, e.0, t.players[m.b].elo, e.1)
  }

  function Credited(players: map<int, Player>, id: int, elo: int, won: bool): map<int, Player>
    requires id in players
  {
    players[id := Bumped(players[id], elo, won)]
  }

  function Saved(t: Tables, m: MatchRecord, expected: Curve): Tables
    requires m.a in t.players && m.b in t.players
  {
    var row := RowFor(t, m, expected);
    var t' := t.(matches := t.matches[m.uuid := row], nextMatch := t.nextMatch + 1);
    if m.winner.None? then t'
    else t'.(players := Credited(Credited(t.players, m.a, row.afterA, m.winner == Some(m.a)),
                                 m.b, row.afterB, m.winner == Some(m.b)),
             history := t.history + [HistoryRow(m.a, row.id, row.beforeA, row.afterA),
                                     HistoryRow(m.b, row.id, row.beforeB, row.afterB)])
  }

  // ---------------------------------------------------------------- the books

  /** All rating points a player ever gained or lost. */
  function DeltaSum(history: seq<HistoryRow>, id: int): int {
    if |history| == 0 then 0
    else
      var last := history[|history| - 1];
      DeltaSum(history[..|history| - 1], id) + if last.player == id then last.after - last.before else 0
  }

  /** The prices of the icons somebody owns. */
  function Spent(owned: set<(int, Icon)>, id: int): int {
    (if (id, Ruby) in owned then Price(Ruby) else 0) + (if (id, Gold) in owned then Price(Gold) else 0)
  }

  /** What somebody was charged for icons. */
  function Charged(sales: seq<(int, Icon)>, id: int): int {
    Price(Ruby) * multiset(sales)[(id, Ruby)] + Price(Gold) * multiset(sales)[(id, Gold)]
  }

  function Earned(p: Player): int { BP_WIN * p.wins + BP_LOSS * p.losses }

  predicate Owns(owned: set<(int, Icon)>, id: int, i: Icon) { i == DefaultIcon || (id, i) in owned }

  /** One player's account: rating points are the sum of their changes, experience follows the
      matches, currency is what was earned less what was charged. */
  ghost predicate Settled(t: Tables, id: int)
    requires id in t.players
  {
    var p := t.players[id];
    p.elo >= 0 && p.elo == DeltaSum(t.history, id) &&
    p.wins >= 0 && p.losses >= 0 && p.xp == XP_WIN * p.wins + XP_LOSS * p.losses &&
    p.bp >= 0 && p.bp == Earned(p) - Charged(t.sales, id) &&
    Owns(t.owned, id, p.icon)
  }

  /** What was sold is owned, and what is owned was sold or is the default icon. */
  ghost predicate Delivered(t: Tables) {
    (forall s :: s in t.sales ==> s.1 != DefaultIcon && s in t.owned) &&
    (forall o :: o in t.owned ==> o.1 == DefaultIcon || o in t.sales)
  }

  /** Tokens identify players, ids are never reused, and nothing refers to unknown players. */
  ghost predicate Keyed(t: Tables) {
    (forall i, j :: i in t.players && j in t.players && t.players[i].token == t.players[j].token ==> i == j) &&
    (forall i :: i in t.players ==> i < t.nextPlayer) &&
    (forall o :: o in t.owned ==> o.0 in t.players) &&
    (forall k :: 0 <= k < |t.history| ==> t.history[k].player < t.nextPlayer)
  }

  ghost predicate Books(t: Tables) {
    Keyed(t) && Delivered(t) && forall id :: id in t.players ==> Settled(t, id)
  }

  /** The currency equation: everybody has what was earned less the prices of the icons owned. */
  ghost predicate Even(t: Tables) {
    forall id :: id in t.players ==> t.players[id].bp == Earned(t.players[id]) - Spent(t.owned, id)
  }

  /** No icon was sold to anybody twice. */
  ghost predicate SoldOnce(sales: seq<(int, Icon)>) { forall s :: s in sales ==> multiset(sales)[s] == 1 }

  /** The currency equation holds exactly if nobody was charged twice for an icon. */
  lemma EvenIsSoldOnce(t: Tables)
    requires Books(t)
    ensures Even(t) <==> SoldOnce(t.sales)
  {
    if SoldOnce(t.sales) {
      forall id | id in t.players
        ensures t.players[id].bp == Earned(t.players[id]) - Spent(t.owned, id)
      {
        assert Settled(t, id);
        ChargedIsSpent(t, id);
      }
    }
    if Even(t) {
      forall s | s in t.sales
        ensures multiset(t.sales)[s] == 1
      {
        assert s in t.owned && Settled(t, s.0);
        ChargedIsSpent(t, s.0);
      }
    }
  }

  lemma ChargedIsSpent(t: Tables, id: int)
    requires Delivered(t)
    ensures Charged(t.sales, id) == Spent(t.owned, id) <==>
              multiset(t.sales)[(id, Ruby)] <= 1 && multiset(t.sales)[(id, Gold)] <= 1
  {
    assert (id, Ruby) in t.owned <==> (id, Ruby) in t.sales;
    assert (id, Gold) in t.owned <==> (id, Gold) in t.sales;
  }

  lemma {:induction false} UnknownSum(history: seq<HistoryRow>, id: int)
    requires forall k :: 0 <= k < |history| ==> history[k].player != id
    ensures DeltaSum(history, id) == 0
  {
    if |history| > 0 {
      UnknownSum(history[..|history| - 1], id);
    }
  }

  lemma TwoMore(history: seq<HistoryRow>, x: HistoryRow, y: HistoryRow, id: int)
    ensures DeltaSum(history + [x, y], id) ==
            DeltaSum(history, id) + (if x.player == id then x.after - x.before else 0)
                                  + (if y.player == id then y.after - y.before else 0)
  {
    assert (history + [x, y])[..|history| + 1] == history + [x];
    assert (history + [x])[..|history|] == history;
  }

  // ---------------------------------------------------------------- matches keep the books

  /** A match somebody cannot have played against himself and won. */
  predicate Proper(m: MatchRecord) { !(m.a == m.b && m.winner == Some(m.a)) }

  lemma NewElosBounds(eloA: int, eloB: int, m: MatchRecord, expected: Curve)
    requires IsCurve(expected) && eloA >= 0 && eloB >= 0
    ensures NewElos(eloA, eloB, m, expected).0 >= 0 && NewElos(eloA, eloB, m, expected).1 >= 0
  {
    UpdateBounds(eloA, eloB, expected);
    UpdateBounds(eloB, eloA, expected);
  }

  lemma SavedKeyed(t: Tables, m: MatchRecord, expected: Curve)
    requires Keyed(t) && m.a in t.players && m.b in t.players
    ensures Keyed(Saved(t, m, expected))
  {}

  lemma SavedSum(t: Tables, m: MatchRecord, expected: Curve, id: int)
    requires m.a in t.players && m.b in t.players
    ensures var row := RowFor(t, m, expected);
            DeltaSum(Saved(t, m, expected).history, id) ==
            DeltaSum(t.history, id) + (if m.winner.Some? && id == m.a then row.afterA - row.beforeA else 0)
                                    + (if m.winner.Some? && id == m.b then row.afterB - row.beforeB else 0)
  {
    var row := RowFor(t, m, expected);
    TwoMore(t.history, HistoryRow(m.a, row.id, row.beforeA, row.afterA),
            HistoryRow(m.b, row.id, row.beforeB, row.afterB), id);
  }

  lemma SavedSettled(t: Tables, m: MatchRecord, expected: Curve, id: int)
    requires IsCurve(expected) && m.a in t.players && m.b in t.players && Proper(m) && id in t.players
    requires Settled(t, id) && Settled(t, m.a) && Settled(t, m.b)
    ensures Settled(Saved(t, m, expected), id)
  {
    NewElosBounds(t.players[m.a].elo, t.players[m.b].elo, m, expected);
    SavedSum(t, m, expected, id);
  }

  /** A saved match keeps the books balanced exactly if nobody beats himself in it. */
  lemma SaveKeepsBooks(t: Tables, m: MatchRecord, expected: Curve)
    requires Books(t) && IsCurve(expected) && m.a in t.players && m.b in t.players
    ensures Books(Saved(t, m, expected)) <==> Proper(m)
  {
    var t' := Saved(t, m, expected);
    SavedKeyed(t, m, expected);
    if Proper(m) {
      forall id | id in t'.players
        ensures Settled(t', id)
      {
        SavedSettled(t, m, expected, id);
      }
    } else {
      assert Settled(t, m.a);
      EqualRatings(t.players[m.a].elo, expected);
      SavedSum(t, m, expected, m.a);
      assert !Settled(t', m.a);
    }
  }

  /** A match pays what it earns its players, whoever they are. */
  lemma SaveKeepsEven(t: Tables, m: MatchRecord, expected: Curve)
    requires m.a in t.players && m.b in t.players
    ensures Even(Saved(t, m, expected)) <==> Even(t)
  {
    var t' := Saved(t, m, expected);
    forall id | id in t.players
      ensures t'.players[id].bp - Earned(t'.players[id]) == t.players[id].bp - Earned(t.players[id])
    {}
  }

  /** A decided match of two players as its two accounts show it. */
  ghost predicate Outplayed(w: Player, w': Player, l: Player, l': Player) {
    w.elo <= w'.elo <= w.elo + KFactor(w.elo) && w'.wins == w.wins + 1 && w'.losses == w.losses &&
    0 <= l'.elo <= l.elo <= l'.elo + KFactor(l.elo) && l'.wins == l.wins && l'.losses == l.losses + 1 &&
    SamePerson(w, w') && SamePerson(l, l')
  }

  predicate SamePerson(p: Player, q: Player) { q.token == p.token && q.icon == p.icon }

  /** What a match of two different players may do to the accounts: the winner, whichever side,
      does not fall and the loser does not rise, a draw moves nobody, and nobody else is
      touched. */
  ghost predicate Rated(t: Tables, t': Tables, m: MatchRecord)
    requires m.a in t.players && m.b in t.players
  {
    t'.players.Keys == t.players.Keys && t'.owned == t.owned &&
    (forall id :: id in t.players && id != m.a && id != m.b ==> t'.players[id] == t.players[id]) &&
    (m.winner == Some(m.a) ==> Outplayed(t.players[m.a], t'.players[m.a], t.players[m.b], t'.players[m.b])) &&
    (m.winner == Some(m.b) ==> Outplayed(t.players[m.b], t'.players[m.b], t.players[m.a], t'.players[m.a])) &&
    (m.winner.None? ==> t'.players == t.players)
  }

  /** The answer to a match: each side's own rating before and after it. */
  ghost predicate Tells(t: Tables, t': Tables, m: MatchRecord, r: MatchResult)
    requires m.a in t.players && m.b in t.players
  {
    m.a in t'.players && m.b in t'.players && r.id == t.nextMatch &&
    r.a == Side(t.players[m.a].elo, t'.players[m.a].elo, t'.players[m.a].elo - t.players[m.a].elo) &&
    r.b == Side(t.players[m.b].elo, t'.players[m.b].elo, t'.players[m.b].elo - t.players[m.b].elo)
  }

  lemma SaveRates(t: Tables, m: MatchRecord, expected: Curve)
    requires Books(t) && IsCurve(expected) && m.a in t.players && m.b in t.players && m.a != m.b
    ensures Rated(t, Saved(t, m, expected), m)
    ensures Tells(t, Saved(t, m, expected), m, Result(RowFor(t, m, expected)))
  {
    assert Settled(t, m.a) && Settled(t, m.b);
    UpdateBounds(t.players[m.a].elo, t.players[m.b].elo, expected);
    UpdateBounds(t.players[m.b].elo, t.players[m.a].elo, expected);
  }

  // ---------------------------------------------------------------- the database

  datatype Purchase = Bought(player: Player) | InvalidIcon | UnknownToken | AlreadyOwned | InsufficientBp | DbError
  datatype Selection = Selected(player: Player) | InvalidChoice | UnknownUser | NotOwned | SelectError

  /** The icon paid for and, unless it is there already, handed over. */
  function Sold(t: Tables, id: int, i: Icon): Tables
    requires id in t.players
  {
    t.(players := t.players[id := t.players[id].(bp := t.players[id].bp - Price(i))], owned := t.owned + {(id, i)},
       sales := t.sales + [(id, i)])
  }

  function Chosen(t: Tables, id: int, i: Icon): Tables
    requires id in t.players
  {
    t.(players := t.players[id := t.players[id].(icon := i)])
  }

  function Joined(t: Tables, token: string): Tables {
    t.(players := t.players[t.nextPlayer := Player(token, 0, 0, 0, 0, 0, DefaultIcon)], nextPlayer := t.nextPlayer + 1)
  }

  function OwnDefault(t: Tables, id: int): Tables { t.(owned := t.owned + {(id, DefaultIcon)}) }

  lemma SoldSettled(t: Tables, id: int, i: Icon, j: int)
    requires id in t.players && i != DefaultIcon && t.players[id].bp >= Price(i)
    requires j in t.players && Settled(t, j)
    ensures Settled(Sold(t, id, i), j)
  {
    assert multiset(t.sales + [(id, i)]) == multiset(t.sales) + multiset{(id, i)};
  }

  lemma SoldKeyed(t: Tables, id: int, i: Icon)
    requires Keyed(t) && Delivered(t) && id in t.players && i != DefaultIcon
    ensures Keyed(Sold(t, id, i)) && Delivered(Sold(t, id, i))
  {}

  /** A sale keeps the books, and keeps the currency equation exactly if the icon is not owned
      yet. */
  lemma SoldKeepsBooks(t: Tables, id: int, i: Icon)
    requires Books(t) && id in t.players && i != DefaultIcon && t.players[id].bp >= Price(i)
    ensures Books(Sold(t, id, i))
    ensures Even(Sold(t, id, i)) <==> Even(t) && (id, i) !in t.owned
  {
    var t' := Sold(t, id, i);
    assert Books(t') by {
      SoldKeyed(t, id, i);
      forall j | j in t'.players
        ensures Settled(t', j)
      {
        SoldSettled(t, id, i, j);
      }
    }
    SoldEven(t, id, i);
  }

  lemma SoldEven(t: Tables, id: int, i: Icon)
    requires id in t.players && Books(t) && Books(Sold(t, id, i)) && i != DefaultIcon
    ensures Even(Sold(t, id, i)) <==> Even(t) && (id, i) !in t.owned
  {
    EvenIsSoldOnce(t);
    EvenIsSoldOnce(Sold(t, id, i));
    SoldOnceMore(t.sales, (id, i));
    assert (id, i) in t.owned <==> (id, i) in t.sales;
  }

  /** From the n-th on, something was sold that had been sold before. */
  predicate Again(sales: seq<(int, Icon)>, n: nat) { exists k :: n <= k < |sales| && sales[k] in sales[..k] }

  lemma SoldAgain(t: Tables, id: int, i: Icon)
    requires Books(t) && i != DefaultIcon
    ensures Again(t.sales + [(id, i)], |t.sales|) <==> (id, i) in t.owned
  {
    var u := t.sales + [(id, i)];
    assert u[..|t.sales|] == t.sales && u[|t.sales|] == (id, i);
    assert (id, i) in t.owned <==> (id, i) in t.sales;
  }

  lemma AgainThen(s: seq<(int, Icon)>, t: seq<(int, Icon)>, u: seq<(int, Icon)>)
    requires s <= t <= u
    ensures Again(u, |s|) <==> Again(t, |s|) || Again(u, |t|)
  {
    assert forall k :: 0 <= k < |t| ==> t[..k] == u[..k];
  }

  lemma SoldOnceMore(sales: seq<(int, Icon)>, s: (int, Icon))
    ensures SoldOnce(sales + [s]) <==> SoldOnce(sales) && s !in sales
  {
    var sales' := sales + [s];
    assert multiset(sales') == multiset(sales) + multiset{s};
    assert s in sales';
    if SoldOnce(sales') {
      assert multiset(sales')[s] == 1;
      forall x | x in sales
        ensures multiset(sales)[x] == 1
      {
        assert x in sales' && multiset(sales')[x] == 1;
      }
    }
  }

  /** One player with nothing but twenty losses, who has bought Ruby. */
  function Buyer(): Tables {
    Tables(map[1 := Player("buyer", 0, 0, 20, 100, 1000, DefaultIcon)], {(1, Ruby)}, map[], [], 2, 1, [(1, Ruby)])
  }

  /** Charged a second time for Ruby, the player has nothing left where 100 are due. */
  lemma ChargedTwice()
    ensures Books(Buyer()) && Even(Buyer()) && Owns(Buyer().owned, 1, Ruby) && Buyer().players[1].bp >= Price(Ruby)
    ensures var t := Sold(Buyer(), 1, Ruby);
            t.players[1].bp == 0 && Earned(t.players[1]) - Spent(t.owned, 1) == 100 && !Even(t)
  {
    assert multiset([(1, Ruby)]) == multiset{(1, Ruby)};
    EvenIsSoldOnce(Buyer());
    SoldKeepsBooks(Buyer(), 1, Ruby);
  }

  lemma SameSales(t: Tables, t': Tables)
    requires Books(t) && Books(t') && t'.sales == t.sales
    ensures Even(t') <==> Even(t)
  {
    EvenIsSoldOnce(t);
    EvenIsSoldOnce(t');
  }

  lemma ChosenKeepsBooks(t: Tables, id: int, i: Icon)
    requires Books(t) && id in t.players && Owns(t.owned, id, i)
    ensures Books(Chosen(t, id, i)) && (Even(Chosen(t, id, i)) <==> Even(t))
  {
    var t' := Chosen(t, id, i);
    assert Books(t') by {
      assert Keyed(t') && Delivered(t');
      forall j | j in t'.players
        ensures Settled(t', j)
      {
        assert Settled(t, j);
      }
    }
    SameSales(t, t');
  }

  lemma JoinedBooks(t: Tables, token: string)
    requires Books(t) && forall i :: i in t.players ==> t.players[i].token != token
    ensures Books(Joined(t, token)) && t.nextPlayer in Joined(t, token).players
  {
    var t' := Joined(t, token);
    UnknownSum(t.history, t.nextPlayer);
    assert Keyed(t') && Delivered(t');
    forall j | j in t'.players
      ensures Settled(t', j)
    {
      if j in t.players { assert Settled(t, j); }
    }
  }

  lemma OwnDefaultBooks(t: Tables, id: int)
    requires Books(t) && id in t.players
    ensures Books(OwnDefault(t, id))
  {
    var t' := OwnDefault(t, id);
    assert Keyed(t') && Delivered(t');
    forall j | j in t'.players
      ensures Settled(t', j)
    {
      assert Settled(t, j);
    }
  }

  lemma JoinedKeepsBooks(t: Tables, token: string)
    requires Books(t) && forall i :: i in t.players ==> t.players[i].token != token
    ensures Books(Joined(t, token)) && Books(OwnDefault(Joined(t, token), t.nextPlayer))
    ensures Even(Joined(t, token)) <==> Even(t)
    ensures Even(OwnDefault(Joined(t, token), t.nextPlayer)) <==> Even(t)
  {
    JoinedBooks(t, token);
    OwnDefaultBooks(Joined(t, token), t.nextPlayer);
    SameSales(t, Joined(t, token));
    SameSales(t, OwnDefault(Joined(t, token), t.nextPlayer));
  }

  /** The player owns the icon and has its price less; nobody and nothing else is any different. */
  ghost predicate PaidFor(t: Tables, t': Tables, id: int, i: Icon) {
    id in t.players && id in t'.players && (id, i) in t'.owned && t'.owned - {(id, i)} == t.owned - {(id, i)} &&
    t'.players[id].bp + Price(i) == t.players[id].bp && SameAccount(t.players[id], t'.players[id]) &&
    SamePerson(t.players[id], t'.players[id]) && OthersAlike(t, t', id)
  }

  /** The player shows the icon; nobody and nothing else is any different. */
  ghost predicate Wears(t: Tables, t': Tables, id: int, i: Icon) {
    id in t.players && id in t'.players && t'.players[id].icon == i && t'.owned == t.owned &&
    t'.players[id].bp == t.players[id].bp && SameAccount(t.players[id], t'.players[id]) &&
    t'.players[id].token == t.players[id].token && OthersAlike(t, t', id)
  }

  predicate SameAccount(p: Player, q: Player) {
    q.elo == p.elo && q.wins == p.wins && q.losses == p.losses && q.xp == p.xp
  }

  ghost predicate OthersAlike(t: Tables, t': Tables, id: int) {
    t'.players.Keys == t.players.Keys && t'.matches == t.matches && t'.history == t.history &&
    forall j :: j in t.players && j != id ==> t'.players[j] == t.players[j]
  }

  lemma OneOwner(t: Tables, i: int, j: int)
    requires Keyed(t) && i in t.players && j in t.players && t.players[i].token == t.players[j].token
    ensures i == j
  {}

  lemma SoldIsPaidFor(t: Tables, id: int, i: Icon)
    requires id in t.players
    ensures PaidFor(t, Sold(t, id, i), id, i)
  {}

  lemma ChosenWears(t: Tables, id: int, i: Icon)
    requires id in t.players
    ensures Wears(t, Chosen(t, id, i), id, i)
  {}

  /** What player_owns_icon answers: no read for the default icon, and no for a failed read. */
  predicate Seen(owned: set<(int, Icon)>, id: int, i: Icon, failed: bool) {
    i == DefaultIcon || (!failed && (id, i) in owned)
  }

  class Database {
    const expected: Curve
    var players: map<int, Player>
    var owned: set<(int, Icon)>
    var matches: map<string, MatchRow>
    var history: seq<HistoryRow>
    var nextPlayer: int
    var nextMatch: int
    var sales: seq<(int, Icon)>   // history

    function State(): Tables
      reads this
    {
      Tables(players, owned, matches, history, nextPlayer, nextMatch, sales)
    }

    ghost predicate Valid()
      reads this
    {
      Books(State()) && IsCurve(expected)
    }

    constructor (expected: Curve)
      requires IsCurve(expected)
      ensures Valid() && players == map[] && matches == map[] && sales == [] && this.expected == expected
    {
      this.expected := expected;
      players, owned, matches, history, nextPlayer, nextMatch, sales := map[], {}, map[], [], 1, 1, [];
    }

    /** Any statement may fail. */
    method Step() returns (ok: bool)
    {
      ok := *;
    }

    method Restore(t: Tables)
      modifies this
      ensures State() == t
    {
      players, owned, matches, history := t.players, t.owned, t.matches, t.history;
      nextPlayer, nextMatch, sales := t.nextPlayer, t.nextMatch, t.sales;
    }

    method ReadByToken(token: string) returns (id: Option<int>)
      ensures id.Some? ==> id.value in players && players[id.value].token == token
      ensures (forall i :: i in players ==> players[i].token != token) ==> id.None?
    {
      var ok := Step();
      if ok && exists i :: i in players && players[i].token == token {
        var i :| i in players && players[i].token == token;
        return Some(i);
      }
      id := None;
    }

    /** The account found before, read once more. */
    method ReadAgain(token: string, ghost id: int) returns (p: Option<Player>)
      requires Valid() && id in players && players[id].token == token
      ensures p.Some? ==> p.value == players[id]
    {
      var found := ReadByToken(token);
      if found.Some? { OneOwner(State(), found.value, id); }
      p := if found.None? then None else Some(players[found.value]);
    }

    /** player_owns_icon: a failed read answers no. */
    method OwnsIcon(id: int, i: Icon) returns (owns: bool, ghost failed: bool)
      ensures owns <==> Seen(owned, id, i, failed)
    {
      failed := false;
      if i == DefaultIcon { return true, false; }
      var ok := Step();
      failed := !ok;
      owns := ok && (id, i) in owned;
    }

    /** registerGuest: a new account with nothing on it, unless the token is taken. */
    method RegisterGuest(token: string) returns (id: Option<int>)
      requires Valid()
      modifies this
      ensures Valid() && sales == old(sales) && (Even(State()) <==> old(Even(State())))
      ensures id.None? ==> State() == old(State())
      ensures id.Some? ==>
                players == old(players)[id.value := Player(token, 0, 0, 0, 0, 0, DefaultIcon)] &&
                matches == old(matches)
      ensures id.Some? ==>
                id == Some(old(nextPlayer)) && id.value !in old(players) &&
                (State() == Joined(old(State()), token) ||
                 State() == OwnDefault(Joined(old(State()), token), id.value))
    {
      var ok := Step();
      if !ok || exists i :: i in players && players[i].token == token { return None; }
      JoinedKeepsBooks(State(), token);
      id := Some(nextPlayer);
      Insert(token);
      ok := Step();
      if ok { GiveDefault(id.value); }
    }

    method Insert(token: string)
      modifies this`players, this`nextPlayer
      ensures State() == Joined(old(State()), token)
    {
      players := players[nextPlayer := Player(token, 0, 0, 0, 0, 0, DefaultIcon)];
      nextPlayer := nextPlayer + 1;
    }

    method GiveDefault(id: int)
      modifies this`owned
      ensures State() == OwnDefault(old(State()), id)
    {
      owned := owned + {(id, DefaultIcon)};
    }

    /** purchaseIcon.  found is the account the first read finds, which is none if the read
        fails; failed says whether the ownership could not be read, committed whether the
        transaction went through.  A refusal changes nothing; an error after the commit leaves
        the icon bought.  The currency equation survives exactly if nothing was committed for
        an icon already owned. */
    method PurchaseIcon(token: string, iconId: string)
      returns (r: Purchase, ghost found: Option<int>, ghost failed: bool, ghost committed: bool)
      requires Valid()
      modifies this
      ensures Valid()
      ensures found.Some? ==> found.value in old(players) && old(players)[found.value].token == token
      ensures (r.InvalidIcon? <==> FindIcon(iconId).None?) && (r.InvalidIcon? ==> found.None?)
      ensures r.UnknownToken? <==> FindIcon(iconId).Some? && found.None?
      ensures r.AlreadyOwned? <==> found.Some? && Seen(old(owned), found.value, FindIcon(iconId).value, failed)
      ensures r.InsufficientBp? <==>
                found.Some? && !Seen(old(owned), found.value, FindIcon(iconId).value, failed) &&
                old(players)[found.value].bp < Price(FindIcon(iconId).value)
      ensures committed ==> (r.Bought? || r.DbError?) && found.Some? && FindIcon(iconId) != Some(DefaultIcon) &&
                            State() == Sold(old(State()), found.value, FindIcon(iconId).value)
      ensures !committed ==> !r.Bought? && State() == old(State())
      ensures committed ==> PaidFor(old(State()), State(), found.value, FindIcon(iconId).value)
      ensures r.Bought? ==> r.player == players[found.value]
      ensures sales == old(sales) + if committed then [(found.value, FindIcon(iconId).value)] else []
      ensures Even(State()) <==>
                old(Even(State())) && !(committed && (found.value, FindIcon(iconId).value) in old(owned))
    {
      found, failed, committed := None, false, false;
      var icon := FindIcon(iconId);
      if icon.None? { r := InvalidIcon; return; }
      var p := ReadByToken(token);
      found := p;
      if p.None? { r := UnknownToken; return; }
      var id := p.value;
      var owns;
      owns, failed := OwnsIcon(id, icon.value);
      if owns { r := AlreadyOwned; return; }
      if players[id].bp < Price(icon.value) { r := InsufficientBp; return; }
      SoldKeepsBooks(State(), id, icon.value);
      SoldIsPaidFor(State(), id, icon.value);
      var done := Buy(id, icon.value);
      committed := done;
      if !done { r := DbError; return; }
      var again := ReadAgain(token, id);
      r := if again.None? then DbError else Bought(again.value);
    }

    /** The transaction of a purchase. */
    method Buy(id: int, i: Icon) returns (done: bool)
      requires id in players && players[id].bp >= Price(i)
      modifies this
      ensures State() == if done then Sold(old(State()), id, i) else old(State())
    {
      var before := State();
      var ok := Step();
      if !ok { return false; }
      players := players[id := players[id].(bp := players[id].bp - Price(i))];
      ok := Step();
      if !ok { Restore(before); return false; }
      owned := owned + {(id, i)};
      ok := Step();
      if !ok { Restore(before); return false; }
      sales := sales + [(id, i)];
      done := true;
    }

    /** selectIcon: only an icon the player owns, and none if the ownership cannot be read.  As
        with a purchase, an error after the write leaves the icon selected. */
    method SelectIcon(token: string, iconId: string)
      returns (r: Selection, ghost found: Option<int>, ghost failed: bool, ghost written: bool)
      requires Valid()
      modifies this
      ensures Valid() && sales == old(sales) && (Even(State()) <==> old(Even(State())))
      ensures found.Some? ==> found.value in old(players) && old(players)[found.value].token == token
      ensures (r.InvalidChoice? <==> FindIcon(iconId).None?) && (r.InvalidChoice? ==> found.None?)
      ensures r.UnknownUser? <==> FindIcon(iconId).Some? && found.None?
      ensures r.NotOwned? <==> found.Some? && !Seen(old(owned), found.value, FindIcon(iconId).value, failed)
      ensures written ==> (r.Selected? || r.SelectError?) && found.Some? &&
                          State() == Chosen(old(State()), found.value, FindIcon(iconId).value)
      ensures !written ==> !r.Selected? && State() == old(State())
      ensures written ==> Wears(old(State()), State(), found.value, FindIcon(iconId).value)
      ensures r.Selected? ==> r.player == players[found.value]
    {
      found, failed, written := None, false, false;
      var icon := FindIcon(iconId);
      if icon.None? { r := InvalidChoice; return; }
      var p := ReadByToken(token);
      found := p;
      if p.None? { r := UnknownUser; return; }
      var id := p.value;
      var owns;
      owns, failed := OwnsIcon(id, icon.value);
      if !owns { r := NotOwned; return; }
      var ok := Step();
      if !ok { r := SelectError; return; }
      ChosenKeepsBooks(State(), id, icon.value);
      ChosenWears(State(), id, icon.value);
      players := players[id := players[id].(icon := icon.value)];
      written := true;
      var again := ReadAgain(token, id);
      r := if again.None? then SelectError else Selected(again.value);
    }

    /** saveMatch: a match already recorded is answered from the record and changes nothing; a
        failure changes nothing; a success records the match once, with its result. */
    method SaveMatch(m: MatchRecord) returns (r: Option<MatchResult>)
      requires Books(State()) && IsCurve(expected)
      modifies this
      ensures m.uuid in old(matches) ==>
                State() == old(State()) && (r.Some? ==> r.value == Result(old(matches)[m.uuid]))
      ensures m.uuid !in old(matches) && r.None? ==> State() == old(State())
      ensures m.uuid !in old(matches) && r.Some? ==>
                m.a in old(players) && m.b in old(players) && State() == Saved(old(State()), m, expected) &&
                m.uuid in matches && r.value == Result(matches[m.uuid])
      ensures m.uuid !in old(matches) && r.Some? && m.a != m.b ==>
                Rated(old(State()), State(), m) && Tells(old(State()), State(), m, r.value)
      ensures m.uuid !in old(matches) && r.Some? ==>
                matches == old(matches)[m.uuid := matches[m.uuid]] &&
                matches[m.uuid].a == m.a && matches[m.uuid].b == m.b && matches[m.uuid].winner == m.winner
      ensures Books(State()) <==> r.None? || m.uuid in old(matches) || Proper(m)
      ensures sales == old(sales) && (Even(State()) <==> old(Even(State())))
    {
      var ok := Step();
      if !ok { return None; }
      if m.uuid in matches { return Some(Result(matches[m.uuid])); }
      if m.a !in players || m.b !in players { return None; }
      SaveKeepsBooks(State(), m, expected);
      SaveKeepsEven(State(), m, expected);
      if m.a != m.b { SaveRates(State(), m, expected); }
      var done := Record(m);
      r := if done then Some(Result(matches[m.uuid])) else None;
    }

    /** The transaction of a match: record, ratings, accounts, history. */
    method Record(m: MatchRecord) returns (done: bool)
      requires m.uuid !in matches && m.a in players && m.b in players
      modifies this
      ensures State() == if done then Saved(old(State()), m, expected) else old(State())
      ensures done ==> m.uuid in matches
    {
      var before := State();
      var id := nextMatch;
      nextMatch := nextMatch + 1;
      var beforeA, beforeB := players[m.a].elo, players[m.b].elo;
      var e := NewElos(beforeA, beforeB, m, expected);
      matches := matches[m.uuid := MatchRow(id, m.a, m.b, m.winner, beforeA, e.0, beforeB, e.1)];
      var ok := Step();
      if ok && m.winner.Some? {
        ok := Pay(m, id, beforeA, e.0, beforeB, e.1);
      }
      if !ok { Restore(before); return false; }
      ok := Step();
      if !ok { Restore(before); return false; }
      done := true;
    }

    method Pay(m: MatchRecord, id: int, beforeA: int, afterA: int, beforeB: int, afterB: int) returns (ok: bool)
      requires m.a in players && m.b in players && m.winner.Some?
      modifies this`players, this`history
      ensures ok ==>
                players == Credited(Credited(old(players), m.a, afterA, m.winner == Some(m.a)),
                                    m.b, afterB, m.winner == Some(m.b)) &&
                history == old(history) + [HistoryRow(m.a, id, beforeA, afterA), HistoryRow(m.b, id, beforeB, afterB)]
    {
      ok := Step();
      if !ok { return; }
      players := Credited(players, m.a, afterA, m.winner == Some(m.a));
      ok := Step();
      if !ok { return; }
      players := Credited(players, m.b, afterB, m.winner == Some(m.b));
      ok := Step();
      if !ok { return; }
      history := history + [HistoryRow(m.a, id, beforeA, afterA)];
      ok := Step();
      if !ok { return; }
      history := history + [HistoryRow(m.b, id, beforeB, afterB)];
    }

    /** POST /v1/matches: only a match of two players that one of them, or nobody, won. */
    method PostMatch(m: MatchRecord) returns (r: Option<MatchResult>)
      requires Valid()
      modifies this
      ensures Valid() && sales == old(sales) && (Even(State()) <==> old(Even(State())))
      ensures m.uuid in old(matches) ==>
                State() == old(State()) && (r.Some? ==> r.value == Result(old(matches)[m.uuid]))
      ensures r.Some? ==> m.uuid in matches && r.value == Result(matches[m.uuid])
      ensures m.uuid !in old(matches) && r.Some? ==>
                m.a in old(players) && m.b in old(players) && m.a != m.b &&
                Rated(old(State()), State(), m) && Tells(old(State()), State(), m, r.value)
      ensures Recorded(old(matches))
    {
      if m.a == m.b || (m.winner.Some? && m.winner.value != m.a && m.winner.value != m.b) { return None; }
      r := SaveMatch(m);
    }

    /** Matches once recorded are still there, unchanged. */
    ghost predicate Recorded(before: map<string, MatchRow>)
      reads this
    {
      forall u :: u in before ==> u in matches && matches[u] == before[u]
    }

    /** One call: a purchase may add one sale, nothing else adds any. */
    method Serve(c: Call)
      requires Valid()
      modifies this
      ensures Valid() && Recorded(old(matches))
      ensures sales == old(sales) || (c.Purchase? && |sales| == |old(sales)| + 1 && old(sales) <= sales)
      ensures Even(State()) <==> old(Even(State())) && !Again(sales, |old(sales)|)
    {
      match c
      case Guest(token) => var _ := RegisterGuest(token);
      case Post(m) => var _ := PostMatch(m);
      case Purchase(token, icon) =>
        var _, found, _, committed := PurchaseIcon(token, icon);
        if committed { SoldAgain(old(State()), found.value, FindIcon(icon).value); }
      case Select(token, icon) => var _, _, _, _ := SelectIcon(token, icon);
    }

    /** Over any sequence of calls the books are kept and recorded matches never change.  The
        currency equation survives exactly if no icon was sold on the way to somebody who had
        been sold it before. */
    method Run(calls: seq<Call>)
      requires Valid()
      modifies this
      ensures Valid() && Recorded(old(matches)) && old(sales) <= sales
      ensures Even(State()) <==> old(Even(State())) && !Again(sales, |old(sales)|)
      ensures Even(State()) <==> SoldOnce(sales)
    {
      for i := 0 to |calls|
        invariant Valid() && Recorded(old(matches)) && old(sales) <= sales
        invariant Even(State()) <==> old(Even(State())) && !Again(sales, |old(sales)|)
      {
        ghost var before := sales;
        Serve(calls[i]);
        AgainThen(old(sales), before, sales);
      }
      EvenIsSoldOnce(State());
    }
  }

  datatype Call =
    | Guest(token: string)
    | Post(m: MatchRecord)
    | Purchase(token: string, icon: string)
    | Select(token: string, icon: string)
}
