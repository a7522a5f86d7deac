/** The position shown to a user, against the order in which users are served. */
module Position {
  import opened QueueTypes
  import opened Database
  import opened SetFacts
  import opened Promotion
  import History

  /** The rows calculatePosition counts: WAITING or LATE, with a better key. */
  function Counted(rows: map<UserId, Row>, joinedAt: int, priorityBoost: int): set<UserId> {
    set v | v in rows && (rows[v].status.Waiting? || rows[v].status.Late?)
            && (rows[v].priorityBoost > priorityBoost
                || (rows[v].priorityBoost == priorityBoost && rows[v].joinedAt < joinedAt))
  }

  function CalculatePosition(rows: map<UserId, Row>, joinedAt: int, priorityBoost: int): nat {
    |Counted(rows, joinedAt, priorityBoost)| + 1
  }

  function PositionOf(rows: map<UserId, Row>, u: UserId): nat
    requires u in rows
  {
    CalculatePosition(rows, rows[u].joinedAt, rows[u].priorityBoost)
  }

  /** Rows of one status strictly ahead of u. */
  function AheadIn(rows: map<UserId, Row>, u: UserId, status: Status): set<UserId>
    requires u in rows
  {
    set v | v in rows && rows[v].status == status && Before(rows[v], rows[u])
  }

  /** Whatever the row's status, its position is one more than the WAITING and the LATE users
      strictly ahead. */
  lemma PositionSpelled(rows: map<UserId, Row>, u: UserId)
    requires u in rows
    ensures PositionOf(rows, u) == 1 + |AheadIn(rows, u, Waiting)| + |AheadIn(rows, u, Late)|
  {
    var waiting, late := AheadIn(rows, u, Waiting), AheadIn(rows, u, Late);
    assert Counted(rows, rows[u].joinedAt, rows[u].priorityBoost) == waiting + late;
    assert waiting !! late;
  }

  /** A boosted user has no LATE user ahead. */
  lemma PositionSplits(db: Db, u: UserId)
    requires History.Explained(db) && u in db.rows
    ensures PositionOf(db.rows, u) == 1 + |AheadIn(db.rows, u, Waiting)| + |AheadIn(db.rows, u, Late)|
    ensures db.rows[u].priorityBoost > 0 ==> AheadIn(db.rows, u, Late) == {}
  {
    PositionSpelled(db.rows, u);
    forall v | v in db.rows ensures db.rows[v].status.Late? ==> db.rows[v].priorityBoost == 0 {
      assert History.ExplainedAt(db, v);
    }
  }

  /** Other WAITING users with the same key as u: the source orders them no further. */
  function TiedWith(rows: map<UserId, Row>, u: UserId): set<UserId>
    requires u in rows
  {
    set v | v in rows && v != u && rows[v].status.Waiting?
            && !Before(rows[v], rows[u]) && !Before(rows[u], rows[v])
  }

  /** Whoever is served had fewer WAITING users ahead than there are open slots. */
  lemma ServedHasRoom(db: Db, p: seq<UserId>, u: UserId)
    requires Greedy(db.rows, p) && |p| == Quota(db) && u in Users(db.rows, Waiting) && u in p
    ensures |AheadIn(db.rows, u, Waiting)| < OpenSlots(db)
  {
    var ahead := AheadIn(db.rows, u, Waiting);
    ElementCount(p);
    forall v | v in ahead ensures v in Elements(p) - {u} {
      assert v in Users(db.rows, Waiting);
    }
    CardLe(ahead, Elements(p) - {u});
  }

  /** Whoever is not served had at least as many users ahead or tied as there are open slots. */
  lemma PassedHasNoRoom(db: Db, p: seq<UserId>, u: UserId)
    requires Greedy(db.rows, p) && |p| == Quota(db) && u in Users(db.rows, Waiting) && u !in p
    ensures |AheadIn(db.rows, u, Waiting)| + |TiedWith(db.rows, u)| >= OpenSlots(db)
  {
    var ahead, tied, waiting := AheadIn(db.rows, u, Waiting), TiedWith(db.rows, u), Users(db.rows, Waiting);
    ElementCount(p);
    forall v | v in Elements(p) ensures v in ahead + tied {
      assert v in waiting && u in waiting - Elements(p);
    }
    assert ahead !! tied;
    CardLe(Elements(p), ahead + tied);
    CardLe(Elements(p), waiting - {u});
  }

  /** A run serves u only if there are more open slots than WAITING users ahead of u, and
      certainly if there are more than users ahead of u or tied with u. For a user with a key
      of its own these are the same. */
  lemma ServedIffRoom(db: Db, p: seq<UserId>, u: UserId)
    requires Greedy(db.rows, p) && |p| == Quota(db) && u in Users(db.rows, Waiting)
    ensures u in p ==> |AheadIn(db.rows, u, Waiting)| < OpenSlots(db)
    ensures |AheadIn(db.rows, u, Waiting)| + |TiedWith(db.rows, u)| < OpenSlots(db) ==> u in p
    ensures TiedWith(db.rows, u) == {} ==> (u in p <==> |AheadIn(db.rows, u, Waiting)| < OpenSlots(db))
  {
    if u in p { ServedHasRoom(db, p, u); } else { PassedHasNoRoom(db, p, u); }
  }

  /** Nobody who waits outside of `first` is strictly ahead of one in it. */
  ghost predicate Closed(rows: map<UserId, Row>, first: set<UserId>) {
    && first <= Users(rows, Waiting)
    && forall v, x :: v in Users(rows, Waiting) - first && x in first ==> !Before(rows[v], rows[x])
  }

  lemma ClosedThen(rows: map<UserId, Row>, first: set<UserId>, p: seq<UserId>, q: seq<UserId>)
    requires Closed(rows, first) && GreedyFrom(rows, first, p) && Elements(p) == first
    requires GreedyFrom(rows, Users(rows, Waiting) - first, q)
    ensures Elements(p + q) == first + Elements(q) && Greedy(rows, p + q)
  {
    assert Greedy(rows, p);
    GreedyConcat(rows, Users(rows, Waiting), p, q);
  }

  lemma ListUpTo(rows: map<UserId, Row>, first: set<UserId>, u: UserId) returns (p: seq<UserId>)
    requires u in Users(rows, Waiting) - first && Closed(rows, first) && Closed(rows, first + {u})
    ensures Greedy(rows, p) && Elements(p) == first + {u}
    ensures |p| == |first| + 1 && p[|first|] == u
  {
    var before := SortPool(rows, first);
    ElementCount(before);
    assert Elements([u]) == {u};
    GreedyOne(rows, first, u);
    ClosedThen(rows, first, before, [u]);
    p := before + [u];
  }

  /** A listing in which exactly the users of `first` come before u, when no one else must. */
  lemma ListAround(rows: map<UserId, Row>, first: set<UserId>, u: UserId) returns (order: seq<UserId>)
    requires u in Users(rows, Waiting) - first && Closed(rows, first) && Closed(rows, first + {u})
    ensures Listing(rows, order) && |first| < |order| && order[|first|] == u
  {
    var p := ListUpTo(rows, first, u);
    var after := SortPool(rows, Users(rows, Waiting) - (first + {u}));
    GreedyConcat(rows, Users(rows, Waiting), p, after);
    order := p + after;
  }

  lemma GreedyOne(rows: map<UserId, Row>, first: set<UserId>, u: UserId)
    requires u in Users(rows, Waiting) - first && Closed(rows, first + {u})
    ensures GreedyFrom(rows, Users(rows, Waiting) - first, [u])
  {
    assert Elements([u]) == {u};
  }

  lemma ClosedAround(rows: map<UserId, Row>, u: UserId)
    requires u in Users(rows, Waiting)
    ensures var ahead, tied := AheadIn(rows, u, Waiting), TiedWith(rows, u);
            && Closed(rows, ahead) && Closed(rows, ahead + {u})
            && Closed(rows, ahead + tied) && Closed(rows, ahead + tied + {u})
  {
  }

  lemma SetsAround(rows: map<UserId, Row>, u: UserId)
    requires u in Users(rows, Waiting)
    ensures var ahead, tied := AheadIn(rows, u, Waiting), TiedWith(rows, u);
            && ahead !! tied && |ahead + tied| == |ahead| + |tied|
            && ahead <= ahead + tied <= Users(rows, Waiting) - {u}
            && |ahead + tied| < |Users(rows, Waiting)|
  {
    var ahead, tied := AheadIn(rows, u, Waiting), TiedWith(rows, u);
    assert ahead !! tied;
    CardLe(ahead + tied, Users(rows, Waiting) - {u});
  }

  lemma TieServes(db: Db, u: UserId) returns (p: seq<UserId>)
    requires u in Users(db.rows, Waiting) && |AheadIn(db.rows, u, Waiting)| < Quota(db)
    ensures Greedy(db.rows, p) && |p| == Quota(db) && u in p
  {
    var ahead := AheadIn(db.rows, u, Waiting);
    ClosedAround(db.rows, u);
    var order := ListAround(db.rows, ahead, u);
    p := FirstOf(db, order);
    assert p[|ahead|] == u;
  }

  lemma TieSkips(db: Db, u: UserId) returns (q: seq<UserId>)
    requires u in Users(db.rows, Waiting)
    requires Quota(db) <= |AheadIn(db.rows, u, Waiting) + TiedWith(db.rows, u)|
    ensures Greedy(db.rows, q) && |q| == Quota(db) && u !in q
  {
    ClosedAround(db.rows, u);
    var order := ListAround(db.rows, AheadIn(db.rows, u, Waiting) + TiedWith(db.rows, u), u);
    q := FirstOf(db, order);
  }

  /** Between the two bounds a tie decides: some run serves u and some run does not. */
  lemma TieDecidesEitherWay(db: Db, u: UserId) returns (p: seq<UserId>, q: seq<UserId>)
    requires u in Users(db.rows, Waiting)
    requires |AheadIn(db.rows, u, Waiting)| < OpenSlots(db)
          <= |AheadIn(db.rows, u, Waiting)| + |TiedWith(db.rows, u)|
    ensures Greedy(db.rows, p) && |p| == Quota(db) && u in p
    ensures Greedy(db.rows, q) && |q| == Quota(db) && u !in q
  {
    SetsAround(db.rows, u);
    p := TieServes(db, u);
    q := TieSkips(db, u);
  }

  lemma FirstOf(db: Db, order: seq<UserId>) returns (p: seq<UserId>)
    requires Listing(db.rows, order)
    ensures Quota(db) <= |order| && p == order[..Quota(db)]
    ensures Greedy(db.rows, p)
  {
    ElementCount(order);
    p := order[..Quota(db)];
    GreedyIsListingPrefix(db.rows, p);
  }

  /** A position within the open slots is served by the next run, unless a tie decides; whoever
      is served had a position that passed the open slots by no more than the LATE users ahead. */
  lemma PositionPredictsService(db: Db, p: seq<UserId>, u: UserId)
    requires History.Explained(db)
    requires Greedy(db.rows, p) && |p| == Quota(db) && u in Users(db.rows, Waiting)
    ensures PositionOf(db.rows, u) + |TiedWith(db.rows, u)| <= OpenSlots(db) ==> u in p
    ensures u in p ==> PositionOf(db.rows, u) - |AheadIn(db.rows, u, Late)| <= OpenSlots(db)
    ensures TiedWith(db.rows, u) == {} ==>
              (u in p <==> PositionOf(db.rows, u) - |AheadIn(db.rows, u, Late)| <= OpenSlots(db))
  {
    PositionSplits(db, u);
    ServedIffRoom(db, p, u);
  }

  // ----- drift --------------------------------------------------------------

  /** The writer is counted against u's position. */
  predicate Counts(rows: map<UserId, Row>, v: UserId, u: UserId)
    requires u in rows
  {
    v in Counted(rows, rows[u].joinedAt, rows[u].priorityBoost)
  }

  /** One write by v moves another user's position by at most one, and by nothing but
      whether v itself counts before and after. */
  lemma PositionDrift(db: Db, w: Write, u: UserId)
    requires u in db.rows && Lands(db, w) && w.user != u
    ensures var after := Apply(db, w);
            && after.rows[u] == db.rows[u]
            && PositionOf(after.rows, u) - PositionOf(db.rows, u)
               == (if Counts(after.rows, w.user, u) then 1 else 0) - (if Counts(db.rows, w.user, u) then 1 else 0)
  {
    var row, after := db.rows[u], Apply(db, w);
    var counted := Counted(db.rows, row.joinedAt, row.priorityBoost);
    var counted' := Counted(after.rows, row.joinedAt, row.priorityBoost);
    SetMove(counted, counted', w.user);
  }

  /** Two sets that differ in x alone. */
  lemma SetMove(before: set<UserId>, after: set<UserId>, x: UserId)
    requires forall v :: v != x ==> (v in before <==> v in after)
    ensures |after| - |before| == (if x in after then 1 else 0) - (if x in before then 1 else 0)
  {
    assert before - {x} == after - {x};
    assert x in before ==> |before - {x}| == |before| - 1;
    assert x in after ==> |after - {x}| == |after| - 1;
    assert x !in before ==> before - {x} == before;
    assert x !in after ==> after - {x} == after;
  }

  /** It rises only on MARK_LATE, or on a REJOIN that ends in WAITING; a fresh join can
      raise it only with a stamp before u's own. */
  lemma PositionRises(db: Db, w: Write, u: UserId)
    requires History.Explained(db) && u in db.rows && Lands(db, w) && w.user != u
    requires PositionOf(Apply(db, w).rows, u) > PositionOf(db.rows, u)
    ensures match w
            case Insert(_, at) => at < db.rows[u].joinedAt
            case Change(_, _, event, _, _, _) =>
              event.MarkLate? || (event.Rejoin? && NewRow(db, w).status.Waiting?)
  {
    PositionDrift(db, w, u);
    assert History.ExplainedAt(db, u);
    assert History.ExplainedAt(db, w.user);
  }
}
