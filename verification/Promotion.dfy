/** Who is served next: the queue order, and what one promotion run does to the tables. */
module Promotion {
  import opened QueueTypes
  import opened Database

  /** Strictly ahead in the order (priorityBoost desc, joinedAt asc). Equal keys are not ordered. */
  predicate Before(a: Row, b: Row) {
    a.priorityBoost > b.priorityBoost || (a.priorityBoost == b.priorityBoost && a.joinedAt < b.joinedAt)
  }

  /** A row that findFirst may return: WAITING, with nobody WAITING strictly ahead. */
  ghost predicate Best(rows: map<UserId, Row>, u: UserId) {
    && u in Users(rows, Waiting)
    && forall v :: v in Users(rows, Waiting) ==> !Before(rows[v], rows[u])
  }

  ghost predicate NoDuplicates(p: seq<UserId>) {
    forall i, j :: 0 <= i < j < |p| ==> p[i] != p[j]
  }

  function Elements(p: seq<UserId>): (s: set<UserId>)
    ensures forall u :: u in p <==> u in s
  {
    set u | u in p
  }

  ghost predicate Sorted(rows: map<UserId, Row>, p: seq<UserId>)
    requires Elements(p) <= rows.Keys
  {
    forall i, j :: 0 <= i < j < |p| ==> !Before(rows[p[j]], rows[p[i]])
  }

  /** The order the query would list all WAITING rows in. */
  ghost predicate Listing(rows: map<UserId, Row>, order: seq<UserId>) {
    && NoDuplicates(order)
    && Elements(order) == Users(rows, Waiting)
    && Sorted(rows, order)
  }

  /** Some of the pool, best first, with nobody left in the pool who is strictly ahead of one of them. */
  ghost predicate GreedyFrom(rows: map<UserId, Row>, pool: set<UserId>, p: seq<UserId>)
    requires pool <= rows.Keys
  {
    && NoDuplicates(p)
    && Elements(p) <= pool
    && Sorted(rows, p)
    && forall u, v :: u in p && v in pool - Elements(p) ==> !Before(rows[v], rows[u])
  }

  ghost predicate Greedy(rows: map<UserId, Row>, p: seq<UserId>) {
    GreedyFrom(rows, Users(rows, Waiting), p)
  }

  function OpenSlots(db: Db): int {
    db.serviceSlots - |Users(db.rows, Serving)|
  }

  /** How many a run serves: as many as there are open slots and waiting users. */
  function Quota(db: Db): nat {
    var waiting := |Users(db.rows, Waiting)|;
    if OpenSlots(db) <= 0 then 0 else if OpenSlots(db) < waiting then OpenSlots(db) else waiting
  }

  function ServeWrite(db: Db, u: UserId, at: int): Write
    requires u in db.rows
  {
    Change(u, db.rows[u], Serve, System, at, db.graceTime)
  }

  function ServedEntry(u: UserId, at: int): LogEntry {
    LogEntry(u, QuServed, Some(Waiting), Serving, System, at)
  }

  /** The tables after serving p: those rows SERVING with no boost, all others as they were. */
  function Promoted(db: Db, p: seq<UserId>, at: int): Db {
    db.(
    rows := map u | u in db.rows ::
              if u in p then db.rows[u].(status := Serving, priorityBoost := 0) else db.rows[u],
    log := db.log + seq(|p|, i requires 0 <= i < |p| => ServedEntry(p[i], at)))
  }

  ghost predicate IsPromotion(db: Db, p: seq<UserId>, at: int, db': Db) {
    Greedy(db.rows, p) && |p| == Quota(db) && db' == Promoted(db, p, at)
  }

  // ----- counting -----------------------------------------------------------

  lemma {:induction false} ElementCount(p: seq<UserId>)
    requires NoDuplicates(p)
    ensures |Elements(p)| == |p|
  {
    if p != [] {
      var front, u := p[..|p| - 1], p[|p| - 1];
      ElementCount(front);
      assert p == front + [u];
      assert Elements(p) == Elements(front) + {u};
      assert u !in front;
    }
  }

  lemma PromotedUsers(db: Db, p: seq<UserId>, at: int)
    requires Greedy(db.rows, p)
    ensures Users(Promoted(db, p, at).rows, Serving) == Users(db.rows, Serving) + Elements(p)
    ensures Users(Promoted(db, p, at).rows, Waiting) == Users(db.rows, Waiting) - Elements(p)
    ensures |Users(Promoted(db, p, at).rows, Serving)| == |Users(db.rows, Serving)| + |p|
    ensures |Users(Promoted(db, p, at).rows, Waiting)| == |Users(db.rows, Waiting)| - |p|
  {
    ElementCount(p);
    assert forall u :: u in p ==> u in Users(db.rows, Waiting);
    var serving, waiting := Users(db.rows, Serving), Users(db.rows, Waiting);
    assert Users(Promoted(db, p, at).rows, Serving) == serving + Elements(p);
    assert serving * Elements(p) == {};
    assert Users(Promoted(db, p, at).rows, Waiting) == waiting - Elements(p);
  }

  // ----- one turn of the loop -----------------------------------------------

  lemma BestExists(rows: map<UserId, Row>)
    requires Users(rows, Waiting) != {}
    ensures exists u :: Best(rows, u)
  {
    var u := LeastOf(rows, Users(rows, Waiting));
    assert Best(rows, u);
  }

  lemma {:induction false} LeastOf(rows: map<UserId, Row>, s: set<UserId>) returns (u: UserId)
    requires s != {} && s <= rows.Keys
    ensures u in s && forall v :: v in s ==> !Before(rows[v], rows[u])
    decreases |s|
  {
    var x :| x in s;
    if s == {x} {
      u := x;
    } else {
      var y := LeastOf(rows, s - {x});
      u := if Before(rows[x], rows[y]) then x else y;
    }
  }

  lemma GreedyConcat(rows: map<UserId, Row>, pool: set<UserId>, p: seq<UserId>, q: seq<UserId>)
    requires pool <= rows.Keys
    requires GreedyFrom(rows, pool, p) && GreedyFrom(rows, pool - Elements(p), q)
    ensures Elements(p + q) == Elements(p) + Elements(q)
    ensures GreedyFrom(rows, pool, p + q)
  {
    var r := p + q;
    assert Elements(r) == Elements(p) + Elements(q);
    forall i, j | 0 <= i < j < |r| ensures r[i] != r[j] && !Before(rows[r[j]], rows[r[i]]) {
      if i < |p| <= j {
        assert r[i] in p && r[j] in q;
      }
    }
    forall u, v | u in r && v in pool - Elements(r) ensures !Before(rows[v], rows[u]) {
      assert v in pool - Elements(p) && v in pool - Elements(p) - Elements(q);
    }
  }

  /** The rows of a pool decide what is greedy, whatever else the table holds. */
  lemma GreedyTransfer(rows: map<UserId, Row>, rows': map<UserId, Row>, pool: set<UserId>, p: seq<UserId>)
    requires pool <= rows.Keys && pool <= rows'.Keys
    requires forall u :: u in pool ==> rows[u] == rows'[u]
    requires GreedyFrom(rows', pool, p)
    ensures GreedyFrom(rows, pool, p)
  {
    forall i, j | 0 <= i < j < |p| ensures !Before(rows[p[j]], rows[p[i]]) {
      assert p[i] in p && p[j] in p;
    }
  }

  lemma PromotedTwice(db: Db, p: seq<UserId>, q: seq<UserId>, at: int)
    requires Greedy(db.rows, p) && Greedy(Promoted(db, p, at).rows, q)
    ensures Greedy(db.rows, p + q)
    ensures Promoted(Promoted(db, p, at), q, at) == Promoted(db, p + q, at)
  {
    PromotedUsers(db, p, at);
    var mid, pool := Promoted(db, p, at), Users(db.rows, Waiting);
    GreedyTransfer(db.rows, mid.rows, pool - Elements(p), q);
    GreedyConcat(db.rows, pool, p, q);
    PromotedConcat(db, p, q, at);
  }

  lemma PromotedConcat(db: Db, p: seq<UserId>, q: seq<UserId>, at: int)
    ensures Promoted(Promoted(db, p, at), q, at) == Promoted(db, p + q, at)
  {
    assert forall u :: u in p + q <==> u in p || u in q;
    assert Promoted(Promoted(db, p, at), q, at).rows == Promoted(db, p + q, at).rows;
    assert Promoted(Promoted(db, p, at), q, at).log == Promoted(db, p + q, at).log;
  }

  lemma ServeIsPromoted(db: Db, u: UserId, at: int)
    requires u in Users(db.rows, Waiting)
    ensures Lands(db, ServeWrite(db, u, at))
    ensures Apply(db, ServeWrite(db, u, at)) == Promoted(db, [u], at)
  {
    assert Apply(db, ServeWrite(db, u, at)).rows == Promoted(db, [u], at).rows;
    assert Apply(db, ServeWrite(db, u, at)).log == Promoted(db, [u], at).log;
  }

  lemma GreedyExtends(db: Db, p: seq<UserId>, at: int, u: UserId)
    requires Greedy(db.rows, p) && Best(Promoted(db, p, at).rows, u)
    ensures Greedy(db.rows, p + [u])
    ensures Apply(Promoted(db, p, at), ServeWrite(Promoted(db, p, at), u, at)) == Promoted(db, p + [u], at)
  {
    var mid := Promoted(db, p, at);
    assert Greedy(mid.rows, [u]) by { assert Elements([u]) == {u}; }
    PromotedTwice(db, p, [u], at);
    ServeIsPromoted(mid, u, at);
  }

  /** Part of a run: the best so far have been served, within the slots. */
  ghost predicate Underway(db: Db, p: seq<UserId>, at: int, mid: Db) {
    && Greedy(db.rows, p)
    && mid == Promoted(db, p, at)
    && (p != [] ==> OpenSlots(mid) >= 0)
  }

  lemma NothingServedYet(db: Db, at: int)
    ensures Underway(db, [], at, db)
  {
    assert Elements([]) == {};
    assert Promoted(db, [], at) == db;
  }

  lemma NextTurn(db: Db, p: seq<UserId>, at: int, mid: Db, u: UserId)
    requires Underway(db, p, at, mid) && OpenSlots(mid) > 0 && Best(mid.rows, u)
    ensures Lands(mid, ServeWrite(mid, u, at))
    ensures Underway(db, p + [u], at, Apply(mid, ServeWrite(mid, u, at)))
    ensures |Users(Apply(mid, ServeWrite(mid, u, at)).rows, Waiting)| < |Users(mid.rows, Waiting)|
  {
    GreedyExtends(db, p, at, u);
    PromotedUsers(db, p, at);
    PromotedUsers(db, p + [u], at);
  }

  lemma LastTurn(db: Db, p: seq<UserId>, at: int, mid: Db)
    requires Underway(db, p, at, mid)
    requires OpenSlots(mid) <= 0 || Users(mid.rows, Waiting) == {}
    ensures IsPromotion(db, p, at, mid)
  {
    PromotedUsers(db, p, at);
  }

  // ----- the run is "sort, then take" ---------------------------------------

  /** Every greedy choice is the beginning of the full listing, and every beginning is greedy. */
  lemma GreedyIsListingPrefix(rows: map<UserId, Row>, p: seq<UserId>)
    ensures Greedy(rows, p) <==> exists order :: Listing(rows, order) && p <= order
  {
    if Greedy(rows, p) {
      var rest := SortPool(rows, Users(rows, Waiting) - Elements(p));
      GreedyConcat(rows, Users(rows, Waiting), p, rest);
      assert Listing(rows, p + rest) && p <= p + rest;
    }
    if order :| Listing(rows, order) && p <= order {
      forall u | u in p ensures u in Elements(order) {
        assert u in order;
      }
      forall u, v | u in p && v in Users(rows, Waiting) && v !in p ensures !Before(rows[v], rows[u]) {
        var i :| 0 <= i < |p| && p[i] == u;
        assert v in Elements(order);
        var j :| 0 <= j < |order| && order[j] == v;
        assert order[i] == u;
      }
    }
  }

  lemma {:induction false} SortPool(rows: map<UserId, Row>, pool: set<UserId>) returns (order: seq<UserId>)
    requires pool <= rows.Keys
    ensures GreedyFrom(rows, pool, order) && Elements(order) == pool
    decreases |pool|
  {
    if pool == {} {
      order := [];
    } else {
      var u := LeastOf(rows, pool);
      var rest := SortPool(rows, pool - {u});
      assert Elements([u]) == {u};
      GreedyConcat(rows, pool, [u], rest);
      order := [u] + rest;
    }
  }

  /** A run serves exactly the first Quota users of the sorted listing, in that order. */
  lemma PromotionIsSortThenTake(db: Db, p: seq<UserId>, at: int, db': Db)
    ensures IsPromotion(db, p, at, db')
       <==> && db' == Promoted(db, p, at)
            && exists order :: Listing(db.rows, order) && Quota(db) <= |order| && p == order[..Quota(db)]
  {
    GreedyIsListingPrefix(db.rows, p);
    if IsPromotion(db, p, at, db') {
      var order :| Listing(db.rows, order) && p <= order;
      assert p == order[..Quota(db)];
    }
    if order :| Listing(db.rows, order) && Quota(db) <= |order| && p == order[..Quota(db)] {
      assert p <= order;
    }
  }

  ghost predicate DistinctKeys(rows: map<UserId, Row>) {
    forall u, v :: u in Users(rows, Waiting) && v in Users(rows, Waiting) && u != v ==>
      Before(rows[u], rows[v]) || Before(rows[v], rows[u])
  }

  /** With no two equal keys there is one listing, so a run has one possible outcome. */
  lemma {:induction false} PromotionUnique(rows: map<UserId, Row>, p: seq<UserId>, q: seq<UserId>)
    requires DistinctKeys(rows) && Greedy(rows, p) && Greedy(rows, q) && |p| == |q|
    ensures p == q
  {
    if p != [] {
      var k := |p| - 1;
      GreedyFront(rows, p);
      GreedyFront(rows, q);
      PromotionUnique(rows, p[..k], q[..k]);
      assert p == p[..k] + [p[k]] && q == q[..k] + [q[k]];
      assert p[k] in p && q[k] in q;
      assert p[k] in Elements(p) && q[k] in Elements(q);
    }
  }

  lemma GreedyFront(rows: map<UserId, Row>, p: seq<UserId>)
    requires p != [] && Greedy(rows, p)
    ensures Greedy(rows, p[..|p| - 1])
  {
    var front, last := p[..|p| - 1], p[|p| - 1];
    assert p == front + [last];
    assert Elements(p) == Elements(front) + {last};
    forall u, v | u in front && v in Users(rows, Waiting) && v !in front
      ensures !Before(rows[v], rows[u])
    {
      assert u in p;
      if v == last {
        var i :| 0 <= i < |front| && front[i] == u;
        assert p[i] == u;
      }
    }
  }

  // ----- coalesced and repeated triggers ------------------------------------

  /** A promotion run right after a promotion run does nothing. */
  lemma PromotionIdempotent(db: Db, p: seq<UserId>, at: int, db': Db, q: seq<UserId>, at': int, db'': Db)
    requires IsPromotion(db, p, at, db') && IsPromotion(db', q, at', db'')
    ensures q == [] && db'' == db'
  {
    PromotedUsers(db, p, at);
  }

  /** Promoting, then promoting again with at least as many slots, is one promotion with
      the larger number: the same users in the same order and the same tables. */
  lemma PromotionComposes(db: Db, p: seq<UserId>, at: int, mid: Db, slots: int, q: seq<UserId>, db': Db)
    requires IsPromotion(db, p, at, mid)
    requires slots >= db.serviceSlots
    requires IsPromotion(mid.(serviceSlots := slots), q, at, db')
    ensures IsPromotion(db.(serviceSlots := slots), p + q, at, db')
  {
    PromotedUsers(db, p, at);
    PromotedTwice(db.(serviceSlots := slots), p, q, at);
  }
}
