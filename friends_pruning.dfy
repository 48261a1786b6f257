/** The selection part of `checkFriendsCount` in src/classes/MyHandler.ts:
    when the friend list is within 20 of its limit, pick the friends with
    the fewest trades for removal, never touching the keep-list. */
module FriendsPruning {
  import opened Wrappers

  type SteamId = string

  /** `friendslistBuffer`: how many slots are kept free. */
  const FriendsListBuffer := 20

  /** `{ steamID, trades }`, one row of `tradesWithPeople`. */
  datatype Candidate = Candidate(steamID: SteamId, trades: int)

  predicate Excluded(id: SteamId, keep: seq<SteamId>, ignore: Option<SteamId>)
  {
    id in keep || ignore == Some(id)
  }

  /** The friends left once the keep-list and the ignored id are deleted,
      each with its trade count, in friend-list order. */
  function Candidates(friends: seq<SteamId>, trades: SteamId -> int, keep: seq<SteamId>,
                      ignore: Option<SteamId>): (c: seq<Candidate>)
    ensures |c| <= |friends|
    ensures forall x :: x in c ==> x.steamID in friends && !Excluded(x.steamID, keep, ignore)
                                   && x.trades == trades(x.steamID)
    ensures forall f :: f in friends && !Excluded(f, keep, ignore) ==> Candidate(f, trades(f)) in c
  {
    if friends == [] then []
    else
      var rest := Candidates(friends[..|friends| - 1], trades, keep, ignore);
      var f := friends[|friends| - 1];
      if Excluded(f, keep, ignore) then rest else rest + [Candidate(f, trades(f))]
  }

  predicate SortedByTrades(s: seq<Candidate>)
  {
    forall i, j :: 0 <= i < j < |s| ==> s[i].trades <= s[j].trades
  }

  /** Inserts `c` after every element with at most its trade count, so that
      equal counts keep their order. */
  function Insert(s: seq<Candidate>, c: Candidate): (r: seq<Candidate>)
    ensures multiset(r) == multiset(s) + multiset{c}
    ensures |r| == |s| + 1
    decreases |s|
  {
    if s == [] || s[|s| - 1].trades <= c.trades then s + [c]
    else
      assert s == s[..|s| - 1] + [s[|s| - 1]];
      Insert(s[..|s| - 1], c) + [s[|s| - 1]]
  }

  /** `sort((a, b) => a.trades - b.trades)`, which is stable: insertion sort
      in input order. */
  function SortByTrades(s: seq<Candidate>): (r: seq<Candidate>)
    ensures multiset(r) == multiset(s)
    ensures |r| == |s|
  {
    if s == [] then []
    else
      assert s == s[..|s| - 1] + [s[|s| - 1]];
      Insert(SortByTrades(s[..|s| - 1]), s[|s| - 1])
  }

  lemma {:induction false} InsertSorted(s: seq<Candidate>, c: Candidate)
    requires SortedByTrades(s)
    ensures SortedByTrades(Insert(s, c))
    ensures forall x :: x in Insert(s, c) ==> x in s || x == c
    decreases |s|
  {
    if s == [] || s[|s| - 1].trades <= c.trades {
    } else {
      var init, last := s[..|s| - 1], s[|s| - 1];
      InsertSorted(init, c);
      var r := Insert(init, c);
      assert multiset(r) == multiset(init) + multiset{c};
      forall x | x in r ensures x.trades <= last.trades {
        assert x in multiset(r);
        if x == c {
        } else {
          assert x in multiset(init);
          var k :| 0 <= k < |init| && init[k] == x;
          assert s[k] == x;
        }
      }
    }
  }

  lemma {:induction false} SortByTradesSorted(s: seq<Candidate>)
    ensures SortedByTrades(SortByTrades(s))
  {
    if s != [] {
      SortByTradesSorted(s[..|s| - 1]);
      InsertSorted(SortByTrades(s[..|s| - 1]), s[|s| - 1]);
    }
  }

  function Ids(s: seq<Candidate>): (r: seq<SteamId>)
    ensures |r| == |s| && forall i :: 0 <= i < |s| ==> r[i] == s[i].steamID
  {
    seq(|s|, i requires 0 <= i < |s| => s[i].steamID)
  }

  /** Taking a prefix of the sorted candidates takes the smallest trade
      counts: every taken candidate has at most the trade count of every
      input candidate whose id was not taken. */
  lemma PrefixTakesFewest(cands: seq<Candidate>, k: nat)
    requires k <= |cands|
    ensures forall i, c :: 0 <= i < k && c in cands && c.steamID !in Ids(SortByTrades(cands)[..k])
              ==> SortByTrades(cands)[i].trades <= c.trades
  {
    var sorted := SortByTrades(cands);
    SortByTradesSorted(cands);
    var removed := Ids(sorted[..k]);
    forall i, c | 0 <= i < k && c in cands && c.steamID !in removed
      ensures sorted[i].trades <= c.trades
    {
      assert c in multiset(sorted);
      var j :| 0 <= j < |sorted| && sorted[j] == c;
      assert forall t :: 0 <= t < k ==> sorted[t].steamID == removed[t] != c.steamID;
    }
  }

  /** Only candidates are removed: never a kept or ignored friend. */
  lemma RemovedAreCandidates(friends: seq<SteamId>, trades: SteamId -> int, keep: seq<SteamId>,
                             ignore: Option<SteamId>, k: nat)
    requires k <= |Candidates(friends, trades, keep, ignore)|
    ensures forall id :: id in Ids(SortByTrades(Candidates(friends, trades, keep, ignore))[..k])
              ==> id in friends && !Excluded(id, keep, ignore)
  {
    var cands := Candidates(friends, trades, keep, ignore);
    var sorted := SortByTrades(cands);
    var removed := Ids(sorted[..k]);
    forall id | id in removed ensures id in friends && !Excluded(id, keep, ignore) {
      var i :| 0 <= i < k && removed[i] == id;
      assert sorted[i] in multiset(cands);
      assert sorted[i] in cands;
    }
  }

  /** The removed friends have the fewest trades among the candidates. */
  lemma RemovedHaveFewestTrades(friends: seq<SteamId>, trades: SteamId -> int, keep: seq<SteamId>,
                                ignore: Option<SteamId>, k: nat)
    requires k <= |Candidates(friends, trades, keep, ignore)|
    ensures var removed := Ids(SortByTrades(Candidates(friends, trades, keep, ignore))[..k]);
            forall r, f :: r in removed && f in friends && !Excluded(f, keep, ignore) && f !in removed
              ==> trades(r) <= trades(f)
  {
    var cands := Candidates(friends, trades, keep, ignore);
    var sorted := SortByTrades(cands);
    var removed := Ids(sorted[..k]);
    PrefixTakesFewest(cands, k);
    forall r, f | r in removed && f in friends && !Excluded(f, keep, ignore) && f !in removed
      ensures trades(r) <= trades(f)
    {
      var i :| 0 <= i < k && removed[i] == r;
      assert sorted[i] in multiset(cands);
      assert sorted[i] in cands;
      var c := Candidate(f, trades(f));
      assert c in cands && c.steamID !in removed;
      assert sorted[i].trades <= c.trades;
    }
  }

  /** `checkFriendsCount`'s choice of friends to remove. */
  method SelectFriendsToRemove(friends: seq<SteamId>, maxFriends: int, trades: SteamId -> int,
                               keep: seq<SteamId>, ignore: Option<SteamId>)
    returns (removed: seq<SteamId>)
    ensures var count := |friends| + FriendsListBuffer - maxFriends;
            var n := |Candidates(friends, trades, keep, ignore)|;
            |removed| == (if count <= 0 then 0 else if count < n then count else n)
    ensures forall id :: id in removed ==> id in friends && !Excluded(id, keep, ignore)
    ensures forall r, f :: r in removed && f in friends && !Excluded(f, keep, ignore) && f !in removed
              ==> trades(r) <= trades(f)
  {
    removed := [];
    var friendsToRemoveCount := |friends| + FriendsListBuffer - maxFriends;
    if friendsToRemoveCount > 0 {
      var tradesWithPeople: seq<Candidate> := [];
      for i := 0 to |friends|
        invariant tradesWithPeople == Candidates(friends[..i], trades, keep, ignore)
      {
        assert friends[..i + 1][..i] == friends[..i];
        if !Excluded(friends[i], keep, ignore) {
          tradesWithPeople := tradesWithPeople + [Candidate(friends[i], trades(friends[i]))];
        }
      }
      assert friends[..|friends|] == friends;
      var sorted := SortByTrades(tradesWithPeople);
      var k := if friendsToRemoveCount < |sorted| then friendsToRemoveCount else |sorted|;
      removed := Ids(sorted[..k]);
      RemovedAreCandidates(friends, trades, keep, ignore, k);
      RemovedHaveFewestTrades(friends, trades, keep, ignore, k);
    }
  }
}
