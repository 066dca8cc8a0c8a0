/**
 * The bounded conversation history `LRUCache`: a queue of turns in insertion order plus a
 * map from each turn to itself. When the history is full the oldest turn is evicted before
 * the new one is appended. Retrieval ranks turns by a similarity score that is, for now,
 * the constant 0, so the stable sort returns the history in insertion order.
 */
module Lru {
  import opened Wrappers

  /** The capacity used when `new` is given none. */
  const DefaultCapacity: nat := 12

  datatype ConversationHistoryError = InternalError(message: string)

  function Max(a: int, b: int): int {
    if a >= b then a else b
  }

  // ---------------------------------------------------------------------------------------
  // The state change of one call, on values
  // ---------------------------------------------------------------------------------------

  /** `pop_front`: the history without its oldest turn (unchanged when empty). */
  function PopFront(history: seq<string>): seq<string> {
    if history == [] then [] else history[1..]
  }

  /** The cache after `remove_oldest_entry`: the popped turn's key is removed. */
  function ForgetOldest(cache: map<string, string>, history: seq<string>): map<string, string> {
    if history == [] then cache else cache - {history[0]}
  }

  /** The history after `add_turn`. */
  function HistoryAfterAdd(history: seq<string>, capacity: nat, turn: string): seq<string> {
    (if |history| >= capacity then PopFront(history) else history) + [turn]
  }

  /** The cache after `add_turn`. */
  function CacheAfterAdd(cache: map<string, string>, history: seq<string>, capacity: nat, turn: string)
    : map<string, string>
  {
    (if |history| >= capacity then ForgetOldest(cache, history) else cache)[turn := turn]
  }

  /** Every cached key maps to itself and is a turn of the history. */
  predicate CacheMirrorsHistory(cache: map<string, string>, history: seq<string>) {
    forall k :: k in cache ==> cache[k] == k && k in history
  }

  /** The new turn is always the most recent one. */
  lemma AddTurnAppends(history: seq<string>, capacity: nat, turn: string)
    ensures var h := HistoryAfterAdd(history, capacity, turn);
            |h| > 0 && h[|h| - 1] == turn
  {
  }

  /** Below capacity every earlier turn stays in place and in order, and the size grows by one. */
  lemma AddTurnBelowCapacity(history: seq<string>, capacity: nat, turn: string)
    requires |history| < capacity
    ensures HistoryAfterAdd(history, capacity, turn) == history + [turn]
    ensures |HistoryAfterAdd(history, capacity, turn)| == |history| + 1
  {
  }

  /** At or above capacity exactly the oldest turn is dropped, so the size does not change. */
  lemma AddTurnAtCapacity(history: seq<string>, capacity: nat, turn: string)
    requires |history| >= capacity && history != []
    ensures HistoryAfterAdd(history, capacity, turn) == history[1..] + [turn]
    ensures |HistoryAfterAdd(history, capacity, turn)| == |history|
  {
  }

  /** The size never exceeds the capacity (one, for a capacity of zero). */
  lemma AddTurnKeepsBound(history: seq<string>, capacity: nat, turn: string)
    requires |history| <= Max(capacity, 1)
    ensures |HistoryAfterAdd(history, capacity, turn)| <= Max(capacity, 1)
  {
  }

  /** Evicting the oldest turn keeps every remaining key backed by a remaining turn. */
  lemma ForgetOldestKeepsMirror(cache: map<string, string>, history: seq<string>)
    requires CacheMirrorsHistory(cache, history)
    ensures CacheMirrorsHistory(ForgetOldest(cache, history), PopFront(history))
  {
    if history != [] {
      forall k | k in ForgetOldest(cache, history)
        ensures k in PopFront(history)
      {
        assert k != history[0];
        var i :| 0 <= i < |history| && history[i] == k;
        assert PopFront(history)[i - 1] == k;
      }
    }
  }

  /** `add_turn` keeps the cache a mirror of (part of) the history. */
  lemma AddTurnKeepsMirror(cache: map<string, string>, history: seq<string>, capacity: nat, turn: string)
    requires CacheMirrorsHistory(cache, history)
    ensures CacheMirrorsHistory(CacheAfterAdd(cache, history, capacity, turn),
                                HistoryAfterAdd(history, capacity, turn))
  {
    ForgetOldestKeepsMirror(cache, history);
  }

  /**
   * The cache can hold fewer keys than the history has turns: evicting the older of two
   * equal turns removes the key the newer one still needs.
   */
  lemma EvictingDuplicateForgetsKey()
    ensures HistoryAfterAdd(["a", "a"], 2, "b") == ["a", "b"]
    ensures "a" !in CacheAfterAdd(map["a" := "a"], ["a", "a"], 2, "b")
  {
  }

  /** Two turns added to an empty history of capacity 2 are both kept, oldest first. */
  lemma TwoTurnsWithCapacityTwo()
    ensures HistoryAfterAdd(HistoryAfterAdd([], 2, "Value 1"), 2, "Value 2") == ["Value 1", "Value 2"]
  {
  }

  // ---------------------------------------------------------------------------------------
  // Retrieval
  // ---------------------------------------------------------------------------------------

  /** `calculate_similarity` is not implemented yet: every turn scores 0. */
  function Similarity(query: string, turn: string): (score: int)
    ensures score == 0
  {
    0
  }

  type Scored = (string, int)

  /** Each turn paired with its score, in history order. */
  function ScoreTurns(query: string, history: seq<string>): seq<Scored> {
    seq(|history|, i requires 0 <= i < |history| => (history[i], Similarity(query, history[i])))
  }

  /** Inserts `x` into a list sorted by decreasing score, after every element scoring at least as much. */
  function Insert(sorted: seq<Scored>, x: Scored): seq<Scored> {
    if sorted == [] then [x]
    else if sorted[|sorted| - 1].1 >= x.1 then sorted + [x]
    else Insert(sorted[..|sorted| - 1], x) + [sorted[|sorted| - 1]]
  }

  /** `sort_by` on decreasing score: a stable sort. */
  function SortByScore(s: seq<Scored>): seq<Scored> {
    if s == [] then [] else Insert(SortByScore(s[..|s| - 1]), s[|s| - 1])
  }

  predicate SortedByScore(s: seq<Scored>) {
    forall i, j :: 0 <= i < j < |s| ==> s[i].1 >= s[j].1
  }

  lemma {:induction false} InsertPermutes(sorted: seq<Scored>, x: Scored)
    ensures multiset(Insert(sorted, x)) == multiset(sorted) + multiset{x}
  {
    if sorted != [] && sorted[|sorted| - 1].1 < x.1 {
      var init := sorted[..|sorted| - 1];
      InsertPermutes(init, x);
      assert sorted == init + [sorted[|sorted| - 1]];
    }
  }

  lemma {:induction false} InsertKeepsSorted(sorted: seq<Scored>, x: Scored)
    requires SortedByScore(sorted)
    ensures SortedByScore(Insert(sorted, x))
  {
    if sorted != [] && sorted[|sorted| - 1].1 < x.1 {
      var init := sorted[..|sorted| - 1];
      var last := sorted[|sorted| - 1];
      InsertKeepsSorted(init, x);
      InsertPermutes(init, x);
      var r := Insert(init, x);
      forall i | 0 <= i < |r| ensures r[i].1 >= last.1 {
        assert r[i] in multiset(r);
        assert r[i] in multiset(init) || r[i] == x;
        if r[i] != x {
          assert r[i] in init;
        }
      }
    }
  }

  /** The sort orders by decreasing score. */
  lemma {:induction false} SortByScoreSorts(s: seq<Scored>)
    ensures SortedByScore(SortByScore(s))
  {
    if s != [] {
      SortByScoreSorts(s[..|s| - 1]);
      InsertKeepsSorted(SortByScore(s[..|s| - 1]), s[|s| - 1]);
    }
  }

  /** The sort keeps every scored turn, as often as it occurs. */
  lemma {:induction false} SortByScorePermutes(s: seq<Scored>)
    ensures multiset(SortByScore(s)) == multiset(s)
  {
    if s != [] {
      var init := s[..|s| - 1];
      SortByScorePermutes(init);
      InsertPermutes(SortByScore(init), s[|s| - 1]);
      assert s == init + [s[|s| - 1]];
    }
  }

  /** With all scores equal the stable sort changes nothing. */
  lemma {:induction false} SortByScoreKeepsTies(s: seq<Scored>, score: int)
    requires forall i :: 0 <= i < |s| ==> s[i].1 == score
    ensures SortByScore(s) == s
  {
    if s != [] {
      var init := s[..|s| - 1];
      SortByScoreKeepsTies(init, score);
      assert s == init + [s[|s| - 1]];
    }
  }

  function Turns(scored: seq<Scored>): seq<string> {
    seq(|scored|, i requires 0 <= i < |scored| => scored[i].0)
  }

  // ---------------------------------------------------------------------------------------
  // The cache object
  // ---------------------------------------------------------------------------------------

  class LruCache {
    var capacity: nat
    var cache: map<string, string>
    var history: seq<string>

    ghost predicate Valid()
      reads this
    {
      |history| <= Max(capacity, 1) && CacheMirrorsHistory(cache, history)
    }

    /** `new`: an empty history of the given capacity, 12 when none is given. */
    constructor (capacity: Option<nat>)
      ensures Valid()
      ensures this.capacity == (if capacity.Some? then capacity.value else DefaultCapacity)
      ensures history == [] && cache == map[]
    {
      this.capacity := if capacity.Some? then capacity.value else DefaultCapacity;
      cache := map[];
      history := [];
    }

    /** `remove_oldest_entry`: pops the oldest turn, if any, and removes its key. */
    method RemoveOldestEntry()
      requires Valid()
      modifies this
      ensures Valid()
      ensures history == PopFront(old(history))
      ensures cache == ForgetOldest(old(cache), old(history))
      ensures capacity == old(capacity)
    {
      ForgetOldestKeepsMirror(cache, history);
      if history != [] {
        var key := history[0];
        history := history[1..];
        cache := cache - {key};
      }
    }

    /** `get_size`: the number of turns held, never above the capacity (one, for capacity zero). */
    function GetSize(): (n: nat)
      reads this
      requires Valid()
      ensures n <= Max(capacity, 1)
    {
      |history|
    }

    /** `add_turn`: evicts the oldest turn when full, then appends `turn`; it never fails. */
    method AddTurn(memoryPolicy: string, turn: string) returns (r: Result<(), ConversationHistoryError>)
      requires Valid()
      modifies this
      ensures Valid()
      ensures r == Ok(())
      ensures history == HistoryAfterAdd(old(history), old(capacity), turn)
      ensures cache == CacheAfterAdd(old(cache), old(history), old(capacity), turn)
      ensures capacity == old(capacity)
    {
      AddTurnKeepsBound(history, capacity, turn);
      AddTurnKeepsMirror(cache, history, capacity, turn);
      if GetSize() >= capacity {
        RemoveOldestEntry();
      }
      history := history + [turn];
      cache := cache[turn := turn];
      return Ok(());
    }

    /** `retrieve_history`: the turns ranked by similarity, which is the history in insertion order. */
    method RetrieveHistory(memoryPolicy: string, query: string) returns (r: Result<seq<string>, ConversationHistoryError>)
      ensures r == Ok(history)
    {
      var historyScores := ScoreTurns(query, history);
      var sorted := SortByScore(historyScores);
      SortByScoreKeepsTies(historyScores, 0);
      var relevantHistory := Turns(sorted);
      assert relevantHistory == history;
      return Ok(relevantHistory);
    }
  }

  /** Two turns added to a fresh cache of capacity 2 are both kept, oldest first. */
  method AddTwoTurns() returns (size: nat, turns: seq<string>)
    ensures size == 2
    ensures turns == ["Value 1", "Value 2"]
  {
    var lru := new LruCache(Some(2));
    var _ := lru.AddTurn("lru", "Value 1");
    var _ := lru.AddTurn("lru", "Value 2");
    size := lru.GetSize();
    turns := lru.history;
  }
}
