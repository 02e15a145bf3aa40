/** The high-score list that gameOver maintains: one entry per finished run,
    highest score first, never more than ten entries. */
module ScoreHistory {

  /** One finished run: the floored score and the local time string it ended at. */
  datatype Entry = Entry(score: int, date: string)

  /** At most this many entries are kept. */
  const CAPACITY: nat := 10

  predicate SortedDesc(s: seq<Entry>) {
    forall i, j :: 0 <= i < j < |s| ==> s[i].score >= s[j].score
  }

  /** What every list written by gameOver satisfies. */
  predicate HistoryOk(s: seq<Entry>) {
    SortedDesc(s) && |s| <= CAPACITY
  }

  /** The length of the leading run of entries scoring at least v. */
  function FirstBelow(s: seq<Entry>, v: int): (k: nat)
    ensures k <= |s|
    ensures forall i :: 0 <= i < k ==> s[i].score >= v
    ensures k < |s| ==> s[k].score < v
  {
    if s == [] || s[0].score < v then 0 else 1 + FirstBelow(s[1..], v)
  }

  /** Puts e after every leading entry that scores at least as much as e. */
  function Insert(s: seq<Entry>, e: Entry): (r: seq<Entry>)
    ensures |r| == |s| + 1
    ensures multiset(r) == multiset(s) + multiset{e}
    ensures SortedDesc(s) ==> SortedDesc(r)
  {
    var k := FirstBelow(s, e.score);
    assert s == s[..k] + s[k..];
    InsertKeepsOrder(s, e, k);
    s[..k] + [e] + s[k..]
  }

  lemma InsertKeepsOrder(s: seq<Entry>, e: Entry, k: nat)
    requires k == FirstBelow(s, e.score)
    ensures SortedDesc(s) ==> SortedDesc(s[..k] + [e] + s[k..])
  {
    if SortedDesc(s) {
      var r := s[..k] + [e] + s[k..];
      assert forall m :: 0 <= m < k ==> r[m] == s[m];
      assert r[k] == e;
      assert forall m :: k < m < |r| ==> r[m] == s[m - 1];
      forall i, j | 0 <= i < j < |r|
        ensures r[i].score >= r[j].score
      {
        if i == k && k < j {
          assert s[k].score < e.score && s[j - 1].score <= s[k].score;
        }
      }
    }
  }

  /** The effect of `sort((a, b) => b.score - a.score)`: JavaScript's sort is stable,
      so this is insertion sort that puts each later entry after the earlier ones it ties with. */
  function SortByScore(s: seq<Entry>): (r: seq<Entry>)
    ensures SortedDesc(r)
    ensures multiset(r) == multiset(s)
    ensures |r| == |s|
  {
    if s == [] then []
    else
      assert s == s[..|s| - 1] + [s[|s| - 1]];
      Insert(SortByScore(s[..|s| - 1]), s[|s| - 1])
  }

  /** The effect of `slice(0, 10)` when the list is longer than ten. */
  function TopScores(s: seq<Entry>): seq<Entry> {
    if |s| > CAPACITY then s[..CAPACITY] else s
  }

  /** The history update of gameOver: push the new entry, sort, keep the ten best. */
  function Record(h: seq<Entry>, e: Entry): (r: seq<Entry>)
    ensures HistoryOk(r)
    ensures |r| == if |h| + 1 < CAPACITY then |h| + 1 else CAPACITY
  {
    var t := SortByScore(h + [e]);
    TopScoresShape(t);
    TopScores(t)
  }

  /** The entries kept are taken from the old list plus the new entry, and every entry
      left out scores no more than any entry kept. */
  lemma RecordKeepsBest(h: seq<Entry>, e: Entry)
    ensures multiset(Record(h, e)) <= multiset(h + [e])
    ensures forall x, y :: x in multiset(h + [e]) - multiset(Record(h, e)) && y in Record(h, e) ==>
              x.score <= y.score
  {
    TopScoresKeepsBest(SortByScore(h + [e]));
  }

  /** Truncating a sorted list keeps it sorted and at most ten long. */
  lemma TopScoresShape(t: seq<Entry>)
    requires SortedDesc(t)
    ensures HistoryOk(TopScores(t))
    ensures |TopScores(t)| == if |t| < CAPACITY then |t| else CAPACITY
  {
  }

  /** Truncating a sorted list drops only entries that score no more than any kept one. */
  lemma TopScoresKeepsBest(t: seq<Entry>)
    requires SortedDesc(t)
    ensures multiset(TopScores(t)) <= multiset(t)
    ensures forall x, y :: x in multiset(t) - multiset(TopScores(t)) && y in TopScores(t) ==>
              x.score <= y.score
  {
    if |t| > CAPACITY {
      var kept: seq<Entry>, dropped: seq<Entry> := t[..CAPACITY], t[CAPACITY..];
      assert t == kept + dropped;
      assert multiset(t) - multiset(kept) == multiset(dropped);
      forall x: Entry, y: Entry | x in multiset(dropped) && y in kept
        ensures x.score <= y.score
      {
        var j :| 0 <= j < |dropped| && dropped[j] == x;
        var i :| 0 <= i < CAPACITY && kept[i] == y;
        assert t[i] == y && t[CAPACITY + j] == x;
      }
    }
  }

  /** The sort leaves an already sorted list as it is: entries with equal scores keep their order. */
  lemma {:induction false} SortByScoreKeepsSorted(s: seq<Entry>)
    requires SortedDesc(s)
    ensures SortByScore(s) == s
  {
    if s != [] {
      var init, last := s[..|s| - 1], s[|s| - 1];
      SortByScoreKeepsSorted(init);
      InsertLowest(init, last);
      assert init + [last] == s;
    }
  }

  /** An entry that beats none of the list goes to its end. */
  lemma InsertLowest(s: seq<Entry>, e: Entry)
    requires forall i :: 0 <= i < |s| ==> s[i].score >= e.score
    ensures Insert(s, e) == s + [e]
  {
    var k := FirstBelow(s, e.score);
    assert k == |s|;
    assert s[..k] == s && s[k..] == [];
  }

  /** On a sorted history the new entry goes right after every entry it does not beat. */
  lemma RecordIntoSorted(h: seq<Entry>, e: Entry)
    requires SortedDesc(h)
    ensures Record(h, e) == TopScores(Insert(h, e))
  {
    assert (h + [e])[..|h|] == h;
    SortByScoreKeepsSorted(h);
  }

  /** While the list has room, the new entry is always kept. */
  lemma RecordKeepsNewEntryWhenRoom(h: seq<Entry>, e: Entry)
    requires |h| < CAPACITY
    ensures e in Record(h, e)
  {
    var t := SortByScore(h + [e]);
    assert e in multiset(t);
  }
}
