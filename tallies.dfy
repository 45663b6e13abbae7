/** Counting occurrences into a dictionary, the shape shared by the
    sources-usage and daily-count aggregations:
    `counts[key] = counts.get(key, 0) + 1` for every key in turn. */
module Tallies {

  /** `counts.get(key, 0)`. */
  function Get(counts: map<string, nat>, key: string): nat {
    if key in counts then counts[key] else 0
  }

  /** The dictionary left by counting every key of `keys`, in order, starting
      from an empty one: its keys are exactly the keys seen, and each maps to
      the number of times it occurs. */
  function Tally(keys: seq<string>): map<string, nat> {
    if keys == [] then map[]
    else
      var before := Tally(keys[..|keys| - 1]);
      var last := keys[|keys| - 1];
      before[last := Get(before, last) + 1]
  }

  /** What the counting leaves: the keys seen, each with its number of
      occurrences. */
  lemma {:induction false} TallyCounts(keys: seq<string>)
    ensures forall k :: k in Tally(keys) <==> k in keys
    ensures forall k :: k in Tally(keys) ==> Tally(keys)[k] == multiset(keys)[k]
  {
    if keys != [] {
      var init := keys[..|keys| - 1];
      var last := keys[|keys| - 1];
      assert keys == init + [last];
      TallyCounts(init);
    }
  }

  /** Counting one more key. */
  lemma TallySnoc(keys: seq<string>, key: string)
    ensures Tally(keys + [key]) == Tally(keys)[key := Get(Tally(keys), key) + 1]
  {
    assert (keys + [key])[..|keys|] == keys;
  }

  /** Every counted key was seen at least once. */
  lemma TallyPositive(keys: seq<string>, k: string)
    requires k in Tally(keys)
    ensures Tally(keys)[k] >= 1
  {
    TallyCounts(keys);
  }

  /** The sum of the values of a dictionary. */
  ghost function Total(counts: map<string, nat>): nat
    decreases |counts|
  {
    if counts == map[] then 0
    else
      var k :| k in counts;
      assert |counts - {k}| < |counts| by {
        assert (counts - {k}).Keys == counts.Keys - {k};
      }
      counts[k] + Total(counts - {k})
  }

  /** The sum does not depend on which key is taken out first. */
  lemma {:induction false} TotalRemove(counts: map<string, nat>, k: string)
    requires k in counts
    ensures Total(counts) == counts[k] + Total(counts - {k})
    decreases |counts|
  {
    var j :| j in counts && Total(counts) == counts[j] + Total(counts - {j});
    if j != k {
      var both := counts - {j} - {k};
      assert (counts - {j}).Keys == counts.Keys - {j};
      assert (counts - {k}).Keys == counts.Keys - {k};
      TotalRemove(counts - {j}, k);
      assert (counts - {j}) - {k} == both;
      TotalRemove(counts - {k}, j);
      assert (counts - {k}) - {j} == both;
    }
  }

  /** Counting conserves the number of keys: the counts add up to |keys|. */
  lemma {:induction false} TallyTotal(keys: seq<string>)
    ensures Total(Tally(keys)) == |keys|
  {
    if keys != [] {
      var init := keys[..|keys| - 1];
      var last := keys[|keys| - 1];
      var before := Tally(init);
      var after := Tally(keys);
      TallyTotal(init);
      assert after == before[last := Get(before, last) + 1];
      TotalRemove(after, last);
      assert after - {last} == before - {last};
      if last in before {
        TotalRemove(before, last);
      } else {
        assert before - {last} == before;
      }
    }
  }
}
