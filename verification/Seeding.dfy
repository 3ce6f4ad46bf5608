/** Seeding history in batches is one seeding of everything, later batches overriding. */
module Seeding {
  import opened Prelude
  import opened MarketData
  import opened BarBuilding

  // ---------------------------------------------------------------- the newest n keys

  /** t holds the n largest elements of s (all of s when there are fewer). */
  ghost predicate Newest(s: set<int>, n: nat, t: set<int>)
  {
    && t <= s
    && |t| == (if |s| <= n then |s| else n)
    && forall x, y :: x in s && x !in t && y in t ==> x < y
  }

  lemma SubsetOfSameSize(a: set<int>, b: set<int>)
    requires a <= b && |a| == |b|
    ensures a == b
  {
    assert b == a + (b - a);
  }

  lemma SubsetSize(a: set<int>, b: set<int>)
    requires a <= b
    ensures |a| <= |b|
  {
    assert b == a + (b - a);
  }

  lemma NewestUnique(s: set<int>, n: nat, t: set<int>, u: set<int>)
    requires Newest(s, n, t) && Newest(s, n, u)
    ensures t == u
  {
    if forall x :: x in t ==> x in u {
      SubsetOfSameSize(t, u);
    } else if forall y :: y in u ==> y in t {
      SubsetOfSameSize(u, t);
    }
  }

  /** Dropping old keys before a merge never changes which keys are newest after it. */
  lemma NewestOfMerge(a: set<int>, b: set<int>, n: nat, kept: set<int>, t: set<int>)
    requires Newest(a, n, kept) && Newest(a + b, n, t)
    ensures Newest(kept + b, n, t)
  {
    forall k | k in t
      ensures k in kept + b
    {
      if k !in b && k !in kept {
        forall x | x in kept ensures x in t {
          assert k < x;
        }
        SubsetSize(kept + {k}, t);
        if |a| <= n {
          SubsetOfSameSize(kept, a);
        }
        assert false;
      }
    }
    SubsetSize(t, kept + b);
    SubsetSize(kept + b, a + b);
    if |a + b| <= n {
      SubsetOfSameSize(t, a + b);
    }
  }

  // ---------------------------------------------------------------- dictionaries of bars

  ghost predicate Keyed(m: map<int, Bar>) { forall k :: k in m ==> m[k].openTime == k }

  lemma {:induction false} ByOpenTimeIsOverride(m: map<int, Bar>, bars: seq<Bar>)
    ensures ByOpenTime(m, bars) == m + ByOpenTime(map[], bars)
  {
    if bars != [] {
      ByOpenTimeIsOverride(m, bars[..|bars| - 1]);
    }
  }

  lemma {:induction false} ByOpenTimeConcat(m: map<int, Bar>, a: seq<Bar>, b: seq<Bar>)
    ensures ByOpenTime(m, a + b) == ByOpenTime(ByOpenTime(m, a), b)
  {
    if b == [] {
      assert a + b == a;
    } else {
      ByOpenTimeConcat(m, a, b[..|b| - 1]);
      assert (a + b)[..|a + b| - 1] == a + b[..|b| - 1];
    }
  }

  lemma {:induction false} OnlyClosedConcat(a: seq<Bar>, b: seq<Bar>)
    ensures OnlyClosed(a + b) == OnlyClosed(a) + OnlyClosed(b)
  {
    if b == [] {
      assert a + b == a;
    } else {
      OnlyClosedConcat(a, b[..|b| - 1]);
      assert (a + b)[..|a + b| - 1] == a + b[..|b| - 1];
    }
  }

  lemma {:induction false} ByOpenTimeKeyed(m: map<int, Bar>, bars: seq<Bar>)
    requires Keyed(m)
    ensures Keyed(ByOpenTime(m, bars))
  {
    if bars != [] {
      ByOpenTimeKeyed(m, bars[..|bars| - 1]);
    }
  }

  function Restrict(m: map<int, Bar>, keys: seq<int>): map<int, Bar> { map k | k in m && k in keys :: m[k] }

  /** Rebuilding a dictionary from some of its values gives the dictionary on their keys. */
  lemma {:induction false} DictionaryOfValues(m: map<int, Bar>, keys: seq<int>)
    requires Keyed(m) && forall i :: 0 <= i < |keys| ==> keys[i] in m
    ensures ByOpenTime(map[], Values(m, keys)) == Restrict(m, keys)
  {
    if keys != [] {
      var front, last := keys[..|keys| - 1], keys[|keys| - 1];
      DictionaryOfValues(m, front);
      assert Values(m, keys)[..|keys| - 1] == Values(m, front);
      assert keys == front + [last];
    }
  }

  ghost predicate Chronicle(bars: seq<Bar>)
  {
    forall i, j :: 0 <= i < j < |bars| ==> bars[i].openTime < bars[j].openTime
  }

  // ---------------------------------------------------------------- keeping the newest 300

  ghost predicate IsNewestPart(m: map<int, Bar>, n: nat, part: map<int, Bar>)
  {
    Newest(m.Keys, n, part.Keys) && forall k :: k in part ==> part[k] == m[k]
  }

  function LastKeys(keys: seq<int>, n: nat): seq<int> { if |keys| > n then keys[|keys| - n..] else keys }

  lemma TailElements(all: seq<int>, n: nat, x: int)
    requires x in all && x !in LastKeys(all, n)
    ensures exists i :: 0 <= i < |all| - |LastKeys(all, n)| && all[i] == x
  {
    var cut := |all| - |LastKeys(all, n)|;
    assert LastKeys(all, n) == all[cut..];
    NotInTail(all, cut, x);
  }

  lemma NotInTail(all: seq<int>, cut: nat, x: int)
    requires cut <= |all| && x in all && x !in all[cut..]
    ensures exists i :: 0 <= i < cut && all[i] == x
  {
    assert all == all[..cut] + all[cut..];
    var i :| 0 <= i < |all[..cut]| && all[..cut][i] == x;
    assert all[i] == x;
  }

  lemma OlderThanTail(all: seq<int>, n: nat, x: int, y: int)
    requires StrictlyIncreasing(all) && x in all && x !in LastKeys(all, n) && y in LastKeys(all, n)
    ensures x < y
  {
    var t := LastKeys(all, n);
    var cut := |all| - |t|;
    TailElements(all, n, x);
    var i :| 0 <= i < cut && all[i] == x;
    var j :| 0 <= j < |t| && t[j] == y;
    assert t[j] == all[cut + j];
  }

  lemma LastKeysNewest(s: set<int>, all: seq<int>, n: nat)
    requires Lists(all, s)
    ensures StrictlyIncreasing(LastKeys(all, n)) && Newest(s, n, set k | k in LastKeys(all, n))
  {
    var t := LastKeys(all, n);
    var ts := set k | k in t;
    assert forall j :: 0 <= j < |t| ==> t[j] == all[|all| - |t| + j];
    SetOfIncreasing(t);
    forall x, y | x in s && x !in ts && y in ts
      ensures x < y
    {
      OlderThanTail(all, n, x, y);
    }
  }

  lemma {:induction false} SetOfIncreasing(t: seq<int>)
    requires StrictlyIncreasing(t)
    ensures |set k | k in t| == |t|
  {
    if t != [] {
      var front, last := t[..|t| - 1], t[|t| - 1];
      SetOfIncreasing(front);
      assert t == front + [last];
      assert (set k | k in t) == (set k | k in front) + {last};
    }
  }

  lemma LastValues(m: map<int, Bar>, keys: seq<int>, n: nat)
    requires forall i :: 0 <= i < |keys| ==> keys[i] in m
    ensures forall i :: 0 <= i < |LastKeys(keys, n)| ==> LastKeys(keys, n)[i] in m
    ensures LastBars(Values(m, keys), n) == Values(m, LastKeys(keys, n))
  {}

  /** Slicing off the tail of the sorted list keeps the bars with the newest keys. */
  lemma LastBarsIsNewestPart(m: map<int, Bar>, n: nat)
    requires Keyed(m)
    ensures var bars := LastBars(Chronological(m), n);
            Chronicle(bars) && |bars| <= n && Keyed(ByOpenTime(map[], bars)) &&
            IsNewestPart(m, n, ByOpenTime(map[], bars)) && bars == Chronological(ByOpenTime(map[], bars))
  {
    TailIsNewestPart(m, Ascending(m.Keys), n);
  }

  lemma TailIsNewestPart(m: map<int, Bar>, all: seq<int>, n: nat)
    requires Keyed(m) && Lists(all, m.Keys)
    requires forall i :: 0 <= i < |all| ==> all[i] in m
    ensures var bars := LastBars(Values(m, all), n);
            Chronicle(bars) && |bars| <= n && Keyed(ByOpenTime(map[], bars)) &&
            IsNewestPart(m, n, ByOpenTime(map[], bars)) && bars == Chronological(ByOpenTime(map[], bars))
  {
    LastValues(m, all, n);
    LastKeysNewest(m.Keys, all, n);
    ValuesAreTheirDictionary(m, LastKeys(all, n));
  }

  lemma ValuesAreTheirDictionary(m: map<int, Bar>, keys: seq<int>)
    requires Keyed(m) && StrictlyIncreasing(keys) && forall i :: 0 <= i < |keys| ==> keys[i] in m
    ensures var bars := Values(m, keys);
            Chronicle(bars) && ByOpenTime(map[], bars) == Restrict(m, keys) &&
            Restrict(m, keys).Keys == (set k | k in keys) && Keyed(Restrict(m, keys)) &&
            bars == Chronological(Restrict(m, keys))
  {
    DictionaryOfValues(m, keys);
    RestrictedKeys(m, keys);
    AscendingUnique(keys, Ascending(Restrict(m, keys).Keys));
    RestrictedValues(m, keys);
  }

  lemma RestrictedKeys(m: map<int, Bar>, keys: seq<int>)
    requires forall i :: 0 <= i < |keys| ==> keys[i] in m
    ensures Restrict(m, keys).Keys == (set k | k in keys)
    ensures Keyed(m) ==> Keyed(Restrict(m, keys))
  {}

  lemma RestrictedValues(m: map<int, Bar>, keys: seq<int>)
    requires forall i :: 0 <= i < |keys| ==> keys[i] in m
    ensures forall i :: 0 <= i < |keys| ==> keys[i] in Restrict(m, keys)
    ensures Values(Restrict(m, keys), keys) == Values(m, keys)
  {}

  /** The bars a seeding leaves, as the newest part of the merged dictionary. */
  lemma SeedIsNewestPart(closed: seq<Bar>, bars: seq<Bar>)
    ensures var m := ByOpenTime(ByOpenTime(map[], closed), OnlyClosed(bars));
            var r := Seed(closed, bars);
            Keyed(m) && Chronicle(r) && |r| <= MAX_SEEDED &&
            IsNewestPart(m, MAX_SEEDED, ByOpenTime(map[], r)) && r == Chronological(ByOpenTime(map[], r))
  {
    ByOpenTimeKeyed(map[], closed);
    ByOpenTimeKeyed(ByOpenTime(map[], closed), OnlyClosed(bars));
    LastBarsIsNewestPart(ByOpenTime(ByOpenTime(map[], closed), OnlyClosed(bars)), MAX_SEEDED);
  }

  /** Two batches are one: what the first seeding dropped could not have survived the second. */
  lemma SeedTwice(closed: seq<Bar>, a: seq<Bar>, b: seq<Bar>)
    ensures Seed(Seed(closed, a), b) == Seed(closed, a + b)
  {
    var first := Seed(closed, a);
    var base := ByOpenTime(ByOpenTime(map[], closed), OnlyClosed(a));
    var kept := ByOpenTime(map[], first);
    SeedIsNewestPart(closed, a);
    SeedIsNewestPart(closed, a + b);
    SeedIsNewestPart(first, b);
    OnlyClosedConcat(a, b);
    ByOpenTimeConcat(ByOpenTime(map[], closed), OnlyClosed(a), OnlyClosed(b));
    ByOpenTimeIsOverride(base, OnlyClosed(b));
    ByOpenTimeIsOverride(kept, OnlyClosed(b));
    SamePart(base, kept, ByOpenTime(map[], OnlyClosed(b)), MAX_SEEDED,
             ByOpenTime(map[], Seed(closed, a + b)), ByOpenTime(map[], Seed(first, b)));
  }

  lemma SamePart(base: map<int, Bar>, kept: map<int, Bar>, added: map<int, Bar>, n: nat,
                 p: map<int, Bar>, q: map<int, Bar>)
    requires IsNewestPart(base, n, kept) && IsNewestPart(base + added, n, p) && IsNewestPart(kept + added, n, q)
    ensures p == q
  {
    assert (base + added).Keys == base.Keys + added.Keys && (kept + added).Keys == kept.Keys + added.Keys;
    NewestOfMerge(base.Keys, added.Keys, n, kept.Keys, p.Keys);
    NewestUnique((kept + added).Keys, n, p.Keys, q.Keys);
    forall k | k in p
      ensures k in q && p[k] == q[k]
    {
      assert p[k] == (base + added)[k] && q[k] == (kept + added)[k];
    }
  }

  function Flatten(batches: seq<seq<Bar>>): seq<Bar>
  {
    if batches == [] then [] else Flatten(batches[..|batches| - 1]) + batches[|batches| - 1]
  }

  function SeedAll(closed: seq<Bar>, batches: seq<seq<Bar>>): seq<Bar>
  {
    if batches == [] then closed else Seed(SeedAll(closed, batches[..|batches| - 1]), batches[|batches| - 1])
  }

  /** Any sequence of batches is one seeding of their concatenation. */
  lemma {:induction false} SeedInBatches(closed: seq<Bar>, batches: seq<seq<Bar>>)
    requires batches != []
    ensures SeedAll(closed, batches) == Seed(closed, Flatten(batches))
    ensures Chronicle(SeedAll(closed, batches)) && |SeedAll(closed, batches)| <= MAX_SEEDED
  {
    var front, last := batches[..|batches| - 1], batches[|batches| - 1];
    if front == [] {
      assert Flatten(front) + last == last;
    } else {
      SeedInBatches(closed, front);
      SeedTwice(closed, Flatten(front), last);
    }
    SeedIsNewestPart(closed, Flatten(batches));
  }

  /** Re-seeding a seeded history with any part of itself changes nothing. */
  lemma ReseedIsIdentity(closed: seq<Bar>, bars: seq<Bar>, again: seq<Bar>)
    requires forall i :: 0 <= i < |again| ==> again[i] in Seed(closed, bars)
    ensures Seed(Seed(closed, bars), again) == Seed(closed, bars)
  {
    var r := Seed(closed, bars);
    SeedIsNewestPart(closed, bars);
    OverrideWithOwn(ByOpenTime(map[], r), again);
  }

  lemma {:induction false} OverrideWithOwn(m: map<int, Bar>, again: seq<Bar>)
    requires Keyed(m)
    requires forall i :: 0 <= i < |again| ==> again[i] in Chronological(m)
    ensures ByOpenTime(m, OnlyClosed(again)) == m
  {
    if again != [] {
      var front, b := again[..|again| - 1], again[|again| - 1];
      OverrideWithOwn(m, front);
      ValueHasItsKey(m, Ascending(m.Keys), b);
      assert again[..|again|] == again;
      OnlyClosedStep(m, again, |front|);
    }
  }

  lemma ValueHasItsKey(m: map<int, Bar>, keys: seq<int>, b: Bar)
    requires Keyed(m) && (forall i :: 0 <= i < |keys| ==> keys[i] in m) && b in Values(m, keys)
    ensures m[b.openTime := b] == m
  {
    var i :| 0 <= i < |keys| && Values(m, keys)[i] == b;
    assert m[keys[i]] == b && b.openTime == keys[i];
  }
}
