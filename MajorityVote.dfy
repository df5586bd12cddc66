/** The majority vote `getRegionFromFace` runs over the labelled corners of a face: records are
    counted by a string key (the region name), the most frequent key wins, a tie goes to the key
    seen first, and the winning record is the first one carrying that key. */
module MajorityVote {
  import opened Wrappers
  import opened JsArray

  /** How many of the records carry key `n`. */
  function CountKey<T>(rs: seq<T>, key: T -> string, n: string): nat
    decreases |rs|
  {
    if rs == [] then 0 else CountKey(rs[..|rs| - 1], key, n) + (if key(rs[|rs| - 1]) == n then 1 else 0)
  }

  /** `rs[i]` wins the vote: its key is counted at least as often as any other, and every record
      before it carries a key counted strictly less often, so a tie goes to the key seen first
      and `rs[i]` is the first record with the winning key. */
  predicate IsWinnerAt<T>(rs: seq<T>, key: T -> string, i: int) {
    && 0 <= i < |rs|
    && (forall j :: 0 <= j < |rs| ==> CountKey(rs, key, key(rs[j])) <= CountKey(rs, key, key(rs[i])))
    && (forall j :: 0 <= j < i ==> CountKey(rs, key, key(rs[j])) < CountKey(rs, key, key(rs[i])))
  }

  /** There is at most one winner. */
  lemma WinnerUnique<T>(rs: seq<T>, key: T -> string, i: int, k: int)
    requires IsWinnerAt(rs, key, i) && IsWinnerAt(rs, key, k)
    ensures i == k
  {
    assert CountKey(rs, key, key(rs[k])) <= CountKey(rs, key, key(rs[i]));
    assert CountKey(rs, key, key(rs[i])) <= CountKey(rs, key, key(rs[k]));
  }

  /** The winner among the first `k` records: the earliest of those with the highest count. */
  function BestUpTo<T>(rs: seq<T>, key: T -> string, k: nat): (b: nat)
    requires 1 <= k <= |rs|
    ensures b < k
    ensures forall j :: 0 <= j < k ==> CountKey(rs, key, key(rs[j])) <= CountKey(rs, key, key(rs[b]))
    ensures forall j :: 0 <= j < b ==> CountKey(rs, key, key(rs[j])) < CountKey(rs, key, key(rs[b]))
  {
    if k == 1 then 0
    else
      var b := BestUpTo(rs, key, k - 1);
      if CountKey(rs, key, key(rs[k - 1])) > CountKey(rs, key, key(rs[b])) then k - 1 else b
  }

  /** The index of the winning record. */
  function WinnerIndex<T>(rs: seq<T>, key: T -> string): (i: nat)
    requires |rs| > 0
    ensures IsWinnerAt(rs, key, i)
  {
    BestUpTo(rs, key, |rs|)
  }

  function HasKey<T>(key: T -> string, n: string): T -> bool {
    x => key(x) == n
  }

  /** The loop over `Object.entries(counts)` picks the first key, in insertion order, with the
      highest count, and `find` returns the first record with that key: the winner. */
  lemma ScanPicksWinner<T>(rs: seq<T>, key: T -> string, keys: seq<string>, best: nat)
    requires keys == Dedup(Map(rs, key))
    requires Leads(rs, key, keys, |keys|, best)
    ensures FindIndex(rs, HasKey(key, keys[best])).Some?
    ensures IsWinnerAt(rs, key, FindIndex(rs, HasKey(key, keys[best])).value)
  {
    var ks := Map(rs, key);
    var n := keys[best];
    assert n in ks;
    var i0 := IndexOf(ks, n);
    assert HasKey(key, n)(rs[i0]);
    var i := FindIndex(rs, HasKey(key, n)).value;
    assert ks[i] == n;
    assert i == IndexOf(ks, n) by {
      var k := IndexOf(ks, n);
      assert ks[k] == n && HasKey(key, n)(rs[k]);
    }
    DedupKeepsFirstAppearanceOrder(ks);
    forall j | 0 <= j < |rs|
      ensures CountKey(rs, key, key(rs[j])) <= CountKey(rs, key, n)
      ensures j < i ==> CountKey(rs, key, key(rs[j])) < CountKey(rs, key, n)
    {
      assert ks[j] == key(rs[j]);
      var e := IndexOf(keys, key(rs[j]));
      if j < i {
        assert key(rs[j]) != n;
        assert IndexOf(ks, keys[e]) <= j;
        assert IndexOf(ks, keys[e]) < IndexOf(ks, keys[best]);
      }
    }
  }

  /** Every record's key is counted at least once. */
  lemma {:induction false} CountKeyPositive<T>(rs: seq<T>, key: T -> string, i: nat)
    requires i < |rs|
    ensures CountKey(rs, key, key(rs[i])) >= 1
    decreases |rs|
  {
    if i < |rs| - 1 {
      CountKeyPositive(rs[..|rs| - 1], key, i);
    }
  }

  lemma KeysSnoc<T>(rs: seq<T>, key: T -> string, r: T)
    ensures Map(rs + [r], key) == Map(rs, key) + [key(r)]
  {
  }

  lemma DedupSnoc(s: seq<string>, x: string)
    ensures Dedup(s + [x]) == if x in Dedup(s) then Dedup(s) else Dedup(s) + [x]
    ensures x in Dedup(s) <==> x in s
  {
    assert (s + [x])[..|s|] == s;
  }

  /** A key is counted exactly when some record carries it. */
  lemma {:induction false} CountKeyIn<T>(rs: seq<T>, key: T -> string, n: string)
    ensures CountKey(rs, key, n) > 0 <==> n in Map(rs, key)
    decreases |rs|
  {
    if rs != [] {
      CountKeyIn(rs[..|rs| - 1], key, n);
      KeysSnoc(rs[..|rs| - 1], key, rs[|rs| - 1]);
      assert rs == rs[..|rs| - 1] + [rs[|rs| - 1]];
    }
  }

  /** The `forEach` that fills the counts object. */
  method CountKeys<T>(rs: seq<T>, key: T -> string) returns (counts: map<string, nat>)
    ensures forall n :: n in counts ==> counts[n] == CountKey(rs, key, n)
    ensures forall n :: n !in counts ==> CountKey(rs, key, n) == 0
  {
    counts := map[];
    for k := 0 to |rs|
      invariant forall n :: n in counts ==> counts[n] == CountKey(rs[..k], key, n)
      invariant forall n :: n !in counts ==> CountKey(rs[..k], key, n) == 0
    {
      var n := key(rs[k]);
      counts := counts[n := (if n in counts then counts[n] else 0) + 1];
      assert rs[..k + 1][..k] == rs[..k];
    }
    assert rs[..|rs|] == rs;
  }

  /** The order `Object.entries(counts)` reports the keys in: the order in which the `forEach`
      first inserted them. */
  method KeyOrder<T>(rs: seq<T>, key: T -> string) returns (keys: seq<string>)
    ensures keys == Dedup(Map(rs, key))
  {
    keys := [];
    for k := 0 to |rs|
      invariant keys == Dedup(Map(rs[..k], key))
    {
      var n := key(rs[k]);
      assert rs[..k + 1] == rs[..k] + [rs[k]];
      KeysSnoc(rs[..k], key, rs[k]);
      DedupSnoc(Map(rs[..k], key), n);
      if n !in keys {
        keys := keys + [n];
      }
    }
    assert rs[..|rs|] == rs;
  }

  /** A key some record carries is counted and found. */
  lemma KeyIsFound<T>(rs: seq<T>, key: T -> string, n: string)
    requires n in Map(rs, key)
    ensures CountKey(rs, key, n) >= 1
    ensures FindIndex(rs, HasKey(key, n)).Some?
    ensures Find(rs, HasKey(key, n)) == Some(rs[FindIndex(rs, HasKey(key, n)).value])
  {
    var i := IndexOf(Map(rs, key), n);
    CountKeyPositive(rs, key, i);
    assert HasKey(key, n)(rs[i]);
  }

  /** After the first `e` keys of the scan, `keys[best]` holds the maximum, and it is the first
      key holding it. */
  predicate Leads<T>(rs: seq<T>, key: T -> string, keys: seq<string>, e: nat, best: nat) {
    && best < e <= |keys|
    && (forall d :: 0 <= d < e ==> CountKey(rs, key, keys[d]) <= CountKey(rs, key, keys[best]))
    && (forall d :: 0 <= d < best ==> CountKey(rs, key, keys[d]) < CountKey(rs, key, keys[best]))
  }

  /** One step of the scan: a strictly larger count takes the lead, anything else keeps it. */
  lemma LeadsStep<T>(rs: seq<T>, key: T -> string, keys: seq<string>, e: nat, best: nat)
    requires e < |keys|
    requires e == 0 || Leads(rs, key, keys, e, best)
    ensures e == 0 || CountKey(rs, key, keys[e]) > CountKey(rs, key, keys[best]) ==> Leads(rs, key, keys, e + 1, e)
    ensures e > 0 && CountKey(rs, key, keys[e]) <= CountKey(rs, key, keys[best]) ==> Leads(rs, key, keys, e + 1, best)
  {
  }

  /** The loop over `Object.entries(counts)`: the first key whose count beats every earlier
      maximum wins, and `find` fetches its first record. */
  method PickMostCommon<T>(rs: seq<T>, key: T -> string, counts: map<string, nat>, keys: seq<string>)
    returns (selected: T)
    requires |rs| > 0
    requires keys == Dedup(Map(rs, key))
    requires forall n :: n in keys ==> n in counts && counts[n] == CountKey(rs, key, n)
    ensures selected == rs[WinnerIndex(rs, key)]
  {
    assert Map(rs, key)[0] in keys;
    var maxCount := 0;
    selected := rs[0];
    ghost var best := 0;
    for e := 0 to |keys|
      invariant e == 0 ==> maxCount == 0
      invariant e > 0 ==> && Leads(rs, key, keys, e, best) && maxCount == CountKey(rs, key, keys[best])
                          && Find(rs, HasKey(key, keys[best])) == Some(selected)
    {
      var name := keys[e];
      var count := counts[name];
      KeyIsFound(rs, key, name);
      LeadsStep(rs, key, keys, e, best);
      if count > maxCount {
        maxCount := count;
        selected := Find(rs, HasKey(key, name)).value;
        best := e;
      }
    }
    ScanPicksWinner(rs, key, keys, best);
    KeyIsFound(rs, key, keys[best]);
    WinnerUnique(rs, key, FindIndex(rs, HasKey(key, keys[best])).value, WinnerIndex(rs, key));
  }

  /** The counting and the scan together: the record `getRegionFromFace` returns for a
      non-empty list of labelled corners. */
  method MostCommon<T>(rs: seq<T>, key: T -> string) returns (selected: T)
    requires |rs| > 0
    ensures selected == rs[WinnerIndex(rs, key)]
  {
    var counts := CountKeys(rs, key);
    var keys := KeyOrder(rs, key);
    forall n | n in keys
      ensures n in counts
    {
      CountKeyIn(rs, key, n);
    }
    selected := PickMostCommon(rs, key, counts, keys);
  }

  /** Two different keys share the records between them. */
  lemma {:induction false} TwoKeysShare<T>(rs: seq<T>, key: T -> string, m: string, n: string)
    ensures m != n ==> CountKey(rs, key, m) + CountKey(rs, key, n) <= |rs|
    decreases |rs|
  {
    if rs != [] {
      TwoKeysShare(rs[..|rs| - 1], key, m, n);
    }
  }

  /** A key carried by more than half of the records wins the vote. */
  lemma StrictMajorityWins<T>(rs: seq<T>, key: T -> string, n: string)
    requires 2 * CountKey(rs, key, n) > |rs|
    ensures |rs| > 0 && key(rs[WinnerIndex(rs, key)]) == n
  {
    CountKeyIn(rs, key, n);
    var j := IndexOf(Map(rs, key), n);
    var w := WinnerIndex(rs, key);
    assert CountKey(rs, key, key(rs[j])) <= CountKey(rs, key, key(rs[w]));
    TwoKeysShare(rs, key, key(rs[w]), n);
  }
}
