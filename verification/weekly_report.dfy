/**
 * The mood distribution of src/components/WeeklyReport.tsx: one count per
 * mood over the history (or over a fixed sample when the history is
 * empty), the pie-chart items for the moods that occur, their total and
 * the four-item legend.
 */
module WeeklyReport {
  import opened MoodContext

  /** How many times `m` occurs in `s`. */
  function Count(s: seq<Mood>, m: Mood): nat {
    if s == [] then 0 else Count(s[..|s| - 1], m) + (if s[|s| - 1] == m then 1 else 0)
  }

  /** The moods of the history, in order. */
  function MoodsOf(history: seq<MoodEntry>): (ms: seq<Mood>)
    ensures |ms| == |history|
    ensures forall i :: 0 <= i < |history| ==> ms[i] == history[i].mood
  {
    seq(|history|, i requires 0 <= i < |history| => history[i].mood)
  }

  /** The ten-entry sample shown when there is no history yet. */
  const SampleData: seq<Mood> := [Happy, Happy, Calm, Calm, Calm, Neutral, Neutral, Tired, Anxious, Energetic]

  /** The entries that are counted: the history when it has any, else the sample. */
  function CountedMoods(history: seq<MoodEntry>): (ms: seq<Mood>)
    ensures |history| > 0 ==> ms == MoodsOf(history)
    ensures |history| == 0 ==> ms == SampleData
  {
    if |history| > 0 then MoodsOf(history) else SampleData
  }

  /** A counts table with a count for every mood. */
  predicate Total(counts: map<Mood, nat>) {
    forall m :: m in counts
  }

  /**
   * The `forEach` that fills `counts`: starting from zero for all seven
   * moods, each entry adds one to its mood, so each count ends as the
   * number of entries with that mood.
   */
  method CountMoods(data: seq<Mood>) returns (counts: map<Mood, nat>)
    ensures Total(counts)
    ensures forall m :: counts[m] == Count(data, m)
  {
    counts := map[Happy := 0, Calm := 0, Tired := 0, Anxious := 0, Neutral := 0, Sad := 0, Energetic := 0];
    forall m: Mood ensures m in counts {
      match m
      case Happy => case Calm => case Tired => case Anxious => case Neutral => case Sad => case Energetic =>
    }
    for i := 0 to |data|
      invariant Total(counts)
      invariant forall m :: counts[m] == Count(data[..i], m)
    {
      assert data[..i + 1][..i] == data[..i];
      counts := counts[data[i] := counts[data[i]] + 1];
    }
    assert data[..|data|] == data;
  }

  /** A pie-chart item: the mood's name, its count, colour and emoji. */
  datatype Item = Item(name: Mood, value: nat, color: string, emoji: string)

  /** The position of a mood among the keys of the counts table (declaration order). */
  function KeyRank(m: Mood): (k: nat)
    ensures k < |AllMoods| && AllMoods[k] == m
  {
    match m
    case Happy => 0
    case Calm => 1
    case Tired => 2
    case Anxious => 3
    case Neutral => 4
    case Sad => 5
    case Energetic => 6
  }

  /** `keys` lists moods in strictly increasing key order. */
  predicate InKeyOrder(keys: seq<Mood>) {
    forall i, j :: 0 <= i < j < |keys| ==> KeyRank(keys[i]) < KeyRank(keys[j])
  }

  /** The names of the items, in order. */
  function Names(items: seq<Item>): (ns: seq<Mood>)
    ensures |ns| == |items|
    ensures forall i :: 0 <= i < |items| ==> ns[i] == items[i].name
  {
    seq(|items|, i requires 0 <= i < |items| => items[i].name)
  }

  /** `.filter(([_, count]) => count > 0).map(...)` over the entries for `keys`. */
  function ItemsFor(keys: seq<Mood>, counts: map<Mood, nat>): seq<Item>
    requires Total(counts)
  {
    if keys == [] then []
    else
      var m := keys[0];
      var rest := ItemsFor(keys[1..], counts);
      if counts[m] > 0 then [Item(m, counts[m], Color(m), Emoji(m))] + rest else rest
  }

  /** `moodDistribution`'s result for a counts table: the entries in key order. */
  function Distribution(counts: map<Mood, nat>): seq<Item>
    requires Total(counts)
  {
    ItemsFor(AllMoods, counts)
  }

  /** A well-formed item: its count is positive and is the mood's count, and its colour and emoji are the mood's. */
  predicate ItemOf(it: Item, counts: map<Mood, nat>)
    requires Total(counts)
  {
    it.value > 0 && it.value == counts[it.name] && it.color == Color(it.name) && it.emoji == Emoji(it.name)
  }

  /**
   * The items for a list of keys: every item is well formed, and a key has
   * an item exactly when its count is positive.
   */
  lemma {:induction false} ItemsForItems(keys: seq<Mood>, counts: map<Mood, nat>)
    requires Total(counts)
    ensures forall it :: it in ItemsFor(keys, counts) ==> ItemOf(it, counts)
    ensures forall m :: m in Names(ItemsFor(keys, counts)) <==> m in keys && counts[m] > 0
  {
    if keys != [] {
      var m := keys[0];
      var rest := ItemsFor(keys[1..], counts);
      ItemsForItems(keys[1..], counts);
      assert keys == [m] + keys[1..];
      if counts[m] > 0 {
        assert Names([Item(m, counts[m], Color(m), Emoji(m))] + rest) == [m] + Names(rest);
      }
    }
  }

  /** The items follow the key order of their keys, so no mood appears twice. */
  lemma {:induction false} ItemsForOrder(keys: seq<Mood>, counts: map<Mood, nat>)
    requires Total(counts) && InKeyOrder(keys)
    ensures InKeyOrder(Names(ItemsFor(keys, counts)))
  {
    if keys != [] {
      var m := keys[0];
      var rest := ItemsFor(keys[1..], counts);
      assert InKeyOrder(keys[1..]) by {
        forall i, j | 0 <= i < j < |keys| - 1 ensures KeyRank(keys[1..][i]) < KeyRank(keys[1..][j]) {
          assert keys[1..][i] == keys[i + 1] && keys[1..][j] == keys[j + 1];
        }
      }
      ItemsForOrder(keys[1..], counts);
      if counts[m] > 0 {
        ItemsForItems(keys[1..], counts);
        forall n | n in Names(rest) ensures KeyRank(m) < KeyRank(n) {
          var j :| 0 <= j < |keys| - 1 && keys[1..][j] == n;
          assert keys[j + 1] == n;
        }
        assert Names([Item(m, counts[m], Color(m), Emoji(m))] + rest) == [m] + Names(rest);
      }
    }
  }

  /** Over keys that list every mood once in key order, the items are one per mood with a positive count. */
  lemma ItemsForAllKeys(keys: seq<Mood>, counts: map<Mood, nat>)
    requires Total(counts) && InKeyOrder(keys) && forall m :: m in keys
    ensures forall i :: 0 <= i < |ItemsFor(keys, counts)| ==> ItemOf(ItemsFor(keys, counts)[i], counts)
    ensures forall m :: m in Names(ItemsFor(keys, counts)) <==> counts[m] > 0
    ensures InKeyOrder(Names(ItemsFor(keys, counts)))
    ensures forall i, j :: 0 <= i < j < |ItemsFor(keys, counts)| ==> ItemsFor(keys, counts)[i].name != ItemsFor(keys, counts)[j].name
  {
    var d := ItemsFor(keys, counts);
    ItemsForItems(keys, counts);
    ItemsForOrder(keys, counts);
    forall i | 0 <= i < |d| ensures ItemOf(d[i], counts) {
      assert d[i] in d;
    }
    forall i, j | 0 <= i < j < |d| ensures d[i].name != d[j].name {
      assert KeyRank(Names(d)[i]) < KeyRank(Names(d)[j]);
    }
  }

  /** The mood keys, in declaration order, list every mood. */
  lemma AllMoodsInKeyOrder()
    ensures InKeyOrder(AllMoods) && forall m :: m in AllMoods
  {
    forall m ensures m in AllMoods { AllMoodsListsEachMoodOnce(m); }
  }

  /** The distribution holds one well-formed item per mood with a positive count, in key order. */
  lemma DistributionShape(counts: map<Mood, nat>)
    requires Total(counts)
    ensures forall i :: 0 <= i < |Distribution(counts)| ==> ItemOf(Distribution(counts)[i], counts)
    ensures forall m :: m in Names(Distribution(counts)) <==> counts[m] > 0
    ensures InKeyOrder(Names(Distribution(counts)))
    ensures forall i, j :: 0 <= i < j < |Distribution(counts)| ==> Distribution(counts)[i].name != Distribution(counts)[j].name
  {
    AllMoodsInKeyOrder();
    ItemsForAllKeys(AllMoods, counts);
  }

  /** `totalEntries`: the sum of the item values. */
  function TotalEntries(items: seq<Item>): nat {
    if items == [] then 0 else items[0].value + TotalEntries(items[1..])
  }

  /** The sum of the counts of `keys`. */
  function SumCounts(keys: seq<Mood>, counts: map<Mood, nat>): nat
    requires Total(counts)
  {
    if keys == [] then 0 else counts[keys[0]] + SumCounts(keys[1..], counts)
  }

  /** Dropping the zero counts does not change the sum. */
  lemma {:induction false} ItemsForTotal(keys: seq<Mood>, counts: map<Mood, nat>)
    requires Total(counts)
    ensures TotalEntries(ItemsFor(keys, counts)) == SumCounts(keys, counts)
  {
    if keys != [] {
      ItemsForTotal(keys[1..], counts);
    }
  }

  /** The per-key counts of `data`. */
  function CountsOf(data: seq<Mood>): (counts: map<Mood, nat>)
    ensures Total(counts)
    ensures forall m :: counts[m] == Count(data, m)
  {
    map m: Mood | true :: Count(data, m)
  }

  /** The sum over `keys` of the counts of `data`. */
  function SumOver(keys: seq<Mood>, data: seq<Mood>): nat {
    if keys == [] then 0 else Count(data, keys[0]) + SumOver(keys[1..], data)
  }

  lemma {:induction false} SumOverIsSumCounts(keys: seq<Mood>, data: seq<Mood>)
    ensures SumCounts(keys, CountsOf(data)) == SumOver(keys, data)
  {
    if keys != [] { SumOverIsSumCounts(keys[1..], data); }
  }

  /** Appending one entry raises the sum over distinct keys by one if its mood is a key, else leaves it. */
  lemma {:induction false} SumOverSnoc(keys: seq<Mood>, data: seq<Mood>, x: Mood)
    requires forall i, j :: 0 <= i < j < |keys| ==> keys[i] != keys[j]
    ensures SumOver(keys, data + [x]) == SumOver(keys, data) + (if x in keys then 1 else 0)
  {
    if keys != [] {
      assert (data + [x])[..|data + [x]| - 1] == data;
      assert forall i, j :: 0 <= i < j < |keys| - 1 ==> keys[1..][i] != keys[1..][j];
      SumOverSnoc(keys[1..], data, x);
      assert x in keys <==> x == keys[0] || x in keys[1..];
    }
  }

  lemma {:induction false} SumOverNothing(keys: seq<Mood>)
    ensures SumOver(keys, []) == 0
  {
    if keys != [] { SumOverNothing(keys[1..]); }
  }

  /** Every entry is counted under exactly one mood. */
  lemma {:induction false} SumOverAllMoods(data: seq<Mood>)
    ensures SumOver(AllMoods, data) == |data|
  {
    if data == [] {
      SumOverNothing(AllMoods);
    } else {
      var init := data[..|data| - 1];
      SumOverAllMoods(init);
      assert data == init + [data[|data| - 1]];
      AllMoodsListsEachMoodOnce(data[|data| - 1]);
      SumOverSnoc(AllMoods, init, data[|data| - 1]);
    }
  }

  /** `totalEntries` is the number of entries counted: the history's length, or 10 for the sample. */
  lemma TotalEntriesCountsEveryEntry(history: seq<MoodEntry>)
    ensures TotalEntries(Distribution(CountsOf(CountedMoods(history)))) == if |history| > 0 then |history| else 10
  {
    var data := CountedMoods(history);
    ItemsForTotal(AllMoods, CountsOf(data));
    SumOverIsSumCounts(AllMoods, data);
    SumOverAllMoods(data);
  }

  /** What the sample holds of each mood. */
  function SampleCount(m: Mood): nat {
    match m
    case Happy => 2
    case Calm => 3
    case Neutral => 2
    case Sad => 0
    case _ => 1
  }

  /** The sample counts 2 happy, 3 calm, 2 neutral, 1 tired, 1 anxious, 1 energetic and no sad. */
  lemma SampleCounts(m: Mood)
    ensures Count(SampleData, m) == SampleCount(m)
  {
    var s := SampleData;
    assert s[..0] == [] && s[..10] == s;
    CountStep(s, m, 0); CountStep(s, m, 1); CountStep(s, m, 2); CountStep(s, m, 3); CountStep(s, m, 4);
    CountStep(s, m, 5); CountStep(s, m, 6); CountStep(s, m, 7); CountStep(s, m, 8); CountStep(s, m, 9);
  }

  /** Counting over the first `k + 1` entries adds the `k`-th entry to the count over the first `k`. */
  lemma CountStep(s: seq<Mood>, m: Mood, k: nat)
    requires k < |s|
    ensures Count(s[..k + 1], m) == Count(s[..k], m) + (if s[k] == m then 1 else 0)
  {
    assert s[..k + 1][..k] == s[..k];
  }

  /**
   * `moodDistribution`: counts the history (or the sample when the history
   * is empty) and keeps the moods that occur.
   */
  method MoodDistribution(history: seq<MoodEntry>) returns (items: seq<Item>)
    ensures items == Distribution(CountsOf(CountedMoods(history)))
  {
    var data := if |history| > 0 then MoodsOf(history) else SampleData;
    var counts := CountMoods(data);
    assert counts == CountsOf(data);
    items := Distribution(counts);
  }

  /** The legend beside the pie chart: the first four items, or all of them when there are fewer. */
  function Legend(items: seq<Item>): (shown: seq<Item>)
    ensures |shown| == if |items| < 4 then |items| else 4
    ensures forall i :: 0 <= i < |shown| ==> shown[i] == items[i]
  {
    items[..if |items| < 4 then |items| else 4]
  }
}
