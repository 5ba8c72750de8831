/** The map utilities of maps.go: `mergeMaps`, `getKeys`, `getValues` and the word-frequency
    loop. A Go map is a reference, but none of these functions writes to its inputs: each
    builds a fresh map or slice, so the inputs are modelled as values, which also makes it
    plain that they are left unchanged. Go's map iteration order is random by design: each
    loop takes its keys in an order the model does not fix (`:|`). */
module Maps {
  import opened Spec

  /** `mergeMaps(map1, map2)`: copies `map1` into a fresh map, then copies `map2` over it,
      so on a shared key the value from `map2` wins. */
  method MergeMaps(map1: map<string, int>, map2: map<string, int>) returns (result: map<string, int>)
    ensures result.Keys == map1.Keys + map2.Keys
    ensures forall k :: k in map2 ==> result[k] == map2[k]
    ensures forall k :: k in map1 && k !in map2 ==> result[k] == map1[k]
    ensures result == map1 + map2
  {
    result := map[];
    var todo := map1.Keys;
    while todo != {}
      invariant todo <= map1.Keys
      invariant result.Keys == map1.Keys - todo
      invariant forall k :: k in result ==> result[k] == map1[k]
      decreases todo
    {
      var k :| k in todo;
      result := result[k := map1[k]];
      todo := todo - {k};
    }
    todo := map2.Keys;
    while todo != {}
      invariant todo <= map2.Keys
      invariant result.Keys == map1.Keys + (map2.Keys - todo)
      invariant forall k :: k in result ==> result[k] == if k in map2.Keys - todo then map2[k] else map1[k]
      decreases todo
    {
      var k :| k in todo;
      result := result[k := map2[k]];
      todo := todo - {k};
    }
  }

  /** maps.go merges {a:1, b:2} with {b:3, c:4} into {a:1, b:3, c:4}. */
  method MergeMapsDemo() returns (merged: map<string, int>)
    ensures merged == map["a" := 1, "b" := 3, "c" := 4]
  {
    merged := MergeMaps(map["a" := 1, "b" := 2], map["b" := 3, "c" := 4]);
  }

  /** `getKeys(m)`: appends every key once, in iteration order. */
  method GetKeys(m: map<string, int>) returns (keys: seq<string>)
    ensures |keys| == |m|
    ensures forall k :: k in keys <==> k in m
    ensures forall i, j :: 0 <= i < j < |keys| ==> keys[i] != keys[j]
  {
    keys := [];
    var todo := m.Keys;
    while todo != {}
      invariant todo <= m.Keys
      invariant forall k :: k in keys <==> k in m.Keys - todo
      invariant forall i, j :: 0 <= i < j < |keys| ==> keys[i] != keys[j]
      invariant |keys| + |todo| == |m.Keys|
      decreases todo
    {
      var k :| k in todo;
      forall i | 0 <= i < |keys| ensures keys[i] != k {
        assert keys[i] in keys;
      }
      keys := keys + [k];
      todo := todo - {k};
    }
  }

  /** `getValues(m)`: appends the value of every key once, in iteration order. */
  method GetValues(m: map<string, int>) returns (values: seq<int>)
    ensures |values| == |m|
    ensures multiset(values) == ValueBag(m)
  {
    values := [];
    var rest := m;
    while rest != map[]
      invariant |values| + |rest| == |m|
      invariant multiset(values) + ValueBag(rest) == ValueBag(m)
      decreases |rest|
    {
      var k :| k in rest;
      ValueBagRemove(rest, k);
      values := values + [rest[k]];
      rest := rest - {k};
    }
  }

  /** The word-frequency loop of maps.go's main: `wordCount[word]++` for every word, a missing
      word starting from the zero value. Afterwards the map holds exactly the words that
      occur, each with its number of occurrences, and the counts add up to the number of words. */
  method WordCount(words: seq<string>) returns (wordCount: map<string, int>)
    ensures forall w :: w in wordCount <==> w in words
    ensures forall w :: Lookup(wordCount, w) == Count(words, w)
    ensures MapSum(wordCount) == |words|
  {
    wordCount := map[];
    for i := 0 to |words|
      invariant wordCount == TallyMap(words[..i])
    {
      var word := words[i];
      assert words[..i + 1][..i] == words[..i];
      wordCount := wordCount[word := Lookup(wordCount, word) + 1];
    }
    assert words[..|words|] == words;
    TallyMapTallies(words);
  }

  /** maps.go counts "hello world hello go world go hello" (already split into words) as
      hello 3, world 2, go 2. */
  method WordCountDemo() returns (wordCount: map<string, int>)
    ensures wordCount == map["hello" := 3, "world" := 2, "go" := 2]
  {
    var words := ["hello", "world", "hello", "go", "world", "go", "hello"];
    wordCount := WordCount(words);
    HelloTally(wordCount, words);
  }

  /** The tally of the maps.go text is the three-entry map it prints. */
  lemma HelloTally(m: map<string, int>, words: seq<string>)
    requires words == ["hello", "world", "hello", "go", "world", "go", "hello"]
    requires Tallies(m, words)
    ensures m == map["hello" := 3, "world" := 2, "go" := 2]
  {
    CountHello(words);
    forall w | w in m
      ensures w == "hello" || w == "world" || w == "go"
    {
      assert w in words;
    }
    assert Lookup(m, "hello") == 3 && Lookup(m, "world") == 2 && Lookup(m, "go") == 2;
    assert m.Keys == {"hello", "world", "go"};
  }

  /** The occurrences of the three words of the maps.go text. */
  lemma CountHello(words: seq<string>)
    requires words == ["hello", "world", "hello", "go", "world", "go", "hello"]
    ensures Count(words, "hello") == 3 && Count(words, "world") == 2 && Count(words, "go") == 2
  {
    var s: seq<string> := [];
    forall x ensures Count(s + ["hello"], x) == Count(s, x) + (if x == "hello" then 1 else 0) { CountSnoc(s, "hello", x); }
    s := s + ["hello"];
    forall x ensures Count(s + ["world"], x) == Count(s, x) + (if x == "world" then 1 else 0) { CountSnoc(s, "world", x); }
    s := s + ["world"];
    forall x ensures Count(s + ["hello"], x) == Count(s, x) + (if x == "hello" then 1 else 0) { CountSnoc(s, "hello", x); }
    s := s + ["hello"];
    forall x ensures Count(s + ["go"], x) == Count(s, x) + (if x == "go" then 1 else 0) { CountSnoc(s, "go", x); }
    s := s + ["go"];
    forall x ensures Count(s + ["world"], x) == Count(s, x) + (if x == "world" then 1 else 0) { CountSnoc(s, "world", x); }
    s := s + ["world"];
    forall x ensures Count(s + ["go"], x) == Count(s, x) + (if x == "go" then 1 else 0) { CountSnoc(s, "go", x); }
    s := s + ["go"];
    forall x ensures Count(s + ["hello"], x) == Count(s, x) + (if x == "hello" then 1 else 0) { CountSnoc(s, "hello", x); }
    s := s + ["hello"];
    assert s == words;
  }
}
