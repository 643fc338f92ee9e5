/**
 * `ElasticDataFactory`: builds the demo records. Record `c` of `samples` is named
 * "Item-" followed by `c` in at least three digits, gets a colour category from
 * the parity and primality of `c`, and is dated `samples - c` minutes back.
 */
module ElasticDataFactory {
  import opened Wrappers
  import opened JavaTypes
  import opened JavaText
  import opened ElasticData

  const GREEN: string := "GREEN"
  const RED: string := "RED"
  const BLUE: string := "BLUE"

  predicate Divides(d: int, n: int)
    requires d > 0
  {
    n % d == 0
  }

  /** `n` is prime: greater than one, with no divisor strictly between 1 and `n`. */
  predicate Prime(n: int) {
    n > 1 && forall d :: 2 <= d < n ==> !Divides(d, n)
  }

  /** `isPrime(n)`: trial division by every `i` from 2 up to `n - 1`, with early returns. */
  method IsPrime(n: int32) returns (b: bool)
    ensures b == Prime(n)
  {
    if n <= 1 {
      return false;
    }
    if n == 2 {
      return true;
    }
    var i := 2;
    while i < n
      invariant 2 <= i <= n
      invariant forall d :: 2 <= d < i ==> !Divides(d, n)
    {
      if n % i == 0 {
        assert Divides(i, n);
        return false;
      }
      i := i + 1;
    }
    return true;
  }

  /**
   * The category `getCategory(c)` gives. Java's `c % 2` truncates, Dafny's is
   * Euclidean; both are zero exactly when `c` is even, so the test agrees.
   */
  function Category(c: int32): string {
    if c % 2 == 0 then GREEN
    else if c > 1 && Prime(c) then RED
    else BLUE
  }

  /** `getCategory(c)`: the primality test runs only for odd `c` above 1. */
  method GetCategory(c: int32) returns (cat: string)
    ensures cat == Category(c)
  {
    if c % 2 == 0 {
      return GREEN;
    }
    var prime := false;
    if c > 1 {
      prime := IsPrime(c);
    }
    if prime {
      return RED;
    }
    return BLUE;
  }

  /**
   * The categories partition the integers: GREEN exactly for the even numbers
   * (2 included), RED exactly for the primes other than 2, BLUE for the rest.
   */
  lemma CategoryPartition(c: int32)
    ensures Category(c) in {GREEN, RED, BLUE}
    ensures Category(c) == GREEN <==> c % 2 == 0
    ensures Category(c) == RED <==> Prime(c) && c != 2
    ensures Category(c) == BLUE <==> c % 2 != 0 && !Prime(c)
  {
    if Prime(c) && c != 2 {
      assert !Divides(2, c);
    }
  }

  /** Fixed points of the partition: 0 and 2 are GREEN, 3, 5, 7 RED, 1, 9, 15 BLUE. */
  lemma CategoryExamples()
    ensures Category(0) == GREEN && Category(2) == GREEN
    ensures Category(3) == RED && Category(5) == RED && Category(7) == RED
    ensures Category(1) == BLUE && Category(9) == BLUE && Category(15) == BLUE
  {
    assert Divides(3, 9) && Divides(3, 15);
  }

  /** The name `String.format("Item-%03d", c)`. */
  function ItemName(c: nat): (s: string)
    ensures |s| == 5 + |Format03d(c)| && |s| >= 8
    ensures s[..5] == "Item-"
  {
    "Item-" + Format03d(c)
  }

  /** Reads the index back out of an item name. */
  function ParseItemName(s: string): Option<nat> {
    if |s| >= 5 && s[..5] == "Item-" then ParseNat(s[5..]) else None
  }

  lemma ItemNameRoundTrip(c: nat)
    ensures ParseItemName(ItemName(c)) == Some(c)
  {
    assert ItemName(c)[5..] == Format03d(c);
    Format03dRoundTrip(c);
  }

  /** Distinct indices give distinct names, past 999 as well. */
  lemma ItemNameInjective(i: nat, j: nat)
    ensures ItemName(i) == ItemName(j) <==> i == j
  {
    ItemNameRoundTrip(i);
    ItemNameRoundTrip(j);
  }

  /**
   * The fields of element `c` of `createDemoData(samples)`, built while the clock
   * reads `now`: `new ElasticData(ItemName(c), getCategory(c), samples - c)`.
   */
  function DemoRecord(samples: int32, c: nat, now: LocalDateTime): (f: Fields)
    requires c < samples
  {
    CategorisedFields(ItemName(c), Some(Category(c)), samples - c, now)
  }

  /**
   * What element `c` of the demo data holds: its own name, its category, and a
   * date `samples - c` minutes (between 1 and `samples`) before its clock reading.
   */
  lemma DemoRecordFields(samples: int32, c: nat, now: LocalDateTime)
    requires c < samples
    ensures DemoRecord(samples, c, now).name == Some(ItemName(c))
    ensures ParseItemName(DemoRecord(samples, c, now).name.value) == Some(c)
    ensures DemoRecord(samples, c, now).category == Some(Category(c))
    ensures DemoRecord(samples, c, now).quality
    ensures 1 <= samples - c <= samples
    ensures DemoRecord(samples, c, now).created == Some(MinusMinutes(now, samples - c))
  {
    ItemNameRoundTrip(c);
  }

  /**
   * Across the demo data the names are pairwise distinct, and the time offsets
   * strictly decrease, from `samples` for element 0 down to 1 for the last: with a
   * clock that does not run backwards, later elements are strictly newer.
   */
  lemma DemoRecordsOrdered(samples: int32, clock: nat -> LocalDateTime, i: nat, j: nat)
    requires i < j < samples
    requires clock(i).nanos <= clock(j).nanos
    ensures DemoRecord(samples, i, clock(i)).name != DemoRecord(samples, j, clock(j)).name
    ensures samples - i > samples - j
    ensures DemoRecord(samples, i, clock(i)).created.value.nanos < DemoRecord(samples, j, clock(j)).created.value.nanos
  {
    ItemNameInjective(i, j);
  }

  /** The exception `new ElasticData[samples]` throws. */
  datatype Error = NegativeArraySize(size: int)

  /**
   * `createDemoData(samples)`. `clock(c)` is what `LocalDateTime.now()` reports
   * while element `c` is built. A negative size throws; otherwise every slot of a
   * fresh array holds a fresh record, built as `DemoRecord` says.
   */
  method CreateDemoData(samples: int32, clock: nat -> LocalDateTime)
    returns (r: Result<array<ElasticData?>, Error>)
    ensures samples < 0 ==> r == Failure(NegativeArraySize(samples))
    ensures samples >= 0 ==> r.Success? && fresh(r.value) && r.value.Length == samples
    ensures r.Success? ==> forall c :: 0 <= c < r.value.Length ==>
      r.value[c] != null && fresh(r.value[c]) && r.value[c].State() == DemoRecord(samples, c, clock(c))
    ensures r.Success? ==> forall i, j :: 0 <= i < j < r.value.Length ==> r.value[i] != r.value[j]
  {
    if samples < 0 {
      return Failure(NegativeArraySize(samples));
    }
    var data := new ElasticData?[samples];
    for c := 0 to samples
      invariant forall k :: 0 <= k < c ==>
        data[k] != null && fresh(data[k]) && data[k].State() == DemoRecord(samples, k, clock(k))
    {
      var category := GetCategory(c);
      var item := new ElasticData.WithCategory(ItemName(c), Some(category), samples - c, clock(c));
      assert item.State() == DemoRecord(samples, c, clock(c));
      data[c] := item;
    }
    forall i, j | 0 <= i < j < samples
      ensures data[i] != data[j]
    {
      ItemNameInjective(i, j);
    }
    return Success(data);
  }
}
