/**
 * `ElasticData`: the mutable sample record that the demo indexes. Its two
 * pseudo-random fields are drawn from generators seeded with `name.hashCode()`;
 * `LocalDateTime.now()` is a parameter `now`, the instant the clock reports.
 */
module ElasticData {
  import opened Wrappers
  import opened JavaTypes
  import opened JavaText
  import opened JavaRandom

  /** The six fields of an `ElasticData` object, as one value. */
  datatype Fields = Fields(
    name: Option<string>,
    category: Option<string>,
    created: Option<LocalDateTime>,
    quality: bool,
    intValue: int32,
    decValue: Double)

  /** The fields of `new ElasticData()`: every field keeps its Java default. */
  const DEFAULT_FIELDS: Fields := Fields(None, None, None, false, 0, ZERO_DOUBLE)

  /** The fields of `new ElasticData(name)` when the clock reads `now`. */
  function NamedFields(name: string, now: LocalDateTime): (f: Fields)
    ensures f.name == Some(name) && f.quality && f.category == None && f.created == Some(now)
    ensures f.intValue == NextInt(HashCode(name)) && f.decValue == NextDouble(HashCode(name))
  {
    var seed := HashCode(name);
    Fields(Some(name), None, Some(now), true, NextInt(seed), NextDouble(seed))
  }

  /**
   * The fields of `new ElasticData(name, cat, timeReverseMin)` when the clock reads
   * `now` at its second reading: those of `ElasticData(name)`, then `category`
   * set and `created` replaced by `now` moved back `timeReverseMin` minutes.
   */
  function CategorisedFields(name: string, cat: Option<string>, timeReverseMin: int32, now: LocalDateTime): (f: Fields)
    ensures f.category == cat && f.created == Some(MinusMinutes(now, timeReverseMin))
    ensures f.(category := None, created := Some(now)) == NamedFields(name, now)
  {
    NamedFields(name, now).(category := cat, created := Some(MinusMinutes(now, timeReverseMin)))
  }

  /**
   * The pseudo-random fields depend on the name only through `hashCode()`:
   * two names that hash alike give records that differ in `name` alone.
   */
  lemma SeededOnlyByHashCode(a: string, b: string, now: LocalDateTime)
    requires HashCode(a) == HashCode(b)
    ensures NamedFields(a, now).(name := None) == NamedFields(b, now).(name := None)
  {
  }

  /** Such names exist: "Aa" and "BB" both hash to 2112. */
  lemma HashCodeCollision()
    ensures HashCode("Aa") == HashCode("BB") == 2112
  {
    HashOfTwoChars('A', 'a');
    HashOfTwoChars('B', 'B');
  }

  /** The hash of a two-character string of the Basic Multilingual Plane: `31 * c0 + c1`. */
  lemma HashOfTwoChars(c0: char, c1: char)
    requires c0 as int < 0x1_0000 && c1 as int < 0x1_0000
    ensures HashCode([c0, c1]) == 31 * (c0 as int) + c1 as int
  {
    Utf16OfTwo(c0, c1);
    HashOfTwoUnits(c0 as int, c1 as int);
  }

  lemma Utf16OfTwo(c0: char, c1: char)
    requires c0 as int < 0x1_0000 && c1 as int < 0x1_0000
    ensures Utf16([c0, c1]) == [c0 as int, c1 as int]
  {
    assert [c0, c1][..1] == [c0];
    assert Utf16([c0]) == [c0 as int] by {
      assert [c0][..0] == [];
    }
  }

  lemma HashOfTwoUnits(u0: int, u1: int)
    requires 0 <= u0 < 0x1_0000 && 0 <= u1 < 0x1_0000
    ensures HashOfUnits([u0, u1]) == 31 * u0 + u1
  {
    assert [u0, u1][..1] == [u0];
    assert HashOfUnits([u0]) == u0 by {
      assert [u0][..0] == [];
    }
  }

  class ElasticData {
    var name: Option<string>
    var category: Option<string>
    var created: Option<LocalDateTime>
    var quality: bool
    var intValue: int32
    var decValue: Double

    /** The object's fields, as one value. */
    function State(): Fields
      reads this
    {
      Fields(name, category, created, quality, intValue, decValue)
    }

    /** `ElasticData()`: sets no field. */
    constructor ()
      ensures State() == DEFAULT_FIELDS
    {
      name, category, created := None, None, None;
      quality, intValue, decValue := false, 0, ZERO_DOUBLE;
    }

    /**
     * `ElasticData(name)`. A `null` name throws `NullPointerException` at `name.hashCode()`,
     * after `name`, `created` and `quality` are assigned; the object is never returned, so
     * that case is not modelled.
     */
    constructor Named(name: string, now: LocalDateTime)
      ensures State() == NamedFields(name, now)
    {
      var seed := HashCode(name);
      this.name := Some(name);
      this.category := None;
      this.created := Some(now);
      this.quality := true;
      this.intValue := NextInt(seed);
      this.decValue := NextDouble(seed);
    }

    /**
     * `ElasticData(name, cat, timeReverseMin)`. The clock reading taken by the
     * delegated `this(name)` is overwritten, so only the second reading `now` matters.
     */
    constructor WithCategory(name: string, cat: Option<string>, timeReverseMin: int32, now: LocalDateTime)
      ensures State() == CategorisedFields(name, cat, timeReverseMin, now)
    {
      var seed := HashCode(name);
      this.name := Some(name);
      this.quality := true;
      this.intValue := NextInt(seed);
      this.decValue := NextDouble(seed);
      this.category := cat;
      this.created := Some(MinusMinutes(now, timeReverseMin));
    }

    /** The getter: the `name` component of the object's state. */
    function GetName(): (n: Option<string>)
      reads this
      ensures n == State().name
    {
      name
    }

    method SetName(name: Option<string>)
      modifies this
      ensures State() == old(State()).(name := name)
      ensures GetName() == name
    {
      this.name := name;
    }

    /** The getter: the `intValue` component of the object's state. */
    function GetIntValue(): (v: int32)
      reads this
      ensures v == State().intValue
    {
      intValue
    }

    method SetIntValue(intValue: int32)
      modifies this
      ensures State() == old(State()).(intValue := intValue)
      ensures GetIntValue() == intValue
    {
      this.intValue := intValue;
    }

    /** The getter: the `decValue` component of the object's state. */
    function GetDecValue(): (d: Double)
      reads this
      ensures d == State().decValue
    {
      decValue
    }

    method SetDecValue(decValue: Double)
      modifies this
      ensures State() == old(State()).(decValue := decValue)
      ensures GetDecValue() == decValue
    {
      this.decValue := decValue;
    }

    /** The getter: the `quality` component of the object's state. */
    function IsQuality(): (q: bool)
      reads this
      ensures q == State().quality
    {
      quality
    }

    method SetQuality(enabled: bool)
      modifies this
      ensures State() == old(State()).(quality := enabled)
      ensures IsQuality() == enabled
    {
      this.quality := enabled;
    }

    /** The getter: the `created` component of the object's state. */
    function GetCreated(): (t: Option<LocalDateTime>)
      reads this
      ensures t == State().created
    {
      created
    }

    method SetCreated(created: Option<LocalDateTime>)
      modifies this
      ensures State() == old(State()).(created := created)
      ensures GetCreated() == created
    {
      this.created := created;
    }

    /** The getter: the `category` component of the object's state. */
    function GetCategory(): (c: Option<string>)
      reads this
      ensures c == State().category
    {
      category
    }

    method SetCategory(category: Option<string>)
      modifies this
      ensures State() == old(State()).(category := category)
      ensures GetCategory() == category
    {
      this.category := category;
    }
  }
}
