/**
 * `ElasticDataDemo`: the category-less variant of the sample record. As in
 * `ElasticData`, the pseudo-random fields are seeded with `name.hashCode()` and
 * `LocalDateTime.now()` is the parameter `now`.
 */
module ElasticDataDemo {
  import opened Wrappers
  import opened JavaTypes
  import opened JavaText
  import opened JavaRandom

  /** The five fields of an `ElasticDataDemo` object, as one value. */
  datatype DemoFields = DemoFields(
    name: Option<string>,
    created: Option<LocalDateTime>,
    quality: bool,
    intValue: int32,
    decValue: Double)

  /** The fields of `new ElasticDataDemo()`: every field keeps its Java default. */
  const DEFAULT_DEMO_FIELDS: DemoFields := DemoFields(None, None, false, 0, ZERO_DOUBLE)

  /** The fields of `new ElasticDataDemo(name)` when the clock reads `now`. */
  function NamedDemoFields(name: string, now: LocalDateTime): (f: DemoFields)
    ensures f.name == Some(name) && f.quality && f.created == Some(now)
    ensures f.intValue == NextInt(HashCode(name)) && f.decValue == NextDouble(HashCode(name))
  {
    var seed := HashCode(name);
    DemoFields(Some(name), Some(now), true, NextInt(seed), NextDouble(seed))
  }

  /**
   * Records built from equal names at any two instants differ at most in `created`;
   * `decValue` lies in [0, 1) and shares its leading bits with `intValue`.
   */
  lemma EqualNamesEqualValues(name: string, t1: LocalDateTime, t2: LocalDateTime)
    ensures NamedDemoFields(name, t1).(created := None) == NamedDemoFields(name, t2).(created := None)
    ensures NamedDemoFields(name, t1).decValue.bits < ONE_BITS
    ensures UnitNumerator(NamedDemoFields(name, t1).decValue).Some?
    ensures UnitNumerator(NamedDemoFields(name, t1).decValue).value / 0x800_0000
         == Unsigned32(NamedDemoFields(name, t1).intValue) / 64
  {
    var seed := HashCode(name);
    UnitDoubleRoundTrip(NextDoubleNumerator(seed));
    SameSeedSharesBits(seed);
  }

  class ElasticDataDemo {
    var name: Option<string>
    var created: Option<LocalDateTime>
    var quality: bool
    var intValue: int32
    var decValue: Double

    /** The object's fields, as one value. */
    function State(): DemoFields
      reads this
    {
      DemoFields(name, created, quality, intValue, decValue)
    }

    /** `ElasticDataDemo()`: sets no field. */
    constructor ()
      ensures State() == DEFAULT_DEMO_FIELDS
    {
      name, created := None, None;
      quality, intValue, decValue := false, 0, ZERO_DOUBLE;
    }

    /**
     * `ElasticDataDemo(name)`. A `null` name throws `NullPointerException` at `name.hashCode()`,
     * after `name`, `created` and `quality` are assigned; the object is never returned, so
     * that case is not modelled.
     */
    constructor Named(name: string, now: LocalDateTime)
      ensures State() == NamedDemoFields(name, now)
    {
      var seed := HashCode(name);
      this.name := Some(name);
      this.created := Some(now);
      this.quality := true;
      this.intValue := NextInt(seed);
      this.decValue := NextDouble(seed);
    }

    /** The getter: the `name` component of the object's state. */
    function GetName(): (n: Option<string>)
      reads this
      ensures n == State().name
    {
      name
    }

    method SetName(name: Option<string>)
      modifies this
      ensures State() == old(State()).(name := name)
      ensures GetName() == name
    {
      this.name := name;
    }

    /** The getter: the `intValue` component of the object's state. */
    function GetIntValue(): (v: int32)
      reads this
      ensures v == State().intValue
    {
      intValue
    }

    method SetIntValue(intValue: int32)
      modifies this
      ensures State() == old(State()).(intValue := intValue)
      ensures GetIntValue() == intValue
    {
      this.intValue := intValue;
    }

    /** The getter: the `decValue` component of the object's state. */
    function GetDecValue(): (d: Double)
      reads this
      ensures d == State().decValue
    {
      decValue
    }

    method SetDecValue(decValue: Double)
      modifies this
      ensures State() == old(State()).(decValue := decValue)
      ensures GetDecValue() == decValue
    {
      this.decValue := decValue;
    }

    /** The getter: the `quality` component of the object's state. */
    function IsQuality(): (q: bool)
      reads this
      ensures q == State().quality
    {
      quality
    }

    method SetQuality(enabled: bool)
      modifies this
      ensures State() == old(State()).(quality := enabled)
      ensures IsQuality() == enabled
    {
      this.quality := enabled;
    }

    /** The getter: the `created` component of the object's state. */
    function GetCreated(): (t: Option<LocalDateTime>)
      reads this
      ensures t == State().created
    {
      created
    }

    method SetCreated(created: Option<LocalDateTime>)
      modifies this
      ensures State() == old(State()).(created := created)
      ensures GetCreated() == created
    {
      this.created := created;
    }
  }
}
