/**
 * The student-sectioning value type `AreaClassificationMajor`: one academic
 * area / classification / major tuple with an optional concentration,
 * optional display names for the four codes and an optional weight.
 *
 * Every Java `String` reference becomes an `Option<string>` (`None` is `null`)
 * and the `Double` weight an `Option<real>`. Identity (`Equals`, `HashCode`)
 * depends on area, classification and major only.
 */
module StudentModel {

  import opened Wrappers

  /** A signed 32-bit Java `int`, the result type of `hashCode`. */
  newtype int32 = x: int | -0x8000_0000 <= x < 0x8000_0000

  /**
   * Null-safe string equality: two `null`s are equal, `null` never equals a
   * string, and two strings are equal when their contents are. This is the
   * meaning assumed for `ToolBox.equals`, whose body is not part of this model.
   */
  predicate NullSafeEquals(a: Option<string>, b: Option<string>)
  {
    match (a, b)
    case (None, None) => true
    case (Some(x), Some(y)) => x == y
    case _ => false
  }

  /** Null-safe equality is exactly equality of the optional values. */
  lemma NullSafeEqualsIsValueEquality(a: Option<string>, b: Option<string>)
    ensures NullSafeEquals(a, b) <==> a == b
  {
  }

  /** How Java's string concatenation renders a possibly-null `String`. */
  function Render(s: Option<string>): (r: string)
    ensures s.Some? ==> r == s.value
    ensures r == "null" <==> s == None || s == Some("null")
  {
    match s
    case None => "null"
    case Some(v) => v
  }

  /** The argument of `equals(Object)`: null, an instance of this type, or an object of another class. */
  datatype JavaObject = NullRef | AcmRef(acm: AreaClassificationMajor) | OtherRef

  /** The identity projection: area, classification and major. */
  type IdentityKey = (Option<string>, Option<string>, Option<string>)

  datatype AreaClassificationMajor = AreaClassificationMajor(
    area: Option<string>,
    areaName: Option<string>,
    classification: Option<string>,
    classificationName: Option<string>,
    major: Option<string>,
    majorName: Option<string>,
    concentration: Option<string>,
    concentrationName: Option<string>,
    storedWeight: Option<real>)
  {
    /** The weight a caller sees: the stored value, or 1.0 when none was stored. */
    function Weight(): (w: real)
      ensures storedWeight.None? ==> w == 1.0
      ensures storedWeight.Some? ==> w == storedWeight.value
    {
      match storedWeight
      case None => 1.0
      case Some(w) => w
    }

    /** The fields that identity depends on. */
    function Key(): IdentityKey
    {
      (area, classification, major)
    }

    /**
     * `equals(Object)`: false for `null` and for objects of another class,
     * otherwise a null-safe comparison of area, classification and major.
     */
    predicate Equals(o: JavaObject)
      ensures Equals(o) <==> o.AcmRef? && o.acm.Key() == Key()
    {
      match o
      case NullRef => false
      case OtherRef => false
      case AcmRef(acm) =>
        NullSafeEquals(acm.area, area)
        && NullSafeEquals(acm.classification, classification)
        && NullSafeEquals(acm.major, major)
    }

    /** `toString()`: `area + "/" + major + " " + classification`, `null` rendered as "null". */
    function ToString(): (r: string)
      ensures |r| == |Render(area)| + |Render(major)| + |Render(classification)| + 2
      ensures r[..|Render(area)|] == Render(area)
      ensures r[|Render(area)|] == '/'
      ensures r[|Render(area)| + 1..|Render(area)| + 1 + |Render(major)|] == Render(major)
      ensures r[|Render(area)| + 1 + |Render(major)|] == ' '
      ensures r[|Render(area)| + 2 + |Render(major)|..] == Render(classification)
    {
      Render(area) + "/" + Render(major) + " " + Render(classification)
    }

    /** `hashCode()`: the hash of `toString()`, with Java's string hash given as `stringHash`. */
    function HashCode(stringHash: string -> int32): (r: int32)
      ensures forall other :: Equals(AcmRef(other)) ==> r == stringHash(other.ToString())
    {
      stringHash(ToString())
    }

    /**
     * True when the rendering can be split back into its three codes: the
     * area holds no '/', the major no ' ', and no identity code is the
     * literal string "null" (which renders like a missing code).
     */
    predicate RendersUnambiguously()
    {
      && '/' !in Render(area)
      && ' ' !in Render(major)
      && area != Some("null")
      && major != Some("null")
      && classification != Some("null")
    }
  }

  // ---------------------------------------------------------------------------
  // The six constructors. Each stores its arguments verbatim and leaves every
  // field it does not take as null; the weight default is not applied here.
  // ---------------------------------------------------------------------------

  /** `AreaClassificationMajor(area, classification, major)`. */
  function FromCodes(area: Option<string>, classification: Option<string>, major: Option<string>)
    : (r: AreaClassificationMajor)
    ensures r.area == area && r.classification == classification && r.major == major
    ensures r.concentration == None
    ensures r.areaName == None && r.classificationName == None
    ensures r.majorName == None && r.concentrationName == None
    ensures r.storedWeight == None && r.Weight() == 1.0
  {
    AreaClassificationMajor(area, None, classification, None, major, None, None, None, None)
  }

  /** `AreaClassificationMajor(area, classification, major, concentration)`. */
  function FromCodesWithConcentration(
    area: Option<string>, classification: Option<string>, major: Option<string>,
    concentration: Option<string>)
    : (r: AreaClassificationMajor)
    ensures r.area == area && r.classification == classification && r.major == major
    ensures r.concentration == concentration
    ensures r.areaName == None && r.classificationName == None
    ensures r.majorName == None && r.concentrationName == None
    ensures r.storedWeight == None && r.Weight() == 1.0
  {
    AreaClassificationMajor(area, None, classification, None, major, None, concentration, None, None)
  }

  /** `AreaClassificationMajor(area, classification, major, concentration, weight)`. */
  function FromCodesWithWeight(
    area: Option<string>, classification: Option<string>, major: Option<string>,
    concentration: Option<string>, weight: Option<real>)
    : (r: AreaClassificationMajor)
    ensures r.area == area && r.classification == classification && r.major == major
    ensures r.concentration == concentration
    ensures r.areaName == None && r.classificationName == None
    ensures r.majorName == None && r.concentrationName == None
    ensures r.storedWeight == weight
    ensures weight.Some? ==> r.Weight() == weight.value
    ensures weight.None? ==> r.Weight() == 1.0
  {
    AreaClassificationMajor(area, None, classification, None, major, None, concentration, None, weight)
  }

  /** `AreaClassificationMajor(areaCode, areaName, classificationCode, classificationName, majorCode, majorName)`. */
  function FromNamedCodes(
    areaCode: Option<string>, areaName: Option<string>,
    classificationCode: Option<string>, classificationName: Option<string>,
    majorCode: Option<string>, majorName: Option<string>)
    : (r: AreaClassificationMajor)
    ensures r.area == areaCode && r.classification == classificationCode && r.major == majorCode
    ensures r.areaName == areaName && r.classificationName == classificationName
    ensures r.majorName == majorName
    ensures r.concentration == None && r.concentrationName == None
    ensures r.storedWeight == None && r.Weight() == 1.0
  {
    AreaClassificationMajor(areaCode, areaName, classificationCode, classificationName,
                            majorCode, majorName, None, None, None)
  }

  /** The named-codes constructor that also takes the concentration code and name. */
  function FromNamedCodesWithConcentration(
    areaCode: Option<string>, areaName: Option<string>,
    classificationCode: Option<string>, classificationName: Option<string>,
    majorCode: Option<string>, majorName: Option<string>,
    concentrationCode: Option<string>, concentrationName: Option<string>)
    : (r: AreaClassificationMajor)
    ensures r.area == areaCode && r.classification == classificationCode && r.major == majorCode
    ensures r.areaName == areaName && r.classificationName == classificationName
    ensures r.majorName == majorName
    ensures r.concentration == concentrationCode && r.concentrationName == concentrationName
    ensures r.storedWeight == None && r.Weight() == 1.0
  {
    AreaClassificationMajor(areaCode, areaName, classificationCode, classificationName,
                            majorCode, majorName, concentrationCode, concentrationName, None)
  }

  /** The named-codes constructor that takes the concentration and a weight. */
  function FromNamedCodesWithWeight(
    areaCode: Option<string>, areaName: Option<string>,
    classificationCode: Option<string>, classificationName: Option<string>,
    majorCode: Option<string>, majorName: Option<string>,
    concentrationCode: Option<string>, concentrationName: Option<string>,
    weight: Option<real>)
    : (r: AreaClassificationMajor)
    ensures r.area == areaCode && r.classification == classificationCode && r.major == majorCode
    ensures r.areaName == areaName && r.classificationName == classificationName
    ensures r.majorName == majorName
    ensures r.concentration == concentrationCode && r.concentrationName == concentrationName
    ensures r.storedWeight == weight
    ensures weight.Some? ==> r.Weight() == weight.value
    ensures weight.None? ==> r.Weight() == 1.0
  {
    AreaClassificationMajor(areaCode, areaName, classificationCode, classificationName,
                            majorCode, majorName, concentrationCode, concentrationName, weight)
  }

  // ---------------------------------------------------------------------------
  // Weight
  // ---------------------------------------------------------------------------

  /**
   * The weight default is applied when the weight is read: an instance built
   * without a weight and one built with an explicit 1.0 read the same weight
   * but remain different values.
   */
  lemma WeightDefaultOnRead(area: Option<string>, classification: Option<string>, major: Option<string>,
                            concentration: Option<string>)
    ensures FromCodesWithWeight(area, classification, major, concentration, None).Weight()
         == FromCodesWithWeight(area, classification, major, concentration, Some(1.0)).Weight() == 1.0
    ensures FromCodesWithWeight(area, classification, major, concentration, None)
         != FromCodesWithWeight(area, classification, major, concentration, Some(1.0))
  {
  }

  // ---------------------------------------------------------------------------
  // Equality
  // ---------------------------------------------------------------------------

  /** `equals` is false for `null` and for an object of another class. */
  lemma EqualsRejectsNonInstances(x: AreaClassificationMajor)
    ensures !x.Equals(NullRef) && !x.Equals(OtherRef)
  {
  }

  /** Concentration, names and weight do not take part in equality. */
  lemma EqualsIgnoresNonIdentityFields(x: AreaClassificationMajor, y: AreaClassificationMajor)
    requires x.area == y.area && x.classification == y.classification && x.major == y.major
    ensures x.Equals(AcmRef(y)) && y.Equals(AcmRef(x))
  {
  }

  /** Changing any one of area, classification or major makes the instances unequal. */
  lemma EqualsDetectsIdentityChange(x: AreaClassificationMajor, code: Option<string>)
    ensures code != x.area ==> !x.Equals(AcmRef(x.(area := code)))
    ensures code != x.classification ==> !x.Equals(AcmRef(x.(classification := code)))
    ensures code != x.major ==> !x.Equals(AcmRef(x.(major := code)))
  {
  }

  lemma EqualsReflexive(x: AreaClassificationMajor)
    ensures x.Equals(AcmRef(x))
  {
  }

  lemma EqualsSymmetric(x: AreaClassificationMajor, y: AreaClassificationMajor)
    ensures x.Equals(AcmRef(y)) <==> y.Equals(AcmRef(x))
  {
  }

  lemma EqualsTransitive(x: AreaClassificationMajor, y: AreaClassificationMajor, z: AreaClassificationMajor)
    requires x.Equals(AcmRef(y)) && y.Equals(AcmRef(z))
    ensures x.Equals(AcmRef(z))
  {
  }

  // ---------------------------------------------------------------------------
  // Rendering and hashing
  // ---------------------------------------------------------------------------

  /** Area "BIO", classification "FR" and major "101" render as "BIO/101 FR". */
  lemma ToStringExample()
    ensures FromCodes(Some("BIO"), Some("FR"), Some("101")).ToString() == "BIO/101 FR"
  {
  }

  /** A missing code renders as "null". */
  lemma ToStringRendersNull()
    ensures FromCodes(None, Some("FR"), None).ToString() == "null/null FR"
  {
  }

  /** Equal instances render identically and therefore hash identically under any string hash. */
  lemma HashConsistentWithEquals(x: AreaClassificationMajor, y: AreaClassificationMajor, stringHash: string -> int32)
    requires x.Equals(AcmRef(y))
    ensures x.ToString() == y.ToString()
    ensures x.HashCode(stringHash) == y.HashCode(stringHash)
  {
  }

  /**
   * Instances built from the same three codes by any two constructors are
   * equal and hash identically, whatever concentration, names and weight
   * each was given (taken from `first` and `second`).
   */
  lemma ConstructorsAgreeOnIdentity(
    area: Option<string>, classification: Option<string>, major: Option<string>,
    first: AreaClassificationMajor, second: AreaClassificationMajor, stringHash: string -> int32)
    ensures forall x, y | x in Constructed(area, classification, major, first)
                       && y in Constructed(area, classification, major, second)
              :: x.Equals(AcmRef(y)) && x.HashCode(stringHash) == y.HashCode(stringHash)
  {
  }

  /**
   * The instances that the six constructors build from the given three codes,
   * taking every other argument from `other`.
   */
  function Constructed(area: Option<string>, classification: Option<string>, major: Option<string>,
                       other: AreaClassificationMajor): set<AreaClassificationMajor>
  {
    {
      FromCodes(area, classification, major),
      FromCodesWithConcentration(area, classification, major, other.concentration),
      FromCodesWithWeight(area, classification, major, other.concentration, other.storedWeight),
      FromNamedCodes(area, other.areaName, classification, other.classificationName, major, other.majorName),
      FromNamedCodesWithConcentration(area, other.areaName, classification, other.classificationName,
                                      major, other.majorName, other.concentration, other.concentrationName),
      FromNamedCodesWithWeight(area, other.areaName, classification, other.classificationName,
                               major, other.majorName, other.concentration, other.concentrationName,
                               other.storedWeight)
    }
  }

  /**
   * If `a + [c] + b == a' + [c] + b'` and neither `a` nor `a'` contains `c`,
   * the first `c` marks the same split on both sides.
   */
  lemma {:induction false} SplitAtSeparator(c: char, a: string, b: string, a': string, b': string)
    requires c !in a && c !in a'
    requires a + [c] + b == a' + [c] + b'
    ensures a == a' && b == b'
  {
    var s := a + [c] + b;
    var s' := a' + [c] + b';
    assert s[|a|] == c && forall i :: 0 <= i < |a| ==> s[i] == a[i] != c;
    assert s'[|a'|] == c && forall i :: 0 <= i < |a'| ==> s'[i] == a'[i] != c;
    assert |a| == |a'|;
    assert a == s[..|a|] == a';
    assert b == s[|a| + 1..] == b';
  }

  /** A rendered code determines the code, unless it could be a missing one. */
  lemma RenderInjective(s: Option<string>, t: Option<string>)
    requires s != Some("null") && t != Some("null")
    requires Render(s) == Render(t)
    ensures s == t
  {
  }

  /**
   * When every instance renders unambiguously, equal renderings mean equal
   * instances: then `toString` (and a string hash without collisions)
   * decides `equals` in both directions.
   */
  lemma ToStringIdentifiesUnambiguous(x: AreaClassificationMajor, y: AreaClassificationMajor)
    requires x.RendersUnambiguously() && y.RendersUnambiguously()
    ensures x.Equals(AcmRef(y)) <==> x.ToString() == y.ToString()
  {
    // Dafny also finds this direction from the layout that ToString's
    // postconditions give; the calls below spell out the argument: split at
    // the first '/', then at the first ' ', then undo the rendering.
    if x.ToString() == y.ToString() {
      var xa, xm, xc := Render(x.area), Render(x.major), Render(x.classification);
      var ya, ym, yc := Render(y.area), Render(y.major), Render(y.classification);
      assert xa + ['/'] + (xm + [' '] + xc) == ya + ['/'] + (ym + [' '] + yc);
      SplitAtSeparator('/', xa, xm + [' '] + xc, ya, ym + [' '] + yc);
      SplitAtSeparator(' ', xm, xc, ym, yc);
      RenderInjective(x.area, y.area);
      RenderInjective(x.major, y.major);
      RenderInjective(x.classification, y.classification);
    }
  }

  /**
   * Without that condition the converse of hash consistency fails: these
   * two instances are not equal, yet render (and so hash) identically.
   */
  lemma ToStringNotInjective(stringHash: string -> int32)
    ensures var x := FromCodes(Some("A"), Some("D"), Some("B C"));
            var y := FromCodes(Some("A"), Some("C D"), Some("B"));
            !x.Equals(AcmRef(y)) && x.ToString() == y.ToString() == "A/B C D"
            && x.HashCode(stringHash) == y.HashCode(stringHash)
  {
  }

  /** A missing code and the literal code "null" are unequal but render alike. */
  lemma NullRendersLikeLiteral(stringHash: string -> int32)
    ensures var x := FromCodes(None, Some("FR"), Some("101"));
            var y := FromCodes(Some("null"), Some("FR"), Some("101"));
            !x.Equals(AcmRef(y)) && x.ToString() == y.ToString()
            && x.HashCode(stringHash) == y.HashCode(stringHash)
  {
  }
}
