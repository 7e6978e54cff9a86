# AreaClassificationMajor, modelled in Dafny

This project models the student-sectioning value type `AreaClassificationMajor`.
Each instance is one academic eligibility tuple. It holds an academic area, a
classification and a major code. It may also hold a concentration code, display
names for the four codes, and a weight. The type is immutable, so it is modelled
as a Dafny `datatype` (module `StudentModel` in `area_classification_major.dfy`):

- every Java `String` field becomes an `Option<string>`, where `None` stands for `null`;
- the `Double` weight becomes `storedWeight: Option<real>`;
- the eight string getters are the datatype's field destructors (`area`, `areaName`, …);
- `getWeight` is `Weight()`, which applies the 1.0 default when the weight is read;
- the six overloaded constructors are six functions (`FromCodes`, …,
  `FromNamedCodesWithWeight`) that all build the one datatype constructor;
- `equals(Object)` is `Equals(o: JavaObject)`, where `JavaObject` is `null`, an
  instance of this type, or an object of another class;
- `toString()` is `ToString()`, and `hashCode()` is `HashCode(stringHash)`.

Identity is the projection `Key()` = (area, classification, major). The lemmas
prove four groups of facts:

- the constructors store their arguments verbatim;
- the weight defaults to 1.0 when it is read;
- equality is an equivalence relation that ignores concentration, names and weight;
- equal instances render and hash identically.

They also prove when the rendering decides equality in both directions, and give
concrete counterexamples for the cases where it does not.

The Java code accepts `null` for area, classification and major, and nothing
rejects it. The model therefore keeps those three fields optional as well, and
`null` identity codes compare with the null-safe rule.

## Model

| member | source | states |
|---|---|---|
| StudentModel.FromCodes | src/org/cpsolver/studentsct/model/AreaClassificationMajor.java:41-45 | area, classification and major are stored verbatim; concentration, the four names and the weight stay null; the weight reads as 1.0 |
| StudentModel.FromCodesWithConcentration | src/org/cpsolver/studentsct/model/AreaClassificationMajor.java:55-60 | the three codes and the concentration are stored verbatim; the names and the weight stay null; the weight reads as 1.0 |
| StudentModel.FromCodesWithWeight | src/org/cpsolver/studentsct/model/AreaClassificationMajor.java:71-77 | codes, concentration and the weight are stored verbatim; the names stay null; the weight reads as the supplied value, or 1.0 when null is passed |
| StudentModel.FromNamedCodes | src/org/cpsolver/studentsct/model/AreaClassificationMajor.java:89-96 | the three codes and their names are stored verbatim; concentration, its name and the weight stay null; the weight reads as 1.0 |
| StudentModel.FromNamedCodesWithConcentration | src/org/cpsolver/studentsct/model/AreaClassificationMajor.java:110-119 | all four codes and names are stored verbatim; the weight stays null and reads as 1.0 |
| StudentModel.FromNamedCodesWithWeight | src/org/cpsolver/studentsct/model/AreaClassificationMajor.java:134-144 | all four codes, names and the weight are stored verbatim; the weight reads as the supplied value, or 1.0 when null is passed |
| StudentModel.AreaClassificationMajor.Weight | src/org/cpsolver/studentsct/model/AreaClassificationMajor.java:204 | the weight read is 1.0 when no weight is stored and exactly the stored value otherwise; what each constructor leads to is stated in the constructors' weight clauses and in `WeightDefaultOnRead` |
| StudentModel.WeightDefaultOnRead | src/org/cpsolver/studentsct/model/AreaClassificationMajor.java:204 | an instance built with a null weight reads 1.0, the same as one built with 1.0, but the two values stay distinct: the default is applied on read |
| StudentModel.Render | src/org/cpsolver/studentsct/model/AreaClassificationMajor.java:221 | string concatenation renders a present code as itself, and renders "null" exactly for a null code or the literal code "null" |
| StudentModel.NullSafeEqualsIsValueEquality | src/org/cpsolver/studentsct/model/AreaClassificationMajor.java:216 | the assumed `ToolBox.equals` (two nulls equal, null never equals a string) coincides with equality of optional strings |
| StudentModel.AreaClassificationMajor.Equals | src/org/cpsolver/studentsct/model/AreaClassificationMajor.java:212-217 | `equals` holds exactly when the other object is an instance whose (area, classification, major) projection is the same |
| StudentModel.EqualsRejectsNonInstances | src/org/cpsolver/studentsct/model/AreaClassificationMajor.java:213-214 | `equals(null)` and `equals` on an object of another class are false |
| StudentModel.EqualsIgnoresNonIdentityFields | src/org/cpsolver/studentsct/model/AreaClassificationMajor.java:216 | instances that agree on area, classification and major are equal both ways, whatever their concentration, names and weight |
| StudentModel.EqualsDetectsIdentityChange | src/org/cpsolver/studentsct/model/AreaClassificationMajor.java:216 | changing area, classification or major alone to a different value makes the instance unequal to the original |
| StudentModel.EqualsReflexive | src/org/cpsolver/studentsct/model/AreaClassificationMajor.java:216 | every instance equals itself |
| StudentModel.EqualsSymmetric | src/org/cpsolver/studentsct/model/AreaClassificationMajor.java:216 | x equals y exactly when y equals x |
| StudentModel.EqualsTransitive | src/org/cpsolver/studentsct/model/AreaClassificationMajor.java:216 | x equals y and y equals z imply x equals z |
| StudentModel.AreaClassificationMajor.ToString | src/org/cpsolver/studentsct/model/AreaClassificationMajor.java:220-222 | the rendering is the area, a '/', the major, a ' ' and the classification, laid out at the positions their lengths give, with null rendered as "null" |
| StudentModel.ToStringExample | src/org/cpsolver/studentsct/model/AreaClassificationMajor.java:220-222 | area "BIO", classification "FR", major "101" render as "BIO/101 FR" |
| StudentModel.ToStringRendersNull | src/org/cpsolver/studentsct/model/AreaClassificationMajor.java:220-222 | missing area and major render as "null", giving "null/null FR" |
| StudentModel.RenderInjective | src/org/cpsolver/studentsct/model/AreaClassificationMajor.java:221 | two codes that render alike are the same code, unless one of them is the literal "null" |
| StudentModel.AreaClassificationMajor.HashCode | src/org/cpsolver/studentsct/model/AreaClassificationMajor.java:207-209 | the hash of an instance is the string hash of the rendering of every instance equal to it, so it depends on area, classification and major only; see also `HashConsistentWithEquals` |
| StudentModel.HashConsistentWithEquals | src/org/cpsolver/studentsct/model/AreaClassificationMajor.java:207-209 | equal instances have the same `toString` and hence the same `hashCode`, for every string hash function |
| StudentModel.ConstructorsAgreeOnIdentity | src/org/cpsolver/studentsct/model/AreaClassificationMajor.java:41-144 | any two of the six constructors given the same three codes build equal instances with the same `hashCode`, whatever other arguments they get |
| StudentModel.ToStringIdentifiesUnambiguous | src/org/cpsolver/studentsct/model/AreaClassificationMajor.java:220-222 | when no area holds '/', no major holds ' ' and no identity code is the literal "null", two instances are equal if and only if they render identically |
| StudentModel.ToStringNotInjective | src/org/cpsolver/studentsct/model/AreaClassificationMajor.java:207-222 | area "A" with major "B C" and classification "D", and area "A" with major "B" and classification "C D", are unequal but both render "A/B C D" and hash alike |
| StudentModel.NullRendersLikeLiteral | src/org/cpsolver/studentsct/model/AreaClassificationMajor.java:207-222 | a null area and the area "null" are unequal but render and hash alike |

## Left out

- `String.hashCode` belongs to the Java platform. `HashCode` therefore takes the string hash as a parameter (`stringHash: string -> int32`). Every hashing lemma holds for all such functions. Only "equal strings hash alike" is used.
- `ToolBox.equals` is not part of this model. It is assumed to be null-safe equality (`NullSafeEquals`): two nulls are equal, null never equals a string, and two strings are equal when their contents are.
- `Double` and `double` floating-point semantics: the weight is only stored and read back, never computed, so it is a `real`.
- Subclasses of `AreaClassificationMajor`: `instanceof` also accepts them, but none exist here, so `JavaObject` has no case for them.
- Java strings are UTF-16 code units, and Dafny `char` is a Unicode scalar value. This does not matter here, because the model only concatenates strings and compares them.
- Object identity and reference semantics. Instances are immutable and identified by value, so the model works on values.
- The converse of hash consistency does not hold in general: equal hashes do not imply `equals`. The model proves the conditional form (`ToStringIdentifiesUnambiguous`) and two counterexamples instead.
