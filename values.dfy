/**
 * Values shared by the row mapper and the query objects: the optional and
 * failure-carrying wrappers, the exceptions the mapper raises, the values a
 * data reader yields for a column, and the ASCII lower-casing used to match
 * column names against property names.
 */
module Values {

  datatype Option<+T> = None | Some(value: T)

  /** A mapper result: a value, or the exception the C# code would throw. */
  datatype Result<+T> = Ok(value: T) | Err(error: Error)

  /** The exceptions raised by the row mapper and the query objects, one per cause. */
  datatype Error =
    /** `ToDictionary` met a second column with the same lower-cased name (ArgumentException). */
    | DuplicateKey(key: string)
    /** A mapped column has no ordinal: `ColumnOrdinal.Value` on an empty nullable. */
    | OrdinalMissing(key: string)
    /** `GetValue` was given an ordinal the current row does not have. */
    | OrdinalOutOfRange(ordinal: nat)
    /** The cast `(T)dr.GetValue(0)` of a simple target type failed. */
    | InvalidCast
    /** `PropertyInfo.SetValue` refused a value of another runtime kind (ArgumentException). */
    | PropertyTypeMismatch(property: string)
    /** "Sequence contains more than one matching element". */
    | MoreThanOneElement
    /** "Sequence contains no elements". */
    | NoElements

  /** The declared kind of a property or of a simple target type. */
  datatype Kind = BoolKind | IntKind | TextKind | OtherKind(tag: nat)

  /**
   * A value returned by `GetValue`: the database null marker `DBNull.Value`, or
   * a boxed value of some runtime kind. Values of kinds the mapper does no
   * reasoning about (floats, dates, ...) are opaque tagged constants.
   */
  datatype Value = DBNull | Bool(b: bool) | Int(i: int) | Text(s: string) | Other(tag: nat, payload: nat)

  /** The runtime kind of a boxed value; the null marker has none. */
  function KindOf(v: Value): Option<Kind>
  {
    match v
    case DBNull => None
    case Bool(_) => Some(BoolKind)
    case Int(_) => Some(IntKind)
    case Text(_) => Some(TextKind)
    case Other(tag, _) => Some(OtherKind(tag))
  }

  /**
   * Whether a value may be stored, without conversion, where a `k` is
   * expected: an unboxing cast or a `SetValue` succeeds only on an exact kind.
   */
  predicate HasKind(v: Value, k: Kind)
  {
    KindOf(v) == Some(k)
  }

  /**
   * Two characters that are the same letter in either case, or the same
   * character: the upper-case ASCII letters sit 32 code points below their
   * lower-case forms.
   */
  predicate CaseVariants(c: char, d: char)
  {
    c == d || ('A' <= c <= 'Z' && d as int == c as int + 32) || ('A' <= d <= 'Z' && c as int == d as int + 32)
  }

  /** Lower-case one character; letters outside ASCII are left as they are. */
  function LowerChar(c: char): (r: char)
    ensures CaseVariants(c, r)
    ensures !('A' <= r <= 'Z')
  {
    if 'A' <= c <= 'Z' then (c as int + 32) as char else c
  }

  /** `string.ToLower()` on ASCII text: the same length, each character a case variant with no capital left. */
  function Lower(s: string): (r: string)
    ensures |r| == |s|
    ensures forall i :: 0 <= i < |s| ==> CaseVariants(s[i], r[i]) && !('A' <= r[i] <= 'Z')
  {
    seq(|s|, i requires 0 <= i < |s| => LowerChar(s[i]))
  }

  /** Two names that differ only in ASCII letter case. */
  predicate SameIgnoringCase(a: string, b: string)
  {
    |a| == |b| && forall i :: 0 <= i < |a| ==> CaseVariants(a[i], b[i])
  }

  /** Two characters lower-case alike exactly when they are case variants of each other. */
  lemma LowerCharEqualIff(c: char, d: char)
    ensures LowerChar(c) == LowerChar(d) <==> CaseVariants(c, d)
  {
  }

  /**
   * Lower-casing identifies exactly the names that differ only in letter case,
   * which is what makes column matching case-insensitive.
   */
  lemma LowerEqualIff(a: string, b: string)
    ensures Lower(a) == Lower(b) <==> SameIgnoringCase(a, b)
  {
    forall i | 0 <= i < |a| && i < |b|
      ensures Lower(a)[i] == Lower(b)[i] <==> CaseVariants(a[i], b[i])
    {
      LowerCharEqualIff(a[i], b[i]);
    }
    if SameIgnoringCase(a, b) {
      assert forall i :: 0 <= i < |a| ==> Lower(a)[i] == Lower(b)[i];
    }
  }
}
