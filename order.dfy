/** The orders MongoDB's `sort` uses on the fields of this system: strings by
    character code (so "Friday" comes before "Monday"), numbers and dates
    numerically, and a missing value before any number or string. A sort
    specification such as `{ day: 1, startTime: 1 }` becomes a `Key`, a
    sequence of fields compared lexicographically. */
module Order {

  /** Lexicographic order on strings, comparing character codes; a proper
      prefix comes first. */
  predicate StrLe(a: string, b: string)
    decreases |a|
  {
    if |a| == 0 then true
    else if |b| == 0 then false
    else if a[0] != b[0] then a[0] < b[0]
    else StrLe(a[1..], b[1..])
  }

  lemma {:induction false} StrLeReflexive(a: string)
    ensures StrLe(a, a)
    decreases |a|
  {
    if |a| > 0 { StrLeReflexive(a[1..]); }
  }

  lemma {:induction false} StrLeAntisymmetric(a: string, b: string)
    requires StrLe(a, b) && StrLe(b, a)
    ensures a == b
    decreases |a|
  {
    if |a| > 0 {
      StrLeAntisymmetric(a[1..], b[1..]);
      assert a == [a[0]] + a[1..] && b == [b[0]] + b[1..];
    }
  }

  lemma {:induction false} StrLeTransitive(a: string, b: string, c: string)
    requires StrLe(a, b) && StrLe(b, c)
    ensures StrLe(a, c)
    decreases |a|
  {
    if |a| > 0 && a[0] == b[0] && b[0] == c[0] {
      StrLeTransitive(a[1..], b[1..], c[1..]);
    }
  }

  lemma {:induction false} StrLeTotal(a: string, b: string)
    ensures StrLe(a, b) || StrLe(b, a)
    decreases |a|
  {
    if |a| > 0 && |b| > 0 && a[0] == b[0] {
      StrLeTotal(a[1..], b[1..]);
    }
  }

  /** The string order is not the calendar order of weekday names: Friday
      sorts before Monday, and Sunday before Tuesday. */
  lemma StringOrderIsNotWeekdayOrder()
    ensures StrLe("Friday", "Monday") && !StrLe("Monday", "Friday")
    ensures StrLe("Sunday", "Tuesday") && !StrLe("Tuesday", "Sunday")
  {
    assert "Friday"[0] == 'F' && "Monday"[0] == 'M';
    assert "Sunday"[0] == 'S' && "Tuesday"[0] == 'T';
  }

  /** The value of one sort field of a document. */
  datatype Field = Null | Num(n: int) | Str(s: string)

  /** BSON comparison order of the kinds of value the sorts meet: null,
      then numbers, then strings. BSON puts dates after strings; no sort
      field here holds both a date and a string, so a date is a number of
      milliseconds among other dates and a missing one is null. */
  function Rank(f: Field): nat {
    match f
    case Null => 0
    case Num(_) => 1
    case Str(_) => 2
  }

  predicate FieldLe(a: Field, b: Field) {
    if Rank(a) != Rank(b) then Rank(a) < Rank(b)
    else match a
      case Null => true
      case Num(x) => x <= b.n
      case Str(s) => StrLe(s, b.s)
  }

  /** A sort key: the values of the fields named by a sort specification, in
      order. */
  type Key = seq<Field>

  /** Lexicographic order on keys: the first field decides, ties go to the
      next field. */
  predicate KeyLe(a: Key, b: Key)
    decreases |a|
  {
    if |a| == 0 then true
    else if |b| == 0 then false
    else if a[0] != b[0] then FieldLe(a[0], b[0])
    else KeyLe(a[1..], b[1..])
  }

  lemma {:induction false} KeyLeReflexive(a: Key)
    ensures KeyLe(a, a)
    decreases |a|
  {
    if |a| > 0 { KeyLeReflexive(a[1..]); }
  }

  lemma FieldLeAntisymmetric(a: Field, b: Field)
    requires FieldLe(a, b) && FieldLe(b, a)
    ensures a == b
  {
    if a.Str? && b.Str? { StrLeAntisymmetric(a.s, b.s); }
  }

  lemma FieldLeTransitive(a: Field, b: Field, c: Field)
    requires FieldLe(a, b) && FieldLe(b, c)
    ensures FieldLe(a, c)
  {
    if a.Str? && b.Str? && c.Str? { StrLeTransitive(a.s, b.s, c.s); }
  }

  lemma FieldLeTotal(a: Field, b: Field)
    ensures FieldLe(a, b) || FieldLe(b, a)
  {
    if a.Str? && b.Str? { StrLeTotal(a.s, b.s); }
  }

  lemma {:induction false} KeyLeAntisymmetric(a: Key, b: Key)
    requires KeyLe(a, b) && KeyLe(b, a)
    ensures a == b
    decreases |a|
  {
    if |a| > 0 {
      if a[0] != b[0] {
        FieldLeAntisymmetric(a[0], b[0]);
      } else {
        KeyLeAntisymmetric(a[1..], b[1..]);
        assert a == [a[0]] + a[1..] && b == [b[0]] + b[1..];
      }
    }
  }

  lemma {:induction false} KeyLeTransitive(a: Key, b: Key, c: Key)
    requires KeyLe(a, b) && KeyLe(b, c)
    ensures KeyLe(a, c)
    decreases |a|
  {
    if |a| > 0 {
      if a[0] == b[0] && b[0] == c[0] {
        KeyLeTransitive(a[1..], b[1..], c[1..]);
      } else if a[0] != b[0] && b[0] != c[0] {
        FieldLeTransitive(a[0], b[0], c[0]);
        if a[0] == c[0] { FieldLeAntisymmetric(a[0], b[0]); }
      }
    }
  }

  lemma {:induction false} KeyLeTotal(a: Key, b: Key)
    ensures KeyLe(a, b) || KeyLe(b, a)
    decreases |a|
  {
    if |a| > 0 && |b| > 0 {
      if a[0] == b[0] { KeyLeTotal(a[1..], b[1..]); } else { FieldLeTotal(a[0], b[0]); }
    }
  }

  /** On one-field keys the key order is the field order. */
  lemma SingleKeyLe(a: Field, b: Field)
    requires KeyLe([a], [b])
    ensures FieldLe(a, b)
  {
    if a == b {
      if a.Str? { StrLeReflexive(a.s); }
    }
  }

  /** On two-field keys the first field decides, and the second breaks ties. */
  lemma PairKeyLe(a1: Field, a2: Field, b1: Field, b2: Field)
    requires KeyLe([a1, a2], [b1, b2])
    ensures FieldLe(a1, b1)
    ensures a1 == b1 ==> FieldLe(a2, b2)
  {
    var a, b := [a1, a2], [b1, b2];
    assert a[0] == a1 && b[0] == b1 && a[1..] == [a2] && b[1..] == [b2];
    if a1 == b1 {
      SingleKeyLe(a2, b2);
      if a1.Str? { StrLeReflexive(a1.s); }
    }
  }
}
