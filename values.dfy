/**
 * The tagged value of Value.h: a name, a type tag, a visibility and one
 * payload. The untyped payload pointer of the source becomes a sum type, so
 * a getter that meets a payload of another kind reports TypeMismatch
 * instead of reading unrelated memory.
 */
module Values {
  import opened Outcomes
  import DecimalText

  /** The type tag, in the enumerator order of Value.h (Type_Unknown is 0). */
  datatype Type = Unknown | Boolean | Number | String

  /** Type_COUNT: the number of type tags. */
  const TypeCount: nat := 4

  /** The integer each type enumerator stands for. */
  function TypeCode(t: Type): (c: nat)
    ensures c < TypeCount
    ensures c == 0 <==> t == Unknown
    ensures TypeOfCode(c) == Some(t)
  {
    match t
    case Unknown => 0
    case Boolean => 1
    case Number => 2
    case String => 3
  }

  /** The type tag an integer stands for, if any. */
  function TypeOfCode(c: nat): (t: Option<Type>)
    ensures t.Some? <==> c < TypeCount
  {
    if c == 0 then Some(Unknown)
    else if c == 1 then Some(Boolean)
    else if c == 2 then Some(Number)
    else if c == 3 then Some(String)
    else None
  }

  /** The four type tags are distinct integers, and every code below Type_COUNT names one. */
  lemma TypeCodesDistinct(t: Type, u: Type, c: nat)
    ensures TypeCode(t) == TypeCode(u) <==> t == u
    ensures c < TypeCount ==> TypeCode(TypeOfCode(c).value) == c
  {
    assert TypeOfCode(TypeCode(t)) == Some(t);
    assert TypeOfCode(TypeCode(u)) == Some(u);
  }

  datatype Visibility = Public | Protected | Private

  /** Visibility_Default is an alias of Visibility_Public. */
  const DefaultVisibility: Visibility := Public

  /** The integer each visibility enumerator stands for. */
  function VisibilityCode(v: Visibility): (c: nat)
    ensures c <= 2
    ensures VisibilityOfCode(c) == Some(v)
  {
    match v
    case Public => 0
    case Protected => 1
    case Private => 2
  }

  /** The visibility an integer stands for, if any. */
  function VisibilityOfCode(c: nat): (v: Option<Visibility>)
    ensures v.Some? <==> c <= 2
  {
    if c == 0 then Some(Public)
    else if c == 1 then Some(Protected)
    else if c == 2 then Some(Private)
    else None
  }

  /** The three visibilities are distinct integers, and the default is Public's 0. */
  lemma VisibilityCodesDistinct(v: Visibility, w: Visibility)
    ensures VisibilityCode(v) == VisibilityCode(w) <==> v == w
    ensures VisibilityCode(DefaultVisibility) == 0
  {
    assert VisibilityOfCode(VisibilityCode(v)) == Some(v);
    assert VisibilityOfCode(VisibilityCode(w)) == Some(w);
  }

  /** The payload; `NoData` is the null pointer of a fresh Value. */
  datatype Payload = NoData | BooleanData(b: bool) | NumberData(n: real) | StringData(s: string)

  /** The payload kind that a type tag announces. */
  predicate Matches(t: Type, d: Payload) {
    match t
    case Unknown => d.NoData?
    case Boolean => d.BooleanData?
    case Number => d.NumberData?
    case String => d.StringData?
  }

  /**
   * getValueAsBoolean: the payload read through the type tag. A number is
   * true when it is not zero, a text when it is not empty.
   */
  function AsBoolean(t: Type, d: Payload): (r: Result<bool>)
    ensures r.Ok? <==> t != Unknown && Matches(t, d)
    ensures d == BooleanData(true) ==> r != Ok(false)
    ensures d == BooleanData(false) ==> r != Ok(true)
  {
    match (t, d)
    case (Boolean, BooleanData(b)) => Ok(b)
    case (Number, NumberData(n)) => Ok(n != 0.0)
    case (String, StringData(s)) => Ok(s != "")
    case _ => Err(TypeMismatch)
  }

  /**
   * getValueAsNumber: the payload read through the type tag. A boolean
   * reads as 1 or 0, a text as the decimal number it starts with.
   */
  function AsNumber(t: Type, d: Payload): (r: Result<real>)
    ensures r.Ok? <==> t != Unknown && Matches(t, d)
    ensures t == String && d.StringData? && DecimalText.AllDigits(d.s) ==>
              r == Ok(DecimalText.NatValue(d.s) as real)
    ensures t == Boolean && r.Ok? ==> r.value == 0.0 || r.value == 1.0
  {
    match (t, d)
    case (Boolean, BooleanData(b)) => Ok(if b then 1.0 else 0.0)
    case (Number, NumberData(n)) => Ok(n)
    case (String, StringData(s)) => Ok(DecimalText.ReadDecimal(s))
    case _ => Err(TypeMismatch)
  }

  /**
   * getValueAsString, for the kinds whose text is fixed: a text is itself, a
   * boolean is "true" or "false". Numbers are not formatted here.
   */
  function AsString(t: Type, d: Payload): (r: Result<string>)
    ensures r.Ok? <==> (t == String && d.StringData?) || (t == Boolean && d.BooleanData?)
    ensures r.Ok? && t == String ==> r.value == d.s
  {
    match (t, d)
    case (String, StringData(s)) => Ok(s)
    case (Boolean, BooleanData(b)) => Ok(if b then "true" else "false")
    case _ => Err(TypeMismatch)
  }

  /** A variant value whose setters update it in place. */
  class Value {
    var name: string
    var data: Payload
    var tag: Type
    var visibility: Visibility

    /** A fresh Value: named "Unknown", no payload, unknown type, public. */
    constructor ()
      ensures name == "Unknown" && data == NoData && tag == Unknown
      ensures visibility == DefaultVisibility && VisibilityCode(visibility) == 0
      ensures !IsSet()
    {
      name := "Unknown";
      data := NoData;
      tag := Unknown;
      visibility := DefaultVisibility;
    }

    /** isSet: the value carries a type other than Type_Unknown. */
    predicate IsSet()
      reads this
    {
      tag != Unknown
    }

    predicate IsType(t: Type)
      reads this
    {
      tag == t
    }

    /** isType and isSet agree with getType. */
    lemma TypeQueries(t: Type)
      ensures IsType(t) <==> GetType() == t
      ensures IsSet() <==> !IsType(Unknown)
      ensures IsSet() <==> TypeCode(GetType()) != 0
    {
    }

    /** getType: Type_Unknown exactly while the value is not set. */
    function GetType(): (t: Type)
      reads this
      ensures t == Unknown <==> !IsSet()
      ensures TypeCode(t) < TypeCount
    {
      tag
    }

    function GetName(): string
      reads this
    {
      name
    }

    function GetVisibility(): Visibility
      reads this
    {
      visibility
    }

    function GetValueAsBoolean(): (r: Result<bool>)
      reads this
      ensures r.Ok? <==> IsSet() && Matches(tag, data)
    {
      AsBoolean(tag, data)
    }

    function GetValueAsNumber(): (r: Result<real>)
      reads this
      ensures r.Ok? <==> IsSet() && Matches(tag, data)
      ensures IsType(Number) && r.Ok? ==> data == NumberData(r.value)
    {
      AsNumber(tag, data)
    }

    function GetValueAsString(): (r: Result<string>)
      reads this
      ensures r.Ok? ==> IsSet() && Matches(tag, data)
      ensures IsType(String) && r.Ok? ==> data == StringData(r.value)
    {
      AsString(tag, data)
    }

    /** setName changes the name and nothing else. */
    method SetName(n: string)
      modifies this
      ensures GetName() == n
      ensures data == old(data) && tag == old(tag) && visibility == old(visibility)
    {
      name := n;
    }

    /** setValue(const Value&): copies the type tag and the payload of `other`. */
    method SetValueFrom(other: Value)
      modifies this
      ensures tag == old(other.tag) && data == old(other.data)
      ensures GetValueAsBoolean() == old(other.GetValueAsBoolean())
      ensures GetValueAsNumber() == old(other.GetValueAsNumber())
      ensures GetValueAsString() == old(other.GetValueAsString())
      ensures name == old(name) && visibility == old(visibility)
    {
      var t, d := other.tag, other.data;
      tag, data := t, d;
    }

    /** setValue(std::string) and setValue(const char*). */
    method SetString(s: string)
      modifies this
      ensures tag == String && data == StringData(s) && IsSet()
      ensures GetValueAsString() == Ok(s)
      ensures name == old(name) && visibility == old(visibility)
    {
      tag, data := String, StringData(s);
    }

    /** setValue(double). */
    method SetNumber(x: real)
      modifies this
      ensures tag == Number && data == NumberData(x) && IsSet()
      ensures GetValueAsNumber() == Ok(x)
      ensures GetValueAsBoolean() == Ok(x != 0.0)
      ensures name == old(name) && visibility == old(visibility)
    {
      tag, data := Number, NumberData(x);
    }

    /** setValue(bool). */
    method SetBoolean(b: bool)
      modifies this
      ensures tag == Boolean && data == BooleanData(b) && IsSet()
      ensures GetValueAsBoolean() == Ok(b)
      ensures GetValueAsNumber() == Ok(if b then 1.0 else 0.0)
      ensures GetValueAsString() == Ok(if b then "true" else "false")
      ensures name == old(name) && visibility == old(visibility)
    {
      tag, data := Boolean, BooleanData(b);
    }

    /** setType changes the tag only; the payload stays as it was. */
    method SetType(t: Type)
      modifies this
      ensures GetType() == t && IsType(t)
      ensures name == old(name) && data == old(data) && visibility == old(visibility)
    {
      tag := t;
    }

    /** setVisibility changes the visibility only. */
    method SetVisibility(v: Visibility)
      modifies this
      ensures GetVisibility() == v
      ensures name == old(name) && data == old(data) && tag == old(tag)
    {
      visibility := v;
    }
  }
}
