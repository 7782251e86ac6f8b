/** A table entity property: a type tag, a null flag and the value held as
    text. Typed setters write all three; typed getters check the tag and then
    decode the text. */
module EntityProperties {
  import opened Common
  import opened Decimal

  /** `edm_type` */
  datatype EdmType =
    | StringType | BinaryType | BooleanType | DateTimeType
    | DoubleType | GuidType | Int32Type | Int64Type

  /** The exceptions the getters throw (`std::runtime_error`). */
  datatype PropertyError =
    | TypeMismatch(expected: EdmType)  // "The type of the entity property is not ..."
    | BooleanParseError                // "An error occurred parsing the boolean."

  /** The text a boolean is stored as. */
  function BooleanText(b: bool): (r: string)
    ensures r == "true" || r == "false"
    ensures b <==> r == "true"
  {
    if b then "true" else "false"
  }

  /** Decoding of the stored text of a boolean property: only the exact
      words "true" and "false" are accepted. */
  function ParseBoolean(s: string): (r: Result<bool, PropertyError>)
    ensures r.Success? <==> s == "true" || s == "false"
    ensures r.Success? ==> s == BooleanText(r.value)
    ensures r.Failure? ==> r.error == BooleanParseError
  {
    if s == "false" then Success(false)
    else if s == "true" then Success(true)
    else Failure(BooleanParseError)
  }

  /** Writing a boolean and decoding it are inverse: the decoder accepts a
      text exactly when it is the text of some boolean. */
  lemma BooleanRoundTrip(b: bool, s: string)
    ensures ParseBoolean(s) == Success(b) <==> s == BooleanText(b)
  {
  }

  /** The state of an `entity_property` as a value: what a copy of the
      property holds. A `table_entity` keeps its properties this way, so a
      later change to the object a copy was taken from does not reach it. */
  datatype PropertyValue = PropertyValue(propertyType: EdmType, isNull: bool, value: string)

  /** `entity_property` */
  class EntityProperty {
    var propertyType: EdmType
    var isNull: bool
    var value: string

    /** The default property: a null string. */
    constructor ()
      ensures propertyType == StringType && isNull && value == ""
    {
      propertyType, isNull, value := StringType, true, "";
    }

    constructor FromBinary(bytes: Bytes, toBase64: Bytes -> string)
      ensures propertyType == BinaryType && !isNull && value == toBase64(bytes)
    {
      propertyType, isNull, value := BinaryType, false, toBase64(bytes);
    }

    constructor FromBoolean(b: bool)
      ensures propertyType == BooleanType && !isNull && value == BooleanText(b)
    {
      propertyType, isNull, value := BooleanType, false, BooleanText(b);
    }

    /** A GUID property, given the GUID's text. */
    constructor FromGuid(guid: string)
      ensures propertyType == GuidType && !isNull && value == guid
    {
      propertyType, isNull, value := GuidType, false, guid;
    }

    constructor FromInt32(n: Int32)
      ensures propertyType == Int32Type && !isNull && value == DecimalText(n)
    {
      propertyType, isNull, value := Int32Type, false, DecimalText(n);
    }

    constructor FromInt64(n: Int64)
      ensures propertyType == Int64Type && !isNull && value == DecimalText(n)
    {
      propertyType, isNull, value := Int64Type, false, DecimalText(n);
    }

    constructor FromString(s: string)
      ensures propertyType == StringType && !isNull && value == s
    {
      propertyType, isNull, value := StringType, false, s;
    }

    method SetPropertyType(t: EdmType)
      modifies this
      ensures propertyType == t && isNull == old(isNull) && value == old(value)
    {
      propertyType := t;
    }

    method SetIsNull(b: bool)
      modifies this
      ensures isNull == b && propertyType == old(propertyType) && value == old(value)
    {
      isNull := b;
    }

    /** `binary_value()`: the decoded bytes when the tag is binary. */
    function BinaryValue(fromBase64: string -> Bytes): (r: Result<Bytes, PropertyError>)
      reads this
      ensures r.Failure? <==> propertyType != BinaryType
      ensures r.Failure? ==> r.error == TypeMismatch(BinaryType)
      ensures r.Success? ==> r.value == fromBase64(value)
    {
      if propertyType != BinaryType then Failure(TypeMismatch(BinaryType))
      else Success(fromBase64(value))
    }

    /** `boolean_value()`: fails on a tag mismatch and on any text other than
        "true" or "false". */
    function BooleanValue(): (r: Result<bool, PropertyError>)
      reads this
      ensures r.Success? <==> propertyType == BooleanType && (value == "true" || value == "false")
      ensures propertyType != BooleanType ==> r == Failure(TypeMismatch(BooleanType))
      ensures propertyType == BooleanType && value != "true" && value != "false" ==> r == Failure(BooleanParseError)
      ensures r.Success? ==> value == BooleanText(r.value)
    {
      if propertyType != BooleanType then Failure(TypeMismatch(BooleanType))
      else ParseBoolean(value)
    }

    /** `guid_value()`: the GUID's text when the tag is GUID. */
    function GuidValue(): (r: Result<string, PropertyError>)
      reads this
      ensures r.Failure? <==> propertyType != GuidType
      ensures r.Failure? ==> r.error == TypeMismatch(GuidType)
      ensures r.Success? ==> r.value == value
    {
      if propertyType != GuidType then Failure(TypeMismatch(GuidType))
      else Success(value)
    }

    /** `int32_value()`: the tag check, then `istream >> int32_t` into an
        uninitialized local. When the text is empty or only white space
        the extraction stores nothing and the local is returned as it was:
        `uninitialized` stands for that indeterminate value. */
    function Int32Value(uninitialized: Int32): (r: Result<Int32, PropertyError>)
      reads this
      ensures r.Failure? <==> propertyType != Int32Type
      ensures r.Failure? ==> r.error == TypeMismatch(Int32Type)
      ensures r.Success? && ExtractInteger(value, MinInt32, MaxInt32).Some? ==>
        r.value == ExtractInteger(value, MinInt32, MaxInt32).value
      ensures r.Success? && SkipSpace(value) == [] ==> r.value == uninitialized
      ensures forall n: Int32 :: value == DecimalText(n) ==> r.Success? ==> r.value == n
    {
      if propertyType != Int32Type then Failure(TypeMismatch(Int32Type))
      else
        var e := ExtractInteger(value, MinInt32, MaxInt32);
        assert forall m: Int32 :: value == DecimalText(m) ==> e == Some(m) by {
          forall m: Int32 | value == DecimalText(m) ensures e == Some(m) {
            DecimalRoundTrip(m, MinInt32, MaxInt32);
          }
        }
        Success(if e.Some? then e.value else uninitialized)
    }

    /** `int64_value()`: the tag check, then `istream >> int64_t` into an
        uninitialized local. When the text is empty or only white space
        the extraction stores nothing and the local is returned as it was:
        `uninitialized` stands for that indeterminate value. */
    function Int64Value(uninitialized: Int64): (r: Result<Int64, PropertyError>)
      reads this
      ensures r.Failure? <==> propertyType != Int64Type
      ensures r.Failure? ==> r.error == TypeMismatch(Int64Type)
      ensures r.Success? && ExtractInteger(value, MinInt64, MaxInt64).Some? ==>
        r.value == ExtractInteger(value, MinInt64, MaxInt64).value
      ensures r.Success? && SkipSpace(value) == [] ==> r.value == uninitialized
      ensures forall n: Int64 :: value == DecimalText(n) ==> r.Success? ==> r.value == n
    {
      if propertyType != Int64Type then Failure(TypeMismatch(Int64Type))
      else
        var e := ExtractInteger(value, MinInt64, MaxInt64);
        assert forall m: Int64 :: value == DecimalText(m) ==> e == Some(m) by {
          forall m: Int64 | value == DecimalText(m) ensures e == Some(m) {
            DecimalRoundTrip(m, MinInt64, MaxInt64);
          }
        }
        Success(if e.Some? then e.value else uninitialized)
    }

    /** `string_value()`: the stored text when the tag is string. */
    function StringValue(): (r: Result<string, PropertyError>)
      reads this
      ensures r.Failure? <==> propertyType != StringType
      ensures r.Failure? ==> r.error == TypeMismatch(StringType)
      ensures r.Success? ==> r.value == value
    {
      if propertyType != StringType then Failure(TypeMismatch(StringType))
      else Success(value)
    }

    /** `str()`: the stored text, whatever the tag. */
    function Str(): string
      reads this
    {
      value
    }

    /** A copy of the property, as the copy constructor makes one. */
    function Copy(): PropertyValue
      reads this
    {
      PropertyValue(propertyType, isNull, value)
    }

    /** `set_value(std::vector<uint8_t>)` as written: it stores the encoded
        bytes and leaves the type tag and the null flag as they were. */
    method SetBinary(bytes: Bytes, toBase64: Bytes -> string)
      modifies this
      ensures value == toBase64(bytes)
      ensures propertyType == old(propertyType) && isNull == old(isNull)
    {
      value := toBase64(bytes);
    }

    /** The binary setter as every other typed setter behaves: the tag
        becomes binary and the property is no longer null. */
    method SetBinaryTyped(bytes: Bytes, toBase64: Bytes -> string)
      modifies this
      ensures propertyType == BinaryType && !isNull && value == toBase64(bytes)
    {
      propertyType, isNull := BinaryType, false;
      value := toBase64(bytes);
    }

    method SetBoolean(b: bool)
      modifies this
      ensures propertyType == BooleanType && !isNull && value == BooleanText(b)
    {
      propertyType, isNull := BooleanType, false;
      value := BooleanText(b);
    }

    /** `set_value(utility::uuid)`, given the GUID's text. */
    method SetGuid(guid: string)
      modifies this
      ensures propertyType == GuidType && !isNull && value == guid
    {
      propertyType, isNull := GuidType, false;
      value := guid;
    }

    method SetInt32(n: Int32)
      modifies this
      ensures propertyType == Int32Type && !isNull && value == DecimalText(n)
    {
      propertyType, isNull := Int32Type, false;
      value := DecimalText(n);
    }

    method SetInt64(n: Int64)
      modifies this
      ensures propertyType == Int64Type && !isNull && value == DecimalText(n)
    {
      propertyType, isNull := Int64Type, false;
      value := DecimalText(n);
    }

    method SetString(s: string)
      modifies this
      ensures propertyType == StringType && !isNull && value == s
    {
      propertyType, isNull := StringType, false;
      value := s;
    }
  }

  /** One property driven through the typed setters: each getter returns
      what its setter stored, and a getter of another type reports a
      mismatch instead of reinterpreting the text. Bytes come back through
      the corrected binary setter when the base64 decoder undoes the
      encoder on them. */
  method SetThenGet(b: bool, n: Int32, m: Int64, s: string, guid: string,
                    bytes: Bytes, toBase64: Bytes -> string, fromBase64: string -> Bytes)
    returns (rb: Result<bool, PropertyError>, rn: Result<Int32, PropertyError>,
             rm: Result<Int64, PropertyError>, rs: Result<string, PropertyError>,
             text: string, mismatch: Result<bool, PropertyError>,
             rg: Result<string, PropertyError>, rbytes: Result<Bytes, PropertyError>)
    requires fromBase64(toBase64(bytes)) == bytes
    ensures rb == Success(b) && rn == Success(n) && rm == Success(m)
    ensures rs == Success(s) && text == s
    ensures mismatch == Failure(TypeMismatch(BooleanType))
    ensures rg == Success(guid) && rbytes == Success(bytes)
  {
    var p := new EntityProperty();
    p.SetBoolean(b);
    rb := p.BooleanValue();
    p.SetInt32(n);
    rn := p.Int32Value(0);
    mismatch := p.BooleanValue();
    p.SetInt64(m);
    rm := p.Int64Value(0);
    p.SetString(s);
    rs := p.StringValue();
    text := p.Str();
    p.SetGuid(guid);
    rg := p.GuidValue();
    p.SetBinaryTyped(bytes, toBase64);
    rbytes := p.BinaryValue(fromBase64);
  }

  /** Bytes given to a default property: with the setter as written the
      tag stays "string" and reading the bytes back fails; with the typed
      setter they come back unchanged (given a base64 codec whose decoder
      undoes its encoder on these bytes). */
  method BinaryOnDefaultProperty(bytes: Bytes, toBase64: Bytes -> string, fromBase64: string -> Bytes)
    returns (asWritten: Result<Bytes, PropertyError>, typed: Result<Bytes, PropertyError>)
    requires fromBase64(toBase64(bytes)) == bytes
    ensures asWritten == Failure(TypeMismatch(BinaryType))
    ensures typed == Success(bytes)
  {
    var p := new EntityProperty();
    p.SetBinary(bytes, toBase64);
    asWritten := p.BinaryValue(fromBase64);
    var q := new EntityProperty();
    q.SetBinaryTyped(bytes, toBase64);
    typed := q.BinaryValue(fromBase64);
  }

  /** A property retagged as int32 while its text is still empty: the
      extraction stores nothing, so the getter hands back whatever the
      uninitialized local held rather than 0. */
  method EmptyTextAsInt32(uninitialized: Int32) returns (r: Result<Int32, PropertyError>)
    ensures r == Success(uninitialized)
  {
    var p := new EntityProperty();
    p.SetPropertyType(Int32Type);
    r := p.Int32Value(uninitialized);
  }
}
