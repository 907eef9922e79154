/** The typed-value codec shared by the Go server and the TypeScript client, over
    JSON trees. Strings are sequences of UTF-16 code units. */
module TypedCodec {
  import opened Options
  import opened Values
  import opened Decimals

  /** `JNumber` holds the binary64 nearest to the token; an overflowing token is
      an infinity. */
  datatype Json =
    | JNull
    | JBool(flag: bool)
    | JString(text: seq<Unit>)
    | JNumber(number: Float64)
    | JArray(items: seq<Json>)
    | JObject(fields: map<seq<Unit>, Json>)

  datatype QueryValue =
    | QNull
    | QBool(flag: bool)
    | QText(text: seq<Unit>)
    | QInt(integer: int)
    | QFloat(floating: Float64)
    | QArray(items: seq<QueryValue>)
    | QObject(fields: map<seq<Unit>, QueryValue>)

  // ---------- strings ----------

  predicate HighSurrogate(u: Unit) {
    0xD800 <= u <= 0xDBFF
  }

  predicate LowSurrogate(u: Unit) {
    0xDC00 <= u <= 0xDFFF
  }

  /** Every surrogate is part of a high-low pair. */
  predicate WellFormed(s: seq<Unit>)
    decreases |s|
  {
    if s == [] then true
    else if HighSurrogate(s[0]) then |s| >= 2 && LowSurrogate(s[1]) && WellFormed(s[2..])
    else !LowSurrogate(s[0]) && WellFormed(s[1..])
  }

  method ValidString(s: seq<Unit>) returns (ok: bool)
    ensures ok <==> WellFormed(s)
  {
    var index := 0;
    while index < |s|
      invariant 0 <= index <= |s|
      invariant WellFormed(s) <==> WellFormed(s[index..])
    {
      var unit := s[index];
      if HighSurrogate(unit) {
        index := index + 1;
        if index >= |s| || !LowSurrogate(s[index]) {
          return false;
        }
        assert s[index - 1..][2..] == s[index + 1..];
      } else if LowSurrogate(unit) {
        return false;
      } else {
        assert s[index..][1..] == s[index + 1..];
      }
      index := index + 1;
    }
    return true;
  }

  lemma {:induction false} PlainWellFormed(s: seq<Unit>)
    requires forall i :: 0 <= i < |s| ==> s[i] < 0xD800
    ensures WellFormed(s)
    decreases |s|
  {
    if s != [] {
      PlainWellFormed(s[1..]);
    }
  }

  // ---------- names ----------

  datatype Kind = NullKind | BoolKind | StringKind | Int64Kind | Float64Kind | ArrayKind | ObjectKind

  const TYPE: seq<Unit> := [116, 121, 112, 101]
  const VALUE: seq<Unit> := [118, 97, 108, 117, 101]

  function Name(k: Kind): (s: seq<Unit>)
    ensures forall i :: 0 <= i < |s| ==> s[i] < 0xD800
  {
    match k
    case NullKind => [110, 117, 108, 108]
    case BoolKind => [98, 111, 111, 108]
    case StringKind => [115, 116, 114, 105, 110, 103]
    case Int64Kind => [105, 110, 116, 54, 52]
    case Float64Kind => [102, 108, 111, 97, 116, 54, 52]
    case ArrayKind => [97, 114, 114, 97, 121]
    case ObjectKind => [111, 98, 106, 101, 99, 116]
  }

  function KindOf(s: seq<Unit>): (k: Option<Kind>)
    ensures k.Some? ==> Name(k.value) == s
  {
    if s == Name(NullKind) then Some(NullKind)
    else if s == Name(BoolKind) then Some(BoolKind)
    else if s == Name(StringKind) then Some(StringKind)
    else if s == Name(Int64Kind) then Some(Int64Kind)
    else if s == Name(Float64Kind) then Some(Float64Kind)
    else if s == Name(ArrayKind) then Some(ArrayKind)
    else if s == Name(ObjectKind) then Some(ObjectKind)
    else None
  }

  lemma KindOfName(k: Kind)
    ensures KindOf(Name(k)) == Some(k)
  {
  }

  // ---------- encoding ----------

  function Tagged(k: Kind, value: Json): (j: Json) {
    JObject(map[TYPE := JString(Name(k)), VALUE := value])
  }

  const TAGGED_NULL: Json := JObject(map[TYPE := JString(Name(NullKind))])

  /** The Go tree of a normalized value: every node is tagged. */
  function Tree(v: QueryValue): (j: Json)
    decreases v
  {
    match v
    case QNull => TAGGED_NULL
    case QBool(b) => Tagged(BoolKind, JBool(b))
    case QText(s) => Tagged(StringKind, JString(s))
    case QInt(i) => Tagged(Int64Kind, JString(FormatInt(i)))
    case QFloat(f) => Tagged(Float64Kind, JNumber(f))
    case QArray(xs) => Tagged(ArrayKind, JArray(seq(|xs|, i requires 0 <= i < |xs| => Tree(xs[i]))))
    case QObject(m) => Tagged(ObjectKind, JObject(map k | k in m :: Tree(m[k])))
  }

  function FiniteNumber(f: Float64): (r: Option<Float64>) {
    if !f.Finite? then None
    else if f.exponent == 0 && f.fraction == 0 then Some(Finite(false, 0, 0))
    else Some(f)
  }

  /** The TypeScript encoder: validates while it tags. */
  function EncodeQueryValue(v: QueryValue): (r: Option<Json>)
    decreases v
  {
    match v
    case QNull => Some(TAGGED_NULL)
    case QBool(b) => Some(Tagged(BoolKind, JBool(b)))
    case QText(s) => if WellFormed(s) then Some(Tagged(StringKind, JString(s))) else None
    case QInt(i) => if InInt64(i) then Some(Tagged(Int64Kind, JString(FormatInt(i)))) else None
    case QFloat(f) =>
      var n := FiniteNumber(f);
      if n.None? then None else Some(Tagged(Float64Kind, JNumber(n.value)))
    case QArray(xs) =>
      if forall i :: 0 <= i < |xs| ==> EncodeQueryValue(xs[i]).Some?
      then Some(Tagged(ArrayKind,
                       JArray(seq(|xs|,
                                  i requires 0 <= i < |xs| && EncodeQueryValue(xs[i]).Some? =>
                                    EncodeQueryValue(xs[i]).value))))
      else None
    case QObject(m) =>
      if forall k :: k in m ==> WellFormed(k) && EncodeQueryValue(m[k]).Some?
      then Some(Tagged(ObjectKind,
                       JObject(map k | k in m && EncodeQueryValue(m[k]).Some? :: EncodeQueryValue(m[k]).value)))
      else None
  }

  /** Values that a codec hands out: well-formed text, int64, finite floats without
      a negative zero, at every depth. */
  predicate Normalized(v: QueryValue)
    decreases v
  {
    match v
    case QNull => true
    case QBool(_) => true
    case QText(s) => WellFormed(s)
    case QInt(i) => InInt64(i)
    case QFloat(f) => FiniteNumber(f) == Some(f)
    case QArray(xs) => forall i :: 0 <= i < |xs| ==> Normalized(xs[i])
    case QObject(m) => forall k :: k in m ==> WellFormed(k) && Normalized(m[k])
  }

  // ---------- decoding ----------

  predicate OnlyTypeAndValue(fields: map<seq<Unit>, Json>) {
    forall k :: k in fields ==> k == TYPE || k == VALUE
  }

  /** `json.Unmarshal` into a string: null leaves it empty. */
  function GoString(fields: map<seq<Unit>, Json>, key: seq<Unit>): (r: Option<seq<Unit>>) {
    if key !in fields then None
    else
      match fields[key]
      case JString(s) => Some(s)
      case JNull => Some([])
      case _ => None
  }

  function GoDecode(j: Json): (r: Option<QueryValue>)
    decreases j, 1
  {
    if !j.JObject? || !OnlyTypeAndValue(j.fields) then None
    else
      var kind := GoString(j.fields, TYPE);
      if kind.None? then None
      else if KindOf(kind.value) == Some(NullKind) then (if VALUE in j.fields then None else Some(QNull))
      else if VALUE !in j.fields || j.fields[VALUE].JNull? || KindOf(kind.value).None? then None
      else GoValue(KindOf(kind.value).value, j.fields[VALUE])
  }

  function GoValue(kind: Kind, value: Json): (r: Option<QueryValue>)
    decreases value, 0
  {
    match kind
    case NullKind => None
    case BoolKind => if value.JBool? then Some(QBool(value.flag)) else None
    case StringKind => if value.JString? then Some(QText(value.text)) else None
    case Int64Kind =>
      if !value.JString? || GoInt64(value.text).None? then None else Some(QInt(GoInt64(value.text).value))
    case Float64Kind =>
      if !value.JNumber? || FiniteNumber(value.number).None? then None
      else Some(QFloat(FiniteNumber(value.number).value))
    case ArrayKind =>
      if value.JArray? && forall i :: 0 <= i < |value.items| ==> GoDecode(value.items[i]).Some?
      then Some(QArray(seq(|value.items|,
                           i requires 0 <= i < |value.items| && GoDecode(value.items[i]).Some? =>
                             GoDecode(value.items[i]).value)))
      else None
    case ObjectKind =>
      if value.JObject? && forall k :: k in value.fields ==> GoDecode(value.fields[k]).Some?
      then Some(QObject(map k | k in value.fields && GoDecode(value.fields[k]).Some? ::
                          GoDecode(value.fields[k]).value))
      else None
  }

  /** Every string of the document, keys included, is free of lone surrogates. */
  predicate UnicodeValid(j: Json)
    decreases j
  {
    match j
    case JString(s) => WellFormed(s)
    case JArray(xs) => forall i :: 0 <= i < |xs| ==> UnicodeValid(xs[i])
    case JObject(m) => forall k :: k in m ==> WellFormed(k) && UnicodeValid(m[k])
    case _ => true
  }

  /** The Go entry point checks the whole document before decoding. */
  function DecodeTypedValue(j: Json): (r: Option<QueryValue>) {
    if UnicodeValid(j) then GoDecode(j) else None
  }

  /** The TypeScript decoder checks strings where it meets them. */
  function DecodeQueryValue(j: Json): (r: Option<QueryValue>)
    decreases j, 1
  {
    if !j.JObject? || !OnlyTypeAndValue(j.fields) || TYPE !in j.fields || !j.fields[TYPE].JString? then None
    else
      var kind := KindOf(j.fields[TYPE].text);
      if kind == Some(NullKind) then (if VALUE in j.fields then None else Some(QNull))
      else if VALUE !in j.fields || kind.None? then None
      else TsValue(kind.value, j.fields[VALUE])
  }

  function TsValue(kind: Kind, value: Json): (r: Option<QueryValue>)
    decreases value, 0
  {
    match kind
    case NullKind => None
    case BoolKind => if value.JBool? then Some(QBool(value.flag)) else None
    case StringKind => if value.JString? && WellFormed(value.text) then Some(QText(value.text)) else None
    case Int64Kind =>
      if !value.JString? || TsInt64(value.text).None? then None else Some(QInt(TsInt64(value.text).value))
    case Float64Kind =>
      if !value.JNumber? || FiniteNumber(value.number).None? then None
      else Some(QFloat(FiniteNumber(value.number).value))
    case ArrayKind =>
      if value.JArray? && forall i :: 0 <= i < |value.items| ==> DecodeQueryValue(value.items[i]).Some?
      then Some(QArray(seq(|value.items|,
                           i requires 0 <= i < |value.items| && DecodeQueryValue(value.items[i]).Some? =>
                             DecodeQueryValue(value.items[i]).value)))
      else None
    case ObjectKind =>
      if value.JObject? && forall k :: k in value.fields ==> WellFormed(k) && DecodeQueryValue(value.fields[k]).Some?
      then Some(QObject(map k | k in value.fields && DecodeQueryValue(value.fields[k]).Some? ::
                          DecodeQueryValue(value.fields[k]).value))
      else None
  }

  // ---------- round trip ----------

  lemma FormatPlain(i: int)
    requires InInt64(i)
    ensures WellFormed(FormatInt(i))
  {
    if i < 0 {
      DigitsSpell(-i);
    } else {
      DigitsSpell(i);
    }
    PlainWellFormed(FormatInt(i));
  }

  lemma TaggedUnicode(k: Kind, value: Json)
    ensures UnicodeValid(Tagged(k, value)) <==> UnicodeValid(value)
  {
    PlainWellFormed(TYPE);
    PlainWellFormed(VALUE);
    PlainWellFormed(Name(k));
    FieldsUnicode(map[TYPE := JString(Name(k)), VALUE := value], JString(Name(k)), value);
  }

  lemma FieldsUnicode(fields: map<seq<Unit>, Json>, kind: Json, value: Json)
    requires fields == map[TYPE := kind, VALUE := value] && WellFormed(TYPE) && WellFormed(VALUE) && UnicodeValid(kind)
    ensures UnicodeValid(JObject(fields)) <==> UnicodeValid(value)
  {
    assert TYPE != VALUE && fields[TYPE] == kind && fields[VALUE] == value;
  }

  lemma DecodeTagged(k: Kind, value: Json)
    requires k != NullKind && !value.JNull?
    ensures GoDecode(Tagged(k, value)) == GoValue(k, value)
  {
    KindOfName(k);
    var fields := Tagged(k, value).fields;
    assert TYPE != VALUE && fields[TYPE] == JString(Name(k)) && fields[VALUE] == value;
  }
}
