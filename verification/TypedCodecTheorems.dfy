/** Round trip of the typed-value codec and agreement of its two decoders. */
module TypedCodecTheorems {
  import opened Options
  import opened Decimals
  import opened TypedCodec

  // ---------- Go round trip ----------

  lemma DecodeNode(k: Kind, value: Json)
    requires k != NullKind && !value.JNull?
    ensures GoDecode(Tagged(k, value)) == GoValue(k, value)
    ensures UnicodeValid(Tagged(k, value)) <==> UnicodeValid(value)
  {
    TaggedUnicode(k, value);
    DecodeTagged(k, value);
  }

  lemma DecodeNullTree()
    ensures UnicodeValid(TAGGED_NULL) && GoDecode(TAGGED_NULL) == Some(QNull)
  {
    KindOfName(NullKind);
    PlainWellFormed(TYPE);
    PlainWellFormed(Name(NullKind));
    assert TYPE != VALUE;
  }

  lemma DecodeScalarTree(v: QueryValue)
    requires Normalized(v) && !v.QArray? && !v.QObject?
    ensures UnicodeValid(Tree(v)) && GoDecode(Tree(v)) == Some(v)
  {
    match v
    case QNull => DecodeNullTree();
    case QBool(b) => DecodeNode(BoolKind, JBool(b));
    case QText(s) => DecodeNode(StringKind, JString(s));
    case QInt(i) =>
      DecodeNode(Int64Kind, JString(FormatInt(i)));
      Int64Decoders(FormatInt(i), i);
      FormatPlain(i);
    case QFloat(f) => DecodeNode(Float64Kind, JNumber(f));
  }

  lemma DecodeArrayTree(xs: seq<QueryValue>, js: seq<Json>)
    requires |js| == |xs| && forall i :: 0 <= i < |xs| ==> UnicodeValid(js[i]) && GoDecode(js[i]) == Some(xs[i])
    ensures UnicodeValid(Tagged(ArrayKind, JArray(js))) && GoDecode(Tagged(ArrayKind, JArray(js))) == Some(QArray(xs))
  {
    DecodeNode(ArrayKind, JArray(js));
    assert GoValue(ArrayKind, JArray(js)).value.items == xs;
  }

  lemma ObjectValue(m: map<seq<Unit>, QueryValue>, js: map<seq<Unit>, Json>)
    requires js.Keys == m.Keys && forall k :: k in m ==> GoDecode(js[k]) == Some(m[k])
    ensures GoValue(ObjectKind, JObject(js)) == Some(QObject(m))
  {
    assert GoValue(ObjectKind, JObject(js)).value.fields == m;
  }

  lemma DecodeObjectTree(m: map<seq<Unit>, QueryValue>, js: map<seq<Unit>, Json>)
    requires js.Keys == m.Keys && forall k :: k in m ==> GoDecode(js[k]) == Some(m[k])
    requires forall k :: k in m ==> WellFormed(k) && UnicodeValid(js[k])
    ensures UnicodeValid(Tagged(ObjectKind, JObject(js))) &&
            GoDecode(Tagged(ObjectKind, JObject(js))) == Some(QObject(m))
  {
    ObjectValue(m, js);
    assert forall k :: k in js ==> k in m;
    DecodeNode(ObjectKind, JObject(js));
  }

  /** Decoding the tree of any normalized value gives it back, at any depth. */
  lemma {:induction false} TreeRoundTrip(v: QueryValue)
    requires Normalized(v)
    ensures UnicodeValid(Tree(v)) && DecodeTypedValue(Tree(v)) == Some(v)
    decreases v
  {
    match v
    case QArray(xs) =>
      forall i | 0 <= i < |xs| ensures UnicodeValid(Tree(xs[i])) && GoDecode(Tree(xs[i])) == Some(xs[i]) {
        TreeRoundTrip(xs[i]);
      }
      DecodeArrayTree(xs, seq(|xs|, i requires 0 <= i < |xs| => Tree(xs[i])));
    case QObject(m) =>
      forall k | k in m ensures UnicodeValid(Tree(m[k])) && GoDecode(Tree(m[k])) == Some(m[k]) {
        TreeRoundTrip(m[k]);
      }
      DecodeObjectTree(m, map k | k in m :: Tree(m[k]));
    case _ => DecodeScalarTree(v);
  }

  // ---------- the two decoders ----------

  lemma {:induction false} AgreeOnUnicode(j: Json)
    requires UnicodeValid(j)
    ensures GoDecode(j) == DecodeQueryValue(j)
    decreases j, 1
  {
    if j.JObject? && OnlyTypeAndValue(j.fields) && TYPE in j.fields && VALUE in j.fields {
      assert UnicodeValid(j.fields[VALUE]);
      var kind := GoString(j.fields, TYPE);
      if kind.Some? && KindOf(kind.value).Some? {
        AgreeOnValue(KindOf(kind.value).value, j.fields[VALUE]);
      }
    }
  }

  lemma {:induction false} AgreeOnValue(kind: Kind, value: Json)
    requires UnicodeValid(value)
    ensures GoValue(kind, value) == TsValue(kind, value)
    decreases value, 0
  {
    match value
    case JString(s) => Int64Decoders(s, 0);
    case JArray(xs) =>
      forall i | 0 <= i < |xs| ensures GoDecode(xs[i]) == DecodeQueryValue(xs[i]) {
        AgreeOnUnicode(xs[i]);
      }
      if kind == ArrayKind && GoValue(kind, value).Some? {
        assert GoValue(kind, value).value.items == TsValue(kind, value).value.items;
      }
    case JObject(m) =>
      forall k | k in m ensures GoDecode(m[k]) == DecodeQueryValue(m[k]) {
        AgreeOnUnicode(m[k]);
      }
      if kind == ObjectKind && GoValue(kind, value).Some? {
        assert GoValue(kind, value).value.fields == TsValue(kind, value).value.fields;
      }
    case _ =>
  }

  /** What the TypeScript decoder accepts has no lone surrogate anywhere. */
  lemma {:induction false} AcceptedIsUnicode(j: Json)
    requires DecodeQueryValue(j).Some?
    ensures UnicodeValid(j)
    decreases j, 1
  {
    PlainWellFormed(TYPE);
    PlainWellFormed(VALUE);
    var kind := KindOf(j.fields[TYPE].text).value;
    PlainWellFormed(Name(kind));
    assert UnicodeValid(j.fields[TYPE]);
    if VALUE in j.fields {
      AcceptedValueIsUnicode(kind, j.fields[VALUE]);
    }
  }

  lemma {:induction false} AcceptedValueIsUnicode(kind: Kind, value: Json)
    requires TsValue(kind, value).Some?
    ensures UnicodeValid(value)
    decreases value, 0
  {
    match value
    case JString(s) =>
      if kind == Int64Kind {
        Int64Decoders(s, TsInt64(s).value);
        FormatPlain(TsInt64(s).value);
      }
    case JArray(xs) =>
      forall i | 0 <= i < |xs| ensures UnicodeValid(xs[i]) {
        AcceptedIsUnicode(xs[i]);
      }
    case JObject(m) =>
      forall k | k in m ensures WellFormed(k) && UnicodeValid(m[k]) {
        AcceptedIsUnicode(m[k]);
      }
    case _ =>
  }

  /** Go and TypeScript accept the same documents and read the same values. */
  lemma DecodersAgree(j: Json)
    ensures DecodeTypedValue(j) == DecodeQueryValue(j)
  {
    if UnicodeValid(j) {
      AgreeOnUnicode(j);
    } else if DecodeQueryValue(j).Some? {
      AcceptedIsUnicode(j);
    }
  }

  // ---------- the two encoders ----------

  /** The normal form a codec assigns to a client value, if any. */
  function Canon(v: QueryValue): (r: Option<QueryValue>)
    decreases v
  {
    match v
    case QNull => Some(v)
    case QBool(_) => Some(v)
    case QText(s) => if WellFormed(s) then Some(v) else None
    case QInt(i) => if InInt64(i) then Some(v) else None
    case QFloat(f) => if FiniteNumber(f).Some? then Some(QFloat(FiniteNumber(f).value)) else None
    case QArray(xs) =>
      if forall i :: 0 <= i < |xs| ==> Canon(xs[i]).Some?
      then Some(QArray(seq(|xs|, i requires 0 <= i < |xs| && Canon(xs[i]).Some? => Canon(xs[i]).value)))
      else None
    case QObject(m) =>
      if forall k :: k in m ==> WellFormed(k) && Canon(m[k]).Some?
      then Some(QObject(map k | k in m && Canon(m[k]).Some? :: Canon(m[k]).value))
      else None
  }

  /** The client encoder accepts exactly the values with a normal form and emits
      the server's tree of that normal form. */
  lemma {:induction false} EncodersAgree(v: QueryValue)
    ensures EncodeQueryValue(v) == if Canon(v).None? then None else Some(Tree(Canon(v).value))
    ensures Canon(v).Some? ==> Normalized(Canon(v).value)
    decreases v
  {
    match v
    case QArray(xs) =>
      forall i | 0 <= i < |xs|
        ensures EncodeQueryValue(xs[i]) == (if Canon(xs[i]).None? then None else Some(Tree(Canon(xs[i]).value)))
        ensures Canon(xs[i]).Some? ==> Normalized(Canon(xs[i]).value)
      {
        EncodersAgree(xs[i]);
      }
      if Canon(v).Some? {
        var ys := Canon(v).value.items;
        assert forall i :: 0 <= i < |xs| ==> ys[i] == Canon(xs[i]).value;
        assert EncodeQueryValue(v).value.fields[VALUE].items == Tree(QArray(ys)).fields[VALUE].items;
        assert EncodeQueryValue(v).value == Tree(QArray(ys));
      }
    case QObject(m) =>
      forall k | k in m
        ensures EncodeQueryValue(m[k]) == (if Canon(m[k]).None? then None else Some(Tree(Canon(m[k]).value)))
        ensures Canon(m[k]).Some? ==> Normalized(Canon(m[k]).value)
      {
        EncodersAgree(m[k]);
      }
      if Canon(v).Some? {
        var n := Canon(v).value.fields;
        assert forall k :: k in m ==> n[k] == Canon(m[k]).value;
        assert EncodeQueryValue(v).value.fields[VALUE].fields == Tree(QObject(n)).fields[VALUE].fields;
        assert EncodeQueryValue(v).value == Tree(QObject(n));
      }
    case _ =>
  }

  /** Either decoder applied to either encoder's output yields the normal form. */
  lemma ClientServerRoundTrip(v: QueryValue)
    requires EncodeQueryValue(v).Some?
    ensures Canon(v).Some?
    ensures DecodeTypedValue(EncodeQueryValue(v).value) == Canon(v) == DecodeQueryValue(EncodeQueryValue(v).value)
  {
    EncodersAgree(v);
    TreeRoundTrip(Canon(v).value);
    DecodersAgree(EncodeQueryValue(v).value);
  }
}
