/** Query filters: normalization and evaluation. */
module Filters {
  import opened Options
  import opened Bytes
  import opened Values

  datatype Op = Eq | Ne | Gt | Gte | Lt | Lte | In | Contains | InvalidOp(text: seq<Byte>)

  datatype Filter = Filter(field: seq<Byte>, op: Op, value: Value)

  // ---------- admission ----------

  predicate ControlAt(field: seq<Byte>, i: nat)
    requires i < |field|
  {
    field[i] < 0x20 || field[i] == 0x7F ||
    (field[i] == 0xC2 && i + 1 < |field| && 0x80 <= field[i + 1] <= 0x9F)
  }

  /** A literal top-level field name: nonempty UTF-8 without dots or controls. */
  predicate ValidField(field: seq<Byte>) {
    && field != []
    && ValidUtf8(field)
    && 0x2E !in field
    && forall i :: 0 <= i < |field| ==> !ControlAt(field, i)
  }

  predicate IsRangeValue(v: Value) {
    v.Integer? || v.Floating? || v.Text?
  }

  predicate IsRangeOp(op: Op) {
    op.Gt? || op.Gte? || op.Lt? || op.Lte?
  }

  predicate SameRangeFamily(a: Value, b: Value) {
    match a
    case Text(_) => b.Text?
    case Integer(_) => b.Integer? || b.Floating?
    case Floating(_) => b.Integer? || b.Floating?
    case _ => false
  }

  /** The scalar key, or the empty string (which is no key) for other values. */
  function KeyOf(v: Value): (k: seq<Byte>)
    ensures k == [] <==> ScalarKey(v).None?
  {
    if ScalarKey(v).Some? then ScalarKey(v).value else []
  }

  function KeySet(items: seq<Value>): (r: set<seq<Byte>>) {
    set v | v in items :: KeyOf(v)
  }

  /** First occurrences, one per scalar key. */
  function Distinct(items: seq<Value>): (r: seq<Value>) {
    if items == [] then []
    else
      var rest, last := items[..|items| - 1], items[|items| - 1];
      if KeyOf(last) in KeySet(rest) then Distinct(rest) else Distinct(rest) + [last]
  }

  predicate AllScalar(items: seq<Value>) {
    forall i :: 0 <= i < |items| ==> ScalarKey(items[i]).Some?
  }

  function NormalizedOperand(op: Op, v: Value): (r: Option<Value>)
  {
    match op
    case In => if v.Items? && AllScalar(v.items) then Some(Items(Distinct(v.items))) else None
    case InvalidOp(_) => None
    case _ =>
      if IsRangeOp(op) then (if IsRangeValue(v) then Some(v) else None)
      else if ScalarKey(v).Some? then Some(v) else None
  }

  function NormalizedFilter(f: Filter): (r: Option<Filter>) {
    if !ValidField(f.field) || f.op.InvalidOp? || Normalize(f.value).None? then None
    else
      match NormalizedOperand(f.op, Normalize(f.value).value)
      case None => None
      case Some(v) => Some(f.(value := v))
  }

  function NormalizedFilters(filters: seq<Filter>): (r: Option<seq<Filter>>) {
    if forall i :: 0 <= i < |filters| ==> NormalizedFilter(filters[i]).Some?
    then Some(seq(|filters|,
                  i requires 0 <= i < |filters| && NormalizedFilter(filters[i]).Some? =>
                    NormalizedFilter(filters[i]).value))
    else None
  }

  // ---------- normalization, as the loops do it ----------

  method UniqueMembers(items: seq<Value>) returns (r: Option<seq<Value>>)
    ensures r == if AllScalar(items) then Some(Distinct(items)) else None
  {
    var unique: seq<Value> := [];
    var seen: set<seq<Byte>> := {};
    var i := 0;
    while i < |items|
      invariant 0 <= i <= |items|
      invariant AllScalar(items[..i])
      invariant unique == Distinct(items[..i])
      invariant seen == KeySet(items[..i])
    {
      DistinctStep(items, i);
      if ScalarKey(items[i]).None? {
        return None;
      }
      var key := ScalarKey(items[i]).value;
      if key !in seen {
        unique := unique + [items[i]];
        seen := seen + {key};
      }
      i := i + 1;
    }
    assert items[..i] == items;
    return Some(unique);
  }

  lemma DistinctStep(items: seq<Value>, i: nat)
    requires i < |items|
    ensures KeySet(items[..i + 1]) == KeySet(items[..i]) + {KeyOf(items[i])}
    ensures Distinct(items[..i + 1]) ==
            if KeyOf(items[i]) in KeySet(items[..i]) then Distinct(items[..i]) else Distinct(items[..i]) + [items[i]]
    ensures AllScalar(items[..i]) && ScalarKey(items[i]).Some? ==> AllScalar(items[..i + 1])
  {
    assert items[..i + 1] == items[..i] + [items[i]];
    KeySetAppend(items[..i], items[i]);
  }

  lemma KeySetAppend(items: seq<Value>, v: Value)
    ensures KeySet(items + [v]) == KeySet(items) + {KeyOf(v)}
    ensures Distinct(items + [v]) == if KeyOf(v) in KeySet(items) then Distinct(items) else Distinct(items) + [v]
  {
    var more := items + [v];
    assert more[..|items|] == items;
    assert forall x :: x in more <==> x in items || x == v;
  }

  method NormalizeFilters(filters: seq<Filter>) returns (r: Option<seq<Filter>>)
    ensures r == NormalizedFilters(filters)
  {
    var out: seq<Filter> := [];
    var i := 0;
    while i < |filters|
      invariant 0 <= i == |out| <= |filters|
      invariant forall j :: 0 <= j < i ==> NormalizedFilter(filters[j]) == Some(out[j])
    {
      var f := filters[i];
      if !ValidField(f.field) || f.op.InvalidOp? {
        return None;
      }
      var value := Normalize(f.value);
      if value.None? {
        return None;
      }
      var operand := value.value;
      if f.op.In? {
        if !operand.Items? {
          return None;
        }
        var unique := UniqueMembers(operand.items);
        if unique.None? {
          return None;
        }
        operand := Items(unique.value);
      } else if IsRangeOp(f.op) {
        if !IsRangeValue(operand) {
          return None;
        }
      } else if ScalarKey(operand).None? {
        return None;
      }
      out := out + [Filter(f.field, f.op, operand)];
      i := i + 1;
    }
    assert NormalizedFilters(filters).value == out;
    return Some(out);
  }

  // ---------- evaluation ----------

  predicate AnyEqual(items: seq<Value>, v: Value) {
    exists i :: 0 <= i < |items| && EqualValues(items[i], v)
  }

  /** Evaluation of a normalized filter; `None` is an error. */
  function Evaluate(f: Filter, v: Value, present: bool): (r: Option<bool>)
    requires f.op.In? ==> f.value.Items?
  {
    if !present then Some(false)
    else
      match Normalize(v)
      case None => None
      case Some(w) =>
        match f.op
        case Eq => Some(EqualValues(w, f.value))
        case Ne => Some(!EqualValues(w, f.value))
        case In => Some(exists i :: 0 <= i < |f.value.items| && EqualValues(w, f.value.items[i]))
        case Contains => Some(w.Items? && AnyEqual(w.items, f.value))
        case InvalidOp(_) => None
        case _ =>
          if !SameRangeFamily(w, f.value) then Some(false)
          else
            match CompareValues(w, f.value)
            case None => None
            case Some(c) =>
              Some(match f.op
                   case Gt => c > 0
                   case Gte => c >= 0
                   case Lt => c < 0
                   case _ => c <= 0)
  }

  function Field(doc: map<seq<Byte>, Value>, name: seq<Byte>): (v: Value) {
    if name in doc then doc[name] else Null
  }

  /** Evaluates the whole conjunction: every filter is validated before any field
      is read, and every field is read even after the first mismatch. */
  method EvaluateFilters(filters: seq<Filter>, doc: map<seq<Byte>, Value>) returns (r: Option<bool>)
    ensures r == Conjunction(filters, doc)
  {
    var normalized := NormalizeFilters(filters);
    if normalized.None? {
      FirstInvalid(filters, doc);
      return None;
    }
    var matched := true;
    var i := 0;
    assert filters[0..] == filters;
    while i < |filters|
      invariant 0 <= i <= |filters|
      invariant Conjunction(filters, doc) == And(Some(matched), Conjunction(filters[i..], doc))
    {
      var f := normalized.value[i];
      OutcomeMeaning(filters[i], doc);
      var result := Evaluate(f, Field(doc, f.field), f.field in doc);
      ConjunctionStep(filters, i, doc);
      if result.None? {
        return None;
      }
      matched := matched && result.value;
      i := i + 1;
    }
    return Some(matched);
  }

  // ---------- meaning ----------

  /** Equality of scalars by exact value. */
  predicate Same(a: Value, b: Value) {
    Scalar(a) && Scalar(b) && Order(a, b) == 0
  }

  /** Both strings or both numbers. */
  predicate Comparable(a: Value, b: Value) {
    Scalar(a) && Scalar(b) && ((a.Text? && b.Text?) || (Numeric(a) && Numeric(b)))
  }

  predicate RangeHolds(op: Op, c: int) {
    match op
    case Gt => c > 0
    case Gte => c >= 0
    case Lt => c < 0
    case _ => c <= 0
  }

  /** What a filter, as written, says about a present value, as stored. */
  predicate Holds(f: Filter, v: Value) {
    match f.op
    case Eq => Same(v, f.value)
    case Ne => !Same(v, f.value)
    case In => f.value.Items? && exists i :: 0 <= i < |f.value.items| && Same(v, f.value.items[i])
    case Contains => v.Items? && exists i :: 0 <= i < |v.items| && Same(v.items[i], f.value)
    case InvalidOp(_) => false
    case _ => Comparable(v, f.value) && RangeHolds(f.op, Order(v, f.value))
  }

  predicate Selects(f: Filter, doc: map<seq<Byte>, Value>) {
    f.field in doc && Holds(f, doc[f.field])
  }

  /** A filter fails outright when malformed, or when the stored value has no
      normal form; nothing else is an error. */
  predicate Erroneous(f: Filter, doc: map<seq<Byte>, Value>) {
    !Admissible(f) || (f.field in doc && Normalize(doc[f.field]).None?)
  }

  predicate Admissible(f: Filter) {
    && ValidField(f.field)
    && match f.op
       case In => f.value.Items? && forall i :: 0 <= i < |f.value.items| ==> Scalar(f.value.items[i])
       case InvalidOp(_) => false
       case _ => Scalar(f.value) && (IsRangeOp(f.op) ==> f.value.Text? || Numeric(f.value))
  }

  function Outcome(f: Filter, doc: map<seq<Byte>, Value>): (r: Option<bool>) {
    if Erroneous(f, doc) then None else Some(Selects(f, doc))
  }

  function And(a: Option<bool>, b: Option<bool>): (r: Option<bool>) {
    if a.None? || b.None? then None else Some(a.value && b.value)
  }

  function Conjunction(filters: seq<Filter>, doc: map<seq<Byte>, Value>): (r: Option<bool>) {
    if filters == [] then Some(true) else And(Outcome(filters[0], doc), Conjunction(filters[1..], doc))
  }

  /** An error exactly when some filter is erroneous; otherwise every filter selects. */
  lemma {:induction false} ConjunctionMeaning(filters: seq<Filter>, doc: map<seq<Byte>, Value>)
    ensures Conjunction(filters, doc).None? <==> exists i :: 0 <= i < |filters| && Erroneous(filters[i], doc)
    ensures Conjunction(filters, doc).Some? ==>
            (Conjunction(filters, doc).value <==> forall i :: 0 <= i < |filters| ==> Selects(filters[i], doc))
  {
    if filters != [] {
      var rest := filters[1..];
      ConjunctionMeaning(rest, doc);
      if i :| 0 <= i < |rest| && Erroneous(rest[i], doc) {
        assert Erroneous(filters[i + 1], doc);
      }
      if i :| 0 <= i < |filters| && Erroneous(filters[i], doc) {
        assert i > 0 ==> Erroneous(rest[i - 1], doc);
      }
      if Conjunction(filters, doc).Some? {
        assert forall i :: 0 <= i < |rest| ==> rest[i] == filters[i + 1];
        if Conjunction(filters, doc).value {
          forall i | 0 <= i < |filters| ensures Selects(filters[i], doc) {
            assert i > 0 ==> Selects(rest[i - 1], doc);
          }
        }
      }
    }
  }

  /** Normalizing changes neither a scalar's key nor its place in the order. */
  lemma NormalizeScalar(v: Value)
    requires Normalize(v).Some?
    ensures var w := Normalize(v).value;
            ScalarKey(w) == ScalarKey(v) && (Scalar(w) <==> Scalar(v)) && (w.Items? <==> v.Items?) &&
            (w.Text? <==> v.Text?) && (Numeric(w) <==> Numeric(v)) && (w.Integer? || w.Floating? <==> Numeric(v))
  {
    NormalizeCanonical(v);
    NormalizeFixed(Normalize(v).value);
    ScalarKeyHead(v);
    ScalarKeyHead(Normalize(v).value);
  }

  lemma SameByKey(a: Value, b: Value)
    ensures EqualValues(a, b) <==> Same(a, b)
    ensures Same(a, b) <==> ScalarKey(a).Some? && ScalarKey(a) == ScalarKey(b)
  {
    CompareValuesMeaning(a, b);
    ScalarKeyHead(a);
    ScalarKeyHead(b);
    if Scalar(a) && Scalar(b) {
      KeyIdentity(a, b);
    }
  }

  lemma SameNormalized(a: Value, b: Value)
    requires Normalize(a).Some? && Normalize(b).Some?
    ensures EqualValues(Normalize(a).value, Normalize(b).value) <==> Same(a, b)
  {
    NormalizeScalar(a);
    NormalizeScalar(b);
    SameByKey(a, b);
    SameByKey(Normalize(a).value, Normalize(b).value);
  }

  /** Every member's key survives among the distinct ones, and no key is new. */
  lemma {:induction false} DistinctKeys(items: seq<Value>)
    ensures KeySet(Distinct(items)) == KeySet(items)
  {
    if items != [] {
      var rest, last := items[..|items| - 1], items[|items| - 1];
      DistinctKeys(rest);
      assert items == rest + [last];
      KeySetAppend(rest, last);
      KeySetAppend(Distinct(rest), last);
    }
  }

  predicate KeysDiffer(items: seq<Value>) {
    forall i, j :: 0 <= i < j < |items| ==> KeyOf(items[i]) != KeyOf(items[j])
  }

  lemma {:induction false} DistinctDiffer(items: seq<Value>)
    ensures KeysDiffer(Distinct(items))
  {
    if items != [] {
      var n := |items| - 1;
      var rest, last := items[..n], items[n];
      DistinctDiffer(rest);
      DistinctKeys(rest);
    }
  }

  /** Members with pairwise different keys are all kept. */
  lemma {:induction false} DistinctFixed(items: seq<Value>)
    requires KeysDiffer(items)
    ensures Distinct(items) == items
  {
    if items != [] {
      var n := |items| - 1;
      var rest, last := items[..n], items[n];
      assert items == rest + [last];
      assert KeysDiffer(rest);
      DistinctFixed(rest);
      KeySetMember(rest, KeyOf(last));
      KeySetAppend(rest, last);
    }
  }

  lemma {:induction false} DistinctMembers(items: seq<Value>)
    ensures forall i :: 0 <= i < |Distinct(items)| ==> Distinct(items)[i] in items
  {
    if items != [] {
      DistinctMembers(items[..|items| - 1]);
    }
  }

  /** Exactly the well-formed filters are admitted: normalization never rejects
      another one and never lets a malformed one through. */
  lemma NormalizeFilterDefined(f: Filter)
    ensures NormalizedFilter(f).Some? <==> Admissible(f)
  {
    ScalarKeyHead(f.value);
    if Normalize(f.value).Some? {
      NormalizeScalar(f.value);
    }
    if f.op.In? && f.value.Items? {
      InDefined(f.value.items);
    }
  }

  lemma InDefined(items: seq<Value>)
    ensures (Normalize(Items(items)).Some? && AllScalar(Normalize(Items(items)).value.items)) <==>
            forall i :: 0 <= i < |items| ==> Scalar(items[i])
  {
    forall i | 0 <= i < |items| ensures Scalar(items[i]) <==> ScalarKey(items[i]).Some? {
      ScalarKeyHead(items[i]);
    }
    if Normalize(Items(items)).Some? {
      var ys := Normalize(Items(items)).value.items;
      forall i | 0 <= i < |items| ensures ScalarKey(ys[i]) == ScalarKey(items[i]) {
        NormalizeScalar(items[i]);
      }
    }
  }

  lemma InIdempotent(items: seq<Value>)
    requires Canonical(Items(items)) && AllScalar(items)
    ensures var d := Distinct(items);
            Normalize(Items(d)) == Some(Items(d)) && AllScalar(d) && Distinct(d) == d
  {
    var d := Distinct(items);
    DistinctMembers(items);
    DistinctDiffer(items);
    DistinctFixed(d);
    forall i | 0 <= i < |d| ensures Canonical(d[i]) && ScalarKey(d[i]).Some? {
      var j :| 0 <= j < |items| && items[j] == d[i];
    }
    NormalizeFixed(Items(d));
  }

  lemma NormalizeFilterIdempotent(f: Filter)
    requires NormalizedFilter(f).Some?
    ensures NormalizedFilter(NormalizedFilter(f).value) == NormalizedFilter(f)
  {
    var v := Normalize(f.value).value;
    NormalizeCanonical(f.value);
    NormalizeFixed(v);
    if f.op.In? {
      InIdempotent(v.items);
    }
  }

  /** Normalizing a normalized conjunction changes nothing. */
  lemma NormalizeFiltersIdempotent(filters: seq<Filter>)
    requires NormalizedFilters(filters).Some?
    ensures NormalizedFilters(NormalizedFilters(filters).value) == NormalizedFilters(filters)
  {
    var out := NormalizedFilters(filters).value;
    forall i | 0 <= i < |filters| ensures NormalizedFilter(out[i]) == Some(out[i]) {
      NormalizeFilterIdempotent(filters[i]);
    }
    assert NormalizedFilters(out).value == out;
  }

  lemma KeySetMember(items: seq<Value>, k: seq<Byte>)
    ensures k in KeySet(items) <==> exists i :: 0 <= i < |items| && KeyOf(items[i]) == k
  {
    if k in KeySet(items) {
      var v :| v in items && KeyOf(v) == k;
      var i :| 0 <= i < |items| && items[i] == v;
    }
  }

  /** Removing duplicate members keeps every membership answer. */
  lemma InMeaning(items: seq<Value>, v: Value)
    requires Normalize(v).Some? && forall i :: 0 <= i < |items| ==> Scalar(items[i])
    requires Normalize(Items(items)).Some?
    ensures var w, d := Normalize(v).value, Distinct(Normalize(Items(items)).value.items);
            (exists i :: 0 <= i < |d| && EqualValues(w, d[i])) <==> (exists i :: 0 <= i < |items| && Same(v, items[i]))
  {
    var w, ys := Normalize(v).value, Normalize(Items(items)).value.items;
    var d := Distinct(ys);
    DistinctKeys(ys);
    NormalizeScalar(v);
    forall i | 0 <= i < |items| ensures Same(v, items[i]) <==> KeyOf(w) != [] && KeyOf(ys[i]) == KeyOf(w) {
      NormalizeScalar(items[i]);
      SameByKey(v, items[i]);
    }
    forall i | 0 <= i < |d| ensures EqualValues(w, d[i]) <==> KeyOf(w) != [] && KeyOf(d[i]) == KeyOf(w) {
      SameByKey(w, d[i]);
    }
    KeySetMember(ys, KeyOf(w));
    KeySetMember(d, KeyOf(w));
  }

  lemma ContainsMeaning(v: Value, operand: Value)
    requires Normalize(v).Some? && Normalize(operand).Some?
    ensures var w := Normalize(v).value;
            (w.Items? && AnyEqual(w.items, Normalize(operand).value)) <==>
            (v.Items? && exists i :: 0 <= i < |v.items| && Same(v.items[i], operand))
  {
    NormalizeScalar(v);
    var w := Normalize(v).value;
    if v.Items? {
      forall i | 0 <= i < |v.items|
        ensures Same(v.items[i], operand) <==> EqualValues(w.items[i], Normalize(operand).value)
      {
        SameNormalized(v.items[i], operand);
      }
    }
  }

  lemma RangeMeaning(v: Value, operand: Value)
    requires Normalize(v).Some? && Normalize(operand).Some? && Scalar(operand)
    ensures var w, b := Normalize(v).value, Normalize(operand).value;
            (SameRangeFamily(w, b) <==> Comparable(v, operand)) &&
            (Comparable(v, operand) ==> CompareValues(w, b) == Some(Order(v, operand)))
  {
    NormalizeScalar(v);
    NormalizeScalar(operand);
    CompareValuesMeaning(v, operand);
  }

  /** A normalized filter means what the filter as written means, and its only
      evaluation error is a stored value that has no normal form. */
  lemma FilterMeaning(f: Filter, v: Value, present: bool)
    requires NormalizedFilter(f).Some?
    ensures var g := NormalizedFilter(f).value;
            (g.op.In? ==> g.value.Items?) &&
            Evaluate(g, v, present) ==
            if !present then Some(false) else if Normalize(v).None? then None else Some(Holds(f, v))
  {
    NormalizeFilterDefined(f);
    if present && Normalize(v).Some? {
      match f.op
      case In => InMeaning(f.value.items, v);
      case Contains => ContainsMeaning(v, f.value);
      case Eq => SameNormalized(v, f.value);
      case Ne => SameNormalized(v, f.value);
      case _ => RangeMeaning(v, f.value);
    }
  }

  lemma ConjunctionStep(filters: seq<Filter>, i: nat, doc: map<seq<Byte>, Value>)
    requires i < |filters|
    ensures Conjunction(filters[i..], doc) == And(Outcome(filters[i], doc), Conjunction(filters[i + 1..], doc))
  {
    assert filters[i..][1..] == filters[i + 1..];
  }

  lemma OutcomeMeaning(f: Filter, doc: map<seq<Byte>, Value>)
    requires NormalizedFilter(f).Some?
    ensures var g := NormalizedFilter(f).value;
            g.field == f.field && (g.op.In? ==> g.value.Items?) &&
            Evaluate(g, Field(doc, f.field), f.field in doc) == Outcome(f, doc)
  {
    NormalizeFilterDefined(f);
    FilterMeaning(f, Field(doc, f.field), f.field in doc);
  }

  lemma FirstInvalid(filters: seq<Filter>, doc: map<seq<Byte>, Value>)
    requires NormalizedFilters(filters).None?
    ensures Conjunction(filters, doc).None?
  {
    ConjunctionMeaning(filters, doc);
    var i :| 0 <= i < |filters| && NormalizedFilter(filters[i]).None?;
    NormalizeFilterDefined(filters[i]);
    assert Erroneous(filters[i], doc);
  }
}
