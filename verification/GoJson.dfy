/**
 JSON values as trees, and the part of Go's encoding/json the service relies on: decoding
 into, and encoding from, a value whose shape is described by struct tags. `Ty` is the
 struct declaration, `Val` the Go value.

 Floating-point numbers stay abstract (`F`): their text is whatever `Floats` says, so a
 result about `Val<F>` holds for IEEE doubles and for exact reals alike.
 */
module GoJson {
  import opened Wrappers
  import opened Decimals

  datatype Json =
    | Null
    | Bool(b: bool)
    | Num(text: string)
    | Str(s: string)
    | Arr(items: seq<Json>)
    | Obj(fields: map<string, Json>)

  datatype Ty =
    | TString | TInt | TFloat | TBool
    | TAmount                         // ticketbutler.Amount, with its own marshaller
    | TRaw                            // json.RawMessage, omitempty
    | TPtr(elem: Ty) | TSlice(elem: Ty) | TMap(elem: Ty)
    | TStruct(fields: map<string, Ty>)

  datatype Val<+F> =
    | VString(s: string) | VInt(i: int) | VFloat(f: F) | VBool(b: bool)
    | VAmount(amount: F)
    | VRaw(raw: Option<Json>)
    | VPtr(target: Option<Val<F>>) | VSlice(elems: seq<Val<F>>) | VMap(entries: map<string, Val<F>>)
    | VStruct(fields: map<string, Val<F>>)

  /** How float64 values are read from and written to text. */
  datatype Floats<!F> = Floats(
    zero: F,
    parse: string -> Option<F>,       // strconv.ParseFloat
    show: F -> string,                // encoding/json on a float64
    amount: F -> string)              // FormatFloat(x, 'f', 2)

  // ---- decoding ----

  function Zero<F>(n: Floats<F>, ty: Ty): Val<F> {
    match ty
    case TString => VString("")
    case TInt => VInt(0)
    case TFloat => VFloat(n.zero)
    case TBool => VBool(false)
    case TAmount => VAmount(n.zero)
    case TRaw => VRaw(None)
    case TPtr(_) => VPtr(None)
    case TSlice(_) => VSlice([])
    case TMap(_) => VMap(map[])
    case TStruct(fields) => VStruct(map k | k in fields :: Zero(n, fields[k]))
  }

  /** Amount.UnmarshalJSON on the text between the quotes. */
  function AmountOf<F>(n: Floats<F>, text: string): Option<F> {
    if text == "" || text == "null" then Some(n.zero) else n.parse(text)
  }

  /** Whether json.Unmarshal accepts the tree for this type. */
  predicate Decodes<F>(n: Floats<F>, ty: Ty, j: Json)
    decreases j, ty
  {
    match ty
    case TString => j.Null? || j.Str?
    case TInt => j.Null? || (j.Num? && ParseInt64(j.text).Some?)
    case TFloat => j.Null? || (j.Num? && n.parse(j.text).Some?)
    case TBool => j.Null? || j.Bool?
    case TAmount => j.Null? || (j.Num? && AmountOf(n, j.text).Some?) || (j.Str? && AmountOf(n, j.s).Some?)
    case TRaw => true
    case TPtr(u) => j.Null? || Decodes(n, u, j)
    case TSlice(u) => j.Null? || (j.Arr? && forall i | 0 <= i < |j.items| :: Decodes(n, u, j.items[i]))
    case TMap(u) => j.Null? || (j.Obj? && forall k | k in j.fields :: Decodes(n, u, j.fields[k]))
    case TStruct(fields) =>
      j.Null? || (j.Obj? && forall k | k in j.fields && k in fields :: Decodes(n, fields[k], j.fields[k]))
  }

  /** The value json.Unmarshal produces: null and missing fields leave the zero value. */
  function Decoded<F>(n: Floats<F>, ty: Ty, j: Json): Val<F>
    requires Decodes(n, ty, j)
    decreases j, ty
  {
    match ty
    case TString => VString(if j.Null? then "" else j.s)
    case TInt => VInt(if j.Null? then 0 else ParseInt64(j.text).value)
    case TFloat => VFloat(if j.Null? then n.zero else n.parse(j.text).value)
    case TBool => VBool(if j.Null? then false else j.b)
    case TAmount =>
      VAmount(if j.Null? then n.zero else AmountOf(n, if j.Num? then j.text else j.s).value)
    case TRaw => VRaw(Some(j))
    case TPtr(u) => VPtr(if j.Null? then None else Some(Decoded(n, u, j)))
    case TSlice(u) =>
      VSlice(if j.Null? then []
             else seq(|j.items|, i requires 0 <= i < |j.items| => Decoded(n, u, j.items[i])))
    case TMap(u) => VMap(if j.Null? then map[] else map k | k in j.fields :: Decoded(n, u, j.fields[k]))
    case TStruct(fields) =>
      VStruct(map k | k in fields ::
        if j.Obj? && k in j.fields then Decoded(n, fields[k], j.fields[k]) else Zero(n, fields[k]))
  }

  /** null leaves every field at its zero value; a raw message keeps it. */
  lemma NullIsZero<F>(n: Floats<F>, ty: Ty)
    ensures Decodes(n, ty, Null)
    ensures Decoded(n, ty, Null) == if ty.TRaw? then VRaw(Some(Null)) else Zero(n, ty)
  {
    if ty.TStruct? {
      assert Decoded(n, ty, Null).fields == Zero(n, ty).fields;
    }
  }

  /** A field takes no value of another kind, and no number that does not fit it. */
  lemma OtherKindsFail<F>(n: Floats<F>, j: Json, elem: Ty, fields: map<string, Ty>)
    requires !j.Null?
    ensures Decodes(n, TString, j) <==> j.Str?
    ensures Decodes(n, TBool, j) <==> j.Bool?
    ensures Decodes(n, TInt, j) <==> j.Num? && ParseInt64(j.text).Some?
    ensures Decodes(n, TFloat, j) <==> j.Num? && n.parse(j.text).Some?
    ensures Decodes(n, TSlice(elem), j) ==> j.Arr?
    ensures Decodes(n, TMap(elem), j) ==> j.Obj?
    ensures Decodes(n, TStruct(fields), j) ==> j.Obj?
  {
  }

  /** An amount is a JSON string or a bare number; an empty one, `null` in quotes and null itself read as zero. */
  lemma AmountReads<F>(n: Floats<F>, text: string)
    ensures Decoded(n, TAmount, Null) == Decoded(n, TAmount, Str("")) == VAmount(n.zero)
    ensures Decoded(n, TAmount, Str("null")) == VAmount(n.zero)
    ensures text != "" && text != "null" ==>
      && (Decodes(n, TAmount, Str(text)) <==> n.parse(text).Some?)
      && (Decodes(n, TAmount, Num(text)) <==> n.parse(text).Some?)
      && (n.parse(text).Some? ==>
          Decoded(n, TAmount, Str(text)) == Decoded(n, TAmount, Num(text)) == VAmount(n.parse(text).value))
  {
    assert "null" != "";
  }

  // ---- encoding ----

  predicate Omitted<F>(v: Val<F>) {
    v.VRaw? && v.raw.None?
  }

  function Encode<F>(n: Floats<F>, v: Val<F>): Json {
    match v
    case VString(s) => Str(s)
    case VInt(i) => Num(IntText(i))
    case VFloat(f) => Num(n.show(f))
    case VBool(b) => Bool(b)
    case VAmount(f) => Str(n.amount(f))
    case VRaw(raw) => raw.GetOr(Null)
    case VPtr(target) => if target.None? then Null else Encode(n, target.value)
    case VSlice(elems) => Arr(seq(|elems|, i requires 0 <= i < |elems| => Encode(n, elems[i])))
    case VMap(entries) => Obj(map k | k in entries :: Encode(n, entries[k]))
    case VStruct(fields) => Obj(map k | k in fields && !Omitted(fields[k]) :: Encode(n, fields[k]))
  }

  predicate HasType<F>(ty: Ty, v: Val<F>) {
    match ty
    case TString => v.VString?
    case TInt => v.VInt? && FitsInt64(v.i)
    case TFloat => v.VFloat?
    case TBool => v.VBool?
    case TAmount => v.VAmount?
    case TRaw => v.VRaw?
    case TPtr(u) => v.VPtr? && (v.target.Some? ==> HasType(u, v.target.value))
    case TSlice(u) => v.VSlice? && forall i | 0 <= i < |v.elems| :: HasType(u, v.elems[i])
    case TMap(u) => v.VMap? && forall k | k in v.entries :: HasType(u, v.entries[k])
    case TStruct(fields) =>
      v.VStruct? && v.fields.Keys == fields.Keys && forall k | k in fields :: HasType(fields[k], v.fields[k])
  }

  /** Amounts are written as strings, other numbers bare; lists as arrays, maps and structs as objects. */
  lemma WrittenKinds<F>(n: Floats<F>, ty: Ty, v: Val<F>)
    requires HasType(ty, v)
    ensures ty.TAmount? || ty.TString? ==> Encode(n, v).Str?
    ensures ty.TInt? || ty.TFloat? ==> Encode(n, v).Num?
    ensures ty.TBool? ==> Encode(n, v).Bool?
    ensures ty.TSlice? ==> Encode(n, v).Arr? && |Encode(n, v).items| == |v.elems|
    ensures ty.TMap? ==> Encode(n, v).Obj? && Encode(n, v).fields.Keys == v.entries.Keys
    ensures ty.TStruct? ==> Encode(n, v).Obj? && Encode(n, v).fields.Keys <= ty.fields.Keys
  {
  }

  /** Pointers only to types that never encode as null, and raw messages only as struct fields. */
  predicate Sensible(ty: Ty) {
    match ty
    case TPtr(u) => (u.TString? || u.TAmount? || u.TStruct?) && Sensible(u)
    case TSlice(u) => !u.TRaw? && Sensible(u)
    case TMap(u) => !u.TRaw? && Sensible(u)
    case TStruct(fields) => forall k | k in fields :: Sensible(fields[k])
    case _ => true
  }

  /** Every float64 in the value is read back from its own text, and every printed amount is a number. */
  ghost predicate TextReadable<F>(n: Floats<F>, v: Val<F>) {
    match v
    case VFloat(f) => n.parse(n.show(f)) == Some(f)
    case VAmount(f) => AmountOf(n, n.amount(f)).Some?
    case VPtr(target) => target.Some? ==> TextReadable(n, target.value)
    case VSlice(elems) => forall i | 0 <= i < |elems| :: TextReadable(n, elems[i])
    case VMap(entries) => forall k | k in entries :: TextReadable(n, entries[k])
    case VStruct(fields) => forall k | k in fields :: TextReadable(n, fields[k])
    case _ => true
  }

  /** The value with every amount replaced by what its printed form reads back as. */
  function Reprinted<F>(n: Floats<F>, v: Val<F>): Val<F> {
    match v
    case VAmount(f) => VAmount(AmountOf(n, n.amount(f)).GetOr(f))
    case VPtr(target) => if target.None? then v else VPtr(Some(Reprinted(n, target.value)))
    case VSlice(elems) => VSlice(seq(|elems|, i requires 0 <= i < |elems| => Reprinted(n, elems[i])))
    case VMap(entries) => VMap(map k | k in entries :: Reprinted(n, entries[k]))
    case VStruct(fields) => VStruct(map k | k in fields :: Reprinted(n, fields[k]))
    case _ => v
  }

  /** What the round trip promises for one value. */
  ghost predicate ComesBack<F>(n: Floats<F>, ty: Ty, v: Val<F>) {
    Decodes(n, ty, Encode(n, v)) && Decoded(n, ty, Encode(n, v)) == Reprinted(n, v)
  }

  lemma SliceComesBack<F>(n: Floats<F>, u: Ty, elems: seq<Val<F>>)
    requires forall i | 0 <= i < |elems| :: ComesBack(n, u, elems[i])
    ensures ComesBack(n, TSlice(u), VSlice(elems))
  {
    var j := Encode(n, VSlice(elems));
    assert forall i | 0 <= i < |elems| :: j.items[i] == Encode(n, elems[i]);
    assert Decoded(n, TSlice(u), j).elems == Reprinted(n, VSlice(elems)).elems;
  }

  lemma MapDecodes<F>(n: Floats<F>, u: Ty, fields: map<string, Json>)
    requires forall k | k in fields :: Decodes(n, u, fields[k])
    ensures Decodes(n, TMap(u), Obj(fields))
    ensures Decoded(n, TMap(u), Obj(fields)) == VMap(map k | k in fields :: Decoded(n, u, fields[k]))
  {
  }

  function EncodedMap<F>(n: Floats<F>, entries: map<string, Val<F>>): map<string, Json> {
    map k | k in entries :: Encode(n, entries[k])
  }

  function ReprintedMap<F>(n: Floats<F>, entries: map<string, Val<F>>): map<string, Val<F>> {
    map k | k in entries :: Reprinted(n, entries[k])
  }

  lemma MapParts<F>(n: Floats<F>, entries: map<string, Val<F>>)
    ensures Encode(n, VMap(entries)) == Obj(EncodedMap(n, entries))
    ensures Reprinted(n, VMap(entries)) == VMap(ReprintedMap(n, entries))
  {
  }

  lemma MapComesBack<F>(n: Floats<F>, u: Ty, entries: map<string, Val<F>>)
    requires forall k | k in entries :: ComesBack(n, u, entries[k])
    ensures ComesBack(n, TMap(u), VMap(entries))
  {
    hide Encode, Reprinted, Decodes, Decoded;
    MapParts(n, entries);
    MapDecodes(n, u, EncodedMap(n, entries));
    var fields, want := EncodedMap(n, entries), ReprintedMap(n, entries);
    assert (map k | k in fields :: Decoded(n, u, fields[k])) == want;
  }

  lemma StructComesBack<F>(n: Floats<F>, tys: map<string, Ty>, fields: map<string, Val<F>>)
    requires fields.Keys == tys.Keys
    requires forall k | k in fields && Omitted(fields[k]) :: tys[k] == TRaw
    requires forall k | k in fields && !Omitted(fields[k]) :: ComesBack(n, tys[k], fields[k])
    ensures ComesBack(n, TStruct(tys), VStruct(fields))
  {
    var j := Encode(n, VStruct(fields));
    assert Decodes(n, TStruct(tys), j);
    var got, want := Decoded(n, TStruct(tys), j).fields, Reprinted(n, VStruct(fields)).fields;
    assert got.Keys == want.Keys;
    forall k | k in tys ensures got[k] == want[k] {
      if Omitted(fields[k]) {
        assert k !in j.fields && got[k] == Zero(n, tys[k]);
        assert fields[k] == VRaw(None) && want[k] == Reprinted(n, fields[k]);
      } else {
        assert ComesBack(n, tys[k], fields[k]) && j.fields[k] == Encode(n, fields[k]);
        assert want[k] == Reprinted(n, fields[k]);
      }
    }
  }

  lemma LeafComesBack<F>(n: Floats<F>, ty: Ty, v: Val<F>)
    requires HasType(ty, v) && TextReadable(n, v) && !Omitted(v)
    requires !v.VPtr? && !v.VSlice? && !v.VMap? && !v.VStruct?
    ensures ComesBack(n, ty, v)
  {
    if v.VInt? { IntRoundTrip(v.i); }
    hide IntText, ParseInt64;
  }

  lemma PointerComesBack<F>(n: Floats<F>, u: Ty, target: Option<Val<F>>)
    requires Sensible(TPtr(u))
    requires target.Some? ==> HasType(u, target.value) && ComesBack(n, u, target.value)
    ensures ComesBack(n, TPtr(u), VPtr(target))
  {
    hide IntText, ParseInt64;
    if target.Some? { assert !Encode(n, target.value).Null?; }
  }

  /** Decoding what was encoded gives the value back, except that amounts went through their printed form. */
  lemma {:induction false} RoundTrip<F>(n: Floats<F>, ty: Ty, v: Val<F>)
    requires HasType(ty, v) && Sensible(ty) && TextReadable(n, v) && !Omitted(v)
    ensures ComesBack(n, ty, v)
    decreases v
  {
    hide Encode, Decodes, Decoded, Reprinted, ComesBack;
    match v
    case VPtr(target) =>
      if target.Some? { RoundTrip(n, ty.elem, target.value); }
      PointerComesBack(n, ty.elem, target);
    case VSlice(elems) =>
      forall i | 0 <= i < |elems| ensures ComesBack(n, ty.elem, elems[i]) { RoundTrip(n, ty.elem, elems[i]); }
      SliceComesBack(n, ty.elem, elems);
    case VMap(entries) =>
      forall k | k in entries ensures ComesBack(n, ty.elem, entries[k]) { RoundTrip(n, ty.elem, entries[k]); }
      MapComesBack(n, ty.elem, entries);
    case VStruct(fields) =>
      forall k | k in fields && !Omitted(fields[k]) ensures ComesBack(n, ty.fields[k], fields[k]) {
        RoundTrip(n, ty.fields[k], fields[k]);
      }
      StructComesBack(n, ty.fields, fields);
    case _ => LeafComesBack(n, ty, v);
  }

  /** Every amount in the value survives printing. */
  ghost predicate AmountsSurvive<F>(n: Floats<F>, v: Val<F>) {
    match v
    case VAmount(f) => AmountOf(n, n.amount(f)) == Some(f)
    case VPtr(target) => target.Some? ==> AmountsSurvive(n, target.value)
    case VSlice(elems) => forall i | 0 <= i < |elems| :: AmountsSurvive(n, elems[i])
    case VMap(entries) => forall k | k in entries :: AmountsSurvive(n, entries[k])
    case VStruct(fields) => forall k | k in fields :: AmountsSurvive(n, fields[k])
    case _ => true
  }

  /** Reprinting changes nothing exactly when every amount survives printing. */
  lemma {:induction false} ReprintedSame<F>(n: Floats<F>, v: Val<F>)
    requires TextReadable(n, v)
    ensures Reprinted(n, v) == v <==> AmountsSurvive(n, v)
  {
    match v
    case VPtr(target) => if target.Some? { ReprintedSame(n, target.value); }
    case VSlice(elems) =>
      forall i | 0 <= i < |elems|
        ensures Reprinted(n, elems[i]) == elems[i] <==> AmountsSurvive(n, elems[i])
      { ReprintedSame(n, elems[i]); }
      var again := Reprinted(n, v).elems;
      assert forall i | 0 <= i < |elems| :: again[i] == Reprinted(n, elems[i]);
    case VMap(entries) =>
      forall k | k in entries
        ensures Reprinted(n, entries[k]) == entries[k] <==> AmountsSurvive(n, entries[k])
      { ReprintedSame(n, entries[k]); }
      var again := Reprinted(n, v).entries;
      assert forall k | k in entries :: again[k] == Reprinted(n, entries[k]);
    case VStruct(fields) =>
      forall k | k in fields
        ensures Reprinted(n, fields[k]) == fields[k] <==> AmountsSurvive(n, fields[k])
      { ReprintedSame(n, fields[k]); }
      var again := Reprinted(n, v).fields;
      assert forall k | k in fields :: again[k] == Reprinted(n, fields[k]);
    case _ =>
  }

  /** No amounts in a type, so nothing of its values is rounded. */
  predicate NoAmounts(ty: Ty) {
    match ty
    case TAmount => false
    case TPtr(u) => NoAmounts(u)
    case TSlice(u) => NoAmounts(u)
    case TMap(u) => NoAmounts(u)
    case TStruct(fields) => forall k | k in fields :: NoAmounts(fields[k])
    case _ => true
  }

  lemma {:induction false} NoAmountsSurvive<F>(n: Floats<F>, ty: Ty, v: Val<F>)
    requires NoAmounts(ty) && HasType(ty, v)
    ensures AmountsSurvive(n, v)
    decreases v
  {
    match ty
    case TPtr(u) => if v.target.Some? { NoAmountsSurvive(n, u, v.target.value); }
    case TSlice(u) =>
      forall i | 0 <= i < |v.elems| ensures AmountsSurvive(n, v.elems[i]) { NoAmountsSurvive(n, u, v.elems[i]); }
    case TMap(u) =>
      forall k | k in v.entries ensures AmountsSurvive(n, v.entries[k]) { NoAmountsSurvive(n, u, v.entries[k]); }
    case TStruct(fields) =>
      forall k | k in fields ensures AmountsSurvive(n, v.fields[k]) { NoAmountsSurvive(n, fields[k], v.fields[k]); }
    case _ =>
  }
}
