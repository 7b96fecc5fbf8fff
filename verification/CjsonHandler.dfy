/** The JSON handler: typed reads, override-or-add and merge on text buffers. */
module CjsonHandler {
  import opened CText
  import opened Decimal
  import opened Json
  import opened JsonText
  import opened JsonMerge

  /** The bits OVERRIDE, INTPARSE and OBJPARSE. */
  datatype Flags = Flags(overwrite: bool, intParse: bool, objParse: bool)

  const OVERRIDE := Flags(true, false, false)
  const OVERRIDE_INT := Flags(true, true, false)
  const OVERRIDE_OBJ := Flags(true, false, true)

  // ----- reading -------------------------------------------------------------------------

  function Member(j: Json, k: CString): Option<Json> {
    if j.Obj? then Lookup(j.ms, k) else None
  }

  /** A value as the handler copies it out: a string as it is, a number by `%f`, an object printed;
      it copies nothing else. */
  function ValueText(j: Json): Option<CString> {
    match j
    case Str(s) => Some(s)
    case Num(d) => Some(FloatText(d))
    case Obj(_) => Some(Text(j))
    case Word(_) => None
  }

  function GetMember(j: Json, k: CString): Option<CString> {
    match Member(j, k) case None => None case Some(v) => ValueText(v)
  }

  /** The value text of a key, if the buffer parses and has the key with a value to copy. */
  function Get(text: CString, k: CString): Option<CString> {
    match Parse(text) case None => None case Some(j) => GetMember(j, k)
  }

  // ----- adding --------------------------------------------------------------------------

  /** The item that INTPARSE makes of a value text: a number unless it reads as zero; cJSON prints
      a number that is not finite as null. */
  function IntItem(text: CString): Json {
    match Atof(text)
    case Finite(d) => if d.m == 0 then Str(text) else Num(d)
    case NotFinite => Word(Null)
  }

  /** The item made from a value text; None where the handler reports an error. */
  function MakeValue(text: CString, flags: Flags): Option<Json> {
    if flags.intParse && !IntItem(text).Str? then Some(IntItem(text))
    else if flags.objParse then Parse(text)
    else Some(Str(text))
  }

  datatype AddResult = Added(text: CString) | Kept | Failed

  /** Adding to an item that is not an object leaves its printed form alone. */
  function AddItem(j: Json, k: CString, v: Json): Json {
    if j.Obj? then Obj(Override(j.ms, k, v)) else j
  }

  /** Text that does not parse counts as a new object. */
  function Root(text: CString): Json {
    match Parse(text) case Some(j) => j case None => Obj(Nil)
  }

  function Add(text: CString, k: CString, value: CString, flags: Flags): AddResult {
    match MakeValue(value, flags)
    case None => Failed
    case Some(v) =>
      if Member(Root(text), k).Some? && !flags.overwrite then Kept
      else Added(Text(AddItem(Root(text), k, v)))
  }

  // ----- the handler's operations on buffers ---------------------------------------------

  /** A character buffer that the handler rewrites. */
  class Buffer {
    var text: CString

    constructor (t: CString)
      ensures text == t
    {
      text := t;
    }
  }

  /** get_value_of_key_from_json_string: 0 with the value's text, 1 without a value to copy under the
      key, -1 on bad text. */
  method GetValueOfKey(text: CString, key: CString) returns (rc: int, value: CString)
    ensures rc == 0 <==> Get(text, key).Some?
    ensures rc == 0 ==> Get(text, key) == Some(value)
    ensures rc == -1 <==> Parse(text).None?
    ensures rc in {0, 1, -1}
  {
    var root := Parse(text);
    if root.None? { return -1, ""; }
    var item := Member(root.value, key);
    if item.None? { return 1, ""; }
    match item.value {
      case Str(s) => return 0, s;
      case Num(d) => return 0, FloatText(d);
      case Obj(_) => return 0, Text(item.value);
      case Word(_) => return 1, "";
    }
  }

  /** cjson_add_key_value_to_json_string. */
  method AddKeyValue(b: Buffer, key: CString, value: CString, flags: Flags) returns (rc: int)
    modifies b
    ensures match Add(old(b.text), key, value, flags)
            case Added(t) => rc == 0 && b.text == t
            case Kept => rc == 0 && b.text == old(b.text)
            case Failed => rc == 1 && b.text == old(b.text)
  {
    var parsed := Parse(b.text);
    var root := if parsed.Some? then parsed.value else Obj(Nil);
    var item: Json;
    var number := Atof(value);
    if flags.intParse && (number.NotFinite? || number.d.m != 0) {
      item := if number.Finite? then Num(number.d) else Word(Null);
    } else if flags.objParse {
      var inner := Parse(value);
      if inner.None? { return 1; }
      item := inner.value;
    } else {
      item := Str(value);
    }
    if Member(root, key).Some? {
      if !flags.overwrite { return 0; }
      root := Obj(DeleteFold(root.ms, key));
    }
    if root.Obj? { root := Obj(Append(root.ms, key, item)); }
    b.text := Text(root);
    return 0;
  }

  /** The children of an item: only objects have members. */
  function Children(j: Json): Members { if j.Obj? then j.ms else Nil }

  function Merged(a: Json, b: Json): Json {
    if a.Obj? then Obj(MergeFold(a.ms, Children(b))) else a
  }

  /** merge_json_strings: the loop over the second object's members. */
  method MergeJsonStrings(first: CString, second: CString, merged: Buffer) returns (rc: int)
    modifies merged
    ensures rc == 0 <==> Parse(first).Some? && Parse(second).Some?
    ensures merged.text == if rc == 0 then Text(Merged(Parse(first).value, Parse(second).value))
                           else old(merged.text)
  {
    var a, b := Parse(first), Parse(second);
    if a.None? || b.None? { return 1; }
    var target := a.value;
    var current := Children(b.value);
    while current.Cons?
      invariant a.value.Obj? <==> target.Obj?
      invariant !target.Obj? ==> target == a.value
      invariant target.Obj? ==> MergeFold(target.ms, current) == Merged(a.value, b.value).ms
      decreases current
    {
      if Member(target, current.key).Some? {
        target := Obj(DeleteFold(target.ms, current.key));
      }
      if target.Obj? { target := Obj(Append(target.ms, current.key, current.val)); }
      current := current.rest;
    }
    merged.text := Text(target);
    return 0;
  }

  /** The merged text reads back as the first object's other members followed by the second's. */
  lemma {:induction false} MergedTextReads(a: Members, b: Members)
    requires Compatible(a, b)
    ensures Parse(Text(Merged(Obj(a), Obj(b)))) == Some(Obj(Concat(Without(a, Keys(b)), b)))
  {
    MergeClosedForm(a, b);
    RoundTrip(Merged(Obj(a), Obj(b)));
  }

  // ----- number text ---------------------------------------------------------------------

  /** A non-zero count is stored as a number, zero as the string "0" (it fails the non-zero test). */
  function CountItem(n: int): Json { if n == 0 then Str("0") else Number(n) }

  lemma {:induction false} MakeCount(n: int)
    ensures IntItem(IntText(n)) == CountItem(n)
    ensures MakeValue(IntText(n), OVERRIDE_INT) == Some(CountItem(n))
  {
    DecTextReads(Int(n));
    IntTextIsDec(n);
  }

  /** A number the getter copied out is stored as the same number again if and only if it is not zero
      and six places are enough for it. */
  lemma {:induction false} NumberPassesOnIff(d: Decimal)
    ensures MakeValue(FloatText(d), OVERRIDE_INT) == Some(Num(d)) <==> d.m != 0 && d.e <= 6
  {
    FloatTextReads(d);
    FloatTextExactIff(d);
  }

  predicate Int32(n: int) { -0x8000_0000 <= n < 0x8000_0000 }

  /** Storing the text of any int with INTPARSE, reading it back and applying `atoi` gives the int. */
  lemma {:induction false} CountRoundTrip(n: int)
    ensures ValueText(CountItem(n)).Some? && Atoi(ValueText(CountItem(n)).value) == n
  {
    if n == 0 {
      AtoiIntText(0, "");
      assert IntText(0) + "" == "0";
    } else {
      NumberReads(n);
    }
  }

  lemma {:induction false} NumberReads(n: int)
    ensures Atoi(FloatText(Int(n))) == n
  {
    FloatTextInt(n);
    AtoiIntText(n, ".000000");
  }

  /** ... and for an `int` of 32 bits the copied text fits the 20-byte buffer, terminator included. */
  lemma {:induction false} CountTextFits(n: int)
    requires Int32(n)
    ensures |ValueText(CountItem(n)).value| + 1 <= 20
  {
    FloatTextInt(n);
    assert Pow10(10) == 10 * Pow10(9) && Pow10(9) == 10 * Pow10(8) && Pow10(8) == 10 * Pow10(7)
        && Pow10(7) == 10 * Pow10(6) && Pow10(6) == 10 * Pow10(5) && Pow10(5) == 10 * Pow10(4)
        && Pow10(4) == 10 * Pow10(3) && Pow10(3) == 10 * Pow10(2) && Pow10(2) == 10 * Pow10(1);
    NatTextFits(if n < 0 then -n else n, 10);
  }

  /** The whole trip through a stored buffer: add a count under a key, read the key, apply `atoi`. */
  lemma {:induction false} StoredCountReadsBack(text: CString, k: CString, n: int)
    requires Root(text).Obj? && OverrideSafe(Root(text).ms, k)
    ensures var r := Add(text, k, IntText(n), OVERRIDE_INT);
            r.Added? && Get(r.text, k).Some? && Atoi(Get(r.text, k).value) == n
  {
    MakeCount(n);
    CountRoundTrip(n);
    var j := AddItem(Root(text), k, CountItem(n));
    RoundTrip(j);
    OverrideLookup(Root(text).ms, k, CountItem(n), k);
  }
}
