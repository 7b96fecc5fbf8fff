/** The shared state file and its three kinds of update, each a trip through text buffers. */
module StateFile {
  import opened CText
  import opened Json
  import opened JsonText
  import opened CjsonHandler

  const SUPPLIES: CString := "supplies"
  const ALERTS: CString := "alerts"
  const EMERGENCY: CString := "emergency"

  // ----- the updates as text transformations ---------------------------------------------

  /** Put a rewritten section back under its key. */
  function PutBack(text: CString, name: CString, section: AddResult): Option<CString> {
    match section
    case Added(t) =>
      (match Add(text, name, t, OVERRIDE_OBJ)
       case Added(t') => Some(t')
       case Kept => None
       case Failed => None)
    case Kept => None
    case Failed => None
  }

  /** The text of the supplies section with one item set. */
  function SectionText(supplies: CString, category: CString, key: CString, value: CString): Option<CString> {
    match Get(supplies, category)
    case None => None
    case Some(items) => PutBack(supplies, category, Add(items, key, value, OVERRIDE_INT))
  }

  /** What set_supply_status writes; None where it returns without writing. */
  function SupplyText(text: CString, category: CString, key: CString, value: CString): Option<CString> {
    match Get(text, SUPPLIES)
    case None => None
    case Some(supplies) =>
      match SectionText(supplies, category, key, value)
      case None => None
      case Some(t) => PutBack(text, SUPPLIES, Added(t))
  }

  /** What add_entry_to_json writes. */
  function AlertText(text: CString, entry: CString): Option<CString> {
    match Get(text, ALERTS)
    case None => None
    case Some(alerts) =>
      match Get(alerts, entry)
      case None => None
      case Some(count) =>
        PutBack(text, ALERTS, Add(alerts, entry, IntText(Atoi(count) + 1), OVERRIDE_INT))
  }

  /** What add_event_to_json writes. */
  function EventText(text: CString, key: CString, value: CString): Option<CString> {
    match Get(text, EMERGENCY)
    case None => None
    case Some(section) => PutBack(text, EMERGENCY, Add(section, key, value, OVERRIDE_INT))
  }

  // ----- the file and the routines that rewrite it ----------------------------------------

  /** Whether the file can be opened for reading and for writing, and how many bytes it can take. */
  datatype Disk = Disk(readable: bool, writable: bool, room: nat)

  datatype Saved = Saved(content: CString, ok: bool)

  /** What a routine leaves in the file when it wants to replace one text by another: on a disk without
      room for it, a part of the new text. */
  function Save(disk: Disk, before: CString, after: Option<CString>): Saved {
    if !disk.readable || after.None? || !disk.writable then Saved(before, false)
    else if |after.value| <= disk.room then Saved(after.value, true)
    else Saved(after.value[..disk.room], false)
  }

  class File {
    var content: CString
    var disk: Disk

    constructor (c: CString, d: Disk)
      ensures content == c && disk == d
    {
      content, disk := c, d;
    }

    /** read_file: an empty file is an error. */
    method Read() returns (rc: int, text: CString)
      ensures rc == 0 <==> disk.readable && content != ""
      ensures rc == 0 ==> text == content
    {
      if !disk.readable || content == "" { return 1, ""; }
      return 0, content;
    }

    /** write_file: an empty buffer is not written; the file is emptied before the text goes in. */
    method Write(text: CString) returns (rc: int)
      modifies this`content
      ensures text == "" ==> rc == 0 && content == old(content)
      ensures text != "" && disk.readable ==> Saved(content, rc == 0) == Save(disk, old(content), Some(text))
      ensures text != "" && !disk.writable ==> rc != 0 && content == old(content)
    {
      if text == "" { return 0; }
      if !disk.writable { return 1; }
      var n := if |text| <= disk.room then |text| else disk.room;
      content := text[..n];
      return if n == |text| then 0 else 1;
    }

    /** set_supply_status: the reply buffer ends up holding the stored text. */
    method SetSupplyStatus(category: CString, key: CString, value: CString, reply: Buffer) returns (rc: int)
      modifies this`content, reply
      ensures Saved(content, rc == 0) == Save(disk, old(content), SupplyText(old(content), category, key, value))
      ensures rc == 0 ==> reply.text == content
    {
      var rcRead, text := Read();
      if rcRead != 0 { ParseEmpty(); return 1; }
      reply.text := text;
      var rcSup, sup := GetValueOfKey(text, SUPPLIES);
      if rcSup != 0 { return 1; }
      var supplies := new Buffer(sup);
      var r := SetItem(supplies, category, key, value);
      if r != 0 { return 1; }
      r := AddKeyValue(reply, SUPPLIES, supplies.text, OVERRIDE_OBJ);
      if r != 0 { return 1; }
      AddedNotEmpty(text, SUPPLIES, supplies.text, OVERRIDE_OBJ);
      rc := Write(reply.text);
    }

    /** add_entry_to_json. */
    method AddEntry(entry: CString) returns (rc: int)
      modifies this`content
      ensures Saved(content, rc == 0) == Save(disk, old(content), AlertText(old(content), entry))
    {
      var rcRead, text := Read();
      if rcRead != 0 { ParseEmpty(); return 1; }
      var rcSec, section := GetValueOfKey(text, ALERTS);
      if rcSec != 0 { return 1; }
      var rcVal, count := GetValueOfKey(section, entry);
      if rcVal != 0 { return 1; }
      var value := Atoi(count) + 1;
      var alerts := new Buffer(section);
      var whole := new Buffer(text);
      var r := AddKeyValue(alerts, entry, IntText(value), OVERRIDE_INT);
      if r != 0 { return 1; }
      r := AddKeyValue(whole, ALERTS, alerts.text, OVERRIDE_OBJ);
      if r != 0 { return 1; }
      AddedNotEmpty(text, ALERTS, alerts.text, OVERRIDE_OBJ);
      rc := Write(whole.text);
    }

    /** add_event_to_json. */
    method AddEvent(key: CString, value: CString) returns (rc: int)
      modifies this`content
      ensures Saved(content, rc == 0) == Save(disk, old(content), EventText(old(content), key, value))
    {
      var rcRead, text := Read();
      if rcRead != 0 { ParseEmpty(); return 1; }
      var rcSec, sec := GetValueOfKey(text, EMERGENCY);
      if rcSec != 0 { return 1; }
      var section := new Buffer(sec);
      var whole := new Buffer(text);
      var r := AddKeyValue(section, key, value, OVERRIDE_INT);
      if r != 0 { return 1; }
      r := AddKeyValue(whole, EMERGENCY, section.text, OVERRIDE_OBJ);
      if r != 0 { return 1; }
      AddedNotEmpty(text, EMERGENCY, section.text, OVERRIDE_OBJ);
      rc := Write(whole.text);
    }
  }

  /** set_supply_status, on the text of its section. */
  method SetItem(supplies: Buffer, category: CString, key: CString, value: CString) returns (rc: int)
    modifies supplies
    ensures rc == 0 <==> SectionText(old(supplies.text), category, key, value).Some?
    ensures rc == 0 ==> Some(supplies.text) == SectionText(old(supplies.text), category, key, value)
  {
    var rcCat, cat := GetValueOfKey(supplies.text, category);
    if rcCat != 0 { return 1; }
    var items := new Buffer(cat);
    rc := AddKeyValue(items, key, value, OVERRIDE_INT);
    if rc != 0 { return 1; }
    rc := AddKeyValue(supplies, category, items.text, OVERRIDE_OBJ);
  }

  lemma ParseEmpty()
    ensures Parse("") == None
  {
  }

  lemma AddedNotEmpty(text: CString, k: CString, value: CString, flags: Flags)
    ensures Add(text, k, value, flags).Added? ==> Add(text, k, value, flags).text != ""
  {
    if Add(text, k, value, flags).Added? {
      PrintStarts(AddItem(Root(text), k, MakeValue(value, flags).value), 0, "");
    }
  }

  // ----- paths ---------------------------------------------------------------------------

  /** The value at a path of keys. */
  function At(j: Json, p: seq<CString>): Option<Json>
    decreases |p|
  {
    if p == [] then Some(j)
    else match Member(j, p[0]) case None => None case Some(v) => At(v, p[1..])
  }

  /** One tree update: every key of the path but the last must be there. */
  function PutAt(j: Json, path: seq<CString>, v: Json): Option<Json>
    requires path != []
    decreases |path|
  {
    if !j.Obj? then None
    else if |path| == 1 then Some(Obj(Override(j.ms, path[0], v)))
    else match Lookup(j.ms, path[0])
      case None => None
      case Some(child) =>
        match PutAt(child, path[1..], v)
        case None => None
        case Some(child') => Some(Obj(Override(j.ms, path[0], child')))
  }

  /** No key of the path is shadowed by one that differs only by case. */
  predicate SafePath(j: Json, path: seq<CString>)
    decreases |path|
  {
    path == [] || (j.Obj? && OverrideSafe(j.ms, path[0])
                   && (Lookup(j.ms, path[0]).Some? && |path| > 1 ==>
                         SafePath(Lookup(j.ms, path[0]).value, path[1..])))
  }

  /** The two paths part ways at some key. */
  predicate Diverge(p: seq<CString>, q: seq<CString>) {
    p != [] && q != [] && (p[0] != q[0] || Diverge(p[1..], q[1..]))
  }

  /** A tree update is seen at its path and below, and nowhere else. */
  lemma {:induction false} PutAtReads(j: Json, path: seq<CString>, v: Json, q: seq<CString>)
    requires path != [] && SafePath(j, path) && PutAt(j, path, v).Some?
    ensures At(PutAt(j, path, v).value, path + q) == At(v, q)
    ensures Diverge(q, path) ==> At(PutAt(j, path, v).value, q) == At(j, q)
    decreases |path|
  {
    var j' := PutAt(j, path, v).value;
    var k := path[0];
    var child' := Lookup(j'.ms, k);
    assert (path + q)[0] == k && (path + q)[1..] == path[1..] + q;
    if |path| == 1 {
      OverrideLookup(j.ms, k, v, k);
      assert path[1..] == [] && path[1..] + q == q;
      if Diverge(q, path) {
        assert !Diverge(q[1..], []);
        OverrideLookup(j.ms, k, v, q[0]);
        assert Member(j', q[0]) == Member(j, q[0]);
      }
    } else {
      var child := Lookup(j.ms, k).value;
      var put := PutAt(child, path[1..], v).value;
      OverrideLookup(j.ms, k, put, k);
      PutAtReads(child, path[1..], v, q);
      if Diverge(q, path) {
        OverrideLookup(j.ms, k, put, q[0]);
        if q[0] == k { PutAtReads(child, path[1..], v, q[1..]); }
      }
    }
  }

  /** `j'` is `j` with the value at `path` set to `v` and every path that parts from it unchanged. */
  ghost predicate OnlySet(j: Json, j': Json, path: seq<CString>, v: Json) {
    && At(j', path) == Some(v)
    && forall q :: Diverge(q, path) ==> At(j', q) == At(j, q)
  }

  lemma {:induction false} PutAtOnlySets(j: Json, path: seq<CString>, v: Json)
    requires path != [] && SafePath(j, path) && PutAt(j, path, v).Some?
    ensures OnlySet(j, PutAt(j, path, v).value, path, v)
  {
    PutAtReads(j, path, v, []);
    assert path + [] == path;
    forall q | Diverge(q, path) ensures At(PutAt(j, path, v).value, q) == At(j, q) {
      PutAtReads(j, path, v, q);
    }
  }

  // ----- sections survive the trip through text ------------------------------------------

  /** Reading an object member gives text that parses to the very same object. */
  lemma {:induction false} GetObject(text: CString, j: Json, k: CString)
    requires Parse(text) == Some(j) && Member(j, k).Some? && Member(j, k).value.Obj?
    ensures Get(text, k) == Some(Text(Member(j, k).value))
    ensures Parse(Text(Member(j, k).value)) == Member(j, k)
  {
    RoundTrip(Member(j, k).value);
  }

  lemma {:induction false} PutObject(text: CString, ms: Members, k: CString, v: Json)
    requires Parse(text) == Some(Obj(ms))
    ensures Add(text, k, Text(v), OVERRIDE_OBJ) == Added(Text(Obj(Override(ms, k, v))))
  {
    RoundTrip(v);
  }

  lemma {:induction false} AddToObject(text: CString, ms: Members, k: CString, value: CString, v: Json)
    requires Parse(text) == Some(Obj(ms)) && IntItem(value) == v
    ensures Add(text, k, value, OVERRIDE_INT) == Added(Text(Obj(Override(ms, k, v))))
  {
  }

  // ----- set_supply_status refines one path update ---------------------------------------

  function SupplyPath(category: CString, key: CString): seq<CString> { [SUPPLIES, category, key] }

  /** The members at a section of an object, if it is an object there. */
  predicate HasObject(ms: Members, k: CString) { Lookup(ms, k).Some? && Lookup(ms, k).value.Obj? }

  function Section(ms: Members, k: CString): Members
    requires HasObject(ms, k)
  {
    Lookup(ms, k).value.ms
  }

  /** The supplies section after one item of a category is set. */
  function EditCategory(supplies: Members, category: CString, key: CString, v: Json): Members
    requires HasObject(supplies, category)
  {
    Override(supplies, category, Obj(Override(Section(supplies, category), key, v)))
  }

  lemma PutAtSupply(top: Members, category: CString, key: CString, v: Json)
    requires HasObject(top, SUPPLIES) && HasObject(Section(top, SUPPLIES), category)
    ensures PutAt(Obj(top), SupplyPath(category, key), v)
         == Some(Obj(Override(top, SUPPLIES, Obj(EditCategory(Section(top, SUPPLIES), category, key, v)))))
  {
    var sup := Section(top, SUPPLIES);
    var p := SupplyPath(category, key);
    assert p[1..] == [category, key] && [category, key][1..] == [key];
    assert PutAt(Obj(Section(sup, category)), [key], v) == Some(Obj(Override(Section(sup, category), key, v)));
    assert PutAt(Obj(sup), [category, key], v) == Some(Obj(EditCategory(sup, category, key, v)));
  }

  /** Two reads, three overrides and five conversions through text amount to one tree update. */
  lemma {:induction false} SupplyRefinesPutAt(text: CString, top: Members, category: CString, key: CString, value: CString, v: Json)
    requires Parse(text) == Some(Obj(top))
    requires HasObject(top, SUPPLIES) && HasObject(Section(top, SUPPLIES), category)
    requires IntItem(value) == v
    ensures var t := PutAt(Obj(top), SupplyPath(category, key), v);
            t.Some? && SupplyText(text, category, key, value) == Some(Text(t.value))
  {
    var sup := Section(top, SUPPLIES);
    var items := Section(sup, category);
    PutAtSupply(top, category, key, v);
    GetObject(text, Obj(top), SUPPLIES);
    GetObject(Text(Obj(sup)), Obj(sup), category);
    AddToObject(Text(Obj(items)), items, key, value, v);
    PutObject(Text(Obj(sup)), sup, category, Obj(Override(items, key, v)));
    PutObject(text, top, SUPPLIES, Obj(EditCategory(sup, category, key, v)));
  }

  /** Every failure happens before the write, and these are all of them, whatever the key and the
      value: no "supplies" to read (text that does not parse included), or no such category. */
  lemma {:induction false} SupplyFailsExactly(text: CString, category: CString, key: CString, value: CString)
    ensures SupplyText(text, category, key, value).None? <==>
            Get(text, "supplies").None? || Get(Get(text, "supplies").value, category).None?
  {
    if Get(text, SUPPLIES).Some? && Get(Get(text, SUPPLIES).value, category).Some? {
      var sup := Get(text, SUPPLIES).value;
      var items := Get(sup, category).value;
      var items' := AddItem(Root(items), key, IntItem(value));
      RoundTrip(items');
      RoundTrip(AddItem(Root(sup), category, items'));
    }
  }

  /** The alert routine fails before its write exactly when there are no alerts to read or no such entry
      to count. */
  lemma {:induction false} AlertFailsExactly(text: CString, entry: CString)
    ensures AlertText(text, entry).None? <==>
            Get(text, "alerts").None? || Get(Get(text, "alerts").value, entry).None?
  {
    if Get(text, "alerts").Some? && Get(Get(text, "alerts").value, entry).Some? {
      var section := Get(text, "alerts").value;
      var n := Atoi(Get(section, entry).value) + 1;
      MakeCount(n);
      RoundTrip(AddItem(Root(section), entry, CountItem(n)));
    }
  }

  /** The event routine fails before its write exactly when there is no emergency section to read. */
  lemma {:induction false} EventFailsExactly(text: CString, key: CString, value: CString)
    ensures EventText(text, key, value).None? <==> Get(text, "emergency").None?
  {
    if Get(text, "emergency").Some? {
      RoundTrip(AddItem(Root(Get(text, "emergency").value), key, IntItem(value)));
    }
  }
}
