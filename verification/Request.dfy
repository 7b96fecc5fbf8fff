/** The modify request as the client builds it, field by field, and its size. */
module Request {
  import opened CText
  import opened Json
  import opened JsonText
  import opened CjsonHandler
  import opened Dispatch
  import opened StateJobs

  const K_COMMAND_EQ: CString := "command_equivalent"
  const K_SUP_COMMAND: CString := "suply_type"

  type FieldList = seq<(CString, CString)>

  datatype Category = Food | Medicine

  function CategoryName(c: Category): CString { if c.Food? then "food" else "medicine" }

  function CategoryNumber(c: Category): CString { if c.Food? then "1" else "2" }

  /** The eight fields, in the order the client adds them. */
  function ModifyFields(c: Category, key: CString, value: CString, user: CString, password: CString): FieldList {
    [(K_COMMAND, "2"), (K_COMMAND_EQ, "Modify supplies"),
     (K_SUP_COMMAND, CategoryNumber(c)), (K_CATEGORY, CategoryName(c)),
     (K_KEY, key), (K_VALUE, value),
     (K_HOSTNAME, user), (K_PASSWORD, password)]
  }

  ghost predicate DistinctKeys(fields: FieldList) {
    forall i, j :: 0 <= i < j < |fields| ==> fields[i].0 != fields[j].0
  }

  /** The object with these fields, in order. */
  function ObjectOf(fields: FieldList): Members
    decreases |fields|
  {
    if fields == [] then Nil
    else Append(ObjectOf(fields[..|fields| - 1]), fields[|fields| - 1].0, Str(fields[|fields| - 1].1))
  }

  lemma {:induction false} ObjectHas(fields: FieldList, q: CString)
    ensures Lookup(ObjectOf(fields), q).Some? ==> exists i :: 0 <= i < |fields| && fields[i].0 == q
    decreases |fields|
  {
    if fields != [] {
      var n := |fields| - 1;
      ObjectHas(fields[..n], q);
      LookupAppend(ObjectOf(fields[..n]), fields[n].0, Str(fields[n].1), q);
      if Lookup(ObjectOf(fields[..n]), q).Some? {
        var i :| 0 <= i < n && fields[..n][i].0 == q;
        assert fields[i].0 == q;
      }
    }
  }

  lemma {:induction false} ObjectReads(fields: FieldList, i: nat)
    requires DistinctKeys(fields) && i < |fields|
    ensures Lookup(ObjectOf(fields), fields[i].0) == Some(Str(fields[i].1))
    decreases |fields|
  {
    var n := |fields| - 1;
    LookupAppend(ObjectOf(fields[..n]), fields[n].0, Str(fields[n].1), fields[i].0);
    if i < n {
      assert fields[..n][i] == fields[i];
      ObjectReads(fields[..n], i);
    } else {
      ObjectHas(fields[..n], fields[i].0);
    }
  }

  /** The text after adding the fields one by one to a cleared buffer. */
  function Built(fields: FieldList): CString
    decreases |fields|
  {
    if fields == [] then ""
    else
      var n := |fields| - 1;
      match Add(Built(fields[..n]), fields[n].0, fields[n].1, OVERRIDE)
      case Added(t) => t
      case Kept => Built(fields[..n])
      case Failed => Built(fields[..n])
  }

  lemma {:induction false} BuiltStep(fields: FieldList, i: nat)
    requires i < |fields|
    ensures Built(fields[..i + 1])
         == match Add(Built(fields[..i]), fields[i].0, fields[i].1, OVERRIDE)
            case Added(t) => t
            case Kept => Built(fields[..i])
            case Failed => Built(fields[..i])
  {
    assert fields[..i + 1][..i] == fields[..i];
  }

  /** Distinct keys: every add appends, and the buffer is the printed object. */
  lemma {:induction false} BuiltIsObject(fields: FieldList)
    requires DistinctKeys(fields)
    ensures Root(Built(fields)) == Obj(ObjectOf(fields))
    ensures fields != [] ==> Built(fields) == Text(Obj(ObjectOf(fields)))
    decreases |fields|
  {
    if fields == [] {
      assert Parse("") == None;
    } else {
      var n := |fields| - 1;
      BuiltIsObject(fields[..n]);
      ObjectHas(fields[..n], fields[n].0);
      assert Lookup(ObjectOf(fields[..n]), fields[n].0).None?;
      RoundTrip(Obj(ObjectOf(fields)));
    }
  }

  lemma {:induction false} BuiltReads(fields: FieldList, i: nat)
    requires DistinctKeys(fields) && i < |fields|
    ensures Get(Built(fields), fields[i].0) == Some(fields[i].1)
  {
    BuiltIsObject(fields);
    RoundTrip(Obj(ObjectOf(fields)));
    ObjectReads(fields, i);
  }

  lemma {:induction false} ModifyKeysDistinct(c: Category, key: CString, value: CString, user: CString, password: CString)
    ensures DistinctKeys(ModifyFields(c, key, value, user, password))
  {
    assert K_HOSTNAME[0] != K_PASSWORD[0];
  }

  /** The eight fields of a request, key by key. */
  lemma {:induction false} RequestSays(c: Category, key: CString, value: CString, user: CString, password: CString)
    ensures var r := Built(ModifyFields(c, key, value, user, password));
            && Get(r, "command") == Some("2") && Get(r, "command_equivalent") == Some("Modify supplies")
            && Get(r, "suply_type") == Some(if c.Food? then "1" else "2")
            && Get(r, "suply_type_equivalent") == Some(if c.Food? then "food" else "medicine")
            && Get(r, "key") == Some(key) && Get(r, "value") == Some(value)
            && Get(r, "hostname") == Some(user) && Get(r, "password") == Some(password)
  {
    var fs := ModifyFields(c, key, value, user, password);
    ModifyKeysDistinct(c, key, value, user, password);
    forall i | 0 <= i < 8 ensures Get(Built(fs), fs[i].0) == Some(fs[i].1) { BuiltReads(fs, i); }
    assert fs[0].0 == "command" && fs[1].0 == "command_equivalent" && fs[2].0 == "suply_type";
    assert fs[3].0 == "suply_type_equivalent" && fs[4].0 == "key" && fs[5].0 == "value";
    assert fs[6].0 == "hostname" && fs[7].0 == "password";
  }

  /** Exactly whose update request is served: the administrator's, by name and password. */
  lemma {:induction false} RequestIsServedIff(c: Category, key: CString, value: CString, user: CString, password: CString)
    ensures TcpReaction(Built(ModifyFields(c, key, value, user, password)))
         == if user == "ubuntu" && password == "ubuntu" then Modify else Deny
    ensures UdpReaction(Built(ModifyFields(c, key, value, user, password))) == Deny
  {
    var r := Built(ModifyFields(c, key, value, user, password));
    RequestSays(c, key, value, user, password);
    AtoiIntText(2, "");
    assert IntText(2) + "" == "2";
    TcpReactions(r);
    UdpReactions(r);
  }

  /** A request with a command and credentials, and nothing else. */
  function CommandRequest(n: int, user: CString, password: CString): CString {
    Built([("command", IntText(n)), ("hostname", user), ("password", password)])
  }

  /** What each command leads to, for every number. */
  lemma {:induction false} CommandDecides(n: int, user: CString, password: CString)
    ensures TcpReaction(CommandRequest(n, user, password))
         == if n == 0 then Close else if n == 1 then SendStatus else if n != 2 then Ignore
            else if user == "ubuntu" && password == "ubuntu" then Modify else Deny
    ensures UdpReaction(CommandRequest(n, user, password))
         == if n == 0 then Close else if n == 1 then SendStatus else if n == 2 then Deny else Ignore
  {
    var fs: FieldList := [("command", IntText(n)), ("hostname", user), ("password", password)];
    assert fs[0].0[0] == 'c' && fs[1].0[0] == 'h' && fs[2].0[0] == 'p';
    BuiltReads(fs, 0);
    BuiltReads(fs, 1);
    BuiltReads(fs, 2);
    AtoiIntText(n, "");
    assert IntText(n) + "" == IntText(n);
    TcpReactions(CommandRequest(n, user, password));
    UdpReactions(CommandRequest(n, user, password));
  }

  /** What the server takes from the request is what the client put in. */
  lemma {:induction false} RequestReads(c: Category, key: CString, value: CString, user: CString, password: CString)
    ensures var r := Built(ModifyFields(c, key, value, user, password));
            && Command(r) == 2
            && Get(r, K_HOSTNAME) == Some(user) && Get(r, K_PASSWORD) == Some(password)
            && RequestFields(r) == Some(Fields(CategoryName(c), key, value))
  {
    var fs := ModifyFields(c, key, value, user, password);
    ModifyKeysDistinct(c, key, value, user, password);
    BuiltReads(fs, 0);
    BuiltReads(fs, 3);
    BuiltReads(fs, 4);
    BuiltReads(fs, 5);
    BuiltReads(fs, 6);
    BuiltReads(fs, 7);
    AtoiIntText(2, "");
    assert IntText(2) + "" == "2";
  }

  // ----- size ----------------------------------------------------------------------------

  predicate NoControl(s: CString) { forall i :: 0 <= i < |s| ==> s[i] as int >= 32 }

  lemma {:induction false} EscapeSize(s: CString, rest: CString)
    requires NoControl(s)
    ensures |Escape(s, rest)| <= 2 * |s| + |rest|
  {
    if s != [] {
      EscapeSize(s[1..], rest);
      assert s[0] as int >= 32;
    }
  }

  lemma {:induction false} QuoteSize(s: CString, rest: CString)
    requires NoControl(s)
    ensures |Quote(s, rest)| <= 2 * |s| + 2 + |rest|
  {
    EscapeSize(s, "\"" + rest);
  }

  /** Strings only, no control bytes. */
  predicate Plain(ms: Members) {
    match ms
    case Nil => true
    case Cons(k, v, r) => NoControl(k) && v.Str? && NoControl(v.s) && Plain(r)
  }

  /** A bound on the text of the members: escapes double a byte at most. */
  function Cost(ms: Members): nat {
    match ms
    case Nil => 0
    case Cons(k, v, r) => 2 * |k| + (if v.Str? then 2 * |v.s| else 0) + 9 + Cost(r)
  }

  lemma {:induction false} MembersSize(ms: Members, rest: CString)
    requires Plain(ms)
    ensures |PrintMembers(ms, 1, rest)| <= Cost(ms) + |rest|
  {
    match ms
    case Nil =>
    case Cons(k, v, r) =>
      MembersSize(r, rest);
      var after: CString := (if r.Nil? then "\n" else ",\n") + PrintMembers(r, 1, rest);
      QuoteSize(v.s, after);
      QuoteSize(k, ":\t" + Quote(v.s, after));
      assert Tabs(1, Quote(k, ":\t" + Quote(v.s, after)))[1..] == Quote(k, ":\t" + Quote(v.s, after));
  }

  lemma {:induction false} TextSize(ms: Members)
    requires Plain(ms)
    ensures 0 < |Text(Obj(ms))| <= Cost(ms) + 3
  {
    MembersSize(ms, Tabs(0, "}" + ""));
  }

  lemma {:induction false} AppendCost(ms: Members, k: CString, s: CString)
    ensures Cost(Append(ms, k, Str(s))) == Cost(ms) + 2 * |k| + 2 * |s| + 9
    ensures Plain(Append(ms, k, Str(s))) <==> Plain(ms) && NoControl(k) && NoControl(s)
  {
    if ms.Cons? { AppendCost(ms.rest, k, s); }
  }

  function FieldsCost(fields: FieldList): nat
    decreases |fields|
  {
    if fields == [] then 0
    else FieldsCost(fields[..|fields| - 1]) + 2 * |fields[|fields| - 1].0| + 2 * |fields[|fields| - 1].1| + 9
  }

  lemma {:induction false} ObjectSize(fields: FieldList)
    requires forall i :: 0 <= i < |fields| ==> NoControl(fields[i].0) && NoControl(fields[i].1)
    ensures Plain(ObjectOf(fields)) && Cost(ObjectOf(fields)) == FieldsCost(fields)
    decreases |fields|
  {
    if fields != [] {
      var n := |fields| - 1;
      ObjectSize(fields[..n]);
      AppendCost(ObjectOf(fields[..n]), fields[n].0, fields[n].1);
    }
  }

  lemma {:induction false} CostStep(fields: FieldList, k: CString, v: CString)
    ensures FieldsCost(fields + [(k, v)]) == FieldsCost(fields) + 2 * |k| + 2 * |v| + 9
  {
    assert (fields + [(k, v)])[..|fields|] == fields;
  }

  function CommandFields(c: Category): FieldList {
    [(K_COMMAND, "2"), (K_COMMAND_EQ, "Modify supplies"),
     (K_SUP_COMMAND, CategoryNumber(c)), (K_CATEGORY, CategoryName(c))]
  }

  lemma {:induction false} CommandCost(c: Category)
    ensures FieldsCost(CommandFields(c)) <= 198
  {
    var f0: FieldList := [];
    var f1 := f0 + [(K_COMMAND, "2")];
    var f2 := f1 + [(K_COMMAND_EQ, "Modify supplies")];
    var f3 := f2 + [(K_SUP_COMMAND, CategoryNumber(c))];
    CostStep(f0, K_COMMAND, "2");
    CostStep(f1, K_COMMAND_EQ, "Modify supplies");
    CostStep(f2, K_SUP_COMMAND, CategoryNumber(c));
    CostStep(f3, K_CATEGORY, CategoryName(c));
    assert f3 + [(K_CATEGORY, CategoryName(c))] == CommandFields(c);
  }

  lemma {:induction false} ModifyCost(c: Category, key: CString, value: CString, user: CString, password: CString)
    ensures FieldsCost(ModifyFields(c, key, value, user, password))
         <= 282 + 2 * |key| + 2 * |value| + 2 * |user| + 2 * |password|
  {
    var f4 := CommandFields(c);
    var f5 := f4 + [(K_KEY, key)];
    var f6 := f5 + [(K_VALUE, value)];
    var f7 := f6 + [(K_HOSTNAME, user)];
    CommandCost(c);
    CostStep(f4, K_KEY, key);
    CostStep(f5, K_VALUE, value);
    CostStep(f6, K_HOSTNAME, user);
    CostStep(f7, K_PASSWORD, password);
    assert ModifyFields(c, key, value, user, password) == f7 + [(K_PASSWORD, password)];
  }

  lemma CommandKeysPlain()
    ensures NoControl(K_COMMAND) && NoControl(K_COMMAND_EQ) && NoControl(K_SUP_COMMAND) && NoControl(K_CATEGORY)
  {
  }

  lemma OtherKeysPlain()
    ensures NoControl(K_KEY) && NoControl(K_VALUE) && NoControl(K_HOSTNAME) && NoControl(K_PASSWORD)
  {
  }

  lemma FixedValuesPlain(c: Category)
    ensures NoControl("2") && NoControl("Modify supplies")
    ensures NoControl(CategoryNumber(c)) && NoControl(CategoryName(c))
  {
  }

  lemma {:induction false} ModifyPlain(c: Category, key: CString, value: CString, user: CString, password: CString)
    requires NoControl(user) && NoControl(password) && NoControl(key) && NoControl(value)
    ensures Plain(ObjectOf(ModifyFields(c, key, value, user, password)))
    ensures Cost(ObjectOf(ModifyFields(c, key, value, user, password)))
         == FieldsCost(ModifyFields(c, key, value, user, password))
  {
    var fs := ModifyFields(c, key, value, user, password);
    CommandKeysPlain();
    OtherKeysPlain();
    FixedValuesPlain(c);
    forall i | 0 <= i < |fs| ensures NoControl(fs[i].0) && NoControl(fs[i].1) {
      assert i == 0 || i == 1 || i == 2 || i == 3 || i == 4 || i == 5 || i == 6 || i == 7;
    }
    ObjectSize(fs);
  }

  /** The request always fits the 1024-byte buffer with its terminator, escapes included. */
  lemma {:induction false} RequestFits(c: Category, key: CString, value: CString, user: CString, password: CString)
    requires |user| <= 48 && |password| <= 48 && |key| <= 49 && |value| <= 9
    requires NoControl(user) && NoControl(password) && NoControl(key) && NoControl(value)
    ensures 0 < |Built(ModifyFields(c, key, value, user, password))| < 1024
  {
    var fs := ModifyFields(c, key, value, user, password);
    ModifyKeysDistinct(c, key, value, user, password);
    BuiltIsObject(fs);
    ModifyPlain(c, key, value, user, password);
    ModifyCost(c, key, value, user, password);
    TextSize(ObjectOf(fs));
  }
}
