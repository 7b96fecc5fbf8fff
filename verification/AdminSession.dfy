/** An administrator's update from menu to state file and back. */
module AdminSession {
  import opened CText
  import opened Json
  import opened JsonText
  import opened CjsonHandler
  import opened StateFile
  import opened StateJobs
  import opened Dispatch
  import opened Request
  import opened Transport

  const K_DENIED: CString := "deneid_command"
  const K_END: CString := "end_connection"

  /** A reply with the single member `key: "1"`. */
  function Notice(key: CString): CString { Text(Obj(Cons(key, Str("1"), Nil))) }

  /** The connection process between two requests. */
  class Server {
    const file: File
    var replies: seq<CString>
    var running: bool

    constructor (f: File)
      ensures file == f && replies == [] && running
    {
      file := f;
      replies, running := [], true;
    }

    /** set_supply: take the fields from the request and update the file. */
    method SetSupply(request: CString, reply: Buffer) returns (rc: int)
      modifies file`content, reply
      ensures Saved(file.content, rc == 0)
           == Save(file.disk, old(file.content), Apply(Supply(request), old(file.content)))
      ensures rc == 0 ==> reply.text == file.content
    {
      var rc1, category := GetValueOfKey(request, K_CATEGORY);
      if rc1 != 0 { return 1; }
      var rc2, key := GetValueOfKey(request, K_KEY);
      if rc2 != 0 { return 1; }
      var rc3, value := GetValueOfKey(request, K_VALUE);
      if rc3 != 0 { return 1; }
      rc := file.SetSupplyStatus(category, key, value, reply);
    }

    /** One turn of run_admin_server. Only a modify request with good credentials writes the file,
        and its reply is the text it stored. */
    method Serve(request: CString)
      requires running
      modifies this, file`content
      ensures TcpReaction(request) != Modify ==> file.content == old(file.content)
      ensures match TcpReaction(request)
              case Close => !running && replies == old(replies) + [Notice(K_END)]
              case SendStatus =>
                && running == (file.disk.readable && file.content != "")
                && replies == old(replies) + (if running then [file.content] else [])
              case Deny => running && replies == old(replies) + [Notice(K_DENIED)]
              case Modify =>
                && Saved(file.content, running)
                   == Save(file.disk, old(file.content), Apply(Supply(request), old(file.content)))
                && replies == old(replies) + (if running then [file.content] else [])
              case Ignore => running && replies == old(replies)
    {
      var rc, text := GetValueOfKey(request, K_COMMAND);
      var command := if rc == 0 then Atoi(text) else -1;
      if command == 0 {
        var b := MakeNotice(K_END);
        replies, running := replies + [b], false;
      } else if command == 1 {
        var rcRead, status := file.Read();
        if rcRead != 0 { running := false; return; }
        replies := replies + [status];
      } else if command == 2 {
        var rcUser, user := GetValueOfKey(request, K_HOSTNAME);
        var rcPass, password := GetValueOfKey(request, K_PASSWORD);
        if rcUser != 0 || rcPass != 0 || user != ADMIN || password != ADMIN {
          var b := MakeNotice(K_DENIED);
          replies := replies + [b];
          return;
        }
        var reply := new Buffer("");
        var rcSet := SetSupply(request, reply);
        if rcSet != 0 { running := false; return; }
        replies := replies + [reply.text];
      }
    }

    method MakeNotice(key: CString) returns (text: CString)
      ensures text == Notice(key)
    {
      var b := new Buffer("");
      ParseEmpty();
      var _ := AddKeyValue(b, key, "1", OVERRIDE);
      text := b.text;
    }
  }

  /** The two notices in the words the client looks for. */
  lemma {:induction false} NoticesSay()
    ensures Get(Notice(K_END), "end_connection") == Some("1")
    ensures Get(Notice(K_DENIED), "deneid_command") == Some("1")
  {
    RoundTrip(Obj(Cons(K_END, Str("1"), Nil)));
    RoundTrip(Obj(Cons(K_DENIED, Str("1"), Nil)));
  }

  /** The client's menu, second option: eight adds into a cleared send buffer. */
  method BuildModify(c: Category, key: CString, amount: nat, user: CString, password: CString) returns (text: CString)
    ensures text == Built(ModifyFields(c, key, IntText(amount), user, password))
  {
    text := AddFields(ModifyFields(c, key, IntText(amount), user, password));
  }

  /** Fields added one by one to a cleared buffer. */
  method AddFields(fields: FieldList) returns (text: CString)
    ensures text == Built(fields)
  {
    var b := new Buffer("");
    for i := 0 to |fields|
      invariant b.text == Built(fields[..i])
    {
      BuiltStep(fields, i);
      var _ := AddKeyValue(b, fields[i].0, fields[i].1, OVERRIDE);
    }
    assert fields[..|fields|] == fields;
    return b.text;
  }

  // ----- end to end ----------------------------------------------------------------------

  /** What the administrator may type: a key that fits, without control bytes, and an amount of at
      most nine digits. */
  predicate Typed(key: CString, amount: nat) {
    |key| <= 49 && NoControl(key) && 1 <= amount <= 999_999_999
  }

  lemma {:induction false} AmountText(amount: nat)
    requires 1 <= amount <= 999_999_999
    ensures |IntText(amount)| <= 9 && NoControl(IntText(amount))
    ensures IntItem(IntText(amount)) == Number(amount)
  {
    assert Pow10(9) == 10 * Pow10(8) && Pow10(8) == 10 * Pow10(7) && Pow10(7) == 10 * Pow10(6)
        && Pow10(6) == 10 * Pow10(5) && Pow10(5) == 10 * Pow10(4) && Pow10(4) == 10 * Pow10(3)
        && Pow10(3) == 10 * Pow10(2) && Pow10(2) == 10 * Pow10(1);
    NatTextFits(amount, 9);
    MakeCount(amount);
  }

  function AdminRequest(c: Category, key: CString, amount: nat): CString {
    Built(ModifyFields(c, key, IntText(amount), ADMIN, ADMIN))
  }

  /** The request fits the frame and is granted. */
  lemma {:induction false} RequestArrives(c: Category, key: CString, amount: nat)
    requires Typed(key, amount)
    ensures var r := AdminRequest(c, key, amount);
            && 0 < |r| < SIZE
            && TcpReaction(r) == Modify
            && RequestFields(r) == Some(Fields(CategoryName(c), key, IntText(amount)))
  {
    AmountText(amount);
    AdminPlain();
    RequestFits(c, key, IntText(amount), ADMIN, ADMIN);
    RequestReads(c, key, IntText(amount), ADMIN, ADMIN);
  }

  lemma AdminPlain()
    ensures NoControl(ADMIN) && |ADMIN| <= 48
  {
  }

  /** The state lets the administrator set this key: its category is there, and the key is there
      exactly or absent up to case (or at least not shadowed). */
  ghost predicate Updatable(text: CString, top: Members, c: Category, key: CString) {
    && Parse(text) == Some(Obj(top)) && Schema(top)
    && HasObject(Section(top, SUPPLIES), CategoryName(c))
    && OverrideSafe(Section(Section(top, SUPPLIES), CategoryName(c)), key)
  }

  /** The stored text after the update. */
  function Updated(text: CString, c: Category, key: CString, amount: nat): Option<CString> {
    SupplyText(text, CategoryName(c), key, IntText(amount))
  }

  /** The granted request sets exactly one path of the state. */
  lemma {:induction false} RequestUpdates(text: CString, top: Members, c: Category, key: CString, amount: nat)
    requires Typed(key, amount) && Updatable(text, top, c, key)
    ensures var t := Updated(text, c, key, amount);
            t.Some? && Parse(t.value).Some?
            && OnlySet(Obj(top), Parse(t.value).value, SupplyPath(CategoryName(c), key), Number(amount))
  {
    var cat := CategoryName(c);
    AmountText(amount);
    SupplyRefinesPutAt(text, top, cat, key, IntText(amount), Number(amount));
    UniqueIsSafe(top, SUPPLIES);
    UniqueIsSafe(Section(top, SUPPLIES), cat);
    SupplyPathSafe(top, cat, key);
    PutAtOnlySets(Obj(top), SupplyPath(cat, key), Number(amount));
    RoundTrip(PutAt(Obj(top), SupplyPath(cat, key), Number(amount)).value);
  }

  lemma {:induction false} SupplyPathSafe(top: Members, cat: CString, key: CString)
    requires HasObject(top, SUPPLIES) && HasObject(Section(top, SUPPLIES), cat)
    requires OverrideSafe(top, SUPPLIES) && OverrideSafe(Section(top, SUPPLIES), cat)
    requires OverrideSafe(Section(Section(top, SUPPLIES), cat), key)
    ensures SafePath(Obj(top), SupplyPath(cat, key))
  {
    var sup := Section(top, SUPPLIES);
    assert SupplyPath(cat, key)[1..] == [cat, key] && [cat, key][1..] == [key];
    assert SafePath(Obj(Section(sup, cat)), [key]);
    assert SafePath(Obj(sup), [cat, key]);
  }

  /** The item stored under category and key after an update with this amount. */
  function StoredItem(text: CString, c: Category, key: CString, amount: nat): Option<Json> {
    match Updated(text, c, key, amount)
    case None => None
    case Some(t) =>
      match Parse(t) case None => None case Some(j) => At(j, SupplyPath(CategoryName(c), key))
  }

  lemma {:induction false} StoredItemIs(text: CString, top: Members, c: Category, key: CString, amount: nat)
    requires 1 <= amount <= 999_999_999
    requires Parse(text) == Some(Obj(top)) && Schema(top) && HasObject(Section(top, SUPPLIES), CategoryName(c))
    ensures var items := Section(Section(top, SUPPLIES), CategoryName(c));
            StoredItem(text, c, key, amount) == Lookup(Override(items, key, Number(amount)), key)
  {
    var cat := CategoryName(c);
    var sup := Section(top, SUPPLIES);
    var items' := Obj(Override(Section(sup, cat), key, Number(amount)));
    var sup' := Obj(Override(sup, cat, items'));
    AmountText(amount);
    SupplyRefinesPutAt(text, top, cat, key, IntText(amount), Number(amount));
    PutAtSupply(top, cat, key, Number(amount));
    var j := Obj(Override(top, SUPPLIES, sup'));
    RoundTrip(j);
    UniqueIsSafe(top, SUPPLIES);
    UniqueIsSafe(sup, cat);
    OverrideLookup(top, SUPPLIES, sup', SUPPLIES);
    OverrideLookup(sup, cat, items', cat);
    AtThree(j, SUPPLIES, cat, key, sup', items');
  }

  lemma {:induction false} AtThree(j: Json, a: CString, b: CString, k: CString, ja: Json, jb: Json)
    requires Member(j, a) == Some(ja) && Member(ja, b) == Some(jb)
    ensures At(j, [a, b, k]) == Member(jb, k)
  {
    assert [a, b, k][1..] == [b, k] && [b, k][1..] == [k] && [k][1..] == [];
    assert At(j, [a, b, k]) == At(ja, [b, k]);
    assert At(ja, [b, k]) == At(jb, [k]);
    if Member(jb, k).Some? { assert At(Member(jb, k).value, []) == Member(jb, k); }
  }

  /** Exactly which keys can be set: the update takes effect for every amount if and only if the key
      is absent, or the first key that matches it ignoring case is the key itself and it is not
      repeated. */
  lemma {:induction false} UpdateTakesEffectIff(text: CString, top: Members, c: Category, key: CString)
    requires Parse(text) == Some(Obj(top)) && Schema(top) && HasObject(Section(top, SUPPLIES), CategoryName(c))
    ensures OverrideSafe(Section(Section(top, SUPPLIES), CategoryName(c)), key) <==>
            forall amount :: 1 <= amount <= 999_999_999 ==> StoredItem(text, c, key, amount) == Some(Number(amount))
  {
    var items := Section(Section(top, SUPPLIES), CategoryName(c));
    if OverrideSafe(items, key) {
      forall amount | 1 <= amount <= 999_999_999 ensures StoredItem(text, c, key, amount) == Some(Number(amount)) {
        StoredItemIs(text, top, c, key, amount);
        OverrideLookup(items, key, Number(amount), key);
      }
    } else {
      DeleteMisses(items, key);
      var kept := Lookup(DeleteFold(items, key), key).value;
      var amount := if kept == Number(1) then 2 else 1;
      StoredItemIs(text, top, c, key, amount);
      LookupAppend(DeleteFold(items, key), key, Number(amount), key);
      assert StoredItem(text, c, key, amount) != Some(Number(amount));
    }
  }

  /** The wire between client and server: one padded buffer, received whole. */
  method Carry(request: CString) returns (received: CString)
    requires 0 < |request| < SIZE
    ensures received == request
  {
    var memory := seq(|request|, _ => NUL);
    FrameRoundTrip(request, memory);
    var socket := new Socket(1);
    var _ := SendMessage(request, SIZE, memory, socket);
    var buffer := new char[SIZE];
    var _ := RecvTcpMessage(socket.sent[0], buffer);
    assert buffer[..] == Pad(request, SIZE);
    received := UpToNul(buffer[..]);
  }

  /** The file can be opened and takes the text. */
  predicate HasRoom(disk: Disk, text: Option<CString>) {
    disk.readable && disk.writable && (text.Some? ==> |text.value| <= disk.room)
  }

  /** What lies past the staging buffer, as far as a message of length `n` can reach. */
  function Beyond(memory: nat -> char, n: nat): (b: seq<char>)
    ensures |b| == n
  {
    seq(n, i requires 0 <= i < n => memory(i))
  }

  /** The reply on its way back, sent with its own length. */
  method SendReply(reply: CString, memory: nat -> char) returns (sent: seq<seq<char>>)
    ensures sent == Sends(reply, |reply|, Beyond(memory, |reply|))
  {
    var socket := new Socket(|Sends(reply, |reply|, Beyond(memory, |reply|))|);
    var _ := SendMessage(reply, |reply|, Beyond(memory, |reply|), socket);
    sent := socket.sent;
  }

  /** The request built, framed, received whole and dispatched: the server saves the update. */
  method DeliverModify(server: Server, c: Category, key: CString, amount: nat)
    requires server.running && Typed(key, amount)
    modifies server, server.file`content
    ensures Saved(server.file.content, server.running)
         == Save(server.file.disk, old(server.file.content), Updated(old(server.file.content), c, key, amount))
    ensures server.replies == old(server.replies) + (if server.running then [server.file.content] else [])
  {
    RequestArrives(c, key, amount);
    var request := BuildModify(c, key, amount, ADMIN, ADMIN);
    var received := Carry(request);
    server.Serve(received);
  }

  /** End to end: for every category, every key that is there exactly or absent up to case, and
      every amount, the request the client builds and frames, received whole and dispatched, leaves
      supplies/category/key = amount, every other path as it was, and a reply equal to the stored
      text; the bytes sent back are that text if and only if it fits one buffer or fills whole ones. */
  method AdminUpdate(server: Server, c: Category, key: CString, amount: nat, memory: nat -> char, ghost top: Members)
    returns (reply: CString, sent: seq<seq<char>>)
    requires server.running && Typed(key, amount) && Updatable(server.file.content, top, c, key)
    requires HasRoom(server.file.disk, Updated(server.file.content, c, key, amount))
    modifies server, server.file`content
    ensures server.running && server.replies == old(server.replies) + [reply] && reply == server.file.content
    ensures Parse(reply).Some?
    ensures OnlySet(Obj(top), Parse(reply).value, ["supplies", if c.Food? then "food" else "medicine", key], Number(amount))
    ensures sent == Sends(reply, |reply|, Beyond(memory, |reply|))
    ensures Flatten(sent) == server.file.content <==> |reply| <= SIZE || |reply| % SIZE == 0
  {
    RequestUpdates(server.file.content, top, c, key, amount);
    DeliverModify(server, c, key, amount);
    reply := server.file.content;
    sent := SendReply(reply, memory);
    ArrivesExactlyIff(reply, Beyond(memory, |reply|));
  }
}
