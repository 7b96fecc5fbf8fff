/** Where the supplies in the file come from, in every interleaved run. */
module Provenance {
  import opened CText
  import opened Json
  import opened CjsonHandler
  import opened StateFile
  import opened StateJobs
  import opened Dispatch
  import opened SharedState
  import opened StateRuns

  /** A supplies section after one modify request. */
  function Edited(section: Members, request: CString): Option<Members> {
    match RequestFields(request) case Some(f) => NewSupplies(f, section) case None => None
  }

  /** ... and after several, one after the other. */
  function FoldSupplies(section: Members, requests: seq<CString>): Option<Members>
    decreases |requests|
  {
    if requests == [] then Some(section)
    else
      match FoldSupplies(section, requests[..|requests| - 1])
      case None => None
      case Some(s) => Edited(s, requests[|requests| - 1])
  }

  /** Some TCP process received this modify request, and its user name and password are the
      administrator's. */
  predicate GrantedToSome(log: seq<Entry>, request: CString) {
    exists i :: 0 <= i < |log| && log[i].Received? && log[i].kind.Tcp? && log[i].request == request
                && Asks(request, 2) && SignedByAdmin(request)
  }

  /** `section` is `first` after these requests, all of them granted. */
  ghost predicate Chain(log: seq<Entry>, first: Members, requests: seq<CString>, section: Members) {
    && (forall k :: 0 <= k < |requests| ==> GrantedToSome(log, requests[k]))
    && FoldSupplies(first, requests) == Some(section)
  }

  /** Some sequence of granted requests leads from `first` to `section`. */
  ghost predicate Derived(log: seq<Entry>, first: Members, section: Members) {
    exists requests :: Chain(log, first, requests, section)
  }

  // ----- sections alone ------------------------------------------------------------------

  /** What entry `i` did to the supplies: a TCP write edits the section it had read, any other write
      puts back the section it had read, and nothing else touches it. */
  predicate SectionOk(log: seq<Entry>, sections: seq<Members>, i: nat)
    requires i < |log| && |sections| == |log| + 1
  {
    match log[i]
    case Wrote(pid, job, r) =>
      r <= i && if job.Supply? then GrantedToSome(log[..i + 1], job.request)
                                    && Edited(sections[r], job.request) == Some(sections[i + 1])
                else sections[i + 1] == sections[r]
    case _ => sections[i + 1] == sections[i]
  }

  ghost predicate Follows(log: seq<Entry>, sections: seq<Members>) {
    |sections| == |log| + 1 && forall i :: 0 <= i < |log| ==> SectionOk(log, sections, i)
  }

  lemma {:induction false} GrantExtends(log: seq<Entry>, m: nat, i: nat, request: CString)
    requires m <= i <= |log| && GrantedToSome(log[..m], request)
    ensures GrantedToSome(log[..i], request)
  {
    var k :| 0 <= k < m && log[..m][k].Received? && log[..m][k].kind.Tcp? && log[..m][k].request == request;
    assert log[..i][k] == log[..m][k];
  }

  lemma {:induction false} DerivedLater(log: seq<Entry>, m: nat, i: nat, first: Members, section: Members)
    requires m <= i <= |log| && Derived(log[..m], first, section)
    ensures Derived(log[..i], first, section)
  {
    var requests :| Chain(log[..m], first, requests, section);
    forall k | 0 <= k < |requests| ensures GrantedToSome(log[..i], requests[k]) {
      GrantExtends(log, m, i, requests[k]);
    }
    assert Chain(log[..i], first, requests, section);
  }

  lemma {:induction false} FoldEdit(first: Members, requests: seq<CString>, s: Members, request: CString)
    requires FoldSupplies(first, requests) == Some(s)
    ensures FoldSupplies(first, requests + [request]) == Edited(s, request)
  {
    assert (requests + [request])[..|requests|] == requests;
  }

  lemma {:induction false} DerivedEdit(log: seq<Entry>, first: Members, s: Members, request: CString, s': Members)
    requires Derived(log, first, s) && GrantedToSome(log, request) && Edited(s, request) == Some(s')
    ensures Derived(log, first, s')
  {
    var requests :| Chain(log, first, requests, s);
    var all := requests + [request];
    FoldEdit(first, requests, s, request);
    forall k | 0 <= k < |all| ensures GrantedToSome(log, all[k]) {
      if k < |requests| { assert all[k] == requests[k]; }
    }
    assert Chain(log, first, all, s');
  }

  lemma {:induction false} SectionsProvenance(log: seq<Entry>, sections: seq<Members>, i: nat)
    requires Follows(log, sections) && i <= |log|
    ensures Derived(log[..i], sections[0], sections[i])
  {
    if i == 0 {
      assert Chain(log[..i], sections[0], [], sections[i]);
    } else {
      assert SectionOk(log, sections, i - 1);
      var e := log[i - 1];
      var m := if e.Wrote? then e.readAt else i - 1;
      SectionsProvenance(log, sections, m);
      DerivedLater(log, m, i, sections[0], sections[m]);
      if e.Wrote? && e.job.Supply? {
        DerivedEdit(log[..i], sections[0], sections[m], e.job.request, sections[i]);
      }
    }
  }

  // ----- the sections of a run -----------------------------------------------------------

  function SuppliesOf(text: CString): Members {
    if HasObject(Top(text), SUPPLIES) then Section(Top(text), SUPPLIES) else Nil
  }

  function Sections(history: seq<CString>): (s: seq<Members>)
    ensures |s| == |history|
    ensures forall i :: 0 <= i < |history| ==> s[i] == SuppliesOf(history[i])
  {
    seq(|history|, i requires 0 <= i < |history| => SuppliesOf(history[i]))
  }

  lemma {:induction false} WriteSupplies(job: Job, text: CString, text': CString)
    requires GoodText(text) && Apply(job, text) == Some(text')
    ensures if job.Supply? then Edited(SuppliesOf(text), job.request) == Some(SuppliesOf(text'))
            else SuppliesOf(text') == SuppliesOf(text)
  {
    WriteIsJob(job, text, text');
    ApplyLookup(job, Top(text), SUPPLIES);
  }

  lemma {:induction false} GrantIsSome(log: seq<Entry>, i: nat, pid: nat, request: CString)
    requires i < |log| && Granted(log[..i], pid, request)
    ensures GrantedToSome(log[..i + 1], request)
  {
    var k :| 0 <= k < i && log[..i][k] == Received(pid, Tcp, request);
    assert log[..i + 1][k] == Received(pid, Tcp, request);
  }

  lemma {:induction false} EntrySection(history: seq<CString>, log: seq<Entry>, i: nat)
    requires Faithful(history, log) && i < |log| && GoodText(history[0])
    ensures SectionOk(log, Sections(history), i)
  {
    assert EntryOk(history, log, i);
    if log[i].Wrote? {
      SchemaInEveryRun(history, log, log[i].readAt);
      WriteSupplies(log[i].job, history[log[i].readAt], history[i + 1]);
      if log[i].job.Supply? { GrantIsSome(log, i, log[i].pid, log[i].job.request); }
    }
  }

  /** Provenance: at every point of every run the supplies section is the initial one after some
      sequence of modify requests, each received by then by a TCP process with good credentials.
      Entry by entry, a granted request edits a section stored earlier; alert and emergency writers
      may bring an old section back, never a new one. */
  lemma {:induction false} SuppliesProvenance(history: seq<CString>, log: seq<Entry>, i: nat)
    requires Faithful(history, log) && i <= |log| && GoodText(history[0])
    ensures Derived(log[..i], SuppliesOf(history[0]), SuppliesOf(history[i]))
    ensures Follows(log, Sections(history))
  {
    forall k | 0 <= k < |log| ensures SectionOk(log, Sections(history), k) { EntrySection(history, log, k); }
    SectionsProvenance(log, Sections(history), i);
  }

  /** No request received over TCP by then reads the administrator's word for name and password. */
  ghost predicate NothingFromAdmin(log: seq<Entry>) {
    forall k :: 0 <= k < |log| && log[k].Received? && log[k].kind.Tcp? ==>
      Get(log[k].request, "hostname") != Some("ubuntu") || Get(log[k].request, "password") != Some("ubuntu")
  }

  /** Without such a request the supplies never change. */
  lemma {:induction false} NoGrantNoChange(history: seq<CString>, log: seq<Entry>, i: nat)
    requires Faithful(history, log) && i <= |log| && GoodText(history[0])
    requires NothingFromAdmin(log[..i])
    ensures SuppliesOf(history[i]) == SuppliesOf(history[0])
  {
    forall r ensures !GrantedToSome(log[..i], r) {
    }
    SuppliesProvenance(history, log, i);
    var requests :| Chain(log[..i], SuppliesOf(history[0]), requests, SuppliesOf(history[i]));
    assert |requests| == 0;
  }

  // ----- item by item ----------------------------------------------------------------------

  /** A member with this key and value is in this category. */
  predicate HasItem(section: Members, category: CString, key: CString, v: Json) {
    HasObject(section, category) && HasMember(Section(section, category), key, v)
  }

  /** The request names this category and key, and its value makes this item. */
  predicate AsksFor(request: CString, category: CString, key: CString, v: Json) {
    match RequestFields(request)
    case Some(f) => f.category == category && f.key == key && IntItem(f.value) == v
    case None => false
  }

  lemma {:induction false} EditedItems(section: Members, request: CString, category: CString, key: CString, v: Json)
    requires UniqueFold(section) && Edited(section, request).Some?
    requires HasItem(Edited(section, request).value, category, key, v)
    ensures HasItem(section, category, key, v) || AsksFor(request, category, key, v)
  {
    var f := RequestFields(request).value;
    var items := Section(section, f.category);
    UniqueIsSafe(section, f.category);
    OverrideLookup(section, f.category, Obj(Override(items, f.key, IntItem(f.value))), category);
    if category == f.category { OverrideMembers(items, f.key, IntItem(f.value), key, v); }
  }

  /** Every member of a category after some requests was there before, or one of them asked for it. */
  lemma {:induction false} FoldItems(first: Members, requests: seq<CString>, category: CString, key: CString, v: Json)
    requires UniqueFold(first) && AllObjects(first) && FoldSupplies(first, requests).Some?
    ensures var section := FoldSupplies(first, requests).value;
            && UniqueFold(section) && AllObjects(section)
            && (HasItem(section, category, key, v) ==>
                  || HasItem(first, category, key, v)
                  || exists k :: 0 <= k < |requests| && AsksFor(requests[k], category, key, v))
    decreases |requests|
  {
    if requests != [] {
      var n := |requests| - 1;
      var before := FoldSupplies(first, requests[..n]).value;
      FoldItems(first, requests[..n], category, key, v);
      SuppliesKeep(RequestFields(requests[n]).value, before);
      if HasItem(FoldSupplies(first, requests).value, category, key, v) {
        EditedItems(before, requests[n], category, key, v);
        if !AsksFor(requests[n], category, key, v) && !HasItem(first, category, key, v) {
          var k :| 0 <= k < n && AsksFor(requests[..n][k], category, key, v);
          assert AsksFor(requests[k], category, key, v);
        }
      }
    }
  }

  /** Provenance of every item: at every point of every run, each member of a category of supplies
      was there at the start, or a granted request named that category and key and asked for it. */
  lemma {:induction false} ItemProvenance(history: seq<CString>, log: seq<Entry>, i: nat, category: CString, key: CString, v: Json)
    requires Faithful(history, log) && i <= |log| && GoodText(history[0])
    requires HasItem(SuppliesOf(history[i]), category, key, v)
    ensures || HasItem(SuppliesOf(history[0]), category, key, v)
            || exists request :: GrantedToSome(log[..i], request) && AsksFor(request, category, key, v)
  {
    var first := SuppliesOf(history[0]);
    SuppliesProvenance(history, log, i);
    var requests :| Chain(log[..i], first, requests, SuppliesOf(history[i]));
    FoldItems(first, requests, category, key, v);
    if !HasItem(first, category, key, v) {
      var k :| 0 <= k < |requests| && AsksFor(requests[k], category, key, v);
      assert GrantedToSome(log[..i], requests[k]);
    }
  }
}
