/** The object store of cJSON: an ordered list of members, looked up by exact key, deleted ignoring case. */
module Json {
  import opened CText
  import opened Decimal

  datatype Json = Str(s: CString) | Num(d: Decimal) | Word(w: Word) | Obj(ms: Members)

  datatype Word = Null | True | False

  /** The linked list of children that an object item holds. */
  datatype Members = Nil | Cons(key: CString, val: Json, rest: Members)

  /** An integer item. */
  function Number(n: int): Json { Num(Int(n)) }

  // ----- the cJSON operations ------------------------------------------------------------

  /** `cJSON_GetObjectItemCaseSensitive`: the first member with exactly this key. */
  function Lookup(ms: Members, k: CString): Option<Json> {
    match ms
    case Nil => None
    case Cons(k', v, r) => if k' == k then Some(v) else Lookup(r, k)
  }

  /** `cJSON_DeleteItemFromObject`: unlinks the first member whose key matches ignoring case. */
  function DeleteFold(ms: Members, k: CString): Members {
    match ms
    case Nil => Nil
    case Cons(k', v, r) => if EqFold(k', k) then r else Cons(k', v, DeleteFold(r, k))
  }

  function Concat(a: Members, b: Members): Members {
    match a
    case Nil => b
    case Cons(k, v, r) => Cons(k, v, Concat(r, b))
  }

  /** `cJSON_AddItemToObject`: links a member at the end. */
  function Append(ms: Members, k: CString, v: Json): Members { Concat(ms, Cons(k, v, Nil)) }

  /** The override idiom: delete when the exact key is there, then append. */
  function Override(ms: Members, k: CString, v: Json): Members {
    Append(if Lookup(ms, k).Some? then DeleteFold(ms, k) else ms, k, v)
  }

  // ----- what "well formed" means --------------------------------------------------------

  function Keys(ms: Members): set<CString> {
    match ms case Nil => {} case Cons(k, _, r) => {k} + Keys(r)
  }

  predicate HasFold(ms: Members, k: CString) {
    match ms case Nil => false case Cons(k', _, r) => EqFold(k', k) || HasFold(r, k)
  }

  /** No two keys are equal up to letter case. */
  predicate UniqueFold(ms: Members) {
    match ms case Nil => true case Cons(k, _, r) => !HasFold(r, k) && UniqueFold(r)
  }

  /** The guard under which override does what its name says: the first member that matches `k`
      ignoring case is `k` itself, and `k` does not occur again after it. */
  predicate OverrideSafe(ms: Members, k: CString) {
    Lookup(ms, k).Some? ==> FirstFoldIsOnlyExact(ms, k)
  }

  predicate FirstFoldIsOnlyExact(ms: Members, k: CString) {
    match ms
    case Nil => false
    case Cons(k', _, r) =>
      if EqFold(k', k) then k' == k && Lookup(r, k).None? else FirstFoldIsOnlyExact(r, k)
  }

  // ----- facts about the building blocks -------------------------------------------------

  lemma LookupKeys(ms: Members, k: CString)
    ensures Lookup(ms, k).Some? <==> k in Keys(ms)
    ensures k in Keys(ms) ==> HasFold(ms, k)
  {
  }

  lemma LookupAppend(ms: Members, k: CString, v: Json, q: CString)
    ensures Lookup(Append(ms, k, v), q)
         == if Lookup(ms, q).Some? then Lookup(ms, q) else if q == k then Some(v) else None
  {
  }

  lemma KeysAppend(ms: Members, k: CString, v: Json)
    ensures Keys(Append(ms, k, v)) == Keys(ms) + {k}
  {
    if ms.Cons? { KeysAppend(ms.rest, k, v); }
  }

  /** Deleting under the guard removes exactly `k`, and no other lookup moves. */
  lemma {:induction false} DeleteExact(ms: Members, k: CString, q: CString)
    requires FirstFoldIsOnlyExact(ms, k)
    ensures Lookup(DeleteFold(ms, k), q) == if q == k then None else Lookup(ms, q)
    ensures Keys(DeleteFold(ms, k)) == Keys(ms) - {k}
  {
    LookupKeys(ms.rest, k);
    if !EqFold(ms.key, k) {
      DeleteExact(ms.rest, k, q);
    }
  }

  /** Deleting when the first match ignoring case is another key leaves `k` where it was. */
  lemma {:induction false} DeleteMisses(ms: Members, k: CString)
    requires Lookup(ms, k).Some? && !FirstFoldIsOnlyExact(ms, k)
    ensures Lookup(DeleteFold(ms, k), k).Some?
  {
    if !EqFold(ms.key, k) {
      DeleteMisses(ms.rest, k);
    }
  }

  // ----- override ------------------------------------------------------------------------

  /** Exactly when override is a map update: for every value, reading the key back gives that value. */
  lemma {:induction false} OverrideReadsBack(ms: Members, k: CString)
    ensures OverrideSafe(ms, k) <==> forall v :: Lookup(Override(ms, k, v), k) == Some(v)
  {
    var base := if Lookup(ms, k).Some? then DeleteFold(ms, k) else ms;
    forall v ensures Lookup(Override(ms, k, v), k) == if Lookup(base, k).Some? then Lookup(base, k) else Some(v) {
      LookupAppend(base, k, v, k);
    }
    if OverrideSafe(ms, k) {
      if Lookup(ms, k).Some? { DeleteExact(ms, k, k); }
    } else {
      DeleteMisses(ms, k);
      var kept := Lookup(base, k).value;
      var other := if kept == Number(0) then Number(1) else Number(0);
      assert Lookup(Override(ms, k, other), k) != Some(other);
    }
  }

  /** Under the guard, override is a map update: the key reads the value, every other key its old one. */
  lemma {:induction false} OverrideLookup(ms: Members, k: CString, v: Json, q: CString)
    requires OverrideSafe(ms, k)
    ensures Lookup(Override(ms, k, v), q) == if q == k then Some(v) else Lookup(ms, q)
    ensures Keys(Override(ms, k, v)) == Keys(ms) + {k}
  {
    var base := if Lookup(ms, k).Some? then DeleteFold(ms, k) else ms;
    if Lookup(ms, k).Some? { DeleteExact(ms, k, q); }
    LookupKeys(ms, k);
    LookupAppend(base, k, v, q);
    KeysAppend(base, k, v);
  }

  /** The first key that matches `k` ignoring case: the one that deletion removes. */
  function FirstFold(ms: Members, k: CString): Option<CString> {
    match ms
    case Nil => None
    case Cons(k', _, r) => if EqFold(k', k) then Some(k') else FirstFold(r, k)
  }

  function Occurrences(ms: Members, k: CString): nat {
    match ms case Nil => 0 case Cons(k', _, r) => (if k' == k then 1 else 0) + Occurrences(r, k)
  }

  lemma {:induction false} DeleteHits(ms: Members, k: CString, k': CString, q: CString)
    requires FirstFold(ms, k) == Some(k')
    ensures q != k' ==> Lookup(DeleteFold(ms, k), q) == Lookup(ms, q)
    ensures Occurrences(DeleteFold(ms, k), k') == Occurrences(ms, k') - 1
  {
    if !EqFold(ms.key, k) { DeleteHits(ms.rest, k, k', q); }
  }

  lemma {:induction false} OccurrencesConcat(a: Members, b: Members, k: CString)
    ensures Occurrences(Concat(a, b), k) == Occurrences(a, k) + Occurrences(b, k)
  {
    if a.Cons? { OccurrencesConcat(a.rest, b, k); }
  }

  /** What goes wrong otherwise, in general: when the first key that matches ignoring case is another
      one, wherever it stands, overriding `k` removes a member of that other key, and every lookup
      but that key's, `k`'s own included, still gives the old value. */
  lemma {:induction false} OverrideHitsTheOtherKey(ms: Members, k: CString, v: Json, k': CString, q: CString)
    requires Lookup(ms, k).Some? && FirstFold(ms, k) == Some(k') && k' != k
    ensures q != k' ==> Lookup(Override(ms, k, v), q) == Lookup(ms, q)
    ensures Occurrences(Override(ms, k, v), k') == Occurrences(ms, k') - 1
  {
    DeleteHits(ms, k, k', q);
    DeleteHits(ms, k, k', k);
    LookupAppend(DeleteFold(ms, k), k, v, q);
    OccurrencesConcat(DeleteFold(ms, k), Cons(k, v, Nil), k');
  }

  lemma {:induction false} OccursIfFound(ms: Members, k: CString)
    ensures Lookup(ms, k).Some? <==> Occurrences(ms, k) > 0
  {
    if ms.Cons? { OccursIfFound(ms.rest, k); }
  }

  /** A member with this key and value is somewhere in the list. */
  predicate HasMember(ms: Members, k: CString, v: Json) {
    match ms case Nil => false case Cons(k', v', r) => (k' == k && v' == v) || HasMember(r, k, v)
  }

  lemma {:induction false} LookupIsMember(ms: Members, k: CString)
    requires Lookup(ms, k).Some?
    ensures HasMember(ms, k, Lookup(ms, k).value)
  {
    if ms.key != k { LookupIsMember(ms.rest, k); }
  }

  lemma {:induction false} DeleteMembers(ms: Members, q: CString, k: CString, v: Json)
    requires HasMember(DeleteFold(ms, q), k, v)
    ensures HasMember(ms, k, v)
  {
    if !EqFold(ms.key, q) && !(ms.key == k && ms.val == v) { DeleteMembers(ms.rest, q, k, v); }
  }

  lemma {:induction false} ConcatMembers(a: Members, b: Members, k: CString, v: Json)
    ensures HasMember(Concat(a, b), k, v) <==> HasMember(a, k, v) || HasMember(b, k, v)
  {
    if a.Cons? { ConcatMembers(a.rest, b, k, v); }
  }

  /** Override brings in one member and no other, whatever it removes. */
  lemma {:induction false} OverrideMembers(ms: Members, q: CString, w: Json, k: CString, v: Json)
    requires HasMember(Override(ms, q, w), k, v)
    ensures HasMember(ms, k, v) || (k == q && v == w)
  {
    var base := if Lookup(ms, q).Some? then DeleteFold(ms, q) else ms;
    ConcatMembers(base, Cons(q, w, Nil), k, v);
    if HasMember(base, k, v) && Lookup(ms, q).Some? { DeleteMembers(ms, q, k, v); }
  }

  // ----- uniqueness up to case -----------------------------------------------------------

  lemma FoldSymmetric(a: CString, b: CString)
    ensures EqFold(a, b) <==> EqFold(b, a)
  {
  }

  lemma {:induction false} HasFoldConcat(a: Members, b: Members, k: CString)
    ensures HasFold(Concat(a, b), k) <==> HasFold(a, k) || HasFold(b, k)
  {
    if a.Cons? { HasFoldConcat(a.rest, b, k); }
  }

  lemma {:induction false} HasFoldDelete(ms: Members, k: CString, q: CString)
    ensures HasFold(DeleteFold(ms, k), q) ==> HasFold(ms, q)
    ensures UniqueFold(ms) ==> UniqueFold(DeleteFold(ms, k))
    ensures UniqueFold(ms) && EqFold(k, q) ==> !HasFold(DeleteFold(ms, k), q)
  {
    match ms
    case Nil =>
    case Cons(k', v, r) =>
      HasFoldDelete(r, k, q);
      HasFoldDelete(r, k, k');
      if EqFold(k', k) && EqFold(k, q) { HasFoldTransfers(r, k', q); }
  }

  lemma {:induction false} HasFoldTransfers(ms: Members, k: CString, q: CString)
    requires EqFold(k, q)
    ensures HasFold(ms, k) <==> HasFold(ms, q)
  {
    if ms.Cons? { HasFoldTransfers(ms.rest, k, q); }
  }

  lemma {:induction false} UniqueAppend(ms: Members, k: CString, v: Json)
    ensures UniqueFold(Append(ms, k, v)) <==> UniqueFold(ms) && !HasFold(ms, k)
  {
    match ms
    case Nil =>
    case Cons(k', v', r) =>
      UniqueAppend(r, k, v);
      HasFoldConcat(r, Cons(k, v, Nil), k');
      FoldSymmetric(k', k);
  }

  lemma {:induction false} UniqueIsSafe(ms: Members, k: CString)
    requires UniqueFold(ms)
    ensures OverrideSafe(ms, k)
  {
    match ms
    case Nil =>
    case Cons(k', v, r) =>
      UniqueIsSafe(r, k);
      LookupKeys(r, k);
      if EqFold(k', k) { HasFoldTransfers(r, k', k); }
  }

  /** Among keys unique up to case, the one that is there is the first match and the only member. */
  lemma {:induction false} UniqueIsFirst(ms: Members, k: CString, k': CString)
    requires UniqueFold(ms) && Lookup(ms, k').Some? && EqFold(k', k)
    ensures FirstFold(ms, k) == Some(k') && Occurrences(ms, k') == 1
  {
    LookupKeys(ms.rest, k');
    OccursIfFound(ms.rest, k');
    if ms.key != k' {
      if EqFold(ms.key, k) { HasFoldTransfers(ms.rest, k', ms.key); }
      UniqueIsFirst(ms.rest, k, k');
    }
  }

  lemma {:induction false} FirstFoldConcat(a: Members, b: Members, k: CString)
    ensures FirstFold(a, k).Some? ==> FirstFold(Concat(a, b), k) == FirstFold(a, k)
  {
    if a.Cons? { FirstFoldConcat(a.rest, b, k); }
  }

  /** Override keeps keys unique up to case exactly when its key is there exactly or absent up to case. */
  lemma {:induction false} OverrideKeepsUnique(ms: Members, k: CString, v: Json)
    requires UniqueFold(ms)
    ensures UniqueFold(Override(ms, k, v)) <==> Lookup(ms, k).Some? || !HasFold(ms, k)
  {
    if Lookup(ms, k).Some? {
      HasFoldDelete(ms, k, k);
      UniqueAppend(DeleteFold(ms, k), k, v);
    } else {
      UniqueAppend(ms, k, v);
    }
  }

  /** A sequence of override-adds, first to last. */
  function OverrideAll(ms: Members, adds: seq<(CString, Json)>): Members
    decreases |adds|
  {
    if adds == [] then ms
    else OverrideAll(Override(ms, adds[0].0, adds[0].1), adds[1..])
  }

  /** Each key in turn is there exactly or absent up to case. */
  predicate Admissible(ms: Members, adds: seq<(CString, Json)>)
    decreases |adds|
  {
    adds == [] ||
    (&& (Lookup(ms, adds[0].0).Some? || !HasFold(ms, adds[0].0))
     && Admissible(Override(ms, adds[0].0, adds[0].1), adds[1..]))
  }

  /** The last value written for `q`, if any. */
  function LastValue(adds: seq<(CString, Json)>, q: CString): Option<Json> {
    if adds == [] then None
    else if LastValue(adds[1..], q).Some? then LastValue(adds[1..], q)
    else if adds[0].0 == q then Some(adds[0].1) else None
  }

  /** Over every admissible sequence of adds the object stays well formed and behaves as a map. */
  lemma {:induction false} OverrideRun(ms: Members, adds: seq<(CString, Json)>, q: CString)
    requires UniqueFold(ms) && Admissible(ms, adds)
    ensures UniqueFold(OverrideAll(ms, adds))
    ensures Lookup(OverrideAll(ms, adds), q)
         == if LastValue(adds, q).Some? then LastValue(adds, q) else Lookup(ms, q)
    decreases |adds|
  {
    if adds != [] {
      var (k, v) := adds[0];
      OverrideKeepsUnique(ms, k, v);
      UniqueIsSafe(ms, k);
      OverrideLookup(ms, k, v, q);
      OverrideRun(Override(ms, k, v), adds[1..], q);
    }
  }
}
