/** The merge loop of the JSON handler, against its closed form. */
module JsonMerge {
  import opened CText
  import opened Json

  /** The loop as a fold: each member of `b` in turn overrides in `a`. */
  function MergeFold(a: Members, b: Members): Members
    decreases b
  {
    match b
    case Nil => a
    case Cons(k, v, r) => MergeFold(Override(a, k, v), r)
  }

  /** The members whose keys are not in `ks`, in order. */
  function Without(a: Members, ks: set<CString>): Members {
    match a
    case Nil => Nil
    case Cons(k, v, r) => if k in ks then Without(r, ks) else Cons(k, v, Without(r, ks))
  }

  /** Keys are unique up to case across both objects, except for exact matches. */
  ghost predicate Compatible(a: Members, b: Members) {
    && UniqueFold(a) && UniqueFold(b)
    && forall q :: q in Keys(b) ==> q in Keys(a) || !HasFold(a, q)
  }

  // ----- list algebra --------------------------------------------------------------------

  lemma ConcatAssoc(a: Members, b: Members, c: Members)
    ensures Concat(Concat(a, b), c) == Concat(a, Concat(b, c))
  {
  }

  lemma WithoutConcat(a: Members, b: Members, ks: set<CString>)
    ensures Without(Concat(a, b), ks) == Concat(Without(a, ks), Without(b, ks))
  {
  }

  lemma WithoutTwice(a: Members, ks: set<CString>, ls: set<CString>)
    ensures Without(Without(a, ks), ls) == Without(a, ks + ls)
  {
  }

  lemma WithoutDisjoint(a: Members, ks: set<CString>)
    requires Keys(a) !! ks
    ensures Without(a, ks) == a
  {
  }

  lemma WithoutAll(a: Members, ks: set<CString>)
    requires Keys(a) <= ks
    ensures Without(a, ks) == Nil
  {
  }

  lemma {:induction false} KeysConcat(a: Members, b: Members)
    ensures Keys(Concat(a, b)) == Keys(a) + Keys(b)
  {
    if a.Cons? { KeysConcat(a.rest, b); }
  }

  lemma {:induction false} KeysWithout(a: Members, ks: set<CString>)
    ensures Keys(Without(a, ks)) == Keys(a) - ks
  {
    if a.Cons? { KeysWithout(a.rest, ks); }
  }

  lemma {:induction false} LookupConcat(a: Members, b: Members, q: CString)
    ensures Lookup(Concat(a, b), q) == if q in Keys(a) then Lookup(a, q) else Lookup(b, q)
  {
    LookupKeys(a, q);
    if a.Cons? { LookupConcat(a.rest, b, q); }
  }

  lemma {:induction false} LookupWithout(a: Members, ks: set<CString>, q: CString)
    requires q !in ks
    ensures Lookup(Without(a, ks), q) == Lookup(a, q)
  {
    if a.Cons? { LookupWithout(a.rest, ks, q); }
  }

  lemma {:induction false} FoldWithout(a: Members, ks: set<CString>, q: CString)
    ensures HasFold(Without(a, ks), q) ==> HasFold(a, q)
  {
    if a.Cons? { FoldWithout(a.rest, ks, q); }
  }

  lemma {:induction false} UniqueWithout(a: Members, ks: set<CString>)
    requires UniqueFold(a)
    ensures UniqueFold(Without(a, ks))
  {
    if a.Cons? {
      UniqueWithout(a.rest, ks);
      FoldWithout(a.rest, ks, a.key);
    }
  }

  /** With unique keys, deleting ignoring case removes the exact key and nothing else. */
  lemma {:induction false} DeleteIsWithout(a: Members, k: CString)
    requires UniqueFold(a) && k in Keys(a)
    ensures DeleteFold(a, k) == Without(a, {k})
  {
    LookupKeys(a.rest, k);
    if EqFold(a.key, k) {
      HasFoldTransfers(a.rest, a.key, k);
      WithoutDisjoint(a.rest, {k});
    } else {
      DeleteIsWithout(a.rest, k);
    }
  }

  /** One round of the loop in closed form. */
  lemma {:induction false} OverrideIsAppend(a: Members, k: CString, v: Json)
    requires UniqueFold(a)
    ensures Override(a, k, v) == Append(Without(a, {k}), k, v)
  {
    LookupKeys(a, k);
    if k in Keys(a) { DeleteIsWithout(a, k); } else { WithoutDisjoint(a, {k}); }
  }

  // ----- the loop meets its closed form --------------------------------------------------

  lemma {:induction false} RoundKeepsCompatible(a: Members, k: CString, v: Json, r: Members)
    requires Compatible(a, Cons(k, v, r))
    ensures Compatible(Override(a, k, v), r)
  {
    var a' := Override(a, k, v);
    assert k in Keys(Cons(k, v, r));
    LookupKeys(a, k);
    OverrideKeepsUnique(a, k, v);
    OverrideIsAppend(a, k, v);
    KeysAppend(Without(a, {k}), k, v);
    KeysWithout(a, {k});
    forall q | q in Keys(r) ensures q in Keys(a') || !HasFold(a', q) {
      assert q in Keys(Cons(k, v, r));
      if q !in Keys(a) {
        HasFoldConcat(Without(a, {k}), Cons(k, v, Nil), q);
        FoldWithout(a, {k}, q);
        LookupKeys(r, q);
        if EqFold(k, q) { HasFoldTransfers(r, k, q); }
      }
    }
  }

  /** The delete-and-append loop yields the first object's members that the second does not name,
      in order, followed by the second's members. */
  lemma {:induction false} MergeClosedForm(a: Members, b: Members)
    requires Compatible(a, b)
    ensures MergeFold(a, b) == Concat(Without(a, Keys(b)), b)
    decreases b
  {
    match b
    case Nil =>
      WithoutDisjoint(a, {});
      ConcatNil(a);
    case Cons(k, v, r) =>
      RoundKeepsCompatible(a, k, v, r);
      MergeClosedForm(Override(a, k, v), r);
      OverrideIsAppend(a, k, v);
      var one := Cons(k, v, Nil);
      LookupKeys(r, k);
      WithoutConcat(Without(a, {k}), one, Keys(r));
      WithoutTwice(a, {k}, Keys(r));
      WithoutDisjoint(one, Keys(r));
      ConcatAssoc(Without(a, Keys(b)), one, r);
  }

  lemma ConcatNil(a: Members)
    ensures Concat(a, Nil) == a
  {
  }

  /** Right-biased: a key of the second object reads the second's value, any other the first's. */
  lemma {:induction false} MergeIsRightBiased(a: Members, b: Members, q: CString)
    requires Compatible(a, b)
    ensures Lookup(MergeFold(a, b), q) == if q in Keys(b) then Lookup(b, q) else Lookup(a, q)
  {
    MergeClosedForm(a, b);
    LookupConcat(Without(a, Keys(b)), b, q);
    KeysWithout(a, Keys(b));
    LookupKeys(a, q);
    LookupKeys(b, q);
    if q !in Keys(b) { LookupWithout(a, Keys(b), q); }
  }

  /** Merging an object with itself changes nothing, not even the order. */
  lemma {:induction false} MergeIsIdempotent(a: Members)
    requires UniqueFold(a)
    ensures MergeFold(a, a) == a
  {
    MergeClosedForm(a, a);
    WithoutAll(a, Keys(a));
  }

  lemma {:induction false} UniqueConcat(a: Members, b: Members)
    requires UniqueFold(a) && UniqueFold(b)
    requires forall q :: q in Keys(b) ==> !HasFold(a, q)
    ensures UniqueFold(Concat(a, b))
    decreases a
  {
    if a.Cons? {
      forall q | q in Keys(b) ensures !HasFold(a.rest, q) && !EqFold(a.key, q) {
        assert !HasFold(a, q);
      }
      UniqueConcat(a.rest, b);
      HasFoldConcat(a.rest, b, a.key);
      NoFoldOf(b, a.key);
    }
  }

  lemma {:induction false} NoFoldOf(b: Members, k: CString)
    requires forall q :: q in Keys(b) ==> !EqFold(k, q)
    ensures !HasFold(b, k)
  {
    if b.Cons? {
      assert b.key in Keys(b);
      NoFoldOf(b.rest, k);
    }
  }

  /** With unique keys a member equal up to case to a key that is present is that key. */
  lemma {:induction false} WithoutHidesFold(a: Members, ks: set<CString>, q: CString)
    requires UniqueFold(a) && q in Keys(a) && q in ks
    ensures !HasFold(Without(a, ks), q)
  {
    LookupKeys(a.rest, q);
    if EqFold(a.key, q) {
      HasFoldTransfers(a.rest, a.key, q);
      FoldWithout(a.rest, ks, q);
    } else {
      WithoutHidesFold(a.rest, ks, q);
    }
  }

  /** A merge of compatible objects is well formed and has the union of their keys. */
  lemma {:induction false} MergeKeeps(a: Members, b: Members)
    requires Compatible(a, b)
    ensures UniqueFold(MergeFold(a, b)) && Keys(MergeFold(a, b)) == Keys(a) + Keys(b)
  {
    MergeClosedForm(a, b);
    UniqueWithout(a, Keys(b));
    KeysWithout(a, Keys(b));
    KeysConcat(Without(a, Keys(b)), b);
    forall q | q in Keys(b) ensures !HasFold(Without(a, Keys(b)), q) {
      if q in Keys(a) { WithoutHidesFold(a, Keys(b), q); } else { FoldWithout(a, Keys(b), q); }
    }
    UniqueConcat(Without(a, Keys(b)), b);
  }

  lemma {:induction false} MergeLeftCompatible(a: Members, b: Members, c: Members)
    requires Compatible(a, b) && Compatible(b, c) && Compatible(a, c)
    ensures Compatible(MergeFold(a, b), c)
  {
    MergeKeeps(a, b);
    MergeClosedForm(a, b);
    forall q | q in Keys(c) ensures q in Keys(MergeFold(a, b)) || !HasFold(MergeFold(a, b), q) {
      HasFoldConcat(Without(a, Keys(b)), b, q);
      FoldWithout(a, Keys(b), q);
    }
  }

  lemma {:induction false} MergeRightCompatible(a: Members, b: Members, c: Members)
    requires Compatible(a, b) && Compatible(b, c) && Compatible(a, c)
    ensures Compatible(a, MergeFold(b, c))
  {
    MergeKeeps(b, c);
  }

  /** Merging is associative, member for member and in the same order. */
  lemma {:induction false} MergeIsAssociative(a: Members, b: Members, c: Members)
    requires Compatible(a, b) && Compatible(b, c) && Compatible(a, c)
    ensures MergeFold(MergeFold(a, b), c) == MergeFold(a, MergeFold(b, c))
  {
    MergeLeftCompatible(a, b, c);
    MergeRightCompatible(a, b, c);
    MergeClosedForm(a, b);
    MergeClosedForm(b, c);
    MergeClosedForm(MergeFold(a, b), c);
    MergeClosedForm(a, MergeFold(b, c));
    MergeKeeps(b, c);
    WithoutConcat(Without(a, Keys(b)), b, Keys(c));
    WithoutTwice(a, Keys(b), Keys(c));
    ConcatAssoc(Without(a, Keys(b) + Keys(c)), Without(b, Keys(c)), c);
  }
}
