// What a subscription request means (resources/push.go, resolveSubType).
module Requests {

  import opened Basics
  import opened Text
  import opened Notifications
  import opened Dispatching

  /** The configured type lists. */
  datatype TypeLists = TypeLists(inAll: seq<string>, supported: seq<string>, default: string)

  ghost predicate AreAscii(types: seq<string>) {
    forall i :: 0 <= i < |types| ==> IsAscii(types[i])
  }

  predicate IsSupported(lists: TypeLists, requested: string) {
    exists i :: 0 <= i < |lists.supported| && EqualFold(requested, lists.supported[i])
  }

  predicate IsAll(requested: string) {
    EqualFold(requested, ALL_CONTENT_TYPE)
  }

  /** What one requested type contributes to the subscription. */
  function Contribution(lists: TypeLists, requested: string): seq<string> {
    if IsAll(requested) then lists.inAll
    else if IsSupported(lists, requested) then [requested]
    else []
  }

  function Contributions(lists: TypeLists, requested: seq<string>): seq<string> {
    if requested == [] then []
    else Contributions(lists, requested[..|requested| - 1]) + Contribution(lists, requested[|requested| - 1])
  }

  /** The types of an accepted request; None for an unsupported one. */
  function Resolved(lists: TypeLists, requested: seq<string>): Option<seq<string>> {
    if requested == [] then Some([lists.default])
    else
      var types := Contributions(lists, requested);
      if types == [] then None else Some(types)
  }

  /** A request that names no type, or asks for a filled All list, or for some supported type. */
  predicate IsAccepted(lists: TypeLists, requested: seq<string>) {
    || requested == []
    || (lists.inAll != [] && exists i :: 0 <= i < |requested| && EqualFold(requested[i], "All"))
    || exists i, k :: 0 <= i < |requested| && 0 <= k < |lists.supported|
                      && !EqualFold(requested[i], "All") && EqualFold(requested[i], lists.supported[k])
  }

  lemma {:induction false} ContributionsFilled(lists: TypeLists, requested: seq<string>)
    ensures Contributions(lists, requested) != [] <==>
            exists i :: 0 <= i < |requested| && Contribution(lists, requested[i]) != []
  {
    if requested != [] {
      var front, last := requested[..|requested| - 1], requested[|requested| - 1];
      ContributionsFilled(lists, front);
      if i :| 0 <= i < |requested| && Contribution(lists, requested[i]) != [] {
        assert i < |front| ==> requested[i] == front[i];
      }
      if i :| 0 <= i < |front| && Contribution(lists, front[i]) != [] {
        assert requested[i] == front[i];
      }
    }
  }

  /** Which requests are accepted, and that a request without types gets the default. */
  lemma AcceptedIff(lists: TypeLists, requested: seq<string>)
    ensures Resolved(lists, requested).Some? <==> IsAccepted(lists, requested)
    ensures requested == [] ==> Resolved(lists, requested) == Some([lists.default])
  {
    if requested != [] {
      ContributionsFilled(lists, requested);
      if i :| 0 <= i < |requested| && Contribution(lists, requested[i]) != [] {
        if !EqualFold(requested[i], "All") {
          var k :| 0 <= k < |lists.supported| && EqualFold(requested[i], lists.supported[k]);
        }
      }
      if i, k :| 0 <= i < |requested| && 0 <= k < |lists.supported|
                 && !EqualFold(requested[i], "All") && EqualFold(requested[i], lists.supported[k]) {
        assert Contribution(lists, requested[i]) == [requested[i]];
      }
      if i :| 0 <= i < |requested| && EqualFold(requested[i], "All") {
        assert Contribution(lists, requested[i]) == lists.inAll;
      }
    }
  }

  method ResolveSubType(lists: TypeLists, requested: seq<string>) returns (types: Option<seq<string>>)
    ensures types == Resolved(lists, requested)
    ensures types.Some? <==> IsAccepted(lists, requested)
    ensures requested == [] ==> types == Some([lists.default])
  {
    AcceptedIff(lists, requested);
    var retVal: seq<string> := [];
    if |requested| == 0 {
      return Some([lists.default]);
    }
    for i := 0 to |requested|
      invariant retVal == Contributions(lists, requested[..i])
    {
      assert requested[..i + 1][..i] == requested[..i];
      ghost var before := retVal;
      if EqualFold(requested[i], ALL_CONTENT_TYPE) {
        retVal := retVal + lists.inAll;
        continue;
      }
      for j := 0 to |lists.supported|
        invariant retVal == before
        invariant forall k :: 0 <= k < j ==> !EqualFold(requested[i], lists.supported[k])
      {
        if EqualFold(requested[i], lists.supported[j]) {
          retVal := retVal + [requested[i]];
          break;
        }
      }
    }
    assert requested[..|requested|] == requested;
    if |retVal| == 0 {
      return None;
    }
    return Some(retVal);
  }

  // ---------------------------------------------------------------- what the types match

  /** Some requested type is this one, whatever its letter case, and holds no long s. */
  ghost predicate AsksFor(requested: seq<string>, t: string) {
    exists i :: 0 <= i < |requested| && EqualFold(requested[i], t) && LONG_S !in requested[i]
  }

  ghost predicate AsksForAll(requested: seq<string>) {
    exists i :: 0 <= i < |requested| && IsAll(requested[i])
  }

  lemma {:induction false} ContributionsMatch(lists: TypeLists, requested: seq<string>, lowered: string)
    ensures HasType(Contributions(lists, requested), lowered) <==>
            exists i :: 0 <= i < |requested| && HasType(Contribution(lists, requested[i]), lowered)
  {
    if requested != [] {
      var front, last := requested[..|requested| - 1], requested[|requested| - 1];
      ContributionsMatch(lists, front, lowered);
      HasTypeConcat(Contributions(lists, front), Contribution(lists, last), lowered);
      if i :| 0 <= i < |requested| && HasType(Contribution(lists, requested[i]), lowered) {
        assert i < |front| ==> requested[i] == front[i];
      }
      if i :| 0 <= i < |front| && HasType(Contribution(lists, front[i]), lowered) {
        assert requested[i] == front[i];
      }
    }
  }

  lemma HasTypeConcat(a: seq<string>, b: seq<string>, lowered: string)
    ensures HasType(a + b, lowered) <==> HasType(a, lowered) || HasType(b, lowered)
  {
    if i :| 0 <= i < |a| && ToLower(a[i]) == lowered {
      assert (a + b)[i] == a[i];
    }
    if i :| 0 <= i < |b| && ToLower(b[i]) == lowered {
      assert (a + b)[|a| + i] == b[i];
    }
  }

  /** A single supported request admits an ASCII type exactly when it spells it without a long s. */
  lemma SupportedRequestMatch(lists: TypeLists, r: string, t: string)
    requires AreAscii(lists.supported) && IsAscii(t) && !IsAll(r)
    ensures IsSupported(lists, r) && ToLower(r) == ToLower(t) <==>
            EqualFold(r, t) && LONG_S !in r && IsSupported(lists, t) && !IsAll(t)
  {
  }

  /**
   * What a request asks for: the default when it names no type; everything in the All list when it
   * asks for All; and each supported type it spells, in any letter case, without a long s.
   */
  ghost predicate Admits(lists: TypeLists, requested: seq<string>, t: string) {
    || (requested == [] && ToLower(lists.default) == ToLower(t))
    || (AsksForAll(requested) && HasType(lists.inAll, ToLower(t)))
    || (AsksFor(requested, t) && IsSupported(lists, t) && !IsAll(t))
  }

  /** The types an accepted request resolves to are what it asks for. */
  lemma SubscriptionMeaning(lists: TypeLists, requested: seq<string>, t: string)
    requires AreAscii(lists.supported) && IsAscii(t)
    requires Resolved(lists, requested).Some?
    ensures HasType(Resolved(lists, requested).value, ToLower(t)) <==> Admits(lists, requested, t)
  {
    var lowered := ToLower(t);
    if requested == [] {
      assert HasType([lists.default], lowered) <==> ToLower([lists.default][0]) == lowered;
    } else {
      ContributionsMatch(lists, requested, lowered);
      forall i | 0 <= i < |requested|
        ensures HasType(Contribution(lists, requested[i]), lowered) <==>
                || (IsAll(requested[i]) && HasType(lists.inAll, lowered))
                || (EqualFold(requested[i], t) && LONG_S !in requested[i] && IsSupported(lists, t) && !IsAll(t))
      {
        ContributionMatch(lists, requested[i], t);
      }
    }
  }

  lemma ContributionMatch(lists: TypeLists, r: string, t: string)
    requires AreAscii(lists.supported) && IsAscii(t)
    ensures HasType(Contribution(lists, r), ToLower(t)) <==>
            || (IsAll(r) && HasType(lists.inAll, ToLower(t)))
            || (EqualFold(r, t) && LONG_S !in r && IsSupported(lists, t) && !IsAll(t))
  {
    if IsAll(r) {
      if EqualFold(r, t) {
        EqualFoldEquivalence(r, t, ALL_CONTENT_TYPE);
        EqualFoldEquivalence(t, r, ALL_CONTENT_TYPE);
      }
    } else {
      SupportedRequestMatch(lists, r, t);
      assert HasType([r], ToLower(t)) <==> ToLower([r][0]) == ToLower(t);
    }
  }

  /** Everything of the request that is supported, All aside, is spelled with a long s. */
  ghost predicate OnlyLongS(lists: TypeLists, requested: seq<string>) {
    forall i :: 0 <= i < |requested| && !IsAll(requested[i]) && IsSupported(lists, requested[i]) ==>
      LONG_S in requested[i]
  }

  ghost predicate AdmitsNoType(types: seq<string>) {
    forall t :: IsAscii(t) ==> !HasType(types, ToLower(t))
  }

  /**
   * An accepted request admits no ASCII type at all exactly when it names types, asks for All only
   * of an empty list, and spells everything supported with a long s: folding accepts that spelling
   * and lower-casing then fails to match it.
   */
  lemma AdmitsNothingIff(lists: TypeLists, requested: seq<string>)
    requires AreAscii(lists.supported) && AreAscii(lists.inAll) && IsAscii(lists.default)
    requires Resolved(lists, requested).Some?
    ensures AdmitsNoType(Resolved(lists, requested).value) <==>
            requested != [] && (AsksForAll(requested) ==> lists.inAll == []) && OnlyLongS(lists, requested)
  {
    var types := Resolved(lists, requested).value;
    if AdmitsNoType(types) {
      SomeTypeAdmitted(lists, requested);
    } else {
      var t :| IsAscii(t) && HasType(types, ToLower(t));
      SubscriptionMeaning(lists, requested, t);
      if i :| 0 <= i < |requested| && EqualFold(requested[i], t) && LONG_S !in requested[i]
              && IsSupported(lists, t) && !IsAll(t) {
        SameSupport(lists, requested[i], t);
      }
    }
  }

  lemma SameSupport(lists: TypeLists, r: string, t: string)
    requires EqualFold(r, t)
    ensures IsSupported(lists, r) <==> IsSupported(lists, t)
    ensures IsAll(r) <==> IsAll(t)
  {
    EqualFoldEquivalence(r, t, ALL_CONTENT_TYPE);
    EqualFoldEquivalence(t, r, ALL_CONTENT_TYPE);
    forall k | 0 <= k < |lists.supported|
      ensures EqualFold(r, lists.supported[k]) <==> EqualFold(t, lists.supported[k])
    {
      EqualFoldEquivalence(r, t, lists.supported[k]);
      EqualFoldEquivalence(t, r, lists.supported[k]);
    }
  }

  /** Otherwise there is a type it admits. */
  lemma SomeTypeAdmitted(lists: TypeLists, requested: seq<string>)
    requires AreAscii(lists.supported) && AreAscii(lists.inAll) && IsAscii(lists.default)
    requires Resolved(lists, requested).Some? && AdmitsNoType(Resolved(lists, requested).value)
    ensures requested != [] && (AsksForAll(requested) ==> lists.inAll == []) && OnlyLongS(lists, requested)
  {
    if requested == [] {
      SubscriptionMeaning(lists, requested, lists.default);
    }
    if AsksForAll(requested) && lists.inAll != [] {
      SubscriptionMeaning(lists, requested, lists.inAll[0]);
    }
    forall i | 0 <= i < |requested| && !IsAll(requested[i]) && IsSupported(lists, requested[i])
      ensures LONG_S in requested[i]
    {
      var k :| 0 <= k < |lists.supported| && EqualFold(requested[i], lists.supported[k]);
      var t := lists.supported[k];
      SameSupport(lists, requested[i], t);
      SubscriptionMeaning(lists, requested, t);
    }
  }

  /** What such a request still matches: a delete without a type, and types that are not ASCII. */
  lemma NothingButUntyped(types: seq<string>, n: NotificationModel)
    requires AdmitsNoType(types) && IsAscii(n.subscriptionType)
    ensures TypeMatches(n, types) <==> n.eventType == CONTENT_DELETE_TYPE && n.subscriptionType == ""
  {
  }

  /** One such request: "List" spelled with a long s is accepted and misses the type it folds to. */
  lemma LongSRequestMissesItsType()
    ensures var lists := TypeLists([], ["List"], "List");
            var requested := [['L', 'i', LONG_S, 't']];
            && Resolved(lists, requested) == Some(requested)
            && EqualFold(requested[0], "List") && IsSupported(lists, "List")
            && AdmitsNoType(requested)
  {
    var lists := TypeLists([], ["List"], "List");
    var r := ['L', 'i', LONG_S, 't'];
    assert FoldChar(r[2]) == 's';
    assert EqualFold(r, lists.supported[0]);
    assert FoldChar(r[0]) != FoldChar(ALL_CONTENT_TYPE[0]);
    assert [r][..0] == [];
    assert Contributions(lists, [r]) == Contributions(lists, []) + Contribution(lists, r) == [r];
    assert EqualFold("List", lists.supported[0]);
    assert r[2] == LONG_S;
    AdmitsNothingIff(lists, [r]);
  }

  ghost predicate Names(types: seq<string>, t: string) {
    exists i :: 0 <= i < |types| && EqualFold(t, types[i])
  }

  /** Every type the first request names is named by the second, ignoring case. */
  ghost predicate NamesAll(a: seq<string>, b: seq<string>) {
    forall r :: r in a ==> Names(b, r)
  }

  lemma FewerTypesMatchLess(lists: TypeLists, a: seq<string>, b: seq<string>, lowered: string)
    requires AreAscii(a) && AreAscii(b) && NamesAll(a, b)
    ensures HasType(Contributions(lists, a), lowered) ==> HasType(Contributions(lists, b), lowered)
  {
    ContributionsMatch(lists, a, lowered);
    ContributionsMatch(lists, b, lowered);
    if i :| 0 <= i < |a| && HasType(Contribution(lists, a[i]), lowered) {
      assert Names(b, a[i]);
      var j :| 0 <= j < |b| && EqualFold(a[i], b[j]);
      SameContribution(lists, a[i], b[j], lowered);
    }
  }

  lemma SameContribution(lists: TypeLists, r: string, q: string, lowered: string)
    requires IsAscii(r) && IsAscii(q) && EqualFold(r, q)
    ensures HasType(Contribution(lists, r), lowered) ==> HasType(Contribution(lists, q), lowered)
  {
    EqualFoldEquivalence(r, q, ALL_CONTENT_TYPE);
    EqualFoldEquivalence(q, r, ALL_CONTENT_TYPE);
    forall k | 0 <= k < |lists.supported| && EqualFold(r, lists.supported[k])
      ensures IsSupported(lists, q)
    {
      EqualFoldEquivalence(q, r, lists.supported[k]);
    }
    assert LONG_S !in r;
    FoldVersusLower(r, q);
    if HasType([r], lowered) {
      assert ToLower([q][0]) == lowered;
    }
  }

  lemma NonEmptyTogether(lists: TypeLists, a: seq<string>, b: seq<string>)
    requires AreAscii(a) && AreAscii(b) && NamesAll(a, b)
    ensures Contributions(lists, a) != [] ==> Contributions(lists, b) != []
  {
    var types := Contributions(lists, a);
    if types != [] {
      assert HasType(types, ToLower(types[0]));
      FewerTypesMatchLess(lists, a, b, ToLower(types[0]));
    }
  }

  /** Order, repetition and letter case of an ASCII request do not matter. */
  lemma SameTypesMatchSame(lists: TypeLists, a: seq<string>, b: seq<string>, lowered: string)
    requires AreAscii(a) && AreAscii(b) && NamesAll(a, b) && NamesAll(b, a)
    ensures Resolved(lists, a).Some? <==> Resolved(lists, b).Some?
    ensures Resolved(lists, a).Some? ==>
      (HasType(Resolved(lists, a).value, lowered) <==> HasType(Resolved(lists, b).value, lowered))
  {
    assert a == [] <==> b == [] by {
      assert a != [] ==> Names(b, a[0]);
      assert b != [] ==> Names(a, b[0]);
    }
    FewerTypesMatchLess(lists, a, b, lowered);
    FewerTypesMatchLess(lists, b, a, lowered);
    NonEmptyTogether(lists, a, b);
    NonEmptyTogether(lists, b, a);
  }
}
