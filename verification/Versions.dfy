/** Connection versions and how a common one is picked. */
module Versions {
  import opened Prelude

  datatype Version = Version(identifier: string, features: seq<string>)

  /** The first listed version with the given identifier. */
  function FindSupported(identifier: string, versions: seq<Version>): (r: Option<Version>)
    ensures r.Some? ==> r.value in versions && r.value.identifier == identifier
    ensures r.None? <==> forall v :: v in versions ==> v.identifier != identifier
  {
    if |versions| == 0 then None
    else if versions[0].identifier == identifier then Some(versions[0])
    else FindSupported(identifier, versions[1..])
  }

  /** The supported features the counterparty also lists, in supported order. */
  function CommonFeatures(supported: seq<string>, counterparty: seq<string>): (r: seq<string>)
    ensures forall f :: f in r <==> f in supported && f in counterparty
  {
    if |supported| == 0 then []
    else if supported[0] in counterparty then [supported[0]] + CommonFeatures(supported[1..], counterparty)
    else CommonFeatures(supported[1..], counterparty)
  }

  predicate IsSupported(v: Version, versions: seq<Version>) {
    var found := FindSupported(v.identifier, versions);
    && found.Some?
    && |v.features| > 0
    && forall f :: f in v.features ==> f in found.value.features
  }

  method VerifyIsSupported(v: Version, versions: seq<Version>) returns (ok: bool)
    ensures ok <==> IsSupported(v, versions)
  {
    var found := FindSupported(v.identifier, versions);
    if found.None? || |v.features| == 0 { return false; }
    for i := 0 to |v.features|
      invariant forall j :: 0 <= j < i ==> v.features[j] in found.value.features
    {
      if v.features[i] !in found.value.features { return false; }
    }
    return true;
  }

  /** What a supported version contributes to the negotiation, if anything. */
  function Offer(v: Version, counterparty: seq<Version>): (r: Option<Version>) {
    var found := FindSupported(v.identifier, counterparty);
    if found.None? then None
    else
      var common := CommonFeatures(v.features, found.value.features);
      if |common| == 0 then None else Some(Version(found.value.identifier, common))
  }

  function Offers(supported: seq<Version>, counterparty: seq<Version>): (r: seq<Version>) {
    if |supported| == 0 then []
    else
      var last := Offer(supported[|supported| - 1], counterparty);
      Offers(supported[..|supported| - 1], counterparty) + if last.Some? then [last.value] else []
  }

  /** Lexicographic order on identifiers. */
  predicate Before(a: string, b: string) {
    if |b| == 0 then false
    else if |a| == 0 then true
    else a[0] < b[0] || (a[0] == b[0] && Before(a[1..], b[1..]))
  }

  lemma {:induction false} BeforeIsStrictOrder(a: string, b: string, c: string)
    ensures !Before(a, a)
    ensures !Before(a, b) && !Before(b, a) ==> a == b
    ensures Before(a, b) && Before(b, c) ==> Before(a, c)
  {
    if |a| > 0 {
      BeforeIsStrictOrder(a[1..], if |b| > 0 then b[1..] else "", if |c| > 0 then c[1..] else "");
      if |b| > 0 && a[0] == b[0] && a[1..] == b[1..] { assert a == [a[0]] + a[1..] == b; }
    }
  }

  function Insert(v: Version, sorted: seq<Version>): (r: seq<Version>)
    ensures |r| == |sorted| + 1
    ensures multiset(r) == multiset(sorted) + multiset{v}
  {
    if |sorted| > 0 && Before(sorted[0].identifier, v.identifier) then
      assert sorted == [sorted[0]] + sorted[1..];
      [sorted[0]] + Insert(v, sorted[1..])
    else [v] + sorted
  }

  /** `sort_by` on the identifier: a stable sort. */
  function SortById(vs: seq<Version>): (r: seq<Version>)
    ensures |r| == |vs|
    ensures multiset(r) == multiset(vs)
  {
    if |vs| == 0 then []
    else
      assert vs == [vs[0]] + vs[1..];
      Insert(vs[0], SortById(vs[1..]))
  }

  /** The value of the negotiation: the head of the sorted offers. */
  function PickVersion(supported: seq<Version>, counterparty: seq<Version>): (r: Option<Version>) {
    var offers := Offers(supported, counterparty);
    if |offers| == 0 then None else Some(SortById(offers)[0])
  }

  method ComputePickVersion(supported: seq<Version>, counterparty: seq<Version>) returns (r: Option<Version>)
    ensures r == PickVersion(supported, counterparty)
  {
    var intersection: seq<Version> := [];
    for i := 0 to |supported|
      invariant intersection == Offers(supported[..i], counterparty)
    {
      var sv := supported[i];
      assert supported[..i + 1][..i] == supported[..i];
      var cv := FindSupported(sv.identifier, counterparty);
      if cv.Some? {
        var features := CommonFeatures(sv.features, cv.value.features);
        if |features| > 0 {
          intersection := intersection + [Version(cv.value.identifier, features)];
        }
      }
    }
    assert supported[..|supported|] == supported;
    if |intersection| == 0 { return None; }
    intersection := SortById(intersection);
    return Some(intersection[0]);
  }

  /** The head of a stable sort is the first of the least elements. */
  lemma {:induction false} SortedHead(vs: seq<Version>) returns (k: nat)
    requires |vs| > 0
    ensures k < |vs| && SortById(vs)[0] == vs[k]
    ensures forall j :: 0 <= j < |vs| ==> !Before(vs[j].identifier, vs[k].identifier)
    ensures forall j :: 0 <= j < k ==> vs[j].identifier != vs[k].identifier
  {
    BeforeIsStrictOrder(vs[0].identifier, "", "");
    if |vs| == 1 {
      k := 0;
    } else {
      var t := SortedHead(vs[1..]);
      var head := vs[t + 1].identifier;
      k := if Before(head, vs[0].identifier) then t + 1 else 0;
      forall j | 0 <= j < |vs|
        ensures !Before(vs[j].identifier, vs[k].identifier)
        ensures j < k ==> vs[j].identifier != vs[k].identifier
      {
        if j > 0 { assert vs[j] == vs[1..][j - 1]; }
        BeforeIsStrictOrder(vs[j].identifier, vs[0].identifier, head);
        BeforeIsStrictOrder(vs[j].identifier, head, vs[0].identifier);
        BeforeIsStrictOrder(head, vs[0].identifier, head);
      }
    }
  }

  lemma {:induction false} OfferOrigin(supported: seq<Version>, counterparty: seq<Version>, k: nat) returns (i: nat)
    requires k < |Offers(supported, counterparty)|
    ensures i < |supported|
    ensures Offer(supported[i], counterparty) == Some(Offers(supported, counterparty)[k])
    ensures Offers(supported[..i], counterparty) == Offers(supported, counterparty)[..k]
  {
    var n := |supported| - 1;
    var front := supported[..n];
    if k < |Offers(front, counterparty)| {
      i := OfferOrigin(front, counterparty, k);
      assert front[..i] == supported[..i];
      assert Offers(front, counterparty)[..k] == Offers(supported, counterparty)[..k];
    } else {
      i := n;
      assert Offers(front, counterparty) == Offers(supported, counterparty)[..k];
    }
  }

  lemma {:induction false} OfferListed(supported: seq<Version>, counterparty: seq<Version>, i: nat)
    requires i < |supported| && Offer(supported[i], counterparty).Some?
    ensures Offer(supported[i], counterparty).value in Offers(supported, counterparty)
  {
    var n := |supported| - 1;
    if i < n {
      OfferListed(supported[..n], counterparty, i);
    }
  }

  /**
   Negotiation picks the first supported entry of least identifier among those that share a feature with their
   first counterparty match, and fails exactly when no entry shares one.
   */
  lemma PickVersionIsLeast(supported: seq<Version>, counterparty: seq<Version>)
    ensures PickVersion(supported, counterparty).None? <==>
            forall i :: 0 <= i < |supported| ==> Offer(supported[i], counterparty).None?
    ensures PickVersion(supported, counterparty).Some? ==>
              exists i :: 0 <= i < |supported| && IsPicked(supported, counterparty, i)
  {
    var offers := Offers(supported, counterparty);
    forall i | 0 <= i < |supported| && Offer(supported[i], counterparty).Some? ensures |offers| > 0 {
      OfferListed(supported, counterparty, i);
    }
    if |offers| > 0 {
      var k := SortedHead(offers);
      var i := OfferOrigin(supported, counterparty, k);
      forall j | 0 <= j < |supported| && Offer(supported[j], counterparty).Some?
        ensures !Before(supported[j].identifier, supported[i].identifier)
        ensures j < i ==> supported[j].identifier != supported[i].identifier
      {
        OfferListed(supported, counterparty, j);
        if j < i {
          OfferListed(supported[..i], counterparty, j);
          assert supported[..i][j] == supported[j];
        }
      }
      assert IsPicked(supported, counterparty, i);
    }
  }

  ghost predicate IsPicked(supported: seq<Version>, counterparty: seq<Version>, i: nat)
    requires i < |supported|
  {
    && Offer(supported[i], counterparty).Some?
    && PickVersion(supported, counterparty) == Offer(supported[i], counterparty)
    && forall j :: 0 <= j < |supported| && Offer(supported[j], counterparty).Some? ==>
         && !Before(supported[j].identifier, supported[i].identifier)
         && (j < i ==> supported[j].identifier != supported[i].identifier)
  }

  // ---------------------------------------------------------------- what is picked, without the steps that pick it

  /** `j` is the first entry of the counterparty with the identifier of supported entry `i`. */
  ghost predicate FirstNamed(supported: seq<Version>, counterparty: seq<Version>, i: nat, j: nat) {
    && i < |supported| && j < |counterparty|
    && counterparty[j].identifier == supported[i].identifier
    && forall k :: 0 <= k < j ==> counterparty[k].identifier != supported[i].identifier
  }

  /** Supported entry `i` has a first match at the counterparty and shares a feature with it. */
  ghost predicate Shares(supported: seq<Version>, counterparty: seq<Version>, i: nat, j: nat) {
    FirstNamed(supported, counterparty, i, j) && exists f :: f in supported[i].features && f in counterparty[j].features
  }

  /** `kept` are the members of `all` that are allowed, all of them, at positions `at`, in the same order. */
  ghost predicate KeptInOrder(kept: seq<string>, all: seq<string>, allowed: seq<string>, at: seq<nat>) {
    && |at| == |kept|
    && (forall a :: 0 <= a < |at| ==> at[a] < |all| && all[at[a]] == kept[a])
    && (forall a, b :: 0 <= a < b < |at| ==> at[a] < at[b])
    && (forall n :: 0 <= n < |all| ==> (n in at <==> all[n] in allowed))
  }

  /** `v` is what entry `i` and its first match `j` have in common, and `i` is the first entry of least identifier that shares. */
  ghost predicate PickedAt(supported: seq<Version>, counterparty: seq<Version>, v: Version, i: nat, j: nat, at: seq<nat>) {
    && Shares(supported, counterparty, i, j)
    && v.identifier == supported[i].identifier
    && KeptInOrder(v.features, supported[i].features, counterparty[j].features, at)
    && forall i': nat, j': nat :: Shares(supported, counterparty, i', j') ==>
         && !Before(supported[i'].identifier, supported[i].identifier)
         && (i' < i ==> supported[i'].identifier != supported[i].identifier)
  }

  lemma {:induction false} CommonInOrder(supported: seq<string>, counterparty: seq<string>) returns (at: seq<nat>)
    ensures KeptInOrder(CommonFeatures(supported, counterparty), supported, counterparty, at)
  {
    if |supported| == 0 {
      at := [];
    } else {
      var rest := CommonInOrder(supported[1..], counterparty);
      var moved := seq(|rest|, (a: nat) requires a < |rest| => rest[a] + 1);
      at := if supported[0] in counterparty then [0] + moved else moved;
      KeptAfterHead(CommonFeatures(supported[1..], counterparty), supported, counterparty, rest, moved, at);
    }
  }

  lemma KeptAfterHead(kept: seq<string>, all: seq<string>, allowed: seq<string>, rest: seq<nat>, moved: seq<nat>, at: seq<nat>)
    requires |all| > 0 && KeptInOrder(kept, all[1..], allowed, rest)
    requires |moved| == |rest| && (forall a :: 0 <= a < |rest| ==> moved[a] == rest[a] + 1)
    requires at == if all[0] in allowed then [0] + moved else moved
    ensures KeptInOrder(if all[0] in allowed then [all[0]] + kept else kept, all, allowed, at)
  {
    assert InPlace(kept, all, moved) by { MovedInOrder(kept, all, rest, moved); }
    assert forall n :: 0 <= n < |all| ==> (n in at <==> all[n] in allowed) by {
      forall n | 0 <= n < |all| ensures n in at <==> all[n] in allowed { MovedAllowed(all, allowed, rest, moved, at, n); }
    }
    if all[0] in allowed { HeadInPlace(kept, all, moved, at); }
  }

  /** `kept` sits at positions `at` of `all`, in order and after the head. */
  ghost predicate InPlace(kept: seq<string>, all: seq<string>, at: seq<nat>) {
    && |at| == |kept|
    && (forall a :: 0 <= a < |at| ==> 0 < at[a] < |all| && all[at[a]] == kept[a])
    && (forall a, b :: 0 <= a < b < |at| ==> at[a] < at[b])
  }

  lemma HeadInPlace(kept: seq<string>, all: seq<string>, moved: seq<nat>, at: seq<nat>)
    requires |all| > 0 && InPlace(kept, all, moved) && at == [0] + moved
    ensures |at| == |[all[0]] + kept|
    ensures forall a :: 0 <= a < |at| ==> at[a] < |all| && all[at[a]] == ([all[0]] + kept)[a]
    ensures forall a, b :: 0 <= a < b < |at| ==> at[a] < at[b]
  {
    forall a | 0 <= a < |at| ensures at[a] == if a == 0 then 0 else moved[a - 1] {}
  }

  lemma MovedInOrder(kept: seq<string>, all: seq<string>, rest: seq<nat>, moved: seq<nat>)
    requires |all| > 0 && |moved| == |rest| == |kept| && (forall a :: 0 <= a < |rest| ==> moved[a] == rest[a] + 1)
    requires forall a :: 0 <= a < |rest| ==> rest[a] < |all| - 1 && all[1..][rest[a]] == kept[a]
    requires forall a, b :: 0 <= a < b < |rest| ==> rest[a] < rest[b]
    ensures InPlace(kept, all, moved)
  {
  }

  lemma MovedAllowed(all: seq<string>, allowed: seq<string>, rest: seq<nat>, moved: seq<nat>, at: seq<nat>, n: nat)
    requires n < |all| && (forall k :: 0 <= k < |all| - 1 ==> (k in rest <==> all[1..][k] in allowed))
    requires |moved| == |rest| && (forall a :: 0 <= a < |rest| ==> moved[a] == rest[a] + 1)
    requires at == if all[0] in allowed then [0] + moved else moved
    ensures n in at <==> all[n] in allowed
  {
    MovedMembers(rest, moved, at, all[0] in allowed, n);
    if n > 0 { assert all[1..][n - 1] == all[n]; }
  }

  lemma MovedMembers(rest: seq<nat>, moved: seq<nat>, at: seq<nat>, head: bool, n: nat)
    requires |moved| == |rest| && (forall a :: 0 <= a < |rest| ==> moved[a] == rest[a] + 1)
    requires at == if head then [0] + moved else moved
    ensures n in at <==> (n == 0 && head) || (n > 0 && n - 1 in rest)
  {
    if n > 0 && n - 1 in rest {
      var a :| 0 <= a < |rest| && rest[a] == n - 1;
      assert moved[a] == n && n in moved;
    }
  }

  lemma OfferIsShared(supported: seq<Version>, counterparty: seq<Version>, i: nat)
    requires i < |supported|
    ensures Offer(supported[i], counterparty).Some? <==> exists j: nat :: Shares(supported, counterparty, i, j)
  {
    var found := FindSupported(supported[i].identifier, counterparty);
    if found.Some? {
      var k := FirstMatch(supported[i].identifier, counterparty);
      assert FirstNamed(supported, counterparty, i, k);
      var common := CommonFeatures(supported[i].features, counterparty[k].features);
      if |common| > 0 {
        assert common[0] in common;
        assert Shares(supported, counterparty, i, k);
      }
    }
  }

  lemma OfferContents(supported: seq<Version>, counterparty: seq<Version>, i: nat) returns (j: nat, at: seq<nat>)
    requires i < |supported| && Offer(supported[i], counterparty).Some?
    ensures Shares(supported, counterparty, i, j)
    ensures var v := Offer(supported[i], counterparty).value;
            v.identifier == supported[i].identifier && KeptInOrder(v.features, supported[i].features, counterparty[j].features, at)
  {
    j := FirstMatch(supported[i].identifier, counterparty);
    at := CommonInOrder(supported[i].features, counterparty[j].features);
    var common := CommonFeatures(supported[i].features, counterparty[j].features);
    assert common[0] in common;
  }

  /**
   The pick is exactly what the first entry of least identifier and its first match have in common, every shared feature
   in the supported order; it fails exactly when no entry shares a feature with its first match.
   */
  lemma PickIsWholeIntersection(supported: seq<Version>, counterparty: seq<Version>)
    ensures PickVersion(supported, counterparty).None? <==> forall i: nat, j: nat :: !Shares(supported, counterparty, i, j)
    ensures PickVersion(supported, counterparty).Some? ==>
              exists i: nat, j: nat, at: seq<nat> :: PickedAt(supported, counterparty, PickVersion(supported, counterparty).value, i, j, at)
  {
    hide PickVersion, Offer, Shares, KeptInOrder, Before;
    PickVersionIsLeast(supported, counterparty);
    forall i: nat, j: nat | Shares(supported, counterparty, i, j)
      ensures PickVersion(supported, counterparty).Some? && i < |supported| && Offer(supported[i], counterparty).Some?
    {
      SharesInRange(supported, counterparty, i, j);
      OfferIsShared(supported, counterparty, i);
    }
    if PickVersion(supported, counterparty).Some? {
      var i :| 0 <= i < |supported| && IsPicked(supported, counterparty, i);
      var j, at := OfferContents(supported, counterparty, i);
      assert PickedAt(supported, counterparty, PickVersion(supported, counterparty).value, i, j, at);
    }
  }

  lemma SharesInRange(supported: seq<Version>, counterparty: seq<Version>, i: nat, j: nat)
    requires Shares(supported, counterparty, i, j)
    ensures i < |supported| && j < |counterparty|
  {
  }

  /** With one entry a side, as by default, the pick keeps every feature both list. */
  lemma SingleEntriesKeepAll(v: Version, u: Version, f: string)
    requires v.identifier == u.identifier && f in v.features && f in u.features
    ensures PickVersion([v], [u]).Some? && f in PickVersion([v], [u]).value.features
  {
    hide PickVersion;
    PickIsWholeIntersection([v], [u]);
    assert Shares([v], [u], 0, 0);
    var i: nat, j: nat, at: seq<nat> :| PickedAt([v], [u], PickVersion([v], [u]).value, i, j, at);
    var n :| 0 <= n < |v.features| && v.features[n] == f;
    assert n in at;
  }

  /** A check against a list looks at the first entry of the identifier, wants a feature, and wants each listed there. */
  lemma SupportedExactly(v: Version, versions: seq<Version>)
    ensures IsSupported(v, versions) <==>
              |v.features| > 0 && exists k: nat :: FirstNamed([v], versions, 0, k) && forall f :: f in v.features ==> f in versions[k].features
  {
    if FindSupported(v.identifier, versions).Some? {
      var k := FirstMatch(v.identifier, versions);
      assert FirstNamed([v], versions, 0, k);
    }
  }

  /** Whatever the responder picks, the initiator's check against its own stored list accepts. */
  lemma PickedIsAcceptedByCounterparty(supported: seq<Version>, counterparty: seq<Version>)
    requires PickVersion(supported, counterparty).Some?
    ensures IsSupported(PickVersion(supported, counterparty).value, counterparty)
  {
    PickVersionIsLeast(supported, counterparty);
  }

  lemma {:induction false} FirstMatch(identifier: string, versions: seq<Version>) returns (k: nat)
    requires FindSupported(identifier, versions).Some?
    ensures k < |versions| && FindSupported(identifier, versions) == Some(versions[k])
    ensures forall j :: 0 <= j < k ==> versions[j].identifier != identifier
  {
    if versions[0].identifier == identifier {
      k := 0;
    } else {
      var t := FirstMatch(identifier, versions[1..]);
      k := t + 1;
      forall j | 0 <= j < k ensures versions[j].identifier != identifier {
        if j > 0 { assert versions[j] == versions[1..][j - 1]; }
      }
    }
  }

  lemma OwnListAt(supported: seq<Version>, counterparty: seq<Version>, i: nat, k: nat)
    requires k <= i < |supported| && IsPicked(supported, counterparty, i)
    requires FindSupported(supported[i].identifier, supported) == Some(supported[k])
    ensures IsSupported(Offer(supported[i], counterparty).value, supported) <==> Offer(supported[k], counterparty).Some?
  {
    var v := Offer(supported[i], counterparty).value;
    assert v.features[0] in v.features;
    if Offer(supported[k], counterparty).Some? {
      assert k == i;
    } else {
      var cv := FindSupported(v.identifier, counterparty).value;
      assert v.features[0] !in CommonFeatures(supported[k].features, cv.features);
    }
  }

  /**
   The picked version passes the responder's own list exactly when the first supported entry of that identifier
   shares a feature with the counterparty.
   */
  lemma PickedIsAcceptedByOwnList(supported: seq<Version>, counterparty: seq<Version>)
    requires PickVersion(supported, counterparty).Some?
    ensures var v := PickVersion(supported, counterparty).value;
            var first := FindSupported(v.identifier, supported);
            first.Some? && (IsSupported(v, supported) <==> Offer(first.value, counterparty).Some?)
  {
    PickVersionIsLeast(supported, counterparty);
    var i :| 0 <= i < |supported| && IsPicked(supported, counterparty, i);
    var k := FirstMatch(supported[i].identifier, supported);
    OwnListAt(supported, counterparty, i, k);
  }

  /** With distinct identifiers that is always so. */
  lemma DistinctIdentifiersAccept(supported: seq<Version>, counterparty: seq<Version>)
    requires PickVersion(supported, counterparty).Some?
    requires forall i, j :: 0 <= i < j < |supported| ==> supported[i].identifier != supported[j].identifier
    ensures IsSupported(PickVersion(supported, counterparty).value, supported)
  {
    PickVersionIsLeast(supported, counterparty);
    var i :| 0 <= i < |supported| && IsPicked(supported, counterparty, i);
    var k := FirstMatch(supported[i].identifier, supported);
    assert k == i;
    OwnListAt(supported, counterparty, i, k);
  }

  /** Two entries of one identifier with different features, and a counterparty that shares only the second. */
  lemma RepeatedIdentifier(id: string, f: string, g: string, supported: seq<Version>, counterparty: seq<Version>)
    requires f != g
    requires supported == [Version(id, [f]), Version(id, [g])] && counterparty == [Version(id, [g])]
    ensures Offer(supported[0], counterparty).None? && Offer(supported[1], counterparty).Some?
    ensures FindSupported(id, supported) == Some(supported[0])
    ensures Offer(supported[1], counterparty).value.identifier == id
  {
    hide PickVersion;
    assert FindSupported(id, counterparty) == Some(counterparty[0]);
    assert [f][1..] == [] && [g][1..] == [];
    assert CommonFeatures([g], [g]) == [g] + CommonFeatures([], [g]);
    assert CommonFeatures([f], [g]) == CommonFeatures([], [g]);
  }

  /** With a repeated identifier the responder can pick a version its own list rejects. */
  lemma RepeatedIdentifierCounterexample()
    ensures var supported := [Version("1", ["a"]), Version("1", ["b"])];
            var counterparty := [Version("1", ["b"])];
            var v := PickVersion(supported, counterparty);
            v.Some? && IsSupported(v.value, counterparty) && !IsSupported(v.value, supported)
  {
    hide PickVersion, IsSupported, Offer, FindSupported, Before;
    var supported := [Version("1", ["a"]), Version("1", ["b"])];
    var counterparty := [Version("1", ["b"])];
    assert "a"[0] != "b"[0];
    RepeatedIdentifier("1", "a", "b", supported, counterparty);
    PickVersionIsLeast(supported, counterparty);
    PickedIsAcceptedByCounterparty(supported, counterparty);
    PickedIsAcceptedByOwnList(supported, counterparty);
  }
}
