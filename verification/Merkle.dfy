/** Chained Merkle proofs: one ICS-23 proof per store level, checked from the leaf up to the root. */
module Merkle {
  import opened Prelude

  datatype ExistenceProof = ExistenceProof(raw: Bytes)

  datatype CommitmentProof =
    | Exist(proof: ExistenceProof)
    | Nonexist(left: Option<ExistenceProof>, right: Option<ExistenceProof>)
    | Unset

  type Spec = nat

  /** The single-level checks of the ics23 library. */
  datatype Ics23 = Ics23(
    existenceRoot: ExistenceProof -> Option<Bytes>,
    member: (CommitmentProof, Spec, Bytes, Bytes, Bytes) -> bool,
    nonMember: (CommitmentProof, Spec, Bytes, Bytes) -> bool)

  /** What the tree below a root holds, per proof format. */
  type Content = (Spec, Bytes) -> map<Bytes, Bytes>

  /** Single-level soundness: an accepted check is true of the tree below the root. */
  ghost predicate Sound(ics: Ics23, content: Content) {
    && (forall p, s, root, key, value ::
          ics.member(p, s, root, key, value) ==> key in content(s, root) && content(s, root)[key] == value)
    && (forall p, s, root, key :: ics.nonMember(p, s, root, key) ==> key !in content(s, root))
  }

  predicate ArgumentsMatch(proofs: seq<CommitmentProof>, specs: seq<Spec>, root: Bytes, keys: seq<Bytes>) {
    |proofs| > 0 && |root| > 0 && |specs| == |proofs| && |keys| == |proofs|
  }

  /** Folds levels `i`, `i+1`, … into the root they lead to, starting from `value`. Keys run root to leaf. */
  function Climb(ics: Ics23, proofs: seq<CommitmentProof>, specs: seq<Spec>, keys: seq<Bytes>, value: Bytes, i: nat): (r: Option<Bytes>)
    requires |specs| == |keys| == |proofs|
    decreases |proofs| - i
  {
    if i >= |proofs| then Some(value)
    else if !proofs[i].Exist? then None
    else
      var sub := ics.existenceRoot(proofs[i].proof);
      if sub.None? || !ics.member(proofs[i], specs[i], sub.value, keys[|keys| - 1 - i], value) then None
      else Climb(ics, proofs, specs, keys, sub.value, i + 1)
  }

  predicate MembershipAccepted(ics: Ics23, proofs: seq<CommitmentProof>, specs: seq<Spec>, root: Bytes, keys: seq<Bytes>,
                               value: Bytes, start: nat) {
    && ArgumentsMatch(proofs, specs, root, keys)
    && |value| > 0
    && Climb(ics, proofs, specs, keys, value, start) == Some(root)
  }

  function NonExistenceRoot(ics: Ics23, p: CommitmentProof): (r: Option<Bytes>)
    requires p.Nonexist?
  {
    if p.left.Some? then ics.existenceRoot(p.left.value)
    else if p.right.Some? then ics.existenceRoot(p.right.value)
    else None
  }

  predicate NonMembershipAccepted(ics: Ics23, proofs: seq<CommitmentProof>, specs: seq<Spec>, root: Bytes, keys: seq<Bytes>) {
    && ArgumentsMatch(proofs, specs, root, keys)
    && proofs[0].Nonexist?
    && var sub := NonExistenceRoot(ics, proofs[0]);
       && sub.Some?
       && ics.nonMember(proofs[0], specs[0], sub.value, keys[|keys| - 1])
       && MembershipAccepted(ics, proofs, specs, root, keys, sub.value, 1)
  }

  /** The source's loop, which carries the current value and subroot upwards. */
  method VerifyMembership(ics: Ics23, proofs: seq<CommitmentProof>, specs: seq<Spec>, root: Bytes, keys: seq<Bytes>,
                          leaf: Bytes, start: nat) returns (ok: bool)
    ensures ok <==> MembershipAccepted(ics, proofs, specs, root, keys, leaf, start)
  {
    if |proofs| == 0 || |root| == 0 || |specs| != |proofs| || |keys| != |proofs| || |leaf| == 0 { return false; }
    var subroot := leaf;
    var value := leaf;
    var i := start;
    while i < |proofs|
      invariant start <= i && subroot == value
      invariant Climb(ics, proofs, specs, keys, leaf, start) == Climb(ics, proofs, specs, keys, value, i)
      decreases |proofs| - i
    {
      if !proofs[i].Exist? { return false; }
      var calculated := ics.existenceRoot(proofs[i].proof);
      if calculated.None? { return false; }
      subroot := calculated.value;
      if !ics.member(proofs[i], specs[i], subroot, keys[|keys| - 1 - i], value) { return false; }
      value := subroot;
      i := i + 1;
    }
    ok := root == subroot;
  }

  // ---------------------------------------------------------------- top-down meaning

  /** Lookup from the root down: each key opens the subtree whose root is the next value. `specs` runs leaf to root. */
  function Lookup(content: Content, specs: seq<Spec>, root: Bytes, keys: seq<Bytes>): (r: Option<Bytes>)
    requires |specs| == |keys|
    decreases |keys|
  {
    if |keys| == 0 then Some(root)
    else
      var level := content(specs[|specs| - 1], root);
      if keys[0] !in level then None
      else Lookup(content, specs[..|specs| - 1], level[keys[0]], keys[1..])
  }

  /** The leaf level can be split off the bottom of a lookup. */
  lemma {:induction false} LookupLeaf(content: Content, specs: seq<Spec>, root: Bytes, keys: seq<Bytes>)
    requires |specs| == |keys| > 0
    ensures var above := Lookup(content, specs[1..], root, keys[..|keys| - 1]);
            var key := keys[|keys| - 1];
            Lookup(content, specs, root, keys) ==
              if above.Some? && key in content(specs[0], above.value)
              then Some(content(specs[0], above.value)[key]) else None
    decreases |keys|
  {
    if |keys| > 1 {
      var n := |keys| - 1;
      var level := content(specs[n], root);
      assert specs[1..][n - 1] == specs[n] && specs[..n][1..] == specs[1..][..n - 1];
      assert keys[..n][1..] == keys[1..][..n - 1] && keys[..n][0] == keys[0];
      if keys[0] in level {
        LookupLeaf(content, specs[..n], level[keys[0]], keys[1..]);
      }
    } else {
      assert Lookup(content, specs[..0], root, keys[..0]) == Some(root);
      if keys[0] in content(specs[0], root) {
        assert Lookup(content, specs[..0], content(specs[0], root)[keys[0]], keys[1..]) == Some(content(specs[0], root)[keys[0]]);
      }
    }
  }

  lemma {:induction false} ClimbIsLookup(ics: Ics23, content: Content, proofs: seq<CommitmentProof>, specs: seq<Spec>,
                                         keys: seq<Bytes>, value: Bytes, i: nat, root: Bytes)
    requires Sound(ics, content)
    requires |specs| == |keys| == |proofs| && i <= |proofs|
    requires Climb(ics, proofs, specs, keys, value, i) == Some(root)
    ensures Lookup(content, specs[i..], root, keys[..|keys| - i]) == Some(value)
    decreases |proofs| - i
  {
    if i < |proofs| {
      var sub := ics.existenceRoot(proofs[i].proof).value;
      ClimbIsLookup(ics, content, proofs, specs, keys, sub, i + 1, root);
      LookupLeaf(content, specs[i..], root, keys[..|keys| - i]);
      assert specs[i..][1..] == specs[i + 1..];
      assert keys[..|keys| - i][..|keys| - i - 1] == keys[..|keys| - (i + 1)];
    }
  }

  /** An accepted membership proof fixes the value found from the root down, for any number of levels. */
  lemma MembershipIsLookup(ics: Ics23, content: Content, proofs: seq<CommitmentProof>, specs: seq<Spec>, root: Bytes,
                           keys: seq<Bytes>, value: Bytes)
    requires Sound(ics, content)
    requires MembershipAccepted(ics, proofs, specs, root, keys, value, 0)
    ensures Lookup(content, specs, root, keys) == Some(value)
  {
    ClimbIsLookup(ics, content, proofs, specs, keys, value, 0, root);
    assert specs[0..] == specs && keys[..|keys| - 0] == keys;
  }

  /** An accepted absence proof means the lookup reaches the last store and finds nothing there. */
  lemma NonMembershipIsLookup(ics: Ics23, content: Content, proofs: seq<CommitmentProof>, specs: seq<Spec>, root: Bytes,
                              keys: seq<Bytes>)
    requires Sound(ics, content)
    requires NonMembershipAccepted(ics, proofs, specs, root, keys)
    ensures Lookup(content, specs[1..], root, keys[..|keys| - 1]).Some?
    ensures Lookup(content, specs, root, keys).None?
  {
    var sub := NonExistenceRoot(ics, proofs[0]).value;
    ClimbIsLookup(ics, content, proofs, specs, keys, sub, 1, root);
    LookupLeaf(content, specs, root, keys);
  }

  /** One root never admits two values for a path, nor both a value and an absence. */
  lemma ProofsNeverConflict(ics: Ics23, content: Content, specs: seq<Spec>, root: Bytes, keys: seq<Bytes>,
                            proofs: seq<CommitmentProof>, value: Bytes, proofs': seq<CommitmentProof>, value': Bytes)
    requires Sound(ics, content)
    requires MembershipAccepted(ics, proofs, specs, root, keys, value, 0)
    ensures !NonMembershipAccepted(ics, proofs', specs, root, keys)
    ensures MembershipAccepted(ics, proofs', specs, root, keys, value', 0) ==> value == value'
  {
    MembershipIsLookup(ics, content, proofs, specs, root, keys, value);
    if NonMembershipAccepted(ics, proofs', specs, root, keys) {
      NonMembershipIsLookup(ics, content, proofs', specs, root, keys);
    }
    if MembershipAccepted(ics, proofs', specs, root, keys, value', 0) {
      MembershipIsLookup(ics, content, proofs', specs, root, keys, value');
    }
  }

  // ---------------------------------------------------------------- everything true can be shown

  /** A single-level proof that `key` holds `value` below `root`. */
  ghost predicate Shows(ics: Ics23, p: CommitmentProof, spec: Spec, root: Bytes, key: Bytes, value: Bytes) {
    p.Exist? && ics.existenceRoot(p.proof) == Some(root) && ics.member(p, spec, root, key, value)
  }

  /** Every entry of a tree has a single-level proof. */
  ghost predicate Complete(ics: Ics23, content: Content) {
    forall s, root, key :: key in content(s, root) ==> exists p :: Shows(ics, p, s, root, key, content(s, root)[key])
  }

  /** The levels from `i` up climb from `value` to `root`. */
  ghost predicate Leads(ics: Ics23, proofs: seq<CommitmentProof>, specs: seq<Spec>, keys: seq<Bytes>, value: Bytes, i: nat, root: Bytes) {
    |specs| == |keys| == |proofs| && Climb(ics, proofs, specs, keys, value, i) == Some(root)
  }

  /** Climbing looks only at the levels from `i` up. */
  lemma {:induction false} ClimbAbove(ics: Ics23, proofs: seq<CommitmentProof>, proofs': seq<CommitmentProof>, specs: seq<Spec>,
                                      keys: seq<Bytes>, value: Bytes, i: nat)
    requires |specs| == |keys| == |proofs| == |proofs'| && forall j :: i <= j < |proofs| ==> proofs'[j] == proofs[j]
    ensures Climb(ics, proofs', specs, keys, value, i) == Climb(ics, proofs, specs, keys, value, i)
    decreases |proofs| - i
  {
    if i < |proofs| && proofs[i].Exist? && ics.existenceRoot(proofs[i].proof).Some? {
      ClimbAbove(ics, proofs, proofs', specs, keys, ics.existenceRoot(proofs[i].proof).value, i + 1);
    }
  }

  lemma {:induction false} LookupClimbs(ics: Ics23, content: Content, specs: seq<Spec>, root: Bytes, keys: seq<Bytes>, value: Bytes, i: nat)
    returns (proofs: seq<CommitmentProof>)
    requires Complete(ics, content) && |specs| == |keys| && i <= |keys|
    requires Lookup(content, specs[i..], root, keys[..|keys| - i]) == Some(value)
    ensures Leads(ics, proofs, specs, keys, value, i, root)
    decreases |keys| - i
  {
    hide Shows;
    if i == |keys| {
      proofs := seq(|keys|, _ => Unset);
    } else {
      LookupLeaf(content, specs[i..], root, keys[..|keys| - i]);
      assert specs[i..][1..] == specs[i + 1..];
      assert keys[..|keys| - i][..|keys| - i - 1] == keys[..|keys| - (i + 1)];
      var key, spec := keys[|keys| - 1 - i], specs[i];
      var sub := Lookup(content, specs[i + 1..], root, keys[..|keys| - (i + 1)]).value;
      var above := LookupClimbs(ics, content, specs, root, keys, sub, i + 1);
      var p :| Shows(ics, p, spec, sub, key, value);
      proofs := above[i := p];
      ClimbAbove(ics, above, proofs, specs, keys, sub, i + 1);
      ShownLevel(ics, proofs, specs, keys, value, i, sub, root);
    }
  }

  lemma ShownLevel(ics: Ics23, proofs: seq<CommitmentProof>, specs: seq<Spec>, keys: seq<Bytes>, value: Bytes, i: nat, sub: Bytes, root: Bytes)
    requires Leads(ics, proofs, specs, keys, sub, i + 1, root) && i < |proofs|
    requires Shows(ics, proofs[i], specs[i], sub, keys[|keys| - 1 - i], value)
    ensures Leads(ics, proofs, specs, keys, value, i, root)
  {
  }

  /**
   A value can be shown to sit at a path, over any number of levels, exactly when the lookup from the root finds it there and
   the path, the root and the value are not empty.
   */
  lemma MembershipExactly(ics: Ics23, content: Content, specs: seq<Spec>, root: Bytes, keys: seq<Bytes>, value: Bytes)
    requires Sound(ics, content) && Complete(ics, content)
    ensures (exists proofs :: MembershipAccepted(ics, proofs, specs, root, keys, value, 0)) <==>
              && |keys| == |specs| > 0 && |root| > 0 && |value| > 0
              && Lookup(content, specs, root, keys) == Some(value)
  {
    forall proofs | MembershipAccepted(ics, proofs, specs, root, keys, value, 0)
      ensures |keys| == |specs| > 0 && Lookup(content, specs, root, keys) == Some(value)
    {
      MembershipIsLookup(ics, content, proofs, specs, root, keys, value);
    }
    if |keys| == |specs| > 0 && |root| > 0 && |value| > 0 && Lookup(content, specs, root, keys) == Some(value) {
      assert specs[0..] == specs && keys[..|keys| - 0] == keys;
      var proofs := LookupClimbs(ics, content, specs, root, keys, value, 0);
      assert MembershipAccepted(ics, proofs, specs, root, keys, value, 0);
    }
  }

  /** A single-level proof that `key` is absent below `root`, which is that of its left neighbour or, without one, of its right. */
  ghost predicate ShowsAbsent(ics: Ics23, p: CommitmentProof, spec: Spec, root: Bytes, key: Bytes) {
    && p.Nonexist?
    && (p.left.Some? || p.right.Some?)
    && ics.existenceRoot(if p.left.Some? then p.left.value else p.right.value) == Some(root)
    && ics.nonMember(p, spec, root, key)
  }

  /** The lookup reaches the last store, at `sub`, and a single-level proof shows the key absent there. */
  ghost predicate AbsentAt(ics: Ics23, content: Content, specs: seq<Spec>, root: Bytes, keys: seq<Bytes>, sub: Bytes, p: CommitmentProof) {
    && |keys| == |specs| > 0 && |root| > 0 && |sub| > 0
    && Lookup(content, specs[1..], root, keys[..|keys| - 1]) == Some(sub)
    && ShowsAbsent(ics, p, specs[0], sub, keys[|keys| - 1])
  }

  lemma AbsenceFound(ics: Ics23, content: Content, proofs: seq<CommitmentProof>, specs: seq<Spec>, root: Bytes, keys: seq<Bytes>)
    requires Sound(ics, content) && NonMembershipAccepted(ics, proofs, specs, root, keys)
    ensures AbsentAt(ics, content, specs, root, keys, NonExistenceRoot(ics, proofs[0]).value, proofs[0])
  {
    ClimbIsLookup(ics, content, proofs, specs, keys, NonExistenceRoot(ics, proofs[0]).value, 1, root);
  }

  /** A path can be shown to be absent exactly when the lookup reaches its last store and a single-level proof shows it absent there. */
  lemma NonMembershipExactly(ics: Ics23, content: Content, specs: seq<Spec>, root: Bytes, keys: seq<Bytes>)
    requires Sound(ics, content) && Complete(ics, content)
    ensures (exists proofs :: NonMembershipAccepted(ics, proofs, specs, root, keys)) <==>
              exists sub, p :: AbsentAt(ics, content, specs, root, keys, sub, p)
  {
    hide Sound, Complete, Lookup;
    forall proofs | NonMembershipAccepted(ics, proofs, specs, root, keys)
      ensures AbsentAt(ics, content, specs, root, keys, NonExistenceRoot(ics, proofs[0]).value, proofs[0])
    {
      AbsenceFound(ics, content, proofs, specs, root, keys);
    }
    if exists sub, p :: AbsentAt(ics, content, specs, root, keys, sub, p) {
      var sub, p :| AbsentAt(ics, content, specs, root, keys, sub, p);
      var above := LookupClimbs(ics, content, specs, root, keys, sub, 1);
      var proofs := above[0 := p];
      ClimbAbove(ics, above, proofs, specs, keys, sub, 1);
      assert NonMembershipAccepted(ics, proofs, specs, root, keys);
    }
  }
}
